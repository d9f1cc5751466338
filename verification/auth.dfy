/**
 * The authentication context of `src/context/AuthContext.jsx`: the token
 * kept in browser storage and in state, the user profile, the check run
 * whenever the token changes, login with a role-based landing page, and
 * logout. The JWT decoder, the clock and the backend's replies are
 * parameters; `path` is where the router was last sent.
 */
module Auth {
  import opened Js
  import opened Session
  import ProtectedRoute

  const AccessDeniedPath := "/access-denied"
  const DefaultLogoutPath := "/login"
  const AdminHome := "/admin/dashboard"
  const StudentHome := "/student/dashboard"
  const UnauthorizedPath := "/unauthorized"

  /** What `api.get("/profile")` gives: a failed request, or data whose `user` may be missing. */
  datatype ProfileReply = ProfileFailed | ProfileOk(user: Option<User>)

  /** What `api.post("/login", ...)` gives: a failed request, or data whose `token` may be missing. */
  datatype LoginReply = LoginFailed | LoginOk(token: Option<string>)

  /** The landing page after login: by role, and `/unauthorized` for any other role or none. */
  function HomeForRole(role: Option<string>): (r: string)
    ensures role == Some("admin") <==> r == AdminHome
    ensures role == Some("student") <==> r == StudentHome
    ensures role != Some("admin") && role != Some("student") <==> r == UnauthorizedPath
  {
    if role == Some("admin") then AdminHome
    else if role == Some("student") then StudentHome
    else UnauthorizedPath
  }

  /** What the token-change effect decides for a present token. */
  datatype SessionCheck = KeepSession(user: User) | EndSession

  /**
   * The effect's verdict on a truthy token: a malformed or expired token
   * ends the session before the profile is asked for; otherwise the
   * profile's `user` is adopted, and a failed request or a missing user
   * ends the session.
   */
  function CheckSession(decoded: Decoded, nowMs: int, profile: ProfileReply): (r: SessionCheck)
    ensures r.KeepSession? <==>
      decoded.Claims? && !Expired(decoded.exp, nowMs) && profile.ProfileOk? && profile.user.Some?
    ensures r.KeepSession? ==> r.user == profile.user.value
  {
    if decoded.Malformed? || Expired(decoded.exp, nowMs) then EndSession
    else match profile
      case ProfileOk(Some(u)) => KeepSession(u)
      case _ => EndSession
  }

  /** The `AuthProvider` state, over the shared browser storage. */
  class AuthProvider {
    const storage: LocalStorage
    var token: Option<string>
    var user: Option<User>
    var path: string

    /** `useState(localStorage.getItem("token"))` and `useState(null)`. */
    constructor (storage: LocalStorage, path: string)
      ensures this.storage == storage && this.path == path
      ensures token == GetItem(storage.items, TokenKey) && user.None?
    {
      this.storage := storage;
      this.path := path;
      token := GetItem(storage.items, TokenKey);
      user := None;
    }

    /** `isAuthenticated: !!token`. */
    predicate IsAuthenticated(): (b: bool)
      reads this
      ensures b <==> token.Some? && token.value != ""
    {
      Truthy(token)
    }

    /** `logout(redirect = "/login")`: forget the token everywhere and the user, then navigate. */
    method Logout(redirect: Option<string>)
      modifies this`token, this`user, this`path, storage
      ensures storage.items == old(storage.items) - {TokenKey}
      ensures token.None? && user.None? && !IsAuthenticated()
      ensures path == (if redirect.Some? then redirect.value else DefaultLogoutPath)
    {
      storage.RemoveItem(TokenKey);
      token := None;
      user := None;
      path := if redirect.Some? then redirect.value else DefaultLogoutPath;
    }

    /**
     * The effect run when `token` changes: nothing without a token;
     * otherwise `CheckSession` decides between adopting the profile's user
     * and logging out to `/access-denied`.
     */
    method OnTokenChange(decode: string -> Decoded, nowMs: int, profile: ProfileReply)
      modifies this`token, this`user, this`path, storage
      ensures !Truthy(old(token)) ==>
        token == old(token) && user == old(user) && path == old(path) && storage.items == old(storage.items)
      ensures Truthy(old(token)) && CheckSession(decode(old(token).value), nowMs, profile).KeepSession? ==>
        user == Some(CheckSession(decode(old(token).value), nowMs, profile).user) &&
        token == old(token) && path == old(path) && storage.items == old(storage.items)
      ensures Truthy(old(token)) && CheckSession(decode(old(token).value), nowMs, profile).EndSession? ==>
        token.None? && user.None? && path == AccessDeniedPath &&
        storage.items == old(storage.items) - {TokenKey}
      ensures IsAuthenticated() ==> token == old(token) && user.Some?
    {
      if !Truthy(token) {
        return;
      }
      var decoded := decode(token.value);
      if decoded.Malformed? {
        Logout(Some(AccessDeniedPath));
        return;
      }
      if Expired(decoded.exp, nowMs) {
        Logout(Some(AccessDeniedPath));
        return;
      }
      match profile
      case ProfileOk(Some(u)) =>
        user := Some(u);
      case _ =>
        Logout(Some(AccessDeniedPath));
    }

    /**
     * `login`: fix the device id first; store the token only when the reply
     * carries one; then adopt the profile's user and land on the role's
     * page. `ok` is false where the source throws; `deviceId` is the id
     * posted with the credentials.
     */
    method Login(suffix: string, reply: LoginReply, profile: ProfileReply) returns (deviceId: string, ok: bool)
      modifies this`token, this`user, this`path, storage
      ensures DeviceIdAfter(old(storage.items), suffix).deviceId == deviceId
      ensures !(reply.LoginOk? && Truthy(reply.token)) ==>
        !ok && storage.items == DeviceIdAfter(old(storage.items), suffix).storage &&
        token == old(token) && user == old(user) && path == old(path)
      ensures reply.LoginOk? && Truthy(reply.token) ==>
        token == reply.token &&
        storage.items == DeviceIdAfter(old(storage.items), suffix).storage[TokenKey := reply.token.value]
      ensures reply.LoginOk? && Truthy(reply.token) && profile.ProfileFailed? ==>
        !ok && user == old(user) && path == old(path)
      ensures reply.LoginOk? && Truthy(reply.token) && profile.ProfileOk? ==>
        user == profile.user &&
        (ok <==> profile.user.Some?) &&
        (ok ==> path == HomeForRole(profile.user.value.role)) &&
        (!ok ==> path == old(path))
    {
      deviceId := storage.GetDeviceId(suffix);
      if !(reply.LoginOk? && Truthy(reply.token)) {
        return deviceId, false;
      }
      storage.SetItem(TokenKey, reply.token.value);
      token := reply.token;
      if profile.ProfileFailed? {
        return deviceId, false;
      }
      var userData := profile.user;
      user := userData;
      if userData.None? {
        return deviceId, false;
      }
      path := HomeForRole(userData.value.role);
      ok := true;
    }
  }

  /**
   * Login lands an admin or a student on their role's dashboard; the
   * corrected guard admits them there, the guard as routed sends them home.
   */
  lemma LandingPageIsOpenOnlyUnderCorrectedGuard(u: User)
    requires u.role == Some("admin") || u.role == Some("student")
    ensures HomeForRole(u.role) != UnauthorizedPath
    ensures ProtectedRoute.GuardForRoles(true, Some(u), [u.role.value]) == ProtectedRoute.RenderChildren
    ensures ProtectedRoute.GuardAsRouted(true, Some(u), [u.role.value]) == ProtectedRoute.Redirect(ProtectedRoute.HomePath)
  {
  }

  /** A token the check lets through is well-formed and not expired. */
  lemma KeptSessionsAreLive(decoded: Decoded, nowMs: int, profile: ProfileReply)
    requires CheckSession(decoded, nowMs, profile).KeepSession?
    ensures decoded.Claims? && (decoded.exp.None? || decoded.exp.value == 0 || nowMs <= decoded.exp.value * 1000)
  {
  }
}
