/**
 * Session values shared by the authentication context and the HTTP client:
 * the user profile, the outcome of decoding a JWT, the expiry rule and the
 * get-or-create rule for the per-browser device identifier. Both
 * `src/context/AuthContext.jsx` and `utils/ApiSocket.js` carry their own copy
 * of `getDeviceId`; the rule they share is stated once here.
 */
module Session {
  import opened Js

  /** The profile object the backend returns from `/profile`. */
  datatype User = User(
    id: Option<string>,
    userId: Option<string>,
    name: Option<string>,
    email: Option<string>,
    role: Option<string>)

  /** What `jwtDecode(token)` yields: it throws on a malformed token, else gives claims whose `exp` may be missing. */
  datatype Decoded = Malformed | Claims(exp: Option<int>)

  const TokenKey := "token"
  const DeviceIdKey := "device_id"
  const DeviceIdPrefix := "DEV-"

  /**
   * `decoded.exp && decoded.exp < Date.now() / 1000`: a missing or zero `exp`
   * is falsy and never expires; the clock is read in milliseconds.
   */
  predicate Expired(exp: Option<int>, nowMs: int): (b: bool)
    ensures b <==> exp.Some? && exp.value != 0 && (exp.value as real) < (nowMs as real) / 1000.0
  {
    exp.Some? && exp.value != 0 && exp.value * 1000 < nowMs
  }

  /** A token without an `exp` claim is never treated as expired, whatever the clock says. */
  lemma NoExpNeverExpires(nowMs: int)
    ensures !Expired(None, nowMs)
  {
  }

  /** The device id `getDeviceId` returns and the storage it leaves behind. */
  datatype DeviceIdStep = DeviceIdStep(deviceId: string, storage: map<string, string>)

  /**
   * `getDeviceId`: reuse a stored (truthy) `device_id`, otherwise store and
   * return `"DEV-" + suffix`, where `suffix` stands for the upper-cased
   * base-36 digits of `Math.random()`.
   */
  function DeviceIdAfter(storage: map<string, string>, suffix: string): (r: DeviceIdStep)
    ensures Truthy(GetItem(storage, DeviceIdKey)) ==> r.deviceId == storage[DeviceIdKey] && r.storage == storage
    ensures !Truthy(GetItem(storage, DeviceIdKey)) ==>
      StartsWith(r.deviceId, DeviceIdPrefix) && r.deviceId[|DeviceIdPrefix|..] == suffix
    ensures r.deviceId != "" && DeviceIdKey in r.storage && r.storage[DeviceIdKey] == r.deviceId
    ensures forall k | k in storage && k != DeviceIdKey :: k in r.storage && r.storage[k] == storage[k]
    ensures r.storage.Keys == storage.Keys + {DeviceIdKey}
  {
    var stored := GetItem(storage, DeviceIdKey);
    if Truthy(stored) then DeviceIdStep(stored.value, storage)
    else
      var id := DeviceIdPrefix + suffix;
      DeviceIdStep(id, storage[DeviceIdKey := id])
  }

  /**
   * Get-or-create is idempotent: once a call has run, every later call
   * returns the same id and leaves storage alone, whatever randomness it draws.
   */
  lemma DeviceIdIsStable(storage: map<string, string>, first: string, later: string)
    ensures DeviceIdAfter(DeviceIdAfter(storage, first).storage, later) == DeviceIdAfter(storage, first)
  {
  }

  /** The browser's `localStorage`, shared by the authentication context and the HTTP client. */
  class LocalStorage {
    var items: map<string, string>

    constructor (items: map<string, string>)
      ensures this.items == items
    {
      this.items := items;
    }

    /** `localStorage.setItem(key, value)`. */
    method SetItem(key: string, value: string)
      modifies this
      ensures items == old(items)[key := value]
    {
      items := items[key := value];
    }

    /** `localStorage.removeItem(key)`. */
    method RemoveItem(key: string)
      modifies this
      ensures items == old(items) - {key}
      ensures key !in items
    {
      items := items - {key};
    }

    /**
     * `getDeviceId`, of which `AuthContext.jsx` and `ApiSocket.js` each
     * carry an identical copy; `suffix` stands for the random part.
     */
    method GetDeviceId(suffix: string) returns (deviceId: string)
      modifies this
      ensures DeviceIdAfter(old(items), suffix) == DeviceIdStep(deviceId, items)
    {
      var stored := GetItem(items, DeviceIdKey);
      if Truthy(stored) {
        deviceId := stored.value;
      } else {
        deviceId := DeviceIdPrefix + suffix;
        SetItem(DeviceIdKey, deviceId);
      }
    }
  }
}
