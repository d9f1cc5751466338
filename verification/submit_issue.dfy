/**
 * The submission form of `src/pages/SubmitIssuePage.jsx`: field validation,
 * the payload posted to `/api/submit_issue`, the capped list of recent
 * tickets kept in browser storage, and the reset for a new submission. The
 * backend's reply and the clock are parameters.
 */
module SubmitIssue {
  import opened Js
  import opened Session

  /** The form's inputs. */
  datatype Fields = Fields(
    isAnonymous: bool,
    title: string,
    description: string,
    category: string,
    name: string,
    email: string,
    phone: string,
    admission: string)

  /**
   * The regular expression `\S+@\S+\.\S+` matches at `at` (the '@') and
   * `dot` (the '.'): a non-space before '@', only non-spaces between '@'
   * and '.', at least one of them, and a non-space after '.'.
   */
  predicate EmailShapeAt(email: string, at: int, dot: int) {
    && 0 < at && at + 1 < dot && dot + 1 < |email|
    && email[at] == '@' && email[dot] == '.'
    && !IsSpace(email[at - 1]) && !IsSpace(email[dot + 1])
    && forall k | at < k < dot :: !IsSpace(email[k])
  }

  /** `/\S+@\S+\.\S+/.test(email)`: the pattern is unanchored, so any stretch of `email` may match. */
  predicate MatchesEmailPattern(email: string): (b: bool)
    ensures b ==> 5 <= |email|
    ensures b ==> exists i | 1 <= i < |email| - 3 :: email[i] == '@'
    ensures forall at, dot | 0 <= at < |email| && 0 <= dot < |email| && EmailShapeAt(email, at, dot) :: b
  {
    exists at, dot | 0 <= at < |email| && 0 <= dot < |email| :: EmailShapeAt(email, at, dot)
  }

  /** What the pattern accepts and rejects, on representative inputs. */
  lemma EmailPatternExamples()
    ensures MatchesEmailPattern("jane@students.zetech.ac.ke")
    ensures MatchesEmailPattern("  see a@b.c here")
    ensures !MatchesEmailPattern("a@b")
    ensures !MatchesEmailPattern("a@.b")
    ensures !MatchesEmailPattern("a @b.c")
  {
    assert EmailShapeAt("jane@students.zetech.ac.ke", 4, 13);
    assert EmailShapeAt("  see a@b.c here", 7, 9);
  }

  /**
   * The keys of the `errors` object: one per field `validateForm` checks, in
   * the order it checks them, and `api` for a failed request.
   */
  datatype ErrorKey = Title | Description | Category | Name | Email | Phone | Admission | Api

  /** The property name each key has in the `errors` object. */
  function KeyName(k: ErrorKey): string {
    match k
    case Title => "title"
    case Description => "description"
    case Category => "category"
    case Name => "name"
    case Email => "email"
    case Phone => "phone"
    case Admission => "admission"
    case Api => "api"
  }

  /** Distinct keys are distinct properties of the `errors` object. */
  lemma KeyNamesDistinct(j: ErrorKey, k: ErrorKey)
    ensures KeyName(j) == KeyName(k) <==> j == k
  {
  }

  /** The message `validateForm` records under `k`, if that check fails; it never records `api`. */
  function ErrorFor(f: Fields, k: ErrorKey): (r: Option<string>)
    ensures k == Api ==> r.None?
    ensures r.Some? ==> r.value != ""
  {
    match k
    case Title => if Trim(f.title) == "" then Some("Title is required") else None
    case Description => if Trim(f.description) == "" then Some("Description is required") else None
    case Category => if f.category == "" then Some("Category is required") else None
    case Name => if f.isAnonymous || Trim(f.name) != "" then None else Some("Name is required")
    case Email =>
      if f.isAnonymous then None
      else if Trim(f.email) == "" then Some("Email is required")
      else if !MatchesEmailPattern(f.email) then Some("Invalid email format")
      else None
    case Phone => if f.isAnonymous || Trim(f.phone) != "" then None else Some("Phone number is required")
    case Admission => if f.isAnonymous || Trim(f.admission) != "" then None else Some("Admission number is required")
    case Api => None
  }

  /** One check of `validateForm`: record the message for `k` if that check fails. */
  function Check(e: map<ErrorKey, string>, f: Fields, k: ErrorKey): (r: map<ErrorKey, string>)
    ensures Api in r ==> Api in e
    ensures (forall j | j in e :: e[j] != "") ==> forall j | j in r :: r[j] != ""
  {
    if ErrorFor(f, k).Some? then e[k := ErrorFor(f, k).value] else e
  }

  /** The `newErrors` object: the checks run one after the other, in the order of `validateForm`. */
  function FormErrors(f: Fields): (r: map<ErrorKey, string>)
    ensures Api !in r
    ensures forall k | k in r :: r[k] != ""
  {
    Check(Check(Check(Check(Check(Check(Check(map[], f, Title), f, Description), f, Category),
      f, Name), f, Email), f, Phone), f, Admission)
  }

  lemma CheckAt(e: map<ErrorKey, string>, f: Fields, j: ErrorKey, k: ErrorKey)
    ensures k in Check(e, f, j) <==> k in e || (k == j && ErrorFor(f, j).Some?)
    ensures k in Check(e, f, j) ==>
      Check(e, f, j)[k] == if k == j && ErrorFor(f, j).Some? then ErrorFor(f, j).value else e[k]
  {
  }

  /** Each entry of `newErrors` is there exactly when its own check fails, and holds that check's message. */
  lemma FormErrorsAt(f: Fields, k: ErrorKey)
    ensures k in FormErrors(f) <==> ErrorFor(f, k).Some?
    ensures k in FormErrors(f) ==> FormErrors(f)[k] == ErrorFor(f, k).value
  {
    var e1 := Check(map[], f, Title);
    var e2 := Check(e1, f, Description);
    var e3 := Check(e2, f, Category);
    var e4 := Check(e3, f, Name);
    var e5 := Check(e4, f, Email);
    var e6 := Check(e5, f, Phone);
    CheckAt(map[], f, Title, k);
    CheckAt(e1, f, Description, k);
    CheckAt(e2, f, Category, k);
    CheckAt(e3, f, Name, k);
    CheckAt(e4, f, Email, k);
    CheckAt(e5, f, Phone, k);
    CheckAt(e6, f, Admission, k);
  }

  /** The checks a submission must pass, stated on blankness rather than on `trim`. */
  predicate FormOk(f: Fields) {
    && !IsBlank(f.title) && !IsBlank(f.description) && f.category != ""
    && (f.isAnonymous ||
        (!IsBlank(f.name) && !IsBlank(f.email) && MatchesEmailPattern(f.email) &&
         !IsBlank(f.phone) && !IsBlank(f.admission)))
  }

  /** `validateForm` reports success exactly when every check passes. */
  lemma FormErrorsEmptyIffOk(f: Fields)
    ensures FormErrors(f) == map[] <==> FormOk(f)
  {
    TrimIsEmptyIffBlank(f.title);
    TrimIsEmptyIffBlank(f.description);
    TrimIsEmptyIffBlank(f.name);
    TrimIsEmptyIffBlank(f.email);
    TrimIsEmptyIffBlank(f.phone);
    TrimIsEmptyIffBlank(f.admission);
    var e := FormErrors(f);
    if e == map[] {
      forall k: ErrorKey ensures ErrorFor(f, k).None? {
        FormErrorsAt(f, k);
      }
      assert ErrorFor(f, Title).None? && ErrorFor(f, Description).None? && ErrorFor(f, Category).None?;
      assert ErrorFor(f, Name).None? && ErrorFor(f, Email).None?;
      assert ErrorFor(f, Phone).None? && ErrorFor(f, Admission).None?;
    } else {
      var k :| k in e;
      FormErrorsAt(f, k);
    }
  }

  /** In anonymous mode the contact fields are not looked at. */
  lemma AnonymousSkipsContactChecks(f: Fields, name: string, email: string, phone: string, admission: string)
    requires f.isAnonymous
    ensures FormErrors(f) == FormErrors(f.(name := name, email := email, phone := phone, admission := admission))
    ensures FormErrors(f).Keys <= {Title, Description, Category}
  {
    forall k | k in FormErrors(f) ensures k in {Title, Description, Category} {
      FormErrorsAt(f, k);
    }
  }

  /** A blank email in named mode is reported only as missing, never as malformed. */
  lemma BlankEmailIsOnlyRequired(f: Fields)
    requires !f.isAnonymous && IsBlank(f.email)
    ensures Email in FormErrors(f) && FormErrors(f)[Email] == "Email is required"
  {
    TrimIsEmptyIffBlank(f.email);
    FormErrorsAt(f, Email);
  }

  /** The `issueData` object posted to the backend. */
  datatype Payload = Payload(
    title: string,
    description: string,
    category: string,
    name: Option<string>,
    userId: Option<string>,
    email: Option<string>,
    phone: Option<string>,
    admission: Option<string>)

  /** `user?.user_id || null`. */
  function UserIdOf(user: Option<User>): Option<string> {
    if user.Some? && Truthy(user.value.userId) then user.value.userId else None
  }

  /** `issueData`: an anonymous submission carries no identifying field. */
  function IssuePayload(f: Fields, user: Option<User>): (p: Payload)
    ensures f.isAnonymous ==>
      p.name.None? && p.userId.None? && p.email.None? && p.phone.None? && p.admission.None?
    ensures !f.isAnonymous ==>
      p.name == Some(f.name) && p.email == Some(f.email) && p.phone == Some(f.phone) &&
      p.admission == Some(f.admission) && p.userId == UserIdOf(user)
    ensures p.title == f.title && p.description == f.description && p.category == f.category
  {
    Payload(
      f.title, f.description, f.category,
      if f.isAnonymous then None else Some(f.name),
      if f.isAnonymous then None else UserIdOf(user),
      if f.isAnonymous then None else Some(f.email),
      if f.isAnonymous then None else Some(f.phone),
      if f.isAnonymous then None else Some(f.admission))
  }

  /** One entry of the `recentTickets` list in browser storage. */
  datatype RecentTicket = RecentTicket(ticketId: string, title: string, date: string)

  const MaxRecentTickets := 10

  function Min(a: int, b: int): int { if a < b then a else b }

  /** `[newTicket, ...existingTickets].slice(0, 10)`. */
  function RecentTicketsAfter(existing: seq<RecentTicket>, newTicket: RecentTicket): (r: seq<RecentTicket>)
    ensures |r| == Min(|existing| + 1, MaxRecentTickets)
    ensures r[0] == newTicket
    ensures r[1..] == existing[..|r| - 1]
  {
    ([newTicket] + existing)[..Min(|existing| + 1, MaxRecentTickets)]
  }

  /** What `/api/submit_issue` answers: a ticket ID, or an error with an optional server message. */
  datatype SubmitReply = Accepted(ticketId: string) | Rejected(serverError: Option<string>)

  /** `err.response?.data?.error || "Server error. Try again later."`. */
  function ApiErrorMessage(serverError: Option<string>): (r: string)
    ensures r != ""
    ensures Truthy(serverError) ==> r == serverError.value
    ensures !Truthy(serverError) ==> r == "Server error. Try again later."
  {
    Or(serverError, "Server error. Try again later.")
  }

  /** The page's state: the form fields, `errors`, `submitted`, `ticketId` and the stored recent tickets. */
  class SubmitIssueForm {
    var isAnonymous: bool
    var title: string
    var description: string
    var category: string
    var name: string
    var email: string
    var phone: string
    var admission: string
    var errors: map<ErrorKey, string>
    var submitted: bool
    var ticketId: string
    var recentTickets: seq<RecentTicket>

    function CurrentFields(): Fields
      reads this
    {
      Fields(isAnonymous, title, description, category, name, email, phone, admission)
    }

    constructor (stored: seq<RecentTicket>)
      ensures isAnonymous && title == "" && description == "" && category == ""
      ensures name == "" && email == "" && phone == "" && admission == ""
      ensures errors == map[] && !submitted && ticketId == "" && recentTickets == stored
    {
      isAnonymous := true;
      title, description, category := "", "", "";
      name, email, phone, admission := "", "", "", "";
      errors := map[];
      submitted := false;
      ticketId := "";
      recentTickets := stored;
    }

    /** The pre-fill effect: a logged-in student submits under their own name and email. */
    method PrefillFromUser(user: Option<User>)
      modifies this`isAnonymous, this`name, this`email
      ensures user.Some? && user.value.role == Some("student") ==>
        !isAnonymous && name == Or(user.value.name, "") && email == Or(user.value.email, "")
      ensures !(user.Some? && user.value.role == Some("student")) ==>
        isAnonymous == old(isAnonymous) && name == old(name) && email == old(email)
    {
      if user.Some? && user.value.role == Some("student") {
        isAnonymous := false;
        name := Or(user.value.name, "");
        email := Or(user.value.email, "");
      }
    }

    /** `validateForm`: compute `newErrors` from the current fields, store it, report whether it is empty. */
    method ValidateForm() returns (valid: bool)
      modifies this`errors
      ensures errors == FormErrors(CurrentFields())
      ensures valid <==> FormOk(CurrentFields())
    {
      var newErrors := FormErrors(CurrentFields());
      FormErrorsEmptyIffOk(CurrentFields());
      assert |newErrors| == 0 <==> newErrors == map[] by {
        if |newErrors| == 0 {
          assert newErrors.Keys == {};
        }
      }
      errors := newErrors;
      valid := |newErrors| == 0;
    }

    /**
     * `handleSubmit`: validate; when valid, post the payload (returned as
     * `sent`); on acceptance record the ticket and put it at the head of the
     * recent tickets, on failure replace the errors with a single `api` entry.
     */
    method HandleSubmit(user: Option<User>, reply: SubmitReply, nowIso: string) returns (sent: Option<Payload>)
      modifies this
      ensures CurrentFields() == old(CurrentFields())
      ensures !FormOk(CurrentFields()) ==>
        sent.None? && errors == FormErrors(CurrentFields()) &&
        submitted == old(submitted) && ticketId == old(ticketId) && recentTickets == old(recentTickets)
      ensures FormOk(CurrentFields()) ==> sent == Some(IssuePayload(CurrentFields(), user))
      ensures FormOk(CurrentFields()) && reply.Accepted? ==>
        ticketId == reply.ticketId && submitted && errors == map[] &&
        recentTickets == RecentTicketsAfter(old(recentTickets), RecentTicket(reply.ticketId, title, nowIso))
      ensures FormOk(CurrentFields()) && reply.Rejected? ==>
        errors == map[Api := ApiErrorMessage(reply.serverError)] &&
        submitted == old(submitted) && ticketId == old(ticketId) && recentTickets == old(recentTickets)
    {
      var valid := ValidateForm();
      FormErrorsEmptyIffOk(CurrentFields());
      if !valid {
        return None;
      }
      var issueData := IssuePayload(CurrentFields(), user);
      sent := Some(issueData);
      match reply
      case Accepted(id) =>
        ticketId := id;
        submitted := true;
        var newTicket := RecentTicket(id, title, nowIso);
        recentTickets := RecentTicketsAfter(recentTickets, newTicket);
      case Rejected(serverError) =>
        errors := map[Api := ApiErrorMessage(serverError)];
    }

    /** `handleNewSubmission`: clear the form for another issue, keeping the user's name and email. */
    method HandleNewSubmission(user: Option<User>)
      modifies this
      ensures title == "" && description == "" && category == "" && phone == "" && admission == ""
      ensures name == (if user.Some? then Or(user.value.name, "") else "")
      ensures email == (if user.Some? then Or(user.value.email, "") else "")
      ensures !submitted && ticketId == "" && errors == map[]
      ensures isAnonymous == old(isAnonymous) && recentTickets == old(recentTickets)
    {
      title := "";
      description := "";
      category := "";
      name := if user.Some? then Or(user.value.name, "") else "";
      email := if user.Some? then Or(user.value.email, "") else "";
      phone := "";
      admission := "";
      submitted := false;
      ticketId := "";
      errors := map[];
    }
  }
}
