/**
 * The admin's view of one issue, `src/pages/IssueDetailsPage.jsx`: an id
 * starting with "dummy" is looked up in the page's own sample records, any
 * other id in the issue store; the status select and the response form
 * write to whichever of the two the issue came from.
 */
module IssueDetails {
  import opened Js
  import opened Session
  import opened IssueStore
  import AdminDashboard

  const DummyPrefix := "dummy"
  const ResponseRequiredMessage := "Response text is required"

  /** The page's sample records: the first two of the dashboard's, keyed by id. */
  const DetailDummies: map<string, Issue> := map[
    "dummy-1" := AdminDashboard.DummyIssues[0],
    "dummy-2" := AdminDashboard.DummyIssues[1]
  ]

  /** `id.startsWith('dummy')`: the record lives in the sample map, not in the store. */
  predicate IsDummyId(id: string) {
    StartsWith(id, DummyPrefix)
  }

  /** The `issue` the page renders, or `None` for the not-found page. */
  function ResolveIssue(id: string, dummies: map<string, Issue>, issues: seq<Issue>): (r: Option<Issue>)
    ensures IsDummyId(id) ==> (r.Some? <==> id in dummies) && (r.Some? ==> r.value == dummies[id])
    ensures !IsDummyId(id) ==> r == IssueById(issues, id)
    ensures !IsDummyId(id) && r.Some? ==> r.value.id == id
  {
    if IsDummyId(id) then (if id in dummies then Some(dummies[id]) else None)
    else IssueById(issues, id)
  }

  /**
   * The dashboard lists a third sample issue, "dummy-3", that the details
   * page has no record of: following its link shows "Issue Not Found".
   */
  lemma DashboardSampleThreeIsNotFound(issues: seq<Issue>)
    ensures AdminDashboard.DummyIssues[2].id == "dummy-3"
    ensures ResolveIssue("dummy-3", DetailDummies, issues).None?
  {
    assert IsDummyId("dummy-3") by {
      assert "dummy-3"[..|DummyPrefix|] == DummyPrefix;
    }
    assert "dummy-3" != "dummy-1" && "dummy-3" != "dummy-2" by {
      assert "dummy-3"[6] != "dummy-1"[6] && "dummy-3"[6] != "dummy-2"[6];
    }
  }

  /** The response a sample issue gains: an id from the clock, the admin's id and name with their fallbacks. */
  function DummyResponse(text: string, user: Option<User>, now: nat): (r: Response)
    ensures StartsWith(r.id, "resp-") && r.id[5..] == NatToString(now)
    ensures r.text == text && r.createdAt == now
    ensures r.adminName != ""
    ensures r.adminId == AdminIdOf(user) && r.adminName == AdminNameOf(user)
  {
    Response(
      id := "resp-" + NatToString(now),
      text := text,
      adminId := AdminIdOf(user),
      adminName := AdminNameOf(user),
      createdAt := now)
  }

  /** `user?.id || ''`. */
  function AdminIdOf(user: Option<User>): (r: string)
    ensures user.Some? && Truthy(user.value.id) ==> r == user.value.id.value
    ensures !(user.Some? && Truthy(user.value.id)) ==> r == ""
  {
    if user.Some? then Or(user.value.id, "") else ""
  }

  /** `user?.name || 'Admin'`: never empty. */
  function AdminNameOf(user: Option<User>): (r: string)
    ensures r != ""
    ensures user.Some? && Truthy(user.value.name) ==> r == user.value.name.value
    ensures !(user.Some? && Truthy(user.value.name)) ==> r == "Admin"
  {
    if user.Some? then Or(user.value.name, "Admin") else "Admin"
  }

  /**
   * The page for route id `id`. `dummies` is the module-level sample map,
   * which the handlers mutate in place; `store` is the issue store.
   */
  class IssueDetailsPage {
    const id: string
    const store: Store
    var dummies: map<string, Issue>
    var responseText: string
    var error: string

    constructor (id: string, store: Store, dummies: map<string, Issue>)
      ensures this.id == id && this.store == store && this.dummies == dummies
      ensures responseText == "" && error == ""
    {
      this.id := id;
      this.store := store;
      this.dummies := dummies;
      responseText := "";
      error := "";
    }

    /** The issue the page renders. */
    function Current(): Option<Issue>
      reads this, store
    {
      ResolveIssue(id, dummies, store.issues)
    }

    /**
     * `handleStatusChange`, reachable only once the issue is rendered: a
     * stored issue goes through `updateIssueStatus`; a sample issue is
     * changed in place. Either way the record the page reads now carries
     * the new status and time.
     */
    method HandleStatusChange(status: string, now: int)
      requires Current().Some?
      modifies store, this`dummies
      ensures !IsDummyId(id) ==>
        store.issues == WithStatus(old(store.issues), id, status, now) && dummies == old(dummies)
      ensures IsDummyId(id) ==>
        dummies == old(dummies)[id := old(dummies)[id].(status := status, updatedAt := now)] &&
        store.issues == old(store.issues)
      ensures Current() == Some(old(Current()).value.(status := status, updatedAt := now))
    {
      if !IsDummyId(id) {
        WithStatusThenLookup(store.issues, id, status, now);
        store.UpdateIssueStatus(id, status, now);
      } else {
        var issue := dummies[id];
        dummies := dummies[id := issue.(status := status, updatedAt := now)];
      }
    }

    /**
     * `handleSubmitResponse`, reachable only once the issue is rendered: a
     * blank text only sets the error; otherwise the response goes to the
     * store or to the sample issue, and the form and error are cleared.
     */
    method HandleSubmitResponse(user: Option<User>, uuid: string, now: nat)
      requires Current().Some?
      modifies store, this
      ensures IsBlank(old(responseText)) ==>
        error == ResponseRequiredMessage && responseText == old(responseText) &&
        dummies == old(dummies) && store.issues == old(store.issues)
      ensures !IsBlank(old(responseText)) && !IsDummyId(id) ==>
        store.issues == WithResponse(old(store.issues), id,
          NewResponse(ResponseData(old(responseText), AdminIdOf(user), AdminNameOf(user), None, None), uuid, now),
          now) &&
        dummies == old(dummies)
      ensures !IsBlank(old(responseText)) && IsDummyId(id) ==>
        dummies == old(dummies)[id := old(dummies)[id].(
          responses := old(dummies)[id].responses + [DummyResponse(old(responseText), user, now)],
          updatedAt := now)] &&
        store.issues == old(store.issues)
      ensures !IsBlank(old(responseText)) ==> responseText == "" && error == ""
      ensures !IsBlank(old(responseText)) ==>
        Current().Some? && |Current().value.responses| == |old(Current()).value.responses| + 1 &&
        Current().value.responses[..|old(Current()).value.responses|] == old(Current()).value.responses &&
        Current().value.responses[|old(Current()).value.responses|].text == old(responseText)
    {
      TrimIsEmptyIffBlank(responseText);
      if Trim(responseText) == "" {
        error := ResponseRequiredMessage;
        return;
      }
      if !IsDummyId(id) {
        var data := ResponseData(responseText, AdminIdOf(user), AdminNameOf(user), None, None);
        WithResponseThenLookup(store.issues, id, NewResponse(data, uuid, now), now);
        store.AddResponse(id, data, uuid, now);
      } else {
        var issue := dummies[id];
        var response := DummyResponse(responseText, user, now);
        dummies := dummies[id := issue.(responses := issue.responses + [response], updatedAt := now)];
      }
      responseText := "";
      error := "";
    }
  }
}
