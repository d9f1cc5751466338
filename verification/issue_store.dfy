/**
 * The in-memory issue store of `src/context/IssueContext.jsx`: a list of
 * issue records, the ticket-ID generator, lookups and the two updates. The
 * clock, `Math.random` and `uuidv4` are parameters; timestamps are integers.
 */
module IssueStore {
  import opened Js
  import opened Lists

  datatype Response = Response(id: string, text: string, adminId: string, adminName: string, createdAt: int)

  datatype Issue = Issue(
    id: string,
    ticketId: string,
    title: string,
    description: string,
    category: string,
    status: string,
    createdAt: int,
    updatedAt: int,
    studentId: Option<string>,
    responses: seq<Response>)

  /**
   * The object handed to `addIssue`. The keys `addIssue` also sets itself are
   * optional: a present key overrides the default because `...issueData` is
   * spread last.
   */
  datatype IssueData = IssueData(
    title: string,
    description: string,
    category: string,
    studentId: Option<string>,
    id: Option<string>,
    ticketId: Option<string>,
    status: Option<string>,
    createdAt: Option<int>,
    updatedAt: Option<int>,
    responses: Option<seq<Response>>)

  /** The object handed to `addResponse`; `id` and `createdAt` override the generated ones when present. */
  datatype ResponseData = ResponseData(
    text: string,
    adminId: string,
    adminName: string,
    id: Option<string>,
    createdAt: Option<int>)

  const Alphabet := "ABCDEFGHIJKLMNOPQRSTUVWXYZ0123456789"
  const TicketIdLength := 8

  /** A well-formed ticket ID: eight characters of `A-Z0-9`. */
  predicate IsTicketId(t: string) {
    |t| == TicketIdLength && forall i | 0 <= i < |t| :: t[i] in Alphabet
  }

  /** Eight values of `Math.random()`, each in [0, 1). */
  predicate ValidDraws(draws: seq<real>) {
    |draws| == TicketIdLength && forall i | 0 <= i < |draws| :: 0.0 <= draws[i] < 1.0
  }

  /** `Math.floor(Math.random() * characters.length)`. */
  function DrawIndex(d: real): (k: int)
    requires 0.0 <= d < 1.0
    ensures 0 <= k < |Alphabet|
  {
    (d * 36.0).Floor
  }

  /** The ticket ID that a given run of draws produces. */
  function TicketIdOf(draws: seq<real>): string
    requires ValidDraws(draws)
  {
    seq(TicketIdLength, i requires 0 <= i < TicketIdLength => Alphabet[DrawIndex(draws[i])])
  }

  /** `generateTicketId`: eight characters appended one per loop iteration. */
  method GenerateTicketId(draws: seq<real>) returns (result: string)
    requires ValidDraws(draws)
    ensures result == TicketIdOf(draws)
    ensures IsTicketId(result)
  {
    result := "";
    var i := 0;
    while i < TicketIdLength
      invariant 0 <= i <= TicketIdLength
      invariant result == TicketIdOf(draws)[..i]
    {
      result := result + [Alphabet[DrawIndex(draws[i])]];
      i := i + 1;
    }
  }

  /** Position of a ticket-ID character in `Alphabet`. */
  function AlphabetIndex(c: char): (k: nat)
    requires c in Alphabet
    ensures k < |Alphabet| && Alphabet[k] == c
    ensures 'A' <= c <= 'Z' || '0' <= c <= '9'
  {
    if 'A' <= c <= 'Z' then c as int - 'A' as int else 26 + (c as int - '0' as int)
  }

  /** Draws that steer the generator to a chosen ticket ID. */
  function DrawsFor(t: string): (draws: seq<real>)
    requires IsTicketId(t)
    ensures ValidDraws(draws)
  {
    seq(TicketIdLength, i requires 0 <= i < TicketIdLength => (AlphabetIndex(t[i]) as real) / 36.0)
  }

  /** Every well-formed ticket ID is one the generator can produce. */
  lemma EveryTicketIdIsGenerated(t: string)
    requires IsTicketId(t)
    ensures TicketIdOf(DrawsFor(t)) == t
  {
    var draws := DrawsFor(t);
    forall i | 0 <= i < TicketIdLength
      ensures DrawIndex(draws[i]) == AlphabetIndex(t[i])
    {
      var k := AlphabetIndex(t[i]);
      assert draws[i] == (k as real) / 36.0;
      assert draws[i] * 36.0 == k as real;
    }
  }

  /** Generated ticket IDs contain no lower-case letters, so upper-casing leaves them as they are. */
  lemma {:induction false} TicketIdsAreUpperCase(t: string)
    requires IsTicketId(t)
    ensures ToUpper(t) == t
  {
    forall i | 0 <= i < |t| ensures ToUpper(t)[i] == t[i] {
      assert !IsLower(t[i]) by {
        var k := AlphabetIndex(t[i]);
      }
    }
  }

  /** The record `addIssue` appends: defaults first, then every key of `data`. */
  function NewIssue(data: IssueData, ticketId: string, uuid: string, now: int): (r: Issue)
    ensures r.id == (if data.id.Some? then data.id.value else uuid)
    ensures r.ticketId == (if data.ticketId.Some? then data.ticketId.value else ticketId)
    ensures r.status == (if data.status.Some? then data.status.value else "Pending")
    ensures r.createdAt == (if data.createdAt.Some? then data.createdAt.value else now)
    ensures r.updatedAt == (if data.updatedAt.Some? then data.updatedAt.value else now)
    ensures r.responses == (if data.responses.Some? then data.responses.value else [])
    ensures data.createdAt.None? && data.updatedAt.None? ==> r.createdAt == r.updatedAt
    ensures r.title == data.title && r.description == data.description && r.category == data.category
    ensures r.studentId == data.studentId
  {
    Issue(
      id := if data.id.Some? then data.id.value else uuid,
      ticketId := if data.ticketId.Some? then data.ticketId.value else ticketId,
      title := data.title,
      description := data.description,
      category := data.category,
      status := if data.status.Some? then data.status.value else "Pending",
      createdAt := if data.createdAt.Some? then data.createdAt.value else now,
      updatedAt := if data.updatedAt.Some? then data.updatedAt.value else now,
      studentId := data.studentId,
      responses := if data.responses.Some? then data.responses.value else [])
  }

  /** The response `addResponse` appends: a generated id and time, then every key of `data`. */
  function NewResponse(data: ResponseData, uuid: string, now: int): (r: Response)
    ensures r.id == (if data.id.Some? then data.id.value else uuid)
    ensures r.createdAt == (if data.createdAt.Some? then data.createdAt.value else now)
    ensures r.text == data.text && r.adminId == data.adminId && r.adminName == data.adminName
  {
    Response(
      id := if data.id.Some? then data.id.value else uuid,
      text := data.text,
      adminId := data.adminId,
      adminName := data.adminName,
      createdAt := if data.createdAt.Some? then data.createdAt.value else now)
  }

  /** `issues.find(issue => issue.ticketId === ticketId)`. */
  function IssueByTicketId(issues: seq<Issue>, ticketId: string): (r: Option<Issue>)
    ensures r.None? <==> forall j | 0 <= j < |issues| :: issues[j].ticketId != ticketId
    ensures r.Some? ==> exists k | 0 <= k < |issues| :: issues[k] == r.value && r.value.ticketId == ticketId &&
                          forall j | 0 <= j < k :: issues[j].ticketId != ticketId
  {
    match FindFirst(issues, (i: Issue) => i.ticketId == ticketId)
    case None => None
    case Some(k) => Some(issues[k])
  }

  /** `issues.find(issue => issue.id === id)`. */
  function IssueById(issues: seq<Issue>, id: string): (r: Option<Issue>)
    ensures r.None? <==> forall j | 0 <= j < |issues| :: issues[j].id != id
    ensures r.Some? ==> exists k | 0 <= k < |issues| :: issues[k] == r.value && r.value.id == id &&
                          forall j | 0 <= j < k :: issues[j].id != id
  {
    match FindFirst(issues, (i: Issue) => i.id == id)
    case None => None
    case Some(k) => Some(issues[k])
  }

  /** `issues.filter(issue => issue.studentId === studentId)`. */
  function IssuesByStudentId(issues: seq<Issue>, studentId: Option<string>): (r: seq<Issue>)
    ensures IsSubsequence(r, issues)
    ensures forall i | 0 <= i < |r| :: r[i].studentId == studentId
    ensures forall i | 0 <= i < |issues| && issues[i].studentId == studentId :: issues[i] in r
    ensures forall x | x in issues :: multiset(r)[x] == if x.studentId == studentId then multiset(issues)[x] else 0
  {
    var p := (i: Issue) => i.studentId == studentId;
    FilterIsSubsequence(issues, p);
    Filter(issues, p)
  }

  /** The list `updateIssueStatus` maps the store to. */
  function WithStatus(issues: seq<Issue>, id: string, status: string, now: int): (r: seq<Issue>)
    ensures |r| == |issues|
    ensures forall i | 0 <= i < |r| :: r[i].id == issues[i].id
  {
    seq(|issues|, i requires 0 <= i < |issues| =>
      if issues[i].id == id then issues[i].(status := status, updatedAt := now) else issues[i])
  }

  /** The list `addResponse` maps the store to. */
  function WithResponse(issues: seq<Issue>, issueId: string, response: Response, now: int): (r: seq<Issue>)
    ensures |r| == |issues|
    ensures forall i | 0 <= i < |r| :: r[i].id == issues[i].id
  {
    seq(|issues|, i requires 0 <= i < |issues| =>
      if issues[i].id == issueId
      then issues[i].(responses := issues[i].responses + [response], updatedAt := now)
      else issues[i])
  }

  /** Updating the status of an id nothing carries leaves the list as it was. */
  lemma WithStatusUnknownIdIsNoOp(issues: seq<Issue>, id: string, status: string, now: int)
    requires IssueById(issues, id).None?
    ensures WithStatus(issues, id, status, now) == issues
  {
  }

  /** Adding a response to an id nothing carries leaves the list as it was. */
  lemma WithResponseUnknownIdIsNoOp(issues: seq<Issue>, issueId: string, response: Response, now: int)
    requires IssueById(issues, issueId).None?
    ensures WithResponse(issues, issueId, response, now) == issues
  {
  }

  /** A second identical status update changes nothing more. */
  lemma WithStatusIsIdempotent(issues: seq<Issue>, id: string, status: string, now: int)
    ensures WithStatus(WithStatus(issues, id, status, now), id, status, now) == WithStatus(issues, id, status, now)
  {
  }

  /** After a status update, looking the id up finds the old record with the new status and time. */
  lemma WithStatusThenLookup(issues: seq<Issue>, id: string, status: string, now: int)
    requires IssueById(issues, id).Some?
    ensures IssueById(WithStatus(issues, id, status, now), id) ==
            Some(IssueById(issues, id).value.(status := status, updatedAt := now))
  {
    var r := WithStatus(issues, id, status, now);
    var k :| 0 <= k < |issues| && issues[k] == IssueById(issues, id).value && issues[k].id == id &&
             forall j | 0 <= j < k :: issues[j].id != id;
    var found := IssueById(r, id);
    var k' :| 0 <= k' < |r| && r[k'] == found.value && found.value.id == id &&
              forall j | 0 <= j < k' :: r[j].id != id;
    assert k' == k;
  }

  /** After a response is added, looking the id up finds the old record with the response last. */
  lemma WithResponseThenLookup(issues: seq<Issue>, issueId: string, response: Response, now: int)
    requires IssueById(issues, issueId).Some?
    ensures var old_ := IssueById(issues, issueId).value;
            IssueById(WithResponse(issues, issueId, response, now), issueId) ==
            Some(old_.(responses := old_.responses + [response], updatedAt := now))
  {
    var r := WithResponse(issues, issueId, response, now);
    var k :| 0 <= k < |issues| && issues[k] == IssueById(issues, issueId).value && issues[k].id == issueId &&
             forall j | 0 <= j < k :: issues[j].id != issueId;
    var found := IssueById(r, issueId);
    var k' :| 0 <= k' < |r| && r[k'] == found.value && found.value.id == issueId &&
              forall j | 0 <= j < k' :: r[j].id != issueId;
    assert k' == k;
  }

  /** The `IssueProvider` state: the `issues` array that `setIssues` replaces. */
  class Store {
    var issues: seq<Issue>

    constructor ()
      ensures issues == []
    {
      issues := [];
    }

    /** `addIssue`: append one record and return the generated ticket ID. */
    method AddIssue(data: IssueData, draws: seq<real>, uuid: string, now: int) returns (ticketId: string)
      requires ValidDraws(draws)
      modifies this
      ensures IsTicketId(ticketId) && ticketId == TicketIdOf(draws)
      ensures |issues| == |old(issues)| + 1
      ensures issues[..|old(issues)|] == old(issues)
      ensures issues[|old(issues)|] == NewIssue(data, ticketId, uuid, now)
    {
      ticketId := GenerateTicketId(draws);
      var newIssue := NewIssue(data, ticketId, uuid, now);
      issues := issues + [newIssue];
    }

    /** `updateIssueStatus`: only the records whose id matches change, and only in status and time. */
    method UpdateIssueStatus(id: string, status: string, now: int)
      modifies this
      ensures issues == WithStatus(old(issues), id, status, now)
      ensures forall i | 0 <= i < |issues| ::
        if old(issues)[i].id == id
        then issues[i] == old(issues)[i].(status := status, updatedAt := now)
        else issues[i] == old(issues)[i]
    {
      issues := WithStatus(issues, id, status, now);
    }

    /** `addResponse`: the matching records gain exactly one response, at the end. */
    method AddResponse(issueId: string, data: ResponseData, uuid: string, now: int)
      modifies this
      ensures issues == WithResponse(old(issues), issueId, NewResponse(data, uuid, now), now)
      ensures forall i | 0 <= i < |issues| ::
        if old(issues)[i].id == issueId
        then issues[i] == old(issues)[i].(responses := old(issues)[i].responses + [NewResponse(data, uuid, now)],
                                         updatedAt := now)
        else issues[i] == old(issues)[i]
    {
      var response := NewResponse(data, uuid, now);
      issues := WithResponse(issues, issueId, response, now);
    }
  }
}
