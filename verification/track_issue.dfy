/**
 * The ticket lookup of `src/pages/TrackIssuePage.jsx`: the input is
 * upper-cased as it is typed, a blank input is refused, and otherwise the
 * issue with that exact ticket ID is looked up in the issue store.
 */
module TrackIssue {
  import opened Js
  import opened IssueStore

  const EmptyTicketMessage := "Please enter a Ticket ID"
  const NotFoundPrefix := "No issue found with Ticket ID: "

  /** The page's state: the typed ticket ID, whether a search ran, the issue found and the error shown. */
  class TrackIssuePage {
    var ticketId: string
    var searched: bool
    var issue: Option<Issue>
    var error: string

    constructor ()
      ensures ticketId == "" && !searched && issue.None? && error == ""
    {
      ticketId := "";
      searched := false;
      issue := None;
      error := "";
    }

    /** The input's `onChange`: what is stored is the upper-cased text. */
    method OnTicketInput(value: string)
      modifies this`ticketId
      ensures ticketId == ToUpper(value)
      ensures forall i | 0 <= i < |ticketId| :: !IsLower(ticketId[i])
    {
      ticketId := ToUpper(value);
    }

    /**
     * `handleSearch`: refuse a blank ID with a message and change nothing
     * else; otherwise look the ID up as typed (it is not trimmed) and show
     * the issue or a not-found message naming the ID.
     */
    method HandleSearch(store: Store)
      modifies this`searched, this`issue, this`error
      ensures IsBlank(ticketId) ==>
        error == EmptyTicketMessage && searched == old(searched) && issue == old(issue)
      ensures !IsBlank(ticketId) ==>
        searched && issue == IssueByTicketId(store.issues, ticketId) &&
        error == (if issue.None? then NotFoundPrefix + ticketId else "")
    {
      TrimIsEmptyIffBlank(ticketId);
      if Trim(ticketId) == "" {
        error := EmptyTicketMessage;
        return;
      }
      var foundIssue := IssueByTicketId(store.issues, ticketId);
      issue := foundIssue;
      searched := true;
      if foundIssue.None? {
        error := NotFoundPrefix + ticketId;
      } else {
        error := "";
      }
    }
  }

  /**
   * Every stored ticket ID can be found by typing it: it is already upper
   * case, so the input leaves it unchanged, and it is not blank.
   */
  lemma TypedTicketIdIsFound(issues: seq<Issue>, k: nat)
    requires k < |issues| && IsTicketId(issues[k].ticketId)
    ensures !IsBlank(ToUpper(issues[k].ticketId))
    ensures IssueByTicketId(issues, ToUpper(issues[k].ticketId)).Some?
  {
    TicketIdsAreUpperCase(issues[k].ticketId);
    var i := AlphabetIndex(issues[k].ticketId[0]);
  }

  /**
   * The lookup uses the ID as typed: a stored ticket ID with a space after
   * it passes the blank check and is still not found.
   */
  lemma PaddedTicketIdIsNotFound(issues: seq<Issue>, t: string)
    requires forall j | 0 <= j < |issues| :: IsTicketId(issues[j].ticketId)
    requires IsTicketId(t)
    ensures !IsBlank(t + " ")
    ensures IssueByTicketId(issues, t + " ").None?
  {
    var i := AlphabetIndex(t[0]);
    assert (t + " ")[0] == t[0];
    forall j | 0 <= j < |issues| ensures issues[j].ticketId != t + " " {
      assert |issues[j].ticketId| == TicketIdLength;
    }
  }
}
