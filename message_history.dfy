/**
  The message-history view: the search and status filter over the stored
  entries, and the colour and icon each delivery status is shown with.
 */
module MessageHistory {
  import opened Seqs
  import opened Text
  import opened MessageComposer

  /** The history search: contact name or message text (case-folded), or the phone, contains the query. */
  predicate MatchesHistorySearch(e: HistoryEntry, query: string)
  {
    || Contains(Lower(e.contactName), Lower(query))
    || Contains(Lower(e.message), Lower(query))
    || Contains(e.contactPhone, query)
  }

  predicate MatchesHistoryStatus(e: HistoryEntry, statusFilter: string)
  {
    statusFilter == "all" || e.status == statusFilter
  }

  function MatchesHistory(query: string, statusFilter: string): HistoryEntry -> bool
  {
    (e: HistoryEntry) => MatchesHistorySearch(e, query) && MatchesHistoryStatus(e, statusFilter)
  }

  /** `filteredHistory`: the entries passing both the search and the status filter, newest first as stored. */
  function FilteredHistory(history: seq<HistoryEntry>, query: string, statusFilter: string): (r: seq<HistoryEntry>)
    ensures forall e :: e in r <==> e in history && MatchesHistorySearch(e, query) && MatchesHistoryStatus(e, statusFilter)
    ensures forall e :: multiset(r)[e] ==
                        if MatchesHistorySearch(e, query) && MatchesHistoryStatus(e, statusFilter)
                        then multiset(history)[e] else 0
    ensures IsSubsequence(r, history)
    ensures statusFilter != "all" ==> forall e :: e in r ==> e.status == statusFilter
  {
    FilterIsSubsequence(MatchesHistory(query, statusFilter), history);
    FilterMultiplicity(MatchesHistory(query, statusFilter), history);
    Filter(MatchesHistory(query, statusFilter), history)
  }

  /** With status "all" and an empty query every entry is shown. */
  lemma NoFilterShowsAllHistory(history: seq<HistoryEntry>)
    ensures FilteredHistory(history, "", "all") == history
  {
    forall e | e in history
      ensures MatchesHistory("", "all")(e)
    {
      ContainsEmpty(Lower(e.contactName));
    }
    FilterKeepsAll(MatchesHistory("", "all"), history);
  }

  /** The statuses the view styles individually. */
  predicate KnownStatus(status: string)
  {
    status == "delivered" || status == "failed" || status == "pending"
  }

  /** `getStatusColor`: the badge classes of a status; any other status gets the grey default. */
  function StatusColor(status: string): string
  {
    if status == "delivered" then "bg-green-100 text-green-800"
    else if status == "failed" then "bg-red-100 text-red-800"
    else if status == "pending" then "bg-yellow-100 text-yellow-800"
    else "bg-gray-100 text-gray-800"
  }

  datatype IconShape = CheckCircle | XCircle | ClockIcon

  datatype StatusIcon = StatusIcon(shape: IconShape, colour: string)

  /** `getStatusIcon`: the icon and its colour; any other status gets a grey clock. */
  function IconFor(status: string): StatusIcon
  {
    if status == "delivered" then StatusIcon(CheckCircle, "text-green-600")
    else if status == "failed" then StatusIcon(XCircle, "text-red-600")
    else if status == "pending" then StatusIcon(ClockIcon, "text-yellow-600")
    else StatusIcon(ClockIcon, "text-gray-400")
  }

  /**
    Each known status has a colour of its own and every other status shares
    the grey default: two statuses look alike exactly when they are equal or
    both unknown.
   */
  lemma StatusColorClassifies(a: string, b: string)
    ensures StatusColor(a) == StatusColor(b) <==> a == b || (!KnownStatus(a) && !KnownStatus(b))
  {
    var colours := [StatusColor("delivered"), StatusColor("failed"), StatusColor("pending"), StatusColor("")];
    assert colours[0][5] != colours[1][5] && colours[0][5] != colours[2][5] && colours[0][5] != colours[3][5];
    assert colours[1][5] != colours[2][5] && colours[1][5] != colours[3][5] && colours[2][5] != colours[3][5];
  }

  /** The icons classify statuses the same way. */
  lemma IconClassifies(a: string, b: string)
    ensures IconFor(a) == IconFor(b) <==> a == b || (!KnownStatus(a) && !KnownStatus(b))
  {
    assert "text-yellow-600"[5] != "text-gray-400"[5];
  }

  /** Whatever the status, colour and icon agree on whether it is a known one. */
  lemma UnknownStatusIsGrey(status: string)
    ensures !KnownStatus(status) <==> StatusColor(status) == "bg-gray-100 text-gray-800"
    ensures !KnownStatus(status) <==> IconFor(status) == StatusIcon(ClockIcon, "text-gray-400")
  {
    StatusColorClassifies(status, "");
    IconClassifies(status, "");
  }
}
