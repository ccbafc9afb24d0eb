/**
 * Search results and their reshaping into the tickets the clients receive:
 * the `issues.map` of api/get-tickets.js and of server.js `checkAndSendTickets`.
 */
module Tickets {

  import opened Wrappers

  /**
   * An issue's `fields`. A `status` or `priority` object stands for its `name`,
   * absent when the object or its name is.
   */
  datatype Fields = Fields(
    summary: string, status: Option<string>, priority: Option<string>,
    labels: Option<seq<string>>, created: string, updated: string)

  /** A search result issue; an issue without `fields` makes the reshaping throw. */
  datatype Issue = Issue(id: string, key: string, fields: Option<Fields>)

  /** The search response body: `issues` (absent in a malformed response) and `total`. */
  datatype SearchData = SearchData(issues: Option<seq<Issue>>, total: int)

  /** A ticket's page on the tracker. */
  function BrowseUrl(base: string, key: string): string {
    base + "/browse/" + key
  }

  /** `x?.name || fallback`. */
  function NameOr(name: Option<string>, fallback: string): string {
    if name.Some? && name.value != "" then name.value else fallback
  }

  /** Every issue has its `fields`, so that the reshaping does not throw. */
  predicate WellShaped(issues: seq<Issue>) {
    forall i :: 0 <= i < |issues| ==> issues[i].fields.Some?
  }

  /** `issues.map(mk)`: absent when some issue lacks the fields it reads. */
  function Reshape<T>(mk: (Issue, Fields) -> T, issues: seq<Issue>): (r: Option<seq<T>>)
    ensures r.Some? <==> WellShaped(issues)
    ensures r.Some? ==> |r.value| == |issues|
    ensures r.Some? ==> forall i :: 0 <= i < |issues| ==> r.value[i] == mk(issues[i], issues[i].fields.value)
  {
    if |issues| == 0 then Some([])
    else if issues[0].fields.None? then None
    else match Reshape(mk, issues[1..])
      case None => None
      case Some(rest) => Some([mk(issues[0], issues[0].fields.value)] + rest)
  }

  /** A ticket as api/get-tickets.js lists it. */
  datatype ListedTicket = ListedTicket(
    key: string, summary: string, url: string, status: string, priority: string,
    labels: seq<string>, created: string, updated: string)

  /** One issue listed: status and priority by name with their fallbacks, labels defaulting to none. */
  function ListTicket(base: string, issue: Issue, f: Fields): (t: ListedTicket)
    ensures t.key == issue.key && t.url == BrowseUrl(base, issue.key) && t.summary == f.summary
    ensures t.status == (if f.status.Some? && f.status.value != "" then f.status.value else "Unknown")
    ensures t.priority == (if f.priority.Some? && f.priority.value != "" then f.priority.value else "Medium")
    ensures f.labels.Some? ==> t.labels == f.labels.value
    ensures f.labels.None? ==> t.labels == []
  {
    ListedTicket(issue.key, f.summary, BrowseUrl(base, issue.key),
      NameOr(f.status, "Unknown"), NameOr(f.priority, "Medium"), f.labels.GetOr([]), f.created, f.updated)
  }

  /** The tickets api/get-tickets.js lists: one per issue, in the upstream order. */
  function ListTickets(base: string, issues: seq<Issue>): (r: Option<seq<ListedTicket>>)
    ensures r.Some? <==> WellShaped(issues)
    ensures r.Some? ==> |r.value| == |issues|
    ensures r.Some? ==> forall i :: 0 <= i < |issues| ==> r.value[i] == ListTicket(base, issues[i], issues[i].fields.value)
  {
    Reshape((issue, f) => ListTicket(base, issue, f), issues)
  }

  /** A ticket as server.js streams it: status and priority passed through, labels defaulting to none. */
  datatype StreamTicket = StreamTicket(
    id: string, key: string, url: string, summary: string,
    status: Option<string>, priority: Option<string>,
    labels: seq<string>, created: string, updated: string)

  function StreamTicketOf(base: string, issue: Issue, f: Fields): (t: StreamTicket)
    ensures t.id == issue.id && t.key == issue.key && t.url == BrowseUrl(base, issue.key)
    ensures t.status == f.status && t.priority == f.priority
    ensures t.labels == if f.labels.Some? then f.labels.value else []
  {
    StreamTicket(issue.id, issue.key, BrowseUrl(base, issue.key), f.summary,
      f.status, f.priority, f.labels.GetOr([]), f.created, f.updated)
  }

  /** The tickets of one poll: one per issue, in the upstream order. */
  function StreamTickets(base: string, issues: seq<Issue>): (r: Option<seq<StreamTicket>>)
    ensures r.Some? <==> WellShaped(issues)
    ensures r.Some? ==> |r.value| == |issues|
    ensures r.Some? ==> forall i :: 0 <= i < |issues| ==> r.value[i] == StreamTicketOf(base, issues[i], issues[i].fields.value)
  {
    Reshape((issue, f) => StreamTicketOf(base, issue, f), issues)
  }
}
