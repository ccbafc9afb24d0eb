/** api/get-tickets.js: a filtered search of a project's tickets. */
module GetTickets {

  import opened Wrappers
  import opened Text
  import opened Http
  import Jql
  import opened Tickets

  const SearchFailed := "Error al obtener tickets"
  const MaxResults := 50
  const SearchFields := ["summary", "status", "priority", "labels", "created", "updated"]

  /** The request body: the credentials and the three optional filters. */
  datatype Search = Search(credentials: Credentials, labelFilter: string, statusFilter: string, priorityFilter: string)

  /** The POST the handler sends to the search resource. */
  datatype SearchCall = SearchCall(url: string, user: string, jql: string, maxResults: nat, fields: seq<string>)

  /** The reply's `tickets` and `total`. */
  datatype TicketPage = TicketPage(tickets: seq<ListedTicket>, total: int)

  /** The project clause of this file's query: the key in double quotes. */
  function QuotedProject(projectKey: string): string {
    "project = \"" + projectKey + "\""
  }

  /** The query, accumulated clause by clause as the handler does; a clause its filter does not yield is empty. */
  method BuildQuery(projectKey: string, labelFilter: string, statusFilter: string, priorityFilter: string)
    returns (jql: string)
    ensures jql == Jql.Query(QuotedProject(projectKey), labelFilter, statusFilter, priorityFilter)
  {
    jql := "project = \"" + projectKey + "\"";
    var labelClause := "";
    if NonBlank(labelFilter) {
      var labels := Jql.Labels(labelFilter);
      if |labels| > 0 {
        var conditions := Jql.Conditions(labels);
        labelClause := " AND (" + conditions + ")";
      }
    }
    jql := jql + labelClause;
    var statusClause := "";
    if NonBlank(statusFilter) {
      statusClause := " AND status = \"" + statusFilter + "\"";
    }
    jql := jql + statusClause;
    var priorityClause := "";
    if NonBlank(priorityFilter) {
      priorityClause := " AND priority = \"" + priorityFilter + "\"";
    }
    jql := jql + priorityClause;
    jql := jql + Jql.OrderClause;
    assert labelClause == Jql.LabelClause(labelFilter);
    assert statusClause == Jql.StatusClause(statusFilter);
    assert priorityClause == Jql.PriorityClause(priorityFilter);
    Regroup(QuotedProject(projectKey), labelClause, statusClause, priorityClause, Jql.OrderClause);
  }

  /** Appending the clauses one at a time is appending them together. */
  lemma Regroup(q: string, l: string, s: string, p: string, o: string)
    ensures q + l + s + p + o == q + (l + s + p) + o
  {
  }

  /** The reply's message: the number of tickets listed. */
  function FoundMessage(count: nat): string {
    Decimal(count) + " tickets encontrados"
  }

  method Handle(verb: string, body: Search, upstream: Upstream<SearchData>)
    returns (x: Exchange<SearchCall, TicketPage>)
    ensures Conforms(verb, Complete(body.credentials), x)
    ensures verb == Post && !Complete(body.credentials) ==> x.reply.message == Some(MissingParameters)
    ensures x.call.Some? ==>
      var c := body.credentials;
      x.call.value == SearchCall(c.url + "/rest/api/3/search", BasicUser(c.email, c.token),
        Jql.Query(QuotedProject(c.projectKey), body.labelFilter, body.statusFilter, body.priorityFilter),
        MaxResults, SearchFields)
    ensures x.reply.success ==>
      && upstream.Ok? && upstream.data.issues.Some?
      && var issues := upstream.data.issues.value;
      && var tickets := x.reply.data.value.tickets;
      && |tickets| == |issues|
      && (forall i :: 0 <= i < |issues| ==>
            issues[i].fields.Some? && tickets[i] == ListTicket(body.credentials.url, issues[i], issues[i].fields.value))
      && x.reply.data.value.total == upstream.data.total
      && x.reply.message == Some(FoundMessage(|issues|))
    ensures x.call.Some? && upstream.Ok? && upstream.data.issues.Some? && WellShaped(upstream.data.issues.value) ==>
      x.reply.success
    ensures x.call.Some? && !x.reply.success ==> x.reply.status == 400 && x.reply.message == Some(SearchFailed)
  {
    var guard := Guard<TicketPage>(verb, Complete(body.credentials), MissingParameters);
    if guard.Some? {
      return Exchange(None, guard.value);
    }
    var c := body.credentials;
    var jql := BuildQuery(c.projectKey, body.labelFilter, body.statusFilter, body.priorityFilter);
    var call := Some(SearchCall(c.url + "/rest/api/3/search", BasicUser(c.email, c.token), jql, MaxResults, SearchFields));
    if upstream.Err? || upstream.data.issues.None? {
      return Exchange(call, Reject(400, SearchFailed));
    }
    var tickets := ListTickets(c.url, upstream.data.issues.value);
    if tickets.None? {
      return Exchange(call, Reject(400, SearchFailed));
    }
    x := Exchange(call, Reply(200, true, Some(FoundMessage(|tickets.value|)),
      Some(TicketPage(tickets.value, upstream.data.total))));
  }
}
