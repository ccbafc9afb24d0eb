/**
 * Ticket creation: api/create-ticket.js and the `/api/create-ticket` route of
 * server.js. Both check the required fields, build the issue's `fields` by
 * adding the optional ones to a base object one by one, and turn an upstream
 * failure into a message; the route also sets the assignee and announces the
 * new ticket to the subscribers (the announcement itself is broadcast by the Subscriptions module).
 */
module CreateTicket {

  import opened Wrappers
  import opened Text
  import opened Http
  import opened Tickets

  const MissingFields := "Faltan campos requeridos"
  const MissingFieldsForTicket := "Faltan campos requeridos para crear el ticket"
  const Created := "Ticket creado exitosamente"
  const CreateFailed := "Error al crear el ticket"

  /** The request body; an absent string is the empty string and absent labels are none. */
  datatype TicketRequest = TicketRequest(
    credentials: Credentials, issueType: string, summary: string,
    description: string, priority: string, labels: seq<string>, assignee: string)

  /** `url && email && token && projectKey && issueType && summary`. */
  predicate Required(r: TicketRequest) {
    Complete(r.credentials) && r.issueType != "" && r.summary != ""
  }

  /** A node of the tracker's rich-text document format: its `type` and its `text` or `content`. */
  datatype TextNode = TextNode(kind: string, text: string)
  datatype Paragraph = Paragraph(kind: string, content: seq<TextNode>)
  datatype Doc = Doc(kind: string, version: nat, content: seq<Paragraph>)

  /** The description as a document: one paragraph holding one text node. */
  function DocOf(text: string): (d: Doc)
    ensures DocText(d) == Some(text)
    ensures |d.content| == 1 && |d.content[0].content| == 1
  {
    Doc("doc", 1, [Paragraph("paragraph", [TextNode("text", text)])])
  }

  /** The text of a document's first text node, absent when there is none. */
  function DocText(d: Doc): Option<string> {
    if |d.content| > 0 && |d.content[0].content| > 0 then Some(d.content[0].content[0].text) else None
  }

  /** The issue's `fields`: an optional part is absent when the source never sets it. */
  datatype IssueFields = IssueFields(
    projectKey: string, summary: string, issueTypeName: string,
    description: Option<Doc>, priorityId: Option<string>,
    labels: Option<seq<string>>, assigneeAccountId: Option<string>)

  /** `labels.filter(label => label.trim() !== '')`. */
  function KeptLabels(labels: seq<string>): (r: seq<string>)
    ensures |r| <= |labels|
    ensures forall l :: l in r <==> l in labels && NonBlank(l)
    ensures (forall i :: 0 <= i < |labels| ==> NonBlank(labels[i])) ==> r == labels
  {
    forall l ensures l in Filter(NonBlank, labels) <==> l in labels && NonBlank(l) {
      FilterMembership(NonBlank, labels, l);
    }
    if forall i :: 0 <= i < |labels| ==> NonBlank(labels[i]) then
      FilterAllPass(NonBlank, labels);
      Filter(NonBlank, labels)
    else
      Filter(NonBlank, labels)
  }

  /** The kept labels keep their order: labels added after others are kept after them. */
  lemma KeptLabelsInOrder(a: seq<string>, b: seq<string>)
    ensures KeptLabels(a + b) == KeptLabels(a) + KeptLabels(b)
  {
    FilterConcat(NonBlank, a, b);
  }

  /**
   * The fields both handlers send for a request: project, summary and type always, from the
   * request; the description document exactly when there is a description; the priority id
   * exactly when there is a priority; the non-blank labels exactly when the list is not empty
   * (so possibly none at all).
   */
  predicate Describes(r: TicketRequest, f: IssueFields) {
    && f.projectKey == r.credentials.projectKey && f.summary == r.summary && f.issueTypeName == r.issueType
    && (f.description.Some? <==> r.description != "")
    && (f.description.Some? ==> f.description.value == DocOf(r.description))
    && (f.priorityId.Some? <==> r.priority != "")
    && (f.priorityId.Some? ==> f.priorityId.value == r.priority)
    && (f.labels.Some? <==> |r.labels| > 0)
    && (f.labels.Some? ==> f.labels.value == KeptLabels(r.labels))
  }

  /** The payload of api/create-ticket.js, built as it is: a base object, then each optional field set in turn. */
  method BuildFields(r: TicketRequest) returns (f: IssueFields)
    ensures Describes(r, f)
    ensures f.assigneeAccountId.None?
  {
    f := IssueFields(r.credentials.projectKey, r.summary, r.issueType, None, None, None, None);
    if r.description != "" {
      f := f.(description := Some(DocOf(r.description)));
    }
    if r.priority != "" {
      f := f.(priorityId := Some(r.priority));
    }
    if |r.labels| > 0 {
      f := f.(labels := Some(KeptLabels(r.labels)));
    }
  }

  /** The payload of the server.js route: the same, and the assignee's account id when one is named. */
  method BuildServerFields(r: TicketRequest) returns (f: IssueFields)
    ensures Describes(r, f)
    ensures f.assigneeAccountId.Some? <==> r.assignee != ""
    ensures f.assigneeAccountId.Some? ==> f.assigneeAccountId.value == r.assignee
  {
    f := BuildFields(r);
    if r.assignee != "" {
      f := f.(assigneeAccountId := Some(r.assignee));
    }
  }

  /** The POST that creates the issue. */
  datatype CreateCall = CreateCall(url: string, user: string, fields: IssueFields)

  /** The created issue as the upstream reports it. */
  datatype CreatedIssue = CreatedIssue(id: string, key: string, self: string)

  /** The api reply's `key` and `url`. */
  datatype CreatedRef = CreatedRef(key: string, url: string)

  /** The server reply's `ticket`. */
  datatype CreatedTicket = CreatedTicket(id: string, key: string, self: string, url: string)

  function IssueUrl(c: Credentials): string {
    c.url + "/rest/api/3/issue"
  }

  /** The message of api/create-ticket.js for a failed creation: the values of `errors`, comma-joined, when given. */
  function ErrorMessage(e: UpstreamError): (m: string)
    ensures e.HttpError? && e.errors.Some? ==> m == Join(e.errors.value, ", ")
    ensures e.HttpError? && e.errors.Some? && |e.errors.value| == 1 ==> m == e.errors.value[0]
    ensures !(e.HttpError? && e.errors.Some?) ==> m == CreateFailed
  {
    if e.HttpError? && e.errors.Some? then Join(e.errors.value, ", ") else CreateFailed
  }

  /** The message of the server.js route: `errors` first, then `errorMessages`, then the generic message. */
  function ServerErrorMessage(e: UpstreamError): (m: string)
    ensures e.HttpError? && e.errors.Some? ==> m == Join(e.errors.value, ", ")
    ensures e.HttpError? && e.errors.None? && e.errorMessages.Some? ==> m == Join(e.errorMessages.value, ", ")
    ensures e.HttpError? && e.errors.None? && e.errorMessages.Some? && |e.errorMessages.value| == 1 ==>
      m == e.errorMessages.value[0]
    ensures !(e.HttpError? && (e.errors.Some? || e.errorMessages.Some?)) ==> m == CreateFailed
  {
    if e.HttpError? && e.errors.Some? then Join(e.errors.value, ", ")
    else if e.HttpError? && e.errorMessages.Some? then Join(e.errorMessages.value, ", ")
    else CreateFailed
  }

  /** The two handlers word a failure alike except when the response has `errorMessages` and no `errors`. */
  lemma ErrorMessagesAgree(e: UpstreamError)
    ensures !(e.HttpError? && e.errors.None? && e.errorMessages.Some?) ==>
      ServerErrorMessage(e) == ErrorMessage(e)
    ensures e.HttpError? && e.errors.None? && e.errorMessages.Some? ==>
      ErrorMessage(e) == CreateFailed && ServerErrorMessage(e) == Join(e.errorMessages.value, ", ")
  {
  }

  /** api/create-ticket.js. */
  method Handle(verb: string, body: TicketRequest, upstream: Upstream<CreatedIssue>)
    returns (x: Exchange<CreateCall, CreatedRef>)
    ensures Conforms(verb, Required(body), x)
    ensures verb == Post && !Required(body) ==> x.reply.message == Some(MissingFields)
    ensures x.call.Some? ==>
      && x.call.value.url == IssueUrl(body.credentials)
      && x.call.value.user == BasicUser(body.credentials.email, body.credentials.token)
      && Describes(body, x.call.value.fields) && x.call.value.fields.assigneeAccountId.None?
    ensures x.call.Some? && upstream.Ok? ==>
      && x.reply.success && x.reply.message == Some(Created)
      && x.reply.data == Some(CreatedRef(upstream.data.key, BrowseUrl(body.credentials.url, upstream.data.key)))
    ensures x.call.Some? && upstream.Err? ==>
      x.reply.status == 400 && x.reply.message == Some(ErrorMessage(upstream.error))
  {
    var guard := Guard<CreatedRef>(verb, Required(body), MissingFields);
    if guard.Some? {
      return Exchange(None, guard.value);
    }
    var fields := BuildFields(body);
    var c := body.credentials;
    var call := Some(CreateCall(IssueUrl(c), BasicUser(c.email, c.token), fields));
    match upstream
    case Err(e) =>
      x := Exchange(call, Reject(400, ErrorMessage(e)));
    case Ok(issue) =>
      x := Exchange(call, Reply(200, true, Some(Created), Some(CreatedRef(issue.key, BrowseUrl(c.url, issue.key)))));
  }

  /** What the route announces two seconds after a creation: the new ticket's id, key and page. */
  datatype Announcement = Announcement(id: string, key: string, url: string)

  function AnnouncementMessage(a: Announcement): string {
    "Nuevo ticket creado: " + a.key
  }

  /**
   * The server.js route. Express only routes POST to it, so there is no verb check.
   * The announcement is present exactly when the ticket was created.
   */
  method ServerHandle(body: TicketRequest, upstream: Upstream<CreatedIssue>)
    returns (x: Exchange<CreateCall, CreatedTicket>, announce: Option<Announcement>)
    ensures x.call.Some? <==> Required(body)
    ensures !Required(body) ==> x.reply.status == 400 && x.reply.message == Some(MissingFieldsForTicket)
    ensures (x.reply.success <==> x.reply.status == 200) && (x.reply.success <==> x.reply.data.Some?)
    ensures x.reply.success <==> x.call.Some? && upstream.Ok?
    ensures x.call.Some? ==>
      && x.call.value.url == IssueUrl(body.credentials)
      && x.call.value.user == BasicUser(body.credentials.email, body.credentials.token)
      && Describes(body, x.call.value.fields)
      && (x.call.value.fields.assigneeAccountId.Some? <==> body.assignee != "")
      && (x.call.value.fields.assigneeAccountId.Some? ==> x.call.value.fields.assigneeAccountId.value == body.assignee)
    ensures x.reply.success ==>
      var t := upstream.data;
      && x.reply.message == Some(Created)
      && x.reply.data == Some(CreatedTicket(t.id, t.key, t.self, BrowseUrl(body.credentials.url, t.key)))
      && announce == Some(Announcement(t.id, t.key, BrowseUrl(body.credentials.url, t.key)))
    ensures !x.reply.success ==> announce.None?
    ensures x.call.Some? && upstream.Err? ==>
      x.reply.status == 400 && x.reply.message == Some(ServerErrorMessage(upstream.error))
  {
    if !Required(body) {
      return Exchange(None, Reject(400, MissingFieldsForTicket)), None;
    }
    var fields := BuildServerFields(body);
    var c := body.credentials;
    var call := Some(CreateCall(IssueUrl(c), BasicUser(c.email, c.token), fields));
    match upstream
    case Err(e) =>
      x, announce := Exchange(call, Reject(400, ServerErrorMessage(e))), None;
    case Ok(t) =>
      var page := BrowseUrl(c.url, t.key);
      x := Exchange(call, Reply(200, true, Some(Created), Some(CreatedTicket(t.id, t.key, t.self, page))));
      announce := Some(Announcement(t.id, t.key, page));
  }
}
