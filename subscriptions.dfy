/**
 * The live ticket stream of server.js: the registry of open Server-Sent-Events
 * subscriptions (`sseConnections` and the `connectionId` counter), the stream
 * handlers (open, heartbeat tick, close/error), the poll that fetches a
 * subscription's tickets and sends them when they changed
 * (`checkAndSendTickets`), the 15-second sweep over all subscriptions, the
 * new-ticket announcement, and the shutdown on SIGTERM/SIGINT.
 *
 * Each timer firing and each socket event is one method call that runs to
 * completion. The clock reading, the outcome of the awaited search call and
 * whether a write to the response succeeds are parameters.
 */
module Subscriptions {

  import opened Wrappers
  import opened Text
  import opened Http
  import opened Tickets
  import Jql
  import Sse
  import CreateTicket

  /** A poll sends the tickets even when their number is the same once this many milliseconds have passed. */
  const StaleMs := 60000
  const PollMaxResults := 100
  const PollFields := ["summary", "description", "status", "priority", "issuetype", "assignee", "labels", "created", "updated"]
  const ConnectedMessage := "Conectado a actualizaciones en tiempo real"
  const PollFailedMessage := "Error al verificar actualizaciones"

  /** The query string of a subscription; an absent parameter is the empty string. */
  datatype Params = Params(
    url: string, email: string, token: string, projectKey: string,
    labelFilter: string, statusFilter: string, priorityFilter: string)

  /** `url && email && token && projectKey`. */
  predicate HasRequired(p: Params) {
    p.url != "" && p.email != "" && p.token != "" && p.projectKey != ""
  }

  /**
   * The data object of a frame; timestamps are the clock reading in milliseconds.
   * The constructor stands for the object's fixed `type` tag.
   */
  datatype Payload =
    | Connected(message: string, connectionId: nat)
    | Heartbeat(timestamp: int)
    | TicketsUpdate(tickets: seq<StreamTicket>, count: nat, previousCount: nat, timestamp: int)
      /** `error` is the message of what was thrown: the failed call's, or None for the runtime's own for a malformed response. */
    | PollError(message: string, error: Option<string>)
    | NewTicketCreated(ticket: CreateTicket.Announcement, message: string, timestamp: int)

  /** The event name each frame is sent under. */
  function EventName(p: Payload): (e: string)
    ensures Sse.Framable(Sse.Message(e, ""))
  {
    match p
    case Connected(_, _) => NameFramable("connection"); "connection"
    case Heartbeat(_) => NameFramable("heartbeat"); "heartbeat"
    case TicketsUpdate(_, _, _, _) => NameFramable("update"); "update"
    case PollError(_, _) => NameFramable("error"); "error"
    case NewTicketCreated(_, _, _) => NameFramable("notification"); "notification"
  }

  /** A name of lower-case letters is a non-empty line. */
  lemma NameFramable(e: string)
    requires e != "" && forall i :: 0 <= i < |e| ==> 'a' <= e[i] <= 'z'
    ensures Sse.Framable(Sse.Message(e, ""))
  {
  }

  /** Different kinds of payload go out under different event names, so a client can tell them apart. */
  lemma EventNamesDistinct(p: Payload, q: Payload)
    ensures EventName(p) == EventName(q) <==>
      (p.Connected? == q.Connected? && p.Heartbeat? == q.Heartbeat? && p.TicketsUpdate? == q.TicketsUpdate? &&
       p.PollError? == q.PollError? && p.NewTicketCreated? == q.NewTicketCreated?)
  {
  }

  /** The message a client reads for a payload whose data was written as `json`. */
  function MessageOf(json: Payload -> string, p: Payload): Sse.Message {
    Sse.Message(EventName(p), json(p))
  }

  /**
   * Whatever JSON text each payload was written as, provided it has no raw line feed or carriage
   * return (JSON.stringify without indentation emits neither), a client reading the stream of the
   * delivered frames receives each payload's event and data, in the order they were delivered.
   */
  lemma ClientReadsDelivered(sent: seq<Payload>, json: Payload -> string)
    requires forall i :: 0 <= i < |sent| ==> '\n' !in json(sent[i]) && '\r' !in json(sent[i])
    ensures Sse.Parse(Sse.Stream(Map(p => MessageOf(json, p), sent))) == Map(p => MessageOf(json, p), sent)
  {
    Sse.ParseStream(Map(p => MessageOf(json, p), sent));
  }

  /** The part of a subscription that the poll reads and writes. */
  datatype Conn = Conn(lastUpdate: int, lastTicketCount: nat, isActive: bool)

  /** The outcome of the awaited search call. */
  datatype Outcome = Fetched(data: SearchData) | Failed(message: string)

  /** What one poll is given: the clock, the search outcome, and whether its write succeeds. */
  datatype PollInput = PollInput(now: int, outcome: Outcome, writeOk: bool)

  /** The POST a poll sends to the search resource. */
  datatype SearchRequest = SearchRequest(url: string, user: string, jql: string, maxResults: nat, fields: seq<string>)

  /** The tickets of a search, or what was thrown while reading them. */
  datatype Fetch = Tickets(tickets: seq<StreamTicket>) | Threw(message: Option<string>)

  /** Reading the search outcome: a failed call, a response without `issues` and an issue without `fields` all throw. */
  function FetchOf(base: string, o: Outcome): (f: Fetch)
    ensures f.Tickets? <==> o.Fetched? && o.data.issues.Some? && WellShaped(o.data.issues.value)
    ensures f.Tickets? ==> Some(f.tickets) == StreamTickets(base, o.data.issues.value)
    ensures o.Failed? ==> f == Threw(Some(o.message))
    ensures o.Fetched? && f.Threw? ==> f.message.None?
  {
    match o
    case Failed(m) => Threw(Some(m))
    case Fetched(data) =>
      if data.issues.None? then Threw(None)
      else match StreamTickets(base, data.issues.value)
        case None => Threw(None)
        case Some(ts) => Tickets(ts)
  }

  /** The change rule: a different number of tickets, or strictly more than a minute since the last delivery. */
  function ShouldNotify(s: Conn, count: nat, now: int): (b: bool)
    // a changed count always notifies, whatever the time
    ensures count != s.lastTicketCount ==> b
    // an unchanged count notifies only after strictly more than 60000 ms, not at exactly 60000
    ensures count == s.lastTicketCount ==> (b <==> now >= s.lastUpdate + StaleMs + 1)
    ensures count == s.lastTicketCount && now == s.lastUpdate + StaleMs ==> !b
  {
    count != s.lastTicketCount || now - s.lastUpdate > StaleMs
  }

  function SearchRequestOf(p: Params): SearchRequest {
    SearchRequest(p.url + "/rest/api/3/search", BasicUser(p.email, p.token),
      Jql.BuildJqlQuery(p.projectKey, p.labelFilter, p.statusFilter, p.priorityFilter), PollMaxResults, PollFields)
  }

  /** The effect of one poll: the new state, whether the search was made, and the frame written, if any. */
  datatype Step = Step(after: Conn, searched: bool, frame: Option<Payload>)

  /** The frames a step delivers: its frame, when the write succeeds. */
  function Delivered(r: Step, writeOk: bool): seq<Payload> {
    if r.frame.Some? && writeOk then [r.frame.value] else []
  }

  /** The comparison that closes a poll: the frame it sends, if the change rule says so, and the state after its write. */
  datatype Change = Change(after: Conn, frame: Option<Payload>)

  function Compare(s: Conn, tickets: seq<StreamTicket>, now: int, writeOk: bool): (r: Change)
    ensures r.frame.Some? <==> ShouldNotify(s, |tickets|, now)
    ensures r.frame.Some? ==> r.frame.value == TicketsUpdate(tickets, |tickets|, s.lastTicketCount, now)
    ensures r.frame.None? ==> r.after == s
    ensures r.frame.Some? && writeOk ==> r.after == Conn(now, |tickets|, s.isActive)
    ensures r.frame.Some? && !writeOk ==> r.after == s.(isActive := false)
  {
    if ShouldNotify(s, |tickets|, now) then
      var update := TicketsUpdate(tickets, |tickets|, s.lastTicketCount, now);
      if writeOk then Change(s.(lastUpdate := now, lastTicketCount := |tickets|), Some(update))
      else Change(s.(isActive := false), Some(update))
    else Change(s, None)
  }

  /** The end of a poll that made its search: an error frame for a throw, the change rule otherwise. */
  function Settle(s: Conn, f: Fetch, now: int, writeOk: bool): (r: Change)
    ensures f.Threw? ==> r == Change(s, Some(PollError(PollFailedMessage, f.message)))
    ensures f.Tickets? ==> r == Compare(s, f.tickets, now, writeOk)
  {
    match f
    case Threw(m) => Change(s, Some(PollError(PollFailedMessage, m)))
    case Tickets(ts) => Compare(s, ts, now, writeOk)
  }

  /** `checkAndSendTickets` on values. */
  function Poll(p: Params, s: Conn, i: PollInput): (r: Step)
    // an inactive subscription or one without credentials is left alone: no call, no frame
    ensures r.searched <==> s.isActive && HasRequired(p)
    ensures !r.searched ==> r.after == s && r.frame.None?
    // a subscription is never reactivated
    ensures r.after.isActive ==> s.isActive
    // a thrown failure sends an error frame and leaves the state as it was, whether or not that frame is written
    ensures r.searched && FetchOf(p.url, i.outcome).Threw? ==>
      r.after == s && r.frame == Some(PollError(PollFailedMessage, FetchOf(p.url, i.outcome).message))
    // otherwise an update is sent exactly when the change rule says so ...
    ensures r.searched && FetchOf(p.url, i.outcome).Tickets? ==>
      var ts := FetchOf(p.url, i.outcome).tickets;
      && (r.frame.Some? <==> ShouldNotify(s, |ts|, i.now))
      && (r.frame.Some? ==> r.frame == Some(TicketsUpdate(ts, |ts|, s.lastTicketCount, i.now)))
      && (r.frame.None? ==> r.after == s)
    // ... and its delivery records the count and the time, while its failure ends the subscription
      && (r.frame.Some? && i.writeOk ==> r.after == Conn(i.now, |ts|, true))
      && (r.frame.Some? && !i.writeOk ==> r.after == s.(isActive := false))
  {
    if !s.isActive || !HasRequired(p) then Step(s, false, None)
    else
      var change := Settle(s, FetchOf(p.url, i.outcome), i.now, i.writeOk);
      Step(change.after, true, change.frame)
  }

  /** The count of a subscription changes only when an update carrying that count is delivered. */
  lemma CountFollowsDeliveries(p: Params, s: Conn, i: PollInput)
    ensures var r := Poll(p, s, i);
      r.after.lastTicketCount != s.lastTicketCount ==>
        Delivered(r, i.writeOk) == [r.frame.value] && r.frame.value.TicketsUpdate? &&
        r.frame.value.count == r.after.lastTicketCount && r.frame.value.previousCount == s.lastTicketCount
  {
  }

  /**
   * After a delivered update, a later poll that finds the same number of tickets sends
   * again exactly when strictly more than a minute has passed: at exactly 60000 ms it stays quiet.
   */
  lemma {:induction false} RepollSendsOnlyWhenStale(p: Params, s: Conn, first: PollInput, second: PollInput)
    requires Poll(p, s, first).frame.Some? && Poll(p, s, first).frame.value.TicketsUpdate? && first.writeOk
    requires FetchOf(p.url, second.outcome).Tickets?
    requires |FetchOf(p.url, second.outcome).tickets| == Poll(p, s, first).frame.value.count
    ensures Poll(p, Poll(p, s, first).after, second).frame.Some? <==> second.now - first.now > StaleMs
  {
    var r := Poll(p, s, first);
    assert FetchOf(p.url, first.outcome).Tickets?;
    assert r.after == Conn(first.now, r.frame.value.count, true);
  }

  /** The registered connections, by id, as the map holds them when a sweep starts. */
  type Snapshot = map<nat, Connection>

  /** The connection registered under `id` is searched when polled: registered connections are active, so its parameters must be complete. */
  predicate Searchable(snap: Snapshot, id: nat) {
    id in snap && HasRequired(snap[id].params)
  }

  /** The ids a sweep over the ids 1 to `n` searches for, in the order it visits them. */
  function SweptIds(snap: Snapshot, n: nat): (ids: seq<nat>)
    ensures |ids| <= n
    ensures forall i :: 0 <= i < |ids| ==> 1 <= ids[i] <= n
  {
    if n == 0 then []
    else if Searchable(snap, n) then SweptIds(snap, n - 1) + [n]
    else SweptIds(snap, n - 1)
  }

  /** A sweep searches for exactly the connections registered, active and complete when it starts. */
  lemma {:induction false} SweptIdsExactly(snap: Snapshot, n: nat, id: nat)
    ensures id in SweptIds(snap, n) <==> 1 <= id <= n && Searchable(snap, id)
  {
    if n > 0 {
      SweptIdsExactly(snap, n - 1, id);
      var rest := SweptIds(snap, n - 1);
      if Searchable(snap, n) {
        assert id in rest + [n] <==> id in rest || id == n;
      }
    }
  }

  /** A sweep visits in increasing id order, so it searches for no connection twice. */
  lemma {:induction false} SweptIdsIncreasing(snap: Snapshot, n: nat)
    ensures forall i, j :: 0 <= i < j < |SweptIds(snap, n)| ==> SweptIds(snap, n)[i] < SweptIds(snap, n)[j]
  {
    if n > 0 {
      SweptIdsIncreasing(snap, n - 1);
    }
  }

  /** `calls` are the searches of a sweep over the ids 1 to `n`: one per id swept, in the same order. */
  predicate SweepMade(calls: seq<SearchRequest>, snap: Snapshot, n: nat) {
    var ids := SweptIds(snap, n);
    && |calls| == |ids|
    && forall i :: 0 <= i < |ids| ==> ids[i] in snap && calls[i] == SearchRequestOf(snap[ids[i]].params)
  }

  /** The searches a sweep over the ids 1 to `n` makes, built one id at a time. */
  function SweepCalls(snap: Snapshot, n: nat): seq<SearchRequest> {
    if n == 0 then []
    else if Searchable(snap, n) then SweepCalls(snap, n - 1) + [SearchRequestOf(snap[n].params)]
    else SweepCalls(snap, n - 1)
  }

  /** Visiting id `n + 1` adds its search exactly when it is searchable. */
  lemma SweepCallsStep(snap: Snapshot, n: nat, calls: seq<SearchRequest>, conns: Snapshot, call: Option<SearchRequest>)
    requires calls == SweepCalls(snap, n)
    requires forall k :: k in conns ==> k in snap && conns[k] == snap[k]
    requires n + 1 in snap ==> n + 1 in conns
    requires call.Some? <==> Searchable(conns, n + 1)
    requires call.Some? ==> call.value == SearchRequestOf(conns[n + 1].params)
    ensures (if call.Some? then calls + [call.value] else calls) == SweepCalls(snap, n + 1)
  {
  }

  /** Building the searches one id at a time gives one search per swept id, in id order. */
  lemma {:induction false} SweepCallsMade(snap: Snapshot, n: nat)
    ensures SweepMade(SweepCalls(snap, n), snap, n)
  {
    if n > 0 {
      SweepCallsMade(snap, n - 1);
      if Searchable(snap, n) {
        var calls, ids := SweepCalls(snap, n - 1), SweptIds(snap, n - 1);
        var x := SearchRequestOf(snap[n].params);
        forall i | 0 <= i < |ids| + 1
          ensures (ids + [n])[i] in snap && (calls + [x])[i] == SearchRequestOf(snap[(ids + [n])[i]].params)
        {
          if i < |ids| {
            assert (ids + [n])[i] == ids[i] && (calls + [x])[i] == calls[i];
          }
        }
      }
    }
  }

  /** One open stream: `connection` of the stream handler, with the response it writes to. */
  class Connection {
    const id: nat
    const params: Params
    var lastUpdate: int
    var lastTicketCount: nat
    var isActive: bool
    /** The heartbeat interval is still set. */
    var heartbeatSet: bool
    /** The response has been ended. */
    var ended: bool
    /** The payloads of the frames written to the response so far. */
    var sent: seq<Payload>

    constructor (id: nat, params: Params, now: int)
      ensures this.id == id && this.params == params
      ensures lastUpdate == now && lastTicketCount == 0 && isActive
      ensures heartbeatSet && !ended && sent == []
    {
      this.id := id;
      this.params := params;
      lastUpdate := now;
      lastTicketCount := 0;
      isActive := true;
      heartbeatSet := true;
      ended := false;
      sent := [];
    }

    function State(): Conn
      reads this
    {
      Conn(lastUpdate, lastTicketCount, isActive)
    }

    /** `sendSSEMessage`: true unless the write throws; a frame counts as sent only when written. */
    method Send(p: Payload, writeOk: bool) returns (ok: bool)
      modifies this
      ensures ok == writeOk
      ensures sent == old(sent) + (if writeOk then [p] else [])
      ensures State() == old(State()) && heartbeatSet == old(heartbeatSet) && ended == old(ended)
    {
      ok := writeOk;
      if writeOk {
        sent := sent + [p];
      }
    }
  }
  /**
   * The registry: `sseConnections`, the `connectionId` counter, and the announcements waiting
   * for their timer. Ids are handed out in increasing order, so the Map's insertion order is
   * increasing id order, and a walk over the ids from 1 to the counter visits the registered
   * connections in the order the source's `for…of` does.
   */
  class Registry {
    var connections: map<nat, Connection>
    var connectionId: nat
    var pending: seq<CreateTicket.Announcement>
    /** Every connection ever opened: handlers and timers keep theirs after it leaves the map. */
    ghost var issued: set<Connection>

    /**
     * The registry invariant: ids are unique, positive and at most the counter; a connection
     * is registered (under its own id) exactly when it is active; an active connection has its
     * heartbeat and an open response.
     */
    ghost predicate Valid()
      reads this, issued
    {
      && (forall id :: id in connections ==> connections[id] in issued && connections[id].id == id)
      && (forall c :: c in issued ==> 1 <= c.id <= connectionId)
      && (forall c, d :: c in issued && d in issued && c.id == d.id ==> c == d)
      && (forall c :: c in issued ==> (c.isActive <==> c.id in connections))
      && (forall c :: c in issued && c.isActive ==> c.heartbeatSet && !c.ended)
    }

    constructor ()
      ensures Valid()
      ensures connections == map[] && connectionId == 0 && pending == [] && issued == {}
    {
      connections := map[];
      connectionId := 0;
      pending := [];
      issued := {};
    }

    /** The stream handler: a fresh id, the `connection` frame, then the registration. */
    method Open(params: Params, now: int, writeOk: bool) returns (c: Connection)
      requires Valid()
      modifies this
      ensures Valid()
      ensures fresh(c) && issued == old(issued) + {c}
      ensures c.id == old(connectionId) + 1 && connectionId == c.id
      ensures forall d :: d in old(issued) ==> d.id < c.id
      ensures c.params == params && c.State() == Conn(now, 0, true) && c.heartbeatSet && !c.ended
      ensures c.sent == if writeOk then [Connected(ConnectedMessage, c.id)] else []
      ensures connections == old(connections)[c.id := c] && c.id !in old(connections)
      ensures pending == old(pending)
    {
      connectionId := connectionId + 1;
      var connId := connectionId;
      c := new Connection(connId, params, now);
      var ignored := c.Send(Connected(ConnectedMessage, connId), writeOk);
      Register(c);
    }

    /** `sseConnections.set(id, connection)` for a connection with a new id. */
    method Register(c: Connection)
      requires Valid() && c !in issued && 0 < c.id == connectionId
      requires forall d :: d in issued ==> d.id < c.id
      requires c.isActive && c.heartbeatSet && !c.ended
      modifies this
      ensures Valid()
      ensures issued == old(issued) + {c} && connectionId == old(connectionId) && pending == old(pending)
      ensures connections == old(connections)[c.id := c] && c.id !in old(connections)
    {
      connections := connections[c.id := c];
      issued := issued + {c};
    }

    /** `connection.isActive = false` and `sseConnections.delete(id)`, which every teardown does. */
    method Deactivate(c: Connection)
      requires Valid() && c in issued
      modifies this, c
      ensures Valid()
      ensures issued == old(issued) && connectionId == old(connectionId) && pending == old(pending)
      ensures !c.isActive && c.heartbeatSet == old(c.heartbeatSet) && c.ended == old(c.ended) && c.sent == old(c.sent)
      ensures c.lastUpdate == old(c.lastUpdate) && c.lastTicketCount == old(c.lastTicketCount)
      ensures connections == old(connections) - {c.id}
      ensures !old(c.isActive) ==> connections == old(connections)
    {
      c.isActive := false;
      connections := connections - {c.id};
    }

    /** The heartbeat interval firing: an active connection gets a heartbeat, and one it cannot take ends it. */
    method HeartbeatTick(c: Connection, now: int, writeOk: bool)
      requires Valid() && c in issued && c.heartbeatSet
      modifies this, c
      ensures Valid()
      ensures issued == old(issued) && connectionId == old(connectionId) && pending == old(pending)
      ensures c.ended == old(c.ended) && c.lastUpdate == old(c.lastUpdate) && c.lastTicketCount == old(c.lastTicketCount)
      ensures c.sent == old(c.sent) + (if old(c.isActive) && writeOk then [Heartbeat(now)] else [])
      // a heartbeat written keeps everything as it was
      ensures old(c.isActive) && writeOk ==> c.isActive && c.heartbeatSet && connections == old(connections)
      // otherwise the interval is cleared and the connection is inactive and unregistered
      ensures !(old(c.isActive) && writeOk) ==> !c.isActive && !c.heartbeatSet && connections == old(connections) - {c.id}
      // a tick of an inactive connection sends nothing and changes only its own interval
      ensures !old(c.isActive) ==> connections == old(connections)
    {
      if c.isActive {
        var success := Deliver(c, Heartbeat(now), writeOk);
        if !success {
          Deactivate(c);
          c.heartbeatSet := false;
        }
      } else {
        c.heartbeatSet := false;
      }
    }

    /** The request's `close` and `error` handlers: the connection ends and leaves the registry; a repeat changes nothing more. */
    method Disconnect(c: Connection)
      requires Valid() && c in issued
      modifies this, c
      ensures Valid()
      ensures issued == old(issued) && connectionId == old(connectionId) && pending == old(pending)
      ensures !c.isActive && !c.heartbeatSet
      ensures c.sent == old(c.sent) && c.ended == old(c.ended)
      ensures c.lastUpdate == old(c.lastUpdate) && c.lastTicketCount == old(c.lastTicketCount)
      ensures connections == old(connections) - {c.id}
      ensures !old(c.isActive) ==> connections == old(connections)
    {
      Deactivate(c);
      c.heartbeatSet := false;
    }

    /** `sendSSEMessage` on a registered or former connection. */
    method Deliver(c: Connection, payload: Payload, writeOk: bool) returns (ok: bool)
      requires Valid() && c in issued
      modifies c
      ensures Valid()
      ensures ok == writeOk && c.sent == old(c.sent) + (if writeOk then [payload] else [])
      ensures c.State() == old(c.State()) && c.heartbeatSet == old(c.heartbeatSet) && c.ended == old(c.ended)
    {
      ok := c.Send(payload, writeOk);
    }

    /** The bookkeeping after a delivered update: the count sent and the time. */
    method Record(c: Connection, count: nat, now: int)
      requires Valid() && c in issued
      modifies c
      ensures Valid()
      ensures c.State() == Conn(now, count, old(c.isActive))
      ensures c.sent == old(c.sent) && c.heartbeatSet == old(c.heartbeatSet) && c.ended == old(c.ended)
    {
      c.lastTicketCount := count;
      c.lastUpdate := now;
    }

    /**
     * `checkAndSendTickets`, as it is written: the guards, the search, the change rule, the
     * write and the bookkeeping. The initial poll a second after opening is this method too:
     * its own activity check repeats the first guard here.
     */
    method CheckAndSendTickets(c: Connection, input: PollInput) returns (call: Option<SearchRequest>)
      requires Valid() && c in issued
      modifies this, c
      ensures Valid()
      ensures issued == old(issued) && connectionId == old(connectionId) && pending == old(pending)
      ensures var r := Poll(c.params, old(c.State()), input);
        && c.State() == r.after && (call.Some? <==> r.searched)
        && c.sent == old(c.sent) + Delivered(r, input.writeOk)
      ensures call.Some? ==> call.value == SearchRequestOf(c.params)
      ensures c.heartbeatSet == old(c.heartbeatSet) && c.ended == old(c.ended)
      ensures old(c.isActive) && !c.isActive ==> connections == old(connections) - {c.id}
      ensures c.isActive == old(c.isActive) ==> connections == old(connections)
    {
      ghost var s0 := c.State();
      if !c.isActive {
        return None;
      }
      var p := c.params;
      if !HasRequired(p) {
        return None;
      }
      call := Some(SearchRequestOf(p));
      var fetched := FetchOf(p.url, input.outcome);
      SendFetched(c, fetched, input.now, input.writeOk);
      assert Poll(p, s0, input) == Step(Settle(s0, fetched, input.now, input.writeOk).after, true,
        Settle(s0, fetched, input.now, input.writeOk).frame);
    }

    /**
     * The one-shot timer a second after opening: the first poll, made only if the
     * connection is still active, so a client gone by then is sent nothing.
     */
    method InitialLoad(c: Connection, input: PollInput) returns (call: Option<SearchRequest>)
      requires Valid() && c in issued
      modifies this, c
      ensures Valid()
      ensures issued == old(issued) && connectionId == old(connectionId) && pending == old(pending)
      ensures !old(c.isActive) ==> call.None? && c.sent == old(c.sent) && c.State() == old(c.State())
      ensures var r := Poll(c.params, old(c.State()), input);
        && c.State() == r.after && (call.Some? <==> r.searched)
        && c.sent == old(c.sent) + Delivered(r, input.writeOk)
      ensures c.heartbeatSet == old(c.heartbeatSet) && c.ended == old(c.ended)
      ensures old(c.isActive) && !c.isActive ==> connections == old(connections) - {c.id}
      ensures c.isActive == old(c.isActive) ==> connections == old(connections)
    {
      if c.isActive {
        call := CheckAndSendTickets(c, input);
      } else {
        call := None;
      }
    }

    /** The part of `checkAndSendTickets` after the search: the error frame, or the change rule. */
    method SendFetched(c: Connection, fetched: Fetch, now: int, writeOk: bool)
      requires Valid() && c in issued && c.isActive
      modifies this, c
      ensures Valid()
      ensures issued == old(issued) && connectionId == old(connectionId) && pending == old(pending)
      ensures var r := Settle(old(c.State()), fetched, now, writeOk);
        && c.State() == r.after
        && c.sent == old(c.sent) + (if r.frame.Some? && writeOk then [r.frame.value] else [])
      ensures c.heartbeatSet == old(c.heartbeatSet) && c.ended == old(c.ended)
      ensures !c.isActive ==> connections == old(connections) - {c.id}
      ensures c.isActive ==> connections == old(connections)
    {
      match fetched
      case Threw(m) =>
        var ignored := Deliver(c, PollError(PollFailedMessage, m), writeOk);
      case Tickets(tickets) =>
        SendIfChanged(c, tickets, now, writeOk);
    }

    /** The second half of `checkAndSendTickets`: the change rule, the write, and the bookkeeping after it. */
    method SendIfChanged(c: Connection, tickets: seq<StreamTicket>, now: int, writeOk: bool)
      requires Valid() && c in issued && c.isActive
      modifies this, c
      ensures Valid()
      ensures issued == old(issued) && connectionId == old(connectionId) && pending == old(pending)
      ensures var r := Compare(old(c.State()), tickets, now, writeOk);
        && c.State() == r.after
        && c.sent == old(c.sent) + (if r.frame.Some? && writeOk then [r.frame.value] else [])
      ensures c.heartbeatSet == old(c.heartbeatSet) && c.ended == old(c.ended)
      ensures !c.isActive ==> connections == old(connections) - {c.id}
      ensures c.isActive ==> connections == old(connections)
    {
      var currentCount := |tickets|;
      var hasChanges := currentCount != c.lastTicketCount;
      if hasChanges || now - c.lastUpdate > StaleMs {
        var success := Deliver(c, TicketsUpdate(tickets, currentCount, c.lastTicketCount, now), writeOk);
        if success {
          Record(c, currentCount, now);
        } else {
          Deactivate(c);
        }
      }
    }

    /**
     * The 15-second sweep: every connection registered when it starts is visited in
     * insertion order and polled if still active, each with its own input. Polling one
     * connection touches no other, so each connection ends up polled exactly once, and
     * the searches made are those of the connections registered (hence active) at the start
     * whose parameters are complete, in id order.
     */
    method Sweep(inputs: nat -> PollInput) returns (calls: seq<SearchRequest>)
      requires Valid()
      modifies this, issued
      ensures Valid()
      ensures issued == old(issued) && connectionId == old(connectionId) && pending == old(pending)
      ensures forall c :: c in issued ==>
        var r := Poll(c.params, old(c.State()), inputs(c.id));
        && c.State() == r.after
        && c.sent == old(c.sent) + Delivered(r, inputs(c.id).writeOk)
        && c.heartbeatSet == old(c.heartbeatSet) && c.ended == old(c.ended)
      ensures forall id :: id in connections ==> id in old(connections) && connections[id] == old(connections)[id]
      ensures calls == SweepCalls(old(connections), connectionId)
    {
      ghost var snap := connections;
      calls := [];
      var id := 1;
      while id <= connectionId
        invariant 1 <= id <= connectionId + 1
        invariant Valid()
        invariant issued == old(issued) && connectionId == old(connectionId) && pending == old(pending)
        invariant calls == SweepCalls(snap, id - 1)
        invariant forall k :: k in connections ==> k in old(connections) && connections[k] == old(connections)[k]
        invariant forall k :: id <= k && k in old(connections) ==> k in connections
        invariant forall c :: c in issued ==>
          if c.id < id then
            var r := Poll(c.params, old(c.State()), inputs(c.id));
            && c.State() == r.after
            && c.sent == old(c.sent) + Delivered(r, inputs(c.id).writeOk)
            && c.heartbeatSet == old(c.heartbeatSet) && c.ended == old(c.ended)
          else
            c.State() == old(c.State()) && c.sent == old(c.sent)
            && c.heartbeatSet == old(c.heartbeatSet) && c.ended == old(c.ended)
      {
        ghost var before := connections;
        var call := PollOne(id, inputs(id));
        SweepCallsStep(snap, id - 1, calls, before, call);
        if call.Some? {
          calls := calls + [call.value];
        }
        id := id + 1;
      }
    }

    /** One step of the sweep: the poll of the connection registered under `id`, if there is one, and its search. */
    method PollOne(id: nat, input: PollInput) returns (call: Option<SearchRequest>)
      requires Valid()
      modifies this, issued
      ensures Valid()
      ensures issued == old(issued) && connectionId == old(connectionId) && pending == old(pending)
      ensures forall c :: c in issued ==>
        if c.id == id then
          var r := Poll(c.params, old(c.State()), input);
          && c.State() == r.after
          && c.sent == old(c.sent) + Delivered(r, input.writeOk)
          && c.heartbeatSet == old(c.heartbeatSet) && c.ended == old(c.ended)
        else
          c.State() == old(c.State()) && c.sent == old(c.sent)
          && c.heartbeatSet == old(c.heartbeatSet) && c.ended == old(c.ended)
      ensures forall k :: k in connections ==> k in old(connections) && connections[k] == old(connections)[k]
      ensures forall k :: k != id && k in old(connections) ==> k in connections
      // the search is made exactly for a connection registered, active and complete
      ensures call.Some? <==>
        id in old(connections) && old(connections[id].isActive) && HasRequired(old(connections)[id].params)
      ensures call.Some? ==> call.value == SearchRequestOf(old(connections)[id].params)
      // registered connections are active, so that is: registered and complete
      ensures call.Some? <==> Searchable(old(connections), id)
    {
      call := None;
      if id in connections {
        var c := connections[id];
        if c.isActive {
          call := CheckAndSendTickets(c, input);
        }
      }
    }

    /** The create route's timer: the announcement waits two seconds before it is broadcast. */
    method Schedule(a: CreateTicket.Announcement)
      modifies this
      ensures pending == old(pending) + [a]
      ensures connections == old(connections) && connectionId == old(connectionId) && issued == old(issued)
    {
      pending := pending + [a];
    }

    /** The server.js create route: the creation itself, then the announcement scheduled when it succeeded. */
    method CreateTicketRoute(body: CreateTicket.TicketRequest, upstream: Upstream<CreateTicket.CreatedIssue>)
      returns (x: Exchange<CreateTicket.CreateCall, CreateTicket.CreatedTicket>)
      modifies this
      ensures x.reply.success <==> CreateTicket.Required(body) && upstream.Ok?
      ensures x.reply.success ==> x.reply.data.Some?
      ensures !x.reply.success ==> pending == old(pending)
      ensures x.reply.success ==>
        pending == old(pending) + [CreateTicket.Announcement(upstream.data.id, upstream.data.key, x.reply.data.value.url)]
      ensures connections == old(connections) && connectionId == old(connectionId) && issued == old(issued)
    {
      var announce;
      x, announce := CreateTicket.ServerHandle(body, upstream);
      if announce.Some? {
        Schedule(announce.value);
      }
    }

    /** The announcement's frame. */
    static function Notice(a: CreateTicket.Announcement, now: int): Payload {
      NewTicketCreated(a, CreateTicket.AnnouncementMessage(a), now)
    }

    /**
     * The oldest announcement's timer firing: a `notification` to every active connection,
     * in insertion order; a failed write is ignored and ends nothing.
     */
    method Broadcast(now: int, writeOk: nat -> bool)
      requires Valid() && |pending| > 0
      modifies this, issued
      ensures Valid()
      ensures pending == old(pending)[1..]
      ensures issued == old(issued) && connectionId == old(connectionId) && connections == old(connections)
      ensures forall c :: c in issued ==>
        && c.State() == old(c.State()) && c.heartbeatSet == old(c.heartbeatSet) && c.ended == old(c.ended)
        && c.sent == old(c.sent) + (if old(c.isActive) && writeOk(c.id) then [Notice(old(pending)[0], now)] else [])
    {
      var a := pending[0];
      pending := pending[1..];
      var id := 1;
      while id <= connectionId
        invariant 1 <= id <= connectionId + 1
        invariant Valid()
        invariant pending == old(pending)[1..] && a == old(pending)[0]
        invariant issued == old(issued) && connectionId == old(connectionId) && connections == old(connections)
        invariant forall c :: c in issued ==>
          && c.lastUpdate == old(c.lastUpdate) && c.lastTicketCount == old(c.lastTicketCount) && c.isActive == old(c.isActive)
          && c.heartbeatSet == old(c.heartbeatSet) && c.ended == old(c.ended)
          && (if c.id < id && c.isActive && writeOk(c.id) then c.sent == old(c.sent) + [Notice(a, now)] else c.sent == old(c.sent))
      {
        NotifyOne(id, Notice(a, now), writeOk(id));
        id := id + 1;
      }
    }

    /** One step of the broadcast: the frame to the connection registered under `id`, if there is one. */
    method NotifyOne(id: nat, frame: Payload, writeOk: bool)
      requires Valid()
      modifies issued
      ensures Valid()
      ensures forall c :: c in issued ==>
        && c.lastUpdate == old(c.lastUpdate) && c.lastTicketCount == old(c.lastTicketCount) && c.isActive == old(c.isActive)
        && c.heartbeatSet == old(c.heartbeatSet) && c.ended == old(c.ended)
        && c.sent == old(c.sent) + (if c.id == id && c.isActive && writeOk then [frame] else [])
    {
      if id in connections {
        var c := connections[id];
        if c.isActive {
          var ignored := Deliver(c, frame, writeOk);
        }
      }
    }

    /** SIGTERM and SIGINT: every registered connection is made inactive and its response ended, then the registry is cleared. */
    method Shutdown()
      requires Valid()
      modifies this, issued
      ensures Valid()
      ensures connections == map[]
      ensures issued == old(issued) && connectionId == old(connectionId) && pending == old(pending)
      ensures forall c :: c in issued ==>
        && !c.isActive && (c.ended <==> old(c.ended) || old(c.isActive))
        && c.sent == old(c.sent) && c.heartbeatSet == old(c.heartbeatSet)
        && c.lastUpdate == old(c.lastUpdate) && c.lastTicketCount == old(c.lastTicketCount)
    {
      var id := 1;
      while id <= connectionId
        invariant 1 <= id <= connectionId + 1
        invariant connections == old(connections)
        invariant issued == old(issued) && connectionId == old(connectionId) && pending == old(pending)
        invariant forall c :: c in issued ==>
          && (c.isActive <==> old(c.isActive) && id <= c.id)
          && (c.ended <==> old(c.ended) || (old(c.isActive) && c.id < id))
          && c.sent == old(c.sent) && c.heartbeatSet == old(c.heartbeatSet)
          && c.lastUpdate == old(c.lastUpdate) && c.lastTicketCount == old(c.lastTicketCount)
      {
        if id in connections {
          var c := connections[id];
          c.isActive := false;
          c.ended := true;
        }
        id := id + 1;
      }
      connections := map[];
    }
  }
}
