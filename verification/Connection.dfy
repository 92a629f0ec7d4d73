/** The browser's connection (client/src/wire.ts, client/src/session.ts), on values:
    what each event a browser hands it does, and what every interleaving of them
    keeps against any server that sends the log it names in order. The Wire and
    Session classes are proved against `Advance`. */
module Connection {
  import opened Contract
  import Fold
  import ClientFold
  import GridKey

  /** A socket is the number of its dial. */
  type Socket = nat

  datatype Presence = Presence(participantId: Text, displayName: Text, state: PresenceState)
  datatype PresenceState = Unspecified | Connected | Disconnected

  datatype Watchable = Watchable(actorId: Text, name: Text)

  datatype Frame =
    | ResultFrame(requestId: Text)
    | EventFrame(env: Envelope)
    | ViewpointChanged(actorId: Text)
    | WatchableChanged(actors: seq<Watchable>, none: bool)
    | PresenceSnapshot(all: seq<Presence>)
    | PresenceChanged(one: Presence)
    | UnknownFrame

  /** A command waiting for its answer, keyed by its request id. */
  datatype Waiting = Waiting(id: Text, sock: Socket, command: nat)

  /** How a command's promise resolved: a result matched, a socket closed, or it was
      never written to one. */
  datatype How = ByResult(id: Text) | ByClose(sock: Socket) | NotConnected

  datatype Answer = Answer(command: nat, how: How)

  /** What one command was sent as; None when no socket was open. */
  datatype Sent = Sent(written: Option<(Text, Socket)>)

  /** Both objects' fields. `sent` and `answers` are history: every send, and every
      promise resolved, in order. */
  datatype Client = Client(
    ws: Option<Socket>, dials: nat, pending: seq<Waiting>, log: Option<Text>, lastSeq: int, nextId: nat,
    events: seq<Envelope>, derived: Fold.State, failed: bool,
    present: map<Text, Text>, watch: seq<Watchable>, none: bool,
    sent: seq<Sent>, answers: seq<Answer>)

  const NewClient: Client :=
    Client(None, 0, [], None, 0, 0, [], Fold.NewState, false, map[], [], false, [], [])

  // ----- what each event does -----

  datatype Input =
    | Connect
    | Reconnect
    | Message(sock: Socket, frame: Frame)
    | Closed(sock: Socket)
    | Send(requestId: Text, open: bool) // whether the socket held is OPEN

  function Dialled(c: Client): Client { c.(ws := Some(c.dials), dials := c.dials + 1) }

  /** The session's part of a discard; who may be watched and who is here stay. */
  function Emptied(c: Client): Client { c.(events := [], derived := Fold.NewState, failed := false) }

  function Reset(c: Client): Client { Emptied(c.(lastSeq := 0)) }

  /** The session ingests an entry: it refolds the whole log, or holds the last good state. */
  function Ingest(c: Client, e: Envelope): Client {
    var events := c.events + [e];
    match Fold.Replay(events)
    case Some(st) => c.(events := events, derived := st)
    case None => c.(events := events, failed := true)
  }

  function Entry(c: Client, e: Envelope): Client {
    var r := if e.sequence == 1 && c.lastSeq > 0 then Reset(c) else c;
    Ingest(r.(lastSeq := if e.sequence > r.lastSeq then e.sequence else r.lastSeq), e)
  }

  function Switch(c: Client, actorId: Text): Client {
    if c.log == Some(actorId) then c else Reset(c.(log := Some(actorId)))
  }

  /** The place of an id among the waiting, or their number. */
  function At(pending: seq<Waiting>, id: Text): (k: nat)
    ensures k <= |pending|
    ensures k < |pending| ==> pending[k].id == id
    ensures forall j :: 0 <= j < k ==> pending[j].id != id
  {
    if pending == [] || pending[0].id == id then 0 else 1 + At(pending[1..], id)
  }

  function Result(c: Client, id: Text): Client {
    var k := At(c.pending, id);
    if k == |c.pending| then c
    else c.(pending := c.pending[..k] + c.pending[k + 1..], answers := c.answers + [Answer(c.pending[k].command, ByResult(id))])
  }

  /** Map.set: in place, or at the end. */
  function Set(pending: seq<Waiting>, w: Waiting): seq<Waiting> {
    var k := At(pending, w.id);
    if k < |pending| then pending[k := w] else pending + [w]
  }

  /** The waiting of every other socket. */
  function Others(pending: seq<Waiting>, sock: Socket): seq<Waiting> {
    if pending == [] then []
    else
      var w := pending[|pending| - 1];
      Others(pending[..|pending| - 1], sock) + (if w.sock == sock then [] else [w])
  }

  /** The answers a socket's close gives its own commands. */
  function Ended(pending: seq<Waiting>, sock: Socket): seq<Answer> {
    if pending == [] then []
    else
      var w := pending[|pending| - 1];
      Ended(pending[..|pending| - 1], sock) + (if w.sock == sock then [Answer(w.command, ByClose(sock))] else [])
  }

  function Close(c: Client, sock: Socket): Client {
    c.(pending := Others(c.pending, sock), answers := c.answers + Ended(c.pending, sock))
  }

  function Minted(n: nat): Text { [0x63, 0x2d] + GridKey.Digits(n) }

  function SendCommand(c: Client, requestId: Text, open: bool): Client {
    var n := |c.sent|;
    if c.ws.None? || !open then
      c.(sent := c.sent + [Sent(None)], answers := c.answers + [Answer(n, NotConnected)])
    else
      var id := RequestId(c, requestId);
      c.(sent := c.sent + [Sent(Some((id, c.ws.value)))], pending := Set(c.pending, Waiting(id, c.ws.value, n)),
         nextId := if requestId == [] then c.nextId + 1 else c.nextId)
  }

  function RequestId(c: Client, requestId: Text): Text {
    if requestId != [] then requestId else Minted(c.nextId + 1)
  }

  // ----- presence and whom to watch -----

  function Here(present: map<Text, Text>, p: Presence): map<Text, Text> {
    match p.state
    case Connected => present[p.participantId := p.displayName]
    case Disconnected => present - {p.participantId}
    case Unspecified => present
  }

  function HereAll(present: map<Text, Text>, batch: seq<Presence>): map<Text, Text> {
    if batch == [] then present else Here(HereAll(present, batch[..|batch| - 1]), batch[|batch| - 1])
  }

  function Watching(c: Client, actors: seq<Watchable>, none: bool): Client { c.(watch := actors, none := none) }

  // ----- one event -----

  function Handle(c: Client, f: Frame): Client {
    match f
    case ResultFrame(id) => Result(c, id)
    case EventFrame(e) => Entry(c, e)
    case ViewpointChanged(actorId) => Switch(c, actorId)
    case WatchableChanged(actors, none) => Watching(c, actors, none)
    case PresenceSnapshot(all) => c.(present := HereAll(map[], all))
    case PresenceChanged(one) => c.(present := Here(c.present, one))
    case UnknownFrame => c
  }

  function Advance(c: Client, i: Input): Client {
    match i
    case Connect => Dialled(c)
    case Reconnect => Dialled(c)
    case Message(sock, frame) => if c.ws == Some(sock) then Handle(c, frame) else c
    case Closed(sock) => Close(c, sock)
    case Send(requestId, open) => SendCommand(c, requestId, open)
  }

  // ----- the server -----

  /** What a server holds: every log whole, entry k at sequence k; log None is the
      world, and the log of nobody ("") is empty. Logs only grow, so what one holds
      at the end of a run says what was sent all along. */
  ghost predicate Serves(content: Option<Text> -> seq<Envelope>) {
    && content(Some([])) == []
    && forall log, k :: 0 <= k < |content(log)| ==> content(log)[k].sequence == k + 1
  }

  /** One connection: dialled and not yet told its log, or being sent one. */
  datatype Feed = Opening(named: Option<Text>, cursor: int) | Feeding(log: Option<Text>, next: int)

  /** What the dial asks for: the log held, else the one remembered, unless it is "". */
  function Named(c: Client, remembered: Option<Text>): Option<Text> {
    var log := if c.log.Some? then c.log else remembered;
    if log == Some([]) then None else log
  }

  /** A world seat is sent the world after the cursor; any other is first told its log. */
  function Dial(worldSeat: bool, c: Client, remembered: Option<Text>): Feed {
    if worldSeat then Feeding(None, c.lastSeq + 1) else Opening(Named(c, remembered), c.lastSeq)
  }

  /** What a connection may send: the next entry of its log, or that log's first
      again; and, unless it is sent the world, a log to change to. */
  predicate Legit(content: Option<Text> -> seq<Envelope>, worldSeat: bool, feed: Feed, f: Frame) {
    match f
    case EventFrame(e) =>
      && feed.Feeding? && (e.sequence == feed.next || e.sequence == 1)
      && 1 <= e.sequence <= |content(feed.log)| && e == content(feed.log)[e.sequence - 1]
    case ViewpointChanged(_) => !worldSeat
    case _ => true
  }

  /** The named log follows after the cursor; any other from its first entry. */
  function Fed(feed: Feed, f: Frame): Feed {
    match f
    case EventFrame(e) => if feed.Feeding? then Feeding(feed.log, e.sequence + 1) else feed
    case ViewpointChanged(actorId) =>
      if feed.Opening? && feed.named == Some(actorId) then Feeding(Some(actorId), feed.cursor + 1)
      else Feeding(Some(actorId), 1)
    case _ => feed
  }

  /** The client, the connection of the socket it holds, and the sockets closed. */
  datatype Net = Net(client: Client, feed: Feed, closed: set<Socket>)

  function Advanced(worldSeat: bool, remembered: Option<Text>, net: Net, i: Input): Net {
    var c := net.client;
    Net(Advance(c, i),
        if i.Connect? || i.Reconnect? then Dial(worldSeat, c, remembered)
        else if i.Message? && c.ws == Some(i.sock) then Fed(net.feed, i.frame)
        else net.feed,
        if i.Closed? then net.closed + {i.sock} else net.closed)
  }

  /** What may happen next. The socket held sends what a server may; any other socket
      may deliver anything late. No socket closes before it is dialled, and one whose
      close was delivered is not open. */
  predicate Possible(content: Option<Text> -> seq<Envelope>, worldSeat: bool, net: Net, i: Input) {
    match i
    case Message(sock, f) => net.client.ws == Some(sock) ==> Legit(content, worldSeat, net.feed, f)
    case Closed(sock) => sock < net.client.dials
    case Send(_, open) => open && net.client.ws.Some? ==> net.client.ws.value !in net.closed
    case _ => true
  }

  function Run(worldSeat: bool, remembered: Option<Text>, inputs: seq<Input>): Net {
    if inputs == [] then Net(NewClient, Opening(None, 0), {})
    else Advanced(worldSeat, remembered, Run(worldSeat, remembered, inputs[..|inputs| - 1]), inputs[|inputs| - 1])
  }

  predicate AllPossible(content: Option<Text> -> seq<Envelope>, worldSeat: bool, remembered: Option<Text>, inputs: seq<Input>) {
    inputs == [] ||
    (var init := inputs[..|inputs| - 1];
     AllPossible(content, worldSeat, remembered, init)
     && Possible(content, worldSeat, Run(worldSeat, remembered, init), inputs[|inputs| - 1]))
  }

  // ----- what the session holds -----

  /** Derived state is the fold of the longest prefix of the log that folds, and a
      reason is held exactly when that is not all of it. */
  predicate Folds(events: seq<Envelope>, derived: Fold.State, failed: bool) {
    var n := ClientFold.Folded(events);
    Fold.Replay(events[..n]) == Some(derived) && (failed <==> n < |events|)
  }

  /** The session's log is the first `lastSeq` entries of the log held. */
  predicate Holds(content: Option<Text> -> seq<Envelope>, c: Client) {
    0 <= c.lastSeq <= |content(c.log)| && c.events == content(c.log)[..c.lastSeq]
  }

  /** The connection of the socket held agrees with the client on what comes next. */
  predicate Agrees(worldSeat: bool, c: Client, feed: Feed) {
    && (!worldSeat && c.log.None? ==> c.lastSeq == 0)
    && (worldSeat ==> c.log.None?)
    && (c.ws.Some? ==>
          match feed
          case Opening(named, cursor) => !worldSeat && cursor == c.lastSeq && (named.Some? && c.log.Some? ==> named == c.log)
          case Feeding(log, next) => log == c.log && (log.None? <==> worldSeat) && (next == 1 || next == c.lastSeq + 1))
  }

  predicate Current(content: Option<Text> -> seq<Envelope>, worldSeat: bool, net: Net) {
    Holds(content, net.client) && Folds(net.client.events, net.client.derived, net.client.failed) && Agrees(worldSeat, net.client, net.feed)
  }

  lemma {:induction false} FoldsIngest(c: Client, e: Envelope)
    requires Folds(c.events, c.derived, c.failed)
    ensures var r := Ingest(c, e); Folds(r.events, r.derived, r.failed)
  {
    hide Fold.Step;
    var events := c.events + [e];
    var n := ClientFold.Folded(c.events);
    if Fold.Replay(events).Some? {
      assert events[..|events|] == events;
      ClientFold.PrefixReplays(events, |c.events|);
      assert events[..|c.events|] == c.events;
      ClientFold.FoldedAt(c.events, |c.events|) by { assert c.events[..|c.events|] == c.events; }
      ClientFold.FoldedAt(events, |events|);
    } else {
      assert events[..n] == c.events[..n];
      if n == |c.events| {
        assert events[..n + 1] == events;
      } else {
        assert events[..n + 1] == c.events[..n + 1];
      }
      ClientFold.FoldedAt(events, n);
    }
  }

  lemma {:induction false} FoldsEmpty()
    ensures Folds([], Fold.NewState, false)
  {
    var none: seq<Envelope> := [];
    assert none[..0] == none;
  }

  /** Any event keeps the session on its log. */
  lemma {:induction false} AdvanceCurrent(content: Option<Text> -> seq<Envelope>, worldSeat: bool, remembered: Option<Text>, net: Net, i: Input)
    requires Serves(content) && Current(content, worldSeat, net) && Possible(content, worldSeat, net, i)
    ensures Current(content, worldSeat, Advanced(worldSeat, remembered, net, i))
  {
    hide Folds, Fold.Replay, Others, Ended, At, HereAll;
    var c := net.client;
    FoldsEmpty();
    assert content(Some([])) == [];
    if i.Message? && c.ws == Some(i.sock) {
      match i.frame
      case EventFrame(e) => EntryCurrent(content, worldSeat, net, e);
      case _ =>
    }
  }

  lemma {:induction false} EntryCurrent(content: Option<Text> -> seq<Envelope>, worldSeat: bool, net: Net, e: Envelope)
    requires Serves(content) && Current(content, worldSeat, net)
    requires net.client.ws.Some? && Legit(content, worldSeat, net.feed, EventFrame(e))
    ensures Current(content, worldSeat, Net(Entry(net.client, e), Fed(net.feed, EventFrame(e)), net.closed))
  {
    hide Folds, Fold.Replay;
    var c := net.client;
    var log := content(c.log);
    assert e == log[e.sequence - 1];
    FoldsEmpty();
    if e.sequence == 1 && c.lastSeq > 0 {
      FoldsIngest(Reset(c).(lastSeq := 1), e);
      assert log[..1] == [] + [e];
    } else {
      assert e.sequence == c.lastSeq + 1;
      FoldsIngest(c.(lastSeq := e.sequence), e);
      assert log[..e.sequence] == log[..c.lastSeq] + [e];
    }
  }

  /** Against any server that sends the log it names in order, from the cursor dialled
      or again from its first entry, every interleaving of frames, closes, late
      messages of abandoned sockets, switches and reconnects leaves the session's log
      the first `lastSeq` entries of the log held, its state the fold of the longest
      prefix that folds, and a reason exactly when the whole does not fold. */
  lemma {:induction false} SessionHoldsItsLog(content: Option<Text> -> seq<Envelope>, worldSeat: bool, remembered: Option<Text>, inputs: seq<Input>)
    requires Serves(content) && AllPossible(content, worldSeat, remembered, inputs)
    ensures Current(content, worldSeat, Run(worldSeat, remembered, inputs))
  {
    hide Serves, Advanced, Possible;
    if inputs == [] {
      FoldsEmpty();
      hide Folds;
      assert content(None)[..0] == [];
    } else {
      SessionHoldsItsLog(content, worldSeat, remembered, inputs[..|inputs| - 1]);
      hide Current;
      AdvanceCurrent(content, worldSeat, remembered, Run(worldSeat, remembered, inputs[..|inputs| - 1]), inputs[|inputs| - 1]);
    }
  }

  // ----- what becomes of each command -----

  predicate DistinctIds(pending: seq<Waiting>) {
    forall j, k :: 0 <= j < k < |pending| ==> pending[j].id != pending[k].id
  }

  predicate Waits(c: Client, n: nat) { exists w :: w in c.pending && w.command == n }

  predicate Answered(c: Client, n: nat) { exists a :: a in c.answers && a.command == n }

  /** One answer is of a command's own kind: a result by its request id, a close by the
      close of the socket it was written to, and no connection only when it was never
      written. */
  predicate Fitting(c: Client, a: Answer) {
    && 0 <= a.command < |c.sent|
    && match a.how
       case ByResult(id) => c.sent[a.command].written.Some? && c.sent[a.command].written.value.0 == id
       case ByClose(sock) => c.sent[a.command].written.Some? && c.sent[a.command].written.value.1 == sock
       case NotConnected => c.sent[a.command].written.None?
  }

  predicate OnceEach(answers: seq<Answer>) {
    forall j, k :: 0 <= j < k < |answers| ==> answers[j].command != answers[k].command
  }

  /** What waits is a command written to a socket whose close was not delivered. */
  predicate Waiter(c: Client, closed: set<Socket>, w: Waiting) {
    w.command < |c.sent| && w.sock !in closed && c.sent[w.command] == Sent(Some((w.id, w.sock)))
  }

  /** Every command is waiting or answered, never both, and answered at most once, by
      its own result or the close of its own socket. */
  predicate Settled(c: Client, closed: set<Socket>) {
    && DistinctIds(c.pending) && (forall w :: w in c.pending ==> Waiter(c, closed, w))
    && OnceEach(c.answers) && (forall a :: a in c.answers ==> Fitting(c, a))
    && (forall n :: 0 <= n < |c.sent| ==> (Waits(c, n) <==> !Answered(c, n)))
  }

  /** The socket held, and every closed one, was dialled. */
  predicate Numbered(c: Client, closed: set<Socket>) {
    (c.ws.Some? ==> c.ws.value < c.dials) && forall s :: s in closed ==> s < c.dials
  }

  /** No send takes the id of a command still waiting. */
  predicate Unclashing(worldSeat: bool, remembered: Option<Text>, inputs: seq<Input>) {
    inputs == [] ||
    (var init := inputs[..|inputs| - 1];
     var c := Run(worldSeat, remembered, init).client;
     var i := inputs[|inputs| - 1];
     Unclashing(worldSeat, remembered, init)
     && (i.Send? && i.open && c.ws.Some? ==> At(c.pending, RequestId(c, i.requestId)) == |c.pending|))
  }

  lemma {:induction false} OthersAre(pending: seq<Waiting>, sock: Socket)
    requires DistinctIds(pending)
    ensures DistinctIds(Others(pending, sock))
    ensures forall w :: w in Others(pending, sock) <==> w in pending && w.sock != sock
  {
    if pending != [] {
      var init := pending[..|pending| - 1];
      OthersAre(init, sock);
      assert pending == init + [pending[|init|]];
      assert forall k :: 0 <= k < |Others(init, sock)| ==> Others(init, sock)[k] in init;
    }
  }

  lemma {:induction false} EndedAre(pending: seq<Waiting>, sock: Socket)
    requires forall j, k :: 0 <= j < k < |pending| ==> pending[j].command != pending[k].command
    ensures OnceEach(Ended(pending, sock))
    ensures forall w :: w in pending && w.sock == sock ==> Answer(w.command, ByClose(sock)) in Ended(pending, sock)
    ensures forall a :: a in Ended(pending, sock) ==> a.how == ByClose(sock) && exists w :: w in pending && w.sock == sock && w.command == a.command
  {
    if pending != [] {
      var init := pending[..|pending| - 1];
      EndedAre(init, sock);
      assert pending == init + [pending[|init|]];
      forall k | 0 <= k < |Ended(init, sock)| ensures Ended(init, sock)[k].command != pending[|init|].command {
        var a := Ended(init, sock)[k];
        assert a in Ended(init, sock);
        var w :| w in init && w.command == a.command;
      }
    }
  }

  lemma {:induction false} OneCommandEach(c: Client, closed: set<Socket>)
    requires Settled(c, closed)
    ensures forall j, k :: 0 <= j < k < |c.pending| ==> c.pending[j].command != c.pending[k].command
    ensures forall w, a :: w in c.pending && a in c.answers ==> w.command != a.command
  {
    forall j, k | 0 <= j < k < |c.pending| ensures c.pending[j].command != c.pending[k].command {
      assert c.pending[j] in c.pending && c.pending[k] in c.pending;
    }
    forall w, a | w in c.pending && a in c.answers ensures w.command != a.command {
      assert Waiter(c, closed, w);
      if w.command == a.command {
        assert Waits(c, w.command) && Answered(c, w.command);
      }
    }
  }

  /** A close ends its own socket's commands and no other's. */
  lemma {:induction false} CloseSettles(c: Client, closed: set<Socket>, sock: Socket)
    requires Settled(c, closed)
    ensures Settled(Close(c, sock), closed + {sock})
  {
    hide Ended, Others;
    OneCommandEach(c, closed);
    OthersAre(c.pending, sock);
    EndedAre(c.pending, sock);
    var r := Close(c, sock);
    forall n | 0 <= n < |r.sent| ensures Waits(r, n) <==> !Answered(r, n) {
      if Waits(c, n) {
        var w :| w in c.pending && w.command == n;
        if w.sock == sock {
          assert Answer(n, ByClose(sock)) in r.answers;
        } else {
          assert w in r.pending;
        }
      } else {
        var a :| a in c.answers && a.command == n;
        assert a in r.answers;
      }
    }
  }

  /** A result answers the command of its id. */
  lemma {:induction false} ResultSettles(c: Client, closed: set<Socket>, id: Text)
    requires Settled(c, closed)
    ensures Settled(Result(c, id), closed)
  {
    hide At;
    OneCommandEach(c, closed);
    var r := Result(c, id);
    var k := At(c.pending, id);
    if k < |c.pending| {
      var w := c.pending[k];
      assert w in c.pending;
      forall v | v in r.pending ensures v in c.pending && v != w {
        var j :| 0 <= j < |r.pending| && r.pending[j] == v;
        assert v == c.pending[if j < k then j else j + 1];
      }
      forall n | 0 <= n < |r.sent| ensures Waits(r, n) <==> !Answered(r, n) {
        if n == w.command {
          assert Answer(n, ByResult(id)) in r.answers;
        } else if Waits(c, n) {
          var v :| v in c.pending && v.command == n;
          assert v in r.pending;
        } else {
          var a :| a in c.answers && a.command == n;
          assert a in r.answers;
        }
      }
    }
  }

  lemma {:induction false} SendSettles(c: Client, closed: set<Socket>, requestId: Text, open: bool)
    requires Settled(c, closed)
    requires open && c.ws.Some? ==> c.ws.value !in closed && At(c.pending, RequestId(c, requestId)) == |c.pending|
    ensures Settled(SendCommand(c, requestId, open), closed)
  {
    var r := SendCommand(c, requestId, open);
    var last := |c.sent|;
    assert forall k :: 0 <= k < |c.answers| ==> c.answers[k] in c.answers;
    assert forall k :: 0 <= k < |c.pending| ==> c.pending[k] in c.pending;
    forall n | 0 <= n < |r.sent| ensures Waits(r, n) <==> !Answered(r, n) {
      if n == last {
        if open && c.ws.Some? {
          assert r.pending[|c.pending|].command == n && r.pending[|c.pending|] in r.pending;
        } else {
          assert r.answers[|c.answers|].command == n && r.answers[|c.answers|] in r.answers;
        }
      } else if Waits(c, n) {
        var v :| v in c.pending && v.command == n;
        assert v in r.pending;
      } else {
        var a :| a in c.answers && a.command == n;
        assert a in r.answers;
      }
    }
  }

  // ----- an id still waiting, taken again -----

  /** A command nothing will ever answer: its promise never resolves. */
  predicate Orphaned(c: Client, n: nat) { n < |c.sent| && !Waits(c, n) && !Answered(c, n) }

  lemma {:induction false} ClashOrphans(c: Client, closed: set<Socket>, requestId: Text)
    requires Settled(c, closed) && c.ws.Some? && At(c.pending, RequestId(c, requestId)) < |c.pending|
    ensures Orphaned(SendCommand(c, requestId, true), c.pending[At(c.pending, RequestId(c, requestId))].command)
  {
    OneCommandEach(c, closed);
    var k := At(c.pending, RequestId(c, requestId));
    var n := c.pending[k].command;
    assert c.pending[k] in c.pending;
    var r := SendCommand(c, requestId, true);
    forall w | w in r.pending ensures w.command != n {
      var j :| 0 <= j < |r.pending| && r.pending[j] == w;
      if j != k {
        assert c.pending[j].command != c.pending[k].command;
      }
    }
  }

  lemma {:induction false} OthersWithin(pending: seq<Waiting>, sock: Socket)
    ensures forall w :: w in Others(pending, sock) ==> w in pending
    ensures forall a :: a in Ended(pending, sock) ==> exists w :: w in pending && w.command == a.command
  {
    if pending != [] {
      var init := pending[..|pending| - 1];
      OthersWithin(init, sock);
      assert pending == init + [pending[|init|]];
      forall a | a in Ended(pending, sock) ensures exists w :: w in pending && w.command == a.command {
        if a in Ended(init, sock) {
          var w :| w in init && w.command == a.command;
          assert w in pending;
        } else {
          assert pending[|init|].command == a.command;
        }
      }
    }
  }

  /** Nothing new waits or is answered but what waited, or a command just sent. */
  predicate NothingFor(c: Client, r: Client, n: nat) {
    && |c.sent| <= |r.sent|
    && (forall w :: w in r.pending && w.command == n ==> w in c.pending)
    && (forall a :: a in r.answers && a.command == n ==> a in c.answers || Waits(c, n))
  }

  lemma {:induction false} OrphanOfNothing(c: Client, r: Client, n: nat)
    requires Orphaned(c, n) && NothingFor(c, r, n)
    ensures Orphaned(r, n)
  {
  }

  lemma {:induction false} OrphanStays(c: Client, i: Input, n: nat)
    requires Orphaned(c, n)
    ensures Orphaned(Advance(c, i), n)
  {
    hide Orphaned, NothingFor, Others, Ended, HereAll, Ingest, Result, SendCommand;
    var r := Advance(c, i);
    match i
    case Closed(sock) =>
      CloseWithin(c, sock, n);
      OrphanOfNothing(c, r, n);
    case Send(requestId, open) =>
      OrphanSent(c, n);
      SendWithin(c, requestId, open, n);
      OrphanOfNothing(c, r, n);
    case Message(sock, frame) =>
      if frame.ResultFrame? { ResultWithin(c, frame.requestId, n); }
      if frame.EventFrame? { IngestSame(c, frame.env); }
      SameWithin(c, r, n);
      OrphanOfNothing(c, r, n);
    case _ =>
      SameWithin(c, r, n);
      OrphanOfNothing(c, r, n);
  }

  lemma {:induction false} OrphanSent(c: Client, n: nat)
    requires Orphaned(c, n)
    ensures n < |c.sent|
  {
  }

  lemma {:induction false} IngestSame(c: Client, e: Envelope)
    ensures var r := Entry(c, e); (r.pending, r.sent, r.answers) == (c.pending, c.sent, c.answers)
  {
    hide Fold.Replay;
  }

  lemma {:induction false} SameWithin(c: Client, r: Client, n: nat)
    ensures (r.pending, r.sent, r.answers) == (c.pending, c.sent, c.answers) ==> NothingFor(c, r, n)
  {
  }

  lemma {:induction false} CloseWithin(c: Client, sock: Socket, n: nat)
    ensures NothingFor(c, Close(c, sock), n)
  {
    hide Others, Ended;
    OthersWithin(c.pending, sock);
  }

  lemma {:induction false} SendWithin(c: Client, requestId: Text, open: bool, n: nat)
    requires n < |c.sent|
    ensures NothingFor(c, SendCommand(c, requestId, open), n)
  {
    hide At, RequestId, Waits;
  }

  lemma {:induction false} ResultWithin(c: Client, id: Text, n: nat)
    ensures NothingFor(c, Result(c, id), n)
  {
    var k := At(c.pending, id);
    if k < |c.pending| {
      assert c.pending[k] in c.pending;
    }
  }

  /** In every interleaving of sends, results, closes and reconnects, each command is
      answered at most once and by nothing but its own result or its own socket's
      close, and none waits on a closed socket and none is lost, if and only if no
      send takes the id of a command still waiting. */
  lemma {:induction false} CommandsSettle(content: Option<Text> -> seq<Envelope>, worldSeat: bool, remembered: Option<Text>, inputs: seq<Input>)
    requires AllPossible(content, worldSeat, remembered, inputs)
    ensures var net := Run(worldSeat, remembered, inputs);
            && Numbered(net.client, net.closed)
            && (Settled(net.client, net.closed) <==> Unclashing(worldSeat, remembered, inputs))
            && (!Unclashing(worldSeat, remembered, inputs) ==> exists n :: Orphaned(net.client, n))
  {
    hide Advance, Settled, Orphaned;
    if inputs == [] {
      NewSettled();
    } else {
      var init, i := inputs[..|inputs| - 1], inputs[|inputs| - 1];
      CommandsSettle(content, worldSeat, remembered, init);
      var net := Run(worldSeat, remembered, init);
      if Unclashing(worldSeat, remembered, inputs) {
        AdvanceSettles(content, worldSeat, remembered, net, i);
      } else if Unclashing(worldSeat, remembered, init) {
        ClashOrphans(net.client, net.closed, i.requestId);
        AdvanceIs(net.client, i);
      } else {
        var n :| Orphaned(net.client, n);
        OrphanStays(net.client, i, n);
      }
      AdvanceNumbered(content, worldSeat, remembered, net, i);
      OrphanUnsettles(Run(worldSeat, remembered, inputs).client, Run(worldSeat, remembered, inputs).closed);
    }
  }

  lemma {:induction false} NewSettled()
    ensures Settled(NewClient, {})
  {
  }

  lemma {:induction false} AdvanceIs(c: Client, i: Input)
    requires i.Send?
    ensures Advance(c, i) == SendCommand(c, i.requestId, i.open)
  {
  }

  lemma {:induction false} OrphanUnsettles(c: Client, closed: set<Socket>)
    ensures (exists n :: Orphaned(c, n)) ==> !Settled(c, closed)
  {
  }

  lemma {:induction false} AdvanceNumbered(content: Option<Text> -> seq<Envelope>, worldSeat: bool, remembered: Option<Text>, net: Net, i: Input)
    requires Numbered(net.client, net.closed) && Possible(content, worldSeat, net, i)
    ensures var r := Advanced(worldSeat, remembered, net, i); Numbered(r.client, r.closed)
  {
    hide HereAll, Ingest, At, Others, Ended;
    match i
    case Message(sock, frame) => if frame.EventFrame? { IngestSameSockets(net.client, frame.env); }
    case _ =>
  }

  lemma {:induction false} IngestSameSockets(c: Client, e: Envelope)
    ensures Entry(c, e).ws == c.ws && Entry(c, e).dials == c.dials
  {
    hide Fold.Replay;
  }

  lemma {:induction false} AdvanceSettles(content: Option<Text> -> seq<Envelope>, worldSeat: bool, remembered: Option<Text>, net: Net, i: Input)
    requires Settled(net.client, net.closed) && Numbered(net.client, net.closed) && Possible(content, worldSeat, net, i)
    requires i.Send? && i.open && net.client.ws.Some? ==>
               At(net.client.pending, RequestId(net.client, i.requestId)) == |net.client.pending|
    ensures var r := Advanced(worldSeat, remembered, net, i); Settled(r.client, r.closed)
  {
    hide Settled, Fold.Replay, Others, Ended, HereAll, At;
    var c := net.client;
    match i
    case Send(requestId, open) => SendSettles(c, net.closed, requestId, open);
    case Closed(sock) => CloseSettles(c, net.closed, sock);
    case Message(_, ResultFrame(id)) => ResultSettles(c, net.closed, id);
    case _ => SettledSame(c, Advance(c, i), net.closed);
  }

  lemma {:induction false} SettledSame(c: Client, r: Client, closed: set<Socket>)
    requires Settled(c, closed) && r.pending == c.pending && r.sent == c.sent && r.answers == c.answers
    ensures Settled(r, closed)
  {
    assert forall n :: (Waits(c, n) <==> Waits(r, n)) && (Answered(c, n) <==> Answered(r, n));
  }

  /** The ids the wire mints itself never clash with one another. */
  lemma {:induction false} MintedApart(m: nat, n: nat)
    requires Minted(m) == Minted(n)
    ensures m == n
  {
    assert Minted(m)[2..] == GridKey.Digits(m) && Minted(n)[2..] == GridKey.Digits(n);
    GridKey.DigitsInjective(m, n);
  }

  /** A command is sent once, on the socket held, under the id its caller gave it, or,
      when it gave none, under "c-" and the number of ids minted so far. */
  lemma {:induction false} SentUnderItsId(c: Client, requestId: Text)
    requires c.ws.Some?
    ensures var r := SendCommand(c, requestId, true);
            && |r.sent| == |c.sent| + 1 && r.sent[..|c.sent|] == c.sent
            && r.sent[|c.sent|].written.Some? && r.sent[|c.sent|].written.value.1 == c.ws.value
            && var id := r.sent[|c.sent|].written.value.0;
               if requestId != [] then id == requestId && r.nextId == c.nextId
               else r.nextId == c.nextId + 1 && id[..2] == [0x63, 0x2d] && GridKey.StandsFor(id[2..], r.nextId)
  {
    hide At;
    var id := RequestId(c, requestId);
    if requestId == [] {
      GridKey.DigitsCount(c.nextId + 1);
      assert id[2..] == GridKey.Digits(c.nextId + 1);
    }
  }

  predicate Takes(i: Input, id: Text) { i.Send? && i.requestId == id != [] }

  predicate MintedBy(id: Text, n: nat) { exists k :: 1 <= k <= n && id == Minted(k) }

  /** Callers name no id twice, and none the wire might mint. */
  ghost predicate DistinctRequests(inputs: seq<Input>) {
    && (forall j, k, id :: 0 <= j < k < |inputs| && Takes(inputs[j], id) ==> !Takes(inputs[k], id))
    && (forall k, n: nat :: 0 <= k < |inputs| ==> !Takes(inputs[k], Minted(n)))
  }

  ghost predicate NamedOnce(inputs: seq<Input>, c: Client, id: Text) {
    MintedBy(id, c.nextId) || exists j :: 0 <= j < |inputs| && Takes(inputs[j], id)
  }

  lemma {:induction false} WaitingNamed(worldSeat: bool, remembered: Option<Text>, inputs: seq<Input>)
    ensures var c := Run(worldSeat, remembered, inputs).client; forall w :: w in c.pending ==> NamedOnce(inputs, c, w.id)
  {
    if inputs != [] {
      var init, i := inputs[..|inputs| - 1], inputs[|inputs| - 1];
      WaitingNamed(worldSeat, remembered, init);
      var c, r := Run(worldSeat, remembered, init).client, Run(worldSeat, remembered, inputs).client;
      forall w | w in r.pending ensures NamedOnce(inputs, r, w.id) {
        WaitedOrSent(c, i, w);
        if w in c.pending {
          assert NamedOnce(init, c, w.id);
          if !MintedBy(w.id, c.nextId) {
            var j :| 0 <= j < |init| && Takes(init[j], w.id);
            assert inputs[j] == init[j];
          }
        } else if i.requestId == [] {
          assert w.id == Minted(r.nextId);
        } else {
          assert Takes(inputs[|init|], w.id);
        }
      }
    }
  }

  lemma {:induction false} WaitedOrSent(c: Client, i: Input, w: Waiting)
    requires w in Advance(c, i).pending
    ensures c.nextId <= Advance(c, i).nextId
    ensures w in c.pending || (i.Send? && w.id == RequestId(c, i.requestId) && (i.requestId == [] ==> Advance(c, i).nextId == c.nextId + 1))
  {
    hide Others, Ended, HereAll, Result, Ingest, SendCommand;
    match i
    case Closed(sock) => OthersWithin(c.pending, sock);
    case Send(requestId, open) => SendWaits(c, requestId, open, w);
    case Message(sock, frame) => if frame.ResultFrame? { ResultWaits(c, frame.requestId, w); } else if frame.EventFrame? { IngestWaits(c, frame.env); }
    case _ =>
  }

  lemma {:induction false} SendWaits(c: Client, requestId: Text, open: bool, w: Waiting)
    ensures var r := SendCommand(c, requestId, open);
            && c.nextId <= r.nextId
            && (w in r.pending && w !in c.pending ==> w.id == RequestId(c, requestId) && (requestId == [] ==> r.nextId == c.nextId + 1))
  {
    hide At, RequestId;
  }

  lemma {:induction false} ResultWaits(c: Client, id: Text, w: Waiting)
    ensures Result(c, id).nextId == c.nextId && (w in Result(c, id).pending ==> w in c.pending)
  {
    hide At;
  }

  lemma {:induction false} IngestWaits(c: Client, e: Envelope)
    ensures Entry(c, e).nextId == c.nextId && Entry(c, e).pending == c.pending
  {
    hide Fold.Replay;
  }

  /** Ids named apart never clash with one another or with the wire's own. */
  lemma {:induction false} DistinctNeverClash(worldSeat: bool, remembered: Option<Text>, inputs: seq<Input>)
    requires DistinctRequests(inputs)
    ensures Unclashing(worldSeat, remembered, inputs)
  {
    if inputs != [] {
      var init, i := inputs[..|inputs| - 1], inputs[|inputs| - 1];
      assert forall j :: 0 <= j < |init| ==> init[j] == inputs[j];
      DistinctNeverClash(worldSeat, remembered, init);
      WaitingNamed(worldSeat, remembered, init);
      var c := Run(worldSeat, remembered, init).client;
      if i.Send? && i.open && c.ws.Some? {
        var id := RequestId(c, i.requestId);
        var k := At(c.pending, id);
        if k < |c.pending| {
          assert c.pending[k] in c.pending;
          NameTaken(inputs, c, i, id);
          assert false;
        }
      }
    }
  }

  lemma {:induction false} NameTaken(inputs: seq<Input>, c: Client, i: Input, id: Text)
    requires DistinctRequests(inputs) && inputs != [] && i == inputs[|inputs| - 1] && i.Send? && id == RequestId(c, i.requestId)
    ensures !NamedOnce(inputs[..|inputs| - 1], c, id)
  {
    var init := inputs[..|inputs| - 1];
    if i.requestId == [] {
      forall k | 1 <= k <= c.nextId ensures id != Minted(k) {
        if id == Minted(k) { MintedApart(c.nextId + 1, k); }
      }
    } else {
      assert Takes(inputs[|inputs| - 1], id);
      assert forall n: nat :: id != Minted(n);
    }
    forall j | 0 <= j < |init| ensures !Takes(init[j], id) {
      assert init[j] == inputs[j];
    }
  }
}
