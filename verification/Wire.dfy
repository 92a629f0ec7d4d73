/** The browser's Wire and Session as objects (client/src/wire.ts,
    client/src/session.ts), each handler proved to do what Connection.Advance says. */
module Wire {
  import opened Contract
  import opened Connection
  import Fold
  import ClientFold

  class Session {
    var events: seq<Envelope>
    var derived: ClientFold.State
    var failed: bool
    var present: map<Text, Text>
    var watch: seq<Watchable>
    var none: bool

    ghost var folded: Fold.State // what derived says

    constructor ()
      ensures Valid() && fresh(derived)
      ensures events == [] && folded == Fold.NewState && !failed && present == map[] && watch == [] && !none
    {
      derived := new ClientFold.State();
      events, failed, present, watch, none, folded := [], false, map[], [], false, Fold.NewState;
    }

    ghost predicate Valid()
      reads this, derived
    {
      derived.Mirrors(folded)
    }

    /** Refold the whole log; when it does not fold, keep the state held and the reason. */
    method Ingest(e: Envelope)
      requires Valid()
      modifies this`events, this`derived, this`folded, this`failed
      ensures Valid() && (derived == old(derived) || fresh(derived))
      ensures events == old(events) + [e]
      ensures var whole := Fold.Replay(events);
              && folded == (if whole.Some? then whole.value else old(folded))
              && failed == (whole.None? || old(failed))
    {
      hide ClientFold.State.Mirrors, Fold.Replay, ClientFold.Folded;
      events := events + [e];
      var st, n := ClientFold.Run(events);
      WholeFolds(events);
      if n == |events| {
        derived, folded := st, Fold.Replay(events).value;
      } else {
        failed := true;
      }
    }

    /** The log starts again: nothing folded from it stays. */
    method Empty()
      modifies this`events, this`derived, this`folded, this`failed
      ensures Valid() && fresh(derived) && events == [] && folded == Fold.NewState && !failed
    {
      derived := new ClientFold.State();
      events, failed, folded := [], false, Fold.NewState;
    }

    /** A presence batch; a snapshot replaces the whole table. */
    method Presence(batch: seq<Presence>, replace: bool)
      modifies this`present
      ensures present == HereAll(if replace then map[] else old(present), batch)
    {
      if replace { present := map[]; }
      ghost var was := present;
      var k := 0;
      while k < |batch|
        invariant 0 <= k <= |batch| && present == HereAll(was, batch[..k])
      {
        var p := batch[k];
        assert batch[..k + 1][..k] == batch[..k];
        match p.state {
          case Connected => present := present[p.participantId := p.displayName];
          case Disconnected => present := present - {p.participantId};
          case Unspecified =>
        }
        k := k + 1;
      }
      assert batch[..k] == batch;
    }

    /** A set of whom to watch; `left` are those it stops naming as controlled, in the
        last set's order. */
    method Watchables(actors: seq<Watchable>, none: bool) returns (left: seq<Watchable>)
      modifies this`watch, this`none
      ensures watch == actors && this.none == none
      ensures left == Left(old(this.none), old(watch), none, actors)
    {
      left := [];
      if !this.none {
        for k := 0 to |watch|
          invariant this.none == old(this.none) && watch == old(watch)
          invariant left == Left(false, watch[..k], none, actors)
        {
          assert watch[..k + 1][..k] == watch[..k];
          if none || !Names(actors, watch[k].actorId) {
            left := left + [watch[k]];
          }
        }
        assert watch[..|watch|] == watch;
      }
      watch, this.none := actors, none;
    }
  }

  lemma {:induction false} WholeFolds(evs: seq<Envelope>)
    ensures ClientFold.Folded(evs) == |evs| <==> Fold.Replay(evs).Some?
  {
    hide Fold.Replay;
    assert evs[..|evs|] == evs;
    if Fold.Replay(evs).Some? {
      ClientFold.FoldedAt(evs, |evs|);
    }
  }

  predicate Names(actors: seq<Watchable>, id: Text) { exists a :: a in actors && a.actorId == id }

  /** The actors of a set a participant controlled that the next set does not name as controlled. */
  function Left(wasNone: bool, was: seq<Watchable>, none: bool, actors: seq<Watchable>): seq<Watchable> {
    if wasNone || was == [] then []
    else
      var a := was[|was| - 1];
      Left(wasNone, was[..|was| - 1], none, actors) + (if none || !Names(actors, a.actorId) then [a] else [])
  }

  /** Who left: of a set that named anyone as controlled, in its order, exactly those the
      next set names no more, or everyone when it names none. */
  lemma {:induction false} LeftAre(wasNone: bool, was: seq<Watchable>, none: bool, actors: seq<Watchable>) returns (at: seq<nat>)
    ensures var left := Left(wasNone, was, none, actors);
            && |at| == |left| && (forall k :: 0 <= k < |at| ==> at[k] < |was| && left[k] == was[at[k]])
            && (forall j, k :: 0 <= j < k < |at| ==> at[j] < at[k])
    ensures forall i: nat :: i in at <==>
              i < |was| && !wasNone && (none || forall a :: a in actors ==> a.actorId != was[i].actorId)
  {
    at := [];
    if !wasNone && was != [] {
      var n := |was| - 1;
      at := LeftAre(wasNone, was[..n], none, actors);
      if none || !Names(actors, was[n].actorId) {
        at := at + [n];
      }
    }
  }

  class Wire {
    const session: Session
    const remembered: Option<Text>
    var ws: Option<Socket>
    var dials: nat
    var pending: seq<Waiting>
    var log: Option<Text>
    var lastSeq: int
    var nextId: nat

    // the promises handed out, and how each one resolved
    var sent: seq<Sent>
    var answers: seq<Answer>

    constructor (session: Session, remembered: Option<Text>)
      requires session.Valid() && session.events == [] && session.folded == Fold.NewState && !session.failed
      requires session.present == map[] && session.watch == [] && !session.none
      ensures Valid() && Value() == NewClient && this.session == session
    {
      this.session, this.remembered := session, remembered;
      ws, dials, pending, log, lastSeq, nextId, sent, answers := None, 0, [], None, 0, 0, [], [];
    }

    ghost predicate Valid()
      reads this, session, session.derived
    {
      session.Valid()
    }

    ghost function Value(): Client
      reads this, session
    {
      Client(ws, dials, pending, log, lastSeq, nextId, session.events, session.folded, session.failed,
             session.present, session.watch, session.none, sent, answers)
    }

    /** A new socket, the one held from now on; what it asks for is dialled with it. */
    method Connect() returns (sock: Socket, named: Option<Text>, after: int)
      modifies this`ws, this`dials
      ensures Value() == Advance(old(Value()), Input.Connect) && ws == Some(sock)
      ensures named == Named(old(Value()), remembered) && after == lastSeq
    {
      after := lastSeq;
      named := if log.Some? then log else remembered;
      if named == Some([]) { named := None; }
      sock := dials;
      dials, ws := dials + 1, Some(sock);
    }

    /** Forget the socket held before dialling: nothing of its is handled from here on. */
    method Reconnect() returns (sock: Socket, named: Option<Text>, after: int)
      modifies this`ws, this`dials
      ensures Value() == Advance(old(Value()), Input.Reconnect) && ws == Some(sock)
      ensures named == Named(old(Value()), remembered) && after == lastSeq
    {
      ws := None;
      sock, named, after := Connect();
    }

    /** A socket's close answers that socket's commands, and only those. */
    method OnClose(sock: Socket)
      modifies this`pending, this`answers
      ensures Value() == Advance(old(Value()), Closed(sock))
    {
      var all := pending;
      pending := [];
      ghost var before := answers;
      var k := 0;
      while k < |all|
        invariant 0 <= k <= |all|
        invariant pending == Others(all[..k], sock) && answers == before + Ended(all[..k], sock)
      {
        assert all[..k + 1][..k] == all[..k];
        if all[k].sock == sock {
          answers := answers + [Answer(all[k].command, ByClose(sock))];
        } else {
          pending := pending + [all[k]];
        }
        k := k + 1;
      }
      assert all[..k] == all;
    }

    /** A message; one of a socket no longer held is dropped. */
    method OnMessage(sock: Socket, frame: Frame)
      requires Valid()
      modifies this`pending, this`answers, this`log, this`lastSeq, session
      ensures Valid() && (session.derived == old(session.derived) || fresh(session.derived))
      ensures Value() == Advance(old(Value()), Message(sock, frame))
    {
      hide Fold.Replay, HereAll, ClientFold.State.Mirrors;
      if ws != Some(sock) { return; }
      match frame {
        case ResultFrame(id) => OnResult(id);
        case EventFrame(e) => OnEvent(e);
        case ViewpointChanged(actorId) =>
          if log != Some(actorId) {
            log := Some(actorId);
            Restart();
          }
        case WatchableChanged(actors, none) =>
          var left := session.Watchables(actors, none);
        case PresenceSnapshot(all) => session.Presence(all, true);
        case PresenceChanged(one) =>
          assert HereAll(session.present, [one]) == Here(session.present, one) by { OneHere(session.present, one); }
          session.Presence([one], false);
        case UnknownFrame =>
      }
    }

    method Restart()
      modifies this`lastSeq, session
      ensures Valid() && fresh(session.derived) && Value() == Reset(old(Value()))
    {
      lastSeq := 0;
      session.Empty();
    }

    method OnResult(id: Text)
      modifies this`pending, this`answers
      ensures Value() == Result(old(Value()), id)
    {
      var k := Place(id);
      if k < |pending| {
        answers := answers + [Answer(pending[k].command, ByResult(id))];
        pending := pending[..k] + pending[k + 1..];
      }
    }

    /** An entry: the log starts again at sequence 1 alone, and the cursor is the highest sequence sent. */
    method OnEvent(e: Envelope)
      requires Valid()
      modifies this`lastSeq, session
      ensures Valid() && (session.derived == old(session.derived) || fresh(session.derived))
      ensures Value() == Entry(old(Value()), e)
    {
      hide Fold.Replay, ClientFold.State.Mirrors;
      if e.sequence == 1 && lastSeq > 0 {
        Restart();
      }
      if e.sequence > lastSeq {
        lastSeq := e.sequence;
      }
      session.Ingest(e);
    }

    method Place(id: Text) returns (k: nat)
      ensures k == At(pending, id)
    {
      k := 0;
      while k < |pending| && pending[k].id != id
        invariant 0 <= k <= |pending|
        invariant forall j :: 0 <= j < k ==> pending[j].id != id
      {
        k := k + 1;
      }
      AtIs(pending, id, k);
    }

    /** A command written to the socket held, or answered at once when none is open. */
    method Send(requestId: Text, open: bool)
      modifies this`pending, this`answers, this`nextId, this`sent
      ensures Value() == Advance(old(Value()), Input.Send(requestId, open))
    {
      var n := |sent|;
      if ws.None? || !open {
        sent, answers := sent + [Sent(None)], answers + [Answer(n, NotConnected)];
        return;
      }
      var id := requestId;
      if id == [] {
        nextId := nextId + 1;
        id := Minted(nextId);
      }
      sent := sent + [Sent(Some((id, ws.value)))];
      var k := Place(id);
      pending := if k < |pending| then pending[k := Waiting(id, ws.value, n)] else pending + [Waiting(id, ws.value, n)];
    }
  }

  lemma {:induction false} OneHere(present: map<Text, Text>, one: Presence)
    ensures HereAll(present, [one]) == Here(present, one)
  {
    assert [one][..0] == [];
    assert HereAll(present, []) == present;
  }

  lemma {:induction false} AtIs(pending: seq<Waiting>, id: Text, k: nat)
    requires k <= |pending| && (k < |pending| ==> pending[k].id == id) && forall j :: 0 <= j < k ==> pending[j].id != id
    ensures k == At(pending, id)
  {
  }

  /** A browser and all that happens to it, on its objects: exactly the run on values,
      so what holds of every run holds of them. */
  method Browse(worldSeat: bool, remembered: Option<Text>, inputs: seq<Input>) returns (w: Wire)
    ensures w.Valid() && w.Value() == Run(worldSeat, remembered, inputs).client
  {
    hide Advance;
    var session := new Session();
    w := new Wire(session, remembered);
    var k := 0;
    while k < |inputs|
      invariant 0 <= k <= |inputs| && fresh(w) && fresh(w.session) && fresh(w.session.derived)
      invariant w.Valid() && w.Value() == Run(worldSeat, remembered, inputs[..k]).client
    {
      assert inputs[..k + 1][..k] == inputs[..k];
      match inputs[k] {
        case Connect => var s, n, a := w.Connect();
        case Reconnect => var s, n, a := w.Reconnect();
        case Message(sock, frame) => w.OnMessage(sock, frame);
        case Closed(sock) => w.OnClose(sock);
        case Send(requestId, open) => w.Send(requestId, open);
      }
      k := k + 1;
    }
    assert inputs[..k] == inputs;
  }
}
