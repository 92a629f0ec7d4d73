/** What holds of every run of appends, failed appends and reopenings, whatever
    the perception decides. */
module CampaignTheorems {
  import opened Contract
  import opened Fold
  import opened FoldInvariants
  import opened TextOrder
  import opened CharacterLogs
  import opened LeadFrames
  import opened Anchors
  import opened LogInvariant
  import opened CampaignSpec
  import opened CampaignInvariant

  // ----- reopening -----

  lemma {:induction false} StoredReplays<D>(c: Camp<D>, id: Text)
    requires LogOkAt(c, id) && id in c.chars && c.chars[id] != []
    ensures id in c.logs && Held(c.chars[id], c.logs[id], c.head)
    ensures Replay(EnvsOf(c.chars[id])) == Some(c.logs[id].fold)
  {
    hide Strict, Replay, Leads, Rising, Numbered;
    StrictReplays(EnvsOf(c.chars[id]));
  }

  /** A rebuilt log is held as stored, its found resumes standing for the kept ones. */
  lemma {:induction false} RebuiltHeld<D>(p: Perception<D>, c: Camp<D>, id: Text)
    requires LogOkAt(c, id) && id in c.chars && c.chars[id] != [] && SequencedFrom(c.world, 0) && c.head == |c.world|
    ensures Replay(EnvsOf(c.chars[id])).Some?
    ensures var r := Rebuilt(p, id, c.chars[id], c.state, c.world);
            && LogOk(c.chars[id], Some(r), c.head, Found(c.world, id), Member(c.state, id))
            && r.fold == c.logs[id].fold && r.head == c.logs[id].head && r.caused == c.logs[id].caused
  {
    hide Strict, Replay, Leads, Rising, Found;
    StoredReplays(c, id);
    FoundIn(c.world, id);
    LeadsMore(c.chars[id], c.logs[id].resumes, Found(c.world, id));
  }

  /** No store an append wrote can fail to reopen, and reopening keeps the invariant. */
  lemma {:induction false} ReopenKeeps<D>(p: Perception<D>, c: Camp<D>)
    requires Inv(c)
    ensures var r := Reopen(p, c.world, c.chars); r.Some? && Inv(r.value) && r.value.state == c.state && r.value.head == c.head
  {
    hide Strict, Replay, LogOk, Found;
    StrictReplays(c.world);
    forall id | id in c.chars ensures Replay(EnvsOf(c.chars[id])).Some? {
      assert LogOkAt(c, id);
      StoredReplays(c, id);
    }
    var r := Reopen(p, c.world, c.chars).value;
    forall id: Text ensures LogOkAt(r, id) {
      assert LogOkAt(c, id);
      if id in c.chars {
        RebuiltHeld(p, c, id);
      } else {
        NothingStored<D>(c.head, Found(c.world, id), Member(c.state, id));
      }
    }
  }

  lemma {:induction false} NothingStored<D>(w: int, found: seq<int>, member: bool)
    ensures LogOk<D>([], None, w, found, member)
  {
  }

  // ----- every run -----

  lemma {:induction false} NewCampInv<D>()
    ensures Inv(NewCamp<D>())
  {
    forall id: Text ensures LogOkAt(NewCamp<D>(), id) {
    }
  }

  /** Every state a run reaches keeps the invariant; in particular no run poisons the campaign. */
  lemma {:induction false} RunInv<D>(ops: seq<Op<D>>)
    requires forall k :: 0 <= k < |ops| ==> OpOk(ops[k])
    ensures Inv(Run(ops))
  {
    hide Inv, Append, Reopen;
    if ops == [] {
      NewCampInv<D>();
    } else {
      var init, last := ops[..|ops| - 1], ops[|ops| - 1];
      RunInv(init);
      var c := Run(init);
      match last
      case AppendOp(p, envs, drawn, lands) => AppendKeeps(p, c, envs, drawn, lands);
      case ReopenOp(p) => ReopenKeeps(p, c);
    }
  }

  /** Live equals rebuilt, after any run: what Open would rebuild from the store is
      what the campaign holds, state, head, and each stored log's fold, head and
      caused table; and a log is active exactly while its actor is a party member, its
      decision begun from the log and the world as they stand. */
  lemma {:induction false} LiveEqualsRebuilt<D>(ops: seq<Op<D>>, p: Perception<D>)
    requires forall k :: 0 <= k < |ops| ==> OpOk(ops[k])
    ensures var c := Run(ops);
            var r := Reopen(p, c.world, c.chars);
            && r.Some? && r.value.state == c.state && r.value.head == c.head
            && r.value.logs.Keys == c.chars.Keys && c.chars.Keys <= c.logs.Keys
            && forall id :: id in c.chars ==>
                 && r.value.logs[id].fold == c.logs[id].fold
                 && r.value.logs[id].head == c.logs[id].head
                 && r.value.logs[id].caused == c.logs[id].caused
                 && (r.value.logs[id].decision.Some? <==> c.logs[id].decision.Some?)
                 && r.value.logs[id].decision ==
                      (if id in c.state.actors && c.state.actors[id].kind == 1 then Some(p.resume(id, c.logs[id].fold, c.state)) else None)
  {
    hide Inv, Run, Strict, Replay, Held, Refound, Found;
    RunInv(ops);
    var c := Run(ops);
    ReopenKeeps(p, c);
    var r := Reopen(p, c.world, c.chars).value;
    forall id | id in c.chars
      ensures id in c.logs && r.logs[id].fold == c.logs[id].fold && r.logs[id].head == c.logs[id].head
      ensures r.logs[id].caused == c.logs[id].caused
      ensures r.logs[id].decision.Some? <==> c.logs[id].decision.Some?
      ensures r.logs[id].decision ==
                (if id in c.state.actors && c.state.actors[id].kind == 1 then Some(p.resume(id, c.logs[id].fold, c.state)) else None)
    {
      InvAt(c, id);
      StoredReplays(c, id);
      RebuiltHeld(p, c, id);
    }
  }

  lemma {:induction false} InvAt<D>(c: Camp<D>, id: Text)
    requires Inv(c)
    ensures LogOkAt(c, id) && (id in c.chars ==> c.chars[id] != [])
    ensures SequencedFrom(c.world, 0) && c.head == |c.world| && Strict(NewState, c.world) == Some(c.state)
  {
  }

  /** Reopening never moves an anchor: after any run, for every stored log and every
      range, the window over the resumes the campaign kept is the window over the
      transitions Open finds in the world log. */
  lemma {:induction false} ReopeningMovesNoAnchor<D>(ops: seq<Op<D>>, id: Text, a: int, b: int)
    requires forall k :: 0 <= k < |ops| ==> OpOk(ops[k])
    requires id in Run(ops).logs
    ensures var c := Run(ops);
            Window(c.logs[id].caused, c.logs[id].resumes, a, b) == Window(c.logs[id].caused, Found(c.world, id), a, b)
  {
    hide Inv, Run, Strict, Found, Window;
    RunInv(ops);
    var c := Run(ops);
    InvAt(c, id);
    FoundIn(c.world, id);
    SameWindow(Stored(c.chars, id), c.head, c.logs[id].resumes, Found(c.world, id), a, b);
  }

  /** Every held log is active exactly while its actor is a party member. */
  lemma {:induction false} ActiveWhileMember<D>(ops: seq<Op<D>>, id: Text)
    requires forall k :: 0 <= k < |ops| ==> OpOk(ops[k])
    ensures var c := Run(ops);
            id in c.logs ==> (c.logs[id].decision.Some? <==> id in c.state.actors && c.state.actors[id].kind == 1)
    ensures var c := Run(ops);
            id in c.chars && id in c.state.actors && c.state.actors[id].kind == 1 ==> id in c.logs && c.logs[id].decision.Some?
  {
    hide Inv, Run, Held, Refound, Strict, Found;
    RunInv(ops);
    InvAt(Run(ops), id);
    if id in Run(ops).chars {
      StoredReplays(Run(ops), id);
    }
  }

  /** Every narration a reachable log is about to write is anchored legally where it
      lands, on exactly the entries caused in its range and no opening or resume. */
  lemma {:induction false} WrittenAnchor<D>(stored: seq<CharEntry>, l: Log<D>, w: int, f: Envelope, own: int)
    requires Held(stored, l, w) && f.payload.NarrationAdded? && own > l.head
    ensures var n := Reanchor(l.caused, l.resumes, f).payload;
            var lo := Start(l.resumes, f.payload.anchorFrom, f.payload.anchorTo);
            && n.NarrationAdded? && n.text == f.payload.text && n.speaker == f.payload.speaker
            && AnchorOk(n.anchorFrom, n.anchorTo, own)
            && (n.anchorTo == 0 <==> forall k :: !InRange(stored, k, lo, f.payload.anchorTo))
            && (forall k :: 0 <= k < |stored| ==>
                  (n.anchorFrom <= k + 1 <= n.anchorTo <==> InRange(stored, k, lo, f.payload.anchorTo)))
  {
    hide Strict, Window, CausedOf, Leads, Rising, Numbered, InRange;
    AnchorNamesRange(stored, w, l.resumes, f.payload.anchorFrom, f.payload.anchorTo);
    AnchorLegal(stored, w, l.resumes, f.payload.anchorFrom, f.payload.anchorTo, own);
  }

  /** The log a party member's turn asks its decision about: roused and led. */
  function Led<D>(p: Perception<D>, id: Text, ol: Option<Log<D>>, ev: Envelope, before: State): Option<Log<D>> {
    var roused := Roused(p, id, ol, ev, before);
    match Trial(roused.0.fold, roused.0.head, roused.1)
    case None => None
    case Some(fold) => Some(roused.0.(fold := fold, head := roused.0.head + |roused.1|))
  }

  /** What TakeTurn asks the decision about is that log. */
  lemma {:induction false} TurnAsksLed<D>(p: Perception<D>, id: Text, ol: Option<Log<D>>, i: nat, ev: Envelope, before: State, world: State)
    requires Member(world, id) && Led(p, id, ol, ev, before).Some?
    ensures TakeTurn(p, id, ol, i, ev, before, world).log == Decide(p, id, Led(p, id, ol, ev, before).value, i, ev, world).log
  {
    hide Decide, Trial, Roused;
  }

  /** The decision a party member's turn asks: the one its log holds, or, when the log
      is new or was paused, one that has seen nothing. What it answers is what the log
      holds next, unless its frames are refused: then it is begun again from the log. */
  lemma {:induction false} TurnAsks<D>(p: Perception<D>, id: Text, ol: Option<Log<D>>, i: nat, ev: Envelope, before: State, world: State)
    requires id in world.actors && world.actors[id].kind == 1 && Led(p, id, ol, ev, before).Some?
    ensures var l := Led(p, id, ol, ev, before).value;
            var asked := if ol.Some? && ol.value.decision.Some? then ol.value.decision.value else p.begin(id);
            var (next, made) := p.event(asked, id, ev, l.fold, world);
            var t := TakeTurn(p, id, ol, i, ev, before, world);
            var refused := Trial(l.fold, l.head, ReanchorAll(l.caused, l.resumes, made)).None?;
            && t.log.Some? && t.log.value.decision == Some(if refused then p.resume(id, l.fold, world) else next)
            && t.dropped == if refused then 1 else 0
  {
    hide Trial, ReanchorAll;
  }

  /** Whatever frames a party member's decision makes of a world event, each narration
      among them, at the place it would take in the log, is anchored legally and on
      exactly the entries caused in its range. LogOk holds of every log at every event
      of every run. */
  lemma {:induction false} EveryNarrationAnchored<D>(p: Perception<D>, id: Text, ol: Option<Log<D>>, ev: Envelope, before: State,
                                                     stored: seq<CharEntry>, w: int, found: seq<int>, made: seq<Envelope>, k: nat)
    requires LogOk(stored, ol, w, found, Member(before, id)) && Good(before) && w >= 0 && ev.sequence == w + 1
    requires k < |made| && made[k].payload.NarrationAdded?
    ensures var led := Led(p, id, ol, ev, before);
            && led.Some? && led.value.decision.Some?
            && var l := led.value;
               var rows := stored + Wrap(Roused(p, id, ol, ev, before).1, |stored|, 0);
               var n := ReanchorAll(l.caused, l.resumes, made)[k].payload;
               var told := made[k].payload;
               var lo := Start(l.resumes, told.anchorFrom, told.anchorTo);
               && n.NarrationAdded? && n.text == told.text && n.speaker == told.speaker
               && AnchorOk(n.anchorFrom, n.anchorTo, l.head + k + 1)
               && (n.anchorTo == 0 <==> forall j :: !InRange(rows, j, lo, told.anchorTo))
               && (forall j :: 0 <= j < |rows| ==> (n.anchorFrom <= j + 1 <= n.anchorTo <==> InRange(rows, j, lo, told.anchorTo)))
  {
    hide Trial, Strict, Held, LogOk, Good, Roused, Refound, Numbered, Wrap, FoundNext, InRange, Start, ReanchorAll, Reanchor, AnchorOk;
    RousedKeeps(p, id, ol, ev, before, stored, w, found, Member(before, id));
    var roused := Roused(p, id, ol, ev, before);
    HeldHead(stored, roused.0, w + 1);
    var fold := Trial(roused.0.fold, roused.0.head, roused.1).value;
    HeldLed(stored, roused.0, w + 1, roused.1, fold);
    WrittenAnchor(stored + Wrap(roused.1, |stored|, 0), Led(p, id, ol, ev, before).value, w + 1, made[k],
                  roused.0.head + |roused.1| + k + 1);
  }

  // ----- what a failed append leaves -----

  /** After an append that failed every log holds the fold, head, caused table and
      resumes it held, and exactly the active decisions are active: begun again from
      their logs and the world when the store failed it, and left alone when it was
      refused before anything was fanned out. */
  lemma {:induction false} FailureLeaves<D>(p: Perception<D>, c: Camp<D>, envs: seq<Envelope>, drawn: seq<Text>, lands: bool)
    requires Inv(c) && |drawn| == |envs| && Append(p, c, envs, drawn, lands).1.Failed?
    ensures var r := Append(p, c, envs, drawn, lands).0;
            && r.(logs := c.logs) == c && r.logs.Keys == c.logs.Keys
            && forall id :: id in c.logs ==>
                 r.logs[id].(decision := c.logs[id].decision) == c.logs[id]
                 && (r.logs[id].decision.Some? <==> c.logs[id].decision.Some?)
                 && r.logs[id].decision ==
                      (if Append(p, c, envs, drawn, lands).1 == Failed(NotStored) && c.logs[id].decision.Some?
                       then Some(p.resume(id, c.logs[id].fold, c.state)) else c.logs[id].decision)
  {
    hide Inv, Live, StoreAll, FanEvents, Validate, StoreTakes;
    AppendKeeps(p, c, envs, drawn, lands);
  }

  // ----- the store takes every entry a fan-out makes -----

  predicate Takeable(e: Entry, n: int) { e.env.sequence == 0 && e.actorId != [] && -1 <= e.cause < n }

  lemma {:induction false} TurnTakeable<D>(p: Perception<D>, id: Text, ol: Option<Log<D>>, i: nat, ev: Envelope, before: State, world: State)
    requires Good(world)
    ensures forall e :: e in TakeTurn(p, id, ol, i, ev, before, world).entries ==> Takeable(e, i + 1)
  {
    TurnEntries(p, id, ol, i, ev, before, world);
    if Member(world, id) {
      assert ActorGood(id, world.actors[id]);
    }
  }

  lemma {:induction false} IdsTakeable<D>(p: Perception<D>, f: Fan<D>, ids: seq<Text>, i: nat, ev: Envelope, before: State, world: State)
    requires Good(world) && forall e :: e in f.entries ==> Takeable(e, i + 1)
    ensures forall e :: e in FanIds(p, f, ids, i, ev, before, world).entries ==> Takeable(e, i + 1)
  {
    hide TakeTurn, Good, Takeable;
    if ids != [] {
      var init, last := ids[..|ids| - 1], ids[|ids| - 1];
      IdsTakeable(p, f, init, i, ev, before, world);
      var r := FanIds(p, f, init, i, ev, before, world);
      TurnTakeable(p, last, Find(r.logs, last), i, ev, before, world);
    }
  }

  lemma {:induction false} FanTakeable<D>(p: Perception<D>, logs: map<Text, Log<D>>, st: State, evs: seq<Envelope>)
    requires Good(st) && Positive(evs) && FanEvents(p, logs, st, evs).Some?
    ensures Good(FanEvents(p, logs, st, evs).value.1)
    ensures forall e :: e in FanEvents(p, logs, st, evs).value.0.entries ==> Takeable(e, |evs|)
  {
    hide FanIds, Step, Good;
    if evs != [] {
      var n := |evs| - 1;
      FanTakeable(p, logs, st, evs[..n]);
      var f, before := FanEvents(p, logs, st, evs[..n]).value.0, FanEvents(p, logs, st, evs[..n]).value.1;
      var world := FanEvents(p, logs, st, evs).value.1;
      StepGood(before, evs[n]);
      assert forall e :: e in f.entries ==> Takeable(e, n + 1);
      IdsTakeable(p, f, LogIds(f.logs, world), n, evs[n], before, world);
    }
  }

  /** An append fails exactly when a batch is empty, holds an unknown payload or an
      event that does not fold, or the store fails or is handed a stamped envelope. */
  lemma {:induction false} AppendFailsWhen<D>(p: Perception<D>, c: Camp<D>, envs: seq<Envelope>, drawn: seq<Text>, lands: bool)
    requires Inv(c) && |drawn| == |envs|
    ensures Append(p, c, envs, drawn, lands).1.Appended? <==>
              && envs != [] && (forall e :: e in envs ==> !e.payload.NoPayload?)
              && Validate(c.state, c.head, envs, drawn).Some?
              && lands && forall k :: 0 <= k < |envs| ==> envs[k].sequence == 0
  {
    hide Strict, LogsOk, Kept, FanEvents, Commit, Restart, Step;
    var v := Validate(c.state, c.head, envs, drawn);
    if envs != [] && v.Some? {
      ValidateFolds(c.state, c.head, envs, drawn);
      CommitKeeps(p, c, v.value.0);
      StrictGood(NewState, c.world) by { EmptyGood(); }
      FanTakeable(p, c.logs, c.state, v.value.0);
      var f := FanEvents(p, c.logs, c.state, v.value.0).value.0;
      assert forall k :: 0 <= k < |f.entries| ==> f.entries[k] in f.entries && Takeable(f.entries[k], |envs|);
    }
  }
}
