/** The campaign as it runs (internal/campaign/campaign.go, and Open's part of
    fanout.go): its fields, the append path over them, and the rebuild; proved to
    be CampaignSpec's Append and Reopen. Engine states are held as their values
    here; EngineState and Engine hold them on the heap. */
module Campaign {
  import opened Contract
  import opened GoHeap
  import opened CharacterLogs
  import opened Anchors
  import opened LogInvariant
  import opened CampaignSpec
  import opened CampaignInvariant
  import opened FanOut
  import Fold

  // ----- the store -----

  /** The log database's two tables, rows in sequence order. */
  class Store {
    var world: seq<Envelope>
    var chars: map<Text, seq<CharEntry>>

    constructor ()
      ensures world == [] && chars == map[]
    {
      world, chars := [], map[];
    }

    /** AppendBatch: everything in one transaction, which commits when `commits`. */
    method AppendBatch(envs: seq<Envelope>, entries: seq<Entry>, commits: bool) returns (ok: bool, first: int)
      requires envs != []
      modifies this
      ensures ok <==> commits && StoreTakes(envs, entries)
      ensures ok ==> first == MaxWorldSeq(old(world)) + 1
                     && world == old(world) + Stamp(envs, first - 1) && chars == StoreAll(old(chars), entries, first)
      ensures !ok ==> world == old(world) && chars == old(chars)
    {
      var takes := Checked(envs, entries);
      if !takes { return false, 0; }
      first := MaxWorldSeq(world) + 1;
      var rows := [];
      for k := 0 to |envs|
        invariant rows == Stamp(envs, first - 1)[..k]
      {
        rows := rows + [envs[k].(sequence := first + k)];
      }
      var logs := Numbered(entries, first);
      if !commits { return false, 0; }
      world, chars := world + rows, logs;
      ok := true;
    }

    /** The refusals made before a transaction opens. */
    method Checked(envs: seq<Envelope>, entries: seq<Entry>) returns (ok: bool)
      ensures ok <==> StoreTakes(envs, entries)
    {
      for k := 0 to |envs|
        invariant forall j :: 0 <= j < k ==> envs[j].sequence == 0
      {
        if envs[k].sequence != 0 { return false; }
      }
      for k := 0 to |entries|
        invariant forall j :: 0 <= j < k ==>
                    entries[j].env.sequence == 0 && entries[j].actorId != [] && -1 <= entries[j].cause < |envs|
      {
        var e := entries[k];
        if e.env.sequence != 0 || e.actorId == [] || e.cause < -1 || e.cause >= |envs| { return false; }
      }
      ok := true;
    }

    /** Each entry at the next sequence of its own log; `heads` remembers the next
        sequence of a log once one entry of it is written. */
    method Numbered(entries: seq<Entry>, first: int) returns (logs: map<Text, seq<CharEntry>>)
      ensures logs == StoreAll(chars, entries, first)
    {
      logs := chars;
      var heads: map<Text, int> := map[];
      var k := 0;
      while k < |entries|
        invariant 0 <= k <= |entries| && logs == StoreAll(chars, entries[..k], first)
        invariant forall id :: id in heads ==> heads[id] == MaxSeq(Stored(logs, id)) + 1
      {
        var e := entries[k];
        var next := if e.actorId in heads then heads[e.actorId] else MaxSeq(Stored(logs, e.actorId)) + 1;
        var row := CharEntry(if e.cause >= 0 then first + e.cause else 0, e.env.(sequence := next));
        logs := logs[e.actorId := Stored(logs, e.actorId) + [row]];
        heads := heads[e.actorId := next + 1];
        assert entries[..k + 1][..k] == entries[..k];
        k := k + 1;
      }
      assert entries[..k] == entries;
    }
  }

  // ----- the fan-out of a batch -----

  /** Every log is in order before each event of the batch: what the searches rely on. */
  ghost predicate FanOrdered<D>(p: Perception<D>, logs: map<Text, Log<D>>, st: Fold.State, evs: seq<Envelope>) {
    forall n :: 0 <= n < |evs| ==> OrderedAt(FanEvents(p, logs, st, evs[..n]), evs[n].sequence)
  }

  ghost predicate OrderedAt<D>(r: Option<(Fan<D>, Fold.State)>, w: int) {
    r.Some? ==> forall id :: id in r.value.0.logs ==> OrderedBefore(r.value.0.logs[id], w)
  }

  /** The same logs, their decisions apart. */
  ghost predicate SameButDecided<D>(a: map<Text, Log<D>>, b: map<Text, Log<D>>) {
    && a.Keys == b.Keys
    && forall id :: id in a ==> b[id].(decision := a[id].decision) == a[id] && (b[id].decision.Some? <==> a[id].decision.Some?)
  }

  /** The loop over the batch, on working copies. */
  method FanOutEvents<D>(p: Perception<D>, base: map<Text, CharacterLog<D>>, ghost own: set<object>,
                         st: Fold.State, head: int, envs: seq<Envelope>)
    returns (ok: bool, logs: map<Text, CharacterLog<D>>, ghost own': set<object>, entries: seq<Entry>, dropped: nat)
    requires LogsOwn(base, own) && FanOrdered(p, Logs(base, own), st, Stamp(envs, head))
    modifies Decisions(base)
    ensures own <= own' && fresh(own' - own)
    ensures var f := FanEvents(p, old(Logs(base, own)), st, Stamp(envs, head));
            && (ok <==> f.Some?)
            && (ok ==> LogsOwn(logs, own') && Fan(Logs(logs, own'), entries, dropped) == f.value.0)
  {
    hide FanIds, Fold.Step, LogsOwn, Logs, Writables, LogIds, OrderedBefore;
    ghost var was, evs := Logs(base, own), Stamp(envs, head);
    ghost var mine;
    logs, own', mine := WorkingCopies(base, own);
    entries, dropped, ok := [], 0, true;
    var world, i := st, 0;
    while ok && i < |envs|
      invariant 0 <= i <= |envs|
      invariant LogsOwn(logs, own') && Writables(logs, own', mine)
      invariant own <= own' && fresh(own' - own) && (forall o :: o in mine ==> fresh(o) || o in old(Decisions(base)))
      invariant ok ==> FanEvents(p, was, st, evs[..i]) == Some((Fan(Logs(logs, own'), entries, dropped), world))
      invariant !ok ==> i < |envs| && FanEvents(p, was, st, evs[..i + 1]).None?
      decreases |envs| - i, ok
    {
      var before := world;
      var ev := envs[i].(sequence := head + i + 1);
      assert evs[..i + 1][..i] == evs[..i] && evs[i] == ev;
      match Fold.Step(before, ev) {
        case Accepted(next) =>
          world := next;
          assert OrderedAt(FanEvents(p, was, st, evs[..i]), ev.sequence);
          LogsKeys(logs, own');
          logs, own', mine, entries, dropped := TurnsOf(p, logs, own', mine, entries, dropped, i, ev, before, world);
          i := i + 1;
        case _ => ok := false;
      }
    }
    if ok {
      assert evs[..i] == evs;
    } else {
      FanStops(p, was, st, evs, i + 1);
    }
  }

  /** fanOutLocked. Nothing the campaign holds is written but its decisions: no log
      struct, no array, no spare capacity. */
  method FanOutBatch<D>(p: Perception<D>, base: map<Text, CharacterLog<D>>, ghost own: set<object>,
                        st: Fold.State, head: int, envs: seq<Envelope>)
    returns (ok: bool, logs: map<Text, CharacterLog<D>>, ghost own': set<object>, entries: seq<Entry>, dropped: nat)
    requires LogsOwn(base, own) && FanOrdered(p, Logs(base, own), st, Stamp(envs, head))
    modifies Decisions(base)
    ensures LogsOwn(base, own) && SameButDecided(old(Logs(base, own)), Logs(base, own))
    ensures own <= own' && fresh(own' - own)
    ensures var f := FanEvents(p, old(Logs(base, own)), st, Stamp(envs, head));
            && (ok <==> f.Some?)
            && (ok ==> LogsOwn(logs, own') && Fan(Logs(logs, own'), entries, dropped) == f.value.0)
  {
    hide FanOrdered, FanEvents, Stamp, Decisions, SameButDecided;
    ghost var before := Logs(base, own);
    NotDecisions(base);
    ok, logs, own', entries, dropped := FanOutEvents(p, base, own, st, head, envs);
    // what the fan-out may write is not storage of a log it was given, but for decisions
    forall id | id in base
      ensures base[id].Ok() && base[id].Cells() <= own && base[id].Value().(decision := before[id].decision) == before[id]
      ensures base[id].Value().decision.None? <==> before[id].decision.None?
    {
      var l := base[id];
      assert unchanged(l);
      assert l.caused.Slice? ==> unchanged(l.caused.back);
      assert l.resumes.Slice? ==> unchanged(l.resumes.back);
    }
    SameSoFar(base, own, before);
  }

  lemma {:induction false} SameSoFar<D>(base: map<Text, CharacterLog<D>>, own: set<object>, before: map<Text, Log<D>>)
    requires before.Keys == base.Keys && forall id :: id in base ==> base[id] in own && base[id].Cells() <= own && base[id].Ok() && base[id].id == id
    requires forall id :: id in base ==> base[id].Value().(decision := before[id].decision) == before[id]
    requires forall id :: id in base ==> (base[id].Value().decision.None? <==> before[id].decision.None?)
    ensures LogsOwn(base, own) && SameButDecided(before, Logs(base, own))
  {
    hide CharacterLog.Ok, CharacterLog.Value, CharacterLog.Cells;
  }

  /** Neither a log's struct nor its arrays are a decision. */
  lemma {:induction false} NotDecision<D>(logs: map<Text, CharacterLog<D>>, l: CharacterLog<D>)
    ensures l !in Decisions(logs) && Backing(l.caused) !! Decisions(logs) && Backing(l.resumes) !! Decisions(logs)
  {
  }

  lemma {:induction false} NotDecisions<D>(logs: map<Text, CharacterLog<D>>)
    ensures forall id :: id in logs ==>
              logs[id] !in Decisions(logs) && Backing(logs[id].caused) !! Decisions(logs) && Backing(logs[id].resumes) !! Decisions(logs)
  {
    hide Decisions;
    forall id | id in logs
      ensures logs[id] !in Decisions(logs) && Backing(logs[id].caused) !! Decisions(logs) && Backing(logs[id].resumes) !! Decisions(logs)
    {
      NotDecision(logs, logs[id]);
    }
  }

  lemma {:induction false} FanStops<D>(p: Perception<D>, logs: map<Text, Log<D>>, st: Fold.State, evs: seq<Envelope>, n: nat)
    requires n <= |evs| && FanEvents(p, logs, st, evs[..n]).None?
    ensures FanEvents(p, logs, st, evs).None?
  {
    hide FanIds, Fold.Step, LogIds;
    if n < |evs| {
      assert evs[..|evs| - 1][..n] == evs[..n];
      FanStops(p, logs, st, evs[..|evs| - 1], n);
    } else {
      assert evs[..n] == evs;
    }
  }

  // ----- validation and the live apply -----

  /** The batch against a snapshot: each envelope's session id written, and a clone of
      it, at the sequence the store will assign, applied. `stamped` keep the sequences
      they came with. */
  method ValidateBatch(st: Fold.State, head: int, envs: seq<Envelope>, drawn: seq<Text>) returns (ok: bool, stamped: seq<Envelope>)
    requires |drawn| == |envs|
    ensures var v := Validate(st, head, envs, drawn);
            && (ok <==> v.Some?)
            && (ok ==> |stamped| == |envs| && Stamp(stamped, head) == v.value.0
                       && forall k :: 0 <= k < |envs| ==> stamped[k].sequence == envs[k].sequence)
  {
    hide Fold.Step, SessionIdFor, Validate;
    var snap, i := st, 0;
    ValidateNone(st, head);
    assert Stamp([], head) == [];
    stamped := [];
    while i < |envs|
      invariant 0 <= i <= |envs| && |stamped| == i
      invariant forall k :: 0 <= k < i ==> stamped[k].sequence == envs[k].sequence
      invariant Validate(st, head, envs[..i], drawn[..i]) == Some((Stamp(stamped, head), snap))
    {
      StampedNext(st, head, envs, drawn, i, stamped, snap);
      var env := envs[i].(sessionId := SessionIdFor(envs[i], drawn[i], snap));
      match Fold.Step(snap, env.(sequence := head + i + 1)) {
        case Accepted(next) =>
          snap, stamped, i := next, stamped + [env], i + 1;
        case _ =>
          ValidateStops(st, head, envs, drawn, i + 1);
          return false, [];
      }
    }
    assert envs[..i] == envs && drawn[..i] == drawn;
    ok := true;
  }

  /** Validation going on, its envelopes kept at the sequences they came with. */
  lemma {:induction false} StampedNext(st: Fold.State, head: int, envs: seq<Envelope>, drawn: seq<Text>, i: nat,
                                       stamped: seq<Envelope>, snap: Fold.State)
    requires |drawn| == |envs| && i < |envs| && |stamped| == i
    requires Validate(st, head, envs[..i], drawn[..i]) == Some((Stamp(stamped, head), snap))
    ensures var env := envs[i].(sessionId := SessionIdFor(envs[i], drawn[i], snap));
            Validate(st, head, envs[..i + 1], drawn[..i + 1]) ==
              match Fold.Step(snap, env.(sequence := head + i + 1))
              case Accepted(next) => Some((Stamp(stamped + [env], head), next))
              case _ => None
  {
    hide Fold.Step, SessionIdFor, Validate;
    ValidateNext(st, head, envs, drawn, i);
    var env := envs[i].(sessionId := SessionIdFor(envs[i], drawn[i], snap));
    assert Stamp(stamped + [env], head) == Stamp(stamped, head) + [env.(sequence := head + i + 1)];
  }

  lemma {:induction false} ValidateStops(st: Fold.State, head: int, envs: seq<Envelope>, drawn: seq<Text>, n: nat)
    requires |drawn| == |envs| && n <= |envs| && Validate(st, head, envs[..n], drawn[..n]).None?
    ensures Validate(st, head, envs, drawn).None?
  {
    hide Fold.Step, SessionIdFor;
    if n < |envs| {
      var m := |envs| - 1;
      assert envs[..m][..n] == envs[..n] && drawn[..m][..n] == drawn[..n];
      ValidateStops(st, head, envs[..m], drawn[..m], n);
    } else {
      assert envs[..n] == envs && drawn[..n] == drawn;
    }
  }

  /** The persisted envelopes applied in order, stopping at one that is refused. */
  method ApplyAll(st: Fold.State, evs: seq<Envelope>) returns (next: Fold.State, ok: bool)
    ensures (next, ok) == Live(st, evs)
  {
    hide Fold.Step;
    next, ok := st, true;
    var i := 0;
    while i < |evs|
      invariant 0 <= i <= |evs| && Live(st, evs[..i]) == (next, true)
    {
      assert evs[..i + 1][..i] == evs[..i];
      match Fold.Step(next, evs[i]) {
        case Accepted(after) => next := after;
        case _ =>
          LiveStops(st, evs, i + 1);
          return next, false;
      }
      i := i + 1;
    }
    assert evs[..i] == evs;
    ok := true;
  }

  lemma {:induction false} LiveStops(st: Fold.State, evs: seq<Envelope>, n: nat)
    requires n <= |evs| && !Live(st, evs[..n]).1
    ensures Live(st, evs) == Live(st, evs[..n])
  {
    hide Fold.Step;
    if n < |evs| {
      assert evs[..|evs| - 1][..n] == evs[..n];
      LiveStops(st, evs[..|evs| - 1], n);
    } else {
      assert evs[..n] == evs;
    }
  }

  // ----- the campaign -----

  /** What an append relies on of the logs: in order at every event of the batch it
      would fan out. A reachable campaign always is (CampaignIsReady). */
  ghost predicate Ready<D>(p: Perception<D>, c: Camp<D>, envs: seq<Envelope>, drawn: seq<Text>)
    requires |drawn| == |envs|
  {
    var v := Validate(c.state, c.head, envs, drawn);
    v.Some? ==> FanOrdered(p, c.logs, c.state, v.value.0)
  }

  /** One log's decision begun again. */
  method Redecide<D>(logs: map<Text, CharacterLog<D>>, ghost own: set<object>, id: Text, l: CharacterLog<D>, d: D)
    returns (ghost own': set<object>)
    requires LogsOwn(logs, own) && id in logs && logs[id] == l
    modifies l`decision
    ensures LogsOwn(logs, own') && own <= own' && fresh(own' - own)
    ensures Logs(logs, own') == old(Logs(logs, own))[id := old(Logs(logs, own))[id].(decision := Some(d))]
  {
    hide LogsOwn, Logs, Writables, CharacterLog.Ok, CharacterLog.Value, CharacterLog.Cells, CharacterLog.Writable;
    ghost var values := Logs(logs, own);
    WritablesAll(logs, own);
    EachLog(logs, own, own, id);
    Decided(id, l, Some(d));
    assert forall k :: k in logs && k != id ==> LogIs(k, logs[k], own, own, values[k]);
    own' := own + l.Cells();
    assert PutIn(logs, id, l) == logs;
    assert ValueOf(l) == Some(values[id].(decision := Some(d)));
    PutLog(logs, own, own, values, id, l);
  }

  lemma {:induction false} DecidedIs<D>(logs: map<Text, CharacterLog<D>>, own: set<object>, id: Text)
    requires LogsOwn(logs, own) && id in logs
    ensures Logs(logs, own).Keys == logs.Keys
    ensures Logs(logs, own)[id].fold == logs[id].fold && (Logs(logs, own)[id].decision.Some? <==> logs[id].decision != null)
  {
  }

  /** The logs with all but those of `todo` restarted. */
  ghost function Partly<D>(p: Perception<D>, was: map<Text, Log<D>>, st: Fold.State, todo: set<Text>): map<Text, Log<D>> {
    map id | id in was :: if id in todo then was[id] else RestartLogs(p, was, st)[id]
  }

  lemma {:induction false} PartlyEnds<D>(p: Perception<D>, was: map<Text, Log<D>>, st: Fold.State)
    ensures Partly(p, was, st, was.Keys) == was && Partly(p, was, st, {}) == RestartLogs(p, was, st)
  {
  }

  lemma {:induction false} PartlyNext<D>(p: Perception<D>, was: map<Text, Log<D>>, st: Fold.State, todo: set<Text>, id: Text)
    requires id in was && id in todo
    ensures Partly(p, was, st, todo).Keys == was.Keys && Partly(p, was, st, todo)[id] == was[id]
    ensures Partly(p, was, st, todo - {id}) ==
              if was[id].decision.Some?
              then Partly(p, was, st, todo)[id := was[id].(decision := Some(p.resume(id, was[id].fold, st)))]
              else Partly(p, was, st, todo)
  {
  }

  lemma {:induction false} WritablesAll<D>(logs: map<Text, CharacterLog<D>>, own: set<object>)
    requires LogsOwn(logs, own)
    ensures Writables(logs, own, own)
  {
  }

  class Campaign<D> {
    const log: Store
    var state: Fold.State
    var head: int
    var poisoned: bool
    var logs: map<Text, CharacterLog<D>>
    var discarded: nat

    ghost var own: set<object> // what logs refer to

    constructor (log: Store, state: Fold.State, head: int, logs: map<Text, CharacterLog<D>>, ghost own: set<object>)
      ensures this.log == log && this.state == state && this.head == head && this.logs == logs && this.own == own
      ensures !poisoned && discarded == 0
    {
      this.log, this.state, this.head, this.logs, this.own := log, state, head, logs, own;
      poisoned, discarded := false, 0;
    }

    ghost predicate Valid()
      reads this, own
    {
      LogsOwn(logs, own) && this !in own && log !in own
    }

    ghost function Value(): Camp<D>
      requires Valid()
      reads this, log, own
    {
      Camp(log.world, log.chars, state, head, Logs(logs, own), discarded, poisoned)
    }

    /** restartDecisionsLocked. */
    method RestartDecisions(p: Perception<D>)
      requires Valid()
      modifies logs.Values`decision, this`own
      ensures Valid() && own >= old(own) && fresh(own - old(own))
      ensures Value() == Restart(p, old(Value()))
    {
      hide LogsOwn, Logs, Partly, RestartLogs;
      ghost var was := Logs(logs, own);
      LogsKeys(logs, own);
      PartlyEnds(p, was, state);
      var todo := logs.Keys;
      while todo != {}
        invariant todo <= logs.Keys && LogsOwn(logs, own) && this !in own && log !in own && own >= old(own) && fresh(own - old(own))
        invariant Logs(logs, own) == Partly(p, was, state, todo)
        decreases todo
      {
        var id :| id in todo;
        DecidedIs(logs, own, id);
        PartlyNext(p, was, state, todo, id);
        if logs[id].decision != null {
          own := Redecide(logs, own, id, logs[id], p.resume(id, logs[id].fold, state));
        }
        todo := todo - {id};
      }
    }

    /** AppendBatch, and Append for a batch of one: exactly CampaignSpec.Append. When it
        fails, every log is still its own struct over its own arrays, none of them written. */
    method AppendBatch(p: Perception<D>, envs: seq<Envelope>, drawn: seq<Text>, commits: bool) returns (r: Result)
      requires Valid() && |drawn| == |envs| && Ready(p, Value(), envs, drawn)
      modifies this, log, logs.Values`decision, Decisions(logs)
      ensures Valid() && fresh(own - old(own))
      ensures (Value(), r) == CampaignSpec.Append(p, old(Value()), envs, drawn, commits)
      ensures r.Failed? && r.error != LiveDiverged ==> logs == old(logs)
    {
      hide Ready, FanOrdered, CampaignSpec.Append, Validate, Logs, LogsOwn, Landed;
      AppendCases(p, Value(), envs, drawn, commits);
      if poisoned { return Failed(IsPoisoned); }
      if envs == [] { return Failed(EmptyBatch); }
      for k := 0 to |envs|
        invariant forall j :: 0 <= j < k ==> !envs[j].payload.NoPayload?
      {
        if envs[k].payload.NoPayload? { return Failed(UnknownPayload); }
      }
      var ok, stamped := ValidateBatch(state, head, envs, drawn);
      if !ok { return Failed(EventRefused); }
      ReadyIs(p, Value(), envs, drawn);
      AppendLands(p, Value(), envs, drawn, stamped, commits);
      r := FanOutAndLand(p, stamped, commits);
    }

    method FanOutAndLand(p: Perception<D>, stamped: seq<Envelope>, commits: bool) returns (r: Result)
      requires Valid() && !poisoned && stamped != []
      requires FanOrdered(p, Logs(logs, own), state, Stamp(stamped, head))
      modifies this, log, logs.Values`decision, Decisions(logs)
      ensures Valid() && fresh(own - old(own))
      ensures (Value(), r) == Landed(p, old(Value()), stamped, commits)
      ensures r.Failed? && r.error != LiveDiverged ==> logs == old(logs)
    {
      hide FanOrdered, Logs, LogsOwn, FanEvents, StoreAll, Live, StoreTakes, RestartLogs, Decisions, SameButDecided, MaxWorldSeq, Stamp, Commit;
      ghost var c := Value();
      DecisionsOwned(logs, own);
      var ok, next, wide, entries, dropped := FanOutBatch(p, logs, own, state, head, stamped);
      assert Valid() && Value() == c.(logs := Logs(logs, own));
      RestartSame(p, c.logs, Logs(logs, own), state);
      if !ok {
        RestartDecisions(p);
        return Failed(FanOutDiverged);
      }
      ghost var fan := Fan(Logs(next, wide), entries, dropped);
      CommitSame(c, Logs(logs, own), stamped, fan);
      var stored;
      stored, r := PersistAndApply(stamped, next, wide, entries, dropped, commits);
      if !stored {
        RestartDecisions(p);
        return Failed(NotStored);
      }
    }

    /** The batch in the store, the fan-out's logs kept, and the live state moved on; a
        live apply that fails poisons the campaign. */
    method PersistAndApply(stamped: seq<Envelope>, next: map<Text, CharacterLog<D>>, ghost wide: set<object>,
                           entries: seq<Entry>, dropped: nat, commits: bool) returns (stored: bool, r: Result)
      requires Valid() && !poisoned && stamped != [] && LogsOwn(next, wide) && this !in wide && log !in wide
      modifies this, log
      ensures stored <==> commits && StoreTakes(stamped, entries)
      ensures !stored ==> Valid() && Value() == old(Value()) && logs == old(logs) && own == old(own)
      ensures stored ==> Valid() && own == wide && (Value(), r) == Commit(old(Value()), stamped, Fan(old(Logs(next, wide)), entries, dropped))
      ensures stored && r.Failed? ==> r.error == LiveDiverged
    {
      hide Logs, LogsOwn, StoreAll, Live, StoreTakes;
      var first;
      stored, first := log.AppendBatch(stamped, entries, commits);
      if !stored { return stored, Failed(NotStored); }
      head := first + |stamped| - 1;
      logs, own, discarded := next, wide, discarded + dropped;
      var live, applied := ApplyAll(state, Stamp(stamped, first - 1));
      state := live;
      r := Appended(first);
      if !applied {
        poisoned := true;
        r := Failed(LiveDiverged);
      }
    }
  }

  /** A commit takes the fan-out's logs, whatever was held. */
  lemma {:induction false} CommitSame<D>(c: Camp<D>, logs: map<Text, Log<D>>, stamped: seq<Envelope>, f: Fan<D>)
    ensures Commit(c.(logs := logs), stamped, f) == Commit(c, stamped, f)
  {
    hide Live, StoreAll;
  }

  lemma {:induction false} DecisionsOwned<D>(logs: map<Text, CharacterLog<D>>, own: set<object>)
    requires LogsOwn(logs, own)
    ensures Decisions(logs) <= own
  {
  }

  lemma {:induction false} ReadyIs<D>(p: Perception<D>, c: Camp<D>, envs: seq<Envelope>, drawn: seq<Text>)
    requires |drawn| == |envs| && Ready(p, c, envs, drawn) && Validate(c.state, c.head, envs, drawn).Some?
    ensures FanOrdered(p, c.logs, c.state, Validate(c.state, c.head, envs, drawn).value.0)
  {
  }

  /** The refusals before a fan-out. */
  lemma {:induction false} AppendCases<D>(p: Perception<D>, c: Camp<D>, envs: seq<Envelope>, drawn: seq<Text>, commits: bool)
    requires |drawn| == |envs|
    ensures var r := CampaignSpec.Append(p, c, envs, drawn, commits);
            && (c.poisoned ==> r == (c, Failed(IsPoisoned)))
            && (!c.poisoned && envs == [] ==> r == (c, Failed(EmptyBatch)))
            && (!c.poisoned && (exists k :: 0 <= k < |envs| && envs[k].payload.NoPayload?) ==> r == (c, Failed(UnknownPayload)))
            && (!c.poisoned && envs != [] && Validate(c.state, c.head, envs, drawn).None?
                ==> (exists k :: 0 <= k < |envs| && envs[k].payload.NoPayload?) || r == (c, Failed(EventRefused)))
  {
    hide Validate, FanEvents;
  }

  /** The rest of an append reads only what validation made of the batch. */
  lemma {:induction false} AppendLands<D>(p: Perception<D>, c: Camp<D>, envs: seq<Envelope>, drawn: seq<Text>,
                                          stamped: seq<Envelope>, commits: bool)
    requires |drawn| == |envs| == |stamped| > 0 && !c.poisoned
    requires forall k :: 0 <= k < |envs| ==> !envs[k].payload.NoPayload? && stamped[k].sequence == envs[k].sequence
    requires var v := Validate(c.state, c.head, envs, drawn); v.Some? && v.value.0 == Stamp(stamped, c.head)
    ensures CampaignSpec.Append(p, c, envs, drawn, commits) == Landed(p, c, stamped, commits)
  {
    hide Validate, FanEvents, Live, StoreAll, RestartLogs;
    var first := MaxWorldSeq(c.world) + 1;
    assert Stamp(Stamp(stamped, c.head), first - 1) == Stamp(stamped, first - 1);
    assert forall entries :: StoreTakes(envs, entries) <==> StoreTakes(stamped, entries);
  }

  /** Where decisions got to does not show in what they restart as. */
  lemma {:induction false} RestartSame<D>(p: Perception<D>, a: map<Text, Log<D>>, b: map<Text, Log<D>>, st: Fold.State)
    requires SameButDecided(a, b)
    ensures RestartLogs(p, a, st) == RestartLogs(p, b, st)
  {
    forall id | id in a ensures RestartLogs(p, a, st)[id] == RestartLogs(p, b, st)[id] {
      assert b[id].(decision := a[id].decision) == a[id];
    }
  }

  /** What Append does with a batch that validated. */
  function Landed<D>(p: Perception<D>, c: Camp<D>, stamped: seq<Envelope>, commits: bool): (Camp<D>, Result) {
    match FanEvents(p, c.logs, c.state, Stamp(stamped, c.head))
    case None => (Restart(p, c), Failed(FanOutDiverged))
    case Some((f, _)) =>
      if !commits || !StoreTakes(stamped, f.entries) then (Restart(p, c), Failed(NotStored))
      else Commit(c, stamped, f)
  }

  /** A campaign any run reaches is ready for any batch. */
  lemma {:induction false} CampaignIsReady<D>(p: Perception<D>, c: Camp<D>, envs: seq<Envelope>, drawn: seq<Text>)
    requires Inv(c) && |drawn| == |envs|
    ensures Ready(p, c, envs, drawn)
  {
    hide Validate, Inv, FanEvents, OrderedAt, Fold.Strict;
    ValidateFolds(c.state, c.head, envs, drawn);
    var v := Validate(c.state, c.head, envs, drawn);
    if v.Some? {
      var evs := v.value.0;
      forall n | 0 <= n < |evs| ensures OrderedAt(FanEvents(p, c.logs, c.state, evs[..n]), evs[n].sequence) {
        assert evs == evs[..n] + evs[n..];
        Fold.StrictConcat(c.state, evs[..n], evs[n..]);
        FanOrderedAfter(p, c, evs[..n]);
      }
    }
  }

  lemma {:induction false} FanOrderedAfter<D>(p: Perception<D>, c: Camp<D>, evs: seq<Envelope>)
    requires Inv(c) && SequencedFrom(evs, c.head) && Fold.Strict(c.state, evs).Some?
    ensures OrderedAt(FanEvents(p, c.logs, c.state, evs), c.head + |evs| + 1)
  {
    hide FanEvents, Fold.Strict, OrderedBefore, LogOk, Found, Inv;
    var w := |c.world + evs|;
    assert w == c.head + |evs| by { InvParts(c); }
    var r := FanEvents(p, c.logs, c.state, evs);
    if r.Some? {
      forall id | id in r.value.0.logs ensures OrderedBefore(r.value.0.logs[id], w + 1) {
        FanEventsKeep(p, c, evs, id);
        var stored := StoreLog(Stored(c.chars, id), EntriesOf(r.value.0.entries, id), c.head + 1);
        LogOkOrdered(stored, r.value.0.logs[id], w, Found(c.world + evs, id), CharacterLogs.Member(r.value.1, id));
      }
    }
  }

  lemma {:induction false} LogOkOrdered<D>(stored: seq<CharEntry>, l: Log<D>, w: int, found: seq<int>, member: bool)
    requires LogOk(stored, Some(l), w, found, member)
    ensures OrderedBefore(l, w + 1)
  {
    hide Fold.Strict, CausedOf, Leads, Refound;
    CausedTable(stored, w);
    TableSorted(l.caused, stored);
  }
}
