/** What every reachable campaign keeps: memory says exactly what the store does. */
module CampaignInvariant {
  import opened Contract
  import opened Fold
  import opened FoldInvariants
  import opened TextOrder
  import opened CharacterLogs
  import opened Anchors
  import opened LogInvariant
  import opened CampaignSpec

  predicate SequencedFrom(evs: seq<Envelope>, head: int) {
    forall k :: 0 <= k < |evs| ==> evs[k].sequence == head + k + 1
  }

  predicate LogOkAt<D>(c: Camp<D>, id: Text) {
    LogOk(Stored(c.chars, id), Find(c.logs, id), c.head, Found(c.world, id), Member(c.state, id))
  }

  ghost predicate LogsOk<D>(c: Camp<D>) { forall id: Text :: LogOkAt(c, id) }

  predicate Kept<D>(c: Camp<D>) { forall id :: id in c.chars ==> c.chars[id] != [] }

  ghost predicate Inv<D>(c: Camp<D>) {
    && !c.poisoned
    && SequencedFrom(c.world, 0) && c.head == |c.world|
    && Strict(NewState, c.world) == Some(c.state)
    && LogsOk(c) && Kept(c)
  }

  // ----- resumes found over a world log -----

  lemma {:induction false} FoundIn(world: seq<Envelope>, id: Text)
    requires SequencedFrom(world, 0)
    ensures Within(Found(world, id), |world|) && Increasing(Found(world, id))
  {
    hide MemberAt, Increasing, Within;
    if world == [] {
      NothingIncreases(0);
    } else {
      var init, ev := world[..|world| - 1], world[|world| - 1];
      assert SequencedFrom(init, 0) && ev.sequence == |world|;
      FoundIn(init, id);
      LaterIncreases(Found(init, id), |init|, ev.sequence);
    }
  }

  lemma {:induction false} NothingIncreases(w: int)
    ensures Within([], w) && Increasing([])
  {
  }

  /** A later one at the end, or not. */
  lemma {:induction false} LaterIncreases(s: seq<int>, w: int, next: int)
    requires Within(s, w) && Increasing(s) && next == w + 1 >= 1
    ensures Within(s, next) && Increasing(s) && Within(s + [next], next) && Increasing(s + [next]) && s + [] == s
  {
    assert forall i :: 0 <= i < |s| ==> s[i] in s;
  }

  /** Finding resumes event by event. */
  lemma {:induction false} FoundStep(world: seq<Envelope>, ev: Envelope, id: Text, before: State, after: State)
    requires Strict(NewState, world) == Some(before) && Strict(NewState, world + [ev]) == Some(after)
    ensures Found(world + [ev], id) == FoundNext(Found(world, id), Member(before, id), Member(after, id), ev.sequence)
  {
    hide Strict, Replay;
    assert (world + [ev])[..|world|] == world;
    StrictReplays(world);
    StrictReplays(world + [ev]);
  }

  // ----- the entries of one actor -----

  function EntriesOf(entries: seq<Entry>, id: Text): seq<Entry> {
    if entries == [] then []
    else
      var init, last := EntriesOf(entries[..|entries| - 1], id), entries[|entries| - 1];
      if last.actorId == id then init + [last] else init
  }

  lemma {:induction false} EntriesOfConcat(a: seq<Entry>, b: seq<Entry>, id: Text)
    ensures EntriesOf(a + b, id) == EntriesOf(a, id) + EntriesOf(b, id)
  {
    if b == [] {
      assert a + b == a;
    } else {
      EntriesOfConcat(a, b[..|b| - 1], id);
      assert (a + b)[..|a + b| - 1] == a + b[..|b| - 1];
    }
  }

  lemma {:induction false} EntriesOfOne(entries: seq<Entry>, owner: Text, id: Text)
    requires forall k :: 0 <= k < |entries| ==> entries[k].actorId == owner
    ensures EntriesOf(entries, id) == if id == owner then entries else []
  {
    if entries != [] {
      EntriesOfOne(entries[..|entries| - 1], owner, id);
    }
  }

  lemma {:induction false} StoreLogLast(stored: seq<CharEntry>, entries: seq<Entry>, e: Entry, first: int)
    ensures StoreLog(stored, entries + [e], first) ==
              var log := StoreLog(stored, entries, first);
              log + [CharEntry(if e.cause >= 0 then first + e.cause else 0, e.env.(sequence := MaxSeq(log) + 1))]
  {
    assert (entries + [e])[..|entries|] == entries;
  }

  /** What a transaction stores of one actor is its own entries', and touches no other's. */
  lemma {:induction false} StoreAllAt(chars: map<Text, seq<CharEntry>>, entries: seq<Entry>, first: int, id: Text)
    ensures Stored(StoreAll(chars, entries, first), id) == StoreLog(Stored(chars, id), EntriesOf(entries, id), first)
    ensures id in StoreAll(chars, entries, first) <==> id in chars || EntriesOf(entries, id) != []
  {
    hide MaxSeq, StoreLog;
    if entries != [] {
      var init, last := entries[..|entries| - 1], entries[|entries| - 1];
      StoreAllAt(chars, init, first, id);
      if last.actorId == id {
        StoreLogLast(Stored(chars, id), EntriesOf(init, id), last, first);
      }
    } else {
      StoreLogNone(Stored(chars, id), first);
    }
  }

  lemma {:induction false} StoreLogNone(stored: seq<CharEntry>, first: int)
    ensures StoreLog(stored, [], first) == stored
  {
  }

  // ----- the fan-out, actor by actor -----

  lemma {:induction false} TurnEntries<D>(p: Perception<D>, id: Text, ol: Option<Log<D>>, i: nat, ev: Envelope, before: State, world: State)
    ensures forall k :: 0 <= k < |TakeTurn(p, id, ol, i, ev, before, world).entries| ==>
              var e := TakeTurn(p, id, ol, i, ev, before, world).entries[k];
              e.actorId == id && e.env.sequence == 0 && -1 <= e.cause <= i
  {
    hide Trial, Roused, ReanchorAll;
  }

  lemma {:induction false} FanOneAt<D>(p: Perception<D>, f: Fan<D>, owner: Text, i: nat, ev: Envelope, before: State, world: State, id: Text)
    ensures var r := FanOne(p, f, owner, i, ev, before, world);
            var t := TakeTurn(p, owner, Find(f.logs, owner), i, ev, before, world);
            && Find(r.logs, id) == (if id == owner then t.log else Find(f.logs, id))
            && EntriesOf(r.entries, id) == EntriesOf(f.entries, id) + (if id == owner then t.entries else [])
  {
    hide TakeTurn, EntriesOf;
    var t := TakeTurn(p, owner, Find(f.logs, owner), i, ev, before, world);
    TurnEntries(p, owner, Find(f.logs, owner), i, ev, before, world);
    EntriesOfConcat(f.entries, t.entries, id);
    EntriesOfOne(t.entries, owner, id);
  }

  /** A fan-out gives each actor its own turn and nobody another's. */
  lemma {:induction false} FanIdsAt<D>(p: Perception<D>, f: Fan<D>, ids: seq<Text>, i: nat, ev: Envelope, before: State, world: State, id: Text)
    requires Distinct(ids)
    ensures var r := FanIds(p, f, ids, i, ev, before, world);
            var t := TakeTurn(p, id, Find(f.logs, id), i, ev, before, world);
            && Find(r.logs, id) == (if id in ids then t.log else Find(f.logs, id))
            && EntriesOf(r.entries, id) == EntriesOf(f.entries, id) + (if id in ids then t.entries else [])
  {
    hide TakeTurn, FanOne, EntriesOf, Find;
    if ids != [] {
      var init, last := ids[..|ids| - 1], ids[|ids| - 1];
      assert forall k :: 0 <= k < |init| ==> init[k] == ids[k] && ids[k] != last;
      assert ids == init + [last];
      FanIdsAt(p, f, init, i, ev, before, world, id);
      FanOneAt(p, FanIds(p, f, init, i, ev, before, world), last, i, ev, before, world, id);
    }
  }

  function Total(counts: seq<nat>): nat { if counts == [] then 0 else Total(counts[..|counts| - 1]) + counts[|counts| - 1] }

  /** What each actor's turn dropped, in the order of the turns. */
  function Drops<D>(p: Perception<D>, f: Fan<D>, ids: seq<Text>, i: nat, ev: Envelope, before: State, world: State): (r: seq<nat>)
    ensures |r| == |ids|
    ensures forall k :: 0 <= k < |r| ==> r[k] == TakeTurn(p, ids[k], Find(f.logs, ids[k]), i, ev, before, world).dropped
  {
    seq(|ids|, k requires 0 <= k < |ids| => TakeTurn(p, ids[k], Find(f.logs, ids[k]), i, ev, before, world).dropped)
  }

  /** A fan-out counts every turn that dropped frames, once. */
  lemma {:induction false} FanIdsDrop<D>(p: Perception<D>, f: Fan<D>, ids: seq<Text>, i: nat, ev: Envelope, before: State, world: State)
    requires Distinct(ids)
    ensures FanIds(p, f, ids, i, ev, before, world).dropped == f.dropped + Total(Drops(p, f, ids, i, ev, before, world))
  {
    hide TakeTurn, EntriesOf, Find;
    if ids != [] {
      var init, last := ids[..|ids| - 1], ids[|ids| - 1];
      assert forall k :: 0 <= k < |init| ==> init[k] == ids[k] && ids[k] != last;
      FanIdsDrop(p, f, init, i, ev, before, world);
      FanIdsAt(p, f, init, i, ev, before, world, last);
      assert Drops(p, f, ids, i, ev, before, world)[..|init|] == Drops(p, f, init, i, ev, before, world);
    }
  }

  /** One actor's log as a fan-out has it so far, beside the rows its entries will store. */
  predicate FanOkAt<D>(chars: map<Text, seq<CharEntry>>, f: Fan<D>, first: int, world: seq<Envelope>, st: State, id: Text) {
    LogOk(StoreLog(Stored(chars, id), EntriesOf(f.entries, id), first), Find(f.logs, id), |world|, Found(world, id), Member(st, id))
  }

  lemma {:induction false} SequencedInit(world: seq<Envelope>, ev: Envelope)
    requires SequencedFrom(world + [ev], 0)
    ensures SequencedFrom(world, 0) && Positive(world) && ev.sequence == |world| + 1
  {
    assert forall k :: 0 <= k < |world| ==> world[k] == (world + [ev])[k];
    assert ev == (world + [ev])[|world|];
  }

  lemma {:induction false} EmptyGood()
    ensures Good(NewState)
  {
  }

  lemma {:induction false} FanOneEvent<D>(p: Perception<D>, chars: map<Text, seq<CharEntry>>, f: Fan<D>, first: int, i: nat,
                                          world: seq<Envelope>, ev: Envelope, before: State, after: State, id: Text)
    requires Strict(NewState, world) == Some(before) && Strict(NewState, world + [ev]) == Some(after)
    requires SequencedFrom(world + [ev], 0) && first + i == |world| + 1
    requires FanOkAt(chars, f, first, world, before, id)
    ensures FanOkAt(chars, FanIds(p, f, LogIds(f.logs, after), i, ev, before, after), first, world + [ev], after, id)
  {
    hide Strict, LogOk, TakeTurn, FanIds, Good, Found, FoundNext, EntriesOf, StoreLog, Stored, Find, Within, Increasing;
    SequencedInit(world, ev);
    StrictGood(NewState, world) by { EmptyGood(); }
    FoundIn(world, id);
    FoundStep(world, ev, id, before, after);
    var ids := LogIds(f.logs, after);
    FanIdsAt(p, f, ids, i, ev, before, after, id);
    var stored := StoreLog(Stored(chars, id), EntriesOf(f.entries, id), first);
    var t := TakeTurn(p, id, Find(f.logs, id), i, ev, before, after);
    TurnKeeps(p, id, Find(f.logs, id), i, ev, before, after, stored, |world|, Found(world, id), first);
    if id in ids {
      StoreLogConcat(Stored(chars, id), EntriesOf(f.entries, id), t.entries, first);
    } else {
      Untouched(p, id, f.logs, i, ev, before, after);
      StoreLogNone(stored, first);
      assert EntriesOf(f.entries, id) + [] == EntriesOf(f.entries, id);
    }
  }

  /** An actor with no log that is no party member has an empty turn. */
  lemma {:induction false} Untouched<D>(p: Perception<D>, id: Text, logs: map<Text, Log<D>>, i: nat, ev: Envelope, before: State, world: State)
    requires id !in LogIds(logs, world)
    ensures TakeTurn(p, id, Find(logs, id), i, ev, before, world) == Turn(Find(logs, id), [], 0)
  {
    assert id !in logs && !Member(world, id);
  }

  /** A fan-out of events that fold keeps every actor's log. */
  lemma {:induction false} FanEventsKeep<D>(p: Perception<D>, c: Camp<D>, evs: seq<Envelope>, id: Text)
    requires Inv(c) && SequencedFrom(evs, c.head) && Strict(c.state, evs).Some?
    ensures var r := FanEvents(p, c.logs, c.state, evs);
            && r.Some? && Some(r.value.1) == Strict(c.state, evs)
            && FanOkAt(c.chars, r.value.0, c.head + 1, c.world + evs, r.value.1, id)
  {
    hide FanOkAt, FanIds, Step, LogOk;
    if evs == [] {
      assert c.world + evs == c.world;
      assert LogOkAt(c, id);
      assert FanOkAt(c.chars, Fan(c.logs, [], 0), c.head + 1, c.world, c.state, id) by { FanStarts(c, id); }
    } else {
      var n := |evs| - 1;
      var init, ev := evs[..n], evs[n];
      assert SequencedFrom(init, c.head) by { assert forall k :: 0 <= k < n ==> init[k] == evs[k]; }
      FanEventsKeep(p, c, init, id);
      var f, before := FanEvents(p, c.logs, c.state, init).value.0, Strict(c.state, init).value;
      var after := Strict(c.state, evs).value;
      StrictConcat(NewState, c.world, init);
      StrictConcat(NewState, c.world, evs);
      var world := c.world + init;
      assert world + [ev] == c.world + evs;
      assert SequencedFrom(world + [ev], 0);
      FanOneEvent(p, c.chars, f, c.head + 1, n, world, ev, before, after, id);
    }
  }

  lemma {:induction false} FanStarts<D>(c: Camp<D>, id: Text)
    requires LogOkAt(c, id) && c.head == |c.world|
    ensures FanOkAt(c.chars, Fan(c.logs, [], 0), c.head + 1, c.world, c.state, id)
  {
  }

  // ----- validation, the fan-out and the live apply fold the same -----

  /** Validation event by event. */
  lemma {:induction false} ValidateNone(st: State, head: int)
    ensures Validate(st, head, [], []) == Some(([], st))
  {
  }

  lemma {:induction false} ValidateNext(st: State, head: int, envs: seq<Envelope>, drawn: seq<Text>, n: nat)
    requires |drawn| == |envs| && n < |envs|
    ensures Validate(st, head, envs[..n + 1], drawn[..n + 1]) ==
              match Validate(st, head, envs[..n], drawn[..n])
              case None => None
              case Some((done, snap)) =>
                var env := envs[n].(sessionId := SessionIdFor(envs[n], drawn[n], snap), sequence := head + n + 1);
                match Step(snap, env)
                case Accepted(next) => Some((done + [env], next))
                case _ => None
  {
    hide Step, SessionIdFor;
    assert envs[..n + 1][..n] == envs[..n] && drawn[..n + 1][..n] == drawn[..n];
  }

  lemma {:induction false} ValidateFolds(st: State, head: int, envs: seq<Envelope>, drawn: seq<Text>)
    requires |drawn| == |envs|
    ensures var v := Validate(st, head, envs, drawn);
            v.Some? ==> SequencedFrom(v.value.0, head) && Strict(st, v.value.0) == Some(v.value.1)
  {
    if envs != [] && Validate(st, head, envs, drawn).Some? {
      hide Step;
      var n := |envs| - 1;
      ValidateFolds(st, head, envs[..n], drawn[..n]);
      var done := Validate(st, head, envs[..n], drawn[..n]).value.0;
      var all := Validate(st, head, envs, drawn).value.0;
      assert all[..n] == done;
    }
  }

  lemma {:induction false} LiveIsStrict(st: State, evs: seq<Envelope>)
    requires Strict(st, evs).Some?
    ensures Live(st, evs) == (Strict(st, evs).value, true)
  {
    if evs != [] {
      hide Step;
      LiveIsStrict(st, evs[..|evs| - 1]);
    }
  }

  lemma {:induction false} StampSame(evs: seq<Envelope>, head: int)
    requires SequencedFrom(evs, head)
    ensures Stamp(evs, head) == evs
  {
  }

  // ----- the append -----

  lemma {:induction false} RestartKeeps<D>(p: Perception<D>, c: Camp<D>)
    requires Inv(c)
    ensures Inv(Restart(p, c))
  {
    hide Strict, Replay, Leads, Rising, Numbered, CausedOf, Refound;
    var r := Restart(p, c);
    forall id: Text ensures LogOkAt(r, id) {
      assert LogOkAt(c, id);
    }
  }

  /** A batch that validated commits: nothing diverges, and the store and memory still agree. */
  lemma {:induction false} CommitKeeps<D>(p: Perception<D>, c: Camp<D>, stamped: seq<Envelope>)
    requires Inv(c) && stamped != [] && SequencedFrom(stamped, c.head) && Strict(c.state, stamped).Some?
    ensures var fan := FanEvents(p, c.logs, c.state, stamped);
            && fan.Some?
            && var r := Commit(c, stamped, fan.value.0);
               r.1 == Appended(c.head + 1) && Inv(r.0)
               && r.0.world == c.world + stamped && Some(r.0.state) == Strict(c.state, stamped)
  {
    hide Strict, FanEvents, LogOk, Found, FanOkAt, StoreAll;
    FanEventsKeep(p, c, stamped, []);
    var f, st := FanEvents(p, c.logs, c.state, stamped).value.0, Strict(c.state, stamped).value;
    assert MaxWorldSeq(c.world) == c.head;
    StampSame(stamped, c.head);
    LiveIsStrict(c.state, stamped);
    StrictConcat(NewState, c.world, stamped);
    var r := Commit(c, stamped, f).0;
    assert r.world == c.world + stamped && r.state == st && r.head == |r.world| && r.logs == f.logs;
    forall id: Text ensures LogOkAt(r, id) {
      FanEventsKeep(p, c, stamped, id);
      FanLands(c, f, stamped, st, r, id);
    }
    forall id | id in r.chars ensures r.chars[id] != [] {
      StoreAllAt(c.chars, f.entries, c.head + 1, id);
      StoreLogGrows(Stored(c.chars, id), EntriesOf(f.entries, id), c.head + 1);
    }
  }

  lemma {:induction false} FanLands<D>(c: Camp<D>, f: Fan<D>, stamped: seq<Envelope>, st: State, r: Camp<D>, id: Text)
    requires FanOkAt(c.chars, f, c.head + 1, c.world + stamped, st, id)
    requires r.chars == StoreAll(c.chars, f.entries, c.head + 1) && r.logs == f.logs && r.state == st
    requires r.world == c.world + stamped && r.head == |r.world|
    ensures LogOkAt(r, id)
  {
    hide LogOk, Found;
    StoreAllAt(c.chars, f.entries, c.head + 1, id);
  }

  lemma {:induction false} StoreLogGrows(stored: seq<CharEntry>, entries: seq<Entry>, first: int)
    ensures |StoreLog(stored, entries, first)| == |stored| + |entries|
  {
    if entries != [] {
      StoreLogGrows(stored, entries[..|entries| - 1], first);
    }
  }

  /** Every append keeps the invariant, and neither the fan-out nor the live apply
      ever diverges from validation: the campaign is never poisoned. A refusal
      changes nothing but decisions; success appends the whole batch. */
  lemma {:induction false} AppendKeeps<D>(p: Perception<D>, c: Camp<D>, envs: seq<Envelope>, drawn: seq<Text>, lands: bool)
    requires Inv(c) && |drawn| == |envs|
    ensures var r := Append(p, c, envs, drawn, lands);
            && Inv(r.0)
            && r.1 != Failed(FanOutDiverged) && r.1 != Failed(LiveDiverged) && r.1 != Failed(IsPoisoned)
            && (r.1.Failed? ==> r.0 == c || r.0 == Restart(p, c))
            && (r.1.Appended? ==>
                  && r.1.first == c.head + 1 && r.0.head == c.head + |envs|
                  && Validate(c.state, c.head, envs, drawn).Some?
                  && r.0.world == c.world + Validate(c.state, c.head, envs, drawn).value.0)
  {
    hide Inv, Commit, FanEvents, Restart;
    ValidateFolds(c.state, c.head, envs, drawn);
    var v := Validate(c.state, c.head, envs, drawn);
    RestartKeeps(p, c);
    assert !c.poisoned by { InvParts(c); }
    if envs != [] && v.Some? {
      CommitKeeps(p, c, v.value.0);
      var r := Commit(c, v.value.0, FanEvents(p, c.logs, c.state, v.value.0).value.0).0;
      InvParts(c);
      InvParts(r);
    }
  }

  lemma {:induction false} InvParts<D>(c: Camp<D>)
    requires Inv(c)
    ensures !c.poisoned && c.head == |c.world|
  {
  }
}
