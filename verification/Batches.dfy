/** Appending a batch and appending its envelopes one by one come to the same,
    with the same drawn session ids and a deterministic perception. */
module Batches {
  import opened Contract
  import opened Fold
  import opened FoldInvariants
  import opened CharacterLogs
  import opened LogInvariant
  import opened CampaignSpec
  import opened CampaignInvariant
  import opened CampaignTheorems

  /** The envelopes appended one by one, every append landing; None when one fails. */
  function AppendEach<D>(p: Perception<D>, c: Camp<D>, envs: seq<Envelope>, drawn: seq<Text>): Option<Camp<D>>
    requires |drawn| == |envs|
  {
    if envs == [] then Some(c)
    else
      var n := |envs| - 1;
      match AppendEach(p, c, envs[..n], drawn[..n])
      case None => None
      case Some(mid) =>
        var (next, r) := Append(p, mid, [envs[n]], [drawn[n]], true);
        if r.Appended? then Some(next) else None
  }

  /** The same entries, caused by events n later in their batch. */
  function Shift(entries: seq<Entry>, n: nat): (r: seq<Entry>)
    ensures |r| == |entries|
    ensures forall k :: 0 <= k < |r| ==>
              r[k] == (if entries[k].cause >= 0 then entries[k].(cause := entries[k].cause + n) else entries[k])
  {
    seq(|entries|, k requires 0 <= k < |entries| =>
      if entries[k].cause >= 0 then entries[k].(cause := entries[k].cause + n) else entries[k])
  }

  lemma {:induction false} TurnShift<D>(p: Perception<D>, id: Text, ol: Option<Log<D>>, n: nat, ev: Envelope, before: State, world: State)
    ensures var t0, t := TakeTurn(p, id, ol, 0, ev, before, world), TakeTurn(p, id, ol, n, ev, before, world);
            t.log == t0.log && t.dropped == t0.dropped && t.entries == Shift(t0.entries, n)
  {
    hide Roused, Trial, ReanchorAll;
    var t0, t := TakeTurn(p, id, ol, 0, ev, before, world), TakeTurn(p, id, ol, n, ev, before, world);
    assert |t.entries| == |t0.entries|;
    assert forall k :: 0 <= k < |t.entries| ==> t.entries[k] == Shift(t0.entries, n)[k];
  }

  lemma {:induction false} ShiftConcat(front: seq<Entry>, a: seq<Entry>, b: seq<Entry>, n: nat)
    ensures (front + Shift(a, n)) + Shift(b, n) == front + Shift(a + b, n)
    ensures a == [] ==> front + Shift(a, n) == front
  {
    assert Shift(a + b, n) == Shift(a, n) + Shift(b, n);
  }

  /** A fan-out carried on at event n is one begun afresh there. */
  lemma {:induction false} FanShift<D>(p: Perception<D>, f: Fan<D>, ids: seq<Text>, n: nat, ev: Envelope, before: State, world: State)
    ensures var r0, r := FanIds(p, Fan(f.logs, [], 0), ids, 0, ev, before, world), FanIds(p, f, ids, n, ev, before, world);
            r.logs == r0.logs && r.dropped == f.dropped + r0.dropped && r.entries == f.entries + Shift(r0.entries, n)
  {
    hide TakeTurn, Put, Find, Shift;
    if ids != [] {
      var init, last := ids[..|ids| - 1], ids[|ids| - 1];
      FanShift(p, f, init, n, ev, before, world);
      var r0 := FanIds(p, Fan(f.logs, [], 0), init, 0, ev, before, world);
      TurnShift(p, last, Find(r0.logs, last), n, ev, before, world);
      var t0 := TakeTurn(p, last, Find(r0.logs, last), 0, ev, before, world);
      ShiftConcat(f.entries, r0.entries, t0.entries, n);
    } else {
      ShiftConcat(f.entries, [], [], n);
    }
  }

  lemma {:induction false} StoreAllConcat(chars: map<Text, seq<CharEntry>>, a: seq<Entry>, b: seq<Entry>, first: int)
    ensures StoreAll(chars, a + b, first) == StoreAll(StoreAll(chars, a, first), b, first)
  {
    hide StoreOne;
    if b == [] {
      assert a + b == a;
    } else {
      StoreAllConcat(chars, a, b[..|b| - 1], first);
      assert (a + b)[..|a + b| - 1] == a + b[..|b| - 1];
    }
  }

  lemma {:induction false} StoreShift(chars: map<Text, seq<CharEntry>>, entries: seq<Entry>, n: nat, first: int)
    ensures StoreAll(chars, Shift(entries, n), first) == StoreAll(chars, entries, first + n)
  {
    if entries != [] {
      var init := entries[..|entries| - 1];
      StoreShift(chars, init, n, first);
      var s := Shift(entries, n);
      assert s[..|s| - 1] == Shift(init, n);
      assert StoreOne(StoreAll(chars, Shift(init, n), first), s[|s| - 1], first)
          == StoreOne(StoreAll(chars, init, first + n), entries[|init|], first + n);
    }
  }

  /** What a landed batch comes to: its world, its fold and its fan-out. */
  lemma {:induction false} AppendIs<D>(p: Perception<D>, c: Camp<D>, envs: seq<Envelope>, drawn: seq<Text>)
    requires Inv(c) && |drawn| == |envs| && Append(p, c, envs, drawn, true).1.Appended?
    ensures var v := Validate(c.state, c.head, envs, drawn);
            && v.Some? && envs != [] && |v.value.0| == |envs|
            && var fan := FanEvents(p, c.logs, c.state, v.value.0);
               && fan.Some? && fan.value.1 == v.value.1
               && Append(p, c, envs, drawn, true).0 ==
                    Camp(c.world + v.value.0, StoreAll(c.chars, fan.value.0.entries, c.head + 1), v.value.1,
                         c.head + |envs|, fan.value.0.logs, c.discarded + fan.value.0.dropped, false)
  {
    hide Strict, FanEvents, Inv, Validate, Commit, SequencedFrom, StoreAll, StoreTakes, RestartLogs, FanOkAt;
    ValidateFolds(c.state, c.head, envs, drawn);
    InvParts(c);
    var v := Validate(c.state, c.head, envs, drawn);
    if v.Some? {
      FanEventsKeep(p, c, v.value.0, []);
      CommitIs(p, c, v.value.0);
    }
  }

  /** What committing a batch that folds comes to. */
  lemma {:induction false} CommitIs<D>(p: Perception<D>, c: Camp<D>, stamped: seq<Envelope>)
    requires Inv(c) && SequencedFrom(stamped, c.head) && Strict(c.state, stamped).Some?
    ensures FanEvents(p, c.logs, c.state, stamped).Some?
    ensures var f := FanEvents(p, c.logs, c.state, stamped).value.0;
            Commit(c, stamped, f) ==
              (Camp(c.world + stamped, StoreAll(c.chars, f.entries, c.head + 1), Strict(c.state, stamped).value,
                    c.head + |stamped|, f.logs, c.discarded + f.dropped, false), Appended(c.head + 1))
  {
    hide Strict, FanEvents, LogsOk, Kept, StoreAll, FanOkAt, Live;
    FanEventsKeep(p, c, stamped, []);
    assert MaxWorldSeq(c.world) == c.head;
    StampSame(stamped, c.head);
    LiveIsStrict(c.state, stamped);
  }

  /** A batch and its last envelope apart: accepted together exactly when both are
      accepted in turn, and to the same campaign. */
  lemma {:induction false} AppendSplits<D>(p: Perception<D>, c: Camp<D>, envs: seq<Envelope>, drawn: seq<Text>)
    requires Inv(c) && |drawn| == |envs| >= 2
    ensures var n := |envs| - 1;
            var (mid, r) := Append(p, c, envs[..n], drawn[..n], true);
            var (end, s) := Append(p, mid, [envs[n]], [drawn[n]], true);
            var (whole, t) := Append(p, c, envs, drawn, true);
            && (t.Appended? <==> r.Appended? && s.Appended?)
            && (t.Appended? ==> whole == end)
  {
    hide Inv, FanIds, Step, Append, StoreAll, LogIds;
    var n := |envs| - 1;
    var init, d := envs[..n], drawn[..n];
    var mid := Append(p, c, init, d, true).0;
    AppendFailsWhen(p, c, envs, drawn, true);
    AppendFailsWhen(p, c, init, d, true);
    AppendKeeps(p, c, init, d, true);
    if Append(p, c, init, d, true).1.Appended? {
      AppendIs(p, c, init, d);
      AppendFailsWhen(p, mid, [envs[n]], [drawn[n]], true);
      ValidateOne(mid.state, mid.head, envs[n], drawn[n]);
      assert forall e :: e in envs <==> e in init || e == envs[n] by { assert envs == init + [envs[n]]; }
      if Append(p, c, envs, drawn, true).1.Appended? {
        AppendIs(p, c, envs, drawn);
        AppendIs(p, mid, [envs[n]], [drawn[n]]);
        SplitSame(p, c, envs, drawn, mid);
      }
    } else {
      assert forall e :: e in init ==> e in envs;
    }
  }

  lemma {:induction false} ValidateOne(st: State, head: int, env: Envelope, drawn: Text)
    ensures Validate(st, head, [env], [drawn]) ==
              var stamped := env.(sessionId := SessionIdFor(env, drawn, st), sequence := head + 1);
              match Step(st, stamped)
              case Accepted(next) => Some(([stamped], next))
              case _ => None
  {
    hide Step;
    assert [env][..0] == [] && [drawn][..0] == [];
    assert Validate(st, head, [], []) == Some(([], st));
    assert forall e: Envelope :: [] + [e] == [e];
  }

  lemma {:induction false} FanOneEventIs<D>(p: Perception<D>, logs: map<Text, Log<D>>, st: State, ev: Envelope)
    ensures FanEvents(p, logs, st, [ev]) ==
              match Step(st, ev)
              case Accepted(world) => Some((FanIds(p, Fan(logs, [], 0), LogIds(logs, world), 0, ev, st, world), world))
              case _ => None
  {
    hide Step, FanIds, LogIds;
    assert [ev][..0] == [];
    assert FanEvents(p, logs, st, []) == Some((Fan(logs, [], 0), st));
  }

  lemma {:induction false} SplitSame<D>(p: Perception<D>, c: Camp<D>, envs: seq<Envelope>, drawn: seq<Text>, mid: Camp<D>)
    requires |drawn| == |envs| >= 2
    requires var v := Validate(c.state, c.head, envs, drawn);
             v.Some? && FanEvents(p, c.logs, c.state, v.value.0).Some?
    requires var n := |envs| - 1; var v := Validate(c.state, c.head, envs[..n], drawn[..n]);
             && v.Some?
             && var fan := FanEvents(p, c.logs, c.state, v.value.0);
                && fan.Some? && fan.value.1 == v.value.1
                && mid == Camp(c.world + v.value.0, StoreAll(c.chars, fan.value.0.entries, c.head + 1), v.value.1,
                               c.head + n, fan.value.0.logs, c.discarded + fan.value.0.dropped, false)
    ensures var n := |envs| - 1;
            var v, w := Validate(c.state, c.head, envs, drawn).value, Validate(mid.state, mid.head, [envs[n]], [drawn[n]]);
            && w.Some? && c.world + v.0 == mid.world + w.value.0 && v.1 == w.value.1
            && var f, g := FanEvents(p, c.logs, c.state, v.0).value.0, FanEvents(p, mid.logs, mid.state, w.value.0);
               && g.Some? && f.logs == g.value.0.logs && c.discarded + f.dropped == mid.discarded + g.value.0.dropped
               && StoreAll(c.chars, f.entries, c.head + 1) == StoreAll(mid.chars, g.value.0.entries, mid.head + 1)
  {
    hide FanIds, Step, StoreAll, LogIds;
    var n := |envs| - 1;
    var v, u := Validate(c.state, c.head, envs, drawn).value, Validate(c.state, c.head, envs[..n], drawn[..n]).value;
    ValidateOne(mid.state, mid.head, envs[n], drawn[n]);
    var ev := v.0[n];
    assert v.0 == u.0 + [ev] && v.0[..n] == u.0;
    assert (c.world + u.0) + [ev] == c.world + v.0;
    FanOneEventIs(p, mid.logs, mid.state, ev);
    var f0 := FanEvents(p, c.logs, c.state, u.0).value.0;
    var ids := LogIds(f0.logs, v.1);
    FanShift(p, f0, ids, n, ev, u.1, v.1);
    var g := FanIds(p, Fan(f0.logs, [], 0), ids, 0, ev, u.1, v.1);
    StoreAllConcat(c.chars, f0.entries, Shift(g.entries, n), c.head + 1);
    StoreShift(mid.chars, g.entries, n, c.head + 1);
  }

  lemma {:induction false} OneIsEach<D>(p: Perception<D>, c: Camp<D>, env: Envelope, drawn: Text)
    ensures var (r, s) := Append(p, c, [env], [drawn], true);
            AppendEach(p, c, [env], [drawn]) == if s.Appended? then Some(r) else None
  {
    hide Append;
    assert [env][..0] == [] && [drawn][..0] == [];
    assert AppendEach(p, c, [], []) == Some(c);
  }

  /** A batch is accepted exactly when its envelopes are accepted one by one, and
      then to the same world log, state, head, character logs, caused tables,
      resumes, decisions and count of dropped frames. */
  lemma {:induction false} BatchIsEach<D>(p: Perception<D>, c: Camp<D>, envs: seq<Envelope>, drawn: seq<Text>)
    requires Inv(c) && |drawn| == |envs| > 0
    ensures AppendEach(p, c, envs, drawn).Some? <==> Append(p, c, envs, drawn, true).1.Appended?
    ensures AppendEach(p, c, envs, drawn).Some? ==>
              AppendEach(p, c, envs, drawn).value == Append(p, c, envs, drawn, true).0
  {
    hide Inv, Append;
    if |envs| == 1 {
      assert envs == [envs[0]] && drawn == [drawn[0]];
      OneIsEach(p, c, envs[0], drawn[0]);
    } else {
      var n := |envs| - 1;
      BatchIsEach(p, c, envs[..n], drawn[..n]);
      AppendSplits(p, c, envs, drawn);
    }
  }
}
