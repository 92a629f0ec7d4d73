/** What an append writes of each envelope it is handed, and what it answers, said of
    the world log: the session id is the log's own, whatever the caller set. */
module Stamps {
  import opened Contract
  import opened Fold
  import opened FoldInvariants
  import opened LastWordActors
  import opened CharacterLogs
  import opened CampaignSpec
  import opened CampaignInvariant
  import CampaignTheorems

  /** The session a log is in the middle of, or none. */
  function SessionNow(evs: seq<Envelope>): Text {
    var s := LastSession(evs);
    if s.Some? then s.value.id else []
  }

  /** One envelope where a world log continues: the drawn id on a session's start, else
      the id of the session the log before it is in. */
  function StampedAt(world: seq<Envelope>, env: Envelope, drawn: Text): Envelope {
    env.(sequence := |world| + 1, sessionId := if env.payload.SessionStarted? then drawn else SessionNow(world))
  }

  /** A batch as a world log continues with it. */
  predicate Continues(world: seq<Envelope>, evs: seq<Envelope>, envs: seq<Envelope>, drawn: seq<Text>) {
    |evs| == |envs| == |drawn| && forall k :: 0 <= k < |evs| ==> evs[k] == StampedAt(world + evs[..k], envs[k], drawn[k])
  }

  /** Every batch continues every log in one way. */
  lemma {:induction false} ContinuesOnce(world: seq<Envelope>, envs: seq<Envelope>, drawn: seq<Text>) returns (evs: seq<Envelope>)
    requires |drawn| == |envs|
    ensures Continues(world, evs, envs, drawn)
    ensures forall other :: Continues(world, other, envs, drawn) ==> other == evs
  {
    hide StampedAt;
    if envs == [] {
      evs := [];
    } else {
      var n := |envs| - 1;
      var init := ContinuesOnce(world, envs[..n], drawn[..n]);
      evs := init + [StampedAt(world + init, envs[n], drawn[n])];
      assert forall k :: 0 <= k <= n ==> evs[..k] == init[..k];
      forall other | Continues(world, other, envs, drawn) ensures other == evs {
        assert forall k :: 0 <= k < n ==> other[..n][..k] == other[..k];
        assert Continues(world, other[..n], envs[..n], drawn[..n]);
        assert other == other[..n] + [other[n]];
      }
    }
  }

  lemma {:induction false} IdIsSessionNow(world: seq<Envelope>, env: Envelope, drawn: Text)
    requires SequencedFrom(world, 0) && Strict(NewState, world).Some?
    ensures env.(sessionId := SessionIdFor(env, drawn, Strict(NewState, world).value), sequence := |world| + 1)
         == StampedAt(world, env, drawn)
  {
    hide Strict, Replay, OpenSession, LastSession;
    StrictReplays(world);
    SessionIsLastWord(world);
  }

  /** Validation stamps the first n envelopes as the log continues with them, and accepts
      them exactly when the log with them folds. */
  lemma {:induction false} ValidateStamps(world: seq<Envelope>, st: State, envs: seq<Envelope>, drawn: seq<Text>, evs: seq<Envelope>, n: nat)
    requires SequencedFrom(world, 0) && Strict(NewState, world) == Some(st)
    requires Continues(world, evs, envs, drawn) && n <= |evs|
    ensures SequencedFrom(world + evs[..n], 0)
    ensures Validate(st, |world|, envs[..n], drawn[..n]) ==
              match Strict(NewState, world + evs[..n])
              case None => None
              case Some(end) => Some((evs[..n], end))
  {
    hide Step, SessionIdFor, StampedAt, Strict, Validate;
    if n == 0 {
      assert world + evs[..0] == world && envs[..0] == [] && drawn[..0] == [];
      ValidateNone(st, |world|);
    } else {
      ValidateStamps(world, st, envs, drawn, evs, n - 1);
      ValidateNext(st, |world|, envs, drawn, n - 1);
      var before := world + evs[..n - 1];
      assert world + evs[..n] == before + [evs[n - 1]] && evs[..n] == evs[..n - 1] + [evs[n - 1]];
      StampedAfter(before, envs[n - 1], drawn[n - 1]);
      StrictOneMore(before, evs[n - 1]);
      if Strict(NewState, before).Some? {
        IdIsSessionNow(before, envs[n - 1], drawn[n - 1]);
      }
    }
  }

  lemma {:induction false} StampedAfter(world: seq<Envelope>, env: Envelope, drawn: Text)
    ensures StampedAt(world, env, drawn).sequence == |world| + 1
  {
  }

  lemma {:induction false} StrictOneMore(evs: seq<Envelope>, e: Envelope)
    ensures Strict(NewState, evs + [e]) ==
              match Strict(NewState, evs)
              case None => None
              case Some(mid) => (match Step(mid, e) case Accepted(next) => Some(next) case _ => None)
  {
    hide Step;
    assert (evs + [e])[..|evs|] == evs;
  }

  predicate Known(envs: seq<Envelope>) { forall e :: e in envs ==> !e.payload.NoPayload? }

  predicate CameUnstamped(envs: seq<Envelope>) { forall k :: 0 <= k < |envs| ==> envs[k].sequence == 0 }

  /** What an append does to a reachable campaign's world log and what it answers, of
      the one way the log continues with the batch: it is refused for the first of its
      faults, and else the log is that continuation. */
  lemma {:induction false} AppendStamps<D>(p: Perception<D>, c: Camp<D>, envs: seq<Envelope>, drawn: seq<Text>, lands: bool, evs: seq<Envelope>)
    requires Inv(c) && Continues(c.world, evs, envs, drawn)
    ensures var (after, answer) := Append(p, c, envs, drawn, lands);
            var folds := Strict(NewState, c.world + evs);
            && after.world == (if answer.Appended? then c.world + evs else c.world)
            && (answer.Appended? ==> Some(after.state) == folds)
            && answer == if envs == [] then Failed(EmptyBatch)
                         else if !Known(envs) then Failed(UnknownPayload)
                         else if folds.None? then Failed(EventRefused)
                         else if !lands || !CameUnstamped(envs) then Failed(NotStored)
                         else Appended(c.head + 1)
  {
    hide Strict, Inv, Continues, Commit, FanEvents, RestartLogs, Validate, StoreTakes;
    InvIs(c);
    ValidateStamps(c.world, c.state, envs, drawn, evs, |evs|) by { LengthsAre(c.world, evs, envs, drawn); }
    LengthsAre(c.world, evs, envs, drawn);
    assert envs[..|evs|] == envs && drawn[..|evs|] == drawn && evs[..|evs|] == evs;
    CampaignTheorems.AppendFailsWhen(p, c, envs, drawn, lands);
    AppendKeeps(p, c, envs, drawn, lands);
    InvIs(Append(p, c, envs, drawn, lands).0);
    if envs != [] && Validate(c.state, c.head, envs, drawn).Some? {
      CommitAnswers(p, c, envs, drawn);
    }
  }

  lemma {:induction false} InvIs<D>(c: Camp<D>)
    requires Inv(c)
    ensures SequencedFrom(c.world, 0) && Strict(NewState, c.world) == Some(c.state) && c.head == |c.world| && !c.poisoned
  {
  }

  lemma {:induction false} LengthsAre(world: seq<Envelope>, evs: seq<Envelope>, envs: seq<Envelope>, drawn: seq<Text>)
    requires Continues(world, evs, envs, drawn)
    ensures |evs| == |envs| == |drawn|
  {
  }

  /** A batch that validates answers from its commit, or as not stored. */
  lemma {:induction false} CommitAnswers<D>(p: Perception<D>, c: Camp<D>, envs: seq<Envelope>, drawn: seq<Text>)
    requires Inv(c) && |drawn| == |envs| && envs != [] && Validate(c.state, c.head, envs, drawn).Some?
    ensures var v := Validate(c.state, c.head, envs, drawn).value.0;
            var fan := FanEvents(p, c.logs, c.state, v);
            fan.Some? && Commit(c, v, fan.value.0).1 == Appended(c.head + 1)
  {
    hide Inv, Strict, Commit, FanEvents, Validate;
    ValidateFolds(c.state, c.head, envs, drawn);
    CommitKeeps(p, c, Validate(c.state, c.head, envs, drawn).value.0);
  }

  // ----- every run -----

  /** Entry k of a world log is envelope j handed to step i of a run, stamped. */
  predicate Handed<D>(ops: seq<Op<D>>, i: int, j: int, world: seq<Envelope>, k: int)
    requires 0 <= k < |world|
  {
    && 0 <= i < |ops| && ops[i].AppendOp? && 0 <= j < |ops[i].envs| && j < |ops[i].drawn|
    && world[k] == StampedAt(world[..k], ops[i].envs[j], ops[i].drawn[j])
  }

  lemma {:induction false} HandedStays<D>(ops: seq<Op<D>>, op: Op<D>, world: seq<Envelope>, more: seq<Envelope>, k: nat)
    requires k < |world| && exists i, j :: Handed(ops, i, j, world, k)
    ensures exists i, j :: Handed(ops + [op], i, j, world + more, k)
  {
    hide StampedAt;
    var i, j :| Handed(ops, i, j, world, k);
    assert (world + more)[..k] == world[..k];
    assert Handed(ops + [op], i, j, world + more, k);
  }

  /** After any run, every entry of the world log is an envelope some append was handed,
      at its place; a session's start carries the id drawn for it, and every other entry
      the id of the session the log before it is in, or none. */
  lemma {:induction false} EveryEntryStamped<D>(ops: seq<Op<D>>, k: nat)
    requires (forall i :: 0 <= i < |ops| ==> OpOk(ops[i])) && k < |Run(ops).world|
    ensures exists i, j :: Handed(ops, i, j, Run(ops).world, k)
  {
    hide StampedAt, Inv, Append, Reopen;
    var init, op := ops[..|ops| - 1], ops[|ops| - 1];
    assert ops == init + [op];
    CampaignTheorems.RunInv(init);
    var c := Run(init);
    match op
    case ReopenOp(p) =>
      ReopenedWorld(p, c);
      EveryEntryStamped(init, k);
      HandedStays(init, op, c.world, [], k);
      assert c.world + [] == c.world;
    case AppendOp(p, envs, drawn, lands) =>
      var evs := ContinuesOnce(c.world, envs, drawn);
      AppendStamps(p, c, envs, drawn, lands, evs);
      assert c.world + [] == c.world;
      if k < |c.world| {
        EveryEntryStamped(init, k);
        HandedStays(init, op, c.world, [], k);
        HandedStays(init, op, c.world, evs, k);
      } else {
        assert (c.world + evs)[..k] == c.world + evs[..k - |c.world|];
        assert Handed(ops, |init|, k - |c.world|, c.world + evs, k);
      }
  }

  lemma {:induction false} ReopenedWorld<D>(p: Perception<D>, c: Camp<D>)
    ensures var r := Reopen(p, c.world, c.chars); r.Some? ==> r.value.world == c.world
  {
  }
}
