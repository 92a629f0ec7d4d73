/** What a log says in order: its sessions, and an actor's controllers and conditions
    as they came. */
module LastWordOrder {
  import opened Contract
  import opened Fold
  import opened FoldInvariants
  import LastWord
  import opened LastWordActors

  /** A replay is the strict fold of the events of known kind. */
  function KnownOnly(evs: seq<Envelope>): seq<Envelope> {
    if evs == [] then []
    else KnownOnly(evs[..|evs| - 1]) + if evs[|evs| - 1].payload.NoPayload? then [] else [evs[|evs| - 1]]
  }

  lemma {:induction false} ReplayIsStrict(evs: seq<Envelope>)
    ensures Replay(evs) == Strict(NewState, KnownOnly(evs))
  {
    hide Step;
    if evs != [] {
      var init, e := evs[..|evs| - 1], evs[|evs| - 1];
      ReplayIsStrict(init);
      if Replay(init).Some? {
        LastWord.UnknownIsNothing(Replay(init).value, e);
      }
      if e.payload.NoPayload? {
        assert KnownOnly(evs) == KnownOnly(init);
      } else {
        assert KnownOnly(evs)[..|KnownOnly(evs)| - 1] == KnownOnly(init);
      }
    }
  }

  // ----- sessions -----

  /** Every session of a log, from its start to its end, 0 while it is open. */
  function Sessions(evs: seq<Envelope>): seq<Session> {
    if evs == [] then []
    else
      var e, before := evs[|evs| - 1], Sessions(evs[..|evs| - 1]);
      match e.payload
      case SessionStarted(name) => before + [Session(e.sessionId, name, e.sequence, 0)]
      case SessionEnded =>
        if before == [] then [] else before[..|before| - 1] + [before[|before| - 1].(endSeq := e.sequence)]
      case _ => before
  }

  lemma {:induction false} SessionListStep(st: State, e: Envelope)
    requires Good(st) && Step(st, e).Accepted?
    ensures Step(st, e).st.sessions ==
              match e.payload
              case SessionStarted(name) => st.sessions + [Session(e.sessionId, name, e.sequence, 0)]
              case SessionEnded =>
                if st.sessions == [] then [] else st.sessions[..|st.sessions| - 1] + [st.sessions[|st.sessions| - 1].(endSeq := e.sequence)]
              case _ => st.sessions
  {
    match e.payload
    case SessionStarted(name) => assert Step(st, e) == StartSession(st, e);
    case SessionEnded =>
      assert Step(st, e) == EndSession(st, e);
      OpenIsLast(st.sessions);
    case _ => StepFrame(st, e);
  }

  /** A state's sessions are the log's: each start adds one, and each end closes the last
      at its own sequence. */
  lemma {:induction false} SessionsAreTold(evs: seq<Envelope>)
    requires Replay(evs).Some? && Positive(evs)
    ensures Replay(evs).value.sessions == Sessions(evs)
  {
    hide Step, Good;
    if evs != [] {
      var init, e := evs[..|evs| - 1], evs[|evs| - 1];
      assert Positive(init) by { assert forall i :: 0 <= i < |init| ==> init[i] == evs[i]; }
      SessionsAreTold(init);
      ReplayGood(init);
      LastWord.UnknownIsNothing(Replay(init).value, e);
      if Step(Replay(init).value, e).Accepted? {
        SessionListStep(Replay(init).value, e);
      }
    }
  }

  // ----- controllers -----

  /** The event since which a participant controls an actor; -1 while it does not. */
  function Since(evs: seq<Envelope>, id: Text, controller: Text): int {
    if !LastGranted(evs, id, controller) then -1
    else if LastGranted(evs[..|evs| - 1], id, controller) then Since(evs[..|evs| - 1], id, controller)
    else |evs| - 1
  }

  lemma {:induction false} SinceBefore(evs: seq<Envelope>, id: Text, controller: Text)
    ensures Since(evs, id, controller) < |evs|
  {
    if LastGranted(evs, id, controller) && LastGranted(evs[..|evs| - 1], id, controller) {
      SinceBefore(evs[..|evs| - 1], id, controller);
    }
  }

  function ControllersOf(st: State, id: Text): seq<Text> { if id in st.actors then st.actors[id].controllerIds else [] }

  predicate Rising(cs: seq<Text>, at: Text -> int) { forall i, j :: 0 <= i < j < |cs| ==> at(cs[i]) < at(cs[j]) }

  lemma {:induction false} WithoutRises(cs: seq<Text>, id: Text, at: Text -> int)
    requires Rising(cs, at)
    ensures Rising(Without(cs, id), at)
  {
    if cs != [] {
      var init := cs[..|cs| - 1];
      WithoutRises(init, id, at);
      WithoutKeeps(init, id);
      forall i | 0 <= i < |Without(init, id)| ensures at(Without(init, id)[i]) < at(cs[|cs| - 1]) {
        var c := Without(init, id)[i];
        assert c in Without(init, id);
        var k :| 0 <= k < |init| && init[k] == c;
        assert cs[k] == c;
      }
    }
  }

  /** One event leaves an actor's controllers in their order, less some, or puts one at the end. */
  lemma {:induction false} ControllersStep(st: State, e: Envelope, id: Text)
    requires Step(st, e).Accepted?
    ensures var was, now := ControllersOf(st, id), ControllersOf(Step(st, e).st, id);
            match e.payload
            case ActorControlGranted(a, c, _) => now == if a == id && c !in was then was + [c] else was
            case ActorControlRevoked(a, c) => now == if a == id then Without(was, c) else was
            case ActorAdded(_) => now == was || now == []
            case ActorRemoved(_) => now == was || now == []
            case _ => now == was
  {
    hide KeysOk, IdOk, NameOk, HasToken, Without, Clamp, StartSession, EndSession, CreateScene, PlaceToken, SetDoor, SeeScene,
         ApplyCondition, RemoveCondition, Narrate, Whisper, UpsertNote, DeleteNote, DescribeToken, MoveToken, RemoveToken;
    var p := e.payload;
    match p
    case ActorAdded(_) => assert Step(st, e) == AddActor(st, p);
    case ActorControlGranted(_, _, _) => assert Step(st, e) == GrantControl(st, p);
    case ActorControlRevoked(_, _) => assert Step(st, e) == RevokeControl(st, p);
    case ActorRemoved(a) => assert Step(st, e) == RemoveActor(st, a);
    case ResourceChanged(_, _, _, _) => assert Step(st, e) == ChangeResource(st, p);
    case _ => StepFrame(st, e);
  }

  lemma {:induction false} SinceStays(init: seq<Envelope>, e: Envelope, id: Text, c: Text)
    requires LastGranted(init, id, c) && LastGranted(init + [e], id, c)
    ensures Since(init + [e], id, c) == Since(init, id, c)
  {
    assert (init + [e])[..|init|] == init;
  }

  lemma {:induction false} SinceNow(init: seq<Envelope>, e: Envelope, id: Text, c: Text)
    requires !LastGranted(init, id, c) && LastGranted(init + [e], id, c)
    ensures Since(init + [e], id, c) == |init|
  {
    assert (init + [e])[..|init|] == init;
  }

  lemma {:induction false} ControllersAre(evs: seq<Envelope>, id: Text, c: Text)
    requires Replay(evs).Some?
    ensures c in ControllersOf(Replay(evs).value, id) <==> LastGranted(evs, id, c)
  {
    hide Replay, LastGranted;
    ControlIsLastWord(evs, id, c);
  }

  /** An actor's controllers stand in the order in which they came to control it, so the
      first of them is the one that has for longest. */
  lemma {:induction false} ControllersInOrder(evs: seq<Envelope>, id: Text)
    requires Replay(evs).Some?
    ensures Rising(ControllersOf(Replay(evs).value, id), c => Since(evs, id, c))
  {
    hide Step, Since, LastGranted, Without, ControllersOf, Rising;
    if evs == [] {
      NobodyRises(id, c => Since(evs, id, c));
    } else {
      var init, e := evs[..|evs| - 1], evs[|evs| - 1];
      assert evs == init + [e];
      ControllersInOrder(init, id);
      var st := Replay(init).value;
      LastWord.UnknownIsNothing(st, e);
      var was, now := ControllersOf(st, id), ControllersOf(Replay(evs).value, id);
      var before, after := c => Since(init, id, c), c => Since(evs, id, c);
      forall c: Text
        ensures c in was <==> LastGranted(init, id, c)
        ensures c in now <==> LastGranted(evs, id, c)
        ensures c in was && c in now ==> after(c) == before(c)
        ensures c in now && c !in was ==> after(c) == |init|
        ensures before(c) < |init|
      {
        ControllersAre(init, id, c);
        ControllersAre(evs, id, c);
        SinceBefore(init, id, c);
        if c in now {
          if c in was { SinceStays(init, e, id, c); } else { SinceNow(init, e, id, c); }
        }
      }
      if Step(st, e).Accepted? {
        ControllersStep(st, e, id);
      }
      RisesOn(was, now, e.payload, before, after, |init|);
    }
  }

  lemma {:induction false} NobodyRises(id: Text, at: Text -> int)
    ensures Rising(ControllersOf(NewState, id), at)
  {
  }

  /** Less some, or with one at the end, what rose still rises. */
  lemma {:induction false} RisesOn(was: seq<Text>, now: seq<Text>, p: Payload, before: Text -> int, after: Text -> int, n: int)
    requires Rising(was, before)
    requires now == was || now == []
             || (p.ActorControlGranted? && p.participantId !in was && now == was + [p.participantId])
             || (p.ActorControlRevoked? && now == Without(was, p.participantId))
    requires forall c :: c in was && c in now ==> after(c) == before(c)
    requires forall c :: c in now && c !in was ==> after(c) == n
    requires forall c :: c in was ==> before(c) < n
    ensures Rising(now, after)
  {
    if p.ActorControlRevoked? && now == Without(was, p.participantId) {
      WithoutRises(was, p.participantId, before);
      WithoutKeeps(was, p.participantId);
    }
    assert forall k :: 0 <= k < |now| ==> now[k] in now;
    assert forall k :: 0 <= k < |was| ==> was[k] in was;
  }

  // ----- conditions -----

  /** Sequences that only rise, as a log's do. */
  predicate Sequenced(evs: seq<Envelope>) { forall i, j :: 0 <= i < j < |evs| ==> evs[i].sequence < evs[j].sequence }

  predicate ByAge(cs: seq<Condition>) { forall i, j :: 0 <= i < j < |cs| ==> cs[i].appliedSeq < cs[j].appliedSeq }

  predicate Until(cs: seq<Condition>, most: int) { forall i :: 0 <= i < |cs| ==> cs[i].appliedSeq <= most }

  lemma {:induction false} CutByAge(cs: seq<Condition>, at: nat, most: int)
    requires ByAge(cs) && Until(cs, most) && at < |cs|
    ensures ByAge(cs[..at] + cs[at + 1..]) && Until(cs[..at] + cs[at + 1..], most)
  {
    var r := cs[..at] + cs[at + 1..];
    assert forall k :: 0 <= k < |r| ==> r[k] == cs[if k < at then k else k + 1];
  }

  lemma {:induction false} PushByAge(cs: seq<Condition>, c: Condition, most: int)
    requires ByAge(cs) && Until(cs, most) && most < c.appliedSeq
    ensures ByAge(cs + [c]) && Until(cs + [c], c.appliedSeq)
  {
  }

  lemma {:induction false} LaterToo(cs: seq<Condition>, most: int, later: int)
    requires most <= later
    ensures Until(cs, most) ==> Until(cs, later)
  {
  }

  lemma {:induction false} NothingByAge(most: int)
    ensures ByAge([]) && Until([], most)
  {
  }

  lemma {:induction false} ConditionListStep(st: State, e: Envelope, id: Text, most: int)
    requires Step(st, e).Accepted? && ByAge(ConditionsOf(st, id)) && Until(ConditionsOf(st, id), most) && most < e.sequence
    ensures ByAge(ConditionsOf(Step(st, e).st, id)) && Until(ConditionsOf(Step(st, e).st, id), e.sequence)
  {
    hide IdOk, HasToken, ConditionIndex, ByAge, Until, StartSession, EndSession, CreateScene, AddActor, GrantControl, RevokeControl,
         PlaceToken, DescribeToken, MoveToken, RemoveToken, SetDoor, ChangeResource, SeeScene, Narrate, Whisper, UpsertNote, DeleteNote;
    var p, held := e.payload, ConditionsOf(st, id);
    LaterToo(held, most, e.sequence);
    match p
    case ConditionApplied(a, c, source) =>
      assert Step(st, e) == ApplyCondition(st, e);
      if a == id { PushByAge(held, Condition(c, source, e.sequence), most); }
    case ConditionRemoved(a, c) =>
      assert Step(st, e) == RemoveCondition(st, p);
      if a == id {
        CutByAge(held, ConditionIndex(held, c), most);
        LaterToo(ConditionsOf(Step(st, e).st, id), most, e.sequence);
      }
    case ActorRemoved(a) =>
      assert Step(st, e) == RemoveActor(st, a);
      NothingByAge(e.sequence);
    case _ => StepFrame(st, e);
  }

  /** An actor's conditions stand in the order in which they were applied. */
  lemma {:induction false} ConditionsInOrder(evs: seq<Envelope>, id: Text)
    requires Replay(evs).Some? && Sequenced(evs)
    ensures ByAge(ConditionsOf(Replay(evs).value, id))
    ensures evs != [] ==> Until(ConditionsOf(Replay(evs).value, id), evs[|evs| - 1].sequence)
  {
    hide Step, ByAge;
    if evs == [] {
      NoneByAge(id);
    } else {
      var init, e := evs[..|evs| - 1], evs[|evs| - 1];
      ConditionsInOrder(init, id);
      var st := Replay(init).value;
      LastWord.UnknownIsNothing(st, e);
      if Step(st, e).Accepted? {
        if init == [] { NoneByAge(id); }
        ConditionListStep(st, e, id, if init == [] then e.sequence - 1 else init[|init| - 1].sequence);
      } else {
        assert ConditionsOf(Replay(evs).value, id) == ConditionsOf(st, id);
      }
    }
  }

  lemma {:induction false} NoneByAge(id: Text)
    ensures ByAge(ConditionsOf(NewState, id)) && ConditionsOf(NewState, id) == []
  {
  }
}
