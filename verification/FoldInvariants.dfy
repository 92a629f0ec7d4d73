/** What every state the fold reaches keeps, whatever events it was handed in
    increasing positive sequence. */
module FoldInvariants {
  import opened Contract
  import opened Fold

  predicate Distinct<T(==)>(s: seq<T>) {
    forall i, j :: 0 <= i < j < |s| ==> s[i] != s[j]
  }

  predicate SessionsGood(sessions: seq<Session>) {
    forall i :: 0 <= i < |sessions| ==>
      && IdOk(sessions[i].id) && NameOk(sessions[i].name)
      && (IsOpen(sessions[i]) ==> i == |sessions| - 1)
  }

  predicate ActorGood(id: Text, a: Actor) {
    && a.id == id && IdOk(id) && NameOk(a.name) && |a.moduleId| <= MAX_ID
    && KeysOk(a.resources) && KeysOk(a.attributes)
    && Distinct(a.controllerIds) && (forall c :: c in a.controllerIds ==> IdOk(c))
    && a.controllerId == (if a.controllerIds == [] then [] else a.controllerIds[0])
  }

  predicate SceneGood(id: Text, sc: Scene) {
    && sc.id == id && IdOk(id) && NameOk(sc.name) && UniqueObjects(sc.objects)
    && (sc.explored.Some? ==> sc.explored.value.Keys <= sc.tiles.Keys)
    && (forall k :: k in sc.openDoors ==> sc.openDoors[k])
  }

  predicate TokenGood(st: State, id: Text, t: Token) {
    t.id == id && IdOk(id) && t.sceneId in st.scenes && t.actorId in st.actors
  }

  predicate ConditionsGood(cs: seq<Condition>) {
    && (forall i, j :: 0 <= i < j < |cs| ==> cs[i].id != cs[j].id)
    && (forall i :: 0 <= i < |cs| ==> IdOk(cs[i].id))
  }

  predicate NoteGood(key: Text, n: Note) {
    1 <= |key| <= MAX_NOTE_KEY && |n.title| <= MAX_NOTE_TITLE && TextOk(n.text)
  }

  predicate Good(st: State) {
    && SessionsGood(st.sessions)
    && (forall id :: id in st.scenes ==> SceneGood(id, st.scenes[id]))
    && (forall id :: id in st.actors ==> ActorGood(id, st.actors[id]))
    && (forall id :: id in st.tokens ==> TokenGood(st, id, st.tokens[id]))
    && (forall id :: id in st.conditions ==> id in st.actors && ConditionsGood(st.conditions[id]))
    && (forall key :: key in st.notes ==> NoteGood(key, st.notes[key]))
  }

  lemma {:induction false} OpenIsLast(sessions: seq<Session>)
    requires SessionsGood(sessions)
    ensures OpenIndex(sessions) == (if sessions != [] && IsOpen(sessions[|sessions| - 1]) then |sessions| - 1 else |sessions|)
  {
    var i := OpenIndex(sessions);
    if sessions != [] && IsOpen(sessions[|sessions| - 1]) {
      assert i < |sessions|;
    }
  }

  // ----- objects: a SceneSeen keeps ids unique -----

  lemma {:induction false} MergeUnique(have: seq<SceneObject>, incoming: seq<ObjectRef>)
    requires UniqueObjects(have)
    ensures UniqueObjects(Merge(have, incoming))
  {
    if incoming != [] {
      MergeUnique(have, incoming[..|incoming| - 1]);
    }
  }

  lemma {:induction false} WithoutKeeps(ids: seq<Text>, id: Text)
    ensures forall x :: x in Without(ids, id) <==> x in ids && x != id
    ensures Distinct(ids) ==> Distinct(Without(ids, id))
  {
    if ids != [] {
      var init, last := ids[..|ids| - 1], ids[|ids| - 1];
      WithoutKeeps(init, id);
      assert ids == init + [last];
      if Distinct(ids) {
        assert forall i, j :: 0 <= i < j < |init| ==> init[i] == ids[i] && init[j] == ids[j] && ids[i] != ids[j];
        assert Distinct(init);
        assert forall i :: 0 <= i < |Without(init, id)| ==> Without(init, id)[i] in init;
        assert forall i :: 0 <= i < |init| ==> ids[i] == init[i] != last;
      }
    }
  }

  lemma {:induction false} WithoutConcat(a: seq<Text>, b: seq<Text>, id: Text)
    ensures Without(a + b, id) == Without(a, id) + Without(b, id)
  {
    if b == [] {
      assert a + b == a;
    } else {
      WithoutConcat(a, b[..|b| - 1], id);
      assert (a + b)[..|a + b| - 1] == a + b[..|b| - 1];
    }
  }

  /** Taking one out leaves the others in their order. */
  lemma {:induction false} WithoutCuts(a: seq<Text>, id: Text, b: seq<Text>)
    requires id !in a && id !in b
    ensures Without(a + [id] + b, id) == a + b
  {
    WithoutConcat(a + [id], b, id);
    WithoutConcat(a, [id], id);
    WithoutNothing(a, id);
    WithoutNothing(b, id);
    assert [id][..0] == [];
    assert Without([id], id) == [];
  }

  lemma {:induction false} WithoutNothing(a: seq<Text>, id: Text)
    requires id !in a
    ensures Without(a, id) == a
  {
    if a != [] {
      WithoutNothing(a[..|a| - 1], id);
    }
  }

  // ----- one lemma an arm that touches what Good speaks of -----

  lemma {:induction false} StartGood(st: State, env: Envelope)
    requires Good(st) && env.payload.SessionStarted?
    ensures var r := StartSession(st, env); r.Accepted? ==> Good(r.st)
  {
    var r := StartSession(st, env);
    if r.Accepted? {
      assert forall id :: id in r.st.tokens ==> TokenGood(st, id, st.tokens[id]);
    }
  }

  lemma {:induction false} EndGood(st: State, env: Envelope)
    requires Good(st) && env.sequence > 0
    ensures var r := EndSession(st, env); r.Accepted? ==> Good(r.st)
  {
    OpenIsLast(st.sessions);
    var r := EndSession(st, env);
    if r.Accepted? {
      assert SessionsGood(r.st.sessions);
      assert forall id :: id in r.st.tokens ==> TokenGood(st, id, st.tokens[id]);
    }
  }

  /** Replacing one actor by another good actor of its id. */
  lemma {:induction false} ActorReplacedGood(st: State, id: Text, a: Actor)
    requires Good(st) && ActorGood(id, a)
    ensures Good(st.(actors := st.actors[id := a]))
  {
    var now := st.(actors := st.actors[id := a]);
    assert forall t :: t in now.tokens ==> TokenGood(st, t, now.tokens[t]);
    assert forall i :: i in now.actors && i != id ==> ActorGood(i, st.actors[i]);
  }

  lemma {:induction false} GrantGood(st: State, p: Payload)
    requires Good(st) && p.ActorControlGranted?
    ensures var r := GrantControl(st, p); r.Accepted? ==> Good(r.st)
  {
    var r := GrantControl(st, p);
    if r.Accepted? {
      assert ActorGood(p.actorId, st.actors[p.actorId]);
      ActorReplacedGood(st, p.actorId, r.st.actors[p.actorId]);
    }
  }

  lemma {:induction false} RevokeGood(st: State, p: Payload)
    requires Good(st) && p.ActorControlRevoked?
    ensures var r := RevokeControl(st, p); r.Accepted? ==> Good(r.st)
  {
    var r := RevokeControl(st, p);
    if r.Accepted? {
      WithoutKeeps(st.actors[p.actorId].controllerIds, p.participantId);
      assert ActorGood(p.actorId, st.actors[p.actorId]);
      ActorReplacedGood(st, p.actorId, r.st.actors[p.actorId]);
    }
  }

  lemma {:induction false} ResourceGood(st: State, p: Payload)
    requires Good(st) && p.ResourceChanged?
    ensures var r := ChangeResource(st, p); r.Accepted? ==> Good(r.st)
  {
    var r := ChangeResource(st, p);
    if r.Accepted? {
      assert ActorGood(p.actorId, st.actors[p.actorId]);
      ActorReplacedGood(st, p.actorId, r.st.actors[p.actorId]);
    }
  }

  lemma {:induction false} AddActorGood(st: State, p: Payload)
    requires Good(st) && p.ActorAdded?
    ensures var r := AddActor(st, p); r.Accepted? ==> Good(r.st)
  {
    var r := AddActor(st, p);
    if r.Accepted? {
      ActorReplacedGood(st, p.actor.value.id, p.actor.value);
    }
  }

  lemma {:induction false} RemoveActorGood(st: State, id: Text)
    requires Good(st)
    ensures var r := RemoveActor(st, id); r.Accepted? ==> Good(r.st)
  {
    var r := RemoveActor(st, id);
    if r.Accepted? {
      assert forall t :: t in r.st.tokens ==> TokenGood(st, t, st.tokens[t]);
    }
  }

  /** Setting one scene, new or replaced. */
  lemma {:induction false} SceneReplacedGood(st: State, id: Text, sc: Scene)
    requires Good(st) && SceneGood(id, sc)
    ensures Good(st.(scenes := st.scenes[id := sc]))
  {
    var now := st.(scenes := st.scenes[id := sc]);
    assert forall t :: t in now.tokens ==> TokenGood(st, t, now.tokens[t]);
    assert forall i :: i in now.scenes && i != id ==> SceneGood(i, st.scenes[i]);
  }

  lemma {:induction false} CreateSceneGood(st: State, p: Payload)
    requires Good(st) && p.SceneCreated?
    ensures var r := CreateScene(st, p); r.Accepted? ==> Good(r.st)
  {
    var r := CreateScene(st, p);
    if r.Accepted? {
      SceneReplacedGood(st, p.sceneId, r.st.scenes[p.sceneId]);
    }
  }

  lemma {:induction false} SeeSceneGood(st: State, p: Payload)
    requires Good(st) && p.SceneSeen?
    ensures var r := SeeScene(st, p); r.Accepted? ==> Good(r.st)
  {
    var r := SeeScene(st, p);
    if r.Accepted? {
      assert SceneGood(p.seenScene, st.scenes[p.seenScene]);
      MergeUnique(st.scenes[p.seenScene].objects, p.seenObjects);
      SceneReplacedGood(st, p.seenScene, r.st.scenes[p.seenScene]);
    }
  }

  lemma {:induction false} SetDoorGood(st: State, scene: Text, at: Option<Position>, open: bool)
    requires Good(st)
    ensures var r := SetDoor(st, scene, at, open); r.Accepted? ==> Good(r.st)
  {
    var r := SetDoor(st, scene, at, open);
    if r.Accepted? {
      assert SceneGood(scene, st.scenes[scene]);
      SceneReplacedGood(st, scene, r.st.scenes[scene]);
    }
  }

  lemma {:induction false} ConditionsReplacedGood(st: State, id: Text, cs: seq<Condition>)
    requires Good(st) && id in st.actors && ConditionsGood(cs)
    ensures Good(st.(conditions := st.conditions[id := cs]))
  {
    var now := st.(conditions := st.conditions[id := cs]);
    assert forall t :: t in now.tokens ==> TokenGood(st, t, now.tokens[t]);
    assert forall i :: i in now.conditions && i != id ==> ConditionsGood(st.conditions[i]);
  }

  lemma {:induction false} ConditionAppliedGood(st: State, env: Envelope)
    requires Good(st) && env.payload.ConditionApplied?
    ensures var r := ApplyCondition(st, env); r.Accepted? ==> Good(r.st)
  {
    var r := ApplyCondition(st, env);
    if r.Accepted? {
      var id := env.payload.actorId;
      assert ConditionsGood(ConditionsOf(st, id));
      ConditionsReplacedGood(st, id, r.st.conditions[id]);
    }
  }

  lemma {:induction false} CutGood(held: seq<Condition>, i: nat)
    requires ConditionsGood(held) && i < |held|
    ensures ConditionsGood(held[..i] + held[i + 1..])
  {
    var cs := held[..i] + held[i + 1..];
    assert forall k :: 0 <= k < |cs| ==> cs[k] == held[if k < i then k else k + 1];
  }

  lemma {:induction false} HeldGood(st: State, id: Text)
    requires Good(st)
    ensures ConditionsGood(ConditionsOf(st, id))
  {
  }

  lemma {:induction false} ConditionRemovedGood(st: State, p: Payload)
    requires Good(st) && p.ConditionRemoved?
    ensures var r := RemoveCondition(st, p); r.Accepted? ==> Good(r.st)
  {
    hide Good, ConditionsGood, ConditionsOf, ConditionIndex;
    var r := RemoveCondition(st, p);
    if r.Accepted? {
      var held := ConditionsOf(st, p.actorId);
      HeldGood(st, p.actorId);
      CutGood(held, ConditionIndex(held, p.conditionId));
      ConditionsReplacedGood(st, p.actorId, r.st.conditions[p.actorId]);
    }
  }

  lemma {:induction false} TokensGood(st: State, tokens: map<Text, Token>)
    requires Good(st)
    requires forall t :: t in tokens ==> TokenGood(st, t, tokens[t])
    ensures Good(st.(tokens := tokens))
  {
    var now := st.(tokens := tokens);
    assert forall t :: t in tokens ==> TokenGood(st, t, tokens[t]) && TokenGood(now, t, tokens[t]);
  }

  lemma {:induction false} TokenSetGood(st: State, id: Text, t: Token)
    requires Good(st) && TokenGood(st, id, t)
    ensures Good(st.(tokens := st.tokens[id := t]))
  {
    var tokens := st.tokens[id := t];
    assert forall i :: i in tokens && i != id ==> TokenGood(st, i, st.tokens[i]);
    TokensGood(st, tokens);
  }

  lemma {:induction false} TokenGoneGood(st: State, id: Text)
    requires Good(st)
    ensures Good(st.(tokens := st.tokens - {id}))
  {
    var tokens := st.tokens - {id};
    assert forall i :: i in tokens ==> TokenGood(st, i, st.tokens[i]);
    TokensGood(st, tokens);
  }

  lemma {:induction false} TokenStepGood(st: State, p: Payload)
    requires Good(st)
    ensures p.TokenPlaced? ==> var r := PlaceToken(st, p); r.Accepted? ==> Good(r.st)
    ensures p.TokenDescribed? ==> var r := DescribeToken(st, p); r.Accepted? ==> Good(r.st)
    ensures p.TokenMoved? ==> var r := MoveToken(st, p); r.Accepted? ==> Good(r.st)
  {
    match p
    case TokenPlaced(id, _, _, _, _, _, _, _) =>
      if PlaceToken(st, p).Accepted? { TokenSetGood(st, id, PlaceToken(st, p).st.tokens[id]); }
    case TokenDescribed(id, _, _, _, _) =>
      if id in st.tokens {
        assert TokenGood(st, id, st.tokens[id]);
        TokenSetGood(st, id, DescribeToken(st, p).st.tokens[id]);
      }
    case TokenMoved(id, _, _, _) =>
      if MoveToken(st, p).Accepted? {
        assert TokenGood(st, id, st.tokens[id]);
        TokenSetGood(st, id, MoveToken(st, p).st.tokens[id]);
      }
    case _ =>
  }

  lemma {:induction false} NotesGood(st: State, env: Envelope)
    requires Good(st)
    ensures env.payload.NoteUpserted? ==> var r := UpsertNote(st, env); r.Accepted? ==> Good(r.st)
    ensures env.payload.NoteDeleted? ==> var r := DeleteNote(st, env.payload.key); r.Accepted? ==> Good(r.st)
  {
    assert forall t :: t in st.tokens ==> TokenGood(st, t, st.tokens[t]);
    if env.payload.NoteUpserted? && UpsertNote(st, env).Accepted? {
      var now := UpsertNote(st, env).st;
      assert forall t :: t in now.tokens ==> TokenGood(now, t, now.tokens[t]);
    }
    if env.payload.NoteDeleted? && DeleteNote(st, env.payload.key).Accepted? {
      var now := DeleteNote(st, env.payload.key).st;
      assert forall t :: t in now.tokens ==> TokenGood(now, t, now.tokens[t]);
    }
  }

  /** One event of a positive sequence keeps every invariant. */
  lemma {:induction false} StepGood(st: State, env: Envelope)
    requires Good(st) && env.sequence > 0
    ensures var r := Step(st, env); r.Accepted? ==> Good(r.st)
  {
    hide Good, StartSession, EndSession, CreateScene, AddActor, GrantControl, RevokeControl, PlaceToken, DescribeToken, MoveToken,
         RemoveActor, SetDoor, ChangeResource, ApplyCondition, RemoveCondition, UpsertNote, DeleteNote, SeeScene;
    var p := env.payload;
    match p
    case SessionStarted(_) => StartGood(st, env);
    case SessionEnded => EndGood(st, env);
    case ActorControlGranted(_, _, _) => GrantGood(st, p);
    case ActorControlRevoked(_, _) => RevokeGood(st, p);
    case ResourceChanged(_, _, _, _) => ResourceGood(st, p);
    case SceneCreated(_, _, _, _, _, _) => CreateSceneGood(st, p);
    case SceneSeen(_, _, _, _) => SeeSceneGood(st, p);
    case DoorOpened(scene, at) => SetDoorGood(st, scene, at, true);
    case DoorClosed(scene, at) => SetDoorGood(st, scene, at, false);
    case ConditionApplied(_, _, _) => ConditionAppliedGood(st, env);
    case ConditionRemoved(_, _) => ConditionRemovedGood(st, p);
    case ActorAdded(_) => AddActorGood(st, p);
    case ActorRemoved(id) => RemoveActorGood(st, id);
    case NoteUpserted(_, _, _, _) => NotesGood(st, env);
    case NoteDeleted(_) => NotesGood(st, env);
    case TokenPlaced(_, _, _, _, _, _, _, _) => TokenStepGood(st, p);
    case TokenDescribed(_, _, _, _, _) => TokenStepGood(st, p);
    case TokenMoved(_, _, _, _) => TokenStepGood(st, p);
    case TokenRemoved(id) => TokenGoneGood(st, id);
    case TokenHidden(id) => TokenGoneGood(st, id);
    case _ =>
  }

  predicate Positive(evs: seq<Envelope>) {
    forall i :: 0 <= i < |evs| ==> evs[i].sequence > 0
  }

  /** Every state a log of positive sequences replays to is good. */
  lemma {:induction false} ReplayGood(evs: seq<Envelope>)
    requires Positive(evs) && Replay(evs).Some?
    ensures Good(Replay(evs).value)
  {
    if evs != [] {
      var init := evs[..|evs| - 1];
      ReplayGood(init);
      StepGood(Replay(init).value, evs[|evs| - 1]);
    }
  }

  lemma {:induction false} StrictGood(st: State, evs: seq<Envelope>)
    requires Good(st) && Positive(evs) && Strict(st, evs).Some?
    ensures Good(Strict(st, evs).value)
  {
    if evs != [] {
      var init := evs[..|evs| - 1];
      StrictGood(st, init);
      StepGood(Strict(st, init).value, evs[|evs| - 1]);
    }
  }

  /** A session is closed by its end exactly when the end's sequence is not 0:
      why the fold is only ever handed positive sequences. */
  lemma {:induction false} EndCloses(st: State, env: Envelope)
    requires Good(st) && env.payload.SessionEnded? && OpenSession(st).Some?
    ensures EndSession(st, env).Accepted?
    ensures OpenSession(EndSession(st, env).st).None? <==> env.sequence != 0
  {
    OpenIsLast(st.sessions);
    var i := |st.sessions| - 1;
    var after := EndSession(st, env).st.sessions;
    assert forall j :: 0 <= j < i ==> !IsOpen(st.sessions[j]) && after[j] == st.sessions[j];
    assert after[i].endSeq == env.sequence;
  }

  /** An accepted resource change lands where the clamp puts it: between 0 and a
      positive maximum, on the sum where that is in range, in int32 without wrapping. */
  lemma {:induction false} ResourceLandsInClamp(st: State, p: Payload)
    requires p.ResourceChanged?
    ensures ChangeResource(st, p).Accepted? ==>
              && p.actorId in st.actors && p.resource in st.actors[p.actorId].resources
              && var old' := st.actors[p.actorId].resources[p.resource];
                 var now := ChangeResource(st, p).st.actors[p.actorId].resources[p.resource];
                 && now.max == old'.max && now.current == p.newValue
                 && 0 <= now.current && (old'.max > 0 ==> now.current <= old'.max)
                 && (0 <= old'.current + p.delta && (old'.max <= 0 || old'.current + p.delta <= old'.max)
                     ==> now.current == old'.current + p.delta)
                 && (old'.current + p.delta < 0 ==> now.current == 0)
                 && (0 < old'.max < old'.current + p.delta ==> now.current == old'.max)
  {
  }
}
