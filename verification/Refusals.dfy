/** When the fold accepts an event, said of the log: each arm's refusals read off what
    the log last said, and the bounds the program declares. */
module Refusals {
  import opened Contract
  import opened Fold
  import opened FoldInvariants
  import opened LastWord
  import opened LastWordActors
  import opened LastWordScenes

  /** Whether this event may be the log's next. */
  predicate Accepts(evs: seq<Envelope>, e: Envelope)
    requires Replay(evs).Some?
  {
    Step(Replay(evs).value, e).Accepted?
  }

  predicate Sized(t: Text, least: nat, most: nat) { least <= |t| <= most }

  lemma {:induction false} Known(evs: seq<Envelope>, actor: Text, scene: Text, token: Text)
    requires Replay(evs).Some?
    ensures var st := Replay(evs).value;
            && (actor in st.actors <==> LastKind(evs, actor).Some?)
            && (scene in st.scenes <==> MadeAs(evs, scene).Some?)
            && Get(st.tokens, token) == LastToken(evs, token)
  {
    hide Replay, LastKind, MadeAs, LastToken;
    ActorIsLastWord(evs, actor, []);
    SceneIsLastWord(evs, scene, [], []);
    TokenIsLastWord(evs, token);
  }

  /** Nothing is refused for its kind but a payload of no known one. */
  lemma {:induction false} OnlyUnknownIsUnknown(evs: seq<Envelope>, e: Envelope)
    requires Replay(evs).Some?
    ensures !Accepts(evs, e) ==> Step(Replay(evs).value, e) == (if e.payload.NoPayload? then UnknownVariant else Refused)
  {
    hide Replay;
    UnknownIsNothing(Replay(evs).value, e);
  }

  // ----- sessions -----

  lemma {:induction false} SessionTaken(evs: seq<Envelope>, e: Envelope)
    requires Replay(evs).Some? && Positive(evs)
    ensures e.payload.SessionStarted? ==>
              (Accepts(evs, e) <==> LastSession(evs).None? && |e.payload.sessionName| <= 256 && Sized(e.sessionId, 1, 128))
    ensures e.payload.SessionEnded? ==> (Accepts(evs, e) <==> LastSession(evs).Some?)
  {
    hide Replay, LastSession;
    SessionIsLastWord(evs);
    var st := Replay(evs).value;
    match e.payload
    case SessionStarted(_) => assert Step(st, e) == StartSession(st, e);
    case SessionEnded => assert Step(st, e) == EndSession(st, e);
    case _ =>
  }

  // ----- scenes and doors -----

  lemma {:induction false} SceneTaken(evs: seq<Envelope>, e: Envelope)
    requires Replay(evs).Some?
    ensures e.payload.SceneCreated? ==>
              (Accepts(evs, e) <==>
                && MadeAs(evs, e.payload.sceneId).None? && Sized(e.payload.sceneId, 1, 128) && |e.payload.sceneName| <= 256
                && (forall o :: o in e.payload.objects ==> Sized(o.id, 1, 128))
                && forall i, j :: 0 <= i < j < |e.payload.objects| ==> e.payload.objects[i].id != e.payload.objects[j].id)
    ensures e.payload.SceneSeen? ==> (Accepts(evs, e) <==> MadeAs(evs, e.payload.seenScene).Some?)
    ensures e.payload.DoorOpened? ==> (Accepts(evs, e) <==> MadeAs(evs, e.payload.doorScene).Some? && e.payload.at.Some?)
    ensures e.payload.DoorClosed? ==> (Accepts(evs, e) <==> MadeAs(evs, e.payload.doorScene).Some? && e.payload.at.Some?)
  {
    hide Replay, MadeAs, Seen, FromRefs;
    var st, p := Replay(evs).value, e.payload;
    match p
    case SceneCreated(id, _, _, _, _, _) => assert Step(st, e) == CreateScene(st, p); Known(evs, [], id, []);
    case SceneSeen(id, _, _, _) => assert Step(st, e) == SeeScene(st, p); Known(evs, [], id, []);
    case DoorOpened(id, at) => assert Step(st, e) == SetDoor(st, id, at, true); Known(evs, [], id, []);
    case DoorClosed(id, at) => assert Step(st, e) == SetDoor(st, id, at, false); Known(evs, [], id, []);
    case _ =>
  }

  // ----- actors -----

  lemma {:induction false} ActorTaken(evs: seq<Envelope>, e: Envelope)
    requires Replay(evs).Some? && e.payload.ActorAdded?
    ensures Accepts(evs, e) <==>
              && e.payload.actor.Some?
              && var a := e.payload.actor.value;
                 && LastKind(evs, a.id).None? && Sized(a.id, 1, 128) && a.controllerId == [] && a.controllerIds == []
                 && |a.name| <= 256 && |a.moduleId| <= 128
                 && (forall k :: k in a.resources ==> Sized(k, 1, 128)) && (forall k :: k in a.attributes ==> Sized(k, 1, 128))
  {
    hide Replay, LastKind;
    var st := Replay(evs).value;
    assert Step(st, e) == AddActor(st, e.payload);
    if e.payload.actor.Some? { Known(evs, e.payload.actor.value.id, [], []); }
  }

  lemma {:induction false} ControlTaken(evs: seq<Envelope>, e: Envelope)
    requires Replay(evs).Some?
    ensures e.payload.ActorControlGranted? || e.payload.ActorControlRevoked? ==>
              (Accepts(evs, e) <==> LastKind(evs, e.payload.actorId).Some? && Sized(e.payload.participantId, 1, 128))
  {
    hide Replay, LastKind, MirrorControl, Without;
    var st, p := Replay(evs).value, e.payload;
    match p
    case ActorControlGranted(id, _, _) => assert Step(st, e) == GrantControl(st, p); Known(evs, id, [], []);
    case ActorControlRevoked(id, _) => assert Step(st, e) == RevokeControl(st, p); Known(evs, id, [], []);
    case _ =>
  }

  /** No token stands for an actor. */
  ghost predicate NoneStands(evs: seq<Envelope>, actor: Text) {
    forall token: Text :: LastToken(evs, token).Some? ==> LastToken(evs, token).value.actorId != actor
  }

  lemma {:induction false} ActorLeaves(evs: seq<Envelope>, e: Envelope)
    requires Replay(evs).Some? && e.payload.ActorRemoved?
    ensures Accepts(evs, e) <==> LastKind(evs, e.payload.actorId).Some? && NoneStands(evs, e.payload.actorId)
  {
    hide Replay, LastKind, LastToken;
    var st, id := Replay(evs).value, e.payload.actorId;
    assert Step(st, e) == RemoveActor(st, id);
    Known(evs, id, [], []);
    forall token: Text ensures Get(st.tokens, token) == LastToken(evs, token) {
      Known(evs, id, [], token);
    }
    if HasToken(st, id) {
      var token :| token in st.tokens && st.tokens[token].actorId == id;
      assert Get(st.tokens, token) == LastToken(evs, token);
    }
  }

  /** A resource with a change made to it: not below 0, nor above a maximum there is. */
  predicate Lands(r: Resource, delta: int, now: int) {
    var sum := r.current + delta;
    if sum < 0 then now == 0 else if 0 < r.max < sum then now == r.max else now == sum
  }

  lemma {:induction false} ResourceTaken(evs: seq<Envelope>, e: Envelope)
    requires Replay(evs).Some? && e.payload.ResourceChanged?
    ensures Accepts(evs, e) <==>
              && LastResource(evs, e.payload.actorId, e.payload.resource).Some?
              && Lands(LastResource(evs, e.payload.actorId, e.payload.resource).value, e.payload.delta, e.payload.newValue)
  {
    hide Replay, LastResource, LastKind;
    var st := Replay(evs).value;
    assert Step(st, e) == ChangeResource(st, e.payload);
    ActorIsLastWord(evs, e.payload.actorId, e.payload.resource);
  }

  // ----- tokens -----

  lemma {:induction false} TokenPlacedTaken(evs: seq<Envelope>, e: Envelope)
    requires Replay(evs).Some? && e.payload.TokenPlaced?
    ensures Accepts(evs, e) <==>
              && LastToken(evs, e.payload.tokenId).None? && Sized(e.payload.tokenId, 1, 128)
              && MadeAs(evs, e.payload.tokenScene).Some? && LastKind(evs, e.payload.actorId).Some? && e.payload.position.Some?
  {
    hide Replay, LastKind, MadeAs, LastToken;
    var st := Replay(evs).value;
    assert Step(st, e) == PlaceToken(st, e.payload);
    Known(evs, e.payload.actorId, e.payload.tokenScene, e.payload.tokenId);
  }

  lemma {:induction false} TokenTaken(evs: seq<Envelope>, e: Envelope)
    requires Replay(evs).Some?
    ensures e.payload.TokenDescribed? || e.payload.TokenRemoved? ==>
              (Accepts(evs, e) <==> LastToken(evs, e.payload.tokenId).Some?)
    ensures e.payload.TokenMoved? ==>
              (Accepts(evs, e) <==>
                && LastToken(evs, e.payload.tokenId).Some? && e.payload.to.Some?
                && |e.payload.reason| <= 256 && Sized(e.payload.moveScene, 1, 128))
    ensures e.payload.TokenHidden? ==> Accepts(evs, e)
  {
    hide Replay, LastToken;
    var st, p := Replay(evs).value, e.payload;
    match p
    case TokenDescribed(id, _, _, _, _) => assert Step(st, e) == DescribeToken(st, p); Known(evs, [], [], id);
    case TokenMoved(id, _, _, _) => assert Step(st, e) == MoveToken(st, p); Known(evs, [], [], id);
    case TokenRemoved(id) => assert Step(st, e) == RemoveToken(st, id); Known(evs, [], [], id);
    case _ =>
  }

  // ----- conditions -----

  lemma {:induction false} ConditionTaken(evs: seq<Envelope>, e: Envelope)
    requires Replay(evs).Some?
    ensures e.payload.ConditionApplied? ==>
              (Accepts(evs, e) <==>
                && LastKind(evs, e.payload.actorId).Some? && Sized(e.payload.conditionId, 1, 128)
                && LastCondition(evs, e.payload.actorId, e.payload.conditionId).None?)
    ensures e.payload.ConditionRemoved? ==>
              (Accepts(evs, e) <==>
                && LastKind(evs, e.payload.actorId).Some?
                && LastCondition(evs, e.payload.actorId, e.payload.conditionId).Some?)
  {
    hide Replay, LastKind, LastCondition, ConditionsOf, ConditionIndex;
    var st, p := Replay(evs).value, e.payload;
    match p
    case ConditionApplied(id, condition, _) =>
      assert Step(st, e) == ApplyCondition(st, e);
      Known(evs, id, [], []);
      ConditionIsLastWord(evs, id, condition);
    case ConditionRemoved(id, condition) =>
      assert Step(st, e) == RemoveCondition(st, p);
      Known(evs, id, [], []);
      ConditionIsLastWord(evs, id, condition);
    case _ =>
  }

  // ----- what is said -----

  lemma {:induction false} WhisperTaken(evs: seq<Envelope>, e: Envelope)
    requires Replay(evs).Some? && e.payload.WhisperAdded?
    ensures Accepts(evs, e) <==>
              && Sized(e.payload.text, 1, 8192)
              && (forall id :: id in e.payload.toActorIds ==> LastKind(evs, id).Some?)
              && (e.payload.fromActorId == [] || LastKind(evs, e.payload.fromActorId).Some?)
  {
    hide Replay, LastKind;
    var st := Replay(evs).value;
    assert Step(st, e) == Whisper(st, e.payload);
    forall id | id in e.payload.toActorIds || id == e.payload.fromActorId ensures id in st.actors <==> LastKind(evs, id).Some? {
      Known(evs, id, [], []);
    }
  }

  /** A narration anchors nothing, or a range of entries before its own. */
  lemma {:induction false} NarrationTaken(evs: seq<Envelope>, e: Envelope)
    requires Replay(evs).Some? && e.payload.NarrationAdded?
    ensures Accepts(evs, e) <==>
              && Sized(e.payload.text, 1, 8192) && |e.payload.speaker| <= 256
              && var (from, to) := (e.payload.anchorFrom, e.payload.anchorTo);
                 if from == 0 || to == 0 then from == to else 0 < from <= to < e.sequence
  {
    hide Replay;
    assert Step(Replay(evs).value, e) == Narrate(Replay(evs).value, e);
  }

  lemma {:induction false} NoteTaken(evs: seq<Envelope>, e: Envelope)
    requires Replay(evs).Some?
    ensures e.payload.NoteUpserted? ==>
              (Accepts(evs, e) <==> Sized(e.payload.key, 1, 128) && |e.payload.title| <= 256 && Sized(e.payload.text, 1, 8192))
    ensures e.payload.NoteDeleted? ==> (Accepts(evs, e) <==> LastNote(evs, e.payload.key).Some?)
  {
    hide Replay, LastNote;
    var st, p := Replay(evs).value, e.payload;
    match p
    case NoteUpserted(_, _, _, _) => assert Step(st, e) == UpsertNote(st, e);
    case NoteDeleted(key) =>
      assert Step(st, e) == DeleteNote(st, key);
      NoteIsLastWord(evs, key);
    case _ =>
  }

  lemma {:induction false} TestimonyTaken(evs: seq<Envelope>, e: Envelope)
    requires Replay(evs).Some?
    ensures e.payload.AttackRolled? ==> Accepts(evs, e)
    ensures e.payload.AbilityUsed? ==> (Accepts(evs, e) <==> Sized(e.payload.abilityId, 1, 128))
    ensures e.payload.AdventureLoaded? ==>
              (Accepts(evs, e) <==> Sized(e.payload.adventureId, 1, 128) && |e.payload.adventureName| <= 256)
  {
    hide Replay;
  }
}
