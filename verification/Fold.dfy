/** The fold: how one event advances the derived state (internal/engine/apply.go),
    on values. `Step` is what the server's Apply, on its heap, is proved to do,
    and what the browser's fold is proved to agree with. */
module Fold {
  import opened Contract
  import GridKey

  datatype SceneObject = SceneObject(id: Text, kind: Text, x: int32, y: int32, width: int32, height: int32,
                                     rotation: int32, blocksSight: bool, blocksMove: bool, art: Text)

  /** `explored` and `visible` are None until a SceneSeen reaches the scene. */
  datatype Scene = Scene(id: Text, name: Text, gridWidth: int32, gridHeight: int32,
                         tiles: map<Text, TileRef>, objects: seq<SceneObject>, openDoors: map<Text, bool>,
                         explored: Option<map<Text, bool>>, visible: Option<map<Text, bool>>)

  datatype Token = Token(id: Text, sceneId: Text, actorId: Text, x: int32, y: int32,
                         name: Text, notes: Text, gmName: Text, gmNotes: Text)

  /** endSeq 0 is an open session. */
  datatype Session = Session(id: Text, name: Text, startSeq: int, endSeq: int)

  datatype Condition = Condition(id: Text, source: Text, appliedSeq: int)

  datatype Note = Note(title: Text, text: Text, updatedSeq: int, visibility: int32)

  datatype State = State(scenes: map<Text, Scene>, actors: map<Text, Actor>, tokens: map<Text, Token>,
                         sessions: seq<Session>, conditions: map<Text, seq<Condition>>, notes: map<Text, Note>)

  const NewState: State := State(map[], map[], map[], [], map[], map[])

  datatype Outcome = Accepted(st: State) | Refused | UnknownVariant

  const MAX_NOTE_KEY := 128
  const MAX_NOTE_TITLE := 256
  const MAX_TEXT := 8192
  const MAX_SPEAKER := 256
  const MAX_REASON := 256
  const MAX_NAME := 256
  const MAX_ID := 128

  predicate IdOk(t: Text) { 1 <= |t| <= MAX_ID }
  predicate NameOk(t: Text) { |t| <= MAX_NAME }
  predicate TextOk(t: Text) { 1 <= |t| <= MAX_TEXT }

  predicate IsOpen(s: Session) { s.endSeq == 0 }

  /** The first open session's index, or |sessions| when there is none. */
  function OpenIndex(sessions: seq<Session>): (i: nat)
    ensures i <= |sessions|
    ensures i < |sessions| ==> IsOpen(sessions[i])
    ensures forall j :: 0 <= j < i ==> !IsOpen(sessions[j])
  {
    if sessions == [] || IsOpen(sessions[0]) then 0 else 1 + OpenIndex(sessions[1..])
  }

  function OpenSession(st: State): Option<Session> {
    var i := OpenIndex(st.sessions);
    if i < |st.sessions| then Some(st.sessions[i]) else None
  }

  function FromRef(o: ObjectRef): SceneObject {
    SceneObject(o.id, o.kind, if o.at.Some? then o.at.value.x else 0, if o.at.Some? then o.at.value.y else 0,
                o.width, o.height, o.rotation, o.blocksSight, o.blocksMove, o.art)
  }

  function FromRefs(os: seq<ObjectRef>): (r: seq<SceneObject>)
    ensures |r| == |os| && forall i :: 0 <= i < |os| ==> r[i] == FromRef(os[i])
  {
    seq(|os|, i requires 0 <= i < |os| => FromRef(os[i]))
  }

  predicate DistinctRefs(os: seq<ObjectRef>) {
    forall i, j :: 0 <= i < j < |os| ==> os[i].id != os[j].id
  }

  predicate UniqueObjects(os: seq<SceneObject>) {
    forall i, j :: 0 <= i < j < |os| ==> os[i].id != os[j].id
  }

  predicate KeysOk<V>(m: map<Text, V>) { forall k :: k in m ==> IdOk(k) }

  /** The last object of this id, or -1. */
  function LastIndex(os: seq<SceneObject>, id: Text): (i: int)
    ensures -1 <= i < |os|
    ensures i >= 0 ==> os[i].id == id
    ensures forall j :: i < j < |os| ==> os[j].id != id
  {
    if os == [] then -1
    else if os[|os| - 1].id == id then |os| - 1
    else LastIndex(os[..|os| - 1], id)
  }

  /** One object of a SceneSeen: it replaces the object of its id, or is new. */
  function MergeOne(have: seq<SceneObject>, o: SceneObject): seq<SceneObject> {
    var i := LastIndex(have, o.id);
    if i >= 0 then have[i := o] else have + [o]
  }

  function Merge(have: seq<SceneObject>, incoming: seq<ObjectRef>): seq<SceneObject> {
    if incoming == [] then have
    else MergeOne(Merge(have, incoming[..|incoming| - 1]), FromRef(incoming[|incoming| - 1]))
  }

  function TrueOn(keys: set<Text>): map<Text, bool> { map k | k in keys :: true }

  function Elements<T>(s: seq<T>): set<T> { set x | x in s }

  function Without(ids: seq<Text>, id: Text): seq<Text> {
    if ids == [] then []
    else if ids[|ids| - 1] == id then Without(ids[..|ids| - 1], id)
    else Without(ids[..|ids| - 1], id) + [ids[|ids| - 1]]
  }

  /** controller_id is the first controller, or empty when there is none. */
  function MirrorControl(a: Actor, ids: seq<Text>): Actor {
    a.(controllerIds := ids, controllerId := if ids == [] then [] else ids[0])
  }

  /** The first condition of this id, or |cs|. */
  function ConditionIndex(cs: seq<Condition>, id: Text): (i: nat)
    ensures i <= |cs|
    ensures i < |cs| ==> cs[i].id == id
    ensures forall j :: 0 <= j < i ==> cs[j].id != id
  {
    if cs == [] || cs[0].id == id then 0 else 1 + ConditionIndex(cs[1..], id)
  }

  function ConditionsOf(st: State, id: Text): seq<Condition> {
    if id in st.conditions then st.conditions[id] else []
  }

  /** A resource after a change: never below 0, never above a positive maximum. */
  function Clamp(r: Resource, delta: int32): int {
    var sum := r.current + delta;
    var floored := if sum < 0 then 0 else sum;
    if r.max > 0 && floored > r.max then r.max else floored
  }

  predicate AnchorOk(from: int, to: int, own: int) {
    (from == 0 && to == 0) || 1 <= from <= to < own
  }

  // ----- one function an arm of the switch -----

  function StartSession(st: State, env: Envelope): Outcome
    requires env.payload.SessionStarted?
  {
    var name := env.payload.sessionName;
    if OpenSession(st).Some? || !NameOk(name) || !IdOk(env.sessionId) then Refused
    else Accepted(st.(sessions := st.sessions + [Session(env.sessionId, name, env.sequence, 0)]))
  }

  function EndSession(st: State, env: Envelope): Outcome {
    var i := OpenIndex(st.sessions);
    if i == |st.sessions| then Refused
    else Accepted(st.(sessions := st.sessions[i := st.sessions[i].(endSeq := env.sequence)]))
  }

  function CreateScene(st: State, p: Payload): Outcome
    requires p.SceneCreated?
  {
    if !IdOk(p.sceneId) || p.sceneId in st.scenes || !NameOk(p.sceneName)
       || (exists o :: o in p.objects && !IdOk(o.id)) || !DistinctRefs(p.objects) then Refused
    else Accepted(st.(scenes := st.scenes[p.sceneId :=
      Scene(p.sceneId, p.sceneName, p.gridWidth, p.gridHeight, p.tiles, FromRefs(p.objects), map[], None, None)]))
  }

  function AddActor(st: State, p: Payload): Outcome
    requires p.ActorAdded?
  {
    if p.actor.None? then Refused
    else
      var a := p.actor.value;
      if !IdOk(a.id) || a.id in st.actors || a.controllerId != [] || a.controllerIds != [] || !NameOk(a.name)
         || |a.moduleId| > MAX_ID || !KeysOk(a.resources) || !KeysOk(a.attributes) then Refused
      else Accepted(st.(actors := st.actors[a.id := a]))
  }

  predicate ControlTarget(st: State, actorId: Text, participantId: Text) {
    IdOk(participantId) && actorId in st.actors
  }

  function GrantControl(st: State, p: Payload): Outcome
    requires p.ActorControlGranted?
  {
    if !ControlTarget(st, p.actorId, p.participantId) then Refused
    else
      var a := st.actors[p.actorId];
      var kinded := if p.kind != KIND_UNSPECIFIED then a.(kind := p.kind) else a;
      var granted := if p.participantId in a.controllerIds then kinded
                     else MirrorControl(kinded, a.controllerIds + [p.participantId]);
      Accepted(st.(actors := st.actors[p.actorId := granted]))
  }

  function RevokeControl(st: State, p: Payload): Outcome
    requires p.ActorControlRevoked?
  {
    if !ControlTarget(st, p.actorId, p.participantId) then Refused
    else
      var a := st.actors[p.actorId];
      Accepted(st.(actors := st.actors[p.actorId := MirrorControl(a, Without(a.controllerIds, p.participantId))]))
  }

  function PlaceToken(st: State, p: Payload): Outcome
    requires p.TokenPlaced?
  {
    if !IdOk(p.tokenId) || p.tokenId in st.tokens || p.tokenScene !in st.scenes || p.actorId !in st.actors
       || p.position.None? then Refused
    else Accepted(st.(tokens := st.tokens[p.tokenId :=
      Token(p.tokenId, p.tokenScene, p.actorId, p.position.value.x, p.position.value.y,
            p.name, p.notes, p.gmName, p.gmNotes)]))
  }

  function DescribeToken(st: State, p: Payload): Outcome
    requires p.TokenDescribed?
  {
    if p.tokenId !in st.tokens then Refused
    else Accepted(st.(tokens := st.tokens[p.tokenId :=
      st.tokens[p.tokenId].(name := p.name, notes := p.notes, gmName := p.gmName, gmNotes := p.gmNotes)]))
  }

  function MoveToken(st: State, p: Payload): Outcome
    requires p.TokenMoved?
  {
    if p.tokenId !in st.tokens || p.to.None? || |p.reason| > MAX_REASON || !IdOk(p.moveScene) then Refused
    else Accepted(st.(tokens := st.tokens[p.tokenId :=
      st.tokens[p.tokenId].(x := p.to.value.x, y := p.to.value.y)]))
  }

  function RemoveToken(st: State, id: Text): Outcome {
    if id !in st.tokens then Refused else Accepted(st.(tokens := st.tokens - {id}))
  }

  predicate HasToken(st: State, actorId: Text) {
    exists t :: t in st.tokens && st.tokens[t].actorId == actorId
  }

  function RemoveActor(st: State, id: Text): Outcome {
    if id !in st.actors || HasToken(st, id) then Refused
    else Accepted(st.(actors := st.actors - {id}, conditions := st.conditions - {id}))
  }

  function SetDoor(st: State, scene: Text, at: Option<Position>, open: bool): Outcome {
    if scene !in st.scenes || at.None? then Refused
    else
      var sc := st.scenes[scene];
      var key := GridKey.Key(at.value.x, at.value.y);
      var doors := if open then sc.openDoors[key := true] else sc.openDoors - {key};
      Accepted(st.(scenes := st.scenes[scene := sc.(openDoors := doors)]))
  }

  function ChangeResource(st: State, p: Payload): Outcome
    requires p.ResourceChanged?
  {
    if p.actorId !in st.actors || p.resource !in st.actors[p.actorId].resources then Refused
    else
      var a := st.actors[p.actorId];
      var r := a.resources[p.resource];
      if Clamp(r, p.delta) != p.newValue then Refused
      else Accepted(st.(actors := st.actors[p.actorId :=
        a.(resources := a.resources[p.resource := Resource(p.newValue, r.max)])]))
  }

  function ApplyCondition(st: State, env: Envelope): Outcome
    requires env.payload.ConditionApplied?
  {
    var p := env.payload;
    var held := ConditionsOf(st, p.actorId);
    if !IdOk(p.conditionId) || p.actorId !in st.actors || ConditionIndex(held, p.conditionId) < |held| then Refused
    else Accepted(st.(conditions := st.conditions[p.actorId :=
      held + [Condition(p.conditionId, p.source, env.sequence)]]))
  }

  function RemoveCondition(st: State, p: Payload): Outcome
    requires p.ConditionRemoved?
  {
    var held := ConditionsOf(st, p.actorId);
    var i := ConditionIndex(held, p.conditionId);
    if p.actorId !in st.actors || i == |held| then Refused
    else Accepted(st.(conditions := st.conditions[p.actorId := held[..i] + held[i + 1..]]))
  }

  function Narrate(st: State, env: Envelope): Outcome
    requires env.payload.NarrationAdded?
  {
    var p := env.payload;
    if !TextOk(p.text) || |p.speaker| > MAX_SPEAKER || !AnchorOk(p.anchorFrom, p.anchorTo, env.sequence) then Refused
    else Accepted(st)
  }

  function Whisper(st: State, p: Payload): Outcome
    requires p.WhisperAdded?
  {
    if !TextOk(p.text) || (exists id :: id in p.toActorIds && id !in st.actors)
       || (p.fromActorId != [] && p.fromActorId !in st.actors) then Refused
    else Accepted(st)
  }

  function UpsertNote(st: State, env: Envelope): Outcome
    requires env.payload.NoteUpserted?
  {
    var p := env.payload;
    if !(1 <= |p.key| <= MAX_NOTE_KEY) || |p.title| > MAX_NOTE_TITLE || !TextOk(p.text) then Refused
    else Accepted(st.(notes := st.notes[p.key := Note(p.title, p.text, env.sequence, p.visibility)]))
  }

  function DeleteNote(st: State, key: Text): Outcome {
    if key !in st.notes then Refused else Accepted(st.(notes := st.notes - {key}))
  }

  /** A scene after a SceneSeen: terrain unioned, sight replaced. */
  function Seen(sc: Scene, p: Payload): Scene
    requires p.SceneSeen?
  {
    var explored := if sc.explored.Some? then sc.explored.value else map[];
    sc.(visible := Some(TrueOn(Elements(p.visibleSquares))), tiles := sc.tiles + p.seenTiles,
        explored := Some(explored + TrueOn(p.seenTiles.Keys)), objects := Merge(sc.objects, p.seenObjects))
  }

  function SeeScene(st: State, p: Payload): Outcome
    requires p.SceneSeen?
  {
    if p.seenScene !in st.scenes then Refused
    else Accepted(st.(scenes := st.scenes[p.seenScene := Seen(st.scenes[p.seenScene], p)]))
  }

  /** One event: accepted with the state after it, refused, or of no known kind. */
  function Step(st: State, env: Envelope): Outcome {
    var p := env.payload;
    match p
    case NoPayload => UnknownVariant
    case SessionStarted(_) => StartSession(st, env)
    case SessionEnded => EndSession(st, env)
    case SceneCreated(_, _, _, _, _, _) => CreateScene(st, p)
    case ActorAdded(_) => AddActor(st, p)
    case ActorControlGranted(_, _, _) => GrantControl(st, p)
    case ActorControlRevoked(_, _) => RevokeControl(st, p)
    case TokenPlaced(_, _, _, _, _, _, _, _) => PlaceToken(st, p)
    case TokenDescribed(_, _, _, _, _) => DescribeToken(st, p)
    case TokenMoved(_, _, _, _) => MoveToken(st, p)
    case TokenRemoved(id) => RemoveToken(st, id)
    case ActorRemoved(id) => RemoveActor(st, id)
    case DoorOpened(scene, at) => SetDoor(st, scene, at, true)
    case DoorClosed(scene, at) => SetDoor(st, scene, at, false)
    case AttackRolled => Accepted(st)
    case AbilityUsed(id) => if IdOk(id) then Accepted(st) else Refused
    case AdventureLoaded(id, name) => if IdOk(id) && NameOk(name) then Accepted(st) else Refused
    case ResourceChanged(_, _, _, _) => ChangeResource(st, p)
    case ConditionApplied(_, _, _) => ApplyCondition(st, env)
    case ConditionRemoved(_, _) => RemoveCondition(st, p)
    case NarrationAdded(_, _, _, _) => Narrate(st, env)
    case WhisperAdded(_, _, _) => Whisper(st, p)
    case NoteUpserted(_, _, _, _) => UpsertNote(st, env)
    case NoteDeleted(key) => DeleteNote(st, key)
    case TokenHidden(id) => Accepted(st.(tokens := st.tokens - {id}))
    case SceneSeen(_, _, _, _) => SeeScene(st, p)
  }

  // ----- whole streams -----

  /** Every event must be accepted: how a batch is validated and frames are tried. */
  function Strict(st: State, evs: seq<Envelope>): Option<State> {
    if evs == [] then Some(st)
    else match Strict(st, evs[..|evs| - 1])
      case None => None
      case Some(mid) =>
        match Step(mid, evs[|evs| - 1])
        case Accepted(next) => Some(next)
        case _ => None
  }

  /** One event of a replay, which skips a payload of no known kind. */
  function Replay1(st: State, env: Envelope): Option<State> {
    match Step(st, env)
    case Accepted(next) => Some(next)
    case UnknownVariant => Some(st)
    case Refused => None
  }

  /** Replay of a whole log from nothing. */
  function Replay(evs: seq<Envelope>): Option<State> {
    if evs == [] then Some(NewState)
    else match Replay(evs[..|evs| - 1])
      case None => None
      case Some(mid) => Replay1(mid, evs[|evs| - 1])
  }

  lemma {:induction false} StrictConcat(st: State, a: seq<Envelope>, b: seq<Envelope>)
    ensures Strict(st, a + b) == (if Strict(st, a).None? then None else Strict(Strict(st, a).value, b))
  {
    if b == [] {
      assert a + b == a;
    } else {
      StrictConcat(st, a, b[..|b| - 1]);
      assert (a + b)[..|a + b| - 1] == a + b[..|b| - 1];
    }
  }

  lemma {:induction false} StrictOne(st: State, e: Envelope)
    ensures Strict(st, [e]) == (match Step(st, e) case Accepted(s) => Some(s) case _ => None)
  {
    assert [e][..0] == [];
    assert Strict(st, []) == Some(st);
  }

  /** A log every event of which was accepted replays to the same state. */
  lemma {:induction false} StrictReplays(evs: seq<Envelope>)
    requires Strict(NewState, evs).Some?
    ensures Replay(evs) == Strict(NewState, evs)
  {
    if evs != [] {
      StrictReplays(evs[..|evs| - 1]);
    }
  }
}
