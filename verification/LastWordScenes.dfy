/** The last word on a scene: its name and grid are those it was made with, each tile
    and each object the last one an event carried. */
module LastWordScenes {
  import opened Contract
  import opened Fold
  import LastWord
  import opened LastWordActors

  /** The object of an id among a scene's. */
  function ObjectIn(os: seq<SceneObject>, id: Text): Option<SceneObject> {
    var i := LastIndex(os, id);
    if i >= 0 then Some(os[i]) else None
  }

  /** The last object of an id an event carries. */
  function Carried(refs: seq<ObjectRef>, id: Text): Option<ObjectRef> {
    if refs == [] then None
    else if refs[|refs| - 1].id == id then Some(refs[|refs| - 1])
    else Carried(refs[..|refs| - 1], id)
  }

  /** A scene holds what an event carried: at its square, or at 0, 0 when it names none. */
  predicate Shows(o: SceneObject, r: ObjectRef) {
    && o.id == r.id && o.kind == r.kind && o.width == r.width && o.height == r.height && o.rotation == r.rotation
    && o.blocksSight == r.blocksSight && o.blocksMove == r.blocksMove && o.art == r.art
    && (if r.at.Some? then o.x == r.at.value.x && o.y == r.at.value.y else o.x == 0 && o.y == 0)
  }

  predicate Drawn(o: Option<SceneObject>, r: Option<ObjectRef>) {
    if r.None? then o.None? else o.Some? && Shows(o.value, r.value)
  }

  function Made(r: Option<ObjectRef>): Option<SceneObject> { if r.Some? then Some(FromRef(r.value)) else None }

  lemma {:induction false} DrawnIsMade(o: Option<SceneObject>, r: Option<ObjectRef>)
    ensures Drawn(o, r) <==> o == Made(r)
  {
  }

  lemma {:induction false} LastIndexIs(os: seq<SceneObject>, id: Text, i: int)
    requires -1 <= i < |os| && (i >= 0 ==> os[i].id == id) && forall j :: i < j < |os| ==> os[j].id != id
    ensures LastIndex(os, id) == i
  {
  }

  lemma {:induction false} MergeOneLooks(have: seq<SceneObject>, o: SceneObject, id: Text)
    ensures ObjectIn(MergeOne(have, o), id) == if o.id == id then Some(o) else ObjectIn(have, id)
  {
    var at, i := LastIndex(have, o.id), LastIndex(have, id);
    var r := MergeOne(have, o);
    if o.id == id {
      LastIndexIs(r, id, if at >= 0 then at else |have|);
    } else {
      LastIndexIs(r, id, i);
    }
  }

  lemma {:induction false} RefNamed(r: ObjectRef)
    ensures FromRef(r).id == r.id
  {
  }

  /** Merging answers, of any id, the last object carried or else the one held. */
  lemma {:induction false} MergeLooks(have: seq<SceneObject>, incoming: seq<ObjectRef>, id: Text)
    ensures ObjectIn(Merge(have, incoming), id) == if Carried(incoming, id).Some? then Made(Carried(incoming, id)) else ObjectIn(have, id)
  {
    hide MergeOne, ObjectIn, FromRef, LastIndex;
    if incoming != [] {
      var init := incoming[..|incoming| - 1];
      MergeLooks(have, init, id);
      MergeOneLooks(Merge(have, init), FromRef(incoming[|init|]), id);
      RefNamed(incoming[|init|]);
    }
  }

  /** Merging leaves every object held in its place and puts the new after them. */
  lemma {:induction false} MergeKeepsPlaces(have: seq<SceneObject>, incoming: seq<ObjectRef>)
    ensures |have| <= |Merge(have, incoming)| && forall i :: 0 <= i < |have| ==> Merge(have, incoming)[i].id == have[i].id
  {
    if incoming != [] {
      MergeKeepsPlaces(have, incoming[..|incoming| - 1]);
    }
  }

  lemma {:induction false} MadeLooks(refs: seq<ObjectRef>, id: Text)
    ensures ObjectIn(FromRefs(refs), id) == Made(Carried(refs, id))
  {
    if refs != [] {
      var init := refs[..|refs| - 1];
      MadeLooks(init, id);
      assert FromRefs(refs)[..|refs| - 1] == FromRefs(init);
    }
  }

  // ----- what the log says -----

  datatype Plan = Plan(name: Text, width: int32, height: int32)

  /** What a scene was made as. */
  function MadeAs(evs: seq<Envelope>, scene: Text): Option<Plan> {
    if evs == [] then None
    else
      match evs[|evs| - 1].payload
      case SceneCreated(id, name, w, h, _, _) => if id == scene then Some(Plan(name, w, h)) else MadeAs(evs[..|evs| - 1], scene)
      case _ => MadeAs(evs[..|evs| - 1], scene)
  }

  function LastTile(evs: seq<Envelope>, scene: Text, key: Text): Option<TileRef> {
    if evs == [] then None
    else
      var before := LastTile(evs[..|evs| - 1], scene, key);
      match evs[|evs| - 1].payload
      case SceneCreated(id, _, _, _, tiles, _) => if id == scene then Get(tiles, key) else before
      case SceneSeen(id, tiles, _, _) => if id == scene && key in tiles then Some(tiles[key]) else before
      case _ => before
  }

  function LastObject(evs: seq<Envelope>, scene: Text, thing: Text): Option<ObjectRef> {
    if evs == [] then None
    else
      var before := LastObject(evs[..|evs| - 1], scene, thing);
      match evs[|evs| - 1].payload
      case SceneCreated(id, _, _, _, _, objects) => if id == scene then Carried(objects, thing) else before
      case SceneSeen(id, _, objects, _) => if id == scene && Carried(objects, thing).Some? then Carried(objects, thing) else before
      case _ => before
  }

  // ----- what the state says -----

  function PlanOf(st: State, scene: Text): Option<Plan> {
    if scene in st.scenes then Some(Plan(st.scenes[scene].name, st.scenes[scene].gridWidth, st.scenes[scene].gridHeight)) else None
  }

  function TileOf(st: State, scene: Text, key: Text): Option<TileRef> {
    if scene in st.scenes then Get(st.scenes[scene].tiles, key) else None
  }

  function ObjectOf(st: State, scene: Text, thing: Text): Option<SceneObject> {
    if scene in st.scenes then ObjectIn(st.scenes[scene].objects, thing) else None
  }

  lemma {:induction false} MadeStep(st: State, p: Payload, scene: Text, key: Text, thing: Text)
    requires p.SceneCreated? && CreateScene(st, p).Accepted?
    ensures var r, new' := CreateScene(st, p).st, p.sceneId == scene;
            && PlanOf(r, scene) == (if new' then Some(Plan(p.sceneName, p.gridWidth, p.gridHeight)) else PlanOf(st, scene))
            && TileOf(r, scene, key) == (if new' then Get(p.tiles, key) else TileOf(st, scene, key))
            && ObjectOf(r, scene, thing) == (if new' then Made(Carried(p.objects, thing)) else ObjectOf(st, scene, thing))
  {
    hide ObjectIn, Carried, Made, FromRefs, DistinctRefs;
    MadeLooks(p.objects, thing);
  }

  lemma {:induction false} SeenStep(st: State, p: Payload, scene: Text, key: Text, thing: Text)
    requires p.SceneSeen? && SeeScene(st, p).Accepted?
    ensures var r, seen := SeeScene(st, p).st, p.seenScene == scene;
            && PlanOf(r, scene) == PlanOf(st, scene)
            && TileOf(r, scene, key) == (if seen && key in p.seenTiles then Some(p.seenTiles[key]) else TileOf(st, scene, key))
            && ObjectOf(r, scene, thing) ==
                 (if seen && Carried(p.seenObjects, thing).Some? then Made(Carried(p.seenObjects, thing)) else ObjectOf(st, scene, thing))
  {
    hide ObjectIn, Carried, Made, Merge, TrueOn, Elements;
    MergeLooks(st.scenes[p.seenScene].objects, p.seenObjects, thing);
  }

  lemma {:induction false} DoorKeeps(st: State, s: Text, at: Option<Position>, open: bool, scene: Text, key: Text, thing: Text)
    requires SetDoor(st, s, at, open).Accepted?
    ensures var r := SetDoor(st, s, at, open).st;
            && PlanOf(r, scene) == PlanOf(st, scene) && TileOf(r, scene, key) == TileOf(st, scene, key)
            && ObjectOf(r, scene, thing) == ObjectOf(st, scene, thing)
  {
    hide ObjectIn;
  }

  lemma {:induction false} SameScenes(st: State, r: State, scene: Text, key: Text, thing: Text)
    requires r.scenes == st.scenes
    ensures PlanOf(r, scene) == PlanOf(st, scene) && TileOf(r, scene, key) == TileOf(st, scene, key)
    ensures ObjectOf(r, scene, thing) == ObjectOf(st, scene, thing)
  {
  }

  lemma {:induction false} SceneStep(st: State, e: Envelope, scene: Text, key: Text, thing: Text)
    requires Step(st, e).Accepted?
    ensures PlanOf(Step(st, e).st, scene) ==
              match e.payload
              case SceneCreated(id, name, w, h, _, _) => if id == scene then Some(Plan(name, w, h)) else PlanOf(st, scene)
              case _ => PlanOf(st, scene)
    ensures TileOf(Step(st, e).st, scene, key) ==
              match e.payload
              case SceneCreated(id, _, _, _, tiles, _) => if id == scene then Get(tiles, key) else TileOf(st, scene, key)
              case SceneSeen(id, tiles, _, _) => if id == scene && key in tiles then Some(tiles[key]) else TileOf(st, scene, key)
              case _ => TileOf(st, scene, key)
    ensures ObjectOf(Step(st, e).st, scene, thing) ==
              match e.payload
              case SceneCreated(id, _, _, _, _, objects) => if id == scene then Made(Carried(objects, thing)) else ObjectOf(st, scene, thing)
              case SceneSeen(id, _, objects, _) =>
                if id == scene && Carried(objects, thing).Some? then Made(Carried(objects, thing)) else ObjectOf(st, scene, thing)
              case _ => ObjectOf(st, scene, thing)
  {
    hide PlanOf, TileOf, ObjectOf, Carried, Made, StartSession, EndSession, CreateScene, AddActor, GrantControl, RevokeControl, PlaceToken,
         DescribeToken, MoveToken, RemoveToken, RemoveActor, SetDoor, ChangeResource, ApplyCondition, RemoveCondition,
         Narrate, Whisper, UpsertNote, DeleteNote, SeeScene;
    var p := e.payload;
    match p
    case SceneCreated(_, _, _, _, _, _) => MadeStep(st, p, scene, key, thing);
    case SceneSeen(_, _, _, _) => SeenStep(st, p, scene, key, thing);
    case DoorOpened(s, at) => DoorKeeps(st, s, at, true, scene, key, thing);
    case DoorClosed(s, at) => DoorKeeps(st, s, at, false, scene, key, thing);
    case NoPayload =>
    case _ =>
      LastWord.OnlySceneEvents(st, e);
      SameScenes(st, Step(st, e).st, scene, key, thing);
  }

  /** A scene keeps the name and grid it was made with; each square's tile, and each
      object, is the last one an event carried for it. */
  lemma {:induction false} SceneIsLastWord(evs: seq<Envelope>, scene: Text, key: Text, thing: Text)
    requires Replay(evs).Some?
    ensures PlanOf(Replay(evs).value, scene) == MadeAs(evs, scene)
    ensures TileOf(Replay(evs).value, scene, key) == LastTile(evs, scene, key)
    ensures Drawn(ObjectOf(Replay(evs).value, scene, thing), LastObject(evs, scene, thing))
  {
    hide Step, PlanOf, TileOf, ObjectOf, Drawn, Carried, FromRef;
    DrawnIsMade(ObjectOf(Replay(evs).value, scene, thing), LastObject(evs, scene, thing));
    if evs == [] {
      NoScene(scene, key, thing);
    } else {
      var init, e := evs[..|evs| - 1], evs[|evs| - 1];
      SceneIsLastWord(init, scene, key, thing);
      DrawnIsMade(ObjectOf(Replay(init).value, scene, thing), LastObject(init, scene, thing));
      LastWord.UnknownIsNothing(Replay(init).value, e);
      if Step(Replay(init).value, e).Accepted? {
        SceneStep(Replay(init).value, e, scene, key, thing);
      }
    }
  }

  lemma {:induction false} NoScene(scene: Text, key: Text, thing: Text)
    ensures PlanOf(NewState, scene).None? && TileOf(NewState, scene, key).None? && ObjectOf(NewState, scene, thing).None?
  {
  }
}
