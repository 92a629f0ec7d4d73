/** The derived state is the log's last word: what a replayed state holds of doors,
    notes and sight is read off the log by looking for the last event about it. */
module LastWord {
  import opened Contract
  import opened Fold
  import GridKey

  predicate DoorStandsOpen(sc: Scene, x: int32, y: int32) {
    var key := GridKey.Key(x, y);
    key in sc.openDoors && sc.openDoors[key]
  }

  /** The square a door event names, if it is one. */
  function DoorNamed(p: Payload): Option<(Text, Position)> {
    match p
    case DoorOpened(scene, Some(at)) => Some((scene, at))
    case DoorClosed(scene, Some(at)) => Some((scene, at))
    case _ => None
  }

  /** Whether the last door event naming this square opened it. */
  predicate LastOpened(evs: seq<Envelope>, scene: Text, at: Position) {
    evs != [] &&
    var p := evs[|evs| - 1].payload;
    if DoorNamed(p) == Some((scene, at)) then p.DoorOpened? else LastOpened(evs[..|evs| - 1], scene, at)
  }

  /** A note's last upsert not followed by its delete. */
  function LastNote(evs: seq<Envelope>, key: Text): Option<Note> {
    if evs == [] then None
    else
      var e := evs[|evs| - 1];
      match e.payload
      case NoteUpserted(k, title, text, visibility) =>
        if k == key then Some(Note(title, text, e.sequence, visibility)) else LastNote(evs[..|evs| - 1], key)
      case NoteDeleted(k) => if k == key then None else LastNote(evs[..|evs| - 1], key)
      case _ => LastNote(evs[..|evs| - 1], key)
  }

  /** The squares the last SceneSeen of this scene calls visible. */
  function LastSight(evs: seq<Envelope>, scene: Text): Option<set<Text>> {
    if evs == [] then None
    else match evs[|evs| - 1].payload
      case SceneSeen(s, _, _, visible) => if s == scene then Some(set k | k in visible) else LastSight(evs[..|evs| - 1], scene)
      case _ => LastSight(evs[..|evs| - 1], scene)
  }

  /** The tile keys of every SceneSeen of this scene. */
  function EverSeen(evs: seq<Envelope>, scene: Text): Option<set<Text>> {
    if evs == [] then None
    else
      var before := EverSeen(evs[..|evs| - 1], scene);
      match evs[|evs| - 1].payload
      case SceneSeen(s, tiles, _, _) =>
        if s == scene then Some((if before.Some? then before.value else {}) + tiles.Keys) else before
      case _ => before
  }

  lemma {:induction false} OnlySceneEvents(st: State, env: Envelope)
    requires Step(st, env).Accepted?
    requires !env.payload.SceneCreated? && !env.payload.SceneSeen? && !env.payload.DoorOpened? && !env.payload.DoorClosed?
    ensures Step(st, env).st.scenes == st.scenes
  {
    hide IdOk, NameOk, TextOk, KeysOk, HasToken, ControlTarget, MirrorControl, Without, Clamp, OpenIndex, ConditionIndex;
    hide ConditionsOf, DistinctRefs, FromRefs, Seen, AnchorOk, GridKey.Key;
    match env.payload
    case ActorAdded(_) =>
    case ActorControlGranted(_, _, _) =>
    case ConditionApplied(_, _, _) =>
    case _ =>
  }

  predicate Unmade(sc: Scene) { sc.openDoors == map[] && sc.explored.None? && sc.visible.None? }

  /** An accepted event loses no scene, makes one blank, and changes the doors or
      the sight of the one it names alone. */
  lemma {:induction false} SceneFrame(st: State, env: Envelope, scene: Text)
    requires Step(st, env).Accepted?
    ensures scene in st.scenes ==> scene in Step(st, env).st.scenes
    ensures scene !in st.scenes && scene in Step(st, env).st.scenes ==>
              env.payload.SceneCreated? && Unmade(Step(st, env).st.scenes[scene])
    ensures scene in st.scenes && !(env.payload.SceneSeen? && env.payload.seenScene == scene) ==>
              && Step(st, env).st.scenes[scene].explored == st.scenes[scene].explored
              && Step(st, env).st.scenes[scene].visible == st.scenes[scene].visible
    ensures scene in st.scenes && !(DoorNamed(env.payload).Some? && DoorNamed(env.payload).value.0 == scene) ==>
              Step(st, env).st.scenes[scene].openDoors == st.scenes[scene].openDoors
  {
    var p := env.payload;
    match p
    case SceneCreated(_, _, _, _, _, _) => assert Step(st, env) == CreateScene(st, p);
    case SceneSeen(_, _, _, _) => assert Step(st, env) == SeeScene(st, p);
    case DoorOpened(s, at) => assert Step(st, env) == SetDoor(st, s, at, true);
    case DoorClosed(s, at) => assert Step(st, env) == SetDoor(st, s, at, false);
    case _ => OnlySceneEvents(st, env);
  }

  /** One event opens or closes the square it names and no other. */
  lemma {:induction false} DoorStep(st: State, e: Envelope, scene: Text, at: Position)
    requires Step(st, e).Accepted?
    ensures var now := Step(st, e).st.scenes;
            && (scene in st.scenes ==> scene in now)
            && (scene in now ==> (DoorStandsOpen(now[scene], at.x, at.y) <==>
                  if DoorNamed(e.payload) == Some((scene, at)) then e.payload.DoorOpened?
                  else scene in st.scenes && DoorStandsOpen(st.scenes[scene], at.x, at.y)))
            && (scene !in now ==> DoorNamed(e.payload) != Some((scene, at)))
  {
    hide GridKey.Key;
    SceneFrame(st, e, scene);
    var named := DoorNamed(e.payload);
    if named.Some? && named.value.0 == scene {
      assert Step(st, e) == SetDoor(st, scene, Some(named.value.1), e.payload.DoorOpened?);
      if named.value.1 != at && GridKey.Key(named.value.1.x, named.value.1.y) == GridKey.Key(at.x, at.y) {
        GridKey.KeyInjective(named.value.1.x, named.value.1.y, at.x, at.y);
      }
    }
  }

  /** A square is open exactly when the last door event naming it opened it;
      in a scene the log never made, no door event names anything. */
  lemma {:induction false} DoorIsLastWord(evs: seq<Envelope>, scene: Text, at: Position)
    requires Replay(evs).Some?
    ensures scene in Replay(evs).value.scenes ==>
              (DoorStandsOpen(Replay(evs).value.scenes[scene], at.x, at.y) <==> LastOpened(evs, scene, at))
    ensures scene !in Replay(evs).value.scenes ==> !LastOpened(evs, scene, at)
  {
    hide Step, DoorStandsOpen;
    if evs != [] {
      var init, e := evs[..|evs| - 1], evs[|evs| - 1];
      DoorIsLastWord(init, scene, at);
      var st := Replay(init).value;
      if Step(st, e).Accepted? {
        DoorStep(st, e, scene, at);
      } else {
        UnknownIsNothing(st, e);
      }
    }
  }

  lemma {:induction false} UnknownIsNothing(st: State, e: Envelope)
    ensures Step(st, e).UnknownVariant? <==> e.payload.NoPayload?
  {
  }

  predicate OfScenesOrActors(p: Payload) {
    p.SessionStarted? || p.SessionEnded? || p.SceneCreated? || p.SceneSeen? || p.ActorAdded? || p.ActorControlGranted?
    || p.ActorControlRevoked? || p.DoorOpened? || p.DoorClosed?
  }

  lemma {:induction false} SceneEventsKeepNotes(st: State, env: Envelope)
    requires Step(st, env).Accepted? && OfScenesOrActors(env.payload)
    ensures Step(st, env).st.notes == st.notes
  {
    hide IdOk, NameOk, TextOk, KeysOk, HasToken, ControlTarget, MirrorControl, Without, Clamp, OpenIndex, ConditionIndex;
    hide ConditionsOf, DistinctRefs, FromRefs, Seen, AnchorOk, GridKey.Key;
    var p := env.payload;
    match p
    case SessionStarted(_) => assert Step(st, env) == StartSession(st, env);
    case SessionEnded => assert Step(st, env) == EndSession(st, env);
    case SceneCreated(_, _, _, _, _, _) => assert Step(st, env) == CreateScene(st, p);
    case ActorAdded(_) => assert Step(st, env) == AddActor(st, p);
    case ActorControlGranted(_, _, _) => assert Step(st, env) == GrantControl(st, p);
    case ActorControlRevoked(_, _) => assert Step(st, env) == RevokeControl(st, p);
    case DoorOpened(s, at) => assert Step(st, env) == SetDoor(st, s, at, true);
    case DoorClosed(s, at) => assert Step(st, env) == SetDoor(st, s, at, false);
    case SceneSeen(_, _, _, _) => assert Step(st, env) == SeeScene(st, p);
    case _ =>
  }

  lemma {:induction false} OnlyNoteEvents(st: State, env: Envelope)
    requires Step(st, env).Accepted? && !env.payload.NoteUpserted? && !env.payload.NoteDeleted?
    ensures Step(st, env).st.notes == st.notes
  {
    hide IdOk, NameOk, TextOk, KeysOk, HasToken, ControlTarget, MirrorControl, Without, Clamp, OpenIndex, ConditionIndex;
    hide ConditionsOf, DistinctRefs, FromRefs, Seen, AnchorOk, GridKey.Key;
    hide StartSession, EndSession, CreateScene, AddActor, GrantControl, RevokeControl, SetDoor, SeeScene;
    var p := env.payload;
    if OfScenesOrActors(p) {
      SceneEventsKeepNotes(st, env);
    } else {
      match p
      case TokenPlaced(_, _, _, _, _, _, _, _) => assert Step(st, env) == PlaceToken(st, p);
      case ResourceChanged(_, _, _, _) => assert Step(st, env) == ChangeResource(st, p);
      case ConditionApplied(_, _, _) => assert Step(st, env) == ApplyCondition(st, env);
      case ConditionRemoved(_, _) => assert Step(st, env) == RemoveCondition(st, p);
      case _ =>
    }
  }

  /** A note is its last upsert not followed by a delete. */
  lemma {:induction false} NoteIsLastWord(evs: seq<Envelope>, key: Text)
    requires Replay(evs).Some?
    ensures var notes := Replay(evs).value.notes;
            LastNote(evs, key) == if key in notes then Some(notes[key]) else None
  {
    hide StartSession, EndSession, CreateScene, AddActor, GrantControl, RevokeControl, PlaceToken, DescribeToken, MoveToken,
         RemoveToken, RemoveActor, SetDoor, ChangeResource, ApplyCondition, RemoveCondition, Narrate, Whisper, SeeScene;
    if evs != [] {
      var init, e := evs[..|evs| - 1], evs[|evs| - 1];
      NoteIsLastWord(init, key);
      var st, p := Replay(init).value, e.payload;
      UnknownIsNothing(st, e);
      match p
      case NoteUpserted(_, _, _, _) => assert Step(st, e) == UpsertNote(st, e);
      case NoteDeleted(k) => assert Step(st, e) == DeleteNote(st, k);
      case NoPayload =>
      case _ => OnlyNoteEvents(st, e);
    }
  }

  /** A map marking exactly these squares, or none where there are none to mark. */
  predicate Marks(m: Option<map<Text, bool>>, s: Option<set<Text>>) {
    if s.None? then m.None? else m.Some? && m.value.Keys == s.value && forall k :: k in m.value ==> m.value[k]
  }

  lemma {:induction false} SeenMarks(sc: Scene, p: Payload, before: Option<set<Text>>)
    requires p.SceneSeen? && Marks(sc.explored, before)
    ensures Marks(Seen(sc, p).visible, Some(set k | k in p.visibleSquares))
    ensures Marks(Seen(sc, p).explored, Some((if before.Some? then before.value else {}) + p.seenTiles.Keys))
  {
  }

  lemma {:induction false} NothingMarked()
    ensures Marks(None, None)
  {
  }

  /** Visible is the last SceneSeen's squares and nothing before it; Explored is
      the union of the tile keys of all of them. */
  lemma {:induction false} SightIsLastWord(evs: seq<Envelope>, scene: Text)
    requires Replay(evs).Some?
    ensures scene in Replay(evs).value.scenes ==>
              var sc := Replay(evs).value.scenes[scene];
              && Marks(sc.visible, LastSight(evs, scene)) && Marks(sc.explored, EverSeen(evs, scene))
    ensures scene !in Replay(evs).value.scenes ==> LastSight(evs, scene).None? && EverSeen(evs, scene).None?
  {
    hide Step, Marks, Seen;
    if evs != [] {
      var init, e := evs[..|evs| - 1], evs[|evs| - 1];
      SightIsLastWord(init, scene);
      NothingMarked();
      var st, p := Replay(init).value, e.payload;
      UnknownIsNothing(st, e);
      if Step(st, e).Accepted? {
        SceneFrame(st, e, scene);
        if p.SceneSeen? && p.seenScene == scene {
          SeenOnly(st, e);
          SeenMarks(st.scenes[scene], p, EverSeen(init, scene));
        }
      }
    }
  }

  lemma {:induction false} SeenOnly(st: State, e: Envelope)
    requires Step(st, e).Accepted? && e.payload.SceneSeen?
    ensures var p := e.payload;
            p.seenScene in st.scenes && Step(st, e).st.scenes == st.scenes[p.seenScene := Seen(st.scenes[p.seenScene], p)]
  {
    assert Step(st, e) == SeeScene(st, e.payload);
  }
}
