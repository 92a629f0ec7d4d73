/** The browser's fold (client/src/fold.ts), which re-implements the server's in
    another style, proved to accept exactly the same streams and to end in the
    same state. */
module ClientFold {
  import opened Contract
  import Fold
  import GridKey
  import FoldInvariants
  import LastWord

  /** state.ts's Scene: explored starts empty rather than absent. */
  datatype Scene = Scene(id: Text, name: Text, gridWidth: int32, gridHeight: int32,
                         tiles: map<Text, TileRef>, objects: seq<Fold.SceneObject>, openDoors: map<Text, bool>,
                         explored: map<Text, bool>, visible: Option<map<Text, bool>>)

  /** A server scene as the browser holds it; its dump omits an explored map that is
      empty as the server's omits one that is null. */
  function Mirror(sc: Fold.Scene): Scene {
    Scene(sc.id, sc.name, sc.gridWidth, sc.gridHeight, sc.tiles, sc.objects, sc.openDoors,
          if sc.explored.Some? then sc.explored.value else map[], sc.visible)
  }

  function MirrorAll(scenes: map<Text, Fold.Scene>): map<Text, Scene> {
    map k | k in scenes :: Mirror(scenes[k])
  }

  predicate AllUnique(st: Fold.State) {
    forall k :: k in st.scenes ==> Fold.UniqueObjects(st.scenes[k].objects)
  }

  predicate LenOk(s: Text, min: int, max: int) { min <= |s| <= max }

  // ----- array helpers, as the language's library has them -----

  method FindIndex(os: seq<Fold.SceneObject>, id: Text) returns (i: int)
    ensures -1 <= i < |os|
    ensures i >= 0 ==> os[i].id == id && forall j :: 0 <= j < i ==> os[j].id != id
    ensures i == -1 ==> forall j :: 0 <= j < |os| ==> os[j].id != id
  {
    i := 0;
    while i < |os|
      invariant 0 <= i <= |os| && forall j :: 0 <= j < i ==> os[j].id != id
    {
      if os[i].id == id {
        return;
      }
      i := i + 1;
    }
    i := -1;
  }

  /** Merging by the first index agrees with merging by the last while ids are unique. */
  method MergeAll(have: seq<Fold.SceneObject>, incoming: seq<ObjectRef>) returns (r: seq<Fold.SceneObject>)
    requires Fold.UniqueObjects(have)
    ensures r == Fold.Merge(have, incoming)
  {
    r := have;
    var k := 0;
    while k < |incoming|
      invariant 0 <= k <= |incoming| && r == Fold.Merge(have, incoming[..k]) && Fold.UniqueObjects(r)
    {
      assert incoming[..k + 1][..k] == incoming[..k];
      FoldInvariants.MergeUnique(have, incoming[..k + 1]);
      var got := Fold.FromRef(incoming[k]);
      var i := FindIndex(r, got.id);
      if i >= 0 {
        assert Fold.LastIndex(r, got.id) == i;
        r := r[i := got];
      } else {
        r := r + [got];
      }
      k := k + 1;
    }
    assert incoming[..k] == incoming;
  }

  method CheckObjects(os: seq<ObjectRef>) returns (ok: bool)
    ensures ok <==> (forall o :: o in os ==> Fold.IdOk(o.id)) && Fold.DistinctRefs(os)
  {
    var ids: set<Text> := {};
    var i := 0;
    while i < |os|
      invariant 0 <= i <= |os| && ids == set o | o in os[..i] :: o.id
      invariant (forall o :: o in os[..i] ==> Fold.IdOk(o.id)) && Fold.DistinctRefs(os[..i])
    {
      if !LenOk(os[i].id, 1, 128) {
        return false;
      }
      if os[i].id in ids {
        ghost var p :| p in os[..i] && p.id == os[i].id;
        ghost var j :| 0 <= j < i && os[j] == p;
        return false;
      }
      assert os[..i + 1] == os[..i] + [os[i]];
      ids := ids + {os[i].id};
      i := i + 1;
    }
    assert os[..i] == os;
    return true;
  }

  /** checkKeys: the empty key is too short, and any key may be too long. */
  method CheckKeys<V>(m: map<Text, V>) returns (ok: bool)
    ensures ok <==> Fold.KeysOk(m)
  {
    if [] in m {
      return false;
    }
    var keys := m.Keys;
    while keys != {}
      invariant keys <= m.Keys && forall k :: k in m && k !in keys ==> Fold.IdOk(k)
      decreases keys
    {
      var k :| k in keys;
      assert k != [];
      if !LenOk(k, 0, 128) {
        return false;
      }
      keys := keys - {k};
    }
    return true;
  }

  /** ids.filter((x) => x !== id) */
  method Filter(ids: seq<Text>, id: Text) returns (r: seq<Text>)
    ensures r == Fold.Without(ids, id)
  {
    r := [];
    for i := 0 to |ids|
      invariant r == Fold.Without(ids[..i], id)
    {
      assert ids[..i + 1][..i] == ids[..i];
      if ids[i] != id {
        r := r + [ids[i]];
      }
    }
    assert ids[..|ids|] == ids;
  }

  function MirrorControl(ids: seq<Text>): (Text, seq<Text>) {
    (if ids == [] then [] else ids[0], ids)
  }

  lemma {:induction false} MirrorKeys(m: map<Text, Fold.Scene>)
    ensures MirrorAll(m).Keys == m.Keys
  {
  }

  lemma {:induction false} OneUnique(st: Fold.State, id: Text)
    requires AllUnique(st) && id in st.scenes
    ensures Fold.UniqueObjects(st.scenes[id].objects)
  {
  }

  /** One scene put in both. */
  lemma {:induction false} MirrorPut(m: map<Text, Fold.Scene>, id: Text, sc: Fold.Scene)
    ensures MirrorAll(m[id := sc]) == MirrorAll(m)[id := Mirror(sc)] && MirrorAll(m).Keys == m.Keys
    ensures id in m ==> MirrorAll(m)[id] == Mirror(m[id])
  {
  }

  /** The browser's state; a throw abandons it half-written, so only what it holds
      after an accepted event is of use. */
  class State {
    var scenes: map<Text, Scene>
    var actors: map<Text, Actor>
    var tokens: map<Text, Fold.Token>
    var sessions: seq<Fold.Session>
    var conditions: map<Text, seq<Fold.Condition>>
    var notes: map<Text, Fold.Note>

    constructor ()
      ensures Mirrors(Fold.NewState)
    {
      scenes, actors, tokens, sessions, conditions, notes := map[], map[], map[], [], map[], map[];
    }

    /** The browser and a server's state say the same. */
    ghost predicate Mirrors(st: Fold.State)
      reads this
    {
      && scenes == MirrorAll(st.scenes) && actors == st.actors && tokens == st.tokens
      && sessions == st.sessions && conditions == st.conditions && notes == st.notes
    }

    /** How an arm answers an outcome of the server's fold. */
    ghost predicate Agrees(threw: bool, o: Fold.Outcome, before: Fold.State)
      reads this
    {
      match o
      case Accepted(st) => !threw && Mirrors(st)
      case Refused => threw
      case UnknownVariant => !threw && Mirrors(before)
    }

    method StartSession(env: Envelope, ghost st: Fold.State) returns (threw: bool)
      requires Mirrors(st) && env.payload.SessionStarted?
      modifies this
      ensures Agrees(threw, Fold.StartSession(st, env), st)
    {
      var i := 0;
      while i < |sessions|
        invariant 0 <= i <= |sessions| && forall j :: 0 <= j < i ==> !Fold.IsOpen(sessions[j])
      {
        if sessions[i].endSeq == 0 {
          return true;
        }
        i := i + 1;
      }
      if !LenOk(env.payload.sessionName, 0, 256) || !LenOk(env.sessionId, 1, 128) {
        return true;
      }
      sessions := sessions + [Fold.Session(env.sessionId, env.payload.sessionName, env.sequence, 0)];
      return false;
    }

    method EndSession(env: Envelope, ghost st: Fold.State) returns (threw: bool)
      requires Mirrors(st)
      modifies this
      ensures Agrees(threw, Fold.EndSession(st, env), st)
    {
      var i := 0;
      while i < |sessions|
        invariant 0 <= i <= |sessions| && forall j :: 0 <= j < i ==> !Fold.IsOpen(sessions[j])
        invariant Mirrors(st)
      {
        if sessions[i].endSeq == 0 {
          sessions := sessions[i := sessions[i].(endSeq := env.sequence)];
          return false;
        }
        i := i + 1;
      }
      return true;
    }

    method CreateScene(p: Payload, ghost st: Fold.State) returns (threw: bool)
      requires Mirrors(st) && p.SceneCreated?
      modifies this
      ensures Agrees(threw, Fold.CreateScene(st, p), st)
    {
      hide Fold.DistinctRefs;
      if !LenOk(p.sceneId, 1, 128) || p.sceneId in scenes || !LenOk(p.sceneName, 0, 256) {
        return true;
      }
      var ok := CheckObjects(p.objects);
      if !ok {
        return true;
      }
      var objects := seq(|p.objects|, i requires 0 <= i < |p.objects| => Fold.FromRef(p.objects[i]));
      assert objects == Fold.FromRefs(p.objects);
      scenes := scenes[p.sceneId := Scene(p.sceneId, p.sceneName, p.gridWidth, p.gridHeight, p.tiles, objects, map[], map[], None)];
      return false;
    }

    method SetDoor(scene: Text, at: Option<Position>, open: bool, ghost st: Fold.State) returns (threw: bool)
      requires Mirrors(st)
      modifies this
      ensures Agrees(threw, Fold.SetDoor(st, scene, at, open), st)
    {
      hide GridKey.Key, MirrorAll;
      MirrorKeys(st.scenes);
      if scene !in scenes || at.None? {
        return true;
      }
      var key := GridKey.Key(at.value.x, at.value.y);
      var sc := scenes[scene];
      var doors := if open then sc.openDoors[key := true] else sc.openDoors - {key};
      MirrorPut(st.scenes, scene, st.scenes[scene].(openDoors := doors));
      scenes := scenes[scene := sc.(openDoors := doors)];
      return false;
    }

    method SeeScene(p: Payload, ghost st: Fold.State) returns (threw: bool)
      requires Mirrors(st) && p.SceneSeen?
      requires AllUnique(st)
      modifies this
      ensures Agrees(threw, Fold.SeeScene(st, p), st)
    {
      hide Fold.Merge, Fold.UniqueObjects, MirrorAll, AllUnique;
      MirrorKeys(st.scenes);
      if p.seenScene !in scenes {
        return true;
      }
      var sc := scenes[p.seenScene];
      OneUnique(st, p.seenScene);
      MirrorPut(st.scenes, p.seenScene, Fold.Seen(st.scenes[p.seenScene], p));
      var visible: map<Text, bool> := map[];
      for i := 0 to |p.visibleSquares|
        invariant visible == Fold.TrueOn(Fold.Elements(p.visibleSquares[..i]))
      {
        assert p.visibleSquares[..i + 1] == p.visibleSquares[..i] + [p.visibleSquares[i]];
        visible := visible[p.visibleSquares[i] := true];
      }
      assert p.visibleSquares[..|p.visibleSquares|] == p.visibleSquares;
      var objects := MergeAll(sc.objects, p.seenObjects);
      sc := sc.(visible := Some(visible), tiles := sc.tiles + p.seenTiles,
                explored := sc.explored + Fold.TrueOn(p.seenTiles.Keys), objects := objects);
      scenes := scenes[p.seenScene := sc];
      return false;
    }

    method AddActor(p: Payload, ghost st: Fold.State) returns (threw: bool)
      requires Mirrors(st) && p.ActorAdded?
      modifies this
      ensures Agrees(threw, Fold.AddActor(st, p), st)
    {
      hide MirrorAll;
      if p.actor.None? || p.actor.value.id == [] || !LenOk(p.actor.value.id, 0, 128) || p.actor.value.id in actors {
        return true;
      }
      var a := p.actor.value;
      if a.controllerId != [] || |a.controllerIds| > 0 || !LenOk(a.name, 0, 256) || !LenOk(a.moduleId, 0, 128) {
        return true;
      }
      var resourcesOk := CheckKeys(a.resources);
      var attributesOk := CheckKeys(a.attributes);
      if !resourcesOk || !attributesOk {
        return true;
      }
      var control := MirrorControl([]);
      actors := actors[a.id := Actor(a.id, a.name, a.moduleId, a.attributes, a.resources, control.0, control.1, a.kind)];
      return false;
    }

    method GrantControl(p: Payload, ghost st: Fold.State) returns (threw: bool)
      requires Mirrors(st) && p.ActorControlGranted?
      modifies this
      ensures Agrees(threw, Fold.GrantControl(st, p), st)
    {
      hide MirrorAll;
      if p.participantId == [] || !LenOk(p.participantId, 0, 128) || p.actorId !in actors {
        return true;
      }
      var a := actors[p.actorId];
      if p.kind != KIND_UNSPECIFIED {
        a := a.(kind := p.kind);
      }
      if p.participantId !in a.controllerIds {
        var control := MirrorControl(a.controllerIds + [p.participantId]);
        a := a.(controllerId := control.0, controllerIds := control.1);
      }
      actors := actors[p.actorId := a];
      return false;
    }

    method RevokeControl(p: Payload, ghost st: Fold.State) returns (threw: bool)
      requires Mirrors(st) && p.ActorControlRevoked?
      modifies this
      ensures Agrees(threw, Fold.RevokeControl(st, p), st)
    {
      hide MirrorAll, Fold.Without;
      if p.participantId == [] || !LenOk(p.participantId, 0, 128) || p.actorId !in actors {
        return true;
      }
      var a := actors[p.actorId];
      var kept := Filter(a.controllerIds, p.participantId);
      var control := MirrorControl(kept);
      actors := actors[p.actorId := a.(controllerId := control.0, controllerIds := control.1)];
      return false;
    }

    method PlaceToken(p: Payload, ghost st: Fold.State) returns (threw: bool)
      requires Mirrors(st) && p.TokenPlaced?
      modifies this
      ensures Agrees(threw, Fold.PlaceToken(st, p), st)
    {
      if !LenOk(p.tokenId, 1, 128) || p.tokenId in tokens || p.tokenScene !in scenes || p.actorId !in actors || p.position.None? {
        return true;
      }
      tokens := tokens[p.tokenId := Fold.Token(p.tokenId, p.tokenScene, p.actorId, p.position.value.x, p.position.value.y,
                                               p.name, p.notes, p.gmName, p.gmNotes)];
      return false;
    }

    method MoveToken(p: Payload, ghost st: Fold.State) returns (threw: bool)
      requires Mirrors(st) && p.TokenMoved?
      modifies this
      ensures Agrees(threw, Fold.MoveToken(st, p), st)
    {
      if p.tokenId !in tokens || p.to.None? || !LenOk(p.reason, 0, 256) || !LenOk(p.moveScene, 1, 128) {
        return true;
      }
      tokens := tokens[p.tokenId := tokens[p.tokenId].(x := p.to.value.x, y := p.to.value.y)];
      return false;
    }

    method DescribeToken(p: Payload, ghost st: Fold.State) returns (threw: bool)
      requires Mirrors(st) && p.TokenDescribed?
      modifies this
      ensures Agrees(threw, Fold.DescribeToken(st, p), st)
    {
      if p.tokenId !in tokens {
        return true;
      }
      tokens := tokens[p.tokenId := tokens[p.tokenId].(name := p.name, notes := p.notes, gmName := p.gmName, gmNotes := p.gmNotes)];
      return false;
    }

    /** The token ids of an actor, filtered; the first of them in order is the one a refusal names. */
    method StandingTokens(actorId: Text) returns (standing: set<Text>)
      ensures standing == set t | t in tokens && tokens[t].actorId == actorId
    {
      standing := set t | t in tokens && tokens[t].actorId == actorId;
    }

    method RemoveActor(id: Text, ghost st: Fold.State) returns (threw: bool)
      requires Mirrors(st)
      modifies this
      ensures Agrees(threw, Fold.RemoveActor(st, id), st)
    {
      hide MirrorAll;
      if id !in actors {
        return true;
      }
      var standing := StandingTokens(id);
      if standing != {} {
        ghost var t :| t in standing;
        assert t in st.tokens && st.tokens[t].actorId == id;
        return true;
      }
      assert forall t :: t in st.tokens && st.tokens[t].actorId == id ==> t in standing;
      actors := actors - {id};
      conditions := conditions - {id};
      return false;
    }

    method ApplyCondition(env: Envelope, ghost st: Fold.State) returns (threw: bool)
      requires Mirrors(st) && env.payload.ConditionApplied?
      modifies this
      ensures Agrees(threw, Fold.ApplyCondition(st, env), st)
    {
      hide MirrorAll;
      var p := env.payload;
      if !LenOk(p.conditionId, 1, 128) || p.actorId !in actors {
        return true;
      }
      var list := if p.actorId in conditions then conditions[p.actorId] else [];
      if exists i :: 0 <= i < |list| && list[i].id == p.conditionId {
        return true;
      }
      conditions := conditions[p.actorId := list + [Fold.Condition(p.conditionId, p.source, env.sequence)]];
      return false;
    }

    method RemoveCondition(p: Payload, ghost st: Fold.State) returns (threw: bool)
      requires Mirrors(st) && p.ConditionRemoved?
      modifies this
      ensures Agrees(threw, Fold.RemoveCondition(st, p), st)
    {
      hide MirrorAll;
      if p.actorId !in actors {
        return true;
      }
      var list := if p.actorId in conditions then conditions[p.actorId] else [];
      var i := 0;
      while i < |list|
        invariant 0 <= i <= |list| && forall j :: 0 <= j < i ==> list[j].id != p.conditionId
        invariant Mirrors(st)
      {
        if list[i].id == p.conditionId {
          assert Fold.ConditionIndex(list, p.conditionId) == i;
          conditions := conditions[p.actorId := list[..i] + list[i + 1..]];
          return false;
        }
        i := i + 1;
      }
      return true;
    }

    method ChangeResource(p: Payload, ghost st: Fold.State) returns (threw: bool)
      requires Mirrors(st) && p.ResourceChanged?
      modifies this
      ensures Agrees(threw, Fold.ChangeResource(st, p), st)
    {
      hide MirrorAll;
      if p.actorId !in actors || p.resource !in actors[p.actorId].resources {
        return true;
      }
      var a := actors[p.actorId];
      var res := a.resources[p.resource];
      var computed: int := res.current as int + p.delta as int;
      if computed < 0 { computed := 0; }
      if res.max > 0 && computed > res.max { computed := res.max; }
      if computed != p.newValue {
        return true;
      }
      actors := actors[p.actorId := a.(resources := a.resources[p.resource := Resource(computed, res.max)])];
      return false;
    }

    method Narrate(env: Envelope, ghost st: Fold.State) returns (threw: bool)
      requires Mirrors(st) && env.payload.NarrationAdded?
      ensures Agrees(threw, Fold.Narrate(st, env), st)
    {
      var p := env.payload;
      if !LenOk(p.text, 1, 8192) || !LenOk(p.speaker, 0, 256) {
        return true;
      }
      if p.anchorFrom != 0 || p.anchorTo != 0 {
        if p.anchorFrom <= 0 || p.anchorTo <= 0 || p.anchorFrom > p.anchorTo || p.anchorTo >= env.sequence {
          return true;
        }
      }
      return false;
    }

    method Whisper(p: Payload, ghost st: Fold.State) returns (threw: bool)
      requires Mirrors(st) && p.WhisperAdded?
      ensures Agrees(threw, Fold.Whisper(st, p), st)
    {
      if !LenOk(p.text, 1, 8192) {
        return true;
      }
      var named := if p.fromActorId == [] then p.toActorIds else p.toActorIds + [p.fromActorId];
      for i := 0 to |named|
        invariant forall j :: 0 <= j < i ==> named[j] in actors
      {
        if named[i] !in actors {
          assert p.fromActorId != [] && i == |p.toActorIds| ==> named[i] == p.fromActorId;
          return true;
        }
      }
      assert forall id :: id in p.toActorIds ==> id in named;
      assert p.fromActorId != [] ==> p.fromActorId in named;
      return false;
    }

    method UpsertNote(env: Envelope, ghost st: Fold.State) returns (threw: bool)
      requires Mirrors(st) && env.payload.NoteUpserted?
      modifies this
      ensures Agrees(threw, Fold.UpsertNote(st, env), st)
    {
      var p := env.payload;
      if !LenOk(p.key, 1, 128) || !LenOk(p.title, 0, 256) || !LenOk(p.text, 1, 8192) {
        return true;
      }
      notes := notes[p.key := Fold.Note(p.title, p.text, env.sequence, p.visibility)];
      return false;
    }

    /** One event, on a state that mirrors the server's: it throws exactly when the
        server refuses, and otherwise mirrors the server's next state. */
    method Apply(env: Envelope, ghost st: Fold.State) returns (threw: bool)
      requires Mirrors(st)
      requires AllUnique(st)
      modifies this
      ensures Agrees(threw, Fold.Step(st, env), st)
    {
      hide Mirrors, AllUnique;
      hide Fold.StartSession, Fold.EndSession, Fold.CreateScene, Fold.AddActor, Fold.GrantControl, Fold.RevokeControl;
      hide Fold.PlaceToken, Fold.DescribeToken, Fold.MoveToken, Fold.RemoveActor, Fold.SetDoor, Fold.Narrate, Fold.Whisper;
      hide Fold.ChangeResource, Fold.ApplyCondition, Fold.RemoveCondition, Fold.UpsertNote, Fold.SeeScene;
      var p := env.payload;
      threw := false;
      match p {
        case SessionStarted(_) => threw := StartSession(env, st);
        case SessionEnded => threw := EndSession(env, st);
        case SceneCreated(_, _, _, _, _, _) => threw := CreateScene(p, st);
        case DoorOpened(scene, at) => threw := SetDoor(scene, at, true, st);
        case DoorClosed(scene, at) => threw := SetDoor(scene, at, false, st);
        case ActorAdded(_) => threw := AddActor(p, st);
        case ActorControlGranted(_, _, _) => threw := GrantControl(p, st);
        case ActorControlRevoked(_, _) => threw := RevokeControl(p, st);
        case TokenPlaced(_, _, _, _, _, _, _, _) => threw := PlaceToken(p, st);
        case TokenMoved(_, _, _, _) => threw := MoveToken(p, st);
        case TokenDescribed(_, _, _, _, _) => threw := DescribeToken(p, st);
        case TokenRemoved(id) => threw := RemoveToken(id, st);
        case ActorRemoved(id) => threw := RemoveActor(id, st);
        case TokenHidden(id) => HideToken(id, st);
        case SceneSeen(_, _, _, _) => threw := SeeScene(p, st);
        case ConditionApplied(_, _, _) => threw := ApplyCondition(env, st);
        case ConditionRemoved(_, _) => threw := RemoveCondition(p, st);
        case NoteUpserted(_, _, _, _) => threw := UpsertNote(env, st);
        case NoteDeleted(key) => threw := DeleteNote(key, st);
        case ResourceChanged(_, _, _, _) => threw := ChangeResource(p, st);
        case NarrationAdded(_, _, _, _) => threw := Narrate(env, st);
        case WhisperAdded(_, _, _) => threw := Whisper(p, st);
        case AdventureLoaded(id, name) => threw := !LenOk(id, 1, 128) || !LenOk(name, 0, 256);
        case AbilityUsed(id) => threw := !LenOk(id, 1, 128);
        case AttackRolled =>
        case NoPayload =>
      }
    }

    method RemoveToken(id: Text, ghost st: Fold.State) returns (threw: bool)
      requires Mirrors(st)
      modifies this
      ensures Agrees(threw, Fold.RemoveToken(st, id), st)
    {
      if id !in tokens {
        return true;
      }
      tokens := tokens - {id};
      return false;
    }

    method HideToken(id: Text, ghost st: Fold.State)
      requires Mirrors(st)
      modifies this
      ensures Mirrors(st.(tokens := st.tokens - {id}))
    {
      tokens := tokens - {id};
    }

    method DeleteNote(key: Text, ghost st: Fold.State) returns (threw: bool)
      requires Mirrors(st)
      modifies this
      ensures Agrees(threw, Fold.DeleteNote(st, key), st)
    {
      if key !in notes {
        return true;
      }
      notes := notes - {key};
      return false;
    }
  }

  // ----- object ids are unique in every state a log reaches -----

  /** Whatever the events' sequences. */
  lemma {:induction false} StepUnique(st: Fold.State, env: Envelope)
    requires AllUnique(st) && Fold.Step(st, env).Accepted?
    ensures AllUnique(Fold.Step(st, env).st)
  {
    hide Fold.Merge;
    var p := env.payload;
    match p
    case SceneCreated(_, _, _, _, _, _) => assert Fold.Step(st, env) == Fold.CreateScene(st, p);
    case SceneSeen(_, _, _, _) =>
      assert Fold.Step(st, env) == Fold.SeeScene(st, p);
      FoldInvariants.MergeUnique(st.scenes[p.seenScene].objects, p.seenObjects);
    case DoorOpened(scene, at) => assert Fold.Step(st, env) == Fold.SetDoor(st, scene, at, true);
    case DoorClosed(scene, at) => assert Fold.Step(st, env) == Fold.SetDoor(st, scene, at, false);
    case _ => LastWord.OnlySceneEvents(st, env);
  }

  lemma {:induction false} ReplayUnique(evs: seq<Envelope>)
    requires Fold.Replay(evs).Some?
    ensures AllUnique(Fold.Replay(evs).value)
  {
    hide Fold.Step, AllUnique;
    if evs == [] {
      assert AllUnique(Fold.NewState) by { NewUnique(); }
    } else {
      var init := evs[..|evs| - 1];
      ReplayUnique(init);
      var st := Fold.Replay(init).value;
      if Fold.Step(st, evs[|evs| - 1]).Accepted? {
        StepUnique(st, evs[|evs| - 1]);
      }
    }
  }

  lemma {:induction false} NewUnique()
    ensures AllUnique(Fold.NewState)
  {
  }

  /** How many events of a stream the server folds before the one it refuses. */
  function Folded(evs: seq<Envelope>): (n: nat)
    ensures n <= |evs| && Fold.Replay(evs[..n]).Some?
    ensures n < |evs| ==> Fold.Replay(evs[..n + 1]).None?
  {
    if Fold.Replay(evs).Some? then assert evs[..|evs|] == evs; |evs|
    else
      var init := evs[..|evs| - 1];
      var n := Folded(init);
      assert evs[..n] == init[..n];
      if n < |init| then assert evs[..n + 1] == init[..n + 1]; n
      else assert init[..n] == init; assert evs[..n + 1] == evs; n
  }

  /** fold: on every stream the browser stops at the event the server stops at, and
      has mirrored the server's state on every event before it. */
  method Run(evs: seq<Envelope>) returns (st: State, n: nat)
    ensures n == Folded(evs)
    ensures n == |evs| ==> st.Mirrors(Fold.Replay(evs).value)
    ensures fresh(st)
  {
    hide Fold.Step, State.Mirrors;
    st := new State();
    n := 0;
    while n < |evs|
      invariant 0 <= n <= |evs| && fresh(st)
      invariant Fold.Replay(evs[..n]).Some? && st.Mirrors(Fold.Replay(evs[..n]).value)
    {
      assert evs[..n + 1][..n] == evs[..n];
      ReplayUnique(evs[..n]);
      var threw := st.Apply(evs[n], Fold.Replay(evs[..n]).value);
      if threw {
        FoldedAt(evs, n);
        return;
      }
      n := n + 1;
    }
    assert evs[..n] == evs;
    FoldedAt(evs, n);
  }

  /** A prefix that replays and cannot be extended is as far as the stream folds. */
  lemma {:induction false} FoldedAt(evs: seq<Envelope>, n: nat)
    requires n <= |evs| && Fold.Replay(evs[..n]).Some? && (n < |evs| ==> Fold.Replay(evs[..n + 1]).None?)
    ensures Folded(evs) == n
  {
    hide Fold.Step;
    var m := Folded(evs);
    if m < n {
      assert evs[..n][..m + 1] == evs[..m + 1];
      PrefixReplays(evs[..n], m + 1);
    } else if n < m {
      assert evs[..m][..n + 1] == evs[..n + 1];
      PrefixReplays(evs[..m], n + 1);
    }
  }

  lemma {:induction false} PrefixReplays(evs: seq<Envelope>, n: nat)
    requires n <= |evs| && Fold.Replay(evs).Some?
    ensures Fold.Replay(evs[..n]).Some?
  {
    hide Fold.Step;
    if n < |evs| {
      PrefixReplays(evs[..|evs| - 1], n);
      assert evs[..|evs| - 1][..n] == evs[..n];
    } else {
      assert evs[..n] == evs;
    }
  }
}
