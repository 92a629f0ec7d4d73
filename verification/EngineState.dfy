/** The server's derived state on the heap (internal/engine/state.go): its maps,
    the storage they refer to, and Snapshot. */
module EngineState {
  import opened Contract
  import opened GoHeap
  import Fold

  const TILES := 0
  const OBJECTS := 1
  const DOORS := 2
  const EXPLORED := 3
  const VISIBLE := 4
  const ACTOR := 5
  const SESSIONS := 6
  const CONDITIONS := 7
  const RESOURCES := 8
  const CONTROLLERS := 9

  /** A Scene struct: a value holding references; a null map reads as empty. */
  datatype Scene = Scene(id: Text, name: Text, gridWidth: int32, gridHeight: int32,
                         tiles: Cell?<map<Text, TileRef>>, objects: Slice<Fold.SceneObject>,
                         openDoors: Cell?<map<Text, bool>>, explored: Cell?<map<Text, bool>>, visible: Cell?<map<Text, bool>>)

  /** What an actor's pointer refers to; its resource map is written in place and its
      controller list appended to, so each is storage of its own. */
  datatype ActorStruct = ActorStruct(id: Text, name: Text, moduleId: Text, attributes: map<Text, int32>,
                                     resources: Cell<map<Text, Resource>>, controllerId: Text, controllers: Slice<Text>, kind: int32)

  // ----- the storage of each part, and what it holds -----

  /** A reference into `own` to the storage of `kind` at `key`, or none. */
  ghost predicate Is<T>(c: Cell?<T>, kind: int, key: Text, own: set<object>) {
    c != null ==> c in own && c.kind == kind && c.key == key
  }

  function Read<V>(c: Cell?<map<Text, V>>): map<Text, V>
    reads c
  {
    if c == null then map[] else c.v
  }

  function ReadOption<V>(c: Cell?<map<Text, V>>): Option<map<Text, V>>
    reads c
  {
    if c == null then None else Some(c.v)
  }

  /** The scene keyed k: each part of it is its own storage, within `own`. */
  ghost predicate SceneOk(k: Text, s: Scene, own: set<object>)
    reads own
  {
    && Is(s.tiles, TILES, k, own) && Is(s.openDoors, DOORS, k, own)
    && Is(s.explored, EXPLORED, k, own) && Is(s.visible, VISIBLE, k, own)
    && Backing(s.objects) <= own && SliceIs(s.objects, OBJECTS, k) && SliceOk(s.objects)
  }

  ghost function SceneValue(k: Text, s: Scene, own: set<object>): Fold.Scene
    requires SceneOk(k, s, own)
    reads own
  {
    Fold.Scene(s.id, s.name, s.gridWidth, s.gridHeight, Read(s.tiles), View(s.objects), Read(s.openDoors),
               ReadOption(s.explored), ReadOption(s.visible))
  }

  /** All the storage one scene refers to. */
  ghost function CellsOf(s: Scene): set<object> {
    One(s.tiles) + Backing(s.objects) + One(s.openDoors) + One(s.explored) + One(s.visible)
  }

  ghost function One<T>(c: Cell?<T>): set<object> { if c == null then {} else {c as object} }

  ghost predicate ScenesOk(m: map<Text, Scene>, own: set<object>)
    reads own
  {
    forall k :: k in m ==> SceneOk(k, m[k], own)
  }

  ghost function Scenes(m: map<Text, Scene>, own: set<object>): map<Text, Fold.Scene>
    requires ScenesOk(m, own)
    reads own
  {
    map k | k in m :: SceneValue(k, m[k], own)
  }

  ghost function ActorCells(c: Cell<ActorStruct>): set<object>
    reads c
  {
    {c} + StructCells(c.v)
  }

  ghost function StructCells(s: ActorStruct): set<object> { {s.resources as object} + Backing(s.controllers) }

  /** The actor keyed k: its struct, its resources and its controllers are its own. */
  ghost predicate ActorOk(k: Text, c: Cell<ActorStruct>)
    reads ActorCells(c)
  {
    c.kind == ACTOR && c.key == k && StructOk(k, c.v)
  }

  ghost predicate StructOk(k: Text, s: ActorStruct)
    reads StructCells(s)
  {
    && s.resources.kind == RESOURCES && s.resources.key == k
    && SliceIs(s.controllers, CONTROLLERS, k) && SliceOk(s.controllers)
  }

  ghost function StructValue(k: Text, s: ActorStruct): Actor
    requires StructOk(k, s)
    reads StructCells(s)
  {
    Actor(s.id, s.name, s.moduleId, s.attributes, s.resources.v, s.controllerId, View(s.controllers), s.kind)
  }

  ghost function ActorValue(k: Text, c: Cell<ActorStruct>): Actor
    requires ActorOk(k, c)
    reads ActorCells(c)
  {
    StructValue(k, c.v)
  }

  ghost predicate ActorsOk(m: map<Text, Cell<ActorStruct>>, own: set<object>)
    reads own
  {
    forall k :: k in m ==> m[k] in own && ActorCells(m[k]) <= own && ActorOk(k, m[k])
  }

  ghost function Actors(m: map<Text, Cell<ActorStruct>>, own: set<object>): map<Text, Actor>
    requires ActorsOk(m, own)
    reads own
  {
    map k | k in m :: ActorValue(k, m[k])
  }

  ghost predicate ListOk(k: Text, s: Slice<Fold.Condition>, own: set<object>)
    reads own
  {
    Backing(s) <= own && SliceIs(s, CONDITIONS, k) && SliceOk(s)
  }

  ghost predicate ConditionsOk(m: map<Text, Slice<Fold.Condition>>, own: set<object>)
    reads own
  {
    forall k :: k in m ==> ListOk(k, m[k], own)
  }

  ghost function Conditions(m: map<Text, Slice<Fold.Condition>>, own: set<object>): map<Text, seq<Fold.Condition>>
    requires ConditionsOk(m, own)
    reads own
  {
    map k | k in m :: View(m[k])
  }

  ghost predicate SessionsOk(s: Slice<Fold.Session>, own: set<object>)
    reads own
  {
    Backing(s) <= own && SliceIs(s, SESSIONS, []) && SliceOk(s)
  }

  ghost function Sessions(s: Slice<Fold.Session>, own: set<object>): seq<Fold.Session>
    requires SessionsOk(s, own)
    reads own
  {
    View(s)
  }

  class State {
    var scenes: map<Text, Scene>
    var actors: map<Text, Cell<ActorStruct>>
    var tokens: map<Text, Fold.Token>
    var sessions: Slice<Fold.Session>
    var conditions: map<Text, Slice<Fold.Condition>>
    var notes: map<Text, Fold.Note>

    // The storage each part refers to; the parts share none.
    ghost var sceneOwn: set<object>
    ghost var actorOwn: set<object>
    ghost var sessionOwn: set<object>
    ghost var conditionOwn: set<object>

    constructor ()
      ensures Valid() && fresh(Repr())
      ensures Value() == Fold.NewState
    {
      scenes, actors, tokens, sessions, conditions, notes := map[], map[], map[], Nil, map[], map[];
      sceneOwn, actorOwn, sessionOwn, conditionOwn := {}, {}, {}, {};
    }

    constructor Of(scenes: map<Text, Scene>, ghost so: set<object>, actors: map<Text, Cell<ActorStruct>>, ghost ao: set<object>,
                   tokens: map<Text, Fold.Token>, sessions: Slice<Fold.Session>, ghost ss: set<object>,
                   conditions: map<Text, Slice<Fold.Condition>>, ghost co: set<object>, notes: map<Text, Fold.Note>)
      requires so !! ao && so !! ss && so !! co && ao !! ss && ao !! co && ss !! co
      requires ScenesOk(scenes, so) && ActorsOk(actors, ao) && SessionsOk(sessions, ss) && ConditionsOk(conditions, co)
      requires [] !in tokens
      ensures Valid() && Repr() == {this} + so + ao + ss + co
      ensures Value() == old(Fold.State(Scenes(scenes, so), Actors(actors, ao), tokens, Sessions(sessions, ss), Conditions(conditions, co), notes))
    {
      hide ScenesOk, Scenes, Actors, ActorsOk, Conditions, ConditionsOk, Sessions, SessionsOk;
      this.scenes, this.actors, this.tokens := scenes, actors, tokens;
      this.sessions, this.conditions, this.notes := sessions, conditions, notes;
      sceneOwn, actorOwn, sessionOwn, conditionOwn := so, ao, ss, co;
    }

    /** Everything the state owns. */
    ghost function Repr(): set<object>
      reads this
    {
      {this} + sceneOwn + actorOwn + sessionOwn + conditionOwn
    }

    ghost predicate Apart()
      reads this
    {
      && this !in sceneOwn && this !in actorOwn && this !in sessionOwn && this !in conditionOwn
      && sceneOwn !! actorOwn && sceneOwn !! sessionOwn && sceneOwn !! conditionOwn
      && actorOwn !! sessionOwn && actorOwn !! conditionOwn && sessionOwn !! conditionOwn
    }

    ghost predicate Valid()
      reads Repr()
    {
      && Apart()
      && ScenesOk(scenes, sceneOwn) && ActorsOk(actors, actorOwn)
      && SessionsOk(sessions, sessionOwn) && ConditionsOk(conditions, conditionOwn)
      && [] !in tokens
    }

    /** What the state says, its storage read through. */
    ghost function Value(): Fold.State
      requires Valid()
      reads Repr()
    {
      Fold.State(Scenes(scenes, sceneOwn), Actors(actors, actorOwn), tokens, Sessions(sessions, sessionOwn),
                 Conditions(conditions, conditionOwn), notes)
    }

    // ----- Snapshot -----

    static method CopyNullable<V>(c: Cell?<map<Text, V>>, ghost kind: int, ghost key: Text) returns (r: Cell?<map<Text, V>>)
      ensures r == null <==> c == null
      ensures r != null ==> fresh(r) && r.v == c.v && r.kind == kind && r.key == key
    {
      if c == null {
        r := null;
      } else {
        var m := CopyMap(c.v);
        r := new Cell(kind, key, m);
      }
    }

    /** make and fill: a null map is copied to an empty one. */
    static method CopyMade<V>(c: Cell?<map<Text, V>>, ghost kind: int, ghost key: Text) returns (r: Cell<map<Text, V>>)
      ensures fresh(r) && r.v == Read(c) && r.kind == kind && r.key == key
    {
      var m := map[];
      if c != null { m := CopyMap(c.v); }
      r := new Cell(kind, key, m);
    }

    static method CopyScene(k: Text, s: Scene, ghost own: set<object>) returns (r: Scene, ghost out: set<object>)
      requires SceneOk(k, s, own)
      ensures SceneOk(k, r, out) && SceneValue(k, r, out) == SceneValue(k, s, own)
      ensures fresh(out)
    {
      var tiles := CopyMade(s.tiles, TILES, k);
      var doors := CopyMade(s.openDoors, DOORS, k);
      var explored := CopyNullable(s.explored, EXPLORED, k);
      var visible := CopyNullable(s.visible, VISIBLE, k);
      var objects := CopySlice(s.objects, OBJECTS, k);
      r := Scene(s.id, s.name, s.gridWidth, s.gridHeight, tiles, objects, doors, explored, visible);
      out := CellsOf(r);
      SceneMade(k, r, out);
    }

    static method CopyScenes(m: map<Text, Scene>, ghost own: set<object>) returns (r: map<Text, Scene>, ghost out: set<object>)
      requires ScenesOk(m, own)
      ensures ScenesOk(r, out) && Scenes(r, out) == Scenes(m, own) && fresh(out)
    {
      hide SceneValue;
      r, out := map[], {};
      var todo := m.Keys;
      while todo != {}
        invariant todo <= m.Keys && r.Keys == m.Keys - todo && fresh(out)
        invariant ScenesOk(m, own) && ScenesOk(r, out)
        invariant forall k :: k in r ==> SceneValue(k, r[k], out) == SceneValue(k, m[k], own)
        decreases todo
      {
        var k :| k in todo;
        var s, more := CopyScene(k, m[k], own);
        WidenScenes(r, out, out + more);
        WidenScene(k, s, more, out + more);
        r, out := r[k := s], out + more;
        todo := todo - {k};
      }
    }

    /** A clone of one actor. */
    static method CopyActor(k: Text, c: Cell<ActorStruct>) returns (r: Cell<ActorStruct>)
      requires ActorOk(k, c)
      ensures ActorOk(k, r) && ActorValue(k, r) == ActorValue(k, c) && fresh(ActorCells(r)) && r in ActorCells(r)
    {
      var m := CopyMap(c.v.resources.v);
      var resources := new Cell(RESOURCES, k, m);
      var controllers := CopySlice(c.v.controllers, CONTROLLERS, k);
      r := new Cell(ACTOR, k, c.v.(resources := resources, controllers := controllers));
    }

    static method CopyActors(m: map<Text, Cell<ActorStruct>>, ghost own: set<object>)
      returns (r: map<Text, Cell<ActorStruct>>, ghost out: set<object>)
      requires ActorsOk(m, own)
      ensures ActorsOk(r, out) && Actors(r, out) == Actors(m, own) && fresh(out)
    {
      hide ActorOk, ActorValue, ActorCells;
      r, out := map[], {};
      var todo := m.Keys;
      while todo != {}
        invariant todo <= m.Keys && r.Keys == m.Keys - todo && fresh(out)
        invariant ActorsOk(m, own) && ActorsOk(r, out)
        invariant forall k :: k in r ==> ActorValue(k, r[k]) == ActorValue(k, m[k])
        decreases todo
      {
        var k :| k in todo;
        var a := CopyActor(k, m[k]);
        r, out := r[k := a], out + ActorCells(a);
        todo := todo - {k};
      }
    }

    static method CopyConditions(m: map<Text, Slice<Fold.Condition>>, ghost own: set<object>)
      returns (r: map<Text, Slice<Fold.Condition>>, ghost out: set<object>)
      requires ConditionsOk(m, own)
      ensures ConditionsOk(r, out) && Conditions(r, out) == Conditions(m, own) && fresh(out)
    {
      r, out := map[], {};
      var todo := m.Keys;
      while todo != {}
        invariant todo <= m.Keys && r.Keys == m.Keys - todo && fresh(out) && ConditionsOk(m, own) && ConditionsOk(r, out)
        invariant forall k :: k in r ==> View(r[k]) == View(m[k])
        decreases todo
      {
        var k :| k in todo;
        assert ListOk(k, m[k], own);
        var s := CopySlice(m[k], CONDITIONS, k);
        r, out := r[k := s], out + Backing(s);
        todo := todo - {k};
      }
    }

    static method CopySessions(s: Slice<Fold.Session>, ghost own: set<object>) returns (r: Slice<Fold.Session>, ghost out: set<object>)
      requires SessionsOk(s, own)
      ensures SessionsOk(r, out) && Sessions(r, out) == Sessions(s, own) && fresh(out)
    {
      r := CopySlice(s, SESSIONS, []);
      out := Backing(r);
    }

    /** Copies of the parts that refer to storage, each in storage of its own. */
    method CopyStored() returns (sc: map<Text, Scene>, ghost so: set<object>, ac: map<Text, Cell<ActorStruct>>, ghost ao: set<object>,
                                 se: Slice<Fold.Session>, ghost ss: set<object>,
                                 cs: map<Text, Slice<Fold.Condition>>, ghost co: set<object>)
      requires Valid()
      ensures fresh(so + ao + ss + co)
      ensures so !! ao && so !! ss && so !! co && ao !! ss && ao !! co && ss !! co
      ensures ScenesOk(sc, so) && ActorsOk(ac, ao) && SessionsOk(se, ss) && ConditionsOk(cs, co)
      ensures Scenes(sc, so) == old(Value()).scenes && Actors(ac, ao) == old(Value()).actors
      ensures Sessions(se, ss) == old(Value()).sessions && Conditions(cs, co) == old(Value()).conditions
    {
      hide ScenesOk, Scenes, Actors, ActorsOk, Conditions, ConditionsOk, SliceOk, View, Sessions, SessionsOk;
      sc, so := CopyScenes(scenes, sceneOwn);
      ac, ao := CopyActors(actors, actorOwn);
      assert so !! ao;
      se, ss := CopySessions(sessions, sessionOwn);
      assert so !! ss && ao !! ss;
      cs, co := CopyConditions(conditions, conditionOwn);
      assert so !! co && ao !! co && ss !! co;
    }

    /** A deep copy: it says what this state says, and shares no storage with anything. */
    method Snapshot() returns (out: State)
      requires Valid()
      ensures out.Valid() && out.Value() == Value() == old(Value()) && fresh(out.Repr())
    {
      hide ScenesOk, Scenes, Actors, ActorsOk, Conditions, ConditionsOk, Sessions, SessionsOk;
      ghost var before := Value();
      var sc, so, ac, ao, se, ss, cs, co := CopyStored();
      var tokensCopy := CopyMap(tokens);
      var notesCopy := CopyMap(notes);
      out := new State.Of(sc, so, ac, ao, tokensCopy, se, ss, cs, co, notesCopy);
      assert out.Value() == before;
      assert out.Repr() == {out} + (so + ao + ss + co);
    }
  }

  /** A scene whose every part is its own storage is sound over exactly that. */
  lemma {:induction false} SceneMade(k: Text, s: Scene, own: set<object>)
    requires own == CellsOf(s) && SliceIs(s.objects, OBJECTS, k) && SliceOk(s.objects)
    requires s.tiles != null ==> s.tiles.kind == TILES && s.tiles.key == k
    requires s.openDoors != null ==> s.openDoors.kind == DOORS && s.openDoors.key == k
    requires s.explored != null ==> s.explored.kind == EXPLORED && s.explored.key == k
    requires s.visible != null ==> s.visible.kind == VISIBLE && s.visible.key == k
    ensures SceneOk(k, s, own)
  {
  }

  lemma {:induction false} WidenScene(k: Text, s: Scene, own: set<object>, wide: set<object>)
    requires SceneOk(k, s, own) && own <= wide
    ensures SceneOk(k, s, wide) && SceneValue(k, s, wide) == SceneValue(k, s, own)
  {
  }

  lemma {:induction false} WidenScenes(m: map<Text, Scene>, own: set<object>, wide: set<object>)
    requires ScenesOk(m, own) && own <= wide
    ensures ScenesOk(m, wide) && Scenes(m, wide) == Scenes(m, own)
    ensures forall k :: k in m ==> SceneValue(k, m[k], wide) == SceneValue(k, m[k], own)
  {
    forall k | k in m ensures SceneOk(k, m[k], wide) && SceneValue(k, m[k], wide) == SceneValue(k, m[k], own) {
      WidenScene(k, m[k], own, wide);
    }
  }

  // ----- scenes share no storage -----

  lemma {:induction false} PartApart<T>(c: Cell?<T>, j: Text, k: Text, s: Scene, own: set<object>)
    requires SceneOk(k, s, own) && j != k && (c != null ==> c.key == j)
    ensures One(c) !! CellsOf(s)
  {
  }

  /** The storage of different actors is apart. */
  lemma {:induction false} ActorsApart(j: Text, a: Cell<ActorStruct>, k: Text, b: Cell<ActorStruct>)
    requires ActorOk(j, a) && ActorOk(k, b) && j != k
    ensures ActorCells(a) !! ActorCells(b) && a in ActorCells(a) && b in ActorCells(b)
  {
  }

  /** The parts of different scenes are apart. */
  lemma {:induction false} ScenesApart(j: Text, r: Scene, k: Text, s: Scene, own: set<object>)
    requires SceneOk(j, r, own) && SceneOk(k, s, own) && j != k
    ensures CellsOf(r) !! CellsOf(s)
  {
    PartApart(r.tiles, j, k, s, own);
    PartApart(r.openDoors, j, k, s, own);
    PartApart(r.explored, j, k, s, own);
    PartApart(r.visible, j, k, s, own);
    if r.objects.Slice? {
      PartApart(r.objects.back, j, k, s, own);
    }
  }
}
