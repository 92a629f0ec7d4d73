/** Compile (internal/adventure/compile.go), and what its batch does to the state it
    was compiled against. */
module AdventureCompile {
  import opened Contract
  import opened Adventure
  import Fold
  import GoHeap
  import CampaignSpec
  import CampaignInvariant
  import CampaignTheorems
  import CharacterLogs
  import LastWordScenes

  // ----- the batch -----

  function ScenePayload(s: AdventureScene, m: Mapdef): Payload
    requires m.build(s).Some?
  {
    var b := m.build(s).value;
    SceneCreated(s.id, s.name, s.width, s.height, b.tiles, b.objects)
  }

  /** The DM drives every actor an adventure places: nobody controls it yet. */
  function BuiltActor(a: AdventureActor): Actor {
    Actor.Actor(a.id, a.name, [], a.attributes, a.resources, [], [], a.kind)
  }

  function ActorPayload(a: AdventureActor): Payload { ActorAdded(Some(BuiltActor(a))) }

  function TokenPayload(t: Placed): Payload {
    TokenPlaced(t.p.tokenId, t.scene, t.p.actorId, Some(Position(t.p.x, t.p.y)), t.p.name, t.p.notes, t.p.gmName, t.p.gmNotes)
  }

  function NotePayload(n: AdventureNote): Payload { NoteUpserted(n.key, n.title, n.text, VISIBILITY_PUBLIC) }

  function Mapped<T, V>(items: seq<T>, f: T -> V): (r: seq<V>)
    ensures |r| == |items| && forall k :: 0 <= k < |r| ==> r[k] == f(items[k])
  {
    seq(|items|, k requires 0 <= k < |items| => f(items[k]))
  }

  predicate AllBuild(scenes: seq<AdventureScene>, m: Mapdef) { forall s :: s in scenes ==> m.build(s).Some? }

  function ScenePayloads(scenes: seq<AdventureScene>, m: Mapdef): (r: seq<Payload>)
    requires AllBuild(scenes, m)
    ensures |r| == |scenes| && forall k :: 0 <= k < |r| ==> r[k] == ScenePayload(scenes[k], m)
  {
    seq(|scenes|, k requires 0 <= k < |scenes| => ScenePayload(scenes[k], m))
  }

  /** Testimony, scenes, actors, placements, notes, and the opening narration. */
  function Batch(a: Adventure, m: Mapdef): seq<Payload>
    requires AllBuild(a.scenes, m)
  {
    [AdventureLoaded(a.id, a.name)] + ScenePayloads(a.scenes, m) + Mapped(a.actors, ActorPayload)
    + Mapped(Placements(a.scenes), TokenPayload) + Mapped(a.notes, NotePayload) + [NarrationAdded(a.narration, [], 0, 0)]
  }

  /** Where a payload comes in a batch. */
  function Stage(p: Payload): nat {
    match p
    case AdventureLoaded(_, _) => 0
    case SceneCreated(_, _, _, _, _, _) => 1
    case ActorAdded(_) => 2
    case TokenPlaced(_, _, _, _, _, _, _, _) => 3
    case NoteUpserted(_, _, _, _) => 4
    case _ => 5
  }

  predicate AllAt(ps: seq<Payload>, stage: nat) { forall k :: 0 <= k < |ps| ==> Stage(ps[k]) == stage }

  /** Stage by stage, up to the last. */
  predicate Staged(ps: seq<Payload>, last: nat) {
    (forall i, j :: 0 <= i < j < |ps| ==> Stage(ps[i]) <= Stage(ps[j])) && forall k :: 0 <= k < |ps| ==> Stage(ps[k]) <= last
  }

  lemma {:induction false} StagedOn(ps: seq<Payload>, more: seq<Payload>, last: nat)
    requires Staged(ps, last) && AllAt(more, last + 1)
    ensures Staged(ps + more, last + 1)
  {
    hide Stage;
    assert forall k :: |ps| <= k < |ps + more| ==> (ps + more)[k] == more[k - |ps|];
  }

  lemma {:induction false} PartsStaged(a: Adventure, m: Mapdef)
    requires AllBuild(a.scenes, m)
    ensures AllAt(ScenePayloads(a.scenes, m), 1) && AllAt(Mapped(a.actors, ActorPayload), 2)
    ensures AllAt(Mapped(Placements(a.scenes), TokenPayload), 3) && AllAt(Mapped(a.notes, NotePayload), 4)
  {
  }

  /** A batch says which adventure it is of first and narrates its opening, unanchored,
      last; between them come its scenes, actors, placements and notes, in that order. */
  lemma {:induction false} BatchReads(a: Adventure, m: Mapdef)
    requires AllBuild(a.scenes, m)
    ensures var b := Batch(a, m);
            && |b| == 2 + |a.scenes| + |a.actors| + |Placements(a.scenes)| + |a.notes| && Staged(b, 5)
            && b[0] == AdventureLoaded(a.id, a.name) && b[|b| - 1] == NarrationAdded(a.narration, [], 0, 0)
  {
    hide Placements, Stage, Staged, AllAt, ScenePayload;
    var first, last := [AdventureLoaded(a.id, a.name)], [NarrationAdded(a.narration, [], 0, 0)];
    PartsStaged(a, m);
    EndsStaged(a);
    var b := first;
    StagedOn(b, ScenePayloads(a.scenes, m), 0);
    b := b + ScenePayloads(a.scenes, m);
    StagedOn(b, Mapped(a.actors, ActorPayload), 1);
    b := b + Mapped(a.actors, ActorPayload);
    StagedOn(b, Mapped(Placements(a.scenes), TokenPayload), 2);
    b := b + Mapped(Placements(a.scenes), TokenPayload);
    StagedOn(b, Mapped(a.notes, NotePayload), 3);
    b := b + Mapped(a.notes, NotePayload);
    StagedOn(b, last, 4);
  }

  lemma {:induction false} EndsStaged(a: Adventure)
    ensures Staged([AdventureLoaded(a.id, a.name)], 0) && AllAt([NarrationAdded(a.narration, [], 0, 0)], 5)
  {
  }

  // ----- collisions -----

  predicate NoCollision(a: Adventure, st: Fold.State) {
    && (forall s :: s in a.scenes ==> s.id !in st.scenes)
    && (forall x :: x in a.actors ==> x.id !in st.actors)
    && (forall t :: t in Placements(a.scenes) ==> t.p.tokenId !in st.tokens)
    && (forall n :: n in a.notes ==> n.key !in st.notes)
  }

  method CheckCollisions(a: Adventure, st: Fold.State) returns (ok: bool)
    ensures ok <==> NoCollision(a, st)
  {
    hide PlacedIn, Placements;
    assert forall t :: t in Placements(a.scenes[..0]) ==> t.p.tokenId !in st.tokens by { NoScenes(); }
    for k := 0 to |a.scenes|
      invariant forall j :: 0 <= j < k ==> a.scenes[j].id !in st.scenes
    {
      if a.scenes[k].id in st.scenes { return false; }
    }
    for k := 0 to |a.actors|
      invariant forall j :: 0 <= j < k ==> a.actors[j].id !in st.actors
    {
      if a.actors[k].id in st.actors { return false; }
    }
    for k := 0 to |a.scenes|
      invariant forall t :: t in Placements(a.scenes[..k]) ==> t.p.tokenId !in st.tokens
    {
      var s := a.scenes[k];
      assert a.scenes[..k + 1] == a.scenes[..k] + [s];
      PlacementsMore(a.scenes[..k], s);
      PlacementsPrefix(a.scenes, k + 1);
      for j := 0 to |s.placements|
        invariant forall i :: 0 <= i < j ==> s.placements[i].tokenId !in st.tokens
      {
        if s.placements[j].tokenId in st.tokens {
          assert PlacedIn(s.id, s.placements)[j] in Placements(a.scenes[..k + 1]);
          return false;
        }
      }
    }
    assert a.scenes[..|a.scenes|] == a.scenes;
    for k := 0 to |a.notes|
      invariant forall j :: 0 <= j < k ==> a.notes[j].key !in st.notes
    {
      if a.notes[k].key in st.notes { return false; }
    }
    ok := true;
  }

  // ----- compiling -----

  /** buildActor: its maps copied, none of the adventure's own aliased. */
  method BuildActor(a: AdventureActor) returns (r: Actor)
    ensures r == BuiltActor(a)
  {
    var attributes := GoHeap.CopyMap(a.attributes);
    var resources := GoHeap.CopyMap(a.resources);
    r := Actor.Actor(a.id, a.name, [], attributes, resources, [], [], a.kind);
  }

  function Unstamped(ps: seq<Payload>): (r: seq<Envelope>)
    ensures |r| == |ps| && forall k :: 0 <= k < |r| ==> r[k] == Envelope(0, [], ps[k])
  {
    seq(|ps|, k requires 0 <= k < |ps| => Envelope(0, [], ps[k]))
  }

  lemma {:induction false} UnstampedConcat(a: seq<Payload>, b: seq<Payload>)
    ensures Unstamped(a + b) == Unstamped(a) + Unstamped(b)
  {
  }

  /** The scenes in order; none when one does not build. */
  method EmitScenes(scenes: seq<AdventureScene>, m: Mapdef, envs: seq<Envelope>) returns (r: Option<seq<Envelope>>)
    ensures r.Some? <==> AllBuild(scenes, m)
    ensures r.Some? ==> r.value == envs + Unstamped(ScenePayloads(scenes, m))
  {
    var out := envs;
    for k := 0 to |scenes|
      invariant AllBuild(scenes[..k], m) && out == envs + Unstamped(ScenePayloads(scenes[..k], m))
    {
      var s := scenes[k];
      var built := m.build(s);
      if built.None? { return None; }
      assert scenes[..k + 1] == scenes[..k] + [s];
      out := out + [Envelope(0, [], SceneCreated(s.id, s.name, s.width, s.height, built.value.tiles, built.value.objects))];
      assert out == envs + Unstamped(ScenePayloads(scenes[..k + 1], m));
    }
    assert scenes[..|scenes|] == scenes;
    r := Some(out);
  }

  method EmitActors(actors: seq<AdventureActor>, envs: seq<Envelope>) returns (out: seq<Envelope>)
    ensures out == envs + Unstamped(Mapped(actors, ActorPayload))
  {
    out := envs;
    for k := 0 to |actors|
      invariant out == envs + Unstamped(Mapped(actors[..k], ActorPayload))
    {
      var built := BuildActor(actors[k]);
      out := out + [Envelope(0, [], ActorAdded(Some(built)))];
      assert out == envs + Unstamped(Mapped(actors[..k + 1], ActorPayload));
    }
    assert actors[..|actors|] == actors;
  }

  method EmitPlacements(s: AdventureScene, envs: seq<Envelope>) returns (out: seq<Envelope>)
    ensures out == envs + Unstamped(Mapped(PlacedIn(s.id, s.placements), TokenPayload))
  {
    ghost var placed := PlacedIn(s.id, s.placements);
    out := envs;
    for j := 0 to |s.placements|
      invariant out == envs + Unstamped(Mapped(placed[..j], TokenPayload))
    {
      var t := s.placements[j];
      out := out + [Envelope(0, [], TokenPlaced(t.tokenId, s.id, t.actorId, Some(Position(t.x, t.y)), t.name, t.notes, t.gmName, t.gmNotes))];
      assert out == envs + Unstamped(Mapped(placed[..j + 1], TokenPayload));
    }
    assert placed[..|s.placements|] == placed;
  }

  lemma {:induction false} MappedConcat<T>(a: seq<T>, b: seq<T>, f: T -> Payload)
    ensures Unstamped(Mapped(a + b, f)) == Unstamped(Mapped(a, f)) + Unstamped(Mapped(b, f))
  {
    assert Mapped(a + b, f) == Mapped(a, f) + Mapped(b, f);
    UnstampedConcat(Mapped(a, f), Mapped(b, f));
  }

  method EmitTokens(scenes: seq<AdventureScene>, envs: seq<Envelope>) returns (out: seq<Envelope>)
    ensures out == envs + Unstamped(Mapped(Placements(scenes), TokenPayload))
  {
    hide PlacedIn, Placements, Mapped, Unstamped;
    out := envs;
    assert envs + Unstamped(Mapped(Placements([]), TokenPayload)) == envs by { NoScenes(); }
    assert scenes[..0] == [];
    for k := 0 to |scenes|
      invariant out == envs + Unstamped(Mapped(Placements(scenes[..k]), TokenPayload))
    {
      var s := scenes[k];
      assert scenes[..k + 1] == scenes[..k] + [s];
      PlacementsMore(scenes[..k], s);
      out := EmitPlacements(s, out);
      MappedConcat(Placements(scenes[..k]), PlacedIn(s.id, s.placements), TokenPayload);
    }
    assert scenes[..|scenes|] == scenes;
  }

  method EmitNotes(notes: seq<AdventureNote>, envs: seq<Envelope>) returns (out: seq<Envelope>)
    ensures out == envs + Unstamped(Mapped(notes, NotePayload))
  {
    out := envs;
    for k := 0 to |notes|
      invariant out == envs + Unstamped(Mapped(notes[..k], NotePayload))
    {
      var n := notes[k];
      out := out + [Envelope(0, [], NoteUpserted(n.key, n.title, n.text, VISIBILITY_PUBLIC))];
      assert out == envs + Unstamped(Mapped(notes[..k + 1], NotePayload));
    }
    assert notes[..|notes|] == notes;
  }

  /** Compile: the whole batch, or nothing when an id collides or a scene does not build. */
  method Compile(a: Adventure, m: Mapdef, st: Fold.State) returns (r: Option<seq<Envelope>>)
    ensures r.Some? <==> NoCollision(a, st) && AllBuild(a.scenes, m)
    ensures r.Some? ==> r.value == Unstamped(Batch(a, m))
  {
    hide NoCollision, Placements, Mapped;
    var free := CheckCollisions(a, st);
    if !free { return None; }
    var envs := [Envelope(0, [], AdventureLoaded(a.id, a.name))];
    var scenes := EmitScenes(a.scenes, m, envs);
    if scenes.None? { return None; }
    var actors := EmitActors(a.actors, scenes.value);
    var tokens := EmitTokens(a.scenes, actors);
    var notes := EmitNotes(a.notes, tokens);
    r := Some(notes + [Envelope(0, [], NarrationAdded(a.narration, [], 0, 0))]);
    BatchUnstamped(a, m);
  }

  lemma {:induction false} BatchUnstamped(a: Adventure, m: Mapdef)
    requires AllBuild(a.scenes, m)
    ensures Unstamped(Batch(a, m)) ==
              [Envelope(0, [], AdventureLoaded(a.id, a.name))] + Unstamped(ScenePayloads(a.scenes, m))
              + Unstamped(Mapped(a.actors, ActorPayload)) + Unstamped(Mapped(Placements(a.scenes), TokenPayload))
              + Unstamped(Mapped(a.notes, NotePayload)) + [Envelope(0, [], NarrationAdded(a.narration, [], 0, 0))]
  {
    hide Placements, Mapped, ScenePayload;
    var p1 := [AdventureLoaded(a.id, a.name)] + ScenePayloads(a.scenes, m);
    var p2 := p1 + Mapped(a.actors, ActorPayload);
    var p3 := p2 + Mapped(Placements(a.scenes), TokenPayload);
    var p4 := p3 + Mapped(a.notes, NotePayload);
    UnstampedConcat([AdventureLoaded(a.id, a.name)], ScenePayloads(a.scenes, m));
    UnstampedConcat(p1, Mapped(a.actors, ActorPayload));
    UnstampedConcat(p2, Mapped(Placements(a.scenes), TokenPayload));
    UnstampedConcat(p3, Mapped(a.notes, NotePayload));
    UnstampedConcat(p4, [NarrationAdded(a.narration, [], 0, 0)]);
    assert Unstamped([AdventureLoaded(a.id, a.name)]) == [Envelope(0, [], AdventureLoaded(a.id, a.name))];
    assert Unstamped([NarrationAdded(a.narration, [], 0, 0)]) == [Envelope(0, [], NarrationAdded(a.narration, [], 0, 0))];
  }

  // ----- the batch folds -----

  /** Envelopes carrying these payloads at the sequences after head, under any session ids. */
  predicate Carries(evs: seq<Envelope>, ps: seq<Payload>, head: int) {
    |evs| == |ps| && forall k :: 0 <= k < |ps| ==> evs[k].payload == ps[k] && evs[k].sequence == head + k + 1
  }

  function SceneOf(s: AdventureScene, m: Mapdef): Fold.Scene
    requires m.build(s).Some?
  {
    var b := m.build(s).value;
    Fold.Scene(s.id, s.name, s.width, s.height, b.tiles, Fold.FromRefs(b.objects), map[], None, None)
  }

  function TokenOf(t: Placed): Fold.Token {
    Fold.Token(t.p.tokenId, t.scene, t.p.actorId, t.p.x, t.p.y, t.p.name, t.p.notes, t.p.gmName, t.p.gmNotes)
  }

  function SceneValues(scenes: seq<AdventureScene>, m: Mapdef): (r: seq<Fold.Scene>)
    requires AllBuild(scenes, m)
    ensures |r| == |scenes| && forall k :: 0 <= k < |r| ==> r[k] == SceneOf(scenes[k], m)
  {
    seq(|scenes|, k requires 0 <= k < |scenes| => SceneOf(scenes[k], m))
  }

  /** Notes as upserted at the sequences after head. */
  function NoteValues(notes: seq<AdventureNote>, head: int): (r: seq<Fold.Note>)
    ensures |r| == |notes|
    ensures forall k :: 0 <= k < |r| ==> r[k] == Fold.Note(notes[k].title, notes[k].text, head + k + 1, VISIBILITY_PUBLIC)
  {
    seq(|notes|, k requires 0 <= k < |notes| => Fold.Note(notes[k].title, notes[k].text, head + k + 1, VISIBILITY_PUBLIC))
  }

  function PutAll<V>(m: map<Text, V>, keys: seq<Text>, values: seq<V>): map<Text, V>
    requires |keys| == |values|
  {
    if keys == [] then m
    else
      var n := |keys| - 1;
      PutAll(m, keys[..n], values[..n])[keys[n] := values[n]]
  }

  /** Exactly the values at their keys beside every earlier entry. */
  predicate Adds<V(==)>(m: map<Text, V>, r: map<Text, V>, keys: seq<Text>, values: seq<V>)
    requires |keys| == |values|
  {
    && (forall id :: id in r ==> id in m || id in keys)
    && (forall id :: id in m ==> id in r && r[id] == m[id])
    && (forall k :: 0 <= k < |keys| ==> keys[k] in r && r[keys[k]] == values[k])
  }

  predicate NewKeys<V>(m: map<Text, V>, keys: seq<Text>) {
    (forall id :: id in keys ==> id !in m) && forall i, j :: 0 <= i < j < |keys| ==> keys[i] != keys[j]
  }

  lemma {:induction false} PutAllAdds<V>(m: map<Text, V>, keys: seq<Text>, values: seq<V>)
    requires |keys| == |values| && NewKeys(m, keys)
    ensures Adds(m, PutAll(m, keys, values), keys, values)
  {
    if keys != [] {
      var n := |keys| - 1;
      var init := keys[..n];
      NewKeysInit(m, keys);
      PutAllAdds(m, init, values[..n]);
      var r0 := PutAll(m, init, values[..n]);
      var r := PutAll(m, keys, values);
      assert r == r0[keys[n] := values[n]];
      forall id | id in r ensures id in m || id in keys {
        assert id == keys[n] || id in m || id in init;
      }
      forall k | 0 <= k < |keys| ensures keys[k] in r && r[keys[k]] == values[k] {
        if k < n { assert init[k] == keys[k] && values[..n][k] == values[k]; }
      }
    }
  }

  lemma {:induction false} NewKeysInit<V>(m: map<Text, V>, keys: seq<Text>)
    requires NewKeys(m, keys) && keys != []
    ensures NewKeys(m, keys[..|keys| - 1]) && keys[|keys| - 1] !in m
    ensures forall id :: id in keys[..|keys| - 1] ==> id in keys && id != keys[|keys| - 1]
  {
  }

  lemma {:induction false} PutAllNext<V>(m: map<Text, V>, keys: seq<Text>, values: seq<V>, n: nat)
    requires |keys| == |values| && NewKeys(m, keys) && n < |keys|
    ensures keys[n] !in PutAll(m, keys[..n], values[..n])
    ensures PutAll(m, keys[..n + 1], values[..n + 1]) == PutAll(m, keys[..n], values[..n])[keys[n] := values[n]]
  {
    assert forall k :: 0 <= k < n ==> keys[..n][k] == keys[k] && keys[k] in keys;
    PutAllAdds(m, keys[..n], values[..n]);
    assert keys[..n + 1][..n] == keys[..n] && values[..n + 1][..n] == values[..n];
  }

  /** One more event after a prefix that folds. */
  lemma {:induction false} StrictNext(st: Fold.State, evs: seq<Envelope>, n: nat, mid: Fold.State)
    requires n < |evs| && Fold.Strict(st, evs[..n]) == Some(mid)
    ensures Fold.Strict(st, evs[..n + 1]) == match Fold.Step(mid, evs[n]) case Accepted(next) => Some(next) case _ => None
  {
    hide Fold.Step;
    assert evs[..n + 1][..n] == evs[..n];
  }

  lemma {:induction false} ScenesFold(st: Fold.State, evs: seq<Envelope>, scenes: seq<AdventureScene>, m: Mapdef, head: int,
                                      loaded: Mapdef, actorIds: set<Text>, n: nat)
    requires n <= |scenes| == |evs| && AllBuild(scenes, m) && MapdefOk(m) && Carries(evs, ScenePayloads(scenes, m), head)
    requires (forall s :: s in scenes ==> SceneOk(s, loaded, actorIds)) && NewKeys(st.scenes, Mapped(scenes, SceneKey))
    ensures Fold.Strict(st, evs[..n]) == Some(st.(scenes := PutAll(st.scenes, Mapped(scenes, SceneKey)[..n], SceneValues(scenes, m)[..n])))
  {
    hide Fold.Strict, Fold.Step, PutAll, NewKeys, Carries, SceneOk, MapdefOk, ScenePayload, SceneOf;
    var keys, values := Mapped(scenes, SceneKey), SceneValues(scenes, m);
    if n == 0 {
      PutNone(st.scenes, keys, values);
      FoldNone(st, evs);
    } else {
      ScenesFold(st, evs, scenes, m, head, loaded, actorIds, n - 1);
      PutAllNext(st.scenes, keys, values, n - 1);
      var mid := st.(scenes := PutAll(st.scenes, keys[..n - 1], values[..n - 1]));
      assert scenes[n - 1] in scenes;
      CarriesNth(evs, ScenePayloads(scenes, m), head, n - 1);
      StrictNext(st, evs, n - 1, mid);
      SceneLands(mid, evs[n - 1], scenes[n - 1], m, loaded, actorIds);
    }
  }

  lemma {:induction false} SceneLands(st: Fold.State, e: Envelope, s: AdventureScene, m: Mapdef, loaded: Mapdef, actorIds: set<Text>)
    requires SceneOk(s, loaded, actorIds) && MapdefOk(m) && m.build(s).Some? && s.id !in st.scenes && e.payload == ScenePayload(s, m)
    ensures Fold.Step(st, e) == Fold.Accepted(st.(scenes := st.scenes[s.id := SceneOf(s, m)]))
  {
    assert BuiltOk(m.build(s).value);
    assert Fold.Step(st, e) == Fold.CreateScene(st, e.payload);
  }

  lemma {:induction false} ActorsFold(st: Fold.State, evs: seq<Envelope>, actors: seq<AdventureActor>, rs: Ruleset, head: int, n: nat)
    requires n <= |actors| == |evs| && RulesetOk(rs) && Carries(evs, Mapped(actors, ActorPayload), head)
    requires (forall a :: a in actors ==> ActorOk(a, rs)) && NewKeys(st.actors, Mapped(actors, ActorKey))
    ensures Fold.Strict(st, evs[..n]) == Some(st.(actors := PutAll(st.actors, Mapped(actors, ActorKey)[..n], Mapped(actors, BuiltActor)[..n])))
  {
    hide Fold.Strict, Fold.Step, PutAll, NewKeys, Carries, ActorOk, RulesetOk, ActorPayload, BuiltActor;
    var keys, values := Mapped(actors, ActorKey), Mapped(actors, BuiltActor);
    if n == 0 {
      PutNone(st.actors, keys, values);
      FoldNone(st, evs);
    } else {
      ActorsFold(st, evs, actors, rs, head, n - 1);
      PutAllNext(st.actors, keys, values, n - 1);
      var mid := st.(actors := PutAll(st.actors, keys[..n - 1], values[..n - 1]));
      assert actors[n - 1] in actors;
      CarriesNth(evs, Mapped(actors, ActorPayload), head, n - 1);
      StrictNext(st, evs, n - 1, mid);
      ActorLands(mid, evs[n - 1], actors[n - 1], rs);
    }
  }

  lemma {:induction false} ActorLands(st: Fold.State, e: Envelope, a: AdventureActor, rs: Ruleset)
    requires ActorOk(a, rs) && RulesetOk(rs) && a.id !in st.actors && e.payload == ActorPayload(a)
    ensures Fold.Step(st, e) == Fold.Accepted(st.(actors := st.actors[a.id := BuiltActor(a)]))
  {
    assert Fold.Step(st, e) == Fold.AddActor(st, e.payload);
  }

  /** A placement may land: its scene and its actor are there. */
  predicate Lands(st: Fold.State, t: Placed) {
    Fold.IdOk(t.p.tokenId) && t.scene in st.scenes && t.p.actorId in st.actors
  }

  lemma {:induction false} TokensFold(st: Fold.State, evs: seq<Envelope>, ps: seq<Placed>, head: int, n: nat)
    requires n <= |ps| == |evs| && Carries(evs, Mapped(ps, TokenPayload), head)
    requires (forall t :: t in ps ==> Lands(st, t)) && NewKeys(st.tokens, Mapped(ps, TokenKey))
    ensures Fold.Strict(st, evs[..n]) == Some(st.(tokens := PutAll(st.tokens, Mapped(ps, TokenKey)[..n], Mapped(ps, TokenOf)[..n])))
  {
    hide Fold.Strict, Fold.Step, PutAll, NewKeys, Carries, Lands, TokenPayload, TokenOf;
    var keys, values := Mapped(ps, TokenKey), Mapped(ps, TokenOf);
    if n == 0 {
      PutNone(st.tokens, keys, values);
      FoldNone(st, evs);
    } else {
      TokensFold(st, evs, ps, head, n - 1);
      PutAllNext(st.tokens, keys, values, n - 1);
      var mid := st.(tokens := PutAll(st.tokens, keys[..n - 1], values[..n - 1]));
      assert ps[n - 1] in ps;
      CarriesNth(evs, Mapped(ps, TokenPayload), head, n - 1);
      StrictNext(st, evs, n - 1, mid);
      TokenLands(st, mid, evs[n - 1], ps[n - 1]);
    }
  }

  lemma {:induction false} TokenLands(st: Fold.State, mid: Fold.State, e: Envelope, t: Placed)
    requires Lands(st, t) && mid.scenes == st.scenes && mid.actors == st.actors && TokenKey(t) !in mid.tokens
    requires e.payload == TokenPayload(t)
    ensures Fold.Step(mid, e) == Fold.Accepted(mid.(tokens := mid.tokens[TokenKey(t) := TokenOf(t)]))
  {
    assert Fold.Step(mid, e) == Fold.PlaceToken(mid, e.payload);
  }

  lemma {:induction false} NoteLands(st: Fold.State, e: Envelope, n: AdventureNote, at: int)
    requires NoteOk(n) && e.payload == NotePayload(n) && e.sequence == at
    ensures Fold.Step(st, e) == Fold.Accepted(st.(notes := st.notes[n.key := Fold.Note(n.title, n.text, at, VISIBILITY_PUBLIC)]))
  {
    assert Fold.Step(st, e) == Fold.UpsertNote(st, e);
  }

  lemma {:induction false} NotesFold(st: Fold.State, evs: seq<Envelope>, notes: seq<AdventureNote>, head: int, n: nat)
    requires n <= |notes| == |evs| && Carries(evs, Mapped(notes, NotePayload), head)
    requires (forall x :: x in notes ==> NoteOk(x)) && NewKeys(st.notes, Mapped(notes, NoteKey))
    ensures Fold.Strict(st, evs[..n]) == Some(st.(notes := PutAll(st.notes, Mapped(notes, NoteKey)[..n], NoteValues(notes, head)[..n])))
  {
    hide Fold.Strict, Fold.Step, PutAll, NewKeys, Carries, NoteOk, NotePayload;
    var keys, values := Mapped(notes, NoteKey), NoteValues(notes, head);
    if n == 0 {
      PutNone(st.notes, keys, values);
      FoldNone(st, evs);
    } else {
      NotesFold(st, evs, notes, head, n - 1);
      PutAllNext(st.notes, keys, values, n - 1);
      var mid := st.(notes := PutAll(st.notes, keys[..n - 1], values[..n - 1]));
      assert notes[n - 1] in notes;
      CarriesNth(evs, Mapped(notes, NotePayload), head, n - 1);
      StrictNext(st, evs, n - 1, mid);
      NoteLands(mid, evs[n - 1], notes[n - 1], head + n);
    }
  }

  lemma {:induction false} CarriesNth(evs: seq<Envelope>, ps: seq<Payload>, head: int, k: nat)
    requires Carries(evs, ps, head) && k < |ps|
    ensures |evs| == |ps| && evs[k].payload == ps[k] && evs[k].sequence == head + k + 1
  {
  }

  lemma {:induction false} PutNone<V>(m: map<Text, V>, keys: seq<Text>, values: seq<V>)
    requires |keys| == |values|
    ensures PutAll(m, keys[..0], values[..0]) == m
  {
  }

  lemma {:induction false} FoldNone(st: Fold.State, evs: seq<Envelope>)
    ensures Fold.Strict(st, evs[..0]) == Some(st)
  {
  }

  // ----- the whole batch -----

  /** How many envelopes come before the notes. */
  function BeforeNotes(a: Adventure): nat { 1 + |a.scenes| + |a.actors| + |Placements(a.scenes)| }

  function Installed(st: Fold.State, a: Adventure, m: Mapdef, head: int): Fold.State
    requires AllBuild(a.scenes, m)
  {
    st.(scenes := PutAll(st.scenes, Mapped(a.scenes, SceneKey), SceneValues(a.scenes, m)),
        actors := PutAll(st.actors, Mapped(a.actors, ActorKey), Mapped(a.actors, BuiltActor)),
        tokens := PutAll(st.tokens, Mapped(Placements(a.scenes), TokenKey), Mapped(Placements(a.scenes), TokenOf)),
        notes := PutAll(st.notes, Mapped(a.notes, NoteKey), NoteValues(a.notes, head + BeforeNotes(a))))
  }

  lemma {:induction false} NewAre<T, V>(m: map<Text, V>, items: seq<T>, key: T -> Text)
    requires DistinctBy(items, key) && forall x :: x in items ==> key(x) !in m
    ensures NewKeys(m, Mapped(items, key))
  {
    var keys := Mapped(items, key);
    forall id | id in keys ensures id !in m {
      var k :| 0 <= k < |keys| && keys[k] == id;
      assert items[k] in items;
    }
  }

  /** Nothing an adventure declares is in the state yet, and it declares nothing twice. */
  lemma {:induction false} AllNew(st: Fold.State, a: Adventure, rs: Ruleset, m: Mapdef)
    requires WellFormed(a, rs, m) && NoCollision(a, st)
    ensures NewKeys(st.scenes, Mapped(a.scenes, SceneKey)) && NewKeys(st.actors, Mapped(a.actors, ActorKey))
    ensures NewKeys(st.tokens, Mapped(Placements(a.scenes), TokenKey)) && NewKeys(st.notes, Mapped(a.notes, NoteKey))
  {
    hide NewKeys, DistinctBy, ActorOk, SceneOk, NoteOk;
    NewAre(st.scenes, a.scenes, SceneKey);
    NewAre(st.actors, a.actors, ActorKey);
    NewAre(st.tokens, Placements(a.scenes), TokenKey);
    NewAre(st.notes, a.notes, NoteKey);
  }

  lemma {:induction false} InstalledAdds(st: Fold.State, a: Adventure, rs: Ruleset, loaded: Mapdef, m: Mapdef, head: int)
    requires WellFormed(a, rs, loaded) && NoCollision(a, st) && AllBuild(a.scenes, m)
    ensures var r := Installed(st, a, m, head);
            && r.sessions == st.sessions && r.conditions == st.conditions
            && Adds(st.scenes, r.scenes, Mapped(a.scenes, SceneKey), SceneValues(a.scenes, m))
            && Adds(st.actors, r.actors, Mapped(a.actors, ActorKey), Mapped(a.actors, BuiltActor))
            && Adds(st.tokens, r.tokens, Mapped(Placements(a.scenes), TokenKey), Mapped(Placements(a.scenes), TokenOf))
            && Adds(st.notes, r.notes, Mapped(a.notes, NoteKey), NoteValues(a.notes, head + BeforeNotes(a)))
  {
    hide Adds, NewKeys, WellFormed, NoCollision, PutAll, Placements, Mapped, SceneValues, NoteValues;
    AllNew(st, a, rs, loaded);
    PutAllAdds(st.scenes, Mapped(a.scenes, SceneKey), SceneValues(a.scenes, m));
    PutAllAdds(st.actors, Mapped(a.actors, ActorKey), Mapped(a.actors, BuiltActor));
    PutAllAdds(st.tokens, Mapped(Placements(a.scenes), TokenKey), Mapped(Placements(a.scenes), TokenOf));
    PutAllAdds(st.notes, Mapped(a.notes, NoteKey), NoteValues(a.notes, head + BeforeNotes(a)));
  }

  lemma {:induction false} PlacementsFrom(scenes: seq<AdventureScene>, t: Placed)
    requires t in Placements(scenes)
    ensures exists s :: s in scenes && s.id == t.scene && t.p in s.placements
  {
    var s := scenes[|scenes| - 1];
    var init := scenes[..|scenes| - 1];
    if t in PlacedIn(s.id, s.placements) {
      assert s in scenes;
    } else {
      PlacementsFrom(init, t);
      var s :| s in init && s.id == t.scene && t.p in s.placements;
      assert s in scenes;
    }
  }

  /** Once its scenes and actors are in, every placement may land. */
  lemma {:induction false} AllLand(st: Fold.State, r: Fold.State, a: Adventure, rs: Ruleset, loaded: Mapdef, m: Mapdef)
    requires WellFormed(a, rs, loaded) && AllBuild(a.scenes, m)
    requires Adds(st.scenes, r.scenes, Mapped(a.scenes, SceneKey), SceneValues(a.scenes, m))
    requires Adds(st.actors, r.actors, Mapped(a.actors, ActorKey), Mapped(a.actors, BuiltActor))
    ensures forall t :: t in Placements(a.scenes) ==> Lands(r, t)
  {
    hide Adds, Lands, WellFormed, Placements;
    forall t | t in Placements(a.scenes) ensures Lands(r, t) {
      OneLands(st, r, a, rs, loaded, m, t);
    }
  }

  lemma {:induction false} OneLands(st: Fold.State, r: Fold.State, a: Adventure, rs: Ruleset, loaded: Mapdef, m: Mapdef, t: Placed)
    requires WellFormed(a, rs, loaded) && AllBuild(a.scenes, m) && t in Placements(a.scenes)
    requires Adds(st.scenes, r.scenes, Mapped(a.scenes, SceneKey), SceneValues(a.scenes, m))
    requires Adds(st.actors, r.actors, Mapped(a.actors, ActorKey), Mapped(a.actors, BuiltActor))
    ensures Lands(r, t)
  {
    hide ActorOk, NoteOk, NoTwins, Placements, Adds, SceneOf, BuiltActor;
    PlacementsFrom(a.scenes, t);
    var s :| s in a.scenes && s.id == t.scene && t.p in s.placements;
    assert SceneOk(s, loaded, Ids(a.actors)) && PlacementOk(t.p, s.width, s.height, Ids(a.actors));
    var x :| x in a.actors && x.id == t.p.actorId;
    AddsKey(st.scenes, r.scenes, a.scenes, SceneKey, SceneValues(a.scenes, m), s);
    AddsKey(st.actors, r.actors, a.actors, ActorKey, Mapped(a.actors, BuiltActor), x);
  }

  lemma {:induction false} AddsKey<T, V>(m: map<Text, V>, r: map<Text, V>, items: seq<T>, key: T -> Text, values: seq<V>, x: T)
    requires |values| == |items| && Adds(m, r, Mapped(items, key), values) && x in items
    ensures key(x) in r
  {
    var i :| 0 <= i < |items| && items[i] == x;
    assert Mapped(items, key)[i] == key(x);
  }

  lemma {:induction false} CarriesSplit(evs: seq<Envelope>, a: seq<Payload>, b: seq<Payload>, head: int)
    requires Carries(evs, a + b, head)
    ensures Carries(evs[..|a|], a, head) && Carries(evs[|a|..], b, head + |a|)
    ensures evs == evs[..|a|] + evs[|a|..]
  {
    assert forall k :: 0 <= k < |a| ==> (a + b)[k] == a[k];
    assert forall k :: 0 <= k < |b| ==> (a + b)[|a| + k] == b[k] && evs[|a|..][k] == evs[|a| + k];
  }

  /** Folding on from one segment to the next. */
  lemma {:induction false} FoldsOn(st: Fold.State, evs: seq<Envelope>, n: nat, mid: Fold.State)
    requires n <= |evs| && Fold.Strict(st, evs[..n]) == Some(mid)
    ensures Fold.Strict(st, evs) == Fold.Strict(mid, evs[n..])
  {
    assert evs == evs[..n] + evs[n..];
    Fold.StrictConcat(st, evs[..n], evs[n..]);
  }

  /** A well-formed adventure that collides with nothing folds whole, event by event,
      on the state it was compiled against, under whatever session ids it is stamped
      with, and leaves exactly what it installs. `loaded` is the mapdef its files were
      loaded with, `m` the one it is compiled with. */
  lemma {:induction false} CompiledFolds(st: Fold.State, a: Adventure, rs: Ruleset, loaded: Mapdef, m: Mapdef, head: int, evs: seq<Envelope>)
    requires WellFormed(a, rs, loaded) && RulesetOk(rs) && MapdefOk(m) && AllBuild(a.scenes, m) && NoCollision(a, st)
    requires Carries(evs, Batch(a, m), head)
    ensures Fold.Strict(st, evs) == Some(Installed(st, a, m, head))
  {
    hide Fold.Strict, Fold.Step, NewKeys, Adds, NoCollision, Placements, Mapped, ScenePayload, Carries, MapdefOk, PutAll, SceneOk, ActorOk, NoteOk,
         Mapped, SceneValues, NoteValues, NoTwins, Lands, ScenePayloads, RulesetOk;
    AllNew(st, a, rs, loaded);
    InstalledAdds(st, a, rs, loaded, m, head);
    var p1, p2, p3, p4 := ScenePayloads(a.scenes, m), Mapped(a.actors, ActorPayload), Mapped(Placements(a.scenes), TokenPayload), Mapped(a.notes, NotePayload);
    var p0, p5 := [AdventureLoaded(a.id, a.name)], [NarrationAdded(a.narration, [], 0, 0)];
    assert Batch(a, m) == p0 + (p1 + (p2 + (p3 + (p4 + p5))));
    CarriesSplit(evs, p0, p1 + (p2 + (p3 + (p4 + p5))), head);
    var e1 := evs[1..];
    CarriesSplit(e1, p1, p2 + (p3 + (p4 + p5)), head + 1);
    var e2 := e1[|p1|..];
    CarriesSplit(e2, p2, p3 + (p4 + p5), head + 1 + |p1|);
    var e3 := e2[|p2|..];
    CarriesSplit(e3, p3, p4 + p5, head + 1 + |p1| + |p2|);
    var e4 := e3[|p3|..];
    CarriesSplit(e4, p4, p5, head + 1 + |p1| + |p2| + |p3|);
    var e5 := e4[|p4|..];
    var r := Installed(st, a, m, head);
    var st1 := st.(scenes := r.scenes);
    var st2 := st1.(actors := r.actors);
    var st3 := st2.(tokens := r.tokens);
    FoldsLoaded(st, a, evs, head);
    FoldsOn(st, evs, 1, st);
    ScenesFold(st, e1[..|p1|], a.scenes, m, head + 1, loaded, Ids(a.actors), |p1|);
    Whole(e1[..|p1|], Mapped(a.scenes, SceneKey), SceneValues(a.scenes, m));
    FoldsOn(st, e1, |p1|, st1);
    ActorsFold(st1, e2[..|p2|], a.actors, rs, head + 1 + |p1|, |p2|);
    Whole(e2[..|p2|], Mapped(a.actors, ActorKey), Mapped(a.actors, BuiltActor));
    FoldsOn(st1, e2, |p2|, st2);
    AllLand(st, st2, a, rs, loaded, m);
    TokensFold(st2, e3[..|p3|], Placements(a.scenes), head + 1 + |p1| + |p2|, |p3|);
    Whole(e3[..|p3|], Mapped(Placements(a.scenes), TokenKey), Mapped(Placements(a.scenes), TokenOf));
    FoldsOn(st2, e3, |p3|, st3);
    NotesFold(st3, e4[..|p4|], a.notes, head + BeforeNotes(a), |p4|);
    Whole(e4[..|p4|], Mapped(a.notes, NoteKey), NoteValues(a.notes, head + BeforeNotes(a)));
    FoldsOn(st3, e4, |p4|, r);
    FoldsNarration(r, a, e5, head + BeforeNotes(a) + |p4|);
  }

  lemma {:induction false} Whole<V>(evs: seq<Envelope>, keys: seq<Text>, values: seq<V>)
    ensures evs[..|evs|] == evs && keys[..|keys|] == keys && values[..|values|] == values
  {
  }

  lemma {:induction false} FoldsLoaded(st: Fold.State, a: Adventure, evs: seq<Envelope>, head: int)
    requires evs != [] && Carries(evs[..1], [AdventureLoaded(a.id, a.name)], head) && Between(a.id, MAX_ID) && Between(a.name, MAX_NAME)
    ensures Fold.Strict(st, evs[..1]) == Some(st)
  {
    var e := evs[..1][0];
    assert evs[..1] == [e];
    Fold.StrictOne(st, e);
  }

  lemma {:induction false} FoldsNarration(st: Fold.State, a: Adventure, evs: seq<Envelope>, head: int)
    requires Carries(evs, [NarrationAdded(a.narration, [], 0, 0)], head) && Between(a.narration, MAX_TEXT)
    ensures Fold.Strict(st, evs) == Some(st)
  {
    assert evs == [evs[0]];
    Fold.StrictOne(st, evs[0]);
    assert Fold.Step(st, evs[0]) == Fold.Narrate(st, evs[0]);
  }

  // ----- what is installed, said of the adventure -----

  /** Nothing a map held is lost or changed. */
  predicate Keeps<V(==)>(m: map<Text, V>, r: map<Text, V>) { forall id :: id in m ==> id in r && r[id] == m[id] }

  predicate SceneSays(sc: Fold.Scene, s: AdventureScene, b: Built) {
    && sc.id == s.id && sc.name == s.name && sc.gridWidth == s.width && sc.gridHeight == s.height && sc.tiles == b.tiles
    && |sc.objects| == |b.objects| && (forall i :: 0 <= i < |b.objects| ==> LastWordScenes.Shows(sc.objects[i], b.objects[i]))
    && sc.openDoors == map[] && sc.explored.None? && sc.visible.None?
  }

  predicate ActorSays(now: Actor, a: AdventureActor) {
    && now.id == a.id && now.name == a.name && now.attributes == a.attributes && now.resources == a.resources && now.kind == a.kind
    && now.moduleId == [] && now.controllerId == [] && now.controllerIds == []
  }

  predicate TokenSays(now: Fold.Token, scene: Text, p: Placement) {
    && now.id == p.tokenId && now.sceneId == scene && now.actorId == p.actorId && now.x == p.x && now.y == p.y
    && now.name == p.name && now.notes == p.notes && now.gmName == p.gmName && now.gmNotes == p.gmNotes
  }

  /** An adventure's notes are open to the players. */
  predicate NoteSays(now: Fold.Note, n: AdventureNote) { now.title == n.title && now.text == n.text && now.visibility == 1 }

  /** A state with an adventure in it: everything it held, and the adventure's scenes,
      actors, placements and notes, each as declared, and nothing else. */
  predicate Brings(st: Fold.State, r: Fold.State, a: Adventure, m: Mapdef)
    requires AllBuild(a.scenes, m)
  {
    && r.sessions == st.sessions && r.conditions == st.conditions
    && Keeps(st.scenes, r.scenes) && Keeps(st.actors, r.actors) && Keeps(st.tokens, r.tokens) && Keeps(st.notes, r.notes)
    && (forall id :: id in r.scenes ==> id in st.scenes || exists s :: s in a.scenes && s.id == id)
    && (forall id :: id in r.actors ==> id in st.actors || exists x :: x in a.actors && x.id == id)
    && (forall id :: id in r.tokens ==> id in st.tokens || exists s, t :: s in a.scenes && t in s.placements && t.tokenId == id)
    && (forall id :: id in r.notes ==> id in st.notes || exists n :: n in a.notes && n.key == id)
    && (forall s :: s in a.scenes ==> s.id in r.scenes && SceneSays(r.scenes[s.id], s, m.build(s).value))
    && (forall x :: x in a.actors ==> x.id in r.actors && ActorSays(r.actors[x.id], x))
    && (forall s, t :: s in a.scenes && t in s.placements ==> t.tokenId in r.tokens && TokenSays(r.tokens[t.tokenId], s.id, t))
    && (forall n :: n in a.notes ==> n.key in r.notes && NoteSays(r.notes[n.key], n))
  }

  /** What was added is there under its key, and what is there was held or added. */
  lemma {:induction false} AddsItems<T, V>(m: map<Text, V>, r: map<Text, V>, items: seq<T>, key: T -> Text, values: seq<V>)
    requires |values| == |items| && Adds(m, r, Mapped(items, key), values)
    ensures Keeps(m, r)
    ensures forall i :: 0 <= i < |items| ==> key(items[i]) in r && r[key(items[i])] == values[i]
    ensures forall id :: id in r ==> id in m || exists x :: x in items && key(x) == id
  {
    var keys := Mapped(items, key);
    assert forall i :: 0 <= i < |items| ==> keys[i] == key(items[i]);
    forall id | id in r && id !in m ensures exists x :: x in items && key(x) == id {
      var i :| 0 <= i < |keys| && keys[i] == id;
      assert items[i] in items && key(items[i]) == id;
    }
  }

  lemma {:induction false} ScenesBrought(st: Fold.State, r: Fold.State, a: Adventure, m: Mapdef)
    requires AllBuild(a.scenes, m) && Adds(st.scenes, r.scenes, Mapped(a.scenes, SceneKey), SceneValues(a.scenes, m))
    ensures Keeps(st.scenes, r.scenes)
    ensures forall id :: id in r.scenes ==> id in st.scenes || exists s :: s in a.scenes && s.id == id
    ensures forall s :: s in a.scenes ==> s.id in r.scenes && SceneSays(r.scenes[s.id], s, m.build(s).value)
  {
    hide Adds, Keeps;
    AddsItems(st.scenes, r.scenes, a.scenes, SceneKey, SceneValues(a.scenes, m));
    forall s | s in a.scenes ensures s.id in r.scenes && SceneSays(r.scenes[s.id], s, m.build(s).value) {
      var i :| 0 <= i < |a.scenes| && a.scenes[i] == s;
      assert SceneKey(a.scenes[i]) == s.id;
    }
    assert forall s :: s in a.scenes ==> SceneKey(s) == s.id;
  }

  lemma {:induction false} ActorsBrought(st: Fold.State, r: Fold.State, a: Adventure)
    requires Adds(st.actors, r.actors, Mapped(a.actors, ActorKey), Mapped(a.actors, BuiltActor))
    ensures Keeps(st.actors, r.actors)
    ensures forall id :: id in r.actors ==> id in st.actors || exists x :: x in a.actors && x.id == id
    ensures forall x :: x in a.actors ==> x.id in r.actors && ActorSays(r.actors[x.id], x)
  {
    hide Adds, Keeps;
    AddsItems(st.actors, r.actors, a.actors, ActorKey, Mapped(a.actors, BuiltActor));
    forall x | x in a.actors ensures x.id in r.actors && ActorSays(r.actors[x.id], x) {
      var i :| 0 <= i < |a.actors| && a.actors[i] == x;
      assert ActorKey(a.actors[i]) == x.id;
    }
    assert forall x :: x in a.actors ==> ActorKey(x) == x.id;
  }

  lemma {:induction false} NotesBrought(st: Fold.State, r: Fold.State, a: Adventure, head: int)
    requires Adds(st.notes, r.notes, Mapped(a.notes, NoteKey), NoteValues(a.notes, head))
    ensures Keeps(st.notes, r.notes)
    ensures forall id :: id in r.notes ==> id in st.notes || exists n :: n in a.notes && n.key == id
    ensures forall n :: n in a.notes ==> n.key in r.notes && NoteSays(r.notes[n.key], n)
  {
    hide Adds, Keeps;
    AddsItems(st.notes, r.notes, a.notes, NoteKey, NoteValues(a.notes, head));
    forall n | n in a.notes ensures n.key in r.notes && NoteSays(r.notes[n.key], n) {
      var i :| 0 <= i < |a.notes| && a.notes[i] == n;
      assert NoteKey(a.notes[i]) == n.key;
    }
    assert forall n :: n in a.notes ==> NoteKey(n) == n.key;
  }

  /** Every placement of every scene is among them all. */
  lemma {:induction false} PlacementsHold(scenes: seq<AdventureScene>, s: AdventureScene, t: Placement)
    requires s in scenes && t in s.placements
    ensures Placed(s.id, t) in Placements(scenes)
  {
    var last := scenes[|scenes| - 1];
    if s == last {
      var k :| 0 <= k < |s.placements| && s.placements[k] == t;
      assert PlacedIn(s.id, s.placements)[k] == Placed(s.id, t);
    } else {
      PlacementsHold(scenes[..|scenes| - 1], s, t);
    }
  }

  lemma {:induction false} TokensBrought(st: Fold.State, r: Fold.State, a: Adventure)
    requires Adds(st.tokens, r.tokens, Mapped(Placements(a.scenes), TokenKey), Mapped(Placements(a.scenes), TokenOf))
    ensures Keeps(st.tokens, r.tokens)
    ensures forall id :: id in r.tokens ==> id in st.tokens || exists s, t :: s in a.scenes && t in s.placements && t.tokenId == id
    ensures forall s, t :: s in a.scenes && t in s.placements ==> t.tokenId in r.tokens && TokenSays(r.tokens[t.tokenId], s.id, t)
  {
    hide Adds, Keeps, Placements;
    var ps := Placements(a.scenes);
    AddsItems(st.tokens, r.tokens, ps, TokenKey, Mapped(ps, TokenOf));
    forall s, t | s in a.scenes && t in s.placements ensures t.tokenId in r.tokens && TokenSays(r.tokens[t.tokenId], s.id, t) {
      PlacementsHold(a.scenes, s, t);
      var i :| 0 <= i < |ps| && ps[i] == Placed(s.id, t);
      assert TokenKey(ps[i]) == t.tokenId;
    }
    forall id | id in r.tokens && id !in st.tokens ensures exists s, t :: s in a.scenes && t in s.placements && t.tokenId == id {
      var x :| x in ps && TokenKey(x) == id;
      PlacementsFrom(a.scenes, x);
    }
  }

  /** The result is the state it was compiled against and exactly what the adventure
      declares; every earlier entry stays as it was. */
  lemma {:induction false} InstallsExactly(st: Fold.State, a: Adventure, rs: Ruleset, loaded: Mapdef, m: Mapdef, head: int)
    requires WellFormed(a, rs, loaded) && NoCollision(a, st) && AllBuild(a.scenes, m)
    ensures Brings(st, Installed(st, a, m, head), a, m)
  {
    hide Adds, Keeps, WellFormed, NoCollision, Placements, PutAll, SceneSays, ActorSays, TokenSays, NoteSays;
    InstalledAdds(st, a, rs, loaded, m, head);
    var r := Installed(st, a, m, head);
    ScenesBrought(st, r, a, m);
    ActorsBrought(st, r, a);
    TokensBrought(st, r, a);
    NotesBrought(st, r, a, head + BeforeNotes(a));
  }

  /** A resource within a maximum it has. */
  predicate Full(rs: map<Text, Resource>) { forall k :: k in rs && 0 < rs[k].max ==> rs[k].current <= rs[k].max }

  /** What an adventure brings can be played: every token it places stands on a square of
      its scene's grid and for one of its actors, every actor is named, of one of the two
      kinds, with properties the ruleset has and resources within their maxima. */
  lemma {:induction false} BringsPlayable(st: Fold.State, r: Fold.State, a: Adventure, rs: Ruleset, loaded: Mapdef, m: Mapdef)
    requires WellFormed(a, rs, loaded) && AllBuild(a.scenes, m) && Brings(st, r, a, m)
    ensures forall s, t :: s in a.scenes && t in s.placements ==>
              && t.tokenId in r.tokens && s.id in r.scenes && r.tokens[t.tokenId].sceneId == s.id
              && 0 <= r.tokens[t.tokenId].x < r.scenes[s.id].gridWidth && 0 <= r.tokens[t.tokenId].y < r.scenes[s.id].gridHeight
              && exists x :: x in a.actors && x.id == r.tokens[t.tokenId].actorId
    ensures forall x :: x in a.actors ==>
              && x.id in r.actors && 1 <= |r.actors[x.id].name| <= 256 && 1 <= r.actors[x.id].kind <= 2
              && r.actors[x.id].attributes.Keys <= rs.numbers && r.actors[x.id].resources.Keys <= rs.resources
              && Full(r.actors[x.id].resources)
    ensures forall s :: s in a.scenes ==> s.id in r.scenes && 1 <= |r.scenes[s.id].name| <= 256
    ensures forall n :: n in a.notes ==> n.key in r.notes && |r.notes[n.key].title| <= 256 && 1 <= |r.notes[n.key].text| <= 8192
  {
    hide Keeps, NoTwins;
    forall s, t | s in a.scenes && t in s.placements
      ensures && t.tokenId in r.tokens && s.id in r.scenes && r.tokens[t.tokenId].sceneId == s.id
              && 0 <= r.tokens[t.tokenId].x < r.scenes[s.id].gridWidth && 0 <= r.tokens[t.tokenId].y < r.scenes[s.id].gridHeight
              && exists x :: x in a.actors && x.id == r.tokens[t.tokenId].actorId
    {
      assert SceneSays(r.scenes[s.id], s, m.build(s).value) && TokenSays(r.tokens[t.tokenId], s.id, t);
      assert SceneOk(s, loaded, Ids(a.actors)) && PlacementOk(t, s.width, s.height, Ids(a.actors));
    }
    forall x | x in a.actors
      ensures && x.id in r.actors && 1 <= |r.actors[x.id].name| <= 256 && 1 <= r.actors[x.id].kind <= 2
              && r.actors[x.id].attributes.Keys <= rs.numbers && r.actors[x.id].resources.Keys <= rs.resources
              && Full(r.actors[x.id].resources)
    {
      assert ActorSays(r.actors[x.id], x) && ActorOk(x, rs);
    }
    assert forall s :: s in a.scenes ==> SceneSays(r.scenes[s.id], s, m.build(s).value) && SceneOk(s, loaded, Ids(a.actors));
    assert forall n :: n in a.notes ==> NoteSays(r.notes[n.key], n) && NoteOk(n);
  }

  // ----- through the campaign -----

  /** A batch whose payloads fold under any session ids validates. */
  lemma {:induction false} PayloadsValidate(st: Fold.State, head: int, envs: seq<Envelope>, drawn: seq<Text>, ps: seq<Payload>, n: nat)
    requires |drawn| == |envs| == |ps| && n <= |ps| && forall k :: 0 <= k < |ps| ==> envs[k].payload == ps[k]
    requires forall evs :: Carries(evs, ps, head) ==> Fold.Strict(st, evs).Some?
    ensures var v := CampaignSpec.Validate(st, head, envs[..n], drawn[..n]); v.Some? && Carries(v.value.0, ps[..n], head)
  {
    hide Fold.Step, Fold.Strict, CampaignSpec.SessionIdFor, CampaignSpec.Validate;
    if n == 0 {
      CampaignInvariant.ValidateNone(st, head);
      assert envs[..0] == [] && drawn[..0] == [];
    } else {
      CampaignInvariant.ValidateNext(st, head, envs, drawn, n - 1);
      PayloadsValidate(st, head, envs, drawn, ps, n - 1);
      var v := CampaignSpec.Validate(st, head, envs[..n - 1], drawn[..n - 1]).value;
      CampaignInvariant.ValidateFolds(st, head, envs[..n - 1], drawn[..n - 1]);
      var env := envs[n - 1].(sessionId := CampaignSpec.SessionIdFor(envs[n - 1], drawn[n - 1], v.1), sequence := head + n);
      var evs := Completed(v.0 + [env], ps, head);
      assert Carries(v.0 + [env], ps[..n], head) by {
        assert forall k :: 0 <= k < n - 1 ==> ps[..n - 1][k] == ps[k];
      }
      CompletedCarries(v.0 + [env], ps, head);
      hide Completed, Carries;
      FoldsPrefix(st, evs, n);
      assert evs[..n] == v.0 + [env];
      StrictNext(st, v.0 + [env], n - 1, v.1) by { assert (v.0 + [env])[..n - 1] == v.0; }
      assert (v.0 + [env])[..n] == v.0 + [env];
    }
  }

  /** A beginning of a batch with the rest of its payloads after it. */
  function Completed(done: seq<Envelope>, ps: seq<Payload>, head: int): (r: seq<Envelope>)
    requires |done| <= |ps|
    ensures |r| == |ps| && r[..|done|] == done
  {
    done + seq(|ps| - |done|, k requires 0 <= k < |ps| - |done| => Envelope(head + |done| + k + 1, [], ps[|done| + k]))
  }

  lemma {:induction false} CompletedCarries(done: seq<Envelope>, ps: seq<Payload>, head: int)
    requires |done| <= |ps| && Carries(done, ps[..|done|], head)
    ensures Carries(Completed(done, ps, head), ps, head)
  {
    forall k | 0 <= k < |ps|
      ensures var e := Completed(done, ps, head)[k]; e.payload == ps[k] && e.sequence == head + k + 1
    {
      if k < |done| { assert ps[..|done|][k] == ps[k]; }
    }
  }

  lemma {:induction false} FoldsPrefix(st: Fold.State, evs: seq<Envelope>, n: nat)
    requires n <= |evs| && Fold.Strict(st, evs).Some?
    ensures Fold.Strict(st, evs[..n]).Some?
  {
    hide Fold.Strict;
    assert evs == evs[..n] + evs[n..];
    Fold.StrictConcat(st, evs[..n], evs[n..]);
  }

  /** Loading an adventure that collides with nothing never fails but for the store:
      the whole batch is appended, and the campaign's state is what it installs. */
  lemma {:induction false} LoadingAppends<D>(p: CharacterLogs.Perception<D>, c: CampaignSpec.Camp<D>, a: Adventure, rs: Ruleset,
                                             loaded: Mapdef, m: Mapdef, drawn: seq<Text>)
    requires CampaignInvariant.Inv(c) && WellFormed(a, rs, loaded) && RulesetOk(rs)
    requires MapdefOk(m) && AllBuild(a.scenes, m) && NoCollision(a, c.state) && |drawn| == |Batch(a, m)|
    ensures var r := CampaignSpec.Append(p, c, Unstamped(Batch(a, m)), drawn, true);
            r.1.Appended? && r.0.state == Installed(c.state, a, m, c.head) && Brings(c.state, r.0.state, a, m)
  {
    hide WellFormed, NoCollision, Installed, MapdefOk, CampaignInvariant.Inv, CampaignSpec.Append, Fold.Strict, Batch, Brings;
    InstallsExactly(c.state, a, rs, loaded, m, c.head);
    var ps := Batch(a, m);
    var envs := Unstamped(ps);
    forall evs | Carries(evs, ps, c.head) ensures Fold.Strict(c.state, evs) == Some(Installed(c.state, a, m, c.head)) {
      CompiledFolds(c.state, a, rs, loaded, m, c.head, evs);
    }
    PayloadsValidate(c.state, c.head, envs, drawn, ps, |ps|);
    assert envs[..|ps|] == envs && drawn[..|ps|] == drawn && ps[..|ps|] == ps;
    BatchKnown(a, m);
    CampaignTheorems.AppendFailsWhen(p, c, envs, drawn, true);
    CampaignInvariant.AppendKeeps(p, c, envs, drawn, true);
    AppendedState(p, c, envs, drawn);
  }

  lemma {:induction false} BatchKnown(a: Adventure, m: Mapdef)
    requires AllBuild(a.scenes, m)
    ensures Batch(a, m) != [] && forall k :: 0 <= k < |Batch(a, m)| ==> !Batch(a, m)[k].NoPayload?
  {
    hide Placements;
  }

  lemma {:induction false} AppendedState<D>(p: CharacterLogs.Perception<D>, c: CampaignSpec.Camp<D>, envs: seq<Envelope>, drawn: seq<Text>)
    requires CampaignInvariant.Inv(c) && |drawn| == |envs| && CampaignSpec.Append(p, c, envs, drawn, true).1.Appended?
    ensures CampaignSpec.Validate(c.state, c.head, envs, drawn).Some?
    ensures Some(CampaignSpec.Append(p, c, envs, drawn, true).0.state) ==
              Fold.Strict(c.state, CampaignSpec.Validate(c.state, c.head, envs, drawn).value.0)
  {
    hide CampaignInvariant.Inv, CampaignSpec.Commit, CharacterLogs.FanEvents, Fold.Strict;
    CampaignInvariant.ValidateFolds(c.state, c.head, envs, drawn);
    if CampaignSpec.Validate(c.state, c.head, envs, drawn).Some? {
      CampaignInvariant.CommitKeeps(p, c, CampaignSpec.Validate(c.state, c.head, envs, drawn).value.0);
    }
  }

  // ----- from the files -----

  /** An actor as its file has it, when an adventure of that file is loaded. */
  predicate FileSays(now: Actor, f: RawActor) {
    && now.id == f.id && now.name == f.name && now.attributes == f.attributes && now.resources == f.resources
    && now.controllerIds == [] && (now.kind == 1 <==> f.kind == PARTY_MEMBER) && (now.kind == 2 <==> f.kind == NON_PARTY)
  }

  lemma {:induction false} FlatHolds(docs: seq<Option<seq<AdventureNote>>>, k: nat, n: AdventureNote)
    requires k < |docs| && docs[k].Some? && n in docs[k].value
    ensures n in Flat(docs)
  {
    if k < |docs| - 1 {
      FlatHolds(docs[..|docs| - 1], k, n);
    }
  }

  /** Loading what a bundle gives leaves each file's actor as the file has it, a party
      member exactly when its file says party_member, each file's scene and each of its
      placements, and every note of every notes file, open to the players. */
  lemma {:induction false} LoadingSays<D>(p: CharacterLogs.Perception<D>, c: CampaignSpec.Camp<D>, b: Bundle, a: Adventure, rs: Ruleset,
                                          loaded: Mapdef, m: Mapdef, drawn: seq<Text>)
    requires CampaignInvariant.Inv(c) && Gives(b, a) && WellFormed(a, rs, loaded) && RulesetOk(rs)
    requires MapdefOk(m) && AllBuild(a.scenes, m) && NoCollision(a, c.state) && |drawn| == |Batch(a, m)|
    ensures var st := CampaignSpec.Append(p, c, Unstamped(Batch(a, m)), drawn, true).0.state;
            && (forall k :: 0 <= k < |b.actors| ==>
                  && b.actors[k].Some? && b.actors[k].value.id in st.actors
                  && FileSays(st.actors[b.actors[k].value.id], b.actors[k].value))
            && (forall k :: 0 <= k < |b.scenes| ==>
                  && b.scenes[k].Some? && m.build(b.scenes[k].value).Some? && b.scenes[k].value.id in st.scenes
                  && SceneSays(st.scenes[b.scenes[k].value.id], b.scenes[k].value, m.build(b.scenes[k].value).value))
            && (forall k, t :: 0 <= k < |b.scenes| && t in b.scenes[k].value.placements ==>
                  t.tokenId in st.tokens && TokenSays(st.tokens[t.tokenId], b.scenes[k].value.id, t))
            && (forall k, n :: 0 <= k < |b.notes| && b.notes[k].Some? && n in b.notes[k].value ==>
                  n.key in st.notes && NoteSays(st.notes[n.key], n))
  {
    hide CampaignInvariant.Inv, CampaignSpec.Append, Batch, WellFormed, NoCollision, MapdefOk, Installed, SceneSays, TokenSays, NoteSays, Keeps, Flat;
    LoadingAppends(p, c, a, rs, loaded, m, drawn);
    var st := CampaignSpec.Append(p, c, Unstamped(Batch(a, m)), drawn, true).0.state;
    forall k | 0 <= k < |b.actors|
      ensures b.actors[k].Some? && b.actors[k].value.id in st.actors && FileSays(st.actors[b.actors[k].value.id], b.actors[k].value)
    {
      assert a.actors[k] in a.actors && Reads(b.actors[k].value, a.actors[k]);
    }
    assert forall k :: 0 <= k < |b.scenes| ==> b.scenes[k] == Some(a.scenes[k]) && a.scenes[k] in a.scenes;
    forall k, n | 0 <= k < |b.notes| && b.notes[k].Some? && n in b.notes[k].value
      ensures n.key in st.notes && NoteSays(st.notes[n.key], n)
    {
      FlatHolds(b.notes, k, n);
    }
  }
}
