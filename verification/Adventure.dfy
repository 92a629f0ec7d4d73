/** Adventures (internal/adventure/load.go, internal/adventure/compile.go): decoded
    files validated into an adventure, and the adventure compiled into the batch
    that sets it up. What internal/mapdef and internal/rules decide are parameters. */
module Adventure {
  import opened Contract
  import Fold

  const MAX_KEY := 128
  const MAX_TITLE := 256
  const MAX_TEXT := 8192
  const MAX_NAME := 256
  const MAX_ID := 128

  const PARTY_MEMBER: Text := [0x70, 0x61, 0x72, 0x74, 0x79, 0x5f, 0x6d, 0x65, 0x6d, 0x62, 0x65, 0x72]
  const NON_PARTY: Text := [0x6e, 0x6f, 0x6e, 0x5f, 0x70, 0x61, 0x72, 0x74, 0x79]
  const FORMAT_ONE: Text := [0x31]

  // ----- decoded files -----

  datatype RawActor = RawActor(id: Text, name: Text, kind: Text, attributes: map<Text, int32>, resources: map<Text, Resource>)

  datatype Placement = Placement(tokenId: Text, actorId: Text, x: int32, y: int32, name: Text, notes: Text, gmName: Text, gmNotes: Text)

  /** What only mapdef reads of a scene. */
  datatype Drawing = Drawing(tiles: map<Text, Text>, overrides: map<Text, Text>, objects: seq<ObjectRef>)

  datatype AdventureScene = AdventureScene(id: Text, name: Text, width: int32, height: int32, drawing: Drawing, placements: seq<Placement>)

  datatype AdventureNote = AdventureNote(key: Text, title: Text, text: Text)

  datatype Manifest = Manifest(id: Text, name: Text, formatVersion: Text, ruleset: Text, narration: Text)

  /** A bundle's files in file-name order; None is a file that does not decode. */
  datatype Bundle = Bundle(manifest: Option<Manifest>, actors: seq<Option<RawActor>>, scenes: seq<Option<AdventureScene>>, notes: seq<Option<seq<AdventureNote>>>)

  // ----- loaded -----

  datatype AdventureActor = AdventureActor(id: Text, name: Text, kind: int32, attributes: map<Text, int32>, resources: map<Text, Resource>)

  datatype Adventure = Adventure(id: Text, name: Text, rulesetId: Text, narration: Text,
                                 scenes: seq<AdventureScene>, actors: seq<AdventureActor>, notes: seq<AdventureNote>)

  /** The ruleset served: its id and its properties by type. */
  datatype Ruleset = Ruleset(id: Text, numbers: set<Text>, resources: set<Text>)

  /** A ruleset's property keys are ids. */
  predicate RulesetOk(rs: Ruleset) { forall k :: k in rs.numbers + rs.resources ==> Fold.IdOk(k) }

  /** mapdef: every check of a scene's drawing and of placements against its walls, and
      the one construction of a SceneCreated, which may fail. */
  datatype Mapdef = Mapdef(accepts: AdventureScene -> bool, build: AdventureScene -> Option<Built>)

  datatype Built = Built(tiles: map<Text, TileRef>, objects: seq<ObjectRef>)

  predicate BuiltOk(b: Built) {
    Fold.DistinctRefs(b.objects) && forall o :: o in b.objects ==> Fold.IdOk(o.id)
  }

  /** What mapdef builds carries distinct object ids within bounds. */
  ghost predicate MapdefOk(m: Mapdef) { forall s :: m.build(s).Some? ==> BuiltOk(m.build(s).value) }

  // ----- what a well-formed adventure is -----

  predicate Between(t: Text, most: nat) { 1 <= |t| <= most }

  predicate DistinctBy<T>(s: seq<T>, key: T -> Text) { forall i, j :: 0 <= i < j < |s| ==> key(s[i]) != key(s[j]) }

  predicate KindOk(kind: int32) { kind == KIND_PARTY_MEMBER || kind == KIND_NON_PARTY }

  predicate ActorOk(a: AdventureActor, rs: Ruleset) {
    && Between(a.id, MAX_ID) && Between(a.name, MAX_NAME) && KindOk(a.kind)
    && a.attributes.Keys <= rs.numbers && a.resources.Keys <= rs.resources
    && forall k :: k in a.resources ==> ResourceOk(a.resources[k])
  }

  predicate ResourceOk(r: Resource) { r.max > 0 ==> r.current <= r.max }

  predicate PlacementOk(p: Placement, width: int32, height: int32, actorIds: set<Text>) {
    Between(p.tokenId, MAX_ID) && p.actorId != [] && p.actorId in actorIds && 0 <= p.x < width && 0 <= p.y < height
  }

  /** One scene, but for its token ids' being its own. */
  predicate SceneOk(s: AdventureScene, m: Mapdef, actorIds: set<Text>) {
    && Between(s.id, MAX_ID) && Between(s.name, MAX_NAME) && s.width >= 1 && s.height >= 1
    && m.accepts(s) && m.build(s).Some?
    && forall p :: p in s.placements ==> PlacementOk(p, s.width, s.height, actorIds)
  }

  predicate NoteOk(n: AdventureNote) { Between(n.key, MAX_KEY) && |n.title| <= MAX_TITLE && Between(n.text, MAX_TEXT) }

  function Ids(actors: seq<AdventureActor>): set<Text> { set a | a in actors :: a.id }

  /** A placement beside the scene it is declared in. */
  datatype Placed = Placed(scene: Text, p: Placement)

  function PlacedIn(scene: Text, ps: seq<Placement>): (r: seq<Placed>)
    ensures |r| == |ps| && forall k :: 0 <= k < |r| ==> r[k] == Placed(scene, ps[k])
  {
    seq(|ps|, k requires 0 <= k < |ps| => Placed(scene, ps[k]))
  }

  /** Every placement, in scene order and then declared order. */
  function Placements(scenes: seq<AdventureScene>): seq<Placed> {
    if scenes == [] then []
    else
      var s := scenes[|scenes| - 1];
      Placements(scenes[..|scenes| - 1]) + PlacedIn(s.id, s.placements)
  }

  function SceneKey(s: AdventureScene): Text { s.id }
  function ActorKey(a: AdventureActor): Text { a.id }
  function NoteKey(n: AdventureNote): Text { n.key }
  function TokenKey(p: Placed): Text { p.p.tokenId }

  /** No two ids of a kind alike, tokens across every scene. */
  predicate NoTwins(a: Adventure) {
    && DistinctBy(a.scenes, SceneKey) && DistinctBy(a.actors, ActorKey)
    && DistinctBy(a.notes, NoteKey) && DistinctBy(Placements(a.scenes), TokenKey)
  }

  predicate WellFormed(a: Adventure, rs: Ruleset, m: Mapdef) {
    && Between(a.id, MAX_ID) && Between(a.name, MAX_NAME) && Between(a.narration, MAX_TEXT) && a.rulesetId == rs.id != []
    && (forall x :: x in a.actors ==> ActorOk(x, rs))
    && (forall s :: s in a.scenes ==> SceneOk(s, m, Ids(a.actors)))
    && (forall n :: n in a.notes ==> NoteOk(n))
    && NoTwins(a) && !(a.scenes == [] && a.actors == [] && a.notes == [])
  }

  // ----- loading -----

  function KindNamed(name: Text): Option<int32> {
    if name == PARTY_MEMBER then Some(KIND_PARTY_MEMBER) else if name == NON_PARTY then Some(KIND_NON_PARTY) else None
  }

  /** One statblock's keys and values against the ruleset. */
  method CheckStatblock(r: RawActor, rs: Ruleset) returns (ok: bool)
    ensures ok <==> r.attributes.Keys <= rs.numbers && r.resources.Keys <= rs.resources
                    && forall k :: k in r.resources ==> ResourceOk(r.resources[k])
  {
    var todo := r.attributes.Keys;
    while todo != {}
      invariant todo <= r.attributes.Keys && r.attributes.Keys - todo <= rs.numbers
      decreases todo
    {
      var k :| k in todo;
      if k !in rs.numbers { return false; }
      todo := todo - {k};
    }
    todo := r.resources.Keys;
    while todo != {}
      invariant todo <= r.resources.Keys && r.resources.Keys - todo <= rs.resources
      invariant forall k :: k in r.resources && k !in todo ==> ResourceOk(r.resources[k])
      decreases todo
    {
      var k :| k in todo;
      if k !in rs.resources || !ResourceOk(r.resources[k]) { return false; }
      todo := todo - {k};
    }
    ok := true;
  }

  lemma {:induction false} DistinctPrefix<T>(s: seq<T>, key: T -> Text, n: nat)
    requires n <= |s| && DistinctBy(s, key)
    ensures DistinctBy(s[..n], key)
  {
  }

  lemma {:induction false} DistinctMore<T>(s: seq<T>, x: T, key: T -> Text)
    ensures DistinctBy(s + [x], key) <==> DistinctBy(s, key) && forall y :: y in s ==> key(y) != key(x)
  {
    var all := s + [x];
    if DistinctBy(all, key) {
      DistinctPrefix(all, key, |s|);
      assert all[..|s|] == s;
      forall y | y in s ensures key(y) != key(x) {
        var k :| 0 <= k < |s| && s[k] == y;
        assert all[k] == y && all[|s|] == x;
      }
    } else if DistinctBy(s, key) {
      var i, j :| 0 <= i < j < |all| && key(all[i]) == key(all[j]);
      assert j == |s| && all[i] == s[i] && all[i] in s;
    }
  }

  // ----- actors -----

  /** An actor as its file has it: of kind 1 or 2, and which one its kind's name says. */
  predicate Reads(r: RawActor, a: AdventureActor) {
    && a.id == r.id && a.name == r.name && a.attributes == r.attributes && a.resources == r.resources
    && (a.kind == 1 <==> r.kind == PARTY_MEMBER) && (a.kind == 2 <==> r.kind == NON_PARTY) && 1 <= a.kind <= 2
  }

  /** The adventure's actors are the files', in their order. */
  predicate GivesActors(docs: seq<Option<RawActor>>, out: seq<AdventureActor>) {
    |out| == |docs| && forall k :: 0 <= k < |docs| ==> docs[k].Some? && Reads(docs[k].value, out[k])
  }

  predicate ActorsOk(out: seq<AdventureActor>, rs: Ruleset) {
    (forall x :: x in out ==> ActorOk(x, rs)) && DistinctBy(out, ActorKey)
  }

  method LoadActors(docs: seq<Option<RawActor>>, rs: Ruleset) returns (r: Option<(seq<AdventureActor>, set<Text>)>)
    ensures r.Some? ==> GivesActors(docs, r.value.0) && ActorsOk(r.value.0, rs) && r.value.1 == Ids(r.value.0)
    ensures r.None? ==> forall out :: GivesActors(docs, out) ==> !ActorsOk(out, rs)
  {
    var seen, out := {}, [];
    for i := 0 to |docs|
      invariant GivesActors(docs[..i], out) && ActorsOk(out, rs) && seen == Ids(out)
    {
      if docs[i].None? { return None; }
      var raw := docs[i].value;
      var stats := CheckStatblock(raw, rs);
      var kind := KindNamed(raw.kind);
      if !Between(raw.id, MAX_ID) || !Between(raw.name, MAX_NAME) || raw.id in seen || kind.None? || !stats {
        RefusedActor(docs, rs, out, i);
        return None;
      }
      var a := AdventureActor(raw.id, raw.name, kind.value, raw.attributes, raw.resources);
      DistinctMore(out, a, ActorKey);
      assert Ids(out + [a]) == Ids(out) + {a.id};
      seen, out := seen + {raw.id}, out + [a];
    }
    assert docs[..|docs|] == docs;
    r := Some((out, seen));
  }

  /** A file refused refuses them all. */
  lemma {:induction false} RefusedActor(docs: seq<Option<RawActor>>, rs: Ruleset, out: seq<AdventureActor>, i: nat)
    requires i < |docs| && docs[i].Some? && GivesActors(docs[..i], out)
    requires forall a :: Reads(docs[i].value, a) ==> !ActorOk(a, rs) || a.id in Ids(out)
    ensures forall all :: GivesActors(docs, all) ==> !ActorsOk(all, rs)
  {
    forall all: seq<AdventureActor> | GivesActors(docs, all) ensures !ActorsOk(all, rs) {
      assert all[..i] == out by {
        assert forall k :: 0 <= k < i ==> docs[..i][k] == docs[k];
      }
      assert all[i] in all;
      DistinctMore(out, all[i], ActorKey);
      assert all[..i + 1] == out + [all[i]];
      if DistinctBy(all, ActorKey) {
        DistinctPrefix(all, ActorKey, i + 1);
      }
    }
  }

  // ----- scenes -----

  predicate GivesScenes(docs: seq<Option<AdventureScene>>, out: seq<AdventureScene>) {
    |out| == |docs| && forall k :: 0 <= k < |docs| ==> docs[k] == Some(out[k])
  }

  predicate ScenesOk(out: seq<AdventureScene>, m: Mapdef, actorIds: set<Text>) {
    && (forall s :: s in out ==> SceneOk(s, m, actorIds))
    && DistinctBy(out, SceneKey) && DistinctBy(Placements(out), TokenKey)
  }

  function TokenIds(ps: seq<Placed>): set<Text> { set p | p in ps :: p.p.tokenId }

  /** One scene's placements, against the token ids of every placement before them. */
  method LoadPlacements(s: AdventureScene, actorIds: set<Text>, seen: set<Text>, ghost before: seq<Placed>) returns (ok: bool, now: set<Text>)
    requires seen == TokenIds(before) && DistinctBy(before, TokenKey)
    ensures ok <==> (forall p :: p in s.placements ==> PlacementOk(p, s.width, s.height, actorIds))
                    && DistinctBy(before + PlacedIn(s.id, s.placements), TokenKey)
    ensures ok ==> now == TokenIds(before + PlacedIn(s.id, s.placements))
  {
    hide DistinctBy;
    now := seen;
    ghost var placed := PlacedIn(s.id, s.placements);
    assert before + placed[..0] == before;
    for k := 0 to |s.placements|
      invariant forall j :: 0 <= j < k ==> PlacementOk(s.placements[j], s.width, s.height, actorIds)
      invariant DistinctBy(before + placed[..k], TokenKey) && now == TokenIds(before + placed[..k])
    {
      var p := s.placements[k];
      assert before + placed[..k + 1] == (before + placed[..k]) + [placed[k]];
      DistinctMore(before + placed[..k], placed[k], TokenKey);
      if !Between(p.tokenId, MAX_ID) || p.actorId == [] || p.tokenId in now || p.actorId !in actorIds
         || p.x < 0 || p.x >= s.width || p.y < 0 || p.y >= s.height {
        assert p in s.placements;
        if p.tokenId in now {
          assert !DistinctBy(before + placed[..k + 1], TokenKey);
          PrefixTwins(before + placed, before + placed[..k + 1]);
        }
        return false, now;
      }
      assert TokenIds(before + placed[..k + 1]) == TokenIds(before + placed[..k]) + {p.tokenId};
      now := now + {p.tokenId};
    }
    assert placed[..|s.placements|] == placed;
    ok := true;
  }

  lemma {:induction false} PrefixTwins(all: seq<Placed>, some: seq<Placed>)
    requires some <= all && !DistinctBy(some, TokenKey)
    ensures !DistinctBy(all, TokenKey)
  {
    var i, j :| 0 <= i < j < |some| && TokenKey(some[i]) == TokenKey(some[j]);
    assert all[i] == some[i] && all[j] == some[j];
  }

  lemma {:induction false} PlacementsMore(scenes: seq<AdventureScene>, s: AdventureScene)
    ensures Placements(scenes + [s]) == Placements(scenes) + PlacedIn(s.id, s.placements)
  {
    assert (scenes + [s])[..|scenes|] == scenes;
  }

  /** A scene's placements come after those of every scene before it and before those of
      every scene after it, in the order it declares them. */
  lemma {:induction false} PlacementsInOrder(before: seq<AdventureScene>, s: AdventureScene, after: seq<AdventureScene>)
    ensures Placements(before + [s] + after) == Placements(before) + PlacedIn(s.id, s.placements) + Placements(after)
  {
    hide Placements, PlacedIn;
    if after == [] {
      assert before + [s] + after == before + [s];
      NoScenes();
      PlacementsMore(before, s);
    } else {
      var init, last := after[..|after| - 1], after[|after| - 1];
      PlacementsInOrder(before, s, init);
      PlacementsMore(before + [s] + init, last);
      PlacementsMore(init, last);
      assert before + [s] + after == (before + [s] + init) + [last] && after == init + [last];
    }
  }

  lemma {:induction false} PlacementsPrefix(scenes: seq<AdventureScene>, n: nat)
    requires n <= |scenes|
    ensures Placements(scenes[..n]) <= Placements(scenes)
  {
    if n < |scenes| {
      PlacementsPrefix(scenes[..|scenes| - 1], n);
      assert scenes[..|scenes| - 1][..n] == scenes[..n];
    } else {
      assert scenes[..n] == scenes;
    }
  }

  method LoadScenes(docs: seq<Option<AdventureScene>>, m: Mapdef, actorIds: set<Text>) returns (r: Option<seq<AdventureScene>>)
    ensures r.Some? ==> GivesScenes(docs, r.value) && ScenesOk(r.value, m, actorIds)
    ensures r.None? ==> forall out :: GivesScenes(docs, out) ==> !ScenesOk(out, m, actorIds)
  {
    hide DistinctBy, PlacedIn, Placements;
    var seen: set<Text>, tokens: set<Text>, out := {}, {}, [];
    NoScenes();
    for i := 0 to |docs|
      invariant GivesScenes(docs[..i], out) && ScenesOk(out, m, actorIds)
      invariant seen == (set s | s in out :: s.id) && tokens == TokenIds(Placements(out))
    {
      if docs[i].None? { return None; }
      var s := docs[i].value;
      DistinctMore(out, s, SceneKey);
      PlacementsMore(out, s);
      assert (out + [s])[|out|] == s && s in out + [s];
      var fine := Between(s.id, MAX_ID) && Between(s.name, MAX_NAME) && s.id !in seen && s.width >= 1 && s.height >= 1
                  && m.accepts(s) && m.build(s).Some?;
      if !fine {
        RefusedScene(docs, m, actorIds, out, i);
        return None;
      }
      var placed, now := LoadPlacements(s, actorIds, tokens, Placements(out));
      if !placed {
        RefusedScene(docs, m, actorIds, out, i);
        return None;
      }
      assert (set t | t in out + [s] :: t.id) == (set t | t in out :: t.id) + {s.id};
      seen, tokens, out := seen + {s.id}, now, out + [s];
    }
    assert docs[..|docs|] == docs;
    r := Some(out);
  }

  lemma {:induction false} NoScenes()
    ensures Placements([]) == [] && DistinctBy([], SceneKey) && DistinctBy([], TokenKey)
  {
  }

  lemma {:induction false} RefusedScene(docs: seq<Option<AdventureScene>>, m: Mapdef, actorIds: set<Text>, out: seq<AdventureScene>, i: nat)
    requires i < |docs| && docs[i].Some? && GivesScenes(docs[..i], out) && !ScenesOk(out + [docs[i].value], m, actorIds)
    ensures forall all :: GivesScenes(docs, all) ==> !ScenesOk(all, m, actorIds)
  {
    hide DistinctBy, Placements;
    forall all: seq<AdventureScene> | GivesScenes(docs, all) ensures !ScenesOk(all, m, actorIds) {
      assert all[..i + 1] == out + [docs[i].value] by {
        assert forall k :: 0 <= k < i ==> docs[..i][k] == docs[k];
      }
      if ScenesOk(all, m, actorIds) {
        DistinctPrefix(all, SceneKey, i + 1);
        PlacementsPrefix(all, i + 1);
        assert !DistinctBy(Placements(all[..i + 1]), TokenKey);
        PrefixTwins(Placements(all), Placements(all[..i + 1]));
      }
    }
  }

  // ----- notes -----

  /** Every file's notes, in file order and then declared order. */
  function Flat(docs: seq<Option<seq<AdventureNote>>>): seq<AdventureNote> {
    if docs == [] then []
    else
      var last := docs[|docs| - 1];
      Flat(docs[..|docs| - 1]) + (if last.Some? then last.value else [])
  }

  lemma {:induction false} FlatMore(docs: seq<Option<seq<AdventureNote>>>, file: seq<AdventureNote>)
    ensures Flat(docs + [Some(file)]) == Flat(docs) + file
  {
    assert (docs + [Some(file)])[..|docs|] == docs;
  }

  /** A file's notes come after those of every file before it and before those of every
      file after it, in the order it declares them. */
  lemma {:induction false} NotesInOrder(before: seq<Option<seq<AdventureNote>>>, file: seq<AdventureNote>, after: seq<Option<seq<AdventureNote>>>)
    requires AllDecode(after)
    ensures Flat(before + [Some(file)] + after) == Flat(before) + file + Flat(after)
  {
    if after == [] {
      assert before + [Some(file)] + after == before + [Some(file)];
      FlatMore(before, file);
    } else {
      var init, last := after[..|after| - 1], after[|after| - 1];
      NotesInOrder(before, file, init);
      FlatMore(before + [Some(file)] + init, last.value);
      FlatMore(init, last.value);
      assert before + [Some(file)] + after == (before + [Some(file)] + init) + [last] && after == init + [last];
    }
  }

  predicate NotesOk(out: seq<AdventureNote>) {
    (forall n :: n in out ==> NoteOk(n)) && DistinctBy(out, NoteKey)
  }

  predicate AllDecode<T>(docs: seq<Option<T>>) { forall k :: 0 <= k < |docs| ==> docs[k].Some? }

  /** A note refused refuses them all. */
  lemma {:induction false} RefusedNote(docs: seq<Option<seq<AdventureNote>>>, i: nat, j: nat, out: seq<AdventureNote>)
    requires i < |docs| && docs[i].Some? && j < |docs[i].value| && out == Flat(docs[..i]) + docs[i].value[..j]
    requires !NotesOk(out + [docs[i].value[j]])
    ensures !NotesOk(Flat(docs))
  {
    hide NotesOk;
    var file := docs[i].value;
    assert docs[..i + 1][..i] == docs[..i];
    assert out + [file[j]] == Flat(docs[..i]) + file[..j + 1];
    FlatPrefix(docs, i + 1);
    assert out + [file[j]] <= Flat(docs[..i]) + file;
    NotesPrefix(Flat(docs), out + [file[j]]);
  }

  method LoadNotes(docs: seq<Option<seq<AdventureNote>>>) returns (r: Option<seq<AdventureNote>>)
    ensures r.Some? <==> AllDecode(docs) && NotesOk(Flat(docs))
    ensures r.Some? ==> r.value == Flat(docs)
  {
    hide DistinctBy;
    var seen, out := {}, [];
    NoNotes();
    for i := 0 to |docs|
      invariant AllDecode(docs[..i]) && out == Flat(docs[..i]) && NotesOk(out) && seen == set n | n in out :: n.key
    {
      if docs[i].None? { return None; }
      var file := docs[i].value;
      assert docs[..i + 1][..i] == docs[..i];
      ghost var was := out;
      for j := 0 to |file|
        invariant out == was + file[..j] && NotesOk(out) && seen == set n | n in out :: n.key
      {
        var n := file[j];
        DistinctMore(out, n, NoteKey);
        assert (out + [n])[|out|] == n && n in out + [n];
        if !Between(n.key, MAX_KEY) || |n.title| > MAX_TITLE || !Between(n.text, MAX_TEXT) || n.key in seen {
          RefusedNote(docs, i, j, out);
          return None;
        }
        assert (set x | x in out + [n] :: x.key) == (set x | x in out :: x.key) + {n.key};
        seen, out := seen + {n.key}, out + [n];
      }
    }
    assert docs[..|docs|] == docs;
    r := Some(out);
  }

  lemma {:induction false} NoNotes()
    ensures NotesOk([]) && Flat([]) == []
  {
  }

  lemma {:induction false} FlatPrefix(docs: seq<Option<seq<AdventureNote>>>, n: nat)
    requires n <= |docs|
    ensures Flat(docs[..n]) <= Flat(docs)
  {
    if n < |docs| {
      FlatPrefix(docs[..|docs| - 1], n);
      assert docs[..|docs| - 1][..n] == docs[..n];
    } else {
      assert docs[..n] == docs;
    }
  }

  lemma {:induction false} NotesPrefix(all: seq<AdventureNote>, some: seq<AdventureNote>)
    requires some <= all && !NotesOk(some)
    ensures !NotesOk(all)
  {
    assert all[..|some|] == some;
    if DistinctBy(all, NoteKey) {
      DistinctPrefix(all, NoteKey, |some|);
    }
  }

  // ----- the whole bundle -----

  /** An adventure says exactly what a bundle's files do. */
  predicate Gives(b: Bundle, a: Adventure) {
    && b.manifest.Some?
    && b.manifest.value.formatVersion == FORMAT_ONE
    && (var f := b.manifest.value; (a.id, a.name, a.rulesetId, a.narration) == (f.id, f.name, f.ruleset, f.narration))
    && GivesActors(b.actors, a.actors) && GivesScenes(b.scenes, a.scenes) && AllDecode(b.notes) && a.notes == Flat(b.notes)
  }

  /** Load: the adventure a bundle gives, when it is well-formed; else none. */
  method Load(b: Bundle, rs: Ruleset, m: Mapdef) returns (r: Option<Adventure>)
    ensures r.Some? ==> Gives(b, r.value) && WellFormed(r.value, rs, m)
    ensures r.None? ==> forall a :: Gives(b, a) ==> !WellFormed(a, rs, m)
  {
    hide GivesActors, GivesScenes, ActorsOk, ScenesOk, NotesOk, AllDecode, Flat;
    forall a ensures WellFormed(a, rs, m) <==> Parts(a, rs, m) { PartsAre(a, rs, m); }
    hide WellFormed;
    if b.manifest.None? { return None; }
    var f := b.manifest.value;
    if !Between(f.id, MAX_ID) || !Between(f.name, MAX_NAME) || f.formatVersion != FORMAT_ONE || f.ruleset == [] || f.ruleset != rs.id
       || !Between(f.narration, MAX_TEXT) { return None; }
    var actors := LoadActors(b.actors, rs);
    if actors.None? { return None; }
    GivenOnce(b.actors, actors.value.0);
    var scenes := LoadScenes(b.scenes, m, actors.value.1);
    if scenes.None? { return None; }
    ScenesOnce(b.scenes, scenes.value);
    var notes := LoadNotes(b.notes);
    if notes.None? || (scenes.value == [] && actors.value.0 == [] && notes.value == []) { return None; }
    r := Some(Adventure(f.id, f.name, f.ruleset, f.narration, scenes.value, actors.value.0, notes.value));
  }

  /** Well-formedness file kind by file kind. */
  predicate Parts(a: Adventure, rs: Ruleset, m: Mapdef) {
    && Between(a.id, MAX_ID) && Between(a.name, MAX_NAME) && Between(a.narration, MAX_TEXT) && a.rulesetId == rs.id != []
    && ActorsOk(a.actors, rs) && ScenesOk(a.scenes, m, Ids(a.actors)) && NotesOk(a.notes)
    && !(a.scenes == [] && a.actors == [] && a.notes == [])
  }

  lemma {:induction false} PartsAre(a: Adventure, rs: Ruleset, m: Mapdef)
    ensures WellFormed(a, rs, m) <==> Parts(a, rs, m)
  {
    hide DistinctBy, SceneOk, ActorOk, NoteOk;
  }

  lemma {:induction false} GivenOnce(docs: seq<Option<RawActor>>, out: seq<AdventureActor>)
    requires GivesActors(docs, out)
    ensures forall all :: GivesActors(docs, all) ==> all == out
  {
  }

  lemma {:induction false} ScenesOnce(docs: seq<Option<AdventureScene>>, out: seq<AdventureScene>)
    requires GivesScenes(docs, out)
    ensures forall all :: GivesScenes(docs, all) ==> all == out
  {
  }
}
