/** A new log's opening and a paused log's resume always fold, whatever the world
    and the log held (internal/campaign/fanout.go). */
module LeadFrames {
  import opened Contract
  import opened Fold
  import opened FoldInvariants
  import opened TextOrder
  import opened CharacterLogs

  lemma {:induction false} StampConcat(a: seq<Envelope>, b: seq<Envelope>, head: int)
    ensures Stamp(a + b, head) == Stamp(a, head) + Stamp(b, head + |a|)
  {
  }

  lemma {:induction false} TrialConcat(st: State, head: int, a: seq<Envelope>, b: seq<Envelope>)
    ensures Trial(st, head, a + b) ==
              if Trial(st, head, a).None? then None else Trial(Trial(st, head, a).value, head + |a|, b)
  {
    StampConcat(a, b, head);
    StrictConcat(st, Stamp(a, head), Stamp(b, head + |a|));
  }

  lemma {:induction false} TrialNone(st: State, head: int)
    ensures Trial(st, head, []) == Some(st)
  {
  }

  lemma {:induction false} TrialThen(st: State, head: int, a: seq<Envelope>, mid: State, b: seq<Envelope>, end: State)
    requires Trial(st, head, a) == Some(mid) && Trial(mid, head + |a|, b) == Some(end)
    ensures Trial(st, head, a + b) == Some(end)
  {
    TrialConcat(st, head, a, b);
  }

  lemma {:induction false} TrialLast(st: State, head: int, frames: seq<Envelope>)
    requires frames != []
    ensures var init, last := frames[..|frames| - 1], frames[|frames| - 1];
            Trial(st, head, frames) ==
              match Trial(st, head, init)
              case None => None
              case Some(mid) =>
                match Step(mid, last.(sequence := head + |frames|))
                case Accepted(next) => Some(next)
                case _ => None
  {
    var s := Stamp(frames, head);
    assert s[..|s| - 1] == Stamp(frames[..|frames| - 1], head);
  }

  // ----- openings -----

  /** A party member as a log no eyes saw it through holds it. */
  function Unseen(a: Actor): Actor {
    Actor(a.id, a.name, a.moduleId, map[], map[], a.controllerId, a.controllerIds, a.kind)
  }

  lemma {:induction false} GrantsFold(st: State, head: int, a: Actor, cs: seq<Text>)
    requires a.id in st.actors && Distinct(cs) && forall c :: c in cs ==> IdOk(c)
    requires st.actors[a.id].kind == a.kind && st.actors[a.id].controllerIds == [] && st.actors[a.id].controllerId == []
    ensures Trial(st, head, Grants(a, cs)) == Some(st.(actors := st.actors[a.id := MirrorControl(st.actors[a.id], cs)]))
  {
    hide Trial, Step, MirrorControl, Elements, Distinct;
    if cs == [] {
      TrialNone(st, head);
      assert Grants(a, cs) == [];
      NobodyMirrored(st.actors[a.id]);
      assert st.actors[a.id := st.actors[a.id]] == st.actors;
    } else {
      var init, last := cs[..|cs| - 1], cs[|cs| - 1];
      LastIsNew(cs);
      assert forall c :: c in init ==> c in cs;
      GrantsFold(st, head, a, init);
      TrialLast(st, head, Grants(a, cs));
      assert Grants(a, cs)[..|cs| - 1] == Grants(a, init);
      var mid := st.(actors := st.actors[a.id := MirrorControl(st.actors[a.id], init)]);
      var env := Grants(a, cs)[|cs| - 1].(sequence := head + |cs|);
      assert cs == init + [last] && last in cs;
      MirroredIs(st.actors[a.id], init);
      MirroredAgain(st.actors[a.id], init, cs);
      OneGrant(mid, env, a, init, last);
      assert mid.actors[a.id := MirrorControl(mid.actors[a.id], cs)] == st.actors[a.id := MirrorControl(st.actors[a.id], cs)];
    }
  }

  lemma {:induction false} NobodyMirrored(a: Actor)
    requires a.controllerIds == [] && a.controllerId == []
    ensures MirrorControl(a, []) == a
  {
  }

  lemma {:induction false} MirroredIs(a: Actor, ids: seq<Text>)
    ensures MirrorControl(a, ids).controllerIds == ids && MirrorControl(a, ids).kind == a.kind
  {
  }

  lemma {:induction false} MirroredAgain(a: Actor, some: seq<Text>, ids: seq<Text>)
    ensures MirrorControl(MirrorControl(a, some), ids) == MirrorControl(a, ids)
  {
  }

  lemma {:induction false} OneGrant(st: State, env: Envelope, a: Actor, init: seq<Text>, last: Text)
    requires a.id in st.actors && IdOk(last) && last !in init && st.actors[a.id].controllerIds == init && st.actors[a.id].kind == a.kind
    requires env.payload == ActorControlGranted(a.id, last, a.kind)
    ensures Step(st, env) == Accepted(st.(actors := st.actors[a.id := MirrorControl(st.actors[a.id], init + [last])]))
  {
    assert Step(st, env) == GrantControl(st, env.payload);
  }

  lemma {:induction false} IntroduceFolds(st: State, head: int, a: Actor)
    requires a.id !in st.actors && ActorGood(a.id, a)
    ensures Trial(st, head, Introduce(a)) == Some(st.(actors := st.actors[a.id := Unseen(a)]))
  {
    hide Trial, Step;
    var bare := Actor(a.id, a.name, a.moduleId, map[], map[], [], [], a.kind);
    var first := [Bare(ActorAdded(Some(bare)))];
    var mid := st.(actors := st.actors[a.id := bare]);
    BareFolds(st, head, bare);
    GrantsFold(mid, head + 1, a, a.controllerIds);
    TrialConcat(st, head, first, Grants(a, a.controllerIds));
    assert mid.actors[a.id := Unseen(a)] == st.actors[a.id := Unseen(a)];
  }

  lemma {:induction false} BareFolds(st: State, head: int, a: Actor)
    requires a.id !in st.actors && IdOk(a.id) && NameOk(a.name) && |a.moduleId| <= MAX_ID
    requires a.controllerId == [] && a.controllerIds == [] && a.resources == map[] && a.attributes == map[]
    ensures Trial(st, head, [Bare(ActorAdded(Some(a)))]) == Some(st.(actors := st.actors[a.id := a]))
  {
    var env := Bare(ActorAdded(Some(a))).(sequence := head + 1);
    assert Stamp([Bare(ActorAdded(Some(a)))], head) == [env];
    StrictOne(st, env);
    assert Step(st, env) == AddActor(st, env.payload);
  }

  lemma {:induction false} LastIsNew(ids: seq<Text>)
    requires ids != [] && Distinct(ids)
    ensures var init, last := ids[..|ids| - 1], ids[|ids| - 1];
            last !in init && Distinct(init) && Elements(ids) == Elements(init) + {last}
  {
    var init, last := ids[..|ids| - 1], ids[|ids| - 1];
    assert forall i :: 0 <= i < |init| ==> init[i] == ids[i] != last;
    assert ids == init + [last];
  }

  /** These actors put in unseen, beside every earlier one. */
  predicate Introduced(now: map<Text, Actor>, was: map<Text, Actor>, before: State, ids: seq<Text>)
    requires forall id :: id in ids ==> id in before.actors
  {
    && now.Keys == was.Keys + Elements(ids)
    && (forall id :: id in was && id !in ids ==> now[id] == was[id])
    && (forall id :: id in ids ==> id in now && now[id] == Unseen(before.actors[id]))
  }

  lemma {:induction false} IntroducedNone(was: map<Text, Actor>, before: State)
    ensures Introduced(was, was, before, [])
  {
  }

  lemma {:induction false} IntroducedNext(now: map<Text, Actor>, was: map<Text, Actor>, before: State, ids: seq<Text>)
    requires ids != [] && Distinct(ids) && forall id :: id in ids ==> id in before.actors
    requires Introduced(now, was, before, ids[..|ids| - 1])
    ensures ids[|ids| - 1] !in was ==> ids[|ids| - 1] !in now
    ensures Introduced(now[ids[|ids| - 1] := Unseen(before.actors[ids[|ids| - 1]])], was, before, ids)
  {
    hide Unseen, Distinct;
    LastIsNew(ids);
    assert ids == ids[..|ids| - 1] + [ids[|ids| - 1]];
  }

  lemma {:induction false} IntroductionsFold(st: State, head: int, before: State, ids: seq<Text>)
    requires (forall id :: id in ids ==> id in before.actors && id !in st.actors) && Distinct(ids)
    requires forall id :: id in ids ==> before.actors[id].id == id && ActorGood(id, before.actors[id])
    ensures var r := Trial(st, head, Introductions(before, ids));
            r.Some? && r.value == st.(actors := r.value.actors) && Introduced(r.value.actors, st.actors, before, ids)
  {
    hide Trial, ActorGood, Introduce, Unseen, Introduced, Elements;
    if ids == [] {
      TrialNone(st, head);
      IntroducedNone(st.actors, before);
    } else {
      var init, last := ids[..|ids| - 1], ids[|ids| - 1];
      LastIsNew(ids);
      assert last in ids && forall id :: id in init ==> id in ids;
      IntroductionsFold(st, head, before, init);
      IntroducedNext(Trial(st, head, Introductions(before, init)).value.actors, st.actors, before, ids);
      var frames := Introductions(before, init);
      var mid := Trial(st, head, frames).value;
      IntroduceFolds(mid, head + |frames|, before.actors[last]);
      TrialThen(st, head, frames, mid, Introduce(before.actors[last]), mid.(actors := mid.actors[last := Unseen(before.actors[last])]));
    }
  }

  /** These notes put in as the world has them, but for when. */
  predicate Noted(now: map<Text, Note>, was: map<Text, Note>, before: State, keys: seq<Text>)
    requires forall key :: key in keys ==> key in before.notes
  {
    && now.Keys == was.Keys + Elements(keys)
    && (forall key :: key in was && key !in keys ==> now[key] == was[key])
    && (forall key :: key in keys ==> key in now && now[key].(updatedSeq := 0) == before.notes[key].(updatedSeq := 0))
  }

  lemma {:induction false} NotesFold(st: State, head: int, before: State, keys: seq<Text>)
    requires Good(before) && forall key :: key in keys ==> key in before.notes
    ensures var r := Trial(st, head, NoteFrames(before, keys));
            r.Some? && r.value == st.(notes := r.value.notes) && Noted(r.value.notes, st.notes, before, keys)
  {
    hide Trial, Step, Good, Noted, Elements;
    if keys == [] {
      TrialNone(st, head);
      assert NoteFrames(before, keys) == [];
      NotedNone(st.notes, before);
    } else {
      var init, last := keys[..|keys| - 1], keys[|keys| - 1];
      assert forall key :: key in init ==> key in keys;
      NotesFold(st, head, before, init);
      TrialLast(st, head, NoteFrames(before, keys));
      assert NoteFrames(before, keys)[..|keys| - 1] == NoteFrames(before, init);
      assert last in keys;
      NoteFolds(Trial(st, head, NoteFrames(before, init)).value, before, last, head + |keys|);
      NotedNext(Trial(st, head, NoteFrames(before, init)).value.notes, st.notes, before, keys, head + |keys|);
    }
  }

  lemma {:induction false} NotedNone(was: map<Text, Note>, before: State)
    ensures Noted(was, was, before, [])
  {
  }

  lemma {:induction false} NotedNext(now: map<Text, Note>, was: map<Text, Note>, before: State, keys: seq<Text>, at: int)
    requires keys != [] && forall key :: key in keys ==> key in before.notes
    requires Noted(now, was, before, keys[..|keys| - 1])
    ensures Noted(now[keys[|keys| - 1] := before.notes[keys[|keys| - 1]].(updatedSeq := at)], was, before, keys)
  {
    assert keys == keys[..|keys| - 1] + [keys[|keys| - 1]];
  }

  lemma {:induction false} NoteFolds(st: State, before: State, key: Text, at: int)
    requires Good(before) && key in before.notes
    ensures var n := before.notes[key];
            Step(st, Bare(NoteUpserted(key, n.title, n.text, n.visibility)).(sequence := at))
            == Accepted(st.(notes := st.notes[key := n.(updatedSeq := at)]))
  {
    var n := before.notes[key];
    var env := Bare(NoteUpserted(key, n.title, n.text, n.visibility)).(sequence := at);
    assert NoteGood(key, n);
    assert Step(st, env) == UpsertNote(st, env);
  }

  lemma {:induction false} SessionFramesFold(head: int, before: State)
    requires Good(before)
    ensures var r := Trial(NewState, head, SessionFrames(before));
            && r.Some? && r.value == NewState.(sessions := r.value.sessions) && InSessionOf(r.value, before)
            && (OpenSession(before).Some? ==> OpenSession(r.value).value.name == OpenSession(before).value.name)
  {
    hide Good;
    var s := OpenSession(before);
    if s.Some? {
      OpenIsNamed(before);
      var env := StartFrame(s.value).(sequence := head + 1);
      assert Stamp(SessionFrames(before), head) == [env];
      StrictOne(NewState, env);
      assert Step(NewState, env) == StartSession(NewState, env);
    } else {
      TrialNone(NewState, head);
    }
  }

  lemma {:induction false} PartyFolds(st: State, head: int, before: State)
    requires Good(before) && st.actors == map[]
    ensures var r := Trial(st, head, Introductions(before, Sorted(Party(before))));
            r.Some? && r.value == st.(actors := r.value.actors) && Introduced(r.value.actors, map[], before, Sorted(Party(before)))
  {
    var ids := Sorted(Party(before));
    assert forall id :: id in ids ==> id in Party(before) && id in before.actors && ActorGood(id, before.actors[id]);
    assert Distinct(ids);
    IntroductionsFold(st, head, before, ids);
  }

  /** What a log just opened holds: the world's open session by id and name, of its
      notes those that are public, of its actors the party members, each without its
      sheet; no scene, no token, no condition. */
  ghost predicate OpenedOn(fold: State, before: State) {
    && fold.scenes == map[] && fold.tokens == map[] && fold.conditions == map[]
    && InSessionOf(fold, before)
    && (OpenSession(before).Some? ==> OpenSession(fold).value.name == OpenSession(before).value.name)
    && (forall id :: id in fold.actors <==> id in before.actors && before.actors[id].kind == 1)
    && (forall id :: id in fold.actors ==> Bared(fold.actors[id], before.actors[id]))
    && (forall key :: key in fold.notes <==> key in before.notes && before.notes[key].visibility == 1)
    && (forall key :: key in fold.notes ==> SameNote(fold.notes[key], before.notes[key]))
  }

  /** An actor as another, but for a sheet nobody saw. */
  predicate Bared(a: Actor, of: Actor) {
    && a.id == of.id && a.name == of.name && a.moduleId == of.moduleId && a.kind == of.kind
    && a.controllerIds == of.controllerIds && a.controllerId == of.controllerId
    && a.attributes == map[] && a.resources == map[]
  }

  predicate SameNote(n: Note, of: Note) { n.title == of.title && n.text == of.text && n.visibility == of.visibility }

  lemma {:induction false} PartyIsOpen(now: map<Text, Actor>, before: State)
    requires Introduced(now, map[], before, Sorted(Party(before)))
    ensures forall id :: id in now <==> id in before.actors && before.actors[id].kind == 1
    ensures forall id :: id in now ==> Bared(now[id], before.actors[id])
  {
  }

  lemma {:induction false} NotesAreOpen(now: map<Text, Note>, before: State)
    requires Noted(now, map[], before, Sorted(PublicNotes(before)))
    ensures forall key :: key in now <==> key in before.notes && before.notes[key].visibility == 1
    ensures forall key :: key in now ==> SameNote(now[key], before.notes[key])
  {
    forall key | key in now ensures key in before.notes && SameNote(now[key], before.notes[key]) {
      assert now[key].(updatedSeq := 0) == before.notes[key].(updatedSeq := 0);
    }
  }

  /** A new log's opening folds onto nothing, and says what the world has in the open
      and nothing else. */
  lemma {:induction false} OpeningFolds(before: State, head: int)
    requires Good(before)
    ensures Trial(NewState, head, Opening(before)).Some? && OpenedOn(Trial(NewState, head, Opening(before)).value, before)
  {
    hide Trial, Good, SessionFrames, Introductions, NoteFrames, Introduced, Noted, Bared, SameNote;
    var s, party, notes := SessionFrames(before), Introductions(before, Sorted(Party(before))), Sorted(PublicNotes(before));
    SessionFramesFold(head, before);
    var one := Trial(NewState, head, s).value;
    PartyFolds(one, head + |s|, before);
    var two := Trial(one, head + |s|, party).value;
    TrialThen(NewState, head, s, one, party, two);
    NotesFold(two, head + |s + party|, before, notes);
    var end := Trial(two, head + |s + party|, NoteFrames(before, notes)).value;
    TrialThen(NewState, head, s + party, two, NoteFrames(before, notes), end);
    PartyIsOpen(end.actors, before);
    NotesAreOpen(end.notes, before);
  }

  /** The session, then the party, then the notes. */
  function Stage(p: Payload): nat {
    if p.SessionStarted? then 0 else if p.ActorAdded? || p.ActorControlGranted? then 1 else 2
  }

  function Introducing(f: Envelope): Option<Text> {
    if f.payload.ActorAdded? && f.payload.actor.Some? then Some(f.payload.actor.value.id) else None
  }

  /** Stage by stage; actors in order of id, and notes in order of key. */
  predicate Precedes(f: Envelope, g: Envelope) {
    && Stage(f.payload) <= Stage(g.payload)
    && (Introducing(f).Some? && Introducing(g).Some? ==> Leq(Introducing(f).value, Introducing(g).value))
    && (f.payload.NoteUpserted? && g.payload.NoteUpserted? ==> Leq(f.payload.key, g.payload.key))
  }

  predicate InOrder(frames: seq<Envelope>) { forall i, j :: 0 <= i < j < |frames| ==> Precedes(frames[i], frames[j]) }

  lemma {:induction false} InOrderConcat(a: seq<Envelope>, b: seq<Envelope>)
    requires InOrder(a) && InOrder(b) && forall f, g :: f in a && g in b ==> Precedes(f, g)
    ensures InOrder(a + b)
  {
    hide Precedes;
    assert forall k :: 0 <= k < |a| ==> a[k] in a;
    assert forall k :: |a| <= k < |a + b| ==> (a + b)[k] == b[k - |a|] && b[k - |a|] in b;
  }

  /** An introduction or a grant, of one of these actors. */
  predicate OfParty(f: Envelope, before: State, ids: seq<Text>) {
    && Stage(f.payload) == 1 && !f.payload.NoteUpserted?
    && (Introducing(f).Some? ==> Introducing(f).value in ids)
    && (f.payload.ActorControlGranted? ==>
          f.payload.actorId in before.actors && f.payload.kind == before.actors[f.payload.actorId].kind)
  }

  lemma {:induction false} IntroduceInOrder(before: State, id: Text)
    requires id in before.actors && before.actors[id].id == id
    ensures InOrder(Introduce(before.actors[id]))
    ensures forall f :: f in Introduce(before.actors[id]) ==> OfParty(f, before, [id])
  {
    hide Leq;
    var r := Introduce(before.actors[id]);
    assert forall k :: 0 < k < |r| ==> Introducing(r[k]).None?;
  }

  /** The frames of some of the party, in order of id. */
  lemma {:induction false} IntroductionsInOrder(before: State, ids: seq<Text>)
    requires (forall id :: id in ids ==> id in before.actors && before.actors[id].id == id) && Ascending(ids)
    ensures InOrder(Introductions(before, ids))
    ensures forall f :: f in Introductions(before, ids) ==> OfParty(f, before, ids)
  {
    if ids != [] {
      hide Leq, InOrder, Introducing, Stage, Introduce;
      var init, last := ids[..|ids| - 1], ids[|ids| - 1];
      assert last in ids && forall id :: id in init ==> id in ids && Leq(id, last);
      IntroductionsInOrder(before, init);
      IntroduceInOrder(before, last);
      InOrderConcat(Introductions(before, init), Introduce(before.actors[last]));
    }
  }

  lemma {:induction false} NoteFramesInOrder(before: State, keys: seq<Text>)
    requires (forall key :: key in keys ==> key in before.notes) && Ascending(keys)
    ensures InOrder(NoteFrames(before, keys)) && forall f :: f in NoteFrames(before, keys) ==> f.payload.NoteUpserted?
  {
    hide Leq;
  }

  /** What opens a new log comes in the order the log is to read, a grant naming the
      kind its actor has. */
  lemma {:induction false} OpeningInOrder(before: State)
    requires Good(before)
    ensures InOrder(Opening(before))
    ensures forall f :: f in Opening(before) && f.payload.ActorControlGranted? ==>
              f.payload.actorId in before.actors && f.payload.kind == before.actors[f.payload.actorId].kind
  {
    hide Good, Leq, InOrder, Introductions, NoteFrames, OpenSession;
    var s, ids, keys := SessionFrames(before), Sorted(Party(before)), Sorted(PublicNotes(before));
    var a, b := Introductions(before, ids), NoteFrames(before, keys);
    ActorsNamed(before);
    IntroductionsInOrder(before, ids);
    NoteFramesInOrder(before, keys);
    SessionFirst(before);
    InOrderConcat(s, a);
    InOrderConcat(s + a, b);
  }

  lemma {:induction false} SessionFirst(before: State)
    ensures InOrder(SessionFrames(before)) && forall f :: f in SessionFrames(before) ==> f.payload.SessionStarted?
  {
  }

  lemma {:induction false} ActorsNamed(st: State)
    requires Good(st)
    ensures forall id :: id in st.actors ==> st.actors[id].id == id
  {
  }

  // ----- resumes -----

  lemma {:induction false} HidesFold(st: State, head: int, ids: seq<Text>)
    ensures Trial(st, head, HideFrames(ids)) == Some(st.(tokens := st.tokens - Elements(ids)))
  {
    hide Trial;
    if ids == [] {
      TrialNone(st, head);
      assert st.tokens - {} == st.tokens;
      assert Elements(ids) == {};
    } else {
      var init, last := ids[..|ids| - 1], ids[|ids| - 1];
      HidesFold(st, head, init);
      TrialLast(st, head, HideFrames(ids));
      assert HideFrames(ids)[..|ids| - 1] == HideFrames(init);
      assert Elements(ids) == Elements(init) + {last} by { assert ids == init + [last]; }
      assert (st.tokens - Elements(init)) - {last} == st.tokens - Elements(ids);
    }
  }

  /** Where a resume must leave a log: in the world's open session, or in none. */
  predicate InSessionOf(fold: State, before: State) {
    var held, open := OpenSession(fold), OpenSession(before);
    (held.Some? <==> open.Some?) && (held.Some? ==> held.value.id == open.value.id)
  }

  lemma {:induction false} EndFolds(fold: State, head: int)
    requires Good(fold) && head >= 0 && OpenSession(fold).Some?
    ensures var ended := Trial(fold, head, [Bare(SessionEnded)]);
            && ended.Some? && Good(ended.value) && OpenSession(ended.value).None?
            && ended.value == fold.(sessions := ended.value.sessions)
  {
    var env := Bare(SessionEnded).(sequence := head + 1);
    assert Stamp([Bare(SessionEnded)], head) == [env];
    StrictOne(fold, env);
    assert Step(fold, env) == EndSession(fold, env);
    EndCloses(fold, env);
    EndGood(fold, env);
  }

  lemma {:induction false} StartFolds(fold: State, head: int, s: Session)
    requires Good(fold) && OpenSession(fold).None? && IdOk(s.id) && NameOk(s.name)
    ensures var begun := Trial(fold, head, [StartFrame(s)]);
            && begun.Some? && OpenSession(begun.value).Some?
            && OpenSession(begun.value).value.id == s.id && OpenSession(begun.value).value.name == s.name
            && begun.value == fold.(sessions := begun.value.sessions)
  {
    var env := StartFrame(s).(sequence := head + 1);
    assert Stamp([StartFrame(s)], head) == [env];
    StrictOne(fold, env);
    assert Step(fold, env) == StartSession(fold, env);
    var now := StartSession(fold, env).st;
    StartGood(fold, env);
    OpenIsLast(now.sessions);
  }

  lemma {:induction false} OpenIsNamed(st: State)
    requires Good(st) && OpenSession(st).Some?
    ensures IdOk(OpenSession(st).value.id) && NameOk(OpenSession(st).value.name)
  {
  }

  /** No session frame when the log is where the world is already; else the log is in
      the world's session, under its name, or in none. */
  predicate TurnedTo(fold: State, turned: State, frames: seq<Envelope>, before: State) {
    && InSessionOf(turned, before)
    && (InSessionOf(fold, before) ==> frames == [] && turned.sessions == fold.sessions)
    && (!InSessionOf(fold, before) && OpenSession(before).Some? ==>
          OpenSession(turned).value.name == OpenSession(before).value.name)
  }

  lemma {:induction false} SessionTurnFolds(fold: State, before: State, head: int)
    requires Good(fold) && Good(before) && head >= 0
    ensures var turned := Trial(fold, head, SessionTurn(fold, before));
            && turned.Some? && TurnedTo(fold, turned.value, SessionTurn(fold, before), before)
            && turned.value == fold.(sessions := turned.value.sessions)
  {
    hide Trial, Good;
    TrialNone(fold, head);
    var held, open := OpenSession(fold), OpenSession(before);
    var same := held.Some? && open.Some? && held.value.id == open.value.id;
    var ends := if held.Some? && !same then [Bare(SessionEnded)] else [];
    var starts := if open.Some? && !same then [StartFrame(open.value)] else [];
    if held.Some? && !same { EndFolds(fold, head); }
    var mid := Trial(fold, head, ends).value;
    TrialNone(mid, head + |ends|);
    if open.Some? && !same {
      assert IdOk(open.value.id) && NameOk(open.value.name) by { OpenIsNamed(before); }
      StartFolds(mid, head + |ends|, open.value);
    }
    TrialConcat(fold, head, ends, starts);
  }

  lemma {:induction false} HidesOnly(ids: seq<Text>)
    ensures forall f :: f in HideFrames(ids) ==> f.payload.TokenHidden?
  {
  }

  lemma {:induction false} AllHidden(st: State, head: int, ids: seq<Text>)
    requires Elements(ids) == st.tokens.Keys
    ensures Trial(st, head, HideFrames(ids)) == Some(st.(tokens := map[]))
  {
    HidesFold(st, head, ids);
    assert st.tokens - Elements(ids) == map[];
  }

  /** A resume's hides come last, in order of id. */
  predicate HidesLast(frames: seq<Envelope>) {
    forall i, j :: 0 <= i < j < |frames| && frames[i].payload.TokenHidden? ==>
      frames[j].payload.TokenHidden? && Leq(frames[i].payload.tokenId, frames[j].payload.tokenId)
  }

  lemma {:induction false} ResumeInOrder(fold: State, before: State)
    ensures HidesLast(Resume(fold, before))
  {
    hide Leq;
    var turn, ids := SessionTurn(fold, before), Sorted(fold.tokens.Keys);
    assert forall k :: |turn| <= k < |turn| + |ids| ==> Resume(fold, before)[k] == Bare(TokenHidden(ids[k - |turn|]));
  }

  /** A resume always folds, leaves no token, leaves the log in exactly the world's
      open session, under its name, or in none, and changes nothing else; a log already
      there is told of no session, only that its tokens are hidden. */
  lemma {:induction false} ResumeFolds(fold: State, before: State, head: int)
    requires Good(fold) && Good(before) && head >= 0
    ensures var resumed := Trial(fold, head, Resume(fold, before));
            && resumed.Some? && InSessionOf(resumed.value, before)
            && resumed.value == fold.(tokens := map[], sessions := resumed.value.sessions)
            && (InSessionOf(fold, before) ==>
                  && resumed.value.sessions == fold.sessions
                  && forall f :: f in Resume(fold, before) ==> f.payload.TokenHidden?)
            && (!InSessionOf(fold, before) && OpenSession(before).Some? ==>
                  OpenSession(resumed.value).value.name == OpenSession(before).value.name)
  {
    hide Trial, Good, SessionTurn, HideFrames;
    var turn, ids := SessionTurn(fold, before), Sorted(fold.tokens.Keys);
    SessionTurnFolds(fold, before, head);
    HidesOnly(ids);
    var mid := Trial(fold, head, turn).value;
    assert Elements(ids) == mid.tokens.Keys;
    AllHidden(mid, head + |turn|, ids);
    TrialThen(fold, head, turn, mid, HideFrames(ids), mid.(tokens := map[]));
  }
}
