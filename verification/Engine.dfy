/** Apply, the one state mutator (internal/engine/apply.go), on the heap: each arm
    of its switch, writing in place as the program does, lands exactly where the
    value fold says, and a refusal changes nothing. */
module Engine {
  import opened Contract
  import opened GoHeap
  import opened EngineState
  import Fold
  import GridKey
  import TextOrder

  /** The state after an outcome: a refusal or an unknown payload leaves it. */
  function Landed(before: Fold.State, o: Fold.Outcome): Fold.State {
    if o.Accepted? then o.st else before
  }

  // ----- one write, and what it does to the value -----

  lemma {:induction false} Domains(st: State)
    requires st.Valid()
    ensures st.Value().scenes.Keys == st.scenes.Keys && st.Value().actors.Keys == st.actors.Keys
    ensures forall id :: id in st.actors ==>
              ActorOk(id, st.actors[id]) && st.Value().actors[id] == ActorValue(id, st.actors[id]) && ActorCells(st.actors[id]) <= st.actorOwn
  {
  }

  method PushSession(st: State, s: Fold.Session)
    requires st.Valid()
    modifies st.Repr()
    ensures st.Valid() && fresh(st.Repr() - old(st.Repr()))
    ensures st.Value() == old(st.Value()).(sessions := old(st.Value()).sessions + [s])
  {
    hide Scenes, ScenesOk, Actors, ActorsOk, Conditions, ConditionsOk;
    var longer := Append(st.sessions, s, SESSIONS, []);
    st.sessions := longer;
    st.sessionOwn := st.sessionOwn + Backing(longer);
  }

  /** A clone of an actor nobody controls, stored. */
  method NewActor(st: State, a: Actor)
    requires st.Valid() && a.controllerIds == []
    modifies st.Repr()
    ensures st.Valid() && fresh(st.Repr() - old(st.Repr()))
    ensures st.Value() == old(st.Value()).(actors := old(st.Value()).actors[a.id := a])
  {
    hide Scenes, ScenesOk, Conditions, ConditionsOk, Sessions, SessionsOk, Actors, ActorsOk, ActorOk, ActorValue, ActorCells;
    ghost var before := Actors(st.actors, st.actorOwn);
    OtherActors(st.actors, st.actorOwn, a.id);
    var stored := Stored(a);
    PutActor(st.actors, st.actorOwn, st.actorOwn + ActorCells(stored), before, a.id, stored);
    st.actors := st.actors[a.id := stored];
    st.actorOwn := st.actorOwn + ActorCells(stored);
  }

  method Stored(a: Actor) returns (c: Cell<ActorStruct>)
    requires a.controllerIds == []
    ensures ActorOk(a.id, c) && ActorValue(a.id, c) == a && fresh(ActorCells(c)) && c in ActorCells(c)
  {
    var m := CopyMap(a.resources);
    var resources := new Cell(RESOURCES, a.id, m);
    c := new Cell(ACTOR, a.id, ActorStruct(a.id, a.name, a.moduleId, a.attributes, resources, a.controllerId, Nil, a.kind));
  }

  /** One actor's storage, within what the state owns. */
  ghost predicate ActorIs(k: Text, c: Cell<ActorStruct>, own: set<object>, v: Actor)
    reads c, ActorCells(c)
  {
    c in own && c in ActorCells(c) && ActorCells(c) <= own && ActorOk(k, c) && ActorValue(k, c) == v
  }

  lemma {:induction false} OtherActors(m: map<Text, Cell<ActorStruct>>, own: set<object>, id: Text)
    requires ActorsOk(m, own)
    ensures Actors(m, own).Keys == m.Keys
    ensures forall k :: k in m ==> ActorIs(k, m[k], own, Actors(m, own)[k])
    ensures id in m ==> forall k :: k in m && k != id ==> ActorCells(m[k]) !! ActorCells(m[id])
  {
    hide ActorOk, ActorValue;
    forall k | k in m && id in m && k != id ensures ActorCells(m[k]) !! ActorCells(m[id]) {
      ActorsApart(k, m[k], id, m[id]);
    }
  }

  /** One actor put in, every other as it was. */
  lemma {:induction false} PutActor(m: map<Text, Cell<ActorStruct>>, own: set<object>, wide: set<object>, before: map<Text, Actor>,
                                    id: Text, c: Cell<ActorStruct>)
    requires before.Keys == m.Keys && own <= wide
    requires forall k :: k in m && k != id ==> ActorIs(k, m[k], own, before[k])
    requires ActorOk(id, c) && c in ActorCells(c) && ActorCells(c) <= wide
    ensures ActorsOk(m[id := c], wide) && Actors(m[id := c], wide) == before[id := ActorValue(id, c)]
  {
    hide ActorOk, ActorValue, ActorCells;
  }

  /** An actor whose struct was just written. */
  lemma {:induction false} WrittenIs(id: Text, c: Cell<ActorStruct>)
    requires c.kind == ACTOR && c.key == id && StructOk(id, c.v)
    ensures ActorOk(id, c) && ActorValue(id, c) == StructValue(id, c.v) && ActorCells(c) == {c} + StructCells(c.v)
  {
  }

  lemma {:induction false} CellIs(id: Text, c: Cell<ActorStruct>)
    requires ActorOk(id, c)
    ensures c.kind == ACTOR && c.key == id && StructOk(id, c.v) && ActorCells(c) == {c} + StructCells(c.v)
    ensures ActorValue(id, c) == StructValue(id, c.v)
  {
  }

  /** Writing through an actor's pointer changes that actor alone. */
  method WriteStruct(m: map<Text, Cell<ActorStruct>>, ghost own: set<object>, id: Text, c: Cell<ActorStruct>, s: ActorStruct, ghost more: set<object>)
    requires ActorsOk(m, own) && id in m && c == m[id] && StructOk(id, s) && StructCells(s) <= own + more && c !in StructCells(s)
    modifies c
    ensures c.v == s && ActorsOk(m, own + more)
    ensures Actors(m, own + more) == old(Actors(m, own))[id := old(StructValue(id, s))]
  {
    hide Actors, ActorsOk, ActorOk, ActorValue, ActorCells, StructOk, StructValue, StructCells;
    ghost var before := Actors(m, own);
    OtherActors(m, own, id);
    CellIs(id, c);
    c.v := s;
    WrittenIs(id, c);
    assert forall k :: k in m && k != id ==> ActorIs(k, m[k], own, before[k]);
    PutActor(m, own, own + more, before, id, c);
    assert m[id := c] == m;
  }

  /** One entry of one actor's resource map, written in place. */
  method WriteEntry(m: map<Text, Cell<ActorStruct>>, ghost own: set<object>, id: Text, key: Text, r: Resource)
    requires ActorsOk(m, own) && id in m
    modifies m[id].v.resources
    ensures ActorsOk(m, own)
    ensures var a := old(Actors(m, own))[id]; Actors(m, own) == old(Actors(m, own))[id := a.(resources := a.resources[key := r])]
  {
    hide Actors, ActorsOk, ActorOk, ActorValue, ActorCells;
    ghost var before := Actors(m, own);
    OtherActors(m, own, id);
    var c := m[id];
    CellIs(id, c);
    c.v.resources.v := c.v.resources.v[key := r];
    WrittenIs(id, c);
    assert forall k :: k in m && k != id ==> ActorIs(k, m[k], own, before[k]);
    PutActor(m, own, own, before, id, c);
    assert m[id := c] == m;
  }

  /** append(actor.ControllerIds, id): into the list's array while it has room. */
  method PushIn(m: map<Text, Cell<ActorStruct>>, ghost own: set<object>, id: Text, c: Cell<ActorStruct>, controller: Text) returns (ghost now: set<object>)
    requires ActorsOk(m, own) && id in m && c == m[id]
    modifies c, Backing(c.v.controllers)
    ensures own <= now && fresh(now - own) && ActorsOk(m, now)
    ensures var a := old(Actors(m, own))[id]; Actors(m, now) == old(Actors(m, own))[id := a.(controllerIds := a.controllerIds + [controller])]
  {
    hide Actors, ActorsOk, ActorOk, ActorValue, ActorCells;
    ghost var before := Actors(m, own);
    OtherActors(m, own, id);
    CellIs(id, c);
    var longer := Append(c.v.controllers, controller, CONTROLLERS, id);
    c.v := c.v.(controllers := longer);
    WrittenIs(id, c);
    assert forall k :: k in m && k != id ==> ActorIs(k, m[k], own, before[k]);
    PutActor(m, own, own + Backing(longer), before, id, c);
    assert m[id := c] == m;
    now := own + Backing(longer);
  }

  method WriteActor(st: State, id: Text, c: Cell<ActorStruct>, s: ActorStruct, ghost more: set<object>)
    requires st.Valid() && id in st.actors && c == st.actors[id] && StructOk(id, s)
    requires StructCells(s) <= st.actorOwn + more && c !in StructCells(s) && (st.Repr() - st.actorOwn) !! more
    modifies c, st`actorOwn
    ensures c.v == s && st.actors == old(st.actors) && st.actorOwn == old(st.actorOwn) + more
    ensures st.Repr() == old(st.Repr()) + more
    ensures st.Valid() && st.Value() == old(st.Value()).(actors := old(st.Value()).actors[id := old(StructValue(id, s))])
  {
    hide Scenes, ScenesOk, Conditions, ConditionsOk, Sessions, SessionsOk, Actors, ActorsOk, ActorOk, ActorValue, ActorCells, StructOk, StructValue, StructCells;
    Mine(st, id);
    WriteStruct(st.actors, st.actorOwn, id, c, s, more);
    st.actorOwn := st.actorOwn + more;
  }

  /** An actor's cells are the state's actors' and no other part's. */
  lemma {:induction false} Mine(st: State, id: Text)
    requires st.Valid() && id in st.actors
    ensures ActorCells(st.actors[id]) <= st.actorOwn && st.actors[id] in st.actorOwn
    ensures st.actors[id].v.resources in st.actorOwn && Backing(st.actors[id].v.controllers) <= st.actorOwn
  {
    assert ActorOk(id, st.actors[id]);
  }

  method WriteResource(st: State, id: Text, key: Text, r: Resource)
    requires st.Valid() && id in st.actors
    modifies st.actors[id].v.resources
    ensures st.Valid() && st.Repr() == old(st.Repr())
    ensures var a := old(st.Value()).actors[id];
            st.Value() == old(st.Value()).(actors := old(st.Value()).actors[id := a.(resources := a.resources[key := r])])
  {
    hide Scenes, ScenesOk, Conditions, ConditionsOk, Sessions, SessionsOk, Actors, ActorsOk, ActorOk, ActorValue, ActorCells;
    Mine(st, id);
    WriteEntry(st.actors, st.actorOwn, id, key, r);
  }

  method PushController(st: State, id: Text, c: Cell<ActorStruct>, controller: Text)
    requires st.Valid() && id in st.actors && c == st.actors[id]
    modifies c, Backing(c.v.controllers), st`actorOwn
    ensures st.Valid() && fresh(st.Repr() - old(st.Repr())) && st.actors == old(st.actors)
    ensures var a := old(st.Value()).actors[id];
            st.Value() == old(st.Value()).(actors := old(st.Value()).actors[id := a.(controllerIds := a.controllerIds + [controller])])
  {
    hide Scenes, ScenesOk, Conditions, ConditionsOk, Sessions, SessionsOk, Actors, ActorsOk, ActorOk, ActorValue, ActorCells;
    Mine(st, id);
    st.actorOwn := PushIn(st.actors, st.actorOwn, id, c, controller);
  }

  /** actor.ControllerIds = kept: a list in an array of its own. */
  method SetControllers(st: State, id: Text, c: Cell<ActorStruct>, ids: seq<Text>)
    requires st.Valid() && id in st.actors && c == st.actors[id]
    modifies c, st`actorOwn
    ensures st.Valid() && fresh(st.Repr() - old(st.Repr())) && st.actors == old(st.actors)
    ensures var a := old(st.Value()).actors[id];
            st.Value() == old(st.Value()).(actors := old(st.Value()).actors[id := a.(controllerIds := ids)])
  {
    hide State.Valid, State.Value, ActorOk, ActorCells;
    ActorStructIs(st, id);
    var list := Listed(id, ids);
    assert StructOk(id, c.v.(controllers := list)) && StructCells(c.v.(controllers := list)) == {c.v.resources as object} + Backing(list);
    assert list.back !in st.Repr();
    WriteActor(st, id, c, c.v.(controllers := list), Backing(list));
  }

  method Listed(id: Text, ids: seq<Text>) returns (s: Slice<Text>)
    ensures s.Slice? && fresh(s.back) && SliceOk(s) && SliceIs(s, CONTROLLERS, id) && View(s) == ids
  {
    var room: nat :| room >= 0;
    var back := new Cell(CONTROLLERS, id, ids + seq(room, _ => []));
    s := Slice(back, |ids|, |ids| + room);
  }

  lemma {:induction false} ListsApart(m: map<Text, Slice<Fold.Condition>>, own: set<object>, id: Text)
    requires ConditionsOk(m, own)
    ensures ListOk(id, ListOf(m, id), own)
    ensures forall k :: k in m && k != id ==> Backing(m[k]) !! Backing(ListOf(m, id))
  {
    forall k | k in m && k != id ensures Backing(m[k]) !! Backing(ListOf(m, id)) {
      assert ListOk(k, m[k], own);
    }
  }

  /** One list grown by one, in its own array or in a new one; no other list changes. */
  method Grow(m: map<Text, Slice<Fold.Condition>>, ghost own: set<object>, id: Text, c: Fold.Condition)
    returns (r: map<Text, Slice<Fold.Condition>>, ghost now: set<object>)
    requires ConditionsOk(m, own)
    modifies Backing(ListOf(m, id))
    ensures own <= now && fresh(now - own) && ConditionsOk(r, now)
    ensures Conditions(r, now) == old(Conditions(m, own))[id := old(ViewOf(m, own, id)) + [c]]
  {
    ghost var before := Conditions(m, own);
    ListsApart(m, own, id);
    var longer := Append(ListOf(m, id), c, CONDITIONS, id);
    forall k | k in m && k != id ensures ListOk(k, m[k], own) && View(m[k]) == before[k] {
    }
    r, now := m[id := longer], own + Backing(longer);
    assert ConditionsOk(r, now);
    assert Conditions(r, now) == before[id := View(longer)];
  }

  /** append(list[:at], list[at+1:]...): the tail moves down in the array it is in. */
  method Cut(m: map<Text, Slice<Fold.Condition>>, ghost own: set<object>, id: Text, at: nat)
    returns (r: map<Text, Slice<Fold.Condition>>)
    requires ConditionsOk(m, own) && at < |ViewOf(m, own, id)|
    modifies Backing(ListOf(m, id))
    ensures ConditionsOk(r, own)
    ensures Conditions(r, own) == old(Conditions(m, own))[id := old(ViewOf(m, own, id))[..at] + old(ViewOf(m, own, id))[at + 1..]]
  {
    ghost var before, held := Conditions(m, own), ViewOf(m, own, id);
    ListsApart(m, own, id);
    var list := ListOf(m, id);
    var v := list.back.v;
    list.back.v := v[..at] + v[at + 1..list.len] + v[list.len - 1..];
    var cut := list.(len := list.len - 1);
    assert View(cut) == held[..at] + held[at + 1..];
    forall k | k in m && k != id ensures ListOk(k, m[k], own) && View(m[k]) == before[k] {
    }
    r := m[id := cut];
    assert ConditionsOk(r, own);
    assert Conditions(r, own) == before[id := View(cut)];
  }

  ghost function ViewOf(m: map<Text, Slice<Fold.Condition>>, own: set<object>, id: Text): seq<Fold.Condition>
    requires ConditionsOk(m, own)
    reads own
  {
    if id in m then Conditions(m, own)[id] else []
  }

  method PushCondition(st: State, id: Text, c: Fold.Condition)
    requires st.Valid()
    modifies st.Repr()
    ensures st.Valid() && fresh(st.Repr() - old(st.Repr()))
    ensures st.Value() == old(st.Value()).(conditions :=
              old(st.Value()).conditions[id := Fold.ConditionsOf(old(st.Value()), id) + [c]])
  {
    hide ScenesOk, Scenes, ActorsOk, Actors, SessionsOk, Sessions, ListOk, Conditions, ConditionsOk, ViewOf;
    ListIs(st.conditions, st.conditionOwn, id);
    var m, now := Grow(st.conditions, st.conditionOwn, id, c);
    st.conditions := m;
    st.conditionOwn := now;
  }

  method CutCondition(st: State, id: Text, at: nat)
    requires st.Valid() && at < |Fold.ConditionsOf(st.Value(), id)|
    modifies st.Repr()
    ensures st.Valid() && fresh(st.Repr() - old(st.Repr()))
    ensures st.Value() == old(st.Value()).(conditions := old(st.Value()).conditions[id :=
              Fold.ConditionsOf(old(st.Value()), id)[..at] + Fold.ConditionsOf(old(st.Value()), id)[at + 1..]])
  {
    hide ScenesOk, Scenes, ActorsOk, Actors, SessionsOk, Sessions, ListOk, Conditions, ConditionsOk, ViewOf;
    ListIs(st.conditions, st.conditionOwn, id);
    var m := Cut(st.conditions, st.conditionOwn, id, at);
    st.conditions := m;
  }

  lemma {:induction false} ListIs(m: map<Text, Slice<Fold.Condition>>, own: set<object>, id: Text)
    requires ConditionsOk(m, own)
    ensures Backing(ListOf(m, id)) <= own
    ensures ViewOf(m, own, id) == if id in Conditions(m, own) then Conditions(m, own)[id] else []
  {
    ListsApart(m, own, id);
  }

  function ListOf(m: map<Text, Slice<Fold.Condition>>, id: Text): Slice<Fold.Condition> {
    if id in m then m[id] else Nil
  }

  lemma {:induction false} WithoutOne(actors: map<Text, Cell<ActorStruct>>, ao: set<object>,
                                      conditions: map<Text, Slice<Fold.Condition>>, co: set<object>, id: Text)
    requires ActorsOk(actors, ao) && ConditionsOk(conditions, co)
    ensures ActorsOk(actors - {id}, ao) && Actors(actors - {id}, ao) == Actors(actors, ao) - {id}
    ensures ConditionsOk(conditions - {id}, co) && Conditions(conditions - {id}, co) == Conditions(conditions, co) - {id}
  {
    hide ActorOk, ActorValue, ActorCells, ListOk;
  }

  method DropActor(st: State, id: Text)
    requires st.Valid()
    modifies st`actors, st`conditions
    ensures st.Valid()
    ensures st.Value() == old(st.Value()).(actors := old(st.Value()).actors - {id}, conditions := old(st.Value()).conditions - {id})
  {
    hide Scenes, ScenesOk, Sessions, SessionsOk, Actors, ActorsOk, Conditions, ConditionsOk;
    WithoutOne(st.actors, st.actorOwn, st.conditions, st.conditionOwn, id);
    st.actors := st.actors - {id};
    st.conditions := st.conditions - {id};
  }

  // ----- sessions -----

  /** The index of the open session, or -1. */
  method OpenSession(st: State) returns (i: int)
    requires st.Valid()
    ensures i == (var k := Fold.OpenIndex(st.Value().sessions); if k < |st.Value().sessions| then k else -1)
  {
    ghost var sessions := st.Value().sessions;
    var n := if st.sessions.Nil? then 0 else st.sessions.len;
    i := 0;
    while i < n
      invariant 0 <= i <= n == |sessions|
      invariant forall j :: 0 <= j < i ==> !Fold.IsOpen(sessions[j])
    {
      if st.sessions.back.v[i].endSeq == 0 {
        return;
      }
      i := i + 1;
    }
    i := -1;
  }

  method StartSession(st: State, env: Envelope) returns (ok: bool)
    requires st.Valid() && env.payload.SessionStarted?
    modifies st.Repr()
    ensures st.Valid() && fresh(st.Repr() - old(st.Repr()))
    ensures ok <==> Fold.StartSession(old(st.Value()), env).Accepted?
    ensures st.Value() == Landed(old(st.Value()), Fold.StartSession(old(st.Value()), env))
  {
    hide Scenes, ScenesOk, Actors, ActorsOk, Conditions, ConditionsOk, Sessions, SessionsOk;
    var open := OpenSession(st);
    if open >= 0 || |env.payload.sessionName| > Fold.MAX_NAME || |env.sessionId| == 0 || |env.sessionId| > Fold.MAX_ID {
      return false;
    }
    PushSession(st, Fold.Session(env.sessionId, env.payload.sessionName, env.sequence, 0));
    return true;
  }

  method EndSession(st: State, env: Envelope) returns (ok: bool)
    requires st.Valid()
    modifies st.Repr()
    ensures st.Valid() && fresh(st.Repr() - old(st.Repr()))
    ensures ok <==> Fold.EndSession(old(st.Value()), env).Accepted?
    ensures st.Value() == Landed(old(st.Value()), Fold.EndSession(old(st.Value()), env))
  {
    hide Scenes, ScenesOk, Actors, ActorsOk, Conditions, ConditionsOk;
    var i := OpenSession(st);
    if i < 0 {
      return false;
    }
    var back := st.sessions.back;
    back.v := back.v[i := back.v[i].(endSeq := env.sequence)];
    return true;
  }

  // ----- tokens and notes -----

  method PlaceToken(st: State, p: Payload) returns (ok: bool)
    requires st.Valid() && p.TokenPlaced?
    modifies st`tokens
    ensures st.Valid()
    ensures ok <==> Fold.PlaceToken(old(st.Value()), p).Accepted?
    ensures st.Value() == Landed(old(st.Value()), Fold.PlaceToken(old(st.Value()), p))
  {
    hide Scenes, ScenesOk, Actors, ActorsOk, Conditions, ConditionsOk, Sessions, SessionsOk;
    Keys(st);
    if |p.tokenId| == 0 || |p.tokenId| > Fold.MAX_ID || p.tokenId in st.tokens || p.tokenScene !in st.scenes
       || p.actorId !in st.actors || p.position.None? {
      return false;
    }
    st.tokens := st.tokens[p.tokenId := Fold.Token(p.tokenId, p.tokenScene, p.actorId, p.position.value.x, p.position.value.y,
                                                   p.name, p.notes, p.gmName, p.gmNotes)];
    return true;
  }

  method DescribeToken(st: State, p: Payload) returns (ok: bool)
    requires st.Valid() && p.TokenDescribed?
    modifies st`tokens
    ensures st.Valid()
    ensures ok <==> Fold.DescribeToken(old(st.Value()), p).Accepted?
    ensures st.Value() == Landed(old(st.Value()), Fold.DescribeToken(old(st.Value()), p))
  {
    hide Scenes, ScenesOk, Actors, ActorsOk, Conditions, ConditionsOk;
    if p.tokenId !in st.tokens {
      return false;
    }
    var tok := st.tokens[p.tokenId];
    tok := tok.(name := p.name, notes := p.notes, gmName := p.gmName, gmNotes := p.gmNotes);
    st.tokens := st.tokens[p.tokenId := tok];
    return true;
  }

  method MoveToken(st: State, p: Payload) returns (ok: bool)
    requires st.Valid() && p.TokenMoved?
    modifies st`tokens
    ensures st.Valid()
    ensures ok <==> Fold.MoveToken(old(st.Value()), p).Accepted?
    ensures st.Value() == Landed(old(st.Value()), Fold.MoveToken(old(st.Value()), p))
  {
    hide Scenes, ScenesOk, Actors, ActorsOk, Conditions, ConditionsOk;
    if p.tokenId !in st.tokens || p.to.None? || |p.reason| > Fold.MAX_REASON
       || |p.moveScene| == 0 || |p.moveScene| > Fold.MAX_ID {
      return false;
    }
    var tok := st.tokens[p.tokenId];
    tok := tok.(x := p.to.value.x, y := p.to.value.y);
    st.tokens := st.tokens[p.tokenId := tok];
    return true;
  }

  method RemoveToken(st: State, id: Text) returns (ok: bool)
    requires st.Valid()
    modifies st`tokens
    ensures st.Valid()
    ensures ok <==> Fold.RemoveToken(old(st.Value()), id).Accepted?
    ensures st.Value() == Landed(old(st.Value()), Fold.RemoveToken(old(st.Value()), id))
  {
    hide Scenes, ScenesOk, Actors, ActorsOk, Conditions, ConditionsOk;
    ok := id in st.tokens;
    if ok {
      st.tokens := st.tokens - {id};
    }
  }

  method HideToken(st: State, id: Text)
    requires st.Valid()
    modifies st`tokens
    ensures st.Valid() && st.Value() == old(st.Value()).(tokens := old(st.Value()).tokens - {id})
  {
    hide Scenes, ScenesOk, Actors, ActorsOk, Conditions, ConditionsOk;
    st.tokens := st.tokens - {id};
  }

  method UpsertNote(st: State, env: Envelope) returns (ok: bool)
    requires st.Valid() && env.payload.NoteUpserted?
    modifies st`notes
    ensures st.Valid()
    ensures ok <==> Fold.UpsertNote(old(st.Value()), env).Accepted?
    ensures st.Value() == Landed(old(st.Value()), Fold.UpsertNote(old(st.Value()), env))
  {
    hide Scenes, ScenesOk, Actors, ActorsOk, Conditions, ConditionsOk;
    var p := env.payload;
    if |p.key| == 0 || |p.key| > Fold.MAX_NOTE_KEY || |p.title| > Fold.MAX_NOTE_TITLE
       || |p.text| == 0 || |p.text| > Fold.MAX_TEXT {
      return false;
    }
    st.notes := st.notes[p.key := Fold.Note(p.title, p.text, env.sequence, p.visibility)];
    return true;
  }

  method DeleteNote(st: State, key: Text) returns (ok: bool)
    requires st.Valid()
    modifies st`notes
    ensures st.Valid()
    ensures ok <==> Fold.DeleteNote(old(st.Value()), key).Accepted?
    ensures st.Value() == Landed(old(st.Value()), Fold.DeleteNote(old(st.Value()), key))
  {
    hide Scenes, ScenesOk, Actors, ActorsOk, Conditions, ConditionsOk;
    ok := key in st.notes;
    if ok {
      st.notes := st.notes - {key};
    }
  }

  // ----- actors -----

  /** Whether a map's keys are all of 1 to MAX_ID bytes, by its longest key. */
  method KeysBounded<V>(m: map<Text, V>) returns (ok: bool)
    ensures ok <==> Fold.KeysOk(m)
  {
    if [] in m {
      return false;
    }
    var longest := 0;
    var todo := m.Keys;
    while todo != {}
      invariant todo <= m.Keys
      invariant forall k :: k in m && k !in todo ==> 0 < |k| <= longest
      invariant longest > 0 ==> exists k :: k in m && |k| == longest
      decreases todo
    {
      var k :| k in todo;
      assert k != [];
      if |k| > longest { longest := |k|; }
      todo := todo - {k};
    }
    ok := longest <= Fold.MAX_ID;
  }

  method AddActor(st: State, p: Payload) returns (ok: bool)
    requires st.Valid() && p.ActorAdded?
    modifies st.Repr()
    ensures st.Valid() && fresh(st.Repr() - old(st.Repr()))
    ensures ok <==> Fold.AddActor(old(st.Value()), p).Accepted?
    ensures st.Value() == Landed(old(st.Value()), Fold.AddActor(old(st.Value()), p))
  {
    hide Scenes, ScenesOk, Actors, ActorsOk, Conditions, ConditionsOk, Sessions, SessionsOk;
    Domains(st);
    if p.actor.None? || p.actor.value.id == [] || |p.actor.value.id| > Fold.MAX_ID || p.actor.value.id in st.actors {
      return false;
    }
    var a := p.actor.value;
    if a.controllerId != [] || |a.controllerIds| > 0 || |a.name| > Fold.MAX_NAME || |a.moduleId| > Fold.MAX_ID {
      return false;
    }
    var resourcesOk := KeysBounded(a.resources);
    var attributesOk := KeysBounded(a.attributes);
    if !resourcesOk || !attributesOk {
      return false;
    }
    NewActor(st, a);
    return true;
  }

  /** The actor a control event names, or null. */
  method ControlTarget(st: State, actorId: Text, participantId: Text) returns (c: Cell?<ActorStruct>)
    requires st.Valid()
    ensures c != null <==> Fold.ControlTarget(st.Value(), actorId, participantId)
    ensures c != null ==> actorId in st.actors && c == st.actors[actorId]
  {
    if participantId == [] || |participantId| > Fold.MAX_ID || actorId !in st.actors {
      return null;
    }
    return st.actors[actorId];
  }

  /** mirrorControl: controller_id follows the first of controller_ids. */
  method MirrorControl(st: State, id: Text, c: Cell<ActorStruct>)
    requires st.Valid() && id in st.actors && c == st.actors[id]
    modifies c, st`actorOwn
    ensures st.Valid() && st.Repr() == old(st.Repr()) && st.actors == old(st.actors)
    ensures var a := old(st.Value()).actors[id];
            st.Value() == old(st.Value()).(actors := old(st.Value()).actors[id := Fold.MirrorControl(a, a.controllerIds)])
  {
    hide State.Valid, State.Value, ActorOk, ActorCells;
    ActorStructIs(st, id);
    var ids := c.v.controllers;
    if ids.Nil? || ids.len == 0 {
      WriteActor(st, id, c, c.v.(controllerId := []), {});
    } else {
      WriteActor(st, id, c, c.v.(controllerId := ids.back.v[0]), {});
    }
  }

  lemma {:induction false} ActorStructIs(st: State, id: Text)
    requires st.Valid() && id in st.actors
    ensures var c := st.actors[id];
            && StructOk(id, c.v) && st.Value().actors.Keys == st.actors.Keys && st.Value().actors[id] == StructValue(id, c.v)
            && StructCells(c.v) <= st.actorOwn && c !in StructCells(c.v)
  {
    Domains(st);
    CellIs(id, st.actors[id]);
  }

  method GrantControl(st: State, p: Payload) returns (ok: bool)
    requires st.Valid() && p.ActorControlGranted?
    modifies st.Repr()
    ensures st.Valid() && fresh(st.Repr() - old(st.Repr()))
    ensures ok <==> Fold.GrantControl(old(st.Value()), p).Accepted?
    ensures st.Value() == Landed(old(st.Value()), Fold.GrantControl(old(st.Value()), p))
  {
    hide State.Valid, State.Value, ActorOk, StructOk, ActorCells;
    Keys(st);
    var actor := ControlTarget(st, p.actorId, p.participantId);
    if actor == null {
      return false;
    }
    Declare(st, p.actorId, actor, p.kind);
    var held := Controls(st, p.actorId, actor, p.participantId);
    if held {
      return true; // it already controls the actor
    }
    Confer(st, p.actorId, actor, p.participantId);
    return true;
  }

  /** A grant that names a kind declares it; one that does not says nothing. */
  method Declare(st: State, id: Text, c: Cell<ActorStruct>, kind: int32)
    requires st.Valid() && id in st.actors && c == st.actors[id]
    modifies st.Repr()
    ensures st.Valid() && st.Repr() == old(st.Repr()) && st.actors == old(st.actors)
    ensures var a := old(st.Value()).actors[id];
            st.Value() == old(st.Value()).(actors := old(st.Value()).actors[id := if kind != KIND_UNSPECIFIED then a.(kind := kind) else a])
  {
    hide State.Valid, State.Value, ActorOk, StructOk, ActorCells;
    Keys(st);
    Owned(st, id);
    if kind != KIND_UNSPECIFIED {
      SetKind(st, id, c, kind);
    }
  }

  /** One controller more, mirrored. */
  method Confer(st: State, id: Text, c: Cell<ActorStruct>, controller: Text)
    requires st.Valid() && id in st.actors && c == st.actors[id]
    modifies st.Repr()
    ensures st.Valid() && fresh(st.Repr() - old(st.Repr()))
    ensures var a := old(st.Value()).actors[id];
            st.Value() == old(st.Value()).(actors := old(st.Value()).actors[id := Fold.MirrorControl(a, a.controllerIds + [controller])])
  {
    hide State.Valid, State.Value, ActorOk, StructOk, ActorCells;
    Keys(st);
    Owned(st, id);
    PushController(st, id, c, controller);
    MirrorControl(st, id, c);
  }

  /** These controllers and no others, mirrored. */
  method Reassign(st: State, id: Text, c: Cell<ActorStruct>, ids: seq<Text>)
    requires st.Valid() && id in st.actors && c == st.actors[id]
    modifies st.Repr()
    ensures st.Valid() && fresh(st.Repr() - old(st.Repr()))
    ensures st.Value() == old(st.Value()).(actors := old(st.Value()).actors[id := Fold.MirrorControl(old(st.Value()).actors[id], ids)])
  {
    hide State.Valid, State.Value, ActorOk, StructOk, ActorCells;
    Keys(st);
    Owned(st, id);
    SetControllers(st, id, c, ids);
    MirrorControl(st, id, c);
  }

  lemma {:induction false} Keys(st: State)
    requires st.Valid()
    ensures st.Value().actors.Keys == st.actors.Keys && st.Value().scenes.Keys == st.scenes.Keys && st in st.Repr()
  {
  }

  /** What an actor refers to, the state owns. */
  lemma {:induction false} Owned(st: State, id: Text)
    requires st.Valid() && id in st.actors
    ensures ActorCells(st.actors[id]) <= st.Repr()
    ensures st.actors[id] in st.Repr() && Backing(st.actors[id].v.controllers) <= st.Repr() && st.actors[id].v.resources in st.Repr()
  {
    assert ActorOk(id, st.actors[id]) && st.actors[id] in st.actorOwn;
  }

  method SetKind(st: State, id: Text, c: Cell<ActorStruct>, kind: int32)
    requires st.Valid() && id in st.actors && c == st.actors[id]
    modifies c, st`actorOwn
    ensures st.Valid() && st.Repr() == old(st.Repr()) && st.actors == old(st.actors)
    ensures st.Value() == old(st.Value()).(actors := old(st.Value()).actors[id := old(st.Value()).actors[id].(kind := kind)])
  {
    hide State.Valid, State.Value, ActorOk, ActorCells;
    ActorStructIs(st, id);
    WriteActor(st, id, c, c.v.(kind := kind), {});
  }

  /** Whether an actor's controllers name this one. */
  method Controls(st: State, id: Text, c: Cell<ActorStruct>, controller: Text) returns (found: bool)
    requires st.Valid() && id in st.actors && c == st.actors[id]
    ensures found <==> controller in st.Value().actors[id].controllerIds
  {
    Domains(st);
    var ids := c.v.controllers;
    ghost var view := View(ids);
    var i := 0;
    while ids.Slice? && i < ids.len
      invariant 0 <= i <= |view| && controller !in view[..i]
    {
      if ids.back.v[i] == controller {
        assert view[i] == controller;
        return true;
      }
      i := i + 1;
    }
    return false;
  }

  method RevokeControl(st: State, p: Payload) returns (ok: bool)
    requires st.Valid() && p.ActorControlRevoked?
    modifies st.Repr()
    ensures st.Valid() && fresh(st.Repr() - old(st.Repr()))
    ensures ok <==> Fold.RevokeControl(old(st.Value()), p).Accepted?
    ensures st.Value() == Landed(old(st.Value()), Fold.RevokeControl(old(st.Value()), p))
  {
    hide State.Valid, State.Value, Fold.Without, ActorOk, StructOk, ActorCells;
    Keys(st);
    var actor := ControlTarget(st, p.actorId, p.participantId);
    if actor == null {
      return false;
    }
    var kept := Kept(st, p.actorId, actor, p.participantId);
    Reassign(st, p.actorId, actor, kept);
    return true;
  }

  /** An actor's controllers but one. */
  method Kept(st: State, id: Text, c: Cell<ActorStruct>, controller: Text) returns (kept: seq<Text>)
    requires st.Valid() && id in st.actors && c == st.actors[id]
    ensures kept == Fold.Without(st.Value().actors[id].controllerIds, controller)
  {
    hide Fold.Without;
    Domains(st);
    var ids := c.v.controllers;
    kept := Drop(if ids.Nil? then [] else ids.back.v[..ids.len], controller);
  }

  method Drop(ids: seq<Text>, id: Text) returns (kept: seq<Text>)
    ensures kept == Fold.Without(ids, id)
  {
    kept := [];
    var i := 0;
    while i < |ids|
      invariant 0 <= i <= |ids| && kept == Fold.Without(ids[..i], id)
    {
      assert ids[..i + 1][..i] == ids[..i];
      if ids[i] != id {
        kept := kept + [ids[i]];
      }
      i := i + 1;
    }
    assert ids[..i] == ids;
  }

  /** The first of an actor's tokens in id order, or the empty id. */
  method StandingToken(st: State, actorId: Text) returns (standing: Text)
    requires st.Valid()
    ensures standing != [] <==> Fold.HasToken(st.Value(), actorId)
    ensures standing != [] ==> standing in st.tokens && st.tokens[standing].actorId == actorId
    ensures forall t :: t in st.tokens && st.tokens[t].actorId == actorId ==> standing != [] && TextOrder.Leq(standing, t)
  {
    standing := [];
    var todo := st.tokens.Keys;
    while todo != {}
      invariant todo <= st.tokens.Keys
      invariant standing != [] ==> standing in st.tokens && st.tokens[standing].actorId == actorId
      invariant forall t :: t in st.tokens && t !in todo && st.tokens[t].actorId == actorId ==> standing != [] && TextOrder.Leq(standing, t)
      decreases todo
    {
      var id :| id in todo;
      if st.tokens[id].actorId == actorId && (standing == [] || !TextOrder.Leq(standing, id)) {
        forall t | t in st.tokens && t !in todo && st.tokens[t].actorId == actorId ensures TextOrder.Leq(id, t) {
          TextOrder.Total(standing, id);
          TextOrder.Transitive(id, standing, t);
        }
        standing := id;
      }
      TextOrder.Total(id, id);
      todo := todo - {id};
    }
  }

  method RemoveActor(st: State, id: Text) returns (ok: bool)
    requires st.Valid()
    modifies st`actors, st`conditions
    ensures st.Valid() && st.Repr() == old(st.Repr())
    ensures ok <==> Fold.RemoveActor(old(st.Value()), id).Accepted?
    ensures st.Value() == Landed(old(st.Value()), Fold.RemoveActor(old(st.Value()), id))
  {
    hide Scenes, ScenesOk, Actors, ActorsOk, Conditions, ConditionsOk, Sessions, SessionsOk;
    Domains(st);
    if id !in st.actors {
      return false;
    }
    var standing := StandingToken(st, id);
    if standing != [] {
      return false;
    }
    DropActor(st, id);
    return true;
  }

  method ChangeResource(st: State, p: Payload) returns (ok: bool)
    requires st.Valid() && p.ResourceChanged?
    modifies st.Repr()
    ensures st.Valid() && fresh(st.Repr() - old(st.Repr()))
    ensures ok <==> Fold.ChangeResource(old(st.Value()), p).Accepted?
    ensures st.Value() == Landed(old(st.Value()), Fold.ChangeResource(old(st.Value()), p))
  {
    hide Scenes, ScenesOk, Actors, ActorsOk, Conditions, ConditionsOk, Sessions, SessionsOk;
    Domains(st);
    if p.actorId !in st.actors || p.resource !in st.actors[p.actorId].v.resources.v {
      return false;
    }
    var actor := st.actors[p.actorId];
    var res := actor.v.resources.v[p.resource];
    // int64, so that nothing wraps before the clamp
    var computed: int := res.current as int + p.delta as int;
    if computed < 0 { computed := 0; }
    if res.max > 0 && computed > res.max { computed := res.max; }
    if computed != p.newValue {
      return false;
    }
    Owned(st, p.actorId);
    WriteResource(st, p.actorId, p.resource, Resource(computed, res.max));
    return true;
  }

  // ----- conditions -----

  /** The index of a condition in an actor's list, or -1. */
  method FindCondition(st: State, actorId: Text, id: Text) returns (i: int)
    requires st.Valid()
    ensures var list := Fold.ConditionsOf(st.Value(), actorId);
            i == (var k := Fold.ConditionIndex(list, id); if k < |list| then k else -1)
  {
    hide Scenes, ScenesOk, Actors, ActorsOk, Sessions, SessionsOk;
    ghost var list := Fold.ConditionsOf(st.Value(), actorId);
    var s := ListOf(st.conditions, actorId);
    assert ListOk(actorId, s, st.conditionOwn) && View(s) == list;
    var n := if s.Nil? then 0 else s.len;
    i := 0;
    while i < n
      invariant 0 <= i <= n == |list| && forall j :: 0 <= j < i ==> list[j].id != id
    {
      if s.back.v[i].id == id {
        return;
      }
      i := i + 1;
    }
    i := -1;
  }

  method ApplyCondition(st: State, env: Envelope) returns (ok: bool)
    requires st.Valid() && env.payload.ConditionApplied?
    modifies st.Repr()
    ensures st.Valid() && fresh(st.Repr() - old(st.Repr()))
    ensures ok <==> Fold.ApplyCondition(old(st.Value()), env).Accepted?
    ensures st.Value() == Landed(old(st.Value()), Fold.ApplyCondition(old(st.Value()), env))
  {
    hide State.Valid, State.Value;
    Keys(st);
    var p := env.payload;
    if |p.conditionId| == 0 || |p.conditionId| > Fold.MAX_ID || p.actorId !in st.actors {
      return false;
    }
    var at := FindCondition(st, p.actorId, p.conditionId);
    if at >= 0 {
      return false;
    }
    PushCondition(st, p.actorId, Fold.Condition(p.conditionId, p.source, env.sequence));
    return true;
  }

  method RemoveCondition(st: State, p: Payload) returns (ok: bool)
    requires st.Valid() && p.ConditionRemoved?
    modifies st.Repr()
    ensures st.Valid() && fresh(st.Repr() - old(st.Repr()))
    ensures ok <==> Fold.RemoveCondition(old(st.Value()), p).Accepted?
    ensures st.Value() == Landed(old(st.Value()), Fold.RemoveCondition(old(st.Value()), p))
  {
    hide State.Valid, State.Value;
    Keys(st);
    if p.actorId !in st.actors {
      return false;
    }
    var at := FindCondition(st, p.actorId, p.conditionId);
    if at < 0 {
      return false;
    }
    CutCondition(st, p.actorId, at);
    return true;
  }

  // ----- scenes -----

  /** The scenes once `id` is another scene and the others say what they said. */
  lemma {:induction false} OneScene(m: map<Text, Scene>, own: set<object>, id: Text, sc: Scene, now: set<object>, before: map<Text, Fold.Scene>)
    requires own <= now && SceneOk(id, sc, now) && m.Keys == before.Keys
    requires forall k :: k in m && k != id ==> SceneOk(k, m[k], own) && SceneValue(k, m[k], own) == before[k]
    ensures ScenesOk(m[id := sc], now)
    ensures Scenes(m[id := sc], now) == before[id := SceneValue(id, sc, now)]
  {
    hide SceneOk, SceneValue;
    forall k | k in m && k != id
      ensures SceneOk(k, m[k], now) && SceneValue(k, m[k], now) == before[k]
    {
      WidenScene(k, m[k], own, now);
    }
  }

  method NewScene(st: State, id: Text, sc: Scene)
    requires st.Valid() && SceneOk(id, sc, CellsOf(sc)) && id !in st.scenes
    requires CellsOf(sc) !! st.Repr()
    modifies st
    ensures st.Valid() && st.Repr() == old(st.Repr()) + CellsOf(sc)
    ensures st.Value() == old(st.Value()).(scenes := old(st.Value()).scenes[id := old(SceneValue(id, sc, CellsOf(sc)))])
  {
    hide ActorsOk, Actors, ConditionsOk, Conditions, SessionsOk, Sessions, SceneOk, SceneValue;
    ghost var own, more := st.sceneOwn, CellsOf(sc);
    WidenScene(id, sc, more, own + more);
    OneScene(st.scenes, own, id, sc, own + more, Scenes(st.scenes, own));
    ghost var scenes := Scenes(st.scenes[id := sc], own + more);
    st.scenes := st.scenes[id := sc];
    st.sceneOwn := own + more;
    assert Scenes(st.scenes, st.sceneOwn) == scenes;
  }

  /** The objects of a SceneCreated; refused when an id is out of bounds or repeated. */
  method BuildObjects(os: seq<ObjectRef>) returns (built: seq<Fold.SceneObject>, ok: bool)
    ensures ok <==> (forall o :: o in os ==> Fold.IdOk(o.id)) && Fold.DistinctRefs(os)
    ensures ok ==> built == Fold.FromRefs(os)
  {
    built := [];
    var ids: set<Text> := {};
    var i := 0;
    while i < |os|
      invariant 0 <= i <= |os| && built == Fold.FromRefs(os[..i])
      invariant forall o :: o in os[..i] ==> Fold.IdOk(o.id)
      invariant ids == set o | o in os[..i] :: o.id
      invariant Fold.DistinctRefs(os[..i])
    {
      var o := os[i];
      if |o.id| == 0 || |o.id| > Fold.MAX_ID {
        return built, false;
      }
      if o.id in ids {
        var p :| p in os[..i] && p.id == o.id;
        ghost var j :| 0 <= j < i && os[j] == p;
        return built, false;
      }
      assert os[..i + 1] == os[..i] + [o];
      ids := ids + {o.id};
      built := built + [Fold.FromRef(o)];
      i := i + 1;
    }
    assert os[..i] == os;
    ok := true;
  }

  /** What a SceneCreated makes: no door toggled, nothing seen. */
  function Made(p: Payload): Fold.Scene
    requires p.SceneCreated?
  {
    Fold.Scene(p.sceneId, p.sceneName, p.gridWidth, p.gridHeight, p.tiles, Fold.FromRefs(p.objects), map[], None, None)
  }

  /** The scene a SceneCreated makes, in storage of its own. */
  method BuildScene(p: Payload) returns (sc: Scene, ok: bool)
    requires p.SceneCreated?
    ensures ok <==> (forall o :: o in p.objects ==> Fold.IdOk(o.id)) && Fold.DistinctRefs(p.objects)
    ensures ok ==> fresh(CellsOf(sc)) && SceneOk(p.sceneId, sc, CellsOf(sc))
    ensures ok ==> SceneValue(p.sceneId, sc, CellsOf(sc)) == Made(p)
  {
    hide Fold.DistinctRefs;
    var tiles := CopyMap(p.tiles);
    var built, distinct := BuildObjects(p.objects);
    var tilesCell := new Cell(TILES, p.sceneId, tiles);
    var objectsCell := new Cell(OBJECTS, p.sceneId, built);
    var doorsCell := new Cell(DOORS, p.sceneId, map[]);
    sc := Scene(p.sceneId, p.sceneName, p.gridWidth, p.gridHeight, tilesCell,
                Slice(objectsCell, |built|, |built|), doorsCell, null, null);
    ok := distinct;
  }

  method CreateScene(st: State, p: Payload) returns (ok: bool)
    requires st.Valid() && p.SceneCreated?
    modifies st
    ensures st.Valid() && fresh(st.Repr() - old(st.Repr()))
    ensures ok <==> Fold.CreateScene(old(st.Value()), p).Accepted?
    ensures st.Value() == Landed(old(st.Value()), Fold.CreateScene(old(st.Value()), p))
  {
    hide ActorsOk, Actors, ConditionsOk, Conditions, SessionsOk, Sessions, ScenesOk, Scenes, SceneOk, SceneValue, Fold.DistinctRefs;
    Domains(st);
    if |p.sceneId| == 0 || |p.sceneId| > Fold.MAX_ID || p.sceneId in st.scenes || |p.sceneName| > Fold.MAX_NAME {
      return false;
    }
    var sc, distinct := BuildScene(p);
    if !distinct {
      return false;
    }
    NewScene(st, p.sceneId, sc);
    return true;
  }

  /** A scene of the state replaced by itself with some of its own storage written or made. */
  method StoreScene(st: State, id: Text, sc: Scene, ghost now: set<object>)
    requires st.Apart() && ActorsOk(st.actors, st.actorOwn) && SessionsOk(st.sessions, st.sessionOwn)
    requires ConditionsOk(st.conditions, st.conditionOwn) && [] !in st.tokens
    requires st.sceneOwn <= now && (now - st.sceneOwn) !! st.Repr() && ScenesOk(st.scenes[id := sc], now)
    modifies st
    ensures st.Valid() && st.Repr() == old(st.Repr()) + now
    ensures st.Value() == Fold.State(old(Scenes(st.scenes[id := sc], now)), old(Actors(st.actors, st.actorOwn)), old(st.tokens),
                                     old(Sessions(st.sessions, st.sessionOwn)), old(Conditions(st.conditions, st.conditionOwn)), old(st.notes))
  {
    hide ActorsOk, Actors, ConditionsOk, Conditions, SessionsOk, Sessions, SceneOk, SceneValue, ScenesOk, Scenes;
    st.scenes := st.scenes[id := sc];
    st.sceneOwn := now;
  }

  method WriteDoor(id: Text, s: Scene, ghost own: set<object>, key: Text, open: bool) returns (sc: Scene, ghost now: set<object>)
    requires SceneOk(id, s, own)
    modifies CellsOf(s)
    ensures own <= now && fresh(now - own) && SceneOk(id, sc, now)
    ensures var was := old(SceneValue(id, s, own));
            SceneValue(id, sc, now) == was.(openDoors := if open then was.openDoors[key := true] else was.openDoors - {key})
  {
    sc, now := s, own;
    if sc.openDoors == null {
      var made := new Cell(DOORS, id, map[]);
      sc, now := sc.(openDoors := made), own + {made};
    }
    if open {
      sc.openDoors.v := sc.openDoors.v[key := true];
    } else {
      sc.openDoors.v := sc.openDoors.v - {key};
    }
  }

  /** One scene's door written; no other scene changes. */
  method DoorIn(m: map<Text, Scene>, ghost own: set<object>, id: Text, key: Text, open: bool) returns (sc: Scene, ghost now: set<object>)
    requires ScenesOk(m, own) && id in m
    modifies CellsOf(m[id])
    ensures own <= now && fresh(now - own) && ScenesOk(m[id := sc], now)
    ensures var was := old(Scenes(m, own))[id];
            Scenes(m[id := sc], now) == old(Scenes(m, own))[id :=
              was.(openDoors := if open then was.openDoors[key := true] else was.openDoors - {key})]
  {
    ghost var before := Scenes(m, own);
    assert SceneOk(id, m[id], own);
    Reach(m, own, id);
    sc, now := WriteDoor(id, m[id], own, key, open);
    forall k | k in m && k != id ensures SceneOk(k, m[k], own) && SceneValue(k, m[k], own) == before[k] {
      assert CellsOf(m[k]) !! CellsOf(m[id]);
    }
    OneScene(m, own, id, sc, now, before);
  }

  method SetDoor(st: State, scene: Text, at: Option<Position>, open: bool) returns (ok: bool)
    requires st.Valid()
    modifies st.Repr()
    ensures st.Valid() && fresh(st.Repr() - old(st.Repr()))
    ensures ok <==> Fold.SetDoor(old(st.Value()), scene, at, open).Accepted?
    ensures st.Value() == Landed(old(st.Value()), Fold.SetDoor(old(st.Value()), scene, at, open))
  {
    hide ActorsOk, Actors, ConditionsOk, Conditions, SessionsOk, Sessions, SceneOk, SceneValue, GridKey.Key;
    if scene !in st.scenes || at.None? {
      return false;
    }
    Reach(st.scenes, st.sceneOwn, scene);
    var sc, now := DoorIn(st.scenes, st.sceneOwn, scene, GridKey.Key(at.value.x, at.value.y), open);
    StoreScene(st, scene, sc, now);
    return true;
  }

  /** A scene's storage is the state's, and no other scene's. */
  lemma {:induction false} Reach(m: map<Text, Scene>, own: set<object>, id: Text)
    requires ScenesOk(m, own) && id in m
    ensures CellsOf(m[id]) <= own
    ensures forall k :: k in m && k != id ==> CellsOf(m[k]) !! CellsOf(m[id]) && CellsOf(m[k]) <= own
  {
    hide SceneOk;
    CellsOwned(id, m[id], own);
    forall k | k in m && k != id ensures CellsOf(m[k]) !! CellsOf(m[id]) && CellsOf(m[k]) <= own {
      assert SceneOk(k, m[k], own);
      ScenesApart(k, m[k], id, m[id], own);
      CellsOwned(k, m[k], own);
    }
  }

  lemma {:induction false} CellsOwned(k: Text, s: Scene, own: set<object>)
    requires SceneOk(k, s, own)
    ensures CellsOf(s) <= own
  {
  }

  /** mergeObjects: each incoming object replaces the one of its id where it stands, or is appended. */
  method MergeObjects(have: Slice<Fold.SceneObject>, incoming: seq<ObjectRef>, ghost key: Text) returns (r: Slice<Fold.SceneObject>)
    requires SliceOk(have) && SliceIs(have, OBJECTS, key)
    modifies Backing(have)
    ensures SliceOk(r) && SliceIs(r, OBJECTS, key) && fresh(Backing(r) - Backing(have))
    ensures View(r) == Fold.Merge(old(View(have)), incoming)
  {
    hide Fold.MergeOne, Indexes;
    ghost var was := View(have);
    r := have;
    var byId: map<Text, int> := Index(have);
    var i := 0;
    while i < |incoming|
      invariant 0 <= i <= |incoming| && SliceOk(r) && SliceIs(r, OBJECTS, key) && fresh(Backing(r) - Backing(have))
      invariant View(r) == Fold.Merge(was, incoming[..i])
      invariant Indexes(byId, View(r))
    {
      assert incoming[..i + 1][..i] == incoming[..i];
      r, byId := MergeObject(r, byId, Fold.FromRef(incoming[i]), key);
      i := i + 1;
    }
    assert incoming[..i] == incoming;
  }

  method MergeObject(have: Slice<Fold.SceneObject>, index: map<Text, int>, got: Fold.SceneObject, ghost key: Text)
    returns (r: Slice<Fold.SceneObject>, byId: map<Text, int>)
    requires SliceOk(have) && SliceIs(have, OBJECTS, key) && Indexes(index, View(have))
    modifies Backing(have)
    ensures SliceOk(r) && SliceIs(r, OBJECTS, key) && fresh(Backing(r) - Backing(have))
    ensures View(r) == Fold.MergeOne(old(View(have)), got) && Indexes(byId, View(r))
  {
    ghost var now := View(have);
    r, byId := have, index;
    LastIs(byId, now, got.id);
    if got.id in byId {
      var at := byId[got.id];
      r.back.v := r.back.v[at := got];
      assert View(r) == now[at := got];
    } else {
      byId := byId[got.id := if r.Nil? then 0 else r.len];
      r := Append(r, got, OBJECTS, key);
    }
  }

  /** The index holds, for every id of os, the last place it stands. */
  predicate Indexes(byId: map<Text, int>, os: seq<Fold.SceneObject>) {
    && (forall id :: id in byId ==> 0 <= byId[id] < |os| && os[byId[id]].id == id)
    && (forall j :: 0 <= j < |os| ==> os[j].id in byId && j <= byId[os[j].id])
  }

  lemma {:induction false} LastIs(byId: map<Text, int>, os: seq<Fold.SceneObject>, id: Text)
    requires Indexes(byId, os)
    ensures Fold.LastIndex(os, id) == if id in byId then byId[id] else -1
  {
  }

  method Index(have: Slice<Fold.SceneObject>) returns (byId: map<Text, int>)
    requires SliceOk(have)
    ensures Indexes(byId, View(have))
  {
    byId := map[];
    var n := if have.Nil? then 0 else have.len;
    var i := 0;
    while i < n
      invariant 0 <= i <= n == |View(have)| && Indexes(byId, View(have)[..i])
    {
      byId := byId[have.back.v[i].id := i];
      i := i + 1;
    }
    assert View(have)[..n] == View(have);
  }

  method SetOf(squares: seq<Text>) returns (r: map<Text, bool>)
    ensures r == Fold.TrueOn(Fold.Elements(squares))
  {
    r := map[];
    var i := 0;
    while i < |squares|
      invariant 0 <= i <= |squares| && r == Fold.TrueOn(Fold.Elements(squares[..i]))
    {
      assert squares[..i + 1] == squares[..i] + [squares[i]];
      r := r[squares[i] := true];
      i := i + 1;
    }
    assert squares[..i] == squares;
  }

  /** A SceneSeen written into one scene: sight replaced, terrain unioned in place, objects merged. */
  method WriteSeen(id: Text, s: Scene, ghost own: set<object>, p: Payload) returns (sc: Scene, ghost now: set<object>)
    requires SceneOk(id, s, own) && p.SceneSeen?
    modifies CellsOf(s)
    ensures own <= now && fresh(now - own) && SceneOk(id, sc, now)
    ensures SceneValue(id, sc, now) == Fold.Seen(old(SceneValue(id, s, own)), p)
  {
    hide Fold.Merge, Fold.TrueOn;
    var made, wide := MakeMaps(id, s, own);
    WriteTerrain(id, made, wide, p.seenTiles);
    assert fresh(wide - own);
    sc, now := WriteSight(id, made, wide, p);
  }

  /** Terrain unioned, in place. */
  method WriteTerrain(id: Text, s: Scene, ghost own: set<object>, seen: map<Text, TileRef>)
    requires SceneOk(id, s, own) && s.tiles != null && s.explored != null
    modifies s.tiles, s.explored
    ensures SceneOk(id, s, own)
    ensures var was := old(SceneValue(id, s, own));
            SceneValue(id, s, own) == was.(tiles := was.tiles + seen, explored := Some(was.explored.value + Fold.TrueOn(seen.Keys)))
  {
    hide Fold.TrueOn;
    WriteTiles(s.tiles, s.explored, seen);
  }

  /** Sight replaced by a set of its own, and objects merged. */
  method WriteSight(id: Text, s: Scene, ghost own: set<object>, p: Payload) returns (sc: Scene, ghost now: set<object>)
    requires SceneOk(id, s, own) && p.SceneSeen?
    modifies Backing(s.objects)
    ensures own <= now && fresh(now - own) && SceneOk(id, sc, now)
    ensures var was := old(SceneValue(id, s, own));
            SceneValue(id, sc, now) == was.(visible := Some(Fold.TrueOn(Fold.Elements(p.visibleSquares))),
                                            objects := Fold.Merge(was.objects, p.seenObjects))
  {
    hide Fold.TrueOn, Fold.Merge;
    var lit := SetOf(p.visibleSquares);
    var visible := new Cell(VISIBLE, id, lit);
    var merged := MergeObjects(s.objects, p.seenObjects, id);
    sc, now := s.(visible := visible, objects := merged), own + {visible} + Backing(merged);
  }

  /** Null terrain and explored maps replaced by empty ones. */
  method MakeMaps(id: Text, s: Scene, ghost own: set<object>) returns (sc: Scene, ghost now: set<object>)
    requires SceneOk(id, s, own)
    ensures own <= now && fresh(now - own) && SceneOk(id, sc, now)
    ensures sc.tiles != null && sc.explored != null && CellsOf(s) <= CellsOf(sc) && fresh(CellsOf(sc) - CellsOf(s))
    ensures sc.objects == s.objects && sc.openDoors == s.openDoors && sc.visible == s.visible
    ensures var was := SceneValue(id, s, own);
            SceneValue(id, sc, now) == was.(explored := Some(if was.explored.Some? then was.explored.value else map[]))
  {
    sc, now := s, own;
    if sc.tiles == null {
      var made := new Cell(TILES, id, map[]);
      sc, now := sc.(tiles := made), now + {made};
    }
    if sc.explored == null {
      var made := new Cell(EXPLORED, id, map[]);
      sc, now := sc.(explored := made), now + {made};
    }
  }

  method WriteTiles(tiles: Cell<map<Text, TileRef>>, explored: Cell<map<Text, bool>>, seen: map<Text, TileRef>)
    requires tiles.kind != explored.kind
    modifies tiles, explored
    ensures tiles.v == old(tiles.v) + seen
    ensures explored.v == old(explored.v) + Fold.TrueOn(seen.Keys)
  {
    hide Extends;
    ghost var was, lit := tiles.v, explored.v;
    ghost var all := Fold.TrueOn(seen.Keys);
    var todo := seen.Keys;
    ExtendsNone(was, seen);
    ExtendsNone(lit, all);
    assert all.Keys == seen.Keys;
    while todo != {}
      invariant todo <= seen.Keys
      invariant Extends(tiles.v, was, seen, seen.Keys - todo) && Extends(explored.v, lit, all, seen.Keys - todo)
      decreases todo
    {
      var k :| k in todo;
      ExtendsMore(tiles.v, was, seen, seen.Keys - todo, k);
      ExtendsMore(explored.v, lit, all, seen.Keys - todo, k);
      assert (seen.Keys - todo) + {k} == seen.Keys - (todo - {k});
      tiles.v := tiles.v[k := seen[k]];
      explored.v := explored.v[k := true];
      todo := todo - {k};
    }
    assert seen.Keys - todo == seen.Keys == all.Keys;
    ExtendsAll(tiles.v, was, seen);
    ExtendsAll(explored.v, lit, all);
  }

  lemma {:induction false} ExtendsNone<V>(was: map<Text, V>, more: map<Text, V>)
    ensures Extends(was, was, more, more.Keys - more.Keys)
  {
  }

  lemma {:induction false} ExtendsMore<V>(m: map<Text, V>, was: map<Text, V>, more: map<Text, V>, done: set<Text>, k: Text)
    requires Extends(m, was, more, done) && k in more
    ensures Extends(m[k := more[k]], was, more, done + {k})
  {
  }

  lemma {:induction false} ExtendsAll<V>(m: map<Text, V>, was: map<Text, V>, more: map<Text, V>)
    requires Extends(m, was, more, more.Keys)
    ensures m == was + more
  {
  }

  /** m is `was` with the entries of `more` at `done` written over it. */
  ghost predicate Extends<V>(m: map<Text, V>, was: map<Text, V>, more: map<Text, V>, done: set<Text>) {
    && m.Keys == was.Keys + done && done <= more.Keys
    && forall k :: k in m ==> m[k] == if k in done then more[k] else was[k]
  }

  method SeeIn(m: map<Text, Scene>, ghost own: set<object>, id: Text, p: Payload) returns (sc: Scene, ghost now: set<object>)
    requires ScenesOk(m, own) && id in m && p.SceneSeen?
    modifies CellsOf(m[id])
    ensures own <= now && fresh(now - own) && ScenesOk(m[id := sc], now)
    ensures Scenes(m[id := sc], now) == old(Scenes(m, own))[id := Fold.Seen(old(Scenes(m, own))[id], p)]
  {
    hide Fold.Seen;
    ghost var before := Scenes(m, own);
    assert SceneOk(id, m[id], own);
    Reach(m, own, id);
    sc, now := WriteSeen(id, m[id], own, p);
    forall k | k in m && k != id ensures SceneOk(k, m[k], own) && SceneValue(k, m[k], own) == before[k] {
      assert CellsOf(m[k]) !! CellsOf(m[id]);
    }
    OneScene(m, own, id, sc, now, before);
  }

  method SeeScene(st: State, p: Payload) returns (ok: bool)
    requires st.Valid() && p.SceneSeen?
    modifies st.Repr()
    ensures st.Valid() && fresh(st.Repr() - old(st.Repr()))
    ensures ok <==> Fold.SeeScene(old(st.Value()), p).Accepted?
    ensures st.Value() == Landed(old(st.Value()), Fold.SeeScene(old(st.Value()), p))
  {
    hide ActorsOk, Actors, ConditionsOk, Conditions, SessionsOk, Sessions, SceneOk, SceneValue, Fold.Seen;
    if p.seenScene !in st.scenes {
      return false;
    }
    Reach(st.scenes, st.sceneOwn, p.seenScene);
    var sc, now := SeeIn(st.scenes, st.sceneOwn, p.seenScene, p);
    StoreScene(st, p.seenScene, sc, now);
    return true;
  }

  // ----- testimony -----

  method Narrate(env: Envelope) returns (ok: bool)
    requires env.payload.NarrationAdded?
    ensures forall st :: ok <==> Fold.Narrate(st, env).Accepted?
  {
    var p := env.payload;
    if |p.text| == 0 || |p.text| > Fold.MAX_TEXT || |p.speaker| > Fold.MAX_SPEAKER || p.anchorFrom < 0 || p.anchorTo < 0 {
      return false;
    }
    if p.anchorFrom != 0 || p.anchorTo != 0 {
      if p.anchorFrom == 0 || p.anchorTo == 0 || p.anchorFrom > p.anchorTo || p.anchorTo >= env.sequence {
        return false;
      }
    }
    return true;
  }

  method Whisper(st: State, p: Payload) returns (ok: bool)
    requires st.Valid() && p.WhisperAdded?
    ensures ok <==> Fold.Whisper(st.Value(), p).Accepted?
  {
    hide State.Valid, State.Value;
    Keys(st);
    if |p.text| == 0 || |p.text| > Fold.MAX_TEXT {
      return false;
    }
    var i := 0;
    while i < |p.toActorIds|
      invariant 0 <= i <= |p.toActorIds| && forall j :: 0 <= j < i ==> p.toActorIds[j] in st.actors
    {
      if p.toActorIds[i] !in st.actors {
        return false;
      }
      i := i + 1;
    }
    return p.fromActorId == [] || p.fromActorId in st.actors;
  }

  // ----- the switch -----

  datatype Answer = Done | Failed | Unknown

  function AnswerOf(o: Fold.Outcome): Answer {
    match o
    case Accepted(_) => Done
    case Refused => Failed
    case UnknownVariant => Unknown
  }

  lemma {:induction false} UnknownIsNoPayload(st: Fold.State, env: Envelope)
    ensures Fold.Step(st, env).UnknownVariant? <==> env.payload.NoPayload?
  {
  }

  /** Apply lands where the fold says, and a refusal or an unknown payload leaves the state unchanged. */
  method Apply(st: State, env: Envelope) returns (r: Answer)
    requires st.Valid()
    modifies st.Repr()
    ensures st.Valid() && fresh(st.Repr() - old(st.Repr()))
    ensures r == AnswerOf(Fold.Step(old(st.Value()), env))
    ensures st.Value() == Landed(old(st.Value()), Fold.Step(old(st.Value()), env))
  {
    hide State.Valid, State.Value;
    hide Fold.StartSession, Fold.EndSession, Fold.CreateScene, Fold.AddActor, Fold.GrantControl, Fold.RevokeControl;
    hide Fold.PlaceToken, Fold.DescribeToken, Fold.MoveToken, Fold.RemoveToken, Fold.RemoveActor, Fold.SetDoor;
    hide Fold.ChangeResource, Fold.ApplyCondition, Fold.RemoveCondition, Fold.UpsertNote, Fold.DeleteNote, Fold.SeeScene;
    UnknownIsNoPayload(st.Value(), env);
    var p := env.payload;
    var ok := true;
    match p {
      case NoPayload => return Unknown;
      case SessionStarted(_) => ok := StartSession(st, env);
      case SessionEnded => ok := EndSession(st, env);
      case SceneCreated(_, _, _, _, _, _) => ok := CreateScene(st, p);
      case ActorAdded(_) => ok := AddActor(st, p);
      case ActorControlGranted(_, _, _) => ok := GrantControl(st, p);
      case ActorControlRevoked(_, _) => ok := RevokeControl(st, p);
      case TokenPlaced(_, _, _, _, _, _, _, _) => ok := PlaceToken(st, p);
      case TokenDescribed(_, _, _, _, _) => ok := DescribeToken(st, p);
      case TokenMoved(_, _, _, _) => ok := MoveToken(st, p);
      case TokenRemoved(id) => ok := RemoveToken(st, id);
      case ActorRemoved(id) => ok := RemoveActor(st, id);
      case DoorOpened(scene, at) => ok := SetDoor(st, scene, at, true);
      case DoorClosed(scene, at) => ok := SetDoor(st, scene, at, false);
      case AttackRolled =>
      case AbilityUsed(id) => ok := 1 <= |id| <= Fold.MAX_ID;
      case AdventureLoaded(id, name) => ok := 1 <= |id| <= Fold.MAX_ID && |name| <= Fold.MAX_NAME;
      case ResourceChanged(_, _, _, _) => ok := ChangeResource(st, p);
      case ConditionApplied(_, _, _) => ok := ApplyCondition(st, env);
      case ConditionRemoved(_, _) => ok := RemoveCondition(st, p);
      case NarrationAdded(_, _, _, _) => ok := Narrate(env);
      case WhisperAdded(_, _, _) => ok := Whisper(st, p);
      case NoteUpserted(_, _, _, _) => ok := UpsertNote(st, env);
      case NoteDeleted(key) => ok := DeleteNote(st, key);
      case TokenHidden(id) => HideToken(st, id);
      case SceneSeen(_, _, _, _) => ok := SeeScene(st, p);
    }
    r := if ok then Done else Failed;
  }

  // ----- snapshot isolation -----

  /** The state after events each applied or refused in turn. */
  function AfterAll(before: Fold.State, evs: seq<Envelope>): Fold.State {
    if evs == [] then before
    else
      var mid := AfterAll(before, evs[..|evs| - 1]);
      Landed(mid, Fold.Step(mid, evs[|evs| - 1]))
  }

  /** The events of one side of an interleaving. */
  function Side(steps: seq<(bool, Envelope)>, left: bool): seq<Envelope> {
    if steps == [] then []
    else
      var init := Side(steps[..|steps| - 1], left);
      if steps[|steps| - 1].0 == left then init + [steps[|steps| - 1].1] else init
  }

  lemma {:induction false} SideGrows(steps: seq<(bool, Envelope)>, n: nat)
    requires n < |steps|
    ensures Side(steps[..n + 1], true) == Side(steps[..n], true) + (if steps[n].0 then [steps[n].1] else [])
    ensures Side(steps[..n + 1], false) == Side(steps[..n], false) + (if steps[n].0 then [] else [steps[n].1])
  {
    assert steps[..n + 1][..n] == steps[..n];
  }

  lemma {:induction false} AfterOneMore(before: Fold.State, evs: seq<Envelope>, e: Envelope)
    ensures AfterAll(before, evs + [e]) == Landed(AfterAll(before, evs), Fold.Step(AfterAll(before, evs), e))
  {
    hide Fold.Step;
    assert (evs + [e])[..|evs|] == evs;
  }

  /** Applying to one state leaves another that shares no storage with it untouched, and still apart. */
  method ApplyApart(st: State, env: Envelope, other: State)
    requires st.Valid() && other.Valid() && st.Repr() !! other.Repr()
    modifies st.Repr()
    ensures st.Valid() && other.Valid() && st.Repr() !! other.Repr() && other.Repr() == old(other.Repr())
    ensures fresh(st.Repr() - old(st.Repr()))
    ensures st.Value() == Landed(old(st.Value()), Fold.Step(old(st.Value()), env))
    ensures other.Value() == old(other.Value())
  {
    hide ScenesOk, Scenes, ActorsOk, Actors, ConditionsOk, Conditions, SessionsOk, Sessions, Fold.Step, Landed;
    var r := Apply(st, env);
  }

  /** A snapshot equals its source, and from then on events applied to either in any
      interleaving leave the other as only its own events made it. */
  method SnapshotIsolated(st: State, steps: seq<(bool, Envelope)>) returns (snap: State)
    requires st.Valid()
    modifies st.Repr()
    ensures st.Valid() && snap.Valid()
    ensures st.Value() == AfterAll(old(st.Value()), Side(steps, true))
    ensures snap.Value() == AfterAll(old(st.Value()), Side(steps, false))
  {
    hide State.Valid, State.Value, Fold.Step, Side, AfterAll, Landed;
    ghost var start := st.Value();
    snap := st.Snapshot();
    var i := 0;
    assert steps[..0] == [];
    AfterNone(start);
    while i < |steps|
      invariant 0 <= i <= |steps| && st.Valid() && snap.Valid() && st.Repr() !! snap.Repr()
      invariant fresh(st.Repr() - old(st.Repr())) && fresh(snap.Repr())
      invariant st.Value() == AfterAll(start, Side(steps[..i], true))
      invariant snap.Value() == AfterAll(start, Side(steps[..i], false))
    {
      ghost var left, right := Side(steps[..i], true), Side(steps[..i], false);
      SideGrows(steps, i);
      assert left + [] == left && right + [] == right;
      if steps[i].0 {
        AfterOneMore(start, left, steps[i].1);
        ApplyApart(st, steps[i].1, snap);
      } else {
        AfterOneMore(start, right, steps[i].1);
        ApplyApart(snap, steps[i].1, st);
      }
      i := i + 1;
    }
    assert steps[..i] == steps;
  }

  lemma {:induction false} AfterNone(before: Fold.State)
    ensures AfterAll(before, Side([], true)) == before && AfterAll(before, Side([], false)) == before
  {
  }
}
