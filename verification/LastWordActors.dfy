/** The last word on tokens, actors, their conditions and the session: what a
    replayed state says of one of them is read off the events that name it. */
module LastWordActors {
  import opened Contract
  import opened Fold
  import opened FoldInvariants
  import LastWord

  // ----- which events touch what -----

  predicate OfTokens(p: Payload) { p.TokenPlaced? || p.TokenDescribed? || p.TokenMoved? || p.TokenRemoved? || p.TokenHidden? }

  predicate OfActors(p: Payload) {
    p.ActorAdded? || p.ActorControlGranted? || p.ActorControlRevoked? || p.ActorRemoved? || p.ResourceChanged?
  }

  predicate OfConditions(p: Payload) { p.ConditionApplied? || p.ConditionRemoved? || p.ActorRemoved? }

  predicate OfSessions(p: Payload) { p.SessionStarted? || p.SessionEnded? }

  /** Every event leaves the parts it is not about. */
  lemma {:induction false} StepFrame(st: State, e: Envelope)
    requires Step(st, e).Accepted?
    ensures !OfTokens(e.payload) ==> Step(st, e).st.tokens == st.tokens
    ensures !OfActors(e.payload) ==> Step(st, e).st.actors == st.actors
    ensures !OfConditions(e.payload) ==> Step(st, e).st.conditions == st.conditions
    ensures !OfSessions(e.payload) ==> Step(st, e).st.sessions == st.sessions
  {
    hide StartSession, EndSession, CreateScene, AddActor, GrantControl, RevokeControl, PlaceToken, DescribeToken, MoveToken,
         RemoveToken, RemoveActor, SetDoor, ChangeResource, ApplyCondition, RemoveCondition, Narrate, Whisper, UpsertNote, DeleteNote, SeeScene;
    var p := e.payload;
    match p
    case SceneCreated(_, _, _, _, _, _) => SceneArmsFrame(st, p);
    case DoorOpened(_, _) => SceneArmsFrame(st, p);
    case DoorClosed(_, _) => SceneArmsFrame(st, p);
    case SceneSeen(_, _, _, _) => SceneArmsFrame(st, p);
    case ActorAdded(_) => ActorArmsFrame(st, p);
    case ActorControlGranted(_, _, _) => ActorArmsFrame(st, p);
    case ActorControlRevoked(_, _) => ActorArmsFrame(st, p);
    case ResourceChanged(_, _, _, _) => ActorArmsFrame(st, p);
    case ActorRemoved(_) => ActorArmsFrame(st, p);
    case _ => OtherArmsFrame(st, e);
  }

  lemma {:induction false} SceneArmsFrame(st: State, p: Payload)
    ensures p.SceneCreated? ==> var r := CreateScene(st, p); r.Accepted? ==> r.st == st.(scenes := r.st.scenes)
    ensures p.SceneSeen? ==> var r := SeeScene(st, p); r.Accepted? ==> r.st == st.(scenes := r.st.scenes)
    ensures p.DoorOpened? ==> var r := SetDoor(st, p.doorScene, p.at, true); r.Accepted? ==> r.st == st.(scenes := r.st.scenes)
    ensures p.DoorClosed? ==> var r := SetDoor(st, p.doorScene, p.at, false); r.Accepted? ==> r.st == st.(scenes := r.st.scenes)
  {
    hide DistinctRefs, FromRefs, Seen, IdOk, NameOk;
  }

  lemma {:induction false} ActorArmsFrame(st: State, p: Payload)
    ensures p.ActorAdded? ==> var r := AddActor(st, p); r.Accepted? ==> r.st == st.(actors := r.st.actors)
    ensures p.ActorControlGranted? ==> var r := GrantControl(st, p); r.Accepted? ==> r.st == st.(actors := r.st.actors)
    ensures p.ActorControlRevoked? ==> var r := RevokeControl(st, p); r.Accepted? ==> r.st == st.(actors := r.st.actors)
    ensures p.ResourceChanged? ==> var r := ChangeResource(st, p); r.Accepted? ==> r.st == st.(actors := r.st.actors)
    ensures p.ActorRemoved? ==> var r := RemoveActor(st, p.actorId); r.Accepted? ==> r.st == st.(actors := r.st.actors, conditions := r.st.conditions)
  {
    hide KeysOk, ControlTarget, MirrorControl, Without, Clamp, HasToken, IdOk, NameOk;
  }

  lemma {:induction false} OtherArmsFrame(st: State, e: Envelope)
    requires Step(st, e).Accepted? && !OfActors(e.payload)
    requires !e.payload.SceneCreated? && !e.payload.SceneSeen? && !e.payload.DoorOpened? && !e.payload.DoorClosed?
    ensures Step(st, e).st.actors == st.actors
    ensures !OfTokens(e.payload) ==> Step(st, e).st.tokens == st.tokens
    ensures !OfConditions(e.payload) ==> Step(st, e).st.conditions == st.conditions
    ensures !OfSessions(e.payload) ==> Step(st, e).st.sessions == st.sessions
  {
    hide CreateScene, AddActor, GrantControl, RevokeControl, ChangeResource, RemoveActor, SetDoor, SeeScene;
    hide IdOk, NameOk, TextOk, OpenIndex, ConditionIndex, ConditionsOf, AnchorOk;
    match e.payload
    case SessionStarted(_) => assert Step(st, e) == StartSession(st, e);
    case SessionEnded => assert Step(st, e) == EndSession(st, e);
    case TokenPlaced(_, _, _, _, _, _, _, _) => assert Step(st, e) == PlaceToken(st, e.payload);
    case ConditionApplied(_, _, _) => assert Step(st, e) == ApplyCondition(st, e);
    case ConditionRemoved(_, _) => assert Step(st, e) == RemoveCondition(st, e.payload);
    case _ =>
  }

  // ----- tokens -----

  /** The token an event names. */
  function TokenNamed(p: Payload): Option<Text> { if OfTokens(p) then Some(p.tokenId) else None }

  /** A token as the events naming it leave it: where it was last placed or moved, as it
      was last placed or described, unless it was taken off since. */
  function LastToken(evs: seq<Envelope>, id: Text): Option<Token> {
    if evs == [] then None
    else
      var before := LastToken(evs[..|evs| - 1], id);
      var p := evs[|evs| - 1].payload;
      if TokenNamed(p) != Some(id) then before
      else
        match p
        case TokenPlaced(_, scene, actor, Some(at), name, notes, gmName, gmNotes) =>
          Some(Token(id, scene, actor, at.x, at.y, name, notes, gmName, gmNotes))
        case TokenDescribed(_, name, notes, gmName, gmNotes) =>
          if before.None? then None
          else Some(Token(id, before.value.sceneId, before.value.actorId, before.value.x, before.value.y, name, notes, gmName, gmNotes))
        case TokenMoved(_, _, Some(to), _) =>
          if before.None? then None
          else Some(Token(id, before.value.sceneId, before.value.actorId, to.x, to.y,
                          before.value.name, before.value.notes, before.value.gmName, before.value.gmNotes))
        case _ => None
  }

  function Get<V>(m: map<Text, V>, id: Text): Option<V> { if id in m then Some(m[id]) else None }

  /** A token event leaves every other token. */
  lemma {:induction false} TokenStep(st: State, e: Envelope, id: Text)
    requires Step(st, e).Accepted?
    ensures TokenNamed(e.payload) != Some(id) ==> Get(Step(st, e).st.tokens, id) == Get(st.tokens, id)
  {
    hide IdOk, StartSession, EndSession, CreateScene, AddActor, GrantControl, RevokeControl, ChangeResource, RemoveActor, SetDoor, SeeScene;
    hide ApplyCondition, RemoveCondition, Narrate, Whisper, UpsertNote, DeleteNote;
    if !OfTokens(e.payload) {
      StepFrame(st, e);
    }
  }

  /** A token is what the events naming it last said of it, and stands exactly while
      none took it off since it was placed. */
  lemma {:induction false} TokenIsLastWord(evs: seq<Envelope>, id: Text)
    requires Replay(evs).Some?
    ensures Get(Replay(evs).value.tokens, id) == LastToken(evs, id)
    ensures LastToken(evs, id).Some? ==> LastToken(evs, id).value.id == id
  {
    if evs != [] {
      var init, e := evs[..|evs| - 1], evs[|evs| - 1];
      TokenIsLastWord(init, id);
      var st, p := Replay(init).value, e.payload;
      LastWord.UnknownIsNothing(st, e);
      if Step(st, e).Accepted? {
        hide StartSession, EndSession, CreateScene, AddActor, GrantControl, RevokeControl, ChangeResource, RemoveActor, SetDoor, SeeScene;
        hide ApplyCondition, RemoveCondition, Narrate, Whisper, UpsertNote, DeleteNote, IdOk;
        TokenStep(st, e, id);
        if TokenNamed(p) == Some(id) {
          match p
          case TokenPlaced(_, _, _, _, _, _, _, _) => assert Step(st, e) == PlaceToken(st, p);
          case TokenDescribed(_, _, _, _, _) => assert Step(st, e) == DescribeToken(st, p);
          case TokenMoved(_, _, _, _) => assert Step(st, e) == MoveToken(st, p);
          case _ =>
        }
      }
    }
  }

  // ----- actors -----

  /** What an actor event says of one controller: given, taken, or nothing. */
  datatype Word = Yes | No | Silent

  function ControlWord(p: Payload, id: Text, controller: Text): Word {
    match p
    case ActorAdded(Some(a)) => if a.id == id then No else Silent
    case ActorRemoved(a) => if a == id then No else Silent
    case ActorControlGranted(a, c, _) => if a == id && c == controller then Yes else Silent
    case ActorControlRevoked(a, c) => if a == id && c == controller then No else Silent
    case _ => Silent
  }

  /** Whether the last event to say anything of this controller gave it. */
  predicate LastGranted(evs: seq<Envelope>, id: Text, controller: Text) {
    evs != [] &&
    var w := ControlWord(evs[|evs| - 1].payload, id, controller);
    if w == Silent then LastGranted(evs[..|evs| - 1], id, controller) else w == Yes
  }

  predicate Controls(st: State, id: Text, controller: Text) { id in st.actors && controller in st.actors[id].controllerIds }

  lemma {:induction false} ControlStep(st: State, e: Envelope, id: Text, controller: Text)
    requires Step(st, e).Accepted?
    ensures Controls(Step(st, e).st, id, controller) <==>
              var w := ControlWord(e.payload, id, controller);
              if w == Silent then Controls(st, id, controller) else w == Yes
  {
    hide KeysOk, IdOk, NameOk, HasToken, Without, Clamp, StartSession, EndSession, CreateScene, PlaceToken, SetDoor, SeeScene,
         ApplyCondition, RemoveCondition, Narrate, Whisper, UpsertNote, DeleteNote, DescribeToken, MoveToken, RemoveToken;
    var p := e.payload;
    match p
    case ActorAdded(_) => assert Step(st, e) == AddActor(st, p);
    case ActorControlGranted(_, _, _) => assert Step(st, e) == GrantControl(st, p);
    case ActorControlRevoked(a, c) =>
      assert Step(st, e) == RevokeControl(st, p);
      WithoutKeeps(st.actors[a].controllerIds, c);
    case ActorRemoved(a) => assert Step(st, e) == RemoveActor(st, a);
    case ResourceChanged(_, _, _, _) => assert Step(st, e) == ChangeResource(st, p);
    case _ => StepFrame(st, e);
  }

  /** A participant controls an actor exactly when the last event about the two granted
      it: one grant is undone by its own revoke, the actor's leaving or its return, and
      by nothing else. */
  lemma {:induction false} ControlIsLastWord(evs: seq<Envelope>, id: Text, controller: Text)
    requires Replay(evs).Some?
    ensures Controls(Replay(evs).value, id, controller) <==> LastGranted(evs, id, controller)
  {
    hide Step, Controls;
    if evs == [] {
      NobodyControls(id, controller);
    } else {
      var init, e := evs[..|evs| - 1], evs[|evs| - 1];
      ControlIsLastWord(init, id, controller);
      LastWord.UnknownIsNothing(Replay(init).value, e);
      if Step(Replay(init).value, e).Accepted? {
        ControlStep(Replay(init).value, e, id, controller);
      }
    }
  }

  lemma {:induction false} NobodyControls(id: Text, controller: Text)
    ensures !Controls(NewState, id, controller)
  {
  }

  /** An actor's kind and the value of one of its resources, last said; None once gone. */
  function LastKind(evs: seq<Envelope>, id: Text): Option<int32> {
    if evs == [] then None
    else
      var before := LastKind(evs[..|evs| - 1], id);
      match evs[|evs| - 1].payload
      case ActorAdded(Some(a)) => if a.id == id then Some(a.kind) else before
      case ActorRemoved(a) => if a == id then None else before
      case ActorControlGranted(a, _, kind) => if a == id && kind != KIND_UNSPECIFIED then Some(kind) else before
      case _ => before
  }

  function LastResource(evs: seq<Envelope>, id: Text, key: Text): Option<Resource> {
    if evs == [] then None
    else
      var before := LastResource(evs[..|evs| - 1], id, key);
      match evs[|evs| - 1].payload
      case ActorAdded(Some(a)) => if a.id == id then Get(a.resources, key) else before
      case ActorRemoved(a) => if a == id then None else before
      case ResourceChanged(a, k, _, v) =>
        if a == id && k == key && before.Some? then Some(Resource(v, before.value.max)) else before
      case _ => before
  }

  /** What an actor is from its adding on. */
  datatype Sheet = Sheet(id: Text, name: Text, moduleId: Text, attributes: map<Text, int32>)

  function LastSheet(evs: seq<Envelope>, id: Text): Option<Sheet> {
    if evs == [] then None
    else
      match evs[|evs| - 1].payload
      case ActorAdded(Some(a)) =>
        if a.id == id then Some(Sheet(id, a.name, a.moduleId, a.attributes)) else LastSheet(evs[..|evs| - 1], id)
      case ActorRemoved(a) => if a == id then None else LastSheet(evs[..|evs| - 1], id)
      case _ => LastSheet(evs[..|evs| - 1], id)
  }

  function SheetOf(st: State, id: Text): Option<Sheet> {
    if id in st.actors then
      var a := st.actors[id];
      Some(Sheet(a.id, a.name, a.moduleId, a.attributes))
    else None
  }

  function KindOf(st: State, id: Text): Option<int32> { if id in st.actors then Some(st.actors[id].kind) else None }

  function ResourceOf(st: State, id: Text, key: Text): Option<Resource> {
    if id in st.actors then Get(st.actors[id].resources, key) else None
  }

  lemma {:induction false} KindStep(st: State, e: Envelope, id: Text)
    requires Step(st, e).Accepted?
    ensures KindOf(Step(st, e).st, id) ==
              match e.payload
              case ActorAdded(Some(a)) => if a.id == id then Some(a.kind) else KindOf(st, id)
              case ActorRemoved(a) => if a == id then None else KindOf(st, id)
              case ActorControlGranted(a, _, kind) => if a == id && kind != KIND_UNSPECIFIED then Some(kind) else KindOf(st, id)
              case _ => KindOf(st, id)
  {
    hide KeysOk, IdOk, NameOk, HasToken, Without, Clamp, StartSession, EndSession, CreateScene, PlaceToken, SetDoor, SeeScene,
         ApplyCondition, RemoveCondition, Narrate, Whisper, UpsertNote, DeleteNote, DescribeToken, MoveToken, RemoveToken;
    var p := e.payload;
    match p
    case ActorAdded(_) => assert Step(st, e) == AddActor(st, p);
    case ActorControlGranted(_, _, _) => assert Step(st, e) == GrantControl(st, p);
    case ActorControlRevoked(_, _) => assert Step(st, e) == RevokeControl(st, p);
    case ActorRemoved(a) => assert Step(st, e) == RemoveActor(st, a);
    case ResourceChanged(_, _, _, _) => assert Step(st, e) == ChangeResource(st, p);
    case _ => StepFrame(st, e);
  }

  lemma {:induction false} ResourceStep(st: State, e: Envelope, id: Text, key: Text)
    requires Step(st, e).Accepted?
    ensures ResourceOf(Step(st, e).st, id, key) ==
              match e.payload
              case ActorAdded(Some(a)) => if a.id == id then Get(a.resources, key) else ResourceOf(st, id, key)
              case ActorRemoved(a) => if a == id then None else ResourceOf(st, id, key)
              case ResourceChanged(a, k, _, v) =>
                if a == id && k == key && ResourceOf(st, id, key).Some? then Some(Resource(v, ResourceOf(st, id, key).value.max))
                else ResourceOf(st, id, key)
              case _ => ResourceOf(st, id, key)
  {
    hide KeysOk, IdOk, NameOk, HasToken, Without, Clamp, StartSession, EndSession, CreateScene, PlaceToken, SetDoor, SeeScene,
         ApplyCondition, RemoveCondition, Narrate, Whisper, UpsertNote, DeleteNote, DescribeToken, MoveToken, RemoveToken;
    var p := e.payload;
    match p
    case ActorAdded(_) => assert Step(st, e) == AddActor(st, p);
    case ActorControlGranted(_, _, _) => assert Step(st, e) == GrantControl(st, p);
    case ActorControlRevoked(_, _) => assert Step(st, e) == RevokeControl(st, p);
    case ActorRemoved(a) => assert Step(st, e) == RemoveActor(st, a);
    case ResourceChanged(_, _, _, _) => assert Step(st, e) == ChangeResource(st, p);
    case _ => StepFrame(st, e);
  }

  lemma {:induction false} SheetStep(st: State, e: Envelope, id: Text)
    requires Step(st, e).Accepted?
    ensures SheetOf(Step(st, e).st, id) ==
              match e.payload
              case ActorAdded(Some(a)) => if a.id == id then Some(Sheet(id, a.name, a.moduleId, a.attributes)) else SheetOf(st, id)
              case ActorRemoved(a) => if a == id then None else SheetOf(st, id)
              case _ => SheetOf(st, id)
  {
    hide KeysOk, IdOk, NameOk, HasToken, Without, Clamp, StartSession, EndSession, CreateScene, PlaceToken, SetDoor, SeeScene,
         ApplyCondition, RemoveCondition, Narrate, Whisper, UpsertNote, DeleteNote, DescribeToken, MoveToken, RemoveToken;
    var p := e.payload;
    match p
    case ActorAdded(_) => assert Step(st, e) == AddActor(st, p);
    case ActorControlGranted(_, _, _) => assert Step(st, e) == GrantControl(st, p);
    case ActorControlRevoked(_, _) => assert Step(st, e) == RevokeControl(st, p);
    case ActorRemoved(a) => assert Step(st, e) == RemoveActor(st, a);
    case ResourceChanged(_, _, _, _) => assert Step(st, e) == ChangeResource(st, p);
    case _ => StepFrame(st, e);
  }

  /** An actor's kind is the last one declared, by its adding or a grant that names one;
      a resource holds the last value an event gave it under the maximum it came with;
      its name, module and attributes are those it was last added with. */
  lemma {:induction false} ActorIsLastWord(evs: seq<Envelope>, id: Text, key: Text)
    requires Replay(evs).Some?
    ensures KindOf(Replay(evs).value, id) == LastKind(evs, id)
    ensures ResourceOf(Replay(evs).value, id, key) == LastResource(evs, id, key)
    ensures SheetOf(Replay(evs).value, id) == LastSheet(evs, id)
  {
    hide Step, KindOf, ResourceOf, SheetOf;
    if evs == [] {
      NoActor(id, key);
    } else {
      var init, e := evs[..|evs| - 1], evs[|evs| - 1];
      ActorIsLastWord(init, id, key);
      LastWord.UnknownIsNothing(Replay(init).value, e);
      if Step(Replay(init).value, e).Accepted? {
        KindStep(Replay(init).value, e, id);
        ResourceStep(Replay(init).value, e, id, key);
        SheetStep(Replay(init).value, e, id);
      }
    }
  }

  lemma {:induction false} NoActor(id: Text, key: Text)
    ensures KindOf(NewState, id).None? && ResourceOf(NewState, id, key).None? && SheetOf(NewState, id).None?
  {
  }

  // ----- conditions -----

  /** The condition an actor was last given under an id, unless it was taken since or
      the actor left. */
  function LastCondition(evs: seq<Envelope>, id: Text, condition: Text): Option<Condition> {
    if evs == [] then None
    else
      var before := LastCondition(evs[..|evs| - 1], id, condition);
      var e := evs[|evs| - 1];
      match e.payload
      case ConditionApplied(a, c, source) => if a == id && c == condition then Some(Condition(c, source, e.sequence)) else before
      case ConditionRemoved(a, c) => if a == id && c == condition then None else before
      case ActorRemoved(a) => if a == id then None else before
      case _ => before
  }

  /** The condition an actor has under an id. */
  function HasCondition(cs: seq<Condition>, id: Text): Option<Condition> {
    var i := ConditionIndex(cs, id);
    if i < |cs| then Some(cs[i]) else None
  }

  predicate Apart(cs: seq<Condition>) { forall i, j :: 0 <= i < j < |cs| ==> cs[i].id != cs[j].id }

  lemma {:induction false} IndexIs(cs: seq<Condition>, id: Text, k: nat)
    requires k < |cs| && cs[k].id == id && Apart(cs)
    ensures ConditionIndex(cs, id) == k
  {
  }

  lemma {:induction false} PushedCondition(cs: seq<Condition>, c: Condition, id: Text)
    requires Apart(cs) && ConditionIndex(cs, c.id) == |cs|
    ensures Apart(cs + [c]) && HasCondition(cs + [c], id) == if c.id == id then Some(c) else HasCondition(cs, id)
  {
    var all := cs + [c];
    var i := ConditionIndex(cs, id);
    if c.id == id {
      IndexIs(all, id, |cs|);
    } else if i < |cs| {
      IndexIs(all, id, i);
    }
  }

  lemma {:induction false} CutCondition(cs: seq<Condition>, at: nat, id: Text)
    requires Apart(cs) && at < |cs|
    ensures var r := cs[..at] + cs[at + 1..];
            Apart(r) && HasCondition(r, id) == if cs[at].id == id then None else HasCondition(cs, id)
  {
    var r := cs[..at] + cs[at + 1..];
    hide ConditionIndex;
    assert forall k :: 0 <= k < |r| ==> r[k] == cs[if k < at then k else k + 1];
    var i := ConditionIndex(cs, id);
    if i < |cs| && cs[at].id != id {
      IndexIs(r, id, if i < at then i else i - 1);
    } else {
      assert forall k :: 0 <= k < |r| ==> r[k].id != id;
    }
  }

  lemma {:induction false} ConditionStep(st: State, e: Envelope, id: Text, condition: Text)
    requires Step(st, e).Accepted? && Apart(ConditionsOf(st, id))
    ensures Apart(ConditionsOf(Step(st, e).st, id))
    ensures HasCondition(ConditionsOf(Step(st, e).st, id), condition) ==
              match e.payload
              case ConditionApplied(a, c, source) =>
                if a == id && c == condition then Some(Condition(c, source, e.sequence)) else HasCondition(ConditionsOf(st, id), condition)
              case ConditionRemoved(a, c) => if a == id && c == condition then None else HasCondition(ConditionsOf(st, id), condition)
              case ActorRemoved(a) => if a == id then None else HasCondition(ConditionsOf(st, id), condition)
              case _ => HasCondition(ConditionsOf(st, id), condition)
  {
    hide IdOk, HasToken, Apart, HasCondition, ConditionIndex, StartSession, EndSession, CreateScene, AddActor, GrantControl, RevokeControl,
         PlaceToken, DescribeToken, MoveToken, RemoveToken, SetDoor, ChangeResource, SeeScene, Narrate, Whisper, UpsertNote, DeleteNote;
    var p := e.payload;
    match p
    case ConditionApplied(a, c, source) =>
      assert Step(st, e) == ApplyCondition(st, e);
      if a == id { PushedCondition(ConditionsOf(st, a), Condition(c, source, e.sequence), condition); }
    case ConditionRemoved(a, c) =>
      assert Step(st, e) == RemoveCondition(st, p);
      if a == id { CutCondition(ConditionsOf(st, a), ConditionIndex(ConditionsOf(st, a), c), condition); }
    case ActorRemoved(a) =>
      assert Step(st, e) == RemoveActor(st, a);
      NoCondition(condition);
    case _ => StepFrame(st, e);
  }

  lemma {:induction false} NoCondition(condition: Text)
    ensures Apart([]) && HasCondition([], condition).None?
  {
  }

  /** An actor has a condition exactly when it was applied and not removed since, from
      the source and at the sequence of that application. */
  lemma {:induction false} ConditionIsLastWord(evs: seq<Envelope>, id: Text, condition: Text)
    requires Replay(evs).Some?
    ensures HasCondition(ConditionsOf(Replay(evs).value, id), condition) == LastCondition(evs, id, condition)
    ensures Apart(ConditionsOf(Replay(evs).value, id))
  {
    hide Step, HasCondition, Apart;
    if evs == [] {
      NoCondition(condition);
    } else {
      var init, e := evs[..|evs| - 1], evs[|evs| - 1];
      ConditionIsLastWord(init, id, condition);
      LastWord.UnknownIsNothing(Replay(init).value, e);
      if Step(Replay(init).value, e).Accepted? {
        ConditionStep(Replay(init).value, e, id, condition);
      }
    }
  }

  // ----- the session -----

  /** The session last started, unless it ended since. */
  function LastSession(evs: seq<Envelope>): Option<Session> {
    if evs == [] then None
    else
      var e := evs[|evs| - 1];
      match e.payload
      case SessionStarted(name) => Some(Session(e.sessionId, name, e.sequence, 0))
      case SessionEnded => None
      case _ => LastSession(evs[..|evs| - 1])
  }

  /** The open session is the one last started, if it has not ended since. */
  lemma {:induction false} SessionIsLastWord(evs: seq<Envelope>)
    requires Replay(evs).Some? && Positive(evs)
    ensures OpenSession(Replay(evs).value) == LastSession(evs)
  {
    if evs != [] {
      var init, e := evs[..|evs| - 1], evs[|evs| - 1];
      assert Positive(init) by { assert forall i :: 0 <= i < |init| ==> init[i] == evs[i]; }
      SessionIsLastWord(init);
      ReplayGood(init);
      var st := Replay(init).value;
      LastWord.UnknownIsNothing(st, e);
      if Step(st, e).Accepted? {
        SessionStep(st, e);
      }
    }
  }

  lemma {:induction false} SessionStep(st: State, e: Envelope)
    requires Good(st) && e.sequence > 0 && Step(st, e).Accepted?
    ensures OpenSession(Step(st, e).st) ==
              match e.payload
              case SessionStarted(name) => Some(Session(e.sessionId, name, e.sequence, 0))
              case SessionEnded => None
              case _ => OpenSession(st)
  {
    match e.payload
    case SessionStarted(name) =>
      assert Step(st, e) == StartSession(st, e);
      StepGood(st, e);
      OpenIsLast(Step(st, e).st.sessions);
    case SessionEnded =>
      assert Step(st, e) == EndSession(st, e);
      EndCloses(st, e);
    case _ => StepFrame(st, e);
  }
}
