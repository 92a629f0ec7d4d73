/** The character logs derived from the world log (internal/campaign/fanout.go), on
    values: what one actor's log takes from one world event, and how the store
    numbers it. The campaign class is proved against these functions. */
module CharacterLogs {
  import opened Contract
  import opened Fold
  import opened TextOrder

  /** An entry a world event caused: the event's sequence and the entry's own. */
  datatype Caused = Caused(world: int, own: int)

  /** One actor's log as the campaign holds it; decision None while it is paused. */
  datatype Log<+D> = Log(fold: State, head: int, decision: Option<D>, caused: seq<Caused>, resumes: seq<int>)

  /** The perception decision, left arbitrary: `begin` has seen nothing, `event`
      moves it and returns any frames at all, `resume` starts it from a log. */
  datatype Perception<!D> = Perception(
    begin: Text -> D,
    event: (D, Text, Envelope, State, State) -> (D, seq<Envelope>),
    resume: (Text, State, State) -> D)

  /** What the fan-out hands the store; cause -1 is no world event. */
  datatype Entry = Entry(actorId: Text, cause: int, env: Envelope)

  /** A stored entry; worldSeq 0 is no world event. */
  datatype CharEntry = CharEntry(worldSeq: int, env: Envelope)

  predicate Member(st: State, id: Text) {
    id in st.actors && st.actors[id].kind == KIND_PARTY_MEMBER
  }

  function Party(st: State): set<Text> { set id | id in st.actors && Member(st, id) }

  function Bare(p: Payload): Envelope { Envelope(0, [], p) }

  // ----- what leads a new or a resumed log -----

  /** A party member no eyes see: its id, module, kind and name, then a grant for
      each controller (perceive's introduce of unseenAs). */
  function Introduce(a: Actor): seq<Envelope> {
    [Bare(ActorAdded(Some(Actor(a.id, a.name, a.moduleId, map[], map[], [], [], a.kind))))] + Grants(a, a.controllerIds)
  }

  function Grants(a: Actor, controllers: seq<Text>): seq<Envelope> {
    seq(|controllers|, i requires 0 <= i < |controllers| => Bare(ActorControlGranted(a.id, controllers[i], a.kind)))
  }

  function Introductions(st: State, ids: seq<Text>): seq<Envelope>
    requires forall id :: id in ids ==> id in st.actors
  {
    if ids == [] then [] else Introductions(st, ids[..|ids| - 1]) + Introduce(st.actors[ids[|ids| - 1]])
  }

  function PublicNotes(st: State): set<Text> {
    set key | key in st.notes && st.notes[key].visibility == VISIBILITY_PUBLIC
  }

  function NoteFrames(st: State, keys: seq<Text>): seq<Envelope>
    requires forall key :: key in keys ==> key in st.notes
  {
    seq(|keys|, i requires 0 <= i < |keys| =>
      var n := st.notes[keys[i]]; Bare(NoteUpserted(keys[i], n.title, n.text, n.visibility)))
  }

  function StartFrame(s: Session): Envelope { Envelope(0, s.id, SessionStarted(s.name)) }

  function SessionFrames(before: State): seq<Envelope> {
    var s := OpenSession(before);
    if s.Some? then [StartFrame(s.value)] else []
  }

  /** What a new log is opened with. */
  function Opening(before: State): seq<Envelope> {
    SessionFrames(before) + Introductions(before, Sorted(Party(before))) + NoteFrames(before, Sorted(PublicNotes(before)))
  }

  function HideFrames(ids: seq<Text>): seq<Envelope> {
    seq(|ids|, i requires 0 <= i < |ids| => Bare(TokenHidden(ids[i])))
  }

  /** What brings a paused log's session to the world's. */
  function SessionTurn(fold: State, before: State): seq<Envelope> {
    var held, open := OpenSession(fold), OpenSession(before);
    var same := held.Some? && open.Some? && held.value.id == open.value.id;
    (if held.Some? && !same then [Bare(SessionEnded)] else [])
    + (if open.Some? && !same then [StartFrame(open.value)] else [])
  }

  /** What a paused log is resumed with. */
  function Resume(fold: State, before: State): seq<Envelope> {
    SessionTurn(fold, before) + HideFrames(Sorted(fold.tokens.Keys))
  }

  // ----- trying frames -----

  function Stamp(frames: seq<Envelope>, head: int): (r: seq<Envelope>)
    ensures |r| == |frames|
    ensures forall k :: 0 <= k < |r| ==> r[k] == frames[k].(sequence := head + k + 1)
  {
    seq(|frames|, k requires 0 <= k < |frames| => frames[k].(sequence := head + k + 1))
  }

  /** The fold after these frames, each at its sequence after head; None when one is refused. */
  function Trial(fold: State, head: int, frames: seq<Envelope>): Option<State> {
    Strict(fold, Stamp(frames, head))
  }

  // ----- anchors -----

  /** The first caused entry of a world event at or after w. */
  function CausedAt(caused: seq<Caused>, w: int): (k: nat)
    ensures k <= |caused|
    ensures k < |caused| ==> caused[k].world >= w
    ensures forall j :: 0 <= j < k ==> caused[j].world < w
  {
    if caused == [] || caused[0].world >= w then 0 else 1 + CausedAt(caused[1..], w)
  }

  /** How many resumes come at or before b, counted from the front. */
  function ResumesTo(resumes: seq<int>, b: int): (k: nat)
    ensures k <= |resumes|
    ensures k < |resumes| ==> resumes[k] > b
    ensures forall j :: 0 <= j < k ==> resumes[j] <= b
  {
    if resumes == [] || resumes[0] > b then 0 else 1 + ResumesTo(resumes[1..], b)
  }

  /** The caused entries an anchor on world events a to b may name: from, up to but not including to. */
  function Window(caused: seq<Caused>, resumes: seq<int>, a: int, b: int): (r: (nat, nat))
    ensures r.0 <= |caused| && r.1 <= |caused|
  {
    var from := CausedAt(caused, a);
    var to := CausedAt(caused, b + 1);
    var r := ResumesTo(resumes, b);
    if r == 0 then (from, to)
    else
      var start := CausedAt(caused, resumes[r - 1]);
      (if from < start then start else from, to)
  }

  /** The anchor on this log's own entries; 0 and 0 when there are none to name. */
  function Anchor(caused: seq<Caused>, resumes: seq<int>, a: int, b: int): (int, int) {
    var (from, to) := Window(caused, resumes, a, b);
    if from < to then (caused[from].own, caused[to - 1].own) else (0, 0)
  }

  function Reanchor(caused: seq<Caused>, resumes: seq<int>, f: Envelope): Envelope {
    if f.payload.NarrationAdded? then
      var (from, to) := Anchor(caused, resumes, f.payload.anchorFrom, f.payload.anchorTo);
      f.(payload := f.payload.(anchorFrom := from, anchorTo := to))
    else f
  }

  function ReanchorAll(caused: seq<Caused>, resumes: seq<int>, frames: seq<Envelope>): (r: seq<Envelope>)
    ensures |r| == |frames|
    ensures forall k :: 0 <= k < |r| ==> r[k] == Reanchor(caused, resumes, frames[k])
  {
    seq(|frames|, k requires 0 <= k < |frames| => Reanchor(caused, resumes, frames[k]))
  }

  // ----- one log's turn at one event -----

  function Unstamped(frames: seq<Envelope>): (r: seq<Envelope>)
    ensures |r| == |frames| && forall k :: 0 <= k < |r| ==> r[k] == frames[k].(sequence := 0)
  {
    seq(|frames|, k requires 0 <= k < |frames| => frames[k].(sequence := 0))
  }

  function Entries(id: Text, cause: int, frames: seq<Envelope>): (r: seq<Entry>)
    ensures |r| == |frames| && forall k :: 0 <= k < |r| ==> r[k] == Entry(id, cause, frames[k].(sequence := 0))
  {
    seq(|frames|, k requires 0 <= k < |frames| => Entry(id, cause, frames[k].(sequence := 0)))
  }

  /** The rows the frames of one world event add to a caused table. */
  function Rows(world: int, head: int, n: nat): (r: seq<Caused>)
    ensures |r| == n && forall k :: 0 <= k < n ==> r[k] == Caused(world, head + k + 1)
  {
    seq(n, k requires 0 <= k < n => Caused(world, head + k + 1))
  }

  datatype Turn<+D> = Turn(log: Option<Log<D>>, entries: seq<Entry>, dropped: nat)

  /** The log an event finds: as it was, new, or resuming, and what leads it. */
  function Roused<D>(p: Perception<D>, id: Text, ol: Option<Log<D>>, ev: Envelope, before: State): (r: (Log<D>, seq<Envelope>))
    ensures r.0.decision.Some?
  {
    match ol
    case None => (Log(NewState, 0, Some(p.begin(id)), [], []), Opening(before))
    case Some(l) =>
      if l.decision.Some? then (l, [])
      else (l.(resumes := l.resumes + [ev.sequence], decision := Some(p.begin(id))), Resume(l.fold, before))
  }

  /** The frames the decision makes of ev for a log already roused and led. */
  function Decide<D>(p: Perception<D>, id: Text, l: Log<D>, i: nat, ev: Envelope, world: State): Turn<D>
    requires l.decision.Some?
  {
    var (d, made) := p.event(l.decision.value, id, ev, l.fold, world);
    var frames := ReanchorAll(l.caused, l.resumes, made);
    match Trial(l.fold, l.head, frames)
    case None => Turn(Some(l.(decision := Some(p.resume(id, l.fold, world)))), [], 1)
    case Some(fold) =>
      Turn(Some(l.(decision := Some(d), fold := fold, head := l.head + |frames|,
                   caused := l.caused + Rows(ev.sequence, l.head, |frames|))),
           Entries(id, i, frames), 0)
  }

  /** What event i of a batch, ev, does to the log of id; before and world are the states around ev. */
  function TakeTurn<D>(p: Perception<D>, id: Text, ol: Option<Log<D>>, i: nat, ev: Envelope, before: State, world: State): Turn<D> {
    if !Member(world, id) then
      Turn(if ol.Some? then Some(ol.value.(decision := None)) else None, [], 0)
    else
      var (l, lead) := Roused(p, id, ol, ev, before);
      match Trial(l.fold, l.head, lead)
      case None => Turn(if l.head == 0 then None else Some(l.(decision := None)), [], 1)
      case Some(fold) =>
        var t := Decide(p, id, l.(fold := fold, head := l.head + |lead|), i, ev, world);
        t.(entries := Entries(id, -1, lead) + t.entries)
  }

  // ----- the fan-out of a batch -----

  datatype Fan<+D> = Fan(logs: map<Text, Log<D>>, entries: seq<Entry>, dropped: nat)

  function Find<V>(m: map<Text, V>, id: Text): Option<V> { if id in m then Some(m[id]) else None }

  function Put<V>(m: map<Text, V>, id: Text, v: Option<V>): map<Text, V> {
    if v.Some? then m[id := v.value] else m - {id}
  }

  function FanOne<D>(p: Perception<D>, f: Fan<D>, id: Text, i: nat, ev: Envelope, before: State, world: State): Fan<D> {
    var t := TakeTurn(p, id, Find(f.logs, id), i, ev, before, world);
    Fan(Put(f.logs, id, t.log), f.entries + t.entries, f.dropped + t.dropped)
  }

  function FanIds<D>(p: Perception<D>, f: Fan<D>, ids: seq<Text>, i: nat, ev: Envelope, before: State, world: State): Fan<D> {
    if ids == [] then f
    else FanOne(p, FanIds(p, f, ids[..|ids| - 1], i, ev, before, world), ids[|ids| - 1], i, ev, before, world)
  }

  /** The actors with a log and the party members of world, in order. */
  function LogIds<D>(logs: map<Text, Log<D>>, world: State): seq<Text> { Sorted(logs.Keys + Party(world)) }

  /** The fan-out of events already stamped, and the world after them; None when one is refused. */
  function FanEvents<D>(p: Perception<D>, logs: map<Text, Log<D>>, st: State, evs: seq<Envelope>): Option<(Fan<D>, State)> {
    if evs == [] then Some((Fan(logs, [], 0), st))
    else
      match FanEvents(p, logs, st, evs[..|evs| - 1])
      case None => None
      case Some((f, before)) =>
        var ev := evs[|evs| - 1];
        match Step(before, ev)
        case Accepted(world) =>
          Some((FanIds(p, f, LogIds(f.logs, world), |evs| - 1, ev, before, world), world))
        case _ => None
  }

  // ----- the store -----

  function Stored(chars: map<Text, seq<CharEntry>>, id: Text): seq<CharEntry> { if id in chars then chars[id] else [] }

  /** MAX(seq) of one log. */
  function MaxSeq(log: seq<CharEntry>): int { if log == [] then 0 else log[|log| - 1].env.sequence }

  function StoreOne(chars: map<Text, seq<CharEntry>>, e: Entry, first: int): map<Text, seq<CharEntry>> {
    var log := Stored(chars, e.actorId);
    chars[e.actorId := log + [CharEntry(if e.cause >= 0 then first + e.cause else 0, e.env.(sequence := MaxSeq(log) + 1))]]
  }

  /** The store's logs after a transaction whose first world sequence is first. */
  function StoreAll(chars: map<Text, seq<CharEntry>>, entries: seq<Entry>, first: int): map<Text, seq<CharEntry>> {
    if entries == [] then chars
    else StoreOne(StoreAll(chars, entries[..|entries| - 1], first), entries[|entries| - 1], first)
  }

  function EnvsOf(log: seq<CharEntry>): (r: seq<Envelope>)
    ensures |r| == |log| && forall k :: 0 <= k < |r| ==> r[k] == log[k].env
  {
    seq(|log|, k requires 0 <= k < |log| => log[k].env)
  }

  /** The caused table a stored log gives. */
  function CausedOf(log: seq<CharEntry>): seq<Caused> {
    if log == [] then []
    else
      var last := log[|log| - 1];
      CausedOf(log[..|log| - 1]) + (if last.worldSeq != 0 then [Caused(last.worldSeq, last.env.sequence)] else [])
  }
}
