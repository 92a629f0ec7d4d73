/** The fan-out as it runs (internal/campaign/fanout.go): working copies of the
    character logs, their tables in shared arrays, their decisions shared objects;
    proved to compute the fan-out on values and to write nothing the campaign holds
    but its decisions. */
module FanOut {
  import opened Contract
  import opened GoHeap
  import opened CharacterLogs
  import opened TextOrder
  import opened Anchors
  import opened FoldInvariants
  import opened CampaignInvariant
  import Fold

  const CAUSED := 10
  const RESUMES := 11

  /** A perception decision, which its log and every working copy of it point to. */
  class Projection<D> {
    ghost const id: Text
    var d: D

    constructor (ghost id: Text, d: D)
      ensures this.id == id && this.d == d
    {
      this.id, this.d := id, d;
    }
  }

  /** `fold` is never written once a trial returned it, so it is held as a value. */
  class CharacterLog<D> {
    ghost const id: Text
    var fold: Fold.State
    var head: int
    var decision: Projection?<D>
    var caused: Slice<Caused>
    var resumes: Slice<int>

    constructor (ghost id: Text, fold: Fold.State, head: int, decision: Projection?<D>, caused: Slice<Caused>, resumes: Slice<int>)
      ensures this.id == id && this.fold == fold && this.head == head && this.decision == decision
      ensures this.caused == caused && this.resumes == resumes
    {
      this.id := id;
      this.fold, this.head, this.decision, this.caused, this.resumes := fold, head, decision, caused, resumes;
    }

    ghost function Cells(): set<object>
      reads this
    {
      {this} + (if decision == null then {} else {decision as object}) + Backing(caused) + Backing(resumes)
    }

    /** All it refers to its own. */
    ghost predicate Ok()
      reads this, Cells()
    {
      && (decision != null ==> decision.id == id)
      && SliceOk(caused) && SliceIs(caused, CAUSED, id)
      && SliceOk(resumes) && SliceIs(resumes, RESUMES, id)
    }

    ghost function Value(): Log<D>
      requires Ok()
      reads this, Cells()
    {
      Log(fold, head, if decision == null then None else Some(decision.d), View(caused), View(resumes))
    }

    /** The arrays it may append into. */
    ghost function Spare(): set<object>
      reads this
    {
      (if HasSpare(caused) then Backing(caused) else {}) + (if HasSpare(resumes) then Backing(resumes) else {})
    }

    /** What a turn may write of it: itself, its decision, and arrays it may append into. */
    ghost function Writable(): set<object>
      reads this
    {
      {this} + (if decision == null then {} else {decision as object}) + Spare()
    }
  }

  /** The tables the searches run on are sorted. */
  ghost predicate Ordered(l: Log) { SortedTable(l.caused) && Increasing(l.resumes) }

  ghost predicate OrderedBefore(l: Log, w: int) { Ordered(l) && forall r :: r in l.resumes ==> r < w }

  lemma {:induction false} RousedOrdered<D>(p: Perception<D>, id: Text, ol: Option<Log<D>>, ev: Envelope, before: Fold.State)
    requires ol.Some? ==> OrderedBefore(ol.value, ev.sequence)
    ensures Ordered(Roused(p, id, ol, ev, before).0)
  {
    hide Opening, Resume;
    if ol.Some? && ol.value.decision.None? {
      var l := ol.value;
      assert forall i :: 0 <= i < |l.resumes| ==> l.resumes[i] in l.resumes;
    }
  }

  // ----- sort.Search -----

  lemma {:induction false} CausedAtIs(table: seq<Caused>, w: int, k: nat)
    requires k <= |table| && (k < |table| ==> table[k].world >= w) && forall j :: 0 <= j < k ==> table[j].world < w
    ensures k == CausedAt(table, w)
  {
  }

  lemma {:induction false} ResumesToIs(table: seq<int>, b: int, k: nat)
    requires k <= |table| && (k < |table| ==> table[k] > b) && forall j :: 0 <= j < k ==> table[j] <= b
    ensures k == ResumesTo(table, b)
  {
  }

  /** The first caused entry of a world event at or after w, by binary search. */
  method SearchCaused(s: Slice<Caused>, w: int, ghost table: seq<Caused>) returns (k: nat)
    requires SliceOk(s) && View(s) == table && SortedTable(table)
    ensures k == CausedAt(table, w)
  {
    var lo, hi := 0, if s.Nil? then 0 else s.len;
    while lo < hi
      invariant 0 <= lo <= hi <= |table|
      invariant forall j :: 0 <= j < lo ==> table[j].world < w
      invariant forall j :: hi <= j < |table| ==> table[j].world >= w
    {
      var mid := lo + (hi - lo) / 2;
      if s.back.v[mid].world >= w {
        hi := mid;
      } else {
        lo := mid + 1;
      }
    }
    k := lo;
    CausedAtIs(table, w, k);
  }

  /** How many resumes come at or before b, by binary search. */
  method SearchResumes(s: Slice<int>, b: int, ghost table: seq<int>) returns (k: nat)
    requires SliceOk(s) && View(s) == table && Increasing(table)
    ensures k == ResumesTo(table, b)
  {
    var lo, hi := 0, if s.Nil? then 0 else s.len;
    while lo < hi
      invariant 0 <= lo <= hi <= |table|
      invariant forall j :: 0 <= j < lo ==> table[j] <= b
      invariant forall j :: hi <= j < |table| ==> table[j] > b
    {
      var mid := lo + (hi - lo) / 2;
      if s.back.v[mid] > b {
        hi := mid;
      } else {
        lo := mid + 1;
      }
    }
    k := lo;
    ResumesToIs(table, b, k);
  }

  /** The window a range names, by the searches. */
  method FindWindow<D>(l: CharacterLog<D>, a: int, b: int) returns (lo: nat, hi: nat)
    requires SliceOk(l.caused) && SliceOk(l.resumes) && SortedTable(View(l.caused)) && Increasing(View(l.resumes))
    ensures (lo, hi) == Window(View(l.caused), View(l.resumes), a, b)
  {
    hide SortedTable, Increasing, CausedAt, ResumesTo;
    ghost var caused, resumes := View(l.caused), View(l.resumes);
    lo := SearchCaused(l.caused, a, caused);
    hi := SearchCaused(l.caused, b + 1, caused);
    var r := SearchResumes(l.resumes, b, resumes);
    if r > 0 {
      var last := At(l.resumes, r - 1);
      var start := SearchCaused(l.caused, last, caused);
      if lo < start { lo := start; }
    }
  }

  /** One narration's anchor. */
  method FindAnchor<D>(l: CharacterLog<D>, a: int, b: int) returns (from: int, to: int)
    requires SliceOk(l.caused) && SliceOk(l.resumes) && SortedTable(View(l.caused)) && Increasing(View(l.resumes))
    ensures (from, to) == Anchor(View(l.caused), View(l.resumes), a, b)
  {
    hide SortedTable, Increasing, Window;
    var lo, hi := FindWindow(l, a, b);
    if lo < hi {
      var first := At(l.caused, lo);
      var last := At(l.caused, hi - 1);
      return first.own, last.own;
    }
    return 0, 0;
  }

  /** reanchor: every anchored narration rewritten where it stands. */
  method ReanchorFrames<D>(l: CharacterLog<D>, made: seq<Envelope>) returns (frames: seq<Envelope>)
    requires SliceOk(l.caused) && SliceOk(l.resumes) && SortedTable(View(l.caused)) && Increasing(View(l.resumes))
    ensures frames == ReanchorAll(View(l.caused), View(l.resumes), made)
    ensures forall k :: 0 <= k < |made| ==>
              frames[k] == if made[k].payload.NarrationAdded?
                           then made[k].(payload := made[k].payload.(anchorFrom := frames[k].payload.anchorFrom, anchorTo := frames[k].payload.anchorTo))
                           else made[k]
  {
    hide Anchor, SortedTable, Increasing;
    frames := made;
    var k := 0;
    while k < |frames|
      invariant 0 <= k <= |frames| == |made|
      invariant forall j :: 0 <= j < k ==> frames[j] == Reanchor(View(l.caused), View(l.resumes), made[j])
      invariant forall j :: k <= j < |made| ==> frames[j] == made[j]
    {
      var n := frames[k].payload;
      if n.NarrationAdded? {
        var from, to := FindAnchor(l, n.anchorFrom, n.anchorTo);
        frames := frames[k := frames[k].(payload := n.(anchorFrom := from, anchorTo := to))];
      }
      k := k + 1;
    }
  }

  // ----- trial -----

  /** Frames folded onto a copy, each stamped with its sequence after head. */
  method Try(fold: Fold.State, head: int, frames: seq<Envelope>) returns (next: Fold.State, ok: bool)
    ensures ok <==> Trial(fold, head, frames).Some?
    ensures ok ==> Trial(fold, head, frames) == Some(next)
  {
    hide Fold.Step;
    next := fold;
    ghost var s := Stamp(frames, head);
    var k := 0;
    while k < |frames|
      invariant 0 <= k <= |frames| && Fold.Strict(fold, s[..k]) == Some(next)
    {
      assert s[..k + 1][..k] == s[..k];
      match Fold.Step(next, frames[k].(sequence := head + k + 1)) {
        case Accepted(after) => next := after;
        case _ =>
          TrialStops(fold, s, k + 1);
          return next, false;
      }
      k := k + 1;
    }
    assert s[..k] == s;
    ok := true;
  }

  lemma {:induction false} TrialStops(fold: Fold.State, s: seq<Envelope>, n: nat)
    requires n <= |s| && Fold.Strict(fold, s[..n]).None?
    ensures Fold.Strict(fold, s).None?
  {
    assert s == s[..n] + s[n..];
    Fold.StrictConcat(fold, s[..n], s[n..]);
  }

  // ----- one log's turn -----

  /** The rows recorded for the frames of one world event. */
  method Record(s: Slice<Caused>, ghost id: Text, world: int, head: int, n: nat) returns (r: Slice<Caused>)
    requires SliceOk(s) && SliceIs(s, CAUSED, id)
    modifies if HasSpare(s) then Backing(s) else {}
    ensures SliceOk(r) && SliceIs(r, CAUSED, id) && View(r) == old(View(s)) + Rows(world, head, n)
    ensures fresh(Backing(r) - Backing(s)) && (HasSpare(r) ==> HasSpare(s) || fresh(Backing(r)))
  {
    r := s;
    var k := 0;
    assert Rows(world, head, 0) == [];
    while k < n
      invariant 0 <= k <= n && SliceOk(r) && SliceIs(r, CAUSED, id)
      invariant View(r) == old(View(s)) + Rows(world, head, k)
      invariant fresh(Backing(r) - Backing(s)) && (HasSpare(r) ==> HasSpare(s) || fresh(Backing(r)))
    {
      r := Append(r, Caused(world, head + k + 1), CAUSED, id);
      assert Rows(world, head, k + 1) == Rows(world, head, k) + [Caused(world, head + k + 1)];
      k := k + 1;
    }
  }

  /** appendEntries: each frame handed to the store unstamped. */
  method AppendEntries(entries: seq<Entry>, id: Text, cause: int, frames: seq<Envelope>) returns (r: seq<Entry>)
    ensures r == entries + Entries(id, cause, frames)
  {
    r := entries;
    for k := 0 to |frames|
      invariant r == entries + Entries(id, cause, frames[..k])
    {
      r := r + [Entry(id, cause, frames[k].(sequence := 0))];
      assert Entries(id, cause, frames[..k + 1]) == Entries(id, cause, frames[..k]) + [Entry(id, cause, frames[k].(sequence := 0))];
    }
    assert frames[..|frames|] == frames;
  }

  lemma {:induction false} WritableHas<D>(l: CharacterLog<D>)
    ensures l in l.Writable() && l in l.Cells() && l.Spare() <= l.Writable() <= l.Cells()
    ensures l.decision != null ==> l.decision in l.Writable()
  {
  }

  ghost function ValueOf<D>(l: CharacterLog?<D>): Option<Log<D>>
    requires l != null ==> l.Ok()
    reads l, if l == null then {} else l.Cells()
  {
    if l == null then None else Some(l.Value())
  }

  /** A log's storage is what it was or new, and so is what of it may be written. */
  twostate predicate Grew<D>(l: CharacterLog<D>)
    reads l
  {
    && l in l.Cells()
    && (forall o :: o in l.Cells() ==> fresh(o) || o in old(l.Cells()))
    && (forall o :: o in l.Writable() ==> fresh(o) || o in old(l.Writable()))
  }

  /** The log an event finds: new, resuming, or as it was; and its lead. */
  method Rouse<D>(p: Perception<D>, id: Text, l: CharacterLog?<D>, ev: Envelope, before: Fold.State)
    returns (r: CharacterLog<D>, lead: seq<Envelope>)
    requires l != null ==> l.Ok() && l.id == id
    modifies if l == null then {} else l.Writable()
    ensures r.Ok() && r.id == id && r.decision != null && (r.Value(), lead) == Roused(p, id, old(ValueOf(l)), ev, before)
    ensures l == null ==> fresh(r.Cells()) && fresh(r.Writable())
    ensures l != null ==> r == l && Grew(l)
  {
    hide Opening, Resume;
    if l == null {
      var begun := new Projection(id, p.begin(id));
      r := new CharacterLog(id, Fold.NewState, 0, begun, Nil, Nil);
      lead := Opening(before);
    } else {
      r := l;
      lead := [];
      if l.decision == null {
        lead := Resume(l.fold, before);
        var longer := Append(l.resumes, ev.sequence, RESUMES, id);
        l.resumes := longer;
        l.decision := new Projection(id, p.begin(id));
      }
    }
  }

  /** The decision asked about an event: it moves, and its frames are reanchored. */
  method Ask<D>(p: Perception<D>, id: Text, l: CharacterLog<D>, ev: Envelope, world: Fold.State) returns (frames: seq<Envelope>)
    requires l.Ok() && l.id == id && l.decision != null && Ordered(l.Value())
    modifies l.decision
    ensures l.Ok()
    ensures var asked := p.event(old(l.decision.d), id, ev, l.fold, world);
            && l.Value() == old(l.Value()).(decision := Some(asked.0))
            && frames == ReanchorAll(View(l.caused), View(l.resumes), asked.1)
  {
    hide Reanchor, ReanchorAll;
    var (d, made) := p.event(l.decision.d, id, ev, l.fold, world);
    l.decision.d := d;
    frames := ReanchorFrames(l, made);
  }

  /** Frames that folded: the fold and head move, and the caused table gains their rows. */
  method Land<D>(id: Text, l: CharacterLog<D>, world: int, fold: Fold.State, n: nat)
    requires l.Ok() && l.id == id
    modifies l, l.Spare()
    ensures l.Ok() && l.decision == old(l.decision)
    ensures l.Value() == old(l.Value()).(fold := fold, head := old(l.head) + n, caused := old(l.Value()).caused + Rows(world, old(l.head), n))
    ensures Grew(l)
  {
    var longer := Record(l.caused, id, world, l.head, n);
    l.caused := longer;
    l.fold, l.head := fold, l.head + n;
  }

  /** A new decision for a log. */
  method Decided<D>(id: Text, l: CharacterLog<D>, d: Option<D>)
    requires l.Ok() && l.id == id
    modifies l`decision
    ensures l.Ok() && l.Value() == old(l.Value()).(decision := d)
    ensures Grew(l)
  {
    if d.Some? {
      l.decision := new Projection(id, d.value);
    } else {
      l.decision := null;
    }
  }

  /** The decision's frames of the event, reanchored, tried, and recorded if they fold. */
  method DecideOn<D>(p: Perception<D>, id: Text, l: CharacterLog<D>, i: nat, ev: Envelope, world: Fold.State)
    returns (entries: seq<Entry>, dropped: nat)
    requires l.Ok() && l.id == id && l.decision != null && Ordered(l.Value())
    modifies l.Writable()
    ensures l.Ok() && Turn(Some(l.Value()), entries, dropped) == Decide(p, id, old(l.Value()), i, ev, world)
    ensures Grew(l)
  {
    WritableHas(l);
    hide Decide, Trial, ReanchorAll, Rows, Entries, Ordered, CharacterLog.Cells, CharacterLog.Writable, CharacterLog.Spare;
    ghost var was := l.Value();
    var frames := Ask(p, id, l, ev, world);
    ghost var asked := l.Value();
    DecideIs(p, id, was, i, ev, world, asked, frames);
    var fold, ok := Try(l.fold, l.head, frames);
    assert l.Value() == asked;
    if !ok {
      Decided(id, l, Some(p.resume(id, l.fold, world)));
      return [], 1;
    }
    entries := AppendEntries([], id, i, frames);
    assert [] + Entries(id, i, frames) == Entries(id, i, frames);
    assert l.Value() == asked;
    Land(id, l, ev.sequence, fold, |frames|);
    dropped := 0;
  }

  lemma {:induction false} DecideIs<D>(p: Perception<D>, id: Text, was: Log<D>, i: nat, ev: Envelope, world: Fold.State,
                                       asked: Log<D>, frames: seq<Envelope>)
    requires was.decision.Some?
    requires var made := p.event(was.decision.value, id, ev, was.fold, world);
             asked == was.(decision := Some(made.0)) && frames == ReanchorAll(was.caused, was.resumes, made.1)
    ensures Decide(p, id, was, i, ev, world) ==
              match Trial(asked.fold, asked.head, frames)
              case None => Turn(Some(asked.(decision := Some(p.resume(id, asked.fold, world)))), [], 1)
              case Some(fold) =>
                Turn(Some(asked.(fold := fold, head := asked.head + |frames|,
                                 caused := asked.caused + Rows(ev.sequence, asked.head, |frames|))), Entries(id, i, frames), 0)
  {
    hide Trial, ReanchorAll, Rows, Entries;
  }

  /** A lead that folded. */
  method LandLead<D>(id: Text, l: CharacterLog<D>, fold: Fold.State, n: nat)
    requires l.Ok() && l.id == id
    modifies l`fold, l`head
    ensures l.Ok() && l.Value() == old(l.Value()).(fold := fold, head := old(l.head) + n)
    ensures l.Cells() == old(l.Cells()) && l.Writable() == old(l.Writable())
  {
    l.fold, l.head := fold, l.head + n;
  }

  /** A roused log's turn, once its actor is a party member: its lead, then the decision. */
  method LeadOn<D>(p: Perception<D>, id: Text, l: CharacterLog<D>, lead: seq<Envelope>, i: nat, ev: Envelope, world: Fold.State)
    returns (kept: bool, entries: seq<Entry>, dropped: nat)
    requires l.Ok() && l.id == id && l.decision != null && Ordered(l.Value())
    modifies l.Writable()
    ensures l.Ok() && Turn(if kept then Some(l.Value()) else None, entries, dropped) == LedTurn(p, id, old(l.Value()), lead, i, ev, world)
    ensures Grew(l)
  {
    WritableHas(l);
    hide Trial, Entries, Decide, Ordered, CharacterLog.Cells, CharacterLog.Writable, CharacterLog.Spare;
    ghost var was := l.Value();
    var fold, ok := Try(l.fold, l.head, lead);
    assert l.Value() == was;
    if !ok {
      // leave the log as it was: unopened, or paused to resume again
      kept := l.head != 0;
      Decided(id, l, None);
      return kept, [], 1;
    }
    var led := AppendEntries([], id, -1, lead);
    assert [] + Entries(id, -1, lead) == Entries(id, -1, lead);
    assert l.Value() == was;
    OrderedLed(was, fold, was.head + |lead|);
    LandLead(id, l, fold, |lead|);
    var more, n := DecideOn(p, id, l, i, ev, world);
    return true, led + more, n;
  }

  lemma {:induction false} OrderedLed<D>(l: Log<D>, fold: Fold.State, head: int)
    requires Ordered(l)
    ensures Ordered(l.(fold := fold, head := head))
  {
  }

  /** What TakeTurn does with a roused log. */
  function LedTurn<D>(p: Perception<D>, id: Text, l: Log<D>, lead: seq<Envelope>, i: nat, ev: Envelope, world: Fold.State): Turn<D>
    requires l.decision.Some?
  {
    match Trial(l.fold, l.head, lead)
    case None => Turn(if l.head == 0 then None else Some(l.(decision := None)), [], 1)
    case Some(fold) =>
      var t := Decide(p, id, l.(fold := fold, head := l.head + |lead|), i, ev, world);
      t.(entries := Entries(id, -1, lead) + t.entries)
  }

  lemma {:induction false} TurnIs<D>(p: Perception<D>, id: Text, ol: Option<Log<D>>, i: nat, ev: Envelope, before: Fold.State, world: Fold.State)
    requires Member(world, id)
    ensures var roused := Roused(p, id, ol, ev, before);
            TakeTurn(p, id, ol, i, ev, before, world) == LedTurn(p, id, roused.0, roused.1, i, ev, world)
  {
    hide Trial, Decide, Roused;
  }

  /** A party member's log roused and led. */
  method RouseAndLead<D>(p: Perception<D>, id: Text, l: CharacterLog?<D>, i: nat, ev: Envelope, before: Fold.State, world: Fold.State)
    returns (r: CharacterLog?<D>, entries: seq<Entry>, dropped: nat)
    requires l != null ==> l.Ok() && l.id == id && OrderedBefore(l.Value(), ev.sequence)
    modifies if l == null then {} else l.Writable()
    ensures r != null ==> r.Ok() && r.id == id && r in r.Cells()
    ensures var roused := Roused(p, id, old(ValueOf(l)), ev, before);
            Turn(ValueOf(r), entries, dropped) == LedTurn(p, id, roused.0, roused.1, i, ev, world)
    ensures r != null && l == null ==> fresh(r.Cells()) && fresh(r.Writable())
    ensures r != null && l != null ==> r == l && Grew(l)
  {
    hide LedTurn, Ordered, OrderedBefore, Roused, CharacterLog.Ok, CharacterLog.Value, CharacterLog.Cells, CharacterLog.Writable;
    RousedOrdered(p, id, ValueOf(l), ev, before);
    var roused, lead := Rouse(p, id, l, ev, before);
    var kept, made, n := LeadOn(p, id, roused, lead, i, ev, world);
    return if kept then roused else null, made, n;
  }

  /** What one world event does to one actor's log. */
  method TakeTurnOn<D>(p: Perception<D>, id: Text, l: CharacterLog?<D>, i: nat, ev: Envelope, before: Fold.State, world: Fold.State)
    returns (r: CharacterLog?<D>, entries: seq<Entry>, dropped: nat)
    requires l != null ==> l.Ok() && l.id == id && OrderedBefore(l.Value(), ev.sequence)
    modifies if l == null then {} else l.Writable()
    ensures r != null ==> r.Ok() && r.id == id && r in r.Cells()
    ensures Turn(ValueOf(r), entries, dropped) == TakeTurn(p, id, old(ValueOf(l)), i, ev, before, world)
    ensures r != null && l == null ==> fresh(r.Cells()) && fresh(r.Writable())
    ensures r != null && l != null ==> r == l && Grew(l)
  {
    hide Roused, Decide, Trial, LedTurn, OrderedBefore;
    if Member(world, id) {
      TurnIs(p, id, ValueOf(l), i, ev, before, world);
      hide *;
      r, entries, dropped := RouseAndLead(p, id, l, i, ev, before, world);
    } else {
      if l != null {
        Decided(id, l, None);
      }
      r, entries, dropped := l, [], 0;
    }
  }

  // ----- every log, event by event -----

  // `own` is the storage of a map of logs, `mine` what a fan-out may write of it.

  ghost predicate LogsOwn<D>(logs: map<Text, CharacterLog<D>>, own: set<object>)
    reads own
  {
    forall id :: id in logs ==> logs[id] in own && logs[id].Cells() <= own && logs[id].Ok() && logs[id].id == id
  }

  ghost function Logs<D>(logs: map<Text, CharacterLog<D>>, own: set<object>): map<Text, Log<D>>
    requires LogsOwn(logs, own)
    reads own
  {
    map id | id in logs :: logs[id].Value()
  }

  /** The decisions a map of logs points to. */
  ghost function Decisions<D>(logs: map<Text, CharacterLog<D>>): set<object>
    reads logs.Values
  {
    set id | id in logs && logs[id].decision != null :: logs[id].decision as object
  }

  ghost predicate Writables<D>(logs: map<Text, CharacterLog<D>>, own: set<object>, mine: set<object>)
    requires LogsOwn(logs, own)
    reads own
  {
    forall id :: id in logs ==> logs[id].Writable() <= mine
  }

  /** Logs of different actors share nothing. */
  lemma {:induction false} LogsApart<D>(a: CharacterLog<D>, b: CharacterLog<D>)
    requires a.Ok() && b.Ok() && a.id != b.id
    ensures a.Cells() !! b.Cells()
    ensures a in a.Cells() && a.Writable() <= a.Cells()
    ensures b in b.Cells() && b.Writable() <= b.Cells()
  {
    assert Backing(a.caused) !! Backing(b.caused) && Backing(a.caused) !! Backing(b.resumes);
    assert Backing(a.resumes) !! Backing(b.caused) && Backing(a.resumes) !! Backing(b.resumes);
  }

  ghost predicate LogIs<D>(id: Text, l: CharacterLog<D>, own: set<object>, mine: set<object>, v: Log<D>)
    reads l, l.Cells()
  {
    l in own && l in l.Cells() && l.Cells() <= own && l.Ok() && l.id == id && l.Value() == v && l.Writable() <= mine
  }

  lemma {:induction false} EachLog<D>(logs: map<Text, CharacterLog<D>>, own: set<object>, mine: set<object>, id: Text)
    requires LogsOwn(logs, own) && Writables(logs, own, mine)
    ensures forall k :: k in logs ==> LogIs(k, logs[k], own, mine, Logs(logs, own)[k])
    ensures id in logs ==> logs[id].Writable() <= logs[id].Cells()
    ensures id in logs ==> forall k :: k in logs && k != id ==> logs[k].Cells() !! logs[id].Cells()
    ensures Logs(logs, own).Keys == logs.Keys
  {
    hide CharacterLog.Ok, CharacterLog.Value, CharacterLog.Cells, CharacterLog.Writable;
    forall k | k in logs
      ensures logs[k] in logs[k].Cells() && logs[k].Writable() <= logs[k].Cells()
      ensures id in logs && k != id ==> logs[k].Cells() !! logs[id].Cells()
    {
      WritableHas(logs[k]);
      if id in logs && k != id { LogsApart(logs[k], logs[id]); }
    }
  }

  /** A map of logs with one log put in, or out. */
  lemma {:induction false} PutLog<D>(logs: map<Text, CharacterLog<D>>, own: set<object>, mine: set<object>, values: map<Text, Log<D>>,
                                     id: Text, l: CharacterLog?<D>)
    requires values.Keys == logs.Keys
    requires forall k :: k in logs && k != id ==> LogIs(k, logs[k], own, mine, values[k])
    requires l != null ==> l.Ok() && l.id == id && l in l.Cells()
    ensures var r := PutIn(logs, id, l);
            var o := own + (if l == null then {} else l.Cells());
            && LogsOwn(r, o) && Logs(r, o) == Put(values, id, ValueOf(l))
            && Writables(r, o, mine + (if l == null then {} else l.Writable()))
  {
    hide CharacterLog.Ok, CharacterLog.Value, CharacterLog.Cells, CharacterLog.Writable;
  }

  function PutIn<D>(logs: map<Text, CharacterLog<D>>, id: Text, l: CharacterLog?<D>): map<Text, CharacterLog<D>> {
    if l == null then logs - {id} else logs[id := l]
  }

  /** One actor's turn on the working copies: its own log changes and nobody else's. */
  method TurnOf<D>(p: Perception<D>, logs: map<Text, CharacterLog<D>>, ghost own: set<object>, ghost mine: set<object>,
                   id: Text, i: nat, ev: Envelope, before: Fold.State, world: Fold.State)
    returns (r: map<Text, CharacterLog<D>>, ghost own': set<object>, ghost mine': set<object>, entries: seq<Entry>, dropped: nat)
    requires LogsOwn(logs, own) && Writables(logs, own, mine)
    requires id in logs ==> OrderedBefore(Logs(logs, own)[id], ev.sequence)
    modifies mine
    ensures LogsOwn(r, own') && Writables(r, own', mine')
    ensures own <= own' && fresh(own' - own) && mine <= mine' && fresh(mine' - mine)
    ensures var t := TakeTurn(p, id, Find(old(Logs(logs, own)), id), i, ev, before, world);
            Logs(r, own') == Put(old(Logs(logs, own)), id, t.log) && entries == t.entries && dropped == t.dropped
  {
    hide TakeTurn, OrderedBefore, LogsOwn, Logs, Writables;
    hide CharacterLog.Ok, CharacterLog.Value, CharacterLog.Cells, CharacterLog.Writable;
    var l: CharacterLog?<D> := if id in logs then logs[id] else null;
    ghost var values := Logs(logs, own);
    EachLog(logs, own, mine, id);
    var was: CharacterLog?<D>;
    was, entries, dropped := TakeTurnOn(p, id, l, i, ev, before, world);
    assert forall k :: k in logs && k != id ==> LogIs(k, logs[k], own, mine, values[k]);
    PutLog(logs, own, mine, values, id, was);
    r := PutIn(logs, id, was);
    own' := own + (if was == null then {} else was.Cells());
    mine' := mine + (if was == null then {} else was.Writable());
  }

  /** Every log's turn at one event: the actors with a log and the party members, in order. */
  method TurnsOf<D>(p: Perception<D>, logs: map<Text, CharacterLog<D>>, ghost own: set<object>, ghost mine: set<object>,
                    entries: seq<Entry>, dropped: nat, i: nat, ev: Envelope, before: Fold.State, world: Fold.State)
    returns (r: map<Text, CharacterLog<D>>, ghost own': set<object>, ghost mine': set<object>, es: seq<Entry>, n: nat)
    requires LogsOwn(logs, own) && Writables(logs, own, mine)
    requires forall id :: id in logs ==> OrderedBefore(Logs(logs, own)[id], ev.sequence)
    modifies mine
    ensures LogsOwn(r, own') && Writables(r, own', mine')
    ensures own <= own' && fresh(own' - own) && mine <= mine' && fresh(mine' - mine)
    ensures var was := old(Logs(logs, own));
            Fan(Logs(r, own'), es, n) == FanIds(p, Fan(was, entries, dropped), LogIds(was, world), i, ev, before, world)
  {
    hide TakeTurn, OrderedBefore, LogsOwn, Writables, TextOrder.Sorted;
    ghost var f := Fan(Logs(logs, own), entries, dropped);
    var ids := TextOrder.Sorted(logs.Keys + Party(world));
    assert logs.Keys == f.logs.Keys;
    assert ids == LogIds(f.logs, world);
    hide Logs;
    r, own', mine', es, n := logs, own, mine, entries, dropped;
    var k := 0;
    while k < |ids|
      invariant 0 <= k <= |ids|
      invariant LogsOwn(r, own') && Writables(r, own', mine')
      invariant own <= own' && fresh(own' - own) && mine <= mine' && fresh(mine' - mine)
      invariant Fan(Logs(r, own'), es, n) == FanIds(p, f, ids[..k], i, ev, before, world)
    {
      var id := ids[k];
      ghost var at := FanIds(p, f, ids[..k], i, ev, before, world);
      FanIdsAt(p, f, ids[..k], i, ev, before, world, id);
      LogsKeys(r, own');
      var more, d;
      r, own', mine', more, d := TurnOf(p, r, own', mine', id, i, ev, before, world);
      es, n := es + more, n + d;
      assert ids[..k + 1][..k] == ids[..k];
      assert Fan(Logs(r, own'), es, n) == FanOne(p, at, id, i, ev, before, world);
      k := k + 1;
    }
    assert ids[..k] == ids;
  }

  lemma {:induction false} LogsKeys<D>(logs: map<Text, CharacterLog<D>>, own: set<object>)
    requires LogsOwn(logs, own)
    ensures Logs(logs, own).Keys == logs.Keys
  {
  }

  /** A working copy of a log: its own struct, its tables capped so that an append
      leaves the arrays they share alone, its decision shared. */
  method WorkingCopy<D>(l: CharacterLog<D>) returns (copy: CharacterLog<D>)
    requires l.Ok()
    ensures fresh(copy) && copy.Ok() && copy.id == l.id && copy.Value() == l.Value() && copy.decision == l.decision
    ensures copy.Cells() <= l.Cells() + {copy} && copy in copy.Cells()
    ensures copy.Writable() <= {copy} + (if l.decision == null then {} else {l.decision as object})
  {
    copy := new CharacterLog(l.id, l.fold, l.head, l.decision, Capped(l.caused), Capped(l.resumes));
  }

  method WorkingCopies<D>(base: map<Text, CharacterLog<D>>, ghost own: set<object>)
    returns (logs: map<Text, CharacterLog<D>>, ghost own': set<object>, ghost mine: set<object>)
    requires LogsOwn(base, own)
    ensures LogsOwn(logs, own') && Writables(logs, own', mine) && Logs(logs, own') == Logs(base, own)
    ensures own <= own' && fresh(own' - own) && (forall o :: o in mine ==> fresh(o) || o in Decisions(base))
  {
    hide LogsOwn, Logs, Writables, CharacterLog.Ok, CharacterLog.Value, CharacterLog.Cells, CharacterLog.Writable, Decisions;
    ghost var values := Logs(base, own);
    NoLogs<D>(own);
    LogsKeys(base, own);
    logs, own', mine := map[], own, {};
    var todo := base.Keys;
    while todo != {}
      invariant todo <= base.Keys && LogsOwn(base, own) && Logs(base, own) == values
      invariant LogsOwn(logs, own') && Writables(logs, own', mine)
      invariant Logs(logs, own') == map id | id in values && id !in todo :: values[id]
      invariant own <= own' && fresh(own' - own) && (forall o :: o in mine ==> fresh(o) || o in Decisions(base))
      decreases todo
    {
      var id :| id in todo;
      OneLog(base, own, id);
      logs, own', mine := CopyInto(logs, own', mine, id, base[id]);
      todo := todo - {id};
    }
  }

  /** A working copy of l beside the others. */
  method CopyInto<D>(logs: map<Text, CharacterLog<D>>, ghost own: set<object>, ghost mine: set<object>, id: Text, l: CharacterLog<D>)
    returns (r: map<Text, CharacterLog<D>>, ghost own': set<object>, ghost mine': set<object>)
    requires LogsOwn(logs, own) && Writables(logs, own, mine) && l.Ok() && l.id == id && l.Cells() <= own
    ensures LogsOwn(r, own') && Writables(r, own', mine') && Logs(r, own') == Logs(logs, own)[id := l.Value()]
    ensures own <= own' && fresh(own' - own)
    ensures forall o :: o in mine' ==> fresh(o) || o in mine || o == l.decision
  {
    hide LogsOwn, Logs, Writables, CharacterLog.Ok, CharacterLog.Value, CharacterLog.Cells, CharacterLog.Writable;
    ghost var before := Logs(logs, own);
    LogsKeys(logs, own);
    EachLog(logs, own, mine, id);
    var copy := WorkingCopy(l);
    assert forall k :: k in logs && k != id ==> LogIs(k, logs[k], own, mine, before[k]);
    PutLog(logs, own, mine, before, id, copy);
    r, own', mine' := PutIn(logs, id, copy), own + copy.Cells(), mine + copy.Writable();
  }

  lemma {:induction false} NoLogs<D>(own: set<object>)
    ensures LogsOwn<D>(map[], own) && Writables<D>(map[], own, {}) && Logs<D>(map[], own) == map[]
  {
  }

  lemma {:induction false} OneLog<D>(logs: map<Text, CharacterLog<D>>, own: set<object>, id: Text)
    requires LogsOwn(logs, own) && id in logs
    ensures logs[id].Ok() && logs[id].id == id && logs[id].Cells() <= own && logs[id].Value() == Logs(logs, own)[id]
    ensures logs[id].decision != null ==> logs[id].decision in Decisions(logs)
  {
  }
}
