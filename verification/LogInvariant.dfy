/** What one actor's log keeps across one world event, whatever frames the
    decision makes of it. */
module LogInvariant {
  import opened Contract
  import opened Fold
  import opened FoldInvariants
  import opened CharacterLogs
  import opened LeadFrames
  import opened Anchors

  /** Stored rows of frames appended after head, all of one world event or none. */
  function Wrap(frames: seq<Envelope>, head: int, world: int): (r: seq<CharEntry>)
    ensures |r| == |frames|
    ensures forall k :: 0 <= k < |r| ==> r[k] == CharEntry(world, frames[k].(sequence := head + k + 1))
  {
    seq(|frames|, k requires 0 <= k < |frames| => CharEntry(world, frames[k].(sequence := head + k + 1)))
  }

  predicate Within(s: seq<int>, w: int) { forall r :: r in s ==> 1 <= r <= w }

  /** A held log and the store's rows of it say the same. */
  predicate Held<D>(stored: seq<CharEntry>, l: Log<D>, w: int) {
    && Numbered(stored, w) && Rising(stored) && |stored| == l.head
    && Strict(NewState, EnvsOf(stored)) == Some(l.fold)
    && l.caused == CausedOf(stored)
    && Increasing(l.resumes) && Within(l.resumes, w) && Leads(stored, l.resumes)
  }

  /** One actor's log after the world's first w events: held as stored, refound as
      kept, and active exactly while its actor is a party member. An actor with no
      log has nothing stored. */
  predicate LogOk<D>(stored: seq<CharEntry>, ol: Option<Log<D>>, w: int, found: seq<int>, member: bool) {
    match ol
    case None => stored == []
    case Some(l) => Held(stored, l, w) && Refound(stored, l.resumes, found) && (l.decision.Some? <==> member)
  }

  lemma {:induction false} HeldGood<D>(stored: seq<CharEntry>, l: Log<D>, w: int)
    requires Held(stored, l, w)
    ensures Good(l.fold)
  {
    StrictGood(NewState, EnvsOf(stored));
  }

  // ----- appending rows -----

  lemma {:induction false} FoldExtends(stored: seq<CharEntry>, fold: State, frames: seq<Envelope>, world: int, next: State)
    requires Strict(NewState, EnvsOf(stored)) == Some(fold) && Trial(fold, |stored|, frames) == Some(next)
    ensures Strict(NewState, EnvsOf(stored + Wrap(frames, |stored|, world))) == Some(next)
  {
    StrictConcat(NewState, EnvsOf(stored), Stamp(frames, |stored|));
    assert EnvsOf(stored + Wrap(frames, |stored|, world)) == EnvsOf(stored) + Stamp(frames, |stored|);
  }

  lemma {:induction false} CausedExtends(stored: seq<CharEntry>, frames: seq<Envelope>, world: int)
    ensures CausedOf(stored + Wrap(frames, |stored|, world)) ==
              CausedOf(stored) + (if world == 0 then [] else Rows(world, |stored|, |frames|))
  {
    var all := stored + Wrap(frames, |stored|, world);
    if frames == [] {
      assert all == stored;
      assert Rows(world, |stored|, 0) == [];
    } else {
      var init := frames[..|frames| - 1];
      CausedExtends(stored, init, world);
      assert all[..|all| - 1] == stored + Wrap(init, |stored|, world);
      assert Rows(world, |stored|, |frames|) == Rows(world, |stored|, |init|) + [Caused(world, |stored| + |frames|)];
    }
  }

  lemma {:induction false} NumberedExtends(stored: seq<CharEntry>, frames: seq<Envelope>, world: int, w: int)
    requires Numbered(stored, w) && Rising(stored) && (world == 0 || world == w) && w >= 0
    ensures Numbered(stored + Wrap(frames, |stored|, world), w) && Rising(stored + Wrap(frames, |stored|, world))
  {
  }

  lemma {:induction false} SplitsExtends(stored: seq<CharEntry>, more: seq<CharEntry>, r: int, k: int)
    requires 0 <= k < |stored| && Splits(stored, r, k)
    requires forall j :: 0 <= j < |more| ==> more[j].worldSeq == 0 || more[j].worldSeq >= r
    ensures Splits(stored + more, r, k)
  {
  }

  /** Rows caused by the current event follow every lead. */
  lemma {:induction false} LeadsExtend(stored: seq<CharEntry>, more: seq<CharEntry>, resumes: seq<int>, w: int)
    requires Leads(stored, resumes) && Within(resumes, w)
    requires forall j :: 0 <= j < |more| ==> more[j].worldSeq == w != 0
    ensures Leads(stored + more, resumes)
  {
    var all := stored + more;
    forall k | 0 <= k < |all| && all[k].worldSeq == 0
      ensures Uncaused(all, k) || exists r :: r in resumes && Splits(all, r, k)
    {
      assert stored[k].worldSeq == 0;
      if !Uncaused(stored, k) {
        var r :| r in resumes && Splits(stored, r, k);
        SplitsExtends(stored, more, r, k);
      }
    }
  }

  /** Lead rows of a resume at w follow only rows caused before it. */
  lemma {:induction false} ResumeLeads(stored: seq<CharEntry>, more: seq<CharEntry>, resumes: seq<int>, w: int)
    requires Leads(stored, resumes) && w in resumes && Numbered(stored, w - 1) && w > 0
    requires forall j :: 0 <= j < |more| ==> more[j].worldSeq == 0
    ensures Leads(stored + more, resumes)
  {
    var all := stored + more;
    forall k | 0 <= k < |all| && all[k].worldSeq == 0
      ensures Uncaused(all, k) || exists r :: r in resumes && Splits(all, r, k)
    {
      if k >= |stored| {
        assert Splits(all, w, k);
      } else if !Uncaused(stored, k) {
        var r :| r in resumes && Splits(stored, r, k);
        SplitsExtends(stored, more, r, k);
      }
    }
  }

  // ----- a turn in three moves: roused, led, decided -----

  lemma {:induction false} HeldLater<D>(stored: seq<CharEntry>, l: Log<D>, w: int)
    requires Held(stored, l, w)
    ensures Held(stored, l, w + 1)
  {
    hide Strict, CausedOf, Leads;
  }

  lemma {:induction false} LeadsMore(stored: seq<CharEntry>, resumes: seq<int>, more: seq<int>)
    requires Leads(stored, resumes) && forall r :: r in resumes ==> r in more
    ensures Leads(stored, more)
  {
    forall k | 0 <= k < |stored| && stored[k].worldSeq == 0
      ensures Uncaused(stored, k) || exists r :: r in more && Splits(stored, r, k)
    {
      if !Uncaused(stored, k) {
        var r :| r in resumes && Splits(stored, r, k);
        assert r in more;
      }
    }
  }

  /** A resuming log, its resume noted. */
  lemma {:induction false} HeldResuming<D>(stored: seq<CharEntry>, l: Log<D>, w: int, d: Option<D>)
    requires Held(stored, l, w) && w >= 0
    ensures Held(stored, l.(resumes := l.resumes + [w + 1], decision := d), w + 1)
    ensures Numbered(stored, w)
  {
    hide Strict, CausedOf, Numbered, Rising, Leads;
    HeldLater(stored, l, w);
    assert forall i :: 0 <= i < |l.resumes| ==> l.resumes[i] in l.resumes;
    LeadsMore(stored, l.resumes, l.resumes + [w + 1]);
  }

  lemma {:induction false} HeldLed<D>(stored: seq<CharEntry>, l: Log<D>, w: int, lead: seq<Envelope>, next: State)
    requires Held(stored, l, w) && w > 0 && Trial(l.fold, |stored|, lead) == Some(next)
    requires lead == [] || stored == [] || (w in l.resumes && Numbered(stored, w - 1))
    ensures Held(stored + Wrap(lead, |stored|, 0), l.(fold := next, head := l.head + |lead|), w)
  {
    hide Strict, Trial, CausedOf, Numbered, Rising;
    var more := Wrap(lead, |stored|, 0);
    FoldExtends(stored, l.fold, lead, 0, next);
    CausedExtends(stored, lead, 0);
    NumberedExtends(stored, lead, 0, w);
    if lead == [] {
      assert stored + more == stored;
    } else if stored != [] {
      ResumeLeads(stored, more, l.resumes, w);
    } else {
      assert forall k :: 0 <= k < |stored + more| ==> Uncaused(stored + more, k);
    }
  }

  lemma {:induction false} HeldDecided<D>(stored: seq<CharEntry>, l: Log<D>, w: int, frames: seq<Envelope>, next: State, d: Option<D>)
    requires Held(stored, l, w) && w > 0 && Trial(l.fold, |stored|, frames) == Some(next)
    ensures Held(stored + Wrap(frames, |stored|, w),
                 l.(decision := d, fold := next, head := l.head + |frames|, caused := l.caused + Rows(w, l.head, |frames|)), w)
  {
    hide Strict, Trial, CausedOf, Numbered, Rising, Leads;
    FoldExtends(stored, l.fold, frames, w, next);
    CausedExtends(stored, frames, w);
    NumberedExtends(stored, frames, w, w);
    LeadsExtend(stored, Wrap(frames, |stored|, w), l.resumes, w);
  }

  // ----- what the store makes of a turn's entries -----

  /** One log's rows after a transaction's entries for it. */
  function StoreLog(stored: seq<CharEntry>, entries: seq<Entry>, first: int): seq<CharEntry> {
    if entries == [] then stored
    else
      var log, e := StoreLog(stored, entries[..|entries| - 1], first), entries[|entries| - 1];
      log + [CharEntry(if e.cause >= 0 then first + e.cause else 0, e.env.(sequence := MaxSeq(log) + 1))]
  }

  lemma {:induction false} StoreLogConcat(stored: seq<CharEntry>, a: seq<Entry>, b: seq<Entry>, first: int)
    ensures StoreLog(stored, a + b, first) == StoreLog(StoreLog(stored, a, first), b, first)
  {
    if b == [] {
      assert a + b == a;
    } else {
      StoreLogConcat(stored, a, b[..|b| - 1], first);
      assert (a + b)[..|a + b| - 1] == a + b[..|b| - 1];
    }
  }

  /** The store numbers a turn's entries exactly as the trial stamped them. */
  lemma {:induction false} StoreNumbers(stored: seq<CharEntry>, w: int, id: Text, cause: int, frames: seq<Envelope>, first: int)
    requires Numbered(stored, w)
    ensures StoreLog(stored, Entries(id, cause, frames), first) ==
              stored + Wrap(frames, |stored|, if cause >= 0 then first + cause else 0)
  {
    var entries := Entries(id, cause, frames);
    var world := if cause >= 0 then first + cause else 0;
    if frames == [] {
      assert stored + Wrap(frames, |stored|, world) == stored;
    } else {
      var init := frames[..|frames| - 1];
      StoreNumbers(stored, w, id, cause, init, first);
      assert entries[..|frames| - 1] == Entries(id, cause, init);
      var log := stored + Wrap(init, |stored|, world);
      assert MaxSeq(log) == |log|;
      assert stored + Wrap(frames, |stored|, world) ==
             log + [CharEntry(world, frames[|init|].(sequence := |stored| + |frames|))];
    }
  }

  // ----- the turn -----

  /** The new rows of a turn at w: no world event's, or w's. */
  predicate Grown(stored: seq<CharEntry>, after: seq<CharEntry>, w: int) {
    && |stored| <= |after| && after[..|stored|] == stored
    && forall k :: |stored| <= k < |after| ==> after[k].worldSeq == 0 || after[k].worldSeq == w
  }

  function FoundNext(found: seq<int>, was: bool, now: bool, w: int): seq<int> {
    if !was && now then found + [w] else found
  }

  lemma {:induction false} RefoundGrown(stored: seq<CharEntry>, after: seq<CharEntry>, resumes: seq<int>, found: seq<int>, w: int)
    requires Refound(stored, resumes, found) && Grown(stored, after, w) && Within(found, w)
    ensures Refound(after, resumes, found)
  {
  }

  /** A kept resume at w is found at w. */
  lemma {:induction false} RefoundResumed(stored: seq<CharEntry>, resumes: seq<int>, found: seq<int>, w: int)
    requires Refound(stored, resumes, found)
    ensures Refound(stored, resumes + [w], found + [w])
  {
  }

  /** The roused log of a member: held, and with a lead that folds. */
  lemma {:induction false} RousedKeeps<D>(p: Perception<D>, id: Text, ol: Option<Log<D>>, ev: Envelope, before: State,
                                          stored: seq<CharEntry>, w: int, found: seq<int>, was: bool)
    requires LogOk(stored, ol, w, found, was) && Good(before) && w >= 0 && ev.sequence == w + 1
    ensures var (l, lead) := Roused(p, id, ol, ev, before);
            && Held(stored, l, w + 1) && Trial(l.fold, l.head, lead).Some?
            && (lead == [] || stored == [] || (w + 1 in l.resumes && Numbered(stored, w)))
            && Refound(stored, l.resumes, FoundNext(found, was, true, w + 1))
  {
    hide Trial, Strict, CausedOf, Good, Opening, Resume, Leads, Rising;
    match ol
    case None =>
      OpeningFolds(before, 0);
      HeldEmpty<D>(w + 1, Some(p.begin(id)));
    case Some(l) =>
      if l.decision.Some? {
        HeldLater(stored, l, w);
        TrialNone(l.fold, l.head);
      } else {
        HeldGood(stored, l, w);
        ResumeFolds(l.fold, before, l.head);
        HeldResuming(stored, l, w, Some(p.begin(id)));
        RefoundResumed(stored, l.resumes, found, w + 1);
      }
  }

  lemma {:induction false} HeldEmpty<D>(w: int, d: Option<D>)
    ensures Held([], Log(NewState, 0, d, [], []), w)
  {
  }

  lemma {:induction false} GrownTwice(stored: seq<CharEntry>, lead: seq<Envelope>, after: seq<CharEntry>, w: int)
    requires Grown(stored + Wrap(lead, |stored|, 0), after, w)
    ensures Grown(stored, after, w)
  {
    var mid := stored + Wrap(lead, |stored|, 0);
    assert after[..|stored|] == mid[..|stored|];
    assert forall k :: |stored| <= k < |mid| ==> after[k] == mid[k];
  }

  lemma {:induction false} FoundWithin(found: seq<int>, was: bool, w: int)
    requires Within(found, w) && w >= 0
    ensures Within(FoundNext(found, was, true, w + 1), w + 1)
  {
  }

  /** A party member's turn: its lead lands, and then what the decision makes of the event. */
  lemma {:induction false} MemberTurn<D>(p: Perception<D>, id: Text, ol: Option<Log<D>>, i: nat, ev: Envelope, before: State, world: State,
                                         stored: seq<CharEntry>, w: int, found: seq<int>, first: int)
    requires LogOk(stored, ol, w, found, Member(before, id)) && Good(before) && Within(found, w)
    requires w >= 0 && ev.sequence == w + 1 == first + i && Member(world, id)
    ensures var t := TakeTurn(p, id, ol, i, ev, before, world);
            var after := StoreLog(stored, t.entries, first);
            && t.log.Some? && t.log.value.decision.Some? && Held(after, t.log.value, w + 1)
            && Refound(after, t.log.value.resumes, FoundNext(found, Member(before, id), true, w + 1))
  {
    hide Trial, Strict, Held, LogOk, Good, Roused, Refound, Numbered, Decide, Within, StoreLog, Grown, Wrap, FoundNext;
    var now := FoundNext(found, Member(before, id), true, w + 1);
    RousedKeeps(p, id, ol, ev, before, stored, w, found, Member(before, id));
    var roused := Roused(p, id, ol, ev, before);
    var l, lead := roused.0, roused.1;
    assert l.head == |stored| by { HeldHead(stored, l, w + 1); }
    var fold := Trial(l.fold, l.head, lead).value;
    var led := l.(fold := fold, head := l.head + |lead|);
    var mid := stored + Wrap(lead, |stored|, 0);
    HeldLed(stored, l, w + 1, lead, fold);
    StoreNumbers(stored, w + 1, id, -1, lead, first) by { HeldHead(stored, l, w + 1); }
    var decided := Decide(p, id, led, i, ev, world);
    assert TakeTurn(p, id, ol, i, ev, before, world) == decided.(entries := Entries(id, -1, lead) + decided.entries);
    StoreLogConcat(stored, Entries(id, -1, lead), decided.entries, first);
    DecideKeeps(p, id, led, i, ev, world, mid, w + 1, first);
    var after := StoreLog(mid, decided.entries, first);
    GrownTwice(stored, lead, after, w + 1);
    FoundWithin(found, Member(before, id), w);
    RefoundGrown(stored, after, l.resumes, now, w + 1);
  }

  lemma {:induction false} HeldHead<D>(stored: seq<CharEntry>, l: Log<D>, w: int)
    requires Held(stored, l, w)
    ensures l.head == |stored| && Numbered(stored, w)
  {
  }

  /** One world event keeps one log: held as stored, refound as kept, active
      exactly while its actor is a party member, whatever frames the decision makes. */
  lemma {:induction false} TurnKeeps<D>(p: Perception<D>, id: Text, ol: Option<Log<D>>, i: nat, ev: Envelope, before: State, world: State,
                                        stored: seq<CharEntry>, w: int, found: seq<int>, first: int)
    requires LogOk(stored, ol, w, found, Member(before, id)) && Good(before) && Within(found, w)
    requires w >= 0 && ev.sequence == w + 1 == first + i
    ensures var t := TakeTurn(p, id, ol, i, ev, before, world);
            LogOk(StoreLog(stored, t.entries, first), t.log, w + 1,
                  FoundNext(found, Member(before, id), Member(world, id), w + 1), Member(world, id))
  {
    if Member(world, id) {
      MemberTurn(p, id, ol, i, ev, before, world, stored, w, found, first);
    } else {
      hide Good, Strict, CausedOf, Leads, Rising;
      if ol.Some? {
        HeldLater(stored, ol.value, w);
      }
    }
  }

  lemma {:induction false} DecideKeeps<D>(p: Perception<D>, id: Text, l: Log<D>, i: nat, ev: Envelope, world: State,
                                          stored: seq<CharEntry>, w: int, first: int)
    requires Held(stored, l, w) && l.decision.Some? && w > 0 && ev.sequence == w == first + i
    ensures var t := Decide(p, id, l, i, ev, world);
            var after := StoreLog(stored, t.entries, first);
            && t.log.Some? && t.log.value.decision.Some? && t.log.value.resumes == l.resumes
            && Held(after, t.log.value, w) && Grown(stored, after, w)
  {
    hide Trial, Strict, CausedOf, Leads, Rising;
    var made := p.event(l.decision.value, id, ev, l.fold, world);
    var frames := ReanchorAll(l.caused, l.resumes, made.1);
    var next := Trial(l.fold, l.head, frames);
    if next.Some? {
      HeldDecided(stored, l, w, frames, next.value, Some(made.0));
      StoreNumbers(stored, w, id, i, frames, first);
    }
  }
}
