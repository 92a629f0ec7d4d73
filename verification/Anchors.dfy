/** What a character log's anchors name: the shape of a stored log, and that the
    window over its caused table is exactly the entries in range. */
module Anchors {
  import opened Contract
  import opened Fold
  import opened CharacterLogs

  /** Entries are numbered from 1 and name world events up to w, or none. */
  predicate Numbered(stored: seq<CharEntry>, w: int) {
    forall k :: 0 <= k < |stored| ==> stored[k].env.sequence == k + 1 && 0 <= stored[k].worldSeq <= w
  }

  /** The world events that caused entries never go back. */
  predicate Rising(stored: seq<CharEntry>) {
    forall j, k :: 0 <= j < k < |stored| && stored[j].worldSeq != 0 && stored[k].worldSeq != 0
      ==> stored[j].worldSeq <= stored[k].worldSeq
  }

  predicate Increasing(s: seq<int>) {
    forall i, j :: 0 <= i < j < |s| ==> s[i] < s[j]
  }

  /** Entry k lies between what came before the resume at r and what came from it on. */
  predicate Splits(stored: seq<CharEntry>, r: int, k: int) {
    && (forall j :: 0 <= j < k && j < |stored| ==> stored[j].worldSeq < r)
    && (forall j :: k < j < |stored| && j >= 0 ==> stored[j].worldSeq == 0 || stored[j].worldSeq >= r)
  }

  predicate Uncaused(stored: seq<CharEntry>, k: int) {
    forall j :: 0 <= j < k && j < |stored| ==> stored[j].worldSeq == 0
  }

  /** Every entry no world event caused opens the log, or leads a resume. */
  predicate Leads(stored: seq<CharEntry>, resumes: seq<int>) {
    forall k :: 0 <= k < |stored| && stored[k].worldSeq == 0 ==>
      Uncaused(stored, k) || exists r :: r in resumes && Splits(stored, r, k)
  }

  // ----- the caused table of a stored log -----

  predicate TableOk(caused: seq<Caused>, stored: seq<CharEntry>) {
    && (forall i :: 0 <= i < |caused| ==>
          1 <= caused[i].own <= |stored| && caused[i].world == stored[caused[i].own - 1].worldSeq != 0)
    && (forall i, j :: 0 <= i < j < |caused| ==> caused[i].own < caused[j].own)
  }

  lemma {:induction false} CausedTable(stored: seq<CharEntry>, w: int)
    requires Numbered(stored, w)
    ensures TableOk(CausedOf(stored), stored)
  {
    if stored != [] {
      CausedTable(stored[..|stored| - 1], w);
    }
  }

  lemma {:induction false} CausedFinds(stored: seq<CharEntry>, w: int, k: nat) returns (i: nat)
    requires Numbered(stored, w) && k < |stored| && stored[k].worldSeq != 0
    ensures i < |CausedOf(stored)| && CausedOf(stored)[i].own == k + 1
  {
    var init := stored[..|stored| - 1];
    if k < |init| {
      i := CausedFinds(init, w, k);
    } else {
      i := |CausedOf(init)|;
    }
  }

  predicate SortedTable(caused: seq<Caused>) {
    forall i, j :: 0 <= i <= j < |caused| ==> caused[i].world <= caused[j].world
  }

  lemma {:induction false} TableSorted(caused: seq<Caused>, stored: seq<CharEntry>)
    requires TableOk(caused, stored) && Rising(stored)
    ensures SortedTable(caused)
  {
  }

  /** Where the search lands is where the table crosses w. */
  lemma {:induction false} CausedAtCrosses(caused: seq<Caused>, w: int, i: nat)
    requires SortedTable(caused) && i < |caused|
    ensures i < CausedAt(caused, w) <==> caused[i].world < w
  {
  }

  /** The later of a and the last resume not after b. */
  function Start(resumes: seq<int>, a: int, b: int): int {
    var r := ResumesTo(resumes, b);
    if r > 0 && resumes[r - 1] > a then resumes[r - 1] else a
  }

  /** It is never before a, and else a resume not after b, and none of those is after it. */
  lemma {:induction false} StartIsLatest(resumes: seq<int>, a: int, b: int)
    requires Increasing(resumes)
    ensures a <= Start(resumes, a, b)
    ensures Start(resumes, a, b) != a ==> Start(resumes, a, b) in resumes && Start(resumes, a, b) <= b
    ensures forall r :: r in resumes && r <= b ==> r <= Start(resumes, a, b)
  {
    forall r | r in resumes && r <= b ensures r <= Start(resumes, a, b) {
      NoResumeBetween(resumes, a, b, r);
    }
  }

  lemma {:induction false} NoResumeBetween(resumes: seq<int>, a: int, b: int, r: int)
    requires Increasing(resumes) && r in resumes && r <= b
    ensures r <= Start(resumes, a, b)
  {
    var i :| 0 <= i < |resumes| && resumes[i] == r;
    var n := ResumesTo(resumes, b);
    assert i < n;
  }

  lemma {:induction false} WindowIs(caused: seq<Caused>, resumes: seq<int>, a: int, b: int, i: nat)
    requires SortedTable(caused) && i < |caused|
    ensures var (from, to) := Window(caused, resumes, a, b);
            from <= i < to <==> Start(resumes, a, b) <= caused[i].world <= b
  {
    CausedAtCrosses(caused, a, i);
    CausedAtCrosses(caused, b + 1, i);
    var r := ResumesTo(resumes, b);
    if r > 0 {
      CausedAtCrosses(caused, resumes[r - 1], i);
    }
  }

  /** Entry k was caused by a world event from lo to b. */
  predicate InRange(stored: seq<CharEntry>, k: int, lo: int, b: int) {
    0 <= k < |stored| && stored[k].worldSeq != 0 && lo <= stored[k].worldSeq <= b
  }

  lemma {:induction false} CausedInside(stored: seq<CharEntry>, w: int, resumes: seq<int>, a: int, b: int, k: nat)
    requires Numbered(stored, w) && Rising(stored) && k < |stored| && stored[k].worldSeq != 0
    ensures var caused := CausedOf(stored);
            var (from, to) := Window(caused, resumes, a, b);
            && (InRange(stored, k, Start(resumes, a, b), b) ==> from < to)
            && (from < to ==> (InRange(stored, k, Start(resumes, a, b), b) <==> caused[from].own <= k + 1 <= caused[to - 1].own))
  {
    CausedTable(stored, w);
    var caused := CausedOf(stored);
    TableSorted(caused, stored);
    var i := CausedFinds(stored, w, k);
    WindowIs(caused, resumes, a, b, i);
  }

  /** No lead entry lies between two entries caused in range. */
  lemma {:induction false} LeadNotBetween(stored: seq<CharEntry>, resumes: seq<int>, a: int, b: int, p: nat, q: nat, k: nat)
    requires Leads(stored, resumes) && Increasing(resumes) && k < |stored| && stored[k].worldSeq == 0
    requires InRange(stored, p, Start(resumes, a, b), b) && InRange(stored, q, Start(resumes, a, b), b)
    ensures !(p <= k <= q)
  {
    if Uncaused(stored, k) {
      assert !(p < k);
    } else {
      var r :| r in resumes && Splits(stored, r, k);
      if r <= b {
        NoResumeBetween(resumes, a, b, r);
        assert !(p < k);
      } else {
        assert !(k < q);
      }
    }
  }

  /** The ends of a window that names anything were caused in range. */
  lemma {:induction false} WindowEnds(stored: seq<CharEntry>, w: int, resumes: seq<int>, a: int, b: int)
    requires Numbered(stored, w) && Rising(stored)
    ensures var caused := CausedOf(stored);
            var win := Window(caused, resumes, a, b);
            win.0 < win.1 ==>
              && InRange(stored, caused[win.0].own - 1, Start(resumes, a, b), b)
              && InRange(stored, caused[win.1 - 1].own - 1, Start(resumes, a, b), b)
              && caused[win.0].own <= caused[win.1 - 1].own
  {
    CausedTable(stored, w);
    var caused := CausedOf(stored);
    TableSorted(caused, stored);
    var win := Window(caused, resumes, a, b);
    if win.0 < win.1 {
      WindowIs(caused, resumes, a, b, win.0);
      WindowIs(caused, resumes, a, b, win.1 - 1);
    }
  }

  /** An anchor is 0 and 0 exactly when nothing in range was caused; otherwise it
      names, and only it names, every entry caused by a world event between the
      later of its start and the last resume not after its end, and its end. No
      opening or resume entry falls inside. */
  lemma {:induction false} AnchorNamesRange(stored: seq<CharEntry>, w: int, resumes: seq<int>, a: int, b: int)
    requires Numbered(stored, w) && Rising(stored) && Leads(stored, resumes) && Increasing(resumes)
    ensures var (from, to) := Anchor(CausedOf(stored), resumes, a, b);
            var lo := Start(resumes, a, b);
            && ((from == 0 && to == 0) <==> forall k :: !InRange(stored, k, lo, b))
            && (!(from == 0 && to == 0) ==> 1 <= from <= to <= |stored|)
            && (forall k :: 0 <= k < |stored| ==> (from <= k + 1 <= to <==> InRange(stored, k, lo, b)))
  {
    var caused := CausedOf(stored);
    var lo := Start(resumes, a, b);
    var win := Window(caused, resumes, a, b);
    WindowEnds(stored, w, resumes, a, b);
    forall k | 0 <= k < |stored|
      ensures InRange(stored, k, lo, b) ==> win.0 < win.1
      ensures win.0 < win.1 ==> (InRange(stored, k, lo, b) <==> caused[win.0].own <= k + 1 <= caused[win.1 - 1].own)
    {
      if stored[k].worldSeq != 0 {
        CausedInside(stored, w, resumes, a, b, k);
      } else if win.0 < win.1 {
        LeadNotBetween(stored, resumes, a, b, caused[win.0].own - 1, caused[win.1 - 1].own - 1, k);
      }
    }
  }

  /** Every anchor the log writes is legal at any sequence after its head. */
  lemma {:induction false} AnchorLegal(stored: seq<CharEntry>, w: int, resumes: seq<int>, a: int, b: int, own: int)
    requires Numbered(stored, w) && Rising(stored) && Leads(stored, resumes) && Increasing(resumes) && own > |stored|
    ensures var (from, to) := Anchor(CausedOf(stored), resumes, a, b); AnchorOk(from, to, own)
  {
    AnchorNamesRange(stored, w, resumes, a, b);
  }

  // ----- resumes the log kept and resumes a reopening finds -----

  /** Every resume kept is found again, and every other one found lies at or
      before the log's first caused entry. */
  predicate Refound(stored: seq<CharEntry>, resumes: seq<int>, found: seq<int>) {
    && (forall r :: r in resumes ==> r in found)
    && (forall t :: t in found && t !in resumes ==>
          forall k :: 0 <= k < |stored| && stored[k].worldSeq != 0 ==> stored[k].worldSeq >= t)
  }

  lemma {:induction false} CausedAtZero(caused: seq<Caused>, t: int)
    requires forall i :: 0 <= i < |caused| ==> caused[i].world >= t
    ensures CausedAt(caused, t) == 0
  {
  }

  lemma {:induction false} LastResume(resumes: seq<int>, b: int)
    requires Increasing(resumes)
    ensures ResumesTo(resumes, b) > 0 ==> resumes[ResumesTo(resumes, b) - 1] <= b
    ensures forall r :: r in resumes && r <= b ==> ResumesTo(resumes, b) > 0 && r <= resumes[ResumesTo(resumes, b) - 1]
  {
    forall r | r in resumes && r <= b
      ensures ResumesTo(resumes, b) > 0 && r <= resumes[ResumesTo(resumes, b) - 1]
    {
      var i :| 0 <= i < |resumes| && resumes[i] == r;
      assert i < ResumesTo(resumes, b);
    }
  }

  lemma {:induction false} CausedAtMonotone(caused: seq<Caused>, v: int, w: int)
    requires SortedTable(caused) && v <= w
    ensures CausedAt(caused, v) <= CausedAt(caused, w)
  {
  }

  lemma {:induction false} LastAgree(resumes: seq<int>, found: seq<int>, b: int)
    requires Increasing(resumes) && Increasing(found) && forall r :: r in resumes ==> r in found
    ensures var n, m := ResumesTo(resumes, b), ResumesTo(found, b);
            && (n > 0 ==> m > 0 && resumes[n - 1] <= found[m - 1])
            && (m > 0 && found[m - 1] in resumes ==> n > 0 && resumes[n - 1] == found[m - 1])
  {
    LastResume(resumes, b);
    LastResume(found, b);
    var n := ResumesTo(resumes, b);
    if n > 0 {
      assert resumes[n - 1] in resumes;
    }
  }

  /** Reopening never moves an anchor: the resumes found over the world log give
      every range the window the kept ones do. */
  lemma {:induction false} SameWindow(stored: seq<CharEntry>, w: int, resumes: seq<int>, found: seq<int>, a: int, b: int)
    requires Numbered(stored, w) && Rising(stored) && Increasing(resumes) && Increasing(found)
    requires Refound(stored, resumes, found)
    ensures Window(CausedOf(stored), resumes, a, b) == Window(CausedOf(stored), found, a, b)
  {
    var caused := CausedOf(stored);
    CausedTable(stored, w);
    TableSorted(caused, stored);
    LastAgree(resumes, found, b);
    var n, m := ResumesTo(resumes, b), ResumesTo(found, b);
    if m > 0 && found[m - 1] !in resumes {
      CausedAtZero(caused, found[m - 1]);
      if n > 0 {
        CausedAtMonotone(caused, resumes[n - 1], found[m - 1]);
      }
    }
  }
}
