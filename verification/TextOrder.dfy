/** Go's order on strings, bytewise, and a set of them in that order (sort.Strings). */
module TextOrder {
  import opened Contract

  predicate Leq(a: Text, b: Text) {
    a == [] || (b != [] && (a[0] < b[0] || (a[0] == b[0] && Leq(a[1..], b[1..]))))
  }

  lemma {:induction false} Total(a: Text, b: Text)
    ensures Leq(a, b) || Leq(b, a)
    ensures Leq(a, b) && Leq(b, a) ==> a == b
  {
    if a != [] && b != [] {
      Total(a[1..], b[1..]);
      assert a == [a[0]] + a[1..] && b == [b[0]] + b[1..];
    }
  }

  lemma {:induction false} Transitive(a: Text, b: Text, c: Text)
    requires Leq(a, b) && Leq(b, c)
    ensures Leq(a, c)
  {
    if a != [] && a[0] == b[0] == c[0] {
      Transitive(a[1..], b[1..], c[1..]);
    }
  }

  predicate IsFirst(m: Text, s: set<Text>) {
    m in s && forall x :: x in s ==> Leq(m, x)
  }

  lemma {:induction false} FirstExists(s: set<Text>)
    requires s != {}
    ensures exists m :: IsFirst(m, s)
  {
    var x :| x in s;
    var rest := s - {x};
    Total(x, x);
    if rest == {} {
      assert s == {x};
      assert IsFirst(x, s);
    } else {
      FirstExists(rest);
      var m :| IsFirst(m, rest);
      Total(x, m);
      if Leq(m, x) {
        assert IsFirst(m, s);
      } else {
        forall y | y in rest ensures Leq(x, y) { Transitive(x, m, y); }
        assert IsFirst(x, s);
      }
    }
  }

  lemma {:induction false} FirstUnique(s: set<Text>, m: Text, n: Text)
    requires IsFirst(m, s) && IsFirst(n, s)
    ensures m == n
  {
    Total(m, n);
  }

  predicate Ascending(r: seq<Text>) {
    forall i, j :: 0 <= i < j < |r| ==> Leq(r[i], r[j]) && r[i] != r[j]
  }

  function First(s: set<Text>): (m: Text)
    requires s != {}
    ensures IsFirst(m, s)
  {
    FirstExists(s);
    assert forall m, n :: IsFirst(m, s) && IsFirst(n, s) ==> m == n by {
      forall m, n | IsFirst(m, s) && IsFirst(n, s) ensures m == n { FirstUnique(s, m, n); }
    }
    var m :| IsFirst(m, s);
    m
  }

  /** The elements of s in ascending order. */
  function Sorted(s: set<Text>): (r: seq<Text>)
    ensures forall x :: x in r <==> x in s
    ensures Ascending(r)
  {
    if s == {} then []
    else
      var m := First(s);
      var rest := Sorted(s - {m});
      assert forall x :: x in s <==> x == m || x in rest;
      [m] + rest
  }

  /** One text comes before another when it begins it, or when at the first byte in
      which they differ its byte is the smaller. */
  ghost predicate Before(a: Text, b: Text) {
    a != b && (a <= b || exists k :: SmallerAt(a, b, k))
  }

  predicate SmallerAt(a: Text, b: Text, k: int) { 0 <= k < |a| && k < |b| && a[..k] == b[..k] && a[k] < b[k] }

  lemma {:induction false} SmallerAfter(c: byte, a: Text, b: Text)
    ensures (exists k :: SmallerAt([c] + a, [c] + b, k)) <==> exists k :: SmallerAt(a, b, k)
  {
    var s, t := [c] + a, [c] + b;
    if k :| SmallerAt(a, b, k) {
      assert s[..k + 1] == [c] + a[..k] && t[..k + 1] == [c] + b[..k];
      assert SmallerAt(s, t, k + 1);
    }
    if k :| SmallerAt(s, t, k) {
      assert a[..k - 1] == s[..k][1..] && b[..k - 1] == t[..k][1..];
      assert SmallerAt(a, b, k - 1);
    }
  }

  lemma {:induction false} LeqIsBefore(a: Text, b: Text)
    ensures Leq(a, b) <==> a == b || Before(a, b)
  {
    if a != [] && b != [] {
      if a[0] == b[0] {
        hide SmallerAt;
        var s, t := a[1..], b[1..];
        LeqIsBefore(s, t);
        SmallerAfter(a[0], s, t);
        assert a == [a[0]] + s && b == [a[0]] + t;
        assert a <= b <==> s <= t;
      } else {
        FirstDiffers(a, b);
      }
    }
  }

  lemma {:induction false} FirstDiffers(a: Text, b: Text)
    requires a != [] && b != [] && a[0] != b[0]
    ensures Before(a, b) <==> a[0] < b[0]
  {
    assert SmallerAt(a, b, 0) <==> a[0] < b[0];
    forall k | k > 0 ensures !SmallerAt(a, b, k) {
      if k < |a| && k < |b| { assert a[..k][0] == a[0] && b[..k][0] == b[0]; }
    }
  }
}
