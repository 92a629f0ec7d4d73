/** Clip (internal/artlib/artlib.go): text bounded for a message, and made UTF-8 as
    sections 3 and 4 of RFC 3629 define it. */
module Utf8Clip {
  import opened Contract

  const REPLACEMENT: Text := [0xef, 0xbf, 0xbd]
  const ELLIPSIS: Text := [0xe2, 0x80, 0xa6]

  predicate Tail(c: byte) { 0x80 <= c <= 0xbf }

  /** The bytes a lead byte promises, or 0 when it leads nothing. */
  function Promised(lead: byte): nat {
    if lead <= 0x7f then 1
    else if 0xc2 <= lead <= 0xdf then 2
    else if 0xe0 <= lead <= 0xef then 3
    else if 0xf0 <= lead <= 0xf4 then 4
    else 0
  }

  /** What may follow a lead byte at once: overlong forms, surrogates and anything
      past U+10FFFF are shut out here. */
  predicate Second(lead: byte, c: byte) {
    && Tail(c)
    && (lead == 0xe0 ==> c >= 0xa0) && (lead == 0xed ==> c <= 0x9f)
    && (lead == 0xf0 ==> c >= 0x90) && (lead == 0xf4 ==> c <= 0x8f)
  }

  /** The length of the character s begins with, or 0 when it begins with none. */
  function RuneLen(s: Text): (n: nat)
    ensures n <= |s| && n <= 4
  {
    if s == [] then 0
    else
      var n := Promised(s[0]);
      if n <= |s| && (n >= 2 ==> Second(s[0], s[1])) && (n >= 3 ==> Tail(s[2])) && (n == 4 ==> Tail(s[3])) then n else 0
  }

  /** Whole characters and nothing else. */
  predicate Valid(s: Text) {
    s == [] || (RuneLen(s) > 0 && Valid(s[RuneLen(s)..]))
  }

  /** strings.ToValidUTF8: every character kept, every run of bytes that begin none
      replaced as one; `dropping` within such a run. */
  function ToValid(s: Text, replacement: Text, dropping: bool): Text {
    if s == [] then []
    else if RuneLen(s) > 0 then s[..RuneLen(s)] + ToValid(s[RuneLen(s)..], replacement, false)
    else (if dropping then [] else replacement) + ToValid(s[1..], replacement, true)
  }

  function Sanitised(s: Text): Text { ToValid(s, REPLACEMENT, false) }

  function Clip(s: Text, limit: nat): Text {
    var t := Sanitised(s);
    if |t| <= limit then t else ToValid(t[..limit], [], false) + ELLIPSIS
  }

  // ----- characters and concatenation -----

  lemma {:induction false} RuneLenPrefix(s: Text, n: nat)
    requires n <= |s|
    ensures RuneLen(s[..n]) == if RuneLen(s) <= n then RuneLen(s) else 0
  {
    if n > 0 {
      assert s[..n][0] == s[0];
    }
  }

  lemma {:induction false} ValidConcat(a: Text, b: Text)
    requires Valid(a) && Valid(b)
    ensures Valid(a + b)
  {
    if a == [] {
      assert a + b == b;
    } else {
      var n := RuneLen(a);
      assert (a + b)[..|a|] == a;
      RuneLenPrefix(a + b, |a|);
      ValidConcat(a[n..], b);
      assert (a + b)[n..] == a[n..] + b;
    }
  }

  /** A character after a lead byte's others are tails, and lead nothing themselves. */
  lemma {:induction false} TailsLeadNothing(s: Text, k: nat)
    requires 0 < k < RuneLen(s)
    ensures Tail(s[k]) && RuneLen(s[k..]) == 0
  {
    assert s[k..][0] == s[k];
  }

  // ----- sanitising -----

  lemma {:induction false} ToValidIsValid(s: Text, replacement: Text, dropping: bool)
    requires Valid(replacement)
    ensures Valid(ToValid(s, replacement, dropping))
    decreases |s|
  {
    if s != [] {
      var n := RuneLen(s);
      if n > 0 {
        ToValidIsValid(s[n..], replacement, false);
        RuneLenPrefix(s, n);
        assert Valid(s[..n]) by { assert s[..n][n..] == []; }
        ValidConcat(s[..n], ToValid(s[n..], replacement, false));
      } else {
        ToValidIsValid(s[1..], replacement, true);
        ValidConcat(if dropping then [] else replacement, ToValid(s[1..], replacement, true));
      }
    }
  }

  /** Text that is valid is left as it is, whatever the replacement. */
  lemma {:induction false} ValidStays(s: Text, replacement: Text)
    requires Valid(s)
    ensures ToValid(s, replacement, false) == s
    decreases |s|
  {
    if s != [] {
      ValidStays(s[RuneLen(s)..], replacement);
    }
  }

  // ----- what the first pass makes of any text -----

  /** A run of bytes none of which begins a character, up to one that does or the end. */
  predicate BadRun(r: Text, b: Text) {
    && r != [] && (forall i :: 0 <= i < |r| ==> RuneLen((r + b)[i..]) == 0)
    && (b == [] || RuneLen(b) > 0)
  }

  lemma {:induction false} CharacterKept(c: Text, rest: Text, replacement: Text)
    requires c != [] && RuneLen(c) == |c|
    ensures ToValid(c + rest, replacement, false) == c + ToValid(rest, replacement, false)
  {
    var s := c + rest;
    assert s[..|c|] == c && s[|c|..] == rest;
    RuneLenPrefix(s, |c|);
  }

  lemma {:induction false} ValidKept(a: Text, rest: Text, replacement: Text)
    requires Valid(a)
    ensures ToValid(a + rest, replacement, false) == a + ToValid(rest, replacement, false)
  {
    hide ToValid, RuneLen;
    if a == [] {
      assert a + rest == rest;
    } else {
      var n := RuneLen(a);
      RuneLenPrefix(a, n);
      ValidKept(a[n..], rest, replacement);
      CharacterKept(a[..n], a[n..] + rest, replacement);
      assert a + rest == a[..n] + (a[n..] + rest);
      assert a == a[..n] + a[n..];
    }
  }

  lemma {:induction false} RunReplaced(r: Text, b: Text, replacement: Text, dropping: bool)
    requires BadRun(r, b)
    ensures ToValid(r + b, replacement, dropping) == (if dropping then [] else replacement) + ToValid(b, replacement, false)
  {
    hide RuneLen;
    var s := r + b;
    assert s[0..] == s;
    if |r| > 1 {
      assert s[1..] == r[1..] + b;
      assert forall i :: 0 <= i < |r[1..]| ==> (r[1..] + b)[i..] == s[i + 1..];
      RunReplaced(r[1..], b, replacement, true);
    } else {
      assert s[1..] == b;
    }
  }

  /** Whatever is valid is kept, a run of bytes that begin no character becomes one
      replacement, and what follows it is sanitised in its turn. */
  lemma {:induction false} RunReplacedOnce(a: Text, r: Text, b: Text)
    requires Valid(a) && BadRun(r, b)
    ensures Sanitised(a + r + b) == a + REPLACEMENT + Sanitised(b)
  {
    assert a + r + b == a + (r + b);
    ValidKept(a, r + b, REPLACEMENT);
    RunReplaced(r, b, REPLACEMENT, false);
  }

  /** Text that is not valid is so made: RunReplacedOnce and ValidStays say what becomes
      of every text. */
  lemma {:induction false} BadRunFound(s: Text) returns (a: Text, r: Text, b: Text)
    requires !Valid(s)
    ensures s == a + r + b && Valid(a) && BadRun(r, b)
    decreases |s|
  {
    hide RuneLen;
    var n := RuneLen(s);
    if n > 0 {
      a, r, b := BadRunFound(s[n..]);
      RuneLenPrefix(s, n);
      assert Valid(s[..n]) by { assert s[..n][n..] == []; }
      ValidConcat(s[..n], a);
      a := s[..n] + a;
    } else {
      var k := 1;
      while k < |s| && RuneLen(s[k..]) == 0
        invariant 1 <= k <= |s| && forall i :: 0 <= i < k ==> RuneLen(s[i..]) == 0
      {
        k := k + 1;
      }
      a, r, b := [], s[..k], s[k..];
      assert r + b == s;
    }
  }

  // ----- characters and code points -----

  /** A code point that is no surrogate. */
  predicate Scalar(c: int) { 0 <= c <= 0x10ffff && !(0xd800 <= c <= 0xdfff) }

  /** The table of section 3 of RFC 3629. */
  function Encoded(c: int): Text
    requires Scalar(c)
  {
    if c <= 0x7f then [c]
    else if c <= 0x7ff then [0xc0 + c / 64, 0x80 + c % 64]
    else if c <= 0xffff then [0xe0 + c / 64 / 64, 0x80 + c / 64 % 64, 0x80 + c % 64]
    else [0xf0 + c / 64 / 64 / 64, 0x80 + c / 64 / 64 % 64, 0x80 + c / 64 % 64, 0x80 + c % 64]
  }

  /** Six bits more of a code point, from a tail. */
  function More(c: int, tail: int): int { 64 * c + (tail - 0x80) }

  lemma {:induction false} MoreSplits(c: int, tail: int)
    requires 0x80 <= tail < 0xc0
    ensures More(c, tail) / 64 == c && 0x80 + More(c, tail) % 64 == tail
  {
  }

  /** Text begins with a character of n bytes exactly when its first n bytes are the
      encoding of a code point. */
  lemma {:induction false} RuneIsEncoded(s: Text, n: nat)
    requires 0 < n <= |s|
    ensures RuneLen(s) == n <==> exists c :: Scalar(c) && Encoded(c) == s[..n]
  {
    if RuneLen(s) == n {
      var c := RuneDecodes(s);
    }
    if c :| Scalar(c) && Encoded(c) == s[..n] {
      EncodedBegins(s, c);
    }
  }

  /** The code point a character of each length stands for. */
  lemma {:induction false} RuneDecodes(s: Text) returns (c: int)
    requires RuneLen(s) > 0
    ensures Scalar(c) && Encoded(c) == s[..RuneLen(s)]
  {
    var lead: int := s[0];
    match RuneLen(s)
    case 1 => c := lead;
    case 2 =>
      c := More(lead - 0xc0, s[1]);
      MoreSplits(lead - 0xc0, s[1]);
    case 3 =>
      var b := More(lead - 0xe0, s[1]);
      c := More(b, s[2]);
      MoreSplits(lead - 0xe0, s[1]);
      MoreSplits(b, s[2]);
    case _ =>
      var a := More(lead - 0xf0, s[1]);
      var b := More(a, s[2]);
      c := More(b, s[3]);
      MoreSplits(lead - 0xf0, s[1]);
      MoreSplits(a, s[2]);
      MoreSplits(b, s[3]);
  }

  lemma {:induction false} EncodedIsRune(c: int)
    requires Scalar(c)
    ensures RuneLen(Encoded(c)) == |Encoded(c)|
  {
  }

  lemma {:induction false} EncodedBegins(s: Text, c: int)
    requires Scalar(c) && Encoded(c) <= s
    ensures RuneLen(s) == |Encoded(c)|
  {
    var e := Encoded(c);
    EncodedIsRune(c);
    assert s[..|e|] == e;
    RuneLenPrefix(s, |e|);
  }

  // ----- clipping -----

  /** A character cut short is dropped whole. */
  lemma {:induction false} CutRuneDrops(s: Text, from: nat, n: nat, dropping: bool)
    requires from <= n < RuneLen(s)
    ensures ToValid(s[from..n], [], dropping) == []
    decreases n - from
  {
    if from < n {
      var cut := s[from..n];
      if from == 0 {
        RuneLenPrefix(s, n);
        assert cut == s[..n];
      } else {
        TailsLeadNothing(s, from);
        assert cut[0] == s[from];
        TailLeadsNothing(cut);
      }
      assert cut[1..] == s[from + 1..n];
      CutRuneDrops(s, from + 1, n, true);
    }
  }

  lemma {:induction false} TailLeadsNothing(s: Text)
    requires s != [] && Tail(s[0])
    ensures RuneLen(s) == 0
  {
  }

  /** The longest beginning of t, of at most limit bytes, that is whole characters. */
  predicate LongestWhole(t: Text, limit: nat, n: nat) {
    n <= limit <= |t| && Valid(t[..n]) && forall m :: n < m <= limit ==> !Valid(t[..m])
  }

  /** The second pass keeps exactly the characters that fit. */
  lemma {:induction false} CutKeepsWhole(t: Text, limit: nat) returns (n: nat)
    requires Valid(t) && limit <= |t|
    ensures LongestWhole(t, limit, n) && ToValid(t[..limit], [], false) == t[..n]
    decreases |t|
  {
    hide RuneLen;
    var r := RuneLen(t);
    if limit == 0 {
      n := 0;
    } else {
      RuneLenPrefix(t, limit);
      if r <= limit {
        var rest := t[r..];
        var k := CutKeepsWhole(rest, limit - r);
        n := r + k;
        assert t[..limit][r..] == rest[..limit - r] && t[..limit][..r] == t[..r];
        assert t[..n] == t[..r] + rest[..k];
        WholeAfter(t, n);
        forall m | n < m <= limit ensures !Valid(t[..m]) {
          WholeAfter(t, m);
          assert rest[..m - r] == t[..m][r..];
        }
      } else {
        n := 0;
        CutRuneDrops(t, 0, limit, false);
        forall m | 0 < m <= limit ensures !Valid(t[..m]) {
          RuneLenPrefix(t, m);
        }
      }
    }
  }

  /** A beginning past the first character is whole when its rest is. */
  lemma {:induction false} WholeAfter(t: Text, m: nat)
    requires 0 < RuneLen(t) <= m <= |t|
    ensures Valid(t[..m]) <==> Valid(t[RuneLen(t)..][..m - RuneLen(t)])
  {
    RuneLenPrefix(t, m);
    assert t[..m][RuneLen(t)..] == t[RuneLen(t)..][..m - RuneLen(t)];
  }

  /** Clip always returns valid UTF-8: the sanitised text when it fits, else its longest
      beginning of whole characters within the limit and the ellipsis. */
  lemma {:induction false} ClipIs(s: Text, limit: nat) returns (n: nat)
    ensures Valid(Clip(s, limit)) && |Clip(s, limit)| <= limit + 3
    ensures |Sanitised(s)| <= limit ==> Clip(s, limit) == Sanitised(s)
    ensures |Sanitised(s)| > limit ==> LongestWhole(Sanitised(s), limit, n) && Clip(s, limit) == Sanitised(s)[..n] + ELLIPSIS
    ensures Valid(s) && |s| <= limit ==> Clip(s, limit) == s
  {
    ConstantsValid();
    ToValidIsValid(s, REPLACEMENT, false);
    if Valid(s) { ValidStays(s, REPLACEMENT); }
    var t := Sanitised(s);
    n := 0;
    if |t| > limit {
      n := CutKeepsWhole(t, limit);
      ValidConcat(t[..n], ELLIPSIS);
    }
  }

  lemma {:induction false} ConstantsValid()
    ensures Valid(REPLACEMENT) && Valid(ELLIPSIS)
  {
    assert RuneLen(REPLACEMENT) == 3 && RuneLen(ELLIPSIS) == 3;
    assert REPLACEMENT[3..] == [] && ELLIPSIS[3..] == [];
  }
}
