/** The "x,y" key of a grid square, as both folds spell it: two decimal
    integers, x and then y, around a comma. Distinct squares have distinct keys. */
module GridKey {
  import opened Contract

  const COMMA: byte := 44
  const MINUS: byte := 45
  const ZERO: byte := 48

  function Digits(n: nat): (d: Text)
    ensures |d| > 0 && forall i :: 0 <= i < |d| ==> ZERO <= d[i] < ZERO + 10
  {
    if n < 10 then [ZERO + n] else Digits(n / 10) + [ZERO + n % 10]
  }

  function Decimal(n: int): Text {
    if n < 0 then [MINUS] + Digits(-n) else Digits(n)
  }

  function Key(x: int, y: int): Text {
    Decimal(x) + [COMMA] + Decimal(y)
  }

  lemma {:induction false} DigitsInjective(m: nat, n: nat)
    requires Digits(m) == Digits(n)
    ensures m == n
  {
    var d, e := Digits(m), Digits(n);
    assert d[|d| - 1] == ZERO + m % 10 && e[|e| - 1] == ZERO + n % 10;
    if m >= 10 && n >= 10 {
      assert d[..|d| - 1] == Digits(m / 10) && e[..|e| - 1] == Digits(n / 10);
      DigitsInjective(m / 10, n / 10);
    }
  }

  lemma {:induction false} DecimalInjective(m: int, n: int)
    requires Decimal(m) == Decimal(n)
    ensures m == n
  {
    assert m < 0 <==> Decimal(m)[0] == MINUS;
    assert n < 0 <==> Decimal(n)[0] == MINUS;
    if m < 0 {
      assert Decimal(m)[1..] == Digits(-m) && Decimal(n)[1..] == Digits(-n);
      DigitsInjective(-m, -n);
    } else {
      DigitsInjective(m, n);
    }
  }

  lemma {:induction false} DecimalHasNoComma(n: int)
    ensures COMMA !in Decimal(n)
  {
  }

  /** No two squares share a key. */
  lemma {:induction false} KeyInjective(x: int, y: int, x': int, y': int)
    requires Key(x, y) == Key(x', y')
    ensures x == x' && y == y'
  {
    var k := Key(x, y);
    DecimalHasNoComma(x);
    DecimalHasNoComma(x');
    var i, j := |Decimal(x)|, |Decimal(x')|;
    assert k[i] == COMMA && k[j] == COMMA;
    assert forall p :: 0 <= p < i ==> k[p] == Decimal(x)[p] != COMMA;
    assert forall p :: 0 <= p < j ==> k[p] == Decimal(x')[p] != COMMA;
    assert i == j;
    assert k[..i] == Decimal(x) && k[..j] == Decimal(x');
    assert k[i + 1..] == Decimal(y) && k[j + 1..] == Decimal(y');
    DecimalInjective(x, x');
    DecimalInjective(y, y');
  }

  // ----- what a key says -----

  predicate AllDigits(d: Text) { d != [] && forall i :: 0 <= i < |d| ==> ZERO <= d[i] < ZERO + 10 }

  /** The number decimal digits stand for, the least significant last. */
  function Number(d: Text): nat
    requires forall i :: 0 <= i < |d| ==> ZERO <= d[i] < ZERO + 10
  {
    if d == [] then 0 else 10 * Number(d[..|d| - 1]) + (d[|d| - 1] - ZERO)
  }

  /** Digits that stand for n, none of them a leading zero. */
  predicate Counts(d: Text, n: nat) { AllDigits(d) && Number(d) == n && (|d| > 1 ==> d[0] != ZERO) }

  /** Text that stands for an integer: a minus sign when it is below zero, and digits. */
  predicate StandsFor(t: Text, n: int) {
    if n < 0 then t != [] && t[0] == MINUS && Counts(t[1..], -n) else Counts(t, n)
  }

  lemma {:induction false} DigitsCount(n: nat)
    ensures Counts(Digits(n), n)
  {
    if n >= 10 {
      DigitsCount(n / 10);
      var d := Digits(n);
      assert d[..|d| - 1] == Digits(n / 10);
    } else {
      assert [ZERO + n][..0] == [];
    }
  }

  lemma {:induction false} LeadingCounts(d: Text)
    requires AllDigits(d) && d[0] != ZERO
    ensures Number(d) > 0
  {
    if |d| > 1 {
      LeadingCounts(d[..|d| - 1]);
    } else {
      assert d[..0] == [];
    }
  }

  lemma {:induction false} CountsOnce(d: Text, n: nat)
    requires Counts(d, n)
    ensures d == Digits(n)
  {
    var init := d[..|d| - 1];
    if |d| > 1 {
      LeadingCounts(init);
      CountsOnce(init, n / 10);
      assert d == init + [d[|d| - 1]];
    } else {
      assert init == [] && d == [d[0]];
    }
  }

  /** A text is the key of a square exactly when it is two integers in decimal, x's and
      then y's, around a comma. */
  lemma {:induction false} KeySpells(k: Text, x: int, y: int)
    ensures k == Key(x, y) <==> exists a, b :: StandsFor(a, x) && StandsFor(b, y) && k == a + [COMMA] + b
  {
    DecimalStandsFor(x);
    DecimalStandsFor(y);
    if a, b :| StandsFor(a, x) && StandsFor(b, y) && k == a + [COMMA] + b {
      StandsForOnce(a, x);
      StandsForOnce(b, y);
    }
  }

  lemma {:induction false} DecimalStandsFor(n: int)
    ensures StandsFor(Decimal(n), n)
  {
    DigitsCount(if n < 0 then -n else n);
  }

  lemma {:induction false} StandsForOnce(t: Text, n: int)
    requires StandsFor(t, n)
    ensures t == Decimal(n)
  {
    if n < 0 {
      CountsOnce(t[1..], -n);
      assert t == [MINUS] + t[1..];
    } else {
      CountsOnce(t, n);
    }
  }
}
