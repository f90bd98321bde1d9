/** The hash of a state and a label in runtime/c++/dzn/runtime.hh. */
module StateHash {

  /** Character codes; `char` may be signed. */
  type Code = c: int | -128 <= c < 256 witness 0

  type Text = seq<Code>

  const BASE: int := 47
  const PRIME: nat := 79
  const WORD: nat := 0x1_0000_0000

  /** `std::to_string` of an unsigned number. */
  function Decimal(n: nat): Text {
    if n < 10 then [48 + n] else Decimal(n / 10) + [48 + n % 10]
  }

  function Value(s: Text): int {
    if s == [] then 0 else 10 * Value(s[..|s| - 1]) + s[|s| - 1] - 48
  }

  lemma {:induction false} DecimalValue(n: nat)
    ensures Value(Decimal(n)) == n && Decimal(n) != []
    ensures forall c :: c in Decimal(n) ==> 48 <= c <= 57
  {
    if n >= 10 {
      DecimalValue(n / 10);
      assert Decimal(n)[..|Decimal(n)| - 1] == Decimal(n / 10);
    } else {
      assert Decimal(n)[..0] == [];
    }
  }

  /** The polynomial in 79, without bounds: the first character has the lowest power, which is 1. */
  function Polynomial(s: Text): int {
    if s == [] then 0 else PRIME * (s[0] - BASE + Polynomial(s[1..]))
  }

  function Pow(n: nat): nat {
    if n == 0 then 1 else Pow(n - 1) * PRIME
  }

  /** The loops add the terms from the front. */
  lemma {:induction false} PolynomialAppend(s: Text, c: Code)
    ensures Polynomial(s + [c]) == Polynomial(s) + (c - BASE) * Pow(|s| + 1)
  {
    if s == [] {
      assert [c][1..] == [];
    } else {
      assert (s + [c])[1..] == s[1..] + [c];
      PolynomialAppend(s[1..], c);
      PowShift(|s|, c - BASE);
    }
  }

  lemma PowShift(n: nat, d: int)
    ensures PRIME * (d * Pow(n)) == d * Pow(n + 1)
  {
  }

  // words

  lemma ModIs(x: int, q: int, r: int)
    requires x == WORD * q + r && 0 <= r < WORD
    ensures x % WORD == r
  {
  }

  lemma ModShift(x: int, k: int)
    ensures (x + WORD * k) % WORD == x % WORD
  {
    ModIs(x + WORD * k, x / WORD + k, x % WORD);
  }

  /** Cutting the power and the sum to a word first changes nothing. */
  lemma ModTerm(h: int, d: int, p: int)
    ensures (h % WORD + d % WORD * (p % WORD)) % WORD == (h + d * p) % WORD
  {
    var a, b, c := h / WORD, d / WORD, p / WORD;
    var x, y, z := h % WORD, d % WORD, p % WORD;
    assert h == WORD * a + x && d == WORD * b + y && p == WORD * c + z;
    var k := a + b * c * WORD + b * z + y * c;
    assert h + d * p == x + y * z + WORD * k;
    ModShift(x + y * z, k);
  }

  lemma ModPower(p: int)
    ensures p % WORD * PRIME % WORD == p * PRIME % WORD
  {
    var c, z := p / WORD, p % WORD;
    assert p * PRIME == z * PRIME + WORD * (c * PRIME);
    ModShift(z * PRIME, c * PRIME);
  }

  /** One of the two loops of `hash`. */
  method Add(s: Text, before: Text, h0: nat, power0: nat) returns (h: nat, power: nat)
    requires h0 == Polynomial(before) % WORD && power0 == Pow(|before|) % WORD
    ensures h == Polynomial(before + s) % WORD && power == Pow(|before + s|) % WORD
  {
    h, power := h0, power0;
    assert before + s[..0] == before;
    for i := 0 to |s|
      invariant h == Polynomial(before + s[..i]) % WORD && power == Pow(|before| + i) % WORD
    {
      assert before + s[..i + 1] == before + s[..i] + [s[i]];
      PolynomialAppend(before + s[..i], s[i]);
      ModPower(Pow(|before| + i));
      ModTerm(Polynomial(before + s[..i]), s[i] - BASE, Pow(|before| + i + 1));
      power := power * PRIME % WORD;
      h := (h + (s[i] - BASE) % WORD * power) % WORD;
    }
    assert before + s[..|s|] == before + s;
  }

  /** `hash`, as a function. */
  function HashOf(name: Text, state: nat): nat {
    Polynomial(Decimal(state) + name) % WORD
  }

  /** `hash`. */
  method Hash(name: Text, state: nat) returns (h: nat)
    requires state < WORD
    ensures h == HashOf(name, state)
  {
    var power: nat := 1;
    assert [] + Decimal(state) == Decimal(state);
    h, power := Add(Decimal(state), [], 0, power);
    h, power := Add(name, Decimal(state), h, power);
  }

  // when it tells states apart

  /** A character in 0-9, A-Z or a-z. */
  predicate Alphanumeric(c: Code) {
    48 <= c <= 57 || 65 <= c <= 90 || 97 <= c <= 122
  }

  ghost predicate Plain(s: Text) {
    forall c :: c in s ==> Alphanumeric(c)
  }

  lemma {:induction false} PolynomialRange(s: Text)
    requires Plain(s)
    ensures Polynomial(s) >= 0 && (Polynomial(s) == 0 <==> s == [])
    ensures Polynomial(s) % PRIME == 0
  {
    if s != [] {
      assert forall c :: c in s[1..] ==> c in s;
      PolynomialRange(s[1..]);
      assert Alphanumeric(s[0]);
    }
  }

  /** Without bounds the polynomial determines the text. */
  lemma {:induction false} PolynomialInjective(s: Text, t: Text)
    requires Plain(s) && Plain(t) && Polynomial(s) == Polynomial(t)
    ensures s == t
  {
    PolynomialRange(s);
    PolynomialRange(t);
    if s != [] {
      assert forall c :: c in s[1..] ==> c in s;
      assert forall c :: c in t[1..] ==> c in t;
      assert Alphanumeric(s[0]) && Alphanumeric(t[0]);
      PolynomialRange(s[1..]);
      PolynomialRange(t[1..]);
      LastDigit(s[0] - BASE, Polynomial(s[1..]), t[0] - BASE, Polynomial(t[1..]));
      PolynomialInjective(s[1..], t[1..]);
      assert s == [s[0]] + s[1..] && t == [t[0]] + t[1..];
    }
  }

  lemma LastDigit(a: int, x: int, b: int, y: int)
    requires 0 <= a < PRIME && 0 <= b < PRIME && x % PRIME == 0 && y % PRIME == 0
    requires PRIME * (a + x) == PRIME * (b + y)
    ensures a == b && x == y
  {
  }

  /** Nothing wraps for up to four characters. */
  lemma PolynomialFits(s: Text)
    requires Plain(s) && |s| <= 4
    ensures 0 <= Polynomial(s) < WORD
  {
    PolynomialRange(s);
    PolynomialBound(s);
    assert Bound(4) < WORD;
    BoundGrows(|s|, 4);
  }

  function Bound(n: nat): nat {
    if n == 0 then 0 else PRIME * (75 + Bound(n - 1))
  }

  lemma {:induction false} BoundGrows(m: nat, n: nat)
    requires m <= n
    ensures Bound(m) <= Bound(n)
  {
    if 0 < m {
      BoundGrows(m - 1, n - 1);
    }
  }

  lemma {:induction false} PolynomialBound(s: Text)
    requires Plain(s)
    ensures Polynomial(s) <= Bound(|s|)
  {
    if s != [] {
      assert forall c :: c in s[1..] ==> c in s;
      assert Alphanumeric(s[0]);
      PolynomialBound(s[1..]);
    }
  }

  /** `PRIME` has an inverse modulo `WORD`, so a common factor `PRIME` can be cancelled. */
  const INVERSE: nat := 1631000239

  lemma Cancel(x: int, y: int)
    requires 0 <= x < WORD && 0 <= y < WORD && PRIME * x % WORD == PRIME * y % WORD
    ensures x == y
  {
    var k := PRIME * x / WORD - PRIME * y / WORD;
    assert PRIME * x - PRIME * y == WORD * k;
    assert PRIME * INVERSE == 30 * WORD + 1;
    var m := INVERSE * k - 30 * (x - y);
    assert x - y == WORD * m by {
      assert INVERSE * (PRIME * (x - y)) == INVERSE * (WORD * k);
    }
  }

  /** A plain text without its outermost factor fits a word for up to five characters. */
  lemma QuotientFits(s: Text)
    requires Plain(s) && |s| <= 5
    ensures Polynomial(s) % PRIME == 0 && 0 <= Polynomial(s) / PRIME < WORD
  {
    PolynomialRange(s);
    PolynomialBound(s);
    BoundGrows(|s|, 5);
    assert Bound(4) == 2958708000;
  }

  /** For up to five alphanumeric characters equal hashes mean equal texts, although sums wrap. */
  lemma FiveDistinct(s: Text, t: Text)
    requires Plain(s) && Plain(t) && |s| <= 5 && |t| <= 5
    requires Polynomial(s) % WORD == Polynomial(t) % WORD
    ensures s == t
  {
    hide Polynomial, Plain;
    QuotientFits(s);
    QuotientFits(t);
    Cancel(Polynomial(s) / PRIME, Polynomial(t) / PRIME);
    PolynomialInjective(s, t);
  }

  lemma {:induction false} PolynomialStep(s: Text, i: nat)
    requires i < |s|
    ensures Polynomial(s[i..]) == PRIME * (s[i] - BASE + Polynomial(s[i + 1..]))
  {
    assert s[i..][1..] == s[i + 1..];
  }

  lemma SixTerms(s: Text)
    requires |s| == 6
    ensures Polynomial(s) == PRIME * (s[0] - BASE + PRIME * (s[1] - BASE + PRIME * (s[2] - BASE
                               + PRIME * (s[3] - BASE + PRIME * (s[4] - BASE + PRIME * (s[5] - BASE))))))
  {
    assert s[0..] == s && s[6..] == [];
    PolynomialStep(s, 0);
    PolynomialStep(s, 1);
    PolynomialStep(s, 2);
    PolynomialStep(s, 3);
    PolynomialStep(s, 4);
    PolynomialStep(s, 5);
  }

  lemma SixValues()
    ensures Polynomial([49, 102, 122, 98, 107, 98]) == 12584107390980
    ensures Polynomial([54, 105, 98, 110, 120, 109]) == 15298526722052
  {
    SixTerms([49, 102, 122, 98, 107, 98]);
    SixTerms([54, 105, 98, 110, 120, 109]);
  }

  /** The label goes on with a digit where the state ends. */
  predicate Digital(name: Text) {
    name != [] && 48 <= name[0] <= 57
  }

  /** "fzbkb" and "ibnxm". */
  const A: Text := [102, 122, 98, 107, 98]
  const B: Text := [105, 98, 110, 120, 109]

  lemma SixTexts()
    ensures Decimal(1) + A == [49, 102, 122, 98, 107, 98] && Decimal(6) + B == [54, 105, 98, 110, 120, 109]
    ensures Plain(Decimal(1) + A) && Plain(Decimal(6) + B) && !Digital(A) && !Digital(B)
  {
    assert Decimal(1) == [49] && Decimal(6) == [54];
  }

  /** With six characters it can fail: state 1 with label "fzbkb" and state 6 with label "ibnxm". */
  lemma SixCollide()
    ensures Plain(Decimal(1) + A) && Plain(Decimal(6) + B) && Decimal(1) + A != Decimal(6) + B
    ensures |Decimal(1) + A| == |Decimal(6) + B| == 6 && !Digital(A) && !Digital(B)
    ensures HashOf(A, 1) == HashOf(B, 6)
  {
    SixTexts();
    SixValues();
    hide Polynomial, Decimal, A, B;
    assert (Decimal(1) + A)[0] == 49 && (Decimal(6) + B)[0] == 54;
  }

  /** A state with a label of up to `n` alphanumeric characters together. */
  ghost predicate Fits(name: Text, state: nat, n: nat) {
    state < WORD && Plain(Decimal(state) + name) && |Decimal(state) + name| <= n
  }

  /** Up to `n` characters together, equal hashes mean that the characters are equal, though not
      where the state ends. */
  ghost predicate TellsTextsApart(n: nat) {
    forall a: Text, x: nat, b: Text, y: nat ::
      Fits(a, x, n) && Fits(b, y, n) && HashOf(a, x) == HashOf(b, y) ==> Decimal(x) + a == Decimal(y) + b
  }

  lemma TellsTextsApartExactly(n: nat)
    ensures TellsTextsApart(n) <==> n <= 5
  {
    if n <= 5 {
      forall a: Text, x: nat, b: Text, y: nat |
        Fits(a, x, n) && Fits(b, y, n) && HashOf(a, x) == HashOf(b, y)
        ensures Decimal(x) + a == Decimal(y) + b
      {
        FiveDistinct(Decimal(x) + a, Decimal(y) + b);
      }
    } else {
      SixCollide();
      assert Fits(A, 1, n) && Fits(B, 6, n);
    }
  }

  // states and labels

  lemma MoreDigits(s: Text, a: Text, t: Text, b: Text)
    requires s + a == t + b && |s| < |t| && forall c :: c in t ==> 48 <= c <= 57
    ensures Digital(a)
  {
    assert (s + a)[|s|] == a[0] && (t + b)[|s|] == t[|s|] && t[|s|] in t;
  }

  /** The digits of a state end where a label begins that does not begin with a digit. */
  lemma SplitsOnce(a: Text, x: nat, b: Text, y: nat)
    requires !Digital(a) && !Digital(b) && Decimal(x) + a == Decimal(y) + b
    ensures x == y && a == b
  {
    DecimalValue(x);
    DecimalValue(y);
    var s, m, n := Decimal(x) + a, |Decimal(x)|, |Decimal(y)|;
    assert s[..m] == Decimal(x) && s[m..] == a && s[..n] == Decimal(y) && s[n..] == b;
    hide Decimal, Value;
    if m < n {
      MoreDigits(Decimal(x), a, Decimal(y), b);
    } else if n < m {
      MoreDigits(Decimal(y), b, Decimal(x), a);
    }
  }

  /** Up to `n` characters together, the hash determines the state and the label. */
  ghost predicate TellsApart(n: nat, digital: bool) {
    forall a: Text, x: nat, b: Text, y: nat ::
      Fits(a, x, n) && Fits(b, y, n) && (digital || (!Digital(a) && !Digital(b))) && HashOf(a, x) == HashOf(b, y)
      ==> x == y && a == b
  }

  /** Among labels that do not begin with a digit the hash tells states with labels of at most `n`
      characters apart if and only if `n` is at most five; among all labels, if and only if `n` is
      at most one. */
  lemma TellsApartExactly(n: nat)
    ensures TellsApart(n, false) <==> n <= 5
    ensures TellsApart(n, true) <==> n <= 1
  {
    TellsTextsApartExactly(n);
    hide Polynomial, Plain, Decimal, HashOf;
    if n <= 5 {
      forall a: Text, x: nat, b: Text, y: nat | Fits(a, x, n) && Fits(b, y, n) && HashOf(a, x) == HashOf(b, y)
        ensures !Digital(a) && !Digital(b) ==> x == y && a == b
        ensures n <= 1 ==> x == y && a == b
      {
        assert Decimal(x) + a == Decimal(y) + b;
        if n <= 1 {
          DecimalValue(x);
          DecimalValue(y);
          assert a == [] && b == [];
        }
        if !Digital(a) && !Digital(b) {
          SplitsOnce(a, x, b, y);
        }
      }
    } else {
      SixCollide();
      assert Fits(A, 1, n) && Fits(B, 6, n);
    }
    if n >= 2 {
      TwelveTwice(n);
    }
  }

  /** State 1 with label "2" and state 12 without a label. */
  lemma TwelveTwice(n: nat)
    requires n >= 2
    ensures Fits([50], 1, n) && Fits([], 12, n) && HashOf([50], 1) == HashOf([], 12)
  {
    assert Decimal(1) + [50] == [49, 50];
    assert Decimal(12) == Decimal(1) + [50] && Decimal(12) + [] == Decimal(12);
  }
}
