/** The few pieces of Java's `int` and `String` semantics that the settings
    controller and the MQTT manager rely on: 32-bit wrap-around, truncating
    division, `String.valueOf(int)`, `Integer.parseInt`, `lastIndexOf`,
    `contains` and character removal. */
module JavaLang {

  datatype Option<T> = None | Some(value: T)

  const MinInt: int := -0x8000_0000
  const MaxInt: int := 0x7fff_ffff
  const TwoTo32: int := 0x1_0000_0000

  predicate InInt32(x: int) { MinInt <= x <= MaxInt }

  function Abs(x: int): nat { if x < 0 then -x else x }

  // ---------------------------------------------------------------- int

  /** The 32-bit two's-complement value a Java `int` operation yields. */
  function Wrap32(x: int): (r: int)
    ensures InInt32(r)
    ensures (x - r) % TwoTo32 == 0
    ensures InInt32(x) ==> r == x
  {
    (x - MinInt) % TwoTo32 + MinInt
  }

  /** Quotient of naturals, rounded down. */
  function Quot(x: nat, y: nat): (q: nat)
    requires y >= 1
    ensures q <= x
    ensures q >= 1 <==> x >= y
    ensures y >= 2 ==> 2 * q <= x
    ensures q * y <= x < (q + 1) * y
  {
    QuotientBounds(x, y);
    x / y
  }

  lemma QuotientBounds(x: nat, y: nat)
    requires y >= 1
    ensures x / y <= x
    ensures x / y >= 1 <==> x >= y
    ensures y >= 2 ==> 2 * (x / y) <= x
    ensures (x / y) * y <= x < (x / y + 1) * y
  {
    var q := x / y;
    assert q * y + x % y == x && 0 <= x % y < y;
    MulMonotone(q, 1, y);
    if y >= 2 {
      MulMonotone(q, 2, y);
    }
    if q == 0 {
      assert x == x % y;
    } else {
      MulMonotone(y, 1, q);
    }
  }

  lemma {:induction false} MulMonotone(a: nat, b: nat, c: nat)
    requires b <= c
    ensures a * b <= a * c
  {
    if a > 0 {
      MulMonotone(a - 1, b, c);
      assert a * b == (a - 1) * b + b;
      assert a * c == (a - 1) * c + c;
    }
  }

  /** Java's `a / b` on `int`: the quotient is truncated toward zero, and the
      single overflowing case `MIN_VALUE / -1` wraps back to `MIN_VALUE`. */
  function JavaDiv(a: int, b: int): (r: int)
    requires InInt32(a) && InInt32(b) && b != 0
    ensures InInt32(r)
    ensures !(a == MinInt && b == -1) ==> Abs(r) == Quot(Abs(a), Abs(b))
    ensures !(a == MinInt && b == -1) ==> (r < 0 <==> (a < 0) != (b < 0) && Abs(a) >= Abs(b))
    ensures a == MinInt && b == -1 ==> r == MinInt
  {
    if a == MinInt && b == -1 then MinInt
    else
      var q: int := Quot(Abs(a), Abs(b));
      if (a < 0) != (b < 0) then -q else q
  }

  // ------------------------------------------------------------ strings

  /** Java's regular-expression class `\d` (ASCII digits, the default). */
  predicate IsDigit(c: char) { '0' <= c <= '9' }

  /** The text matches the regular expression `\d*`. */
  predicate AllDigits(s: string) { forall i :: 0 <= i < |s| ==> IsDigit(s[i]) }

  function DigitValue(c: char): (d: nat)
    requires IsDigit(c)
    ensures d < 10
  {
    c as int - '0' as int
  }

  function DigitChar(d: nat): (c: char)
    requires d < 10
    ensures IsDigit(c) && DigitValue(c) == d
  {
    ('0' as int + d) as char
  }

  /** The value of a run of decimal digits, most significant first. */
  function DigitsValue(s: string): nat
    requires AllDigits(s)
  {
    if s == [] then 0 else DigitsValue(s[..|s| - 1]) * 10 + DigitValue(s[|s| - 1])
  }

  /** The decimal numeral of `n` without leading zeros. */
  function NatToDigits(n: nat): (s: string)
    ensures AllDigits(s) && |s| >= 1
    ensures |s| > 1 ==> s[0] != '0'
  {
    if n < 10 then [DigitChar(n)] else NatToDigits(n / 10) + [DigitChar(n % 10)]
  }

  lemma {:induction false} DigitsValueOfNatToDigits(n: nat)
    ensures DigitsValue(NatToDigits(n)) == n
  {
    if n >= 10 {
      var s := NatToDigits(n);
      assert s[..|s| - 1] == NatToDigits(n / 10);
      DigitsValueOfNatToDigits(n / 10);
    }
  }

  /** `String.valueOf(int)`: an optional minus sign followed by the numeral. */
  function StringOf(n: int): (s: string)
    ensures |s| >= 1
    ensures n >= 0 ==> AllDigits(s)
    ensures n < 0 ==> s[0] == '-' && AllDigits(s[1..])
  {
    if n < 0 then "-" + NatToDigits(-n) else NatToDigits(n)
  }

  /** `Integer.parseInt(s)` (radix 10): an optional `-` or `+` sign, at least
      one digit, nothing else, and a value that fits in an `int`; `None` is
      the NumberFormatException. */
  function ParseInt(s: string): (r: Option<int>)
    ensures r.Some? ==> InInt32(r.value)
    ensures r.Some? ==> |s| >= 1
  {
    if |s| == 0 then None
    else if s[0] == '-' || s[0] == '+' then
      if |s| == 1 || !AllDigits(s[1..]) then None
      else
        var d: int := DigitsValue(s[1..]);
        var v := if s[0] == '-' then -d else d;
        if InInt32(v) then Some(v) else None
    else if !AllDigits(s) then None
    else if DigitsValue(s) <= MaxInt then Some(DigitsValue(s))
    else None
  }

  /** Parsing what `String.valueOf` printed gives the number back. */
  lemma ParseIntOfStringOf(n: int)
    requires InInt32(n)
    ensures ParseInt(StringOf(n)) == Some(n)
  {
    if n < 0 {
      assert StringOf(n)[1..] == NatToDigits(-n);
      DigitsValueOfNatToDigits(-n);
    } else {
      DigitsValueOfNatToDigits(n);
    }
  }

  /** `s.lastIndexOf(c)`: the index of the last `c`, or -1 when there is none. */
  function LastIndexOf(s: string, c: char): (r: int)
    ensures -1 <= r < |s|
    ensures r == -1 <==> c !in s
    ensures r >= 0 ==> s[r] == c
    ensures forall j :: r < j < |s| ==> s[j] != c
  {
    if s == [] then -1
    else if s[|s| - 1] == c then |s| - 1
    else
      var init := s[..|s| - 1];
      assert s == init + [s[|s| - 1]];
      LastIndexOf(init, c)
  }

  /** `s.startsWith(t)`. */
  predicate StartsWith(s: string, t: string) { |t| <= |s| && s[..|t|] == t }

  /** `s.contains(t)`, written as the scan over start positions that it is. */
  predicate Contains(s: string, t: string)
    decreases |s|
  {
    StartsWith(s, t) || (|s| > 0 && Contains(s[1..], t))
  }

  /** `t` occurs in `s` starting at index `i`. */
  ghost predicate OccursAt(t: string, s: string, i: nat)
  {
    i + |t| <= |s| && s[i..i + |t|] == t
  }

  /** `t` occurs in `s` at some position: the meaning of `contains`. */
  ghost predicate OccursIn(t: string, s: string)
  {
    exists i: nat :: OccursAt(t, s, i)
  }

  lemma {:induction false} ContainsIffOccurs(s: string, t: string)
    ensures Contains(s, t) <==> OccursIn(t, s)
    decreases |s|
  {
    if |s| > 0 {
      ContainsIffOccurs(s[1..], t);
      if OccursIn(t, s[1..]) {
        var i: nat :| OccursAt(t, s[1..], i);
        assert s[i + 1..i + 1 + |t|] == s[1..][i..i + |t|];
        assert OccursAt(t, s, i + 1);
      }
      if StartsWith(s, t) {
        assert OccursAt(t, s, 0);
      }
      if OccursIn(t, s) && !StartsWith(s, t) {
        var i: nat :| OccursAt(t, s, i);
        assert i != 0;
        assert s[1..][i - 1..i - 1 + |t|] == s[i..i + |t|];
        assert OccursAt(t, s[1..], i - 1);
      }
    } else {
      if OccursIn(t, s) {
        var i: nat :| OccursAt(t, s, i);
        assert i == 0;
      }
      if StartsWith(s, t) {
        assert OccursAt(t, s, 0);
      }
    }
  }

  /** A token surrounded by any text is still contained. */
  lemma ContainsSurrounded(before: string, t: string, after: string)
    ensures Contains(before + t + after, t)
  {
    var s := before + t + after;
    assert s[|before|..|before| + |t|] == t;
    assert OccursAt(t, s, |before|);
    ContainsIffOccurs(s, t);
  }

  /** `s.replace(String.valueOf(c), "")`: every occurrence of `c` removed. */
  function RemoveChar(s: string, c: char): (r: string)
    ensures c !in r
    ensures c !in s ==> r == s
    ensures |r| <= |s|
  {
    if s == [] then []
    else
      var init := s[..|s| - 1];
      assert s == init + [s[|s| - 1]];
      RemoveChar(init, c) + (if s[|s| - 1] == c then [] else [s[|s| - 1]])
  }
}
