/** Decimal text of 16-bit unsigned integers.

    `ParseU16` is the behaviour of Rust's `str::parse::<u16>` (radix 10): an
    optional single leading '+', then one or more ASCII digits, read left to
    right with an overflow check after every digit.  `Decimal` is the
    canonical printer (no sign, no leading zero).  `ValueOf` is the positional
    meaning of a digit string, the reference both are proved against.
 */
module DecimalU16 {

  const U16_MAX: int := 65535

  /** Rust's `u16`. */
  type U16 = x: int | 0 <= x <= U16_MAX

  datatype Option<+T> = None | Some(value: T)

  predicate IsDigit(c: char) {
    '0' <= c <= '9'
  }

  predicate AllDigits(s: string) {
    forall i :: 0 <= i < |s| ==> IsDigit(s[i])
  }

  function DigitValue(c: char): (d: nat)
    requires IsDigit(c)
    ensures d <= 9
  {
    c as int - '0' as int
  }

  function DigitChar(d: nat): (c: char)
    requires d <= 9
    ensures IsDigit(c) && DigitValue(c) == d
  {
    ('0' as int + d) as char
  }

  /** Positional value of a digit string: the last digit is the units digit. */
  function ValueOf(ds: string): nat
    requires AllDigits(ds)
  {
    if ds == [] then 0 else 10 * ValueOf(ds[..|ds| - 1]) + DigitValue(ds[|ds| - 1])
  }

  /** A digit string as `Decimal` prints it: non-empty, no leading zero unless it is "0". */
  predicate IsCanonical(ds: string) {
    |ds| > 0 && AllDigits(ds) && (ds[0] == '0' ==> ds == "0")
  }

  /** The part of `s` that must be digits: `s` without one leading '+'. */
  function Magnitude(s: string): string {
    if |s| > 0 && s[0] == '+' then s[1..] else s
  }

  /** The strings `str::parse::<u16>` accepts. */
  predicate IsU16Literal(s: string) {
    var m := Magnitude(s);
    |m| > 0 && AllDigits(m) && ValueOf(m) <= U16_MAX
  }

  function LiteralValue(s: string): U16
    requires IsU16Literal(s)
  {
    ValueOf(Magnitude(s))
  }

  /** The digits `ds` read left to right after `acc`, with no bound: each
      digit multiplies what was read so far by ten and adds itself. */
  function ReadDigits(acc: nat, ds: string): nat
    requires AllDigits(ds)
    decreases |ds|
  {
    if ds == [] then acc else ReadDigits(10 * acc + DigitValue(ds[0]), ds[1..])
  }

  /** The digit loop of `u16::from_str_radix`: `acc` is the value read so far;
      a non-digit or a checked multiply/add that leaves the u16 range fails.
      Failing early on overflow is the same as failing at the end: it succeeds
      exactly when `ds` is all digits and the unbounded reading fits in a u16,
      and then returns that reading. */
  function Accumulate(acc: U16, ds: string): (r: Option<U16>)
    ensures r.Some? <==> AllDigits(ds) && ReadDigits(acc, ds) <= U16_MAX
    ensures r.Some? ==> AllDigits(ds) && r.value == ReadDigits(acc, ds)
    decreases |ds|
  {
    if ds == [] then Some(acc)
    else if !IsDigit(ds[0]) then None
    else
      var next := 10 * acc + DigitValue(ds[0]);
      AllDigitsCons(ds);
      ReadDigitsAtLeast(next, ds[1..]);
      if next > U16_MAX then None else Accumulate(next, ds[1..])
  }

  /** `str::parse::<u16>`: an empty string, or a lone sign, is an error; one
      leading '+' is skipped; a '-' is never skipped for an unsigned type, so
      it fails as a non-digit.  It succeeds exactly on the u16 literals, with
      their value. */
  function ParseU16(s: string): (r: Option<U16>)
    ensures r.Some? <==> IsU16Literal(s)
    ensures r.Some? ==> IsU16Literal(s) && r.value == LiteralValue(s)
  {
    if |s| == 0 then None
    else if (s[0] == '+' || s[0] == '-') && |s| == 1 then
      assert s[0] == '-' ==> !IsDigit(Magnitude(s)[0]);
      None
    else if s[0] == '+' then
      ValueOfIsReadDigits(s[1..]);
      Accumulate(0, s[1..])
    else
      ValueOfIsReadDigits(s);
      Accumulate(0, s)
  }

  /** Canonical decimal text of `n`. */
  function Decimal(n: nat): (s: string)
    ensures IsCanonical(s) && ValueOf(s) == n
    decreases n
  {
    if n < 10 then
      [DigitChar(n)]
    else
      var prefix := Decimal(n / 10);
      var s := prefix + [DigitChar(n % 10)];
      assert s[..|s| - 1] == prefix;
      s
  }

  /** A string starting with a digit is all digits exactly when its tail is. */
  lemma AllDigitsCons(ds: string)
    requires |ds| > 0 && IsDigit(ds[0])
    ensures AllDigits(ds) <==> AllDigits(ds[1..])
  {
    if AllDigits(ds[1..]) {
      forall i | 0 < i < |ds| ensures IsDigit(ds[i]) {
        assert ds[i] == ds[1..][i - 1];
      }
    }
  }

  /** Reading more digits never lowers the value. */
  lemma {:induction false} ReadDigitsAtLeast(acc: nat, ds: string)
    ensures AllDigits(ds) ==> ReadDigits(acc, ds) >= acc
    decreases |ds|
  {
    if ds != [] && AllDigits(ds) {
      ReadDigitsAtLeast(10 * acc + DigitValue(ds[0]), ds[1..]);
    }
  }

  /** Reading one more digit at the end multiplies by ten and adds it. */
  lemma {:induction false} ReadDigitsSnoc(acc: nat, ds: string, c: char)
    requires AllDigits(ds) && IsDigit(c)
    ensures AllDigits(ds + [c])
    ensures ReadDigits(acc, ds + [c]) == 10 * ReadDigits(acc, ds) + DigitValue(c)
    decreases |ds|
  {
    var s := ds + [c];
    assert AllDigits(s) by {
      forall i | 0 <= i < |s| ensures IsDigit(s[i]) {
        if i < |ds| { assert s[i] == ds[i]; }
      }
    }
    if ds != [] {
      assert s[0] == ds[0] && s[1..] == ds[1..] + [c];
      ReadDigitsSnoc(10 * acc + DigitValue(ds[0]), ds[1..], c);
    }
  }

  /** Left-to-right reading from zero gives the positional value. */
  lemma {:induction false} ValueOfIsReadDigits(ds: string)
    ensures AllDigits(ds) ==> ValueOf(ds) == ReadDigits(0, ds)
    decreases |ds|
  {
    if ds != [] && AllDigits(ds) {
      var init, last := ds[..|ds| - 1], ds[|ds| - 1];
      assert ds == init + [last];
      ValueOfIsReadDigits(init);
      ReadDigitsSnoc(0, init, last);
    }
  }

  lemma DivModTen(a: nat, e: nat)
    requires e <= 9
    ensures (10 * a + e) / 10 == a && (10 * a + e) % 10 == e
  {
  }

  /** Splitting off the last digit of a number written with a non-zero leading digit. */
  lemma LastDigitSplit(ds: string)
    requires IsCanonical(ds) && |ds| > 1
    ensures IsCanonical(ds[..|ds| - 1])
    ensures ValueOf(ds) >= 10
    ensures ValueOf(ds) / 10 == ValueOf(ds[..|ds| - 1])
    ensures ValueOf(ds) % 10 == DigitValue(ds[|ds| - 1])
  {
    var init := ds[..|ds| - 1];
    assert init[0] == ds[0] != '0' by {
      assert ds != "0";
    }
    ValueOfIsReadDigits(init);
    ReadDigitsAtLeast(DigitValue(init[0]), init[1..]);
    assert ValueOf(init) >= 1;
    DivModTen(ValueOf(init), DigitValue(ds[|ds| - 1]));
  }

  /** `Decimal` inverts `ValueOf` on canonical digit strings. */
  lemma {:induction false} DecimalOfValue(ds: string)
    requires IsCanonical(ds)
    ensures Decimal(ValueOf(ds)) == ds
  {
    var n, last := ValueOf(ds), ds[|ds| - 1];
    var init := ds[..|ds| - 1];
    assert ds == init + [last];
    if |ds| == 1 {
      assert init == [];
      assert n == DigitValue(last);
      assert Decimal(n) == [DigitChar(n)];
    } else {
      LastDigitSplit(ds);
      DecimalOfValue(init);
      assert Decimal(n) == Decimal(n / 10) + [DigitChar(n % 10)];
    }
  }

  /** Round trip: every u16 printed canonically parses back to itself. */
  lemma ParseDecimal(n: U16)
    ensures ParseU16(Decimal(n)) == Some(n)
  {
  }

  /** A single leading '+' is accepted in front of the digits. */
  lemma ParsePlusDecimal(n: U16)
    ensures ParseU16("+" + Decimal(n)) == Some(n)
  {
  }

  function Zeros(k: nat): (z: string)
    ensures |z| == k && AllDigits(z)
  {
    if k == 0 then "" else "0" + Zeros(k - 1)
  }

  /** Leading zeros do not change the value of a digit string. */
  lemma {:induction false} ValueOfZeros(k: nat, ds: string)
    requires AllDigits(ds)
    ensures AllDigits(Zeros(k) + ds) && ValueOf(Zeros(k) + ds) == ValueOf(ds)
  {
    ReadZeros(k, ds);
    ValueOfIsReadDigits(Zeros(k) + ds);
    ValueOfIsReadDigits(ds);
  }

  lemma {:induction false} ReadZeros(k: nat, ds: string)
    requires AllDigits(ds)
    ensures AllDigits(Zeros(k) + ds) && ReadDigits(0, Zeros(k) + ds) == ReadDigits(0, ds)
  {
    var s := Zeros(k) + ds;
    assert AllDigits(s) by {
      forall i | 0 <= i < |s| ensures IsDigit(s[i]) {
        if i >= k { assert s[i] == ds[i - k]; } else { assert s[i] == Zeros(k)[i]; }
      }
    }
    if k == 0 {
      assert s == ds;
    } else {
      assert s[0] == '0' && s[1..] == Zeros(k - 1) + ds;
      ReadZeros(k - 1, ds);
    }
  }

  /** Leading zeros are accepted: "0080" parses as 80. */
  lemma ParseLeadingZeros(k: nat, n: U16)
    ensures ParseU16(Zeros(k) + Decimal(n)) == Some(n)
  {
    var s := Zeros(k) + Decimal(n);
    ValueOfZeros(k, Decimal(n));
    assert s[0] != '+' by {
      if k == 0 { assert s == Decimal(n); } else { assert s[0] == '0'; }
    }
  }

  /** Any string that has a character other than a digit after the optional
      '+', such as a sign, a space or a letter, is rejected. */
  lemma ParseRejectsNonDigit(s: string, i: nat)
    requires i < |Magnitude(s)| && !IsDigit(Magnitude(s)[i])
    ensures ParseU16(s) == None
  {
  }

  /** A digit string worth more than 65535 is rejected, however it is padded. */
  lemma ParseRejectsOverflow(s: string)
    requires |Magnitude(s)| > 0 && AllDigits(Magnitude(s)) && ValueOf(Magnitude(s)) > U16_MAX
    ensures ParseU16(s) == None
  {
  }
}
