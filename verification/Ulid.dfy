/**
 * The time part of a ULID: ten Crockford base-32 digits of a 48-bit timestamp
 * (ULID specification, sections "Components", "Encoding" and "Sorting").
 */
module Ulid {
  import opened Seqs

  const TIME_LEN: nat := 10
  const ULID_LEN: nat := 26
  const MAX_TIME: int := 0xffff_ffff_ffff

  /** The alphabet, in ascending character order: digits, then letters without I, L, O and U. */
  function Digit(n: int): (c: char)
    requires 0 <= n < 32
  {
    if n < 10 then '0' + n as char
    else if n < 18 then 'A' + (n - 10) as char
    else if n < 20 then 'J' + (n - 18) as char
    else if n < 22 then 'M' + (n - 20) as char
    else if n < 27 then 'P' + (n - 22) as char
    else 'V' + (n - 27) as char
  }

  /** The position in the alphabet (indexOf), or none. */
  function Position(c: char): (p: Option<int>)
    ensures p.Some? ==> 0 <= p.value < 32 && Digit(p.value) == c
    ensures p.None? ==> forall n :: 0 <= n < 32 ==> Digit(n) != c
  {
    if '0' <= c <= '9' then Some(c as int - '0' as int)
    else if 'A' <= c <= 'H' then Some(c as int - 'A' as int + 10)
    else if 'J' <= c <= 'K' then Some(c as int - 'J' as int + 18)
    else if 'M' <= c <= 'N' then Some(c as int - 'M' as int + 20)
    else if 'P' <= c <= 'T' then Some(c as int - 'P' as int + 22)
    else if 'V' <= c <= 'Z' then Some(c as int - 'V' as int + 27)
    else None
  }

  function UpperChar(c: char): char {
    if 'a' <= c <= 'z' then c - 'a' + 'A' else c
  }

  function Upper(s: string): (r: string)
    ensures |r| == |s| && forall i :: 0 <= i < |s| ==> r[i] == UpperChar(s[i])
  {
    seq(|s|, i requires 0 <= i < |s| => UpperChar(s[i]))
  }

  /** Twenty-six characters of the alphabet, in either case. */
  predicate IsUlid(s: string) {
    |s| == ULID_LEN && forall i :: 0 <= i < |s| ==> Position(UpperChar(s[i])).Some?
  }

  // ------------------------------------------------------------------
  // Numerals
  // ------------------------------------------------------------------

  /** The `k` lowest base-32 digits of `n`, highest first. */
  function Numeral(n: nat, k: nat): (s: string)
    ensures |s| == k
  {
    if k == 0 then "" else Numeral(n / 32, k - 1) + [Digit(n % 32)]
  }

  predicate IsNumeral(s: string) {
    forall i :: 0 <= i < |s| ==> Position(s[i]).Some?
  }

  function Value(s: string): (n: nat)
    requires IsNumeral(s)
  {
    if s == "" then 0 else Value(s[..|s|-1]) * 32 + Position(s[|s|-1]).value
  }

  function Pow32(k: nat): (p: nat)
    ensures p > 0
  {
    if k == 0 then 1 else 32 * Pow32(k - 1)
  }

  lemma {:induction false} NumeralIsNumeral(n: nat, k: nat)
    ensures IsNumeral(Numeral(n, k))
  {
    if k > 0 {
      NumeralIsNumeral(n / 32, k - 1);
    }
  }

  lemma {:induction false} ValueOfNumeral(n: nat, k: nat)
    requires n < Pow32(k)
    ensures IsNumeral(Numeral(n, k)) && Value(Numeral(n, k)) == n
  {
    NumeralIsNumeral(n, k);
    if k > 0 {
      ValueOfNumeral(n / 32, k - 1);
      assert Numeral(n, k)[..k-1] == Numeral(n / 32, k - 1);
    }
  }

  lemma {:induction false} NumeralOfValue(s: string)
    requires IsNumeral(s)
    ensures Value(s) < Pow32(|s|) && Numeral(Value(s), |s|) == s
  {
    if s != "" {
      var front, d := s[..|s|-1], Position(s[|s|-1]).value;
      NumeralOfValue(front);
      assert Value(s) / 32 == Value(front) && Value(s) % 32 == d;
      assert s == front + [s[|s|-1]];
    }
  }

  /** Comparison of strings of equal length, character by character. */
  ghost predicate Before(a: string, b: string)
    requires |a| == |b|
  {
    exists i :: 0 <= i < |a| && a[..i] == b[..i] && a[i] < b[i]
  }

  lemma BeforeSnoc(a: string, b: string, c: char, d: char)
    requires |a| == |b|
    ensures Before(a + [c], b + [d]) <==> Before(a, b) || (a == b && c < d)
  {
    var x, y := a + [c], b + [d];
    if Before(a, b) {
      var i :| 0 <= i < |a| && a[..i] == b[..i] && a[i] < b[i];
      assert x[..i] == a[..i] && y[..i] == b[..i] && x[i] < y[i];
    }
    if a == b && c < d {
      assert x[..|a|] == y[..|a|] && x[|a|] < y[|a|];
    }
    if Before(x, y) {
      var i :| 0 <= i < |x| && x[..i] == y[..i] && x[i] < y[i];
      if i < |a| {
        assert a[..i] == x[..i] && b[..i] == y[..i];
        assert a[i] < b[i];
      } else {
        assert a == x[..i] && b == y[..i];
      }
    }
  }

  lemma {:induction false} NumeralsDiffer(m: nat, n: nat, k: nat)
    requires m < Pow32(k) && n < Pow32(k)
    ensures Numeral(m, k) == Numeral(n, k) <==> m == n
  {
    ValueOfNumeral(m, k);
    ValueOfNumeral(n, k);
  }

  /** String order is numeric order. */
  lemma {:induction false} NumeralsSort(m: nat, n: nat, k: nat)
    requires m < Pow32(k) && n < Pow32(k)
    ensures Before(Numeral(m, k), Numeral(n, k)) <==> m < n
  {
    if k > 0 {
      var p, q := m / 32, n / 32;
      assert p < Pow32(k - 1) && q < Pow32(k - 1);
      NumeralsSort(p, q, k - 1);
      NumeralsDiffer(p, q, k - 1);
      BeforeSnoc(Numeral(p, k - 1), Numeral(q, k - 1), Digit(m % 32), Digit(n % 32));
    }
  }

  // ------------------------------------------------------------------
  // Encoding and decoding
  // ------------------------------------------------------------------

  datatype Time = Finite(ms: real) | NotFinite
  datatype Result<T> = Ok(value: T) | RangeError | TypeError

  predicate InRange(t: Time) {
    t.Finite? && 0.0 <= t.ms <= MAX_TIME as real
  }

  function EncodedTime(t: Time): Result<string> {
    if InRange(t) then Ok(Numeral(t.ms.Floor, TIME_LEN)) else RangeError
  }

  method EncodeTime(t: Time) returns (r: Result<string>)
    ensures r == EncodedTime(t)
  {
    if !t.Finite? || t.ms < 0.0 || t.ms > MAX_TIME as real {
      return RangeError;
    }
    var str := "";
    var remainder := t.ms.Floor;
    for i := 0 to TIME_LEN
      invariant remainder >= 0
      invariant Numeral(t.ms.Floor, TIME_LEN) == Numeral(remainder, TIME_LEN - i) + str
    {
      var mod := remainder % 32;
      assert (remainder - mod) / 32 == remainder / 32;
      assert Numeral(remainder, TIME_LEN - i) == Numeral(remainder / 32, TIME_LEN - i - 1) + [Digit(mod)];
      str := [Digit(mod)] + str;
      remainder := (remainder - mod) / 32;
    }
    assert Numeral(remainder, 0) + str == str;
    return Ok(str);
  }

  function DecodedTime(s: string): Result<nat> {
    if IsUlid(s) then
      assert IsNumeral(Upper(s)[..TIME_LEN]);
      Ok(Value(Upper(s)[..TIME_LEN]))
    else TypeError
  }

  method GetUlidTimestamp(s: string) returns (r: Result<nat>)
    ensures r == DecodedTime(s)
  {
    if !IsUlid(s) {
      return TypeError;
    }
    var upper := Upper(s);
    var time: nat := 0;
    for i := 0 to TIME_LEN
      invariant IsNumeral(upper[..i]) && time == Value(upper[..i])
    {
      var index := Position(upper[i]);
      if index.None? {
        return TypeError;
      }
      assert upper[..i+1][..i] == upper[..i];
      time := time * 32 + index.value;
    }
    return Ok(time);
  }

  /** Decoding inverts encoding, whatever random part follows and in either case. */
  lemma DecodeInvertsEncode(t: Time, random: string, ulid: string)
    requires InRange(t) && |random| == ULID_LEN - TIME_LEN && IsNumeral(random)
    requires Upper(ulid) == EncodedTime(t).value + random
    ensures DecodedTime(ulid) == Ok(t.ms.Floor)
  {
    var n := t.ms.Floor;
    ValueOfNumeral(n, TIME_LEN);
    var time := Numeral(n, TIME_LEN);
    assert Upper(ulid)[..TIME_LEN] == time;
    forall i | 0 <= i < |ulid| ensures Position(UpperChar(ulid[i])).Some? {
      assert Upper(ulid)[i] == if i < TIME_LEN then time[i] else random[i - TIME_LEN];
    }
  }

  /**
   * Encoding inverts decoding exactly for the ids whose time fits 48 bits; the
   * syntax check admits ids with larger times, up to 50 bits.
   */
  lemma EncodeInvertsDecode(ulid: string)
    requires IsUlid(ulid)
    ensures var n := DecodedTime(ulid).value;
            EncodedTime(Finite(n as real)) == Ok(Upper(ulid)[..TIME_LEN]) <==> Upper(ulid)[0] <= '7'
  {
    var s := Upper(ulid)[..TIME_LEN];
    assert IsNumeral(s);
    NumeralOfValue(s);
    var n := Value(s);
    LeadingDigit(s);
    assert Position(s[0]).value < 8 <==> s[0] <= '7';
    assert (n as real).Floor == n;
  }

  /** A ten-digit numeral fits 48 bits exactly when its first digit is below 8. */
  lemma LeadingDigit(s: string)
    requires |s| == TIME_LEN && IsNumeral(s)
    ensures Value(s) <= MAX_TIME <==> Position(s[0]).value < 8
  {
    LeadingDigitBounds(s);
    assert Pow32(1) == 32 && Pow32(3) == 32768 && Pow32(5) == 0x200_0000 && Pow32(7) == 0x8_0000_0000;
    assert Pow32(9) == 0x2000_0000_0000;
  }

  lemma {:induction false} LeadingDigitBounds(s: string)
    requires s != "" && IsNumeral(s)
    ensures Position(s[0]).value * Pow32(|s| - 1) <= Value(s) < (Position(s[0]).value + 1) * Pow32(|s| - 1)
  {
    if |s| == 1 {
      assert s[..0] == "" && Value(s) == Value("") * 32 + Position(s[0]).value;
    } else {
      LeadingDigitBounds(s[..|s|-1]);
      Scaled(Position(s[0]).value, Pow32(|s| - 2));
      Scaled(Position(s[0]).value + 1, Pow32(|s| - 2));
    }
  }

  lemma Scaled(d: nat, p: nat)
    ensures d * (32 * p) == 32 * (d * p)
  {
  }

  /** Ids sort by time first: an earlier whole millisecond sorts first whatever the random parts. */
  lemma UlidsSortByTime(s: Time, t: Time, x: string, y: string)
    requires InRange(s) && InRange(t) && |x| == |y|
    ensures Before(EncodedTime(s).value, EncodedTime(t).value) <==> s.ms.Floor < t.ms.Floor
    ensures s.ms.Floor < t.ms.Floor ==> Before(EncodedTime(s).value + x, EncodedTime(t).value + y)
  {
    NumeralsSort(s.ms.Floor, t.ms.Floor, TIME_LEN);
    var a, b := EncodedTime(s).value, EncodedTime(t).value;
    if Before(a, b) {
      var i :| 0 <= i < |a| && a[..i] == b[..i] && a[i] < b[i];
      assert (a + x)[..i] == a[..i] && (b + y)[..i] == b[..i] && (a + x)[i] < (b + y)[i];
    }
  }
}
