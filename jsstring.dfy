/**
 * The few JavaScript string built-ins the dashboards rely on: `toLowerCase`, `includes`,
 * the `replace(/[\$,]/g, "")` clean-up of a cost string, and `parseInt` without a radix.
 */
module JsString {
  import opened Wrappers
  import Seqs

  /** `toLowerCase` on one character; only the letters A-Z are folded. */
  function LowerChar(c: char): char {
    if 'A' <= c <= 'Z' then (c as int - 'A' as int + 'a' as int) as char else c
  }

  /**
   * `toLowerCase`: each upper-case letter becomes the lower-case letter at the same place in
   * the alphabet, every other character is kept, and no upper-case letter is left.
   */
  function ToLowerCase(s: string): (r: string)
    ensures |r| == |s|
    ensures forall i :: 0 <= i < |s| && !('A' <= s[i] <= 'Z') ==> r[i] == s[i]
    ensures forall i :: 0 <= i < |s| && 'A' <= s[i] <= 'Z' ==>
              'a' <= r[i] <= 'z' && r[i] as int - 'a' as int == s[i] as int - 'A' as int
    ensures forall i :: 0 <= i < |r| ==> !('A' <= r[i] <= 'Z')
  {
    seq(|s|, i requires 0 <= i < |s| => LowerChar(s[i]))
  }

  /** Lower-casing twice is lower-casing once. */
  lemma ToLowerCaseIdempotent(s: string)
    ensures ToLowerCase(ToLowerCase(s)) == ToLowerCase(s)
  {
  }

  /** `needle` occurs in `hay` starting at position `i`. */
  predicate OccursAt(hay: string, needle: string, i: int) {
    0 <= i <= |hay| - |needle| && hay[i..i + |needle|] == needle
  }

  /** Past position 0, the occurrences in `hay` are those in its tail, shifted by one. */
  lemma ShiftOccurrence(hay: string, needle: string)
    requires hay != [] && !OccursAt(hay, needle, 0)
    ensures (exists i :: OccursAt(hay, needle, i)) <==> exists i :: OccursAt(hay[1..], needle, i)
  {
    if exists i :: OccursAt(hay[1..], needle, i) {
      var i :| OccursAt(hay[1..], needle, i);
      assert hay[i + 1..i + 1 + |needle|] == hay[1..][i..i + |needle|];
      assert OccursAt(hay, needle, i + 1);
    }
    if exists i :: OccursAt(hay, needle, i) {
      var i :| OccursAt(hay, needle, i);
      assert i != 0;
      assert hay[1..][i - 1..i - 1 + |needle|] == hay[i..i + |needle|];
      assert OccursAt(hay[1..], needle, i - 1);
    }
  }

  /** `hay.includes(needle)`: true exactly when `needle` starts at some position of `hay`. */
  function Includes(hay: string, needle: string): (b: bool)
    ensures b <==> exists i :: OccursAt(hay, needle, i)
    decreases |hay|
  {
    if |needle| > |hay| then false
    else if hay[..|needle|] == needle then
      assert OccursAt(hay, needle, 0);
      true
    else
      ShiftOccurrence(hay, needle);
      Includes(hay[1..], needle)
  }

  /** `s.replace(/[\$,]/g, "")`: every dollar sign and comma removed, everything else kept in order. */
  function StripDollarsAndCommas(s: string): (r: string)
    ensures forall c :: multiset(r)[c] == if c == '$' || c == ',' then 0 else multiset(s)[c]
    ensures forall c :: c in r <==> c in s && c != '$' && c != ','
    ensures Seqs.Subsequence(r, s)
    decreases |s|
  {
    if s == [] then []
    else
      var rest := StripDollarsAndCommas(s[1..]);
      assert s == [s[0]] + s[1..];
      assert multiset(s) == multiset{s[0]} + multiset(s[1..]);
      assert multiset([s[0]] + rest) == multiset{s[0]} + multiset(rest);
      if s[0] == '$' || s[0] == ',' then rest else [s[0]] + rest
  }

  /** Stripping distributes over concatenation. */
  lemma {:induction false} StripAppend(a: string, b: string)
    ensures StripDollarsAndCommas(a + b) == StripDollarsAndCommas(a) + StripDollarsAndCommas(b)
    decreases |a|
  {
    if a == [] {
      assert a + b == b;
    } else {
      assert (a + b)[0] == a[0];
      assert (a + b)[1..] == a[1..] + b;
      StripAppend(a[1..], b);
    }
  }

  /** A string without dollar signs or commas passes through unchanged. */
  lemma {:induction false} StripDollarsAndCommasClean(s: string)
    requires forall i :: 0 <= i < |s| ==> s[i] != '$' && s[i] != ','
    ensures StripDollarsAndCommas(s) == s
    decreases |s|
  {
    if s != [] {
      StripDollarsAndCommasClean(s[1..]);
      assert [s[0]] + s[1..] == s;
    }
  }

  // ---------------------------------------------------------------- parseInt

  /** The characters that `parseInt` skips at the start (StrWhiteSpaceChar of ECMA-262). */
  predicate IsStrWhiteSpace(c: char) {
    var u := c as int;
    (0x09 <= u <= 0x0D) || u == 0x20 || u == 0xA0 || u == 0x1680 || (0x2000 <= u <= 0x200A) ||
    u == 0x2028 || u == 0x2029 || u == 0x202F || u == 0x205F || u == 0x3000 || u == 0xFEFF
  }

  function TrimStart(s: string): (r: string)
    ensures |r| <= |s|
    ensures r == [] || !IsStrWhiteSpace(r[0])
    decreases |s|
  {
    if s != [] && IsStrWhiteSpace(s[0]) then TrimStart(s[1..]) else s
  }

  /** `TrimStart` removes exactly the leading run of white space and keeps the rest. */
  lemma {:induction false} TrimStartDropsLeadingWhiteSpace(s: string)
    ensures var k := |s| - |TrimStart(s)|;
            TrimStart(s) == s[k..] && forall i :: 0 <= i < k ==> IsStrWhiteSpace(s[i])
    decreases |s|
  {
    if s != [] && IsStrWhiteSpace(s[0]) {
      TrimStartDropsLeadingWhiteSpace(s[1..]);
      var k := |s| - |TrimStart(s)|;
      assert s[1..][k - 1..] == s[k..];
      forall i | 0 < i < k ensures IsStrWhiteSpace(s[i]) {
        assert s[i] == s[1..][i - 1];
      }
    }
  }

  /** The value of `c` as a digit in base `radix` (letters count from 10), if it is one. */
  predicate IsDecimalDigit(c: char) {
    '0' <= c <= '9'
  }

  function DigitValue(c: char, radix: nat): (d: Option<nat>)
    ensures d.Some? ==> d.value < radix
    ensures radix == 10 ==> (d.Some? <==> IsDecimalDigit(c))
  {
    var v :=
      if '0' <= c <= '9' then c as int - '0' as int
      else if 'a' <= c <= 'z' then c as int - 'a' as int + 10
      else if 'A' <= c <= 'Z' then c as int - 'A' as int + 10
      else 36;
    if v < radix then Some(v) else None
  }

  /** The length of the longest prefix of `s` made of base-`radix` digits. */
  function DigitPrefixLength(s: string, radix: nat): (n: nat)
    ensures n <= |s|
    decreases |s|
  {
    if s != [] && DigitValue(s[0], radix).Some? then 1 + DigitPrefixLength(s[1..], radix) else 0
  }

  /** The prefix is made of digits and is the longest such. */
  lemma {:induction false} DigitPrefixIsLongest(s: string, radix: nat)
    ensures var n := DigitPrefixLength(s, radix);
            (forall i :: 0 <= i < n ==> DigitValue(s[i], radix).Some?) &&
            (n < |s| ==> DigitValue(s[n], radix).None?)
    decreases |s|
  {
    if s != [] && DigitValue(s[0], radix).Some? {
      DigitPrefixIsLongest(s[1..], radix);
      var n := DigitPrefixLength(s, radix);
      forall i | 0 < i < n ensures DigitValue(s[i], radix).Some? {
        assert s[i] == s[1..][i - 1];
      }
    }
  }

  /**
   * The number that a string of base-`radix` digits denotes, most significant first
   * (a character that is no digit would count as 0; `parseInt` never passes one).
   */
  function DigitsValue(ds: string, radix: nat): nat
    decreases |ds|
  {
    if ds == [] then 0
    else DigitsValue(ds[..|ds| - 1], radix) * radix + DigitValue(ds[|ds| - 1], radix).GetOr(0)
  }

  /** The longest run of base-`radix` digits at the start of `body`, read as a number; none is NaN. */
  function ReadDigits(body: string, radix: nat): (d: Option<nat>)
    ensures d.Some? ==> body != [] && DigitValue(body[0], radix).Some?
  {
    var n := DigitPrefixLength(body, radix);
    if n == 0 then None else Some(DigitsValue(body[..n], radix))
  }

  predicate HasHexPrefix(s: string) {
    |s| >= 2 && s[0] == '0' && (s[1] == 'x' || s[1] == 'X')
  }

  /**
   * `parseInt(s)` with no radix: skip leading white space, read an optional sign, switch to
   * base 16 after a `0x`/`0X` prefix, then read the longest run of digits. No digits is NaN,
   * here `None`.
   */
  function ParseInt(s: string): (r: Option<int>)
    ensures r.Some? ==> exists i :: 0 <= i < |s| && IsDecimalDigit(s[i])
    ensures s != [] && !IsStrWhiteSpace(s[0]) && s[0] != '-' && s[0] != '+' && !IsDecimalDigit(s[0]) ==> r.None?
  {
    var t := TrimStart(s);
    var negative := t != [] && t[0] == '-';
    var signLength := if t != [] && (t[0] == '-' || t[0] == '+') then 1 else 0;
    var unsigned := t[signLength..];
    var magnitude := if HasHexPrefix(unsigned) then ReadDigits(unsigned[2..], 16) else ReadDigits(unsigned, 10);
    TrimStartDropsLeadingWhiteSpace(s);
    assert magnitude.Some? ==> unsigned != [] && IsDecimalDigit(unsigned[0]);
    assert magnitude.Some? ==> unsigned[0] == s[|s| - |t| + signLength];
    if magnitude.None? then None
    else
      var value: int := if negative then -(magnitude.value as int) else magnitude.value;
      Some(value)
  }

  /** The decimal numeral of `n`, without leading zeros. */
  function DecimalString(n: nat): (s: string)
    ensures s != []
    ensures forall i :: 0 <= i < |s| ==> '0' <= s[i] <= '9'
    decreases n
  {
    var last := ['0' + (n % 10) as char];
    if n < 10 then last else DecimalString(n / 10) + last
  }

  lemma {:induction false} DecimalDigitsValue(n: nat)
    ensures DigitsValue(DecimalString(n), 10) == n
    decreases n
  {
    var s := DecimalString(n);
    if n >= 10 {
      DecimalDigitsValue(n / 10);
      assert s[..|s| - 1] == DecimalString(n / 10);
    }
  }

  /** Every run of decimal digits is read in full by `parseInt`. */
  lemma {:induction false} DigitPrefixOfDigits(s: string, radix: nat)
    requires forall i :: 0 <= i < |s| ==> DigitValue(s[i], radix).Some?
    ensures DigitPrefixLength(s, radix) == |s|
    decreases |s|
  {
    if s != [] {
      DigitPrefixOfDigits(s[1..], radix);
    }
  }

  /** A string of decimal digits that does not start with `0x` parses to the number it denotes. */
  lemma ParseIntOfDigits(s: string)
    requires s != []
    requires forall i :: 0 <= i < |s| ==> '0' <= s[i] <= '9'
    ensures ParseInt(s) == Some(DigitsValue(s, 10))
  {
    assert forall i :: 0 <= i < |s| ==> DigitValue(s[i], 10).Some?;
    assert !IsStrWhiteSpace(s[0]);
    assert TrimStart(s) == s;
    assert !(s[0] == '-' || s[0] == '+');
    assert !HasHexPrefix(s);
    DigitPrefixOfDigits(s, 10);
    assert s[..|s|] == s;
  }

  /** `parseInt` reads back every decimal numeral it could be given. */
  lemma ParseIntDecimalString(n: nat)
    ensures ParseInt(DecimalString(n)) == Some(n)
  {
    ParseIntOfDigits(DecimalString(n));
    DecimalDigitsValue(n);
  }
}
