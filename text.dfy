/**
 * The Python string built-ins the command table relies on: `str.lower`,
 * `str.split()` with no separator, and `str(int)` for the counter reply
 * (with its inverse, so that the reported number can be read back).
 */
module PyText {
  import opened Wrappers

  /** `c.isspace()`: the characters that `str.split()` with no argument splits on. */
  predicate IsSpace(c: char) {
    || '\t' <= c <= '\r'                  // tab, line feed, vertical tab, form feed, carriage return
    || '\U{1C}' <= c <= '\U{1F}'          // file, group, record and unit separators
    || c == ' ' || c == '\U{85}' || c == '\U{A0}' || c == '\U{1680}'
    || '\U{2000}' <= c <= '\U{200A}'      // the typographic spaces
    || c == '\U{2028}' || c == '\U{2029}' || c == '\U{202F}' || c == '\U{205F}' || c == '\U{3000}'
  }

  predicate NoSpace(s: string) {
    forall i :: 0 <= i < |s| ==> !IsSpace(s[i])
  }

  predicate AllSpace(s: string) {
    forall i :: 0 <= i < |s| ==> IsSpace(s[i])
  }

  /**
   * Lower case of one character, as far as it can produce an ASCII letter:
   * 'A'..'Z' and KELVIN SIGN (U+212A, whose lower case is 'k').
   */
  function LowerChar(c: char): (d: char)
    ensures IsSpace(d) <==> IsSpace(c)
    ensures 'A' <= c <= 'Z' ==> d as int == c as int + 32
    ensures !('A' <= d <= 'Z')
  {
    if 'A' <= c <= 'Z' then (c as int + 32) as char
    else if c == '\U{212A}' then 'k'
    else c
  }

  /** `s.lower()` */
  function Lower(s: string): (t: string)
    ensures |t| == |s|
    ensures forall i :: 0 <= i < |s| ==> t[i] == LowerChar(s[i])
  {
    seq(|s|, i requires 0 <= i < |s| => LowerChar(s[i]))
  }

  /** The longest prefix of `s` without white space. */
  function Word(s: string): (w: string)
    ensures |w| <= |s| && w == s[..|w|]
    ensures NoSpace(w)
    ensures |w| < |s| ==> IsSpace(s[|w|])
  {
    if s == [] || IsSpace(s[0]) then [] else [s[0]] + Word(s[1..])
  }

  /** `s.split()`: the maximal runs of non-space characters, in order. */
  function Split(s: string): (words: seq<string>)
    ensures forall k :: 0 <= k < |words| ==> words[k] != [] && NoSpace(words[k])
    ensures words == [] <==> AllSpace(s)
    decreases |s|
  {
    if s == [] then []
    else if IsSpace(s[0]) then Split(s[1..])
    else
      var w := Word(s);
      [w] + Split(s[|w|..])
  }

  function DigitChar(d: nat): (c: char)
    requires d < 10
  {
    "0123456789"[d]
  }

  function DigitValue(c: char): (r: Option<nat>)
    ensures r.Some? ==> r.value < 10 && DigitChar(r.value) == c
  {
    if '0' <= c <= '9' then Some(c as int - '0' as int) else None
  }

  /** `str(n)` for a non-negative int: decimal digits, most significant first, no leading zero. */
  function NatToDecimal(n: nat): (s: string)
    ensures |s| > 0 && (|s| > 1 ==> s[0] != '0')
    ensures forall i :: 0 <= i < |s| ==> '0' <= s[i] <= '9'
  {
    if n < 10 then [DigitChar(n)] else NatToDecimal(n / 10) + [DigitChar(n % 10)]
  }

  /** `str(n)` for an int: a minus sign before the digits of a negative number. */
  function IntToDecimal(n: int): (s: string)
    ensures |s| > 0 && (s[0] == '-' || '0' <= s[0] <= '9')
    ensures s[0] == '-' <==> n < 0
    ensures forall i :: 1 <= i < |s| ==> '0' <= s[i] <= '9'
  {
    if n < 0 then "-" + NatToDecimal(-n) else NatToDecimal(n)
  }

  /** Reads back a run of decimal digits; None when `s` is empty or holds a non-digit. */
  function ParseNat(s: string): Option<nat>
  {
    if s == [] then None
    else
      var last := DigitValue(s[|s| - 1]);
      if last.None? then None
      else if |s| == 1 then Some(last.value)
      else
        match ParseNat(s[..|s| - 1])
        case None => None
        case Some(high) => Some(high * 10 + last.value)
  }

  /** Reads back an optionally signed decimal integer. */
  function ParseInt(s: string): Option<int>
  {
    var negative := |s| > 0 && s[0] == '-';
    var digits := ParseNat(if negative then s[1..] else s);
    if digits.None? then None
    else if negative then Some(-(digits.value as int))
    else Some(digits.value as int)
  }

  lemma DigitRoundTrip(d: nat)
    requires d < 10
    ensures DigitValue(DigitChar(d)) == Some(d)
  {
  }

  lemma {:induction false} NatRoundTrip(n: nat)
    ensures ParseNat(NatToDecimal(n)) == Some(n)
  {
    if n < 10 {
      DigitRoundTrip(n);
    } else {
      var high, low := n / 10, n % 10;
      NatRoundTrip(high);
      DigitRoundTrip(low);
      var s := NatToDecimal(n);
      assert s == NatToDecimal(high) + [DigitChar(low)];
      assert s[..|s| - 1] == NatToDecimal(high);
      assert DigitValue(s[|s| - 1]) == Some(low);
      assert high * 10 + low == n;
    }
  }

  /** Decimal rendering has an inverse: the printed number can be read back exactly. */
  lemma {:induction false} IntRoundTrip(n: int)
    ensures ParseInt(IntToDecimal(n)) == Some(n)
  {
    var s := IntToDecimal(n);
    var m: nat := if n < 0 then -n else n;
    var digits := NatToDecimal(m);
    NatRoundTrip(m);
    if n < 0 {
      assert s == "-" + digits;
      SignedRoundTrip(digits, m);
    } else {
      assert s == digits;
      UnsignedRoundTrip(digits, m);
    }
  }

  lemma SignedRoundTrip(digits: string, m: nat)
    requires ParseNat(digits) == Some(m)
    ensures ParseInt("-" + digits) == Some(-(m as int))
  {
    assert ("-" + digits)[1..] == digits;
  }

  lemma UnsignedRoundTrip(digits: string, m: nat)
    requires ParseNat(digits) == Some(m)
    requires |digits| > 0 && '0' <= digits[0] <= '9'
    ensures ParseInt(digits) == Some(m)
  {
  }

  /** The characters of the first word of `s.split()` when `s` starts with a non-space. */
  lemma FirstWord(s: string)
    requires |s| > 0 && !IsSpace(s[0])
    ensures |Split(s)| > 0 && Split(s)[0] == Word(s)
  {
  }

  /** A word followed by white space ends there, whatever follows. */
  lemma {:induction false} WordStopsAtSpace(w: string, rest: string)
    requires NoSpace(w)
    requires |rest| > 0 && IsSpace(rest[0])
    ensures Word(w + rest) == w
  {
    if w != [] {
      assert (w + rest)[1..] == w[1..] + rest;
      WordStopsAtSpace(w[1..], rest);
    }
  }

  /** A word without white space is read whole, with nothing after it. */
  lemma {:induction false} WordOfWord(w: string)
    requires NoSpace(w)
    ensures Word(w) == w
  {
    if w != [] {
      WordOfWord(w[1..]);
    }
  }

  /** Lower casing distributes over concatenation. */
  lemma LowerConcat(a: string, b: string)
    ensures Lower(a + b) == Lower(a) + Lower(b)
  {
  }

  /** Lower casing twice is lower casing once. */
  lemma LowerIdempotent(s: string)
    ensures Lower(Lower(s)) == Lower(s)
  {
  }
}
