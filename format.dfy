/**
 * The text formatting the report relies on: decimal rendering of integers
 * and right alignment to a minimum width (the `{x:>3}` and `{x:>4}` format
 * specifications). Each rendering function has a parsing partner here, so that
 * the lemmas can state that formatting loses nothing.
 */
module Format {
  import opened Wrappers

  predicate IsDigit(c: char) {
    '0' <= c <= '9'
  }

  function DigitChar(d: nat): (c: char)
    requires d < 10
    ensures IsDigit(c) && DigitValue(c) == d
  {
    ('0' as int + d) as char
  }

  function DigitValue(c: char): (d: nat)
    requires IsDigit(c)
    ensures d < 10
  {
    c as int - '0' as int
  }

  /** Decimal digits of `n`, most significant first, without leading zeros. */
  function NatToString(n: nat): (s: string)
    ensures |s| >= 1 && IsDigit(s[0])
    ensures n > 0 ==> s[0] != '0'
    decreases n
  {
    if n < 10 then [DigitChar(n)] else NatToString(n / 10) + [DigitChar(n % 10)]
  }

  /** Decimal rendering of an integer: a minus sign before the digits of a negative one. */
  function IntToString(i: int): (s: string)
    ensures |s| >= 1 && s[0] != ' '
    ensures (s[0] == '-') <==> i < 0
  {
    if i < 0 then "-" + NatToString(-i) else NatToString(i)
  }

  /** Reads a non-empty run of decimal digits; anything else is rejected. */
  function ParseDigits(s: string): (r: Option<nat>)
    ensures r.Some? ==> s != [] && IsDigit(s[|s| - 1])
    decreases |s|
  {
    if s == [] || !IsDigit(s[|s| - 1]) then None
    else if |s| == 1 then Some(DigitValue(s[0]))
    else
      var high :- ParseDigits(s[..|s| - 1]);
      Some(10 * high + DigitValue(s[|s| - 1]))
  }

  /** Reads an optionally negative decimal integer. */
  function ParseInt(s: string): (r: Option<int>) {
    if s != [] && s[0] == '-' then
      var n :- ParseDigits(s[1..]);
      var negated := -(n as int);
      Some(negated)
    else
      var n :- ParseDigits(s);
      Some(n)
  }

  function Spaces(n: nat): (r: string)
    ensures |r| == n
  {
    if n == 0 then [] else [' '] + Spaces(n - 1)
  }

  /** Right-aligns `s` in a field of at least `width` characters; never truncates. */
  function PadLeft(s: string, width: nat): (r: string)
    ensures |r| == if |s| < width then width else |s|
    ensures r == Spaces(|r| - |s|) + s
  {
    if |s| < width then Spaces(width - |s|) + s else s
  }

  /** Drops the leading spaces of `s`, and only those. */
  function TrimLeft(s: string): (r: string)
    ensures |r| <= |s| && r == s[|s| - |r|..]
    ensures forall k :: 0 <= k < |s| - |r| ==> s[k] == ' '
    ensures r == [] || r[0] != ' '
    decreases |s|
  {
    if s != [] && s[0] == ' ' then TrimLeft(s[1..]) else s
  }

  /** Splits `s` at the first occurrence of `c`, dropping that character. */
  function SplitFirst(s: string, c: char): (r: Option<(string, string)>)
    ensures r.Some? ==> s == r.value.0 + [c] + r.value.1 && c !in r.value.0
    ensures r.None? ==> c !in s
    decreases |s|
  {
    if s == [] then None
    else if s[0] == c then Some(([], s[1..]))
    else
      var (before, after) :- SplitFirst(s[1..], c);
      Some(([s[0]] + before, after))
  }

  /** The `{i:>3}` rendering used in the table rows. */
  function Pad3(i: int): (cell: string) {
    PadLeft(IntToString(i), 3)
  }

  /** The `{i:>4}` rendering used in the summary block. */
  function Pad4(i: int): (cell: string) {
    PadLeft(IntToString(i), 4)
  }

  lemma {:induction false} ParseDigitsOfNat(n: nat)
    ensures ParseDigits(NatToString(n)) == Some(n)
    decreases n
  {
    if n >= 10 {
      var s := NatToString(n);
      assert s[..|s| - 1] == NatToString(n / 10);
      ParseDigitsOfNat(n / 10);
    }
  }

  /** Rendering an integer and reading it back gives the integer. */
  lemma {:induction false} ParseIntOfInt(i: int)
    ensures ParseInt(IntToString(i)) == Some(i)
  {
    if i < 0 {
      var digits := NatToString(-i);
      assert IntToString(i)[1..] == digits;
      ParseDigitsOfNat(-i);
      assert ParseDigits(IntToString(i)[1..]) == Some(-i);
    } else {
      var digits := NatToString(i);
      assert IntToString(i) == digits && digits[0] != '-';
      ParseDigitsOfNat(i);
    }
  }

  lemma {:induction false} SpacesAt(n: nat)
    ensures forall k :: 0 <= k < n ==> Spaces(n)[k] == ' '
  {
    if n > 0 {
      SpacesAt(n - 1);
      assert forall k :: 1 <= k < n ==> Spaces(n)[k] == Spaces(n - 1)[k - 1];
    }
  }

  lemma {:induction false} NatToStringDigits(n: nat)
    ensures forall k :: 0 <= k < |NatToString(n)| ==> IsDigit(NatToString(n)[k])
    decreases n
  {
    if n >= 10 {
      NatToStringDigits(n / 10);
    }
  }

  /** A rendered integer holds only a sign and digits: no space and no `|`. */
  lemma {:induction false} IntToStringChars(i: int)
    ensures ' ' !in IntToString(i) && '|' !in IntToString(i)
  {
    NatToStringDigits(if i < 0 then -i else i);
  }

  lemma {:induction false} NatToStringLength(n: nat)
    ensures n < 10 ==> |NatToString(n)| == 1
    ensures n < 100 ==> |NatToString(n)| <= 2
    ensures n < 1000 ==> |NatToString(n)| <= 3
    decreases n
  {
    if n >= 10 {
      NatToStringLength(n / 10);
    }
  }

  /** Trimming the padding of a padded text gives back the text. */
  lemma {:induction false} TrimLeftPadded(pad: string, t: string)
    requires forall k :: 0 <= k < |pad| ==> pad[k] == ' '
    requires t != [] && t[0] != ' '
    ensures TrimLeft(pad + t) == t
  {
    assert (pad + t)[|pad|] == t[0];
  }

  /** Right alignment never truncates: the padded cell reads back as the integer. */
  lemma {:induction false} PadLeftIntRoundTrip(i: int, width: nat)
    ensures ParseInt(TrimLeft(PadLeft(IntToString(i), width))) == Some(i)
    ensures |PadLeft(IntToString(i), width)| >= width
    ensures '|' !in PadLeft(IntToString(i), width)
  {
    var s := IntToString(i);
    var p := PadLeft(s, width);
    var pad := Spaces(|p| - |s|);
    SpacesAt(|pad|);
    TrimLeftPadded(pad, s);
    ParseIntOfInt(i);
    IntToStringChars(i);
    assert '|' !in pad;
  }

  /** A value in -99..999 fills the three-character column exactly. */
  lemma {:induction false} Pad3Width(i: int)
    requires -99 <= i <= 999
    ensures |Pad3(i)| == 3
  {
    if i < 0 {
      NatToStringLength(-i);
    } else {
      NatToStringLength(i);
    }
  }

  /** Splitting at a character that first occurs right after `a` gives `a` and the rest. */
  lemma {:induction false} SplitFirstAt(a: string, c: char, b: string)
    requires c !in a
    ensures SplitFirst(a + [c] + b, c) == Some((a, b))
    decreases |a|
  {
    if a != [] {
      assert (a + [c] + b)[1..] == a[1..] + [c] + b;
      SplitFirstAt(a[1..], c, b);
      assert [a[0]] + a[1..] == a;
    }
  }
}
