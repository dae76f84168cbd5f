/**
 * The JavaScript string built-ins the components rely on: `trim`, the regular-expression class
 * `\s`, `split` on one character, ASCII case folding of the `/i` flag, and the conversions of
 * numbers to text (`String(n)` for integers, `toFixed(1)`).
 */
module Text {

  /**
   * ECMAScript WhiteSpace and LineTerminator code points: exactly the characters
   * `String.prototype.trim` removes and `\s` matches.
   */
  predicate IsSpace(c: char) {
    || c == '\t' || c == '\n' || c == '\U{B}' || c == '\U{C}' || c == '\r' || c == ' '
    || c == '\U{A0}' || c == '\U{1680}' || ('\U{2000}' <= c <= '\U{200A}')
    || c == '\U{2028}' || c == '\U{2029}' || c == '\U{202F}' || c == '\U{205F}'
    || c == '\U{3000}' || c == '\U{FEFF}'
  }

  predicate AllSpace(s: string) {
    forall i :: 0 <= i < |s| ==> IsSpace(s[i])
  }

  predicate NoSpace(s: string) {
    forall i :: 0 <= i < |s| ==> !IsSpace(s[i])
  }

  /** `s` with its leading whitespace removed. */
  function TrimStart(s: string): (r: string)
    ensures |r| <= |s| && r == s[|s| - |r|..]
    ensures AllSpace(s[..|s| - |r|])
    ensures r == [] || !IsSpace(r[0])
  {
    if s != [] && IsSpace(s[0]) then
      var r := TrimStart(s[1..]);
      TrimStartStep(s, r);
      r
    else s
  }

  lemma TrimStartStep(s: string, r: string)
    requires s != [] && IsSpace(s[0])
    requires |r| <= |s| - 1 && r == s[1..][|s| - 1 - |r|..]
    requires AllSpace(s[1..][..|s| - 1 - |r|])
    ensures r == s[|s| - |r|..]
    ensures AllSpace(s[..|s| - |r|])
  {
    var n := |s| - |r|;
    assert s[1..][n - 1..] == s[n..];
    forall i | 0 <= i < n ensures IsSpace(s[..n][i]) {
      if i > 0 {
        assert s[..n][i] == s[1..][..n - 1][i - 1];
      }
    }
  }

  /** `s` with its trailing whitespace removed. */
  function TrimEnd(s: string): (r: string)
    ensures |r| <= |s| && r == s[..|r|]
    ensures AllSpace(s[|r|..])
    ensures r == [] || !IsSpace(r[|r| - 1])
  {
    if s != [] && IsSpace(s[|s| - 1]) then
      var r := TrimEnd(s[..|s| - 1]);
      assert forall i :: |r| <= i < |s| - 1 ==> s[i] == s[..|s| - 1][|r|..][i - |r|];
      r
    else s
  }

  /** `String.prototype.trim`. */
  function Trim(s: string): (r: string)
    ensures |r| <= |s|
    ensures r == [] <==> AllSpace(s)
    ensures r != [] ==> !IsSpace(r[0]) && !IsSpace(r[|r| - 1])
    ensures NoSpace(s) ==> r == s
    ensures exists a :: Window(s, r, a)
  {
    TrimFacts(s);
    TrimWindow(s);
    TrimEnd(TrimStart(s))
  }

  /** `r` is the part of `s` at `a`, with only whitespace before and after it. */
  predicate Window(s: string, r: string, a: nat) {
    a + |r| <= |s| && r == s[a..a + |r|] && AllSpace(s[..a]) && AllSpace(s[a + |r|..])
  }

  /** Trimming cuts a window out of `s` with only whitespace on either side of it. */
  lemma TrimWindow(s: string)
    ensures Window(s, TrimEnd(TrimStart(s)), |s| - |TrimStart(s)|)
  {
    var t := TrimStart(s);
    WindowOfSuffix(s, |s| - |t|, TrimEnd(t));
  }

  /** A prefix `r` of the part of `s` after `a`, with only whitespace before `a` and after `r`, is a window. */
  lemma WindowOfSuffix(s: string, a: nat, r: string)
    requires a <= |s| && AllSpace(s[..a])
    requires |r| <= |s| - a && r == s[a..][..|r|] && AllSpace(s[a..][|r|..])
    ensures Window(s, r, a)
  {
    assert s[a..a + |r|] == s[a..][..|r|];
    assert s[a + |r|..] == s[a..][|r|..];
  }

  lemma TrimFacts(s: string)
    ensures TrimEnd(TrimStart(s)) == [] <==> AllSpace(s)
    ensures NoSpace(s) ==> TrimEnd(TrimStart(s)) == s
  {
    TrimEmpty(s);
    if NoSpace(s) {
      TrimStartNoSpace(s);
      TrimEndNoSpace(s);
    }
  }

  lemma TrimEmpty(s: string)
    ensures TrimEnd(TrimStart(s)) == [] <==> AllSpace(s)
  {
    var t := TrimStart(s);
    var n := |s| - |t|;
    if TrimEnd(t) == [] {
      assert AllSpace(t[0..]);
      assert t == [];
      assert s[..n] == s;
    }
  }

  lemma TrimStartNoSpace(s: string)
    requires NoSpace(s)
    ensures TrimStart(s) == s
  {
    assert s != [] ==> !IsSpace(s[0]);
  }

  lemma TrimEndNoSpace(s: string)
    requires NoSpace(s)
    ensures TrimEnd(s) == s
  {
    assert s != [] ==> !IsSpace(s[|s| - 1]);
  }

  /** Index of the first `c` in `s`, or |s| when there is none. */
  function IndexOf(s: string, c: char): (r: nat)
    ensures r <= |s|
    ensures forall j :: 0 <= j < r ==> s[j] != c
    ensures r < |s| ==> s[r] == c
  {
    if s == [] then 0
    else if s[0] == c then 0
    else 1 + IndexOf(s[1..], c)
  }

  /** Number of occurrences of `c` in `s`. */
  function CountOf(s: string, c: char): nat {
    if s == [] then 0 else (if s[0] == c then 1 else 0) + CountOf(s[1..], c)
  }

  /** The pieces joined again with `sep` between them. */
  function Join(parts: seq<string>, sep: char): string {
    if parts == [] then []
    else if |parts| == 1 then parts[0]
    else parts[0] + [sep] + Join(parts[1..], sep)
  }

  /** `s.split(sep)` for a one-character separator: the pieces between the occurrences of `sep`. */
  function Split(s: string, sep: char): (parts: seq<string>)
    ensures |parts| >= 1
    ensures forall i :: 0 <= i < |parts| ==> sep !in parts[i]
    ensures parts[0] == s[..IndexOf(s, sep)]
    decreases |s|
  {
    var i := IndexOf(s, sep);
    if i == |s| then [s] else [s[..i]] + Split(s[i + 1..], sep)
  }

  /** Every occurrence of the separator separates two pieces. */
  lemma {:induction false} SplitCount(s: string, sep: char)
    ensures |Split(s, sep)| == CountOf(s, sep) + 1
    decreases |s|
  {
    var i := IndexOf(s, sep);
    if i == |s| {
      assert s[..i] == s;
      CountOfAbsent(s, sep);
    } else {
      SplitCount(s[i + 1..], sep);
      CountOfSplit(s, sep, i);
    }
  }

  /** Joining the pieces again with the separator gives back the text. */
  lemma {:induction false} JoinSplit(s: string, sep: char)
    ensures Join(Split(s, sep), sep) == s
    decreases |s|
  {
    var i := IndexOf(s, sep);
    if i < |s| {
      JoinSplit(s[i + 1..], sep);
      JoinSplitStep(s, sep, i);
    } else {
      SplitWhole(s, sep);
    }
  }

  lemma JoinSplitStep(s: string, sep: char, i: nat)
    requires i == IndexOf(s, sep) < |s|
    requires Join(Split(s[i + 1..], sep), sep) == s[i + 1..]
    ensures Join(Split(s, sep), sep) == s
  {
    var rest := Split(s[i + 1..], sep);
    SplitAtFirst(s, sep);
    JoinCons(s[..i], rest, sep);
    Around(s, i);
  }

  lemma Around(s: string, i: nat)
    requires i < |s|
    ensures s[..i] + [s[i]] + s[i + 1..] == s
  {}

  /** A text with the separator splits into the text before it and the pieces of the rest. */
  lemma SplitAtFirst(s: string, sep: char)
    requires IndexOf(s, sep) < |s|
    ensures var i := IndexOf(s, sep); Split(s, sep) == [s[..i]] + Split(s[i + 1..], sep)
  {}

  /** A text without the separator is a single piece. */
  lemma SplitWhole(s: string, sep: char)
    requires IndexOf(s, sep) == |s|
    ensures Split(s, sep) == [s]
  {}

  lemma JoinCons(a: string, rest: seq<string>, sep: char)
    requires rest != []
    ensures Join([a] + rest, sep) == a + [sep] + Join(rest, sep)
  {
    assert ([a] + rest)[1..] == rest;
  }

  lemma {:induction false} CountOfAbsent(s: string, c: char)
    requires c !in s
    ensures CountOf(s, c) == 0
  {
    if s != [] {
      CountOfAbsent(s[1..], c);
    }
  }

  /** Splitting at the first occurrence `i` of `c` counts one `c` and those after it. */
  lemma {:induction false} CountOfSplit(s: string, c: char, i: nat)
    requires i < |s| && s[i] == c && c !in s[..i]
    ensures CountOf(s, c) == 1 + CountOf(s[i + 1..], c)
  {
    if i > 0 {
      assert s[1..][..i - 1] == s[1..i];
      CountOfSplit(s[1..], c, i - 1);
      assert s[1..][i..] == s[i + 1..];
    }
  }

  /** ASCII letters mapped to upper case: the canonical form `/i` compares in. */
  function Upper(c: char): (r: char)
    ensures r != c <==> 'a' <= c <= 'z'
    ensures r != c ==> r as int == c as int - 32
    ensures !('a' <= r <= 'z')
  {
    if 'a' <= c <= 'z' then (c as int - 32) as char else c
  }

  function Digit(d: nat): char
    requires d < 10
  {
    "0123456789"[d]
  }

  predicate IsDigits(s: string) {
    forall i :: 0 <= i < |s| ==> '0' <= s[i] <= '9'
  }

  /** The number a string of decimal digits denotes. */
  function DigitsValue(s: string): nat
    requires IsDigits(s)
  {
    if s == [] then 0 else 10 * DigitsValue(s[..|s| - 1]) + (s[|s| - 1] as int - '0' as int)
  }

  /** Decimal digits of `n`, without leading zeros, that denote `n`. */
  function NatToString(n: nat): (r: string)
    ensures |r| >= 1 && IsDigits(r)
    ensures r[0] == '0' ==> r == "0"
    ensures DigitsValue(r) == n
    decreases n
  {
    if n < 10 then [Digit(n)]
    else
      var r := NatToString(n / 10) + [Digit(n % 10)];
      assert r[..|r| - 1] == NatToString(n / 10);
      DigitValue(n % 10);
      assert DigitsValue(r) == 10 * (n / 10) + n % 10;
      r
  }

  /** `String(n)` for an integer-valued number: a minus sign exactly when `n` is negative, then the digits of its magnitude. */
  function IntToString(n: int): (r: string)
    ensures r != [] && (r[0] == '-' <==> n < 0)
    ensures var digits := if n < 0 then r[1..] else r;
      && digits != [] && IsDigits(digits)
      && (digits[0] == '0' ==> digits == "0")
      && DigitsValue(digits) == if n < 0 then -n else n
  {
    if n < 0 then
      var r := "-" + NatToString(-n);
      assert r[1..] == NatToString(-n);
      r
    else NatToString(n)
  }

  /** The number of tenths nearest to `x >= 0`; a tie goes to the larger one. */
  function NearestTenths(x: real): (n: nat)
    requires x >= 0.0
    ensures n as real - 0.5 <= 10.0 * x < n as real + 0.5
  {
    (10.0 * x + 0.5).Floor
  }

  /** `x.toFixed(1)`, on exact reals; a negative number is its magnitude's text after a minus sign. */
  function ToFixed1(x: real): (r: string)
    ensures var sign := if x < 0.0 then 1 else 0; var magnitude := if x < 0.0 then -x else x;
      && |r| >= sign + 3
      && (x < 0.0 <==> r[0] == '-')
      && r[|r| - 2] == '.'
      && IsDigits(r[sign..|r| - 2]) && IsDigits(r[|r| - 1..])
      && DigitsValue(r[sign..|r| - 2]) * 10 + DigitsValue(r[|r| - 1..]) == NearestTenths(magnitude)
  {
    var n := NearestTenths(if x < 0.0 then -x else x);
    var sign := if x < 0.0 then "-" else "";
    FixedLayout(sign, NatToString(n / 10), n % 10);
    sign + NatToString(n / 10) + "." + [Digit(n % 10)]
  }

  /** Where the parts of `sign`, digits, a point and one digit sit, and what the two digit runs denote. */
  lemma FixedLayout(sign: string, whole: string, d: nat)
    requires IsDigits(whole) && d < 10
    ensures var r := sign + whole + "." + [Digit(d)];
      && |r| == |sign| + |whole| + 2
      && r[..|sign|] == sign
      && r[|r| - 2] == '.'
      && r[|sign|..|r| - 2] == whole
      && IsDigits(r[|r| - 1..]) && DigitsValue(r[|r| - 1..]) == d
  {
    var r := sign + whole + "." + [Digit(d)];
    assert r[..|sign|] == sign;
    assert r[|sign|..|r| - 2] == whole;
    assert r[|r| - 1..] == [Digit(d)];
    DigitValue(d);
  }

  lemma DigitValue(d: nat)
    requires d < 10
    ensures IsDigits([Digit(d)]) && DigitsValue([Digit(d)]) == d
  {
    assert [Digit(d)][..0] == [];
  }

  /** `Number(x.toFixed(1))`: `x` rounded to one decimal place. */
  function RoundTenths(x: real): (r: real)
    ensures -0.05 <= r - x <= 0.05
  {
    if x < 0.0 then -(NearestTenths(-x) as real / 10.0) else NearestTenths(x) as real / 10.0
  }
}
