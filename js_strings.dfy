/** The few JavaScript string operations the prompt engine relies on:
    `String.prototype.trim`, `Array.prototype.join`, and `Number.prototype.toFixed(1)`
    applied to a weight percentage divided by one hundred. */
module JsStrings {

  /** ECMAScript WhiteSpace and LineTerminator code points: the characters `trim` removes. */
  predicate IsJsSpace(c: char) {
    || c == '\t' || c == '\n' || c == '\U{000B}' || c == '\U{000C}' || c == '\r'
    || c == ' ' || c == '\U{00A0}' || c == '\U{1680}'
    || ('\U{2000}' <= c <= '\U{200A}')
    || c == '\U{2028}' || c == '\U{2029}' || c == '\U{202F}' || c == '\U{205F}'
    || c == '\U{3000}' || c == '\U{FEFF}'
  }

  /** A string that `trim` turns into the empty string. */
  predicate Blank(s: string) {
    forall i :: 0 <= i < |s| ==> IsJsSpace(s[i])
  }

  /** Leading white space removed: a suffix of `s` that starts with a non-space. */
  function TrimStart(s: string): (r: string)
    ensures |r| <= |s| && r == s[|s| - |r|..]
    ensures r == [] || !IsJsSpace(r[0])
    ensures forall i :: 0 <= i < |s| - |r| ==> IsJsSpace(s[i])
  {
    if |s| > 0 && IsJsSpace(s[0]) then TrimStart(s[1..]) else s
  }

  /** Trailing white space removed: a prefix of `s` that ends with a non-space. */
  function TrimEnd(s: string): (r: string)
    ensures |r| <= |s| && r == s[..|r|]
    ensures r == [] || !IsJsSpace(r[|r| - 1])
    ensures forall i :: |r| <= i < |s| ==> IsJsSpace(s[i])
  {
    if |s| > 0 && IsJsSpace(s[|s| - 1]) then TrimEnd(s[..|s| - 1]) else s
  }

  /** `s.trim()`: white space removed at both ends. */
  function Trim(s: string): (r: string)
    ensures r == [] || (!IsJsSpace(r[0]) && !IsJsSpace(r[|r| - 1]))
  {
    TrimEnd(TrimStart(s))
  }

  /** `s.trim()` is the slice of `s` that starts where the leading white space ends and is
      followed by white space only. */
  lemma TrimIsSlice(s: string)
    ensures var r, i := Trim(s), |s| - |TrimStart(s)|;
      && i + |r| <= |s| && (forall k :: 0 <= k < |r| ==> r[k] == s[i + k])
      && (forall j :: 0 <= j < i ==> IsJsSpace(s[j]))
      && (forall j :: i + |r| <= j < |s| ==> IsJsSpace(s[j]))
  {
    var t := TrimStart(s);
    SliceOfTrimmed(s, t, TrimEnd(t));
  }

  /** The slice facts for any `t` cut from the end of `s` after white space and any `r` cut
      from the start of `t` before white space. */
  lemma SliceOfTrimmed(s: string, t: string, r: string)
    requires |t| <= |s| && t == s[|s| - |t|..]
    requires forall j :: 0 <= j < |s| - |t| ==> IsJsSpace(s[j])
    requires |r| <= |t| && r == t[..|r|]
    requires forall j :: |r| <= j < |t| ==> IsJsSpace(t[j])
    ensures var i := |s| - |t|;
      && i + |r| <= |s| && (forall k :: 0 <= k < |r| ==> r[k] == s[i + k])
      && (forall j :: 0 <= j < i ==> IsJsSpace(s[j]))
      && (forall j :: i + |r| <= j < |s| ==> IsJsSpace(s[j]))
  {
    var i := |s| - |t|;
    forall k | 0 <= k < |r|
      ensures r[k] == s[i + k]
    {
      assert r[k] == t[k];
    }
    forall j | i + |r| <= j < |s|
      ensures IsJsSpace(s[j])
    {
      var m := j - i;
      assert |r| <= m < |t| && s[j] == t[m];
    }
  }

  /** `s.trim()` is falsy exactly when every character of `s` is white space. */
  lemma TrimEmptyIffBlank(s: string)
    ensures Trim(s) == "" <==> Blank(s)
  {
    var t := TrimStart(s);
    if Trim(s) == "" {
      assert t == [];
    } else {
      var r := Trim(s);
      assert !IsJsSpace(r[0]) by {
        if |t| > 0 { assert r[0] == t[0]; }
      }
      assert s[|s| - |t|] == r[0];
    }
  }

  /** The summed length of the parts. */
  function TotalLength(parts: seq<string>): nat {
    if parts == [] then 0 else |parts[0]| + TotalLength(parts[1..])
  }

  /** `parts.join(sep)`: the parts in order with one separator between neighbours, so it
      starts with the first part and is as long as the parts plus one separator fewer than
      there are parts. */
  function Join(parts: seq<string>, sep: string): (r: string)
    ensures parts == [] ==> r == ""
    ensures parts != [] ==> |r| == TotalLength(parts) + (|parts| - 1) * |sep|
    ensures parts != [] ==> r[..|parts[0]|] == parts[0]
  {
    if |parts| == 0 then ""
    else if |parts| == 1 then parts[0]
    else
      var rest := Join(parts[1..], sep);
      assert (|parts| - 1) * |sep| == |sep| + (|parts| - 2) * |sep|;
      parts[0] + sep + rest
  }

  /** Appending a part appends one separator and that part: the parts appear in order, with
      one separator between neighbours. */
  lemma {:induction false} JoinAppend(parts: seq<string>, p: string, sep: string)
    requires parts != []
    ensures Join(parts + [p], sep) == Join(parts, sep) + sep + p
  {
    if |parts| == 1 {
      assert parts + [p] == [parts[0], p];
    } else {
      assert (parts + [p])[1..] == parts[1..] + [p];
      JoinAppend(parts[1..], p, sep);
    }
  }

  /** Joining non-empty parts gives the empty string only for an empty list, and
      joining one part gives that part back. */
  lemma {:induction false} JoinEmptyIff(parts: seq<string>, sep: string)
    requires forall i :: 0 <= i < |parts| ==> parts[i] != ""
    ensures Join(parts, sep) == "" <==> parts == []
    ensures |parts| == 1 ==> Join(parts, sep) == parts[0]
  {
    if |parts| > 1 {
      assert |Join(parts, sep)| >= |parts[0]| > 0;
    }
  }

  function DigitChar(d: nat): (c: char)
    requires d < 10
    ensures '0' <= c <= '9' && c as int - '0' as int == d
  {
    ('0' as int + d) as char
  }

  /** Decimal notation of a natural number, as `String(n)` writes it. */
  function NatToString(n: nat): (s: string)
    ensures |s| >= 1
    ensures forall i :: 0 <= i < |s| ==> '0' <= s[i] <= '9'
    ensures n > 0 ==> s[0] != '0'
  {
    if n < 10 then [DigitChar(n)] else NatToString(n / 10) + [DigitChar(n % 10)]
  }

  /** The number a string of decimal digits denotes. */
  function DigitsValue(s: string): nat
    requires forall i :: 0 <= i < |s| ==> '0' <= s[i] <= '9'
  {
    if s == [] then 0 else DigitsValue(s[..|s| - 1]) * 10 + (s[|s| - 1] as int - '0' as int)
  }

  lemma {:induction false} NatToStringRoundTrip(n: nat)
    ensures DigitsValue(NatToString(n)) == n
  {
    if n >= 10 {
      var s := NatToString(n);
      assert s[..|s| - 1] == NatToString(n / 10);
      NatToStringRoundTrip(n / 10);
    }
  }

  /** A count of tenths written with one decimal: 15 tenths is "1.5". */
  function TenthsText(t: nat): (r: string)
    ensures |r| >= 3 && r[|r| - 2] == '.' && '0' <= r[|r| - 1] <= '9'
    ensures forall i :: 0 <= i < |r| - 2 ==> '0' <= r[i] <= '9'
  {
    NatToString(t / 10) + "." + [DigitChar(t % 10)]
  }

  /** `(w / 100).toFixed(1)` over integer weights: the quotient is rounded to tenths,
      halves away from zero, and a negative quotient gets a leading minus. */
  function WeightText(w: int): (r: string)
    ensures |r| >= 3 && r[|r| - 2] == '.' && '0' <= r[|r| - 1] <= '9'
    ensures w >= 0 ==> forall i :: 0 <= i < |r| - 2 ==> '0' <= r[i] <= '9'
    ensures w < 0 ==> r[0] == '-' && forall i :: 1 <= i < |r| - 2 ==> '0' <= r[i] <= '9'
  {
    if w < 0 then "-" + TenthsText((-w + 5) / 10) else TenthsText((w + 5) / 10)
  }

  /** For a non-negative weight that is a multiple of ten the text is exact: its integer
      part and its one decimal digit together denote w / 10 tenths, i.e. w / 100. */
  lemma WeightTextExact(w: int)
    requires w >= 0 && w % 10 == 0
    ensures var s := WeightText(w);
      && |s| >= 3 && s[|s| - 2] == '.'
      && (forall i :: 0 <= i < |s| - 2 ==> '0' <= s[i] <= '9')
      && DigitsValue(s[..|s| - 2]) * 10 + (s[|s| - 1] as int - '0' as int) == w / 10
  {
    var t := (w + 5) / 10;
    assert t == w / 10;
    var s := WeightText(w);
    assert s[..|s| - 2] == NatToString(t / 10);
    NatToStringRoundTrip(t / 10);
  }

  /** The weight 150 renders as "1.5". */
  lemma WeightText150()
    ensures WeightText(150) == "1.5"
  {
  }
}
