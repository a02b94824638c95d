/**
  The string conversions the services rely on: `Number.prototype.toString()`
  on a natural number, the global `parseInt` without a radix, and the
  `split(...)` selections used for file extensions and data URLs.
 */
module Text {
  import opened Types

  predicate IsDigit(c: char) {
    '0' <= c <= '9'
  }

  function DigitValue(c: char): (d: nat)
    requires IsDigit(c)
    ensures d < 10
  {
    c as int - '0' as int
  }

  function DigitChar(d: nat): (c: char)
    requires d < 10
    ensures IsDigit(c) && DigitValue(c) == d
  {
    ('0' as int + d) as char
  }

  /** Decimal rendering of a natural number, as `n.toString()`. */
  function NatToString(n: nat): (s: string)
    ensures |s| >= 1
    ensures forall k :: 0 <= k < |s| ==> IsDigit(s[k])
    ensures s[0] == '0' ==> n == 0
    decreases n
  {
    if n < 10 then [DigitChar(n)] else NatToString(n / 10) + [DigitChar(n % 10)]
  }

  /** The value of a string of decimal digits. */
  function DecimalValue(s: string): nat
    requires forall k :: 0 <= k < |s| ==> IsDigit(s[k])
  {
    if s == [] then 0
    else 10 * DecimalValue(s[..|s| - 1]) + DigitValue(s[|s| - 1])
  }

  lemma {:induction false} DecimalValueOfNatToString(n: nat)
    ensures DecimalValue(NatToString(n)) == n
    decreases n
  {
    var s := NatToString(n);
    if n >= 10 {
      DecimalValueOfNatToString(n / 10);
      assert s[..|s| - 1] == NatToString(n / 10);
    }
  }

  /** Decimal rendering is injective, so names built from distinct numbers are distinct. */
  lemma NatToStringInjective(a: nat, b: nat)
    ensures NatToString(a) == NatToString(b) ==> a == b
  {
    if NatToString(a) == NatToString(b) {
      DecimalValueOfNatToString(a);
      DecimalValueOfNatToString(b);
    }
  }

  // ---------------------------------------------------------------------
  // parseInt(s) with no radix argument

  /** The white-space characters that parseInt skips (the Unicode space separators beyond these are not modelled). */
  predicate IsJsSpace(c: char) {
    c == ' ' || c == '\t' || c == '\n' || c == '\r' || c == '\U{0B}' || c == '\U{0C}'
    || c == '\U{A0}' || c == '\U{FEFF}' || c == '\U{2028}' || c == '\U{2029}'
  }

  function TrimStart(s: string): (r: string)
    ensures |r| <= |s| && r == s[|s| - |r|..]
    ensures r != [] ==> !IsJsSpace(r[0])
    ensures forall k :: 0 <= k < |s| - |r| ==> IsJsSpace(s[k])
  {
    if s != [] && IsJsSpace(s[0]) then
      var r := TrimStart(s[1..]);
      assert forall k :: 1 <= k < |s| ==> s[k] == s[1..][k - 1];
      r
    else s
  }

  predicate IsHexDigit(c: char) {
    IsDigit(c) || 'a' <= c <= 'f' || 'A' <= c <= 'F'
  }

  function HexDigitValue(c: char): (d: nat)
    requires IsHexDigit(c)
    ensures d < 16
  {
    if IsDigit(c) then DigitValue(c)
    else if 'a' <= c <= 'f' then c as int - 'a' as int + 10
    else c as int - 'A' as int + 10
  }

  /** The longest prefix of s whose characters all satisfy the digit class of the radix. */
  function DigitPrefix(s: string, hex: bool): (p: string)
    ensures |p| <= |s| && p == s[..|p|]
    ensures forall k :: 0 <= k < |p| ==> (if hex then IsHexDigit(p[k]) else IsDigit(p[k]))
    ensures |p| < |s| ==> !(if hex then IsHexDigit(s[|p|]) else IsDigit(s[|p|]))
  {
    if s != [] && (if hex then IsHexDigit(s[0]) else IsDigit(s[0]))
    then [s[0]] + DigitPrefix(s[1..], hex)
    else []
  }

  function HexValue(s: string): nat
    requires forall k :: 0 <= k < |s| ==> IsHexDigit(s[k])
  {
    if s == [] then 0 else 16 * HexValue(s[..|s| - 1]) + HexDigitValue(s[|s| - 1])
  }

  predicate HasHexPrefix(s: string) {
    |s| >= 2 && s[0] == '0' && (s[1] == 'x' || s[1] == 'X')
  }

  /** The magnitude parseInt reads after the sign: `None` stands for NaN. */
  function UnsignedValue(s: string): (r: Option<nat>)
    ensures r.Some? ==> s != [] && IsDigit(s[0])
  {
    if HasHexPrefix(s) then
      var p := DigitPrefix(s[2..], true);
      if p == [] then None else Some(HexValue(p))
    else
      var p := DigitPrefix(s, false);
      if p == [] then None else Some(DecimalValue(p))
  }

  /**
    parseInt(s): skip leading white space, read an optional sign, switch to
    radix 16 after a `0x`/`0X` prefix, and read the longest digit prefix;
    `None` is NaN. A negative zero reads as 0.
   */
  function ParseInt(s: string): (r: Option<int>)
    ensures r.Some? ==> exists k :: 0 <= k < |s| && IsDigit(s[k])
    ensures r.Some? && r.value < 0 ==> '-' in s
  {
    var t := TrimStart(s);
    var neg := t != [] && t[0] == '-';
    var body := if t != [] && (t[0] == '-' || t[0] == '+') then t[1..] else t;
    match UnsignedValue(body)
    case None => None
    case Some(v) =>
      var n: int := if neg then -(v as int) else v;
      Some(n)
  }

  /** A string made only of decimal digits is read in full. */
  lemma {:induction false} DigitPrefixOfDigits(s: string)
    requires forall k :: 0 <= k < |s| ==> IsDigit(s[k])
    ensures DigitPrefix(s, false) == s
  {
    if s != [] {
      DigitPrefixOfDigits(s[1..]);
    }
  }

  /** A non-empty string of decimal digits is not a hexadecimal literal. */
  lemma DigitsNotHex(s: string)
    requires |s| >= 1 && forall k :: 0 <= k < |s| ==> IsDigit(s[k])
    ensures !HasHexPrefix(s)
  {
    if |s| >= 2 {
      assert IsDigit(s[1]);
    }
  }

  /** A string that starts with a digit has no white space to skip. */
  lemma TrimStartOfDigit(s: string)
    requires s != [] && IsDigit(s[0])
    ensures TrimStart(s) == s
  {
  }

  /** The magnitude of a non-empty string of decimal digits is its decimal value. */
  lemma UnsignedOfDigits(s: string)
    requires |s| >= 1 && forall k :: 0 <= k < |s| ==> IsDigit(s[k])
    ensures UnsignedValue(s) == Some(DecimalValue(s))
  {
    DigitsNotHex(s);
    DigitPrefixOfDigits(s);
  }

  /** parseInt reads a non-empty string of decimal digits in full. */
  lemma ParseIntOfDigits(s: string)
    requires |s| >= 1 && forall k :: 0 <= k < |s| ==> IsDigit(s[k])
    ensures ParseInt(s) == Some(DecimalValue(s) as int)
  {
    assert IsDigit(s[0]);
    TrimStartOfDigit(s);
    UnsignedOfDigits(s);
  }

  /** parseInt reads back every decimal rendering: `parseInt(n.toString()) == n`. */
  lemma ParseIntOfNatToString(n: nat)
    ensures ParseInt(NatToString(n)) == Some(n)
  {
    ParseIntOfDigits(NatToString(n));
    DecimalValueOfNatToString(n);
  }

  // ---------------------------------------------------------------------
  // split(...) selections

  /** `s.split(sep).pop()`: the text after the last separator, or all of s when it has none. */
  function AfterLast(s: string, sep: char): (r: string)
    ensures sep !in r
    ensures |r| <= |s| && r == s[|s| - |r|..]
    ensures |r| < |s| ==> s[|s| - |r| - 1] == sep
    ensures sep !in s ==> r == s
  {
    if s == [] then []
    else if s[|s| - 1] == sep then []
    else AfterLast(s[..|s| - 1], sep) + [s[|s| - 1]]
  }

  lemma ConcatAssoc<T>(a: seq<T>, b: seq<T>, c: seq<T>)
    ensures a + (b + c) == a + b + c
  {
  }

  /** The text after the last separator of `head + sep + tail` is tail, when tail has no separator. */
  lemma AfterLastOf(head: string, sep: char, tail: string)
    requires sep !in tail
    ensures AfterLast(head + ([sep] + tail), sep) == tail
  {
    var s := head + ([sep] + tail);
    var r := AfterLast(s, sep);
    SuffixWithout(s, |head|, r);
    assert forall k :: |head| < k < |s| ==> s[k] == tail[k - |head| - 1];
    assert s[|s| - |tail|..] == tail;
  }

  /** A suffix that does not contain the element at position i starts after i. */
  lemma SuffixWithout<T>(s: seq<T>, i: nat, r: seq<T>)
    requires i < |s| && |r| <= |s| && r == s[|s| - |r|..] && s[i] !in r
    ensures |r| < |s| - i
  {
    assert forall k :: 0 <= k < |r| ==> r[k] == s[|s| - |r| + k];
  }

  /** `s.split(sep)[1]`: the text between the first and the second separator; `None` (undefined) when there is no separator. */
  function SecondField(s: string, sep: char): (r: Option<string>)
    ensures r.None? <==> sep !in s
  {
    if sep !in s then None else Some(UpTo(AfterFirst(s, sep), sep))
  }

  /** The text after the first separator. */
  function AfterFirst(s: string, sep: char): (r: string)
    requires sep in s
    ensures |r| < |s|
  {
    if s[0] == sep then s[1..] else AfterFirst(s[1..], sep)
  }

  /** The text before the first separator, or all of s. */
  function UpTo(s: string, sep: char): (r: string)
    ensures sep !in r && |r| <= |s| && r == s[..|r|]
    ensures |r| < |s| ==> s[|r|] == sep
  {
    if s == [] || s[0] == sep then [] else [s[0]] + UpTo(s[1..], sep)
  }

  /** Splitting `head + sep + field + sep + rest` (head and field free of sep) yields field as the second part. */
  lemma {:induction false} SecondFieldOf(head: string, field: string, rest: string, sep: char)
    requires sep !in head && sep !in field
    requires rest == [] || rest[0] == sep
    ensures SecondField(head + [sep] + field + rest, sep) == Some(field)
  {
    var s := head + [sep] + field + rest;
    AfterFirstOf(head, field + rest, sep);
    assert s == head + [sep] + (field + rest);
    UpToOf(field, rest, sep);
  }

  lemma {:induction false} UpToOf(field: string, rest: string, sep: char)
    requires sep !in field
    requires rest == [] || rest[0] == sep
    ensures UpTo(field + rest, sep) == field
  {
    if field != [] {
      assert (field + rest)[1..] == field[1..] + rest;
      UpToOf(field[1..], rest, sep);
    }
  }

  lemma {:induction false} AfterFirstOf(head: string, tail: string, sep: char)
    requires sep !in head
    ensures sep in head + [sep] + tail
    ensures AfterFirst(head + [sep] + tail, sep) == tail
  {
    var s := head + [sep] + tail;
    assert s[|head|] == sep;
    if head != [] {
      assert s[1..] == head[1..] + [sep] + tail;
      AfterFirstOf(head[1..], tail, sep);
    }
  }

  // ---------------------------------------------------------------------
  // substrings

  /** `s.includes(part)`. */
  predicate Contains(s: string, part: string) {
    exists k :: 0 <= k <= |s| - |part| && s[k..][..|part|] == part
  }

  /** A string built around a part contains it. */
  lemma ContainsMiddle(before: string, part: string, after: string)
    ensures Contains(before + part + after, part)
  {
    var s := before + part + after;
    assert s[|before|..][..|part|] == part;
  }
}
