/** Python's `int(s)` on a string, base 10, as `_parse_int` and
    `_parse_optional_int` use it (config.py:148, 176): surrounding whitespace
    is ignored, an optional sign may lead, and the digits may be grouped by
    single underscores. Only ASCII digits are modelled.

    `int` has its own idea of whitespace: a code point below 127 is skipped
    only when it is one of tab through carriage return or the space, and a
    code point above is skipped when `str.isspace` holds for it. So the four
    separators U+001C to U+001F, which `str.strip` removes, stay and make
    the string fail to parse. */
module Numerals {
  import opened Wrappers
  import opened Text

  predicate IsDigit(c: char) {
    '0' <= c <= '9'
  }

  function DigitChar(n: nat): (c: char)
    requires n < 10
    ensures IsDigit(c)
  {
    ('0' as int + n) as char
  }

  /** Digits separated by single underscores: no underscore at either end and
      none directly after another. */
  predicate WellFormedDigits(d: string) {
    && d != []
    && IsDigit(d[0]) && IsDigit(d[|d| - 1])
    && (forall i :: 0 <= i < |d| ==> IsDigit(d[i]) || d[i] == '_')
    && (forall i :: 0 <= i < |d| - 1 ==> d[i] == '_' ==> IsDigit(d[i + 1]))
  }

  /** The number the digits spell, most significant first; underscores are
      skipped. */
  function Value(d: string): nat
    requires forall i :: 0 <= i < |d| ==> IsDigit(d[i]) || d[i] == '_'
    decreases |d|
  {
    if d == [] then 0
    else if d[|d| - 1] == '_' then Value(d[..|d| - 1])
    else 10 * Value(d[..|d| - 1]) + DigitValue(d[|d| - 1])
  }

  function DigitValue(c: char): nat
    requires IsDigit(c)
  {
    c as int - '0' as int
  }

  /** The whitespace `int` skips around a number. */
  predicate IsIntSpace(c: char) {
    IsSpace(c) && !('\U{1C}' <= c <= '\U{1F}')
  }

  predicate AllIntSpace(s: string) {
    forall k :: 0 <= k < |s| ==> IsIntSpace(s[k])
  }

  /** Neither end of `s` is whitespace to `int`. */
  predicate IsIntStripped(s: string) {
    s == [] || (!IsIntSpace(s[0]) && !IsIntSpace(s[|s| - 1]))
  }

  /** The surrounding whitespace `int` drops before reading the number. */
  function TrimInt(s: string): (r: string)
    ensures IsIntStripped(r)
    ensures |r| <= |s|
    ensures r == [] <==> AllIntSpace(s)
    decreases |s|
  {
    if s == [] then s
    else if IsIntSpace(s[0]) then
      assert forall k :: 1 <= k < |s| ==> s[1..][k - 1] == s[k];
      TrimInt(s[1..])
    else if IsIntSpace(s[|s| - 1]) then
      assert forall k :: 0 <= k < |s| - 1 ==> s[..|s| - 1][k] == s[k];
      TrimInt(s[..|s| - 1])
    else s
  }

  /** `int(s)`: `None` stands for the `ValueError` Python raises. */
  function ParseInt(s: string): (r: Option<int>)
    ensures r.Some? ==> !AllIntSpace(s)
  {
    ParseStripped(TrimInt(s))
  }

  /** `int` once the surrounding whitespace is gone: an optional sign, then
      the digits. */
  function ParseStripped(t: string): (r: Option<int>)
    ensures r.Some? ==> t != []
  {
    if t != [] && (t[0] == '-' || t[0] == '+') then
      var d := t[1..];
      if WellFormedDigits(d) then
        var v: int := Value(d);
        Some(if t[0] == '-' then -v else v)
      else None
    else if WellFormedDigits(t) then Some(Value(t))
    else None
  }

  /** The decimal digits of `n`, without leading zeros. */
  function NatToDigits(n: nat): (d: string)
    ensures d != []
    ensures forall i :: 0 <= i < |d| ==> IsDigit(d[i])
    ensures |d| > 1 ==> d[0] != '0'
    decreases n
  {
    if n < 10 then [DigitChar(n)] else NatToDigits(n / 10) + [DigitChar(n % 10)]
  }

  /** `str(n)`. */
  function IntToString(n: int): (s: string)
    ensures s != [] && IsDigit(s[|s| - 1])
    ensures (s[0] == '-') == (n < 0)
  {
    if n < 0 then "-" + NatToDigits(-n) else NatToDigits(n)
  }

  lemma {:induction false} NatToDigitsValue(n: nat)
    ensures Value(NatToDigits(n)) == n
    decreases n
  {
    if n >= 10 {
      var d := NatToDigits(n);
      assert d[..|d| - 1] == NatToDigits(n / 10);
      NatToDigitsValue(n / 10);
    }
  }

  /** `int(str(n)) == n` for every integer. */
  lemma ParseIntRoundTrip(n: int)
    ensures ParseInt(IntToString(n)) == Some(n)
  {
    IntToStringStripped(n);
    ParseSpelling(n);
  }

  /** The spelling of an integer has no whitespace at either end. */
  lemma IntToStringStripped(n: int)
    ensures IsIntStripped(IntToString(n))
  {
    var s := IntToString(n);
    DigitNotSpace(s[|s| - 1]);
    if s[0] != '-' {
      DigitNotSpace(s[0]);
    }
  }

  lemma DigitNotSpace(c: char)
    requires IsDigit(c)
    ensures !IsSpace(c)
  {
  }

  /** Sign and digits of the spelling read back as the integer. */
  lemma ParseSpelling(n: int)
    ensures ParseStripped(IntToString(n)) == Some(n)
  {
    var m: nat := if n < 0 then -n else n;
    var d := NatToDigits(m);
    NatToDigitsValue(m);
    assert WellFormedDigits(d);
    var s := IntToString(n);
    if n < 0 {
      assert s[1..] == d;
    } else {
      assert s == d;
    }
  }

  /** Whitespace around a number is ignored: `int(" 42\n") == 42`. */
  lemma ParseIntIgnoresPadding(pad: string, s: string, pad': string)
    requires AllIntSpace(pad) && AllIntSpace(pad')
    requires IsIntStripped(s)
    ensures ParseInt(pad + s + pad') == ParseInt(s)
  {
    if s == [] {
      assert pad + s + pad' == pad + pad';
      assert AllIntSpace(pad + pad');
    } else {
      TrimIntPadded(pad, s, pad');
    }
  }

  lemma {:induction false} TrimIntPadded(pad: string, s: string, pad': string)
    requires AllIntSpace(pad) && AllIntSpace(pad')
    requires s != [] && IsIntStripped(s)
    ensures TrimInt(pad + s + pad') == s
    decreases |pad| + |pad'|
  {
    var t := pad + s + pad';
    if pad != [] {
      var rest := pad[1..] + s + pad';
      assert t[0] == pad[0];
      assert t[1..] == rest;
      TrimIntPadded(pad[1..], s, pad');
    } else if pad' != [] {
      var rest := s + pad'[..|pad'| - 1];
      assert t == rest + [pad'[|pad'| - 1]];
      assert t[0] == s[0];
      assert t[..|t| - 1] == rest;
      assert rest == pad + s + pad'[..|pad'| - 1];
      TrimIntPadded(pad, s, pad'[..|pad'| - 1]);
    } else {
      assert t == s;
    }
  }

  /** The spelling of any integer, padded with whitespace, parses back to
      it; the empty string does not parse. */
  lemma ParsePaddedInt(pad: string, n: int, pad': string)
    requires AllIntSpace(pad) && AllIntSpace(pad')
    ensures ParseInt(pad + IntToString(n) + pad') == Some(n)
    ensures ParseInt("") == None
  {
    var s := IntToString(n);
    IntToStringStripped(n);
    ParseIntIgnoresPadding(pad, s, pad');
    ParseIntRoundTrip(n);
  }

  /** A file, group, record or unit separator (U+001C to U+001F) in front of
      a number is not whitespace to `int`: the string does not parse, though
      `str.strip` would have removed the separator. */
  lemma ParseIntRejectsSeparators(c: char, s: string)
    requires '\U{1C}' <= c <= '\U{1F}'
    ensures ParseInt([c] + s) == None
    ensures IsSpace(c)
  {
    var t := [c] + s;
    assert t[0] == c;
    assert TrimInt(t) != [] ==> TrimInt(t)[0] == c by {
      if TrimInt(t) != [] {
        TrimIntKeepsFront(t);
      }
    }
  }

  /** When the first character is not whitespace to `int`, the trim keeps
      it in front. */
  lemma {:induction false} TrimIntKeepsFront(t: string)
    requires t != [] && !IsIntSpace(t[0])
    ensures TrimInt(t) != [] && TrimInt(t)[0] == t[0]
    decreases |t|
  {
    if IsIntSpace(t[|t| - 1]) {
      var rest := t[..|t| - 1];
      assert rest != [] && rest[0] == t[0];
      TrimIntKeepsFront(rest);
    }
  }

  /** Every integer `int` accepts is spelt with digits, after an optional
      sign: a string without an ASCII digit is never a number. */
  lemma ParseIntNeedsDigit(s: string)
    requires forall i :: 0 <= i < |s| ==> !IsDigit(s[i])
    ensures ParseInt(s) == None
  {
    var t := TrimInt(s);
    TrimIntNoDigit(s);
    if t != [] && (t[0] == '-' || t[0] == '+') && |t| > 1 {
      assert t[1..][0] == t[1];
    }
  }

  /** Trimming brings in no digit. */
  lemma {:induction false} TrimIntNoDigit(s: string)
    requires forall i :: 0 <= i < |s| ==> !IsDigit(s[i])
    ensures forall i :: 0 <= i < |TrimInt(s)| ==> !IsDigit(TrimInt(s)[i])
    decreases |s|
  {
    if s != [] && IsIntSpace(s[0]) {
      assert forall i :: 0 <= i < |s| - 1 ==> s[1..][i] == s[i + 1];
      TrimIntNoDigit(s[1..]);
    } else if s != [] && IsIntSpace(s[|s| - 1]) {
      assert forall i :: 0 <= i < |s| - 1 ==> s[..|s| - 1][i] == s[i];
      TrimIntNoDigit(s[..|s| - 1]);
    }
  }
}
