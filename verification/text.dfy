/** The Python string operations the program relies on: `str.strip`,
    `str.lower`, `str.upper`, `str.startswith`, the `in` operator on strings
    and `str.replace(p, "")`. Strings are sequences of code points. */
module Text {

  /** `c.isspace()` for a single code point: Python's whitespace set. */
  predicate IsSpace(c: char) {
    || ('\t' <= c <= '\r')
    || ('\U{1C}' <= c <= ' ')
    || c == '\U{85}' || c == '\U{A0}' || c == '\U{1680}'
    || ('\U{2000}' <= c <= '\U{200A}')
    || c == '\U{2028}' || c == '\U{2029}' || c == '\U{202F}'
    || c == '\U{205F}' || c == '\U{3000}'
  }

  /** Neither end of `s` is whitespace. */
  predicate IsStripped(s: string) {
    s == [] || (!IsSpace(s[0]) && !IsSpace(s[|s| - 1]))
  }

  predicate AllSpace(s: string) {
    forall k :: 0 <= k < |s| ==> IsSpace(s[k])
  }

  /** `s.strip()`: drops whitespace from both ends until neither end is
      whitespace; empty exactly when `s` is all whitespace. */
  function Strip(s: string): (r: string)
    ensures IsStripped(r)
    ensures |r| <= |s|
    ensures r == [] <==> AllSpace(s)
    decreases |s|
  {
    if s == [] then s
    else if IsSpace(s[0]) then
      assert forall k :: 1 <= k < |s| ==> s[1..][k - 1] == s[k];
      Strip(s[1..])
    else if IsSpace(s[|s| - 1]) then
      assert forall k :: 0 <= k < |s| - 1 ==> s[..|s| - 1][k] == s[k];
      Strip(s[..|s| - 1])
    else s
  }

  /** `r` is found in `s` at offset `i`, with only whitespace before and
      after it. */
  predicate IsPaddedSlice(s: string, i: nat, r: string) {
    && i + |r| <= |s| && r == s[i..i + |r|]
    && AllSpace(s[..i]) && AllSpace(s[i + |r|..])
  }

  /** What `Strip` drops is whitespace, and what it keeps is a contiguous
      slice of `s` found at offset `i`. */
  lemma {:induction false} StripIsSlice(s: string) returns (i: nat)
    ensures IsPaddedSlice(s, i, Strip(s))
    decreases |s|
  {
    var r := Strip(s);
    if s == [] {
      i := 0;
    } else if IsSpace(s[0]) {
      var j := StripIsSlice(s[1..]);
      assert r == Strip(s[1..]);
      SliceAfterSpace(s, j, r);
      i := j + 1;
    } else if IsSpace(s[|s| - 1]) {
      i := StripIsSlice(s[..|s| - 1]);
      assert r == Strip(s[..|s| - 1]);
      SliceBeforeSpace(s, i, r);
    } else {
      i := 0;
      assert r == s[0..|s|];
    }
  }

  /** A slice of `s[1..]` with only whitespace around it stays one, one
      place further on, in `s` when `s[0]` is whitespace. */
  lemma SliceAfterSpace(s: string, j: nat, r: string)
    requires s != [] && IsSpace(s[0])
    requires IsPaddedSlice(s[1..], j, r)
    ensures IsPaddedSlice(s, j + 1, r)
  {
    var t := s[1..];
    assert t[j..j + |r|] == s[j + 1..j + 1 + |r|];
    assert s[..j + 1] == [s[0]] + t[..j];
    AllSpaceConcat([s[0]], t[..j]);
    assert t[j + |r|..] == s[j + 1 + |r|..];
  }

  /** A slice of `s[..|s| - 1]` with only whitespace around it stays one in
      `s` when the last character of `s` is whitespace. */
  lemma SliceBeforeSpace(s: string, i: nat, r: string)
    requires s != [] && IsSpace(s[|s| - 1])
    requires IsPaddedSlice(s[..|s| - 1], i, r)
    ensures IsPaddedSlice(s, i, r)
  {
    var t := s[..|s| - 1];
    assert t[i..i + |r|] == s[i..i + |r|];
    assert t[..i] == s[..i];
    assert s[i + |r|..] == t[i + |r|..] + [s[|s| - 1]];
    AllSpaceConcat(t[i + |r|..], [s[|s| - 1]]);
  }

  lemma AllSpaceConcat(a: string, b: string)
    requires AllSpace(a) && AllSpace(b)
    ensures AllSpace(a + b)
  {
  }

  /** A string with no whitespace at either end is its own strip. */
  lemma StripOfStripped(s: string)
    requires IsStripped(s)
    ensures Strip(s) == s
  {
  }

  /** Stripping twice is stripping once. */
  lemma StripIdempotent(s: string)
    ensures Strip(Strip(s)) == Strip(s)
  {
    StripOfStripped(Strip(s));
  }

  /** Surrounding whitespace is exactly what `Strip` removes: a string with no
      whitespace at its ends comes back from any padding unchanged. */
  lemma StripPadded(pad: string, s: string, pad': string)
    requires AllSpace(pad) && AllSpace(pad')
    requires IsStripped(s)
    ensures Strip(pad + s + pad') == s
  {
    if s == [] {
      var u := pad + pad';
      assert pad + s + pad' == u;
      AllSpaceConcat(pad, pad');
      assert |Strip(u)| == 0;
    } else {
      StripPaddedText(pad, s, pad');
    }
  }

  lemma {:induction false} StripPaddedText(pad: string, s: string, pad': string)
    requires AllSpace(pad) && AllSpace(pad')
    requires s != [] && IsStripped(s)
    ensures Strip(pad + s + pad') == s
    decreases |pad| + |pad'|
  {
    var t := pad + s + pad';
    if pad != [] {
      var rest := pad[1..] + s + pad';
      StripFront(t, rest);
      StripPaddedText(pad[1..], s, pad');
    } else if pad' != [] {
      var rest := s + pad'[..|pad'| - 1];
      assert t == rest + [pad'[|pad'| - 1]];
      StripBack(t, rest);
      assert rest == pad + s + pad'[..|pad'| - 1];
      StripPaddedText(pad, s, pad'[..|pad'| - 1]);
    } else {
      assert t == s;
    }
  }

  /** Leading whitespace is dropped first. */
  lemma StripFront(t: string, rest: string)
    requires t != [] && IsSpace(t[0]) && t[1..] == rest
    ensures Strip(t) == Strip(rest)
  {
  }

  /** Trailing whitespace is dropped once the front is not whitespace. */
  lemma StripBack(t: string, rest: string)
    requires t != [] && !IsSpace(t[0]) && IsSpace(t[|t| - 1]) && t[..|t| - 1] == rest
    ensures Strip(t) == Strip(rest)
  {
  }

  /** `c.lower()` for ASCII letters; every other code point is unchanged. */
  function LowerChar(c: char): char {
    if 'A' <= c <= 'Z' then (c as int + 32) as char else c
  }

  /** `c.upper()` for ASCII letters; every other code point is unchanged. */
  function UpperChar(c: char): char {
    if 'a' <= c <= 'z' then (c as int - 32) as char else c
  }

  function Lower(s: string): (r: string)
    ensures |r| == |s|
    ensures forall k :: 0 <= k < |s| ==> r[k] == LowerChar(s[k])
  {
    seq(|s|, k requires 0 <= k < |s| => LowerChar(s[k]))
  }

  function Upper(s: string): (r: string)
    ensures |r| == |s|
    ensures forall k :: 0 <= k < |s| ==> r[k] == UpperChar(s[k])
  {
    seq(|s|, k requires 0 <= k < |s| => UpperChar(s[k]))
  }

  /** A lower-cased string has no ASCII capital left, and only ASCII
      capitals were changed. */
  lemma LowerSpec(s: string)
    ensures forall k :: 0 <= k < |s| ==> !('A' <= Lower(s)[k] <= 'Z')
    ensures forall k :: 0 <= k < |s| ==> Lower(s)[k] == s[k] || 'A' <= s[k] <= 'Z'
  {
  }

  /** Lower-casing is idempotent: a lower-cased string has no upper-case
      ASCII letters left. */
  lemma LowerIdempotent(s: string)
    ensures Lower(Lower(s)) == Lower(s)
  {
  }

  /** Upper-casing is idempotent. */
  lemma UpperIdempotent(s: string)
    ensures Upper(Upper(s)) == Upper(s)
  {
  }

  /** Lower-casing forgets any earlier upper-casing: `s.upper().lower()` is
      `s.lower()`. */
  lemma LowerOfUpper(s: string)
    ensures Lower(Upper(s)) == Lower(s)
  {
  }

  /** `s.startswith(p)`. */
  predicate StartsWith(s: string, p: string) {
    |p| <= |s| && s[..|p|] == p
  }

  /** `p` occurs in `s` at offset `i`. */
  predicate OccursAt(s: string, p: string, i: int) {
    0 <= i <= |s| - |p| && s[i..i + |p|] == p
  }

  /** `p in s`, searched from the left. */
  predicate Contains(s: string, p: string)
    ensures Contains(s, p) ==> |p| <= |s|
    decreases |s|
  {
    StartsWith(s, p) || (s != [] && Contains(s[1..], p))
  }

  /** `p in s` holds exactly when `p` occurs at some offset of `s`. */
  lemma {:induction false} ContainsIff(s: string, p: string)
    ensures Contains(s, p) <==> exists i :: OccursAt(s, p, i)
    decreases |s|
  {
    if StartsWith(s, p) {
      assert OccursAt(s, p, 0);
    } else if s == [] {
    } else {
      ContainsIff(s[1..], p);
      if exists i :: OccursAt(s, p, i) {
        var i :| OccursAt(s, p, i);
        assert i != 0;
        assert s[1..][i - 1..i - 1 + |p|] == s[i..i + |p|];
        assert OccursAt(s[1..], p, i - 1);
      }
      if Contains(s[1..], p) {
        var j :| OccursAt(s[1..], p, j);
        assert s[j + 1..j + 1 + |p|] == s[1..][j..j + |p|];
        assert OccursAt(s, p, j + 1);
      }
    }
  }

  /** `s.replace(p, "")`: every non-overlapping occurrence of `p`, found from
      the left, is removed. The string is unchanged exactly when there is no
      occurrence to remove, and otherwise shrinks by at least `|p|`. */
  function RemoveAll(s: string, p: string): (r: string)
    ensures |r| <= |s|
    ensures p == [] || !Contains(s, p) ==> r == s
    ensures p != [] && Contains(s, p) ==> |r| <= |s| - |p|
    decreases |s|
  {
    if p == [] || |s| < |p| then s
    else if s[..|p|] == p then RemoveAll(s[|p|..], p)
    else [s[0]] + RemoveAll(s[1..], p)
  }

  /** Removal scans from the left: when `p` does not occur at any offset
      inside `a`, the first occurrence is the one right after `a`, and the
      scan goes on with what follows it. */
  lemma {:induction false} RemoveAllAfter(a: string, p: string, b: string)
    requires p != []
    requires forall i :: 0 <= i < |a| ==> !OccursAt(a + p + b, p, i)
    ensures RemoveAll(a + p + b, p) == a + RemoveAll(b, p)
    decreases |a|
  {
    var s := a + p + b;
    if a == [] {
      assert s == p + b;
      assert s[0..|p|] == p;
      assert s[|p|..] == b;
      RemoveAllSkip(s, p, b);
    } else {
      assert !OccursAt(s, p, 0);
      var rest := a[1..] + p + b;
      assert s[1..] == rest;
      RemoveAllKeep(s, p, rest);
      NoOccurrenceInTail(a, p, b);
      RemoveAllAfter(a[1..], p, b);
      var r := RemoveAll(b, p);
      assert RemoveAll(s, p) == [a[0]] + (a[1..] + r);
      ConsTail(a, r);
    }
  }

  lemma ConsTail(a: string, r: string)
    requires a != []
    ensures [a[0]] + (a[1..] + r) == a + r
  {
    assert a == [a[0]] + a[1..];
  }

  /** An occurrence at the front is dropped. */
  lemma RemoveAllSkip(s: string, p: string, rest: string)
    requires p != [] && OccursAt(s, p, 0) && s[|p|..] == rest
    ensures RemoveAll(s, p) == RemoveAll(rest, p)
  {
  }

  /** Without an occurrence at the front, the first character is kept. */
  lemma RemoveAllKeep(s: string, p: string, rest: string)
    requires p != [] && s != [] && !OccursAt(s, p, 0) && s[1..] == rest
    ensures RemoveAll(s, p) == [s[0]] + RemoveAll(rest, p)
  {
  }

  lemma NoOccurrenceInTail(a: string, p: string, b: string)
    requires a != []
    requires forall i :: 0 <= i < |a| ==> !OccursAt(a + p + b, p, i)
    ensures forall i :: 0 <= i < |a| - 1 ==> !OccursAt(a[1..] + p + b, p, i)
  {
    var s := a + p + b;
    forall i | 0 <= i < |a| - 1
      ensures !OccursAt(a[1..] + p + b, p, i)
    {
      assert !OccursAt(s, p, i + 1);
      assert (a[1..] + p + b)[i..i + |p|] == s[i + 1..i + 1 + |p|];
    }
  }
}
