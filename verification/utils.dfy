/** `transcription_concat` (utils.py:42-43): the transcriptions, each
    stripped, joined with single spaces. */
module Utils {
  import opened Text

  /** `sep.join(parts)`. */
  function Join(sep: string, parts: seq<string>): string
    decreases |parts|
  {
    if |parts| == 0 then ""
    else if |parts| == 1 then parts[0]
    else Join(sep, parts[..|parts| - 1]) + sep + parts[|parts| - 1]
  }

  /** The total length of the parts. */
  function TotalLength(parts: seq<string>): nat
    decreases |parts|
  {
    if parts == [] then 0 else TotalLength(parts[..|parts| - 1]) + |parts[|parts| - 1]|
  }

  lemma JoinSnoc(sep: string, parts: seq<string>, x: string)
    requires parts != []
    ensures Join(sep, parts + [x]) == Join(sep, parts) + sep + x
  {
    assert (parts + [x])[..|parts|] == parts;
  }

  /** A space-join of one or more parts is as long as the parts plus one
      space between each pair. */
  lemma {:induction false} JoinLength(parts: seq<string>)
    requires parts != []
    ensures |Join(" ", parts)| == TotalLength(parts) + |parts| - 1
    decreases |parts|
  {
    if |parts| > 1 {
      JoinLength(parts[..|parts| - 1]);
    }
  }

  /** The join of the first `n` parts is a prefix of the join of all of
      them, followed by the separator when parts remain. */
  lemma {:induction false} JoinPrefix(sep: string, parts: seq<string>, n: nat)
    requires 1 <= n <= |parts|
    ensures |Join(sep, parts[..n])| <= |Join(sep, parts)|
    ensures Join(sep, parts)[..|Join(sep, parts[..n])|] == Join(sep, parts[..n])
    ensures n < |parts| ==>
      |Join(sep, parts[..n])| + |sep| <= |Join(sep, parts)| &&
      Join(sep, parts)[|Join(sep, parts[..n])|..|Join(sep, parts[..n])| + |sep|] == sep
    decreases |parts|
  {
    if n == |parts| {
      assert parts[..n] == parts;
    } else {
      var prefix := parts[..|parts| - 1];
      var p := Join(sep, prefix);
      var r := Join(sep, parts);
      assert r == p + sep + parts[|parts| - 1];
      assert r[..|p|] == p;
      assert r[|p|..|p| + |sep|] == sep;
      assert prefix[..n] == parts[..n];
      if n < |prefix| {
        JoinPrefix(sep, prefix, n);
        var q := Join(sep, parts[..n]);
        assert r[..|q|] == p[..|q|];
        assert r[|q|..|q| + |sep|] == p[|q|..|q| + |sep|];
      }
    }
  }

  /** Part `i` of a space-join starts after the parts before it and one
      space after each of them. */
  lemma JoinAt(parts: seq<string>, i: nat)
    requires i < |parts|
    ensures TotalLength(parts[..i]) + i + |parts[i]| <= |Join(" ", parts)|
    ensures Join(" ", parts)[TotalLength(parts[..i]) + i..TotalLength(parts[..i]) + i + |parts[i]|] == parts[i]
  {
    var upto := parts[..i + 1];
    var p := Join(" ", upto);
    var r := Join(" ", parts);
    JoinPrefix(" ", parts, i + 1);
    JoinLength(upto);
    assert upto[..i] == parts[..i];
    assert TotalLength(upto) == TotalLength(parts[..i]) + |parts[i]|;
    assert |p| == TotalLength(parts[..i]) + i + |parts[i]|;
    if i == 0 {
      assert upto == [parts[0]];
    } else {
      assert upto == parts[..i] + [parts[i]];
      JoinSnoc(" ", parts[..i], parts[i]);
    }
    var a := |p| - |parts[i]|;
    assert p[a..] == parts[i];
    assert r[..|p|] == p;
    assert r[a..|p|] == p[a..];
  }

  /** `[t.strip() for t in xs]`. */
  function StripEach(xs: seq<string>): (ys: seq<string>)
    ensures |ys| == |xs|
    ensures forall i :: 0 <= i < |xs| ==> ys[i] == Strip(xs[i])
  {
    seq(|xs|, i requires 0 <= i < |xs| => Strip(xs[i]))
  }

  function TranscriptionConcat(xs: seq<string>): string {
    Join(" ", StripEach(xs))
  }

  /** Where the `i`-th stripped transcription starts in the result. */
  function Offset(xs: seq<string>, i: nat): nat
    requires i <= |xs|
  {
    TotalLength(StripEach(xs)[..i]) + i
  }

  /** No transcriptions give the empty string. */
  lemma ConcatEmpty()
    ensures TranscriptionConcat([]) == ""
  {
  }

  /** A single transcription comes back stripped. */
  lemma ConcatSingle(t: string)
    ensures TranscriptionConcat([t]) == Strip(t)
  {
  }

  /** Appending a transcription to a non-empty list appends a space and the
      stripped transcription to the result. */
  lemma ConcatSnoc(xs: seq<string>, y: string)
    requires xs != []
    ensures TranscriptionConcat(xs + [y]) == TranscriptionConcat(xs) + " " + Strip(y)
  {
    assert StripEach(xs + [y]) == StripEach(xs) + [Strip(y)];
    JoinSnoc(" ", StripEach(xs), Strip(y));
  }

  /** For one or more transcriptions, the result is exactly as long as the
      stripped transcriptions plus one separating space between each pair. */
  lemma ConcatLength(xs: seq<string>)
    requires xs != []
    ensures |TranscriptionConcat(xs)| == TotalLength(StripEach(xs)) + |xs| - 1
  {
    JoinLength(StripEach(xs));
  }

  /** Every stripped transcription appears in the result at its offset. */
  lemma ConcatAt(xs: seq<string>, i: nat)
    requires i < |xs|
    ensures Offset(xs, i) + |Strip(xs[i])| <= |TranscriptionConcat(xs)|
    ensures TranscriptionConcat(xs)[Offset(xs, i)..Offset(xs, i) + |Strip(xs[i])|] == Strip(xs[i])
  {
    var parts := StripEach(xs);
    JoinAt(parts, i);
    var start, end := Offset(xs, i), Offset(xs, i) + |Strip(xs[i])|;
    assert start == TotalLength(parts[..i]) + i;
    assert parts[i] == Strip(xs[i]);
    assert end == TotalLength(parts[..i]) + i + |parts[i]|;
    assert TranscriptionConcat(xs)[start..end] == Strip(xs[i]);
  }

  /** In a space-join, part `i` (not the last) is followed by a space. */
  lemma JoinGap(parts: seq<string>, i: nat)
    requires i < |parts| - 1
    ensures TotalLength(parts[..i + 1]) == TotalLength(parts[..i]) + |parts[i]|
    ensures TotalLength(parts[..i]) + i + |parts[i]| < |Join(" ", parts)|
    ensures Join(" ", parts)[TotalLength(parts[..i]) + i + |parts[i]|] == ' '
  {
    var upto := parts[..i + 1];
    assert upto[..i] == parts[..i];
    JoinPrefix(" ", parts, i + 1);
    JoinLength(upto);
    assert |upto| - 1 == i;
    var q := Join(" ", upto);
    var r := Join(" ", parts);
    assert r[|q|..|q| + 1] == " ";
    assert r[|q|] == r[|q|..|q| + 1][0];
  }

  /** The transcriptions appear in input order: each but the last is
      followed by one space and then by the next one. */
  lemma ConcatGap(xs: seq<string>, i: nat)
    requires i < |xs| - 1
    ensures Offset(xs, i + 1) == Offset(xs, i) + |Strip(xs[i])| + 1
    ensures Offset(xs, i + 1) <= |TranscriptionConcat(xs)|
    ensures TranscriptionConcat(xs)[Offset(xs, i) + |Strip(xs[i])|] == ' '
  {
    var parts := StripEach(xs);
    JoinGap(parts, i);
    var k := Offset(xs, i) + |Strip(xs[i])|;
    assert Offset(xs, i) == TotalLength(parts[..i]) + i;
    assert parts[i] == Strip(xs[i]);
    assert k == TotalLength(parts[..i]) + i + |parts[i]|;
    assert Offset(xs, i + 1) == TotalLength(parts[..i + 1]) + i + 1;
    assert TranscriptionConcat(xs)[k] == ' ';
  }
}
