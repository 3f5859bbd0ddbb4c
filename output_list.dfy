/** The parser both scripts apply to AppleScript's output:
    `[x.strip() for x in stdout.split(',') if x.strip()]`.

    `Split` is Python's `str.split(',')`, `Strip` is `str.strip()` with no
    argument, and `ParseList` is the whole comprehension. */
module OutputList {

  /** Python's `str.isspace` for one character: exactly the characters that
      `str.strip()` removes from either end. */
  predicate IsSpace(c: char) {
    || c == ' '
    || ('\t' <= c <= '\r')
    || ('\U{1C}' <= c <= '\U{1F}')
    || c == '\U{85}'
    || c == '\U{A0}'
    || c == '\U{1680}'
    || ('\U{2000}' <= c <= '\U{200A}')
    || c == '\U{2028}'
    || c == '\U{2029}'
    || c == '\U{202F}'
    || c == '\U{205F}'
    || c == '\U{3000}'
  }

  predicate AllSpace(s: string) {
    forall i :: 0 <= i < |s| ==> IsSpace(s[i])
  }

  /** No whitespace at either end. */
  predicate IsStripped(s: string) {
    s == [] || (!IsSpace(s[0]) && !IsSpace(s[|s| - 1]))
  }

  /** What the parser may return: non-empty, stripped, and free of the separator. */
  predicate IsItem(s: string) {
    s != [] && IsStripped(s) && ',' !in s
  }

  /** `s` without its leading whitespace (see `TrimLeftSpec`). */
  function TrimLeft(s: string): string {
    if s != [] && IsSpace(s[0]) then TrimLeft(s[1..]) else s
  }

  /** `TrimLeft(s)` is the longest suffix of `s` that does not start with
      whitespace: what it drops is whitespace, what it keeps is the rest of
      `s` unchanged. */
  lemma {:induction false} TrimLeftSpec(s: string)
    ensures var r := TrimLeft(s);
      && |r| <= |s| && r == s[|s| - |r|..]
      && AllSpace(s[..|s| - |r|])
      && (r == [] || !IsSpace(r[0]))
  {
    if s != [] && IsSpace(s[0]) {
      TrimLeftSpec(s[1..]);
      var r := TrimLeft(s[1..]);
      assert s[..|s| - |r|] == [s[0]] + s[1..][..|s| - 1 - |r|];
    }
  }

  /** `s` without its trailing whitespace (see `TrimRightSpec`). */
  function TrimRight(s: string): string {
    if s != [] && IsSpace(s[|s| - 1]) then TrimRight(s[..|s| - 1]) else s
  }

  /** `TrimRight(s)` is the longest prefix of `s` that does not end with
      whitespace. */
  lemma {:induction false} TrimRightSpec(s: string)
    ensures var r := TrimRight(s);
      && |r| <= |s| && r == s[..|r|]
      && AllSpace(s[|r|..])
      && (r == [] || !IsSpace(r[|r| - 1]))
  {
    if s != [] && IsSpace(s[|s| - 1]) {
      var t := s[..|s| - 1];
      TrimRightSpec(t);
      var r := TrimRight(t);
      assert s[|r|..] == t[|r|..] + [s[|s| - 1]];
    }
  }

  /** Python's `str.strip()`. */
  function Strip(s: string): string {
    TrimRight(TrimLeft(s))
  }

  /** The result of `Strip` has no whitespace at either end, and a string
      that has none is left as it is. */
  lemma StripSpec(s: string)
    ensures IsStripped(Strip(s))
    ensures IsStripped(s) ==> Strip(s) == s
  {
    TrimLeftSpec(s);
    TrimRightSpec(TrimLeft(s));
  }

  /** Stripping leaves nothing exactly when `s` is all whitespace. */
  lemma StripEmptyIffAllSpace(s: string)
    ensures Strip(s) == [] <==> AllSpace(s)
  {
    var l := TrimLeft(s);
    TrimLeftSpec(s);
    TrimRightSpec(l);
    assert l[0..] == l;
    assert l != [] ==> l[0] == s[|s| - |l|];
    assert s == s[..|s| - |l|] + l;
  }

  /** Stripping only removes characters: whatever is in the result was in `s`. */
  lemma StripKeepsCharacters(s: string)
    ensures forall c :: c in Strip(s) ==> c in s
  {
    var l := TrimLeft(s);
    TrimLeftSpec(s);
    TrimRightSpec(l);
    assert forall c :: c in TrimRight(l) ==> c in l;
    assert forall c :: c in l ==> c in s;
  }

  /** Every string is its stripped form with whitespace around it. */
  lemma StripUnpads(s: string) returns (w1: string, w2: string)
    ensures AllSpace(w1) && AllSpace(w2) && s == w1 + Strip(s) + w2
  {
    var t := TrimLeft(s);
    TrimLeftSpec(s);
    TrimRightSpec(t);
    var r := TrimRight(t);
    w1, w2 := s[..|s| - |t|], t[|r|..];
    assert s == w1 + t;
    assert t == r + w2;
  }

  /** Python's `s.split(',')`: the fields between the commas, left to right,
      empty ones included; `"".split(',')` is `[""]`. */
  function Split(s: string): (fields: seq<string>)
    ensures |fields| >= 1
    ensures forall i :: 0 <= i < |fields| ==> ',' !in fields[i]
    ensures Join(fields, ",") == s
  {
    if s == [] then [""]
    else
      var rest := Split(s[1..]);
      if s[0] == ',' then
        assert ([""] + rest)[1..] == rest;
        [""] + rest
      else
        var fields := [[s[0]] + rest[0]] + rest[1..];
        assert fields[1..] == rest[1..];
        assert s == [s[0]] + s[1..];
        fields
  }

  /** Python's `sep.join(xs)`. */
  function Join(xs: seq<string>, sep: string): string {
    if |xs| == 0 then ""
    else if |xs| == 1 then xs[0]
    else xs[0] + sep + Join(xs[1..], sep)
  }

  /** The filtering half of the comprehension: strip each field, keep the
      non-empty results in order. */
  function Clean(fields: seq<string>): (items: seq<string>)
    ensures |items| <= |fields|
    ensures forall i :: 0 <= i < |items| ==> items[i] != [] && IsStripped(items[i])
  {
    if fields == [] then []
    else
      var head := Strip(fields[0]);
      StripSpec(fields[0]);
      (if head == [] then [] else [head]) + Clean(fields[1..])
  }

  /** `[x.strip() for x in stdout.split(',') if x.strip()]`. */
  function ParseList(stdout: string): (items: seq<string>)
    ensures forall i :: 0 <= i < |items| ==> IsItem(items[i])
  {
    CleanKeepsCommaFree(Split(stdout));
    Clean(Split(stdout))
  }

  lemma {:induction false} CleanKeepsCommaFree(fields: seq<string>)
    requires forall i :: 0 <= i < |fields| ==> ',' !in fields[i]
    ensures forall i :: 0 <= i < |Clean(fields)| ==> ',' !in Clean(fields)[i]
  {
    if fields != [] {
      StripKeepsCharacters(fields[0]);
      CleanKeepsCommaFree(fields[1..]);
    }
  }

  /** Splitting distributes over a comma: the fields of `a + "," + b` are the
      fields of `a` followed by the fields of `b`. */
  lemma {:induction false} SplitAppend(a: string, b: string)
    ensures Split(a + "," + b) == Split(a) + Split(b)
  {
    if a == [] {
      assert a + "," + b == [','] + b;
      assert ([','] + b)[1..] == b;
    } else {
      assert (a + "," + b)[0] == a[0];
      assert (a + "," + b)[1..] == a[1..] + "," + b;
      SplitAppend(a[1..], b);
    }
  }

  lemma {:induction false} CleanAppend(f: seq<string>, g: seq<string>)
    ensures Clean(f + g) == Clean(f) + Clean(g)
  {
    if f == [] {
      assert f + g == g;
    } else {
      assert (f + g)[0] == f[0];
      assert (f + g)[1..] == f[1..] + g;
      CleanAppend(f[1..], g);
    }
  }

  /** The parser keeps the left-to-right order of the comma-separated fields:
      the items of `a + "," + b` are those of `a` followed by those of `b`. */
  lemma ParseListAppend(a: string, b: string)
    ensures ParseList(a + "," + b) == ParseList(a) + ParseList(b)
  {
    SplitAppend(a, b);
    CleanAppend(Split(a), Split(b));
  }

  /** Leading whitespace before a field does not change what it parses to. */
  lemma ParseListLeadingSpace(c: char, s: string)
    requires IsSpace(c)
    ensures ParseList([c] + s) == ParseList(s)
  {
    assert ([c] + s)[1..] == s;
    assert TrimLeft([c] + s) == TrimLeft(s);
    var rest := Split(s);
    assert Split([c] + s) == [[c] + rest[0]] + rest[1..];
    assert rest == [rest[0]] + rest[1..];
    assert Clean(rest) == Clean([rest[0]] + rest[1..]);
  }

  lemma {:induction false} SplitCommaFree(s: string)
    requires ',' !in s
    ensures Split(s) == [s]
  {
    if s != [] {
      assert s == [s[0]] + s[1..];
      SplitCommaFree(s[1..]);
    }
  }

  /** Round trip: a list of items written out the way AppleScript prints a
      list (`, ` between them) parses back to the same list. */
  lemma {:induction false} ParseJoinRoundTrip(xs: seq<string>)
    requires forall i :: 0 <= i < |xs| ==> IsItem(xs[i])
    ensures ParseList(Join(xs, ", ")) == xs
  {
    if |xs| == 0 {
      assert Split("") == [""];
    } else if |xs| == 1 {
      SplitCommaFree(xs[0]);
    } else {
      var tail := Join(xs[1..], ", ");
      assert Join(xs, ", ") == xs[0] + "," + ([' '] + tail);
      ParseListAppend(xs[0], [' '] + tail);
      SplitCommaFree(xs[0]);
      ParseListLeadingSpace(' ', tail);
      ParseJoinRoundTrip(xs[1..]);
    }
  }

  /** An item that itself contains a comma cannot survive a round trip: it
      comes back as something else (a URL with a comma in it is split). */
  lemma CommaItemDoesNotRoundTrip(x: string)
    requires ',' in x
    ensures ParseList(x) != [x]
  {
    var items := ParseList(x);
    assert |items| == 1 ==> IsItem(items[0]) && items[0] != x;
  }

  /** Stripping ignores whitespace added at either end. */
  lemma {:induction false} TrimLeftPadding(w: string, s: string)
    requires AllSpace(w)
    ensures TrimLeft(w + s) == TrimLeft(s)
  {
    if w != [] {
      assert (w + s)[1..] == w[1..] + s;
      TrimLeftPadding(w[1..], s);
    } else {
      assert w + s == s;
    }
  }

  lemma {:induction false} TrimRightPadding(s: string, w: string)
    requires AllSpace(w)
    ensures TrimRight(s + w) == TrimRight(s)
  {
    if w != [] {
      var n := |w| - 1;
      assert (s + w)[..|s + w| - 1] == s + w[..n];
      TrimRightPadding(s, w[..n]);
    } else {
      assert s + w == s;
    }
  }

  lemma {:induction false} TrimLeftAppend(s: string, w: string)
    ensures TrimLeft(s + w) == if TrimLeft(s) == [] then TrimLeft(w) else TrimLeft(s) + w
  {
    if s == [] {
      assert s + w == w;
    } else {
      assert (s + w)[0] == s[0];
      assert (s + w)[1..] == s[1..] + w;
      TrimLeftAppend(s[1..], w);
    }
  }

  lemma StripPadding(w1: string, s: string, w2: string)
    requires AllSpace(w1) && AllSpace(w2)
    ensures Strip(w1 + s + w2) == Strip(s)
  {
    assert w1 + s + w2 == w1 + (s + w2);
    TrimLeftPadding(w1, s + w2);
    TrimLeftAppend(s, w2);
    if TrimLeft(s) == [] {
      TrimLeftPadding(w2, "");
      assert w2 + "" == w2;
    } else {
      TrimRightPadding(TrimLeft(s), w2);
    }
  }
}
