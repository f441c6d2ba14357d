/**
 * The JSONPath forms the templates use: `$.` followed by dot-separated
 * segments, each a member name optionally followed by one `[index]`, as in
 * `$.description` and `$.choices[0].message.content`. A path evaluates to its
 * first match; a missing member or index has no match.
 */
module JsonPath {
  import opened Wrappers
  import opened Strings
  import opened JsonData

  datatype Segment =
    | Field(name: string)              // `.name`
    | Index(name: string, index: nat)  // `.name[index]`

  /** A character of a member name after the first: a letter, a digit, `_`, `@` or `-`. */
  predicate NameChar(c: char) {
    ('a' <= c <= 'z') || ('A' <= c <= 'Z') || ('0' <= c <= '9') || c == '_' || c == '@' || c == '-'
  }

  /** A member name as jsonpath_ng's lexer reads one: a letter, `_` or `@`, then name characters. */
  predicate ValidName(n: string) {
    && n != []
    && (('a' <= n[0] <= 'z') || ('A' <= n[0] <= 'Z') || n[0] == '_' || n[0] == '@')
    && forall k :: 0 <= k < |n| ==> NameChar(n[k])
  }

  /** So a name holds none of the path's punctuation. */
  lemma NamePunctuation(n: string)
    requires ValidName(n)
    ensures '.' !in n && '[' !in n && ']' !in n
  {
    forall k | 0 <= k < |n| ensures n[k] != '.' && n[k] != '[' && n[k] != ']' {
      assert NameChar(n[k]);
    }
  }

  predicate ValidPath(path: seq<Segment>) {
    path != [] && forall i :: 0 <= i < |path| ==> ValidName(path[i].name)
  }

  /** `s.split(c)`. */
  function Split(s: string, c: char): (r: seq<string>)
    ensures |r| >= 1
  {
    if s == [] then [""]
    else
      var rest := Split(s[1..], c);
      if s[0] == c then [""] + rest else [[s[0]] + rest[0]] + rest[1..]
  }

  /** `c.join(pieces)`. */
  function Join(pieces: seq<string>, c: char): string
    requires pieces != []
  {
    if |pieces| == 1 then pieces[0] else pieces[0] + [c] + Join(pieces[1..], c)
  }

  /** The index of the first occurrence of `c` in `s`, or `|s|`. */
  function Find1(s: string, c: char): (k: nat)
    ensures k <= |s| && c !in s[..k]
    ensures k < |s| ==> s[k] == c
  {
    if s == [] then 0 else if s[0] == c then 0 else 1 + Find1(s[1..], c)
  }

  /** One segment of a path. */
  function ParseSegment(p: string): (r: Result<Segment>)
    ensures r.Ok? ==> ValidName(r.value.name)
  {
    var k := Find1(p, '[');
    if k == |p| then
      if ValidName(p) then Ok(Field(p)) else Err("bad segment: " + p)
    else if p[|p| - 1] == ']' && k < |p| - 1 && ValidName(p[..k])
         && p[k + 1..|p| - 1] != [] && AllDigits(p[k + 1..|p| - 1]) then
      Ok(Index(p[..k], DigitsValue(p[k + 1..|p| - 1])))
    else Err("bad segment: " + p)
  }

  function ParseSegments(pieces: seq<string>): (r: Result<seq<Segment>>)
    ensures r.Ok? ==> |r.value| == |pieces| && forall i :: 0 <= i < |r.value| ==> ValidName(r.value[i].name)
  {
    if pieces == [] then Ok([])
    else
      var head := ParseSegment(pieces[0]);
      var tail := ParseSegments(pieces[1..]);
      if head.Err? then Err(head.msg)
      else if tail.Err? then Err(tail.msg)
      else Ok([head.value] + tail.value)
  }

  /** `jsonpath_parse(path)`, restricted to the template forms. */
  function Parse(path: string): (r: Result<seq<Segment>>)
    ensures r.Ok? ==> ValidPath(r.value)
  {
    if !StartsWith(path, "$.") then Err("unsupported path: " + path)
    else ParseSegments(Split(path[2..], '.'))
  }

  function RenderSegment(s: Segment): string {
    match s
    case Field(n) => n
    case Index(n, i) => n + "[" + NatToString(i) + "]"
  }

  function RenderSegments(path: seq<Segment>): seq<string> {
    if path == [] then [] else [RenderSegment(path[0])] + RenderSegments(path[1..])
  }

  /** The text of a path. */
  function Render(path: seq<Segment>): string
    requires path != []
  {
    "$." + Join(RenderSegments(path), '.')
  }

  /** The first match of a path in a document, if any. */
  function Find(j: Json, path: seq<Segment>): Option<Json>
    decreases |path|
  {
    if path == [] then Some(j)
    else
      var v := Member(j, path[0].name);
      match path[0]
      case Field(_) => if v.None? then None else Find(v.value, path[1..])
      case Index(_, i) =>
        if v.Some? && v.value.JArr? && i < |v.value.items| then Find(v.value.items[i], path[1..]) else None
  }

  /** Splitting at a separator absent from the first piece. */
  lemma {:induction false} SplitAfter(w: string, c: char, t: string)
    requires c !in w
    ensures Split(w + [c] + t, c) == [w] + Split(t, c)
  {
    if w == [] {
      assert w + [c] + t == [c] + t;
      assert ([c] + t)[1..] == t;
    } else {
      SplitAfter(w[1..], c, t);
      assert (w + [c] + t)[1..] == w[1..] + [c] + t;
      assert [w[0]] + w[1..] == w;
    }
  }

  /** A string free of the separator is one piece. */
  lemma {:induction false} SplitNone(w: string, c: char)
    requires c !in w
    ensures Split(w, c) == [w]
  {
    if w != [] {
      SplitNone(w[1..], c);
      assert [w[0]] + w[1..] == w;
    }
  }

  /** Splitting undoes joining when no piece holds the separator. */
  lemma {:induction false} SplitJoin(pieces: seq<string>, c: char)
    requires pieces != []
    requires forall i :: 0 <= i < |pieces| ==> c !in pieces[i]
    ensures Split(Join(pieces, c), c) == pieces
  {
    if |pieces| == 1 {
      SplitNone(pieces[0], c);
    } else {
      SplitJoin(pieces[1..], c);
      SplitAfter(pieces[0], c, Join(pieces[1..], c));
    }
  }

  /** Each rendered segment parses back to itself. */
  lemma SegmentRoundTrip(s: Segment)
    requires ValidName(s.name)
    ensures ParseSegment(RenderSegment(s)) == Ok(s)
    ensures '.' !in RenderSegment(s)
  {
    match s
    case Field(n) =>
    case Index(n, i) =>
      var p := RenderSegment(s);
      var digits := NatToString(i);
      assert p == n + ['['] + digits + [']'];
      assert p[..|n|] == n;
      assert p[|n|] == '[';
      assert Find1(p, '[') == |n| by {
        FirstOccurrence(p, '[', |n|);
      }
      assert p[|n| + 1..|p| - 1] == digits;
      DigitsValueOfNat(i);
      forall k | 0 <= k < |p| ensures p[k] != '.' {
        if k < |n| {
          assert p[k] == n[k];
        } else if |n| < k < |p| - 1 {
          assert p[k] == digits[k - |n| - 1];
        }
      }
  }

  /** `Find1` stops at the first occurrence. */
  lemma {:induction false} FirstOccurrence(s: string, c: char, k: nat)
    requires k < |s| && s[k] == c && c !in s[..k]
    ensures Find1(s, c) == k
  {
    if k > 0 {
      assert s[1..][..k - 1] == s[..k][1..];
      FirstOccurrence(s[1..], c, k - 1);
    }
  }

  lemma {:induction false} SegmentsRoundTrip(path: seq<Segment>)
    requires forall i :: 0 <= i < |path| ==> ValidName(path[i].name)
    ensures |RenderSegments(path)| == |path|
    ensures forall i :: 0 <= i < |path| ==> RenderSegments(path)[i] == RenderSegment(path[i])
    ensures ParseSegments(RenderSegments(path)) == Ok(path)
  {
    if path != [] {
      SegmentsRoundTrip(path[1..]);
      SegmentRoundTrip(path[0]);
      var r := RenderSegments(path);
      assert r[1..] == RenderSegments(path[1..]);
      assert [path[0]] + path[1..] == path;
    }
  }

  /** Parsing undoes rendering: every valid path has one text, read back exactly. */
  lemma ParseRender(path: seq<Segment>)
    requires ValidPath(path)
    ensures Parse(Render(path)) == Ok(path)
  {
    var pieces := RenderSegments(path);
    SegmentsRoundTrip(path);
    forall i | 0 <= i < |pieces| ensures '.' !in pieces[i] {
      SegmentRoundTrip(path[i]);
    }
    var text := Render(path);
    assert text[2..] == Join(pieces, '.');
    SplitJoin(pieces, '.');
  }

  /** The characters a parsed path can hold after `$.`: name characters and the path's punctuation. */
  predicate PathChar(c: char) {
    NameChar(c) || c == '.' || c == '[' || c == ']'
  }

  /**
   * Every path that parses holds nothing but name characters, dots and
   * brackets after `$.`: wildcards, unions, quoted names, filters and blanks
   * are all rejected.
   */
  lemma ParseRejectsOtherCharacters(path: string)
    requires Parse(path).Ok?
    ensures StartsWith(path, "$.")
    ensures forall k :: 2 <= k < |path| ==> PathChar(path[k])
  {
    var rest := path[2..];
    var pieces := Split(rest, '.');
    SegmentsOk(pieces);
    SplitCovers(rest, '.');
    forall k | 2 <= k < |path| ensures PathChar(path[k]) {
      assert path[k] == rest[k - 2];
      if rest[k - 2] != '.' {
        assert InSomePiece(pieces, rest[k - 2]);
        var i, m :| 0 <= i < |pieces| && 0 <= m < |pieces[i]| && pieces[i][m] == rest[k - 2];
        SegmentChars(pieces[i]);
      }
    }
  }

  /** `x` is a character of one of the pieces. */
  predicate InSomePiece(pieces: seq<string>, x: char) {
    exists i, m :: 0 <= i < |pieces| && 0 <= m < |pieces[i]| && pieces[i][m] == x
  }

  /** Every character of a string is the separator or a character of one of its pieces. */
  lemma {:induction false} SplitCovers(s: string, c: char)
    ensures forall k :: 0 <= k < |s| && s[k] != c ==> InSomePiece(Split(s, c), s[k])
  {
    if s != [] {
      var rest := Split(s[1..], c);
      SplitCovers(s[1..], c);
      var r := Split(s, c);
      forall k | 0 <= k < |s| && s[k] != c
        ensures InSomePiece(r, s[k])
      {
        if k == 0 {
          assert r[0][0] == s[0];
        } else {
          assert s[k] == s[1..][k - 1];
          assert InSomePiece(rest, s[k]);
          var i, m :| 0 <= i < |rest| && 0 <= m < |rest[i]| && rest[i][m] == s[k];
          if s[0] == c {
            assert r[i + 1] == rest[i];
          } else if i == 0 {
            assert r[0][m + 1] == rest[0][m];
          } else {
            assert r[i] == rest[i];
          }
        }
      }
    }
  }

  /** A segment that parses holds only name characters and brackets. */
  lemma SegmentChars(p: string)
    requires ParseSegment(p).Ok?
    ensures forall m :: 0 <= m < |p| ==> PathChar(p[m])
  {
    var k := Find1(p, '[');
    if k < |p| {
      forall m | 0 <= m < |p| ensures PathChar(p[m]) {
        if m < k {
          assert p[m] == p[..k][m];
        } else if k < m < |p| - 1 {
          assert p[m] == p[k + 1..|p| - 1][m - k - 1];
        }
      }
    }
  }

  /** Segments that parse together each parse on their own. */
  lemma {:induction false} SegmentsOk(pieces: seq<string>)
    requires ParseSegments(pieces).Ok?
    ensures forall i :: 0 <= i < |pieces| ==> ParseSegment(pieces[i]).Ok?
  {
    if pieces != [] {
      SegmentsOk(pieces[1..]);
      forall i | 1 <= i < |pieces| ensures ParseSegment(pieces[i]).Ok? {
        assert pieces[i] == pieces[1..][i - 1];
      }
    }
  }

  /** A one-member path `$.n` parses as that member. */
  lemma FieldPath(text: string, n: string)
    requires ValidName(n) && text == "$." + n
    ensures Parse(text) == Ok([Field(n)])
  {
    assert text[..2] == "$." && text[2..] == n;
    SplitNone(n, '.');
    assert Find1(n, '[') == |n|;
    assert ParseSegment(n) == Ok(Field(n));
    assert [n][1..] == [];
    assert ParseSegments([n][1..]) == Ok([]);
    assert [Field(n)] + [] == [Field(n)];
  }

  /** A one-member path finds the member. */
  lemma FindField(j: Json, n: string)
    ensures Find(j, [Field(n)]) == Member(j, n)
  {
    assert [Field(n)][1..] == [];
  }

  /** Following a path in two parts is following it whole. */
  lemma {:induction false} FindAppend(j: Json, p: seq<Segment>, q: seq<Segment>)
    ensures Find(j, p + q) == if Find(j, p).Some? then Find(Find(j, p).value, q) else None
    decreases |p|
  {
    if p != [] {
      assert (p + q)[0] == p[0] && (p + q)[1..] == p[1..] + q;
      var v := Member(j, p[0].name);
      match p[0]
      case Field(_) =>
        if v.Some? {
          FindAppend(v.value, p[1..], q);
        }
      case Index(_, i) =>
        if v.Some? && v.value.JArr? && i < |v.value.items| {
          FindAppend(v.value.items[i], p[1..], q);
        }
    } else {
      assert p + q == q;
    }
  }
}
