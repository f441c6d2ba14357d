/**
 * How a template turns a task into an HTTP request and a reply into a result:
 * the body built from a body mapping, the result pulled out by a result path,
 * and the URL joined from endpoint and path.
 */
module RequestMapping {
  import opened Wrappers
  import opened Strings
  import opened JsonData
  import opened JsonPath

  /** A string the body builder reads as a path into the input. */
  predicate IsPlaceholder(v: Json) {
    v.JStr? && StartsWith(v.s, "$.")
  }

  /** The first match of a placeholder in the input, or null when nothing matches. */
  function Lookup(path: string, input: Json): (r: Result<Json>)
    ensures r.Err? <==> Parse(path).Err?
    ensures r.Ok? && Find(input, Parse(path).value).Some? ==> r.value == Find(input, Parse(path).value).value
    ensures r.Ok? && Find(input, Parse(path).value).None? ==> r.value == JNull
  {
    var p := Parse(path);
    if p.Err? then Err(p.msg)
    else
      var found := Find(input, p.value);
      if found.Some? then Ok(found.value) else Ok(JNull)
  }

  /**
   * The value built for one mapping entry: a placeholder is looked up, a
   * dict is rebuilt, a list has its dict items rebuilt, anything else is
   * copied.
   */
  function BuildValue(v: Json, input: Json): (r: Result<Json>)
    ensures r.Ok? && !IsPlaceholder(v) && !v.JObj? && !v.JArr? ==> r.value == v
    decreases v, 2, 0
  {
    match v
    case JObj(_) =>
      var fs := BuildFields(v, 0, input);
      if fs.Err? then Err(fs.msg) else Ok(JObj(fs.value))
    case JArr(items) =>
      var built := BuildItems(v, 0, input);
      if built.Err? then Err(built.msg) else Ok(JArr(built.value))
    case JStr(s) =>
      if StartsWith(s, "$.") then Lookup(s, input) else Ok(v)
    case _ => Ok(v)
  }

  /** The entries of a dict mapping from position `i` on, keys unchanged and in order. */
  function BuildFields(m: Json, i: nat, input: Json): (r: Result<Fields>)
    requires m.JObj? && i <= |m.fields|
    ensures r.Ok? ==> Keys(r.value) == Keys(m.fields[i..])
    decreases m, 1, |m.fields| - i
  {
    if i == |m.fields| then Ok([])
    else
      var (key, value) := m.fields[i];
      assert m.fields[i] in m.fields;
      var built := BuildValue(value, input);
      var rest := BuildFields(m, i + 1, input);
      if built.Err? then Err(built.msg)
      else if rest.Err? then Err(rest.msg)
      else
        assert m.fields[i..] == [m.fields[i]] + m.fields[i + 1..];
        Ok([(key, built.value)] + rest.value)
  }

  /** The items of a list mapping from position `i` on: dicts rebuilt, the rest copied. */
  function BuildItems(l: Json, i: nat, input: Json): (r: Result<seq<Json>>)
    requires l.JArr? && i <= |l.items|
    ensures r.Ok? ==> |r.value| == |l.items| - i
    ensures r.Ok? ==> forall k :: i <= k < |l.items| && !l.items[k].JObj? ==> r.value[k - i] == l.items[k]
    ensures i < |l.items| && l.items[i].JObj? && BuildFields(l.items[i], 0, input).Err? ==>
              r == Err(BuildFields(l.items[i], 0, input).msg)
    decreases l, 1, |l.items| - i
  {
    if i == |l.items| then Ok([])
    else
      var item := l.items[i];
      var head: Result<Json> := if item.JObj? then
          var fs := BuildFields(item, 0, input);
          if fs.Err? then Err(fs.msg) else Ok(JObj(fs.value))
        else Ok(item);
      var rest := BuildItems(l, i + 1, input);
      if head.Err? then Err(head.msg)
      else if rest.Err? then Err(rest.msg)
      else Ok([head.value] + rest.value)
  }

  /** `_build_request_body(body_mapping, input_data)`; a mapping that is not a dict raises. */
  function BuildRequestBody(mapping: Json, input: Json): (r: Result<Json>)
    ensures !mapping.JObj? ==> r.Err?
    ensures r.Ok? ==> r.value.JObj? && Keys(r.value.fields) == Keys(mapping.fields)
  {
    if !mapping.JObj? then Err("body mapping is not a dict")
    else
      var fs := BuildFields(mapping, 0, input);
      assert mapping.fields[0..] == mapping.fields;
      if fs.Err? then Err(fs.msg) else Ok(JObj(fs.value))
  }

  /** The value a mapping entry gets, entry by entry. */
  lemma {:induction false} BuildFieldsAt(m: Json, i: nat, input: Json, k: nat)
    requires m.JObj? && i <= k < |m.fields|
    requires BuildFields(m, i, input).Ok?
    ensures BuildValue(m.fields[k].1, input).Ok?
    ensures BuildFields(m, i, input).value[k - i] == (m.fields[k].0, BuildValue(m.fields[k].1, input).value)
    decreases k - i, 1
  {
    if i == k {
      BuildFieldsUnfold(m, i, input);
    } else {
      BuildFieldsAtLater(m, i, input, k);
    }
  }

  lemma {:induction false} BuildFieldsAtLater(m: Json, i: nat, input: Json, k: nat)
    requires m.JObj? && i < k < |m.fields|
    requires BuildFields(m, i, input).Ok?
    ensures BuildValue(m.fields[k].1, input).Ok?
    ensures BuildFields(m, i, input).value[k - i] == (m.fields[k].0, BuildValue(m.fields[k].1, input).value)
    decreases k - i, 0
  {
    BuildFieldsTail(m, i, input, k - i - 1);
    BuildFieldsAt(m, i + 1, input, k);
  }

  /** A built entry list is the first entry, built, then the rest. */
  lemma BuildFieldsUnfold(m: Json, i: nat, input: Json)
    requires m.JObj? && i < |m.fields|
    requires BuildFields(m, i, input).Ok?
    ensures BuildValue(m.fields[i].1, input).Ok? && BuildFields(m, i + 1, input).Ok?
    ensures BuildFields(m, i, input).value[0] == (m.fields[i].0, BuildValue(m.fields[i].1, input).value)
  {
  }

  /** Past the first entry, the built list is the rest built. */
  lemma BuildFieldsTail(m: Json, i: nat, input: Json, j: nat)
    requires m.JObj? && i < |m.fields| && j < |m.fields| - i - 1
    requires BuildFields(m, i, input).Ok?
    ensures BuildFields(m, i + 1, input).Ok?
    ensures BuildFields(m, i, input).value[j + 1] == BuildFields(m, i + 1, input).value[j]
  {
  }

  /**
   * The body's entries: a placeholder becomes its first match (or null), a
   * value that is neither a placeholder nor a container is copied.
   */
  lemma BodyEntries(mapping: Json, input: Json, k: nat)
    requires mapping.JObj? && k < |mapping.fields|
    requires BuildRequestBody(mapping, input).Ok?
    ensures var (key, v) := mapping.fields[k];
      var out := BuildRequestBody(mapping, input).value.fields[k];
      && out.0 == key
      && (IsPlaceholder(v) ==> Lookup(v.s, input) == Ok(out.1))
      && (!IsPlaceholder(v) && !v.JObj? && !v.JArr? ==> out.1 == v)
  {
    BuildFieldsAt(mapping, 0, input, k);
  }

  /** What `_extract_response_data` returns: the first match, or the dump of the whole reply. */
  datatype Extracted =
    | Found(value: Json)
    | DumpOf(response: Json)  // `json.dumps(response)`; the text itself is not modelled

  /**
   * `_extract_response_data`: the result path defaults to `$.result`; no
   * match falls back to the whole reply. A mapping that is not a dict, or a
   * path that is not a string or does not parse, raises.
   */
  function ExtractResponseData(response: Json, responseMapping: Json): (r: Result<Extracted>)
    ensures responseMapping.JObj? && !HasKey(responseMapping.fields, "result_path") ==>
      r == ExtractAt(response, "$.result")
    ensures responseMapping.JObj? && Get(responseMapping.fields, "result_path") == Some(JStr("$.result")) ==>
      r == ExtractAt(response, "$.result")
    ensures !responseMapping.JObj? ==> r.Err?
  {
    if !responseMapping.JObj? then Err("response mapping is not a dict")
    else
      var path := GetOr(responseMapping.fields, "result_path", JStr("$.result"));
      if !path.JStr? then Err("result path is not a string")
      else ExtractAt(response, path.s)
  }

  function ExtractAt(response: Json, path: string): (r: Result<Extracted>)
    ensures r.Err? <==> Parse(path).Err?
    ensures r.Ok? ==> (r.value.Found? <==> Find(response, Parse(path).value).Some?)
    ensures r.Ok? && r.value.Found? ==> r.value.value == Find(response, Parse(path).value).value
    ensures r.Ok? && r.value.DumpOf? ==> r.value.response == response
  {
    var p := Parse(path);
    if p.Err? then Err(p.msg)
    else
      var found := Find(response, p.value);
      if found.Some? then Ok(Found(found.value)) else Ok(DumpOf(response))
  }

  /** The default result path picks the reply's `result` member when there is one. */
  lemma DefaultResultPath(response: Json)
    ensures ExtractAt(response, "$.result").Ok?
    ensures response.JObj? && HasKey(response.fields, "result") ==>
      ExtractAt(response, "$.result") == Ok(Found(Get(response.fields, "result").value))
    ensures !(response.JObj? && HasKey(response.fields, "result")) ==>
      ExtractAt(response, "$.result") == Ok(DumpOf(response))
  {
    ResultPathParses();
    FindField(response, "result");
  }

  lemma ResultPathParses()
    ensures Parse("$.result") == Ok([Field("result")])
  {
    FieldPath("$.result", "result");
  }

  /** A path whose text is the rendering of `p` parses as `p`. */
  lemma ParsesAs(text: string, p: seq<Segment>)
    requires ValidPath(p) && Render(p) == text
    ensures Parse(text) == Ok(p)
  {
    ParseRender(p);
  }

  /** `endpoint.rstrip('/') + '/' + path.lstrip('/')`. */
  function JoinUrl(endpoint: string, path: string): string {
    RStrip(endpoint, '/') + "/" + LStrip(path, '/')
  }

  lemma {:induction false} RStripIdempotent(s: string, c: char)
    ensures RStrip(RStrip(s, c), c) == RStrip(s, c)
  {
    var r := RStrip(s, c);
    if r != [] {
      assert r[|r| - 1] != c;
    }
  }

  lemma {:induction false} RStripAppend(s: string, c: char)
    ensures RStrip(s + [c], c) == RStrip(s, c)
  {
    assert (s + [c])[..|s|] == s;
  }

  lemma {:induction false} LStripPrepend(s: string, c: char)
    ensures LStrip([c] + s, c) == LStrip(s, c)
  {
    assert ([c] + s)[1..] == s;
  }

  /**
   * Exactly one slash joins endpoint and path: extra slashes at the seam
   * change nothing, and with none the parts are joined by one.
   */
  lemma JoinUrlSeam(endpoint: string, path: string)
    ensures JoinUrl(endpoint + "/", path) == JoinUrl(endpoint, path)
    ensures JoinUrl(endpoint, "/" + path) == JoinUrl(endpoint, path)
    ensures (endpoint == [] || endpoint[|endpoint| - 1] != '/') && (path == [] || path[0] != '/') ==>
      JoinUrl(endpoint, path) == endpoint + "/" + path
  {
    RStripAppend(endpoint, '/');
    LStripPrepend(path, '/');
  }
}
