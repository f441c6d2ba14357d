/**
 * Registering external agents from configuration templates: seeding the
 * built-in templates, listing and looking them up, testing a connection to
 * an endpoint through a template's mappings, and registering an API agent
 * whose configuration merges the template with the caller's overrides.
 */
module RegistrationService {
  import opened Wrappers
  import opened Strings
  import opened JsonData
  import opened RequestMapping
  import opened TemplateModel
  import opened AgentModel
  import opened Registry
  import Seqs

  /** Ids are positions plus one, and names are unique. */
  predicate WellFormedTemplates(ts: seq<Template>) {
    && (forall i :: 0 <= i < |ts| ==> ts[i].id == i + 1)
    && (forall i, j :: 0 <= i < j < |ts| ==> ts[i].name != ts[j].name)
  }

  predicate TemplateNamed(ts: seq<Template>, name: string) {
    exists i :: 0 <= i < |ts| && ts[i].name == name
  }

  /** One step of seeding: add the template unless its name is taken. */
  function SeedOne(ts: seq<Template>, d: TemplateData): (r: seq<Template>)
    ensures TemplateNamed(ts, d.name) ==> r == ts
    ensures !TemplateNamed(ts, d.name) ==> r == ts + [NewTemplate(|ts| + 1, d)]
  {
    if TemplateNamed(ts, d.name) then ts else ts + [NewTemplate(|ts| + 1, d)]
  }

  /** Seeding a list of templates, first to last. */
  function Seed(ts: seq<Template>, ds: seq<TemplateData>): seq<Template>
    decreases |ds|
  {
    if ds == [] then ts else Seed(SeedOne(ts, ds[0]), ds[1..])
  }

  /** One seeding step keeps the table well formed and the new row built in and active. */
  lemma SeedOneWellFormed(ts: seq<Template>, d: TemplateData)
    requires WellFormedTemplates(ts)
    ensures WellFormedTemplates(SeedOne(ts, d))
    ensures TemplateNamed(SeedOne(ts, d), d.name)
  {
    if !TemplateNamed(ts, d.name) {
      var next := SeedOne(ts, d);
      assert next[|ts|].name == d.name;
    }
  }

  /** Seeding keeps the existing rows and adds only built-in, active ones. */
  lemma {:induction false} SeedExtends(ts: seq<Template>, ds: seq<TemplateData>)
    ensures |ts| <= |Seed(ts, ds)| && Seed(ts, ds)[..|ts|] == ts
    ensures forall i :: |ts| <= i < |Seed(ts, ds)| ==> Seed(ts, ds)[i].isBuiltin && Seed(ts, ds)[i].isActive
    decreases |ds|
  {
    if ds != [] {
      var next := SeedOne(ts, ds[0]);
      SeedExtends(next, ds[1..]);
      var r := Seed(ts, ds);
      assert r == Seed(next, ds[1..]);
      assert r[..|ts|] == next[..|ts|];
      forall i | |ts| <= i < |r| ensures r[i].isBuiltin && r[i].isActive {
        if i < |next| {
          assert r[i] == next[i];
        }
      }
    }
  }

  /** Seeding keeps the table well formed. */
  lemma {:induction false} SeedWellFormed(ts: seq<Template>, ds: seq<TemplateData>)
    requires WellFormedTemplates(ts)
    ensures WellFormedTemplates(Seed(ts, ds))
    decreases |ds|
  {
    if ds != [] {
      SeedOneWellFormed(ts, ds[0]);
      SeedWellFormed(SeedOne(ts, ds[0]), ds[1..]);
    }
  }

  /** Once a name is in the table it stays there. */
  lemma NamedInPrefix(ts: seq<Template>, r: seq<Template>, name: string)
    requires |ts| <= |r| && r[..|ts|] == ts && TemplateNamed(ts, name)
    ensures TemplateNamed(r, name)
  {
    var k :| 0 <= k < |ts| && ts[k].name == name;
    assert r[k] == ts[k];
  }

  /** After seeding, every seeded name is in the table. */
  lemma {:induction false} SeedNamesPresent(ts: seq<Template>, ds: seq<TemplateData>)
    requires WellFormedTemplates(ts)
    ensures forall i :: 0 <= i < |ds| ==> TemplateNamed(Seed(ts, ds), ds[i].name)
    decreases |ds|
  {
    if ds != [] {
      var next := SeedOne(ts, ds[0]);
      SeedOneWellFormed(ts, ds[0]);
      SeedNamesPresent(next, ds[1..]);
      SeedExtends(next, ds[1..]);
      var r := Seed(ts, ds);
      assert r == Seed(next, ds[1..]);
      NamedInPrefix(next, r, ds[0].name);
      forall i | 1 <= i < |ds| ensures TemplateNamed(r, ds[i].name) {
        assert ds[1..][i - 1] == ds[i];
      }
    }
  }

  /** Seeding keeps the existing rows, keeps the table well formed, and leaves every seeded name present. */
  lemma SeedProperties(ts: seq<Template>, ds: seq<TemplateData>)
    requires WellFormedTemplates(ts)
    ensures WellFormedTemplates(Seed(ts, ds))
    ensures |ts| <= |Seed(ts, ds)| && Seed(ts, ds)[..|ts|] == ts
    ensures forall i :: 0 <= i < |ds| ==> TemplateNamed(Seed(ts, ds), ds[i].name)
    ensures forall i :: |ts| <= i < |Seed(ts, ds)| ==> Seed(ts, ds)[i].isBuiltin && Seed(ts, ds)[i].isActive
  {
    SeedWellFormed(ts, ds);
    SeedExtends(ts, ds);
    SeedNamesPresent(ts, ds);
  }

  /** Seeding a table that already holds every name changes nothing. */
  lemma {:induction false} SeedPresent(ts: seq<Template>, ds: seq<TemplateData>)
    requires forall i :: 0 <= i < |ds| ==> TemplateNamed(ts, ds[i].name)
    ensures Seed(ts, ds) == ts
    decreases |ds|
  {
    if ds != [] {
      SeedPresent(ts, ds[1..]);
    }
  }

  /** Seeding twice is seeding once. */
  lemma SeedIdempotent(ts: seq<Template>, ds: seq<TemplateData>)
    requires WellFormedTemplates(ts)
    ensures Seed(Seed(ts, ds), ds) == Seed(ts, ds)
  {
    SeedProperties(ts, ds);
    SeedPresent(Seed(ts, ds), ds);
  }

  /** The rows seeding adds for templates whose names are all new: consecutive ids from `first`. */
  function FreshRows(first: nat, ds: seq<TemplateData>): (r: seq<Template>)
    ensures |r| == |ds|
    decreases |ds|
  {
    if ds == [] then [] else [NewTemplate(first, ds[0])] + FreshRows(first + 1, ds[1..])
  }

  /** The `i`-th fresh row is template `i` with id `first + i`. */
  lemma {:induction false} FreshRowsAt(first: nat, ds: seq<TemplateData>)
    ensures forall i :: 0 <= i < |ds| ==> FreshRows(first, ds)[i] == NewTemplate(first + i, ds[i])
    decreases |ds|
  {
    if ds != [] {
      FreshRowsAt(first + 1, ds[1..]);
      forall i | 1 <= i < |ds| ensures FreshRows(first, ds)[i] == NewTemplate(first + i, ds[i]) {
        assert FreshRows(first, ds)[i] == FreshRows(first + 1, ds[1..])[i - 1];
        assert ds[1..][i - 1] == ds[i];
      }
    }
  }

  /** Adding the first of several new, distinct names leaves the others new. */
  lemma FreshAfterFirst(ts: seq<Template>, ds: seq<TemplateData>)
    requires ds != []
    requires forall i :: 0 <= i < |ds| ==> !TemplateNamed(ts, ds[i].name)
    requires forall i, j :: 0 <= i < j < |ds| ==> ds[i].name != ds[j].name
    ensures forall i :: 0 <= i < |ds[1..]| ==> !TemplateNamed(ts + [NewTemplate(|ts| + 1, ds[0])], ds[1..][i].name)
    ensures forall i, j :: 0 <= i < j < |ds[1..]| ==> ds[1..][i].name != ds[1..][j].name
  {
    var next := ts + [NewTemplate(|ts| + 1, ds[0])];
    assert forall k :: 0 <= k < |ts| ==> next[k] == ts[k];
    assert next[|ts|].name == ds[0].name;
    forall i | 1 <= i < |ds| ensures !TemplateNamed(next, ds[i].name) {
      assert !TemplateNamed(ts, ds[i].name) && ds[0].name != ds[i].name;
    }
    assert forall i :: 0 <= i < |ds[1..]| ==> ds[1..][i] == ds[i + 1];
  }

  /** A new first name is added as the next row. */
  lemma SeedFirstFresh(ts: seq<Template>, ds: seq<TemplateData>)
    requires ds != [] && !TemplateNamed(ts, ds[0].name)
    ensures Seed(ts, ds) == Seed(ts + [NewTemplate(|ts| + 1, ds[0])], ds[1..])
  {
  }

  lemma FreshRowsFirst(ts: seq<Template>, ds: seq<TemplateData>)
    requires ds != []
    ensures ts + FreshRows(|ts| + 1, ds) == (ts + [NewTemplate(|ts| + 1, ds[0])]) + FreshRows(|ts| + 2, ds[1..])
  {
    var row := NewTemplate(|ts| + 1, ds[0]);
    assert FreshRows(|ts| + 1, ds) == [row] + FreshRows(|ts| + 2, ds[1..]);
    Seqs.AppendAssoc(ts, [row], FreshRows(|ts| + 2, ds[1..]));
  }

  /** Seeding templates with new, distinct names appends one row per template, in order. */
  lemma {:induction false} SeedFresh(ts: seq<Template>, ds: seq<TemplateData>)
    requires forall i :: 0 <= i < |ds| ==> !TemplateNamed(ts, ds[i].name)
    requires forall i, j :: 0 <= i < j < |ds| ==> ds[i].name != ds[j].name
    ensures Seed(ts, ds) == ts + FreshRows(|ts| + 1, ds)
    decreases |ds|
  {
    if ds != [] {
      var next := ts + [NewTemplate(|ts| + 1, ds[0])];
      SeedFirstFresh(ts, ds);
      FreshAfterFirst(ts, ds);
      SeedFresh(next, ds[1..]);
      FreshRowsFirst(ts, ds);
    }
  }

  /** The built-ins seeded into an empty table are exactly the four, in order, with ids 1 to 4. */
  lemma SeedEmpty()
    ensures Seed([], BuiltinTemplates) == FreshRows(1, BuiltinTemplates)
    ensures |Seed([], BuiltinTemplates)| == 4
  {
    BuiltinNames();
    SeedFresh([], BuiltinTemplates);
  }

  /** Seeding from position `i` is one step, then seeding from `i + 1`. */
  lemma SeedStep(ts: seq<Template>, ds: seq<TemplateData>, i: nat)
    requires i < |ds|
    ensures Seed(ts, ds[i..]) == Seed(SeedOne(ts, ds[i]), ds[i + 1..])
  {
    assert ds[i..][0] == ds[i] && ds[i..][1..] == ds[i + 1..];
  }

  /** What `list_templates` returns for one template. */
  datatype TemplateSummary = TemplateSummary(
    id: nat,
    name: string,
    displayName: string,
    description: string,
    framework: string,
    isBuiltin: bool,
    exampleRequest: Json,
    exampleResponse: Json)

  function Summary(t: Template): TemplateSummary {
    TemplateSummary(t.id, t.name, t.displayName, t.description, t.framework, t.isBuiltin,
                    t.exampleRequest, t.exampleResponse)
  }

  /** The summaries of the active templates, in table order. */
  function ActiveSummaries(ts: seq<Template>): (r: seq<TemplateSummary>)
    ensures |r| <= |ts|
  {
    if ts == [] then []
    else
      var last := ts[|ts| - 1];
      ActiveSummaries(ts[..|ts| - 1]) + (if last.isActive then [Summary(last)] else [])
  }

  /** A summary is listed exactly when some active template has it. */
  lemma {:induction false} ActiveSummariesMembers(ts: seq<Template>)
    ensures forall s :: s in ActiveSummaries(ts) <==> exists k :: 0 <= k < |ts| && ts[k].isActive && s == Summary(ts[k])
  {
    if ts != [] {
      var init, last := ts[..|ts| - 1], ts[|ts| - 1];
      ActiveSummariesMembers(init);
      assert forall k :: 0 <= k < |init| ==> init[k] == ts[k];
      forall s ensures s in ActiveSummaries(ts) <==> exists k :: 0 <= k < |ts| && ts[k].isActive && s == Summary(ts[k]) {
        if s in ActiveSummaries(ts) && s !in ActiveSummaries(init) {
          assert ts[|ts| - 1].isActive && s == Summary(ts[|ts| - 1]);
        }
      }
    }
  }

  function FindTemplate(ts: seq<Template>, id: int): (r: Option<Template>)
    requires WellFormedTemplates(ts)
    ensures r.Some? <==> exists i :: 0 <= i < |ts| && ts[i].id == id
    ensures r.Some? ==> r.value in ts && r.value.id == id
  {
    if 1 <= id <= |ts| then Some(ts[id - 1]) else None
  }

  function FindTemplateByName(ts: seq<Template>, name: string): (r: Option<Template>)
    ensures r.Some? <==> TemplateNamed(ts, name)
    ensures r.Some? ==> r.value in ts && r.value.name == name
  {
    if ts == [] then None
    else if ts[0].name == name then Some(ts[0])
    else
      assert forall i :: 1 <= i < |ts| ==> ts[i] == ts[1..][i - 1];
      FindTemplateByName(ts[1..], name)
  }

  /** The configuration of an agent registered from a template. */
  function TemplateAgentConfig(templateId: int, t: Template, customConfig: Option<Fields>, authConfig: Option<Json>): (c: Json)
    ensures c.JObj? && |c.fields| == 5
    ensures Keys(c.fields) == ["template_id", "template_name", "request_mapping", "response_mapping", "auth_config"]
    ensures customConfig.Some? && customConfig.value != [] ==>
      && c.fields[2].1 == GetOr(customConfig.value, "request_mapping", JNull)
      && c.fields[3].1 == GetOr(customConfig.value, "response_mapping", JNull)
    ensures !(customConfig.Some? && customConfig.value != []) ==>
      c.fields[2].1 == t.requestMapping && c.fields[3].1 == t.responseMapping
    ensures c.fields[4].1 == if authConfig.Some? && Truthy(authConfig.value) then authConfig.value else t.authConfig
  {
    var custom := customConfig.Some? && customConfig.value != [];
    var c := JObj([
      ("template_id", JInt(templateId)),
      ("template_name", JStr(t.name)),
      ("request_mapping", if custom then GetOr(customConfig.value, "request_mapping", JNull) else t.requestMapping),
      ("response_mapping", if custom then GetOr(customConfig.value, "response_mapping", JNull) else t.responseMapping),
      ("auth_config", if authConfig.Some? && Truthy(authConfig.value) then authConfig.value else t.authConfig)]);
    KeysAt(c.fields);
    c
  }

  lemma {:induction false} KeysAt(fields: Fields)
    ensures forall i :: 0 <= i < |fields| ==> Keys(fields)[i] == fields[i].0
  {
    if fields != [] {
      KeysAt(fields[1..]);
    }
  }

  /** The metadata of an agent registered from a template. */
  function TemplateAgentMetadata(t: Template): Json {
    JObj([("template", JStr(t.name)), ("framework", JStr(t.framework))])
  }

  /** The table of configuration templates. */
  class TemplateStore {
    var templates: seq<Template>

    predicate Valid()
      reads this
    {
      WellFormedTemplates(templates)
    }

    constructor ()
      ensures Valid() && templates == []
    {
      templates := [];
    }

    /** `initialize_templates`: each built-in is added unless its name is already there. */
    method InitializeTemplates()
      requires Valid()
      modifies this
      ensures Valid()
      ensures templates == Seed(old(templates), BuiltinTemplates)
    {
      AddTemplates(BuiltinTemplates);
    }

    /** The loop of `initialize_templates`, over the templates `ds` in order. */
    method AddTemplates(ds: seq<TemplateData>)
      requires Valid()
      modifies this
      ensures Valid()
      ensures templates == Seed(old(templates), ds)
    {
      var i := 0;
      while i < |ds|
        invariant 0 <= i <= |ds|
        invariant WellFormedTemplates(templates)
        invariant Seed(templates, ds[i..]) == Seed(old(templates), ds)
      {
        SeedStep(templates, ds, i);
        AddUnlessNamed(ds[i]);
        i := i + 1;
      }
      assert ds[|ds|..] == [];
    }

    /** One template of the loop: added as a new row unless a row already has its name. */
    method AddUnlessNamed(d: TemplateData)
      requires Valid()
      modifies this
      ensures Valid()
      ensures templates == SeedOne(old(templates), d)
    {
      SeedOneWellFormed(templates, d);
      if FindTemplateByName(templates, d.name).None? {
        templates := templates + [NewTemplate(|templates| + 1, d)];
      }
    }

    /** `list_templates`: the active templates only. */
    function ListTemplates(): (r: seq<TemplateSummary>)
      reads this
      ensures forall s :: s in r <==> exists k :: 0 <= k < |templates| && templates[k].isActive && s == Summary(templates[k])
    {
      ActiveSummariesMembers(templates);
      ActiveSummaries(templates)
    }

    /** `get_template`. */
    function GetTemplate(templateId: int): (r: Option<Template>)
      reads this
      requires Valid()
      ensures r.Some? <==> 1 <= templateId <= |templates|
      ensures r.Some? ==> r.value in templates && r.value.id == templateId
    {
      FindTemplate(templates, templateId)
    }

    /** `get_template_by_name`. */
    function GetTemplateByName(name: string): (r: Option<Template>)
      reads this
      ensures r.Some? <==> TemplateNamed(templates, name)
      ensures r.Some? ==> r.value in templates && r.value.name == name
    {
      FindTemplateByName(templates, name)
    }

    /**
     * `register_agent_with_template`: a taken name, then a missing template,
     * raise and change nothing; otherwise one ACTIVE API agent is added whose
     * configuration merges the template with the overrides.
     */
    method RegisterAgentWithTemplate(registry: AgentRegistry, name: string, description: string, endpoint: string,
                                     capabilities: seq<string>, templateId: int, customConfig: Option<Fields>,
                                     authConfig: Option<Json>, now: int)
      returns (r: Result<Agent>)
      requires Valid() && registry.Valid()
      modifies registry
      ensures registry.Valid()
      ensures NameTaken(old(registry.agents), name) ==>
        r == Err("Agent with name '" + name + "' already exists") && registry.agents == old(registry.agents)
      ensures !NameTaken(old(registry.agents), name) && !(1 <= templateId <= |templates|) ==>
        r == Err("Template " + IntToString(templateId) + " not found") && registry.agents == old(registry.agents)
      ensures !NameTaken(old(registry.agents), name) && 1 <= templateId <= |templates| ==>
        var t := templates[templateId - 1];
        && r == Ok(Agent(|old(registry.agents)| + 1, name, description, Api, endpoint, capabilities,
                         TemplateAgentConfig(templateId, t, customConfig, authConfig), Active, now,
                         TemplateAgentMetadata(t)))
        && registry.agents == old(registry.agents) + [r.value]
    {
      if registry.GetAgentByName(name).Some? {
        return Err("Agent with name '" + name + "' already exists");
      }
      var template := GetTemplate(templateId);
      if template.None? {
        return Err("Template " + IntToString(templateId) + " not found");
      }
      var t := template.value;
      var config := TemplateAgentConfig(templateId, t, customConfig, authConfig);
      var metadata := TemplateAgentMetadata(t);
      r := registry.RegisterAgent(name, description, Api, endpoint, capabilities, Some(config), Some(metadata), now);
    }
  }

  /** A request as the connection test sends it. */
  datatype Request = Request(httpMethod: string, url: string, headers: Json, body: Option<Json>)

  /** What the test does once the mappings are read: send a request, or refuse the method. */
  datatype Prepared =
    | Send(request: Request, responseMapping: Json)
    | Unsupported(httpMethod: Json)

  /** What the endpoint did with the request. */
  datatype HttpReply =
    | Reply(statusCode: int, body: Option<Json>, text: string)  // `body` is absent when it is not JSON
    | TimedOut
    | ConnectFailed
    | RequestRaised(msg: string)

  /** The result of `test_agent_connection`; the first two have `success` true. */
  datatype ConnectionReport =
    | Connected(statusCode: int, response: Json, extracted: Extracted)
    | ConnectedWithWarning(statusCode: int, response: Json, warning: string)
    | HttpFailure(statusCode: int, error: string)
    | UnsupportedMethod(httpMethod: Json)
    | Failure(error: string)

  predicate Success(r: ConnectionReport) {
    r.Connected? || r.ConnectedWithWarning?
  }

  /** `mapping.get(key, default)` on a value that must be a dict. */
  function Lookup(mapping: Json, key: string, default: Json): Result<Json> {
    if mapping.JObj? then Ok(GetOr(mapping.fields, key, default)) else Err("mapping is not a dict")
  }

  /**
   * The request `test_agent_connection` builds: method POST and path
   * `/process` by default, the auth headers merged over the template's,
   * the body built from `{"description": testQuery}`, and the URL joined.
   */
  function PrepareRequest(endpoint: string, templateConfig: Fields, testQuery: string, authHeaders: Option<Fields>): (r: Result<Prepared>)
    ensures r.Ok? ==> MethodOf(templateConfig).Ok?
    ensures r.Ok? ==> (r.value.Unsupported? <==> MethodOf(templateConfig).value !in {JStr("POST"), JStr("GET")})
    ensures r.Ok? && r.value.Unsupported? ==> r.value.httpMethod == MethodOf(templateConfig).value
    ensures r.Ok? && r.value.Send? ==>
      && JStr(r.value.request.httpMethod) == MethodOf(templateConfig).value
      && (r.value.request.httpMethod == "POST" <==> r.value.request.body.Some?)
  {
    var requestMapping := RequestMappingOf(templateConfig);
    var responseMapping := GetOr(templateConfig, "response_mapping", JObj([]));
    var verb := MethodOf(templateConfig);
    var path := Lookup(requestMapping, "path", JStr("/process"));
    var headers := Lookup(requestMapping, "headers", JObj([]));
    var bodyMapping := Lookup(requestMapping, "body_mapping", JObj([]));
    if verb.Err? || path.Err? || headers.Err? || bodyMapping.Err? then Err("request mapping is not a dict")
    else if authHeaders.Some? && authHeaders.value != [] && !headers.value.JObj? then Err("headers are not a dict")
    else
      var allHeaders := if authHeaders.Some? && authHeaders.value != [] then JObj(Update(headers.value.fields, authHeaders.value)) else headers.value;
      var body := BuildRequestBody(bodyMapping.value, JObj([("description", JStr(testQuery))]));
      if body.Err? then Err(body.msg)
      else if !path.value.JStr? then Err("path is not a string")
      else
        var url := JoinUrl(endpoint, path.value.s);
        if verb.value == JStr("POST") then Ok(Send(Request("POST", url, allHeaders, Some(body.value)), responseMapping))
        else if verb.value == JStr("GET") then Ok(Send(Request("GET", url, allHeaders, None), responseMapping))
        else Ok(Unsupported(verb.value))
  }

  function RequestMappingOf(templateConfig: Fields): Json {
    GetOr(templateConfig, "request_mapping", JObj([]))
  }

  /** The HTTP method a template configuration asks for, POST by default. */
  function MethodOf(templateConfig: Fields): Result<Json> {
    Lookup(RequestMappingOf(templateConfig), "method", JStr("POST"))
  }

  /** With no mappings at all, the test POSTs an empty body to `<endpoint>/process`. */
  lemma EmptyConfigRequest(endpoint: string, testQuery: string)
    ensures PrepareRequest(endpoint, [], testQuery, None)
         == Ok(Send(Request("POST", JoinUrl(endpoint, "/process"), JObj([]), Some(JObj([]))), JObj([])))
  {
    assert BuildRequestBody(JObj([]), JObj([("description", JStr(testQuery))])) == Ok(JObj([]));
  }

  /** Auth headers are merged over the template's headers: each given header wins, the others stay. */
  lemma AuthHeadersOverride(endpoint: string, templateConfig: Fields, testQuery: string, authHeaders: Fields, name: string)
    requires authHeaders != [] && UniqueKeys(authHeaders)
    requires PrepareRequest(endpoint, templateConfig, testQuery, Some(authHeaders)).Ok?
    requires PrepareRequest(endpoint, templateConfig, testQuery, Some(authHeaders)).value.Send?
    ensures var headers := PrepareRequest(endpoint, templateConfig, testQuery, Some(authHeaders)).value.request.headers;
      var own := GetOr(RequestMappingOf(templateConfig).fields, "headers", JObj([]));
      && headers.JObj? && own.JObj?
      && Get(headers.fields, name) == if HasKey(authHeaders, name) then Get(authHeaders, name) else Get(own.fields, name)
  {
    var own := GetOr(RequestMappingOf(templateConfig).fields, "headers", JObj([]));
    UpdateGet(own.fields, authHeaders, name);
  }

  /** `test_agent_connection`, given what the endpoint did with the prepared request. */
  function TestAgentConnection(endpoint: string, templateConfig: Fields, testQuery: string,
                               authHeaders: Option<Fields>, reply: HttpReply): ConnectionReport
  {
    var prepared := PrepareRequest(endpoint, templateConfig, testQuery, authHeaders);
    if prepared.Err? then Failure("Test failed: " + prepared.msg)
    else if prepared.value.Unsupported? then UnsupportedMethod(prepared.value.httpMethod)
    else
      match reply
      case TimedOut => Failure("Connection timeout after 30 seconds")
      case ConnectFailed => Failure("Could not connect to endpoint. Check URL and network.")
      case RequestRaised(msg) => Failure("Test failed: " + msg)
      case Reply(code, body, text) =>
        if 200 <= code < 300 then
          if body.None? then Failure("Test failed: response body is not JSON")
          else
            var extracted := ExtractResponseData(body.value, prepared.value.responseMapping);
            if extracted.Ok? then Connected(code, body.value, extracted.value)
            else ConnectedWithWarning(code, body.value, "Could not extract result: " + extracted.msg)
        else HttpFailure(code, "HTTP " + IntToString(code) + ": " + text)
  }

  /**
   * A connection test succeeds exactly when a request was sent and the
   * reply was a 2xx with a JSON body; a result that cannot be extracted only
   * adds a warning, and a non-2xx reply reports its status code.
   */
  lemma ConnectionOutcome(endpoint: string, templateConfig: Fields, testQuery: string,
                          authHeaders: Option<Fields>, reply: HttpReply)
    ensures var prepared := PrepareRequest(endpoint, templateConfig, testQuery, authHeaders);
      var report := TestAgentConnection(endpoint, templateConfig, testQuery, authHeaders, reply);
      && (Success(report) <==>
           prepared.Ok? && prepared.value.Send? && reply.Reply? && 200 <= reply.statusCode < 300 && reply.body.Some?)
      && (report.ConnectedWithWarning? <==>
           Success(report) && ExtractResponseData(reply.body.value, prepared.value.responseMapping).Err?)
      && (report.HttpFailure? <==>
           prepared.Ok? && prepared.value.Send? && reply.Reply? && !(200 <= reply.statusCode < 300))
      && (report.HttpFailure? ==> report.statusCode == reply.statusCode)
      && (report.UnsupportedMethod? <==> prepared.Ok? && prepared.value.Unsupported?)
  {
  }
}
