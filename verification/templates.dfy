/** Configuration templates for agent frameworks, and the four that ship built in. */
module TemplateModel {
  import opened Wrappers
  import Strings
  import opened JsonData
  import opened JsonPath
  import opened RequestMapping

  /** The keyword arguments of one built-in template. */
  datatype TemplateData = TemplateData(
    name: string,
    displayName: string,
    description: string,
    framework: string,
    requestMapping: Json,
    responseMapping: Json,
    authConfig: Json,
    exampleRequest: Json,
    exampleResponse: Json)

  /** A row of the templates table; `name` is unique among rows. */
  datatype Template = Template(
    id: nat,
    name: string,
    displayName: string,
    description: string,
    framework: string,
    iconUrl: Option<string>,
    requestMapping: Json,
    responseMapping: Json,
    authConfig: Json,
    exampleRequest: Json,
    exampleResponse: Json,
    isBuiltin: bool,
    isActive: bool)

  /** A new row from template data: no icon, and built in and active by default. */
  function NewTemplate(id: nat, d: TemplateData): (t: Template)
    ensures t.isBuiltin && t.isActive && t.iconUrl.None?
    ensures t.id == id && t.name == d.name && t.framework == d.framework
    ensures t.requestMapping == d.requestMapping && t.responseMapping == d.responseMapping && t.authConfig == d.authConfig
  {
    Template(id, d.name, d.displayName, d.description, d.framework, None,
             d.requestMapping, d.responseMapping, d.authConfig, d.exampleRequest, d.exampleResponse, true, true)
  }

  function Obj(fields: Fields): Json { JObj(fields) }
  function Str(s: string): Json { JStr(s) }

  /** `{"role": "user", "content": content}`. */
  function UserMessage(content: Json): Json {
    Obj([("role", Str("user")), ("content", content)])
  }

  /** A chat-completions reply with one choice. */
  function ChatReply(content: string): Json {
    Obj([("choices", JArr([Obj([
      ("message", Obj([("role", Str("assistant")), ("content", Str(content))])),
      ("finish_reason", Str("stop"))])]))])
  }

  const ChatResponseMapping: Json := Obj([
    ("status_path", Str("$.choices[0].finish_reason")),
    ("result_path", Str("$.choices[0].message.content")),
    ("error_path", Str("$.error.message"))])

  const CrewAI: TemplateData := TemplateData(
    "crewai", "CrewAI", "Multi-agent collaboration framework with role-based agents", "crewai",
    Obj([("method", Str("POST")), ("path", Str("/kickoff")),
         ("headers", Obj([("Content-Type", Str("application/json"))])),
         ("body_mapping", Obj([("inputs", Obj([("topic", Str("$.description"))]))]))]),
    Obj([("status_path", Str("$.success")), ("result_path", Str("$.result")), ("error_path", Str("$.error"))]),
    Obj([("type", Str("none"))]),
    Obj([("inputs", Obj([("topic", Str("Research AI trends in 2024"))]))]),
    Obj([("result", Str("Comprehensive research report...")), ("workflow", JArr([])), ("success", JBool(true))]))

  const DatabricksFoundation: TemplateData := TemplateData(
    "databricks_foundation", "Databricks Foundation Models",
    "Databricks LLM serving endpoints (Llama, Mistral, etc.)", "databricks",
    Obj([("method", Str("POST")), ("path", Str("/serving-endpoints/{model_name}/invocations")),
         ("headers", Obj([("Content-Type", Str("application/json")),
                          ("Authorization", Str("Bearer ${DATABRICKS_TOKEN}"))])),
         ("body_mapping", Obj([("messages", JArr([UserMessage(Str("$.description"))])),
                               ("max_tokens", JInt(1000)), ("temperature", JReal(0.7))]))]),
    ChatResponseMapping,
    Obj([("type", Str("bearer_token")), ("env_var", Str("DATABRICKS_TOKEN"))]),
    Obj([("messages", JArr([UserMessage(Str("What is artificial intelligence?"))])), ("max_tokens", JInt(1000))]),
    ChatReply("Artificial intelligence is..."))

  const OpenAICompatible: TemplateData := TemplateData(
    "openai_compatible", "OpenAI Compatible", "OpenAI API compatible endpoints (GPT-3.5, GPT-4, etc.)", "openai",
    Obj([("method", Str("POST")), ("path", Str("/v1/chat/completions")),
         ("headers", Obj([("Content-Type", Str("application/json")),
                          ("Authorization", Str("Bearer ${OPENAI_API_KEY}"))])),
         ("body_mapping", Obj([("model", Str("gpt-3.5-turbo")),
                               ("messages", JArr([UserMessage(Str("$.description"))])),
                               ("max_tokens", JInt(1000)), ("temperature", JReal(0.7))]))]),
    ChatResponseMapping,
    Obj([("type", Str("bearer_token")), ("env_var", Str("OPENAI_API_KEY"))]),
    Obj([("model", Str("gpt-3.5-turbo")), ("messages", JArr([UserMessage(Str("Hello, how are you?"))]))]),
    ChatReply("I'm doing well, thank you!"))

  const Custom: TemplateData := TemplateData(
    "custom", "Custom REST API", "Define your own custom request/response mapping", "custom",
    Obj([("method", Str("POST")), ("path", Str("/process")),
         ("headers", Obj([("Content-Type", Str("application/json"))])),
         ("body_mapping", Obj([("query", Str("$.description"))]))]),
    Obj([("status_path", Str("$.status")), ("result_path", Str("$.result")), ("error_path", Str("$.error"))]),
    Obj([("type", Str("none"))]),
    Obj([("query", Str("Sample query"))]),
    Obj([("status", Str("success")), ("result", Str("Response here"))]))

  const BuiltinTemplates: seq<TemplateData> := [CrewAI, DatabricksFoundation, OpenAICompatible, Custom]

  /** The built-ins are crewai, databricks_foundation, openai_compatible and custom: four distinct names. */
  lemma BuiltinNames()
    ensures |BuiltinTemplates| == 4
    ensures BuiltinTemplates[0].name == "crewai" && BuiltinTemplates[1].name == "databricks_foundation"
    ensures BuiltinTemplates[2].name == "openai_compatible" && BuiltinTemplates[3].name == "custom"
    ensures forall i, j :: 0 <= i < j < |BuiltinTemplates| ==> BuiltinTemplates[i].name != BuiltinTemplates[j].name
  {
    assert "crewai"[0] != "databricks_foundation"[0] && "crewai"[0] != "openai_compatible"[0];
    assert "crewai"[1] != "custom"[1];
    assert "databricks_foundation"[0] != "openai_compatible"[0] && "databricks_foundation"[0] != "custom"[0];
    assert "openai_compatible"[0] != "custom"[0];
  }

  /** Every built-in request mapping sends a POST. */
  lemma BuiltinMethodsArePost()
    ensures forall i :: 0 <= i < |BuiltinTemplates| ==> Member(BuiltinTemplates[i].requestMapping, "method") == Some(Str("POST"))
  {
  }

  /** The input `{"description": d}` every body is built from. */
  function TaskInput(d: string): Json {
    Obj([("description", Str(d))])
  }

  lemma DescriptionParses()
    ensures Parse("$.description") == Ok([Field("description")])
  {
    FieldPath("$.description", "description");
  }

  lemma DescriptionFound(d: string)
    ensures Find(TaskInput(d), [Field("description")]) == Some(Str(d))
  {
    FindField(TaskInput(d), "description");
    assert Member(TaskInput(d), "description") == Some(Str(d));
  }

  /** The placeholder `$.description` looks up the task description. */
  lemma DescriptionPath(d: string)
    ensures Lookup("$.description", TaskInput(d)) == Ok(Str(d))
  {
    DescriptionParses();
    DescriptionFound(d);
  }

  /** The body mapping of a request mapping. */
  function BodyMapping(requestMapping: Json): Json {
    Member(requestMapping, "body_mapping").GetOr(JObj([]))
  }

  lemma FieldsCons(m: Json, i: nat, input: Json, b: Json, rest: Fields)
    requires m.JObj? && i < |m.fields|
    requires BuildValue(m.fields[i].1, input) == Ok(b) && BuildFields(m, i + 1, input) == Ok(rest)
    ensures BuildFields(m, i, input) == Ok([(m.fields[i].0, b)] + rest)
  {
  }

  lemma FieldsEnd(m: Json, input: Json)
    requires m.JObj?
    ensures BuildFields(m, |m.fields|, input) == Ok([])
  {
  }

  /** A one-entry mapping builds to a one-entry dict. */
  lemma SingleEntry(key: string, v: Json, input: Json, b: Json)
    requires BuildValue(v, input) == Ok(b)
    ensures BuildRequestBody(Obj([(key, v)]), input) == Ok(Obj([(key, b)]))
    ensures BuildValue(Obj([(key, v)]), input) == Ok(Obj([(key, b)]))
  {
    var m := Obj([(key, v)]);
    FieldsEnd(m, input);
    FieldsCons(m, 0, input, b, []);
    assert [(key, b)] + [] == [(key, b)];
  }

  /** Building the crewai body from a task description `d` yields `{"inputs": {"topic": d}}`. */
  lemma CrewAIBody(d: string)
    ensures BuildRequestBody(BodyMapping(CrewAI.requestMapping), TaskInput(d))
         == Ok(Obj([("inputs", Obj([("topic", Str(d))]))]))
  {
    var input := TaskInput(d);
    var placeholder := Str("$.description");
    DescriptionPath(d);
    assert BuildValue(placeholder, input) == Ok(Str(d));
    SingleEntry("topic", placeholder, input, Str(d));
    SingleEntry("inputs", Obj([("topic", placeholder)]), input, Obj([("topic", Str(d))]));
  }

  /** The custom template's body is `{"query": d}`. */
  lemma CustomBody(d: string)
    ensures BuildRequestBody(BodyMapping(Custom.requestMapping), TaskInput(d)) == Ok(Obj([("query", Str(d))]))
  {
    var input := TaskInput(d);
    var placeholder := Str("$.description");
    DescriptionPath(d);
    assert BuildValue(placeholder, input) == Ok(Str(d));
    SingleEntry("query", placeholder, input, Str(d));
  }

  /** A string that is not a placeholder is copied into the body. */
  lemma Copied(t: string, input: Json)
    requires t != [] && t[0] != '$'
    ensures BuildValue(Str(t), input) == Ok(Str(t))
  {
    assert !IsPlaceholder(Str(t)) by {
      if |t| >= 2 {
        assert t[..2][0] == t[0];
      }
    }
  }

  /** A user message whose content builds to `b` builds to the message carrying `b`. */
  lemma UserMessageFields(content: Json, input: Json, b: Json)
    requires BuildValue(content, input) == Ok(b)
    ensures BuildFields(UserMessage(content), 0, input) == Ok(UserMessage(b).fields)
  {
    var m := UserMessage(content);
    FieldsEnd(m, input);
    FieldsCons(m, 1, input, b, []);
    assert [("content", b)] + [] == [("content", b)];
    Copied("user", input);
    FieldsCons(m, 0, input, Str("user"), [("content", b)]);
    assert [("role", Str("user"))] + [("content", b)] == UserMessage(b).fields;
  }

  /** A one-item list holding a dict is rebuilt item by item. */
  lemma SingleDictItem(item: Json, input: Json, fs: Fields)
    requires item.JObj? && BuildFields(item, 0, input) == Ok(fs)
    ensures BuildValue(JArr([item]), input) == Ok(JArr([JObj(fs)]))
  {
    var l := JArr([item]);
    assert BuildItems(l, 1, input) == Ok([]);
    assert [JObj(fs)] + [] == [JObj(fs)];
    assert BuildItems(l, 0, input) == Ok([JObj(fs)]);
  }

  /** A one-message list whose content builds to `b` builds to the same message carrying `b`. */
  lemma UserMessageBody(content: Json, input: Json, b: Json)
    requires BuildValue(content, input) == Ok(b)
    ensures BuildValue(JArr([UserMessage(content)]), input) == Ok(JArr([UserMessage(b)]))
  {
    UserMessageFields(content, input, b);
    SingleDictItem(UserMessage(content), input, UserMessage(b).fields);
  }

  /** The sampling entries both chat templates copy verbatim. */
  const SamplingEntries: Fields := [("max_tokens", JInt(1000)), ("temperature", JReal(0.7))]

  /** The sampling entries build to themselves. */
  lemma SamplingBody(m: Json, i: nat, input: Json)
    requires m.JObj? && i + 2 == |m.fields| && m.fields[i..] == SamplingEntries
    ensures BuildFields(m, i, input) == Ok(SamplingEntries)
  {
    assert m.fields[i + 1] == ("temperature", JReal(0.7));
    FieldsEnd(m, input);
    FieldsCons(m, i + 1, input, JReal(0.7), []);
    assert [("temperature", JReal(0.7))] + [] == [("temperature", JReal(0.7))];
    assert m.fields[i] == ("max_tokens", JInt(1000));
    FieldsCons(m, i, input, JInt(1000), [("temperature", JReal(0.7))]);
    assert [("max_tokens", JInt(1000))] + [("temperature", JReal(0.7))] == SamplingEntries;
  }

  /** A messages entry followed by the sampling entries. */
  lemma MessagesThenSampling(m: Json, i: nat, messages: Json, input: Json, built: Json)
    requires m.JObj? && i + 3 == |m.fields| && m.fields[i] == ("messages", messages) && m.fields[i + 1..] == SamplingEntries
    requires BuildValue(messages, input) == Ok(built)
    ensures BuildFields(m, i, input) == Ok([("messages", built)] + SamplingEntries)
  {
    SamplingBody(m, i + 1, input);
    FieldsCons(m, i, input, built, SamplingEntries);
  }

  /** A chat body mapping: the messages are built, the other entries copied. */
  lemma ChatMappingBody(messages: Json, input: Json, built: Json)
    requires BuildValue(messages, input) == Ok(built)
    ensures BuildRequestBody(Obj([("messages", messages)] + SamplingEntries), input)
         == Ok(Obj([("messages", built)] + SamplingEntries))
  {
    var m := Obj([("messages", messages)] + SamplingEntries);
    assert m.fields[0] == ("messages", messages) && m.fields[1..] == SamplingEntries;
    MessagesThenSampling(m, 0, messages, input, built);
  }

  /** The same with a leading entry that builds to itself, such as the model name. */
  lemma ModelChatMappingBody(model: (string, Json), messages: Json, input: Json, built: Json)
    requires BuildValue(model.1, input) == Ok(model.1)
    requires BuildValue(messages, input) == Ok(built)
    ensures BuildRequestBody(Obj([model, ("messages", messages)] + SamplingEntries), input)
         == Ok(Obj([model, ("messages", built)] + SamplingEntries))
  {
    var m := Obj([model, ("messages", messages)] + SamplingEntries);
    assert m.fields[1] == ("messages", messages) && m.fields[2..] == SamplingEntries;
    MessagesThenSampling(m, 1, messages, input, built);
    assert m.fields[0] == model;
    FieldsCons(m, 0, input, model.1, [("messages", built)] + SamplingEntries);
    assert [model] + ([("messages", built)] + SamplingEntries) == [model, ("messages", built)] + SamplingEntries;
  }

  lemma DatabricksMapping()
    ensures BodyMapping(DatabricksFoundation.requestMapping)
         == Obj([("messages", JArr([UserMessage(Str("$.description"))]))] + SamplingEntries)
  {
  }

  lemma OpenAIMapping()
    ensures BodyMapping(OpenAICompatible.requestMapping)
         == Obj([("model", Str("gpt-3.5-turbo")), ("messages", JArr([UserMessage(Str("$.description"))]))] + SamplingEntries)
  {
  }

  /** The description placeholder builds to the description. */
  lemma PlaceholderBuilds(d: string)
    ensures BuildValue(Str("$.description"), TaskInput(d)) == Ok(Str(d))
  {
    DescriptionPath(d);
  }

  /** Two entries followed by the sampling entries, written out. */
  lemma SamplingTail(a: (string, Json), b: (string, Json))
    ensures [a, b] + SamplingEntries == [a, b, ("max_tokens", JInt(1000)), ("temperature", JReal(0.7))]
    ensures [b] + SamplingEntries == [b, ("max_tokens", JInt(1000)), ("temperature", JReal(0.7))]
  {
  }

  /** The chat body mapping with the description placeholder builds the description into the user message. */
  lemma ChatDescriptionBody(d: string)
    ensures BuildRequestBody(Obj([("messages", JArr([UserMessage(Str("$.description"))]))] + SamplingEntries), TaskInput(d))
         == Ok(Obj([("messages", JArr([UserMessage(Str(d))]))] + SamplingEntries))
    ensures BuildRequestBody(Obj([("model", Str("gpt-3.5-turbo")), ("messages", JArr([UserMessage(Str("$.description"))]))]
                                 + SamplingEntries), TaskInput(d))
         == Ok(Obj([("model", Str("gpt-3.5-turbo")), ("messages", JArr([UserMessage(Str(d))]))] + SamplingEntries))
  {
    PlaceholderBuilds(d);
    UserMessageBody(Str("$.description"), TaskInput(d), Str(d));
    ChatMappingBody(JArr([UserMessage(Str("$.description"))]), TaskInput(d), JArr([UserMessage(Str(d))]));
    Copied("gpt-3.5-turbo", TaskInput(d));
    ModelChatMappingBody(("model", Str("gpt-3.5-turbo")), JArr([UserMessage(Str("$.description"))]), TaskInput(d),
                         JArr([UserMessage(Str(d))]));
  }

  /** The Databricks body sends the description as the one user message, with the sampling entries copied. */
  lemma DatabricksBody(d: string)
    ensures BuildRequestBody(BodyMapping(DatabricksFoundation.requestMapping), TaskInput(d))
         == Ok(Obj([("messages", JArr([UserMessage(Str(d))])), ("max_tokens", JInt(1000)), ("temperature", JReal(0.7))]))
  {
    DatabricksMapping();
    ChatDescriptionBody(d);
    SamplingTail(("model", Str("gpt-3.5-turbo")), ("messages", JArr([UserMessage(Str(d))])));
  }

  /** The OpenAI-compatible body names the model and otherwise matches the Databricks one. */
  lemma OpenAIBody(d: string)
    ensures BuildRequestBody(BodyMapping(OpenAICompatible.requestMapping), TaskInput(d))
         == Ok(Obj([("model", Str("gpt-3.5-turbo")), ("messages", JArr([UserMessage(Str(d))])),
                    ("max_tokens", JInt(1000)), ("temperature", JReal(0.7))]))
  {
    OpenAIMapping();
    ChatDescriptionBody(d);
    SamplingTail(("model", Str("gpt-3.5-turbo")), ("messages", JArr([UserMessage(Str(d))])));
  }

  lemma SecondEntry(k1: string, v1: Json, k2: string, v2: Json)
    requires k1 != k2
    ensures Get([(k1, v1), (k2, v2)], k2) == Some(v2)
  {
    assert [(k1, v1), (k2, v2)][1..] == [(k2, v2)];
  }

  /** The path the chat templates read the result from. */
  const ChatResultSegments: seq<Segment> := [Index("choices", 0), Field("message"), Field("content")]

  lemma ChatPathPieces()
    ensures RenderSegments(ChatResultSegments) == ["choices[0]", "message", "content"]
  {
    var chat := ChatResultSegments;
    assert Strings.NatToString(0) == "0";
    assert RenderSegment(chat[0]) == "choices[0]";
    assert RenderSegments(chat[2..]) == ["content"] by {
      assert chat[2..][1..] == [];
    }
    assert RenderSegments(chat[1..]) == ["message", "content"] by {
      assert chat[1..][1..] == chat[2..];
    }
  }

  lemma ChatPathRenders()
    ensures Render(ChatResultSegments) == "$.choices[0].message.content"
  {
    ChatPathPieces();
    var pieces := ["choices[0]", "message", "content"];
    assert Join(pieces[2..], '.') == "content";
    assert Join(pieces[1..], '.') == "message.content";
  }

  lemma ChatSegmentsValid()
    ensures ValidPath(ChatResultSegments)
  {
    assert ValidName("choices") && ValidName("message") && ValidName("content");
  }

  lemma ChatPathParses()
    ensures Parse("$.choices[0].message.content") == Ok(ChatResultSegments)
  {
    ChatSegmentsValid();
    ChatPathRenders();
    ParseRender(ChatResultSegments);
  }

  lemma ChatPathFinds(content: string)
    ensures Find(ChatReply(content), ChatResultSegments) == Some(Str(content))
  {
    var chat := ChatResultSegments;
    var reply := ChatReply(content);
    var choice := reply.fields[0].1.items[0];
    var message := choice.fields[0].1;
    assert message == Obj([("role", Str("assistant")), ("content", Str(content))]);
    assert "role" != "content" by {
      assert "role"[0] != "content"[0];
    }
    SecondEntry("role", Str("assistant"), "content", Str(content));
    assert chat[2..][1..] == [];
    assert Find(message, chat[2..]) == Some(Str(content));
    assert Member(choice, "message") == Some(message);
    assert chat[1..][1..] == chat[2..];
    assert Find(choice, chat[1..]) == Some(Str(content));
    assert Member(reply, "choices") == Some(JArr([choice]));
  }

  lemma ChatResultPathText()
    ensures Get(ChatResponseMapping.fields, "result_path") == Some(Str("$.choices[0].message.content"))
  {
  }

  /** The chat result path picks the first choice's message content. */
  lemma ChatResultPath(content: string)
    ensures ExtractResponseData(ChatReply(content), ChatResponseMapping) == Ok(Found(Str(content)))
  {
    ChatResultPathText();
    ChatPathParses();
    ChatPathFinds(content);
    ExtractVia(ChatReply(content), ChatResponseMapping, "$.choices[0].message.content", ChatResultSegments, Str(content));
  }

  /** A mapping whose result path parses and matches extracts the match. */
  lemma ExtractVia(response: Json, mapping: Json, path: string, segs: seq<Segment>, v: Json)
    requires mapping.JObj? && Get(mapping.fields, "result_path") == Some(JStr(path))
    requires Parse(path) == Ok(segs) && Find(response, segs) == Some(v)
    ensures ExtractResponseData(response, mapping) == Ok(Found(v))
  {
  }

  /** The crewai result path picks the answer out of its example response. */
  lemma CrewAIExampleResult()
    ensures ExtractResponseData(CrewAI.exampleResponse, CrewAI.responseMapping)
         == Ok(Found(Str("Comprehensive research report...")))
  {
    var response := CrewAI.exampleResponse;
    assert Get(CrewAI.responseMapping.fields, "result_path") == Some(Str("$.result"));
    assert Get(response.fields, "result") == Some(Str("Comprehensive research report..."));
    DefaultResultPath(response);
  }

  /** The custom result path picks the answer out of its example response. */
  lemma CustomExampleResult()
    ensures ExtractResponseData(Custom.exampleResponse, Custom.responseMapping) == Ok(Found(Str("Response here")))
  {
    var response := Custom.exampleResponse;
    assert Get(Custom.responseMapping.fields, "result_path") == Some(Str("$.result"));
    assert Get(response.fields, "result") == Some(Str("Response here"));
    DefaultResultPath(response);
  }

  /** The Databricks result path picks the answer out of its example response. */
  lemma DatabricksExampleResult()
    ensures ExtractResponseData(DatabricksFoundation.exampleResponse, DatabricksFoundation.responseMapping)
         == Ok(Found(Str("Artificial intelligence is...")))
  {
    ChatResultPath("Artificial intelligence is...");
  }

  /** The OpenAI-compatible result path picks the answer out of its example response. */
  lemma OpenAIExampleResult()
    ensures ExtractResponseData(OpenAICompatible.exampleResponse, OpenAICompatible.responseMapping)
         == Ok(Found(Str("I'm doing well, thank you!")))
  {
    ChatResultPath("I'm doing well, thank you!");
  }
}
