/**
 * The dummy OpenAI-compatible server: chat completions, legacy text
 * completions, and the generic `/process` endpoint the orchestrator's custom
 * agents call. The canned reply texts, the uuid's hex digits and the clock
 * are parameters.
 */
module OpenAIServer {
  import opened Wrappers
  import opened JsonData
  import opened JsonPath
  import opened RequestMapping
  import opened ProviderChat
  import Seqs
  import Strings
  import TemplateModel

  const ChatModelDefault: string := "gpt-3.5-turbo"
  const LegacyModelDefault: string := "text-davinci-003"
  const AgentName: string := "OpenAI_Compatible_Agent"

  /**
   * The chat request as validated: the model (null allowed) and the
   * messages. The sampling fields are validated (`ChatSampling`) but not
   * kept: no endpoint reads them.
   */
  datatype CompletionRequest = CompletionRequest(model: Option<string>, messages: seq<ChatMessage>)

  /** The declared types of the chat request's sampling fields. */
  const ChatSampling: seq<(string, FieldKind)> :=
    [("max_tokens", IntKind), ("temperature", FloatKind), ("top_p", FloatKind), ("n", IntKind),
     ("stream", BoolKind), ("stop", StrListKind), ("presence_penalty", FloatKind), ("frequency_penalty", FloatKind)]

  /** The legacy request: the model (null allowed) and the prompt. */
  datatype LegacyCompletionRequest = LegacyCompletionRequest(model: Option<string>, prompt: string)

  /** The model as echoed in a response: the string, or null. */
  function ModelField(model: Option<string>): Json {
    if model.Some? then JStr(model.value) else JNull
  }

  /**
   * Validation of a chat request body: the messages must be valid and so
   * must every sampling field present; the model defaults when absent and
   * may be null; any other model value is invalid.
   */
  function ChatRequestOf(body: Json): (r: Option<CompletionRequest>)
    ensures r.Some? <==>
      && RequestMessages(body).Some? && SamplingValid(body.fields, ChatSampling)
      && (Member(body, "model").None? || Member(body, "model").value.JNull? || Member(body, "model").value.JStr?)
    ensures r.Some? ==> RequestMessages(body) == Some(r.value.messages)
    ensures r.Some? && Member(body, "model").None? ==> r.value.model == Some(ChatModelDefault)
  {
    if !body.JObj? || !SamplingValid(body.fields, ChatSampling) then None
    else match (Member(body, "model"), RequestMessages(body))
      case (_, None) => None
      case (None, Some(messages)) => Some(CompletionRequest(Some(ChatModelDefault), messages))
      case (Some(JNull), Some(messages)) => Some(CompletionRequest(None, messages))
      case (Some(JStr(model)), Some(messages)) => Some(CompletionRequest(Some(model), messages))
      case _ => None
  }

  /**
   * `create_chat_completion`: a present authorization without the `Bearer `
   * prefix is a 401; no user message is a 500 (the inner 400 caught and
   * re-raised); otherwise one assistant choice answering the last user
   * message, with every message's words counted as the prompt.
   */
  function ChatCompletion(request: CompletionRequest, authorization: Option<string>, hex: string, created: int,
                          reply: string -> string): (r: Outcome)
    ensures r == Refused(401, InvalidAuthorization) <==> AuthorizationRejected(authorization)
    ensures r == Refused(500, NoUserMessage) <==>
      !AuthorizationRejected(authorization) && forall k :: 0 <= k < |request.messages| ==> request.messages[k].role != "user"
    ensures r.Served? || r == Refused(401, InvalidAuthorization) || r == Refused(500, NoUserMessage)
  {
    QueryIffUserMessage(request.messages);
    if AuthorizationRejected(authorization) then Refused(401, InvalidAuthorization)
    else match LastUserQuery(request.messages)
      case None => Refused(500, NoUserMessage)
      case Some(query) =>
        var text := reply(query);
        Served(CompletionBody(ChatId(hex), "chat.completion", created, ModelField(request.model),
                              AssistantChoice(text), Usage(SumWords(request.messages), Strings.WordCount(text))))
  }

  /** The id of a chat completion: `chatcmpl-` and the first 29 hex digits of a uuid. */
  function ChatId(hex: string): string {
    "chatcmpl-" + Seqs.Take(hex, 29)
  }

  /** When the last user message is at `k`, the response answers it and counts the conversation's words. */
  lemma ChatCompletionBody(request: CompletionRequest, authorization: Option<string>, hex: string, created: int,
                           reply: string -> string, k: nat)
    requires !AuthorizationRejected(authorization)
    requires k < |request.messages| && request.messages[k].role == "user"
    requires forall j :: k < j < |request.messages| ==> request.messages[j].role != "user"
    ensures var text := reply(request.messages[k].content);
      ChatCompletion(request, authorization, hex, created, reply)
      == Served(CompletionBody(ChatId(hex), "chat.completion", created, ModelField(request.model), AssistantChoice(text),
                               Usage(Strings.WordCount(Conversation(request.messages)), Strings.WordCount(text))))
  {
    LastUserAt(request.messages, k);
    SumWordsIsConversationWords(request.messages);
  }

  /**
   * When the last user message is at `k`, the reply answers it, echoes the
   * request's model, and counts the words of the whole conversation as the
   * prompt; the chat templates' result path reads the reply.
   */
  lemma ChatCompletionServed(request: CompletionRequest, authorization: Option<string>, hex: string, created: int,
                             reply: string -> string, k: nat)
    requires !AuthorizationRejected(authorization)
    requires k < |request.messages| && request.messages[k].role == "user"
    requires forall j :: k < j < |request.messages| ==> request.messages[j].role != "user"
    ensures var r := ChatCompletion(request, authorization, hex, created, reply);
      var text := reply(request.messages[k].content);
      && r.Served?
      && ExtractResponseData(r.body, TemplateModel.ChatResponseMapping) == Ok(Found(JStr(text)))
      && Member(r.body, "model") == Some(ModelField(request.model))
      && Member(r.body, "usage") == Some(Usage(Strings.WordCount(Conversation(request.messages)), Strings.WordCount(text)))
  {
    ChatCompletionBody(request, authorization, hex, created, reply, k);
    var text := reply(request.messages[k].content);
    var usage := Usage(Strings.WordCount(Conversation(request.messages)), Strings.WordCount(text));
    ChatReplyExtracted(ChatId(hex), created, ModelField(request.model), text, usage);
    CompletionBodyMembers(ChatId(hex), "chat.completion", created, ModelField(request.model), AssistantChoice(text), usage);
  }

  /** The declared types of the legacy request's sampling fields. */
  const LegacySampling: seq<(string, FieldKind)> :=
    [("max_tokens", IntKind), ("temperature", FloatKind), ("top_p", FloatKind), ("n", IntKind),
     ("stream", BoolKind), ("stop", StrListKind)]

  /**
   * Validation of a legacy completion body: the prompt must be a string and
   * every sampling field present must have its type; the model defaults when
   * absent and may be null.
   */
  function LegacyRequestOf(body: Json): (r: Option<LegacyCompletionRequest>)
    ensures r.Some? <==>
      && body.JObj? && Member(body, "prompt").Some? && Member(body, "prompt").value.JStr?
      && SamplingValid(body.fields, LegacySampling)
      && (Member(body, "model").None? || Member(body, "model").value.JNull? || Member(body, "model").value.JStr?)
    ensures r.Some? ==> Member(body, "prompt") == Some(JStr(r.value.prompt))
    ensures r.Some? && Member(body, "model").None? ==> r.value.model == Some(LegacyModelDefault)
  {
    if !body.JObj? || !SamplingValid(body.fields, LegacySampling) then None
    else match (Member(body, "model"), Member(body, "prompt"))
      case (None, Some(JStr(prompt))) => Some(LegacyCompletionRequest(Some(LegacyModelDefault), prompt))
      case (Some(JNull), Some(JStr(prompt))) => Some(LegacyCompletionRequest(None, prompt))
      case (Some(JStr(model)), Some(JStr(prompt))) => Some(LegacyCompletionRequest(Some(model), prompt))
      case _ => None
  }

  /** The legacy choice: the text, index 0, no log-probabilities, finish reason "stop". */
  function TextChoice(text: string): Json {
    JObj([("text", JStr(text)), ("index", JInt(0)), ("logprobs", JNull), ("finish_reason", JStr("stop"))])
  }

  /**
   * `create_completion`: no authorization check and nothing that can fail, so
   * every request is served; the prompt's and the completion's words are the
   * usage.
   */
  function Completion(request: LegacyCompletionRequest, hex: string, created: int, complete: string -> string): Json {
    var text := complete(request.prompt);
    CompletionBody("cmpl-" + Seqs.Take(hex, 29), "text_completion", created, ModelField(request.model),
                   TextChoice(text), Usage(Strings.WordCount(request.prompt), Strings.WordCount(text)))
  }

  /** A legacy completion body, read by its parts: the text at `choices[0].text`, the model and the usage. */
  lemma TextCompletionMembers(id: string, created: int, model: Json, text: string, usage: Json)
    ensures var body := CompletionBody(id, "text_completion", created, model, TextChoice(text), usage);
      && Find(body, [Index("choices", 0), Field("text")]) == Some(JStr(text))
      && Member(body, "model") == Some(model)
      && Member(body, "usage") == Some(usage)
  {
    CompletionBodyMembers(id, "text_completion", created, model, TextChoice(text), usage);
    FirstChoice(id, "text_completion", created, model, TextChoice(text), usage, [Field("text")]);
    assert [Index("choices", 0)] + [Field("text")] == [Index("choices", 0), Field("text")];
    FindField(TextChoice(text), "text");
  }

  /**
   * The completion's text sits at `choices[0].text`, the model is echoed, and the usage counts the
   * prompt's and the completion's words (their total is `UsageMembers`).
   */
  lemma CompletionServed(request: LegacyCompletionRequest, hex: string, created: int, complete: string -> string)
    ensures Find(Completion(request, hex, created, complete), [Index("choices", 0), Field("text")])
            == Some(JStr(complete(request.prompt)))
    ensures Member(Completion(request, hex, created, complete), "model") == Some(ModelField(request.model))
    ensures Member(Completion(request, hex, created, complete), "usage")
            == Some(Usage(Strings.WordCount(request.prompt), Strings.WordCount(complete(request.prompt))))
  {
    TextCompletionMembers("cmpl-" + Seqs.Take(hex, 29), created, ModelField(request.model), complete(request.prompt),
                          Usage(Strings.WordCount(request.prompt), Strings.WordCount(complete(request.prompt))));
  }

  /** The query of a generic request: description, else query, else prompt with "Hello" as default. */
  function GenericQuery(request: Fields): Json {
    FirstTruthy(request, "description", "query", "prompt", JStr("Hello"))
  }

  /** The chat request `process_generic` makes: the query as the one user message, for `gpt-3.5-turbo`. */
  function GenericChat(query: string): CompletionRequest {
    CompletionRequest(Some(ChatModelDefault), [ChatMessage("user", query)])
  }

  /**
   * `process_generic`: the query as the one user message of a
   * `gpt-3.5-turbo` chat request, answered without an authorization header
   * and wrapped as a success. A query that is not a string, or a
   * `max_tokens` or `temperature` of the wrong type, fails the request's
   * validation: a 500.
   */
  function ProcessGeneric(request: Fields, hex: string, created: int, reply: string -> string): (r: Outcome)
    ensures !GenericQuery(request).JStr? || !SamplingValid(request, GenericSampling) ==>
      r == Refused(500, InternalServerError)
  {
    var query := GenericQuery(request);
    if !query.JStr? || !SamplingValid(request, GenericSampling) then Refused(500, InternalServerError)
    else WrapGeneric(AgentName, ChatCompletion(GenericChat(query.s), None, hex, created, reply))
  }

  /** The generic chat request is always served: its one message is the user's, and its words are the prompt. */
  lemma GenericChatServed(query: string, hex: string, created: int, reply: string -> string)
    ensures ChatCompletion(GenericChat(query), None, hex, created, reply)
         == Served(CompletionBody(ChatId(hex), "chat.completion", created, JStr(ChatModelDefault),
                                  AssistantChoice(reply(query)),
                                  Usage(Strings.WordCount(query), Strings.WordCount(reply(query)))))
  {
    var messages := [ChatMessage("user", query)];
    assert Conversation(messages) == query;
    ChatCompletionBody(GenericChat(query), None, hex, created, reply, 0);
  }

  /**
   * A string query with valid sampling fields is answered: success, the reply to the query as the
   * result, the default model, and the query's words as the prompt.
   */
  lemma ProcessGenericAnswers(request: Fields, hex: string, created: int, reply: string -> string, query: string)
    requires GenericQuery(request) == JStr(query) && SamplingValid(request, GenericSampling)
    ensures ProcessGeneric(request, hex, created, reply)
         == Served(GenericReply(AgentName, JStr(reply(query)), JStr(ChatModelDefault),
                                Usage(Strings.WordCount(query), Strings.WordCount(reply(query)))))
  {
    GenericChatServed(query, hex, created, reply);
    WrapChatCompletion(AgentName, ChatId(hex), created, JStr(ChatModelDefault), reply(query),
                       Usage(Strings.WordCount(query), Strings.WordCount(reply(query))));
  }

  /** `create_chat_completion` on the authorization argument it actually receives: the check, then the completion. */
  function ChatCompletionCalled(request: CompletionRequest, argument: AuthArgument, hex: string, created: int,
                                reply: string -> string): (r: Outcome)
    ensures argument.HeaderArgument? ==> r == ChatCompletion(request, argument.header, hex, created, reply)
    ensures argument.DefaultMarker? ==> r == Refused(500, InternalServerError)
  {
    match CheckAuthorization(argument)
    case Some(refusal) => refusal
    case None => ChatCompletion(request, argument.header, hex, created, reply)
  }

  /**
   * `process_generic` as written: it calls `create_chat_completion` with no
   * authorization argument, so the check receives the `Header(None)` marker.
   */
  function ProcessGenericAsWritten(request: Fields, hex: string, created: int, reply: string -> string): Outcome {
    var query := GenericQuery(request);
    if !query.JStr? || !SamplingValid(request, GenericSampling) then Refused(500, InternalServerError)
    else WrapGeneric(AgentName, ChatCompletionCalled(GenericChat(query.s), DefaultMarker, hex, created, reply))
  }

  /** As written, every generic request is a 500, including each one `ProcessGeneric` answers. */
  lemma ProcessGenericAsWrittenRefuses(request: Fields, hex: string, created: int, reply: string -> string)
    ensures ProcessGenericAsWritten(request, hex, created, reply) == Refused(500, InternalServerError)
    ensures GenericQuery(request).JStr? && SamplingValid(request, GenericSampling) ==>
      ProcessGenericAsWritten(request, hex, created, reply) != ProcessGeneric(request, hex, created, reply)
  {
    if GenericQuery(request).JStr? && SamplingValid(request, GenericSampling) {
      ProcessGenericAnswers(request, hex, created, reply, GenericQuery(request).s);
    }
  }

  /** The body the OpenAI-compatible template builds from a description, written out. */
  function TemplateBody(description: string): Json {
    JObj([("model", JStr(ChatModelDefault)), ("messages", JArr([TemplateModel.UserMessage(JStr(description))])),
          ("max_tokens", JInt(1000)), ("temperature", JReal(0.7))])
  }

  /** Its messages validate as the one user message. */
  lemma TemplateBodyMessages(description: string)
    ensures RequestMessages(TemplateBody(description)) == Some([ChatMessage("user", description)])
  {
    var message := TemplateModel.UserMessage(JStr(description));
    var body := TemplateBody(description);
    GetAfter(body.fields[..1], "messages", JArr([message]), body.fields[2..]);
    assert body.fields[..1] + [("messages", JArr([message]))] + body.fields[2..] == body.fields;
    assert MessageOf(message) == Some(ChatMessage("user", description)) by {
      GetAfter(message.fields[..1], "content", JStr(description), []);
      assert message.fields[..1] + [("content", JStr(description))] + [] == message.fields;
    }
    assert [message][1..] == [] && MessagesOf([]) == Some([]);
    assert [ChatMessage("user", description)] + [] == [ChatMessage("user", description)];
    assert MessagesOf([message]) == Some([ChatMessage("user", description)]);
  }

  /** So the whole body validates as the generic chat request. */
  lemma TemplateBodyValidates(description: string)
    ensures ChatRequestOf(TemplateBody(description)) == Some(GenericChat(description))
  {
    TemplateBodyMessages(description);
    assert Member(TemplateBody(description), "model") == Some(JStr(ChatModelDefault));
    var f := TemplateBody(description).fields;
    assert Keys(f[3..]) == ["temperature"];
    assert Keys(f[2..]) == ["max_tokens"] + Keys(f[3..]);
    assert Keys(f) == ["model", "messages"] + Keys(f[2..]);
    assert Get(f[2..], "max_tokens") == Some(JInt(1000)) && Get(f[3..], "temperature") == Some(JReal(0.7));
    forall k | 0 <= k < |ChatSampling|
      ensures Get(f, ChatSampling[k].0).Some? ==> KindAccepts(ChatSampling[k].1, Get(f, ChatSampling[k].0).value)
    {
      if k == 0 {
        assert Get(f, "max_tokens") == Get(f[1..], "max_tokens") == Get(f[2..], "max_tokens");
      } else if k == 1 {
        assert Get(f, "temperature") == Get(f[1..], "temperature") == Get(f[2..], "temperature") == Get(f[3..], "temperature");
      } else {
        assert ChatSampling[k].0 !in Keys(f);
      }
    }
  }

  /** The body the OpenAI-compatible template builds from a description validates as the generic chat request. */
  lemma TemplateRequest(description: string)
    ensures BuildRequestBody(TemplateModel.BodyMapping(TemplateModel.OpenAICompatible.requestMapping),
                             TemplateModel.TaskInput(description)) == Ok(TemplateBody(description))
    ensures ChatRequestOf(TemplateBody(description)) == Some(GenericChat(description))
  {
    TemplateModel.OpenAIBody(description);
    TemplateBodyValidates(description);
  }

  /**
   * The OpenAI-compatible template against this server: the body it builds
   * from a task's description is the one-message `gpt-3.5-turbo` request,
   * and the template's response mapping reads back the reply to the
   * description.
   */
  lemma TemplateRoundTrip(description: string, authorization: Option<string>, hex: string, created: int,
                          reply: string -> string)
    requires !AuthorizationRejected(authorization)
    ensures ChatCompletion(GenericChat(description), authorization, hex, created, reply).Served?
    ensures ExtractResponseData(ChatCompletion(GenericChat(description), authorization, hex, created, reply).body,
                                TemplateModel.OpenAICompatible.responseMapping)
         == Ok(Found(JStr(reply(description))))
  {
    ChatCompletionServed(GenericChat(description), authorization, hex, created, reply, 0);
    assert TemplateModel.OpenAICompatible.responseMapping == TemplateModel.ChatResponseMapping;
  }
}
