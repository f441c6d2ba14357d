/**
 * The dummy Databricks foundation-model server: the `llama-2-70b-chat`
 * invocation endpoint and the generic `/process` endpoint the orchestrator's
 * agents call. The canned reply text, the uuid's hex digits and the clock
 * are parameters.
 */
module DatabricksServer {
  import opened Wrappers
  import opened JsonData
  import opened RequestMapping
  import opened ProviderChat
  import Seqs
  import Strings
  import TemplateModel

  /** The one model this server answers as, whatever the request says. */
  const ServedModel: string := "llama-2-70b-chat"
  const AgentName: string := "Databricks_Foundation_Model"

  /**
   * The invocation request as validated: its messages. The sampling fields
   * are validated (`InvocationSampling`) but not kept: the endpoint does not
   * read them.
   */
  datatype DatabricksRequest = DatabricksRequest(messages: seq<ChatMessage>)

  /** The declared types of the invocation request's sampling fields. */
  const InvocationSampling: seq<(string, FieldKind)> :=
    [("max_tokens", IntKind), ("temperature", FloatKind), ("top_p", FloatKind), ("n", IntKind)]

  /** Validation of an invocation body: valid messages and valid sampling fields make a request, anything else is refused. */
  function DatabricksRequestOf(body: Json): (r: Option<DatabricksRequest>)
    ensures r.Some? <==> RequestMessages(body).Some? && SamplingValid(body.fields, InvocationSampling)
    ensures r.Some? ==> r.value.messages == RequestMessages(body).value
  {
    if !body.JObj? || !SamplingValid(body.fields, InvocationSampling) then None
    else match RequestMessages(body)
      case None => None
      case Some(messages) => Some(DatabricksRequest(messages))
  }

  /** The id of an invocation: `chatcmpl-` and the first 8 hex digits of a uuid. */
  function InvocationId(hex: string): string {
    "chatcmpl-" + Seqs.Take(hex, 8)
  }

  /**
   * `invoke_model`: a present authorization without the `Bearer ` prefix is
   * a 401; no user message is a 500 (the inner 400 caught and re-raised);
   * otherwise one assistant choice answering the last user message, with
   * only that message's words counted as the prompt.
   */
  function InvokeModel(request: DatabricksRequest, authorization: Option<string>, hex: string, created: int,
                       reply: string -> string): (r: Outcome)
    ensures r == Refused(401, InvalidAuthorization) <==> AuthorizationRejected(authorization)
    ensures r == Refused(500, NoUserMessage) <==>
      !AuthorizationRejected(authorization) && forall k :: 0 <= k < |request.messages| ==> request.messages[k].role != "user"
    ensures r.Served? || r == Refused(401, InvalidAuthorization) || r == Refused(500, NoUserMessage)
  {
    QueryIffUserMessage(request.messages);
    if AuthorizationRejected(authorization) then Refused(401, InvalidAuthorization)
    else match LastUserQuery(request.messages)
      case None => Refused(500, NoUserMessage)
      case Some(query) =>
        var text := reply(query);
        Served(CompletionBody(InvocationId(hex), "chat.completion", created, JStr(ServedModel),
                              AssistantChoice(text), Usage(Strings.WordCount(query), Strings.WordCount(text))))
  }

  /**
   * When the last user message is at `k`, the reply answers it as
   * `llama-2-70b-chat`, and the prompt count is that message's words alone.
   */
  lemma InvokeModelBody(request: DatabricksRequest, authorization: Option<string>, hex: string, created: int,
                        reply: string -> string, k: nat)
    requires !AuthorizationRejected(authorization)
    requires k < |request.messages| && request.messages[k].role == "user"
    requires forall j :: k < j < |request.messages| ==> request.messages[j].role != "user"
    ensures InvokeModel(request, authorization, hex, created, reply)
         == Served(CompletionBody(InvocationId(hex), "chat.completion", created, JStr(ServedModel),
                                  AssistantChoice(reply(request.messages[k].content)),
                                  Usage(Strings.WordCount(request.messages[k].content),
                                        Strings.WordCount(reply(request.messages[k].content)))))
  {
    LastUserAt(request.messages, k);
  }

  /**
   * An invocation body, read back: the fixed model, the one assistant choice
   * (index 0, finish reason "stop"), the usage, and the text where the chat
   * templates' result path finds it.
   */
  lemma InvocationMembers(id: string, created: int, text: string, usage: Json)
    ensures Member(CompletionBody(id, "chat.completion", created, JStr(ServedModel), AssistantChoice(text), usage), "model")
         == Some(JStr(ServedModel))
    ensures Member(CompletionBody(id, "chat.completion", created, JStr(ServedModel), AssistantChoice(text), usage), "choices")
         == Some(JArr([AssistantChoice(text)]))
    ensures Member(CompletionBody(id, "chat.completion", created, JStr(ServedModel), AssistantChoice(text), usage), "usage")
         == Some(usage)
    ensures ExtractResponseData(CompletionBody(id, "chat.completion", created, JStr(ServedModel), AssistantChoice(text), usage),
                                TemplateModel.ChatResponseMapping)
         == Ok(Found(JStr(text)))
  {
    CompletionBodyMembers(id, "chat.completion", created, JStr(ServedModel), AssistantChoice(text), usage);
    ChatReplyExtracted(id, created, JStr(ServedModel), text, usage);
  }

  /**
   * The prompt count of an invocation never exceeds the count the
   * OpenAI-compatible server gives the same conversation, which counts every
   * message's words.
   */
  lemma PromptNotAboveConversation(request: DatabricksRequest, k: nat)
    requires k < |request.messages| && request.messages[k].role == "user"
    requires forall j :: k < j < |request.messages| ==> request.messages[j].role != "user"
    ensures Strings.WordCount(request.messages[k].content) <= SumWords(request.messages)
  {
    LastUserAt(request.messages, k);
    QueryWordsWithin(request.messages);
  }

  /** The query of a generic request: description, else query, else input with "Hello" as default. */
  function GenericQuery(request: Fields): Json {
    FirstTruthy(request, "description", "query", "input", JStr("Hello"))
  }

  /** The invocation `process_generic` makes: the query as the one user message. */
  function GenericInvocation(query: string): DatabricksRequest {
    DatabricksRequest([ChatMessage("user", query)])
  }

  /**
   * `process_generic`: the query as the one user message of an invocation,
   * made without an authorization header and wrapped as a success. A query
   * that is not a string, or a `max_tokens` or `temperature` of the wrong
   * type, fails the request's validation: a 500.
   */
  function ProcessGeneric(request: Fields, hex: string, created: int, reply: string -> string): (r: Outcome)
    ensures !GenericQuery(request).JStr? || !SamplingValid(request, GenericSampling) ==>
      r == Refused(500, InternalServerError)
  {
    var query := GenericQuery(request);
    if !query.JStr? || !SamplingValid(request, GenericSampling) then Refused(500, InternalServerError)
    else WrapGeneric(AgentName, InvokeModel(GenericInvocation(query.s), None, hex, created, reply))
  }

  /**
   * A string query with valid sampling fields is answered: success, the reply to the query as the
   * result, the fixed model, and the query's words as the prompt.
   */
  lemma ProcessGenericAnswers(request: Fields, hex: string, created: int, reply: string -> string, query: string)
    requires GenericQuery(request) == JStr(query) && SamplingValid(request, GenericSampling)
    ensures ProcessGeneric(request, hex, created, reply)
         == Served(GenericReply(AgentName, JStr(reply(query)), JStr(ServedModel),
                                Usage(Strings.WordCount(query), Strings.WordCount(reply(query)))))
  {
    InvokeModelBody(GenericInvocation(query), None, hex, created, reply, 0);
    WrapChatCompletion(AgentName, InvocationId(hex), created, JStr(ServedModel), reply(query),
                       Usage(Strings.WordCount(query), Strings.WordCount(reply(query))));
  }

  /** `invoke_model` on the authorization argument it actually receives: the check, then the invocation. */
  function InvokeModelCalled(request: DatabricksRequest, argument: AuthArgument, hex: string, created: int,
                             reply: string -> string): (r: Outcome)
    ensures argument.HeaderArgument? ==> r == InvokeModel(request, argument.header, hex, created, reply)
    ensures argument.DefaultMarker? ==> r == Refused(500, InternalServerError)
  {
    match CheckAuthorization(argument)
    case Some(refusal) => refusal
    case None => InvokeModel(request, argument.header, hex, created, reply)
  }

  /**
   * `process_generic` as written: it calls `invoke_model` with no
   * authorization argument, so the check receives the `Header(None)` marker.
   */
  function ProcessGenericAsWritten(request: Fields, hex: string, created: int, reply: string -> string): Outcome {
    var query := GenericQuery(request);
    if !query.JStr? || !SamplingValid(request, GenericSampling) then Refused(500, InternalServerError)
    else WrapGeneric(AgentName, InvokeModelCalled(GenericInvocation(query.s), DefaultMarker, hex, created, reply))
  }

  /** As written, every generic request is a 500, including each one `ProcessGeneric` answers. */
  lemma ProcessGenericAsWrittenRefuses(request: Fields, hex: string, created: int, reply: string -> string)
    ensures ProcessGenericAsWritten(request, hex, created, reply) == Refused(500, InternalServerError)
    ensures GenericQuery(request).JStr? && SamplingValid(request, GenericSampling) ==>
      ProcessGenericAsWritten(request, hex, created, reply) != ProcessGeneric(request, hex, created, reply)
  {
    if GenericQuery(request).JStr? && SamplingValid(request, GenericSampling) {
      ProcessGenericAnswers(request, hex, created, reply, GenericQuery(request).s);
    }
  }

  /** The body the Databricks template builds from a description, written out. */
  function TemplateBody(description: string): Json {
    JObj([("messages", JArr([TemplateModel.UserMessage(JStr(description))])),
          ("max_tokens", JInt(1000)), ("temperature", JReal(0.7))])
  }

  /** Its messages validate as the one user message. */
  lemma TemplateBodyValidates(description: string)
    ensures DatabricksRequestOf(TemplateBody(description)) == Some(GenericInvocation(description))
  {
    var message := TemplateModel.UserMessage(JStr(description));
    assert Member(TemplateBody(description), "messages") == Some(JArr([message]));
    assert MessageOf(message) == Some(ChatMessage("user", description)) by {
      GetAfter(message.fields[..1], "content", JStr(description), []);
      assert message.fields[..1] + [("content", JStr(description))] + [] == message.fields;
    }
    assert [message][1..] == [] && MessagesOf([]) == Some([]);
    assert [ChatMessage("user", description)] + [] == [ChatMessage("user", description)];
    assert MessagesOf([message]) == Some([ChatMessage("user", description)]);
    var f := TemplateBody(description).fields;
    assert Keys(f[2..]) == ["temperature"];
    assert Keys(f) == ["messages", "max_tokens"] + Keys(f[2..]);
    assert Get(f[1..], "max_tokens") == Some(JInt(1000)) && Get(f[2..], "temperature") == Some(JReal(0.7));
    forall k | 0 <= k < |InvocationSampling|
      ensures Get(f, InvocationSampling[k].0).Some? ==> KindAccepts(InvocationSampling[k].1, Get(f, InvocationSampling[k].0).value)
    {
      if k == 0 {
        assert Get(f, "max_tokens") == Get(f[1..], "max_tokens");
      } else if k == 1 {
        assert Get(f, "temperature") == Get(f[1..], "temperature") == Get(f[2..], "temperature");
      } else {
        assert InvocationSampling[k].0 !in Keys(f);
      }
    }
  }

  /**
   * The Databricks template against this server: the body it builds from a
   * task's description is the one-message invocation, and the template's
   * response mapping reads back the reply to the description.
   */
  lemma TemplateRoundTrip(description: string, authorization: Option<string>, hex: string, created: int,
                          reply: string -> string)
    requires !AuthorizationRejected(authorization)
    ensures BuildRequestBody(TemplateModel.BodyMapping(TemplateModel.DatabricksFoundation.requestMapping),
                             TemplateModel.TaskInput(description)) == Ok(TemplateBody(description))
    ensures DatabricksRequestOf(TemplateBody(description)) == Some(GenericInvocation(description))
    ensures InvokeModel(GenericInvocation(description), authorization, hex, created, reply).Served?
    ensures ExtractResponseData(InvokeModel(GenericInvocation(description), authorization, hex, created, reply).body,
                                TemplateModel.DatabricksFoundation.responseMapping)
         == Ok(Found(JStr(reply(description))))
  {
    TemplateModel.DatabricksBody(description);
    TemplateBodyValidates(description);
    InvokeModelBody(GenericInvocation(description), authorization, hex, created, reply, 0);
    InvocationMembers(InvocationId(hex), created, reply(description),
                      Usage(Strings.WordCount(description), Strings.WordCount(reply(description))));
    assert TemplateModel.DatabricksFoundation.responseMapping == TemplateModel.ChatResponseMapping;
  }
}
