/**
 * What the dummy provider servers share: chat messages, the choice of the
 * query among them, the optional `Bearer ` authorization check, token
 * accounting by whitespace word counts, and the shape of an HTTP outcome.
 */
module ProviderChat {
  import opened Wrappers
  import opened JsonData
  import Seqs
  import Strings
  import opened JsonPath
  import opened RequestMapping
  import TemplateModel

  /** A chat message, `{"role": ..., "content": ...}`. */
  datatype ChatMessage = ChatMessage(role: string, content: string)

  /** What an endpoint answers: a JSON body, or an `HTTPException` with its status and detail. */
  datatype Outcome = Served(body: Json) | Refused(status: int, detail: string)

  /**
   * An Authorization header the servers refuse: present, non-empty, and not
   * starting with `Bearer `. An absent or empty header is let through.
   */
  predicate AuthorizationRejected(authorization: Option<string>) {
    authorization.Some? && authorization.value != "" && !Strings.StartsWith(authorization.value, "Bearer ")
  }

  /** A header is accepted exactly when it is absent, empty or a bearer token. */
  lemma AuthorizationAccepted(authorization: Option<string>)
    ensures !AuthorizationRejected(authorization) <==>
      authorization == None || authorization == Some("")
      || exists token :: authorization == Some("Bearer " + token)
  {
    if authorization.Some? && Strings.StartsWith(authorization.value, "Bearer ") {
      var a := authorization.value;
      assert a == "Bearer " + a[7..];
    }
    if authorization.Some? && authorization.value != "" && (exists token :: authorization == Some("Bearer " + token)) {
      var token :| authorization == Some("Bearer " + token);
      assert ("Bearer " + token)[..7] == "Bearer ";
    }
  }

  /**
   * The authorization argument an endpoint function receives: the request's
   * header when the framework calls it, or, when Python code calls it
   * directly without that argument, the `Header(None)` default itself, a
   * parameter marker object that is truthy and has no `startswith`.
   */
  datatype AuthArgument = HeaderArgument(header: Option<string>) | DefaultMarker

  /**
   * The endpoints' authorization check on the argument it is given: a header
   * is refused or let through as `AuthorizationRejected` says; the default
   * marker passes the truthiness test and its `startswith` raises outside
   * any handler, which the server answers with a bare 500.
   */
  function CheckAuthorization(argument: AuthArgument): (r: Option<Outcome>)
    ensures r == Some(Refused(401, InvalidAuthorization)) <==>
      argument.HeaderArgument? && AuthorizationRejected(argument.header)
    ensures r == Some(Refused(500, InternalServerError)) <==> argument.DefaultMarker?
    ensures r.None? <==> argument.HeaderArgument? && !AuthorizationRejected(argument.header)
  {
    match argument
    case DefaultMarker => Some(Refused(500, InternalServerError))
    case HeaderArgument(header) =>
      if AuthorizationRejected(header) then Some(Refused(401, InvalidAuthorization)) else None
  }

  predicate IsUser(m: ChatMessage) {
    m.role == "user"
  }

  /** The user messages of a conversation, in order. */
  function UserMessages(messages: seq<ChatMessage>): seq<ChatMessage> {
    Seqs.Filter(messages, IsUser)
  }

  /** `user_messages[-1].content`, or nothing when there is no user message. */
  function LastUserQuery(messages: seq<ChatMessage>): Option<string> {
    var users := UserMessages(messages);
    if users == [] then None else Some(users[|users| - 1].content)
  }

  /** Filtering a conversation one more message on. */
  lemma UserMessagesSnoc(messages: seq<ChatMessage>)
    requires messages != []
    ensures var init, last := messages[..|messages| - 1], messages[|messages| - 1];
      UserMessages(messages) == UserMessages(init) + if IsUser(last) then [last] else []
  {
  }

  /** There is a query exactly when some message has the role "user". */
  lemma {:induction false} QueryIffUserMessage(messages: seq<ChatMessage>)
    ensures LastUserQuery(messages).None? <==> forall k :: 0 <= k < |messages| ==> messages[k].role != "user"
  {
    if messages != [] {
      var init := messages[..|messages| - 1];
      QueryIffUserMessage(init);
      UserMessagesSnoc(messages);
      assert forall k :: 0 <= k < |init| ==> init[k] == messages[k];
    }
  }

  /** The content of a user message no later message outdoes is the query. */
  lemma LastUserAt(messages: seq<ChatMessage>, k: nat)
    requires k < |messages| && messages[k].role == "user"
    requires forall j :: k < j < |messages| ==> messages[j].role != "user"
    ensures LastUserQuery(messages) == Some(messages[k].content)
  {
    QueryIffUserMessage(messages);
    var last := LastUserIndex(messages);
    assert last == k;
  }

  /** The query is the content of the last message whose role is "user". */
  lemma {:induction false} LastUserIndex(messages: seq<ChatMessage>) returns (k: nat)
    requires LastUserQuery(messages).Some?
    ensures k < |messages| && messages[k].role == "user" && messages[k].content == LastUserQuery(messages).value
    ensures forall j :: k < j < |messages| ==> messages[j].role != "user"
  {
    var init, last := messages[..|messages| - 1], messages[|messages| - 1];
    UserMessagesSnoc(messages);
    if IsUser(last) {
      k := |messages| - 1;
    } else {
      assert UserMessages(messages) == UserMessages(init);
      k := LastUserIndex(init);
      assert messages[k] == init[k];
    }
  }

  /** `sum(len(msg.content.split()) for msg in messages)`. */
  function SumWords(messages: seq<ChatMessage>): nat {
    if messages == [] then 0 else Strings.WordCount(messages[0].content) + SumWords(messages[1..])
  }

  /** The contents of the messages joined by single spaces: the conversation's text. */
  function Conversation(messages: seq<ChatMessage>): string {
    if messages == [] then ""
    else if |messages| == 1 then messages[0].content
    else messages[0].content + " " + Conversation(messages[1..])
  }

  /** Counting word by word, message by message, counts the words of the whole conversation. */
  lemma {:induction false} SumWordsIsConversationWords(messages: seq<ChatMessage>)
    ensures SumWords(messages) == Strings.WordCount(Conversation(messages))
  {
    if messages == [] {
      assert Strings.Words("") == [];
    } else if |messages| == 1 {
      assert messages[1..] == [];
    } else {
      var rest := messages[1..];
      SumWordsIsConversationWords(rest);
      Strings.WordCountAppend(messages[0].content, Conversation(rest));
      Strings.WordCountIsWordStarts(messages[0].content);
      Strings.WordCountIsWordStarts(Conversation(rest));
      Strings.WordCountIsWordStarts(Conversation(messages));
    }
  }

  /** Every message's words are among the prompt's. */
  lemma {:induction false} SumWordsCovers(messages: seq<ChatMessage>, k: nat)
    requires k < |messages|
    ensures Strings.WordCount(messages[k].content) <= SumWords(messages)
  {
    var first, rest := messages[0], messages[1..];
    assert messages == [first] + rest;
    if k > 0 {
      SumWordsCovers(rest, k - 1);
      assert rest[k - 1] == messages[k];
    }
  }

  /** In particular the query's words: counting the whole conversation never counts fewer. */
  lemma QueryWordsWithin(messages: seq<ChatMessage>)
    requires LastUserQuery(messages).Some?
    ensures Strings.WordCount(LastUserQuery(messages).value) <= SumWords(messages)
  {
    var k := LastUserIndex(messages);
    SumWordsCovers(messages, k);
  }

  /** Python's `a or b` on JSON values: `a` when it is truthy, else `b`. */
  function Or(a: Json, b: Json): (r: Json)
    ensures Truthy(a) ==> r == a
    ensures !Truthy(a) ==> r == b
  {
    if Truthy(a) then a else b
  }

  /** `request.get(key)` is truthy. */
  predicate Given(request: Fields, key: string) {
    Get(request, key).Some? && Truthy(Get(request, key).value)
  }

  /** `request.get(first) or request.get(second) or request.get(last, default)`. */
  function FirstTruthy(request: Fields, first: string, second: string, last: string, default: Json): (r: Json)
    ensures Given(request, first) ==> r == Get(request, first).value
    ensures !Given(request, first) && Given(request, second) ==> r == Get(request, second).value
    ensures !Given(request, first) && !Given(request, second) ==> r == GetOr(request, last, default)
  {
    Or(Or(GetOr(request, first, JNull), GetOr(request, second, JNull)), GetOr(request, last, default))
  }

  /** The `usage` block: the prompt's and the completion's word counts and their total. */
  function Usage(prompt: nat, completion: nat): Json {
    JObj([("prompt_tokens", JInt(prompt)), ("completion_tokens", JInt(completion)),
          ("total_tokens", JInt(prompt + completion))])
  }

  /** The one choice of a chat completion: index 0, the assistant's message, finish reason "stop". */
  function AssistantChoice(text: string): Json {
    JObj([("index", JInt(0)),
          ("message", JObj([("role", JStr("assistant")), ("content", JStr(text))])),
          ("finish_reason", JStr("stop"))])
  }

  /**
   * The detail of the 500 a missing user message turns into: the 400 raised
   * inside the `try` is caught by the generic handler, and `str()` of an
   * `HTTPException` is its status and detail.
   */
  const NoUserMessage: string := "400: No user message found"

  const InvalidAuthorization: string := "Invalid authorization header"

  /** A dict entry is found when no earlier entry has its key. */
  lemma {:induction false} GetAfter(before: Fields, key: string, v: Json, after: Fields)
    requires forall k :: 0 <= k < |before| ==> before[k].0 != key
    ensures Get(before + [(key, v)] + after, key) == Some(v)
  {
    if before != [] {
      GetAfter(before[1..], key, v, after);
      assert (before + [(key, v)] + after)[1..] == before[1..] + [(key, v)] + after;
    }
  }

  /**
   * A completion response: id, object kind, creation time, model, the one
   * choice and the usage block, in that order.
   */
  function CompletionBody(id: string, kind: string, created: int, model: Json, choice: Json, usage: Json): Json {
    JObj([("id", JStr(id)), ("object", JStr(kind)), ("created", JInt(created)), ("model", model),
          ("choices", JArr([choice])), ("usage", usage)])
  }

  /** The model, the choices and the usage of a completion response read back as built. */
  lemma CompletionBodyMembers(id: string, kind: string, created: int, model: Json, choice: Json, usage: Json)
    ensures var body := CompletionBody(id, kind, created, model, choice, usage);
      && Member(body, "model") == Some(model)
      && Member(body, "choices") == Some(JArr([choice]))
      && Member(body, "usage") == Some(usage)
  {
    var body := CompletionBody(id, kind, created, model, choice, usage);
    var f := body.fields;
    GetAfter(f[..3], "model", model, f[4..]);
    assert f[..3] + [("model", model)] + f[4..] == f;
    GetAfter(f[..4], "choices", JArr([choice]), f[5..]);
    assert f[..4] + [("choices", JArr([choice]))] + f[5..] == f;
    GetAfter(f[..5], "usage", usage, []);
    assert f[..5] + [("usage", usage)] + [] == f;
  }

  /** A path through the first choice of a completion response is a path through that choice. */
  lemma FirstChoice(id: string, kind: string, created: int, model: Json, choice: Json, usage: Json, rest: seq<Segment>)
    ensures Find(CompletionBody(id, kind, created, model, choice, usage), [Index("choices", 0)] + rest) == Find(choice, rest)
  {
    CompletionBodyMembers(id, kind, created, model, choice, usage);
    assert ([Index("choices", 0)] + rest)[1..] == rest;
  }

  /** The three counts of a usage block, as a client reads them. */
  lemma UsageMembers(prompt: nat, completion: nat)
    ensures Member(Usage(prompt, completion), "prompt_tokens") == Some(JInt(prompt))
    ensures Member(Usage(prompt, completion), "completion_tokens") == Some(JInt(completion))
    ensures Member(Usage(prompt, completion), "total_tokens") == Some(JInt(prompt + completion))
  {
    var f := Usage(prompt, completion).fields;
    GetAfter([], "prompt_tokens", JInt(prompt), f[1..]);
    GetAfter(f[..1], "completion_tokens", JInt(completion), f[2..]);
    assert f[..1] + [("completion_tokens", JInt(completion))] + f[2..] == f;
    GetAfter(f[..2], "total_tokens", JInt(prompt + completion), []);
    assert f[..2] + [("total_tokens", JInt(prompt + completion))] + [] == f;
  }

  /** The assistant's text sits at `choices[0].message.content`. */
  lemma ReplyAtChatPath(id: string, kind: string, created: int, model: Json, text: string, usage: Json)
    ensures Find(CompletionBody(id, kind, created, model, AssistantChoice(text), usage), TemplateModel.ChatResultSegments)
            == Some(JStr(text))
  {
    var choice := AssistantChoice(text);
    var message := JObj([("role", JStr("assistant")), ("content", JStr(text))]);
    CompletionBodyMembers(id, kind, created, model, choice, usage);
    GetAfter(choice.fields[..1], "message", message, choice.fields[2..]);
    assert choice.fields[..1] + [("message", message)] + choice.fields[2..] == choice.fields;
    GetAfter(message.fields[..1], "content", JStr(text), []);
    assert message.fields[..1] + [("content", JStr(text))] + [] == message.fields;
    var segs := TemplateModel.ChatResultSegments;
    assert segs[1..][1..][1..] == [];
    assert Find(message, segs[1..][1..]) == Some(JStr(text));
    assert Find(choice, segs[1..]) == Find(message, segs[1..][1..]);
  }

  /** So the chat templates' response mapping extracts the assistant's text from a chat completion. */
  lemma ChatReplyExtracted(id: string, created: int, model: Json, text: string, usage: Json)
    ensures ExtractResponseData(CompletionBody(id, "chat.completion", created, model, AssistantChoice(text), usage),
                                TemplateModel.ChatResponseMapping)
            == Ok(Found(JStr(text)))
  {
    var body := CompletionBody(id, "chat.completion", created, model, AssistantChoice(text), usage);
    TemplateModel.ChatResultPathText();
    TemplateModel.ChatPathParses();
    ReplyAtChatPath(id, "chat.completion", created, model, text, usage);
    TemplateModel.ExtractVia(body, TemplateModel.ChatResponseMapping, "$.choices[0].message.content",
                             TemplateModel.ChatResultSegments, JStr(text));
  }

  /** One message of a request body, as the request model validates it: string role and content. */
  function MessageOf(j: Json): Option<ChatMessage> {
    match (Member(j, "role"), Member(j, "content"))
    case (Some(JStr(role)), Some(JStr(content))) => Some(ChatMessage(role, content))
    case _ => None
  }

  /** A list of messages, each validated; one invalid message invalidates the request. */
  function MessagesOf(items: seq<Json>): (r: Option<seq<ChatMessage>>)
    ensures r.Some? ==> |r.value| == |items|
  {
    if items == [] then Some([])
    else match (MessageOf(items[0]), MessagesOf(items[1..]))
      case (Some(m), Some(rest)) => Some([m] + rest)
      case _ => None
  }

  /** The `messages` of a request body; other members are ignored. */
  function RequestMessages(body: Json): Option<seq<ChatMessage>> {
    match Member(body, "messages")
    case Some(JArr(items)) => MessagesOf(items)
    case _ => None
  }

  /** The declared type of an optional sampling field of a request model. */
  datatype FieldKind = IntKind | FloatKind | BoolKind | StrListKind

  /**
   * Whether an optional field of that type validates a value: null, or a
   * value of the type, with the lax conversions between numbers and
   * booleans (an integral float or a boolean for an int, an int or a boolean
   * for a float, 0 or 1 for a boolean). A list of strings takes only strings.
   */
  predicate KindAccepts(kind: FieldKind, j: Json) {
    match j
    case JNull => true
    case JBool(_) => kind != StrListKind
    case JInt(i) => kind == IntKind || kind == FloatKind || (kind == BoolKind && (i == 0 || i == 1))
    case JReal(r) =>
      || kind == FloatKind
      || (kind == IntKind && r == r.Floor as real)
      || (kind == BoolKind && (r == 0.0 || r == 1.0))
    case JArr(items) => kind == StrListKind && forall k :: 0 <= k < |items| ==> items[k].JStr?
    case _ => false
  }

  /** Every sampling field the dict holds is validated by its declared type; absent ones take their defaults. */
  predicate SamplingValid(fields: Fields, kinds: seq<(string, FieldKind)>) {
    forall k :: 0 <= k < |kinds| && Get(fields, kinds[k].0).Some? ==> KindAccepts(kinds[k].1, Get(fields, kinds[k].0).value)
  }

  /** No sampling field takes text, so a text value for a listed field fails validation. */
  lemma SamplingTextRejected(fields: Fields, kinds: seq<(string, FieldKind)>, k: nat, text: string)
    requires k < |kinds| && Get(fields, kinds[k].0) == Some(JStr(text))
    ensures !SamplingValid(fields, kinds)
  {
    assert !KindAccepts(kinds[k].1, JStr(text));
  }

  /** The sampling fields `process_generic` passes on: `max_tokens` and `temperature`, when the request holds them. */
  const GenericSampling: seq<(string, FieldKind)> := [("max_tokens", IntKind), ("temperature", FloatKind)]

  /** The detail of a 500 raised outside any handler of the server's own. */
  const InternalServerError: string := "Internal Server Error"

  /** What a `/process` endpoint answers: success, the agent's name, the text, and the model and usage. */
  function GenericReply(agent: string, result: Json, model: Json, usage: Json): Json {
    JObj([("status", JStr("success")), ("agent", JStr(agent)), ("result", result),
          ("metadata", JObj([("model", model), ("usage", usage)]))])
  }

  /**
   * What a `/process` endpoint makes of its provider endpoint's outcome: a
   * refusal passes through, and a served completion becomes a success
   * carrying the first choice's message content, the model and the usage.
   */
  function WrapGeneric(agent: string, o: Outcome): Outcome {
    match o
    case Refused(status, detail) => Refused(status, detail)
    case Served(body) =>
      match (Find(body, TemplateModel.ChatResultSegments), Member(body, "model"), Member(body, "usage"))
      case (Some(text), Some(model), Some(usage)) => Served(GenericReply(agent, text, model, usage))
      case _ => Refused(500, InternalServerError)
  }

  /** A served chat completion is wrapped with its assistant text, model and usage carried over. */
  lemma WrapChatCompletion(agent: string, id: string, created: int, model: Json, text: string, usage: Json)
    ensures WrapGeneric(agent, Served(CompletionBody(id, "chat.completion", created, model, AssistantChoice(text), usage)))
         == Served(GenericReply(agent, JStr(text), model, usage))
  {
    ReplyAtChatPath(id, "chat.completion", created, model, text, usage);
    CompletionBodyMembers(id, "chat.completion", created, model, AssistantChoice(text), usage);
  }

  /** A generic reply reports success, and the orchestrator's default result path finds its text. */
  lemma GenericReplyMembers(agent: string, result: Json, model: Json, usage: Json)
    ensures Member(GenericReply(agent, result, model, usage), "status") == Some(JStr("success"))
    ensures ExtractAt(GenericReply(agent, result, model, usage), "$.result") == Ok(Found(result))
  {
    var reply := GenericReply(agent, result, model, usage);
    GetAfter(reply.fields[..2], "result", result, reply.fields[3..]);
    assert reply.fields[..2] + [("result", result)] + reply.fields[3..] == reply.fields;
    DefaultResultPath(reply);
  }
}
