/**
 * The dummy CrewAI server: `/kickoff` runs a three-member crew (researcher,
 * analyst, writer) on a topic and answers with the writer's report, and
 * `/process` maps the orchestrator's generic request onto a kickoff. The
 * clock and Python's `str()` of a topic that is not a string are parameters.
 */
module CrewAIServer {
  import opened Wrappers
  import opened JsonData
  import opened RequestMapping
  import opened ProviderChat
  import TemplateModel

  /** A kickoff request: the inputs dict and an optional config dict. */
  datatype CrewAIRequest = CrewAIRequest(inputs: Fields, config: Option<Fields>)

  /** `config` may be absent, null or a dict. */
  predicate ConfigAccepted(config: Option<Json>) {
    config.None? || config.value.JNull? || config.value.JObj?
  }

  /** Validation of a kickoff body: `inputs` must be a dict, `config` absent, null or a dict. */
  function CrewAIRequestOf(body: Json): (r: Option<CrewAIRequest>)
    ensures r.Some? <==>
      body.JObj? && Member(body, "inputs").Some? && Member(body, "inputs").value.JObj?
      && ConfigAccepted(Get(body.fields, "config"))
    ensures r.Some? ==> JObj(r.value.inputs) == Member(body, "inputs").value
    ensures r.Some? ==> (r.value.config.Some? <==> Get(body.fields, "config").Some? && Get(body.fields, "config").value.JObj?)
  {
    if !body.JObj? then None
    else match (Get(body.fields, "inputs"), Get(body.fields, "config"))
      case (Some(JObj(inputs)), None) => Some(CrewAIRequest(inputs, None))
      case (Some(JObj(inputs)), Some(JNull)) => Some(CrewAIRequest(inputs, None))
      case (Some(JObj(inputs)), Some(JObj(config))) => Some(CrewAIRequest(inputs, Some(config)))
      case _ => None
  }

  /** The crew, in the order its members work. */
  datatype Role = Researcher | Analyst | Writer

  const Crew: seq<Role> := [Researcher, Analyst, Writer]

  function RoleName(role: Role): string {
    match role
    case Researcher => "Researcher"
    case Analyst => "Analyst"
    case Writer => "Writer"
  }

  function TaskName(role: Role): string {
    match role
    case Researcher => "Research"
    case Analyst => "Analysis"
    case Writer => "Writing"
  }

  const DefaultTopic: string := "general query"

  /**
   * `inputs.get("topic", inputs.get("query", "general query"))`: a key that
   * is present wins even when its value is empty or null.
   */
  function Topic(inputs: Fields): (t: Json)
    ensures HasKey(inputs, "topic") ==> t == Get(inputs, "topic").value
    ensures !HasKey(inputs, "topic") && HasKey(inputs, "query") ==> t == Get(inputs, "query").value
    ensures !HasKey(inputs, "topic") && !HasKey(inputs, "query") ==> t == JStr(DefaultTopic)
  {
    GetOr(inputs, "topic", GetOr(inputs, "query", JStr(DefaultTopic)))
  }

  /** How an f-string renders the topic: a string as itself, anything else by `str()`. */
  function Display(topic: Json, show: Json -> string): string {
    if topic.JStr? then topic.s else show(topic)
  }

  const ResearchOpening: string := "Research findings on '"
  const ResearchFindings: string :=
    "':\n\n" + "• Found 15+ relevant sources\n" + "• Key trends identified\n"
    + "• Latest developments documented\n" + "• Expert opinions collected"
  const AnalysisOpening: string := "Analysis of '"
  const AnalysisFindings: string :=
    "':\n\n" + "• Data shows strong growth patterns\n" + "• Market indicators are positive\n"
    + "• Risk factors identified and assessed\n" + "• Strategic recommendations prepared"
  const ReportOpening: string := "Final Report on '"
  const ReportBridge: string := "':\n\n" + "Based on comprehensive research and analysis, "
  const ReportClosing: string :=
    " demonstrates significant potential. " + "The research team identified key growth drivers, "
    + "while analysts confirmed positive market indicators. "
    + "Strategic recommendations include continued monitoring "
    + "and proactive engagement with emerging opportunities."

  /** The words each member of the crew opens with, just before the topic. */
  function Opening(role: Role): string {
    match role
    case Researcher => ResearchOpening
    case Analyst => AnalysisOpening
    case Writer => ReportOpening
  }

  /** What each member of the crew writes about the topic. */
  function Output(role: Role, topic: string): string {
    match role
    case Researcher => ResearchOpening + topic + ResearchFindings
    case Analyst => AnalysisOpening + topic + AnalysisFindings
    case Writer => ReportOpening + topic + (ReportBridge + topic + ReportClosing)
  }

  /** Every member's output names the topic right after its opening words. */
  lemma OutputNamesTopic(role: Role, topic: string)
    ensures Output(role, topic)[..|Opening(role)|] == Opening(role)
    ensures Output(role, topic)[|Opening(role)|..|Opening(role)| + |topic|] == topic
  {
    match role
    case Researcher => OpeningThenTopic(ResearchOpening, topic, ResearchFindings);
    case Analyst => OpeningThenTopic(AnalysisOpening, topic, AnalysisFindings);
    case Writer => OpeningThenTopic(ReportOpening, topic, ReportBridge + topic + ReportClosing);
  }

  lemma OpeningThenTopic(opening: string, topic: string, rest: string)
    ensures (opening + topic + rest)[..|opening|] == opening
    ensures (opening + topic + rest)[|opening|..|opening| + |topic|] == topic
  {
  }

  /** The writer's report names the topic a second time, after the bridge sentence. */
  lemma ReportNamesTopicTwice(topic: string)
    ensures var start := |ReportOpening| + |topic| + |ReportBridge|;
      Output(Writer, topic)[start..start + |topic|] == topic
  {
    Regroup(ReportOpening, topic, ReportBridge, ReportClosing);
    OpeningThenTopic(ReportOpening + topic + ReportBridge, topic, ReportClosing);
  }

  lemma Regroup(opening: string, topic: string, bridge: string, closing: string)
    ensures opening + topic + (bridge + topic + closing) == (opening + topic + bridge) + topic + closing
  {
  }

  /** One entry of the workflow: who worked, on what, and what they wrote. */
  function Entry(role: Role, topic: string): Json {
    JObj([("agent", JStr(RoleName(role))), ("task", JStr(TaskName(role))), ("output", JStr(Output(role, topic)))])
  }

  lemma EntryMembers(role: Role, topic: string)
    ensures Member(Entry(role, topic), "agent") == Some(JStr(RoleName(role)))
    ensures Member(Entry(role, topic), "task") == Some(JStr(TaskName(role)))
    ensures Member(Entry(role, topic), "output") == Some(JStr(Output(role, topic)))
  {
    var f := Entry(role, topic).fields;
    GetAfter(f[..1], "task", JStr(TaskName(role)), f[2..]);
    assert f[..1] + [("task", JStr(TaskName(role)))] + f[2..] == f;
    GetAfter(f[..2], "output", JStr(Output(role, topic)), []);
    assert f[..2] + [("output", JStr(Output(role, topic)))] + [] == f;
  }

  /** The whole workflow: one entry per member of the crew, in the crew's order. */
  function Workflow(topic: string): (w: seq<Json>)
    ensures |w| == |Crew|
    ensures forall i :: 0 <= i < |w| ==>
      Member(w[i], "agent") == Some(JStr(RoleName(Crew[i]))) && Member(w[i], "output") == Some(JStr(Output(Crew[i], topic)))
  {
    EntryMembers(Researcher, topic);
    EntryMembers(Analyst, topic);
    EntryMembers(Writer, topic);
    [Entry(Researcher, topic), Entry(Analyst, topic), Entry(Writer, topic)]
  }

  function Metadata(timestamp: string): Json {
    JObj([("crew_name", JStr("Research_Analysis_Team")),
          ("agents_used", JArr([JStr(RoleName(Researcher)), JStr(RoleName(Analyst)), JStr(RoleName(Writer))])),
          ("execution_time", JStr("3.2s")), ("timestamp", JStr(timestamp))])
  }

  /** The kickoff response for some inputs: the writer's report, the workflow, the metadata and success. */
  function KickoffResponse(inputs: Fields, show: Json -> string, timestamp: string): Json {
    var topic := Display(Topic(inputs), show);
    JObj([("result", JStr(Output(Writer, topic))), ("workflow", JArr(Workflow(topic))),
          ("metadata", Metadata(timestamp)), ("success", JBool(true))])
  }

  /**
   * `kickoff_crew`: the three members' entries are appended one after the
   * other and the last entry's output is the result.
   */
  method KickoffCrew(request: CrewAIRequest, show: Json -> string, timestamp: string) returns (response: Json)
    ensures response == KickoffResponse(request.inputs, show, timestamp)
  {
    var topic := Display(Topic(request.inputs), show);
    var workflow: seq<Json> := [];
    workflow := workflow + [Entry(Researcher, topic)];
    workflow := workflow + [Entry(Analyst, topic)];
    workflow := workflow + [Entry(Writer, topic)];
    assert workflow == Workflow(topic);
    EntryMembers(Writer, topic);
    var result := Member(workflow[|workflow| - 1], "output").GetOr(JNull);
    response := JObj([("result", result), ("workflow", JArr(workflow)),
                      ("metadata", Metadata(timestamp)), ("success", JBool(true))]);
  }

  /**
   * A kickoff response read back: success is true, the result is the output
   * of the last workflow entry, and that entry is the writer's.
   */
  lemma KickoffMembers(inputs: Fields, show: Json -> string, timestamp: string)
    ensures Member(KickoffResponse(inputs, show, timestamp), "success") == Some(JBool(true))
    ensures Member(KickoffResponse(inputs, show, timestamp), "result") == Some(JStr(Output(Writer, Display(Topic(inputs), show))))
    ensures Member(KickoffResponse(inputs, show, timestamp), "workflow") == Some(JArr(Workflow(Display(Topic(inputs), show))))
    ensures var w := Workflow(Display(Topic(inputs), show));
      Member(w[|w| - 1], "output") == Member(KickoffResponse(inputs, show, timestamp), "result")
  {
    var topic := Display(Topic(inputs), show);
    var f := KickoffResponse(inputs, show, timestamp).fields;
    GetAfter([], "result", JStr(Output(Writer, topic)), f[1..]);
    assert [] + [("result", JStr(Output(Writer, topic)))] + f[1..] == f;
    GetAfter(f[..1], "workflow", JArr(Workflow(topic)), f[2..]);
    assert f[..1] + [("workflow", JArr(Workflow(topic)))] + f[2..] == f;
    GetAfter(f[..3], "success", JBool(true), []);
    assert f[..3] + [("success", JBool(true))] + [] == f;
  }

  /** The metadata's `agents_used` lists the workflow's agents in the same order. */
  lemma AgentsUsedMatchWorkflow(topic: string, timestamp: string)
    ensures Member(Metadata(timestamp), "agents_used").Some?
    ensures var used := Member(Metadata(timestamp), "agents_used").value;
      used.JArr? && |used.items| == |Workflow(topic)|
      && forall i :: 0 <= i < |used.items| ==> Member(Workflow(topic)[i], "agent") == Some(used.items[i])
  {
    var f := Metadata(timestamp).fields;
    GetAfter(f[..1], "agents_used", f[1].1, f[2..]);
    assert f[..1] + [("agents_used", f[1].1)] + f[2..] == f;
  }

  /** The topic of a generic request: description, else query, else topic with "general query" as default. */
  function GenericTopic(request: Fields): Json {
    FirstTruthy(request, "description", "query", "topic", JStr(DefaultTopic))
  }

  /** `process_generic`: a kickoff on `{"topic": topic}`, answered unchanged. */
  method ProcessGeneric(request: Fields, show: Json -> string, timestamp: string) returns (response: Json)
    ensures response == KickoffResponse([("topic", GenericTopic(request))], show, timestamp)
    ensures Member(response, "result") == Some(JStr(Output(Writer, Display(GenericTopic(request), show))))
  {
    var inputs := [("topic", GenericTopic(request))];
    response := KickoffCrew(CrewAIRequest(inputs, None), show, timestamp);
    assert Topic(inputs) == GenericTopic(request);
    KickoffMembers(inputs, show, timestamp);
  }

  /** The body the CrewAI template builds from a description, written out. */
  function TemplateBody(description: string): Json {
    JObj([("inputs", JObj([("topic", JStr(description))]))])
  }

  /**
   * The CrewAI template against this server: the body it builds from a
   * task's description is a valid kickoff on that topic, and the template's
   * response mapping reads back the writer's report on it.
   */
  lemma TemplateRoundTrip(description: string, show: Json -> string, timestamp: string)
    ensures BuildRequestBody(TemplateModel.BodyMapping(TemplateModel.CrewAI.requestMapping),
                             TemplateModel.TaskInput(description)) == Ok(TemplateBody(description))
    ensures CrewAIRequestOf(TemplateBody(description)) == Some(CrewAIRequest([("topic", JStr(description))], None))
    ensures ExtractResponseData(KickoffResponse([("topic", JStr(description))], show, timestamp),
                                TemplateModel.CrewAI.responseMapping)
         == Ok(Found(JStr(Output(Writer, description))))
  {
    TemplateModel.CrewAIBody(description);
    var inputs := [("topic", JStr(description))];
    assert Topic(inputs) == JStr(description);
    KickoffMembers(inputs, show, timestamp);
    assert Get(TemplateModel.CrewAI.responseMapping.fields, "result_path") == Some(JStr("$.result"));
    DefaultResultPath(KickoffResponse(inputs, show, timestamp));
  }
}
