/** The `agents` table: agent kinds, statuses and the agent row. */
module AgentModel {
  import opened Wrappers
  import opened JsonData

  /** How the orchestrator reaches an agent. */
  datatype AgentType = A2AServer | Api | Local

  /** The members of `AgentType` in declaration order, as `for t in AgentType` visits them. */
  const AllAgentTypes: seq<AgentType> := [A2AServer, Api, Local]

  /** The stored value of each agent type. */
  function AgentTypeValue(t: AgentType): string {
    match t
    case A2AServer => "a2a_server"
    case Api => "api"
    case Local => "local"
  }

  /** `AgentType(s)`: the member whose value is `s`, if any. */
  function ParseAgentType(s: string): (r: Option<AgentType>)
    ensures r.Some? ==> AgentTypeValue(r.value) == s
    ensures r.None? ==> forall t :: AgentTypeValue(t) != s
  {
    if s == "a2a_server" then Some(A2AServer)
    else if s == "api" then Some(Api)
    else if s == "local" then Some(Local)
    else None
  }

  /** `AgentType` has exactly three members, listed once each, with distinct values. */
  lemma AgentTypesExact()
    ensures forall t: AgentType :: t in AllAgentTypes
    ensures |AllAgentTypes| == 3
    ensures forall i, j :: 0 <= i < j < 3 ==> AgentTypeValue(AllAgentTypes[i]) != AgentTypeValue(AllAgentTypes[j])
    ensures forall t :: ParseAgentType(AgentTypeValue(t)) == Some(t)
  {
    forall t: AgentType ensures t in AllAgentTypes {
      match t
      case A2AServer => assert AllAgentTypes[0] == t;
      case Api => assert AllAgentTypes[1] == t;
      case Local => assert AllAgentTypes[2] == t;
    }
  }

  /** Whether an agent may be offered work. */
  datatype AgentStatus = Active | Inactive | Error

  const AllAgentStatuses: seq<AgentStatus> := [Active, Inactive, Error]

  function AgentStatusValue(s: AgentStatus): string {
    match s
    case Active => "active"
    case Inactive => "inactive"
    case Error => "error"
  }

  /** `AgentStatus(s)`: the member whose value is `s`, if any. */
  function ParseAgentStatus(s: string): (r: Option<AgentStatus>)
    ensures r.Some? ==> AgentStatusValue(r.value) == s
    ensures r.None? ==> forall t :: AgentStatusValue(t) != s
  {
    if s == "active" then Some(Active)
    else if s == "inactive" then Some(Inactive)
    else if s == "error" then Some(Error)
    else None
  }

  /** `AgentStatus` has exactly three members with distinct values. */
  lemma AgentStatusesExact()
    ensures forall s: AgentStatus :: s in AllAgentStatuses
    ensures |AllAgentStatuses| == 3
    ensures forall i, j :: 0 <= i < j < 3 ==> AgentStatusValue(AllAgentStatuses[i]) != AgentStatusValue(AllAgentStatuses[j])
    ensures forall s :: ParseAgentStatus(AgentStatusValue(s)) == Some(s)
  {
    forall s: AgentStatus ensures s in AllAgentStatuses {
      match s
      case Active => assert AllAgentStatuses[0] == s;
      case Inactive => assert AllAgentStatuses[1] == s;
      case Error => assert AllAgentStatuses[2] == s;
    }
  }

  /** The column default of `status`. */
  const DefaultAgentStatus: AgentStatus := Active

  /** One row of the `agents` table. `metadata` is the `meta_data` column. */
  datatype Agent = Agent(
    id: nat,
    name: string,
    description: string,
    agentType: AgentType,
    endpoint: string,
    capabilities: seq<string>,
    config: Json,
    status: AgentStatus,
    createdAt: int,
    metadata: Json)

  /**
   * The table's integrity: rows in primary-key order with ids 1, 2, ... (rows
   * are never deleted) and the unique `name` column.
   */
  predicate WellFormedAgents(agents: seq<Agent>) {
    && (forall i :: 0 <= i < |agents| ==> agents[i].id == i + 1)
    && (forall i, j :: 0 <= i < j < |agents| ==> agents[i].name != agents[j].name)
  }

  predicate NameTaken(agents: seq<Agent>, name: string) {
    exists i :: 0 <= i < |agents| && agents[i].name == name
  }

  /** `query(Agent).filter(Agent.id == id).first()`. */
  function FindAgent(agents: seq<Agent>, id: int): (r: Option<Agent>)
    requires WellFormedAgents(agents)
    ensures r.Some? <==> exists i :: 0 <= i < |agents| && agents[i].id == id
    ensures r.Some? ==> r.value in agents && r.value.id == id
  {
    if 1 <= id <= |agents| then Some(agents[id - 1]) else None
  }
}
