/** Registration, lookup, filtering, status changes and statistics over the agents table. */
module Registry {
  import opened Wrappers
  import opened JsonData
  import opened AgentModel
  import opened Strings

  /**
   * One `key: value` item of an `update_agent` dict: a column of the agent
   * row, or a key that names no attribute.
   */
  datatype AgentUpdate =
    | Name(name: string)
    | Description(description: string)
    | Type(agentType: AgentType)
    | Endpoint(endpoint: string)
    | Capabilities(capabilities: seq<string>)
    | Config(config: Json)
    | Status(status: AgentStatus)
    | Metadata(metadata: Json)
    | Id(id: nat)
    | CreatedAt(createdAt: int)
    | NotAnAttribute(key: string)

  /** One `setattr`: `id`, `created_at` and unknown keys are skipped. */
  function ApplyUpdate(a: Agent, u: AgentUpdate): Agent {
    match u
    case Name(v) => a.(name := v)
    case Description(v) => a.(description := v)
    case Type(v) => a.(agentType := v)
    case Endpoint(v) => a.(endpoint := v)
    case Capabilities(v) => a.(capabilities := v)
    case Config(v) => a.(config := v)
    case Status(v) => a.(status := v)
    case Metadata(v) => a.(metadata := v)
    case Id(_) => a
    case CreatedAt(_) => a
    case NotAnAttribute(_) => a
  }

  /** The `setattr` loop over the items in order. */
  function ApplyUpdates(a: Agent, us: seq<AgentUpdate>): Agent {
    if us == [] then a else ApplyUpdate(ApplyUpdates(a, us[..|us| - 1]), us[|us| - 1])
  }

  predicate Ignored(u: AgentUpdate) {
    u.Id? || u.CreatedAt? || u.NotAnAttribute?
  }

  /** Updates never change `id` or `created_at`, and skipped keys change nothing. */
  lemma {:induction false} UpdatesKeepIdentity(a: Agent, us: seq<AgentUpdate>)
    ensures ApplyUpdates(a, us).id == a.id && ApplyUpdates(a, us).createdAt == a.createdAt
    ensures (forall i :: 0 <= i < |us| ==> Ignored(us[i])) ==> ApplyUpdates(a, us) == a
  {
    if us != [] {
      UpdatesKeepIdentity(a, us[..|us| - 1]);
    }
  }

  /** The status reached after a health probe of a known agent. */
  datatype HealthProbe =
    | HealthResponse(statusCode: int, body: Option<Json>)  // `body` is absent when it is not JSON
    | HealthRaised(msg: string)                            // timeout, connection error, ...

  datatype HealthReport =
    | AgentNotFound(agentId: int)
    | Healthy(agentId: int, response: Json)
    | Unhealthy(agentId: int, statusCode: int)
    | HealthError(agentId: int, msg: string)

  /**
   * What `check_agent_health` reports for a probe. A 200 whose body is not
   * JSON raises after the status was set, and ends in the `except` branch.
   */
  function HealthOutcome(agentId: int, probe: HealthProbe): (r: (AgentStatus, HealthReport))
    ensures r.0 == Active <==> r.1.Healthy?
    ensures r.1.Healthy? <==> probe.HealthResponse? && probe.statusCode == 200 && probe.body.Some?
    ensures r.1.Unhealthy? <==> probe.HealthResponse? && probe.statusCode != 200
    ensures r.0 != Inactive && !r.1.AgentNotFound?
  {
    match probe
    case HealthResponse(code, body) =>
      if code == 200 then
        if body.Some? then (Active, Healthy(agentId, body.value))
        else (Error, HealthError(agentId, "response body is not JSON"))
      else (Error, Unhealthy(agentId, code))
    case HealthRaised(msg) => (Error, HealthError(agentId, msg))
  }

  /** The counts `get_agent_stats` returns; `byType` is keyed by type value in declaration order. */
  datatype AgentStats = AgentStats(total: nat, active: nat, inactive: nat, error: nat, byType: seq<(string, nat)>)

  function CountStatus(agents: seq<Agent>, s: AgentStatus): nat {
    if agents == [] then 0
    else CountStatus(agents[..|agents| - 1], s) + (if agents[|agents| - 1].status == s then 1 else 0)
  }

  function CountType(agents: seq<Agent>, t: AgentType): nat {
    if agents == [] then 0
    else CountType(agents[..|agents| - 1], t) + (if agents[|agents| - 1].agentType == t then 1 else 0)
  }

  function SumCounts(byType: seq<(string, nat)>): nat {
    if byType == [] then 0 else byType[0].1 + SumCounts(byType[1..])
  }

  /** Every agent has exactly one status, so the status counts add up to the total. */
  lemma {:induction false} StatusCountsPartition(agents: seq<Agent>)
    ensures CountStatus(agents, Active) + CountStatus(agents, Inactive) + CountStatus(agents, Error) == |agents|
  {
    if agents != [] {
      StatusCountsPartition(agents[..|agents| - 1]);
    }
  }

  /** Every agent has exactly one type, so the type counts add up to the total. */
  lemma {:induction false} TypeCountsPartition(agents: seq<Agent>)
    ensures CountType(agents, A2AServer) + CountType(agents, Api) + CountType(agents, Local) == |agents|
  {
    if agents != [] {
      TypeCountsPartition(agents[..|agents| - 1]);
    }
  }

  /**
   * `get_agent_stats`: the statistics of a table. Each count is the number
   * of agents `list_agents` returns under the matching filter.
   */
  function Stats(agents: seq<Agent>): (r: AgentStats)
    ensures r.total == |agents| == |ListFrom(agents, None, None)|
    ensures r.active == |ListFrom(agents, None, Some(Active))|
    ensures r.inactive == |ListFrom(agents, None, Some(Inactive))|
    ensures r.error == |ListFrom(agents, None, Some(Error))|
    ensures r.active + r.inactive + r.error == r.total
    ensures |r.byType| == |AllAgentTypes|
    ensures forall i :: 0 <= i < |r.byType| ==>
      r.byType[i].0 == AgentTypeValue(AllAgentTypes[i]) && r.byType[i].1 == |ListFrom(agents, Some(AllAgentTypes[i]), None)|
    ensures SumCounts(r.byType) == r.total
  {
    StatusCountsPartition(agents);
    TypeCountsPartition(agents);
    ListWithoutFilters(agents);
    CountStatusListed(agents, Active);
    CountStatusListed(agents, Inactive);
    CountStatusListed(agents, Error);
    CountTypeListed(agents, A2AServer);
    CountTypeListed(agents, Api);
    CountTypeListed(agents, Local);
    var byType := seq(|AllAgentTypes|, i requires 0 <= i < |AllAgentTypes| =>
      (AgentTypeValue(AllAgentTypes[i]), CountType(agents, AllAgentTypes[i])));
    assert SumCounts(byType[2..]) == CountType(agents, Local) by {
      assert byType[2..][1..] == [];
    }
    assert SumCounts(byType) == CountType(agents, A2AServer) + CountType(agents, Api) + CountType(agents, Local) by {
      assert byType[1..][1..] == byType[2..];
    }
    AgentStats(|agents|, CountStatus(agents, Active), CountStatus(agents, Inactive), CountStatus(agents, Error), byType)
  }

  /** `list_agents`' filters: an absent filter is no constraint, present ones all apply. */
  predicate Listed(a: Agent, agentType: Option<AgentType>, status: Option<AgentStatus>) {
    (agentType.None? || a.agentType == agentType.value) && (status.None? || a.status == status.value)
  }

  function ListFrom(agents: seq<Agent>, agentType: Option<AgentType>, status: Option<AgentStatus>): (r: seq<Agent>)
    ensures forall i :: 0 <= i < |r| ==> r[i] in agents && Listed(r[i], agentType, status)
    ensures forall i :: 0 <= i < |agents| && Listed(agents[i], agentType, status) ==> agents[i] in r
  {
    if agents == [] then []
    else
      var last := agents[|agents| - 1];
      ListFrom(agents[..|agents| - 1], agentType, status) + (if Listed(last, agentType, status) then [last] else [])
  }

  /** The agents with status `s` are as many as `list_agents` returns when filtering by `s`. */
  lemma {:induction false} CountStatusListed(agents: seq<Agent>, s: AgentStatus)
    ensures CountStatus(agents, s) == |ListFrom(agents, None, Some(s))|
  {
    if agents != [] {
      CountStatusListed(agents[..|agents| - 1], s);
    }
  }

  /** The agents of type `t` are as many as `list_agents` returns when filtering by `t`. */
  lemma {:induction false} CountTypeListed(agents: seq<Agent>, t: AgentType)
    ensures CountType(agents, t) == |ListFrom(agents, Some(t), None)|
  {
    if agents != [] {
      CountTypeListed(agents[..|agents| - 1], t);
    }
  }

  /** With no filters, every agent is listed, in table order. */
  lemma {:induction false} ListWithoutFilters(agents: seq<Agent>)
    ensures ListFrom(agents, None, None) == agents
  {
    if agents != [] {
      ListWithoutFilters(agents[..|agents| - 1]);
      assert agents == agents[..|agents| - 1] + [agents[|agents| - 1]];
    }
  }

  /** The two filters compose: filtering by both equals filtering by one, then the other. */
  lemma {:induction false} ListFiltersCompose(agents: seq<Agent>, t: AgentType, s: AgentStatus)
    ensures ListFrom(agents, Some(t), Some(s)) == ListFrom(ListFrom(agents, Some(t), None), None, Some(s))
  {
    if agents != [] {
      var init, last := agents[..|agents| - 1], agents[|agents| - 1];
      ListFiltersCompose(init, t, s);
      var byType := ListFrom(agents, Some(t), None);
      if last.agentType == t {
        assert byType[..|byType| - 1] == ListFrom(init, Some(t), None);
        assert byType[|byType| - 1] == last;
      } else {
        assert byType == ListFrom(init, Some(t), None);
      }
    }
  }

  /** `find_agents_by_capability`: the active agents listing the capability, in table order. */
  function WithCapability(agents: seq<Agent>, capability: string): (r: seq<Agent>)
    ensures forall i :: 0 <= i < |r| ==> r[i] in agents && r[i].status == Active && capability in r[i].capabilities
    ensures forall i :: 0 <= i < |agents| && agents[i].status == Active && capability in agents[i].capabilities ==> agents[i] in r
  {
    if agents == [] then []
    else
      var last := agents[|agents| - 1];
      WithCapability(agents[..|agents| - 1], capability)
        + (if last.status == Active && capability in last.capabilities then [last] else [])
  }

  /** The first agent with this name (names are unique, so the only one). */
  function FindByName(agents: seq<Agent>, name: string): (r: Option<Agent>)
    ensures r.Some? <==> NameTaken(agents, name)
    ensures r.Some? ==> r.value in agents && r.value.name == name
  {
    if agents == [] then None
    else if agents[0].name == name then Some(agents[0])
    else
      var r := FindByName(agents[1..], name);
      assert forall i :: 1 <= i < |agents| ==> agents[i] == agents[1..][i - 1];
      r
  }

  /** The agent registry over the `agents` table. */
  class AgentRegistry {
    var agents: seq<Agent>

    predicate Valid()
      reads this
    {
      WellFormedAgents(agents)
    }

    constructor ()
      ensures Valid() && agents == []
    {
      agents := [];
    }

    /**
     * `register_agent`: a taken name raises and changes nothing; otherwise one
     * ACTIVE agent is added, with config and metadata defaulting to {}.
     */
    method RegisterAgent(name: string, description: string, agentType: AgentType, endpoint: string,
                         capabilities: seq<string>, config: Option<Json>, metadata: Option<Json>, now: int)
      returns (r: Result<Agent>)
      requires Valid()
      modifies this
      ensures Valid()
      ensures NameTaken(old(agents), name) ==>
        r == Err("Agent with name '" + name + "' already exists") && agents == old(agents)
      ensures !NameTaken(old(agents), name) ==>
        && r == Ok(Agent(|old(agents)| + 1, name, description, agentType, endpoint, capabilities,
                         OrEmpty(config), Active, now, OrEmpty(metadata)))
        && agents == old(agents) + [r.value]
    {
      if FindByName(agents, name).Some? {
        return Err("Agent with name '" + name + "' already exists");
      }
      var agent := Agent(|agents| + 1, name, description, agentType, endpoint, capabilities,
                         OrEmpty(config), Active, now, OrEmpty(metadata));
      agents := agents + [agent];
      r := Ok(agent);
    }

    /** `get_agent`. */
    function GetAgent(agentId: int): (r: Option<Agent>)
      reads this
      requires Valid()
      ensures r.Some? <==> 1 <= agentId <= |agents|
      ensures r.Some? ==> r.value.id == agentId && r.value in agents
    {
      FindAgent(agents, agentId)
    }

    /** `get_agent_by_name`. */
    function GetAgentByName(name: string): (r: Option<Agent>)
      reads this
      ensures r.Some? <==> NameTaken(agents, name)
      ensures r.Some? ==> r.value in agents && r.value.name == name
    {
      FindByName(agents, name)
    }

    /** `list_agents`. */
    function ListAgents(agentType: Option<AgentType>, status: Option<AgentStatus>): (r: seq<Agent>)
      reads this
      ensures forall a :: a in r <==> a in agents && Listed(a, agentType, status)
    {
      ListFrom(agents, agentType, status)
    }

    /** `find_agents_by_capability`. */
    function FindAgentsByCapability(capability: string): (r: seq<Agent>)
      reads this
      ensures forall a :: a in r <==> a in agents && a.status == Active && capability in a.capabilities
    {
      WithCapability(agents, capability)
    }

    /** `get_agent_stats`. */
    function GetAgentStats(): (r: AgentStats)
      reads this
      ensures r.total == |agents| && r.active + r.inactive + r.error == r.total
      ensures r.active == |ListAgents(None, Some(Active))|
      ensures r.inactive == |ListAgents(None, Some(Inactive))|
      ensures r.error == |ListAgents(None, Some(Error))|
      ensures |r.byType| == |AllAgentTypes|
      ensures forall i :: 0 <= i < |r.byType| ==>
        r.byType[i].0 == AgentTypeValue(AllAgentTypes[i]) && r.byType[i].1 == |ListAgents(Some(AllAgentTypes[i]), None)|
      ensures SumCounts(r.byType) == r.total
    {
      Stats(agents)
    }

    /**
     * `update_agent`: an unknown id raises; otherwise the items are applied in
     * order (skipping `id`, `created_at` and unknown keys). A name that
     * another agent already has violates the unique column at commit and
     * leaves the table unchanged.
     */
    method UpdateAgent(agentId: int, updates: seq<AgentUpdate>) returns (r: Result<Agent>)
      requires Valid()
      modifies this
      ensures Valid()
      ensures !(1 <= agentId <= |old(agents)|) ==> r == Err("Agent " + IntToString(agentId) + " not found") && agents == old(agents)
      ensures 1 <= agentId <= |old(agents)| ==>
        var updated := ApplyUpdates(old(agents)[agentId - 1], updates);
        if NameClash(old(agents), agentId, updated.name) then r.Err? && agents == old(agents)
        else r == Ok(updated) && agents == old(agents)[agentId - 1 := updated]
    {
      if !(1 <= agentId <= |agents|) {
        return Err("Agent " + IntToString(agentId) + " not found");
      }
      var agent := agents[agentId - 1];
      var i := 0;
      while i < |updates|
        invariant 0 <= i <= |updates|
        invariant agent == ApplyUpdates(agents[agentId - 1], updates[..i])
      {
        assert updates[..i + 1][..i] == updates[..i];
        agent := ApplyUpdate(agent, updates[i]);
        i := i + 1;
      }
      assert updates[..i] == updates;
      if NameClash(agents, agentId, agent.name) {
        return Err("UNIQUE constraint failed: agents.name");
      }
      UpdatesKeepIdentity(agents[agentId - 1], updates);
      agents := agents[agentId - 1 := agent];
      r := Ok(agent);
    }

    /** `deactivate_agent`: only the status changes, to INACTIVE. */
    method DeactivateAgent(agentId: int) returns (r: Result<Agent>)
      requires Valid()
      modifies this
      ensures Valid()
      ensures !(1 <= agentId <= |old(agents)|) ==> r.Err? && agents == old(agents)
      ensures 1 <= agentId <= |old(agents)| ==>
        && r == Ok(old(agents)[agentId - 1].(status := Inactive))
        && agents == old(agents)[agentId - 1 := r.value]
    {
      if 1 <= agentId <= |agents| {
        SingleStatusUpdate(agents, agentId, Inactive);
      }
      r := UpdateAgent(agentId, [Status(Inactive)]);
    }

    /** `activate_agent`: only the status changes, to ACTIVE. */
    method ActivateAgent(agentId: int) returns (r: Result<Agent>)
      requires Valid()
      modifies this
      ensures Valid()
      ensures !(1 <= agentId <= |old(agents)|) ==> r.Err? && agents == old(agents)
      ensures 1 <= agentId <= |old(agents)| ==>
        && r == Ok(old(agents)[agentId - 1].(status := Active))
        && agents == old(agents)[agentId - 1 := r.value]
    {
      if 1 <= agentId <= |agents| {
        SingleStatusUpdate(agents, agentId, Active);
      }
      r := UpdateAgent(agentId, [Status(Active)]);
    }

    /**
     * `check_agent_health`: an unknown id is reported with no change;
     * otherwise only that agent's status changes, to ACTIVE for a 200 with a
     * JSON body and to ERROR for any other code or a raised error.
     */
    method CheckAgentHealth(agentId: int, probe: HealthProbe) returns (report: HealthReport)
      requires Valid()
      modifies this
      ensures Valid()
      ensures !(1 <= agentId <= |old(agents)|) ==> report == AgentNotFound(agentId) && agents == old(agents)
      ensures 1 <= agentId <= |old(agents)| ==>
        var (status, expected) := HealthOutcome(agentId, probe);
        && report == expected
        && agents == old(agents)[agentId - 1 := old(agents)[agentId - 1].(status := status)]
    {
      if !(1 <= agentId <= |agents|) {
        return AgentNotFound(agentId);
      }
      var (status, r) := HealthOutcome(agentId, probe);
      agents := agents[agentId - 1 := agents[agentId - 1].(status := status)];
      report := r;
    }
  }

  /** Some other agent already has `name`. */
  predicate NameClash(agents: seq<Agent>, agentId: int, name: string) {
    exists i :: 0 <= i < |agents| && i != agentId - 1 && agents[i].name == name
  }

  /** A status-only update never clashes on the name and changes only the status. */
  lemma SingleStatusUpdate(agents: seq<Agent>, agentId: int, s: AgentStatus)
    requires WellFormedAgents(agents) && 1 <= agentId <= |agents|
    ensures ApplyUpdates(agents[agentId - 1], [Status(s)]) == agents[agentId - 1].(status := s)
    ensures !NameClash(agents, agentId, agents[agentId - 1].name)
  {
    assert [Status(s)][..0] == [];
  }
}
