/** The two loaders over one set of parsers: `GatewayConfig.from_file`, which stops at the first
    problem, and `collect_config`, which reports every one (gateway/config.py). */
module Loaders {
  import opened Values
  import opened Configs

  datatype LoadError = Duplicate(name: string) | Other(message: string)

  datatype Outcome<+T> = Good(value: T) | Bad(error: LoadError)

  type Templates = map<string, map<string, Value>>
  type Presets = map<string, seq<ToolRule>>

  // The parsers both loaders share. A connector or rule is parsed up to its name, then checked
  // against the names seen, then parsed to the end.
  datatype Parsers = Parsers(
    connectorName: (Value, Templates) -> Outcome<string>,
    connector: (Value, Templates) -> Outcome<ConnectorConfig>,
    agent: (string, Value, Templates, Presets) -> Outcome<AgentConfig>,
    ruleName: (Value, Templates) -> Outcome<string>,
    rule: (Value, Templates, seq<ConnectorConfig>, map<string, AgentConfig>) -> Outcome<WatcherRule>)
  {
    /** What is parsed carries the name it was checked under, and only the check speaks of duplicates. */
    ghost predicate Lawful() {
      && (forall v, t :: connectorName(v, t).Good? && connector(v, t).Good? ==>
        connector(v, t).value.name == connectorName(v, t).value)
      && (forall v, t :: connector(v, t).Bad? ==> connector(v, t).error.Other?)
      && (forall n, v, t, ps :: agent(n, v, t, ps).Good? ==> agent(n, v, t, ps).value.name == n)
      && (forall v, t, cs, agents :: ruleName(v, t).Good? && rule(v, t, cs, agents).Good? ==>
            rule(v, t, cs, agents).value.name == ruleName(v, t).value)
    }
  }

  // One file, block by block: what each structural check makes of it.
  datatype Document = Document(
    unusable: Option<LoadError>,
    unknownKeys: Option<LoadError>,
    connectors: Outcome<seq<Value>>,
    connectorTemplates: Outcome<Templates>,
    agents: Outcome<seq<(string, Value)>>,
    agentTemplates: Outcome<Templates>,
    toolPresets: Outcome<Presets>,
    rules: Outcome<seq<Value>>,
    ruleTemplates: Outcome<Templates>,
    maxQueueDepth: Outcome<int>,
    completedJobTtlDays: Outcome<int>)

  const DEFAULT_QUEUE_DEPTH := 100
  const DEFAULT_TTL_DAYS := 7

  datatype Kind = GlobalIssue | ConnectorIssue | AgentIssue | RuleIssue
  datatype Issue = Issue(kind: Kind, error: LoadError)

  // ---- One entry at a time ----

  class SeenNames {
    var names: set<string>

    constructor ()
      ensures names == {}
    {
      names := {};
    }
  }

  // A connector's name is registered before the rest of it is parsed.
  function ConnectorOutcome(p: Parsers, v: Value, t: Templates, seen: set<string>): Outcome<ConnectorConfig> {
    match p.connectorName(v, t)
    case Bad(e) => Bad(e)
    case Good(n) => if n in seen then Bad(Duplicate(n)) else p.connector(v, t)
  }

  function ConnectorSeen(p: Parsers, v: Value, t: Templates, seen: set<string>): set<string> {
    match p.connectorName(v, t)
    case Bad(_) => seen
    case Good(n) => seen + {n}
  }

  method ParseConnector(p: Parsers, v: Value, t: Templates, seen: SeenNames) returns (r: Outcome<ConnectorConfig>)
    modifies seen
    ensures r == ConnectorOutcome(p, v, t, old(seen.names))
    ensures seen.names == ConnectorSeen(p, v, t, old(seen.names))
  {
    var name := p.connectorName(v, t);
    if name.Bad? { return Bad(name.error); }
    if name.value in seen.names {
      assert seen.names + {name.value} == seen.names;
      return Bad(Duplicate(name.value));
    }
    seen.names := seen.names + {name.value};
    r := p.connector(v, t);
  }

  // A rule's name is registered once the rule is fully built.
  function RuleOutcome(p: Parsers, v: Value, t: Templates, cs: seq<ConnectorConfig>, agents: map<string, AgentConfig>,
                       seen: set<string>): Outcome<WatcherRule>
  {
    match p.ruleName(v, t)
    case Bad(e) => Bad(e)
    case Good(n) => if n in seen then Bad(Duplicate(n)) else p.rule(v, t, cs, agents)
  }

  function RuleSeen(p: Parsers, v: Value, t: Templates, cs: seq<ConnectorConfig>, agents: map<string, AgentConfig>,
                    seen: set<string>): set<string>
  {
    if RuleOutcome(p, v, t, cs, agents, seen).Good? then seen + {p.ruleName(v, t).value} else seen
  }

  method ParseRule(p: Parsers, v: Value, t: Templates, cs: seq<ConnectorConfig>, agents: map<string, AgentConfig>,
                   seen: SeenNames)
    returns (r: Outcome<WatcherRule>)
    modifies seen
    ensures r == RuleOutcome(p, v, t, cs, agents, old(seen.names))
    ensures seen.names == RuleSeen(p, v, t, cs, agents, old(seen.names))
  {
    var name := p.ruleName(v, t);
    if name.Bad? { return Bad(name.error); }
    if name.value in seen.names { return Bad(Duplicate(name.value)); }
    r := p.rule(v, t, cs, agents);
    if r.Good? { seen.names := seen.names + {name.value}; }
  }

  // ---- Whole blocks ----

  function ConnectorOutcomes(p: Parsers, entries: seq<Value>, t: Templates,
                             seen: set<string>): (os: seq<Outcome<ConnectorConfig>>)
    ensures |os| == |entries|
  {
    if entries == [] then []
    else [ConnectorOutcome(p, entries[0], t, seen)] + ConnectorOutcomes(p, entries[1..], t,
      ConnectorSeen(p, entries[0], t, seen))
  }

  function AgentOutcomes(p: Parsers, entries: seq<(string, Value)>, t: Templates,
                         presets: Presets): seq<Outcome<AgentConfig>> {
    seq(|entries|, i requires 0 <= i < |entries| => p.agent(entries[i].0, entries[i].1, t, presets))
  }

  function RuleOutcomes(p: Parsers, entries: seq<Value>, t: Templates, cs: seq<ConnectorConfig>, agents: map<string,
                        AgentConfig>,
                        seen: set<string>): (os: seq<Outcome<WatcherRule>>)
    ensures |os| == |entries|
  {
    if entries == [] then []
    else
      [RuleOutcome(p, entries[0], t, cs, agents, seen)]
      + RuleOutcomes(p, entries[1..], t, cs, agents, RuleSeen(p, entries[0], t, cs, agents, seen))
  }

  function GoodOf<T>(o: Outcome<T>): seq<T> {
    if o.Good? then [o.value] else []
  }

  function IssueOf<T>(o: Outcome<T>, kind: Kind): seq<Issue> {
    if o.Bad? then [Issue(kind, o.error)] else []
  }

  function Goods<T>(os: seq<Outcome<T>>): seq<T> {
    if os == [] then []
    else GoodOf(os[0]) + Goods(os[1..])
  }

  function Issues<T>(os: seq<Outcome<T>>, kind: Kind): seq<Issue> {
    if os == [] then []
    else IssueOf(os[0], kind) + Issues(os[1..], kind)
  }

  function FirstBad<T>(os: seq<Outcome<T>>): Option<LoadError> {
    if os == [] then None
    else match os[0] case Good(_) => FirstBad(os[1..]) case Bad(e) => Some(e)
  }

  // The agents that parsed, under their names.
  function AgentMap(entries: seq<(string, Value)>, os: seq<Outcome<AgentConfig>>): map<string, AgentConfig>
    requires |entries| == |os|
  {
    if entries == [] then map[]
    else
      var k := |entries| - 1;
      var front := AgentMap(entries[..k], os[..k]);
      match os[k] case Good(a) => front[entries[k].0 := a] case Bad(_) => front
  }

  lemma {:induction false} FirstIssue<T>(os: seq<Outcome<T>>, kind: Kind)
    ensures FirstBad(os).None? <==> Issues(os, kind) == []
    ensures FirstBad(os).Some? ==> Issues(os, kind) != [] && Issues(os, kind)[0] == Issue(kind, FirstBad(os).value)
    ensures FirstBad(os).None? ==> |Goods(os)| == |os|
  {
    if os != [] { FirstIssue(os[1..], kind); }
  }

  // ---- Fail-fast ----

  function Load(p: Parsers, d: Document): Outcome<GatewayConfig> {
    if d.unusable.Some? then Bad(d.unusable.value)
    else if d.unknownKeys.Some? then Bad(d.unknownKeys.value)
    else if d.connectors.Bad? then Bad(d.connectors.error)
    else if d.connectorTemplates.Bad? then Bad(d.connectorTemplates.error)
    else
      var cs := ConnectorOutcomes(p, d.connectors.value, d.connectorTemplates.value, {});
      if FirstBad(cs).Some? then Bad(FirstBad(cs).value) else LoadAgents(p, d, Goods(cs))
  }

  function LoadAgents(p: Parsers, d: Document, cs: seq<ConnectorConfig>): Outcome<GatewayConfig> {
    if d.agents.Bad? then Bad(d.agents.error)
    else if d.agentTemplates.Bad? then Bad(d.agentTemplates.error)
    else if d.toolPresets.Bad? then Bad(d.toolPresets.error)
    else
      var os := AgentOutcomes(p, d.agents.value, d.agentTemplates.value, d.toolPresets.value);
      if FirstBad(os).Some? then Bad(FirstBad(os).value) else LoadRules(p, d, cs, AgentMap(d.agents.value, os))
  }

  function LoadRules(p: Parsers, d: Document, cs: seq<ConnectorConfig>, agents: map<string,
                     AgentConfig>): Outcome<GatewayConfig> {
    if d.rules.Bad? then Bad(d.rules.error)
    else if d.ruleTemplates.Bad? then Bad(d.ruleTemplates.error)
    else
      var rs := RuleOutcomes(p, d.rules.value, d.ruleTemplates.value, cs, agents, {});
      if FirstBad(rs).Some? then Bad(FirstBad(rs).value)
      else if d.maxQueueDepth.Bad? then Bad(d.maxQueueDepth.error)
      else if d.completedJobTtlDays.Bad? then Bad(d.completedJobTtlDays.error)
      else Good(GatewayConfig(cs, agents, Goods(rs), d.maxQueueDepth.value, d.completedJobTtlDays.value))
  }

  lemma Advance<T>(done: seq<T>, issues: seq<Issue>, o: Outcome<T>, rest: seq<Outcome<T>>, kind: Kind)
    ensures done + Goods([o] + rest) == (done + GoodOf(o)) + Goods(rest)
    ensures issues + Issues([o] + rest, kind) == (issues + IssueOf(o, kind)) + Issues(rest, kind)
    ensures FirstBad([o] + rest) == if o.Bad? then Some(o.error) else FirstBad(rest)
  {
    assert ([o] + rest)[0] == o && ([o] + rest)[1..] == rest;
    Associates(done, GoodOf(o), Goods(rest));
    Associates(issues, IssueOf(o, kind), Issues(rest, kind));
  }

  lemma Associates<T>(a: seq<T>, b: seq<T>, c: seq<T>)
    ensures (a + b) + c == a + (b + c)
  {
  }

  method LoadConnectors(p: Parsers, entries: seq<Value>, t: Templates) returns (r: Outcome<seq<ConnectorConfig>>)
    ensures r == match FirstBad(ConnectorOutcomes(p, entries, t, {}))
      case Some(e) => Bad(e)
      case None => Good(Goods(ConnectorOutcomes(p, entries, t, {})))
  {
    var seen := new SeenNames();
    var cs: seq<ConnectorConfig> := [];
    ghost var all := ConnectorOutcomes(p, entries, t, {});
    for i := 0 to |entries|
      invariant fresh(seen)
      invariant FirstBad(all) == FirstBad(ConnectorOutcomes(p, entries[i..], t, seen.names))
      invariant Goods(all) == cs + Goods(ConnectorOutcomes(p, entries[i..], t, seen.names))
    {
      assert entries[i..][1..] == entries[i + 1..];
      var c := ParseConnector(p, entries[i], t, seen);
      Advance(cs, [], c, ConnectorOutcomes(p, entries[i + 1..], t, seen.names), ConnectorIssue);
      if c.Bad? { return Bad(c.error); }
      cs := cs + [c.value];
    }
    assert entries[|entries|..] == [] && cs + [] == cs;
    r := Good(cs);
  }

  method LoadRuleEntries(p: Parsers, entries: seq<Value>, t: Templates, cs: seq<ConnectorConfig>, agents: map<string,
                         AgentConfig>)
    returns (r: Outcome<seq<WatcherRule>>)
    ensures r == match FirstBad(RuleOutcomes(p, entries, t, cs, agents, {}))
      case Some(e) => Bad(e)
      case None => Good(Goods(RuleOutcomes(p, entries, t, cs, agents, {})))
  {
    var seen := new SeenNames();
    var rules: seq<WatcherRule> := [];
    ghost var all := RuleOutcomes(p, entries, t, cs, agents, {});
    for i := 0 to |entries|
      invariant fresh(seen)
      invariant FirstBad(all) == FirstBad(RuleOutcomes(p, entries[i..], t, cs, agents, seen.names))
      invariant Goods(all) == rules + Goods(RuleOutcomes(p, entries[i..], t, cs, agents, seen.names))
    {
      assert entries[i..][1..] == entries[i + 1..];
      var rule := ParseRule(p, entries[i], t, cs, agents, seen);
      Advance(rules, [], rule, RuleOutcomes(p, entries[i + 1..], t, cs, agents, seen.names), RuleIssue);
      if rule.Bad? { return Bad(rule.error); }
      rules := rules + [rule.value];
    }
    assert entries[|entries|..] == [] && rules + [] == rules;
    r := Good(rules);
  }

  lemma {:induction false} FirstBadFrom<T>(os: seq<Outcome<T>>, i: nat)
    requires i < |os| && os[i].Bad? && forall j :: 0 <= j < i ==> os[j].Good?
    ensures FirstBad(os) == Some(os[i].error)
  {
    if i > 0 { FirstBadFrom(os[1..], i - 1); }
  }

  lemma {:induction false} NoneBad<T>(os: seq<Outcome<T>>)
    requires forall j :: 0 <= j < |os| ==> os[j].Good?
    ensures FirstBad(os).None?
  {
    if os != [] { NoneBad(os[1..]); }
  }

  method LoadAgentEntries(p: Parsers, entries: seq<(string, Value)>, t: Templates, presets: Presets)
    returns (r: Outcome<map<string, AgentConfig>>)
    ensures r == match FirstBad(AgentOutcomes(p, entries, t, presets))
      case Some(e) => Bad(e)
      case None => Good(AgentMap(entries, AgentOutcomes(p, entries, t, presets)))
  {
    var agents: map<string, AgentConfig> := map[];
    ghost var all := AgentOutcomes(p, entries, t, presets);
    for i := 0 to |entries|
      invariant forall j :: 0 <= j < i ==> all[j].Good?
      invariant agents == AgentMap(entries[..i], all[..i])
    {
      var a := p.agent(entries[i].0, entries[i].1, t, presets);
      assert a == all[i];
      if a.Bad? {
        FirstBadFrom(all, i);
        return Bad(a.error);
      }
      assert entries[..i + 1][..i] == entries[..i] && all[..i + 1][..i] == all[..i];
      agents := agents[entries[i].0 := a.value];
    }
    NoneBad(all);
    assert entries[..|entries|] == entries && all[..|entries|] == all;
    r := Good(agents);
  }

  method FromFile(p: Parsers, d: Document) returns (r: Outcome<GatewayConfig>)
    ensures r == Load(p, d)
  {
    if d.unusable.Some? { return Bad(d.unusable.value); }
    if d.unknownKeys.Some? { return Bad(d.unknownKeys.value); }
    if d.connectors.Bad? { return Bad(d.connectors.error); }
    if d.connectorTemplates.Bad? { return Bad(d.connectorTemplates.error); }
    var cs := LoadConnectors(p, d.connectors.value, d.connectorTemplates.value);
    if cs.Bad? { return Bad(cs.error); }
    if d.agents.Bad? { return Bad(d.agents.error); }
    if d.agentTemplates.Bad? { return Bad(d.agentTemplates.error); }
    if d.toolPresets.Bad? { return Bad(d.toolPresets.error); }
    var agents := LoadAgentEntries(p, d.agents.value, d.agentTemplates.value, d.toolPresets.value);
    if agents.Bad? { return Bad(agents.error); }
    if d.rules.Bad? { return Bad(d.rules.error); }
    if d.ruleTemplates.Bad? { return Bad(d.ruleTemplates.error); }
    var rules := LoadRuleEntries(p, d.rules.value, d.ruleTemplates.value, cs.value, agents.value);
    if rules.Bad? { return Bad(rules.error); }
    if d.maxQueueDepth.Bad? { return Bad(d.maxQueueDepth.error); }
    if d.completedJobTtlDays.Bad? { return Bad(d.completedJobTtlDays.error); }
    r := Good(GatewayConfig(cs.value, agents.value, rules.value, d.maxQueueDepth.value, d.completedJobTtlDays.value));
  }

  // ---- Every problem ----

  datatype Collected = Collected(config: Option<GatewayConfig>, issues: seq<Issue>)

  const NO_AGENTS := Other("No agents parsed successfully — cannot resolve watcher entries.")
  const NO_CONNECTORS := Other("No connectors parsed successfully — cannot resolve watcher entries.")

  function OrDefault(o: Outcome<int>, default_: int): int {
    match o case Good(v) => v case Bad(_) => default_
  }

  // Queue depth and scheduler are read however the rest went.
  function Finished(d: Document, cs: seq<ConnectorConfig>, agents: map<string, AgentConfig>, rules: seq<WatcherRule>,
                    issues: seq<Issue>): Collected
  {
    Collected(
      Some(GatewayConfig(cs, agents, rules, OrDefault(d.maxQueueDepth, DEFAULT_QUEUE_DEPTH),
                         OrDefault(d.completedJobTtlDays, DEFAULT_TTL_DAYS))),
      issues + IssueOf(d.maxQueueDepth, GlobalIssue) + IssueOf(d.completedJobTtlDays, GlobalIssue))
  }

  function Collect(p: Parsers, d: Document): Collected {
    if d.unusable.Some? then Collected(None, [Issue(GlobalIssue, d.unusable.value)])
    else if d.connectors.Bad? then Collected(None, [Issue(GlobalIssue, d.connectors.error)])
    else if d.connectorTemplates.Bad? then Collected(None, [Issue(GlobalIssue, d.connectorTemplates.error)])
    else
      var unknown := if d.unknownKeys.Some? then [Issue(GlobalIssue, d.unknownKeys.value)] else [];
      var cs := ConnectorOutcomes(p, d.connectors.value, d.connectorTemplates.value, {});
      CollectAgents(p, d, Goods(cs), unknown + Issues(cs, ConnectorIssue))
  }

  function CollectAgents(p: Parsers, d: Document, cs: seq<ConnectorConfig>, issues: seq<Issue>): Collected
    requires d.connectors.Good?
  {
    if d.agents.Bad? then Finished(d, cs, map[], [], issues + [Issue(GlobalIssue, d.agents.error)])
    else if d.agentTemplates.Bad? then Finished(d, cs, map[], [], issues + [Issue(GlobalIssue, d.agentTemplates.error)])
    else if d.toolPresets.Bad? then Finished(d, cs, map[], [], issues + [Issue(GlobalIssue, d.toolPresets.error)])
    else
      var os := AgentOutcomes(p, d.agents.value, d.agentTemplates.value, d.toolPresets.value);
      CollectRules(p, d, cs, AgentMap(d.agents.value, os), issues + Issues(os, AgentIssue))
  }

  function CollectRules(p: Parsers, d: Document, cs: seq<ConnectorConfig>, agents: map<string, AgentConfig>,
                        issues: seq<Issue>): Collected
    requires d.connectors.Good? && d.agents.Good?
  {
    if d.agents.value != [] && agents == map[] then
      Finished(d, cs, map[], [], issues + [Issue(GlobalIssue, NO_AGENTS)])
    else if d.connectors.value != [] && cs == [] then
      Finished(d, [], agents, [], issues + [Issue(GlobalIssue, NO_CONNECTORS)])
    else if d.rules.Bad? then Finished(d, cs, agents, [], issues + [Issue(GlobalIssue, d.rules.error)])
    else if d.ruleTemplates.Bad? then Finished(d, cs, agents, [], issues + [Issue(GlobalIssue, d.ruleTemplates.error)])
    else
      var rs := RuleOutcomes(p, d.rules.value, d.ruleTemplates.value, cs, agents, {});
      Finished(d, cs, agents, Goods(rs), issues + Issues(rs, RuleIssue))
  }

  method CollectConnectorEntries(p: Parsers, entries: seq<Value>, t: Templates) returns (cs: seq<ConnectorConfig>,
                                 issues: seq<Issue>)
    ensures cs == Goods(ConnectorOutcomes(p, entries, t, {}))
    ensures issues == Issues(ConnectorOutcomes(p, entries, t, {}), ConnectorIssue)
  {
    var seen := new SeenNames();
    cs, issues := [], [];
    ghost var all := ConnectorOutcomes(p, entries, t, {});
    for i := 0 to |entries|
      invariant fresh(seen)
      invariant Goods(all) == cs + Goods(ConnectorOutcomes(p, entries[i..], t, seen.names))
      invariant Issues(all, ConnectorIssue) == issues + Issues(ConnectorOutcomes(p, entries[i..], t, seen.names),
        ConnectorIssue)
    {
      assert entries[i..][1..] == entries[i + 1..];
      var c := ParseConnector(p, entries[i], t, seen);
      Advance(cs, issues, c, ConnectorOutcomes(p, entries[i + 1..], t, seen.names), ConnectorIssue);
      cs, issues := cs + GoodOf(c), issues + IssueOf(c, ConnectorIssue);
    }
    assert entries[|entries|..] == [] && cs + [] == cs && issues + [] == issues;
  }

  method CollectRuleEntries(p: Parsers, entries: seq<Value>, t: Templates, cs: seq<ConnectorConfig>,
                            agents: map<string, AgentConfig>)
    returns (rules: seq<WatcherRule>, issues: seq<Issue>)
    ensures rules == Goods(RuleOutcomes(p, entries, t, cs, agents, {}))
    ensures issues == Issues(RuleOutcomes(p, entries, t, cs, agents, {}), RuleIssue)
  {
    var seen := new SeenNames();
    rules, issues := [], [];
    ghost var all := RuleOutcomes(p, entries, t, cs, agents, {});
    for i := 0 to |entries|
      invariant fresh(seen)
      invariant Goods(all) == rules + Goods(RuleOutcomes(p, entries[i..], t, cs, agents, seen.names))
      invariant Issues(all, RuleIssue) == issues + Issues(RuleOutcomes(p, entries[i..], t, cs, agents, seen.names),
        RuleIssue)
    {
      assert entries[i..][1..] == entries[i + 1..];
      var rule := ParseRule(p, entries[i], t, cs, agents, seen);
      Advance(rules, issues, rule, RuleOutcomes(p, entries[i + 1..], t, cs, agents, seen.names), RuleIssue);
      rules, issues := rules + GoodOf(rule), issues + IssueOf(rule, RuleIssue);
    }
    assert entries[|entries|..] == [] && rules + [] == rules && issues + [] == issues;
  }

  lemma {:induction false} IssuesOfOneMore<T>(os: seq<Outcome<T>>, o: Outcome<T>, kind: Kind)
    ensures Issues(os + [o], kind) == Issues(os, kind) + Issues([o], kind)
  {
    if os == [] {
      assert [] + [o] == [o];
    } else {
      assert (os + [o])[1..] == os[1..] + [o];
      IssuesOfOneMore(os[1..], o, kind);
    }
  }

  method CollectAgentEntries(p: Parsers, entries: seq<(string, Value)>, t: Templates, presets: Presets)
    returns (agents: map<string, AgentConfig>, issues: seq<Issue>)
    ensures agents == AgentMap(entries, AgentOutcomes(p, entries, t, presets))
    ensures issues == Issues(AgentOutcomes(p, entries, t, presets), AgentIssue)
  {
    agents, issues := map[], [];
    ghost var all := AgentOutcomes(p, entries, t, presets);
    for i := 0 to |entries|
      invariant agents == AgentMap(entries[..i], all[..i])
      invariant issues == Issues(all[..i], AgentIssue)
    {
      var a := p.agent(entries[i].0, entries[i].1, t, presets);
      assert a == all[i];
      assert entries[..i + 1][..i] == entries[..i] && all[..i + 1][..i] == all[..i];
      assert all[..i + 1] == all[..i] + [all[i]];
      IssuesOfOneMore(all[..i], all[i], AgentIssue);
      match a
      case Good(v) => agents := agents[entries[i].0 := v];
      case Bad(e) => issues := issues + [Issue(AgentIssue, e)];
    }
    assert entries[..|entries|] == entries && all[..|entries|] == all;
  }

  method CollectConfig(p: Parsers, d: Document) returns (r: Collected)
    ensures r == Collect(p, d)
  {
    if d.unusable.Some? { return Collected(None, [Issue(GlobalIssue, d.unusable.value)]); }
    var issues: seq<Issue> := [];
    if d.unknownKeys.Some? { issues := [Issue(GlobalIssue, d.unknownKeys.value)]; }
    if d.connectors.Bad? { return Collected(None, [Issue(GlobalIssue, d.connectors.error)]); }
    if d.connectorTemplates.Bad? { return Collected(None, [Issue(GlobalIssue, d.connectorTemplates.error)]); }
    var cs, found := CollectConnectorEntries(p, d.connectors.value, d.connectorTemplates.value);
    r := CollectFromAgents(p, d, cs, issues + found);
  }

  method CollectFromAgents(p: Parsers, d: Document, cs: seq<ConnectorConfig>, issues: seq<Issue>) returns (r: Collected)
    requires d.connectors.Good?
    ensures r == CollectAgents(p, d, cs, issues)
  {
    if d.agents.Bad? { return Finished(d, cs, map[], [], issues + [Issue(GlobalIssue, d.agents.error)]); }
    if d.agentTemplates.Bad? { return Finished(d, cs, map[], [],
      issues + [Issue(GlobalIssue, d.agentTemplates.error)]); }
    if d.toolPresets.Bad? { return Finished(d, cs, map[], [], issues + [Issue(GlobalIssue, d.toolPresets.error)]); }
    var agents, found := CollectAgentEntries(p, d.agents.value, d.agentTemplates.value, d.toolPresets.value);
    r := CollectFromRules(p, d, cs, agents, issues + found);
  }

  method CollectFromRules(p: Parsers, d: Document, cs: seq<ConnectorConfig>, agents: map<string, AgentConfig>,
                          issues: seq<Issue>)
    returns (r: Collected)
    requires d.connectors.Good? && d.agents.Good?
    ensures r == CollectRules(p, d, cs, agents, issues)
  {
    if d.agents.value != [] && agents == map[] {
      return Finished(d, cs, map[], [], issues + [Issue(GlobalIssue, NO_AGENTS)]);
    }
    if d.connectors.value != [] && cs == [] {
      return Finished(d, [], agents, [], issues + [Issue(GlobalIssue, NO_CONNECTORS)]);
    }
    if d.rules.Bad? { return Finished(d, cs, agents, [], issues + [Issue(GlobalIssue, d.rules.error)]); }
    if d.ruleTemplates.Bad? { return Finished(d, cs, agents, [],
      issues + [Issue(GlobalIssue, d.ruleTemplates.error)]); }
    var rules, found := CollectRuleEntries(p, d.rules.value, d.ruleTemplates.value, cs, agents);
    r := Finished(d, cs, agents, rules, issues + found);
  }

  // ---- They agree ----

  /** What one stage of the tolerant loader owes the same stage of the other, given the issues so
      far: nothing more when that succeeds, and its error first when it fails. */
  ghost predicate Answers(load: Outcome<GatewayConfig>, issues: seq<Issue>, collected: Collected) {
    match load
    case Good(c) => collected == Collected(Some(c), issues)
    case Bad(e) => |collected.issues| > |issues| && issues <= collected.issues && collected.issues[|issues|].error == e
  }

  lemma {:induction false} AllAgentsParsed(entries: seq<(string, Value)>, os: seq<Outcome<AgentConfig>>)
    requires |entries| == |os| && FirstBad(os).None?
    ensures entries != [] ==> AgentMap(entries, os) != map[]
  {
    if entries != [] {
      var k := |entries| - 1;
      AllGood(os, k);
      assert entries[k].0 in AgentMap(entries, os);
    }
  }

  lemma {:induction false} AllGood<T>(os: seq<Outcome<T>>, k: nat)
    requires FirstBad(os).None? && k < |os|
    ensures os[k].Good?
  {
    if k > 0 { AllGood(os[1..], k - 1); }
  }

  lemma RulesAnswer(p: Parsers, d: Document, cs: seq<ConnectorConfig>, agents: map<string, AgentConfig>,
                    issues: seq<Issue>)
    requires d.connectors.Good? && d.agents.Good?
    requires d.agents.value != [] ==> agents != map[]
    requires d.connectors.value != [] ==> cs != []
    ensures Answers(LoadRules(p, d, cs, agents), issues, CollectRules(p, d, cs, agents, issues))
  {
    if d.rules.Good? && d.ruleTemplates.Good? {
      var rs := RuleOutcomes(p, d.rules.value, d.ruleTemplates.value, cs, agents, {});
      FirstIssue(rs, RuleIssue);
    }
  }

  lemma AgentsAnswer(p: Parsers, d: Document, cs: seq<ConnectorConfig>, issues: seq<Issue>)
    requires d.connectors.Good? && (d.connectors.value != [] ==> cs != [])
    ensures Answers(LoadAgents(p, d, cs), issues, CollectAgents(p, d, cs, issues))
  {
    if d.agents.Good? && d.agentTemplates.Good? && d.toolPresets.Good? {
      var os := AgentOutcomes(p, d.agents.value, d.agentTemplates.value, d.toolPresets.value);
      var agents := AgentMap(d.agents.value, os);
      FirstIssue(os, AgentIssue);
      if FirstBad(os).None? {
        AllAgentsParsed(d.agents.value, os);
        RulesAnswer(p, d, cs, agents, issues);
        assert issues + [] == issues;
      } else {
        RulesExtend(p, d, cs, agents, issues + Issues(os, AgentIssue));
      }
    }
  }

  lemma RulesExtend(p: Parsers, d: Document, cs: seq<ConnectorConfig>, agents: map<string, AgentConfig>,
                    issues: seq<Issue>)
    requires d.connectors.Good? && d.agents.Good?
    ensures issues <= CollectRules(p, d, cs, agents, issues).issues
  {
  }

  lemma AgentsExtend(p: Parsers, d: Document, cs: seq<ConnectorConfig>, issues: seq<Issue>)
    requires d.connectors.Good?
    ensures issues <= CollectAgents(p, d, cs, issues).issues
  {
    if d.agents.Good? && d.agentTemplates.Good? && d.toolPresets.Good? {
      var os := AgentOutcomes(p, d.agents.value, d.agentTemplates.value, d.toolPresets.value);
      RulesExtend(p, d, cs, AgentMap(d.agents.value, os), issues + Issues(os, AgentIssue));
    }
  }

  /** The tolerant loader returns before it reports an unknown key. */
  predicate ForgetsUnknownKeys(d: Document) {
    d.unusable.None? && d.unknownKeys.Some? && (d.connectors.Bad? || d.connectorTemplates.Bad?)
  }

  /** A file loads exactly when the tolerant loader finds nothing wrong, and then both build the same
      configuration. When it does not load, the fail-fast error is the first issue reported, except
      that an unknown key is not reported at all when `connectors:` or `connector_templates:` is
      malformed: that structural issue is then the only one. */
  lemma LoadersAgree(p: Parsers, d: Document)
    ensures forall c :: Load(p, d) == Good(c) <==> Collect(p, d) == Collected(Some(c), [])
    ensures Load(p, d).Bad? ==> Collect(p, d).issues != []
    ensures Load(p, d).Bad? && !ForgetsUnknownKeys(d) ==> Collect(p, d).issues[0].error == Load(p, d).error
    ensures ForgetsUnknownKeys(d) ==> Load(p, d) == Bad(d.unknownKeys.value)
    ensures ForgetsUnknownKeys(d) ==> Collect(p, d).config.None? && |Collect(p, d).issues| == 1
    ensures ForgetsUnknownKeys(d) ==>
      Collect(p, d).issues[0].error == if d.connectors.Bad? then d.connectors.error else d.connectorTemplates.error
  {
    if d.unusable.None? && d.connectors.Good? && d.connectorTemplates.Good? {
      var os := ConnectorOutcomes(p, d.connectors.value, d.connectorTemplates.value, {});
      FirstIssue(os, ConnectorIssue);
      var unknown := if d.unknownKeys.Some? then [Issue(GlobalIssue, d.unknownKeys.value)] else [];
      AgentsExtend(p, d, Goods(os), unknown + Issues(os, ConnectorIssue));
      if d.unknownKeys.None? && FirstBad(os).None? {
        AgentsAnswer(p, d, Goods(os), []);
        assert unknown + Issues(os, ConnectorIssue) == [];
      }
    }
  }

  // ---- What a loaded configuration promises the rest ----

  lemma {:induction false} ConnectorNamesFresh(p: Parsers, entries: seq<Value>, t: Templates, seen: set<string>)
    requires p.Lawful()
    ensures var cs := Goods(ConnectorOutcomes(p, entries, t, seen));
      Distinct(Names(cs, ConnectorName)) && forall i :: 0 <= i < |cs| ==> cs[i].name !in seen
    decreases |entries|
  {
    if entries != [] {
      var rest := Goods(ConnectorOutcomes(p, entries[1..], t, ConnectorSeen(p, entries[0], t, seen)));
      ConnectorNamesFresh(p, entries[1..], t, ConnectorSeen(p, entries[0], t, seen));
      var first := ConnectorOutcome(p, entries[0], t, seen);
      if first.Good? {
        var cs := [first.value] + rest;
        assert Goods(ConnectorOutcomes(p, entries, t, seen)) == cs;
        forall i, j | 0 <= i < j < |cs| ensures Names(cs, ConnectorName)[i] != Names(cs, ConnectorName)[j] {
          assert cs[j] == rest[j - 1];
          if i > 0 { assert Names(rest, ConnectorName)[i - 1] != Names(rest, ConnectorName)[j - 1]; }
        }
      } else {
        assert Goods(ConnectorOutcomes(p, entries, t, seen)) == [] + rest == rest;
      }
    }
  }

  lemma {:induction false} RuleNamesFresh(p: Parsers, entries: seq<Value>, t: Templates, cs: seq<ConnectorConfig>,
                                          agents: map<string, AgentConfig>, seen: set<string>)
    requires p.Lawful()
    ensures var rs := Goods(RuleOutcomes(p, entries, t, cs, agents, seen));
      Distinct(Names(rs, RuleName)) && forall i :: 0 <= i < |rs| ==> rs[i].name !in seen
    decreases |entries|
  {
    if entries != [] {
      var seen' := RuleSeen(p, entries[0], t, cs, agents, seen);
      var rest := Goods(RuleOutcomes(p, entries[1..], t, cs, agents, seen'));
      RuleNamesFresh(p, entries[1..], t, cs, agents, seen');
      var first := RuleOutcome(p, entries[0], t, cs, agents, seen);
      if first.Good? {
        var rs := [first.value] + rest;
        assert Goods(RuleOutcomes(p, entries, t, cs, agents, seen)) == rs;
        forall i, j | 0 <= i < j < |rs| ensures Names(rs, RuleName)[i] != Names(rs, RuleName)[j] {
          assert rs[j] == rest[j - 1];
          if i > 0 { assert Names(rest, RuleName)[i - 1] != Names(rest, RuleName)[j - 1]; }
        }
      } else {
        assert Goods(RuleOutcomes(p, entries, t, cs, agents, seen)) == [] + rest == rest;
      }
    }
  }

  lemma {:induction false} AgentsFiled(p: Parsers, entries: seq<(string, Value)>, t: Templates, presets: Presets,
                                       os: seq<Outcome<AgentConfig>>)
    requires p.Lawful() && |os| == |entries|
    requires forall i :: 0 <= i < |os| ==> os[i] == p.agent(entries[i].0, entries[i].1, t, presets)
    ensures forall n :: n in AgentMap(entries, os) ==> AgentMap(entries, os)[n].name == n
    decreases |entries|
  {
    if entries != [] {
      AgentsFiled(p, entries[..|entries| - 1], t, presets, os[..|entries| - 1]);
    }
  }

  /** Whatever loads has unique connector and rule names, and files each agent under its own name. */
  lemma LoadedNamesAreUnique(p: Parsers, d: Document)
    requires p.Lawful() && Load(p, d).Good?
    ensures UniqueNames(Load(p, d).value)
    ensures forall n :: n in Load(p, d).value.agents ==> Load(p, d).value.agents[n].name == n
  {
    ConnectorNamesFresh(p, d.connectors.value, d.connectorTemplates.value, {});
    var cs := Goods(ConnectorOutcomes(p, d.connectors.value, d.connectorTemplates.value, {}));
    var os := AgentOutcomes(p, d.agents.value, d.agentTemplates.value, d.toolPresets.value);
    AgentsFiled(p, d.agents.value, d.agentTemplates.value, d.toolPresets.value, os);
    RuleNamesFresh(p, d.rules.value, d.ruleTemplates.value, cs, AgentMap(d.agents.value, os), {});
  }

  // ---- Deleting an entry that failed ----

  function WithoutIndex<T>(s: seq<T>, k: nat): seq<T>
    requires k < |s|
  {
    s[..k] + s[k + 1..]
  }

  /** Deleting a rule that failed changes no other rule's outcome. */
  lemma {:induction false} FailedRuleLeavesNoTrace(p: Parsers, entries: seq<Value>, t: Templates,
                                                   cs: seq<ConnectorConfig>,
                                                   agents: map<string, AgentConfig>, seen: set<string>, k: nat)
    requires k < |entries| && RuleOutcomes(p, entries, t, cs, agents, seen)[k].Bad?
    ensures RuleOutcomes(p, WithoutIndex(entries, k), t, cs, agents, seen)
      == WithoutIndex(RuleOutcomes(p, entries, t, cs, agents, seen), k)
    decreases |entries|
  {
    var os := RuleOutcomes(p, entries, t, cs, agents, seen);
    if k == 0 {
      assert WithoutIndex(entries, 0) == entries[1..];
      assert WithoutIndex(os, 0) == os[1..];
    } else {
      var seen' := RuleSeen(p, entries[0], t, cs, agents, seen);
      FailedRuleLeavesNoTrace(p, entries[1..], t, cs, agents, seen', k - 1);
      var short := WithoutIndex(entries, k);
      assert short[0] == entries[0] && short[1..] == WithoutIndex(entries[1..], k - 1);
      assert WithoutIndex(os, k) == [os[0]] + WithoutIndex(os[1..], k - 1);
    }
  }

  ghost predicate NamedLater(p: Parsers, entries: seq<Value>, t: Templates, from: nat, n: string) {
    exists j :: from <= j < |entries| && p.connectorName(entries[j], t) == Good(n)
  }

  /** One more seen name makes a difference exactly when an entry to come carries it. */
  lemma {:induction false} SeenMatters(p: Parsers, entries: seq<Value>, t: Templates, seen: set<string>, n: string)
    requires p.Lawful() && n !in seen
    ensures ConnectorOutcomes(p, entries, t, seen + {n}) == ConnectorOutcomes(p, entries, t, seen) <==>
      !NamedLater(p, entries, t, 0, n)
    decreases |entries|
  {
    if entries != [] {
      var with, without := ConnectorOutcomes(p, entries, t, seen + {n}), ConnectorOutcomes(p, entries, t, seen);
      if p.connectorName(entries[0], t) == Good(n) {
        assert with[0] == Bad(Duplicate(n)) && without[0] == p.connector(entries[0], t);
      } else {
        var seen' := ConnectorSeen(p, entries[0], t, seen);
        assert ConnectorSeen(p, entries[0], t, seen + {n}) == seen' + {n};
        SeenMatters(p, entries[1..], t, seen', n);
        assert with[0] == without[0];
        assert with[1..] == ConnectorOutcomes(p, entries[1..], t, seen' + {n});
        assert without[1..] == ConnectorOutcomes(p, entries[1..], t, seen');
        assert with == [with[0]] + with[1..] && without == [without[0]] + without[1..];
        NamedLaterBelow(p, entries, t, n);
      }
    }
  }

  lemma NamedLaterBelow(p: Parsers, entries: seq<Value>, t: Templates, n: string)
    requires entries != []
    ensures NamedLater(p, entries[1..], t, 0, n) <==> NamedLater(p, entries, t, 1, n)
  {
    if NamedLater(p, entries[1..], t, 0, n) {
      var j :| 0 <= j < |entries[1..]| && p.connectorName(entries[1..][j], t) == Good(n);
      assert entries[1..][j] == entries[j + 1];
    }
    if NamedLater(p, entries, t, 1, n) {
      var j :| 1 <= j < |entries| && p.connectorName(entries[j], t) == Good(n);
      assert entries[1..][j - 1] == entries[j];
    }
  }

  /** The names registered by the entries before `k`. */
  function SeenBefore(p: Parsers, entries: seq<Value>, t: Templates, seen: set<string>, k: nat): set<string>
    requires k <= |entries|
    decreases k
  {
    if k == 0 then seen else SeenBefore(p, entries[1..], t, ConnectorSeen(p, entries[0], t, seen), k - 1)
  }

  /** Connectors are not like rules: a connector that fails after its name was registered leaves the
      name behind. Deleting it changes no other connector's outcome exactly when it failed before
      that, or no later entry carries its name. */
  lemma {:induction false} FailedConnectorTrace(p: Parsers, entries: seq<Value>, t: Templates, seen: set<string>,
                                                k: nat)
    requires p.Lawful() && k < |entries| && ConnectorOutcomes(p, entries, t, seen)[k].Bad?
    ensures ConnectorOutcomes(p, WithoutIndex(entries, k), t,
      seen) == WithoutIndex(ConnectorOutcomes(p, entries, t, seen), k)
      <==> (
        || p.connectorName(entries[k], t).Bad?
        || p.connectorName(entries[k], t).value in SeenBefore(p, entries, t, seen, k)
        || !NamedLater(p, entries, t, k + 1, p.connectorName(entries[k], t).value))
    decreases |entries|
  {
    var os := ConnectorOutcomes(p, entries, t, seen);
    var name := p.connectorName(entries[k], t);
    if k == 0 {
      assert WithoutIndex(entries, 0) == entries[1..];
      assert WithoutIndex(os, 0) == os[1..];
      if name.Good? && name.value !in seen {
        SeenMatters(p, entries[1..], t, seen, name.value);
        NamedLaterBelow(p, entries, t, name.value);
      } else if name.Good? {
        assert seen + {name.value} == seen;
      }
    } else {
      var seen' := ConnectorSeen(p, entries[0], t, seen);
      FailedConnectorTrace(p, entries[1..], t, seen', k - 1);
      DeletedBelow(p, entries, t, seen, k);
      if name.Good? { LaterBelow(p, entries, t, k, name.value); }
    }
  }

  lemma DeletedBelow(p: Parsers, entries: seq<Value>, t: Templates, seen: set<string>, k: nat)
    requires 0 < k < |entries|
    ensures var seen' := ConnectorSeen(p, entries[0], t, seen);
      ConnectorOutcomes(p, WithoutIndex(entries, k), t, seen) == WithoutIndex(ConnectorOutcomes(p, entries, t, seen),
        k) <==>
      ConnectorOutcomes(p, WithoutIndex(entries[1..], k - 1), t,
        seen') == WithoutIndex(ConnectorOutcomes(p, entries[1..], t, seen'), k - 1)
  {
    var seen' := ConnectorSeen(p, entries[0], t, seen);
    var os, short := ConnectorOutcomes(p, entries, t, seen), WithoutIndex(entries, k);
    assert short[0] == entries[0] && short[1..] == WithoutIndex(entries[1..], k - 1);
    assert WithoutIndex(os, k) == [os[0]] + WithoutIndex(os[1..], k - 1);
    HeadsMatch(os[0], ConnectorOutcomes(p, short[1..], t, seen'), WithoutIndex(os[1..], k - 1));
  }

  lemma HeadsMatch<T>(h: T, a: seq<T>, b: seq<T>)
    ensures [h] + a == [h] + b <==> a == b
  {
    assert ([h] + a)[1..] == a && ([h] + b)[1..] == b;
  }

  lemma LaterBelow(p: Parsers, entries: seq<Value>, t: Templates, k: nat, n: string)
    requires 0 < k < |entries|
    ensures NamedLater(p, entries[1..], t, k, n) <==> NamedLater(p, entries, t, k + 1, n)
  {
    if NamedLater(p, entries[1..], t, k, n) {
      var j :| k <= j < |entries[1..]| && p.connectorName(entries[1..][j], t) == Good(n);
      assert entries[1..][j] == entries[j + 1];
    }
    if NamedLater(p, entries, t, k + 1, n) {
      var j :| k + 1 <= j < |entries| && p.connectorName(entries[j], t) == Good(n);
      assert entries[1..][j - 1] == entries[j];
    }
  }
}
