/** The canonical form behind the config digest, and its agreement with the diff
    (gateway/config_diff.py canonical, untagged, _identity_keyed, diff_configs). */
module Digest {
  import opened Values
  import opened Configs

  /** A resolved configuration as plain objects. */
  datatype Data =
    | Nothing
    | Flag(b: bool)
    | Whole(i: int)
    | Number(r: real)
    | Text(s: string)
    | Pattern(spelling: string)
    | Items(items: seq<Data>)
    | Fields(fields: map<string, Data>)

  function DataOf(v: Value): Data {
    match v
    case Null => Nothing
    case Bool(b) => Flag(b)
    case Int(i) => Whole(i)
    case Float(r) => Number(r)
    case Str(s) => Text(s)
    case List(items) => Items(seq(|items|, i requires 0 <= i < |items| => DataOf(items[i])))
    case Map(entries) => Fields(map k | k in entries :: DataOf(entries[k]))
  }

  function Leaf(tag: string, v: Value): Value { List([Str(tag), v]) }

  /** Every leaf is typed, so nothing inside the value space can spell a tag. */
  function Canonical(d: Data): Value {
    match d
    case Nothing => Leaf("NoneType", Null)
    case Flag(b) => Leaf("bool", Bool(b))
    case Whole(i) => Leaf("int", Int(i))
    case Number(r) => Leaf("float", Float(r))
    case Text(s) => Leaf("str", Str(s))
    case Pattern(spelling) => Leaf("pattern", Str(spelling))
    case Items(items) => List(seq(|items|, i requires 0 <= i < |items| => Canonical(items[i])))
    case Fields(fields) => Map(map k | k in fields :: Canonical(fields[k]))
  }

  predicate IsLeaf(v: Value) {
    v.List? && |v.items| == 2 && v.items[0].Str?
  }

  function Untagged(v: Value): Value
    decreases v
  {
    if IsLeaf(v) then v.items[1]
    else match v
      case Map(entries) => Map(map k | k in entries :: Untagged(entries[k]))
      case List(items) => List(seq(|items|, i requires 0 <= i < |items| => Untagged(items[i])))
      case _ => v
  }

  lemma NeverBare(d: Data)
    ensures !Canonical(d).Str?
    ensures d.Items? ==> !IsLeaf(Canonical(d))
  {
    if d.Items? && |d.items| == 2 {
      assert Canonical(d).items[0] == Canonical(d.items[0]);
      NeverBareItem(d.items[0]);
    }
  }

  lemma NeverBareItem(d: Data)
    ensures !Canonical(d).Str?
  {
  }

  /** Stripping the tags gives the value back. */
  lemma {:induction false} UntaggedUndoes(v: Value)
    ensures Untagged(Canonical(DataOf(v))) == v
    decreases v
  {
    NeverBare(DataOf(v));
    match v
    case List(items) =>
      var ds := DataOf(v).items;
      forall i | 0 <= i < |items| ensures Untagged(Canonical(ds[i])) == items[i] {
        UntaggedUndoes(items[i]);
      }
      assert Untagged(Canonical(DataOf(v))).items == items;
    case Map(entries) =>
      forall k | k in entries ensures Untagged(Canonical(DataOf(entries[k]))) == entries[k] {
        UntaggedUndoes(entries[k]);
      }
      assert Untagged(Canonical(DataOf(v))).entries == entries;
    case _ =>
  }

  /** No two values share a canonical form. */
  lemma {:induction false} CanonicalInjective(a: Data, b: Data)
    requires Canonical(a) == Canonical(b)
    ensures a == b
    decreases a
  {
    NeverBare(a);
    NeverBare(b);
    match (a, b)
    case (Items(xs), Items(ys)) =>
      var cs := Canonical(a).items;
      forall i | 0 <= i < |xs| ensures xs[i] == ys[i] {
        assert cs[i] == Canonical(xs[i]) && cs[i] == Canonical(ys[i]);
        CanonicalInjective(xs[i], ys[i]);
      }
      assert xs == ys;
    case (Fields(xs), Fields(ys)) =>
      var cs := Canonical(a).entries;
      assert cs.Keys == xs.Keys && cs.Keys == ys.Keys;
      forall k | k in xs ensures xs[k] == ys[k] {
        assert cs[k] == Canonical(xs[k]) && cs[k] == Canonical(ys[k]);
        CanonicalInjective(xs[k], ys[k]);
      }
      assert xs == ys;
    case _ =>
  }

  // ---- The configuration's own classes ----

  function Texts(ss: seq<string>): Data {
    Items(seq(|ss|, i requires 0 <= i < |ss| => Text(ss[i])))
  }

  function Patterns(ps: seq<RoomPattern>): Data {
    Items(seq(|ps|, i requires 0 <= i < |ps| => Pattern(ps[i].canonical)))
  }

  function ToolData(t: ToolRule): Data {
    Fields(map["tool" := Text(t.tool), "params" := if t.params.None? then Nothing else Text(t.params.value)])
  }

  function ToolsData(ts: seq<ToolRule>): Data {
    Items(seq(|ts|, i requires 0 <= i < |ts| => ToolData(ts[i])))
  }

  function PermissionData(p: PermissionConfig): Data {
    Fields(map["enabled" := DataOf(p.enabled), "timeout" := DataOf(p.timeout),
      "skip_owner_approval" := DataOf(p.skipOwnerApproval)])
  }

  function AgentData(a: AgentConfig): Data {
    Fields(map["name" := Text(a.name), "type" := Text(a.atype), "command" := DataOf(a.command),
               "new_session_args" := DataOf(a.newSessionArgs), "working_directory" := Text(a.workingDirectory),
               "session_prefix" := DataOf(a.sessionPrefix),
                 "lazy_instruction_loading" := Flag(a.lazyInstructionLoading),
               "context_inject_files" := Texts(a.contextInjectFiles),
               "owner_allowed_tools" := ToolsData(a.ownerAllowedTools),
                 "guest_allowed_tools" := ToolsData(a.guestAllowedTools),
               "timeout" := DataOf(a.timeout), "permissions" := PermissionData(a.permissions)])
  }

  function ConnectorData(c: ConnectorConfig): Data {
    Fields(map["name" := Text(c.name), "type" := Text(c.ctype), "raw" := DataOf(Map(c.raw)),
               "context_inject_files" := Texts(c.contextInjectFiles)])
  }

  function MatcherData(m: RoomMatcher): Data {
    Fields(map["include" := Patterns(m.includes), "except_for" := Patterns(m.exceptFor),
               "direct" := Flag(m.direct), "group_direct" := Flag(m.groupDirect)])
  }

  function HandoffData(h: HistoryHandoff): Data {
    Fields(map["enabled" := Flag(h.enabled), "fetch_count" := Whole(h.fetchCount),
               "verbatim_tail" := Whole(h.verbatimTail), "max_fetch_count" := Whole(h.maxFetchCount)])
  }

  function RuleData(r: WatcherRule): Data {
    Fields(map["name" := Text(r.name), "connector" := Text(r.connector), "agent" := Text(r.agent),
               "rooms" := MatcherData(r.rooms), "session_idle_days" := Whole(r.sessionIdleDays),
               "session_expire_days" := Whole(r.sessionExpireDays),
                 "context_inject_files" := Texts(r.contextInjectFiles),
               "history_handoff" := HandoffData(r.historyHandoff)])
  }

  lemma DataOfInjective(v: Value, w: Value)
    ensures DataOf(v) == DataOf(w) ==> v == w
  {
    UntaggedUndoes(v);
    UntaggedUndoes(w);
  }

  lemma TextsInjective(a: seq<string>, b: seq<string>)
    ensures Texts(a) == Texts(b) ==> a == b
  {
    if Texts(a) == Texts(b) {
      assert |a| == |Texts(a).items| == |b|;
      forall i | 0 <= i < |a| ensures a[i] == b[i] { assert Texts(a).items[i] == Texts(b).items[i]; }
    }
  }

  lemma PatternsInjective(a: seq<RoomPattern>, b: seq<RoomPattern>)
    ensures Patterns(a) == Patterns(b) ==> a == b
  {
    if Patterns(a) == Patterns(b) {
      assert |a| == |Patterns(a).items| == |b|;
      forall i | 0 <= i < |a| ensures a[i] == b[i] { assert Patterns(a).items[i] == Patterns(b).items[i]; }
    }
  }

  lemma ToolsInjective(a: seq<ToolRule>, b: seq<ToolRule>)
    ensures ToolsData(a) == ToolsData(b) ==> a == b
  {
    if ToolsData(a) == ToolsData(b) {
      assert |a| == |ToolsData(a).items| == |b|;
      forall i | 0 <= i < |a| ensures a[i] == b[i] {
        var x, y := ToolData(a[i]).fields, ToolData(b[i]).fields;
        assert ToolsData(a).items[i] == ToolsData(b).items[i];
        assert x["tool"] == y["tool"] && x["params"] == y["params"];
      }
    }
  }

  lemma PermissionInjective(a: PermissionConfig, b: PermissionConfig)
    ensures PermissionData(a) == PermissionData(b) ==> a == b
  {
    var x, y := PermissionData(a).fields, PermissionData(b).fields;
    if x == y {
      assert x["enabled"] == y["enabled"] && x["timeout"] == y["timeout"] &&
        x["skip_owner_approval"] == y["skip_owner_approval"];
      DataOfInjective(a.enabled, b.enabled);
      DataOfInjective(a.timeout, b.timeout);
      DataOfInjective(a.skipOwnerApproval, b.skipOwnerApproval);
    }
  }

  lemma AgentPlainFields(a: AgentConfig, b: AgentConfig)
    requires AgentData(a) == AgentData(b)
    ensures a.name == b.name && a.atype == b.atype && a.workingDirectory == b.workingDirectory
    ensures a.lazyInstructionLoading == b.lazyInstructionLoading
  {
    var x, y := AgentData(a).fields, AgentData(b).fields;
    assert x["name"] == y["name"] && x["type"] == y["type"] && x["working_directory"] == y["working_directory"];
    assert x["lazy_instruction_loading"] == y["lazy_instruction_loading"];
  }

  lemma AgentOpenFields(a: AgentConfig, b: AgentConfig)
    requires AgentData(a) == AgentData(b)
    ensures DataOf(a.command) == DataOf(b.command) && DataOf(a.newSessionArgs) == DataOf(b.newSessionArgs)
    ensures DataOf(a.sessionPrefix) == DataOf(b.sessionPrefix) && DataOf(a.timeout) == DataOf(b.timeout)
  {
    var x, y := AgentData(a).fields, AgentData(b).fields;
    assert x["command"] == y["command"] && x["new_session_args"] == y["new_session_args"];
    assert x["session_prefix"] == y["session_prefix"] && x["timeout"] == y["timeout"];
  }

  lemma AgentListFields(a: AgentConfig, b: AgentConfig)
    requires AgentData(a) == AgentData(b)
    ensures Texts(a.contextInjectFiles) == Texts(b.contextInjectFiles)
    ensures ToolsData(a.ownerAllowedTools) == ToolsData(b.ownerAllowedTools)
    ensures ToolsData(a.guestAllowedTools) == ToolsData(b.guestAllowedTools)
    ensures PermissionData(a.permissions) == PermissionData(b.permissions)
  {
    var x, y := AgentData(a).fields, AgentData(b).fields;
    assert x["context_inject_files"] == y["context_inject_files"];
    assert x["owner_allowed_tools"] == y["owner_allowed_tools"] && x["guest_allowed_tools"] == y["guest_allowed_tools"];
    assert x["permissions"] == y["permissions"];
  }

  lemma AgentInjective(a: AgentConfig, b: AgentConfig)
    ensures AgentData(a) == AgentData(b) ==> a == b
  {
    if AgentData(a) == AgentData(b) {
      AgentPlainFields(a, b);
      AgentOpenFields(a, b);
      AgentListFields(a, b);
      DataOfInjective(a.command, b.command);
      DataOfInjective(a.newSessionArgs, b.newSessionArgs);
      DataOfInjective(a.sessionPrefix, b.sessionPrefix);
      DataOfInjective(a.timeout, b.timeout);
      TextsInjective(a.contextInjectFiles, b.contextInjectFiles);
      ToolsInjective(a.ownerAllowedTools, b.ownerAllowedTools);
      ToolsInjective(a.guestAllowedTools, b.guestAllowedTools);
      PermissionInjective(a.permissions, b.permissions);
    }
  }

  lemma ConnectorInjective(a: ConnectorConfig, b: ConnectorConfig)
    ensures ConnectorData(a) == ConnectorData(b) ==> a == b
  {
    var x, y := ConnectorData(a).fields, ConnectorData(b).fields;
    if x == y {
      assert x["name"] == y["name"] && x["type"] == y["type"] && x["raw"] == y["raw"];
      assert x["context_inject_files"] == y["context_inject_files"];
      DataOfInjective(Map(a.raw), Map(b.raw));
      TextsInjective(a.contextInjectFiles, b.contextInjectFiles);
    }
  }

  lemma MatcherInjective(a: RoomMatcher, b: RoomMatcher)
    ensures MatcherData(a) == MatcherData(b) ==> a == b
  {
    var x, y := MatcherData(a).fields, MatcherData(b).fields;
    if x == y {
      assert x["include"] == y["include"] && x["except_for"] == y["except_for"];
      assert x["direct"] == y["direct"] && x["group_direct"] == y["group_direct"];
      PatternsInjective(a.includes, b.includes);
      PatternsInjective(a.exceptFor, b.exceptFor);
    }
  }

  lemma HandoffInjective(a: HistoryHandoff, b: HistoryHandoff)
    ensures HandoffData(a) == HandoffData(b) ==> a == b
  {
    var x, y := HandoffData(a).fields, HandoffData(b).fields;
    if x == y {
      assert x["enabled"] == y["enabled"] && x["fetch_count"] == y["fetch_count"];
      assert x["verbatim_tail"] == y["verbatim_tail"] && x["max_fetch_count"] == y["max_fetch_count"];
    }
  }

  lemma RulePlainFields(a: WatcherRule, b: WatcherRule)
    requires RuleData(a) == RuleData(b)
    ensures a.name == b.name && a.connector == b.connector && a.agent == b.agent
    ensures a.sessionIdleDays == b.sessionIdleDays && a.sessionExpireDays == b.sessionExpireDays
  {
    var x, y := RuleData(a).fields, RuleData(b).fields;
    assert x["name"] == y["name"] && x["connector"] == y["connector"] && x["agent"] == y["agent"];
    assert x["session_idle_days"] == y["session_idle_days"] && x["session_expire_days"] == y["session_expire_days"];
  }

  lemma RuleInjective(a: WatcherRule, b: WatcherRule)
    ensures RuleData(a) == RuleData(b) ==> a == b
  {
    var x, y := RuleData(a).fields, RuleData(b).fields;
    if x == y {
      RulePlainFields(a, b);
      assert x["rooms"] == y["rooms"] && x["context_inject_files"] == y["context_inject_files"];
      assert x["history_handoff"] == y["history_handoff"];
      MatcherInjective(a.rooms, b.rooms);
      TextsInjective(a.contextInjectFiles, b.contextInjectFiles);
      HandoffInjective(a.historyHandoff, b.historyHandoff);
    }
  }

  // ---- The payload ----

  function AgentsData(agents: map<string, AgentConfig>): Data {
    Fields(map n | n in agents :: AgentData(agents[n]))
  }

  function RulesData(rules: seq<WatcherRule>): Data {
    Items(seq(|rules|, i requires 0 <= i < |rules| => RuleData(rules[i])))
  }

  function ConnectorsData(cs: seq<ConnectorConfig>): Data {
    Items(seq(|cs|, i requires 0 <= i < |cs| => ConnectorData(cs[i])))
  }

  function SchedulerData(days: int): Data { Fields(map["completed_job_ttl_days" := Whole(days)]) }

  function ConfigData(c: GatewayConfig): Data {
    Fields(map["connectors" := ConnectorsData(c.connectors), "agents" := AgentsData(c.agents),
               "watcher_rules" := RulesData(c.watcherRules), "max_queue_depth" := Whole(c.maxQueueDepth),
               "scheduler" := SchedulerData(c.completedJobTtlDays)])
  }

  function NameOf(c: Value): string {
    if c.Map? && "name" in c.entries && Untagged(c.entries["name"]).Str? then Untagged(c.entries["name"]).s else ""
  }

  // `{untagged(c["name"]): c for c in data["connectors"]}`
  function Keyed(cs: seq<Value>): map<string, Value> {
    if cs == [] then map[]
    else Keyed(cs[..|cs| - 1])[NameOf(cs[|cs| - 1]) := cs[|cs| - 1]]
  }

  method KeyByName(cs: seq<Value>) returns (m: map<string, Value>)
    ensures m == Keyed(cs)
  {
    m := map[];
    for i := 0 to |cs|
      invariant m == Keyed(cs[..i])
    {
      m := m[NameOf(cs[i]) := cs[i]];
      assert cs[..i + 1][..i] == cs[..i];
    }
    assert cs[..|cs|] == cs;
  }

  function IdentityKeyed(c: GatewayConfig): map<string, Value> {
    var data := Canonical(ConfigData(c)).entries;
    data["connectors" := Map(Keyed(Canonical(ConnectorsData(c.connectors)).items))]
  }

  function CanonicalConnector(c: ConnectorConfig): Value { Canonical(ConnectorData(c)) }

  lemma ConnectorNamed(c: ConnectorConfig)
    ensures NameOf(CanonicalConnector(c)) == c.name
  {
    assert CanonicalConnector(c).entries["name"] == Canonical(Text(c.name));
  }

  lemma {:induction false} KeyedByName(cs: seq<ConnectorConfig>)
    ensures Keyed(Canonical(ConnectorsData(cs)).items).Keys == ByName(cs, ConnectorName).Keys
    ensures forall n :: n in ByName(cs, ConnectorName) ==>
      Keyed(Canonical(ConnectorsData(cs)).items)[n] == CanonicalConnector(ByName(cs, ConnectorName)[n])
    decreases |cs|
  {
    if cs != [] {
      var k := |cs| - 1;
      var all, front := Canonical(ConnectorsData(cs)).items, Canonical(ConnectorsData(cs[..k])).items;
      assert all[..k] == front;
      assert all[k] == CanonicalConnector(cs[k]);
      ConnectorNamed(cs[k]);
      KeyedByName(cs[..k]);
    }
  }

  lemma ConnectorsAgree(a: seq<ConnectorConfig>, b: seq<ConnectorConfig>)
    ensures Keyed(Canonical(ConnectorsData(a)).items) == Keyed(Canonical(ConnectorsData(b)).items)
      <==> ByName(a, ConnectorName) == ByName(b, ConnectorName)
  {
    var ka, kb := Keyed(Canonical(ConnectorsData(a)).items), Keyed(Canonical(ConnectorsData(b)).items);
    var ma, mb := ByName(a, ConnectorName), ByName(b, ConnectorName);
    KeyedByName(a);
    KeyedByName(b);
    if ka == kb {
      forall n | n in ma ensures n in mb && ma[n] == mb[n] {
        CanonicalInjective(ConnectorData(ma[n]), ConnectorData(mb[n]));
        ConnectorInjective(ma[n], mb[n]);
      }
      assert ma == mb;
    }
  }

  lemma AgentsAgree(a: map<string, AgentConfig>, b: map<string, AgentConfig>)
    ensures AgentsData(a) == AgentsData(b) <==> a == b
  {
    var x, y := AgentsData(a).fields, AgentsData(b).fields;
    if x == y {
      assert x.Keys == a.Keys && y.Keys == b.Keys;
      forall n | n in a ensures a[n] == b[n] {
        assert x[n] == y[n];
        AgentInjective(a[n], b[n]);
      }
      assert a == b;
    }
  }

  lemma RulesAgree(a: seq<WatcherRule>, b: seq<WatcherRule>)
    ensures RulesData(a) == RulesData(b) <==> a == b
  {
    if RulesData(a) == RulesData(b) {
      assert |a| == |RulesData(a).items| == |b|;
      forall i | 0 <= i < |a| ensures a[i] == b[i] {
        assert RulesData(a).items[i] == RulesData(b).items[i];
        RuleInjective(a[i], b[i]);
      }
    }
  }

  lemma NoEntityChange<T>(before: map<string, T>, after: map<string, T>)
    ensures EntityDiff(before, after).Empty() <==> before == after
  {
    var d := EntityDiff(before, after);
    if d.Empty() {
      forall n | n in before ensures n in after && before[n] == after[n] {
        assert n !in d.removed && n !in d.changed;
      }
      forall n | n in after ensures n in before {
        assert n !in d.added;
      }
      assert before == after;
    }
  }

  /** Named rules in the same order, each unchanged, are the same list. */
  lemma SameRules(a: seq<WatcherRule>, b: seq<WatcherRule>)
    requires Distinct(Names(a, RuleName)) && Distinct(Names(b, RuleName))
    ensures ByName(a, RuleName) == ByName(b, RuleName) && Names(a, RuleName) == Names(b, RuleName) <==> a == b
  {
    if ByName(a, RuleName) == ByName(b, RuleName) && Names(a, RuleName) == Names(b, RuleName) {
      assert |a| == |Names(a, RuleName)| == |b|;
      forall i | 0 <= i < |a| ensures a[i] == b[i] {
        ByNameFinds(a, RuleName, i);
        ByNameFinds(b, RuleName, i);
        assert Names(a, RuleName)[i] == Names(b, RuleName)[i];
      }
    }
  }

  lemma PayloadParts(c: GatewayConfig)
    ensures IdentityKeyed(c).Keys == {"connectors", "agents", "watcher_rules", "max_queue_depth", "scheduler"}
    ensures IdentityKeyed(c)["connectors"] == Map(Keyed(Canonical(ConnectorsData(c.connectors)).items))
    ensures IdentityKeyed(c)["agents"] == Canonical(AgentsData(c.agents))
    ensures IdentityKeyed(c)["watcher_rules"] == Canonical(RulesData(c.watcherRules))
    ensures IdentityKeyed(c)["max_queue_depth"] == Canonical(Whole(c.maxQueueDepth))
    ensures IdentityKeyed(c)["scheduler"] == Canonical(SchedulerData(c.completedJobTtlDays))
  {
    var fields := ConfigData(c).fields;
    assert fields.Keys == {"connectors", "agents", "watcher_rules", "max_queue_depth", "scheduler"};
    assert Canonical(ConfigData(c)).entries.Keys == fields.Keys;
  }

  lemma PayloadEqual(a: GatewayConfig, b: GatewayConfig)
    ensures IdentityKeyed(a) == IdentityKeyed(b) <==>
      && Keyed(Canonical(ConnectorsData(a.connectors)).items) == Keyed(Canonical(ConnectorsData(b.connectors)).items)
      && Canonical(AgentsData(a.agents)) == Canonical(AgentsData(b.agents))
      && Canonical(RulesData(a.watcherRules)) == Canonical(RulesData(b.watcherRules))
      && Canonical(Whole(a.maxQueueDepth)) == Canonical(Whole(b.maxQueueDepth))
      && Canonical(SchedulerData(a.completedJobTtlDays)) == Canonical(SchedulerData(b.completedJobTtlDays))
  {
    PayloadParts(a);
    PayloadParts(b);
  }

  lemma PayloadAgrees(a: GatewayConfig, b: GatewayConfig)
    ensures IdentityKeyed(a) == IdentityKeyed(b) <==>
      && ByName(a.connectors, ConnectorName) == ByName(b.connectors, ConnectorName)
      && a.agents == b.agents && a.watcherRules == b.watcherRules
      && a.maxQueueDepth == b.maxQueueDepth && a.completedJobTtlDays == b.completedJobTtlDays
  {
    PayloadEqual(a, b);
    ConnectorsAgree(a.connectors, b.connectors);
    AgentsAgree(a.agents, b.agents);
    RulesAgree(a.watcherRules, b.watcherRules);
    PartsAgree(a, b);
  }

  lemma PartsAgree(a: GatewayConfig, b: GatewayConfig)
    ensures Canonical(AgentsData(a.agents)) == Canonical(AgentsData(b.agents)) ==>
      AgentsData(a.agents) == AgentsData(b.agents)
    ensures Canonical(RulesData(a.watcherRules)) == Canonical(RulesData(b.watcherRules)) ==>
      RulesData(a.watcherRules) == RulesData(b.watcherRules)
    ensures Canonical(Whole(a.maxQueueDepth)) == Canonical(Whole(b.maxQueueDepth)) ==>
      a.maxQueueDepth == b.maxQueueDepth
    ensures Canonical(SchedulerData(a.completedJobTtlDays)) == Canonical(SchedulerData(b.completedJobTtlDays)) ==>
      a.completedJobTtlDays == b.completedJobTtlDays
  {
    if Canonical(AgentsData(a.agents)) == Canonical(AgentsData(b.agents)) {
      CanonicalInjective(AgentsData(a.agents), AgentsData(b.agents));
    }
    if Canonical(RulesData(a.watcherRules)) == Canonical(RulesData(b.watcherRules)) {
      CanonicalInjective(RulesData(a.watcherRules), RulesData(b.watcherRules));
    }
    if Canonical(SchedulerData(a.completedJobTtlDays)) == Canonical(SchedulerData(b.completedJobTtlDays)) {
      CanonicalInjective(SchedulerData(a.completedJobTtlDays), SchedulerData(b.completedJobTtlDays));
      assert SchedulerData(a.completedJobTtlDays).fields["completed_job_ttl_days"] ==
        SchedulerData(b.completedJobTtlDays).fields["completed_job_ttl_days"];
    }
  }

  /** The digest and the diff agree: with unique names, two configurations have one payload exactly
      when the diff between them is empty. */
  lemma DigestAgreesWithDiff(a: GatewayConfig, b: GatewayConfig)
    requires UniqueNames(a) && UniqueNames(b)
    ensures IdentityKeyed(a) == IdentityKeyed(b) <==> DiffConfigs(a, b).Empty()
  {
    PayloadAgrees(a, b);
    NoEntityChange(ByName(a.connectors, ConnectorName), ByName(b.connectors, ConnectorName));
    NoEntityChange(a.agents, b.agents);
    NoEntityChange(ByName(a.watcherRules, RuleName), ByName(b.watcherRules, RuleName));
    SameRules(a.watcherRules, b.watcherRules);
  }

  /** The order of connectors does not show in the digest; the order of rules does. */
  lemma OrderInDigest(c: GatewayConfig, connectors: seq<ConnectorConfig>, rules: seq<WatcherRule>)
    requires ByName(connectors, ConnectorName) == ByName(c.connectors, ConnectorName)
    ensures IdentityKeyed(c.(connectors := connectors, watcherRules := rules)) == IdentityKeyed(c) <==>
      rules == c.watcherRules
  {
    PayloadAgrees(c.(connectors := connectors, watcherRules := rules), c);
  }
}
