/** The resolved gateway configuration and what changed between two of them
    (gateway/config.py, gateway/config_diff.py). */
module Configs {
  import opened Values

  datatype ConnectorConfig = ConnectorConfig(
    name: string,
    ctype: string,
    raw: map<string, Value>,
    contextInjectFiles: seq<string>)

  datatype ToolRule = ToolRule(tool: string, params: Option<string>)

  datatype PermissionConfig = PermissionConfig(enabled: Value, timeout: Value, skipOwnerApproval: Value)

  datatype AgentConfig = AgentConfig(
    name: string,
    atype: string,
    command: Value,
    newSessionArgs: Value,
    workingDirectory: string,
    sessionPrefix: Value,
    lazyInstructionLoading: bool,
    contextInjectFiles: seq<string>,
    ownerAllowedTools: seq<ToolRule>,
    guestAllowedTools: seq<ToolRule>,
    timeout: Value,
    permissions: PermissionConfig)

  // Two spellings of one pattern are equal: the canonical spelling is the identity.
  datatype RoomPattern = RoomPattern(canonical: string)

  datatype RoomMatcher = RoomMatcher(
    includes: seq<RoomPattern>,
    exceptFor: seq<RoomPattern>,
    direct: bool,
    groupDirect: bool)

  datatype HistoryHandoff = HistoryHandoff(enabled: bool, fetchCount: int, verbatimTail: int, maxFetchCount: int)

  datatype WatcherRule = WatcherRule(
    name: string,
    connector: string,
    agent: string,
    rooms: RoomMatcher,
    sessionIdleDays: int,
    sessionExpireDays: int,
    contextInjectFiles: seq<string>,
    historyHandoff: HistoryHandoff)

  datatype GatewayConfig = GatewayConfig(
    connectors: seq<ConnectorConfig>,
    agents: map<string, AgentConfig>,
    watcherRules: seq<WatcherRule>,
    maxQueueDepth: int,
    completedJobTtlDays: int)

  function ConnectorName(c: ConnectorConfig): string { c.name }

  function RuleName(r: WatcherRule): string { r.name }

  /** The names of a list of entries, in order. */
  function Names<T>(items: seq<T>, name: T -> string): (ns: seq<string>)
    ensures |ns| == |items|
    ensures forall i :: 0 <= i < |items| ==> ns[i] == name(items[i])
  {
    seq(|items|, i requires 0 <= i < |items| => name(items[i]))
  }

  ghost predicate Distinct(ns: seq<string>) {
    forall i, j :: 0 <= i < j < |ns| ==> ns[i] != ns[j]
  }

  /** The loader refuses a second connector or rule of one name. */
  ghost predicate UniqueNames(c: GatewayConfig) {
    && Distinct(Names(c.connectors, ConnectorName))
    && Distinct(Names(c.watcherRules, RuleName))
  }

  /** `{x.name: x for x in items}`: a later entry of one name replaces an earlier one. */
  function ByName<T>(items: seq<T>, name: T -> string): map<string, T> {
    if items == [] then map[]
    else
      var last := items[|items| - 1];
      ByName(items[..|items| - 1], name)[name(last) := last]
  }

  lemma {:induction false} ByNameIndex<T>(items: seq<T>, name: T -> string, n: string) returns (i: nat)
    requires n in ByName(items, name)
    ensures i < |items| && ByName(items, name)[n] == items[i] && name(items[i]) == n
  {
    var k := |items| - 1;
    if name(items[k]) == n {
      i := k;
    } else {
      i := ByNameIndex(items[..k], name, n);
    }
  }

  lemma {:induction false} ByNameHas<T>(items: seq<T>, name: T -> string, i: nat)
    requires i < |items|
    ensures name(items[i]) in ByName(items, name)
  {
    var k := |items| - 1;
    if i < k { ByNameHas(items[..k], name, i); }
  }

  lemma {:induction false} ByNameFinds<T>(items: seq<T>, name: T -> string, i: nat)
    requires i < |items| && Distinct(Names(items, name))
    ensures name(items[i]) in ByName(items, name) && ByName(items, name)[name(items[i])] == items[i]
  {
    var k := |items| - 1;
    if i < k {
      var front := items[..k];
      assert forall j :: 0 <= j < k ==> Names(front, name)[j] == Names(items, name)[j];
      ByNameFinds(front, name, i);
      assert Names(items, name)[i] != Names(items, name)[k];
    }
  }

  /** This connector's rules, in file order. */
  function RulesFor(rules: seq<WatcherRule>, connector: string): seq<WatcherRule> {
    if rules == [] then []
    else (if rules[0].connector == connector then [rules[0]] else []) + RulesFor(rules[1..], connector)
  }

  // Names added, changed and removed for one kind of entity; their printed order is not modelled.
  datatype EntityChanges = EntityChanges(added: set<string>, changed: set<string>, removed: set<string>) {
    predicate Empty() { added == {} && changed == {} && removed == {} }
  }

  datatype ValueChange = ValueChange(path: string, old_: int, new_: int)

  datatype ConfigDiff = ConfigDiff(
    connectors: EntityChanges,
    agents: EntityChanges,
    rules: EntityChanges,
    rulesReordered: bool,
    values: seq<ValueChange>)
  {
    predicate RulesChanged() { !rules.Empty() || rulesReordered }
    predicate Empty() { connectors.Empty() && agents.Empty() && !RulesChanged() && values == [] }
  }

  function EntityDiff<T(==)>(before: map<string, T>, after: map<string, T>): EntityChanges {
    EntityChanges(
      set n | n in after && n !in before,
      set n | n in after && n in before && before[n] != after[n],
      set n | n in before && n !in after)
  }

  function DiffConfigs(active: GatewayConfig, candidate: GatewayConfig): ConfigDiff {
    var rules := EntityDiff(ByName(active.watcherRules, RuleName), ByName(candidate.watcherRules, RuleName));
    ConfigDiff(
      EntityDiff(ByName(active.connectors, ConnectorName), ByName(candidate.connectors, ConnectorName)),
      EntityDiff(active.agents, candidate.agents),
      rules,
      rules.Empty() && Names(active.watcherRules, RuleName) != Names(candidate.watcherRules, RuleName),
      (if active.maxQueueDepth != candidate.maxQueueDepth
       then [ValueChange("max_queue_depth", active.maxQueueDepth, candidate.maxQueueDepth)] else []) +
      (if active.completedJobTtlDays != candidate.completedJobTtlDays
       then [ValueChange("scheduler.completed_job_ttl_days", active.completedJobTtlDays, candidate.completedJobTtlDays)]
       else []))
  }

  // ---- What a diff says ----

  ghost predicate HasName<T>(items: seq<T>, name: T -> string, n: string) {
    exists i :: 0 <= i < |items| && name(items[i]) == n
  }

  ghost predicate Differ<T>(before: seq<T>, after: seq<T>, name: T -> string, n: string) {
    exists i: nat, j: nat :: DifferAt(before, after, name, n, i, j)
  }

  ghost predicate DifferAt<T>(before: seq<T>, after: seq<T>, name: T -> string, n: string, i: nat, j: nat) {
    i < |before| && j < |after| && name(before[i]) == n && name(after[j]) == n && before[i] != after[j]
  }

  /** Added is what only the new list names, removed what only the old one does, and changed what
      both name and define differently. */
  ghost predicate Tells<T>(changes: EntityChanges, before: seq<T>, after: seq<T>, name: T -> string) {
    && (forall n :: n in changes.added <==> HasName(after, name, n) && !HasName(before, name, n))
    && (forall n :: n in changes.removed <==> HasName(before, name, n) && !HasName(after, name, n))
    && (forall n :: n in changes.changed <==> Differ(before, after, name, n))
  }

  lemma NamedIsFound<T>(items: seq<T>, name: T -> string, n: string)
    ensures n in ByName(items, name) <==> HasName(items, name, n)
  {
    if n in ByName(items, name) {
      var i := ByNameIndex(items, name, n);
    } else if i :| 0 <= i < |items| && name(items[i]) == n {
      ByNameHas(items, name, i);
    }
  }

  lemma ListDiffTells<T>(before: seq<T>, after: seq<T>, name: T -> string)
    requires Distinct(Names(before, name)) && Distinct(Names(after, name))
    ensures Tells(EntityDiff(ByName(before, name), ByName(after, name)), before, after, name)
  {
    var old_, new_ := ByName(before, name), ByName(after, name);
    forall n
      ensures n in old_ <==> HasName(before, name, n)
      ensures n in new_ <==> HasName(after, name, n)
      ensures n in old_ && n in new_ ==> (old_[n] != new_[n] <==> Differ(before, after, name, n))
    {
      NamedIsFound(before, name, n);
      NamedIsFound(after, name, n);
      if n in old_ && n in new_ { OneOfEach(before, after, name, n); }
    }
  }

  lemma OneOfEach<T>(before: seq<T>, after: seq<T>, name: T -> string, n: string)
    requires Distinct(Names(before, name)) && Distinct(Names(after, name))
    requires n in ByName(before, name) && n in ByName(after, name)
    ensures ByName(before, name)[n] != ByName(after, name)[n] <==> Differ(before, after, name, n)
  {
    if i: nat, j: nat :| DifferAt(before, after, name, n, i, j) {
      ByNameFinds(before, name, i);
      ByNameFinds(after, name, j);
    } else {
      var i := ByNameIndex(before, name, n);
      var j := ByNameIndex(after, name, n);
      assert !DifferAt(before, after, name, n, i, j);
    }
  }

  ghost predicate Among<T>(items: seq<T>, others: seq<T>) {
    forall t :: t in items ==> t in others
  }

  /** The whole diff, read back from the two configurations: every name under the heading it belongs
      to, the rules reordered just when they are the same ones in another order, and each value with
      what it was and what it is to be. */
  lemma DiffTells(active: GatewayConfig, candidate: GatewayConfig)
    requires UniqueNames(active) && UniqueNames(candidate)
    ensures var d := DiffConfigs(active, candidate);
      && Tells(d.connectors, active.connectors, candidate.connectors, ConnectorName)
      && Tells(d.rules, active.watcherRules, candidate.watcherRules, RuleName)
    ensures var d := DiffConfigs(active, candidate);
      && (forall n :: n in d.agents.added <==> n in candidate.agents && n !in active.agents)
      && (forall n :: n in d.agents.removed <==> n in active.agents && n !in candidate.agents)
      && (forall n :: n in d.agents.changed <==>
            n in active.agents && n in candidate.agents && active.agents[n] != candidate.agents[n])
    ensures DiffConfigs(active, candidate).rulesReordered <==>
      && active.watcherRules != candidate.watcherRules
      && Among(active.watcherRules, candidate.watcherRules) && Among(candidate.watcherRules, active.watcherRules)
    ensures forall path, x, y :: ValueChange(path, x, y) in DiffConfigs(active, candidate).values <==>
      x != y && (
        || (path == "max_queue_depth" && x == active.maxQueueDepth && y == candidate.maxQueueDepth)
        || (path == "scheduler.completed_job_ttl_days"
            && x == active.completedJobTtlDays && y == candidate.completedJobTtlDays))
  {
    ListDiffTells(active.connectors, candidate.connectors, ConnectorName);
    ListDiffTells(active.watcherRules, candidate.watcherRules, RuleName);
    SameRulesWhen(active.watcherRules, candidate.watcherRules);
  }

  lemma SameRulesWhen(before: seq<WatcherRule>, after: seq<WatcherRule>)
    requires Distinct(Names(before, RuleName)) && Distinct(Names(after, RuleName))
    ensures EntityDiff(ByName(before, RuleName), ByName(after, RuleName)).Empty() <==>
      Among(before, after) && Among(after, before)
    ensures Among(before, after) && Among(after, before) ==>
      (before == after <==> Names(before, RuleName) == Names(after, RuleName))
  {
    ListDiffTells(before, after, RuleName);
    var d := EntityDiff(ByName(before, RuleName), ByName(after, RuleName));
    if d.Empty() {
      EmptyIsAmong(before, after, d);
    } else if Among(before, after) && Among(after, before) {
      AmongIsEmpty(before, after, d);
    }
    if Among(before, after) && Names(before, RuleName) == Names(after, RuleName) {
      forall i | 0 <= i < |before| ensures before[i] == after[i] {
        assert before[i] in before;
        var j :| 0 <= j < |after| && after[j] == before[i];
        assert Names(after, RuleName)[i] == Names(after, RuleName)[j];
      }
    }
  }

  lemma EmptyIsAmong(before: seq<WatcherRule>, after: seq<WatcherRule>, d: EntityChanges)
    requires Tells(d, before, after, RuleName) && d.Empty()
    ensures Among(before, after) && Among(after, before)
  {
    forall n, i: nat, j: nat ensures !DifferAt(before, after, RuleName, n, i, j) {
      assert n !in d.changed;
      assert !Differ(before, after, RuleName, n);
    }
    forall r | r in before ensures r in after {
      var i :| 0 <= i < |before| && before[i] == r;
      assert HasName(before, RuleName, r.name) && r.name !in d.removed;
      var j :| 0 <= j < |after| && RuleName(after[j]) == r.name;
      assert !DifferAt(before, after, RuleName, r.name, i, j);
    }
    forall r | r in after ensures r in before {
      var j :| 0 <= j < |after| && after[j] == r;
      assert HasName(after, RuleName, r.name) && r.name !in d.added;
      var i :| 0 <= i < |before| && RuleName(before[i]) == r.name;
      assert !DifferAt(before, after, RuleName, r.name, i, j);
    }
  }

  lemma SameNameSameRule(before: seq<WatcherRule>, after: seq<WatcherRule>, n: string, i: nat, j: nat)
    requires Distinct(Names(after, RuleName)) && Among(before, after)
    ensures !DifferAt(before, after, RuleName, n, i, j)
  {
    if i < |before| && j < |after| && before[i].name == after[j].name {
      assert before[i] in before;
      var k :| 0 <= k < |after| && after[k] == before[i];
      assert Names(after, RuleName)[j] == Names(after, RuleName)[k];
    }
  }

  lemma AmongKeepsNames(before: seq<WatcherRule>, after: seq<WatcherRule>, n: string)
    requires Among(before, after)
    ensures HasName(before, RuleName, n) ==> HasName(after, RuleName, n)
  {
    if i :| 0 <= i < |before| && RuleName(before[i]) == n {
      assert before[i] in before;
      var k :| 0 <= k < |after| && after[k] == before[i];
      assert RuleName(after[k]) == n;
    }
  }

  lemma AmongIsEmpty(before: seq<WatcherRule>, after: seq<WatcherRule>, d: EntityChanges)
    requires Distinct(Names(after, RuleName))
    requires Tells(d, before, after, RuleName) && Among(before, after) && Among(after, before)
    ensures d.Empty()
  {
    forall n ensures n !in d.added && n !in d.removed && n !in d.changed {
      AmongKeepsNames(before, after, n);
      AmongKeepsNames(after, before, n);
      forall i: nat, j: nat ensures !DifferAt(before, after, RuleName, n, i, j) {
        SameNameSameRule(before, after, n, i, j);
      }
    }
  }
}
