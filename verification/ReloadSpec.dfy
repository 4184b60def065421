/** What a `config reload` may do to the fleet, as relations between states
    (gateway/service.py, gateway/reload_plan.py). */
module ReloadSpec {
  import opened Values
  import opened Configs
  import opened Runtime

  /** One connector with its session manager. `id` is the object's identity: an entry that is
      kept has the same `id`, one that is rebuilt has a new one. */
  datatype Entry = Entry(
    id: nat,
    cfg: ConnectorConfig,
    rules: seq<WatcherRule>,
    degraded: bool,
    quiesced: bool)

  function EntryName(e: Entry): string { e.cfg.name }

  function Instance(e: Entry): Proc { ConnectorProc(e.id, e.cfg.name) }

  ghost predicate DistinctNames(es: seq<Entry>) {
    forall i, j :: 0 <= i < j < |es| ==> es[i].cfg.name != es[j].cfg.name
  }

  /** The entries by name. */
  function Look(es: seq<Entry>): map<string, Entry> { ByName(es, EntryName) }

  /** The instances of the entries named. */
  ghost function Instances(es: seq<Entry>, names: set<string>): set<Proc> {
    set e | e in es && e.cfg.name in names :: Instance(e)
  }

  ghost predicate SameInstance(e: Entry, e': Entry) {
    e'.id == e.id && e'.cfg == e.cfg
  }

  lemma {:induction false} LookFinds(es: seq<Entry>, i: nat)
    requires i < |es| && DistinctNames(es)
    ensures es[i].cfg.name in Look(es) && Look(es)[es[i].cfg.name] == es[i]
  {
    var ns := Names(es, EntryName);
    assert Distinct(ns);
    ByNameFinds(es, EntryName, i);
  }

  lemma LookIndex(es: seq<Entry>, n: string) returns (i: nat)
    requires n in Look(es)
    ensures i < |es| && es[i] == Look(es)[n] && es[i].cfg.name == n
  {
    i := ByNameIndex(es, EntryName, n);
  }

  lemma LookNames(es: seq<Entry>)
    ensures forall n :: n in Look(es) ==> Look(es)[n].cfg.name == n
  {
    forall n | n in Look(es) ensures Look(es)[n].cfg.name == n {
      var _ := LookIndex(es, n);
    }
  }

  /** Entries updated one by one keep their places. */
  ghost predicate SameInstances(es: seq<Entry>, es': seq<Entry>) {
    |es| == |es'| && forall i :: 0 <= i < |es| ==> SameInstance(es[i], es'[i])
  }

  lemma {:induction false} LookSame(es: seq<Entry>, es': seq<Entry>)
    requires DistinctNames(es) && SameInstances(es, es')
    ensures DistinctNames(es') && Look(es').Keys == Look(es).Keys
    ensures forall n :: n in Look(es) ==> SameInstance(Look(es)[n], Look(es')[n])
    ensures forall n :: n in Look(es) ==> exists i :: 0 <= i < |es| && Look(es)[n] == es[i] && Look(es')[n] == es'[i]
  {
    forall n | n in Look(es) ensures n in Look(es') && SameInstance(Look(es)[n], Look(es')[n])
      && exists i :: 0 <= i < |es| && Look(es)[n] == es[i] && Look(es')[n] == es'[i]
    {
      var i := LookIndex(es, n);
      LookFinds(es', i);
      assert SameInstance(es[i], es'[i]);
    }
    forall n | n in Look(es') ensures n in Look(es) {
      var i := LookIndex(es', n);
      LookFinds(es, i);
      assert SameInstance(es[i], es'[i]);
    }
  }

  /** The entries whose name is not in `names`, in order. */
  function Without(es: seq<Entry>, names: set<string>): (r: seq<Entry>)
    ensures forall e :: e in r <==> e in es && e.cfg.name !in names
  {
    if es == [] then []
    else (if es[0].cfg.name in names then [] else [es[0]]) + Without(es[1..], names)
  }

  lemma {:induction false} WithoutDistinct(es: seq<Entry>, names: set<string>)
    requires DistinctNames(es)
    ensures DistinctNames(Without(es, names))
  {
    if es != [] {
      assert forall i, j :: 0 <= i < j < |es| - 1 ==> es[1..][i] == es[i + 1] && es[1..][j] == es[j + 1];
      WithoutDistinct(es[1..], names);
      var r := Without(es[1..], names);
      forall j | 0 <= j < |r| ensures r[j].cfg.name != es[0].cfg.name {
        assert r[j] in es[1..];
        var k :| 0 <= k < |es[1..]| && es[1..][k] == r[j];
        assert es[k + 1] == r[j];
      }
    }
  }

  lemma {:induction false} LookWithout(es: seq<Entry>, names: set<string>)
    requires DistinctNames(es)
    ensures DistinctNames(Without(es, names))
    ensures Look(Without(es, names)).Keys == Look(es).Keys - names
    ensures forall n :: n in Look(es) && n !in names ==> Look(Without(es, names))[n] == Look(es)[n]
  {
    WithoutDistinct(es, names);
    var r := Without(es, names);
    forall n | n in Look(r) ensures n in Look(es) && n !in names && Look(es)[n] == Look(r)[n] {
      var j := LookIndex(r, n);
      assert r[j] in es;
      var i :| 0 <= i < |es| && es[i] == r[j];
      LookFinds(es, i);
    }
    forall n | n in Look(es) && n !in names ensures n in Look(r) {
      var i := LookIndex(es, n);
      assert es[i] in r;
      var j :| 0 <= j < |r| && r[j] == es[i];
      LookFinds(r, j);
    }
  }

  /** The service's fields as one value. */
  datatype ServiceState = ServiceState(
    config: GatewayConfig,
    entries: seq<Entry>,
    managers: map<string, nat>,
    leftoverEntries: seq<Proc>,
    suspects: set<string>,
    schedulerRunning: bool,
    rt: RuntimeState)

  /** The index the scheduler holds: each entry's manager under its name. */
  function Index(es: seq<Entry>): map<string, nat> {
    if es == [] then map[]
    else Index(es[..|es| - 1])[es[|es| - 1].cfg.name := es[|es| - 1].id]
  }

  lemma {:induction false} IndexLook(es: seq<Entry>)
    ensures Index(es).Keys == Look(es).Keys
    ensures forall n :: n in Index(es) ==> Index(es)[n] == Look(es)[n].id
  {
    if es != [] { IndexLook(es[..|es| - 1]); }
  }

  lemma {:induction false} IndexSame(es: seq<Entry>, es': seq<Entry>)
    requires SameInstances(es, es')
    ensures Index(es) == Index(es')
  {
    if es != [] {
      var k := |es| - 1;
      assert forall i :: 0 <= i < k ==> es[..k][i] == es[i] && es'[..k][i] == es'[i];
      IndexSame(es[..k], es'[..k]);
      assert SameInstance(es[k], es'[k]);
    }
  }

  ghost predicate Valid(s: ServiceState) {
    && DistinctNames(s.entries)
    && s.managers == Index(s.entries)
    && s.rt.Valid()
  }

  /** A broker belongs to an installed, available agent. */
  ghost predicate BrokersMatch(r: RuntimeState) {
    && r.unavailable <= r.agents.Keys
    && r.brokers.Keys <= r.agents.Keys
    && r.brokers.Keys !! r.unavailable
  }

  /** Is the process still within reach of a later stop? */
  ghost predicate Tracked(r: RuntimeState, look: map<string, Entry>, leftoverEntries: seq<Proc>, p: Proc) {
    || r.Tracks(p)
    || (p.ConnectorProc? && p in leftoverEntries)
    || (p.ConnectorProc? && p.name in look && look[p.name].id == p.id)
  }

  /** Conservation: whatever started and has not stopped cleanly is still held somewhere. */
  ghost predicate Conserved(s: ServiceState, live: set<Proc>) {
    forall p :: p in live ==> Tracked(s.rt, Look(s.entries), s.leftoverEntries, p)
  }

  ghost predicate Sound(s: ServiceState, live: set<Proc>) {
    Conserved(s, live) && BrokersMatch(s.rt)
  }

  /** Connecting entries of the fleet loses nothing. */
  lemma ConnectedSound(s: ServiceState, live: set<Proc>, live': set<Proc>)
    requires Valid(s) && Sound(s, live)
    requires forall p :: p in live' && p !in live ==> exists i :: 0 <= i < |s.entries| && p == Instance(s.entries[i])
    ensures Sound(s, live')
  {
    forall p | p in live' ensures Tracked(s.rt, Look(s.entries), s.leftoverEntries, p) {
      if p !in live {
        var i :| 0 <= i < |s.entries| && p == Instance(s.entries[i]);
        LookFinds(s.entries, i);
      } else {
        assert Tracked(s.rt, Look(s.entries), s.leftoverEntries, p);
      }
    }
  }

  /** Every connector not marked degraded runs and takes work, and is none of those given up on. */
  ghost predicate EntriesServe(s: ServiceState, live: set<Proc>) {
    forall n :: n in Look(s.entries) && !Look(s.entries)[n].degraded ==>
      !Look(s.entries)[n].quiesced &&
      Instance(Look(s.entries)[n]) in live && Instance(Look(s.entries)[n]) !in s.leftoverEntries
  }

  /** So does every agent of `names`, its broker beside it, unless it is unavailable or suspect. */
  ghost predicate AgentsServe(s: ServiceState, live: set<Proc>, names: set<string>) {
    forall n :: n in s.rt.agents && n in names && n !in s.suspects ==>
      BackendProc(s.rt.agents[n]) !in s.rt.leftovers && (n in s.rt.unavailable || AgentUp(s.rt, live, n))
  }

  /** Identities handed out so far lie below the counter. */
  ghost predicate Below(s: ServiceState, serial: nat) {
    && (forall n :: n in Look(s.entries) ==> Look(s.entries)[n].id < serial)
    && (forall p :: p in s.leftoverEntries ==> p.ConnectorProc? && p.id < serial)
    && (forall n :: n in s.rt.agents ==> s.rt.agents[n].id < serial)
    && (forall p :: p in s.rt.leftovers ==> !p.ConnectorProc? && (p.BackendProc? ==> p.backend.id < serial))
    && BrokersBelow(s.rt.brokers, s.rt.leftovers, serial)
  }

  lemma FleetServes(s: ServiceState, live: set<Proc>)
    requires Synced(s, s.config) && s.leftoverEntries == []
    requires forall e :: e in s.entries ==> Instance(e) in live
    ensures EntriesServe(s, live)
  {
    forall n | n in Look(s.entries) ensures Instance(Look(s.entries)[n]) in live && !Look(s.entries)[n].quiesced {
      var i := LookIndex(s.entries, n);
      assert s.entries[i] in s.entries;
    }
  }

  /** Told to stop: each connector, each leftover, and each agent's processes. */
  lemma EverythingAsked(s: ServiceState, live: set<Proc>, a0: multiset<Proc>, a1: multiset<Proc>, a2: multiset<Proc>,
                        a3: multiset<Proc>)
    requires Sound(s, live) && s.rt.Valid()
    requires AllAsked(a0, a1, Instances(s.entries, Look(s.entries).Keys)) &&
      AllAsked(a1, a2, set p | p in s.leftoverEntries)
    requires AllAsked(a2, a3, s.rt.OwnedBy(s.rt.agents.Keys) + set p | p in s.rt.leftovers)
    ensures AllAsked(a0, a3, live)
  {
    forall p | p in live ensures a3[p] > a0[p] {
      assert Tracked(s.rt, Look(s.entries), s.leftoverEntries, p);
      if p in s.leftoverEntries || p in s.rt.leftovers {
      } else if p.ConnectorProc? {
        var i := LookIndex(s.entries, p.name);
        assert s.entries[i] in s.entries && p in Instances(s.entries, Look(s.entries).Keys);
      } else {
        assert p in s.rt.OwnedBy(s.rt.agents.Keys);
      }
    }
  }

  // ---- What one apply is asked to do, and what it built before it touched anything ----

  function CandidateNames(c: GatewayConfig): set<string> { ByName(c.connectors, ConnectorName).Keys }

  function CandidateConnector(c: GatewayConfig, n: string): ConnectorConfig
    requires n in CandidateNames(c)
  {
    ByName(c.connectors, ConnectorName)[n]
  }

  function RebuiltAgents(d: ConfigDiff): set<string> { d.agents.changed + d.agents.added }

  function RebuiltConnectors(d: ConfigDiff): set<string> { d.connectors.changed + d.connectors.added }

  function StoppingAgents(d: ConfigDiff): set<string> { d.agents.changed + d.agents.removed }

  /** A loaded configuration: names unique, every agent filed under its own name. */
  ghost predicate Loaded(c: GatewayConfig) {
    && UniqueNames(c)
    && (forall n :: n in c.agents ==> c.agents[n].name == n)
  }

  /** A diff against `c` names only what `c` has, and removes only what it lacks. */
  ghost predicate Fits(d: ConfigDiff, c: GatewayConfig) {
    && RebuiltAgents(d) <= c.agents.Keys
    && RebuiltConnectors(d) <= CandidateNames(c)
    && d.agents.removed !! c.agents.Keys
    && d.connectors.removed !! CandidateNames(c)
  }

  // New backends and new connector objects, constructed before anything is stopped; their
  // identities lie below `top`.
  datatype Build = Build(backends: map<string, Backend>, connectors: map<string, nat>, top: nat)

  ghost predicate Built(d: ConfigDiff, c: GatewayConfig, serial: nat, b: Build)
    requires Fits(d, c)
  {
    && b.backends.Keys == RebuiltAgents(d)
    && (forall n :: n in b.backends ==> b.backends[n].def == c.agents[n] && serial <= b.backends[n].id < b.top)
    && b.connectors.Keys == RebuiltConnectors(d)
    && (forall n :: n in b.connectors ==> serial <= b.connectors[n] < b.top)
    && serial <= b.top
    && (forall n, m :: n in b.connectors && m in b.connectors && n != m ==> b.connectors[n] != b.connectors[m])
  }

  function BuildEntry(cc: ConnectorConfig, id: nat, c: GatewayConfig): Entry {
    Entry(id, cc, RulesFor(c.watcherRules, cc.name), false, false)
  }

  /** The agents dict an apply leaves: what it rebuilt, and what it neither rebuilt nor removed. */
  ghost predicate AgentsReplaced(agents: map<string, Backend>, removed: set<string>, b: Build, agents': map<string,
                                 Backend>) {
    && (forall n :: n in agents' <==> n in b.backends || (n in agents && n !in removed))
    && (forall n :: n in agents' ==> agents'[n] == if n in b.backends then b.backends[n] else agents[n])
  }

  /** An apply that stopped part-way may have done any part of that. */
  ghost predicate AgentsBetween(agents: map<string, Backend>, removed: set<string>, b: Build, agents': map<string,
                                Backend>) {
    && (forall n :: n in agents && n !in removed ==> n in agents')
    && (forall n :: n in agents' ==>
      (n in agents && agents'[n] == agents[n]) || (n in b.backends && agents'[n] == b.backends[n]))
  }

  /** The fleet runs `c`: one entry per connector, in order, built from its definition and
      holding its rules; one backend per agent, built from its definition. */
  ghost predicate Synced(s: ServiceState, c: GatewayConfig) {
    && s.config == c
    && |s.entries| == |c.connectors|
    && (forall i :: 0 <= i < |s.entries| ==>
          s.entries[i].cfg == c.connectors[i] && s.entries[i].rules == RulesFor(c.watcherRules, c.connectors[i].name)
          && !s.entries[i].quiesced)
    && s.rt.agents.Keys == c.agents.Keys
    && (forall n :: n in s.rt.agents ==> s.rt.agents[n].def == c.agents[n])
  }

  lemma BuiltNamesDistinct(c: GatewayConfig, es: seq<Entry>)
    requires Loaded(c)
    requires |es| == |c.connectors|
    requires forall i :: 0 <= i < |es| ==> es[i].cfg.name == c.connectors[i].name
    ensures DistinctNames(es)
  {
    var ns := Names(c.connectors, ConnectorName);
    assert Distinct(ns);
    forall i, j | 0 <= i < j < |es| ensures es[i].cfg.name != es[j].cfg.name {
      assert ns[i] != ns[j];
    }
  }

  /** These objects are new, and each is its own. */
  ghost predicate NewIds(backends: map<string, Backend>, ids: map<string, nat>, serial: nat) {
    && (forall n :: n in backends ==> backends[n].id >= serial)
    && (forall n, m :: n in backends && m in backends && n != m ==> backends[n].id != backends[m].id)
    && (forall n :: n in ids ==> ids[n] >= serial)
    && (forall n, m :: n in ids && m in ids && n != m ==> ids[n] != ids[m])
    && (forall n, m :: n in backends && m in ids ==> backends[n].id != ids[m])
  }

  /** Every backend and every entry is a new object, and no two are one. */
  ghost predicate AllNew(s: ServiceState, serial: nat) {
    && (forall n :: n in s.rt.agents ==> s.rt.agents[n].id >= serial)
    && (forall n, m :: n in s.rt.agents && m in s.rt.agents && n != m ==> s.rt.agents[n].id != s.rt.agents[m].id)
    && (forall i :: 0 <= i < |s.entries| ==> s.entries[i].id >= serial)
    && (forall i, j :: 0 <= i < j < |s.entries| ==> s.entries[i].id != s.entries[j].id)
    && (forall n, i :: n in s.rt.agents && 0 <= i < |s.entries| ==> s.rt.agents[n].id != s.entries[i].id)
  }

  /** A service as built: in step with its configuration, healthy, of new objects; nothing is started,
      unavailable, suspect or given up on. */
  ghost predicate AsBuilt(s: ServiceState, c: GatewayConfig, serial: nat, top: nat) {
    && Valid(s) && Synced(s, c) && Below(s, top) && AllNew(s, serial)
    && (forall e :: e in s.entries ==> !e.degraded)
    && s.rt.brokers == map[] && s.rt.unavailable == {} && s.rt.leftovers == [] && s.leftoverEntries == []
    && s.suspects == {} && !s.schedulerRunning
  }

  lemma NewService(s: ServiceState, c: GatewayConfig, ids: map<string, nat>, backends: map<string, Backend>,
                   serial0: nat, serial: nat)
    requires Loaded(c) && s == ServiceState(c, s.entries, Index(s.entries), [], {}, false,
      RuntimeState(backends, map[], {}, []))
    requires ids.Keys == CandidateNames(c) && forall n :: n in ids ==> ids[n] < serial
    requires backends.Keys == c.agents.Keys && forall n :: n in backends ==>
      backends[n].def == c.agents[n] && backends[n].id < serial
    requires NewIds(backends, ids, serial0)
    requires |s.entries| == |c.connectors|
    requires forall i :: 0 <= i < |s.entries| ==>
      c.connectors[i].name in ids && s.entries[i] == BuildEntry(c.connectors[i], ids[c.connectors[i].name], c)
    ensures AsBuilt(s, c, serial0, serial)
  {
    BuiltNamesDistinct(c, s.entries);
    forall i, j | 0 <= i < j < |s.entries| ensures s.entries[i].id != s.entries[j].id {
      assert s.entries[i].cfg.name != s.entries[j].cfg.name;
    }
    forall n | n in Look(s.entries) ensures Look(s.entries)[n].id < serial {
      var i := LookIndex(s.entries, n);
    }
  }

  lemma EachNamed(c: GatewayConfig)
    ensures forall i :: 0 <= i < |c.connectors| ==> c.connectors[i].name in CandidateNames(c)
  {
    forall i | 0 <= i < |c.connectors| ensures c.connectors[i].name in CandidateNames(c) {
      ByNameHas(c.connectors, ConnectorName, i);
    }
  }

  // ---- The stop pass ----

  /** The same entries, except for which of them refuse new work. */
  ghost predicate QuiescedOnly(es: seq<Entry>, es': seq<Entry>) {
    && |es| == |es'|
    && (forall i :: 0 <= i < |es| ==> es'[i] == es[i].(quiesced := es'[i].quiesced))
  }

  lemma {:induction false} LookQuiesced(es: seq<Entry>, es': seq<Entry>)
    requires DistinctNames(es) && QuiescedOnly(es, es')
    ensures DistinctNames(es') && Index(es') == Index(es) && Look(es').Keys == Look(es).Keys
    ensures forall n :: n in Look(es) ==> Look(es')[n] == Look(es)[n].(quiesced := Look(es')[n].quiesced)
  {
    assert SameInstances(es, es');
    IndexSame(es, es');
    LookSame(es, es');
  }

  /** Entries survive a stop pass as they were, except that they may refuse new work; those the
      candidate keeps all survive. */
  ghost predicate EntriesAfterStop(look: map<string, Entry>, d: ConfigDiff, c: GatewayConfig, look': map<string,
                                   Entry>) {
    && (forall n :: n in look' ==> n in look && look'[n] == look[n].(quiesced := look'[n].quiesced))
    && (forall n :: n in look && n in CandidateNames(c) && n !in RebuiltConnectors(d) ==> n in look')
  }

  /** An apply takes connector `n` down: the candidate lacks it, or has it built anew. */
  predicate Going(d: ConfigDiff, c: GatewayConfig, n: string) {
    n !in CandidateNames(c) || n in RebuiltConnectors(d)
  }

  /** A connector that stays is not told to stop. */
  ghost predicate Undisturbed(d: ConfigDiff, c: GatewayConfig, live: set<Proc>, live': set<Proc>) {
    forall p :: p in live && p.ConnectorProc? && !Going(d, c, p.name) ==> p in live'
  }

  ghost predicate InstanceIn(look: map<string, Entry>, p: Proc) {
    p.ConnectorProc? && p.name in look && look[p.name].id == p.id
  }

  /** Of the connectors that stay, only those named refuse new work, and any that did before. */
  ghost predicate RefuseOnly(look: map<string, Entry>, d: ConfigDiff, c: GatewayConfig, names: set<string>,
                             look': map<string, Entry>)
  {
    forall n :: n in look' && !Going(d, c, n) && look'[n].quiesced ==> n in names || (n in look && look[n].quiesced)
  }

  /** A connector that stays runs on as the object it was. */
  ghost predicate KeptRuns(look: map<string, Entry>, d: ConfigDiff, c: GatewayConfig, live: set<Proc>,
                           look': map<string, Entry>, live': set<Proc>)
  {
    forall n :: n in look && !Going(d, c, n) ==>
      n in look' && SameInstance(look[n], look'[n]) && (Instance(look[n]) in live ==> Instance(look[n]) in live')
  }

  /** A process given up on was a going connector's, or a stopping agent's. */
  ghost predicate GivenUp(s: ServiceState, d: ConfigDiff, c: GatewayConfig, s': ServiceState) {
    && s.leftoverEntries <= s'.leftoverEntries && s.rt.leftovers <= s'.rt.leftovers
    && (forall p :: p in s'.leftoverEntries && p !in s.leftoverEntries ==>
      InstanceIn(Look(s.entries), p) && Going(d, c, p.name))
    && (forall p :: p in s'.rt.leftovers && p !in s.rt.leftovers ==> s.rt.Owns(StoppingAgents(d), p))
  }

  /** Only connectors and processes of `names` stop. */
  ghost predicate StopsOnly(r: RuntimeState, live: set<Proc>, names: set<string>, r': RuntimeState, live': set<Proc>) {
    && r'.agents == r.agents && r'.unavailable == r.unavailable
    && (forall n :: n in r'.brokers ==> n in r.brokers && r'.brokers[n] == r.brokers[n])
    && (forall n :: n in r.brokers && n !in names ==> n in r'.brokers)
    && live' <= live
    && (forall p :: p in live && p !in live' ==> p.ConnectorProc? || r.Owns(names, p))
  }

  /** An agent this apply does not touch keeps its broker, and that runs on. */
  ghost predicate BrokersStay(r: RuntimeState, live: set<Proc>, d: ConfigDiff, r': RuntimeState, live': set<Proc>) {
    forall n :: n in r.brokers && n !in RebuiltAgents(d) && n !in d.agents.removed ==>
      n in r'.brokers && r'.brokers[n] == r.brokers[n] && (BrokerProc(r.brokers[n]) in live ==>
        BrokerProc(r.brokers[n]) in live')
  }

  /** Whatever happened, this much holds after a stop pass, complete or not. */
  ghost predicate StopBegun(s: ServiceState, live: set<Proc>, d: ConfigDiff, c: GatewayConfig,
                            s': ServiceState, live': set<Proc>)
  {
    && Valid(s')
    && s'.config == s.config && s'.suspects == s.suspects
    && GivenUp(s, d, c, s') && Undisturbed(d, c, live, live')
    && EntriesAfterStop(Look(s.entries), d, c, Look(s'.entries))
    && StopsOnly(s.rt, live, StoppingAgents(d), s'.rt, live') && BrokersStay(s.rt, live, d, s'.rt, live')
    && (Sound(s, live) ==> Sound(s', live'))
  }

  /** Every process of a stopping agent is down or a leftover, and its broker unregistered. */
  ghost predicate AgentsStopped(s: ServiceState, live: set<Proc>, d: ConfigDiff, c: GatewayConfig,
                                s': ServiceState, live': set<Proc>)
  {
    && StopBegun(s, live, d, c, s', live')
    && s'.rt.brokers.Keys !! StoppingAgents(d)
    && (forall p :: p in live' && s.rt.Owns(StoppingAgents(d), p) ==> p in s'.rt.leftovers)
  }

  /** A stop pass that ran to its end. */
  ghost predicate StopDone(s: ServiceState, live: set<Proc>, d: ConfigDiff, c: GatewayConfig,
                           s': ServiceState, live': set<Proc>)
  {
    && AgentsStopped(s, live, d, c, s', live')
    && (forall n :: n in Look(s'.entries) ==> n in CandidateNames(c) && n !in RebuiltConnectors(d))
  }

  /** The names an apply takes down or replaces, as it computes them. */
  function Replacing(d: ConfigDiff, c: GatewayConfig, installed: set<string>): set<string> {
    var removed := d.connectors.removed + (installed - CandidateNames(c));
    removed + d.connectors.changed + d.connectors.added * installed
  }

  /** Before anything is torn down the managers of removed connectors gave up their rooms, and the
      others stopped theirs on agents that go. */
  ghost predicate StopErrands(installed: set<string>, d: ConfigDiff, c: GatewayConfig, kept: set<string>,
                              before: multiset<Errand>, after: multiset<Errand>)
  {
    && Sent(before, after, Reclaim, installed - CandidateNames(c))
    && (StoppingAgents(d) != {} ==> Sent(before, after, StopRooms, kept))
  }

  /** Once the agents are up the managers kept brought their rooms in line with new rules, and started
      those that had been stopped. Of the new connectors each that is not degraded was let in. */
  ghost predicate StartErrands(kept: set<string>, d: ConfigDiff, es: seq<Entry>, before: multiset<Errand>,
                               after: multiset<Errand>)
  {
    && (d.RulesChanged() ==> Sent(before, after, ApplyRules, kept))
    && Sent(before, after, StartRooms, kept)
    && HealthyLetIn(es, RebuiltConnectors(d), before, after)
  }

  ghost predicate HealthyLetIn(es: seq<Entry>, names: set<string>, before: multiset<Errand>, after: multiset<Errand>) {
    forall i :: 0 <= i < |es| && es[i].cfg.name in names && !es[i].degraded ==> LetIn(before, after, es[i].cfg.name)
  }

  lemma StillLetIn(es: seq<Entry>, names: set<string>, before: multiset<Errand>, between: multiset<Errand>,
                   after: multiset<Errand>)
    requires HealthyLetIn(es, names, before, between) && between <= after
    ensures HealthyLetIn(es, names, before, after)
  {
  }

  /** Each step in turn of those that passed the one before. */
  lemma StepsLetIn(es: seq<Entry>, es': seq<Entry>, live: set<Proc>, names: set<string>, up1: set<string>,
                   up2: set<string>, up: set<string>, reports: seq<Degraded>, e0: multiset<Errand>,
                   e1: multiset<Errand>, e2: multiset<Errand>, e3: multiset<Errand>)
    requires Settled(es, es', live, |es|, names, up, reports) && up <= up2 <= up1
    requires AllPassed(e0, e1, SettleRecords, up1) && AllPassed(e1, e2, Identify, up2) && AllPassed(e2, e3, Sync, up)
    ensures HealthyLetIn(es', names, e0, e3)
  {
    forall i | 0 <= i < |es'| && es'[i].cfg.name in names && !es'[i].degraded
      ensures LetIn(e0, e3, es'[i].cfg.name) {
      assert es'[i].cfg == es[i].cfg && es[i].cfg.name in up;
    }
  }

  lemma BothStopErrands(installed: set<string>, d: ConfigDiff, c: GatewayConfig, kept: set<string>,
                        before: multiset<Errand>, between: multiset<Errand>, after: multiset<Errand>)
    requires Sent(before, between, Reclaim, (d.connectors.removed + (installed - CandidateNames(c))) * installed)
    requires between <= after && kept == installed - Replacing(d, c, installed)
    requires StoppingAgents(d) != {} ==> Sent(between, after, StopRooms, installed - Replacing(d, c, installed))
    ensures StopErrands(installed, d, c, kept, before, after)
  {
    forall n | n in installed - CandidateNames(c) ensures SentOne(before, after, Reclaim, n) {
      assert n in (d.connectors.removed + (installed - CandidateNames(c))) * installed;
    }
  }

  /** All of it, in a completed apply: `installed` are the connectors it found. */
  ghost predicate RoomsFollow(installed: set<string>, d: ConfigDiff, c: GatewayConfig, es: seq<Entry>,
                              before: multiset<Errand>, after: multiset<Errand>)
  {
    && StopErrands(installed, d, c, installed - Replacing(d, c, installed), before, after)
    && StartErrands(installed - Replacing(d, c, installed), d, es, before, after)
  }

  lemma AllErrands(installed: set<string>, d: ConfigDiff, c: GatewayConfig, kept: set<string>, es: seq<Entry>,
                   before: multiset<Errand>, between: multiset<Errand>, after: multiset<Errand>)
    requires kept == installed - Replacing(d, c, installed)
    requires StopErrands(installed, d, c, kept, before, between) && StartErrands(kept, d, es, between, after)
    ensures RoomsFollow(installed, d, c, es, before, after)
  {
  }

  lemma BothStartErrands(kept: set<string>, d: ConfigDiff, es: seq<Entry>, before: multiset<Errand>,
                         between: multiset<Errand>, after: multiset<Errand>)
    requires before <= between && (d.RulesChanged() ==> Sent(before, between, ApplyRules, kept))
    requires Sent(between, after, StartRooms, kept) && HealthyLetIn(es, RebuiltConnectors(d), between, after)
    ensures StartErrands(kept, d, es, before, after)
  {
  }

  lemma KeptStays(look: map<string, Entry>, d: ConfigDiff, c: GatewayConfig, kept: set<string>,
                  look': map<string, Entry>)
    requires Fits(d, c) && EntriesAfterStop(look, d, c, look')
    requires kept == look.Keys - Replacing(d, c, look.Keys)
    ensures RefuseOnly(look, d, c, kept, look')
  {
    ReplacingIsRest(d, c, look.Keys);
  }

  lemma ReplacingIsRest(d: ConfigDiff, c: GatewayConfig, installed: set<string>)
    requires Fits(d, c)
    ensures forall n :: n in installed ==>
      (n in Replacing(d, c, installed) <==> n !in CandidateNames(c) || n in RebuiltConnectors(d))
  {
  }

  lemma InstancesGo(es: seq<Entry>, d: ConfigDiff, c: GatewayConfig)
    requires DistinctNames(es) && Fits(d, c)
    ensures forall p :: p in Instances(es, Replacing(d, c, Look(es).Keys)) ==>
      InstanceIn(Look(es), p) && Going(d, c, p.name)
  {
    ReplacingIsRest(d, c, Look(es).Keys);
    forall p | p in Instances(es, Replacing(d, c, Look(es).Keys))
      ensures InstanceIn(Look(es), p) && Going(d, c, p.name) {
      var e :| e in es && e.cfg.name in Replacing(d, c, Look(es).Keys) && p == Instance(e);
      var i :| 0 <= i < |es| && es[i] == e;
      LookFinds(es, i);
    }
  }

  lemma Paused(s: ServiceState, live: set<Proc>, d: ConfigDiff, c: GatewayConfig, s': ServiceState)
    requires Valid(s)
    requires s' == s.(entries := s'.entries, schedulerRunning := s'.schedulerRunning)
    requires QuiescedOnly(s.entries, s'.entries)
    ensures StopBegun(s, live, d, c, s', live)
    ensures Look(s'.entries).Keys == Look(s.entries).Keys
  {
    LookQuiesced(s.entries, s'.entries);
  }

  // Managers shut down, nothing uninstalled yet.
  lemma ManagersDown(s: ServiceState, live: set<Proc>, d: ConfigDiff, c: GatewayConfig,
                     s1: ServiceState, s2: ServiceState, live2: set<Proc>)
    requires Fits(d, c) && StopBegun(s, live, d, c, s1, live)
    requires s2 == s1.(leftoverEntries := s2.leftoverEntries) && s1.leftoverEntries <= s2.leftoverEntries
    requires live2 <= live
    requires forall p :: p in live && p !in live2 ==> p in Instances(s1.entries, Replacing(d, c, Look(s1.entries).Keys))
    requires forall p :: p in s2.leftoverEntries && p !in s1.leftoverEntries ==>
      p in Instances(s1.entries, Replacing(d, c, Look(s1.entries).Keys))
    ensures StopBegun(s, live, d, c, s2, live2)
  {
    InstancesGo(s1.entries, d, c);
  }

  lemma AgentsDown(s: ServiceState, live: set<Proc>, d: ConfigDiff, c: GatewayConfig, failed: set<string>,
                   s2: ServiceState, live2: set<Proc>, s3: ServiceState, live3: set<Proc>)
    requires Valid(s)
    requires StopBegun(s, live, d, c, s2, live2) && s2.rt == s.rt
    requires s3 == s2.(rt := s3.rt)
    requires Stopped(s2.rt, live2, StoppingAgents(d), failed, s3.rt, live3)
    ensures AgentsStopped(s, live, d, c, s3, live3)
  {
    if Sound(s, live) {
      forall p | p in live3 ensures Tracked(s3.rt, Look(s3.entries), s3.leftoverEntries, p) {
        assert Tracked(s2.rt, Look(s2.entries), s2.leftoverEntries, p);
        if p !in s3.leftoverEntries && !p.ConnectorProc? && p !in s3.rt.leftovers {
          assert !s2.rt.Owns(StoppingAgents(d), p);
        }
      }
    }
  }

  lemma Uninstalled(s: ServiceState, live: set<Proc>, d: ConfigDiff, c: GatewayConfig,
                    s3: ServiceState, live3: set<Proc>, s4: ServiceState)
    requires Fits(d, c)
    requires AgentsStopped(s, live, d, c, s3, live3)
    requires forall e :: e in s3.entries && e.cfg.name in Replacing(d, c, Look(s3.entries).Keys) ==>
      Instance(e) !in live3 || Instance(e) in s3.leftoverEntries
    requires s4 == s3.(entries := Without(s3.entries, Replacing(d, c, Look(s3.entries).Keys)),
      managers := Index(s4.entries))
    ensures StopDone(s, live, d, c, s4, live3)
    ensures Look(s4.entries).Keys == Look(s3.entries).Keys - Replacing(d, c, Look(s3.entries).Keys)
  {
    var names := Replacing(d, c, Look(s3.entries).Keys);
    ReplacingIsRest(d, c, Look(s3.entries).Keys);
    LookWithout(s3.entries, names);
    if Sound(s, live) {
      forall p | p in live3 ensures Tracked(s4.rt, Look(s4.entries), s4.leftoverEntries, p) {
        assert Tracked(s3.rt, Look(s3.entries), s3.leftoverEntries, p);
        if p.ConnectorProc? && p.name in Look(s3.entries) && p.name in names {
          var i := LookIndex(s3.entries, p.name);
        }
      }
    }
  }

  // ---- Rebuild and start ----

  /** An added agent that is already installed is one a failed apply left behind; unless it is
      folded into `changed` nothing stops it before it is replaced. */
  predicate Stray(r: RuntimeState, d: ConfigDiff, n: string) {
    n in d.agents.added && n in r.agents && n !in d.agents.changed
  }

  /** No stray has a broker, and its backend is down or a leftover. */
  ghost predicate NoStray(r: RuntimeState, live: set<Proc>, d: ConfigDiff) {
    forall n :: Stray(r, d, n) ==>
      n !in r.brokers && (BackendProc(r.agents[n]) in live ==> BackendProc(r.agents[n]) in r.leftovers)
  }

  /** Each entry is the one that was there, or the new one built for its name. */
  ghost predicate EntriesBetween(look: map<string, Entry>, c: GatewayConfig, b: Build, look': map<string, Entry>) {
    && (forall n :: n in look' ==>
          || (n in look && SameInstance(look[n], look'[n]))
          || (n in b.connectors && n in CandidateNames(c) && look'[n].id == b.connectors[n]
              && look'[n].cfg == CandidateConnector(c, n)))
    && (forall n :: n in look && n in CandidateNames(c) && n !in b.connectors ==>
          n in look' && SameInstance(look[n], look'[n]))
  }

  /** A backend that was running before the apply and that no stop pass is asked to stop runs on. */
  ghost predicate StraysRun(s: ServiceState, live: set<Proc>, serial: nat, d: ConfigDiff, live': set<Proc>) {
    forall p :: p in live && p.BackendProc? && p.backend.id < serial && !s.rt.Owns(StoppingAgents(d), p) ==> p in live'
  }

  /** A stray's process that was running before the apply. */
  ghost predicate StrayProc(r: RuntimeState, live: set<Proc>, d: ConfigDiff, p: Proc) {
    && p in live
    && ((r.HasBackend(p) && Stray(r, d, p.backend.def.name)) || (r.HasBroker(p) && Stray(r, d, p.broker.agent)))
  }

  /** Of what runs, only such a process can have got out of reach. */
  ghost predicate KeepsTrack(s: ServiceState, live: set<Proc>, d: ConfigDiff, s': ServiceState, live': set<Proc>) {
    Sound(s, live) ==> forall p :: p in live' && !StrayProc(s.rt, live, d, p) ==>
      Tracked(s'.rt, Look(s'.entries), s'.leftoverEntries, p)
  }

  /** What holds at every await of an apply that has begun, whatever happened so far. */
  ghost predicate ApplyBegun(s: ServiceState, live: set<Proc>, serial: nat, d: ConfigDiff, c: GatewayConfig, b: Build,
                             s': ServiceState, live': set<Proc>)
  {
    && Valid(s')
    && s'.config == s.config && s'.suspects == s.suspects
    && GivenUp(s, d, c, s') && Undisturbed(d, c, live, live')
    && EntriesBetween(Look(s.entries), c, b, Look(s'.entries))
    && AgentsBetween(s.rt.agents, d.agents.removed, b, s'.rt.agents) && BrokersStay(s.rt, live, d, s'.rt, live')
    && s'.rt.unavailable <= s.rt.unavailable + b.backends.Keys
    && StraysRun(s, live, serial, d, live') && KeepsTrack(s, live, d, s', live')
    && (Sound(s, live) && NoStray(s.rt, live, d) ==> Sound(s', live'))
  }

  lemma StopIsBegun(s: ServiceState, live: set<Proc>, serial: nat, d: ConfigDiff, c: GatewayConfig, b: Build,
                    s': ServiceState, live': set<Proc>)
    requires b.connectors.Keys == RebuiltConnectors(d)
    requires StopBegun(s, live, d, c, s', live')
    ensures ApplyBegun(s, live, serial, d, c, b, s', live')
  {
  }

  /** The agents dict holds the candidate's definitions. */
  ghost predicate AgentsRebuilt(s: ServiceState, live: set<Proc>, serial: nat, d: ConfigDiff, c: GatewayConfig,
                                b: Build,
                                s': ServiceState, live': set<Proc>)
  {
    && ApplyBegun(s, live, serial, d, c, b, s', live')
    && AgentsReplaced(s.rt.agents, d.agents.removed, b, s'.rt.agents)
  }

  /** No rebuilt agent has a broker yet, unless it is a stray with its old one. */
  ghost predicate NoBrokerYet(s: ServiceState, live: set<Proc>, d: ConfigDiff, b: Build, r: RuntimeState,
                              live': set<Proc>) {
    Sound(s, live) ==> forall n :: n in r.brokers && n in b.backends ==> OldBroker(s, live, d, r, live', n)
  }

  ghost predicate OldBroker(s: ServiceState, live: set<Proc>, d: ConfigDiff, r: RuntimeState, live': set<Proc>,
                            n: string)
    requires n in r.brokers
  {
    && Stray(s.rt, d, n) && n in s.rt.brokers && r.brokers[n] == s.rt.brokers[n]
    && (BrokerProc(r.brokers[n]) in live' ==> BrokerProc(r.brokers[n]) in live)
  }

  lemma RebuildSound(s: ServiceState, live: set<Proc>, d: ConfigDiff, c: GatewayConfig, b: Build,
                     s1: ServiceState, live1: set<Proc>, s2: ServiceState)
    requires b.backends.Keys == RebuiltAgents(d)
    requires AgentsStopped(s, live, d, c, s1, live1)
    requires s2 == s1.(rt := s1.rt.(agents := s2.rt.agents, unavailable := s1.rt.unavailable - d.agents.removed))
    requires AgentsReplaced(s1.rt.agents, d.agents.removed, b, s2.rt.agents)
    requires Sound(s, live) && NoStray(s.rt, live, d)
    ensures Sound(s2, live1) && s2.rt.brokers.Keys !! b.backends.Keys
  {
    forall p | p in live1 ensures Tracked(s2.rt, Look(s2.entries), s2.leftoverEntries, p) {
      assert Tracked(s1.rt, Look(s1.entries), s1.leftoverEntries, p);
    }
  }

  lemma RebuildKeepsTrack(s: ServiceState, live: set<Proc>, d: ConfigDiff, c: GatewayConfig, b: Build,
                          s1: ServiceState, live1: set<Proc>, s2: ServiceState)
    requires b.backends.Keys == RebuiltAgents(d)
    requires AgentsStopped(s, live, d, c, s1, live1)
    requires s2 == s1.(rt := s1.rt.(agents := s2.rt.agents, unavailable := s1.rt.unavailable - d.agents.removed))
    requires AgentsReplaced(s1.rt.agents, d.agents.removed, b, s2.rt.agents)
    ensures KeepsTrack(s, live, d, s2, live1) && NoBrokerYet(s, live, d, b, s2.rt, live1)
  {
    if Sound(s, live) {
      forall p | p in live1 && !StrayProc(s.rt, live, d, p)
        ensures Tracked(s2.rt, Look(s2.entries), s2.leftoverEntries, p) {
        assert Tracked(s1.rt, Look(s1.entries), s1.leftoverEntries, p);
      }
    }
  }

  lemma RebuildAgents(s: ServiceState, live: set<Proc>, serial: nat, d: ConfigDiff, c: GatewayConfig, b: Build,
                      s1: ServiceState, live1: set<Proc>, s2: ServiceState)
    requires Fits(d, c) && Built(d, c, serial, b) && Loaded(c)
    requires StopDone(s, live, d, c, s1, live1)
    requires s2 == s1.(rt := s1.rt.(agents := s2.rt.agents, unavailable := s1.rt.unavailable - d.agents.removed))
    requires AgentsReplaced(s1.rt.agents, d.agents.removed, b, s2.rt.agents)
    ensures AgentsRebuilt(s, live, serial, d, c, b, s2, live1)
    ensures NoBrokerYet(s, live, d, b, s2.rt, live1)
  {
    RebuildKeepsTrack(s, live, d, c, b, s1, live1, s2);
    if Sound(s, live) && NoStray(s.rt, live, d) {
      RebuildSound(s, live, d, c, b, s1, live1, s2);
    }
  }

  /** One entry per candidate connector, in order: a new one where the name is rebuilt, else the
      one `look` holds. */
  ghost predicate FleetInOrder(c: GatewayConfig, b: Build, look: map<string, Entry>, es: seq<Entry>) {
    && |es| == |c.connectors|
    && (forall i :: 0 <= i < |es| ==> FillsSlot(c.connectors[i], b, look, es[i]))
  }

  ghost predicate FillsSlot(cc: ConnectorConfig, b: Build, look: map<string, Entry>, e: Entry) {
    && e.cfg.name == cc.name
    && (cc.name in b.connectors ==> e.id == b.connectors[cc.name] && e.cfg == cc && !e.quiesced)
    && (cc.name !in b.connectors ==> cc.name in look && SameInstance(look[cc.name], e))
  }

  /** Each candidate connector is rebuilt, or has an entry that can be kept. */
  ghost predicate Covered(c: GatewayConfig, b: Build, look: map<string, Entry>) {
    forall i :: 0 <= i < |c.connectors| ==> c.connectors[i].name in b.connectors || c.connectors[i].name in look
  }

  lemma CandidateFinds(c: GatewayConfig, i: nat)
    requires Loaded(c) && i < |c.connectors|
    ensures c.connectors[i].name in CandidateNames(c) && CandidateConnector(c, c.connectors[i].name) == c.connectors[i]
  {
    ByNameHas(c.connectors, ConnectorName, i);
    ByNameFinds(c.connectors, ConnectorName, i);
  }

  lemma FleetLook(c: GatewayConfig, b: Build, look: map<string, Entry>, es: seq<Entry>)
    requires Loaded(c) && FleetInOrder(c, b, look, es)
    ensures DistinctNames(es)
    ensures Look(es).Keys == CandidateNames(c)
    ensures forall n :: n in Look(es) && n in b.connectors ==>
      Look(es)[n].id == b.connectors[n] && Look(es)[n].cfg == CandidateConnector(c, n) && !Look(es)[n].quiesced
    ensures forall n :: n in Look(es) && n !in b.connectors ==> n in look && SameInstance(look[n], Look(es)[n])
  {
    BuiltNamesDistinct(c, es);
    forall n | n in CandidateNames(c) ensures n in Look(es) {
      var i := ByNameIndex(c.connectors, ConnectorName, n);
      LookFinds(es, i);
    }
    forall n | n in Look(es)
      ensures n in CandidateNames(c)
      ensures n in b.connectors ==>
        Look(es)[n].id == b.connectors[n] && Look(es)[n].cfg == CandidateConnector(c, n) && !Look(es)[n].quiesced
      ensures n !in b.connectors ==> n in look && SameInstance(look[n], Look(es)[n])
    {
      var i := LookIndex(es, n);
      CandidateFinds(c, i);
      assert FillsSlot(c.connectors[i], b, look, es[i]);
    }
  }

  /** The whole fleet stands, in the candidate's order. */
  ghost predicate FleetReady(s: ServiceState, live: set<Proc>, serial: nat, d: ConfigDiff, c: GatewayConfig, b: Build,
                             s': ServiceState, live': set<Proc>)
  {
    && AgentsRebuilt(s, live, serial, d, c, b, s', live')
    && FleetInOrder(c, b, Look(s.entries), s'.entries)
  }

  lemma FleetFromKept(look: map<string, Entry>, d: ConfigDiff, c: GatewayConfig, b: Build,
                      look1: map<string, Entry>, es: seq<Entry>)
    requires Loaded(c) && b.connectors.Keys == RebuiltConnectors(d)
    requires EntriesAfterStop(look, d, c, look1)
    requires FleetInOrder(c, b, look1, es)
    ensures EntriesBetween(look, c, b, Look(es)) && FleetInOrder(c, b, look, es)
  {
    FleetLook(c, b, look1, es);
    forall i | 0 <= i < |es| ensures FillsSlot(c.connectors[i], b, look, es[i]) {
      assert FillsSlot(c.connectors[i], b, look1, es[i]);
    }
  }

  lemma InstallFleet(s: ServiceState, live: set<Proc>, serial: nat, d: ConfigDiff, c: GatewayConfig, b: Build,
                     s1: ServiceState, live1: set<Proc>, s2: ServiceState)
    requires Loaded(c) && b.connectors.Keys == RebuiltConnectors(d)
    requires AgentsRebuilt(s, live, serial, d, c, b, s1, live1)
    requires EntriesAfterStop(Look(s.entries), d, c, Look(s1.entries))
    requires forall n :: n in Look(s1.entries) ==> n in CandidateNames(c) && n !in RebuiltConnectors(d)
    requires s2 == s1.(entries := s2.entries, managers := Index(s2.entries))
    requires FleetInOrder(c, b, Look(s1.entries), s2.entries)
    ensures FleetReady(s, live, serial, d, c, b, s2, live1)
  {
    FleetFromKept(Look(s.entries), d, c, b, Look(s1.entries), s2.entries);
    FleetLook(c, b, Look(s1.entries), s2.entries);
    if Sound(s, live) && NoStray(s.rt, live, d) {
      forall p | p in live1 ensures Tracked(s2.rt, Look(s2.entries), s2.leftoverEntries, p) {
        assert Tracked(s1.rt, Look(s1.entries), s1.leftoverEntries, p);
      }
    }
  }

  /** The same instances, whatever became of their rules and health. */
  lemma SameFleet(s: ServiceState, live: set<Proc>, serial: nat, d: ConfigDiff, c: GatewayConfig, b: Build,
                  s1: ServiceState, live1: set<Proc>, s2: ServiceState)
    requires FleetReady(s, live, serial, d, c, b, s1, live1)
    requires s2 == s1.(entries := s2.entries)
    requires SameInstances(s1.entries, s2.entries)
    requires forall i :: 0 <= i < |s2.entries| && s2.entries[i].quiesced ==> s1.entries[i].quiesced
    ensures FleetReady(s, live, serial, d, c, b, s2, live1)
  {
    LookSame(s1.entries, s2.entries);
    IndexSame(s1.entries, s2.entries);
    forall i | 0 <= i < |s2.entries| ensures FillsSlot(c.connectors[i], b, Look(s.entries), s2.entries[i]) {
      assert FillsSlot(c.connectors[i], b, Look(s.entries), s1.entries[i]);
      assert SameInstance(s1.entries[i], s2.entries[i]);
    }
    if Sound(s, live) && NoStray(s.rt, live, d) {
      forall p | p in live1 ensures Tracked(s2.rt, Look(s2.entries), s2.leftoverEntries, p) {
        assert Tracked(s1.rt, Look(s1.entries), s1.leftoverEntries, p);
      }
    }
  }

  /** Every entry holds the rules the candidate gives its connector. */
  ghost predicate RulesInstalled(c: GatewayConfig, es: seq<Entry>) {
    forall i :: 0 <= i < |es| ==> es[i].rules == RulesFor(c.watcherRules, es[i].cfg.name)
  }

  lemma StartSound(s1: ServiceState, live1: set<Proc>, serial1: nat, names: set<string>, failed: set<string>,
                   s2: ServiceState, live2: set<Proc>)
    requires s1.rt.Valid() && Sound(s1, live1) && s1.rt.brokers.Keys !! names
    requires s2 == s1.(rt := s2.rt)
    requires Started(s1.rt, live1, serial1, names, failed, s2.rt, live2)
    ensures Sound(s2, live2)
  {
    forall p | p in live2 ensures Tracked(s2.rt, Look(s2.entries), s2.leftoverEntries, p) {
      if p in live1 { assert Tracked(s1.rt, Look(s1.entries), s1.leftoverEntries, p); }
    }
  }

  /** A start pass displaces brokers of strays only. */
  lemma StartKeepsTrack(s: ServiceState, live: set<Proc>, d: ConfigDiff, b: Build, s1: ServiceState, live1: set<Proc>,
                        serial1: nat,
                        failed: set<string>, s2: ServiceState, live2: set<Proc>)
    requires s1.rt.Valid() && KeepsTrack(s, live, d, s1, live1) && NoBrokerYet(s, live, d, b, s1.rt, live1)
    requires s2 == s1.(rt := s2.rt)
    requires Started(s1.rt, live1, serial1, b.backends.Keys, failed, s2.rt, live2)
    ensures KeepsTrack(s, live, d, s2, live2)
  {
    if Sound(s, live) {
      forall p | p in live2 && !StrayProc(s.rt, live, d, p)
        ensures Tracked(s2.rt, Look(s2.entries), s2.leftoverEntries, p) {
        if p in live1 { assert Tracked(s1.rt, Look(s1.entries), s1.leftoverEntries, p); }
      }
    }
  }

  lemma AgentsStarted(s: ServiceState, live: set<Proc>, serial: nat, d: ConfigDiff, c: GatewayConfig, b: Build,
                      s1: ServiceState, live1: set<Proc>, serial1: nat, failed: set<string>, s2: ServiceState,
                        live2: set<Proc>)
    requires Fits(d, c) && Built(d, c, serial, b)
    requires ApplyBegun(s, live, serial, d, c, b, s1, live1) && NoBrokerYet(s, live, d, b, s1.rt, live1)
    requires AgentsReplaced(s.rt.agents, d.agents.removed, b, s1.rt.agents)
    requires s2 == s1.(rt := s2.rt)
    requires Started(s1.rt, live1, serial1, b.backends.Keys, failed, s2.rt, live2)
    ensures ApplyBegun(s, live, serial, d, c, b, s2, live2)
  {
    StartKeepsTrack(s, live, d, b, s1, live1, serial1, failed, s2, live2);
    if Sound(s, live) && NoStray(s.rt, live, d) {
      StartSound(s1, live1, serial1, b.backends.Keys, failed, s2, live2);
    }
  }

  lemma FleetStarted(s: ServiceState, live: set<Proc>, serial: nat, d: ConfigDiff, c: GatewayConfig, b: Build,
                     s1: ServiceState, live1: set<Proc>, serial1: nat, failed: set<string>, s2: ServiceState,
                       live2: set<Proc>)
    requires Fits(d, c) && Built(d, c, serial, b)
    requires FleetReady(s, live, serial, d, c, b, s1, live1) && NoBrokerYet(s, live, d, b, s1.rt, live1)
    requires s2 == s1.(rt := s2.rt)
    requires Started(s1.rt, live1, serial1, b.backends.Keys, failed, s2.rt, live2)
    ensures FleetReady(s, live, serial, d, c, b, s2, live2)
    ensures forall n :: n in b.backends && n !in s2.rt.unavailable ==> RebuiltUp(b, s2.rt, live2, n)
  {
    AgentsStarted(s, live, serial, d, c, b, s1, live1, serial1, failed, s2, live2);
  }

  /** Connectors of `names` stop, and connectors of the fleet start. */
  ghost predicate ConnectorsMove(look: map<string, Entry>, names: set<string>, live: set<Proc>, live': set<Proc>) {
    && (forall p :: p in live && p !in live' ==> p.ConnectorProc? && p.name in names)
    && (forall p :: p in live' && p !in live ==> InstanceIn(look, p))
  }

  /** Entries only turn degraded, and each that does is on the report. */
  ghost predicate HealthOnly(es: seq<Entry>, es': seq<Entry>) {
    && |es| == |es'|
    && (forall i :: 0 <= i < |es| ==>
      es'[i] == es[i].(degraded := es'[i].degraded) && (es[i].degraded ==> es'[i].degraded))
  }

  lemma FleetMoves(s: ServiceState, live: set<Proc>, serial: nat, d: ConfigDiff, c: GatewayConfig, b: Build,
                   s1: ServiceState, live1: set<Proc>, live2: set<Proc>)
    requires ApplyBegun(s, live, serial, d, c, b, s1, live1) && b.connectors.Keys == RebuiltConnectors(d)
    requires ConnectorsMove(Look(s1.entries), b.connectors.Keys, live1, live2)
    ensures ApplyBegun(s, live, serial, d, c, b, s1, live2)
  {
  }

  ghost predicate NoneQuiesced(es: seq<Entry>) {
    forall i :: 0 <= i < |es| ==> !es[i].quiesced
  }

  datatype Section = ConnectorSection | AgentSection
  datatype Degraded = Degraded(kind: Section, name: string)

  function LeftoverFinding(p: Proc): Degraded {
    match p
    case BackendProc(b) => Degraded(AgentSection, b.def.name)
    case BrokerProc(b) => Degraded(AgentSection, b.agent)
    case ConnectorProc(_, name) => Degraded(ConnectorSection, name)
  }

  /** Nothing goes wrong in silence, and nothing is reported that did not: there was no setback exactly
      if nothing raised and nothing was added to the report. */
  ghost predicate Smooth(setbacks: nat, reports: seq<Degraded>, raised: bool, setbacks': nat,
                         reports': seq<Degraded>)
  {
    BarSetbacks(setbacks, setbacks', !raised && reports' == reports)
  }

  /** The managers of `names` among these entries are down, or given up on and reported. */
  ghost predicate ShutSoFar(es: seq<Entry>, names: set<string>, lefts: seq<Proc>, live: set<Proc>,
                            reports: seq<Degraded>,
                            lefts': seq<Proc>, live': set<Proc>, reports': seq<Degraded>)
  {
    && lefts <= lefts' && reports <= reports' && live' <= live
    && (forall p :: p in lefts' && p !in lefts ==> p in Instances(es, names) && LeftoverFinding(p) in reports')
    && (forall p :: p in live && p !in live' ==> p in Instances(es, names))
    && (forall p :: p in Instances(es, names) && p in live' ==> p in lefts')
  }

  lemma ShutOneMore(es: seq<Entry>, e: Entry, names: set<string>, lefts: seq<Proc>, live: set<Proc>,
                    reports: seq<Degraded>,
                    lefts1: seq<Proc>, live1: set<Proc>, reports1: seq<Degraded>, stopped: bool)
    requires ShutSoFar(es, names, lefts, live, reports, lefts1, live1, reports1) && e.cfg.name in names
    ensures Instances(es + [e], names) == Instances(es, names) + {Instance(e)}
    ensures ShutSoFar(es + [e], names, lefts, live, reports,
                      if stopped then lefts1 else lefts1 + [Instance(e)],
                      if stopped then live1 - {Instance(e)} else live1,
                      if stopped then reports1 else reports1 + [LeftoverFinding(Instance(e))])
  {
    InstancesMore(es, e, names);
  }

  lemma InstancesMore(es: seq<Entry>, e: Entry, names: set<string>)
    ensures Instances(es + [e], names) == Instances(es, names) + if e.cfg.name in names then {Instance(e)} else {}
  {
    assert forall f :: f in es + [e] <==> f in es || f == e;
    assert e in es + [e];
  }

  lemma PassedOver(es: seq<Entry>, e: Entry, names: set<string>)
    requires e.cfg.name !in names
    ensures Instances(es + [e], names) == Instances(es, names)
  {
    InstancesMore(es, e, names);
  }

  /** Whatever joined the processes that would not stop is on the report. */
  ghost predicate LeftoversReported(s: ServiceState, s': ServiceState, reports: seq<Degraded>) {
    && (forall p :: p in s'.leftoverEntries && p !in s.leftoverEntries ==> LeftoverFinding(p) in reports)
    && (forall p :: p in s'.rt.leftovers && p !in s.rt.leftovers ==> LeftoverFinding(p) in reports)
  }

  /** The first `n` entries have been through one step of the start pass: those of `names` that
      passed are in `up`, running and no worse than before, the others are degraded and on the report. */
  ghost predicate Settled(es: seq<Entry>, es': seq<Entry>, live': set<Proc>, n: nat, names: set<string>,
                          up: set<string>,
                          reports: seq<Degraded>)
    requires n <= |es|
  {
    && HealthOnly(es, es')
    && up <= names
    && (forall i :: 0 <= i < n && es[i].cfg.name in names && es[i].cfg.name !in up ==> es'[i].degraded)
    && (forall i :: n <= i < |es| ==> es[i].cfg.name !in up && es'[i] == es[i])
    && (forall i :: 0 <= i < |es| && es'[i].degraded && !es[i].degraded ==>
          Degraded(ConnectorSection, es[i].cfg.name) in reports)
    && (forall i :: 0 <= i < |es| && es[i].cfg.name in up ==>
          Instance(es[i]) in live' && es'[i].degraded == es[i].degraded)
  }

  lemma SettlePasses(es: seq<Entry>, es': seq<Entry>, live: set<Proc>, n: nat, names: set<string>, up: set<string>,
                     reports: seq<Degraded>, live': set<Proc>)
    requires DistinctNames(es) && n < |es| && es[n].cfg.name in names
    requires Settled(es, es', live, n, names, up, reports)
    requires live' == live + {Instance(es[n])}
    ensures Settled(es, es', live', n + 1, names, up + {es[n].cfg.name}, reports)
  {
  }

  lemma SettleDegrades(es: seq<Entry>, es': seq<Entry>, live: set<Proc>, n: nat, names: set<string>, up: set<string>,
                       reports: seq<Degraded>, es'': seq<Entry>, live': set<Proc>)
    requires DistinctNames(es) && n < |es|
    requires Settled(es, es', live, n, names, up, reports)
    requires es'' == es'[n := es'[n].(degraded := true)]
    requires live' == live || live' == live - {Instance(es[n])}
    ensures Settled(es, es'', live', n + 1, names, up, reports + [Degraded(ConnectorSection, es[n].cfg.name)])
  {
    assert es'[n] == es[n].(degraded := es'[n].degraded);
  }

  lemma SettleKeeps(es: seq<Entry>, es': seq<Entry>, live: set<Proc>, n: nat, names: set<string>, up: set<string>,
                    reports: seq<Degraded>)
    requires DistinctNames(es) && n < |es| && es[n].cfg.name in names
    requires Settled(es, es', live, n, names, up, reports)
    requires Instance(es[n]) in live
    ensures Settled(es, es', live, n + 1, names, up + {es[n].cfg.name}, reports)
  {
  }

  lemma SettledReports(es: seq<Entry>, es': seq<Entry>, live: set<Proc>, n: nat, names: set<string>, up: set<string>,
                       reports: seq<Degraded>, reports': seq<Degraded>)
    requires n <= |es| && Settled(es, es', live, n, names, up, reports) && reports <= reports'
    ensures Settled(es, es', live, n, names, up, reports')
  {
  }

  lemma SettledTwice(es: seq<Entry>, es1: seq<Entry>, live1: set<Proc>, names: set<string>, up1: set<string>,
                     reports1: seq<Degraded>,
                     es2: seq<Entry>, live2: set<Proc>, up2: set<string>, reports2: seq<Degraded>)
    requires Settled(es, es1, live1, |es|, names, up1, reports1)
    requires Settled(es1, es2, live2, |es1|, up1, up2, reports2)
    requires reports1 <= reports2
    ensures Settled(es, es2, live2, |es|, names, up2, reports2)
  {
    forall i | 0 <= i < |es|
      ensures es2[i] == es[i].(degraded := es2[i].degraded) && (es[i].degraded ==> es2[i].degraded) {
      assert es1[i] == es[i].(degraded := es1[i].degraded);
      assert es2[i] == es1[i].(degraded := es2[i].degraded);
    }
  }

  /** Each of `names` that has an entry is running. */
  ghost predicate Running(es: seq<Entry>, names: set<string>, live: set<Proc>) {
    forall i :: 0 <= i < |es| && es[i].cfg.name in names ==> Instance(es[i]) in live
  }

  lemma ConnectorsMoveTwice(es: seq<Entry>, es1: seq<Entry>, names: set<string>, names1: set<string>,
                            live: set<Proc>, live1: set<Proc>, live2: set<Proc>)
    requires DistinctNames(es) && SameInstances(es, es1) && names1 <= names
    requires ConnectorsMove(Look(es), names, live, live1) && ConnectorsMove(Look(es1), names1, live1, live2)
    ensures ConnectorsMove(Look(es), names, live, live2)
  {
    LookSame(es, es1);
  }

  /** Entries that turned degraded are on the report. */
  ghost predicate NewlyReported(es: seq<Entry>, es': seq<Entry>, reports: seq<Degraded>)
    requires |es| == |es'|
  {
    forall i :: 0 <= i < |es| && es'[i].degraded && !es[i].degraded ==>
      Degraded(ConnectorSection, es[i].cfg.name) in reports
  }

  lemma DegradesOne(es: seq<Entry>, es': seq<Entry>, i: nat, reports: seq<Degraded>)
    requires i < |es| && HealthOnly(es, es') && NewlyReported(es, es', reports)
    ensures HealthOnly(es, es'[i := es'[i].(degraded := true)])
    ensures NewlyReported(es, es'[i := es'[i].(degraded := true)],
      reports + [Degraded(ConnectorSection, es[i].cfg.name)])
  {
    assert es'[i] == es[i].(degraded := es'[i].degraded);
  }

  /** Each degraded entry of the new fleet is on the report, or was kept degraded. */
  ghost predicate HealthReported(look: map<string, Entry>, b: Build, es: seq<Entry>, reports: seq<Degraded>) {
    forall i :: 0 <= i < |es| && es[i].degraded ==>
      || Degraded(ConnectorSection, es[i].cfg.name) in reports
      || (es[i].cfg.name !in b.connectors && es[i].cfg.name in look && look[es[i].cfg.name].degraded)
  }

  lemma StillReported(look: map<string, Entry>, b: Build, es: seq<Entry>, reports: seq<Degraded>,
                      es': seq<Entry>, reports': seq<Degraded>)
    requires HealthReported(look, b, es, reports)
    requires HealthOnly(es, es') && NewlyReported(es, es', reports') && reports <= reports'
    ensures HealthReported(look, b, es', reports')
  {
    forall i | 0 <= i < |es| ensures es'[i].cfg == es[i].cfg {
      assert es'[i] == es[i].(degraded := es'[i].degraded);
    }
  }

  lemma HealthKeepsRules(c: GatewayConfig, es: seq<Entry>, es': seq<Entry>)
    requires HealthOnly(es, es')
    ensures SameInstances(es, es')
    ensures RulesInstalled(c, es) ==> RulesInstalled(c, es')
    ensures NoneQuiesced(es) ==> NoneQuiesced(es')
    ensures forall i :: 0 <= i < |es| ==> es'[i].quiesced == es[i].quiesced
  {
    forall i | 0 <= i < |es|
      ensures SameInstance(es[i], es'[i]) && es'[i].rules == es[i].rules && es'[i].quiesced == es[i].quiesced {
      assert es'[i] == es[i].(degraded := es'[i].degraded);
    }
  }

  /** The new fleet stands, holds its rules and takes work, and nothing in it is silently down. */
  ghost predicate FleetServing(s: ServiceState, live: set<Proc>, serial: nat, d: ConfigDiff, c: GatewayConfig, b: Build,
                               s': ServiceState, live': set<Proc>, reports: seq<Degraded>)
  {
    && FleetReady(s, live, serial, d, c, b, s', live')
    && RulesInstalled(c, s'.entries) && NoneQuiesced(s'.entries)
    && HealthReported(Look(s.entries), b, s'.entries, reports)
  }

  lemma HealthChanges(s: ServiceState, live: set<Proc>, serial: nat, d: ConfigDiff, c: GatewayConfig, b: Build,
                      s1: ServiceState, live1: set<Proc>, reports1: seq<Degraded>,
                      s2: ServiceState, live2: set<Proc>, reports2: seq<Degraded>)
    requires FleetServing(s, live, serial, d, c, b, s1, live1, reports1)
    requires s2 == s1.(entries := s2.entries) && HealthOnly(s1.entries, s2.entries)
    requires ConnectorsMove(Look(s1.entries), b.connectors.Keys, live1, live2) &&
      b.connectors.Keys == RebuiltConnectors(d)
    requires NewlyReported(s1.entries, s2.entries, reports2) && reports1 <= reports2
    ensures FleetServing(s, live, serial, d, c, b, s2, live2, reports2)
  {
    HealthKeepsRules(c, s1.entries, s2.entries);
    SameFleet(s, live, serial, d, c, b, s1, live1, s2);
    LookSame(s1.entries, s2.entries);
    FleetMoves(s, live, serial, d, c, b, s2, live1, live2);
    StillReported(Look(s.entries), b, s1.entries, reports1, s2.entries, reports2);
  }

  ghost predicate ReconciledSoFar(es: seq<Entry>, es': seq<Entry>, n: nat, before: multiset<Errand>,
                                  after: multiset<Errand>)
    requires |es| == |es'|
  {
    forall i :: 0 <= i < |es| && Unreconciled(before, after, es[i].cfg.name) ==> i < n && es'[i].degraded
  }

  ghost predicate SentSoFar(es: seq<Entry>, n: nat, names: set<string>, work: Work, before: multiset<Errand>,
                            after: multiset<Errand>)
    requires n <= |es|
  {
    before <= after && forall i :: 0 <= i < n && es[i].cfg.name in names ==>
      SentOne(before, after, work, es[i].cfg.name)
  }

  lemma AllOfThemSent(es: seq<Entry>, names: set<string>, work: Work, before: multiset<Errand>, after: multiset<Errand>)
    requires SentSoFar(es, |es|, names, work, before, after)
    ensures Sent(before, after, work, names * Look(es).Keys)
  {
    forall n | n in names * Look(es).Keys ensures SentOne(before, after, work, n) {
      var i := LookIndex(es, n);
    }
  }

  lemma OneReconciled(es: seq<Entry>, es1: seq<Entry>, i: nat, errands: multiset<Errand>, errands1: multiset<Errand>,
                      reports1: seq<Degraded>, failed: bool, es2: seq<Entry>, errands2: multiset<Errand>,
                      reports2: seq<Degraded>)
    requires DistinctNames(es) && i < |es| && HealthOnly(es, es1) && NewlyReported(es, es1, reports1)
    requires ReconciledSoFar(es, es1, i, errands, errands1)
    requires es2 == es1[i := es1[i].(degraded := failed || es1[i].degraded)]
    requires errands2 == errands1 + multiset{Errand(ApplyRules, es1[i].cfg.name, failed)}
    requires reports1 <= reports2 && (failed ==> Degraded(ConnectorSection, es1[i].cfg.name) in reports2)
    ensures HealthOnly(es, es2) && NewlyReported(es, es2, reports2)
    ensures ReconciledSoFar(es, es2, i + 1, errands, errands2)
  {
    assert es1[i] == es[i].(degraded := es1[i].degraded);
    forall j | 0 <= j < |es| && Unreconciled(errands, errands2, es[j].cfg.name) ensures j <= i && es2[j].degraded {
      if j != i {
        assert es[j].cfg.name != es[i].cfg.name;
        assert Unreconciled(errands, errands1, es[j].cfg.name);
      }
    }
  }

  /** Each rebuilt connector runs or is degraded; each rebuilt agent runs or is on the report. */
  ghost predicate AllStarted(b: Build, s': ServiceState, live': set<Proc>, reports: seq<Degraded>) {
    && (forall i :: 0 <= i < |s'.entries| && s'.entries[i].cfg.name in b.connectors ==>
          s'.entries[i].degraded || Instance(s'.entries[i]) in live')
    && AgentsUp(b, s'.rt, live', reports)
  }

  ghost predicate AgentsUp(b: Build, r: RuntimeState, live: set<Proc>, reports: seq<Degraded>) {
    forall n :: n in b.backends ==>
      if n in r.unavailable then Degraded(AgentSection, n) in reports else RebuiltUp(b, r, live, n)
  }

  ghost predicate RebuiltUp(b: Build, r: RuntimeState, live: set<Proc>, n: string)
    requires n in b.backends
  {
    AgentUp(r, live, n) && r.agents[n] == b.backends[n]
  }

  /** As assembled, an entry is new and healthy with the candidate's rules, or is what was kept. */
  ghost predicate NewOrKept(look: map<string, Entry>, c: GatewayConfig, b: Build, kept: set<string>, e: Entry) {
    if e.cfg.name in b.connectors then
      e.rules == RulesFor(c.watcherRules, e.cfg.name) && !e.degraded && !e.quiesced
    else
      e.cfg.name in kept && e.cfg.name in look && e.degraded == look[e.cfg.name].degraded
  }

  /** The fleet with its rules in place, nothing started yet. */
  ghost predicate Candidate(s: ServiceState, live: set<Proc>, serial: nat, d: ConfigDiff, c: GatewayConfig, b: Build,
                            kept: set<string>, s': ServiceState, live': set<Proc>)
  {
    && FleetReady(s, live, serial, d, c, b, s', live')
    && RulesInstalled(c, s'.entries)
    && (forall i :: 0 <= i < |s'.entries| ==> NewOrKept(Look(s.entries), c, b, kept, s'.entries[i]))
  }

  ghost predicate RulesOnly(es: seq<Entry>, es': seq<Entry>) {
    && |es| == |es'|
    && (forall i :: 0 <= i < |es| ==> es'[i] == es[i].(rules := es'[i].rules))
  }

  lemma RulesReplaced(s: ServiceState, live: set<Proc>, serial: nat, d: ConfigDiff, c: GatewayConfig, b: Build,
                      kept: set<string>, s1: ServiceState, live1: set<Proc>, s2: ServiceState)
    requires FleetReady(s, live, serial, d, c, b, s1, live1)
    requires forall i :: 0 <= i < |s1.entries| ==> NewOrKept(Look(s.entries), c, b, kept, s1.entries[i])
    requires s2 == s1.(entries := s2.entries) && RulesOnly(s1.entries, s2.entries)
    ensures FleetReady(s, live, serial, d, c, b, s2, live1)
    ensures Look(s2.entries).Keys == Look(s1.entries).Keys
    ensures DegradedKnown(Look(s.entries), s1.entries, []) ==> DegradedKnown(Look(s.entries), s2.entries, [])
    ensures RulesInstalled(c, s2.entries) ==> Candidate(s, live, serial, d, c, b, kept, s2, live1)
  {
    assert SameInstances(s1.entries, s2.entries);
    SameFleet(s, live, serial, d, c, b, s1, live1, s2);
    LookSame(s1.entries, s2.entries);
    if RulesInstalled(c, s2.entries) {
      forall i | 0 <= i < |s2.entries| ensures NewOrKept(Look(s.entries), c, b, kept, s2.entries[i]) {
        assert NewOrKept(Look(s.entries), c, b, kept, s1.entries[i]);
        assert s2.entries[i] == s1.entries[i].(rules := s2.entries[i].rules);
      }
    }
  }

  /** Any entry that was not degraded before the apply and is now, is on the report. */
  ghost predicate DegradedKnown(look: map<string, Entry>, es: seq<Entry>, reports: seq<Degraded>) {
    forall i :: 0 <= i < |es| && es[i].degraded ==>
      (es[i].cfg.name in look && look[es[i].cfg.name].degraded) || Degraded(ConnectorSection, es[i].cfg.name) in reports
  }

  lemma KnownAfterStop(look: map<string, Entry>, d: ConfigDiff, c: GatewayConfig, es: seq<Entry>)
    requires DistinctNames(es) && EntriesAfterStop(look, d, c, Look(es))
    ensures DegradedKnown(look, es, [])
  {
    forall i | 0 <= i < |es| && es[i].degraded ensures es[i].cfg.name in look && look[es[i].cfg.name].degraded {
      LookFinds(es, i);
    }
  }

  lemma ReportedTwice(es: seq<Entry>, es1: seq<Entry>, reports1: seq<Degraded>, es2: seq<Entry>,
                      reports2: seq<Degraded>)
    requires HealthOnly(es, es1) && HealthOnly(es1, es2) && reports1 <= reports2
    requires NewlyReported(es, es1, reports1) && NewlyReported(es1, es2, reports2)
    ensures HealthOnly(es, es2) && NewlyReported(es, es2, reports2)
  {
    forall i | 0 <= i < |es|
      ensures es2[i] == es[i].(degraded := es2[i].degraded) && (es[i].degraded ==> es2[i].degraded)
      ensures es1[i].cfg == es[i].cfg
    {
      assert es1[i] == es[i].(degraded := es1[i].degraded);
      assert es2[i] == es1[i].(degraded := es2[i].degraded);
    }
  }

  lemma Rearmed(s: ServiceState, live: set<Proc>, serial: nat, d: ConfigDiff, c: GatewayConfig, b: Build,
                kept: set<string>, s1: ServiceState, live1: set<Proc>, s2: ServiceState, reports: seq<Degraded>)
    requires FleetReady(s, live, serial, d, c, b, s1, live1) && RulesInstalled(c, s1.entries)
    requires forall i :: 0 <= i < |s1.entries| ==> NewOrKept(Look(s.entries), c, b, kept, s1.entries[i])
    requires s2 == s1.(entries := s2.entries) && QuiescedOnly(s1.entries, s2.entries)
    requires forall i :: 0 <= i < |s1.entries| && !s1.entries[i].quiesced ==> !s2.entries[i].quiesced
    ensures FleetReady(s, live, serial, d, c, b, s2, live1)
    ensures Look(s2.entries).Keys == Look(s1.entries).Keys
    ensures AllHealthy(s2.entries, b.connectors.Keys)
    ensures DegradedKnown(Look(s.entries), s2.entries, reports)
    ensures (forall i :: 0 <= i < |s2.entries| && s2.entries[i].cfg.name in kept ==> !s2.entries[i].quiesced) ==>
      FleetServing(s, live, serial, d, c, b, s2, live1, reports)
  {
    assert SameInstances(s1.entries, s2.entries);
    SameFleet(s, live, serial, d, c, b, s1, live1, s2);
    LookSame(s1.entries, s2.entries);
    forall i | 0 <= i < |s2.entries| ensures NewOrKept(Look(s.entries), c, b, kept, s1.entries[i])
      && s2.entries[i] == s1.entries[i].(quiesced := s2.entries[i].quiesced) {
    }
  }

  ghost predicate AllHealthy(es: seq<Entry>, names: set<string>) {
    forall i :: 0 <= i < |es| && es[i].cfg.name in names ==> !es[i].degraded
  }

  lemma EverythingStarted(b: Build, s1: ServiceState, live1: set<Proc>, reports1: seq<Degraded>, started: set<string>,
                          s2: ServiceState, live2: set<Proc>, reports2: seq<Degraded>)
    requires AgentsUp(b, s1.rt, live1, reports1)
    requires s2.rt == s1.rt && reports1 <= reports2
    requires ConnectorsMove(Look(s1.entries), b.connectors.Keys, live1, live2)
    requires Settled(s1.entries, s2.entries, live2, |s1.entries|, b.connectors.Keys, started, reports2)
    requires AllHealthy(s1.entries, b.connectors.Keys)
    ensures AllStarted(b, s2, live2, reports2)
    ensures Running(s2.entries, started, live2) && AllHealthy(s2.entries, started)
  {
    forall i | 0 <= i < |s2.entries|
      ensures Instance(s2.entries[i]) == Instance(s1.entries[i]) && s2.entries[i].cfg.name == s1.entries[i].cfg.name
    {
      assert s2.entries[i] == s1.entries[i].(degraded := s2.entries[i].degraded);
    }
  }

  lemma MoreReports(s: ServiceState, live: set<Proc>, serial: nat, d: ConfigDiff, c: GatewayConfig, b: Build,
                    s1: ServiceState, live1: set<Proc>, reports1: seq<Degraded>, reports2: seq<Degraded>)
    requires FleetServing(s, live, serial, d, c, b, s1, live1, reports1) && AllStarted(b, s1, live1, reports1)
    requires reports1 <= reports2
    ensures FleetServing(s, live, serial, d, c, b, s1, live1, reports2) && AllStarted(b, s1, live1, reports2)
  {
    StillReported(Look(s.entries), b, s1.entries, reports1, s1.entries, reports2);
  }

  /** How one slot was filled: built anew, or taken from `byName` as it was. */
  ghost predicate TakenOrBuilt(c: GatewayConfig, b: Build, byName: map<string, Entry>, e: Entry) {
    if e.cfg.name in b.connectors then
      e.rules == RulesFor(c.watcherRules, e.cfg.name) && !e.degraded && !e.quiesced
    else
      e.cfg.name in byName && e == byName[e.cfg.name]
  }

  lemma NewFleet(s: ServiceState, live: set<Proc>, serial: nat, d: ConfigDiff, c: GatewayConfig, b: Build,
                 s1: ServiceState, live1: set<Proc>, s2: ServiceState)
    requires Loaded(c) && b.connectors.Keys == RebuiltConnectors(d)
    requires AgentsRebuilt(s, live, serial, d, c, b, s1, live1)
    requires EntriesAfterStop(Look(s.entries), d, c, Look(s1.entries))
    requires forall n :: n in Look(s1.entries) ==> n in CandidateNames(c) && n !in RebuiltConnectors(d)
    requires s2 == s1.(entries := s2.entries, managers := Index(s2.entries))
    requires FleetInOrder(c, b, Look(s1.entries), s2.entries)
    requires forall i :: 0 <= i < |s2.entries| ==> TakenOrBuilt(c, b, Look(s1.entries), s2.entries[i])
    ensures FleetReady(s, live, serial, d, c, b, s2, live1)
    ensures Look(s1.entries).Keys <= Look(s2.entries).Keys
    ensures DegradedKnown(Look(s.entries), s2.entries, [])
    ensures forall i :: 0 <= i < |s2.entries| ==> NewOrKept(Look(s.entries), c, b, Look(s1.entries).Keys, s2.entries[i])
  {
    InstallFleet(s, live, serial, d, c, b, s1, live1, s2);
    FleetLook(c, b, Look(s1.entries), s2.entries);
    forall i | 0 <= i < |s2.entries| ensures NewOrKept(Look(s.entries), c, b, Look(s1.entries).Keys, s2.entries[i]) {
      assert TakenOrBuilt(c, b, Look(s1.entries), s2.entries[i]);
    }
  }

  /** These names stand for the objects the apply built, which are healthy and take work. */
  ghost predicate NewlyBuilt(b: Build, look: map<string, Entry>, names: set<string>) {
    forall n :: n in names ==>
      n in b.connectors && n in look && look[n].id == b.connectors[n] && !look[n].quiesced && !look[n].degraded
  }

  /** What an apply knows wherever it stands: `kept` and `started` have entries, what started runs,
      and every entry that is degraded was so before or is on the report. A raise after something
      started has some kept connector to answer for. */
  ghost predicate Underway(s: ServiceState, live: set<Proc>, serial: nat, d: ConfigDiff, c: GatewayConfig, b: Build,
                           kept: set<string>, started: set<string>, raised: bool,
                           s': ServiceState, live': set<Proc>, reports: seq<Degraded>)
  {
    && ApplyBegun(s, live, serial, d, c, b, s', live')
    && kept <= Look(s'.entries).Keys && started <= Look(s'.entries).Keys
    && Running(s'.entries, started, live') && NewlyBuilt(b, Look(s'.entries), started)
    && RefuseOnly(Look(s.entries), d, c, kept, Look(s'.entries))
    && DegradedKnown(Look(s.entries), s'.entries, reports)
    && (raised && started != {} ==>
      kept != {} && kept <= CandidateNames(c) && kept !! b.connectors.Keys && started <= b.connectors.Keys)
  }

  ghost predicate Finished(s: ServiceState, live: set<Proc>, serial: nat, d: ConfigDiff, c: GatewayConfig, b: Build,
                           s': ServiceState, live': set<Proc>, reports: seq<Degraded>)
  {
    && FleetServing(s, live, serial, d, c, b, s', live', reports)
    && AllStarted(b, s', live', reports)
    && AgentsReplaced(s.rt.agents, d.agents.removed, b, s'.rt.agents)
  }

  // ---- After an apply that raised ----

  /** Every installed entry keeps its place in the tracking, and every candidate connector without
      one gets a placeholder: its new object if one was built, else one built for it now. */
  ghost predicate Placed(look: map<string, Entry>, c: GatewayConfig, b: Build, es: seq<Entry>) {
    && DistinctNames(es)
    && Look(es).Keys == look.Keys + CandidateNames(c)
    && (forall n :: n in look ==> Look(es)[n] == look[n])
    && (forall n :: n in CandidateNames(c) && n !in look ==>
          Look(es)[n].cfg == CandidateConnector(c, n) && !Look(es)[n].degraded && !Look(es)[n].quiesced
          && (n in b.connectors ==> Look(es)[n].id == b.connectors[n]))
  }

  ghost predicate Placeholder(cc: ConnectorConfig, b: Build, look: map<string, Entry>, e: Entry) {
    && e.cfg.name == cc.name
    && (cc.name in look ==> e == look[cc.name])
    && (cc.name !in look ==>
      e.cfg == cc && !e.degraded && !e.quiesced && (cc.name in b.connectors ==> e.id == b.connectors[cc.name]))
  }

  lemma PlacedLook(c: GatewayConfig, b: Build, es: seq<Entry>, head: seq<Entry>)
    requires Loaded(c) && DistinctNames(es)
    requires |head| == |c.connectors|
    requires forall i :: 0 <= i < |head| ==> Placeholder(c.connectors[i], b, Look(es), head[i])
    ensures Placed(Look(es), c, b, head + Without(es, CandidateNames(c)))
  {
    var rest := Without(es, CandidateNames(c));
    LookWithout(es, CandidateNames(c));
    PlacedDistinct(c, es, head);
    LookAppend(head, rest);
    PlacedHead(c, b, Look(es), head);
    PlacedUnion(Look(es), c, b, Look(head), Look(rest), head + rest);
  }

  lemma PlacedUnion(look: map<string, Entry>, c: GatewayConfig, b: Build, first: map<string, Entry>,
                    second: map<string, Entry>, es: seq<Entry>)
    requires DistinctNames(es)
    requires first.Keys == CandidateNames(c) && second.Keys == look.Keys - CandidateNames(c)
    requires Look(es).Keys == first.Keys + second.Keys
    requires forall n :: n in first ==>
      Look(es)[n] == first[n] && Placeholder(CandidateConnector(c, n), b, look, first[n])
    requires forall n :: n in second ==> Look(es)[n] == second[n] == look[n]
    requires forall n :: n in CandidateNames(c) ==> CandidateConnector(c, n).name == n
    ensures Placed(look, c, b, es)
  {
  }

  lemma PlacedHead(c: GatewayConfig, b: Build, look: map<string, Entry>, head: seq<Entry>)
    requires Loaded(c) && |head| == |c.connectors|
    requires forall i :: 0 <= i < |head| ==> Placeholder(c.connectors[i], b, look, head[i])
    ensures Look(head).Keys == CandidateNames(c)
    ensures forall n :: n in CandidateNames(c) ==> CandidateConnector(c, n).name == n
    ensures forall n :: n in Look(head) ==> Placeholder(CandidateConnector(c, n), b, look, Look(head)[n])
  {
    BuiltNamesDistinct(c, head);
    forall n | n in CandidateNames(c) ensures n in Look(head) && CandidateConnector(c, n).name == n {
      var i := ByNameIndex(c.connectors, ConnectorName, n);
      LookFinds(head, i);
    }
    forall n | n in Look(head)
      ensures n in CandidateNames(c) && Placeholder(CandidateConnector(c, n), b, look, Look(head)[n]) {
      var i := LookIndex(head, n);
      CandidateFinds(c, i);
    }
  }

  lemma LookAppend(head: seq<Entry>, rest: seq<Entry>)
    requires DistinctNames(head + rest)
    ensures DistinctNames(head) && DistinctNames(rest)
    ensures Look(head + rest).Keys == Look(head).Keys + Look(rest).Keys
    ensures forall n :: n in Look(head) ==> Look(head + rest)[n] == Look(head)[n]
    ensures forall n :: n in Look(rest) ==> Look(head + rest)[n] == Look(rest)[n]
  {
    var all := head + rest;
    assert forall i :: 0 <= i < |head| ==> all[i] == head[i];
    assert forall j :: 0 <= j < |rest| ==> all[|head| + j] == rest[j];
    forall n | n in Look(head) ensures n in Look(all) && Look(all)[n] == Look(head)[n] {
      var i := LookIndex(head, n);
      LookFinds(all, i);
    }
    forall n | n in Look(rest) ensures n in Look(all) && Look(all)[n] == Look(rest)[n] {
      var j := LookIndex(rest, n);
      LookFinds(all, |head| + j);
    }
    forall n | n in Look(all) ensures n in Look(head) || n in Look(rest) {
      var i := LookIndex(all, n);
      if i < |head| { LookFinds(head, i); } else { LookFinds(rest, i - |head|); }
    }
  }

  lemma PlacedDistinct(c: GatewayConfig, es: seq<Entry>, head: seq<Entry>)
    requires Loaded(c) && DistinctNames(es)
    requires |head| == |c.connectors|
    requires forall i :: 0 <= i < |head| ==> head[i].cfg.name == c.connectors[i].name
    ensures DistinctNames(head + Without(es, CandidateNames(c)))
  {
    var rest := Without(es, CandidateNames(c));
    LookWithout(es, CandidateNames(c));
    BuiltNamesDistinct(c, head);
    forall i, j | 0 <= i < |head| && 0 <= j < |rest| ensures head[i].cfg.name != rest[j].cfg.name {
      CandidateFinds(c, i);
      LookFinds(rest, j);
    }
  }

  /** Each entry is the one that was there, or stands for a candidate connector: its new object if
      one was built, else a placeholder where nothing was. */
  ghost predicate EntriesSettled(look: map<string, Entry>, c: GatewayConfig, b: Build, look': map<string, Entry>) {
    forall n :: n in look' ==>
      || (n in look && SameInstance(look[n], look'[n]))
      || (n in CandidateNames(c) && look'[n].cfg == CandidateConnector(c, n)
          && (if n in b.connectors then look'[n].id == b.connectors[n] else n !in look))
  }

  /** What an apply that raised leaves once it has settled: the previous configuration is still the
      active one, every candidate connector has an entry, every entry is degraded or known to have
      started, and whatever it kept runs on and takes work unless it is one of the `stuck`. */
  ghost predicate FailedApply(s: ServiceState, live: set<Proc>, serial: nat, d: ConfigDiff, c: GatewayConfig, b: Build,
                              started: set<string>, stuck: set<string>, s': ServiceState, live': set<Proc>)
  {
    && Valid(s')
    && s'.config == s.config && s'.suspects == s.suspects + b.backends.Keys && s'.schedulerRunning
    && GivenUp(s, d, c, s') && NewlyBuilt(b, Look(s'.entries), started)
    && CandidateNames(c) <= Look(s'.entries).Keys
    && EntriesSettled(Look(s.entries), c, b, Look(s'.entries))
    && KeptRuns(Look(s.entries), d, c, live, Look(s'.entries), live')
    && RefuseOnly(Look(s.entries), d, c, stuck, Look(s'.entries))
    && (forall n :: n in Look(s'.entries) ==>
          Look(s'.entries)[n].degraded || (n in started && Instance(Look(s'.entries)[n]) in live'))
    && AgentsBetween(s.rt.agents, d.agents.removed, b, s'.rt.agents) && BrokersStay(s.rt, live, d, s'.rt, live')
    && s'.rt.unavailable <= s.rt.unavailable + b.backends.Keys
    && StraysRun(s, live, serial, d, live') && KeepsTrack(s, live, d, s', live')
    && (Sound(s, live) && NoStray(s.rt, live, d) ==> Sound(s', live'))
  }

  lemma PlacedHealth(look: map<string, Entry>, c: GatewayConfig, b: Build, placed: seq<Entry>, es: seq<Entry>,
                     started: set<string>)
    requires Placed(look, c, b, placed) && SameInstances(placed, es)
    requires forall i :: 0 <= i < |es| ==> es[i].degraded || placed[i].cfg.name in started
    ensures DistinctNames(es) && Look(es).Keys == look.Keys + CandidateNames(c)
    ensures forall n :: n in look ==> SameInstance(look[n], Look(es)[n])
    ensures forall n :: n in Look(es) && n !in look ==>
      Look(es)[n].cfg == CandidateConnector(c, n) && (n in b.connectors ==> Look(es)[n].id == b.connectors[n])
    ensures forall n :: n in Look(es) ==> Look(es)[n].degraded || n in started
  {
    LookSame(placed, es);
    forall n | n in Look(es) ensures Look(es)[n].degraded || n in started {
      var i := LookIndex(es, n);
      assert SameInstance(placed[i], es[i]);
    }
  }

  /** After a stop pass that ran to its end, what stays is what was kept. */
  lemma KeptCovers(look: map<string, Entry>, d: ConfigDiff, c: GatewayConfig, b: Build, look1: map<string, Entry>,
                   look': map<string, Entry>)
    requires b.connectors.Keys == RebuiltConnectors(d)
    requires EntriesAfterStop(look, d, c, look1) && EntriesBetween(look, c, b, look')
    ensures RefuseOnly(look, d, c, look1.Keys, look')
  {
  }

  lemma RaisedUnderway(s: ServiceState, live: set<Proc>, serial: nat, d: ConfigDiff, c: GatewayConfig, b: Build,
                       s1: ServiceState, live1: set<Proc>, s': ServiceState, live': set<Proc>, reports: seq<Degraded>)
    requires StopDone(s, live, d, c, s1, live1)
    requires Fits(d, c) && Built(d, c, serial, b) && AgentsRebuilt(s, live, serial, d, c, b, s', live')
    requires Look(s1.entries).Keys <= Look(s'.entries).Keys && DegradedKnown(Look(s.entries), s'.entries, [])
    ensures Underway(s, live, serial, d, c, b, Look(s1.entries).Keys, {}, true, s', live', reports)
  {
    KeptCovers(Look(s.entries), d, c, b, Look(s1.entries), Look(s'.entries));
  }

  lemma FleetUnderway(s: ServiceState, live: set<Proc>, serial: nat, d: ConfigDiff, c: GatewayConfig, b: Build,
                      s1: ServiceState, live1: set<Proc>, started: set<string>, raised: bool,
                      s': ServiceState, live': set<Proc>, reports: seq<Degraded>)
    requires Loaded(c) && Fits(d, c) && Built(d, c, serial, b)
    requires StopDone(s, live, d, c, s1, live1) && FleetReady(s, live, serial, d, c, b, s', live')
    requires started <= b.connectors.Keys && Running(s'.entries, started, live') && AllHealthy(s'.entries, started)
    requires DegradedKnown(Look(s.entries), s'.entries, reports)
    requires raised && started != {} ==> Look(s1.entries).Keys != {}
    ensures Underway(s, live, serial, d, c, b, Look(s1.entries).Keys, started, raised, s', live', reports)
  {
    FleetLook(c, b, Look(s.entries), s'.entries);
    forall n | n in started ensures n in Look(s'.entries) && !Look(s'.entries)[n].degraded {
      var i := LookIndex(s'.entries, n);
    }
    KeptCovers(Look(s.entries), d, c, b, Look(s1.entries), Look(s'.entries));
  }

  lemma PlacedQuiet(look: map<string, Entry>, c: GatewayConfig, b: Build, placed: seq<Entry>, fleet: seq<Entry>,
                    es: seq<Entry>)
    requires Placed(look, c, b, placed) && HealthOnly(placed, fleet) && QuiescedOnly(fleet, es)
    requires forall i :: 0 <= i < |es| && !fleet[i].quiesced ==> !es[i].quiesced
    ensures forall n :: n in Look(es) && Look(es)[n].quiesced ==> n in look && look[n].quiesced
  {
    forall n | n in Look(es) && Look(es)[n].quiesced ensures n in look && look[n].quiesced {
      var i := LookIndex(es, n);
      assert fleet[i] == placed[i].(degraded := fleet[i].degraded);
      assert es[i] == fleet[i].(quiesced := es[i].quiesced);
      LookFinds(placed, i);
    }
  }

  lemma SettledNew(b: Build, c: GatewayConfig, look1: map<string, Entry>, placed: seq<Entry>, fleet: seq<Entry>,
                   started: set<string>, reports: seq<Degraded>, es: seq<Entry>)
    requires NewlyBuilt(b, look1, started) && Placed(look1, c, b, placed) && Marked(placed, fleet, started, reports)
    requires QuiescedOnly(fleet, es) && forall i :: 0 <= i < |es| && !fleet[i].quiesced ==> !es[i].quiesced
    ensures NewlyBuilt(b, Look(es), started)
  {
    forall n | n in started
      ensures n in Look(es) && Look(es)[n].id == look1[n].id && !Look(es)[n].quiesced && !Look(es)[n].degraded {
      var i := LookIndex(placed, n);
      StillPlaced(placed, fleet, es);
      LookSame(placed, es);
      LookFinds(es, i);
      assert fleet[i] == placed[i].(degraded := fleet[i].degraded);
      assert es[i] == fleet[i].(quiesced := es[i].quiesced);
    }
  }

  lemma SettledRefuse(look: map<string, Entry>, d: ConfigDiff, c: GatewayConfig, b: Build, look1: map<string, Entry>,
                      kept: set<string>, stuck: set<string>, placed: seq<Entry>, fleet: seq<Entry>, es: seq<Entry>)
    requires RefuseOnly(look, d, c, kept, look1)
    requires Placed(look1, c, b, placed) && HealthOnly(placed, fleet) && QuiescedOnly(fleet, es)
    requires forall i :: 0 <= i < |es| && !fleet[i].quiesced ==> !es[i].quiesced
    requires forall i :: 0 <= i < |es| && es[i].cfg.name in kept - stuck ==> !es[i].quiesced
    ensures RefuseOnly(look, d, c, stuck, Look(es))
  {
    PlacedQuiet(look1, c, b, placed, fleet, es);
    forall n | n in Look(es) && !Going(d, c, n) && Look(es)[n].quiesced
      ensures n in stuck || (n in look && look[n].quiesced) {
      var i := LookIndex(es, n);
    }
  }

  lemma SettledRuns(s: ServiceState, live: set<Proc>, serial: nat, d: ConfigDiff, c: GatewayConfig, b: Build,
                    s1: ServiceState, live1: set<Proc>, look2: map<string, Entry>, live2: set<Proc>)
    requires ApplyBegun(s, live, serial, d, c, b, s1, live1) && b.connectors.Keys == RebuiltConnectors(d)
    requires forall n :: n in Look(s1.entries) ==> n in look2 && SameInstance(Look(s1.entries)[n], look2[n])
    requires forall p :: p in live1 && p !in live2 ==> p.ConnectorProc? && p.name !in Look(s1.entries)
    ensures KeptRuns(Look(s.entries), d, c, live, look2, live2)
  {
    LookNames(s.entries);
  }

  lemma SettledTracks(s: ServiceState, live: set<Proc>, d: ConfigDiff, s1: ServiceState, live1: set<Proc>,
                      s2: ServiceState, live2: set<Proc>)
    requires KeepsTrack(s, live, d, s1, live1) && (Sound(s, live) && NoStray(s.rt, live, d) ==> Sound(s1, live1))
    requires s2.rt == s1.rt && s2.leftoverEntries == s1.leftoverEntries && live2 <= live1
    requires forall n :: n in Look(s1.entries) ==>
      n in Look(s2.entries) && SameInstance(Look(s1.entries)[n], Look(s2.entries)[n])
    ensures KeepsTrack(s, live, d, s2, live2) && (Sound(s, live) && NoStray(s.rt, live, d) ==> Sound(s2, live2))
  {
    forall p | p in live2 && Tracked(s1.rt, Look(s1.entries), s1.leftoverEntries, p)
      ensures Tracked(s2.rt, Look(s2.entries), s2.leftoverEntries, p) {
    }
  }

  lemma Unapplied(s: ServiceState, live: set<Proc>, serial: nat, d: ConfigDiff, c: GatewayConfig, b: Build,
                  s1: ServiceState, live1: set<Proc>, placed: seq<Entry>, started: set<string>,
                  stuck: set<string>, s2: ServiceState, live2: set<Proc>)
    requires ApplyBegun(s, live, serial, d, c, b, s1, live1) && b.connectors.Keys <= CandidateNames(c)
    requires b.connectors.Keys == RebuiltConnectors(d) && RefuseOnly(Look(s.entries), d, c, stuck, Look(s2.entries))
    requires Running(s1.entries, started, live1) && NewlyBuilt(b, Look(s1.entries), started)
    requires NewlyBuilt(b, Look(s2.entries), started)
    requires Placed(Look(s1.entries), c, b, placed)
    requires SameInstances(placed, s2.entries)
    requires forall i :: 0 <= i < |s2.entries| ==> s2.entries[i].degraded || placed[i].cfg.name in started
    requires s2 == s1.(entries := s2.entries, managers := Index(s2.entries), schedulerRunning := true,
                       suspects := s1.suspects + b.backends.Keys)
    requires live2 <= live1 && forall p :: p in live1 && p !in live2 ==> p.ConnectorProc? && p.name !in Look(s1.entries)
    ensures FailedApply(s, live, serial, d, c, b, started, stuck, s2, live2)
  {
    PlacedHealth(Look(s1.entries), c, b, placed, s2.entries, started);
    SettledRuns(s, live, serial, d, c, b, s1, live1, Look(s2.entries), live2);
    SettledTracks(s, live, d, s1, live1, s2, live2);
    forall n | n in started ensures Instance(Look(s2.entries)[n]) in live2 {
      var j := LookIndex(s1.entries, n);
    }
  }

  /** What a completed apply leaves. */
  ghost predicate CompletedApply(s: ServiceState, live: set<Proc>, serial: nat, d: ConfigDiff, c: GatewayConfig,
                                 b: Build,
                                 s': ServiceState, live': set<Proc>, reports: seq<Degraded>)
  {
    && Valid(s')
    && s'.config == c && s'.suspects == {} && s'.schedulerRunning
    && GivenUp(s, d, c, s') && Undisturbed(d, c, live, live')
    && FleetInOrder(c, b, Look(s.entries), s'.entries)
    && RulesInstalled(c, s'.entries) && NoneQuiesced(s'.entries)
    && HealthReported(Look(s.entries), b, s'.entries, reports) && AllStarted(b, s', live', reports)
    && AgentsReplaced(s.rt.agents, d.agents.removed, b, s'.rt.agents) && BrokersStay(s.rt, live, d, s'.rt, live')
    && s'.rt.unavailable <= s.rt.unavailable + b.backends.Keys
    && StraysRun(s, live, serial, d, live') && KeepsTrack(s, live, d, s', live')
    && (Sound(s, live) && NoStray(s.rt, live, d) ==> Sound(s', live'))
  }

  lemma Committed(s: ServiceState, live: set<Proc>, serial: nat, d: ConfigDiff, c: GatewayConfig, b: Build,
                  s1: ServiceState, live1: set<Proc>, reports: seq<Degraded>, s2: ServiceState)
    requires FleetServing(s, live, serial, d, c, b, s1, live1, reports) && AllStarted(b, s1, live1, reports)
    requires AgentsReplaced(s.rt.agents, d.agents.removed, b, s1.rt.agents)
    requires s2 == s1.(config := c, suspects := {}, schedulerRunning := true)
    ensures CompletedApply(s, live, serial, d, c, b, s2, live1, reports)
  {
  }

  lemma HealthKeepsPlaces(es: seq<Entry>, es': seq<Entry>)
    requires HealthOnly(es, es')
    ensures SameInstances(es, es')
    ensures forall i :: 0 <= i < |es| ==> es'[i].cfg == es[i].cfg && (es[i].degraded ==> es'[i].degraded)
  {
    forall i | 0 <= i < |es| ensures SameInstance(es[i], es'[i]) && es'[i].cfg == es[i].cfg {
      assert es'[i] == es[i].(degraded := es'[i].degraded);
    }
  }

  lemma StillPlaced(placed: seq<Entry>, fleet: seq<Entry>, es: seq<Entry>)
    requires HealthOnly(placed, fleet) && QuiescedOnly(fleet, es)
    ensures SameInstances(placed, es) && Index(es) == Index(fleet)
    ensures forall i :: 0 <= i < |placed| ==> es[i].degraded == fleet[i].degraded && es[i].cfg == placed[i].cfg
  {
    HealthKeepsPlaces(placed, fleet);
    forall i | 0 <= i < |placed| ensures SameInstance(placed[i], es[i]) && es[i].degraded == fleet[i].degraded
      && SameInstance(fleet[i], es[i])
    {
      assert es[i] == fleet[i].(quiesced := es[i].quiesced);
    }
    IndexSame(fleet, es);
  }

  lemma KnownStill(look: map<string, Entry>, es1: seq<Entry>, reports1: seq<Degraded>, c: GatewayConfig, b: Build,
                   placed: seq<Entry>, fleet: seq<Entry>, es: seq<Entry>, reports: seq<Degraded>)
    requires DegradedKnown(look, es1, reports1) && reports1 <= reports
    requires Placed(Look(es1), c, b, placed)
    requires HealthOnly(placed, fleet) && NewlyReported(placed, fleet, reports) && QuiescedOnly(fleet, es)
    ensures DegradedKnown(look, es, reports)
  {
    StillPlaced(placed, fleet, es);
    forall i | 0 <= i < |es| && es[i].degraded
      ensures (es[i].cfg.name in look && look[es[i].cfg.name].degraded) ||
        Degraded(ConnectorSection, es[i].cfg.name) in reports
    {
      var n := placed[i].cfg.name;
      LookFinds(placed, i);
      if placed[i].degraded {
        var j := LookIndex(es1, n);
      }
    }
  }

  /** Exactly what is not known to have started is degraded, beside what was already, and that is reported. */
  ghost predicate Marked(placed: seq<Entry>, fleet: seq<Entry>, started: set<string>, reports: seq<Degraded>) {
    && HealthOnly(placed, fleet) && NewlyReported(placed, fleet, reports)
    && (forall i :: 0 <= i < |placed| ==>
          (fleet[i].degraded <==> placed[i].degraded || placed[i].cfg.name !in started))
  }

  /** Of the managers kept, all but the `stuck` take work; none turned any away that took it before. */
  ghost predicate Resumed(fleet: seq<Entry>, kept: set<string>, stuck: set<string>, es: seq<Entry>) {
    && QuiescedOnly(fleet, es)
    && (forall i :: 0 <= i < |es| && !fleet[i].quiesced ==> !es[i].quiesced)
    && (forall i :: 0 <= i < |es| && es[i].cfg.name in kept - stuck ==> !es[i].quiesced)
  }

  lemma SettledApply(s: ServiceState, live: set<Proc>, serial: nat, d: ConfigDiff, c: GatewayConfig, b: Build,
                     s1: ServiceState, live1: set<Proc>, reports1: seq<Degraded>, kept: set<string>,
                     placed: seq<Entry>, fleet: seq<Entry>, started: set<string>, stuck: set<string>,
                     s2: ServiceState, live2: set<Proc>, reports2: seq<Degraded>)
    requires Loaded(c) && b.connectors.Keys <= CandidateNames(c) && b.connectors.Keys == RebuiltConnectors(d)
    requires Underway(s, live, serial, d, c, b, kept, started, true, s1, live1, reports1) && reports1 <= reports2
    requires Placed(Look(s1.entries), c, b, placed) && Marked(placed, fleet, started, reports2)
    requires Resumed(fleet, kept, stuck, s2.entries)
    requires s2 == s1.(entries := s2.entries, managers := Index(fleet), schedulerRunning := true,
                       suspects := s1.suspects + b.backends.Keys)
    requires live2 <= live1 && forall p :: p in live1 && p !in live2 ==> p.ConnectorProc? && p.name !in Look(s1.entries)
    ensures FailedApply(s, live, serial, d, c, b, started, stuck, s2, live2)
    ensures DegradedKnown(Look(s.entries), s2.entries, reports2)
  {
    StillPlaced(placed, fleet, s2.entries);
    KnownStill(Look(s.entries), s1.entries, reports1, c, b, placed, fleet, s2.entries, reports2);
    SettledNew(b, c, Look(s1.entries), placed, fleet, started, reports2, s2.entries);
    SettledRefuse(Look(s.entries), d, c, b, Look(s1.entries), kept, stuck, placed, fleet, s2.entries);
    Unapplied(s, live, serial, d, c, b, s1, live1, placed, started, stuck, s2, live2);
  }

  /** How one apply ended. A refusal changed nothing; `Failed` raised part-way and was settled, except
      that the `stuck` managers would not take work again; `Unsettled` raised again while settling. */
  datatype Outcome = Refused | Failed(stuck: set<string>) | Unsettled | Completed

  /** Degraded entries the candidate names are rebuilt. */
  ghost predicate Folded(look: map<string, Entry>, d: ConfigDiff, c: GatewayConfig) {
    forall n :: n in look && look[n].degraded && n in CandidateNames(c) ==> n in RebuiltConnectors(d)
  }

  /** What the report of a failed apply says: every rebuilt agent, every entry it degraded, and, if
      anything had started, at least something. */
  ghost predicate FailureReported(look: map<string, Entry>, d: ConfigDiff, c: GatewayConfig, b: Build,
                                  started: set<string>,
                                  es: seq<Entry>, reports: seq<Degraded>)
  {
    && (forall n :: n in b.backends ==> Degraded(AgentSection, n) in reports)
    && DegradedKnown(look, es, reports)
    && (started != {} && Folded(look, d, c) ==> reports != [])
  }

  ghost predicate Applied(s: ServiceState, live: set<Proc>, serial: nat, d: ConfigDiff, c: GatewayConfig,
                          outcome: Outcome,
                          b: Build, started: set<string>, s': ServiceState, live': set<Proc>, reports: seq<Degraded>)
    requires Fits(d, c)
  {
    match outcome
    case Refused => s' == s && live' == live
    case Failed(stuck) =>
      && Built(d, c, serial, b)
      && FailedApply(s, live, serial, d, c, b, started, stuck, s', live')
      && FailureReported(Look(s.entries), d, c, b, started, s'.entries, reports)
    case Unsettled =>
      && Built(d, c, serial, b) && !Covered(c, b, Look(s.entries))
      && ApplyBegun(s, live, serial, d, c, b, s'.(suspects := s.suspects), live')
      && s'.suspects == s.suspects + b.backends.Keys
      && (forall n :: n in b.backends ==> Degraded(AgentSection, n) in reports)
      && DegradedKnown(Look(s.entries), s'.entries, reports)
    case Completed =>
      && Built(d, c, serial, b) && CompletedApply(s, live, serial, d, c, b, s', live', reports)
  }

  lemma StartedReported(s: ServiceState, live: set<Proc>, serial: nat, d: ConfigDiff, c: GatewayConfig, b: Build,
                        kept: set<string>, started: set<string>, s1: ServiceState, live1: set<Proc>,
                          reports1: seq<Degraded>,
                        stuck: set<string>, s2: ServiceState, live2: set<Proc>, reports2: seq<Degraded>)
    requires b.connectors.Keys == RebuiltConnectors(d)
    requires Underway(s, live, serial, d, c, b, kept, started, true, s1, live1, reports1)
    requires FailedApply(s, live, serial, d, c, b, started, stuck, s2, live2)
    requires DegradedKnown(Look(s.entries), s2.entries, reports2)
    requires Folded(Look(s.entries), d, c) && started != {}
    ensures reports2 != []
  {
    var n :| n in kept;
    assert n in Look(s.entries) && !Look(s.entries)[n].degraded;
    var i := LookIndex(s2.entries, n);
    assert s2.entries[i].degraded;
  }

  lemma StillCovered(s: ServiceState, live: set<Proc>, serial: nat, d: ConfigDiff, c: GatewayConfig, b: Build,
                     s1: ServiceState, live1: set<Proc>)
    requires ApplyBegun(s, live, serial, d, c, b, s1, live1)
    requires !Covered(c, b, Look(s1.entries))
    ensures !Covered(c, b, Look(s.entries))
  {
    var i :| 0 <= i < |c.connectors| && c.connectors[i].name !in b.connectors &&
      c.connectors[i].name !in Look(s1.entries);
    EachNamed(c);
  }

  lemma SettleOutcome(s: ServiceState, live: set<Proc>, serial: nat, d: ConfigDiff, c: GatewayConfig, b: Build,
                      kept: set<string>, started: set<string>, s1: ServiceState, live1: set<Proc>,
                      reports1: seq<Degraded>, raised: bool, placed: seq<Entry>, fleet: seq<Entry>, stuck: set<string>,
                      s2: ServiceState, live2: set<Proc>, reports2: seq<Degraded>)
    requires Fits(d, c) && Built(d, c, serial, b) && Loaded(c)
    requires Underway(s, live, serial, d, c, b, kept, started, true, s1, live1, reports1) && reports1 <= reports2
    requires forall n :: n in b.backends ==> Degraded(AgentSection, n) in reports2
    requires raised ==> !Covered(c, b, Look(s1.entries)) && live2 == live1
    requires raised ==> s2 == s1.(suspects := s1.suspects + b.backends.Keys)
    requires !raised ==> Placed(Look(s1.entries), c, b, placed) && Marked(placed, fleet, started, reports2)
    requires !raised ==> Resumed(fleet, kept, stuck, s2.entries)
    requires !raised ==> s2 == s1.(entries := s2.entries, managers := Index(fleet), schedulerRunning := true,
                       suspects := s1.suspects + b.backends.Keys)
    requires live2 <= live1 && forall p :: p in live1 && p !in live2 ==> p.ConnectorProc? && p.name !in Look(s1.entries)
    ensures Applied(s, live, serial, d, c, if raised then Unsettled else Failed(stuck), b, started, s2, live2, reports2)
  {
    if raised {
      StillCovered(s, live, serial, d, c, b, s1, live1);
      assert s2.(suspects := s.suspects) == s1;
    } else {
      SettledApply(s, live, serial, d, c, b, s1, live1, reports1, kept, placed, fleet, started, stuck, s2, live2,
        reports2);
      if started != {} && Folded(Look(s.entries), d, c) {
        StartedReported(s, live, serial, d, c, b, kept, started, s1, live1, reports1, stuck, s2, live2, reports2);
      }
    }
  }
}
