/** What `config reload` does not promise: the exact conditions, and the runs that miss them
    (gateway/service.py reload_config, _apply_reload). */
module ReloadLimits {
  import opened Values
  import opened Configs
  import opened Runtime
  import opened ReloadSpec
  import opened ReloadPlanning
  import opened ReloadRuns

  /** A completed apply had something for every connector: a new object or an entry to keep. */
  lemma CompletedOnlyIfCovered(s: ServiceState, live: set<Proc>, serial: nat, d: ConfigDiff, c: GatewayConfig, b: Build,
                               s': ServiceState, live': set<Proc>, reports: seq<Degraded>)
    requires Loaded(c) && CompletedApply(s, live, serial, d, c, b, s', live', reports)
    ensures Covered(c, b, Look(s.entries))
  {
    forall i | 0 <= i < |c.connectors|
      ensures c.connectors[i].name in b.connectors || c.connectors[i].name in Look(s.entries) {
      assert FillsSlot(c.connectors[i], b, Look(s.entries), s'.entries[i]);
    }
  }

  // ---- Putting the active file back ----

  /** What putting the active file back finds: a connector is built again if its entry is degraded, an
      agent if it is unavailable or suspect; whatever else is there is kept, and nothing else is built. */
  lemma PutBackPlan(s: ServiceState, d: ConfigDiff)
    requires Valid(s) && Planned(s, s.config, d)
    ensures forall n :: n in RebuiltConnectors(d) <==>
      n in CandidateNames(s.config) && n in Look(s.entries) && Look(s.entries)[n].degraded
    ensures forall n :: n in RebuiltAgents(d) <==> n in s.config.agents && (n in s.rt.unavailable || n in s.suspects)
    ensures d.agents.removed == {}
  {
    var f := DiffConfigs(s.config, s.config);
    assert f.connectors.added == {} && f.connectors.changed == {};
    assert f.agents.added == {} && f.agents.changed == {} && f.agents.removed == {};
    forall n | n in RebuiltConnectors(d) ensures n in Look(s.entries) && Look(s.entries)[n].degraded {
      var e :| e in s.entries && e.degraded && e.cfg.name == n;
      var i :| 0 <= i < |s.entries| && s.entries[i] == e;
      LookFinds(s.entries, i);
    }
    forall n | n in CandidateNames(s.config) && n in Look(s.entries) && Look(s.entries)[n].degraded
      ensures n in RebuiltConnectors(d) {
      var i := LookIndex(s.entries, n);
      assert s.entries[i] in s.entries;
    }
  }

  /** Every part of the active file's fleet is there with its definition, or is due to be built again;
      and no agent of another file is installed. */
  ghost predicate PutBackReady(s: ServiceState) {
    && (forall n :: n in CandidateNames(s.config) ==>
          n in Look(s.entries) && (Look(s.entries)[n].degraded ||
            Look(s.entries)[n].cfg == CandidateConnector(s.config, n)))
    && (forall n :: n in s.config.agents ==>
          n in s.rt.unavailable || n in s.suspects || BackendUpToDate(s.rt.agents, s.config, n))
    && (forall n :: n in s.rt.agents ==> n in s.config.agents)
  }

  /** Putting the active file back, after whatever failed: if that completes, the fleet is the file's
      exactly when it was ready for it. */
  lemma PutBackSyncsIff(s: ServiceState, live: set<Proc>, serial: nat, d: ConfigDiff, b: Build,
                        s': ServiceState, live': set<Proc>, reports: seq<Degraded>)
    requires Loaded(s.config) && Valid(s) && Planned(s, s.config, d) && Fits(d, s.config) &&
      Built(d, s.config, serial, b)
    requires CompletedApply(s, live, serial, d, s.config, b, s', live', reports)
    ensures Synced(s', s.config) <==> PutBackReady(s)
  {
    PutBackPlan(s, d);
    CompletedSyncsIff(s, live, serial, d, s.config, b, s', live', reports);
    CompletedOnlyIfCovered(s, live, serial, d, s.config, b, s', live', reports);
    PutBackCovered(s, d, b);
    PutBackKeeps(s, d);
  }

  lemma PutBackKeeps(s: ServiceState, d: ConfigDiff)
    requires Valid(s) && Planned(s, s.config, d)
    ensures CandidateNames(s.config) <= Look(s.entries).Keys ==> (KeptUpToDate(s, s.config, d) <==> PutBackReady(s))
  {
    PutBackPlan(s, d);
  }

  /** The fleet of the active file can be assembled only if no connector of it was dropped, since an
      unchanged one is not built again. */
  lemma PutBackCovered(s: ServiceState, d: ConfigDiff, b: Build)
    requires Loaded(s.config) && Valid(s)
    requires Planned(s, s.config, d) && b.connectors.Keys == RebuiltConnectors(d)
    ensures Covered(s.config, b, Look(s.entries)) <==> CandidateNames(s.config) <= Look(s.entries).Keys
  {
    PutBackPlan(s, d);
    forall n | n in CandidateNames(s.config) && Covered(s.config, b, Look(s.entries)) ensures n in Look(s.entries) {
      var i := ByNameIndex(s.config.connectors, ConnectorName, n);
      assert s.config.connectors[i].name in b.connectors || s.config.connectors[i].name in Look(s.entries);
    }
    EachNamed(s.config);
  }

  // ---- A stray backend ----

  /** No stray backend runs, unless it is already among those given up on. */
  ghost predicate StraysDown(r: RuntimeState, live: set<Proc>, d: ConfigDiff) {
    forall n :: Stray(r, d, n) && BackendProc(r.agents[n]) in live ==> BackendProc(r.agents[n]) in r.leftovers
  }

  /** The broker an earlier apply left a stray still stands, or is among those given up on, if it runs:
      the start pass has not put a new one in its place. */
  ghost predicate StrayBrokersKept(r: RuntimeState, d: ConfigDiff, r': RuntimeState, live': set<Proc>) {
    forall n :: Stray(r, d, n) && n in r.brokers && BrokerProc(r.brokers[n]) in live' ==>
      BrokerProc(r.brokers[n]) in r'.leftovers || (n in r'.brokers && r'.brokers[n] == r.brokers[n])
  }

  /** Outside a patient run, a completed apply keeps track of every process exactly when no stray
      backend was running, since nothing stops a stray before its replacement takes its place, and no
      running broker of a stray gave way to a new one. */
  lemma CompletedConservesIff(s: ServiceState, live: set<Proc>, serial: nat, d: ConfigDiff, c: GatewayConfig, b: Build,
                              s': ServiceState, live': set<Proc>, reports: seq<Degraded>)
    requires Valid(s) && Sound(s, live) && Fits(d, c) && Built(d, c, serial, b)
    requires CompletedApply(s, live, serial, d, c, b, s', live', reports)
    requires forall n :: n in s.rt.agents ==> s.rt.agents[n].id < serial
    ensures Conserved(s', live') <==> StraysDown(s.rt, live, d) && StrayBrokersKept(s.rt, d, s'.rt, live')
  {
    if !StraysDown(s.rt, live, d) {
      var n :| Stray(s.rt, d, n) && BackendProc(s.rt.agents[n]) in live &&
        BackendProc(s.rt.agents[n]) !in s.rt.leftovers;
      StrayLost(s, live, serial, d, c, b, s', live', n);
    } else if StrayBrokersKept(s.rt, d, s'.rt, live') {
      StraysTracked(s, live, d, c, s', live');
    } else {
      BrokerLost(s.rt, d, s', live');
    }
  }

  lemma BrokerLost(r: RuntimeState, d: ConfigDiff, s': ServiceState, live': set<Proc>)
    requires r.Valid() && !StrayBrokersKept(r, d, s'.rt, live')
    ensures !Conserved(s', live')
  {
    var n :| Stray(r, d, n) && n in r.brokers && BrokerProc(r.brokers[n]) in live'
      && BrokerProc(r.brokers[n]) !in s'.rt.leftovers && !(n in s'.rt.brokers && s'.rt.brokers[n] == r.brokers[n]);
    assert !Tracked(s'.rt, Look(s'.entries), s'.leftoverEntries, BrokerProc(r.brokers[n]));
  }

  lemma StraysTracked(s: ServiceState, live: set<Proc>, d: ConfigDiff, c: GatewayConfig, s': ServiceState,
                      live': set<Proc>)
    requires Valid(s) && Sound(s, live) && KeepsTrack(s, live, d, s', live') && GivenUp(s, d, c, s')
    requires StraysDown(s.rt, live, d) && StrayBrokersKept(s.rt, d, s'.rt, live')
    ensures Conserved(s', live')
  {
  }

  lemma StrayLost(s: ServiceState, live: set<Proc>, serial: nat, d: ConfigDiff, c: GatewayConfig, b: Build,
                  s': ServiceState, live': set<Proc>, n: string)
    requires Valid(s) && Fits(d, c) && Built(d, c, serial, b) && Stray(s.rt, d, n) && s.rt.agents[n].id < serial
    requires GivenUp(s, d, c, s') && StraysRun(s, live, serial, d, live') &&
      AgentsReplaced(s.rt.agents, d.agents.removed, b, s'.rt.agents)
    requires BackendProc(s.rt.agents[n]) in live && BackendProc(s.rt.agents[n]) !in s.rt.leftovers
    ensures !Conserved(s', live')
  {
    var p := BackendProc(s.rt.agents[n]);
    assert n !in StoppingAgents(d) && !s.rt.Owns(StoppingAgents(d), p);
    assert !Tracked(s'.rt, Look(s'.entries), s'.leftoverEntries, p);
  }

  // A run that is not patient: "b" adds agent "x", its apply fails with the backend up; a changed "a"
  // completes and clears the suspicion; then "b" again replaces a running backend nothing stopped.
  const AGENT_X := AgentConfig("x", "opencode", Null, Null, "", Null, false, [], [], [], Null,
                               PermissionConfig(Null, Null, Null))
  const CONFIG_A := GatewayConfig([], map[], [], 100, 7)
  const CONFIG_A2 := GatewayConfig([], map[], [], 200, 7)
  const CONFIG_B := GatewayConfig([], map["x" := AGENT_X], [], 100, 7)
  const OLD_X := Backend(0, AGENT_X)
  const OLD_BROKER := Broker(1, "x")
  const NEW_X := Backend(2, AGENT_X)
  const NEW_BROKER := Broker(3, "x")
  const X_UP := {BackendProc(OLD_X), BrokerProc(OLD_BROKER)}
  const X_ANEW := {BackendProc(NEW_X), BrokerProc(NEW_BROKER)}

  function Idle(c: GatewayConfig, suspects: set<string>, agents: map<string, Backend>,
                brokers: map<string, Broker>): ServiceState
  {
    ServiceState(c, [], map[], [], suspects, true, RuntimeState(agents, brokers, {}, []))
  }

  function NoX(c: GatewayConfig): ServiceState { Idle(c, {}, map[], map[]) }

  function OldX(c: GatewayConfig, suspects: set<string>): ServiceState {
    Idle(c, suspects, map["x" := OLD_X], map["x" := OLD_BROKER])
  }

  function NewX(c: GatewayConfig): ServiceState {
    Idle(c, {}, map["x" := NEW_X], map["x" := NEW_BROKER])
  }

  function Trying(s: ServiceState, live: set<Proc>, serial: nat, c: GatewayConfig, outcome: Outcome, b: Build): Step {
    Tried(s, live, serial, FoldDegraded(DiffConfigs(s.config, c), s.entries, s.suspects, c), c, outcome, b, {})
  }

  /** One apply, with no leftovers to retry first. */
  lemma OneTry(m: Moment, e: Event)
    requires e.step.Tried? && e.step.before == m.s && e.step.running == m.live && e.step.serial == m.serial
    requires Loaded(e.step.c) && Planned(m.s, e.step.c, e.step.d) && Fits(e.step.d, e.step.c)
    requires Applied(m.s, m.live, m.serial, e.step.d, e.step.c, e.step.outcome, e.step.b, e.step.started,
                     e.after.s, e.after.live, e.reports)
    requires m.serial <= e.after.serial && e.step.b.top <= e.after.serial
    requires BrokersBelow(e.after.s.rt.brokers, e.after.s.rt.leftovers, e.after.serial)
    ensures Next(m, e)
  {
    NothingRetried(m.s, m.live);
    assert Reloaded(m.s, m.live, e.step, e.after.s, e.after.live, e.reports);
  }

  /** With no connectors and nothing unavailable, the folded diff is the plan. */
  lemma IdlePlanned(c: GatewayConfig, suspects: set<string>, agents: map<string, Backend>,
                    brokers: map<string, Broker>, next: GatewayConfig)
    requires c.connectors == next.connectors == []
    ensures Planned(Idle(c, suspects, agents, brokers), next,
                    FoldDegraded(DiffConfigs(c, next), [], suspects, next))
  {
    assert {} + suspects == suspects;
  }

  lemma LostAgent() returns (m: Moment, es: seq<Event>)
    ensures Valid(m.s) && Sound(m.s, m.live) && Loaded(CONFIG_A) && Synced(m.s, CONFIG_A)
    ensures Run(m, es)
    ensures !Conserved(Last(m, es).s, Last(m, es).live)
  {
    m := Moment(NoX(CONFIG_A), {}, 0);
    var up := Moment(OldX(CONFIG_A, {"x"}), X_UP, 2);
    var cleared := Moment(OldX(CONFIG_A2, {}), X_UP, 2);
    var lost := Moment(NewX(CONFIG_B), X_UP + X_ANEW, 4);
    var e1 := Event(Trying(m.s, m.live, 0, CONFIG_B, Failed({}), Build(map["x" := OLD_X], map[], 1)),
                    [Degraded(AgentSection, "x")], up);
    var e2 := Event(Trying(up.s, up.live, 2, CONFIG_A2, Completed, Build(map[], map[], 2)), [], cleared);
    var e3 := Event(Trying(cleared.s, cleared.live, 2, CONFIG_B, Completed, Build(map["x" := NEW_X], map[], 3)), [],
      lost);
    es := [e1, e2, e3];
    FirstTry(m, e1, up);
    SecondTry(up, e2, cleared);
    ThirdTry(cleared, e3, lost);
    ThreeInARow(m, e1, e2, e3);
    OldUntracked();
  }

  /** The same candidate retried instead: the suspicion stops the old backend first, and the run ends
      on the candidate with nothing lost. */
  lemma RetriedAgent() returns (m: Moment, es: seq<Event>)
    ensures Loaded(CONFIG_A) && Holds(Settled(CONFIG_A), m.s) && Sound(m.s, m.live)
    ensures Run(m, es) && Patient(Settled(CONFIG_A), es)
    ensures |es| == 2 && es[0].step.Tried? && es[0].step.outcome == Failed({}) &&
      AimAtEnd(Settled(CONFIG_A), es) == Settled(CONFIG_B)
  {
    m := Moment(NoX(CONFIG_A), {}, 0);
    var up := Moment(OldX(CONFIG_A, {"x"}), X_UP, 2);
    var done := Moment(NewX(CONFIG_B), X_ANEW, 4);
    var e1 := Event(Trying(m.s, m.live, 0, CONFIG_B, Failed({}), Build(map["x" := OLD_X], map[], 1)),
                    [Degraded(AgentSection, "x")], up);
    var e2 := Event(Trying(up.s, up.live, 2, CONFIG_B, Completed, Build(map["x" := NEW_X], map[], 3)), [], done);
    es := [e1, e2];
    FirstTry(m, e1, up);
    RetryCompletes(up, e2, done);
    TwoInARow(m, e1, e2);
    RetryIsPatient(CONFIG_A, e1, e2);
  }

  lemma TwoInARow(m: Moment, e1: Event, e2: Event)
    requires Next(m, e1) && Next(e1.after, e2)
    ensures Run(m, [e1, e2]) && Last(m, [e1, e2]) == e2.after
  {
    assert [e1, e2][1..] == [e2] && [e2][1..] == [];
    assert Run(e2.after, []);
    assert Run(e1.after, [e2]);
  }

  lemma RetryIsPatient(base: GatewayConfig, e1: Event, e2: Event)
    requires e1.step.Tried? && e2.step.Tried? && e1.step.outcome == Failed({}) && e2.step.outcome == Completed &&
      e1.step.c == e2.step.c
    ensures Patient(Settled(base), [e1, e2]) && AimAtEnd(Settled(base), [e1, e2]) == Settled(e2.step.c)
  {
    assert [e1, e2][1..] == [e2] && [e2][1..] == [];
    assert Patient(Settled(e2.step.c), []) && AimAtEnd(Settled(e2.step.c), []) == Settled(e2.step.c);
    assert Patient(Retrying(base, e1.step.c), [e2]);
    assert AimAtEnd(Retrying(base, e1.step.c), [e2]) == Settled(e2.step.c);
  }

  lemma RetryCompletes(m: Moment, e: Event, after: Moment)
    requires m == Moment(OldX(CONFIG_A, {"x"}), X_UP, 2)
    requires after == Moment(NewX(CONFIG_B), X_ANEW, 4)
    requires e == Event(Trying(m.s, m.live, 2, CONFIG_B, Completed, Build(map["x" := NEW_X], map[], 3)), [], after)
    ensures Next(m, e)
  {
    IdlePlanned(CONFIG_A, {"x"}, map["x" := OLD_X], map["x" := OLD_BROKER], CONFIG_B);
    PlannedFits(m.s, CONFIG_B, e.step.d);
    RetryApplies(m.s, after.s, e.step.d, e.step.b);
    OneTry(m, e);
  }

  lemma RetryApplies(s: ServiceState, s': ServiceState, d: ConfigDiff, b: Build)
    requires s == OldX(CONFIG_A, {"x"}) && s' == NewX(CONFIG_B)
    requires b == Build(map["x" := NEW_X], map[], 3) && Fits(d, CONFIG_B) && "x" in d.agents.changed &&
      d.agents.removed == {}
    ensures CompletedApply(s, X_UP, 2, d, CONFIG_B, b, s', X_ANEW, [])
  {
    assert s.rt.Owns(StoppingAgents(d), BackendProc(OLD_X));
  }

  lemma ThreeInARow(m: Moment, e1: Event, e2: Event, e3: Event)
    requires Next(m, e1) && Next(e1.after, e2) && Next(e2.after, e3)
    ensures Run(m, [e1, e2, e3]) && Last(m, [e1, e2, e3]) == e3.after
  {
    var es := [e1, e2, e3];
    assert es[1..] == [e2, e3] && [e2, e3][1..] == [e3];
    assert Run(e3.after, []) && Run(e2.after, [e3]);
    assert Run(e1.after, es[1..]);
  }

  lemma OldUntracked()
    ensures !Conserved(NewX(CONFIG_B), X_UP + X_ANEW)
  {
    var s := NewX(CONFIG_B);
    assert !Tracked(s.rt, Look(s.entries), s.leftoverEntries, BackendProc(OLD_X));
  }

  lemma FirstTry(m: Moment, e: Event, after: Moment)
    requires m == Moment(NoX(CONFIG_A), {}, 0)
    requires after == Moment(OldX(CONFIG_A, {"x"}), X_UP, 2)
    requires e == Event(Trying(m.s, m.live, 0, CONFIG_B, Failed({}), Build(map["x" := OLD_X], map[], 1)),
                        [Degraded(AgentSection, "x")], after)
    ensures Next(m, e)
  {
    IdlePlanned(CONFIG_A, {}, map[], map[], CONFIG_B);
    PlannedFits(m.s, CONFIG_B, e.step.d);
    FirstTryFails(m.s, after.s, e.step.d, e.step.b);
    OneTry(m, e);
  }

  lemma FirstTryFails(s: ServiceState, s': ServiceState, d: ConfigDiff, b: Build)
    requires s == NoX(CONFIG_A) && s' == OldX(CONFIG_A, {"x"})
    requires d == FoldDegraded(DiffConfigs(CONFIG_A, CONFIG_B), [], {}, CONFIG_B) && Fits(d, CONFIG_B)
    requires b == Build(map["x" := OLD_X], map[], 1)
    ensures Applied(s, {}, 0, d, CONFIG_B, Failed({}), b, {}, s', X_UP, [Degraded(AgentSection, "x")])
  {
    assert d.agents.removed == {};
    XHalfAdded(s, s', d, b);
  }

  lemma XHalfAdded(s: ServiceState, s': ServiceState, d: ConfigDiff, b: Build)
    requires s == NoX(CONFIG_A) && s' == OldX(CONFIG_A, {"x"})
    requires d.agents.removed == {} && b == Build(map["x" := OLD_X], map[], 1)
    ensures FailedApply(s, {}, 0, d, CONFIG_B, b, {}, {}, s', X_UP)
  {
  }

  lemma SecondTry(m: Moment, e: Event, after: Moment)
    requires m == Moment(OldX(CONFIG_A, {"x"}), X_UP, 2)
    requires after == Moment(OldX(CONFIG_A2, {}), X_UP, 2)
    requires e == Event(Trying(m.s, m.live, 2, CONFIG_A2, Completed, Build(map[], map[], 2)), [], after)
    ensures Next(m, e)
  {
    IdlePlanned(CONFIG_A, {"x"}, map["x" := OLD_X], map["x" := OLD_BROKER], CONFIG_A2);
  }

  lemma ThirdTry(m: Moment, e: Event, after: Moment)
    requires m == Moment(OldX(CONFIG_A2, {}), X_UP, 2)
    requires after == Moment(NewX(CONFIG_B), X_UP + X_ANEW, 4)
    requires e == Event(Trying(m.s, m.live, 2, CONFIG_B, Completed, Build(map["x" := NEW_X], map[], 3)), [], after)
    ensures Next(m, e)
  {
    IdlePlanned(CONFIG_A2, {}, map["x" := OLD_X], map["x" := OLD_BROKER], CONFIG_B);
    PlannedFits(m.s, CONFIG_B, e.step.d);
    StrayReplaced(m.s, after.s, e.step.d, e.step.b);
    OneTry(m, e);
  }

  lemma StrayReplaced(s: ServiceState, s': ServiceState, d: ConfigDiff, b: Build)
    requires s == OldX(CONFIG_A2, {}) && s' == NewX(CONFIG_B)
    requires b == Build(map["x" := NEW_X], map[], 3) && Fits(d, CONFIG_B) && d.agents == EntityChanges({"x"}, {}, {})
    ensures CompletedApply(s, X_UP, 2, d, CONFIG_B, b, s', X_UP + X_ANEW, [])
  {
    assert Stray(s.rt, d, "x");
  }

  // ---- Runs after which putting the active file back does not restore it ----

  const X1 := ConnectorConfig("x", "mattermost", map[], [])
  const X2 := ConnectorConfig("x", "mattermost", map[], ["extra.md"])
  const Y := ConnectorConfig("y", "mattermost", map[], [])
  const CONFIG_X1Y := GatewayConfig([X1, Y], map[], [], 100, 7)
  const CONFIG_X2Y := GatewayConfig([X2, Y], map[], [], 100, 7)
  const CONFIG_Y := GatewayConfig([Y], map[], [], 100, 7)

  function Healthy(id: nat, cc: ConnectorConfig): Entry { Entry(id, cc, [], false, false) }

  function Fleet(c: GatewayConfig, es: seq<Entry>): ServiceState {
    ServiceState(c, es, Index(es), [], {}, true, RuntimeState(map[], map[], {}, []))
  }

  function FleetTry(s: ServiceState, live: set<Proc>, serial: nat, c: GatewayConfig, outcome: Outcome, b: Build,
                    started: set<string>): Step
  {
    Tried(s, live, serial, FoldDegraded(DiffConfigs(s.config, c), s.entries, s.suspects, c), c, outcome, b, started)
  }

  lemma OneByName<T>(t: T, name: T -> string)
    ensures ByName([t], name) == map[name(t) := t]
  {
    assert [t][..0] == [];
  }

  lemma TwoByName<T>(t: T, u: T, name: T -> string)
    ensures ByName([t, u], name) == map[name(t) := t, name(u) := u]
  {
    assert [t, u][..1] == [t];
    OneByName(t, name);
  }

  lemma FleetSound(c: GatewayConfig, es: seq<Entry>, live: set<Proc>)
    requires DistinctNames(es)
    requires forall p :: p in live ==> exists i :: 0 <= i < |es| && p == Instance(es[i])
    ensures Valid(Fleet(c, es)) && Sound(Fleet(c, es), live)
  {
    ConnectedSound(Fleet(c, es), {}, live);
  }

  /** A failed apply of a fleet without agents. */
  lemma FleetFails(c: GatewayConfig, next: GatewayConfig, es: seq<Entry>, live: set<Proc>, serial: nat, d: ConfigDiff,
                   b: Build,
                   started: set<string>, es': seq<Entry>, live': set<Proc>)
    requires b.backends == map[] && Sound(Fleet(c, es'), live') && DistinctNames(es')
    requires forall p :: p in live ==> p.ConnectorProc?
    requires CandidateNames(next) <= Look(es').Keys && EntriesSettled(Look(es), next, b, Look(es'))
    requires NewlyBuilt(b, Look(es'), started)
    requires KeptRuns(Look(es), d, next, live, Look(es'), live') && NoneQuiesced(es')
    requires forall n :: n in Look(es') ==> Look(es')[n].degraded || (n in started && Instance(Look(es')[n]) in live')
    ensures FailedApply(Fleet(c, es), live, serial, d, next, b, started, {}, Fleet(c, es'), live')
  {
    forall n | n in Look(es') ensures !Look(es')[n].quiesced {
      var i := LookIndex(es', n);
    }
  }

  const NO_CHANGE := EntityChanges({}, {}, {})

  lemma FleetPlanned(c: GatewayConfig, next: GatewayConfig, es: seq<Entry>, d: ConfigDiff)
    requires d == FoldDegraded(DiffConfigs(c, next), es, {}, next) && c.agents == next.agents == map[]
    requires Look(es).Keys == CandidateNames(c)
    ensures Planned(Fleet(c, es), next, d) && Fits(d, next) && d.agents == NO_CHANGE
  {
    assert {} + Fleet(c, es).suspects == {};
    PlannedFits(Fleet(c, es), next, d);
  }

  /** An apply of a file without connector y fails once y is gone, and y is in the active file still.
      Putting that back finds nothing to do; nor could its fleet be assembled by any plan. */
  lemma DroppedConnector() returns (m: Moment, e: Event)
    ensures Loaded(CONFIG_Y) && Valid(m.s) && Synced(m.s, CONFIG_Y) && Sound(m.s, m.live)
    ensures Next(m, e) && e.after.s.config == CONFIG_Y && "y" !in Look(e.after.s.entries)
    ensures exists d :: Planned(e.after.s, CONFIG_Y, d) && d.Empty()
    ensures forall d, b: Build :: Planned(e.after.s, CONFIG_Y, d) && b.connectors.Keys == RebuiltConnectors(d) ==>
      !Covered(CONFIG_Y, b, Look(e.after.s.entries))
  {
    var y := Healthy(0, Y);
    m := Moment(Fleet(CONFIG_Y, [y]), {Instance(y)}, 1);
    var gone := Moment(Fleet(CONFIG_Y, []), {}, 1);
    e := Event(FleetTry(m.s, m.live, 1, CONFIG_A, Failed({}), Build(map[], map[], 1), {}), [], gone);
    YDropped(m, e);
    YStaysDropped(gone.s);
    FleetSound(CONFIG_Y, [y], {Instance(y)});
  }

  lemma YDropped(m: Moment, e: Event)
    requires m == Moment(Fleet(CONFIG_Y, [Healthy(0, Y)]), {Instance(Healthy(0, Y))}, 1)
    requires e == Event(FleetTry(m.s, m.live, 1, CONFIG_A, Failed({}), Build(map[], map[], 1), {}), [],
                        Moment(Fleet(CONFIG_Y, []), {}, 1))
    ensures Next(m, e)
  {
    OneByName(Healthy(0, Y), EntryName);
    OneByName(Y, ConnectorName);
    FleetPlanned(CONFIG_Y, CONFIG_A, [Healthy(0, Y)], e.step.d);
    FleetSound(CONFIG_Y, [], {});
    FleetFails(CONFIG_Y, CONFIG_A, [Healthy(0, Y)], m.live, 1, e.step.d, e.step.b, {}, [], {});
  }

  lemma YStaysDropped(gone: ServiceState)
    requires gone == Fleet(CONFIG_Y, [])
    ensures "y" !in Look(gone.entries)
    ensures exists d :: Planned(gone, CONFIG_Y, d) && d.Empty()
    ensures forall d, b: Build :: Planned(gone, CONFIG_Y, d) && b.connectors.Keys == RebuiltConnectors(d) ==>
      !Covered(CONFIG_Y, b, Look(gone.entries))
  {
    OneByName(Y, ConnectorName);
    var d := FoldDegraded(DiffConfigs(CONFIG_Y, CONFIG_Y), [], {}, CONFIG_Y);
    assert {} + gone.suspects == {};
    assert Planned(gone, CONFIG_Y, d) && d.Empty();
    forall d, b: Build | Planned(gone, CONFIG_Y, d) && b.connectors.Keys == RebuiltConnectors(d)
      ensures !Covered(CONFIG_Y, b, Look(gone.entries))
    {
      PutBackCovered(gone, d, b);
      assert "y" in CandidateNames(CONFIG_Y);
    }
  }

  /** The same with an agent: the apply that removes x fails after dropping it. */
  lemma DroppedAgent() returns (m: Moment, e: Event)
    ensures Loaded(CONFIG_B) && Valid(m.s) && Synced(m.s, CONFIG_B) && Sound(m.s, m.live)
    ensures Next(m, e) && e.after.s.config == CONFIG_B && "x" in CONFIG_B.agents && "x" !in e.after.s.rt.agents
    ensures exists d :: Planned(e.after.s, CONFIG_B, d) && d.Empty()
  {
    XInstalled();
    m := Moment(OldX(CONFIG_B, {}), X_UP, 2);
    e := Event(Trying(m.s, m.live, 2, CONFIG_A, Failed({}), Build(map[], map[], 2)), [],
      Moment(NoX(CONFIG_B), {}, 2));
    XDropped(m, e);
    XStaysDropped();
  }

  lemma XInstalled()
    ensures Loaded(CONFIG_B) && Valid(OldX(CONFIG_B, {})) &&
      Synced(OldX(CONFIG_B, {}), CONFIG_B)
    ensures Sound(OldX(CONFIG_B, {}), X_UP)
  {
  }

  lemma XStaysDropped()
    ensures exists d :: Planned(NoX(CONFIG_B), CONFIG_B, d) && d.Empty()
  {
    IdlePlanned(CONFIG_B, {}, map[], map[], CONFIG_B);
    assert FoldDegraded(DiffConfigs(CONFIG_B, CONFIG_B), [], {}, CONFIG_B).Empty();
  }

  lemma XDropped(m: Moment, e: Event)
    requires m == Moment(OldX(CONFIG_B, {}), X_UP, 2)
    requires e == Event(Trying(m.s, m.live, 2, CONFIG_A, Failed({}), Build(map[], map[], 2)), [],
      Moment(NoX(CONFIG_B), {}, 2))
    ensures Next(m, e)
  {
    IdlePlanned(CONFIG_B, {}, map["x" := OLD_X], map["x" := OLD_BROKER], CONFIG_A);
    PlannedFits(m.s, CONFIG_A, e.step.d);
    XDropFails(m.s, e.after.s, e.step.d);
  }

  lemma XDropFails(s: ServiceState, s': ServiceState, d: ConfigDiff)
    requires s == OldX(CONFIG_B, {}) && s' == NoX(CONFIG_B)
    requires d.agents == EntityChanges({}, {}, {"x"})
    ensures FailedApply(s, X_UP, 2, d, CONFIG_A, Build(map[], map[], 2), {}, {}, s', {})
  {
    assert s.rt.Owns(StoppingAgents(d), BackendProc(OLD_X));
  }

  const BEFORE := Moment(Fleet(CONFIG_X1Y, [Healthy(0, X1), Healthy(1, Y)]),
                         {ConnectorProc(0, "x"), ConnectorProc(1, "y")}, 2)
  const HALF_WAY := Moment(Fleet(CONFIG_X1Y, [Healthy(2, X2), Healthy(1, Y).(degraded := true)]),
                           {ConnectorProc(2, "x"), ConnectorProc(1, "y")}, 3)
  const PUT_BACK := Moment(Fleet(CONFIG_X1Y, [Healthy(2, X2), Healthy(3, Y)]),
                           {ConnectorProc(2, "x"), ConnectorProc(3, "y")}, 4)

  function StaleRun(): seq<Event> {
    [Event(FleetTry(BEFORE.s, BEFORE.live, 2, CONFIG_X2Y, Failed({}), Build(map[], map["x" := 2], 3), {"x"}),
           [Degraded(ConnectorSection, "y")], HALF_WAY),
     Event(FleetTry(HALF_WAY.s, HALF_WAY.live, 3, CONFIG_X1Y, Completed, Build(map[], map["y" := 3], 4), {}), [],
       PUT_BACK)]
  }

  /** An apply that changes x and keeps y fails after x started anew. Putting the active file back
      completes with nothing to report, and x runs the other file's definition. */
  lemma StaleConnector()
    ensures Loaded(CONFIG_X1Y) && Valid(BEFORE.s) && Synced(BEFORE.s, CONFIG_X1Y) && Sound(BEFORE.s, BEFORE.live)
    ensures Run(BEFORE, StaleRun()) && Last(BEFORE, StaleRun()) == PUT_BACK
    ensures !Synced(PUT_BACK.s, CONFIG_X1Y)
  {
    var e1, e2 := StaleRun()[0], StaleRun()[1];
    StaleStart(BEFORE.s);
    XStarts(BEFORE, e1);
    YRestarts(HALF_WAY, e2);
    TwoInARow(BEFORE, e1, e2);
    assert StaleRun() == [e1, e2];
    assert PUT_BACK.s.entries[0].cfg != CONFIG_X1Y.connectors[0];
  }

  lemma StaleStart(s: ServiceState)
    requires s == Fleet(CONFIG_X1Y, [Healthy(0, X1), Healthy(1, Y)])
    ensures Loaded(CONFIG_X1Y) && Valid(s) && Synced(s, CONFIG_X1Y)
    ensures Sound(s, {ConnectorProc(0, "x"), ConnectorProc(1, "y")})
  {
    TwoSound(s.entries[0], s.entries[1]);
  }

  lemma TwoSound(e: Entry, f: Entry)
    requires e.cfg.name == "x" && f.cfg.name == "y"
    ensures Valid(Fleet(CONFIG_X1Y, [e, f])) && Sound(Fleet(CONFIG_X1Y, [e, f]), {Instance(e), Instance(f)})
    ensures Look([e, f]) == map["x" := e, "y" := f]
  {
    var es := [e, f];
    assert es[0] == e && es[1] == f;
    FleetSound(CONFIG_X1Y, es, {Instance(e), Instance(f)});
    TwoByName(e, f, EntryName);
  }

  lemma XStarts(m: Moment, e: Event)
    requires m == BEFORE && e.after == HALF_WAY
    requires e.step == FleetTry(m.s, m.live, 2, CONFIG_X2Y, Failed({}), Build(map[], map["x" := 2], 3), {"x"})
    requires e.reports == [Degraded(ConnectorSection, "y")]
    ensures Next(m, e)
  {
    XPlanned(m.s.entries, e.step.d, e.step.b);
    XLoaded();
    OneFailure(m, e, m.s.entries, e.after.s.entries);
  }

  lemma XLoaded()
    ensures Loaded(CONFIG_X2Y)
  {
  }

  lemma OneFailure(m: Moment, e: Event, es: seq<Entry>, es': seq<Entry>)
    requires e.step.Tried? && e.step.before == m.s == Fleet(CONFIG_X1Y, es) && e.step.running == m.live &&
      e.step.serial == m.serial == 2
    requires es == [Healthy(0, X1), Healthy(1, Y)] && es' == [Healthy(2, X2), Healthy(1, Y).(degraded := true)]
    requires Planned(m.s, e.step.c, e.step.d) && Fits(e.step.d, e.step.c) && Built(e.step.d, e.step.c, 2, e.step.b)
    requires e.step.c == CONFIG_X2Y && Loaded(CONFIG_X2Y)
    requires e.step.outcome == Failed({}) && e.step.started == {"x"} && e.step.b == Build(map[], map["x" := 2], 3)
    requires m.live == {ConnectorProc(0, "x"), ConnectorProc(1, "y")} && e.reports == [Degraded(ConnectorSection, "y")]
    requires e.after == Moment(Fleet(CONFIG_X1Y, es'), {ConnectorProc(2, "x"), ConnectorProc(1, "y")}, 3)
    ensures Next(m, e)
  {
    XFails(es, es', e.step.d, e.step.b);
    OneTry(m, e);
  }

  lemma XPlanned(es: seq<Entry>, d: ConfigDiff, b: Build)
    requires es == [Healthy(0, X1), Healthy(1, Y)] && b == Build(map[], map["x" := 2], 3)
    requires d == FoldDegraded(DiffConfigs(CONFIG_X1Y, CONFIG_X2Y), es, {}, CONFIG_X2Y)
    ensures Planned(Fleet(CONFIG_X1Y, es), CONFIG_X2Y, d) && Fits(d, CONFIG_X2Y) && Built(d, CONFIG_X2Y, 2, b)
  {
    TwoSound(es[0], es[1]);
    TwoByName(X1, Y, ConnectorName);
    TwoByName(X2, Y, ConnectorName);
    FleetPlanned(CONFIG_X1Y, CONFIG_X2Y, es, d);
  }

  lemma XFails(es: seq<Entry>, es': seq<Entry>, d: ConfigDiff, b: Build)
    requires es == [Healthy(0, X1), Healthy(1, Y)] && es' == [Healthy(2, X2), Healthy(1, Y).(degraded := true)]
    requires b == Build(map[], map["x" := 2], 3) && Fits(d, CONFIG_X2Y) && Built(d, CONFIG_X2Y, 2, b)
    ensures Applied(Fleet(CONFIG_X1Y, es), {ConnectorProc(0, "x"), ConnectorProc(1, "y")}, 2, d, CONFIG_X2Y,
                    Failed({}), b, {"x"}, Fleet(CONFIG_X1Y, es'), {ConnectorProc(2, "x"), ConnectorProc(1, "y")},
                    [Degraded(ConnectorSection, "y")])
  {
    TwoSound(es[0], es[1]);
    TwoSound(es'[0], es'[1]);
    TwoByName(X2, Y, ConnectorName);
    FleetFails(CONFIG_X1Y, CONFIG_X2Y, es, {ConnectorProc(0, "x"), ConnectorProc(1, "y")}, 2, d, b, {"x"},
               es', {ConnectorProc(2, "x"), ConnectorProc(1, "y")});
  }

  lemma YRestarts(m: Moment, e: Event)
    requires m == HALF_WAY && e.after == PUT_BACK
    requires e.step == FleetTry(m.s, m.live, 3, CONFIG_X1Y, Completed, Build(map[], map["y" := 3], 4), {})
    requires e.reports == []
    ensures Next(m, e)
  {
    YPlanned(m.s.entries, e.step.d, e.step.b);
    YCompletes(m.s.entries, e.after.s.entries, e.step.d, e.step.b);
    OneTry(m, e);
  }

  lemma YPlanned(es: seq<Entry>, d: ConfigDiff, b: Build)
    requires es == [Healthy(2, X2), Healthy(1, Y).(degraded := true)] && b == Build(map[], map["y" := 3], 4)
    requires d == FoldDegraded(DiffConfigs(CONFIG_X1Y, CONFIG_X1Y), es, {}, CONFIG_X1Y)
    ensures Planned(Fleet(CONFIG_X1Y, es), CONFIG_X1Y, d) && Fits(d, CONFIG_X1Y) && Built(d, CONFIG_X1Y, 3, b)
    ensures d.agents == NO_CHANGE
  {
    TwoSound(es[0], es[1]);
    TwoByName(X1, Y, ConnectorName);
    FleetPlanned(CONFIG_X1Y, CONFIG_X1Y, es, d);
    assert es[1] in es && es[1].degraded;
  }

  lemma YCompletes(es: seq<Entry>, es': seq<Entry>, d: ConfigDiff, b: Build)
    requires es == [Healthy(2, X2), Healthy(1, Y).(degraded := true)] && es' == [Healthy(2, X2), Healthy(3, Y)]
    requires b == Build(map[], map["y" := 3], 4) && b.connectors.Keys == RebuiltConnectors(d) && d.agents == NO_CHANGE
    ensures CompletedApply(Fleet(CONFIG_X1Y, es), {ConnectorProc(2, "x"), ConnectorProc(1, "y")}, 3, d, CONFIG_X1Y, b,
                           Fleet(CONFIG_X1Y, es'), {ConnectorProc(2, "x"), ConnectorProc(3, "y")}, [])
  {
    TwoSound(es[0], es[1]);
    TwoSound(es'[0], es'[1]);
  }
}
