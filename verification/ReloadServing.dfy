/** Along a patient run, what is not reported as down runs (gateway/service.py reload_config). */
module ReloadServing {
  import opened Values
  import opened Configs
  import opened Runtime
  import opened ReloadSpec
  import opened ReloadPlanning
  import opened ReloadRuns

  // ---- Identities ----

  /** Nothing given up on in an apply is younger than the apply. */
  lemma GivenUpBelow(s: ServiceState, d: ConfigDiff, c: GatewayConfig, s': ServiceState, serial: nat)
    requires GivenUp(s, d, c, s') && Below(s, serial)
    ensures forall p :: p in s'.leftoverEntries ==> p.ConnectorProc? && p.id < serial
    ensures forall p :: p in s'.rt.leftovers ==> !p.ConnectorProc? && (p.BackendProc? ==> p.backend.id < serial)
  {
  }

  lemma FleetIds(serial: nat, d: ConfigDiff, c: GatewayConfig, b: Build, look: map<string, Entry>, es: seq<Entry>,
                 top: nat)
    requires Loaded(c) && Fits(d, c) && Built(d, c, serial, b) && FleetInOrder(c, b, look, es)
    requires forall n :: n in look ==> look[n].id < top
    requires b.top <= top
    ensures forall n :: n in Look(es) ==> Look(es)[n].id < top
  {
    FleetLook(c, b, look, es);
  }

  lemma PlacedIds(serial: nat, d: ConfigDiff, c: GatewayConfig, b: Build, look: map<string, Entry>, es: seq<Entry>,
                  top: nat)
    requires Loaded(c) && Fits(d, c) && Built(d, c, serial, b) && Covered(c, b, look)
    requires EntriesSettled(look, c, b, Look(es))
    requires forall n :: n in look ==> look[n].id < top
    requires b.top <= top
    ensures forall n :: n in Look(es) ==> Look(es)[n].id < top
  {
    forall n | n in Look(es) ensures Look(es)[n].id < top {
      if n in CandidateNames(c) {
        var i := ByNameIndex(c.connectors, ConnectorName, n);
        assert n in b.connectors || n in look;
      }
    }
  }

  lemma AgentIds(s: ServiceState, live: set<Proc>, step: Step, after: Moment, reports: seq<Degraded>)
    requires step.Tried? && Fits(step.d, step.c) && step.outcome != Refused
    requires Applied(s, live, step.serial, step.d, step.c, step.outcome, step.b, step.started, after.s, after.live,
      reports)
    requires forall n :: n in s.rt.agents ==> s.rt.agents[n].id < after.serial
    requires step.b.top <= after.serial
    ensures forall n :: n in after.s.rt.agents ==> after.s.rt.agents[n].id < after.serial
    ensures GivenUp(s, step.d, step.c, after.s)
  {
  }

  lemma AppliedBelow(s: ServiceState, live: set<Proc>, base: GatewayConfig, step: Step, after: Moment,
                     reports: seq<Degraded>)
    requires step.Tried? && Loaded(base) && Loaded(step.c) && Fits(step.d, step.c)
    requires Between(s, base, step.c) && Planned(s, step.c, step.d)
    requires Applied(s, live, step.serial, step.d, step.c, step.outcome, step.b, step.started, after.s, after.live,
      reports)
    requires Below(s, after.serial) && step.b.top <= after.serial
    requires BrokersBelow(after.s.rt.brokers, after.s.rt.leftovers, after.serial)
    ensures Below(after.s, after.serial)
  {
    if step.outcome != Refused {
      BetweenCovers(s, base, step.c, step.d, step.b);
      AgentIds(s, live, step, after, reports);
      GivenUpBelow(s, step.d, step.c, after.s, after.serial);
      if step.outcome == Completed {
        FleetIds(step.serial, step.d, step.c, step.b, Look(s.entries), after.s.entries, after.serial);
      } else {
        PlacedIds(step.serial, step.d, step.c, step.b, Look(s.entries), after.s.entries, after.serial);
      }
    }
  }

  /** Along a patient run, whatever is installed or given up on is older than the counter. */
  lemma EventBelow(aim: Aim, m: Moment, e: Event)
    requires Loaded(aim.base) && Holds(aim, m.s) && Below(m.s, m.serial)
    requires Next(m, e)
    requires aim.Retrying? && e.step.Tried? ==> e.step.c == aim.next
    ensures Below(e.after.s, e.after.serial)
  {
    if e.step.Tried? {
      LeftoversHold(aim, m.s, m.live, e.step.before, e.step.running);
      if aim.Settled? { SyncedIsBetween(e.step.before, aim.base, e.step.c); }
      AppliedBelow(e.step.before, e.step.running, aim.base, e.step, e.after, e.reports);
    }
  }

  // ---- What serves keeps serving ----

  lemma RetriedServes(s: ServiceState, live: set<Proc>, serial: nat, s': ServiceState, live': set<Proc>,
                      names: set<string>)
    requires LeftoversRetried(s, live, s', live') && Below(s, serial)
    requires EntriesServe(s, live) && AgentsServe(s, live, names)
    ensures EntriesServe(s', live') && AgentsServe(s', live', names)
  {
  }

  lemma RecoveredServes(s: ServiceState, live: set<Proc>, serial: nat, name: string, failed: set<string>,
                        s': ServiceState,
                        live': set<Proc>, names: set<string>)
    requires s.rt.Valid() && s' == s.(rt := s'.rt) && name in s.rt.unavailable
    requires Started(s.rt, live, serial, {name}, failed, s'.rt, live')
    requires EntriesServe(s, live) && AgentsServe(s, live, names)
    ensures EntriesServe(s', live') && AgentsServe(s', live', names)
  {
  }

  /** An agent the apply neither rebuilds nor removes runs on, its broker beside it. */
  lemma KeptAgentServes(s: ServiceState, live: set<Proc>, serial: nat, next: GatewayConfig, d: ConfigDiff,
                        s': ServiceState, live': set<Proc>, n: string)
    requires Valid(s) && Planned(s, next, d) && Below(s, serial) && AgentsServe(s, live, next.agents.Keys)
    requires GivenUp(s, d, next, s') && StraysRun(s, live, serial, d, live') && BrokersStay(s.rt, live, d, s'.rt, live')
    requires n in s.rt.agents && n in next.agents && n !in RebuiltAgents(d)
    requires n in s'.rt.agents && s'.rt.agents[n] == s.rt.agents[n]
    ensures n !in s.suspects && n !in s.rt.unavailable
    ensures AgentUp(s'.rt, live', n) && BackendProc(s'.rt.agents[n]) !in s'.rt.leftovers
  {
    AgentsPlanned(s, next, d);
    assert !s.rt.Owns(StoppingAgents(d), BackendProc(s.rt.agents[n]));
  }

  lemma FailedServes(s: ServiceState, live: set<Proc>, serial: nat, next: GatewayConfig, d: ConfigDiff, b: Build,
                     started: set<string>, stuck: set<string>, s': ServiceState, live': set<Proc>)
    requires Valid(s) && Planned(s, next, d) && Fits(d, next) && Built(d, next, serial, b) && Below(s, serial)
    requires FailedApply(s, live, serial, d, next, b, started, stuck, s', live')
    requires AgentsServe(s, live, next.agents.Keys)
    ensures EntriesServe(s', live') && AgentsServe(s', live', next.agents.Keys)
  {
    GivenUpBelow(s, d, next, s', serial);
    forall n | n in s'.rt.agents && n in next.agents && n !in s'.suspects
      ensures BackendProc(s'.rt.agents[n]) !in s'.rt.leftovers && AgentUp(s'.rt, live', n)
    {
      KeptAgentServes(s, live, serial, next, d, s', live', n);
    }
  }

  lemma CompletedAgentsServe(s: ServiceState, live: set<Proc>, serial: nat, next: GatewayConfig, d: ConfigDiff,
                             b: Build,
                             s': ServiceState, live': set<Proc>, reports: seq<Degraded>)
    requires Valid(s) && Planned(s, next, d) && Fits(d, next) && Built(d, next, serial, b) && Below(s, serial)
    requires CompletedApply(s, live, serial, d, next, b, s', live', reports)
    requires AgentsServe(s, live, next.agents.Keys)
    ensures AgentsServe(s', live', next.agents.Keys)
  {
    GivenUpBelow(s, d, next, s', serial);
    forall n | n in s'.rt.agents && n in next.agents
      ensures BackendProc(s'.rt.agents[n]) !in s'.rt.leftovers &&
        (n in s'.rt.unavailable || AgentUp(s'.rt, live', n))
    {
      if n !in b.backends {
        KeptAgentServes(s, live, serial, next, d, s', live', n);
      }
    }
  }

  lemma CompletedEntriesServe(s: ServiceState, live: set<Proc>, serial: nat, base: GatewayConfig, next: GatewayConfig,
                              d: ConfigDiff, b: Build, s': ServiceState, live': set<Proc>, reports: seq<Degraded>)
    requires Loaded(base) && Loaded(next)
    requires Between(s, base, next) && Planned(s, next, d) && Fits(d, next) && Built(d, next, serial, b) &&
      Below(s, serial)
    requires CompletedApply(s, live, serial, d, next, b, s', live', reports)
    requires EntriesServe(s, live)
    ensures EntriesServe(s', live')
  {
    FleetLook(next, b, Look(s.entries), s'.entries);
    GivenUpBelow(s, d, next, s', serial);
    forall n | n in Look(s'.entries) && !Look(s'.entries)[n].degraded
      ensures !Look(s'.entries)[n].quiesced
      ensures Instance(Look(s'.entries)[n]) in live' && Instance(Look(s'.entries)[n]) !in s'.leftoverEntries
    {
      var i := LookIndex(s'.entries, n);
      if n !in b.connectors {
        KeptSame(s, base, next, d, n);
        assert Instance(Look(s'.entries)[n]) == Instance(Look(s.entries)[n]);
      }
    }
  }

  /** Exit 0 from a completed apply of a fleet that served: every connector and every agent of the
      candidate runs, no agent without its broker. */
  lemma CleanExitServes(s: ServiceState, live: set<Proc>, serial: nat, base: GatewayConfig, next: GatewayConfig,
                        d: ConfigDiff,
                        b: Build, s': ServiceState, live': set<Proc>, reports: seq<Degraded>)
    requires Loaded(base) && Loaded(next)
    requires Between(s, base, next) && Planned(s, next, d) && Fits(d, next) && Built(d, next, serial, b) &&
      Below(s, serial)
    requires CompletedApply(s, live, serial, d, next, b, s', live', reports) && reports == []
    requires EntriesServe(s, live) && AgentsServe(s, live, next.agents.Keys)
    ensures forall i :: 0 <= i < |s'.entries| ==> Instance(s'.entries[i]) in live'
    ensures forall n :: n in next.agents ==> AgentUp(s'.rt, live', n)
  {
    CleanExit(s, live, serial, base, next, d, b, s', live', reports);
    CompletedSyncs(s, live, serial, base, next, d, b, s', live', reports);
    CompletedEntriesServe(s, live, serial, base, next, d, b, s', live', reports);
    CompletedAgentsServe(s, live, serial, next, d, b, s', live', reports);
    forall i | 0 <= i < |s'.entries| ensures Instance(s'.entries[i]) in live' {
      LookFinds(s'.entries, i);
    }
  }

  // ---- What one reload leaves ----

  /** The fleet is the file's: each connector stands with its definition and each agent with its own,
      healthy, unsuspected, running and taking work. */
  ghost predicate InPlace(m: Moment, c: GatewayConfig) {
    && Look(m.s.entries).Keys == CandidateNames(c)
    && (forall n :: n in Look(m.s.entries) ==> EntryInPlace(m, c, n))
    && m.s.rt.agents.Keys == c.agents.Keys
    && (forall n :: n in m.s.rt.agents ==>
          && m.s.rt.agents[n].def == c.agents[n] && AgentUp(m.s.rt, m.live, n)
          && n !in m.s.rt.unavailable && n !in m.s.suspects)
  }

  ghost predicate EntryInPlace(m: Moment, c: GatewayConfig, n: string)
    requires n in Look(m.s.entries)
  {
    var e := Look(m.s.entries)[n];
    n in CandidateNames(c) && e.cfg == CandidateConnector(c, n) && !e.degraded && !e.quiesced && Instance(e) in m.live
  }

  /** How a reload of `c` that exits 0 went: it completed with nothing to report, or had nothing to do. */
  ghost predicate Clean(e: Event, c: GatewayConfig) {
    || (e.step.Tried? && e.step.c == c && e.step.outcome == Completed && e.reports == [])
    || (e.step == Retried && exists d :: Planned(e.after.s, c, d) && d.Empty())
  }

  /** Exit 0 can be believed: along a patient run it leaves the file in place, its rules included unless
      nothing was done and an earlier apply had failed. */
  lemma CleanLands(aim: Aim, m: Moment, e: Event, c: GatewayConfig)
    requires Loaded(aim.base) && Holds(aim, m.s) && Below(m.s, m.serial) && Serves(aim, m)
    requires Next(m, e) && Clean(e, c) && Loaded(c) && (aim.Retrying? ==> c == aim.next)
    ensures InPlace(e.after, c)
    ensures e.step.Tried? || aim.Settled? ==> RulesInstalled(c, e.after.s.entries)
  {
    if e.step.Tried? {
      TriedLands(aim, m, e);
    } else {
      EventHolds(aim, m, e);
      EventServes(aim, m, e);
      NothingDoneLands(aim, e.after, c);
    }
  }

  lemma TriedLands(aim: Aim, m: Moment, e: Event)
    requires Loaded(aim.base) && Holds(aim, m.s) && Below(m.s, m.serial) && Serves(aim, m)
    requires Next(m, e) && e.step.Tried? && e.step.outcome == Completed && e.reports == []
    requires aim.Retrying? ==> e.step.c == aim.next
    ensures InPlace(e.after, e.step.c) && RulesInstalled(e.step.c, e.after.s.entries)
  {
    RetriedServes(m.s, m.live, m.serial, e.step.before, e.step.running, Concerned(aim));
    LeftoversHold(aim, m.s, m.live, e.step.before, e.step.running);
    if aim.Settled? { SyncedIsBetween(e.step.before, aim.base, e.step.c); }
    CompletedLands(aim.base, e.step, e.after);
  }

  lemma CompletedLands(base: GatewayConfig, step: Step, after: Moment)
    requires step.Tried? && step.outcome == Completed && Loaded(base) && Loaded(step.c) && Fits(step.d, step.c)
    requires Between(step.before, base, step.c) && Planned(step.before, step.c, step.d) &&
      Below(step.before, step.serial)
    requires EntriesServe(step.before, step.running) && AgentsServe(step.before, step.running, step.c.agents.Keys)
    requires Built(step.d, step.c, step.serial, step.b)
    requires CompletedApply(step.before, step.running, step.serial, step.d, step.c, step.b, after.s, after.live, [])
    ensures InPlace(after, step.c) && RulesInstalled(step.c, after.s.entries)
  {
    CompletedSyncs(step.before, step.running, step.serial, base, step.c, step.d, step.b, after.s, after.live, []);
    CleanExit(step.before, step.running, step.serial, base, step.c, step.d, step.b, after.s, after.live, []);
    CleanExitServes(step.before, step.running, step.serial, base, step.c, step.d, step.b, after.s, after.live, []);
    SyncedLook(after.s, step.c);
    forall n | n in Look(after.s.entries) ensures EntryInPlace(after, step.c, n) {
      var i := LookIndex(after.s.entries, n);
    }
  }

  lemma NothingDoneLands(aim: Aim, m: Moment, c: GatewayConfig)
    requires Loaded(aim.base) && Loaded(c) && Holds(aim, m.s) && Serves(aim, m)
    requires aim.Retrying? ==> c == aim.next
    requires exists d :: Planned(m.s, c, d) && d.Empty()
    ensures InPlace(m, c) && (aim.Settled? ==> RulesInstalled(c, m.s.entries))
  {
    var d :| Planned(m.s, c, d) && d.Empty();
    if aim.Settled? { SyncedIsBetween(m.s, aim.base, c); }
    NothingToDo(m.s, aim.base, c, d);
    SameRulesWhen(aim.base.watcherRules, c.watcherRules);
    forall n | n in Look(m.s.entries) ensures EntryInPlace(m, c, n) { }
    forall n | n in m.s.rt.agents ensures AgentUp(m.s.rt, m.live, n) {
      assert n in Concerned(aim);
    }
  }

  /** What an apply that fails leaves of the connectors it kept: they run on as the objects they were,
      and take work again unless their manager would not. */
  ghost predicate KeptServe(m: Moment, e: Event)
    requires e.step.Tried? && e.step.outcome.Failed?
  {
    forall n :: n in CandidateNames(e.step.c) && n !in RebuiltConnectors(e.step.d) ==>
      n in Look(m.s.entries) && n in Look(e.after.s.entries) && KeptServes(m, e, n)
  }

  ghost predicate KeptServes(m: Moment, e: Event, n: string)
    requires e.step.Tried? && e.step.outcome.Failed?
    requires n in Look(m.s.entries) && n in Look(e.after.s.entries)
  {
    var was, is_ := Look(m.s.entries)[n], Look(e.after.s.entries)[n];
    SameInstance(was, is_) && Instance(is_) in e.after.live && (is_.quiesced ==> n in e.step.outcome.stuck)
  }

  lemma FailedKeepsServing(aim: Aim, m: Moment, e: Event)
    requires Loaded(aim.base) && Holds(aim, m.s) && Below(m.s, m.serial) && Serves(aim, m)
    requires Next(m, e) && e.step.Tried? && e.step.outcome.Failed?
    requires aim.Retrying? ==> e.step.c == aim.next
    ensures KeptServe(m, e)
  {
    var s, live := e.step.before, e.step.running;
    RetriedServes(m.s, m.live, m.serial, s, live, Concerned(aim));
    LeftoversHold(aim, m.s, m.live, s, live);
    if aim.Settled? { SyncedIsBetween(s, aim.base, e.step.c); }
    forall n | n in CandidateNames(e.step.c) && n !in RebuiltConnectors(e.step.d)
      ensures n in Look(m.s.entries) && n in Look(e.after.s.entries) && KeptServes(m, e, n)
    {
      KeptSame(s, aim.base, e.step.c, e.step.d, n);
    }
  }

  // ---- Whole runs ----

  /** Every connector that is not degraded runs; every agent that is neither unavailable nor suspect
      does, of those the aim is about. Nothing is suspect once an apply has completed. */
  ghost predicate Serves(aim: Aim, m: Moment) {
    && EntriesServe(m.s, m.live) && AgentsServe(m.s, m.live, Concerned(aim))
    && (aim.Settled? ==> m.s.suspects == {})
  }

  function Concerned(aim: Aim): set<string> {
    if aim.Settled? then aim.base.agents.Keys else aim.next.agents.Keys
  }

  lemma EventServes(aim: Aim, m: Moment, e: Event)
    requires Loaded(aim.base) && Holds(aim, m.s) && Below(m.s, m.serial) && Serves(aim, m)
    requires Next(m, e)
    requires aim.Retrying? && e.step.Tried? ==> e.step.c == aim.next
    ensures Serves(AimAfter(aim, e.step), e.after)
  {
    match e.step
    case Untouched =>
    case Retried =>
      RetriedServes(m.s, m.live, m.serial, e.after.s, e.after.live, Concerned(aim));
    case Recovered(name, serial, failed) =>
      RecoveredServes(m.s, m.live, serial, name, failed, e.after.s, e.after.live, Concerned(aim));
    case Tried(s1, live1, serial, d, c, outcome, b, started) =>
      RetriedServes(m.s, m.live, m.serial, s1, live1, Concerned(aim));
      LeftoversHold(aim, m.s, m.live, s1, live1);
      TriedServes(aim, e.step, e.after, e.reports);
  }

  lemma TriedServes(aim: Aim, step: Step, after: Moment, reports: seq<Degraded>)
    requires step.Tried? && Loaded(aim.base) && Loaded(step.c) && Fits(step.d, step.c)
    requires Holds(aim, step.before) && Planned(step.before, step.c, step.d) && Below(step.before, step.serial)
    requires Serves(aim, Moment(step.before, step.running, step.serial))
    requires Applied(step.before, step.running, step.serial, step.d, step.c, step.outcome, step.b, step.started,
                     after.s, after.live, reports)
    requires aim.Retrying? ==> step.c == aim.next
    ensures Serves(AimAfter(aim, step), after)
  {
    if step.outcome != Refused {
      if aim.Settled? { SyncedIsBetween(step.before, aim.base, step.c); }
      TryServes(aim.base, step, after, reports);
    }
  }

  lemma TryServes(base: GatewayConfig, step: Step, after: Moment, reports: seq<Degraded>)
    requires step.Tried? && Loaded(base) && Loaded(step.c) && Fits(step.d, step.c)
    requires Between(step.before, base, step.c) && Planned(step.before, step.c, step.d) &&
      Below(step.before, step.serial)
    requires EntriesServe(step.before, step.running) && AgentsServe(step.before, step.running, step.c.agents.Keys)
    requires Applied(step.before, step.running, step.serial, step.d, step.c, step.outcome, step.b, step.started,
                     after.s, after.live, reports)
    ensures EntriesServe(after.s, after.live) && AgentsServe(after.s, after.live, step.c.agents.Keys)
  {
    match step.outcome
    case Refused =>
    case Failed(stuck) =>
      FailedServes(step.before, step.running, step.serial, step.c, step.d, step.b, step.started, stuck, after.s,
        after.live);
    case Unsettled =>
      BetweenCovers(step.before, base, step.c, step.d, step.b);
    case Completed =>
      CompletedAgentsServe(step.before, step.running, step.serial, step.c, step.d, step.b, after.s, after.live,
        reports);
      CompletedEntriesServe(step.before, step.running, step.serial, base, step.c, step.d, step.b, after.s, after.live,
        reports);
  }

  /** The fleet serves: along a patient run every connector runs unless `status` shows it degraded, and
      on a configuration that applied completely every agent runs unless it shows as unavailable. */
  lemma {:induction false} PatientRunsServe(aim: Aim, m: Moment, es: seq<Event>)
    requires Loaded(aim.base) && Holds(aim, m.s) && Below(m.s, m.serial) && Serves(aim, m)
    requires Run(m, es) && Patient(aim, es)
    ensures Serves(AimAtEnd(aim, es), Last(m, es)) && Below(Last(m, es).s, Last(m, es).serial)
    ensures AimAtEnd(aim, es).Settled? ==> forall n :: n in AimAtEnd(aim, es).base.agents ==>
      Available(Last(m, es), n) || n in Last(m, es).s.rt.unavailable
    decreases |es|
  {
    if es != [] {
      RunUnfolds(m, es);
      EventHolds(aim, m, es[0]);
      EventBelow(aim, m, es[0]);
      EventServes(aim, m, es[0]);
      PatientRunsServe(AimAfter(aim, es[0].step), es[0].after, es[1..]);
    }
  }

  ghost predicate Available(m: Moment, n: string) {
    AgentUp(m.s.rt, m.live, n)
  }
}
