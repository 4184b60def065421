/** What whole sequences of reloads guarantee (gateway/service.py reload_config, _apply_reload). */
module ReloadRuns {
  import opened Values
  import opened Configs
  import opened Runtime
  import opened ReloadSpec
  import opened ReloadPlanning

  datatype Moment = Moment(s: ServiceState, live: set<Proc>, serial: nat)

  datatype Event = Event(step: Step, reports: seq<Degraded>, after: Moment)

  /** One request, as `ReloadConfig` promises it. */
  ghost predicate Next(m: Moment, e: Event) {
    && Reloaded(m.s, m.live, e.step, e.after.s, e.after.live, e.reports)
    && m.serial <= e.after.serial
    && (BrokersBelow(m.s.rt.brokers, m.s.rt.leftovers, m.serial) ==>
          BrokersBelow(e.after.s.rt.brokers, e.after.s.rt.leftovers, e.after.serial))
    && (e.step.Tried? ==> m.serial <= e.step.serial && e.step.b.top <= e.after.serial)
  }

  ghost predicate Run(m: Moment, es: seq<Event>)
    decreases |es|
  {
    es == [] || (Next(m, es[0]) && Run(es[0].after, es[1..]))
  }

  function Last(m: Moment, es: seq<Event>): Moment {
    if es == [] then m else es[|es| - 1].after
  }

  lemma RunUnfolds(m: Moment, es: seq<Event>)
    requires Run(m, es) && es != []
    ensures Next(m, es[0]) && Run(es[0].after, es[1..])
    ensures Last(es[0].after, es[1..]) == Last(m, es)
  {
  }

  /** Where a run stands: on a configuration that applied completely, or retrying one whose last
      apply failed part-way. */
  datatype Aim = Settled(base: GatewayConfig) | Retrying(base: GatewayConfig, next: GatewayConfig)

  function AimAfter(aim: Aim, step: Step): Aim {
    if !step.Tried? then aim
    else match step.outcome
      case Refused => aim
      case Failed(_) => Retrying(aim.base, step.c)
      case Unsettled => Retrying(aim.base, step.c)
      case Completed => Settled(step.c)
  }

  function AimAtEnd(aim: Aim, es: seq<Event>): Aim
    decreases |es|
  {
    if es == [] then aim else AimAtEnd(AimAfter(aim, es[0].step), es[1..])
  }

  /** A candidate whose apply failed is retried until it completes. */
  ghost predicate Patient(aim: Aim, es: seq<Event>)
    decreases |es|
  {
    es == [] || (
      && (aim.Retrying? && es[0].step.Tried? ==> es[0].step.c == aim.next)
      && Patient(AimAfter(aim, es[0].step), es[1..]))
  }

  // ---- Between two configurations ----

  ghost predicate DefinedBy(c: GatewayConfig, n: string, e: Entry) {
    n in CandidateNames(c) && e.cfg == CandidateConnector(c, n)
  }

  ghost predicate BackendOf(c: GatewayConfig, n: string, b: Backend) {
    n in c.agents && b.def == c.agents[n]
  }

  /** Part-way from `base` to `next`: everything has one or the other's definition, what both name
      is present, and an agent only `next` names is suspect. */
  ghost predicate Between(s: ServiceState, base: GatewayConfig, next: GatewayConfig) {
    && Valid(s) && s.config == base
    && EntriesDefined(base, next, Look(s.entries))
    && (forall n :: n in CandidateNames(base) && n in CandidateNames(next) ==> n in Look(s.entries))
    && AgentsBetweenConfigs(base, next, s.rt.agents)
    && (forall n :: n in s.rt.agents && n !in base.agents ==> n in s.suspects)
  }

  ghost predicate Holds(aim: Aim, s: ServiceState) {
    match aim
    case Settled(base) => Valid(s) && Synced(s, base)
    case Retrying(base, next) => Between(s, base, next)
  }

  lemma {:induction false} SyncedLook(s: ServiceState, c: GatewayConfig)
    requires Valid(s) && Synced(s, c) && Loaded(c)
    ensures Look(s.entries).Keys == CandidateNames(c)
    ensures forall n :: n in Look(s.entries) ==> Look(s.entries)[n].cfg == CandidateConnector(c, n)
  {
    forall n | n in Look(s.entries)
      ensures n in CandidateNames(c) && Look(s.entries)[n].cfg == CandidateConnector(c, n) {
      var i := LookIndex(s.entries, n);
      CandidateFinds(c, i);
    }
    forall n | n in CandidateNames(c) ensures n in Look(s.entries) {
      var i := ByNameIndex(c.connectors, ConnectorName, n);
      LookFinds(s.entries, i);
    }
  }

  lemma SyncedIsBetween(s: ServiceState, base: GatewayConfig, next: GatewayConfig)
    requires Valid(s) && Synced(s, base) && Loaded(base)
    ensures Between(s, base, next)
  {
    SyncedLook(s, base);
  }

  // ---- One apply from there ----

  lemma KeptSame(s: ServiceState, base: GatewayConfig, next: GatewayConfig, d: ConfigDiff, n: string)
    requires Between(s, base, next) && Planned(s, next, d) && Loaded(base) && Loaded(next)
    requires n in CandidateNames(next) && n !in RebuiltConnectors(d)
    ensures n in Look(s.entries) && Look(s.entries)[n].cfg == CandidateConnector(next, n)
    ensures !Look(s.entries)[n].degraded
  {
    PlannedFits(s, next, d);
    var f := DiffConfigs(base, next);
    assert n !in f.connectors.added && n !in f.connectors.changed;
  }

  lemma BetweenCovers(s: ServiceState, base: GatewayConfig, next: GatewayConfig, d: ConfigDiff, b: Build)
    requires Between(s, base, next) && Planned(s, next, d) && Loaded(base) && Loaded(next)
    requires b.connectors.Keys == RebuiltConnectors(d)
    ensures Covered(next, b, Look(s.entries))
  {
    forall i | 0 <= i < |next.connectors|
      ensures next.connectors[i].name in b.connectors || next.connectors[i].name in Look(s.entries) {
      CandidateFinds(next, i);
      if next.connectors[i].name !in b.connectors {
        KeptSame(s, base, next, d, next.connectors[i].name);
      }
    }
  }

  /** Retrying a candidate folds in whatever its failed applies left running. */
  lemma BetweenHasNoStray(s: ServiceState, live: set<Proc>, base: GatewayConfig, next: GatewayConfig, d: ConfigDiff)
    requires Between(s, base, next) && Planned(s, next, d)
    ensures NoStray(s.rt, live, d)
  {
    AgentsPlanned(s, next, d);
  }

  /** What planning does to the agents, name by name. */
  ghost predicate AgentPlan(base: map<string, AgentConfig>, next: map<string, AgentConfig>, doubtful: set<string>,
                            changes: EntityChanges)
  {
    && (forall n :: n in changes.added <==> n in next && n !in base)
    && (forall n :: n in changes.removed <==> n in base && n !in next)
    && changes.changed <= next.Keys
    && (forall n :: n in base && n in next && base[n] != next[n] ==> n in changes.changed)
    && (forall n :: n in doubtful && n in next ==> n in changes.changed)
  }

  lemma AgentsPlanned(s: ServiceState, next: GatewayConfig, d: ConfigDiff)
    requires Planned(s, next, d)
    ensures AgentPlan(s.config.agents, next.agents, s.rt.unavailable + s.suspects, d.agents)
  {
    var f := DiffConfigs(s.config, next);
    assert d.agents.added == f.agents.added && f.agents.changed <= d.agents.changed &&
      d.agents.removed == f.agents.removed;
  }

  ghost predicate AgentsBetweenConfigs(base: GatewayConfig, next: GatewayConfig, agents: map<string, Backend>) {
    && (forall n :: n in agents ==> BackendOf(base, n, agents[n]) || BackendOf(next, n, agents[n]))
    && (forall n :: n in base.agents && n in next.agents ==> n in agents)
  }

  /** What the apply would keep as it stands already is the candidate's: every connector not built
      anew has an entry of the candidate's definition, every agent not built anew is installed with the
      candidate's, and no other agent stays. */
  ghost predicate KeptUpToDate(s: ServiceState, c: GatewayConfig, d: ConfigDiff) {
    && (forall n :: n in CandidateNames(c) && n !in RebuiltConnectors(d) ==>
          n in Look(s.entries) && Look(s.entries)[n].cfg == CandidateConnector(c, n))
    && (forall n :: n in c.agents && n !in RebuiltAgents(d) ==> BackendUpToDate(s.rt.agents, c, n))
    && (forall n :: n in s.rt.agents && n !in d.agents.removed && n !in RebuiltAgents(d) ==> n in c.agents)
  }

  ghost predicate BackendUpToDate(agents: map<string, Backend>, c: GatewayConfig, n: string) {
    n in agents && BackendOf(c, n, agents[n])
  }

  lemma AgentsSyncIff(agents: map<string, Backend>, c: GatewayConfig, d: ConfigDiff, serial: nat, b: Build,
                      agents': map<string, Backend>)
    requires Fits(d, c) && Built(d, c, serial, b) && AgentsReplaced(agents, d.agents.removed, b, agents')
    ensures (agents'.Keys == c.agents.Keys && forall n :: n in agents' ==> agents'[n].def == c.agents[n]) <==>
      ((forall n :: n in c.agents && n !in RebuiltAgents(d) ==> BackendUpToDate(agents, c, n))
       && (forall n :: n in agents && n !in d.agents.removed && n !in RebuiltAgents(d) ==> n in c.agents))
  {
    if agents'.Keys == c.agents.Keys && forall n :: n in agents' ==> agents'[n].def == c.agents[n] {
      forall n | n in c.agents && n !in RebuiltAgents(d) ensures BackendUpToDate(agents, c, n) {
        assert n in agents' && agents'[n].def == c.agents[n];
      }
      forall n | n in agents && n !in d.agents.removed && n !in RebuiltAgents(d) ensures n in c.agents {
        assert n in agents';
      }
    }
  }

  lemma SlotSyncs(d: ConfigDiff, c: GatewayConfig, b: Build, look: map<string, Entry>, es: seq<Entry>, i: nat)
    requires Loaded(c) && b.connectors.Keys == RebuiltConnectors(d)
    requires FleetInOrder(c, b, look, es) && i < |es|
    ensures c.connectors[i].name in CandidateNames(c) && CandidateConnector(c, c.connectors[i].name) == c.connectors[i]
    ensures var n := c.connectors[i].name;
      es[i].cfg == c.connectors[i] <==> n in RebuiltConnectors(d) || (n in look && look[n].cfg == c.connectors[i])
  {
    CandidateFinds(c, i);
    assert FillsSlot(c.connectors[i], b, look, es[i]);
  }

  lemma FleetSyncsIff(d: ConfigDiff, c: GatewayConfig, b: Build, look: map<string, Entry>, es: seq<Entry>)
    requires Loaded(c) && b.connectors.Keys == RebuiltConnectors(d) && FleetInOrder(c, b, look, es)
    ensures (forall i :: 0 <= i < |es| ==> es[i].cfg == c.connectors[i]) <==>
      (forall n :: n in CandidateNames(c) && n !in RebuiltConnectors(d) ==>
        n in look && look[n].cfg == CandidateConnector(c, n))
    ensures forall i :: 0 <= i < |es| ==> es[i].cfg.name == c.connectors[i].name
  {
    forall i | 0 <= i < |es| ensures es[i].cfg.name == c.connectors[i].name {
      assert FillsSlot(c.connectors[i], b, look, es[i]);
    }
    if forall i :: 0 <= i < |es| ==> es[i].cfg == c.connectors[i] {
      forall n | n in CandidateNames(c) && n !in RebuiltConnectors(d)
        ensures n in look && look[n].cfg == CandidateConnector(c, n) {
        var i := ByNameIndex(c.connectors, ConnectorName, n);
        SlotSyncs(d, c, b, look, es, i);
      }
    } else {
      var i :| 0 <= i < |es| && es[i].cfg != c.connectors[i];
      SlotSyncs(d, c, b, look, es, i);
    }
  }

  /** A completed apply, of whatever plan and from whatever state, leaves the candidate's fleet exactly
      when what it kept was the candidate's already. */
  lemma CompletedSyncsIff(s: ServiceState, live: set<Proc>, serial: nat, d: ConfigDiff, c: GatewayConfig, b: Build,
                          s': ServiceState, live': set<Proc>, reports: seq<Degraded>)
    requires Loaded(c) && Valid(s) && Fits(d, c) && Built(d, c, serial, b)
    requires CompletedApply(s, live, serial, d, c, b, s', live', reports)
    ensures Synced(s', c) <==> KeptUpToDate(s, c, d)
  {
    AgentsSyncIff(s.rt.agents, c, d, serial, b, s'.rt.agents);
    FleetSyncsIff(d, c, b, Look(s.entries), s'.entries);
  }

  lemma BetweenAgentsUpToDate(agents: map<string, Backend>, base: GatewayConfig, next: GatewayConfig,
                              doubtful: set<string>, d: ConfigDiff)
    requires AgentsBetweenConfigs(base, next, agents)
    requires AgentPlan(base.agents, next.agents, doubtful, d.agents)
    ensures forall n :: n in next.agents && n !in RebuiltAgents(d) ==> BackendUpToDate(agents, next, n)
    ensures forall n :: n in agents && n !in d.agents.removed && n !in RebuiltAgents(d) ==> n in next.agents
  {
  }

  /** Retrying the candidate meets the condition. */
  lemma BetweenUpToDate(s: ServiceState, base: GatewayConfig, next: GatewayConfig, d: ConfigDiff)
    requires Loaded(base) && Loaded(next) && Between(s, base, next) && Planned(s, next, d)
    ensures KeptUpToDate(s, next, d)
  {
    AgentsPlanned(s, next, d);
    BetweenAgentsUpToDate(s.rt.agents, base, next, s.rt.unavailable + s.suspects, d);
    forall n | n in CandidateNames(next) && n !in RebuiltConnectors(d)
      ensures n in Look(s.entries) && Look(s.entries)[n].cfg == CandidateConnector(next, n)
    {
      KeptSame(s, base, next, d, n);
    }
  }

  lemma CompletedSyncs(s: ServiceState, live: set<Proc>, serial: nat, base: GatewayConfig, next: GatewayConfig,
                       d: ConfigDiff, b: Build, s': ServiceState, live': set<Proc>, reports: seq<Degraded>)
    requires Loaded(base) && Loaded(next)
    requires Between(s, base, next) && Planned(s, next, d) && Fits(d, next) && Built(d, next, serial, b)
    requires CompletedApply(s, live, serial, d, next, b, s', live', reports)
    ensures Synced(s', next)
  {
    BetweenUpToDate(s, base, next, d);
    CompletedSyncsIff(s, live, serial, d, next, b, s', live', reports);
  }

  lemma AgentsStayBetween(agents: map<string, Backend>, suspects: set<string>, base: GatewayConfig, next: GatewayConfig,
                          doubtful: set<string>, d: ConfigDiff, serial: nat, b: Build, agents': map<string, Backend>)
    requires AgentsBetweenConfigs(base, next, agents)
    requires forall n :: n in agents && n !in base.agents ==> n in suspects
    requires AgentPlan(base.agents, next.agents, doubtful, d.agents)
    requires Fits(d, next) && Built(d, next, serial, b)
    requires AgentsBetween(agents, d.agents.removed, b, agents')
    ensures AgentsBetweenConfigs(base, next, agents')
    ensures forall n :: n in agents' && n !in base.agents ==> n in suspects + b.backends.Keys
  {
  }

  lemma FailedStaysBetween(s: ServiceState, live: set<Proc>, serial: nat, base: GatewayConfig, next: GatewayConfig,
                           d: ConfigDiff, b: Build, started: set<string>, stuck: set<string>, s': ServiceState,
                           live': set<Proc>)
    requires Between(s, base, next) && Planned(s, next, d) && Fits(d, next) && Built(d, next, serial, b)
    requires FailedApply(s, live, serial, d, next, b, started, stuck, s', live')
    ensures Between(s', base, next)
  {
    AgentsPlanned(s, next, d);
    AgentsStayBetween(s.rt.agents, s.suspects, base, next, s.rt.unavailable + s.suspects, d, serial, b, s'.rt.agents);
    EntriesStayBetween(Look(s.entries), base, next, b, Look(s'.entries));
  }

  ghost predicate EntriesDefined(base: GatewayConfig, next: GatewayConfig, look: map<string, Entry>) {
    forall n :: n in look ==> DefinedBy(base, n, look[n]) || DefinedBy(next, n, look[n])
  }

  lemma EntriesStayBetween(look: map<string, Entry>, base: GatewayConfig, next: GatewayConfig, b: Build,
                           look': map<string, Entry>)
    requires EntriesDefined(base, next, look) && EntriesSettled(look, next, b, look')
    ensures EntriesDefined(base, next, look')
  {
  }

  // ---- Whole runs ----

  /** One event of a patient run keeps what its aim says. */
  lemma EventHolds(aim: Aim, m: Moment, e: Event)
    requires Loaded(aim.base) && Holds(aim, m.s)
    requires Next(m, e)
    requires aim.Retrying? && e.step.Tried? ==> e.step.c == aim.next
    ensures Holds(AimAfter(aim, e.step), e.after.s)
    ensures Loaded(AimAfter(aim, e.step).base)
  {
    match e.step
    case Untouched =>
    case Retried =>
      LeftoversHold(aim, m.s, m.live, e.after.s, e.after.live);
    case Recovered(name, serial, failed) =>
    case Tried(s1, live1, serial, d, c, outcome, b, started) =>
      LeftoversHold(aim, m.s, m.live, s1, live1);
      if aim.Settled? { SyncedIsBetween(s1, aim.base, c); }
      if outcome.Failed? {
        FailedStaysBetween(s1, live1, serial, aim.base, c, d, b, started, outcome.stuck, e.after.s, e.after.live);
      } else if outcome == Completed {
        CompletedSyncs(s1, live1, serial, aim.base, c, d, b, e.after.s, e.after.live, e.reports);
      } else if outcome == Unsettled {
        BetweenCovers(s1, aim.base, c, d, b);
      }
  }

  lemma LeftoversHold(aim: Aim, s: ServiceState, live: set<Proc>, s': ServiceState, live': set<Proc>)
    requires Holds(aim, s) && LeftoversRetried(s, live, s', live')
    ensures Holds(aim, s')
  {
  }

  /** Convergence: a run that retries each failed candidate until it completes leaves, at every
      point, exactly the last configuration that completed, or a state between that and the one
      being retried. */
  lemma {:induction false} PatientRunsConverge(aim: Aim, m: Moment, es: seq<Event>)
    requires Loaded(aim.base) && Holds(aim, m.s)
    requires Run(m, es) && Patient(aim, es)
    ensures Holds(AimAtEnd(aim, es), Last(m, es).s)
    decreases |es|
  {
    if es != [] {
      RunUnfolds(m, es);
      EventHolds(aim, m, es[0]);
      PatientRunsConverge(AimAfter(aim, es[0].step), es[0].after, es[1..]);
    }
  }

  /** One event of a patient run loses no process. */
  lemma EventConserves(aim: Aim, m: Moment, e: Event)
    requires Loaded(aim.base) && Holds(aim, m.s) && Sound(m.s, m.live)
    requires Next(m, e)
    requires aim.Retrying? && e.step.Tried? ==> e.step.c == aim.next
    ensures Sound(e.after.s, e.after.live)
  {
    match e.step
    case Untouched =>
    case Retried =>
      RetrySound(m.s, m.live, e.after.s, e.after.live);
    case Recovered(name, serial, failed) =>
      StartSound(m.s, m.live, serial, {name}, failed, e.after.s, e.after.live);
    case Tried(s1, live1, serial, d, c, outcome, b, started) =>
      RetrySound(m.s, m.live, s1, live1);
      LeftoversHold(aim, m.s, m.live, s1, live1);
      if aim.Settled? { SyncedIsBetween(s1, aim.base, c); }
      TryConserves(aim.base, e.step, e.after, e.reports);
  }

  lemma TryConserves(base: GatewayConfig, step: Step, after: Moment, reports: seq<Degraded>)
    requires step.Tried? && Loaded(base) && Loaded(step.c) && Fits(step.d, step.c)
    requires Between(step.before, base, step.c) && Planned(step.before, step.c, step.d) &&
      Sound(step.before, step.running)
    requires Applied(step.before, step.running, step.serial, step.d, step.c, step.outcome, step.b, step.started,
                     after.s, after.live, reports)
    ensures Sound(after.s, after.live)
  {
    BetweenHasNoStray(step.before, step.running, base, step.c, step.d);
    if step.outcome == Unsettled { BetweenCovers(step.before, base, step.c, step.d, step.b); }
  }

  /** Conservation: along a patient run, whatever started and has not stopped cleanly can still be
      reached for a later stop. */
  lemma {:induction false} PatientRunsConserve(aim: Aim, m: Moment, es: seq<Event>)
    requires Loaded(aim.base) && Holds(aim, m.s) && Sound(m.s, m.live)
    requires Run(m, es) && Patient(aim, es)
    ensures Sound(Last(m, es).s, Last(m, es).live)
    decreases |es|
  {
    if es != [] {
      RunUnfolds(m, es);
      EventHolds(aim, m, es[0]);
      EventConserves(aim, m, es[0]);
      PatientRunsConserve(AimAfter(aim, es[0].step), es[0].after, es[1..]);
    }
  }

  // ---- What a plan, and an exit code, can be trusted for ----

  /** A reload that finds nothing to do: the fleet already is the candidate's, and healthy. */
  lemma NothingToDo(s: ServiceState, base: GatewayConfig, next: GatewayConfig, d: ConfigDiff)
    requires Loaded(base) && Loaded(next)
    requires Between(s, base, next) && Planned(s, next, d) && d.Empty()
    ensures Look(s.entries).Keys == CandidateNames(next)
    ensures forall n :: n in Look(s.entries) ==>
      Look(s.entries)[n].cfg == CandidateConnector(next, n) && !Look(s.entries)[n].degraded
    ensures s.rt.agents.Keys == next.agents.Keys
    ensures forall n :: n in s.rt.agents ==>
      s.rt.agents[n].def == next.agents[n] && n !in s.rt.unavailable && n !in s.suspects
  {
    AgentsPlanned(s, next, d);
    forall n | n in CandidateNames(next)
      ensures n in Look(s.entries) && Look(s.entries)[n].cfg == CandidateConnector(next, n) &&
        !Look(s.entries)[n].degraded
    {
      KeptSame(s, base, next, d, n);
    }
    forall n | n in Look(s.entries) ensures n in CandidateNames(next) {
      assert n !in d.connectors.removed;
    }
    forall n | n in next.agents ensures n in base.agents && n in s.rt.agents {
      assert n !in d.agents.added;
    }
    forall n | n in s.rt.agents ensures n in next.agents && s.rt.agents[n].def == next.agents[n] {
      assert n !in d.agents.removed && n !in d.agents.changed;
    }
  }

  /** The identity of what runs: kept exactly when the connector's definition is unchanged and its
      entry healthy; otherwise an object that was never there before. */
  lemma CompletedIdentity(s: ServiceState, live: set<Proc>, serial: nat, base: GatewayConfig, next: GatewayConfig,
                          d: ConfigDiff, b: Build, s': ServiceState, live': set<Proc>, reports: seq<Degraded>,
                            n: string)
    requires Loaded(base) && Loaded(next)
    requires Between(s, base, next) && Planned(s, next, d) && Fits(d, next) && Built(d, next, serial, b)
    requires CompletedApply(s, live, serial, d, next, b, s', live', reports)
    requires n in CandidateNames(next)
    requires forall m :: m in Look(s.entries) ==> Look(s.entries)[m].id < serial
    ensures n in Look(s'.entries)
    ensures (n in CandidateNames(base) && CandidateConnector(base, n) == CandidateConnector(next, n) &&
      !Look(s.entries)[n].degraded)
      <==> (exists m :: m in Look(s.entries) && Look(s.entries)[m].id == Look(s'.entries)[n].id)
    ensures n !in RebuiltConnectors(d) ==> n in Look(s.entries) && Look(s.entries)[n].id == Look(s'.entries)[n].id
  {
    FleetLook(next, b, Look(s.entries), s'.entries);
    if n !in RebuiltConnectors(d) {
      KeptSame(s, base, next, d, n);
      assert SameInstance(Look(s.entries)[n], Look(s'.entries)[n]);
      assert n !in DiffConfigs(base, next).connectors.changed;
    } else {
      RebuiltBecause(s, base, next, d, n);
    }
  }

  lemma RebuiltBecause(s: ServiceState, base: GatewayConfig, next: GatewayConfig, d: ConfigDiff, n: string)
    requires Between(s, base, next) && Planned(s, next, d) && n in RebuiltConnectors(d)
    ensures n !in CandidateNames(base) || CandidateConnector(base, n) != CandidateConnector(next, n) ||
      Look(s.entries)[n].degraded
  {
    var f := DiffConfigs(base, next);
    if n !in f.connectors.added && n !in f.connectors.changed {
      var e :| e in s.entries && e.degraded && e.cfg.name == n;
      var i :| 0 <= i < |s.entries| && s.entries[i] == e;
      LookFinds(s.entries, i);
    }
  }

  /** A failed apply exits 2, unless it rebuilt no agent, started nothing, and found every entry
      already degraded. */
  lemma FailedExit(s: ServiceState, live: set<Proc>, serial: nat, d: ConfigDiff, c: GatewayConfig, b: Build,
                   started: set<string>, stuck: set<string>, s': ServiceState, live': set<Proc>, reports: seq<Degraded>)
    requires Planned(s, c, d) && Fits(d, c)
    requires Applied(s, live, serial, d, c, Failed(stuck), b, started, s', live', reports)
    ensures reports == [] ==> b.backends == map[] && started == {}
    ensures reports == [] ==> forall n :: n in Look(s'.entries) ==> n in Look(s.entries) && Look(s.entries)[n].degraded
  {
    PlannedFits(s, c, d);
    if reports == [] {
      forall n | n in Look(s'.entries) ensures n in Look(s.entries) && Look(s.entries)[n].degraded {
        var i := LookIndex(s'.entries, n);
      }
    }
    assert forall n :: n in b.backends ==> Degraded(AgentSection, n) in reports;
    assert reports == [] ==> b.backends.Keys == {};
  }

  /** Exit 0 from a completed apply: no connector is degraded, every rebuilt one runs, and every
      agent of the candidate is available, the rebuilt ones up with their brokers. */
  lemma CleanExit(s: ServiceState, live: set<Proc>, serial: nat, base: GatewayConfig, next: GatewayConfig,
                  d: ConfigDiff, b: Build,
                  s': ServiceState, live': set<Proc>, reports: seq<Degraded>)
    requires Loaded(base) && Loaded(next)
    requires Between(s, base, next) && Planned(s, next, d) && Fits(d, next) && Built(d, next, serial, b)
    requires CompletedApply(s, live, serial, d, next, b, s', live', reports) && reports == []
    ensures forall i :: 0 <= i < |s'.entries| ==> !s'.entries[i].degraded
    ensures forall i :: 0 <= i < |s'.entries| && s'.entries[i].cfg.name in b.connectors ==>
      Instance(s'.entries[i]) in live'
    ensures forall n :: n in next.agents ==> n !in s'.rt.unavailable
    ensures forall n :: n in b.backends ==> AgentUp(s'.rt, live', n)
  {
    PlannedFits(s, next, d);
    AgentsPlanned(s, next, d);
    forall i | 0 <= i < |s'.entries| ensures !s'.entries[i].degraded {
      if s'.entries[i].degraded {
        FleetLook(next, b, Look(s.entries), s'.entries);
        LookFinds(s'.entries, i);
      }
    }
    forall n | n in b.backends ensures n !in s'.rt.unavailable && AgentUp(s'.rt, live', n) {
    }
  }
}
