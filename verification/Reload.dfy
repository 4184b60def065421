/** `config reload`: the service, its plan, and one apply (gateway/service.py, gateway/reload_plan.py). */
module Reload {
  import opened Values
  import opened Configs
  import opened Runtime
  import opened ReloadSpec
  import opened ReloadPlanning

  class ReloadPlan {
    const dryRun: bool
    // What is to change: the folded diff, and how many watchers' records.
    const planned: ConfigDiff
    const watchers: nat
    var ok: bool
    var applied: bool
    var degraded: seq<Degraded>

    constructor (dryRun: bool, planned: ConfigDiff, watchers: nat)
      ensures this.dryRun == dryRun && this.planned == planned && this.watchers == watchers
      ensures ok && !applied && degraded == []
    {
      this.dryRun, this.planned, this.watchers := dryRun, planned, watchers;
      this.ok, this.applied, this.degraded := true, false, [];
    }

    // A request that never got to planning.
    constructor Refused(dryRun: bool)
      ensures this.dryRun == dryRun && planned.Empty() && watchers == 0
      ensures !ok && !applied && degraded == []
    {
      var none := EntityChanges({}, {}, {});
      this.dryRun, this.planned, this.watchers := dryRun, ConfigDiff(none, none, none, false, []), 0;
      this.ok, this.applied, this.degraded := false, false, [];
    }

    predicate HasChanges() {
      !planned.Empty() || watchers > 0
    }

    function ExitCode(): int
      reads this
    {
      if degraded != [] then 2 else if !ok then 1 else 0
    }

    method Report(d: Degraded)
      modifies this`degraded
      ensures degraded == old(degraded) + [d]
    {
      degraded := degraded + [d];
    }
  }

  /** A request for the daemon's own file, with no other reload running and the file valid. */
  predicate Heard(fromFile: bool, otherPath: bool, busy: bool, validated: Option<GatewayConfig>) {
    fromFile && !otherPath && !busy && validated.Some?
  }

  /** What was planned is what was done. A preview applies nothing. A reload that is not refused applies
      its plan exactly when something is to change, to the configuration or to a watcher's record; when
      it does not, the plan for the state it leaves is empty. */
  ghost predicate Carried(dryRun: bool, c: GatewayConfig, s': ServiceState, ok: bool, planned: ConfigDiff,
                          watchers: nat, step: Step)
  {
    && (dryRun ==> step == Untouched && (ok ==> Planned(s', c, planned)))
    && (!dryRun ==> step == Retried || step.Tried?)
    && (step == Retried && ok ==> Planned(s', c, planned) && planned.Empty() && watchers == 0)
    && (step.Tried? ==> step.c == c)
    && (step.Tried? && step.outcome != Refused ==> step.d == planned && (!planned.Empty() || watchers > 0))
  }

  /** How a request ends: if there was no setback, and only then, a preview is given and a reload goes
      through with nothing to report; the one exception is a fleet that cannot be assembled for want of
      an entry. */
  ghost predicate Lands(calm: bool, dryRun: bool, step: Step, ok: bool, reports: seq<Degraded>) {
    && (ok && (dryRun || reports == []) ==> calm)
    && (calm && !Uncovered(step) ==> ok && (dryRun || reports == []))
  }

  ghost predicate Uncovered(step: Step) {
    step.Tried? && step.outcome != Refused && !Covered(step.c, step.b, Look(step.before.entries))
  }

  /** What the exit code tells. 0: not refused, not failed, and nothing to report. 2: something to
      report. 1: neither, so that if an apply had begun it failed with nothing to report. */
  ghost predicate ExitTells(step: Step, ok: bool, reports: seq<Degraded>, exit: int) {
    && (exit == 0 <==> ok && reports == []) && (exit == 2 <==> reports != []) && (exit == 1 <==> !ok && reports == [])
    && (step.Tried? ==> (ok <==> step.outcome == Completed) && (step.outcome == Refused ==> exit == 1))
  }

  // One new backend object for each of `names`.
  method BuildBackends(world: World, names: set<string>, c: GatewayConfig) returns (bs: map<string, Backend>)
    requires names <= c.agents.Keys
    modifies world`serial
    ensures world.serial >= old(world.serial)
    ensures bs.Keys == names
    ensures forall n :: n in bs ==> bs[n].def == c.agents[n] && old(world.serial) <= bs[n].id < world.serial
    ensures forall n, m :: n in bs && m in bs && n != m ==> bs[n].id != bs[m].id
  {
    bs := map[];
    var done := {};
    while done != names
      invariant bs.Keys == done <= names
      invariant world.serial >= old(world.serial)
      invariant forall n :: n in bs ==> bs[n].def == c.agents[n] && old(world.serial) <= bs[n].id < world.serial
      invariant forall n, m :: n in bs && m in bs && n != m ==> bs[n].id != bs[m].id
      decreases names - done
    {
      var n :| n in names && n !in done;
      done := done + {n};
      var id := world.NewId();
      bs := bs[n := Backend(id, c.agents[n])];
    }
  }

  // One new connector object for each of `names`.
  method BuildConnectors(world: World, names: set<string>) returns (ids: map<string, nat>)
    modifies world`serial
    ensures world.serial >= old(world.serial)
    ensures ids.Keys == names
    ensures forall n :: n in ids ==> old(world.serial) <= ids[n] < world.serial
    ensures forall n, m :: n in ids && m in ids && n != m ==> ids[n] != ids[m]
  {
    ids := map[];
    var done := {};
    while done != names
      invariant ids.Keys == done <= names
      invariant world.serial >= old(world.serial)
      invariant forall n :: n in ids ==> old(world.serial) <= ids[n] < world.serial
      invariant forall n, m :: n in ids && m in ids && n != m ==> ids[n] != ids[m]
      decreases names - done
    {
      var n :| n in names && n !in done;
      done := done + {n};
      var id := world.NewId();
      ids := ids[n := id];
    }
  }

  // One entry for each connector of `c`, in its order.
  method BuildFleet(c: GatewayConfig, ids: map<string, nat>) returns (fleet: seq<Entry>)
    requires forall i :: 0 <= i < |c.connectors| ==> c.connectors[i].name in ids
    ensures |fleet| == |c.connectors|
    ensures forall i :: 0 <= i < |fleet| ==>
      fleet[i] == BuildEntry(c.connectors[i], ids[c.connectors[i].name], c)
  {
    fleet := [];
    for i := 0 to |c.connectors|
      invariant |fleet| == i
      invariant forall j :: 0 <= j < i ==>
        fleet[j] == BuildEntry(c.connectors[j], ids[c.connectors[j].name], c)
    {
      fleet := fleet + [BuildEntry(c.connectors[i], ids[c.connectors[i].name], c)];
    }
  }

  // A configuration's backends and entries, all new.
  method BuildAll(world: World, c: GatewayConfig) returns (bs: map<string, Backend>, fleet: seq<Entry>)
    requires Loaded(c)
    modifies world`serial
    ensures AsBuilt(NotStarted(c, bs, fleet), c, old(world.serial), world.serial) && world.serial >= old(world.serial)
  {
    bs := BuildBackends(world, c.agents.Keys, c);
    var ids := BuildConnectors(world, CandidateNames(c));
    EachNamed(c);
    fleet := BuildFleet(c, ids);
    NewService(NotStarted(c, bs, fleet), c, ids, bs, old(world.serial), world.serial);
  }

  function NotStarted(c: GatewayConfig, bs: map<string, Backend>, fleet: seq<Entry>): ServiceState {
    ServiceState(c, fleet, Index(fleet), [], {}, false, RuntimeState(bs, map[], {}, []))
  }

  class GatewayService {
    const world: World
    const rtm: AgentRuntimeManager
    var config: GatewayConfig
    var entries: seq<Entry>
    var sessionManagers: map<string, nat>
    var leftoverEntries: seq<Proc>
    var suspectAgents: set<string>
    var schedulerRunning: bool
    var reloading: bool
    // Each connector's copy of the unavailable set, by which its lifecycle refuses a start.
    var gates: map<string, set<string>>

    ghost function State(): ServiceState
      reads this, rtm, rtm.unavailable
    {
      ServiceState(config, entries, sessionManagers, leftoverEntries, suspectAgents,
                   schedulerRunning, rtm.State())
    }

    // Builds everything the configuration names, in its order; starts nothing.
    constructor (world: World, config: GatewayConfig)
      requires Loaded(config)
      modifies world`serial
      ensures this.world == world && rtm.world == world
      ensures fresh(rtm) && fresh(rtm.unavailable)
      ensures AsBuilt(State(), config, old(world.serial), world.serial)
      ensures !reloading && world.serial >= old(world.serial)
    {
      var backends, fleet := BuildAll(world, config);
      this.world := world;
      this.rtm := new AgentRuntimeManager(world, backends);
      this.config := config;
      this.leftoverEntries, this.suspectAgents := [], {};
      this.schedulerRunning, this.reloading, this.gates := false, false, map[];
      new;
      InstallEntries(fleet);
      assert State() == NotStarted(config, backends, fleet);
    }

    // Agents start, then every connector settles, connects, is identified and syncs; each phase is
    // awaited in full before the first failure ends the startup, which then shuts everything down.
    method Boot() returns (ok: bool)
      requires rtm.world == world && Valid(State()) && Synced(State(), config)
      requires Sound(State(), world.live) && rtm.brokers == map[] && leftoverEntries == [] && rtm.leftovers == []
      modifies this`schedulerRunning, rtm`brokers, rtm`leftovers, rtm.unavailable, world
      ensures Valid(State()) && Synced(State(), config) && world.serial >= old(world.serial)
      ensures entries == old(entries) && rtm.agents == old(rtm.agents) && leftoverEntries == [] &&
        suspectAgents == old(suspectAgents)
      ensures ok ==> Sound(State(), world.live) && schedulerRunning && rtm.leftovers == []
      ensures ok ==> EntriesServe(State(), world.live) && AgentsServe(State(), world.live, rtm.agents.Keys)
      ensures ok ==> BrokersBelow(rtm.brokers, rtm.leftovers, world.serial)
      ensures ok ==> forall e :: e in entries ==> LetIn(old(world.errands), world.errands, e.cfg.name)
      ensures !ok ==> !schedulerRunning && rtm.brokers == map[]
      ensures !ok ==> forall p :: p in world.live ==>
        world.asked[p] > old(world.asked)[p] && (p.ConnectorProc? || p in rtm.leftovers)
      ensures BarSetbacks(old(world.setbacks), world.setbacks, ok && rtm.unavailable.names == {})
    {
      ok := StartAll();
      if ok { schedulerRunning := true; } else { Shutdown(); }
    }

    method StartAll() returns (ok: bool)
      requires rtm.world == world && Valid(State()) && Sound(State(), world.live) && Synced(State(), config)
      requires rtm.brokers == map[] && leftoverEntries == [] && rtm.leftovers == []
      modifies rtm`brokers, rtm.unavailable, world
      ensures Valid(State()) && Sound(State(), world.live) && Synced(State(), config)
      ensures BarSetbacks(old(world.setbacks), world.setbacks, ok && rtm.unavailable.names == {})
      ensures ok ==> EntriesServe(State(), world.live)
      ensures ok ==> forall e :: e in entries ==> LetIn(old(world.errands), world.errands, e.cfg.name)
      ensures AgentsServe(State(), world.live, rtm.agents.Keys)
      ensures world.serial >= old(world.serial) && old(world.asked) <= world.asked
      ensures BrokersBelow(rtm.brokers, rtm.leftovers, world.serial)
    {
      StartAllAgents();
      ok := StartAllConnectors();
      if ok { FleetServes(State(), world.live); }
    }

    method StartAllAgents()
      requires rtm.world == world && Valid(State()) && Sound(State(), world.live)
      requires rtm.brokers == map[] && rtm.leftovers == []
      modifies rtm`brokers, rtm.unavailable, world`live, world`asked, world`serial, world`setbacks
      ensures Valid(State()) && Sound(State(), world.live)
      ensures BarSetbacks(old(world.setbacks), world.setbacks, rtm.unavailable.names == {})
      ensures AgentsServe(State(), world.live, rtm.agents.Keys)
      ensures world.serial >= old(world.serial) && old(world.asked) <= world.asked
      ensures BrokersBelow(rtm.brokers, rtm.leftovers, world.serial)
    {
      ghost var s, live, serial := State(), world.live, world.serial;
      var failed := rtm.StartSome(rtm.agents.Keys);
      StartSound(s, live, serial, s.rt.agents.Keys, failed, State(), world.live);
    }

    method StartAllConnectors() returns (ok: bool)
      requires rtm.world == world && Valid(State()) && Sound(State(), world.live)
      modifies world`live, world`errands, world`setbacks
      ensures Sound(State(), world.live)
      ensures ok ==> forall e :: e in entries ==> LetIn(old(world.errands), world.errands, e.cfg.name)
      ensures BarSetbacks(old(world.setbacks), world.setbacks, ok)
      ensures old(world.live) <= world.live
      ensures ok ==> forall e :: e in entries ==> Instance(e) in world.live
    {
      ghost var live := world.live;
      ghost var errands := world.errands;
      ok := EachClears(errands, SettleRecords);
      if ok { ok := ConnectAll(); }
      ConnectedSound(State(), live, world.live);
      if ok { ok := EachClears(errands, Identify); }
      if ok { ok := EachClears(errands, Sync); }
      if ok { ok := Passes(); }
    }

    method Passes() returns (ok: bool)
      modifies world`setbacks
      ensures world.setbacks >= old(world.setbacks) && (ok <==> world.setbacks == old(world.setbacks))
    {
      var failed := world.Fails();
      ok := !failed;
    }

    /** No account is checked before everything is settled and connected, and no rooms come up before
        every account was checked; `errands` are those before any of this began. */
    ghost predicate MayBegin(errands: multiset<Errand>, work: Work)
      reads this`entries, world
    {
      && (work == Identify ==> forall e :: e in entries ==>
            Instance(e) in world.live && Passed(errands, world.errands, SettleRecords, e.cfg.name))
      && (work == Sync ==> forall e :: e in entries ==> Passed(errands, world.errands, Identify, e.cfg.name))
    }

    // One phase of the startup: every entry is heard before a failure counts.
    method EachClears(ghost errands: multiset<Errand>, work: Work) returns (ok: bool)
      requires MayBegin(errands, work)
      modifies world`errands, world`setbacks
      ensures BarSetbacks(old(world.setbacks), world.setbacks, ok)
      ensures old(world.errands) <= world.errands
      ensures ok ==> forall e :: e in entries ==> Passed(old(world.errands), world.errands, work, e.cfg.name)
    {
      ok := true;
      for i := 0 to |entries|
        invariant BarSetbacks(old(world.setbacks), world.setbacks, ok)
        invariant old(world.errands) <= world.errands
        invariant ok ==> forall j :: 0 <= j < i ==>
          Passed(old(world.errands), world.errands, work, entries[j].cfg.name)
      {
        var passed := world.Clears(work, entries[i].cfg.name);
        ok := ok && passed;
      }
    }

    method ConnectAll() returns (ok: bool)
      modifies world`live, world`setbacks
      ensures BarSetbacks(old(world.setbacks), world.setbacks, ok)
      ensures old(world.live) <= world.live
      ensures forall p :: p in world.live && p !in old(world.live) ==>
        exists i :: 0 <= i < |entries| && p == Instance(entries[i])
      ensures ok ==> forall e :: e in entries ==> Instance(e) in world.live
    {
      ok := true;
      for i := 0 to |entries|
        invariant BarSetbacks(old(world.setbacks), world.setbacks, ok)
        invariant old(world.live) <= world.live
        invariant forall p :: p in world.live && p !in old(world.live) ==>
          exists j :: 0 <= j < |entries| && p == Instance(entries[j])
        invariant ok ==> forall j :: 0 <= j < i ==> Instance(entries[j]) in world.live
      {
        var connected := world.Start(Instance(entries[i]));
        ok := ok && connected;
      }
    }

    // Connectors first, those given up on once more, then brokers and backends. Nothing that fails to
    // stop is tried in another way.
    method Shutdown()
      requires rtm.world == world && Valid(State()) && Sound(State(), world.live)
      modifies this`schedulerRunning, rtm`brokers, rtm`leftovers, world`live, world`asked, world`setbacks
      ensures world.setbacks >= old(world.setbacks)
      ensures Valid(State()) && !schedulerRunning && rtm.brokers == map[]
      ensures world.live <= old(world.live)
      ensures AllAsked(old(world.asked), world.asked, old(world.live))
      ensures forall p :: p in world.live ==> p.ConnectorProc? || p in rtm.leftovers
    {
      ghost var s, live, a0 := State(), world.live, world.asked;
      schedulerRunning := false;
      DisconnectAll();
      ghost var a1 := world.asked;
      DisconnectLeftovers();
      ghost var a2 := world.asked;
      StopRuntime();
      EverythingAsked(s, live, a0, a1, a2, world.asked);
      forall p | p in world.live ensures p.ConnectorProc? || p in rtm.leftovers {
        assert Tracked(s.rt, Look(s.entries), s.leftoverEntries, p);
      }
    }

    method StopRuntime()
      requires rtm.world == world && rtm.State().Valid() && BrokersMatch(rtm.State())
      modifies rtm`brokers, rtm`leftovers, world`live, world`asked, world`setbacks
      ensures world.setbacks >= old(world.setbacks)
      ensures rtm.State() == old(rtm.State()).(brokers := map[], leftovers := rtm.leftovers)
      ensures world.live <= old(world.live)
      ensures AllAsked(old(world.asked), world.asked,
        old(rtm.State()).OwnedBy(rtm.agents.Keys) + set p | p in old(rtm.leftovers))
      ensures forall p :: p in world.live && old(rtm.State()).Tracks(p) ==> p in rtm.leftovers
    {
      ghost var r, asked := rtm.State(), world.asked;
      var _ := rtm.StopSome(rtm.agents.Keys);
      ghost var asked1, last := world.asked, rtm.leftovers;
      rtm.RetryLeftovers();
      assert rtm.brokers == map[];
      forall p | p in r.OwnedBy(r.agents.Keys) + set p | p in r.leftovers ensures world.asked[p] > asked[p] {
        assert p in r.leftovers ==> p in last;
      }
    }

    method DisconnectAll()
      modifies world`live, world`asked
      ensures world.live <= old(world.live)
      ensures AllAsked(old(world.asked), world.asked, Instances(entries, Look(entries).Keys))
      ensures forall p :: p in old(world.live) && p !in world.live ==> p.ConnectorProc?
    {
      for i := 0 to |entries|
        invariant world.live <= old(world.live)
        invariant AllAsked(old(world.asked), world.asked, set j | 0 <= j < i :: Instance(entries[j]))
        invariant forall p :: p in old(world.live) && p !in world.live ==> p.ConnectorProc?
      {
        var _ := world.StopOnce(Instance(entries[i]));
      }
      forall p | p in Instances(entries, Look(entries).Keys) ensures world.asked[p] > old(world.asked)[p] {
        var e :| e in entries && p == Instance(e);
        var j :| 0 <= j < |entries| && entries[j] == e;
      }
    }

    method DisconnectLeftovers()
      modifies world`live, world`asked, world`setbacks
      ensures world.setbacks >= old(world.setbacks)
      ensures world.live <= old(world.live)
      ensures AllAsked(old(world.asked), world.asked, set p | p in leftoverEntries)
      ensures forall p :: p in old(world.live) && p !in world.live ==> p in leftoverEntries
    {
      for i := 0 to |leftoverEntries|
        invariant world.live <= old(world.live)
        invariant AllAsked(old(world.asked), world.asked, set p | p in leftoverEntries[..i])
        invariant forall p :: p in old(world.live) && p !in world.live ==> p in leftoverEntries
        invariant world.setbacks >= old(world.setbacks)
      {
        var _ := world.StopWithRetries(leftoverEntries[i]);
      }
    }

    // A watcher verb's way out of the boot-time snapshot of unavailable agents.
    method RecoverAgent(name: string) returns (available: bool, ghost step: Step)
      requires rtm.world == world && Valid(State())
      modifies this`gates, rtm`brokers, rtm.unavailable, world
      ensures available <==> name !in rtm.unavailable.names
      ensures forall e :: e in entries ==> e.cfg.name in gates && gates[e.cfg.name] == rtm.unavailable.names
      ensures step == Untouched || step.Recovered?
      ensures step.Recovered? <==> name in old(rtm.unavailable.names)
      ensures BarSetbacks(old(world.setbacks), world.setbacks, name in rtm.agents ==> available)
      ensures FailedAsked(old(rtm.State()), old(world.live), old(world.asked), if available then {} else {name},
        world.live, world.asked)
      ensures Reloaded(old(State()), old(world.live), step, State(), world.live, [])
      ensures Sound(old(State()), old(world.live)) ==> Sound(State(), world.live)
      ensures world.serial >= old(world.serial)
      ensures BrokersBelow(old(rtm.brokers), old(rtm.leftovers), old(world.serial)) ==>
        BrokersBelow(rtm.brokers, rtm.leftovers, world.serial)
    {
      step := Untouched;
      if name in rtm.unavailable.names {
        ghost var s, live, serial := State(), world.live, world.serial;
        var failed := rtm.StartSome({name});
        step := Recovered(name, serial, failed);
        if Sound(s, live) { StartSound(s, live, serial, {name}, failed, State(), world.live); }
      }
      PushUnavailableAgents();
      available := name !in rtm.unavailable.names;
    }

    // Whoever changed the set pushes it to every connector.
    method PushUnavailableAgents()
      modifies this`gates
      ensures forall e :: e in entries ==> e.cfg.name in gates && gates[e.cfg.name] == rtm.unavailable.names
    {
      for i := 0 to |entries|
        invariant forall j :: 0 <= j < i ==>
          entries[j].cfg.name in gates && gates[entries[j].cfg.name] == rtm.unavailable.names
      {
        gates := gates[entries[i].cfg.name := rtm.unavailable.names];
      }
    }

    // ---- Small steps ----

    // Makes `es` the fleet, in place: the list and its index.
    method InstallEntries(es: seq<Entry>)
      modifies this`entries, this`sessionManagers
      ensures entries == es && sessionManagers == Index(es)
    {
      entries := es;
      sessionManagers := map[];
      for i := 0 to |es|
        invariant entries == es
        invariant sessionManagers == Index(es[..i])
      {
        sessionManagers := sessionManagers[es[i].cfg.name := es[i].id];
        assert es[..i + 1][..i] == es[..i];
      }
      assert es[..|es|] == es;
    }

    // Every manager refuses new work; a raise leaves some of them open.
    method Quiesce() returns (raised: bool)
      modifies this`entries, world`setbacks
      ensures BarSetbacks(old(world.setbacks), world.setbacks, !raised)
      ensures |entries| == |old(entries)|
      ensures forall i :: 0 <= i < |entries| ==> entries[i] == old(entries)[i].(quiesced := entries[i].quiesced)
      ensures !raised ==> forall i :: 0 <= i < |entries| ==> entries[i].quiesced
    {
      raised := false;
      var i := 0;
      while i < |entries|
        invariant i <= |entries| == |old(entries)|
        invariant forall j :: 0 <= j < |entries| ==> entries[j] == old(entries)[j].(quiesced := entries[j].quiesced)
        invariant forall j :: 0 <= j < i ==> entries[j].quiesced
        invariant world.setbacks == old(world.setbacks)
      {
        raised := world.Fails();
        if raised { return; }
        entries := entries[i := entries[i].(quiesced := true)];
        i := i + 1;
      }
    }

    // Managers in `names` take work again; one that raises may or may not. With `tolerant` it is passed
    // over: `stuck` are those, no more of them than calls that raised.
    method Rearm(names: set<string>, tolerant: bool) returns (raised: bool, stuck: set<string>)
      modifies this`entries, world`setbacks
      ensures QuiescedOnly(old(entries), entries)
      ensures forall i :: 0 <= i < |entries| && !old(entries)[i].quiesced ==> !entries[i].quiesced
      ensures !raised ==> forall i :: 0 <= i < |entries| && entries[i].cfg.name in names - stuck ==>
        !entries[i].quiesced
      ensures tolerant ==> !raised
      ensures !tolerant ==> stuck == {}
      ensures stuck <= names && old(world.setbacks) + |stuck| <= world.setbacks
      ensures BarSetbacks(old(world.setbacks), world.setbacks, !raised && stuck == {})
    {
      raised, stuck := false, {};
      var i := 0;
      while i < |entries|
        invariant i <= |entries| && QuiescedOnly(old(entries), entries)
        invariant forall j :: 0 <= j < |entries| && !old(entries)[j].quiesced ==> !entries[j].quiesced
        invariant forall j :: 0 <= j < i && entries[j].cfg.name in names - stuck ==> !entries[j].quiesced
        invariant !tolerant ==> stuck == {}
        invariant stuck <= names && old(world.setbacks) + |stuck| <= world.setbacks
        invariant BarSetbacks(old(world.setbacks), world.setbacks, stuck == {})
      {
        if entries[i].cfg.name in names {
          var failed := world.Fails();
          var still: bool := *;
          entries := entries[i := entries[i].(quiesced := failed && still && entries[i].quiesced)];
          if failed {
            if !tolerant { raised := true; return; }
            stuck := stuck + {entries[i].cfg.name};
          }
        }
        i := i + 1;
      }
    }

    // Shuts the managers of `names` down, each with retries. One that will not stop is a leftover.
    method ShutDownManagers(names: set<string>, plan: ReloadPlan)
      modifies this`leftoverEntries, world`live, world`asked, world`setbacks, plan`degraded
      ensures BarSetbacks(old(world.setbacks), world.setbacks, plan.degraded == old(plan.degraded))
      ensures old(leftoverEntries) <= leftoverEntries
      ensures old(plan.degraded) <= plan.degraded
      ensures forall p :: p in leftoverEntries && p !in old(leftoverEntries) ==>
        p in Instances(entries, names) && LeftoverFinding(p) in plan.degraded
      ensures world.live <= old(world.live)
      ensures forall p :: p in old(world.live) && p !in world.live ==> p in Instances(entries, names)
      ensures forall e :: e in entries && e.cfg.name in names && Instance(e) in world.live ==>
        Instance(e) in leftoverEntries
      ensures AllAsked(old(world.asked), world.asked, Instances(entries, names))
    {
      ghost var lefts, live, reports, asked := leftoverEntries, world.live, plan.degraded, world.asked;
      for i := 0 to |entries|
        invariant ShutSoFar(entries[..i], names, lefts, live, reports, leftoverEntries, world.live, plan.degraded)
        invariant AllAsked(asked, world.asked, Instances(entries[..i], names))
        invariant BarSetbacks(old(world.setbacks), world.setbacks, plan.degraded == reports)
      {
        assert entries[..i + 1] == entries[..i] + [entries[i]];
        if entries[i].cfg.name in names {
          ghost var lefts1, live1, reports1 := leftoverEntries, world.live, plan.degraded;
          var stopped := ShutDownOne(entries[i], plan);
          ShutOneMore(entries[..i], entries[i], names, lefts, live, reports, lefts1, live1, reports1, stopped);
        } else {
          PassedOver(entries[..i], entries[i], names);
        }
      }
      assert entries[..|entries|] == entries;
    }

    method ShutDownOne(e: Entry, plan: ReloadPlan) returns (stopped: bool)
      modifies this`leftoverEntries, world`live, world`asked, world`setbacks, plan`degraded
      ensures BarSetbacks(old(world.setbacks), world.setbacks, stopped)
      ensures leftoverEntries == if stopped then old(leftoverEntries) else old(leftoverEntries) + [Instance(e)]
      ensures plan.degraded == old(plan.degraded) + if stopped then [] else [LeftoverFinding(Instance(e))]
      ensures world.live == if stopped then old(world.live) - {Instance(e)} else old(world.live)
      ensures AllAsked(old(world.asked), world.asked, {Instance(e)})
    {
      stopped := world.StopWithRetries(Instance(e));
      if !stopped {
        leftoverEntries := leftoverEntries + [Instance(e)];
        plan.Report(Degraded(ConnectorSection, e.cfg.name));
      }
    }

    // A room or record that did not follow: reported on the plan, the connector runs on.
    method ReportRooms(work: Work, name: string, plan: ReloadPlan) returns (raised: bool)
      modifies world`errands, world`setbacks, plan`degraded
      ensures old(plan.degraded) <= plan.degraded
      ensures Smooth(old(world.setbacks), old(plan.degraded), raised, world.setbacks, plan.degraded)
      ensures raised ==> plan.degraded == old(plan.degraded)
      ensures Sent(old(world.errands), world.errands, work, {name})
      ensures !raised ==> Passed(old(world.errands), world.errands, work, name)
    {
      var short;
      raised, short := world.Send(work, name);
      if !raised && short { plan.Report(Degraded(ConnectorSection, name)); }
    }

    // The same over several connectors, stopping at the first raise.
    method ReportAllRooms(work: Work, names: set<string>, plan: ReloadPlan) returns (raised: bool)
      modifies world`errands, world`setbacks, plan`degraded
      ensures old(plan.degraded) <= plan.degraded && old(world.errands) <= world.errands
      ensures raised ==> names != {}
      ensures Smooth(old(world.setbacks), old(plan.degraded), raised, world.setbacks, plan.degraded)
      ensures !raised ==> Sent(old(world.errands), world.errands, work, names * Look(entries).Keys)
    {
      raised := false;
      var i := 0;
      while i < |entries|
        invariant i <= |entries|
        invariant old(plan.degraded) <= plan.degraded
        invariant Smooth(old(world.setbacks), old(plan.degraded), raised, world.setbacks, plan.degraded)
        invariant SentSoFar(entries, i, names, work, old(world.errands), world.errands)
      {
        if entries[i].cfg.name in names {
          raised := ReportRooms(work, entries[i].cfg.name, plan);
          if raised { return; }
        }
        i := i + 1;
      }
      AllOfThemSent(entries, names, work, old(world.errands), world.errands);
    }

    method ReportAgents(names: set<string>, plan: ReloadPlan)
      modifies plan`degraded
      ensures old(plan.degraded) <= plan.degraded
      ensures plan.degraded == old(plan.degraded) <==> names == {}
      ensures forall n :: n in names ==> Degraded(AgentSection, n) in plan.degraded
    {
      var done := {};
      while done != names
        invariant done <= names
        invariant old(plan.degraded) <= plan.degraded
        invariant plan.degraded == old(plan.degraded) <==> done == {}
        invariant forall n :: n in done ==> Degraded(AgentSection, n) in plan.degraded
        decreases names - done
      {
        var n :| n in names && n !in done;
        plan.Report(Degraded(AgentSection, n));
        done := done + {n};
      }
    }

    // ---- The stop pass ----

    // Every manager is stilled; records of removed connectors are reclaimed while their managers
    // and backends are alive, as are records the new rules expire on a stopping agent.
    method Still(removed: set<string>, stopping: set<string>, plan: ReloadPlan) returns (raised: bool)
      requires DistinctNames(entries)
      modifies this`entries, world`errands, world`setbacks, plan`degraded
      ensures old(world.errands) <= world.errands
      ensures !raised ==> Sent(old(world.errands), world.errands, Reclaim, removed * Look(old(entries)).Keys)
      ensures QuiescedOnly(old(entries), entries)
      ensures Smooth(old(world.setbacks), old(plan.degraded), raised, world.setbacks, plan.degraded)
      ensures old(plan.degraded) <= plan.degraded
      ensures !raised ==> forall i :: 0 <= i < |entries| ==> entries[i].quiesced
    {
      raised := Quiesce();
      LookQuiesced(old(entries), entries);
      if !raised { raised := ReportAllRooms(Reclaim, removed, plan); }
      if !raised && stopping != {} { raised := world.Fails(); }
    }

    // Managers of `replacing` shut down, then the processors of every stopping agent.
    method ShutDownReplaced(ghost s: ServiceState, ghost live: set<Proc>, d: ConfigDiff, c: GatewayConfig,
                            replacing: set<string>, plan: ReloadPlan)
      returns (raised: bool)
      requires rtm.world == world && Valid(s) && s.rt == rtm.State() && live == world.live
      requires Fits(d, c) && StopBegun(s, live, d, c, State(), live) && replacing == Replacing(d, c, Look(entries).Keys)
      modifies this`leftoverEntries, world`live, world`asked, world`errands, world`setbacks, plan`degraded
      ensures old(world.errands) <= world.errands
      ensures !raised && StoppingAgents(d) != {} ==>
        Sent(old(world.errands), world.errands, StopRooms, Look(entries).Keys - replacing)
      ensures StopBegun(s, live, d, c, State(), world.live)
      ensures Smooth(old(world.setbacks), old(plan.degraded), raised, world.setbacks, plan.degraded)
      ensures old(plan.degraded) <= plan.degraded
      ensures forall e :: e in entries && e.cfg.name in replacing && Instance(e) in world.live ==>
        Instance(e) in leftoverEntries
      ensures LeftoversReported(old(State()), State(), plan.degraded)
    {
      ghost var s1 := State();
      ShutDownManagers(replacing, plan);
      ghost var s2, live2 := State(), world.live;
      ManagersDown(s, live, d, c, s1, s2, live2);
      raised := false;
      if StoppingAgents(d) != {} { raised := ReportAllRooms(StopRooms, Look(entries).Keys - replacing, plan); }
      assert State() == s2 && world.live == live2;
    }

    method StopAgents(ghost s: ServiceState, ghost live: set<Proc>, d: ConfigDiff, c: GatewayConfig, plan: ReloadPlan)
      requires rtm.world == world && Valid(s) && s.rt == rtm.State()
      requires StopBegun(s, live, d, c, State(), world.live)
      modifies rtm`brokers, rtm`leftovers, world`live, world`asked, world`setbacks, plan`degraded
      ensures AgentsStopped(s, live, d, c, State(), world.live)
      ensures BarSetbacks(old(world.setbacks), world.setbacks, plan.degraded == old(plan.degraded))
      ensures old(plan.degraded) <= plan.degraded
      ensures world.live <= old(world.live)
      ensures LeftoversReported(old(State()), State(), plan.degraded)
      ensures AllAsked(old(world.asked), world.asked, s.rt.OwnedBy(StoppingAgents(d)))
      ensures BrokersBelow(old(rtm.brokers), old(rtm.leftovers), old(world.serial)) ==>
        BrokersBelow(rtm.brokers, rtm.leftovers, world.serial)
    {
      ghost var s2, live2 := State(), world.live;
      var notStopped := rtm.StopSome(StoppingAgents(d));
      AgentsDown(s, live, d, c, notStopped, s2, live2, State(), world.live);
      ReportAgents(notStopped, plan);
    }

    // The replaced entries leave the fleet, then the state files no connector owns go.
    method Uninstall(ghost s: ServiceState, ghost live: set<Proc>, d: ConfigDiff, c: GatewayConfig,
                     replacing: set<string>, plan: ReloadPlan)
      returns (raised: bool)
      requires Fits(d, c) && AgentsStopped(s, live, d, c, State(), world.live)
      requires replacing == Replacing(d, c, Look(entries).Keys)
      requires forall e :: e in entries && e.cfg.name in replacing && Instance(e) in world.live ==>
        Instance(e) in leftoverEntries
      modifies this`entries, this`sessionManagers, world`setbacks, plan`degraded
      ensures StopDone(s, live, d, c, State(), world.live)
      ensures Smooth(old(world.setbacks), old(plan.degraded), raised, world.setbacks, plan.degraded)
      ensures old(plan.degraded) <= plan.degraded
      ensures Look(entries).Keys == Look(old(entries)).Keys - replacing
      ensures forall e :: e in entries ==> e in old(entries)
    {
      ghost var s3 := State();
      InstallEntries(Without(entries, replacing));
      Uninstalled(s, live, d, c, s3, world.live, State());
      raised := world.Fails();
      if !raised {
        var unremoved := world.Fails();
        if unremoved { plan.Report(Degraded(ConnectorSection, "")); }
      }
    }

    method TearDown(ghost s: ServiceState, ghost live: set<Proc>, d: ConfigDiff, c: GatewayConfig,
                    replacing: set<string>, plan: ReloadPlan)
      returns (raised: bool)
      requires rtm.world == world && Valid(s) && s.rt == rtm.State() && live == world.live && Fits(d, c)
      requires StopBegun(s, live, d, c, State(), live)
      requires replacing == Replacing(d, c, Look(entries).Keys)
      modifies this`entries, this`sessionManagers, this`leftoverEntries
      modifies rtm`brokers, rtm`leftovers, world`live, world`asked, world`errands, world`setbacks, plan`degraded
      ensures old(world.errands) <= world.errands
      ensures !raised && StoppingAgents(d) != {} ==>
        Sent(old(world.errands), world.errands, StopRooms, Look(old(entries)).Keys - replacing)
      ensures StopBegun(s, live, d, c, State(), world.live)
      ensures Smooth(old(world.setbacks), old(plan.degraded), raised, world.setbacks, plan.degraded)
      ensures old(plan.degraded) <= plan.degraded
      ensures Look(old(entries)).Keys - replacing <= Look(entries).Keys
      ensures !raised ==> StopDone(s, live, d, c, State(), world.live)
      ensures !raised ==> Look(entries).Keys == Look(old(entries)).Keys - replacing
      ensures LeftoversReported(old(State()), State(), plan.degraded)
      ensures forall e :: e in entries ==> e in old(entries)
      ensures BrokersBelow(old(rtm.brokers), old(rtm.leftovers), old(world.serial)) ==>
        BrokersBelow(rtm.brokers, rtm.leftovers, world.serial)
    {
      raised := ShutDownReplaced(s, live, d, c, replacing, plan);
      if !raised { raised := StopAndUninstall(s, live, d, c, replacing, plan); }
    }

    method StopAndUninstall(ghost s: ServiceState, ghost live: set<Proc>, d: ConfigDiff, c: GatewayConfig,
                            replacing: set<string>, plan: ReloadPlan)
      returns (raised: bool)
      requires rtm.world == world && Valid(s) && s.rt == rtm.State() && Fits(d, c)
      requires StopBegun(s, live, d, c, State(), world.live)
      requires replacing == Replacing(d, c, Look(entries).Keys)
      requires forall e :: e in entries && e.cfg.name in replacing && Instance(e) in world.live ==>
        Instance(e) in leftoverEntries
      modifies this`entries, this`sessionManagers
      modifies rtm`brokers, rtm`leftovers, world`live, world`asked, world`setbacks, plan`degraded
      ensures StopDone(s, live, d, c, State(), world.live)
      ensures Smooth(old(world.setbacks), old(plan.degraded), raised, world.setbacks, plan.degraded)
      ensures old(plan.degraded) <= plan.degraded
      ensures Look(entries).Keys == Look(old(entries)).Keys - replacing
      ensures LeftoversReported(old(State()), State(), plan.degraded)
      ensures forall e :: e in entries ==> e in old(entries)
      ensures BrokersBelow(old(rtm.brokers), old(rtm.leftovers), old(world.serial)) ==>
        BrokersBelow(rtm.brokers, rtm.leftovers, world.serial)
    {
      StopAgents(s, live, d, c, plan);
      raised := Uninstall(s, live, d, c, replacing, plan);
    }

    // `kept` are the names whose entries stay.
    method StopPass(d: ConfigDiff, c: GatewayConfig, plan: ReloadPlan) returns (raised: bool, kept: set<string>)
      requires rtm.world == world && Valid(State()) && Fits(d, c)
      modifies this`entries, this`sessionManagers, this`leftoverEntries, this`schedulerRunning
      modifies rtm`brokers, rtm`leftovers, world`live, world`asked, world`errands, world`setbacks, plan`degraded
      ensures !raised ==> StopErrands(Look(old(entries)).Keys, d, c, kept, old(world.errands), world.errands)
      ensures !raised ==> kept == Look(old(entries)).Keys - Replacing(d, c, Look(old(entries)).Keys)
      ensures StopBegun(old(State()), old(world.live), d, c, State(), world.live)
      ensures Smooth(old(world.setbacks), old(plan.degraded), raised, world.setbacks, plan.degraded)
      ensures RefuseOnly(Look(old(entries)), d, c, kept, Look(entries))
      ensures old(plan.degraded) <= plan.degraded
      ensures kept <= Look(entries).Keys
      ensures !raised ==> StopDone(old(State()), old(world.live), d, c, State(), world.live)
      ensures !raised ==> kept == Look(entries).Keys
      ensures LeftoversReported(old(State()), State(), plan.degraded)
      ensures !raised ==> !schedulerRunning && forall e :: e in entries ==> e.quiesced
      ensures BrokersBelow(old(rtm.brokers), old(rtm.leftovers), old(world.serial)) ==>
        BrokersBelow(rtm.brokers, rtm.leftovers, world.serial)
    {
      kept := {};
      raised := world.Fails();
      Paused(old(State()), old(world.live), d, c, State());
      if !raised {
        schedulerRunning := false;
        var installed := Look(entries).Keys;
        kept := installed - Replacing(d, c, installed);
        raised := StillAndTearDown(old(State()), old(world.live), d, c, kept, plan);
        KeptStays(Look(old(entries)), d, c, kept, Look(entries));
      }
    }

    method StillAndTearDown(ghost s: ServiceState, ghost live: set<Proc>, d: ConfigDiff, c: GatewayConfig,
                            kept: set<string>, plan: ReloadPlan)
      returns (raised: bool)
      requires rtm.world == world && Valid(s) && live == world.live && Fits(d, c)
      requires State() == s.(schedulerRunning := schedulerRunning)
      requires kept == Look(entries).Keys - Replacing(d, c, Look(entries).Keys)
      modifies this`entries, this`sessionManagers, this`leftoverEntries
      modifies rtm`brokers, rtm`leftovers, world`live, world`asked, world`errands, world`setbacks, plan`degraded
      ensures !raised ==> StopErrands(Look(s.entries).Keys, d, c, kept, old(world.errands), world.errands)
      ensures StopBegun(s, live, d, c, State(), world.live)
      ensures Smooth(old(world.setbacks), old(plan.degraded), raised, world.setbacks, plan.degraded)
      ensures old(plan.degraded) <= plan.degraded
      ensures kept <= Look(entries).Keys
      ensures !raised ==> StopDone(s, live, d, c, State(), world.live)
      ensures !raised ==> kept == Look(entries).Keys && forall e :: e in entries ==> e.quiesced
      ensures LeftoversReported(old(State()), State(), plan.degraded)
      ensures BrokersBelow(old(rtm.brokers), old(rtm.leftovers), old(world.serial)) ==>
        BrokersBelow(rtm.brokers, rtm.leftovers, world.serial)
    {
      ghost var errands := world.errands;
      var installed := Look(entries).Keys;
      raised := Still(d.connectors.removed + (installed - CandidateNames(c)), StoppingAgents(d), plan);
      Paused(s, live, d, c, State());
      if !raised {
        ghost var errands1 := world.errands;
        raised := TearDown(s, live, d, c, Replacing(d, c, installed), plan);
        if !raised { BothStopErrands(installed, d, c, kept, errands, errands1, world.errands); }
      }
    }

    // ---- Rebuild ----

    method ReplaceAgents(d: ConfigDiff, c: GatewayConfig, b: Build)
      requires RebuiltAgents(d) == b.backends.Keys && RebuiltAgents(d) !! d.agents.removed
      modifies rtm`agents, rtm.unavailable
      ensures AgentsReplaced(old(rtm.agents), d.agents.removed, b, rtm.agents)
      ensures rtm.unavailable.names == old(rtm.unavailable.names) - d.agents.removed
    {
      var done := {};
      while done != d.agents.removed
        invariant done <= d.agents.removed
        invariant forall n :: n in rtm.agents <==> n in old(rtm.agents) && n !in done
        invariant forall n :: n in rtm.agents ==> rtm.agents[n] == old(rtm.agents)[n]
        invariant rtm.unavailable.names == old(rtm.unavailable.names) - done
        decreases d.agents.removed - done
      {
        var n :| n in d.agents.removed && n !in done;
        rtm.Replace(n, None);
        done := done + {n};
      }
      done := {};
      while done != b.backends.Keys
        invariant done <= b.backends.Keys
        invariant forall n :: n in rtm.agents <==> n in done || (n in old(rtm.agents) && n !in d.agents.removed)
        invariant forall n :: n in rtm.agents ==>
          rtm.agents[n] == if n in done then b.backends[n] else old(rtm.agents)[n]
        invariant rtm.unavailable.names == old(rtm.unavailable.names) - d.agents.removed
        decreases b.backends.Keys - done
      {
        var n :| n in b.backends && n !in done;
        rtm.Replace(n, Some(b.backends[n]));
        done := done + {n};
      }
    }

    // A candidate connector that is neither rebuilt nor kept is a KeyError; building an entry may raise too.
    method AssembleFleet(c: GatewayConfig, b: Build, byName: map<string, Entry>)
      returns (raised: bool, broke: bool, fleet: seq<Entry>)
      requires forall n :: n in byName ==> byName[n].cfg.name == n
      modifies world`setbacks
      ensures BarSetbacks(old(world.setbacks), world.setbacks, !broke)
      ensures !raised ==> FleetInOrder(c, b, byName, fleet)
      ensures !raised ==> forall i :: 0 <= i < |fleet| ==> TakenOrBuilt(c, b, byName, fleet[i])
      ensures raised <==> broke || !Covered(c, b, byName)
    {
      raised, broke, fleet := false, false, [];
      for i := 0 to |c.connectors|
        invariant |fleet| == i && !raised && !broke && world.setbacks == old(world.setbacks)
        invariant forall j :: 0 <= j < i ==> FillsSlot(c.connectors[j], b, byName, fleet[j])
        invariant forall j :: 0 <= j < i ==> TakenOrBuilt(c, b, byName, fleet[j])
      {
        var cc := c.connectors[i];
        if cc.name in b.connectors {
          broke := world.Fails();
          if broke {
            raised := true;
            return;
          }
          fleet := fleet + [BuildEntry(cc, b.connectors[cc.name], c)];
        } else if cc.name in byName {
          fleet := fleet + [byName[cc.name]];
        } else {
          raised := true;
          return;
        }
      }
    }

    method ReplaceRules(c: GatewayConfig, kept: set<string>) returns (raised: bool)
      requires forall i :: 0 <= i < |entries| && entries[i].cfg.name !in kept ==>
        entries[i].rules == RulesFor(c.watcherRules, entries[i].cfg.name)
      modifies this`entries, world`setbacks
      ensures BarSetbacks(old(world.setbacks), world.setbacks, !raised)
      ensures RulesOnly(old(entries), entries)
      ensures !raised ==> RulesInstalled(c, entries)
    {
      raised := false;
      for i := 0 to |entries|
        invariant RulesOnly(old(entries), entries) && world.setbacks == old(world.setbacks)
        invariant forall j :: 0 <= j < |entries| && (j < i || entries[j].cfg.name !in kept) ==>
          entries[j].rules == RulesFor(c.watcherRules, entries[j].cfg.name)
      {
        if entries[i].cfg.name in kept {
          raised := world.Fails();
          if raised { return; }
          entries := entries[i := entries[i].(rules := RulesFor(c.watcherRules, entries[i].cfg.name))];
        }
      }
    }

    method Rebuild(ghost s: ServiceState, ghost live: set<Proc>, ghost serial: nat, d: ConfigDiff, c: GatewayConfig,
                   b: Build,
                   kept: set<string>)
      returns (raised: bool)
      requires Fits(d, c) && Built(d, c, serial, b) && Loaded(c)
      requires StopDone(s, live, d, c, State(), world.live) && kept == Look(entries).Keys
      modifies this`entries, this`sessionManagers, rtm`agents, rtm.unavailable, world`setbacks
      ensures BarIfCovered(Covered(c, b, Look(s.entries)), old(world.setbacks), world.setbacks, !raised)
      ensures AgentsRebuilt(s, live, serial, d, c, b, State(), world.live)
      ensures kept <= Look(entries).Keys && DegradedKnown(Look(s.entries), entries, [])
      ensures !raised ==> Candidate(s, live, serial, d, c, b, kept, State(), world.live)
      ensures !raised ==> NoBrokerYet(s, live, d, b, rtm.State(), world.live)
    {
      ghost var s1 := State();
      ReplaceAgents(d, c, b);
      RebuildAgents(s, live, serial, d, c, b, s1, world.live, State());
      raised := InstallCandidate(s, live, serial, d, c, b, kept);
    }

    method InstallCandidate(ghost s: ServiceState, ghost live: set<Proc>, ghost serial: nat, d: ConfigDiff,
                            c: GatewayConfig,
                            b: Build, kept: set<string>)
      returns (raised: bool)
      requires Loaded(c) && b.connectors.Keys == RebuiltConnectors(d)
      requires AgentsRebuilt(s, live, serial, d, c, b, State(), world.live) && kept == Look(entries).Keys
      requires EntriesAfterStop(Look(s.entries), d, c, Look(entries))
      requires forall n :: n in kept ==> n in CandidateNames(c) && n !in RebuiltConnectors(d)
      modifies this`entries, this`sessionManagers, world`setbacks
      ensures BarIfCovered(Covered(c, b, Look(s.entries)), old(world.setbacks), world.setbacks, !raised)
      ensures AgentsRebuilt(s, live, serial, d, c, b, State(), world.live)
      ensures kept <= Look(entries).Keys && DegradedKnown(Look(s.entries), entries, [])
      ensures !raised ==> Candidate(s, live, serial, d, c, b, kept, State(), world.live)
    {
      raised := InstallNew(s, live, serial, d, c, b, kept);
      if raised { return; }
      ghost var s2 := State();
      raised := ReplaceRules(c, kept);
      RulesReplaced(s, live, serial, d, c, b, kept, s2, world.live, State());
    }

    method InstallNew(ghost s: ServiceState, ghost live: set<Proc>, ghost serial: nat, d: ConfigDiff, c: GatewayConfig,
                      b: Build, kept: set<string>)
      returns (raised: bool)
      requires Loaded(c) && b.connectors.Keys == RebuiltConnectors(d)
      requires AgentsRebuilt(s, live, serial, d, c, b, State(), world.live) && kept == Look(entries).Keys
      requires EntriesAfterStop(Look(s.entries), d, c, Look(entries))
      requires forall n :: n in kept ==> n in CandidateNames(c) && n !in RebuiltConnectors(d)
      modifies this`entries, this`sessionManagers, world`setbacks
      ensures BarIfCovered(Covered(c, b, Look(s.entries)), old(world.setbacks), world.setbacks, !raised)
      ensures raised ==> entries == old(entries) && sessionManagers == old(sessionManagers)
      ensures DegradedKnown(Look(s.entries), entries, [])
      ensures !raised ==> FleetReady(s, live, serial, d, c, b, State(), world.live)
      ensures !raised ==> kept <= Look(entries).Keys
      ensures !raised ==> forall i :: 0 <= i < |entries| ==> NewOrKept(Look(s.entries), c, b, kept, entries[i])
    {
      ghost var s1 := State();
      LookNames(entries);
      KnownAfterStop(Look(s.entries), d, c, entries);
      // The derived values of the candidate come first.
      raised := world.Fails();
      if raised { return; }
      var broke, fleet;
      raised, broke, fleet := AssembleFleet(c, b, Look(entries));
      if raised {
        if !broke { StillCovered(s, live, serial, d, c, b, s1, world.live); }
        return;
      }
      InstallEntries(fleet);
      NewFleet(s, live, serial, d, c, b, s1, world.live, State());
    }

    // ---- The start pass ----

    method DegradeEntry(i: nat, plan: ReloadPlan)
      requires i < |entries|
      modifies this`entries, world`live, world`asked, plan`degraded
      ensures entries == old(entries)[i := old(entries)[i].(degraded := true)]
      ensures plan.degraded == old(plan.degraded) + [Degraded(ConnectorSection, entries[i].cfg.name)]
      ensures world.live == old(world.live) || world.live == old(world.live) - {Instance(entries[i])}
      ensures AllAsked(old(world.asked), world.asked, {Instance(entries[i])})
    {
      entries := entries[i := entries[i].(degraded := true)];
      plan.Report(Degraded(ConnectorSection, entries[i].cfg.name));
      var _ := world.StopOnce(Instance(entries[i]));
    }

    // Records that could not be settled are a finding each; the connector connects all the same.
    method SettleAndConnect(i: nat, plan: ReloadPlan) returns (ok: bool)
      requires i < |entries|
      modifies world`live, world`errands, world`setbacks, plan`degraded
      ensures old(plan.degraded) <= plan.degraded && old(world.errands) <= world.errands
      ensures world.live == if ok then old(world.live) + {Instance(entries[i])} else old(world.live)
      ensures ok ==> Passed(old(world.errands), world.errands, SettleRecords, entries[i].cfg.name)
      ensures BarSetbacks(old(world.setbacks), world.setbacks, ok && plan.degraded == old(plan.degraded))
    {
      var raised := ReportRooms(SettleRecords, entries[i].cfg.name, plan);
      ok := !raised;
      if ok { ok := world.Start(Instance(entries[i])); }
    }

    // Records settled, then the connection; several logins overlap, no two share an outcome.
    method ConnectEntries(names: set<string>, plan: ReloadPlan) returns (up: set<string>)
      requires DistinctNames(entries)
      modifies this`entries, world`live, world`asked, world`errands, world`setbacks, plan`degraded
      ensures AllPassed(old(world.errands), world.errands, SettleRecords, up)
      ensures Settled(old(entries), entries, world.live, |old(entries)|, names, up, plan.degraded)
      ensures Smooth(old(world.setbacks), old(plan.degraded), false, world.setbacks, plan.degraded)
      ensures old(plan.degraded) <= plan.degraded
      ensures ConnectorsMove(Look(old(entries)), names, old(world.live), world.live)
    {
      ghost var es, live, reports := entries, world.live, plan.degraded;
      up := {};
      var i := 0;
      while i < |entries|
        invariant i <= |entries| == |es|
        invariant Settled(es, entries, world.live, i, names, up, plan.degraded)
        invariant reports <= plan.degraded
        invariant ConnectorsMove(Look(es), names, live, world.live)
        invariant Smooth(old(world.setbacks), reports, false, world.setbacks, plan.degraded)
        invariant AllPassed(old(world.errands), world.errands, SettleRecords, up)
      {
        if entries[i].cfg.name in names {
          ghost var es1, live1, reports1 := entries, world.live, plan.degraded;
          assert entries[i].id == es[i].id && entries[i].cfg == es[i].cfg;
          LookFinds(es, i);
          var ok := SettleAndConnect(i, plan);
          ghost var reports2 := plan.degraded;
          SettledReports(es, es1, live1, i, names, up, reports1, reports2);
          if ok {
            SettlePasses(es, entries, live1, i, names, up, plan.degraded, world.live);
            up := up + {entries[i].cfg.name};
          } else {
            DegradeEntry(i, plan);
            SettleDegrades(es, es1, live1, i, names, up, reports2, entries, world.live);
          }
        }
        i := i + 1;
      }
    }

    // The identity barrier, one entry at a time: a conflict degrades the entry whose addition makes
    // it, and an answer of any other kind raises. `errands` are those before any of this began.
    method CheckIdentities(ghost errands: multiset<Errand>, names: set<string>, plan: ReloadPlan)
      returns (raised: bool, up: set<string>)
      requires DistinctNames(entries) && Running(entries, names, world.live)
      requires AllPassed(errands, world.errands, SettleRecords, names)
      modifies this`entries, world`live, world`asked, world`errands, world`setbacks, plan`degraded
      ensures AllPassed(old(world.errands), world.errands, Identify, up)
      ensures HealthOnly(old(entries), entries) && NewlyReported(old(entries), entries, plan.degraded)
      ensures Smooth(old(world.setbacks), old(plan.degraded), raised, world.setbacks, plan.degraded)
      ensures !raised ==> Settled(old(entries), entries, world.live, |old(entries)|, names, up, plan.degraded)
      ensures old(plan.degraded) <= plan.degraded
      ensures ConnectorsMove(Look(old(entries)), names, old(world.live), world.live)
    {
      raised, up := CheckOrSync(Identify, names, plan);
    }

    // Watchers start, on connectors that passed the barrier. A raise here is that entry's failure, and
    // degrades it; rooms that are not up are a finding.
    method SyncEntries(ghost errands: multiset<Errand>, names: set<string>, plan: ReloadPlan)
      returns (up: set<string>)
      requires DistinctNames(entries) && Running(entries, names, world.live)
      requires AllPassed(errands, world.errands, Identify, names)
      modifies this`entries, world`live, world`asked, world`errands, world`setbacks, plan`degraded
      ensures AllPassed(old(world.errands), world.errands, Sync, up)
      ensures Settled(old(entries), entries, world.live, |old(entries)|, names, up, plan.degraded)
      ensures Smooth(old(world.setbacks), old(plan.degraded), false, world.setbacks, plan.degraded)
      ensures old(plan.degraded) <= plan.degraded
      ensures ConnectorsMove(Look(old(entries)), names, old(world.live), world.live)
    {
      var raised;
      raised, up := CheckOrSync(Sync, names, plan);
    }

    method CheckOrSync(work: Work, names: set<string>, plan: ReloadPlan) returns (raised: bool, up: set<string>)
      requires DistinctNames(entries) && Running(entries, names, world.live)
      modifies this`entries, world`live, world`asked, world`errands, world`setbacks, plan`degraded
      ensures AllPassed(old(world.errands), world.errands, work, up)
      ensures HealthOnly(old(entries), entries) && NewlyReported(old(entries), entries, plan.degraded)
      ensures Smooth(old(world.setbacks), old(plan.degraded), raised, world.setbacks, plan.degraded)
      ensures !raised ==> Settled(old(entries), entries, world.live, |old(entries)|, names, up, plan.degraded)
      ensures old(plan.degraded) <= plan.degraded
      ensures ConnectorsMove(Look(old(entries)), names, old(world.live), world.live)
      ensures raised ==> work == Identify
    {
      ghost var es, live, reports := entries, world.live, plan.degraded;
      raised, up := false, {};
      var i := 0;
      while i < |entries|
        invariant i <= |entries| == |es|
        invariant Settled(es, entries, world.live, i, names, up, plan.degraded)
        invariant reports <= plan.degraded
        invariant ConnectorsMove(Look(es), names, live, world.live)
        invariant forall j :: i <= j < |es| && es[j].cfg.name in names ==> Instance(es[j]) in world.live
        invariant Smooth(old(world.setbacks), reports, raised, world.setbacks, plan.degraded)
        invariant AllPassed(old(world.errands), world.errands, work, up)
      {
        if entries[i].cfg.name in names {
          ghost var es1, live1, reports1 := entries, world.live, plan.degraded;
          assert entries[i].id == es[i].id && entries[i].cfg == es[i].cfg;
          var ok;
          raised, ok := CheckOne(work, i, plan);
          if raised { return; }
          if ok {
            SettleKeeps(es, es1, live1, i, names, up, reports1);
            up := up + {entries[i].cfg.name};
            SettledReports(es, entries, live1, i + 1, names, up, reports1, plan.degraded);
          } else {
            SettleDegrades(es, es1, live1, i, names, up, reports1, entries, world.live);
          }
        }
        i := i + 1;
      }
    }

    method CheckOne(work: Work, i: nat, plan: ReloadPlan) returns (raised: bool, ok: bool)
      requires i < |entries|
      modifies this`entries, world`live, world`asked, world`errands, world`setbacks, plan`degraded
      ensures raised ==> work == Identify && ok && plan.degraded == old(plan.degraded)
      ensures entries == if ok then old(entries) else old(entries)[i := old(entries)[i].(degraded := true)]
      ensures old(plan.degraded) <= plan.degraded
      ensures !ok ==> plan.degraded == old(plan.degraded) + [Degraded(ConnectorSection, old(entries)[i].cfg.name)]
      ensures world.live == old(world.live) || (!ok && world.live == old(world.live) - {Instance(old(entries)[i])})
      ensures old(world.errands) <= world.errands
      ensures !raised && ok ==> Passed(old(world.errands), world.errands, work, old(entries)[i].cfg.name)
      ensures BarSetbacks(old(world.setbacks), world.setbacks, !raised && plan.degraded == old(plan.degraded))
    {
      raised, ok := false, true;
      if work == Identify {
        raised := world.Fails();
        if raised { return; }
        ok := world.Clears(work, entries[i].cfg.name);
      } else {
        var failed := ReportRooms(work, entries[i].cfg.name, plan);
        ok := !failed;
      }
      if !ok { DegradeEntry(i, plan); }
    }

    // Brings up the entries of `names`. `started` are those that came up; after a raise nobody knows.
    method StartEntries(names: set<string>, plan: ReloadPlan) returns (raised: bool, started: set<string>)
      requires DistinctNames(entries)
      modifies this`entries, world`live, world`asked, world`errands, world`setbacks, plan`degraded
      ensures old(world.errands) <= world.errands
      ensures !raised ==> HealthyLetIn(entries, names, old(world.errands), world.errands)
      ensures HealthOnly(old(entries), entries) && NewlyReported(old(entries), entries, plan.degraded)
      ensures Smooth(old(world.setbacks), old(plan.degraded), raised, world.setbacks, plan.degraded)
      ensures !raised ==> Settled(old(entries), entries, world.live, |old(entries)|, names, started, plan.degraded)
      ensures raised ==> started == {}
      ensures old(plan.degraded) <= plan.degraded
      ensures ConnectorsMove(Look(old(entries)), names, old(world.live), world.live)
    {
      ghost var es, live := entries, world.live;
      started := {};
      var connected := ConnectEntries(names, plan);
      ghost var es1, live1, reports1, errands1 := entries, world.live, plan.degraded, world.errands;
      var passing;
      raised, passing := CheckIdentities(old(world.errands), connected, plan);
      ghost var es2, live2, reports2, errands2 := entries, world.live, plan.degraded, world.errands;
      ConnectorsMoveTwice(es, es1, names, connected, live, live1, live2);
      ReportedTwice(es, es1, reports1, es2, reports2);
      if raised { return; }
      SettledTwice(es, es1, live1, names, connected, reports1, es2, live2, passing, reports2);
      started := SyncEntries(errands1, passing, plan);
      SettledTwice(es, es2, live2, names, passing, reports2, entries, world.live, started, plan.degraded);
      ConnectorsMoveTwice(es, es2, names, passing, live, live2, world.live);
      StepsLetIn(es, entries, world.live, names, connected, passing, started, plan.degraded, old(world.errands),
        errands1, errands2, world.errands);
    }

    // A kept manager whose reconciliation raises is degraded; it runs on until the next reload.
    method Reconcile(kept: set<string>, plan: ReloadPlan)
      requires DistinctNames(entries)
      modifies this`entries, world`errands, world`setbacks, plan`degraded
      ensures Sent(old(world.errands), world.errands, ApplyRules, kept * Look(old(entries)).Keys)
      ensures HealthOnly(old(entries), entries) && NewlyReported(old(entries), entries, plan.degraded)
      ensures ReconciledSoFar(old(entries), entries, |entries|, old(world.errands), world.errands)
      ensures old(plan.degraded) <= plan.degraded
      ensures forall i :: 0 <= i < |entries| && old(entries)[i].cfg.name !in kept ==> entries[i] == old(entries)[i]
      ensures Smooth(old(world.setbacks), old(plan.degraded), false, world.setbacks, plan.degraded)
    {
      ghost var es, errands, reports := entries, world.errands, plan.degraded;
      var i := 0;
      while i < |entries|
        invariant i <= |entries| == |es|
        invariant HealthOnly(es, entries) && NewlyReported(es, entries, plan.degraded)
        invariant reports <= plan.degraded
        invariant forall j :: 0 <= j < |es| && es[j].cfg.name !in kept ==> entries[j] == es[j]
        invariant Smooth(old(world.setbacks), reports, false, world.setbacks, plan.degraded)
        invariant SentSoFar(es, i, kept, ApplyRules, errands, world.errands)
        invariant ReconciledSoFar(es, entries, i, errands, world.errands)
      {
        assert entries[i].cfg == es[i].cfg;
        if entries[i].cfg.name in kept {
          ghost var es1, errands1, reports1 := entries, world.errands, plan.degraded;
          ghost var raised := ReconcileOne(i, plan);
          OneReconciled(es, es1, i, errands, errands1, reports1, raised, entries, world.errands, plan.degraded);
        }
        i := i + 1;
      }
      AllOfThemSent(es, kept, ApplyRules, errands, world.errands);
    }

    method ReconcileOne(i: nat, plan: ReloadPlan) returns (ghost failed: bool)
      requires i < |entries|
      modifies this`entries, world`errands, world`setbacks, plan`degraded
      ensures entries == old(entries)[i := old(entries)[i].(degraded := failed || old(entries)[i].degraded)]
      ensures world.errands == old(world.errands) + multiset{Errand(ApplyRules, old(entries)[i].cfg.name, failed)}
      ensures plan.degraded == old(plan.degraded) || plan.degraded ==
        old(plan.degraded) + [Degraded(ConnectorSection, old(entries)[i].cfg.name)]
      ensures failed ==> plan.degraded != old(plan.degraded)
      ensures Smooth(old(world.setbacks), old(plan.degraded), false, world.setbacks, plan.degraded)
    {
      var name := entries[i].cfg.name;
      var raised, short := world.Send(ApplyRules, name);
      if raised || short { plan.Report(Degraded(ConnectorSection, name)); }
      if raised { entries := entries[i := entries[i].(degraded := true)]; }
      failed := raised;
    }

    method StartAgents(ghost s: ServiceState, ghost live: set<Proc>, ghost serial: nat, d: ConfigDiff, c: GatewayConfig,
                       b: Build, plan: ReloadPlan)
      returns (raised: bool)
      requires rtm.world == world && Fits(d, c) && Built(d, c, serial, b)
      requires FleetReady(s, live, serial, d, c, b, State(), world.live) &&
        NoBrokerYet(s, live, d, b, rtm.State(), world.live)
      modifies rtm`brokers, rtm.unavailable, world`live, world`asked, world`serial, world`setbacks, plan`degraded
      ensures FleetReady(s, live, serial, d, c, b, State(), world.live)
      ensures old(plan.degraded) <= plan.degraded && world.serial >= old(world.serial)
      ensures !raised ==> AgentsUp(b, rtm.State(), world.live, plan.degraded)
      ensures Smooth(old(world.setbacks), old(plan.degraded), raised, world.setbacks, plan.degraded)
      ensures BrokersBelow(old(rtm.brokers), old(rtm.leftovers), old(world.serial)) ==>
        BrokersBelow(rtm.brokers, rtm.leftovers, world.serial)
    {
      raised := false;
      if b.backends != map[] {
        StartBuilt(s, live, serial, d, c, b);
        ghost var s1, live1 := State(), world.live;
        raised := ReportUnavailable(b, plan);
        assert State() == s1 && world.live == live1;
      }
    }

    method ReportUnavailable(b: Build, plan: ReloadPlan) returns (raised: bool)
      requires forall n :: n in b.backends && n !in rtm.unavailable.names ==>
        RebuiltUp(b, rtm.State(), world.live, n)
      modifies world`setbacks, plan`degraded
      ensures old(plan.degraded) <= plan.degraded && BarSetbacks(old(world.setbacks), world.setbacks, !raised)
      ensures !raised ==> AgentsUp(b, rtm.State(), world.live, plan.degraded)
      ensures plan.degraded == old(plan.degraded) <==> raised || b.backends.Keys * rtm.unavailable.names == {}
    {
      raised := world.Fails();
      if !raised { ReportAgents(b.backends.Keys * rtm.unavailable.names, plan); }
    }

    method StartBuilt(ghost s: ServiceState, ghost live: set<Proc>, ghost serial: nat, d: ConfigDiff, c: GatewayConfig,
                      b: Build)
      requires rtm.world == world && Fits(d, c) && Built(d, c, serial, b)
      requires FleetReady(s, live, serial, d, c, b, State(), world.live) &&
        NoBrokerYet(s, live, d, b, rtm.State(), world.live)
      modifies rtm`brokers, rtm.unavailable, world`live, world`asked, world`serial, world`setbacks
      ensures FleetReady(s, live, serial, d, c, b, State(), world.live)
      ensures world.serial >= old(world.serial)
      ensures forall n :: n in b.backends && n !in rtm.unavailable.names ==>
        RebuiltUp(b, rtm.State(), world.live, n)
      ensures BarSetbacks(old(world.setbacks), world.setbacks, b.backends.Keys * rtm.unavailable.names == {})
      ensures forall n :: n in b.backends && n in rtm.unavailable.names ==>
        ToldToStop(BackendProc(b.backends[n]), old(world.live), old(world.asked), world.live, world.asked)
      ensures BrokersBelow(old(rtm.brokers), old(rtm.leftovers), old(world.serial)) ==>
        BrokersBelow(rtm.brokers, rtm.leftovers, world.serial)
    {
      ghost var s1, live1, serial1 := State(), world.live, world.serial;
      var failed := rtm.StartSome(b.backends.Keys);
      FleetStarted(s, live, serial, d, c, b, s1, live1, serial1, failed, State(), world.live);
    }

    method StartKept(ghost s: ServiceState, ghost live: set<Proc>, ghost serial: nat, d: ConfigDiff, c: GatewayConfig,
                     b: Build, kept: set<string>, plan: ReloadPlan)
      returns (raised: bool)
      requires rtm.world == world && Fits(d, c) && Built(d, c, serial, b)
      requires Candidate(s, live, serial, d, c, b, kept, State(), world.live) &&
        NoBrokerYet(s, live, d, b, rtm.State(), world.live)
      modifies this`entries, rtm`brokers, rtm.unavailable, world`live, world`asked, world`serial, world`setbacks,
        plan`degraded
      ensures Look(entries).Keys == Look(old(entries)).Keys
      ensures !raised ==> AllHealthy(entries, b.connectors.Keys)
      ensures FleetReady(s, live, serial, d, c, b, State(), world.live)
      ensures old(plan.degraded) <= plan.degraded && world.serial >= old(world.serial)
      ensures DegradedKnown(Look(s.entries), entries, plan.degraded)
      ensures !raised ==> FleetServing(s, live, serial, d, c, b, State(), world.live, plan.degraded)
      ensures !raised ==> AgentsUp(b, rtm.State(), world.live, plan.degraded)
      ensures Smooth(old(world.setbacks), old(plan.degraded), raised, world.setbacks, plan.degraded)
      ensures BrokersBelow(old(rtm.brokers), old(rtm.leftovers), old(world.serial)) ==>
        BrokersBelow(rtm.brokers, rtm.leftovers, world.serial)
    {
      raised := StartAgents(s, live, serial, d, c, b, plan);
      if !raised { raised := RearmKept(s, live, serial, d, c, b, kept, plan.degraded); }
    }

    method RearmKept(ghost s: ServiceState, ghost live: set<Proc>, ghost serial: nat, d: ConfigDiff, c: GatewayConfig,
                     b: Build, kept: set<string>, ghost reports: seq<Degraded>)
      returns (raised: bool)
      requires Candidate(s, live, serial, d, c, b, kept, State(), world.live)
      modifies this`entries, world`setbacks
      ensures Look(entries).Keys == Look(old(entries)).Keys && AllHealthy(entries, b.connectors.Keys)
      ensures FleetReady(s, live, serial, d, c, b, State(), world.live)
      ensures DegradedKnown(Look(s.entries), entries, reports)
      ensures !raised ==> FleetServing(s, live, serial, d, c, b, State(), world.live, reports)
      ensures BarSetbacks(old(world.setbacks), world.setbacks, !raised)
    {
      ghost var s1, live1 := State(), world.live;
      var stuck;
      raised, stuck := Rearm(kept, false);
      Rearmed(s, live, serial, d, c, b, kept, s1, live1, State(), reports);
    }

    method ReconcileKept(ghost s: ServiceState, ghost live: set<Proc>, ghost serial: nat, d: ConfigDiff,
                         c: GatewayConfig,
                         b: Build, kept: set<string>, plan: ReloadPlan)
      requires FleetServing(s, live, serial, d, c, b, State(), world.live, plan.degraded)
      requires AgentsUp(b, rtm.State(), world.live, plan.degraded) && b.connectors.Keys == RebuiltConnectors(d)
      requires AllHealthy(entries, b.connectors.Keys) && kept !! b.connectors.Keys
      modifies this`entries, world`errands, world`setbacks, plan`degraded
      ensures old(world.errands) <= world.errands
      ensures d.RulesChanged() ==> Sent(old(world.errands), world.errands, ApplyRules, kept * Look(old(entries)).Keys)
      ensures Look(entries).Keys == Look(old(entries)).Keys
      ensures AllHealthy(entries, b.connectors.Keys)
      ensures FleetServing(s, live, serial, d, c, b, State(), world.live, plan.degraded)
      ensures Smooth(old(world.setbacks), old(plan.degraded), false, world.setbacks, plan.degraded)
      ensures AgentsUp(b, rtm.State(), world.live, plan.degraded)
      ensures old(plan.degraded) <= plan.degraded
    {
      if d.RulesChanged() {
        ghost var s1, reports1 := State(), plan.degraded;
        Reconcile(kept, plan);
        HealthKeepsPlaces(s1.entries, entries);
        LookSame(s1.entries, entries);
        HealthChanges(s, live, serial, d, c, b, s1, world.live, reports1, State(), world.live, plan.degraded);
      }
    }

    method StartNew(ghost s: ServiceState, ghost live: set<Proc>, ghost serial: nat, d: ConfigDiff, c: GatewayConfig,
                    b: Build, kept: set<string>, plan: ReloadPlan)
      returns (raised: bool, started: set<string>)
      requires FleetServing(s, live, serial, d, c, b, State(), world.live, plan.degraded)
      requires AgentsUp(b, rtm.State(), world.live, plan.degraded) && b.connectors.Keys == RebuiltConnectors(d)
      requires AllHealthy(entries, b.connectors.Keys)
      modifies this`entries, world`live, world`asked, world`errands, world`setbacks, plan`degraded
      ensures old(world.errands) <= world.errands
      ensures !raised ==> Sent(old(world.errands), world.errands, StartRooms, kept * Look(old(entries)).Keys)
      ensures !raised ==> HealthyLetIn(entries, RebuiltConnectors(d), old(world.errands), world.errands)
      ensures FleetServing(s, live, serial, d, c, b, State(), world.live, plan.degraded)
      ensures Smooth(old(world.setbacks), old(plan.degraded), raised, world.setbacks, plan.degraded)
      ensures old(plan.degraded) <= plan.degraded
      ensures started <= b.connectors.Keys && Running(entries, started, world.live) && AllHealthy(entries, started)
      ensures raised && started != {} ==> kept != {}
      ensures !raised ==> AllStarted(b, State(), world.live, plan.degraded)
    {
      raised, started := BringUp(s, live, serial, d, c, b, plan);
      if !raised {
        ghost var reports, errands := plan.degraded, world.errands;
        // The drained rooms of kept connectors, and the active rooms of every changed agent.
        raised := ReportAllRooms(StartRooms, kept, plan);
        MoreReports(s, live, serial, d, c, b, State(), world.live, reports, plan.degraded);
        StillLetIn(entries, RebuiltConnectors(d), old(world.errands), errands, world.errands);
      }
    }

    method BringUp(ghost s: ServiceState, ghost live: set<Proc>, ghost serial: nat, d: ConfigDiff, c: GatewayConfig,
                   b: Build, plan: ReloadPlan)
      returns (raised: bool, started: set<string>)
      requires FleetServing(s, live, serial, d, c, b, State(), world.live, plan.degraded)
      requires AgentsUp(b, rtm.State(), world.live, plan.degraded) && b.connectors.Keys == RebuiltConnectors(d)
      requires AllHealthy(entries, b.connectors.Keys)
      modifies this`entries, world`live, world`asked, world`errands, world`setbacks, plan`degraded
      ensures old(world.errands) <= world.errands && Look(entries).Keys == Look(old(entries)).Keys
      ensures !raised ==> HealthyLetIn(entries, RebuiltConnectors(d), old(world.errands), world.errands)
      ensures FleetServing(s, live, serial, d, c, b, State(), world.live, plan.degraded)
      ensures Smooth(old(world.setbacks), old(plan.degraded), raised, world.setbacks, plan.degraded)
      ensures old(plan.degraded) <= plan.degraded
      ensures started <= b.connectors.Keys && Running(entries, started, world.live) && AllHealthy(entries, started)
      ensures raised ==> started == {}
      ensures !raised ==> AllStarted(b, State(), world.live, plan.degraded)
    {
      ghost var s1, live1, reports1 := State(), world.live, plan.degraded;
      raised, started := StartEntries(b.connectors.Keys, plan);
      HealthChanges(s, live, serial, d, c, b, s1, live1, reports1, State(), world.live, plan.degraded);
      if !raised { EverythingStarted(b, s1, live1, reports1, started, State(), world.live, plan.degraded); }
      HealthKeepsPlaces(s1.entries, entries);
      LookSame(s1.entries, entries);
    }

    method StartPass(ghost s: ServiceState, ghost live: set<Proc>, ghost serial: nat, d: ConfigDiff, c: GatewayConfig,
                     b: Build, kept: set<string>, plan: ReloadPlan)
      returns (raised: bool, started: set<string>)
      requires rtm.world == world && Fits(d, c) && Built(d, c, serial, b)
      requires Candidate(s, live, serial, d, c, b, kept, State(), world.live) &&
        NoBrokerYet(s, live, d, b, rtm.State(), world.live)
      requires kept <= Look(entries).Keys && kept !! b.connectors.Keys
      modifies this`entries, rtm`brokers, rtm.unavailable, world, plan`degraded
      ensures FleetReady(s, live, serial, d, c, b, State(), world.live)
      ensures old(plan.degraded) <= plan.degraded && world.serial >= old(world.serial)
      ensures started <= b.connectors.Keys && Running(entries, started, world.live) && AllHealthy(entries, started)
      ensures raised && started != {} ==> kept != {}
      ensures old(world.errands) <= world.errands
      ensures !raised ==> StartErrands(kept, d, entries, old(world.errands), world.errands)
      ensures DegradedKnown(Look(s.entries), entries, plan.degraded)
      ensures !raised ==> FleetServing(s, live, serial, d, c, b, State(), world.live, plan.degraded)
      ensures !raised ==> AllStarted(b, State(), world.live, plan.degraded)
      ensures Smooth(old(world.setbacks), old(plan.degraded), raised, world.setbacks, plan.degraded)
      ensures BrokersBelow(old(rtm.brokers), old(rtm.leftovers), old(world.serial)) ==>
        BrokersBelow(rtm.brokers, rtm.leftovers, world.serial)
    {
      started := {};
      raised := StartKept(s, live, serial, d, c, b, kept, plan);
      if !raised { raised, started := StartRest(s, live, serial, d, c, b, kept, plan); }
    }

    method StartRest(ghost s: ServiceState, ghost live: set<Proc>, ghost serial: nat, d: ConfigDiff, c: GatewayConfig,
                     b: Build, kept: set<string>, plan: ReloadPlan)
      returns (raised: bool, started: set<string>)
      requires FleetServing(s, live, serial, d, c, b, State(), world.live, plan.degraded)
      requires AgentsUp(b, rtm.State(), world.live, plan.degraded) && b.connectors.Keys == RebuiltConnectors(d)
      requires AllHealthy(entries, b.connectors.Keys)
      requires kept <= Look(entries).Keys && kept !! b.connectors.Keys
      modifies this`entries, world`live, world`asked, world`errands, world`setbacks, plan`degraded
      ensures FleetServing(s, live, serial, d, c, b, State(), world.live, plan.degraded)
      ensures old(plan.degraded) <= plan.degraded
      ensures started <= b.connectors.Keys && Running(entries, started, world.live) && AllHealthy(entries, started)
      ensures raised && started != {} ==> kept != {}
      ensures old(world.errands) <= world.errands
      ensures !raised ==> StartErrands(kept, d, entries, old(world.errands), world.errands)
      ensures !raised ==> AllStarted(b, State(), world.live, plan.degraded)
      ensures Smooth(old(world.setbacks), old(plan.degraded), raised, world.setbacks, plan.degraded)
    {
      ghost var errands := world.errands;
      assert kept * Look(entries).Keys == kept;
      ReconcileKept(s, live, serial, d, c, b, kept, plan);
      ghost var errands1 := world.errands;
      raised, started := StartNew(s, live, serial, d, c, b, kept, plan);
      if !raised { BothStartErrands(kept, d, entries, errands, errands1, world.errands); }
    }

    // ---- After an apply that raised ----

    // A candidate connector with neither an entry nor a new object is built now, which may raise.
    method PlaceCandidates(c: GatewayConfig, b: Build) returns (raised: bool, head: seq<Entry>, missing: set<string>)
      requires Loaded(c) && DistinctNames(entries)
      modifies world`serial, world`setbacks
      ensures BarSetbacks(old(world.setbacks), world.setbacks, !raised)
      ensures world.serial >= old(world.serial)
      ensures !raised ==> |head| == |c.connectors|
      ensures !raised ==> forall i :: 0 <= i < |head| ==> Placeholder(c.connectors[i], b, Look(entries), head[i])
      ensures missing !! Look(entries).Keys
      ensures !raised ==> forall i :: 0 <= i < |c.connectors| ==> c.connectors[i].name in missing + Look(entries).Keys
      ensures raised ==> !Covered(c, b, Look(entries))
    {
      LookNames(entries);
      raised, head, missing := false, [], {};
      for i := 0 to |c.connectors|
        invariant |head| == i && missing !! Look(entries).Keys && world.serial >= old(world.serial)
        invariant forall j :: 0 <= j < i ==> c.connectors[j].name in missing + Look(entries).Keys
        invariant world.setbacks == old(world.setbacks)
        invariant forall j :: 0 <= j < i ==> Placeholder(c.connectors[j], b, Look(entries), head[j])
      {
        var cc := c.connectors[i];
        if cc.name in Look(entries) {
          head := head + [Look(entries)[cc.name]];
        } else {
          var id;
          if cc.name in b.connectors {
            id := b.connectors[cc.name];
          } else {
            raised := world.Fails();
            if raised { return; }
            id := world.NewId();
          }
          missing := missing + {cc.name};
          head := head + [BuildEntry(cc, id, c)];
        }
      }
    }

    // A placeholder is degraded the way a connector that failed to start is: shut down, and reported.
    method DegradePlaceholders(es: seq<Entry>, missing: set<string>, plan: ReloadPlan) returns (es': seq<Entry>)
      modifies world`live, world`asked, plan`degraded
      ensures HealthOnly(es, es') && NewlyReported(es, es', plan.degraded)
      ensures old(plan.degraded) <= plan.degraded
      ensures world.live <= old(world.live)
      ensures forall p :: p in old(world.live) && p !in world.live ==> p.ConnectorProc? && p.name in missing
      ensures forall i :: 0 <= i < |es| ==> (es'[i].degraded <==> es[i].degraded || es[i].cfg.name in missing)
      ensures AllAsked(old(world.asked), world.asked, Instances(es, missing))
    {
      es' := es;
      var i := 0;
      while i < |es|
        invariant i <= |es|
        invariant HealthOnly(es, es') && NewlyReported(es, es', plan.degraded)
        invariant old(plan.degraded) <= plan.degraded
        invariant world.live <= old(world.live)
        invariant forall p :: p in old(world.live) && p !in world.live ==> p.ConnectorProc? && p.name in missing
        invariant forall j :: 0 <= j < |es| ==>
          (es'[j].degraded <==> es[j].degraded || (j < i && es[j].cfg.name in missing))
        invariant AllAsked(old(world.asked), world.asked, Instances(es[..i], missing))
      {
        assert es[..i + 1] == es[..i] + [es[i]];
        InstancesMore(es[..i], es[i], missing);
        if es[i].cfg.name in missing {
          DegradesOne(es, es', i, plan.degraded);
          es' := es'[i := es'[i].(degraded := true)];
          plan.Report(Degraded(ConnectorSection, es[i].cfg.name));
          var _ := world.StopOnce(Instance(es[i]));
        }
        i := i + 1;
      }
      assert es[..|es|] == es;
    }

    // Whatever is not known to have started is degraded, and nothing else.
    method DegradeTheRest(es: seq<Entry>, started: set<string>, plan: ReloadPlan) returns (es': seq<Entry>)
      modifies plan`degraded
      ensures HealthOnly(es, es') && NewlyReported(es, es', plan.degraded)
      ensures old(plan.degraded) <= plan.degraded
      ensures forall i :: 0 <= i < |es| ==> (es'[i].degraded <==> es[i].degraded || es[i].cfg.name !in started)
    {
      es' := es;
      var i := 0;
      while i < |es|
        invariant i <= |es|
        invariant HealthOnly(es, es') && NewlyReported(es, es', plan.degraded)
        invariant old(plan.degraded) <= plan.degraded
        invariant forall j :: 0 <= j < |es| ==>
          (es'[j].degraded <==> es[j].degraded || (j < i && es[j].cfg.name !in started))
      {
        if es[i].cfg.name !in started && !es[i].degraded {
          DegradesOne(es, es', i, plan.degraded);
          es' := es'[i := es'[i].(degraded := true)];
          plan.Report(Degraded(ConnectorSection, es[i].cfg.name));
        }
        i := i + 1;
      }
    }

    method MarkUnsettled(placed: seq<Entry>, missing: set<string>, started: set<string>, plan: ReloadPlan)
      returns (fleet: seq<Entry>)
      requires missing !! started
      modifies world`live, world`asked, plan`degraded
      ensures Marked(placed, fleet, started, plan.degraded)
      ensures old(plan.degraded) <= plan.degraded
      ensures world.live <= old(world.live)
      ensures forall p :: p in old(world.live) && p !in world.live ==> p.ConnectorProc? && p.name in missing
      ensures AllAsked(old(world.asked), world.asked, Instances(placed, missing))
    {
      var marked := DegradePlaceholders(placed, missing, plan);
      ghost var reports1 := plan.degraded;
      fleet := DegradeTheRest(marked, started, plan);
      ReportedTwice(placed, marked, reports1, fleet, plan.degraded);
      HealthKeepsPlaces(placed, marked);
    }

    // The whole fleet after a raise: what is installed, and a placeholder for each candidate
    // connector that is not. Nothing is installed yet.
    method PlaceFleet(c: GatewayConfig, b: Build, started: set<string>, plan: ReloadPlan)
      returns (raised: bool, ghost placed: seq<Entry>, fleet: seq<Entry>)
      requires Loaded(c) && DistinctNames(entries) && started <= Look(entries).Keys
      modifies world, plan`degraded
      ensures world.serial >= old(world.serial) && old(plan.degraded) <= plan.degraded
      ensures BarSetbacks(old(world.setbacks), world.setbacks, !raised)
      ensures raised ==> !Covered(c, b, Look(entries)) && world.live == old(world.live)
      ensures !raised ==> Placed(Look(entries), c, b, placed)
      ensures !raised ==> Marked(placed, fleet, started, plan.degraded)
      ensures !raised ==> forall i :: 0 <= i < |c.connectors| && c.connectors[i].name !in Look(entries) ==>
        world.asked[Instance(placed[i])] > old(world.asked)[Instance(placed[i])]
      ensures world.live <= old(world.live)
      ensures forall p :: p in old(world.live) && p !in world.live ==> p.ConnectorProc? && p.name !in Look(entries)
    {
      placed, fleet := [], [];
      var head, missing;
      raised, head, missing := PlaceCandidates(c, b);
      if raised { return; }
      PlacedLook(c, b, entries, head);
      placed := head + Without(entries, CandidateNames(c));
      fleet := MarkUnsettled(head + Without(entries, CandidateNames(c)), missing, started, plan);
      forall i | 0 <= i < |c.connectors| && c.connectors[i].name !in Look(entries)
        ensures world.asked[Instance(placed[i])] > old(world.asked)[Instance(placed[i])] {
        assert placed[i] == head[i] && placed[i] in placed;
      }
    }

    // The settled fleet goes in, kept managers take work again and so does the scheduler.
    method Resume(fleet: seq<Entry>, kept: set<string>) returns (stuck: set<string>)
      modifies this`entries, this`sessionManagers, this`schedulerRunning, world`setbacks
      ensures State() == old(State()).(entries := entries, managers := Index(fleet), schedulerRunning := true)
      ensures Resumed(fleet, kept, stuck, entries)
      ensures stuck <= kept && old(world.setbacks) + |stuck| <= world.setbacks
    {
      InstallEntries(fleet);
      var raised;
      raised, stuck := Rearm(kept, true);
      schedulerRunning := true;
    }

    // The previous configuration stays active; kept managers take work again, except those whose
    // re-arm raised.
    method Settle(ghost s: ServiceState, ghost live: set<Proc>, ghost serial: nat, d: ConfigDiff, c: GatewayConfig,
                  b: Build, kept: set<string>, started: set<string>, ghost reports: seq<Degraded>, plan: ReloadPlan)
      returns (raised: bool, stuck: set<string>)
      requires Fits(d, c) && Built(d, c, serial, b) && Loaded(c)
      requires Underway(s, live, serial, d, c, b, kept, started, true, State(), world.live, reports)
      requires reports <= plan.degraded && forall n :: n in b.backends ==> Degraded(AgentSection, n) in plan.degraded
      modifies this`entries, this`sessionManagers, this`schedulerRunning, world, plan`degraded
      ensures world.serial >= old(world.serial) && old(plan.degraded) <= plan.degraded
      ensures Applied(s, live, serial, d, c, if raised then Unsettled else Failed(stuck), b, started,
        State().(suspects := suspectAgents + b.backends.Keys), world.live, plan.degraded)
      ensures stuck <= kept && old(world.setbacks) + |stuck| <= world.setbacks
      ensures raised ==> world.setbacks > old(world.setbacks)
    {
      ghost var s1, live1 := State(), world.live;
      ghost var placed;
      var fleet;
      stuck := {};
      raised, placed, fleet := PlaceFleet(c, b, started, plan);
      assert State() == s1;
      if !raised { stuck := Resume(fleet, kept); }
      ghost var s2 := State().(suspects := suspectAgents + b.backends.Keys);
      SettleOutcome(s, live, serial, d, c, b, kept, started, s1, live1, reports, raised, placed, fleet, stuck,
                    s2, world.live, plan.degraded);
    }

    // ---- One apply ----

    method RebuildAndStart(ghost s: ServiceState, ghost live: set<Proc>, ghost serial: nat, d: ConfigDiff,
                           c: GatewayConfig,
                           b: Build, kept: set<string>, plan: ReloadPlan)
      returns (raised: bool, started: set<string>)
      requires rtm.world == world && Fits(d, c) && Built(d, c, serial, b) && Loaded(c)
      requires StopDone(s, live, d, c, State(), world.live) && kept == Look(entries).Keys
      modifies this`entries, this`sessionManagers, rtm`agents, rtm`brokers, rtm.unavailable, world, plan`degraded
      ensures Underway(s, live, serial, d, c, b, kept, started, raised, State(), world.live, plan.degraded)
      ensures BarIfCovered(Covered(c, b, Look(s.entries)), old(world.setbacks), world.setbacks,
        !raised && plan.degraded == old(plan.degraded))
      ensures old(plan.degraded) <= plan.degraded && world.serial >= old(world.serial)
      ensures !raised ==> Finished(s, live, serial, d, c, b, State(), world.live, plan.degraded)
      ensures old(world.errands) <= world.errands
      ensures !raised ==> StartErrands(kept, d, entries, old(world.errands), world.errands)
      ensures BrokersBelow(old(rtm.brokers), old(rtm.leftovers), old(world.serial)) ==>
        BrokersBelow(rtm.brokers, rtm.leftovers, world.serial)
    {
      ghost var s1, live1 := State(), world.live;
      started := {};
      raised := Rebuild(s, live, serial, d, c, b, kept);
      if raised {
        RaisedUnderway(s, live, serial, d, c, b, s1, live1, State(), world.live, plan.degraded);
      } else {
        raised, started := StartRebuilt(s, live, serial, d, c, b, kept, s1, live1, plan);
      }
    }

    method StartRebuilt(ghost s: ServiceState, ghost live: set<Proc>, ghost serial: nat, d: ConfigDiff,
                        c: GatewayConfig, b: Build, kept: set<string>, ghost s1: ServiceState, ghost live1: set<Proc>,
                        plan: ReloadPlan)
      returns (raised: bool, started: set<string>)
      requires rtm.world == world && Fits(d, c) && Built(d, c, serial, b) && Loaded(c)
      requires StopDone(s, live, d, c, s1, live1) && kept == Look(s1.entries).Keys
      requires Candidate(s, live, serial, d, c, b, kept, State(), world.live) &&
        NoBrokerYet(s, live, d, b, rtm.State(), world.live)
      requires kept <= Look(entries).Keys
      modifies this`entries, rtm`brokers, rtm.unavailable, world, plan`degraded
      ensures Underway(s, live, serial, d, c, b, kept, started, raised, State(), world.live, plan.degraded)
      ensures Smooth(old(world.setbacks), old(plan.degraded), raised, world.setbacks, plan.degraded)
      ensures old(plan.degraded) <= plan.degraded && world.serial >= old(world.serial)
      ensures !raised ==> Finished(s, live, serial, d, c, b, State(), world.live, plan.degraded)
      ensures old(world.errands) <= world.errands
      ensures !raised ==> StartErrands(kept, d, entries, old(world.errands), world.errands)
      ensures BrokersBelow(old(rtm.brokers), old(rtm.leftovers), old(world.serial)) ==>
        BrokersBelow(rtm.brokers, rtm.leftovers, world.serial)
    {
      raised, started := StartPass(s, live, serial, d, c, b, kept, plan);
      FleetUnderway(s, live, serial, d, c, b, s1, live1, started, raised, State(), world.live, plan.degraded);
    }

    method RunApply(ghost serial: nat, d: ConfigDiff, c: GatewayConfig, b: Build, plan: ReloadPlan)
      returns (raised: bool, kept: set<string>, started: set<string>)
      requires rtm.world == world && Valid(State()) && Fits(d, c) && Built(d, c, serial, b) && Loaded(c)
      modifies this`entries, this`sessionManagers, this`leftoverEntries, this`schedulerRunning
      modifies rtm, rtm.unavailable, world, plan`degraded
      ensures Underway(old(State()), old(world.live), serial, d, c, b, kept, started, raised, State(), world.live,
        plan.degraded)
      ensures old(plan.degraded) <= plan.degraded && world.serial >= old(world.serial)
      ensures !raised ==> Finished(old(State()), old(world.live), serial, d, c, b, State(), world.live, plan.degraded)
      ensures BarIfCovered(Covered(c, b, Look(old(entries))), old(world.setbacks), world.setbacks,
        !raised && plan.degraded == old(plan.degraded))
      ensures !raised ==>
        RoomsFollow(Look(old(entries)).Keys, d, c, entries, old(world.errands), world.errands)
      ensures LeftoversReported(old(State()), State(), plan.degraded)
      ensures BrokersBelow(old(rtm.brokers), old(rtm.leftovers), old(world.serial)) ==>
        BrokersBelow(rtm.brokers, rtm.leftovers, world.serial)
    {
      started := {};
      raised, kept := StopPass(d, c, plan);
      if raised {
        StopIsBegun(old(State()), old(world.live), serial, d, c, b, State(), world.live);
        KnownAfterStop(Look(old(entries)), d, c, entries);
      } else {
        ghost var errands := world.errands;
        raised, started := RebuildAndStart(old(State()), old(world.live), serial, d, c, b, kept, plan);
        if !raised {
          AllErrands(Look(old(entries)).Keys, d, c, kept, entries, old(world.errands), errands, world.errands);
        }
      }
    }

    // New backends and connectors, constructed before anything is stopped. A factory that raises
    // refuses the reload.
    method Construct(d: ConfigDiff, c: GatewayConfig) returns (refused: bool, b: Build)
      requires Fits(d, c)
      modifies world`serial, world`setbacks
      ensures BarSetbacks(old(world.setbacks), world.setbacks, !refused)
      ensures world.serial >= old(world.serial)
      ensures !refused ==> Built(d, c, old(world.serial), b)
      ensures b.top <= world.serial
    {
      b := Build(map[], map[], world.serial);
      refused := world.Fails();
      if refused { return; }
      var backends := BuildBackends(world, RebuiltAgents(d), c);
      var connectors := BuildConnectors(world, RebuiltConnectors(d));
      b := Build(backends, connectors, world.serial);
    }

    // The rebuilt agents may run the candidate's definition while the previous configuration stays
    // active: they are suspect until an apply completes.
    method Salvage(ghost s: ServiceState, ghost live: set<Proc>, ghost serial: nat, d: ConfigDiff, c: GatewayConfig,
                   b: Build, kept: set<string>, started: set<string>, plan: ReloadPlan)
      returns (outcome: Outcome)
      requires Fits(d, c) && Built(d, c, serial, b) && Loaded(c)
      requires Underway(s, live, serial, d, c, b, kept, started, true, State(), world.live, plan.degraded)
      modifies this`entries, this`sessionManagers, this`schedulerRunning, this`suspectAgents, world, plan`degraded
      ensures outcome.Failed? || outcome == Unsettled
      ensures outcome.Failed? ==> outcome.stuck <= kept
      ensures world.setbacks >= old(world.setbacks) + if outcome.Failed? then |outcome.stuck| else 1
      ensures old(plan.degraded) <= plan.degraded
      ensures Applied(s, live, serial, d, c, outcome, b, started, State(), world.live, plan.degraded)
      ensures world.serial >= old(world.serial)
    {
      ghost var s1, live1, reports := State(), world.live, plan.degraded;
      ReportAgents(b.backends.Keys, plan);
      assert State() == s1 && world.live == live1;
      outcome := SettleAndSuspect(s, live, serial, d, c, b, kept, started, reports, plan);
    }

    method SettleAndSuspect(ghost s: ServiceState, ghost live: set<Proc>, ghost serial: nat, d: ConfigDiff,
                            c: GatewayConfig, b: Build, kept: set<string>, started: set<string>,
                            ghost reports: seq<Degraded>, plan: ReloadPlan)
      returns (outcome: Outcome)
      requires Fits(d, c) && Built(d, c, serial, b) && Loaded(c)
      requires Underway(s, live, serial, d, c, b, kept, started, true, State(), world.live, reports)
      requires reports <= plan.degraded && forall n :: n in b.backends ==> Degraded(AgentSection, n) in plan.degraded
      modifies this`entries, this`sessionManagers, this`schedulerRunning, this`suspectAgents, world, plan`degraded
      ensures outcome.Failed? || outcome == Unsettled
      ensures outcome.Failed? ==> outcome.stuck <= kept
      ensures world.setbacks >= old(world.setbacks) + if outcome.Failed? then |outcome.stuck| else 1
      ensures old(plan.degraded) <= plan.degraded && world.serial >= old(world.serial)
      ensures Applied(s, live, serial, d, c, outcome, b, started, State(), world.live, plan.degraded)
    {
      var raised, stuck := Settle(s, live, serial, d, c, b, kept, started, reports, plan);
      ghost var s2 := State();
      suspectAgents := suspectAgents + b.backends.Keys;
      outcome := if raised then Unsettled else Failed(stuck);
      assert State() == s2.(suspects := suspectAgents);
    }

    method ApplyReload(d: ConfigDiff, c: GatewayConfig, plan: ReloadPlan)
      returns (outcome: Outcome, ghost b: Build, ghost started: set<string>)
      requires rtm.world == world && Valid(State()) && Fits(d, c) && Loaded(c) && !reloading
      modifies this, rtm, rtm.unavailable, world, plan`degraded
      ensures Applied(old(State()), old(world.live), old(world.serial), d, c, outcome, b, started, State(), world.live,
        plan.degraded)
      ensures world.serial >= old(world.serial)
      ensures BarIfCovered(Covered(c, b, Look(old(entries))), old(world.setbacks), world.setbacks,
        outcome == Completed && plan.degraded == old(plan.degraded))
      ensures outcome == Completed ==>
        RoomsFollow(Look(old(entries)).Keys, d, c, entries, old(world.errands), world.errands)
      ensures outcome == Refused ==> world.setbacks > old(world.setbacks)
      ensures outcome == Refused ==> plan.degraded == old(plan.degraded)
      ensures !reloading
      ensures LeftoversReported(old(State()), State(), plan.degraded)
      ensures old(plan.degraded) <= plan.degraded
      ensures b.top <= world.serial
      ensures BrokersBelow(old(rtm.brokers), old(rtm.leftovers), old(world.serial)) ==>
        BrokersBelow(rtm.brokers, rtm.leftovers, world.serial)
    {
      ghost var s, live, serial := State(), world.live, world.serial;
      started := {};
      var refused, build := Construct(d, c);
      b := build;
      if refused { return Refused, b, started; }
      reloading := true;
      assert State() == s;
      outcome, started := ApplyBuilt(s, live, serial, d, c, build, plan);
      reloading := false;
    }

    method ApplyBuilt(ghost s: ServiceState, ghost live: set<Proc>, ghost serial: nat, d: ConfigDiff, c: GatewayConfig,
                      b: Build, plan: ReloadPlan)
      returns (outcome: Outcome, ghost started: set<string>)
      requires rtm.world == world && Valid(s) && Fits(d, c) && Built(d, c, serial, b) && Loaded(c) && reloading
      requires s == State() && live == world.live
      modifies this`config, this`entries, this`sessionManagers, this`leftoverEntries, this`suspectAgents,
        this`schedulerRunning
      modifies rtm, rtm.unavailable, world, plan`degraded
      ensures outcome != Refused
      ensures BarIfCovered(Covered(c, b, Look(old(entries))), old(world.setbacks), world.setbacks,
        outcome == Completed && plan.degraded == old(plan.degraded))
      ensures outcome == Completed ==>
        RoomsFollow(Look(old(entries)).Keys, d, c, entries, old(world.errands), world.errands)
      ensures Applied(s, live, serial, d, c, outcome, b, started, State(), world.live, plan.degraded)
      ensures world.serial >= old(world.serial)
      ensures LeftoversReported(s, State(), plan.degraded)
      ensures old(plan.degraded) <= plan.degraded
      ensures BrokersBelow(old(rtm.brokers), old(rtm.leftovers), old(world.serial)) ==>
        BrokersBelow(rtm.brokers, rtm.leftovers, world.serial)
    {
      var raised, kept, up := RunApply(serial, d, c, b, plan);
      started := up;
      outcome := Conclude(s, live, serial, d, c, b, raised, kept, up, plan);
    }

    method Conclude(ghost s: ServiceState, ghost live: set<Proc>, ghost serial: nat, d: ConfigDiff, c: GatewayConfig,
                    b: Build, raised: bool, kept: set<string>, started: set<string>, plan: ReloadPlan)
      returns (outcome: Outcome)
      requires Fits(d, c) && Built(d, c, serial, b) && Loaded(c)
      requires Underway(s, live, serial, d, c, b, kept, started, raised, State(), world.live, plan.degraded)
      requires !raised ==> Finished(s, live, serial, d, c, b, State(), world.live, plan.degraded)
      modifies this`config, this`entries, this`sessionManagers, this`schedulerRunning, this`suspectAgents
      modifies world, plan`degraded
      ensures outcome != Refused && (outcome == Completed <==> !raised)
      ensures Applied(s, live, serial, d, c, outcome, b, started, State(), world.live, plan.degraded)
      ensures !raised ==> entries == old(entries) && world.errands == old(world.errands)
      ensures !raised ==> world.setbacks == old(world.setbacks) && plan.degraded == old(plan.degraded)
      ensures world.serial >= old(world.serial) && world.setbacks >= old(world.setbacks)
      ensures old(plan.degraded) <= plan.degraded
    {
      if raised {
        outcome := Salvage(s, live, serial, d, c, b, kept, started, plan);
      } else {
        outcome := Completed;
        Commit(s, live, serial, d, c, b, plan);
      }
    }

    method Commit(ghost s: ServiceState, ghost live: set<Proc>, ghost serial: nat, d: ConfigDiff, c: GatewayConfig,
                  b: Build, plan: ReloadPlan)
      requires Finished(s, live, serial, d, c, b, State(), world.live, plan.degraded)
      modifies this`config, this`schedulerRunning, this`suspectAgents
      ensures CompletedApply(s, live, serial, d, c, b, State(), world.live, plan.degraded)
    {
      ghost var s1 := State();
      schedulerRunning := true;
      config := c;
      suspectAgents := {};
      Committed(s, live, serial, d, c, b, s1, world.live, plan.degraded, State());
    }

    // ---- One request ----

    // Leftover connectors, then leftover backends and brokers, are stopped once more.
    method RetryLeftovers()
      requires rtm.world == world
      modifies this`leftoverEntries, rtm`leftovers, world`live, world`asked, world`setbacks
      ensures LeftoversRetried(old(State()), old(world.live), State(), world.live)
      ensures BarSetbacks(old(world.setbacks), world.setbacks, leftoverEntries == [] && rtm.leftovers == [])
      ensures AllAsked(old(world.asked), world.asked,
        (set p | p in old(leftoverEntries)) + (set p | p in old(rtm.leftovers)))
      ensures BrokersBelow(old(rtm.brokers), old(rtm.leftovers), old(world.serial)) ==>
        BrokersBelow(rtm.brokers, rtm.leftovers, world.serial)
    {
      RetryEntries();
      rtm.RetryLeftovers();
    }

    method RetryEntries()
      modifies this`leftoverEntries, world`live, world`asked, world`setbacks
      ensures BarSetbacks(old(world.setbacks), world.setbacks, leftoverEntries == [])
      ensures forall p :: p in leftoverEntries ==> p in old(leftoverEntries)
      ensures forall p :: p in old(leftoverEntries) && p !in leftoverEntries ==> p !in world.live
      ensures world.live <= old(world.live)
      ensures forall p :: p in old(world.live) && p !in world.live ==> p in old(leftoverEntries)
      ensures AllAsked(old(world.asked), world.asked, set p | p in old(leftoverEntries))
    {
      var still: seq<Proc> := [];
      var i := 0;
      while i < |leftoverEntries|
        invariant i <= |leftoverEntries| && leftoverEntries == old(leftoverEntries)
        invariant forall p :: p in still ==> p in leftoverEntries
        invariant forall p :: p in leftoverEntries[..i] && p !in still ==> p !in world.live
        invariant world.live <= old(world.live)
        invariant forall p :: p in old(world.live) && p !in world.live ==> p in leftoverEntries
        invariant AllAsked(old(world.asked), world.asked, set p | p in leftoverEntries[..i])
        invariant BarSetbacks(old(world.setbacks), world.setbacks, still == [])
      {
        var stopped := world.StopWithRetries(leftoverEntries[i]);
        if !stopped { still := still + [leftoverEntries[i]]; }
        i := i + 1;
      }
      leftoverEntries := still;
    }

    method RetryDegraded(d: ConfigDiff, c: GatewayConfig) returns (folded: ConfigDiff)
      ensures folded == FoldDegraded(d, entries, rtm.unavailable.names + suspectAgents, c)
    {
      var changed := d.connectors.changed;
      for i := 0 to |entries|
        invariant changed == d.connectors.changed + DegradedNames(entries[..i], d, c)
      {
        var e := entries[i];
        assert entries[..i + 1] == entries[..i] + [e];
        if e.degraded && e.cfg.name in CandidateNames(c) && e.cfg.name !in changed &&
          e.cfg.name !in d.connectors.added {
          changed := changed + {e.cfg.name};
        }
      }
      assert entries[..|entries|] == entries;
      var doubtful := rtm.unavailable.names + suspectAgents;
      folded := d.(connectors := d.connectors.(changed := changed),
                   agents := d.agents.(changed := d.agents.changed + doubtful * c.agents.Keys));
    }

    // Entries neither configuration names go, as do the state files no candidate connector owns.
    method PlanReload(d: ConfigDiff, c: GatewayConfig) returns (raised: bool, planned: ConfigDiff, watchers: nat)
      requires d.connectors.removed !! CandidateNames(c)
      modifies world`setbacks
      ensures planned == d.(connectors := d.connectors.(removed := planned.connectors.removed))
      ensures d.connectors.removed + (Look(entries).Keys - CandidateNames(c)) <= planned.connectors.removed
      ensures planned.connectors.removed !! CandidateNames(c)
      ensures BarSetbacks(old(world.setbacks), world.setbacks, !raised)
    {
      var orphans: set<string> := *;
      planned := d.(connectors := d.connectors.(removed := d.connectors.removed +
        (Look(entries).Keys + orphans - CandidateNames(c))));
      watchers := *;
      raised := world.Fails();
    }

    method FoldAndPlan(c: GatewayConfig) returns (raised: bool, planned: ConfigDiff, watchers: nat)
      modifies world`setbacks
      ensures Planned(State(), c, planned)
      ensures BarSetbacks(old(world.setbacks), world.setbacks, !raised)
    {
      var folded := RetryDegraded(DiffConfigs(config, c), c);
      raised, planned, watchers := PlanReload(folded, c);
    }

    method ReportLeftovers(plan: ReloadPlan)
      modifies plan`degraded
      ensures plan.degraded == old(plan.degraded) + LeftoverFindings(leftoverEntries) + LeftoverFindings(rtm.leftovers)
    {
      plan.degraded := plan.degraded + LeftoverFindings(leftoverEntries) + LeftoverFindings(rtm.leftovers);
    }

    // The plan for `c`, with nothing done yet.
    method MakePlan(dryRun: bool, c: GatewayConfig) returns (plan: ReloadPlan)
      modifies world`setbacks
      ensures fresh(plan) && plan.dryRun == dryRun && !plan.applied
      ensures plan.ok ==> Planned(State(), c, plan.planned)
      ensures plan.ok ==> plan.degraded == LeftoverFindings(leftoverEntries) + LeftoverFindings(rtm.leftovers)
      ensures !plan.ok ==> plan.degraded == []
      ensures BarSetbacks(old(world.setbacks), world.setbacks, plan.ok)
    {
      // Only new rules can make two connectors answer one private conversation.
      if DiffConfigs(config, c).RulesChanged() {
        var conflict := world.Fails();
        if conflict {
          plan := new ReloadPlan.Refused(dryRun);
          return;
        }
      }
      var raised, planned, watchers := FoldAndPlan(c);
      if raised {
        plan := new ReloadPlan.Refused(dryRun);
        return;
      }
      plan := new ReloadPlan(dryRun, planned, watchers);
      ReportLeftovers(plan);
    }

    method ReloadConfig(dryRun: bool, fromFile: bool, otherPath: bool, busy: bool, validated: Option<GatewayConfig>)
      returns (plan: ReloadPlan, ghost step: Step)
      requires rtm.world == world && Valid(State()) && !reloading
      requires validated.Some? ==> Loaded(validated.value)
      modifies this, rtm, rtm.unavailable, world
      ensures fresh(plan) && !reloading && world.serial >= old(world.serial) && world.setbacks >= old(world.setbacks)
      ensures Reloaded(old(State()), old(world.live), step, State(), world.live, plan.degraded)
      ensures !Heard(fromFile, otherPath, busy, validated) ==> step == Untouched && !plan.ok && plan.ExitCode() == 1
      ensures Heard(fromFile, otherPath, busy, validated) ==>
        Carried(dryRun, validated.value, State(), plan.ok, plan.planned, plan.watchers, step)
      ensures Heard(fromFile, otherPath, busy, validated) ==>
        Lands(world.setbacks == old(world.setbacks), dryRun, step, plan.ok, plan.degraded)
      ensures plan.applied <==> step.Tried? && step.outcome == Completed
      ensures plan.applied ==>
        RoomsFollow(Look(step.before.entries).Keys, step.d, step.c, entries, old(world.errands), world.errands)
      ensures plan.ok || (step.Tried? && step.outcome != Refused) ==> AllReported(State(), plan.degraded)
      ensures plan.ExitCode() == 0 ==> leftoverEntries == [] && rtm.leftovers == []
      ensures ExitTells(step, plan.ok, plan.degraded, plan.ExitCode())
      ensures step.Tried? ==> old(world.serial) <= step.serial && step.b.top <= world.serial
      ensures BrokersBelow(old(rtm.brokers), old(rtm.leftovers), old(world.serial)) ==>
        BrokersBelow(rtm.brokers, rtm.leftovers, world.serial)
    {
      step := Untouched;
      if !fromFile || otherPath || busy || validated.None? {
        plan := new ReloadPlan.Refused(dryRun);
        return;
      }
      plan, step := ReloadTo(dryRun, validated.value);
      if plan.ExitCode() == 0 { NothingLeft(State()); }
    }

    method ReloadTo(dryRun: bool, c: GatewayConfig) returns (plan: ReloadPlan, ghost step: Step)
      requires rtm.world == world && Valid(State()) && !reloading && Loaded(c)
      modifies this, rtm, rtm.unavailable, world
      ensures fresh(plan) && !reloading && world.serial >= old(world.serial) && world.setbacks >= old(world.setbacks)
      ensures Reloaded(old(State()), old(world.live), step, State(), world.live, plan.degraded)
      ensures Carried(dryRun, c, State(), plan.ok, plan.planned, plan.watchers, step)
      ensures Lands(world.setbacks == old(world.setbacks), dryRun, step, plan.ok, plan.degraded)
      ensures plan.applied <==> step.Tried? && step.outcome == Completed
      ensures plan.applied ==>
        RoomsFollow(Look(step.before.entries).Keys, step.d, step.c, entries, old(world.errands), world.errands)
      ensures step.Tried? ==> (plan.ok <==> step.outcome == Completed)
      ensures plan.ok || (step.Tried? && step.outcome != Refused) ==> AllReported(State(), plan.degraded)
      ensures step.Tried? ==> old(world.serial) <= step.serial && step.b.top <= world.serial
      ensures step.Tried? && step.outcome == Refused ==> plan.degraded == []
      ensures BrokersBelow(old(rtm.brokers), old(rtm.leftovers), old(world.serial)) ==>
        BrokersBelow(rtm.brokers, rtm.leftovers, world.serial)
    {
      plan, step := RetryAndPlan(dryRun, c);
      if !dryRun && plan.ok && plan.HasChanges() {
        ghost var s1, live1 := State(), world.live;
        plan, step := Try(c, plan);
        RetriedThenTried(old(State()), old(world.live), s1, live1, step, State(), world.live, plan.degraded);
      }
    }

    method Try(c: GatewayConfig, planned: ReloadPlan) returns (plan: ReloadPlan, ghost step: Step)
      requires rtm.world == world && Valid(State()) && !reloading && Loaded(c)
      requires Planned(State(), c, planned.planned) && AllReported(State(), planned.degraded)
      modifies this, rtm, rtm.unavailable, world, planned
      ensures (plan == planned || fresh(plan)) && !reloading && world.serial >= old(world.serial)
      ensures step.Tried? && step.before == old(State()) && step.running == old(world.live) &&
        step.serial == old(world.serial) && step.d == planned.planned && step.c == c
      ensures Reloaded(old(State()), old(world.live), step, State(), world.live, plan.degraded)
      ensures step.outcome != Refused ==>
        plan == planned && AllReported(State(), plan.degraded) && old(planned.degraded) <= plan.degraded
      ensures step.outcome == Refused ==> !plan.ok && plan.degraded == []
      ensures plan.ok == plan.applied == (step.outcome == Completed)
      ensures BarIfCovered(!Uncovered(step), old(world.setbacks), world.setbacks,
        step.outcome == Completed && plan.degraded == old(planned.degraded))
      ensures plan.applied ==>
        RoomsFollow(Look(step.before.entries).Keys, step.d, step.c, entries, old(world.errands), world.errands)
      ensures step.b.top <= world.serial
      ensures BrokersBelow(old(rtm.brokers), old(rtm.leftovers), old(world.serial)) ==>
        BrokersBelow(rtm.brokers, rtm.leftovers, world.serial)
    {
      ghost var s1, live1, serial1 := State(), world.live, world.serial;
      plan := planned;
      PlannedFits(s1, c, plan.planned);
      NothingRetried(s1, live1);
      var outcome;
      ghost var b, started;
      outcome, b, started := Attempt(plan.planned, c, plan);
      step := Tried(s1, live1, serial1, plan.planned, c, outcome, b, started);
      if outcome == Refused { plan := new ReloadPlan.Refused(plan.dryRun); }
    }

    // A preview changes nothing; a reload tries every leftover again first.
    method RetryAndPlan(dryRun: bool, c: GatewayConfig) returns (plan: ReloadPlan, ghost step: Step)
      requires rtm.world == world
      modifies this`leftoverEntries, rtm`leftovers, world`live, world`asked, world`setbacks
      ensures BarSetbacks(old(world.setbacks), world.setbacks, plan.ok && (dryRun || plan.degraded == []))
      ensures fresh(plan) && plan.dryRun == dryRun && !plan.applied
      ensures step == if dryRun then Untouched else Retried
      ensures Reloaded(old(State()), old(world.live), step, State(), world.live, plan.degraded)
      ensures LeftoversRetried(old(State()), old(world.live), State(), world.live)
      ensures plan.ok ==> Planned(State(), c, plan.planned)
      ensures plan.ok ==> plan.degraded == LeftoverFindings(leftoverEntries) + LeftoverFindings(rtm.leftovers)
      ensures plan.ok ==> AllReported(State(), plan.degraded)
      ensures !plan.ok ==> plan.degraded == []
      ensures BrokersBelow(old(rtm.brokers), old(rtm.leftovers), old(world.serial)) ==>
        BrokersBelow(rtm.brokers, rtm.leftovers, world.serial)
    {
      step := Untouched;
      if !dryRun {
        RetryLeftovers();
        step := Retried;
      }
      plan := MakePlan(dryRun, c);
      FindingListed(leftoverEntries);
      FindingListed(rtm.leftovers);
    }

    method Attempt(d: ConfigDiff, c: GatewayConfig, plan: ReloadPlan)
      returns (outcome: Outcome, ghost b: Build, ghost started: set<string>)
      requires rtm.world == world && Valid(State()) && !reloading && Loaded(c) && Fits(d, c)
      requires AllReported(State(), plan.degraded)
      modifies this, rtm, rtm.unavailable, world, plan
      ensures !reloading && world.serial >= old(world.serial)
      ensures Applied(old(State()), old(world.live), old(world.serial), d, c, outcome, b, started, State(), world.live,
        plan.degraded)
      ensures plan.ok == plan.applied == (outcome == Completed) && old(plan.degraded) <= plan.degraded
      ensures BarIfCovered(Covered(c, b, Look(old(entries))), old(world.setbacks), world.setbacks,
        outcome == Completed && plan.degraded == old(plan.degraded))
      ensures outcome == Completed ==>
        RoomsFollow(Look(old(entries)).Keys, d, c, entries, old(world.errands), world.errands)
      ensures outcome == Refused ==> world.setbacks > old(world.setbacks)
      ensures AllReported(State(), plan.degraded)
      ensures b.top <= world.serial
      ensures BrokersBelow(old(rtm.brokers), old(rtm.leftovers), old(world.serial)) ==>
        BrokersBelow(rtm.brokers, rtm.leftovers, world.serial)
    {
      ghost var s1, reports1 := State(), plan.degraded;
      outcome, b, started := ApplyReload(d, c, plan);
      AllStillReported(s1, reports1, State(), plan.degraded);
      plan.ok, plan.applied := outcome == Completed, outcome == Completed;
    }
  }
}
