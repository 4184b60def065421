/** Agent backends and permission brokers: how they start, stop and are replaced
    (gateway/service.py, AgentRuntimeManager; gateway/core/retry_stop.py). */
module Runtime {
  import opened Values
  import opened Configs

  // A running thing is known by the object that controls it; `id` is that object's identity.
  datatype Backend = Backend(id: nat, def: AgentConfig)
  datatype Broker = Broker(id: nat, agent: string)
  datatype Proc = BackendProc(backend: Backend) | BrokerProc(broker: Broker) | ConnectorProc(id: nat, name: string)

  // What a connector's manager is sent to do about the rooms it keeps records of: give up all of them,
  // stop those on agents that go, bring them in line with new rules, or start those that were stopped.
  // A connector that starts has its records settled, its account checked against the others' and its
  // rooms brought up.
  datatype Work = Reclaim | StopRooms | ApplyRules | StartRooms | SettleRecords | Identify | Sync
  datatype Errand = Errand(work: Work, connector: string, raised: bool)

  const STOP_ATTEMPTS := 3

  /** Everything outside the gateway. Each call's outcome is arbitrary; `live` records what has
      started and has not yet stopped cleanly, `asked` how often each process was told to stop, `errands`
      what the connectors were put through, and `setbacks` how often something raised, fell short, did
      not start or, asked as often as it is, did not stop. */
  class World {
    ghost var live: set<Proc>
    ghost var asked: multiset<Proc>
    ghost var errands: multiset<Errand>
    ghost var setbacks: nat
    var serial: nat

    constructor ()
      ensures live == {} && asked == multiset{} && errands == multiset{} && setbacks == 0 && serial == 0
    {
      live := {};
      asked := multiset{};
      errands := multiset{};
      setbacks := 0;
      serial := 0;
    }

    method NewId() returns (id: nat)
      modifies this`serial
      ensures id == old(serial) && serial == id + 1
    {
      id := serial;
      serial := serial + 1;
    }

    method Start(p: Proc) returns (started: bool)
      modifies this`live, this`setbacks
      ensures live == if started then old(live) + {p} else old(live)
      ensures setbacks == if started then old(setbacks) else old(setbacks) + 1
    {
      started := *;
      if started { live := live + {p}; } else { setbacks := setbacks + 1; }
    }

    method StopOnce(p: Proc) returns (stopped: bool)
      modifies this`live, this`asked
      ensures live == if stopped then old(live) - {p} else old(live)
      ensures asked == old(asked)[p := old(asked)[p] + 1]
    {
      asked := asked[p := asked[p] + 1];
      stopped := *;
      if stopped { live := live - {p}; }
    }

    // Only an exception is retried, and the last one is reported rather than raised.
    method StopWithRetries(p: Proc) returns (stopped: bool)
      modifies this`live, this`asked, this`setbacks
      ensures live == if stopped then old(live) - {p} else old(live)
      ensures asked == old(asked)[p := asked[p]]
      ensures asked[p] > old(asked)[p]
      ensures !stopped ==> asked[p] == old(asked)[p] + STOP_ATTEMPTS
      ensures setbacks == if stopped then old(setbacks) else old(setbacks) + 1
    {
      stopped := false;
      var attempt := 1;
      while attempt <= STOP_ATTEMPTS && !stopped
        invariant 1 <= attempt <= STOP_ATTEMPTS + 1 && (stopped ==> attempt > 1)
        invariant live == (if stopped then old(live) - {p} else old(live)) && setbacks == old(setbacks)
        invariant asked == old(asked)[p := old(asked)[p] + (attempt - 1)]
        decreases STOP_ATTEMPTS + 1 - attempt
      {
        stopped := StopOnce(p);
        attempt := attempt + 1;
      }
      if !stopped { setbacks := setbacks + 1; }
    }

    // A connector's manager goes through its rooms: it may raise, or fall short in some of them.
    method Send(work: Work, connector: string) returns (raised: bool, short: bool)
      modifies this`errands, this`setbacks
      ensures errands == old(errands) + multiset{Errand(work, connector, raised)}
      ensures BarSetbacks(old(setbacks), setbacks, !raised && !short)
    {
      raised, short := *, *;
      errands := errands + multiset{Errand(work, connector, raised)};
      if raised || short { setbacks := setbacks + 1; }
    }

    // One step of a connector's start, which it passes or not.
    method Clears(work: Work, connector: string) returns (passed: bool)
      modifies this`errands, this`setbacks
      ensures errands == old(errands) + multiset{Errand(work, connector, !passed)}
      ensures BarSetbacks(old(setbacks), setbacks, passed)
    {
      passed := *;
      errands := errands + multiset{Errand(work, connector, !passed)};
      if !passed { setbacks := setbacks + 1; }
    }

    // Whether an awaited call raised, or answered against what was wanted.
    method Fails() returns (failed: bool)
      modifies this`setbacks
      ensures setbacks == if failed then old(setbacks) + 1 else old(setbacks)
    {
      failed := *;
      if failed { setbacks := setbacks + 1; }
    }
  }

  /** Every one of `ps` was told to stop in the meantime. */
  ghost predicate AllAsked(before: multiset<Proc>, after: multiset<Proc>, ps: set<Proc>) {
    before <= after && forall p :: p in ps ==> after[p] > before[p]
  }

  /** The managers of these connectors were sent to do this in the meantime. */
  ghost predicate Sent(before: multiset<Errand>, after: multiset<Errand>, work: Work, connectors: set<string>) {
    before <= after && forall n :: n in connectors ==> SentOne(before, after, work, n)
  }

  ghost predicate SentOne(before: multiset<Errand>, after: multiset<Errand>, work: Work, n: string) {
    || after[Errand(work, n, false)] > before[Errand(work, n, false)]
    || after[Errand(work, n, true)] > before[Errand(work, n, true)]
  }

  /** The connector went through this in the meantime, and nothing raised. */
  ghost predicate Passed(before: multiset<Errand>, after: multiset<Errand>, work: Work, n: string) {
    after[Errand(work, n, false)] > before[Errand(work, n, false)]
  }

  ghost predicate AllPassed(before: multiset<Errand>, after: multiset<Errand>, work: Work, connectors: set<string>) {
    before <= after && forall n :: n in connectors ==> Passed(before, after, work, n)
  }

  /** It went through everything a connector is let in by. */
  ghost predicate LetIn(before: multiset<Errand>, after: multiset<Errand>, n: string) {
    Passed(before, after, SettleRecords, n) && Passed(before, after, Identify, n) && Passed(before, after, Sync, n)
  }

  /** This manager was to bring its rooms in line with new rules, and raised. */
  ghost predicate Unreconciled(before: multiset<Errand>, after: multiset<Errand>, n: string) {
    after[Errand(ApplyRules, n, true)] > before[Errand(ApplyRules, n, true)]
  }

  /** Setbacks only mount up, and this holds exactly if there were none in the meantime. */
  ghost predicate BarSetbacks(before: nat, after: nat, holds: bool) {
    before <= after && (before == after <==> holds)
  }

  /** The same, except that it may also fail for want of something else. */
  ghost predicate BarIfCovered(covered: bool, before: nat, after: nat, holds: bool) {
    before <= after && (holds ==> before == after) && (before == after && covered ==> holds)
  }

  // One set object, handed out by reference and only ever updated in place.
  class NameSet {
    var names: set<string>

    constructor ()
      ensures names == {}
    {
      names := {};
    }
  }

  /** The manager's fields as one value. */
  datatype RuntimeState = RuntimeState(
    agents: map<string, Backend>,
    brokers: map<string, Broker>,
    unavailable: set<string>,
    leftovers: seq<Proc>)
  {
    // Each object stands under the name it was built for.
    ghost predicate Valid() {
      && (forall n :: n in agents ==> agents[n].def.name == n)
      && (forall n :: n in brokers ==> brokers[n].agent == n)
    }

    predicate HasBackend(p: Proc) {
      p.BackendProc? && p.backend.def.name in agents && agents[p.backend.def.name] == p.backend
    }

    predicate HasBroker(p: Proc) {
      p.BrokerProc? && p.broker.agent in brokers && brokers[p.broker.agent] == p.broker
    }

    predicate Owns(names: set<string>, p: Proc) {
      (HasBackend(p) && p.backend.def.name in names) || (HasBroker(p) && p.broker.agent in names)
    }

    /** The processes of these agents. */
    ghost function OwnedBy(names: set<string>): set<Proc> {
      (set n | n in names * agents.Keys :: BackendProc(agents[n])) +
        (set n | n in names * brokers.Keys :: BrokerProc(brokers[n]))
    }

    predicate Tracks(p: Proc) {
      p in leftovers || HasBackend(p) || HasBroker(p)
    }
  }

  /** Identities of brokers, registered or given up on, lie below the counter, and none is both. */
  ghost predicate BrokersBelow(brokers: map<string, Broker>, leftovers: seq<Proc>, serial: nat) {
    && (forall n :: n in brokers ==> brokers[n].id < serial && BrokerProc(brokers[n]) !in leftovers)
    && (forall p :: p in leftovers && p.BrokerProc? ==> p.broker.id < serial)
  }

  lemma StopKeepsBelow(r: RuntimeState, live: set<Proc>, names: set<string>, failed: set<string>, r': RuntimeState,
                       live': set<Proc>,
                       serial: nat)
    requires r.Valid() && BrokersBelow(r.brokers, r.leftovers, serial) && Stopped(r, live, names, failed, r', live')
    ensures BrokersBelow(r'.brokers, r'.leftovers, serial)
  {
  }

  lemma UpBelow(r: RuntimeState, serial: nat, up: map<string, Broker>, serial': nat)
    requires serial <= serial' && forall n :: n in up ==> serial <= up[n].id < serial'
    ensures BrokersBelow(r.brokers, r.leftovers, serial) ==> BrokersBelow(r.brokers + up, r.leftovers, serial')
  {
  }

  /** What stopping the brokers of `names` leaves: unregistered, and down or a leftover. */
  ghost predicate BrokersDown(r: RuntimeState, live: set<Proc>, names: set<string>, failed: set<string>,
                              r': RuntimeState, live': set<Proc>)
  {
    && r'.agents == r.agents && r'.unavailable == r.unavailable
    && (forall n :: n in r'.brokers <==> n in r.brokers && n !in names)
    && (forall n :: n in r'.brokers ==> r'.brokers[n] == r.brokers[n])
    && r.leftovers <= r'.leftovers
    && live' <= live
    && (forall p :: p in live && p !in live' ==> r.HasBroker(p) && p.broker.agent in names)
    && (forall p :: p in live' && r.HasBroker(p) && p.broker.agent in names ==> p in r'.leftovers)
    && (forall p :: p in r'.leftovers && p !in r.leftovers ==> r.HasBroker(p) && p.broker.agent in failed)
    && (forall n :: n in failed ==> n in names && n in r.brokers && BrokerProc(r.brokers[n]) in r'.leftovers)
  }

  /** The same for backends, which stay installed until they are replaced. */
  ghost predicate BackendsDown(r: RuntimeState, live: set<Proc>, names: set<string>, failed: set<string>,
                               r': RuntimeState, live': set<Proc>)
  {
    && r' == r.(leftovers := r'.leftovers)
    && r.leftovers <= r'.leftovers
    && live' <= live
    && (forall p :: p in live && p !in live' ==> r.HasBackend(p) && p.backend.def.name in names)
    && (forall p :: p in live' && r.HasBackend(p) && p.backend.def.name in names ==> p in r'.leftovers)
    && (forall p :: p in r'.leftovers && p !in r.leftovers ==> r.HasBackend(p) && p.backend.def.name in failed)
    && (forall n :: n in failed ==> n in names && n in r.agents && BackendProc(r.agents[n]) in r'.leftovers)
  }

  /** A whole stop pass over `names`. */
  ghost predicate Stopped(r: RuntimeState, live: set<Proc>, names: set<string>, failed: set<string>,
                          r': RuntimeState, live': set<Proc>)
  {
    && r'.agents == r.agents && r'.unavailable == r.unavailable
    && (forall n :: n in r'.brokers <==> n in r.brokers && n !in names)
    && (forall n :: n in r'.brokers ==> r'.brokers[n] == r.brokers[n])
    && r.leftovers <= r'.leftovers
    && live' <= live
    && (forall p :: p in live && p !in live' ==> r.Owns(names, p))
    && (forall p :: p in live' && r.Owns(names, p) ==> p in r'.leftovers)
    && (forall p :: p in r'.leftovers && p !in r.leftovers ==> r.Owns(failed, p))
    && (forall n :: n in failed ==> n in names && exists p :: p in r'.leftovers && r.Owns({n}, p))
  }

  lemma OneBrokerDown(r: RuntimeState, live: set<Proc>, done: set<string>, failed: set<string>, r1: RuntimeState,
                      live1: set<Proc>,
                      n: string, stopped: bool, r2: RuntimeState, live2: set<Proc>)
    requires r.Valid() && n in r.brokers && n !in done
    requires BrokersDown(r, live, done, failed, r1, live1)
    requires r2 == r1.(brokers := r1.brokers - {n},
                       leftovers := if stopped then r1.leftovers else r1.leftovers + [BrokerProc(r1.brokers[n])])
    requires live2 == if stopped then live1 - {BrokerProc(r1.brokers[n])} else live1
    ensures BrokersDown(r, live, done + {n}, if stopped then failed else failed + {n}, r2, live2)
  {
  }

  lemma OneBackendDown(r: RuntimeState, live: set<Proc>, done: set<string>, failed: set<string>, r1: RuntimeState,
                       live1: set<Proc>,
                       n: string, stopped: bool, r2: RuntimeState, live2: set<Proc>)
    requires r.Valid() && n in r.agents && n !in done
    requires BackendsDown(r, live, done, failed, r1, live1)
    requires r2 == r1.(leftovers := if stopped then r1.leftovers else r1.leftovers + [BackendProc(r.agents[n])])
    requires live2 == if stopped then live1 - {BackendProc(r.agents[n])} else live1
    ensures BackendsDown(r, live, done + {n}, if stopped then failed else failed + {n}, r2, live2)
  {
  }

  lemma StopsCompose(r: RuntimeState, live: set<Proc>, names: set<string>, f1: set<string>, r1: RuntimeState,
                     live1: set<Proc>, f2: set<string>, r2: RuntimeState, live2: set<Proc>)
    requires r.Valid()
    requires BrokersDown(r, live, names * r.brokers.Keys, f1, r1, live1)
    requires BackendsDown(r1, live1, names * r.agents.Keys, f2, r2, live2)
    ensures Stopped(r, live, names, f1 + f2, r2, live2)
  {
    forall n | n in f1 + f2 ensures exists p :: p in r2.leftovers && r.Owns({n}, p) {
      if n in f1 {
        assert BrokerProc(r.brokers[n]) in r2.leftovers && r.Owns({n}, BrokerProc(r.brokers[n]));
      } else {
        assert BackendProc(r.agents[n]) in r2.leftovers && r.Owns({n}, BackendProc(r.agents[n]));
      }
    }
  }

  /** What a start pass over `names` leaves. A name that is not installed is skipped; `failed`
      are the agents whose backend or broker did not come up, which get no broker. */
  ghost predicate Started(r: RuntimeState, live: set<Proc>, serial: nat, names: set<string>, failed: set<string>,
                          r': RuntimeState, live': set<Proc>)
  {
    && r'.agents == r.agents && r'.leftovers == r.leftovers
    && failed <= names * r.agents.Keys
    && (forall n :: n in r'.unavailable <==> n in failed || (n in r.unavailable && n !in names * r.agents.Keys))
    && r.brokers.Keys <= r'.brokers.Keys
    && (forall n :: n in r'.brokers ==>
          || (n in r.brokers && r'.brokers[n] == r.brokers[n])
          || (n in names && n in r.agents && n !in failed && BrokerProc(r'.brokers[n]) in live'
              && r'.brokers[n].agent == n && r'.brokers[n].id >= serial))
    && (forall p :: p in live && p !in live' ==> r.HasBackend(p) && p.backend.def.name in failed)
    && (forall p :: p in live' && p !in live ==>
          || (r.HasBackend(p) && p.backend.def.name in names)
          || (r'.HasBroker(p) && p.broker.agent in names - failed))
    && (forall n :: n in names && n in r.agents && n !in failed ==> AgentUp(r', live', n))
  }

  /** The agent's backend runs, and the broker that answers for its tool calls is registered and runs. */
  ghost predicate AgentUp(r: RuntimeState, live: set<Proc>, n: string) {
    && n in r.agents && BackendProc(r.agents[n]) in live
    && n in r.brokers && BrokerProc(r.brokers[n]) in live
  }

  // The brokers one start pass has brought up so far.
  ghost predicate BrokersUp(r: RuntimeState, live: set<Proc>, serial: nat, done: set<string>, failed: set<string>,
                            up: map<string, Broker>, live': set<Proc>)
  {
    && failed <= done && up.Keys == done - failed
    && (forall n :: n in up ==> up[n].agent == n && up[n].id >= serial && BrokerProc(up[n]) in live')
    && live <= live'
    && (forall p :: p in live' && p !in live ==>
      p.BrokerProc? && p.broker.agent in up && up[p.broker.agent] == p.broker)
  }

  lemma StartsCompose(r: RuntimeState, live: set<Proc>, serial: nat, names: set<string>, f1: set<string>,
                      live1: set<Proc>, f2: set<string>, up: map<string, Broker>, live2: set<Proc>,
                      r': RuntimeState, live3: set<Proc>)
    requires r.Valid()
    requires f1 <= names * r.agents.Keys
    requires forall p :: p in live1 <==> p in live || (r.HasBackend(p) && p.backend.def.name in names - f1)
    requires BrokersUp(r, live1, serial, names * r.agents.Keys - f1, f2, up, live2)
    requires live3 <= live2
    requires forall p :: p in live2 && p !in live3 ==> r.HasBackend(p) && p.backend.def.name in f2
    requires r' == r.(brokers := r.brokers + up, unavailable := r.unavailable - names * r.agents.Keys + (f1 + f2))
    ensures Started(r, live, serial, names, f1 + f2, r', live3)
  {
  }

  /** Of an agent left unavailable, no backend this pass brought up runs on unless it was told to stop. */
  ghost predicate FailedAsked(r: RuntimeState, live: set<Proc>, asked: multiset<Proc>, failed: set<string>,
                              live': set<Proc>, asked': multiset<Proc>)
  {
    forall n :: n in failed && n in r.agents ==> ToldToStop(BackendProc(r.agents[n]), live, asked, live', asked')
  }

  /** The process did not come up and stay, or it was told to stop. */
  ghost predicate ToldToStop(p: Proc, live: set<Proc>, asked: multiset<Proc>, live': set<Proc>,
                             asked': multiset<Proc>)
  {
    p in live' && p !in live ==> asked'[p] > asked[p]
  }

  lemma NoneRunsOn(r: RuntimeState, live: set<Proc>, asked: multiset<Proc>, names: set<string>, f1: set<string>,
                   live1: set<Proc>, f2: set<string>, up: map<string, Broker>, serial: nat, live2: set<Proc>,
                   live3: set<Proc>, asked': multiset<Proc>)
    requires r.Valid() && f1 <= names * r.agents.Keys && live3 <= live2
    requires forall p :: p in live1 <==> p in live || (r.HasBackend(p) && p.backend.def.name in names - f1)
    requires BrokersUp(r, live1, serial, names * r.agents.Keys - f1, f2, up, live2)
    requires AllAsked(asked, asked', set n | n in f2 :: BackendProc(r.agents[n]))
    ensures FailedAsked(r, live, asked, f1 + f2, live3, asked')
  {
    forall n | n in f1 + f2 && n in r.agents && BackendProc(r.agents[n]) in live3 && BackendProc(r.agents[n]) !in live
      ensures n in f2 {
    }
  }

  class AgentRuntimeManager {
    const world: World
    const unavailable: NameSet
    var agents: map<string, Backend>
    var brokers: map<string, Broker>
    var leftovers: seq<Proc>

    constructor (world: World, agents: map<string, Backend>)
      ensures this.world == world && fresh(unavailable)
      ensures State() == RuntimeState(agents, map[], {}, [])
    {
      this.world := world;
      this.unavailable := new NameSet();
      this.agents := agents;
      this.brokers := map[];
      this.leftovers := [];
    }

    ghost function State(): RuntimeState
      reads this, unavailable
    {
      RuntimeState(agents, brokers, unavailable.names, leftovers)
    }

    // Each broker is unregistered first, then stopped.
    method StopBrokers(names: set<string>) returns (failed: set<string>)
      requires State().Valid() && names <= brokers.Keys
      modifies this`brokers, this`leftovers, world`live, world`asked, world`setbacks
      ensures BrokersDown(old(State()), old(world.live), names, failed, State(), world.live)
      ensures AllAsked(old(world.asked), world.asked, set n | n in names :: BrokerProc(old(brokers)[n]))
      ensures BarSetbacks(old(world.setbacks), world.setbacks, failed == {})
    {
      ghost var r, live, asked := State(), world.live, world.asked;
      failed := {};
      var done := {};
      while done != names
        invariant done <= names
        invariant BrokersDown(r, live, done, failed, State(), world.live)
        invariant AllAsked(asked, world.asked, set n | n in done :: BrokerProc(r.brokers[n]))
        invariant BarSetbacks(old(world.setbacks), world.setbacks, failed == {})
        decreases names - done
      {
        var n :| n in names && n !in done;
        ghost var r1, live1 := State(), world.live;
        var stopped := StopBroker(n);
        OneBrokerDown(r, live, done, failed, r1, live1, n, stopped, State(), world.live);
        done := done + {n};
        if !stopped { failed := failed + {n}; }
      }
    }

    method StopBroker(n: string) returns (stopped: bool)
      requires n in brokers
      modifies this`brokers, this`leftovers, world`live, world`asked, world`setbacks
      ensures State() == old(State()).(
        brokers := old(brokers) - {n},
        leftovers := if stopped then old(leftovers) else old(leftovers) + [BrokerProc(old(brokers)[n])])
      ensures world.live == if stopped then old(world.live) - {BrokerProc(old(brokers)[n])} else old(world.live)
      ensures AllAsked(old(world.asked), world.asked, {BrokerProc(old(brokers)[n])})
      ensures BarSetbacks(old(world.setbacks), world.setbacks, stopped)
    {
      var broker := brokers[n];
      brokers := brokers - {n};
      stopped := world.StopWithRetries(BrokerProc(broker));
      if !stopped { leftovers := leftovers + [BrokerProc(broker)]; }
    }

    method StopBackends(names: set<string>) returns (failed: set<string>)
      requires State().Valid() && names <= agents.Keys
      modifies this`leftovers, world`live, world`asked, world`setbacks
      ensures BackendsDown(old(State()), old(world.live), names, failed, State(), world.live)
      ensures AllAsked(old(world.asked), world.asked, set n | n in names :: BackendProc(old(agents)[n]))
      ensures BarSetbacks(old(world.setbacks), world.setbacks, failed == {})
    {
      ghost var r, live, asked := State(), world.live, world.asked;
      failed := {};
      var done := {};
      while done != names
        invariant done <= names
        invariant BackendsDown(r, live, done, failed, State(), world.live)
        invariant AllAsked(asked, world.asked, set n | n in done :: BackendProc(r.agents[n]))
        invariant BarSetbacks(old(world.setbacks), world.setbacks, failed == {})
        decreases names - done
      {
        var n :| n in names && n !in done;
        ghost var r1, live1 := State(), world.live;
        var stopped := StopBackend(n);
        OneBackendDown(r, live, done, failed, r1, live1, n, stopped, State(), world.live);
        done := done + {n};
        if !stopped { failed := failed + {n}; }
      }
    }

    method StopBackend(n: string) returns (stopped: bool)
      requires n in agents
      modifies this`leftovers, world`live, world`asked, world`setbacks
      ensures State() == old(State()).(
        leftovers := if stopped then old(leftovers) else old(leftovers) + [BackendProc(agents[n])])
      ensures world.live == if stopped then old(world.live) - {BackendProc(agents[n])} else old(world.live)
      ensures AllAsked(old(world.asked), world.asked, {BackendProc(agents[n])})
      ensures BarSetbacks(old(world.setbacks), world.setbacks, stopped)
    {
      stopped := world.StopWithRetries(BackendProc(agents[n]));
      if !stopped { leftovers := leftovers + [BackendProc(agents[n])]; }
    }

    method StopSome(names: set<string>) returns (failed: set<string>)
      requires State().Valid()
      modifies this`brokers, this`leftovers, world`live, world`asked, world`setbacks
      ensures Stopped(old(State()), old(world.live), names, failed, State(), world.live)
      ensures AllAsked(old(world.asked), world.asked, old(State()).OwnedBy(names))
      ensures BarSetbacks(old(world.setbacks), world.setbacks, failed == {})
      ensures BrokersBelow(old(brokers), old(leftovers), world.serial) ==>
        BrokersBelow(brokers, leftovers, world.serial)
    {
      ghost var r, live := State(), world.live;
      var f1 := StopBrokers(names * brokers.Keys);
      ghost var r1, live1 := State(), world.live;
      var f2 := StopBackends(names * agents.Keys);
      failed := f1 + f2;
      StopsCompose(r, live, names, f1, r1, live1, f2, State(), world.live);
      if BrokersBelow(r.brokers, r.leftovers, world.serial) {
        StopKeepsBelow(r, live, names, failed, State(), world.live, world.serial);
      }
    }

    // Tries every leftover once more and drops what stops.
    method RetryLeftovers()
      modifies this`leftovers, world`live, world`asked, world`setbacks
      ensures State() == old(State()).(leftovers := leftovers)
      ensures forall p :: p in leftovers ==> p in old(leftovers)
      ensures forall p :: p in old(leftovers) && p !in leftovers ==> p !in world.live
      ensures world.live <= old(world.live)
      ensures forall p :: p in old(world.live) && p !in world.live ==> p in old(leftovers)
      ensures AllAsked(old(world.asked), world.asked, set p | p in old(leftovers))
      ensures BarSetbacks(old(world.setbacks), world.setbacks, leftovers == [])
    {
      var still := [];
      var i := 0;
      while i < |leftovers|
        invariant i <= |leftovers| && leftovers == old(leftovers)
        invariant forall p :: p in still ==> p in leftovers
        invariant forall p :: p in leftovers[..i] && p !in still ==> p !in world.live
        invariant world.live <= old(world.live)
        invariant forall p :: p in old(world.live) && p !in world.live ==> p in leftovers
        invariant AllAsked(old(world.asked), world.asked, set p | p in leftovers[..i])
        invariant BarSetbacks(old(world.setbacks), world.setbacks, still == [])
      {
        var stopped := world.StopWithRetries(leftovers[i]);
        if !stopped { still := still + [leftovers[i]]; }
        i := i + 1;
      }
      leftovers := still;
    }

    // Installs a rebuilt backend, or drops the agent.
    method Replace(name: string, backend: Option<Backend>)
      modifies this`agents, unavailable
      ensures State() == old(State()).(
        agents := if backend.None? then old(agents) - {name} else old(agents)[name := backend.value],
        unavailable := if backend.None? then old(unavailable.names) - {name} else old(unavailable.names))
    {
      match backend
      case None =>
        agents := agents - {name};
        unavailable.names := unavailable.names - {name};
      case Some(b) =>
        agents := agents[name := b];
    }

    method StartBackends(names: set<string>) returns (failed: set<string>)
      requires State().Valid() && names <= agents.Keys
      modifies world`live, world`setbacks
      ensures failed <= names
      ensures BarSetbacks(old(world.setbacks), world.setbacks, failed == {})
      ensures forall p :: p in world.live <==>
        p in old(world.live) || (State().HasBackend(p) && p.backend.def.name in names - failed)
    {
      failed := {};
      var done := {};
      while done != names
        invariant failed <= done <= names
        invariant BarSetbacks(old(world.setbacks), world.setbacks, failed == {})
        invariant forall p :: p in world.live <==>
          p in old(world.live) || (State().HasBackend(p) && p.backend.def.name in done - failed)
        decreases names - done
      {
        var n :| n in names && n !in done;
        done := done + {n};
        var started := world.Start(BackendProc(agents[n]));
        if !started { failed := failed + {n}; }
      }
    }

    // Every backend the service builds has a broker; making or starting it may fail.
    method StartBrokers(names: set<string>) returns (failed: set<string>, up: map<string, Broker>)
      requires State().Valid()
      modifies world`live, world`serial, world`setbacks
      ensures BrokersUp(State(), old(world.live), old(world.serial), names, failed, up, world.live)
      ensures BarSetbacks(old(world.setbacks), world.setbacks, failed == {})
      ensures world.serial >= old(world.serial) && forall n :: n in up ==> up[n].id < world.serial
    {
      failed, up := {}, map[];
      var done := {};
      while done != names
        invariant done <= names
        invariant world.serial >= old(world.serial) && forall n :: n in up ==> up[n].id < world.serial
        invariant BrokersUp(State(), old(world.live), old(world.serial), done, failed, up, world.live)
        invariant BarSetbacks(old(world.setbacks), world.setbacks, failed == {})
        decreases names - done
      {
        var n :| n in names && n !in done;
        done := done + {n};
        var id := world.NewId();
        var started := world.Start(BrokerProc(Broker(id, n)));
        if started {
          up := up[n := Broker(id, n)];
        } else {
          failed := failed + {n};
        }
      }
    }

    method StopFailed(names: set<string>)
      requires State().Valid() && names <= agents.Keys
      modifies world`live, world`asked
      ensures world.live <= old(world.live)
      ensures forall p :: p in old(world.live) && p !in world.live ==>
        State().HasBackend(p) && p.backend.def.name in names
      ensures AllAsked(old(world.asked), world.asked, set n | n in names :: BackendProc(agents[n]))
    {
      var done := {};
      while done != names
        invariant done <= names
        invariant world.live <= old(world.live)
        invariant forall p :: p in old(world.live) && p !in world.live ==>
          State().HasBackend(p) && p.backend.def.name in names
        invariant AllAsked(old(world.asked), world.asked, set n | n in done :: BackendProc(agents[n]))
        decreases names - done
      {
        var n :| n in names && n !in done;
        done := done + {n};
        var _ := world.StopOnce(BackendProc(agents[n]));
      }
    }

    // Backends first; a broker only for a backend that came up.
    method StartSome(names: set<string>) returns (failed: set<string>)
      requires State().Valid()
      modifies this`brokers, unavailable, world`live, world`asked, world`serial, world`setbacks
      ensures Started(old(State()), old(world.live), old(world.serial), names, failed, State(), world.live)
      ensures FailedAsked(old(State()), old(world.live), old(world.asked), failed, world.live, world.asked)
      ensures BarSetbacks(old(world.setbacks), world.setbacks, failed == {})
      ensures world.serial >= old(world.serial) && old(world.asked) <= world.asked
      ensures BrokersBelow(old(brokers), old(leftovers), old(world.serial)) ==>
        BrokersBelow(brokers, leftovers, world.serial)
    {
      ghost var r, live, asked, serial := State(), world.live, world.asked, world.serial;
      var starting := names * agents.Keys;
      var f1 := StartBackends(starting);
      ghost var live1 := world.live;
      var f2, up := StartBrokers(starting - f1);
      ghost var live2 := world.live;
      UpBelow(r, serial, up, world.serial);
      brokers := brokers + up;
      StopFailed(f2);
      failed := f1 + f2;
      unavailable.names := unavailable.names - starting + failed;
      StartsCompose(r, live, serial, names, f1, live1, f2, up, live2, State(), world.live);
      NoneRunsOn(r, live, asked, names, f1, live1, f2, up, serial, live2, world.live, world.asked);
    }
  }
}
