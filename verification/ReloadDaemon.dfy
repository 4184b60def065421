/** The service from its start on: what it is built and booted into, and the requests it answers, one
    after another (gateway/service.py, GatewayService.run, reload_config, _recover_agent). */
module ReloadDaemon {
  import opened Values
  import opened Configs
  import opened Runtime
  import opened ReloadSpec
  import opened ReloadPlanning
  import opened Reload
  import opened ReloadRuns
  import opened ReloadServing
  import Recovery

  datatype Request =
    | ReloadRequest(dryRun: bool, fromFile: bool, otherPath: bool, busy: bool, validated: Option<GatewayConfig>)
    | VerbRequest(agent: string)

  ghost function Now(service: GatewayService): Moment
    reads service, service.rtm, service.rtm.unavailable, service.world
  {
    Moment(service.State(), service.world.live, service.world.serial)
  }

  /** What every theorem about runs starts from. */
  ghost predicate Standing(aim: Aim, m: Moment) {
    Loaded(aim.base) && Holds(aim, m.s) && Sound(m.s, m.live) && Below(m.s, m.serial) && Serves(aim, m)
  }

  ghost predicate Idle(service: GatewayService)
    reads service, service.rtm, service.rtm.unavailable
  {
    service.rtm.world == service.world && Valid(service.State()) && !service.reloading
  }

  // Nothing runs before. A startup that fails has told everything it started to stop.
  method StartService(world: World, config: GatewayConfig) returns (service: GatewayService, ok: bool)
    requires Loaded(config) && world.live == {}
    modifies world
    ensures service.world == world && Idle(service)
    ensures ok ==> Standing(Settled(config), Now(service)) && service.schedulerRunning
    ensures BarSetbacks(old(world.setbacks), world.setbacks, ok && service.rtm.unavailable.names == {})
    ensures !ok ==> forall p :: p in world.live ==> world.asked[p] > old(world.asked)[p]
  {
    service := new GatewayService(world, config);
    ghost var s := service.State();
    ok := service.Boot();
    if ok { StillBelow(s, service.State(), world.serial); }
  }

  lemma StillBelow(s: ServiceState, s': ServiceState, serial: nat)
    requires Below(s, serial) && s'.entries == s.entries && s'.rt.agents == s.rt.agents
    requires s'.leftoverEntries == [] && s'.rt.leftovers == [] && BrokersBelow(s'.rt.brokers, s'.rt.leftovers, serial)
    ensures Below(s', serial)
  {
  }

  /** A reload that is to take effect, and gets as far as being planned. */
  predicate Effective(request: Request) {
    request.ReloadRequest? && !request.dryRun &&
      Heard(request.fromFile, request.otherPath, request.busy, request.validated)
  }

  /** What the exit code of a reload means. A 0 is only given if there was no setback, and then the file
      was applied completely or there was nothing to do; and without a setback nothing else is given,
      unless the fleet could not be assembled. A failed apply is a 2 unless it left nothing to report. */
  ghost predicate Told(request: Request, e: Event, exit: int, calm: bool)
    requires request.ReloadRequest?
  {
    && (Effective(request) && exit == 0 ==> calm && Clean(e, request.validated.value))
    && (Effective(request) && calm && !Uncovered(e.step) ==> exit == 0)
    && (Effective(request) && e.step.Tried? ==> e.step.c == request.validated.value)
    && (!Effective(request) ==> e.step == Untouched)
    && (exit == 2 <==> e.reports != []) && (exit == 0 && e.step.Tried? ==> e.step.outcome == Completed)
  }

  method Answer(service: GatewayService, request: Request) returns (exit: int, ghost e: Event)
    requires Idle(service)
    requires request.ReloadRequest? && request.validated.Some? ==> Loaded(request.validated.value)
    modifies service, service.rtm, service.rtm.unavailable, service.world
    ensures Idle(service) && Next(old(Now(service)), e) && e.after == Now(service)
    ensures service.world.setbacks >= old(service.world.setbacks)
    ensures request.ReloadRequest? ==>
      Told(request, e, exit, service.world.setbacks == old(service.world.setbacks))
  {
    ghost var m := Now(service);
    match request
    case ReloadRequest(dryRun, fromFile, otherPath, busy, validated) =>
      var plan, step := service.ReloadConfig(dryRun, fromFile, otherPath, busy, validated);
      e := Event(step, plan.degraded, Now(service));
      StaysValid(m, e);
      exit := plan.ExitCode();
    case VerbRequest(agent) =>
      var available, step := service.RecoverAgent(agent);
      e := Event(step, [], Now(service));
      StaysValid(m, e);
      exit := if available then 0 else 1;
  }

  lemma StaysValid(m: Moment, e: Event)
    requires Valid(m.s) && Reloaded(m.s, m.live, e.step, e.after.s, e.after.live, e.reports)
    ensures Valid(e.after.s)
  {
    if e.step.Tried? {
      AppliedValid(e.step.before, e.step.running, e.step, e.after.s, e.after.live, e.reports);
    }
  }

  lemma AppliedValid(s: ServiceState, live: set<Proc>, step: Step, s': ServiceState, live': set<Proc>,
                     reports: seq<Degraded>)
    requires step.Tried? && Valid(s) && Fits(step.d, step.c)
    requires Applied(s, live, step.serial, step.d, step.c, step.outcome, step.b, step.started, s', live', reports)
    ensures Valid(s')
  {
  }

  lemma {:induction false} RunOn(m: Moment, es: seq<Event>, e: Event)
    requires Run(m, es) && Next(Last(m, es), e)
    ensures Run(m, es + [e]) && Last(m, es + [e]) == e.after
    decreases |es|
  {
    if es == [] {
      assert es + [e] == [e] && [e][1..] == [];
    } else {
      RunUnfolds(m, es);
      RunOn(es[0].after, es[1..], e);
      assert (es + [e])[0] == es[0] && (es + [e])[1..] == es[1..] + [e];
    }
  }

  // ---- Any requests, one after another ----

  /** While a failed candidate is being retried, this request is for that candidate. */
  ghost predicate Faithful(aim: Aim, request: Request) {
    aim.Retrying? && request.ReloadRequest? && request.validated.Some? ==> request.validated.value == aim.next
  }

  /** The `i`-th request, if it is an effective reload, exits 0 only with its file in place; and if
      everything was calm it does exit 0. */
  ghost predicate LandsAt(aim: Aim, requests: seq<Request>, exits: seq<int>, es: seq<Event>, i: nat, calm: bool)
    requires |es| == |exits| <= |requests| && i < |es|
  {
    Effective(requests[i]) && Faithful(AimAtEnd(aim, es[..i]), requests[i]) && (exits[i] == 0 || calm) ==>
      exits[i] == 0 && InPlace(es[i].after, requests[i].validated.value)
  }

  ghost predicate AllLand(aim: Aim, requests: seq<Request>, exits: seq<int>, es: seq<Event>, calm: bool)
    requires |es| == |exits| <= |requests|
  {
    forall i :: 0 <= i < |es| ==> LandsAt(aim, requests, exits, es, i, calm)
  }

  lemma AnswerLands(aim: Aim, m: Moment, request: Request, e: Event, exit: int, calm: bool)
    requires Standing(aim, m) && Next(m, e) && request.ReloadRequest? && Told(request, e, exit, calm)
    requires Effective(request) && Faithful(aim, request) && (exit == 0 || calm) && Loaded(request.validated.value)
    ensures exit == 0 && InPlace(e.after, request.validated.value)
  {
    if e.step.Tried? && e.step.outcome != Refused { AttemptIsCovered(aim, m, e); }
    CleanLands(aim, m, e, request.validated.value);
  }

  /** Along a patient run the fleet of the file can always be assembled. */
  lemma AttemptIsCovered(aim: Aim, m: Moment, e: Event)
    requires Loaded(aim.base) && Holds(aim, m.s) && Next(m, e) && e.step.Tried? && e.step.outcome != Refused
    requires aim.Retrying? ==> e.step.c == aim.next
    ensures Covered(e.step.c, e.step.b, Look(e.step.before.entries))
  {
    LeftoversHold(aim, m.s, m.live, e.step.before, e.step.running);
    if aim.Settled? { SyncedIsBetween(e.step.before, aim.base, e.step.c); }
    AttemptBuilt(e.step, e.after, e.reports);
    BetweenCovers(e.step.before, aim.base, e.step.c, e.step.d, e.step.b);
  }

  lemma AttemptBuilt(step: Step, after: Moment, reports: seq<Degraded>)
    requires step.Tried? && Fits(step.d, step.c) && step.outcome != Refused
    requires Applied(step.before, step.running, step.serial, step.d, step.c, step.outcome, step.b, step.started,
                     after.s, after.live, reports)
    ensures step.b.connectors.Keys == RebuiltConnectors(step.d)
  {
  }

  lemma {:induction false} PatientPrefix(aim: Aim, es: seq<Event>, e: Event)
    requires Patient(aim, es + [e])
    ensures Patient(aim, es)
    decreases |es|
  {
    if es != [] {
      assert (es + [e])[0] == es[0] && (es + [e])[1..] == es[1..] + [e];
      PatientPrefix(AimAfter(aim, es[0].step), es[1..], e);
    }
  }

  lemma OneMoreLands(aim: Aim, requests: seq<Request>, exits: seq<int>, es: seq<Event>, exit: int, e: Event,
                     before: bool, calm: bool)
    requires |es| == |exits| < |requests| && AllLand(aim, requests, exits, es, before) && (calm ==> before)
    requires LandsAt(aim, requests, exits + [exit], es + [e], |es|, calm)
    ensures AllLand(aim, requests, exits + [exit], es + [e], calm)
  {
    forall i | 0 <= i <= |es| ensures LandsAt(aim, requests, exits + [exit], es + [e], i, calm) {
      if i < |es| {
        assert LandsAt(aim, requests, exits, es, i, before);
        assert (es + [e])[..i] == es[..i] && (es + [e])[i] == es[i] && (exits + [exit])[i] == exits[i];
      }
    }
  }

  /** The service answers any requests in turn. What it goes through is a run, so that whenever each
      failed candidate was retried until it completed, all that is proved of such runs holds at the end,
      and every reload that exited 0 had left its file in place; all of them did if nothing went wrong. */
  method AnswerAll(service: GatewayService, requests: seq<Request>, ghost aim: Aim)
    returns (exits: seq<int>, ghost es: seq<Event>)
    requires Idle(service) && Standing(aim, Now(service))
    requires forall r :: r in requests && r.ReloadRequest? && r.validated.Some? ==> Loaded(r.validated.value)
    modifies service, service.rtm, service.rtm.unavailable, service.world
    ensures Idle(service) && |es| == |exits| == |requests|
    ensures Run(old(Now(service)), es) && Last(old(Now(service)), es) == Now(service)
    ensures Patient(aim, es) ==> Standing(AimAtEnd(aim, es), Now(service))
    ensures Patient(aim, es) ==>
      AllLand(aim, requests, exits, es, service.world.setbacks == old(service.world.setbacks))
  {
    ghost var m := Now(service);
    exits, es := [], [];
    for i := 0 to |requests|
      invariant Idle(service) && |es| == |exits| == i
      invariant Run(m, es) && Last(m, es) == Now(service) && service.world.setbacks >= old(service.world.setbacks)
      invariant Patient(aim, es) ==>
        AllLand(aim, requests, exits, es, service.world.setbacks == old(service.world.setbacks))
    {
      ghost var at, before := Now(service), service.world.setbacks;
      var exit;
      ghost var e;
      exit, e := Answer(service, requests[i]);
      RunOn(m, es, e);
      if Patient(aim, es + [e]) {
        PatientPrefix(aim, es, e);
        StandsAtEnd(aim, m, es);
        NextLands(aim, requests, exits, es, at, exit, e, before == old(service.world.setbacks),
          service.world.setbacks == before);
      }
      exits, es := exits + [exit], es + [e];
    }
    if Patient(aim, es) { StandsAtEnd(aim, m, es); }
  }

  lemma NextLands(aim: Aim, requests: seq<Request>, exits: seq<int>, es: seq<Event>, m: Moment, exit: int, e: Event,
                  before: bool, calm: bool)
    requires |es| == |exits| < |requests| && AllLand(aim, requests, exits, es, before)
    requires Standing(AimAtEnd(aim, es), m) && Next(m, e)
    requires forall r :: r in requests && r.ReloadRequest? && r.validated.Some? ==> Loaded(r.validated.value)
    requires requests[|es|].ReloadRequest? ==> Told(requests[|es|], e, exit, calm)
    ensures AllLand(aim, requests, exits + [exit], es + [e], before && calm)
  {
    var request := requests[|es|];
    assert (es + [e])[..|es|] == es;
    if Effective(request) && Faithful(AimAtEnd(aim, es), request) && (exit == 0 || calm) {
      AnswerLands(AimAtEnd(aim, es), m, request, e, exit, calm);
    }
    OneMoreLands(aim, requests, exits, es, exit, e, before, before && calm);
  }

  /** In a patient run no connector an apply kept stops serving when that apply fails. */
  lemma {:induction false} FailuresKeepServing(aim: Aim, m: Moment, es: seq<Event>, k: nat)
    requires Standing(aim, m) && Run(m, es) && Patient(aim, es) && k < |es|
    requires es[k].step.Tried? && es[k].step.outcome.Failed?
    ensures KeptServe(Last(m, es[..k]), es[k])
    decreases |es|
  {
    RunUnfolds(m, es);
    if k == 0 {
      FailedKeepsServing(aim, m, es[0]);
    } else {
      EventStands(aim, m, es[0]);
      FailuresKeepServing(AimAfter(aim, es[0].step), es[0].after, es[1..], k - 1);
      LastOfRest(m, es, k);
    }
  }

  lemma LastOfRest(m: Moment, es: seq<Event>, k: nat)
    requires 0 < k < |es|
    ensures Last(es[0].after, es[1..][..k - 1]) == Last(m, es[..k]) && es[1..][k - 1] == es[k]
  {
  }

  lemma EventStands(aim: Aim, m: Moment, e: Event)
    requires Standing(aim, m) && Next(m, e)
    requires aim.Retrying? && e.step.Tried? ==> e.step.c == aim.next
    ensures Standing(AimAfter(aim, e.step), e.after)
  {
    EventHolds(aim, m, e);
    EventConserves(aim, m, e);
    EventBelow(aim, m, e);
    EventServes(aim, m, e);
  }

  lemma {:induction false} StandsAtEnd(aim: Aim, m: Moment, es: seq<Event>)
    requires Standing(aim, m) && Run(m, es) && Patient(aim, es)
    ensures Standing(AimAtEnd(aim, es), Last(m, es))
    decreases |es|
  {
    if es != [] {
      RunUnfolds(m, es);
      EventStands(aim, m, es[0]);
      StandsAtEnd(AimAfter(aim, es[0].step), es[0].after, es[1..]);
    }
  }

  lemma AgentsAreUp(base: GatewayConfig, s: ServiceState, live: set<Proc>, serial: nat)
    requires Synced(s, base) && AgentsServe(s, live, base.agents.Keys) && s.suspects == {}
    ensures Recovery.AllUp(Recovery.Shared(s.rt, live, serial, None, []))
  {
  }

  /** Between two requests, recoveries may begin: everything they rely on holds, and once an apply has
      completed every available agent is up. */
  lemma RecoveriesMayBegin(aim: Aim, m: Moment)
    requires Standing(aim, m)
    ensures Recovery.Inv(Recovery.Shared(m.s.rt, m.live, m.serial, None, []))
    ensures aim.Settled? ==> Recovery.AllUp(Recovery.Shared(m.s.rt, m.live, m.serial, None, []))
  {
    if aim.Settled? { AgentsAreUp(aim.base, m.s, m.live, m.serial); }
    assert Valid(m.s);
    forall p | p in m.live && !p.ConnectorProc? ensures m.s.rt.Tracks(p) {
      assert Tracked(m.s.rt, Look(m.s.entries), m.s.leftoverEntries, p);
    }
  }
}
