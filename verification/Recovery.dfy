/** Recovering an unavailable agent on a watcher verb's behalf: any number of calls, interleaved at
    every await (gateway/service.py, GatewayService._recover_agent, AgentRuntimeManager.start_some). */
module Recovery {
  import opened Values
  import opened Configs
  import opened Runtime

  // Where one call is suspended. `Registering` holds a broker that is up and not yet in `_brokers`.
  datatype Phase =
    | Waiting
    | StartingBackend
    | StartingBroker
    | Registering(broker: Broker)
    | StoppingBackend
    | Done(available: bool)

  datatype Call = Call(name: string, phase: Phase)

  // The runtime manager's fields, what runs outside, the lock and every call so far.
  datatype Shared = Shared(
    rt: RuntimeState,
    live: set<Proc>,
    serial: nat,
    holder: Option<nat>,
    calls: seq<Call>)
  {
    predicate At(i: nat, phase: Phase) {
      i < |calls| && calls[i].phase == phase
    }

    function Move(i: nat, phase: Phase): Shared
      requires i < |calls|
    {
      this.(calls := calls[i := Call(calls[i].name, phase)])
    }

    // The end of `start_some` for one agent, and of the call: nothing here awaits.
    function Finish(i: nat, available: bool): Shared
      requires i < |calls|
    {
      var n := calls[i].name;
      Move(i, Done(available)).(
        rt := rt.(unavailable := if available then rt.unavailable - {n} else rt.unavailable + {n}),
        holder := None)
    }
  }

  function Registered(x: Shared, i: nat): Shared
    requires i < |x.calls| && x.calls[i].phase.Registering?
  {
    var done := x.Finish(i, true);
    done.(rt := done.rt.(brokers := x.rt.brokers[x.calls[i].name := x.calls[i].phase.broker]))
  }

  // Every agent of the service has a broker, so there is none that needs no answer.
  datatype BrokerAnswer = Failed | Up

  datatype Label =
    | Arrive(name: string)
    | Enter(i: nat)
    | BackendAnswered(i: nat, up: bool)
    | BrokerAnswered(i: nat, answer: BrokerAnswer)
    | Register(i: nat)
    | BackendStopped(i: nat, clean: bool)

  /** What one resumption does. `lock` is false for the same code without `_recover_lock`. */
  ghost predicate Step(lock: bool, x: Shared, l: Label, x': Shared) {
    match l
    case Arrive(name) =>
      x' == x.(calls := x.calls + [Call(name, Waiting)])
    case Enter(i) =>
      && x.At(i, Waiting)
      && (lock ==> x.holder == None)
      && var n := x.calls[i].name;
        if n !in x.rt.unavailable then x' == x.Move(i, Done(true))
        else if n !in x.rt.agents then x' == x.Move(i, Done(false))
        else x' == x.Move(i, StartingBackend).(holder := Some(i))
    case BackendAnswered(i, up) =>
      && x.At(i, StartingBackend) && x.calls[i].name in x.rt.agents
      && (if up
          then x' == x.Move(i, StartingBroker).(live := x.live + {BackendProc(x.rt.agents[x.calls[i].name])})
          else x' == x.Finish(i, false))
    case BrokerAnswered(i, answer) =>
      && x.At(i, StartingBroker)
      && (match answer
          case Failed => x' == x.Move(i, StoppingBackend)
          case Up =>
            var b := Broker(x.serial, x.calls[i].name);
            x' == x.Move(i, Registering(b)).(live := x.live + {BrokerProc(b)}, serial := x.serial + 1))
    case Register(i) =>
      && i < |x.calls| && x.calls[i].phase.Registering?
      && x' == Registered(x, i)
    case BackendStopped(i, clean) =>
      && x.At(i, StoppingBackend) && x.calls[i].name in x.rt.agents
      && var p := BackendProc(x.rt.agents[x.calls[i].name]);
        x' == x.Finish(i, false).(live := if clean then x.live - {p} else x.live)
  }

  /** A schedule: each label takes one state to the next. */
  ghost predicate Schedule(lock: bool, xs: seq<Shared>, ls: seq<Label>) {
    && |xs| == |ls| + 1
    && (forall k :: 0 <= k < |ls| ==> Step(lock, xs[k], ls[k], xs[k + 1]))
  }

  predicate Active(p: Phase) {
    !p.Waiting? && !p.Done?
  }

  /** The sets the rest of the service reads. */
  ghost predicate NamesAgree(x: Shared) {
    && x.rt.unavailable <= x.rt.agents.Keys
    && x.rt.brokers.Keys <= x.rt.agents.Keys
    && x.rt.brokers.Keys !! x.rt.unavailable
  }

  ghost predicate LockHeld(x: Shared) {
    && (forall i :: 0 <= i < |x.calls| && Active(x.calls[i].phase) ==> x.holder == Some(i))
    && (x.holder.Some? ==> x.holder.value < |x.calls| && Active(x.calls[x.holder.value].phase))
    && (x.holder.Some? ==> x.calls[x.holder.value].name in x.rt.unavailable)
  }

  /** Every running broker is one an earlier reload could not stop, is registered, or is the one the
      lock's holder is about to register. */
  ghost predicate BrokersTracked(x: Shared) {
    && (forall p :: p in x.live && p.BrokerProc? ==>
          || p in x.rt.leftovers
          || (p.broker.agent in x.rt.brokers && x.rt.brokers[p.broker.agent] == p.broker)
          || (x.holder.Some? && x.holder.value < |x.calls| && x.calls[x.holder.value].phase == Registering(p.broker)))
    && (forall n :: n in x.rt.brokers ==> x.rt.brokers[n].agent == n)
  }

  ghost predicate BrokersReady(x: Shared) {
    forall i :: 0 <= i < |x.calls| && x.calls[i].phase.Registering? ==> BrokerReady(x, i)
  }

  ghost predicate BrokerReady(x: Shared, i: nat)
    requires i < |x.calls| && x.calls[i].phase.Registering?
  {
    var b := x.calls[i].phase.broker;
    b.agent == x.calls[i].name && BrokerProc(b) in x.live && BrokerProc(b) !in x.rt.leftovers
  }

  /** Identities handed out so far lie below the counter. */
  ghost predicate IdsBelow(x: Shared) {
    forall p :: (p in x.live || p in x.rt.leftovers) && p.BrokerProc? ==> p.broker.id < x.serial
  }

  ghost predicate BackendsTracked(x: Shared) {
    && (forall p :: p in x.live && p.BackendProc? ==>
          p in x.rt.leftovers || (p.backend.def.name in x.rt.agents && x.rt.agents[p.backend.def.name] == p.backend))
    && (forall n :: n in x.rt.agents ==> x.rt.agents[n].def.name == n)
  }

  /** A call that answered yes is still right. */
  ghost predicate AnswersHold(x: Shared) {
    forall i :: 0 <= i < |x.calls| && x.calls[i].phase == Done(true) ==> x.calls[i].name !in x.rt.unavailable
  }

  ghost predicate Inv(x: Shared) {
    NamesAgree(x) && LockHeld(x) && BrokersTracked(x) && BrokersReady(x) && IdsBelow(x) && BackendsTracked(x) &&
      AnswersHold(x)
  }

  /** Two brokers of one agent, both running. */
  ghost predicate Rivals(x: Shared, p: Proc, q: Proc) {
    p in x.live && q in x.live && p.BrokerProc? && q.BrokerProc? && p.broker.agent == q.broker.agent && p != q
  }

  /** No agent has two brokers running. */
  ghost predicate OneBroker(x: Shared) {
    forall p, q :: !Rivals(x, p, q)
  }

  /** Leftovers of earlier reloads aside, no agent has two brokers running. */
  ghost predicate OneActiveBroker(x: Shared) {
    forall p, q :: Rivals(x, p, q) ==> p in x.rt.leftovers || q in x.rt.leftovers
  }

  lemma InvMeansOneActive(x: Shared)
    requires Inv(x)
    ensures OneActiveBroker(x)
  {
  }

  lemma StepKeepsLock(x: Shared, l: Label, x': Shared)
    requires LockHeld(x) && Step(true, x, l, x')
    ensures LockHeld(x')
  {
  }

  lemma StepKeepsNames(x: Shared, l: Label, x': Shared)
    requires NamesAgree(x) && LockHeld(x) && AnswersHold(x) && Step(true, x, l, x')
    ensures NamesAgree(x') && AnswersHold(x')
  {
  }

  lemma StepKeepsBackends(x: Shared, l: Label, x': Shared)
    requires BackendsTracked(x) && Step(true, x, l, x')
    ensures BackendsTracked(x')
  {
  }

  lemma StepKeepsReady(x: Shared, l: Label, x': Shared)
    requires LockHeld(x) && BrokersReady(x) && IdsBelow(x) && Step(true, x, l, x')
    ensures BrokersReady(x') && IdsBelow(x')
  {
    forall i | 0 <= i < |x'.calls| && x'.calls[i].phase.Registering? ensures BrokerReady(x', i) {
      assert i < |x.calls| && (x.calls[i].phase.Registering? ==> BrokerReady(x, i));
    }
  }

  lemma StepKeepsBrokers(x: Shared, l: Label, x': Shared)
    requires NamesAgree(x) && LockHeld(x) && BrokersTracked(x) && BrokersReady(x) && Step(true, x, l, x')
    ensures BrokersTracked(x')
  {
  }

  lemma StepKeepsInv(x: Shared, l: Label, x': Shared)
    requires Inv(x) && Step(true, x, l, x')
    ensures Inv(x')
  {
    StepKeepsLock(x, l, x');
    StepKeepsNames(x, l, x');
    StepKeepsBackends(x, l, x');
    StepKeepsReady(x, l, x');
    StepKeepsBrokers(x, l, x');
  }

  /** Recovery under concurrency: whatever the interleaving, the names agree, everything running is
      tracked, leftovers aside no agent has two brokers running, and a positive answer stays true. */
  lemma {:induction false} RecoveryIsSafe(xs: seq<Shared>, ls: seq<Label>, k: nat)
    requires Schedule(true, xs, ls) && Inv(xs[0]) && k < |xs|
    ensures Inv(xs[k]) && OneActiveBroker(xs[k])
  {
    if k > 0 {
      RecoveryIsSafe(xs, ls, k - 1);
      StepKeepsInv(xs[k - 1], ls[k - 1], xs[k]);
    }
    InvMeansOneActive(xs[k]);
  }

  // ---- What a call leaves of its agent ----

  /** The backend a call has brought up runs until the call itself tells it to stop. */
  ghost predicate HolderUp(x: Shared) {
    forall i :: 0 <= i < |x.calls| && HasStarted(x.calls[i].phase) ==>
      x.calls[i].name in x.rt.agents && BackendProc(x.rt.agents[x.calls[i].name]) in x.live
  }

  predicate HasStarted(p: Phase) {
    p.StartingBroker? || p.Registering? || p.StoppingBackend?
  }

  /** Every available agent is up: backend and registered broker, both running. */
  ghost predicate AllUp(x: Shared) {
    forall n :: n in x.rt.agents && n !in x.rt.unavailable ==> AgentUp(x.rt, x.live, n)
  }

  lemma StepKeepsHolderUp(x: Shared, l: Label, x': Shared)
    requires Inv(x) && HolderUp(x) && Step(true, x, l, x')
    ensures HolderUp(x')
  {
    forall i | 0 <= i < |x'.calls| && HasStarted(x'.calls[i].phase)
      ensures x'.calls[i].name in x'.rt.agents && BackendProc(x'.rt.agents[x'.calls[i].name]) in x'.live {
      assert i < |x.calls|;
    }
  }

  lemma StepKeepsAllUp(x: Shared, l: Label, x': Shared)
    requires Inv(x) && HolderUp(x) && AllUp(x) && Step(true, x, l, x')
    ensures AllUp(x')
  {
    match l
    case Arrive(_) =>
    case Enter(_) =>
    case BackendAnswered(_, _) =>
    case BrokerAnswered(_, _) =>
    case Register(i) =>
      assert BrokerReady(x, i);
    case BackendStopped(i, _) =>
      assert x.holder == Some(i);
  }

  /** No agent serves without its broker: whatever the interleaving, an agent that is not unavailable
      has its backend and its registered broker running. */
  lemma {:induction false} AvailableIsUp(xs: seq<Shared>, ls: seq<Label>, k: nat)
    requires Schedule(true, xs, ls) && Inv(xs[0]) && HolderUp(xs[0]) && AllUp(xs[0]) && k < |xs|
    ensures HolderUp(xs[k]) && AllUp(xs[k])
  {
    if k > 0 {
      AvailableIsUp(xs, ls, k - 1);
      RecoveryIsSafe(xs, ls, k - 1);
      StepKeepsHolderUp(xs[k - 1], ls[k - 1], xs[k]);
      StepKeepsAllUp(xs[k - 1], ls[k - 1], xs[k]);
    }
  }

  /** So a call that answers yes speaks the truth, then and ever after. */
  lemma YesMeansUp(xs: seq<Shared>, ls: seq<Label>, k: nat, i: nat)
    requires Schedule(true, xs, ls) && Inv(xs[0]) && HolderUp(xs[0]) && AllUp(xs[0]) && k < |xs|
    requires i < |xs[k].calls| && xs[k].calls[i].phase == Done(true) && xs[k].calls[i].name in xs[k].rt.agents
    ensures AgentUp(xs[k].rt, xs[k].live, xs[k].calls[i].name)
  {
    RecoveryIsSafe(xs, ls, k);
    AvailableIsUp(xs, ls, k);
    assert AnswersHold(xs[k]);
  }

  /** A call answers, when it does, whether its agent is available then. */
  lemma AnswerIsCurrent(lock: bool, x: Shared, l: Label, x': Shared, i: nat)
    requires Step(lock, x, l, x') && i < |x.calls| && !x.calls[i].phase.Done? && x'.calls[i].phase.Done?
    ensures x'.calls[i].phase.available <==> x.calls[i].name !in x'.rt.unavailable
  {
    assert x'.calls[i].name == x.calls[i].name;
  }

  /** This step tells the call's backend to stop, and if that went well it is down. */
  ghost predicate StopsTheirs(x: Shared, l: Label, x': Shared, i: nat)
    requires i < |x.calls|
  {
    && l.BackendStopped? && l.i == i && x.calls[i].name in x.rt.agents
    && (l.clean ==> BackendProc(x.rt.agents[x.calls[i].name]) !in x'.live)
  }

  ghost predicate StoppedAt(xs: seq<Shared>, ls: seq<Label>, i: nat, k: nat) {
    k < |ls| && |xs| == |ls| + 1 && i < |xs[k].calls| && StopsTheirs(xs[k], ls[k], xs[k + 1], i)
  }

  lemma StepMovesOne(lock: bool, x: Shared, l: Label, x': Shared, i: nat)
    requires Step(lock, x, l, x') && i < |x.calls|
    ensures i < |x'.calls| && x'.calls[i].name == x.calls[i].name
    ensures x.calls[i].phase.Done? ==> x'.calls[i].phase == x.calls[i].phase
    ensures HasStarted(x.calls[i].phase) ==>
      HasStarted(x'.calls[i].phase) || x'.calls[i].phase == Done(true) || StopsTheirs(x, l, x', i)
  {
  }

  /** A call that got its agent's backend up and still answers no has told that backend to stop,
      whether or not there is a lock. */
  lemma {:induction false} FailedCallStopped(lock: bool, xs: seq<Shared>, ls: seq<Label>, i: nat, a: nat, b: nat)
    requires Schedule(lock, xs, ls) && a <= b < |xs| && i < |xs[a].calls| && HasStarted(xs[a].calls[i].phase)
    ensures i < |xs[b].calls| && xs[b].calls[i].name == xs[a].calls[i].name
    ensures HasStarted(xs[b].calls[i].phase) || xs[b].calls[i].phase == Done(true) ||
      exists k :: a <= k < b && StoppedAt(xs, ls, i, k)
    decreases b - a
  {
    if a < b {
      StepMovesOne(lock, xs[a], ls[a], xs[a + 1], i);
      assert StopsTheirs(xs[a], ls[a], xs[a + 1], i) ==> StoppedAt(xs, ls, i, a);
      if HasStarted(xs[a + 1].calls[i].phase) {
        FailedCallStopped(lock, xs, ls, i, a + 1, b);
      } else {
        DoneStaysDone(lock, xs, ls, i, a + 1, b);
      }
    }
  }

  lemma {:induction false} DoneStaysDone(lock: bool, xs: seq<Shared>, ls: seq<Label>, i: nat, a: nat, b: nat)
    requires Schedule(lock, xs, ls) && a <= b < |xs| && i < |xs[a].calls|
    ensures i < |xs[b].calls| && xs[b].calls[i].name == xs[a].calls[i].name
    ensures xs[a].calls[i].phase.Done? ==> xs[b].calls[i].phase == xs[a].calls[i].phase
    decreases b - a
  {
    if a < b {
      StepMovesOne(lock, xs[a], ls[a], xs[a + 1], i);
      DoneStaysDone(lock, xs, ls, i, a + 1, b);
    }
  }

  // ---- A broker an earlier reload could not stop ----

  ghost predicate LiveLeftover(x: Shared, p: Proc) {
    p in x.live && p in x.rt.leftovers && p.BrokerProc?
  }

  /** Some agent that waits to be recovered still has an old broker running. */
  ghost predicate LeftoverAwaits(x: Shared) {
    exists p :: LiveLeftover(x, p) && p.broker.agent in x.rt.unavailable
  }

  ghost predicate StartsFrom(x: Shared, xs: seq<Shared>, ls: seq<Label>) {
    Schedule(true, xs, ls) && xs[0] == x
  }

  /** Two brokers of one agent run at some moment of some schedule. */
  ghost predicate MayDouble(x: Shared) {
    exists xs, ls, k: nat :: StartsFrom(x, xs, ls) && k < |xs| && !OneBroker(xs[k])
  }

  /** What a schedule leaves of its first state: brokers are only added, and only for agents that
      were unavailable then. */
  ghost predicate Later(x: Shared, y: Shared) {
    && y.rt.unavailable <= x.rt.unavailable && y.rt.leftovers == x.rt.leftovers && y.serial >= x.serial
    && (forall p :: p in y.live && p.BrokerProc? && p !in x.live ==>
      p.broker.agent in x.rt.unavailable && p.broker.id >= x.serial)
  }

  lemma {:induction false} SchedulesAreLater(xs: seq<Shared>, ls: seq<Label>, k: nat)
    requires Schedule(true, xs, ls) && Inv(xs[0]) && k < |xs|
    ensures Later(xs[0], xs[k])
  {
    if k > 0 {
      SchedulesAreLater(xs, ls, k - 1);
      RecoveryIsSafe(xs, ls, k - 1);
      StepIsLater(xs[0], xs[k - 1], ls[k - 1], xs[k]);
    }
  }

  lemma StepIsLater(x0: Shared, x: Shared, l: Label, x': Shared)
    requires LockHeld(x) && Later(x0, x) && Step(true, x, l, x')
    ensures Later(x0, x')
  {
  }

  lemma Prepend(x: Shared, l: Label, xs: seq<Shared>, ls: seq<Label>, k: nat)
    requires Schedule(true, xs, ls) && Step(true, x, l, xs[0])
    requires k < |xs| && !OneBroker(xs[k])
    ensures MayDouble(x)
  {
    var ys, ms := [x] + xs, [l] + ls;
    forall j | 0 <= j < |ms| ensures Step(true, ys[j], ms[j], ys[j + 1]) {
      if j > 0 { assert Step(true, xs[j - 1], ls[j - 1], xs[j]); }
    }
    assert StartsFrom(x, ys, ms) && ys[k + 1] == xs[k];
  }

  lemma StepMayDouble(x: Shared, l: Label, x': Shared)
    requires Step(true, x, l, x') && MayDouble(x')
    ensures MayDouble(x)
  {
    var xs, ls, k: nat :| StartsFrom(x', xs, ls) && k < |xs| && !OneBroker(xs[k]);
    Prepend(x, l, xs, ls, k);
  }

  lemma DoubledNow(x: Shared, p: Proc, q: Proc)
    requires Rivals(x, p, q)
    ensures MayDouble(x)
  {
    var xs: seq<Shared> := [x];
    assert StartsFrom(x, xs, []) && xs[0] == x;
  }

  /** With the lock free, the next call for that agent starts a second broker. */
  lemma NextCallDoubles(x: Shared, p: Proc)
    requires Inv(x) && LiveLeftover(x, p) && p.broker.agent in x.rt.unavailable && x.holder == None
    ensures MayDouble(x)
  {
    var n, i := p.broker.agent, |x.calls|;
    var x1 := x.(calls := x.calls + [Call(n, Waiting)]);
    var x2 := x1.Move(i, StartingBackend).(holder := Some(i));
    var x3 := x2.Move(i, StartingBroker).(live := x.live + {BackendProc(x.rt.agents[n])});
    var b := Broker(x.serial, n);
    var x4 := x3.Move(i, Registering(b)).(live := x3.live + {BrokerProc(b)}, serial := x.serial + 1);
    assert Step(true, x3, BrokerAnswered(i, Up), x4);
    assert Step(true, x2, BackendAnswered(i, true), x3);
    DoubledNow(x4, p, BrokerProc(b));
    StepMayDouble(x3, BrokerAnswered(i, Up), x4);
    StepMayDouble(x2, BackendAnswered(i, true), x3);
    StepMayDouble(x1, Enter(i), x2);
    StepMayDouble(x, Arrive(n), x1);
  }

  function Rank(x: Shared): nat {
    if x.holder.None? || x.holder.value >= |x.calls| then 0
    else if x.calls[x.holder.value].phase.StartingBroker? then 2 else 1
  }

  /** Whoever holds the lock can be done with the agent still unavailable, or has doubled it already. */
  lemma {:induction false} LeftoverDoubles(x: Shared, p: Proc)
    requires Inv(x) && LiveLeftover(x, p) && p.broker.agent in x.rt.unavailable
    ensures MayDouble(x)
    decreases Rank(x)
  {
    if x.holder == None {
      NextCallDoubles(x, p);
    } else {
      var i := x.holder.value;
      if x.calls[i].phase.Registering? && x.calls[i].name == p.broker.agent {
        assert BrokerReady(x, i);
        DoubledNow(x, p, BrokerProc(x.calls[i].phase.broker));
      } else {
        var l, x' := HolderGivesUp(x, i);
        StepKeepsInv(x, l, x');
        LeftoverDoubles(x', p);
        StepMayDouble(x, l, x');
      }
    }
  }

  lemma HolderGivesUp(x: Shared, i: nat) returns (l: Label, x': Shared)
    requires Inv(x) && x.holder == Some(i)
    ensures Step(true, x, l, x') && Rank(x') < Rank(x)
    ensures x.live <= x'.live && x'.rt.leftovers == x.rt.leftovers
    ensures if x.calls[i].phase.Registering? then x'.rt.unavailable ==
      x.rt.unavailable - {x.calls[i].name} else x'.rt.unavailable == x.rt.unavailable
  {
    match x.calls[i].phase
    case StartingBackend =>
      l, x' := BackendAnswered(i, false), x.Finish(i, false);
    case StartingBroker =>
      l, x' := BrokerAnswered(i, Failed), x.Move(i, StoppingBackend);
    case StoppingBackend =>
      l, x' := BackendStopped(i, false), x.Finish(i, false);
    case Registering(b) =>
      l, x' := Register(i), Registered(x, i);
    case Waiting =>
      assert false;
    case Done(_) =>
      assert false;
  }

  /** One broker per agent, exactly: no schedule ever doubles one just when none is doubled to begin
      with and no agent waiting to be recovered has an old broker still running. */
  lemma NeverDoubles(x: Shared)
    requires Inv(x)
    ensures !MayDouble(x) <==> OneBroker(x) && !LeftoverAwaits(x)
  {
    if p, q :| Rivals(x, p, q) {
      DoubledNow(x, p, q);
    } else if p :| LiveLeftover(x, p) && p.broker.agent in x.rt.unavailable {
      LeftoverDoubles(x, p);
    } else if MayDouble(x) {
      var xs, ls, k: nat :| StartsFrom(x, xs, ls) && k < |xs| && !OneBroker(xs[k]);
      SchedulesAreLater(xs, ls, k);
      RecoveryIsSafe(xs, ls, k);
      StaysSingle(x, xs[k]);
    }
  }

  lemma StaysSingle(x: Shared, y: Shared)
    requires Inv(x) && OneBroker(x) && !LeftoverAwaits(x)
    requires Later(x, y) && OneActiveBroker(y)
    ensures OneBroker(y)
  {
    forall p, q | Rivals(y, p, q) ensures false {
      if p in y.rt.leftovers {
        OldAgainstNew(x, y, p, q);
      } else {
        OldAgainstNew(x, y, q, p);
      }
    }
  }

  lemma OldAgainstNew(x: Shared, y: Shared, p: Proc, q: Proc)
    requires Inv(x) && OneBroker(x) && Later(x, y)
    requires Rivals(y, p, q) && p in y.rt.leftovers
    ensures LeftoverAwaits(x)
  {
    assert !Rivals(x, p, q);
    assert LiveLeftover(x, p);
  }

  const X_AGENT := AgentConfig("x", "opencode", Null, Null, "", Null, false, [], [], [], Null,
                               PermissionConfig(Null, Null, Null))
  const X_BACKEND := Backend(0, X_AGENT)

  // An agent a reload could not stop the broker of and could not start anew: the next verb gives it
  // a second broker, under the lock.
  lemma LeftoverRace() returns (x: Shared)
    ensures Inv(x) && OneBroker(x) && x.holder == None && MayDouble(x)
  {
    var stuck := BrokerProc(Broker(0, "x"));
    x := Shared(RuntimeState(map["x" := X_BACKEND], map[], {"x"}, [stuck]), {stuck}, 1, None, []);
    assert LiveLeftover(x, stuck);
    LeftoverDoubles(x, stuck);
  }

  // ---- Why the lock ----

  // Two calls on one unavailable agent, without the lock: both see it unavailable, both start a
  // broker, and the second one to register displaces the first.
  function RaceState(first: Phase, second: Phase, live: set<Proc>, serial: nat, holder: Option<nat>): Shared {
    Shared(RuntimeState(map["x" := X_BACKEND], map[], {"x"}, []), live, serial, holder,
      [Call("x", first), Call("x", second)])
  }

  lemma WithoutLock() returns (xs: seq<Shared>, ls: seq<Label>)
    ensures Schedule(false, xs, ls) && |ls| > 0 && Inv(xs[0])
    ensures !OneBroker(xs[|xs| - 1])
    ensures exists p :: p in xs[|xs| - 1].live && p.BrokerProc? && p.broker !in xs[|xs| - 1].rt.brokers.Values
  {
    RaceBegins();
    var xs1, ls1 := FirstHalf();
    var xs2, ls2 := SecondHalf();
    xs, ls := xs1 + xs2[1..], ls1 + ls2;
    Join(false, xs1, ls1, xs2, ls2);
  }

  lemma Join(lock: bool, xs1: seq<Shared>, ls1: seq<Label>, xs2: seq<Shared>, ls2: seq<Label>)
    requires Schedule(lock, xs1, ls1) && Schedule(lock, xs2, ls2) && xs1[|xs1| - 1] == xs2[0]
    ensures Schedule(lock, xs1 + xs2[1..], ls1 + ls2)
    ensures (xs1 + xs2[1..])[|xs1 + xs2[1..]| - 1] == xs2[|xs2| - 1]
  {
    var xs, ls := xs1 + xs2[1..], ls1 + ls2;
    forall k | 0 <= k < |ls| ensures Step(lock, xs[k], ls[k], xs[k + 1]) {
      if k >= |ls1| { assert Step(lock, xs2[k - |ls1|], ls2[k - |ls1|], xs2[k - |ls1| + 1]); }
    }
  }

  lemma RaceBegins()
    ensures Inv(RaceState(Waiting, Waiting, {}, 1, None))
  {
  }

  lemma FirstHalf() returns (xs: seq<Shared>, ls: seq<Label>)
    ensures Schedule(false, xs, ls) && |ls| == 4
    ensures xs[0] == RaceState(Waiting, Waiting, {}, 1, None)
    ensures xs[4] == RaceState(StartingBroker, StartingBroker, {BackendProc(X_BACKEND)}, 1, Some(1))
  {
    var up := {BackendProc(X_BACKEND)};
    xs := [RaceState(Waiting, Waiting, {}, 1, None), RaceState(StartingBackend, Waiting, {}, 1, Some(0)),
           RaceState(StartingBackend, StartingBackend, {}, 1, Some(1)),
             RaceState(StartingBroker, StartingBackend, up, 1, Some(1)),
           RaceState(StartingBroker, StartingBroker, up, 1, Some(1))];
    ls := [Enter(0), Enter(1), BackendAnswered(0, true), BackendAnswered(1, true)];
  }

  lemma SecondHalf() returns (xs: seq<Shared>, ls: seq<Label>)
    ensures Schedule(false, xs, ls) && |ls| == 4
    ensures xs[0] == RaceState(StartingBroker, StartingBroker, {BackendProc(X_BACKEND)}, 1, Some(1))
    ensures !OneBroker(xs[4])
    ensures exists p :: p in xs[4].live && p.BrokerProc? && p.broker !in xs[4].rt.brokers.Values
  {
    var up, b0, b1 := {BackendProc(X_BACKEND)}, Broker(1, "x"), Broker(2, "x");
    var x0 := RaceState(StartingBroker, StartingBroker, up, 1, Some(1));
    var x1 := RaceState(Registering(b0), StartingBroker, up + {BrokerProc(b0)}, 2, Some(1));
    var x2 := RaceState(Registering(b0), Registering(b1), up + {BrokerProc(b0), BrokerProc(b1)}, 3, Some(1));
    var x3 := Registered(x2, 0);
    var x4 := Registered(x3, 1);
    xs := [x0, x1, x2, x3, x4];
    ls := [BrokerAnswered(0, Up), BrokerAnswered(1, Up), Register(0), Register(1)];
    assert Rivals(x4, BrokerProc(b0), BrokerProc(b1));
  }
}
