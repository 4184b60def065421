/** What a `config reload` request plans, and every way it can end
    (gateway/service.py reload_config, _retry_degraded, _retry_leftovers). */
module ReloadPlanning {
  import opened Values
  import opened Configs
  import opened Runtime
  import opened ReloadSpec

  /** Degraded connectors, and agents that are unavailable or suspect, count as changed. */
  function FoldDegraded(d: ConfigDiff, entries: seq<Entry>, doubtful: set<string>, c: GatewayConfig): ConfigDiff {
    d.(connectors := d.connectors.(changed := d.connectors.changed + DegradedNames(entries, d, c)),
       agents := d.agents.(changed := d.agents.changed + doubtful * c.agents.Keys))
  }

  function DegradedNames(entries: seq<Entry>, d: ConfigDiff, c: GatewayConfig): set<string> {
    set e | e in entries && e.degraded && e.cfg.name in CandidateNames(c) &&
      e.cfg.name !in d.connectors.added :: e.cfg.name
  }

  /** The diff an apply is given: against the active configuration, with what is degraded folded in,
      and with every connector neither configuration names among the removals. */
  ghost predicate Planned(s: ServiceState, c: GatewayConfig, d: ConfigDiff) {
    var f := FoldDegraded(DiffConfigs(s.config, c), s.entries, s.rt.unavailable + s.suspects, c);
    && d == f.(connectors := f.connectors.(removed := d.connectors.removed))
    && f.connectors.removed + (Look(s.entries).Keys - CandidateNames(c)) <= d.connectors.removed
    && d.connectors.removed !! CandidateNames(c)
  }

  lemma PlannedFits(s: ServiceState, c: GatewayConfig, d: ConfigDiff)
    requires Planned(s, c, d)
    ensures Fits(d, c) && Folded(Look(s.entries), d, c)
  {
    forall n | n in Look(s.entries) && Look(s.entries)[n].degraded && n in CandidateNames(c)
      ensures n in RebuiltConnectors(d) {
      var i := LookIndex(s.entries, n);
      assert s.entries[i] in s.entries;
    }
    forall n | n in RebuiltConnectors(d) ensures n in CandidateNames(c) {
    }
  }

  /** Leftovers are tried once more; what stops is dropped, nothing else changes. */
  ghost predicate LeftoversRetried(s: ServiceState, live: set<Proc>, s': ServiceState, live': set<Proc>) {
    && s' == s.(leftoverEntries := s'.leftoverEntries, rt := s.rt.(leftovers := s'.rt.leftovers))
    && (forall p :: p in s'.leftoverEntries ==> p in s.leftoverEntries)
    && (forall p :: p in s'.rt.leftovers ==> p in s.rt.leftovers)
    && (forall p :: p in s.leftoverEntries && p !in s'.leftoverEntries ==> p !in live')
    && (forall p :: p in s.rt.leftovers && p !in s'.rt.leftovers ==> p !in live')
    && live' <= live
    && (forall p :: p in live && p !in live' ==> p in s.leftoverEntries || p in s.rt.leftovers)
  }

  lemma NothingRetried(s: ServiceState, live: set<Proc>)
    ensures LeftoversRetried(s, live, s, live)
  {
  }

  lemma RetrySound(s: ServiceState, live: set<Proc>, s': ServiceState, live': set<Proc>)
    requires LeftoversRetried(s, live, s', live') && Sound(s, live)
    ensures Sound(s', live')
  {
    forall p | p in live' ensures Tracked(s'.rt, Look(s'.entries), s'.leftoverEntries, p) {
      assert Tracked(s.rt, Look(s.entries), s.leftoverEntries, p);
    }
  }

  /** How one request ended. `Untouched` is a refusal before anything ran, or a dry run; `Retried`
      went no further than the leftovers; `Tried` planned `d` and applied it, from `before`. Between
      reloads a watcher verb may recover an unavailable agent. */
  datatype Step =
    | Untouched
    | Retried
    | Recovered(name: string, serial0: nat, failed: set<string>)
    | Tried(before: ServiceState, running: set<Proc>, serial: nat, d: ConfigDiff, c: GatewayConfig,
            outcome: Outcome, b: Build, started: set<string>)

  ghost predicate Reloaded(s: ServiceState, live: set<Proc>, step: Step, s': ServiceState, live': set<Proc>,
                           reports: seq<Degraded>)
  {
    match step
    case Untouched => s' == s && live' == live
    case Retried => LeftoversRetried(s, live, s', live')
    case Recovered(name, serial0, failed) =>
      && name in s.rt.unavailable && s.rt.Valid() && s' == s.(rt := s'.rt)
      && Started(s.rt, live, serial0, {name}, failed, s'.rt, live')
    case Tried(s1, live1, serial, d, c, outcome, b, started) =>
      && LeftoversRetried(s, live, s1, live1)
      && Loaded(c) && Planned(s1, c, d) && Fits(d, c)
      && Applied(s1, live1, serial, d, c, outcome, b, started, s', live', reports)
  }

  lemma RetriedThenTried(s: ServiceState, live: set<Proc>, s1: ServiceState, live1: set<Proc>, step: Step,
                         s': ServiceState, live': set<Proc>, reports: seq<Degraded>)
    requires LeftoversRetried(s, live, s1, live1) && step.Tried? && step.before == s1 && step.running == live1
    requires Reloaded(s1, live1, step, s', live', reports)
    ensures Reloaded(s, live, step, s', live', reports)
  {
  }

  function LeftoverFindings(ps: seq<Proc>): (ds: seq<Degraded>)
    ensures |ds| == |ps|
    ensures forall i :: 0 <= i < |ps| ==> ds[i] == LeftoverFinding(ps[i])
  {
    seq(|ps|, i requires 0 <= i < |ps| => LeftoverFinding(ps[i]))
  }

  lemma FindingListed(ps: seq<Proc>)
    ensures forall p :: p in ps ==> LeftoverFinding(p) in LeftoverFindings(ps)
  {
    forall p | p in ps ensures LeftoverFinding(p) in LeftoverFindings(ps) {
      var i :| 0 <= i < |ps| && ps[i] == p;
      assert LeftoverFindings(ps)[i] == LeftoverFinding(p);
    }
  }

  /** Every process that would not stop is on the report. */
  ghost predicate AllReported(s: ServiceState, reports: seq<Degraded>) {
    && (forall p :: p in s.leftoverEntries ==> LeftoverFinding(p) in reports)
    && (forall p :: p in s.rt.leftovers ==> LeftoverFinding(p) in reports)
  }

  lemma AllStillReported(s: ServiceState, reports: seq<Degraded>, s': ServiceState, reports': seq<Degraded>)
    requires AllReported(s, reports) && reports <= reports' && LeftoversReported(s, s', reports')
    ensures AllReported(s', reports')
  {
  }

  lemma NothingLeft(s: ServiceState)
    ensures AllReported(s, []) <==> s.leftoverEntries == [] && s.rt.leftovers == []
  {
    assert s.leftoverEntries == [] || s.leftoverEntries[0] in s.leftoverEntries;
    assert s.rt.leftovers == [] || s.rt.leftovers[0] in s.rt.leftovers;
  }
}
