/** First-match routing, and the warning about rules that can never fire
    (gateway/config.py find_shadowed_rules; gateway/core/watcher_manager.py first_matching_rule;
    gateway/core/watcher_rule.py RoomMatcher.match). */
module Rules {
  import opened Values
  import opened Configs

  // The pattern language, as far as routing needs it.
  datatype Logic = Logic(
    matches: (RoomPattern, string) -> bool,
    subsumes: (seq<RoomPattern>, seq<RoomPattern>) -> bool)
  {
    predicate MatchesAny(patterns: seq<RoomPattern>, name: string) {
      exists i :: 0 <= i < |patterns| && matches(patterns[i], name)
    }

    /** `union_subsumes` may understate, but what it says holds. */
    ghost predicate Sound() {
      forall outer, inner, name :: subsumes(outer, inner) && MatchesAny(inner, name) ==> MatchesAny(outer, name)
    }
  }

  datatype RoomKind = Channel | DirectMessage | GroupMessage

  datatype Room = Room(name: string, kind: RoomKind)

  datatype Verdict = NoMatch | Claims | Declines

  function Match(l: Logic, m: RoomMatcher, room: Room): Verdict {
    match room.kind
    case DirectMessage => if m.direct then Claims else NoMatch
    case GroupMessage => if m.groupDirect then Claims else NoMatch
    case Channel =>
      if !l.MatchesAny(m.includes, room.name) then NoMatch
      else if l.MatchesAny(m.exceptFor, room.name) then Declines
      else Claims
  }

  predicate Stops(l: Logic, r: WatcherRule, connector: string, room: Room) {
    r.connector == connector && Match(l, r.rooms, room) != NoMatch
  }

  /** Who answers a room: the rule that claims it, nobody because a rule declined it, or nobody. */
  datatype Routing = ClaimedBy(rule: WatcherRule) | Declined | Unclaimed

  function RouteFrom(l: Logic, rules: seq<WatcherRule>, connector: string, room: Room): Routing {
    if rules == [] then Unclaimed
    else if !Stops(l, rules[0], connector, room) then RouteFrom(l, rules[1..], connector, room)
    else if Match(l, rules[0].rooms, room) == Claims then ClaimedBy(rules[0])
    else Declined
  }

  /** The first rule that stops a room decides it, whether it claims or declines. */
  lemma {:induction false} FirstStopDecides(l: Logic, rules: seq<WatcherRule>, connector: string, room: Room, i: nat)
    requires i <= |rules|
    requires forall j :: 0 <= j < i ==> !Stops(l, rules[j], connector, room)
    requires i < |rules| ==> Stops(l, rules[i], connector, room)
    ensures RouteFrom(l, rules, connector, room) ==
      if i == |rules| then Unclaimed
      else if Match(l, rules[i].rooms, room) == Claims then ClaimedBy(rules[i])
      else Declined
  {
    if i > 0 { FirstStopDecides(l, rules[1..], connector, room, i - 1); }
  }

  // A channel with no name matches nothing.
  function Route(l: Logic, rules: seq<WatcherRule>, connector: string, room: Room): Routing {
    if room.kind == Channel && room.name == "" then Unclaimed else RouteFrom(l, rules, connector, room)
  }

  /** The rule is asked about the room: its include names it, or it takes rooms of that kind. */
  predicate Asked(l: Logic, r: WatcherRule, connector: string, room: Room) {
    && r.connector == connector
    && match room.kind
       case Channel => room.name != "" && l.MatchesAny(r.rooms.includes, room.name)
       case DirectMessage => r.rooms.direct
       case GroupMessage => r.rooms.groupDirect
  }

  /** Only a named room can be excepted. */
  predicate Excepted(l: Logic, r: WatcherRule, room: Room) {
    room.kind == Channel && l.MatchesAny(r.rooms.exceptFor, room.name)
  }

  ghost predicate FirstAsked(l: Logic, rules: seq<WatcherRule>, connector: string, room: Room, i: nat) {
    && i < |rules| && Asked(l, rules[i], connector, room)
    && forall j :: 0 <= j < i ==> !Asked(l, rules[j], connector, room)
  }

  /** Each answer, said of the rules alone: the first rule asked claims the room unless it excepts it,
      and then nobody after it is asked. */
  lemma RouteMeans(l: Logic, rules: seq<WatcherRule>, connector: string, room: Room)
    ensures Route(l, rules, connector, room).Unclaimed? <==> forall i: nat :: !FirstAsked(l, rules, connector, room, i)
    ensures Route(l, rules, connector, room).Declined? <==>
      exists i: nat :: FirstAsked(l, rules, connector, room, i) && Excepted(l, rules[i], room)
    ensures forall r :: Route(l, rules, connector, room) == ClaimedBy(r) <==>
      exists i: nat :: FirstAsked(l, rules, connector, room, i) && !Excepted(l, rules[i], room) && rules[i] == r
  {
    if room.kind != Channel || room.name != "" {
      assert forall r :: Asked(l, r, connector, room) <==> Stops(l, r, connector, room);
      var i := FirstStop(l, rules, connector, room);
      FirstStopDecides(l, rules, connector, room, i);
      assert i < |rules| ==> FirstAsked(l, rules, connector, room, i);
      assert forall j: nat :: FirstAsked(l, rules, connector, room, j) ==> j == i;
    }
  }

  lemma FirstStop(l: Logic, rules: seq<WatcherRule>, connector: string, room: Room) returns (i: nat)
    ensures i <= |rules| && forall j :: 0 <= j < i ==> !Stops(l, rules[j], connector, room)
    ensures i < |rules| ==> Stops(l, rules[i], connector, room)
  {
    i := 0;
    while i < |rules| && !Stops(l, rules[i], connector, room)
      invariant i <= |rules| && forall j :: 0 <= j < i ==> !Stops(l, rules[j], connector, room)
    {
      i := i + 1;
    }
  }

  method FirstMatchingRule(l: Logic, rules: seq<WatcherRule>, connector: string,
                           room: Room) returns (owner: Option<WatcherRule>)
    ensures owner == match Route(l, rules, connector, room) case ClaimedBy(r) => Some(r) case _ => None
    ensures forall r :: owner == Some(r) <==>
      exists i: nat :: FirstAsked(l, rules, connector, room, i) && !Excepted(l, rules[i], room) && rules[i] == r
  {
    RouteMeans(l, rules, connector, room);
    if room.kind == Channel && room.name == "" { return None; }
    for i := 0 to |rules|
      invariant RouteFrom(l, rules, connector, room) == RouteFrom(l, rules[i..], connector, room)
    {
      assert rules[i..][1..] == rules[i + 1..];
      if rules[i].connector == connector {
        var verdict := Match(l, rules[i].rooms, room);
        if verdict == Claims { return Some(rules[i]); }
        if verdict == Declines { return None; }
      }
    }
    owner := None;
  }

  /** The share of the rules a connector is given holds its own, and routes as all of them would. */
  lemma {:induction false} OwnRulesRouteAlike(l: Logic, rules: seq<WatcherRule>, connector: string, room: Room)
    ensures forall r :: r in RulesFor(rules, connector) ==> r in rules && r.connector == connector
    ensures RouteFrom(l, RulesFor(rules, connector), connector, room) == RouteFrom(l, rules, connector, room)
  {
    if rules != [] {
      OwnRulesRouteAlike(l, rules[1..], connector, room);
      var own := RulesFor(rules, connector);
      if rules[0].connector == connector {
        assert own[0] == rules[0] && own[1..] == RulesFor(rules[1..], connector);
      } else {
        assert own == RulesFor(rules[1..], connector);
      }
    }
  }

  // ---- Shadowing ----

  // The independent ways a rule can reach a room.
  datatype Reach = ByName | ByDirect | ByGroup

  const REACHES: seq<Reach> := [ByName, ByDirect, ByGroup]

  predicate Has(r: WatcherRule, reach: Reach) {
    match reach
    case ByName => r.rooms.includes != []
    case ByDirect => r.rooms.direct
    case ByGroup => r.rooms.groupDirect
  }

  // An earlier rule blocks whatever its include matches, claimed or declined.
  predicate Blocks(l: Logic, earlier: WatcherRule, r: WatcherRule, reach: Reach) {
    && earlier.connector == r.connector
    && match reach
       case ByName => earlier.rooms.includes != [] && l.subsumes(earlier.rooms.includes, r.rooms.includes)
       case ByDirect => earlier.rooms.direct
       case ByGroup => earlier.rooms.groupDirect
  }

  /** The first earlier rule that takes this reach. */
  function Blocker(l: Logic, rules: seq<WatcherRule>, i: nat, reach: Reach, from: nat): (blocker: Option<nat>)
    requires from <= i < |rules|
    ensures blocker.Some? ==> from <= blocker.value < i && Blocks(l, rules[blocker.value], rules[i], reach)
    ensures blocker.Some? ==> forall j :: from <= j < blocker.value ==> !Blocks(l, rules[j], rules[i], reach)
    ensures blocker.None? ==> forall j :: from <= j < i ==> !Blocks(l, rules[j], rules[i], reach)
    decreases i - from
  {
    if from == i then None
    else if Blocks(l, rules[from], rules[i], reach) then Some(from)
    else Blocker(l, rules, i, reach, from + 1)
  }

  datatype Scope = WholeRule | OneReach(reach: Reach)

  // Rules are told apart by position: two may be equal and still be two rules.
  datatype ShadowFinding = ShadowFinding(rule: nat, blocker: nat, scope: Scope)

  function BlockerOf(l: Logic, rules: seq<WatcherRule>, i: nat, reach: Reach): Option<nat>
    requires i < |rules|
  {
    if Has(rules[i], reach) then Blocker(l, rules, i, reach, 0) else None
  }

  /** Every reach the rule has is taken by an earlier rule, and it has one. */
  predicate Dead(l: Logic, rules: seq<WatcherRule>, i: nat)
    requires i < |rules|
  {
    && (exists reach :: reach in REACHES && Has(rules[i], reach))
    && (forall reach :: reach in REACHES && Has(rules[i], reach) ==> BlockerOf(l, rules, i, reach).Some?)
  }

  /** One earlier rule takes every reach of this one. */
  predicate DeadByOne(l: Logic, rules: seq<WatcherRule>, i: nat, blocker: nat)
    requires i < |rules|
  {
    && (exists reach :: reach in REACHES && Has(rules[i], reach))
    && (forall reach :: reach in REACHES && Has(rules[i], reach) ==> BlockerOf(l, rules, i, reach) == Some(blocker))
  }

  /** What is said about one rule: one finding when a single rule takes everything, else one for
      each reach that is taken. */
  ghost predicate Expected(l: Logic, rules: seq<WatcherRule>, f: ShadowFinding) {
    && f.rule < |rules|
    && match f.scope
       case WholeRule => DeadByOne(l, rules, f.rule, f.blocker)
       case OneReach(reach) =>
         BlockerOf(l, rules, f.rule, reach) == Some(f.blocker) && !exists m :: DeadByOne(l, rules, f.rule, m)
  }

  method FirstBlocker(l: Logic, rules: seq<WatcherRule>, i: nat, reach: Reach) returns (blocker: Option<nat>)
    requires i < |rules|
    ensures blocker == BlockerOf(l, rules, i, reach)
  {
    if !Has(rules[i], reach) { return None; }
    var j := 0;
    while j < i
      invariant j <= i
      invariant Blocker(l, rules, i, reach, 0) == Blocker(l, rules, i, reach, j)
    {
      if Blocks(l, rules[j], rules[i], reach) { return Some(j); }
      j := j + 1;
    }
    blocker := None;
  }

  function Place(reach: Reach): nat {
    match reach
    case ByName => 0
    case ByDirect => 1
    case ByGroup => 2
  }

  /** Findings come rule by rule, and for one rule names first, then direct and group messages. */
  predicate Before(f: ShadowFinding, g: ShadowFinding) {
    f.rule < g.rule
    || (f.rule == g.rule && f.scope.OneReach? && g.scope.OneReach? && Place(f.scope.reach) < Place(g.scope.reach))
  }

  method FindingsFor(l: Logic, rules: seq<WatcherRule>, i: nat) returns (out: seq<ShadowFinding>)
    requires i < |rules|
    ensures forall f :: f in out <==> f.rule == i && Expected(l, rules, f)
    ensures forall a, b :: 0 <= a < b < |out| ==> Before(out[a], out[b])
  {
    out := [];
    var all: Option<nat> := None;
    var whole, reaches := true, 0;
    for k := 0 to 3
      invariant reaches == 0 <==> forall m :: 0 <= m < k ==> !Has(rules[i], REACHES[m])
      invariant reaches > 0 ==>
        exists m :: 0 <= m < k && Has(rules[i], REACHES[m]) && BlockerOf(l, rules, i, REACHES[m]) == all
      invariant whole <==> forall m :: 0 <= m < k && Has(rules[i], REACHES[m]) ==>
        all.Some? && BlockerOf(l, rules, i, REACHES[m]) == all
      invariant forall f :: f in out <==>
        (exists m :: 0 <= m < k && f == Finding(l, rules, i, REACHES[m]) && BlockerOf(l, rules, i, REACHES[m]).Some?)
      invariant forall a :: 0 <= a < |out| ==>
        out[a].rule == i && out[a].scope.OneReach? && Place(out[a].scope.reach) < k
      invariant forall a, b :: 0 <= a < b < |out| ==> Before(out[a], out[b])
    {
      var reach := REACHES[k];
      if Has(rules[i], reach) {
        var blocker := FirstBlocker(l, rules, i, reach);
        if reaches == 0 { all := blocker; }
        if blocker != all || blocker.None? { whole := false; }
        if blocker.Some? { out := out + [ShadowFinding(i, blocker.value, OneReach(reach))]; }
        reaches := reaches + 1;
      }
    }
    ReachesListed();
    if whole && reaches > 0 {
      out := [ShadowFinding(i, all.value, WholeRule)];
      assert DeadByOne(l, rules, i, all.value);
      OnlyOne(l, rules, i, all.value);
    } else {
      forall blocker ensures !DeadByOne(l, rules, i, blocker) { }
      forall f ensures f in out <==> f.rule == i && Expected(l, rules, f) {
        if f.scope.OneReach? { assert REACHES[Place(f.scope.reach)] == f.scope.reach; }
      }
    }
  }

  lemma ReachesListed()
    ensures forall reach: Reach :: Place(reach) < 3 && REACHES[Place(reach)] == reach
    ensures forall reach: Reach :: reach in REACHES
  {
    forall reach: Reach ensures REACHES[Place(reach)] == reach && reach in REACHES {
      match reach
      case ByName => assert REACHES[0] == reach;
      case ByDirect => assert REACHES[1] == reach;
      case ByGroup => assert REACHES[2] == reach;
    }
  }

  lemma OnlyOne(l: Logic, rules: seq<WatcherRule>, i: nat, blocker: nat)
    requires i < |rules| && DeadByOne(l, rules, i, blocker)
    ensures forall other :: DeadByOne(l, rules, i, other) ==> other == blocker
  {
  }

  function Finding(l: Logic, rules: seq<WatcherRule>, i: nat, reach: Reach): ShadowFinding
    requires i < |rules|
  {
    ShadowFinding(i, if BlockerOf(l, rules, i, reach).Some? then BlockerOf(l, rules, i, reach).value else 0,
      OneReach(reach))
  }

  // ---- What is reported, said by routing ----

  const DIRECT := Room("", DirectMessage)
  const GROUP := Room("", GroupMessage)

  /** The rule by itself would reach rooms this way. */
  predicate Wants(l: Logic, r: WatcherRule, reach: Reach) {
    match reach
    case ByName => r.rooms.includes != []
    case ByDirect => Route(l, [r], r.connector, DIRECT) == ClaimedBy(r)
    case ByGroup => Route(l, [r], r.connector, GROUP) == ClaimedBy(r)
  }

  /** With only the first `n` rules, is this reach of rule `i` taken already? A direct or a group
      message then has an answer; for names, one include covers the rule's. */
  ghost predicate Taken(l: Logic, rules: seq<WatcherRule>, n: nat, i: nat, reach: Reach)
    requires n <= |rules| && i < |rules|
  {
    match reach
    case ByName => exists j :: 0 <= j < n && Covers(l, rules[j], rules[i])
    case ByDirect => Route(l, rules[..n], rules[i].connector, DIRECT) != Unclaimed
    case ByGroup => Route(l, rules[..n], rules[i].connector, GROUP) != Unclaimed
  }

  predicate Covers(l: Logic, earlier: WatcherRule, r: WatcherRule) {
    && earlier.connector == r.connector
    && earlier.rooms.includes != [] && l.subsumes(earlier.rooms.includes, r.rooms.includes)
  }

  /** Rule `j`, before rule `i`, is the one that takes it. */
  ghost predicate FirstTaker(l: Logic, rules: seq<WatcherRule>, i: nat, reach: Reach, j: nat)
    requires i < |rules|
  {
    j < i && !Taken(l, rules, j, i, reach) && Taken(l, rules, j + 1, i, reach)
  }

  /** Rule `j` is the first to take each reach rule `i` has. */
  ghost predicate TakesAll(l: Logic, rules: seq<WatcherRule>, i: nat, j: nat)
    requires i < |rules|
  {
    && (exists reach: Reach :: Wants(l, rules[i], reach))
    && (forall reach: Reach :: Wants(l, rules[i], reach) ==> FirstTaker(l, rules, i, reach, j))
  }

  /** A finding is due: one for the whole rule if a single rule takes all of it, else one for each
      reach an earlier rule takes. */
  ghost predicate Due(l: Logic, rules: seq<WatcherRule>, f: ShadowFinding) {
    && f.rule < |rules|
    && match f.scope
       case WholeRule => TakesAll(l, rules, f.rule, f.blocker)
       case OneReach(reach) =>
         && Wants(l, rules[f.rule], reach) && FirstTaker(l, rules, f.rule, reach, f.blocker)
         && !exists j :: TakesAll(l, rules, f.rule, j)
  }

  lemma RouteOfPrefix(l: Logic, rules: seq<WatcherRule>, n: nat, connector: string, room: Room)
    requires n <= |rules| && room.kind != Channel
    ensures Route(l, rules[..n], connector, room) != Unclaimed <==>
      exists j :: 0 <= j < n && Stops(l, rules[j], connector, room)
  {
    var i := FirstStop(l, rules[..n], connector, room);
    FirstStopDecides(l, rules[..n], connector, room, i);
    assert i < n ==> rules[..n][i] == rules[i];
    assert forall j :: 0 <= j < i ==> rules[..n][j] == rules[j];
  }

  lemma WantsIsHas(l: Logic, r: WatcherRule, reach: Reach)
    ensures Wants(l, r, reach) <==> Has(r, reach)
  {
    if reach != ByName {
      var room := if reach == ByDirect then DIRECT else GROUP;
      FirstStopDecides(l, [r], r.connector, room, if Stops(l, r, r.connector, room) then 0 else 1);
    }
  }

  lemma TakenIsBlocked(l: Logic, rules: seq<WatcherRule>, n: nat, i: nat, reach: Reach)
    requires n <= |rules| && i < |rules|
    ensures Taken(l, rules, n, i, reach) <==> exists j :: 0 <= j < n && Blocks(l, rules[j], rules[i], reach)
  {
    match reach
    case ByName =>
      assert forall j :: 0 <= j < n ==> (Covers(l, rules[j], rules[i]) <==> Blocks(l, rules[j], rules[i], reach));
    case ByDirect =>
      RouteOfPrefix(l, rules, n, rules[i].connector, DIRECT);
      assert forall j :: 0 <= j < n ==>
        (Stops(l, rules[j], rules[i].connector, DIRECT) <==> Blocks(l, rules[j], rules[i], reach));
    case ByGroup =>
      RouteOfPrefix(l, rules, n, rules[i].connector, GROUP);
      assert forall j :: 0 <= j < n ==>
        (Stops(l, rules[j], rules[i].connector, GROUP) <==> Blocks(l, rules[j], rules[i], reach));
  }

  lemma TakerIsBlocker(l: Logic, rules: seq<WatcherRule>, i: nat, reach: Reach, j: nat)
    requires i < |rules|
    ensures FirstTaker(l, rules, i, reach, j) <==> Blocker(l, rules, i, reach, 0) == Some(j)
  {
    if j < i {
      TakenIsBlocked(l, rules, j, i, reach);
      TakenIsBlocked(l, rules, j + 1, i, reach);
    }
  }

  /** What the loops look for is what routing says is due. */
  lemma ExpectedIsDue(l: Logic, rules: seq<WatcherRule>, f: ShadowFinding)
    ensures Expected(l, rules, f) <==> Due(l, rules, f)
  {
    if f.rule < |rules| {
      ReachesListed();
      forall reach: Reach, j: nat
        ensures Wants(l, rules[f.rule], reach) <==> Has(rules[f.rule], reach)
        ensures FirstTaker(l, rules, f.rule, reach, j) <==> Blocker(l, rules, f.rule, reach, 0) == Some(j)
      {
        WantsIsHas(l, rules[f.rule], reach);
        TakerIsBlocker(l, rules, f.rule, reach, j);
      }
      forall j: nat ensures TakesAll(l, rules, f.rule, j) <==> DeadByOne(l, rules, f.rule, j) {
        TakesAllIsDead(l, rules, f.rule, j);
      }
    }
  }

  lemma TakesAllIsDead(l: Logic, rules: seq<WatcherRule>, i: nat, j: nat)
    requires i < |rules|
    ensures TakesAll(l, rules, i, j) <==> DeadByOne(l, rules, i, j)
  {
    ReachesListed();
    forall reach: Reach
      ensures Wants(l, rules[i], reach) <==> Has(rules[i], reach)
      ensures FirstTaker(l, rules, i, reach, j) <==> Blocker(l, rules, i, reach, 0) == Some(j)
    {
      WantsIsHas(l, rules[i], reach);
      TakerIsBlocker(l, rules, i, reach, j);
    }
  }

  /** The analysis leaves nothing out: a reach a rule has is reported exactly when the rules before it
      leave no room for it, a direct message among them answered or a covering include there. */
  lemma ReportedWhenTaken(l: Logic, rules: seq<WatcherRule>, i: nat, reach: Reach, findings: set<ShadowFinding>)
    requires i < |rules| && Wants(l, rules[i], reach)
    requires forall f :: f in findings <==> Due(l, rules, f)
    ensures Reported(findings, i, reach) <==> Taken(l, rules, i, i, reach)
  {
    if Taken(l, rules, i, i, reach) {
      var j := TakerOf(l, rules, i, reach);
      if whole :| TakesAll(l, rules, i, whole) {
        assert ShadowFinding(i, whole, WholeRule) in findings;
      } else {
        assert ShadowFinding(i, j, OneReach(reach)) in findings;
      }
    } else if f :| f in findings && f.rule == i && (f.scope == WholeRule || f.scope == OneReach(reach)) {
      assert FirstTaker(l, rules, i, reach, f.blocker);
      TakenIsBlocked(l, rules, f.blocker + 1, i, reach);
      TakenIsBlocked(l, rules, i, i, reach);
    }
  }

  lemma TakerOf(l: Logic, rules: seq<WatcherRule>, i: nat, reach: Reach) returns (j: nat)
    requires i < |rules| && Taken(l, rules, i, i, reach)
    ensures FirstTaker(l, rules, i, reach, j)
  {
    TakenIsBlocked(l, rules, i, i, reach);
    j := Blocker(l, rules, i, reach, 0).value;
    TakerIsBlocker(l, rules, i, reach, j);
  }

  method FindShadowedRules(l: Logic, rules: seq<WatcherRule>) returns (out: seq<ShadowFinding>)
    ensures forall f :: f in out <==> Expected(l, rules, f)
    ensures forall f :: f in out <==> Due(l, rules, f)
    ensures forall a, b :: 0 <= a < b < |out| ==> Before(out[a], out[b])
  {
    out := [];
    for i := 0 to |rules|
      invariant forall f :: f in out <==> f.rule < i && Expected(l, rules, f)
      invariant forall a, b :: 0 <= a < b < |out| ==> Before(out[a], out[b])
    {
      var findings := FindingsFor(l, rules, i);
      out := out + findings;
    }
    forall f ensures f in out <==> Due(l, rules, f) { ExpectedIsDue(l, rules, f); }
  }

  // ---- What the findings are worth ----

  /** Is this reach of this rule among what was reported? */
  ghost predicate Reported(findings: set<ShadowFinding>, i: nat, reach: Reach) {
    exists f :: f in findings && f.rule == i && (f.scope == WholeRule || f.scope == OneReach(reach))
  }

  /** A rule's reaches are all reported exactly when it is dead. */
  lemma DeadIsReported(l: Logic, rules: seq<WatcherRule>, i: nat, findings: set<ShadowFinding>)
    requires i < |rules| && forall f :: f in findings <==> Expected(l, rules, f)
    ensures Dead(l, rules, i) <==>
      && (exists reach :: reach in REACHES && Has(rules[i], reach))
      && (forall reach :: reach in REACHES && Has(rules[i], reach) ==> Reported(findings, i, reach))
  {
    forall reach | reach in REACHES && Has(rules[i], reach)
      ensures Reported(findings, i, reach) <==> BlockerOf(l, rules, i, reach).Some?
    {
      if BlockerOf(l, rules, i, reach).Some? {
        if blocker :| DeadByOne(l, rules, i, blocker) {
          assert ShadowFinding(i, blocker, WholeRule) in findings;
        } else {
          assert ShadowFinding(i, BlockerOf(l, rules, i, reach).value, OneReach(reach)) in findings;
        }
      }
    }
  }

  function ReachFor(room: Room): Reach {
    match room.kind
    case Channel => ByName
    case DirectMessage => ByDirect
    case GroupMessage => ByGroup
  }

  /** A rule that stops a room through a blocked reach is never the first to stop it. */
  lemma BlockedNeverFirst(l: Logic, rules: seq<WatcherRule>, connector: string, room: Room, i: nat)
    requires l.Sound() && i < |rules|
    requires BlockerOf(l, rules, i, ReachFor(room)).Some?
    requires Stops(l, rules[i], connector, room)
    ensures exists j :: 0 <= j < i && Stops(l, rules[j], connector, room)
  {
    var j := BlockerOf(l, rules, i, ReachFor(room)).value;
    assert Stops(l, rules[j], connector, room);
  }

  lemma StopsHasReach(l: Logic, r: WatcherRule, connector: string, room: Room)
    requires Stops(l, r, connector, room)
    ensures Has(r, ReachFor(room)) && ReachFor(room) in REACHES
  {
    assert REACHES[0] == ByName && REACHES[1] == ByDirect && REACHES[2] == ByGroup;
  }

  /** Every finding is true: the room a reported reach would take is stopped before. */
  lemma FindingsAreTrue(l: Logic, rules: seq<WatcherRule>, f: ShadowFinding, connector: string, room: Room)
    requires l.Sound() && Expected(l, rules, f)
    requires f.scope == WholeRule || f.scope == OneReach(ReachFor(room))
    requires Stops(l, rules[f.rule], connector, room)
    ensures f.blocker < f.rule && Stops(l, rules[f.blocker], connector, room)
  {
    StopsHasReach(l, rules[f.rule], connector, room);
    assert BlockerOf(l, rules, f.rule, ReachFor(room)) == Some(f.blocker);
  }

  /** The rules from `from` on, without the dead ones. */
  function Live(l: Logic, rules: seq<WatcherRule>, from: nat): seq<WatcherRule>
    requires from <= |rules|
    decreases |rules| - from
  {
    if from == |rules| then []
    else (if Dead(l, rules, from) then [] else [rules[from]]) + Live(l, rules, from + 1)
  }

  lemma {:induction false} LiveRoutesAlike(l: Logic, rules: seq<WatcherRule>, connector: string, room: Room, from: nat)
    requires l.Sound() && from <= |rules|
    requires forall j :: 0 <= j < from ==> !Stops(l, rules[j], connector, room)
    ensures RouteFrom(l, Live(l, rules, from), connector, room) == RouteFrom(l, rules[from..], connector, room)
    decreases |rules| - from
  {
    if from < |rules| {
      var live := Live(l, rules, from);
      assert rules[from..][0] == rules[from] && rules[from..][1..] == rules[from + 1..];
      if Stops(l, rules[from], connector, room) {
        StopsHasReach(l, rules[from], connector, room);
        if Dead(l, rules, from) { BlockedNeverFirst(l, rules, connector, room, from); }
        assert live == [rules[from]] + Live(l, rules, from + 1);
      } else {
        LiveRoutesAlike(l, rules, connector, room, from + 1);
        if Dead(l, rules, from) {
          assert live == Live(l, rules, from + 1);
        } else {
          assert live[0] == rules[from] && live[1..] == Live(l, rules, from + 1);
        }
      }
    }
  }

  /** Dead-rule elimination preserves meaning: deleting at once every rule whose reaches are all
      reported changes who answers no channel, no direct and no group message. */
  lemma DeadRulesDoNotMatter(l: Logic, rules: seq<WatcherRule>, connector: string, room: Room)
    requires l.Sound()
    ensures Route(l, Live(l, rules, 0), connector, room) == Route(l, rules, connector, room)
  {
    LiveRoutesAlike(l, rules, connector, room, 0);
    assert rules[0..] == rules;
  }
}
