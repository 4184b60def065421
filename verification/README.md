# AgentCoop gateway: a verified model

AgentCoop's gateway runs a fleet: chat connectors, each with a session manager, and agent backends,
each with its permission broker. A file describes it; `config reload` changes it while it runs;
command-line tools edit the file, show it with its secrets masked, and schedule jobs. This project
models the parts of that where a mistake is easy and costly, and proves what they promise.

* **Reload** (`Runtime`, `ReloadSpec`, `ReloadPlanning`, `Reload`). Classes with the service's own
  fields. Every call that leaves the process may fail, and an apply may raise at any await.
  `World.live` is a ghost set of everything that started and has not stopped cleanly, `World.asked`
  counts what was told to stop, `World.errands` logs what the connectors were put through, and
  `World.setbacks` counts calls that raised or fell short; each step says what happens to them.
* **Sequences of reloads and recoveries** (`ReloadRuns`, `ReloadServing`, `ReloadLimits`,
  `ReloadDaemon`). What holds along every run that retries a failed candidate: that the fleet serves,
  that no available agent is without its broker, that a reload exits 0 exactly when nothing went wrong
  and then has left its file in place. And exactly where the promises end, and that the service as
  started goes through such runs.
* **Recovery** (`Recovery`). Any number of recovery calls, interleaved at every await, as a
  transition system.
* **The raw document** (`Patch`, `Effects`, `Fragments`, `Credentials`, `Redaction`, `Cycles`). Merge
  patch (section 2 of RFC 7386), edits by path, named lists, credential files, masking, recursive
  aliases.
* **Templates** (`Inherit`). What the merge does, and whether the explanation of it is true.
* **Rules and loaders** (`Rules`, `Loaders`). First-match routing against the shadowing warning; the
  fail-fast loader against the one that reports everything.
* **Diff and digest** (`Configs`, `Digest`). The injective tagged form and its agreement with the diff.
* **Time and the startup pipe** (`Calendar`, `Pipe`). Gregorian arithmetic behind schedules; a
  printer and parser pair.

A method states its new state outright or ties it to a specification function or predicate; the
promises are lemmas about those. Several properties hold only under a condition. Each
is then proved as an equivalence with that condition, or with an input that shows the failure:

* Conservation of processes needs a candidate whose apply failed to be retried until it completes.
  After a failed apply that added an agent, an apply of something else clears the suspicion and leaves
  the agent's backend running; the next apply that adds it replaces a running backend that nothing
  stopped (`LostAgent`, `CompletedConservesIff`).
* A completed apply leaves the candidate's fleet exactly when everything it kept was the candidate's
  already (`CompletedSyncsIff`). Retrying the failed candidate always meets that. Putting the active
  file back need not: a connector that had started with the other file's definition is kept, and the
  reload reports nothing (`StaleConnector`); an agent that was already dropped is not missed, and the
  plan is empty (`DroppedAgent`); nor is a connector that was dropped, and with it gone the file's
  fleet cannot be assembled by any plan (`DroppedConnector`, `PutBackCovered`). `PutBackSyncsIff`
  gives the condition on the state that the failure left.
* Recoveries never give an agent a second running broker exactly when none has two to begin with and no
  agent waiting to be recovered still has a running broker that an earlier reload could not stop: the
  lock does not help against that one (`NeverDoubles`, `LeftoverRace`). A reload starts a new broker
  beside one it could not stop by design.
* What an edit reports depends on what its credential files hold exactly when an agent, a template or a
  preset of the fragment is itself read from a file: its name is taken for a credential key when the file
  is read, and for a plain name when the report is masked (`ReportShowsNoFile`, `TokenBotShown`).
* `--unset a.b` where `a` is a plain value replaces that value by an empty mapping (`UnsetRemoves`).
* Edits addressed to an entry do what they say exactly when they leave no `op` in the fragment, or
  only unset an `op` the entry does not have: that key is the fragment's own word (`EntryEdits`,
  `OpPathRemoves`).
* A path nests into a fragment as if merged after it exactly when the fragment holds nothing in its way
  that it does not override: a plain value above the path, or a mapping at it with keys the new value
  does not set (`NestMergesIff`, `EditsComposeIff`, `MappingsDoNotCompose`). A whole list may compose
  all the same, when a later edit covers that up; `ListComposesIff` decides it (`LaterEditHeals`).
* Asked where a field of an entry came from, the explanation is true unless the field is `inherits`
  itself and the entry has one (`ProvenanceIsTrue`, `InheritsIsConsumed`).
* A connector that fails to load after its name was registered makes a later one of that name a
  duplicate of something that does not exist; rules register theirs once built (`FailedConnectorTrace`).
* An unknown top-level key is not reported when `connectors:` or `connector_templates:` is malformed
  (`LoadersAgree`).
* A message with a line break other than LF or CR can make a fatal startup read as `ok` (`OkMeans`).

## Model

| member | source | states |
|---|---|---|
| `Runtime.World.StopWithRetries` | gateway/core/retry_stop.py:23-49 | a stop is tried until it succeeds, all three attempts are spent before it counts as failed, a process leaves the running set exactly on success, and only a failure is a setback |
| `Runtime.AgentRuntimeManager.StopSome` | gateway/service.py:267-295 | every broker of the named agents is unregistered; each of their processes is told to stop and is then down or kept as a leftover; nothing else stops; only failures are reported |
| `Runtime.AgentRuntimeManager.StartSome` | gateway/service.py:163-251 | only named, installed agents start; each that did not fail is up, backend and registered broker both running, and no broker stands for another; a backend this brought up for an agent it leaves unavailable was told to stop; the unavailable set changes for exactly these names; none failed exactly if nothing raised |
| `Runtime.AgentRuntimeManager.RetryLeftovers` | gateway/service.py:302-309 | every leftover is told to stop again; only what stopped leaves the list; nothing else stops |
| `Runtime.AgentRuntimeManager.Replace` | gateway/service.py:311-322 | one agent is installed or dropped, a dropped one is no longer unavailable, all else is untouched |
| `Runtime.StopsCompose` | gateway/service.py:278-295 | stopping brokers and then backends amounts to one stop of the agents |
| `Runtime.StartsCompose` | gateway/service.py:176-251 | backends, then brokers, then stopping the backends of failed brokers amounts to one start of the agents, after which no agent that did not fail lacks its broker |
| `Runtime.NoneRunsOn` | gateway/service.py:240-250 | over the three phases, no backend brought up for a failed agent runs on without having been told to stop |
| `Runtime.AgentRuntimeManager.StartBrokers` | gateway/service.py:193-231 | every backend that came up gets a broker of its own, registered once it runs, or its agent failed |
| `Reload.GatewayService.constructor` | gateway/service.py:365-523 | a new service is built from its configuration: one healthy entry per connector in order with its rules, one backend per agent, the index in step; no broker, nothing unavailable, suspect or left over; every object is new and no two are one |
| `Reload.GatewayService.Boot` | gateway/service.py:782-880 | agents, then the settle, connect, identity and sync phases: it succeeds with every agent available exactly if nothing raised; when it succeeds nothing is lost, every connector runs, takes work and passed all of settling, identity check and sync, and every agent is up with its broker or unavailable; when any phase fails, whatever runs has been told to stop and only connectors and leftovers can be left |
| `Reload.GatewayService.EachClears` | gateway/service.py:843-869 | one phase for every connector: no account is checked before all are settled and connected, no rooms come up before all accounts were checked, and the phase passes exactly if it does for each |
| `Reload.GatewayService.Shutdown` | gateway/service.py:918-972 | every running process is told to stop, no broker stays registered, and whatever still runs is a connector or a leftover |
| `ReloadSpec.EverythingAsked` | gateway/service.py:953-972 | connectors, leftovers, then every agent's processes: that is everything that runs, since nothing running is untracked |
| `Reload.GatewayService.RecoverAgent` | gateway/service.py:1053-1078 | an available agent is not touched; recovering one loses no process; when it fails, no backend it brought up runs on unasked, and it fails exactly if something raised; every connector's gate then holds the unavailable set; the answer is whether the agent is available now |
| `Reload.GatewayService.InstallEntries` | gateway/service.py:518-523 | the fleet list and the index of managers by name change together |
| `ReloadSpec.IndexLook` | gateway/service.py:518-523 | the index holds, under each connector's name, the manager of the entry that name stands for |
| `Reload.GatewayService.Quiesce` | gateway/service.py:1362-1363 | entries change only in whether they refuse work, and unless one raises all of them do |
| `Reload.GatewayService.ShutDownManagers` | gateway/service.py:1410-1421 | each manager named is told to stop and is then down or a leftover, a finding names each new leftover, and nothing but those managers' instances stops |
| `Reload.GatewayService.StopPass` | gateway/service.py:1353-1452 | wherever it raises, the kept entries stay and nothing running is lost; at its end no replaced or removed entry is left, every process of a stopping agent is down or a leftover, each going manager was sent to give up its rooms and, if agents stop, each kept one to stop its rooms on them |
| `ReloadSpec.AgentsDown` | gateway/service.py:1438-1447 | stopping the changed and removed agents keeps every process within reach |
| `ReloadSpec.Uninstalled` | gateway/service.py:1366-1448 | uninstalling the replaced entries keeps every process within reach, since what would not shut down is a leftover |
| `Reload.GatewayService.ReplaceAgents` | gateway/service.py:1455-1458 | the agents afterwards are the rebuilt ones and those neither rebuilt nor removed |
| `ReloadSpec.RebuildSound` | gateway/service.py:1455-1458 | replacing backends loses no process when no stray backend runs under an added name |
| `Reload.GatewayService.AssembleFleet` | gateway/service.py:1463-1469 | one entry per candidate connector in its order, new or kept as it was; it raises exactly when building an entry does or some connector is neither rebuilt nor kept |
| `Reload.GatewayService.Rebuild` | gateway/service.py:1455-1472 | wherever it raises, every process stays within reach; at its end the fleet stands in candidate order with the candidate's rules |
| `Reload.GatewayService.Reconcile` | gateway/service.py:1495-1509 | every kept manager is sent to bring its rooms in line, and the one that raises turns degraded and is reported; no other field changes |
| `Reload.GatewayService.ConnectEntries` | gateway/service.py:1637-1643 | of the entries to start, each ends connected and running with its records settled, or degraded and reported |
| `Reload.GatewayService.CheckIdentities` | gateway/service.py:1644-1659 | the barrier, only for connectors that are settled and connected: those it lets pass were each checked, the others are degraded and reported |
| `Reload.GatewayService.SyncEntries` | gateway/service.py:1660-1668 | rooms come up only on connectors that passed the barrier; a connector that raises is degraded and reported |
| `Reload.GatewayService.StartEntries` | gateway/service.py:1619-1669 | the names returned run; every other entry to start is degraded and reported; none that is not degraded skipped settling, the identity check or sync; after a raise nothing counts as started |
| `ReloadSpec.StartSound` | gateway/service.py:163-251 | a start pass over agents without brokers loses no process and keeps brokers apart from unavailable agents |
| `Reload.GatewayService.StartPass` | gateway/service.py:1475-1524 | at its end the candidate's fleet serves, each rebuilt connector and agent running, the agent with its broker, or reported; kept managers were sent to follow changed rules and to start the rooms that were stopped; before its end, every entry that turned degraded is reported; it ends with nothing new to report exactly if nothing raised or fell short |
| `Reload.GatewayService.StartBuilt` | gateway/service.py:1475-1479 | each rebuilt agent is up with its broker or unavailable, and no backend brought up for an unavailable one runs on unasked |
| `Reload.GatewayService.PlaceCandidates` | gateway/service.py:1592-1602 | every candidate connector gets its entry or a placeholder; it raises only where one must be built anew and the building raises |
| `ReloadSpec.PlacedLook` | gateway/service.py:1592-1603 | names stay unique, every installed entry is kept, every candidate connector has one |
| `Reload.GatewayService.MarkUnsettled` | gateway/service.py:1604-1610 | an entry ends degraded exactly if it was or is not known to have started, every one this degrades is reported, and every placeholder is told to stop |
| `Reload.GatewayService.Rearm` | gateway/service.py:1612-1616 | every manager named takes work again, except those whose re-arm raised, and there are no more of those than calls that raised; none that took work stops taking it |
| `Reload.GatewayService.Resume` | gateway/service.py:1611-1617 | the settled fleet and its index go in, kept managers take work but for those whose re-arm raised, and the scheduler runs |
| `Reload.GatewayService.Settle` | gateway/service.py:1576-1617 | after a raise: unique names, an entry per candidate connector, each entry degraded or started and running, the active configuration unchanged; no manager the apply leaves alone refuses work that took it before, unless its re-arm raised, and its connector is never stopped |
| `ReloadSpec.SettledRefuse` | gateway/service.py:1612-1616 | after settling, a connector that stays refuses work only if it did before the apply or its re-arm raised |
| `ReloadSpec.SettledRuns` | gateway/service.py:1592-1603 | and it is the same object, running if it ran before |
| `Reload.GatewayService.Construct` | gateway/service.py:1330-1341 | new backends and connectors are exactly those the plan rebuilds, built from the candidate and distinct from everything older |
| `Reload.GatewayService.Commit` | gateway/service.py:1526-1530 | a pass that ran to its end leaves the candidate active and no agent suspect |
| `Reload.GatewayService.ApplyReload` | gateway/service.py:1285-1554 | an apply is refused with nothing changed, completes, or fails and is settled; in every case `_reloading` is false and a finding names each process it could not stop; it completes with nothing new to report exactly if there was no setback, unless the fleet cannot be assembled for want of an entry; when it completes, it has sent every manager to do about its rooms what the plan asks of it, and left no new connector undegraded that was not settled, checked and synced |
| `ReloadSpec.StartedReported` | gateway/service.py:1545-1549 | an apply that raised after something started has at least one finding |
| `ReloadSpec.SettleOutcome` | gateway/service.py:1531-1552 | settling raises only when a candidate connector was neither rebuilt nor installed to begin with |
| `Reload.GatewayService.RetryLeftovers` | gateway/service.py:1173-1185 | every leftover connector, backend and broker is told to stop again; only what stopped is dropped |
| `ReloadPlanning.RetrySound` | gateway/service.py:1173-1185 | retrying leftovers loses no process |
| `Reload.GatewayService.RetryDegraded` | gateway/service.py:1216-1235 | the folded diff has exactly the degraded connectors and doubtful agents of the candidate added to what changed |
| `ReloadPlanning.PlannedFits` | gateway/service.py:1216-1283 | a plan rebuilds only what the candidate has, removes only what it lacks, and rebuilds every degraded entry the candidate names |
| `Reload.GatewayService.MakePlan` | gateway/service.py:1133-1153 | the plan is the diff against the active configuration, folded, with what neither names removed; leftovers are on it from the start; there is one exactly if nothing raised |
| `Reload.GatewayService.ReloadTo` | gateway/service.py:1125-1157 | a request that is no preview and is not refused applies its plan exactly when the plan changes something; when it does not, the plan of the state it leaves is empty |
| `Reload.GatewayService.ReloadConfig` | gateway/service.py:1090-1157 | refusals and dry runs change nothing; any other request applies the candidate's plan exactly when it is not empty; applied means completed; it exits 0 exactly if there was no setback, unless the fleet cannot be assembled; unless the reload was refused every process that would not stop is on the report; 2 exactly with something to report, 1 exactly when it is not ok with nothing to report |
| `ReloadRuns.EventHolds` | gateway/service.py:1285-1617 | one reload or recovery keeps what the run stands on: synced, or between two configurations |
| `ReloadRuns.PatientRunsConverge` | gateway/service.py:1285-1617 | from a synced fleet, after any number of part-way failures of a candidate and one apply that completes, the fleet is synced with it; so is every sequence of completed applies |
| `ReloadRuns.PatientRunsConserve` | gateway/service.py:1366-1473 | along any such run, whatever started and has not stopped cleanly can still be reached for a later stop |
| `ReloadRuns.CompletedSyncsIff` | gateway/service.py:1463-1472 | a completed apply, from any state and of any plan, leaves the candidate's fleet exactly when every connector and agent it kept had the candidate's definition and no other agent stayed |
| `ReloadRuns.CompletedSyncs` | gateway/service.py:1322-1530 | one completed apply from a synced or half-applied fleet leaves it synced |
| `ReloadRuns.FailedStaysBetween` | gateway/service.py:1531-1617 | a failed apply leaves every definition from one of the two configurations, and suspects the agents only the candidate names |
| `ReloadRuns.NothingToDo` | gateway/service.py:1153-1154 | a reload that finds no change finds the candidate's connectors and agents in place, healthy and unsuspected |
| `ReloadRuns.CompletedIdentity` | gateway/service.py:1356-1357 | an entry object is kept exactly when its definition is unchanged and it is healthy; otherwise the object is new |
| `ReloadServing.EventBelow` | gateway/service.py:1331-1339 | identities of what is installed or given up on stay below the counter along a run, so a new object is never an old one |
| `ReloadServing.KeptAgentServes` | gateway/service.py:1398-1447 | an agent an apply neither rebuilds nor removes runs on, its broker beside it, and is not given up on |
| `ReloadServing.CleanExitServes` | gateway/reload_plan.py:103-112 | exit 0 from a completed apply of a fleet that served: every connector of the candidate runs, and every agent with its broker |
| `ReloadServing.CleanLands` | gateway/reload_plan.py:103-112 | along a patient run, a reload that exits 0 has left its file in place, whether it applied it or found nothing to do: exactly the file's connectors and agents, with its definitions, healthy, running and taking work, no agent suspect, unavailable or without its broker; and the file's rules, if it applied it or nothing had failed before |
| `ReloadServing.FailedKeepsServing` | gateway/service.py:1576-1617 | an apply that fails in a fleet that served leaves every connector it was to keep the same object, running, and taking work unless its re-arm raised |
| `ReloadServing.EventServes` | gateway/service.py:1285-1617 | one reload or recovery of a patient run keeps the fleet serving |
| `ReloadServing.PatientRunsServe` | gateway/service.py:1285-1617 | along any patient run every connector not marked degraded runs and takes work, and once an apply has completed every agent of the candidate is up with its broker or unavailable |
| `ReloadDaemon.StartService` | gateway/service.py:782-880 | a service built and booted from a configuration stands where every theorem about runs begins: synced, nothing lost, identities fresh, the fleet serving; it starts with every agent available exactly if nothing raised; a failed start has told whatever runs to stop |
| `ReloadDaemon.Answer` | gateway/service.py:1059-1157 | a reload request or a recovery is one event of a run, whatever it does; a reload that is to take effect exits 0 only if nothing went wrong and it went through or had nothing to do, and, the fleet being complete, whenever nothing went wrong; every other reload request leaves the service as it was; the exit is 2 exactly with something to report |
| `ReloadDaemon.AnswerAll` | gateway/service.py:1059-1157 | whatever is requested, the service goes through a run; if each failed candidate was retried until it completed, it is synced or between two configurations, has lost no process and serves, every reload that exited 0 had left its file in place, and all of them did if nothing went wrong |
| `ReloadDaemon.AnswerLands` | gateway/service.py:1153-1157 | one such request, answered from where a patient run stands: exit 0, or no setback, means both exit 0 and its file in place |
| `ReloadDaemon.AttemptIsCovered` | gateway/service.py:1463-1469 | along a patient run the fleet can always be assembled, so no reload fails for want of an entry |
| `ReloadDaemon.FailuresKeepServing` | gateway/service.py:1612-1616 | at no failed apply of a patient run does a connector it was to keep stop running, or stop taking work unless its re-arm raised |
| `ReloadDaemon.StandsAtEnd` | gateway/service.py:1285-1617 | what a run begins with holds at the end of every patient run |
| `ReloadDaemon.RecoveriesMayBegin` | gateway/service.py:1059-1078 | between two requests of such a run everything concurrent recoveries rely on holds, and once an apply has completed every available agent is up with its broker |
| `ReloadRuns.FailedExit` | gateway/reload_plan.py:103-112 | a failed apply exits 2 unless it rebuilt no agent, started nothing and found every entry degraded already |
| `ReloadRuns.CleanExit` | gateway/reload_plan.py:103-112 | exit 0 from a completed apply: nothing degraded, nothing unavailable, everything rebuilt running |
| `ReloadLimits.CompletedOnlyIfCovered` | gateway/service.py:1465-1469 | an apply completes only if each connector was rebuilt or had an entry to keep |
| `ReloadLimits.PutBackPlan` | gateway/service.py:1216-1235 | putting the active file back rebuilds exactly its degraded connectors and its unavailable or suspect agents, and removes no agent |
| `ReloadLimits.PutBackCovered` | gateway/service.py:1463-1469 | the active file's fleet can be assembled, whatever the plan, exactly when none of its connectors has lost its entry |
| `ReloadLimits.PutBackSyncsIff` | gateway/service.py:1582-1591 | putting the active file back, when it completes, restores its fleet exactly when each part of it was there with the file's definition or due to be rebuilt, and no other agent was installed |
| `ReloadLimits.DroppedConnector` | gateway/service.py:1448-1469 | a failed apply that dropped a connector of the active file: putting the file back finds nothing to do, and no plan of it can assemble the fleet |
| `ReloadLimits.DroppedAgent` | gateway/service.py:1455-1458 | a failed apply that dropped an agent of the active file: putting the file back finds nothing to do |
| `ReloadLimits.StaleConnector` | gateway/service.py:1604-1610 | a failed apply after one connector started: putting the file back completes with nothing to report, and that connector keeps the other file's definition |
| `ReloadLimits.CompletedConservesIff` | gateway/service.py:1325-1327 | a completed apply keeps track of every process exactly when no stray backend of an added agent was running untracked and no running broker of a stray gave way to a new one |
| `ReloadLimits.LostAgent` | gateway/service.py:1455-1458 | a three-reload run that loses a running backend |
| `ReloadLimits.RetriedAgent` | gateway/service.py:1233-1235 | the same failed apply retried: the suspect agent is stopped first and the run ends on the candidate |
| `Recovery.RecoveryIsSafe` | gateway/service.py:1059-1078 | for any interleaving of any number of recoveries, whatever earlier reloads left running: brokers belong to installed, available agents, leftovers aside no agent has two brokers running, everything running is tracked, a yes stays true |
| `Recovery.SchedulesAreLater` | gateway/service.py:176-251 | recoveries only take agents off the unavailable set, and start brokers only for agents that were on it |
| `Recovery.NeverDoubles` | gateway/service.py:1059-1078 | no interleaving ever gives an agent two brokers exactly when none has two to begin with and no unavailable agent has a leftover broker running |
| `Recovery.LeftoverRace` | gateway/service.py:278-284 | an agent whose old broker would not stop and whose new backend did not start: the next verb gives it a second broker, under the lock |
| `Recovery.StepKeepsLock` | gateway/service.py:1074 | only the holder of the lock is past it |
| `Recovery.StepKeepsBrokers` | gateway/service.py:222-231 | every running broker is a leftover, registered, or about to be registered by the holder |
| `Recovery.AvailableIsUp` | gateway/service.py:163-251 | if every available agent is up to begin with, backend and registered broker both running, so it is at every moment of every interleaving |
| `Recovery.YesMeansUp` | gateway/service.py:1074-1078 | so a call that answered yes speaks the truth, then and ever after |
| `Recovery.AnswerIsCurrent` | gateway/service.py:1078 | a call answers whether its agent is available at that moment, with or without the lock |
| `Recovery.FailedCallStopped` | gateway/service.py:240-250 | a call that got its agent's backend up and answers no has told it to stop, with or without the lock |
| `Recovery.WithoutLock` | gateway/service.py:382-387 | without the lock, two recoveries of one agent leave two brokers running, one of them unregistered, though nothing was left over |
| `Redaction.RedactsAlike` | gateway/config_diff.py:288-300 | two values redact alike exactly when they differ only beneath secret keys |
| `Redaction.RedactsOnce` | gateway/config_diff.py:288-300 | redaction is idempotent |
| `Redaction.SecretKeyMeans` | gateway/config_diff.py:274-285 | a key is secret exactly when some part of it, in lower case, is password, token or secret |
| `Redaction.CaseDoesNotCount` | gateway/config_diff.py:284 | two spellings that differ in case only are both secret or both not |
| `Redaction.MaskLeavesSentinel` | gateway/config_diff.py:288-300 | a view holds the sentinel exactly when something was masked or the value already held it |
| `Redaction.RedactRawDocument` | gateway/config_diff.py:334-349 | every block is redacted once, names of agents and templates exempt: each value is shown as what its own key and block say |
| `Redaction.DocumentsAlike` | gateway/config_diff.py:334-349 | two files are shown alike exactly when they differ only beneath secret keys |
| `Redaction.DocumentRedactsOnce` | gateway/config_diff.py:334-349 | showing a shown file changes nothing |
| `Redaction.DocumentLeavesSentinel` | gateway/config_diff.py:334-349 | a shown file holds the sentinel exactly when something was masked or it already did |
| `Patch.MergePatch` | gateway/config_edit.py:199-209 | the loop computes the merge of section 2 of RFC 7386 |
| `Patch.MergeTwice` | gateway/config_edit.py:199-209 | applying a patch twice is applying it once |
| `Patch.MergeIntoNothing` | gateway/config_edit.py:199-209 | a value merged into nothing or itself is unchanged exactly when it deletes nothing |
| `Patch.MergeStaysClean` | gateway/config_edit.py:199-209 | a merge brings in no sentinel |
| `Patch.FragmentFromPaths` | gateway/config_edit.py:328-350 | the fragment nests every set and unset in order |
| `Patch.CoveredIsMoot` | gateway/config_edit.py:199-209 | a value that overrides another, at every level, makes merging the other first a no-op |
| `Patch.UncoveredShows` | gateway/config_edit.py:199-209 | one that does not, shows it on some document |
| `Patch.NestMergesIff` | gateway/config_edit.py:376-390 | nesting a path into a fragment is merging that path after it, on every document, exactly when the fragment holds nothing in its way that it does not override |
| `Patch.EditsCompose` | gateway/config_edit.py:328-350 | when each edit overrides what the fragment so far holds in its way, the one fragment does what its edits do in turn, deletions and mappings included |
| `Patch.EditsComposeIff` | gateway/config_edit.py:328-350 | it does so for every front part of the list and every document exactly then |
| `Effects.ThenApplies` | gateway/config_edit.py:199-209 | two merges in turn are one effect, where no one patch need be |
| `Effects.EffectsDiffer` | gateway/config_edit.py:199-209 | two different effects do different things to some mapping |
| `Effects.ListComposesIff` | gateway/config_edit.py:328-350 | the one fragment of a whole list does on every document what its edits do in turn exactly when it comes to the same effect |
| `Effects.LaterEditHeals` | gateway/config_edit.py:328-350 | a list whose front part does not compose and which does |
| `Patch.PlainEditsNest` | gateway/config_edit.py:376-390 | values that are no mappings meet the condition when no path is a proper prefix of a later one |
| `Patch.PlainPairComposes` | gateway/config_edit.py:376-390 | two such edits compose on every document exactly when the first path is no proper prefix of the second |
| `Patch.SamePathComposes` | gateway/config_edit.py:340-344 | two values set at one path compose on every document exactly when the second overrides the first |
| `Patch.MappingsDoNotCompose` | gateway/config_edit.py:340-344 | so two mappings with different keys set at one path do not |
| `Patch.UnsetHasParent` | gateway/config_edit.py:364-373 | an unset is accepted exactly when its parent can be reached |
| `Patch.UnsetRemoves` | gateway/config_edit.py:364-373 | an accepted unset removes its leaf and nothing else exactly when the parent is a mapping |
| `Patch.UnsetWouldCreate` | gateway/config_edit.py:364-373 | a refused unset would have changed the document |
| `Fragments.MergeNamedList` | gateway/config_edit.py:212-257 | the loop merges the items in order, or refuses with the first item's complaint |
| `Fragments.ItemsKeepOthers` | gateway/config_edit.py:212-257 | entries a fragment does not name keep content and order |
| `Fragments.ItemMeans` | gateway/config_edit.py:226-256 | an item creates, merges into or removes its own name's entry; every other name stands for what it stood for; names stay unique |
| `Fragments.ItemAccepted` | gateway/config_edit.py:226-256 | an item is accepted exactly when it is a mapping with a name and has no `op`, or adds a name that is free, or removes one that is there and carries no other field |
| `Fragments.ItemRefused` | gateway/config_edit.py:226-256 | and what it is refused for otherwise |
| `Fragments.AddThenRemove` | gateway/config_edit.py:241-253 | an added entry can be removed again, leaving the list as it was |
| `Fragments.PlainItemTwice` | gateway/config_edit.py:236-240 | merging a plain item twice changes nothing more exactly when the name existed or the item deletes nothing |
| `Fragments.ApplyFragment` | gateway/config_edit.py:260-284 | a fragment is applied exactly when it is a mapping, free of the sentinel, and every named list in it is nonempty and merges |
| `Fragments.OtherBlocksStay` | gateway/config_edit.py:281-283 | a block the fragment does not name is untouched |
| `Fragments.PatchedStaysClean` | gateway/config_edit.py:260-284 | a document without the sentinel never gains one through an accepted fragment |
| `Fragments.MaskedViewRefused` | gateway/config_edit.py:271-273 | a view that masked anything is never accepted as a fragment |
| `Credentials.PrepareFragment` | gateway/config_edit.py:464-480 | a fragment is prepared exactly when it is a mapping, every file in it can be read, and it holds the sentinel neither before nor after |
| `Credentials.FileValuesAreMasked` | gateway/config_edit.py:416-439 | under the key it was read under, a value is shown alike whatever its files hold |
| `Credentials.AcceptedAlike` | gateway/config_edit.py:260-284 | whether a fragment applies does not depend on what its files hold |
| `Credentials.ReportShowsNoFile` | gateway/config_edit.py:629-657 | what an edit reports is the same whatever its files hold exactly when no agent, template or preset of the fragment is itself read from a file |
| `Credentials.TokenBotShown` | gateway/config_edit.py:651-657 | an agent named token-bot read from a file: the report is the file's content |
| `Fragments.EntryEdits` | gateway/config_edit.py:348-361 | edits addressed to an entry do to it what they do in turn, and nothing to the others, exactly when they leave no `op` in the fragment or only unset one the entry lacks |
| `Fragments.OpPathRemoves` | gateway/config_edit.py:348-361 | so setting `op` to `remove` on an addressed entry removes it |
| `Cycles.HasCycle` | gateway/config_edit.py:93-103 | the search ends on every graph, restores the shared path, and finds exactly the walks that close |
| `Cycles.ClosesThroughChild` | gateway/config_edit.py:101-102 | a walk closes exactly when one does from some child |
| `Cycles.CycleMeans` | gateway/config_edit.py:85-89 | from a root, that is exactly when a container it can reach contains itself; sharing does not count |
| `Cycles.WalksEnd` | gateway/config_edit.py:85-89 | without a cycle no walk is longer than the number of containers |
| `Cycles.WalksGoOn` | gateway/config_edit.py:85-89 | with one there are walks of every length |
| `Inherit.DeepMerge` | gateway/config.py:421-442 | the loop computes the merge in which the entry wins at every level |
| `Inherit.OverAgain` | gateway/config.py:421-442 | merging the result over the same template changes nothing |
| `Inherit.WinsAtEveryLevel` | gateway/config.py:421-442 | along any path, a value the entry sets at its end, other than a mapping, is what the merge holds there; where the entry stays silent on the way, the template's is |
| `Inherit.ParseTemplates` | gateway/config.py:445-508 | a block is accepted exactly when each template is a mapping without `inherits` or identity keys, and refused only over a block or template that is not; only descriptions are dropped |
| `Inherit.ResolveInherits` | gateway/config.py:511-564 | an entry resolves exactly when it asks for no template, or for one that exists and does not contradict its type, and then to the fields of both with the entry winning; an `inherits` that is no name, an unknown template and a contradicted type each have their own error, exactly then |
| `Inherit.IdentityIsOwn` | gateway/config.py:445-508 | an identity key is always the entry's own |
| `Inherit.InheritAgain` | gateway/config.py:511-564 | resolving the resolved entry again gives the same entry |
| `Inherit.ProvenanceIsTrue` | gateway/configtool/model.py:420-467 | each answer is true of the merge, for every entry, template and field, exactly unless the field is `inherits` itself on an entry that has one |
| `Inherit.ProvenanceIsComplete` | gateway/configtool/model.py:420-467 | and each answer is given exactly when it should be, for every field |
| `Inherit.InheritsIsConsumed` | gateway/configtool/model.py:434-438 | asked about `inherits` on an entry that has one, a name or an explicit null, the answer does not describe the merge |
| `Rules.FirstMatchingRule` | gateway/core/watcher_manager.py:263-300 | the rule returned is the first that is asked about the room, if the room is none of its exceptions; without one there is none |
| `Rules.FirstStopDecides` | gateway/core/watcher_manager.py:263-300 | the first rule that claims or declines decides |
| `Rules.RouteMeans` | gateway/core/watcher_manager.py:263-300 | a room is unclaimed exactly when no rule is asked about it, declined exactly when the first that is has it for an exception, and otherwise claimed by that one |
| `Rules.OwnRulesRouteAlike` | gateway/config.py:230-232 | a connector's own share of the rules routes its rooms as all of them would |
| `Rules.FindShadowedRules` | gateway/config.py:1569-1644 | what is reported is what routing says is due, in rule order and each once: a reach that earlier rules of the connector take, direct and group messages by answering them, names by an include that subsumes it, with the first to do so blamed; or the whole rule, when one rule takes every reach it has |
| `Rules.ExpectedIsDue` | gateway/config.py:1569-1644 | what the loops look for, rule against rule, is what is due by routing |
| `Rules.ReportedWhenTaken` | gateway/config.py:1569-1644 | a reach a rule has is reported exactly when earlier rules take it |
| `Rules.DeadIsReported` | gateway/config.py:1569-1644 | a rule is dead exactly when each reach it has is reported |
| `Rules.FindingsAreTrue` | gateway/config.py:1569-1600 | whatever a reported reach would take, the rule blamed has stopped before |
| `Rules.DeadRulesDoNotMatter` | gateway/config.py:1569-1644 | deleting all dead rules at once changes who answers no room of any kind, given only that the subsumption test is sound |
| `Loaders.ParseConnector` | gateway/config.py:732-847 | a connector's name is registered before the rest of it is parsed |
| `Loaders.ParseRule` | gateway/config.py:1368-1547 | a rule's name is registered only when the rule is built |
| `Loaders.FromFile` | gateway/config.py:235-409 | the fail-fast loader returns the configuration or the first problem in file order |
| `Loaders.CollectConfig` | gateway/config.py:1731-2064 | the tolerant loader returns what parsed and every issue |
| `Loaders.LoadersAgree` | gateway/config.py:1731-2064 | a file loads exactly when no issue is found, with the same configuration; otherwise the first issue is the fail-fast error, with one exact exception |
| `Loaders.LoadedNamesAreUnique` | gateway/config.py:804-809 | a loaded configuration has unique connector and rule names |
| `Loaders.FailedRuleLeavesNoTrace` | gateway/config.py:1511-1547 | deleting a failing rule changes no other rule's outcome |
| `Loaders.FailedConnectorTrace` | gateway/config.py:804-815 | deleting a failing connector changes no other's outcome exactly when it failed before registering its name or no later entry carries it |
| `Configs.ByNameFinds` | gateway/config_diff.py:162-168 | with unique names, an entity is found under its own name |
| `Configs.DiffTells` | gateway/config_diff.py:145-181 | with unique names, a name is under added, removed or changed exactly if the other file lacks it, this file lacks it, or the two hold different things under it; rules count as reordered exactly when both files hold the same rules in another order; each changed value shows the old one and the new one |
| `Configs.SameRulesWhen` | gateway/config_diff.py:166-173 | the rules differ in no name exactly when each file holds the rules of the other, and then they are equal exactly when their names stand in one order |
| `Digest.UntaggedUndoes` | gateway/config_diff.py:184-244 | stripping the tags gives the value back |
| `Digest.CanonicalInjective` | gateway/config_diff.py:184-232 | no two values share a canonical form |
| `Digest.KeyByName` | gateway/config_diff.py:258-259 | the connectors are keyed by their untagged names |
| `Digest.DigestAgreesWithDiff` | gateway/config_diff.py:247-260 | with unique names, two configurations have one payload exactly when their diff is empty |
| `Digest.OrderInDigest` | gateway/config_diff.py:247-260 | the order of connectors does not show, the order of rules does |
| `Calendar.DateOfNumber` | gateway/cli.py:1527-1534 | day numbers and dates are in one-to-one correspondence |
| `Calendar.YearApart` | gateway/cli.py:1951-1953 | one month and day in two years are at least 365 days apart per year |
| `Calendar.ScheduleOneShot` | gateway/cli.py:1524-1534 | a relative reminder of one minute up to the cap raises past the calendar's end or else gets the cron of the target's minute, which is exact; any other gets none |
| `Calendar.OneShotIsExact` | gateway/cli.py:1527-1534 | the first match of the year-less cron after any moment before the target is the target's minute |
| `Calendar.CapIsTight` | gateway/cli.py:1951-1953 | that holds for every request whose target the calendar has exactly when the interval is within 365 days, or longer than the calendar |
| `Calendar.AdvanceByOneYear` | gateway/cli.py:1733-1752 | the least later year that has the date is found within eight tries, unless the calendar runs out |
| `Calendar.SomeYearOn` | gateway/cli.py:1746-1752 | eight tries always suffice |
| `Calendar.EightTriesAreNeeded` | gateway/cli.py:1746-1752 | from 29 February 2096 all eight are needed |
| `Calendar.NextTime` | gateway/cli.py:1804-1813 | the first instant after now with that time of day |
| `Calendar.NextWeekday` | gateway/cli.py:1815-1839 | the first instant after now with that weekday and time |
| `Calendar.CronWeekdays` | gateway/cli.py:1827-1833 | the digit of a cron weekday names the day so many days after a Sunday |
| `Calendar.NextDate` | gateway/cli.py:1841-1870 | the first instant after now on that date and time; refused exactly when this year lacks the date or the calendar runs out |
| `Pipe.WriteStartupSignal` | gateway/service.py:1705-1725 | the payload is the sanitized errors in order, then ok unless fatal |
| `Pipe.WaitForStartupSignal` | gateway/daemon.py:61-121 | however the bytes arrive, the answer is the parse of what was written; after a read error, of a prefix of it |
| `Pipe.LinesAppend` | gateway/daemon.py:91 | a text that ends its last line is split on its own |
| `Pipe.OkMeans` | gateway/daemon.py:94 | ok is seen exactly when the startup was not fatal or some message hides a line that says so |
| `Pipe.PipeRoundTrip` | gateway/service.py:1692-1725 | for messages whose only breaks are LF and CR, the parent recovers exactly the sanitized, stripped messages in order, and ok exactly when nothing was fatal |
| `Pipe.SeparatorReadsAsOk` | gateway/daemon.py:91-94 | a line separator makes a fatal startup read as ok |
| `Pipe.CutShortIsNoOk` | gateway/service.py:1726-1733 | no prefix of a plain fatal report reads as ok |

## Left out

- Cancellation and other errors that are no `Exception`: the agent runtime manager is modelled as code that never raises, as it does not for exceptions; a task cancelled inside its awaits is not modelled.
- Object identity of a connector entry: an entry is a value with an `id`, and it is one object with its session manager; the list and its index are fields that change together, so sharing them by reference is not shown.
- Reload.GatewayService.RecoverAgent: the gates are modelled here only; a reload rewrites those of the connectors it keeps and hands new ones the set as they start.
- Reload.GatewayService.Boot: the control socket, the permission-expiry task and the signal to the parent are outcomes or left out; a shutdown waits for a running reload, which here is one call.
- Reload.GatewayService.ApplyReload: what a manager does about its rooms, watcher records, jobs and state files when it is sent, and the identity check, are arbitrary outcomes; messages are dropped and a finding keeps its section and name only. Whether a watcher's record is to change, which makes a plan non-empty by itself, is an arbitrary number, and two connectors are told apart by the barrier's answer alone.
- Runtime.AgentRuntimeManager.StartBrokers: a backend that wants no broker, which the runtime manager would leave without one. The service builds none (gateway/service.py:82-99); other users of the manager are not modelled.
- The order in which names are printed on a plan, the notes on it, and its rendering and dictionary form.
- The several connectors that connect, stop or start at once do so one after another here; no two of them share an outcome.
- Reload.GatewayService.ReloadConfig: whether the file validates, whether another reload holds the lock and whether the path is the daemon's own are parameters.
- The settle path runs on an exception in the apply; an exception in the settle path itself leaves the fleet as it was when the apply raised, which is stated as its own outcome.
- Reload.GatewayService.PlaceCandidates: after an apply that raised, building an entry around a connector object that was built before is taken not to raise; building the object itself may.
- Fairness of the recovery lock: a waiting call may wait for ever.
- Patch.NestInto: nesting into a fragment is a recursive function on values, where the source walks a cursor into nested dictionaries it has just copied; dotted paths arrive split into nonempty keys.
- Fragments.MergeNamedList: the text of a complaint beyond its kind and name; when both named lists of a fragment are refused, either complaint may be the one raised.
- Credentials.ReportShowsNoFile: the report is the masked document; the findings and errors of the validator, and the entry an `add` command shows, are not part of it. Files are what can be read from them, without their trailing line break.
- Redaction.RedactsAlike: lower-casing covers the letters of the markers and the Kelvin sign; no other character lower-cases into them.
- Non-string mapping keys, sets, tuples, dates and paths in a document, and Python's equality across types such as `1 == 1.0`; floats are reals, so neither `-0.0`, equal to `0.0` for the diff and another text for the digest, nor `NaN`, equal to nothing for the diff and always the same text, is a value here; the digest is the payload, its JSON text and SHA-256 are not modelled.
- Loaders.LoadersAgree: the parsers themselves are parameters, alike for both loaders; a message that carries an entry's index is the same message without it.
- Rules.DeadRulesDoNotMatter: the pattern language and its subsumption test are parameters, the test assumed sound and free to understate.
- The cache of parsed templates in the config tool, and the screens that use it.
- Zones with daylight saving and `zoneinfo`; overflow past the year 9999 where a day or a week is added; the explicit date-and-time form, which refuses the past; `croniter` is the plain meaning of its fields.
- Pipe.WaitForStartupSignal: text stands for its bytes; decoding errors, the printing, and the `info:` lines the daemon itself writes before the service starts.
- Process supervision, sockets, locks, file permissions, backups and upgrade; the admin clients, the text screens and the argument parser.
