# PowerCheck: the outage-to-poweroff protocol, proved

PowerCheck watches a UPS and two network probes. When the power is gone for long enough it asks the guests of
a Proxmox VE host to stop, forces the stragglers before the battery reserve is touched, and powers the host off.
This project models that protocol in Dafny 4.11 and proves what it promises, from one timer of the engine up to
whole runs with crashes. It also models the two smaller state machines beside it: the wake-on-LAN job manager and
the UPS history.

`dafny verify dfyconfig.toml` checks everything.

## How the model is laid out

| file | what it holds |
|---|---|
| `Common.dfy` | options, results, ceiling division |
| `PowerCore.dfy` | the engine: a class that updates its fields, proved equal to a function of values (`Step`) |
| `EngineHistory.dfy` | a reference reading of the sample history, and the theorems that every engine action is what this reading says |
| `EngineInFull.dfy` | what the engine does in UPS states, probes, times and counts of samples only, with no notion of the model in between |
| `StatusCopies.dfy` | the engine's timers behind pointers, and callers that write through theirs |
| `EngineRuns.dfy` | the order of all actions of a run, and the time budget |
| `PveReader.dfy`, `GuardState.dfy` | the guest listing; the persisted guard record and its store |
| `GuardLoop.dfy` | the guard as a crash/restart protocol: disk, process, calls to the node and what they did, one atomic step at a time |
| `GuardSafety.dfy` | what every run of that protocol keeps |
| `GuardHistory.dfy`, `GuardClock.dfy` | what the guard decides, in terms of the samples it saved across crashes; and what its times and deadlines count from on the wall clock |
| `GuardCalls.dfy` | the calls of every run, down to the commands on the node |
| `GuardRun.dfy` | the guard loop itself, driving the executor, proved to take the protocol's steps for exactly its own samples, clock readings and saves |
| `GuardExamples.dfy` | two runs from a host on which the guard never ran |
| `ShutdownOrder.dfy`, `FakePve.dfy`, `FakePveRuns.dfy`, `FakePveInFull.dfy` | the shutdown order, the in-memory PVE, promises over any series of operations, and every operation event by event |
| `Scenarios.dfy`, `ScenarioSweeps.dfy`, `ScenariosInFull.dfy` | the simulator's loop, its incremental sweeps read declaratively, and what the engine sees in terms of the scripted changes |
| `ScenarioFile.dfy` | the validation of scenario files, and what a validated scenario can rely on |
| `ClosedLoop.dfy` | engine and PVE together: how every simulated outage ends |
| `OutageSimulation.dfy` | the outage plan and its closed form |
| `Decimal.dfy`, `PveExec.dfy`, `ForceStop.dfy` | numbers as arguments, the real power commands, and the concurrent force-stop under every interleaving |
| `WakeOnLan.dfy` | the wake-on-LAN schedule, configuration and concurrent job manager |
| `UpsHistory.dfy` | the sample window, its log on disk, and the charts |

Code that changes fields step by step is a class whose methods are proved against a function of values; the
theorems are about those functions. Times are integers in nanoseconds. Concurrency is a sequence of events, one
per critical section or external call, in any order. Whatever the outside world answers (clock readings, sensor
samples, guest listings, whether a command or a write succeeds) is an argument of an event or an arbitrary
value, never a choice of the model. The only assumption about the guard's clock is that its instants lie after
the zero value of the program's clock type; readings that do not increase make the engine's step fail, as in
the program.

## What the proofs brought to light

* **A late confirmation disarms the guard.** Short recoveries do not reset the start of an outage, so a flapping
  outage can be confirmed after its own emergency instant. The engine then asks for the graceful stop, the forced
  stop and the poweroff in one step, and the simulator carries all three out. The guard does not: the graceful
  stop finds its deadline passed, the loop ends before the other two, and nothing was saved that would make a
  restart behave differently. `GuardSafety.GracefulAcceptedIffInTime` gives the exact condition,
  `GuardSafety.LateConfirmationNeverActs` shows that no restart ever makes a call to the node for such an outage
  while its record is kept, and `GuardExamples.LateConfirmationExample` is a run from an empty host that ends so. The
  engine's time budget (`EngineRuns.BudgetBound`) therefore does not carry over to the guard without its condition.
* **So does a spent budget.** Once the total budget of a saved outage is used up, every later look at the clock finds
  the deadlines of the forced stop and of the poweroff passed: no restart makes a call while the record is kept, even
  with all guests stopped and only the poweroff left to do (`GuardSafety.SpentBudgetNeverActs`, and for the loop
  itself `GuardRun.SpentLoopMakesNoCall`).
* **A node-wide stop that fails counts as done.** When the node refuses the stop command, the guard logs the error,
  saves the shutdown and goes on; at the reserve the guests are forced although none was ever told to stop.
  `GuardExamples.UnheededStopExample` is such a run. What does hold is that the stop is always tried first
  (`GuardSafety.StopAlwaysTriedFirst`), and the guests were told iff some try came in time and was accepted
  (`GuardSafety.ToldIffAccepted`).
* **A plan can be cut short.** The configuration accepts a reserve below the interval, and then the outage plan may
  never reach the poweroff: `OutageSimulation.CompletesIffWithinBudget` says exactly when it does,
  `OutageSimulation.PlanCutShort` is a case where it does not, and a reserve of one interval always suffices
  (`OutageSimulation.ReserveOfOneIntervalCompletes`).
* **A restart does not compact the UPS log.** Only a process that lives to its 120th sample rewrites the file;
  under shorter lives it keeps every sample ever taken (`UpsHistory.ShortLivesNeverCompact`).

## Model

| member | source | states |
|---|---|---|
| PowerCore.Config.Validate | internal/core/config.go:29-52 | accepts exactly the configurations with positive times and counts, confirmation times below the emergency time, and a reserve inside the budget |
| PowerCore.StepKeepsReachable | internal/core/engine.go:43-180 | every accepted sample keeps the invariant that ties state, timers, recovery counter and issued flags, never leaves a shutdown, keeps its outage start, and changes nothing once powered off |
| PowerCore.Engine.Sample | internal/core/engine.go:43-131 | the field-updating step computes the specified next memory and actions, and on a refused time leaves every field as it was |
| PowerCore.Engine.Detect | internal/core/engine.go:59-131 | outside a shutdown, evidence, recovery, candidate and confirmation change the fields and give the actions that the specification of the step says |
| PowerCore.Engine.NoteEvidence | internal/core/engine.go:63-85 | network evidence keeps an earlier UPS timer, UPS evidence clears the network timer |
| PowerCore.Engine.NoteHealthy | internal/core/engine.go:86-101 | a healthy sample clears both evidence timers but not the outage clock, and cancels at the configured count |
| PowerCore.Engine.ConfirmOutage | internal/core/engine.go:103-131 | a confirmation starts the shutdown and continues with it in the same step |
| PowerCore.Engine.ProgressShutdown | internal/core/engine.go:133-172 | poweroff when all guests are stopped, otherwise emergency and poweroff together when the reserve is reached, each once |
| EngineHistory.CancelledStartsAfresh | internal/core/engine.go:91-98 | after a cancellation the engine is a new one that has seen a sample: nothing of the outage is left in it |
| PowerCore.NewEngine | internal/core/engine.go:15-23 | an engine in the initial state iff the configuration is valid |
| PowerCore.RestoreEngine | internal/core/engine.go:25-33 | an engine that remembers exactly the given status and time, iff the configuration is valid and the state is not empty |
| StatusCopies.PointerEngine.Status | internal/core/engine.go:35-37 | the status handed out reads as the engine's and shares no timer with it |
| StatusCopies.RestorePointers | internal/core/engine.go:25-33 | the restored engine shares no timer with the status and the time it is given, and remembers what they read |
| StatusCopies.PointerEngine.Sample | internal/core/engine.go:43-180 | a sample points timers elsewhere and writes through none, so that no copy changes |
| StatusCopies.Serve | internal/core/engine.go:25-41 | a caller that asks, samples, restarts the engine from its copies and writes into anything it ever got never holds a timer of the engine, which replies as one of values does |
| StatusCopies.ServeAll | internal/core/engine.go:25-41 | so over any series of such moves |
| StatusCopies.OnlyCallsMatter | internal/core/engine.go:189-202 | neither writing into copies nor restarting from them changes any reply |
| EngineHistory.RunPhase | internal/core/engine.go:59-131 | until a confirmation the engine's three timers and its counter are exactly what the history says; afterwards it is shutting down |
| EngineHistory.ConfirmsIffConfirmed | internal/core/engine.go:108-131 | a sample confirms iff the history completes a confirmation time at it, for the reason the history gives |
| EngineHistory.GracefulIffFirstConfirmed | internal/core/engine.go:59-131 | graceful_shutdown is emitted at a sample iff it is the first whose unbroken loss block holds a UPS loss old enough, or whose unbroken network-loss block is; with the matching reason |
| EngineHistory.CandidateIffNothingOpen | internal/core/engine.go:63-75 | a candidate starts at a loss iff no earlier loss is still unrecovered |
| EngineHistory.CancelledIffRecovered | internal/core/engine.go:86-101 | outage_cancelled fires exactly at the configured number of consecutive healthy samples after a loss, before any confirmation |
| EngineHistory.OutageClock | internal/core/engine.go:63-101 | before the shutdown, the remembered outage start is the first loss that no full recovery followed |
| EngineHistory.ShutdownState | internal/core/engine.go:133-172 | during the shutdown the outage start stays that of the confirmed outage, and the poweroff flag says whether a releasing sample has come |
| EngineHistory.ShutdownEnds | internal/core/engine.go:133-172 | host_poweroff_requested is emitted exactly at the first sample from the confirmation on that finds all guests stopped or the reserve reached |
| EngineHistory.PoweroffIffPlanned | internal/core/engine.go:52-171 | over every run, a poweroff is requested at a sample iff the history contains a confirmation whose shutdown ends there |
| EngineHistory.EmergencyIffGuestsRun | internal/core/engine.go:145-171 | emergency_stop_remaining is emitted exactly with a poweroff request that finds guests running |
| EngineInFull.CandidateInFull | internal/core/types.go:14-16 | in the normal state a sample opens a candidate iff the UPS says OB or LB, or is UNREACHABLE with LAN and WAN both down; and the reason says which |
| EngineInFull.HealthInFull | internal/core/engine.go:76-101 | in an open candidate such a sample resets the recovery count, any other raises it and stops both timers, and the configured count forgets the outage altogether |
| EngineInFull.BatteryIsConfirmed | internal/core/engine.go:108-128 | OB or LB at a sample and no healthy one since is confirmed once the UPS confirmation time has passed, or was before |
| EngineInFull.SilenceIsConfirmed | internal/core/engine.go:108-128 | UNREACHABLE with both networks down throughout the network confirmation time is confirmed as well |
| EngineInFull.StopNeedsLoss | internal/core/engine.go:108-128 | nothing else is: the graceful stop comes once, and only after one of these two, with the reason that names it |
| EngineInFull.CountsFromCandidate | internal/core/engine.go:66-75 | an open outage counts from the latest sample that opened a candidate |
| EngineInFull.PoweroffInFull | internal/core/engine.go:133-172 | after the graceful stop, the poweroff comes exactly at the first sample that finds all guests stopped, or total budget less reserve over since that candidate |
| EngineInFull.StopComesFirst | internal/core/engine.go:103-128 | and never without a graceful stop before it |
| EngineInFull.FlagsInFull | internal/core/engine.go:108-172 | the three issued flags of the status say exactly which of graceful stop, emergency stop and poweroff were emitted |
| EngineRuns.ActionOrder | internal/core/engine.go:52-171 | the actions of every run are false alarms followed by one shutdown as far as it got: candidate, graceful, emergency if needed, poweroff, silence |
| EngineRuns.ConfirmedInTime | internal/core/engine.go:108-131 | unbroken loss is confirmed less than one sample gap after its confirmation time |
| EngineRuns.BudgetBound | internal/core/engine.go:108-171 | with unbroken loss and sample gaps bounded, graceful comes before start + confirm + gap and poweroff before start + budget - reserve + gap, inside the budget if the gap fits the reserve |
| GuardState.Store.Restore | internal/guardstate/store.go:32-59 | an engine for a record of this boot that is confirming or shutting down; any other record is cleared; errors change nothing |
| GuardState.Store.Save | internal/guardstate/store.go:61-89 | replaces the record by the engine's status while an outage is open and removes it otherwise; a failed write leaves the old or the new record |
| GuardState.RestoreInFull | internal/guardstate/store.go:32-59 | a record is continued iff it can be read, is of this boot, has an origin, is confirming or shutting down and has valid settings; a readable one of another boot, origin or state is removed, any other stays |
| GuardState.SavedIsRestored | internal/guardstate/store.go:32-89 | what was saved in an outage is what a restart on the same boot continues with and what a reboot removes; after the outage nothing is left to continue |
| GuardLoop.NextSound | cmd/powercheck-pve/guard.go:57-171 | every atomic step, crash and reboot keeps the agreement of disk, process and host effects |
| GuardLoop.RunSound | cmd/powercheck-pve/guard.go:57-171 | so does every run |
| GuardSafety.RecordSurvives | cmd/powercheck-pve/guard.go:57-76 | while a record is kept on one boot, its origin, detection settings and outage start never change |
| GuardSafety.DeadlinesSurviveCrashes | cmd/powercheck-pve/guard.go:331-338 | after any crashes and restarts the two absolute deadlines of a saved outage are the same, and every process alive uses them |
| GuardClock.TimesAreClock | cmd/powercheck-pve/guard.go:57-134 | in every run with crashes, record and process date from the launch or reload whose settings they have, and their relative times are wall-clock readings of ticks less that instant |
| GuardClock.SavedDeadlinesInFull | cmd/powercheck-pve/guard.go:331-338 | the deadlines of a saved outage are the wall-clock reading of one tick that saw a loss, plus budget less reserve and plus budget |
| GuardClock.ActingDeadlinesInFull | cmd/powercheck-pve/guard.go:331-338 | and so are those of a process that acts in an outage, saved or not yet |
| GuardSafety.CrashResumes | internal/guardstate/store.go:32-59 | what a restart makes of a process killed at any point: with a record on disk the memory its iteration began with, without one a new engine, where nothing had been open; an unreadable disk gives no process and keeps the record |
| GuardSafety.RebootStartsAfresh | internal/guardstate/store.go:32-59 | what a launch on another boot makes of it: the record is removed and a new engine starts |
| GuardSafety.ForgettingNeedsEffect | cmd/powercheck-pve/guard.go:145-171 | a record is removed only by saving a cancellation, or after the poweroff for that outage was accepted with all guests seen stopped |
| GuardSafety.NeverForgotten | cmd/powercheck-pve/guard.go:145-171 | over every run on one boot a saved outage is still on disk, or its cancellation was written, or the host was powered off for it |
| GuardSafety.GracefulAcceptedIffInTime | cmd/powercheck-pve/guard.go:225-240 | the graceful stop is carried out iff the second look at the clock is before the emergency instant and within the stop's own timeout |
| GuardLoop.AllowancesInFull | cmd/powercheck-pve/guard.go:340-350 | in plain instants: the graceful stop is too late from start plus budget less reserve on or its own timeout and 20 s after the first look; forced stop and poweroff from start plus budget on, or 5 s and 10 s after it |
| GuardSafety.LateConfirmationNeverActs | cmd/powercheck-pve/guard.go:145-171 | once the emergency instant has passed unconfirmed, no restart makes a call to the node while the record is kept |
| GuardSafety.SpentBudgetNeverActs | cmd/powercheck-pve/guard.go:331-350 | once the total budget of a saved outage is used up, no restart makes a call to the node while the record is kept, in whatever state |
| GuardExamples.LateConfirmationExample | cmd/powercheck-pve/guard.go:340-350 | a run from an empty host, with one short recovery, in which the engine asks for all three actions at once and the guard ends without a call, its record as before |
| GuardExamples.UnheededStopExample | cmd/powercheck-pve/guard.go:236-240 | a run from an empty host in which the node refuses the node-wide stop, the guests are forced and the host powered off, and no guest was told to stop |
| GuardExamples.ForcedSucceeds | cmd/powercheck-pve/guard.go:262-329 | a force-stop as that run needs it exists: it succeeds and stops a guest |
| GuardSafety.GracefulComesFirst | internal/core/engine.go:115-128 | within one sample the request to the guests precedes anything stronger |
| GuardSafety.StopAlwaysTriedFirst | cmd/powercheck-pve/guard.go:145-171 | in every run with crashes no guest is told, none forced and no host powered off for an outage whose graceful stop was not tried before |
| GuardSafety.ToldIffAccepted | cmd/powercheck-pve/guard.go:225-243 | over every run the guests were told to stop for an outage iff at some step its graceful stop came in time and the node accepted the command |
| GuardSafety.PoweredOffIffAccepted | cmd/powercheck-pve/guard.go:246-260 | over every run the host was powered off for an outage iff at some step its poweroff came in time, after a listing with all guests stopped, and was accepted |
| GuardHistory.RunTells | internal/guardstate/store.go:32-89 | in every run with crashes and restarts the record and every process's memory are those of an engine that took the saved samples without interruption |
| GuardHistory.GuardStopsIffFirstConfirmed | cmd/powercheck-pve/guard.go:100-171 | whatever crashes came before, a sample asks for the graceful stop iff, after the saved ones, it is the first that completes a confirmation time |
| GuardHistory.GuardPowersOffIffPlanned | cmd/powercheck-pve/guard.go:100-171 | and for the poweroff iff the saved samples with this one contain a confirmation whose shutdown ends here |
| GuardCalls.RunsAreFaithful | cmd/powercheck-pve/guard.go:214-329 | in every run with crashes anywhere, also between two calls of one action, and any interleaving, every command is on the allowlist, a poweroff directly follows a listing with all guests stopped, and accepted node-wide stops and poweroffs are exactly the recorded ones |
| GuardCalls.FromEmptyHost | cmd/powercheck-pve/guard.go:34-179 | every run from a host on which the guard never ran keeps its invariant, tries the stop first, and makes only such calls |
| GuardCalls.ForcedIffCommanded | cmd/powercheck-pve/guard.go:262-329 | over every run guests were forced for an outage iff at some step a stop command of a single guest was given for it, also by a process killed on the way |
| GuardCalls.ActionCounts | cmd/powercheck-pve/guard.go:214-260 | the accepted commands of one action are what it is said to have done |
| GuardCalls.CutCounts | cmd/powercheck-pve/guard.go:214-260 | and so are those of an action whose process is killed after any number of its calls |
| GuardRun.ExecuteGuardAction | cmd/powercheck-pve/guard.go:214-260 | driving the executor for one action adds exactly the calls of the protocol's act to the node's trace and succeeds exactly when it does, where the act has the given clock readings, refuses exactly what this executor refuses, and, with time left, makes every listing and thread of a force-stop |
| GuardRun.LateInFull | cmd/powercheck-pve/guard.go:291-315 | a thread of the forced stop is late iff its second look at the clock is at or past start plus budget, or 15 s after its first; the last listing with 5 s |
| GuardRun.ForceReachesEveryGuest | cmd/powercheck-pve/guard.go:262-329 | with time left, on this host and with a timeout in range, the guests are listed; each one shown neither stopped nor a template has a thread, which in time looks it up and gives its stop command if it still runs; and the last listing is taken if no thread failed |
| GuardRun.CarryOut | cmd/powercheck-pve/guard.go:145-168 | the loop over a sample's actions takes one act per action, each with its own clock readings, up to and with the first failure, and the executor's calls are theirs |
| GuardRun.ReloadConfig | cmd/powercheck-pve/guard.go:101-134 | only in the normal state, only a changed and valid production configuration starts a new engine with a new origin |
| GuardRun.TakeTurn | cmd/powercheck-pve/guard.go:100-171 | one turn is the tick with its own sample, then the acts for that sample's actions, then its own save unless the process ended before; disk, calls and process are those of the protocol after exactly these steps |
| GuardRun.StartEngine | cmd/powercheck-pve/guard.go:57-76 | restoring or starting an engine is the protocol's launch |
| GuardRun.RunAutoGuard | cmd/powercheck-pve/guard.go:34-179 | whatever clock and node answer, the whole loop is the launch and then the turns of its script, all of them or up to the one that ended the process, and leaves the disk and the calls of exactly these steps |
| GuardLoop.ReplayIsRun | cmd/powercheck-pve/guard.go:34-179 | what the loop does is a run of the protocol, so the promises about runs are promises about the loop |
| GuardRun.LoopCallsAreSafe | cmd/powercheck-pve/guard.go:34-179 | for any such turns the loop's commands are allowed, its poweroffs directly follow a listing with all guests stopped, and what is recorded as done is what the node accepted |
| GuardRun.SpentLoopMakesNoCall | cmd/powercheck-pve/guard.go:34-179 | a loop that resumes a saved outage whose total budget every clock reading has passed makes no call for as long as its record is kept |
| ShutdownOrder.SortSorts | internal/fakepve/executor.go:237-248 | sorting keeps exactly the elements and, with distinct keys, orders them strictly |
| ShutdownOrder.SortedUnique | internal/fakepve/executor.go:50-59 | a strictly sorted sequence is determined by its elements |
| FakePve.NormalizeConfig | internal/fakepve/executor.go:267-334 | succeeds exactly for acceptable guests with distinct numbers and known results, with all defaults filled in |
| FakePve.New | internal/fakepve/executor.go:25-40 | a fresh executor of the normalised configuration, or the error |
| FakePveInFull.AcceptedInFull | internal/fakepve/executor.go:267-328 | the accepted configurations, field by field |
| FakePveInFull.FreshHoldsAll | internal/fakepve/executor.go:25-40 | a new executor holds exactly the configured guests, running and untested, with only their open fields filled in |
| FakePveInFull.FreshInOrder | internal/fakepve/executor.go:237-248 | by shutdown order, lowest first, and then by number |
| FakePve.Executor.Advance | internal/fakepve/executor.go:42-68 | exactly the guests whose stop is due stop, in the order of due time, shutdown order and number |
| FakePveInFull.AdvanceInFull | internal/fakepve/executor.go:42-68 | exactly the stopping guests whose due time has come stop, each reported once, by due time, then shutdown order, then number |
| FakePve.Executor.StartGracefulShutdown | internal/fakepve/executor.go:70-122 | asks every running guest once, by its own means and delay, and stops those due at once |
| FakePveInFull.StartInFull | internal/fakepve/executor.go:70-122 | the first request gives the node-wide command and, unless that fails, one request to each guest that is up, in order, by the means of its kind and agent; who stops on its own is due after its delay, at once without one |
| FakePveInFull.NewGuestsAskedInOrder | internal/fakepve/executor.go:70-122 | a new executor asks all its guests, the lowest shutdown order first and then the lowest number |
| FakePve.Executor.ForceRemaining | internal/fakepve/executor.go:124-148 | forces exactly the guests not stopped, and reports which resist |
| FakePveInFull.ForceInFull | internal/fakepve/executor.go:124-148 | one command for each guest that is not stopped, in order and of its kind; exactly those whose forced stop works are stopped |
| FakePve.Executor.RequestHostPoweroff | internal/fakepve/executor.go:150-165 | blocked iff a guest is not stopped |
| FakePveInFull.PoweroffInFull | internal/fakepve/executor.go:150-165 | one event, blocked iff some guest is not stopped, and no guest changes |
| FakePve.Executor.TestAgent | internal/fakepve/executor.go:167-194 | an error iff the guest is unknown, otherwise the probe result and no change of any guest's state |
| FakePveInFull.TestInFull | internal/fakepve/executor.go:167-194 | only a VM with an agent is pinged, what it is configured to answer is reported, and the report is kept with that guest |
| FakePve.Executor.AllGuestsStopped | internal/fakepve/executor.go:196-203 | true iff all guests are stopped |
| FakePveRuns.ApplyAccounts | internal/fakepve/executor.go:42-165 | each operation keeps guests up plus stop events, and no stopped guest runs again |
| FakePveRuns.ApplySound | internal/fakepve/executor.go:42-194 | a due time exists only while stopping, and stopping only after a graceful start, whatever is done |
| FakePveRuns.GuestsConserved | internal/fakepve/executor.go:42-165 | over any series of operations, guests up, graceful stops and successful forces add up to all guests |
| FakePveRuns.PoweroffIsFinal | internal/fakepve/executor.go:150-165 | after a poweroff that is not blocked all guests are stopped for good |
| FakePveRuns.StopOrderSplits | internal/fakepve/executor.go:42-68 | what is due by a later time is what is due by an earlier one followed by the rest, in one order |
| FakePveRuns.AdvanceInSteps | internal/fakepve/executor.go:42-68 | advancing in two steps gives the guests and the stop events of advancing at once, but for event times |
| Scenarios.SweepOn | internal/sim/runner.go:39-75 | sweeping on from where an earlier sweep stopped is sweeping from the start |
| Scenarios.ApplyDueChanges | internal/sim/runner.go:40-45 | the index and the snapshot after all due changes |
| Scenarios.RestartIfDue | internal/sim/runner.go:46-54 | replaces the engine by one with the same configuration and memory |
| Scenarios.RunDueTests | internal/sim/runner.go:56-64 | runs the due tests in order and fails iff one of them names an unknown guest |
| Scenarios.DispatchActions | internal/sim/runner.go:88-99 | applies a step's actions to the PVE in order |
| Scenarios.RunTicks | internal/sim/runner.go:37-77 | the virtual-time loop ends in the specified world |
| Scenarios.RunScenario | internal/sim/runner.go:19-86 | succeeds iff configuration, PVE and tests are good, with the actions and events of the specification |
| Scenarios.EveryTickAccepted | internal/sim/runner.go:37-77 | in every simulation each tick is accepted by the engine and leaves it reachable, with the same guests |
| Scenarios.TicksWithinDuration | internal/sim/runner.go:37-39 | the ticks are exactly the multiples of the interval up to the duration |
| ScenariosInFull.LastChangeWins | internal/sim/runner.go:101-114 | the last change to a field decides it, whatever the changes to the others |
| ScenariosInFull.UnsetIsBlank | internal/sim/runner.go:101-114 | a field no change sets is unknown, unreachable, or not stopped |
| ScenariosInFull.ObservedInFull | internal/sim/runner.go:37-64 | at each tick UPS status, LAN and WAN are those of the last change to each whose time is not after the tick, and without a PVE so is the stopped flag |
| ScenariosInFull.TestedInFull | internal/sim/runner.go:55-63 | the due tests of a tick leave one report each, in their order and of their own guests |
| ScenariosInFull.GuestsObservedInFull | internal/sim/runner.go:55-65 | with a PVE all guests are seen stopped iff each is stopped, or stopping and due by the tick |
| ScenarioSweeps.SnapshotIsRefold | internal/sim/runner.go:39-45 | the incrementally updated snapshot is at every tick the fold of all changes due so far |
| ScenarioSweeps.TestRunsOnce | internal/sim/runner.go:56-64 | an agent test runs at the first tick not before its time and at no other |
| ScenarioSweeps.TestsDoNotMatter | internal/sim/runner.go:56-64 | leaving out all agent tests changes no action, engine state or guest state |
| ScenarioSweeps.RestartsDoNotMatter | internal/sim/runner.go:46-54 | any other restart times, or none, give the same worlds at every tick: restarts are invisible |
| ScenarioFile.Validate | internal/sim/scenario.go:79-158 | succeeds exactly for complete, in-range scenarios whose tests name known guests, and returns them with their scripts sorted |
| ScenarioFile.AcceptedInFull | internal/sim/scenario.go:79-167 | the accepted files, field by field: OL, OB, LB or UNREACHABLE, tests of configured guests only, every time within the duration |
| ScenarioFile.ByTimePermutes | internal/sim/scenario.go:118-126 | sorting by time keeps every entry exactly once |
| ScenarioFile.ArrangedIsSorted | internal/sim/scenario.go:118-126 | the three scripts the sweeps rely on are sorted by time |
| ScenarioFile.ValidatedNeverFails | internal/sim/scenario.go:93-112 | a simulation of a validated scenario never meets an unknown guest at any tick, so it cannot fail for a valid configuration |
| ScenarioFile.ValidatedSnapshotsAreComplete | internal/sim/scenario.go:86-95 | in a validated scenario every tick sees a known UPS status and a snapshot independent of the blank one the loop starts from |
| ClosedLoop.HistoryIsOne | internal/sim/runner.go:37-77 | the samples that any simulation with a valid configuration takes are a history in the sense of the theorems |
| ClosedLoop.LoopIsEngineRun | internal/sim/runner.go:37-77 | the simulated engine is an engine run over the samples that the loop itself produces, so all history theorems hold in the loop |
| ClosedLoop.PlannedPhase | internal/fakepve/executor.go:42-122 | from the confirmation until a release every guest is stopped iff its own delay has passed |
| ClosedLoop.ReleasingTick | internal/sim/runner.go:65-76 | the tick that releases a shutdown records exactly the planned ending |
| ClosedLoop.EndingStands | internal/sim/runner.go:37-77 | that ending stays the only record of forced stops and poweroffs for the rest of the run |
| ClosedLoop.EveryEnding | internal/sim/runner.go:37-77 | every simulation at every tick has recorded nothing final, or the ending of its one confirmed and released shutdown |
| ClosedLoop.EndingShape | internal/fakepve/executor.go:124-165 | an ending forces exactly the guests not down, then requests the poweroff once, blocked iff one of those guests resists |
| ClosedLoop.OnePoweroff | internal/sim/runner.go:65-75 | in every simulation at most one poweroff is ever requested, and no guest is forced after it |
| ClosedLoop.ConfirmedOutcome | internal/sim/runner.go:37-77 | every confirmed outage of every simulation, whatever the samples and the length of the run: the poweroff comes at the first tick from the confirmation on that is overdue or finds all guests down, its ending stands to the end, and nobody is forced if all are down; a run that ends before such a tick has forced and powered off nothing |
| ClosedLoop.ConfirmsOnTheGrid | internal/core/engine.go:108-131 | loss from any tick, UPS loss first and then any loss or network loss only, is confirmed at the latest at the tick of its confirmation time, and exactly there iff no network loss within it confirms before |
| ClosedLoop.UninterruptedOutcome | internal/sim/runner.go:37-77 | such loss, unbroken up to its confirmation, ends with the poweroff at the first tick from then on at which all guests are down, or at the emergency tick if that comes first; a shorter run ends without one |
| ClosedLoop.AllDownAfterLongestDelay | internal/fakepve/executor.go:42-122 | with an accepted stopall and guests that all stop on their own, all are down exactly from the longest delay on |
| OutageSimulation.Simulate | internal/outageconfig/simulate.go:32-88 | the grid loop returns exactly the closed form: candidate at 0, graceful at the first grid time after the confirmation, then the poweroff with it or the emergency and poweroff at the first grid time after budget less reserve, each if within the budget |
| OutageSimulation.AcceptedInFull | internal/outageconfig/config.go:56-92 | the accepted stored configurations, in seconds, and what the engine is given of one |
| OutageSimulation.EmergencyCommandsAreTheForced | internal/outageconfig/simulate.go:90-103 | the plan announces one stop for each guest that a real force-stop would take on, in the same order and of its kind |
| OutageSimulation.AnnouncedIffRunning | internal/outageconfig/simulate.go:90-103 | pct stop of a number is announced iff a container with it, qm stop iff another guest with it, runs and is no template; nothing else is announced |
| OutageSimulation.CompletesIffWithinBudget | internal/outageconfig/simulate.go:55-87 | the plan reaches the poweroff iff its grid time is within the budget |
| OutageSimulation.ReserveOfOneIntervalCompletes | internal/outageconfig/config.go:67-92 | a reserve of one interval or more always completes the plan in budget |
| OutageSimulation.PlanCutShort | internal/outageconfig/config.go:67-92 | a valid configuration whose plan never powers the host off |
| Decimal.RoundTrip | internal/pveexec/executor.go:81-86 | a printed number is read back as itself |
| Decimal.AtoiInFull | internal/pveexec/runner.go:83-91 | digits with or without one sign read as their value, within 64 bits |
| Decimal.AtoiNeedsDigits | internal/pveexec/runner.go:83-91 | and nothing else reads as a number |
| Decimal.DigitInPlace | internal/pveexec/executor.go:81-86 | a printed number has its digits in decimal order |
| PveExec.TimeoutIsValid | internal/pveexec/executor.go:302-304 | a timeout between a second and an hour becomes the least number of seconds that is long enough, from 1 to 3600 |
| PveExec.CommandsAllowed | internal/pveexec/runner.go:45-91 | every command the executor can compose, for any guest number and timeout in range, is on the allowlist |
| PveExec.CommandsInFull | internal/pveexec/executor.go:77-86 | the commands word by word: pct for containers and qm for all others, shutdown with the timeout or stop, the guest's own number, and the node-wide stop that never forces |
| PveExec.AllowlistInFull | internal/pveexec/runner.go:45-91 | exactly what the allowlist lets through, word by word |
| PveExec.LookupFinds | internal/pveexec/executor.go:247-273 | a guest is found only under its number, on this node and not a template; not found iff no guest has the number |
| PveExec.FirstDecides | internal/pveexec/executor.go:247-273 | the first guest with the number decides: a template is refused, then one of another node, else it is the guest |
| PveExec.CourseIsSafe | internal/pveexec/executor.go:56-111 | in any course of stopping a guest only the second call can be a command; it is allowed, stops this guest with the program of its kind, shutdown or stop as asked, and follows a listing with the guest running; success needs a listing with it stopped |
| PveExec.CourseIsExact | internal/pveexec/executor.go:56-111 | the calls that lead to each point of an action, and to each of its ends with its error, are exactly these; other guests never matter |
| PveExec.EveryRunIsSafe | internal/pveexec/executor.go:56-229 | no run of power actions issues a command off the allowlist, or a poweroff that does not directly follow a listing with all guests stopped |
| PveExec.PoweroffNeedsAllStopped | internal/pveexec/executor.go:202-229 | in every such run, any systemctl command is the poweroff and stands directly after a listing in which every guest is stopped or a template |
| PveExec.Host.Run | internal/pveexec/runner.go:22-43 | a command off the allowlist never reaches the node |
| PveExec.Executor.FindGuest | internal/pveexec/executor.go:247-273 | the loop finds the first guest with the number and judges it; an invalid number is refused without a listing |
| PveExec.Executor.StopGuest | internal/pveexec/executor.go:150-200 | shutting down or force-stopping a guest follows a safe course to its end and reports that course's error |
| PveExec.Executor.StopAll | internal/pveexec/executor.go:113-148 | succeeds iff the command was accepted and the listing after it shows all guests stopped |
| PveExec.Executor.PoweroffHost | internal/pveexec/executor.go:202-229 | the poweroff command is given iff the listing just taken shows all guests stopped |
| PveExec.RefusalFor | internal/pveexec/executor.go:275-287 | power commands are refused iff node name or timeout is invalid or the confirmed node is not this host |
| PveExec.CanonicalInFull | internal/pveexec/executor.go:297-300 | host names are compared up to the first dot and without case |
| PveExec.DomainIsIgnored | internal/pveexec/executor.go:297-300 | so domains never tell two hosts apart |
| ForceStop.RemainingAreRunning | cmd/powercheck-pve/guard.go:277-283 | the forced guests are exactly those neither stopped nor templates |
| ForceStop.OnlyRemainingAreForced | cmd/powercheck-pve/guard.go:286-309 | under every interleaving of the threads a command only ever stops a remaining guest, with the program of its kind, that its own thread just saw running |
| ForceStop.EveryThreadActs | cmd/powercheck-pve/guard.go:286-309 | a thread that is neither late nor refused looks its guest up, and if it runs gives the stop command of its kind |
| ForceStop.ForcedAtMostOnce | cmd/powercheck-pve/guard.go:286-309 | under every interleaving no guest is forced twice |
| ForceStop.SuccessMeansStopped | cmd/powercheck-pve/guard.go:286-315 | a thread that ends without an error last saw its guest stopped, after its accepted command or before it needed one |
| ForceStop.RunThreads | cmd/powercheck-pve/guard.go:286-311 | under an arbitrary schedule of single calls every thread ends, on a course of its action |
| ForceStop.ForceStopRemaining | cmd/powercheck-pve/guard.go:262-329 | under an arbitrary schedule it succeeds iff there was time and a listing, no thread failed, and a listing taken after all threads is clean; with time left it makes the listing, then runs every thread, and with time left after them makes the last listing |
| ForceStop.ForceCallsAreSafe | cmd/powercheck-pve/guard.go:262-329 | every command of a force-stop is allowed, and none stops the whole node or powers the host off |
| WakeOnLan.SendOffsets | internal/wol/schedule.go:10-23 | the loop yields the schedule, or an error iff a time is not positive |
| WakeOnLan.OffsetsAreMultiples | internal/wol/schedule.go:8-23 | the schedule is exactly the multiples of the interval before the duration, in order |
| WakeOnLan.Validate | internal/wol/config.go:54-92 | accepts exactly the configurations with times in range, at most 20 sends, and well-formed devices with distinct ids |
| WakeOnLan.AcceptedInFull | internal/wol/config.go:54-92 | the accepted configurations, with 120 s and 30 s where none are given, ids character by character, and at most 20 sends as duration <= 20 * interval |
| WakeOnLan.Manager.Wake | internal/wol/manager.go:86-117 | refuses an unknown, disabled or already running device without any change, otherwise starts a blank running job |
| WakeOnLan.Manager.RecordAttempt | internal/wol/manager.go:144-157 | one attempt, and one packet if it was sent, on this device's job only |
| WakeOnLan.Manager.Run | internal/wol/manager.go:119-142 | an undisturbed worker ends its job with all its attempts, or cancelled after those made before the cancellation |
| WakeOnLan.Manager.Status | internal/wol/manager.go:66-84 | each configured device, in order, with its latest job |
| WakeOnLan.OneLiveJobPerDevice | internal/wol/manager.go:86-184 | under every interleaving a device's job is running iff a live worker wakes it, and that worker is the only one and the job's own |
| WakeOnLan.JobFigures | internal/wol/manager.go:119-184 | under every interleaving a job counts its own worker's attempts and no other's, packets <= attempts <= total <= 20, and its final state says how the worker ended |
| WakeOnLan.TotalInFull | internal/wol/manager.go:104-117 | a job's total is the number of intervals that begin within the duration |
| WakeOnLan.WorkerInFull | internal/wol/manager.go:119-184 | in every world of an interleaving: while attempts remain a send adds one and nothing else ends the job but a cancellation between two; after the last the job ends completed iff a packet got through |
| WakeOnLan.WakeInFull | internal/wol/manager.go:86-117 | an accepted wake adds one blank running job and one worker that owns it |
| WakeOnLan.EndedJobsStand | internal/wol/manager.go:144-184 | no late worker changes a job that is over |
| WakeOnLan.RefusedIffBusy | internal/wol/manager.go:86-104 | a wake is refused as unknown, disabled or running iff the device is that, running meaning a live worker |
| UpsHistory.PruningIsInvisible | internal/upshistory/collector.go:311-319 | pruning removes nothing that any later window would show |
| UpsHistory.Collector.Prune | internal/upshistory/collector.go:311-319 | drops the leading samples before the cutoff and no others |
| UpsHistory.Collector.Load | internal/upshistory/collector.go:224-252 | memory becomes the window of the log |
| UpsHistory.Collector.Take | internal/upshistory/collector.go:175-213 | memory, write counter, log and error flag after one sample, whether or not the disk accepted it |
| UpsHistory.Collector.Report | internal/upshistory/collector.go:147-173 | the chart of the samples since a time, with its point limit held between 10 and 2000 |
| UpsHistory.MemoryIsLogAndMissing | internal/upshistory/collector.go:175-319 | for every cutoff at or after the past ones, after any mixture of samples, prunes, rewrites, failed writes and restarts, memory shows as a multiset what the log shows and the missing samples |
| UpsHistory.LogAgreesWithMemory | internal/upshistory/collector.go:175-319 | log and memory agree on such a window iff no missing sample falls into it |
| UpsHistory.RestartKeepsWindow | internal/upshistory/collector.go:224-252 | a restart brings back the window shown before it iff no missing sample falls into it, and loses exactly the missing ones, each as often as it is missing |
| UpsHistory.NothingIsLost | internal/upshistory/collector.go:175-252 | while appends succeed, log and memory both show every sample ever taken in the window |
| UpsHistory.ShortLivesNeverCompact | internal/upshistory/collector.go:200-212 | the log keeps every sample ever taken unless some process reaches its 120th sample |
| UpsHistory.LogInFull | internal/upshistory/collector.go:195-213 | the nth sample of a process is added to the log, unless it cannot be, or n is a multiple of 120 and the log is rewritten with what memory holds |
| UpsHistory.Aggregate | internal/upshistory/collector.go:337-363 | the loop yields the last reading, the mean and the peak of the measured loads |
| UpsHistory.Downsample | internal/upshistory/collector.go:321-335 | the loop yields one point per bucket and never more points than asked for |
| UpsHistory.PointInFull | internal/upshistory/collector.go:321-363 | point i stands for the samples from i * size on, up to size of them, and shows the last one's time, state, charge and runtime, the mean of the measured loads and the greatest of them |
| UpsHistory.PointsAreFew | internal/upshistory/collector.go:325-326 | the number of points is the number of samples over the bucket size, rounded up, and within the limit |
| UpsHistory.BucketsPartition | internal/upshistory/collector.go:321-335 | the buckets joined are the samples |
| UpsHistory.BucketsAreFull | internal/upshistory/collector.go:321-335 | no bucket is empty or too large and all but the last have the full size |
| UpsHistory.ChartKeepsTotalLoad | internal/upshistory/collector.go:321-363 | the means of the points, times their counts, add up to the total load |
| UpsHistory.ChartKeepsPeak | internal/upshistory/collector.go:345-361 | some point shows the greatest load of all |
| UpsHistory.PeaksAreMeasured | internal/upshistory/collector.go:345-361 | no point shows a peak that was not measured |

## Left out

- Integer width: durations and counters are unbounded integers; the ranges that the configurations enforce are far from the 64-bit limits, and overflow for other values is not modelled.
- Texts: reasons are symbols, event names and notes, error messages and log lines are not modelled; errors say which check failed.
- Files: JSON, staging files, renames, permissions and directory creation; a save is an atomic replacement that may fail before or after it took effect, an append succeeds or does nothing.
- Clocks and contexts: clock readings are inputs; the difference between monotonic and wall-clock time across a restart is not modelled.
- StatusCopies.PointerEngine.Sample: which timers it sets is taken from the step on values, which `PowerCore.Engine.Sample` carries out field by field.
- Aliasing: apart from the engine's timers, the copies that keep callers out (of jobs, samples and snapshots) are not needed for values and not modelled.
- GuardRun.RunAutoGuard: a process killed inside a turn, also between two calls of an action, belongs to the protocol (events `Crash` and `Cut`) and not to this method; stopping on a cancelled context is the end of its script.
- GuardRun.ExecuteGuardAction: a context that expires during a call shows as a call that fails; the clock readings of threads and of the final check are given with the action and need not increase.
- GuardLoop.NextSound: the configuration checks outside the engine's are one flag of the stored configuration.
- ForceStop.ForceStopRemaining: its threads make the calls of the course that `PveExec.Executor.StopGuest` is proved to follow, one call at a time; which of several errors is reported is left open, as in the program.
- PveExec.Executor.StopGuest: shutdown and force-stop of a guest are one method with a flag, since they differ only in the command; the messages of results are left out.
- PveExec.RefusalFor: surrounding blanks of node names are taken as already cut, and letters outside ASCII are not folded.
- Scenarios.RunScenario: the comparison with expected actions and events; the loop is proved for scripts in any order, the declarative reading of its sweeps for sorted ones.
- ScenarioFile.Validate: decoding JSON; equal times keep their given order, which the library promises for the agent tests and gives for short lists of the others.
- WakeOnLan.Validate: the checks of addresses, names and ports, and the trimming of texts, are one flag of a device.
- WakeOnLan.Manager.Run: its contract is about a worker that no other thread disturbs; the lemmas about interleavings cover the rest. The times of a job and the wording of its last error are left out.
- UpsHistory.Aggregate: loads are exact numbers, so the rounding of floating-point sums and means is not modelled; a mean is kept as an exact fraction.
- UpsHistory.Collector.Take: a write that is cut off in the middle of a line; the readings that are only stored and never used again.
- OutageSimulation.Simulate: the commands of a step are symbols, not texts.
- The battery assessment, network and UPS clients, reachability probes, web servers, authentication, the dry-run collector, the event lists and the host guard.
