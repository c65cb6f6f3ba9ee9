# Options Alpha Lab in Dafny

A model of the paper-trading options agent and of the research code that re-runs its
rules over history, with proofs of what every run keeps. Each module stands for one
component of the repository.

- **Research statistics.** `Bootstrap` (moving-block contrast of two arms), `BlockMean`
  (the same resampling for one mean), `Ordering` (sorting and negation), `Simulator`
  (the exit simulation and its contrasts), `Portfolio` (one position at a time),
  `Attribution` (the setup classifier and the breadth-veto attribution).
- **Single writer.** `Lease`: the shared lease row in place, the worker loop, and many
  workers interleaved on one clock.
- **The trading agent.** `Lifecycle` (durable rows and a journal of what happened in which
  order), `Reconciliation` and `Deadlines` (the two passes over those rows), `Stuck` (the
  rows that no pass moves on, and when one reopens over its close), `Agent` (the decision cycle, the management cycle and the two
  faster clocks), on top of `Exits` (the exit policy and its audit), `Contracts` (rounding)
  and `Arrange` (filtering and stable sorting).
- **Numeric and search loops.** `Brent` (root finder and implied volatility), `Selector`
  (spread selection and the risk governor), `Revision` (propose, judge, resize once).
- **Operations.** `Calendar` (session queries by binary search), `Outcomes` (review jobs),
  `Scheduler` (start and stop of the server), `Offsite` (the off-host copy of the dump).

Code that changes state is written as classes and methods proved against a specification
function or relation; the lemmas are then about that specification and about whole runs.

How things are represented: money and prices are exact reals, rounded where the source
rounds (half-even or up, to cents or four places); times are integers of one zone, in
seconds for the lease, the scheduler and the agent's deadlines and in minutes elsewhere,
so a source offset of one microsecond reads as one unit; a calendar is the ascending list
of its sessions; row ids come from a counter, and how two random ids compare is an input;
signal ids are ranked as their names sort; a database transaction is one step. The random
block starts, the broker, the market data provider, the decision workflow's answer, the
bucket's answers and whatever may raise inside the management of one position are inputs,
quantified over.

## What the proofs found

Where a promise of the documentation or of the design is not kept by the code, the code is
modelled as it is, and the exact condition is proved.

- **One slot.** At most one unresolved position is kept by every run, plus one for every
  late fill that a deadline pass reinstates (`Agent.Run`, `Agent.OneSlot`); such a pass
  leaves several exactly when the unresolved rows and the filled abandoned ones are several
  (`Agent.SecondSlotExactly`).
- **Late fills.** The fill of an abandoned row is read, and the next deadline pass reinstates
  the row, exactly when a pass finds no leg of it left over and is shown its order with a
  fill (`Stuck.LookReadsLateFill`). While a leg is held the row is reported on every pass and
  stays abandoned (`Stuck.HeldAbandonedRowIsLeft`).
- **A refused entry stops the cycle.** Its row is abandoned while its order stays
  unanswered and without a broker id; in every run in which the broker does not show that
  order, every strategy call from ninety seconds on tries to cancel it, fails and returns
  before observing, managing or entering (`Agent.Run`).
- **A crash before sending.** The intent is durable and its order was never sent. An entry
  left that way holds the one slot: while the broker shows nothing of it no run sends an
  opening order. A close left that way keeps its row CLOSING while a leg is held, and no later
  call sends a close for it (`Stuck.EntryCrashWindow`, `Stuck.CloseCrashWindow`, `Agent.Run`).
- **Persist before sending.** An opening order is persisted first exactly when the agent
  has a store and a decision row (`Agent.TradingAgent.ConsiderEntry`).
- **A second close.** None is sent for a row that is CLOSING, but an incident takes the row
  from its close: a close that is refused or never answered, a failure between committing it
  and keeping its answer, an observation that raises on the CLOSING row
  (`Agent.TradingAgent.ManageOne`), and a cancel that fails at the close's deadline
  (`Stuck.OverdueCloseIsAnIncident`). Such a row stands OPEN again over a close that has not
  ended exactly when a look reads the row and finds its entry filled
  (`Stuck.IncidentReopens`, and for every state of the row `Stuck.LookReopens`); after a
  failed cancel that look is part of the same call (`Stuck.FailedCancelReopens`). Then another
  close may go out; in a run whose looks never show the fill none does (`Agent.Run`). A second
  close at the same price, trigger and quantity has the same client id and is rolled back.
- **Expiry with a conflicting rule.** The policy closes and its audit raises, so the record
  that precedes the order stops it (`Exits.AuditRaisesWhereExitCloses`,
  `Agent.ConflictAtExpiryNeverCloses`).
- **FREEZE_ALL_WRITES** on the gateway does not survive the next reconciliation
  (`Agent.TradingAgent.Reconcile`).
- **Lease.** A displaced worker can start one more tick, the one already admitted, when it
  pauses for a TTL between heartbeat and tick; besides that it has at most twenty seconds and
  sixty runs of its clocks left. A heartbeat after a release protects nothing
  (`Lease.DisplacedStartsNoFurtherTick`, `Lease.PausedWorkerTicksDisplaced`,
  `Lease.HeartbeatAfterReleaseProtectsNothing`).
- **Scheduled stop.** `scheduler.py` says an invalid lock ends within 24 hours; with an
  unrecognised `oa-session` key the rewrite never makes the lock valid and the server is
  never stopped (`Scheduler.StrayKeyPinsTheServer`).
- **Calendar.** The documentation counts closes strictly between two moments; the code
  counts one at the end moment too (`Calendar.CompletedBetweenCounts`).
- **Simulator.** With no close before the entry, index -1 reads the last close of all
  (`Simulator.NoEarlierCloseReadsTheLast`).
- **Off-host copy.** A daily copy precedes the next open exactly when no session is inside
  its own lag at that moment, which closes after 23:45 break
  (`Offsite.DailyFollowsItsSession`, `Offsite.LateCloseMisplacesADump`). An object that
  landed with the wrong size is never replaced, since a present key is never uploaded again.
- **Risk gate.** It rejects with nothing suggested although some quantity would pass exactly
  when nothing else is wrong, one contract fits the budget, and the quantity asked for was
  below one, or above the policy's and within the budget; the experiment itself never asks
  for either (`Revision.CurableWithoutSuggestion`).

## Model

| member | source | states |
|---|---|---|
| `Bootstrap.BlockContrast` | src/options_alpha_lab/veto_outcomes.py:187-242 | the prefix-sum resample returns the contrast defined by direct sums over the drawn positions, with its exclusions, drops and interval, and raises exactly where the source divides by zero or has no start to pick; what that contrast says of its inputs is `ContrastReads` and `IntervalReads` |
| `Bootstrap.ContrastReads` | src/options_alpha_lab/veto_outcomes.py:187-206 | the counts, exclusions and means are those of the arms' own values, and the difference is the permitted mean less the vetoed one, there exactly when both arms have values |
| `Bootstrap.IntervalReads` | src/options_alpha_lab/veto_outcomes.py:232-242 | by counting over the n replicates that have a statistic: low never exceeds high, at most floor(0.025(n - 1)) + 1 statistics lie strictly below low and at least that many at or below it, the same from above for high, and the others are counted as dropped |
| `Bootstrap.DrawReads` | src/options_alpha_lab/veto_outcomes.py:219-234 | a replicate's statistic is the mean of what it drew of the permitted arm less the mean of what it drew of the vetoed one |
| `Bootstrap.PositionsRead` | src/options_alpha_lab/veto_outcomes.py:181-184 | the k-th position drawn is that far into its own block: start k div block, plus k mod block |
| `Bootstrap.EvenlySpaced` | src/options_alpha_lab/veto_outcomes.py:146-151 | on evenly spaced statistics a percentile is the point that far along their line, which fixes the interpolation |
| `Bootstrap.Totals` | src/options_alpha_lab/veto_outcomes.py:219-231 | one replicate: block by block, the four prefix differences equal the direct counts and sums over the concatenated and truncated blocks, every index in range |
| `Bootstrap.Prefix` | src/options_alpha_lab/veto_outcomes.py:207-213 | each entry of a prefix list is the direct sum or count up to it |
| `Bootstrap.PositionsDrawn` | src/options_alpha_lab/veto_outcomes.py:181-184 | for a block of at least one, a replicate draws exactly `length` positions, all inside the sequence |
| `Bootstrap.SwapContrast` | src/options_alpha_lab/veto_outcomes.py:187-242 | exchanging the arm labels negates the difference and turns [low, high] into exactly [-high, -low], for every sequence, block length and list of starts |
| `Bootstrap.PercentileMirror` | src/options_alpha_lab/veto_outcomes.py:146-151 | interpolated percentiles commute with negation: the q-percentile of the negated sample is minus the (1-q)-percentile |
| `Bootstrap.IntervalOrdered` | src/options_alpha_lab/veto_outcomes.py:146-151 | low never exceeds high, and both stay between the least and the greatest replicate |
| `Bootstrap.WholeBlockDraw` | src/options_alpha_lab/veto_outcomes.py:187-242 | with one block spanning the sequence every replicate is the point estimate |
| `Ordering.SortMirror` | src/options_alpha_lab/veto_outcomes.py:232-241 | sorting the negated values is reading the sorted ones backwards |
| `Ordering.SortForgetsOrder` | src/options_alpha_lab/veto_outcomes.py:232-241 | sorting depends only on which values occur and how often |
| `BlockMean.BlockMean` | src/options_alpha_lab/study_decomposition.py:56-93 | the same scheme for one mean: prefix sums equal the direct mean over each replicate's positions, and the interval is taken over those that drew a value |
| `BlockMean.MeanReads` | src/options_alpha_lab/study_decomposition.py:56-93 | the counts and the mean are those of the subset's values, and the interval is in order with few replicate means beyond each end and at least so many on it or beyond |
| `BlockMean.DrawIsDifferenceOfMeans` | src/options_alpha_lab/study_decomposition.py:56-93 | a replicate of the two-arm contrast is the difference of the two arms' single-mean replicates on the same starts |
| `Simulator.Contrasts` | src/options_alpha_lab/veto_exits.py:216-241 | the negated and exchanged interval that the report prints is the true contrast of the swapped arms |
| `Lease.LeaseManager.AcquireLease` | src/options_alpha_lab/worker.py:115-149 | refuses only a lease another worker holds, unreleased and unexpired; otherwise the row is the caller's for one TTL |
| `Lease.LeaseManager.Beat` | src/options_alpha_lab/worker.py:151-160 | answers yes exactly when the row is the caller's, and then extends it; a release is not undone |
| `Lease.LeaseManager.ReleaseLease` | src/options_alpha_lab/worker.py:162-168 | marks the row released and expired at that moment, when it is the caller's |
| `Lease.Loop` | src/options_alpha_lab/worker.py:489-552 | the worker loop, for every sequence of heartbeat answers, stop flags, raised ticks and due reviews: its log is whole passes (a heartbeat that answers yes, a tick, a wait) and one of the ends the source has, by a relation on logs that gives its passes, its seconds and its clocks; it keeps the heartbeat discipline and ends released exactly when the loop ends |
| `Lease.Wait` | src/options_alpha_lab/worker.py:520-549 | the second-by-second wait sleeps the whole interval unless it is stopped or loses the lease, with a heartbeat after every twentieth sleep and the due clocks after each; it keeps the same discipline |
| `Lease.OneLog` | src/options_alpha_lab/worker.py:489-552 | the relation leaves one log and one ending for given inputs |
| `Lease.TicksExactly` | src/options_alpha_lab/worker.py:489-552 | told to make n ticks and undisturbed, with a yes for each tick and for every twenty seconds of the waits between them, the worker makes exactly n ticks, sleeps n - 1 whole intervals and releases |
| `Lease.Cadence` | src/options_alpha_lab/worker.py:520-549 | in any stretch of a wait whose heartbeats all answer yes there is one heartbeat in twenty seconds, and each clock runs once in its own period, off at zero, whatever the other does |
| `Lease.DisciplineOfLogs` | src/options_alpha_lab/worker.py:489-552 | read off any such log: every tick follows straight on a heartbeat that answered yes, nothing but the release follows a no, and the release is last |
| `Lease.RunKeepsInvariant` | src/options_alpha_lab/worker.py:115-168 | every interleaving of clock, reads, transactions, work and crashes keeps the tie between the row and each worker |
| `Lease.AtMostOneHolder` | src/options_alpha_lab/worker.py:115-168 | at every point of every run at most one worker is within the TTL of its last success, and it owns the row |
| `Lease.DisplacedStartsNoFurtherTick` | src/options_alpha_lab/worker.py:489-549 | from the moment another worker owns the row, over any further run, a displaced worker starts at most the tick an earlier heartbeat admitted, sleeps at most twenty seconds and runs at most sixty clocks |
| `Lease.DisplacedRunsDown` | src/options_alpha_lab/worker.py:489-549 | a worker that has lost the row never gets it back: every later heartbeat answers no, and what it does plus what it has left never exceeds what it had left then |
| `Lease.TimelyTickIsExclusive` | src/options_alpha_lab/worker.py:490-513 | a tick started inside the time its heartbeat bought is started by the only holder |
| `Lease.PausedWorkerTicksDisplaced` | src/options_alpha_lab/worker.py:490-513 | the one admitted tick is real: a worker paused for a TTL between heartbeat and tick starts it after a takeover |
| `Lease.HeartbeatAfterReleaseProtectsNothing` | src/options_alpha_lab/worker.py:151-168 | a heartbeat after one's own release is told yes and refuses nobody |
| `Lease.TakeoverAfterCrash` | src/options_alpha_lab/worker.py:115-149 | a crashed holder blocks a replacement for one TTL and no longer |
| `Lifecycle.LifecycleStore.PrepareEntry` | src/options_alpha_lab/execution/lifecycle.py:204-318 | a client id prepared before is refused with nothing written; otherwise intent, order and a PENDING row are committed together |
| `Lifecycle.LifecycleStore.PrepareClose` | src/options_alpha_lab/execution/lifecycle.py:320-392 | intent, order and CLOSING committed together; a repeated client id rolls the whole write back |
| `Lifecycle.LifecycleStore.RecordSubmission` | src/options_alpha_lab/execution/lifecycle.py:395-420 | a submission's answer is recorded and never as a fill |
| `Lifecycle.LifecycleStore.ApplyOrderReconciliation` | src/options_alpha_lab/execution/lifecycle.py:422-476 | an authoritative read sets state, fill and price; submitted with a fill is a partial fill |
| `Lifecycle.LifecycleStore.ApplyEntryOutcome` | src/options_alpha_lab/execution/lifecycle.py:478-504 | a fill opens the row, an ended order without one abandons it, anything else leaves it pending |
| `Lifecycle.LifecycleStore.ReleaseClose` | src/options_alpha_lab/execution/lifecycle.py:506-526 | only a CLOSING row goes back to OPEN, without its close order |
| `Lifecycle.LifecycleStore.ApplyCloseOutcome` | src/options_alpha_lab/execution/lifecycle.py:528-547 | CLOSED only when the broker is flat with nothing remaining |
| `Lifecycle.LifecycleStore.OpenIncident` | src/options_alpha_lab/execution/lifecycle.py:804-862 | a halting incident takes over any unfinished row and no finished one |
| `Lifecycle.LifecycleStore.ActivePositions` | src/options_alpha_lab/execution/lifecycle.py:550-576 | the unfinished rows (and the abandoned ones when asked) in recorded order |
| `Lifecycle.DisciplineOfTheJournal` | src/options_alpha_lab/execution/lifecycle.py:204-392 | in any journal that can be followed: every close was persisted before it was sent; between two closes of one position the first had ended or an incident had taken the row; and, unless some opening order went out unpersisted, every opening order was persisted first and no client id is sent twice |
| `Lifecycle.CloseSentKeeps` | src/options_alpha_lab/agent.py:1071-1098 | persisting and sending a close under a new client id, for a row with none at the broker, keeps that discipline |
| `Lifecycle.OpenSentKeeps` | src/options_alpha_lab/agent.py:1220-1245 | persisting and sending an entry under a new client id keeps the discipline and takes exactly one slot |
| `Lifecycle.UnpersistedSendIsLoose` | src/options_alpha_lab/agent.py:1220-1245 | an opening order sent with no intent persisted breaks it for good |
| `Reconciliation.Reconciler.ReconcileOne` | src/options_alpha_lab/execution/reconcile.py:336-504 | the state each row is left in, and whether it is reported as a mismatch, for every row state and everything the broker may show of it |
| `Reconciliation.Reconciler.Reconcile` | src/options_alpha_lab/execution/reconcile.py:173-278 | the pass leaves the book that judging each owed row once, live ones first, leaves; it is clean exactly when no row is contested or mismatched and nothing is unclaimed; an unreadable broker changes no row and is never clean |
| `Reconciliation.LiveOnesFirst` | src/options_alpha_lab/execution/reconcile.py:236-250 | no row given up is judged before a live one, and none is judged twice |
| `Reconciliation.SightKeeps` | src/options_alpha_lab/execution/reconcile.py:336-504 | reconciling one row brings nothing finished back, sends nothing and keeps the journal's discipline |
| `Reconciliation.SightIsLocal` | src/options_alpha_lab/execution/reconcile.py:336-504 | reconciling one row leaves every other row and its orders as they were |
| `Reconciliation.SightReads` | src/options_alpha_lab/execution/reconcile.py:336-504 | one sight settles its own row and changes the orders the row names only to what was read of them |
| `Deadlines.DeadlineEnforcer.Enforce` | src/options_alpha_lab/execution/deadline.py:74-156 | the pass acts exactly when some owed row is overdue or is an abandoned one that filled; every row is judged on the state the pass began with; the orders it asks the broker to end are exactly the overdue ones the broker knows and accepts to cancel; with nothing due nothing changes |
| `Deadlines.OverdueReads` | src/options_alpha_lab/execution/deadline.py:34-64 | overdue is ninety seconds after an entry and a hundred and twenty after a close was sent, while it has not ended |
| `Deadlines.JudgedReads` | src/options_alpha_lab/execution/deadline.py:74-175 | an abandoned row whose order filled is reinstated at the order's quantity and price, an unfinished one whose overdue order cannot be cancelled becomes an incident, and every other row stays |
| `Deadlines.LateFillsTakeTheSlot` | src/options_alpha_lab/execution/deadline.py:158-175 | the unresolved rows gain exactly the abandoned rows whose entry order carries a fill, one journalled revival for each |
| `Agent.TradingAgent.Reconcile` | src/options_alpha_lab/agent.py:259-274 | a pass sets both halt states from its report, whatever they were before, FREEZE_ALL_WRITES included |
| `Agent.TradingAgent.ManageOpenPosition` | src/options_alpha_lab/agent.py:921-1110 | a close reaches the broker exactly when the row is OPEN, its exit fires and is priced, the audit agrees, the client id is new and the gateway passes it; under a working close nothing is sent; book, gateway and answer are exactly those of the specification of a managed position |
| `Agent.ManagedReads` | src/options_alpha_lab/agent.py:921-1055 | what managing a position that sends nothing leaves and answers: no fill, an observation that raises, a working close, a rule of the other direction, an exit that does not fire, one without write authority or without a price; an unreadable premium or rule is an incident and halts new risk |
| `Agent.CloseReads` | src/options_alpha_lab/agent.py:1066-1110 | a close under a new client id, by what it meets: the row, its order, the journal and the answer where the record raises, where it is refused, where its outcome is unknown, where its answer is lost, and where it is kept before the broker is asked |
| `Agent.TradingAgent.ManageOne` | src/options_alpha_lab/agent.py:641-690 | the same for a position's turn, with every failure contained: where an exit fired and its close did not go out, was refused or was not answered, or managing raised, the row is left in an incident and new risk is halted, a close that was refused or whose answer was not kept adrift; it answers CLOSE_SUBMITTED exactly when a close went out and its answer was kept; a position that left the managed set is only reported |
| `Agent.TradingAgent.ManagePositions` | src/options_alpha_lab/agent.py:579-721 | exactly one result per owned position, in store order; valued never exceeds seen; on the snapshot passed in or observed, the valuable ones are taken in urgency order, each leaving exactly what managing it on what the last one left leaves, and each result tells its turn's own answer; with a gateway not frozen at the start each close goes out exactly on that position's own condition, whatever became of the others; with nothing to value them on they are reported and left alone; a row with nothing to value is reported as what it is; no stuck row moves while the broker shows nothing of it |
| `Agent.UnfrozenTurns` | src/options_alpha_lab/agent.py:641-690 | nothing one position's turn does to the gateway keeps a later position's close from going out |
| `Agent.UrgentFirst` | src/options_alpha_lab/agent.py:556-577 | in urgency order, whatever stands before a position whose exit fires also fires, on a rule no later in the exit precedence |
| `Agent.TiesByRank` | src/options_alpha_lab/agent.py:556-577 | equally urgent positions go by their ids, and one that cannot be answered goes after all that can |
| `Agent.LoneAnswer` | src/options_alpha_lab/agent.py:723-756 | with one valuable position the call's whole effect is that position's turn, and its answer that turn's where a tick result came back |
| `Agent.StopIsSent` | src/options_alpha_lab/agent.py:896-1110 | a stop that can be sent is sent: the one valuable row stands open and is worth half its reconciled fill or less, and nothing forbids its close, so the call answers CLOSE_SUBMITTED and the close went out |
| `Agent.FiringReads` | src/options_alpha_lab/agent.py:894-919 | an exit fires on the row's own fill, never on the estimate: a week to expiry, the rule, three sessions, half the fill, or three fifths of what was left to gain, to the cent |
| `Agent.TradingAgent.EnforceDeadlines` | src/options_alpha_lab/agent.py:821-838 | acts exactly when a row is due, and sends nothing; where it acts, the book is that of the deadline pass and of the look after it, new risk halts on a late fill or a close that could not be cancelled, and the cancels asked for are those of the overdue orders the broker knows; a CLOSING row ends open over its close exactly when the close could not be cancelled and the look that follows reads its entry as filled |
| `Agent.TradingAgent.ConsiderEntry` | src/options_alpha_lab/agent.py:1164-1308 | an opening order reaches the broker exactly for an approved decision that passes every gateway guard and, where it is persisted, has a new client id; it is persisted first exactly when there are a store and a decision row; book, gateway and answer are exactly those of the specification of an entry; a refused entry leaves an abandoned row with an unanswered order |
| `Agent.EntryReads` | src/options_alpha_lab/agent.py:1220-1308 | an entry under a new client id, by its answer: the row, its order, the journal, the gateway and the answer where it is refused, where its outcome is unknown, and where it is answered |
| `Agent.SubmitReads` | src/options_alpha_lab/execution/gateway.py:115-208 | what the gateway refuses, for closes and for openings; an answer is ambiguous exactly when the order had to be looked up, and unknown exactly when that found nothing |
| `Agent.TradingAgent.Tick` | src/options_alpha_lab/agent.py:379-475 | the cycle, by the first check that stops it: DEADLINE_ACTION exactly when some row of the reconciled book is due, with the deadline pass and the look after it; nothing without an observation or a market; with a valuable row a whole management cycle, every valuable row in its turn, most urgent first, one result for each owned row, and the one valued row's own answer or a summary; an opening order goes out exactly when nothing is due or owned, the pass was clean, market and window are open, the data usable and the entry passes; a row stuck before stays stuck while the broker shows nothing of it |
| `Agent.TradingAgent.OrderClock` | src/options_alpha_lab/agent.py:509-527 | with no order outstanding it does nothing; else it reconciles, and acts exactly when a row of the reconciled book is due, with the deadline pass and the look after it; it never opens a position; a deadline it acts on reopens a CLOSING row over its close exactly as above; stuck rows stay stuck while the broker shows nothing of them |
| `Agent.TradingAgent.PositionClock` | src/options_alpha_lab/agent.py:764-813 | nothing without a valuable row; else it reconciles, and where a valuable row is left, an observation came back and the market is open, runs the whole management cycle of a tick and gives its answer; it never opens a position; and while the broker shows nothing of its order, the row held and its observation not raising, a row whose close was committed and not sent stays so and no close goes out for it |
| `Agent.TradingAgent.WorkingOrder` | src/options_alpha_lab/agent.py:478-507 | found exactly when a live row's watched order was sent in the last ten minutes and has not ended |
| `Agent.Run` | src/options_alpha_lab/agent.py:379-527 | every run of the three clocks keeps the unresolved rows within one, plus one for each late fill reinstated; an agent with a store and decision rows never sends an opening order unpersisted; while no look tells anything of the row's order: for an agent that enforces deadlines a refused entry ends every strategy call past its deadline as DEADLINE_ACTION, with a store an entry never sent keeps every opening order from going out, and a close never sent is never sent again, unless its observation raises; and while no look shows its entry filled, no close goes out for a row that an incident took from a close that has not ended |
| `Agent.OneSlot` | src/options_alpha_lab/agent.py:840-862 | from at most one unresolved row, more than one is left only after a late fill was reinstated |
| `Agent.SecondSlotExactly` | src/options_alpha_lab/execution/deadline.py:91-96 | a deadline pass leaves several unresolved rows exactly when the unresolved ones and the abandoned ones that filled are several |
| `Agent.ReopensWhenEnded` | src/options_alpha_lab/execution/reconcile.py:449-497 | reconciling a CLOSING row reopens it exactly when its close has ended while a leg is still held |
| `Agent.IncidentReopensAWorkingClose` | src/options_alpha_lab/agent.py:951-963 | the promise that no second close is sent while one is working: once an incident has taken a CLOSING row, the next look leaves it open over that close exactly when it reads the entry as filled; the close is left as it was and the journal has room for another |
| `Stuck.HeldAbandonedRowIsLeft` | src/options_alpha_lab/execution/reconcile.py:351-366 | a fill the broker shows on an abandoned row is reported on every pass and never read: the row and its orders stay as they are |
| `Stuck.PassStaysIn` | src/options_alpha_lab/execution/reconcile.py:336-504 | a refused entry, an entry never sent, a close never sent and a row taken from its close by an incident are each left in their plight by a pass in which the broker tells nothing of what would end it |
| `Stuck.EnforcedStaysIn` | src/options_alpha_lab/execution/deadline.py:74-120 | no deadline pass frees such a row either |
| `Stuck.EntryCrashWindow` | src/options_alpha_lab/agent.py:1220-1245 | stopping between committing an entry and sending it leaves a PENDING row that takes one slot, its order unsent |
| `Stuck.CloseCrashWindow` | src/options_alpha_lab/agent.py:1071-1086 | stopping between committing a close and sending it leaves a CLOSING row whose close is unsent |
| `Stuck.PassReadsLateFill` | src/options_alpha_lab/execution/reconcile.py:351-372 | over a whole pass, an abandoned row becomes a late fill exactly when the pass judges it, finds no leg of it and is shown its order with a fill |
| `Stuck.LookReadsLateFill` | src/options_alpha_lab/execution/reconcile.py:351-372 | and so for every look of the agent, whose list always holds the abandoned rows |
| `Stuck.LookReopens` | src/options_alpha_lab/execution/reconcile.py:372-475 | for a row in any state: after a look it stands open over a close of its own that has not ended exactly when it was pending or in an incident and the look reads its entry as filled, or it stood so before and the look finds it as expected or does not read it |
| `Stuck.IncidentReopens` | src/options_alpha_lab/execution/reconcile.py:381-392 | for an incident over a close that has not ended: exactly when the look reads the row and shows its entry filled |
| `Stuck.OverdueCloseIsAnIncident` | src/options_alpha_lab/execution/deadline.py:118-149 | a deadline pass makes an incident of a CLOSING row exactly when its close is overdue and cannot be cancelled, and leaves the close and every order as they were |
| `Stuck.FailedCancelReopens` | src/options_alpha_lab/agent.py:821-834 | a failed cancel and the look that follows it reopen a CLOSING row over its close exactly when that look reads its entry as filled |
| `Agent.ConflictAtExpiryNeverCloses` | src/options_alpha_lab/agent.py:1007-1029 | with a rule of the other direction the expiry guard fires and its close never goes out |
| `Arrange.OrderRestored` | src/options_alpha_lab/agent.py:713-713 | results with the listed ids, sorted by their place in the list, are in the list's order |
| `Brent.Solve` | src/options_alpha_lab/veto_pricing.py:83-132 | a returned point lies in [low, high] with |f| at most the tolerance; none is returned exactly when there is no bracket or the iterations never reach such a point; no divisor is zero |
| `Brent.Search` | src/options_alpha_lab/veto_pricing.py:94-131 | the loop stops at the first acceptable iterate of the iteration function |
| `Brent.StepNarrows` | src/options_alpha_lab/veto_pricing.py:94-131 | every iteration keeps opposite signs, stays strictly inside the previous bracket and halves it when it bisects |
| `Brent.StepReads` | src/options_alpha_lab/veto_pricing.py:113-127 | a step bisects exactly when the rule's point is not strictly between the best one and a quarter of the way to it, or moves at least half as much as the step to beat; the probe becomes an end of the bracket |
| `Brent.SecantFindsTheZero` | src/options_alpha_lab/veto_pricing.py:111-112 | on a line the rule finds the zero |
| `Brent.QuadraticFindsTheZero` | src/options_alpha_lab/veto_pricing.py:105-110 | through three points at which the place is a quadratic in the value, the rule finds the place of value zero |
| `Brent.BracketsNest` | src/options_alpha_lab/veto_pricing.py:94-131 | brackets are nested over any stretch of the run |
| `Brent.BisectionsHalve` | src/options_alpha_lab/veto_pricing.py:94-131 | k bisections divide the bracket by 2^k |
| `Brent.ImpliedVolatility` | src/options_alpha_lab/veto_pricing.py:135-147 | a returned volatility is within its bounds and reprices the observation within 0.0001; none exactly when the observation is refused or the solver has nothing |
| `Brent.CrossingIsBracketed` | src/options_alpha_lab/veto_pricing.py:135-147 | a price that crosses the observation inside the bounds always has a bracket |
| `Selector.Select` | src/options_alpha_lab/components.py:230-322 | the least eligible (width, ratio, long strike) pair of the nearest usable expiry, and none exactly when there is none |
| `Selector.SelectionReads` | src/options_alpha_lab/components.py:230-322 | what is selected, for one contract: its debit and loss, its strategy, and that no eligible pair is narrower, or as narrow and cheaper for its width, or level with it and lower in its long strike |
| `Selector.EligibleReads` | src/options_alpha_lab/components.py:230-333 | which pairs are eligible, in strikes, days, deltas and prices: calls when bullish and puts otherwise, each screen with its number |
| `Selector.CrossingDebitReads` | src/options_alpha_lab/components.py:72-89 | the assumed debit crosses both quotes and adds half their widths, up to the next cent |
| `Selector.Search` | src/options_alpha_lab/components.py:267-304 | the nested argmin keeps a pair no screened pair precedes |
| `Selector.LeastUnique` | src/options_alpha_lab/components.py:299-304 | with unique strikes per type and expiry at most one pair is least |
| `Selector.SelectionForgetsOrder` | src/options_alpha_lab/components.py:230-322 | with unique strikes any reordering or repetition of the chain gives the same answer |
| `Selector.DuplicateStrikesTie` | src/options_alpha_lab/components.py:299-304 | two rows on one strike both carry the least key, so the hypothesis is needed |
| `Selector.RiskGovernor.Evaluate` | src/options_alpha_lab/components.py:345-427 | approval needs every check, judged on the loss the quotes imply; a rejection still reports that loss, within the budget |
| `Selector.ObservedLossReads` | src/options_alpha_lab/components.py:357-383 | the loss judged is what the two legs' own quotes cost by that crossing, for the quantity claimed, to the cent |
| `Selector.ClaimMatchesQuotes` | src/options_alpha_lab/components.py:357-383 | with unique symbols the governor's recomputed loss always matches the selector's claim |
| `Selector.DebitBoundsTheCross` | src/options_alpha_lab/components.py:72-89 | the assumed debit is never below the quoted cross, and an approved spread fits its width |
| `Exits.EvaluateTriggers` | src/options_alpha_lab/exits.py:285-339 | the five audit rows in precedence order; it raises exactly when a verifiable rule disagrees with the position |
| `Exits.DecisionMatchesAudit` | src/options_alpha_lab/exits.py:175-282 | the policy closes on the first row that fired, is UNMEASURABLE exactly when none fired and some could not be judged, and HOLD exactly when all said no |
| `Exits.TriggersRead` | src/options_alpha_lab/exits.py:175-282 | which trigger governs, in days, sessions and prices, and when the policy closes at all |
| `Exits.LevelsRead` | src/options_alpha_lab/exits.py:138-145 | the stop is half the debit and the target the debit plus three fifths of what is left, each to the nearest cent |
| `Exits.AmountsRead` | src/options_alpha_lab/exits.py:130-215 | the unrealized result is a gain when the value exceeds the debit, for a hundred shares a contract; a priced close offers a tenth less than the value and at least a cent |
| `Exits.AuditRaisesWhereExitCloses` | src/options_alpha_lab/exits.py:175-282 | policy and audit fail apart in one family only: at or inside the expiry guard, with a verifiable rule of the other direction |
| `Exits.HidingThePremium` | src/options_alpha_lab/exits.py:175-282 | a missing premium changes no premium-independent trigger and never makes a close less urgent |
| `Exits.StopBelowTarget` | src/options_alpha_lab/exits.py:138-145 | for every debit below the width, fractions of a cent included, the rounded stop is strictly below the rounded target from two cents of width on, and below that exactly where rounding keeps them apart |
| `Exits.WholeCentWidthKeepsApart` | src/options_alpha_lab/exits.py:138-145 | at every width of whole cents the two are apart, whatever the average fill |
| `Exits.WholeCentDebitBetween` | src/options_alpha_lab/exits.py:138-145 | for a whole-cent debit the stop is below the debit and the target at or above it |
| `Exits.SharedLevelIsAStop` | src/options_alpha_lab/exits.py:175-282 | a value at or below the stop and at or above the target closes as a stop |
| `Contracts.CentsIdempotent` | src/options_alpha_lab/exits.py:138-145 | rounding a rounded amount changes nothing |
| `Contracts.CentsNearest` | src/options_alpha_lab/exits.py:138-145 | a rounded amount is the nearest whole number of cents, and of two as near the even one |
| `Calendar.CompletedBetweenCounts` | src/options_alpha_lab/calendar.py:149-162 | two binary searches count exactly the closes after the start and up to the end, the end included |
| `Calendar.LastClosedIsLatest` | src/options_alpha_lab/calendar.py:135-138 | no later session has closed, lag included |
| `Outcomes.ReviewStore.EnsureJobs` | src/options_alpha_lab/outcomes.py:142-169 | adds one pending job for each missing horizon and nothing else |
| `Outcomes.EnsuredReads` | src/options_alpha_lab/outcomes.py:142-169 | afterwards both horizons have a job, every earlier job is kept, and each new one is pending under the decision's own time and policy |
| `Outcomes.ReviewStore.Review` | src/options_alpha_lab/outcomes.py:245-309 | completes exactly the pending jobs past their horizon that the records can answer, each with the outcome the scan gives, which `OutcomeReads` reads |
| `Outcomes.OutcomeReads` | src/options_alpha_lab/outcomes.py:202-309 | an outcome is there exactly when the decision's own observation and one far enough are; it takes the earliest far enough, its change is that price less the decision's own, and it agrees exactly when the price moved the direction's way |
| `Outcomes.ReviewReads` | src/options_alpha_lab/outcomes.py:245-309 | a pass completes a pending job exactly when one close, or three, have passed by then and its outcome is there, and stamps it with its moment |
| `Outcomes.AfterIsEarliest` | src/options_alpha_lab/outcomes.py:202-232 | the binary search picks the observation a linear scan over closes and rows would pick |
| `Outcomes.LaterObservation` | src/options_alpha_lab/outcomes.py:219-232 | a later observation never displaces the earliest, an earlier one that qualifies always does |
| `Outcomes.EnsureIsIdempotent` | src/options_alpha_lab/outcomes.py:142-169 | asked again, it adds nothing |
| `Outcomes.RunKeeps` | src/options_alpha_lab/outcomes.py:142-309 | over any interleaving: at most one job and one outcome per decision and horizon, the outcome present exactly when the job is complete and equal to the scan's answer |
| `Outcomes.OutcomesNeverChange` | src/options_alpha_lab/outcomes.py:245-309 | an outcome once written is in every later state, unchanged |
| `Outcomes.ScheduleDoesNotMatter` | src/options_alpha_lab/outcomes.py:245-309 | two runs agree on every outcome both have, whenever their reviews ran, when the observations of one begin with those of the other |
| `Outcomes.ReviewCatchesUp` | src/options_alpha_lab/outcomes.py:245-309 | a late enough pass completes every job the records can answer and no other |
| `Simulator.Observations` | src/options_alpha_lab/veto_exits.py:99-112 | the loop over days gives the observation moments of the entry session through the last one, in order; which these are is `ObservationsExactly` |
| `Simulator.ObservationsExactly` | src/options_alpha_lab/veto_exits.py:99-112 | a moment is observed exactly when it is a whole number of five-minute bars, at least one, after the 10:05 fill on the entry day or after the open on a later one, and not past that session's close |
| `Simulator.LatestIsNewest` | src/options_alpha_lab/veto_exits.py:115-124 | it reads nothing after the moment, nothing over fifteen minutes old, and the newest of the rest |
| `Simulator.Simulate` | src/options_alpha_lab/veto_exits.py:143-198 | the two loops give the trade defined by its trigger and exit indices; when it may trigger and exit is `TradeTimes` |
| `Simulator.TradeTimes` | src/options_alpha_lab/veto_exits.py:143-198 | no trade is triggered at or before its own fill, and none is closed at or before its trigger |
| `Simulator.ClosesRead` | src/options_alpha_lab/veto_exits.py:164-181 | when the policy closes a trade at an observation: a week to expiry, the last earlier close at or below the level, three sessions closed since the fill, or the spread less friction at the stop or the target |
| `Simulator.ValueReads` | src/options_alpha_lab/veto_exits.py:115-132 | the spread's value is the long leg's newest price less the short one's, there exactly when both have one within fifteen minutes and the two are within ten of each other |
| `Simulator.ResultReads` | src/options_alpha_lab/veto_exits.py:181-194 | a closed trade's result is a hundred times what the legs printed in the bar of its exit, less the fill and friction both ways |
| `Simulator.OpenTradeReads` | src/options_alpha_lab/veto_exits.py:163-198 | a trade is left untriggered only when the policy closes at no observation, and unfilled only when no later bar has both legs |
| `Simulator.UnmeasuredReads` | src/options_alpha_lab/veto_exits.py:158-169 | the unmeasured count is the observations without a value, up to the trigger or all of them |
| `Simulator.ClosedTradeIsCausal` | src/options_alpha_lab/veto_exits.py:143-198 | paths that agree on every bar ending by the exit, with the same earlier closes and one before the entry, give the identical closed trade |
| `Simulator.ClosedTradeShape` | src/options_alpha_lab/veto_exits.py:163-198 | the trigger is the first observation at which the policy closes, the exit the first later one in whose bar both legs traded |
| `Simulator.NoEarlierCloseReadsTheLast` | src/options_alpha_lab/veto_exits.py:143-198 | with no close before the entry index -1 reads the last close of all |
| `Scheduler.StopNeedsEverything` | src/options_alpha_lab/scheduler.py:139-225 | what must all hold at once for a stop; exactly when a running server is stopped is `RunningServerIsStopped` |
| `Scheduler.Instance.Tick` | deploy/scheduler/handler.py:190-254 | gathers, decides and carries out, call by call, with every call's failure; what it then starts and stops is read off the calendar by the next two rows |
| `Scheduler.RunningServerIsStopped` | src/options_alpha_lab/scheduler.py:93-225 | a live tick stops a running server exactly when no lock is in its time or grace, the server says it is ready, the date is covered, and the moment lies outside an hour before the open to ninety minutes past the close of every session of that date |
| `Scheduler.StoppedServerIsStartedExactly` | src/options_alpha_lab/scheduler.py:93-225 | a live tick starts a stopped server exactly when a lock wants it, a badly written one included, or the moment is inside such a window or past the coverage |
| `Scheduler.RewritesReads` | deploy/scheduler/handler.py:202-216 | a badly written lock, and no other, is rewritten to end 24 hours from now, with its reason kept and no key removed |
| `Scheduler.AlertsRead` | src/options_alpha_lab/scheduler.py:139-225 | which alerts a decision raises, and when |
| `Scheduler.LockHeldForbidsStops` | src/options_alpha_lab/scheduler.py:161-201 | a valid lock left in place forbids every stop until its expiry and grace have passed |
| `Scheduler.StoppedServerIsStarted` | src/options_alpha_lab/scheduler.py:93-105 | for a calendar whose sessions' windows stay on their dates, every live tick inside a session's window starts a stopped server |
| `Scheduler.StartedOnItsDate` | src/options_alpha_lab/scheduler.py:93-105 | whatever the calendar, so does every live tick in the window that falls on the session's own date |
| `Scheduler.NoStartAfterStop` | src/options_alpha_lab/scheduler.py:139-225 | after a stop no start is issued until the tags change or a run window begins |
| `Scheduler.LockRunsOut` | src/options_alpha_lab/scheduler.py:56-90 | with no unrecognised key, untouched tags and rewrites that succeed: no step but the first tick rewrites, wherever in the run that tick is, and from 24 h 15 min after it the lock decides nothing |
| `Scheduler.StrayKeyPinsTheServer` | deploy/scheduler/handler.py:202-216 | an unrecognised key outlives every rewrite and no tick of the run stops the server |
| `Attribution.AttributionCharacterised` | src/options_alpha_lab/veto_replay.py:133-167 | under a qualifying bullish anchor with a confirmation: permitted exactly when nothing opposes, breadth-vetoed exactly when something does and all of it is participation, other otherwise |
| `Attribution.AttributionElsewhere` | src/options_alpha_lab/veto_replay.py:133-167 | every other session is out of scope or without a setup: the buckets are total and exclusive |
| `Attribution.ClassifyUnderAnchor` | src/options_alpha_lab/components.py:110-154 | the classifier qualifies exactly with a confirmation and no contradiction |
| `Attribution.ClassifyReads` | src/options_alpha_lab/components.py:110-175 | for both directions: it qualifies exactly when some strongest anchor has a confirmation and no contradiction, on those two as evidence, with a level one and a half percent on the losing side of the price |
| `Attribution.CounterfactualKeepsSetup` | src/options_alpha_lab/veto_replay.py:125-167 | the counterfactual setup keeps the anchor, the confirmation and the invalidation |
| `Portfolio.Run` | src/options_alpha_lab/veto_portfolio.py:59-99 | the online loop keeps the history the quadratic specification gives, and totals that say the same: equity, peak, worst fall, yearly sums, unresolved days; it raises exactly when that history reaches an entry that lacks the debit, trade, exit or window it reads |
| `Portfolio.FatesRead` | src/options_alpha_lab/veto_portfolio.py:62-92 | what becomes of each entry: capacity while an earlier position stands, then its own status, then its estimated loss against 0.75% of the equity standing before it |
| `Portfolio.TradedReads` | src/options_alpha_lab/veto_portfolio.py:53-92 | a trade taken over brings its own result on the day of its exit, or, unresolved, loses its whole debit at its window's end |
| `Portfolio.CurveReads` | src/options_alpha_lab/veto_portfolio.py:59-99 | the equity starts at a hundred thousand and moves by each traded result and by nothing else |
| `Portfolio.HistoryUnique` | src/options_alpha_lab/veto_portfolio.py:59-99 | the specification leaves one history |
| `Portfolio.HistoryUnlessRaised` | src/options_alpha_lab/veto_portfolio.py:59-99 | entries have a history exactly when the loop raises on none of them |
| `Portfolio.PositionsNeverOverlap` | src/options_alpha_lab/veto_portfolio.py:64-70 | a position is taken only after every earlier one has ended |
| `Portfolio.TradesFitTheBudget` | src/options_alpha_lab/veto_portfolio.py:75-80 | each traded entry's estimated loss fits 0.75% of the equity standing before it |
| `Portfolio.YearlySumsAddUp` | src/options_alpha_lab/veto_portfolio.py:93-99 | the yearly sums add up to every result |
| `Portfolio.WindowEnds` | src/options_alpha_lab/veto_portfolio.py:102-110 | four sessions on, or the last there is; an unknown session raises |
| `Offsite.DailyFollowsItsSession` | src/options_alpha_lab/offsite.py:216-250 | a covered daily copy was taken at least fifteen minutes past its session's close, and before the next open exactly when no session is still inside its own lag |
| `Offsite.DailyIsItsOwnSession` | src/options_alpha_lab/offsite.py:216-250 | for a calendar whose sessions close by 23:45 every covered daily copy precedes the next session's open |
| `Offsite.LateCloseMisplacesADump` | src/options_alpha_lab/offsite.py:235-245 | a close at 23:50 puts the dump of 00:02 under the session before it |
| `Offsite.WeeklyIsTheLastOfItsWeek` | src/options_alpha_lab/offsite.py:242-245 | a weekly copy accompanies a daily one exactly for the last session of its week |
| `Offsite.CoveredKeys` | src/options_alpha_lab/offsite.py:216-250 | within the coverage a dump is kept under the last session closed for a quarter of an hour, not while its own date's session is open or closed no longer ago, and weekly exactly when no later session falls in that week |
| `Offsite.UncoveredKeys` | src/options_alpha_lab/offsite.py:216-250 | past the coverage a dump is kept under its own date, and weekly on a Sunday |
| `Offsite.SourceReads` | src/options_alpha_lab/offsite.py:173-213 | a dump is accepted exactly when it was verified, is at most 130 minutes old and is as long as its record says |
| `Offsite.Oss.RunOffsite` | src/options_alpha_lab/offsite.py:343-411 | a pass overwrites and removes nothing, adds only its own dump under its own keys, uploads nothing unless every listing could be read or when all keys were present, and succeeds exactly when the source is accepted and every listing, the encryption and every upload go through, with every key then present at the size that was sent |
| `Offsite.Oss.Upload` | src/options_alpha_lab/offsite.py:383-402 | each missing key gets the same ciphertext and is checked as it lands; what lands is every key up to the first failure, and that failure is what it returns |
| `Offsite.Passes` | src/options_alpha_lab/offsite.py:343-411 | over any sequence of passes and failures: each pass does what one pass may, no object is overwritten, and each is where its dump's time puts it |
| `Offsite.SuccessSettles` | src/options_alpha_lab/offsite.py:343-411 | after a pass that succeeded every later pass on the same dump, succeeding or failing, leaves the bucket as it is and uploads nothing |
| `Revision.SelectPair` | src/options_alpha_lab/agents.py:85-120 | the nested loops and the minimum give the first least candidate pair |
| `Revision.PairsExactly` | src/options_alpha_lab/agents.py:90-105 | the candidates are the pairs of two listed quotes with one expiry and different strikes, oriented by direction |
| `Revision.LeastIsLeast` | src/options_alpha_lab/agents.py:110-120 | the chosen pair is a candidate and none is less |
| `Revision.ProposalReads` | src/options_alpha_lab/agents.py:41-120 | what is proposed: a pair whose strikes are nearest as the source ranks them, at the worst quotes, in the type the direction asks for; nothing where none fits, and otherwise nothing only where a nearest one costs nothing |
| `Revision.RiskGate.Evaluate` | src/options_alpha_lab/risk.py:18-143 | every reason in the order it is found, the approval, and the suggested quantity |
| `Revision.ReasonsRead` | src/options_alpha_lab/risk.py:18-175 | each reason the gate can give is given exactly when what it says of thesis, shape, days, quotes, snapshot and size is so |
| `Revision.ProposerMeetsTheGate` | src/options_alpha_lab/agents.py:41-82 | with unique symbols the gate finds no structural fault with a proposed spread: only thesis, quotes, width and size can refuse it |
| `Revision.SuggestionIsExact` | src/options_alpha_lab/risk.py:115-143 | a quantity is approved exactly when it is at least one and at most the suggestion |
| `Revision.NoSuggestionNoCure` | src/options_alpha_lab/risk.py:115-143 | at the policy's own quantity, a rejection without a suggestion means no quantity would be approved |
| `Revision.CurableWithoutSuggestion` | src/options_alpha_lab/risk.py:101-143 | the gate rejects without a suggestion although some quantity would pass exactly when nothing else is wrong, one contract fits the budget, and the quantity is below one or above the policy's and within the budget |
| `Revision.RunExperiment` | src/options_alpha_lab/orchestrator.py:17-97 | one revision suffices: the experiment ends in a trade exactly when some quantity of the proposed spread passes the gate, on the same legs and with the largest such quantity; its trace is exactly the messages of one proposal, and of one revision where the gate suggests a quantity |

## Left out

- Floating point: `float` arithmetic in the bootstrap, the pricing and the portfolio is over exact reals, and `Decimal` quotients are exact before they are rounded.
- Pricing formulas: `price`, `delta`, `_cdf` and the rate table are an arbitrary function of volatility; only the root finder and its acceptance are modelled.
- Brent.Solve: the early exit on `a == b` is not written, because the ends always carry opposite signs there.
- Time zones: dates are read in one zone, so the fallback key of a dump past the calendar's coverage uses that zone's date instead of the UTC date.
- Agent.TradingAgent.Tick: exceptions that the cycle does not catch itself (a failing store outside the management of a position, a leg missing from the chain) are not modelled; they end the tick in the caller.
- Agent.Run: each call is one step; of the points at which the process may stop inside one, the two between committing an intent and sending its order are modelled (`Stuck`).
- Agent.TradingAgent.ManagePositions: the incident ids attached to results, the elapsed time and the texts are not modelled.
- Reconciliation.Reconciler.Reconcile: how broker quantities are attributed to rows (`_consume`, `_contested_symbols`) is an input: each row is shown some remaining quantity, whether it matches, and whether it is contested.
- Reconciliation.Reconciler.ReconcileOne: individual fills per leg are not stored, and the incident table is reduced to its effect on rows.
- Lifecycle.LifecycleStore.PrepareEntry: rows are appended in recorded order; two rows recorded at the same instant are not reordered by their ids.
- Deadlines.DeadlineEnforcer.Enforce: the note that a cancel was requested, and informational incidents, change nothing here.
- Simulator.Simulate: trade payloads, dividends and the loading of bars are not modelled.
- Portfolio.Run: the summary statistics over a finished path are not modelled.
- Outcomes.ReviewStore.Review: `realized` from fills, and the summary counters, are not modelled; snapshots of one time keep their stored order.
- Scheduler.Instance.Tick: the health check after a start and the reading of CloudMonitor are inputs; alerts are events without text.
- Selector.Select: the invalidation level of zero or below, which the classifier refuses, and the thesis text are not modelled.
- Offsite.Oss.RunOffsite: encryption is an input that gives a size or fails; reading the recipient, parsing listings and the status file are not modelled.
- Revision.RunExperiment: thesis texts are either blank or distinct contents; the trace keeps the kinds of its messages only.
- Recorder, telemetry, presentation, deployment and export scripts, the strategy catalogue, the cadence filter, session clusters, evidence gates and snapshot serialization hold no state and no search that the results here depend on.
