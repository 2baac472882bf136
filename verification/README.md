# DevBoard in Dafny

DevBoard shows what coding agents on several Macs are doing. A node on each Mac reduces hook events into
task cards, agents and alerts and pushes snapshots of them to a hub; the hub orders the snapshots, serves a
dashboard, merges quota observations and queues navigation actions back to the nodes. Beside that, an
activator fires scheduled requests, a strict loader reads one configuration file, and an editor maintains
DevBoard's handlers inside other programs' hook files.

This project models that logic and proves properties of it over all inputs and all runs. Where the source
updates things in place, the model is a class or a method with loops, tied by its `ensures` to a function of
the old state; the laws are proved about those functions. Safety laws say what never happens; the modules
whose names end in `Answers`, and laws like theirs elsewhere, say what each operation must do, in terms of its inputs'
fields and with the source's constants written out.

| part | files |
|---|---|
| shared vocabulary | `Basics`, `PublicModel` |
| snapshot protocol, hub side | `HubStore`, `HubHistory`, `HubAnswers`, `HubValidation` |
| snapshot protocol, node side and joint runs | `Uplink`, `SnapshotProtocol`, `SnapshotAnswers` |
| agent lifecycle reducer | `AgentModel`, `AlertBook`, `TaskCards`, `Lifecycle`, `LifecycleInvariant`, `ReducerModel`, `ReducerSteps`, `ReducerRuns`, `ReducerViews`, `ReducerFinality`, `ReducerAnswers`, `ReducerLimits`, `ReducerBreaks`, `AgentReducer` |
| node state store, projection and clicks | `StateStore`, `Projection`, `ClickThrough` |
| hub read side | `QuotaMerge`, `Navigation` |
| quota activation | `QuotaActivation`, `ActivationCycle`, `ScheduleText` |
| hook-file editor | `HookEditor` |
| configuration file | `ConfigText`, `ConfigQuote`, `ConfigValue`, `ConfigGrammar`, `ConfigAnswers`, `ConfigSchema`, `ConfigRules`, `ConfigRoundTrip`, `ConfigDefaults`, `ConfigFailures` |

## How the system is modelled

- Instants are integers in nanoseconds; zero is the zero time. Clock readings, provider answers, replies,
  entropy and the network are inputs of a step, so a law over all inputs is a law over all of them.
- SHA-256 and the JSON encoding are injective; a digest carries what it was taken of. Task, agent and target
  ids are injective in what they are derived from. Session ids are drawn outside the set used before.
- The network keeps every envelope ever sent deliverable, any number of times, in any order, at any instant,
  or never. What reply the node sees is unrelated to what the hub did.
- A locked method is one atomic step.
- The reducer's runs start from the empty state and interleave events, display acknowledgements and
  maintenance in any way. A *regular* run evicts no session and opens no turn whose id is white space only;
  an *ordinary* run evicts no session, its turns have any name, and its instants come after the zero time. What is
  said of finished cards of named turns holds in every run, whatever is evicted and whatever other turns are called.
- A *behaviour* of node and hub assumes fresh session ids and nothing about clocks. Laws that need a clock say so:
  one that does not run backwards within a session, or, in a *steady* run, one that never does.
- A schedule slot is a minute of a fixed-offset clock; its text key sorts the way the minutes do.
- Library validators (time zones, probe addresses, peer endpoints, URLs) and the table of printable
  characters are parameters of the configuration model.

## Where the code does less than it says

- *A conflicted session is never reused* (internal/uplink/scheduler.go:409-414). It is, after a hold, whenever a
  change of state is answered before a resync: when no new id could be generated (`ConflictedSessionReused`), and,
  with ids always at hand, when the new session is refused as well (`RepeatedConflictReused`).
  `ConflictedSessionReusedIff` is the exact condition, over every behaviour.
- Card identity is lost when session metadata is evicted, and also, with no eviction, when a turn id is white space
  only: the replay check trims the id and then lets every such prompt through. `OpeningKeepsCardsDistinctIff` is the
  exact condition; `EvictionDuplicatesCard` and `BlankTurnDuplicatesCard` give a run from the empty state for every
  configuration. Agents and alerts still agree in the second kind of run (`ViewsAgreeWithAnyTurnNames`).
- An error is kept until a later stop recovers it, and a finished card keeps its lifecycle: not for a turn whose id is
  white space only (the Claude adapter takes the prompt id as it is, internal/agent/adapters.go:206). Such a turn can
  be opened again while its failed card is retained; its next event puts that card back to work, and the next prompt
  drops it as abandoned. `UnrecoveredErrorLost` is a run, without any stop or eviction, for every configuration;
  `OpeningExposesIff` is the exact condition. For all other cards both laws hold in every run, evictions included
  (`ProtectedCardSurvives`, `TerminalIsFinal`, `DeliveredUntilSeen`).
- `quotaPreferred` runs in circles when sample times are missing (`PreferenceCycles`), so the merged entry can depend
  on host order; `OrderIrrelevantIff` says exactly when it does not.
- A retained report *must not outrank a fresh observation* (internal/hub/store.go:254-256). Only an available one is
  safe from it in both orders (`UnshakenIff`); marking it degraded lifts it above an online host's unavailable report
  (`RetainedReportPrevails`). `RetainedReportShownIff` says exactly when the list shows one.
- Saving and loading a configuration *is guaranteed to roundtrip* (internal/config/persist.go:90-93). It gives the
  canonical form, exactly when no peer's endpoint is blank or holds a comma (`SaveThenLoadIff`); no rule of
  the validator itself forbids a comma there, it is left to the address library (internal/config/config.go:552-566),
  and `CommaEndpointLost` is the configuration that is lost wherever the library lets one pass.
  The file comes back unchanged exactly when nothing in it is padded, capitalised or retired (`ExactRoundTripIff`,
  `PaddedZoneChanges`).
- A configuration with the legacy interval is migrated to explicit times, and then refused when that gives more than
  twelve; `LegacyFileLoadsIff`, `HourlyFromMidnightRefused`.
- A time such as `+9:05` passes the validator and never fires (`SignedTimeNeverFires`); an accepted time fires exactly
  when it holds no sign (`AcceptedTimeFiresIff`).

## Model

| member | source | states |
|---|---|---|
| `HubStore.NodeStateStore.constructor` | internal/hub/store.go:61-69 | every registered node starts with an empty record and no read overlay |
| `HubStore.NodeStateStore.Apply` | internal/hub/store.go:106-176 | the verdict of the ordering rules; refusals leave the record alone, acceptance replaces it, retires the old session and prunes the overlay |
| `HubStore.NodeStateStore.PruneReadAcks` | internal/hub/store.go:178-192 | exactly the overlay entries whose card is still present survive |
| `HubStore.NodeStateStore.MarkTaskRead` | internal/hub/store.go:72-93 | succeeds exactly for a terminal task of the current state bound to that target, and then records it |
| `HubStore.NodeStateStore.Dashboard` | internal/hub/store.go:197-232 | one view per registered host in order, with connection status, retention, freshness and overlay from the read instant |
| `HubStore.NodeStateStore.ApplyReadAcks` | internal/hub/store.go:234-244 | overlaid tasks are read, everything else is unchanged |
| `HubHistory.ReceiveKeepsFaithful` | internal/hub/store.go:117-175 | any packet keeps: the record is the newest accepted one, earlier sessions are exactly the retired ones, blocks are ordered |
| `HubHistory.AcceptedTuples` | internal/hub/store.go:34-45 | over every run accepted (session, sequence) pairs are distinct, sequences rise within a session, and each session is one contiguous block |
| `HubHistory.RedeliveryIsInert` | internal/hub/store.go:117-130 | a packet accepted before can arrive again at any time and touches neither state, ordering data nor retired set; only the newest may refresh liveness |
| `HubHistory.HostIsolation` | internal/hub/store.go:106-116 | a host's record depends only on the packets delivered for that host |
| `HubHistory.FreshnessBound` | internal/hub/store.go:197-229 | after any run a host shown fresh has state at most 35 s old, and any shown state is at most 30 min 30 s old |
| `HubHistory.OverlayStep` | internal/hub/store.go:172-192 | an acknowledged task leaves the overlay exactly when an accepted snapshot of its host omits it |
| `HubHistory.OverlayPersists` | internal/hub/store.go:234-244 | through any run without such a snapshot the card is shown as read on every dashboard |
| `HubAnswers.VerdictMeans` | internal/hub/store.go:106-160 | after any arrivals each verdict on one more packet says what it means in terms of the packets accepted so far: goes on or not, young or not, the newest again, its place taken, earlier session, older instant |
| `HubAnswers.PacketIsAnswered` | internal/hub/store.go:106-176 | after any arrivals a packet that goes on from the newest and is at most 30 s old becomes the newest, with its state and receipt; the newest again refreshes the receipt; anything else changes nothing |
| `HubAnswers.RedeliveryRefreshes` | internal/hub/store.go:119-127 | redelivering the newest accepted packet at most 30 s after its generation makes that instant the last receipt, later it changes nothing at all |
| `HubAnswers.DashboardShows` | internal/hub/store.go:197-244 | after any run a host is online exactly up to 5 s after it was last heard from, stale up to 30 s, offline later; its newest accepted state is shown for 30 minutes, fresh while online, with acknowledged cards read |
| `HubAnswers.AcceptedIsShown` | internal/hub/store.go:106-232 | an accepted packet is on the dashboard, online and fresh, on every read at most 5 s after its receipt |
| `HubAnswers.AcknowledgementIsTaken` | internal/hub/store.go:72-93 | an acknowledgement is taken exactly when it names a finished card on show by its target, and touches no other card |
| `HubValidation.DuplicateOrEmpty` | internal/hub/validation.go:148-174 | true exactly when an id is empty or occurs twice |
| `HubValidation.ValidateNestedState` | internal/hub/validation.go:116-146 | passes exactly the node's own public state, stamped like its envelope, at most two minutes ahead and naming nothing twice; a rejection names a rule that is broken |
| `HubValidation.EnvelopeMeans` | internal/hub/validation.go:91-114 | the envelope passes exactly with version, kind, ids, sequence and instant in order |
| `Uplink.Scheduler.constructor` | internal/uplink/scheduler.go:401-413 | a new session at sequence zero with nothing pending |
| `Uplink.Scheduler.Attempt` | internal/uplink/scheduler.go:294-382 | what one send cycle sends and leaves behind: exact retry, new envelope under the next sequence, or nothing |
| `Uplink.Scheduler.ApplyReply` | internal/uplink/scheduler.go:318-382 | how each reply class moves pending, backoff, hold and conflict flags |
| `Uplink.Scheduler.Resync` | internal/uplink/scheduler.go:415-426 | a new session at sequence zero, or the hold when no id could be generated |
| `Uplink.Scheduler.RunTurn` | internal/uplink/scheduler.go:173-255 | one pass of the event loop; it sends exactly when an owed resync, a retained envelope, an owed or a fresh change, or an idle tick is due and an envelope is at hand or can be built; what it sends and what each reply leaves behind |
| `Uplink.SendsIff` | internal/uplink/scheduler.go:173-382 | the same of the turn as a function: when it sends, under which session and sequence, and what the reply does, waits of 1, 2, 4, 8 and 15 s included |
| `Uplink.ChangeIsRemembered` | internal/uplink/scheduler.go:190-228 | a change heard while an envelope is under way is owed until it is looked at again, and nothing else is |
| `SnapshotProtocol.StepKeepsSound` | internal/uplink/scheduler.go:294-382 | every step, with clocks that read anything, keeps: a (session, sequence) pair names one envelope, the pending one was sent, the hub's log holds sent envelopes only |
| `SnapshotProtocol.TupleNamesEnvelope` | internal/uplink/scheduler.go:110-142 | in every behaviour, whatever the clocks do, two sent envelopes with the same session and sequence are equal |
| `SnapshotProtocol.MismatchUnreachable` | internal/hub/store.go:117-130 | in every behaviour, whatever the clocks do, the hub never finds a tuple mismatch |
| `SnapshotProtocol.GenerationNeverDecreases` | internal/hub/store.go:106-176 | over every interleaving the generation instant of the accepted state never decreases, given a node clock that does not run backwards within one session; across a resync or restart it may |
| `SnapshotProtocol.RegressionPossibleIff` | internal/hub/store.go:131-160 | at any point of any behaviour, with hub clocks that read anything, the network can make the hub's accepted instant go back exactly when two envelopes of one session carry instants against their sequence and the first of them is the newest accepted one or would still be accepted |
| `SnapshotProtocol.RegressionInTimeIff` | internal/hub/store.go:131-160 | the same for hub clocks that never run backwards and packets that pass the future test: exactly when, besides, the second is not too old yet and the first is the newest accepted one or at most two and a half minutes later |
| `SnapshotProtocol.SetBackIsBounded` | internal/hub/validation.go:13-18 | through any such arrivals the accepted instant is never more than two and a half minutes behind where it once was |
| `SnapshotProtocol.SendDiscipline` | internal/uplink/scheduler.go:294-399 | nothing is sent before the hold; a retained envelope goes out unchanged and not before its backoff, or is replaced under the next sequence once it expired |
| `SnapshotProtocol.FirstConflictOpensNewSession` | internal/uplink/scheduler.go:359-382 | after a first 409, at start-up or later, the next turn takes a never-used session and sends sequence 1 under it |
| `SnapshotProtocol.ResyncOwedIffFirstConflict` | internal/uplink/scheduler.go:359-382 | a first 409 makes a resync owed, and nothing else does |
| `SnapshotProtocol.HoldRespected` | internal/uplink/scheduler.go:345-382 | after a 401/403, the start-up send's included, or a repeated 409, no turn of the process sends before the slow interval is over |
| `SnapshotProtocol.ConflictedSessionReusedIff` | internal/uplink/scheduler.go:173-228 | in every behaviour, a turn sends under a session whose latest reply was a conflict exactly when that is the node's session, the loop top does not resynchronise, and the owed-state guard or a change wake answers a change after the hold |
| `SnapshotProtocol.ConflictedSessionReused` | internal/uplink/scheduler.go:173-228 | a run in which it happens because no session id could be generated |
| `SnapshotProtocol.RepeatedConflictReused` | internal/uplink/scheduler.go:359-382 | a steady run in which it happens because the new session was refused too |
| `SnapshotAnswers.DueSnapshotIsTaken` | internal/uplink/scheduler.go:229-252 | in every behaviour a due turn's new snapshot, arriving next and within 30 s at a hub that knows the session or is ready for it, becomes the hub's state and a sign of life |
| `AgentModel.AgentIdInjective` | internal/agent/reducer.go:424-433 | agent ids separate sessions |
| `AlertBook.UpsertEdits` | internal/agent/reducer.go:651-676 | raising an alert for the current turn adds its flag, keeps alerts unique and touches no other agent |
| `AlertBook.ResolveEdits` | internal/agent/reducer.go:678-690 | resolving takes exactly that flag away |
| `AlertBook.ResolveAllEdits` | internal/agent/reducer.go:692-699 | resolving all leaves the agent without flags |
| `LifecycleInvariant.WorkingOk` | internal/agent/reducer.go:547-559 | going to work leaves the agent without flags |
| `LifecycleInvariant.AttentionOk` | internal/agent/reducer.go:570-582 | attention adds its flag and drops the stale one |
| `LifecycleInvariant.CompleteOk` | internal/agent/reducer.go:584-596 | completion leaves the completion flag only |
| `LifecycleInvariant.ErrorOk` | internal/agent/reducer.go:598-615 | failure leaves the error flag only |
| `LifecycleInvariant.StickyUnreachable` | internal/agent/reducer.go:226-262 | as long as agent, alerts and cards agree, the branch that keeps an uncleared attention is never taken |
| `LifecycleInvariant.TurnEventLocal` | internal/agent/reducer.go:226-296 | an event of the current turn keeps agent, alerts and cards of its session in agreement and moves nothing else |
| `LifecycleInvariant.EndedLocal` | internal/agent/reducer.go:519-545 | so does a session end |
| `LifecycleInvariant.DegradedStopLocal` | internal/agent/reducer.go:203-223 | so does a Claude stop that lacks the optional background-work counts |
| `ReducerSteps.NewTurnHasNoCard` | internal/agent/reducer.go:316-331 | in agreement, a prompt that passes the replay check and opens a turn finds no card of that turn |
| `ReducerSteps.ReduceKeeps` | internal/agent/reducer.go:151-314 | every event keeps the agreement of all sessions |
| `ReducerSteps.MaintainedKeeps` | internal/agent/reducer.go:701-777 | so does a maintenance pass |
| `ReducerAnswers.CardShowsAgent` | internal/agent/task_reducer.go:292-308 | in every regular run a card of its agent's turn is complete or failed exactly when the turn is, calls for attention exactly while the agent waits, and is at work otherwise |
| `ReducerAnswers.EventIsAnswered` | internal/agent/reducer.go:196-297 | in every regular run, by the event's fields: requests raise attention of their kind, silent Codex permission requests and tool use put the turn to work, as do Claude stops that give both counts and one positive; other stops complete it, failures fail it, idle prompts rest it; other cards move only when a full stop recovers them |
| `ReducerAnswers.LateEventIgnored` | internal/agent/reducer.go:172-232 | from any state an event of a turn that is over, not running, or already further on changes nothing |
| `ReducerAnswers.UnnamedEventMarksStale` | internal/agent/reducer.go:180-192 | an event that names no turn moves no card and at most makes its busy agent look stale |
| `ReducerAnswers.SessionEndIsAnswered` | internal/agent/reducer.go:519-545 | in every regular run a session end idles the agent and leaves an unfinished card of its turn stale, unless the session has gone further already |
| `ReducerAnswers.PromptIsAnswered` | internal/agent/reducer.go:316-349 | in every regular run a prompt of a turn that ended changes nothing, one of a turn that runs or was left reads what was delivered, any other opens its turn: working agent, new card, no alerts, finished cards read, unfinished ones gone |
| `ReducerAnswers.PromptMovesOn` | internal/agent/reducer.go:435-463 | what the session remembers then, the turns left behind included |
| `ReducerAnswers.PassIsAnswered` | internal/agent/reducer.go:701-770 | in every regular run a maintenance pass makes exactly the late agents stale, with card and notice, and drops exactly the cards and notices whose time is up |
| `ReducerAnswers.AcknowledgementIsAnswered` | internal/state/task_ack.go:15-24 | a display's acknowledgement reads the finished card it names, once, and nothing else |
| `ReducerAnswers.RepeatIsInert` | internal/agent/reducer.go:103-149 | in every run an event delivered again within the replay memory's length changes nothing |
| `ReducerAnswers.CompletionIsNoticed` | internal/agent/reducer.go:584-596 | a stop that completes a turn raises a notice with its two deadlines |
| `ReducerModel.MaintenanceGuardExact` | internal/agent/reducer.go:779-808 | the guard is true exactly when the pass would change something, and false right after a pass |
| `ReducerRuns.ViewsAgree` | internal/agent/reducer.go:435-472 | in every regular run: one alert per (type, agent, turn), active alerts are for the current turn, attention and error flags mirror activity and outcome both ways, completion and staleness flags imply theirs |
| `ReducerViews.ViewsAgreeWithAnyTurnNames` | internal/agent/reducer.go:226-296 | the same in every ordinary run, where turns may be named by white space and cards duplicated |
| `ReducerViews.StepCalm` | internal/agent/reducer.go:151-314 | every step keeps that agreement together with the instants of all cards' attention |
| `ReducerRuns.CardsAndAgentsUnique` | internal/agent/reducer.go:435-486 | in every regular run cards and agents are unique and a session has at most one live card |
| `ReducerFinality.AlwaysOrderly` | internal/agent/reducer.go:151-314 | in every run, evictions included: agents are distinct, of a named turn's cards only the first may be finished, it shows its agent's outcome while the agent is not at work, and a running turn without a terminal mark has no finished card |
| `ReducerFinality.StepKeepsEnd` | internal/agent/reducer.go:194-202 | from such a state a finished card of a named turn is gone after a step exactly when the step is a maintenance pass that finds its time up; otherwise it keeps its lifecycle, its read mark and its recovery mark |
| `ReducerFinality.TerminalIsFinal` | internal/agent/task_reducer.go:292-326 | in every run, once a named turn's card is complete or failed, read or not, it stays so with its read and recovery marks, through late hooks and evictions, until a maintenance pass finds its time up |
| `ReducerFinality.RecoveryNeedsAStop` | internal/agent/reducer.go:617-633 | from any state whatever, a card with a recovery mark had it before the step, or was an unmarked error and the step is a full stop of a different turn of its session, whose instant the mark carries |
| `ReducerFinality.RecoveredByAStop` | internal/agent/reducer.go:617-633 | in every run, a recovery mark names the instant of an earlier such stop |
| `ReducerFinality.ProtectedStays` | internal/agent/reducer.go:748-764 | from any state whatever, no step drops an unread terminal card or an unrecovered error, though a white-space turn may rewrite it |
| `ReducerFinality.ProtectedCardSurvives` | internal/agent/reducer.go:748-764 | in every run, after each step such a card is there with its key, its lifecycle and its marks, unless its turn's id is white space |
| `ReducerFinality.DeliveredUntilSeen` | internal/agent/reducer.go:748-764 | in every run a finished card of a named turn is still there, saying the same, or was earlier read and, if an error, recovered |
| `ReducerFinality.OpeningExposesIff` | internal/agent/reducer.go:316-331 | a prompt that opens a turn leaves a finished card under a running turn without a terminal mark exactly when the turn's id is white space and a finished card of it is retained |
| `ReducerFinality.OnlyBlankExposed` | internal/agent/reducer.go:316-331 | in every run, only white-space turns are ever in that state |
| `ReducerLimits.OpeningKeepsCardsDistinctIff` | internal/agent/reducer.go:474-486 | opening a turn keeps cards unique exactly when no card of it is retained |
| `ReducerLimits.EvictionForgets` | internal/agent/reducer.go:115-131 | a new session that finds the table full costs the oldest its metadata |
| `ReducerLimits.ForgottenTurnReopens` | internal/agent/reducer.go:476-484 | a repeated prompt of a forgotten, still working turn adds a second card for it |
| `ReducerBreaks.EvictionDuplicatesCard` | internal/agent/reducer.go:115-139 | for every configuration, a run from the empty state in which an eviction ends in two cards for one working turn |
| `ReducerBreaks.BlankTurnDuplicatesCard` | internal/agent/reducer.go:316-331 | for every configuration, a run of one session from the empty state that ends in two cards for a white-space turn |
| `ReducerBreaks.BlankRunEvictsNobody` | internal/agent/reducer.go:122-131 | no input of that run evicts a session |
| `ReducerBreaks.UnrecoveredErrorLost` | internal/agent/reducer.go:474-484 | for every configuration, a run of one session from the empty state, with no stop and no eviction, in which a tool use puts an unrecovered error back to work and the next prompt drops it |
| `AgentReducer.Reducer.constructor` | internal/agent/reducer.go:69-99 | empty state |
| `AgentReducer.Reducer.DropAbandonedTasks` | internal/agent/reducer.go:474-484 | the compaction loop keeps exactly the standing cards, in order |
| `AgentReducer.Reducer.ReduceEvent` | internal/agent/reducer.go:151-314 | the root and metadata after any event |
| `AgentReducer.Reducer.Submit` | internal/agent/reducer.go:103-139 | de-duplication, session table with eviction, reduction and event memory; a failed event leaves the shared state alone |
| `AgentReducer.Reducer.AcknowledgeTask` | internal/state/task_ack.go:8-46 | whether the card may be acknowledged, and the root with its read time set once |
| `AgentReducer.Reducer.Sweep` | internal/agent/reducer.go:730-775 | the compaction loops keep exactly the lasting alerts and the kept cards, in order |
| `AgentReducer.Reducer.Maintenance` | internal/agent/reducer.go:701-777 | the guarded pass |
| `StateStore.Store.Update` | internal/state/store.go:26-36 | a successful mutation is committed and announced, a failed one leaves no trace |
| `StateStore.Store.UpdateIf` | internal/state/store.go:42-58 | nothing at all happens when the predicate is false |
| `StateStore.NoLostWake` | internal/state/store.go:67-85 | in every run of commits, wakes taken and later reads, a consumer with no wake pending or unread has read the latest commit |
| `StateStore.MaintenanceWakesIffChanged` | internal/state/store.go:38-58 | a maintenance tick is a commit exactly when it changes something, and a second one at the same instant does nothing |
| `Projection.ProjectPublic` | internal/state/projector.go:20-68 | the agents, tasks and targets published for a root |
| `Projection.ReachableSnapshotsAreWellFormed` | internal/hub/validation.go:91-146 | every snapshot built from a regular run passes the hub's id and binding checks, and is refused exactly when stamped too far in the future |
| `ClickThrough.CardIsPublished` | internal/state/projector.go:20-68 | a card is published under its own id, unread exactly while finished and unread, with a way to its session that is among the published targets |
| `ClickThrough.EveryCardIsLed` | internal/agent/reducer.go:488-510 | in every run every card's session has a registered target |
| `ClickThrough.ClickIsTaken` | internal/hub/actions.go:41-94 | in every run the hub takes a click on any published card while fewer than 32 actions wait |
| `ClickThrough.ClickReads` | internal/state/task_ack.go:15-24 | in every run, once the node executes the click on a finished card, that card is published as read |
| `QuotaMerge.DedupeQuota` | internal/hub/store.go:246-284 | in order of provider, label and account, exactly one entry per observed key: one that was observed, whose status no report of the key betters, and with sample times the latest of its status, by its least observer |
| `QuotaMerge.SecondReportIff` | internal/hub/store.go:295-313 | of two reports of a key the second is shown exactly when it is better by status, then by sample time, then by observer |
| `QuotaMerge.AccountsAppearOnce` | internal/hub/store.go:246-273 | no named account has two entries |
| `QuotaMerge.AccountsAppear` | internal/hub/store.go:246-273 | every named account a host reports has an entry |
| `QuotaMerge.UnnamedReportsAppear` | internal/hub/store.go:246-273 | a report without an account is listed as it is, degraded unless its host is online |
| `QuotaMerge.MergeReports` | internal/hub/store.go:246-273 | the indexed loops compute the plain fold over all reports |
| `QuotaMerge.MergedRepresents` | internal/hub/store.go:246-273 | the fold has one entry per key and it is what is left after all observations of that key competed in order |
| `QuotaMerge.PreferenceIsStrict` | internal/hub/store.go:295-313 | preference is asymmetric, and total up to equal merit on sampled observations |
| `QuotaMerge.PreferenceComposes` | internal/hub/store.go:295-313 | and transitive there |
| `QuotaMerge.PreferenceCycles` | internal/hub/store.go:309-312 | three observations that beat each other in a circle |
| `QuotaMerge.EntriesAreBest` | internal/hub/store.go:246-313 | with sample times everywhere each entry beats or equals every observation of its key |
| `QuotaMerge.HostOrderIrrelevant` | internal/hub/store.go:246-313 | and reordering the hosts changes neither keys nor merit |
| `QuotaMerge.OrderIrrelevantIff` | internal/hub/store.go:295-313 | for any observations, the winner's merit is the same in every order exactly when one of them dominates the rest |
| `QuotaMerge.AvailableIsReported` | internal/hub/store.go:254-259 | an available entry was reported exactly so by an online host |
| `QuotaMerge.UnshakenIff` | internal/hub/store.go:254-259 | a report is left standing against every retained one, in both orders, exactly when it is available |
| `QuotaMerge.AvailableReportPrevails` | internal/hub/store.go:254-273 | on the whole list, a key some online host reports available shows an online host's entry |
| `QuotaMerge.RetainedReportPrevails` | internal/hub/store.go:254-273 | and one that online hosts report only as unavailable shows a retained report, if there is one |
| `QuotaMerge.RetainedReportShownIff` | internal/hub/store.go:254-313 | sample times or not, the entry is a retained report exactly when some retained report takes it from its holder at that point and no later report takes it back |
| `QuotaMerge.SampledRetainedShownIff` | internal/hub/store.go:295-313 | with sample times everywhere, the entry is a retained report exactly when one beats every online report of the key, or equals it and was observed before it |
| `QuotaMerge.SortSorts` | internal/hub/store.go:274-282 | the result is ordered by provider, label and account and is a permutation |
| `QuotaMerge.SortIsStable` | internal/hub/store.go:274-282 | entries the order does not separate keep their order |
| `Navigation.ActionQueue.EnqueueForTask` | internal/hub/actions.go:41-94 | queues the action exactly when the node is enabled, allows navigation, its first target of that id offers the action, the card leads there and fewer than 32 wait; a refusal names the fault |
| `Navigation.AskQueuesIff` | internal/hub/actions.go:41-94 | at every step of a run a request joins the end of its node's queue exactly then, and changes no queue otherwise |
| `Navigation.AnswerTakesOut` | internal/hub/actions.go:112-125 | an acknowledgement takes out the first queued action of its id, if there is one |
| `Navigation.ActionQueue.AckItem` | internal/hub/actions.go:112-125 | takes out the node's first action with that id and records the result, or changes nothing |
| `Navigation.ActionsConserved` | internal/hub/actions.go:84-125 | in every run each node's queued actions are its pending and consumed ones, and at most 32 are pending |
| `Navigation.PendingInOrder` | internal/hub/actions.go:96-125 | when ids do not repeat, a node polls exactly what is not yet acknowledged, in queueing order |
| `Navigation.OtherNodesUntouched` | internal/hub/actions.go:112-125 | no step of one node touches another node's queue |
| `Navigation.RepeatedExecution` | internal/state/task_ack.go:15-24 | executing an action again leaves the first read time |
| `QuotaActivation.LatestDueIsLatest` | internal/agentquota/scheduler.go:795-807 | the due slot is the only slot of its entry in the last day |
| `ScheduleText.AcceptedReadsIff` | internal/config/config.go:789-797 | the activator can read an accepted time exactly when it holds no sign, and then reads the same minute |
| `ScheduleText.AcceptedTimeFiresIff` | internal/agentquota/scheduler.go:795-811 | an accepted time ever becomes due exactly when it holds no sign |
| `ScheduleText.AcceptedTimeFiresAt` | internal/agentquota/scheduler.go:795-811 | and then exactly in the two minutes from that time on, every day |
| `ScheduleText.SignedTimeNeverFires` | internal/config/config.go:789-797 | `+9:05` passes every rule for schedules and never fires |
| `QuotaActivation.Runtime.constructor` | internal/agentquota/scheduler.go:220-226 | idle, with the carried ledger |
| `QuotaActivation.Runtime.ClaimCycle` | internal/agentquota/scheduler.go:314-326 | busy, already fired, or claimed |
| `QuotaActivation.Runtime.FinishCycle` | internal/agentquota/scheduler.go:328-336 | the active slot enters the ledger and frees the runtime |
| `QuotaActivation.Runtime.ReleaseCycle` | internal/agentquota/scheduler.go:341-348 | the active slot is freed without entering the ledger |
| `QuotaActivation.Runtime.Tick` | internal/agentquota/scheduler.go:265-300 | an idle runtime launches the first entry whose newest due slot is at most two minutes old and not recorded, and nothing if there is none; a busy one launches nothing |
| `QuotaActivation.LatestIsNewestDue` | internal/agentquota/scheduler.go:795-811 | the due slot is the one slot of the entry's minute within the last day |
| `QuotaActivation.IdleLookLaunchesIff` | internal/agentquota/scheduler.go:282-298 | after any legal run an idle activator that looks at an entry launches its newest due slot exactly when that is at most two minutes old and not recorded |
| `QuotaActivation.ReturnIsRecorded` | internal/agentquota/scheduler.go:328-336 | after any legal run the slot whose cycle returns is recorded and the activator idle |
| `QuotaActivation.ReloadCarriesOver` | internal/agentquota/scheduler.go:352-364 | after any legal run a reload carries over exactly the newest 32 slots, the one it waited for included |
| `QuotaActivation.Runtime.FiredAnchorKeys` | internal/agentquota/scheduler.go:352-364 | ascending, at most 32, exactly the keys with fewer than 32 above them |
| `QuotaActivation.Activator.Reload` | cmd/devboard/quota_activator.go:99-131 | the runtime is replaced exactly when zone, times or any other activation setting changed, and then starts idle with the newest keys of the closed one |
| `QuotaActivation.TickIsLooks` | internal/agentquota/scheduler.go:265-300 | a heartbeat at a later instant is a legal run of single looks ending at the first launch, whose slot is then running |
| `QuotaActivation.ForgottenIsOld` | internal/agentquota/scheduler.go:352-364 | a key dropped from the ledger is at least 32 minutes old |
| `QuotaActivation.StepKeepsOrderly` | internal/agentquota/scheduler.go:265-348 | every tick, return and reload keeps: one cycle at most, and each launched slot is running, in the ledger or past its grace |
| `QuotaActivation.NoSlotRunsTwice` | internal/agentquota/scheduler.go:265-364 | over every run at most one cycle is active and no slot is launched twice |
| `QuotaActivation.LedgerNotForgottenInGrace` | cmd/devboard/quota_activator.go:99-131 | over every run a recorded slot stays recorded until its grace window is over |
| `ActivationCycle.RunScheduledCycle` | internal/agentquota/scheduler.go:382-412 | terminates for every sequence of answers and sends exactly the one cycle they allow |
| `ActivationCycle.SameCycle` | internal/agentquota/scheduler.go:382-412 | the answers determine the cycle |
| `ActivationCycle.Spacing` | internal/agentquota/scheduler.go:813-834 | how far apart two requests are, from the retry rules |
| `ActivationCycle.Bounded` | internal/agentquota/scheduler.go:382-412 | at most 121 requests whatever the provider answers |
| `ActivationCycle.BoundIsMet` | internal/agentquota/scheduler.go:825-834 | a provider against which 121 requests are sent |
| `ActivationCycle.BoundedWithoutResets` | internal/agentquota/scheduler.go:825-834 | at most three when no reset time is given |
| `ActivationCycle.NothingAfterSuccess` | internal/agentquota/scheduler.go:393-397 | a verified success is the last request |
| `ActivationCycle.NothingAfterWindow` | internal/agentquota/scheduler.go:813-823 | so is any request answered after the window |
| `ActivationCycle.FollowedIff` | internal/agentquota/scheduler.go:382-412 | a request is followed by another exactly when it failed inside the window on a limit that may pass, the next still falls inside or a five-hour limit was seen, and nobody cancelled; and at which instant |
| `HookEditor.OwnedIsNotLegacyIff` | internal/product/integrations.go:503-539 | current handlers are never legacy ones exactly when the commands differ or there are arguments |
| `HookEditor.OwnedIff` | internal/product/integrations.go:503-523 | a handler is ours exactly when it is type, command and arguments of the definition and nothing else |
| `HookEditor.LegacyIff` | internal/product/integrations.go:525-539 | and a legacy one exactly when it is a legacy command and nothing else |
| `HookEditor.GroupGoesIff` | internal/product/integrations.go:365-401 | a removal drops exactly the groups that held nothing but matching handlers, and leaves the others in place without them |
| `HookEditor.InstallPlaces` | internal/product/integrations.go:330-350 | an install leaves an event's groups without legacy handlers and, if it is required and not served, adds one group with our handler behind them |
| `HookEditor.ProvidersSeparated` | internal/product/integrations.go:176-199 | both providers' definitions meet that condition |
| `HookEditor.CleanGroupsFilters` | internal/product/integrations.go:365-401 | a removal takes out exactly the matching handlers and keeps the others in sequence |
| `HookEditor.ForeignPreserved` | internal/product/integrations.go:107-149 | install and remove keep each event's sequence of foreign handlers |
| `HookEditor.ExtrasPreserved` | internal/product/integrations.go:385-395 | and every group's other fields |
| `HookEditor.InstallConfiguresIff` | internal/product/integrations.go:330-350 | after an install every required event is served and no legacy handler is left, exactly when owned and legacy handlers are separate |
| `HookEditor.InstallIdempotent` | internal/product/integrations.go:107-149 | a second install changes nothing |
| `HookEditor.RemoveLeavesNone` | internal/product/integrations.go:352-363 | after a removal no owned or legacy handler is left |
| `HookEditor.RemoveUndoesInstall` | internal/product/integrations.go:107-149 | install then remove restores every group of a file without our handlers; only empty lists for required events stay behind |
| `HookEditor.HookFile.RemoveMatching` | internal/product/integrations.go:365-401 | the cleaned file, and a count that is positive exactly when something matched |
| `HookEditor.HookFile.InstallOwned` | internal/product/integrations.go:330-350 | the completed file, and whether an event was missing |
| `HookEditor.HookFile.RunInstall` | internal/product/integrations.go:137-149 | the installed file, and exactly when it is written back |
| `HookEditor.HookFile.RunRemove` | internal/product/integrations.go:114-133 | the file after removal, and exactly when it is written back |
| `HookEditor.EventHasOwned` | internal/product/integrations.go:478-489 | true exactly when some group holds an owned handler |
| `ConfigQuote.UnquoteOfQuote` | internal/config/config.go:305-317 | reading quoted text gives it back, and quoted text never breaks a line |
| `ConfigText.AtoiOfItoa` | internal/config/config.go:320-326 | written integers read back, over the whole 64-bit range |
| `ConfigValue.PeerRoundTrip` | internal/config/config.go:485-501 | a written peer entry parses to its canonical form, an equals sign in the endpoint included |
| `ConfigValue.PeersLost` | internal/config/config.go:485-501 | a list with a comma or nothing in some endpoint reads back as another number of peers, or not at all |
| `ConfigValue.NodeRoundTrip` | internal/config/config.go:506-533 | a written node entry parses to its canonical form |
| `ConfigValue.ValueRoundTrip` | internal/config/config.go:319-550 | so does every value of every kind |
| `ConfigGrammar.Load` | internal/config/config.go:243-286 | the loop over lines, with section and duplicate tracking, computes the line-by-line meaning of the file |
| `ConfigGrammar.LoadLine` | internal/config/config.go:246-285 | what one line does, every refusal included |
| `ConfigAnswers.LoadsIff` | internal/config/config.go:243-286 | a file is accepted exactly when every line is in order: known sections and keys, each key once in its section, values that can be read; then assigned keys have their line's value and the others their default, and else the fault is that of the first line that is not |
| `ConfigGrammar.RenderedRereads` | internal/config/persist.go:94-149 | for any well-formed schema and any values, parsing a rendered configuration gives what its values read back as one by one, or fails if one does not |
| `ConfigGrammar.CanonicalComesBackIff` | internal/config/persist.go:94-149 | it gives the canonical form exactly when each value reads back as its own |
| `ConfigGrammar.CanonicalTwice` | internal/config/persist.go:151-175 | canonicalising twice changes nothing more |
| `ConfigRules.CanonicalIsValid` | internal/config/config.go:616-708 | the canonical form of a valid configuration is valid |
| `ConfigDefaults.DefaultsAreValid` | internal/config/config.go:195-226 | the defaults are well typed and valid wherever their time zone and probe address are accepted |
| `ConfigDefaults.NumbersAcceptedIff` | internal/config/config.go:616-708 | a configuration that is the default one but for role, peers and numbers is valid exactly with numbers in their ranges |
| `ConfigRules.RolesAreSeparate` | internal/config/config.go:616-708 | a valid node has no hub sections and a valid hub no uplink |
| `ConfigRules.MigrationAcceptedIff` | internal/config/config.go:768-780 | the migrated slots are valid exactly when twelve intervals reach past midnight |
| `ConfigRoundTrip.LegacyFileLoadsIff` | internal/config/config.go:228-292 | a legacy file whose other settings are valid is refused exactly when the migration yields more than twelve times, and otherwise loads as migrated |
| `ConfigRoundTrip.SaveThenLoadIff` | internal/config/persist.go:90-149 | saving a valid configuration and loading the file gives its canonical form exactly when no peer's endpoint is blank or holds a comma |
| `ConfigRoundTrip.SecondSaveIsExact` | internal/config/config.go:228-292 | after that, saving and loading changes nothing |
| `ConfigRoundTrip.ExactRoundTripIff` | internal/config/persist.go:90-93 | a valid configuration is loaded back unchanged exactly when, besides, nothing in it is padded, capitalised or retired |
| `ConfigRoundTrip.PaddedZoneChanges` | internal/config/config.go:339-340 | any valid configuration with a space before its time zone is valid and does not come back as it was |
| `ConfigFailures.CommaEndpointLost` | internal/config/config.go:552-566 | wherever the address library accepts some endpoint with a comma, a hub with that one peer is valid and does not come back from saving and loading |
| `ConfigFailures.LegacyTextLoadsIff` | internal/config/config.go:768-780 | the file with only a start and an interval is refused exactly when they make more than twelve times, for every start and interval |
| `ConfigFailures.HourlyFromMidnightRefused` | internal/config/config.go:768-780 | the text that asks for every hour from 00:00 is refused |

## Left out

- Task titles, checkpoints, completion texts, project context and per-provider source health: opaque texts next to the lifecycle, only easy members.
- Text sanitising, payload decoding and provider response parsing: heuristics over libraries; their results are inputs.
- HTTP handlers, request limits, authentication, templates, admin pages, the Swift app and the JavaScript: plumbing.
- File permissions, atomic writes, directory sync, worker status files and sockets: file-system effects.
- Metrics, network probes, diagnostics, log lines, health messages and `internal/multihost`.
- Time zones and daylight saving: slots live on a fixed-offset minute clock, and a reload does not change the zone.
- Mutexes and goroutines: each locked method is one step, a reload waits for the cycle in flight as `Close` does.
- The 64-bit wrap of sequence numbers and revisions.
- Context cancellation of the uplink loop: a run may simply stop at any point.
- Quota observations whose account key contains a NUL character, which could meet the key of an unnamed one.
- The counts shown by the integration status command, and the detection of inline Codex hooks.
- Lower-casing outside ASCII in the configuration, invalid UTF-8, octal and high byte escapes in quoted values, and the scanner's line limit.
- `Uplink.Scheduler.RunTurn`: the health counters and the action poll at the end of a turn are not part of the state.
- `ClickThrough.ClickIsTaken`: targets are not filtered for validity here either.
- `Projection.ProjectPublic`: the validity filter on targets and the agents' own navigation are not modelled; targets are the registered sessions.
- Library validators of the configuration are parameters; nothing is assumed of them.
- Instants before the zero time in runs with white-space turn ids, where agents and alerts are not shown to agree.
