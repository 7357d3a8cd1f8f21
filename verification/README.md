# herdr-agent-watcher: a verified model of the telemetry pipeline

The daemon watches coding agents in terminal panes. Watcher threads record what
an agent does into one telemetry store; sidebars subscribe to the store over a
socket and rebuild its cards from one hello and a stream of deltas; a reconcile
loop binds and unbinds watchers as panes come and go; a scanner turns the lines
agents append to their logs into notifications; and a few commands edit the
user's settings and keybinding files and take those edits out again. This
project models that logic in Dafny 4.11 and proves what it is meant to keep.

`dafny verify dfyconfig.toml` checks everything.

## How it is organised

| files | what they model |
|---|---|
| `Cards`, `Text`, `Payloads`, `Json` | a pane's card, the event closures of `record`, cleaning of payloads, parsed JSON |
| `Store` | the telemetry store: every operation as one atomic step (`Exec`), and the class that does it in place |
| `Reducer`, `Replication`, `StateServer` | the sidebar's reducer, the queues and sockets between it and the store, the connection thread's arm |
| `CwdHistory`, `CardHistory` | what a card shows in every run, field by field; distinct stamps |
| `Delivery` | who stays subscribed, and what each queue is given |
| `Activity`, `Replay`, `ReplayAgreement`, `ReplayMerge`, `ReplayJoin` | the fold of a transcript's history into one summary, against recording every call; several decoders joined into one |
| `Reconcile`, `Whereabouts`, `Daemon` | the diff of bindings, where the list puts the cards, and the tick that carries it out with failing adapters and a concurrent recorder |
| `Framing`, `Dedupe`, `Turns`, `Notices`, `Classifiers`, `Scanner`, `ScanRuns` | the notification scanner, from bytes to emissions |
| `BridgeSettings`, `BridgeRecord`, `BridgeRoundTrip`, `ShellWords` | installing the bridge in a settings document, the install record, the round trip, what a shell makes of the installed commands |
| `Keybinding`, `Substrings` | appending and splicing out the keybinding block, for any parser |
| `TomlLines`, `KeybindingToml`, `KeybindingExact` | a line-based subset of TOML, and what a removal does to the entries it reads |
| `Reply` | selection of the protocol block |
| `Select`, `Sorting`, `Sequences` | which cards are shown and in which order; Rust's stable sort |
| `Detector`, `Layout` | the process-tree walk; scroll arithmetic |
| `Wrappers` | `Option` and `Result` |

The objects the code updates in place are classes with those fields
(`Store.TelemetryStore`, `Reducer.State`, `ActivityFold.ReplayAccumulator`,
`Reconcile.Bindings`, `Daemon.ReconcileLoop`, `Scanner.Registration`); each
method's contract equates the new state with a specification function of the old
one, and the theorems are about those functions. What the code does not decide
(adapter results, the order a hash map is walked in, when a scan happens, which
thread runs next, how a file arrives in reads) is nondeterministic or a
universally quantified argument.

## What turned out not to hold, and exactly when it does

- A replay summary followed by live calls agrees with recording every call if
  and only if the history's ids are present and distinct, its names are not
  blank after cleaning, and no live call reuses an id older than the window
  (`ReplayAgreement.ResumeAgreesExactly`), and for several decoders in timestamp
  order likewise (`ReplayJoin.JoinedResumeAgreesExactly`). A call that went live
  before the summary would be lost unless it was in the history already
  (`ReplayJoin.NotWaitingLosesCalls`): the decoders' barrier is needed.
- An OpenCode idle can stay pending after a scan that returns `Ok`: exactly when
  the scan found nothing new to read and the idle was pending before, which a
  read error in an earlier scan can bring about
  (`Scanner.SuccessLeavesAnIdleOnlyUnread`, `Scanner.IdleSurvivesASuccessfulScan`).
- `disable` after `enable` restores the settings if and only if the status line
  was not an explicit null, which the install record cannot tell from an absent
  one (`BridgeRoundTrip.DisableUndoesEnable`, `BridgeRecord.RecordRoundTrip`).
- Enabling twice is a no-op, as src/agents/bridge_settings.rs:308 expects, if and only if the
  quoted command still contains the script's path. With a quote in the path it
  may not, and the second record then claims nothing
  (`BridgeRoundTrip.EnablingTwice`, `BridgeRoundTrip.WhichPathsAreRecognised`).
- `remove_block` checks what is lost, not what is gained. In the TOML subset, for
  a block put anywhere, a removal that goes through leaves the other entries and
  no more if and only if the text it leaves does not write `keys.command` as an
  inline array (`KeybindingExact.RemovalGainsExactlyAnArray`). That cannot be when
  the block starts at the start of a line
  (`KeybindingToml.RemovalAtALineStartGainsNothing`). Elsewhere it can: bind a key
  in a file whose last line is an unfinished comment under `[keys]`, write
  `[other]` and an inline `command` array below the block, and unbind; the header
  is swallowed by the comment and the array becomes the file's bindings
  (`KeybindingToml.RemovalElsewhereCanGain`). For any parser at all, nothing is
  gained if and only if there is one entry fewer (`Keybinding.OneEntryFewerExactly`).
- A pane has more than one watcher, or a watcher and no card, only where the
  unbind that was to roll a failed bind back reported failure and none on that
  watcher has worked since; a card lacks its watcher only where its unbind reported
  failure and none on its pane has worked since. So as long as every rollback
  reports success no pane has two watchers, and as long as every unbind does each
  card has exactly its own, at every boundary of every run
  (`Daemon.ReconcileLoop.Act`, `Daemon.ReconcileLoop.Serve`). Where there was none
  too many, a bind makes one exactly when it fails and its rollback leaves a
  watcher running (`Daemon.ReconcileLoop.BindPane`); where all matched, a failed
  unbind ends that exactly when it had stopped the watcher all the same
  (`Daemon.ReconcileLoop.UnbindPane`).
- `ensure_visible` makes the least movement that shows a fitting card if and only
  if the offset or the card's first line is one that clamping in 16 bits allows
  (`Layout.MovesTheLeastExactly`, `Layout.LongContentMovesACardInView`).
- `ensure_visible` shows a fitting card if and only if the card ends within 16
  bits of lines (`Layout.ShowsTheCard`).

## Model

| member | source | states |
|---|---|---|
| Text.SanitiseIsClean | src/sidebar/format.rs:21-27 | a cleaned string has no control character and no white space at its ends |
| Text.SanitiseIdempotent | src/sidebar/format.rs:21-27 | cleaning twice is cleaning once |
| Payloads.SanitiseKeepsTheMiddle | src/sidebar/format.rs:21-27 | cleaning cuts blanks off the two ends and keeps every character between, control characters as single spaces |
| Payloads.OneMiddle | src/sidebar/format.rs:21-27 | no other text does that and has no blank at its ends |
| Payloads.EventIsCleaned | src/daemon/store.rs:449-455 | of an event's payload the named texts are cleaned and nothing else differs; lifecycle, attention, notification and unknown events stay as they are |
| Payloads.SummaryIsCleaned | src/daemon/store.rs:455-480 | of a summary the cwd, each recent call's tool and arguments, and the counts by tool are cleaned, and nothing else |
| Cards.NormaliseIdempotent | src/daemon/store.rs:449-484 | the sink and the store both normalise an event, and the second pass changes nothing, merged tool names and 64-bit count sums included |
| Cards.CleanCountOf | src/daemon/store.rs:462-480 | the folded count of a name does not depend on the order the keys are visited in |
| Cards.SilentEventsAreInvisible | src/daemon/store.rs:204-334 | frame of every arm of `record`: an event that reports no change leaves every serialised field as it was |
| Cards.EventsKeepIdentity | src/daemon/store.rs:204-334 | no event touches a card's agent, position, workspace or stamp |
| Store.ExecValid | src/daemon/store.rs:117-445 | every operation keeps stamps distinct and within 1..=seq, and subscription ids distinct and below the next |
| Store.NormaliseEvent | src/daemon/store.rs:449-484 | the in-place normalisation computes the specified clean payload |
| Store.NormaliseTypes | src/daemon/store.rs:462-480 | whatever order the map is walked in, keys that clean to one name are summed in 64 bits and blank names dropped |
| Store.Edit | src/daemon/store.rs:204-334 | `record`'s closure edits the card and reports a change exactly as specified, arm by arm |
| Store.EditToolCall | src/daemon/store.rs:260-289 | a terminal call counts once per id, moves the id between the private sets and keeps the last fifty calls |
| Store.EditSummary | src/daemon/store.rs:290-334 | a summary replaces total, counts and ring, settles the window's ids, and reports whether any of that shows |
| Store.TelemetryStore.SetAgent | src/daemon/store.rs:118-126 | the whole new state, broadcast and dropped subscribers included |
| Store.TelemetryStore.SetPaneListCwd | src/daemon/store.rs:128-146 | the whole new state; a transcript cwd is not overwritten |
| Store.TelemetryStore.SetPanePosition | src/daemon/store.rs:150-158 | the whole new state |
| Store.TelemetryStore.SetPaneWorkspace | src/daemon/store.rs:165-176 | the whole new state; an empty workspace is none |
| Store.TelemetryStore.ReplaceSession | src/daemon/store.rs:178-198 | everything but the cwd is reset, and the cwd is demoted to the pane list's |
| Store.TelemetryStore.Record | src/daemon/store.rs:200-335 | an unknown pane changes nothing; otherwise the event's closure runs on the cleaned payload and is published if it reports a change |
| Store.TelemetryStore.Remove | src/daemon/store.rs:337-348 | the whole new state |
| Store.TelemetryStore.SubscribeFull | src/daemon/store.rs:362-371 | a fresh id and an empty queue, together with the cards and number of the same moment |
| Store.TelemetryStore.Unsubscribe | src/daemon/store.rs:373-379 | the subscription is gone and nothing else has moved |
| Store.TelemetryStore.Settle | src/daemon/store.rs:393-434 | the edited card goes back, stamped with the next number and broadcast exactly when its edit showed |
| Store.TelemetryStore.Send | src/daemon/store.rs:436-445 | every listed subscriber is offered the update; a full queue or a dead reader is dropped |
| Delivery.WhoStays | src/daemon/store.rs:436-440 | a listed subscriber with a live receiver and fewer than 256 updates queued stays, given exactly the one update sent; with a dead receiver or 256 queued it is dropped, its queue as it was; with nothing sent nothing happens to it |
| Delivery.WhoComesAndGoes | src/daemon/store.rs:362-379 | subscribers come only by subscribing, with an empty queue, and an unsubscribed one is gone |
| Delivery.OpenMeansSubscribed | src/daemon/state_server.rs:174-227 | in every run an open connection is subscribed if and only if nobody gave its subscription up and no update found 256 waiting in its queue |
| Reducer.State.ApplyLine | src/sidebar/reducer.rs:14-47 | hello replaces, a newer delta inserts or removes, a stale one is ignored; an error exactly for malformed lines and version mismatches |
| Replication.EveryOpIsSeen | src/daemon/store.rs:117-445 | every operation is either invisible to every subscriber or exactly one number and one update further, offered to every queue that stays |
| Replication.RunKeepsInv | src/daemon/state_server.rs:174-227 | the replication invariant holds after every interleaving of store calls, subscriptions, deliveries, heartbeats, broken connections and reads |
| Replication.LogIsHistory | src/daemon/store.rs:393-445 | the visible cards at each sequence number are those of the moment that had it |
| Replication.EveryNumberHappened | src/daemon/store.rs:393-445 | every number up to the current one was current at some moment of the run |
| Replication.ReplicaIsTheStoreAtItsNumber | src/sidebar/reducer.rs:14-47 | in every run a sidebar that has applied its hello holds exactly the cards the store showed at `last_seq`, and its deltas are consecutive from hello.seq + 1, dropped subscriptions included, and the build it shows is the hello's |
| Replication.NoHelloNoChange | src/sidebar/reducer.rs:14-47 | before its hello a sidebar keeps what it had |
| Replication.DrainedReplicaIsCurrent | src/daemon/state_server.rs:174-227 | a sidebar still subscribed with queue and socket drained shows the present |
| StateServer.World.HandleSubscribe | src/daemon/state_server.rs:174-227 | the arm's steps, among anyone else's, form such a run, and its subscription is gone when it returns |
| StateServer.OthersKeepPlace | src/daemon/state_server.rs:174-227 | no one else's step greets, closes or renumbers this connection |
| CwdHistory.StampsAreDistinct | src/daemon/store.rs:401-434 | in every reachable store no two cards share a stamp and every stamp is in 1..=seq |
| CwdHistory.CwdIsTheLastWord | src/daemon/store.rs:128-198 | in every run a card's cwd is the last transcript cwd since it began, else the last non-empty pane-list cwd, else what the replaced session carried over |
| CwdHistory.EveryCardBegan | src/daemon/store.rs:178-198 | every card of every run has such a beginning |
| CardHistory.StateIsTheLastWord | src/daemon/store.rs:215-246 | in every run a card is finished, in error, wanting attention or running as was last said of it since it began, running only until the next idle phase, and idle when nothing was said |
| CardHistory.CardIsTheLastWords | src/daemon/store.rs:117-220 | and shows the last agent, position and workspace set, and the last cleaned status, lifecycle and title payloads recorded, since it began |
| CardHistory.BeginsBlank | src/daemon/store.rs:178-198 | a card begins, a replaced session's too, with its agent and the cwd it carried over and nothing else |
| CardHistory.OneStepShows | src/daemon/store.rs:117-334 | what each operation does to those fields; none but tool calls and summaries moves the tool counts or the ring |
| ActivityFold.ReplayAccumulator.RecordToolCall | src/agent/events.rs:204-222 | the new accumulator for running and settled calls |
| ActivityFold.ReplayAccumulator.RecordCompleted | src/agent/events.rs:165-173 | total saturates, the tool's count grows, the call leaves the running ones, and the window keeps the last fifty |
| ActivityFold.ReplayAccumulator.Merge | src/agent/events.rs:147-163 | totals and counts add with saturation and the windows are joined, stably sorted by timestamp and cut to fifty |
| ActivityFold.MergeTypes | src/agent/events.rs:147-163 | the merged table, whatever order the other one is walked in |
| Replay.FoldHolds | src/agent/events.rs:165-173 | for every history, running calls included: the total is the number of completions saturated at 32 bits, the window their last fifty, each count their number wrapped at 32 bits |
| Replay.SummaryMovesLedger | src/agent/events.rs:184-202 | what a summary leaves on a card after both clean-ups, however it was accumulated: total, counts per clean name, the last fifty in order, and their ids settled |
| Replay.EmitMovesLedger | src/daemon/store.rs:260-289 | what one live call, normalised twice, does to a card's tool-call fields |
| ReplayAgreement.SummaryAgreesExactly | src/agent/events.rs:184-222 | any accumulator that makes the same summary, reported or not worth reporting, and then live calls show what recording every call would, if and only if the history is resumable |
| ReplayAgreement.ResumeAgreesExactly | src/agent/events.rs:165-220 | so one decoder's summary then live calls show the same total, counts and ring as recording every call, if and only if the history is resumable |
| ReplayAgreement.TotalIsTheSum | src/daemon/store.rs:260-289 | recording keeps the total equal to the sum of the counts |
| ReplayAgreement.ResumedTotalIsTheSum | src/agent/events.rs:184-202 | so does resuming a resumable history |
| ReplayMerge.TruncateThenMerge | src/agent/events.rs:147-163 | truncating two sorted windows before merging them leaves the end of the merge alone |
| ReplayMerge.MergedWindow | src/agent/events.rs:147-163 | merging any number of decoders' windows gives the last fifty of the stable timestamp sort of everything they saw complete, and the number of it saturated |
| ReplayMerge.MergedCounts | src/agent/events.rs:147-163 | and per-tool counts that add up to it |
| ReplayJoin.JoinIsOneDecoder | src/agent/events.rs:147-202 | joined accumulators make the very summary one decoder of the whole sorted history would have made |
| ReplayJoin.JoinedResumeAgreesExactly | src/agent/adapter/kimi/transcript.rs:114-150 | the joined summary then live calls show what emitting all completions in stable timestamp order and then the live calls would, if and only if that history is resumable |
| ReplayJoin.NotWaitingLosesCalls | src/agent/adapter/kimi/transcript.rs:156-165 | why every decoder waits for the summary: calls emitted before it are lost, unless they add nothing to the history |
| Sorting.SortedUnique | src/agent/events.rs:147-163 | a stable sort has one possible result, the meaning given to `sort_by` throughout |
| Reconcile.Bindings.Diff | src/daemon/reconcile.rs:28-78 | exactly the wanted actions, at most one a pane, unbinds before rebinds before binds and by pane id |
| Reconcile.DiffIsUnique | src/daemon/reconcile.rs:28-78 | there is one such list, whatever order the maps are walked in |
| Reconcile.ListedPaneIsNotUnbound | src/daemon/reconcile.rs:28-78 | a listed pane is never unbound, missing identity or not |
| Reconcile.Bindings.Apply | src/daemon/reconcile.rs:80-104 | the new bindings |
| Reconcile.ApplyingTheDiffSettles | src/daemon/reconcile.rs:80-104 | after applying a diff nothing is wanted for the same list |
| Reconcile.WhatIsBoundThen | src/daemon/reconcile.rs:28-104 | after applying a diff a pane that is not listed is not bound, one whose agent and session are known is bound to the last of them, any other is as it was |
| Reconcile.DiffOrder | src/daemon/reconcile.rs:70-77 | unbinds come before rebinds before binds, by pane id within each |
| Daemon.Track | src/daemon/store.rs:117-445 | what each operation does to who owns which card; recording changes no owner and keeps the store valid |
| Daemon.SuspectsAre | src/daemon/run.rs:73-133 | a watcher is suspect exactly when a rollback of it reported failure and no later unbind of it has reported success |
| Daemon.DoubtedAre | src/daemon/run.rs:99-133 | a pane is in doubt exactly when an unbind of it reported failure and none has reported success since |
| Daemon.LastReportDecides | src/daemon/run.rs:73-133 | the strays of a watcher are what the last answer about it left beyond the one its card may have |
| Daemon.WhatRuns | src/daemon/run.rs:73-133 | what runs, by the adapters' answers: no watcher too many but a suspect, no card without its own but on a pane whose unbind failed; none too many if every rollback worked, exactly the cards' own if every unbind did too |
| Daemon.BindDecides | src/daemon/run.rs:73-97 | where there was none too many, a bind makes one too many exactly when it fails and its rollback leaves a watcher |
| Daemon.WatcherStarted | src/daemon/run.rs:73-97 | after a bind that worked one of what runs is the card's, and more than one only where a rollback had failed |
| Daemon.WatcherLeft | src/daemon/run.rs:73-97 | what a failed bind and its rollback leave is there because the rollback's unbind reported failure |
| Daemon.UnbindWorked | src/daemon/run.rs:99-133 | after an unbind that worked the card may go, nothing of its watcher being left |
| Daemon.UnbindFailed | src/daemon/run.rs:99-133 | after an unbind that reported failure the card has lost its watcher exactly when none is left running |
| Daemon.ReconcileLoop.BindPane | src/daemon/run.rs:73-97 | bind with rollback: on success a card and its watcher; on failure no card, and no watcher if the rollback's unbind reported success; one too many exactly when it fails and leaves one |
| Daemon.ReconcileLoop.RebindPane | src/daemon/run.rs:99-133 | the old watcher is stopped before the new one starts, answer by answer; a watcher that will not stop keeps the binding, a bind that fails clears it |
| Daemon.ReconcileLoop.UnbindPane | src/daemon/run.rs:300-312 | a failed unbind changes no card, and costs the card its watcher exactly when none is left running |
| Daemon.ReconcileLoop.Act | src/daemon/run.rs:279-319 | at every action boundary cards and bindings name the same panes and agents; no pane has two watchers while every rollback has worked, each card exactly its own while every unbind has, and otherwise only the watchers and panes those answers name are off |
| Daemon.OneActionDone | src/daemon/run.rs:279-320 | an action carried out without failures leaves nothing to do for its pane but an unserved bind |
| Daemon.AllActionsDone | src/daemon/run.rs:279-320 | so a tick without failures leaves only unserved binds |
| Daemon.ReconcileLoop.Tick | src/daemon/run.rs:258-334 | whatever fails and whatever is recorded meanwhile, a tick ends with a card for exactly the bound panes, each with the bound agent, and the watchers the adapters' answers promise; each listed pane's card has the position and workspace of its last entry, and that entry's clean cwd unless a transcript gave one; without failures only unserved binds are left |
| Daemon.ReconcileLoop.Place | src/daemon/run.rs:322-333 | every listed card ends where the last entry that lists it puts it, whatever is recorded between the steps |
| Daemon.ReconcileLoop.Serve | src/daemon/run.rs:258-334 | and so does every sequence of ticks: while every rollback has worked no pane has two watchers, and while every unbind has each card has exactly its own |
| Framing.OneMoreByte | src/agent/notification.rs:783-798 | a byte extends the unfinished line or hands it over |
| Framing.FeedHolds | src/agent/notification.rs:783-833 | the framer holds the unfinished line or has given it up for too long, and yields exactly the lines that end |
| Dedupe.WindowIsTheLastAccepted | src/agent/notification.rs:168-181 | set and queue hold the same at most 128 keys, each once, and a key is refused exactly when it is among the last 128 accepted |
| Turns.FlushIsOneNotification | src/agent/notification.rs:1514-1531 | the recursion between apply and flush is one level deep |
| Turns.NotificationsNeverOutnumberTurns | src/agent/notification.rs:1388-1531 | over every sequence of signals, scan ends and resets, notifications that need an active turn never outnumber turn starts |
| Turns.TheGuaranteeIsNeeded | src/agent/notification.rs:1448-1463 | without the classifiers' guarantee they can |
| Turns.FlushLeavesNothingPending | src/agent/notification.rs:1514-1531 | a flush leaves no idle waiting |
| Turns.DeferralIsFaithful | src/agent/notification.rs:1404-1429 | deferring an idle ends the same turns, the same number of times, as completing it at once would |
| Turns.DeferredCompletionCarriesTheText | src/agent/notification.rs:1398-1403 | and the completion carries the text that came after the idle |
| Notices.WhatIsSent | src/agent/notification.rs:1388-1531 | after any run each happening sends exactly this: a notification that fits the open turn, or the completion a waiting idle comes to, with its session, wording, time and key, unless that key is among those of the last 128 sent with one; nothing else sends anything |
| Notices.NoticesAreNotRepeated | src/agent/notification.rs:1478-1487 | no notice carries a key of the last 128 keyed notices before it |
| Notices.RunFollows | src/agent/notification.rs:1388-1531 | in every run which turn is open, which idle waits, what was last said and in which session are those of the signals heard |
| Classifiers.ClassifiersKeepTheRules | src/agent/notification.rs:896-1386 | every signal of every provider ends the turn it needs; only OpenCode defers |
| Classifiers.WhichRecordsNotify | src/agent/notification.rs:896-1386 | a record of any provider notifies of a reason exactly when it reports it, and starts a turn exactly when it begins one, record by record |
| Classifiers.RecordsNeverOutnumberTurns | src/agent/notification.rs:896-1531 | so over any records and scan ends no notification that needs a turn lacks one |
| Scanner.EverySplitHandsTheSameLines | src/agent/notification.rs:742-804 | for every append-only file and every way it came in scans and reads, the lines handed over are exactly its newline-ended lines of at most 262144 bytes, returns stripped and empties skipped; the partial line is bounded and the cursor is start plus the bytes read |
| Scanner.SuccessLeavesAnIdleOnlyUnread | src/agent/notification.rs:742-804 | after a scan that returns Ok an idle is pending exactly when nothing was read and it was pending before |
| Scanner.SuccessfulRunsLeaveNoIdle | src/agent/notification.rs:742-804 | a run whose scans all succeed never leaves one |
| Scanner.IdleSurvivesASuccessfulScan | src/agent/notification.rs:764-776 | for every line the classifier takes for an idle, read in any pieces before a read error, an idle scan then succeeds and leaves that idle pending |
| Scanner.ScanAllAdvances | src/agent/notification.rs:742-804 | the turn machine does not move the cursor or the framer |
| Scanner.Registration.RememberDedupeKey | src/agent/notification.rs:168-181 | the window afterwards, and whether the key was new |
| Scanner.Registration.ApplySignal | src/agent/notification.rs:1388-1512 | the whole new turn state and what was sent, arm by arm |
| Scanner.Registration.FlushPendingOpenCodeIdle | src/agent/notification.rs:1514-1531 | likewise for the flush |
| Scanner.Registration.FinishLine | src/agent/notification.rs:806-847 | one line to the classifier, or none when it is oversize or empty |
| Scanner.Registration.ScanSource | src/agent/notification.rs:742-804 | one scan, with a missing, shortened, unchanged, unreadable, broken or completely read file |
| ScanRuns.ScansAreARun | src/agent/notification.rs:742-847 | what a registration sends over any scans is what the turn machine sends on the signals of its lines |
| ScanRuns.ScansNeverOutnumberTurns | src/agent/notification.rs:742-1531 | so its notifications that need a turn never outnumber its turn starts |
| ScanRuns.ScansNeverRepeat | src/agent/notification.rs:742-1531 | nor does a registration, however its file was read, repeat a notice while its key is among the last 128 |
| BridgeSettings.EnableSettings | src/agents/bridge_settings.rs:95-158 | the settings and the record afterwards, or the first error |
| BridgeSettings.DisableSettings | src/agents/bridge_settings.rs:182-219 | the settings afterwards |
| BridgeSettings.QuotedContainsText | src/agents/bridge_settings.rs:26-28 | a quoted text without quotes contains the text |
| ShellWords.QuotedWord | src/agents/bridge_settings.rs:26-28 | a shell reads any quoted text, quotes included, back as one word |
| ShellWords.WhatTheInstallationRuns | src/agents/bridge_settings.rs:7-149 | after an installation each of the five events runs the attention script with its name and mode, only the tool event narrowed, to `AskUserQuestion`, and the status line runs its script, every five seconds; no other event and no other setting has changed |
| BridgeRecord.RecordRoundTrip | src/agents/bridge_settings.rs:15-24 | the record survives its file, but a null status line comes back as none |
| BridgeRoundTrip.EnableSucceedsExactly | src/agents/bridge_settings.rs:101-141 | when `enable` succeeds |
| BridgeRoundTrip.InstallFacts | src/agents/bridge_settings.rs:125-149 | event by event: each entry is there once, recorded exactly when it was new, its list created exactly when missing; every other key untouched |
| BridgeRoundTrip.DisableTakesOnlyItsOwn | src/agents/bridge_settings.rs:182-219 | after arbitrary edits: nothing but the status line and the hooks moves, the status line only while it is the installed one, created containers only when empty |
| BridgeRoundTrip.CleanedKeyByKey | src/agents/bridge_settings.rs:195-210 | in each event's list exactly the recorded entries go and the rest keeps its order |
| BridgeRoundTrip.DisableUndoesEnable | src/agents/bridge_settings.rs:95-222 | disable after enable, through the record's file, restores the settings if and only if the status line was not null |
| BridgeRoundTrip.DisableUndoesEnableOfAllFive | src/agents/bridge_settings.rs:95-222 | the round trip at the five events the code installs |
| BridgeRoundTrip.EnablingTwice | src/agents/bridge_settings.rs:106-123 | enabling twice is a no-op if and only if the quoted command contains the path |
| BridgeRoundTrip.EnablingAllFiveTwice | src/agents/bridge_settings.rs:106-123 | the same at the five events the code installs |
| BridgeRoundTrip.ReinstallingForgetsTheHooks | src/agents/bridge_settings.rs:122-158 | installing over an unrecognised installation claims none of its hooks, so disabling leaves them |
| BridgeRoundTrip.WhichPathsAreRecognised | src/agents/bridge_settings.rs:26-28 | a path without a quote is recognised; one with a quote need not be |
| Keybinding.LineEndingIsCrLfExactly | src/agents/keybinding.rs:41-47 | CRLF exactly when there is a newline and every newline has its return |
| Keybinding.AppendBlock | src/agents/keybinding.rs:51-74 | the appended bytes, and the text with them at its end |
| Keybinding.RemoveBlock | src/agents/keybinding.rs:83-134 | the outcome for no, one or several matches, in every case |
| Keybinding.Subtract | src/agents/keybinding.rs:115-120 | the entries left after taking each survivor out once |
| Keybinding.MinusMultiset | src/agents/keybinding.rs:115-120 | which is the difference of the multisets |
| Keybinding.BlockOccursOnce | src/agents/keybinding.rs:51-90 | in a text without the marker the appended block occurs once, where it was put |
| Keybinding.RemovalLosesExactlyTheEntry | src/agents/keybinding.rs:83-134 | a removal goes through exactly when what is lost, as a multiset, is the block's one entry; then it cuts that one occurrence |
| Keybinding.OneEntryFewerExactly | src/agents/keybinding.rs:113-134 | for any parser, nothing is gained exactly when there is one entry fewer |
| TomlLines.LinesConcat | src/agents/keybinding.rs:51-74 | a text of whole lines and what follows it are read one after the other |
| KeybindingToml.AppendedIsBlock | src/agents/keybinding.rs:51-74 | what is appended is the block after none, one or two line ends |
| KeybindingToml.BlockReads | src/agents/keybinding.rs:60-74 | read alone, the block is its one entry |
| KeybindingToml.RemovalAtALineStartGainsNothing | src/agents/keybinding.rs:83-134 | where the block starts at a line's start, the entries after a removal are those before it less the block's own, whatever is around it |
| KeybindingToml.RemovalElsewhereCanGain | src/agents/keybinding.rs:83-134 | where it starts inside a comment's line, a removal can go through and bring an entry, for every key and every entry |
| KeybindingExact.RemovalGainsExactlyAnArray | src/agents/keybinding.rs:83-134 | for any text before and after the block, a removal that goes through leaves the other entries and no more if and only if the text it leaves does not bind inline; if it does, the array replaces what was the only entry |
| KeybindingToml.LocalParsesGainNothing | src/agents/keybinding.rs:83-134 | for any parser to which the rest reads as it does without the block, the removal goes through and gains nothing |
| Keybinding.RemoveUndoesAppend | src/agents/keybinding.rs:51-134 | removing the appended bytes gives the original text if and only if the parser sees the block as the one entry it loses |
| Reply.ChunksAreTheText | src/agent/reply.rs:28-44 | the lines, newlines included, are the text cut at their starts |
| Reply.MarkersAreFound | src/agent/reply.rs:19-26 | a standalone marker is in its line where it is said to be |
| Reply.SelectProtocolBlock | src/agent/reply.rs:28-61 | the last matched pair, else the tail from the last open, else nothing; delimited by its markers |
| Reply.SelectionIsUnique | src/agent/reply.rs:28-61 | there is one right answer |
| Reply.SelectionIsDelimited | src/agent/reply.rs:28-61 | what is selected begins with the opening marker and, when complete, ends with the closing one |
| Reply.RowsAreInBounds | src/agent/reply.rs:38-60 | every slice that is taken is in bounds |
| Reply.MatchedExactly | src/agent/reply.rs:33-44 | a closing line is matched exactly when an opening line precedes it with no matched closing line between |
| Select.Visible | src/sidebar/select.rs:53-98 | exactly the panes in scope and not hidden, each once, in order, with the number hidden |
| Select.WhoIsListed | src/sidebar/select.rs:53-73 | a pane is listed, as it is, exactly when it is not in another workspace than the one asked for and not an idle one to be hidden |
| Select.OrderIsTotal | src/sidebar/select.rs:74-92 | each comparison is a total order up to the pane id |
| Select.VisibleIsUnique | src/sidebar/select.rs:53-98 | under every sort one list, whatever order the map is walked in |
| Select.PanesArePartitioned | src/sidebar/select.rs:60-73 | shown, hidden and out-of-scope panes partition the map |
| Select.SmartIsUrgencyThenRecency | src/sidebar/select.rs:27-35 | in every reachable store smart order is errors, then attention, running, finished and idle, and within each strictly by recency |
| Select.UnplacedPanesComeLast | src/sidebar/select.rs:75-82 | placed panes come first, by position |
| Select.GroupsAreTogether | src/sidebar/select.rs:87-91 | cards of one canonical agent are adjacent |
| Select.WhichGroup | src/sidebar/agent_ids.rs:11-19 | the group of each agent, aliases and unknown ones included |
| Select.GroupsAreInOrder | src/sidebar/select.rs:87-91 | groups by name, and within one by urgency and then recency |
| Detector.CollectProcessTree | src/agent/detector.rs:86-108 | terminates on any child relation and returns exactly the reachable pids, each once, the root first |
| Detector.DetectAgent | src/agent/detector.rs:45-55 | succeeds exactly when some reachable process runs a known binary, with such a process; the root's own agent wins |
| Detector.WhatAProcessRuns | src/agent/detector.rs:221-225 | a process runs an agent exactly when its binary, in whatever directory, has one of that agent's names |
| Detector.ClosedHoldsEveryReachable | src/agent/detector.rs:86-108 | a set closed under children holds every reachable pid |
| Detector.OnlySoManyPids | src/agent/detector.rs:86-108 | why the walk ends: there are only 2^32 pids |
| Layout.StaysInContent | src/sidebar/layout.rs:13-40 | the offset stays within the content |
| Layout.ShowsTheCard | src/sidebar/layout.rs:22-40 | a fitting card is shown whole, a larger one by its header, if and only if 16 bits reach that far |
| Layout.MovesTheLeastExactly | src/sidebar/layout.rs:22-40 | the movement that shows a fitting card is the least one if and only if the offset or the card's first line is within what 16-bit clamping allows |
| Layout.TheLeastIsUnique | src/sidebar/layout.rs:22-40 | and then no other offset as near shows the card |
| Layout.LongContentMovesACardInView | src/sidebar/layout.rs:13-40 | past 16 bits of content clamping can move a card that is in view |
| Layout.EnsureVisibleIsIdempotent | src/sidebar/layout.rs:22-40 | asking again changes nothing |
| Layout.ReanchorKeepsThePlace | src/sidebar/layout.rs:44-54 | the place within the card is kept exactly when it can be scrolled to, and otherwise approached as closely as clamping allows |
| Layout.ReanchorComposes | src/sidebar/layout.rs:44-54 | anchoring in steps is anchoring at once while no step is clamped |

## Left out

- Sockets, threads, heartbeat timing, timeouts, lock files, files and their permissions, reconnecting: input and output. A connection thread's reads and writes are steps that may or may not happen; file contents, lengths and read errors are arguments.
- JSON and TOML text: documents and wire lines are already parsed. The TOML parser is a function argument of the keybinding operations, and `TomlLines` is one such parser for a subset: one line an item, values as their text, no multi-line strings, no check for repeated names. `BridgeRecord` does model the install record as a JSON value, in its object form only.
- The order of an object's keys: objects are maps, so "restores the settings" means equality as JSON values. Arrays keep their order.
- Floating-point numbers in payloads are opaque digits, so equality of cards does not identify 0.0 with -0.0.
- `seq`, tool-call totals and cursors of 64 bits are unbounded here; the 32-bit total and counts of a replay, the 64-bit sums of folded tool names and the 16-bit scroll arithmetic are modelled with their saturation or wrap-around.
- Daemon.ReconcileLoop.Tick: the `pty_state` table, the status-path routes and the consent reload of the tick are not modelled; a shutdown or a lost connection between ticks is the end of the run.
- Daemon.ReconcileLoop.AdapterBind: what an adapter does inside is not modelled; a call succeeds or fails, and a failed one may have had its effect.
- The text of notification bodies: its normaliser is a function argument, and what the scanner finds in a Claude transcript is part of the signal. Titles, diagnostics counters and failures of the event sink are not modelled.
- Classifiers.ClassifiersKeepTheRules: records are their parsed fields; that a line does or does not parse is left to the scanner's classifier argument.
- Detector.DetectAgent: one snapshot of the process table, read consistently; the platform readers are its arguments.
- Layout.ReanchorKeepsThePlace: line positions beyond 2^63, where the cast to a signed number wraps, are not modelled.
- `BridgeRoutes`: it takes two locks one after the other, so its operations are not single steps; not part of this model.
- Sidebar rendering, panels, colours, the doctor's reports, release checks and config loading.
