# Chaindash in Dafny

Chaindash is a terminal dashboard for a chain's nodes. Under the drawing it is a set of concurrent pieces that
share state, and a few packing and selection algorithms. This project models those pieces and proves what
they keep over every run and every interleaving. `dafny verify dfyconfig.toml` checks all of it.

Protocols between threads are transition systems: a `State`, an `Enabled` and a `Next` for each thread's
steps, and runs as sequences of events, so a theorem over all runs is a theorem over all interleavings.
Objects that the program updates in place are classes whose methods are proved against functions on their
contents; the same functions are the transition systems' steps, so the objects and the interleavings meet in
one specification.

| file | what it holds |
|---|---|
| `GeoSnapshot.dfy`, `GeoStore.dfy`, `PeerAddresses.dfy` | country grouping, the store's two tables and transactions, address rules and merging |
| `GeoPipeline.dfy`, `GeoPipelineProofs.dfy`, `GeoPipelineTheorems.dfy`, `GeoEnrichment.dfy`, `GeoAnswers.dfy` | store worker, collector, enrichment tasks and UI as one transition system, its invariants, its theorems, that no due address is forgotten, and that cache and panel tell what the geolocation service answered |
| `GeoProgram.dfy` | the worker turn, the panel's refresh and retry, and the spawn loop as the program writes them |
| `BlockCharts.dfy` | block statistics, chart windows, and their two widgets |
| `UiRefresh.dfy`, `UiRefreshProofs.dfy` | dirty bits, wake token, widget refresh and disk selection; no lost update |
| `Calendar.dfy`, `DailyHistory.dfy`, `DailyReports.dfy` | dates and their text, the pruned daily store, the reports computed from it |
| `RateLimit.dfy`, `Notifications.dfy`, `NotificationTraces.dfy`, `NotificationDelivery.dfy` | the spacing rule, the notifier's objects, theorems over its runs, and observation and delivery interleaved |
| `PriorityLines.dfy`, `CountryGrid.dfy` | line selection and the country grid |
| `Ordering.dfy`, `Streams.dfy`, `Wrappers.dfy` | orders, sorting, first-n sets; the edges of a stream of readings; optional and fallible values |

What the proofs brought out about the code:

- `replace_peer_snapshot_tx` says it returns the addresses never refreshed or refreshed more than 24 hours
  ago. A row that only ever failed carries the refresh time 0, so it is returned exactly when the clock is
  past 24 hours. The returned list is the promised one if and only if the clock is past 24 hours or no
  snapshot address has only failures (`ReplaceReturnsWhatIsDue`, `EarlyClockSkipsFailedIp`); with Unix time
  the condition always holds.
- The panel's freshness is inductive only per UI phase: while the UI holds a reply it has not applied, that
  reply may already be old, and what keeps the panel correct is that a wake is then pending or owed.
- No lost update needs the waker to be installed on clean data, which the start-up order gives.
- A date's text sorts like the date for the four-digit years of section 5.6 of RFC 3339 and no others, since a
  fifth digit brings a sign; the theorems are about years 0 to 9999.
- 32 daily snapshots are exactly enough for the monthly report, because the report is computed before the new
  day is saved but must survive that day already being there.
- Every enrichable address a commit finds due is spawned for or is held by a task after that commit. The holder may
  have written a failure already and not yet released the address; then the retry waits for a later round
  (`EveryDueAddressWasLookedUp`, `FailureBeforeCommitWaits`).
- Which notices are due and which leave differ: the limiter can swallow a failure whose recovery was told, and the
  connection state then keeps later failures from being due (`SecondFailureIsSwallowed`). With one task on a
  connection, what leaves mirrors its edges exactly when both kinds are enabled, or never occur, and edges of the
  same kind are at least the limit apart (`ForwardedMirrorsTheEdges`).
- A connection listed twice gets two tasks, and one's notice can overtake the other's, so that a recovery is told
  before the failure it ended (`SecondTaskOvertakes`). The edges of a connection are offered in order in all runs, and
  mirrored in all unhindered runs, if and only if no two tasks watch it (`OrderNeedsOneTask`); offered once each they
  are with any number of tasks.
- The monthly quantity and the sum of the dailies, which both treat a fall as 0, agree exactly when the month's counts
  never fall or never rise (`MonthlyIsSumOfDailies`).
- An IPv6 address is judged by the IPv6 rules alone, also when it embeds an IPv4 address.

## Model

| member | source | states |
|---|---|---|
| GeoSnapshot.NormalizeAccepts | src/geo/snapshot.rs:33-40 | a provider value is accepted exactly when it is two ASCII letters between blanks, and the code is those letters in upper case |
| GeoSnapshot.NormalizeIsStable | src/geo/snapshot.rs:33-40 | a normalised code is two upper-case letters and normalises to itself |
| GeoSnapshot.AssembleSnapshot | src/geo/snapshot.rs:46-83 | the loops and sort compute the group-by of the first row of each IP, for any rows |
| GeoSnapshot.TallyRows | src/geo/snapshot.rs:47-66 | after the loop each total is the number of distinct IPs whose first row gives that code, and the rest are unknown |
| GeoSnapshot.GroupsAreExact | src/geo/snapshot.rs:46-83 | each count is the number of IPs of its code, every code present has one group, groups are in strict order by count then code |
| GeoSnapshot.PeersAreCountedOnce | src/geo/snapshot.rs:71-83 | country counts plus unknown equal the number of distinct IPs |
| GeoSnapshot.OrderOfRowsIsIrrelevant | src/geo/snapshot.rs:46-83 | rows with distinct IPs give the same snapshot in any order |
| GeoSnapshot.FirstRowWins | src/geo/snapshot.rs:47-66 | an address counts under the country of the first row that mentions it, whatever later rows say |
| GeoSnapshot.GroupViewTallies | src/geo/snapshot.rs:46-83 | for any country text per address, each code's count is the number of addresses whose text spells it, a code nobody has gets no row, larger groups come first and equal ones by code, and all other addresses are the unknown ones |
| GeoStore.PeerGeoDb.ReplacePeerSnapshotTx | src/geo/store.rs:392-422 | a commit leaves exactly the deduplicated IPs, each stamped with the clock, and returns the sorted stale ones; a failure changes nothing |
| GeoStore.PeerGeoDb.UpdateLocationCacheTx | src/geo/store.rs:428-459 | a commit applies both conflict clauses entry by entry; a failure changes nothing |
| GeoStore.PeerGeoDb.BuildGeoViewSnapshot | src/geo/store.rs:463-474 | a read counts each peer under the code its cache row's country spells, once, and a peer without a row or code as unknown |
| GeoStore.ViewTallies | src/geo/store.rs:463-474 | the same of the view of any tables, in terms of the rows alone |
| GeoStore.SelectStale | src/geo/store.rs:408-419 | the query's rows are the ascending enumeration of the peers with no row or an old one |
| GeoStore.CacheRefinesLog | src/geo/store.rs:428-459 | for every run and IP, the cache row is that of the IP's last success, else what was there, else the defaults, with the last error; batching and other IPs never matter |
| GeoStore.ReplaceReturnsWhatIsDue | src/geo/store.rs:388-422 | the IPs returned are those never refreshed or refreshed over 24 hours ago if and only if the clock is past 24 hours or none has only failures |
| GeoStore.EarlyClockSkipsFailedIp | src/geo/store.rs:408-419 | a concrete early clock at which an IP that only failed is due but not returned |
| PeerAddresses.EnrichableIsOutsideReservedBlocks | src/geo/peers.rs:42-60 | an address may be looked up exactly when, as a number, it lies outside every reserved block (section 3 of RFC 1918, section 2.5.6 of RFC 4291, section 3.1 of RFC 4193 among them) |
| PeerAddresses.MergeNodeResults | src/geo/peers.rs:85-96 | the sorted, duplicate-free union of all nodes' addresses, or the first node's error |
| PeerAddresses.FirstErrorAt | src/geo/peers.rs:85-93 | the error told is that of the first node that failed |
| PeerAddresses.FirstErrorMeans | src/geo/peers.rs:85-93 | the merge fails exactly when some node failed |
| GeoPipelineProofs.MailStep | src/geo/store.rs:227-254 | every client has at most one command or reply under way, and exactly one while it waits |
| GeoPipelineProofs.OrdersStep | src/collect/peer_geo.rs:85-100 | a queued snapshot is the union of the latest, complete and still open round, and a replace's reply carries IPs that were due at that round's commit |
| GeoPipelineProofs.CommitsStay | src/geo/store.rs:234-240 | no step changes a round that was committed: a commit only closes the latest, still open one |
| GeoPipelineProofs.FreshStep | src/geo/store.rs:227-254 | each step of each thread keeps the panel fresh or a refresh on its way |
| GeoPipelineProofs.PendingStep | src/collect/peer_geo.rs:105-131 | each step keeps the pending set equal to the IPs of unreleased tasks |
| GeoPipelineProofs.LookupsStep | src/collect/peer_geo.rs:100-119 | each step keeps every task's IP, and every IP next in line, enrichable, reported in the round whose commit caused the look-up, and due at that commit |
| GeoPipelineTheorems.PanelIsFresh | src/main.rs:401-424 | in every reachable state the panel shows the committed tables, or a wake, an owed wake, a retry or a refresh is on its way; with none of these it shows exactly them |
| GeoPipelineTheorems.PanelSettles | src/app.rs:53-65 | once writers pause and reads succeed, at most a stated number of steps remain, and when none is left the panel is current |
| GeoPipelineTheorems.QuietStepsDecrease | src/main.rs:401-424 | each worker or UI step without new writes lowers the bound |
| GeoPipelineTheorems.PeerTableIsLastStoredRound | src/collect/peer_geo.rs:85-100 | the peer table is the union of the last round that was stored, and every node answered in a stored round |
| GeoPipelineTheorems.FailedRoundsChangeNothing | src/collect/peer_geo.rs:96-98 | over any run in which every round has a failing node, the peer table stays as it was, stamps included, whatever the other threads do |
| GeoPipelineTheorems.EnrichmentDiscipline | src/collect/peer_geo.rs:100-133 | at most one unreleased task per IP, pending is exactly their IPs and the one being spawned, and each look-up was caused by the last commit before it: the IP was reported in that round, enrichable, and had no cache row or one older than 24 hours at that commit |
| GeoPipelineTheorems.LookedUpAddressesWereReported | src/collect/peer_geo.rs:100-119 | every looked-up text is the print of an enrichable address some node reported in the round that caused the look-up, at whose commit it was due |
| GeoPipelineTheorems.ReturnDrainsTasks | src/collect/peer_geo.rs:140-142 | when the collector has returned, each task attempted its cache write once and nothing is pending |
| GeoEnrichment.ServedStep | src/collect/peer_geo.rs:100-131 | each step of any thread keeps every enrichable IP that was due at a delivered commit next in line, or held by some task after that commit |
| GeoEnrichment.EveryDueAddressIsServed | src/collect/peer_geo.rs:100-131 | in every run such an IP is next in line or some task held it after the commit that found it due, and some task held it once the collector waits for its next round |
| GeoEnrichment.EveryDueAddressWasLookedUp | src/collect/peer_geo.rs:100-142 | when the collector has returned, a task that attempted its one cache write held every such IP after its commit; the write came after the commit too, unless a task straddled it, written before and released after |
| GeoEnrichment.ClaimSkipsExactlyTheHeld | src/collect/peer_geo.rs:101-131 | in every run a claim passes over an IP if and only if a task holds it at that moment; otherwise a task is spawned for it |
| GeoEnrichment.FailureBeforeCommitWaits | src/collect/peer_geo.rs:101-131 | a run in which a failure written before a commit is not retried for that commit, because its task still held the IP when it was claimed |
| GeoPipelineTheorems.TablesAreTheTransactions | src/geo/store.rs:227-254 | in every interleaving the tables are the worker's transactions in the order it took them |
| GeoPipelineTheorems.CacheRowsInEveryRun | src/geo/store.rs:424-459 | so each cache row is determined by the entries its IP's tasks wrote, in every interleaving |
| GeoAnswers.HeardIsTheAnswer | src/collect/peer_geo.rs:118-120 | in every run, what a task has heard is the answer its look-up was given |
| GeoAnswers.CacheTellsTheAnswers | src/collect/peer_geo.rs:179-193 | in every run, an IP's row has the country, loc and clock of the last committed answer with a location, a missing field as the empty text; an answer without one, or an error, leaves these three and puts down a last error |
| GeoAnswers.RestingPanelTellsTheAnswers | src/geo/store.rs:463-474 | whenever nothing is outstanding, the panel counts each peer of the last stored round under the country the service last told for it, and the others as unknown |
| GeoProgram.PeerGeoWorker.Serve | src/geo/store.rs:227-254 | one turn commits, wakes only after a committed write, and replies, as the worker's uninterrupted steps do |
| GeoProgram.GeoPanel.RefreshGeoSnapshot | src/app.rs:53-56 | a refresh takes over a good reply and arms the retry on a failed one, as the UI's step does |
| GeoProgram.GeoPanel.RetryGeoSnapshot | src/app.rs:59-65 | a retry reads only after a failure |
| GeoProgram.Enrichment.SpawnAll | src/collect/peer_geo.rs:101-133 | the loop claims every enrichable IP and spawns one task for each that was not pending |
| GeoProgram.SpawnLoopIsARun | src/collect/peer_geo.rs:101-133 | the uninterrupted spawn loop is a run of the transition system |
| BlockCharts.ChainStats.RecordBlockSample | src/collect/data.rs:154-181 | one sample updates figures, buffers and saturating interval as the specification says |
| BlockCharts.RecordSummarises | src/collect/data.rs:154-181 | drained and buffered counts stay the initial 0 and the whole history; maxima, the first block attaining the maximum, and intervals stay functions of the history |
| BlockCharts.AttainsStep | src/collect/data.rs:167-170 | the named block stays the first that reached the maximum |
| BlockCharts.IntervalIsTheGap | src/collect/data.rs:160-180 | a block's interval is 1000 times the seconds since the last stamped block before it, 0 if the clock went back and capped at 64 bits; before a stamped block there is none |
| BlockCharts.SixSeconds | src/collect/data.rs:172-174 | blocks stamped 100 and 106 give the one interval 6000 |
| BlockCharts.DrainSummarises | src/collect/data.rs:615-621 | draining moves a buffer behind what was drained before and changes no figure |
| BlockCharts.Chart.AppendU64Samples | src/widgets/chart.rs:528-541 | the window after an append is the last 200 of the old window and the enumerated samples |
| BlockCharts.ChartAppend | src/widgets/chart.rs:519-541 | trimming after each append never shows: the window is the last 200 points of the whole stream |
| BlockCharts.ChartPoints | src/widgets/chart.rs:519-541 | a chart holds the last 200 of the initial point and the samples, each at its own number |
| BlockCharts.TxsWidget.Update | src/widgets/txs.rs:102-111 | the widget takes the figures and drains the transaction buffer into its chart |
| BlockCharts.TimeWidget.Update | src/widgets/time.rs:99-107 | the widget takes the figures and drains the interval buffer into its chart |
| UiRefresh.Data.RecordBlockSample | src/collect/data.rs:696-704 | recording sets the chain bit and leaves a token |
| UiRefresh.Data.UpdateConsensusState | src/collect/data.rs:706-713 | node states are replaced, their bit is set and a token left |
| UiRefresh.Data.UpdateNodeDetails | src/collect/data.rs:654-694 | node details are replaced, their bit is set and a token left |
| UiRefresh.Data.SetStatusMessage | src/collect/data.rs:746-760 | a changed status sets its bit and leaves a token, an unchanged one does nothing |
| UiRefresh.Data.ReplaceSystemStats | src/collect/data.rs:439-451 | new figures clamp the disk index, set the system bit, leave a token, and the previous alert flag is returned |
| UiRefresh.Data.TakeUiDirty | src/collect/data.rs:587-589 | the bits are handed over and cleared |
| UiRefresh.App.RefreshDirtyWidgets | src/app.rs:67-99 | with no producer in between, exactly the widgets of the taken bits are refreshed, in order, and a redraw is asked for when any bit was set |
| UiRefresh.App.SwitchDiskSelection | src/app.rs:119-147 | the index moves cyclically, the disk widget follows, and a redraw is asked for exactly when the selection changed |
| UiRefreshProofs.CoveredStep | src/collect/data.rs:544-578 | each step keeps every widget current, marked by its bit, or still to be refreshed |
| UiRefreshProofs.WokenStep | src/collect/data.rs:544-552 | each step keeps a wake behind every set bit |
| UiRefreshProofs.NoLostUpdate | src/main.rs:385-398 | in every reachable state a set bit has a token or a UI that took one, and data a widget lacks is marked or in the taken set |
| UiRefreshProofs.DataHoldsWhatWasPutIn | src/collect/data.rs:654-760 | in every run the data holds, for node states, details, status and system figures, the last value a producer put in, and every recorded block |
| UiRefreshProofs.RestingScreenIsCurrent | src/main.rs:385-398 | whenever the UI waits and no token is left, no bit is set, every widget holds the data, and the screen shows the last node states, details, status and system figures that producers put in |
| UiRefreshProofs.ChartsFollowTheStream | src/collect/data.rs:615-621 | in every state drained plus buffered is the whole history and the charts are the windows of what was drained |
| UiRefreshProofs.RestingChartsAreTheHistory | src/widgets/chart.rs:519-541 | at rest the screen's charts and maxima are functions of all recorded blocks |
| UiRefreshProofs.SelectionMoves | src/app.rs:119-174 | forward is one disk on, from the last to the first; backward is undone by forward; new figures keep the selection while its disk is there, else take the last; no other step moves it |
| UiRefreshProofs.SwitchingBackUndoes | src/app.rs:150-174 | forward then backward, and backward then forward, leave the selection where it was |
| UiRefreshProofs.ScreenSettles | src/main.rs:385-398 | undisturbed, the UI is never stuck, takes a bounded number of steps, and then shows the data |
| UiRefreshProofs.DiskMessagesAreTheEdges | src/collect/system_stats.rs:289-324 | whatever happens in between, the disk messages of a run are the edges of the alert flags put in, so warnings and all-clears alternate, a warning first |
| UiRefreshProofs.LoopArmIsARun | src/app.rs:67-99 | the event-loop arm is the interleaved system's run with nothing in between |
| Calendar.IsoOrderIsDateOrder | src/collect/daily_snapshot.rs:92-99 | date texts compare as the dates do, for every two dates of years 0 to 9999 |
| Calendar.PredIsPrevious | src/collect/daily_snapshot.rs:132-136 | the previous day is the greatest earlier date, leap years included |
| Calendar.LeapYearsCounted | src/collect/daily_snapshot.rs:132-136 | the leap years from 0 up to any year y number y/4 - y/100 + y/400 + 1 |
| Calendar.MonthLengths | src/collect/daily_snapshot.rs:132-136 | the twelve month lengths, February's with the day that the count of leap years gives it |
| DailyHistory.DailyNodeSnapshotStore.Upsert | src/collect/daily_snapshot.rs:92-99 | the date's old entry goes, the new one is added, and the list is sorted by date text |
| DailyHistory.DailyNodeSnapshotStore.Prune | src/collect/daily_snapshot.rs:101-108 | the last 32 entries remain |
| DailyHistory.DailyNodeSnapshotStore.SendDailySummary | src/collect/node_detail.rs:227-246 | the report is computed from what was stored before today is saved |
| DailyHistory.StoreRefinesHistory | src/collect/daily_snapshot.rs:92-108 | after any saves the store is strictly date-sorted and holds exactly the newest dates ever saved, each with its newest content |
| DailyHistory.RefinementIsUnique | src/collect/daily_snapshot.rs:92-108 | only one store has those properties |
| DailyReports.PreviousMonthIsRetained | src/collect/daily_snapshot.rs:253-261 | the previous month's first snapshot is still stored at any report on a 1st, also when that day was saved before |
| DailyReports.PreviousDayIsRetained | src/collect/daily_snapshot.rs:132-136 | the previous day's snapshot is still stored at any report |
| DailyReports.ThirtyTwoDaysAreExactlyEnough | src/collect/daily_snapshot.rs:26 | every report on a 1st finds the previous month's first snapshot if and only if the limit is at least 32 |
| DailyReports.ShorterHistoryFails | src/collect/daily_snapshot.rs:26 | a concrete January on which any smaller limit loses it |
| DailyReports.DailyIsGain | src/collect/daily_snapshot.rs:219-251 | a node's reported daily quantity is its block count less the day before's, and 0 if it fell |
| DailyReports.MonthlyIsGain | src/collect/daily_snapshot.rs:219-251 | its monthly quantity is its block count less that of the previous month's 1st, and 0 if it fell |
| DailyReports.LookupGivesTheMatch | src/collect/daily_snapshot.rs:263-288 | a node is compared with the first stored record of its id, or, without an id or when that is not stored, with the first of its name; nothing is found only when neither exists |
| DailyReports.EntryTells | src/collect/daily_snapshot.rs:219-251 | an entry carries the node's own figures, its rise over the matching record of the day before, and on the 1st, and only then, the rise over that of the 1st of the month before |
| DailyReports.NothingStoredNothingTold | src/collect/daily_snapshot.rs:219-261 | without a snapshot of that day the quantity is left untold |
| DailyReports.MonthlyIsSumOfDailies | src/collect/daily_snapshot.rs:219-288 | for a node present every day, the monthly quantity never exceeds the sum of the month's dailies and equals it if and only if its counts never fall or never rise, whatever was saved before |
| RateLimit.AdmittedAreSpaced | src/notify.rs:512-532 | admitted times are at least the limit apart, for any clock readings |
| RateLimit.WindowBound | src/notify.rs:512-532 | a window of length W holds at most W / limit + 1 of them |
| RateLimit.AdmittedIsOptimal | src/notify.rs:512-532 | for a clock that never runs backwards no selection with that spacing is larger |
| RateLimit.NoLimitAdmitsAll | src/notify.rs:518-520 | a zero limit admits everything |
| RateLimit.AllAdmittedIfSpaced | src/notify.rs:512-532 | everything asked for is admitted if and only if it is already the limit apart |
| RateLimit.PollDue | src/collect/peer_geo.rs:148-158 | after any earlier polls, one more is due exactly when the one-minute spacing rule admits it, and the clock left behind is that of the longer history |
| RateLimit.PollsAreAMinuteApart | src/collect/peer_geo.rs:148-158 | the poll clock of any history is the spacing rule with a one-minute limit, so rounds start at least a minute apart |
| Notifications.FilterFromOpts | src/notify.rs:86-111 | a kind is enabled exactly when no option is given or one of the three that name it is |
| Notifications.QuietSummaryBuffer.Record | src/notify.rs:409-422 | the total and the event's bucket are counted up, with at most three distinct names |
| Notifications.QuietSummaryBuffer.TakeSnapshot | src/notify.rs:424-450 | the summary tells the buffer's contents, or nothing for none, and the buffer is emptied |
| Notifications.NotificationState.MarkConnectionFailed | src/notify.rs:468-476 | due unless already known to be down |
| Notifications.NotificationState.MarkConnectionRecovered | src/notify.rs:478-486 | due only if known to be down |
| Notifications.NotificationState.PlanRankingChange | src/notify.rs:488-510 | a change from the last positive ranking, if it differs |
| Notifications.NotificationState.AllowDelivery | src/notify.rs:512-532 | let through and stamped unless less than the limit has passed |
| Notifications.TelegramNotifier.SendIfEnabled | src/notify.rs:785-811 | filter, limiter and quiet hours decide in that order, and a daily summary ignores quiet hours |
| Notifications.TelegramNotifier.NotifyNodeConnectionFailed | src/notify.rs:586-609 | a due failure is offered for delivery under its own limiter key |
| Notifications.TelegramNotifier.NotifyNodeConnectionRecovered | src/notify.rs:611-633 | a due recovery is offered for delivery under its own limiter key |
| Notifications.TelegramNotifier.NotifyNodeRankingChange | src/notify.rs:635-656 | a planned change is offered for delivery under its node's limiter key |
| NotificationTraces.NoticesAreTheEdges | src/notify.rs:468-486 | the notices due about a connection are its observations with leading recoveries dropped and repeats collapsed, whatever else is observed |
| NotificationTraces.NoticesAlternate | src/notify.rs:468-486 | due notices alternate, a failure first, and the last one due tells the recorded state |
| NotificationTraces.ConnectionKeysIdentify | src/notify.rs:672-677 | names hold no '@' (src/collect/collector.rs:71), so different connections never share a key |
| NotificationTraces.LimitKeysNeverClash | src/notify.rs:603-665 | different kinds and different subjects never share a limiter key |
| NotificationTraces.ChangesFormAChain | src/notify.rs:488-510 | a node's first positive ranking and the ones its due changes lead to are its positive rankings without repeats, each change starting where the last ended |
| NotificationTraces.DeltasTelescope | src/notify.rs:704-731 | the deltas with the sign the message gives them, plus for a climb, add up to the first positive ranking less the last |
| NotificationTraces.LimiterIsPerKey | src/notify.rs:795-806 | over any run, what is let through for a key is what the spacing rule admits of that key's enabled events |
| NotificationTraces.NoticesAreSpaced | src/notify.rs:512-532 | so deliveries of a key, sent or buffered, are at least the limit apart |
| NotificationTraces.NothingLimitedIfSpaced | src/notify.rs:512-532 | a key loses nothing to the limiter if and only if what it asks for is already the limit apart |
| NotificationTraces.BufferIsWhatIsHeld | src/notify.rs:362-422 | in every reachable state the buffer's counts and first three distinct names are those of the events since the last flush |
| NotificationTraces.DistinctAreFirsts | src/notify.rs:362-376 | the distinct names are the first occurrences, in the order they came |
| NotificationTraces.TotalIsTheSum | src/notify.rs:400-422 | the buffered total is the sum of the three bucket counts |
| NotificationTraces.SummaryAccountsForTheHeld | src/notify.rs:429-450 | a message carries a summary exactly when something is held, and its total and its lines add up to it |
| NotificationTraces.SummaryTellsTheHeld | src/notify.rs:429-450 | a summary has one line for each kind held, failures, recoveries, rankings, with the number of that kind and its first three distinct names |
| NotificationTraces.PassesByTheRules | src/notify.rs:785-806 | an attempt passes exactly when its kind is enabled and the spacing of its key admits it |
| NotificationTraces.QuietHoursDecide | src/notify.rs:795-811 | in every run, of what passes, exactly the attempts in quiet time other than daily summaries are kept back and exactly the others are sent, in order |
| NotificationTraces.QuietTimeIsQuiet | src/notify.rs:795-811 | only daily summaries leave in quiet time, and nothing is buffered outside it |
| NotificationTraces.QuietedAreFlushedOrHeld | src/notify.rs:785-811 | the events kept back by quiet hours are, in order, those summaries were sent for and those still held |
| NotificationTraces.EventsAreConserved | src/notify.rs:785-811 | what passes filter and limiter equals messages sent, plus totals of summaries sent, plus the buffered total |
| NotificationDelivery.AttemptsAreTheOffers | src/notify.rs:586-665 | in every interleaving the delivery attempts are the offers made, in order, each with its subject, clock reading and quiet-hours flag |
| NotificationDelivery.ToldStep | src/notify.rs:586-665 | each step of any task keeps every notice due about a connection offered once or held by a task, however many tasks watch it |
| NotificationDelivery.EveryEdgeIsOfferedOnce | src/notify.rs:586-665 | however any number of tasks interleave, each edge of a connection is offered once or still held, and what was offered is conserved between messages, summaries and the buffer |
| NotificationDelivery.EdgesAreOfferedInOrder | src/notify.rs:586-633 | a connection watched by one task has its edges offered in order, under every interleaving |
| NotificationDelivery.OrderNeedsOneTask | src/collect/collector.rs:67-81 | for any list of connections, the edges of one are offered in order in all runs, and mirrored in all unhindered runs, if and only if no two tasks watch it |
| NotificationDelivery.SecondTaskOvertakes | src/collect/collector.rs:67-81 | a run of two tasks on one connection that tells the recovery before the failure, with nothing disabled and no limit |
| NotificationDelivery.RankingNoticesAreTheChain | src/collect/node_detail.rs:391-396 | under every interleaving, the changes offered for a node lead in order from each of its positive rankings to the next |
| NotificationDelivery.ForwardedMirrorsTheEdges | src/notify.rs:785-811 | with nothing outstanding, what is sent or buffered about a connection mirrors its edges if and only if each kind is enabled with edges at least the limit apart, or never occurs, and the offers kept the order, which one task on the connection ensures |
| NotificationDelivery.SecondFailureIsSwallowed | src/notify.rs:512-532 | a run in which the last notice let out says recovered while the connection is recorded as down |
| PriorityLines.SelectPrioritizedLines | src/widgets/helpers.rs:55-79 | the result is the lines at the kept positions, in their order, on all three branches |
| PriorityLines.KeptAreTheBest | src/widgets/helpers.rs:68-72 | exactly min(n, rows) positions are kept and no dropped one ranks before a kept one |
| PriorityLines.KeptBeforeDropped | src/widgets/helpers.rs:68-72 | a kept line has a smaller priority number than a dropped one, or the same number and stands earlier |
| PriorityLines.BestAreUnique | src/widgets/helpers.rs:68-72 | only one set of positions has that property |
| PriorityLines.TallerKeepsMore | src/widgets/helpers.rs:55-79 | more rows keep all that fewer rows kept |
| PriorityLines.SelectionIsASubsequence | src/widgets/helpers.rs:74-78 | the result is a subsequence of min(n, rows) lines in their original order |
| CountryGrid.ColumnsFit | src/widgets/countries.rs:252-262 | for every width the last column ends inside the area |
| CountryGrid.ColumnsAreMaximal | src/widgets/countries.rs:252-262 | fewer than five columns are used only when one more would not fit |
| CountryGrid.RowWidthIsTheText | src/widgets/countries.rs:100-123 | a row is as wide as its code, count and brackets written out, and in the full form as the flag and a blank more |
| CountryGrid.PeerCountriesWidget.CountryWidths | src/widgets/countries.rs:435-460 | the running maxima are the widest row in each form, the unknown row included |
| CountryGrid.ModeIsTheRichestThatFits | src/widgets/countries.rs:462-475 | flags are shown exactly when enabled and every row fits with them, and rows are given up exactly when some row does not fit without |
| CountryGrid.RowsFit | src/widgets/countries.rs:370-418 | every planned row lies in the area, above the summary row, at its full column width, which holds its text |
| CountryGrid.RowsAreDisjoint | src/widgets/countries.rs:382-418 | no two planned rows overlap |
| CountryGrid.EveryCountryIsAccountedFor | src/widgets/countries.rs:370-433 | when rows are drawn they tell the first countries with their peers and then the unknown peers if any, and none of the hidden countries comes before a drawn one |
| CountryGrid.FullWhenHidden | src/widgets/countries.rs:366-375 | while a known country is hidden though rows are drawn, every slot of the grid is taken |
| CountryGrid.HiddenOnlyWhenFull | src/widgets/countries.rs:366-433 | then no place is left: wherever a row could stand in one of five columns, inside the area and above the summary, a painted row is in the way |
| CountryGrid.CellsFollowEachOther | src/widgets/countries.rs:377-418 | rows are filled from the top left, side by side with a gap of two while one more fits and fewer than five stand there, then the next line |
| CountryGrid.FrameAddsUp | src/widgets/countries.rs:352-433 | rows are drawn unless none are due or one does not fit without its flag; all are as wide as the widest in the richest form that fits; the summary tells the known countries, those not painted, and the peers |
| CountryGrid.EmptyFrames | src/widgets/countries.rs:319-350 | what is painted without an area, before the first read, and without peers |
| CountryGrid.PeerCountriesWidget.RenderContent | src/widgets/countries.rs:314-433 | for every area, despite narrowing casts and skipped rows, exactly the planned rows and summary are painted |
| CountryGrid.PeerCountriesWidget.RefreshSnapshot | src/widgets/countries.rs:299-312 | a failed read keeps the last good snapshot |

## Left out

- Network access, RPC, the Telegram HTTP calls, WebSocket subscription and reconnection: what they answer is an arbitrary input of a step.
- SQLite, migrations and the JSON file with its rename: transactions are atomic and a saved store reads back unchanged.
- The store that stands in when the database cannot be opened, shutdown after a dead worker, and poisoned locks.
- Painting: styles, borders and the other widgets' drawing. How wide a flag is drawn is a parameter, and a country code is as wide as its length.
- Parsing of addresses and JSON: a codec of printing and parsing is a parameter, assumed lawful only where stated.
- Rewards and network rates, which are floating point, and the rounding of chart values above 2^53.
- Command-line parsing, membership in the quiet hours, message templates and translated error texts. A quiet summary keeps the figures and names, not the sentence.
- Node states and node details inside the shared data are opaque values: merging one node's fields into another's is a single-function fact.
- The order in which a hash map hands out equal elements.
- The wrap-around of the chart's update counter and of the quiet counters, after 2^64 samples or events.
- Clock overflow when the next poll is scheduled.
- The expiry of a status message: a frame shows the message in the data, whose text and level are opaque.
- The collector in the pipeline may start before the first read of the panel; the program starts it after, so its runs are among those modelled.
- The time-out of a ranking request can end its round early; rankings it cuts off are never observed, since nothing is awaited between observing one and deciding on its notice.
- Calendar.IsoOrderIsDateOrder: dates outside years 0 to 9999 are not modelled, because their text has a sign and sorts differently.
- DailyReports.MonthlyIsSumOfDailies: block quantities only, because rewards are floating point.
