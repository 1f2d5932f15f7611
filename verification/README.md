# OpsCat: what the shippers promise, proved

A Dafny model of the parts of OpsCat that decide what happens to somebody else's data, with
proofs about every run and every input. `dafny verify dfyconfig.toml` checks all of it.

**The syslog collector's shipping engine** (`collector/opscat-collector.js`) is the main part. It
keeps one stream per tenant: a bounded queue, counters, a polled configuration, a backoff and a
negative cache. Messages arrive, configurations are polled, batches are posted, losses are
reported, idle streams are forgotten, and all of it interleaves at every `await`.
`stream_model.dfy` and `gateway_model.dfy` say what each uninterrupted stretch of the source does
to the state. The fields marked as history are not in the source; they remember where every line
went. A run is a sequence of such stretches with their times, so a theorem about all runs is a
theorem about all interleavings. `collector_process.dfy` is the same program in its own form:
stream and configuration objects updated in place, the map of streams, the module's counters and
the scheduler as a coroutine. Each of its methods is proved to take exactly the machine's step.
The theorems are in `collector_theorems.dfy`, `silent_losses.dfy`, `never_silent.dfy`,
`provenance.dfy`, `configuration.dfy`, `queue_bound.dfy`, `timing_laws.dfy`, `poll_fairness.dfy`,
`idle_sweep.dfy`, `first_poll.dfy`, `unconfigured.dfy` and `tick_shipping.dfy`; the invariants under
them are in `stream_laws.dfy`, `gateway_laws.dfy` and `tick_laws.dfy`, and the states shown to be
reachable are built step by step from boot (`reachable_runs.dfy`). `step_tables.dfy` says what each
single step does in the source's own numbers and letters (status codes, delays, the sixteen and the
eight, the text of a report), with nothing of the machine's definitions in the statements.

A tick's start, each poll's request, the choice of what to ship and each group of POSTs are separate
steps, but as in the source nothing gets in between them: away from an `await` only the scheduler's
own next step can happen, until a shutdown is signalled. So the runs shown to be possible are runs of
the process too.

Around it:

- `syslog_framing.dfy`, `framing_theorems.dfy`: cutting a TCP stream into messages, and what the
  pieces it arrives in can change (`server/src/lib/syslog.js`).
- `wireguard.dfy`: bringing a WireGuard interface to the server's peer list.
- `cert_search.dfy`: the bounded search for a certificate.
- `probe_*.dfy`: the agent's pool of synthetic checks (`agent/opscat-agent.js`).
- `log_batcher.dfy`: the agent's journal queue.
- `placeholder_*.dfy`: the SQLite to Postgres placeholder rewriter and its argument binding
  (`server/src/db/pg-sql.js`), with the contract its fuzz test samples (`server/e2e-pgsql.js`).
- `wrappers.dfy`, `numbers.dfy`, `distinct.dfy`: an option type, numbers as they are written, and
  sequences without repeats.

## Where the code falls short, exactly

Each of these is a theorem with the exact condition, or a run that shows it. Where a comment in the
source says otherwise, its lines are named.

- "Never lose a line silently" (collector, lines 39-42): `NeverSilentExactly` says when it holds of
  a run, from boot to wherever it has got, the end of the process included. There are four ways it
  fails.
  - `fetch` throws: the batch in hand is neither put back nor counted. `LostExactlyWhenThrown` says
    how many lines go, `ThrowLosesALine` shows one.
  - A drop is told in one line of the tenant's own stream, and that line can itself be dropped,
    cleared on a refusal or lost in a throw, with the number it carried. `UntoldStep` says what each
    step takes this way, `DropsToldExactlyWhenTidy` when none does, and `ReportCanBeDropped` is a run
    without a throw or a sweep, in any mode.
  - The idle sweep "can never be a way to lose one" (lines 370-374), but it can forget a drop count
    nobody has been told about: `ToldStep`, and `SweepCanForgetADrop` in tunnel mode.
  - The process ends with lines queued or in flight, or with drops or counts it has not reported.
    Outside gateway mode a refused key does that at once, to the queues of every tenant:
    `ExitLosesTheQueue`. In any mode a shutdown makes one pass and waits only for that
    (`ShutdownWaits`), and what is left in memory goes: `ShutdownLosesALine`.

  Lines cleared because their key was refused count as told in all this. They are not reported in "a
  log line of its own", though: they reach only the process-wide count on the gateway's stderr.
- A stale tunnel peer's 404 (lines 314-322) stops the process, since `keyRefused` exits outside
  gateway mode: `ExitsExactly`.
- A refusal lands on the stream object that was polled. If the sweep took that object out of the
  map during an earlier poll, nothing remembers the refusal: `PollRefusalShutsExactly`,
  `RefusalCanBeForgotten`.
- `MAX_QUEUE` is not the bound on a queue, because a batch that is put back is not checked against
  it. `OverExactly` says after which steps a queue is over, `QueueCanExceedMax` gives a run for every
  mode and every `MAX_QUEUE`, and `MemoryBounded` says what the bound is.
- "The poll happens before the flush" (lines 694-696), so that prefix and switch are known. It
  happens for the first sixteen due streams of a tick only: `NeverPolledExactly` says which streams
  reach the flush never polled, `ShipsBeforeFirstPoll` is a run in which one ships. And a poll that
  throws or is answered with an error brings no configuration, so even a stream that was polled
  first can ship under the defaults: `ConfiguredOnlyIfListed`, `ShipsUnderDefaults`,
  `PolledShipsUnconfigured`.
- The sweep is there so that the cap on tenants is not "a high-water mark that only ever rises" (lines
  370-374). In gateway mode it is one. Silent tenants are polled like all others, and the sweep spares
  whoever was polled lately, so while ticks keep coming a stream once polled is never forgotten
  (`ConfigurationAgeBounded`), a sweep takes only streams never polled (`SweepTakesExactly`), and a
  map full of polled streams turns every other token away after any run (`FullMapStaysFull`,
  `TwoTenantsFillIt`).
- "One tenant's slow POST must not hold up the rest" (lines 701-702): it does. A group of eight waits
  for its slowest, and until then no other POST, poll or tick starts: `OneSlowPostHoldsAll`,
  `AnotherWaits`. What a tick does give each stream is `EachReadyStreamOnce`.
- The certificate search reads 4096 directories, last listed first. `FoundExactly` says what it finds
  in a tree of any size, `BiggerTreesCanMiss` that a file can be there and not be found.
- An LF-framed line longer than the limit comes out differently depending on where the stream is
  cut: `SplitLinesExactly`.
- `?` directly before a digit changes the number Postgres reads: `ReadsBackExactly`,
  `DigitRunsInto`.
- Two checks with one id are started together and both count as due: `CycleSpacedExactly`,
  `DuplicatesRunTwice`.
- Two WireGuard keys that want one address leave the earlier key with none: `Converges`,
  `PassSettles`.

## Model

| member | source | states |
|---|---|---|
| `CollectorTheorems.EveryMessageAccounted` | collector/opscat-collector.js:218-250 | over every run, each non-empty message is counted once: without a tenant, past the cap, refused at the door, or received by a stream; and each process counter is that count less what was already told |
| `CollectorTheorems.EveryLineAccounted` | collector/opscat-collector.js:207-341 | per stream, received = shipped + queued + in flight + dropped and not yet reported + dropped and reported + cleared on a refusal + lost in a throw; nothing is shipped or held that did not arrive |
| `NeverSilent.NeverSilentExactly` | collector/opscat-collector.js:39-42 | over every run: everything received is shipped, told in a shipped report or cleared by a refusal, or, while the process runs, still held or counted, and a process that ended had told its own counters; if and only if no POST threw with lines in hand, no step dropped, cleared or lost a report, no sweep took a stream with drops to report, and the process, if it ended, ended with every queue, batch, drop count and counter empty |
| `NeverSilent.ExitLosesTheQueue` | collector/opscat-collector.js:195-323 | a run, in collector and tunnel mode and for every MAX_QUEUE, in which a 401 or 404 ends the process with MAX_QUEUE lines queued and a drop just counted, though nothing threw and no report was lost |
| `NeverSilent.ShutdownLosesALine` | collector/opscat-collector.js:711-719 | a run, in any mode, in which a shutdown ends the process with a line put back in the queue |
| `NeverSilent.ShutdownWaits` | collector/opscat-collector.js:711-719 | a shutdown posts for every stream that could ship, and the process ends by it only when every one of those POSTs was answered |
| `SilentLosses.LostExactlyWhenThrown` | collector/opscat-collector.js:334-337 | over every run, the lines received that are in no place and no count a stream keeps are as many as the batches in hand when a POST threw |
| `SilentLosses.ThrowLosesALine` | collector/opscat-collector.js:334-337 | a run, in any mode, in which the one line received is nowhere |
| `SilentLosses.DropsBalance` | collector/opscat-collector.js:347-361 | lines dropped = still counted + told in reports shipped or held + carried by reports that were themselves dropped, cleared or lost |
| `SilentLosses.UntoldStep` | collector/opscat-collector.js:207-216 | each step adds to what goes untold exactly the numbers in the reports it takes: pushed out by an arrival or by a later report, discarded, cleared or thrown away |
| `SilentLosses.DropsToldExactlyWhenTidy` | collector/opscat-collector.js:347-382 | over every run, every drop is still counted on a stream of the map or carried by a report shipped or held, if and only if no step drops, clears or loses a report and no sweep takes a stream with drops still to report |
| `SilentLosses.ReportCanBeDropped` | collector/opscat-collector.js:330-361 | a run, in any mode and without a throw or a sweep, after which one of two drops is neither told nor counted |
| `SilentLosses.ToldStep` | collector/opscat-collector.js:375-382 | a single step forgets an unreported drop exactly when it is a sweep that takes a stream holding one |
| `SilentLosses.SweepCanForgetADrop` | collector/opscat-collector.js:370-382 | a run in tunnel mode after which the sweep has forgotten a drop not yet reported |
| `CollectorTheorems.OrderHolds` | collector/opscat-collector.js:253-341 | over every run, acknowledged lines, then the batch in flight, then the queue are in order of arrival, none twice |
| `CollectorTheorems.TenantsIsolated` | collector/opscat-collector.js:258-286 | every POST ever made claims one tenant and carries only lines that arrived for it, each as it arrived but for the prefix in force when that POST began, put on once |
| `Provenance.LinesComeAsNamed` | collector/opscat-collector.js:218-250 | over every run from boot, each device's line that a stream ever received was brought by a message of that run that named that stream's tenant (its own structured-data token in gateway mode, its address in tunnel mode, the one key in collector mode), in the message's device, text and severity |
| `Provenance.PostsSayWhatDevicesSaid` | collector/opscat-collector.js:258-286 | end to end: each device's line of each POST of a run is some message's device behind the prefix, its text and its severity, under the claim of the tenant that message named: its token whole, its address with the tunnel's key, or the collector's key |
| `Provenance.UnattributedExactly` | collector/opscat-collector.js:227-237 | a message counts as without a tenant if and only if it is not empty and, in gateway mode, has no token of the shape "oc", a small letter, "_", then 16 to 128 of letters, digits, "_" and "-", or, in tunnel mode, comes from an empty or "unknown" address; in collector mode none does. It then does nothing else |
| `TimingLaws.PostsTakeFronts` | collector/opscat-collector.js:253-286 | every POST a step starts takes the front of its stream's queue as it was, as much as the batch size in force allows, under the prefix and the claim in force |
| `CollectorTheorems.OnlyOwnPollConfigures` | collector/opscat-collector.js:136-136 | a stream's configuration changes only when its own poll is answered with one, and then each of the three fields is what was sent, or what it was if none was |
| `Configuration.ConfiguredAsSent` | collector/opscat-collector.js:160-178 | over every run, each field of a stream's configuration is the last value its own answered polls sent for it, and what it was, or the default, if none sent one |
| `Configuration.OffMeansSilent` | collector/opscat-collector.js:253-256 | a stream switched off gets no POST, at no tick and at no shutdown, over any run in which none of its polls is answered with the switch on |
| `Configuration.SwitchedOffPostsNothing` | collector/opscat-collector.js:253-256 | a run in which a poll is answered with the switch off and the tick reaches its POSTs, with a line queued and none made |
| `Configuration.PrefixIsUsed` | collector/opscat-collector.js:258-286 | a run in which a poll is answered with a prefix, and the line goes out under it |
| `CollectorTheorems.OnePostPerTenant` | collector/opscat-collector.js:254-256 | at most one POST per tenant is in flight, across forgetting, re-creation and stale work lists |
| `CollectorTheorems.EightAtOnce` | collector/opscat-collector.js:701-705 | until a shutdown, at most eight POSTs are in flight |
| `QueueBound.OverExactly` | collector/opscat-collector.js:207-326 | after any step a queue is longer than MAX_QUEUE exactly when the step did not clear it and what it held, plus a batch put back, less a batch taken to ship, is more: no arrival or report ever takes it over or brings it back |
| `QueueBound.QueueCanExceedMax` | collector/opscat-collector.js:326-326 | for every mode and every MAX_QUEUE, a reachable state in which a queue holds one line more |
| `QueueBound.MemoryBounded` | collector/opscat-collector.js:207-216 | in every mode, no stream holds more than MAX_QUEUE lines plus the largest batch ever configured; forgotten streams hold none; the map holds one stream in collector mode, at most MAX_TENANTS in the others |
| `TickLaws.ExitsExactly` | collector/opscat-collector.js:195-323 | the steps that end the process, mode by mode and status by status: in gateway mode none but a shutdown's pass that is over |
| `StepTables.Accepted` | collector/opscat-collector.js:287-292 | 200 to 299: the batch is counted as shipped, the delay and the waiting time are 0, all else stays |
| `StepTables.TriedAgain` | collector/opscat-collector.js:303-329 | 429, 500 and up, and the tunnel's 403: the queue is the batch and then what it was, nothing is dropped, the delay is twice the last one, or 1000 after none (5000 for the 403), a minute at most, and runs from the answer |
| `StepTables.ThrownAway` | collector/opscat-collector.js:334-337 | a throw: the same delay, and the batch neither back nor counted |
| `StepTables.KeyTurnedDown` | collector/opscat-collector.js:309-312 | a gateway's 401 and 403: the batch is dropped and counted, the queue cleared and counted, the key refused for BAD_KEY_MS, no delay set |
| `StepTables.Ends` | collector/opscat-collector.js:295-323 | outside gateway mode a 401, the collector's 403 and the tunnel's 404 end the process with the queue as it was, and all but the tunnel's 401 count the batch as dropped |
| `StepTables.NeverAccepted` | collector/opscat-collector.js:330-332 | every other status: the batch is dropped and counted, and nothing waits |
| `StepTables.KnownTenant` | collector/opscat-collector.js:207-250 | a message for a tenant of the map: turned away at the door and counted while its key is refused, otherwise the last line of the queue, the oldest out and counted at MAX_QUEUE |
| `StepTables.UnknownTenant` | collector/opscat-collector.js:146-153 | a message for a tenant the map has not: counted and nothing else at MAX_TENANTS, otherwise the one line of a new stream with the defaults, last in the map |
| `StepTables.PollGoesOut` | collector/opscat-collector.js:160-166 | a poll stamps the first stream of the list with the time, and only that |
| `StepTables.PollAnswered` | collector/opscat-collector.js:168-170 | an answered poll sets the fields it carries on the stream that asked, and nothing else of anybody |
| `StepTables.PollTurnedDown` | collector/opscat-collector.js:195-204 | a refused poll ends the process, or in gateway mode refuses the key for BAD_KEY_MS and clears and counts its queue |
| `StepTables.PollFails` | collector/opscat-collector.js:168-178 | a poll that throws or is answered with an error leaves everything as it was |
| `StepTables.TickLists` | collector/opscat-collector.js:683-697 | a tick polls streams of the map that are due, in its order, at most sixteen, and passes a due one over only for sixteen ahead of it; a tunnel polls nobody |
| `StepTables.TickRanksReady` | collector/opscat-collector.js:700-700 | what is up for shipping is every stream of the map whose delay and refusal were over when the tick began, in the map's order |
| `StepTables.GroupOfEight` | collector/opscat-collector.js:253-286 | the next eight of the list, and nobody else, take their batch out if they are not shipping, have lines and are switched on: the configured size, 500 if none, nothing if negative |
| `StepTables.EveryStreamOnce` | collector/opscat-collector.js:711-719 | a shutdown does the same with every stream of the map |
| `StepTables.DropsOwnedUpTo` | collector/opscat-collector.js:347-368 | every stream of the map with drops gets one line of its own, under the mode's own name and severity, with the dropped, received, shipped and queued counts as they stood, and starts counting again; a gateway and a tunnel tell and reset the process counters |
| `StepTables.SweepTakesOnly` | collector/opscat-collector.js:375-382 | the sweep changes the map and nothing else, and keeps its order |
| `StepTables.BootIs` | collector/opscat-collector.js:662-678 | a gateway and a tunnel start with nothing; a collector with its one stream, polled once and configured by the answer, or with the end of the process if that refused the key |
| `CollectorTheorems.GatewayNeverExits` | collector/opscat-collector.js:190-194 | no sequence of refusals or failures ends a gateway: it ends only if a shutdown was signalled |
| `CollectorTheorems.PostRefusalShuts` | collector/opscat-collector.js:309-312 | a refused POST shuts its key out for BAD_KEY_MS on the stream in the map, and empties its queue |
| `CollectorTheorems.PollRefusalShutsExactly` | collector/opscat-collector.js:697-699 | a refused poll shuts its token out if and only if the stream object polled is still the one in the map |
| `CollectorTheorems.PollRefusalShuts` | collector/opscat-collector.js:195-204 | a refused poll of a stream in the map shuts its key out for BAD_KEY_MS and empties its queue, as a refused POST does |
| `CollectorTheorems.RefusedPollHolds` | collector/opscat-collector.js:197-240 | and until that time, over every run, nothing of that key is queued, no tick posts for it, the sweep does not forget it, the process goes on |
| `CollectorTheorems.RefusalCanBeForgotten` | collector/opscat-collector.js:160-204 | a run in which a refusal falls on a stream object the map no longer has |
| `TimingLaws.RefusalHolds` | collector/opscat-collector.js:236-240 | after a refusal and until its time, over every run: nothing of that key is queued, no tick posts for it, the sweep does not forget it, the process goes on |
| `TimingLaws.PostsAreReady` | collector/opscat-collector.js:700-705 | before a shutdown every POST is a tick's, from a stream past its backoff and past any refusal |
| `TimingLaws.FailureWaits` | collector/opscat-collector.js:325-340 | after a throw, a 429, a status of 500 and up or the tunnel's 403, the delay is min(base * 2^(k-1), 60000) for the kth failure in a row, base 1000, or 5000 in tunnel mode only, and the stream waits it out from then |
| `TimingLaws.NoPostBefore` | collector/opscat-collector.js:700-705 | a stream that waits is not posted for before its time, over every run before a shutdown |
| `TimingLaws.ShutStep` | collector/opscat-collector.js:232-240 | every step before the time keeps the key shut out and queues nothing for it |
| `PollFairness.DueStreamsArePolled` | collector/opscat-collector.js:683-699 | a due stream with n others ahead of it in the map is polled, or listed by the tick under way, once floor(n/16)+1 ticks have started inside POLL_MS |
| `PollFairness.ServedOrSixteen` | collector/opscat-collector.js:689-699 | as long as a due stream is passed over, each tick takes sixteen different streams ahead of it off the waiting list |
| `PollFairness.PolledByThen` | collector/opscat-collector.js:683-708 | with ticks at most a gap apart, a stream due now, ever polled or not, is polled within floor(n/16)+2 gaps, n others being ahead of it |
| `PollFairness.ConfigurationAgeBounded` | collector/opscat-collector.js:683-708 | with ticks at most a gap apart, over any run however long, a stream once polled is never swept, and the request of its last poll is never more than POLL_MS and floor(n/16)+2 gaps ago |
| `TickLaws.LeavesExactly` | collector/opscat-collector.js:375-382 | a step takes a stream out of the map if and only if it is a sweep that finds it empty, idle, not refused, and last polled at least ten minutes and two poll intervals ago |
| `IdleSweep.SweepTakesExactly` | collector/opscat-collector.js:370-382 | in a gateway that keeps ticking, over every run from boot: a sweep takes a stream if and only if it was never polled, holds nothing, has nothing in flight and is not refused |
| `IdleSweep.FullMapStaysFull` | collector/opscat-collector.js:146-153 | in a gateway that keeps ticking, a map full of polled streams holds the same streams after any run, and turns away and counts every message under another token |
| `IdleSweep.TwoTenantsFillIt` | collector/opscat-collector.js:146-153 | with a cap of two, a reachable state in which the map is full of polled streams that hold nothing |
| `PollFairness.TickServesSixteen` | collector/opscat-collector.js:697-697 | a tick that passes a due stream over lists sixteen that were waiting ahead of it |
| `FirstPoll.ListedExactly` | collector/opscat-collector.js:689-697 | a due stream is among those a tick polls if and only if fewer than sixteen due streams are ahead of it in the map |
| `FirstPoll.NeverPolledExactly` | collector/opscat-collector.js:694-700 | when a tick chooses what to ship, a stream of the map was never polled if and only if it was made since the tick began, or had not been polled by then and at least sixteen due streams were ahead of it |
| `FirstPoll.ShipsBeforeFirstPoll` | collector/opscat-collector.js:694-705 | a run in gateway mode in which a tick posts for a stream that was never polled |
| `Unconfigured.DefaultUntilConfigured` | collector/opscat-collector.js:136-170 | over any run, a stream keeps the defaults until a poll of its own is answered with a configuration |
| `Unconfigured.ShipsUnderDefaults` | collector/opscat-collector.js:253-272 | over every run of a gateway, what a stream ships before that goes without a prefix, in default batches, with the switch on |
| `Unconfigured.ConfiguredOnlyIfListed` | collector/opscat-collector.js:689-699 | a tick brings a configuration only to streams due when it began with fewer than sixteen due ones ahead of them |
| `Unconfigured.PolledShipsUnconfigured` | collector/opscat-collector.js:160-178 | a run in which the first stream listed is polled, gets no configuration, and ships in the same tick |
| `TickShipping.EachReadyStreamOnce` | collector/opscat-collector.js:700-705 | over a whole tick and whatever happens in it short of a shutdown: a stream past its backoff and refusal that could ship when the tick ranked gets exactly one POST, none gets two, and one that was not ready gets none |
| `TickShipping.OneSlowPostHoldsAll` | collector/opscat-collector.js:701-705 | while one POST is unanswered, over any run before a shutdown, no other POST, no poll and no tick starts |
| `TickShipping.AnotherWaits` | collector/opscat-collector.js:701-705 | a reachable state in which one tenant's POST is out and another's line is ready to go |
| `TickLaws.RunInv` | collector/opscat-collector.js:683-721 | the invariant of streams, map, requests, balances and scheduler holds after every run |
| `GatewayLaws.RouteKeeps` | collector/opscat-collector.js:146-153 | finding, making or refusing a stream keeps the map's keys the streams' tokens, the cap, and every balance |
| `GatewayLaws.SweepKeepsCore` | collector/opscat-collector.js:375-382 | the sweep keeps the invariant: what it forgets has an empty queue and nothing in flight |
| `GatewayLaws.StartAllKeeps` | collector/opscat-collector.js:703-705 | a pass of `flush` up to the awaits keeps the invariant |
| `GatewayLaws.FinishFlushKeeps` | collector/opscat-collector.js:287-340 | every answer to a POST keeps the invariant and the balances |
| `GatewayLaws.ReportDropsKeeps` | collector/opscat-collector.js:347-368 | reporting drops keeps every balance: the sum reported and still counted is the sum dropped |
| `StreamLaws.EndKeeps` | collector/opscat-collector.js:287-340 | each of the outcomes of a POST keeps order, conservation, the counters, the bound and the closed form of the backoff |
| `StreamLaws.BackoffKeeps` | collector/opscat-collector.js:325-336 | after k retriable failures the delay is min(base * 2^(k-1), 60000), base 1000, or 5000 when a tunnel 403 came first |
| `StreamLaws.EnqueueKeeps` | collector/opscat-collector.js:207-216 | an arrival, whether or not the oldest line goes, keeps order, conservation and the bound |
| `StreamLaws.OverflowKeepsNewest` | collector/opscat-collector.js:209-215 | while nothing ships, however many lines arrive, the newest are the ones kept and every older one is counted |
| `StreamLaws.ConfigIsLastSent` | collector/opscat-collector.js:168-170 | after any replies, for each field: if some reply sent it, it is what the last such reply sent; if none did, it is what it was |
| `StreamLaws.ReportKeeps` | collector/opscat-collector.js:350-361 | a drop report moves its number from the count to the lines received and loses none of it |
| `StreamLaws.CountersBalance` | collector/opscat-collector.js:132-140 | the four counters a stream keeps balance with what it holds and what it lost |
| `CollectorProcess.Cfg.AssignFrom` | collector/opscat-collector.js:170-170 | in place, each of the three fields is what was sent, or what it was if none was |
| `CollectorProcess.StreamObj.Enqueue` | collector/opscat-collector.js:207-216 | the stream afterwards is the specification's, oldest line dropped at MAX_QUEUE |
| `CollectorProcess.StreamObj.Report` | collector/opscat-collector.js:350-360 | the count is set aside and one line owning up to it queued, as the specification says |
| `CollectorProcess.StreamObj.Configure` | collector/opscat-collector.js:168-170 | a configuration reply changes this stream's configuration and nothing else |
| `CollectorProcess.StreamObj.Begin` | collector/opscat-collector.js:253-286 | the batch leaves the queue and the request is the specification's, or nothing happens |
| `CollectorProcess.StreamObj.End` | collector/opscat-collector.js:287-341 | the stream after the answer is the specification's; says what was cleared and whether the process ends |
| `CollectorProcess.Collector.StreamFor` | collector/opscat-collector.js:146-153 | the stream of a token is found, made, or refused past the cap and counted |
| `CollectorProcess.Collector.Receive` | collector/opscat-collector.js:218-250 | a message whose tenant is known goes to its stream, to a new one, to the door or to the cap, as the specification says |
| `CollectorProcess.Collector.AdmitTo` | collector/opscat-collector.js:238-249 | a stream whose key is refused turns the message away and counts it; any other queues it |
| `CollectorProcess.Collector.OnMessage` | collector/opscat-collector.js:218-250 | receiving takes exactly the machine's arrival step |
| `CollectorProcess.Collector.KeyRefusedFor` | collector/opscat-collector.js:195-204 | a refused key takes exactly the machine's step: exit, or remember and clear |
| `CollectorProcess.Collector.PollSend` | collector/opscat-collector.js:160-165 | a poll's request stamps the stream and takes the machine's step |
| `CollectorProcess.Collector.PollDone` | collector/opscat-collector.js:166-178 | a poll's answer changes only the stream polled and takes the machine's step |
| `CollectorProcess.Collector.TickBegins` | collector/opscat-collector.js:683-697 | the scheduler's first stretch takes the machine's step: who is due, and the sixteen to poll |
| `CollectorProcess.Collector.DueStreams` | collector/opscat-collector.js:689-693 | the loop over the map picks the streams whose poll is due, in the map's order |
| `CollectorProcess.Collector.ReadyStreams` | collector/opscat-collector.js:700-700 | the filter picks the streams past their backoff and past any refusal, in the map's order |
| `CollectorProcess.Collector.TickRanksNow` | collector/opscat-collector.js:700-700 | the filter after the polls takes the machine's step |
| `CollectorProcess.Collector.TickGroupStarts` | collector/opscat-collector.js:703-705 | a group of eight takes the machine's step |
| `CollectorProcess.Collector.TickIsOver` | collector/opscat-collector.js:706-708 | the end of a tick takes the machine's step |
| `CollectorProcess.Collector.PostDone` | collector/opscat-collector.js:287-341 | an answered POST takes the machine's step |
| `CollectorProcess.Collector.ReportDropsNow` | collector/opscat-collector.js:347-368 | reporting takes the machine's step |
| `CollectorProcess.Collector.SweepNow` | collector/opscat-collector.js:375-382 | the sweep over the map takes the machine's step: the survivors keep their order and their keys |
| `CollectorProcess.Collector.Survivors` | collector/opscat-collector.js:376-381 | deleting while iterating leaves the streams that hold something, were polled lately, or are refused, each under its own key |
| `CollectorProcess.Collector.Terminate` | collector/opscat-collector.js:711-719 | a shutdown's one pass takes the machine's step, and remembers the POSTs it waits for |
| `CollectorProcess.Collector.StartPass` | collector/opscat-collector.js:703-718 | a pass of `flush` over a list is the specification's, and returns exactly the streams that could ship |
| `CollectorProcess.Collector.PassIsOver` | collector/opscat-collector.js:718-719 | the end of a shutdown's pass takes the machine's step |
| `CollectorProcess.Start` | collector/opscat-collector.js:662-678 | a gateway starts empty, a collector with its one stream already polled |
| `WireGuard.WgCommands` | collector/opscat-collector.js:404-418 | the argument vectors, word for word: "set", the interface, "peer", the key, "remove" for each shown key that is not wanted, in the order shown; then "set", the interface, "peer", the key, "allowed-ips" and the address with "/32" for each wanted key, as the list first has them |
| `WireGuard.PlanWordForWord` | collector/opscat-collector.js:404-418 | the plan's command lines are those words in that order |
| `WireGuard.KeysAreFirstListed` | collector/opscat-collector.js:404-406 | the wanted keys are the list's, each once, in the order in which they first occur |
| `WireGuard.WantedIsLast` | collector/opscat-collector.js:404-406 | the address of a wanted key is the one in the last entry that has the key |
| `WireGuard.BuildWant` | collector/opscat-collector.js:406-406 | a repeated key keeps its first place and takes its last address |
| `WireGuard.RunAll` | collector/opscat-collector.js:446-459 | the interface afterwards is the commands that went through, each read off its whole command line (the verb, the interface, the key, and the address, which only "/32" makes a single one); `changed` counts the notable ones among them |
| `WireGuard.ReconcilePeers` | collector/opscat-collector.js:420-461 | any failure to learn what is wanted or shown leaves the interface alone; a refusal ends the process |
| `WireGuard.PassSettles` | collector/opscat-collector.js:404-418 | what a pass makes of any interface whatever: each wanted key its one address, or none if outbid; removed keys gone; newcomers keep what nobody wanted |
| `WireGuard.Converges` | collector/opscat-collector.js:395-418 | from any drifted state of the keys shown, a pass reaches the server's list if and only if no address is wanted by two keys |
| `WireGuard.NobodyElseSends` | collector/opscat-collector.js:395-398 | after a pass an address belongs to at most one key, and that key is the list's |
| `WireGuard.SecondPassIsIdle` | collector/opscat-collector.js:411-414 | a second pass changes nothing, in whatever order the peers are shown |
| `WireGuard.QuietExactlyWhenSameKeys` | collector/opscat-collector.js:446-460 | when every command works, nothing is logged exactly when the keys shown were the keys wanted |
| `WireGuard.AppliedKeyIsAlone` | collector/opscat-collector.js:448-459 | whatever else fails, a wanted key whose command worked has exactly its address and nobody else has it |
| `CertSearch.Find` | collector/opscat-collector.js:509-523 | the worklist loop computes the recursive search with its limit |
| `CertSearch.FoundIsThere` | collector/opscat-collector.js:509-523 | a path found leads through readable directories to a file of the wanted name |
| `CertSearch.FoundExactly` | collector/opscat-collector.js:509-523 | in a tree of any size: a path is found if and only if one of the first 4096 directories, read last listed first with all below it, lists the file, and it is that of the first that does |
| `CertSearch.WalkIsTree` | collector/opscat-collector.js:516-519 | that order reads each directory below the root once, and some place in it lists the file exactly when the tree holds it |
| `CertSearch.NothingMissed` | collector/opscat-collector.js:509-523 | with at most 4096 directories, nothing is found if and only if no readable directory lists the file |
| `CertSearch.BiggerTreesCanMiss` | collector/opscat-collector.js:512-512 | past 4096 directories a file that is there can be missed |
| `SyslogFraming.Framer.PushChunk` | server/src/lib/syslog.js:317-326 | a push gives the specification's messages and state: mode locked by the first character, errors final |
| `SyslogFraming.Framer.CutLines` | server/src/lib/syslog.js:328-345 | the loop over newlines computes the lines and the remainder, or cuts an overlong remainder and counts it |
| `SyslogFraming.Framer.CutOctets` | server/src/lib/syslog.js:347-363 | the loop over counted frames computes the frames, the remainder and the error |
| `SyslogFraming.FramesExtend` | server/src/lib/syslog.js:347-363 | more of the stream changes no frame already there and mends nothing that is wrong |
| `FramingTheorems.OctetChunksDoNotMatter` | server/src/lib/syslog.js:299-326 | octet counting: every way of cutting any stream gives the same messages, the same remainder, and fails or not alike |
| `FramingTheorems.NoLengthYet` | server/src/lib/syslog.js:347-363 | with no blank yet, ten characters are waited with and more are an error |
| `FramingTheorems.LengthHasToCount` | server/src/lib/syslog.js:347-363 | before the first blank stand one to ten digits, or it is an error |
| `FramingTheorems.LengthCounts` | server/src/lib/syslog.js:347-363 | a count is its decimal number: an error past the limit, waited with until that many characters are there, and then a frame of exactly those |
| `FramingTheorems.CountedComesBack` | server/src/lib/syslog.js:347-363 | messages counted out come back as they were, whatever they contain |
| `FramingTheorems.CountedAnyChunks` | server/e2e-syslog.js:322-329 | counted out, cut anywhere, and received: the same messages |
| `FramingTheorems.SplitLinesExactly` | server/src/lib/syslog.js:337-344 | two pushes on an LF connection, its first two included, are one push if and only if the unfinished line between them is within the limit or nothing follows |
| `FramingTheorems.LfChunksDoNotMatter` | server/src/lib/syslog.js:328-345 | with no line over the limit, every way of cutting an LF stream gives its lines and truncates none |
| `FramingTheorems.LongLineIsCut` | server/src/lib/syslog.js:337-344 | an unfinished line over the limit comes out as its first characters up to the limit, is counted, and the rest of it is gone |
| `FramingTheorems.LinesAnyChunks` | server/e2e-syslog.js:331-334 | lines ended with LF or CR LF, blank ones among them, cut anywhere and received: their texts without the ends, the blank ones skipped |
| `FramingTheorems.BufferBounded` | server/src/lib/syslog.js:336-363 | whatever arrives and however it is cut, between two pushes a framer without an error holds at most the frame limit under LF framing, and at most ten digits and the frame limit under octet counting |
| `ProbeTheorems.StartedInOrder` | agent/opscat-agent.js:526-538 | in any interleaving, what a cycle has started followed by its queue is what was due, each once |
| `ProbeTheorems.InFlightBounded` | agent/opscat-agent.js:551-552 | at most min(concurrency, max(1, due)) checks run at once |
| `ProbeTheorems.CycleComplete` | agent/opscat-agent.js:525-553 | when a cycle ends every due check has been started and has ended exactly once, and the batches together are exactly the results |
| `ProbeResults.BatchesTellTheTruth` | agent/opscat-agent.js:533-550 | over a whole cycle, in any interleaving: the batches one after another are, in order, for each check that came back with a measurement, the id of the check its worker held, the time it came back and what was measured; nothing for one that was skipped |
| `ProbeTheorems.FewestBatches` | agent/opscat-agent.js:525-532 | a cycle posts ceil(results / 200) batches, each of 200 but the last |
| `ProbeTheorems.NeverOverlaps` | agent/opscat-agent.js:493-495 | however often the timer fires in an open cycle, over any run it stays the cycle that was opened: same work, its results and batches only growing |
| `ProbeTheorems.CycleProgresses` | agent/opscat-agent.js:533-550 | whatever happens in an open cycle brings it nearer its end |
| `ProbeTheorems.NeverStuck` | agent/opscat-agent.js:493-561 | an open cycle always still awaits something |
| `ProbeTheorems.GuardReleased` | agent/opscat-agent.js:558-560 | a cycle outlasts no more happenings than it has work left, so the guard is released |
| `ProbeTheorems.StartsAreSpaced` | agent/opscat-agent.js:516-519 | over every run with lists of unique ids, two starts of a check not forgotten in between are at least its current interval apart |
| `ProbeResults.TimerDoes` | agent/opscat-agent.js:493-519 | the timer does nothing in an open cycle, asks for the list when it is thirty seconds old or empty, and otherwise opens the pool on the checks, in the list's order, last started their interval ago or more, sixty seconds if they have none |
| `ProbeResults.ListDoes` | agent/opscat-agent.js:502-519 | a list that came is kept with its time and the pool opens on its due checks; one that did not leaves the old one and ends the cycle |
| `ProbeResults.PoolIsFull` | agent/opscat-agent.js:551-552 | the pool has min(concurrency, max(1, due)) workers, and none has returned while a check waits |
| `ProbeSpacing.CycleSpacedExactly` | agent/opscat-agent.js:516-537 | in a cycle younger than its checks' intervals, starts are spaced if and only if no id was started twice |
| `ProbeTheorems.DuplicatesRunTwice` | agent/opscat-agent.js:516-537 | a list with one id twice starts it twice at one moment |
| `ProbeTheorems.CycleForgets` | agent/opscat-agent.js:555-557 | a finished cycle remembers exactly the checks still listed, with their times |
| `ProbeLaws.StepKeeps` | agent/opscat-agent.js:493-561 | every stretch of every worker keeps the accounts of checks and results |
| `ProbeModel.Concurrency` | agent/opscat-agent.js:108-109 | the pool is between 1 and 64 whatever is asked |
| `ProbeResults.PoolAsked` | agent/opscat-agent.js:108-109 | 0 and nonsense make sixteen, 1 to 64 are kept, less makes 1 and more 64 |
| `ProbeProcess.Agent.constructor` | agent/opscat-agent.js:452-454 | the agent starts with no cycle, no list and nothing remembered |
| `ProbeProcess.Agent.Forget` | agent/opscat-agent.js:555-557 | the loop over the remembered ids leaves exactly those still listed |
| `ProbeProcess.Agent.DueChecks` | agent/opscat-agent.js:516-519 | the filter is the specification's |
| `ProbeProcess.Agent.Take` | agent/opscat-agent.js:535-541 | a worker takes the next check or returns |
| `ProbeProcess.Agent.StartPool` | agent/opscat-agent.js:514-552 | the due checks and the pool's first checks are the specification's |
| `ProbeProcess.Agent.Tick` | agent/opscat-agent.js:493-513 | the timer takes the machine's step |
| `ProbeProcess.Agent.ListFailed` | agent/opscat-agent.js:502-512 | a failed list releases the guard |
| `ProbeProcess.Agent.ListCame` | agent/opscat-agent.js:503-514 | a list takes the machine's step |
| `ProbeProcess.Agent.Finished` | agent/opscat-agent.js:539-549 | a check that comes back takes the machine's step: buffer, batch at two hundred, next |
| `ProbeProcess.Agent.ReportReturned` | agent/opscat-agent.js:548-549 | a worker whose report returned takes the machine's step |
| `ProbeProcess.Agent.PoolOver` | agent/opscat-agent.js:551-560 | the end of the pool takes the machine's step |
| `ProbeProcess.Agent.LastReportReturned` | agent/opscat-agent.js:553-560 | the end of the last report takes the machine's step |
| `LogBatcher.LogQueue.EnqueueLog` | agent/opscat-agent.js:373-377 | a line is queued as the specification says, oldest out at the cap, a batch at a hundred |
| `LogBatcher.LogQueue.FlushLogs` | agent/opscat-agent.js:379-383 | the batch leaves the queue before anything is awaited |
| `LogBatcher.LogQueue.Shutdown` | agent/opscat-agent.js:712-712 | the shutdown flushes once |
| `LogBatcher.BatchingIsExact` | agent/opscat-agent.js:373-383 | over every run: batches then queue are the lines enqueued, in order; batches of 1 to 100; fewer than 100 waiting; nothing ever dropped |
| `LogBatcher.BatchesFromLinesAreFull` | agent/opscat-agent.js:376-376 | a line makes a batch only as its hundredth, and then the queue is empty |
| `LogBatcher.ShutdownEmpties` | agent/opscat-agent.js:706-713 | one flush at shutdown leaves every line in a batch |
| `PlaceholderModel.RewritePlaceholders` | server/src/db/pg-sql.js:53-114 | the scanner computes the rewriting of the statement's pieces |
| `PlaceholderModel.CopyLiteral` | server/src/db/pg-sql.js:63-78 | the loop inside a literal copies it to its closing quote, doubled quotes inside it |
| `PlaceholderLaws.PiecesAreTheStatement` | server/src/db/pg-sql.js:59-107 | the pieces put together are the statement: nothing is skipped or read twice |
| `PlaceholderLaws.RewritesPieceByPiece` | server/src/db/pg-sql.js:47-52 | refused exactly when both kinds of placeholder occur; otherwise only placeholders change, the nth `?` to `$n`, a name to its place among the names, and the names come back in index order |
| `PlaceholderGrammar.EveryStatementIsSpelled` | server/src/db/pg-sql.js:59-107 | every string is characters, literals, comments, question marks and names that fit one after another, by a grammar with nothing of the scanner in it |
| `PlaceholderGrammar.OneReading` | server/src/db/pg-sql.js:59-107 | a string has one such reading: the same cuts, the same placeholders |
| `PlaceholderGrammar.SpelledRewrites` | server/src/db/pg-sql.js:47-114 | a statement so spelled is refused if and only if it has a question mark and a name; otherwise it comes back part by part, the nth question mark as `$n`, a name as `$` and its place among the names, all else as it was, and the names are in the order in which they first occur |
| `PlaceholderTheorems.BuiltStatementsRewriteAsBuilt` | server/e2e-pgsql.js:140-216 | every statement built from sound parts rewrites to the text written down while it was built |
| `PlaceholderTheorems.GeneratedStatements` | server/e2e-pgsql.js:150-195 | every finite sequence of the generator's own pieces rewrites as constructed |
| `PlaceholderTheorems.DoubledQuoteBranchIsRedundant` | server/src/db/pg-sql.js:25-35 | on every string the explicit doubled-quote branch and the two-toggle scanner agree |
| `PlaceholderMeaning.RewritingIsStable` | server/e2e-pgsql.js:263-274 | rewriting an accepted statement's output changes nothing and finds nothing to number |
| `PlaceholderMeaning.ReadsBackExactly` | server/src/db/pg-sql.js:96-104 | the output read with `$n` as placeholders says what the statement said if and only if no placeholder, and no `$` of its own, runs into a digit |
| `PlaceholderBinding.BindArgs` | server/src/db/pg-sql.js:130-140 | positional arguments pass through; one object gives its values in the names' order, or the first name it lacks; any other shape is refused |
| `PlaceholderBinding.NamedMeaningKept` | server/e2e-pgsql.js:110-133 | the rewritten statement with the bound values reads as the original with the object's fields |
| `PlaceholderBinding.PositionalMeaningKept` | server/src/db/pg-sql.js:130-131 | the nth argument lands on the nth question mark |
| `PlaceholderBinding.DigitRunsInto` | server/src/db/pg-sql.js:96-96 | `?5` rewrites to `$15`, which reads as the fifteenth parameter |

## Left out

- The syslog parser: a message comes with the token, device, text and severity the parser found, and a frame's structured data is not modelled. Timestamps and the `meta` of entries are not carried.
- Sockets, TLS, certificate reading and reload, the HTTP client, timers and process signals: their outcomes are events (a status, a throw, a reply) chosen freely at every step.
- `flushMs` and `name` in a polled configuration, and the timer between ticks: when a tick starts is left open.
- Configuration replies with fields of another type than the server sends (a string for `batchMax`, say), and a `devicePrefix` of `null` as against `""`, which the source treats alike.
- The timing theorems are about runs before a shutdown, whose pass ignores backoff and refusals. Between a shutdown's last answer and the end of the process the model allows more to happen than a microtask does. Whether a batch in flight when the process ends still reaches the server is not modelled: it counts as lost.
- A refused poll and the scheduler's reaction to it are one step; in the source a microtask lies between them.
- The certificate search when a directory changes while it is read, and symbolic links to directories, which the source does not follow.
- Framing works on characters. The source decodes each chunk as UTF-8 by itself and counts UTF-16 units, so a character cut in two by a chunk, or an octet count of non-ASCII text, is not what is proved here.
- What running a check measures, the agent's self-update, and a work list that is not a list of objects. Delivery of a batch: a batch posted may still fail, and the agent does not retry.
- Time passing within one stretch: the clock is read once per step.
- What Postgres does beyond `$n`: nested block comments, `E'..'` strings, dollar quoting, and identifiers that contain `$` are read here with the rewriter's own rules for literals and comments.
- Properties an argument object inherits: an object is the fields it has.
- Argument parsing, metrics, the individual checks, and the server's own engines.
