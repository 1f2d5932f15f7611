/**
 * The agent's synthetic checks: a cycle every few seconds, guarded against
 * itself, that refreshes the work list, picks the checks that are due and runs
 * them in a bounded pool of workers sharing one queue and one result buffer. A
 * step is one uninterrupted stretch of the source; between the steps of one
 * worker any other worker, and the timer, may run.
 */
module ProbeModel {
  import opened Numbers
  import opened Wrappers

  const LIST_MS: nat := 30000
  const REPORT_CAP: nat := 200

  datatype Check = Check(id: int, intervalS: int)

  /** Seconds; an absent or zero interval counts as sixty. */
  function IntervalMs(c: Check): int {
    (if c.intervalS == 0 then 60 else c.intervalS) * 1000
  }

  /** What running a check comes to: a result, or nothing to report. A throw is a result too. */
  datatype Outcome = Skipped | Measured(ok: bool)

  datatype Result = Result(checkId: int, ts: int, ok: bool)

  /** A worker holds a check (its place in the cycle's work), waits for a report, or has returned. */
  datatype Worker = Running(place: nat) | Reporting | Done

  datatype Phase = Idle | Fetching | Pooling | Closing

  /** What happened to the remembered times, in order. */
  datatype Entry = Began(check: Check, at: int) | Forgot(ids: set<int>)

  datatype Probe = Probe(
    concurrency: nat, phase: Phase,
    checks: seq<Check>, listAt: int, lastRun: map<int, int>,
    queue: seq<Check>, results: seq<Result>, workers: seq<Worker>,
    // history of the cycle: what was due, whose runs ended, whose gave a result, and what was posted
    due: seq<Check>, finished: seq<nat>, measured: seq<nat>, outcomes: seq<Result>, batches: seq<seq<Result>>,
    cycleAt: int, base: nat,
    // history
    clock: int, log: seq<Entry>)

  function PoolSize(concurrency: nat, n: nat): nat {
    Min(concurrency, Max(1, n))
  }

  /** `--concurrency`: 1 to 64, with 0 and nonsense counting as 16. */
  function Concurrency(asked: int): (n: nat)
    ensures 1 <= n <= 64
  {
    Max(1, Min(64, if asked == 0 then 16 else asked))
  }

  predicate IsDue(c: Check, lastRun: map<int, int>, now: int) {
    now - (if c.id in lastRun then lastRun[c.id] else 0) >= IntervalMs(c)
  }

  function DueOf(checks: seq<Check>, lastRun: map<int, int>, now: int): seq<Check> {
    if checks == [] then []
    else
      var n := |checks| - 1;
      DueOf(checks[..n], lastRun, now) + (if IsDue(checks[n], lastRun, now) then [checks[n]] else [])
  }

  function Started(s: Probe): int {
    |s.due| - |s.queue|
  }

  /** A worker goes back to the queue: it starts the next check, or returns. */
  function Next(s: Probe, w: nat, now: int): Probe
    requires w < |s.workers| && |s.queue| <= |s.due|
  {
    if s.queue == [] then s.(workers := s.workers[w := Done])
    else
      var c := s.queue[0];
      s.(queue := s.queue[1..], lastRun := s.lastRun[c.id := now],
         workers := s.workers[w := Running(Started(s))], log := s.log + [Began(c, now)])
  }

  /** Each worker runs to its first await as it is made. */
  function StartWorkers(s: Probe, n: nat, now: int): (s': Probe)
    requires |s.queue| <= |s.due|
    ensures |s'.workers| == |s.workers| + n && |s'.queue| <= |s'.due|
  {
    if n == 0 then s
    else
      var before := StartWorkers(s, n - 1, now);
      Next(before.(workers := before.workers + [Done]), |before.workers|, now)
  }

  function Pooled(s: Probe, now: int): Probe {
    var due := DueOf(s.checks, s.lastRun, now);
    s.(phase := Pooling, queue := due, results := [], workers := [],
       due := due, finished := [], measured := [], outcomes := [], batches := [],
       cycleAt := now, base := |s.log|)
  }

  function Begin(s: Probe, now: int): Probe {
    var s1 := Pooled(s, now);
    StartWorkers(s1, PoolSize(s.concurrency, |s1.queue|), now)
  }

  function IdsOf(checks: seq<Check>): set<int> {
    set c | c in checks :: c.id
  }

  /** The end of a cycle: checks no longer listed are forgotten, and the guard is released. */
  function End(s: Probe): Probe {
    var gone := s.lastRun.Keys - IdsOf(s.checks);
    s.(lastRun := s.lastRun - gone, log := s.log + [Forgot(gone)], phase := Idle)
  }

  function Finish(s: Probe, w: nat, outcome: Outcome, now: int): Probe
    requires w < |s.workers| && s.workers[w].Running? && s.workers[w].place < |s.due| && |s.queue| <= |s.due|
  {
    var k := s.workers[w].place;
    var s1 := s.(finished := s.finished + [k]);
    match outcome
    case Skipped => Next(s1, w, now)
    case Measured(ok) =>
      var r := Result(s.due[k].id, now, ok);
      var s2 := s1.(results := s.results + [r], outcomes := s.outcomes + [r], measured := s.measured + [k]);
      if |s2.results| >= REPORT_CAP then
        s2.(batches := s.batches + [s2.results], results := [], workers := s.workers[w := Reporting])
      else
        Next(s2, w, now)
  }

  function Close(s: Probe): Probe {
    if s.results == [] then End(s)
    else s.(batches := s.batches + [s.results], results := [], phase := Closing)
  }

  // ── steps ─────────────────────────────────────────────────────────────────

  datatype Event =
    | Tick
    | ListFails
    | ListComes(list: seq<Check>)
    | Finishes(w: nat, outcome: Outcome)
    | Reported(w: nat)
    | PoolDrained
    | LastReported

  predicate Enabled(s: Probe, now: int, e: Event) {
    && s.clock <= now && |s.queue| <= |s.due|
    && match e
       case Tick => true
       case ListFails => s.phase.Fetching?
       case ListComes(_) => s.phase.Fetching?
       case Finishes(w, _) => s.phase.Pooling? && w < |s.workers| && s.workers[w].Running? && s.workers[w].place < |s.due|
       case Reported(w) => s.phase.Pooling? && w < |s.workers| && s.workers[w].Reporting?
       case PoolDrained => s.phase.Pooling? && forall w :: 0 <= w < |s.workers| ==> s.workers[w].Done?
       case LastReported => s.phase.Closing?
  }

  function Step(s0: Probe, now: int, e: Event): Probe
    requires Enabled(s0, now, e)
  {
    var s := s0.(clock := now);
    match e
    case Tick =>
      if !s.phase.Idle? then s
      else if now - s.listAt >= LIST_MS || s.checks == [] then s.(phase := Fetching)
      else Begin(s, now)
    case ListFails => s.(phase := Idle)
    case ListComes(list) => Begin(s.(checks := list, listAt := now), now)
    case Finishes(w, outcome) => Finish(s, w, outcome, now)
    case Reported(w) => Next(s, w, now)
    case PoolDrained => Close(s)
    case LastReported => End(s)
  }

  function Boot(asked: int, now: int): Probe {
    Probe(Concurrency(asked), Idle, [], 0, map[], [], [], [], [], [], [], [], [], 0, 0, now, [])
  }

  type Timed = (int, Event)

  predicate Legal(s: Probe, evs: seq<Timed>)
    decreases |evs|
  {
    evs == [] ||
    (Enabled(s, evs[0].0, evs[0].1) && Legal(Step(s, evs[0].0, evs[0].1), evs[1..]))
  }

  function After(s: Probe, evs: seq<Timed>): Probe
    requires Legal(s, evs)
    decreases |evs|
  {
    if evs == [] then s else After(Step(s, evs[0].0, evs[0].1), evs[1..])
  }
}
