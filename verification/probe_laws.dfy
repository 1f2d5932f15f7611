/**
 * What every interleaving of the probe's workers keeps: each due check is run
 * once, at most so many at a time; every result is posted in exactly one batch;
 * a cycle always ends and never overlaps another; and the starts of one check
 * are its interval apart.
 */
module ProbeLaws {
  import opened Distinctness
  import opened ProbeModel

  // ── who runs what ─────────────────────────────────────────────────────────

  function Busy(ws: seq<Worker>): nat {
    if ws == [] then 0 else Busy(ws[..|ws|-1]) + (if ws[|ws|-1].Running? then 1 else 0)
  }

  /** Every check started is with one worker or has ended, never both and never twice. */
  ghost predicate AssignedTo(due: seq<Check>, queue: seq<Check>, finished: seq<nat>, ws: seq<Worker>) {
    && |queue| <= |due| && queue == due[|due| - |queue|..]
    && var started := |due| - |queue|;
    && Distinct(finished)
    && (forall k :: k in finished ==> k < started)
    && (forall w :: 0 <= w < |ws| && ws[w].Running? ==> ws[w].place < started && ws[w].place !in finished)
    && (forall v, w :: 0 <= v < w < |ws| && ws[v].Running? ==> ws[v] != ws[w])
    && |finished| + Busy(ws) == started
    && (forall w :: 0 <= w < |ws| && ws[w].Done? ==> queue == [])
  }

  ghost predicate Assigned(s: Probe) {
    AssignedTo(s.due, s.queue, s.finished, s.workers)
  }

  // ── where results go ──────────────────────────────────────────────────────

  function Flat(batches: seq<seq<Result>>): seq<Result> {
    if batches == [] then [] else Flat(batches[..|batches|-1]) + batches[|batches|-1]
  }

  ghost predicate Full(batches: seq<seq<Result>>) {
    forall i :: 0 <= i < |batches| ==> |batches[i]| == REPORT_CAP
  }

  /** Results posted and results waiting are the results of the checks that gave one, in order. */
  ghost predicate Batched(s: Probe) {
    && Flat(s.batches) + s.results == s.outcomes
    && |s.results| < REPORT_CAP && Full(s.batches)
  }

  ghost predicate Named(s: Probe) {
    && |s.measured| == |s.outcomes| && Distinct(s.measured)
    && (forall i :: 0 <= i < |s.measured| ==>
          s.measured[i] in s.finished && s.measured[i] < |s.due| && s.outcomes[i].checkId == s.due[s.measured[i]].id)
  }

  ghost predicate CycleInv(s: Probe) {
    && 1 <= s.concurrency && |s.queue| <= |s.due|
    && (s.phase.Pooling? ==>
          Assigned(s) && Batched(s) && Named(s) && |s.workers| == PoolSize(s.concurrency, |s.due|))
    && (s.phase.Closing? ==> Accounted(s))
  }

  /** A cycle's work done: every due check ended once, and every result is in one batch. */
  ghost predicate Accounted(s: Probe) {
    && s.queue == [] && Distinct(s.finished) && |s.finished| == |s.due|
    && (forall k :: k in s.finished ==> k < |s.due|)
    && Named(s) && s.results == [] && Flat(s.batches) == s.outcomes
    && (forall i :: 0 <= i < |s.batches| - 1 ==> |s.batches[i]| == REPORT_CAP)
    && (s.batches != [] ==> 0 < |s.batches[|s.batches|-1]| <= REPORT_CAP)
  }

  lemma {:induction false} BusyUpdate(ws: seq<Worker>, w: nat, x: Worker)
    requires w < |ws|
    ensures Busy(ws[w := x]) == Busy(ws) + (if x.Running? then 1 else 0) - (if ws[w].Running? then 1 else 0)
  {
    var n := |ws| - 1;
    if w == n {
      assert ws[w := x][..n] == ws[..n];
    } else {
      assert ws[w := x][..n] == ws[..n][w := x];
      BusyUpdate(ws[..n], w, x);
    }
  }

  lemma {:induction false} BusyBound(ws: seq<Worker>)
    ensures Busy(ws) <= |ws|
    ensures Busy(ws) == 0 <==> forall w :: 0 <= w < |ws| ==> !ws[w].Running?
  {
    if ws != [] {
      BusyBound(ws[..|ws|-1]);
      assert ws == ws[..|ws|-1] + [ws[|ws|-1]];
    }
  }

  /** A worker that holds nothing goes back to the queue. */
  lemma NextAssigned(s: Probe, w: nat, now: int)
    requires Assigned(s) && w < |s.workers| && !s.workers[w].Running?
    requires s.workers[w].Done? ==> s.queue == []
    ensures Assigned(Next(s, w, now))
  {
    BusyUpdate(s.workers, w, Next(s, w, now).workers[w]);
  }

  lemma {:induction false} StartAssigned(s: Probe, n: nat, now: int)
    requires Assigned(s)
    ensures Assigned(StartWorkers(s, n, now))
    ensures StartWorkers(s, n, now) ==
            s.(queue := StartWorkers(s, n, now).queue, lastRun := StartWorkers(s, n, now).lastRun,
               workers := StartWorkers(s, n, now).workers, log := StartWorkers(s, n, now).log)
  {
    if n > 0 {
      StartAssigned(s, n - 1, now);
      var before := StartWorkers(s, n - 1, now);
      var ws := before.workers + [Done];
      assert ws[..|before.workers|] == before.workers;
      NewcomerAssigned(before, now);
    }
  }

  /** The worker being made: it has nothing yet, and the queue may still hold work. */
  lemma NewcomerAssigned(s: Probe, now: int)
    requires Assigned(s)
    ensures Assigned(Next(s.(workers := s.workers + [Done]), |s.workers|, now))
  {
    hide AssignedTo;
    var s1 := s.(workers := s.workers + [Reporting]);
    IdlerAssigned(s);
    NextAssigned(s1, |s.workers|, now);
    assert |s.queue| <= |s.due| by { QueueFits(s); }
    NextForgets(s1, |s.workers|, Done, now);
    assert s1.workers[|s.workers| := Done] == s.workers + [Done];
  }

  lemma IdlerAssigned(s: Probe)
    requires Assigned(s)
    ensures Assigned(s.(workers := s.workers + [Reporting]))
  {
    assert (s.workers + [Reporting])[..|s.workers|] == s.workers;
  }

  lemma BeginKeeps(s: Probe, now: int)
    requires 1 <= s.concurrency
    ensures CycleInv(Begin(s, now))
  {
    var s1 := Pooled(s, now);
    StartAssigned(s1, PoolSize(s.concurrency, |s1.queue|), now);
  }

  // ── ends and reports ──────────────────────────────────────────────────────

  lemma FlatSnoc(batches: seq<seq<Result>>, more: seq<Result>)
    ensures Flat(batches + [more]) == Flat(batches) + more
  {
    assert (batches + [more])[..|batches|] == batches;
  }

  /** The run of a worker's check ends; the worker itself has not moved on yet. */
  lemma EndedAssigned(s: Probe, w: nat)
    requires Assigned(s) && w < |s.workers| && s.workers[w].Running?
    ensures Assigned(s.(finished := s.finished + [s.workers[w].place], workers := s.workers[w := Reporting]))
  {
    BusyUpdate(s.workers, w, Reporting);
  }

  /** Where the worker goes next does not depend on what it was doing. */
  lemma NextForgets(s: Probe, w: nat, x: Worker, now: int)
    requires w < |s.workers| && |s.queue| <= |s.due|
    ensures Next(s.(workers := s.workers[w := x]), w, now) == Next(s, w, now)
  {
    assert s.workers[w := x][w := Done] == s.workers[w := Done];
    assert s.workers[w := x][w := Running(Started(s))] == s.workers[w := Running(Started(s))];
  }

  lemma FinishAssigned(s: Probe, w: nat, outcome: Outcome, now: int)
    requires Assigned(s) && w < |s.workers| && s.workers[w].Running? && s.workers[w].place < |s.due|
    ensures Assigned(Finish(s, w, outcome, now))
  {
    hide AssignedTo;
    QueueFits(s);
    var s1 := s.(finished := s.finished + [s.workers[w].place]);
    EndedAssigned(s, w);
    NextAssigned(s1.(workers := s.workers[w := Reporting]), w, now);
    NextForgets(s1, w, Reporting, now);
    var s' := Finish(s, w, outcome, now);
    assert (s'.workers == s.workers[w := Reporting] && s'.queue == s.queue) ||
           (s'.workers == Next(s1, w, now).workers && s'.queue == Next(s1, w, now).queue);
  }

  lemma FinishBatched(s: Probe, w: nat, outcome: Outcome, now: int)
    requires Assigned(s) && Batched(s)
    requires w < |s.workers| && s.workers[w].Running? && s.workers[w].place < |s.due|
    ensures Batched(Finish(s, w, outcome, now))
  {
    hide Assigned, Flat;
    assert |s.queue| <= |s.due| by { QueueFits(s); }
    if outcome.Measured? {
      var r := Result(s.due[s.workers[w].place].id, now, outcome.ok);
      assert Flat(s.batches) + (s.results + [r]) == s.outcomes + [r];
      FlatSnoc(s.batches, s.results + [r]);
      assert Flat(s.batches + [s.results + [r]]) + [] == s.outcomes + [r];
    }
  }

  lemma QueueFits(s: Probe)
    requires Assigned(s)
    ensures |s.queue| <= |s.due|
  {
  }

  lemma FinishNamed(s: Probe, w: nat, outcome: Outcome, now: int)
    requires Assigned(s) && Named(s)
    requires w < |s.workers| && s.workers[w].Running? && s.workers[w].place < |s.due|
    ensures Named(Finish(s, w, outcome, now))
  {
    hide Flat;
    var k := s.workers[w].place;
    assert k !in s.finished;
    assert forall i :: 0 <= i < |s.measured| ==> s.measured[i] != k;
    hide Assigned;
    var s' := Finish(s, w, outcome, now);
    assert s'.due == s.due && s'.finished == s.finished + [k];
    assert forall j :: j in s.finished ==> j in s'.finished;
  }

  lemma FinishKeeps(s: Probe, w: nat, outcome: Outcome, now: int)
    requires CycleInv(s) && s.phase.Pooling? && w < |s.workers| && s.workers[w].Running?
    requires s.workers[w].place < |s.due|
    ensures CycleInv(Finish(s, w, outcome, now))
  {
    hide Assigned, Batched, Named;
    FinishAssigned(s, w, outcome, now);
    FinishBatched(s, w, outcome, now);
    FinishNamed(s, w, outcome, now);
  }

  lemma NextKeeps(s: Probe, w: nat, now: int)
    requires CycleInv(s) && s.phase.Pooling? && w < |s.workers| && s.workers[w].Reporting?
    ensures CycleInv(Next(s, w, now))
  {
    hide Assigned;
    NextAssigned(s, w, now);
  }

  /** When every worker has returned, every check that was due has ended. */
  lemma AllReturned(s: Probe)
    requires Assigned(s) && s.workers != [] && forall w :: 0 <= w < |s.workers| ==> s.workers[w].Done?
    ensures s.queue == [] && |s.finished| == |s.due| && Distinct(s.finished)
    ensures forall k :: k in s.finished ==> k < |s.due|
  {
    BusyBound(s.workers);
    assert s.workers[0].Done?;
  }

  lemma DrainedAccounted(s: Probe)
    requires CycleInv(s) && s.phase.Pooling? && forall w :: 0 <= w < |s.workers| ==> s.workers[w].Done?
    ensures Accounted(s.(batches := if s.results == [] then s.batches else s.batches + [s.results], results := []))
  {
    hide AssignedTo, Flat;
    AllReturned(s);
    FlatSnoc(s.batches, s.results);
    assert s.results == [] ==> Flat(s.batches) == s.outcomes by { assert Flat(s.batches) + [] == Flat(s.batches); }
  }

  /** The phase a cycle is in, and everything it must account for by then. */
  lemma StepKeeps(s: Probe, now: int, e: Event)
    requires CycleInv(s) && Enabled(s, now, e)
    ensures CycleInv(Step(s, now, e))
  {
    hide Assigned, Batched, Named, Accounted, StartWorkers, Begin, Finish, Next;
    var s1 := s.(clock := now);
    ClockMoves(s, now);
    match e
    case Tick => BeginKeeps(s1, now);
    case ListComes(list) => BeginKeeps(s1.(checks := list, listAt := now), now);
    case Finishes(w, outcome) => FinishKeeps(s1, w, outcome, now);
    case Reported(w) => NextKeeps(s1, w, now);
    case PoolDrained => ClosedKeeps(s1);
    case _ =>
  }

  lemma ClockMoves(s: Probe, now: int)
    ensures CycleInv(s) ==> CycleInv(s.(clock := now))
    ensures Accounted(s) ==> Accounted(s.(phase := Idle))
  {
  }

  lemma ClosedKeeps(s: Probe)
    requires CycleInv(s) && s.phase.Pooling? && forall w :: 0 <= w < |s.workers| ==> s.workers[w].Done?
    ensures CycleInv(Close(s))
  {
    DrainedAccounted(s);
  }
}
