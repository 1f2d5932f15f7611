/**
 * The probe as the program it is: module variables and the cycle's own locals,
 * updated in place by whichever worker runs. Each method is one uninterrupted
 * stretch, proved to take the step the state machine takes.
 */
module ProbeProcess {
  import opened ProbeModel

  lemma EmptyOrNot(ids: set<int>)
    ensures ids == {} || exists id :: id in ids
  {
    if forall id :: id !in ids { assert ids == {}; }
  }

  method Any(ids: set<int>) returns (id: int)
    requires ids != {}
    ensures id in ids
  {
    EmptyOrNot(ids);
    id :| id in ids;
  }

  class Agent {
    const concurrency: nat
    var probeRunning: bool
    var probeChecks: seq<Check>
    var probeListAt: int
    var probeState: map<int, int>
    // the open cycle: what it awaits, and its locals
    var phase: Phase
    var queue: seq<Check>
    var results: seq<Result>
    var workers: seq<Worker>
    var due: seq<Check>

    ghost var finished: seq<nat>
    ghost var measured: seq<nat>
    ghost var outcomes: seq<Result>
    ghost var batches: seq<seq<Result>>
    ghost var cycleAt: int
    ghost var base: nat
    ghost var clock: int
    ghost var log: seq<Entry>

    ghost predicate Valid()
      reads this
    {
      (probeRunning <==> !phase.Idle?) && |queue| <= |due|
    }

    ghost function Abs(): Probe
      reads this
    {
      Probe(concurrency, phase, probeChecks, probeListAt, probeState, queue, results, workers,
            due, finished, measured, outcomes, batches, cycleAt, base, clock, log)
    }

    constructor (asked: int, now: int)
      ensures Valid() && Abs() == Boot(asked, now)
    {
      concurrency := Concurrency(asked);
      probeRunning, phase := false, Idle;
      probeChecks, probeListAt, probeState := [], 0, map[];
      queue, results, workers, due := [], [], [], [];
      finished, measured, outcomes, batches := [], [], [], [];
      cycleAt, base, clock, log := 0, 0, now, [];
    }

    /** The filter over the work list. */
    method DueChecks(now: int) returns (found: seq<Check>)
      ensures found == DueOf(probeChecks, probeState, now)
    {
      found := [];
      for i := 0 to |probeChecks|
        invariant found == DueOf(probeChecks[..i], probeState, now)
      {
        assert probeChecks[..i+1][..i] == probeChecks[..i];
        var c := probeChecks[i];
        var last := if c.id in probeState then probeState[c.id] else 0;
        if now - last >= (if c.intervalS != 0 then c.intervalS else 60) * 1000 { found := found + [c]; }
      }
      assert probeChecks[..|probeChecks|] == probeChecks;
    }

    /** A worker takes the next check to its first await, or returns. */
    method Take(w: nat, now: int)
      requires Valid() && w < |workers|
      modifies this`queue, this`probeState, this`workers, this`log
      ensures Valid() && Abs() == Next(old(Abs()), w, now)
    {
      if |queue| == 0 {
        workers := workers[w := Done];
        return;
      }
      var c := queue[0];
      workers := workers[w := Running(|due| - |queue|)];
      queue := queue[1..];
      probeState := probeState[c.id := now];
      log := log + [Began(c, now)];
    }

    ghost method NewCycle(now: int)
      modifies this`finished, this`measured, this`outcomes, this`batches, this`cycleAt, this`base
      ensures Abs() == old(Abs()).(finished := [], measured := [], outcomes := [], batches := [],
                                   cycleAt := now, base := |log|)
    {
      hide Abs;
      NothingFinished();
      NothingSent(now);
    }

    ghost method NothingFinished()
      modifies this`finished, this`measured, this`outcomes
      ensures Abs() == old(Abs()).(finished := [], measured := [], outcomes := [])
    {
      finished, measured, outcomes := [], [], [];
    }

    ghost method NothingSent(now: int)
      modifies this`batches, this`cycleAt, this`base
      ensures Abs() == old(Abs()).(batches := [], cycleAt := now, base := |log|)
    {
      batches, cycleAt, base := [], now, |log|;
    }

    method Prepare(now: int)
      requires probeRunning
      modifies this
      ensures Valid() && probeRunning && Abs() == Pooled(old(Abs()), now)
    {
      var found := DueChecks(now);
      NewCycle(now);
      due, queue, results, workers, phase := found, found, [], [], Pooling;
    }

    method Hire(now: int)
      requires Valid()
      modifies this`queue, this`probeState, this`workers, this`log
      ensures Valid()
      ensures var s := old(Abs()); Abs() == Next(s.(workers := s.workers + [Done]), |s.workers|, now)
    {
      workers := workers + [Done];
      Take(|workers| - 1, now);
    }

    /** The pool: each worker runs to its first await as it is made. */
    method StartPool(now: int)
      requires probeRunning
      modifies this
      ensures Valid() && Abs() == Begin(old(Abs()), now)
    {
      hide DueOf, Next;
      Prepare(now);
      ghost var s := Abs();
      var size := PoolSize(concurrency, |queue|);
      for n := 0 to size
        invariant Valid() && Abs() == StartWorkers(s, n, now)
      {
        Hire(now);
      }
    }

    /** The timer: one cycle at a time, and the list when it is old or empty. */
    method Tick(now: int)
      requires Valid() && Enabled(Abs(), now, Event.Tick)
      modifies this
      ensures Valid() && Abs() == Step(old(Abs()), now, Event.Tick)
    {
      clock := now;
      if probeRunning { return; }
      probeRunning := true;
      if now - probeListAt >= LIST_MS || |probeChecks| == 0 {
        phase := Fetching;
      } else {
        StartPool(now);
      }
    }

    method ListFailed(now: int)
      requires Valid() && Enabled(Abs(), now, ListFails)
      modifies this
      ensures Valid() && Abs() == Step(old(Abs()), now, ListFails)
    {
      clock := now;
      phase, probeRunning := Idle, false;
    }

    method ListCame(now: int, list: seq<Check>)
      requires Valid() && Enabled(Abs(), now, ListComes(list))
      modifies this
      ensures Valid() && Abs() == Step(old(Abs()), now, ListComes(list))
    {
      hide Abs, Begin;
      StoreList(now, list);
      StartPool(now);
    }

    method StoreList(now: int, list: seq<Check>)
      requires Valid() && Enabled(Abs(), now, ListComes(list))
      modifies this`clock, this`probeChecks, this`probeListAt
      ensures Valid() && probeRunning && Abs() == old(Abs()).(clock := now, checks := list, listAt := now)
    {
      clock := now;
      probeChecks, probeListAt := list, now;
    }

    method Keep(k: nat, ok: bool, now: int) returns (full: bool)
      requires Valid() && k < |due|
      modifies this`results, this`measured, this`outcomes
      ensures Valid() && (full <==> |results| >= REPORT_CAP)
      ensures var s, r := old(Abs()), Result(due[k].id, now, ok);
              Abs() == s.(results := s.results + [r], outcomes := s.outcomes + [r], measured := s.measured + [k])
    {
      var r := Result(due[k].id, now, ok);
      results := results + [r];
      measured, outcomes := measured + [k], outcomes + [r];
      full := |results| >= REPORT_CAP;
    }

    method Flush(w: nat)
      requires Valid() && w < |workers|
      modifies this`results, this`batches, this`workers
      ensures Valid()
      ensures var s := old(Abs());
              Abs() == s.(batches := s.batches + [s.results], results := [], workers := s.workers[w := Reporting])
    {
      var batch := results;
      results := [];
      batches := batches + [batch];
      workers := workers[w := Reporting];
    }

    ghost method NoteEnd(k: nat, now: int)
      requires Valid()
      modifies this`finished, this`clock
      ensures Valid() && Abs() == old(Abs()).(clock := now, finished := old(finished) + [k])
    {
      clock, finished := now, finished + [k];
    }

    /** A check comes back: its result joins the buffer, and the two hundredth sends it off. */
    method Finished(w: nat, outcome: Outcome, now: int)
      requires Valid() && Enabled(Abs(), now, Finishes(w, outcome))
      modifies this
      ensures Valid() && Abs() == Step(old(Abs()), now, Finishes(w, outcome))
    {
      hide Next;
      var k := workers[w].place;
      NoteEnd(k, now);
      var full := false;
      if outcome.Measured? { full := Keep(k, outcome.ok, now); }
      if full { Flush(w); } else { Take(w, now); }
    }

    method ReportReturned(w: nat, now: int)
      requires Valid() && Enabled(Abs(), now, Reported(w))
      modifies this
      ensures Valid() && Abs() == Step(old(Abs()), now, Reported(w))
    {
      clock := now;
      Take(w, now);
    }

    /** Checks no longer listed are forgotten. */
    method Forget()
      modifies this`probeState
      ensures probeState == old(probeState) - (old(probeState).Keys - IdsOf(probeChecks))
    {
      var ids := IdsOf(probeChecks);
      var todo: set<int> := probeState.Keys;
      while todo != {}
        invariant todo <= old(probeState).Keys
        invariant probeState == old(probeState) - (old(probeState).Keys - todo - ids)
        decreases |todo|
      {
        var id := Any(todo);
        if id !in ids { probeState := probeState - {id}; }
        todo := todo - {id};
      }
    }

    method EndCycle()
      requires Valid() && probeRunning
      modifies this
      ensures Valid() && Abs() == End(old(Abs()))
    {
      log := log + [Forgot(probeState.Keys - IdsOf(probeChecks))];
      Forget();
      phase, probeRunning := Idle, false;
    }

    /** Every worker has returned: the rest of the results go out, if there are any. */
    method PoolOver(now: int)
      requires Valid() && Enabled(Abs(), now, PoolDrained)
      modifies this
      ensures Valid() && Abs() == Step(old(Abs()), now, PoolDrained)
    {
      clock := now;
      if |results| == 0 {
        EndCycle();
      } else {
        var batch := results;
        results := [];
        batches := batches + [batch];
        phase := Closing;
      }
    }

    method LastReportReturned(now: int)
      requires Valid() && Enabled(Abs(), now, LastReported)
      modifies this
      ensures Valid() && Abs() == Step(old(Abs()), now, LastReported)
    {
      clock := now;
      EndCycle();
    }
  }
}
