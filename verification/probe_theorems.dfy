/** What the probe promises, over whole runs and all interleavings. */
module ProbeTheorems {
  import opened Numbers
  import opened Distinctness
  import opened Wrappers
  import opened ProbeModel
  import opened ProbeLaws
  import opened ProbeSpacing

  ghost predicate Inv(s: Probe) { CycleInv(s) && LogInv(s) }

  lemma BootInv(asked: int, now: int)
    ensures Inv(Boot(asked, now))
  {
  }

  lemma {:induction false} RunInv(s: Probe, evs: seq<Timed>)
    requires Inv(s) && Legal(s, evs)
    ensures Inv(After(s, evs))
    decreases |evs|
  {
    hide CycleInv, LogInv, Step, Enabled;
    if evs != [] {
      StepKeeps(s, evs[0].0, evs[0].1);
      StepLog(s, evs[0].0, evs[0].1);
      RunInv(Step(s, evs[0].0, evs[0].1), evs[1..]);
    }
  }

  // ── each due check once ───────────────────────────────────────────────────

  /** n different numbers below n are all of them. */
  lemma {:induction false} AllPlaces(ks: seq<nat>, n: nat, k: nat)
    requires Distinct(ks) && |ks| == n && k < n && forall x :: x in ks ==> x < n
    ensures k in ks
  {
    if k !in ks {
      var present := Elements(ks);
      var room := Below(n) - {k};
      DistinctSize(ks);
      assert present <= room;
      SubsetSize(present, room);
    }
  }

  function Below(n: nat): (r: set<nat>)
    ensures |r| == n && forall x: nat :: x in r <==> x < n
  {
    if n == 0 then {} else Below(n - 1) + {n - 1}
  }

  /** While a cycle is open, what it has started is what was due, in order, each once. */
  lemma StartedInOrder(s: Probe)
    requires Inv(s) && s.phase.Pooling?
    ensures |s.log| == s.base + Started(s) && |s.finished| + Busy(s.workers) == Started(s) <= |s.due|
    ensures forall j :: s.base <= j < |s.log| ==> s.log[j].Began? && s.log[j].check == s.due[j - s.base]
    ensures s.due[..Started(s)] + s.queue == s.due
  {
  }

  /** No more checks run at once than the pool has workers: min(concurrency, max(1, due)). */
  lemma InFlightBounded(s: Probe)
    requires Inv(s) && s.phase.Pooling?
    ensures Busy(s.workers) <= Min(s.concurrency, Max(1, |s.due|))
  {
    BusyBound(s.workers);
  }

  /** The accounts of a cycle are in these fields alone. */
  lemma SameAccounts(s: Probe, s': Probe)
    requires Accounted(s)
    requires s'.queue == s.queue && s'.due == s.due && s'.finished == s.finished && s'.measured == s.measured
    requires s'.outcomes == s.outcomes && s'.results == s.results && s'.batches == s.batches
    ensures Accounted(s')
  {
    hide Flat;
  }

  /** What is left of a drained pool is the last batch. */
  lemma ClosedAccounts(s: Probe)
    requires CycleInv(s) && s.phase.Pooling? && forall w :: 0 <= w < |s.workers| ==> s.workers[w].Done?
    ensures Accounted(Close(s)) && s.queue == []
  {
    hide Accounted, Assigned, Batched, Named, Flat;
    DrainedAccounted(s);
    DrainedQueue(s);
    SameAccounts(s.(batches := if s.results == [] then s.batches else s.batches + [s.results], results := []), Close(s));
  }

  lemma DrainedQueue(s: Probe)
    requires CycleInv(s) && s.phase.Pooling? && forall w :: 0 <= w < |s.workers| ==> s.workers[w].Done?
    ensures s.queue == []
  {
    hide AssignedTo, Flat, Named, Batched;
    AllReturned(s);
  }

  lemma AllFinished(s: Probe)
    requires Accounted(s)
    ensures forall k :: 0 <= k < |s.due| ==> k in s.finished
  {
    hide Named, Flat;
    forall k | 0 <= k < |s.due|
      ensures k in s.finished
    {
      AllPlaces(s.finished, |s.due|, k);
    }
  }

  lemma AccountsAtEnd(s: Probe, now: int, e: Event)
    requires CycleInv(s) && Enabled(s, now, e) && (e.PoolDrained? || e.LastReported?)
    ensures Accounted(Step(s, now, e)) && s.queue == [] && Step(s, now, e).due == s.due
  {
    hide Assigned, Batched, Named, Accounted, Flat;
    ClockMoves(s, now);
    var s1 := s.(clock := now);
    if e.PoolDrained? {
      ClosedAccounts(s1);
    } else {
      SameAccounts(s, Step(s, now, e));
      NothingQueued(s);
    }
  }

  lemma NothingQueued(s: Probe)
    requires Accounted(s)
    ensures s.queue == []
  {
  }

  /** A cycle comes to its end with every due check run exactly once, and every result in one batch. */
  lemma CycleComplete(s: Probe, now: int, e: Event)
    requires Inv(s) && Enabled(s, now, e) && (e.PoolDrained? || e.LastReported?)
    ensures var s' := Step(s, now, e);
            && Accounted(s')
            && s'.due == s.due && (forall k :: 0 <= k < |s.due| ==> k in s'.finished)
            && |s.log| == s.base + |s.due|
            && forall j :: s.base <= j < |s.log| ==> s.log[j].check == s.due[j - s.base]
  {
    hide CycleInv, Accounted, Step, Remembered, Timely;
    AccountsAtEnd(s, now, e);
    AllFinished(Step(s, now, e));
  }

  lemma {:induction false} FlatSize(batches: seq<seq<Result>>)
    requires Full(batches)
    ensures |Flat(batches)| == REPORT_CAP * |batches|
  {
    if batches != [] {
      FlatSize(batches[..|batches|-1]);
    }
  }

  /** As few posts as can be: one for every two hundred results, rounded up. */
  lemma FewestBatches(s: Probe)
    requires Accounted(s)
    ensures |s.batches| == (|s.outcomes| + 199) / 200
  {
    if s.batches != [] {
      var n := |s.batches| - 1;
      assert Full(s.batches[..n]);
      FlatSize(s.batches[..n]);
      var last := |s.batches[n]|;
      assert |s.outcomes| == REPORT_CAP * n + last;
    }
  }

  // ── the guard ─────────────────────────────────────────────────────────────

  /** While a cycle is open the timer does nothing, and whatever else happens is the cycle's own. */
  lemma StaysInCycle(s: Probe, now: int, e: Event)
    requires Enabled(s, now, e) && (s.phase.Pooling? || s.phase.Closing?)
    ensures SameCycle(s, Step(s, now, e)) && (e.Tick? ==> Step(s, now, e) == s.(clock := now))
  {
  }

  /** The same work, started at the same time, and further on. */
  ghost predicate SameCycle(s: Probe, s': Probe) {
    && s'.due == s.due && s'.checks == s.checks && s'.cycleAt == s.cycleAt && s'.base == s.base
    && s.finished <= s'.finished && s.outcomes <= s'.outcomes && s.batches <= s'.batches && s.log <= s'.log
  }

  /** Cycles never overlap: as long as one is open, however often the timer fires, it is the one that was opened. */
  lemma {:induction false} NeverOverlaps(s: Probe, evs: seq<Timed>)
    requires Legal(s, evs) && OpenThroughout(s, evs)
    ensures SameCycle(s, After(s, evs))
    decreases |evs|
  {
    hide Step, Enabled;
    if evs != [] {
      StaysInCycle(s, evs[0].0, evs[0].1);
      NeverOverlaps(Step(s, evs[0].0, evs[0].1), evs[1..]);
    }
  }

  /** Work left in an open cycle, once its list is there. */
  function Left(s: Probe): nat {
    match s.phase
    case Idle => 0
    case Fetching => 0
    case Pooling => 4 * |s.queue| + Toil(s.workers) + 2
    case Closing => 1
  }

  function Toil(ws: seq<Worker>): nat {
    if ws == [] then 0
    else Toil(ws[..|ws|-1]) + (match ws[|ws|-1] case Running(_) => 3 case Reporting => 2 case Done => 0)
  }

  lemma {:induction false} ToilUpdate(ws: seq<Worker>, w: nat, x: Worker)
    requires w < |ws|
    ensures Toil(ws[w := x]) + (match ws[w] case Running(_) => 3 case Reporting => 2 case Done => 0) ==
            Toil(ws) + (match x case Running(_) => 3 case Reporting => 2 case Done => 0)
  {
    var n := |ws| - 1;
    if w == n {
      assert ws[w := x][..n] == ws[..n];
    } else {
      assert ws[w := x][..n] == ws[..n][w := x];
      ToilUpdate(ws[..n], w, x);
    }
  }

  lemma NextToils(s: Probe, w: nat, now: int)
    requires w < |s.workers| && |s.queue| <= |s.due| && s.phase.Pooling? && !s.workers[w].Done?
    ensures Left(Next(s, w, now)) < Left(s)
  {
    ToilUpdate(s.workers, w, Next(s, w, now).workers[w]);
  }

  /** Whatever the workers do, an open cycle gets nearer its end with everything that happens. */
  lemma CycleProgresses(s: Probe, now: int, e: Event)
    requires Enabled(s, now, e) && !e.Tick? && (s.phase.Pooling? || s.phase.Closing?)
    ensures Left(Step(s, now, e)) < Left(s)
    ensures var p := Step(s, now, e).phase; p.Pooling? || p.Closing? || p.Idle?
  {
    match e {
    case Finishes(w, outcome) =>
      NextToils(s.(clock := now, finished := s.finished + [s.workers[w].place]), w, now);
      ToilUpdate(s.workers, w, Reporting);
      FinishToils(s.(clock := now), w, outcome, now);
    case Reported(w) => NextToils(s.(clock := now), w, now);
    case _ =>
    }
  }

  lemma FinishToils(s: Probe, w: nat, outcome: Outcome, now: int)
    requires w < |s.workers| && s.workers[w].Running? && s.workers[w].place < |s.due| && |s.queue| <= |s.due|
    requires s.phase.Pooling?
    ensures Left(Finish(s, w, outcome, now)) < Left(s)
  {
    hide Toil;
    ToilUpdate(s.workers, w, Reporting);
    NextToils(s, w, now);
    var s' := Finish(s, w, outcome, now);
    assert (s'.queue == s.queue && s'.workers == s.workers[w := Reporting]) ||
           (s'.queue == Next(s, w, now).queue && s'.workers == Next(s, w, now).workers);
  }

  /** And it is never stuck: something it waits for is always still to come. */
  lemma NeverStuck(s: Probe)
    requires Inv(s) && !s.phase.Idle?
    ensures exists e: Event :: !e.Tick? && Enabled(s, s.clock, e)
  {
    if s.phase.Fetching? {
      assert Enabled(s, s.clock, ListFails);
    } else if s.phase.Closing? {
      assert Enabled(s, s.clock, LastReported);
    } else if w :| 0 <= w < |s.workers| && !s.workers[w].Done? {
      if s.workers[w].Running? {
        assert Enabled(s, s.clock, Finishes(w, Skipped));
      } else {
        assert Enabled(s, s.clock, Reported(w));
      }
    } else {
      assert Enabled(s, s.clock, PoolDrained);
    }
  }

  function Happenings(evs: seq<Timed>): nat {
    if evs == [] then 0 else (if evs[0].1.Tick? then 0 else 1) + Happenings(evs[1..])
  }

  /** A cycle that is open, with its list, at every moment of the run. */
  predicate OpenThroughout(s: Probe, evs: seq<Timed>)
    requires Legal(s, evs)
    decreases |evs|
  {
    (s.phase.Pooling? || s.phase.Closing?) && (evs == [] || OpenThroughout(Step(s, evs[0].0, evs[0].1), evs[1..]))
  }

  /** The guard is released: an open cycle outlasts no more happenings than it has work left. */
  lemma {:induction false} GuardReleased(s: Probe, evs: seq<Timed>)
    requires Legal(s, evs) && OpenThroughout(s, evs)
    ensures Happenings(evs) < Left(s)
    decreases |evs|
  {
    hide Step, Enabled, Toil;
    if evs != [] {
      var (now, e) := evs[0];
      if e.Tick? { StaysInCycle(s, now, e); } else { CycleProgresses(s, now, e); }
      GuardReleased(Step(s, now, e), evs[1..]);
    }
  }

  // ── spacing ───────────────────────────────────────────────────────────────

  predicate ListsUnique(evs: seq<Timed>) {
    forall i :: 0 <= i < |evs| && evs[i].1.ListComes? ==> UniqueIds(evs[i].1.list)
  }

  lemma {:induction false} StartGrows(s: Probe, n: nat, now: int)
    requires |s.queue| <= |s.due|
    ensures var s' := StartWorkers(s, n, now);
            s.log <= s'.log && s'.base == s.base && s'.phase == s.phase
  {
    if n > 0 { StartGrows(s, n - 1, now); }
  }

  /** A step adds to the log: starts of the cycle that is open after it, or a forgetting. */
  lemma LogGrows(s: Probe, now: int, e: Event)
    requires LogInv(s) && Enabled(s, now, e)
    ensures var s' := Step(s, now, e);
            && s.log <= s'.log
            && (s'.phase.Pooling? ==> s'.base <= |s.log|)
            && (!s'.phase.Pooling? ==> forall j :: |s.log| <= j < |s'.log| ==> s'.log[j].Forgot?)
  {
    hide StartWorkers, Remembered;
    var s1 := s.(clock := now);
    match e {
    case Tick => StartGrows(Pooled(s1, now), PoolSize(s.concurrency, |Pooled(s1, now).queue|), now);
    case ListComes(list) =>
      var s2 := s1.(checks := list, listAt := now);
      StartGrows(Pooled(s2, now), PoolSize(s.concurrency, |Pooled(s2, now).queue|), now);
    case _ =>
    }
  }

  lemma StepSpaced(s: Probe, now: int, e: Event)
    requires LogInv(s) && Spaced(s.log) && Unique(s) && Enabled(s, now, e) && (e.ListComes? ==> UniqueIds(e.list))
    ensures Spaced(Step(s, now, e).log) && Unique(Step(s, now, e))
  {
    hide Step, Remembered, Timely, Rested, Spaced;
    LogGrows(s, now, e);
    StepLog(s, now, e);
    StepUnique(s, now, e);
    var s' := Step(s, now, e);
    forall j | |s.log| <= j < |s'.log|
      ensures SpacedAt(s'.log, j)
    {
      if s'.phase.Pooling? { FirstInCycleRested(s', j); }
    }
    SpacedPrefix(s.log, s'.log);
  }

  lemma {:induction false} RunSpaced(s: Probe, evs: seq<Timed>)
    requires LogInv(s) && Spaced(s.log) && Unique(s) && Legal(s, evs) && ListsUnique(evs)
    ensures Spaced(After(s, evs).log) && LogInv(After(s, evs))
    decreases |evs|
  {
    hide Step, Enabled, LogInv, Spaced, Unique;
    if evs != [] {
      StepSpaced(s, evs[0].0, evs[0].1);
      StepLog(s, evs[0].0, evs[0].1);
      RunSpaced(Step(s, evs[0].0, evs[0].1), evs[1..]);
    }
  }

  /**
   * Over every run in which the lists name each check once: a check that was started, was not
   * forgotten since, and is started again, is started at least its current interval later.
   */
  lemma StartsAreSpaced(asked: int, now: int, evs: seq<Timed>, i: nat, j: nat)
    requires Legal(Boot(asked, now), evs) && ListsUnique(evs)
    requires var log := After(Boot(asked, now), evs).log;
             && i < j < |log| && log[i].Began? && log[j].Began? && log[i].check.id == log[j].check.id
             && forall k :: i < k < j && log[k].Forgot? ==> log[j].check.id !in log[k].ids
    ensures var log := After(Boot(asked, now), evs).log;
            log[j].at - log[i].at >= 1000 * (if log[j].check.intervalS == 0 then 60 else log[j].check.intervalS)
  {
    hide Step, Enabled;
    var s := Boot(asked, now);
    RunSpaced(s, evs);
    var log := After(s, evs).log;
    assert SpacedAt(log, j);
    SeenSince(log[..j], i, log[j].check.id, log[i].at);
  }

  /** A finished cycle forgets exactly the checks the list no longer has. */
  lemma CycleForgets(s: Probe, now: int, e: Event)
    requires Enabled(s, now, e) && (e.PoolDrained? || e.LastReported?) && Step(s, now, e).phase.Idle?
    ensures var s' := Step(s, now, e);
            && s'.lastRun.Keys == s.lastRun.Keys * IdsOf(s.checks)
            && (forall id :: id in s'.lastRun ==> s'.lastRun[id] == s.lastRun[id])
            && s'.log == s.log + [Forgot(s.lastRun.Keys - IdsOf(s.checks))]
  {
  }

  /** Without unique ids the same check can be started twice at one moment. */
  lemma DuplicatesRunTwice(now: int)
    requires now >= 60000
    ensures exists evs: seq<Timed> ::
              var s := Boot(2, now);
              Legal(s, evs) && !Spaced(After(s, evs).log)
  {
    var c := Check(1, 60);
    var s := Boot(2, now);
    var s1 := Step(s, now, Tick);
    assert s1 == s.(phase := Fetching);
    var s2 := Step(s1, now, ListComes([c, c]));
    var evs: seq<Timed> := [(now, Tick), (now, ListComes([c, c]))];
    DueOfTwo(c, s1.lastRun, now);
    TwoStarted(s1.(checks := [c, c], listAt := now), c, now);
    assert evs[1..] == [(now, ListComes([c, c]))] && evs[1..][1..] == [];
    assert After(s2, []) == s2 && Legal(s2, []);
    assert Legal(s1, evs[1..]) && After(s1, evs[1..]) == s2;
    assert Legal(s, evs) && After(s, evs) == s2;
    assert !SpacedAt(s2.log, 1);
  }

  lemma DueOfTwo(c: Check, lastRun: map<int, int>, now: int)
    requires IsDue(c, lastRun, now)
    ensures DueOf([c, c], lastRun, now) == [c, c]
  {
    assert [c, c][..1] == [c] && [c][..0] == [];
    assert DueOf([c], lastRun, now) == [c];
  }

  lemma TwoStarted(s: Probe, c: Check, now: int)
    requires s.concurrency == 2 && s.log == [] && DueOf(s.checks, s.lastRun, now) == [c, c]
    ensures Begin(s, now).log == [Began(c, now), Began(c, now)]
    ensures LastSeen(Begin(s, now).log[..1], c.id) == Some(now)
  {
    var s1 := Pooled(s, now);
    assert StartWorkers(s1, 0, now) == s1;
    var a := StartWorkers(s1, 1, now);
    assert a.log == [Began(c, now)] && a.queue == [c];
    assert StartWorkers(s1, 2, now).log == [Began(c, now)] + [Began(c, now)];
    SeenSnoc([], Began(c, now), c.id);
  }
}
