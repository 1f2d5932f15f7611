/**
 * What a cycle tells the server: for each check that came back with a result, that
 * check's id, the time it came back and what it came to, and nothing else; and what
 * makes a check due, a list stale and a pool full, in the source's own numbers.
 */
module ProbeResults {
  import opened Numbers
  import opened ProbeModel
  import opened ProbeLaws
  import opened ProbeSpacing
  import opened ProbeTheorems

  // ── results are what the events said ──────────────────────────────────────

  /** What the end of one run has to be reported as: of the check its worker then held, at that moment, as it came out. */
  function Told(s: Probe, now: int, e: Event): seq<Result>
    requires Enabled(s, now, e)
  {
    match e
    case Finishes(w, Measured(ok)) => [Result(s.due[s.workers[w].place].id, now, ok)]
    case _ => []
  }

  /** ...and of a whole run of events, in order. */
  ghost function Tellings(s: Probe, evs: seq<Timed>): seq<Result>
    requires Legal(s, evs)
    decreases |evs|
  {
    if evs == [] then []
    else Told(s, evs[0].0, evs[0].1) + Tellings(Step(s, evs[0].0, evs[0].1), evs[1..])
  }

  /** The pool has not been drained. */
  predicate Undrained(evs: seq<Timed>) {
    forall i :: 0 <= i < |evs| ==> !evs[i].1.PoolDrained?
  }

  /** What a worker's next check leaves alone. */
  lemma NextTellsNothing(s: Probe, w: nat, now: int)
    requires w < |s.workers| && |s.queue| <= |s.due|
    ensures var s' := Next(s, w, now);
            s'.batches == s.batches && s'.results == s.results && s'.phase == s.phase && s'.due == s.due
  {
  }

  /** Each event of an open pool adds to what is posted and what waits exactly what it has to tell. */
  lemma ToldStep(s: Probe, now: int, e: Event)
    requires Enabled(s, now, e) && s.phase.Pooling? && !e.PoolDrained?
    ensures var s' := Step(s, now, e);
            && s'.phase.Pooling? && s'.due == s.due
            && Flat(s'.batches) + s'.results == Flat(s.batches) + s.results + Told(s, now, e)
  {
    hide Next, Flat;
    var s1 := s.(clock := now);
    match e {
    case Finishes(w, outcome) =>
      var k := s.workers[w].place;
      var s2 := s1.(finished := s.finished + [k]);
      NextTellsNothing(s2, w, now);
      if outcome.Measured? {
        var r := Result(s.due[k].id, now, outcome.ok);
        var s3 := s2.(results := s.results + [r], outcomes := s.outcomes + [r], measured := s.measured + [k]);
        NextTellsNothing(s3, w, now);
        FlatSnoc(s.batches, s.results + [r]);
        assert Flat(s.batches) + (s.results + [r]) == Flat(s.batches) + s.results + [r];
        assert Flat(s.batches + [s.results + [r]]) + [] == Flat(s.batches) + s.results + [r];
      }
    case Reported(w) => NextTellsNothing(s1, w, now);
    case _ =>
    }
    assert Flat(s.batches) + s.results + [] == Flat(s.batches) + s.results;
  }

  lemma {:induction false} ToldRun(s: Probe, evs: seq<Timed>)
    requires Legal(s, evs) && s.phase.Pooling? && Undrained(evs)
    ensures var s' := After(s, evs);
            && s'.phase.Pooling? && s'.due == s.due
            && Flat(s'.batches) + s'.results == Flat(s.batches) + s.results + Tellings(s, evs)
    decreases |evs|
  {
    if evs == [] {
      assert Flat(s.batches) + s.results + [] == Flat(s.batches) + s.results;
    } else {
      var (now, e) := evs[0];
      ToldStep(s, now, e);
      hide Step, Enabled, Told, Flat;
      assert Undrained(evs[1..]);
      var s1 := Step(s, now, e);
      ToldRun(s1, evs[1..]);
      var so := Flat(s.batches) + s.results;
      assert so + Told(s, now, e) + Tellings(s1, evs[1..]) == so + (Told(s, now, e) + Tellings(s1, evs[1..]));
    }
  }

  /** A pool begins with nothing posted and nothing waiting. */
  lemma {:induction false} StartTellsNothing(s: Probe, n: nat, now: int)
    requires |s.queue| <= |s.due|
    ensures var s' := StartWorkers(s, n, now);
            s'.batches == s.batches && s'.results == s.results && s'.phase == s.phase && s'.due == s.due
  {
    hide Next;
    if n > 0 {
      var before := StartWorkers(s, n - 1, now);
      StartTellsNothing(s, n - 1, now);
      NextTellsNothing(before.(workers := before.workers + [Done]), |before.workers|, now);
    }
  }

  lemma BeginsClean(s: Probe, now: int)
    ensures var s' := Begin(s, now);
            s'.phase.Pooling? && s'.batches == [] && s'.results == [] && s'.due == DueOf(s.checks, s.lastRun, now)
  {
    hide StartWorkers;
    var s1 := Pooled(s, now);
    StartTellsNothing(s1, PoolSize(s.concurrency, |s1.queue|), now);
  }

  /**
   * A whole cycle, from the event that opens its pool to the one that drains it, whatever comes in
   * between: the batches posted, one after another, are exactly what the checks that came back came
   * to, each under its own id and at its own time, in the order they came back. A check that was
   * skipped is in none.
   */
  lemma BatchesTellTheTruth(s: Probe, now: int, e: Event, evs: seq<Timed>, end: int)
    requires Enabled(s, now, e) && !s.phase.Pooling? && Step(s, now, e).phase.Pooling?
    requires var s1 := Step(s, now, e); Legal(s1, evs) && Undrained(evs) && Enabled(After(s1, evs), end, PoolDrained)
    ensures var s1 := Step(s, now, e);
            Flat(Step(After(s1, evs), end, PoolDrained).batches) == Tellings(s1, evs)
  {
    var s1 := Step(s, now, e);
    Opened(s, now, e);
    ToldRun(s1, evs);
    hide Legal, After, Tellings;
    var s2 := After(s1, evs);
    assert Flat([]) == [] && [] + [] + Tellings(s1, evs) == Tellings(s1, evs);
    FlatSnoc(s2.batches, s2.results);
    if s2.results == [] { assert Flat(s2.batches) + [] == Flat(s2.batches); }
  }

  lemma Opened(s: Probe, now: int, e: Event)
    requires Enabled(s, now, e) && !s.phase.Pooling? && Step(s, now, e).phase.Pooling?
    ensures Step(s, now, e).batches == [] && Step(s, now, e).results == []
  {
    hide Begin;
    BeginsClean(s.(clock := now), now);
    if e.ListComes? { BeginsClean(s.(clock := now, checks := e.list, listAt := now), now); }
  }

  // ── when a check is due, and the list stale ───────────────────────────────

  /** Its interval, sixty seconds if it has none, has passed since it was last started, or it never was since 1970. */
  predicate DueNow(s: Probe, c: Check, now: int) {
    now - (if c.id in s.lastRun then s.lastRun[c.id] else 0) >= 1000 * (if c.intervalS == 0 then 60 else c.intervalS)
  }

  /** These places of the list, in order, are the due ones, and these are the checks there. */
  ghost predicate Picks(s: Probe, now: int, checks: seq<Check>, due: seq<Check>, picked: seq<nat>) {
    && |picked| == |due|
    && (forall i :: 0 <= i < |picked| ==> picked[i] < |checks| && due[i] == checks[picked[i]])
    && (forall i, j :: 0 <= i < j < |picked| ==> picked[i] < picked[j])
    && (forall k :: 0 <= k < |checks| ==> (k in picked <==> DueNow(s, checks[k], now)))
  }

  /** The due checks of a list, in its order. */
  ghost predicate ListedDue(s: Probe, now: int, checks: seq<Check>, due: seq<Check>) {
    exists picked: seq<nat> :: Picks(s, now, checks, due, picked)
  }

  lemma OneMoreCheck(s: Probe, now: int, checks: seq<Check>, due: seq<Check>, picked: seq<nat>, c: Check)
    requires Picks(s, now, checks, due, picked)
    ensures if DueNow(s, c, now) then Picks(s, now, checks + [c], due + [c], picked + [|checks|])
            else Picks(s, now, checks + [c], due, picked)
  {
    hide DueNow;
    forall k | 0 <= k < |checks|
      ensures (checks + [c])[k] == checks[k]
    {
    }
    assert |checks| !in picked;
    assert forall k :: k in picked + [|checks|] <==> k in picked || k == |checks|;
  }

  lemma {:induction false} DueAreListed(s: Probe, now: int, checks: seq<Check>)
    ensures ListedDue(s, now, checks, DueOf(checks, s.lastRun, now))
  {
    hide Picks;
    if checks == [] {
      NothingPicked(s, now);
    } else {
      var n := |checks| - 1;
      DueAreListed(s, now, checks[..n]);
      var due := DueOf(checks[..n], s.lastRun, now);
      var picked: seq<nat> :| Picks(s, now, checks[..n], due, picked);
      OneMoreCheck(s, now, checks[..n], due, picked, checks[n]);
      assert checks[..n] + [checks[n]] == checks && due + [] == due;
    }
  }

  lemma NothingPicked(s: Probe, now: int)
    ensures Picks(s, now, [], [], [])
  {
  }

  /**
   * The timer: nothing while a cycle is open; the list is asked for when it is thirty seconds old or
   * empty; and otherwise the pool opens on the checks of the list that are due.
   */
  lemma TimerDoes(s: Probe, now: int)
    requires Enabled(s, now, Event.Tick)
    ensures var s' := Step(s, now, Event.Tick);
            if s.phase != Idle then s' == s.(clock := now)
            else if now - s.listAt >= 30000 || s.checks == [] then s' == s.(clock := now, phase := Fetching)
            else s'.phase == Pooling && s'.checks == s.checks && s'.listAt == s.listAt && ListedDue(s, now, s.checks, s'.due)
  {
    hide Begin, DueOf, ListedDue;
    DueAreListed(s, now, s.checks);
    BeginsClean(s.(clock := now), now);
    BeginKeepsList(s.(clock := now), now);
  }

  /** A list that came is kept with the time it came, and the pool opens on its due checks; one that did not come ends the cycle. */
  lemma ListDoes(s: Probe, now: int, list: seq<Check>)
    requires Enabled(s, now, ListComes(list))
    ensures var s' := Step(s, now, ListComes(list));
            s'.phase == Pooling && s'.checks == list && s'.listAt == now && ListedDue(s, now, list, s'.due)
    ensures Step(s, now, ListFails) == s.(clock := now, phase := Idle)
  {
    hide Begin, DueOf, ListedDue;
    DueAreListed(s, now, list);
    var s1 := s.(clock := now, checks := list, listAt := now);
    BeginsClean(s1, now);
    BeginKeepsList(s1, now);
  }

  lemma {:induction false} StartKeepsList(s: Probe, n: nat, now: int)
    requires |s.queue| <= |s.due|
    ensures StartWorkers(s, n, now).checks == s.checks && StartWorkers(s, n, now).listAt == s.listAt
  {
    if n > 0 { StartKeepsList(s, n - 1, now); }
  }

  lemma BeginKeepsList(s: Probe, now: int)
    ensures Begin(s, now).checks == s.checks && Begin(s, now).listAt == s.listAt
    ensures |Begin(s, now).workers| == PoolSize(s.concurrency, |DueOf(s.checks, s.lastRun, now)|)
  {
    hide StartWorkers;
    var s1 := Pooled(s, now);
    StartKeepsList(s1, PoolSize(s.concurrency, |s1.queue|), now);
  }

  /** While work is waiting every worker of the pool is busy or reporting: min(concurrency, max(1, due)) of them. */
  lemma PoolIsFull(s: Probe)
    requires Inv(s) && s.phase.Pooling?
    ensures |s.workers| == (var most := if |s.due| == 0 then 1 else |s.due|; if s.concurrency < most then s.concurrency else most)
    ensures s.queue != [] ==> forall w :: 0 <= w < |s.workers| ==> !s.workers[w].Done?
  {
    hide Batched, Named, Accounted;
  }

  /** Sixteen if nothing is asked for, and otherwise what is asked for, between 1 and 64. */
  lemma PoolAsked(asked: int)
    ensures Concurrency(0) == 16 && (1 <= asked <= 64 ==> Concurrency(asked) == asked)
    ensures (asked < 0 ==> Concurrency(asked) == 1) && (asked > 64 ==> Concurrency(asked) == 64)
  {
  }
}
