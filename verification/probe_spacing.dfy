/**
 * How far apart the starts of one check are, over whole runs. The log says when
 * checks were started and when the agent forgot about checks.
 */
module ProbeSpacing {
  import opened Wrappers
  import opened ProbeModel
  import opened ProbeLaws

  /** When a check was last started, as far as the log still remembers. */
  function LastSeen(log: seq<Entry>, id: int): Option<int> {
    if log == [] then None
    else
      var e := log[|log|-1];
      if !Concerns(e, id) then LastSeen(log[..|log|-1], id)
      else if e.Began? then Some(e.at)
      else None
  }

  predicate Concerns(e: Entry, id: int) {
    if e.Began? then e.check.id == id else id in e.ids
  }

  /** Long enough after the last start remembered. */
  predicate Rested(log: seq<Entry>, c: Check, at: int) {
    LastSeen(log, c.id).Some? ==> at - LastSeen(log, c.id).value >= 1000 * (if c.intervalS == 0 then 60 else c.intervalS)
  }

  predicate SpacedAt(log: seq<Entry>, j: nat)
    requires j < |log|
  {
    log[j].Began? ==> Rested(log[..j], log[j].check, log[j].at)
  }

  predicate Spaced(log: seq<Entry>) {
    forall j :: 0 <= j < |log| ==> SpacedAt(log, j)
  }

  predicate UniqueIds(cs: seq<Check>) {
    forall i, j :: 0 <= i < j < |cs| ==> cs[i].id != cs[j].id
  }

  /** The map of last runs is what the log remembers. */
  ghost predicate Remembered(s: Probe) {
    forall id :: LastSeen(s.log, id) == if id in s.lastRun then Some(s.lastRun[id]) else None
  }

  ghost predicate Timely(log: seq<Entry>, clock: int) {
    && (forall j :: 0 <= j < |log| && log[j].Began? ==> log[j].at <= clock)
    && (forall i, j :: 0 <= i < j < |log| && log[i].Began? && log[j].Began? ==> log[i].at <= log[j].at)
  }

  /** The cycle's part of the log is the work started so far, in the order it was due. */
  ghost predicate CycleLog(s: Probe) {
    && |s.queue| <= |s.due| && s.queue == s.due[Started(s)..]
    && |s.log| == s.base + Started(s) && s.cycleAt <= s.clock
    && (forall j :: s.base <= j < |s.log| ==>
          s.log[j].Began? && s.log[j].check == s.due[j - s.base] && s.cycleAt <= s.log[j].at)
    && (forall k :: 0 <= k < |s.due| ==> Rested(s.log[..s.base], s.due[k], s.cycleAt))
  }

  ghost predicate LogInv(s: Probe) {
    && Remembered(s) && Timely(s.log, s.clock)
    && (s.phase.Pooling? || s.phase.Closing? ==> CycleLog(s))
  }

  lemma SeenSnoc(log: seq<Entry>, e: Entry, id: int)
    ensures LastSeen(log + [e], id) ==
            if !Concerns(e, id) then LastSeen(log, id) else if e.Began? then Some(e.at) else None
  {
    assert (log + [e])[..|log|] == log;
  }

  /** Entries about other checks do not matter. */
  lemma {:induction false} SeenSkips(log: seq<Entry>, n: nat, id: int)
    requires n <= |log|
    requires forall k :: n <= k < |log| ==> !Concerns(log[k], id)
    ensures LastSeen(log, id) == LastSeen(log[..n], id)
  {
    if n == |log| {
      assert log[..n] == log;
    } else {
      var m := |log| - 1;
      assert log[..m][..n] == log[..n];
      SeenSkips(log[..m], n, id);
    }
  }

  // ── what steps do to the log ──────────────────────────────────────────────

  lemma {:induction false} DueAre(checks: seq<Check>, lastRun: map<int, int>, now: int)
    ensures forall c :: c in DueOf(checks, lastRun, now) <==> c in checks && IsDue(c, lastRun, now)
    ensures UniqueIds(checks) ==> UniqueIds(DueOf(checks, lastRun, now))
  {
    if checks != [] {
      var n := |checks| - 1;
      DueAre(checks[..n], lastRun, now);
      assert checks == checks[..n] + [checks[n]];
      if UniqueIds(checks) {
        assert UniqueIds(checks[..n]);
        forall c | c in checks[..n]
          ensures c.id != checks[n].id
        {
          var i :| 0 <= i < n && checks[..n][i] == c;
          assert checks[i] == c;
        }
        var before := DueOf(checks[..n], lastRun, now);
        assert forall i :: 0 <= i < |before| ==> before[i] in before;
      }
    }
  }

  lemma PooledLog(s: Probe, now: int)
    requires Remembered(s) && Timely(s.log, now) && s.clock == now
    ensures LogInv(Pooled(s, now))
  {
    var s' := Pooled(s, now);
    DueAre(s.checks, s.lastRun, now);
    assert s'.log[..s'.base] == s.log;
    forall k | 0 <= k < |s'.due|
      ensures Rested(s.log, s'.due[k], now)
    {
      assert s'.due[k] in s'.due;
    }
  }

  lemma NextLog(s: Probe, w: nat, now: int)
    requires LogInv(s) && s.phase.Pooling? && s.clock == now && w < |s.workers| && |s.queue| <= |s.due|
    ensures LogInv(Next(s, w, now))
  {
    if s.queue != [] {
      var s' := Next(s, w, now);
      var c := s.queue[0];
      forall id
        ensures LastSeen(s'.log, id) == if id in s'.lastRun then Some(s'.lastRun[id]) else None
      {
        SeenSnoc(s.log, Began(c, now), id);
      }
      assert s'.log[..s.base] == s.log[..s.base];
      assert c == s.due[Started(s)];
    }
  }

  lemma {:induction false} StartLog(s: Probe, n: nat, now: int)
    requires LogInv(s) && s.phase.Pooling? && s.clock == now && |s.queue| <= |s.due|
    ensures LogInv(StartWorkers(s, n, now)) && StartWorkers(s, n, now).phase.Pooling?
    ensures StartWorkers(s, n, now).clock == now
  {
    hide LogInv;
    if n > 0 {
      StartLog(s, n - 1, now);
      var before := StartWorkers(s, n - 1, now);
      SameLog(before, before.(workers := before.workers + [Done]));
      NextLog(before.(workers := before.workers + [Done]), |before.workers|, now);
    }
  }

  lemma FinishLog(s: Probe, w: nat, outcome: Outcome, now: int)
    requires LogInv(s) && s.phase.Pooling? && s.clock == now && |s.queue| <= |s.due|
    requires w < |s.workers| && s.workers[w].Running? && s.workers[w].place < |s.due|
    ensures LogInv(Finish(s, w, outcome, now))
  {
    hide LogInv;
    var s1 := s.(finished := s.finished + [s.workers[w].place]);
    SameLog(s, s1);
    NextLog(s1, w, now);
    if outcome.Measured? {
      var r := Result(s.due[s.workers[w].place].id, now, outcome.ok);
      var s2 := s1.(results := s.results + [r], outcomes := s.outcomes + [r], measured := s.measured + [s.workers[w].place]);
      SameLog(s, s2);
      NextLog(s2, w, now);
      SameLog(s2, s2.(batches := s.batches + [s2.results], results := [], workers := s.workers[w := Reporting]));
    }
  }

  /** Results, batches and workers do not matter to the log. */
  lemma SameLog(s: Probe, s': Probe)
    requires LogInv(s)
    requires s'.phase == s.phase && s'.clock == s.clock && s'.log == s.log && s'.lastRun == s.lastRun
    requires s'.queue == s.queue && s'.due == s.due && s'.base == s.base && s'.cycleAt == s.cycleAt
    ensures LogInv(s')
  {
  }

  lemma EndLog(s: Probe)
    requires LogInv(s)
    ensures LogInv(End(s))
  {
    var s' := End(s);
    var gone := s.lastRun.Keys - IdsOf(s.checks);
    forall id
      ensures LastSeen(s'.log, id) == if id in s'.lastRun then Some(s'.lastRun[id]) else None
    {
      SeenSnoc(s.log, Forgot(gone), id);
    }
  }

  lemma StepLog(s: Probe, now: int, e: Event)
    requires LogInv(s) && Enabled(s, now, e)
    ensures LogInv(Step(s, now, e))
  {
    hide StartWorkers, Finish, Next, End, Pooled;
    var s1 := s.(clock := now);
    assert LogInv(s1);
    match e {
    case Tick => PooledLog(s1, now); StartPooled(s1, now);
    case ListComes(list) =>
      var s2 := s1.(checks := list, listAt := now);
      PooledLog(s2, now); StartPooled(s2, now);
    case Finishes(w, outcome) => FinishLog(s1, w, outcome, now);
    case Reported(w) => NextLog(s1, w, now);
    case PoolDrained => EndLog(s1);
    case LastReported => EndLog(s1);
    case ListFails =>
    }
  }

  lemma StartPooled(s: Probe, now: int)
    requires LogInv(Pooled(s, now)) && s.clock == now
    ensures LogInv(Begin(s, now))
  {
    StartLog(Pooled(s, now), PoolSize(s.concurrency, |Pooled(s, now).queue|), now);
  }

  // ── the starts of one check ───────────────────────────────────────────────

  ghost predicate Unique(s: Probe) {
    UniqueIds(s.checks) && (s.phase.Pooling? || s.phase.Closing? ==> UniqueIds(s.due))
  }

  /** In a cycle, a start that follows no other start of the same id in it comes rested. */
  lemma FirstInCycleRested(s: Probe, j: nat)
    requires CycleLog(s) && s.base <= j < |s.log|
    requires forall i :: s.base <= i < j ==> s.log[i].check.id != s.log[j].check.id
    ensures SpacedAt(s.log, j)
  {
    var c := s.log[j].check;
    assert s.log[..j][..s.base] == s.log[..s.base];
    SeenSkips(s.log[..j], s.base, c.id);
    assert c == s.due[j - s.base];
  }

  /** A start that follows another of the same id, in a cycle younger than its interval, comes too soon. */
  lemma SecondInCycleTooSoon(s: Probe, i: nat, j: nat)
    requires CycleLog(s) && Timely(s.log, s.clock) && s.base <= i < j < |s.log|
    requires s.log[i].check.id == s.log[j].check.id
    requires s.clock - s.cycleAt < 1000 * (if s.log[j].check.intervalS == 0 then 60 else s.log[j].check.intervalS)
    ensures !SpacedAt(s.log, j)
  {
    SeenSince(s.log[..j], i, s.log[j].check.id, s.cycleAt);
  }

  /** After a start, and nothing forgotten since, the last start seen is that one or a later one. */
  lemma {:induction false} SeenSince(log: seq<Entry>, i: nat, id: int, t: int)
    requires i < |log| && log[i].Began? && log[i].check.id == id
    requires forall k :: i <= k < |log| && Concerns(log[k], id) ==> log[k].Began? && t <= log[k].at
    ensures LastSeen(log, id).Some? && LastSeen(log, id).value >= t
  {
    var n := |log| - 1;
    if !Concerns(log[n], id) {
      SeenSince(log[..n], i, id, t);
    }
  }

  /**
   * When starts in a cycle are spaced: in a cycle that has lasted less than the intervals of the
   * checks in it, they all are exactly when no id has been started twice.
   */
  lemma CycleSpacedExactly(s: Probe)
    requires LogInv(s) && s.phase.Pooling?
    requires forall k :: 0 <= k < |s.due| ==> s.clock - s.cycleAt < 1000 * (if s.due[k].intervalS == 0 then 60 else s.due[k].intervalS)
    ensures (forall j :: s.base <= j < |s.log| ==> SpacedAt(s.log, j)) <==> UniqueIds(s.due[..Started(s)])
  {
    hide Rested, Remembered;
    if UniqueIds(s.due[..Started(s)]) {
      forall j | s.base <= j < |s.log|
        ensures SpacedAt(s.log, j)
      {
        var now := s.due[..Started(s)];
        forall i | s.base <= i < j
          ensures s.log[i].check.id != s.log[j].check.id
        {
          assert now[i - s.base].id != now[j - s.base].id;
        }
        FirstInCycleRested(s, j);
      }
    } else {
      var now := s.due[..Started(s)];
      var a, b :| 0 <= a < b < |now| && now[a].id == now[b].id;
      assert s.log[s.base + a].check == now[a] && s.log[s.base + b].check == now[b];
      SecondInCycleTooSoon(s, s.base + a, s.base + b);
    }
  }

  lemma {:induction false} UniqueStays(s: Probe, n: nat, now: int)
    requires |s.queue| <= |s.due|
    ensures var s' := StartWorkers(s, n, now); s'.checks == s.checks && s'.due == s.due && s'.phase == s.phase
  {
    if n > 0 { UniqueStays(s, n - 1, now); }
  }

  lemma StepUnique(s: Probe, now: int, e: Event)
    requires Unique(s) && Enabled(s, now, e) && (e.ListComes? ==> UniqueIds(e.list))
    ensures Unique(Step(s, now, e))
  {
    hide StartWorkers, DueOf, UniqueIds;
    match e {
    case Tick =>
      DueAre(s.checks, s.lastRun, now);
      var s1 := Pooled(s.(clock := now), now);
      UniqueStays(s1, PoolSize(s.concurrency, |s1.queue|), now);
    case ListComes(list) =>
      DueAre(list, s.lastRun, now);
      var s1 := Pooled(s.(clock := now, checks := list, listAt := now), now);
      UniqueStays(s1, PoolSize(s.concurrency, |s1.queue|), now);
    case _ =>
    }
  }

  /** Starts already in the log stay as they are. */
  lemma SpacedPrefix(log: seq<Entry>, log': seq<Entry>)
    requires Spaced(log) && log <= log'
    requires forall j :: |log| <= j < |log'| ==> SpacedAt(log', j)
    ensures Spaced(log')
  {
    forall j | 0 <= j < |log|
      ensures SpacedAt(log', j)
    {
      assert log'[..j] == log[..j];
      assert SpacedAt(log, j);
    }
  }
}
