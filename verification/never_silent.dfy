/**
 * "Never lose a line silently", as a whole. While the process runs, what it holds
 * and what it counts will be told; once it has ended, only what was shipped, or
 * told in a report that was shipped, or told to the operator was not lost. When
 * that holds of a run, exactly, and the runs in which the end of the process
 * takes lines with it.
 */
module NeverSilent {
  import opened Distinctness
  import opened Wrappers
  import opened StreamModel
  import opened StreamLaws
  import opened GatewayModel
  import opened GatewayLaws
  import opened TickLaws
  import opened ReachableRuns
  import opened SilentLosses
  import opened QueueBound

  /** What a stream of a running process still holds, and will still tell. */
  function Pending(s: Stream, live: bool): nat {
    |s.queue| + |s.batch| + ReportedDrops(s.batch) + ReportedDrops(s.queue) + (if live then s.dropped else 0)
  }

  /** Lines of a stream that are gone without a word: not shipped, not told in a shipped report, not cleared by a refusal, and not pending. */
  function Silent(s: Stream, live: bool, running: bool): int {
    s.received - s.shipped - |s.cleared| - ReportedDrops(s.acked) - (if running then Pending(s, live) else 0)
  }

  /** The process's own counters, as they are told to the operator. */
  predicate CountersTold(g: Gateway) {
    g.unattributed == 0 && g.refusedTenants == 0 && g.badKeyDrops == 0
  }

  /** Nothing a device sent has gone without anybody being told, or about to be. */
  predicate NothingSilent(g: Gateway) {
    && (forall i :: 0 <= i < |g.objs| ==> Silent(g.objs[i], i in g.live, !g.exited) == 0)
    && (g.exited ==> CountersTold(g))
  }

  lemma SilentIs(s: Stream, live: bool, running: bool)
    requires Conserved(s) && Counted(s)
    ensures Silent(s, live, running) ==
            |s.lost| + Untold(s) + (if running then (if live then 0 else s.dropped) else Pending(s, true))
  {
    CountersBalance(s);
    DropsBalance(s);
  }

  // ── the end of the process ────────────────────────────────────────────────

  predicate Empty(s: Stream) { s.queue == [] && s.batch == [] && s.dropped == 0 }

  /** No stream of the map holds a line or has a drop to report, and the operator has been told every count. */
  predicate LeavesNothing(g: Gateway) {
    && (forall i :: 0 <= i < |g.objs| && i in g.live ==> Empty(g.objs[i]))
    && CountersTold(g)
  }

  lemma FatalKeeps(p: Params, s: Stream, reply: Reply, now: int)
    requires Fatal(p.mode, reply)
    ensures Empty(Ended(p, s, reply, now)) <==> Empty(s)
    ensures !KeyRefusal(p.mode, reply)
  {
  }

  /** What a step that ends the process leaves behind is what it found, counted or not. */
  lemma ExitLeaves(p: Params, g: Gateway, now: int, e: Event)
    requires Enabled(p, g, now, e) && Exits(p.mode, e)
    ensures LeavesNothing(Step(p, g, now, e)) <==> LeavesNothing(g)
  {
    hide Empty, Ended;
    match e
    case PostReturns(sid, reply) => FatalKeeps(p, g.objs[sid], reply, now);
    case _ =>
  }

  /** If the process ends in the run, it does so with nothing left. */
  ghost predicate EndsClean(p: Params, g: Gateway, evs: seq<Timed>)
    requires Legal(p, g, evs)
    decreases |evs|
  {
    evs == [] ||
    ((Exits(p.mode, evs[0].1) ==> LeavesNothing(g)) && EndsClean(p, Step(p, g, evs[0].0, evs[0].1), evs[1..]))
  }

  lemma OverWhenExited(p: Params, g: Gateway, evs: seq<Timed>)
    requires Legal(p, g, evs) && g.exited
    ensures evs == []
  {
  }

  lemma {:induction false} CleanRun(p: Params, g: Gateway, evs: seq<Timed>)
    requires Legal(p, g, evs) && (g.exited ==> LeavesNothing(g))
    ensures (After(p, g, evs).exited ==> LeavesNothing(After(p, g, evs))) <==> EndsClean(p, g, evs)
    decreases |evs|
  {
    if evs != [] {
      var (now, e) := evs[0];
      var g1 := Step(p, g, now, e);
      ExitsExactly(p, g, now, e);
      hide Step, Enabled, LeavesNothing, Exits;
      if Exits(p.mode, e) {
        ExitLeaves(p, g, now, e);
        OverWhenExited(p, g1, evs[1..]);
      } else {
        CleanRun(p, g1, evs[1..]);
      }
    }
  }

  // ── the rule ──────────────────────────────────────────────────────────────

  lemma {:induction false} NoneLost(objs: seq<Stream>)
    ensures AllLost(objs) == 0 <==> forall i :: 0 <= i < |objs| ==> objs[i].lost == []
  {
    if objs != [] {
      NoneLost(objs[..|objs|-1]);
      assert objs == objs[..|objs|-1] + [objs[|objs|-1]];
    }
  }

  /** One stream, in a process that runs and in one that has ended. */
  lemma StreamSilent(p: Params, g: Gateway, i: nat)
    requires Frame(p, g) && i < |g.objs|
    ensures var s := g.objs[i];
            Silent(s, i in g.live, !g.exited) == 0 <==>
            s.lost == [] && Untold(s) == 0 && (i !in g.live ==> s.dropped == 0) && (g.exited && i in g.live ==> Empty(s))
  {
    hide StreamInv, Silent, Untold, Conserved, Counted, Posts, Shape;
    var s := g.objs[i];
    HeldOf(p, g, i);
    StreamBalances(p, s, g.nextId) by { StreamKept(p, g, i); }
    SilentIs(s, i in g.live, !g.exited);
    PendingIs(s);
  }

  lemma StreamBalances(p: Params, s: Stream, next: nat)
    requires StreamInv(p, s, next)
    ensures Conserved(s) && Counted(s)
  {
  }

  lemma PendingIs(s: Stream)
    ensures Pending(s, true) == 0 <==> Empty(s)
  {
  }

  lemma SilentNever(p: Params, g: Gateway)
    requires Frame(p, g)
    ensures NothingSilent(g) <==> AllTold(g) && AllLost(g.objs) == 0 && (g.exited ==> LeavesNothing(g))
  {
    hide Silent, Untold, AllLost, Frame, Empty;
    NoneLost(g.objs);
    forall i | 0 <= i < |g.objs|
      ensures Silent(g.objs[i], i in g.live, !g.exited) == 0 <==>
              g.objs[i].lost == [] && Untold(g.objs[i]) == 0 && (i !in g.live ==> g.objs[i].dropped == 0) &&
              (g.exited && i in g.live ==> Empty(g.objs[i]))
    {
      StreamSilent(p, g, i);
    }
  }

  lemma CleanAtBoot(p: Params, t: int, boot: PollReply)
    ensures LeavesNothing(Boot(p, t, boot))
  {
  }

  /**
   * "Never lose a line silently", exactly: over every run it holds if and only if no POST threw with
   * lines in hand, no step took a report with it, no sweep took a stream with a drop to report, and
   * the process, if it ended, ended with nothing held and nothing left to tell.
   */
  lemma NeverSilentExactly(p: Params, t: int, boot: PollReply, evs: seq<Timed>)
    requires Legal(p, Boot(p, t, boot), evs)
    ensures NothingSilent(After(p, Boot(p, t, boot), evs)) <==>
            && Thrown(p, Boot(p, t, boot), evs) == 0
            && TidyRun(p, Boot(p, t, boot), evs)
            && EndsClean(p, Boot(p, t, boot), evs)
  {
    hide Frame, Legal, After, Boot, TickInv, Balance, AllLost, AllTold, NothingSilent, LeavesNothing;
    BootInv(p, t, boot);
    RunInv(p, Boot(p, t, boot), evs);
    ThrownRun(p, Boot(p, t, boot), evs);
    NothingLostAtBoot(p, t, boot);
    DropsToldExactlyWhenTidy(p, Boot(p, t, boot), evs);
    CleanAtBoot(p, t, boot);
    CleanRun(p, Boot(p, t, boot), evs);
    SilentNever(p, After(p, Boot(p, t, boot), evs));
  }

  // ── what a shutdown waits for ─────────────────────────────────────────────

  predicate AnsweredIn(evs: seq<Timed>, x: nat) {
    evs != [] && ((evs[0].1.PostReturns? && evs[0].1.sid == x) || AnsweredIn(evs[1..], x))
  }

  predicate SignalledIn(evs: seq<Timed>) {
    evs != [] && (evs[0].1.Signalled? || SignalledIn(evs[1..]))
  }

  lemma PassesStep(p: Params, g0: Gateway, now: int, e: Event)
    requires Enabled(p, g0, now, e) && !e.Signalled?
    ensures Step(p, g0, now, e).passes == if e.PostReturns? then Answered(g0.passes, e.sid) else g0.passes
  {
    hide Select, StartAll, ReportAll, Ended, OnMessage;
    var g := g0.(clock := now);
    match e
    case Arrival(m) => ArrivalTiming(p, g, now, m);
    case DropsReported => ReportAllTiming(p, g, g.live);
    case TickPosts =>
      var group := First(POSTS_AT_ONCE, g.tick.rest);
      StartAllFacts(p, g.(tick := g.tick.(rest := g.tick.rest[|group|..])), now, group, true);
    case _ =>
  }

  lemma {:induction false} PassWaits(p: Params, g: Gateway, evs: seq<Timed>, x: nat)
    requires Legal(p, g, evs) && |g.passes| == 1 && x in g.passes[0] && !SignalledIn(evs) && !AnsweredIn(evs, x)
    ensures var g' := After(p, g, evs); |g'.passes| == 1 && x in g'.passes[0]
    decreases |evs|
  {
    if evs != [] {
      var (now, e) := evs[0];
      PassesStep(p, g, now, e);
      hide Step, Enabled;
      PassWaits(p, Step(p, g, now, e), evs[1..], x);
    }
  }

  /** A shutdown's one pass posts for every stream that could ship, and the process ends by it only when each of those POSTs was answered. */
  lemma ShutdownWaits(p: Params, g: Gateway, now: int, evs: seq<Timed>, end: int, x: nat)
    requires Enabled(p, g, now, Signalled) && !g.Draining() && x in g.live && x < |g.objs|
    requires g.objs[x].queue != [] && !g.objs[x].flushing && g.objs[x].cfg.enabled
    requires var g1 := Step(p, g, now, Signalled);
             Legal(p, g1, evs) && !SignalledIn(evs) && Enabled(p, After(p, g1, evs), end, PassEnds)
    ensures x < |Step(p, g, now, Signalled).objs| && Step(p, g, now, Signalled).objs[x].flushing
    ensures AnsweredIn(evs, x)
  {
    hide Legal, After, StartAll, Begun, SignalledIn, AnsweredIn;
    BegunFlushes(g.objs[x]);
    var g1 := Step(p, g, now, Signalled);
    StartAllExactly(p, g.(clock := now), now, g.live, false, x);
    StartAllFacts(p, g.(clock := now), now, g.live, false);
    assert g1.passes == [CanShip(g.objs, g.live)] && x in g1.passes[0];
    if !AnsweredIn(evs, x) {
      PassWaits(p, g1, evs, x);
    }
  }

  // ── runs that end with lines in memory ────────────────────────────────────

  /** The answer by which each mode learns that its own key, or its peer, is not known. */
  function Unknown(mode: Mode): Reply { if mode == TunnelMode then Status(404) else Status(401) }

  lemma RefusedWhileFull(p: Params, s: Stream, now: int)
    requires p.mode != GatewayMode && OnlyReceived(p, s)
    ensures Fatal(p.mode, Unknown(p.mode))
    ensures Ended(p, s, Unknown(p.mode), now) == s.(dropped := 1, discarded := [Hello(0, p)], batch := [])
    ensures Untold(Ended(p, s, Unknown(p.mode), now)) == 0
  {
    OneMessage(Hello(0, p));
  }

  lemma OneMessage(m: Item)
    requires m.entry.line.Text?
    ensures ReportedDrops([m]) == 0 && ReportedDrops([]) == 0
  {
    assert [m][..0] == [];
  }

  /**
   * A collector or a tunnel gateway that is told its key, or one peer, is not known: the process ends,
   * and the whole queue, of every tenant, ends with it, and so does the drop just counted. No POST
   * threw and no report was dropped.
   */
  lemma ExitLosesTheQueue(p: Params)
    requires p.mode != GatewayMode
    ensures exists g :: Reachable(p, g) && g.exited && |g.objs| == 1 && |g.objs[0].queue| == p.maxQueue &&
                        g.objs[0].dropped == 1 && AllLost(g.objs) == 0 && AllTold(g) && !NothingSilent(g)
  {
    hide Reachable, StartAll, ReportAll, OnMessage, PollDone, TickGroup, SweepIdle, Select, Ended, OnlyReceived, Untold,
         NothingSilent;
    var g := OneLineReady(p, 1);
    FirstLineOut(p, g.objs[0]);
    var g1 := OneLinePosted(p, g, 1);
    var g2 := QueueFills(p, g1, p.maxQueue);
    RefusedWhileFull(p, g2.objs[0], 1);
    LostNothing(p, g2.objs[0]);
    ReachStep(p, g2, 1, PostReturns(0, Unknown(p.mode)));
    var g3 := Step(p, g2, 1, PostReturns(0, Unknown(p.mode)));
    NotSilentAtEnd(p, g3);
  }

  /** A process that has ended with a line queued, whatever else it did well. */
  lemma NotSilentAtEnd(p: Params, g: Gateway)
    requires Reachable(p, g) && g.exited && g.live == [0] && |g.objs| == 1
    requires g.objs[0].queue != [] && g.objs[0].lost == [] && Untold(g.objs[0]) == 0
    ensures AllLost(g.objs) == 0 && AllTold(g) && !NothingSilent(g)
  {
    hide Reachable, Inv, Untold, NothingSilent;
    assert g.objs[..0] == [];
    ReachableInv(p, g);
    assert Frame(p, g) by { InvFrame(p, g); }
    SilentNever(p, g);
  }

  lemma InvFrame(p: Params, g: Gateway)
    requires Inv(p, g)
    ensures Frame(p, g)
  {
    hide Frame, Balance, TickInv;
  }

  /** The first line sent and put back. */
  lemma PutBackOnce(p: Params, s: Stream)
    requires s == Enqueued(p.maxQueue, NewStream(Speaker(p)).(polledAt := s.polledAt), Hello(0, p))
    ensures var s' := Ended(p, Begun(s), Status(500), 1);
            |s'.queue| == 1 && s'.lost == [] && Untold(s') == 0 && CanFlush(s) && Begun(s).flushing
  {
    OneMessage(Hello(0, p));
  }

  lemma LostNothing(p: Params, s: Stream)
    requires OnlyReceived(p, s)
    ensures s.lost == [] && s.flushing
  {
  }

  lemma FirstLineOut(p: Params, s: Stream)
    requires s == Enqueued(p.maxQueue, OnlyStream(p, 1), Hello(0, p))
    ensures OnlyReceived(p, Begun(s)) && Begun(s).queue == [] && CanFlush(s)
  {
  }

  /** In any mode: a shutdown makes one pass, and a line the server could not take in it is gone. */
  lemma ShutdownLosesALine(p: Params)
    ensures exists g :: Reachable(p, g) && g.exited && |g.objs| == 1 && |g.objs[0].queue| == 1 &&
                        AllLost(g.objs) == 0 && AllTold(g) && !NothingSilent(g)
  {
    hide Reachable, ReportAll, OnMessage, PollDone, TickGroup, SweepIdle, Select, NothingSilent, Shutdown, Ended, Untold, Begun;
    ReachBoot(p, 1, PollNotOk);
    FirstHello(p, 1);
    var g0 := Boot(p, 1, PollNotOk);
    ReachStep(p, g0, 1, Arrival(HELLO));
    assert g0.(clock := 1) == g0;
    var g1 := Step(p, g0, 1, Arrival(HELLO));
    PutBackOnce(p, g1.objs[0]);
    var g2 := PassMade(p, g1);
    ReachStep(p, g2, 1, PostReturns(0, Status(500)));
    var g3 := Step(p, g2, 1, PostReturns(0, Status(500)));
    assert g3.passes[0] == {};
    ReachStep(p, g3, 1, PassEnds);
    var g4 := Step(p, g3, 1, PassEnds);
    NotSilentAtEnd(p, g4);
  }

  lemma PassMade(p: Params, g: Gateway) returns (g': Gateway)
    requires Reachable(p, g) && !g.exited && g.clock == 1 && g.tick == Idle && g.passes == []
    requires g.live == [0] && |g.objs| == 1 && CanFlush(g.objs[0])
    ensures Reachable(p, g') && g' == g.(objs := [Begun(g.objs[0])], posts := g'.posts, passes := [{0}])
  {
    hide Reachable, Begun;
    ReachStep(p, g, 1, Signalled);
    g' := Step(p, g, 1, Signalled);
    StartOne(p, g.(clock := 1), 1, 0, false);
    assert CanShip(g.objs, g.live) == {0};
  }
}
