/**
 * "The poll happens before the flush": which streams a tick ships although they
 * have never been polled. Exactly those made while the tick was polling, and
 * those with sixteen due streams ahead of them.
 */
module FirstPoll {
  import opened Distinctness
  import opened Wrappers
  import opened StreamModel
  import opened StreamLaws
  import opened GatewayModel
  import opened GatewayLaws
  import opened TickLaws
  import opened TimingLaws
  import opened PollFairness
  import opened ReachableRuns

  /** The due streams ahead of x in the map. */
  function DueAhead(p: Params, g: Gateway, t: int, x: nat): set<nat> {
    set y | y in Ahead(g.live, x) && y < |g.objs| && (g.objs[y].polledAt == 0 || t - g.objs[y].polledAt >= p.pollMs)
  }

  lemma DueAheadSize(p: Params, g: Gateway, t: int, x: nat)
    requires InRange(g.live, g) && Distinct(g.live) && x in g.live
    ensures forall i :: 0 <= i < |Ahead(g.live, x)| ==> Ahead(g.live, x)[i] < |g.objs|
    ensures |Select(p, g.objs, Ahead(g.live, x), DueAt(t))| == |DueAhead(p, g, t, x)|
  {
    hide Select, Ahead;
    AheadFits(g, x);
    AheadDistinct(g.live, x);
    SelectFacts(p, g.objs, Ahead(g.live, x), DueAt(t));
    var due := Select(p, g.objs, Ahead(g.live, x), DueAt(t));
    DistinctSize(due);
    assert Elements(due) == DueAhead(p, g, t, x);
  }

  lemma AheadFits(g: Gateway, x: nat)
    requires InRange(g.live, g)
    ensures forall i :: 0 <= i < |Ahead(g.live, x)| ==> Ahead(g.live, x)[i] < |g.objs|
  {
    forall i | 0 <= i < |Ahead(g.live, x)|
      ensures Ahead(g.live, x)[i] < |g.objs|
    {
      assert Ahead(g.live, x)[i] in g.live;
    }
  }

  lemma LiveShape(p: Params, g: Gateway)
    requires Inv(p, g)
    ensures InRange(g.live, g) && Distinct(g.live)
  {
    hide Streams, Posts, Retired, Balance, TickInv;
  }

  /** A due stream is on the tick's list exactly when fewer than sixteen due ones stand ahead of it. */
  lemma ListedExactly(p: Params, g: Gateway, now: int, x: nat)
    requires InRange(g.live, g) && Distinct(g.live) && p.mode != TunnelMode
    requires x in g.live && x < |g.objs| && (g.objs[x].polledAt == 0 || now - g.objs[x].polledAt >= p.pollMs)
    ensures x in TickStart(p, g, now).tick.pending <==> |DueAhead(p, g, now, x)| < 16
  {
    hide Select, Ahead, DueAhead;
    DueAheadSize(p, g, now, x);
    var due, ahead := Select(p, g.objs, g.live, DueAt(now)), Select(p, g.objs, Ahead(g.live, x), DueAt(now));
    SelectFacts(p, g.objs, g.live, DueAt(now));
    DueCut(p, g.objs, g.live, now, x);
    var k := |ahead|;
    assert (ahead + [x])[k] == x && due[k] == x;
    var listed := First(16, due);
    if x in listed {
      var i :| 0 <= i < |listed| && listed[i] == x;
      assert due[i] == due[k];
    }
    assert k < 16 ==> listed[k] == x;
  }

  // ── who is polled while a tick polls ──────────────────────────────────────

  /** Only a poll's request stamps a stream, and a stream is made without a stamp. */
  lemma PolledExactly(p: Params, g0: Gateway, now: int, e: Event, y: nat)
    requires Enabled(p, g0, now, e)
    ensures var g' := Step(p, g0, now, e);
            && |g0.objs| <= |g'.objs|
            && (y < |g0.objs| ==>
                  g'.objs[y].polledAt == if e.PollSends? && g0.tick.pending[0] == y then now else g0.objs[y].polledAt)
            && (|g0.objs| <= y < |g'.objs| ==> g'.objs[y].polledAt == 0)
  {
    hide Select, StartAll, OnMessage, ReportAll, Ended, Begun;
    var g := g0.(clock := now);
    match e {
    case Arrival(m) => ArrivalStamps(p, g, now, m, y);
    case DropsReported => if y < |g.objs| { ReportAllPolled(p, g, g.live, y); }
    case TickPosts =>
      var group := First(POSTS_AT_ONCE, g.tick.rest);
      StartAllFacts(p, g.(tick := g.tick.(rest := g.tick.rest[|group|..])), now, group, true);
      if y < |g.objs| { BegunPolled(g.objs[y]); }
    case Signalled =>
      StartAllFacts(p, g, now, g.live, false);
      if y < |g.objs| { BegunPolled(g.objs[y]); }
    case PostReturns(sid, reply) => EndPolled(p, g.objs[sid], reply, now);
    case _ =>
    }
  }

  lemma BegunPolled(s: Stream)
    ensures Begun(s).polledAt == s.polledAt
  {
  }

  lemma ArrivalStamps(p: Params, g: Gateway, now: int, m: Message, y: nat)
    ensures var g' := OnMessage(p, g, now, m);
            && |g.objs| <= |g'.objs|
            && (y < |g'.objs| ==> g'.objs[y].polledAt == if y < |g.objs| then g.objs[y].polledAt else 0)
  {
    hide Attribution, Deliver, Admit;
    var who := Attribution(p, m);
    if m.raw != "" && who.Some? {
      var g1 := g.(handled := g.handled + 1);
      match Find(g.objs, g.live, who.value)
      case Some(sid) => DeliveryTouchesOne(p, g1, now, sid, who.value, m);
      case None => DeliveryTouchesOne(p, Create(g1, who.value), now, |g.objs|, who.value, m);
    }
  }

  /** Nothing but the start of a tick begins polling, and nothing in between touches the tick's list but its polls. */
  lemma ListKept(p: Params, g0: Gateway, now: int, e: Event)
    requires Enabled(p, g0, now, e) && !e.TickStarts? && Step(p, g0, now, e).tick.Polling?
    ensures g0.tick.Polling?
    ensures Step(p, g0, now, e).tick.pending == if e.PollSends? then g0.tick.pending[1..] else g0.tick.pending
    ensures Step(p, g0, now, e).tick.current ==
            if e.PollSends? then Some(g0.tick.pending[0]) else if e.PollReturns? then None else g0.tick.current
  {
    hide Select, StartAll, OnMessage, ReportAll, Ended, KeyRefused;
    var g := g0.(clock := now);
    match e {
    case Arrival(m) => ArrivalTiming(p, g, now, m);
    case DropsReported => ReportAllTiming(p, g, g.live);
    case Signalled => StartAllTickKept(p, g, now, g.live);
    case PollReturns(reply) => RefusalKeepsTick(p, g.(tick := g.tick.(current := None)), now, g.tick.current.value);
    case TickPosts =>
      var group := First(POSTS_AT_ONCE, g.tick.rest);
      StartAllWaiting(p, g.(tick := g.tick.(rest := g.tick.rest[|group|..])), now, group);
    case _ =>
    }
  }

  lemma RefusalKeepsTick(p: Params, g: Gateway, now: int, sid: nat)
    requires sid < |g.objs|
    ensures KeyRefused(p, g, now, sid).tick == g.tick
  {
  }

  /** While a tick polls: who has never been polled, and who is in the map. */
  ghost predicate Polled(g: Gateway, list: seq<nat>, g': Gateway) {
    && g'.tick.Polling? && |g'.tick.pending| <= |list|
    && g'.tick.pending == list[|list| - |g'.tick.pending|..] && InRange(list, g)
    && |g.objs| <= |g'.objs| && 0 < g'.clock
    && (forall y :: 0 <= y < |g'.objs| ==>
          (g'.objs[y].polledAt == 0 <==>
             y >= |g.objs| || (g.objs[y].polledAt == 0 && y !in list[..|list| - |g'.tick.pending|])))
    && (forall id :: id in g'.live ==> id in g.live || id >= |g.objs|)
  }

  lemma SendsSomething(p: Params, g: Gateway, now: int, e: Event)
    requires Enabled(p, g, now, e)
    ensures e.PollSends? ==> g.tick.Polling? && g.tick.pending != []
  {
  }

  lemma PolledStep(p: Params, g: Gateway, list: seq<nat>, g0: Gateway, now: int, e: Event)
    requires Polled(g, list, g0) && Inv(p, g0) && Enabled(p, g0, now, e) && !e.TickStarts?
    requires Step(p, g0, now, e).tick.Polling?
    ensures Polled(g, list, Step(p, g0, now, e))
  {
    hide Step, Enabled, Inv, Core;
    ListKept(p, g0, now, e);
    ClockIsNow(p, g0, now, e);
    InvCore(p, g0);
    var g' := Step(p, g0, now, e);
    forall id | id in g'.live
      ensures id in g.live || id >= |g.objs|
    {
      NoneComesBack(p, g0, now, e, id);
    }
    PolledExactly(p, g0, now, e, 0);
    SendsSomething(p, g0, now, e);
    var k := |list| - |g0.tick.pending|;
    if e.PollSends? {
      assert g0.tick.pending[0] == list[k] && g'.tick.pending == list[k + 1..];
      assert list[..k + 1] == list[..k] + [g0.tick.pending[0]];
    }
    assert 0 < now && |list| - |g'.tick.pending| == if e.PollSends? then k + 1 else k;
    forall y | 0 <= y < |g'.objs|
      ensures g'.objs[y].polledAt == 0 <==>
              y >= |g.objs| || (g.objs[y].polledAt == 0 && y !in list[..|list| - |g'.tick.pending|])
    {
      PolledExactly(p, g0, now, e, y);
    }
  }

  /** A tick that is over stays over until the next one starts. */
  lemma {:induction false} StaysOver(p: Params, g: Gateway, evs: seq<Timed>)
    requires Legal(p, g, evs) && Ticks(evs) == 0 && !g.tick.Polling?
    ensures !After(p, g, evs).tick.Polling?
    decreases |evs|
  {
    if evs != [] {
      var (now, e) := evs[0];
      if Step(p, g, now, e).tick.Polling? { ListKept(p, g, now, e); }
      hide Step, Enabled;
      StaysOver(p, Step(p, g, now, e), evs[1..]);
    }
  }

  lemma {:induction false} PolledRun(p: Params, g: Gateway, list: seq<nat>, g1: Gateway, evs: seq<Timed>)
    requires Polled(g, list, g1) && Inv(p, g1) && Legal(p, g1, evs) && Ticks(evs) == 0
    requires After(p, g1, evs).tick.Polling?
    ensures Polled(g, list, After(p, g1, evs))
    decreases |evs|
  {
    if evs != [] {
      var (now, e) := evs[0];
      var g2 := Step(p, g1, now, e);
      CoreStep(p, g1, now, e);
      TickStep(p, g1, now, e);
      if g2.tick.Polling? { PolledStep(p, g, list, g1, now, e); }
      hide Step, Enabled, Core, TickInv, Polled;
      if !g2.tick.Polling? { StaysOver(p, g2, evs[1..]); }
      PolledRun(p, g, list, g2, evs[1..]);
    }
  }

  lemma JustStarted(p: Params, g: Gateway, now: int)
    requires Inv(p, g) && Enabled(p, g, now, TickStarts) && 0 < now
    ensures var g1 := Step(p, g, now, TickStarts); Polled(g, g1.tick.pending, g1)
  {
    hide StreamInv, PostSound, Select;
    var list := Step(p, g, now, TickStarts).tick.pending;
    SelectFacts(p, g.objs, g.live, DueAt(now));
    assert p.mode != TunnelMode ==> forall i :: 0 <= i < |list| ==> list[i] in Select(p, g.objs, g.live, DueAt(now));
    assert list[0..] == list && list[..0] == [];
  }

  /**
   * When a tick has done its polls and is about to choose what to ship, a stream in the map has never
   * been polled exactly when it was made since the tick began, or had not been polled by then and at
   * least sixteen due streams stood ahead of it.
   */
  lemma NeverPolledExactly(p: Params, g: Gateway, now: int, evs: seq<Timed>, x: nat)
    requires Inv(p, g) && Enabled(p, g, now, TickStarts) && 0 < now && p.mode != TunnelMode
    requires var g1 := Step(p, g, now, TickStarts);
             && Legal(p, g1, evs) && Ticks(evs) == 0
             && var g' := After(p, g1, evs);
                g'.tick.Polling? && g'.tick.pending == [] && g'.tick.current == None && x in g'.live && x < |g'.objs|
    ensures InRange(g.live, g)
    ensures After(p, Step(p, g, now, TickStarts), evs).objs[x].polledAt == 0 <==>
            x >= |g.objs| || (g.objs[x].polledAt == 0 && |DueAhead(p, g, now, x)| >= 16)
  {
    hide Step, Enabled, Core, TickInv, Legal, After, DueAhead, TickStart;
    LiveShape(p, g);
    CoreStep(p, g, now, TickStarts);
    TickStep(p, g, now, TickStarts);
    JustStarted(p, g, now);
    var g1 := Step(p, g, now, TickStarts);
    var list := g1.tick.pending;
    StartIsStep(p, g, now);
    PolledRun(p, g, list, g1, evs);
    var g' := After(p, g1, evs);
    assert list[..|list| - 0] == list;
    if x < |g.objs| && g.objs[x].polledAt == 0 {
      ListedExactly(p, g, now, x);
    }
  }

  lemma StartIsStep(p: Params, g: Gateway, now: int)
    requires Enabled(p, g, now, TickStarts)
    ensures Step(p, g, now, TickStarts).tick == TickStart(p, g, now).tick
  {
  }

  /** While the first tenant is polled a second one is heard for the first time, and the same tick posts for both. */
  lemma ShipsBeforeFirstPoll(p: Params)
    requires p.mode == GatewayMode && p.maxTenants >= 2
    ensures exists g :: Reachable(p, g) && |g.posts| == 2 && g.posts[1].sid < |g.objs| &&
                        g.posts[1].items != [] && g.posts[1].byTick && g.objs[g.posts[1].sid].polledAt == 0
  {
    hide Reachable, Attribution, StartAll, ReportAll, FinishFlush, PollDone, TickGroup, SweepIdle, OnMessage, Select;
    BothAreHeard(p);
    ReachBoot(p, 1, PollNotOk);
    var g1 := OneMoreTenant(p, Boot(p, 1, PollNotOk), 1, TOKEN_A);
    assert g1.live == [0];
    PickOne(p, g1.objs, 0, DueAt(1));
    ReachStep(p, g1, 1, TickStarts);
    var g2 := Step(p, g1, 1, TickStarts);
    assert g2.tick == Polling(1, [0], None);
    ReachStep(p, g2, 1, PollSends);
    var g3 := Step(p, g2, 1, PollSends);
    assert [0][1..] == [];
    var g4 := OneMoreTenant(p, g3, 1, TOKEN_B);
    var g5 := TwoRanked(p, 1, g4, 0);
    var g6 := TwoPosted(p, 1, g5);
    assert g6.posts[1] == PostOf(p, g5.objs[1], 1, 1, true);
  }
}
