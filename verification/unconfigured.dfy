/**
 * What the poll before the flush is for: the prefix and the switch a tenant's lines
 * ship under. A poll that fails leaves both as they were, so a stream can be polled
 * first and still ship under the defaults.
 */
module Unconfigured {
  import opened Distinctness
  import opened Wrappers
  import opened StreamModel
  import opened StreamLaws
  import opened GatewayModel
  import opened GatewayLaws
  import opened TickLaws
  import opened TimingLaws
  import opened PollFairness
  import opened FirstPoll
  import opened ReachableRuns
  import CollectorTheorems

  /** The step is a poll of x answered with a configuration. */
  predicate Configures(g: Gateway, e: Event, x: nat) {
    e.PollReturns? && e.answer.PollOk? && g.tick.Polling? && g.tick.current == Some(x)
  }

  /** Some poll of x is answered with a configuration in the run. */
  ghost predicate ConfiguredIn(p: Params, g: Gateway, evs: seq<Timed>, x: nat)
    requires Legal(p, g, evs)
    decreases |evs|
  {
    evs != [] && (Configures(g, evs[0].1, x) || ConfiguredIn(p, Step(p, g, evs[0].0, evs[0].1), evs[1..], x))
  }

  lemma ArrivalBringsDefault(p: Params, g: Gateway, now: int, m: Message, x: nat)
    ensures var g' := OnMessage(p, g, now, m); |g.objs| <= x < |g'.objs| ==> g'.objs[x].cfg == Config("", true, 500)
  {
    hide Deliver, Admit, Attribution, Find;
    var who := Attribution(p, m);
    if m.raw != "" && who.Some? {
      var g1 := g.(handled := g.handled + 1);
      match Find(g.objs, g.live, who.value)
      case Some(sid) => DeliveryTouchesOne(p, g1, now, sid, who.value, m);
      case None => DeliveryTouchesOne(p, Create(g1, who.value), now, |g.objs|, who.value, m);
    }
  }

  /** A stream is made with the defaults. */
  lemma MadeDefault(p: Params, g0: Gateway, now: int, e: Event, x: nat)
    requires Enabled(p, g0, now, e) && |g0.objs| <= x < |Step(p, g0, now, e).objs|
    ensures Step(p, g0, now, e).objs[x].cfg == Config("", true, 500)
  {
    hide Select, StartAll, ReportAll, Ended, OnMessage;
    var g := g0.(clock := now);
    match e
    case Arrival(m) => ArrivalBringsDefault(p, g, now, m, x);
    case _ =>
  }

  /** Until a poll of its own is answered with a configuration, a stream keeps the defaults it was made with. */
  lemma {:induction false} DefaultUntilConfigured(p: Params, g: Gateway, evs: seq<Timed>, x: nat)
    requires Legal(p, g, evs) && !ConfiguredIn(p, g, evs, x) && x < |After(p, g, evs).objs|
    requires x < |g.objs| ==> g.objs[x].cfg == Config("", true, 500)
    ensures After(p, g, evs).objs[x].cfg == Config("", true, 500)
    decreases |evs|
  {
    if evs != [] {
      var (now, e) := evs[0];
      var g1 := Step(p, g, now, e);
      if x < |g.objs| {
        CollectorTheorems.OnlyOwnPollConfigures(p, g, now, e, x);
        OwnPollIs(p, g, now, e, x);
      } else if x < |g1.objs| {
        MadeDefault(p, g, now, e, x);
      }
      hide Step, Enabled, Configures;
      DefaultUntilConfigured(p, g1, evs[1..], x);
    }
  }

  lemma OwnPollIs(p: Params, g: Gateway, now: int, e: Event, x: nat)
    requires Enabled(p, g, now, e)
    ensures Configures(g, e, x) <==> e.PollReturns? && e.answer.PollOk? && g.tick.current == Some(x)
  {
  }

  /**
   * What a stream ships under before any configuration reached it, over every run of a gateway: no
   * prefix, the default batch, and the switch on.
   */
  lemma ShipsUnderDefaults(p: Params, t: int, evs: seq<Timed>, now: int, e: Event, k: nat)
    requires p.mode == GatewayMode && Legal(p, Boot(p, t, PollNotOk), evs)
    requires var g := After(p, Boot(p, t, PollNotOk), evs);
             Enabled(p, g, now, e) && |g.posts| <= k < |Step(p, g, now, e).posts|
    ensures var g := After(p, Boot(p, t, PollNotOk), evs);
            var q := Step(p, g, now, e).posts[k];
            !ConfiguredIn(p, Boot(p, t, PollNotOk), evs, q.sid) ==>
              q.sid < |g.objs| && q.prefix == "" && q.logs == Prefixed("", q.items) &&
              |q.items| <= 500 && g.objs[q.sid].cfg == Config("", true, 500)
  {
    var b := Boot(p, t, PollNotOk);
    assert b.objs == [];
    hide Legal, After, ConfiguredIn, Step, Enabled, Boot;
    var g := After(p, b, evs);
    PostsTakeFronts(p, g, now, e, k);
    var q := Step(p, g, now, e).posts[k];
    if !ConfiguredIn(p, b, evs, q.sid) { DefaultUntilConfigured(p, b, evs, q.sid); }
  }

  // ── one tick ──────────────────────────────────────────────────────────────

  /** The stream being polled is one of the tick's list, and so are those still to poll. */
  ghost predicate FromList(list: seq<nat>, g: Gateway) {
    g.tick.Polling? ==>
      (g.tick.current.Some? ==> g.tick.current.value in list) && forall id :: id in g.tick.pending ==> id in list
  }

  lemma FromListStep(p: Params, list: seq<nat>, g: Gateway, now: int, e: Event)
    requires FromList(list, g) && Enabled(p, g, now, e) && !e.TickStarts?
    ensures FromList(list, Step(p, g, now, e))
  {
    if Step(p, g, now, e).tick.Polling? {
      ListKept(p, g, now, e);
      hide Step, Enabled;
      SendsSomething(p, g, now, e);
    }
  }

  lemma {:induction false} ConfiguredFromList(p: Params, list: seq<nat>, g: Gateway, evs: seq<Timed>, x: nat)
    requires Legal(p, g, evs) && Ticks(evs) == 0 && FromList(list, g) && ConfiguredIn(p, g, evs, x)
    ensures x in list
    decreases |evs|
  {
    var (now, e) := evs[0];
    if !Configures(g, e, x) {
      FromListStep(p, list, g, now, e);
      hide Step, Enabled, FromList, Configures;
      ConfiguredFromList(p, list, Step(p, g, now, e), evs[1..], x);
    }
  }

  /** A tick brings a configuration to those it lists and to no other: due when it began, with fewer than sixteen due ones ahead. */
  lemma ConfiguredOnlyIfListed(p: Params, g: Gateway, now: int, evs: seq<Timed>, x: nat)
    requires Inv(p, g) && Enabled(p, g, now, TickStarts) && p.mode != TunnelMode
    requires var g1 := Step(p, g, now, TickStarts);
             Legal(p, g1, evs) && Ticks(evs) == 0 && ConfiguredIn(p, g1, evs, x)
    ensures InRange(g.live, g)
    ensures x in g.live && x < |g.objs| && (g.objs[x].polledAt == 0 || now - g.objs[x].polledAt >= p.pollMs)
    ensures |DueAhead(p, g, now, x)| < 16
  {
    hide Step, Enabled, Core, TickInv, Legal, DueAhead, TickStart, ConfiguredIn, FromList;
    LiveShape(p, g);
    StartIsStep(p, g, now);
    var g1 := Step(p, g, now, TickStarts);
    JustListed(p, g, now);
    ConfiguredFromList(p, g1.tick.pending, g1, evs, x);
    ListedDue(p, g, now, x);
    ListedExactly(p, g, now, x);
  }

  lemma JustListed(p: Params, g: Gateway, now: int)
    requires Enabled(p, g, now, TickStarts)
    ensures var g1 := Step(p, g, now, TickStarts); g1.tick.Polling? && FromList(g1.tick.pending, g1)
  {
    hide Select;
  }

  lemma ListedDue(p: Params, g: Gateway, now: int, x: nat)
    requires InRange(g.live, g) && Distinct(g.live) && p.mode != TunnelMode && x in TickStart(p, g, now).tick.pending
    ensures x in g.live && x < |g.objs| && (g.objs[x].polledAt == 0 || now - g.objs[x].polledAt >= p.pollMs)
  {
    hide Select;
    SelectFacts(p, g.objs, g.live, DueAt(now));
    var list := TickStart(p, g, now).tick.pending;
    var i :| 0 <= i < |list| && list[i] == x;
    assert list[i] in Select(p, g.objs, g.live, DueAt(now));
  }

  // ── a run that shows it ───────────────────────────────────────────────────

  predicate NoConfiguration(evs: seq<Timed>) {
    forall i :: 0 <= i < |evs| ==> !(evs[i].1.PollReturns? && evs[i].1.answer.PollOk?)
  }

  /** One more step of a run from boot in which no poll is answered with a configuration. */
  lemma Goes(p: Params, evs: seq<Timed>, g: Gateway, e: Event) returns (evs': seq<Timed>)
    requires Legal(p, Boot(p, 1, PollNotOk), evs) && After(p, Boot(p, 1, PollNotOk), evs) == g && NoConfiguration(evs)
    requires Enabled(p, g, 1, e) && !(e.PollReturns? && e.answer.PollOk?)
    ensures Legal(p, Boot(p, 1, PollNotOk), evs') && After(p, Boot(p, 1, PollNotOk), evs') == Step(p, g, 1, e)
    ensures NoConfiguration(evs')
  {
    hide Step, Enabled, Boot;
    RunOneMore(p, Boot(p, 1, PollNotOk), evs, 1, e);
    evs' := evs + [(1, e)];
  }

  /** A gateway's first tenant, listed and polled in its first tick, ships in that tick although no poll was ever answered. */
  lemma PolledShipsUnconfigured(p: Params)
    requires p.mode == GatewayMode
    ensures exists evs :: Legal(p, Boot(p, 1, PollNotOk), evs) && NoConfiguration(evs) &&
              var g := After(p, Boot(p, 1, PollNotOk), evs);
              |g.objs| == 1 && g.objs[0].polledAt != 0 && |g.posts| == 1 && g.posts[0].sid == 0 && g.posts[0].items != []
  {
    hide Legal, After, StartAll, ReportAll, FinishFlush, PollDone, TickGroup, SweepIdle, OnMessage, Select, Begun, PostOf;
    var b := Boot(p, 1, PollNotOk);
    assert Legal(p, b, []) && After(p, b, []) == b by { NoSteps(p, b); }
    FirstHello(p, 1);
    assert b.(clock := 1) == b;
    var e1 := Goes(p, [], b, Arrival(HELLO));
    var g1 := Step(p, b, 1, Arrival(HELLO));
    var evs, g := PolledAndRanked(p, e1, g1);
    var e6 := Goes(p, evs, g, TickPosts);
    GroupOfOne(p, g.(clock := 1), 1, 0);
    OneOut(p, g.objs[0]);
  }

  lemma NoSteps(p: Params, g: Gateway)
    ensures Legal(p, g, []) && After(p, g, []) == g
  {
  }

  lemma OneOut(p: Params, s: Stream)
    requires s.queue != [] && s.cfg == DEFAULT_CFG
    ensures PostOf(p, s, 0, 1, true).items != [] && PostOf(p, s, 0, 1, true).sid == 0
    ensures Begun(s).polledAt == s.polledAt
  {
  }

  lemma PolledAndRanked(p: Params, evs: seq<Timed>, g: Gateway) returns (evs': seq<Timed>, g': Gateway)
    requires p.mode == GatewayMode
    requires Legal(p, Boot(p, 1, PollNotOk), evs) && After(p, Boot(p, 1, PollNotOk), evs) == g && NoConfiguration(evs)
    requires !g.exited && g.clock == 1 && g.tick == Idle && g.live == [0] && |g.objs| == 1
    requires g.objs[0].polledAt == 0 && IsReady(g.objs[0], 1)
    ensures Legal(p, Boot(p, 1, PollNotOk), evs') && After(p, Boot(p, 1, PollNotOk), evs') == g' && NoConfiguration(evs')
    ensures g' == g.(objs := [g.objs[0].(polledAt := 1)], tick := Shipping(1, [0], {}))
  {
    hide Legal, After, Boot, NoConfiguration, StartAll, ReportAll, FinishFlush, TickGroup, SweepIdle, OnMessage, Select;
    PickOne(p, g.objs, 0, DueAt(1));
    var e2 := Goes(p, evs, g, TickStarts);
    var g2 := Step(p, g, 1, TickStarts);
    assert g2.tick == Polling(1, [0], None) && [0][1..] == [];
    var e3 := Goes(p, e2, g2, PollSends);
    var g3 := Step(p, g2, 1, PollSends);
    var e4 := Goes(p, e3, g3, PollReturns(PollNotOk));
    var g4 := Step(p, g3, 1, PollReturns(PollNotOk));
    PickOne(p, g4.objs, 0, ReadyAt(1));
    evs' := Goes(p, e4, g4, TickRanks);
    g' := Step(p, g4, 1, TickRanks);
  }
}
