/**
 * What one tick ships: every stream that was ready when the tick ranked them gets
 * one POST, in groups of eight. "One tenant's slow POST must not hold up the rest":
 * it does, because a group waits for its slowest and nothing else ships meanwhile.
 */
module TickShipping {
  import opened Distinctness
  import opened Wrappers
  import opened StreamModel
  import opened StreamLaws
  import opened GatewayModel
  import opened GatewayLaws
  import opened TickLaws
  import opened TimingLaws
  import opened PollFairness
  import opened ReachableRuns

  /** How many of the requests are stream x's. */
  function CountOf(posts: seq<Post>, x: nat): nat {
    if posts == [] then 0
    else CountOf(posts[..|posts|-1], x) + (if posts[|posts|-1].sid == x then 1 else 0)
  }

  lemma {:induction false} CountJoins(a: seq<Post>, b: seq<Post>, x: nat)
    ensures CountOf(a + b, x) == CountOf(a, x) + CountOf(b, x)
  {
    if b == [] {
      assert a + b == a;
    } else {
      assert (a + b)[..|a + b|-1] == a + b[..|b|-1];
      CountJoins(a, b[..|b|-1], x);
    }
  }

  /** A pass of `flush` over different streams makes one POST of each that could ship, and no other. */
  lemma {:induction false} PassCounts(p: Params, g: Gateway, now: int, ids: seq<nat>, x: nat)
    requires InRange(ids, g) && Distinct(ids)
    ensures var g' := StartAll(p, g, now, ids, true);
            && g.posts <= g'.posts
            && CountOf(g'.posts, x) ==
               CountOf(g.posts, x) + (if x in ids && x < |g.objs| && CanFlush(g.objs[x]) then 1 else 0)
  {
    hide StartFlush, PostOf, CanFlush;
    if ids != [] {
      var n, last := |ids| - 1, ids[|ids| - 1];
      var before := StartAll(p, g, now, ids[..n], true);
      assert ids == ids[..n] + [last];
      PassCounts(p, g, now, ids[..n], x);
      StartAllExactly(p, g, now, ids[..n], true, last);
      OneFlushPosts(p, before, now, last, true);
      var q := PostOf(p, before.objs[last], last, now, true);
      assert (before.posts + [q])[..|before.posts|] == before.posts;
    }
  }

  // ── one tick ──────────────────────────────────────────────────────────────

  /** So far into the list the tick ranked: one POST of each stream that could ship, and none of the others. */
  ghost predicate ShippedOnce(g: Gateway, list: seq<nat>, g': Gateway) {
    && g'.tick.Shipping? && |g'.tick.rest| <= |list| && g'.tick.rest == list[|list| - |g'.tick.rest|..]
    && InRange(list, g) && Distinct(list) && |g.objs| <= |g'.objs|
    && (forall x: nat :: CountedSo(g, list, g', x))
  }

  ghost predicate CountedSo(g: Gateway, list: seq<nat>, g': Gateway, x: nat)
    requires |g'.objs| >= |g.objs| && g'.tick.Shipping? && |g'.tick.rest| <= |list|
  {
    var done := list[..|list| - |g'.tick.rest|];
    var more := CountOf(g'.posts, x) - CountOf(g.posts, x);
    && 0 <= more <= (if x in done then 1 else 0)
    && (x < |g.objs| && CanFlush(g.objs[x]) ==>
          && (x in done ==> more == 1)
          && (x in g'.tick.rest ==> CanFlush(g'.objs[x])))
  }

  /** A step that starts no POST, and leaves whatever could ship able to. */
  ghost predicate KeepsReady(g0: Gateway, g': Gateway) {
    && g'.tick.Shipping? && g0.tick.Shipping? && g'.tick.rest == g0.tick.rest && g'.posts == g0.posts
    && |g0.objs| <= |g'.objs|
    && (forall x :: 0 <= x < |g0.objs| && x in g0.tick.rest && CanFlush(g0.objs[x]) ==> CanFlush(g'.objs[x]))
  }

  lemma EnqueuedShips(maxQueue: pos, s: Stream, it: Item)
    ensures CanFlush(s) ==> CanFlush(Enqueued(maxQueue, s, it))
  {
  }

  lemma ArrivalShips(p: Params, g: Gateway, now: int, m: Message, x: nat)
    requires x < |g.objs| && CanFlush(g.objs[x])
    ensures var g' := OnMessage(p, g, now, m); x < |g'.objs| && CanFlush(g'.objs[x])
  {
    hide Deliver, Admit, Attribution, Find, CanFlush;
    var who := Attribution(p, m);
    if m.raw != "" && who.Some? {
      var g1 := g.(handled := g.handled + 1);
      match Find(g.objs, g.live, who.value)
      case Some(sid) =>
        DeliveryTouchesOne(p, g1, now, sid, who.value, m);
        AdmitShips(p, g1, now, sid, who.value, m, x);
      case None =>
        var g2 := Create(g1, who.value);
        DeliveryTouchesOne(p, g2, now, |g.objs|, who.value, m);
    }
  }

  lemma AdmitShips(p: Params, g: Gateway, now: int, sid: nat, who: string, m: Message, x: nat)
    requires sid < |g.objs| && x < |g.objs| && CanFlush(g.objs[x])
    ensures CanFlush(Deliver(p, g, sid, who, m).objs[x]) && CanFlush(Admit(p, g, now, sid, who, m).objs[x])
  {
    hide CanFlush, Enqueued;
    EnqueuedShips(p.maxQueue, g.objs[sid], Item(g.nextId, who, Entry(m.device, Text(m.text), m.sev)));
  }

  lemma {:induction false} ReportAllShips(p: Params, g: Gateway, ids: seq<nat>, x: nat)
    requires InRange(ids, g) && x < |g.objs| && CanFlush(g.objs[x])
    ensures CanFlush(ReportAll(p, g, ids).objs[x])
  {
    hide CanFlush, Enqueued;
    if ids != [] {
      var n := |ids| - 1;
      ReportAllShips(p, g, ids[..n], x);
      var before := ReportAll(p, g, ids[..n]);
      var s := before.objs[ids[n]];
      ReportedShips(p.maxQueue, Who(p.mode), s, before.nextId);
    }
  }

  lemma ReportedShips(maxQueue: pos, who: string, s: Stream, id: nat)
    ensures CanFlush(s) ==> CanFlush(Reported(maxQueue, who, s, id))
  {
  }

  /** While a tick ships, nothing but its own groups starts a POST, and nothing keeps a waiting stream from shipping. */
  lemma ReadyKept(p: Params, g0: Gateway, now: int, e: Event)
    requires Inv(p, g0) && Enabled(p, g0, now, e) && !Step(p, g0, now, e).Draining()
    requires !e.TickPosts? && Step(p, g0, now, e).tick.Shipping? && g0.tick.Shipping?
    ensures KeepsReady(g0, Step(p, g0, now, e))
  {
    hide Core, CanFlush, Ended, Select, StartAll, OnMessage, ReportAll;
    var g := g0.(clock := now);
    match e {
    case Arrival(m) =>
      ArrivalPosts(p, g, now, m);
      ArrivalTiming(p, g, now, m);
      forall x | 0 <= x < |g0.objs| && CanFlush(g0.objs[x])
        ensures CanFlush(OnMessage(p, g, now, m).objs[x])
      {
        ArrivalShips(p, g, now, m, x);
      }
    case DropsReported =>
      ReportAllPosts(p, g, g.live);
      ReportAllTiming(p, g, g.live);
      forall x | 0 <= x < |g0.objs| && CanFlush(g0.objs[x])
        ensures CanFlush(ReportAll(p, g, g.live).objs[x])
      {
        ReportAllShips(p, g, g.live, x);
      }
    case _ =>
    }
  }

  lemma KeptCounts(g: Gateway, list: seq<nat>, g0: Gateway, g': Gateway)
    requires ShippedOnce(g, list, g0) && KeepsReady(g0, g')
    ensures ShippedOnce(g, list, g')
  {
    hide CanFlush, CountOf;
    forall x: nat
      ensures CountedSo(g, list, g', x)
    {
      assert CountedSo(g, list, g0, x);
    }
  }

  /** What a group does for one stream. */
  lemma GroupCountsOne(p: Params, g: Gateway, list: seq<nat>, g0: Gateway, now: int, x: nat)
    requires Enabled(p, g0, now, TickPosts) && Distinct(list) && |g.objs| <= |g0.objs|
    requires |g0.tick.rest| <= |list| && g0.tick.rest == list[|list| - |g0.tick.rest|..]
    requires CountedSo(g, list, g0, x)
    ensures var rest, g' := g0.tick.rest, Step(p, g0, now, TickPosts);
            && g'.tick.Shipping? && g'.tick.rest == rest[|First(POSTS_AT_ONCE, rest)|..] && |g'.objs| == |g0.objs|
            && CountedSo(g, list, g', x)
  {
    hide CanFlush, CountOf, StartAll, Distinct;
    var rest := g0.tick.rest;
    var group := First(POSTS_AT_ONCE, rest);
    var k, n := |list| - |rest|, |group|;
    var g1 := g0.(clock := now, tick := g0.tick.(rest := rest[n..]));
    var g' := Step(p, g0, now, TickPosts);
    assert g' == StartAll(p, g1, now, group, true);
    assert group == list[k..k + n] && rest[n..] == list[k + n..];
    assert list[..k + n] == list[..k] + group;
    StartAllWaiting(p, g1, now, group);
    InTwo(list, k, n, x);
    PassCounts(p, g1, now, group, x);
    if x < |g0.objs| && x !in group { StartAllExactly(p, g1, now, group, true, x); }
    assert x in rest <==> x in group || x in rest[n..] by { assert rest == group + rest[n..]; }
  }

  lemma GroupCounts(p: Params, g: Gateway, list: seq<nat>, g0: Gateway, now: int)
    requires ShippedOnce(g, list, g0) && Enabled(p, g0, now, TickPosts)
    ensures ShippedOnce(g, list, Step(p, g0, now, TickPosts))
  {
    hide CountedSo, Step, Enabled;
    GroupCountsOne(p, g, list, g0, now, 0);
    forall x: nat
      ensures CountedSo(g, list, Step(p, g0, now, TickPosts), x)
    {
      GroupCountsOne(p, g, list, g0, now, x);
    }
  }

  /** A member of the list is in one part of it only. */
  lemma InTwo(list: seq<nat>, k: nat, n: nat, x: nat)
    requires Distinct(list) && k + n <= |list|
    ensures x in list[k..k + n] ==> x !in list[..k] && x !in list[k + n..]
    ensures x in list[..k] ==> x !in list[k..]
    ensures Distinct(list[k..k + n])
  {
  }

  /** Once a tick has shipped it does not ship again before the next one starts. */
  lemma {:induction false} StaysShipped(p: Params, g: Gateway, evs: seq<Timed>)
    requires Legal(p, g, evs) && Ticks(evs) == 0 && g.tick.Idle?
    ensures After(p, g, evs).tick.Idle?
    decreases |evs|
  {
    if evs != [] {
      IdleStays(p, g, evs[0].0, evs[0].1);
      hide Step, Enabled;
      StaysShipped(p, Step(p, g, evs[0].0, evs[0].1), evs[1..]);
    }
  }

  lemma IdleStays(p: Params, g0: Gateway, now: int, e: Event)
    requires Enabled(p, g0, now, e) && g0.tick.Idle? && !e.TickStarts?
    ensures Step(p, g0, now, e).tick.Idle?
  {
    hide Ended, Select, StartAll, OnMessage, ReportAll;
    var g := g0.(clock := now);
    match e
    case Arrival(m) => ArrivalTiming(p, g, now, m);
    case DropsReported => ReportAllTiming(p, g, g.live);
    case Signalled => StartAllTickKept(p, g, now, g.live);
    case _ =>
  }

  lemma ShippingStays(p: Params, g0: Gateway, now: int, e: Event)
    requires Enabled(p, g0, now, e) && g0.tick.Shipping?
    ensures Step(p, g0, now, e).tick.Shipping? || Step(p, g0, now, e).tick.Idle?
  {
    hide Ended, Select, StartAll, OnMessage, ReportAll;
    var g := g0.(clock := now);
    match e
    case Arrival(m) => ArrivalTiming(p, g, now, m);
    case DropsReported => ReportAllTiming(p, g, g.live);
    case TickPosts =>
      var group := First(POSTS_AT_ONCE, g.tick.rest);
      StartAllWaiting(p, g.(tick := g.tick.(rest := g.tick.rest[|group|..])), now, group);
    case Signalled => StartAllTickKept(p, g, now, g.live);
    case _ =>
  }

  lemma {:induction false} ShippedRun(p: Params, g: Gateway, list: seq<nat>, g1: Gateway, evs: seq<Timed>)
    requires ShippedOnce(g, list, g1) && Inv(p, g1) && Legal(p, g1, evs) && Ticks(evs) == 0
    requires After(p, g1, evs).tick.Shipping? && !After(p, g1, evs).Draining()
    ensures ShippedOnce(g, list, After(p, g1, evs))
    decreases |evs|
  {
    if evs != [] {
      var (now, e) := evs[0];
      var g2 := Step(p, g1, now, e);
      assert g1.tick.Shipping?;
      CoreStep(p, g1, now, e);
      TickStep(p, g1, now, e);
      ShippingStays(p, g1, now, e);
      hide Step, Enabled, Core, TickInv, ShippedOnce, KeepsReady;
      if g2.tick.Idle? { StaysShipped(p, g2, evs[1..]); }
      if g2.Draining() { DrainingStays(p, g2, evs[1..]); }
      if e.TickPosts? {
        GroupCounts(p, g, list, g1, now);
      } else {
        ReadyKept(p, g1, now, e);
        KeptCounts(g, list, g1, g2);
      }
      ShippedRun(p, g, list, g2, evs[1..]);
    }
  }

  lemma JustRanked(p: Params, g: Gateway, now: int)
    requires Inv(p, g) && Enabled(p, g, now, TickRanks)
    ensures var g1 := Step(p, g, now, TickRanks);
            && g1.tick.Shipping? && ShippedOnce(g, g1.tick.rest, g1)
            && forall x: nat :: x in g1.tick.rest <==> x in g.live && x < |g.objs| && g.objs[x].retryAt <= g.tick.t && g.objs[x].badUntil <= g.tick.t
  {
    hide StreamInv, PostSound, Select, CountOf;
    SelectFacts(p, g.objs, g.live, ReadyAt(g.tick.t));
    var list := Step(p, g, now, TickRanks).tick.rest;
    assert forall i :: 0 <= i < |list| ==> list[i] in Select(p, g.objs, g.live, ReadyAt(g.tick.t));
    assert list[0..] == list && list[..0] == [];
  }

  /**
   * A whole tick, from ranking the streams to its end, whatever else happens in between short of a
   * shutdown: a stream of the map that was past its backoff and its refusal when the tick began and
   * could ship when the tick ranked gets exactly one POST; no stream gets two; and a stream that was
   * not ready gets none.
   */
  lemma EachReadyStreamOnce(p: Params, g: Gateway, now: int, evs: seq<Timed>, x: nat)
    requires Inv(p, g) && Enabled(p, g, now, TickRanks)
    requires var g1 := Step(p, g, now, TickRanks);
             && Legal(p, g1, evs) && Ticks(evs) == 0
             && var g' := After(p, g1, evs); g'.tick.Shipping? && g'.tick.rest == [] && !g'.Draining()
    ensures var more := CountOf(After(p, Step(p, g, now, TickRanks), evs).posts, x) - CountOf(g.posts, x);
            var ready := x in g.live && x < |g.objs| && g.objs[x].retryAt <= g.tick.t && g.objs[x].badUntil <= g.tick.t;
            && 0 <= more <= (if ready then 1 else 0)
            && (ready && g.objs[x].queue != [] && !g.objs[x].flushing && g.objs[x].cfg.enabled ==> more == 1)
  {
    hide Step, Enabled, Core, TickInv, Legal, After, CountOf;
    JustRanked(p, g, now);
    CoreStep(p, g, now, TickRanks);
    TickStep(p, g, now, TickRanks);
    var g1 := Step(p, g, now, TickRanks);
    var list := g1.tick.rest;
    ShippedRun(p, g, list, g1, evs);
    var g' := After(p, g1, evs);
    assert list[..|list| - 0] == list;
    assert CountedSo(g, list, g', x);
  }

  // ── one slow POST ─────────────────────────────────────────────────────────

  /** Anything but an answer to x's POST, and no shutdown. */
  predicate Unanswered(e: Event, x: nat) {
    !e.Signalled? && !(e.PostReturns? && e.sid == x)
  }

  lemma HeldUpStep(p: Params, g0: Gateway, now: int, e: Event, x: nat)
    requires Inv(p, g0) && Enabled(p, g0, now, e) && Unanswered(e, x)
    requires !g0.Draining() && x < |g0.objs| && g0.objs[x].flushing
    ensures !e.TickPosts? && !e.PollSends? && !e.TickStarts?
    ensures var g' := Step(p, g0, now, e);
            g'.posts == g0.posts && !g'.Draining() && x < |g'.objs| && g'.objs[x].flushing
  {
    hide Core, Ended, Select, StartAll, OnMessage, ReportAll;
    var g := g0.(clock := now);
    match e {
    case Arrival(m) => ArrivalPosts(p, g, now, m); ArrivalTiming(p, g, now, m);
    case DropsReported => ReportAllPosts(p, g, g.live); ReportAllTiming(p, g, g.live);
    case _ =>
    }
  }

  /** No answer to x's POST in the whole run, and no shutdown. */
  predicate NoAnswer(evs: seq<Timed>, x: nat) {
    evs == [] || (Unanswered(evs[0].1, x) && NoAnswer(evs[1..], x))
  }

  /** No group of POSTs, no poll and no tick in the whole run. */
  predicate StartsNothing(evs: seq<Timed>) {
    evs == [] ||
    (!evs[0].1.TickPosts? && !evs[0].1.PollSends? && !evs[0].1.TickStarts? && StartsNothing(evs[1..]))
  }

  /**
   * While any one POST is out, before a shutdown, no other starts, for any tenant, however many are
   * ready and however long it takes: nor does any poll, because the tick is still shipping.
   */
  lemma {:induction false} OneSlowPostHoldsAll(p: Params, g: Gateway, evs: seq<Timed>, x: nat)
    requires Inv(p, g) && Legal(p, g, evs) && !g.Draining() && x < |g.objs| && g.objs[x].flushing
    requires NoAnswer(evs, x)
    ensures After(p, g, evs).posts == g.posts
    ensures StartsNothing(evs)
    decreases |evs|
  {
    if evs != [] {
      var (now, e) := evs[0];
      CoreStep(p, g, now, e);
      TickStep(p, g, now, e);
      HeldUpStep(p, g, now, e, x);
      hide Step, Enabled, Core, TickInv, Unanswered;
      OneSlowPostHoldsAll(p, Step(p, g, now, e), evs[1..], x);
    }
  }

  /** Such a moment: one tenant's POST is out, and another tenant's line, ready to go, waits for it. */
  lemma AnotherWaits(p: Params)
    requires p.mode == GatewayMode && p.maxTenants >= 2
    ensures exists g :: Reachable(p, g) && !g.Draining() && |g.objs| == 2 && g.live == [0, 1] &&
                        g.objs[0].flushing && CanFlush(g.objs[1]) && IsReady(g.objs[1], g.clock)
  {
    hide Reachable, Attribution, StartAll, ReportAll, FinishFlush, PollDone, TickGroup;
    BothAreHeard(p);
    var g := OneLineReady(p, 1);
    var g1 := OneLinePosted(p, g, 1);
    var g2 := OneMoreTenant(p, g1, 1, TOKEN_B);
  }
}
