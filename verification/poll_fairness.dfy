/**
 * Sixteen polls per tick, in the order of the map: no stream is starved. The
 * argument is a pigeonhole over runs. Everything ahead of a waiting stream that
 * is polled stays fresh for POLL_MS, nothing ever joins ahead of it, and each
 * tick that passes it over polls sixteen of them.
 */
module PollFairness {
  import opened Distinctness
  import opened Wrappers
  import opened StreamModel
  import opened StreamLaws
  import opened GatewayModel
  import opened GatewayLaws
  import opened TickLaws
  import opened TimingLaws

  /** The part of the map's order ahead of a stream. */
  function Ahead(ids: seq<nat>, x: nat): (r: seq<nat>)
    ensures |r| <= |ids|
    ensures forall id :: id in r ==> id in ids
  {
    if ids == [] || ids[0] == x then [] else [ids[0]] + Ahead(ids[1..], x)
  }

  predicate Scheduled(g: Gateway, id: nat) {
    g.tick.Polling? && id in g.tick.pending
  }

  /** Polled since t0, or on the list of the tick now under way. */
  predicate Served(g: Gateway, x: nat, t0: int) {
    x < |g.objs| && (g.objs[x].polledAt >= t0 || Scheduled(g, x))
  }

  /** The streams ahead of x that nothing has been done for since t0. */
  ghost function Unserved(g: Gateway, x: nat, t0: int): set<nat> {
    set id | id in Ahead(g.live, x) && id < |g.objs| && !Served(g, id, t0)
  }

  ghost predicate DueSince(p: Params, s: Stream, t0: int) {
    s.polledAt == 0 || t0 - s.polledAt >= p.pollMs
  }

  // ── how the order changes ─────────────────────────────────────────────────

  lemma {:induction false} AheadAppend(ids: seq<nat>, more: seq<nat>, x: nat)
    requires x in ids
    ensures Ahead(ids + more, x) == Ahead(ids, x)
  {
    if ids[0] != x {
      assert (ids + more)[1..] == ids[1..] + more;
      AheadAppend(ids[1..], more, x);
    }
  }

  lemma {:induction false} AheadSplit(a: seq<nat>, x: nat, b: seq<nat>)
    requires x !in a
    ensures Ahead(a + [x] + b, x) == a
  {
    if a != [] {
      assert (a + [x] + b)[1..] == a[1..] + [x] + b;
      AheadSplit(a[1..], x, b);
    }
  }

  /** The order of the map, cut at x. */
  lemma {:induction false} AheadCut(ids: seq<nat>, x: nat)
    requires x in ids
    ensures |Ahead(ids, x)| < |ids| && ids == Ahead(ids, x) + [x] + ids[|Ahead(ids, x)|+1..]
    ensures x !in Ahead(ids, x)
  {
    if ids[0] != x {
      AheadCut(ids[1..], x);
    }
  }

  lemma {:induction false} SelectAppend(p: Params, objs: seq<Stream>, a: seq<nat>, b: seq<nat>, pick: Pick)
    requires forall i :: 0 <= i < |a + b| ==> (a + b)[i] < |objs|
    requires forall i :: 0 <= i < |a| ==> a[i] < |objs|
    requires forall i :: 0 <= i < |b| ==> b[i] < |objs|
    ensures Select(p, objs, a + b, pick) == Select(p, objs, a, pick) + Select(p, objs, b, pick)
  {
    if b == [] {
      assert a + b == a;
    } else {
      assert (a + b)[..|a + b|-1] == a + b[..|b|-1];
      SelectAppend(p, objs, a, b[..|b|-1], pick);
    }
  }

  /** A sweep only takes streams away from ahead of x. */
  lemma AheadKept(p: Params, objs: seq<Stream>, ids: seq<nat>, now: int, x: nat)
    requires forall i :: 0 <= i < |ids| ==> ids[i] < |objs|
    requires Distinct(ids) && x in Select(p, objs, ids, Survives(now))
    ensures forall id :: id in Ahead(Select(p, objs, ids, Survives(now)), x) ==> id in Ahead(ids, x)
  {
    SelectFacts(p, objs, ids, Survives(now));
    AheadCut(ids, x);
    var a, b := Ahead(ids, x), ids[|Ahead(ids, x)|+1..];
    assert forall i :: 0 <= i < |a| ==> a[i] == ids[i];
    SelectAppend(p, objs, a + [x], b, Survives(now));
    SelectAppend(p, objs, a, [x], Survives(now));
    SelectFacts(p, objs, a, Survives(now));
    AheadSplit(Select(p, objs, a, Survives(now)), x, Select(p, objs, b, Survives(now)));
  }

  // ── one step ──────────────────────────────────────────────────────────────

  /** Polling times only move to the present, and only the scheduler moves them. */
  lemma PolledLater(p: Params, g0: Gateway, now: int, e: Event, y: nat)
    requires Enabled(p, g0, now, e) && y < |g0.objs|
    ensures var g' := Step(p, g0, now, e);
            && |g0.objs| <= |g'.objs|
            && (g'.objs[y].polledAt == g0.objs[y].polledAt || g'.objs[y].polledAt == now)
  {
    hide Select, StartAll, OnMessage, ReportAll, Ended;
    var g := g0.(clock := now);
    match e
    case Arrival(m) => ArrivalPolled(p, g, now, m, y);
    case DropsReported => ReportAllPolled(p, g, g.live, y);
    case TickPosts =>
      var group := First(POSTS_AT_ONCE, g.tick.rest);
      StartAllFacts(p, g.(tick := g.tick.(rest := g.tick.rest[|group|..])), now, group, true);
    case Signalled => StartAllFacts(p, g, now, g.live, false);
    case PostReturns(sid, reply) => EndPolled(p, g.objs[sid], reply, now);
    case _ =>
  }

  lemma EndPolled(p: Params, s: Stream, reply: Reply, now: int)
    ensures Ended(p, s, reply, now).polledAt == s.polledAt
  {
  }

  lemma ArrivalPolled(p: Params, g: Gateway, now: int, m: Message, y: nat)
    requires y < |g.objs|
    ensures var g' := OnMessage(p, g, now, m);
            && |g.objs| <= |g'.objs| && g'.objs[y].polledAt == g.objs[y].polledAt && g.live <= g'.live
  {
    hide Attribution, Route;
    if m.raw != "" && Attribution(p, m).Some? {
      RoutePolled(p, g.(handled := g.handled + 1), now, Attribution(p, m).value, m, y);
    }
  }

  lemma RoutePolled(p: Params, g: Gateway, now: int, who: string, m: Message, y: nat)
    requires y < |g.objs|
    ensures var g' := Route(p, g, now, who, m);
            && |g.objs| <= |g'.objs| && g'.objs[y].polledAt == g.objs[y].polledAt && g.live <= g'.live
  {
    hide Deliver, Admit;
    match Find(g.objs, g.live, who)
    case Some(sid) => DeliveryTouchesOne(p, g, now, sid, who, m);
    case None => DeliveryTouchesOne(p, Create(g, who), now, |g.objs|, who, m);
  }

  lemma {:induction false} ReportAllPolled(p: Params, g: Gateway, ids: seq<nat>, y: nat)
    requires InRange(ids, g) && y < |g.objs|
    ensures ReportAll(p, g, ids).objs[y].polledAt == g.objs[y].polledAt
    ensures ReportAll(p, g, ids).live == g.live && ReportAll(p, g, ids).tick == g.tick
  {
    if ids != [] { ReportAllPolled(p, g, ids[..|ids|-1], y); }
  }

  lemma ArrivalAhead(p: Params, g: Gateway, now: int, m: Message, x: nat)
    requires x in g.live && x < |g.objs|
    ensures Ahead(OnMessage(p, g, now, m).live, x) == Ahead(g.live, x)
  {
    hide OnMessage, Ahead;
    ArrivalPolled(p, g, now, m, x);
    var live := OnMessage(p, g, now, m).live;
    AheadAppend(g.live, live[|g.live|..], x);
    assert live == g.live + live[|g.live|..];
  }

  /** Who is ahead of x: never anyone new. */
  lemma NobodyJoinsAhead(p: Params, g0: Gateway, now: int, e: Event, x: nat)
    requires Inv(p, g0) && Enabled(p, g0, now, e)
    requires x in g0.live && x in Step(p, g0, now, e).live
    ensures forall id :: id in Ahead(Step(p, g0, now, e).live, x) ==> id in Ahead(g0.live, x)
  {
    hide StreamInv, PostSound, Select, StartAll, OnMessage, ReportAll, Ended;
    var g := g0.(clock := now);
    var g' := Step(p, g0, now, e);
    match e
    case Arrival(m) => ArrivalAhead(p, g, now, m, x);
    case DropsReported => ReportAllPolled(p, g, g.live, x);
    case TickPosts =>
      var group := First(POSTS_AT_ONCE, g.tick.rest);
      StartAllFacts(p, g.(tick := g.tick.(rest := g.tick.rest[|group|..])), now, group, true);
    case Signalled => StartAllFacts(p, g, now, g.live, false);
    case IdleSwept => AheadKept(p, g.objs, g.live, now, x);
    case _ =>
  }

  /** Service is never undone. */
  lemma ServedStays(p: Params, g0: Gateway, now: int, e: Event, y: nat, t0: int)
    requires Inv(p, g0) && Enabled(p, g0, now, e) && t0 <= g0.clock && Served(g0, y, t0)
    ensures Served(Step(p, g0, now, e), y, t0)
  {
    hide StreamInv, PostSound, Select, StartAll, OnMessage, ReportAll, Ended;
    PolledLater(p, g0, now, e, y);
    var g := g0.(clock := now);
    match e
    case Arrival(m) => ArrivalTiming(p, g, now, m);
    case DropsReported => ReportAllTiming(p, g, g.live);
    case TickPosts =>
    case Signalled =>
      StartAllTickKept(p, g, now, g.live);
    case PollSends => assert g.tick.pending == [g.tick.pending[0]] + g.tick.pending[1..];
    case PostReturns(_, _) =>
    case _ =>
  }

  /** No step makes more streams wait ahead of x. */
  lemma UnservedShrinks(p: Params, g: Gateway, now: int, e: Event, x: nat, t0: int)
    requires Inv(p, g) && Enabled(p, g, now, e) && t0 <= g.clock
    requires x in g.live && x in Step(p, g, now, e).live
    ensures Unserved(Step(p, g, now, e), x, t0) <= Unserved(g, x, t0)
  {
    NobodyJoinsAhead(p, g, now, e, x);
    hide Step, Enabled, Inv;
    var g' := Step(p, g, now, e);
    forall id | id in Unserved(g', x, t0)
      ensures id in Unserved(g, x, t0)
    {
      AheadInRange(p, g, id, x);
      if Served(g, id, t0) { ServedStays(p, g, now, e, id, t0); }
    }
  }

  lemma AheadInRange(p: Params, g: Gateway, id: nat, x: nat)
    requires Inv(p, g) && id in Ahead(g.live, x)
    ensures id < |g.objs|
  {
    hide StreamInv, PostSound;
    var i :| 0 <= i < |g.live| && g.live[i] == id;
  }

  // ── one tick ──────────────────────────────────────────────────────────────

  /** The due streams, cut at a due x. */
  lemma DueCut(p: Params, objs: seq<Stream>, ids: seq<nat>, t: int, x: nat)
    requires forall i :: 0 <= i < |ids| ==> ids[i] < |objs|
    requires x in ids && x < |objs| && IsDue(p, objs[x], t)
    ensures forall i :: 0 <= i < |Ahead(ids, x)| ==> Ahead(ids, x)[i] < |objs|
    ensures Select(p, objs, Ahead(ids, x), DueAt(t)) + [x] <= Select(p, objs, ids, DueAt(t))
  {
    hide Select, Ahead;
    AheadCut(ids, x);
    var a, b := Ahead(ids, x), ids[|Ahead(ids, x)|+1..];
    assert forall i :: 0 <= i < |a| ==> a[i] == ids[i];
    assert forall i :: 0 <= i < |b| ==> b[i] == ids[|a| + 1 + i];
    SelectAppend(p, objs, a + [x], b, DueAt(t));
    SelectAppend(p, objs, a, [x], DueAt(t));
    DueOne(p, objs, t, x);
  }

  lemma DueOne(p: Params, objs: seq<Stream>, t: int, x: nat)
    requires x < |objs| && IsDue(p, objs[x], t)
    ensures Select(p, objs, [x], DueAt(t)) == [x]
  {
    assert [x][..0] == [];
  }

  /** A full list of due streams that stops short of x is all ahead of x. */
  lemma FirstAreAhead(p: Params, objs: seq<Stream>, ids: seq<nat>, t: int, x: nat, n: nat)
    requires forall i :: 0 <= i < |ids| ==> ids[i] < |objs|
    requires Distinct(ids) && x in ids && x < |objs| && IsDue(p, objs[x], t)
    requires x !in First(n, Select(p, objs, ids, DueAt(t)))
    ensures |First(n, Select(p, objs, ids, DueAt(t)))| == n
    ensures Distinct(First(n, Select(p, objs, ids, DueAt(t))))
    ensures forall id :: id in First(n, Select(p, objs, ids, DueAt(t))) ==>
              id in Ahead(ids, x) && id < |objs| && IsDue(p, objs[id], t)
  {
    hide Select, Ahead;
    DueCut(p, objs, ids, t, x);
    SelectFacts(p, objs, ids, DueAt(t));
    var due, front := Select(p, objs, ids, DueAt(t)), Select(p, objs, Ahead(ids, x), DueAt(t));
    AheadDistinct(ids, x);
    SelectFacts(p, objs, Ahead(ids, x), DueAt(t));
    assert due[|front|] == x;
    assert |front| >= n;
    assert First(n, due) == front[..n];
    forall id | id in First(n, due)
      ensures id in front
    {
      assert id in front[..n];
    }
  }

  lemma AheadDistinct(ids: seq<nat>, x: nat)
    requires Distinct(ids) && x in ids
    ensures Distinct(Ahead(ids, x))
  {
    AheadCut(ids, x);
    assert Ahead(ids, x) == ids[..|Ahead(ids, x)|];
  }

  lemma TickPicks(p: Params, g: Gateway, now: int, x: nat)
    requires Inv(p, g) && Enabled(p, g, now, TickStarts) && p.mode != TunnelMode
    requires x in g.live && x < |g.objs| && IsDue(p, g.objs[x], now)
    requires x !in Step(p, g, now, TickStarts).tick.pending
    ensures var g' := Step(p, g, now, TickStarts);
            && g'.objs == g.objs && g'.live == g.live && g'.tick.Polling?
            && |g'.tick.pending| == 16 && Distinct(g'.tick.pending)
            && forall id :: id in g'.tick.pending ==>
                 id in Ahead(g.live, x) && id < |g.objs| && IsDue(p, g.objs[id], now)
  {
    FirstAreAhead(p, g.objs, g.live, now, x, 16);
  }

  lemma ListedIsServed(g: Gateway, id: nat, x: nat, t0: int)
    requires g.tick.Polling? && id in g.tick.pending
    ensures id !in Unserved(g, x, t0)
  {
    hide Ahead;
  }

  /** Sixteen distinct streams that go from waiting to served. */
  lemma SixteenFewer(g: Gateway, g': Gateway, x: nat, t0: int)
    requires g'.tick.Polling? && |g'.tick.pending| == 16 && Distinct(g'.tick.pending)
    requires g'.objs == g.objs && Unserved(g', x, t0) <= Unserved(g, x, t0)
    requires forall id :: id in g'.tick.pending ==> id in Unserved(g, x, t0)
    ensures |Unserved(g', x, t0)| + 16 <= |Unserved(g, x, t0)|
  {
    hide Unserved, Elements;
    var chosen := Elements(g'.tick.pending);
    DistinctSize(g'.tick.pending);
    forall id | id in chosen
      ensures id !in Unserved(g', x, t0)
    {
      ListedIsServed(g', id, x, t0);
    }
    DisjointFits(Unserved(g, x, t0), Unserved(g', x, t0), chosen);
  }

  lemma DisjointFits(whole: set<nat>, a: set<nat>, b: set<nat>)
    requires a <= whole && b <= whole && forall id :: id in b ==> id !in a
    ensures |a| + |b| <= |whole|
  {
    assert |a + b| == |a| + |b|;
    SubsetSize(a + b, whole);
  }

  /** A tick that passes x over takes sixteen off the list ahead of it. */
  lemma TickServesSixteen(p: Params, g: Gateway, now: int, x: nat, t0: int)
    requires Inv(p, g) && Enabled(p, g, now, TickStarts) && p.mode != TunnelMode
    requires 0 < t0 <= g.clock && now < t0 + p.pollMs
    requires x in g.live && x < |g.objs| && DueSince(p, g.objs[x], t0)
    requires !Served(Step(p, g, now, TickStarts), x, t0)
    ensures |Unserved(Step(p, g, now, TickStarts), x, t0)| + 16 <= |Unserved(g, x, t0)|
  {
    var g' := Step(p, g, now, TickStarts);
    TickPicks(p, g, now, x);
    UnservedShrinks(p, g, now, TickStarts, x, t0);
    assert g.tick.Idle? && g.clock <= now;
    hide Inv, Step, Ahead, Unserved, Elements;
    forall id | id in g'.tick.pending
      ensures id in Unserved(g, x, t0)
    {
      DueIsUnserved(p, g, now, id, x, t0);
    }
    SixteenFewer(g, g', x, t0);
  }

  lemma DueIsUnserved(p: Params, g: Gateway, now: int, id: nat, x: nat, t0: int)
    requires g.tick.Idle? && 0 < t0 && now < t0 + p.pollMs
    requires id in Ahead(g.live, x) && id < |g.objs| && IsDue(p, g.objs[id], now)
    ensures id in Unserved(g, x, t0)
  {
  }

  // ── runs ──────────────────────────────────────────────────────────────────

  function Ticks(evs: seq<Timed>): nat {
    if evs == [] then 0 else (if evs[0].1.TickStarts? then 1 else 0) + Ticks(evs[1..])
  }

  /** x stays in the map through the whole run. */
  predicate Stays(p: Params, g: Gateway, evs: seq<Timed>, x: nat)
    requires Legal(p, g, evs)
    decreases |evs|
  {
    x in g.live && (evs == [] || Stays(p, Step(p, g, evs[0].0, evs[0].1), evs[1..], x))
  }

  /** A stream that is there at the end was there all along. */
  lemma {:induction false} ThereAllAlong(p: Params, g: Gateway, evs: seq<Timed>, x: nat)
    requires Core(p, g) && Legal(p, g, evs) && x < |g.objs| && x in After(p, g, evs).live
    ensures Stays(p, g, evs, x)
    decreases |evs|
  {
    if evs != [] {
      var (now, e) := evs[0];
      CoreStep(p, g, now, e);
      PolledLater(p, g, now, e, x);
      hide Step, Enabled, Core;
      ThereAllAlong(p, Step(p, g, now, e), evs[1..], x);
      NoneComesBack(p, g, now, e, x);
    }
  }

  /** Either x has been served, or sixteen streams ahead of it have been, for every tick that started. */
  lemma {:induction false} ServedOrSixteen(p: Params, g: Gateway, evs: seq<Timed>, x: nat, t0: int)
    requires Inv(p, g) && Legal(p, g, evs) && Stays(p, g, evs, x) && p.mode != TunnelMode
    requires 0 < t0 <= g.clock && Before(evs, t0 + p.pollMs)
    requires x < |g.objs| && (Served(g, x, t0) || DueSince(p, g.objs[x], t0))
    ensures var g' := After(p, g, evs);
            Served(g', x, t0) || 16 * Ticks(evs) + |Unserved(g', x, t0)| <= |Unserved(g, x, t0)|
    decreases |evs|
  {
    if evs != [] {
      var (now, e) := evs[0];
      var g1 := Step(p, g, now, e);
      CoreStep(p, g, now, e);
      TickStep(p, g, now, e);
      assert Before(evs[1..], t0 + p.pollMs);
      StepFor(p, g, now, e, x, t0);
      hide Step, Enabled, Core, TickInv, Unserved, Served;
      ServedOrSixteen(p, g1, evs[1..], x, t0);
      if Served(g1, x, t0) { ServedForGood(p, g1, evs[1..], x, t0); }
    }
  }

  lemma {:induction false} ServedForGood(p: Params, g: Gateway, evs: seq<Timed>, x: nat, t0: int)
    requires Inv(p, g) && Legal(p, g, evs) && t0 <= g.clock && Served(g, x, t0)
    ensures Served(After(p, g, evs), x, t0)
    decreases |evs|
  {
    if evs != [] {
      var (now, e) := evs[0];
      CoreStep(p, g, now, e);
      TickStep(p, g, now, e);
      ServedStays(p, g, now, e, x, t0);
      ClockIsNow(p, g, now, e);
      hide Step, Enabled, Core, TickInv, Served;
      ServedForGood(p, Step(p, g, now, e), evs[1..], x, t0);
    }
  }

  lemma ClockIsNow(p: Params, g0: Gateway, now: int, e: Event)
    requires Enabled(p, g0, now, e)
    ensures Step(p, g0, now, e).clock == now && g0.clock <= now
  {
    hide Select, StartAll, OnMessage, ReportAll, Ended;
    var g := g0.(clock := now);
    match e
    case Arrival(m) => ArrivalTiming(p, g, now, m);
    case DropsReported => ReportAllTiming(p, g, g.live);
    case TickPosts =>
      var group := First(POSTS_AT_ONCE, g.tick.rest);
      StartAllFacts(p, g.(tick := g.tick.(rest := g.tick.rest[|group|..])), now, group, true);
    case Signalled => StartAllFacts(p, g, now, g.live, false);
    case _ =>
  }

  lemma StepFor(p: Params, g: Gateway, now: int, e: Event, x: nat, t0: int)
    requires Inv(p, g) && Enabled(p, g, now, e) && p.mode != TunnelMode
    requires 0 < t0 <= g.clock && now < t0 + p.pollMs
    requires x in g.live && x in Step(p, g, now, e).live && x < |g.objs|
    requires Served(g, x, t0) || DueSince(p, g.objs[x], t0)
    ensures var g1 := Step(p, g, now, e);
            && t0 <= g1.clock && x < |g1.objs|
            && (Served(g1, x, t0) || DueSince(p, g1.objs[x], t0))
            && (Served(g1, x, t0) ||
                |Unserved(g1, x, t0)| + (if e.TickStarts? then 16 else 0) <= |Unserved(g, x, t0)|)
  {
    ClockIsNow(p, g, now, e);
    PolledLater(p, g, now, e, x);
    UnservedShrinks(p, g, now, e, x, t0);
    SubsetSize(Unserved(Step(p, g, now, e), x, t0), Unserved(g, x, t0));
    if Served(g, x, t0) {
      ServedStays(p, g, now, e, x, t0);
    } else if e.TickStarts? && !Served(Step(p, g, now, e), x, t0) {
      TickServesSixteen(p, g, now, x, t0);
    }
  }

  /**
   * Poll fairness: a stream that is due at t0 with n others ahead of it in the map is polled, or
   * on the list of the tick under way, by the time floor(n / 16) + 1 ticks have started, provided
   * those ticks fit inside POLL_MS.
   */
  lemma DueStreamsArePolled(p: Params, g: Gateway, evs: seq<Timed>, x: nat, t0: int)
    requires Inv(p, g) && Legal(p, g, evs) && x in After(p, g, evs).live && p.mode != TunnelMode
    requires 0 < t0 <= g.clock && Before(evs, t0 + p.pollMs)
    requires x < |g.objs| && DueSince(p, g.objs[x], t0)
    requires Ticks(evs) >= |Ahead(g.live, x)| / 16 + 1
    ensures var g' := After(p, g, evs);
            && Served(g', x, t0)
            && (!g'.tick.Polling? ==> g'.objs[x].polledAt >= t0)
  {
    hide Inv, Core, Legal, After, Stays, Ahead, DueSince, Before;
    InvCore(p, g);
    ThereAllAlong(p, g, evs, x);
    ServedOrSixteen(p, g, evs, x, t0);
    SubsetSize(Unserved(g, x, t0), Elements(Ahead(g.live, x)));
  }

  // ── in time ───────────────────────────────────────────────────────────────

  /** The scheduler keeps ticking: nothing happens more than `gap` after the last tick that started. */
  predicate Paced(evs: seq<Timed>, last: int, gap: nat) {
    evs == [] ||
    (evs[0].0 <= last + gap && Paced(evs[1..], LastTick(last, evs[0]), gap))
  }

  function LastTick(last: int, ev: Timed): int {
    if ev.1.TickStarts? then ev.0 else last
  }

  /** How long a due stream with at most n others ahead of it waits, at the worst. */
  function Wait(n: nat, gap: nat): nat { gap * (n / 16 + 2) }

  /** How many more ticks x can see start before it is polled. */
  ghost function TicksLeft(g: Gateway, x: nat, t0: int): nat {
    if Scheduled(g, x) then 1 else |Unserved(g, x, t0)| / 16 + 2
  }

  /** x, due at t0, has not waited for longer than the ticks it still needs allow. */
  ghost predicate OnTime(p: Params, g: Gateway, x: nat, t0: int, last: int, gap: nat, n: nat) {
    && x in g.live && x < |g.objs| && DueSince(p, g.objs[x], t0)
    && last <= g.clock <= last + gap && |Ahead(g.live, x)| <= n
    && (g.clock <= t0 || last + gap * TicksLeft(g, x, t0) <= t0 + Wait(n, gap))
  }

  lemma Times(gap: nat, a: nat, b: nat)
    requires a <= b
    ensures gap * a <= gap * b && gap * (b + 1) == gap * b + gap
  {
  }

  lemma UnservedFew(g: Gateway, x: nat, t0: int, n: nat)
    requires |Ahead(g.live, x)| <= n
    ensures |Unserved(g, x, t0)| <= n && 1 <= TicksLeft(g, x, t0) <= n / 16 + 2
  {
    hide Ahead;
    SubsetSize(Unserved(g, x, t0), Elements(Ahead(g.live, x)));
  }

  /** On time, it has waited no longer than the worst, nor will it have when the next thing happens. */
  lemma OnTimeSoFar(p: Params, g: Gateway, x: nat, t0: int, last: int, gap: nat, n: nat)
    requires OnTime(p, g, x, t0, last, gap, n)
    ensures last <= g.clock <= last + gap <= t0 + Wait(n, gap)
  {
    hide Ahead, Unserved, DueSince;
    UnservedFew(g, x, t0, n);
    Times(gap, 1, TicksLeft(g, x, t0));
    Times(gap, 1, n / 16 + 2);
  }

  /** The clock may run on to any time a step could happen at. */
  lemma ClockRuns(p: Params, g: Gateway, now: int, e: Event, c: int)
    requires Inv(p, g) && Enabled(p, g, now, e) && g.clock <= c <= now
    ensures var g1 := g.(clock := c);
            Inv(p, g1) && Enabled(p, g1, now, e) && Step(p, g1, now, e) == Step(p, g, now, e)
  {
    hide StreamInv, PostSound, Frame, Select, StartAll, OnMessage, ReportAll, Ended;
    CountersKeep(p, g, g.(clock := c));
    TickFrame(p, g, g.(clock := c));
    assert g.(clock := c).(clock := now) == g.(clock := now);
  }

  /** A list left over from the last tick has been worked off when the next one starts. */
  lemma NoListAtStart(p: Params, g: Gateway, now: int, x: nat)
    requires Enabled(p, g, now, TickStarts)
    ensures !Scheduled(g, x)
  {
  }

  lemma AheadShrinks(p: Params, g: Gateway, now: int, e: Event, x: nat)
    requires Inv(p, g) && Enabled(p, g, now, e)
    requires x in g.live && x in Step(p, g, now, e).live
    ensures |Ahead(Step(p, g, now, e).live, x)| <= |Ahead(g.live, x)|
  {
    NobodyJoinsAhead(p, g, now, e, x);
    CoreStep(p, g, now, e);
    var g' := Step(p, g, now, e);
    OrderDistinct(p, g');
    hide Inv, Step, Enabled, Ahead, Elements;
    AheadDistinct(g'.live, x);
    DistinctSize(Ahead(g'.live, x));
    SubsetSize(Elements(Ahead(g'.live, x)), Elements(Ahead(g.live, x)));
  }

  /** A step either polls x or leaves it on time. */
  lemma OnTimeStep(p: Params, g: Gateway, now: int, e: Event, x: nat, t0: int, last: int, gap: nat, n: nat)
    requires Inv(p, g) && Enabled(p, g, now, e) && p.mode != TunnelMode
    requires OnTime(p, g, x, t0, last, gap, n) && x in Step(p, g, now, e).live
    requires 0 < t0 && now <= last + gap && Wait(n, gap) < p.pollMs
    ensures var g' := Step(p, g, now, e);
            && x < |g'.objs| && g'.clock == now && |Ahead(g'.live, x)| <= n
            && (g'.objs[x].polledAt == now || OnTime(p, g', x, t0, LastTick(last, (now, e)), gap, n))
  {
    hide Inv, Step, Enabled, Ahead, Unserved;
    var g' := Step(p, g, now, e);
    ClockIsNow(p, g, now, e);
    PolledLater(p, g, now, e, x);
    AheadShrinks(p, g, now, e, x);
    if g'.objs[x].polledAt != now && now > t0 {
      StillOnTime(p, g, now, e, x, t0, last, gap, n);
    }
  }

  lemma StillOnTime(p: Params, g: Gateway, now: int, e: Event, x: nat, t0: int, last: int, gap: nat, n: nat)
    requires Inv(p, g) && Enabled(p, g, now, e) && p.mode != TunnelMode
    requires OnTime(p, g, x, t0, last, gap, n) && x in Step(p, g, now, e).live
    requires 0 < t0 < now && now <= last + gap && Wait(n, gap) < p.pollMs
    requires x < |Step(p, g, now, e).objs| && Step(p, g, now, e).objs[x].polledAt == g.objs[x].polledAt
    ensures LastTick(last, (now, e)) + gap * TicksLeft(Step(p, g, now, e), x, t0) <= t0 + Wait(n, gap)
  {
    hide Inv, Step, Enabled, Ahead, Unserved, Scheduled;
    var g1 := if g.clock <= t0 then g.(clock := t0) else g;
    var g' := Step(p, g, now, e);
    ClockIsNow(p, g, now, e);
    ClockRuns(p, g, now, e, if g.clock <= t0 then t0 else g.clock);
    UnservedFew(g, x, t0, n);
    Times(gap, 1, TicksLeft(g, x, t0));
    Times(gap, TicksLeft(g, x, t0), n / 16 + 2);
    SameLeft(g, g1.clock, x, t0);
    TicksLeftStep(p, g1, now, e, x, t0);
    if e.TickStarts? {
      Times(gap, TicksLeft(g', x, t0) + 1, TicksLeft(g, x, t0));
      Times(gap, 0, TicksLeft(g', x, t0));
    } else {
      Times(gap, TicksLeft(g', x, t0), TicksLeft(g, x, t0));
    }
  }

  lemma SameLeft(g: Gateway, c: int, x: nat, t0: int)
    ensures TicksLeft(g.(clock := c), x, t0) == TicksLeft(g, x, t0)
  {
    hide Ahead;
    assert Unserved(g.(clock := c), x, t0) == Unserved(g, x, t0);
  }

  /** While x is not polled, no step adds to the ticks it needs, and each tick that starts takes one off. */
  lemma TicksLeftStep(p: Params, g: Gateway, now: int, e: Event, x: nat, t0: int)
    requires Inv(p, g) && Enabled(p, g, now, e) && p.mode != TunnelMode
    requires 0 < t0 <= g.clock && now < t0 + p.pollMs
    requires x in g.live && x in Step(p, g, now, e).live && x < |g.objs| && DueSince(p, g.objs[x], t0)
    requires x < |Step(p, g, now, e).objs| && Step(p, g, now, e).objs[x].polledAt == g.objs[x].polledAt
    ensures TicksLeft(Step(p, g, now, e), x, t0) + (if e.TickStarts? then 1 else 0) <= TicksLeft(g, x, t0)
  {
    hide Inv, Step, Enabled, Unserved;
    var g' := Step(p, g, now, e);
    StepFor(p, g, now, e, x, t0);
    if e.TickStarts? { NoListAtStart(p, g, now, x); }
    if Scheduled(g, x) { ServedStays(p, g, now, e, x, t0); }
  }

  lemma {:induction false} PolledStays(p: Params, g: Gateway, evs: seq<Timed>, x: nat, t0: int)
    requires Legal(p, g, evs) && t0 <= g.clock && x < |g.objs| && g.objs[x].polledAt >= t0
    ensures x < |After(p, g, evs).objs| && After(p, g, evs).objs[x].polledAt >= t0
    decreases |evs|
  {
    if evs != [] {
      var (now, e) := evs[0];
      PolledLater(p, g, now, e, x);
      ClockIsNow(p, g, now, e);
      hide Step, Enabled;
      PolledStays(p, Step(p, g, now, e), evs[1..], x, t0);
    }
  }

  lemma {:induction false} OnTimeRun(p: Params, g: Gateway, evs: seq<Timed>, x: nat, t0: int, last: int, gap: nat, n: nat)
    requires Inv(p, g) && Legal(p, g, evs) && Stays(p, g, evs, x) && p.mode != TunnelMode
    requires 0 < t0 <= g.clock && Paced(evs, last, gap) && Wait(n, gap) < p.pollMs
    requires OnTime(p, g, x, t0, last, gap, n)
    ensures var g' := After(p, g, evs);
            x < |g'.objs| && (g'.clock <= t0 + Wait(n, gap) || g'.objs[x].polledAt >= t0)
    decreases |evs|
  {
    OnTimeSoFar(p, g, x, t0, last, gap, n);
    if evs != [] {
      var (now, e) := evs[0];
      var g1 := Step(p, g, now, e);
      CoreStep(p, g, now, e);
      TickStep(p, g, now, e);
      ClockIsNow(p, g, now, e);
      assert x in g1.live;
      hide Step, Enabled, Core, TickInv, OnTime, Wait;
      OnTimeStep(p, g, now, e, x, t0, last, gap, n);
      if g1.objs[x].polledAt == now {
        PolledStays(p, g1, evs[1..], x, t0);
      } else {
        OnTimeRun(p, g1, evs[1..], x, t0, LastTick(last, evs[0]), gap, n);
      }
    }
  }

  /**
   * With ticks at most `gap` apart, a stream that is due now, whether or not it was ever polled, is
   * polled within floor(n / 16) + 2 gaps, n being the number of streams ahead of it in the map.
   */
  lemma PolledByThen(p: Params, g: Gateway, evs: seq<Timed>, x: nat, last: int, gap: nat)
    requires Inv(p, g) && Legal(p, g, evs) && x in After(p, g, evs).live && p.mode != TunnelMode
    requires 0 < g.clock && x < |g.objs| && DueSince(p, g.objs[x], g.clock)
    requires last <= g.clock <= last + gap && Paced(evs, last, gap)
    requires Wait(|Ahead(g.live, x)|, gap) < p.pollMs
    requires After(p, g, evs).clock > g.clock + Wait(|Ahead(g.live, x)|, gap)
    ensures var g' := After(p, g, evs); x < |g'.objs| && g'.objs[x].polledAt >= g.clock
  {
    hide Inv, Core, Legal, Paced, DueSince, After, Ahead, Unserved, Wait;
    InvCore(p, g);
    ThereAllAlong(p, g, evs, x);
    OnTimeRun(p, g, evs, x, g.clock, last, gap, |Ahead(g.live, x)|);
  }

  /** x was polled, and its next poll is on time. */
  ghost predicate KeptFresh(p: Params, g: Gateway, x: nat, last: int, gap: nat, n: nat) {
    x < |g.objs| && 0 < g.objs[x].polledAt <= g.clock && OnTime(p, g, x, g.objs[x].polledAt + p.pollMs, last, gap, n)
  }

  lemma FreshSoFar(p: Params, g: Gateway, x: nat, last: int, gap: nat, n: nat)
    requires KeptFresh(p, g, x, last, gap, n)
    ensures last <= g.clock <= last + gap <= g.objs[x].polledAt + p.pollMs + Wait(n, gap)
  {
    hide OnTime, Wait;
    OnTimeSoFar(p, g, x, g.objs[x].polledAt + p.pollMs, last, gap, n);
  }

  /** A stream that is polled on time is too fresh for any sweep. */
  lemma FreshSurvives(p: Params, g: Gateway, now: int, e: Event, x: nat, last: int, gap: nat, n: nat)
    requires Core(p, g) && Enabled(p, g, now, e)
    requires KeptFresh(p, g, x, last, gap, n) && now <= last + gap && Wait(n, gap) < p.pollMs
    ensures x in Step(p, g, now, e).live
  {
    hide Core, Step, Enabled, KeptFresh, Wait;
    FreshSoFar(p, g, x, last, gap, n);
    FreshThere(p, g, x, last, gap, n);
    LeavesExactly(p, g, now, e, x);
  }

  lemma JustPolled(p: Params, g: Gateway, x: nat, last: int, gap: nat, n: nat)
    requires x in g.live && x < |g.objs| && 0 < g.objs[x].polledAt == g.clock
    requires last <= g.clock <= last + gap && |Ahead(g.live, x)| <= n
    ensures KeptFresh(p, g, x, last, gap, n)
  {
    hide Ahead, TicksLeft, Wait;
  }

  lemma FreshStep(p: Params, g: Gateway, now: int, e: Event, x: nat, last: int, gap: nat, n: nat)
    requires Inv(p, g) && Enabled(p, g, now, e) && p.mode != TunnelMode
    requires KeptFresh(p, g, x, last, gap, n) && now <= last + gap && Wait(n, gap) < p.pollMs
    ensures KeptFresh(p, Step(p, g, now, e), x, LastTick(last, (now, e)), gap, n)
  {
    hide Inv, Core, Step, Enabled, Ahead, OnTime, Wait;
    InvCore(p, g);
    ClockIsNow(p, g, now, e);
    PolledLater(p, g, now, e, x);
    FreshSoFar(p, g, x, last, gap, n);
    FreshSurvives(p, g, now, e, x, last, gap, n);
    OnTimeStep(p, g, now, e, x, g.objs[x].polledAt + p.pollMs, last, gap, n);
    var g' := Step(p, g, now, e);
    if g'.objs[x].polledAt == now { JustPolled(p, g', x, LastTick(last, (now, e)), gap, n); }
  }

  lemma InvCore(p: Params, g: Gateway)
    requires Inv(p, g)
    ensures Core(p, g)
  {
    hide Core, TickInv;
  }

  lemma FreshThere(p: Params, g: Gateway, x: nat, last: int, gap: nat, n: nat)
    requires KeptFresh(p, g, x, last, gap, n)
    ensures x in g.live && x < |g.objs|
  {
    hide Ahead, TicksLeft, Wait;
  }

  lemma {:induction false} FreshRun(p: Params, g: Gateway, evs: seq<Timed>, x: nat, last: int, gap: nat, n: nat)
    requires Inv(p, g) && Legal(p, g, evs) && p.mode != TunnelMode
    requires Paced(evs, last, gap) && Wait(n, gap) < p.pollMs && KeptFresh(p, g, x, last, gap, n)
    ensures var g' := After(p, g, evs);
            x in g'.live && x < |g'.objs| && g'.clock - g'.objs[x].polledAt <= p.pollMs + Wait(n, gap)
    decreases |evs|
  {
    FreshSoFar(p, g, x, last, gap, n);
    FreshThere(p, g, x, last, gap, n);
    if evs != [] {
      var (now, e) := evs[0];
      var g1 := Step(p, g, now, e);
      CoreStep(p, g, now, e);
      TickStep(p, g, now, e);
      hide Step, Enabled, Core, TickInv, KeptFresh, Wait;
      FreshStep(p, g, now, e, x, last, gap, n);
      FreshRun(p, g1, evs[1..], x, LastTick(last, evs[0]), gap, n);
    }
  }

  /**
   * How long ago the last poll can be: with ticks at most `gap` apart, however long the process runs, a
   * stream once polled stays in the map, and its last poll's request is never more than POLL_MS and
   * floor(n / 16) + 2 gaps ago, n being the number of streams ahead of it. (A poll that fails keeps the
   * configuration it had.)
   */
  lemma ConfigurationAgeBounded(p: Params, g: Gateway, evs: seq<Timed>, x: nat, last: int, gap: nat)
    requires Inv(p, g) && Legal(p, g, evs) && p.mode != TunnelMode && x in g.live
    requires x < |g.objs| && 0 < g.objs[x].polledAt <= g.clock <= g.objs[x].polledAt + p.pollMs
    requires last <= g.clock <= last + gap && Paced(evs, last, gap)
    requires Wait(|Ahead(g.live, x)|, gap) < p.pollMs
    ensures var g' := After(p, g, evs);
            && x in g'.live && x < |g'.objs|
            && g'.clock - g'.objs[x].polledAt <= p.pollMs + Wait(|Ahead(g.live, x)|, gap)
  {
    hide Inv, Legal, Paced, After, Ahead, Unserved, Wait;
    FreshRun(p, g, evs, x, last, gap, |Ahead(g.live, x)|);
  }
}
