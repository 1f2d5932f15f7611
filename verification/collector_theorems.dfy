/**
 * The collector's promises, over every run from boot, and where the code does
 * not keep them: the exact condition, and a run that shows it.
 */
module CollectorTheorems {
  import opened Distinctness
  import opened Wrappers
  import opened StreamModel
  import opened StreamLaws
  import opened GatewayModel
  import opened GatewayLaws
  import opened TickLaws
  import opened TimingLaws
  import opened ReachableRuns

  // ── never lose a line silently ────────────────────────────────────────────

  /** The messages a run hands to the collector. */
  function Handed(evs: seq<Timed>): nat {
    if evs == [] then 0
    else (if evs[0].1.Arrival? && evs[0].1.m.raw != "" then 1 else 0) + Handed(evs[1..])
  }

  lemma HandledStep(p: Params, g0: Gateway, now: int, e: Event)
    requires Enabled(p, g0, now, e)
    ensures Step(p, g0, now, e).handled == g0.handled + Handed([(now, e)])
  {
    hide Select, StartAll, ReportAll, Ended;
    var g := g0.(clock := now);
    assert Handed([(now, e)][1..]) == 0;
    match e
    case TickPosts =>
      var group := First(POSTS_AT_ONCE, g.tick.rest);
      StartAllHandled(p, g.(tick := g.tick.(rest := g.tick.rest[|group|..])), now, group, true);
    case Signalled => StartAllHandled(p, g, now, g.live, false);
    case DropsReported => ReportAllHandled(p, g, g.live);
    case _ =>
  }

  lemma {:induction false} StartAllHandled(p: Params, g: Gateway, now: int, ids: seq<nat>, byTick: bool)
    requires InRange(ids, g)
    ensures StartAll(p, g, now, ids, byTick).handled == g.handled
  {
    if ids != [] { StartAllHandled(p, g, now, ids[..|ids|-1], byTick); }
  }

  lemma {:induction false} ReportAllHandled(p: Params, g: Gateway, ids: seq<nat>)
    requires InRange(ids, g)
    ensures ReportAll(p, g, ids).handled == g.handled
  {
    if ids != [] { ReportAllHandled(p, g, ids[..|ids|-1]); }
  }

  lemma {:induction false} HandledRun(p: Params, g: Gateway, evs: seq<Timed>)
    requires Legal(p, g, evs)
    ensures After(p, g, evs).handled == g.handled + Handed(evs)
    decreases |evs|
  {
    if evs != [] {
      HandledStep(p, g, evs[0].0, evs[0].1);
      hide Step, Enabled;
      assert Handed([evs[0]][1..]) == 0;
      HandledRun(p, Step(p, g, evs[0].0, evs[0].1), evs[1..]);
    }
  }

  /**
   * Every message of every run is in exactly one count: nobody's, past the cap, refused at the
   * door, or a line some stream received. And the counters the process keeps are those counts,
   * less what it has already told the operator.
   */
  lemma EveryMessageAccounted(p: Params, t: int, boot: PollReply, evs: seq<Timed>)
    requires Legal(p, Boot(p, t, boot), evs)
    ensures var g := After(p, Boot(p, t, boot), evs);
            && Handed(evs) == g.allUnattributed + g.allRefused + g.allDoor + AllMessages(g.objs)
            && g.unattributed == g.allUnattributed - g.toldUnattributed
            && g.refusedTenants == g.allRefused - g.toldRefused
            && g.badKeyDrops == g.allDoor + AllCleared(g.objs) - g.toldBadKey
  {
    BootInv(p, t, boot);
    HandledRun(p, Boot(p, t, boot), evs);
    RunInv(p, Boot(p, t, boot), evs);
    hide Frame, TickInv, Legal, After;
  }

  /** And every line a stream received is in one place: shipped, held, dropped and counted, cleared, or lost. */
  lemma EveryLineAccounted(p: Params, t: int, boot: PollReply, evs: seq<Timed>, x: nat)
    requires Legal(p, Boot(p, t, boot), evs) && x < |After(p, Boot(p, t, boot), evs).objs|
    ensures var s := After(p, Boot(p, t, boot), evs).objs[x];
            && s.received == s.shipped + |s.queue| + |s.batch| +
                             s.dropped + ReportedDrops(s.arrived) + |s.cleared| + |s.lost|
            && (forall it :: it in s.acked || it in s.batch || it in s.queue ==> it in s.arrived)
  {
    BootInv(p, t, boot);
    RunInv(p, Boot(p, t, boot), evs);
    hide Legal, After, Boot, TickInv, Shape, Retired, Posts, Balance;
    var g := After(p, Boot(p, t, boot), evs);
    var s := g.objs[x];
    assert StreamInv(p, s, g.nextId);
    CountersBalance(s);
    forall it | it in s.acked || it in s.batch || it in s.queue
      ensures it in s.arrived
    {
      HeldLinesArrived(s, it);
    }
  }

  /** In any run, what is acknowledged, then in flight, then queued is in order of arrival, nothing twice. */
  lemma OrderHolds(p: Params, t: int, boot: PollReply, evs: seq<Timed>, x: nat, i: nat, j: nat)
    requires Legal(p, Boot(p, t, boot), evs) && x < |After(p, Boot(p, t, boot), evs).objs|
    requires var s := After(p, Boot(p, t, boot), evs).objs[x];
             i < j < |s.acked + s.batch + s.queue|
    ensures var s := After(p, Boot(p, t, boot), evs).objs[x];
            (s.acked + s.batch + s.queue)[i].id < (s.acked + s.batch + s.queue)[j].id
  {
    BootInv(p, t, boot);
    RunInv(p, Boot(p, t, boot), evs);
    hide Legal, After, Boot, TickInv, Shape, Retired, Posts, Balance;
    var g := After(p, Boot(p, t, boot), evs);
    assert StreamInv(p, g.objs[x], g.nextId);
  }

  // ── tenants ───────────────────────────────────────────────────────────────

  /**
   * Tenant isolation over whole runs: every POST ever made carries, under one tenant's claim, only
   * lines whose own message named that tenant (or that stream's own drop reports), each exactly as
   * it arrived but for the prefix in force when the POST began, put on once.
   */
  lemma TenantsIsolated(p: Params, g: Gateway, k: nat, i: nat)
    requires Reachable(p, g) && k < |g.posts| && i < |g.posts[k].items|
    ensures var q := g.posts[k];
            && q.sid < |g.objs| && |q.logs| == |q.items|
            && q.claim == ClaimFor(p, q.items[i].origin)
            && q.items[i] in g.objs[q.sid].arrived
            && q.logs[i].device == q.prefix + q.items[i].entry.device
            && q.logs[i].line == q.items[i].entry.line && q.logs[i].sev == q.items[i].entry.sev
  {
    ReachableInv(p, g);
    hide Reachable, Streams, Shape, Retired, Balance, TickInv;
    assert PostSound(p, g, g.posts[k]);
  }

  /** A stream's configuration changes only when its own poll is answered with one, and then by what was sent. */
  lemma OnlyOwnPollConfigures(p: Params, g0: Gateway, now: int, e: Event, x: nat)
    requires Enabled(p, g0, now, e) && x < |g0.objs|
    ensures var g' := Step(p, g0, now, e);
            x < |g'.objs| &&
            var c, c' := g0.objs[x].cfg, g'.objs[x].cfg;
            if e.PollReturns? && e.answer.PollOk? && g0.tick.current == Some(x) then
              var sent := e.answer.patch;
              && c'.devicePrefix == (if sent.devicePrefix.Some? then sent.devicePrefix.value else c.devicePrefix)
              && c'.enabled == (if sent.enabled.Some? then sent.enabled.value else c.enabled)
              && c'.batchMax == (if sent.batchMax.Some? then sent.batchMax.value else c.batchMax)
            else c' == c
  {
    hide Select, StartAll, ReportAll, Ended, OnMessage;
    var g := g0.(clock := now);
    match e
    case Arrival(m) => ArrivalConfigures(p, g, now, m, x);
    case DropsReported => ReportAllConfigures(p, g, g.live, x);
    case TickPosts =>
      var group := First(POSTS_AT_ONCE, g.tick.rest);
      StartAllFacts(p, g.(tick := g.tick.(rest := g.tick.rest[|group|..])), now, group, true);
    case Signalled => StartAllFacts(p, g, now, g.live, false);
    case PostReturns(sid, reply) => EndConfigures(p, g.objs[sid], reply, now);
    case _ =>
  }

  lemma EndConfigures(p: Params, s: Stream, reply: Reply, now: int)
    ensures Ended(p, s, reply, now).cfg == s.cfg
  {
  }

  lemma ArrivalConfigures(p: Params, g: Gateway, now: int, m: Message, x: nat)
    requires x < |g.objs|
    ensures var g' := OnMessage(p, g, now, m); x < |g'.objs| && g'.objs[x].cfg == g.objs[x].cfg
  {
    hide Attribution, Deliver, Admit;
    var who := Attribution(p, m);
    if m.raw != "" && who.Some? {
      var g1 := g.(handled := g.handled + 1);
      match Find(g.objs, g.live, who.value)
      case Some(sid) => DeliveryTouchesOne(p, g1, now, sid, who.value, m);
      case None => DeliveryTouchesOne(p, Create(g1, who.value), now, |g.objs|, who.value, m);
    }
  }

  lemma {:induction false} ReportAllConfigures(p: Params, g: Gateway, ids: seq<nat>, x: nat)
    requires InRange(ids, g) && x < |g.objs|
    ensures ReportAll(p, g, ids).objs[x].cfg == g.objs[x].cfg
  {
    if ids != [] { ReportAllConfigures(p, g, ids[..|ids|-1], x); }
  }

  /** At most one POST per tenant is in flight, across forgetting, re-creation and stale work lists. */
  lemma OnePostPerTenant(p: Params, g: Gateway, a: nat, b: nat)
    requires Reachable(p, g) && a < |g.objs| && b < |g.objs|
    requires g.objs[a].flushing && g.objs[b].flushing && g.objs[a].token == g.objs[b].token
    ensures a == b && a in g.live
  {
    ReachableInv(p, g);
    hide Reachable, Streams, Posts, Balance, TickInv;
  }

  /** At most eight POSTs are in flight, until a shutdown sends everything. */
  lemma EightAtOnce(p: Params, g: Gateway)
    requires Reachable(p, g) && !g.Draining() && !g.exited
    ensures |set i | 0 <= i < |g.objs| && g.objs[i].flushing| <= 8
  {
    ReachableInv(p, g);
    hide Reachable, Core;
    var flying := set i | 0 <= i < |g.objs| && g.objs[i].flushing;
    if g.tick.Shipping? {
      assert flying <= g.tick.waiting;
      SubsetSize(flying, g.tick.waiting);
    } else {
      assert flying == {};
    }
  }

  // ── refused keys ──────────────────────────────────────────────────────────

  /** No sequence of refusals ends a gateway: it ends when a shutdown was signalled, and only then. */
  lemma {:induction false} GatewayNeverExits(p: Params, g: Gateway, evs: seq<Timed>)
    requires Legal(p, g, evs) && p.mode == GatewayMode && (g.exited ==> g.Draining())
    ensures After(p, g, evs).exited ==> After(p, g, evs).Draining()
    decreases |evs|
  {
    hide Step, Enabled;
    if evs != [] {
      ExitsExactly(p, g, evs[0].0, evs[0].1);
      if evs[0].1.PassEnds? { PassEndsDraining(p, g, evs[0].0); }
      GatewayNeverExits(p, Step(p, g, evs[0].0, evs[0].1), evs[1..]);
    }
  }

  lemma PassEndsDraining(p: Params, g: Gateway, now: int)
    requires Enabled(p, g, now, PassEnds)
    ensures Step(p, g, now, PassEnds).Draining()
  {
  }

  /** A refused POST shuts its key out for BAD_KEY_MS: the stream that shipped is the one in the map. */
  lemma PostRefusalShuts(p: Params, g: Gateway, now: int, x: nat, code: nat)
    requires Inv(p, g) && Enabled(p, g, now, PostReturns(x, Status(code)))
    requires p.mode == GatewayMode && (code == 401 || code == 403)
    ensures var g' := Step(p, g, now, PostReturns(x, Status(code)));
            Shut(p, g', x, now + p.badKeyMs) && !g'.objs[x].flushing && g'.objs[x].queue == []
  {
    hide Streams, Posts, Balance, Shape;
  }

  /** So does a refused poll, before a shutdown, if the stream object polled is still the one in the map. */
  lemma PollRefusalShuts(p: Params, g: Gateway, now: int)
    requires Inv(p, g) && Enabled(p, g, now, PollReturns(PollRefused)) && p.mode == GatewayMode && !g.Draining()
    requires g.tick.current.value in g.live
    ensures var x, g' := g.tick.current.value, Step(p, g, now, PollReturns(PollRefused));
            Shut(p, g', x, now + p.badKeyMs) && !g'.objs[x].flushing && g'.objs[x].queue == [] && !g'.exited
  {
    hide Streams, Posts, Balance, Retired;
  }

  /** ...and then the key stays shut out over any run until the refusal runs out. */
  lemma RefusedPollHolds(p: Params, g: Gateway, now: int, evs: seq<Timed>)
    requires Inv(p, g) && Enabled(p, g, now, PollReturns(PollRefused)) && p.mode == GatewayMode
    requires g.tick.current.value in g.live && Before(evs, now + p.badKeyMs)
    requires var g1 := Step(p, g, now, PollReturns(PollRefused)); Legal(p, g1, evs) && !After(p, g1, evs).Draining()
    ensures var x, g1 := g.tick.current.value, Step(p, g, now, PollReturns(PollRefused));
            var g' := After(p, g1, evs);
            && Shut(p, g', x, now + p.badKeyMs) && NothingQueued(g1, g', x) && !g'.exited
            && g1.posts <= g'.posts
            && forall k :: |g1.posts| <= k < |g'.posts| ==> g'.posts[k].claim != Bearer(g1.objs[x].token)
  {
    var g1 := Step(p, g, now, PollReturns(PollRefused));
    CoreStep(p, g, now, PollReturns(PollRefused));
    TickStep(p, g, now, PollReturns(PollRefused));
    if g.Draining() { StepDraining(p, g, now, PollReturns(PollRefused)); }
    if g1.Draining() { DrainingStays(p, g1, evs); }
    PollRefusalShuts(p, g, now);
    hide Step, Enabled, Core, TickInv, After, Legal;
    RefusalHolds(p, g1, evs, g.tick.current.value, now + p.badKeyMs);
  }

  /** The token's door is shut: the stream a message for it would find refuses it until then. */
  ghost predicate DoorShut(g: Gateway, token: string, until: int) {
    match Find(g.objs, g.live, token)
    case Some(sid) => g.objs[sid].badUntil >= until
    case None => false
  }

  /**
   * A refused poll shuts its token out exactly when the stream object polled is still the one in
   * the map. (The only other way the door can be shut that long is the map's own stream for that
   * token having been refused at this very moment.)
   */
  lemma PollRefusalShutsExactly(p: Params, g: Gateway, now: int)
    requires Inv(p, g) && Enabled(p, g, now, PollReturns(PollRefused)) && p.mode == GatewayMode
    requires !DoorShut(g, g.objs[g.tick.current.value].token, now + p.badKeyMs)
    ensures var x := g.tick.current.value;
            DoorShut(Step(p, g, now, PollReturns(PollRefused)), g.objs[x].token, now + p.badKeyMs) <==> x in g.live
  {
    hide Streams, Posts, Balance, Retired, TickSound, OnlyTickShips;
    var x := g.tick.current.value;
    var g' := Step(p, g, now, PollReturns(PollRefused));
    var found, found' := Find(g.objs, g.live, g.objs[x].token), Find(g'.objs, g'.live, g.objs[x].token);
    assert forall i :: 0 <= i < |g.objs| ==> g'.objs[i].token == g.objs[i].token;
  }

  // The run that shows it: two tenants are polled and shipped; at their next polls, while the first
  // is being polled, the sweep forgets the second, and the second's own poll is refused.

  /** Two streams that could ship one line each, and the scheduler at rest. */
  predicate Pair(g: Gateway, t: int) {
    && !g.exited && g.clock == t && g.live == [0, 1] && |g.objs| == 2
    && forall i :: 0 <= i < 2 ==> CanFlush(g.objs[i]) && |g.objs[i].queue| == 1 && g.objs[i].cfg == DEFAULT_CFG &&
                                  g.objs[i].retryAt == 0 && g.objs[i].badUntil == 0
  }

  lemma TwoArrive(p: Params) returns (g: Gateway)
    requires p.mode == GatewayMode && p.maxTenants >= 2
    ensures Reachable(p, g) && Pair(g, 1) && g.tick == Idle
    ensures g.objs[0].token == TOKEN_A && g.objs[1].token == TOKEN_B
    ensures g.objs[0].polledAt == g.objs[1].polledAt == 0
  {
    hide Reachable, Attribution, StartAll, ReportAll, FinishFlush, PollDone, TickGroup, SweepIdle, TickReady;
    BothAreHeard(p);
    ReachBoot(p, 1, PollNotOk);
    var b := OneMoreTenant(p, Boot(p, 1, PollNotOk), 1, TOKEN_A);
    g := OneMoreTenant(p, b, 1, TOKEN_B);
  }

  /** A tick begins with both due: the first's poll is out, the second's comes next. */
  lemma FirstOfTwoPolls(p: Params, t: int, g: Gateway) returns (g': Gateway)
    requires p.mode == GatewayMode && Reachable(p, g) && !g.exited && g.clock <= t
    requires g.live == [0, 1] && |g.objs| == 2 && g.tick == Idle
    requires forall i :: 0 <= i < 2 ==> IsDue(p, g.objs[i], t)
    ensures Reachable(p, g')
    ensures g' == g.(clock := t, objs := [g.objs[0].(polledAt := t), g.objs[1]], tick := Polling(t, [1], Some(0)))
  {
    hide Reachable, Select, StartAll, ReportAll, OnMessage, FinishFlush, PollDone, TickGroup;
    PairUnfolds(p, g, t);
    ReachStep(p, g, t, TickStarts);
    var g1 := Step(p, g, t, TickStarts);
    assert g1.tick == Polling(t, [0, 1], None);
    ReachStep(p, g1, t, PollSends);
    g' := Step(p, g1, t, PollSends);
    assert [0, 1][1..] == [1];
  }

  /** The first's poll comes back, and the second's goes out. */
  lemma SecondOfTwoPolls(p: Params, t: int, g: Gateway) returns (g': Gateway)
    requires Reachable(p, g) && !g.exited && g.clock == t && |g.objs| == 2 && InRange(g.live, g)
    requires g.tick == Polling(t, [1], Some(0))
    ensures Reachable(p, g') && g' == g.(objs := [g.objs[0], g.objs[1].(polledAt := t)], tick := Polling(t, [], Some(1)))
  {
    hide Reachable, Select, StartAll, ReportAll, OnMessage, FinishFlush, TickGroup;
    ReachStep(p, g, t, PollReturns(PollNotOk));
    var g1 := Step(p, g, t, PollReturns(PollNotOk));
    ReachStep(p, g1, t, PollSends);
    g' := Step(p, g1, t, PollSends);
    assert [1][1..] == [];
  }

  lemma TwoShipped(p: Params, t: int, g: Gateway) returns (g': Gateway)
    requires p.mode == GatewayMode && Reachable(p, g) && Pair(g, t) && g.tick == Shipping(t, [0, 1], {})
    ensures Reachable(p, g') && !g'.exited && g'.clock == t && g'.live == [0, 1] && |g'.objs| == 2 && g'.tick == Idle
    ensures forall i :: 0 <= i < 2 ==>
              && g'.objs[i].token == g.objs[i].token && g'.objs[i].queue == [] && !g'.objs[i].flushing
              && g'.objs[i].polledAt == g.objs[i].polledAt && g'.objs[i].badUntil == 0
  {
    hide Reachable, Select, StartAll, ReportAll, OnMessage, PollDone, TickGroup, SweepIdle;
    var g1 := TwoPosted(p, t, g);
    ReachStep(p, g1, t, PostReturns(0, Status(200)));
    var g2 := Step(p, g1, t, PostReturns(0, Status(200)));
    assert g2.tick == Shipping(t, [], {1});
    ReachStep(p, g2, t, PostReturns(1, Status(200)));
    var g3 := Step(p, g2, t, PostReturns(1, Status(200)));
    assert g3.tick == Shipping(t, [], {});
    ReachStep(p, g3, t, TickEnds);
    g' := Step(p, g3, t, TickEnds);
  }

  /** Two tenants made, polled and shipped, and nothing left to do. */
  lemma TwoAtRest(p: Params) returns (g: Gateway)
    requires p.mode == GatewayMode && p.maxTenants >= 2
    ensures Reachable(p, g) && !g.exited && g.clock == 1 && g.live == [0, 1] && |g.objs| == 2 && g.tick == Idle
    ensures g.objs[0].token != g.objs[1].token
    ensures forall i :: 0 <= i < 2 ==> g.objs[i].queue == [] && !g.objs[i].flushing &&
                                       g.objs[i].polledAt == 1 && g.objs[i].badUntil == 0
  {
    hide Reachable;
    BothAreHeard(p);
    var h := TwoArrive(p);
    var h1 := FirstOfTwoPolls(p, 1, h);
    var h2 := SecondOfTwoPolls(p, 1, h1);
    var h3 := TwoRanked(p, 1, h2, 1);
    g := TwoShipped(p, 1, h3);
  }

  /** The sweep takes the second while the first is polled. */
  lemma SweptWhilePolling(p: Params, t: int, g: Gateway) returns (g': Gateway)
    requires p.mode == GatewayMode && t == 600001 + 2 * p.pollMs
    requires Reachable(p, g) && !g.exited && g.clock == t && g.live == [0, 1] && |g.objs| == 2
    requires g.tick == Polling(t, [1], Some(0))
    requires g.objs[0].polledAt == t && g.objs[1].polledAt == 1
    requires g.objs[1].queue == [] && !g.objs[1].flushing && g.objs[1].badUntil == 0
    ensures Reachable(p, g') && g' == g.(live := [0])
  {
    hide Reachable, Select, StartAll, ReportAll, OnMessage, FinishFlush, PollDone, TickGroup;
    PairUnfolds(p, g, t);
    ReachStep(p, g, t, IdleSwept);
    g' := Step(p, g, t, IdleSwept);
  }

  /** A refusal can fall on a stream object the map no longer has, and then nothing remembers it. */
  lemma RefusalCanBeForgotten(p: Params)
    requires p.mode == GatewayMode && p.maxTenants >= 2
    ensures exists g, now :: Reachable(p, g) && Enabled(p, g, now, PollReturns(PollRefused)) &&
              var x := g.tick.current.value;
              !DoorShut(Step(p, g, now, PollReturns(PollRefused)), g.objs[x].token, now + 1)
  {
    hide Reachable, Select, StartAll, ReportAll, OnMessage, FinishFlush, TickGroup;
    var t := 600001 + 2 * p.pollMs;
    var g := TwoAtRest(p);
    var g1 := FirstOfTwoPolls(p, t, g);
    var g2 := SweptWhilePolling(p, t, g1);
    var g3 := SecondOfTwoPolls(p, t, g2);
    var g4 := Step(p, g3, t, PollReturns(PollRefused));
    assert Find(g4.objs, [0], g3.objs[1].token).None?;
    assert !DoorShut(g4, g3.objs[1].token, t + 1);
  }
}
