/**
 * When a stream may ship. A stream whose backoff or whose refusal has not run
 * out is left alone by the scheduler, and a refused key stays shut out until its
 * time is up, whatever else happens in between.
 */
module TimingLaws {
  import opened Numbers
  import opened Wrappers
  import opened StreamModel
  import opened StreamLaws
  import opened GatewayModel
  import opened GatewayLaws
  import opened TickLaws

  // ── what one step can do to one stream ────────────────────────────────────

  /** A stream that is not shipping keeps its retry time, and can only be refused again. */
  ghost predicate Steady(p: Params, now: int, s: Stream, s': Stream) {
    && s'.token == s.token
    && s'.retryAt == s.retryAt
    && (s'.badUntil == s.badUntil || s'.badUntil == now + p.badKeyMs)
  }

  lemma OnMessageSteady(p: Params, g: Gateway, now: int, m: Message, x: nat)
    requires x < |g.objs|
    ensures var g' := OnMessage(p, g, now, m);
            |g.objs| <= |g'.objs| && Steady(p, now, g.objs[x], g'.objs[x]) && g'.posts == g.posts
  {
    hide Attribution, Route;
    var who := Attribution(p, m);
    if m.raw != "" && who.Some? { RouteSteady(p, g.(handled := g.handled + 1), now, who.value, m, x); }
  }

  lemma RouteSteady(p: Params, g: Gateway, now: int, who: string, m: Message, x: nat)
    requires x < |g.objs|
    ensures var g' := Route(p, g, now, who, m);
            |g.objs| <= |g'.objs| && Steady(p, now, g.objs[x], g'.objs[x]) && g'.posts == g.posts
  {
    hide Admit, Deliver;
    match Find(g.objs, g.live, who)
    case Some(sid) => DeliveryTouchesOne(p, g, now, sid, who, m);
    case None => DeliveryTouchesOne(p, Create(g, who), now, |g.objs|, who, m);
  }

  lemma {:induction false} ReportAllSteady(p: Params, g: Gateway, ids: seq<nat>, now: int, x: nat)
    requires InRange(ids, g) && x < |g.objs|
    ensures var g' := ReportAll(p, g, ids);
            && Steady(p, now, g.objs[x], g'.objs[x])
            && g'.posts == g.posts && g'.live == g.live
  {
    if ids != [] {
      ReportAllSteady(p, g, ids[..|ids|-1], now, x);
    }
  }

  /** What one `flush` adds to the requests: nothing, or one of this stream, at this moment. */
  lemma OneFlushPosts(p: Params, g: Gateway, now: int, sid: nat, byTick: bool)
    requires sid < |g.objs|
    ensures var g', s := StartFlush(p, g, now, sid, byTick), g.objs[sid];
            g'.posts == if CanFlush(s) then g.posts + [PostOf(p, s, sid, now, byTick)] else g.posts
    ensures var q := PostOf(p, g.objs[sid], sid, now, byTick); q.at == now && q.byTick == byTick && q.sid == sid
  {
    hide Begun;
  }

  /** The POSTs a pass starts: each from a stream of the pass that could ship, at this moment. */
  lemma {:induction false} StartAllPosts(p: Params, g: Gateway, now: int, ids: seq<nat>, byTick: bool)
    requires InRange(ids, g)
    ensures var g' := StartAll(p, g, now, ids, byTick);
            && g.posts <= g'.posts
            && (forall k :: |g.posts| <= k < |g'.posts| ==>
                  var q := g'.posts[k];
                  q.at == now && q.byTick == byTick && q.sid in ids && q.sid < |g.objs| && CanFlush(g.objs[q.sid]))
  {
    hide StartFlush, PostOf;
    if ids != [] {
      var n := |ids| - 1;
      var before := StartAll(p, g, now, ids[..n], byTick);
      StartAllPosts(p, g, now, ids[..n], byTick);
      StartAllFacts(p, g, now, ids[..n], byTick);
      OneFlushPosts(p, before, now, ids[n], byTick);
      assert CanFlush(before.objs[ids[n]]) ==> CanFlush(g.objs[ids[n]]);
      assert ids == ids[..n] + [ids[n]];
    }
  }

  /** What a POST takes: the front of its stream's queue as it was, as much as its configuration allows, under its prefix. */
  ghost predicate FrontOf(p: Params, s: Stream, q: Post) {
    && |q.items| == Min(if s.cfg.batchMax == 0 then 500 else if s.cfg.batchMax < 0 then 0 else s.cfg.batchMax, |s.queue|)
    && q.items <= s.queue
    && q.prefix == s.cfg.devicePrefix && s.cfg.enabled && !s.flushing
    && q.claim == (if p.mode == TunnelMode then SourceIp(p.tunnelKey, s.token) else Bearer(s.token))
    && q.logs == Prefixed(q.prefix, q.items)
  }

  lemma {:induction false} StartAllFronts(p: Params, g: Gateway, now: int, ids: seq<nat>, byTick: bool, k: nat)
    requires InRange(ids, g) && |g.posts| <= k < |StartAll(p, g, now, ids, byTick).posts|
    ensures var q := StartAll(p, g, now, ids, byTick).posts[k];
            q.sid < |g.objs| && FrontOf(p, g.objs[q.sid], q)
  {
    hide StartFlush, FrontOf;
    var n := |ids| - 1;
    var before := StartAll(p, g, now, ids[..n], byTick);
    StartAllFacts(p, g, now, ids[..n], byTick);
    StartAllPosts(p, g, now, ids[..n], byTick);
    OneFlushPosts(p, before, now, ids[n], byTick);
    if k < |before.posts| {
      StartAllFronts(p, g, now, ids[..n], byTick, k);
    } else {
      PostOfFront(p, before.objs[ids[n]], ids[n], now, byTick);
    }
  }

  lemma PostOfFront(p: Params, s: Stream, sid: nat, now: int, byTick: bool)
    ensures CanFlush(s) ==> FrontOf(p, s, PostOf(p, s, sid, now, byTick))
    ensures PostOf(p, s, sid, now, byTick).sid == sid
  {
  }

  /** Every POST a step starts takes the front of its stream's queue, under the prefix and the limit in force at that moment. */
  lemma PostsTakeFronts(p: Params, g0: Gateway, now: int, e: Event, k: nat)
    requires Enabled(p, g0, now, e) && |g0.posts| <= k < |Step(p, g0, now, e).posts|
    ensures var q := Step(p, g0, now, e).posts[k]; q.sid < |g0.objs| && FrontOf(p, g0.objs[q.sid], q)
  {
    hide Ended, Select, StartAll, OnMessage, ReportAll, FrontOf;
    var g := g0.(clock := now);
    match e
    case Arrival(m) => ArrivalPosts(p, g, now, m);
    case DropsReported => ReportAllPosts(p, g, g.live);
    case TickPosts =>
      var group := First(POSTS_AT_ONCE, g.tick.rest);
      StartAllFronts(p, g.(tick := g.tick.(rest := g.tick.rest[|group|..])), now, group, true, k);
    case Signalled => StartAllFronts(p, g, now, g.live, false, k);
    case _ =>
  }

  /** Every POST of a step before a shutdown is a tick's, of a stream that was ready. */
  lemma PostsAreReady(p: Params, g0: Gateway, now: int, e: Event)
    requires Inv(p, g0) && Enabled(p, g0, now, e)
    requires !Step(p, g0, now, e).Draining()
    ensures var g' := Step(p, g0, now, e);
            && g0.posts <= g'.posts
            && forall k :: |g0.posts| <= k < |g'.posts| ==>
                 var q := g'.posts[k];
                 && q.byTick && q.at == now && q.sid < |g0.objs|
                 && CanFlush(g0.objs[q.sid])
                 && g0.objs[q.sid].retryAt <= now && g0.objs[q.sid].badUntil <= now
  {
    hide Core, Ended, Select, StartAll;
    var g := g0.(clock := now);
    match e
    case Arrival(m) => ArrivalPosts(p, g, now, m);
    case DropsReported => ReportAllPosts(p, g, g.live);
    case TickPosts =>
      var group := First(POSTS_AT_ONCE, g.tick.rest);
      var g1 := g.(tick := g.tick.(rest := g.tick.rest[|group|..]));
      StartAllPosts(p, g1, now, group, true);
      StartAllFacts(p, g1, now, group, true);
      assert forall i :: 0 <= i < |group| ==> IsReady(g0.objs[g0.tick.rest[i]], g0.tick.t);
    case _ =>
  }

  lemma ArrivalPosts(p: Params, g: Gateway, now: int, m: Message)
    ensures OnMessage(p, g, now, m).posts == g.posts
    ensures OnMessage(p, g, now, m).passes == g.passes
  {
    hide Attribution, Route;
    if m.raw != "" && Attribution(p, m).Some? {
      RoutePosts(p, g.(handled := g.handled + 1), now, Attribution(p, m).value, m);
    }
  }

  lemma RoutePosts(p: Params, g: Gateway, now: int, who: string, m: Message)
    ensures Route(p, g, now, who, m).posts == g.posts && Route(p, g, now, who, m).passes == g.passes
  {
    hide Deliver, Admit;
    match Find(g.objs, g.live, who)
    case Some(sid) => DeliveryTouchesOne(p, g, now, sid, who, m);
    case None => DeliveryTouchesOne(p, Create(g, who), now, |g.objs|, who, m);
  }

  lemma {:induction false} ReportAllPosts(p: Params, g: Gateway, ids: seq<nat>)
    requires InRange(ids, g)
    ensures ReportAll(p, g, ids).posts == g.posts && ReportAll(p, g, ids).passes == g.passes
  {
    if ids != [] { ReportAllPosts(p, g, ids[..|ids|-1]); }
  }

  // ── held back ─────────────────────────────────────────────────────────────

  /** Not shipping, and its backoff or its refusal runs at least until then. */
  ghost predicate Waits(p: Params, g: Gateway, x: nat, until: int) {
    && x < |g.objs| && !g.objs[x].flushing
    && (g.objs[x].retryAt >= until || (g.objs[x].badUntil >= until && until <= g.clock + p.badKeyMs))
  }

  lemma WaitStep(p: Params, g0: Gateway, now: int, e: Event, x: nat, until: int)
    requires Inv(p, g0) && Enabled(p, g0, now, e) && Waits(p, g0, x, until)
    requires now < until && !Step(p, g0, now, e).Draining()
    ensures var g' := Step(p, g0, now, e);
            && g'.clock == now
            && Waits(p, g', x, until)
            && g0.posts <= g'.posts
            && forall k :: |g0.posts| <= k < |g'.posts| ==> g'.posts[k].sid != x
  {
    hide Core, Ended, Select, StartAll, OnMessage, ReportAll;
    PostsAreReady(p, g0, now, e);
    var g := g0.(clock := now);
    match e
    case Arrival(m) => OnMessageSteady(p, g, now, m, x); ArrivalTiming(p, g, now, m);
    case DropsReported => ReportAllSteady(p, g, g.live, now, x); ReportAllTiming(p, g, g.live);
    case TickPosts =>
      var group := First(POSTS_AT_ONCE, g.tick.rest);
      StartAllFacts(p, g.(tick := g.tick.(rest := g.tick.rest[|group|..])), now, group, true);
      assert forall i :: 0 <= i < |group| ==> IsReady(g0.objs[g0.tick.rest[i]], g0.tick.t);
    case Signalled => StartAllFacts(p, g, now, g.live, false);
    case _ =>
  }

  /** All the run's steps happen before `until`. */
  ghost predicate Before(evs: seq<Timed>, until: int) {
    forall i :: 0 <= i < |evs| ==> evs[i].0 < until
  }

  lemma {:induction false} DrainingStays(p: Params, g: Gateway, evs: seq<Timed>)
    requires Legal(p, g, evs) && g.Draining()
    ensures After(p, g, evs).Draining()
    decreases |evs|
  {
    if evs != [] {
      StepDraining(p, g, evs[0].0, evs[0].1);
      DrainingStays(p, Step(p, g, evs[0].0, evs[0].1), evs[1..]);
    }
  }

  lemma StepDraining(p: Params, g0: Gateway, now: int, e: Event)
    requires Enabled(p, g0, now, e) && g0.Draining()
    ensures Step(p, g0, now, e).Draining()
  {
    hide StartAll, OnMessage, ReportAll, Ended, Select;
    var g := g0.(clock := now);
    match e
    case Arrival(m) => ArrivalPosts(p, g, now, m);
    case DropsReported => ReportAllPosts(p, g, g.live);
    case TickPosts =>
      var group := First(POSTS_AT_ONCE, g.tick.rest);
      StartAllFacts(p, g.(tick := g.tick.(rest := g.tick.rest[|group|..])), now, group, true);
    case _ =>
  }

  /**
   * Backoff spacing over any run: after a failure that set `retryAt`, or a refusal that set
   * `badUntil`, no POST of that stream starts before that time, until a shutdown is signalled.
   */
  lemma {:induction false} NoPostBefore(p: Params, g: Gateway, evs: seq<Timed>, x: nat, until: int)
    requires Inv(p, g) && Legal(p, g, evs) && Before(evs, until) && Waits(p, g, x, until)
    requires !After(p, g, evs).Draining()
    ensures var g' := After(p, g, evs);
            && Waits(p, g', x, until)
            && g.posts <= g'.posts
            && forall k :: |g.posts| <= k < |g'.posts| ==> g'.posts[k].sid != x
    decreases |evs|
  {
    hide Core, TickInv, Step, Enabled;
    if evs != [] {
      var g1 := Step(p, g, evs[0].0, evs[0].1);
      if g1.Draining() { DrainingStays(p, g1, evs[1..]); }
      CoreStep(p, g, evs[0].0, evs[0].1);
      TickStep(p, g, evs[0].0, evs[0].1);
      WaitStep(p, g, evs[0].0, evs[0].1, x, until);
      assert Before(evs[1..], until);
      NoPostBefore(p, g1, evs[1..], x, until);
    }
  }

  /** What a retriable failure at `now` sets: the closed form of the delay, counted from the failure. */
  lemma FailureWaits(p: Params, g: Gateway, now: int, x: nat, reply: Reply)
    requires Inv(p, g) && Enabled(p, g, now, PostReturns(x, reply))
    requires reply.Threw? || reply.code == 429 || reply.code >= 500 || (p.mode == TunnelMode && reply.code == 403)
    ensures var g' := Step(p, g, now, PostReturns(x, reply));
            var s := g'.objs[x];
            && s.fails == g.objs[x].fails + 1
            && s.backoffMs == Min(s.base * Pow2(s.fails - 1), 60000)
            && (s.base == 1000 || (s.base == 5000 && p.mode == TunnelMode))
            && Waits(p, g', x, now + s.backoffMs)
  {
    hide Placed, Counted;
    CoreStep(p, g, now, PostReturns(x, reply));
    var g' := Step(p, g, now, PostReturns(x, reply));
    assert StreamInv(p, g'.objs[x], g'.nextId);
    FormOf(p, g'.objs[x], g'.nextId);
  }

  lemma FormOf(p: Params, s: Stream, next: nat)
    requires StreamInv(p, s, next)
    ensures BackoffForm(p, s)
  {
  }

  // ── the negative cache ────────────────────────────────────────────────────

  /** The key of stream x is refused until then, and the map still knows it. */
  ghost predicate Shut(p: Params, g: Gateway, x: nat, until: int) {
    && x in g.live && x < |g.objs|
    && g.objs[x].badUntil >= until && until <= g.clock + p.badKeyMs
  }

  /** Nothing a device sends for that key has been queued in between, under any stream object. */
  ghost predicate NothingQueued(g: Gateway, g': Gateway, x: nat) {
    && x < |g.objs| <= |g'.objs|
    && (forall i :: 0 <= i < |g.objs| ==>
          && g'.objs[i].token == g.objs[i].token
          && (g.objs[i].token == g.objs[x].token ==> Messages(g'.objs[i]) == Messages(g.objs[i])))
    && (forall i :: |g.objs| <= i < |g'.objs| ==> g'.objs[i].token != g.objs[x].token)
  }

  lemma NothingQueuedChain(g: Gateway, g1: Gateway, g': Gateway, x: nat)
    requires NothingQueued(g, g1, x) && NothingQueued(g1, g', x)
    ensures NothingQueued(g, g', x)
  {
  }

  lemma ShutArrival(p: Params, g: Gateway, now: int, m: Message, x: nat, until: int)
    requires Shape(p, g) && Shut(p, g, x, until) && now < until && p.mode != CollectorMode
    ensures NothingQueued(g, OnMessage(p, g, now, m), x)
    ensures x in OnMessage(p, g, now, m).live
  {
    hide Streams, Retired, Posts, Attribution, Route;
    if m.raw != "" && Attribution(p, m).Some? {
      var who := Attribution(p, m).value;
      if who == g.objs[x].token {
        RouteShut(p, g.(handled := g.handled + 1), now, who, m, x, until);
      } else {
        RouteElsewhere(p, g.(handled := g.handled + 1), now, who, m, x);
      }
    }
  }

  /** A message for a refused key goes no further than the door. */
  lemma RouteShut(p: Params, g: Gateway, now: int, who: string, m: Message, x: nat, until: int)
    requires Shape(p, g) && Shut(p, g, x, until) && now < until && p.mode != CollectorMode
    requires who == g.objs[x].token
    ensures var g' := Route(p, g, now, who, m); g'.objs == g.objs && g'.live == g.live
  {
    hide Enqueued;
    assert Find(g.objs, g.live, who) == Some(x);
  }

  /** A message for one token leaves the streams of every other token alone. */
  lemma RouteElsewhere(p: Params, g: Gateway, now: int, who: string, m: Message, x: nat)
    requires x < |g.objs| && g.objs[x].token != who
    ensures var g' := Route(p, g, now, who, m);
            && |g.objs| <= |g'.objs|
            && (forall i :: 0 <= i < |g.objs| ==>
                  g'.objs[i].token == g.objs[i].token && (g.objs[i].token != who ==> g'.objs[i] == g.objs[i]))
            && (forall i :: |g.objs| <= i < |g'.objs| ==> g'.objs[i].token == who)
            && g.live <= g'.live
  {
    hide Deliver, Admit;
    match Find(g.objs, g.live, who)
    case Some(sid) => DeliveryTouchesOne(p, g, now, sid, who, m);
    case None => DeliveryTouchesOne(p, Create(g, who), now, |g.objs|, who, m);
  }

  /** Drop reports add no messages. */
  lemma {:induction false} ReportAllMessages(p: Params, g: Gateway, ids: seq<nat>)
    requires InRange(ids, g)
    ensures forall i :: 0 <= i < |g.objs| ==>
              var s' := ReportAll(p, g, ids).objs[i];
              s'.token == g.objs[i].token && Messages(s') == Messages(g.objs[i])
  {
    if ids != [] {
      var g1 := ReportAll(p, g, ids[..|ids|-1]);
      var sid := ids[|ids|-1];
      ReportAllMessages(p, g, ids[..|ids|-1]);
      ReportAppend(g1.objs[sid].arrived, DropItem(Who(p.mode), g1.objs[sid], g1.nextId));
    }
  }

  lemma ShutSweep(p: Params, g: Gateway, now: int, x: nat, until: int)
    requires Shape(p, g) && Shut(p, g, x, until) && now < until
    ensures var g' := SweepIdle(p, g, now); Shut(p, g', x, until) && NothingQueued(g, g', x) && g'.exited == g.exited
  {
    SelectFacts(p, g.objs, g.live, Survives(now));
  }

  lemma ShutStep(p: Params, g0: Gateway, now: int, e: Event, x: nat, until: int)
    requires Inv(p, g0) && Enabled(p, g0, now, e) && Shut(p, g0, x, until)
    requires now < until && p.mode == GatewayMode
    ensures var g' := Step(p, g0, now, e);
            Shut(p, g', x, until) && NothingQueued(g0, g', x) && (g'.exited ==> g'.Draining())
  {
    hide Streams, Posts, Retired, Balance, TickSound, OnlyTickShips, Select, StartAll, OnMessage, ReportAll,
         FinishFlush, PollDone, TickGroup, SweepIdle;
    var g := g0.(clock := now);
    match e
    case Arrival(m) =>
      ShutArrival(p, g, now, m, x, until); OnMessageSteady(p, g, now, m, x); ArrivalTiming(p, g, now, m);
    case DropsReported =>
      ReportAllSteady(p, g, g.live, now, x); ReportAllTiming(p, g, g.live); ReportAllMessages(p, g, g.live);
    case TickPosts => ShutGroup(p, g, now, x, until);
    case Signalled => StartAllFacts(p, g, now, g.live, false);
    case PostReturns(sid, reply) => ShutPosted(p, g, now, sid, reply, x, until);
    case PollReturns(reply) => ShutPolled(p, g, now, reply, x, until);
    case IdleSwept => ShutSweep(p, g, now, x, until);
    case _ =>
  }

  lemma ShutPosted(p: Params, g: Gateway, now: int, sid: nat, reply: Reply, x: nat, until: int)
    requires sid < |g.objs| && Shut(p, g, x, until) && g.clock == now < until && p.mode == GatewayMode
    ensures var g' := FinishFlush(p, g, now, sid, reply);
            Shut(p, g', x, until) && NothingQueued(g, g', x) && !g'.exited
  {
    hide Ended;
    EndSteady(p, g.objs[sid], reply, now);
  }

  lemma ShutPolled(p: Params, g: Gateway, now: int, reply: PollReply, x: nat, until: int)
    requires g.tick.Polling? && g.tick.current.Some? && g.tick.current.value < |g.objs|
    requires Shut(p, g, x, until) && g.clock == now < until && p.mode == GatewayMode && !g.exited
    ensures var g' := PollDone(p, g, now, reply);
            Shut(p, g', x, until) && NothingQueued(g, g', x) && !g'.exited
  {
  }

  lemma ShutGroup(p: Params, g: Gateway, now: int, x: nat, until: int)
    requires g.tick.Shipping? && InRange(g.tick.rest, g) && Shut(p, g, x, until)
    ensures var g' := TickGroup(p, g, now);
            Shut(p, g', x, until) && NothingQueued(g, g', x) && g'.exited == g.exited
  {
    hide StartAll;
    var group := First(POSTS_AT_ONCE, g.tick.rest);
    StartAllFacts(p, g.(tick := g.tick.(rest := g.tick.rest[|group|..])), now, group, true);
  }

  lemma EndSteady(p: Params, s: Stream, reply: Reply, now: int)
    ensures var s' := Ended(p, s, reply, now);
            && s'.token == s.token && s'.arrived == s.arrived
            && (s'.badUntil == s.badUntil || s'.badUntil == now + p.badKeyMs)
  {
  }

  lemma ShutWaits(p: Params, g: Gateway, x: nat, until: int)
    requires Shut(p, g, x, until) && !g.objs[x].flushing
    ensures Waits(p, g, x, until)
  {
  }

  /** Streams of the same token are one live stream and forgotten ones, which hold nothing to ship. */
  lemma SameTokenShips(p: Params, g: Gateway, x: nat, y: nat)
    requires Core(p, g) && x in g.live && x < |g.objs| && y < |g.objs|
    requires g.objs[y].token == g.objs[x].token && (g.objs[y].queue != [] || g.objs[y].flushing)
    ensures y == x
  {
  }

  /**
   * The negative cache over any run of the gateway: until the refusal runs out no line a device
   * sends under that key is queued, no POST under that key starts, the sweep does not forget it,
   * and the process does not end.
   */
  lemma {:induction false} RefusalHolds(p: Params, g: Gateway, evs: seq<Timed>, x: nat, until: int)
    requires Inv(p, g) && Legal(p, g, evs) && Before(evs, until) && p.mode == GatewayMode && !g.exited
    requires Shut(p, g, x, until) && !g.objs[x].flushing
    requires !After(p, g, evs).Draining()
    ensures var g' := After(p, g, evs);
            && Shut(p, g', x, until) && NothingQueued(g, g', x) && !g'.exited
            && g.posts <= g'.posts
            && forall k :: |g.posts| <= k < |g'.posts| ==> g'.posts[k].claim != Bearer(g.objs[x].token)
    decreases |evs|
  {
    hide Core, TickInv, Step, Enabled;
    if evs != [] {
      var (now, e) := evs[0];
      var g1 := Step(p, g, now, e);
      if g1.Draining() { DrainingStays(p, g1, evs[1..]); }
      CoreStep(p, g, now, e);
      TickStep(p, g, now, e);
      ShutWaits(p, g, x, until);
      WaitStep(p, g, now, e, x, until);
      ShutStep(p, g, now, e, x, until);
      PostsNotUnder(p, g, now, e, x, until);
      assert Before(evs[1..], until);
      RefusalHolds(p, g1, evs[1..], x, until);
      NothingQueuedChain(g, g1, After(p, g, evs), x);
    }
  }

  lemma PostsNotUnder(p: Params, g: Gateway, now: int, e: Event, x: nat, until: int)
    requires Inv(p, g) && Enabled(p, g, now, e) && p.mode == GatewayMode
    requires Shut(p, g, x, until) && Waits(p, g, x, until) && now < until
    requires !Step(p, g, now, e).Draining()
    ensures var g' := Step(p, g, now, e);
            forall k :: |g.posts| <= k < |g'.posts| ==> g'.posts[k].claim != Bearer(g.objs[x].token)
  {
    hide Step, Enabled, Balance, Streams, Shape, Retired, TickInv;
    PostsAreReady(p, g, now, e);
    WaitStep(p, g, now, e, x, until);
    CoreStep(p, g, now, e);
    ShutStep(p, g, now, e, x, until);
    var g' := Step(p, g, now, e);
    forall k | |g.posts| <= k < |g'.posts|
      ensures g'.posts[k].claim != Bearer(g.objs[x].token)
    {
      var y := g'.posts[k].sid;
      assert PostSound(p, g', g'.posts[k]);
      if g'.objs[y].token == g.objs[x].token {
        TokensStay(p, g, now, e, y);
        SameTokenShips(p, g, x, y);
        assert false;
      }
    }
  }

  lemma TokensStay(p: Params, g0: Gateway, now: int, e: Event, y: nat)
    requires Core(p, g0) && Enabled(p, g0, now, e) && y < |g0.objs|
    ensures var g' := Step(p, g0, now, e); y < |g'.objs| && g'.objs[y].token == g0.objs[y].token
  {
    hide StreamInv, PostSound, Select, StartAll, OnMessage, ReportAll, Ended;
    var g := g0.(clock := now);
    match e
    case Arrival(m) => OnMessageSteady(p, g, now, m, y);
    case DropsReported => ReportAllSteady(p, g, g.live, now, y);
    case TickPosts =>
      var group := First(POSTS_AT_ONCE, g.tick.rest);
      StartAllFacts(p, g.(tick := g.tick.(rest := g.tick.rest[|group|..])), now, group, true);
    case Signalled => StartAllFacts(p, g, now, g.live, false);
    case PostReturns(sid, reply) => EndFacts(p, g.objs[sid], reply, now);
    case _ =>
  }
}
