/**
 * How much the collector holds. MAX_QUEUE is what an arrival is checked against,
 * but not what bounds a queue: a batch put back is not checked. When a queue is
 * over, exactly, and what the bound is.
 */
module QueueBound {
  import opened Distinctness
  import opened Numbers
  import opened Wrappers
  import opened StreamModel
  import opened StreamLaws
  import opened GatewayModel
  import opened GatewayLaws
  import opened TickLaws
  import opened TimingLaws
  import opened ReachableRuns

  // ── when a queue is over MAX_QUEUE ────────────────────────────────────────

  /** The lines a step puts back at the head of stream x. */
  function Returning(p: Params, g: Gateway, e: Event, x: nat): nat
    requires x < |g.objs|
  {
    match e
    case PostReturns(sid, Status(code)) =>
      if sid == x && (code == 429 || code >= 500 || (p.mode == TunnelMode && code == 403)) then |g.objs[x].batch| else 0
    case _ => 0
  }

  /** The lines a step's `flush` takes from stream x. */
  function Taking(p: Params, g: Gateway, e: Event, x: nat): nat
    requires x < |g.objs|
  {
    var flushes :=
      match e
      case TickPosts => g.tick.Shipping? && x in g.tick.rest[..Min(8, |g.tick.rest|)]
      case Signalled => x in g.live
      case _ => false;
    var s := g.objs[x];
    var limit := if s.cfg.batchMax == 0 then 500 else if s.cfg.batchMax < 0 then 0 else s.cfg.batchMax;
    if flushes && !s.flushing && s.cfg.enabled then Min(limit, |s.queue|) else 0
  }

  /** The step is a refusal of stream x's key, which empties its queue. */
  predicate Clears(p: Params, g: Gateway, e: Event, x: nat) {
    match e
    case PollReturns(reply) => reply.PollRefused? && p.mode == GatewayMode && g.tick.Polling? && g.tick.current == Some(x)
    case PostReturns(sid, Status(code)) => sid == x && p.mode == GatewayMode && (code == 401 || code == 403)
    case _ => false
  }

  /** An arrival never takes a queue over, and never brings one back. */
  lemma EnqueuedSize(maxQueue: pos, s: Stream, it: Item)
    ensures |Enqueued(maxQueue, s, it).queue| > maxQueue <==> |s.queue| > maxQueue
  {
  }

  lemma ReportedSize(maxQueue: pos, who: string, s: Stream, id: nat)
    ensures |Reported(maxQueue, who, s, id).queue| > maxQueue <==> |s.queue| > maxQueue
  {
  }

  lemma AdmitSize(p: Params, g: Gateway, now: int, sid: nat, who: string, m: Message, x: nat)
    requires sid < |g.objs| && x < |g.objs|
    ensures |Deliver(p, g, sid, who, m).objs[x].queue| > p.maxQueue <==> |g.objs[x].queue| > p.maxQueue
    ensures |Admit(p, g, now, sid, who, m).objs[x].queue| > p.maxQueue <==> |g.objs[x].queue| > p.maxQueue
  {
    hide Enqueued;
    EnqueuedSize(p.maxQueue, g.objs[sid], Item(g.nextId, who, Entry(m.device, Text(m.text), m.sev)));
  }

  /** Over after it exactly if over before; a stream just made is not. */
  ghost predicate SameOver(maxQueue: pos, g: Gateway, g': Gateway, x: nat) {
    && |g.objs| <= |g'.objs|
    && (x < |g'.objs| ==> (|g'.objs[x].queue| > maxQueue <==> x < |g.objs| && |g.objs[x].queue| > maxQueue))
  }

  lemma AdmitToSame(p: Params, g: Gateway, now: int, sid: nat, who: string, m: Message, x: nat)
    requires sid < |g.objs|
    ensures SameOver(p.maxQueue, g, Deliver(p, g, sid, who, m), x)
    ensures SameOver(p.maxQueue, g, Admit(p, g, now, sid, who, m), x)
  {
    hide Deliver, Admit;
    DeliveryTouchesOne(p, g, now, sid, who, m);
    if x < |g.objs| { AdmitSize(p, g, now, sid, who, m, x); }
  }

  lemma CreateSame(p: Params, g: Gateway, who: string, x: nat)
    ensures SameOver(p.maxQueue, g, Create(g, who), x)
  {
  }

  lemma RouteSize(p: Params, g: Gateway, now: int, who: string, m: Message, x: nat)
    ensures SameOver(p.maxQueue, g, Route(p, g, now, who, m), x)
  {
    hide Deliver, Admit, Create;
    match Find(g.objs, g.live, who) {
    case Some(sid) => AdmitToSame(p, g, now, sid, who, m, x);
    case None =>
      CreateSame(p, g, who, x);
      if p.mode != CollectorMode && |g.live| < p.maxTenants {
        Created(g, who);
        AdmitToSame(p, Create(g, who), now, |g.objs|, who, m, x);
      }
    }
  }

  lemma Created(g: Gateway, who: string)
    ensures |Create(g, who).objs| == |g.objs| + 1
  {
  }

  lemma ArrivalSize(p: Params, g: Gateway, now: int, m: Message, x: nat)
    ensures SameOver(p.maxQueue, g, OnMessage(p, g, now, m), x)
  {
    hide Attribution, Route;
    var who := Attribution(p, m);
    if m.raw != "" && who.Some? { RouteSize(p, g.(handled := g.handled + 1), now, who.value, m, x); }
  }

  lemma {:induction false} ReportAllSize(p: Params, g: Gateway, ids: seq<nat>, x: nat)
    requires InRange(ids, g) && x < |g.objs|
    ensures |ReportAll(p, g, ids).objs[x].queue| > p.maxQueue <==> |g.objs[x].queue| > p.maxQueue
  {
    hide Reported;
    if ids != [] {
      var n := |ids| - 1;
      ReportAllSize(p, g, ids[..n], x);
      var before := ReportAll(p, g, ids[..n]);
      ReportedSize(p.maxQueue, Who(p.mode), before.objs[ids[n]], before.nextId);
    }
  }

  lemma BegunSize(s: Stream)
    ensures var limit := if s.cfg.batchMax == 0 then 500 else if s.cfg.batchMax < 0 then 0 else s.cfg.batchMax;
            |(if CanFlush(s) then Begun(s) else s).queue| ==
            |s.queue| - (if !s.flushing && s.cfg.enabled then Min(limit, |s.queue|) else 0)
  {
  }

  lemma FirstEight(ids: seq<nat>)
    ensures First(POSTS_AT_ONCE, ids) == ids[..Min(8, |ids|)]
  {
  }

  lemma EndedSize(p: Params, s: Stream, reply: Reply, now: int)
    ensures |Ended(p, s, reply, now).queue| ==
            if !Ok(reply) && !PutBack(p.mode, reply) && KeyRefusal(p.mode, reply) then 0
            else |s.queue| + (if PutBack(p.mode, reply) then |s.batch| else 0)
  {
  }

  lemma PollSize(p: Params, g: Gateway, now: int, reply: PollReply, x: nat)
    requires g.tick.Polling? && g.tick.current.Some? && g.tick.current.value < |g.objs|
    ensures |PollDone(p, g, now, reply).objs| == |g.objs|
    ensures x < |g.objs| ==>
              |PollDone(p, g, now, reply).objs[x].queue| == if Clears(p, g, PollReturns(reply), x) then 0 else |g.objs[x].queue|
  {
  }

  /**
   * After any step a queue is over MAX_QUEUE exactly when the batch the step puts back takes it over,
   * or it was over already and the step neither clears it nor takes enough of it to ship.
   */
  lemma OverExactly(p: Params, g0: Gateway, now: int, e: Event, x: nat)
    requires Enabled(p, g0, now, e) && x < |Step(p, g0, now, e).objs|
    ensures |Step(p, g0, now, e).objs[x].queue| > p.maxQueue <==>
            x < |g0.objs| && !Clears(p, g0, e, x) &&
            |g0.objs[x].queue| + Returning(p, g0, e, x) - Taking(p, g0, e, x) > p.maxQueue
  {
    hide Ended, Begun, CanFlush, Select, StartAll, ReportAll, OnMessage, PollDone, First;
    var g := g0.(clock := now);
    match e {
    case Arrival(m) => ArrivalSize(p, g, now, m, x);
    case PollReturns(reply) => PollSize(p, g, now, reply, x);
    case PostReturns(sid, reply) => EndedSize(p, g.objs[sid], reply, now);
    case DropsReported => ReportAllSize(p, g, g.live, x);
    case TickPosts =>
      var group := First(POSTS_AT_ONCE, g.tick.rest);
      FirstEight(g.tick.rest);
      StartAllExactly(p, g.(tick := g.tick.(rest := g.tick.rest[|group|..])), now, group, true, x);
      BegunSize(g.objs[x]);
    case Signalled =>
      StartAllExactly(p, g, now, g.live, false, x);
      BegunSize(g.objs[x]);
    case _ =>
    }
  }

  // ── a run that goes over, for every MAX_QUEUE ─────────────────────────────

  /** One stream shipping, and lines arriving for it meanwhile. */
  ghost predicate Outgoing(p: Params, g: Gateway) {
    && Reachable(p, g) && !g.exited && g.clock == 1 && g.live == [0] && |g.objs| == 1 && g.tick == Shipping(1, [], {0})
    && g.passes == [] && OnlyReceived(p, g.objs[0])
  }

  /** A stream whose first line is out and that has lost nothing. */
  predicate OnlyReceived(p: Params, s: Stream) {
    && s.token == Speaker(p) && s.flushing && s.batch == [Hello(0, p)] && s.badUntil <= 1 && s.dropped == 0
    && s.acked == s.discarded == s.cleared == s.lost == []
  }

  lemma OneMoreArrives(p: Params, g: Gateway) returns (g': Gateway)
    requires Outgoing(p, g) && |g.objs[0].queue| < p.maxQueue
    ensures Outgoing(p, g') && |g'.objs[0].queue| == |g.objs[0].queue| + 1
  {
    hide Reachable, Attribution;
    HelloIsHeard(p);
    ReachStep(p, g, 1, Arrival(HELLO));
    g' := Step(p, g, 1, Arrival(HELLO));
    assert Find(g.objs, g.live, Speaker(p)) == Some(0);
  }

  lemma {:induction false} QueueFills(p: Params, g: Gateway, n: nat) returns (g': Gateway)
    requires Outgoing(p, g) && g.objs[0].queue == [] && n <= p.maxQueue
    ensures Outgoing(p, g') && |g'.objs[0].queue| == n
  {
    hide Outgoing;
    if n == 0 {
      g' := g;
    } else {
      g' := QueueFills(p, g, n - 1);
      g' := OneMoreArrives(p, g');
    }
  }

  /** In any mode, whatever MAX_QUEUE is: a full queue and a batch put back. */
  lemma QueueCanExceedMax(p: Params)
    ensures exists g :: Reachable(p, g) && |g.objs| == 1 && |g.objs[0].queue| == p.maxQueue + 1
  {
    hide Reachable, StartAll, ReportAll, OnMessage, PollDone, TickGroup, SweepIdle, Select;
    var g := OneLineReady(p, 1);
    var g1 := OneLinePosted(p, g, 1);
    assert g1.objs[0].batch == [Hello(0, p)] && g1.objs[0].queue == [];
    var g2 := QueueFills(p, g1, p.maxQueue);
    EndedSize(p, g2.objs[0], Status(500), 1);
    ReachStep(p, g2, 1, PostReturns(0, Status(500)));
    var g3 := Step(p, g2, 1, PostReturns(0, Status(500)));
    assert |g3.objs[0].queue| == p.maxQueue + 1;
  }

  // ── what bounds it ────────────────────────────────────────────────────────

  function Held(objs: seq<Stream>, ids: seq<nat>): nat
    requires forall i :: 0 <= i < |ids| ==> ids[i] < |objs|
  {
    if ids == [] then 0
    else Held(objs, ids[..|ids|-1]) + |objs[ids[|ids|-1]].queue| + |objs[ids[|ids|-1]].batch|
  }

  lemma {:induction false} HeldBound(objs: seq<Stream>, ids: seq<nat>, each: nat)
    requires forall i :: 0 <= i < |ids| ==> ids[i] < |objs|
    requires forall i :: 0 <= i < |ids| ==> |objs[ids[i]].queue| + |objs[ids[i]].batch| <= each
    ensures Held(objs, ids) <= |ids| * each
  {
    if ids != [] { HeldBound(objs, ids[..|ids|-1], each); }
  }

  /**
   * The real memory bound, in every mode: no stream holds more than MAX_QUEUE lines plus the largest
   * batch its configuration ever allowed; streams the map has forgotten hold none; and the map holds
   * one stream in collector mode and at most MAX_TENANTS in the others.
   */
  lemma MemoryBounded(p: Params, g: Gateway, batch: nat)
    requires Reachable(p, g)
    requires forall i :: 0 <= i < |g.objs| ==> g.objs[i].maxBatch <= batch
    ensures forall i :: 0 <= i < |g.objs| ==> |g.objs[i].queue| + |g.objs[i].batch| <= p.maxQueue + batch
    ensures forall i :: 0 <= i < |g.objs| && i !in g.live ==> g.objs[i].queue == [] && g.objs[i].batch == []
    ensures InRange(g.live, g)
    ensures Held(g.objs, g.live) <= MapLimit(p) * (p.maxQueue + batch)
  {
    hide Reachable, Frame, Balance, TickInv;
    ReachableInv(p, g);
    var each := p.maxQueue + batch;
    forall i | 0 <= i < |g.objs|
      ensures |g.objs[i].queue| + |g.objs[i].batch| <= each
      ensures i !in g.live ==> g.objs[i].queue == [] && g.objs[i].batch == []
    {
      HeldOf(p, g, i);
    }
    MapCapped(p, g);
    HeldBound(g.objs, g.live, each);
    Scale(|g.live|, MapLimit(p), each);
  }

  function MapLimit(p: Params): nat {
    if p.mode == CollectorMode then 1 else p.maxTenants
  }

  lemma MapCapped(p: Params, g: Gateway)
    requires Core(p, g)
    ensures InRange(g.live, g) && |g.live| <= MapLimit(p)
  {
    hide Streams, Posts, Retired, Balance;
  }

  lemma HeldOf(p: Params, g: Gateway, i: nat)
    requires Frame(p, g) && i < |g.objs|
    ensures var s := g.objs[i];
            && |s.queue| + |s.batch| <= p.maxQueue + s.maxBatch
            && (i !in g.live ==> s.queue == [] && s.batch == [])
  {
    hide StreamInv;
    StreamKept(p, g, i);
    QuietHoldsNothing(p, g.objs[i], g.nextId);
  }

  lemma QuietHoldsNothing(p: Params, s: Stream, next: nat)
    requires StreamInv(p, s, next)
    ensures |s.queue| + |s.batch| <= p.maxQueue + s.maxBatch && (!s.flushing ==> s.batch == [])
  {
  }

  lemma Scale(a: nat, b: nat, c: nat)
    requires a <= b
    ensures a * c <= b * c
  {
  }
}
