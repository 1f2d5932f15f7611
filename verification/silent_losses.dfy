/**
 * "Never lose a line silently": every way a line can go without anybody being
 * told, over every run. A POST that throws loses its batch. A drop is told only
 * in a report line of the tenant's own, and that line can be dropped, cleared or
 * lost like any other, with the number it carried. And the sweep can forget a
 * number not yet reported.
 */
module SilentLosses {
  import opened Distinctness
  import opened Wrappers
  import opened StreamModel
  import opened StreamLaws
  import opened GatewayModel
  import opened GatewayLaws
  import opened TickLaws
  import opened TimingLaws
  import opened ReachableRuns

  // ── what becomes of a number that was reported ────────────────────────────

  lemma {:induction false} DropsJoin(a: seq<Item>, b: seq<Item>)
    ensures ReportedDrops(a + b) == ReportedDrops(a) + ReportedDrops(b)
  {
    if b == [] {
      assert a + b == a;
    } else {
      assert (a + b)[..|a + b|-1] == a + b[..|b|-1];
      DropsJoin(a, b[..|b|-1]);
    }
  }

  /** One item taken out. */
  lemma DropsWithout(s: seq<Item>, i: nat)
    requires i < |s|
    ensures ReportedDrops(s) == ReportedDrops(s[..i] + s[i+1..]) + ReportedDrops([s[i]])
    ensures multiset(s[..i] + s[i+1..]) == multiset(s) - multiset{s[i]}
  {
    hide ReportedDrops;
    assert s == s[..i] + [s[i]] + s[i+1..];
    DropsJoin(s[..i] + [s[i]], s[i+1..]);
    DropsJoin(s[..i], [s[i]]);
    DropsJoin(s[..i], s[i+1..]);
  }

  lemma PlaceOf(s: seq<Item>, x: Item) returns (i: nat)
    requires x in multiset(s)
    ensures i < |s| && s[i] == x
  {
    i :| i < |s| && s[i] == x;
  }

  lemma SameSize(a: seq<Item>, b: seq<Item>)
    requires multiset(a) == multiset(b)
    ensures |a| == |b| && (a != [] ==> a[0] in multiset(b))
  {
    assert |multiset(a)| == |a| && |multiset(b)| == |b|;
    if a != [] { assert a[0] in multiset(a); }
  }

  /** The sum does not depend on the order. */
  lemma {:induction false} DropsOfSame(a: seq<Item>, b: seq<Item>)
    requires multiset(a) == multiset(b)
    ensures ReportedDrops(a) == ReportedDrops(b)
    decreases |a|
  {
    hide ReportedDrops;
    SameSize(a, b);
    if a != [] {
      var i := PlaceOf(b, a[0]);
      DropsWithout(a, 0);
      DropsWithout(b, i);
      DropsOfSame(a[..0] + a[1..], b[..i] + b[i+1..]);
    }
  }

  /** Told, or about to be: the numbers in reports that were shipped or are still held. */
  function Told(s: Stream): nat {
    ReportedDrops(s.acked) + ReportedDrops(s.batch) + ReportedDrops(s.queue)
  }

  /** Told to nobody: the numbers in reports that were themselves dropped, cleared or lost. */
  function Untold(s: Stream): nat {
    ReportedDrops(s.discarded) + ReportedDrops(s.cleared) + ReportedDrops(s.lost)
  }

  /** Every line dropped is still to be reported, told, or was in a report that nobody got. */
  lemma DropsBalance(s: Stream)
    requires Conserved(s) && Counted(s)
    ensures s.dropped + Told(s) + Untold(s) == |s.discarded|
  {
    DropsOfSame(s.arrived, s.acked + s.batch + s.queue + s.discarded + s.cleared + s.lost);
    DropsJoin(s.acked + s.batch + s.queue + s.discarded + s.cleared, s.lost);
    DropsJoin(s.acked + s.batch + s.queue + s.discarded, s.cleared);
    DropsJoin(s.acked + s.batch + s.queue, s.discarded);
    DropsJoin(s.acked + s.batch, s.queue);
    DropsJoin(s.acked, s.batch);
  }

  // ── what one step takes with it ───────────────────────────────────────────

  /** The number in the line an arrival pushes out. */
  function Shed(maxQueue: pos, s: Stream): nat {
    if |s.queue| >= maxQueue then ReportedDrops([s.queue[0]]) else 0
  }

  lemma EnqueueSpills(maxQueue: pos, s: Stream, it: Item)
    ensures Untold(Enqueued(maxQueue, s, it)) == Untold(s) + Shed(maxQueue, s)
  {
    if |s.queue| >= maxQueue { DropsJoin(s.discarded, [s.queue[0]]); }
  }

  lemma ReportSpills(maxQueue: pos, who: string, s: Stream, id: nat)
    ensures Untold(Reported(maxQueue, who, s, id)) == Untold(s) + (if s.dropped == 0 then 0 else Shed(maxQueue, s))
  {
    hide Enqueued;
    if s.dropped != 0 { EnqueueSpills(maxQueue, s.(dropped := 0), DropItem(who, s, id)); }
  }

  /** The numbers an answer to a POST takes with it. */
  function EndSpill(mode: Mode, s: Stream, reply: Reply): nat {
    match reply
    case Threw => ReportedDrops(s.batch)
    case Status(code) =>
      if 200 <= code <= 299 || code == 429 || code >= 500 || (mode == TunnelMode && (code == 401 || code == 403)) then 0
      else ReportedDrops(s.batch) + (if mode == GatewayMode && (code == 401 || code == 403) then ReportedDrops(s.queue) else 0)
  }

  lemma PlainSpills(p: Params, s: Stream, first: nat, now: int)
    ensures Untold(BackedOff(s, first, now)) == Untold(s)
    ensures Untold(s.(flushing := false)) == Untold(s)
    ensures Untold(s.(shipped := s.shipped + |s.batch|, backoffMs := 0, retryAt := 0,
                      acked := s.acked + s.batch, batch := [], fails := 0, flushing := false)) == Untold(s)
    ensures Untold(s.(queue := s.batch + s.queue, batch := [])) == Untold(s)
  {
  }

  lemma TakenAway(p: Params, s: Stream, now: int)
    ensures Untold(Discarded(s)) == Untold(s) + ReportedDrops(s.batch) && Discarded(s).queue == s.queue
    ensures Untold(Refused(p, s, now)) == Untold(s) + ReportedDrops(s.queue)
    ensures Untold(s.(lost := s.lost + s.batch, batch := [])) == Untold(s) + ReportedDrops(s.batch)
  {
    DropsJoin(s.discarded, s.batch);
    DropsJoin(s.lost, s.batch);
    DropsJoin(s.cleared, s.queue);
  }

  lemma EndSpills(p: Params, s: Stream, reply: Reply, now: int)
    ensures Untold(Ended(p, s, reply, now)) == Untold(s) + EndSpill(p.mode, s, reply)
  {
    hide Untold, BackedOff, Discarded, Refused, ReportedDrops, FirstDelay, NextBackoff;
    var first := FirstDelay(p.mode, reply);
    if Ok(reply) {
      PlainSpills(p, s, 0, now);
    } else if PutBack(p.mode, reply) {
      var s1 := s.(queue := s.batch + s.queue, batch := []);
      PlainSpills(p, s, 0, now);
      PlainSpills(p, s1, first, now);
      PlainSpills(p, BackedOff(s1, first, now), 0, now);
    } else {
      var s1 := if reply.Threw? then s.(lost := s.lost + s.batch, batch := []) else Discarded(s);
      TakenAway(p, s, now);
      TakenAway(p, s1, now);
      PlainSpills(p, s1, 1000, now);
      PlainSpills(p, BackedOff(s1, 1000, now), 0, now);
      PlainSpills(p, Refused(p, s1, now), 0, now);
    }
  }

  /** The stream whose queue a message joins, if there is one already. */
  function Joins(p: Params, g: Gateway, now: int, m: Message): Option<nat> {
    if m.raw == "" || Attribution(p, m).None? then None
    else
      var found := Find(g.objs, g.live, Attribution(p, m).value);
      if found.Some? && p.mode != CollectorMode && g.objs[found.value].badUntil > now then None else found
  }

  /** The reported numbers a step drops, clears or loses from stream x. */
  function Spill(p: Params, g: Gateway, now: int, e: Event, x: nat): nat
    requires x < |g.objs|
  {
    var s := g.objs[x];
    match e
    case Arrival(m) => if Joins(p, g, now, m) == Some(x) then Shed(p.maxQueue, s) else 0
    case DropsReported => if x in g.live && s.dropped != 0 then Shed(p.maxQueue, s) else 0
    case PollReturns(reply) =>
      if reply.PollRefused? && p.mode == GatewayMode && g.tick.Polling? && g.tick.current == Some(x)
      then ReportedDrops(s.queue) else 0
    case PostReturns(sid, reply) => if sid == x then EndSpill(p.mode, s, reply) else 0
    case _ => 0
  }

  lemma AdmitSpills(p: Params, g: Gateway, now: int, sid: nat, who: string, m: Message, x: nat)
    requires sid < |g.objs| && x < |g.objs|
    ensures Untold(Deliver(p, g, sid, who, m).objs[x]) ==
            Untold(g.objs[x]) + (if x == sid then Shed(p.maxQueue, g.objs[x]) else 0)
    ensures Untold(Admit(p, g, now, sid, who, m).objs[x]) ==
            Untold(g.objs[x]) + (if x == sid && g.objs[x].badUntil <= now then Shed(p.maxQueue, g.objs[x]) else 0)
  {
    hide Enqueued, Untold, Shed;
    EnqueueSpills(p.maxQueue, g.objs[sid], Item(g.nextId, who, Entry(m.device, Text(m.text), m.sev)));
  }

  lemma NewTellsNothing(maxQueue: pos, token: string)
    ensures Untold(NewStream(token)) == 0 && Shed(maxQueue, NewStream(token)) == 0
  {
  }

  lemma RouteSpills(p: Params, g: Gateway, now: int, who: string, m: Message, x: nat)
    ensures var g', found := Route(p, g, now, who, m), Find(g.objs, g.live, who);
            && |g.objs| <= |g'.objs|
            && (x < |g.objs| ==>
                  Untold(g'.objs[x]) == Untold(g.objs[x]) +
                    (if found == Some(x) && (p.mode == CollectorMode || g.objs[x].badUntil <= now)
                     then Shed(p.maxQueue, g.objs[x]) else 0))
            && (|g.objs| <= x < |g'.objs| ==> Untold(g'.objs[x]) == 0)
  {
    hide Deliver, Admit, Untold, Shed;
    match Find(g.objs, g.live, who) {
    case Some(sid) =>
      DeliveryTouchesOne(p, g, now, sid, who, m);
      if x < |g.objs| { AdmitSpills(p, g, now, sid, who, m, x); }
    case None =>
      var g2 := Create(g, who);
      NewTellsNothing(p.maxQueue, who);
      DeliveryTouchesOne(p, g2, now, |g.objs|, who, m);
      if x <= |g.objs| { AdmitSpills(p, g2, now, |g.objs|, who, m, x); }
    }
  }

  lemma ArrivalSpills(p: Params, g: Gateway, now: int, m: Message, x: nat)
    ensures var g' := OnMessage(p, g, now, m);
            && |g.objs| <= |g'.objs|
            && (x < |g.objs| ==> Untold(g'.objs[x]) == Untold(g.objs[x]) + Spill(p, g, now, Arrival(m), x))
            && (|g.objs| <= x < |g'.objs| ==> Untold(g'.objs[x]) == 0)
  {
    hide Attribution, Route, Find, Untold, Shed;
    var who := Attribution(p, m);
    if m.raw != "" && who.Some? { RouteSpills(p, g.(handled := g.handled + 1), now, who.value, m, x); }
  }

  lemma {:induction false} ReportAllSpills(p: Params, g: Gateway, ids: seq<nat>, x: nat)
    requires InRange(ids, g) && Distinct(ids) && x < |g.objs|
    ensures Untold(ReportAll(p, g, ids).objs[x]) ==
            Untold(g.objs[x]) + (if x in ids && g.objs[x].dropped != 0 then Shed(p.maxQueue, g.objs[x]) else 0)
  {
    hide Reported, Untold, Shed;
    if ids != [] {
      var n, last := |ids| - 1, ids[|ids| - 1];
      assert ids == ids[..n] + [last];
      ReportAllSpills(p, g, ids[..n], x);
      var before := ReportAll(p, g, ids[..n]);
      if x == last {
        ReportAllForgotten(p, g, ids[..n], x);
        ReportSpills(p.maxQueue, Who(p.mode), before.objs[x], before.nextId);
      }
    }
  }

  lemma BegunSpills(s: Stream)
    ensures Untold(Begun(s)) == Untold(s)
  {
  }

  /** Each step adds to the untold numbers of a stream exactly what it takes with it, and starts new streams with none. */
  lemma UntoldStep(p: Params, g0: Gateway, now: int, e: Event, x: nat)
    requires Enabled(p, g0, now, e) && Distinct(g0.live)
    ensures var g' := Step(p, g0, now, e);
            && |g0.objs| <= |g'.objs|
            && (x < |g0.objs| ==> Untold(g'.objs[x]) == Untold(g0.objs[x]) + Spill(p, g0, now, e, x))
            && (|g0.objs| <= x < |g'.objs| ==> Untold(g'.objs[x]) == 0)
  {
    hide Untold, Ended, Begun, EndSpill, Select, StartAll, ReportAll, OnMessage, PollDone, Joins, Shed;
    var g := g0.(clock := now);
    match e {
    case Arrival(m) => ArrivalSpills(p, g, now, m, x); JoinsAtAnyTime(p, g0, g, now, m);
    case PollSends => if x < |g0.objs| { StampSpills(g0.objs[x], now); }
    case PollReturns(reply) => PollSpills(p, g, now, reply, x);
    case PostReturns(sid, reply) => EndSpills(p, g.objs[sid], reply, now);
    case DropsReported => if x < |g0.objs| { ReportAllSpills(p, g, g.live, x); }
    case TickPosts =>
      var group := First(POSTS_AT_ONCE, g.tick.rest);
      StartAllFacts(p, g.(tick := g.tick.(rest := g.tick.rest[|group|..])), now, group, true);
      if x < |g0.objs| { BegunSpills(g.objs[x]); }
    case Signalled =>
      StartAllFacts(p, g, now, g.live, false);
      if x < |g0.objs| { BegunSpills(g.objs[x]); }
    case _ =>
    }
  }

  lemma JoinsAtAnyTime(p: Params, g0: Gateway, g: Gateway, now: int, m: Message)
    requires g.objs == g0.objs && g.live == g0.live
    ensures Joins(p, g, now, m) == Joins(p, g0, now, m)
  {
  }

  lemma StampSpills(s: Stream, at: int)
    ensures Untold(s.(polledAt := at)) == Untold(s)
  {
  }

  lemma PollSpills(p: Params, g: Gateway, now: int, reply: PollReply, x: nat)
    requires g.tick.Polling? && g.tick.current.Some? && g.tick.current.value < |g.objs|
    ensures |PollDone(p, g, now, reply).objs| == |g.objs|
    ensures x < |g.objs| ==>
              Untold(PollDone(p, g, now, reply).objs[x]) == Untold(g.objs[x]) + Spill(p, g, now, PollReturns(reply), x)
  {
    hide ReportedDrops;
    if x < |g.objs| { TakenAway(p, g.objs[x], now); }
  }

  // ── lines that vanish: a POST that throws ─────────────────────────────────

  /** Received, and in none of the places or counts a stream keeps. */
  function Missing(s: Stream): int {
    s.received - s.shipped - |s.queue| - |s.batch| - s.dropped - ReportedDrops(s.arrived) - |s.cleared|
  }

  function AllMissing(objs: seq<Stream>): int {
    if objs == [] then 0 else AllMissing(objs[..|objs|-1]) + Missing(objs[|objs|-1])
  }

  function AllLost(objs: seq<Stream>): nat {
    if objs == [] then 0 else AllLost(objs[..|objs|-1]) + |objs[|objs|-1].lost|
  }

  /** The lines in hand at the moments the run's POSTs threw. */
  function Thrown(p: Params, g: Gateway, evs: seq<Timed>): nat
    requires Legal(p, g, evs)
    decreases |evs|
  {
    if evs == [] then 0
    else
      (match evs[0].1
       case PostReturns(sid, Threw) => |g.objs[sid].batch|
       case _ => 0)
      + Thrown(p, Step(p, g, evs[0].0, evs[0].1), evs[1..])
  }

  lemma {:induction false} LostPut(objs: seq<Stream>, sid: nat, s: Stream)
    requires sid < |objs|
    ensures AllLost(objs[sid := s]) == AllLost(objs) - |objs[sid].lost| + |s.lost|
  {
    var k := |objs| - 1;
    if sid == k {
      assert objs[sid := s][..k] == objs[..k];
    } else {
      assert objs[sid := s][..k] == objs[..k][sid := s];
      LostPut(objs[..k], sid, s);
    }
  }

  lemma LostAppend(objs: seq<Stream>, s: Stream)
    ensures AllLost(objs + [s]) == AllLost(objs) + |s.lost|
  {
    assert (objs + [s])[..|objs|] == objs;
  }

  lemma {:induction false} LostSame(a: seq<Stream>, b: seq<Stream>)
    requires |a| == |b| && forall i :: 0 <= i < |a| ==> a[i].lost == b[i].lost
    ensures AllLost(a) == AllLost(b)
  {
    if a != [] { LostSame(a[..|a|-1], b[..|b|-1]); }
  }

  lemma {:induction false} ReportAllLost(p: Params, g: Gateway, ids: seq<nat>, i: nat)
    requires InRange(ids, g) && i < |g.objs|
    ensures ReportAll(p, g, ids).objs[i].lost == g.objs[i].lost
  {
    if ids != [] { ReportAllLost(p, g, ids[..|ids|-1], i); }
  }

  lemma RouteLost(p: Params, g: Gateway, now: int, who: string, m: Message)
    ensures AllLost(Route(p, g, now, who, m).objs) == AllLost(g.objs)
  {
    hide AllLost;
    match Find(g.objs, g.live, who)
    case Some(sid) =>
      LostPut(g.objs, sid, Enqueued(p.maxQueue, g.objs[sid], Item(g.nextId, who, Entry(m.device, Text(m.text), m.sev))));
    case None =>
      var objs := g.objs + [NewStream(who)];
      LostAppend(g.objs, NewStream(who));
      LostPut(objs, |g.objs|, Enqueued(p.maxQueue, objs[|g.objs|], Item(g.nextId, who, Entry(m.device, Text(m.text), m.sev))));
  }

  lemma PollLost(p: Params, g: Gateway, now: int, reply: PollReply)
    requires g.tick.Polling? && g.tick.current.Some? && g.tick.current.value < |g.objs|
    ensures AllLost(PollDone(p, g, now, reply).objs) == AllLost(g.objs)
  {
    hide AllLost;
    var sid, g' := g.tick.current.value, PollDone(p, g, now, reply);
    LostPut(g.objs, sid, g'.objs[sid]);
    assert g'.objs == g.objs || g'.objs == g.objs[sid := g'.objs[sid]];
  }

  lemma PostLost(p: Params, g: Gateway, now: int, sid: nat, reply: Reply)
    requires sid < |g.objs|
    ensures AllLost(FinishFlush(p, g, now, sid, reply).objs) ==
            AllLost(g.objs) + (if reply.Threw? then |g.objs[sid].batch| else 0)
  {
    hide AllLost;
    LostPut(g.objs, sid, Ended(p, g.objs[sid], reply, now));
  }

  lemma LostStep(p: Params, g0: Gateway, now: int, e: Event)
    requires Enabled(p, g0, now, e)
    ensures AllLost(Step(p, g0, now, e).objs) == AllLost(g0.objs) +
              (match e case PostReturns(sid, Threw) => |g0.objs[sid].batch| case _ => 0)
  {
    hide AllLost, Select, StartAll, ReportAll, Route, PollDone, FinishFlush, Attribution;
    var g := g0.(clock := now);
    var g' := Step(p, g0, now, e);
    match e
    case Arrival(m) =>
      if m.raw != "" && Attribution(p, m).Some? {
        RouteLost(p, g.(handled := g.handled + 1), now, Attribution(p, m).value, m);
      }
    case PollSends => LostPut(g.objs, g.tick.pending[0], g'.objs[g.tick.pending[0]]);
    case PollReturns(reply) => PollLost(p, g, now, reply);
    case PostReturns(sid, reply) => PostLost(p, g, now, sid, reply);
    case DropsReported =>
      forall i | 0 <= i < |g.objs| ensures g'.objs[i].lost == g.objs[i].lost { ReportAllLost(p, g, g.live, i); }
      LostSame(g.objs, g'.objs);
    case TickPosts =>
      var group := First(POSTS_AT_ONCE, g.tick.rest);
      StartAllFacts(p, g.(tick := g.tick.(rest := g.tick.rest[|group|..])), now, group, true);
      LostSame(g.objs, g'.objs);
    case Signalled => StartAllFacts(p, g, now, g.live, false); LostSame(g.objs, g'.objs);
    case _ =>
  }

  lemma {:induction false} ThrownRun(p: Params, g: Gateway, evs: seq<Timed>)
    requires Legal(p, g, evs)
    ensures AllLost(After(p, g, evs).objs) == AllLost(g.objs) + Thrown(p, g, evs)
    decreases |evs|
  {
    if evs != [] {
      LostStep(p, g, evs[0].0, evs[0].1);
      hide Step, Enabled;
      ThrownRun(p, Step(p, g, evs[0].0, evs[0].1), evs[1..]);
    }
  }

  lemma {:induction false} MissingAreLost(p: Params, objs: seq<Stream>, next: nat)
    requires forall i :: 0 <= i < |objs| ==> StreamInv(p, objs[i], next)
    ensures AllMissing(objs) == AllLost(objs)
  {
    if objs != [] {
      MissingAreLost(p, objs[..|objs|-1], next);
      assert StreamInv(p, objs[|objs|-1], next);
      CountersBalance(objs[|objs|-1]);
    }
  }

  /**
   * Over every run: the lines received that are in no place and in no count a stream keeps are
   * exactly the batches in hand when a POST threw.
   */
  lemma LostExactlyWhenThrown(p: Params, t: int, boot: PollReply, evs: seq<Timed>)
    requires Legal(p, Boot(p, t, boot), evs)
    ensures AllMissing(After(p, Boot(p, t, boot), evs).objs) == Thrown(p, Boot(p, t, boot), evs)
  {
    BootInv(p, t, boot);
    RunInv(p, Boot(p, t, boot), evs);
    ThrownRun(p, Boot(p, t, boot), evs);
    NothingLostAtBoot(p, t, boot);
    hide StreamInv, Legal, After, Boot, TickInv, Shape, Retired, Posts, Balance, AllLost, AllMissing;
    var g := After(p, Boot(p, t, boot), evs);
    MissingAreLost(p, g.objs, g.nextId);
  }

  lemma NothingLostAtBoot(p: Params, t: int, boot: PollReply)
    ensures AllLost(Boot(p, t, boot).objs) == 0 && AllTold(Boot(p, t, boot))
  {
    var objs := Boot(p, t, boot).objs;
    if |objs| == 1 { assert objs[..0] == []; }
  }

  // ── numbers the idle sweep forgets ────────────────────────────────────────

  /** Every drop counted on a forgotten stream had been reported before it was forgotten. */
  ghost predicate SweptTold(g: Gateway) {
    forall i :: 0 <= i < |g.objs| && i !in g.live ==> g.objs[i].dropped == 0
  }

  /** The sweep takes no stream with a drop still to report: what its guard would have to ask as well. */
  predicate TidySweep(p: Params, g: Gateway, now: int) {
    forall i :: 0 <= i < |g.live| && g.live[i] < |g.objs| && !SweepKeeps(p, g.objs[g.live[i]], now) ==>
      g.objs[g.live[i]].dropped == 0
  }

  lemma {:induction false} ReportAllForgotten(p: Params, g: Gateway, ids: seq<nat>, i: nat)
    requires InRange(ids, g) && i < |g.objs| && i !in ids
    ensures ReportAll(p, g, ids).objs[i] == g.objs[i]
  {
    if ids != [] {
      assert ids == ids[..|ids|-1] + [ids[|ids|-1]];
      ReportAllForgotten(p, g, ids[..|ids|-1], i);
    }
  }

  lemma RouteForgotten(p: Params, g: Gateway, now: int, who: string, m: Message, i: nat)
    requires i < |g.objs| && i !in g.live
    ensures var g' := Route(p, g, now, who, m);
            i < |g'.objs| && i !in g'.live && g'.objs[i] == g.objs[i]
  {
    hide Deliver, Admit;
    match Find(g.objs, g.live, who)
    case Some(sid) => DeliveryTouchesOne(p, g, now, sid, who, m);
    case None => DeliveryTouchesOne(p, Create(g, who), now, |g.objs|, who, m);
  }

  /** What no step does to a forgotten stream. */
  lemma ForgottenDropped(p: Params, g0: Gateway, now: int, e: Event, i: nat)
    requires Inv(p, g0) && Enabled(p, g0, now, e) && i < |g0.objs| && i !in g0.live
    ensures var g' := Step(p, g0, now, e);
            i < |g'.objs| && i !in g'.live && g'.objs[i].dropped == g0.objs[i].dropped
  {
    hide Shape, Streams, Posts, Balance, TickSound, OnlyTickShips, Select, StartAll, ReportAll, Ended, Route;
    var g := g0.(clock := now);
    match e
    case Arrival(m) =>
      if m.raw != "" && Attribution(p, m).Some? {
        RouteForgotten(p, g.(handled := g.handled + 1), now, Attribution(p, m).value, m, i);
      }
    case DropsReported => ReportAllForgotten(p, g, g.live, i); ReportAllSteady(p, g, g.live, now, i);
    case IdleSwept => SelectAreLive(p, g.objs, g.live, Survives(now));
    case TickPosts =>
      var group := First(POSTS_AT_ONCE, g.tick.rest);
      StartAllFacts(p, g.(tick := g.tick.(rest := g.tick.rest[|group|..])), now, group, true);
    case Signalled => StartAllFacts(p, g, now, g.live, false);
    case _ =>
  }

  lemma {:induction false} SelectAreLive(p: Params, objs: seq<Stream>, ids: seq<nat>, pick: Pick)
    requires forall i :: 0 <= i < |ids| ==> ids[i] < |objs|
    ensures forall id :: id in Select(p, objs, ids, pick) ==> id in ids
  {
    if ids != [] { SelectAreLive(p, objs, ids[..|ids|-1], pick); }
  }

  lemma SweepStepIs(p: Params, g0: Gateway, now: int)
    requires Inv(p, g0) && Enabled(p, g0, now, IdleSwept)
    ensures Distinct(g0.live) && InRange(g0.live, g0)
    ensures Step(p, g0, now, IdleSwept).objs == g0.objs
    ensures Step(p, g0, now, IdleSwept).live == Select(p, g0.objs, g0.live, Survives(now))
  {
    hide Streams, Posts, Retired, Balance, TickInv, Select;
  }

  lemma ToldSweep(p: Params, g0: Gateway, now: int)
    requires Inv(p, g0) && Enabled(p, g0, now, IdleSwept)
    requires forall i :: 0 <= i < |g0.objs| && i !in g0.live ==> i !in Step(p, g0, now, IdleSwept).live
    ensures SweptTold(Step(p, g0, now, IdleSwept)) <==> SweptTold(g0) && TidySweep(p, g0, now)
  {
    hide Step, Enabled, Inv, Select, SweepKeeps;
    var g' := Step(p, g0, now, IdleSwept);
    SweepStepIs(p, g0, now);
    SelectFacts(p, g0.objs, g0.live, Survives(now));
    if SweptTold(g') {
      forall i | 0 <= i < |g0.live| && !SweepKeeps(p, g0.objs[g0.live[i]], now)
        ensures g0.objs[g0.live[i]].dropped == 0
      {
        assert g0.live[i] in g0.live && g0.live[i] !in g'.live;
      }
    }
  }

  /** One step forgets an unreported drop exactly when it is a sweep that takes a stream with one. */
  lemma ToldStep(p: Params, g0: Gateway, now: int, e: Event)
    requires Inv(p, g0) && Enabled(p, g0, now, e)
    ensures SweptTold(Step(p, g0, now, e)) <==>
            SweptTold(g0) && (e.IdleSwept? ==> TidySweep(p, g0, now))
  {
    hide Step, Enabled, Inv, TidySweep;
    var g' := Step(p, g0, now, e);
    forall i | 0 <= i < |g0.objs| && i !in g0.live
      ensures i < |g'.objs| && i !in g'.live && g'.objs[i].dropped == g0.objs[i].dropped
    {
      ForgottenDropped(p, g0, now, e, i);
    }
    if e.IdleSwept? { ToldSweep(p, g0, now); } else { OnlySweepForgets(p, g0, now, e); }
  }

  // ── drops that are out of every count and every report ────────────────────

  /** Every drop is still counted on a live stream, or is in a report that was shipped or is held. */
  ghost predicate AllTold(g: Gateway) {
    SweptTold(g) && forall i :: 0 <= i < |g.objs| ==> Untold(g.objs[i]) == 0
  }

  /** The step takes no report with it, and if it is a sweep, no stream with a drop still to report. */
  ghost predicate TidyStep(p: Params, g: Gateway, now: int, e: Event) {
    && (forall x :: 0 <= x < |g.objs| ==> Spill(p, g, now, e, x) == 0)
    && (e.IdleSwept? ==> TidySweep(p, g, now))
  }

  lemma AllToldStep(p: Params, g0: Gateway, now: int, e: Event)
    requires Inv(p, g0) && Enabled(p, g0, now, e)
    ensures AllTold(Step(p, g0, now, e)) <==> AllTold(g0) && TidyStep(p, g0, now, e)
  {
    hide Step, Enabled, Inv, SweptTold, TidySweep, Spill, Untold;
    ToldStep(p, g0, now, e);
    LiveIsDistinct(p, g0);
    var g' := Step(p, g0, now, e);
    forall x: nat
      ensures |g0.objs| <= |g'.objs|
      ensures x < |g0.objs| ==> Untold(g'.objs[x]) == Untold(g0.objs[x]) + Spill(p, g0, now, e, x)
      ensures |g0.objs| <= x < |g'.objs| ==> Untold(g'.objs[x]) == 0
    {
      UntoldStep(p, g0, now, e, x);
    }
  }

  lemma LiveIsDistinct(p: Params, g: Gateway)
    requires Inv(p, g)
    ensures Distinct(g.live)
  {
    hide Streams, Posts, Retired, Balance, TickInv;
  }

  ghost predicate TidyRun(p: Params, g: Gateway, evs: seq<Timed>)
    requires Legal(p, g, evs)
    decreases |evs|
  {
    evs == [] ||
    (TidyStep(p, g, evs[0].0, evs[0].1) && TidyRun(p, Step(p, g, evs[0].0, evs[0].1), evs[1..]))
  }

  /**
   * Over whole runs: every drop is still counted, or in a report shipped or held, if and only if no
   * step drops, clears or loses a report and no sweep takes a stream with a drop still to report.
   */
  lemma {:induction false} DropsToldExactlyWhenTidy(p: Params, g: Gateway, evs: seq<Timed>)
    requires Inv(p, g) && Legal(p, g, evs)
    ensures AllTold(After(p, g, evs)) <==> AllTold(g) && TidyRun(p, g, evs)
    decreases |evs|
  {
    hide Step, Enabled, Core, TickInv, AllTold, TidyStep;
    if evs != [] {
      CoreStep(p, g, evs[0].0, evs[0].1);
      TickStep(p, g, evs[0].0, evs[0].1);
      AllToldStep(p, g, evs[0].0, evs[0].1);
      DropsToldExactlyWhenTidy(p, Step(p, g, evs[0].0, evs[0].1), evs[1..]);
    }
  }

  // ── and runs that show each way ───────────────────────────────────────────

  /** A POST that throws: the line was received and is nowhere. */
  lemma ThrowLosesALine(p: Params)
    ensures exists g :: Reachable(p, g) && |g.objs| == 1 && g.objs[0].received == 1 &&
                        Missing(g.objs[0]) == 1 && AllTold(g)
  {
    hide Reachable;
    var g := OneLineReady(p, 1);
    var g1 := OneLinePosted(p, g, 1);
    ReachStep(p, g1, 1, PostReturns(0, Threw));
    var g2 := Step(p, g1, 1, PostReturns(0, Threw));
    OneLinesFate(p, g.objs[0], Threw);
    assert AllTold(g2);
  }

  /** A line posted alone and answered. */
  lemma OneLinesFate(p: Params, s: Stream, reply: Reply)
    requires s == Enqueued(p.maxQueue, OnlyStream(p, 1), Hello(0, p))
    ensures Begun(s).batch == [Hello(0, p)] == s.arrived && Begun(s).queue == [] && s.dropped == 0
    ensures Untold(s) == 0 && Untold(Ended(p, Begun(s), Threw, 1)) == 0
    ensures Missing(Ended(p, Begun(s), Threw, 1)) == 1
  {
  }

  /** A stream whose whole queue was posted and refused. */
  function AllRefused(s: Stream): Stream {
    s.(queue := [], batch := [], dropped := s.dropped + |s.queue|, discarded := s.discarded + s.queue)
  }

  lemma RefusedBatch(p: Params, s: Stream, now: int)
    requires CanFlush(s) && TakeCount(s) == |s.queue|
    ensures Ended(p, Begun(s), Status(400), now) == AllRefused(s)
  {
  }

  /** ...in a run: the only stream's POST comes back with 400, and the tick ends. */
  lemma OneRefused(p: Params, g: Gateway, t: int, s: Stream) returns (g': Gateway)
    requires Reachable(p, g) && !g.exited && g.clock == t && g.live == [0] && g.tick == Shipping(t, [], {0})
    requires g.objs == [Begun(s)] && Begun(s).flushing && CanFlush(s) && TakeCount(s) == |s.queue|
    ensures Reachable(p, g') && !g'.exited && g'.clock == t && g'.live == [0] && g'.tick == Idle
    ensures g'.objs == [AllRefused(s)] && g'.nextId == g.nextId
  {
    hide Reachable, Select, StartAll, ReportAll, OnMessage, PollDone, TickGroup, SweepIdle, Ended, Begun, AllRefused;
    RefusedBatch(p, s, t);
    ReachStep(p, g, t, PostReturns(0, Status(400)));
    var g1 := Step(p, g, t, PostReturns(0, Status(400)));
    assert g1.tick == Shipping(t, [], {});
    ReachStep(p, g1, t, TickEnds);
    g' := Step(p, g1, t, TickEnds);
  }

  /** The first line, posted alone and refused. */
  lemma HelloRefused(p: Params, t: int) returns (g: Gateway)
    requires 0 < t
    ensures Reachable(p, g) && !g.exited && g.clock == t && g.live == [0] && g.tick == Idle
    ensures g.objs == [AllRefused(Enqueued(p.maxQueue, OnlyStream(p, t), Hello(0, p)))]
  {
    hide Reachable;
    var h := OneLineReady(p, t);
    var h1 := OneLinePosted(p, h, t);
    g := OneRefused(p, h1, t, h.objs[0]);
  }

  /** Its loss reported, and the report about to be posted. */
  lemma ReportReady(p: Params) returns (g: Gateway)
    ensures Reachable(p, g) && !g.exited && g.clock == 1 && g.tick == Shipping(1, [0], {}) && g.live == [0]
    ensures |g.objs| == 1 && CanFlush(g.objs[0]) && TakeCount(g.objs[0]) == 1 && |g.objs[0].queue| == 1
    ensures var s := g.objs[0];
            && s.queue[0].entry.line.DropReport? && s.queue[0].entry.line.n == 1
            && s.dropped == 0 && s.discarded == [Hello(0, p)] && s.cleared == [] && s.lost == [] && s.acked == []
  {
    hide Reachable, Select, StartAll, ReportAll, OnMessage, PollDone, TickGroup, SweepIdle, FinishFlush;
    var h := HelloRefused(p, 1);
    ReportOneOnly(p, h);
    ReachStep(p, h, 1, DropsReported);
    var h1 := Step(p, h, 1, DropsReported);
    g := NextTick(p, h1, 1);
  }

  lemma ReportOneOnly(p: Params, g: Gateway)
    requires |g.objs| == 1
    ensures ReportAll(p, g, [0]) == ReportOne(p, g, 0)
  {
    assert [0][..0] == [];
  }

  /** In any mode, without a throw or a sweep: the report of a loss can be refused like any line, and the loss goes untold. */
  lemma ReportCanBeDropped(p: Params)
    ensures exists g :: Reachable(p, g) && |g.objs| == 1 && AllLost(g.objs) == 0 && SweptTold(g) &&
                        |g.objs[0].discarded| == 2 && g.objs[0].dropped == 1 && Told(g.objs[0]) == 0 && Untold(g.objs[0]) == 1
  {
    hide Reachable, Select, StartAll, ReportAll, OnMessage, PollDone, TickGroup, SweepIdle;
    var g := ReportReady(p);
    var g1 := OneLinePosted(p, g, 1);
    var s := g.objs[0];
    var g2 := OneRefused(p, g1, 1, s);
    ReportRefused(p, s, g2);
  }

  lemma ReportRefused(p: Params, s: Stream, g: Gateway)
    requires |s.queue| == 1 && s.queue[0].entry.line.DropReport? && s.queue[0].entry.line.n == 1
    requires s.dropped == 0 && s.discarded == [Hello(0, p)] && s.cleared == s.lost == s.acked == []
    requires g.objs == [AllRefused(s)] && g.live == [0]
    ensures AllLost(g.objs) == 0 && SweptTold(g)
    ensures var r := g.objs[0]; |r.discarded| == 2 && r.dropped == 1 && Told(r) == 0 && Untold(r) == 1
  {
    DropsJoin([Hello(0, p)], s.queue);
    assert s.queue == [s.queue[0]];
    OneReport(Hello(0, p), s.queue[0]);
    assert g.objs[..0] == [];
  }

  lemma OneReport(m: Item, r: Item)
    requires m.entry.line.Text? && r.entry.line.DropReport?
    ensures ReportedDrops([m]) == 0 && ReportedDrops([r]) == r.entry.line.n && ReportedDrops([]) == 0
  {
    assert [m][..0] == [] && [r][..0] == [];
  }

  /** In tunnel mode, where streams are never polled, a refused batch can be forgotten before it is reported. */
  lemma SweepCanForgetADrop(p: Params)
    requires p.mode == TunnelMode
    ensures exists g :: Reachable(p, g) && !SweptTold(g)
  {
    hide Reachable, Select, StartAll, ReportAll, OnMessage, PollDone, TickGroup;
    var t := 600000 + 2 * p.pollMs;
    var g := HelloRefused(p, t);
    PickOne(p, g.objs, 0, Survives(t));
    ReachStep(p, g, t, IdleSwept);
    var g1 := Step(p, g, t, IdleSwept);
    assert !SweptTold(g1);
  }
}
