/**
 * The scheduler's side of the invariant, and the invariant over whole runs:
 * while no shutdown has been signalled only the scheduler ships, it ships at
 * most eight streams at once, and none before its backoff and its refusal have
 * run out.
 */
module TickLaws {
  import opened Distinctness
  import opened Wrappers
  import opened StreamModel
  import opened StreamLaws
  import opened GatewayModel
  import opened GatewayLaws

  /** Once the process has ended the scheduler's locals no longer mean anything. */
  ghost predicate TickInv(p: Params, g: Gateway) {
    !g.exited ==> TickSound(p, g) && OnlyTickShips(g)
  }

  ghost predicate Inv(p: Params, g: Gateway) {
    Core(p, g) && TickInv(p, g)
  }

  /** The fields of a stream the scheduler looks at. */
  ghost predicate SameTiming(s: Stream, s': Stream) {
    s'.flushing == s.flushing && s'.retryAt == s.retryAt && s'.badUntil == s.badUntil
  }

  lemma TickFrame(p: Params, g: Gateway, g': Gateway)
    requires TickSound(p, g) && OnlyTickShips(g)
    requires g'.tick == g.tick && g.clock <= g'.clock && g'.passes == g.passes
    requires |g.objs| <= |g'.objs|
    requires forall i :: 0 <= i < |g.objs| ==> SameTiming(g.objs[i], g'.objs[i])
    requires forall i :: |g.objs| <= i < |g'.objs| ==> !g'.objs[i].flushing
    ensures TickSound(p, g') && OnlyTickShips(g')
  {
  }

  /** What an arrival leaves alone: the scheduler, and when each stream may ship. */
  ghost predicate Quiet(g: Gateway, g': Gateway) {
    && g'.tick == g.tick && g'.clock == g.clock && g'.passes == g.passes && g'.exited == g.exited
    && |g.objs| <= |g'.objs|
    && (forall i :: 0 <= i < |g.objs| ==> SameTiming(g.objs[i], g'.objs[i]))
    && (forall i :: |g.objs| <= i < |g'.objs| ==> !g'.objs[i].flushing)
  }

  lemma AdmitTiming(p: Params, g: Gateway, now: int, sid: nat, who: string, m: Message)
    requires sid < |g.objs|
    ensures Quiet(g, Admit(p, g, now, sid, who, m)) && Quiet(g, Deliver(p, g, sid, who, m))
  {
  }

  lemma ArrivalTiming(p: Params, g: Gateway, now: int, m: Message)
    ensures Quiet(g, OnMessage(p, g, now, m))
  {
    hide Admit, Deliver;
    if m.raw != "" && Attribution(p, m).Some? {
      var who := Attribution(p, m).value;
      var g1 := g.(handled := g.handled + 1);
      match Find(g.objs, g.live, who)
      case Some(sid) => AdmitTiming(p, g1, now, sid, who, m);
      case None => AdmitTiming(p, Create(g1, who), now, |g.objs|, who, m);
    }
  }

  lemma {:induction false} ReportAllTiming(p: Params, g: Gateway, ids: seq<nat>)
    requires InRange(ids, g)
    ensures var g' := ReportAll(p, g, ids);
            && g'.tick == g.tick && g'.clock == g.clock && g'.passes == g.passes && g'.exited == g.exited
            && forall i :: 0 <= i < |g.objs| ==> SameTiming(g.objs[i], g'.objs[i])
  {
    if ids != [] {
      ReportAllTiming(p, g, ids[..|ids|-1]);
    }
  }

  // ── starting a group of POSTs ─────────────────────────────────────────────

  lemma BegunFlushes(s: Stream)
    ensures Begun(s).flushing
  {
  }

  /** A pass of `flush` takes one batch of each stream that could ship, and changes no other. */
  lemma {:induction false} StartAllFacts(p: Params, g: Gateway, now: int, ids: seq<nat>, byTick: bool)
    requires InRange(ids, g)
    ensures var g' := StartAll(p, g, now, ids, byTick);
            && g'.clock == g.clock && g'.passes == g.passes && g'.exited == g.exited && g'.live == g.live
            && (forall i :: 0 <= i < |g.objs| ==>
                  || g'.objs[i] == g.objs[i]
                  || (i in ids && CanFlush(g.objs[i]) && g'.objs[i] == Begun(g.objs[i])))
  {
    hide Begun, PostOf;
    if ids != [] {
      StartAllFacts(p, g, now, ids[..|ids|-1], byTick);
      BegunFlushes(g.objs[ids[|ids|-1]]);
      assert ids == ids[..|ids|-1] + [ids[|ids|-1]];
    }
  }

  /** A pass begins exactly those of its streams that could ship. */
  lemma {:induction false} StartAllExactly(p: Params, g: Gateway, now: int, ids: seq<nat>, byTick: bool, i: nat)
    requires InRange(ids, g) && i < |g.objs|
    ensures StartAll(p, g, now, ids, byTick).objs[i] ==
            if i in ids && CanFlush(g.objs[i]) then Begun(g.objs[i]) else g.objs[i]
  {
    hide Begun, PostOf;
    if ids != [] {
      var n := |ids| - 1;
      StartAllExactly(p, g, now, ids[..n], byTick, i);
      BegunFlushes(g.objs[i]);
      assert ids == ids[..n] + [ids[n]];
    }
  }

  /** The scheduler waits for exactly the POSTs of the group that started. */
  lemma {:induction false} StartAllWaiting(p: Params, g: Gateway, now: int, ids: seq<nat>)
    requires InRange(ids, g) && g.tick.Shipping?
    ensures var g' := StartAll(p, g, now, ids, true);
            && g'.tick.Shipping? && g'.tick.t == g.tick.t && g'.tick.rest == g.tick.rest
            && (forall id :: id in g'.tick.waiting ==>
                  id in g.tick.waiting || (id in ids && id < |g.objs| && g'.objs[id].flushing))
            && g.tick.waiting <= g'.tick.waiting
            && (forall i :: 0 <= i < |g.objs| && g'.objs[i].flushing && !g.objs[i].flushing ==> i in g'.tick.waiting)
            && |g'.tick.waiting| <= |g.tick.waiting| + |ids|
  {
    hide Begun, PostOf;
    if ids != [] {
      var n := |ids| - 1;
      BegunFlushes(StartAll(p, g, now, ids[..n], true).objs[ids[n]]);
      StartAllWaiting(p, g, now, ids[..n]);
      StartAllFacts(p, g, now, ids[..n], true);
      assert ids == ids[..n] + [ids[n]];
    }
  }

  lemma {:induction false} StartAllTickKept(p: Params, g: Gateway, now: int, ids: seq<nat>)
    requires InRange(ids, g)
    ensures StartAll(p, g, now, ids, false).tick == g.tick
  {
    if ids != [] {
      StartAllTickKept(p, g, now, ids[..|ids|-1]);
    }
  }

  lemma TickGroupTick(p: Params, g: Gateway, now: int)
    requires TickSound(p, g) && OnlyTickShips(g)
    requires g.tick.Shipping? && g.tick.waiting == {} && InRange(g.tick.rest, g)
    ensures var g' := TickGroup(p, g, now); TickSound(p, g') && OnlyTickShips(g')
  {
    var group := First(POSTS_AT_ONCE, g.tick.rest);
    var rest := g.tick.rest[|group|..];
    var g1 := g.(tick := g.tick.(rest := rest));
    var g' := TickGroup(p, g, now);
    StartAllWaiting(p, g1, now, group);
    StartAllFacts(p, g1, now, group, true);
    forall id | id in g'.tick.waiting
      ensures id !in rest
    {
      var i :| 0 <= i < |group| && group[i] == id;
      assert g.tick.rest[i] == id;
    }
    if !g.Draining() {
      forall i | 0 <= i < |rest|
        ensures IsReady(g'.objs[rest[i]], g.tick.t)
      {
        assert rest[i] == g.tick.rest[i + |group|];
      }
    }
  }

  // ── every step ────────────────────────────────────────────────────────────

  lemma CoreStep(p: Params, g0: Gateway, now: int, e: Event)
    requires Core(p, g0) && Enabled(p, g0, now, e)
    ensures Core(p, Step(p, g0, now, e))
  {
    hide StreamInv, PostSound, OnMessage, TickStart, PollSend, PollDone, TickGroup, FinishFlush, ReportDrops, SweepIdle, StartAll;
    var g := g0.(clock := now);
    CountersKeep(p, g0, g);
    match e
    case Arrival(m) => ArrivalKeeps(p, g, now, m);
    case TickStarts => TickStartKeeps(p, g, now);
    case PollSends => PollSendKeeps(p, g, now);
    case PollReturns(reply) => PollDoneKeeps(p, g, now, reply);
    case TickRanks => CountersKeep(p, g, TickReady(p, g));
    case TickPosts => TickGroupKeeps(p, g, now);
    case PostReturns(sid, reply) => FinishFlushKeeps(p, g, now, sid, reply);
    case TickEnds => CountersKeep(p, g, g.(tick := Idle));
    case DropsReported => ReportDropsKeeps(p, g);
    case IdleSwept => SweepKeepsCore(p, g, now);
    case Signalled =>
      StartAllKeeps(p, g, now, g.live, false);
      CountersKeep(p, StartAll(p, g, now, g.live, false), Shutdown(p, g, now));
    case PassEnds => CountersKeep(p, g, g.(exited := true));
  }

  lemma TickStartKeeps(p: Params, g: Gateway, now: int)
    requires Core(p, g)
    ensures Core(p, TickStart(p, g, now))
  {
    hide StreamInv, PostSound, Select;
    CountersKeep(p, g, TickStart(p, g, now));
  }

  lemma TickGroupKeeps(p: Params, g: Gateway, now: int)
    requires Core(p, g) && g.tick.Shipping? && InRange(g.tick.rest, g)
    ensures Core(p, TickGroup(p, g, now))
  {
    hide StreamInv, PostSound, StartAll;
    var group := First(POSTS_AT_ONCE, g.tick.rest);
    var g1 := g.(tick := g.tick.(rest := g.tick.rest[|group|..]));
    CountersKeep(p, g, g1);
    StartAllKeeps(p, g1, now, group, true);
  }

  lemma TickStartTick(p: Params, g: Gateway, now: int)
    requires TickSound(p, g) && OnlyTickShips(g) && g.tick.Idle? && now == g.clock
    requires InRange(g.live, g) && Distinct(g.live)
    ensures var g' := TickStart(p, g, now); TickSound(p, g') && OnlyTickShips(g')
  {
    SelectFacts(p, g.objs, g.live, DueAt(now));
    var pending := TickStart(p, g, now).tick.pending;
    assert forall i :: 0 <= i < |pending| ==> pending[i] in Select(p, g.objs, g.live, DueAt(now));
  }

  lemma TickReadyTick(p: Params, g: Gateway)
    requires TickSound(p, g) && OnlyTickShips(g) && g.tick.Polling?
    requires InRange(g.live, g) && Distinct(g.live)
    ensures var g' := TickReady(p, g); TickSound(p, g') && OnlyTickShips(g')
  {
    SelectFacts(p, g.objs, g.live, ReadyAt(g.tick.t));
    var rest := TickReady(p, g).tick.rest;
    assert forall i :: 0 <= i < |rest| ==> rest[i] in Select(p, g.objs, g.live, ReadyAt(g.tick.t));
  }

  lemma PollTick(p: Params, g: Gateway, now: int, reply: PollReply)
    requires TickSound(p, g) && OnlyTickShips(g) && g.tick.Polling?
    ensures g.tick.pending != [] ==>
              var g' := PollSend(g, now); TickSound(p, g') && OnlyTickShips(g')
    ensures g.tick.current.Some? ==>
              var g' := PollDone(p, g, now, reply); TickSound(p, g') && OnlyTickShips(g')
  {
  }

  lemma FinishTick(p: Params, g: Gateway, now: int, sid: nat, reply: Reply)
    requires TickSound(p, g) && OnlyTickShips(g) && sid < |g.objs| && g.objs[sid].flushing
    requires !Fatal(p.mode, reply)
    ensures var g' := FinishFlush(p, g, now, sid, reply); TickSound(p, g') && OnlyTickShips(g')
  {
    hide Ended;
    EndFacts(p, g.objs[sid], reply, now);
  }

  lemma SignalTick(p: Params, g: Gateway, now: int)
    requires TickSound(p, g) && OnlyTickShips(g) && InRange(g.live, g)
    ensures var g' := Shutdown(p, g, now); TickSound(p, g') && OnlyTickShips(g')
  {
    hide StartAll;
    StartAllFacts(p, g, now, g.live, false);
    StartAllTickKept(p, g, now, g.live);
  }

  lemma TickStep(p: Params, g0: Gateway, now: int, e: Event)
    requires Core(p, g0) && TickInv(p, g0) && Enabled(p, g0, now, e)
    ensures TickInv(p, Step(p, g0, now, e))
  {
    hide Streams, Retired, Balance, Posts, OnMessage, ReportAll, StartAll, Ended, Select,
         TickGroup, TickStart, TickReady, PollSend, PollDone, Shutdown;
    var g := g0.(clock := now);
    TickFrame(p, g0, g);
    match e
    case Arrival(m) => ArrivalTiming(p, g, now, m); TickFrame(p, g, OnMessage(p, g, now, m));
    case TickStarts => TickStartTick(p, g, now);
    case PollSends => PollTick(p, g, now, PollNotOk);
    case PollReturns(reply) => PollTick(p, g, now, reply);
    case TickRanks => TickReadyTick(p, g);
    case TickPosts => TickGroupTick(p, g, now);
    case PostReturns(sid, reply) =>
      if !Fatal(p.mode, reply) { FinishTick(p, g, now, sid, reply); }
    case TickEnds =>
    case DropsReported => ReportAllTiming(p, g, g.live); TickFrame(p, g, ReportDrops(p, g));
    case IdleSwept =>
    case Signalled => SignalTick(p, g, now);
    case PassEnds =>
  }

  // ── who is in the map ─────────────────────────────────────────────────────

  lemma ArrivalLive(p: Params, g: Gateway, now: int, m: Message)
    ensures var g' := OnMessage(p, g, now, m);
            && g.live <= g'.live
            && (forall i :: |g.objs| <= i < |g'.objs| ==> i in g'.live)
            && forall i :: i in g'.live ==> i in g.live || i >= |g.objs|
  {
    hide Deliver, Admit, Attribution, Find;
    var who := Attribution(p, m);
    if m.raw != "" && who.Some? {
      var g1 := g.(handled := g.handled + 1);
      match Find(g.objs, g.live, who.value)
      case Some(sid) => DeliveryTouchesOne(p, g1, now, sid, who.value, m);
      case None => DeliveryTouchesOne(p, Create(g1, who.value), now, |g.objs|, who.value, m);
    }
  }

  /** Only the sweep ever forgets a stream. */
  lemma OnlySweepForgets(p: Params, g0: Gateway, now: int, e: Event)
    requires Enabled(p, g0, now, e) && !e.IdleSwept?
    ensures g0.live <= Step(p, g0, now, e).live
    ensures forall i :: |g0.objs| <= i < |Step(p, g0, now, e).objs| ==> i in Step(p, g0, now, e).live
  {
    hide Select, StartAll, ReportAll, Ended, OnMessage;
    var g := g0.(clock := now);
    match e
    case Arrival(m) => ArrivalLive(p, g, now, m);
    case DropsReported => ReportAllLive(p, g, g.live);
    case TickPosts =>
      var group := First(POSTS_AT_ONCE, g.tick.rest);
      StartAllFacts(p, g.(tick := g.tick.(rest := g.tick.rest[|group|..])), now, group, true);
    case Signalled => StartAllFacts(p, g, now, g.live, false);
    case _ =>
  }

  /** No forgotten stream object comes back into the map. */
  lemma NoneComesBack(p: Params, g0: Gateway, now: int, e: Event, id: nat)
    requires Core(p, g0) && Enabled(p, g0, now, e) && id in Step(p, g0, now, e).live
    ensures id in g0.live || id >= |g0.objs|
  {
    hide StreamInv, PostSound, Select, StartAll, ReportAll, Ended, OnMessage;
    var g := g0.(clock := now);
    match e {
    case Arrival(m) => ArrivalLive(p, g, now, m);
    case DropsReported => ReportAllLive(p, g, g.live);
    case TickPosts =>
      var group := First(POSTS_AT_ONCE, g.tick.rest);
      StartAllFacts(p, g.(tick := g.tick.(rest := g.tick.rest[|group|..])), now, group, true);
    case Signalled => StartAllFacts(p, g, now, g.live, false);
    case IdleSwept => SelectFacts(p, g.objs, g.live, Survives(now));
    case _ =>
    }
  }

  /**
   * The one way out of the map: a sweep that finds a stream with nothing queued and nothing in flight,
   * its last poll two poll intervals, and ten minutes, ago, and no refusal still running.
   */
  lemma LeavesExactly(p: Params, g: Gateway, now: int, e: Event, x: nat)
    requires Core(p, g) && Enabled(p, g, now, e) && x in g.live && x < |g.objs|
    ensures var s := g.objs[x];
            x !in Step(p, g, now, e).live <==>
            e.IdleSwept? && s.queue == [] && !s.flushing && s.badUntil <= now &&
            now - s.polledAt >= 2 * p.pollMs && now - s.polledAt >= 600000
  {
    hide StreamInv, PostSound, Select, Step, Enabled;
    if e.IdleSwept? {
      SweptLive(p, g, now);
      OrderDistinct(p, g);
      SelectFacts(p, g.objs, g.live, Survives(now));
    } else {
      OnlySweepForgets(p, g, now, e);
    }
  }

  lemma SweptLive(p: Params, g: Gateway, now: int)
    requires Enabled(p, g, now, IdleSwept)
    ensures InRange(g.live, g) && Step(p, g, now, IdleSwept).live == Select(p, g.objs, g.live, Survives(now))
  {
    hide Select;
  }

  lemma OrderDistinct(p: Params, g: Gateway)
    requires Core(p, g)
    ensures Distinct(g.live)
  {
    hide Streams, Posts, Retired, Balance;
  }

  // ── the end of the process ────────────────────────────────────────────────

  /** The steps that end the process: a shutdown's pass that is over, and outside gateway mode a refused key, which the tunnel's 404 counts as. */
  predicate Exits(mode: Mode, e: Event) {
    match e
    case PassEnds => true
    case PollReturns(reply) => mode != GatewayMode && reply.PollRefused?
    case PostReturns(_, Status(code)) =>
      mode != GatewayMode &&
      (code == 401 || (mode == CollectorMode && code == 403) || (mode == TunnelMode && code == 404))
    case _ => false
  }

  lemma ExitsExactly(p: Params, g0: Gateway, now: int, e: Event)
    requires Enabled(p, g0, now, e)
    ensures Step(p, g0, now, e).exited <==> Exits(p.mode, e)
  {
    hide Select, StartAll, ReportAll, Ended, OnMessage;
    var g := g0.(clock := now);
    match e
    case Arrival(m) => ArrivalTiming(p, g, now, m);
    case DropsReported => ReportAllTiming(p, g, g.live);
    case TickPosts =>
      var group := First(POSTS_AT_ONCE, g.tick.rest);
      StartAllFacts(p, g.(tick := g.tick.(rest := g.tick.rest[|group|..])), now, group, true);
    case Signalled => StartAllFacts(p, g, now, g.live, false);
    case _ =>
  }

  // ── runs ──────────────────────────────────────────────────────────────────

  lemma BootStream(p: Params, now: int, reply: PollReply)
    ensures var s := NewStream(p.key).(polledAt := now);
            StreamInv(p, if reply.PollOk? then Configured(s, reply.patch) else s, 0)
  {
    hide StreamInv;
    var s := NewStream(p.key).(polledAt := now);
    NewStreamInv(p, p.key, 0);
    PollStampKeeps(p, NewStream(p.key), now, 0);
    if reply.PollOk? { ConfigureKeeps(p, s, reply.patch, 0); }
  }

  lemma BootShape(p: Params, now: int, reply: PollReply)
    ensures Shape(p, Boot(p, now, reply))
  {
  }

  lemma BootStreams(p: Params, now: int, reply: PollReply)
    ensures Streams(p, Boot(p, now, reply))
  {
    hide StreamInv, Configured;
    BootStream(p, now, reply);
  }

  lemma SumsOfNothing(objs: seq<Stream>)
    requires |objs| <= 1 && (|objs| == 1 ==> objs[0].arrived == [] && objs[0].cleared == [])
    ensures AllMessages(objs) == 0 && AllCleared(objs) == 0
  {
    if |objs| == 1 { assert objs[..0] == []; }
  }

  lemma BootBalance(p: Params, now: int, reply: PollReply)
    ensures Balance(Boot(p, now, reply), 0)
  {
    hide AllMessages, AllCleared;
    SumsOfNothing(Boot(p, now, reply).objs);
  }

  lemma BootInv(p: Params, now: int, reply: PollReply)
    ensures Inv(p, Boot(p, now, reply))
  {
    hide Shape, Streams, Balance;
    BootShape(p, now, reply);
    BootStreams(p, now, reply);
    BootBalance(p, now, reply);
  }

  /** Every interleaving of arrivals, polls, POSTs, reports, sweeps, ticks and signals keeps the invariant. */
  lemma {:induction false} RunInv(p: Params, g: Gateway, evs: seq<Timed>)
    requires Inv(p, g) && Legal(p, g, evs)
    ensures Inv(p, After(p, g, evs))
    decreases |evs|
  {
    hide Core, TickInv, Step, Enabled;
    if evs != [] {
      CoreStep(p, g, evs[0].0, evs[0].1);
      TickStep(p, g, evs[0].0, evs[0].1);
      RunInv(p, Step(p, g, evs[0].0, evs[0].1), evs[1..]);
    }
  }
}
