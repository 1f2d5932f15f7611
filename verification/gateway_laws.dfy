/**
 * What holds in every state of every interleaving: the map is well formed and
 * capped, forgotten streams are empty, every message is accounted for, every
 * POST is one tenant's own lines, and at most eight POSTs run at once.
 */
module GatewayLaws {
  import opened Distinctness
  import opened Wrappers
  import opened StreamModel
  import opened StreamLaws
  import opened GatewayModel

  // ── the invariant ─────────────────────────────────────────────────────────

  /** Map keys are the streams' own tokens, each once, and no more than the cap. */
  ghost predicate Shape(p: Params, g: Gateway) {
    && InRange(g.live, g)
    && Distinct(g.live)
    && (forall a, b :: a in g.live && b in g.live && g.objs[a].token == g.objs[b].token ==> a == b)
    && (p.mode != CollectorMode ==> |g.live| <= p.maxTenants)
    && (p.mode == CollectorMode ==> g.live == [0] && |g.objs| > 0 && g.objs[0].token == p.key)
  }

  ghost predicate Streams(p: Params, g: Gateway) {
    forall i :: 0 <= i < |g.objs| ==> StreamInv(p, g.objs[i], g.nextId)
  }

  /** A stream object the map has forgotten holds nothing and ships nothing. */
  ghost predicate Retired(g: Gateway) {
    forall i :: 0 <= i < |g.objs| && i !in g.live ==> g.objs[i].queue == [] && !g.objs[i].flushing
  }

  function ClaimFor(p: Params, token: string): Claim {
    if p.mode == TunnelMode then SourceIp(p.tunnelKey, token) else Bearer(token)
  }

  /** A POST carries one tenant's own lines, as they arrived, each prefixed once. */
  ghost predicate PostSound(p: Params, g: Gateway, q: Post) {
    && q.sid < |g.objs|
    && q.claim == ClaimFor(p, g.objs[q.sid].token)
    && (forall i :: 0 <= i < |q.items| ==>
          q.items[i].origin == g.objs[q.sid].token && q.items[i] in g.objs[q.sid].arrived)
    && q.logs == Prefixed(q.prefix, q.items)
  }

  ghost predicate Posts(p: Params, g: Gateway) {
    forall i :: 0 <= i < |g.posts| ==> PostSound(p, g, g.posts[i])
  }

  /** Lines of a stream that devices sent, as opposed to the collector's own reports. */
  function Messages(s: Stream): nat {
    |s.arrived| - ReportLines(s.arrived)
  }

  function AllMessages(objs: seq<Stream>): nat {
    if objs == [] then 0 else AllMessages(objs[..|objs|-1]) + Messages(objs[|objs|-1])
  }

  function AllCleared(objs: seq<Stream>): nat {
    if objs == [] then 0 else AllCleared(objs[..|objs|-1]) + |objs[|objs|-1].cleared|
  }

  /** Every message handled, but for `open` not yet dealt with, was queued or counted as turned away. */
  ghost predicate Balance(g: Gateway, open: nat) {
    && g.handled == g.allUnattributed + g.allRefused + g.allDoor + AllMessages(g.objs) + open
    && g.allUnattributed == g.toldUnattributed + g.unattributed
    && g.allRefused == g.toldRefused + g.refusedTenants
    && g.allDoor + AllCleared(g.objs) == g.toldBadKey + g.badKeyDrops
  }

  ghost predicate Frame(p: Params, g: Gateway) {
    Shape(p, g) && Streams(p, g) && Retired(g) && Posts(p, g)
  }

  ghost predicate Core(p: Params, g: Gateway) {
    Frame(p, g) && Balance(g, 0)
  }

  /** The scheduler's locals agree with the streams. */
  ghost predicate TickSound(p: Params, g: Gateway) {
    match g.tick
    case Idle => true
    case Polling(t, pending, current) =>
      && t <= g.clock
      && InRange(pending, g) && (current.Some? ==> current.value < |g.objs|)
    case Shipping(t, rest, waiting) =>
      && t <= g.clock
      && InRange(rest, g) && Distinct(rest)
      && (forall id :: id in waiting ==> id < |g.objs| && g.objs[id].flushing && id !in rest)
      && |waiting| <= POSTS_AT_ONCE
      && (!g.Draining() ==> forall i :: 0 <= i < |rest| ==> IsReady(g.objs[rest[i]], t))
  }

  /** Until a shutdown is signalled, only the scheduler ships. */
  ghost predicate OnlyTickShips(g: Gateway) {
    !g.Draining() ==>
      forall i :: 0 <= i < |g.objs| && g.objs[i].flushing ==> g.tick.Shipping? && i in g.tick.waiting
  }


  // ── sums ──────────────────────────────────────────────────────────────────

  lemma {:induction false} SumsPut(objs: seq<Stream>, sid: nat, s: Stream)
    requires sid < |objs|
    ensures AllMessages(objs[sid := s]) == AllMessages(objs) - Messages(objs[sid]) + Messages(s)
    ensures AllCleared(objs[sid := s]) == AllCleared(objs) - |objs[sid].cleared| + |s.cleared|
  {
    var k := |objs| - 1;
    if sid == k {
      assert objs[sid := s][..k] == objs[..k];
    } else {
      assert objs[sid := s][..k] == objs[..k][sid := s];
      SumsPut(objs[..k], sid, s);
    }
  }

  lemma SumsAppend(objs: seq<Stream>, s: Stream)
    ensures AllMessages(objs + [s]) == AllMessages(objs) + Messages(s)
    ensures AllCleared(objs + [s]) == AllCleared(objs) + |s.cleared|
  {
    assert (objs + [s])[..|objs|] == objs;
  }

  /** What is delivered to one stream leaves the others and the map alone, and only its queue is touched. */
  lemma DeliveryTouchesOne(p: Params, g: Gateway, now: int, sid: nat, who: string, m: Message)
    requires sid < |g.objs|
    ensures forall g' :: g' == Deliver(p, g, sid, who, m) || g' == Admit(p, g, now, sid, who, m) ==>
              && g'.live == g.live && g'.posts == g.posts && g'.passes == g.passes && |g'.objs| == |g.objs|
              && g'.objs == g.objs[sid := g'.objs[sid]]
              && var s, s' := g.objs[sid], g'.objs[sid];
                 && s'.token == s.token && s'.polledAt == s.polledAt && s'.retryAt == s.retryAt
                 && s'.badUntil == s.badUntil && s'.lost == s.lost && s'.cfg == s.cfg
  {
  }

  // ── one stream changes ────────────────────────────────────────────────────

  lemma PostsLater(p: Params, g: Gateway, g': Gateway)
    requires Posts(p, g) && g'.posts == g.posts && |g.objs| <= |g'.objs|
    requires forall i :: 0 <= i < |g.objs| ==>
               g'.objs[i].token == g.objs[i].token && g.objs[i].arrived <= g'.objs[i].arrived
    ensures Posts(p, g')
  {
    forall i | 0 <= i < |g'.posts|
      ensures PostSound(p, g', g'.posts[i])
    {
      assert PostSound(p, g, g.posts[i]);
    }
  }

  /** A change of one stream that keeps its own invariant keeps everything but the sums. */
  lemma PutKeeps(p: Params, g: Gateway, sid: nat, s: Stream, next: nat)
    requires Frame(p, g)
    requires sid < |g.objs| && g.nextId <= next && StreamInv(p, s, next)
    requires s.token == g.objs[sid].token && g.objs[sid].arrived <= s.arrived
    requires sid !in g.live ==> s.queue == [] && !s.flushing
    ensures Frame(p, Put(g, sid, s).(nextId := next))
  {
    hide StreamInv;
    var g' := Put(g, sid, s).(nextId := next);
    forall i | 0 <= i < |g'.objs|
      ensures StreamInv(p, g'.objs[i], next)
    {
      if i != sid { LaterNext(p, g.objs[i], g.nextId, next); }
    }
    PostsLater(p, g, g');
  }

  lemma CreateKeeps(p: Params, g: Gateway, token: string, open: nat)
    requires Frame(p, g) && Balance(g, open)
    requires p.mode != CollectorMode && |g.live| < p.maxTenants
    requires Find(g.objs, g.live, token).None?
    ensures Frame(p, Create(g, token)) && Balance(Create(g, token), open)
  {
    hide StreamInv, Posts, Balance, Frame;
    NewStreamInv(p, token, g.nextId);
    CreateFramed(p, g, token);
    CreateBalanced(g, token, open);
  }

  lemma CreateFramed(p: Params, g: Gateway, token: string)
    requires Frame(p, g) && StreamInv(p, NewStream(token), g.nextId)
    requires p.mode != CollectorMode && |g.live| < p.maxTenants && Find(g.objs, g.live, token).None?
    ensures Frame(p, Create(g, token))
  {
    hide StreamInv, Posts;
    PostsLater(p, g, Create(g, token));
  }

  lemma CreateBalanced(g: Gateway, token: string, open: nat)
    requires Balance(g, open)
    ensures Balance(Create(g, token), open)
  {
    SumsAppend(g.objs, NewStream(token));
  }

  lemma DeliverKeeps(p: Params, g: Gateway, sid: nat, m: Message)
    requires Frame(p, g) && Balance(g, 1) && sid in g.live && sid < |g.objs|
    ensures Core(p, Deliver(p, g, sid, g.objs[sid].token, m))
  {
    hide StreamInv;
    var s := g.objs[sid];
    var it := Item(g.nextId, s.token, Entry(m.device, Text(m.text), m.sev));
    EnqueueKeeps(p, s, it);
    ReportAppend(s.arrived, it);
    PutKeeps(p, g, sid, Enqueued(p.maxQueue, s, it), g.nextId + 1);
    SumsPut(g.objs, sid, Enqueued(p.maxQueue, s, it));
  }

  lemma AdmitKeeps(p: Params, g: Gateway, now: int, sid: nat, m: Message)
    requires Frame(p, g) && Balance(g, 1) && sid in g.live && sid < |g.objs|
    ensures Core(p, Admit(p, g, now, sid, g.objs[sid].token, m))
  {
    hide StreamInv;
    if g.objs[sid].badUntil > now {
      PostsLater(p, g, Admit(p, g, now, sid, g.objs[sid].token, m));
    } else {
      DeliverKeeps(p, g, sid, m);
    }
  }

  /** The counters of lines turned away do not touch the rest. */
  lemma CountersKeep(p: Params, g: Gateway, g': Gateway)
    requires Frame(p, g)
    requires g'.objs == g.objs && g'.live == g.live && g'.nextId == g.nextId && g'.posts == g.posts
    ensures Frame(p, g')
  {
    hide StreamInv, PostSound;
    PostsLater(p, g, g');
  }

  lemma RouteKeeps(p: Params, g: Gateway, now: int, who: string, m: Message)
    requires Frame(p, g) && Balance(g, 1)
    requires p.mode == CollectorMode ==> who == p.key
    ensures Core(p, Route(p, g, now, who, m))
  {
    hide StreamInv, PostSound, Deliver, Admit, Streams, Retired, Posts;
    match Find(g.objs, g.live, who)
    case Some(sid) =>
      if p.mode == CollectorMode { DeliverKeeps(p, g, sid, m); } else { AdmitKeeps(p, g, now, sid, m); }
    case None =>
      if p.mode == CollectorMode {
        assert false;
      } else if |g.live| >= p.maxTenants {
        CountersKeep(p, g, Route(p, g, now, who, m));
      } else {
        CreateKeeps(p, g, who, 1);
        AdmitKeeps(p, Create(g, who), now, |g.objs|, m);
      }
  }

  lemma ArrivalKeeps(p: Params, g: Gateway, now: int, m: Message)
    requires Core(p, g)
    ensures Core(p, OnMessage(p, g, now, m))
  {
    hide StreamInv, PostSound, Streams, Retired, Posts, Shape, Route;
    if m.raw != "" {
      var g1 := g.(handled := g.handled + 1);
      CountersKeep(p, g, g1);
      match Attribution(p, m)
      case None => CountersKeep(p, g1, OnMessage(p, g, now, m));
      case Some(who) => RouteKeeps(p, g1, now, who, m);
    }
  }

  // ── polling ───────────────────────────────────────────────────────────────

  lemma PollStampKeeps(p: Params, s: Stream, at: int, next: nat)
    requires StreamInv(p, s, next)
    ensures StreamInv(p, s.(polledAt := at), next)
  {
  }

  lemma PollSendKeeps(p: Params, g: Gateway, now: int)
    requires Core(p, g) && g.tick.Polling? && g.tick.pending != [] && InRange(g.tick.pending, g)
    ensures Core(p, PollSend(g, now))
  {
    hide StreamInv, PostSound;
    var sid := g.tick.pending[0];
    var s := g.objs[sid].(polledAt := now);
    PollStampKeeps(p, g.objs[sid], now, g.nextId);
    PutKeeps(p, g, sid, s, g.nextId);
    SumsPut(g.objs, sid, s);
    CountersKeep(p, Put(g, sid, s).(nextId := g.nextId), PollSend(g, now));
  }

  lemma KeyRefusedKeeps(p: Params, g: Gateway, now: int, sid: nat)
    requires Core(p, g) && sid < |g.objs|
    ensures Core(p, KeyRefused(p, g, now, sid))
  {
    hide StreamInv, PostSound;
    if p.mode != GatewayMode {
      CountersKeep(p, g, g.(exited := true));
    } else {
      var s := Refused(p, g.objs[sid], now);
      RefuseKeeps(p, g.objs[sid], now, g.nextId);
      PutKeeps(p, g, sid, s, g.nextId);
      SumsPut(g.objs, sid, s);
      CountersKeep(p, Put(g, sid, s).(nextId := g.nextId), KeyRefused(p, g, now, sid));
    }
  }

  lemma PollDoneKeeps(p: Params, g: Gateway, now: int, reply: PollReply)
    requires Core(p, g) && g.tick.Polling? && g.tick.current.Some? && g.tick.current.value < |g.objs|
    ensures Core(p, PollDone(p, g, now, reply))
  {
    hide StreamInv, PostSound, KeyRefused, Configured, Frame;
    var sid := g.tick.current.value;
    var g1 := g.(tick := g.tick.(current := None));
    CountersKeep(p, g, g1);
    match reply
    case PollRefused => KeyRefusedKeeps(p, g1, now, sid);
    case PollOk(patch) => ConfiguredKeeps(p, g1, sid, patch);
    case _ =>
  }

  lemma ConfiguredKeeps(p: Params, g: Gateway, sid: nat, patch: Patch)
    requires Core(p, g) && sid < |g.objs|
    ensures Core(p, Put(g, sid, Configured(g.objs[sid], patch)))
  {
    hide StreamInv, PostSound, Configured, AllMessages, AllCleared;
    var s := Configured(g.objs[sid], patch);
    StreamKept(p, g, sid);
    ConfiguredSame(g.objs[sid], patch);
    ConfigureKeeps(p, g.objs[sid], patch, g.nextId);
    PutKeeps(p, g, sid, s, g.nextId);
    SumsPut(g.objs, sid, s);
  }

  lemma ConfiguredSame(s: Stream, patch: Patch)
    ensures var s' := Configured(s, patch);
            && s'.token == s.token && s'.arrived == s.arrived && s'.cleared == s.cleared
            && s'.queue == s.queue && s'.flushing == s.flushing
  {
  }

  // ── shipping ──────────────────────────────────────────────────────────────

  /** The POST that starts is the batch just taken, and it is all the tenant's own. */
  lemma PostOfSound(p: Params, g: Gateway, now: int, sid: nat, byTick: bool)
    requires sid < |g.objs| && StreamInv(p, g.objs[sid], g.nextId)
    ensures PostSound(p, g, PostOf(p, g.objs[sid], sid, now, byTick))
    ensures PostOf(p, g.objs[sid], sid, now, byTick).items == Begun(g.objs[sid]).batch
  {
    var s := g.objs[sid];
    var q := PostOf(p, s, sid, now, byTick);
    forall i | 0 <= i < |q.items|
      ensures q.items[i] in s.arrived && q.items[i].origin == s.token
    {
      assert q.items[i] == s.queue[i];
      HeldLinesArrived(s, s.queue[i]);
    }
  }

  lemma StreamKept(p: Params, g: Gateway, sid: nat)
    requires Frame(p, g) && sid < |g.objs|
    ensures StreamInv(p, g.objs[sid], g.nextId)
    ensures sid !in g.live ==> g.objs[sid].queue == [] && !g.objs[sid].flushing
  {
    hide StreamInv, PostSound;
  }

  /** The state once the batch has left the queue and the request is written down. */
  lemma SentFramed(p: Params, g: Gateway, now: int, sid: nat, byTick: bool)
    requires Frame(p, g) && sid < |g.objs| && CanFlush(g.objs[sid])
    ensures var s := g.objs[sid];
            Frame(p, Put(g, sid, Begun(s)).(nextId := g.nextId, posts := g.posts + [PostOf(p, s, sid, now, byTick)]))
  {
    hide StreamInv, PostSound, PostOf, Shape, Streams, Retired, Posts;
    var s := g.objs[sid];
    var q := PostOf(p, s, sid, now, byTick);
    StreamKept(p, g, sid);
    BeginKeeps(p, s, g.nextId);
    PutKeeps(p, g, sid, Begun(s), g.nextId);
    PostOfSound(p, g, now, sid, byTick);
    var g1 := Put(g, sid, Begun(s));
    PostSoundLater(p, g, g1.(posts := g.posts + [q]), q);
    PostsOneMore(p, g1.(nextId := g.nextId), q);
  }

  lemma StartFlushKeeps(p: Params, g: Gateway, now: int, sid: nat, byTick: bool)
    requires Core(p, g) && sid < |g.objs|
    ensures Core(p, StartFlush(p, g, now, sid, byTick))
  {
    hide Frame, PostOf, StreamInv;
    var s := g.objs[sid];
    if CanFlush(s) {
      SentFramed(p, g, now, sid, byTick);
      SumsPut(g.objs, sid, Begun(s));
      CountersKeep(p, Put(g, sid, Begun(s)).(nextId := g.nextId, posts := g.posts + [PostOf(p, s, sid, now, byTick)]),
                   StartFlush(p, g, now, sid, byTick));
    }
  }

  lemma PostSoundLater(p: Params, g: Gateway, g': Gateway, q: Post)
    requires PostSound(p, g, q) && |g.objs| <= |g'.objs|
    requires forall i :: 0 <= i < |g.objs| ==>
               g'.objs[i].token == g.objs[i].token && g.objs[i].arrived <= g'.objs[i].arrived
    ensures PostSound(p, g', q)
  {
  }

  lemma PostsOneMore(p: Params, g: Gateway, q: Post)
    requires Frame(p, g) && PostSound(p, g.(posts := g.posts + [q]), q)
    ensures Frame(p, g.(posts := g.posts + [q]))
  {
    hide StreamInv;
    var g' := g.(posts := g.posts + [q]);
    forall i | 0 <= i < |g'.posts|
      ensures PostSound(p, g', g'.posts[i])
    {
      if i < |g.posts| {
        assert PostSound(p, g, g.posts[i]);
        PostSoundLater(p, g, g', g.posts[i]);
      }
    }
  }

  lemma {:induction false} StartAllKeeps(p: Params, g: Gateway, now: int, ids: seq<nat>, byTick: bool)
    requires Core(p, g) && InRange(ids, g)
    ensures Core(p, StartAll(p, g, now, ids, byTick))
  {
    hide StreamInv, PostSound, StartFlush, Frame, Balance;
    if ids != [] {
      StartAllKeeps(p, g, now, ids[..|ids|-1], byTick);
      StartFlushKeeps(p, StartAll(p, g, now, ids[..|ids|-1], byTick), now, ids[|ids|-1], byTick);
    }
  }

  /** What a POST's end adds to the lines cleared by a refusal. */
  lemma EndFacts(p: Params, s: Stream, reply: Reply, now: int)
    ensures var s' := Ended(p, s, reply, now);
            && s'.token == s.token && s'.arrived == s.arrived
            && |s'.cleared| == |s.cleared| + (if KeyRefusal(p.mode, reply) then |s.queue| else 0)
            && (!s'.flushing || Fatal(p.mode, reply))
  {
  }

  lemma FinishFlushKeeps(p: Params, g: Gateway, now: int, sid: nat, reply: Reply)
    requires Core(p, g) && sid < |g.objs| && g.objs[sid].flushing
    ensures Core(p, FinishFlush(p, g, now, sid, reply))
  {
    hide StreamInv, PostSound, Ended;
    var s := g.objs[sid];
    var s' := Ended(p, s, reply, now);
    EndFacts(p, s, reply, now);
    EndKeeps(p, s, reply, now, g.nextId);
    PutKeeps(p, g, sid, s', g.nextId);
    SumsPut(g.objs, sid, s');
    CountersKeep(p, Put(g, sid, s').(nextId := g.nextId), FinishFlush(p, g, now, sid, reply));
  }

  // ── reports and the sweep ─────────────────────────────────────────────────

  lemma ReportOneKeeps(p: Params, g: Gateway, sid: nat)
    requires Core(p, g) && sid in g.live && sid < |g.objs|
    ensures Core(p, ReportOne(p, g, sid)) && ReportOne(p, g, sid).live == g.live
  {
    hide StreamInv, PostSound;
    var s := g.objs[sid];
    if s.dropped != 0 {
      var s' := Reported(p.maxQueue, Who(p.mode), s, g.nextId);
      ReportKeeps(p, Who(p.mode), s, g.nextId);
      ReportAppend(s.arrived, DropItem(Who(p.mode), s, g.nextId));
      PutKeeps(p, g, sid, s', g.nextId + 1);
      SumsPut(g.objs, sid, s');
    }
  }

  lemma {:induction false} ReportAllKeeps(p: Params, g: Gateway, ids: seq<nat>)
    requires Core(p, g) && InRange(ids, g) && forall i :: 0 <= i < |ids| ==> ids[i] in g.live
    ensures Core(p, ReportAll(p, g, ids)) && ReportAll(p, g, ids).live == g.live
  {
    hide StreamInv, PostSound, ReportOne, Frame, Balance;
    if ids != [] {
      ReportAllKeeps(p, g, ids[..|ids|-1]);
      ReportOneKeeps(p, ReportAll(p, g, ids[..|ids|-1]), ids[|ids|-1]);
    }
  }

  lemma {:induction false} ReportAllLive(p: Params, g: Gateway, ids: seq<nat>)
    requires InRange(ids, g)
    ensures ReportAll(p, g, ids).live == g.live
  {
    if ids != [] { ReportAllLive(p, g, ids[..|ids|-1]); }
  }

  lemma ReportDropsKeeps(p: Params, g: Gateway)
    requires Core(p, g)
    ensures Core(p, ReportDrops(p, g))
  {
    hide StreamInv, PostSound, ReportAll;
    ReportAllKeeps(p, g, g.live);
    CountersKeep(p, ReportAll(p, g, g.live), ReportDrops(p, g));
  }

  /** What is picked is in the order it was, and is exactly what answers yes. */
  lemma {:induction false} SelectFacts(p: Params, objs: seq<Stream>, ids: seq<nat>, pick: Pick)
    requires forall i :: 0 <= i < |ids| ==> ids[i] < |objs|
    requires Distinct(ids)
    ensures var k := Select(p, objs, ids, pick);
            && |k| <= |ids| && Distinct(k)
            && forall id :: id in k <==> id in ids && id < |objs| && Picked(p, objs[id], pick)
  {
    if ids != [] {
      var n := |ids| - 1;
      SelectFacts(p, objs, ids[..n], pick);
      assert ids == ids[..n] + [ids[n]];
    }
  }

  lemma SweepKeepsCore(p: Params, g: Gateway, now: int)
    requires Core(p, g) && p.mode != CollectorMode
    ensures Core(p, SweepIdle(p, g, now))
  {
    hide StreamInv, PostSound;
    var g' := SweepIdle(p, g, now);
    SelectFacts(p, g.objs, g.live, Survives(now));
    PostsLater(p, g, g');
    assert forall i :: 0 <= i < |g'.live| ==> g'.live[i] in g.live;
  }
}
