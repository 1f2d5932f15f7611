/**
 * What each stretch of the collector does, case by case, in the source's own numbers:
 * which status does what to a batch, where an arrival goes, whom a tick polls and
 * ships, what a report says. One step each, with everything it leaves alone.
 */
module StepTables {
  import opened Distinctness
  import opened Wrappers
  import opened StreamModel
  import opened StreamLaws
  import opened GatewayModel
  import opened GatewayLaws
  import opened TickLaws
  import opened TimingLaws
  import opened PollFairness
  import opened Provenance

  /** Every stream but x is as it was. */
  ghost predicate Others(g: Gateway, g': Gateway, x: nat) {
    |g'.objs| == |g.objs| && forall i :: 0 <= i < |g.objs| && i != x ==> g'.objs[i] == g.objs[i]
  }

  // ── an answer to a POST ───────────────────────────────────────────────────

  /** Twice the last delay, or the first one, and a minute at most. */
  function Delay(last: nat, first: nat): nat {
    var next := if last != 0 then 2 * last else first;
    if next > 60000 then 60000 else next
  }

  /** 200 to 299: the batch is counted as shipped and any backoff is over. */
  lemma Accepted(p: Params, g: Gateway, now: int, x: nat, code: nat)
    requires Enabled(p, g, now, PostReturns(x, Status(code))) && 200 <= code <= 299
    ensures var g', s := Step(p, g, now, PostReturns(x, Status(code))), g.objs[x];
            var s' := g'.objs[x];
            && Others(g, g', x) && !g'.exited && g'.live == g.live && g'.badKeyDrops == g.badKeyDrops
            && s'.shipped == s.shipped + |s.batch| && s'.batch == [] && !s'.flushing && s'.acked == s.acked + s.batch
            && s'.backoffMs == 0 && s'.retryAt == 0
            && s'.queue == s.queue && s'.dropped == s.dropped && s'.received == s.received && s'.badUntil == s.badUntil
            && s'.cfg == s.cfg && s'.polledAt == s.polledAt
  {
  }

  /** 429, 500 and up, and the tunnel's 403: the whole batch is back at the head of the queue, and the stream waits. */
  lemma TriedAgain(p: Params, g: Gateway, now: int, x: nat, code: nat)
    requires Enabled(p, g, now, PostReturns(x, Status(code)))
    requires code == 429 || code >= 500 || (p.mode == TunnelMode && code == 403)
    ensures var g', s := Step(p, g, now, PostReturns(x, Status(code))), g.objs[x];
            var s' := g'.objs[x];
            && Others(g, g', x) && !g'.exited && g'.live == g.live && g'.badKeyDrops == g.badKeyDrops
            && s'.queue == s.batch + s.queue && s'.batch == [] && !s'.flushing
            && s'.backoffMs == Delay(s.backoffMs, if code == 403 then 5000 else 1000) && s'.retryAt == now + s'.backoffMs
            && s'.dropped == s.dropped && s'.shipped == s.shipped && s'.received == s.received && s'.badUntil == s.badUntil
            && s'.cfg == s.cfg && s'.polledAt == s.polledAt
  {
  }

  /** A throw: the stream waits as after a failure, and the batch is nowhere. */
  lemma ThrownAway(p: Params, g: Gateway, now: int, x: nat)
    requires Enabled(p, g, now, PostReturns(x, Threw))
    ensures var g', s := Step(p, g, now, PostReturns(x, Threw)), g.objs[x];
            var s' := g'.objs[x];
            && Others(g, g', x) && !g'.exited && g'.live == g.live && g'.badKeyDrops == g.badKeyDrops
            && s'.queue == s.queue && s'.batch == [] && !s'.flushing
            && s'.backoffMs == Delay(s.backoffMs, 1000) && s'.retryAt == now + s'.backoffMs
            && s'.dropped == s.dropped && s'.shipped == s.shipped && s'.received == s.received && s'.badUntil == s.badUntil
            && s'.cfg == s.cfg && s'.polledAt == s.polledAt
  {
  }

  /** The gateway's 401 and 403: the batch is dropped and counted, the queue cleared, the key refused for a while. */
  lemma KeyTurnedDown(p: Params, g: Gateway, now: int, x: nat, code: nat)
    requires Enabled(p, g, now, PostReturns(x, Status(code))) && p.mode == GatewayMode && (code == 401 || code == 403)
    ensures var g', s := Step(p, g, now, PostReturns(x, Status(code))), g.objs[x];
            var s' := g'.objs[x];
            && Others(g, g', x) && !g'.exited && g'.live == g.live && g'.badKeyDrops == g.badKeyDrops + |s.queue|
            && s'.queue == [] && s'.batch == [] && !s'.flushing && s'.dropped == s.dropped + |s.batch|
            && s'.badUntil == now + p.badKeyMs
            && s'.backoffMs == s.backoffMs && s'.retryAt == s.retryAt && s'.shipped == s.shipped
            && s'.received == s.received && s'.cfg == s.cfg && s'.polledAt == s.polledAt
  {
  }

  /** Outside gateway mode a 401, the collector's 403 and the tunnel's 404 end the process; all but the tunnel's 401 count the batch first. */
  lemma Ends(p: Params, g: Gateway, now: int, x: nat, code: nat)
    requires Enabled(p, g, now, PostReturns(x, Status(code))) && p.mode != GatewayMode
    requires code == 401 || (p.mode == CollectorMode && code == 403) || (p.mode == TunnelMode && code == 404)
    ensures var g', s := Step(p, g, now, PostReturns(x, Status(code))), g.objs[x];
            var s' := g'.objs[x];
            var counted := !(p.mode == TunnelMode && code == 401);
            && Others(g, g', x) && g'.exited && g'.live == g.live && g'.badKeyDrops == g.badKeyDrops
            && s'.queue == s.queue && s'.dropped == s.dropped + (if counted then |s.batch| else 0)
            && s'.batch == (if counted then [] else s.batch)
            && s'.backoffMs == s.backoffMs && s'.retryAt == s.retryAt && s'.shipped == s.shipped
            && s'.received == s.received && s'.badUntil == s.badUntil
  {
  }

  /** Every other status: the batch will never be accepted, is dropped and counted, and nothing waits. */
  lemma NeverAccepted(p: Params, g: Gateway, now: int, x: nat, code: nat)
    requires Enabled(p, g, now, PostReturns(x, Status(code)))
    requires !(200 <= code <= 299) && code != 429 && code < 500 && code != 401 && code != 403
    requires !(p.mode == TunnelMode && code == 404)
    ensures var g', s := Step(p, g, now, PostReturns(x, Status(code))), g.objs[x];
            var s' := g'.objs[x];
            && Others(g, g', x) && !g'.exited && g'.live == g.live && g'.badKeyDrops == g.badKeyDrops
            && s'.queue == s.queue && s'.batch == [] && !s'.flushing && s'.dropped == s.dropped + |s.batch|
            && s'.backoffMs == s.backoffMs && s'.retryAt == s.retryAt && s'.shipped == s.shipped
            && s'.received == s.received && s'.badUntil == s.badUntil && s'.cfg == s.cfg && s'.polledAt == s.polledAt
  {
  }

  // ── an arrival ────────────────────────────────────────────────────────────

  /** A line at the end of a queue, the oldest one out if there is no room. */
  function Joined(maxQueue: pos, queue: seq<Item>, it: Item): seq<Item> {
    (if |queue| >= maxQueue then queue[1..] else queue) + [it]
  }

  function LineOf(g: Gateway, m: Message, who: string): Item {
    Item(g.nextId, who, Entry(m.device, Text(m.text), m.sev))
  }

  lemma FoundIs(p: Params, g: Gateway, x: nat)
    requires Core(p, g) && x in g.live && x < |g.objs|
    ensures Find(g.objs, g.live, g.objs[x].token) == Some(x)
  {
    hide Streams, Posts, Retired, Balance;
  }

  /** The door if the key is refused, and otherwise the end of the queue. */
  predicate Joins(p: Params, g: Gateway, now: int, m: Message, s: Stream, s': Stream, turnedAway: nat) {
    if p.mode != CollectorMode && s.badUntil > now then s' == s && turnedAway == 1
    else
      && turnedAway == 0
      && s'.queue == Joined(p.maxQueue, s.queue, LineOf(g, m, s.token)) && s'.received == s.received + 1
      && s'.dropped == s.dropped + (if |s.queue| >= p.maxQueue then 1 else 0)
      && s'.token == s.token && s'.shipped == s.shipped && s'.batch == s.batch && s'.flushing == s.flushing
      && s'.cfg == s.cfg && s'.polledAt == s.polledAt && s'.retryAt == s.retryAt
      && s'.backoffMs == s.backoffMs && s'.badUntil == s.badUntil
  }

  lemma RouteKnown(p: Params, g: Gateway, now: int, m: Message, x: nat)
    requires x < |g.objs| && Find(g.objs, g.live, g.objs[x].token) == Some(x)
    ensures var g' := Route(p, g, now, g.objs[x].token, m);
            && Others(g, g', x) && g'.live == g.live && g'.unattributed == g.unattributed
            && g'.refusedTenants == g.refusedTenants && g'.posts == g.posts && g'.tick == g.tick
            && g'.badKeyDrops >= g.badKeyDrops
            && Joins(p, g, now, m, g.objs[x], g'.objs[x], g'.badKeyDrops - g.badKeyDrops)
  {
    hide Find, Enqueued, Joined;
    EnqueuedIs(p.maxQueue, g.objs[x], LineOf(g, m, g.objs[x].token));
  }

  /** A message for a tenant the map has. */
  lemma KnownTenant(p: Params, g: Gateway, now: int, m: Message, x: nat)
    requires Core(p, g) && Enabled(p, g, now, Arrival(m)) && m.raw != "" && Usable(p, m)
    requires x in g.live && x < |g.objs| && Names(p, m, g.objs[x].token)
    ensures var g' := Step(p, g, now, Arrival(m));
            && Others(g, g', x) && g'.live == g.live && g'.unattributed == g.unattributed
            && g'.refusedTenants == g.refusedTenants && g'.posts == g.posts && g'.tick == g.tick
            && g'.badKeyDrops >= g.badKeyDrops
            && Joins(p, g, now, m, g.objs[x], g'.objs[x], g'.badKeyDrops - g.badKeyDrops)
  {
    hide Core, Attribution, Usable, Names, Find, Route, Joined;
    AttributedAsNamed(p, m);
    FoundIs(p, g, x);
    RouteKnown(p, g.(clock := now, handled := g.handled + 1), now, m, x);
  }

  lemma EnqueuedIs(maxQueue: pos, s: Stream, it: Item)
    ensures var s' := Enqueued(maxQueue, s, it);
            && s'.queue == Joined(maxQueue, s.queue, it) && s'.received == s.received + 1
            && s'.dropped == s.dropped + (if |s.queue| >= maxQueue then 1 else 0)
            && s'.token == s.token && s'.shipped == s.shipped && s'.batch == s.batch && s'.flushing == s.flushing
            && s'.cfg == s.cfg && s'.polledAt == s.polledAt && s'.retryAt == s.retryAt
            && s'.backoffMs == s.backoffMs && s'.badUntil == s.badUntil
  {
  }

  /** A message for a tenant the map does not have: turned away at the cap, and otherwise the first line of a new stream. */
  lemma UnknownTenant(p: Params, g: Gateway, now: int, m: Message, who: string)
    requires Enabled(p, g, now, Arrival(m)) && m.raw != "" && Usable(p, m) && Names(p, m, who) && p.mode != CollectorMode
    requires 0 <= now && forall i :: 0 <= i < |g.live| ==> g.objs[g.live[i]].token != who
    ensures var g' := Step(p, g, now, Arrival(m));
            && g'.unattributed == g.unattributed && g'.badKeyDrops == g.badKeyDrops && g'.posts == g.posts && g'.tick == g.tick
            && if |g.live| >= p.maxTenants then
                 g'.objs == g.objs && g'.live == g.live && g'.refusedTenants == g.refusedTenants + 1
               else
                 && |g'.objs| == |g.objs| + 1 && g'.objs[..|g.objs|] == g.objs && g'.live == g.live + [|g.objs|]
                 && g'.refusedTenants == g.refusedTenants
                 && var s := g'.objs[|g.objs|];
                    && s.token == who && s.queue == [LineOf(g, m, who)] && s.received == 1 && s.dropped == 0 && s.shipped == 0
                    && s.cfg == Config("", true, 500) && s.polledAt == 0 && !s.flushing && s.batch == []
                    && s.retryAt == 0 && s.backoffMs == 0 && s.badUntil == 0
  {
    hide Attribution, Usable, Names;
    AttributedAsNamed(p, m);
    assert Find(g.objs, g.live, who).None?;
  }

  // ── polls ─────────────────────────────────────────────────────────────────

  /** The next stream of the list is stamped with the time its poll goes out. */
  lemma PollGoesOut(p: Params, g: Gateway, now: int)
    requires Enabled(p, g, now, PollSends)
    ensures var g', x := Step(p, g, now, PollSends), g.tick.pending[0];
            && g'.tick == Polling(g.tick.t, g.tick.pending[1..], Some(x)) && g'.live == g.live && g'.posts == g.posts
            && x < |g.objs| && Others(g, g', x) && g'.objs[x] == g.objs[x].(polledAt := now)
  {
  }

  /** A refused poll: the end of the process, or in gateway mode the key refused for a while and its queue cleared. */
  lemma PollTurnedDown(p: Params, g: Gateway, now: int)
    requires Enabled(p, g, now, PollReturns(PollRefused))
    ensures var g', x := Step(p, g, now, PollReturns(PollRefused)), g.tick.current.value;
            && g'.live == g.live && g'.posts == g.posts
            && (g'.exited <==> p.mode != GatewayMode)
            && if p.mode != GatewayMode then g'.objs == g.objs && g'.badKeyDrops == g.badKeyDrops
               else
                 && Others(g, g', x) && g'.badKeyDrops == g.badKeyDrops + |g.objs[x].queue|
                 && g'.tick == Polling(g.tick.t, g.tick.pending, None)
                 && g'.objs[x].queue == [] && g'.objs[x].badUntil == now + p.badKeyMs
                 && g'.objs[x].dropped == g.objs[x].dropped && g'.objs[x].cfg == g.objs[x].cfg
                 && g'.objs[x].retryAt == g.objs[x].retryAt && g'.objs[x].polledAt == g.objs[x].polledAt
  {
  }

  /** An answered poll: the fields that were sent, on the stream that asked, and nothing else of it or of anybody. */
  lemma PollAnswered(p: Params, g: Gateway, now: int, sent: Patch)
    requires Enabled(p, g, now, PollReturns(PollOk(sent)))
    ensures var g', x := Step(p, g, now, PollReturns(PollOk(sent))), g.tick.current.value;
            var s, s' := g.objs[x], g'.objs[x];
            && Others(g, g', x) && g'.live == g.live && g'.posts == g.posts && g'.badKeyDrops == g.badKeyDrops && !g'.exited
            && g'.tick == Polling(g.tick.t, g.tick.pending, None)
            && s'.cfg.devicePrefix == (if sent.devicePrefix.Some? then sent.devicePrefix.value else s.cfg.devicePrefix)
            && s'.cfg.enabled == (if sent.enabled.Some? then sent.enabled.value else s.cfg.enabled)
            && s'.cfg.batchMax == (if sent.batchMax.Some? then sent.batchMax.value else s.cfg.batchMax)
            && s' == s.(cfg := s'.cfg, maxBatch := s'.maxBatch)
  {
  }

  /** A poll that fails, or is answered with an error, changes nothing but whose turn it is. */
  lemma PollFails(p: Params, g: Gateway, now: int, reply: PollReply)
    requires Enabled(p, g, now, PollReturns(reply)) && (reply == PollNotOk || reply == PollThrew)
    ensures Step(p, g, now, PollReturns(reply)) == g.(clock := now, tick := Polling(g.tick.t, g.tick.pending, None))
  {
  }

  // ── the tick ──────────────────────────────────────────────────────────────

  /** Never polled, or last polled a poll interval ago. */
  predicate Due(p: Params, s: Stream, t: int) { s.polledAt == 0 || t - s.polledAt >= p.pollMs }

  ghost predicate Precedes(ids: seq<nat>, x: nat, y: nat) {
    exists a, b :: 0 <= a < b < |ids| && ids[a] == x && ids[b] == y
  }

  /** In the order of the map. */
  ghost predicate InOrder(list: seq<nat>, ids: seq<nat>) {
    forall i, j :: 0 <= i < j < |list| ==> Precedes(ids, list[i], list[j])
  }

  lemma {:induction false} SelectInOrder(p: Params, objs: seq<Stream>, ids: seq<nat>, pick: Pick)
    requires forall i :: 0 <= i < |ids| ==> ids[i] < |objs|
    ensures InOrder(Select(p, objs, ids, pick), ids)
    ensures forall id :: id in Select(p, objs, ids, pick) ==> id in ids
  {
    hide Picked;
    if ids != [] {
      var n := |ids| - 1;
      var before, list := Select(p, objs, ids[..n], pick), Select(p, objs, ids, pick);
      SelectInOrder(p, objs, ids[..n], pick);
      forall i, j | 0 <= i < j < |list|
        ensures Precedes(ids, list[i], list[j])
      {
        if j < |before| {
          assert Precedes(ids[..n], before[i], before[j]);
          var a, b :| 0 <= a < b < n && ids[..n][a] == before[i] && ids[..n][b] == before[j];
          assert ids[a] == list[i] && ids[b] == list[j];
        } else {
          assert before[i] in ids[..n];
          var a :| 0 <= a < n && ids[..n][a] == before[i];
          assert ids[a] == list[i] && ids[n] == list[j];
        }
      }
    }
  }

  lemma FirstInOrder(n: nat, list: seq<nat>, ids: seq<nat>)
    requires InOrder(list, ids)
    ensures InOrder(First(n, list), ids)
  {
    hide Precedes;
    var first := First(n, list);
    forall i, j | 0 <= i < j < |first|
      ensures Precedes(ids, first[i], first[j])
    {
      assert first[i] == list[i] && first[j] == list[j];
    }
  }

  /**
   * A tick begins: it lists streams of the map that are due, in the map's order, at most sixteen; and
   * one that is due and not listed has sixteen listed ones ahead of it. A tunnel polls nobody.
   */
  lemma TickLists(p: Params, g: Gateway, now: int)
    requires Core(p, g) && Enabled(p, g, now, TickStarts)
    ensures var g' := Step(p, g, now, TickStarts);
            && g'.objs == g.objs && g'.live == g.live && g'.posts == g.posts
            && g'.tick.Polling? && g'.tick.t == now && g'.tick.current == None
            && var list := g'.tick.pending;
               && |list| <= 16 && Distinct(list) && InOrder(list, g.live)
               && (p.mode == TunnelMode ==> list == [])
               && (forall id :: id in list ==> id in g.live && id < |g.objs| && Due(p, g.objs[id], now))
               && (forall x :: x in g.live && x < |g.objs| && Due(p, g.objs[x], now) && x !in list && p.mode != TunnelMode ==>
                     |list| == 16 && forall id :: id in list ==> id in Ahead(g.live, x))
  {
    hide Streams, Posts, Retired, Balance, Select;
    var list := Step(p, g, now, TickStarts).tick.pending;
    SelectFacts(p, g.objs, g.live, DueAt(now));
    SelectInOrder(p, g.objs, g.live, DueAt(now));
    FirstInOrder(16, Select(p, g.objs, g.live, DueAt(now)), g.live);
    if p.mode != TunnelMode {
      assert forall i :: 0 <= i < |list| ==> list[i] in Select(p, g.objs, g.live, DueAt(now));
      forall x | x in g.live && x < |g.objs| && Due(p, g.objs[x], now) && x !in list
        ensures |list| == 16 && forall id :: id in list ==> id in Ahead(g.live, x)
      {
        FirstAreAhead(p, g.objs, g.live, now, x, 16);
      }
    }
  }

  /** After the polls: the streams of the map past their backoff and past any refusal when the tick began, in the map's order. */
  lemma TickRanksReady(p: Params, g: Gateway, now: int)
    requires Core(p, g) && Enabled(p, g, now, TickRanks)
    ensures var g' := Step(p, g, now, TickRanks);
            && g'.objs == g.objs && g'.live == g.live && g'.posts == g.posts
            && g'.tick.Shipping? && g'.tick.t == g.tick.t && g'.tick.waiting == {}
            && Distinct(g'.tick.rest) && InOrder(g'.tick.rest, g.live)
            && forall x :: x in g'.tick.rest <==>
                 x in g.live && x < |g.objs| && g.objs[x].retryAt <= g.tick.t && g.objs[x].badUntil <= g.tick.t
  {
    hide Streams, Posts, Retired, Balance, Select;
    SelectFacts(p, g.objs, g.live, ReadyAt(g.tick.t));
    SelectInOrder(p, g.objs, g.live, ReadyAt(g.tick.t));
  }

  /** How much one POST takes: the configured batch, 500 when none is configured, nothing when it is negative. */
  function Takes(s: Stream): nat {
    var limit := if s.cfg.batchMax == 0 then 500 else if s.cfg.batchMax < 0 then 0 else s.cfg.batchMax;
    if limit < |s.queue| then limit else |s.queue|
  }

  /** A stream that `flush` is called on: its batch is out, if it is not shipping already, has lines, and is switched on. */
  predicate Flushes(s: Stream, s': Stream) {
    if !s.flushing && s.queue != [] && s.cfg.enabled then
      && s'.flushing && s'.batch == s.queue[..Takes(s)] && s'.queue == s.queue[Takes(s)..]
      && s'.dropped == s.dropped && s'.received == s.received && s'.shipped == s.shipped && s'.cfg == s.cfg
      && s'.retryAt == s.retryAt && s'.backoffMs == s.backoffMs && s'.badUntil == s.badUntil && s'.polledAt == s.polledAt
    else s' == s
  }

  lemma BegunFlush(s: Stream)
    ensures Flushes(s, if CanFlush(s) then Begun(s) else s)
  {
  }

  /** The next eight of the list, or what is left of it, and nobody else. */
  lemma GroupOfEight(p: Params, g: Gateway, now: int)
    requires Enabled(p, g, now, TickPosts)
    ensures var g', n := Step(p, g, now, TickPosts), if |g.tick.rest| < 8 then |g.tick.rest| else 8;
            && g'.live == g.live && g'.tick.Shipping? && g'.tick.rest == g.tick.rest[n..] && |g'.objs| == |g.objs|
            && forall x :: 0 <= x < |g.objs| ==>
                 if x in g.tick.rest[..n] then Flushes(g.objs[x], g'.objs[x]) else g'.objs[x] == g.objs[x]
  {
    hide StartAll, Flushes, CanFlush, Begun;
    var group := First(POSTS_AT_ONCE, g.tick.rest);
    var g1 := g.(clock := now, tick := g.tick.(rest := g.tick.rest[|group|..]));
    var g' := Step(p, g, now, TickPosts);
    StartAllWaiting(p, g1, now, group);
    StartAllFacts(p, g1, now, group, true);
    forall x | 0 <= x < |g.objs|
      ensures if x in group then Flushes(g.objs[x], g'.objs[x]) else g'.objs[x] == g.objs[x]
    {
      StartAllExactly(p, g1, now, group, true, x);
      BegunFlush(g.objs[x]);
    }
  }

  /** A shutdown calls `flush` on every stream of the map at once. */
  lemma EveryStreamOnce(p: Params, g: Gateway, now: int)
    requires Enabled(p, g, now, Signalled)
    ensures var g' := Step(p, g, now, Signalled);
            && g'.live == g.live && g'.tick == g.tick && !g'.exited && |g'.objs| == |g.objs|
            && forall x :: 0 <= x < |g.objs| ==>
                 if x in g.live then Flushes(g.objs[x], g'.objs[x]) else g'.objs[x] == g.objs[x]
  {
    hide StartAll, Flushes, CanFlush, Begun;
    var g1 := g.(clock := now);
    var g' := Step(p, g, now, Signalled);
    StartAllTickKept(p, g1, now, g.live);
    StartAllFacts(p, g1, now, g.live, false);
    forall x | 0 <= x < |g.objs|
      ensures if x in g.live then Flushes(g.objs[x], g'.objs[x]) else g'.objs[x] == g.objs[x]
    {
      StartAllExactly(p, g1, now, g.live, false, x);
      BegunFlush(g.objs[x]);
    }
  }

  // ── reports and the sweep ─────────────────────────────────────────────────

  /** What a report leaves of a stream: its drops owned up to in one line of its own, with the counters as they stood. */
  predicate OwnsUp(p: Params, s: Stream, s': Stream) {
    if s.dropped == 0 then s' == s
    else
      && |s'.queue| > 0
      && var it := s'.queue[|s'.queue| - 1];
         && s'.queue == Joined(p.maxQueue, s.queue, it)
         && it.origin == s.token
         && it.entry.device == (match p.mode
                                case TunnelMode => "opscat-syslog-tunnel"
                                case GatewayMode => "opscat-syslog-gateway"
                                case CollectorMode => "opscat-collector")
         && it.entry.sev == 3 && it.entry.line == DropReport(s.dropped, s.received, s.shipped, |s.queue|)
         && s'.dropped == (if |s.queue| >= p.maxQueue then 1 else 0)
         && s'.received == s.received + 1 && s'.shipped == s.shipped && s'.batch == s.batch && s'.flushing == s.flushing
         && s'.cfg == s.cfg && s'.polledAt == s.polledAt && s'.retryAt == s.retryAt && s'.badUntil == s.badUntil
  }

  lemma ReportedOwnsUp(p: Params, s: Stream, id: nat)
    ensures OwnsUp(p, s, Reported(p.maxQueue, Who(p.mode), s, id))
  {
  }

  lemma {:induction false} ReportAllOwnUp(p: Params, g: Gateway, ids: seq<nat>, x: nat)
    requires InRange(ids, g) && Distinct(ids) && x < |g.objs|
    ensures if x in ids then OwnsUp(p, g.objs[x], ReportAll(p, g, ids).objs[x])
            else ReportAll(p, g, ids).objs[x] == g.objs[x]
  {
    hide Reported, OwnsUp;
    if ids != [] {
      var n, last := |ids| - 1, ids[|ids| - 1];
      assert ids == ids[..n] + [last];
      ReportAllOwnUp(p, g, ids[..n], x);
      var before := ReportAll(p, g, ids[..n]);
      if x == last {
        ReportedOwnsUp(p, before.objs[x], before.nextId);
        NoReportNeeded(p, g.objs[x], before.nextId);
      }
    }
  }

  lemma NoReportNeeded(p: Params, s: Stream, id: nat)
    ensures s.dropped == 0 ==> Reported(p.maxQueue, Who(p.mode), s, id) == s
  {
  }

  /** Every stream of the map owns up to its drops; a gateway tells its operator its own counts and starts them again. */
  lemma DropsOwnedUpTo(p: Params, g: Gateway, now: int)
    requires Core(p, g) && Enabled(p, g, now, DropsReported)
    ensures var g' := Step(p, g, now, DropsReported);
            && g'.live == g.live && g'.tick == g.tick && g'.posts == g.posts && |g'.objs| == |g.objs|
            && (forall x :: 0 <= x < |g.objs| ==>
                  if x in g.live then OwnsUp(p, g.objs[x], g'.objs[x]) else g'.objs[x] == g.objs[x])
            && (p.mode != CollectorMode ==>
                  && g'.unattributed == 0 && g'.toldUnattributed == g.toldUnattributed + g.unattributed
                  && g'.refusedTenants == 0 && g'.toldRefused == g.toldRefused + g.refusedTenants
                  && g'.badKeyDrops == 0 && g'.toldBadKey == g.toldBadKey + g.badKeyDrops)
            && (p.mode == CollectorMode ==>
                  g'.unattributed == g.unattributed && g'.refusedTenants == g.refusedTenants && g'.badKeyDrops == g.badKeyDrops)
  {
    hide Core, ReportAll, OwnsUp;
    OrderDistinct(p, g);
    var g1 := g.(clock := now);
    ReportAllLive(p, g1, g.live);
    ReportAllPosts(p, g1, g.live);
    ReportAllTiming(p, g1, g.live);
    ReportAllCounts(p, g1, g.live);
    var g' := Step(p, g, now, DropsReported);
    forall x | 0 <= x < |g.objs|
      ensures if x in g.live then OwnsUp(p, g.objs[x], g'.objs[x]) else g'.objs[x] == g.objs[x]
    {
      ReportAllOwnUp(p, g1, g.live, x);
    }
  }

  lemma {:induction false} ReportAllCounts(p: Params, g: Gateway, ids: seq<nat>)
    requires InRange(ids, g)
    ensures var g' := ReportAll(p, g, ids);
            && g'.unattributed == g.unattributed && g'.refusedTenants == g.refusedTenants && g'.badKeyDrops == g.badKeyDrops
            && g'.toldUnattributed == g.toldUnattributed && g'.toldRefused == g.toldRefused && g'.toldBadKey == g.toldBadKey
  {
    if ids != [] { ReportAllCounts(p, g, ids[..|ids|-1]); }
  }

  /** The sweep changes nothing but the map, and keeps its order. Whom it takes is `LeavesExactly`. */
  lemma SweepTakesOnly(p: Params, g: Gateway, now: int)
    requires Enabled(p, g, now, IdleSwept)
    ensures var g' := Step(p, g, now, IdleSwept);
            g' == g.(clock := now, live := g'.live) && InOrder(g'.live, g.live)
  {
    hide Select;
    SelectInOrder(p, g.objs, g.live, Survives(now));
  }

  // ── boot ──────────────────────────────────────────────────────────────────

  /** A gateway starts with nothing; a collector with its one stream, already polled, or not at all if its key is refused. */
  lemma BootIs(p: Params, t: int, boot: PollReply)
    ensures var g := Boot(p, t, boot);
            && g.clock == t && g.tick == Idle && g.posts == [] && g.passes == []
            && g.unattributed == 0 && g.refusedTenants == 0 && g.badKeyDrops == 0
            && (p.mode != CollectorMode ==> g.objs == [] && g.live == [] && !g.exited)
            && (p.mode == CollectorMode ==>
                  && |g.objs| == 1 && g.live == [0] && (g.exited <==> boot == PollRefused)
                  && var s := g.objs[0];
                     && s.token == p.key && s.queue == [] && s.batch == [] && !s.flushing && s.polledAt == t
                     && s.received == 0 && s.dropped == 0 && s.shipped == 0 && s.retryAt == 0 && s.backoffMs == 0 && s.badUntil == 0
                     && (!boot.PollOk? ==> s.cfg == Config("", true, 500))
                     && (boot.PollOk? ==>
                           && s.cfg.devicePrefix == (if boot.patch.devicePrefix.Some? then boot.patch.devicePrefix.value else "")
                           && s.cfg.enabled == (if boot.patch.enabled.Some? then boot.patch.enabled.value else true)
                           && s.cfg.batchMax == (if boot.patch.batchMax.Some? then boot.patch.batchMax.value else 500)))
  {
  }
}
