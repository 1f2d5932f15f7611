/** Runs from boot, and the first few steps of one, for the lemmas that show a state can be reached. */
module ReachableRuns {
  import opened Distinctness
  import opened Numbers
  import opened Wrappers
  import opened StreamModel
  import opened StreamLaws
  import opened GatewayModel
  import opened GatewayLaws
  import opened TickLaws
  import opened TimingLaws

  // ── runs written out ──────────────────────────────────────────────────────

  /** One more step at the end of a run. */
  lemma {:induction false} RunOneMore(p: Params, g: Gateway, evs: seq<Timed>, now: int, e: Event)
    requires Legal(p, g, evs) && Enabled(p, After(p, g, evs), now, e)
    ensures Legal(p, g, evs + [(now, e)])
    ensures After(p, g, evs + [(now, e)]) == Step(p, After(p, g, evs), now, e)
    decreases |evs|
  {
    hide Step, Enabled;
    if evs == [] {
      assert ([] + [(now, e)])[1..] == [];
    } else {
      assert (evs + [(now, e)])[1..] == evs[1..] + [(now, e)];
      RunOneMore(p, Step(p, g, evs[0].0, evs[0].1), evs[1..], now, e);
    }
  }

  /** A state some run from boot ends in. */
  ghost predicate Reachable(p: Params, g: Gateway) {
    exists t: int, boot: PollReply, evs: seq<Timed> ::
      Legal(p, Boot(p, t, boot), evs) && After(p, Boot(p, t, boot), evs) == g
  }

  lemma ReachBoot(p: Params, t: int, boot: PollReply)
    ensures Reachable(p, Boot(p, t, boot))
  {
    assert Legal(p, Boot(p, t, boot), []) && After(p, Boot(p, t, boot), []) == Boot(p, t, boot);
  }

  lemma ReachStep(p: Params, g: Gateway, now: int, e: Event)
    requires Reachable(p, g) && Enabled(p, g, now, e)
    ensures Reachable(p, Step(p, g, now, e))
  {
    hide Step, Enabled, Boot;
    var t: int, boot: PollReply, evs: seq<Timed> :|
      Legal(p, Boot(p, t, boot), evs) && After(p, Boot(p, t, boot), evs) == g;
    RunOneMore(p, Boot(p, t, boot), evs, now, e);
  }

  lemma ReachableInv(p: Params, g: Gateway)
    requires Reachable(p, g)
    ensures Inv(p, g)
  {
    hide Inv, Boot, Legal, After;
    var t: int, boot: PollReply, evs: seq<Timed> :|
      Legal(p, Boot(p, t, boot), evs) && After(p, Boot(p, t, boot), evs) == g;
    BootInv(p, t, boot);
    RunInv(p, Boot(p, t, boot), evs);
  }

  /** A group of one. */
  lemma StartOne(p: Params, g: Gateway, now: int, sid: nat, byTick: bool)
    requires sid < |g.objs|
    ensures StartAll(p, g, now, [sid], byTick) == StartFlush(p, g, now, sid, byTick)
  {
    assert [sid][..0] == [];
  }

  lemma GroupOfOne(p: Params, g: Gateway, now: int, sid: nat)
    requires g.tick.Shipping? && g.tick.rest == [sid] && sid < |g.objs|
    ensures TickGroup(p, g, now) == StartFlush(p, g.(tick := g.tick.(rest := [])), now, sid, true)
  {
    assert [sid][1..] == [];
    StartOne(p, g.(tick := g.tick.(rest := [])), now, sid, true);
  }

  lemma PickOne(p: Params, objs: seq<Stream>, sid: nat, pick: Pick)
    requires sid < |objs|
    ensures Select(p, objs, [sid], pick) == if Picked(p, objs[sid], pick) then [sid] else []
  {
    assert [sid][..0] == [];
  }

  // ── a first run, in any mode ──────────────────────────────────────────────

  /** A message every mode can attribute, and the tenant it then has. */
  const HELLO := Message("x", Some("oca_0123456789abcdef"), "10.0.0.7", "fw", "link down", 4)

  function Speaker(p: Params): string {
    match p.mode
    case TunnelMode => HELLO.peer
    case GatewayMode => HELLO.sdToken.value
    case CollectorMode => p.key
  }

  lemma HelloIsHeard(p: Params)
    ensures HELLO.raw != "" && Attribution(p, HELLO) == Some(Speaker(p))
  {
    assert TokenShape("oca_0123456789abcdef");
  }

  /** The only stream once a tick has polled it. In tunnel mode nothing is ever polled. */
  function OnlyStream(p: Params, t: int): Stream {
    NewStream(Speaker(p)).(polledAt := if p.mode == TunnelMode then 0 else t)
  }

  function Hello(id: nat, p: Params): Item {
    Item(id, Speaker(p), Entry(HELLO.device, Text(HELLO.text), HELLO.sev))
  }

  lemma FirstHello(p: Params, t: int)
    requires 0 < t
    ensures var g := Boot(p, t, PollNotOk);
            var s := NewStream(Speaker(p)).(polledAt := if p.mode == CollectorMode then t else 0);
            OnMessage(p, g, t, HELLO) ==
              g.(objs := [Enqueued(p.maxQueue, s, Hello(0, p))], live := [0], handled := 1, nextId := 1)
  {
    hide Attribution, Enqueued;
    HelloIsHeard(p);
  }

  /** A tick, when there is one stream: it is polled if it is due, and then ranked. */
  lemma NextTick(p: Params, g: Gateway, t: int) returns (g': Gateway)
    requires Reachable(p, g) && !g.exited && g.clock == t && g.tick == Idle
    requires g.live == [0] && |g.objs| == 1 && IsReady(g.objs[0], t)
    ensures Reachable(p, g') && g' == g.(objs := g'.objs, tick := Shipping(t, [0], {}))
    ensures var s := g.objs[0];
            g'.objs == [s.(polledAt := if p.mode != TunnelMode && IsDue(p, s, t) then t else s.polledAt)]
  {
    hide Reachable, Select, StartAll, ReportAll, OnMessage, FinishFlush, TickGroup, SweepIdle;
    PickOne(p, g.objs, 0, DueAt(t));
    ReachStep(p, g, t, TickStarts);
    g' := Step(p, g, t, TickStarts);
    if g'.tick.pending != [] {
      assert g'.tick == Polling(t, [0], None);
      ReachStep(p, g', t, PollSends);
      g' := Step(p, g', t, PollSends);
      ReachStep(p, g', t, PollReturns(PollNotOk));
      g' := Step(p, g', t, PollReturns(PollNotOk));
    }
    assert g'.tick == Polling(t, [], None) && g'.objs == [g.objs[0].(polledAt := g'.objs[0].polledAt)];
    PickOne(p, g'.objs, 0, ReadyAt(t));
    ReachStep(p, g', t, TickRanks);
    g' := Step(p, g', t, TickRanks);
  }

  /** One tenant's one line queued, and the scheduler about to post it. */
  lemma OneLineReady(p: Params, t: int) returns (g: Gateway)
    requires 0 < t
    ensures Reachable(p, g) && !g.exited && g.clock == t && !g.Draining() && g.posts == []
    ensures g.live == [0] && g.nextId == 1 && g.tick == Shipping(t, [0], {})
    ensures g.objs == [Enqueued(p.maxQueue, OnlyStream(p, t), Hello(0, p))]
  {
    hide Reachable, OnMessage;
    ReachBoot(p, t, PollNotOk);
    FirstHello(p, t);
    var g0 := Boot(p, t, PollNotOk);
    ReachStep(p, g0, t, Arrival(HELLO));
    assert g0.(clock := t) == g0;
    g := NextTick(p, Step(p, g0, t, Arrival(HELLO)), t);
  }

  /** ...and posted. */
  lemma OneLinePosted(p: Params, g: Gateway, t: int) returns (g': Gateway)
    requires Reachable(p, g) && !g.exited && g.clock == t && g.tick == Shipping(t, [0], {})
    requires g.live == [0] && |g.objs| == 1 && CanFlush(g.objs[0])
    ensures Reachable(p, g') && !g'.exited && g'.clock == t && g'.live == [0] && g'.passes == g.passes
    ensures g'.objs == [Begun(g.objs[0])] && g'.tick == Shipping(t, [], {0}) && g'.nextId == g.nextId
    ensures g'.posts == g.posts + [PostOf(p, g.objs[0], 0, t, true)]
  {
    hide Reachable;
    ReachStep(p, g, t, TickPosts);
    g' := Step(p, g, t, TickPosts);
    GroupOfOne(p, g.(clock := t), t, 0);
  }

  // ── two tenants ───────────────────────────────────────────────────────────

  const TOKEN_A := "oca_0123456789abcdef"
  const TOKEN_B := "ocb_0123456789abcdef"

  function From(token: string): Message { HELLO.(sdToken := Some(token)) }

  lemma BothAreHeard(p: Params)
    requires p.mode == GatewayMode
    ensures Attribution(p, From(TOKEN_A)) == Some(TOKEN_A) && Attribution(p, From(TOKEN_B)) == Some(TOKEN_B)
    ensures TOKEN_A != TOKEN_B
  {
    assert TokenShape(TOKEN_A) && TokenShape(TOKEN_B) && TOKEN_A[2] != TOKEN_B[2];
  }

  /** A message of a tenant the map does not have. */
  lemma OneMoreTenant(p: Params, g: Gateway, t: int, token: string) returns (g': Gateway)
    requires Reachable(p, g) && Enabled(p, g, t, Arrival(From(token))) && p.mode == GatewayMode
    requires 0 < t && |g.live| < p.maxTenants && Attribution(p, From(token)) == Some(token)
    requires forall i :: 0 <= i < |g.objs| ==> g.objs[i].token != token
    ensures Reachable(p, g') && g' == g.(clock := t, objs := g'.objs, live := g.live + [|g.objs|],
                                         handled := g.handled + 1, nextId := g.nextId + 1)
    ensures var it := Item(g.nextId, token, Entry(HELLO.device, Text(HELLO.text), HELLO.sev));
            g'.objs == g.objs + [Enqueued(p.maxQueue, NewStream(token), it)]
  {
    hide Reachable, Enqueued;
    ReachStep(p, g, t, Arrival(From(token)));
    g' := Step(p, g, t, Arrival(From(token)));
    assert Find(g.objs, g.live, token).None?;
  }

  lemma PairUnfolds(p: Params, g: Gateway, t: int)
    requires |g.objs| == 2
    ensures InRange([0, 1], g)
    ensures Select(p, g.objs, [0, 1], DueAt(t)) ==
            (if IsDue(p, g.objs[0], t) then [0] else []) + (if IsDue(p, g.objs[1], t) then [1] else [])
    ensures Select(p, g.objs, [0, 1], ReadyAt(t)) ==
            (if IsReady(g.objs[0], t) then [0] else []) + (if IsReady(g.objs[1], t) then [1] else [])
    ensures Select(p, g.objs, [0, 1], Survives(t)) ==
            (if SweepKeeps(p, g.objs[0], t) then [0] else []) + (if SweepKeeps(p, g.objs[1], t) then [1] else [])
    ensures StartAll(p, g, t, [0, 1], true) == StartFlush(p, StartFlush(p, g, t, 0, true), t, 1, true)
  {
    assert [0, 1][..1] == [0] && [0][..0] == [];
    assert Select(p, g.objs, [0], DueAt(t)) == if IsDue(p, g.objs[0], t) then [0] else [];
    assert Select(p, g.objs, [0], ReadyAt(t)) == if IsReady(g.objs[0], t) then [0] else [];
    assert Select(p, g.objs, [0], Survives(t)) == if SweepKeeps(p, g.objs[0], t) then [0] else [];
    StartOne(p, g, t, 0, true);
  }

  /** The last poll of a tick comes back without a configuration, and both streams are ranked. */
  lemma TwoRanked(p: Params, t: int, g: Gateway, last: nat) returns (g': Gateway)
    requires Reachable(p, g) && !g.exited && g.clock == t && g.live == [0, 1] && |g.objs| == 2
    requires g.tick == Polling(t, [], Some(last)) && last < 2
    requires forall i :: 0 <= i < 2 ==> IsReady(g.objs[i], t)
    ensures Reachable(p, g') && g' == g.(tick := Shipping(t, [0, 1], {}))
  {
    hide Reachable, OnMessage, StartAll, ReportAll, FinishFlush, TickGroup, SweepIdle, Select;
    ReachStep(p, g, t, PollReturns(PollNotOk));
    var g1 := Step(p, g, t, PollReturns(PollNotOk));
    assert g1 == g.(tick := Polling(t, [], None));
    PairUnfolds(p, g1, t);
    assert Select(p, g1.objs, g1.live, ReadyAt(t)) == [0, 1];
    ReachStep(p, g1, t, TickRanks);
    g' := Step(p, g1, t, TickRanks);
  }

  /** ...and posted in one group. */
  lemma TwoPosted(p: Params, t: int, g: Gateway) returns (g': Gateway)
    requires Reachable(p, g) && !g.exited && g.clock == t && g.live == [0, 1] && |g.objs| == 2
    requires g.tick == Shipping(t, [0, 1], {}) && CanFlush(g.objs[0]) && CanFlush(g.objs[1])
    ensures Reachable(p, g') && !g'.exited && g'.clock == t && g'.live == [0, 1]
    ensures g'.objs == [Begun(g.objs[0]), Begun(g.objs[1])] && g'.tick == Shipping(t, [], {0, 1})
    ensures g'.posts == g.posts + [PostOf(p, g.objs[0], 0, t, true), PostOf(p, g.objs[1], 1, t, true)]
  {
    hide Reachable, Select, ReportAll, OnMessage, FinishFlush, PollDone, Begun, PostOf;
    ReachStep(p, g, t, TickPosts);
    g' := Step(p, g, t, TickPosts);
    assert [0, 1][2..] == [];
    PairUnfolds(p, g.(clock := t, tick := Shipping(t, [], {})), t);
    assert g'.objs == [Begun(g.objs[0]), Begun(g.objs[1])] && g'.tick == Shipping(t, [], {0, 1});
  }
}
