/**
 * What the idle sweep is for: a tenant silent for long enough is forgotten, so that
 * the cap on tenants is not a mark that only ever rises. But idle tenants are polled
 * like all others, and the sweep spares whoever was polled lately. While ticks keep
 * coming it only ever takes a stream that has never been polled, and a map that is
 * full of polled streams stays full.
 */
module IdleSweep {
  import opened Distinctness
  import opened Wrappers
  import opened StreamModel
  import opened StreamLaws
  import opened GatewayModel
  import opened GatewayLaws
  import opened TickLaws
  import opened TimingLaws
  import opened PollFairness
  import opened FirstPoll
  import opened ReachableRuns
  import CollectorTheorems

  /** Every stream of the map was never polled, or is polled on time. */
  ghost predicate AllOnTime(p: Params, g: Gateway, last: int, gap: nat) {
    && 0 < g.clock && last <= g.clock <= last + gap && |g.live| <= p.maxTenants && InRange(g.live, g)
    && forall x :: 0 <= x < |g.objs| && x in g.live ==>
         g.objs[x].polledAt == 0 || KeptFresh(p, g, x, last, gap, p.maxTenants)
  }

  lemma MapFits(p: Params, g: Gateway)
    requires Core(p, g) && p.mode == GatewayMode
    ensures |g.live| <= p.maxTenants && InRange(g.live, g)
  {
    hide Streams, Posts, Retired, Balance;
  }

  lemma AheadFew(ids: seq<nat>, x: nat)
    ensures |Ahead(ids, x)| <= |ids|
  {
  }

  /** One stream of the map after a step. */
  lemma OneOnTime(p: Params, g: Gateway, now: int, e: Event, last: int, gap: nat, x: nat)
    requires Inv(p, g) && Enabled(p, g, now, e) && Inv(p, Step(p, g, now, e)) && p.mode == GatewayMode
    requires AllOnTime(p, g, last, gap) && now <= last + gap && Wait(p.maxTenants, gap) < p.pollMs
    requires x in Step(p, g, now, e).live && x < |Step(p, g, now, e).objs|
    ensures var g' := Step(p, g, now, e);
            g'.objs[x].polledAt == 0 || KeptFresh(p, g', x, LastTick(last, (now, e)), gap, p.maxTenants)
  {
    hide Inv, Core, Step, Enabled, KeptFresh, Wait;
    var g' := Step(p, g, now, e);
    InvCore(p, g);
    InvCore(p, g');
    MapFits(p, g');
    NoneComesBack(p, g, now, e, x);
    PolledExactly(p, g, now, e, x);
    ClockIsNow(p, g, now, e);
    if x < |g.objs| && g.objs[x].polledAt != 0 {
      FreshStep(p, g, now, e, x, last, gap, p.maxTenants);
    } else if g'.objs[x].polledAt != 0 {
      AheadFew(g'.live, x);
      JustPolled(p, g', x, LastTick(last, (now, e)), gap, p.maxTenants);
    }
  }

  lemma AllOnTimeStep(p: Params, g: Gateway, now: int, e: Event, last: int, gap: nat)
    requires Inv(p, g) && Enabled(p, g, now, e) && p.mode == GatewayMode
    requires AllOnTime(p, g, last, gap) && now <= last + gap && Wait(p.maxTenants, gap) < p.pollMs
    ensures AllOnTime(p, Step(p, g, now, e), LastTick(last, (now, e)), gap)
  {
    CoreStep(p, g, now, e);
    TickStep(p, g, now, e);
    hide Inv, Core, TickInv, Step, Enabled, KeptFresh, Wait;
    var g' := Step(p, g, now, e);
    MapFits(p, g');
    ClockIsNow(p, g, now, e);
    assert Inv(p, g') by { BothInv(p, g'); }
    forall x | 0 <= x < |g'.objs| && x in g'.live
      ensures g'.objs[x].polledAt == 0 || KeptFresh(p, g', x, LastTick(last, (now, e)), gap, p.maxTenants)
    {
      OneOnTime(p, g, now, e, last, gap, x);
    }
  }

  lemma BothInv(p: Params, g: Gateway)
    requires Core(p, g) && TickInv(p, g)
    ensures Inv(p, g)
  {
    hide Core, TickInv;
  }

  /** When the last tick of a run started. */
  function LastStart(last: int, evs: seq<Timed>): int
    decreases |evs|
  {
    if evs == [] then last else LastStart(LastTick(last, evs[0]), evs[1..])
  }

  lemma {:induction false} AllOnTimeRun(p: Params, g: Gateway, evs: seq<Timed>, last: int, gap: nat)
    requires Inv(p, g) && Legal(p, g, evs) && p.mode == GatewayMode && Wait(p.maxTenants, gap) < p.pollMs
    requires AllOnTime(p, g, last, gap) && Paced(evs, last, gap)
    ensures AllOnTime(p, After(p, g, evs), LastStart(last, evs), gap)
    decreases |evs|
  {
    if evs != [] {
      var (now, e) := evs[0];
      CoreStep(p, g, now, e);
      TickStep(p, g, now, e);
      hide Step, Enabled, Core, TickInv, AllOnTime, Wait;
      AllOnTimeStep(p, g, now, e, last, gap);
      AllOnTimeRun(p, Step(p, g, now, e), evs[1..], LastTick(last, evs[0]), gap);
    }
  }

  /**
   * In a gateway that keeps ticking, from boot and for as long as it runs: a sweep takes a stream of the
   * map exactly when it was never polled, holds nothing, has nothing in flight, is not refused, and the
   * clock is past ten minutes and two poll intervals, which any clock that counts from 1970 is.
   */
  lemma SweepTakesExactly(p: Params, t: int, boot: PollReply, evs: seq<Timed>, now: int, gap: nat, x: nat)
    requires p.mode == GatewayMode && 0 < t && Legal(p, Boot(p, t, boot), evs) && Paced(evs, t, gap)
    requires Wait(p.maxTenants, gap) < p.pollMs && now <= LastStart(t, evs) + gap
    requires var g := After(p, Boot(p, t, boot), evs);
             Enabled(p, g, now, IdleSwept) && x in g.live && x < |g.objs|
    ensures var g := After(p, Boot(p, t, boot), evs);
            var s := g.objs[x];
            x !in Step(p, g, now, IdleSwept).live <==>
            s.polledAt == 0 && s.queue == [] && !s.flushing && s.badUntil <= now && now >= 600000 && now >= 2 * p.pollMs
  {
    hide Legal, After, Inv, Core, Step, Enabled, KeptFresh, Wait;
    BootInv(p, t, boot);
    RunInv(p, Boot(p, t, boot), evs);
    AllOnTimeRun(p, Boot(p, t, boot), evs, t, gap);
    var g := After(p, Boot(p, t, boot), evs);
    InvCore(p, g);
    LeavesExactly(p, g, now, IdleSwept, x);
    if g.objs[x].polledAt != 0 { FreshSurvives(p, g, now, IdleSwept, x, LastStart(t, evs), gap, p.maxTenants); }
  }

  // ── a full map ────────────────────────────────────────────────────────────

  lemma {:induction false} SelectAll(p: Params, objs: seq<Stream>, ids: seq<nat>, pick: Pick)
    requires forall i :: 0 <= i < |ids| ==> ids[i] < |objs| && Picked(p, objs[ids[i]], pick)
    ensures Select(p, objs, ids, pick) == ids
  {
    hide Picked;
    if ids != [] {
      var n := |ids| - 1;
      SelectAll(p, objs, ids[..n], pick);
      assert ids == ids[..n] + [ids[n]];
    }
  }

  /** Full, and every stream of it polled on time. */
  ghost predicate FullOfPolled(p: Params, g: Gateway, last: int, gap: nat) {
    && |g.live| == p.maxTenants && InRange(g.live, g)
    && forall i :: 0 <= i < |g.live| ==> KeptFresh(p, g, g.live[i], last, gap, p.maxTenants)
  }

  lemma FullSweep(p: Params, g: Gateway, now: int, last: int, gap: nat)
    requires Core(p, g) && Enabled(p, g, now, IdleSwept)
    requires FullOfPolled(p, g, last, gap) && now <= last + gap && Wait(p.maxTenants, gap) < p.pollMs
    ensures Step(p, g, now, IdleSwept).live == g.live
  {
    hide Core, Step, Enabled, KeptFresh, Wait, SweepKeeps;
    SweptLive(p, g, now);
    OrderDistinct(p, g);
    SelectFacts(p, g.objs, g.live, Survives(now));
    forall i | 0 <= i < |g.live|
      ensures Picked(p, g.objs[g.live[i]], Survives(now))
    {
      FreshSurvives(p, g, now, IdleSwept, g.live[i], last, gap, p.maxTenants);
    }
    SelectAll(p, g.objs, g.live, Survives(now));
  }

  lemma FullStep(p: Params, g: Gateway, now: int, e: Event, last: int, gap: nat)
    requires Inv(p, g) && Enabled(p, g, now, e) && p.mode == GatewayMode
    requires FullOfPolled(p, g, last, gap) && now <= last + gap && Wait(p.maxTenants, gap) < p.pollMs
    ensures var g' := Step(p, g, now, e);
            && FullOfPolled(p, g', LastTick(last, (now, e)), gap) && g'.live == g.live
            && (forall i :: 0 <= i < |g.live| ==> g'.objs[g.live[i]].token == g.objs[g.live[i]].token)
  {
    hide Inv, Core, Step, Enabled, KeptFresh, Wait;
    var g' := Step(p, g, now, e);
    InvCore(p, g);
    CoreStep(p, g, now, e);
    MapFits(p, g');
    if e.IdleSwept? {
      FullSweep(p, g, now, last, gap);
    } else {
      OnlySweepForgets(p, g, now, e);
    }
    assert g'.live == g.live;
    forall i | 0 <= i < |g.live|
      ensures KeptFresh(p, g', g.live[i], LastTick(last, (now, e)), gap, p.maxTenants)
      ensures g'.objs[g.live[i]].token == g.objs[g.live[i]].token
    {
      FreshStep(p, g, now, e, g.live[i], last, gap, p.maxTenants);
      TokensStay(p, g, now, e, g.live[i]);
    }
  }

  lemma {:induction false} FullRun(p: Params, g: Gateway, evs: seq<Timed>, last: int, gap: nat)
    requires Inv(p, g) && Legal(p, g, evs) && p.mode == GatewayMode && Wait(p.maxTenants, gap) < p.pollMs
    requires FullOfPolled(p, g, last, gap) && Paced(evs, last, gap)
    ensures var g' := After(p, g, evs);
            && g'.live == g.live && InRange(g.live, g) && InRange(g.live, g') && |g.live| == p.maxTenants
            && (forall i :: 0 <= i < |g.live| ==> g'.objs[g.live[i]].token == g.objs[g.live[i]].token)
    decreases |evs|
  {
    hide KeptFresh, Wait;
    if evs != [] {
      var (now, e) := evs[0];
      CoreStep(p, g, now, e);
      TickStep(p, g, now, e);
      FullStep(p, g, now, e, last, gap);
      hide Step, Enabled, Core, TickInv;
      FullRun(p, Step(p, g, now, e), evs[1..], LastTick(last, evs[0]), gap);
    }
  }

  /** A new token at a full map is counted and turned away. */
  lemma TurnedAway(p: Params, g: Gateway, now: int, m: Message)
    requires p.mode == GatewayMode && m.raw != "" && Attribution(p, m).Some? && |g.live| >= p.maxTenants
    requires InRange(g.live, g) && forall i :: 0 <= i < |g.live| ==> g.objs[g.live[i]].token != Attribution(p, m).value
    ensures var g' := OnMessage(p, g, now, m);
            g'.objs == g.objs && g'.live == g.live && g'.refusedTenants == g.refusedTenants + 1
  {
    hide Attribution;
    assert Find(g.objs, g.live, Attribution(p, m).value).None?;
  }

  /**
   * The cap is the mark that only rises: in a gateway that keeps ticking, once the map is full of streams
   * that have been polled, it holds the same streams after any run whatever, however long they have been
   * silent, and every message under any other token is turned away.
   */
  lemma FullMapStaysFull(p: Params, g: Gateway, evs: seq<Timed>, last: int, gap: nat, now: int, m: Message)
    requires Inv(p, g) && Legal(p, g, evs) && Paced(evs, last, gap) && p.mode == GatewayMode
    requires last <= g.clock <= last + gap && Wait(p.maxTenants, gap) < p.pollMs
    requires |g.live| == p.maxTenants && InRange(g.live, g)
    requires forall i :: 0 <= i < |g.live| ==>
               0 < g.objs[g.live[i]].polledAt <= g.clock <= g.objs[g.live[i]].polledAt + p.pollMs
    requires m.raw != "" && Attribution(p, m).Some?
    requires forall i :: 0 <= i < |g.live| ==> g.objs[g.live[i]].token != Attribution(p, m).value
    ensures var g' := After(p, g, evs);
            var g'' := OnMessage(p, g', now, m);
            && g'.live == g.live && g''.live == g.live && g''.objs == g'.objs
            && g''.refusedTenants == g'.refusedTenants + 1
  {
    hide Inv, Legal, After, Attribution, Paced, Wait, Ahead;
    forall i | 0 <= i < |g.live|
      ensures KeptFresh(p, g, g.live[i], last, gap, p.maxTenants)
    {
      NotYetDue(p, g, g.live[i], last, gap);
    }
    FullRun(p, g, evs, last, gap);
    TurnedAway(p, After(p, g, evs), now, m);
  }

  lemma NotYetDue(p: Params, g: Gateway, x: nat, last: int, gap: nat)
    requires x in g.live && x < |g.objs| && 0 < g.objs[x].polledAt <= g.clock <= g.objs[x].polledAt + p.pollMs
    requires last <= g.clock <= last + gap && |g.live| == p.maxTenants
    ensures KeptFresh(p, g, x, last, gap, p.maxTenants)
  {
    hide Ahead, TicksLeft, Wait;
    AheadFew(g.live, x);
  }

  /** Where it begins, when the cap is two: two tenants, polled, with nothing queued and nothing in flight. */
  lemma TwoTenantsFillIt(p: Params)
    requires p.mode == GatewayMode && p.maxTenants == 2
    ensures exists g :: Reachable(p, g) && |g.live| == p.maxTenants && InRange(g.live, g) && !g.exited &&
              (forall i :: 0 <= i < |g.live| ==>
                 var s := g.objs[g.live[i]]; 0 < s.polledAt == g.clock && s.queue == [] && !s.flushing && s.badUntil == 0)
  {
    hide Reachable;
    var g := CollectorTheorems.TwoAtRest(p);
    assert forall i :: 0 <= i < |g.live| ==> g.live[i] == i;
  }
}
