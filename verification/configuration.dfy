/**
 * "The server decides what it can": over any run, a stream's prefix, switch and batch
 * size are what the answers to its own polls last said, and a stream the server has
 * switched off posts nothing.
 */
module Configuration {
  import opened Numbers
  import opened Wrappers
  import opened StreamModel
  import opened StreamLaws
  import opened GatewayModel
  import opened GatewayLaws
  import opened TickLaws
  import opened TimingLaws
  import opened ReachableRuns
  import opened Unconfigured
  import CollectorTheorems

  /** The configuration that this event brings x, if it does. */
  function SentBy(g: Gateway, e: Event, x: nat): seq<Patch> {
    if Configures(g, e, x) then [e.answer.patch] else []
  }

  /** The configurations that polls of x were answered with, in order. */
  ghost function PatchesIn(p: Params, g: Gateway, evs: seq<Timed>, x: nat): seq<Patch>
    requires Legal(p, g, evs)
    decreases |evs|
  {
    if evs == [] then []
    else SentBy(g, evs[0].1, x) + PatchesIn(p, Step(p, g, evs[0].0, evs[0].1), evs[1..], x)
  }

  /** One step: a configuration for x is taken over field by field; nothing else changes one, and a new stream has the defaults. */
  lemma OneStepOf(p: Params, g: Gateway, now: int, e: Event, x: nat, c: Config, so: seq<Patch>)
    requires Enabled(p, g, now, e) && x < |Step(p, g, now, e).objs|
    requires if x < |g.objs| then FromPatches(c, so, g.objs[x].cfg) else c == Config("", true, 500) && so == []
    ensures FromPatches(c, so + SentBy(g, e, x), Step(p, g, now, e).objs[x].cfg)
  {
    hide Step, FromPatches;
    if x < |g.objs| {
      CollectorTheorems.OnlyOwnPollConfigures(p, g, now, e, x);
      OwnPollIs(p, g, now, e, x);
      if Configures(g, e, x) {
        OnePatchMore(c, so, g.objs[x].cfg, e.answer.patch, Step(p, g, now, e).objs[x].cfg);
      } else {
        assert so + [] == so;
      }
    } else {
      MadeDefault(p, g, now, e, x);
      NotYetPolled(p, g, now, e, x);
      NothingSentYet(c);
      assert so + [] == so;
    }
  }

  lemma NotYetPolled(p: Params, g: Gateway, now: int, e: Event, x: nat)
    requires Enabled(p, g, now, e) && x >= |g.objs|
    ensures !Configures(g, e, x)
  {
  }

  lemma NothingSentYet(c: Config)
    ensures FromPatches(c, [], c)
  {
  }

  lemma {:induction false} AsSentRun(p: Params, g: Gateway, evs: seq<Timed>, x: nat, c: Config, so: seq<Patch>)
    requires Legal(p, g, evs) && x < |After(p, g, evs).objs|
    requires if x < |g.objs| then FromPatches(c, so, g.objs[x].cfg) else c == Config("", true, 500) && so == []
    ensures FromPatches(c, so + PatchesIn(p, g, evs, x), After(p, g, evs).objs[x].cfg)
    decreases |evs|
  {
    hide Step, Enabled, FromPatches, SentBy;
    if evs == [] {
      assert so + [] == so;
    } else {
      var (now, e) := evs[0];
      var g1 := Step(p, g, now, e);
      var more := SentBy(g, e, x);
      if x < |g1.objs| { OneStepOf(p, g, now, e, x, c, so); }
      NoneIfNotYet(p, g, now, e, x);
      assert x >= |g1.objs| ==> so + more == so;
      AsSentRun(p, g1, evs[1..], x, c, so + more);
      assert so + more + PatchesIn(p, g1, evs[1..], x) == so + (more + PatchesIn(p, g1, evs[1..], x));
    }
  }

  lemma NoneIfNotYet(p: Params, g: Gateway, now: int, e: Event, x: nat)
    requires Enabled(p, g, now, e)
    ensures |g.objs| <= |Step(p, g, now, e).objs|
    ensures x >= |g.objs| ==> SentBy(g, e, x) == []
  {
    if |g.objs| > 0 { CollectorTheorems.OnlyOwnPollConfigures(p, g, now, e, |g.objs| - 1); }
  }

  /**
   * Over any run, each field of a stream's configuration is the last value that an answer to one of its
   * own polls gave it, and if none did, what it was at the start, which for a new stream is the default.
   */
  lemma ConfiguredAsSent(p: Params, g: Gateway, evs: seq<Timed>, x: nat)
    requires Legal(p, g, evs) && x < |After(p, g, evs).objs|
    ensures FromPatches(if x < |g.objs| then g.objs[x].cfg else Config("", true, 500),
                        PatchesIn(p, g, evs, x), After(p, g, evs).objs[x].cfg)
  {
    hide Legal, After, FromPatches, PatchesIn;
    var c := if x < |g.objs| then g.objs[x].cfg else Config("", true, 500);
    NothingSentYet(c);
    AsSentRun(p, g, evs, x, c, []);
    assert [] + PatchesIn(p, g, evs, x) == PatchesIn(p, g, evs, x);
  }

  // ── switched off ──────────────────────────────────────────────────────────

  lemma PostsGrow(p: Params, g0: Gateway, now: int, e: Event)
    requires Enabled(p, g0, now, e)
    ensures g0.posts <= Step(p, g0, now, e).posts
  {
    hide Ended, Select, StartAll, OnMessage, ReportAll;
    var g := g0.(clock := now);
    match e
    case Arrival(m) => ArrivalPosts(p, g, now, m);
    case DropsReported => ReportAllPosts(p, g, g.live);
    case TickPosts =>
      var group := First(POSTS_AT_ONCE, g.tick.rest);
      StartAllPosts(p, g.(tick := g.tick.(rest := g.tick.rest[|group|..])), now, group, true);
    case Signalled => StartAllPosts(p, g, now, g.live, false);
    case _ =>
  }

  /** No poll of x is answered with the switch on. */
  ghost predicate NotSwitchedOn(p: Params, g: Gateway, evs: seq<Timed>, x: nat)
    requires Legal(p, g, evs)
  {
    forall i :: 0 <= i < |PatchesIn(p, g, evs, x)| ==> PatchesIn(p, g, evs, x)[i].enabled != Some(true)
  }

  lemma OffStep(p: Params, g: Gateway, now: int, e: Event, x: nat)
    requires Enabled(p, g, now, e) && x < |g.objs| && !g.objs[x].cfg.enabled
    requires forall i :: 0 <= i < |SentBy(g, e, x)| ==> SentBy(g, e, x)[i].enabled != Some(true)
    ensures var g' := Step(p, g, now, e);
            && x < |g'.objs| && !g'.objs[x].cfg.enabled && g.posts <= g'.posts
            && forall k :: |g.posts| <= k < |g'.posts| ==> g'.posts[k].sid != x
  {
    hide Step, Enabled;
    if Configures(g, e, x) { assert SentBy(g, e, x)[0] == e.answer.patch; }
    CollectorTheorems.OnlyOwnPollConfigures(p, g, now, e, x);
    OwnPollIs(p, g, now, e, x);
    PostsGrow(p, g, now, e);
    forall k | |g.posts| <= k < |Step(p, g, now, e).posts|
      ensures Step(p, g, now, e).posts[k].sid != x
    {
      PostsTakeFronts(p, g, now, e, k);
    }
  }

  /** A stream the server has switched off posts nothing, at no tick and at no shutdown, until the server switches it on. */
  lemma {:induction false} OffMeansSilent(p: Params, g: Gateway, evs: seq<Timed>, x: nat)
    requires Legal(p, g, evs) && x < |g.objs| && !g.objs[x].cfg.enabled && NotSwitchedOn(p, g, evs, x)
    ensures var g' := After(p, g, evs);
            && x < |g'.objs| && !g'.objs[x].cfg.enabled && g.posts <= g'.posts
            && forall k :: |g.posts| <= k < |g'.posts| ==> g'.posts[k].sid != x
    decreases |evs|
  {
    hide Step, Enabled, SentBy;
    if evs != [] {
      var (now, e) := evs[0];
      var g1 := Step(p, g, now, e);
      var first, rest := SentBy(g, e, x), PatchesIn(p, g1, evs[1..], x);
      assert PatchesIn(p, g, evs, x) == first + rest;
      assert forall i :: 0 <= i < |first| ==> first[i] == (first + rest)[i];
      assert forall i :: 0 <= i < |rest| ==> rest[i] == (first + rest)[|first| + i];
      OffStep(p, g, now, e, x);
      OffMeansSilent(p, g1, evs[1..], x);
    }
  }

  // ── two runs ──────────────────────────────────────────────────────────────

  const SITE: Patch := Patch(Some("site1-"), Some(true), Some(100))

  /** A gateway's first tenant, one line queued, listed, polled, and the poll answered. */
  lemma PolledWith(p: Params, sent: Patch) returns (g: Gateway)
    requires p.mode == GatewayMode
    ensures Reachable(p, g) && !g.exited && g.clock == 1 && g.posts == [] && g.live == [0] && |g.objs| == 1
    ensures g.tick == Shipping(1, [0], {})
    ensures g.objs[0] == Configured(Enqueued(p.maxQueue, OnlyStream(p, 1), Hello(0, p)), sent)
  {
    hide Reachable, OnMessage, StartAll, ReportAll, FinishFlush, TickGroup, SweepIdle, Select, Configured, Enqueued;
    ReachBoot(p, 1, PollNotOk);
    FirstHello(p, 1);
    var g0 := Boot(p, 1, PollNotOk);
    ReachStep(p, g0, 1, Arrival(HELLO));
    assert g0.(clock := 1) == g0;
    var g1 := Step(p, g0, 1, Arrival(HELLO));
    FirstLineIs(p);
    PickOne(p, g1.objs, 0, DueAt(1));
    ReachStep(p, g1, 1, TickStarts);
    var g2 := Step(p, g1, 1, TickStarts);
    assert g2.tick == Polling(1, [0], None) && [0][1..] == [];
    ReachStep(p, g2, 1, PollSends);
    var g3 := Step(p, g2, 1, PollSends);
    ReachStep(p, g3, 1, PollReturns(PollOk(sent)));
    var g4 := Step(p, g3, 1, PollReturns(PollOk(sent)));
    ConfiguredTimes(g3.objs[0], sent);
    PickOne(p, g4.objs, 0, ReadyAt(1));
    ReachStep(p, g4, 1, TickRanks);
    g := Step(p, g4, 1, TickRanks);
  }

  lemma FirstLineIs(p: Params)
    requires p.mode == GatewayMode
    ensures var s := Enqueued(p.maxQueue, NewStream(Speaker(p)), Hello(0, p));
            && s.polledAt == 0 && s.retryAt == 0 && s.badUntil == 0
            && s.(polledAt := 1) == Enqueued(p.maxQueue, OnlyStream(p, 1), Hello(0, p))
            && s.(polledAt := 0) == s && NewStream(Speaker(p)).(polledAt := 0) == NewStream(Speaker(p))
  {
  }

  lemma ConfiguredTimes(s: Stream, sent: Patch)
    ensures Configured(s, sent).retryAt == s.retryAt && Configured(s, sent).badUntil == s.badUntil
  {
  }

  /** Switched off by the answer: the tick comes to its POSTs, and there are none. */
  lemma SwitchedOffPostsNothing(p: Params)
    requires p.mode == GatewayMode
    ensures exists g :: Reachable(p, g) && |g.objs| == 1 && g.posts == [] && |g.objs[0].queue| == 1 &&
                        g.tick == Shipping(1, [], {}) && g.objs[0].cfg == Config("site1-", false, 100)
  {
    hide Reachable;
    var g := PolledWith(p, SITE.(enabled := Some(false)));
    ReachStep(p, g, 1, TickPosts);
    GroupOfOne(p, g.(clock := 1), 1, 0);
    var g1 := Step(p, g, 1, TickPosts);
    assert g1.tick == Shipping(1, [], {});
  }

  /** Given a prefix by the answer: the line goes out under it. */
  lemma PrefixIsUsed(p: Params)
    requires p.mode == GatewayMode
    ensures exists g :: Reachable(p, g) && |g.objs| == 1 && g.objs[0].cfg == Config("site1-", true, 100) &&
                        |g.posts| == 1 && g.posts[0].logs == [Entry("site1-fw", Text("link down"), 4)]
  {
    hide Reachable;
    var g := PolledWith(p, SITE);
    var g1 := OneLinePosted(p, g, 1);
    assert "site1-" + "fw" == "site1-fw";
    assert g1.posts[0].logs == [Entry("site1-fw", Text("link down"), 4)];
  }
}
