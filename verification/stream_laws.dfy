/**
 * What every change of a stream keeps: no line is lost from the account, none is
 * reordered or duplicated, memory is bounded, and the backoff has its closed form.
 */
module StreamLaws {
  import opened Wrappers
  import opened Numbers
  import opened StreamModel

  // ── order ─────────────────────────────────────────────────────────────────

  ghost predicate Increasing(a: seq<Item>) {
    forall i, j :: 0 <= i < j < |a| ==> a[i].id < a[j].id
  }

  ghost predicate Below(a: seq<Item>, next: nat) {
    forall i :: 0 <= i < |a| ==> a[i].id < next
  }

  /** Acknowledged lines, then the batch in flight, then the queue: arrival order, no repeats. */
  ghost predicate Ordered(s: Stream, next: nat) {
    var a := s.acked + s.batch + s.queue;
    Increasing(a) && Below(a, next)
  }

  // ── accounting ────────────────────────────────────────────────────────────

  /** How many of the lines were the collector's own drop reports. */
  function ReportLines(a: seq<Item>): (n: nat)
    ensures n <= |a|
  {
    if a == [] then 0
    else ReportLines(a[..|a|-1]) + (if a[|a|-1].entry.line.DropReport? then 1 else 0)
  }

  /** The sum of the losses those reports announced. */
  function ReportedDrops(a: seq<Item>): nat {
    if a == [] then 0
    else
      ReportedDrops(a[..|a|-1]) +
      (match a[|a|-1].entry.line case DropReport(n, _, _, _) => n case Text(_) => 0)
  }

  lemma ReportAppend(a: seq<Item>, it: Item)
    ensures ReportLines(a + [it]) == ReportLines(a) + (if it.entry.line.DropReport? then 1 else 0)
    ensures ReportedDrops(a + [it]) ==
            ReportedDrops(a) + (match it.entry.line case DropReport(n, _, _, _) => n case Text(_) => 0)
  {
    assert (a + [it])[..|a|] == a;
  }

  /** Every line that arrived is in exactly one place, unaltered. */
  ghost predicate Conserved(s: Stream) {
    multiset(s.arrived) ==
    multiset(s.acked) + multiset(s.batch) + multiset(s.queue) +
    multiset(s.discarded) + multiset(s.cleared) + multiset(s.lost)
  }

  ghost predicate Counted(s: Stream) {
    && s.received == |s.arrived|
    && s.shipped == |s.acked|
    && s.dropped + ReportedDrops(s.arrived) == |s.discarded|
  }

  ghost predicate Owned(s: Stream) {
    forall i :: 0 <= i < |s.arrived| ==> s.arrived[i].origin == s.token
  }

  // ── bounds and delays ─────────────────────────────────────────────────────

  ghost predicate Bounded(p: Params, s: Stream) {
    && BatchLimit(s.cfg.batchMax) <= s.maxBatch
    && |s.batch| <= s.maxBatch
    && |s.queue| + |s.batch| <= p.maxQueue + s.maxBatch
  }

  function Pow2(k: nat): (r: nat)
    ensures r > 0
  {
    if k == 0 then 1 else 2 * Pow2(k - 1)
  }

  /** The delay after k retriable failures in a row, the first of which set the base. */
  ghost predicate BackoffForm(p: Params, s: Stream) {
    if s.fails == 0 then s.backoffMs == 0
    else
      && s.backoffMs == Min(s.base * Pow2(s.fails - 1), 60000)
      && (s.base == 1000 || (s.base == 5000 && p.mode == TunnelMode))
  }

  /** Everything but the counters, which depend on what the line says. */
  ghost predicate Placed(p: Params, s: Stream, next: nat) {
    && (!s.flushing ==> s.batch == [])
    && Ordered(s, next)
    && Increasing(s.arrived) && Below(s.arrived, next)
    && Conserved(s) && Owned(s)
    && Bounded(p, s) && BackoffForm(p, s)
  }

  ghost predicate StreamInv(p: Params, s: Stream, next: nat) {
    Placed(p, s, next) && Counted(s)
  }

  // ── consequences ──────────────────────────────────────────────────────────

  /** A line anywhere in the stream is one that arrived, exactly as it arrived. */
  lemma HeldLinesArrived(s: Stream, it: Item)
    requires Conserved(s)
    requires it in s.acked || it in s.batch || it in s.queue || it in s.discarded || it in s.cleared || it in s.lost
    ensures it in s.arrived
  {
    assert it in multiset(s.acked) + multiset(s.batch) + multiset(s.queue) +
                 multiset(s.discarded) + multiset(s.cleared) + multiset(s.lost);
  }

  /** The collector's own counters, read as an equation over the lines received. */
  lemma CountersBalance(s: Stream)
    requires Conserved(s) && Counted(s)
    ensures s.received == s.shipped + |s.queue| + |s.batch| +
                          s.dropped + ReportedDrops(s.arrived) + |s.cleared| + |s.lost|
  {
    assert |multiset(s.arrived)| == |s.arrived|;
    assert |multiset(s.acked) + multiset(s.batch) + multiset(s.queue) +
            multiset(s.discarded) + multiset(s.cleared) + multiset(s.lost)|
        == |s.acked| + |s.batch| + |s.queue| + |s.discarded| + |s.cleared| + |s.lost|;
  }

  // ── overflow, and what a configuration comes to ───────────────────────────

  function EnqueuedAll(maxQueue: pos, s: Stream, items: seq<Item>): Stream {
    if items == [] then s
    else Enqueued(maxQueue, EnqueuedAll(maxQueue, s, items[..|items|-1]), items[|items|-1])
  }

  lemma Slide(before: seq<Item>, it: Item, d: nat)
    requires d <= |before|
    ensures before[d..] + [it] == (before + [it])[d..] && before[..d] == (before + [it])[..d]
    ensures d < |before| ==>
              before[d..][1..] + [it] == (before + [it])[d + 1..] && before[..d] + [before[d..][0]] == (before + [it])[..d + 1]
  {
  }

  /** While nothing ships, the newest lines are the ones kept, and every older one is counted as dropped. */
  lemma {:induction false} OverflowKeepsNewest(maxQueue: pos, s: Stream, items: seq<Item>)
    ensures var all := s.queue + items;
            var kept := Max(|s.queue|, Min(maxQueue, |all|));
            var s' := EnqueuedAll(maxQueue, s, items);
            && kept <= |all| && s'.queue == all[|all| - kept..]
            && s'.discarded == s.discarded + all[..|all| - kept] && s'.dropped == s.dropped + |all| - kept
  {
    hide Enqueued;
    if items == [] {
      assert s.queue + items == s.queue;
    } else {
      var n := |items| - 1;
      var before, it := s.queue + items[..n], items[n];
      assert s.queue + items == before + [it];
      OverflowKeepsNewest(maxQueue, s, items[..n]);
      var d := |before| - Max(|s.queue|, Min(maxQueue, |before|));
      EnqueuedStep(maxQueue, EnqueuedAll(maxQueue, s, items[..n]), it, s.discarded, before, d);
    }
  }

  /** One more line, when the queue is what all but d of the lines so far come to. */
  lemma EnqueuedStep(maxQueue: pos, s: Stream, it: Item, discarded: seq<Item>, before: seq<Item>, d: nat)
    requires d <= |before| && s.queue == before[d..] && s.discarded == discarded + before[..d]
    ensures var s' := Enqueued(maxQueue, s, it);
            var d' := if |s.queue| >= maxQueue then d + 1 else d;
            && d' <= |before| + 1 && s'.queue == (before + [it])[d'..]
            && s'.discarded == discarded + (before + [it])[..d'] && s'.dropped == s.dropped + d' - d
  {
    Slide(before, it, d);
    if |s.queue| >= maxQueue {
      assert s.discarded + [s.queue[0]] == discarded + (before[..d] + [before[d..][0]]);
    }
  }

  function AssignedAll(c: Config, patches: seq<Patch>): Config {
    if patches == [] then c else Assign(AssignedAll(c, patches[..|patches|-1]), patches[|patches|-1])
  }

  /** The last value sent, or, if none ever was, what there was before. */
  ghost predicate LastSent<T(!new)>(sent: seq<Option<T>>, had: T, now: T) {
    (exists i :: 0 <= i < |sent| && sent[i] == Some(now) && forall j :: i < j < |sent| ==> sent[j] == None) ||
    ((forall i :: 0 <= i < |sent| ==> sent[i] == None) && now == had)
  }

  lemma OneMoreSent<T(!new)>(sent: seq<Option<T>>, had: T, was: T, more: Option<T>, now: T)
    requires LastSent(sent, had, was) && now == if more.Some? then more.value else was
    ensures LastSent(sent + [more], had, now)
  {
    var all := sent + [more];
    if more.Some? {
      assert all[|sent|] == Some(now);
    } else if exists i :: 0 <= i < |sent| && sent[i] == Some(was) && forall j :: i < j < |sent| ==> sent[j] == None {
      var i :| 0 <= i < |sent| && sent[i] == Some(was) && forall j :: i < j < |sent| ==> sent[j] == None;
      assert all[i] == Some(now) && forall j :: i < j < |all| ==> all[j] == None;
    }
  }

  function Prefixes(patches: seq<Patch>): (r: seq<Option<string>>)
    ensures |r| == |patches| && forall i :: 0 <= i < |r| ==> r[i] == patches[i].devicePrefix
  {
    seq(|patches|, i requires 0 <= i < |patches| => patches[i].devicePrefix)
  }

  function Switches(patches: seq<Patch>): (r: seq<Option<bool>>)
    ensures |r| == |patches| && forall i :: 0 <= i < |r| ==> r[i] == patches[i].enabled
  {
    seq(|patches|, i requires 0 <= i < |patches| => patches[i].enabled)
  }

  function Sizes(patches: seq<Patch>): (r: seq<Option<int>>)
    ensures |r| == |patches| && forall i :: 0 <= i < |r| ==> r[i] == patches[i].batchMax
  {
    seq(|patches|, i requires 0 <= i < |patches| => patches[i].batchMax)
  }

  /** Each field of a configuration is the last value sent for it, or what it was. */
  ghost predicate FromPatches(c: Config, patches: seq<Patch>, c': Config) {
    && LastSent(Prefixes(patches), c.devicePrefix, c'.devicePrefix)
    && LastSent(Switches(patches), c.enabled, c'.enabled)
    && LastSent(Sizes(patches), c.batchMax, c'.batchMax)
  }

  /** One more reply, field by field. */
  lemma OnePatchMore(c: Config, patches: seq<Patch>, was: Config, more: Patch, now: Config)
    requires FromPatches(c, patches, was)
    requires now.devicePrefix == if more.devicePrefix.Some? then more.devicePrefix.value else was.devicePrefix
    requires now.enabled == if more.enabled.Some? then more.enabled.value else was.enabled
    requires now.batchMax == if more.batchMax.Some? then more.batchMax.value else was.batchMax
    ensures FromPatches(c, patches + [more], now)
  {
    hide LastSent, Prefixes, Switches, Sizes;
    var all := patches + [more];
    assert Prefixes(all) == Prefixes(patches) + [more.devicePrefix];
    assert Switches(all) == Switches(patches) + [more.enabled];
    assert Sizes(all) == Sizes(patches) + [more.batchMax];
    OneMoreSent(Prefixes(patches), c.devicePrefix, was.devicePrefix, more.devicePrefix, now.devicePrefix);
    OneMoreSent(Switches(patches), c.enabled, was.enabled, more.enabled, now.enabled);
    OneMoreSent(Sizes(patches), c.batchMax, was.batchMax, more.batchMax, now.batchMax);
  }

  /** After any replies, each field is the last value sent for it, or what it was. */
  lemma {:induction false} ConfigIsLastSent(c: Config, patches: seq<Patch>)
    ensures FromPatches(c, patches, AssignedAll(c, patches))
  {
    if patches != [] {
      var n := |patches| - 1;
      ConfigIsLastSent(c, patches[..n]);
      hide FromPatches;
      OnePatchMore(c, patches[..n], AssignedAll(c, patches[..n]), patches[n], AssignedAll(c, patches));
      assert patches[..n] + [patches[n]] == patches;
    }
  }

  // ── sequence facts ────────────────────────────────────────────────────────

  lemma IncreasingAppend(a: seq<Item>, it: Item)
    requires Increasing(a) && Below(a, it.id)
    ensures Increasing(a + [it]) && Below(a + [it], it.id + 1)
  {
  }

  /** Cutting a middle section out keeps the order of the rest. */
  lemma IncreasingCut(a: seq<Item>, mid: seq<Item>, b: seq<Item>, next: nat)
    requires Increasing(a + mid + b) && Below(a + mid + b, next)
    ensures Increasing(a + b) && Below(a + b, next)
  {
    var whole := a + mid + b;
    forall i | 0 <= i < |a + b|
      ensures (a + b)[i] == whole[if i < |a| then i else i + |mid|]
    {
    }
    forall i, j | 0 <= i < j < |a + b|
      ensures (a + b)[i].id < (a + b)[j].id
    {
      assert whole[if i < |a| then i else i + |mid|].id < whole[if j < |a| then j else j + |mid|].id;
    }
  }

  // ── every step keeps the invariant ────────────────────────────────────────

  lemma NewStreamInv(p: Params, token: string, next: nat)
    ensures StreamInv(p, NewStream(token), next)
  {
  }

  lemma LaterNext(p: Params, s: Stream, next: nat, next': nat)
    requires StreamInv(p, s, next) && next <= next'
    ensures StreamInv(p, s, next')
  {
  }

  /** Order after an arrival, whether or not the oldest line had to go. */
  lemma EnqueueOrder(front: seq<Item>, queue: seq<Item>, kept: seq<Item>, it: Item)
    requires Increasing(front + queue) && Below(front + queue, it.id)
    requires kept == queue || (queue != [] && kept == queue[1..])
    ensures Increasing(front + (kept + [it])) && Below(front + (kept + [it]), it.id + 1)
  {
    if kept != queue {
      assert front + queue == front + [queue[0]] + kept;
      IncreasingCut(front, [queue[0]], kept, it.id);
    }
    IncreasingAppend(front + kept, it);
    assert front + (kept + [it]) == front + kept + [it];
  }

  lemma EnqueueConserves(maxQueue: pos, s: Stream, it: Item)
    requires Conserved(s)
    ensures Conserved(Enqueued(maxQueue, s, it))
  {
    if |s.queue| >= maxQueue {
      assert s.queue == [s.queue[0]] + s.queue[1..];
    }
  }

  lemma EnqueuePlaces(p: Params, s: Stream, it: Item)
    requires Placed(p, s, it.id) && it.origin == s.token
    ensures Placed(p, Enqueued(p.maxQueue, s, it), it.id + 1)
  {
    var s' := Enqueued(p.maxQueue, s, it);
    EnqueueConserves(p.maxQueue, s, it);
    IncreasingAppend(s.arrived, it);
    var kept := if |s.queue| >= p.maxQueue then s.queue[1..] else s.queue;
    EnqueueOrder(s.acked + s.batch, s.queue, kept, it);
    assert Ordered(s', it.id + 1);
    assert Owned(s');
    assert BackoffForm(p, s');
  }

  lemma EnqueueKeeps(p: Params, s: Stream, it: Item)
    requires StreamInv(p, s, it.id)
    requires it.origin == s.token && it.entry.line.Text?
    ensures StreamInv(p, Enqueued(p.maxQueue, s, it), it.id + 1)
  {
    ReportAppend(s.arrived, it);
    EnqueuePlaces(p, s, it);
  }

  /** A stream that has set its drop count aside and not yet queued the report of it. */
  lemma ResetPlaces(p: Params, s: Stream, next: nat)
    requires Placed(p, s, next)
    ensures Placed(p, s.(dropped := 0), next)
  {
  }

  lemma ReportKeeps(p: Params, who: string, s: Stream, id: nat)
    requires StreamInv(p, s, id)
    ensures StreamInv(p, Reported(p.maxQueue, who, s, id), id + 1)
  {
    if s.dropped == 0 {
      LaterNext(p, s, id, id + 1);
    } else {
      var it := DropItem(who, s, id);
      ReportAppend(s.arrived, it);
      ResetPlaces(p, s, id);
      EnqueuePlaces(p, s.(dropped := 0), it);
      assert Counted(Reported(p.maxQueue, who, s, id));
    }
  }

  lemma BeginKeeps(p: Params, s: Stream, next: nat)
    requires StreamInv(p, s, next) && CanFlush(s)
    ensures StreamInv(p, Begun(s), next)
  {
    var k := TakeCount(s);
    assert s.queue == s.queue[..k] + s.queue[k..];
    assert s.acked + s.batch + s.queue == s.acked + s.queue[..k] + s.queue[k..];
  }

  lemma RefuseKeeps(p: Params, s: Stream, now: int, next: nat)
    requires StreamInv(p, s, next)
    ensures StreamInv(p, Refused(p, s, now), next)
  {
    assert s.acked + s.batch + s.queue == (s.acked + s.batch) + s.queue + [];
    IncreasingCut(s.acked + s.batch, s.queue, [], next);
    assert s.acked + s.batch + [] == (s.acked + s.batch) + [];
  }

  lemma ConfigureKeeps(p: Params, s: Stream, patch: Patch, next: nat)
    requires StreamInv(p, s, next)
    ensures StreamInv(p, Configured(s, patch), next)
  {
  }

  lemma DiscardKeeps(p: Params, s: Stream, next: nat)
    requires StreamInv(p, s, next)
    ensures StreamInv(p, Discarded(s), next)
  {
    IncreasingCut(s.acked, s.batch, s.queue, next);
    assert s.acked + [] + s.queue == s.acked + s.queue;
  }

  lemma BackoffKeeps(p: Params, s: Stream, first: nat, now: int)
    requires BackoffForm(p, s)
    requires first == 1000 || (first == 5000 && p.mode == TunnelMode)
    ensures BackoffForm(p, BackedOff(s, first, now))
  {
    if s.fails > 0 {
      assert s.base * Pow2(s.fails) == 2 * (s.base * Pow2(s.fails - 1));
    }
  }

  lemma PutBackKeeps(p: Params, s: Stream, next: nat)
    requires StreamInv(p, s, next)
    ensures StreamInv(p, s.(queue := s.batch + s.queue, batch := []), next)
  {
    assert s.acked + [] + (s.batch + s.queue) == s.acked + s.batch + s.queue;
  }

  lemma LoseKeeps(p: Params, s: Stream, next: nat)
    requires StreamInv(p, s, next)
    ensures StreamInv(p, s.(lost := s.lost + s.batch, batch := []), next)
  {
    IncreasingCut(s.acked, s.batch, s.queue, next);
    assert s.acked + [] + s.queue == s.acked + s.queue;
  }

  lemma AckKeeps(p: Params, s: Stream, next: nat)
    requires StreamInv(p, s, next)
    ensures StreamInv(p, s.(shipped := s.shipped + |s.batch|, backoffMs := 0, retryAt := 0,
                            acked := s.acked + s.batch, batch := [], fails := 0), next)
  {
    assert (s.acked + s.batch) + [] + s.queue == s.acked + s.batch + s.queue;
  }

  lemma LandKeeps(p: Params, s: Stream, next: nat)
    requires StreamInv(p, s, next) && s.batch == []
    ensures StreamInv(p, s.(flushing := false), next)
  {
    hide Ordered, Conserved, Owned, Bounded, BackoffForm, Counted;
    SamePlaces(p, s, next);
  }

  lemma SamePlaces(p: Params, s: Stream, next: nat)
    ensures var s' := s.(flushing := false);
            && Ordered(s', next) == Ordered(s, next) && Conserved(s') == Conserved(s) && Owned(s') == Owned(s)
            && Bounded(p, s') == Bounded(p, s) && BackoffForm(p, s') == BackoffForm(p, s) && Counted(s') == Counted(s)
  {
  }

  lemma BackedOffKeeps(p: Params, s: Stream, first: nat, now: int, next: nat)
    requires StreamInv(p, s, next) && (first == 1000 || (first == 5000 && p.mode == TunnelMode))
    ensures StreamInv(p, BackedOff(s, first, now), next)
  {
    BackoffKeeps(p, s, first, now);
    hide BackoffForm, Pow2;
  }

  lemma EndKeeps(p: Params, s: Stream, reply: Reply, now: int, next: nat)
    requires StreamInv(p, s, next)
    ensures StreamInv(p, Ended(p, s, reply, now), next)
  {
    hide StreamInv;
    if Ok(reply) {
      AckKeeps(p, s, next);
      LandKeeps(p, s.(shipped := s.shipped + |s.batch|, backoffMs := 0, retryAt := 0,
                      acked := s.acked + s.batch, batch := [], fails := 0), next);
    } else if PutBack(p.mode, reply) {
      PutBackKeeps(p, s, next);
      var s1 := s.(queue := s.batch + s.queue, batch := []);
      BackedOffKeeps(p, s1, FirstDelay(p.mode, reply), now, next);
      LandKeeps(p, BackedOff(s1, FirstDelay(p.mode, reply), now), next);
    } else if reply.Threw? {
      LoseKeeps(p, s, next);
      var s1 := s.(lost := s.lost + s.batch, batch := []);
      BackedOffKeeps(p, s1, 1000, now, next);
      LandKeeps(p, BackedOff(s1, 1000, now), next);
    } else {
      DiscardKeeps(p, s, next);
      LandKeeps(p, Discarded(s), next);
      RefuseKeeps(p, Discarded(s), now, next);
      LandKeeps(p, Refused(p, Discarded(s), now), next);
    }
  }
}
