/**
 * One tenant's stream in the syslog collector: its bounded queue, its counters,
 * its polled configuration, its backoff and its negative cache, together with
 * every change the collector makes to it. Each function is one uninterrupted
 * stretch of the source: `flush` is cut in two at its `await`.
 *
 * The last block of fields of `Stream` is history. The source does not keep it;
 * it says where every line that ever arrived has gone.
 */
module StreamModel {
  import opened Numbers
  import opened Wrappers

  type pos = n: nat | 0 < n witness 1

  datatype Mode = CollectorMode | GatewayMode | TunnelMode

  datatype Params = Params(mode: Mode, key: string, tunnelKey: string,
                           maxQueue: pos, maxTenants: pos, badKeyMs: pos, pollMs: pos)

  // ── configuration ─────────────────────────────────────────────────────────

  /** "" stands for the absent prefix: the source treats null and "" alike. */
  datatype Config = Config(devicePrefix: string, enabled: bool, batchMax: int)

  const DEFAULT_CFG := Config("", true, 500)

  /** A configuration reply: only the fields the server sent are assigned. */
  datatype Patch = Patch(devicePrefix: Option<string>, enabled: Option<bool>, batchMax: Option<int>)

  function Override<T>(sent: Option<T>, had: T): T {
    if sent.Some? then sent.value else had
  }

  function Assign(c: Config, patch: Patch): Config {
    Config(Override(patch.devicePrefix, c.devicePrefix),
           Override(patch.enabled, c.enabled),
           Override(patch.batchMax, c.batchMax))
  }

  /** How many lines a configuration lets one POST take. */
  function BatchLimit(batchMax: int): nat {
    if batchMax == 0 then 500 else if batchMax < 0 then 0 else batchMax
  }

  // ── lines ─────────────────────────────────────────────────────────────────

  /** The text of a line: a device's own, or the collector's account of its losses. */
  datatype Line = Text(text: string) | DropReport(n: nat, received: nat, shipped: nat, queued: nat)

  datatype Entry = Entry(device: string, line: Line, sev: nat)

  /** A line with its place in the order of arrival and the tenant it arrived for. */
  datatype Item = Item(id: nat, origin: string, entry: Entry)

  /** The wire form of a batch: the prefix goes on a copy, never on the batch. */
  function Prefixed(prefix: string, batch: seq<Item>): (logs: seq<Entry>)
    ensures |logs| == |batch|
  {
    seq(|batch|, i requires 0 <= i < |batch| =>
      if prefix == "" then batch[i].entry
      else batch[i].entry.(device := prefix + batch[i].entry.device))
  }

  // ── the stream ────────────────────────────────────────────────────────────

  datatype Stream = Stream(
    token: string, queue: seq<Item>,
    dropped: nat, received: nat, shipped: nat,
    cfg: Config, polledAt: int,
    flushing: bool, batch: seq<Item>,       // the batch `flush` holds across its await
    retryAt: int, backoffMs: nat, badUntil: int,
    // history
    arrived: seq<Item>, acked: seq<Item>, discarded: seq<Item>,
    cleared: seq<Item>, lost: seq<Item>,
    fails: nat, base: nat, maxBatch: nat)

  function NewStream(token: string): Stream {
    Stream(token, [], 0, 0, 0, DEFAULT_CFG, 0, false, [], 0, 0, 0,
           [], [], [], [], [], 0, 0, BatchLimit(DEFAULT_CFG.batchMax))
  }

  // ── receiving ─────────────────────────────────────────────────────────────

  function Enqueued(maxQueue: pos, s: Stream, it: Item): Stream {
    var r := s.(received := s.received + 1, arrived := s.arrived + [it]);
    if |s.queue| >= maxQueue then
      r.(queue := s.queue[1..] + [it],
         dropped := s.dropped + 1, discarded := s.discarded + [s.queue[0]])
    else
      r.(queue := s.queue + [it])
  }

  function DropItem(who: string, s: Stream, id: nat): Item {
    Item(id, s.token, Entry(who, DropReport(s.dropped, s.received, s.shipped, |s.queue|), 3))
  }

  /** Losses become one line of the tenant's own. */
  function Reported(maxQueue: pos, who: string, s: Stream, id: nat): Stream {
    if s.dropped == 0 then s
    else Enqueued(maxQueue, s.(dropped := 0), DropItem(who, s, id))
  }

  // ── polling ───────────────────────────────────────────────────────────────

  datatype PollReply = PollRefused | PollNotOk | PollOk(patch: Patch) | PollThrew

  function Configured(s: Stream, patch: Patch): Stream {
    var c := Assign(s.cfg, patch);
    s.(cfg := c, maxBatch := Max(s.maxBatch, BatchLimit(c.batchMax)))
  }

  /** A refused key in gateway mode: remembered as bad, its queue dropped. */
  function Refused(p: Params, s: Stream, now: int): Stream {
    s.(badUntil := now + p.badKeyMs, cleared := s.cleared + s.queue, queue := [])
  }

  // ── shipping ──────────────────────────────────────────────────────────────

  predicate CanFlush(s: Stream) {
    !s.flushing && s.queue != [] && s.cfg.enabled
  }

  function TakeCount(s: Stream): (k: nat)
    ensures k <= |s.queue|
  {
    Min(BatchLimit(s.cfg.batchMax), |s.queue|)
  }

  /** The part of `flush` before its await: the batch leaves the queue. */
  function Begun(s: Stream): Stream {
    var k := TakeCount(s);
    s.(flushing := true, batch := s.queue[..k], queue := s.queue[k..])
  }

  datatype Reply = Status(code: nat) | Threw

  predicate Ok(r: Reply) { r.Status? && 200 <= r.code < 300 }

  /** The failures after which the same lines are tried again. */
  predicate PutBack(mode: Mode, r: Reply) {
    r.Status? && (r.code == 429 || r.code >= 500 || (mode == TunnelMode && r.code == 403))
  }

  /** The answers that stop the process. */
  predicate Fatal(mode: Mode, r: Reply) {
    && r.Status?
    && mode != GatewayMode
    && (r.code == 401 || (mode == CollectorMode && r.code == 403) || (mode == TunnelMode && r.code == 404))
  }

  /** The answers that say the key is not one the server knows. */
  predicate KeyRefusal(mode: Mode, r: Reply) {
    r.Status? && (r.code == 401 || r.code == 403) && mode == GatewayMode
  }

  function FirstDelay(mode: Mode, r: Reply): nat {
    if mode == TunnelMode && r == Status(403) then 5000 else 1000
  }

  function NextBackoff(backoff: nat, first: nat): nat {
    Min(if backoff != 0 then backoff * 2 else first, 60000)
  }

  function BackedOff(s: Stream, first: nat, now: int): Stream {
    var b := NextBackoff(s.backoffMs, first);
    s.(backoffMs := b, retryAt := now + b,
       base := if s.fails == 0 then first else s.base, fails := s.fails + 1)
  }

  function Discarded(s: Stream): Stream {
    s.(dropped := s.dropped + |s.batch|, discarded := s.discarded + s.batch, batch := [])
  }

  /** What `flush` does with the answer, apart from ending the process. */
  function Ended(p: Params, s: Stream, reply: Reply, now: int): Stream {
    if Ok(reply) then
      s.(shipped := s.shipped + |s.batch|, backoffMs := 0, retryAt := 0,
         acked := s.acked + s.batch, batch := [], fails := 0, flushing := false)
    else if PutBack(p.mode, reply) then
      BackedOff(s.(queue := s.batch + s.queue, batch := []), FirstDelay(p.mode, reply), now).(flushing := false)
    else if reply.Threw? then
      BackedOff(s.(lost := s.lost + s.batch, batch := []), 1000, now).(flushing := false)
    else if Fatal(p.mode, reply) then
      // the process ends inside the call; only the tunnel's 401 skips the count
      if p.mode == TunnelMode && reply.code == 401 then s else Discarded(s)
    else if KeyRefusal(p.mode, reply) then
      Refused(p, Discarded(s), now).(flushing := false)
    else
      Discarded(s).(flushing := false)
  }
}
