/**
 * The whole collector as a state machine: the map of streams, the module's
 * counters, and the scheduler tick, which is a coroutine. A step is one
 * uninterrupted stretch of the source; between two steps anything else that is
 * runnable may run, so a sequence of steps is one interleaving.
 */
module GatewayModel {
  import opened Numbers
  import opened Wrappers
  import opened StreamModel

  // ── messages ──────────────────────────────────────────────────────────────

  /** What the parser makes of one frame: the SD token if there is one, and the entry it becomes. */
  datatype Message = Message(raw: string, sdToken: Option<string>, peer: string,
                             device: string, text: string, sev: nat)

  predicate Lower(c: char) { 'a' <= c <= 'z' }

  predicate TokenChar(c: char) {
    Lower(c) || 'A' <= c <= 'Z' || '0' <= c <= '9' || c == '_' || c == '-'
  }

  /** The shape filter on tokens: "oc", a letter, "_", then 16 to 128 characters. */
  predicate TokenShape(t: string) {
    && 20 <= |t| <= 132
    && t[0] == 'o' && t[1] == 'c' && Lower(t[2]) && t[3] == '_'
    && forall i :: 4 <= i < |t| ==> TokenChar(t[i])
  }

  /** The tenant a message names, or none. In collector mode that is the one configured key. */
  function Attribution(p: Params, m: Message): Option<string> {
    match p.mode
    case TunnelMode => if m.peer == "" || m.peer == "unknown" then None else Some(m.peer)
    case GatewayMode => if m.sdToken.Some? && TokenShape(m.sdToken.value) then m.sdToken else None
    case CollectorMode => Some(p.key)
  }

  // ── requests ──────────────────────────────────────────────────────────────

  /** How a POST says whose lines these are. */
  datatype Claim = Bearer(token: string) | SourceIp(gatewayKey: string, ip: string)

  datatype Post = Post(claim: Claim, sid: nat, at: int, prefix: string,
                       items: seq<Item>, logs: seq<Entry>, byTick: bool)

  function PostOf(p: Params, s: Stream, sid: nat, at: int, byTick: bool): Post {
    var items := s.queue[..TakeCount(s)];
    Post(if p.mode == TunnelMode then SourceIp(p.tunnelKey, s.token) else Bearer(s.token),
         sid, at, s.cfg.devicePrefix, items, Prefixed(s.cfg.devicePrefix, items), byTick)
  }

  // ── state ─────────────────────────────────────────────────────────────────

  /** Where the scheduler's coroutine stands, with the locals it keeps across awaits. */
  datatype Tick =
    | Idle
    | Polling(t: int, pending: seq<nat>, current: Option<nat>)
    | Shipping(t: int, rest: seq<nat>, waiting: set<nat>)

  /**
   * `objs` is every stream object ever made; `live` is the map, in insertion order. `passes` are the
   * shutdown passes signalled, each with the POSTs it still waits for.
   */
  datatype Gateway = Gateway(
    clock: int, objs: seq<Stream>, live: seq<nat>,
    unattributed: nat, refusedTenants: nat, badKeyDrops: nat,
    tick: Tick, passes: seq<set<nat>>, exited: bool,
    // history
    nextId: nat, handled: nat,
    allUnattributed: nat, allRefused: nat, allDoor: nat,
    toldUnattributed: nat, toldRefused: nat, toldBadKey: nat,
    posts: seq<Post>)
  {
    /** A shutdown has been signalled. */
    predicate Draining() { passes != [] }
  }

  const POLLS_PER_TICK: nat := 16
  const POSTS_AT_ONCE: nat := 8

  // ── the map ───────────────────────────────────────────────────────────────

  /** The live stream of a token. */
  function Find(objs: seq<Stream>, live: seq<nat>, token: string): (r: Option<nat>)
    ensures r.Some? ==> r.value in live && r.value < |objs| && objs[r.value].token == token
    ensures r.None? ==> forall id :: id in live && id < |objs| ==> objs[id].token != token
  {
    if live == [] then None
    else if live[0] < |objs| && objs[live[0]].token == token then Some(live[0])
    else Find(objs, live[1..], token)
  }

  function Put(g: Gateway, sid: nat, s: Stream): Gateway
    requires sid < |g.objs|
  {
    g.(objs := g.objs[sid := s])
  }

  function Create(g: Gateway, token: string): Gateway {
    g.(objs := g.objs + [NewStream(token)], live := g.live + [|g.objs|])
  }

  // ── receiving ─────────────────────────────────────────────────────────────

  function Deliver(p: Params, g: Gateway, sid: nat, origin: string, m: Message): Gateway
    requires sid < |g.objs|
  {
    var it := Item(g.nextId, origin, Entry(m.device, Text(m.text), m.sev));
    Put(g, sid, Enqueued(p.maxQueue, g.objs[sid], it)).(nextId := g.nextId + 1)
  }

  /** The gateways' admission: the door of a refused key, then the queue. */
  function Admit(p: Params, g: Gateway, now: int, sid: nat, origin: string, m: Message): Gateway
    requires sid < |g.objs|
  {
    if g.objs[sid].badUntil > now then
      g.(badKeyDrops := g.badKeyDrops + 1, allDoor := g.allDoor + 1)
    else
      Deliver(p, g, sid, origin, m)
  }

  /** A message whose tenant is known: its stream is found, made, or refused for want of room. */
  function Route(p: Params, g: Gateway, now: int, who: string, m: Message): Gateway {
    match Find(g.objs, g.live, who)
    case Some(sid) =>
      if p.mode == CollectorMode then Deliver(p, g, sid, who, m) else Admit(p, g, now, sid, who, m)
    case None =>
      if p.mode == CollectorMode then g
      else if |g.live| >= p.maxTenants then
        g.(refusedTenants := g.refusedTenants + 1, allRefused := g.allRefused + 1)
      else
        Admit(p, Create(g, who), now, |g.objs|, who, m)
  }

  function OnMessage(p: Params, g0: Gateway, now: int, m: Message): Gateway {
    if m.raw == "" then g0 else
    var g := g0.(handled := g0.handled + 1);
    match Attribution(p, m)
    case None => g.(unattributed := g.unattributed + 1, allUnattributed := g.allUnattributed + 1)
    case Some(who) => Route(p, g, now, who, m)
  }

  // ── a refused key ─────────────────────────────────────────────────────────

  function KeyRefused(p: Params, g: Gateway, now: int, sid: nat): Gateway
    requires sid < |g.objs|
  {
    if p.mode != GatewayMode then g.(exited := true)
    else Put(g, sid, Refused(p, g.objs[sid], now)).(badKeyDrops := g.badKeyDrops + |g.objs[sid].queue|)
  }

  // ── shipping ──────────────────────────────────────────────────────────────

  /** `flush` up to its await, called by the scheduler or by the shutdown pass. */
  function StartFlush(p: Params, g: Gateway, now: int, sid: nat, byTick: bool): Gateway
    requires sid < |g.objs|
  {
    var s := g.objs[sid];
    if !CanFlush(s) then g
    else
      var g1 := Put(g, sid, Begun(s)).(posts := g.posts + [PostOf(p, s, sid, now, byTick)]);
      if byTick && g.tick.Shipping? then g1.(tick := g.tick.(waiting := g.tick.waiting + {sid})) else g1
  }

  predicate InRange(ids: seq<nat>, g: Gateway) {
    forall i :: 0 <= i < |ids| ==> ids[i] < |g.objs|
  }

  function StartAll(p: Params, g: Gateway, now: int, ids: seq<nat>, byTick: bool): (g': Gateway)
    requires InRange(ids, g)
    ensures |g'.objs| == |g.objs|
  {
    if ids == [] then g
    else StartFlush(p, StartAll(p, g, now, ids[..|ids|-1], byTick), now, ids[|ids|-1], byTick)
  }

  /** A POST that is no longer out is waited for no longer. */
  function Answered(passes: seq<set<nat>>, sid: nat): (r: seq<set<nat>>)
    ensures |r| == |passes|
  {
    seq(|passes|, i requires 0 <= i < |passes| => passes[i] - {sid})
  }

  /** `flush` after its await. */
  function FinishFlush(p: Params, g: Gateway, now: int, sid: nat, reply: Reply): Gateway
    requires sid < |g.objs|
  {
    var s := g.objs[sid];
    var cleared := if KeyRefusal(p.mode, reply) then |s.queue| else 0;
    var g1 := Put(g, sid, Ended(p, s, reply, now))
              .(badKeyDrops := g.badKeyDrops + cleared, passes := Answered(g.passes, sid), exited := Fatal(p.mode, reply));
    if g.tick.Shipping? then g1.(tick := g.tick.(waiting := g.tick.waiting - {sid})) else g1
  }

  // ── picking streams ───────────────────────────────────────────────────────

  predicate SweepKeeps(p: Params, s: Stream, now: int) {
    s.queue != [] || s.flushing || s.polledAt > now - Max(p.pollMs * 2, 600000) || s.badUntil > now
  }

  predicate IsDue(p: Params, s: Stream, t: int) {
    s.polledAt == 0 || t - s.polledAt >= p.pollMs
  }

  predicate IsReady(s: Stream, t: int) { s.retryAt <= t && s.badUntil <= t }

  /** The three questions the collector asks of every stream in the map. */
  datatype Pick = Survives(now: int) | DueAt(t: int) | ReadyAt(t: int)

  predicate Picked(p: Params, s: Stream, pick: Pick) {
    match pick
    case Survives(now) => SweepKeeps(p, s, now)
    case DueAt(t) => IsDue(p, s, t)
    case ReadyAt(t) => IsReady(s, t)
  }

  /** Those of the streams that answer yes, in the same order. */
  function Select(p: Params, objs: seq<Stream>, ids: seq<nat>, pick: Pick): seq<nat>
    requires forall i :: 0 <= i < |ids| ==> ids[i] < |objs|
  {
    if ids == [] then []
    else Select(p, objs, ids[..|ids|-1], pick) +
         (if Picked(p, objs[ids[|ids|-1]], pick) then [ids[|ids|-1]] else [])
  }

  // ── drop reports and the idle sweep ───────────────────────────────────────

  function Who(mode: Mode): string {
    match mode
    case TunnelMode => "opscat-syslog-tunnel"
    case GatewayMode => "opscat-syslog-gateway"
    case CollectorMode => "opscat-collector"
  }

  function ReportOne(p: Params, g: Gateway, sid: nat): Gateway
    requires sid < |g.objs|
  {
    if g.objs[sid].dropped == 0 then g
    else Put(g, sid, Reported(p.maxQueue, Who(p.mode), g.objs[sid], g.nextId)).(nextId := g.nextId + 1)
  }

  function ReportAll(p: Params, g: Gateway, ids: seq<nat>): (g': Gateway)
    requires InRange(ids, g)
    ensures |g'.objs| == |g.objs|
  {
    if ids == [] then g
    else ReportOne(p, ReportAll(p, g, ids[..|ids|-1]), ids[|ids|-1])
  }

  function ReportDrops(p: Params, g: Gateway): Gateway
    requires InRange(g.live, g)
  {
    var g1 := ReportAll(p, g, g.live);
    if p.mode == CollectorMode then g1
    else g1.(toldUnattributed := g1.toldUnattributed + g1.unattributed, unattributed := 0,
             toldRefused := g1.toldRefused + g1.refusedTenants, refusedTenants := 0,
             toldBadKey := g1.toldBadKey + g1.badKeyDrops, badKeyDrops := 0)
  }

  function SweepIdle(p: Params, g: Gateway, now: int): Gateway
    requires InRange(g.live, g)
  {
    g.(live := Select(p, g.objs, g.live, Survives(now)))
  }

  // ── the scheduler ─────────────────────────────────────────────────────────

  function First(n: nat, ids: seq<nat>): seq<nat> {
    if |ids| <= n then ids else ids[..n]
  }

  function TickStart(p: Params, g: Gateway, now: int): Gateway
    requires InRange(g.live, g)
  {
    var due := if p.mode == TunnelMode then [] else Select(p, g.objs, g.live, DueAt(now));
    g.(tick := Polling(now, First(POLLS_PER_TICK, due), None))
  }

  /** `pollConfig` up to its await. */
  function PollSend(g: Gateway, now: int): Gateway
    requires g.tick.Polling? && g.tick.pending != [] && InRange(g.tick.pending, g)
  {
    var sid := g.tick.pending[0];
    Put(g, sid, g.objs[sid].(polledAt := now))
    .(tick := Polling(g.tick.t, g.tick.pending[1..], Some(sid)))
  }

  /** `pollConfig` after its awaits, and what the scheduler does with a refusal. */
  function PollDone(p: Params, g: Gateway, now: int, reply: PollReply): Gateway
    requires g.tick.Polling? && g.tick.current.Some? && g.tick.current.value < |g.objs|
  {
    var sid := g.tick.current.value;
    var g1 := g.(tick := g.tick.(current := None));
    match reply
    case PollRefused => KeyRefused(p, g1, now, sid)
    case PollOk(patch) => Put(g1, sid, Configured(g1.objs[sid], patch))
    case PollNotOk => g1
    case PollThrew => g1
  }

  function TickReady(p: Params, g: Gateway): Gateway
    requires g.tick.Polling? && InRange(g.live, g)
  {
    g.(tick := Shipping(g.tick.t, Select(p, g.objs, g.live, ReadyAt(g.tick.t)), {}))
  }

  function TickGroup(p: Params, g: Gateway, now: int): Gateway
    requires g.tick.Shipping? && InRange(g.tick.rest, g)
  {
    var group := First(POSTS_AT_ONCE, g.tick.rest);
    StartAll(p, g.(tick := g.tick.(rest := g.tick.rest[|group|..])), now, group, true)
  }

  /** The streams of a list that can ship. */
  function CanShip(objs: seq<Stream>, ids: seq<nat>): set<nat> {
    set id | id in ids && id < |objs| && CanFlush(objs[id])
  }

  /** SIGTERM: one pass over every stream at once, and the POSTs it waits for. */
  function Shutdown(p: Params, g: Gateway, now: int): Gateway
    requires InRange(g.live, g)
  {
    StartAll(p, g, now, g.live, false).(passes := g.passes + [CanShip(g.objs, g.live)])
  }

  // ── steps and runs ────────────────────────────────────────────────────────

  datatype Event =
    | Arrival(m: Message)
    | TickStarts
    | PollSends
    | PollReturns(answer: PollReply)
    | TickRanks
    | TickPosts
    | PostReturns(sid: nat, reply: Reply)
    | TickEnds
    | DropsReported
    | IdleSwept
    | Signalled
    | PassEnds

  /** Where the scheduler's coroutine is waiting. Anywhere else it runs on and lets nothing in. */
  predicate AtAwait(tick: Tick) {
    match tick
    case Idle => true
    case Polling(_, _, current) => current.Some?
    case Shipping(_, _, waiting) => waiting != {}
  }

  /** The scheduler's own next stretch. */
  predicate RunsOn(e: Event) {
    e.PollSends? || e.TickRanks? || e.TickPosts? || e.TickEnds?
  }

  /** What can happen next. */
  predicate Enabled(p: Params, g: Gateway, now: int, e: Event) {
    && !g.exited && g.clock <= now && InRange(g.live, g)
    && (AtAwait(g.tick) || RunsOn(e) || g.Draining())
    && match e
       case Arrival(_) => true
       case TickStarts => g.tick.Idle?
       case PollSends => g.tick.Polling? && g.tick.current.None? && g.tick.pending != [] && InRange(g.tick.pending, g)
       case PollReturns(_) => g.tick.Polling? && g.tick.current.Some? && g.tick.current.value < |g.objs|
       case TickRanks => g.tick.Polling? && g.tick.current.None? && g.tick.pending == []
       case TickPosts => g.tick.Shipping? && g.tick.waiting == {} && g.tick.rest != [] && InRange(g.tick.rest, g)
       case PostReturns(sid, _) => sid < |g.objs| && g.objs[sid].flushing
       case TickEnds => g.tick.Shipping? && g.tick.waiting == {} && g.tick.rest == []
       case DropsReported => true
       case IdleSwept => p.mode != CollectorMode
       case Signalled => true
       case PassEnds => {} in g.passes
  }

  function Step(p: Params, g0: Gateway, now: int, e: Event): Gateway
    requires Enabled(p, g0, now, e)
  {
    var g := g0.(clock := now);
    match e
    case Arrival(m) => OnMessage(p, g, now, m)
    case TickStarts => TickStart(p, g, now)
    case PollSends => PollSend(g, now)
    case PollReturns(reply) => PollDone(p, g, now, reply)
    case TickRanks => TickReady(p, g)
    case TickPosts => TickGroup(p, g, now)
    case PostReturns(sid, reply) => FinishFlush(p, g, now, sid, reply)
    case TickEnds => g.(tick := Idle)
    case DropsReported => ReportDrops(p, g)
    case IdleSwept => SweepIdle(p, g, now)
    case Signalled => Shutdown(p, g, now)
    case PassEnds => g.(exited := true)
  }

  /** Boot: a gateway starts with no streams, a collector with one, already polled once. */
  function Boot(p: Params, now: int, reply: PollReply): Gateway {
    var empty := Gateway(now, [], [], 0, 0, 0, Idle, [], false, 0, 0, 0, 0, 0, 0, 0, 0, []);
    if p.mode != CollectorMode then empty
    else
      var s := NewStream(p.key).(polledAt := now);
      var g := empty.(objs := [if reply.PollOk? then Configured(s, reply.patch) else s], live := [0]);
      g.(exited := reply.PollRefused?)
  }

  type Timed = (int, Event)

  predicate Legal(p: Params, g: Gateway, evs: seq<Timed>)
    decreases |evs|
  {
    evs == [] ||
    (Enabled(p, g, evs[0].0, evs[0].1) && Legal(p, Step(p, g, evs[0].0, evs[0].1), evs[1..]))
  }

  function After(p: Params, g: Gateway, evs: seq<Timed>): Gateway
    requires Legal(p, g, evs)
    decreases |evs|
  {
    if evs == [] then g else After(p, Step(p, g, evs[0].0, evs[0].1), evs[1..])
  }
}
