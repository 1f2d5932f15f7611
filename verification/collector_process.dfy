/**
 * The collector as the program it is: stream objects whose fields are updated
 * in place, the map they live in, the module's counters, and the scheduler's
 * coroutine. Every method is one uninterrupted stretch of the source and is
 * proved to take exactly the step the state machine takes, so that what is
 * proved of all runs of the machine holds of all interleavings of the methods.
 */
module CollectorProcess {
  import opened Numbers
  import opened Wrappers
  import opened StreamModel
  import opened GatewayModel
  import TickLaws

  /** A stream's configuration object, assigned into in place by every poll. */
  class Cfg {
    var devicePrefix: string
    var enabled: bool
    var batchMax: int

    ghost function Val(): Config
      reads this
    {
      Config(devicePrefix, enabled, batchMax)
    }

    /** A fresh copy of the defaults: no two streams share one. */
    constructor ()
      ensures Val() == DEFAULT_CFG
    {
      devicePrefix, enabled, batchMax := DEFAULT_CFG.devicePrefix, DEFAULT_CFG.enabled, DEFAULT_CFG.batchMax;
    }

    method AssignFrom(patch: Patch)
      modifies this
      ensures Val() == Assign(old(Val()), patch)
      ensures devicePrefix == (if patch.devicePrefix.Some? then patch.devicePrefix.value else old(devicePrefix))
      ensures enabled == (if patch.enabled.Some? then patch.enabled.value else old(enabled))
      ensures batchMax == (if patch.batchMax.Some? then patch.batchMax.value else old(batchMax))
    {
      if patch.devicePrefix.Some? { devicePrefix := patch.devicePrefix.value; }
      if patch.enabled.Some? { enabled := patch.enabled.value; }
      if patch.batchMax.Some? { batchMax := patch.batchMax.value; }
    }
  }

  class StreamObj {
    const token: string
    const sid: nat
    const cfg: Cfg
    var queue: seq<Item>
    var dropped: nat
    var received: nat
    var shipped: nat
    var polledAt: int
    var flushing: bool
    var batch: seq<Item>
    var retryAt: int
    var backoffMs: nat
    var badUntil: int

    ghost var arrived: seq<Item>
    ghost var acked: seq<Item>
    ghost var discarded: seq<Item>
    ghost var cleared: seq<Item>
    ghost var lost: seq<Item>
    ghost var fails: nat
    ghost var base: nat
    ghost var maxBatch: nat

    ghost function Val(): Stream
      reads this, cfg
    {
      Stream(token, queue, dropped, received, shipped, cfg.Val(), polledAt, flushing, batch,
             retryAt, backoffMs, badUntil,
             arrived, acked, discarded, cleared, lost, fails, base, maxBatch)
    }

    constructor (token: string, sid: nat)
      ensures this.token == token && this.sid == sid && fresh(cfg)
      ensures Val() == NewStream(token)
    {
      this.token, this.sid := token, sid;
      cfg := new Cfg();
      queue, dropped, received, shipped := [], 0, 0, 0;
      polledAt, flushing, batch, retryAt, backoffMs, badUntil := 0, false, [], 0, 0, 0;
      arrived, acked, discarded, cleared, lost := [], [], [], [], [];
      fails, base, maxBatch := 0, 0, BatchLimit(DEFAULT_CFG.batchMax);
    }

    method DropOldest()
      requires queue != []
      modifies this
      ensures var s := old(Val());
              Val() == s.(queue := s.queue[1..], dropped := s.dropped + 1, discarded := s.discarded + [s.queue[0]])
    {
      discarded := discarded + [queue[0]];
      queue := queue[1..];
      dropped := dropped + 1;
    }

    method Enqueue(maxQueue: pos, it: Item)
      modifies this
      ensures Val() == Enqueued(maxQueue, old(Val()), it)
    {
      if |queue| >= maxQueue { DropOldest(); }
      received, arrived, queue := received + 1, arrived + [it], queue + [it];
    }

    /** The line that owns up to the losses, and the count set aside. */
    method Report(maxQueue: pos, who: string, id: nat)
      requires dropped != 0
      modifies this
      ensures Val() == Reported(maxQueue, who, old(Val()), id)
    {
      var n := dropped;
      dropped := 0;
      Enqueue(maxQueue, Item(id, token, Entry(who, DropReport(n, received, shipped, |queue|), 3)));
    }

    method StampPoll(now: int)
      modifies this
      ensures Val() == old(Val()).(polledAt := now)
    {
      polledAt := now;
    }

    method Configure(patch: Patch)
      modifies this, cfg
      ensures Val() == Configured(old(Val()), patch)
    {
      cfg.AssignFrom(patch);
      maxBatch := Max(maxBatch, BatchLimit(cfg.batchMax));
    }

    /** What a gateway does with a refused key. */
    method Refuse(p: Params, now: int) returns (dropping: nat)
      modifies this
      ensures Val() == Refused(p, old(Val()), now)
      ensures dropping == |old(queue)|
    {
      badUntil := now + p.badKeyMs;
      dropping := |queue|;
      cleared := cleared + queue;
      queue := [];
    }

    /** `flush` up to its await: the request it sends, or none. */
    method Begin(p: Params, now: int, byTick: bool) returns (post: Option<Post>)
      modifies this
      ensures post == if CanFlush(old(Val())) then Some(PostOf(p, old(Val()), sid, now, byTick)) else None
      ensures Val() == if CanFlush(old(Val())) then Begun(old(Val())) else old(Val())
    {
      if flushing || |queue| == 0 { return None; }
      if !cfg.enabled { return None; }
      flushing := true;
      var n := if cfg.batchMax != 0 then cfg.batchMax else 500;
      var k := if n < 0 then 0 else if n > |queue| then |queue| else n;
      batch := queue[..k];
      queue := queue[k..];
      var pfx := cfg.devicePrefix;
      var logs := Prefixed(pfx, batch);
      var claim := if p.mode == TunnelMode then SourceIp(p.tunnelKey, token) else Bearer(token);
      post := Some(Post(claim, sid, now, pfx, batch, logs, byTick));
    }

    method BackOff(first: nat, now: int)
      modifies this
      ensures Val() == BackedOff(old(Val()), first, now)
    {
      var b := Min(if backoffMs != 0 then backoffMs * 2 else first, 60000);
      backoffMs, retryAt := b, now + b;
      base, fails := if fails == 0 then first else base, fails + 1;
    }

    method Discard()
      modifies this
      ensures Val() == Discarded(old(Val()))
    {
      dropped := dropped + |batch|;
      discarded := discarded + batch;
      batch := [];
    }

    method Credit()
      modifies this
      ensures var s := old(Val());
              Val() == s.(shipped := s.shipped + |s.batch|, acked := s.acked + s.batch, batch := [])
    {
      shipped, acked, batch := shipped + |batch|, acked + batch, [];
    }

    method Recover()
      modifies this
      ensures Val() == old(Val()).(backoffMs := 0, retryAt := 0, fails := 0)
    {
      backoffMs, retryAt, fails := 0, 0, 0;
    }

    /** A success: the batch is done with, and so is any backoff. */
    method Acknowledge()
      modifies this
      ensures var s := old(Val());
              Val() == s.(shipped := s.shipped + |s.batch|, backoffMs := 0, retryAt := 0,
                          acked := s.acked + s.batch, batch := [], fails := 0)
    {
      hide Val;
      Credit();
      Recover();
    }

    /** The whole batch goes back to the head of the queue. */
    method Return()
      modifies this
      ensures var s := old(Val()); Val() == s.(queue := s.batch + s.queue, batch := [])
    {
      queue, batch := batch + queue, [];
    }

    /** The batch a throw leaves behind: neither put back nor counted. */
    method Abandon()
      modifies this
      ensures var s := old(Val()); Val() == s.(lost := s.lost + s.batch, batch := [])
    {
      lost, batch := lost + batch, [];
    }

    method Land()
      modifies this
      ensures Val() == old(Val()).(flushing := false)
    {
      flushing := false;
    }

    /** `flush` after its await. `exit` says the process ends inside the call. */
    method End(p: Params, reply: Reply, now: int) returns (dropping: nat, exit: bool)
      modifies this
      ensures Val() == Ended(p, old(Val()), reply, now)
      ensures dropping == if KeyRefusal(p.mode, reply) then |old(queue)| else 0
      ensures exit <==> Fatal(p.mode, reply)
    {
      dropping, exit := 0, false;
      match reply {
      case Threw =>
        Abandon();
        BackOff(1000, now);
      case Status(status) =>
        if 200 <= status < 300 {
          Acknowledge();
        } else if status == 401 || status == 403 {
          if p.mode == TunnelMode && status == 403 {
            Return();
            BackOff(5000, now);
          } else if p.mode == TunnelMode && status == 401 {
            return 0, true;
          } else {
            Discard();
            if p.mode != GatewayMode { return 0, true; }
            dropping := Refuse(p, now);
          }
        } else if p.mode == TunnelMode && status == 404 {
          Discard();
          return 0, true;
        } else if status == 429 || status >= 500 {
          Return();
          BackOff(1000, now);
        } else {
          Discard();
        }
      }
      Land();
    }
  }

  ghost function Vals(ss: seq<StreamObj>): (r: seq<Stream>)
    reads set s | s in ss :: s
    reads set s | s in ss :: s.cfg
    ensures |r| == |ss|
    ensures forall i :: 0 <= i < |ss| ==> r[i] == ss[i].Val()
  {
    seq(|ss|, i requires 0 <= i < |ss| reads (set s | s in ss), (set s | s in ss :: s.cfg) => ss[i].Val())
  }

  ghost function Ids(ss: seq<StreamObj>): (r: seq<nat>)
    ensures |r| == |ss|
    ensures forall i :: 0 <= i < |ss| ==> r[i] == ss[i].sid
  {
    seq(|ss|, i requires 0 <= i < |ss| => ss[i].sid)
  }

  datatype Phase = Resting | Polls | Ships

  /** A map being sifted: some entries looked at and kept, the rest still to look at. */
  ghost predicate Sifted(done: seq<StreamObj>, todo: seq<StreamObj>, kept: seq<StreamObj>, left: map<string, StreamObj>) {
    && (forall s :: s in kept ==> s in done && s.token in left && left[s.token] == s)
    && (forall s :: s in todo ==> s.token in left && left[s.token] == s)
    && (forall k :: k in left ==> (left[k] in kept || left[k] in todo) && left[k].token == k)
    && (forall i, j :: 0 <= i < j < |kept| ==> kept[i] != kept[j])
  }

  lemma SiftOne(done: seq<StreamObj>, st: StreamObj, rest: seq<StreamObj>, kept: seq<StreamObj>, left: map<string, StreamObj>)
    requires Sifted(done, [st] + rest, kept, left) && st !in done && st !in rest
    ensures Sifted(done + [st], rest, kept + [st], left)
    ensures Sifted(done + [st], rest, kept, left - {st.token})
  {
    assert st in [st] + rest;
    forall s | s in rest ensures s in [st] + rest {}
  }

  class Collector {
    const p: Params
    // the Map: its values in insertion order, and by key
    var order: seq<StreamObj>
    var byToken: map<string, StreamObj>
    // the module's counters
    var unattributed: nat
    var refusedTenants: nat
    var badKeyDrops: nat
    // the scheduler's coroutine: where it stands, and its locals
    var phase: Phase
    var t: int
    var due: seq<StreamObj>
    var polling: Option<StreamObj>
    var ready: seq<StreamObj>
    var waiting: set<nat>
    // the process
    var passes: seq<set<nat>>
    var exited: bool
    var nextId: nat
    var made: nat

    ghost var all: seq<StreamObj>
    ghost var clock: int
    ghost var handled: nat
    ghost var allUnattributed: nat
    ghost var allRefused: nat
    ghost var allDoor: nat
    ghost var toldUnattributed: nat
    ghost var toldRefused: nat
    ghost var toldBadKey: nat
    ghost var posts: seq<Post>

    ghost function Objects(): set<object>
      reads this`all
    {
      (set s: StreamObj | s in all :: s as object) + (set s: StreamObj | s in all :: s.cfg as object)
    }

    ghost predicate Known(ss: seq<StreamObj>)
      reads this`all
    {
      forall i :: 0 <= i < |ss| ==> ss[i] in all
    }

    /** Stream objects and their configurations are all different, and the two views of the map agree. */
    ghost predicate Valid()
      reads this`all, this`made, this`order, this`byToken, this`due, this`polling, this`ready
    {
      && made == |all|
      && (forall i :: 0 <= i < |all| ==> all[i].sid == i)
      && (forall i, j :: 0 <= i < j < |all| ==> all[i] != all[j] && all[i].cfg != all[j].cfg)
      && Known(order) && Known(due) && Known(ready)
      && (forall i, j :: 0 <= i < j < |order| ==> order[i] != order[j])
      && (polling.Some? ==> polling.value in all)
      && (forall s :: s in order ==> s.token in byToken && byToken[s.token] == s)
      && (forall k :: k in byToken ==> byToken[k] in order && byToken[k].token == k)
    }

    ghost function TickOf(): Tick
      reads this`phase, this`t, this`due, this`polling, this`ready, this`waiting
    {
      match phase
      case Resting => Idle
      case Polls => Polling(t, Ids(due), if polling.Some? then Some(polling.value.sid) else None)
      case Ships => Shipping(t, Ids(ready), waiting)
    }

    ghost function Abs(): Gateway
      reads this, Objects()
    {
      Gateway(clock, Vals(all), Ids(order), unattributed, refusedTenants, badKeyDrops,
              TickOf(), passes, exited, nextId, handled,
              allUnattributed, allRefused, allDoor, toldUnattributed, toldRefused, toldBadKey, posts)
    }

    /** One stream changed: the abstract state changes at its place and nowhere else. */
    twostate lemma OneChanged(s: StreamObj)
      requires old(Valid()) && s in all && unchanged(this)
      requires forall o :: o in all && o != s ==> unchanged(o) && unchanged(o.cfg)
      ensures Valid() && s.sid < |all| && all[s.sid] == s
      ensures old(Abs()).objs[s.sid] == old(s.Val())
      ensures Abs() == Put(old(Abs()), s.sid, s.Val())
    {
      assert Vals(all) == old(Vals(all))[s.sid := s.Val()];
    }

    /** A new stream: the others are where they were. */
    twostate lemma OneAppended(new s: StreamObj)
      requires old(Valid()) && all == old(all) + [s]
      requires forall o :: o in old(all) ==> unchanged(o) && unchanged(o.cfg)
      ensures Vals(all) == old(Vals(all)) + [s.Val()]
    {
    }

    /** Looking a token up by key is looking it up in the map's order. */
    lemma Lookup(token: string)
      requires Valid()
      ensures Find(Abs().objs, Abs().live, token) ==
              if token in byToken then Some(byToken[token].sid) else None
    {
      var g := Abs();
      var r := Find(g.objs, g.live, token);
      if r.Some? {
        var i :| 0 <= i < |g.live| && g.live[i] == r.value;
        assert order[i] in order && all[order[i].sid] == order[i];
      }
      if token in byToken {
        var i :| 0 <= i < |order| && order[i] == byToken[token];
        assert g.live[i] == order[i].sid && all[order[i].sid] == order[i];
      }
    }

    /** Only the scheduler's locals changed. */
    twostate lemma TickChanged()
      requires unchanged(`clock, `order, `all, `unattributed, `refusedTenants, `badKeyDrops, `passes, `exited)
      requires unchanged(`nextId, `handled, `allUnattributed, `allRefused, `allDoor)
      requires unchanged(`toldUnattributed, `toldRefused, `toldBadKey, `posts)
      requires forall o :: o in all ==> unchanged(o) && unchanged(o.cfg)
      ensures Abs() == old(Abs()).(tick := TickOf())
    {
      assert Vals(all) == old(Vals(all));
    }

    twostate lemma TickValid()
      requires old(Valid()) && unchanged(`all, `made, `order, `byToken)
      requires Known(due) && Known(ready) && (polling.Some? ==> polling.value in all)
      ensures Valid()
    {
    }

    twostate lemma TickKnown()
      requires old(Valid()) && unchanged(`all, `due, `polling)
      ensures Known(due) && (polling.Some? ==> polling.value in all)
    {
    }

    // ── receiving ───────────────────────────────────────────────────────────

    twostate lemma MadeValid(new s: StreamObj)
      requires old(Valid()) && s !in old(all) && s.sid == |old(all)| && s.token !in old(byToken)
      requires forall o :: o in old(all) ==> o.cfg != s.cfg
      requires order == old(order) + [s] && all == old(all) + [s] && byToken == old(byToken)[s.token := s]
      requires made == old(made) + 1 && due == old(due) && ready == old(ready) && polling == old(polling)
      ensures Valid()
    {
    }

    twostate lemma MadeAbs(new s: StreamObj)
      requires old(Valid()) && all == old(all) + [s] && order == old(order) + [s] && s.sid == |old(all)|
      requires s.Val() == NewStream(s.token)
      requires forall o :: o in old(all) ==> unchanged(o) && unchanged(o.cfg)
      requires unchanged(`unattributed, `refusedTenants, `badKeyDrops, `phase, `t, `due, `polling, `ready, `waiting)
      requires unchanged(`passes, `exited, `nextId, `clock, `handled, `allUnattributed, `allRefused, `allDoor)
      requires unchanged(`toldUnattributed, `toldRefused, `toldBadKey, `posts)
      ensures Abs() == Create(old(Abs()), s.token)
    {
      OneAppended(s);
      assert Ids(order) == old(Ids(order)) + [s.sid];
    }

    /** `newStream` and `streams.set`. */
    method Make(token: string) returns (s: StreamObj)
      requires Valid() && token !in byToken
      modifies this`order, this`byToken, this`all, this`made
      ensures Valid() && fresh(s) && fresh(s.cfg) && all == old(all) + [s] && order == old(order) + [s]
      ensures s.token == token && s.sid == |old(all)|
      ensures Abs() == Create(old(Abs()), token)
    {
      hide Abs, Valid;
      ReadyKnown();
      s := new StreamObj(token, made);
      order := order + [s];
      byToken := byToken[token := s];
      all := all + [s];
      made := made + 1;
      MadeValid(s);
      MadeAbs(s);
    }

    method DeliverTo(s: StreamObj, origin: string, m: Message)
      requires Valid() && s in all
      modifies this`nextId, s
      ensures Valid()
      ensures s.sid < |old(Abs()).objs| && Abs() == Deliver(p, old(Abs()), s.sid, origin, m)
    {
      hide Enqueued;
      s.Enqueue(p.maxQueue, Item(nextId, origin, Entry(m.device, Text(m.text), m.sev)));
      OneChanged(s);
      nextId := nextId + 1;
    }

    lemma Sizes()
      ensures |Abs().live| == |order| && |Abs().objs| == |all|
    {
    }

    method CountRefusedTenant()
      requires Valid()
      modifies this`refusedTenants, this`allRefused
      ensures Valid()
      ensures var g := old(Abs()); Abs() == g.(refusedTenants := g.refusedTenants + 1, allRefused := g.allRefused + 1)
    {
      refusedTenants, allRefused := refusedTenants + 1, allRefused + 1;
    }

    method CountDoorDrop()
      requires Valid()
      modifies this`badKeyDrops, this`allDoor
      ensures Valid()
      ensures var g := old(Abs()); Abs() == g.(badKeyDrops := g.badKeyDrops + 1, allDoor := g.allDoor + 1)
    {
      badKeyDrops, allDoor := badKeyDrops + 1, allDoor + 1;
    }

    /** The stream a token belongs to, made on first sight; none when the map is full. */
    method StreamFor(token: string) returns (r: Option<StreamObj>)
      requires Valid()
      modifies this`order, this`byToken, this`all, this`made, this`refusedTenants, this`allRefused
      ensures Valid() && old(all) <= all && fresh(Objects() - old(Objects()))
      ensures r.Some? ==> r.value in all
      ensures var g := old(Abs());
              match Find(g.objs, g.live, token)
              case Some(sid) => r.Some? && r.value.sid == sid && Abs() == g
              case None =>
                if |g.live| >= p.maxTenants then
                  r.None? && Abs() == g.(refusedTenants := g.refusedTenants + 1, allRefused := g.allRefused + 1)
                else
                  r.Some? && r.value.sid == |g.objs| && Abs() == Create(g, token)
    {
      hide Find, Create, Abs;
      Lookup(token);
      Sizes();
      if token in byToken { return Some(byToken[token]); }
      if |order| >= p.maxTenants {
        CountRefusedTenant();
        return None;
      }
      var s := Make(token);
      r := Some(s);
    }

    /** The two gateways' admission: the door of a refused key, then the queue. */
    method AdmitTo(st: StreamObj, now: int, who: string, m: Message)
      requires Valid() && st in all
      modifies this`badKeyDrops, this`allDoor, this`nextId, st
      ensures Valid()
      ensures st.sid < |old(Abs()).objs| && Abs() == Admit(p, old(Abs()), now, st.sid, who, m)
    {
      hide Deliver, Valid;
      assert st.sid < |Abs().objs| && Abs().objs[st.sid] == st.Val() by { Placed(st); }
      if st.badUntil > now {
        CountDoorDrop();
      } else {
        DeliverTo(st, who, m);
      }
    }

    lemma Placed(s: StreamObj)
      requires Valid() && s in all
      ensures s.sid < |Abs().objs| && Abs().objs[s.sid] == s.Val()
    {
    }

    /** A message whose tenant is known. */
    method Receive(now: int, who: string, m: Message)
      requires Valid()
      modifies this`order, this`byToken, this`all, this`made, this`refusedTenants, this`allRefused,
               this`badKeyDrops, this`allDoor, this`nextId, Objects()
      ensures Valid() && old(all) <= all && fresh(Objects() - old(Objects()))
      ensures Abs() == Route(p, old(Abs()), now, who, m)
    {
      hide Find, Create, Deliver, Admit, Abs;
      if p.mode == CollectorMode {
        Lookup(who);
        if who in byToken { DeliverTo(byToken[who], who, m); }
      } else {
        var r := StreamFor(who);
        if r.Some? { AdmitTo(r.value, now, who, m); }
      }
    }

    ghost method At(now: int)
      requires Valid()
      modifies this`clock
      ensures Valid() && Abs() == old(Abs()).(clock := now)
    {
      clock := now;
    }

    ghost method CountHandled()
      requires Valid()
      modifies this`handled
      ensures Valid() && Abs() == old(Abs()).(handled := old(Abs()).handled + 1)
    {
      handled := handled + 1;
    }

    method CountUnattributed()
      requires Valid()
      modifies this`unattributed, this`allUnattributed
      ensures Valid()
      ensures var g := old(Abs());
              Abs() == g.(unattributed := g.unattributed + 1, allUnattributed := g.allUnattributed + 1)
    {
      unattributed, allUnattributed := unattributed + 1, allUnattributed + 1;
    }

    method OnMessage(now: int, m: Message)
      requires Valid() && Enabled(p, Abs(), now, Arrival(m))
      modifies this, Objects()
      ensures Valid() && old(all) <= all && fresh(Objects() - old(Objects()))
      ensures Abs() == Step(p, old(Abs()), now, Arrival(m))
    {
      hide Abs, Route, Valid;
      At(now);
      if m.raw == "" { return; }
      CountHandled();
      if p.mode == TunnelMode {
        if m.peer == "" || m.peer == "unknown" { CountUnattributed(); return; }
        Receive(now, m.peer, m);
      } else if p.mode == GatewayMode {
        if m.sdToken.None? || !TokenShape(m.sdToken.value) { CountUnattributed(); return; }
        Receive(now, m.sdToken.value, m);
      } else {
        Receive(now, p.key, m);
      }
    }

    // ── a refused key ───────────────────────────────────────────────────────

    method Exit()
      requires Valid()
      modifies this`exited
      ensures Valid() && Abs() == old(Abs()).(exited := true)
    {
      exited := true;
    }

    method CountBadKey(n: nat)
      requires Valid()
      modifies this`badKeyDrops
      ensures Valid() && Abs() == old(Abs()).(badKeyDrops := old(Abs()).badKeyDrops + n)
    {
      badKeyDrops := badKeyDrops + n;
    }

    method KeyRefusedFor(s: StreamObj, now: int)
      requires Valid() && s in all
      modifies this`exited, this`badKeyDrops, s
      ensures Valid()
      ensures s.sid < |old(Abs()).objs| && Abs() == KeyRefused(p, old(Abs()), now, s.sid)
    {
      hide Abs, Refused;
      Placed(s);
      if p.mode != GatewayMode {
        Exit();
      } else {
        var n := s.Refuse(p, now);
        OneChanged(s);
        CountBadKey(n);
      }
    }

    // ── polling ─────────────────────────────────────────────────────────────

    method NextPoll() returns (s: StreamObj)
      requires Valid() && phase == Polls && due != []
      modifies this`polling, this`due
      ensures Valid() && s == old(due)[0] && s in all && due == old(due)[1..]
      ensures s.sid == Ids(old(due))[0]
      ensures Abs() == old(Abs()).(tick := Polling(t, Ids(old(due))[1..], Some(s.sid)))
    {
      hide Abs, Valid, Ids, Vals;
      DueKnown();
      s := due[0];
      polling, due := Some(s), due[1..];
      TickValid();
      TickChanged();
    }

    lemma DueKnown()
      requires Valid() && due != []
      ensures Known(due) && Known(ready) && Known(due[1..])
      ensures due[0].sid == Ids(due)[0] && Ids(due[1..]) == Ids(due)[1..]
    {
    }

    /** `pollConfig` up to its await. */
    method PollSend(now: int)
      requires Valid() && Enabled(p, Abs(), now, PollSends)
      modifies this, Objects()
      ensures Valid() && all == old(all)
      ensures Abs() == Step(p, old(Abs()), now, PollSends)
    {
      hide Abs;
      TickIs();
      At(now);
      var s := NextPoll();
      label stamped:
      s.StampPoll(now);
      OneChanged@stamped(s);
    }

    lemma TickIs()
      ensures Abs().tick == TickOf()
    {
    }

    /** The reply is assigned into this stream's own configuration object: no other stream's changes. */
    method ConfigureFor(s: StreamObj, patch: Patch)
      requires Valid() && s in all
      modifies s, s.cfg
      ensures Valid()
      ensures s.sid < |old(Abs()).objs|
      ensures Abs() == Put(old(Abs()), s.sid, Configured(old(Abs()).objs[s.sid], patch))
    {
      hide Abs, Configured;
      Placed(s);
      s.Configure(patch);
      OneChanged(s);
    }

    method PollOver() returns (s: StreamObj)
      requires Valid() && phase == Polls && polling.Some?
      modifies this`polling
      ensures Valid() && s in all && Some(s) == old(polling)
      ensures Abs() == old(Abs()).(tick := Polling(t, Ids(due), None))
    {
      s := polling.value;
      polling := None;
    }

    /** `pollConfig` after its awaits, and what the scheduler does with a refusal. */
    method PollDone(now: int, reply: PollReply)
      requires Valid() && Enabled(p, Abs(), now, PollReturns(reply))
      modifies this, Objects()
      ensures Valid() && all == old(all)
      ensures Abs() == Step(p, old(Abs()), now, PollReturns(reply))
    {
      hide Abs, KeyRefused, Configured;
      TickIs();
      At(now);
      var s := PollOver();
      Placed(s);
      match reply
      case PollRefused => KeyRefusedFor(s, now);
      case PollOk(patch) => ConfigureFor(s, patch);
      case PollNotOk =>
      case PollThrew =>
    }

    // ── shipping ────────────────────────────────────────────────────────────

    method Sent(post: Post, s: StreamObj, byTick: bool)
      requires Valid()
      modifies this`posts, this`waiting
      ensures Valid()
      ensures var g := old(Abs());
              var g1 := g.(posts := g.posts + [post]);
              Abs() == if byTick && g.tick.Shipping? then g1.(tick := g.tick.(waiting := g.tick.waiting + {s.sid})) else g1
    {
      hide Valid, Vals, Ids;
      posts := posts + [post];
      if byTick && phase == Ships { waiting := waiting + {s.sid}; }
    }

    /** `flush` up to its await. */
    method StartFlushOf(s: StreamObj, now: int, byTick: bool) returns (sent: bool)
      requires Valid() && s in all
      modifies this`posts, this`waiting, s
      ensures Valid()
      ensures s.sid < |old(Abs()).objs| && Abs() == StartFlush(p, old(Abs()), now, s.sid, byTick)
      ensures sent == CanFlush(old(Abs()).objs[s.sid])
    {
      hide Abs, Begun, PostOf;
      Placed(s);
      var post := s.Begin(p, now, byTick);
      OneChanged(s);
      sent := post.Some?;
      if sent { Sent(post.value, s, byTick); }
    }

    lemma IdsInRange(ss: seq<StreamObj>)
      requires Valid() && Known(ss)
      ensures InRange(Ids(ss), Abs())
    {
    }

    /** What a pass has sent, and one more stream of its list. */
    lemma OneMoreSent(g: Gateway, now: int, ids: seq<nat>, i: nat, byTick: bool)
      requires InRange(ids, g) && i < |ids|
      ensures var before := StartAll(p, g, now, ids[..i], byTick);
              CanShip(g.objs, ids[..i+1]) ==
              CanShip(g.objs, ids[..i]) + (if CanFlush(before.objs[ids[i]]) then {ids[i]} else {})
    {
      hide Begun, StartAll;
      TickLaws.StartAllExactly(p, g, now, ids[..i], byTick, ids[i]);
      TickLaws.BegunFlushes(g.objs[ids[i]]);
      assert ids[..i+1] == ids[..i] + [ids[i]];
    }

    /** One pass of `flush` over a list of streams, each up to its await, and the POSTs it sent. */
    method StartPass(ss: seq<StreamObj>, now: int, byTick: bool) returns (sent: set<nat>)
      requires Valid() && Known(ss)
      modifies this`posts, this`waiting, Objects()
      ensures Valid()
      ensures InRange(Ids(ss), old(Abs())) && Abs() == StartAll(p, old(Abs()), now, Ids(ss), byTick)
      ensures sent == CanShip(old(Abs()).objs, Ids(ss))
    {
      hide Abs, StartFlush, CanFlush;
      IdsInRange(ss);
      ghost var g := Abs();
      sent := {};
      for i := 0 to |ss|
        invariant Valid() && Known(ss)
        invariant InRange(Ids(ss)[..i], g) && Abs() == StartAll(p, g, now, Ids(ss)[..i], byTick)
        invariant sent == CanShip(g.objs, Ids(ss)[..i])
      {
        assert Ids(ss)[..i+1][..i] == Ids(ss)[..i];
        OneMoreSent(g, now, Ids(ss), i, byTick);
        var one := StartFlushOf(ss[i], now, byTick);
        if one { sent := sent + {ss[i].sid}; }
      }
      assert Ids(ss)[..|ss|] == Ids(ss);
    }

    method TakeGroup() returns (group: seq<StreamObj>)
      requires Valid() && phase == Ships
      modifies this`ready
      ensures Valid() && Known(group) && Ids(group) == First(POSTS_AT_ONCE, Ids(old(ready)))
      ensures Abs() == old(Abs()).(tick := Shipping(t, Ids(old(ready))[|group|..], waiting))
    {
      var n := if |ready| < POSTS_AT_ONCE then |ready| else POSTS_AT_ONCE;
      group, ready := ready[..n], ready[n..];
      assert Ids(group) == Ids(old(ready))[..n];
      assert Ids(ready) == Ids(old(ready))[n..];
    }

    method GroupStarts(now: int)
      requires Valid() && phase == Ships
      modifies this`ready, this`posts, this`waiting, Objects()
      ensures Valid() && old(Abs()).tick.Shipping? && InRange(old(Abs()).tick.rest, old(Abs()))
      ensures Abs() == TickGroup(p, old(Abs()), now)
    {
      hide Abs, StartAll, Valid;
      TickIs();
      assert Known(ready) by { ReadyKnown(); }
      IdsInRange(ready);
      var group := TakeGroup();
      var sent := StartPass(group, now, true);
    }

    lemma ReadyKnown()
      requires Valid()
      ensures Known(ready) && Known(order) && made == |all|
    {
    }

    /** Eight streams at a time. */
    method TickGroupStarts(now: int)
      requires Valid() && Enabled(p, Abs(), now, TickPosts)
      modifies this, Objects()
      ensures Valid() && all == old(all)
      ensures Abs() == Step(p, old(Abs()), now, TickPosts)
    {
      hide Abs, TickGroup;
      TickIs();
      At(now);
      GroupStarts(now);
    }

    method CountPost(sid: nat, n: nat, exit: bool)
      requires Valid()
      modifies this`badKeyDrops, this`exited, this`passes
      ensures Valid()
      ensures var g := old(Abs());
              Abs() == g.(badKeyDrops := g.badKeyDrops + n, passes := Answered(g.passes, sid), exited := exit)
    {
      hide Valid, Vals, Ids, Answered;
      badKeyDrops, passes, exited := badKeyDrops + n, Answered(passes, sid), exit;
    }

    method NoLongerAwaited(sid: nat)
      requires Valid()
      modifies this`waiting
      ensures Valid()
      ensures var g := old(Abs());
              Abs() == if g.tick.Shipping? then g.(tick := g.tick.(waiting := g.tick.waiting - {sid})) else g
    {
      hide Valid, Vals, Ids;
      if phase == Ships { waiting := waiting - {sid}; }
    }

    method PostOver(sid: nat, n: nat, exit: bool)
      requires Valid()
      modifies this`badKeyDrops, this`exited, this`waiting, this`passes
      ensures Valid()
      ensures var g := old(Abs());
              var g1 := g.(badKeyDrops := g.badKeyDrops + n, passes := Answered(g.passes, sid), exited := exit);
              Abs() == if g.tick.Shipping? then g1.(tick := g.tick.(waiting := g.tick.waiting - {sid})) else g1
    {
      hide Abs, Valid, Answered;
      CountPost(sid, n, exit);
      NoLongerAwaited(sid);
    }

    /** `flush` after its await. */
    method PostDone(s: StreamObj, now: int, reply: Reply)
      requires Valid() && s in all && Enabled(p, Abs(), now, PostReturns(s.sid, reply))
      modifies this, Objects()
      ensures Valid() && all == old(all)
      ensures Abs() == Step(p, old(Abs()), now, PostReturns(s.sid, reply))
    {
      hide Abs, Ended;
      At(now);
      Placed(s);
      label landed:
      var n, exit := s.End(p, reply, now);
      OneChanged@landed(s);
      PostOver(s.sid, n, exit);
    }

    method Await(sent: set<nat>)
      requires Valid()
      modifies this`passes
      ensures Valid() && Abs() == old(Abs()).(passes := old(Abs()).passes + [sent])
    {
      passes := passes + [sent];
    }

    lemma OrderIs()
      ensures Abs().live == Ids(order)
    {
    }

    method PassAll(now: int)
      requires Valid()
      modifies this`passes, this`posts, this`waiting, Objects()
      ensures Valid() && InRange(old(Abs()).live, old(Abs()))
      ensures Abs() == Shutdown(p, old(Abs()), now)
    {
      hide Abs, StartAll, Valid;
      OrderIs();
      ReadyKnown();
      IdsInRange(order);
      ghost var g := Abs();
      var sent := StartPass(order, now, false);
      PassesKept(g, now, g.live);
      Await(sent);
    }

    lemma PassesKept(g: Gateway, now: int, ids: seq<nat>)
      requires InRange(ids, g)
      ensures StartAll(p, g, now, ids, false).passes == g.passes
    {
      TickLaws.StartAllFacts(p, g, now, ids, false);
    }

    /** Everything a shutdown's pass sent has been answered: the process ends. */
    method PassIsOver(now: int)
      requires Valid() && Enabled(p, Abs(), now, PassEnds)
      modifies this
      ensures Valid() && all == old(all)
      ensures Abs() == Step(p, old(Abs()), now, PassEnds)
    {
      hide Abs, Valid;
      At(now);
      Exit();
    }

    /** SIGTERM: one pass over every stream. */
    method Terminate(now: int)
      requires Valid() && Enabled(p, Abs(), now, Signalled)
      modifies this, Objects()
      ensures Valid() && all == old(all)
      ensures Abs() == Step(p, old(Abs()), now, Signalled)
    {
      hide Abs, Shutdown, Valid;
      At(now);
      PassAll(now);
    }

    // ── drop reports and the idle sweep ─────────────────────────────────────

    method TakeId()
      requires Valid()
      modifies this`nextId
      ensures Valid() && Abs() == old(Abs()).(nextId := old(Abs()).nextId + 1)
    {
      nextId := nextId + 1;
    }

    method ReportFor(s: StreamObj)
      requires Valid() && s in all
      modifies this`nextId, s
      ensures Valid()
      ensures s.sid < |old(Abs()).objs| && Abs() == ReportOne(p, old(Abs()), s.sid)
    {
      hide Abs, Reported;
      Placed(s);
      NextIdIs();
      if s.dropped == 0 { return; }
      s.Report(p.maxQueue, Who(p.mode), nextId);
      OneChanged(s);
      TakeId();
    }

    lemma NextIdIs()
      ensures Abs().nextId == nextId
    {
    }

    ghost method NoteTold()
      requires Valid()
      modifies this`toldUnattributed, this`toldRefused, this`toldBadKey
      ensures Valid()
      ensures var g := old(Abs());
              Abs() == g.(toldUnattributed := g.toldUnattributed + g.unattributed,
                          toldRefused := g.toldRefused + g.refusedTenants,
                          toldBadKey := g.toldBadKey + g.badKeyDrops)
    {
      hide Valid, TickOf, Vals, Ids;
      toldUnattributed := toldUnattributed + unattributed;
      toldRefused := toldRefused + refusedTenants;
      toldBadKey := toldBadKey + badKeyDrops;
    }

    method Reset()
      requires Valid()
      modifies this`unattributed, this`refusedTenants, this`badKeyDrops
      ensures Valid() && Abs() == old(Abs()).(unattributed := 0, refusedTenants := 0, badKeyDrops := 0)
    {
      hide Valid, TickOf, Vals, Ids;
      unattributed := 0;
      refusedTenants := 0;
      badKeyDrops := 0;
    }

    lemma CountersAre()
      ensures var g := Abs();
              g.unattributed == unattributed && g.refusedTenants == refusedTenants && g.badKeyDrops == badKeyDrops
    {
    }

    method TellOperator()
      requires Valid()
      modifies this`unattributed, this`refusedTenants, this`badKeyDrops,
               this`toldUnattributed, this`toldRefused, this`toldBadKey
      ensures Valid()
      ensures var g := old(Abs());
              Abs() == g.(toldUnattributed := g.toldUnattributed + g.unattributed, unattributed := 0,
                          toldRefused := g.toldRefused + g.refusedTenants, refusedTenants := 0,
                          toldBadKey := g.toldBadKey + g.badKeyDrops, badKeyDrops := 0)
    {
      hide Abs;
      CountersAre();
      if unattributed != 0 || refusedTenants != 0 || badKeyDrops != 0 {
        NoteTold();
        Reset();
      }
    }

    method ReportAllStreams()
      requires Valid()
      modifies this`nextId, Objects()
      ensures Valid() && InRange(old(Abs()).live, old(Abs()))
      ensures Abs() == ReportAll(p, old(Abs()), old(Abs()).live)
    {
      hide Abs, ReportOne, Valid, Ids, Vals;
      OrderIs();
      ReadyKnown();
      IdsInRange(order);
      ghost var g := Abs();
      for i := 0 to |order|
        invariant Valid()
        invariant InRange(Ids(order)[..i], g) && Abs() == ReportAll(p, g, Ids(order)[..i])
      {
        assert Ids(order)[..i+1][..i] == Ids(order)[..i];
        OrderAt(i);
        ReportFor(order[i]);
      }
      assert Ids(order)[..|order|] == Ids(order);
    }

    method ReportDropsNow(now: int)
      requires Valid() && Enabled(p, Abs(), now, DropsReported)
      modifies this, Objects()
      ensures Valid() && all == old(all)
      ensures Abs() == Step(p, old(Abs()), now, DropsReported)
    {
      hide Abs, ReportAll, Valid;
      At(now);
      ReportAllStreams();
      if p.mode != CollectorMode { TellOperator(); }
    }

    /** What an entry of the map has to show to be kept. */
    predicate Keeps(st: StreamObj, now: int)
      reads st, st.cfg
      ensures Keeps(st, now) <==> SweepKeeps(p, st.Val(), now)
    {
      var cutoff := now - (if p.pollMs * 2 < 600000 then 600000 else p.pollMs * 2);
      |st.queue| != 0 || st.flushing || st.polledAt > cutoff || st.badUntil > now
    }

    // ── going over the map ──────────────────────────────────────────────────

    /** What a loop over the map has picked among its first `i` streams. */
    ghost function PickedUpTo(g: Gateway, ids: seq<nat>, i: nat, pick: Pick): seq<nat>
      requires InRange(ids, g) && i <= |ids|
    {
      Select(p, g.objs, ids[..i], pick)
    }

    lemma PickedOneMore(g: Gateway, ids: seq<nat>, i: nat, taken: seq<StreamObj>, st: StreamObj, pick: Pick)
      requires InRange(ids, g) && i < |ids| && ids[i] == st.sid
      requires Ids(taken) == PickedUpTo(g, ids, i, pick)
      ensures PickedUpTo(g, ids, i + 1, pick) ==
              if Picked(p, g.objs[st.sid], pick) then Ids(taken + [st]) else Ids(taken)
    {
      assert ids[..i+1][..i] == ids[..i];
      assert Ids(taken + [st]) == Ids(taken) + [st.sid];
    }

    lemma PickedEnds(g: Gateway, ids: seq<nat>, pick: Pick)
      requires InRange(ids, g)
      ensures PickedUpTo(g, ids, 0, pick) == [] == Ids([])
      ensures PickedUpTo(g, ids, |ids|, pick) == Select(p, g.objs, ids, pick)
    {
      assert ids[..|ids|] == ids;
    }

    /** The map after the deletions: what is kept stays in order. */
    method Survivors(now: int) returns (kept: seq<StreamObj>, left: map<string, StreamObj>)
      requires Valid()
      ensures InRange(Abs().live, Abs()) && Ids(kept) == Select(p, Abs().objs, Abs().live, Survives(now))
      ensures Sifted(order, [], kept, left)
    {
      hide Abs, Sifted, Valid, SweepKeeps, Ids, PickedUpTo;
      OrderIs();
      ReadyKnown();
      IdsInRange(order);
      ghost var g, ids := Abs(), Ids(order);
      PickedEnds(g, ids, Survives(now));
      kept, left := [], byToken;
      SiftNone();
      for i := 0 to |order|
        invariant Abs() == g && Valid()
        invariant Ids(kept) == PickedUpTo(g, ids, i, Survives(now))
        invariant Sifted(order[..i], order[i..], kept, left)
      {
        var st := order[i];
        OrderAt(i);
        PickedOneMore(g, ids, i, kept, st, Survives(now));
        SiftOne(order[..i], st, order[i+1..], kept, left);
        Placed(st);
        if Keeps(st, now) {
          kept := kept + [st];
        } else {
          left := left - {st.token};
        }
      }
      assert order[..|order|] == order && order[|order|..] == [];
    }

    lemma OrderAt(i: nat)
      requires Valid() && i < |order|
      ensures order[i] in all && order[i] !in order[..i] && order[i] !in order[i+1..]
      ensures order[i..] == [order[i]] + order[i+1..] && order[..i+1] == order[..i] + [order[i]]
    {
    }

    lemma SiftNone()
      requires Valid()
      ensures Sifted(order[..0], order[0..], [], byToken)
    {
    }

    twostate lemma SweptValid(new kept: seq<StreamObj>, new left: map<string, StreamObj>)
      requires old(Valid()) && Sifted(old(order), [], kept, left)
      requires order == kept && byToken == left
      requires unchanged(`all, `made, `due, `ready, `polling)
      ensures Valid()
    {
      assert forall i :: 0 <= i < |kept| ==> kept[i] in kept;
    }

    method Sweep(now: int)
      requires Valid()
      modifies this`order, this`byToken
      ensures Valid() && InRange(old(Abs()).live, old(Abs()))
      ensures Abs() == SweepIdle(p, old(Abs()), now)
    {
      hide Valid, Sifted, Select;
      var kept, left := Survivors(now);
      order, byToken := kept, left;
      SweptValid(kept, left);
    }

    method SweepNow(now: int)
      requires Valid() && Enabled(p, Abs(), now, IdleSwept)
      modifies this
      ensures Valid() && all == old(all)
      ensures Abs() == Step(p, old(Abs()), now, IdleSwept)
    {
      hide Abs, SweepIdle, Valid;
      At(now);
      Sweep(now);
    }

    // ── the scheduler ───────────────────────────────────────────────────────

    /** The streams whose configuration is due, in the map's order. */
    method DueStreams(now: int) returns (found: seq<StreamObj>)
      requires Valid()
      ensures Valid() && Abs() == old(Abs())
      ensures Known(found)
      ensures InRange(Abs().live, Abs()) && Ids(found) == Select(p, Abs().objs, Abs().live, DueAt(now))
    {
      hide Abs, Valid, Ids, PickedUpTo;
      OrderIs();
      ReadyKnown();
      IdsInRange(order);
      ghost var g, ids := Abs(), Ids(order);
      PickedEnds(g, ids, DueAt(now));
      found := [];
      for i := 0 to |order|
        invariant Abs() == g && Valid() && Known(found)
        invariant Ids(found) == PickedUpTo(g, ids, i, DueAt(now))
      {
        var st := order[i];
        PickedOneMore(g, ids, i, found, st, DueAt(now));
        Placed(st);
        if st.polledAt != 0 && now - st.polledAt < p.pollMs {
        } else {
          found := found + [st];
        }
      }
    }

    /** The streams that may ship: past their backoff and past any refusal. */
    method ReadyStreams(t: int) returns (found: seq<StreamObj>)
      requires Valid()
      ensures Valid() && Abs() == old(Abs())
      ensures Known(found)
      ensures InRange(Abs().live, Abs()) && Ids(found) == Select(p, Abs().objs, Abs().live, ReadyAt(t))
    {
      hide Abs, Valid, Ids, PickedUpTo;
      OrderIs();
      ReadyKnown();
      IdsInRange(order);
      ghost var g, ids := Abs(), Ids(order);
      PickedEnds(g, ids, ReadyAt(t));
      found := [];
      for i := 0 to |order|
        invariant Abs() == g && Valid() && Known(found)
        invariant Ids(found) == PickedUpTo(g, ids, i, ReadyAt(t))
      {
        var st := order[i];
        PickedOneMore(g, ids, i, found, st, ReadyAt(t));
        Placed(st);
        if st.retryAt <= t && st.badUntil <= t { found := found + [st]; }
      }
    }

    lemma FirstOf(found: seq<StreamObj>)
      requires Known(found)
      ensures var due := if |found| <= POLLS_PER_TICK then found else found[..POLLS_PER_TICK];
              Known(due) && Ids(due) == First(POLLS_PER_TICK, Ids(found))
    {
    }

    method SetPolls(now: int, found: seq<StreamObj>)
      requires Valid() && Known(found)
      modifies this`phase, this`t, this`due, this`polling
      ensures Valid()
      ensures Abs() == old(Abs()).(tick := Polling(now, First(POLLS_PER_TICK, Ids(found)), None))
    {
      hide Abs, Valid, First, Ids, Known, Vals;
      FirstOf(found);
      ReadyKnown();
      due := if |found| <= POLLS_PER_TICK then found else found[..POLLS_PER_TICK];
      phase, t, polling := Polls, now, None;
      TickValid();
      TickChanged();
    }

    method StartPolls(now: int)
      requires Valid()
      modifies this`phase, this`t, this`due, this`polling
      ensures Valid() && InRange(old(Abs()).live, old(Abs())) && Abs() == TickStart(p, old(Abs()), now)
    {
      hide Abs, Select, Valid, Known, First;
      NoneFound();
      var found := [];
      if p.mode != TunnelMode { found := DueStreams(now); }
      SetPolls(now, found);
    }

    lemma NoneFound()
      requires Valid()
      ensures Known([]) && Ids([]) == [] && InRange(Abs().live, Abs())
    {
    }

    /** The tick's first stretch: who is due, and the sixteen of them to poll. */
    method TickBegins(now: int)
      requires Valid() && Enabled(p, Abs(), now, TickStarts)
      modifies this
      ensures Valid() && all == old(all)
      ensures Abs() == Step(p, old(Abs()), now, TickStarts)
    {
      hide Abs, Valid, TickStart;
      At(now);
      StartPolls(now);
    }

    method SetShips(found: seq<StreamObj>)
      requires Valid() && Known(found)
      modifies this`phase, this`ready, this`waiting
      ensures Valid()
      ensures Abs() == old(Abs()).(tick := Shipping(t, Ids(found), {}))
    {
      hide Abs, Valid, Ids, Known, Vals;
      phase, ready, waiting := Ships, found, {};
      TickKnown();
      TickValid();
      TickChanged();
    }

    method StartShips()
      requires Valid() && phase == Polls
      modifies this`phase, this`ready, this`waiting
      ensures Valid() && InRange(old(Abs()).live, old(Abs())) && old(Abs()).tick.Polling?
      ensures Abs() == TickReady(p, old(Abs()))
    {
      hide Abs, Select, Valid, Known;
      TickIs();
      NoneFound();
      var found := ReadyStreams(t);
      SetShips(found);
    }

    /** After the polls: the map as it is now, against the time the tick began. */
    method TickRanksNow(now: int)
      requires Valid() && Enabled(p, Abs(), now, TickRanks)
      modifies this
      ensures Valid() && all == old(all)
      ensures Abs() == Step(p, old(Abs()), now, TickRanks)
    {
      hide Abs, Valid, TickReady;
      TickIs();
      At(now);
      StartShips();
    }

    method Rest()
      requires Valid()
      modifies this`phase
      ensures Valid() && Abs() == old(Abs()).(tick := Idle)
    {
      phase := Resting;
    }

    method TickIsOver(now: int)
      requires Valid() && Enabled(p, Abs(), now, TickEnds)
      modifies this
      ensures Valid() && all == old(all)
      ensures Abs() == Step(p, old(Abs()), now, TickEnds)
    {
      hide Abs, Valid;
      At(now);
      Rest();
    }

    // ── boot ────────────────────────────────────────────────────────────────

    /** A process with an empty map. */
    constructor Empty(p: Params, now: int)
      ensures Valid() && this.p == p && all == [] && byToken == map[]
      ensures Abs() == Gateway(now, [], [], 0, 0, 0, Idle, [], false, 0, 0, 0, 0, 0, 0, 0, 0, [])
    {
      this.p := p;
      order, byToken, all, made := [], map[], [], 0;
      unattributed, refusedTenants, badKeyDrops := 0, 0, 0;
      phase, t, due, polling, ready, waiting := Resting, 0, [], None, [], {};
      passes, exited, nextId, clock, handled := [], false, 0, now, 0;
      allUnattributed, allRefused, allDoor := 0, 0, 0;
      toldUnattributed, toldRefused, toldBadKey, posts := 0, 0, 0, [];
    }

    /** The collector's own stream, polled once before anything listens. */
    method FirstPoll(now: int, reply: PollReply)
      requires Valid() && all == [] && byToken == map[]
      modifies this
      ensures Valid() && fresh(Objects())
      ensures var g := Put(Create(old(Abs()), p.key), 0, NewStream(p.key).(polledAt := now));
              Abs() == match reply
                       case PollOk(patch) => Put(g, 0, Configured(g.objs[0], patch))
                       case PollRefused => g.(exited := true)
                       case _ => g
    {
      hide Abs, Configured;
      NoStreams();
      var s := Make(p.key);
      label made:
      s.StampPoll(now);
      OneChanged@made(s);
      match reply
      case PollRefused => Exit();
      case PollOk(patch) => ConfigureFor(s, patch);
      case PollNotOk =>
      case PollThrew =>
    }

    lemma NoStreams()
      ensures all == [] ==> Abs().objs == []
    {
    }
  }

  /** Boot: a gateway starts with no streams, a collector with its one, already polled. */
  method Start(p: Params, now: int, reply: PollReply) returns (c: Collector)
    ensures fresh(c) && fresh(c.Objects()) && c.Valid()
    ensures c.Abs() == Boot(p, now, reply)
  {
    c := new Collector.Empty(p, now);
    if p.mode == CollectorMode { c.FirstPoll(now, reply); }
  }
}
