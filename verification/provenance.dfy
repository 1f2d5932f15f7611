/**
 * Whose message a line came from. Every line a stream ever received, and so every
 * line of every POST, was brought by a message that named that tenant, in the words
 * of the message itself: the token of its structured data, the address it came from,
 * or the one key a collector has.
 */
module Provenance {
  import opened Wrappers
  import opened StreamModel
  import opened GatewayModel
  import opened GatewayLaws
  import opened TickLaws
  import opened TimingLaws

  /** The tenant a message names, in each mode. */
  predicate Names(p: Params, m: Message, who: string) {
    match p.mode
    case TunnelMode => who == m.peer
    case GatewayMode => m.sdToken == Some(who)
    case CollectorMode => who == p.key
  }

  /** What a token looks like: "oc", a small letter, "_", and 16 to 128 letters, digits, "_" or "-". */
  predicate LooksLikeToken(t: string) {
    && 20 <= |t| <= 132 && t[..2] == "oc" && 'a' <= t[2] <= 'z' && t[3] == '_'
    && forall i :: 4 <= i < |t| ==>
         'A' <= t[i] <= 'Z' || 'a' <= t[i] <= 'z' || '0' <= t[i] <= '9' || t[i] == '_' || t[i] == '-'
  }

  /** The message says whose it is, in a way the mode accepts. */
  predicate Usable(p: Params, m: Message) {
    match p.mode
    case TunnelMode => m.peer != "" && m.peer != "unknown"
    case GatewayMode => m.sdToken.Some? && LooksLikeToken(m.sdToken.value)
    case CollectorMode => true
  }

  lemma TokensLook(t: string)
    ensures TokenShape(t) <==> LooksLikeToken(t)
  {
    if 20 <= |t| {
      assert t[..2] == [t[0], t[1]];
      assert "oc"[0] == 'o' && "oc"[1] == 'c';
    }
  }

  /** Whom the collector takes a message to be from is whom it names. */
  lemma AttributedAsNamed(p: Params, m: Message)
    ensures Attribution(p, m).Some? <==> Usable(p, m)
    ensures forall who :: Attribution(p, m) == Some(who) <==> Usable(p, m) && Names(p, m, who)
  {
    hide TokenShape, LooksLikeToken;
    if m.sdToken.Some? { TokensLook(m.sdToken.value); }
  }

  /** A message counts as nobody's exactly when it is not empty and does not say whose it is. */
  lemma UnattributedExactly(p: Params, g: Gateway, now: int, m: Message)
    requires Enabled(p, g, now, Arrival(m))
    ensures var g' := Step(p, g, now, Arrival(m));
            && g'.unattributed == g.unattributed + (if m.raw != "" && !Usable(p, m) then 1 else 0)
            && (m.raw == "" || !Usable(p, m) ==> g'.objs == g.objs && g'.live == g.live && g'.posts == g.posts &&
                                                 g'.refusedTenants == g.refusedTenants && g'.badKeyDrops == g.badKeyDrops)
  {
    hide Attribution, Usable, Deliver, Admit, Find;
    AttributedAsNamed(p, m);
    if m.raw != "" && Usable(p, m) {
      RouteCounts(p, g.(clock := now, handled := g.handled + 1), now, Attribution(p, m).value, m);
    }
  }

  lemma RouteCounts(p: Params, g: Gateway, now: int, who: string, m: Message)
    ensures Route(p, g, now, who, m).unattributed == g.unattributed
  {
  }

  // ── what has been brought ─────────────────────────────────────────────────

  /** One of these events is the arrival of a message that names the line's tenant and says what the line says. */
  ghost predicate Brought(p: Params, evs: seq<Timed>, it: Item) {
    exists i :: 0 <= i < |evs| && Brings(p, evs[i].1, it)
  }

  predicate Brings(p: Params, e: Event, it: Item) {
    && e.Arrival? && e.m.raw != "" && Usable(p, e.m) && Names(p, e.m, it.origin)
    && it.entry == Entry(e.m.device, Text(e.m.text), e.m.sev)
  }

  /** Every device's line of every stream was brought, under that stream's own token. */
  ghost predicate AllBrought(p: Params, g: Gateway, evs: seq<Timed>) {
    forall x, it :: 0 <= x < |g.objs| && it in g.objs[x].arrived && it.entry.line.Text? ==>
      it.origin == g.objs[x].token && Brought(p, evs, it)
  }

  lemma BroughtLater(p: Params, evs: seq<Timed>, more: seq<Timed>, it: Item)
    requires Brought(p, evs, it) || Brought(p, more, it)
    ensures Brought(p, evs + more, it)
  {
    if Brought(p, evs, it) {
      var i :| 0 <= i < |evs| && Brings(p, evs[i].1, it);
      assert (evs + more)[i] == evs[i];
    } else {
      var i :| 0 <= i < |more| && Brings(p, more[i].1, it);
      assert (evs + more)[|evs| + i] == more[i];
    }
  }

  /** What a stream had, or what this event brought it. */
  ghost predicate OldOrBrought(p: Params, s: seq<Item>, s': Stream, e: Event) {
    forall it :: it in s'.arrived && it.entry.line.Text? ==> it in s || (Brings(p, e, it) && it.origin == s'.token)
  }

  lemma AdmitBrings(p: Params, g: Gateway, now: int, sid: nat, who: string, m: Message)
    requires sid < |g.objs| && g.objs[sid].token == who && Attribution(p, m) == Some(who) && m.raw != ""
    ensures OldOrBrought(p, g.objs[sid].arrived, Deliver(p, g, sid, who, m).objs[sid], Arrival(m))
    ensures OldOrBrought(p, g.objs[sid].arrived, Admit(p, g, now, sid, who, m).objs[sid], Arrival(m))
  {
    hide Attribution, Usable;
    AttributedAsNamed(p, m);
  }

  lemma ArrivalBrings(p: Params, g: Gateway, now: int, m: Message, x: nat)
    requires x < |OnMessage(p, g, now, m).objs|
    ensures OldOrBrought(p, if x < |g.objs| then g.objs[x].arrived else [], OnMessage(p, g, now, m).objs[x], Arrival(m))
  {
    hide Attribution, Deliver, Admit, Brings;
    var who := Attribution(p, m);
    if m.raw != "" && who.Some? {
      var g1 := g.(handled := g.handled + 1);
      match Find(g.objs, g.live, who.value)
      case Some(sid) =>
        DeliveryTouchesOne(p, g1, now, sid, who.value, m);
        AdmitBrings(p, g1, now, sid, who.value, m);
      case None =>
        var g2 := Create(g1, who.value);
        DeliveryTouchesOne(p, g2, now, |g.objs|, who.value, m);
        AdmitBrings(p, g2, now, |g.objs|, who.value, m);
    }
  }

  lemma {:induction false} ReportsBring(p: Params, g: Gateway, ids: seq<nat>, x: nat, e: Event)
    requires InRange(ids, g) && x < |g.objs|
    ensures OldOrBrought(p, g.objs[x].arrived, ReportAll(p, g, ids).objs[x], e)
  {
    hide Brings;
    if ids != [] {
      ReportsBring(p, g, ids[..|ids|-1], x, e);
    }
  }

  lemma BegunBrings(s: Stream)
    ensures Begun(s).arrived == s.arrived && Begun(s).token == s.token
  {
  }

  /** Only a message that names the tenant brings its stream a line. */
  lemma StepBrings(p: Params, g0: Gateway, now: int, e: Event, x: nat)
    requires Enabled(p, g0, now, e) && x < |Step(p, g0, now, e).objs|
    ensures OldOrBrought(p, if x < |g0.objs| then g0.objs[x].arrived else [], Step(p, g0, now, e).objs[x], e)
  {
    hide Select, StartAll, OnMessage, ReportAll, Ended, Brings, Begun;
    var g := g0.(clock := now);
    match e {
    case Arrival(m) => ArrivalBrings(p, g, now, m, x);
    case DropsReported => ReportsBring(p, g, g.live, x, e);
    case TickPosts =>
      var group := First(POSTS_AT_ONCE, g.tick.rest);
      StartAllFacts(p, g.(tick := g.tick.(rest := g.tick.rest[|group|..])), now, group, true);
      if x < |g.objs| { BegunBrings(g.objs[x]); }
    case Signalled =>
      StartAllFacts(p, g, now, g.live, false);
      if x < |g.objs| { BegunBrings(g.objs[x]); }
    case PostReturns(sid, reply) => EndFacts(p, g.objs[sid], reply, now);
    case _ =>
    }
  }

  lemma BroughtStep(p: Params, g: Gateway, seen: seq<Timed>, now: int, e: Event)
    requires Core(p, g) && Enabled(p, g, now, e) && AllBrought(p, g, seen)
    ensures AllBrought(p, Step(p, g, now, e), seen + [(now, e)])
  {
    hide Core, Step, Enabled, Brings, Brought;
    var g' := Step(p, g, now, e);
    forall x, it | 0 <= x < |g'.objs| && it in g'.objs[x].arrived && it.entry.line.Text?
      ensures it.origin == g'.objs[x].token && Brought(p, seen + [(now, e)], it)
    {
      StepBrings(p, g, now, e, x);
      if x < |g.objs| { TokensStay(p, g, now, e, x); }
      if Brings(p, e, it) { BroughtNow(p, now, e, it); }
      BroughtLater(p, seen, [(now, e)], it);
    }
  }

  lemma BroughtNow(p: Params, now: int, e: Event, it: Item)
    requires Brings(p, e, it)
    ensures Brought(p, [(now, e)], it)
  {
    assert Brings(p, [(now, e)][0].1, it);
  }

  lemma {:induction false} BroughtRun(p: Params, g: Gateway, seen: seq<Timed>, evs: seq<Timed>)
    requires Core(p, g) && Legal(p, g, evs) && AllBrought(p, g, seen)
    ensures AllBrought(p, After(p, g, evs), seen + evs)
    decreases |evs|
  {
    hide Step, Enabled, Core, AllBrought;
    if evs == [] {
      assert seen + evs == seen;
    } else {
      var (now, e) := evs[0];
      CoreStep(p, g, now, e);
      BroughtStep(p, g, seen, now, e);
      BroughtRun(p, Step(p, g, now, e), seen + [(now, e)], evs[1..]);
      assert seen + [(now, e)] + evs[1..] == seen + evs;
    }
  }

  /** Every device's line that any stream received in a run was brought by a message of that run that named that stream's tenant. */
  lemma LinesComeAsNamed(p: Params, t: int, boot: PollReply, evs: seq<Timed>, x: nat, it: Item)
    requires Legal(p, Boot(p, t, boot), evs)
    requires var g := After(p, Boot(p, t, boot), evs); x < |g.objs| && it in g.objs[x].arrived && it.entry.line.Text?
    ensures it.origin == After(p, Boot(p, t, boot), evs).objs[x].token && Brought(p, evs, it)
  {
    hide Legal, After, Inv, Brought;
    BootInv(p, t, boot);
    BootBringsNothing(p, t, boot);
    assert Core(p, Boot(p, t, boot)) by { CoreOf(p, Boot(p, t, boot)); }
    hide Core, Boot;
    BroughtRun(p, Boot(p, t, boot), [], evs);
    assert [] + evs == evs;
  }

  lemma CoreOf(p: Params, g: Gateway)
    requires Inv(p, g)
    ensures Core(p, g)
  {
    hide Core, TickInv;
  }

  lemma BootBringsNothing(p: Params, t: int, boot: PollReply)
    ensures AllBrought(p, Boot(p, t, boot), [])
  {
  }

  /** How a POST says whose its lines are, for a message that named them. */
  predicate ClaimedFor(p: Params, m: Message, claim: Claim) {
    match p.mode
    case TunnelMode => claim == SourceIp(p.tunnelKey, m.peer)
    case GatewayMode => m.sdToken.Some? && claim == Bearer(m.sdToken.value)
    case CollectorMode => claim == Bearer(p.key)
  }

  /**
   * End to end: every device's line of every POST of a run says, under the claim of the tenant some
   * message of the run named, what that message said, with the prefix put before its device.
   */
  lemma PostsSayWhatDevicesSaid(p: Params, t: int, boot: PollReply, evs: seq<Timed>, k: nat, i: nat)
    requires Legal(p, Boot(p, t, boot), evs)
    requires var g := After(p, Boot(p, t, boot), evs);
             k < |g.posts| && i < |g.posts[k].items| && g.posts[k].items[i].entry.line.Text?
    ensures var q := After(p, Boot(p, t, boot), evs).posts[k];
            && |q.logs| == |q.items|
            && exists j :: 0 <= j < |evs| && evs[j].1.Arrival? &&
                 var m := evs[j].1.m;
                 Usable(p, m) && ClaimedFor(p, m, q.claim) &&
                 q.logs[i] == Entry(q.prefix + m.device, Text(m.text), m.sev)
  {
    hide Legal, After, Inv, Boot, Usable;
    BootInv(p, t, boot);
    RunInv(p, Boot(p, t, boot), evs);
    var g := After(p, Boot(p, t, boot), evs);
    var q := g.posts[k];
    PostIsSound(p, g, k);
    var it := q.items[i];
    LinesComeAsNamed(p, t, boot, evs, q.sid, it);
    var j :| 0 <= j < |evs| && Brings(p, evs[j].1, it);
    assert q.logs[i] == Entry(q.prefix + evs[j].1.m.device, it.entry.line, it.entry.sev) by { LogOf(q.prefix, q.items, i); }
  }

  lemma LogOf(prefix: string, items: seq<Item>, i: nat)
    requires i < |items|
    ensures Prefixed(prefix, items)[i] == Entry(prefix + items[i].entry.device, items[i].entry.line, items[i].entry.sev)
  {
    assert "" + items[i].entry.device == items[i].entry.device;
  }

  lemma PostIsSound(p: Params, g: Gateway, k: nat)
    requires Inv(p, g) && k < |g.posts|
    ensures PostSound(p, g, g.posts[k])
  {
    hide Streams, Shape, Retired, Balance, TickInv, PostSound;
  }
}
