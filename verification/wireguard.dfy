/**
 * Keeping the tunnel's WireGuard peers equal to the server's list: the plan of
 * `wg` commands, the pass that runs it, and what the interface holds afterwards
 * from whatever state it started in.
 */
module WireGuard {
  import opened Wrappers

  datatype Peer = Peer(ip: string, publicKey: string)

  // ── what `wg set` does ────────────────────────────────────────────────────

  /** The interface: every peer's key with the addresses it may send from. */
  type Interface = map<string, set<string>>

  datatype Command = Remove(key: string) | Allow(key: string, ip: string)

  /** `allowed-ips` replaces what the key had, and takes the address away from every other key. */
  function Exec(s: Interface, c: Command): Interface {
    match c
    case Remove(key) => s - {key}
    case Allow(key, ip) => (map k | k in s :: s[k] - {ip})[key := {ip}]
  }

  function Run(s: Interface, cmds: seq<Command>): Interface {
    if cmds == [] then s else Exec(Run(s, cmds[..|cmds|-1]), cmds[|cmds|-1])
  }

  /** The command line of a command. */
  function Argv(name: string, c: Command): (argv: seq<string>)
    ensures Parsed(name, argv) == Some(c)
  {
    match c
    case Remove(key) => ["set", name, "peer", key, "remove"]
    case Allow(key, ip) =>
      assert (ip + "/32")[|ip|..] == "/32" && (ip + "/32")[..|ip|] == ip;
      ["set", name, "peer", key, "allowed-ips", ip + "/32"]
  }

  /**
   * What `wg` on this interface makes of a command line: every word counts, and of the ranges an
   * address can be given only "/32" means that address alone. Any other line is not understood.
   */
  function Parsed(name: string, argv: seq<string>): Option<Command> {
    if |argv| < 5 || argv[0] != "set" || argv[1] != name || argv[2] != "peer" then None
    else if |argv| == 5 && argv[4] == "remove" then Some(Remove(argv[3]))
    else if |argv| == 6 && argv[4] == "allowed-ips" && |argv[5]| >= 3 && argv[5][|argv[5]|-3..] == "/32" then
      Some(Allow(argv[3], argv[5][..|argv[5]|-3]))
    else None
  }

  // ── the plan ──────────────────────────────────────────────────────────────

  /** The address the list gives a key: the last entry for it counts. */
  function Wanted(desired: seq<Peer>, key: string): Option<string> {
    if desired == [] then None
    else if desired[|desired|-1].publicKey == key then Some(desired[|desired|-1].ip)
    else Wanted(desired[..|desired|-1], key)
  }

  /** The keys of the list, each once, where it first occurs. */
  function KeysOf(desired: seq<Peer>): seq<string> {
    if desired == [] then []
    else
      var keys := KeysOf(desired[..|desired|-1]);
      var key := desired[|desired|-1].publicKey;
      if key in keys then keys else keys + [key]
  }

  function Removals(current: seq<string>, keys: seq<string>): seq<Command> {
    if current == [] then []
    else Removals(current[..|current|-1], keys) +
         (if current[|current|-1] in keys then [] else [Remove(current[|current|-1])])
  }

  function Applications(keys: seq<string>, want: map<string, string>): (cmds: seq<Command>)
    requires forall k :: k in keys ==> k in want
    ensures |cmds| == |keys|
  {
    seq(|keys|, i requires 0 <= i < |keys| => Allow(keys[i], want[keys[i]]))
  }

  function WantMap(desired: seq<Peer>): (want: map<string, string>)
    ensures forall k :: k in want <==> Wanted(desired, k).Some?
    ensures forall k :: k in want ==> want[k] == Wanted(desired, k).value
    ensures forall k :: k in KeysOf(desired) <==> k in want
    ensures forall i, j :: 0 <= i < j < |KeysOf(desired)| ==> KeysOf(desired)[i] != KeysOf(desired)[j]
  {
    if desired == [] then map[]
    else WantMap(desired[..|desired|-1])[desired[|desired|-1].publicKey := desired[|desired|-1].ip]
  }

  function Plan(current: seq<string>, desired: seq<Peer>): seq<Command> {
    Removals(current, KeysOf(desired)) + Applications(KeysOf(desired), WantMap(desired))
  }

  function Argvs(name: string, cmds: seq<Command>): seq<seq<string>> {
    seq(|cmds|, i requires 0 <= i < |cmds| => Argv(name, cmds[i]))
  }

  /** `new Map(...)`: a key keeps its first place and takes its last value. */
  method BuildWant(desired: seq<Peer>) returns (keys: seq<string>, want: map<string, string>)
    ensures keys == KeysOf(desired) && want == WantMap(desired)
  {
    keys, want := [], map[];
    for i := 0 to |desired|
      invariant keys == KeysOf(desired[..i]) && want == WantMap(desired[..i])
    {
      assert desired[..i+1][..i] == desired[..i];
      var p := desired[i];
      if p.publicKey !in want { keys := keys + [p.publicKey]; }
      want := want[p.publicKey := p.ip];
    }
    assert desired[..|desired|] == desired;
  }

  lemma NoRemovals(name: string, current: seq<string>, keys: seq<string>)
    ensures Argvs(name, Removals(current[..0], keys)) == []
  {
  }

  lemma OneMoreRemoval(current: seq<string>, keys: seq<string>, i: nat)
    requires i < |current|
    ensures var so := Removals(current[..i], keys);
            Removals(current[..i+1], keys) == if current[i] in keys then so else so + [Remove(current[i])]
  {
    assert current[..i+1][..i] == current[..i];
    assert Removals(current[..i], keys) + [] == Removals(current[..i], keys);
  }

  lemma OneMoreApplication(gone: seq<Command>, keys: seq<string>, want: map<string, string>, i: nat)
    requires (forall k :: k in keys ==> k in want) && i < |keys|
    ensures gone + Applications(keys, want)[..i+1] ==
            (gone + Applications(keys, want)[..i]) + [Allow(keys[i], want[keys[i]])]
  {
  }

  lemma ArgvsSnoc(name: string, cmds: seq<Command>, c: Command)
    ensures Argvs(name, cmds + [c]) == Argvs(name, cmds) + [Argv(name, c)]
  {
  }

  /** The keys shown that are not wanted, in the order shown. */
  function Unwanted(current: seq<string>, desired: seq<Peer>): seq<string> {
    if current == [] then []
    else
      var n := |current| - 1;
      Unwanted(current[..n], desired) +
      (if exists i :: 0 <= i < |desired| && desired[i].publicKey == current[n] then [] else [current[n]])
  }

  /** An entry of the list has the key, and every key listed before that entry comes before it here. */
  ghost predicate FirstListed(desired: seq<Peer>, keys: seq<string>, k: nat)
    requires k < |keys|
  {
    && keys[k] !in keys[..k]
    && exists i :: 0 <= i < |desired| && desired[i].publicKey == keys[k] &&
         forall j :: 0 <= j < i ==> desired[j].publicKey in keys[..k]
  }

  lemma {:induction false} KeysAreFirstListed(desired: seq<Peer>, k: nat)
    requires k < |KeysOf(desired)|
    ensures FirstListed(desired, KeysOf(desired), k)
  {
    var n, keys := |desired| - 1, KeysOf(desired);
    var before := KeysOf(desired[..n]);
    if k < |before| {
      KeysAreFirstListed(desired[..n], k);
      assert keys[..k] == before[..k];
      var i :| 0 <= i < n && desired[..n][i].publicKey == before[k] &&
               forall j :: 0 <= j < i ==> desired[..n][j].publicKey in before[..k];
      assert desired[i].publicKey == keys[k] && forall j :: 0 <= j < i ==> desired[j] == desired[..n][j];
    } else {
      assert keys[..k] == before && desired[n].publicKey == keys[k];
      forall j | 0 <= j < n ensures desired[j].publicKey in before {
        assert desired[..n][j].publicKey == desired[j].publicKey;
        WantedKeys(desired[..n], desired[j].publicKey);
      }
    }
  }

  /**
   * The command lines, word for word: each key not wanted is removed, then each wanted key, as the
   * list first has them, is given its one address.
   */
  ghost predicate WordForWord(current: seq<string>, desired: seq<Peer>, name: string, out: seq<seq<string>>) {
    var gone, keys := Unwanted(current, desired), KeysOf(desired);
    && |out| == |gone| + |keys|
    && (forall k :: 0 <= k < |keys| ==> FirstListed(desired, keys, k))
    && (forall i :: 0 <= i < |gone| ==> out[i] == ["set", name, "peer", gone[i], "remove"])
    && (forall i :: 0 <= i < |keys| ==>
          Wanted(desired, keys[i]).Some? &&
          out[|gone| + i] == ["set", name, "peer", keys[i], "allowed-ips", Wanted(desired, keys[i]).value + "/32"])
  }

  lemma {:induction false} WantedKeys(desired: seq<Peer>, key: string)
    ensures key in KeysOf(desired) <==> exists i :: 0 <= i < |desired| && desired[i].publicKey == key
  {
    if desired != [] {
      var n := |desired| - 1;
      WantedKeys(desired[..n], key);
      if key in KeysOf(desired[..n]) {
        var i :| 0 <= i < n && desired[..n][i].publicKey == key;
        assert desired[i].publicKey == key;
      }
      if exists i :: 0 <= i < |desired| && desired[i].publicKey == key {
        var i :| 0 <= i < |desired| && desired[i].publicKey == key;
        if i < n { assert desired[..n][i].publicKey == key; }
      }
      assert desired[n].publicKey == key ==> key in KeysOf(desired);
    }
  }

  lemma {:induction false} RemovalsUnwanted(current: seq<string>, desired: seq<Peer>)
    ensures var gone, r := Unwanted(current, desired), Removals(current, KeysOf(desired));
            |r| == |gone| && forall i :: 0 <= i < |gone| ==> r[i] == Remove(gone[i])
  {
    hide KeysOf;
    if current != [] {
      var n := |current| - 1;
      RemovalsUnwanted(current[..n], desired);
      WantedKeys(desired, current[n]);
    }
  }

  lemma PlanWordForWord(current: seq<string>, desired: seq<Peer>, name: string)
    ensures WordForWord(current, desired, name, Argvs(name, Plan(current, desired)))
  {
    hide Unwanted, Removals, KeysOf, FirstListed;
    RemovalsUnwanted(current, desired);
    var keys, want := KeysOf(desired), WantMap(desired);
    forall i | 0 <= i < |keys|
      ensures FirstListed(desired, keys, i)
      ensures Wanted(desired, keys[i]).Some? && want[keys[i]] == Wanted(desired, keys[i]).value
    {
      KeysAreFirstListed(desired, i);
      assert keys[i] in want;
    }
  }

  /** The last entry that has the key has this address. */
  ghost predicate LastListed(desired: seq<Peer>, key: string, ip: string) {
    exists i :: LastEntry(desired, key, ip, i)
  }

  predicate LastEntry(desired: seq<Peer>, key: string, ip: string, i: int) {
    0 <= i < |desired| && desired[i] == Peer(ip, key) && forall j :: i < j < |desired| ==> desired[j].publicKey != key
  }

  /** The address a key is wanted at is the one in the last entry that has it. */
  lemma {:induction false} WantedIsLast(desired: seq<Peer>, key: string, ip: string)
    ensures Wanted(desired, key) == Some(ip) <==> LastListed(desired, key, ip)
  {
    if desired != [] {
      var n := |desired| - 1;
      var before := desired[..n];
      WantedIsLast(before, key, ip);
      if desired[n].publicKey == key {
        assert desired[n].ip == ip ==> LastEntry(desired, key, ip, n);
      } else {
        assert forall i :: LastEntry(before, key, ip, i) ==> LastEntry(desired, key, ip, i);
        assert forall i :: LastEntry(desired, key, ip, i) ==> LastEntry(before, key, ip, i);
      }
    }
  }

  method WgCommands(current: seq<string>, desired: seq<Peer>, name: string) returns (out: seq<seq<string>>)
    ensures out == Argvs(name, Plan(current, desired))
    ensures WordForWord(current, desired, name, out)
  {
    hide Argvs, KeysOf, Applications, Removals, WordForWord;
    var keys, want := BuildWant(desired);
    PlanWordForWord(current, desired, name);
    out := [];
    NoRemovals(name, current, keys);
    for i := 0 to |current|
      invariant out == Argvs(name, Removals(current[..i], keys))
    {
      OneMoreRemoval(current, keys, i);
      ArgvsSnoc(name, Removals(current[..i], keys), Remove(current[i]));
      if current[i] !in want { out := out + [["set", name, "peer", current[i], "remove"]]; }
    }
    assert current[..|current|] == current;
    ghost var gone := Removals(current, keys);
    assert gone + Applications(keys, want)[..0] == gone;
    for i := 0 to |keys|
      invariant out == Argvs(name, gone + Applications(keys, want)[..i])
    {
      ghost var so, next := gone + Applications(keys, want)[..i], Allow(keys[i], want[keys[i]]);
      assert gone + Applications(keys, want)[..i+1] == so + [next] by { OneMoreApplication(gone, keys, want, i); }
      ArgvsSnoc(name, so, next);
      out := out + [["set", name, "peer", keys[i], "allowed-ips", want[keys[i]] + "/32"]];
    }
    assert Applications(keys, want)[..|keys|] == Applications(keys, want);
  }

  // ── what a pass leaves behind ─────────────────────────────────────────────

  /** A later key of the list asks for the same address. */
  ghost predicate Outbid(keys: seq<string>, want: map<string, string>, key: string)
    requires forall k :: k in keys ==> k in want
  {
    exists i, j :: 0 <= i < j < |keys| && keys[i] == key && want[keys[j]] == want[key]
  }

  /** The addresses asked for. */
  function Addresses(keys: seq<string>, want: map<string, string>): set<string>
    requires forall k :: k in keys ==> k in want
  {
    set k | k in keys :: want[k]
  }

  ghost function Settled(s: Interface, keys: seq<string>, want: map<string, string>): Interface
    requires forall k :: k in keys ==> k in want
  {
    map k | k in s.Keys + (set k | k in keys) ::
      if k !in keys then s[k] - Addresses(keys, want)
      else if Outbid(keys, want, k) then {}
      else {want[k]}
  }

  lemma {:induction false} RunJoins(s: Interface, a: seq<Command>, b: seq<Command>)
    ensures Run(s, a + b) == Run(Run(s, a), b)
  {
    if b == [] {
      assert a + b == a;
    } else {
      assert (a + b)[..|a + b|-1] == a + b[..|b|-1];
      RunJoins(s, a, b[..|b|-1]);
    }
  }

  lemma RunSnoc(s: Interface, cmds: seq<Command>, c: Command)
    ensures Run(s, cmds + [c]) == Exec(Run(s, cmds), c)
  {
    assert (cmds + [c])[..|cmds|] == cmds;
  }

  /** The interface without the keys that were shown and are not wanted. */
  function Left(s: Interface, current: seq<string>, keys: seq<string>): Interface {
    map k | k in s && (k !in current || k in keys) :: s[k]
  }

  lemma {:induction false} RemovalsRun(s: Interface, current: seq<string>, keys: seq<string>)
    ensures Run(s, Removals(current, keys)) == Left(s, current, keys)
  {
    hide Exec;
    if current == [] {
      assert Left(s, current, keys) == s;
    } else {
      var n := |current| - 1;
      RemovalsRun(s, current[..n], keys);
      LeftByOneMore(s, current, keys);
      var before := Removals(current[..n], keys);
      assert before + [] == before;
      RunSnoc(s, before, Remove(current[n]));
    }
  }

  lemma LeftByOneMore(s: Interface, current: seq<string>, keys: seq<string>)
    requires current != []
    ensures var n := |current| - 1;
            var before := Left(s, current[..n], keys);
            Left(s, current, keys) == if current[n] in keys then before else Exec(before, Remove(current[n]))
  {
    var n := |current| - 1;
    assert current == current[..n] + [current[n]];
  }

  lemma SettledByNone(s: Interface, want: map<string, string>)
    ensures Settled(s, [], want) == s
  {
    assert forall k :: k in s ==> s[k] - Addresses([], want) == s[k];
    assert Settled(s, [], want).Keys == s.Keys;
  }

  lemma SettledByOneMore(s: Interface, head: seq<string>, key: string, want: map<string, string>)
    requires key in want && key !in head && forall k :: k in head ==> k in want
    ensures Settled(s, head + [key], want) == Exec(Settled(s, head, want), Allow(key, want[key]))
  {
    hide Outbid, Addresses;
    var keys := head + [key];
    assert forall k :: k in keys <==> k in head || k == key;
    LastIsNotOutbid(head, key, want);
    var before, after := Settled(s, head, want), Settled(s, keys, want);
    var exec := Exec(before, Allow(key, want[key]));
    assert after.Keys == exec.Keys;
    forall k | k in after && k != key
      ensures after[k] == before[k] - {want[key]}
    {
      SettledFor(s, head, key, want, k);
    }
  }

  /** One other key, before and after one more command. */
  lemma SettledFor(s: Interface, head: seq<string>, key: string, want: map<string, string>, k: string)
    requires key in want && key !in head && (forall k :: k in head ==> k in want)
    requires k != key && (k in head || k in s)
    ensures forall k :: k in head + [key] ==> k in want
    ensures Settled(s, head + [key], want)[k] == Settled(s, head, want)[k] - {want[key]}
  {
    hide Outbid, Addresses;
    assert forall k :: k in head + [key] <==> k in head || k == key;
    if k in head { OutbidByOneMore(head, key, want, k); } else { MoreAddresses(head, key, want); }
  }

  lemma MoreAddresses(head: seq<string>, key: string, want: map<string, string>)
    requires key in want && forall k :: k in head ==> k in want
    ensures Addresses(head + [key], want) == Addresses(head, want) + {want[key]}
  {
    var keys := head + [key];
    assert forall k :: k in keys <==> k in head || k == key;
  }

  lemma LastIsNotOutbid(head: seq<string>, key: string, want: map<string, string>)
    requires key in want && key !in head && forall k :: k in head ==> k in want
    ensures !Outbid(head + [key], want, key)
  {
    var keys := head + [key];
    assert forall i :: 0 <= i < |head| ==> keys[i] == head[i];
  }

  lemma {:induction false} ApplicationsRun(s: Interface, keys: seq<string>, want: map<string, string>)
    requires forall k :: k in keys ==> k in want
    requires forall i, j :: 0 <= i < j < |keys| ==> keys[i] != keys[j]
    ensures Run(s, Applications(keys, want)) == Settled(s, keys, want)
  {
    hide Settled, Exec;
    if keys == [] {
      SettledByNone(s, want);
    } else {
      var n := |keys| - 1;
      var head := keys[..n];
      assert keys == head + [keys[n]];
      assert Applications(keys, want)[..n] == Applications(head, want);
      ApplicationsRun(s, head, want);
      SettledByOneMore(s, head, keys[n], want);
    }
  }

  lemma OutbidByOneMore(head: seq<string>, last: string, want: map<string, string>, key: string)
    requires last in want && forall k :: k in head ==> k in want
    requires key in head
    ensures Outbid(head + [last], want, key) <==> Outbid(head, want, key) || want[key] == want[last]
  {
    var n, keys := |head|, head + [last];
    assert forall i :: 0 <= i < n ==> keys[i] == head[i];
    if Outbid(head, want, key) {
      var i, j :| 0 <= i < j < n && head[i] == key && want[head[j]] == want[key];
      assert keys[i] == key && want[keys[j]] == want[key];
    }
    if want[key] == want[last] {
      var i :| 0 <= i < n && head[i] == key;
      assert keys[i] == key && want[keys[n]] == want[key];
    }
    if Outbid(keys, want, key) && want[key] != want[last] {
      var i, j :| 0 <= i < j < |keys| && keys[i] == key && want[keys[j]] == want[key];
      assert head[i] == key && want[head[j]] == want[key];
    }
  }

  /**
   * What a pass does to any interface at all: keys the list has end with exactly their address, or
   * with none if a later key asks for the same one; keys that were shown and are not in the list are
   * gone; a key that appeared since then keeps what nobody in the list asked for.
   */
  lemma PassSettles(s: Interface, current: seq<string>, desired: seq<Peer>)
    ensures var want := WantMap(desired);
            Run(s, Plan(current, desired)) == Settled(Left(s, current, KeysOf(desired)), KeysOf(desired), want)
  {
    var keys, want := KeysOf(desired), WantMap(desired);
    RunJoins(s, Removals(current, keys), Applications(keys, want));
    RemovalsRun(s, current, keys);
    ApplicationsRun(Run(s, Removals(current, keys)), keys, want);
  }

  /** What the server asked for: every key with its one address. */
  function Target(desired: seq<Peer>): Interface {
    var want := WantMap(desired);
    map k | k in want :: {want[k]}
  }

  /** No two keys of the list end up asking for the same address. */
  ghost predicate OneKeyPerAddress(desired: seq<Peer>) {
    var want := WantMap(desired);
    forall k, l :: k in want && l in want && want[k] == want[l] ==> k == l
  }

  ghost predicate Shown(s: Interface, current: seq<string>) {
    forall k :: k in s <==> k in current
  }

  /** With nothing left over, the outcome is the list's alone: it does not depend on the state before. */
  lemma OutcomeOf(s: Interface, current: seq<string>, desired: seq<Peer>)
    requires Shown(s, current)
    ensures var keys, want := KeysOf(desired), WantMap(desired);
            Run(s, Plan(current, desired)) == map k | k in want :: if Outbid(keys, want, k) then {} else {want[k]}
  {
    hide Plan, Outbid;
    PassSettles(s, current, desired);
  }

  lemma OneIsOutbid(keys: seq<string>, want: map<string, string>, k: string, l: string)
    requires forall k :: k in keys ==> k in want
    requires k in keys && l in keys && k != l && want[k] == want[l]
    ensures Outbid(keys, want, k) || Outbid(keys, want, l)
  {
    var i, j :| 0 <= i < |keys| && 0 <= j < |keys| && keys[i] == k && keys[j] == l;
    assert Outbid(keys, want, if i < j then k else l);
  }

  lemma NobodyOutbid(desired: seq<Peer>)
    ensures OneKeyPerAddress(desired) <==>
            forall k :: k in KeysOf(desired) ==> !Outbid(KeysOf(desired), WantMap(desired), k)
  {
    var keys, want := KeysOf(desired), WantMap(desired);
    if !OneKeyPerAddress(desired) {
      var k, l :| k in want && l in want && want[k] == want[l] && k != l;
      OneIsOutbid(keys, want, k, l);
    }
  }

  /** A pass reaches what the server asked for, from any drifted state, exactly when no address is asked for twice. */
  lemma Converges(s: Interface, current: seq<string>, desired: seq<Peer>)
    requires Shown(s, current)
    ensures Run(s, Plan(current, desired)) == Target(desired) <==> OneKeyPerAddress(desired)
  {
    hide Plan, Outbid, OneKeyPerAddress, KeysOf;
    var keys, want := KeysOf(desired), WantMap(desired);
    OutcomeOf(s, current, desired);
    NobodyOutbid(desired);
    var r := Run(s, Plan(current, desired));
    if r == Target(desired) {
      forall k | k in keys
        ensures !Outbid(keys, want, k)
      {
        assert r[k] == {want[k]};
        assert want[k] in r[k];
      }
    }
  }

  /** Whatever the list says, a complete pass leaves each address with at most one key, and that key is the list's. */
  lemma NobodyElseSends(s: Interface, current: seq<string>, desired: seq<Peer>, key: string, ip: string)
    requires Shown(s, current)
    requires var r := Run(s, Plan(current, desired)); key in r && ip in r[key]
    ensures Wanted(desired, key) == Some(ip)
    ensures forall k :: k in Run(s, Plan(current, desired)) && k != key ==> ip !in Run(s, Plan(current, desired))[k]
  {
    var keys, want := KeysOf(desired), WantMap(desired);
    OutcomeOf(s, current, desired);
    var r := Run(s, Plan(current, desired));
    forall k | k in r && k != key
      ensures ip !in r[k]
    {
      if want[k] == ip { OneIsOutbid(keys, want, key, k); }
    }
  }

  /** A second pass changes nothing, in whatever order the interface lists its peers. */
  lemma SecondPassIsIdle(s: Interface, current: seq<string>, again: seq<string>, desired: seq<Peer>)
    requires Shown(s, current) && Shown(Run(s, Plan(current, desired)), again)
    ensures var r := Run(s, Plan(current, desired)); Run(r, Plan(again, desired)) == r
  {
    OutcomeOf(s, current, desired);
    OutcomeOf(Run(s, Plan(current, desired)), again, desired);
  }

  // ── running the plan ──────────────────────────────────────────────────────

  /** The commands that went through. */
  function Worked(cmds: seq<Command>, works: seq<bool>): seq<Command>
    requires |works| == |cmds|
  {
    if cmds == [] then []
    else Worked(cmds[..|cmds|-1], works[..|cmds|-1]) + (if works[|cmds|-1] then [cmds[|cmds|-1]] else [])
  }

  /** Worth a line in the log: a removal, or a key the interface did not have. */
  predicate Notable(current: seq<string>, c: Command) {
    c.Remove? || c.key !in current
  }

  function Notables(current: seq<string>, cmds: seq<Command>): nat {
    if cmds == [] then 0
    else Notables(current, cmds[..|cmds|-1]) + (if Notable(current, cmds[|cmds|-1]) then 1 else 0)
  }

  class Device {
    const name: string
    var peers: Interface

    constructor (name: string, peers: Interface)
      ensures this.name == name && this.peers == peers
    {
      this.name, this.peers := name, peers;
    }

    /** `execFileSync`: a command that is understood takes effect, or fails; one that is not leaves the interface alone. */
    method Execute(argv: seq<string>, works: bool)
      modifies this
      ensures var c := Parsed(name, argv);
              peers == if works && c.Some? then Exec(old(peers), c.value) else old(peers)
    {
      var c := Parsed(name, argv);
      if works && c.Some? { peers := Exec(peers, c.value); }
    }
  }

  datatype PeersReply = Refused | NotOk | Peers(list: seq<Peer>) | Failed

  /** The commands one after another; a failed one is skipped and not counted. */
  method RunAll(dev: Device, current: seq<string>, cmds: seq<Command>, argvs: seq<seq<string>>, works: seq<bool>)
    returns (changed: nat)
    requires argvs == Argvs(dev.name, cmds) && |works| == |cmds|
    modifies dev
    ensures dev.peers == Run(old(dev.peers), Worked(cmds, works))
    ensures changed == Notables(current, Worked(cmds, works))
  {
    hide Exec, Notable, Argvs, Parsed, Worked, Notables, Run;
    changed := 0;
    assert |argvs| == |cmds| by { ArgvsSize(dev.name, cmds); }
    assert cmds[..0] == [] && works[..0] == [];
    NothingRun(dev.peers, current);
    for i := 0 to |argvs|
      invariant |argvs| == |cmds|
      invariant dev.peers == Run(old(dev.peers), Worked(cmds[..i], works[..i]))
      invariant changed == Notables(current, Worked(cmds[..i], works[..i]))
    {
      OneMoreCommand(old(dev.peers), current, cmds, works, i);
      ArgvOf(dev.name, cmds, argvs, i, current);
      var isNew := argvs[i][4] == "remove" || argvs[i][3] !in current;
      dev.Execute(argvs[i], works[i]);
      if works[i] && isNew { changed := changed + 1; }
    }
    assert cmds[..|cmds|] == cmds && works[..|cmds|] == works;
  }

  lemma ArgvsSize(name: string, cmds: seq<Command>)
    ensures |Argvs(name, cmds)| == |cmds|
  {
  }

  lemma NothingRun(s: Interface, current: seq<string>)
    ensures Worked([], []) == [] && Run(s, []) == s && Notables(current, []) == 0
  {
  }

  lemma ArgvOf(name: string, cmds: seq<Command>, argvs: seq<seq<string>>, i: nat, current: seq<string>)
    requires argvs == Argvs(name, cmds) && i < |cmds|
    ensures |argvs[i]| >= 5 && Parsed(name, argvs[i]) == Some(cmds[i])
    ensures (argvs[i][4] == "remove" || argvs[i][3] !in current) <==> Notable(current, cmds[i])
  {
  }

  lemma OneMoreCommand(s: Interface, current: seq<string>, cmds: seq<Command>, works: seq<bool>, i: nat)
    requires |works| == |cmds| && i < |cmds|
    ensures var before, after := Worked(cmds[..i], works[..i]), Worked(cmds[..i+1], works[..i+1]);
            && Run(s, after) == (if works[i] then Exec(Run(s, before), cmds[i]) else Run(s, before))
            && Notables(current, after) == Notables(current, before) + (if works[i] && Notable(current, cmds[i]) then 1 else 0)
  {
    hide Exec, Notable;
    assert cmds[..i+1][..i] == cmds[..i] && works[..i+1][..i] == works[..i];
    var before := Worked(cmds[..i], works[..i]);
    var more := if works[i] then [cmds[i]] else [];
    assert Worked(cmds[..i+1], works[..i+1]) == before + more;
    RunSnoc(s, before, cmds[i]);
    assert before + [] == before;
    assert (before + [cmds[i]])[..|before|] == before;
  }

  /** A pass: any failure to learn what is wanted or what is there leaves the interface alone. */
  method ReconcilePeers(dev: Device, reply: PeersReply, shown: Option<seq<string>>, works: seq<bool>)
    returns (exit: bool, changed: nat)
    requires reply.Peers? && shown.Some? ==> |works| == |Plan(shown.value, reply.list)|
    modifies dev
    ensures exit <==> reply.Refused?
    ensures if reply.Peers? && shown.Some? then
              var did := Worked(Plan(shown.value, reply.list), works);
              dev.peers == Run(old(dev.peers), did) && changed == Notables(shown.value, did)
            else
              dev.peers == old(dev.peers) && changed == 0
  {
    exit, changed := false, 0;
    if reply.Refused? { return true, 0; }
    if !reply.Peers? || shown.None? { return; }
    var current := shown.value;
    var cmds := WgCommands(current, reply.list, dev.name);
    changed := RunAll(dev, current, Plan(current, reply.list), cmds, works);
  }

  predicate AllWork(works: seq<bool>) {
    forall i :: 0 <= i < |works| ==> works[i]
  }

  lemma {:induction false} AllWorked(cmds: seq<Command>, works: seq<bool>)
    requires |works| == |cmds| && AllWork(works)
    ensures Worked(cmds, works) == cmds
  {
    if cmds != [] {
      AllWorked(cmds[..|cmds|-1], works[..|cmds|-1]);
    }
  }

  lemma {:induction false} NotablesNone(current: seq<string>, cmds: seq<Command>)
    ensures Notables(current, cmds) == 0 <==> forall c :: c in cmds ==> !Notable(current, c)
  {
    hide Notable;
    if cmds != [] {
      var n := |cmds| - 1;
      NotablesNone(current, cmds[..n]);
      assert cmds == cmds[..n] + [cmds[n]];
    }
  }

  lemma {:induction false} RemovalsAre(current: seq<string>, keys: seq<string>)
    ensures forall c :: c in Removals(current, keys) <==> c.Remove? && c.key in current && c.key !in keys
  {
    if current != [] {
      RemovalsAre(current[..|current|-1], keys);
      assert current == current[..|current|-1] + [current[|current|-1]];
    }
  }

  lemma NothingNotable(current: seq<string>, desired: seq<Peer>)
    ensures (forall c :: c in Plan(current, desired) ==> !Notable(current, c)) <==>
            forall k :: k in current <==> k in KeysOf(desired)
  {
    hide KeysOf, Removals, Notable;
    var keys, want := KeysOf(desired), WantMap(desired);
    RemovalsAre(current, keys);
    var gone, kept := Removals(current, keys), Applications(keys, want);
    forall c
      ensures c in Plan(current, desired) <==> c in gone || c in kept
    {
    }
    NotableAre(current);
    if forall c :: c in Plan(current, desired) ==> !Notable(current, c) {
      forall k | k in current
        ensures k in keys
      {
        assert k !in keys ==> Remove(k) in gone;
      }
      forall k | k in keys
        ensures k in current
      {
        var i :| 0 <= i < |keys| && keys[i] == k;
        assert kept[i] == Allow(k, want[k]);
      }
    }
  }

  lemma NotableAre(current: seq<string>)
    ensures forall c :: Notable(current, c) <==> c.Remove? || c.key !in current
  {
  }

  /** When every command goes through, nothing is logged exactly when the keys were already the list's. */
  lemma QuietExactlyWhenSameKeys(current: seq<string>, desired: seq<Peer>, works: seq<bool>)
    requires |works| == |Plan(current, desired)| && AllWork(works)
    ensures Notables(current, Worked(Plan(current, desired), works)) == 0 <==>
            forall k :: k in current <==> Wanted(desired, k).Some?
  {
    hide Plan, KeysOf, Notable;
    AllWorked(Plan(current, desired), works);
    NotablesNone(current, Plan(current, desired));
    NothingNotable(current, desired);
    assert forall k :: k in WantMap(desired) <==> k in KeysOf(desired);
  }

  // ── a pass in which commands fail ─────────────────────────────────────────

  /** The address is this key's only one, and this key is the only one to have it. */
  ghost predicate Alone(r: Interface, key: string, ip: string) {
    key in r && r[key] == {ip} && forall k :: k in r && k != key ==> ip !in r[k]
  }

  lemma ExecAlone(r: Interface, c: Command, key: string, ip: string)
    ensures c == Allow(key, ip) ==> Alone(Exec(r, c), key, ip)
    ensures Alone(r, key, ip) && c.key != key && (c.Allow? ==> c.ip != ip) ==> Alone(Exec(r, c), key, ip)
  {
  }

  /** The last command that goes through for a key, and for its address, decides. */
  lemma {:induction false} LastToWorkWins(s: Interface, cmds: seq<Command>, works: seq<bool>, i: nat)
    requires |works| == |cmds| && i < |cmds| && works[i] && cmds[i].Allow?
    requires forall j :: i < j < |cmds| && works[j] ==>
               cmds[j].key != cmds[i].key && (cmds[j].Allow? ==> cmds[j].ip != cmds[i].ip)
    ensures Alone(Run(s, Worked(cmds, works)), cmds[i].key, cmds[i].ip)
  {
    hide Exec, Alone, Run;
    var n := |cmds| - 1;
    var before := Worked(cmds[..n], works[..n]);
    assert before + [] == before;
    RunSnoc(s, before, cmds[n]);
    ExecAlone(Run(s, before), cmds[n], cmds[i].key, cmds[i].ip);
    if i < n {
      assert cmds[..n][i] == cmds[i] && works[..n][i];
      LastToWorkWins(s, cmds[..n], works[..n], i);
    }
  }

  /**
   * Whatever else fails, a wanted key whose own command goes through ends with exactly its address,
   * and no other key on the interface, not even one whose removal failed, can send from it.
   */
  lemma AppliedKeyIsAlone(s: Interface, current: seq<string>, desired: seq<Peer>, works: seq<bool>, i: nat)
    requires OneKeyPerAddress(desired) && |works| == |Plan(current, desired)| && i < |KeysOf(desired)|
    requires works[|Removals(current, KeysOf(desired))| + i]
    ensures var r, key := Run(s, Worked(Plan(current, desired), works)), KeysOf(desired)[i];
            Wanted(desired, key).Some? && Alone(r, key, Wanted(desired, key).value)
  {
    hide Run, Removals, KeysOf, Worked, Exec, Alone;
    var keys, want := KeysOf(desired), WantMap(desired);
    var gone, kept := Removals(current, keys), Applications(keys, want);
    var cmds := Plan(current, desired);
    forall j | |gone| <= j < |cmds|
      ensures cmds[j] == Allow(keys[j - |gone|], want[keys[j - |gone|]])
    {
      assert cmds[j] == kept[j - |gone|];
    }
    assert keys[i] in keys;
    forall j | |gone| + i < j < |cmds|
      ensures cmds[j].key != keys[i] && cmds[j].ip != want[keys[i]]
    {
      assert keys[j - |gone|] in keys;
    }
    LastToWorkWins(s, cmds, works, |gone| + i);
  }
}
