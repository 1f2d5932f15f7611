/**
 * Finding the certificate somewhere below a directory: a worklist of directories
 * and a limit on how many are read.
 */
module CertSearch {
  import opened Wrappers

  /** What a directory lists. One that cannot be read lists nothing. */
  datatype Node = File(name: string) | Dir(name: string, readable: bool, entries: seq<Node>)

  type Path = seq<string>

  datatype Place = Place(path: Path, entries: seq<Node>)

  const GUARD: nat := 4096

  function Listed(d: Node): seq<Node>
    requires d.Dir?
  {
    if d.readable then d.entries else []
  }

  /** The places to look next, after the entries of one. */
  function Below(path: Path, ns: seq<Node>): seq<Place> {
    if ns == [] then []
    else Below(path, ns[..|ns|-1]) +
         (if ns[|ns|-1].Dir? then [Place(path + [ns[|ns|-1].name], Listed(ns[|ns|-1]))] else [])
  }

  /** The first file of that name among the entries. */
  function Here(path: Path, ns: seq<Node>, want: string): Option<Path> {
    if ns == [] then None
    else if ns[0].File? && ns[0].name == want then Some(path + [want])
    else Here(path, ns[1..], want)
  }

  function Next(stack: seq<Place>): seq<Place>
    requires stack != []
  {
    stack[..|stack|-1] + Below(stack[|stack|-1].path, stack[|stack|-1].entries)
  }

  function Search(stack: seq<Place>, want: string, limit: nat): Option<Path>
    decreases limit
  {
    if stack == [] || limit == 0 then None
    else
      var here := Here(stack[|stack|-1].path, stack[|stack|-1].entries, want);
      if here.Some? then here else Search(Next(stack), want, limit - 1)
  }

  method Find(root: Path, tree: Node, want: string) returns (found: Option<Path>)
    requires tree.Dir?
    ensures found == Search([Place(root, Listed(tree))], want, GUARD)
  {
    var stack := [Place(root, Listed(tree))];
    ghost var first := stack;
    var guard := 0;
    while |stack| > 0 && guard < GUARD
      invariant guard <= GUARD && Search(first, want, GUARD) == Search(stack, want, GUARD - guard)
      decreases GUARD - guard
    {
      var dir := stack[|stack|-1];
      ghost var before := stack;
      stack := stack[..|stack|-1];
      for i := 0 to |dir.entries|
        invariant stack == before[..|before|-1] + Below(dir.path, dir.entries[..i])
        invariant Here(dir.path, dir.entries, want) == Here(dir.path, dir.entries[i..], want)
      {
        var e := dir.entries[i];
        assert dir.entries[..i+1][..i] == dir.entries[..i] && dir.entries[i..][1..] == dir.entries[i+1..];
        if e.Dir? {
          stack := stack + [Place(dir.path + [e.name], Listed(e))];
        } else if e.name == want {
          return Some(dir.path + [e.name]);
        }
      }
      assert dir.entries[..|dir.entries|] == dir.entries;
      guard := guard + 1;
    }
    found := None;
  }

  // ── what is in the tree ───────────────────────────────────────────────────

  /** The path leads from the entries to a file of that name. */
  predicate Leads(ns: seq<Node>, path: Path, want: string)
    decreases |path|
  {
    && path != []
    && exists e :: e in ns && e.name == path[0] &&
         (if |path| == 1 then e.File? && e.name == want else e.Dir? && Leads(Listed(e), path[1..], want))
  }

  predicate Holds(ns: seq<Node>, want: string)
    decreases ns
  {
    ns != [] &&
    ((if ns[0].File? then ns[0].name == want else ns[0].readable && Holds(ns[0].entries, want)) || Holds(ns[1..], want))
  }

  function Dirs(ns: seq<Node>): nat
    decreases ns
  {
    if ns == [] then 0
    else (if ns[0].File? then 0 else 1 + (if ns[0].readable then Dirs(ns[0].entries) else 0)) + Dirs(ns[1..])
  }

  lemma {:induction false} DirsJoin(a: seq<Node>, b: seq<Node>, want: string)
    ensures Dirs(a + b) == Dirs(a) + Dirs(b)
    ensures Holds(a + b, want) <==> Holds(a, want) || Holds(b, want)
  {
    if a == [] {
      assert a + b == b;
    } else {
      assert (a + b)[1..] == a[1..] + b;
      DirsJoin(a[1..], b, want);
    }
  }

  lemma {:induction false} HereFinds(path: Path, ns: seq<Node>, want: string)
    ensures Here(path, ns, want).Some? <==> exists e :: e in ns && e.File? && e.name == want
    ensures Here(path, ns, want).Some? ==> Here(path, ns, want).value == path + [want]
  {
    if ns != [] {
      HereFinds(path, ns[1..], want);
      assert ns == [ns[0]] + ns[1..];
    }
  }

  // ── the order in which the search reads ───────────────────────────────────

  /** The directories below a listing as the search comes to them: the last one listed, with all below it, then the ones before. */
  function Walk(path: Path, ns: seq<Node>): seq<Place>
    decreases ns
  {
    if ns == [] then []
    else
      var n := |ns| - 1;
      OneWalk(path, ns[n]) + Walk(path, ns[..n])
  }

  function OneWalk(path: Path, e: Node): seq<Place>
    decreases e
  {
    if e.File? then []
    else
      [Place(path + [e.name], Listed(e))] + (if e.readable then Walk(path + [e.name], e.entries) else [])
  }

  /** The same for a worklist, whose last place is read first. */
  function WalkStack(stack: seq<Place>): seq<Place> {
    if stack == [] then []
    else
      var n := |stack| - 1;
      [stack[n]] + Walk(stack[n].path, stack[n].entries) + WalkStack(stack[..n])
  }

  predicate Lists(pl: Place, want: string) {
    exists e :: e in pl.entries && e.File? && e.name == want
  }

  /** Among the first `limit` places, the first to list the file. */
  function FirstHit(places: seq<Place>, want: string, limit: nat): Option<Path> {
    if places == [] || limit == 0 then None
    else if Lists(places[0], want) then Some(places[0].path + [want])
    else FirstHit(places[1..], want, limit - 1)
  }

  lemma {:induction false} StackJoins(a: seq<Place>, b: seq<Place>)
    ensures WalkStack(a + b) == WalkStack(b) + WalkStack(a)
  {
    hide Walk;
    if b == [] {
      assert a + b == a;
    } else {
      assert (a + b)[..|a + b|-1] == a + b[..|b|-1];
      StackJoins(a, b[..|b|-1]);
    }
  }

  lemma {:induction false} BelowIsWalked(path: Path, ns: seq<Node>)
    ensures WalkStack(Below(path, ns)) == Walk(path, ns)
  {
    if ns != [] {
      var n := |ns| - 1;
      BelowIsWalked(path, ns[..n]);
      var one := if ns[n].Dir? then [Place(path + [ns[n].name], Listed(ns[n]))] else [];
      StackJoins(Below(path, ns[..n]), one);
      assert WalkStack(one) == OneWalk(path, ns[n]) by {
        if ns[n].Dir? { assert one[..0] == [] && Walk(path + [ns[n].name], []) == []; }
      }
    }
  }

  /** Reading one place and pushing what it lists leaves the rest of the walk to do. */
  lemma NextWalks(stack: seq<Place>)
    requires stack != []
    ensures WalkStack(stack) == [stack[|stack|-1]] + WalkStack(Next(stack))
  {
    hide Walk, Below;
    var n := |stack| - 1;
    BelowIsWalked(stack[n].path, stack[n].entries);
    StackJoins(stack[..n], Below(stack[n].path, stack[n].entries));
  }

  lemma {:induction false} SearchIsFirstHit(stack: seq<Place>, want: string, limit: nat)
    ensures Search(stack, want, limit) == FirstHit(WalkStack(stack), want, limit)
    decreases limit
  {
    hide Walk, Below, Next, Here;
    if stack != [] && limit > 0 {
      var top := stack[|stack|-1];
      NextWalks(stack);
      HereFinds(top.path, top.entries, want);
      assert WalkStack(stack)[1..] == WalkStack(Next(stack));
      SearchIsFirstHit(Next(stack), want, limit - 1);
    }
  }

  lemma {:induction false} FirstHitIs(places: seq<Place>, want: string, limit: nat)
    ensures var r := FirstHit(places, want, limit);
            && (r.None? ==> forall k :: 0 <= k < |places| && k < limit ==> !Lists(places[k], want))
            && (r.Some? ==> exists k :: 0 <= k < |places| && k < limit && Lists(places[k], want) &&
                              (forall j :: 0 <= j < k ==> !Lists(places[j], want)) && r.value == places[k].path + [want])
  {
    hide Lists;
    if places != [] && limit > 0 {
      var rest := places[1..];
      FirstHitIs(rest, want, limit - 1);
      assert forall k :: 0 <= k < |rest| ==> rest[k] == places[k + 1];
      if Lists(places[0], want) {
        assert FirstHit(places, want, limit).value == places[0].path + [want];
      } else if FirstHit(rest, want, limit - 1).Some? {
        var k :| 0 <= k < |rest| && k < limit - 1 && Lists(rest[k], want) &&
                 (forall j :: 0 <= j < k ==> !Lists(rest[j], want)) &&
                 FirstHit(rest, want, limit - 1).value == rest[k].path + [want];
        forall j | 0 <= j < k + 1
          ensures !Lists(places[j], want)
        {
          if j > 0 { assert places[j] == rest[j - 1]; }
        }
        assert Lists(places[k + 1], want);
      }
    }
  }

  /** Everything under a directory, in the order in which it is read. */
  function Reading(root: Path, tree: Node): seq<Place>
    requires tree.Dir?
  {
    [Place(root, Listed(tree))] + Walk(root, Listed(tree))
  }

  /**
   * For any tree, however big: a path is found exactly when one of the first 4096 directories read
   * lists the file, and it is that of the first that does.
   */
  lemma FoundExactly(root: Path, tree: Node, want: string)
    requires tree.Dir?
    ensures var r, places := Search([Place(root, Listed(tree))], want, GUARD), Reading(root, tree);
            && (r.Some? <==> exists k :: 0 <= k < |places| && k < 4096 && Lists(places[k], want))
            && (r.Some? ==> exists k :: 0 <= k < |places| && k < 4096 && Lists(places[k], want) &&
                              (forall j :: 0 <= j < k ==> !Lists(places[j], want)) && r.value == places[k].path + [want])
  {
    hide Search, Walk, Lists;
    var stack := [Place(root, Listed(tree))];
    assert stack[..0] == [] && WalkStack([]) == [];
    assert WalkStack(stack) == Reading(root, tree);
    SearchIsFirstHit(stack, want, GUARD);
    FirstHitIs(Reading(root, tree), want, GUARD);
  }

  // ── the walk is the tree ──────────────────────────────────────────────────

  predicate SomeLists(places: seq<Place>, want: string) {
    exists k :: 0 <= k < |places| && Lists(places[k], want)
  }

  lemma SomeJoins(a: seq<Place>, b: seq<Place>, want: string)
    ensures SomeLists(a + b, want) <==> SomeLists(a, want) || SomeLists(b, want)
  {
    hide Lists;
    if SomeLists(a, want) {
      var i :| 0 <= i < |a| && Lists(a[i], want);
      assert (a + b)[i] == a[i];
    }
    if SomeLists(b, want) {
      var i :| 0 <= i < |b| && Lists(b[i], want);
      assert (a + b)[|a| + i] == b[i];
    }
  }

  /** The walk reads each readable way down once, and a file is held exactly if the listing or some place on the walk lists it. */
  lemma {:induction false} WalkIsTree(path: Path, ns: seq<Node>, want: string)
    ensures |Walk(path, ns)| == Dirs(ns)
    ensures Holds(ns, want) <==> Lists(Place(path, ns), want) || SomeLists(Walk(path, ns), want)
    decreases ns
  {
    hide Lists;
    if ns == [] {
      NothingListed(path, want);
    } else {
      var n := |ns| - 1;
      WalkIsTree(path, ns[..n], want);
      OneIsTree(path, ns[n], want);
      assert ns == ns[..n] + [ns[n]];
      DirsJoin(ns[..n], [ns[n]], want);
      SomeJoins(OneWalk(path, ns[n]), Walk(path, ns[..n]), want);
      ListedEither(path, ns[..n], ns[n], want);
    }
  }

  lemma {:induction false} OneIsTree(path: Path, e: Node, want: string)
    ensures |OneWalk(path, e)| == Dirs([e])
    ensures Holds([e], want) <==> (e.File? && e.name == want) || SomeLists(OneWalk(path, e), want)
    decreases e
  {
    hide Lists;
    assert [e][1..] == [] && Dirs([]) == 0 && !Holds([], want);
    if e.Dir? {
      var here := Place(path + [e.name], Listed(e));
      NothingListed(path + [e.name], want);
      if e.readable { WalkIsTree(path + [e.name], e.entries, want); }
      var below := if e.readable then Walk(path + [e.name], e.entries) else [];
      SomeJoins([here], below, want);
      assert [here][0] == here;
    }
  }

  lemma NothingListed(path: Path, want: string)
    ensures !Lists(Place(path, []), want) && !SomeLists([], want)
  {
  }

  lemma ListedEither(path: Path, ns: seq<Node>, e: Node, want: string)
    ensures Lists(Place(path, ns + [e]), want) <==> Lists(Place(path, ns), want) || (e.File? && e.name == want)
  {
    assert e in ns + [e];
  }

  lemma {:induction false} BelowAre(path: Path, ns: seq<Node>, i: nat) returns (e: Node)
    requires i < |Below(path, ns)|
    ensures e in ns && e.Dir? && Below(path, ns)[i] == Place(path + [e.name], Listed(e))
  {
    var n := |ns| - 1;
    if i < |Below(path, ns[..n])| {
      e := BelowAre(path, ns[..n], i);
      assert e in ns[..n];
    } else {
      e := ns[n];
    }
  }

  lemma {:induction false} SearchIsSound(stack: seq<Place>, want: string, limit: nat)
    requires Search(stack, want, limit).Some?
    ensures exists i, rest :: 0 <= i < |stack| && Search(stack, want, limit).value == stack[i].path + rest &&
                              Leads(stack[i].entries, rest, want)
    decreases limit
  {
    hide Leads;
    var n := |stack| - 1;
    var top := stack[n];
    HereFinds(top.path, top.entries, want);
    if Here(top.path, top.entries, want).Some? {
      assert Leads(top.entries, [want], want) by { FileLeads(top.entries, want); }
    } else {
      var next := Next(stack);
      SearchIsSound(next, want, limit - 1);
      var found := Search(next, want, limit - 1).value;
      var i, rest :| 0 <= i < |next| && found == next[i].path + rest && Leads(next[i].entries, rest, want);
      if i < n {
        assert stack[i] == next[i];
      } else {
        var more := BelowLeads(top, i - n, rest, want);
        assert next[i] == Below(top.path, top.entries)[i - n];
        assert found == stack[n].path + more;
      }
    }
  }

  lemma FileLeads(ns: seq<Node>, want: string)
    requires exists e :: e in ns && e.File? && e.name == want
    ensures Leads(ns, [want], want)
  {
  }

  lemma BelowLeads(top: Place, i: nat, rest: Path, want: string) returns (more: Path)
    requires i < |Below(top.path, top.entries)| && Leads(Below(top.path, top.entries)[i].entries, rest, want)
    ensures Leads(top.entries, more, want) && Below(top.path, top.entries)[i].path + rest == top.path + more
  {
    hide Below;
    var e := BelowAre(top.path, top.entries, i);
    more := [e.name] + rest;
    assert more[1..] == rest;
    assert |more| > 1 by { assert rest != []; }
  }

  /** A path that is found leads to a file of the wanted name. */
  lemma FoundIsThere(root: Path, tree: Node, want: string)
    requires tree.Dir? && Search([Place(root, Listed(tree))], want, GUARD).Some?
    ensures exists rest :: Search([Place(root, Listed(tree))], want, GUARD).value == root + rest &&
                           Leads(Listed(tree), rest, want)
  {
    SearchIsSound([Place(root, Listed(tree))], want, GUARD);
  }

  /** So in a tree of at most 4096 directories, nothing is found exactly when no directory that can be reached lists the file. */
  lemma NothingMissed(root: Path, tree: Node, want: string)
    requires tree.Dir? && Dirs([tree]) <= 4096
    ensures Search([Place(root, Listed(tree))], want, GUARD).Some? <==> Holds(Listed(tree), want)
  {
    hide Search, Lists, Holds;
    FoundExactly(root, tree, want);
    WalkIsTree(root, Listed(tree), want);
    assert [tree][1..] == [] && Dirs([]) == 0;
    var here := Place(root, Listed(tree));
    SomeJoins([here], Walk(root, Listed(tree)), want);
    assert [here][0] == here;
    assert SomeLists(Reading(root, tree), want) <==> Holds(Listed(tree), want);
  }

  // ── past the limit ────────────────────────────────────────────────────────

  function Empties(n: nat): seq<Node> {
    if n == 0 then [] else Empties(n - 1) + [Dir("e", true, [])]
  }

  function EmptyPlaces(path: Path, n: nat): seq<Place> {
    if n == 0 then [] else EmptyPlaces(path, n - 1) + [Place(path + ["e"], [])]
  }

  lemma BelowSnoc(path: Path, ns: seq<Node>, last: Node)
    requires last.Dir?
    ensures Below(path, ns + [last]) == Below(path, ns) + [Place(path + [last.name], Listed(last))]
  {
    assert (ns + [last])[..|ns|] == ns;
  }

  lemma {:induction false} BelowEmpties(path: Path, ns: seq<Node>, n: nat)
    ensures Below(path, ns + Empties(n)) == Below(path, ns) + EmptyPlaces(path, n)
  {
    hide Below;
    if n == 0 {
      assert ns + [] == ns && Below(path, ns) + [] == Below(path, ns);
    } else {
      var last := Dir("e", true, []);
      assert ns + Empties(n) == (ns + Empties(n - 1)) + [last];
      BelowEmpties(path, ns, n - 1);
      BelowSnoc(path, ns + Empties(n - 1), last);
      assert EmptyPlaces(path, n) == EmptyPlaces(path, n - 1) + [Place(path + ["e"], [])];
    }
  }

  lemma {:induction false} EmptiesExhaust(stack: seq<Place>, path: Path, n: nat, want: string, limit: nat)
    requires limit <= n
    ensures Search(stack + EmptyPlaces(path, n), want, limit) == None
  {
    if limit > 0 {
      var all := stack + EmptyPlaces(path, n);
      assert all[|all|-1].entries == [];
      assert Next(all) == stack + EmptyPlaces(path, n - 1);
      EmptiesExhaust(stack, path, n - 1, want, limit - 1);
    }
  }

  /** The limit is real: with more directories a file that is there can be missed. */
  lemma BiggerTreesCanMiss(root: Path, want: string)
    ensures exists tree: Node :: tree.Dir? && Holds(Listed(tree), want) &&
                                 Search([Place(root, Listed(tree))], want, GUARD) == None
  {
    hide Search, Holds, Below, Empties;
    var first := Dir("d", true, [File(want)]);
    var entries := [first] + Empties(GUARD);
    var tree := Dir("", true, entries);
    var stack := [Place(root, entries)];
    DirsJoin([first], Empties(GUARD), want);
    assert Holds([first], want) by { OneFile(want); }
    NoneAmongEmpties(root, first, GUARD, want);
    OneStep(stack, want);
    BelowEmpties(root, [first], GUARD);
    assert Next(stack) == Below(root, [first]) + EmptyPlaces(root, GUARD);
    EmptiesExhaust(Below(root, [first]), root, GUARD, want, GUARD - 1);
    assert Listed(tree) == entries;
  }

  lemma OneFile(want: string)
    ensures Holds([Dir("d", true, [File(want)])], want)
  {
    assert Holds([File(want)], want);
  }

  lemma OneStep(stack: seq<Place>, want: string)
    requires |stack| == 1 && Here(stack[0].path, stack[0].entries, want) == None
    ensures Search(stack, want, GUARD) == Search(Next(stack), want, GUARD - 1)
  {
  }

  lemma {:induction false} EmptiesAreDirs(n: nat)
    ensures forall e :: e in Empties(n) ==> e.Dir?
  {
    if n > 0 { EmptiesAreDirs(n - 1); }
  }

  lemma NoneAmongEmpties(path: Path, first: Node, n: nat, want: string)
    requires first.Dir?
    ensures Here(path, [first] + Empties(n), want) == None
  {
    EmptiesAreDirs(n);
    HereFinds(path, [first] + Empties(n), want);
  }
}
