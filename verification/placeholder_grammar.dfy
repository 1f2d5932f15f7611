/**
 * The whole grammar of a statement, with nothing of the scanner in it: every
 * string is spelled by bits that fit one after another, and however it is spelled
 * its question marks and names, and nothing else, are what the rewriting numbers.
 */
module PlaceholderGrammar {
  import opened Numbers
  import opened PlaceholderModel
  import opened PlaceholderLaws
  import opened PlaceholderTheorems

  /** A character, a literal, a comment, a literal or comment that is never closed, or a placeholder. */
  datatype Bit =
    | Plain(c: char)
    | Closed(quote: char, body: string)
    | Open(quote: char, body: string)
    | LineOf(text: string)
    | Block(text: string)
    | OpenBlock(text: string)
    | Ask
    | AskFor(name: string)

  function Spell(b: Bit): string {
    match b
    case Plain(c) => [c]
    case Closed(q, body) => [q] + body + [q]
    case Open(q, body) => [q] + body
    case LineOf(text) => "--" + text
    case Block(text) => "/*" + text + "*/"
    case OpenBlock(text) => "/*" + text
    case Ask => "?"
    case AskFor(name) => "@" + name
  }

  function Spelled(bits: seq<Bit>): string {
    if bits == [] then "" else Spell(bits[0]) + Spelled(bits[1..])
  }

  predicate Begins(rest: string, c: char) { rest != [] && rest[0] == c }

  predicate Letter(c: char) { 'a' <= c <= 'z' || 'A' <= c <= 'Z' || c == '_' }

  predicate InWord(c: char) { Letter(c) || '0' <= c <= '9' }

  /** A bit is what it says it is when this follows it. */
  predicate Fits(b: Bit, rest: string) {
    match b
    case Plain(c) =>
      && c != '\'' && c != '"' && c != '?'
      && !(c == '-' && Begins(rest, '-')) && !(c == '/' && Begins(rest, '*'))
      && !(c == '@' && rest != [] && Letter(rest[0]))
    case Closed(q, body) => (q == '\'' || q == '"') && Paired(body, q) && !Begins(rest, q)
    case Open(q, body) => (q == '\'' || q == '"') && Paired(body, q) && rest == []
    case LineOf(text) => Lacks(text, '\n') && (rest == [] || rest[0] == '\n')
    case Block(text) => Unclosed(text)
    case OpenBlock(text) => Unclosed(text) && rest == []
    case Ask => true
    case AskFor(name) =>
      && name != [] && Letter(name[0]) && (forall i :: 0 <= i < |name| ==> InWord(name[i]))
      && (rest == [] || !InWord(rest[0]))
  }

  predicate Fit(bits: seq<Bit>) {
    bits == [] || (Fits(bits[0], Spelled(bits[1..])) && Fit(bits[1..]))
  }

  // ── one reading ───────────────────────────────────────────────────────────

  function PieceOf(b: Bit): Piece {
    match b
    case Ask => Question
    case AskFor(name) => Named(name)
    case _ => Inert(Spell(b))
  }

  function PiecesOf(bits: seq<Bit>): seq<Piece> {
    seq(|bits|, i requires 0 <= i < |bits| => PieceOf(bits[i]))
  }

  lemma {:induction false} OpenLen(b: string, q: char)
    requires Paired(b, q)
    ensures QuotedLen(b, q, true) == |b|
  {
    if b == [] {
    } else if b[0] != q && Paired(b[1..], q) {
      OpenLen(b[1..], q);
    } else {
      OpenLen(b[2..], q);
    }
  }

  lemma {:induction false} LineEnds(t: string, rest: string)
    requires Lacks(t, '\n') && (rest == [] || rest[0] == '\n')
    ensures LineLen(t + rest) == |t|
  {
    if t == [] {
      assert t + rest == rest;
    } else {
      assert (t + rest)[1..] == t[1..] + rest;
      LineEnds(t[1..], rest);
    }
  }

  lemma {:induction false} NeverCloses(t: string)
    requires Unclosed(t)
    ensures CloseLen(t) == |t|
  {
    if |t| >= 2 { NeverCloses(t[1..]); }
  }

  lemma {:induction false} NameEnds(t: string, rest: string)
    requires (forall i :: 0 <= i < |t| ==> InWord(t[i])) && (rest == [] || !InWord(rest[0]))
    ensures NameLen(t + rest) == |t|
  {
    if t == [] {
      assert t + rest == rest;
    } else {
      assert (t + rest)[1..] == t[1..] + rest;
      NameEnds(t[1..], rest);
    }
  }

  /** The first piece of what a bit and its rest spell is that bit. */
  ghost predicate ReadFirst(b: Bit, rest: string) {
    var s := Spell(b) + rest;
    && s != [] && FirstLen(s, true) == |Spell(b)| && FirstPiece(s, true) == PieceOf(b)
    && s[..|Spell(b)|] == Spell(b) && s[|Spell(b)|..] == rest
  }

  lemma LiteralReadFirst(b: Bit, rest: string)
    requires (b.Closed? || b.Open?) && Fits(b, rest)
    ensures ReadFirst(b, rest)
  {
    hide QuotedLen, Paired;
    var s := Spell(b) + rest;
    assert s[..|Spell(b)|] == Spell(b) && s[|Spell(b)|..] == rest;
    if b.Closed? {
      LiteralLen(b.body, b.quote, rest);
      assert s[1..] == b.body + [b.quote] + rest;
    } else {
      OpenLen(b.body, b.quote);
      assert s[1..] == b.body;
    }
  }

  lemma LineReadFirst(text: string, rest: string)
    requires Fits(LineOf(text), rest)
    ensures ReadFirst(LineOf(text), rest)
  {
    hide LineLen, Lacks;
    var s := "--" + text + rest;
    LineEnds(text, rest);
    assert s[..2 + |text|] == "--" + text && s[2 + |text|..] == rest;
    assert s[2..] == text + rest;
  }

  lemma BlockReadFirst(b: Bit, rest: string)
    requires (b.Block? || b.OpenBlock?) && Fits(b, rest)
    ensures ReadFirst(b, rest)
  {
    hide CloseLen, Unclosed;
    var s := Spell(b) + rest;
    assert s[..|Spell(b)|] == Spell(b) && s[|Spell(b)|..] == rest;
    if b.Block? {
      CloseLenIs(b.text, rest);
      assert s[2..] == b.text + "*/" + rest;
    } else {
      NeverCloses(b.text);
      assert s[2..] == b.text;
    }
  }

  lemma NameReadFirst(name: string, rest: string)
    requires Fits(AskFor(name), rest)
    ensures ReadFirst(AskFor(name), rest)
  {
    hide NameLen;
    var s := "@" + name + rest;
    NameEnds(name, rest);
    assert s[..1 + |name|] == "@" + name && s[1 + |name|..] == rest;
    assert s[1..] == name + rest && s[1..1 + |name|] == name;
  }

  lemma SignReadFirst(b: Bit, rest: string)
    requires (b.Plain? || b.Ask?) && Fits(b, rest)
    ensures ReadFirst(b, rest)
  {
    var s := Spell(b) + rest;
    assert s[..1] == Spell(b) && s[1..] == rest;
  }

  lemma BitFirst(b: Bit, rest: string)
    requires Fits(b, rest)
    ensures ReadFirst(b, rest)
  {
    hide Fits, ReadFirst;
    match b {
    case Closed(_, _) => LiteralReadFirst(b, rest);
    case Open(_, _) => LiteralReadFirst(b, rest);
    case AskFor(name) => NameReadFirst(name, rest);
    case Plain(_) => SignReadFirst(b, rest);
    case Ask => SignReadFirst(b, rest);
    case LineOf(text) => LineReadFirst(text, rest);
    case _ => BlockReadFirst(b, rest);
    }
  }

  lemma {:induction false} LexIsBits(bits: seq<Bit>)
    requires Fit(bits)
    ensures Lex(Spelled(bits), true) == PiecesOf(bits)
  {
    hide Fits, Spell, FirstLen, FirstPiece, PieceOf;
    if bits != [] {
      var rest := Spelled(bits[1..]);
      BitFirst(bits[0], rest);
      LexIsBits(bits[1..]);
      assert PiecesOf(bits) == [PieceOf(bits[0])] + PiecesOf(bits[1..]);
    }
  }

  /** Two ways to spell one statement cut it at the same places and have the same placeholders. */
  lemma OneReading(a: seq<Bit>, b: seq<Bit>)
    requires Fit(a) && Fit(b) && Spelled(a) == Spelled(b)
    ensures |a| == |b|
    ensures forall i :: 0 <= i < |a| ==>
              && (a[i].Ask? <==> b[i].Ask?) && (a[i].AskFor? <==> b[i].AskFor?)
              && Spell(a[i]) == Spell(b[i])
  {
    hide Fit, Spelled, Lex;
    LexIsBits(a);
    LexIsBits(b);
    forall i | 0 <= i < |a| ensures PieceOf(a[i]) == PieceOf(b[i]) {
      assert PiecesOf(a)[i] == PiecesOf(b)[i];
    }
  }

  // ── every statement is spelled ────────────────────────────────────────────

  /** A literal seen from inside: closed at a quote no other follows, or never. */
  lemma {:induction false} LiteralEnds(b: string, q: char)
    ensures var n := QuotedLen(b, q, true);
            || (n == |b| && Paired(b, q))
            || (n > 0 && b[n-1] == q && Paired(b[..n-1], q) && !Begins(b[n..], q))
    decreases |b|
  {
    if b == [] {
    } else if b[0] != q {
      LiteralEnds(b[1..], q);
      PairedAfter(b, q, 1);
    } else if |b| > 1 && b[1] == q {
      LiteralEnds(b[2..], q);
      PairedAfter(b, q, 2);
    }
  }

  /** A character that is no quote, or a doubled quote, before what is paired. */
  lemma PairedAfter(b: string, q: char, k: nat)
    requires (k == 1 && |b| > 0 && b[0] != q) || (k == 2 && |b| > 1 && b[0] == b[1] == q)
    ensures Paired(b[k..], q) ==> Paired(b, q)
    ensures forall m: nat :: m <= |b| - k && Paired(b[k..][..m], q) ==> Paired(b[..m + k], q)
  {
    forall m: nat | m <= |b| - k && Paired(b[k..][..m], q) ensures Paired(b[..m + k], q) {
      assert b[..m + k][k..] == b[k..][..m];
    }
  }

  lemma {:induction false} LineIs(s: string)
    ensures var n := LineLen(s); Lacks(s[..n], '\n') && (n == |s| || s[n] == '\n')
  {
    if s != [] && s[0] != '\n' {
      LineIs(s[1..]);
      assert s[..LineLen(s)] == [s[0]] + s[1..][..LineLen(s) - 1];
    }
  }

  lemma {:induction false} BlockEnds(s: string)
    ensures var n := CloseLen(s);
            || (n == |s| && Unclosed(s))
            || (n >= 2 && s[n-2] == '*' && s[n-1] == '/' && Unclosed(s[..n-2]))
  {
    if |s| >= 2 && !(s[0] == '*' && s[1] == '/') {
      BlockEnds(s[1..]);
      var n := CloseLen(s);
      if n >= 3 {
        assert forall i :: 0 < i < |s| ==> s[i] == s[1..][i - 1];
      }
    }
  }

  lemma {:induction false} NameIs(s: string)
    ensures var n := NameLen(s); (forall i :: 0 <= i < n ==> InWord(s[i])) && (n == |s| || !InWord(s[n]))
  {
    if s != [] && NameChar(s[0]) {
      NameIs(s[1..]);
      forall i | 0 < i < NameLen(s) ensures InWord(s[i]) { assert s[i] == s[1..][i - 1]; }
    }
  }

  lemma QuotedBit(s: string) returns (b: Bit)
    requires s != [] && Quote(s[0])
    ensures Spell(b) == s[..FirstLen(s, true)] && Fits(b, s[FirstLen(s, true)..])
  {
    hide QuotedLen, Paired;
    var q, t, n := s[0], s[1..], QuotedLen(s[1..], s[0], true);
    LiteralEnds(t, q);
    assert s[n + 1..] == t[n..];
    if n == |t| && Paired(t, q) {
      b := Open(q, t);
    } else {
      b := Closed(q, t[..n-1]);
      assert t[..n] == t[..n-1] + [q];
    }
    assert s[..n + 1] == [q] + t[..n];
  }

  lemma NoteBit(s: string) returns (b: Bit)
    requires AtLine(s) || AtBlock(s)
    ensures Spell(b) == s[..FirstLen(s, true)] && Fits(b, s[FirstLen(s, true)..])
  {
    hide LineLen, CloseLen, Lacks, Unclosed;
    var t, n := s[2..], FirstLen(s, true) - 2;
    assert s[..n + 2] == s[..2] + t[..n] && s[n + 2..] == t[n..];
    if AtLine(s) {
      LineIs(t);
      b := LineOf(t[..n]);
    } else {
      BlockEnds(t);
      if n == |t| && Unclosed(t) {
        b := OpenBlock(t);
      } else {
        b := Block(t[..n-2]);
        assert t[..n] == t[..n-2] + "*/";
      }
    }
  }

  lemma FirstBit(s: string) returns (b: Bit)
    requires s != []
    ensures Spell(b) == s[..FirstLen(s, true)] && Fits(b, s[FirstLen(s, true)..])
  {
    hide QuotedLen, LineLen, CloseLen, NameLen;
    if Quote(s[0]) {
      b := QuotedBit(s);
    } else if AtLine(s) || AtBlock(s) {
      b := NoteBit(s);
    } else if AtName(s) {
      var n := NameLen(s[1..]);
      NameIs(s[1..]);
      b := AskFor(s[1..n + 1]);
      assert s[..n + 1] == ['@'] + s[1..n + 1] && s[n + 1..] == s[1..][n..];
    } else {
      b := if s[0] == '?' then Ask else Plain(s[0]);
    }
  }

  /** No string is left out of the grammar. */
  lemma {:induction false} EveryStatementIsSpelled(s: string) returns (bits: seq<Bit>)
    ensures Fit(bits) && Spelled(bits) == s
    decreases |s|
  {
    hide Fits, Spell, FirstLen;
    if s == [] {
      bits := [];
    } else {
      var n := FirstLen(s, true);
      var b := FirstBit(s);
      var more := EveryStatementIsSpelled(s[n..]);
      bits := [b] + more;
      assert bits[1..] == more && s == s[..n] + s[n..];
    }
  }

  // ── the rewriting of a spelled statement ──────────────────────────────────

  /** How many question marks. */
  function Asks(bits: seq<Bit>): nat {
    if bits == [] then 0 else (if bits[0].Ask? then 1 else 0) + Asks(bits[1..])
  }

  /** Each name once, the ones before it first: names are listed as they first occur. */
  ghost predicate NamedInOrder(bits: seq<Bit>, names: seq<string>) {
    && (forall i :: 0 <= i < |bits| && bits[i].AskFor? ==> bits[i].name in names)
    && (forall k :: 0 <= k < |names| ==> FirstAsked(bits, names, k))
  }

  /** A place asks for the name, and every name asked for before that place is listed before it. */
  ghost predicate FirstAsked(bits: seq<Bit>, names: seq<string>, k: nat)
    requires k < |names|
  {
    && names[k] !in names[..k]
    && exists i :: 0 <= i < |bits| && bits[i] == AskFor(names[k]) &&
         forall j :: 0 <= j < i && bits[j].AskFor? ==> bits[j].name in names[..k]
  }

  /** The nth question mark is $n, a name is $ its place among the names, and all else stays. */
  ghost predicate WrittenAs(bits: seq<Bit>, names: seq<string>, i: nat, text: string)
    requires i < |bits|
  {
    match bits[i]
    case Ask => text == "$" + Num(Asks(bits[..i]) + 1)
    case AskFor(name) => exists k :: 0 <= k < |names| && names[k] == name && text == "$" + Num(k + 1)
    case _ => text == Spell(bits[i])
  }

  /** The text of a rewriting, bit by bit. */
  ghost predicate Comes(bits: seq<Bit>, text: string, names: seq<string>) {
    exists texts: seq<string> :: |texts| == |bits| && text == Concat(texts) &&
      forall i :: 0 <= i < |bits| ==> WrittenAs(bits, names, i, texts[i])
  }

  lemma {:induction false} AsksAre(bits: seq<Bit>)
    ensures Asks(bits) == Questions(PiecesOf(bits))
  {
    if bits != [] {
      AsksAre(bits[1..]);
      assert PiecesOf(bits)[1..] == PiecesOf(bits[1..]);
    }
  }

  /** What was first asked for in some bits still is with one more, and the one more may ask for a name first. */
  lemma OneMore(bits: seq<Bit>, names: seq<string>, b: Bit)
    requires NamedInOrder(bits, names)
    ensures var all := if b.AskFor? && b.name !in names then names + [b.name] else names;
            NamedInOrder(bits + [b], all)
  {
    var all := if b.AskFor? && b.name !in names then names + [b.name] else names;
    forall k | 0 <= k < |all| ensures FirstAsked(bits + [b], all, k) {
      if k < |names| { StillFirst(bits, names, k, b, all); } else { NowFirst(bits, names, b); }
    }
  }

  lemma StillFirst(bits: seq<Bit>, names: seq<string>, k: nat, b: Bit, all: seq<string>)
    requires k < |names| <= |all| && all[..|names|] == names && FirstAsked(bits, names, k)
    ensures FirstAsked(bits + [b], all, k)
  {
    assert all[..k] == names[..k] && all[k] == names[k];
    var i :| 0 <= i < |bits| && bits[i] == AskFor(names[k]) &&
             forall j :: 0 <= j < i && bits[j].AskFor? ==> bits[j].name in names[..k];
    assert (bits + [b])[i] == AskFor(all[k]);
  }

  lemma NowFirst(bits: seq<Bit>, names: seq<string>, b: Bit)
    requires NamedInOrder(bits, names) && b.AskFor? && b.name !in names
    ensures FirstAsked(bits + [b], names + [b.name], |names|)
  {
    hide FirstAsked;
    assert (names + [b.name])[..|names|] == names;
    assert (bits + [b])[|bits|] == AskFor(b.name);
    FirstAskedHere(bits + [b], names + [b.name], |names|, |bits|);
  }

  lemma FirstAskedHere(bits: seq<Bit>, names: seq<string>, k: nat, i: nat)
    requires k < |names| && i < |bits| && names[k] !in names[..k] && bits[i] == AskFor(names[k])
    requires forall j :: 0 <= j < i && bits[j].AskFor? ==> bits[j].name in names[..k]
    ensures FirstAsked(bits, names, k)
  {
  }

  lemma {:induction false} NamesInOrder(bits: seq<Bit>)
    ensures NamedInOrder(bits, FirstNames(PiecesOf(bits)))
  {
    hide NamedInOrder;
    if bits == [] {
      assert NamedInOrder([], []) by { NobodyAsked(); }
    } else {
      var n := |bits| - 1;
      NamesInOrder(bits[..n]);
      OneMore(bits[..n], FirstNames(PiecesOf(bits[..n])), bits[n]);
      assert bits[..n] + [bits[n]] == bits;
      assert PiecesOf(bits)[..n] == PiecesOf(bits[..n]) && PiecesOf(bits)[n] == PieceOf(bits[n]);
    }
  }

  lemma NobodyAsked()
    ensures NamedInOrder([], [])
  {
  }

  /**
   * Every statement, however it is spelled: it is refused exactly when it has both kinds of
   * placeholder; otherwise it comes back bit by bit, numbered, with its names as they first occur.
   */
  lemma SpelledRewrites(bits: seq<Bit>)
    requires Fit(bits)
    ensures var r := Rewrite(Spelled(bits), true);
            && (r.Mixed? <==> Ask in bits && exists i :: 0 <= i < |bits| && bits[i].AskFor?)
            && (r.Rewritten? ==> NamedInOrder(bits, r.names) && Comes(bits, r.text, r.names))
  {
    hide Fit, Spelled, Lex, Rewrite, Becomes, WrittenAs, FirstNames, Questions, NamedInOrder, Spell;
    var ps := PiecesOf(bits);
    LexIsBits(bits);
    RewritesPieceByPiece(Spelled(bits));
    NamesInOrder(bits);
    KindsAre(bits);
    var r := Rewrite(Spelled(bits), true);
    if r.Rewritten? {
      var texts :| |texts| == |ps| && r.text == Concat(texts) && forall i :: 0 <= i < |ps| ==> Becomes(ps, i, texts[i]);
      forall i | 0 <= i < |bits| ensures WrittenAs(bits, r.names, i, texts[i]) { BitBecomes(bits, i, texts[i]); }
    }
  }

  lemma BitBecomes(bits: seq<Bit>, i: nat, text: string)
    requires i < |bits| && Becomes(PiecesOf(bits), i, text)
    ensures WrittenAs(bits, FirstNames(PiecesOf(bits)), i, text)
  {
    hide Num, FirstNames, Asks, Questions;
    AsksAre(bits[..i]);
    assert PiecesOf(bits)[..i] == PiecesOf(bits[..i]);
  }

  lemma KindsAre(bits: seq<Bit>)
    ensures Questions(PiecesOf(bits)) > 0 <==> Ask in bits
    ensures FirstNames(PiecesOf(bits)) != [] <==> exists i :: 0 <= i < |bits| && bits[i].AskFor?
  {
    hide FirstNames, Questions;
    AsksAre(bits);
    SomeAsk(bits);
    NamesInOrder(bits);
    var names := FirstNames(PiecesOf(bits));
    if names != [] { assert FirstAsked(bits, names, 0); }
  }

  lemma {:induction false} SomeAsk(bits: seq<Bit>)
    ensures Asks(bits) > 0 <==> Ask in bits
  {
    if bits != [] { SomeAsk(bits[1..]); }
  }
}
