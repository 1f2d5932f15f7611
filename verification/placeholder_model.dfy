/**
 * The rewriter that turns SQLite's placeholders into Postgres's: `?` becomes
 * `$1`, `$2`, ... and `@name` becomes `$n`, a repeated name keeping its number;
 * string literals, quoted identifiers and comments pass through untouched.
 */
module PlaceholderModel {
  import opened Numbers

  // ── the pieces of a statement ─────────────────────────────────────────────

  /** Text to copy, or a placeholder. */
  datatype Piece = Inert(text: string) | Question | Named(name: string)

  predicate Quote(c: char) { c == '\'' || c == '"' }

  predicate NameStart(c: char) { 'A' <= c <= 'Z' || 'a' <= c <= 'z' || c == '_' }

  predicate NameChar(c: char) { NameStart(c) || Digit(c) }

  /** What is left of a literal, up to and with its closing quote. `doubled`: a doubled quote is a quote inside it. */
  function QuotedLen(s: string, q: char, doubled: bool): (n: nat)
    ensures n <= |s| && (s != [] ==> n > 0)
  {
    if s == [] then 0
    else if s[0] != q then 1 + QuotedLen(s[1..], q, doubled)
    else if doubled && |s| > 1 && s[1] == q then 2 + QuotedLen(s[2..], q, doubled)
    else 1
  }

  /** Up to the end of the line, without it. */
  function LineLen(s: string): (n: nat)
    ensures n <= |s| && (n < |s| ==> s[n] == '\n')
  {
    if s == [] || s[0] == '\n' then 0 else 1 + LineLen(s[1..])
  }

  /** What is left of a block comment, up to and with its closing. */
  function CloseLen(s: string): (n: nat)
    ensures n <= |s|
  {
    if |s| < 2 then |s|
    else if s[0] == '*' && s[1] == '/' then 2
    else 1 + CloseLen(s[1..])
  }

  function NameLen(s: string): (n: nat)
    ensures n <= |s| && (n < |s| ==> !NameChar(s[n]))
  {
    if s == [] || !NameChar(s[0]) then 0 else 1 + NameLen(s[1..])
  }

  predicate AtName(s: string) { |s| > 1 && s[0] == '@' && NameStart(s[1]) }

  predicate AtLine(s: string) { |s| > 1 && s[0] == '-' && s[1] == '-' }

  predicate AtBlock(s: string) { |s| > 1 && s[0] == '/' && s[1] == '*' }

  /** How much of a statement its first piece takes. */
  function FirstLen(s: string, doubled: bool): (n: nat)
    requires s != []
    ensures 0 < n <= |s|
  {
    if Quote(s[0]) then 1 + QuotedLen(s[1..], s[0], doubled)
    else if AtLine(s) then 2 + LineLen(s[2..])
    else if AtBlock(s) then 2 + CloseLen(s[2..])
    else if AtName(s) then 1 + NameLen(s[1..])
    else 1
  }

  function FirstPiece(s: string, doubled: bool): Piece
    requires s != []
  {
    if s[0] == '?' then Question
    else if AtName(s) then Named(s[1..FirstLen(s, doubled)])
    else Inert(s[..FirstLen(s, doubled)])
  }

  function Lex(s: string, doubled: bool): seq<Piece> {
    if s == [] then [] else [FirstPiece(s, doubled)] + Lex(s[FirstLen(s, doubled)..], doubled)
  }

  // ── what is written for them ──────────────────────────────────────────────

  /** The numbers given out so far. */
  datatype Slots = Slots(n: nat, positional: nat, names: seq<string>, index: map<string, nat>)

  const NONE_YET := Slots(0, 0, [], map[])

  function Take(p: Piece, st: Slots): Slots {
    match p
    case Inert(_) => st
    case Question => st.(n := st.n + 1, positional := st.positional + 1)
    case Named(name) =>
      if name in st.index then st
      else st.(n := st.n + 1, names := st.names + [name], index := st.index[name := st.n + 1])
  }

  /** What is written for a piece, given the numbers already given out. */
  function Written(p: Piece, st: Slots): string {
    match p
    case Inert(text) => text
    case Question => "$" + Num(st.n + 1)
    case Named(name) => "$" + Num(if name in st.index then st.index[name] else st.n + 1)
  }

  function Text(ps: seq<Piece>, st: Slots): string {
    if ps == [] then "" else Written(ps[0], st) + Text(ps[1..], Take(ps[0], st))
  }

  function Final(ps: seq<Piece>, st: Slots): Slots {
    if ps == [] then st else Final(ps[1..], Take(ps[0], st))
  }

  datatype Rewriting = Mixed | Rewritten(text: string, names: seq<string>)

  function Outcome(text: string, st: Slots): Rewriting {
    if st.positional > 0 && st.names != [] then Mixed else Rewritten(text, st.names)
  }

  function Rewrite(sql: string, doubled: bool): Rewriting {
    Outcome(Text(Lex(sql, doubled), NONE_YET), Final(Lex(sql, doubled), NONE_YET))
  }

  // ── the scanner ───────────────────────────────────────────────────────────

  /** A suffix of a suffix. */
  lemma Drops(s: string, i: nat, n: nat)
    requires i + n <= |s|
    ensures s[i..][n..] == s[i+n..] && s[i..][..n] == s[i..i+n]
  {
  }

  /** What is left of a literal, seen from inside it. */
  lemma LiteralStep(sql: string, i: nat, q: char)
    requires i <= |sql|
    ensures var left := QuotedLen(sql[i..], q, true);
            if i == |sql| then left == 0
            else if sql[i] != q then left == 1 + QuotedLen(sql[i+1..], q, true)
            else if i + 1 < |sql| && sql[i + 1] == q then left == 2 + QuotedLen(sql[i+2..], q, true)
            else left == 1
  {
    if i < |sql| { Drops(sql, i, 1); }
    if i + 1 < |sql| { Drops(sql, i, 2); }
  }

  /** The loop inside a literal: from just after the opening quote to just after the closing one. */
  method CopyLiteral(sql: string, from: nat, quote: char) returns (copied: string, i: nat)
    requires from <= |sql|
    ensures i == from + QuotedLen(sql[from..], quote, true) && copied == sql[from..i]
  {
    hide QuotedLen;
    copied, i := "", from;
    LiteralStep(sql, |sql|, quote);
    while i < |sql|
      invariant from <= i <= |sql| && copied == sql[from..i]
      invariant i + QuotedLen(sql[i..], quote, true) == from + QuotedLen(sql[from..], quote, true)
    {
      LiteralStep(sql, i, quote);
      assert sql[from..i+1] == sql[from..i] + [sql[i]];
      if sql[i] == quote {
        if i + 1 < |sql| && sql[i + 1] == quote {
          assert sql[from..i+2] == sql[from..i] + [quote, quote];
          copied := copied + [quote, quote];
          i := i + 2;
          continue;
        }
        copied := copied + [quote];
        i := i + 1;
        return;
      }
      copied := copied + [sql[i]];
      i := i + 1;
    }
  }

  lemma OnePiece(sql: string, i: nat, st: Slots)
    requires i < |sql|
    ensures var s := sql[i..];
            i + FirstLen(s, true) <= |sql| &&
            var p, rest := FirstPiece(s, true), sql[i + FirstLen(s, true)..];
            && Text(Lex(s, true), st) == Written(p, st) + Text(Lex(rest, true), Take(p, st))
            && Final(Lex(s, true), st) == Final(Lex(rest, true), Take(p, st))
  {
    var s := sql[i..];
    Drops(sql, i, FirstLen(s, true));
    assert Lex(s, true)[1..] == Lex(s[FirstLen(s, true)..], true);
  }

  /** One turn of the scanner's loop. */
  method ScanOne(sql: string, from: nat, st: Slots) returns (written: string, i: nat, st': Slots)
    requires from < |sql|
    ensures i == from + FirstLen(sql[from..], true) <= |sql|
    ensures var p := FirstPiece(sql[from..], true); written == Written(p, st) && st' == Take(p, st)
  {
    hide FirstLen, FirstPiece, Take, Written, Num;
    Shapes(sql, from, st);
    i, st' := from, st;
    var c := sql[i];
    if Quote(c) {
      var copied, after := CopyLiteral(sql, i + 1, c);
      assert [c] + sql[i+1..after] == sql[i..after];
      written, i := [c] + copied, after;
    } else if c == '-' && i + 1 < |sql| && sql[i + 1] == '-' {
      var stop := i + 2 + LineLen(sql[i+2..]);
      written, i := sql[i..stop], stop;
    } else if c == '/' && i + 1 < |sql| && sql[i + 1] == '*' {
      var stop := i + 2 + CloseLen(sql[i+2..]);
      written, i := sql[i..stop], stop;
    } else if c == '?' {
      st' := st.(positional := st.positional + 1, n := st.n + 1);
      written, i := "$" + Num(st'.n), i + 1;
    } else if c == '@' && i + 1 < |sql| && NameStart(sql[i + 1]) {
      var name := sql[i+1..i+1+NameLen(sql[i+1..])];
      if name !in st.index {
        st' := st.(n := st.n + 1, index := st.index[name := st.n + 1], names := st.names + [name]);
      }
      written, i := "$" + Num(st'.index[name]), i + 1 + |name|;
    } else {
      written, i := [c], i + 1;
    }
  }

  method RewritePlaceholders(sql: string) returns (r: Rewriting)
    ensures r == Rewrite(sql, true)
  {
    hide Lex, Text, Final, FirstLen, FirstPiece, Take, Written;
    var out := "";
    var st := NONE_YET;
    var i := 0;
    assert sql[0..] == sql;
    while i < |sql|
      invariant i <= |sql|
      invariant out + Text(Lex(sql[i..], true), st) == Text(Lex(sql, true), NONE_YET)
      invariant Final(Lex(sql[i..], true), st) == Final(Lex(sql, true), NONE_YET)
      decreases |sql| - i
    {
      OnePiece(sql, i, st);
      var written, after, next := ScanOne(sql, i, st);
      out, i, st := out + written, after, next;
    }
    assert sql[i..] == "";
    AtTheEnd(true, st);
    r := if st.positional > 0 && |st.names| > 0 then Mixed else Rewritten(out, st.names);
  }

  lemma AtTheEnd(doubled: bool, st: Slots)
    ensures Text(Lex("", doubled), st) == "" && Final(Lex("", doubled), st) == st
  {
  }

  /** The first piece of what is left, case by case as the scanner meets it. */
  lemma Shapes(sql: string, i: nat, st: Slots)
    requires i < |sql|
    ensures var s, c, n := sql[i..], sql[i], FirstLen(sql[i..], true);
            var p := FirstPiece(s, true);
            && 0 < n <= |s|
            && (if Quote(c) then n == 1 + QuotedLen(sql[i+1..], c, true) && p == Inert(sql[i..i+n])
                else if AtLine(s) then n == 2 + LineLen(sql[i+2..]) && p == Inert(sql[i..i+n])
                else if AtBlock(s) then n == 2 + CloseLen(sql[i+2..]) && p == Inert(sql[i..i+n])
                else if c == '?' then n == 1 && p == Question
                else if AtName(s) then n == 1 + NameLen(sql[i+1..]) && p == Named(sql[i+1..i+n])
                else n == 1 && p == Inert([c]))
            && (p.Inert? ==> Written(p, st) == p.text && Take(p, st) == st)
            && (p.Question? ==> Written(p, st) == "$" + Num(st.n + 1) && Take(p, st) == st.(n := st.n + 1, positional := st.positional + 1))
            && (p.Named? ==>
                  var st' := Take(p, st);
                  st' == (if p.name in st.index then st
                          else st.(n := st.n + 1, names := st.names + [p.name], index := st.index[p.name := st.n + 1]))
                  && Written(p, st) == "$" + Num(st'.index[p.name]))
  {
    hide Num, Lex;
    Drops(sql, i, 1);
    if i + 2 <= |sql| { Drops(sql, i, 2); }
    Drops(sql, i, FirstLen(sql[i..], true));
  }
}
