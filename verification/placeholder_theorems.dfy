/**
 * Built statements rewrite as built, whatever they are built from; the explicit
 * doubled-quote branch agrees with the scanner that toggles at every quote; and
 * rewriting what was rewritten changes nothing.
 */
module PlaceholderTheorems {
  import opened Numbers
  import opened PlaceholderModel
  import opened PlaceholderLaws

  lemma TextStep(s: string, doubled: bool, st: Slots)
    requires s != []
    ensures var p, rest := FirstPiece(s, doubled), s[FirstLen(s, doubled)..];
            && Text(Lex(s, doubled), st) == Written(p, st) + Text(Lex(rest, doubled), Take(p, st))
            && Final(Lex(s, doubled), st) == Final(Lex(rest, doubled), Take(p, st))
  {
    LexStep(s, doubled);
  }

  // ── the doubled quote ─────────────────────────────────────────────────────

  /** The explicit branch takes a literal as the toggle takes it, and then the next one if it follows at once. */
  lemma {:induction false} DoubledLen(b: string, q: char)
    ensures var n := QuotedLen(b, q, false);
            QuotedLen(b, q, true) ==
            if 0 < n < |b| && b[n] == q then n + 1 + QuotedLen(b[n+1..], q, true) else n
  {
    if b != [] && b[0] != q {
      DoubledLen(b[1..], q);
      var n := QuotedLen(b, q, false);
      if n < |b| { assert b[1..][n-1+1..] == b[n+1..]; }
    }
  }

  lemma LiteralFirst(b: string, q: char, doubled: bool)
    requires Quote(q)
    ensures var s, m := [q] + b, QuotedLen(b, q, doubled);
            FirstLen(s, doubled) == 1 + m && FirstPiece(s, doubled) == Inert([q] + b[..m]) && s[1 + m..] == b[m..]
  {
    hide QuotedLen;
    var s := [q] + b;
    assert s[0] == q && s[1..] == b;
    Shifted(b, q, QuotedLen(b, q, doubled));
  }

  lemma Shifted(b: string, q: char, m: nat)
    requires m <= |b|
    ensures ([q] + b)[..1 + m] == [q] + b[..m] && ([q] + b)[1 + m..] == b[m..]
  {
  }

  lemma ToggleFirst(b: string, q: char, st: Slots)
    requires Quote(q)
    ensures var m := QuotedLen(b, q, false);
            && Text(Lex([q] + b, false), st) == ([q] + b[..m]) + Text(Lex(b[m..], false), st)
            && Final(Lex([q] + b, false), st) == Final(Lex(b[m..], false), st)
  {
    hide QuotedLen, Lex, Text, Final, FirstLen, FirstPiece, Written, Take;
    LiteralFirst(b, q, false);
    TextStep([q] + b, false, st);
    InertIs([q] + b[..QuotedLen(b, q, false)], st);
  }

  /** A literal with doubled quotes is, to the toggle, several literals one after another. */
  lemma {:induction false} LiteralsAgree(b: string, q: char, st: Slots)
    requires Quote(q)
    ensures var n := QuotedLen(b, q, true);
            && Text(Lex([q] + b, false), st) == [q] + b[..n] + Text(Lex(b[n..], false), st)
            && Final(Lex([q] + b, false), st) == Final(Lex(b[n..], false), st)
    decreases |b|
  {
    hide QuotedLen, Lex, Text, Final;
    var m := QuotedLen(b, q, false);
    ToggleFirst(b, q, st);
    DoubledLen(b, q);
    if 0 < m < |b| && b[m] == q {
      var rest := b[m+1..];
      assert b[m..] == [q] + rest;
      LiteralsAgree(rest, q, st);
      var k := QuotedLen(rest, q, true);
      var more := Text(Lex(rest[k..], false), st);
      assert b[..m] + ([q] + rest[..k]) == b[..m + 1 + k] && rest[k..] == b[m + 1 + k..];
      Regroup([q] + b[..m], [q] + rest[..k], more);
      assert ([q] + b[..m]) + ([q] + rest[..k]) == [q] + b[..m + 1 + k];
    }
  }

  lemma {:induction false} BranchesAgree(s: string, st: Slots)
    ensures Text(Lex(s, true), st) == Text(Lex(s, false), st)
    ensures Final(Lex(s, true), st) == Final(Lex(s, false), st)
    decreases |s|
  {
    hide QuotedLen, Lex, Text, Final, Written, Take;
    AtTheEnd(true, st);
    AtTheEnd(false, st);
    if s != [] {
      TextStep(s, true, st);
      TextStep(s, false, st);
      var n := FirstLen(s, true);
      if Quote(s[0]) {
        var b := s[1..];
        assert s == [s[0]] + b && b[n-1..] == s[n..] && s[..n] == [s[0]] + b[..n-1];
        LiteralsAgree(b, s[0], st);
        assert Written(Inert(s[..n]), st) == s[..n] && Take(Inert(s[..n]), st) == st by { InertIs(s[..n], st); }
        BranchesAgree(s[n..], st);
      } else {
        BranchesAgree(s[n..], Take(FirstPiece(s, true), st));
      }
    }
  }

  lemma InertIs(text: string, st: Slots)
    ensures Written(Inert(text), st) == text && Take(Inert(text), st) == st
  {
  }

  /** On every string, the explicit doubled-quote branch and the two-toggle scanner give the same rewriting. */
  lemma DoubledQuoteBranchIsRedundant(sql: string)
    ensures Rewrite(sql, true) == Rewrite(sql, false)
  {
    BranchesAgree(sql, NONE_YET);
  }

  // ── statements built from parts ───────────────────────────────────────────

  /** What a generated statement is made of: text, literals and comments of data, and parameters. */
  datatype Part = Run(text: string) | Literal(quote: char, body: string) | LineNote(text: string)
                | BlockNote(text: string) | Param

  predicate Ordinary(c: char) { c != '\'' && c != '"' && c != '-' && c != '/' && c != '?' && c != '@' }

  predicate AllOrdinary(text: string) { forall i :: 0 <= i < |text| ==> Ordinary(text[i]) }

  predicate Lacks(text: string, c: char) { forall i :: 0 <= i < |text| ==> text[i] != c }

  predicate Unclosed(text: string) { forall i :: 0 <= i < |text| - 1 ==> !(text[i] == '*' && text[i + 1] == '/') }

  /** Inside a literal its own quote comes in pairs. */
  predicate Paired(b: string, q: char) {
    b == [] || (b[0] != q && Paired(b[1..], q)) || (|b| > 1 && b[0] == q && b[1] == q && Paired(b[2..], q))
  }

  predicate Sound(p: Part) {
    match p
    case Run(text) => text != [] && AllOrdinary(text)
    case Literal(q, body) => (q == '\'' || q == '"') && Paired(body, q)
    case LineNote(text) => Lacks(text, '\n')
    case BlockNote(text) => Unclosed(text)
    case Param => true
  }

  /** Two literals of one kind are never side by side: that would be one literal. */
  predicate Apart(parts: seq<Part>) {
    && (forall i :: 0 <= i < |parts| ==> Sound(parts[i]))
    && (forall i :: 0 <= i < |parts| - 1 && parts[i].Literal? && parts[i + 1].Literal? ==> parts[i].quote != parts[i + 1].quote)
  }

  function PartText(p: Part): (s: string)
    ensures Sound(p) ==> s != []
  {
    match p
    case Run(text) => text
    case Literal(q, body) => [q] + body + [q]
    case LineNote(text) => "--" + text + "\n"
    case BlockNote(text) => "/*" + text + "*/"
    case Param => "?"
  }

  function Built(parts: seq<Part>): string {
    if parts == [] then "" else PartText(parts[0]) + Built(parts[1..])
  }

  /** What it must become, written down while it is built: the nth parameter is $n. */
  function Expected(parts: seq<Part>, n: nat): string {
    if parts == [] then ""
    else if parts[0].Param? then "$" + Num(n + 1) + Expected(parts[1..], n + 1)
    else PartText(parts[0]) + Expected(parts[1..], n)
  }

  function Letters(text: string): seq<Piece> {
    if text == [] then [] else [Inert([text[0]])] + Letters(text[1..])
  }

  lemma OrdinaryFirst(s: string)
    requires s != [] && Ordinary(s[0])
    ensures FirstLen(s, true) == 1 && FirstPiece(s, true) == Inert([s[0]])
  {
  }

  lemma {:induction false} RunJoins(text: string, rest: string)
    requires AllOrdinary(text)
    ensures Lex(text + rest, true) == Letters(text) + Lex(rest, true)
  {
    hide Ordinary, FirstLen, FirstPiece;
    if text == [] {
      assert text + rest == rest;
    } else {
      var s := text + rest;
      assert s[0] == text[0] && s[1..] == text[1..] + rest;
      OrdinaryFirst(s);
      RunJoins(text[1..], rest);
    }
  }

  lemma {:induction false} LiteralLen(b: string, q: char, rest: string)
    requires Paired(b, q) && (rest == [] || rest[0] != q)
    ensures QuotedLen(b + [q] + rest, q, true) == |b| + 1
  {
    var s := b + [q] + rest;
    if b == [] {
      assert s == [q] + rest;
    } else if b[0] != q && Paired(b[1..], q) {
      assert s[1..] == b[1..] + [q] + rest;
      LiteralLen(b[1..], q, rest);
    } else {
      assert s[2..] == b[2..] + [q] + rest;
      LiteralLen(b[2..], q, rest);
    }
  }

  lemma {:induction false} LineLenIs(t: string, rest: string)
    requires Lacks(t, '\n')
    ensures LineLen(t + "\n" + rest) == |t|
  {
    var s := t + "\n" + rest;
    if t != [] {
      assert s[1..] == t[1..] + "\n" + rest;
      LineLenIs(t[1..], rest);
    }
  }

  lemma {:induction false} CloseLenIs(t: string, rest: string)
    requires Unclosed(t)
    ensures CloseLen(t + "*/" + rest) == |t| + 2
  {
    var s := t + "*/" + rest;
    if t == [] {
      assert s == "*/" + rest;
    } else {
      assert s[1..] == t[1..] + "*/" + rest;
      assert |t| > 1 ==> s[1] == t[1];
      CloseLenIs(t[1..], rest);
    }
  }

  /** A part of data whose first piece is all of it. */
  lemma OneInert(part: string, rest: string, st: Slots)
    requires part != [] && FirstLen(part + rest, true) == |part| && FirstPiece(part + rest, true).Inert?
    ensures Text(Lex(part + rest, true), st) == part + Text(Lex(rest, true), st)
    ensures Final(Lex(part + rest, true), st) == Final(Lex(rest, true), st)
  {
    hide Lex, Text, Final, FirstLen;
    assert (part + rest)[..|part|] == part && (part + rest)[|part|..] == rest;
    FirstSource(part + rest, true);
    TextStep(part + rest, true, st);
  }

  lemma RunStep(text: string, rest: string, st: Slots)
    requires AllOrdinary(text)
    ensures Text(Lex(text + rest, true), st) == text + Text(Lex(rest, true), st)
    ensures Final(Lex(text + rest, true), st) == Final(Lex(rest, true), st)
  {
    RunJoins(text, rest);
    LettersText(text, Lex(rest, true), st);
  }

  lemma LiteralStep(p: Part, rest: string, st: Slots)
    requires Sound(p) && p.Literal? && (rest == [] || rest[0] != p.quote)
    ensures Text(Lex(PartText(p) + rest, true), st) == PartText(p) + Text(Lex(rest, true), st)
    ensures Final(Lex(PartText(p) + rest, true), st) == Final(Lex(rest, true), st)
  {
    hide QuotedLen, Lex, Text, Final;
    var s := PartText(p) + rest;
    LiteralLen(p.body, p.quote, rest);
    assert s[1..] == p.body + [p.quote] + rest;
    OneInert(PartText(p), rest, st);
  }

  lemma LineStep(text: string, rest: string, st: Slots)
    requires Lacks(text, '\n')
    ensures Text(Lex("--" + text + "\n" + rest, true), st) == "--" + text + "\n" + Text(Lex(rest, true), st)
    ensures Final(Lex("--" + text + "\n" + rest, true), st) == Final(Lex(rest, true), st)
  {
    hide LineLen, Lex, Text, Final;
    var note := "--" + text;
    var s := note + ("\n" + rest);
    assert s == "--" + text + "\n" + rest;
    LineLenIs(text, rest);
    assert s[2..] == text + "\n" + rest;
    OneInert(note, "\n" + rest, st);
    RunStep("\n", rest, st);
  }

  lemma BlockStep(p: Part, rest: string, st: Slots)
    requires Sound(p) && p.BlockNote?
    ensures Text(Lex(PartText(p) + rest, true), st) == PartText(p) + Text(Lex(rest, true), st)
    ensures Final(Lex(PartText(p) + rest, true), st) == Final(Lex(rest, true), st)
  {
    hide CloseLen, Lex, Text, Final;
    CloseLenIs(p.text, rest);
    assert (PartText(p) + rest)[2..] == p.text + "*/" + rest;
    OneInert(PartText(p), rest, st);
  }

  lemma ParamStep(rest: string, st: Slots)
    ensures Text(Lex("?" + rest, true), st) == "$" + Num(st.n + 1) + Text(Lex(rest, true), Take(Question, st))
    ensures Final(Lex("?" + rest, true), st) == Final(Lex(rest, true), Take(Question, st))
  {
    hide Lex, Text, Final, Num;
    assert ("?" + rest)[1..] == rest;
    TextStep("?" + rest, true, st);
  }

  lemma PartStep(p: Part, rest: string, st: Slots)
    requires Sound(p) && (p.Literal? ==> rest == [] || rest[0] != p.quote)
    ensures var s, st' := PartText(p) + rest, if p.Param? then Take(Question, st) else st;
            && Text(Lex(s, true), st) ==
               (if p.Param? then "$" + Num(st.n + 1) else PartText(p)) + Text(Lex(rest, true), st')
            && Final(Lex(s, true), st) == Final(Lex(rest, true), st')
  {
    hide Lex, Text, Final, Num;
    match p {
    case Run(text) => RunStep(text, rest, st);
    case Literal(_, _) => LiteralStep(p, rest, st);
    case LineNote(text) => LineStep(text, rest, st);
    case BlockNote(_) => BlockStep(p, rest, st);
    case Param => ParamStep(rest, st);
    }
  }

  lemma Regroup(a: string, b: string, c: string)
    ensures a + (b + c) == (a + b) + c
  {
  }

  lemma InertFirst(text: string, ps: seq<Piece>, st: Slots)
    ensures Text([Inert(text)] + ps, st) == text + Text(ps, st) && Final([Inert(text)] + ps, st) == Final(ps, st)
  {
    assert ([Inert(text)] + ps)[1..] == ps;
    InertIs(text, st);
  }

  lemma {:induction false} LettersText(text: string, ps: seq<Piece>, st: Slots)
    ensures Text(Letters(text) + ps, st) == text + Text(ps, st) && Final(Letters(text) + ps, st) == Final(ps, st)
  {
    hide Text, Final;
    if text == [] {
      assert Letters(text) + ps == ps;
    } else {
      var rest := Letters(text[1..]) + ps;
      assert Letters(text) + ps == [Inert([text[0]])] + rest;
      InertFirst([text[0]], rest, st);
      LettersText(text[1..], ps, st);
      Regroup([text[0]], text[1..], Text(ps, st));
      assert [text[0]] + text[1..] == text;
    }
  }

  lemma FirstApart(parts: seq<Part>)
    requires Apart(parts) && parts != []
    ensures Sound(parts[0]) && Apart(parts[1..])
    ensures parts[0].Literal? ==> Built(parts[1..]) == [] || Built(parts[1..])[0] != parts[0].quote
  {
    hide Sound, PartText;
    var p, more := parts[0], parts[1..];
    SoundQuote(p);
    if p.Literal? && more != [] {
      assert more[0] == parts[1];
      StartsOtherwise(more[0], Built(more[1..]), p.quote);
    }
  }

  lemma {:induction false} BuiltFrom(parts: seq<Part>, st: Slots)
    requires Apart(parts)
    ensures Text(Lex(Built(parts), true), st) == Expected(parts, st.n)
    ensures Final(Lex(Built(parts), true), st).names == st.names
  {
    hide Lex, Text, Final, Sound, Num, PartText, Apart;
    if parts == [] {
      AtTheEnd(true, st);
    } else {
      var p, rest := parts[0], Built(parts[1..]);
      FirstApart(parts);
      PartStep(p, rest, st);
      BuiltFrom(parts[1..], if p.Param? then Take(Question, st) else st);
    }
  }

  lemma SoundQuote(p: Part)
    ensures Sound(p) && p.Literal? ==> Quote(p.quote)
  {
  }

  lemma StartsOtherwise(p: Part, rest: string, q: char)
    requires Sound(p) && Quote(q) && (p.Literal? ==> p.quote != q)
    ensures PartText(p) + rest != [] && (PartText(p) + rest)[0] != q
  {
  }

  /** Every statement there is to build: it rewrites to what was written down while it was built. */
  lemma BuiltStatementsRewriteAsBuilt(parts: seq<Part>)
    requires Apart(parts)
    ensures Rewrite(Built(parts), true) == Rewritten(Expected(parts, 0), [])
  {
    BuiltFrom(parts, NONE_YET);
  }

  // ── the generator's own pieces ────────────────────────────────────────────

  const HEAD: seq<Part> := [Run("SELECT * FROM events "), Run("WHERE 1 = 1")]

  // The pieces of data that hold the characters the scanner looks for.
  const BODY: seq<Part> := [Run(" AND body LIKE "), Literal('\'', "%?%")]
  const NOTE: seq<Part> := [Run(" AND note = "), Literal('\'', "it''s ? fine")]
  const COLUMN: seq<Part> := [Run(" AND "), Literal('"', "weird?col"), Run(" IS NOT NULL")]
  const LINE: seq<Part> := [Run(" "), LineNote(" a comment with ? and @name")]
  const BLOCK: seq<Part> := [Run(" "), BlockNote(" block ? @x ")]
  const EMAIL: seq<Part> := [Run(" AND email = "), Literal('\'', "ops@example.com")]
  const PATH: seq<Part> := [Run(" AND path = "), Literal('\'', "/a/b?c=d")]
  const PLAIN: seq<Part> := [Run(" AND x = 1")]
  const LABEL: seq<Part> := [Run("\n  AND label = "), Literal('\'', "")]
  const JSON: seq<Part> := [Run(" AND j = "), Literal('\'', "{\"k\": \"?\"}")]

  const INERT: seq<seq<Part>> := [BODY, NOTE, COLUMN, LINE, BLOCK, EMAIL, PATH, PLAIN, LABEL, JSON]

  const PARAMS: seq<seq<Part>> := [
    [Run(" AND id = "), Param], [Run(" AND sev >= "), Param], [Run(" LIMIT "), Param],
    [Run(" OFFSET "), Param], [Run(" AND org_id = "), Param]
  ]

  /** A piece that can follow any other: sound, and starting with text. */
  predicate Fragment(parts: seq<Part>) {
    parts != [] && parts[0].Run? && Apart(parts)
  }

  lemma {:induction false} PairedWithout(b: string, q: char)
    requires Lacks(b, q)
    ensures Paired(b, q)
  {
    if b != [] { PairedWithout(b[1..], q); }
  }

  lemma {:induction false} PairedOnce(a: string, c: string, q: char)
    requires Lacks(a, q) && Lacks(c, q)
    ensures Paired(a + [q, q] + c, q)
  {
    var b := a + [q, q] + c;
    if a == [] {
      PairedWithout(c, q);
      assert b[2..] == c;
    } else {
      assert b[1..] == a[1..] + [q, q] + c;
      PairedOnce(a[1..], c, q);
    }
  }

  lemma TextThenLiteral(text: string, q: char, body: string)
    requires text != [] && AllOrdinary(text) && Quote(q) && Lacks(body, q)
    ensures Fragment([Run(text), Literal(q, body)])
  {
    PairedWithout(body, q);
  }

  lemma QuotedFragments()
    ensures Fragment(BODY) && Fragment(EMAIL) && Fragment(PATH)
  {
    hide Fragment;
    TextThenLiteral(" AND body LIKE ", '\'', "%?%");
    TextThenLiteral(" AND email = ", '\'', "ops@example.com");
    TextThenLiteral(" AND path = ", '\'', "/a/b?c=d");
  }

  lemma MoreQuotedFragments()
    ensures Fragment(LABEL) && Fragment(JSON)
  {
    hide Fragment;
    TextThenLiteral("\n  AND label = ", '\'', "");
    TextThenLiteral(" AND j = ", '\'', "{\"k\": \"?\"}");
  }

  lemma TextThenPaired(text: string, a: string, c: string)
    requires text != [] && AllOrdinary(text) && Lacks(a, '\'') && Lacks(c, '\'')
    ensures Fragment([Run(text), Literal('\'', a + "''" + c)])
  {
    PairedOnce(a, c, '\'');
  }

  lemma NoteFragment()
    ensures Fragment(NOTE)
  {
    hide Fragment;
    assert "it''s ? fine" == "it" + "''" + "s ? fine";
    TextThenPaired(" AND note = ", "it", "s ? fine");
  }

  lemma TextLiteralText(text: string, q: char, body: string, more: string)
    requires text != [] && AllOrdinary(text) && Quote(q) && Lacks(body, q) && more != [] && AllOrdinary(more)
    ensures Fragment([Run(text), Literal(q, body), Run(more)])
  {
    PairedWithout(body, q);
  }

  lemma ColumnFragment()
    ensures Fragment(COLUMN)
  {
    hide Fragment;
    TextLiteralText(" AND ", '"', "weird?col", " IS NOT NULL");
  }

  lemma TextThenNote(text: string, note: Part)
    requires text != [] && AllOrdinary(text)
    requires (note.LineNote? && Lacks(note.text, '\n')) || (note.BlockNote? && Unclosed(note.text))
    ensures Fragment([Run(text), note])
  {
  }

  lemma NoteFragments()
    ensures Fragment(LINE) && Fragment(BLOCK)
  {
    hide Fragment;
    TextThenNote(" ", LineNote(" a comment with ? and @name"));
    TextThenNote(" ", BlockNote(" block ? @x "));
  }

  lemma TextAlone(text: string)
    requires text != [] && AllOrdinary(text)
    ensures Fragment([Run(text)]) && Fragment([Run(text), Param])
  {
  }

  lemma PlainFragment()
    ensures Fragment(PLAIN)
  {
    hide Fragment;
    TextAlone(" AND x = 1");
  }

  lemma InertFragments(i: nat)
    requires i < |INERT|
    ensures Fragment(INERT[i])
  {
    hide Fragment, BODY, NOTE, COLUMN, LINE, BLOCK, EMAIL, PATH, PLAIN, LABEL, JSON;
    QuotedFragments(); MoreQuotedFragments(); NoteFragment(); ColumnFragment(); NoteFragments(); PlainFragment();
  }

  lemma ParamFragments(i: nat)
    requires i < |PARAMS|
    ensures Fragment(PARAMS[i])
  {
    hide Fragment;
    TextAlone(" AND id = ");
    TextAlone(" AND sev >= ");
    TextAlone(" LIMIT ");
    TextAlone(" OFFSET ");
    TextAlone(" AND org_id = ");
  }

  function Flatten(pieces: seq<seq<Part>>): seq<Part> {
    if pieces == [] then [] else pieces[0] + Flatten(pieces[1..])
  }

  lemma ApartJoins(a: seq<Part>, b: seq<Part>)
    requires Apart(a) && Apart(b) && (b == [] || b[0].Run?)
    ensures Apart(a + b)
  {
    hide Sound;
  }

  lemma {:induction false} FlattenApart(pieces: seq<seq<Part>>)
    requires forall i :: 0 <= i < |pieces| ==> Fragment(pieces[i])
    ensures Apart(Flatten(pieces)) && (Flatten(pieces) == [] || Flatten(pieces)[0].Run?)
  {
    hide Sound;
    if pieces != [] {
      FlattenApart(pieces[1..]);
      ApartJoins(pieces[0], Flatten(pieces[1..]));
    }
  }

  /** Every statement the generator can come up with, however long. */
  lemma GeneratedStatements(pieces: seq<seq<Part>>)
    requires forall i :: 0 <= i < |pieces| ==> pieces[i] in INERT || pieces[i] in PARAMS
    ensures Rewrite(Built(HEAD + Flatten(pieces)), true) == Rewritten(Expected(HEAD + Flatten(pieces), 0), [])
  {
    hide Sound, Fragment, INERT, PARAMS, HEAD, Built, Expected, Rewrite, Flatten;
    forall i | 0 <= i < |pieces|
      ensures Fragment(pieces[i])
    {
      if pieces[i] in INERT {
        var k :| 0 <= k < |INERT| && INERT[k] == pieces[i];
        InertFragments(k);
      } else {
        var k :| 0 <= k < |PARAMS| && PARAMS[k] == pieces[i];
        ParamFragments(k);
      }
    }
    FlattenApart(pieces);
    HeadSound();
    ApartJoins(HEAD, Flatten(pieces));
    BuiltStatementsRewriteAsBuilt(HEAD + Flatten(pieces));
  }

  lemma HeadSound()
    ensures Apart(HEAD)
  {
    hide Fragment, Apart, AllOrdinary;
    var from, where := Run("SELECT * FROM events "), Run("WHERE 1 = 1");
    OrdinaryHead();
    TextAlone(from.text);
    TextAlone(where.text);
    FragmentApart([from]);
    FragmentApart([where]);
    ApartJoins([from], [where]);
    assert HEAD == [from] + [where];
  }

  lemma OrdinaryHead()
    ensures AllOrdinary("SELECT * FROM events ") && AllOrdinary("WHERE 1 = 1")
  {
  }

  lemma FragmentApart(parts: seq<Part>)
    ensures Fragment(parts) ==> Apart(parts)
  {
  }
}
