/**
 * What a rewritten statement means: rewriting it again changes nothing; read with
 * `$n` as its placeholders it says what the original said, exactly when no
 * placeholder runs into a digit; and the bound arguments then land where the
 * caller's did.
 */
module PlaceholderMeaning {
  import opened Numbers
  import opened PlaceholderModel
  import opened PlaceholderLaws
  import opened PlaceholderTheorems

  // ── a piece does not depend on what follows the next one ──────────────────

  /** One remainder in place of another: it starts the same, or with a `$` where a placeholder was. */
  predicate Follows(rest: string, rest': string) {
    && (rest == [] <==> rest' == [])
    && (rest != [] ==> rest'[0] == rest[0] || ((rest[0] == '?' || rest[0] == '@') && rest'[0] == '$'))
  }

  lemma {:induction false} LiteralElsewhere(t: string, rest: string, rest': string, q: char)
    requires Quote(q) && QuotedLen(t + rest, q, true) == |t| && Follows(rest, rest')
    ensures QuotedLen(t + rest', q, true) == |t|
  {
    var s, s' := t + rest, t + rest';
    if t == [] {
      assert s == rest && s' == rest';
    } else if t[0] != q {
      assert s[1..] == t[1..] + rest && s'[1..] == t[1..] + rest';
      LiteralElsewhere(t[1..], rest, rest', q);
    } else if |t| > 1 {
      assert s[1] == t[1] == s'[1];
      assert s[2..] == t[2..] + rest && s'[2..] == t[2..] + rest';
      LiteralElsewhere(t[2..], rest, rest', q);
    } else {
      assert |s| > 1 ==> s[1] == rest[0];
      assert |s'| > 1 ==> s'[1] == rest'[0];
    }
  }

  lemma {:induction false} LineElsewhere(t: string, rest: string, rest': string)
    requires LineLen(t + rest) == |t| && Follows(rest, rest')
    ensures LineLen(t + rest') == |t|
  {
    var s, s' := t + rest, t + rest';
    if t == [] {
      assert s == rest && s' == rest';
    } else {
      assert s[1..] == t[1..] + rest && s'[1..] == t[1..] + rest';
      LineElsewhere(t[1..], rest, rest');
    }
  }

  lemma {:induction false} BlockElsewhere(t: string, rest: string, rest': string)
    requires CloseLen(t + rest) == |t| && (rest == [] <==> rest' == [])
    ensures CloseLen(t + rest') == |t|
  {
    var s, s' := t + rest, t + rest';
    if rest == [] {
      assert s == s';
    } else if |t| > 2 {
      assert s[1..] == t[1..] + rest && s'[1..] == t[1..] + rest';
      BlockElsewhere(t[1..], rest, rest');
    } else {
      CloseLenAtLeastTwo(s);
      assert s[1..] == t[1..] + rest;
      if |s[1..]| >= 2 { CloseLenAtLeastTwo(s[1..]); }
    }
  }

  lemma {:induction false} CloseLenAtLeastTwo(s: string)
    requires |s| >= 2
    ensures CloseLen(s) >= 2
  {
    if !(s[0] == '*' && s[1] == '/') && |s| > 2 { CloseLenAtLeastTwo(s[1..]); }
  }

  /** A piece of data is the same piece when placeholders after it have been rewritten. */
  lemma SamePiece(s: string, rest': string)
    requires s != [] && FirstPiece(s, true).Inert? && Follows(s[FirstLen(s, true)..], rest')
    ensures var t := s[..FirstLen(s, true)];
            FirstLen(t + rest', true) == |t| && FirstPiece(t + rest', true) == Inert(t)
  {
    hide QuotedLen, LineLen, CloseLen;
    var n := FirstLen(s, true);
    var t, rest := s[..n], s[n..];
    var s' := t + rest';
    if Quote(s[0]) {
      assert s[1..] == t[1..] + rest && s'[1..] == t[1..] + rest';
      LiteralElsewhere(t[1..], rest, rest', s[0]);
    } else if AtLine(s) {
      assert s[2..] == t[2..] + rest && s'[2..] == t[2..] + rest';
      LineElsewhere(t[2..], rest, rest');
    } else if AtBlock(s) {
      assert s[2..] == t[2..] + rest && s'[2..] == t[2..] + rest';
      BlockElsewhere(t[2..], rest, rest');
    } else {
      assert t == [s[0]];
      assert rest' != [] ==> s'[1] == rest'[0];
      assert rest != [] ==> s[1] == rest[0];
    }
    assert s'[..n] == t;
  }

  lemma WrittenFollows(s: string, st: Slots)
    ensures Follows(s, Text(Lex(s, true), st))
  {
    if s != [] {
      TextStep(s, true, st);
      assert Written(FirstPiece(s, true), st) != [];
      hide Lex, Text, Num, FirstLen;
    }
  }

  // ── rewriting twice ───────────────────────────────────────────────────────

  predicate AllInert(ps: seq<Piece>) {
    forall i :: 0 <= i < |ps| ==> ps[i].Inert?
  }

  lemma DigitsOrdinary(k: nat)
    ensures AllOrdinary("$" + Num(k))
  {
    hide Num;
    var s := "$" + Num(k);
    forall i | 0 <= i < |s| ensures Ordinary(s[i]) { assert i > 0 ==> s[i] == Num(k)[i-1]; }
  }

  lemma {:induction false} LettersInert(text: string)
    ensures AllInert(Letters(text))
  {
    if text != [] { LettersInert(text[1..]); }
  }

  lemma {:induction false} NothingLeftToRewrite(s: string, st: Slots)
    ensures AllInert(Lex(Text(Lex(s, true), st), true))
    decreases |s|
  {
    hide Text, FirstLen, FirstPiece, Num;
    if s == [] {
      AtTheEnd(true, st);
    } else {
      var p, n := FirstPiece(s, true), FirstLen(s, true);
      var rest' := Text(Lex(s[n..], true), Take(p, st));
      TextStep(s, true, st);
      NothingLeftToRewrite(s[n..], Take(p, st));
      WrittenFollows(s[n..], Take(p, st));
      if p.Inert? {
        var t := s[..n];
        FirstSource(s, true);
        SamePiece(s, rest');
        assert (t + rest')[n..] == rest';
      } else {
        var k := if p.Question? || p.name !in st.index then st.n + 1 else st.index[p.name];
        DigitsOrdinary(k);
        RunJoins("$" + Num(k), rest');
        LettersInert("$" + Num(k));
      }
    }
  }

  lemma {:induction false} InertText(ps: seq<Piece>, st: Slots)
    requires AllInert(ps)
    ensures Text(ps, st) == Sources(ps) && Final(ps, st) == st
  {
    if ps != [] { InertText(ps[1..], st); }
  }

  /** Rewriting an accepted statement's output changes nothing and finds nothing to number. */
  lemma RewritingIsStable(sql: string)
    requires Rewrite(sql, true).Rewritten?
    ensures var out := Rewrite(sql, true).text; Rewrite(out, true) == Rewritten(out, [])
  {
    var out := Rewrite(sql, true).text;
    NothingLeftToRewrite(sql, NONE_YET);
    InertText(Lex(out, true), NONE_YET);
    PiecesAreTheStatement(out, true);
  }

  // ── reading it back ───────────────────────────────────────────────────────

  /** A rewritten statement as its reader sees it: text, and numbered slots. */
  datatype Read = Kept(text: string) | Slot(index: nat)

  function DigitsLen(s: string): (n: nat)
    ensures n <= |s| && Digits(s[..n])
  {
    if s == [] || !Digit(s[0]) then 0 else 1 + DigitsLen(s[1..])
  }

  predicate AtSlot(s: string) { |s| > 1 && s[0] == '$' && Digit(s[1]) }

  /** The same literals and comments; `$` and digits are a slot; `?` and `@` are only characters. */
  function ReadLen(s: string): (n: nat)
    requires s != []
    ensures 0 < n <= |s|
  {
    if AtSlot(s) then 1 + DigitsLen(s[1..])
    else if Quote(s[0]) || AtLine(s) || AtBlock(s) then FirstLen(s, true)
    else 1
  }

  function FirstRead(s: string): Read
    requires s != []
  {
    if AtSlot(s) then Slot(Value(s[1..][..DigitsLen(s[1..])])) else Kept(s[..ReadLen(s)])
  }

  function Reading(s: string): seq<Read> {
    if s == [] then [] else [FirstRead(s)] + Reading(s[ReadLen(s)..])
  }

  /** What the original says, with its placeholders numbered. */
  function Meant(ps: seq<Piece>, st: Slots): seq<Read> {
    if ps == [] then []
    else
      [match ps[0]
       case Inert(text) => Kept(text)
       case Question => Slot(st.n + 1)
       case Named(name) => Slot(if name in st.index then st.index[name] else st.n + 1)]
      + Meant(ps[1..], Take(ps[0], st))
  }

  predicate StartsWithDigit(p: Piece) { p.Inert? && p.text != [] && Digit(p.text[0]) }

  /** No placeholder, and no `$` of the statement's own, is directly followed by a digit. */
  predicate Clear(ps: seq<Piece>) {
    forall i :: 0 <= i < |ps| - 1 && (ps[i] == Inert("$") || !ps[i].Inert?) ==> !StartsWithDigit(ps[i + 1])
  }

  predicate Positive(st: Slots) { forall name :: name in st.index ==> st.index[name] > 0 }

  lemma {:induction false} DigitsJoin(a: string, rest: string)
    requires Digits(a)
    ensures DigitsLen(a + rest) == |a| + DigitsLen(rest)
  {
    if a == [] {
      assert a + rest == rest;
    } else {
      assert (a + rest)[1..] == a[1..] + rest;
      DigitsJoin(a[1..], rest);
    }
  }

  /** A number written before something: it is read back as itself exactly when no digit follows. */
  lemma SlotReads(k: nat, rest: string)
    requires k > 0
    ensures var s := "$" + Num(k) + rest;
            && FirstRead(s).Slot? && (FirstRead(s) == Slot(k) <==> rest == [] || !Digit(rest[0]))
            && (rest == [] || !Digit(rest[0]) ==> s[ReadLen(s)..] == rest)
  {
    hide Num;
    var s := "$" + Num(k) + rest;
    assert s[1..] == Num(k) + rest;
    DigitsJoin(Num(k), rest);
    var m := DigitsLen(rest);
    assert s[1..][..|Num(k)| + m] == Num(k) + rest[..m];
    assert s[1] == Num(k)[0];
    ValueOfNum(k);
    ValueGrows(Num(k), rest[..m]);
    if m == 0 { assert Num(k) + rest[..m] == Num(k); }
  }

  lemma ReadStep(s: string)
    requires s != []
    ensures Reading(s) != [] && Reading(s)[0] == FirstRead(s) && Reading(s)[1..] == Reading(s[ReadLen(s)..])
  {
    hide ReadLen, FirstRead;
  }

  lemma {:induction false} ClearStep(ps: seq<Piece>)
    requires ps != []
    ensures Clear(ps) <==>
            Clear(ps[1..]) && (|ps| > 1 && (ps[0] == Inert("$") || !ps[0].Inert?) ==> !StartsWithDigit(ps[1]))
  {
    if Clear(ps[1..]) && (|ps| > 1 && (ps[0] == Inert("$") || !ps[0].Inert?) ==> !StartsWithDigit(ps[1])) {
      forall i | 0 <= i < |ps| - 1 && (ps[i] == Inert("$") || !ps[i].Inert?)
        ensures !StartsWithDigit(ps[i + 1])
      {
        if i > 0 { assert ps[1..][i - 1] == ps[i] && ps[1..][i] == ps[i + 1]; }
      }
    }
  }

  /** A digit after a placeholder, seen in the statement and in what was written. */
  lemma DigitAhead(rest: string, rest': string)
    requires Follows(rest, rest')
    ensures (rest' != [] && Digit(rest'[0])) <==> (rest != [] && StartsWithDigit(FirstPiece(rest, true)))
  {
  }

  lemma TakePositive(p: Piece, st: Slots)
    requires Positive(st)
    ensures Positive(Take(p, st))
  {
  }

  /** Data reads as itself, but for a `$` with a digit after it. */
  lemma DataReads(s: string, rest': string)
    requires s != [] && FirstPiece(s, true).Inert? && Follows(s[FirstLen(s, true)..], rest')
    ensures var t := s[..FirstLen(s, true)];
            var s' := t + rest';
            if t == "$" && rest' != [] && Digit(rest'[0]) then FirstRead(s').Slot?
            else FirstRead(s') == Kept(t) && s'[ReadLen(s')..] == rest'
  {
    SamePiece(s, rest');
    var t := s[..FirstLen(s, true)];
    var s' := t + rest';
    hide QuotedLen, LineLen, CloseLen, DigitsLen, Value;
    assert s'[..|t|] == t && s'[|t|..] == rest';
    assert s[0] == s'[0] == t[0];
    if s[0] == '$' {
      assert t == "$";
      assert rest' != [] ==> s'[1] == rest'[0];
    }
  }

  /**
   * The output, read with `$n` as its placeholders, says what the statement said, exactly when no
   * placeholder and no `$` of the statement's own runs into a digit.
   */
  lemma {:induction false} ReadsBackExactly(s: string, st: Slots)
    requires Positive(st)
    ensures Reading(Text(Lex(s, true), st)) == Meant(Lex(s, true), st) <==> Clear(Lex(s, true))
    decreases |s|
  {
    hide Lex, Text, FirstLen, FirstPiece, Num, FirstRead, ReadLen, Take, Positive, Clear, Reading, Follows, StartsWithDigit;
    if s == [] {
      AtTheEnd(true, st);
      EmptyReads(st);
    } else {
      var ps := Lex(s, true);
      var p, n := FirstPiece(s, true), FirstLen(s, true);
      var next := Take(p, st);
      var rest' := Text(Lex(s[n..], true), next);
      LexStep(s, true);
      TextStep(s, true, st);
      TakePositive(p, st);
      ReadsBackExactly(s[n..], next);
      WrittenFollows(s[n..], next);
      DigitAhead(s[n..], rest');
      ClearStep(ps);
      FollowingPiece(s[n..]);
      FirstWritten(s, st);
      ReadStep(Written(p, st) + rest');
      MeantStep(ps, st);
      if p.Inert? {
        FirstSource(s, true);
        DataReads(s, rest');
      } else {
        var k := if p.Question? || p.name !in st.index then st.n + 1 else st.index[p.name];
        PositiveIs(st, p);
        SlotReads(k, rest');
      }
    }
  }

  lemma EmptyReads(st: Slots)
    ensures Reading("") == [] && Lex("", true) == [] && Meant([], st) == [] && Clear([])
  {
  }

  lemma FollowingPiece(rest: string)
    ensures rest == [] <==> |Lex(rest, true)| == 0
    ensures rest != [] ==> Lex(rest, true)[0] == FirstPiece(rest, true)
  {
  }

  lemma FirstWritten(s: string, st: Slots)
    requires s != []
    ensures Written(FirstPiece(s, true), st) != []
    ensures FirstPiece(s, true).Inert? ==> Written(FirstPiece(s, true), st) == s[..FirstLen(s, true)]
  {
    FirstSource(s, true);
  }

  lemma MeantStep(ps: seq<Piece>, st: Slots)
    requires ps != []
    ensures var m := Meant(ps, st);
            && m != [] && m[1..] == Meant(ps[1..], Take(ps[0], st))
            && (match ps[0]
                case Inert(text) => m[0] == Kept(text)
                case Question => m[0] == Slot(st.n + 1)
                case Named(name) => m[0] == Slot(if name in st.index then st.index[name] else st.n + 1))
  {
  }

  lemma PositiveIs(st: Slots, p: Piece)
    requires Positive(st)
    ensures p.Named? && p.name in st.index ==> st.index[p.name] > 0
  {
  }
}
