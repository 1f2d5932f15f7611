/**
 * What the rewriter guarantees for every statement there is: nothing but
 * placeholders changes, numbers follow the source order, built statements
 * rewrite as built, a rewritten statement is left alone, and the doubled-quote
 * branch makes no difference.
 */
module PlaceholderLaws {
  import opened Numbers
  import opened PlaceholderModel

  // ── pieces ────────────────────────────────────────────────────────────────

  function Source(p: Piece): string {
    match p
    case Inert(text) => text
    case Question => "?"
    case Named(name) => "@" + name
  }

  function Sources(ps: seq<Piece>): string {
    if ps == [] then "" else Source(ps[0]) + Sources(ps[1..])
  }

  lemma FirstSource(s: string, doubled: bool)
    requires s != []
    ensures Source(FirstPiece(s, doubled)) == s[..FirstLen(s, doubled)]
  {
    var n := FirstLen(s, doubled);
    if AtName(s) { assert s[..n] == [s[0]] + s[1..n]; }
    if s[0] == '?' { assert s[..1] == "?"; }
  }

  lemma LexStep(s: string, doubled: bool)
    requires s != []
    ensures Lex(s, doubled) != [] && Lex(s, doubled)[0] == FirstPiece(s, doubled)
    ensures Lex(s, doubled)[1..] == Lex(s[FirstLen(s, doubled)..], doubled)
    ensures s == s[..FirstLen(s, doubled)] + s[FirstLen(s, doubled)..]
  {
    hide FirstLen, FirstPiece;
  }

  /** The pieces are the statement: nothing is skipped and nothing is read twice. */
  lemma {:induction false} PiecesAreTheStatement(s: string, doubled: bool)
    ensures Sources(Lex(s, doubled)) == s
    decreases |s|
  {
    if s != [] {
      FirstSource(s, doubled);
      LexStep(s, doubled);
      PiecesAreTheStatement(s[FirstLen(s, doubled)..], doubled);
    }
  }

  lemma {:induction false} TextJoins(a: seq<Piece>, b: seq<Piece>, st: Slots)
    ensures Text(a + b, st) == Text(a, st) + Text(b, Final(a, st))
    ensures Final(a + b, st) == Final(b, Final(a, st))
    decreases |a|
  {
    if a == [] {
      assert a + b == b;
    } else {
      assert (a + b)[1..] == a[1..] + b;
      TextJoins(a[1..], b, Take(a[0], st));
    }
  }

  // ── numbers ───────────────────────────────────────────────────────────────

  function Questions(ps: seq<Piece>): nat {
    if ps == [] then 0 else (if ps[0].Question? then 1 else 0) + Questions(ps[1..])
  }

  /** Names, each once, where they first occur. */
  function FirstNames(ps: seq<Piece>): seq<string> {
    if ps == [] then []
    else
      var before := FirstNames(ps[..|ps|-1]);
      var p := ps[|ps|-1];
      if p.Named? && p.name !in before then before + [p.name] else before
  }

  lemma {:induction false} NamesAre(ps: seq<Piece>)
    ensures forall name :: name in FirstNames(ps) <==> Named(name) in ps
    ensures forall i, j :: 0 <= i < j < |FirstNames(ps)| ==> FirstNames(ps)[i] != FirstNames(ps)[j]
  {
    if ps != [] {
      NamesAre(ps[..|ps|-1]);
      assert ps == ps[..|ps|-1] + [ps[|ps|-1]];
    }
  }

  /** The numbers given out after some pieces, counted without the scanner. */
  lemma {:induction false} SlotsAre(ps: seq<Piece>)
    ensures var st := Final(ps, NONE_YET);
            && st.positional == Questions(ps) && st.names == FirstNames(ps)
            && st.n == st.positional + |st.names|
            && (forall name :: name in st.index <==> name in st.names)
            && (st.positional == 0 ==> forall i :: 0 <= i < |st.names| ==> st.index[st.names[i]] == i + 1)
  {
    if ps != [] {
      var n := |ps| - 1;
      var before := ps[..n];
      assert ps == before + [ps[n]];
      SlotsAre(before);
      NamesAre(ps);
      TextJoins(before, [ps[n]], NONE_YET);
      QuestionsJoin(before, [ps[n]]);
      var st := Final(before, NONE_YET);
      assert [ps[n]][1..] == [];
      assert Final([ps[n]], st) == Take(ps[n], st);
    }
  }

  lemma {:induction false} QuestionsJoin(a: seq<Piece>, b: seq<Piece>)
    ensures Questions(a + b) == Questions(a) + Questions(b)
    decreases |a|
  {
    if a == [] {
      assert a + b == b;
    } else {
      assert (a + b)[1..] == a[1..] + b;
      QuestionsJoin(a[1..], b);
    }
  }

  /** What piece i becomes, said without the scanner: the nth question mark is $n, a name is $ its place among the names. */
  ghost predicate Becomes(ps: seq<Piece>, i: nat, text: string)
    requires i < |ps|
  {
    match ps[i]
    case Inert(t) => text == t
    case Question => text == "$" + Num(Questions(ps[..i]) + 1)
    case Named(name) => exists k :: 0 <= k < |FirstNames(ps)| && FirstNames(ps)[k] == name && text == "$" + Num(k + 1)
  }

  function Concat(texts: seq<string>): string {
    if texts == [] then "" else Concat(texts[..|texts|-1]) + texts[|texts|-1]
  }

  function WrittenTexts(ps: seq<Piece>): seq<string> {
    seq(|ps|, i requires 0 <= i < |ps| => Written(ps[i], Final(ps[..i], NONE_YET)))
  }

  lemma {:induction false} TextIsConcat(ps: seq<Piece>)
    ensures Text(ps, NONE_YET) == Concat(WrittenTexts(ps))
  {
    if ps != [] {
      var n := |ps| - 1;
      TextIsConcat(ps[..n]);
      assert ps == ps[..n] + [ps[n]];
      TextJoins(ps[..n], [ps[n]], NONE_YET);
      assert [ps[n]][1..] == [];
      assert Text([ps[n]], Final(ps[..n], NONE_YET)) == Written(ps[n], Final(ps[..n], NONE_YET)) + "";
      var texts := WrittenTexts(ps);
      forall i | 0 <= i < n
        ensures texts[i] == WrittenTexts(ps[..n])[i]
      {
        assert ps[..n][..i] == ps[..i];
      }
      assert texts[..n] == WrittenTexts(ps[..n]);
    }
  }

  lemma {:induction false} FirstNamesGrow(a: seq<Piece>, b: seq<Piece>)
    ensures FirstNames(a) <= FirstNames(a + b)
  {
    if b == [] {
      assert a + b == a;
    } else {
      assert (a + b)[..|a + b|-1] == a + b[..|b|-1];
      FirstNamesGrow(a, b[..|b|-1]);
    }
  }

  lemma NoQuestionsBefore(ps: seq<Piece>, i: nat)
    requires i <= |ps|
    ensures Questions(ps[..i]) <= Questions(ps)
  {
    assert ps == ps[..i] + ps[i..];
    QuestionsJoin(ps[..i], ps[i..]);
  }

  lemma NamesBefore(ps: seq<Piece>, i: nat)
    requires i < |ps|
    ensures FirstNames(ps[..i]) <= FirstNames(ps[..i+1]) <= FirstNames(ps)
  {
    hide FirstNames;
    assert ps[..i] + [ps[i]] == ps[..i+1];
    assert ps[..i+1] + ps[i+1..] == ps;
    FirstNamesGrow(ps[..i], [ps[i]]);
    FirstNamesGrow(ps[..i+1], ps[i+1..]);
  }

  lemma QuestionBecomes(ps: seq<Piece>, i: nat)
    requires i < |ps| && ps[i].Question? && FirstNames(ps) == []
    ensures Becomes(ps, i, Written(ps[i], Final(ps[..i], NONE_YET)))
  {
    SlotsAre(ps[..i]);
    NamesBefore(ps, i);
  }

  /** The number a name gets is one more than its place among the names. */
  lemma NamePlace(ps: seq<Piece>, i: nat) returns (k: nat)
    requires i < |ps| && ps[i].Named? && Questions(ps) == 0
    ensures k < |FirstNames(ps)| && FirstNames(ps)[k] == ps[i].name
    ensures var st := Final(ps[..i], NONE_YET);
            k + 1 == if ps[i].name in st.index then st.index[ps[i].name] else st.n + 1
  {
    hide Final, Questions, FirstNames;
    var st, name := Final(ps[..i], NONE_YET), ps[i].name;
    SlotsAre(ps[..i]);
    NoQuestionsBefore(ps, i);
    NamesBefore(ps, i);
    if name in st.index {
      k :| 0 <= k < |st.names| && st.names[k] == name;
    } else {
      k := |st.names|;
      NewNameLast(ps, i);
      assert FirstNames(ps[..i+1])[k] == name;
    }
  }

  lemma NewNameLast(ps: seq<Piece>, i: nat)
    requires i < |ps| && ps[i].Named?
    ensures ps[i].name !in FirstNames(ps[..i]) ==> FirstNames(ps[..i+1]) == FirstNames(ps[..i]) + [ps[i].name]
  {
    assert ps[..i+1][..i] == ps[..i];
  }

  lemma NameBecomes(ps: seq<Piece>, i: nat)
    requires i < |ps| && ps[i].Named? && Questions(ps) == 0
    ensures Becomes(ps, i, Written(ps[i], Final(ps[..i], NONE_YET)))
  {
    hide Final, Num, Questions, FirstNames;
    var k := NamePlace(ps, i);
    assert FirstNames(ps)[k] == ps[i].name;
  }

  lemma WrittenBecomes(ps: seq<Piece>, i: nat)
    requires i < |ps| && (Questions(ps) == 0 || FirstNames(ps) == [])
    ensures Becomes(ps, i, WrittenTexts(ps)[i])
  {
    hide Final, Questions, FirstNames, Num;
    NamesAre(ps);
    QuestionCounts(ps, i);
    match ps[i] {
    case Inert(_) =>
    case Question => QuestionBecomes(ps, i);
    case Named(name) => assert Named(name) in ps; NameBecomes(ps, i);
    }
  }

  lemma QuestionCounts(ps: seq<Piece>, i: nat)
    requires i < |ps|
    ensures ps[i].Question? ==> Questions(ps) > 0
  {
    assert ps == ps[..i] + ([ps[i]] + ps[i+1..]);
    QuestionsJoin(ps[..i], [ps[i]] + ps[i+1..]);
  }

  /**
   * Every statement: it is refused exactly when it has both kinds of placeholder; otherwise it
   * comes back piece by piece, with only the placeholders changed and the names in index order.
   */
  lemma RewritesPieceByPiece(sql: string)
    ensures var ps := Lex(sql, true);
            match Rewrite(sql, true)
            case Mixed => Questions(ps) > 0 && FirstNames(ps) != []
            case Rewritten(text, names) =>
              && (Questions(ps) == 0 || FirstNames(ps) == []) && names == FirstNames(ps)
              && exists texts: seq<string> :: |texts| == |ps| && text == Concat(texts) &&
                   forall i :: 0 <= i < |ps| ==> Becomes(ps, i, texts[i])
  {
    hide Lex, Becomes;
    var ps := Lex(sql, true);
    SlotsAre(ps);
    TextIsConcat(ps);
    if Questions(ps) == 0 || FirstNames(ps) == [] {
      var texts := WrittenTexts(ps);
      forall i | 0 <= i < |ps| ensures Becomes(ps, i, texts[i]) { WrittenBecomes(ps, i); }
    }
  }
}
