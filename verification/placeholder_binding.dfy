/**
 * Arguments: a named statement takes one object, a positional one its values as
 * they are, and either way every value lands where the original statement had
 * the placeholder for it.
 */
module PlaceholderBinding {
  import opened Numbers
  import opened PlaceholderModel
  import opened PlaceholderLaws
  import opened PlaceholderTheorems
  import opened PlaceholderMeaning

  /** An argument is a plain object or anything else. */
  datatype Arg<V> = Scalar(value: V) | Object(fields: map<string, V>)

  datatype Bound<V> = Values(values: seq<Arg<V>>) | WrongShape(count: nat) | Missing(name: string)

  /** One object, in the order of the names; the first name it lacks is the error. */
  method BindArgs<V>(names: seq<string>, args: seq<Arg<V>>) returns (r: Bound<V>)
    ensures names == [] ==> r == Values(args)
    ensures r.WrongShape? <==> names != [] && (|args| != 1 || !args[0].Object?)
    ensures r.WrongShape? ==> r.count == |args|
    ensures names != [] && r.Values? ==>
              && |args| == 1 && args[0].Object? && |r.values| == |names|
              && forall i :: 0 <= i < |names| ==>
                   names[i] in args[0].fields && r.values[i] == Scalar(args[0].fields[names[i]])
    ensures r.Missing? ==>
              && |args| == 1 && args[0].Object?
              && exists i :: 0 <= i < |names| && names[i] == r.name && r.name !in args[0].fields &&
                   forall j :: 0 <= j < i ==> names[j] in args[0].fields
  {
    if |names| == 0 { return Values(args); }
    if |args| != 1 || !args[0].Object? { return WrongShape(|args|); }
    var o := args[0].fields;
    var values: seq<Arg<V>> := [];
    for i := 0 to |names|
      invariant |values| == i
      invariant forall j :: 0 <= j < i ==> names[j] in o && values[j] == Scalar(o[names[j]])
    {
      var k := names[i];
      if k !in o { return Missing(k); }
      values := values + [Scalar(o[k])];
    }
    r := Values(values);
  }

  // ── values in place ───────────────────────────────────────────────────────

  /** A statement with its values in place of its placeholders. */
  datatype Filled<V> = Copy(text: string) | Val(value: Arg<V>)

  function FillSlots<V>(rs: seq<Read>, values: seq<Arg<V>>): seq<Filled<V>>
    requires forall i :: 0 <= i < |rs| && rs[i].Slot? ==> 0 < rs[i].index <= |values|
  {
    seq(|rs|, i requires 0 <= i < |rs| =>
      if rs[i].Slot? then Val(values[rs[i].index - 1]) else Copy(rs[i].text))
  }

  function FillNamed<V>(ps: seq<Piece>, o: map<string, V>): seq<Filled<V>>
    requires forall i :: 0 <= i < |ps| ==> !ps[i].Question? && (ps[i].Named? ==> ps[i].name in o)
  {
    seq(|ps|, i requires 0 <= i < |ps| =>
      if ps[i].Named? then Val(Scalar(o[ps[i].name])) else Copy(ps[i].text))
  }

  /** The nth question mark takes the nth argument. */
  function FillPositional<V>(ps: seq<Piece>, args: seq<Arg<V>>): seq<Filled<V>>
    requires (forall i :: 0 <= i < |ps| ==> !ps[i].Named?) && |args| >= Questions(ps)
  {
    seq(|ps|, i requires 0 <= i < |ps| =>
      if ps[i].Question? then QuestionFits(ps, i); Val(args[Questions(ps[..i])]) else Copy(ps[i].text))
  }

  lemma QuestionFits(ps: seq<Piece>, i: nat)
    requires i < |ps| && ps[i].Question?
    ensures Questions(ps[..i]) < Questions(ps)
  {
    assert ps == ps[..i] + ([ps[i]] + ps[i+1..]);
    QuestionsJoin(ps[..i], [ps[i]] + ps[i+1..]);
  }

  /** The number a piece gets is the one the pieces before it leave for it. */
  lemma {:induction false} MeantAt(ps: seq<Piece>, st: Slots, i: nat)
    requires i < |ps|
    ensures |Meant(ps, st)| == |ps|
    ensures var at := Final(ps[..i], st);
            match ps[i]
            case Inert(text) => Meant(ps, st)[i] == Kept(text)
            case Question => Meant(ps, st)[i] == Slot(at.n + 1)
            case Named(name) => Meant(ps, st)[i] == Slot(if name in at.index then at.index[name] else at.n + 1)
    decreases |ps|
  {
    if |ps| > 1 { MeantAt(ps[1..], Take(ps[0], st), if i > 0 then i - 1 else 0); }
    if i > 0 {
      assert ps[1..][..i-1] == ps[..i][1..];
    }
  }

  lemma {:induction false} MeantSize(ps: seq<Piece>, st: Slots)
    ensures |Meant(ps, st)| == |ps|
  {
    if ps != [] { MeantSize(ps[1..], Take(ps[0], st)); }
  }

  /** The name's slot is its place among the names. */
  lemma NamedSlot(ps: seq<Piece>, i: nat)
    requires i < |ps| && ps[i].Named? && Questions(ps) == 0
    ensures var m := Meant(ps, NONE_YET);
            |m| == |ps| && m[i].Slot? && 0 < m[i].index <= |FirstNames(ps)| && FirstNames(ps)[m[i].index - 1] == ps[i].name
  {
    hide Num, Final, Meant, FirstNames, Questions;
    MeantAt(ps, NONE_YET, i);
    var k := NamePlace(ps, i);
  }

  /**
   * A named statement whose placeholders stand clear: what the rewritten statement reads with the
   * bound values is what the original reads with the object's fields.
   */
  lemma NamedMeaningKept<V>(sql: string, o: map<string, V>, values: seq<Arg<V>>)
    requires Rewrite(sql, true).Rewritten? && Clear(Lex(sql, true))
    requires var names := Rewrite(sql, true).names;
             && names != [] && |values| == |names|
             && forall i :: 0 <= i < |names| ==> names[i] in o && values[i] == Scalar(o[names[i]])
    ensures var ps, rs := Lex(sql, true), Reading(Rewrite(sql, true).text);
            && (forall i :: 0 <= i < |rs| && rs[i].Slot? ==> 0 < rs[i].index <= |values|)
            && (forall i :: 0 <= i < |ps| ==> !ps[i].Question? && (ps[i].Named? ==> ps[i].name in o))
            && FillSlots(rs, values) == FillNamed(ps, o)
  {
    hide Lex, Reading, Text, Meant, Clear, FirstNames, Questions, Final;
    var ps := Lex(sql, true);
    SlotsAre(ps);
    ReadsBackExactly(sql, NONE_YET);
    MeantSize(ps, NONE_YET);
    var rs := Reading(Rewrite(sql, true).text);
    assert rs == Meant(ps, NONE_YET);
    forall i | 0 <= i < |ps|
      ensures !ps[i].Question?
      ensures ps[i].Named? ==> ps[i].name in o && rs[i].Slot? && 0 < rs[i].index <= |values| &&
                               values[rs[i].index - 1] == Scalar(o[ps[i].name])
      ensures ps[i].Inert? ==> rs[i] == Kept(ps[i].text)
    {
      QuestionCounts(ps, i);
      MeantAt(ps, NONE_YET, i);
      if ps[i].Named? { NamedSlot(ps, i); }
    }
    assert FillSlots(rs, values) == FillNamed(ps, o);
  }

  /** A positional statement whose placeholders stand clear: the nth argument lands on the nth question mark. */
  lemma PositionalMeaningKept<V>(sql: string, args: seq<Arg<V>>)
    requires Rewrite(sql, true).Rewritten? && Rewrite(sql, true).names == [] && Clear(Lex(sql, true))
    requires |args| >= Questions(Lex(sql, true))
    ensures var ps, rs := Lex(sql, true), Reading(Rewrite(sql, true).text);
            && (forall i :: 0 <= i < |rs| && rs[i].Slot? ==> 0 < rs[i].index <= |args|)
            && (forall i :: 0 <= i < |ps| ==> !ps[i].Named?)
            && FillSlots(rs, args) == FillPositional(ps, args)
  {
    hide Lex, Reading, Text, Meant, Clear, FirstNames, Questions, Final;
    var ps := Lex(sql, true);
    SlotsAre(ps);
    NamesAre(ps);
    ReadsBackExactly(sql, NONE_YET);
    MeantSize(ps, NONE_YET);
    var rs := Reading(Rewrite(sql, true).text);
    assert rs == Meant(ps, NONE_YET);
    forall i | 0 <= i < |ps|
      ensures !ps[i].Named?
      ensures ps[i].Question? ==> Questions(ps[..i]) < Questions(ps) && rs[i] == Slot(Questions(ps[..i]) + 1)
      ensures ps[i].Inert? ==> rs[i] == Kept(ps[i].text)
    {
      assert ps[i] in ps;
      MeantAt(ps, NONE_YET, i);
      if ps[i].Question? { QuestionFits(ps, i); SlotsAre(ps[..i]); NamesBefore(ps, i); }
    }
    assert FillSlots(rs, args) == FillPositional(ps, args);
  }

  lemma FiveRewritten()
    ensures Rewrite("?5", true) == Rewritten("$15", []) && Lex("?5", true) != [] && Lex("?5", true)[0] == Question
  {
    ParamStep("5", NONE_YET);
    var st := Take(Question, NONE_YET);
    RunStep("5", "", st);
    assert "5" + "" == "5" && "?" + "5" == "?5";
    AtTheEnd(true, st);
    assert "$" + Num(1) + "5" == "$15";
  }

  lemma FifteenRead()
    ensures Reading("$15") == [Slot(15)]
  {
    assert "$15"[1..] == "15" && "15"[1..] == "5" && "5"[1..] == "" && "15"[..2] == "15";
    assert "15"[..1] == "1" && "1"[..0] == "";
    assert Value("1") == 1 && Value("15") == 15;
    assert "$15"[3..] == "";
  }

  /** Without a gap the number is read wrong: the first placeholder of `?5` comes out as the fifteenth. */
  lemma DigitRunsInto()
    ensures Rewrite("?5", true) == Rewritten("$15", [])
    ensures Reading("$15") == [Slot(15)] != Meant(Lex("?5", true), NONE_YET)
  {
    hide Rewrite, Lex, Reading;
    FiveRewritten();
    FifteenRead();
    assert Meant(Lex("?5", true), NONE_YET)[0] == Slot(1);
  }
}
