/**
 * Nothing may assume that a chunk is a message: however the stream is cut, the
 * same messages come out. For octet counting that holds of every stream; for LF
 * framing exactly as long as no unterminated line outgrows the limit where the
 * stream is cut.
 */
module FramingTheorems {
  import opened Numbers
  import opened Wrappers
  import opened SyslogFraming

  function Feed(s: State, chunks: seq<string>, maxFrame: nat): (seq<string>, State) {
    if chunks == [] then ([], s)
    else
      var before := Feed(s, chunks[..|chunks|-1], maxFrame);
      var last := Push(before.1, chunks[|chunks|-1], maxFrame);
      (before.0 + last.0, last.1)
  }

  function Join(chunks: seq<string>): string {
    if chunks == [] then "" else Join(chunks[..|chunks|-1]) + chunks[|chunks|-1]
  }

  // ── octet counting ────────────────────────────────────────────────────────

  predicate OctetStream(t: string) { t != [] ==> Digit(t[0]) }

  /** The framer after a stream: the same whatever the pieces, but for the name of an error. */
  ghost predicate OctetAfter(t: string, out: seq<string>, s: State, maxFrame: nat) {
    var cut := Frames(t, maxFrame);
    && out == cut.messages && s.truncated == 0
    && (t == [] ==> s == FRESH)
    && (t != [] ==> s.mode == Some(Octet))
    && (s.error.Some? <==> cut.error.Some?)
    && (s.error.None? ==> s.buf == cut.rest)
  }

  lemma NoFrames(maxFrame: nat)
    ensures Frames("", maxFrame) == Cut([], "", None)
  {
  }

  lemma OctetPush(t: string, out: seq<string>, s: State, chunk: string, maxFrame: nat)
    requires OctetStream(t + chunk) && OctetAfter(t, out, s, maxFrame)
    ensures var r := Push(s, chunk, maxFrame); OctetAfter(t + chunk, out + r.0, r.1, maxFrame)
  {
    hide Frames;
    NoFrames(maxFrame);
    FramesExtend(t, chunk, maxFrame);
    if t == [] {
      assert t + chunk == chunk && "" + chunk == chunk;
      assert out == [];
    }
  }

  /** Octet counting: every way of cutting a stream gives the messages the whole stream holds. */
  lemma {:induction false} OctetChunksDoNotMatter(chunks: seq<string>, maxFrame: nat)
    requires OctetStream(Join(chunks))
    ensures var r := Feed(FRESH, chunks, maxFrame); OctetAfter(Join(chunks), r.0, r.1, maxFrame)
  {
    hide OctetAfter, Push;
    if chunks == [] {
      assert OctetAfter("", [], FRESH, maxFrame) by { OctetBegins(maxFrame); }
    } else {
      var n := |chunks| - 1;
      var t := Join(chunks[..n]);
      assert t != [] ==> (t + chunks[n])[0] == t[0];
      OctetChunksDoNotMatter(chunks[..n], maxFrame);
      var r := Feed(FRESH, chunks[..n], maxFrame);
      OctetPush(t, r.0, r.1, chunks[n], maxFrame);
    }
  }

  lemma OctetBegins(maxFrame: nat)
    ensures OctetAfter("", [], FRESH, maxFrame)
  {
    NoFrames(maxFrame);
  }

  lemma CountIs(d: string)
    ensures Count(d) <==> 1 <= |d| <= 10 && forall i :: 0 <= i < |d| ==> '0' <= d[i] <= '9'
  {
  }

  /** No blank yet: the length is still to come, unless ten characters were room enough for it. */
  lemma NoLengthYet(buf: string, maxFrame: nat)
    requires ' ' !in buf
    ensures Frames(buf, maxFrame) == Cut([], buf, if |buf| > 10 then Some(NoLength) else None)
  {
    hide Frames, IndexOf;
    FrameCases(buf, maxFrame);
  }

  /** What stands before the first blank has to be one to ten digits. */
  lemma LengthHasToCount(d: string, rest: string, maxFrame: nat)
    requires ' ' !in d && (|d| < 1 || |d| > 10 || exists i :: 0 <= i < |d| && !('0' <= d[i] <= '9'))
    ensures Frames(d + " " + rest, maxFrame) == Cut([], d + " " + rest, Some(BadCount))
  {
    hide Frames, IndexOf, Count;
    IndexAfter(d, rest, ' ');
    CountIs(d);
    assert (d + " " + rest)[..|d|] == d;
    FrameCases(d + " " + rest, maxFrame);
  }

  /** A length is a number: too big for the limit, not yet all there, or the frame and then the next. */
  lemma LengthCounts(n: nat, rest: string, maxFrame: nat)
    requires |Num(n)| <= 10
    ensures var buf, cut := Num(n) + " " + rest, Frames(Num(n) + " " + rest, maxFrame);
            if n > maxFrame then cut == Cut([], buf, Some(TooBig(n)))
            else if |rest| < n then cut == Cut([], buf, None)
            else
              var more := Frames(rest[n..], maxFrame);
              cut == Cut([rest[..n]] + more.messages, more.rest, more.error)
  {
    hide Frames, IndexOf, Num, Value, Count;
    var d := Num(n);
    var buf := d + " " + rest;
    assert ' ' !in d by { assert !Digit(' '); }
    IndexAfter(d, rest, ' ');
    CountIs(d);
    ValueOfNum(n);
    assert buf[..|d|] == d && buf[|d| + 1..] == rest;
    FrameCases(buf, maxFrame);
    if n <= |rest| { assert buf[|d| + 1..|d| + 1 + n] == rest[..n] && buf[|d| + 1 + n..] == rest[n..]; }
  }

  /** How a sender frames messages. */
  function Counted(messages: seq<string>): string {
    if messages == [] then ""
    else Num(|messages[0]|) + " " + messages[0] + Counted(messages[1..])
  }

  lemma {:induction false} IndexAfter(a: string, rest: string, c: char)
    requires forall i :: 0 <= i < |a| ==> a[i] != c
    ensures IndexOf(a + [c] + rest, c) == |a|
  {
    if a == [] {
      assert a + [c] + rest == [c] + rest;
    } else {
      assert (a + [c] + rest)[1..] == a[1..] + [c] + rest;
      IndexAfter(a[1..], rest, c);
    }
  }

  /** One message counted out, and whatever follows it. */
  lemma CountedFirst(m: string, rest: string, maxFrame: nat)
    requires |m| <= maxFrame && |Num(|m|)| <= 10
    ensures var more := Frames(rest, maxFrame);
            Frames(Num(|m|) + " " + m + rest, maxFrame) == Cut([m] + more.messages, more.rest, more.error)
  {
    hide Frames, Num;
    LengthCounts(|m|, m + rest, maxFrame);
    assert Num(|m|) + " " + m + rest == Num(|m|) + " " + (m + rest);
    assert (m + rest)[..|m|] == m && (m + rest)[|m|..] == rest;
  }

  /** What a sender counts out is what comes in, whatever the messages hold. */
  lemma {:induction false} CountedComesBack(messages: seq<string>, maxFrame: nat)
    requires forall m :: m in messages ==> |m| <= maxFrame && |Num(|m|)| <= 10
    ensures Frames(Counted(messages), maxFrame) == Cut(messages, "", None)
  {
    hide Frames, Num;
    NoFrames(maxFrame);
    if messages != [] {
      CountedFirst(messages[0], Counted(messages[1..]), maxFrame);
      CountedComesBack(messages[1..], maxFrame);
      assert [messages[0]] + messages[1..] == messages;
    }
  }

  /** End to end: messages counted out, the stream cut anywhere, the same messages received. */
  lemma CountedAnyChunks(messages: seq<string>, chunks: seq<string>, maxFrame: nat)
    requires forall m :: m in messages ==> |m| <= maxFrame && |Num(|m|)| <= 10
    requires Join(chunks) == Counted(messages)
    ensures Feed(FRESH, chunks, maxFrame).0 == messages && Feed(FRESH, chunks, maxFrame).1.error == None
  {
    hide Feed, Frames, Num;
    CountedComesBack(messages, maxFrame);
    if messages != [] { assert Counted(messages)[0] == Num(|messages[0]|)[0]; }
    OctetChunksDoNotMatter(chunks, maxFrame);
  }

  // ── LF framing ────────────────────────────────────────────────────────────

  function TwoPushes(s: State, a: string, b: string, maxFrame: nat): (seq<string>, State) {
    var first := Push(s, a, maxFrame);
    var second := Push(first.1, b, maxFrame);
    (first.0 + second.0, second.1)
  }

  /** A push on an LF connection, from what its buffer and the chunk hold together. */
  lemma LfPush(s: State, chunk: string, maxFrame: nat)
    requires s.mode == Some(Lf) && s.error == None
    ensures var cut := Lines(s.buf + chunk);
            Push(s, chunk, maxFrame) ==
            if |cut.rest| > maxFrame then
              (cut.messages + [cut.rest[..maxFrame]], State("", Some(Lf), s.truncated + 1, None))
            else
              (cut.messages, State(cut.rest, Some(Lf), s.truncated, None))
  {
    hide Lines;
  }

  lemma SplitNothing(s: State, a: string, maxFrame: nat)
    requires s.mode == Some(Lf) && s.error == None
    ensures TwoPushes(s, a, "", maxFrame) == Push(s, a, maxFrame)
  {
    hide Lines, Push;
    LfPush(s, a, maxFrame);
    var first := Push(s, a, maxFrame);
    LfPush(first.1, "", maxFrame);
    RestHasNoLine(s.buf + a);
    NoLine("");
    assert first.1.buf + "" == first.1.buf;
    NoLine(first.1.buf);
    assert first.0 + [] == first.0;
  }

  lemma SplitShort(s: State, a: string, b: string, maxFrame: nat)
    requires s.mode == Some(Lf) && s.error == None && |Lines(s.buf + a).rest| <= maxFrame
    ensures TwoPushes(s, a, b, maxFrame) == Push(s, a + b, maxFrame)
  {
    hide Lines, Push;
    LfPush(s, a, maxFrame);
    var first := Push(s, a, maxFrame);
    LfPush(first.1, b, maxFrame);
    LfPush(s, a + b, maxFrame);
    assert s.buf + (a + b) == (s.buf + a) + b;
    LinesExtend(s.buf + a, b);
    var more := Lines(first.1.buf + b);
    if |more.rest| > maxFrame {
      assert (first.0 + more.messages) + [more.rest[..maxFrame]] == first.0 + (more.messages + [more.rest[..maxFrame]]);
    }
  }

  lemma SplitLong(s: State, a: string, b: string, maxFrame: nat)
    requires s.mode == Some(Lf) && s.error == None && |Lines(s.buf + a).rest| > maxFrame && b != ""
    ensures TwoPushes(s, a, b, maxFrame).1 != Push(s, a + b, maxFrame).1
  {
    hide Lines, Push;
    LfPush(s, a, maxFrame);
    var first := Push(s, a, maxFrame);
    LfPush(first.1, b, maxFrame);
    LfPush(s, a + b, maxFrame);
    var t := s.buf + a;
    assert s.buf + (a + b) == t + b && "" + b == b;
    LinesExtend(t, b);
    RestHasNoLine(t);
    TooLong(Lines(t).rest, b);
  }

  lemma SplitLocked(s: State, a: string, b: string, maxFrame: nat)
    requires s.mode == Some(Lf) && s.error == None
    ensures TwoPushes(s, a, b, maxFrame) == Push(s, a + b, maxFrame) <==>
            |Lines(s.buf + a).rest| <= maxFrame || b == ""
  {
    hide TwoPushes, Push, Lines;
    if b == "" {
      assert a + b == a;
      SplitNothing(s, a, maxFrame);
    } else if |Lines(s.buf + a).rest| <= maxFrame {
      SplitShort(s, a, b, maxFrame);
    } else {
      SplitLong(s, a, b, maxFrame);
    }
  }

  /** The framer is in LF mode, or it is new and the first character of what comes puts it there. */
  predicate Lined(s: State, t: string) {
    && s.error == None
    && (s.mode == Some(Lf) || (s.mode == None && s.buf == "" && (t != "" ==> !Digit(t[0]))))
  }

  /** A new framer is put into LF mode by its first push. */
  lemma FirstPush(s: State, t: string, maxFrame: nat)
    requires s.mode == None && s.buf == "" && s.error == None
    ensures t == "" ==> Push(s, t, maxFrame) == ([], s)
    ensures t != "" && !Digit(t[0]) ==> Push(s, t, maxFrame) == Push(s.(mode := Some(Lf)), t, maxFrame)
  {
    hide Lines, Frames;
    assert "" + t == t;
  }

  /** Two pushes are one exactly when the line left unfinished between them is within the limit: the first two of a connection, or any later. */
  lemma SplitLinesExactly(s: State, a: string, b: string, maxFrame: nat)
    requires Lined(s, a + b)
    ensures TwoPushes(s, a, b, maxFrame) == Push(s, a + b, maxFrame) <==>
            |Lines(s.buf + a).rest| <= maxFrame || b == ""
  {
    hide Push, Lines;
    if s.mode == Some(Lf) {
      SplitLocked(s, a, b, maxFrame);
    } else if a == "" {
      FirstPush(s, a, maxFrame);
      NoLine("");
      assert a + b == b && s.buf + a == "";
      assert [] + Push(s, b, maxFrame).0 == Push(s, b, maxFrame).0;
    } else {
      var locked := s.(mode := Some(Lf));
      assert (a + b)[0] == a[0];
      FirstPush(s, a, maxFrame);
      FirstPush(s, a + b, maxFrame);
      SplitLocked(locked, a, b, maxFrame);
    }
  }

  lemma {:induction false} RestHasNoLine(t: string)
    ensures IndexOf(Lines(t).rest, '\n') == |Lines(t).rest|
    decreases |t|
  {
    hide Lines, Stripped;
    var nl := IndexOf(t, '\n');
    if nl < |t| {
      LineFirst(t);
      RestHasNoLine(t[nl + 1..]);
    } else {
      NoLine(t);
    }
  }

  /** What one line end does to the remainder. */
  lemma RestAt(t: string)
    ensures Lines(t).rest == if IndexOf(t, '\n') == |t| then t else Lines(t[IndexOf(t, '\n') + 1..]).rest
  {
    hide IndexOf, Stripped;
  }

  /** Joining a part without a line end puts the first end of the rest later. */
  lemma EndLater(left: string, b: string)
    requires IndexOf(left, '\n') == |left|
    ensures IndexOf(left + b, '\n') == |left| + IndexOf(b, '\n')
    ensures (left + b)[|left|..] == b
  {
    hide IndexOf;
    IndexElsewhere(left, b, '\n');
  }

  /** A line cut off and then continued: what is left after it depends on the cut. */
  lemma TooLong(left: string, b: string)
    requires IndexOf(left, '\n') == |left| && b != ""
    ensures Lines(left + b).rest == if IndexOf(b, '\n') == |b| then left + b else Lines(b).rest
    ensures IndexOf(b, '\n') == |b| ==> Lines(b).rest == b
  {
    hide Lines, IndexOf;
    var t, nl := left + b, IndexOf(b, '\n');
    EndLater(left, b);
    RestAt(b);
    RestAt(t);
    if nl < |b| { assert t[|left| + (nl + 1)..] == b[nl + 1..]; }
  }

  /** No line of the stream is longer than the limit. */
  predicate Short(t: string, maxFrame: nat)
    decreases |t|
  {
    IndexOf(t, '\n') <= maxFrame && (IndexOf(t, '\n') < |t| ==> Short(t[IndexOf(t, '\n') + 1..], maxFrame))
  }

  lemma {:induction false} ShortPrefix(a: string, b: string, maxFrame: nat)
    requires Short(a + b, maxFrame)
    ensures Short(a, maxFrame) && |Lines(a).rest| <= maxFrame
    decreases |a|
  {
    IndexElsewhere(a, b, '\n');
    var nl := IndexOf(a, '\n');
    if nl < |a| {
      assert (a + b)[nl + 1..] == a[nl + 1..] + b;
      ShortPrefix(a[nl + 1..], b, maxFrame);
    }
  }

  predicate LfStream(t: string) { t != [] ==> !Digit(t[0]) }

  /** LF framing: with no line over the limit, every way of cutting a stream gives its lines, and none is cut short. */
  lemma {:induction false} LfChunksDoNotMatter(chunks: seq<string>, maxFrame: nat)
    requires LfStream(Join(chunks)) && Short(Join(chunks), maxFrame)
    ensures var t, r := Join(chunks), Feed(FRESH, chunks, maxFrame);
            r == (Lines(t).messages, State(Lines(t).rest, if t == [] then None else Some(Lf), 0, None))
  {
    hide Lines, Short;
    NoLine("");
    if chunks != [] {
      var n := |chunks| - 1;
      var t, last := Join(chunks[..n]), chunks[n];
      assert t != [] ==> (t + last)[0] == t[0];
      ShortPrefix(t, last, maxFrame);
      assert Short(t + last, maxFrame) ==> |Lines(t + last).rest| <= maxFrame by {
        assert (t + last) + "" == t + last;
        ShortPrefix(t + last, "", maxFrame);
      }
      LfChunksDoNotMatter(chunks[..n], maxFrame);
      LinesExtend(t, last);
      if t == [] { assert t + last == last && "" + last == last; }
    }
  }

  /** A line as a sender sends it: its text, ended with CR LF or with LF alone. */
  datatype Sent = Sent(text: string, crlf: bool)

  function Ended(lines: seq<Sent>): string {
    if lines == [] then ""
    else lines[0].text + (if lines[0].crlf then "\r\n" else "\n") + Ended(lines[1..])
  }

  /** The texts, without the blank ones. */
  function Texts(lines: seq<Sent>): seq<string> {
    if lines == [] then [] else (if lines[0].text == "" then [] else [lines[0].text]) + Texts(lines[1..])
  }

  /** No line end in the text, and room for it, with its CR, in an unfinished line. */
  predicate Line(l: Sent, maxFrame: nat) {
    && (forall i :: 0 <= i < |l.text| ==> l.text[i] != '\n')
    && (l.text != "" ==> l.text[|l.text|-1] != '\r')
    && |l.text| + (if l.crlf then 1 else 0) <= maxFrame
  }

  /** One line off the front: the text before the newline, without one return character at its end. */
  lemma OneLineOff(before: string, rest: string, maxFrame: nat)
    requires forall i :: 0 <= i < |before| ==> before[i] != '\n'
    ensures var text := if before != "" && before[|before|-1] == '\r' then before[..|before|-1] else before;
            var buf, more := before + "\n" + rest, Lines(rest);
            && Lines(buf) == Cut((if text == "" then [] else [text]) + more.messages, more.rest, None)
            && (|before| <= maxFrame && Short(rest, maxFrame) ==> Short(buf, maxFrame))
  {
    hide IndexOf;
    var buf := before + "\n" + rest;
    IndexAfter(before, rest, '\n');
    assert buf == before + ['\n'] + rest;
    assert buf[..|before|] == before && buf[|before| + 1..] == rest;
  }

  /** A line sent comes off as it was sent, whichever way it ended. */
  lemma LineComesBack(l: Sent, rest: string, maxFrame: nat)
    requires Line(l, maxFrame)
    ensures var buf, more := l.text + (if l.crlf then "\r\n" else "\n") + rest, Lines(rest);
            && Lines(buf) == Cut((if l.text == "" then [] else [l.text]) + more.messages, more.rest, None)
            && (Short(rest, maxFrame) ==> Short(buf, maxFrame))
  {
    hide Lines, Short;
    if l.crlf {
      var before := l.text + "\r";
      OneLineOff(before, rest, maxFrame);
      assert before[..|before|-1] == l.text;
      assert l.text + "\r\n" + rest == before + "\n" + rest;
    } else {
      OneLineOff(l.text, rest, maxFrame);
    }
  }

  lemma {:induction false} LinesComeBack(lines: seq<Sent>, maxFrame: nat)
    requires forall l :: l in lines ==> Line(l, maxFrame)
    ensures Lines(Ended(lines)) == Cut(Texts(lines), "", None) && Short(Ended(lines), maxFrame)
  {
    hide Lines, Line, Short;
    if lines == [] {
      NothingLeft(maxFrame);
    } else {
      LineComesBack(lines[0], Ended(lines[1..]), maxFrame);
      LinesComeBack(lines[1..], maxFrame);
    }
  }

  lemma NothingLeft(maxFrame: nat)
    ensures Lines("") == Cut([], "", None) && Short("", maxFrame)
  {
  }

  /** End to end, for lines ended either way, blank ones among them, when the stream does not begin with a digit: the same texts. */
  lemma LinesAnyChunks(lines: seq<Sent>, chunks: seq<string>, maxFrame: nat)
    requires forall l :: l in lines ==> Line(l, maxFrame)
    requires Join(chunks) == Ended(lines)
    requires lines != [] && lines[0].text != "" ==> !('0' <= lines[0].text[0] <= '9')
    ensures Feed(FRESH, chunks, maxFrame).0 == Texts(lines) && Feed(FRESH, chunks, maxFrame).1.truncated == 0
  {
    hide Feed, Lines, Short;
    LinesComeBack(lines, maxFrame);
    if lines != [] {
      var first := lines[0].text + (if lines[0].crlf then "\r\n" else "\n");
      assert Ended(lines)[0] == first[0];
    }
    LfChunksDoNotMatter(chunks, maxFrame);
  }

  /** A line that outgrows the limit before it ends is cut to the limit, counted, and the rest of what came of it thrown away. */
  lemma LongLineIsCut(s: State, chunk: string, maxFrame: nat)
    requires s.mode == Some(Lf) && s.error == None && |s.buf + chunk| > maxFrame
    requires forall i :: 0 <= i < |s.buf + chunk| ==> (s.buf + chunk)[i] != '\n'
    ensures Push(s, chunk, maxFrame) ==
            ([(s.buf + chunk)[..maxFrame]], s.(buf := "", truncated := s.truncated + 1))
  {
    hide Lines, Frames;
    var t := s.buf + chunk;
    assert IndexOf(t, '\n') == |t|;
    NoLine(t);
    assert [] + [t[..maxFrame]] == [t[..maxFrame]];
  }

  // ── what the framer holds ─────────────────────────────────────────────────

  /** A buffer of a live framer is never longer than an unfinished frame of the largest permitted size. */
  predicate Within(s: State, maxFrame: nat) {
    s.error.None? ==>
      match s.mode
      case None => s.buf == []
      case Some(Lf) => |s.buf| <= maxFrame
      case Some(Octet) => |s.buf| <= 10 + maxFrame
  }

  lemma {:induction false} RestBounded(buf: string, maxFrame: nat)
    requires Frames(buf, maxFrame).error.None?
    ensures |Frames(buf, maxFrame).rest| <= 10 + maxFrame
    decreases |buf|
  {
    hide Value;
    if Ready(buf, maxFrame) { RestBounded(buf[FrameEnd(buf, maxFrame)..], maxFrame); }
  }

  lemma PushBounded(s: State, chunk: string, maxFrame: nat)
    requires Within(s, maxFrame)
    ensures Within(Push(s, chunk, maxFrame).1, maxFrame)
  {
    hide Frames, Lines;
    var s1 := s.(buf := s.buf + chunk);
    if s.error.None? && Locked(s1) == Some(Octet) && Frames(s1.buf, maxFrame).error.None? { RestBounded(s1.buf, maxFrame); }
  }

  /** Whatever a peer sends and however it is cut, what is held between two pushes is bounded, until an error closes the connection. */
  lemma {:induction false} BufferBounded(chunks: seq<string>, maxFrame: nat)
    ensures Within(Feed(FRESH, chunks, maxFrame).1, maxFrame)
  {
    hide Push, Within;
    if chunks == [] {
      FreshWithin(maxFrame);
    } else {
      var n := |chunks| - 1;
      BufferBounded(chunks[..n], maxFrame);
      PushBounded(Feed(FRESH, chunks[..n], maxFrame).1, chunks[n], maxFrame);
    }
  }

  lemma FreshWithin(maxFrame: nat)
    ensures Within(FRESH, maxFrame)
  {
  }
}
