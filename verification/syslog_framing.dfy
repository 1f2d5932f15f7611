/**
 * Cutting a TCP byte stream into syslog messages: octet counting and LF framing
 * (RFC 6587, sections 3.4.1 and 3.4.2), the mode fixed by the first character.
 * The question is what the pieces the stream arrives in may change.
 */
module SyslogFraming {
  import opened Numbers
  import opened Wrappers

  const MAX_LEN_DIGITS: nat := 10

  datatype Mode = Octet | Lf

  datatype Error = NoLength | BadCount | TooBig(len: nat)

  function IndexOf(s: string, c: char): (n: nat)
    ensures n <= |s| && (n < |s| ==> s[n] == c) && forall i :: 0 <= i < n ==> s[i] != c
  {
    if s == [] || s[0] == c then 0 else 1 + IndexOf(s[1..], c)
  }

  predicate Count(s: string) { 1 <= |s| <= MAX_LEN_DIGITS && Digits(s) }

  // ── what a buffer holds ───────────────────────────────────────────────────

  datatype Cut = Cut(messages: seq<string>, rest: string, error: Option<Error>)

  /** A whole frame at the front: a count no larger than the limit, and everything it counts. */
  predicate Ready(buf: string, maxFrame: nat) {
    var sp := IndexOf(buf, ' ');
    sp < |buf| && Count(buf[..sp]) && Value(buf[..sp]) <= maxFrame && sp + 1 + Value(buf[..sp]) <= |buf|
  }

  function FrameEnd(buf: string, maxFrame: nat): (n: nat)
    requires Ready(buf, maxFrame)
    ensures IndexOf(buf, ' ') < n <= |buf|
  {
    IndexOf(buf, ' ') + 1 + Value(buf[..IndexOf(buf, ' ')])
  }

  function Payload(buf: string, maxFrame: nat): string
    requires Ready(buf, maxFrame)
  {
    buf[IndexOf(buf, ' ') + 1..FrameEnd(buf, maxFrame)]
  }

  /** What is wrong with a buffer that has no whole frame at the front, if it is not just waiting. */
  function Trouble(buf: string, maxFrame: nat): Option<Error> {
    var sp := IndexOf(buf, ' ');
    if sp == |buf| then (if |buf| > MAX_LEN_DIGITS then Some(NoLength) else None)
    else if !Count(buf[..sp]) then Some(BadCount)
    else if Value(buf[..sp]) > maxFrame then Some(TooBig(Value(buf[..sp])))
    else None
  }

  /** Octet counting: as many whole frames as there are, and then what is wrong, if anything is. */
  function Frames(buf: string, maxFrame: nat): Cut
    decreases |buf|
  {
    if !Ready(buf, maxFrame) then Cut([], buf, Trouble(buf, maxFrame))
    else
      var more := Frames(buf[FrameEnd(buf, maxFrame)..], maxFrame);
      Cut([Payload(buf, maxFrame)] + more.messages, more.rest, more.error)
  }

  function Stripped(line: string): string {
    if line != [] && line[|line|-1] == '\r' then line[..|line|-1] else line
  }

  /** LF framing: whole lines, without their ends and without empty ones. */
  function Lines(buf: string): (cut: Cut)
    ensures cut.error == None
    decreases |buf|
  {
    var nl := IndexOf(buf, '\n');
    if nl == |buf| then Cut([], buf, None)
    else
      var msg := Stripped(buf[..nl]);
      var more := Lines(buf[nl + 1..]);
      Cut((if msg != [] then [msg] else []) + more.messages, more.rest, None)
  }

  // ── the framer ────────────────────────────────────────────────────────────

  datatype State = State(buf: string, mode: Option<Mode>, truncated: nat, error: Option<Error>)

  const FRESH := State("", None, 0, None)

  function Locked(s: State): Option<Mode> {
    if s.mode.Some? then s.mode
    else if s.buf == [] then None
    else Some(if Digit(s.buf[0]) then Octet else Lf)
  }

  /** One push: the messages it completes, and the framer after it. */
  function Push(s: State, chunk: string, maxFrame: nat): (seq<string>, State) {
    if s.error.Some? then ([], s)
    else
      var s1 := s.(buf := s.buf + chunk);
      match Locked(s1)
      case None => ([], s1)
      case Some(Octet) =>
        var cut := Frames(s1.buf, maxFrame);
        (cut.messages, s1.(buf := cut.rest, mode := Some(Octet), error := cut.error))
      case Some(Lf) =>
        var cut := Lines(s1.buf);
        if |cut.rest| > maxFrame then
          (cut.messages + [cut.rest[..maxFrame]], s1.(buf := "", mode := Some(Lf), truncated := s.truncated + 1))
        else
          (cut.messages, s1.(buf := cut.rest, mode := Some(Lf)))
  }

  /** What the front of a buffer is, in the order the framer asks. */
  lemma FrameCases(buf: string, maxFrame: nat)
    ensures var sp, cut := IndexOf(buf, ' '), Frames(buf, maxFrame);
            if sp == |buf| then cut == Cut([], buf, if |buf| > MAX_LEN_DIGITS then Some(NoLength) else None)
            else if !Count(buf[..sp]) then cut == Cut([], buf, Some(BadCount))
            else
              var len := Value(buf[..sp]);
              if len > maxFrame then cut == Cut([], buf, Some(TooBig(len)))
              else if |buf| < sp + 1 + len then cut == Cut([], buf, None)
              else
                var more := Frames(buf[sp + 1 + len..], maxFrame);
                cut == Cut([buf[sp + 1..sp + 1 + len]] + more.messages, more.rest, more.error)
  {
    hide Frames, Value;
    NextFrame(buf, maxFrame);
  }

  lemma NextFrame(buf: string, maxFrame: nat)
    ensures Frames(buf, maxFrame) ==
            if !Ready(buf, maxFrame) then Cut([], buf, Trouble(buf, maxFrame))
            else
              var more := Frames(buf[FrameEnd(buf, maxFrame)..], maxFrame);
              Cut([Payload(buf, maxFrame)] + more.messages, more.rest, more.error)
  {
    hide Ready, Trouble, FrameEnd, Payload;
  }

  class Framer {
    const maxFrame: nat
    var buf: string
    var mode: Option<Mode>
    var truncated: nat
    var error: Option<Error>

    ghost function Abs(): State
      reads this
    {
      State(buf, mode, truncated, error)
    }

    constructor (maxFrame: nat)
      ensures Abs() == FRESH && this.maxFrame == maxFrame
    {
      this.maxFrame := maxFrame;
      buf, mode, truncated, error := "", None, 0, None;
    }

    method PushChunk(chunk: string) returns (out: seq<string>)
      modifies this
      ensures (out, Abs()) == Push(old(Abs()), chunk, maxFrame)
    {
      hide Frames, Lines;
      if error.Some? { return []; }
      buf := buf + chunk;
      if mode.None? {
        if |buf| == 0 { return []; }
        mode := Some(if Digit(buf[0]) then Octet else Lf);
      }
      if mode == Some(Octet) { out := CutOctets(); } else { out := CutLines(); }
    }

    method CutLines() returns (out: seq<string>)
      modifies this`buf, this`truncated
      ensures var cut := Lines(old(buf));
              if |cut.rest| > maxFrame then
                out == cut.messages + [cut.rest[..maxFrame]] && buf == "" && truncated == old(truncated) + 1
              else
                out == cut.messages && buf == cut.rest && truncated == old(truncated)
    {
      hide Lines;
      out := [];
      var nl := IndexOf(buf, '\n');
      while nl < |buf|
        invariant nl == IndexOf(buf, '\n') && truncated == old(truncated)
        invariant out + Lines(buf).messages == Lines(old(buf)).messages && Lines(buf).rest == Lines(old(buf)).rest
        decreases |buf|
      {
        LineFirst(buf);
        var msg := buf[..nl];
        buf := buf[nl + 1..];
        if |msg| > 0 && msg[|msg| - 1] == '\r' { msg := msg[..|msg| - 1]; }
        if |msg| > 0 { out := out + [msg]; }
        nl := IndexOf(buf, '\n');
      }
      NoLine(buf);
      if |buf| > maxFrame {
        out := out + [buf[..maxFrame]];
        truncated := truncated + 1;
        buf := "";
      }
    }

    method CutOctets() returns (out: seq<string>)
      requires error.None?
      modifies this`buf, this`error
      ensures var cut := Frames(old(buf), maxFrame); out == cut.messages && buf == cut.rest && error == cut.error
    {
      hide Frames, Value;
      out := [];
      while true
        invariant error.None?
        invariant var cut, all := Frames(buf, maxFrame), Frames(old(buf), maxFrame);
                  out + cut.messages == all.messages && cut.rest == all.rest && cut.error == all.error
        decreases |buf|
      {
        FrameCases(buf, maxFrame);
        var sp := IndexOf(buf, ' ');
        if sp == |buf| {
          if |buf| > MAX_LEN_DIGITS { error := Some(NoLength); }
          return;
        }
        var digits := buf[..sp];
        if !Count(digits) { error := Some(BadCount); return; }
        var len := Value(digits);
        if len > maxFrame { error := Some(TooBig(len)); return; }
        if |buf| < sp + 1 + len { return; }
        out := out + [buf[sp + 1..sp + 1 + len]];
        buf := buf[sp + 1 + len..];
      }
    }
  }

  // ── pieces ────────────────────────────────────────────────────────────────

  lemma {:induction false} IndexElsewhere(a: string, b: string, c: char)
    ensures IndexOf(a + b, c) == if IndexOf(a, c) < |a| then IndexOf(a, c) else |a| + IndexOf(b, c)
  {
    if a == [] {
      assert a + b == b;
    } else if a[0] != c {
      assert (a + b)[1..] == a[1..] + b;
      IndexElsewhere(a[1..], b, c);
    }
  }

  lemma ReadyStays(a: string, b: string, maxFrame: nat)
    requires Ready(a, maxFrame)
    ensures Ready(a + b, maxFrame) && FrameEnd(a + b, maxFrame) == FrameEnd(a, maxFrame) <= |a|
    ensures Payload(a + b, maxFrame) == Payload(a, maxFrame) && (a + b)[FrameEnd(a, maxFrame)..] == a[FrameEnd(a, maxFrame)..] + b
  {
    hide Value, Count;
    IndexElsewhere(a, b, ' ');
    assert (a + b)[..IndexOf(a, ' ')] == a[..IndexOf(a, ' ')];
  }

  lemma TroubleStays(a: string, b: string, maxFrame: nat)
    requires !Ready(a, maxFrame) && Trouble(a, maxFrame).Some?
    ensures !Ready(a + b, maxFrame) && Trouble(a + b, maxFrame).Some?
  {
    hide Value;
    IndexElsewhere(a, b, ' ');
    var sp := IndexOf(a, ' ');
    if sp < |a| { assert (a + b)[..sp] == a[..sp]; }
  }

  /** More of the stream never changes a frame that is already there, and never mends what is not one. */
  lemma {:induction false} FramesExtend(a: string, b: string, maxFrame: nat)
    ensures var first, all := Frames(a, maxFrame), Frames(a + b, maxFrame);
            if first.error.Some? then all.error.Some? && all.messages == first.messages
            else
              var more := Frames(first.rest + b, maxFrame);
              all == Cut(first.messages + more.messages, more.rest, more.error)
    decreases |a|
  {
    hide Ready, Trouble, Payload, FrameEnd, Frames;
    NextFrame(a, maxFrame);
    NextFrame(a + b, maxFrame);
    if Ready(a, maxFrame) {
      ReadyStays(a, b, maxFrame);
      FramesExtend(a[FrameEnd(a, maxFrame)..], b, maxFrame);
    } else if Trouble(a, maxFrame).Some? {
      TroubleStays(a, b, maxFrame);
    } else {
      assert [] + Frames(a + b, maxFrame).messages == Frames(a + b, maxFrame).messages;
    }
  }

  lemma {:induction false} LinesExtend(a: string, b: string)
    ensures var first, all := Lines(a), Lines(a + b);
            var more := Lines(first.rest + b);
            all == Cut(first.messages + more.messages, more.rest, None)
    decreases |a|
  {
    hide Stripped, Lines;
    var nl := IndexOf(a, '\n');
    IndexElsewhere(a, b, '\n');
    if nl == |a| {
      NoLine(a);
      assert [] + Lines(a + b).messages == Lines(a + b).messages;
    } else {
      var rest := a[nl + 1..];
      assert (a + b)[..nl] == a[..nl] && (a + b)[nl + 1..] == rest + b;
      LinesExtend(rest, b);
      LineFirst(a + b);
      LineFirst(a);
    }
  }

  lemma NoLine(buf: string)
    requires IndexOf(buf, '\n') == |buf|
    ensures Lines(buf) == Cut([], buf, None)
  {
  }

  lemma LineFirst(buf: string)
    requires IndexOf(buf, '\n') < |buf|
    ensures var nl := IndexOf(buf, '\n');
            var head := if Stripped(buf[..nl]) != [] then [Stripped(buf[..nl])] else [];
            Lines(buf) == Cut(head + Lines(buf[nl + 1..]).messages, Lines(buf[nl + 1..]).rest, None)
  {
  }
}
