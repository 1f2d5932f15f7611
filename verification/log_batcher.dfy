/**
 * The agent's journal lines on their way out: a queue that sends a hundred lines
 * as soon as it has them, and whatever it has when the timer or the shutdown says so.
 */
module LogBatcher {
  const LOG_QUEUE_CAP: nat := 2000
  const LOG_BATCH: nat := 100

  datatype Line = Line(device: string, text: string, sev: nat)

  /** All but the queue is history: lines pushed out, every line ever enqueued, every batch ever posted. */
  datatype Shipper = Shipper(queue: seq<Line>, dropped: nat, offered: seq<Line>, issued: seq<seq<Line>>)

  datatype Event = Offered(line: Line) | FlushDue

  function Flushed(s: Shipper): Shipper {
    if s.queue == [] then s
    else
      var k := if |s.queue| < LOG_BATCH then |s.queue| else LOG_BATCH;
      s.(queue := s.queue[k..], issued := s.issued + [s.queue[..k]])
  }

  function Enqueued(s: Shipper, line: Line): Shipper {
    var room := if |s.queue| >= LOG_QUEUE_CAP then s.(queue := s.queue[1..], dropped := s.dropped + 1) else s;
    var s1 := room.(queue := room.queue + [line], offered := s.offered + [line]);
    if |s1.queue| >= LOG_BATCH then Flushed(s1) else s1
  }

  function Step(s: Shipper, e: Event): Shipper {
    match e
    case Offered(line) => Enqueued(s, line)
    case FlushDue => Flushed(s)
  }

  function After(s: Shipper, evs: seq<Event>): Shipper {
    if evs == [] then s else Step(After(s, evs[..|evs|-1]), evs[|evs|-1])
  }

  const EMPTY := Shipper([], 0, [], [])

  class LogQueue {
    var logQueue: seq<Line>
    ghost var dropped: nat
    ghost var offered: seq<Line>
    ghost var issued: seq<seq<Line>>

    ghost function Abs(): Shipper
      reads this
    {
      Shipper(logQueue, dropped, offered, issued)
    }

    constructor ()
      ensures Abs() == EMPTY
    {
      logQueue, dropped, offered, issued := [], 0, [], [];
    }

    /** The batch leaves the queue before anything is awaited. */
    method FlushLogs()
      modifies this
      ensures Abs() == Flushed(old(Abs()))
    {
      if |logQueue| == 0 { return; }
      var n := if |logQueue| < LOG_BATCH then |logQueue| else LOG_BATCH;
      var batch := logQueue[..n];
      logQueue := logQueue[n..];
      issued := issued + [batch];
    }

    method EnqueueLog(line: Line)
      modifies this
      ensures Abs() == Enqueued(old(Abs()), line)
    {
      if |logQueue| >= LOG_QUEUE_CAP {
        logQueue := logQueue[1..];
        dropped := dropped + 1;
      }
      logQueue := logQueue + [line];
      offered := offered + [line];
      if |logQueue| >= LOG_BATCH { FlushLogs(); }
    }

    /** The last flush before the process ends. */
    method Shutdown()
      modifies this
      ensures Abs() == Flushed(old(Abs()))
    {
      FlushLogs();
    }
  }

  function Flat(batches: seq<seq<Line>>): seq<Line> {
    if batches == [] then [] else Flat(batches[..|batches|-1]) + batches[|batches|-1]
  }

  /** Nothing lost, nothing twice, nothing out of order; and never a hundred lines waiting. */
  ghost predicate Exact(s: Shipper) {
    && Flat(s.issued) + s.queue == s.offered
    && |s.queue| < 100 && s.dropped == 0
    && forall i :: 0 <= i < |s.issued| ==> 0 < |s.issued[i]| <= 100
  }

  lemma FlushExact(s: Shipper)
    requires Flat(s.issued) + s.queue == s.offered && s.dropped == 0 && |s.queue| <= LOG_BATCH
    requires forall i :: 0 <= i < |s.issued| ==> 0 < |s.issued[i]| <= LOG_BATCH
    ensures Exact(Flushed(s)) && Flushed(s).queue == []
  {
    var s' := Flushed(s);
    if s.queue != [] {
      assert s.queue[..|s.queue|] == s.queue;
      assert s'.issued[..|s.issued|] == s.issued;
      assert Flat(s'.issued) + [] == s.offered;
    }
  }

  /** Over every run, whenever the timer strikes: batching is exact, and no line is ever dropped. */
  lemma {:induction false} BatchingIsExact(evs: seq<Event>)
    ensures Exact(After(EMPTY, evs))
  {
    if evs != [] {
      var n := |evs| - 1;
      BatchingIsExact(evs[..n]);
      var s := After(EMPTY, evs[..n]);
      match evs[n] {
      case FlushDue => FlushExact(s);
      case Offered(line) =>
        var s1 := s.(queue := s.queue + [line], offered := s.offered + [line]);
        assert Flat(s1.issued) + s1.queue == s1.offered;
        if |s1.queue| >= LOG_BATCH { FlushExact(s1); }
      }
    }
  }

  /** A line makes at most one batch, of exactly a hundred lines ending with it. */
  lemma BatchesFromLinesAreFull(evs: seq<Event>, line: Line)
    ensures var s, s' := After(EMPTY, evs), Enqueued(After(EMPTY, evs), line);
            s'.issued == s.issued || (s'.queue == [] && s'.issued == s.issued + [s.queue + [line]] && |s.queue| + 1 == 100)
  {
    BatchingIsExact(evs);
    var s := After(EMPTY, evs);
    if |s.queue| + 1 == LOG_BATCH {
      assert (s.queue + [line])[..LOG_BATCH] == s.queue + [line];
    }
  }

  /** One flush is enough at shutdown: after it, every line ever enqueued is in a batch. */
  lemma ShutdownEmpties(evs: seq<Event>)
    ensures var s := Flushed(After(EMPTY, evs)); s.queue == [] && Flat(s.issued) == s.offered
  {
    BatchingIsExact(evs);
    FlushExact(After(EMPTY, evs));
    var s := Flushed(After(EMPTY, evs));
    assert Flat(s.issued) + [] == Flat(s.issued);
  }
}
