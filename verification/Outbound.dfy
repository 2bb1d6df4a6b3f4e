/**
 A connection's outbound queue and the coroutine that drains it
 (Server/src/weyvelength_server.cpp, Enqueue, WriteLoop and the end of Session).
 Between suspension points everything runs to completion on one thread.
 */
module Outbound {
  import opened Protocol

  type Frame = seq<byte>

  /** Where WriteLoop is suspended: waiting on the timer, about to resume, or in a socket write. */
  datatype Phase = Parked | Woken | Writing(frame: Frame) | Ended(lost: seq<Frame>)

  /** `written` and `enqueued` record what has happened. */
  datatype Writer = Writer(
    out: seq<Frame>, closing: bool, phase: Phase, written: seq<Frame>, enqueued: seq<Frame>)

  const NEW_WRITER := Writer([], false, Woken, [], [])

  datatype Step =
    | Enqueue(frame: Frame)
    | Resume       // the cancelled wait completes, or the coroutine first runs
    | WriteDone    // the socket write completes
    | WriteFails   // the socket write throws
    | EndSession

  /** wake.cancel(): completes a pending wait, does nothing if there is none. */
  function Wake(p: Phase): Phase {
    if p.Parked? then Woken else p
  }

  /** From the top of the loop to the next suspension. */
  function Turn(w: Writer): Writer {
    if w.closing then w.(phase := Ended([]))
    else if w.out == [] then w.(phase := Parked)
    else w.(phase := Writing(w.out[0]), out := w.out[1..])
  }

  function Do(w: Writer, step: Step): Writer {
    match step
    case Enqueue(f) => w.(out := w.out + [f], enqueued := w.enqueued + [f], phase := Wake(w.phase))
    case Resume => if w.phase.Woken? then Turn(w) else w
    case WriteDone => if w.phase.Writing? then Turn(w.(written := w.written + [w.phase.frame])) else w
    case WriteFails => if w.phase.Writing? then w.(phase := Ended([w.phase.frame])) else w
    case EndSession => w.(closing := true, phase := Wake(w.phase))
  }

  function Run(w: Writer, steps: seq<Step>): Writer {
    if steps == [] then w else Do(Run(w, steps[..|steps| - 1]), steps[|steps| - 1])
  }

  function InFlight(p: Phase): seq<Frame> {
    match p
    case Writing(f) => [f]
    case Ended(lost) => lost
    case _ => []
  }

  /** Nothing lost, repeated or reordered; parked only with nothing to do. */
  ghost predicate WriterOk(w: Writer) {
    && w.written + InFlight(w.phase) + w.out == w.enqueued
    && (w.phase.Parked? ==> w.out == [] && !w.closing)
  }

  lemma TurnOk(w: Writer)
    requires w.written + w.out == w.enqueued
    ensures WriterOk(Turn(w))
  {
    if w.out != [] { assert w.written + [w.out[0]] + w.out[1..] == w.written + w.out; }
    assert w.written + [] == w.written;
  }

  lemma StepOk(w: Writer, step: Step)
    requires WriterOk(w)
    ensures WriterOk(Do(w, step))
  {
    assert w.written + [] == w.written;
    match step {
      case Enqueue(f) =>
        assert w.written + InFlight(w.phase) + (w.out + [f]) == w.written + InFlight(w.phase) + w.out + [f];
      case Resume => if w.phase.Woken? { TurnOk(w); }
      case WriteDone => if w.phase.Writing? { TurnOk(w.(written := w.written + [w.phase.frame])); }
      case WriteFails =>
      case EndSession =>
    }
  }

  /**
   In every interleaving of sends, completions and the session's end: frames
   written, the one in flight and the queue are everything enqueued, in order,
   and the loop sleeps only when the queue is empty and the session is up.
   */
  lemma {:induction false} NoLostWakeup(steps: seq<Step>)
    ensures WriterOk(Run(NEW_WRITER, steps))
  {
    if steps != [] {
      NoLostWakeup(steps[..|steps| - 1]);
      StepOk(Run(NEW_WRITER, steps[..|steps| - 1]), steps[|steps| - 1]);
    }
  }

  /** The completions that drain `n` queued frames behind whatever is in flight. */
  function Completions(n: nat): seq<Step> {
    if n == 0 then [] else Completions(n - 1) + [WriteDone]
  }

  /** Every queued frame has a completion that starts it: `n` of them leave the rest in flight or waiting. */
  lemma {:induction false} Drains(w: Writer, n: nat)
    requires WriterOk(w) && !w.closing && w.phase.Writing? && n <= |w.out| + 1
    ensures var v := Run(w, Completions(n));
            && !v.closing && v.enqueued == w.enqueued && WriterOk(v)
            && (n <= |w.out| ==> v.phase.Writing? && v.out == w.out[n..])
            && (n == |w.out| + 1 ==> v.phase.Parked? && v.out == [] && v.written == w.enqueued)
  {
    if n > 0 {
      Drains(w, n - 1);
      CompletionsSnoc(w, n);
      hide Run, Completions;
      var u := Run(w, Completions(n - 1));
      DrainOne(w, u, n);
    }
  }

  lemma CompletionsSnoc(w: Writer, n: nat)
    requires n > 0
    ensures Run(w, Completions(n)) == Do(Run(w, Completions(n - 1)), WriteDone)
  {
    assert Completions(n)[..|Completions(n)| - 1] == Completions(n - 1);
  }

  lemma DrainOne(w: Writer, u: Writer, n: nat)
    requires 0 < n <= |w.out| + 1 && WriterOk(u) && !u.closing && u.phase.Writing?
    requires u.enqueued == w.enqueued && u.out == w.out[n - 1..]
    ensures var v := Do(u, WriteDone);
            && !v.closing && v.enqueued == w.enqueued && WriterOk(v)
            && (n <= |w.out| ==> v.phase.Writing? && v.out == w.out[n..])
            && (n == |w.out| + 1 ==> v.phase.Parked? && v.out == [] && v.written == w.enqueued)
  {
    StepOk(u, WriteDone);
    if n <= |w.out| {
      assert w.out[n - 1..][1..] == w.out[n..];
    } else {
      var v := Do(u, WriteDone);
      assert v.written + [] + [] == v.written;
    }
  }

  /** From any live state, one resumption and as many completions as there are frames send them all. */
  lemma EverythingGoesOut(steps: seq<Step>)
    requires !Run(NEW_WRITER, steps).closing && !Run(NEW_WRITER, steps).phase.Ended?
    ensures var w := Run(NEW_WRITER, steps);
            exists more :: Run(w, more).phase.Parked? && Run(w, more).written == w.enqueued
  {
    NoLostWakeup(steps);
    var w := Run(NEW_WRITER, steps);
    if w.phase.Writing? {
      Drains(w, |w.out| + 1);
    } else {
      var v := Run(w, [Resume]);
      RunOne(w, Resume);
      StepOk(w, Resume);
      assert v.written + [] + [] == v.written;
      if v.phase.Writing? {
        Drains(v, |v.out| + 1);
        RunConcat(w, [Resume], Completions(|v.out| + 1));
      }
    }
  }

  /** The frames the writer has taken off the queue. */
  function Started(w: Writer): seq<Frame> {
    w.written + InFlight(w.phase)
  }

  /** Once its session has ended, a writer starts no further frame: it finishes or loses the one in flight. */
  lemma {:induction false} ClosingStartsNothing(steps: seq<Step>, more: seq<Step>)
    ensures Run(NEW_WRITER, steps + [EndSession] + more).closing
    ensures Started(Run(NEW_WRITER, steps + [EndSession] + more)) == Started(Run(NEW_WRITER, steps))
    decreases more
  {
    var all := steps + [EndSession] + more;
    if more == [] {
      assert all == steps + [EndSession] && all[..|all| - 1] == steps;
    } else {
      assert all[..|all| - 1] == steps + [EndSession] + more[..|more| - 1];
      ClosingStartsNothing(steps, more[..|more| - 1]);
      hide Run;
      ClosingStep(Run(NEW_WRITER, all[..|all| - 1]), more[|more| - 1]);
      RunLast(NEW_WRITER, all);
    }
  }

  /** A write that fails ends the loop: nothing is written after it. */
  lemma {:induction false} FailureEndsWriting(steps: seq<Step>, more: seq<Step>)
    requires Run(NEW_WRITER, steps).phase.Writing?
    ensures var w, v := Run(NEW_WRITER, steps), Run(NEW_WRITER, steps + [WriteFails] + more);
            v.phase == Ended([w.phase.frame]) && v.written == w.written
    decreases more
  {
    var all := steps + [WriteFails] + more;
    RunLast(NEW_WRITER, all);
    if more == [] {
      assert all == steps + [WriteFails] && all[..|all| - 1] == steps;
    } else {
      assert all[..|all| - 1] == steps + [WriteFails] + more[..|more| - 1];
      FailureEndsWriting(steps, more[..|more| - 1]);
      hide Run;
    }
  }

  lemma ClosingStep(w: Writer, step: Step)
    requires w.closing
    ensures Do(w, step).closing && Started(Do(w, step)) == Started(w)
  {
    if w.phase.Writing? { assert w.written + [w.phase.frame] + [] == w.written + [w.phase.frame]; }
  }

  lemma RunLast(w: Writer, steps: seq<Step>)
    requires steps != []
    ensures Run(w, steps) == Do(Run(w, steps[..|steps| - 1]), steps[|steps| - 1])
  {
  }

  lemma RunOne(w: Writer, step: Step)
    ensures Run(w, [step]) == Do(w, step)
  {
    assert [step][..0] == [];
    assert Run(w, []) == w;
  }

  lemma {:induction false} RunConcat(w: Writer, a: seq<Step>, b: seq<Step>)
    ensures Run(w, a + b) == Run(Run(w, a), b)
    decreases b
  {
    if b == [] {
      assert a + b == a;
    } else {
      assert (a + b)[..|a + b| - 1] == a + b[..|b| - 1];
      RunConcat(w, a, b[..|b| - 1]);
    }
  }

  /** The connection as the server holds it; each method is one uninterrupted stretch of code. */
  class Connection {
    var out: seq<Frame>
    var closing: bool
    var phase: Phase
    ghost var written: seq<Frame>
    ghost var enqueued: seq<Frame>

    ghost function Now(): Writer
      reads this
    {
      Writer(out, closing, phase, written, enqueued)
    }

    constructor ()
      ensures Now() == NEW_WRITER
    {
      out, closing, phase := [], false, Woken;
      written, enqueued := [], [];
    }

    method Push(frame: Frame)
      modifies this
      ensures Now() == Do(old(Now()), Enqueue(frame))
    {
      out := out + [frame];
      enqueued := enqueued + [frame];
      Cancel();
    }

    method Cancel()
      modifies this`phase
      ensures phase == Wake(old(phase))
    {
      if phase.Parked? { phase := Woken; }
    }

    /** WriteLoop from a resumption to its next suspension. */
    method Loop()
      requires phase.Woken?
      modifies this
      ensures Now() == Do(old(Now()), Resume)
    {
      if closing {
        phase := Ended([]);
      } else if out == [] {
        phase := Parked; // co_await wake.async_wait
      } else {
        var frame := out[0];
        out := out[1..];
        phase := Writing(frame); // co_await async_write
      }
    }

    method Written()
      requires phase.Writing?
      modifies this
      ensures Now() == Do(old(Now()), WriteDone)
    {
      written := written + [phase.frame];
      phase := Woken;
      Loop();
    }

    method Close()
      modifies this
      ensures Now() == Do(old(Now()), EndSession)
    {
      closing := true;
      Cancel();
    }
  }
}
