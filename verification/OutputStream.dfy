/** The worker's output path: a bounded FIFO of encoded frames drained by one
    writer thread, which publishes each frame to stdout with as many partial
    writes as the operating system needs and fails closed on the first error. */
module OutputStream {
  import opened Basics

  const MAX_FRAMES: nat := 128

  datatype WriteOutcome = WriteOutcome(ok: bool, written: nat)
  datatype WriteResult = WriteResult(success: bool, bytesWritten: nat)

  predicate AllProgress(outcomes: seq<WriteOutcome>) {
    forall i :: 0 <= i < |outcomes| ==> outcomes[i].ok && outcomes[i].written > 0
  }

  function Min(a: nat, b: nat): nat { if a < b then a else b }

  /** What the write loop reports from `offset` on. `outcomes` are the results of the next
      operating-system writes; running out of them is a write that made no progress. */
  function Publish(size: nat, outcomes: seq<WriteOutcome>, offset: nat): (r: WriteResult)
    requires offset <= size
    ensures offset <= r.bytesWritten <= size && (r.success ==> r.bytesWritten == size)
    decreases size - offset
  {
    if offset == size then WriteResult(true, offset)
    else if outcomes == [] then WriteResult(false, offset)
    else
      var n := Min(outcomes[0].written, size - offset);
      if !outcomes[0].ok then WriteResult(false, offset + n)
      else if n == 0 then WriteResult(false, offset)
      else Publish(size, outcomes[1..], offset + n)
  }

  lemma {:induction false} ProgressPublishes(size: nat, outcomes: seq<WriteOutcome>, offset: nat)
    requires offset <= size && |outcomes| >= size - offset && AllProgress(outcomes)
    ensures Publish(size, outcomes, offset).success
    decreases size - offset
  {
    if offset < size {
      ProgressPublishes(size, outcomes[1..], offset + Min(outcomes[0].written, size - offset));
    }
  }

  /** One complete-frame publication. */
  method WriteStdoutFrame(validHandle: bool, frame: seq<Byte>, outcomes: seq<WriteOutcome>, stdout: seq<Byte>)
    returns (r: WriteResult, stdout': seq<Byte>)
    ensures r == if validHandle then Publish(|frame|, outcomes, 0) else WriteResult(false, 0)
    ensures r.bytesWritten <= |frame| && stdout' == stdout + frame[..r.bytesWritten]
    ensures r.success ==> stdout' == stdout + frame
    ensures validHandle && |outcomes| >= |frame| && AllProgress(outcomes) ==> r.success
  {
    if !validHandle {
      return WriteResult(false, 0), stdout;
    }
    if |outcomes| >= |frame| && AllProgress(outcomes) {
      ProgressPublishes(|frame|, outcomes, 0);
    }
    var offset, i := 0, 0;
    stdout' := stdout;
    assert outcomes[0..] == outcomes;
    while offset < |frame|
      invariant 0 <= offset <= |frame| && 0 <= i <= |outcomes|
      invariant stdout' == stdout + frame[..offset]
      invariant Publish(|frame|, outcomes, 0) == Publish(|frame|, outcomes[i..], offset)
      decreases |frame| - offset
    {
      var remaining := |frame| - offset;
      if i == |outcomes| {
        return WriteResult(false, offset), stdout';
      }
      var call := outcomes[i];
      var written := Min(call.written, remaining);
      stdout' := stdout' + frame[offset..offset + written];
      assert stdout' == stdout + frame[..offset + written];
      if !call.ok {
        return WriteResult(false, offset + written), stdout';
      }
      if written == 0 {
        return WriteResult(false, offset), stdout';
      }
      assert outcomes[i..][1..] == outcomes[i + 1..];
      offset := offset + written;
      i := i + 1;
    }
    r := WriteResult(true, offset);
  }

  // ----- the writer thread and its queue, as a transition system -----

  datatype WriterPc = Waiting | Writing | Exited

  /** `submitted` is the history of accepted frames; `done` of them are completely
      on stdout and `cut` bytes of the next one. */
  datatype Writer<F> = Writer(
    queue: seq<F>, stopping: bool, failed: bool, pc: WriterPc,
    submitted: seq<F>, done: nat, cut: nat, stdout: seq<Byte>)

  datatype WriterStep = Pop | Write(n: nat) | FinishFrame | Fail(n: nat) | Exit

  function Start<F>(): Writer<F> {
    Writer([], false, false, Waiting, [], 0, 0, [])
  }

  predicate CanAccept<F>(w: Writer<F>) {
    |w.queue| < MAX_FRAMES && !w.stopping && !w.failed
  }

  function Offer<F>(w: Writer<F>, f: F): Writer<F>
    requires CanAccept(w)
  {
    w.(queue := w.queue + [f], submitted := w.submitted + [f])
  }

  predicate Enabled<F>(enc: F -> seq<Byte>, w: Writer<F>, step: WriterStep) {
    match step
    case Pop => w.pc.Waiting? && w.queue != []
    case Exit => w.pc.Waiting? && w.queue == [] && w.stopping
    case Write(n) => w.pc.Writing? && w.done < |w.submitted| && 0 < n && w.cut + n <= |enc(w.submitted[w.done])|
    case Fail(n) => w.pc.Writing? && w.done < |w.submitted| && w.cut + n <= |enc(w.submitted[w.done])|
    case FinishFrame => w.pc.Writing? && w.done < |w.submitted| && w.cut == |enc(w.submitted[w.done])|
  }

  function Apply<F>(enc: F -> seq<Byte>, w: Writer<F>, step: WriterStep): Writer<F>
    requires Enabled(enc, w, step)
  {
    match step
    case Pop => w.(pc := Writing, queue := w.queue[1..])
    case Exit => w.(pc := Exited)
    case Write(n) => w.(stdout := w.stdout + enc(w.submitted[w.done])[w.cut..w.cut + n], cut := w.cut + n)
    case Fail(n) =>
      w.(stdout := w.stdout + enc(w.submitted[w.done])[w.cut..w.cut + n], cut := w.cut + n,
         failed := true, stopping := true, queue := [], pc := Exited)
    case FinishFrame => w.(pc := Waiting, done := w.done + 1, cut := 0)
  }

  function Flat<F>(enc: F -> seq<Byte>, frames: seq<F>): seq<Byte> {
    if frames == [] then [] else Flat(enc, frames[..|frames| - 1]) + enc(frames[|frames| - 1])
  }

  /** Stdout carries the submitted frames in order, complete but for at most the last. */
  ghost predicate InOrder<F>(enc: F -> seq<Byte>, w: Writer<F>) {
    && w.done <= |w.submitted|
    && (w.done == |w.submitted| ==> w.cut == 0)
    && (w.done < |w.submitted| ==> w.cut <= |enc(w.submitted[w.done])|)
    && w.stdout == Flat(enc, w.submitted[..w.done]) +
         (if w.done < |w.submitted| then enc(w.submitted[w.done])[..w.cut] else [])
  }

  ghost predicate Valid<F>(enc: F -> seq<Byte>, w: Writer<F>) {
    && InOrder(enc, w)
    && |w.queue| <= MAX_FRAMES
    && (w.pc.Waiting? ==> w.cut == 0)
    && (w.pc.Writing? ==> w.done < |w.submitted|)
    && (w.failed ==> w.pc.Exited?)
    && (w.pc.Exited? ==> w.stopping)
    && (!w.failed ==> w.queue == w.submitted[(if w.pc.Writing? then w.done + 1 else w.done)..])
    && (w.pc.Exited? && !w.failed ==> w.done == |w.submitted|)
  }

  lemma OfferKeepsValid<F>(enc: F -> seq<Byte>, w: Writer<F>, f: F)
    requires Valid(enc, w) && CanAccept(w)
    ensures Valid(enc, Offer(w, f))
  {
    var w' := Offer(w, f);
    assert w'.submitted[..w.done] == w.submitted[..w.done];
    assert enc(w'.submitted[w.done])[..0] == [];
  }

  lemma ExtendPrefix(a: seq<Byte>, e: seq<Byte>, cut: nat, n: nat)
    requires cut + n <= |e|
    ensures a + e[..cut] + e[cut..cut + n] == a + e[..cut + n]
  {
  }

  lemma WriteKeepsOrder<F>(enc: F -> seq<Byte>, w: Writer<F>, n: nat)
    requires InOrder(enc, w) && w.done < |w.submitted| && w.cut + n <= |enc(w.submitted[w.done])|
    ensures InOrder(enc, w.(stdout := w.stdout + enc(w.submitted[w.done])[w.cut..w.cut + n], cut := w.cut + n))
  {
    ExtendPrefix(Flat(enc, w.submitted[..w.done]), enc(w.submitted[w.done]), w.cut, n);
  }

  lemma FinishKeepsOrder<F>(enc: F -> seq<Byte>, w: Writer<F>)
    requires InOrder(enc, w) && w.done < |w.submitted| && w.cut == |enc(w.submitted[w.done])|
    ensures InOrder(enc, w.(pc := Waiting, done := w.done + 1, cut := 0))
  {
    assert w.submitted[..w.done + 1][..w.done] == w.submitted[..w.done];
    var e := enc(w.submitted[w.done]);
    assert e[..w.cut] == e;
    if w.done + 1 < |w.submitted| {
      assert enc(w.submitted[w.done + 1])[..0] == [];
    }
  }

  lemma StepKeepsValid<F>(enc: F -> seq<Byte>, w: Writer<F>, step: WriterStep)
    requires Valid(enc, w) && Enabled(enc, w, step)
    ensures Valid(enc, Apply(enc, w, step))
    ensures Apply(enc, w, step).submitted == w.submitted
  {
    match step
    case Write(n) => WriteKeepsOrder(enc, w, n);
    case Fail(n) => WriteKeepsOrder(enc, w, n);
    case FinishFrame => FinishKeepsOrder(enc, w);
    case Pop =>
    case Exit =>
  }

  /** A writer that left without failing has put every submitted byte on stdout. */
  lemma DrainedCompletely<F>(enc: F -> seq<Byte>, w: Writer<F>)
    requires Valid(enc, w) && w.pc.Exited? && !w.failed
    ensures w.stdout == Flat(enc, w.submitted)
  {
    assert w.submitted[..w.done] == w.submitted;
  }

  // ----- the write loop as steps of the writer -----

  /** The steps that the loop makes from `offset` on. */
  function Attempts(size: nat, outcomes: seq<WriteOutcome>, offset: nat): seq<WriterStep>
    requires offset <= size
    decreases size - offset
  {
    if offset == size then [FinishFrame]
    else if outcomes == [] then [Fail(0)]
    else
      var n := Min(outcomes[0].written, size - offset);
      if !outcomes[0].ok || n == 0 then [Fail(n)] else [Write(n)] + Attempts(size, outcomes[1..], offset + n)
  }

  predicate AllEnabled<F>(enc: F -> seq<Byte>, w: Writer<F>, steps: seq<WriterStep>)
    decreases |steps|
  {
    steps == [] || (Enabled(enc, w, steps[0]) && AllEnabled(enc, Apply(enc, w, steps[0]), steps[1..]))
  }

  function ApplyAll<F>(enc: F -> seq<Byte>, w: Writer<F>, steps: seq<WriterStep>): Writer<F>
    requires AllEnabled(enc, w, steps)
    decreases |steps|
  {
    if steps == [] then w else ApplyAll(enc, Apply(enc, w, steps[0]), steps[1..])
  }

  /** The writer after the loop over the frame in hand has reported r. */
  ghost predicate Reported<F>(enc: F -> seq<Byte>, w: Writer<F>, after: Writer<F>, r: WriteResult)
    requires w.done < |w.submitted|
  {
    && w.cut <= r.bytesWritten <= |enc(w.submitted[w.done])|
    && after.stdout == w.stdout + enc(w.submitted[w.done])[w.cut..r.bytesWritten] && after.submitted == w.submitted
    && (if r.success then after.pc.Waiting? && after.done == w.done + 1 && after.failed == w.failed
        else after.pc.Exited? && after.failed && after.done == w.done)
  }

  ghost predicate Faithful<F>(enc: F -> seq<Byte>, w: Writer<F>, steps: seq<WriterStep>, r: WriteResult)
    requires w.done < |w.submitted|
  {
    AllEnabled(enc, w, steps) && Reported(enc, w, ApplyAll(enc, w, steps), r)
  }

  /** For every list of write outcomes, the loop over the frame in hand is a sequence of enabled
      writer steps with the same bytes on stdout: it finishes the frame exactly when it reports
      success, and fails the writer otherwise. */
  lemma {:induction false} LoopIsSteps<F>(enc: F -> seq<Byte>, w: Writer<F>, outcomes: seq<WriteOutcome>)
    requires w.pc.Writing? && w.done < |w.submitted| && w.cut <= |enc(w.submitted[w.done])|
    ensures var size := |enc(w.submitted[w.done])|;
      Faithful(enc, w, Attempts(size, outcomes, w.cut), Publish(size, outcomes, w.cut))
    decreases |enc(w.submitted[w.done])| - w.cut
  {
    var size := |enc(w.submitted[w.done])|;
    if w.cut == size {
      FinishReports(enc, w);
    } else if outcomes == [] {
      FailReports(enc, w, 0);
    } else {
      var n := Min(outcomes[0].written, size - w.cut);
      if outcomes[0].ok && n > 0 {
        LoopIsSteps(enc, Apply(enc, w, Write(n)), outcomes[1..]);
        WriteReports(enc, w, n, Attempts(size, outcomes[1..], w.cut + n), Publish(size, outcomes[1..], w.cut + n));
      } else {
        FailReports(enc, w, n);
      }
    }
  }

  lemma FinishReports<F>(enc: F -> seq<Byte>, w: Writer<F>)
    requires Enabled(enc, w, FinishFrame)
    ensures Faithful(enc, w, [FinishFrame], WriteResult(true, w.cut))
  {
    LastStep(enc, w, FinishFrame);
    assert enc(w.submitted[w.done])[w.cut..w.cut] == [] && w.stdout + [] == w.stdout;
  }

  lemma FailReports<F>(enc: F -> seq<Byte>, w: Writer<F>, n: nat)
    requires Enabled(enc, w, Fail(n))
    ensures Faithful(enc, w, [Fail(n)], WriteResult(false, w.cut + n))
  {
    LastStep(enc, w, Fail(n));
  }

  lemma WriteReports<F>(enc: F -> seq<Byte>, w: Writer<F>, n: nat, rest: seq<WriterStep>, r: WriteResult)
    requires Enabled(enc, w, Write(n)) && Faithful(enc, Apply(enc, w, Write(n)), rest, r)
    ensures Faithful(enc, w, [Write(n)] + rest, r)
  {
    FirstStep(enc, w, Write(n), rest);
    WriteFirst(enc, w, n, ApplyAll(enc, Apply(enc, w, Write(n)), rest), r);
  }

  lemma FirstStep<F>(enc: F -> seq<Byte>, w: Writer<F>, step: WriterStep, rest: seq<WriterStep>)
    requires Enabled(enc, w, step) && AllEnabled(enc, Apply(enc, w, step), rest)
    ensures AllEnabled(enc, w, [step] + rest) && ApplyAll(enc, w, [step] + rest) == ApplyAll(enc, Apply(enc, w, step), rest)
  {
    assert ([step] + rest)[1..] == rest;
  }

  lemma WriteFirst<F>(enc: F -> seq<Byte>, w: Writer<F>, n: nat, after: Writer<F>, r: WriteResult)
    requires Enabled(enc, w, Write(n)) && Reported(enc, Apply(enc, w, Write(n)), after, r)
    ensures Reported(enc, w, after, r)
  {
    var frame, end := enc(w.submitted[w.done]), r.bytesWritten;
    assert w.stdout + frame[w.cut..w.cut + n] + frame[w.cut + n..end] == w.stdout + frame[w.cut..end];
  }

  lemma LastStep<F>(enc: F -> seq<Byte>, w: Writer<F>, step: WriterStep)
    requires Enabled(enc, w, step)
    ensures AllEnabled(enc, w, [step]) && ApplyAll(enc, w, [step]) == Apply(enc, w, step)
  {
    assert [step][1..] == [];
  }
}
