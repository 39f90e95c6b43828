/**
 * The per-device operation queue of ble/bleops.py.
 *
 * A QOpManager holds a deque of pending operations (index 0 of `Q` is the
 * deque's left end), a counting semaphore `OpCount` that tracks its depth, and
 * the `OpDone` event that is set while no operation is running.  FIFO
 * operations are added on the left, the "next to run" (LIFO) ones on the
 * right, and the worker always pops from the right.
 *
 * Running an operation calls native code; what a body does is supplied by the
 * caller as a `BodyRun`: the value it returns or the exception it raises, and
 * the operations it adds to the same manager while it runs (the queue's lock
 * is re-entrant, so bodies may enqueue).  Blocking waits become preconditions.
 */
module BleOps {
  import opened Wrappers
  import opened BleExceptions
  import Decimal

  // ---------------------------------------------------------------- OpResult

  /**
   * OpResult keeps its exception and its result as optional attributes; the
   * class itself lets both be set.
   */
  datatype OpResult<R> = OpResult(exception: Option<PyException>, result: Option<R>)

  /** getResult(): the exception if one was set, else the result if set, else None. */
  function GetResult<R>(r: OpResult<R>): Outcome<Option<R>, PyException>
  {
    if r.exception.Some? then Raised(r.exception.value) else Returned(r.result)
  }

  /** The OpResult that do()/cancel() build from a body's outcome. */
  function Capture<R>(o: Outcome<R, PyException>): (r: OpResult<R>)
    ensures r.exception.Some? != r.result.Some?
  {
    match o
    case Returned(v) => OpResult(None, Some(v))
    case Raised(e) => OpResult(Some(e), None)
  }

  /** A stored exception shadows a stored result. */
  lemma ExceptionWins<R>(e: PyException, v: Option<R>)
    ensures GetResult(OpResult(Some(e), v)) == Raised(e)
  {
  }

  /** With nothing stored getResult() returns None. */
  lemma EmptyResultIsNone<R>()
    ensures GetResult<R>(OpResult(None, None)) == Returned(None)
  {
  }

  /** Re-reading what do()/cancel() captured gives back the body's outcome. */
  lemma CaptureRoundTrip<R>(o: Outcome<R, PyException>)
    ensures GetResult(Capture(o)) == (match o
                                      case Returned(v) => Returned(Some(v))
                                      case Raised(e) => Raised(e))
  {
  }

  // --------------------------------------------------------------------- QOp

  /** `callable(self.Callback)`: a callable callback, or a None/non-callable one. */
  datatype Callback = NotCallable | Callable(tag: nat)

  /** The `callback=` keyword handed to QOp(): absent, or given (possibly None). */
  datatype CallbackKw = Missing | Given(cb: Callback)

  datatype QOp<B> = QOp(body: B, callback: Callback)

  /**
   * QOp.__init__: reads kwargs['callback'].  A missing keyword raises
   * KeyError, which the constructor's `except IndexError` does not catch.
   */
  function NewQOp<B>(body: B, kw: CallbackKw): (r: Outcome<QOp<B>, PyException>)
    ensures r.Returned? <==> kw.Given?
    ensures r.Returned? ==> r.value == QOp(body, kw.cb)
    ensures r.Raised? ==> r.error.cls == Other("KeyError")
  {
    match kw
    case Missing => Raised(Builtin("KeyError", "callback"))
    case Given(cb) => Returned(QOp(body, cb))
  }

  /** An add a body makes to its own manager while it runs. */
  datatype Enqueue<B> = AddFIFO(op: QOp<B>) | AddLIFO(op: QOp<B>)

  /** What one call of a body does: its outcome and the adds it makes. */
  datatype BodyRun<B, R> = BodyRun(outcome: Outcome<R, PyException>, enqueues: seq<Enqueue<B>>)

  /** What the manager observably does, in order. */
  datatype Event<B, R> =
    | DoneCleared                              // OpDone.clear()
    | Ran(op: QOp<B>)                          // body called by do(manager)
    | Cancelled(op: QOp<B>, reason: Option<string>)  // body called by cancel(manager, reason)
    | DoneSignalled                            // manager.signalOpIsDone()
    | CallbackCalled(op: QOp<B>, result: OpResult<R>)

  /** The callback event do()/cancel() emit: one if the callback is callable, else none. */
  function CallbackEvents<B, R>(op: QOp<B>, r: OpResult<R>): (es: seq<Event<B, R>>)
    ensures |es| <= 1
    ensures es != [] <==> op.callback.Callable?
  {
    if op.callback.Callable? then [CallbackCalled(op, r)] else []
  }

  // ------------------------------------------------------------ deque order

  /** appendleft for FIFO adds, append for LIFO adds. */
  function Apply<B>(q: seq<QOp<B>>, e: Enqueue<B>): seq<QOp<B>>
  {
    match e
    case AddFIFO(op) => [op] + q
    case AddLIFO(op) => q + [op]
  }

  /** The deque after a series of adds, in the order they were made. */
  function ApplyAll<B>(q: seq<QOp<B>>, es: seq<Enqueue<B>>): seq<QOp<B>>
    decreases |es|
  {
    if es == [] then q else ApplyAll(Apply(q, es[0]), es[1..])
  }

  function Reverse<T>(s: seq<T>): seq<T>
  {
    if s == [] then [] else Reverse(s[1..]) + [s[0]]
  }

  /** The order in which repeated doNextOp() calls take the pending ops (pop from the right). */
  function PopOrder<B>(q: seq<QOp<B>>): (p: seq<QOp<B>>)
    ensures |p| == |q|
  {
    ReverseLength(q);
    Reverse(q)
  }

  function Fifos<B>(ops: seq<QOp<B>>): (es: seq<Enqueue<B>>)
    ensures |es| == |ops|
  {
    if ops == [] then [] else [AddFIFO(ops[0])] + Fifos(ops[1..])
  }

  function Lifos<B>(ops: seq<QOp<B>>): (es: seq<Enqueue<B>>)
    ensures |es| == |ops|
  {
    if ops == [] then [] else [AddLIFO(ops[0])] + Lifos(ops[1..])
  }

  lemma {:induction false} ReverseAppend<T>(a: seq<T>, b: seq<T>)
    ensures Reverse(a + b) == Reverse(b) + Reverse(a)
    decreases |a|
  {
    if a == [] {
      assert a + b == b;
    } else {
      assert (a + b)[1..] == a[1..] + b;
      ReverseAppend(a[1..], b);
    }
  }

  lemma {:induction false} ReverseLength<T>(s: seq<T>)
    ensures |Reverse(s)| == |s|
  {
    if s != [] {
      ReverseLength(s[1..]);
    }
  }

  /** Every add lengthens the deque by one: OpCount == len(Q) is kept. */
  lemma {:induction false} ApplyAllLength<B>(q: seq<QOp<B>>, es: seq<Enqueue<B>>)
    ensures |ApplyAll(q, es)| == |q| + |es|
    decreases |es|
  {
    if es != [] {
      ApplyAllLength(Apply(q, es[0]), es[1..]);
    }
  }

  /** Adding one more op after a series is applying it last. */
  lemma {:induction false} ApplyAllSnoc<B>(q: seq<QOp<B>>, es: seq<Enqueue<B>>, e: Enqueue<B>)
    ensures ApplyAll(q, es + [e]) == Apply(ApplyAll(q, es), e)
    decreases |es|
  {
    if es == [] {
      assert es + [e] == [e];
    } else {
      assert (es + [e])[1..] == es[1..] + [e];
      ApplyAllSnoc(Apply(q, es[0]), es[1..], e);
    }
  }

  lemma {:induction false} ApplyAllConcat<B>(q: seq<QOp<B>>, es: seq<Enqueue<B>>, fs: seq<Enqueue<B>>)
    ensures ApplyAll(q, es + fs) == ApplyAll(ApplyAll(q, es), fs)
    decreases |es|
  {
    if es == [] {
      assert es + fs == fs;
    } else {
      assert (es + fs)[1..] == es[1..] + fs;
      ApplyAllConcat(Apply(q, es[0]), es[1..], fs);
    }
  }

  /** A FIFO add is taken after every op already pending. */
  lemma FifoLast<B>(q: seq<QOp<B>>, op: QOp<B>)
    ensures PopOrder(Apply(q, AddFIFO(op))) == PopOrder(q) + [op]
  {
    ReverseAppend([op], q);
    assert Reverse([op]) == [op];
  }

  /** FIFO adds are taken after everything already pending, in the order they were added. */
  lemma {:induction false} FifoOrder<B>(q: seq<QOp<B>>, ops: seq<QOp<B>>)
    ensures PopOrder(ApplyAll(q, Fifos(ops))) == PopOrder(q) + ops
    decreases |ops|
  {
    if ops == [] {
      assert PopOrder(q) + ops == PopOrder(q);
    } else {
      var q' := Apply(q, AddFIFO(ops[0]));
      FifosUnfold(q, ops);
      FifoOrder(q', ops[1..]);
      FifoLast(q, ops[0]);
      AppendCons(PopOrder(q), ops);
    }
  }

  /** Applying a series of FIFO adds is applying the first, then the rest. */
  lemma FifosUnfold<B>(q: seq<QOp<B>>, ops: seq<QOp<B>>)
    requires ops != []
    ensures ApplyAll(q, Fifos(ops)) == ApplyAll(Apply(q, AddFIFO(ops[0])), Fifos(ops[1..]))
  {
    var es := Fifos(ops);
    assert es[0] == AddFIFO(ops[0]) && es[1..] == Fifos(ops[1..]);
  }

  lemma AppendCons<T>(a: seq<T>, s: seq<T>)
    requires s != []
    ensures (a + [s[0]]) + s[1..] == a + s
  {
    assert s == [s[0]] + s[1..];
  }

  /** A LIFO add is taken before every op already pending. */
  lemma LifoFirst<B>(q: seq<QOp<B>>, op: QOp<B>)
    ensures PopOrder(Apply(q, AddLIFO(op))) == [op] + PopOrder(q)
  {
    ReverseAppend(q, [op]);
    assert Reverse([op]) == [op];
  }

  /** Several pending LIFO adds are taken most recent first, all before the older pending ops. */
  lemma {:induction false} LifoOrder<B>(q: seq<QOp<B>>, ops: seq<QOp<B>>)
    ensures PopOrder(ApplyAll(q, Lifos(ops))) == Reverse(ops) + PopOrder(q)
    decreases |ops|
  {
    if ops == [] {
      assert Reverse(ops) + PopOrder(q) == PopOrder(q);
    } else {
      var es := Lifos(ops);
      assert es[0] == AddLIFO(ops[0]) && es[1..] == Lifos(ops[1..]);
      assert ApplyAll(q, es) == ApplyAll(q + [ops[0]], Lifos(ops[1..]));
      LifoFirst(q, ops[0]);
      LifoOrder(q + [ops[0]], ops[1..]);
      assert ops == [ops[0]] + ops[1..];
      ReverseAppend([ops[0]], ops[1..]);
      assert Reverse([ops[0]]) == [ops[0]];
    }
  }

  /** doNextOp pops the rightmost op: the first in pop order, leaving the rest of that order. */
  lemma PopOrderPop<B>(q: seq<QOp<B>>)
    requires q != []
    ensures PopOrder(q)[0] == q[|q| - 1]
    ensures PopOrder(q)[1..] == PopOrder(q[..|q| - 1])
  {
    assert q == q[..|q| - 1] + [q[|q| - 1]];
    ReverseAppend(q[..|q| - 1], [q[|q| - 1]]);
    assert Reverse([q[|q| - 1]]) == [q[|q| - 1]];
  }

  /**
   * Successive doNextOp calls, the i-th body doing `runs[i]`: the ops
   * taken and the deque left.  None when the deque is empty at some call,
   * where the worker would sleep in down().
   */
  function RunAll<B, R>(q: seq<QOp<B>>, runs: seq<BodyRun<B, R>>): (r: Option<(seq<QOp<B>>, seq<QOp<B>>)>)
    ensures r.Some? ==> |r.value.0| == |runs|
    decreases |runs|
  {
    if runs == [] then Some(([], q))
    else if q == [] then None
    else match RunAll(ApplyAll(q[..|q| - 1], runs[0].enqueues), runs[1..])
      case None => None
      case Some((ops, rest)) => Some(([q[|q| - 1]] + ops, rest))
  }

  /** The events of one doNextOp that runs `op` as `run`. */
  function StepEvents<B, R>(op: QOp<B>, run: BodyRun<B, R>): seq<Event<B, R>>
  {
    [DoneCleared, Ran(op), DoneSignalled] + CallbackEvents(op, Capture(run.outcome))
  }

  /** The events of doNextOp calls running `ops[i]` as `runs[i]`, in turn. */
  function RunEvents<B, R>(ops: seq<QOp<B>>, runs: seq<BodyRun<B, R>>): seq<Event<B, R>>
    requires |ops| == |runs|
    decreases |ops|
  {
    if ops == [] then []
    else RunEvents(ops[..|ops| - 1], runs[..|runs| - 1]) + StepEvents(ops[|ops| - 1], runs[|runs| - 1])
  }

  /** Puts `ops` in front of the ops of a run. */
  function Prefix<B>(ops: seq<QOp<B>>, r: Option<(seq<QOp<B>>, seq<QOp<B>>)>): Option<(seq<QOp<B>>, seq<QOp<B>>)>
  {
    match r
    case None => None
    case Some((o, q)) => Some((ops + o, q))
  }

  lemma PrefixNothing<B>(r: Option<(seq<QOp<B>>, seq<QOp<B>>)>)
    ensures Prefix([], r) == r
  {
    if r.Some? {
      assert [] + r.value.0 == r.value.0;
    }
  }

  lemma PrefixConcat<B>(a: seq<QOp<B>>, b: seq<QOp<B>>, r: Option<(seq<QOp<B>>, seq<QOp<B>>)>)
    ensures Prefix(a, Prefix(b, r)) == Prefix(a + b, r)
  {
    if r.Some? {
      assert a + (b + r.value.0) == (a + b) + r.value.0;
    }
  }

  /** One doNextOp takes the rightmost op, then the rest of the calls run on what its body leaves. */
  lemma RunAllStep<B, R>(q: seq<QOp<B>>, runs: seq<BodyRun<B, R>>)
    requires runs != [] && RunAll(q, runs).Some?
    ensures q != []
    ensures RunAll(q, runs) == Prefix([q[|q| - 1]], RunAll(ApplyAll(q[..|q| - 1], runs[0].enqueues), runs[1..]))
  {
  }

  lemma RunEventsSnoc<B, R>(ops: seq<QOp<B>>, runs: seq<BodyRun<B, R>>, op: QOp<B>, run: BodyRun<B, R>)
    requires |ops| == |runs|
    ensures RunEvents(ops + [op], runs + [run]) == RunEvents(ops, runs) + StepEvents(op, run)
  {
    assert (ops + [op])[..|ops|] == ops && (runs + [run])[..|runs|] == runs;
  }

  /** What one round of the executor loop does to the ops taken and the deque left. */
  lemma RanStep<B, R>(runs: seq<BodyRun<B, R>>, i: nat, ops: seq<QOp<B>>, q0: seq<QOp<B>>,
                      qBefore: seq<QOp<B>>, qAfter: seq<QOp<B>>, op: QOp<B>)
    requires i < |runs|
    requires RunAll(qBefore, runs[i..]).Some?
    requires RunAll(q0, runs) == Prefix(ops, RunAll(qBefore, runs[i..]))
    requires qBefore != [] && op == qBefore[|qBefore| - 1]
    requires qAfter == ApplyAll(qBefore[..|qBefore| - 1], runs[i].enqueues)
    ensures RunAll(qAfter, runs[i + 1..]).Some?
    ensures RunAll(q0, runs) == Prefix(ops + [op], RunAll(qAfter, runs[i + 1..]))
  {
    assert runs[i..][0] == runs[i] && runs[i..][1..] == runs[i + 1..];
    RunAllStep(qBefore, runs[i..]);
    PrefixConcat(ops, [op], RunAll(qAfter, runs[i + 1..]));
  }

  /** What one round of the executor loop appends to the log. */
  lemma RanStepEvents<B, R>(runs: seq<BodyRun<B, R>>, i: nat, ops: seq<QOp<B>>, op: QOp<B>,
                            log0: seq<Event<B, R>>, logBefore: seq<Event<B, R>>, logAfter: seq<Event<B, R>>)
    requires i < |runs| && |ops| == i
    requires logBefore == log0 + RunEvents(ops, runs[..i])
    requires logAfter == logBefore + StepEvents(op, runs[i])
    ensures logAfter == log0 + RunEvents(ops + [op], runs[..i + 1])
  {
    assert runs[..i + 1] == runs[..i] + [runs[i]];
    RunEventsSnoc(ops, runs[..i], op, runs[i]);
  }

  /**
   * With bodies that add nothing, k successive doNextOp calls never sleep
   * exactly when k ops are pending; they then take the first k ops of the
   * pop order and leave the rest of it.
   */
  lemma {:induction false} RunAllPopOrder<B, R>(q: seq<QOp<B>>, runs: seq<BodyRun<B, R>>)
    requires forall i :: 0 <= i < |runs| ==> runs[i].enqueues == []
    ensures RunAll(q, runs).Some? <==> |runs| <= |q|
    ensures |runs| <= |q| ==> RunAll(q, runs) == Some((PopOrder(q)[..|runs|], q[..|q| - |runs|]))
    ensures |runs| <= |q| ==> PopOrder(q[..|q| - |runs|]) == PopOrder(q)[|runs|..]
    decreases |runs|
  {
    if runs == [] {
      assert q[..|q|] == q;
    } else if q != [] {
      var init := q[..|q| - 1];
      PopOrderPop(q);
      assert ApplyAll(init, runs[0].enqueues) == init;
      RunAllPopOrder(init, runs[1..]);
      if |runs| <= |q| {
        assert init[..|init| - |runs[1..]|] == q[..|q| - |runs|];
        assert PopOrder(q)[..|runs|] == [q[|q| - 1]] + PopOrder(init)[..|runs| - 1];
        assert PopOrder(q)[|runs|..] == PopOrder(init)[|runs| - 1..];
      }
    }
  }

  /** The events of cancel() on each op of `ops` in turn, with the i-th body run `runs[i]`. */
  function CancelEvents<B, R>(ops: seq<QOp<B>>, reason: Option<string>, runs: seq<BodyRun<B, R>>): seq<Event<B, R>>
    requires |runs| == |ops|
    decreases |ops|
  {
    if ops == [] then []
    else [Cancelled(ops[0], reason), DoneSignalled]
         + CallbackEvents(ops[0], Capture(runs[0].outcome))
         + CancelEvents(ops[1..], reason, runs[1..])
  }

  /** All adds the bodies make, in the order the bodies run. */
  function AllEnqueues<B, R>(runs: seq<BodyRun<B, R>>): seq<Enqueue<B>>
    decreases |runs|
  {
    if runs == [] then [] else runs[0].enqueues + AllEnqueues(runs[1..])
  }

  /** The ops whose body a log shows called by cancel(), in order. */
  function CancelledOps<B, R>(log: seq<Event<B, R>>): seq<QOp<B>>
    decreases |log|
  {
    if log == [] then []
    else (if log[0].Cancelled? then [log[0].op] else []) + CancelledOps(log[1..])
  }

  /** The ops whose body a log shows called by do(), in order. */
  function RanOps<B, R>(log: seq<Event<B, R>>): seq<QOp<B>>
    decreases |log|
  {
    if log == [] then []
    else (if log[0].Ran? then [log[0].op] else []) + RanOps(log[1..])
  }

  lemma {:induction false} CancelledConcat<B, R>(a: seq<Event<B, R>>, b: seq<Event<B, R>>)
    ensures CancelledOps(a + b) == CancelledOps(a) + CancelledOps(b)
    decreases |a|
  {
    if a == [] {
      assert a + b == b;
    } else {
      assert (a + b)[0] == a[0] && (a + b)[1..] == a[1..] + b;
      CancelledConcat(a[1..], b);
      var head: seq<QOp<B>> := if a[0].Cancelled? then [a[0].op] else [];
      assert CancelledOps(a + b) == head + (CancelledOps(a[1..]) + CancelledOps(b));
      assert CancelledOps(a) == head + CancelledOps(a[1..]);
    }
  }

  lemma {:induction false} RanConcat<B, R>(a: seq<Event<B, R>>, b: seq<Event<B, R>>)
    ensures RanOps(a + b) == RanOps(a) + RanOps(b)
    decreases |a|
  {
    if a == [] {
      assert a + b == b;
    } else {
      assert (a + b)[0] == a[0] && (a + b)[1..] == a[1..] + b;
      RanConcat(a[1..], b);
      var head: seq<QOp<B>> := if a[0].Ran? then [a[0].op] else [];
      assert RanOps(a + b) == head + (RanOps(a[1..]) + RanOps(b));
      assert RanOps(a) == head + RanOps(a[1..]);
    }
  }

  /** The events of cancelling one op name it as cancelled once and run nothing. */
  lemma OneCancelEvents<B, R>(op: QOp<B>, reason: Option<string>, r: OpResult<R>)
    ensures CancelledOps([Cancelled(op, reason), DoneSignalled] + CallbackEvents(op, r)) == [op]
    ensures RanOps([Cancelled(op, reason), DoneSignalled] + CallbackEvents(op, r)) == []
  {
    var es := [Cancelled(op, reason), DoneSignalled] + CallbackEvents(op, r);
    var tail := CallbackEvents(op, r);
    assert es[1..][1..] == tail;
    assert CancelledOps(tail) == [] && RanOps(tail) == [] by {
      if tail != [] {
        assert tail[1..] == [];
      }
    }
    assert CancelledOps(es[1..]) == CancelledOps(tail);
    assert RanOps(es[1..]) == RanOps(tail);
    assert CancelledOps(es) == [op] + CancelledOps(es[1..]);
  }

  /**
   * cancelQ: each previously pending op is cancelled exactly once, in deque
   * iteration order (left to right, the reverse of the order doNextOp would
   * have taken them), and no body is run by do().
   */
  lemma {:induction false} CancelEachOnce<B, R>(ops: seq<QOp<B>>, reason: Option<string>, runs: seq<BodyRun<B, R>>)
    requires |runs| == |ops|
    ensures CancelledOps(CancelEvents(ops, reason, runs)) == ops
    ensures RanOps(CancelEvents(ops, reason, runs)) == []
    decreases |ops|
  {
    if ops != [] {
      var one := [Cancelled(ops[0], reason), DoneSignalled] + CallbackEvents(ops[0], Capture(runs[0].outcome));
      var rest := CancelEvents(ops[1..], reason, runs[1..]);
      assert CancelEvents(ops, reason, runs) == one + rest;
      OneCancelEvents(ops[0], reason, Capture(runs[0].outcome));
      CancelEachOnce(ops[1..], reason, runs[1..]);
      CancelledConcat(one, rest);
      RanConcat(one, rest);
      assert ops == [ops[0]] + ops[1..];
    }
  }

  lemma CancelEventsSnoc<B, R>(ops: seq<QOp<B>>, reason: Option<string>, runs: seq<BodyRun<B, R>>, op: QOp<B>, run: BodyRun<B, R>)
    requires |runs| == |ops|
    ensures CancelEvents(ops + [op], reason, runs + [run])
         == CancelEvents(ops, reason, runs)
            + ([Cancelled(op, reason), DoneSignalled] + CallbackEvents(op, Capture(run.outcome)))
    decreases |ops|
  {
    if ops == [] {
      assert ops + [op] == [op];
      assert runs + [run] == [run];
    } else {
      assert (ops + [op])[1..] == ops[1..] + [op];
      assert (runs + [run])[1..] == runs[1..] + [run];
      CancelEventsSnoc(ops[1..], reason, runs[1..], op, run);
    }
  }

  lemma AllEnqueuesSnoc<B, R>(runs: seq<BodyRun<B, R>>, run: BodyRun<B, R>)
    ensures AllEnqueues(runs + [run]) == AllEnqueues(runs) + run.enqueues
    decreases |runs|
  {
    if runs == [] {
      assert runs + [run] == [run];
    } else {
      assert (runs + [run])[1..] == runs[1..] + [run];
      AllEnqueuesSnoc(runs[1..], run);
    }
  }

  /** One more cancelled op: how the queue, its length and the log of cancelQ grow. */
  lemma CancelStep<B, R>(cancelled: seq<QOp<B>>, reason: Option<string>, runs: seq<BodyRun<B, R>>, i: nat)
    requires i < |runs| == |cancelled|
    ensures ApplyAll([], AllEnqueues(runs[..i + 1]))
         == ApplyAll(ApplyAll([], AllEnqueues(runs[..i])), runs[i].enqueues)
    ensures |ApplyAll(ApplyAll([], AllEnqueues(runs[..i])), runs[i].enqueues)|
         == |ApplyAll([], AllEnqueues(runs[..i]))| + |runs[i].enqueues|
    ensures CancelEvents(cancelled[..i + 1], reason, runs[..i + 1])
         == CancelEvents(cancelled[..i], reason, runs[..i])
            + ([Cancelled(cancelled[i], reason), DoneSignalled] + CallbackEvents(cancelled[i], Capture(runs[i].outcome)))
  {
    var before := runs[..i];
    assert runs[..i + 1] == before + [runs[i]];
    assert cancelled[..i + 1] == cancelled[..i] + [cancelled[i]];
    AllEnqueuesSnoc(before, runs[i]);
    ApplyAllConcat([], AllEnqueues(before), runs[i].enqueues);
    ApplyAllLength(ApplyAll([], AllEnqueues(before)), runs[i].enqueues);
    CancelEventsSnoc(cancelled[..i], reason, before, cancelled[i], runs[i]);
  }

  /** The message BLEOperationTimedOut carries in the blocking adapter. */
  function TimedOutMessage(opName: string, timeout: nat): string
  {
    "Issued " + opName + " returned no results in " + Decimal.Show(timeout) + " seconds"
  }

  // ---------------------------------------------------------------- manager

  class QOpManager<B, R> {
    /** The deque of pending operations; Q[0] is its left end. */
    var Q: seq<QOp<B>>
    /** The counting semaphore tracking queue depth. */
    var OpCount: int
    /** The OpDone event: set while no operation is running. */
    var OpDone: bool
    /** What the manager has done so far. */
    var log: seq<Event<B, R>>

    /** Every up() of OpCount has a pending op to go with it. */
    ghost predicate Valid()
      reads this
    {
      OpCount == |Q|
    }

    constructor ()
      ensures Valid() && Q == [] && OpCount == 0 && OpDone && log == []
    {
      Q := [];
      OpCount := 0;
      OpDone := true;
      log := [];
    }

    /** addFIFOOp: appendleft, then up(). */
    method AddFIFOOp(op: QOp<B>)
      modifies this
      ensures Q == [op] + old(Q) && OpCount == old(OpCount) + 1
      ensures OpDone == old(OpDone) && log == old(log)
    {
      Q := [op] + Q;
      OpCount := OpCount + 1;
    }

    /** addLIFOOp: append, then up(). */
    method AddLIFOOp(op: QOp<B>)
      modifies this
      ensures Q == old(Q) + [op] && OpCount == old(OpCount) + 1
      ensures OpDone == old(OpDone) && log == old(log)
    {
      Q := Q + [op];
      OpCount := OpCount + 1;
    }

    /** The adds a running body makes, one call at a time. */
    method ApplyEnqueues(es: seq<Enqueue<B>>)
      modifies this
      ensures Q == ApplyAll(old(Q), es) && OpCount == old(OpCount) + |es|
      ensures OpDone == old(OpDone) && log == old(log)
    {
      var i := 0;
      while i < |es|
        invariant 0 <= i <= |es|
        invariant Q == ApplyAll(old(Q), es[..i]) && OpCount == old(OpCount) + i
        invariant OpDone == old(OpDone) && log == old(log)
      {
        ApplyAllSnoc(old(Q), es[..i], es[i]);
        assert es[..i + 1] == es[..i] + [es[i]];
        match es[i] {
          case AddFIFO(op) => AddFIFOOp(op);
          case AddLIFO(op) => AddLIFOOp(op);
        }
        i := i + 1;
      }
      assert es[..i] == es;
    }

    method SignalOpIsDone()
      modifies this
      ensures OpDone && Q == old(Q) && OpCount == old(OpCount)
      ensures log == old(log) + [DoneSignalled]
    {
      OpDone := true;
      log := log + [DoneSignalled];
    }

    /**
     * QOp.do(manager): call the body without a reason, capture its outcome,
     * signal the manager, and only then call the callback (at most once).
     */
    method Do(op: QOp<B>, run: BodyRun<B, R>) returns (opr: OpResult<R>)
      modifies this
      ensures opr == Capture(run.outcome)
      ensures Q == ApplyAll(old(Q), run.enqueues) && OpCount == old(OpCount) + |run.enqueues|
      ensures OpDone
      ensures log == old(log) + [Ran(op)] + [DoneSignalled] + CallbackEvents(op, opr)
    {
      log := log + [Ran(op)];
      ApplyEnqueues(run.enqueues);
      opr := Capture(run.outcome);
      SignalOpIsDone();
      if op.callback.Callable? {
        log := log + [CallbackCalled(op, opr)];
      }
    }

    /** QOp.cancel(manager, reason): as Do, but the body is passed `reason`. */
    method Cancel(op: QOp<B>, reason: Option<string>, run: BodyRun<B, R>) returns (opr: OpResult<R>)
      modifies this
      ensures opr == Capture(run.outcome)
      ensures Q == ApplyAll(old(Q), run.enqueues) && OpCount == old(OpCount) + |run.enqueues|
      ensures OpDone
      ensures log == old(log) + [Cancelled(op, reason)] + [DoneSignalled] + CallbackEvents(op, opr)
    {
      log := log + [Cancelled(op, reason)];
      ApplyEnqueues(run.enqueues);
      opr := Capture(run.outcome);
      SignalOpIsDone();
      if op.callback.Callable? {
        log := log + [CallbackCalled(op, opr)];
      }
    }

    /**
     * doNextOp: wait for OpDone, clear it, down() OpCount, pop the rightmost
     * op and run it.  OpDone is set again only by that op's own signal.
     * The two waits are the preconditions: the worker sleeps otherwise.
     */
    method DoNextOp(run: BodyRun<B, R>) returns (op: QOp<B>)
      requires Valid() && OpDone && |Q| > 0
      modifies this
      ensures op == old(Q)[|old(Q)| - 1] && op == PopOrder(old(Q))[0]
      ensures Q == ApplyAll(old(Q)[..|old(Q)| - 1], run.enqueues)
      ensures run.enqueues == [] ==> PopOrder(Q) == PopOrder(old(Q))[1..]
      ensures Valid() && OpDone
      ensures log == old(log) + StepEvents(op, run)
    {
      OpDone := false;
      log := log + [DoneCleared];
      OpCount := OpCount - 1;
      op := Q[|Q| - 1];
      Q := Q[..|Q| - 1];
      var opr := Do(op, run);
      ApplyAllLength(old(Q)[..|old(Q)| - 1], run.enqueues);
      PopOrderPop(old(Q));
    }

    /**
     * The executor's background loop (QOpExecutor._bgLoop) for |runs|
     * rounds: each round waits for OpDone and has the single background
     * thread run doNextOp to completion, the i-th body doing `runs[i]`.
     * The precondition is that the deque never runs dry, where the worker
     * would sleep.
     */
    method RunOps(runs: seq<BodyRun<B, R>>) returns (ops: seq<QOp<B>>)
      requires Valid() && OpDone && RunAll(Q, runs).Some?
      modifies this
      ensures (ops, Q) == RunAll(old(Q), runs).value
      ensures (forall i :: 0 <= i < |runs| ==> runs[i].enqueues == []) ==>
        |runs| <= |old(Q)| && ops == PopOrder(old(Q))[..|runs|] && PopOrder(Q) == PopOrder(old(Q))[|runs|..]
      ensures Valid() && OpDone
      ensures log == old(log) + RunEvents(ops, runs)
    {
      if forall i :: 0 <= i < |runs| ==> runs[i].enqueues == [] {
        RunAllPopOrder(Q, runs);
      }
      ops := [];
      var i := 0;
      assert runs[0..] == runs && runs[..0] == [];
      PrefixNothing(RunAll(Q, runs));
      while i < |runs|
        invariant 0 <= i <= |runs| && |ops| == i
        invariant RanUpTo(runs, i, ops, old(Q), old(log))
      {
        ops := RunNext(runs, i, ops, old(Q), old(log));
        i := i + 1;
      }
      assert runs[..i] == runs && ops + [] == ops;
    }

    /** The state of the executor loop once the first `i` rounds have run and taken `ops`. */
    ghost predicate RanUpTo(runs: seq<BodyRun<B, R>>, i: nat, ops: seq<QOp<B>>, q0: seq<QOp<B>>, log0: seq<Event<B, R>>)
      requires i <= |runs| && |ops| == i
      reads this
    {
      && Valid() && OpDone
      && RunAll(Q, runs[i..]).Some?
      && RunAll(q0, runs) == Prefix(ops, RunAll(Q, runs[i..]))
      && log == log0 + RunEvents(ops, runs[..i])
    }

    /** One round of the executor loop: doNextOp with the i-th body doing `runs[i]`. */
    method RunNext(runs: seq<BodyRun<B, R>>, i: nat, ops: seq<QOp<B>>, ghost q0: seq<QOp<B>>, ghost log0: seq<Event<B, R>>)
      returns (ops': seq<QOp<B>>)
      requires i < |runs| && |ops| == i
      requires RanUpTo(runs, i, ops, q0, log0)
      modifies this
      ensures |ops'| == i + 1
      ensures RanUpTo(runs, i + 1, ops', q0, log0)
    {
      ghost var qBefore := Q;
      ghost var logBefore := log;
      assert runs[i..][0] == runs[i] && runs[i..][1..] == runs[i + 1..];
      RunAllStep(qBefore, runs[i..]);
      var op := DoNextOp(runs[i]);
      RanStep(runs, i, ops, q0, qBefore, Q, op);
      RanStepEvents(runs, i, ops, op, log0, logBefore, log);
      ops' := ops + [op];
    }

    /**
     * cancelQ with every pending op cancelled as cancel(manager, reason):
     * swap in a fresh deque, then cancel the old items in iteration order,
     * lowering OpCount once per item.  Adds made by the cancelled bodies land
     * in the new deque.  `runs[i]` is what the i-th cancelled body does.
     */
    method CancelQ(reason: Option<string>, runs: seq<BodyRun<B, R>>) returns (cancelled: seq<QOp<B>>)
      requires Valid() && |runs| == |Q|
      modifies this
      ensures cancelled == old(Q)
      ensures Q == ApplyAll([], AllEnqueues(runs))
      ensures Valid()
      ensures OpDone == (old(OpDone) || |cancelled| > 0)
      ensures log == old(log) + CancelEvents(cancelled, reason, runs)
    {
      cancelled := Q;
      Q := [];
      var i := 0;
      while i < |cancelled|
        invariant 0 <= i <= |cancelled|
        invariant CancelledUpTo(cancelled, reason, runs, i, old(OpDone), old(log))
      {
        CancelNext(cancelled, reason, runs, i, old(OpDone), old(log));
        i := i + 1;
      }
      assert cancelled[..i] == cancelled && runs[..i] == runs;
    }

    /** The state of cancelQ once the first `i` old items have been cancelled. */
    ghost predicate CancelledUpTo(cancelled: seq<QOp<B>>, reason: Option<string>, runs: seq<BodyRun<B, R>>,
                                  i: nat, done0: bool, log0: seq<Event<B, R>>)
      requires i <= |runs| == |cancelled|
      reads this
    {
      && Q == ApplyAll([], AllEnqueues(runs[..i]))
      && OpCount == |Q| + (|cancelled| - i)
      && OpDone == (done0 || i > 0)
      && log == log0 + CancelEvents(cancelled[..i], reason, runs[..i])
    }

    /** One iteration of cancelQ: cancel the i-th old item and lower OpCount. */
    method CancelNext(cancelled: seq<QOp<B>>, reason: Option<string>, runs: seq<BodyRun<B, R>>,
                      i: nat, ghost done0: bool, ghost log0: seq<Event<B, R>>)
      requires i < |runs| == |cancelled|
      requires CancelledUpTo(cancelled, reason, runs, i, done0, log0)
      modifies this
      ensures CancelledUpTo(cancelled, reason, runs, i + 1, done0, log0)
    {
      ghost var logBefore := log;
      var opr := Cancel(cancelled[i], reason, runs[i]);
      OpCount := OpCount - 1;
      CancelStep(cancelled, reason, runs, i);
      assert log == logBefore + ([Cancelled(cancelled[i], reason), DoneSignalled] + CallbackEvents(cancelled[i], opr));
    }

    /**
     * cancelQ as written: `i.cancel(reason)` passes the reason as the
     * `manager` argument and omits `reason`, so the first iteration raises
     * TypeError.  By then the deque has been swapped: the pending ops are
     * dropped uncancelled, no callback fires and OpCount is not lowered.
     */
    method CancelQAsWritten(reason: Option<string>) returns (o: Outcome<(), PyException>)
      requires Valid()
      modifies this
      ensures Q == [] && OpCount == old(OpCount) && OpDone == old(OpDone) && log == old(log)
      ensures o.Raised? <==> old(Q) != []
      ensures o.Raised? ==> o.error.cls == Other("TypeError")
      ensures old(Q) != [] ==> !Valid()
    {
      var cancelleditems := Q;
      Q := [];
      if cancelleditems != [] {
        return Raised(Builtin("TypeError", "cancel() missing 1 required positional argument: 'reason'"));
      }
      return Returned(());
    }

    /**
     * The blocking adapter of wrap_into_QOp: enqueue exactly one FIFO op
     * whose callback hands the OpResult over, then wait up to `timeout`
     * seconds.  `delivered` is what the callback handed over within that time
     * (None when nothing arrived).
     */
    method WrapIntoQOp(body: B, cb: nat, opName: string, timeout: nat, delivered: Option<OpResult<R>>)
      returns (o: Outcome<Option<R>, PyException>)
      modifies this
      ensures Q == [QOp(body, Callable(cb))] + old(Q) && OpCount == old(OpCount) + 1
      ensures OpDone == old(OpDone) && log == old(log)
      ensures delivered.Some? ==> o == GetResult(delivered.value)
      ensures delivered.None? ==> o == Raised(PyException(BLEOperationTimedOut, TimedOutMessage(opName, timeout)))
    {
      AddFIFOOp(QOp(body, Callable(cb)));
      if delivered.Some? {
        o := GetResult(delivered.value);
      } else {
        o := Raised(PyException(BLEOperationTimedOut, TimedOutMessage(opName, timeout)));
      }
    }
  }

  /** Two FIFO ops and then a LIFO op: the LIFO one runs first, then the FIFO ones in order. */
  method Scenario(a: QOp<int>, b: QOp<int>, c: QOp<int>, run: BodyRun<int, int>)
    returns (first: QOp<int>, second: QOp<int>, third: QOp<int>)
    requires run.enqueues == []
    ensures first == c && second == a && third == b
  {
    var m := new QOpManager<int, int>();
    m.AddFIFOOp(a);
    m.AddFIFOOp(b);
    m.AddLIFOOp(c);
    first := m.DoNextOp(run);
    second := m.DoNextOp(run);
    third := m.DoNextOp(run);
  }
}
