/**
 * How `publish` and `spin` classify what the protocol library raised: each
 * caught exception class bumps exactly one of the four error counters or is
 * only logged, and every other exception propagates. The functions here are
 * the specification that the methods of `FakeGps.Communicator` follow.
 */
module ErrorHandling {
  import opened Wrappers

  /**
   * The exception classes the wrapper names, plus the ones that reach the
   * startup loop. The classes are taken to be disjoint.
   */
  datatype Exception =
    | CanError          // can.CanError
    | TxQueueFullError  // uavcan.driver.common.TxQueueFullError
    | QueueFull         // queue.Full
    | TransferError     // uavcan.transport.TransferError
    | OSError
    | AttributeError    // a method looked up on `self.node` while it is None
    | SystemExit        // raised by sys.exit()
    | Other(name: string)

  /** What a hidden library call did: returned a value, or raised. */
  datatype Reply<T> = Returned(value: T) | Raised(error: Exception)

  /** The four counters of the wrapper. */
  datatype Counter = TxCanError | TxFullBuffer | SpinCanError | SpinTransferError

  datatype ErrorCounts = ErrorCounts(
    txCanError: nat,         // tx_can_error_counter
    txFullBuffer: nat,       // tx_full_buffer_error
    spinCanError: nat,       // spin_can_error_counter
    spinTransferError: nat)  // spin_transfer_error_counter
  {
    function Get(k: Counter): nat
    {
      match k
      case TxCanError => txCanError
      case TxFullBuffer => txFullBuffer
      case SpinCanError => spinCanError
      case SpinTransferError => spinTransferError
    }

    /** The `+= 1` on one counter. */
    function Bump(k: Counter): (r: ErrorCounts)
      ensures r.Get(k) == Get(k) + 1
      ensures forall j :: j != k ==> r.Get(j) == Get(j)
    {
      match k
      case TxCanError => this.(txCanError := txCanError + 1)
      case TxFullBuffer => this.(txFullBuffer := txFullBuffer + 1)
      case SpinCanError => this.(spinCanError := spinCanError + 1)
      case SpinTransferError => this.(spinTransferError := spinTransferError + 1)
    }

    function Total(): nat
    {
      txCanError + txFullBuffer + spinCanError + spinTransferError
    }

    /** Every counter is at most the corresponding counter of `other`. */
    predicate AtMost(other: ErrorCounts)
    {
      forall k :: Get(k) <= other.Get(k)
    }

    /** The transmit-side counters agree with those of `other`. */
    predicate SameTx(other: ErrorCounts)
    {
      txCanError == other.txCanError && txFullBuffer == other.txFullBuffer
    }

    /** The receive-side counters agree with those of `other`. */
    predicate SameSpin(other: ErrorCounts)
    {
      spinCanError == other.spinCanError && spinTransferError == other.spinTransferError
    }
  }

  const NoErrors: ErrorCounts := ErrorCounts(0, 0, 0, 0)

  /** What an `except` clause does with an exception. */
  datatype Handling = Counted(counter: Counter) | Logged | Uncaught

  /** The `except` clauses of `publish`, in order. */
  function PublishClause(e: Exception): Handling
  {
    match e
    case CanError => Counted(TxCanError)
    case TxQueueFullError => Counted(TxFullBuffer)
    case QueueFull => Logged
    case _ => Uncaught
  }

  /** The `except` clauses of `spin`, in order. */
  function SpinClause(e: Exception): Handling
  {
    match e
    case TransferError => Counted(SpinTransferError)
    case CanError => Counted(SpinCanError)
    case QueueFull => Logged
    case TxQueueFullError => Logged
    case _ => Uncaught
  }

  /** The counters after one call, and the exception that escaped it, if any. */
  datatype Step = Step(counts: ErrorCounts, uncaught: Option<Exception>)

  function Handle(c: ErrorCounts, e: Exception, h: Handling): Step
  {
    match h
    case Counted(k) => Step(c.Bump(k), None)
    case Logged => Step(c, None)
    case Uncaught => Step(c, Some(e))
  }

  /** One `publish` call whose `broadcast` gave `r`. */
  function AfterPublish(c: ErrorCounts, r: Reply<()>): (s: Step)
    ensures r.Returned? ==> s == Step(c, None)
    ensures r == Raised(CanError) ==> s == Step(c.Bump(TxCanError), None)
    ensures r == Raised(TxQueueFullError) ==> s == Step(c.Bump(TxFullBuffer), None)
    ensures r == Raised(QueueFull) ==> s == Step(c, None)
    ensures r.Raised? && r.error != CanError && r.error != TxQueueFullError && r.error != QueueFull
      ==> s == Step(c, Some(r.error))
  {
    match r
    case Returned(_) => Step(c, None)
    case Raised(e) => Handle(c, e, PublishClause(e))
  }

  /** One `spin` call whose library `spin` gave `r`. */
  function AfterSpin(c: ErrorCounts, r: Reply<()>): (s: Step)
    ensures r.Returned? ==> s == Step(c, None)
    ensures r == Raised(TransferError) ==> s == Step(c.Bump(SpinTransferError), None)
    ensures r == Raised(CanError) ==> s == Step(c.Bump(SpinCanError), None)
    ensures r == Raised(QueueFull) || r == Raised(TxQueueFullError) ==> s == Step(c, None)
    ensures r.Raised? && r.error != TransferError && r.error != CanError
            && r.error != QueueFull && r.error != TxQueueFullError
      ==> s == Step(c, Some(r.error))
  {
    match r
    case Returned(_) => Step(c, None)
    case Raised(e) => Handle(c, e, SpinClause(e))
  }

  /** At most one counter grew, and by exactly one: nothing decreased and the sum grew by at most 1. */
  predicate AtMostOneBump(before: ErrorCounts, after: ErrorCounts)
  {
    before.AtMost(after) && after.Total() <= before.Total() + 1
  }

  /** A `publish` bumps at most one counter, never a receive-side one, and none when it propagates. */
  lemma PublishStepShape(c: ErrorCounts, r: Reply<()>)
    ensures AtMostOneBump(c, AfterPublish(c, r).counts)
    ensures AfterPublish(c, r).counts.SameSpin(c)
    ensures AfterPublish(c, r).uncaught.Some? ==> AfterPublish(c, r).counts == c
  {
  }

  /** A `spin` bumps at most one counter, never a transmit-side one, and none when it propagates. */
  lemma SpinStepShape(c: ErrorCounts, r: Reply<()>)
    ensures AtMostOneBump(c, AfterSpin(c, r).counts)
    ensures AfterSpin(c, r).counts.SameTx(c)
    ensures AfterSpin(c, r).uncaught.Some? ==> AfterSpin(c, r).counts == c
  {
  }

  /** Consecutive `publish` calls, stopping at the first exception that escapes. */
  function Publishes(c: ErrorCounts, rs: seq<Reply<()>>): Step
    decreases |rs|
  {
    if |rs| == 0 then Step(c, None)
    else
      var s := Publishes(c, rs[..|rs| - 1]);
      if s.uncaught.Some? then s else AfterPublish(s.counts, rs[|rs| - 1])
  }

  /** Over any run of publishes the counters only grow, by at most one per call, and only on the transmit side. */
  lemma {:induction false} PublishesShape(c: ErrorCounts, rs: seq<Reply<()>>)
    ensures c.AtMost(Publishes(c, rs).counts)
    ensures Publishes(c, rs).counts.Total() <= c.Total() + |rs|
    ensures Publishes(c, rs).counts.SameSpin(c)
    decreases |rs|
  {
    if |rs| > 0 {
      var s := Publishes(c, rs[..|rs| - 1]);
      PublishesShape(c, rs[..|rs| - 1]);
      if s.uncaught.None? {
        PublishStepShape(s.counts, rs[|rs| - 1]);
      }
    }
  }

  function Repeat(r: Reply<()>, n: nat): seq<Reply<()>>
  {
    seq(n, _ => r)
  }

  /** N send errors leave the send-error counter exactly N higher, and nothing else changed. */
  lemma {:induction false} SendErrorsCounted(c: ErrorCounts, n: nat)
    ensures Publishes(c, Repeat(Raised(CanError), n))
         == Step(c.(txCanError := c.txCanError + n), None)
    decreases n
  {
    if n > 0 {
      assert Repeat(Raised(CanError), n)[..n - 1] == Repeat(Raised(CanError), n - 1);
      SendErrorsCounted(c, n - 1);
    }
  }

  /** N send errors followed by a successful publish: the counter is N and the success leaves it unchanged. */
  lemma SendErrorsThenSuccess(c: ErrorCounts, n: nat)
    ensures Publishes(c, Repeat(Raised(CanError), n) + [Returned(())])
         == Step(c.(txCanError := c.txCanError + n), None)
  {
    var rs := Repeat(Raised(CanError), n) + [Returned(())];
    assert rs[..|rs| - 1] == Repeat(Raised(CanError), n);
    SendErrorsCounted(c, n);
  }

  /** A full send queue is counted once and does not affect the next publish. */
  lemma QueueFullNotCarried(c: ErrorCounts, r: Reply<()>)
    ensures Publishes(c, [Raised(TxQueueFullError), r]) == AfterPublish(c.Bump(TxFullBuffer), r)
  {
    var rs: seq<Reply<()>> := [Raised(TxQueueFullError), r];
    assert rs[..1][..0] == [];
    assert Publishes(c, rs[..1]) == Step(c.Bump(TxFullBuffer), None);
  }

  /** What the library did in one cycle of the publisher loop. */
  datatype CycleReplies = CycleReplies(spin: Reply<()>, publish: Reply<()>)

  /**
   * One cycle: `spin`, then `publish` unless the spin propagated an exception.
   * A cycle changes at most one counter on each side, each by at most one,
   * and decreases none; when the spin propagates, the transmit side is untouched.
   */
  function Cycle(c: ErrorCounts, cr: CycleReplies): (s: Step)
    ensures c.AtMost(s.counts)
    ensures s.counts.Total() <= c.Total() + 2
    ensures s.counts.txCanError + s.counts.txFullBuffer <= c.txCanError + c.txFullBuffer + 1
    ensures s.counts.spinCanError + s.counts.spinTransferError
         <= c.spinCanError + c.spinTransferError + 1
    ensures AfterSpin(c, cr.spin).uncaught.Some? ==> s.counts.SameTx(c) && s.uncaught.Some?
  {
    var s := AfterSpin(c, cr.spin);
    if s.uncaught.Some? then s else AfterPublish(s.counts, cr.publish)
  }

  /** Consecutive cycles, stopping at the first exception that escapes. */
  function Cycles(c: ErrorCounts, cs: seq<CycleReplies>): Step
    decreases |cs|
  {
    if |cs| == 0 then Step(c, None)
    else
      var s := Cycles(c, cs[..|cs| - 1]);
      if s.uncaught.Some? then s else Cycle(s.counts, cs[|cs| - 1])
  }

  /** Over any run of the publisher loop the counters never decrease. */
  lemma {:induction false} CyclesMonotone(c: ErrorCounts, cs: seq<CycleReplies>)
    ensures c.AtMost(Cycles(c, cs).counts)
    ensures Cycles(c, cs).counts.Total() <= c.Total() + 2 * |cs|
    decreases |cs|
  {
    if |cs| > 0 {
      CyclesMonotone(c, cs[..|cs| - 1]);
    }
  }

  /**
   * How many library calls the publisher loop makes over `cs`: two per cycle
   * run in full, and in the first cycle that raises, its spin alone when the
   * spin raised, or its spin and its publish when the publish raised.
   */
  function LoopCallCount(c: ErrorCounts, cs: seq<CycleReplies>): nat
    decreases |cs|
  {
    if |cs| == 0 then 0
    else
      var s := Cycles(c, cs[..|cs| - 1]);
      if s.uncaught.Some? then LoopCallCount(c, cs[..|cs| - 1])
      else if AfterSpin(s.counts, cs[|cs| - 1].spin).uncaught.Some? then 2 * (|cs| - 1) + 1
      else 2 * |cs|
  }

  /** Once an exception has escaped, later cycles add no calls. */
  lemma {:induction false} LoopCallCountStops(c: ErrorCounts, cs: seq<CycleReplies>, i: nat)
    requires i <= |cs|
    requires Cycles(c, cs[..i]).uncaught.Some?
    ensures LoopCallCount(c, cs) == LoopCallCount(c, cs[..i])
    decreases |cs| - i
  {
    if i < |cs| {
      assert cs[..i + 1][..i] == cs[..i];
      LoopCallCountStops(c, cs, i + 1);
    } else {
      assert cs[..i] == cs;
    }
  }

  /** A run of cycles that raises nothing makes exactly two calls per cycle. */
  lemma LoopCallCountFull(c: ErrorCounts, cs: seq<CycleReplies>)
    requires Cycles(c, cs).uncaught.None?
    ensures LoopCallCount(c, cs) == 2 * |cs|
  {
  }

  /** Once an exception has escaped, later cycles are never run. */
  lemma {:induction false} CyclesStopAtUncaught(c: ErrorCounts, cs: seq<CycleReplies>, i: nat)
    requires i <= |cs|
    requires Cycles(c, cs[..i]).uncaught.Some?
    ensures Cycles(c, cs) == Cycles(c, cs[..i])
    decreases |cs| - i
  {
    if i < |cs| {
      assert cs[..i + 1][..i] == cs[..i];
      CyclesStopAtUncaught(c, cs, i + 1);
    } else {
      assert cs[..i] == cs;
    }
  }
}
