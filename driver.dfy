/**
 * The script around the wrapper: the startup loop that retries construction
 * after an `OSError`, the one subscription to node-status messages, and the
 * publisher loop that spins and then publishes, cycle after cycle.
 *
 * Both loops of the script are unbounded. Here they run over a finite list of
 * library replies (one per construction attempt, one pair per cycle); reaching
 * the end of that list stands for "the source is still looping".
 */
module Driver {
  import opened Wrappers
  import opened Transport
  import opened ErrorHandling
  import opened FakeGps

  /** Spin period used by the publisher loop. */
  const LOOP_SPIN_PERIOD: real := 0.2
  /** The type the script subscribes to. */
  const NODE_STATUS: DataType := DataType("uavcan.protocol.NodeStatus")

  /** How the startup loop ends after the attempts it was given. */
  datatype Startup =
    | Up(retries: nat, node: NodeHandle)          // a communicator exists
    | Exited(retries: nat, error: Exception)      // a non-OSError escaped the loop
    | StillRetrying(retries: nat)                 // every attempt so far raised OSError

  function Delayed(s: Startup, k: nat): (r: Startup)
    ensures r.retries == s.retries + k
  {
    match s
    case Up(n, h) => Up(n + k, h)
    case Exited(n, e) => Exited(n + k, e)
    case StillRetrying(n) => StillRetrying(n + k)
  }

  /**
   * The startup loop over `attempts`, the successive outcomes of `make_node`.
   * An unknown device type exits on the first attempt, which needs no reply.
   */
  function StartupSpec(deviceType: string, attempts: seq<Reply<NodeHandle>>): Startup
    decreases |attempts|
  {
    if SelectTransport(deviceType).None? then Exited(0, SystemExit)
    else if |attempts| == 0 then StillRetrying(0)
    else match attempts[0]
      case Returned(n) => Up(0, n)
      case Raised(e) =>
        if e == OSError then Delayed(StartupSpec(deviceType, attempts[1..]), 1)
        else Exited(0, e)
  }

  /** Every attempt before `k` raised OSError. */
  ghost predicate RetriedUntil(attempts: seq<Reply<NodeHandle>>, k: nat)
  {
    k <= |attempts| && forall j :: 0 <= j < k ==> attempts[j] == Raised(OSError)
  }

  /** The loop ends with a communicator exactly when attempt `k` succeeded after `k` OSErrors. */
  lemma {:induction false} StartupUp(deviceType: string, attempts: seq<Reply<NodeHandle>>, k: nat, n: NodeHandle)
    ensures StartupSpec(deviceType, attempts) == Up(k, n)
        <==> SelectTransport(deviceType).Some? && k < |attempts| && RetriedUntil(attempts, k)
             && attempts[k] == Returned(n)
    decreases |attempts|
  {
    if |attempts| > 0 && SelectTransport(deviceType).Some? && attempts[0] == Raised(OSError) {
      var rest := attempts[1..];
      if k > 0 {
        StartupUp(deviceType, rest, k - 1, n);
        assert RetriedUntil(attempts, k) <==> RetriedUntil(rest, k - 1) by {
          if RetriedUntil(rest, k - 1) {
            forall j | 0 <= j < k ensures attempts[j] == Raised(OSError) {
              if j > 0 { assert attempts[j] == rest[j - 1]; }
            }
          }
          if RetriedUntil(attempts, k) {
            forall j | 0 <= j < k - 1 ensures rest[j] == Raised(OSError) {
              assert rest[j] == attempts[j + 1];
            }
          }
        }
      }
    }
  }

  /** The loop stops on attempt `k` only with a non-OSError: SystemExit for an unknown device type, else what `make_node` raised. */
  lemma {:induction false} StartupExited(deviceType: string, attempts: seq<Reply<NodeHandle>>, k: nat, e: Exception)
    ensures StartupSpec(deviceType, attempts) == Exited(k, e)
        <==> if SelectTransport(deviceType).None? then k == 0 && e == SystemExit
             else k < |attempts| && RetriedUntil(attempts, k) && e != OSError
                  && attempts[k] == Raised(e)
    decreases |attempts|
  {
    if |attempts| > 0 && SelectTransport(deviceType).Some? && attempts[0] == Raised(OSError) {
      var rest := attempts[1..];
      if k > 0 {
        StartupExited(deviceType, rest, k - 1, e);
        assert RetriedUntil(attempts, k) <==> RetriedUntil(rest, k - 1) by {
          if RetriedUntil(rest, k - 1) {
            forall j | 0 <= j < k ensures attempts[j] == Raised(OSError) {
              if j > 0 { assert attempts[j] == rest[j - 1]; }
            }
          }
          if RetriedUntil(attempts, k) {
            forall j | 0 <= j < k - 1 ensures rest[j] == Raised(OSError) {
              assert rest[j] == attempts[j + 1];
            }
          }
        }
        if k < |attempts| { assert attempts[k] == rest[k - 1]; }
      }
    }
  }

  /** A transport that always fails with OSError is retried forever: the loop never raises. */
  lemma {:induction false} PersistentOSError(deviceType: string, attempts: seq<Reply<NodeHandle>>)
    requires SelectTransport(deviceType).Some?
    requires forall j :: 0 <= j < |attempts| ==> attempts[j] == Raised(OSError)
    ensures StartupSpec(deviceType, attempts) == StillRetrying(|attempts|)
    decreases |attempts|
  {
    if |attempts| > 0 {
      PersistentOSError(deviceType, attempts[1..]);
    }
  }

  /** The `make_node` call of one construction attempt with the script's defaults. */
  function AttemptCall(config: Config): Call
  {
    MakeNode(DEFAULT_NODE_ID, NodeInfoFor(DEFAULT_NODE_NAME), Kwargs(config))
  }

  /**
   * The `while communicator is None` loop: construct with the default node id
   * and name, and on OSError log, sleep and try again. `issued` holds the
   * `make_node` calls made, one per attempt that reached it. The communicator
   * is returned only when construction succeeded, fresh, with its node and
   * with all counters zero.
   */
  method StartUp(deviceType: string, attempts: seq<Reply<NodeHandle>>)
    returns (communicator: Communicator?, verdict: Startup, issued: seq<Call>)
    ensures verdict == StartupSpec(deviceType, attempts)
    ensures communicator != null <==> verdict.Up?
    ensures communicator != null ==>
      fresh(communicator) && communicator.Valid() && communicator.node == Some(verdict.node)
      && communicator.handlers == [] && communicator.Counts() == NoErrors
    ensures SelectTransport(deviceType).None? ==> issued == []
    ensures SelectTransport(deviceType).Some? ==>
      |issued| == (if verdict.StillRetrying? then verdict.retries else verdict.retries + 1)
      && forall k :: 0 <= k < |issued| ==> issued[k] == AttemptCall(SelectTransport(deviceType).value)
  {
    var i := 0;
    issued := [];
    while true
      invariant 0 <= i <= |attempts|
      invariant i > 0 ==> SelectTransport(deviceType).Some?
      invariant StartupSpec(deviceType, attempts) == Delayed(StartupSpec(deviceType, attempts[i..]), i)
      invariant |issued| == i
      invariant forall k :: 0 <= k < |issued| ==>
        SelectTransport(deviceType).Some? && issued[k] == AttemptCall(SelectTransport(deviceType).value)
      decreases |attempts| - i
    {
      if SelectTransport(deviceType).Some? && i == |attempts| {
        return null, StillRetrying(i), issued;
      }
      // For an unknown device type `make_node` is never reached, so no reply is consulted.
      var reply := if i < |attempts| then attempts[i] else Raised(OSError);
      var c, call, raised := Communicator.Create(deviceType, DEFAULT_NODE_ID, DEFAULT_NODE_NAME, reply);
      if call.Some? {
        issued := issued + [call.value];
      }
      if raised.None? {
        return c, Up(i, c.node.value), issued;
      }
      if raised.value != OSError {
        return null, Exited(i, raised.value), issued;
      }
      // OSError: the source logs it, sleeps and tries again.
      assert attempts[i..][1..] == attempts[i + 1..];
      i := i + 1;
    }
  }

  /** The calls of the first `m` steps of the publisher loop: spins and broadcasts in turn. */
  function LoopCalls(msg: Message, m: nat): seq<Call>
  {
    seq(m, k => if k % 2 == 0 then SpinFor(LOOP_SPIN_PERIOD) else Broadcast(msg, TRANSFER_PRIORITY_LOWEST))
  }

  /**
   * The first `|cycles|` iterations of the `while True` loop: `spin(0.2)`, then
   * `publish(msg)`. The counters end as `Cycles` says; an exception that
   * escapes either call ends the loop.
   */
  method PublisherLoop(c: Communicator, msg: Message, cycles: seq<CycleReplies>)
    returns (issued: seq<Call>, completed: nat, raised: Option<Exception>)
    requires c.Valid() && c.node.Some?
    modifies c
    ensures c.Valid()
    ensures c.node == old(c.node) && c.handlers == old(c.handlers)
    ensures Step(c.Counts(), raised) == Cycles(old(c.Counts()), cycles)
    ensures issued == LoopCalls(msg, |issued|) && |issued| == LoopCallCount(old(c.Counts()), cycles)
    ensures raised.None? ==> completed == |cycles| && |issued| == 2 * completed
    ensures raised.Some? ==>
      && completed < |cycles|
      && Cycles(old(c.Counts()), cycles[..completed]).uncaught.None?
      && Cycles(old(c.Counts()), cycles[..completed + 1]) == Step(c.Counts(), raised)
      && (|issued| == 2 * completed + 1 || |issued| == 2 * completed + 2)
      && (|issued| == 2 * completed + 1 <==>
          AfterSpin(Cycles(old(c.Counts()), cycles[..completed]).counts, cycles[completed].spin).uncaught.Some?)
  {
    ghost var start := c.Counts();
    completed := 0;
    issued := [];
    while completed < |cycles|
      invariant 0 <= completed <= |cycles|
      invariant c.Valid()
      invariant c.node == old(c.node) && c.handlers == old(c.handlers)
      invariant Cycles(start, cycles[..completed]) == Step(c.Counts(), None)
      invariant issued == LoopCalls(msg, 2 * completed)
    {
      ghost var before := c.Counts();
      assert cycles[..completed + 1][..completed] == cycles[..completed];
      var spinCall, spinRaised := c.Spin(LOOP_SPIN_PERIOD, cycles[completed].spin);
      issued := issued + [spinCall.value];
      assert issued == LoopCalls(msg, 2 * completed + 1);
      if spinRaised.Some? {
        CyclesStopAtUncaught(start, cycles, completed + 1);
        LoopCallCountStops(start, cycles, completed + 1);
        return issued, completed, spinRaised;
      }
      var publishCall, publishRaised := c.Publish(msg, TRANSFER_PRIORITY_LOWEST, cycles[completed].publish);
      issued := issued + [publishCall.value];
      assert issued == LoopCalls(msg, 2 * completed + 2);
      if publishRaised.Some? {
        assert AfterSpin(before, cycles[completed].spin).uncaught.None?;
        CyclesStopAtUncaught(start, cycles, completed + 1);
        LoopCallCountStops(start, cycles, completed + 1);
        return issued, completed, publishRaised;
      }
      completed := completed + 1;
    }
    assert cycles[..completed] == cycles;
    LoopCallCountFull(start, cycles);
    return issued, completed, None;
  }

  /**
   * The script as a whole: start up with `CAN_DEVICE_TYPE`, subscribe to
   * node-status messages, then run the publisher loop. `calls` holds every
   * call made into the library, in order; `raised` is the exception that ends
   * the script, if one does within the given replies.
   */
  method RunScript(attempts: seq<Reply<NodeHandle>>, callback: Callback,
                   subscription: Reply<HandlerHandle>, msg: Message, cycles: seq<CycleReplies>)
    returns (verdict: Startup, calls: seq<Call>, raised: Option<Exception>)
    ensures verdict == StartupSpec(CAN_DEVICE_TYPE, attempts)
    ensures verdict.Exited? ==> raised == Some(verdict.error)
    ensures verdict.StillRetrying? ==> raised.None?
    ensures verdict.Up? && subscription.Raised? ==> raised == Some(subscription.error)
    ensures verdict.Up? && subscription.Returned? ==> raised == Cycles(NoErrors, cycles).uncaught
    ensures !verdict.Up? ==> |calls| == (if verdict.Exited? then verdict.retries + 1 else verdict.retries)
    ensures verdict.Up? ==>
      |calls| >= verdict.retries + 2 && calls[verdict.retries + 1] == AddHandler(NODE_STATUS, callback)
    ensures forall k :: 0 <= k < |calls| && k <= verdict.retries ==> calls[k] == AttemptCall(SERIAL_CONFIG)
    ensures verdict.Up? && subscription.Raised? ==> |calls| == verdict.retries + 2
    ensures verdict.Up? && subscription.Returned? ==>
      |calls| == verdict.retries + 2 + LoopCallCount(NoErrors, cycles)
      && calls[verdict.retries + 2..] == LoopCalls(msg, |calls| - verdict.retries - 2)
  {
    var communicator;
    communicator, verdict, calls := StartUp(CAN_DEVICE_TYPE, attempts);
    if communicator == null {
      raised := if verdict.Exited? then Some(verdict.error) else None;
      return;
    }
    var subscribeCall, subscribeRaised := communicator.Subscribe(NODE_STATUS, callback, subscription);
    calls := calls + [subscribeCall.value];
    if subscribeRaised.Some? {
      return verdict, calls, subscribeRaised;
    }
    var loopCalls, completed;
    loopCalls, completed, raised := PublisherLoop(communicator, msg, cycles);
    assert (calls + loopCalls)[verdict.retries + 2..] == loopCalls;
    calls := calls + loopCalls;
  }
}
