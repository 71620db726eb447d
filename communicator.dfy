/**
 * `UavcanCommunicatorV0`: a thin wrapper around one pyuavcan v0 node. The
 * library is hidden; each of its calls is modelled by the `Reply` it gave,
 * passed in, and by the `Call` the wrapper issued, passed out.
 */
module FakeGps {
  import opened Wrappers
  import opened Transport
  import opened ErrorHandling

  /** Defaults of the constructor's `node_id` and `node_name` parameters. */
  const DEFAULT_NODE_ID: nat := 42
  const DEFAULT_NODE_NAME: string := "uavcan communicator"
  /** `uavcan.TRANSFER_PRIORITY_LOWEST`: the lowest of the 32 UAVCAN v0 transfer priorities. */
  const TRANSFER_PRIORITY_LOWEST: nat := 31

  /** The `GetNodeInfo` response record handed to `make_node`. */
  datatype NodeInfo = NodeInfo(name: string, softwareMajor: nat, softwareMinor: nat, uniqueId: seq<bv8>)

  /** The node identity the wrapper builds: software version 0.2, hardware id b'12345'. */
  function NodeInfoFor(nodeName: string): NodeInfo
  {
    NodeInfo(nodeName, 0, 2, [0x31, 0x32, 0x33, 0x34, 0x35])
  }

  /** Library objects the wrapper only passes around. */
  datatype NodeHandle = NodeHandle(id: nat)
  datatype HandlerHandle = HandlerHandle(id: nat)
  datatype DataType = DataType(name: string)
  datatype Callback = Callback(id: nat)
  datatype Message = Message(dataType: DataType, id: nat)

  /** A call the wrapper makes into the protocol library. */
  datatype Call =
    | MakeNode(nodeId: nat, info: NodeInfo, kwargs: map<string, Value>)
    | AddHandler(dataType: DataType, callback: Callback)
    | Broadcast(message: Message, priority: nat)
    | SpinForever        // node.spin()
    | SpinFor(timeout: real)  // node.spin(period)
    | Close

  /** The library `spin` call a `period` leads to: -1 means no argument, anything else is passed on. */
  function SpinCall(period: real): (call: Call)
    ensures call.SpinForever? <==> period == -1.0
    ensures !call.SpinForever? ==> call == SpinFor(period)
  {
    if period == -1.0 then SpinForever else SpinFor(period)
  }

  class Communicator {
    var node: Option<NodeHandle>
    var handlers: seq<HandlerHandle>
    var txCanErrorCounter: nat
    var txFullBufferError: nat
    var spinCanErrorCounter: nat
    var spinTransferErrorCounter: nat

    /** Subscriptions exist only on a wrapper that holds a node. */
    ghost predicate Valid()
      reads this
    {
      node.None? ==> handlers == []
    }

    /** The four error counters as one value. */
    function Counts(): ErrorCounts
      reads this
    {
      ErrorCounts(txCanErrorCounter, txFullBufferError, spinCanErrorCounter, spinTransferErrorCounter)
    }

    /** The field initialisation at the top of `__init__`. */
    constructor ()
      ensures Valid()
      ensures node.None? && handlers == [] && Counts() == NoErrors
    {
      handlers := [];
      node := None;
      txCanErrorCounter := 0;
      txFullBufferError := 0;
      spinCanErrorCounter := 0;
      spinTransferErrorCounter := 0;
    }

    /**
     * The whole of `__init__`. `reply` is what `make_node` would do. An unknown
     * device type exits (SystemExit) before `make_node` is reached; a failing
     * `make_node` propagates its exception. Either way the partly built wrapper
     * is returned with no node, as `__del__` later sees it.
     */
    static method Create(deviceType: string, nodeId: nat, nodeName: string, reply: Reply<NodeHandle>)
      returns (c: Communicator, issued: Option<Call>, raised: Option<Exception>)
      ensures fresh(c) && c.Valid()
      ensures c.handlers == [] && c.Counts() == NoErrors
      ensures SelectTransport(deviceType).None? ==>
        issued.None? && raised == Some(SystemExit) && c.node.None?
      ensures SelectTransport(deviceType).Some? ==>
        issued == Some(MakeNode(nodeId, NodeInfoFor(nodeName), Kwargs(SelectTransport(deviceType).value)))
      ensures SelectTransport(deviceType).Some? && reply.Returned? ==>
        c.node == Some(reply.value) && raised.None?
      ensures SelectTransport(deviceType).Some? && reply.Raised? ==>
        c.node.None? && raised == Some(reply.error)
    {
      c := new Communicator();
      var config := SelectTransport(deviceType);
      if config.None? {
        return c, None, Some(SystemExit);
      }
      issued := Some(MakeNode(nodeId, NodeInfoFor(nodeName), Kwargs(config.value)));
      match reply {
        case Returned(n) =>
          c.node := Some(n);
          raised := None;
        case Raised(e) =>
          raised := Some(e);
      }
    }

    /** `__del__`: close the node if, and only if, there is one. Nothing else changes. */
    method Destroy() returns (issued: Option<Call>)
      ensures issued.Some? <==> node.Some?
      ensures issued.Some? ==> issued.value == Close
    {
      if node.Some? {
        issued := Some(Close);
      } else {
        issued := None;
      }
    }

    /**
     * `subscribe`: `reply` is what `add_handler` did. Its handle is appended
     * after every earlier one; an exception propagates and appends nothing.
     */
    method Subscribe(dataType: DataType, callback: Callback, reply: Reply<HandlerHandle>)
      returns (issued: Option<Call>, raised: Option<Exception>)
      requires Valid()
      modifies this
      ensures Valid()
      ensures node == old(node) && Counts() == old(Counts())
      ensures old(node).None? ==>
        issued.None? && raised == Some(AttributeError) && handlers == old(handlers)
      ensures old(node).Some? ==> issued == Some(AddHandler(dataType, callback))
      ensures old(node).Some? && reply.Returned? ==>
        handlers == old(handlers) + [reply.value] && raised.None?
      ensures old(node).Some? && reply.Raised? ==>
        handlers == old(handlers) && raised == Some(reply.error)
    {
      if node.None? {
        return None, Some(AttributeError);
      }
      issued := Some(AddHandler(dataType, callback));
      match reply {
        case Returned(h) =>
          handlers := handlers + [h];
          raised := None;
        case Raised(e) =>
          raised := Some(e);
      }
    }

    /**
     * `publish`: `reply` is what `broadcast` did. Counters change as
     * `AfterPublish` says; the node and the subscriptions are untouched.
     */
    method Publish(message: Message, priority: nat, reply: Reply<()>)
      returns (issued: Option<Call>, raised: Option<Exception>)
      requires Valid()
      modifies this
      ensures Valid()
      ensures node == old(node) && handlers == old(handlers)
      ensures old(node).None? ==> issued.None?
      ensures old(node).Some? ==> issued == Some(Broadcast(message, priority))
      ensures Step(Counts(), raised)
           == AfterPublish(old(Counts()), if old(node).Some? then reply else Raised(AttributeError))
    {
      if node.None? {
        return None, Some(AttributeError);
      }
      issued := Some(Broadcast(message, priority));
      raised := None;
      match reply {
        case Returned(_) =>
        case Raised(e) =>
          if e == CanError {
            txCanErrorCounter := txCanErrorCounter + 1;
          } else if e == TxQueueFullError {
            txFullBufferError := txFullBufferError + 1;
          } else if e == QueueFull {
          } else {
            raised := Some(e);
          }
      }
    }

    /**
     * `spin`: `reply` is what the library `spin` did; which form of that call
     * is issued depends on `period` as `SpinCall` says. Counters change as
     * `AfterSpin` says; the node and the subscriptions are untouched.
     */
    method Spin(period: real, reply: Reply<()>)
      returns (issued: Option<Call>, raised: Option<Exception>)
      requires Valid()
      modifies this
      ensures Valid()
      ensures node == old(node) && handlers == old(handlers)
      ensures old(node).None? ==> issued.None?
      ensures old(node).Some? ==> issued == Some(SpinCall(period))
      ensures Step(Counts(), raised)
           == AfterSpin(old(Counts()), if old(node).Some? then reply else Raised(AttributeError))
    {
      if node.None? {
        return None, Some(AttributeError);
      }
      if period == -1.0 {
        issued := Some(SpinForever);
      } else {
        issued := Some(SpinFor(period));
      }
      raised := None;
      match reply {
        case Returned(_) =>
        case Raised(e) =>
          if e == TransferError {
            spinTransferErrorCounter := spinTransferErrorCounter + 1;
          } else if e == CanError {
            spinCanErrorCounter := spinCanErrorCounter + 1;
          } else if e == QueueFull {
          } else if e == TxQueueFullError {
          } else {
            raised := Some(e);
          }
      }
    }
  }
}
