# Fake GPS publisher: the UAVCAN v0 communicator

A Dafny model of `UavcanCommunicatorV0`, the wrapper around one pyuavcan v0
node in `fake_gps.py`, and of the script that drives it. The wrapper picks a
transport from a device-type string, creates the node, keeps an ordered list
of subscription handles, and sorts the exceptions raised by `broadcast` and
`spin` into four error counters, a log line, or propagation. The script
retries construction while it raises `OSError`, subscribes to node-status
messages and then spins and publishes in a loop.

pyuavcan itself is not visible. Each call into it is modelled by the `Call`
the wrapper issued, returned by the wrapper method. For `make_node`,
`add_handler`, `broadcast` and `spin` the method also takes the `Reply` the
call gave (returned a value, or raised one of the exception classes) as a
parameter; `close` is modelled by the issued call alone. This is how the model states, for example,
that `make_node` is never reached for an unknown device type.

Files:
- `wrappers.dfy` (`Wrappers`): the `Option` type.
- `transport.dfy` (`Transport`): the device-type selection and the keyword arguments of `make_node`.
- `errors.dfy` (`ErrorHandling`): the exception classes, the four counters, the `except` clauses of `publish` and `spin` as functions, and runs of calls.
- `communicator.dfy` (`FakeGps`): the `Communicator` class with the wrapper's fields and methods.
- `driver.dfy` (`Driver`): the startup retry loop, the publisher loop and the script as a whole.

Two points about the code's behaviour that a reader might expect otherwise:
- `__del__` does not reset `self.node`, so a second call closes the node again. `Communicator.Destroy` is modelled as written: it closes whenever a node is held.
- The wrapper has no closed state: after `__del__` its other methods would still call into the node. The model has no closed state either.

## Model

| member | source | states |
|---|---|---|
| `Transport.SelectTransport` | fake_gps.py:36-45 | a configuration is selected exactly for "serial" and "can-slcan", and it is the one whose device-type name is the input |
| `Transport.SelectTransportInverse` | fake_gps.py:36-45 | selection and `DeviceType` are inverse on the two known configurations, both directions |
| `Transport.Kwargs` | fake_gps.py:37-42 | the keyword arguments hold exactly the keys of the source's dictionaries, with the device name under `can_device_name` |
| `Transport.SelectedKwargs` | fake_gps.py:36-45 | "serial" yields `/dev/ttyACM0` at baud rate 1000000; "can-slcan" yields `slcan0`, bus type `socketcan`, bit rate 1000000; any other string selects nothing |
| `ErrorHandling.ErrorCounts.Bump` | fake_gps.py:83 | `+= 1` raises the chosen counter by exactly one and leaves the other three unchanged |
| `ErrorHandling.AfterPublish` | fake_gps.py:80-91 | success and `queue.Full` change no counter; `CanError` adds one to the send-error counter; `TxQueueFullError` adds one to the full-buffer counter; every other exception propagates with counters unchanged |
| `ErrorHandling.AfterSpin` | fake_gps.py:97-113 | `TransferError` and `CanError` each add one to their own receive-side counter; success, `queue.Full` and `TxQueueFullError` change nothing; every other exception propagates |
| `ErrorHandling.PublishStepShape` | fake_gps.py:80-91 | one publish changes at most one counter, by exactly one, never a receive-side counter, and none when an exception propagates |
| `ErrorHandling.SpinStepShape` | fake_gps.py:97-113 | one spin changes at most one counter, by exactly one, never a transmit-side counter, and none when an exception propagates |
| `ErrorHandling.PublishesShape` | fake_gps.py:80-91 | over any run of publishes the counters never decrease, grow by at most one per call, and the receive-side counters stay fixed |
| `ErrorHandling.SendErrorsCounted` | fake_gps.py:82-85 | `n` publishes failing with `CanError` raise the send-error counter by exactly `n` and change nothing else |
| `ErrorHandling.SendErrorsThenSuccess` | fake_gps.py:80-85 | `n` send errors followed by a successful publish leave the send-error counter exactly `n` higher, and no exception escapes |
| `ErrorHandling.QueueFullNotCarried` | fake_gps.py:86-89 | a full transmit queue is counted once and the next publish behaves as it would from the bumped counters |
| `ErrorHandling.Cycle` | fake_gps.py:146-148 | a cycle changes at most one transmit-side and one receive-side counter, each by at most one, and decreases none; when the spin propagates an exception, the transmit-side counters are untouched and the cycle propagates |
| `ErrorHandling.CyclesMonotone` | fake_gps.py:146-148 | over any run of the publisher loop no counter decreases and the total grows by at most two per cycle |
| `ErrorHandling.CyclesStopAtUncaught` | fake_gps.py:146-148 | once an exception escapes a cycle, no later cycle runs |
| `ErrorHandling.LoopCallCountStops` | fake_gps.py:146-148 | once an exception escapes a cycle, later cycles add no library calls |
| `ErrorHandling.LoopCallCountFull` | fake_gps.py:146-148 | a run of cycles that raises nothing makes exactly two library calls per cycle |
| `FakeGps.SpinCall` | fake_gps.py:98-101 | a period of -1 calls the library spin with no argument; any other period is passed on unchanged |
| `FakeGps.Communicator.constructor` | fake_gps.py:28-34 | a new wrapper has no node, an empty handler list and all four counters at zero |
| `FakeGps.Communicator.Create` | fake_gps.py:23-53 | an unknown device type raises SystemExit with no `make_node` call and no node; otherwise `make_node` is called with the id, the node info (the given name, software version 0.2 and hardware id `b'12345'`) and the selected keyword arguments, and the node is held exactly when it returned; counters are zero and the handler list empty either way |
| `FakeGps.Communicator.Destroy` | fake_gps.py:55-57 | `close` is called exactly when the wrapper holds a node; a wrapper whose node was never created closes nothing |
| `FakeGps.Communicator.Subscribe` | fake_gps.py:60-70 | the new handler list is the old one with the returned handle appended at the end; a raising `add_handler`, or no node, leaves it unchanged and propagates; node and counters are untouched |
| `FakeGps.Communicator.Publish` | fake_gps.py:72-91 | issues `broadcast` with the message and priority, then changes the counters as `AfterPublish` says; node and handlers are untouched |
| `FakeGps.Communicator.Spin` | fake_gps.py:93-113 | issues the library spin as `SpinCall` says, then changes the counters as `AfterSpin` says; node and handlers are untouched |
| `Driver.StartupUp` | fake_gps.py:118-125 | the loop ends holding a communicator after `k` retries exactly when the device type is known, the first `k` attempts raised `OSError` and attempt `k` returned that node |
| `Driver.StartupExited` | fake_gps.py:118-125 | the loop stops with an exception only when it is not `OSError`: SystemExit on the first attempt for an unknown device type (before any `make_node` reply is needed), otherwise what `make_node` raised after `k` `OSError` retries |
| `Driver.PersistentOSError` | fake_gps.py:119-124 | a transport that always raises `OSError` is retried on every attempt and the loop never raises |
| `Driver.StartUp` | fake_gps.py:118-125 | the outcome is `StartupSpec`; every attempt calls `make_node` with node id 42, the default name and the selected keyword arguments, one call per attempt that reached it and none for an unknown device type; a communicator is returned exactly when a construction succeeded, fresh, holding its node, with no handlers and zero counters |
| `Driver.PublisherLoop` | fake_gps.py:146-149 | the issued calls alternate `spin(0.2)` and `broadcast(msg)` at the lowest priority, spin first; with no exception all cycles run, two calls each; otherwise the loop stops in the first cycle that raised, after its spin when the spin raised and after its publish otherwise, and no later call is made; the number of calls is `LoopCallCount`; the counters are as `Cycles` says, and node and handlers are unchanged |
| `Driver.RunScript` | fake_gps.py:115-149 | every library call in order: the `make_node` attempts of startup with the serial device type, then `add_handler` for node-status messages, then the publisher loop's calls, exactly as many as `LoopCallCount` gives; the script ends with the exception of the startup loop, of `subscribe`, or of the publisher loop, in that order |

## Left out

- pyuavcan itself (`make_node`, `add_handler`, `broadcast`, `spin`, `close`), the CAN and serial transports, and message encoding: their behaviour is supplied as a `Reply` parameter.
- Subscriber callbacks run inside the library's `spin`; an exception from a callback reaches the wrapper as a raised `Reply` of the library spin and propagates like any unclassified exception.
- The exception classes are modelled as disjoint. If one were a subclass of another, the first matching `except` clause would win; the model does not capture a class hierarchy.
- Logging, `coloredlogs`, the `print` in the callback and `time.sleep(2)`: output and delay with no state.
- The message fields of the GPS fix: the script computes them with floating-point arithmetic truncated by `int(...)` (`int(55.7544426 * 100000000)` and the others) and builds the library's `Fix` message from them; the message is an opaque value here.
- The default `period=0.00001` of `spin`: no caller relies on it (the script always passes 0.2), so the model has no default and every caller gives the period.
- Driver.StartUp: the source's retry loop is unbounded; the model runs at most one attempt per given `make_node` reply and reports `StillRetrying` when they run out (an unknown device type exits on the first attempt even when no reply is given).
- Driver.PublisherLoop: the source's `while True` loop never ends; the model runs the first `|cycles|` iterations.
- Python ignores an exception raised by `close` inside `__del__` (it only prints "Exception ignored"); `Communicator.Destroy` takes no reply from `close` and does not model that case.
- The process exit of `sys.exit()`: modelled as the `SystemExit` exception, which the startup loop does not catch.
- Garbage collection: when `__init__` raises, Python later runs `__del__` on the partly built object. `Create` returns that object with no node, and `Destroy` on it closes nothing; when the runtime calls it is not modelled.
- `TRANSFER_PRIORITY_LOWEST` is a pyuavcan constant; the model uses 31, the lowest of UAVCAN v0's five-bit priorities.
