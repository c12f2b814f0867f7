# Lamport-clock virtual machine, modelled in Dafny

This project models the per-machine actor of a small distributed-system simulation.
Each simulated machine keeps a Lamport logical clock, a FIFO inbox of incoming
`ClockMessage`s, a peer table and an append-only event log. It runs an event loop:
each iteration either processes one queued message or, given a random draw in
1..10, sends to one peer, sends to every peer, or takes an internal step.

The project has four files:

- `lamport.dfy`, module `Lamport`: the data model (`ClockMessage`, `Ack`,
  `LogRecord`, `Outbound`, `MachineState`) and the clock rules as pure
  transitions. `ReceiveRule` is the receive rule. `Received`, `Sent` and
  `InternalEvent` are the three events. `SentToAll` is the broadcast, and
  `SendRecords` and `Broadcast` are the records and messages it adds. `Step` is
  one loop iteration and `Run` is a whole loop. `PickOther` is the peer choice
  and `Connected` is the peer-table wiring. `Valid` is the machine invariant.
- `lamport_properties.dfy`, module `LamportProperties`: lemmas about those
  transitions. They cover the effect of each draw and queue priority. They show
  that `Valid` is preserved, that the clock is monotone, that the inbox drains in
  FIFO order and that each event writes exactly one log record.
- `virtual_machine.dfy`, module `Machine`: class `VirtualMachine`, whose fields
  the methods update in place (`logicalClock`, `inbox`, `peers`, `log`,
  `outbox`, `stopped`), and class `Servicer`, the message service that queues a
  request and answers `Ack("OK")`. Each method's contract ties the object's new
  `State()` to the matching pure transition of its old state, and also states
  the main facts directly.
- `scenarios.dfy`, module `Scenarios`: client methods. They derive the unit
  tests' expected values from the method contracts alone: 11 after receiving
  clock 10, +1 after a send, 6 after the loop drains a message with clock 5.
  A two-machine exchange ends with clocks 1 and 2.

Three substitutions make the actor sequential and deterministic:

- Randomness is injected. The clock rate is a constructor argument in 1..6.
  Each iteration gets its draw in 1..10 and a peer-choice index below the number
  of peers.
- A remote `SendMessage` call becomes an append of `(target, message)` to `outbox`.
- Writing a log line becomes an append of `LogRecord(kind, queueLength, clock)` to `log`.

The loop takes a schedule of `Iteration(arrivals, draw, choice)`. Here
`arrivals` are the messages the transport delivers while that iteration sleeps.
The stop signal arrives once the schedule is used up. A machine that is already
stopped runs no iteration.

The code has two identical branches for draws 1 and 2.
`VirtualMachine.EventLoopIteration` keeps both. The specification function
`Step` merges them and gets the same result.

## Model

| member | source | states |
|---|---|---|
| `Lamport.Initial` | virtual_machine.py:53-63 | a new machine has clock 0, an empty inbox, no log and no sent messages, and satisfies the invariant |
| `Lamport.ReceiveRule` | virtual_machine.py:124-126 | the new clock is strictly above both the local and the incoming clock, and is one more than one of them (that is, max + 1) |
| `Lamport.SentToAll` | virtual_machine.py:202-205 | sending to a list of targets keeps the machine id, the peer table and the inbox |
| `Lamport.PickOther` | virtual_machine.py:216-221 | gives no target exactly when there are no peers; otherwise the target is a peer |
| `Lamport.Step` | virtual_machine.py:185-214 | one iteration keeps the machine id and the peer table |
| `Lamport.Run` | virtual_machine.py:182-214 | a run of iterations keeps the machine id and the peer table |
| `Lamport.Connected` | virtual_machine.py:97-101 | the peer table afterwards extends the old one (existing peers keep their position); it holds exactly the old peers plus every address-table id other than the machine's own; distinct ids stay distinct |
| `LamportProperties.DeliveredPreservesValid` | virtual_machine.py:113-118 | queueing messages keeps the invariant, which does not constrain the inbox |
| `LamportProperties.ReceivedPreservesValid` | virtual_machine.py:124-134 | a receive keeps the invariant: log clocks increase strictly, the last record carries the current clock, outbound clocks increase strictly |
| `LamportProperties.SentPreservesValid` | virtual_machine.py:141-162 | a send keeps the invariant |
| `LamportProperties.InternalPreservesValid` | virtual_machine.py:207-214 | an internal step keeps the invariant |
| `LamportProperties.SendRecordsAt` | virtual_machine.py:141-150 | the records of n consecutive sends are n SEND records whose clocks are old+1..old+n |
| `LamportProperties.BroadcastAt` | virtual_machine.py:152-162 | the messages of consecutive sends go one to each target, in target order, and the k-th carries clock old+k+1 |
| `LamportProperties.SentToAllSnoc` | virtual_machine.py:204-205 | the last send of a sequence of sends advances the clock by one, logs one SEND record and sends to its target when that target is a peer |
| `LamportProperties.SentToAllLog` | virtual_machine.py:204-205 | k sends raise the clock by k and append exactly the k SEND records with clocks old+1..old+k |
| `LamportProperties.SentToAllCounts` | virtual_machine.py:204-205 | k sends add k SEND records and no RECEIVE record |
| `LamportProperties.SentToAllOutbox` | virtual_machine.py:204-205 | sends to k peers append exactly k messages, one per target in order, each carrying the clock of its own send |
| `LamportProperties.SentToAllEffect` | virtual_machine.py:204-205 | the combination: clock +k, the k SEND records, the k messages, and the record counts |
| `LamportProperties.SentToAllPreservesValid` | virtual_machine.py:202-205 | sending to all peers keeps the invariant |
| `LamportProperties.StepDrainsHead` | virtual_machine.py:186-188 | with a non-empty inbox, an iteration removes exactly the head and applies only the receive rule; it appends one RECEIVE record with the post-dequeue inbox length and sends nothing |
| `LamportProperties.StepSendsToOnePeer` | virtual_machine.py:192-201 | draw 1 or 2 with peers and an empty inbox: clock +1, one SEND record, exactly one message to the chosen peer, carrying the new clock and the inbox length |
| `LamportProperties.StepWithoutPeersIsIdle` | virtual_machine.py:192-201 | draw 1 or 2 with no peers changes nothing |
| `LamportProperties.StepBroadcasts` | virtual_machine.py:202-205 | draw 3 with an empty inbox: the clock rises by the number of peers; there is one SEND record per peer; the k-th new message goes to the k-th peer in peer-table order and carries clock old+k+1 |
| `LamportProperties.StepInternal` | virtual_machine.py:206-214 | draws 4..10: clock +1, one INTERNAL record, nothing sent |
| `LamportProperties.StepPreservesValid` | virtual_machine.py:185-214 | every iteration keeps the invariant |
| `LamportProperties.StepMonotone` | virtual_machine.py:185-214 | an iteration never lowers the clock and only appends to log and outbox; it either raises the clock or changes nothing |
| `LamportProperties.StepCounts` | virtual_machine.py:185-214 | an iteration takes at most the inbox head, with one RECEIVE record exactly when it does; it writes one SEND record per outbound message |
| `LamportProperties.RunExtended` | virtual_machine.py:182-188 | one more loop iteration is one more step, taken after the deliveries of its sleep |
| `LamportProperties.DeliveredStepIsFifo` | virtual_machine.py:113-118 | deliveries followed by one iteration keep the inbox a suffix of everything queued or delivered |
| `LamportProperties.RunPreservesValid` | virtual_machine.py:182-214 | every run of the loop keeps the invariant |
| `LamportProperties.RunMonotone` | virtual_machine.py:182-214 | across a run the clock never decreases, and log and outbox are append-only |
| `LamportProperties.ArrivalsSnoc` | virtual_machine.py:113-118 | the queued messages plus a schedule's deliveries are those of all but the last iteration followed by the last iteration's |
| `LamportProperties.RunInboxIsFifo` | virtual_machine.py:182-188 | after a run, the inbox is a suffix of the initial inbox plus all deliveries (FIFO, nothing lost or duplicated) |
| `LamportProperties.RunReceivesAreLogged` | virtual_machine.py:182-188 | across a run, the RECEIVE records added plus the messages still queued equal the messages queued at the start plus those delivered |
| `LamportProperties.RunSendsAreLogged` | virtual_machine.py:182-205 | across a run the outbox is only appended to, and the SEND records added equal the messages sent |
| `LamportProperties.RunIsFifo` | virtual_machine.py:182-205 | the three facts about a run together: the FIFO inbox, one RECEIVE record per message taken, and one SEND record per message sent |
| `LamportProperties.ConnectedPreservesValid` | virtual_machine.py:93-101 | wiring the peer table keeps the invariant: peers distinct, the machine itself excluded, earlier targets still peers |
| `Machine.VirtualMachine.constructor` | virtual_machine.py:53-63 | clock 0, empty inbox, empty peer table (`stubs = {}`), clock rate the given value in [1,6], running |
| `Machine.VirtualMachine.ConnectToOthers` | virtual_machine.py:97-101 | the peer table becomes `Connected` of the old one; membership is exactly old peers plus other ids; nothing else changes |
| `Machine.VirtualMachine.Stop` | virtual_machine.py:104-111 | sets the stop flag and changes no other state |
| `Machine.VirtualMachine.HandleIncomingMessage` | virtual_machine.py:113-118 | the message joins the inbox tail; clock, log, outbox and peers are untouched |
| `Machine.VirtualMachine.ProcessIncomingMessage` | virtual_machine.py:120-134 | the clock becomes max(old, incoming) + 1, above both, and one RECEIVE record with that clock and the inbox length is appended |
| `Machine.VirtualMachine.SendMessage` | virtual_machine.py:136-162 | clock +1, then a record is logged, then one message to `target` carries this machine's id, the new clock and the inbox length; for a target outside the peer table, clock and log still change and no message leaves |
| `Machine.VirtualMachine.EventLoopIteration` | virtual_machine.py:185-214 | the new state is `Step` of the old; the clock does not decrease; a queued head is removed and received with no send |
| `Machine.VirtualMachine.SendToAllPeers` | virtual_machine.py:202-205 | the new state is `SentToAll` over the peer table; the clock rises by the number of peers, with one outbound message each |
| `Machine.VirtualMachine.InternalStep` | virtual_machine.py:206-214 | clock +1 and one INTERNAL record with the new clock; nothing sent |
| `Machine.VirtualMachine.Tick` | virtual_machine.py:182-214 | the messages delivered during the sleep are queued, then one iteration runs: the new state is `Step` of the state with the deliveries |
| `Machine.VirtualMachine.EventLoop` | virtual_machine.py:174-214 | on a running machine the new state is `Run` of the schedule; on a stopped one nothing changes; the clock never decreases |
| `Machine.Servicer.constructor` | virtual_machine.py:20-22 | the service refers to its machine |
| `Machine.Servicer.SendMessage` | virtual_machine.py:24-34 | the request is queued on the machine and the answer is `Ack("OK")` |
| `Scenarios.PeerTableOfMachineZero` | virtual_machine.py:97-101 | address table {0, 1} seen from machine 0 gives peer table [1] |
| `Scenarios.PeerTableOfMachineOne` | virtual_machine.py:97-101 | address table {0, 1} seen from machine 1 gives peer table [0] |
| `Scenarios.NewMachineZero` | tests/test_virtual_machine.py:13-30 | machine 0 with peer 1 starts at clock 0 with nothing queued, logged or sent |
| `Scenarios.HandleIncomingScenario` | tests/test_virtual_machine.py:50-62 | after a delivery the inbox is not empty |
| `Scenarios.ProcessIncomingScenario` | tests/test_virtual_machine.py:64-77 | clock 0 receiving clock 10 gives 11 |
| `Scenarios.SendScenario` | tests/test_virtual_machine.py:79-88 | a send raises the clock by one and hands exactly one message to peer 1 |
| `Scenarios.EventLoopScenario` | tests/test_virtual_machine.py:99-125 | one iteration with a queued clock-5 message gives 6 whatever the draw, and the loop ends stopped |
| `Scenarios.NewMachineOne` | virtual_machine.py:53-63 | machine 1 with peer 0 starts at clock 0 with nothing queued, logged or sent |
| `Scenarios.FirstSendOfMachineZero` | virtual_machine.py:136-162 | machine 0's first send leaves its clock at 1 and carries sender 0, clock 1 and queue length 0 |
| `Scenarios.ServeAndReceive` | virtual_machine.py:24-34 | machine 1's service answers OK to a request, and its next iteration sets the clock to max(0, incoming) + 1 |
| `Scenarios.TwoMachineScenario` | virtual_machine.py:120-162 | A sends to B: A's clock and the message's are 1; B's service answers OK; B's next iteration makes its clock max(0, 1) + 1 = 2 |

## Left out

- The RPC server, channels and stubs (`start_server` and the channel creation in `connect_to_others`) are network I/O. A peer is just its id, and a send is an append to `outbox`; every call to a peer is taken to succeed.
- An RPC failure raised by the peer's stub is not modelled. In the source the clock and the log have already changed by then, which matches the model's state after `SendMessage`.
- `SendMessage`: for a target outside the peer table, the source raises a lookup error after it has changed the clock and the log. The model returns `delivered == false` in the same state instead of raising. The event loop only ever passes peers.
- `time.time`, `time.sleep` and `sender_system_time` use the wall clock and floats. Messages and log records carry no timestamp, and the tick period `1 / clock_rate` is not modelled.
- The text format of a log line (`:.6f` float formatting) and the log file's open, write, flush and close are not modelled; the log is a sequence of records.
- Thread-safe queueing and concurrent delivery: deliveries happen only between iterations, as an iteration's `arrivals`. In the source a delivery during an iteration can change the inbox length that the iteration logs.
- `threading.Event`: stopping is a boolean flag. The schedule's end is where the external stop arrives. `stop()`'s server shutdown and log-file close are not modelled.
- The `random` module: the clock rate, the draw and the peer choice are parameters; their uniform distribution is not modelled.
- Integer width: clocks and queue lengths are unbounded integers, as Python's are. The width of the message's integer fields comes from the protocol definition, which is not part of this model.
- `send_message`'s `event_type` is a free string in the source. The model lists the three kinds the code uses (`SEND`, `RECEIVE`, `INTERNAL`).
- Replacing an existing stub in `connect_to_others` keeps its key's position and is otherwise invisible, because stub values are not modelled.
- main.py is not part of this model: argument parsing, thread spawning, the `base_port + i` address table, and the sleep-then-stop orchestration.
