/**
 * The Lamport-clock rules of one simulated machine, as pure state transitions.
 *
 * A machine's observable state is its logical clock, its FIFO inbox of
 * incoming clock messages, the ids of its peers (in the order the peer table
 * iterates them), its event log, and the messages it has handed to the
 * transport (the outbox). Every transition here is mirrored by a method of
 * `Machine.VirtualMachine`, whose contract equates the object's new state with
 * the function below applied to its old state.
 */
module Lamport {

  datatype Option<T> = None | Some(value: T)

  /** The event kinds that appear in log records and in outbound messages. */
  datatype EventType = Send | Receive | Internal

  /** The message exchanged between machines (its wall-clock timestamp is not modelled). */
  datatype ClockMessage = ClockMessage(senderId: int, clock: int, queueLength: nat, eventType: EventType)

  /** The reply of the message service. */
  datatype Ack = Ack(status: string)

  /** One line of a machine's log: what happened, the inbox length, the clock after the event. */
  datatype LogRecord = LogRecord(kind: EventType, queueLength: nat, clock: nat)

  /** A message handed to the transport, addressed to a peer. */
  datatype Outbound = Outbound(target: int, msg: ClockMessage)

  datatype MachineState = MachineState(
    id: int,
    clock: nat,
    inbox: seq<ClockMessage>,
    peers: seq<int>,
    log: seq<LogRecord>,
    outbox: seq<Outbound>)

  /** The inputs of one loop iteration: messages delivered during its sleep, the draw and the peer choice. */
  datatype Iteration = Iteration(arrivals: seq<ClockMessage>, draw: int, choice: nat)

  predicate Distinct(xs: seq<int>) {
    forall i, j :: 0 <= i < j < |xs| ==> xs[i] != xs[j]
  }

  /** A draw of the loop's uniform choice among 1..10. */
  predicate ValidDraw(draw: int) {
    1 <= draw <= 10
  }

  /** An index a uniform choice among `peerCount` peers can return (any index when there are none). */
  predicate ValidChoice(choice: nat, peerCount: nat) {
    peerCount == 0 || choice < peerCount
  }

  predicate ValidSchedule(its: seq<Iteration>, peerCount: nat) {
    forall k :: 0 <= k < |its| ==> ValidDraw(its[k].draw) && ValidChoice(its[k].choice, peerCount)
  }

  /**
   * The invariant every reachable machine state keeps: peer ids are distinct and
   * exclude the machine itself; every event advanced the clock, so there are no
   * more log records than the clock's value; log clocks strictly increase, never
   * exceed the clock, and the last one is the current clock; every outbound
   * message carries this machine's id, goes to a peer and carries a clock no
   * later than the current one, and outbound clocks strictly increase.
   */
  predicate Valid(s: MachineState) {
    && Distinct(s.peers)
    && s.id !in s.peers
    && |s.log| <= s.clock
    && (forall i, j :: 0 <= i < j < |s.log| ==> s.log[i].clock < s.log[j].clock)
    && (forall i :: 0 <= i < |s.log| ==> s.log[i].clock <= s.clock)
    && (s.log != [] ==> s.log[|s.log| - 1].clock == s.clock)
    && (forall k :: 0 <= k < |s.outbox| ==>
          s.outbox[k].msg.senderId == s.id && s.outbox[k].target in s.peers && s.outbox[k].msg.clock <= s.clock)
    && (forall k, l :: 0 <= k < l < |s.outbox| ==> s.outbox[k].msg.clock < s.outbox[l].msg.clock)
  }

  /** A freshly constructed machine: clock 0, empty inbox, no peers yet, nothing logged or sent. */
  function Initial(id: int): (s: MachineState)
    ensures Valid(s) && s.clock == 0 && s.inbox == [] && s.log == [] && s.outbox == []
  {
    MachineState(id, 0, [], [], [], [])
  }

  /** The Lamport receive rule: the least value strictly above both the local and the incoming clock. */
  function ReceiveRule(local: nat, incoming: int): (r: nat)
    ensures r > local && r > incoming
    ensures r == local + 1 || r == incoming + 1
  {
    if local >= incoming then local + 1 else incoming + 1
  }

  /** The transport delivers messages: they join the tail of the inbox. */
  function Delivered(s: MachineState, msgs: seq<ClockMessage>): MachineState {
    s.(inbox := s.inbox + msgs)
  }

  /** Processing a message: receive rule on the clock, then one RECEIVE record. */
  function Received(s: MachineState, m: ClockMessage): MachineState {
    var c := ReceiveRule(s.clock, m.clock);
    s.(clock := c, log := s.log + [LogRecord(Receive, |s.inbox|, c)])
  }

  /**
   * Sending: the clock advances by one and is logged before the message is built;
   * the message reaches the transport only when `target` is a peer (otherwise the
   * peer-table lookup fails after the clock and the log have already changed).
   */
  function Sent(s: MachineState, target: int, kind: EventType): MachineState {
    var c := s.clock + 1;
    var out := if target in s.peers
               then s.outbox + [Outbound(target, ClockMessage(s.id, c, |s.inbox|, kind))]
               else s.outbox;
    s.(clock := c, log := s.log + [LogRecord(kind, |s.inbox|, c)], outbox := out)
  }

  /** An internal step: the clock advances by one and one INTERNAL record is logged. */
  function InternalEvent(s: MachineState): MachineState {
    s.(clock := s.clock + 1, log := s.log + [LogRecord(Internal, |s.inbox|, s.clock + 1)])
  }

  /** One SEND transition per target, in order. */
  function SentToAll(s: MachineState, targets: seq<int>): (r: MachineState)
    ensures r.id == s.id && r.peers == s.peers && r.inbox == s.inbox
    decreases |targets|
  {
    if targets == [] then s
    else Sent(SentToAll(s, targets[..|targets| - 1]), targets[|targets| - 1], Send)
  }

  /** The SEND records of `n` consecutive sends after clock `clock`, all logged with inbox length `queueLength`. */
  function SendRecords(queueLength: nat, clock: nat, n: nat): seq<LogRecord> {
    if n == 0 then [] else SendRecords(queueLength, clock, n - 1) + [LogRecord(Send, queueLength, clock + n)]
  }

  /** The messages of consecutive sends to `targets` after clock `clock`: one per target, in order. */
  function Broadcast(id: int, clock: nat, queueLength: nat, targets: seq<int>): seq<Outbound>
    decreases |targets|
  {
    if targets == [] then []
    else
      var n := |targets| - 1;
      Broadcast(id, clock, queueLength, targets[..n]) + [Outbound(targets[n], ClockMessage(id, clock + n + 1, queueLength, Send))]
  }

  /** The uniform choice of one peer: `None` when there are none, otherwise the peer at `choice`. */
  function PickOther(peers: seq<int>, choice: nat): (r: Option<int>)
    requires ValidChoice(choice, |peers|)
    ensures r.None? <==> peers == []
    ensures r.Some? ==> r.value in peers
  {
    if peers == [] then None else Some(peers[choice])
  }

  /**
   * One iteration of the event loop after its sleep: a queued message has
   * priority and is the only thing processed; otherwise the draw decides
   * between a send to one peer (1 or 2), a send to every peer (3) and an
   * internal step (anything else).
   */
  function Step(s: MachineState, draw: int, choice: nat): (r: MachineState)
    requires ValidChoice(choice, |s.peers|)
    ensures r.id == s.id && r.peers == s.peers
  {
    if s.inbox != [] then
      Received(s.(inbox := s.inbox[1..]), s.inbox[0])
    else if draw == 1 || draw == 2 then
      match PickOther(s.peers, choice)
      case None => s
      case Some(target) => Sent(s, target, Send)
    else if draw == 3 then
      SentToAll(s, s.peers)
    else
      InternalEvent(s)
  }

  /** All messages delivered during a schedule, in delivery order. */
  function Arrivals(its: seq<Iteration>): seq<ClockMessage>
    decreases |its|
  {
    if its == [] then [] else Arrivals(its[..|its| - 1]) + its[|its| - 1].arrivals
  }

  /** The loop run over a schedule of iterations, the last iteration last. */
  function Run(s: MachineState, its: seq<Iteration>): (r: MachineState)
    requires ValidSchedule(its, |s.peers|)
    ensures r.id == s.id && r.peers == s.peers
    decreases |its|
  {
    if its == [] then s
    else
      var t := Run(s, its[..|its| - 1]);
      var it := its[|its| - 1];
      Step(Delivered(t, it.arrivals), it.draw, it.choice)
  }

  /** The number of log records of one kind. */
  function CountKind(log: seq<LogRecord>, kind: EventType): nat
    decreases |log|
  {
    if log == [] then 0
    else CountKind(log[..|log| - 1], kind) + (if log[|log| - 1].kind == kind then 1 else 0)
  }

  /**
   * Wiring the peer table from the address table: every id other than the
   * machine's own becomes a peer; an id already present keeps its position.
   */
  function Connected(peers: seq<int>, ids: seq<int>, self: int): (r: seq<int>)
    ensures peers <= r
    ensures forall x :: x in r <==> x in peers || (x in ids && x != self)
    ensures Distinct(peers) ==> Distinct(r)
    decreases |ids|
  {
    if ids == [] then peers
    else
      var p := Connected(peers, ids[..|ids| - 1], self);
      var id := ids[|ids| - 1];
      if id != self && id !in p then p + [id] else p
  }
}
