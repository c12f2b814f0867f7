/**
 * Client scenarios: what callers of the machine can conclude from the method
 * contracts alone, for the situations the repository's unit tests and its
 * design set up (machine 0 with machine 1 as its only peer; two machines
 * exchanging one message).
 */
module Scenarios {
  import opened Lamport
  import opened Machine

  /** The address table {0, 1}, seen from machine 0, gives the peer table [1]. */
  lemma PeerTableOfMachineZero()
    ensures Connected([], [0, 1], 0) == [1]
  {
    assert [0, 1][..1] == [0];
    assert [0][..0] == [];
  }

  /** The address table {0, 1}, seen from machine 1, gives the peer table [0]. */
  lemma PeerTableOfMachineOne()
    ensures Connected([], [0, 1], 1) == [0]
  {
    assert [0, 1][..1] == [0];
    assert [0][..0] == [];
  }

  /** Machine 0 connected to the address table {0, 1}. */
  method NewMachineZero(rate: int) returns (vm: VirtualMachine)
    requires 1 <= rate <= 6
    ensures fresh(vm) && vm.Valid() && !vm.stopped
    ensures vm.machineId == 0 && vm.peers == [1] && vm.logicalClock == 0
    ensures vm.inbox == [] && vm.log == [] && vm.outbox == []
  {
    vm := new VirtualMachine(0, rate);
    vm.ConnectToOthers([0, 1]);
    PeerTableOfMachineZero();
  }

  /** A delivered message is queued. */
  method HandleIncomingScenario(rate: int) returns (queued: bool)
    requires 1 <= rate <= 6
    ensures queued
  {
    var vm := NewMachineZero(rate);
    vm.HandleIncomingMessage(ClockMessage(1, 10, 0, Send));
    queued := vm.inbox != [];
  }

  /** Processing a message with clock 10 at clock 0 gives max(0, 10) + 1 = 11. */
  method ProcessIncomingScenario(rate: int) returns (clock: nat)
    requires 1 <= rate <= 6
    ensures clock == 11
  {
    var vm := NewMachineZero(rate);
    vm.ProcessIncomingMessage(ClockMessage(1, 10, 0, Send));
    clock := vm.logicalClock;
  }

  /** One send raises the clock by one and hands exactly one message, to peer 1. */
  method SendScenario(rate: int) returns (clock: nat, sentCount: nat, sentTo: int)
    requires 1 <= rate <= 6
    ensures clock == 1 && sentCount == 1 && sentTo == 1
  {
    var vm := NewMachineZero(rate);
    var delivered := vm.SendMessage(1, Send);
    clock, sentCount, sentTo := vm.logicalClock, |vm.outbox|, vm.outbox[0].target;
  }

  /** One loop iteration over a queued message with clock 5 gives max(0, 5) + 1 = 6, whatever the draw. */
  method EventLoopScenario(rate: int, draw: int, choice: nat) returns (clock: nat, stopped: bool)
    requires 1 <= rate <= 6 && ValidDraw(draw) && ValidChoice(choice, 1)
    ensures clock == 6 && stopped
  {
    var vm := NewMachineZero(rate);
    vm.HandleIncomingMessage(ClockMessage(1, 5, 0, Send));
    ghost var s0 := vm.State();
    var schedule := [Iteration([], draw, choice)];
    assert schedule[..0] == [];
    vm.EventLoop(schedule);
    assert vm.State() == Step(s0, draw, choice);
    clock, stopped := vm.logicalClock, vm.stopped;
  }

  /** Machine 1 connected to the address table {0, 1}. */
  method NewMachineOne(rate: int) returns (vm: VirtualMachine)
    requires 1 <= rate <= 6
    ensures fresh(vm) && vm.Valid() && !vm.stopped
    ensures vm.machineId == 1 && vm.peers == [0] && vm.logicalClock == 0
    ensures vm.inbox == [] && vm.log == [] && vm.outbox == []
  {
    vm := new VirtualMachine(1, rate);
    vm.ConnectToOthers([0, 1]);
    PeerTableOfMachineOne();
  }

  /** Machine 0, at clock 0, sends once to machine 1: its clock and the message's become 1. */
  method FirstSendOfMachineZero(rate: int) returns (clock: nat, msg: ClockMessage)
    requires 1 <= rate <= 6
    ensures clock == 1 && msg == ClockMessage(0, 1, 0, Send)
  {
    var a := NewMachineZero(rate);
    var delivered := a.SendMessage(1, Send);
    assert a.outbox == [Outbound(1, ClockMessage(0, 1, 0, Send))];
    clock, msg := a.logicalClock, a.outbox[0].msg;
  }

  /**
   * Machine 1, at clock 0, is served `msg` and runs one iteration: the service
   * answers OK and the receive rule gives max(0, msg.clock) + 1.
   */
  method ServeAndReceive(rate: int, msg: ClockMessage, draw: int) returns (clock: nat, ack: Ack)
    requires 1 <= rate <= 6 && ValidDraw(draw)
    ensures ack == Ack("OK") && clock == ReceiveRule(0, msg.clock)
  {
    var b := NewMachineOne(rate);
    var service := new Servicer(b);
    ack := service.SendMessage(msg);
    assert b.inbox == [msg];
    b.EventLoopIteration(draw, 0);
    clock := b.logicalClock;
  }

  /**
   * Two machines, both at clock 0: A sends once to B (A's clock becomes 1 and so
   * does the message's), B's service queues it, and B's next iteration receives
   * it, giving max(0, 1) + 1 = 2.
   */
  method TwoMachineScenario(rateA: int, rateB: int, draw: int) returns (clockA: nat, messageClock: int, clockB: nat, ack: Ack)
    requires 1 <= rateA <= 6 && 1 <= rateB <= 6 && ValidDraw(draw)
    ensures clockA == 1 && messageClock == 1 && clockB == 2 && ack == Ack("OK")
  {
    var msg;
    clockA, msg := FirstSendOfMachineZero(rateA);
    clockB, ack := ServeAndReceive(rateB, msg, draw);
    messageClock := msg.clock;
  }
}
