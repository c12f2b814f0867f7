/**
 * The per-machine actor: an object whose methods update its clock, inbox, peer
 * table, log and outbox in place, and the message service that feeds its inbox.
 *
 * Randomness is injected: the clock rate is a constructor argument, and each loop
 * iteration receives its draw (1..10) and its peer-choice index. Sending a message
 * appends it to `outbox` instead of calling the peer; logging appends a record to
 * `log` instead of writing a line to the machine's log file.
 */
module Machine {
  import opened Lamport
  import LamportProperties

  class VirtualMachine {
    const machineId: int
    /** Loop iterations per second, fixed for the machine's lifetime. */
    const clockRate: int
    var logicalClock: nat
    var inbox: seq<ClockMessage>
    /** The ids of the peer table, in its iteration order. */
    var peers: seq<int>
    var log: seq<LogRecord>
    var outbox: seq<Outbound>
    var stopped: bool

    ghost function State(): MachineState
      reads this
    {
      MachineState(machineId, logicalClock, inbox, peers, log, outbox)
    }

    ghost predicate Valid()
      reads this
    {
      1 <= clockRate <= 6 && Lamport.Valid(State())
    }

    /** A new machine: clock 0, empty inbox, no peers yet, nothing logged, running. */
    constructor (id: int, rate: int)
      requires 1 <= rate <= 6
      ensures Valid() && machineId == id && clockRate == rate && !stopped
      ensures logicalClock == 0 && inbox == [] && peers == [] && log == [] && outbox == []
      ensures State() == Initial(id)
    {
      machineId, clockRate := id, rate;
      logicalClock := 0;
      inbox, peers, log, outbox := [], [], [], [];
      stopped := false;
    }

    /** Fills the peer table with every id of the address table except this machine's own. */
    method ConnectToOthers(allIds: seq<int>)
      requires Valid()
      modifies this
      ensures Valid() && stopped == old(stopped)
      ensures State() == old(State()).(peers := Connected(old(peers), allIds, machineId))
      ensures forall x :: x in peers <==> x in old(peers) || (x in allIds && x != machineId)
    {
      ghost var s0 := State();
      for k := 0 to |allIds|
        invariant peers == Connected(s0.peers, allIds[..k], machineId)
        invariant State() == s0.(peers := peers) && stopped == old(stopped)
      {
        assert allIds[..k + 1][..k] == allIds[..k];
        var mid := allIds[k];
        if mid != machineId && mid !in peers {
          peers := peers + [mid];
        }
      }
      assert allIds[..|allIds|] == allIds;
      LamportProperties.ConnectedPreservesValid(s0, allIds);
    }

    /** Signals the loop to stop; stopping twice is harmless. */
    method Stop()
      modifies this
      ensures stopped && State() == old(State())
    {
      stopped := true;
    }

    /** The delivery callback: the message joins the tail of the inbox and nothing else changes. */
    method HandleIncomingMessage(m: ClockMessage)
      requires Valid()
      modifies this
      ensures Valid() && stopped == old(stopped)
      ensures inbox == old(inbox) + [m]
      ensures logicalClock == old(logicalClock) && log == old(log) && outbox == old(outbox) && peers == old(peers)
      ensures State() == Delivered(old(State()), [m])
    {
      inbox := inbox + [m];
    }

    /** Applies the receive rule to `m` and logs one RECEIVE record with the new clock. */
    method ProcessIncomingMessage(m: ClockMessage)
      requires Valid()
      modifies this
      ensures Valid() && stopped == old(stopped)
      ensures logicalClock == ReceiveRule(old(logicalClock), m.clock)
      ensures logicalClock > old(logicalClock) && logicalClock > m.clock
      ensures log == old(log) + [LogRecord(Receive, |inbox|, logicalClock)]
      ensures inbox == old(inbox) && outbox == old(outbox) && peers == old(peers)
      ensures State() == Received(old(State()), m)
    {
      ghost var s0 := State();
      logicalClock := ReceiveRule(logicalClock, m.clock);
      log := log + [LogRecord(Receive, |inbox|, logicalClock)];
      LamportProperties.ReceivedPreservesValid(s0, m);
    }

    /**
     * Advances the clock, logs the send, then hands a message carrying the new
     * clock and the inbox length to `target`. `delivered` is false when `target`
     * is not in the peer table: the lookup fails after the clock and the log
     * have already changed, and no message leaves.
     */
    method SendMessage(target: int, kind: EventType) returns (delivered: bool)
      requires Valid()
      modifies this
      ensures Valid() && stopped == old(stopped)
      ensures delivered <==> target in peers
      ensures logicalClock == old(logicalClock) + 1
      ensures log == old(log) + [LogRecord(kind, |inbox|, logicalClock)]
      ensures outbox == if delivered
                        then old(outbox) + [Outbound(target, ClockMessage(machineId, logicalClock, |inbox|, kind))]
                        else old(outbox)
      ensures inbox == old(inbox) && peers == old(peers)
      ensures State() == Sent(old(State()), target, kind)
    {
      ghost var s0 := State();
      LamportProperties.SentPreservesValid(s0, target, kind);
      logicalClock := logicalClock + 1;
      log := log + [LogRecord(kind, |inbox|, logicalClock)];
      var msg := ClockMessage(machineId, logicalClock, |inbox|, kind);
      delivered := target in peers;
      if delivered {
        outbox := outbox + [Outbound(target, msg)];
        assert State() == Sent(s0, target, kind);
      } else {
        assert State() == Sent(s0, target, kind);
      }
    }

    /**
     * One iteration of the event loop after its sleep. A queued message is taken
     * from the head of the inbox and received, and nothing else happens; with an
     * empty inbox, draw 1 or 2 sends to the chosen peer (if there is one), draw 3
     * sends to every peer in peer-table order, and any other draw is an internal step.
     */
    method EventLoopIteration(draw: int, choice: nat)
      requires Valid() && ValidDraw(draw) && ValidChoice(choice, |peers|)
      modifies this
      ensures Valid() && stopped == old(stopped)
      ensures State() == Step(old(State()), draw, choice)
      ensures logicalClock >= old(logicalClock) && old(log) <= log && old(outbox) <= outbox
      ensures old(inbox) != [] ==> inbox == old(inbox)[1..] && outbox == old(outbox)
      ensures old(inbox) != [] ==> logicalClock == ReceiveRule(old(logicalClock), old(inbox)[0].clock)
    {
      ghost var s0 := State();
      LamportProperties.StepMonotone(s0, draw, choice);
      if inbox != [] {
        var msg := inbox[0];
        inbox := inbox[1..];
        ProcessIncomingMessage(msg);
        assert State() == Step(s0, draw, choice);
      } else if draw == 1 {
        var target := PickOther(peers, choice);
        if target.Some? {
          var delivered := SendMessage(target.value, Send);
        }
        assert State() == Step(s0, draw, choice);
      } else if draw == 2 {
        var target := PickOther(peers, choice);
        if target.Some? {
          var delivered := SendMessage(target.value, Send);
        }
        assert State() == Step(s0, draw, choice);
      } else if draw == 3 {
        SendToAllPeers();
      } else {
        InternalStep();
      }
    }

    /** Draw 3: one send transition per peer, in peer-table order. */
    method SendToAllPeers()
      requires Valid()
      modifies this
      ensures Valid() && stopped == old(stopped)
      ensures State() == SentToAll(old(State()), old(peers))
      ensures logicalClock == old(logicalClock) + |peers|
      ensures |outbox| == |old(outbox)| + |peers| && old(outbox) <= outbox
    {
      ghost var s0 := State();
      for k := 0 to |peers|
        invariant Valid() && peers == s0.peers && stopped == old(stopped)
        invariant State() == SentToAll(s0, peers[..k])
      {
        assert peers[..k + 1][..k] == peers[..k];
        var delivered := SendMessage(peers[k], Send);
      }
      assert peers[..|peers|] == peers;
      LamportProperties.SentToAllEffect(s0, peers);
      LamportProperties.BroadcastAt(machineId, s0.clock, |inbox|, peers);
    }

    /** Any other draw: the clock advances by one and one INTERNAL record is logged; nothing is sent. */
    method InternalStep()
      requires Valid()
      modifies this
      ensures Valid() && stopped == old(stopped)
      ensures State() == InternalEvent(old(State()))
      ensures logicalClock == old(logicalClock) + 1
      ensures log == old(log) + [LogRecord(Internal, |inbox|, logicalClock)]
      ensures inbox == old(inbox) && outbox == old(outbox) && peers == old(peers)
    {
      ghost var s0 := State();
      logicalClock := logicalClock + 1;
      log := log + [LogRecord(Internal, |inbox|, logicalClock)];
      assert State() == InternalEvent(s0);
      LamportProperties.InternalPreservesValid(s0);
    }

    /**
     * One pass of the loop body: the sleep, during which the transport may
     * deliver messages, then one iteration.
     */
    method Tick(it: Iteration)
      requires Valid() && ValidDraw(it.draw) && ValidChoice(it.choice, |peers|)
      modifies this
      ensures Valid() && stopped == old(stopped)
      ensures State() == Step(Delivered(old(State()), it.arrivals), it.draw, it.choice)
    {
      ghost var s0 := State();
      // the messages the transport delivered while the loop slept
      inbox := inbox + it.arrivals;
      assert State() == Delivered(s0, it.arrivals);
      LamportProperties.DeliveredPreservesValid(s0, it.arrivals);
      EventLoopIteration(it.draw, it.choice);
    }

    /**
     * The event loop. `schedule` holds, for each iteration that starts before
     * the stop signal, the messages delivered during its sleep and its draws;
     * once it is used up the stop signal arrives and the loop ends. A machine
     * that is already stopped runs no iteration at all.
     */
    method EventLoop(schedule: seq<Iteration>)
      requires Valid() && ValidSchedule(schedule, |peers|)
      modifies this
      ensures Valid() && stopped
      ensures old(stopped) ==> State() == old(State())
      ensures !old(stopped) ==> State() == Run(old(State()), schedule)
      ensures logicalClock >= old(logicalClock) && old(log) <= log && old(outbox) <= outbox
    {
      ghost var s0 := State();
      var i := 0;
      while !stopped
        invariant 0 <= i <= |schedule|
        invariant Valid() && peers == s0.peers
        invariant State() == Run(s0, schedule[..i])
        invariant old(stopped) ==> i == 0
        invariant stopped ==> old(stopped) || i == |schedule|
        decreases |schedule| - i, !stopped
      {
        if i == |schedule| {
          stopped := true;
        } else {
          LamportProperties.RunExtended(s0, schedule, i);
          Tick(schedule[i]);
          i := i + 1;
        }
      }
      assert schedule[..|schedule|] == schedule;
      LamportProperties.RunMonotone(s0, schedule);
    }
  }

  /** The message service of one machine: it queues each request and acknowledges it. */
  class Servicer {
    const machine: VirtualMachine

    constructor (machine: VirtualMachine)
      ensures this.machine == machine
    {
      this.machine := machine;
    }

    method SendMessage(request: ClockMessage) returns (ack: Ack)
      requires machine.Valid()
      modifies machine
      ensures machine.Valid() && machine.stopped == old(machine.stopped)
      ensures ack == Ack("OK")
      ensures machine.State() == Delivered(old(machine.State()), [request])
    {
      machine.HandleIncomingMessage(request);
      ack := Ack("OK");
    }
  }
}
