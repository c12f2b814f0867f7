/**
 * What the Lamport transitions promise: the clock rules of each event, the
 * priority of queued messages, the effect of each draw, the preservation of the
 * machine invariant, monotonicity, FIFO draining of the inbox and one log
 * record per event, for one iteration and for whole runs of the loop.
 */
module LamportProperties {
  import opened Lamport

  // ---------------------------------------------------------------------------
  // Counting log records

  lemma CountKindSnoc(log: seq<LogRecord>, rec: LogRecord, kind: EventType)
    ensures CountKind(log + [rec], kind) == CountKind(log, kind) + (if rec.kind == kind then 1 else 0)
  {
    assert (log + [rec])[..|log|] == log;
  }

  // ---------------------------------------------------------------------------
  // Single events

  /** Deliveries keep the invariant, which does not constrain the inbox. */
  lemma DeliveredPreservesValid(s: MachineState, msgs: seq<ClockMessage>)
    requires Valid(s)
    ensures Valid(Delivered(s, msgs))
  {
  }

  /** A receive keeps the invariant: the new clock exceeds every clock logged before. */
  lemma ReceivedPreservesValid(s: MachineState, m: ClockMessage)
    requires Valid(s)
    ensures Valid(Received(s, m))
  {
  }

  /** A send keeps the invariant: the outbound clock exceeds every clock sent before. */
  lemma SentPreservesValid(s: MachineState, target: int, kind: EventType)
    requires Valid(s)
    ensures Valid(Sent(s, target, kind))
  {
  }

  lemma InternalPreservesValid(s: MachineState)
    requires Valid(s)
    ensures Valid(InternalEvent(s))
  {
  }

  /** The `k`-th of `n` consecutive SEND records carries the clock of the `k+1`-th send. */
  lemma {:induction false} SendRecordsAt(queueLength: nat, clock: nat, n: nat)
    ensures |SendRecords(queueLength, clock, n)| == n
    ensures forall k :: 0 <= k < n ==> SendRecords(queueLength, clock, n)[k] == LogRecord(Send, queueLength, clock + k + 1)
  {
    if n > 0 {
      SendRecordsAt(queueLength, clock, n - 1);
    }
  }

  /** The `k`-th message of a broadcast goes to the `k`-th target and carries the clock of the `k+1`-th send. */
  lemma {:induction false} BroadcastAt(id: int, clock: nat, queueLength: nat, targets: seq<int>)
    ensures |Broadcast(id, clock, queueLength, targets)| == |targets|
    ensures forall k :: 0 <= k < |targets| ==>
              Broadcast(id, clock, queueLength, targets)[k] == Outbound(targets[k], ClockMessage(id, clock + k + 1, queueLength, Send))
    decreases |targets|
  {
    if targets != [] {
      var n := |targets| - 1;
      BroadcastAt(id, clock, queueLength, targets[..n]);
    }
  }

  /** The last send of a sequence of sends, spelled out. */
  lemma SentToAllSnoc(s: MachineState, targets: seq<int>)
    requires targets != []
    ensures var t := SentToAll(s, targets[..|targets| - 1]);
      var r := SentToAll(s, targets);
      && r.clock == t.clock + 1
      && r.log == t.log + [LogRecord(Send, |s.inbox|, t.clock + 1)]
      && (targets[|targets| - 1] in s.peers ==>
            r.outbox == t.outbox + [Outbound(targets[|targets| - 1], ClockMessage(s.id, t.clock + 1, |s.inbox|, Send))])
  {
  }

  /**
   * Sending to each of `targets` in turn: the clock rises by one per target and
   * the log gains one SEND record per target, carrying the clock of that send.
   */
  lemma {:induction false} SentToAllLog(s: MachineState, targets: seq<int>)
    ensures var r := SentToAll(s, targets);
      && r.clock == s.clock + |targets|
      && r.log == s.log + SendRecords(|s.inbox|, s.clock, |targets|)
  {
    if targets != [] {
      var n := |targets| - 1;
      var t := SentToAll(s, targets[..n]);
      var recs := SendRecords(|s.inbox|, s.clock, n);
      var rec := LogRecord(Send, |s.inbox|, s.clock + n + 1);
      SentToAllLog(s, targets[..n]);
      SentToAllSnoc(s, targets);
      assert t.log + [rec] == s.log + (recs + [rec]);
    }
  }

  /** Sending to each of `targets` in turn adds one SEND record per target and no RECEIVE record. */
  lemma {:induction false} SentToAllCounts(s: MachineState, targets: seq<int>)
    ensures CountKind(SentToAll(s, targets).log, Send) == CountKind(s.log, Send) + |targets|
    ensures CountKind(SentToAll(s, targets).log, Receive) == CountKind(s.log, Receive)
  {
    if targets != [] {
      var n := |targets| - 1;
      var t := SentToAll(s, targets[..n]);
      var rec := LogRecord(Send, |s.inbox|, t.clock + 1);
      SentToAllCounts(s, targets[..n]);
      SentToAllSnoc(s, targets);
      CountKindSnoc(t.log, rec, Send);
      CountKindSnoc(t.log, rec, Receive);
    }
  }

  /** Sending to each of `targets` in turn, all of them peers: each receives one message with the clock of its send. */
  lemma {:induction false} SentToAllOutbox(s: MachineState, targets: seq<int>)
    requires forall x :: x in targets ==> x in s.peers
    ensures SentToAll(s, targets).outbox == s.outbox + Broadcast(s.id, s.clock, |s.inbox|, targets)
  {
    if targets != [] {
      var n := |targets| - 1;
      var pre := targets[..n];
      var t := SentToAll(s, pre);
      var outs := Broadcast(s.id, s.clock, |s.inbox|, pre);
      var out := Outbound(targets[n], ClockMessage(s.id, s.clock + n + 1, |s.inbox|, Send));
      assert forall x :: x in pre ==> x in targets;
      assert targets[n] in targets;
      SentToAllOutbox(s, pre);
      SentToAllLog(s, pre);
      SentToAllSnoc(s, targets);
      assert t.outbox + [out] == s.outbox + (outs + [out]);
    }
  }

  /** Both effects of sending to each of `targets`, all of them peers. */
  lemma SentToAllEffect(s: MachineState, targets: seq<int>)
    requires forall x :: x in targets ==> x in s.peers
    ensures var r := SentToAll(s, targets);
      && r.clock == s.clock + |targets|
      && r.log == s.log + SendRecords(|s.inbox|, s.clock, |targets|)
      && r.outbox == s.outbox + Broadcast(s.id, s.clock, |s.inbox|, targets)
      && CountKind(r.log, Send) == CountKind(s.log, Send) + |targets|
      && CountKind(r.log, Receive) == CountKind(s.log, Receive)
  {
    SentToAllLog(s, targets);
    SentToAllCounts(s, targets);
    SentToAllOutbox(s, targets);
  }

  lemma {:induction false} SentToAllPreservesValid(s: MachineState, targets: seq<int>)
    requires Valid(s)
    ensures Valid(SentToAll(s, targets))
    decreases |targets|
  {
    if targets != [] {
      var pre := targets[..|targets| - 1];
      SentToAllPreservesValid(s, pre);
      SentPreservesValid(SentToAll(s, pre), targets[|targets| - 1], Send);
    }
  }

  // ---------------------------------------------------------------------------
  // One iteration of the event loop

  /** Queue priority: a queued head is removed and received, and nothing else happens. */
  lemma StepDrainsHead(s: MachineState, draw: int, choice: nat)
    requires ValidChoice(choice, |s.peers|)
    requires s.inbox != []
    ensures var r := Step(s, draw, choice);
      && r.inbox == s.inbox[1..]
      && r.clock == ReceiveRule(s.clock, s.inbox[0].clock)
      && r.log == s.log + [LogRecord(Receive, |s.inbox| - 1, r.clock)]
      && r.outbox == s.outbox
  {
  }

  /** Draw 1 or 2 with peers: exactly one send, to the chosen peer, and the clock rises by one. */
  lemma StepSendsToOnePeer(s: MachineState, draw: int, choice: nat)
    requires ValidChoice(choice, |s.peers|)
    requires s.inbox == [] && (draw == 1 || draw == 2) && s.peers != []
    ensures var r := Step(s, draw, choice);
      && r.clock == s.clock + 1
      && r.inbox == s.inbox
      && r.log == s.log + [LogRecord(Send, 0, s.clock + 1)]
      && |r.outbox| == |s.outbox| + 1 && s.outbox <= r.outbox
      && r.outbox[|s.outbox|].target in s.peers
      && r.outbox[|s.outbox|] == Outbound(s.peers[choice], ClockMessage(s.id, s.clock + 1, 0, Send))
  {
  }

  /** Draw 1 or 2 without peers: no choice is possible and nothing changes. */
  lemma StepWithoutPeersIsIdle(s: MachineState, draw: int, choice: nat)
    requires ValidChoice(choice, |s.peers|)
    requires s.inbox == [] && (draw == 1 || draw == 2) && s.peers == []
    ensures Step(s, draw, choice) == s
  {
  }

  /**
   * Draw 3: one send per peer in peer order, so the clock rises by the number of
   * peers and the sends of this iteration carry strictly increasing clocks.
   */
  lemma StepBroadcasts(s: MachineState, choice: nat)
    requires ValidChoice(choice, |s.peers|)
    requires s.inbox == []
    ensures var r := Step(s, 3, choice);
      && r.clock == s.clock + |s.peers|
      && r.inbox == s.inbox
      && r.log == s.log + SendRecords(0, s.clock, |s.peers|)
      && r.outbox == s.outbox + Broadcast(s.id, s.clock, 0, s.peers)
      && |r.outbox| == |s.outbox| + |s.peers|
      && (forall k :: 0 <= k < |s.peers| ==>
            r.outbox[|s.outbox| + k] == Outbound(s.peers[k], ClockMessage(s.id, s.clock + k + 1, 0, Send)))
  {
    SentToAllEffect(s, s.peers);
    BroadcastAt(s.id, s.clock, 0, s.peers);
  }

  /** Draws 4 to 10: an internal step, the clock rises by one and nothing is sent. */
  lemma StepInternal(s: MachineState, draw: int, choice: nat)
    requires ValidChoice(choice, |s.peers|)
    requires s.inbox == [] && 4 <= draw <= 10
    ensures var r := Step(s, draw, choice);
      && r.clock == s.clock + 1
      && r.inbox == s.inbox
      && r.log == s.log + [LogRecord(Internal, 0, s.clock + 1)]
      && r.outbox == s.outbox
  {
  }

  lemma StepPreservesValid(s: MachineState, draw: int, choice: nat)
    requires Valid(s) && ValidChoice(choice, |s.peers|)
    ensures Valid(Step(s, draw, choice))
  {
    if s.inbox != [] {
      ReceivedPreservesValid(s.(inbox := s.inbox[1..]), s.inbox[0]);
    } else if draw == 1 || draw == 2 {
      if s.peers != [] {
        SentPreservesValid(s, s.peers[choice], Send);
      }
    } else if draw == 3 {
      SentToAllPreservesValid(s, s.peers);
    } else {
      InternalPreservesValid(s);
    }
  }

  /**
   * An iteration never moves the clock backwards, only appends to the log and the
   * outbox, and either advances the clock or changes nothing at all.
   */
  lemma StepMonotone(s: MachineState, draw: int, choice: nat)
    requires ValidChoice(choice, |s.peers|)
    ensures var r := Step(s, draw, choice);
      && r.clock >= s.clock
      && s.log <= r.log && s.outbox <= r.outbox
      && (r.clock > s.clock || r == s)
  {
    if s.inbox == [] && draw == 3 {
      SentToAllEffect(s, s.peers);
      if s.peers == [] {
        assert Step(s, draw, choice) == s;
      }
    }
  }

  /**
   * One iteration consumes the inbox only at its head, one message at most, with
   * one RECEIVE record for it, and logs one SEND record per outbound message.
   */
  lemma StepCounts(s: MachineState, draw: int, choice: nat)
    requires ValidChoice(choice, |s.peers|)
    ensures var r := Step(s, draw, choice);
      && r.inbox == (if s.inbox != [] then s.inbox[1..] else s.inbox)
      && CountKind(r.log, Receive) == CountKind(s.log, Receive) + (if s.inbox != [] then 1 else 0)
      && s.outbox <= r.outbox
      && CountKind(r.log, Send) == CountKind(s.log, Send) + (|r.outbox| - |s.outbox|)
  {
    var r := Step(s, draw, choice);
    if s.inbox != [] {
      CountKindSnoc(s.log, r.log[|s.log|], Receive);
      CountKindSnoc(s.log, r.log[|s.log|], Send);
    } else if draw == 1 || draw == 2 {
      if s.peers != [] {
        CountKindSnoc(s.log, r.log[|s.log|], Receive);
        CountKindSnoc(s.log, r.log[|s.log|], Send);
      }
    } else if draw == 3 {
      SentToAllEffect(s, s.peers);
      BroadcastAt(s.id, s.clock, 0, s.peers);
    } else {
      CountKindSnoc(s.log, r.log[|s.log|], Receive);
      CountKindSnoc(s.log, r.log[|s.log|], Send);
    }
  }

  // ---------------------------------------------------------------------------
  // Whole runs of the event loop

  /** Running one more iteration of a schedule is one more step after the deliveries of its sleep. */
  lemma RunExtended(s: MachineState, its: seq<Iteration>, i: nat)
    requires ValidSchedule(its, |s.peers|) && i < |its|
    ensures Run(s, its[..i + 1])
         == Step(Delivered(Run(s, its[..i]), its[i].arrivals), its[i].draw, its[i].choice)
  {
    assert its[..i + 1][..i] == its[..i];
  }

  lemma {:induction false} RunPreservesValid(s: MachineState, its: seq<Iteration>)
    requires Valid(s) && ValidSchedule(its, |s.peers|)
    ensures Valid(Run(s, its))
    decreases |its|
  {
    if its != [] {
      var pre := its[..|its| - 1];
      var it := its[|its| - 1];
      RunPreservesValid(s, pre);
      DeliveredPreservesValid(Run(s, pre), it.arrivals);
      StepPreservesValid(Delivered(Run(s, pre), it.arrivals), it.draw, it.choice);
    }
  }

  /** Across a run the clock never decreases and the log and the outbox are only appended to. */
  lemma {:induction false} RunMonotone(s: MachineState, its: seq<Iteration>)
    requires ValidSchedule(its, |s.peers|)
    ensures var r := Run(s, its);
      r.clock >= s.clock && s.log <= r.log && s.outbox <= r.outbox
    decreases |its|
  {
    if its != [] {
      var pre := its[..|its| - 1];
      var it := its[|its| - 1];
      RunMonotone(s, pre);
      StepMonotone(Delivered(Run(s, pre), it.arrivals), it.draw, it.choice);
    }
  }

  /**
   * One iteration after a delivery, seen from the inbox: if what was left before
   * is a suffix of `before`, then what is left after is a suffix of `before` plus
   * the delivered messages.
   */
  lemma DeliveredStepIsFifo(t: MachineState, arrivals: seq<ClockMessage>, before: seq<ClockMessage>, draw: int, choice: nat)
    requires ValidChoice(choice, |t.peers|)
    requires |t.inbox| <= |before| && t.inbox == before[|before| - |t.inbox|..]
    ensures var r := Step(Delivered(t, arrivals), draw, choice);
      var all := before + arrivals;
      |r.inbox| <= |all| && r.inbox == all[|all| - |r.inbox|..]
  {
    var u := Delivered(t, arrivals);
    var all := before + arrivals;
    var k := |before| - |t.inbox|;
    assert u.inbox == all[k..];
    if u.inbox != [] {
      assert u.inbox[1..] == all[k + 1..];
    }
  }

  /** What was queued before a schedule plus its deliveries, split at the last iteration. */
  lemma ArrivalsSnoc(queued: seq<ClockMessage>, its: seq<Iteration>)
    requires its != []
    ensures queued + Arrivals(its) == (queued + Arrivals(its[..|its| - 1])) + its[|its| - 1].arrivals
  {
    assert Arrivals(its) == Arrivals(its[..|its| - 1]) + its[|its| - 1].arrivals;
  }

  /**
   * The inbox is a FIFO that loses and duplicates nothing: after a run, what is
   * left is a suffix of everything that was queued or delivered.
   */
  lemma {:induction false} RunInboxIsFifo(s: MachineState, its: seq<Iteration>)
    requires ValidSchedule(its, |s.peers|)
    ensures var r := Run(s, its);
      var all := s.inbox + Arrivals(its);
      |r.inbox| <= |all| && r.inbox == all[|all| - |r.inbox|..]
    decreases |its|
  {
    if its != [] {
      var pre := its[..|its| - 1];
      var it := its[|its| - 1];
      var before := s.inbox + Arrivals(pre);
      RunInboxIsFifo(s, pre);
      ArrivalsSnoc(s.inbox, its);
      DeliveredStepIsFifo(Run(s, pre), it.arrivals, before, it.draw, it.choice);
    }
  }

  /**
   * Every message taken off the inbox during a run has its RECEIVE record: the
   * records added plus the messages still queued are all that was queued or delivered.
   */
  lemma {:induction false} RunReceivesAreLogged(s: MachineState, its: seq<Iteration>)
    requires ValidSchedule(its, |s.peers|)
    ensures var r := Run(s, its);
      CountKind(r.log, Receive) + |r.inbox| == CountKind(s.log, Receive) + |s.inbox| + |Arrivals(its)|
    decreases |its|
  {
    if its != [] {
      var pre := its[..|its| - 1];
      var it := its[|its| - 1];
      RunReceivesAreLogged(s, pre);
      assert |Arrivals(its)| == |Arrivals(pre)| + |it.arrivals|;
      StepCounts(Delivered(Run(s, pre), it.arrivals), it.draw, it.choice);
    }
  }

  /** Every message a run hands to the transport has its own SEND record, and none is withdrawn. */
  lemma {:induction false} RunSendsAreLogged(s: MachineState, its: seq<Iteration>)
    requires ValidSchedule(its, |s.peers|)
    ensures var r := Run(s, its);
      && s.outbox <= r.outbox
      && CountKind(r.log, Send) == CountKind(s.log, Send) + (|r.outbox| - |s.outbox|)
    decreases |its|
  {
    if its != [] {
      var pre := its[..|its| - 1];
      var it := its[|its| - 1];
      RunSendsAreLogged(s, pre);
      StepCounts(Delivered(Run(s, pre), it.arrivals), it.draw, it.choice);
    }
  }

  /** Both bookkeeping facts of a run: the FIFO inbox and the logged sends. */
  lemma RunIsFifo(s: MachineState, its: seq<Iteration>)
    requires ValidSchedule(its, |s.peers|)
    ensures var r := Run(s, its);
      var all := s.inbox + Arrivals(its);
      && |r.inbox| <= |all|
      && r.inbox == all[|all| - |r.inbox|..]
      && CountKind(r.log, Receive) == CountKind(s.log, Receive) + (|all| - |r.inbox|)
      && s.outbox <= r.outbox
      && CountKind(r.log, Send) == CountKind(s.log, Send) + (|r.outbox| - |s.outbox|)
  {
    RunInboxIsFifo(s, its);
    RunReceivesAreLogged(s, its);
    RunSendsAreLogged(s, its);
  }

  // ---------------------------------------------------------------------------
  // The peer table

  /** Connecting to the address table never adds the machine itself and keeps the peer ids distinct. */
  lemma ConnectedPreservesValid(s: MachineState, ids: seq<int>)
    requires Valid(s)
    ensures Valid(s.(peers := Connected(s.peers, ids, s.id)))
  {
    var p := Connected(s.peers, ids, s.id);
    forall k | 0 <= k < |s.outbox|
      ensures s.outbox[k].target in p
    {
    }
  }
}
