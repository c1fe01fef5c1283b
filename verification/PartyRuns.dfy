/**
 What the simulator does to each party, seen from that party: over every run of any machines, a party is
 its own machine after a sequence of calls that follows the documentation of state machines.
 */
module PartyRuns {
  import opened Messages
  import opened StateMachine
  import opened Simulation

  /** A machine after some calls, the result of its last `proceed`, and the messages that went through it. */
  datatype Past<T, M, O> = Past(
    machine: T, last: Option<ProceedResult<M, O>>, sent: seq<Outgoing<M>>, received: seq<Incoming<M>>)

  function Replay<T, M, O>(ops: MachineOps<T, M, O>, start: T, calls: seq<DriverCall<M>>): Past<T, M, O> {
    if calls == [] then Past(start, None, [], [])
    else
      var past := Replay(ops, start, calls[..|calls| - 1]);
      match calls[|calls| - 1]
      case CallProceed =>
        var (machine, result) := ops.proceed(past.machine);
        Past(machine, Some(result), past.sent + Sent(result), past.received)
      case CallReceivedMsg(msg) =>
        past.(machine := ops.receivedMsg(past.machine, msg).0, received := past.received + [msg])
  }

  lemma ReplaySnoc<T, M, O>(ops: MachineOps<T, M, O>, start: T, calls: seq<DriverCall<M>>, call: DriverCall<M>)
    ensures
      var past := Replay(ops, start, calls);
      Replay(ops, start, calls + [call]) ==
      match call
      case CallProceed =>
        var (machine, result) := ops.proceed(past.machine);
        Past(machine, Some(result), past.sent + Sent(result), past.received)
      case CallReceivedMsg(msg) =>
        past.(machine := ops.receivedMsg(past.machine, msg).0, received := past.received + [msg])
  {
    assert (calls + [call])[..|calls|] == calls;
  }

  predicate Ended<M, O>(last: Option<ProceedResult<M, O>>) {
    last.Some? && (last.value.Output? || last.value.Error?)
  }

  /** The last call was a `proceed` that asked for a message. */
  predicate Asked<T, M, O>(ops: MachineOps<T, M, O>, start: T, calls: seq<DriverCall<M>>) {
    calls != [] && calls[|calls| - 1].CallProceed? && Replay(ops, start, calls).last == Some(NeedsOneMoreMessage)
  }

  /** The documented way to drive a machine: it is given a message if and only if it has just asked for one,
      accepts it, and is left alone once it has ended. */
  ghost predicate WellDriven<T, M, O>(ops: MachineOps<T, M, O>, start: T, calls: seq<DriverCall<M>>) {
    calls == [] || (
      var init := calls[..|calls| - 1];
      && WellDriven(ops, start, init) && !Ended(Replay(ops, start, init).last)
      && match calls[|calls| - 1]
         case CallProceed => !Asked(ops, start, init)
         case CallReceivedMsg(msg) =>
           Asked(ops, start, init) && ops.receivedMsg(Replay(ops, start, init).machine, msg).1)
  }

  lemma WellDrivenSnoc<T, M, O>(ops: MachineOps<T, M, O>, start: T, calls: seq<DriverCall<M>>, call: DriverCall<M>)
    requires WellDriven(ops, start, calls) && !Ended(Replay(ops, start, calls).last)
    requires match call
      case CallProceed => !Asked(ops, start, calls)
      case CallReceivedMsg(msg) =>
        Asked(ops, start, calls) && ops.receivedMsg(Replay(ops, start, calls).machine, msg).1
    ensures WellDriven(ops, start, calls + [call])
  {
    assert (calls + [call])[..|calls|] == calls;
  }

  /** Everything party `i` has sent so far. */
  function OutgoingOf<M>(sends: seq<Sending<M>>, i: u16): seq<Outgoing<M>> {
    if sends == [] then []
    else
      var s := sends[|sends| - 1];
      OutgoingOf(sends[..|sends| - 1], i) + if s.sender == i then [s.out] else []
  }

  /** Party `i` is what the calls have made of its machine: it waits if and only if its last `proceed` asked
      for a message, and has finished if and only if the last one returned an output. */
  ghost predicate Follows<T, M, O>(
    ops: MachineOps<T, M, O>, start: T, calls: seq<DriverCall<M>>, i: u16, sim: Sim<T, M, O>)
    requires Shape(sim) && i < |sim.parties|
  {
    var past := Replay(ops, start, calls);
    && WellDriven(ops, start, calls)
    && (calls != [] ==> calls[|calls| - 1].CallProceed?)
    && past.received == sim.received[i] && past.sent == OutgoingOf(sim.sends, i)
    && match sim.parties[i]
       case Active(machine, wants) =>
         machine == past.machine && !Ended(past.last) && (wants <==> past.last == Some(NeedsOneMoreMessage))
       case Finished(output) => past.last == Some(Output(output))
  }

  /** The calls that the next turn of a party makes, unless it is blocked. */
  function NextCalls<T, M, O>(sim: Sim<T, M, O>, i: u16): seq<DriverCall<M>>
    requires Shape(sim) && i < |sim.parties| && !Blocked(sim, i)
  {
    (if sim.parties[i].wantsOneMoreMsg then [CallReceivedMsg(sim.queues[i][0])] else []) + [CallProceed]
  }

  /** The calls have brought the party to where it is about to proceed with `machine`. */
  ghost predicate About<T, M, O>(
    ops: MachineOps<T, M, O>, start: T, calls: seq<DriverCall<M>>, machine: T, i: u16, sim: Sim<T, M, O>)
    requires Shape(sim) && i < |sim.parties|
  {
    var past := Replay(ops, start, calls);
    && WellDriven(ops, start, calls) && !Asked(ops, start, calls) && !Ended(past.last) && past.machine == machine
    && past.received == sim.received[i] && past.sent == OutgoingOf(sim.sends, i)
  }

  lemma OutgoingOfSnoc<M>(sends: seq<Sending<M>>, s: Sending<M>, i: u16)
    ensures OutgoingOf(sends + [s], i) == OutgoingOf(sends, i) + if s.sender == i then [s.out] else []
  {
    assert (sends + [s])[..|sends|] == sends;
  }

  lemma ProceedingFollows<T, M, O>(
    ops: MachineOps<T, M, O>, start: T, calls: seq<DriverCall<M>>, machine: T, i: u16, sim: Sim<T, M, O>)
    requires Shape(sim) && i < |sim.parties| && About(ops, start, calls, machine, i, sim)
    requires !AfterProceed(ops, machine, i, sim).Failed?
    ensures Follows(ops, start, calls + [CallProceed], i, AfterProceed(ops, machine, i, sim).sim)
  {
    ReplaySnoc(ops, start, calls, CallProceed);
    WellDrivenSnoc(ops, start, calls, CallProceed);
    var result := ops.proceed(machine).1;
    if result.SendMsg? {
      OutgoingOfSnoc(sim.sends, Sending(i, result.out), i);
    }
  }

  lemma TakingFollows<T, M, O>(
    ops: MachineOps<T, M, O>, start: T, calls: seq<DriverCall<M>>, i: u16, sim: Sim<T, M, O>)
    requires Shape(sim) && i < |sim.parties| && !Blocked(sim, i) && Follows(ops, start, calls, i, sim)
    requires sim.parties[i].wantsOneMoreMsg && ops.receivedMsg(sim.parties[i].machine, sim.queues[i][0]).1
    ensures
      var m := sim.queues[i][0];
      About(ops, start, calls + [CallReceivedMsg(m)], ops.receivedMsg(sim.parties[i].machine, m).0, i, Dequeued(sim, i))
  {
    ReplaySnoc(ops, start, calls, CallReceivedMsg(sim.queues[i][0]));
    WellDrivenSnoc(ops, start, calls, CallReceivedMsg(sim.queues[i][0]));
  }

  /** A turn of the party itself. */
  lemma OwnTurnFollows<T, M, O>(
    ops: MachineOps<T, M, O>, start: T, calls: seq<DriverCall<M>>, i: u16, sim: Sim<T, M, O>)
    requires Shape(sim) && i < |sim.parties| && !Blocked(sim, i) && Follows(ops, start, calls, i, sim)
    requires !TakeTurn(ops, sim, i).Failed?
    ensures Follows(ops, start, calls + NextCalls(sim, i), i, TakeTurn(ops, sim, i).sim)
  {
    if sim.parties[i].wantsOneMoreMsg {
      var m := sim.queues[i][0];
      TakingFollows(ops, start, calls, i, sim);
      var machine := ops.receivedMsg(sim.parties[i].machine, m).0;
      ProceedingFollows(ops, start, calls + [CallReceivedMsg(m)], machine, i, Dequeued(sim, i));
      assert calls + NextCalls(sim, i) == calls + [CallReceivedMsg(m)] + [CallProceed];
    } else {
      ProceedingFollows(ops, start, calls, sim.parties[i].machine, i, sim);
      assert calls + NextCalls(sim, i) == calls + [CallProceed];
    }
  }

  /** A turn of a party takes mail from its own queue and sends at most one message of its own. */
  lemma TurnIsLocal<T, M, O>(ops: MachineOps<T, M, O>, sim: Sim<T, M, O>, j: u16, i: u16)
    requires Shape(sim) && i < |sim.parties| && j < |sim.parties| && j != i && !TakeTurn(ops, sim, j).Failed?
    ensures
      var sim' := TakeTurn(ops, sim, j).sim;
      && sim'.parties[i] == sim.parties[i] && sim'.received[i] == sim.received[i]
      && (sim'.sends != sim.sends ==>
           && |sim'.sends| == |sim.sends| + 1 && sim'.sends[|sim.sends|].sender == j
           && sim'.sends == sim.sends + [sim'.sends[|sim.sends|]])
  {
  }

  /** A turn of another party. */
  lemma OtherTurnFollows<T, M, O>(
    ops: MachineOps<T, M, O>, start: T, calls: seq<DriverCall<M>>, i: u16, sim: Sim<T, M, O>, j: u16)
    requires Shape(sim) && i < |sim.parties| && j < |sim.parties| && j != i && Follows(ops, start, calls, i, sim)
    requires !TakeTurn(ops, sim, j).Failed?
    ensures Follows(ops, start, calls, i, TakeTurn(ops, sim, j).sim)
  {
    TurnIsLocal(ops, sim, j, i);
    var sim' := TakeTurn(ops, sim, j).sim;
    if sim'.sends != sim.sends {
      OutgoingOfSnoc(sim.sends, sim'.sends[|sim.sends|], i);
    }
  }

  /** At every point of every run of any machines, each party is its initial machine after calls of its own,
      driven as documented: it has received and sent what these calls say, it waits for a message if and
      only if its last `proceed` asked for one, and has finished with the output its last `proceed`
      returned. A party that yields goes on. */
  lemma {:induction false} EveryPartyFollowsItsMachine<T, M, O>(
    ops: MachineOps<T, M, O>, machines: seq<T>, turns: seq<u16>, sim: Sim<T, M, O>, i: u16)
    returns (calls: seq<DriverCall<M>>)
    requires |machines| <= 0xFFFF && Scheduled(ops, machines, turns) == Some(sim) && i < |machines|
    ensures Shape(sim) && |sim.parties| == |machines|
    ensures Follows(ops, machines[i], calls, i, sim)
  {
    if turns == [] {
      calls := [];
    } else {
      var init, j := turns[..|turns| - 1], turns[|turns| - 1];
      var before := Scheduled(ops, machines, init).value;
      calls := EveryPartyFollowsItsMachine(ops, machines, init, before, i);
      if j != i {
        OtherTurnFollows(ops, machines[i], calls, i, before, j);
      } else if !Blocked(before, i) {
        OwnTurnFollows(ops, machines[i], calls, i, before);
        calls := calls + NextCalls(before, i);
      }
    }
  }

  /** Why a run stops with an error: the party whose turn it is refuses the message it asked for, fails when
      it proceeds, or sends to a party that does not exist. */
  lemma FailsByItsParty<T, M, O>(
    ops: MachineOps<T, M, O>, machines: seq<T>, turns: seq<u16>, sim: Sim<T, M, O>, i: u16)
    returns (calls: seq<DriverCall<M>>)
    requires |machines| <= 0xFFFF && Scheduled(ops, machines, turns) == Some(sim) && i < |machines|
    ensures Shape(sim) && |sim.parties| == |machines| && Follows(ops, machines[i], calls, i, sim)
    ensures !Blocked(sim, i) ==>
      var past, past' := Replay(ops, machines[i], calls), Replay(ops, machines[i], calls + NextCalls(sim, i));
      var refused := sim.parties[i].wantsOneMoreMsg && !ops.receivedMsg(past.machine, sim.queues[i][0]).1;
      && past'.last.Some?
      && match TakeTurn(ops, sim, i)
         case Failed(SaveIncomingMsg) => refused
         case Failed(ExecutionFailed(e)) => !refused && past'.last == Some(ProceedResult.Error(e))
         case Failed(UnknownRecipient(sender, recipient)) =>
           && !refused && sender == i && recipient >= |machines|
           && past'.last.value.SendMsg? && past'.last.value.out.recipient == OneParty(recipient)
         case _ =>
           && !refused && !past'.last.value.Error?
           && (past'.last.value.SendMsg? ==> !Undeliverable(|machines|, past'.last.value.out))
  {
    calls := EveryPartyFollowsItsMachine(ops, machines, turns, sim, i);
    if !Blocked(sim, i) {
      var calls1 := if sim.parties[i].wantsOneMoreMsg then calls + [CallReceivedMsg(sim.queues[i][0])] else calls;
      if sim.parties[i].wantsOneMoreMsg {
        ReplaySnoc(ops, machines[i], calls, CallReceivedMsg(sim.queues[i][0]));
      }
      ReplaySnoc(ops, machines[i], calls1, CallProceed);
      assert calls + NextCalls(sim, i) == calls1 + [CallProceed];
    }
  }
}
