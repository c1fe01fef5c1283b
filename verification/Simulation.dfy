/**
 The simulator: a scheduler over state machines with one first-in first-out queue per party.
 */
module Simulation {
  import opened Messages
  import opened StateMachine

  /** A party as the simulator sees it: any state machine. */
  datatype MachineOps<!T, !M, O> = MachineOps(
    proceed: T -> (T, ProceedResult<M, O>),
    receivedMsg: (T, Incoming<M>) -> (T, bool))

  datatype PartyState<T, O> = Active(machine: T, wantsOneMoreMsg: bool) | Finished(output: O)

  datatype SimError =
    | SaveIncomingMsg
    | ExecutionFailed(error: ExecutionError)
    | UnknownRecipient(sender: u16, recipient: u16)

  datatype Sending<M> = Sending(sender: u16, out: Outgoing<M>)

  /** The state of a simulation; `sends` and `received` record its past. */
  datatype Sim<T, M, O> = Sim(
    parties: seq<PartyState<T, O>>,
    queues: seq<seq<Incoming<M>>>,
    nextId: nat,
    sends: seq<Sending<M>>,
    received: seq<seq<Incoming<M>>>)

  // ----- Sending

  predicate Addressed<M>(n: nat, s: Sending<M>, r: nat) {
    r < n && match s.out.recipient
      case AllParties(_) => r != s.sender
      case OneParty(recipient) => r == recipient
  }

  /** What a sending adds to the queue of party `r`, ids starting from `nextId` in order of recipient. */
  function Mail<M>(n: nat, nextId: nat, s: Sending<M>, r: nat): seq<Incoming<M>> {
    if !Addressed(n, s, r) then []
    else match s.out.recipient
      case AllParties(reliable) =>
        [Incoming(nextId + if r < s.sender then r else r - 1, s.sender, Broadcast(reliable), s.out.msg)]
      case OneParty(_) => [Incoming(nextId, s.sender, P2P, s.out.msg)]
  }

  /** How many ids a sending uses up. */
  function IdsUsed<M>(n: nat, s: Sending<M>): nat {
    match s.out.recipient
    case AllParties(_) => if s.sender < n then n - 1 else n
    case OneParty(_) => 1
  }

  function Posted<M>(queues: seq<seq<Incoming<M>>>, nextId: nat, s: Sending<M>): seq<seq<Incoming<M>>> {
    seq(|queues|, r requires 0 <= r < |queues| => queues[r] + Mail(|queues|, nextId, s, r))
  }

  predicate Undeliverable<M>(n: nat, out: Outgoing<M>) {
    out.recipient.OneParty? && out.recipient.recipient >= n
  }

  // ----- One iteration of the inner loop

  datatype Turn<T, M, O> = NextParty(sim: Sim<T, M, O>) | ThisParty(sim: Sim<T, M, O>) | Failed(error: SimError)

  /** The party makes no move: it has finished, or waits for a message and its queue is empty. */
  predicate Blocked<T, M, O>(sim: Sim<T, M, O>, i: nat)
    requires i < |sim.parties| == |sim.queues|
  {
    sim.parties[i].Finished? || (sim.parties[i].wantsOneMoreMsg && sim.queues[i] == [])
  }

  predicate Shape<T, M, O>(sim: Sim<T, M, O>) {
    |sim.parties| == |sim.queues| == |sim.received| <= 0xFFFF
  }

  /** Party `i` has taken the first message of its queue. */
  function Dequeued<T, M, O>(sim: Sim<T, M, O>, i: nat): Sim<T, M, O>
    requires Shape(sim) && i < |sim.parties| && sim.queues[i] != []
  {
    sim.(queues := sim.queues[i := sim.queues[i][1..]],
         received := sim.received[i := sim.received[i] + [sim.queues[i][0]]])
  }

  function AfterProceed<T, M, O>(ops: MachineOps<T, M, O>, machine: T, i: u16, sim: Sim<T, M, O>): (t: Turn<T, M, O>)
    requires Shape(sim) && i < |sim.parties|
    ensures !t.Failed? ==> Shape(t.sim) && |t.sim.parties| == |sim.parties|
  {
    var (machine', result) := ops.proceed(machine);
    match result
    case SendMsg(out) =>
      if Undeliverable(|sim.queues|, out) then Failed(UnknownRecipient(i, out.recipient.recipient))
      else ThisParty(Sim(
        sim.parties[i := Active(machine', false)],
        Posted(sim.queues, sim.nextId, Sending(i, out)),
        sim.nextId + IdsUsed(|sim.queues|, Sending(i, out)),
        sim.sends + [Sending(i, out)],
        sim.received))
    case NeedsOneMoreMessage => ThisParty(sim.(parties := sim.parties[i := Active(machine', true)]))
    case Output(o) => NextParty(sim.(parties := sim.parties[i := Finished(o)]))
    case Yielded => ThisParty(sim.(parties := sim.parties[i := Active(machine', false)]))
    case Error(e) => Failed(ExecutionFailed(e))
  }

  function TakeTurn<T, M, O>(ops: MachineOps<T, M, O>, sim: Sim<T, M, O>, i: u16): (t: Turn<T, M, O>)
    requires Shape(sim) && i < |sim.parties|
    ensures !t.Failed? ==> Shape(t.sim) && |t.sim.parties| == |sim.parties|
  {
    if Blocked(sim, i) then NextParty(sim)
    else if sim.parties[i].wantsOneMoreMsg then
      var (machine, ok) := ops.receivedMsg(sim.parties[i].machine, sim.queues[i][0]);
      if !ok then Failed(SaveIncomingMsg)
      else
        AfterProceed(ops, machine, i, Dequeued(sim, i))
    else AfterProceed(ops, sim.parties[i].machine, i, sim)
  }

  // ----- Delivery

  function NextIdAfter<M>(n: nat, sends: seq<Sending<M>>): nat {
    if sends == [] then 0
    else NextIdAfter(n, sends[..|sends| - 1]) + IdsUsed(n, sends[|sends| - 1])
  }

  /** Everything ever addressed to party `r`, in the order it was sent. */
  function MailTo<M>(n: nat, sends: seq<Sending<M>>, r: nat): seq<Incoming<M>> {
    if sends == [] then []
    else
      var init := sends[..|sends| - 1];
      MailTo(n, init, r) + Mail(n, NextIdAfter(n, init), sends[|sends| - 1], r)
  }

  /** What each party has received, followed by what is still queued for it, is what was sent to it. */
  ghost predicate DeliveryOk<T, M, O>(sim: Sim<T, M, O>) {
    && Shape(sim)
    && sim.nextId == NextIdAfter(|sim.parties|, sim.sends)
    && forall r :: 0 <= r < |sim.parties| ==>
      sim.received[r] + sim.queues[r] == MailTo(|sim.parties|, sim.sends, r)
  }

  lemma AfterProceedDelivers<T, M, O>(ops: MachineOps<T, M, O>, machine: T, i: u16, sim: Sim<T, M, O>)
    requires DeliveryOk(sim) && i < |sim.parties| && !AfterProceed(ops, machine, i, sim).Failed?
    ensures DeliveryOk(AfterProceed(ops, machine, i, sim).sim)
  {
    var result := ops.proceed(machine).1;
    if result.SendMsg? {
      var s := Sending(i, result.out);
      assert (sim.sends + [s])[..|sim.sends|] == sim.sends;
      forall r | 0 <= r < |sim.parties|
        ensures sim.received[r] + Posted(sim.queues, sim.nextId, s)[r] == MailTo(|sim.parties|, sim.sends + [s], r)
      {
        assert sim.received[r] + (sim.queues[r] + Mail(|sim.queues|, sim.nextId, s, r))
            == sim.received[r] + sim.queues[r] + Mail(|sim.queues|, sim.nextId, s, r);
      }
    }
  }

  lemma DequeuedDelivers<T, M, O>(sim: Sim<T, M, O>, i: nat)
    requires DeliveryOk(sim) && i < |sim.parties| && sim.queues[i] != []
    ensures DeliveryOk(Dequeued(sim, i))
  {
    var sim' := Dequeued(sim, i);
    assert sim'.received[i] + sim'.queues[i] == sim.received[i] + sim.queues[i];
  }

  /** Every iteration, of any machines, keeps delivery exact. */
  lemma TurnDelivers<T, M, O>(ops: MachineOps<T, M, O>, sim: Sim<T, M, O>, i: u16)
    requires DeliveryOk(sim) && i < |sim.parties| && !TakeTurn(ops, sim, i).Failed?
    ensures DeliveryOk(TakeTurn(ops, sim, i).sim)
  {
    if !Blocked(sim, i) {
      if sim.parties[i].wantsOneMoreMsg {
        var (machine, _) := ops.receivedMsg(sim.parties[i].machine, sim.queues[i][0]);
        DequeuedDelivers(sim, i);
        AfterProceedDelivers(ops, machine, i, Dequeued(sim, i));
      } else {
        AfterProceedDelivers(ops, sim.parties[i].machine, i, sim);
      }
    }
  }

  // ----- What exact delivery means

  function Bodies<M>(ms: seq<Incoming<M>>, sender: u16): seq<M> {
    if ms == [] then []
    else Bodies(ms[..|ms| - 1], sender) + if ms[|ms| - 1].sender == sender then [ms[|ms| - 1].msg] else []
  }

  /** A message as its recipient sees it, but for the id. */
  datatype Envelope<M> = Envelope(sender: u16, msgType: MessageType, msg: M)

  function Contents<M>(ms: seq<Incoming<M>>): seq<Envelope<M>> {
    seq(|ms|, k requires 0 <= k < |ms| => Envelope(ms[k].sender, ms[k].msgType, ms[k].msg))
  }

  /** What party `r` is owed, given all that was sent: broadcasts of others, and messages addressed to it. */
  function Owed<M>(sends: seq<Sending<M>>, r: nat): seq<Envelope<M>> {
    if sends == [] then []
    else
      var s := sends[|sends| - 1];
      Owed(sends[..|sends| - 1], r) +
      match s.out.recipient
      case AllParties(reliable) => if s.sender == r then [] else [Envelope(s.sender, Broadcast(reliable), s.out.msg)]
      case OneParty(recipient) => if recipient == r then [Envelope(s.sender, P2P, s.out.msg)] else []
  }

  /** The mail of a party is exactly what it is owed, in the order it was sent, each message once. */
  lemma {:induction false} MailIsWhatWasSent<M>(n: nat, sends: seq<Sending<M>>, r: nat)
    requires r < n
    ensures Contents(MailTo(n, sends, r)) == Owed(sends, r)
  {
    if sends != [] {
      var init, last := sends[..|sends| - 1], sends[|sends| - 1];
      MailIsWhatWasSent(n, init, r);
      var before, added := MailTo(n, init, r), Mail(n, NextIdAfter(n, init), last, r);
      assert Contents(before + added) == Contents(before) + Contents(added);
    }
  }

  lemma MailIds<M>(n: nat, nextId: nat, s: Sending<M>, r: nat)
    ensures |Mail(n, nextId, s, r)| <= 1
    ensures forall m :: m in Mail(n, nextId, s, r) ==> nextId <= m.id < nextId + IdsUsed(n, s)
  {
  }

  /** Ids grow along each recipient's mail and never reach the next id to be assigned. */
  lemma {:induction false} IdsIncrease<M>(n: nat, sends: seq<Sending<M>>, r: nat)
    ensures forall k :: 0 <= k < |MailTo(n, sends, r)| ==> MailTo(n, sends, r)[k].id < NextIdAfter(n, sends)
    ensures forall j, k :: 0 <= j < k < |MailTo(n, sends, r)| ==> MailTo(n, sends, r)[j].id < MailTo(n, sends, r)[k].id
  {
    if sends != [] {
      IdsIncrease(n, sends[..|sends| - 1], r);
      MailIds(n, NextIdAfter(n, sends[..|sends| - 1]), sends[|sends| - 1], r);
    }
  }

  /** No id is used twice in the whole simulation. */
  lemma {:induction false} IdsAreUnique<M>(
    n: nat, sends: seq<Sending<M>>, r: nat, r': nat, m: Incoming<M>, m': Incoming<M>)
    requires m in MailTo(n, sends, r) && m' in MailTo(n, sends, r') && m.id == m'.id
    ensures r == r' && m == m'
  {
    var init, last := sends[..|sends| - 1], sends[|sends| - 1];
    var before, before' := MailTo(n, init, r), MailTo(n, init, r');
    IdsIncrease(n, init, r);
    IdsIncrease(n, init, r');
    MailIds(n, NextIdAfter(n, init), last, r);
    MailIds(n, NextIdAfter(n, init), last, r');
    if m in before && m' in before' {
      IdsAreUnique(n, init, r, r', m, m');
    }
  }

  // ----- Whole runs

  function Initial<T, M, O>(machines: seq<T>): Sim<T, M, O> {
    Sim(seq(|machines|, i requires 0 <= i < |machines| => Active(machines[i], false)),
        seq(|machines|, _ => []), 0, [], seq(|machines|, _ => []))
  }

  /** The simulation after giving turns to parties in any order, unless one of the turns fails. */
  function Scheduled<T, M, O>(ops: MachineOps<T, M, O>, machines: seq<T>, turns: seq<u16>): Option<Sim<T, M, O>> {
    if turns == [] then Some(Initial(machines))
    else
      var before, i := Scheduled(ops, machines, turns[..|turns| - 1]), turns[|turns| - 1];
      if before.None? || !Shape(before.value) || i >= |before.value.parties| then None
      else
        var t := TakeTurn(ops, before.value, i);
        if t.Failed? then None else Some(t.sim)
  }

  /** How many of the turns went to a party that could move. */
  function Moves<T, M, O>(ops: MachineOps<T, M, O>, machines: seq<T>, turns: seq<u16>): nat {
    if turns == [] then 0
    else
      var before, i := Scheduled(ops, machines, turns[..|turns| - 1]), turns[|turns| - 1];
      Moves(ops, machines, turns[..|turns| - 1]) +
      if before.Some? && Shape(before.value) && i < |before.value.parties| && !Blocked(before.value, i) then 1 else 0
  }

  lemma {:induction false} RunsDeliver<T, M, O>(
    ops: MachineOps<T, M, O>, machines: seq<T>, turns: seq<u16>, sim: Sim<T, M, O>)
    requires |machines| <= 0xFFFF && Scheduled(ops, machines, turns) == Some(sim)
    ensures DeliveryOk(sim) && |sim.parties| == |machines|
  {
    if turns != [] {
      var init := turns[..|turns| - 1];
      var before := Scheduled(ops, machines, init).value;
      RunsDeliver(ops, machines, init, before);
      TurnDelivers(ops, before, turns[|turns| - 1]);
    }
  }

  /** At every point of every run of any machines, what party `r` has received, followed by what is still
      queued for it, is what it is owed, in order and once, with senders and types; ids grow along the way,
      and no two parties are ever given the same one. */
  lemma EveryRunDelivers<T, M, O>(
    ops: MachineOps<T, M, O>, machines: seq<T>, turns: seq<u16>, sim: Sim<T, M, O>, r: nat, r': nat)
    requires |machines| <= 0xFFFF && Scheduled(ops, machines, turns) == Some(sim)
    requires r < |machines| && r' < |machines|
    ensures Shape(sim) && |sim.parties| == |machines|
    ensures
      var mail := sim.received[r] + sim.queues[r];
      && Contents(mail) == Owed(sim.sends, r)
      && (forall j, k :: 0 <= j < k < |mail| ==> mail[j].id < mail[k].id)
      && forall m, m' :: m in mail && m' in sim.received[r'] + sim.queues[r'] && m.id == m'.id ==> r == r' && m == m'
  {
    RunsDeliver(ops, machines, turns, sim);
    MailIsWhatWasSent(|machines|, sim.sends, r);
    IdsIncrease(|machines|, sim.sends, r);
    forall m, m' | m in sim.received[r] + sim.queues[r] && m' in sim.received[r'] + sim.queues[r'] && m.id == m'.id
      ensures r == r' && m == m'
    {
      IdsAreUnique(|machines|, sim.sends, r, r', m, m');
    }
  }

  // ----- The queues as the source writes them

  class MessagesQueue<M> {
    var queue: seq<seq<Incoming<M>>>
    var nextId: nat

    constructor (n: nat)
      ensures queue == seq(n, _ => []) && nextId == 0
    {
      queue, nextId := seq(n, _ => []), 0;
    }

    method SendMessage(sender: u16, out: Outgoing<M>) returns (error: Option<SimError>)
      modifies this
      ensures error ==
        if Undeliverable(|old(queue)|, out) then Some(UnknownRecipient(sender, out.recipient.recipient)) else None
      ensures nextId == old(nextId) + IdsUsed(|old(queue)|, Sending(sender, out))
      ensures error.None? ==> queue == Posted(old(queue), old(nextId), Sending(sender, out))
      ensures out.recipient.OneParty? ==>
        var q := out.recipient.recipient;
        && nextId == old(nextId) + 1
        && if q < |old(queue)| then
             && error.None?
             && queue == old(queue)[q := old(queue)[q] + [Incoming(old(nextId), sender, P2P, out.msg)]]
           else error == Some(UnknownRecipient(sender, q)) && queue == old(queue)
      ensures out.recipient.AllParties? ==>
        && error.None? && |queue| == |old(queue)|
        && (sender < |queue| ==> queue[sender] == old(queue)[sender] && nextId == old(nextId) + |queue| - 1)
        && forall r :: 0 <= r < |queue| && r != sender ==>
             var id := old(nextId) + if r < sender then r else r - 1;
             queue[r] == old(queue)[r] + [Incoming(id, sender, Broadcast(out.recipient.reliable), out.msg)]
    {
      error := None;
      match out.recipient {
        case AllParties(reliable) =>
          var msgId := nextId;
          for r := 0 to |queue|
            invariant |queue| == |old(queue)| && nextId == old(nextId)
            invariant msgId == nextId + if sender < r then r - 1 else r
            invariant forall x :: 0 <= x < r ==>
              queue[x] == old(queue)[x] + Mail(|queue|, nextId, Sending(sender, out), x)
            invariant forall x :: r <= x < |queue| ==> queue[x] == old(queue)[x]
          {
            if r != sender {
              queue := queue[r := queue[r] + [Incoming(msgId, sender, Broadcast(reliable), out.msg)]];
              msgId := msgId + 1;
            }
          }
          nextId := msgId;
        case OneParty(destination) =>
          var id := nextId;
          nextId := nextId + 1;
          if destination >= |queue| {
            return Some(UnknownRecipient(sender, destination));
          }
          queue := queue[destination := queue[destination] + [Incoming(id, sender, P2P, out.msg)]];
      }
      ghost var s := Sending(sender, out);
      forall x | 0 <= x < |queue| ensures queue[x] == old(queue)[x] + Mail(|queue|, old(nextId), s, x) {
        assert old(queue)[x] + [] == old(queue)[x];
      }
      assert queue == Posted(old(queue), old(nextId), s);
    }

    method RecvNextMsg(recipient: u16) returns (m: Option<Incoming<M>>)
      requires recipient < |queue|
      modifies this`queue
      ensures old(queue)[recipient] == [] ==> m.None? && queue == old(queue)
      ensures old(queue)[recipient] != [] ==>
        && m == Some(old(queue)[recipient][0])
        && queue == old(queue)[recipient := old(queue)[recipient][1..]]
    {
      if queue[recipient] == [] {
        m := None;
      } else {
        m := Some(queue[recipient][0]);
        queue := queue[recipient := queue[recipient][1..]];
      }
    }
  }

  // ----- Carrying out the simulation

  /** Some party is active, and none can move. */
  ghost predicate Stuck<T, M, O>(sim: Sim<T, M, O>)
    requires Shape(sim)
  {
    && (exists i :: 0 <= i < |sim.parties| && sim.parties[i].Active?)
    && forall i :: 0 <= i < |sim.parties| ==> Blocked(sim, i)
  }

  /** `inv` and `rank` show that a simulation cannot go on for ever: every move keeps `inv` and lowers
      `rank`, and as long as some party is active, some party can move. */
  ghost predicate Progresses<T(!new), M(!new), O(!new)>(
    ops: MachineOps<T, M, O>, inv: Sim<T, M, O> -> bool, rank: Sim<T, M, O> -> nat)
  {
    && (forall sim :: inv(sim) ==> Shape(sim) && !Stuck(sim))
    && forall sim, i: u16 :: inv(sim) && i < |sim.parties| && !Blocked(sim, i) ==>
      var t := TakeTurn(ops, sim, i);
      !t.Failed? ==> inv(t.sim) && rank(t.sim) < rank(sim)
  }

  function ActiveCount<T, O>(parties: seq<PartyState<T, O>>): nat {
    if parties == [] then 0
    else ActiveCount(parties[..|parties| - 1]) + if parties[|parties| - 1].Active? then 1 else 0
  }

  lemma {:induction false} ActiveCountUpdate<T, O>(parties: seq<PartyState<T, O>>, i: nat, p: PartyState<T, O>)
    requires i < |parties| && parties[i].Active?
    ensures ActiveCount(parties[i := p]) == ActiveCount(parties) - if p.Active? then 0 else 1
  {
    var last := |parties| - 1;
    if i < last {
      ActiveCountUpdate(parties[..last], i, p);
      assert parties[i := p][..last] == parties[..last][i := p];
    } else {
      assert parties[i := p][..last] == parties[..last];
    }
  }

  lemma {:induction false} ActiveCountZero<T, O>(parties: seq<PartyState<T, O>>)
    ensures ActiveCount(parties) == 0 <==> forall i :: 0 <= i < |parties| ==> parties[i].Finished?
    ensures (forall i :: 0 <= i < |parties| ==> parties[i].Active?) ==> ActiveCount(parties) == |parties|
  {
    if parties != [] {
      ActiveCountZero(parties[..|parties| - 1]);
    }
  }

  class Simulator<T(!new), M(!new), O(!new)> {
    const ops: MachineOps<T, M, O>
    const queue: MessagesQueue<M>
    var parties: seq<PartyState<T, O>>
    var partiesLeft: nat
    ghost var sends: seq<Sending<M>>
    ghost var received: seq<seq<Incoming<M>>>

    ghost function View(): Sim<T, M, O>
      reads this, queue
    {
      Sim(parties, queue.queue, queue.nextId, sends, received)
    }

    ghost predicate Valid()
      reads this, queue
    {
      Shape(View()) && partiesLeft == ActiveCount(parties)
    }

    constructor (ops: MachineOps<T, M, O>, machines: seq<T>)
      requires |machines| <= 0xFFFF
      ensures Valid() && View() == Initial(machines) && this.ops == ops && fresh(queue)
    {
      this.ops := ops;
      parties := seq(|machines|, i requires 0 <= i < |machines| => Active(machines[i], false));
      queue := new MessagesQueue<M>(|machines|);
      partiesLeft := |machines|;
      sends, received := [], seq(|machines|, _ => []);
      new;
      ActiveCountZero(parties);
    }

    /** One iteration of the inner loop: whether to stay with this party, or the error to stop with. */
    method Iterate(i: u16) returns (stay: bool, error: Option<SimError>)
      requires Valid() && i < |parties|
      modifies this, queue
      ensures error.None? ==> Valid()
      ensures
        match TakeTurn(ops, old(View()), i)
        case Failed(e) => error == Some(e)
        case ThisParty(sim) => error.None? && stay && View() == sim
        case NextParty(sim) => error.None? && !stay && View() == sim
    {
      stay, error := false, None;
      if parties[i].Finished? {
        return;
      }
      var machine := parties[i].machine;
      if parties[i].wantsOneMoreMsg {
        var message := queue.RecvNextMsg(i);
        if message.None? {
          return;
        }
        var (machine', ok) := ops.receivedMsg(machine, message.value);
        if !ok {
          return false, Some(SaveIncomingMsg);
        }
        machine := machine';
        received := received[i := received[i] + [message.value]];
      }
      stay, error := Resume(i, machine);
    }

    /** Lets the machine of party `i` proceed, and sees to what it wants. */
    method Resume(i: u16, machine: T) returns (stay: bool, error: Option<SimError>)
      requires Valid() && i < |parties| && parties[i].Active?
      modifies this, queue
      ensures error.None? ==> Valid()
      ensures error.None? ==>
        var (machine', result) := ops.proceed(machine);
        && !result.Error? && stay == !result.Output?
        && parties == old(parties)[i :=
             if result.Output? then Finished(result.output) else Active(machine', result.NeedsOneMoreMessage?)]
      ensures
        match AfterProceed(ops, machine, i, old(View()))
        case Failed(e) => error == Some(e)
        case ThisParty(sim) => error.None? && stay && View() == sim
        case NextParty(sim) => error.None? && !stay && View() == sim
    {
      stay, error := false, None;
      var (machine'', result) := ops.proceed(machine);
      ghost var before := parties;
      match result {
        case SendMsg(out) =>
          error := queue.SendMessage(i, out);
          sends := sends + [Sending(i, out)];
          parties := parties[i := Active(machine'', false)];
          stay := true;
        case NeedsOneMoreMessage =>
          parties := parties[i := Active(machine'', true)];
          stay := true;
        case Output(output) =>
          parties := parties[i := Finished(output)];
          ActiveCountUpdate(before, i, Finished(output));
          partiesLeft := partiesLeft - 1;
        case Yielded =>
          parties := parties[i := Active(machine'', false)];
          stay := true;
        case Error(e) =>
          return false, Some(ExecutionFailed(e));
      }
      if parties[i].Active? {
        ActiveCountUpdate(before, i, parties[i]);
      }
    }

    /** The schedule: party after party, each until it has to wait, and again as long as any is left.
        Given a reason why the simulation progresses, it ends, either with the output of every party or
        with the error of some reachable state. */
    method Run(ghost inv: Sim<T, M, O> -> bool, ghost rank: Sim<T, M, O> -> nat)
      returns (result: Result<seq<O>, SimError>, ghost last: Sim<T, M, O>)
      requires Valid() && inv(View()) && Progresses(ops, inv, rank)
      modifies this, queue
      ensures inv(last) && |last.parties| == |old(parties)|
      ensures match result
        case Ok(outputs) =>
          && |outputs| == |last.parties|
          && forall i :: 0 <= i < |outputs| ==> last.parties[i] == Finished(outputs[i])
        case Err(e) =>
          exists i: u16 :: i < |last.parties| && Shape(last) && TakeTurn(ops, last, i) == Failed(e)
    {
      while partiesLeft > 0
        invariant Valid() && inv(View()) && |parties| == |old(parties)|
        decreases rank(View())
      {
        var error;
        error, last := Pass(inv, rank);
        if error.Some? {
          return Err(error.value), last;
        }
      }
      last := View();
      ActiveCountZero(parties);
      var done := parties;
      result := Ok(seq(|done|, i requires 0 <= i < |done| && done[i].Finished? => done[i].output));
    }

    /** One pass over all parties makes progress. */
    method Pass(ghost inv: Sim<T, M, O> -> bool, ghost rank: Sim<T, M, O> -> nat)
      returns (error: Option<SimError>, ghost last: Sim<T, M, O>)
      requires Valid() && inv(View()) && Progresses(ops, inv, rank) && partiesLeft > 0
      modifies this, queue
      ensures error.None? ==> Valid() && inv(View()) && |parties| == |old(parties)| && rank(View()) < rank(old(View()))
      ensures error.Some? ==>
        && inv(last) && |last.parties| == |old(parties)|
        && exists i: u16 :: i < |last.parties| && Shape(last) && TakeTurn(ops, last, i) == Failed(error.value)
    {
      ghost var start := View();
      ActiveCountZero(parties);
      error, last := None, start;
      for i := 0 to |parties|
        invariant error.None? && Valid() && inv(View()) && |parties| == |old(parties)|
        invariant rank(View()) < rank(start) || (View() == start && forall j :: 0 <= j < i ==> Blocked(start, j))
      {
        var stay := true;
        while stay
          invariant error.None? && Valid() && inv(View()) && |parties| == |old(parties)|
          invariant rank(View()) < rank(start) || (View() == start && forall j :: 0 <= j < i ==> Blocked(start, j))
          invariant !stay ==> rank(View()) < rank(start) || Blocked(start, i)
          decreases rank(View()), stay
        {
          last := View();
          stay, error := Iterate(i);
          if error.Some? {
            return;
          }
        }
      }
    }
  }
}
