/**
 A protocol driven synchronously through the mailbox, against the same protocol run directly on an
 ideal channel.

 The protocol is any resumable program over feeding, flushing, receiving and yielding; sending is
 feeding followed by flushing.
 */
module StateMachine {
  import opened Messages
  import opened Mailboxes

  /** What the program in a given state awaits next. */
  datatype Op<!S, !M, O> =
    | Return(output: O)
    | Feed(out: Outgoing<M>, next: S)
    | Flush(next: S)
    | Receive(resume: Incoming<M> -> S)
    | Yield(next: S)

  /** `rank` bounds how many flushes in a row a state may perform, without which one poll of the program
      need not return. */
  datatype Program<!S, !M, O> = Program(op: S -> Op<S, M, O>, rank: S -> nat)

  ghost predicate Ranked<S(!new), M, O>(prog: Program<S, M, O>) {
    forall s :: prog.op(s).Flush? ==> prog.rank(prog.op(s).next) < prog.rank(s)
  }

  // ----- Direct execution

  /** State reached, messages sent, number of inputs consumed. */
  datatype Direct<S, M> = Direct(s: S, sent: seq<Outgoing<M>>, consumed: nat)

  /** One step; none if the program has returned or awaits an input that is not there. */
  function DirectStep<S, M, O>(
    prog: Program<S, M, O>, d: Direct<S, M>, inputs: seq<Incoming<M>>): Option<Direct<S, M>> {
    match prog.op(d.s)
    case Return(_) => None
    case Feed(out, next) => Some(Direct(next, d.sent + [out], d.consumed))
    case Flush(next) => Some(d.(s := next))
    case Yield(next) => Some(d.(s := next))
    case Receive(resume) =>
      if d.consumed < |inputs| then Some(Direct(resume(inputs[d.consumed]), d.sent, d.consumed + 1)) else None
  }

  function DirectRun<S, M, O>(prog: Program<S, M, O>, s: S, inputs: seq<Incoming<M>>, k: nat): Option<Direct<S, M>> {
    if k == 0 then Some(Direct(s, [], 0))
    else
      var d := DirectRun(prog, s, inputs, k - 1);
      if d.Some? then DirectStep(prog, d.value, inputs) else None
  }

  /** The last message fed within the first `k` steps has not been followed by a flush. */
  ghost predicate Unflushed<S, M, O>(prog: Program<S, M, O>, s: S, inputs: seq<Incoming<M>>, k: nat) {
    && k > 0 && DirectRun(prog, s, inputs, k - 1).Some?
    && match prog.op(DirectRun(prog, s, inputs, k - 1).value.s)
       case Feed(_, _) => true
       case Flush(_) => false
       case _ => Unflushed(prog, s, inputs, k - 1)
  }

  /** Inputs beyond those consumed do not matter. */
  lemma {:induction false} DirectRunExtends<S, M, O>(
    prog: Program<S, M, O>, s: S, inputs: seq<Incoming<M>>, more: seq<Incoming<M>>, k: nat)
    requires DirectRun(prog, s, inputs, k).Some?
    ensures DirectRun(prog, s, inputs + more, k) == DirectRun(prog, s, inputs, k)
    ensures Unflushed(prog, s, inputs + more, k) <==> Unflushed(prog, s, inputs, k)
    ensures DirectRun(prog, s, inputs, k).value.consumed <= |inputs|
  {
    if k > 0 {
      DirectRunExtends(prog, s, inputs, more, k - 1);
    }
  }

  // ----- Execution through the mailbox

  /** The suspended program. `inYield` is the progress of the future behind a yield. */
  datatype Machine<S, M> = Machine(s: S, inYield: bool, box: Mailbox<M>, exhausted: bool)

  datatype ExecutionError = Exhausted | PollingUnknownFuture

  datatype ProceedResult<M, O> =
    | SendMsg(out: Outgoing<M>)
    | NeedsOneMoreMessage
    | Output(output: O)
    | Yielded
    | Error(error: ExecutionError)

  function Wrap<S, M>(s: S): Machine<S, M> {
    Machine(s, false, Empty(), false)
  }

  function Weight<T>(o: Option<T>): nat {
    if o.Some? then 1 else 0
  }

  /** Polls the program until it returns or is pending. */
  function Poll<S(!new), M, O>(prog: Program<S, M, O>, m: Machine<S, M>): (Machine<S, M>, Option<O>)
    requires Ranked(prog)
    decreases m.inYield, Weight(m.box.incoming), 1 - Weight(m.box.outgoing), prog.rank(m.s)
  {
    match prog.op(m.s)
    case Return(o) => (m, Some(o))
    case Feed(out, next) =>
      var (box, ready) := PollFlush(m.box);
      if !ready then (m.(box := box), None)
      else
        var (box', ok) := StartSend(box, out);
        assert ok;
        Poll(prog, m.(s := next, box := box'))
    case Flush(next) =>
      var (box, ready) := PollFlush(m.box);
      if !ready then (m.(box := box), None) else Poll(prog, m.(s := next, box := box))
    case Receive(resume) =>
      var (box, msg) := PollNext(m.box);
      if msg.None? then (m.(box := box), None) else Poll(prog, m.(s := resume(msg.value), box := box))
    case Yield(next) =>
      if m.inYield then Poll(prog, m.(s := next, inYield := false))
      else
        var (box, ok) := PollYield(m.box);
        (m.(box := box, inYield := ok), None)
  }

  function Proceed<S(!new), M, O>(prog: Program<S, M, O>, m: Machine<S, M>): (Machine<S, M>, ProceedResult<M, O>)
    requires Ranked(prog)
  {
    if m.exhausted then (m, Error(Exhausted))
    else
      var (m1, o) := Poll(prog, m);
      if o.Some? then (m1.(exhausted := true), Output(o.value))
      else
        var (box2, out) := TakeOutgoing(m1.box);
        if out.Some? then (m1.(box := box2), SendMsg(out.value))
        else if box2.wantsRecv then (m1.(box := box2), NeedsOneMoreMessage)
        else
          var (box3, y) := ReadYielded(box2);
          (m1.(box := box3), if y then Yielded else Error(PollingUnknownFuture))
  }

  // ----- Refinement

  /** A message in the outgoing slot is one that has not been flushed; such a message has left the slot
      only on behalf of a program that is about to feed or flush. */
  ghost predicate SlotFollows<S, M, O>(prog: Program<S, M, O>, m: Machine<S, M>, unflushed: bool) {
    && (m.box.outgoing.Some? ==> unflushed)
    && (unflushed && m.box.outgoing.None? ==> prog.op(m.s).Feed? || prog.op(m.s).Flush?)
  }

  /** The machine is where direct execution is after `k` steps on the inputs given to it: whatever was
      sent has been emitted or is in the slot, whatever was given has been consumed or is in the slot. */
  ghost predicate Follows<S, M, O>(
    prog: Program<S, M, O>, s0: S, m: Machine<S, M>, emitted: seq<Outgoing<M>>, given: seq<Incoming<M>>, k: nat)
  {
    && (m.box.incoming.Some? ==> given != [] && m.box.incoming.value == given[|given| - 1])
    && DirectRun(prog, s0, given, k) ==
       Some(Direct(m.s, emitted + Held(m.box.outgoing), |given| - Weight(m.box.incoming)))
    && SlotFollows(prog, m, Unflushed(prog, s0, given, k))
  }

  /** Between calls the only request that may be pending is for a message, by a program that awaits one. */
  ghost predicate Quiet<S, M, O>(prog: Program<S, M, O>, m: Machine<S, M>) {
    && !m.box.wantsSend && !m.box.yielded
    && (m.box.wantsRecv ==> m.box.incoming.None? && prog.op(m.s).Receive?)
    && (m.inYield ==> prog.op(m.s).Yield?)
  }

  /** What is left after a poll. A pending program has made exactly one request. */
  ghost predicate Suspended<S, M, O>(prog: Program<S, M, O>, m: Machine<S, M>, o: Option<O>) {
    && MailboxOk(m.box)
    && (m.inYield ==> prog.op(m.s).Yield?)
    && match o
       case Some(output) => prog.op(m.s) == Return(output) && CanSchedule(m.box)
       case None =>
         && !CanSchedule(m.box)
         && (m.box.wantsSend ==> prog.op(m.s).Feed? || prog.op(m.s).Flush?)
         && (m.box.wantsRecv ==> prog.op(m.s).Receive?)
         && (m.box.yielded ==> m.inYield)
  }

  lemma WrapFollows<S, M, O>(prog: Program<S, M, O>, s0: S)
    ensures Quiet(prog, Wrap(s0)) && Follows(prog, s0, Wrap(s0), [], [], 0)
  {
    var none: seq<Outgoing<M>> := [];
    assert none + [] == none;
  }

  lemma FeedFollows<S, M, O>(
    prog: Program<S, M, O>, s0: S, m: Machine<S, M>, emitted: seq<Outgoing<M>>, given: seq<Incoming<M>>, k: nat)
    requires Quiet(prog, m) && Follows(prog, s0, m, emitted, given, k)
    requires prog.op(m.s).Feed? && PollFlush(m.box).1
    ensures
      var m1 := m.(s := prog.op(m.s).next, box := StartSend(m.box, prog.op(m.s).out).0);
      Quiet(prog, m1) && Follows(prog, s0, m1, emitted, given, k + 1)
  {
    assert emitted + [] == emitted;
  }

  lemma FlushFollows<S, M, O>(
    prog: Program<S, M, O>, s0: S, m: Machine<S, M>, emitted: seq<Outgoing<M>>, given: seq<Incoming<M>>, k: nat)
    requires Quiet(prog, m) && Follows(prog, s0, m, emitted, given, k)
    requires prog.op(m.s).Flush? && PollFlush(m.box).1
    ensures
      var m1 := m.(s := prog.op(m.s).next, box := PollFlush(m.box).0);
      Quiet(prog, m1) && Follows(prog, s0, m1, emitted, given, k + 1)
  {
  }

  lemma YieldFollows<S, M, O>(
    prog: Program<S, M, O>, s0: S, m: Machine<S, M>, emitted: seq<Outgoing<M>>, given: seq<Incoming<M>>, k: nat)
    requires Quiet(prog, m) && Follows(prog, s0, m, emitted, given, k)
    requires prog.op(m.s).Yield? && m.inYield
    ensures
      var m1 := m.(s := prog.op(m.s).next, inYield := false);
      Quiet(prog, m1) && Follows(prog, s0, m1, emitted, given, k + 1)
  {
  }

  lemma ReceiveFollows<S, M, O>(
    prog: Program<S, M, O>, s0: S, m: Machine<S, M>, emitted: seq<Outgoing<M>>, given: seq<Incoming<M>>, k: nat)
    requires Quiet(prog, m) && Follows(prog, s0, m, emitted, given, k)
    requires prog.op(m.s).Receive? && PollNext(m.box).1.Some?
    ensures
      var m1 := m.(s := prog.op(m.s).resume(m.box.incoming.value), box := PollNext(m.box).0);
      Quiet(prog, m1) && Follows(prog, s0, m1, emitted, given, k + 1)
  {
  }

  /** Polling follows direct execution. */
  lemma {:induction false} PollFollows<S(!new), M, O>(
    prog: Program<S, M, O>, s0: S, m: Machine<S, M>, emitted: seq<Outgoing<M>>, given: seq<Incoming<M>>, k: nat)
    returns (k': nat)
    requires Ranked(prog) && Quiet(prog, m) && Follows(prog, s0, m, emitted, given, k)
    ensures k <= k'
    ensures Follows(prog, s0, Poll(prog, m).0, emitted, given, k')
    ensures Suspended(prog, Poll(prog, m).0, Poll(prog, m).1)
    ensures Poll(prog, m).0.exhausted == m.exhausted
    ensures k' == k ==> !m.inYield && Poll(prog, m).0.box.outgoing == m.box.outgoing
    ensures m.box.incoming.None? || prog.op(m.s).Receive? ==> Poll(prog, m).0.box.incoming.None?
    decreases m.inYield, Weight(m.box.incoming), 1 - Weight(m.box.outgoing), prog.rank(m.s)
  {
    k' := k;
    match prog.op(m.s)
    case Return(o) =>
    case Feed(out, next) =>
      if PollFlush(m.box).1 {
        FeedFollows(prog, s0, m, emitted, given, k);
        k' := PollFollows(prog, s0, m.(s := next, box := StartSend(m.box, out).0), emitted, given, k + 1);
      }
    case Flush(next) =>
      if PollFlush(m.box).1 {
        FlushFollows(prog, s0, m, emitted, given, k);
        k' := PollFollows(prog, s0, m.(s := next, box := PollFlush(m.box).0), emitted, given, k + 1);
      }
    case Receive(resume) =>
      if PollNext(m.box).1.Some? {
        ReceiveFollows(prog, s0, m, emitted, given, k);
        var m1 := m.(s := resume(m.box.incoming.value), box := PollNext(m.box).0);
        k' := PollFollows(prog, s0, m1, emitted, given, k + 1);
      }
    case Yield(next) =>
      if m.inYield {
        YieldFollows(prog, s0, m, emitted, given, k);
        k' := PollFollows(prog, s0, m.(s := next, inYield := false), emitted, given, k + 1);
      }
  }

  function Sent<M, O>(r: ProceedResult<M, O>): seq<Outgoing<M>> {
    if r.SendMsg? then [r.out] else []
  }

  /** One call of `proceed` on a program that has not returned: it goes on as direct execution would, and
      never fails. If it advanced no step, it handed out a message or entered a yield. */
  lemma ProceedFollows<S(!new), M, O>(
    prog: Program<S, M, O>, s0: S, m: Machine<S, M>, emitted: seq<Outgoing<M>>, given: seq<Incoming<M>>, k: nat)
    returns (k': nat)
    requires Ranked(prog) && Quiet(prog, m) && Follows(prog, s0, m, emitted, given, k) && !m.exhausted
    ensures k <= k'
    ensures
      var (m', r) := Proceed(prog, m);
      && Quiet(prog, m') && Follows(prog, s0, m', emitted + Sent(r), given, k')
      && (m'.exhausted <==> r.Output?)
      && (m.box.incoming.None? || prog.op(m.s).Receive? ==> m'.box.incoming.None?)
      && match r
         case Output(o) => prog.op(m'.s) == Return(o)
         case SendMsg(_) => m'.box.outgoing.None? && (k' == k ==> m.box.outgoing.Some? && !m'.inYield)
         case NeedsOneMoreMessage => prog.op(m'.s).Receive? && m'.box.incoming.None?
         case Yielded => m'.inYield && (k' == k ==> !m.inYield && m'.box.outgoing == m.box.outgoing)
         case Error(_) => false
  {
    k' := PollFollows(prog, s0, m, emitted, given, k);
    var (m1, o) := Poll(prog, m);
    assert m1.box.outgoing.Some? ==> emitted + [m1.box.outgoing.value] + [] == emitted + [m1.box.outgoing.value];
    assert emitted + [] == emitted;
  }

  lemma ReceivedFollows<S, M, O>(
    prog: Program<S, M, O>, s0: S, m: Machine<S, M>, emitted: seq<Outgoing<M>>, given: seq<Incoming<M>>, k: nat,
    msg: Incoming<M>)
    requires Quiet(prog, m) && Follows(prog, s0, m, emitted, given, k) && m.box.incoming.None?
    ensures
      var m' := m.(box := ReceivedMsg(m.box, msg).0);
      Quiet(prog, m') && Follows(prog, s0, m', emitted, given + [msg], k)
  {
    DirectRunExtends(prog, s0, given, [msg], k);
  }

  // ----- Any sequence of calls, including ones the documentation forbids

  datatype DriverCall<M> = CallProceed | CallReceivedMsg(msg: Incoming<M>)

  datatype Driven<S, M, O> = Driven(
    m: Machine<S, M>, emitted: seq<Outgoing<M>>, given: seq<Incoming<M>>, results: seq<ProceedResult<M, O>>)

  function Drive<S(!new), M, O>(prog: Program<S, M, O>, s0: S, calls: seq<DriverCall<M>>): Driven<S, M, O>
    requires Ranked(prog)
  {
    if calls == [] then Driven(Wrap(s0), [], [], [])
    else
      var d := Drive(prog, s0, calls[..|calls| - 1]);
      match calls[|calls| - 1]
      case CallProceed =>
        var (m, r) := Proceed(prog, d.m);
        Driven(m, d.emitted + Sent(r), d.given, d.results + [r])
      case CallReceivedMsg(msg) =>
        var (box, ok) := ReceivedMsg(d.m.box, msg);
        d.(m := d.m.(box := box), given := if ok then d.given + [msg] else d.given)
  }

  ghost predicate ResultsOk<S, M, O>(prog: Program<S, M, O>, d: Driven<S, M, O>) {
    forall r :: r in d.results ==>
      match r
      case Output(o) => d.m.exhausted && prog.op(d.m.s) == Return(o)
      case Error(e) => d.m.exhausted && e == Exhausted
      case _ => true
  }

  ghost predicate HasOutput<M, O>(results: seq<ProceedResult<M, O>>) {
    exists j :: 0 <= j < |results| && results[j].Output?
  }

  /** After an output, there is nothing but the error of proceeding after the end. */
  ghost predicate OutputIsTheEnd<M, O>(results: seq<ProceedResult<M, O>>) {
    forall j, k :: 0 <= j < k < |results| && results[j].Output? ==> results[k] == Error(Exhausted)
  }

  lemma NextResult<M, O>(results: seq<ProceedResult<M, O>>, r: ProceedResult<M, O>)
    requires OutputIsTheEnd(results) && (HasOutput(results) ==> r == Error(Exhausted))
    ensures OutputIsTheEnd(results + [r])
    ensures HasOutput(results + [r]) <==> HasOutput(results) || r.Output?
  {
    var results' := results + [r];
    if r.Output? {
      assert results'[|results|].Output?;
    }
    if HasOutput(results) {
      var j :| 0 <= j < |results| && results[j].Output?;
      assert results'[j].Output?;
    }
  }

  /** What is known of a machine however it has been driven, direct execution being `k` steps on. */
  ghost predicate Refines<S, M, O>(prog: Program<S, M, O>, s0: S, d: Driven<S, M, O>, k: nat) {
    && Quiet(prog, d.m) && Follows(prog, s0, d.m, d.emitted, d.given, k)
    && ResultsOk(prog, d) && OutputIsTheEnd(d.results) && (d.m.exhausted <==> HasOutput(d.results))
    && (d.m.exhausted ==> prog.op(d.m.s).Return? && (d.m.box.outgoing.Some? <==> Unflushed(prog, s0, d.given, k)))
  }

  lemma ProceedRefines<S(!new), M, O>(prog: Program<S, M, O>, s0: S, d: Driven<S, M, O>, k: nat) returns (k': nat)
    requires Ranked(prog) && Refines(prog, s0, d, k) && !d.m.exhausted
    ensures
      var (m, r) := Proceed(prog, d.m);
      Refines(prog, s0, Driven(m, d.emitted + Sent(r), d.given, d.results + [r]), k')
  {
    NextResult(d.results, Proceed(prog, d.m).1);
    k' := ProceedFollows(prog, s0, d.m, d.emitted, d.given, k);
  }

  lemma ProceedAfterTheEnd<S(!new), M, O>(prog: Program<S, M, O>, s0: S, d: Driven<S, M, O>, k: nat)
    requires Ranked(prog) && Refines(prog, s0, d, k) && d.m.exhausted
    ensures
      var (m, r) := Proceed(prog, d.m);
      Refines(prog, s0, Driven(m, d.emitted + Sent(r), d.given, d.results + [r]), k)
  {
    NextResult(d.results, Proceed(prog, d.m).1);
    assert d.emitted + [] == d.emitted;
  }

  lemma ReceivedRefines<S(!new), M, O>(prog: Program<S, M, O>, s0: S, d: Driven<S, M, O>, k: nat, msg: Incoming<M>)
    requires Refines(prog, s0, d, k)
    ensures
      var (box, ok) := ReceivedMsg(d.m.box, msg);
      Refines(prog, s0, d.(m := d.m.(box := box), given := if ok then d.given + [msg] else d.given), k)
  {
    if d.m.box.incoming.None? {
      ReceivedFollows(prog, s0, d.m, d.emitted, d.given, k, msg);
      DirectRunExtends(prog, s0, d.given, [msg], k);
    }
  }

  /** Refinement: however a machine is driven, it stands where direct execution of the program on the
      messages given to it stands after some number of steps. It has emitted what that execution sent,
      in order, but for the one message that may wait in the slot; it has consumed the same messages;
      any output is the output of direct execution; and the only error is proceeding after the end, which
      is all that follows an output.
      Once the program has returned, a message is left in the slot if and only if it was not flushed. */
  lemma {:induction false} MachineRefinesDirectRun<S(!new), M, O>(
    prog: Program<S, M, O>, s0: S, calls: seq<DriverCall<M>>)
    returns (k: nat)
    requires Ranked(prog)
    ensures Refines(prog, s0, Drive(prog, s0, calls), k)
  {
    if calls == [] {
      k := 0;
      WrapFollows(prog, s0);
    } else {
      k := MachineRefinesDirectRun(prog, s0, calls[..|calls| - 1]);
      var d := Drive(prog, s0, calls[..|calls| - 1]);
      match calls[|calls| - 1]
      case CallProceed =>
        if d.m.exhausted {
          ProceedAfterTheEnd(prog, s0, d, k);
        } else {
          k := ProceedRefines(prog, s0, d, k);
        }
      case CallReceivedMsg(msg) =>
        ReceivedRefines(prog, s0, d, k, msg);
    }
  }

  /** A program that feeds a message, does not flush it, and returns. */
  function FeedAndReturn<M, O>(out: Outgoing<M>, output: O): Program<bool, M, O> {
    Program(fed => if fed then Return(output) else Feed(out, true), _ => 0)
  }

  /** Such a message is sent by direct execution and never emitted, however the machine is driven: the
      adapter hands out a message only on behalf of a program that awaits its departure. */
  lemma {:induction false} FedAndNeverEmitted<M, O>(out: Outgoing<M>, output: O, calls: seq<DriverCall<M>>)
    ensures Ranked(FeedAndReturn(out, output))
    ensures
      var prog, d := FeedAndReturn(out, output), Drive(FeedAndReturn(out, output), false, calls);
      && DirectRun(prog, false, [], 1) == Some(Direct(true, [out], 0)) && prog.op(true) == Return(output)
      && d.emitted == [] && !d.m.inYield && CanSchedule(d.m.box)
      && if CallProceed in calls then d.m.exhausted && d.m.box.outgoing == Some(out) && Output(output) in d.results
         else !d.m.exhausted && !d.m.s && d.m.box.outgoing.None?
  {
    var prog := FeedAndReturn(out, output);
    assert DirectRun(prog, false, [], 0) == Some(Direct(false, [], 0));
    var none: seq<Outgoing<M>> := [];
    assert none + [out] == [out];
    if calls != [] {
      var init, last := calls[..|calls| - 1], calls[|calls| - 1];
      assert calls == init + [last];
      FedAndNeverEmitted(out, output, init);
      var d := Drive(prog, false, init);
      if last.CallProceed? && !d.m.exhausted {
        var fed := d.m.(s := true, box := d.m.box.(outgoing := Some(out)));
        assert Poll(prog, fed) == (fed, Some(output));
        assert Poll(prog, d.m) == Poll(prog, fed);
      }
    }
  }

  // ----- The documented way to drive a machine

  /** A direct run that has returned cannot be continued, so its length is determined. */
  lemma {:induction false} DirectRunStops<S, M, O>(
    prog: Program<S, M, O>, s: S, inputs: seq<Incoming<M>>, k: nat, k': nat)
    requires k < k' && DirectRun(prog, s, inputs, k').Some?
    ensures DirectRun(prog, s, inputs, k).Some? && DirectStep(prog, DirectRun(prog, s, inputs, k).value, inputs).Some?
  {
    if k + 1 < k' {
      DirectRunStops(prog, s, inputs, k, k' - 1);
    }
  }

  /** A run on part of the inputs does not outlast the run on all of them. */
  lemma NotBeyond<S, M, O>(prog: Program<S, M, O>, s0: S, inputs: seq<Incoming<M>>, given: nat, k: nat, steps: nat)
    requires given <= |inputs| && DirectRun(prog, s0, inputs[..given], k).Some?
    requires DirectRun(prog, s0, inputs, steps).Some? && prog.op(DirectRun(prog, s0, inputs, steps).value.s).Return?
    ensures DirectRun(prog, s0, inputs, k) == DirectRun(prog, s0, inputs[..given], k)
    ensures Unflushed(prog, s0, inputs, k) <==> Unflushed(prog, s0, inputs[..given], k)
    ensures k <= steps
  {
    assert inputs[..given] + inputs[given..] == inputs;
    DirectRunExtends(prog, s0, inputs[..given], inputs[given..], k);
    if steps < k {
      DirectRunStops(prog, s0, inputs, steps, k);
    }
  }

  /** A run that awaits a message it has not been given yet finds one among the inputs. */
  lemma MoreInputs<S, M, O>(prog: Program<S, M, O>, s0: S, inputs: seq<Incoming<M>>, given: nat, k: nat, steps: nat)
    requires given <= |inputs| && k <= steps && DirectRun(prog, s0, inputs[..given], k).Some?
    requires DirectRun(prog, s0, inputs, steps).Some? && prog.op(DirectRun(prog, s0, inputs, steps).value.s).Return?
    requires
      var d := DirectRun(prog, s0, inputs[..given], k).value;
      prog.op(d.s).Receive? && d.consumed == given
    ensures given < |inputs|
  {
    NotBeyond(prog, s0, inputs, given, k, steps);
    if k < steps {
      DirectRunStops(prog, s0, inputs, k, steps);
    }
  }

  lemma NextInputFollows<S, M, O>(
    prog: Program<S, M, O>, s0: S, m: Machine<S, M>, sent: seq<Outgoing<M>>, inputs: seq<Incoming<M>>,
    given: nat, k: nat, steps: nat)
    requires given <= |inputs| && k <= steps && Quiet(prog, m) && Follows(prog, s0, m, sent, inputs[..given], k)
    requires DirectRun(prog, s0, inputs, steps).Some? && prog.op(DirectRun(prog, s0, inputs, steps).value.s).Return?
    requires prog.op(m.s).Receive? && m.box.incoming.None?
    ensures given < |inputs|
    ensures
      var m' := m.(box := ReceivedMsg(m.box, inputs[given]).0);
      Quiet(prog, m') && Follows(prog, s0, m', sent, inputs[..given + 1], k)
  {
    MoreInputs(prog, s0, inputs, given, k, steps);
    ReceivedFollows(prog, s0, m, sent, inputs[..given], k, inputs[given]);
    assert inputs[..given + 1] == inputs[..given] + [inputs[given]];
  }

  lemma ReturnsTogether<S, M, O>(
    prog: Program<S, M, O>, s0: S, inputs: seq<Incoming<M>>, given: nat, k: nat, steps: nat)
    requires given <= |inputs| && DirectRun(prog, s0, inputs[..given], k).Some?
    requires prog.op(DirectRun(prog, s0, inputs[..given], k).value.s).Return?
    requires DirectRun(prog, s0, inputs, steps).Some? && prog.op(DirectRun(prog, s0, inputs, steps).value.s).Return?
    ensures k == steps && DirectRun(prog, s0, inputs, steps) == DirectRun(prog, s0, inputs[..given], k)
    ensures Unflushed(prog, s0, inputs, steps) <==> Unflushed(prog, s0, inputs[..given], k)
  {
    NotBeyond(prog, s0, inputs, given, k, steps);
    if k < steps {
      DirectRunStops(prog, s0, inputs, k, steps);
    }
  }

  /** If direct execution on `inputs` returns, then so does the loop of the documentation, with the same
      output, having consumed the same inputs and sent the same messages in the same order; the last
      message stays behind if and only if it was fed and never flushed. */
  method RunToCompletion<S(!new), M, O>(prog: Program<S, M, O>, s0: S, inputs: seq<Incoming<M>>, ghost steps: nat)
    returns (output: O, sent: seq<Outgoing<M>>, unsent: Option<Outgoing<M>>, given: nat)
    requires Ranked(prog)
    requires DirectRun(prog, s0, inputs, steps).Some? && prog.op(DirectRun(prog, s0, inputs, steps).value.s).Return?
    ensures
      var d := DirectRun(prog, s0, inputs, steps).value;
      && prog.op(d.s) == Return(output) && given == d.consumed
      && sent + Held(unsent) == d.sent && (unsent.Some? <==> Unflushed(prog, s0, inputs, steps))
  {
    var m: Machine<S, M> := Wrap(s0);
    ghost var k := 0;
    given, sent := 0, [];
    WrapFollows(prog, s0);
    while true
      invariant given <= |inputs| && k <= steps && !m.exhausted
      invariant Quiet(prog, m) && Follows(prog, s0, m, sent, inputs[..given], k)
      invariant m.box.incoming.Some? ==> prog.op(m.s).Receive?
      decreases steps - k, |inputs| - given, Weight(m.box.outgoing), !m.inYield
    {
      ghost var k' := ProceedFollows(prog, s0, m, sent, inputs[..given], k);
      NotBeyond(prog, s0, inputs, given, k', steps);
      var (m', r) := Proceed(prog, m);
      m, k := m', k';
      sent := sent + Sent(r);
      match r {
        case SendMsg(_) =>
        case Yielded =>
        case Output(o) =>
          output := o;
          unsent := m.box.outgoing;
          ReturnsTogether(prog, s0, inputs, given, k, steps);
          return;
        case NeedsOneMoreMessage =>
          NextInputFollows(prog, s0, m, sent, inputs, given, k, steps);
          m := m.(box := ReceivedMsg(m.box, inputs[given]).0);
          given := given + 1;
        case Error(_) =>
          assert false;
          return;
      }
    }
  }

  // ----- The state machine as the source writes it

  class StateMachineImpl<S(!new), M, O> {
    const prog: Program<S, M, O>
    const shared: SharedState<M>
    var exhausted: bool
    var s: S
    var inYield: bool

    ghost function View(): Machine<S, M>
      reads this, shared
    {
      Machine(s, inYield, shared.View(), exhausted)
    }

    constructor (prog: Program<S, M, O>, s: S)
      ensures View() == Wrap(s) && this.prog == prog && fresh(shared)
    {
      this.prog, this.s, exhausted, inYield := prog, s, false, false;
      shared := new SharedState<M>();
    }

    /** One poll of the future. Feeding never finds the sink not ready. */
    method PollFuture() returns (o: Option<O>)
      requires Ranked(prog)
      modifies this, shared
      ensures (View(), o) == Poll(prog, old(View()))
    {
      while true
        invariant Poll(prog, View()) == old(Poll(prog, View()))
        decreases inYield, Weight(shared.incomingMsg), 1 - Weight(shared.outgoingMsg), prog.rank(s)
      {
        match prog.op(s) {
          case Return(output) =>
            return Some(output);
          case Feed(out, next) =>
            var ready := shared.ProtocolFlushes();
            if !ready {
              return None;
            }
            var ok := shared.ProtocolSavesMsg(out);
            assert ok;
            s := next;
          case Flush(next) =>
            var ready := shared.ProtocolFlushes();
            if !ready {
              return None;
            }
            s := next;
          case Receive(resume) =>
            var msg := shared.ProtocolNeedsOneMoreMsg();
            if msg.None? {
              return None;
            }
            s := resume(msg.value);
          case Yield(next) =>
            if !inYield {
              inYield := shared.ProtocolYields();
              return None;
            }
            inYield := false;
            s := next;
        }
      }
    }

    method ProceedOnce() returns (r: ProceedResult<M, O>)
      requires Ranked(prog)
      modifies this, shared
      ensures (View(), r) == Proceed(prog, old(View()))
    {
      if exhausted {
        return Error(Exhausted);
      }
      var o := PollFuture();
      if o.Some? {
        exhausted := true;
        return Output(o.value);
      }
      var out := shared.ExecutorTakesOutgoingMsg();
      if out.Some? {
        return SendMsg(out.value);
      }
      if shared.wantsRecvMsg {
        return NeedsOneMoreMessage;
      }
      var y := shared.ExecutorReadsAndResetsYieldedFlag();
      r := if y then Yielded else Error(PollingUnknownFuture);
    }
  }
}
