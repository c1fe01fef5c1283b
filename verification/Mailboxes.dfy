/**
 The state shared between a protocol and the executor that drives it synchronously: one slot for an
 incoming message, one for an outgoing message, and three requests.
 */
module Mailboxes {
  import opened Messages

  datatype Mailbox<M> = Mailbox(
    incoming: Option<Incoming<M>>,
    outgoing: Option<Outgoing<M>>,
    wantsRecv: bool,
    wantsSend: bool,
    yielded: bool)

  function Empty<M>(): Mailbox<M> {
    Mailbox(None, None, false, false, false)
  }

  /** Only one thing may be asked of the executor at a time. */
  predicate CanSchedule<M>(s: Mailbox<M>) {
    !s.wantsRecv && !s.wantsSend && !s.yielded
  }

  // ----- Called by the protocol

  /** `poll_ready` and `poll_flush`: the slot is empty, or the executor is asked to empty it. */
  function PollFlush<M>(s: Mailbox<M>): (Mailbox<M>, bool) {
    if !CanSchedule(s) then (s, false)
    else if s.outgoing.Some? then (s.(wantsSend := true), false)
    else (s, true)
  }

  /** `start_send`, which fails when the slot is occupied. */
  function StartSend<M>(s: Mailbox<M>, m: Outgoing<M>): (Mailbox<M>, bool) {
    if s.outgoing.Some? then (s, false) else (s.(outgoing := Some(m)), true)
  }

  function PollNext<M>(s: Mailbox<M>): (Mailbox<M>, Option<Incoming<M>>) {
    if !CanSchedule(s) then (s, None)
    else if s.incoming.Some? then (s.(incoming := None), s.incoming)
    else (s.(wantsRecv := true), None)
  }

  function PollYield<M>(s: Mailbox<M>): (Mailbox<M>, bool) {
    if !CanSchedule(s) then (s, false) else (s.(yielded := true), true)
  }

  // ----- Called by the executor

  function TakeOutgoing<M>(s: Mailbox<M>): (Mailbox<M>, Option<Outgoing<M>>) {
    if s.wantsSend then (s.(wantsSend := false, outgoing := None), s.outgoing) else (s, None)
  }

  function ReadYielded<M>(s: Mailbox<M>): (Mailbox<M>, bool) {
    (s.(yielded := false), s.yielded)
  }

  function ReceivedMsg<M>(s: Mailbox<M>, m: Incoming<M>): (Mailbox<M>, bool) {
    if s.incoming.Some? then (s, false) else (s.(incoming := Some(m), wantsRecv := false), true)
  }

  // ----- The invariant of all sequences of calls

  predicate MailboxOk<M>(s: Mailbox<M>) {
    && !(s.wantsRecv && s.wantsSend) && !(s.wantsRecv && s.yielded) && !(s.wantsSend && s.yielded)
    && (s.wantsSend ==> s.outgoing.Some?)
    && (s.wantsRecv ==> s.incoming.None?)
  }

  function Held<T>(o: Option<T>): seq<T> {
    if o.Some? then [o.value] else []
  }

  datatype Call<M> =
    | DoFlush
    | DoSend(out: Outgoing<M>)
    | DoPoll
    | DoYield
    | DoTake
    | DoReadYield
    | DoReceive(m: Incoming<M>)

  /** A mailbox and the messages that went through it: accepted from the protocol, emitted to the
      executor, accepted from the executor, picked up by the protocol. */
  datatype Log<M> = Log(
    box: Mailbox<M>,
    accepted: seq<Outgoing<M>>,
    emitted: seq<Outgoing<M>>,
    delivered: seq<Incoming<M>>,
    picked: seq<Incoming<M>>)

  function OneCall<M>(l: Log<M>, c: Call<M>): Log<M> {
    match c
    case DoFlush => l.(box := PollFlush(l.box).0)
    case DoSend(out) =>
      var (box, ok) := StartSend(l.box, out);
      l.(box := box, accepted := if ok then l.accepted + [out] else l.accepted)
    case DoPoll =>
      var (box, m) := PollNext(l.box);
      l.(box := box, picked := l.picked + Held(m))
    case DoYield => l.(box := PollYield(l.box).0)
    case DoTake =>
      var (box, out) := TakeOutgoing(l.box);
      l.(box := box, emitted := l.emitted + Held(out))
    case DoReadYield => l.(box := ReadYielded(l.box).0)
    case DoReceive(m) =>
      var (box, ok) := ReceivedMsg(l.box, m);
      l.(box := box, delivered := if ok then l.delivered + [m] else l.delivered)
  }

  function Calls<M>(calls: seq<Call<M>>): Log<M> {
    if calls == [] then Log(Empty(), [], [], [], [])
    else OneCall(Calls(calls[..|calls| - 1]), calls[|calls| - 1])
  }

  /** Requests exclude each other, a send request comes with a message, a receive request with an empty
      slot, and both directions are first in, first out, losing and duplicating nothing. */
  ghost predicate LogOk<M>(l: Log<M>) {
    && MailboxOk(l.box)
    && l.emitted + Held(l.box.outgoing) == l.accepted
    && l.picked + Held(l.box.incoming) == l.delivered
  }

  lemma OneCallKeeps<M>(l: Log<M>, c: Call<M>)
    requires LogOk(l)
    ensures LogOk(OneCall(l, c))
  {
    assert l.emitted + [] == l.emitted && l.picked + [] == l.picked;
    match c
    case DoTake =>
      assert l.emitted + Held(TakeOutgoing(l.box).1) + [] == l.emitted + Held(TakeOutgoing(l.box).1);
    case DoPoll =>
      assert l.picked + Held(PollNext(l.box).1) + [] == l.picked + Held(PollNext(l.box).1);
    case _ =>
  }

  /** The mailbox invariant holds whatever the two sides call, in whatever order. */
  lemma {:induction false} MailboxIsFifo<M>(calls: seq<Call<M>>)
    ensures LogOk(Calls(calls))
  {
    if calls != [] {
      MailboxIsFifo(calls[..|calls| - 1]);
      OneCallKeeps(Calls(calls[..|calls| - 1]), calls[|calls| - 1]);
    }
  }

  // ----- The mailbox as the source writes it

  class SharedState<M> {
    var incomingMsg: Option<Incoming<M>>
    var outgoingMsg: Option<Outgoing<M>>
    var wantsRecvMsg: bool
    var wantsSendMsg: bool
    var yielded: bool

    ghost function View(): Mailbox<M>
      reads this
    {
      Mailbox(incomingMsg, outgoingMsg, wantsRecvMsg, wantsSendMsg, yielded)
    }

    constructor ()
      ensures View() == Empty()
    {
      incomingMsg, outgoingMsg := None, None;
      wantsRecvMsg, wantsSendMsg, yielded := false, false, false;
    }

    method ProtocolFlushes() returns (ready: bool)
      modifies this
      ensures (View(), ready) == PollFlush(old(View()))
    {
      if wantsRecvMsg || wantsSendMsg || yielded {
        return false;
      }
      if outgoingMsg.Some? {
        wantsSendMsg := true;
        return false;
      }
      return true;
    }

    method ProtocolSavesMsg(msg: Outgoing<M>) returns (ok: bool)
      modifies this
      ensures (View(), ok) == StartSend(old(View()), msg)
    {
      if outgoingMsg.Some? {
        return false;
      }
      outgoingMsg := Some(msg);
      return true;
    }

    method ProtocolNeedsOneMoreMsg() returns (msg: Option<Incoming<M>>)
      modifies this
      ensures (View(), msg) == PollNext(old(View()))
    {
      if wantsRecvMsg || wantsSendMsg || yielded {
        return None;
      }
      msg := incomingMsg;
      incomingMsg := None;
      if msg.None? {
        wantsRecvMsg := true;
      }
    }

    method ProtocolYields() returns (ok: bool)
      modifies this
      ensures (View(), ok) == PollYield(old(View()))
    {
      if wantsRecvMsg || wantsSendMsg || yielded {
        return false;
      }
      yielded := true;
      return true;
    }

    method ExecutorTakesOutgoingMsg() returns (msg: Option<Outgoing<M>>)
      modifies this
      ensures (View(), msg) == TakeOutgoing(old(View()))
    {
      if wantsSendMsg {
        wantsSendMsg := false;
        msg := outgoingMsg;
        outgoingMsg := None;
      } else {
        msg := None;
      }
    }

    method ExecutorReadsAndResetsYieldedFlag() returns (y: bool)
      modifies this
      ensures (View(), y) == ReadYielded(old(View()))
    {
      y := yielded;
      yielded := false;
    }

    method ExecutorReceivedMsg(msg: Incoming<M>) returns (ok: bool)
      modifies this
      ensures (View(), ok) == ReceivedMsg(old(View()), msg)
    {
      if incomingMsg.Some? {
        return false;
      }
      incomingMsg := Some(msg);
      wantsRecvMsg := false;
      return true;
    }
  }
}
