/**
 The engine that adds echo rounds to a protocol: what it hands to the delivery layer, and how it
 completes a round that requires reliable broadcast.
 */
module EchoEngine {
  import opened Messages
  import opened EchoMessages
  import opened SimpleStore
  import opened EchoStore

  /** Main messages sent so far in each reliable round that is registered and not yet completed. */
  type SentMsgs<MP> = map<u16, Option<MP>>

  datatype OnSend<MP> = Accepted(sent: SentMsgs<MP>, outgoing: Outgoing<MP>) | Refused(reason: Reason)

  function OnSending<MP>(roundOf: MP -> u16, sent: SentMsgs<MP>, out: Outgoing<MP>): OnSend<MP> {
    var r := roundOf(out.msg);
    if r in sent then
      if !out.recipient.IsReliableBroadcast() then Refused(SentNonReliableMsgInReliableRound(out.recipient, r))
      else if sent[r].Some? then Refused(SendTwice)
      else Accepted(sent[r := Some(out.msg)], out.(recipient := AllParties(false)))
    else if out.recipient.IsReliableBroadcast() then Refused(SentReliableMsgInNonReliableRound(r))
    else Accepted(sent, out)
  }

  /** The main messages of round `r` among those handed to the delivery layer. */
  ghost function MainsOf<MP, H>(
    roundOf: MP -> u16, outbox: seq<Outgoing<EchoMsg<MP, H>>>, r: u16): seq<Outgoing<EchoMsg<MP, H>>> {
    if outbox == [] then []
    else
      var init, last := outbox[..|outbox| - 1], outbox[|outbox| - 1];
      MainsOf(roundOf, init, r) + if last.msg.Main? && roundOf(last.msg.msg) == r then [last] else []
  }

  lemma MainsOfSnoc<MP, H>(
    roundOf: MP -> u16, outbox: seq<Outgoing<EchoMsg<MP, H>>>, out: Outgoing<EchoMsg<MP, H>>, r: u16)
    ensures MainsOf(roundOf, outbox + [out], r) ==
      MainsOf(roundOf, outbox, r) + if out.msg.Main? && roundOf(out.msg.msg) == r then [out] else []
  {
    assert (outbox + [out])[..|outbox|] == outbox;
  }

  lemma {:induction false} MainsOfRound<MP, H>(roundOf: MP -> u16, outbox: seq<Outgoing<EchoMsg<MP, H>>>, r: u16)
    ensures forall out :: out in MainsOf(roundOf, outbox, r) ==> out.msg.Main? && roundOf(out.msg.msg) == r
  {
    if outbox != [] {
      MainsOfRound(roundOf, outbox[..|outbox| - 1], r);
    }
  }

  datatype CompleteRoundError<+E> = CompleteRound(error: E) | InEcho(reason: Reason)

  /** From the main round to the echo round: the message on record is converted back, goes into its slot,
      and the vector is hashed. */
  function LeaveMain<MP, R, O, H>(
    codec: Codec<MP, R>, hash: Hash<MP, H>, sent: SentMsgs<MP>, main: NeedsOwnMsg<MP, O>)
    : Result<(seq<Option<MP>>, ReliabilityCheck<O, H>), Reason>
  {
    var record := if codec.round in sent then sent[codec.round] else None;
    var mine := if record.Some? then codec.fromProto(record.value) else None;
    if record.Some? && mine.None? then Err(SentMsgFromProto)
    else
      match WithMyMsg(codec, hash, main, mine)
      case Err(reason) => Err(reason)
      case Ok(check) => Ok((Vector(codec, main, mine), check))
  }

  /** From the echo round to the output. */
  function LeaveEcho<O, H(==), E>(check: ReliabilityCheck<O, H>, echoOutput: Result<RoundMsgs<H>, E>)
    : Result<O, CompleteRoundError<E>>
  {
    match echoOutput
    case Err(e) => Err(CompleteRound(e))
    case Ok(echoes) =>
      match WithEchoOutput(check, echoes)
      case Err(reason) => Err(InEcho(reason))
      case Ok(output) => Ok(output)
  }

  /** What completing a reliable round returns, given the outcomes of its main and echo rounds. */
  function ReliableOutcome<MP, R, O, H(==), E>(
    codec: Codec<MP, R>, hash: Hash<MP, H>, sent: SentMsgs<MP>,
    mainOutput: Result<NeedsOwnMsg<MP, O>, E>, echoOutput: Result<RoundMsgs<H>, E>): Result<O, CompleteRoundError<E>>
  {
    match mainOutput
    case Err(e) => Err(CompleteRound(e))
    case Ok(main) =>
      match LeaveMain(codec, hash, sent, main)
      case Err(reason) => Err(InEcho(reason))
      case Ok(left) => LeaveEcho(left.1, echoOutput)
  }

  class WithEchoBroadcast<MP(!new), H(==, !new)> {
    const i: u16
    const n: u16
    const roundOf: MP -> u16
    const hash: Hash<MP, H>
    var sentReliableMsgs: SentMsgs<MP>
    /** Everything handed to the wrapped engine to be sent. */
    var outbox: seq<Outgoing<EchoMsg<MP, H>>>

    /** Nothing flagged reliable ever leaves, and in a reliable round under way at most one main message
        has left, addressed to everyone: the one on record. */
    ghost predicate Valid()
      reads this
    {
      && (forall out :: out in outbox ==> !out.recipient.IsReliableBroadcast())
      && forall r :: r in sentReliableMsgs ==> MainsOf(roundOf, outbox, r) == OnRecord(sentReliableMsgs[r])
    }

    static ghost function OnRecord(sent: Option<MP>): seq<Outgoing<EchoMsg<MP, H>>> {
      if sent.Some? then [Outgoing(AllParties(false), Main(sent.value))] else []
    }

    constructor (i: u16, n: u16, roundOf: MP -> u16, hash: Hash<MP, H>)
      ensures Valid() && sentReliableMsgs == map[] && outbox == []
      ensures this.i == i && this.n == n && this.roundOf == roundOf && this.hash == hash
    {
      this.i, this.n, this.roundOf, this.hash := i, n, roundOf, hash;
      sentReliableMsgs, outbox := map[], [];
    }

    /** Rounds are registered before anything can be sent. */
    method AddRound(round: u16, reliableBroadcastRequired: bool)
      requires Valid() && outbox == []
      modifies this`sentReliableMsgs
      ensures Valid()
      ensures sentReliableMsgs ==
        if reliableBroadcastRequired then old(sentReliableMsgs)[round := None] else old(sentReliableMsgs)
    {
      if reliableBroadcastRequired {
        sentReliableMsgs := sentReliableMsgs[round := None];
      }
    }

    /** A message is let through if it is the first of a reliable round and flagged reliable, in which case
        it goes to everyone without the flag, or if it is neither of a reliable round nor flagged, in which
        case it goes where it was to go. */
    method Send(out: Outgoing<MP>) returns (refused: Option<Reason>)
      requires Valid()
      modifies this
      ensures Valid()
      ensures match OnSending(roundOf, old(sentReliableMsgs), out)
        case Refused(reason) => refused == Some(reason) && unchanged(this)
        case Accepted(sent, o) =>
          && refused.None? && sentReliableMsgs == sent
          && outbox == old(outbox) + [Outgoing(o.recipient, Main(o.msg))]
      ensures
        var r, reliable := roundOf(out.msg), out.recipient == AllParties(true);
        refused.None? <==>
          if r in old(sentReliableMsgs) then reliable && old(sentReliableMsgs)[r].None? else !reliable
      ensures refused.None? && out.recipient == AllParties(true) ==>
        && outbox == old(outbox) + [Outgoing(AllParties(false), Main(out.msg))]
        && sentReliableMsgs == old(sentReliableMsgs)[roundOf(out.msg) := Some(out.msg)]
      ensures refused.None? && out.recipient != AllParties(true) ==>
        && outbox == old(outbox) + [Outgoing(out.recipient, Main(out.msg))]
        && sentReliableMsgs == old(sentReliableMsgs)
      ensures refused.Some? ==>
        var r := roundOf(out.msg);
        refused.value ==
          if r !in old(sentReliableMsgs) then SentReliableMsgInNonReliableRound(r)
          else if out.recipient == AllParties(true) then SendTwice
          else SentNonReliableMsgInReliableRound(out.recipient, r)
    {
      var recipient := out.recipient;
      var r := roundOf(out.msg);
      if r in sentReliableMsgs {
        if !recipient.IsReliableBroadcast() {
          return Some(SentNonReliableMsgInReliableRound(recipient, r));
        }
        recipient := AllParties(false);
        if sentReliableMsgs[r].Some? {
          return Some(SendTwice);
        }
        sentReliableMsgs := sentReliableMsgs[r := Some(out.msg)];
      } else if recipient.IsReliableBroadcast() {
        return Some(SentReliableMsgInNonReliableRound(r));
      }
      forall x ensures MainsOf(roundOf, outbox + [Outgoing(recipient, Main(out.msg))], x) ==
        MainsOf(roundOf, outbox, x) + if r == x then [Outgoing(recipient, Main(out.msg))] else []
      {
        MainsOfSnoc(roundOf, outbox, Outgoing(recipient, Main(out.msg)), x);
      }
      outbox := outbox + [Outgoing(recipient, Main(out.msg))];
      refused := None;
    }

    /** Completes a reliable round, given what the wrapped engine returns for its main and echo rounds.
        The output is released only if every other party echoed the hash of this party's vector; the
        own slot of that vector is the one message of the round that this party sent, if any. */
    method CompleteReliable<R(!new), O, E>(
      codec: Codec<MP, R>, mainOutput: Result<NeedsOwnMsg<MP, O>, E>, echoOutput: Result<RoundMsgs<H>, E>)
      returns (result: Result<O, CompleteRoundError<E>>)
      requires Valid() && LawfulCodec(codec) && codec.roundOf == roundOf
      modifies this
      ensures Valid()
      ensures result == ReliableOutcome(codec, hash, old(sentReliableMsgs), mainOutput, echoOutput)
      ensures mainOutput.Err? ==> result == Err(CompleteRound(mainOutput.error)) && unchanged(this)
      ensures mainOutput.Ok? ==> sentReliableMsgs == old(sentReliableMsgs) - {codec.round}
      ensures mainOutput.Ok? ==>
        var main, r := mainOutput.value, codec.round;
        if main.i >= |main.received| then
          outbox == old(outbox) && result == Err(InEcho(OwnIndexOutOfBounds(main.i, |main.received|)))
        else
          var own := if r in old(sentReliableMsgs) then old(sentReliableMsgs)[r] else None;
          var h := hash(main.received[main.i := own], r, main.n);
          && outbox == old(outbox) + [Outgoing(AllParties(false), Echo(r, h))]
          && (r in old(sentReliableMsgs) ==> MainsOf(roundOf, old(outbox), r) == OnRecord(own))
          && result == match echoOutput
             case Err(e) => Err(CompleteRound(e))
             case Ok(echoes) =>
               if forall e :: e in echoes.messages ==> e == h then Ok(main.output) else Err(InEcho(MismatchedHash))
    {
      if mainOutput.Err? {
        return Err(CompleteRound(mainOutput.error));
      }
      var r := codec.round;
      var sent := if r in sentReliableMsgs then sentReliableMsgs[r] else None;
      sentReliableMsgs := sentReliableMsgs - {r};
      var mine: Option<R> := None;
      if sent.Some? {
        mine := codec.fromProto(sent.value);
        ghost var m := MainsOf(roundOf, outbox, r);
        MainsOfRound(roundOf, outbox, r);
        assert m[0].msg.msg == sent.value && ExactOn(codec, sent.value);
        if mine.None? {
          assert false;
          return Err(InEcho(SentMsgFromProto));
        }
      }
      assert sent.Some? ==> codec.toProto(mine.value) == sent.value;
      var check := WithMyMsg(codec, hash, mainOutput.value, mine);
      if check.Err? {
        return Err(InEcho(check.error));
      }
      var echo := Outgoing(AllParties(false), Echo(r, check.value.expectedHash));
      forall x ensures MainsOf(roundOf, outbox + [echo], x) == MainsOf(roundOf, outbox, x) {
        MainsOfSnoc(roundOf, outbox, echo, x);
      }
      outbox := outbox + [echo];
      if echoOutput.Err? {
        return Err(CompleteRound(echoOutput.error));
      }
      var released := WithEchoOutput(check.value, echoOutput.value);
      if released.Err? {
        return Err(InEcho(released.error));
      }
      result := Ok(released.value);
    }
  }
}
