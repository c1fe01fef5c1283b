/**
 Messages of a protocol with echo rounds, and how the rounds of the main protocol are renumbered:
 main round `r` becomes `2 * r`, its echo round `2 * r + 1`.
 */
module EchoMessages {
  import opened Messages
  import opened RoundStore
  import opened Router

  /** Conversions between the messages of one round and protocol messages. */
  datatype Codec<!P, !R> = Codec(round: u16, roundOf: P -> u16, toProto: R -> P, fromProto: P -> Option<R>)

  /** Conversions round-trip. */
  ghost predicate RoundTrips<P(!new), R(!new)>(c: Codec<P, R>) {
    && (forall r :: c.fromProto(c.toProto(r)) == Some(r))
    && (forall p :: c.fromProto(p).Some? ==> c.toProto(c.fromProto(p).value) == p)
  }

  /** Extraction succeeds on `p` exactly when `p` belongs to the round. */
  predicate ExactOn<P, R>(c: Codec<P, R>, p: P) {
    c.fromProto(p).Some? <==> c.roundOf(p) == c.round
  }

  ghost predicate LawfulCodec<P(!new), R(!new)>(c: Codec<P, R>) {
    RoundTrips(c) && forall p :: ExactOn(c, p)
  }

  datatype EchoMsg<MP, H> = Echo(round: u16, hash: H) | Main(msg: MP)

  /** Round numbers are 16 bits wide and the arithmetic wraps around. */
  function WrappedRound<MP, H>(roundOf: MP -> u16, m: EchoMsg<MP, H>): u16 {
    match m
    case Echo(round, _) => (2 * round + 1) % 0x1_0000
    case Main(msg) => (2 * roundOf(msg)) % 0x1_0000
  }

  const MAX_MAIN_ROUND: u16 := 32767

  /** Doubling the constant of a larger round does not compile. */
  function MainCodec<MP, R, H>(c: Codec<MP, R>): Codec<EchoMsg<MP, H>, R>
    requires c.round <= MAX_MAIN_ROUND
  {
    Codec(
      2 * c.round,
      m => WrappedRound(c.roundOf, m),
      r => Main(c.toProto(r)),
      (m: EchoMsg<MP, H>) => if m.Main? then c.fromProto(m.msg) else None)
  }

  function EchoCodec<MP, R, H>(c: Codec<MP, R>): Codec<EchoMsg<MP, H>, H>
    requires c.round <= MAX_MAIN_ROUND
  {
    Codec(
      2 * c.round + 1,
      m => WrappedRound(c.roundOf, m),
      h => Echo(c.round, h),
      (m: EchoMsg<MP, H>) => if m.Echo? && m.round == c.round then Some(m.hash) else None)
  }

  /** Round trips survive the wrapping; main round `r` is numbered `2 * r` and its echo round `2 * r + 1`, so
      that no two of them coincide. */
  lemma NumberingLifts<MP(!new), R(!new), H(!new)>(c: Codec<MP, R>, c': Codec<MP, R>)
    requires RoundTrips(c)
    requires c.round <= MAX_MAIN_ROUND && c'.round <= MAX_MAIN_ROUND
    ensures RoundTrips(MainCodec<MP, R, H>(c)) && RoundTrips(EchoCodec<MP, R, H>(c))
    ensures MainCodec<MP, R, H>(c).round != EchoCodec<MP, R, H>(c').round
    ensures MainCodec<MP, R, H>(c).round == MainCodec<MP, R, H>(c').round <==> c.round == c'.round
    ensures EchoCodec<MP, R, H>(c).round == EchoCodec<MP, R, H>(c').round <==> c.round == c'.round
    ensures MainCodec<MP, R, H>(c).round == 2 * c.round && EchoCodec<MP, R, H>(c).round == 2 * c.round + 1
    ensures forall m: MP :: c.roundOf(m) <= MAX_MAIN_ROUND ==>
      WrappedRound(c.roundOf, EchoMsg<MP, H>.Main(m)) == 2 * c.roundOf(m)
    ensures forall r: u16, h: H :: r <= MAX_MAIN_ROUND ==> WrappedRound(c.roundOf, Echo(r, h)) == 2 * r + 1
  {
    var mainCodec, echoCodec := MainCodec<MP, R, H>(c), EchoCodec<MP, R, H>(c);
    forall r ensures mainCodec.fromProto(mainCodec.toProto(r)) == Some(r) {
      assert c.fromProto(c.toProto(r)) == Some(r);
    }
    forall p | mainCodec.fromProto(p).Some? ensures mainCodec.toProto(mainCodec.fromProto(p).value) == p {
      assert c.toProto(c.fromProto(p.msg).value) == p.msg;
    }
  }

  /** Which messages the wrapped conversions treat as their round numbers say: all but those whose
      round number, doubled, wraps around onto the round in question. */
  lemma WrappedExactness<MP(!new), R(!new), H(!new)>(c: Codec<MP, R>, m: EchoMsg<MP, H>)
    requires LawfulCodec(c) && c.round <= MAX_MAIN_ROUND
    ensures ExactOn(EchoCodec(c), m) <==> !(m.Echo? && m.round == c.round + 32768)
    ensures ExactOn(MainCodec(c), m) <==> !(m.Main? && c.roundOf(m.msg) == c.round + 32768)
  {
    if m.Main? {
      assert ExactOn(c, m.msg);
    }
  }

  /** The round type a codec and a store make. */
  function TypeWith<P, R, S, O, E>(c: Codec<P, R>, ops: StoreOps<S, R, O, E>): RoundType<P, R, S, O, E> {
    RoundType(c.round, c.roundOf, c.fromProto, ops)
  }

  /** The conversion law fails for an echo of round 32768: it is numbered 1 like echoes of round 0, and
      ends the echo round of round 0 with an error documented as unreachable. */
  lemma EchoOfUnregisteredRoundIsMisrouted<MP(!new), R(!new), S, O, E, H(!new)>(
    c: Codec<MP, R>, ops: StoreOps<S, H, O, E>, store: S, m: Incoming<EchoMsg<MP, H>>)
    requires c.round == 0 && m.msg.Echo? && m.msg.round == 32768 && ops.wantsMore(store)
    ensures EndedInBug(Alone(TypeWith(EchoCodec<MP, R, H>(c), ops), store, [m]))
  {
    var ty := TypeWith(EchoCodec<MP, R, H>(c), ops);
    BugExactly(ty, store, [m]);
    assert Misrouted(ty, [m][0]) && [m][..0] == [];
  }

  /** An echo round ends with a router bug exactly when the echo of a round 32768 higher reaches it while
      it is in progress. */
  lemma EchoBugExactly<MP(!new), R(!new), S, O, E, H(!new)>(
    c: Codec<MP, R>, ops: StoreOps<S, H, O, E>, store: S, ms: seq<Incoming<EchoMsg<MP, H>>>)
    requires LawfulCodec(c) && c.round <= MAX_MAIN_ROUND
    ensures
      var ty := TypeWith(EchoCodec<MP, R, H>(c), ops);
      EndedInBug(Alone(ty, store, ms)) <==>
      exists k ::
        && 0 <= k < |ms| && ms[k].msg.Echo? && ms[k].msg.round == c.round + 32768
        && Alone(ty, store, ms[..k]).InProgress?
  {
    var ty := TypeWith(EchoCodec<MP, R, H>(c), ops);
    BugExactly(ty, store, ms);
    forall k | 0 <= k < |ms| ensures Misrouted(ty, ms[k]) <==> ms[k].msg.Echo? && ms[k].msg.round == c.round + 32768 {
      WrappedExactness(c, ms[k].msg);
    }
  }

  /** A main round ends with a router bug exactly when a message of a round 32768 higher does. */
  lemma MainBugExactly<MP(!new), R(!new), S, O, E, H(!new)>(
    c: Codec<MP, R>, ops: StoreOps<S, R, O, E>, store: S, ms: seq<Incoming<EchoMsg<MP, H>>>)
    requires LawfulCodec(c) && c.round <= MAX_MAIN_ROUND
    ensures
      var ty := TypeWith(MainCodec<MP, R, H>(c), ops);
      EndedInBug(Alone(ty, store, ms)) <==>
      exists k ::
        && 0 <= k < |ms| && ms[k].msg.Main? && c.roundOf(ms[k].msg.msg) == c.round + 32768
        && Alone(ty, store, ms[..k]).InProgress?
  {
    var ty := TypeWith(MainCodec<MP, R, H>(c), ops);
    BugExactly(ty, store, ms);
    forall k | 0 <= k < |ms|
      ensures Misrouted(ty, ms[k]) <==> ms[k].msg.Main? && c.roundOf(ms[k].msg.msg) == c.round + 32768
    {
      WrappedExactness(c, ms[k].msg);
    }
  }
}
