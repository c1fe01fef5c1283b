/**
 The stores behind a reliable broadcast round: the main round, which logs every message next to the
 store it wraps, and the echo round, which collects the hashes of the other parties' logs.
 */
module EchoStore {
  import opened Messages
  import opened RoundStore
  import opened EchoMessages
  import opened SimpleStore

  datatype Reason =
    | StoreReceivedTwoMsgsFromSameParty
    | ReceivedMainMsgWhenRoundOver
    | UnknownSender(i: u16, n: nat)
    | OwnIndexOutOfBounds(i: u16, n: nat)
    | MainRoundFinishedButStoreDoesntOutput
    | HandleEcho(error: InputError)
    | MismatchedHash
    | StateGone
    | RoundMsgClone
    | SendTwice
    | SentMsgFromProto
    | SentNonReliableMsgInReliableRound(dest: MessageDestination, round: u16)
    | SentReliableMsgInNonReliableRound(round: u16)

  datatype EchoError<+E> = FromMain(error: E) | FromEcho(reason: Reason)

  datatype MainState<+S, +O> = Ongoing(store: S) | Output(output: O) | Finished | Gone

  datatype MainRound<+P, +S, +O> = MainRound(i: u16, n: u16, state: MainState<S, O>, received: seq<Option<P>>)

  datatype NeedsOwnMsg<+P, +O> = NeedsOwnMsg(i: u16, n: u16, output: O, received: seq<Option<P>>)

  datatype ReliabilityCheck<+O, +H> = ReliabilityCheck(expectedHash: H, output: O)

  function MainNew<P, S, R, O, E>(ops: StoreOps<S, R, O, E>, i: u16, n: u16, store: S): MainRound<P, S, O> {
    MainRound(i, n,
      match ops.output(store) { case Some(o) => Output(o) case None => Ongoing(store) },
      seq(n, _ => None))
  }

  /** A wrapped store that wants no more is replaced by its output at once. */
  function Close<P, S, R, O, E>(ops: StoreOps<S, R, O, E>, mr: MainRound<P, S, O>)
    : (r: Added<MainRound<P, S, O>, EchoError<E>>)
    requires mr.state.Ongoing?
  {
    if ops.wantsMore(mr.state.store) then Added(mr, None)
    else match ops.output(mr.state.store)
      case Some(o) => Added(mr.(state := Output(o)), None)
      case None => Added(mr.(state := Finished), Some(FromEcho(MainRoundFinishedButStoreDoesntOutput)))
  }

  /** The wrapped store sees the message as reliably broadcast whatever its type was; the message is
      converted to a protocol message and back, once for the store and once for the log. */
  function MainAdd<P, S, R, O, E>(codec: Codec<P, R>, ops: StoreOps<S, R, O, E>, mr: MainRound<P, S, O>, m: Incoming<R>)
    : (r: Added<MainRound<P, S, O>, EchoError<E>>)
    ensures r.store.i == mr.i && r.store.n == mr.n && |r.store.received| == |mr.received|
  {
    match mr.state
    case Ongoing(store) =>
      (match codec.fromProto(codec.toProto(m.msg))
       case None => Added(mr, Some(FromEcho(RoundMsgClone)))
       case Some(msg) =>
         var added := ops.add(store, Incoming(m.id, m.sender, Broadcast(true), msg));
         var mr' := mr.(state := Ongoing(added.store));
         if added.error.Some? then Added(mr', Some(FromMain(added.error.value)))
         else if m.sender >= |mr.received| then Added(mr', Some(FromEcho(UnknownSender(m.sender, |mr.received|))))
         else if mr.received[m.sender].Some? then Added(mr', Some(FromEcho(StoreReceivedTwoMsgsFromSameParty)))
         else Close(ops, mr'.(received := mr.received[m.sender := Some(codec.toProto(msg))])))
    case Gone => Added(mr, Some(FromEcho(StateGone)))
    case _ => Added(mr, Some(FromEcho(ReceivedMainMsgWhenRoundOver)))
  }

  function MainOutput<P, S, O>(mr: MainRound<P, S, O>): Option<NeedsOwnMsg<P, O>> {
    if mr.state.Output? then Some(NeedsOwnMsg(mr.i, mr.n, mr.state.output, mr.received)) else None
  }

  function MainOps<P, S, R, O, E>(codec: Codec<P, R>, ops: StoreOps<S, R, O, E>)
    : StoreOps<MainRound<P, S, O>, R, NeedsOwnMsg<P, O>, EchoError<E>>
  {
    StoreOps(
      (mr, m) => MainAdd(codec, ops, mr, m),
      (mr: MainRound<P, S, O>) => mr.state.Ongoing?,
      (mr: MainRound<P, S, O>) => MainOutput(mr))
  }

  /** The log with the local party's own message in its slot, which is what gets hashed. */
  function Vector<P, R, O>(codec: Codec<P, R>, main: NeedsOwnMsg<P, O>, mine: Option<R>): seq<Option<P>>
    requires main.i < |main.received|
  {
    main.received[main.i := if mine.Some? then Some(codec.toProto(mine.value)) else None]
  }

  type Hash<!P, H> = (seq<Option<P>>, u16, u16) -> H

  function WithMyMsg<P, R, O, H>(codec: Codec<P, R>, hash: Hash<P, H>, main: NeedsOwnMsg<P, O>, mine: Option<R>)
    : Result<ReliabilityCheck<O, H>, Reason>
  {
    if main.i >= |main.received| then Err(OwnIndexOutOfBounds(main.i, |main.received|))
    else Ok(ReliabilityCheck(hash(Vector(codec, main, mine), codec.round, main.n), main.output))
  }

  function WithEchoOutput<O, H(==)>(check: ReliabilityCheck<O, H>, echoes: RoundMsgs<H>): Result<O, Reason> {
    if exists h :: h in echoes.messages && h != check.expectedHash then Err(MismatchedHash) else Ok(check.output)
  }

  function EchoLabel<E>(): InputError -> EchoError<E> {
    e => FromEcho(HandleEcho(e))
  }

  /** The echo round is a plain `RoundInput` of hashes, a main round that needs no reliable broadcast is
      its own store: only the errors are relabelled. */
  function EchoOps<H, E>(): StoreOps<RoundInput<H>, H, RoundMsgs<H>, EchoError<E>> {
    Relabelled(Ops<H>(), EchoLabel<E>())
  }

  function MainLabel<E>(): E -> EchoError<E> {
    e => FromMain(e)
  }

  function PlainOps<S, R, O, E>(ops: StoreOps<S, R, O, E>): StoreOps<S, R, O, EchoError<E>> {
    Relabelled(ops, MainLabel<E>())
  }

  // ----- The store law survives wrapping

  ghost function MainInv<P, S, O>(inv: S -> bool): MainRound<P, S, O> -> bool {
    (mr: MainRound<P, S, O>) => if mr.state.Ongoing? then inv(mr.state.store) else mr.state.Output?
  }

  /** A wrapped lawful store is lawful: the states `Finished` and `Gone` are never observable, and none
      of the errors documented as bugs arises. */
  lemma WrappingIsLawful<P(!new), S(!new), R(!new), O(!new), E(!new)>(
    codec: Codec<P, R>, ops: StoreOps<S, R, O, E>, inv: S -> bool, i: u16, n: u16, store: S)
    requires RoundTrips(codec) && Lawful(ops, inv) && inv(store)
    ensures MainInv<P, S, O>(inv)(MainNew(ops, i, n, store))
    ensures Lawful(MainOps(codec, ops), MainInv(inv))
    ensures forall mr, m :: MainInv(inv)(mr) ==>
      var e := MainAdd(codec, ops, mr, m).error;
      e !in {Some(FromEcho(StateGone)), Some(FromEcho(RoundMsgClone)),
             Some(FromEcho(MainRoundFinishedButStoreDoesntOutput))}
  {
    var mops, minv := MainOps(codec, ops), MainInv<P, S, O>(inv);
    forall mr, m | minv(mr)
      ensures minv(mops.add(mr, m).store)
      ensures
        var e := MainAdd(codec, ops, mr, m).error;
        e !in {Some(FromEcho(StateGone)), Some(FromEcho(RoundMsgClone)),
               Some(FromEcho(MainRoundFinishedButStoreDoesntOutput))}
    {
      if mr.state.Ongoing? {
        var m' := Incoming(m.id, m.sender, Broadcast(true), m.msg);
        assert codec.fromProto(codec.toProto(m.msg)) == Some(m.msg);
        assert inv(ops.add(mr.state.store, m').store);
      }
    }
  }

  // ----- Transparency and the log

  /** The messages as the wrapped store sees them. */
  function Reliable<R>(ms: seq<Incoming<R>>): (rs: seq<Incoming<R>>)
    ensures |rs| == |ms|
  {
    if ms == [] then []
    else
      var last := ms[|ms| - 1];
      Reliable(ms[..|ms| - 1]) + [Incoming(last.id, last.sender, Broadcast(true), last.msg)]
  }

  lemma {:induction false} ReliableAt<R>(ms: seq<Incoming<R>>, j: nat)
    requires j < |ms|
    ensures Reliable(ms)[j] == Incoming(ms[j].id, ms[j].sender, Broadcast(true), ms[j].msg)
  {
    if j < |ms| - 1 {
      ReliableAt(ms[..|ms| - 1], j);
    }
  }

  /** The log slot of a party, as determined by its first message. */
  function Logged<P, R>(codec: Codec<P, R>, ms: seq<Incoming<R>>, p: u16): Option<P> {
    match FirstFrom(Broadcast(true), Reliable(ms), p)
    case None => None
    case Some(first) => Some(codec.toProto(first.msg))
  }

  /** The main round `mr` mirrors the bare store on the messages `ms` marked reliable: it holds the store
      itself, or its output once it wants no more, which it has from the start if the store does. Next to
      it, the slot of each party in the log holds that party's message. */
  ghost predicate Mirrors<P, S, R, O, E>(
    codec: Codec<P, R>, ops: StoreOps<S, R, O, E>, i: u16, n: u16, store: S, ms: seq<Incoming<R>>,
    mr: MainRound<P, S, O>)
  {
    && mr.i == i && mr.n == n && |mr.received| == n
    && AllAccepted(ops, store, Reliable(ms))
    && (match mr.state
        case Ongoing(s) =>
          && s == AddAll(ops, store, Reliable(ms)) && ops.output(store).None?
          && (ms != [] ==> ops.wantsMore(s))
        case Output(o) =>
          && ops.output(AddAll(ops, store, Reliable(ms))) == Some(o)
          && (ms != [] ==> ops.output(store).None? && !ops.wantsMore(AddAll(ops, store, Reliable(ms))))
        case _ => false)
    && forall p: u16 :: p < n ==> mr.received[p] == Logged(codec, ms, p)
  }

  lemma LoggedSnoc<P, R>(codec: Codec<P, R>, ms: seq<Incoming<R>>, m: Incoming<R>, p: u16)
    ensures Logged(codec, ms + [m], p) ==
      if Logged(codec, ms, p).Some? || m.sender != p then Logged(codec, ms, p) else Some(codec.toProto(m.msg))
  {
    ReliableSnoc(ms, m);
  }

  lemma ReliableSnoc<R>(ms: seq<Incoming<R>>, m: Incoming<R>)
    ensures Reliable(ms + [m]) == Reliable(ms) + [Incoming(m.id, m.sender, Broadcast(true), m.msg)]
    ensures Reliable(ms + [m])[..|ms|] == Reliable(ms)
  {
    assert (ms + [m])[..|ms|] == ms;
  }

  lemma MirrorsNext<P(!new), S, R(!new), O, E>(
    codec: Codec<P, R>, ops: StoreOps<S, R, O, E>, i: u16, n: u16, store: S, ms: seq<Incoming<R>>,
    mr: MainRound<P, S, O>, m: Incoming<R>)
    requires RoundTrips(codec) && Mirrors(codec, ops, i, n, store, ms, mr) && MainAdd(codec, ops, mr, m).error.None?
    ensures Mirrors(codec, ops, i, n, store, ms + [m], MainAdd(codec, ops, mr, m).store)
  {
    ReliableSnoc(ms, m);
    assert codec.fromProto(codec.toProto(m.msg)) == Some(m.msg);
    forall p: u16 | p < n ensures MainAdd(codec, ops, mr, m).store.received[p] == Logged(codec, ms + [m], p) {
      LoggedSnoc(codec, ms, m, p);
    }
  }

  /** As long as nothing was rejected, the main round mirrors the bare store. */
  lemma {:induction false} WrapperIsTransparent<P(!new), S, R(!new), O, E>(
    codec: Codec<P, R>, ops: StoreOps<S, R, O, E>, i: u16, n: u16, store: S, ms: seq<Incoming<R>>)
    requires RoundTrips(codec)
    requires AllAccepted(MainOps(codec, ops), MainNew(ops, i, n, store), ms)
    ensures Mirrors(codec, ops, i, n, store, ms, AddAll(MainOps(codec, ops), MainNew(ops, i, n, store), ms))
  {
    if ms != [] {
      var init, last := ms[..|ms| - 1], ms[|ms| - 1];
      WrapperIsTransparent(codec, ops, i, n, store, init);
      MirrorsNext(codec, ops, i, n, store, init, AddAll(MainOps(codec, ops), MainNew(ops, i, n, store), init), last);
      assert init + [last] == ms;
    }
  }

  lemma {:induction false} ReliableSenders<R>(ms: seq<Incoming<R>>, p: u16)
    ensures FirstFrom(Broadcast(true), Reliable(ms), p).Some? <==> exists m :: m in ms && m.sender == p
  {
    if ms != [] {
      ReliableSenders(ms[..|ms| - 1], p);
      assert ms == ms[..|ms| - 1] + [ms[|ms| - 1]];
      assert Reliable(ms)[..|ms| - 1] == Reliable(ms[..|ms| - 1]);
    }
  }

  /** Over any store, exactly which messages an ongoing main round rejects, and with which error: what the
      bare store rejects, senders out of range, and second messages of a party. The last case is a store
      that breaks the store law. */
  lemma WrapperRejectsOverAnyStore<P(!new), S, R(!new), O, E>(
    codec: Codec<P, R>, ops: StoreOps<S, R, O, E>, i: u16, n: u16, store: S, ms: seq<Incoming<R>>, m: Incoming<R>)
    requires RoundTrips(codec)
    requires AllAccepted(MainOps(codec, ops), MainNew(ops, i, n, store), ms)
    requires AddAll(MainOps(codec, ops), MainNew(ops, i, n, store), ms).state.Ongoing?
    ensures
      var mr := AddAll(MainOps(codec, ops), MainNew(ops, i, n, store), ms);
      var bare := ops.add(AddAll(ops, store, Reliable(ms)), Incoming(m.id, m.sender, Broadcast(true), m.msg));
      MainAdd(codec, ops, mr, m).error ==
      if bare.error.Some? then Some(FromMain(bare.error.value))
      else if m.sender >= n then Some(FromEcho(UnknownSender(m.sender, n)))
      else if exists e :: e in ms && e.sender == m.sender then Some(FromEcho(StoreReceivedTwoMsgsFromSameParty))
      else if ops.wantsMore(bare.store) || ops.output(bare.store).Some? then None
      else Some(FromEcho(MainRoundFinishedButStoreDoesntOutput))
  {
    WrapperIsTransparent(codec, ops, i, n, store, ms);
    ReliableSenders(ms, m.sender);
    assert codec.fromProto(codec.toProto(m.msg)) == Some(m.msg);
  }

  /** Over `RoundInput`, wrapping adds a single reason to reject a message: a second one that claims to
      come from the local party, whose messages the bare store ignores. */
  lemma WrapperRejectsExactly<P(!new), R(!new)>(
    codec: Codec<P, R>, i: u16, n: u16, ms: seq<Incoming<R>>, m: Incoming<R>)
    requires RoundTrips(codec) && 2 <= n && i < n
    requires AllAccepted(MainOps(codec, Ops()), MainNew(Ops(), i, n, New(i, n, Broadcast(true))), ms)
    requires AddAll(MainOps(codec, Ops()), MainNew(Ops(), i, n, New(i, n, Broadcast(true))), ms).state.Ongoing?
    ensures
      var mr := AddAll(MainOps(codec, Ops()), MainNew(Ops(), i, n, New(i, n, Broadcast(true))), ms);
      var bare := Add(AddAll(Ops(), New(i, n, Broadcast(true)), Reliable(ms)),
                      Incoming(m.id, m.sender, Broadcast(true), m.msg));
      MainAdd(codec, Ops(), mr, m).error ==
      if bare.error.Some? then Some(FromMain(bare.error.value))
      else if m.sender == i && (exists e :: e in ms && e.sender == i) then
        Some(FromEcho(StoreReceivedTwoMsgsFromSameParty))
      else None
  {
    var m' := Incoming(m.id, m.sender, Broadcast(true), m.msg);
    WrapperIsTransparent(codec, Ops(), i, n, New(i, n, Broadcast(true)), ms);
    RejectedExactly(i, n, Broadcast(true), Reliable(ms), m');
    ReliableSenders(ms, i);
    assert codec.fromProto(codec.toProto(m.msg)) == Some(m.msg);
  }

  /** Over `RoundInput`, the vector hashed once the local party's message is in place is exactly the
      output including that message, slot by slot: messages the store ignores never show in it. */
  lemma HashedVectorIsTheOutput<P(!new), R(!new)>(
    codec: Codec<P, R>, i: u16, n: u16, ms: seq<Incoming<R>>, main: NeedsOwnMsg<P, RoundMsgs<R>>, mine: R, p: u16)
    requires RoundTrips(codec) && 2 <= n && i < n && p < n
    requires
      var store := New(i, n, Broadcast(true));
      && AllAccepted(MainOps(codec, Ops()), MainNew(Ops(), i, n, store), ms)
      && MainOutput(AddAll(MainOps(codec, Ops()), MainNew(Ops(), i, n, store), ms)) == Some(main)
    ensures main.i == i && main.n == n && |main.received| == n
    ensures main.output.i == i && |main.output.messages| == |main.output.ids| == n - 1
    ensures |IncludingMe(main.output, mine)| == |Vector(codec, main, Some(mine))| == n
    ensures Vector(codec, main, Some(mine))[p] == Some(codec.toProto(IncludingMe(main.output, mine)[p]))
  {
    var store := New<R>(i, n, Broadcast(true));
    WrapperIsTransparent(codec, Ops(), i, n, store, ms);
    ViewsAgree(i, n, Broadcast(true), Reliable(ms), mine, p);
  }

  // ----- The main round as the source writes it: state and log updated in place

  class MainRoundCell<P, S, R, O, E> {
    const codec: Codec<P, R>
    const ops: StoreOps<S, R, O, E>
    const i: u16
    const n: u16
    var state: MainState<S, O>
    const receivedMsgs: array<Option<P>>

    ghost function View(): MainRound<P, S, O>
      reads this, receivedMsgs
    {
      MainRound(i, n, state, receivedMsgs[..])
    }

    constructor (codec: Codec<P, R>, ops: StoreOps<S, R, O, E>, i: u16, n: u16, store: S)
      ensures View() == MainNew(ops, i, n, store) && this.codec == codec && this.ops == ops
      ensures fresh(receivedMsgs)
    {
      this.codec, this.ops, this.i, this.n := codec, ops, i, n;
      var output := ops.output(store);
      state := if output.Some? then Output(output.value) else Ongoing(store);
      receivedMsgs := new Option<P>[n](_ => None);
      new;
      assert View().received == seq(n, _ => None);
    }

    method AddMessage(incoming: Incoming<R>) returns (error: Option<EchoError<E>>)
      modifies this, receivedMsgs
      ensures Added(View(), error) == MainAdd(codec, ops, old(View()), incoming)
    {
      ghost var before := View();
      if state.Gone? {
        return Some(FromEcho(StateGone));
      }
      if !state.Ongoing? {
        return Some(FromEcho(ReceivedMainMsgWhenRoundOver));
      }
      var cloned := codec.fromProto(codec.toProto(incoming.msg));
      if cloned.None? {
        return Some(FromEcho(RoundMsgClone));
      }
      var added := ops.add(state.store, Incoming(incoming.id, incoming.sender, Broadcast(true), cloned.value));
      state := Ongoing(added.store);
      if added.error.Some? {
        return Some(FromMain(added.error.value));
      }
      if incoming.sender >= receivedMsgs.Length {
        return Some(FromEcho(UnknownSender(incoming.sender, receivedMsgs.Length)));
      }
      if receivedMsgs[incoming.sender].Some? {
        return Some(FromEcho(StoreReceivedTwoMsgsFromSameParty));
      }
      receivedMsgs[incoming.sender] := Some(codec.toProto(cloned.value));
      assert receivedMsgs[..] == before.received[incoming.sender := Some(codec.toProto(cloned.value))];
      error := None;
      if !ops.wantsMore(added.store) {
        state := MainState.Gone;
        var output := ops.output(added.store);
        if output.Some? {
          state := Output(output.value);
        } else {
          state := Finished;
          error := Some(FromEcho(MainRoundFinishedButStoreDoesntOutput));
        }
      }
    }
  }
}
