/**
 Routing one interleaved stream of protocol messages between the stores of its rounds.

 A round on its own is `RunRound`: its store folded over its own messages until it wants no more or
 first fails. `RoundsRouter` is the source's mutable map of round states; its invariant says that
 whatever the interleaving, every entry is what `RunRound` makes of that round's subsequence.
 */
module Router {
  import opened Messages
  import opened RoundStore

  datatype TakeOutputError = AlreadyTaken | NotReady

  /** Errors the source documents as bugs of the router itself. */
  datatype Bug =
    | RoundGoneButWitnessExists(n: u16)
    | MessageFromAnotherRound(expectedRound: u16, actualNumber: u16)
    | IncoherentState
    | TakeRoundResult(reason: TakeOutputError)
    | MismatchedOutputType
    | MismatchedErrorType

  datatype RoundError<+E> =
    | ProcessMsg(error: E)
    | StoreDidntOutput
    | UnregisteredRound(n: u16, witnessProvided: bool)
    | InternalBug(bug: Bug)

  /** A store type together with the conversion of protocol messages into its round's messages. */
  datatype RoundType<!P, !R, !S, O, E> = RoundType(
    round: u16,
    roundOf: P -> u16,
    fromProto: P -> Option<R>,
    ops: StoreOps<S, R, O, E>)

  datatype Cell<+S, +O, +E> =
    | InProgress(store: S)
    | Completed(result: Result<O, RoundError<E>>)
    | Gone

  /** A store that wants no more messages is asked for its output at once. */
  function Settle<P, R, S, O, E>(ty: RoundType<P, R, S, O, E>, store: S): (c: Cell<S, O, E>)
    ensures !c.Gone?
  {
    if ty.ops.wantsMore(store) then InProgress(store)
    else match ty.ops.output(store)
      case Some(output) => Completed(Ok(output))
      case None => Completed(Err(StoreDidntOutput))
  }

  function Receive<P, R, S, O, E>(ty: RoundType<P, R, S, O, E>, c: Cell<S, O, E>, m: Incoming<P>): (c': Cell<S, O, E>)
    ensures !c.InProgress? ==> c' == c
    ensures c.InProgress? ==> !c'.Gone?
  {
    if !c.InProgress? then c
    else match ty.fromProto(m.msg)
      case None => Completed(Err(InternalBug(MessageFromAnotherRound(ty.round, ty.roundOf(m.msg)))))
      case Some(r) =>
        var added := ty.ops.add(c.store, m.With(r));
        if added.error.Some? then Completed(Err(ProcessMsg(added.error.value))) else Settle(ty, added.store)
  }

  /** A round on its own. */
  function RunRound<P, R, S, O, E>(ty: RoundType<P, R, S, O, E>, store: S, ms: seq<Incoming<P>>): (c: Cell<S, O, E>)
    ensures !c.Gone?
  {
    if ms == [] then Settle(ty, store)
    else Receive(ty, RunRound(ty, store, ms[..|ms| - 1]), ms[|ms| - 1])
  }

  /** The subsequence of messages of round `r`. */
  function OfRound<P>(roundOf: P -> u16, ms: seq<Incoming<P>>, r: u16): seq<Incoming<P>> {
    if ms == [] then []
    else if roundOf(ms[|ms| - 1].msg) == r then OfRound(roundOf, ms[..|ms| - 1], r) + [ms[|ms| - 1]]
    else OfRound(roundOf, ms[..|ms| - 1], r)
  }

  lemma OfRoundSnoc<P>(roundOf: P -> u16, ms: seq<Incoming<P>>, m: Incoming<P>, r: u16)
    ensures OfRound(roundOf, ms + [m], r) == OfRound(roundOf, ms, r) + if roundOf(m.msg) == r then [m] else []
  {
    assert (ms + [m])[..|ms|] == ms;
  }

  lemma {:induction false} OfRoundMembers<P>(roundOf: P -> u16, ms: seq<Incoming<P>>, r: u16)
    ensures forall m :: m in OfRound(roundOf, ms, r) ==> m in ms && roundOf(m.msg) == r
    ensures forall m :: m in ms && roundOf(m.msg) == r ==> m in OfRound(roundOf, ms, r)
  {
    if ms != [] {
      OfRoundMembers(roundOf, ms[..|ms| - 1], r);
      assert ms == ms[..|ms| - 1] + [ms[|ms| - 1]];
    }
  }

  lemma {:induction false} OfRoundNone<P>(roundOf: P -> u16, ms: seq<Incoming<P>>, r: u16)
    requires forall m :: m in ms ==> roundOf(m.msg) != r
    ensures OfRound(roundOf, ms, r) == []
  {
    if ms != [] {
      OfRoundNone(roundOf, ms[..|ms| - 1], r);
    }
  }

  lemma {:induction false} OfRoundConcat<P>(roundOf: P -> u16, xs: seq<Incoming<P>>, ys: seq<Incoming<P>>, r: u16)
    ensures OfRound(roundOf, xs + ys, r) == OfRound(roundOf, xs, r) + OfRound(roundOf, ys, r)
  {
    if ys == [] {
      assert xs + ys == xs;
    } else {
      OfRoundConcat(roundOf, xs, ys[..|ys| - 1], r);
      assert (xs + ys)[..|xs + ys| - 1] == xs + ys[..|ys| - 1];
    }
  }

  lemma RunRoundSnoc<P, R, S, O, E>(ty: RoundType<P, R, S, O, E>, store: S, ms: seq<Incoming<P>>, m: Incoming<P>)
    ensures RunRound(ty, store, ms + [m]) == Receive(ty, RunRound(ty, store, ms), m)
  {
    assert (ms + [m])[..|ms|] == ms;
  }

  /** A round run on its own messages, picked from an interleaved stream. */
  function Alone<P, R, S, O, E>(ty: RoundType<P, R, S, O, E>, store: S, ms: seq<Incoming<P>>): Cell<S, O, E> {
    RunRound(ty, store, OfRound(ty.roundOf, ms, ty.round))
  }

  lemma AloneSnoc<P, R, S, O, E>(ty: RoundType<P, R, S, O, E>, store: S, ms: seq<Incoming<P>>, m: Incoming<P>)
    ensures Alone(ty, store, ms + [m]) ==
      if ty.roundOf(m.msg) == ty.round then Receive(ty, Alone(ty, store, ms), m) else Alone(ty, store, ms)
  {
    OfRoundSnoc(ty.roundOf, ms, m, ty.round);
    RunRoundSnoc(ty, store, OfRound(ty.roundOf, ms, ty.round), m);
  }

  /** Once a round has ended, later messages change nothing. */
  lemma {:induction false} EndedRoundIgnoresTheRest<P, R, S, O, E>(
    ty: RoundType<P, R, S, O, E>, store: S, ms: seq<Incoming<P>>, more: seq<Incoming<P>>)
    requires RunRound(ty, store, ms).Completed?
    ensures RunRound(ty, store, ms + more) == RunRound(ty, store, ms)
  {
    if more == [] {
      assert ms + more == ms;
    } else {
      EndedRoundIgnoresTheRest(ty, store, ms, more[..|more| - 1]);
      assert (ms + more)[..|ms + more| - 1] == ms + more[..|more| - 1];
    }
  }

  /** Once a round has ended, the rest of the stream changes nothing, whatever it holds. */
  lemma AloneIgnoresTheRest<P, R, S, O, E>(
    ty: RoundType<P, R, S, O, E>, store: S, ms: seq<Incoming<P>>, more: seq<Incoming<P>>)
    requires Alone(ty, store, ms).Completed?
    ensures Alone(ty, store, ms + more) == Alone(ty, store, ms)
  {
    OfRoundConcat(ty.roundOf, ms, more, ty.round);
    EndedRoundIgnoresTheRest(ty, store, OfRound(ty.roundOf, ms, ty.round), OfRound(ty.roundOf, more, ty.round));
  }

  // ----- What a round computes, in terms of its bare store

  ghost predicate Convertible<P, R, S, O, E>(ty: RoundType<P, R, S, O, E>, ms: seq<Incoming<P>>) {
    ms == [] || (Convertible(ty, ms[..|ms| - 1]) && ty.fromProto(ms[|ms| - 1].msg).Some?)
  }

  ghost function Decoded<P, R, S, O, E>(ty: RoundType<P, R, S, O, E>, ms: seq<Incoming<P>>): (rs: seq<Incoming<R>>)
    requires Convertible(ty, ms)
    ensures |rs| == |ms|
  {
    if ms == [] then []
    else Decoded(ty, ms[..|ms| - 1]) + [ms[|ms| - 1].With(ty.fromProto(ms[|ms| - 1].msg).value)]
  }

  lemma {:induction false} DecodedAt<P, R, S, O, E>(ty: RoundType<P, R, S, O, E>, ms: seq<Incoming<P>>, k: nat)
    requires Convertible(ty, ms)
    requires k < |ms|
    ensures ty.fromProto(ms[k].msg) == Some(Decoded(ty, ms)[k].msg)
    ensures Decoded(ty, ms)[k] == ms[k].With(Decoded(ty, ms)[k].msg)
  {
    if k < |ms| - 1 {
      DecodedAt(ty, ms[..|ms| - 1], k);
    }
  }

  /** Why a round ends once its bare store has taken `rs`: it wants no more, or rejects the last one. */
  ghost predicate EndsWith<S, R, O, E>(
    ops: StoreOps<S, R, O, E>, store: S, rs: seq<Incoming<R>>, result: Result<O, RoundError<E>>)
  {
    if AllAccepted(ops, store, rs) then
      && !ops.wantsMore(AddAll(ops, store, rs))
      && result == match ops.output(AddAll(ops, store, rs)) case Some(o) => Ok(o) case None => Err(StoreDidntOutput)
    else
      && rs != []
      && var last := ops.add(AddAll(ops, store, rs[..|rs| - 1]), rs[|rs| - 1]);
         last.error.Some? && result == Err(ProcessMsg(last.error.value))
  }

  /** Why a round ends with message `k`: as its bare store does, or because that message does not
      convert although its number brought it here. */
  ghost predicate EndsAt<P, R, S, O, E>(
    ty: RoundType<P, R, S, O, E>, store: S, ms: seq<Incoming<P>>, k: nat, result: Result<O, RoundError<E>>)
    requires k <= |ms|
  {
    if Convertible(ty, ms[..k]) then EndsWith(ty.ops, store, Decoded(ty, ms[..k]), result)
    else
      && k > 0 && ty.fromProto(ms[k - 1].msg).None?
      && result == Err(InternalBug(MessageFromAnotherRound(ty.round, ty.roundOf(ms[k - 1].msg))))
  }

  /** An unfinished round holds its bare store, which accepted everything and wants more. */
  lemma {:induction false} UnfinishedRoundIsItsBareStore<P, R, S, O, E>(
    ty: RoundType<P, R, S, O, E>, store: S, ms: seq<Incoming<P>>)
    requires RunRound(ty, store, ms).InProgress?
    ensures Convertible(ty, ms)
    ensures RunRound(ty, store, ms).store == AddAll(ty.ops, store, Decoded(ty, ms))
    ensures AllAccepted(ty.ops, store, Decoded(ty, ms))
    ensures ty.ops.wantsMore(AddAll(ty.ops, store, Decoded(ty, ms)))
  {
    if ms != [] {
      UnfinishedRoundIsItsBareStore(ty, store, ms[..|ms| - 1]);
      assert Decoded(ty, ms)[..|ms| - 1] == Decoded(ty, ms[..|ms| - 1]);
    }
  }

  lemma UnfinishedBefore<P, R, S, O, E>(ty: RoundType<P, R, S, O, E>, store: S, ms: seq<Incoming<P>>, j: nat)
    requires RunRound(ty, store, ms).InProgress? && j <= |ms|
    ensures RunRound(ty, store, ms[..j]).InProgress?
  {
    if RunRound(ty, store, ms[..j]).Completed? {
      EndedRoundIgnoresTheRest(ty, store, ms[..j], ms[j..]);
      assert ms[..j] + ms[j..] == ms;
    }
  }

  lemma LastMessageEnds<P, R, S, O, E>(ty: RoundType<P, R, S, O, E>, store: S, ms: seq<Incoming<P>>)
    requires ms != [] ==> RunRound(ty, store, ms[..|ms| - 1]).InProgress?
    requires RunRound(ty, store, ms).Completed?
    ensures EndsAt(ty, store, ms, |ms|, RunRound(ty, store, ms).result)
  {
    assert ms[..|ms|] == ms;
    if ms != [] {
      UnfinishedRoundIsItsBareStore(ty, store, ms[..|ms| - 1]);
      if Convertible(ty, ms) {
        assert Decoded(ty, ms)[..|ms| - 1] == Decoded(ty, ms[..|ms| - 1]);
      }
    }
  }

  /** A finished round ended at its message `k`, the first at which its bare store wanted no more or
      could not take a message, and with that outcome. */
  lemma {:induction false} FinishedRoundIsItsBareStore<P, R, S, O, E>(
    ty: RoundType<P, R, S, O, E>, store: S, ms: seq<Incoming<P>>) returns (k: nat)
    requires RunRound(ty, store, ms).Completed?
    ensures k <= |ms|
    ensures EndsAt(ty, store, ms, k, RunRound(ty, store, ms).result)
    ensures forall j :: 0 <= j < k ==> RunRound(ty, store, ms[..j]).InProgress?
  {
    if ms != [] && RunRound(ty, store, ms[..|ms| - 1]).Completed? {
      var init := ms[..|ms| - 1];
      k := FinishedRoundIsItsBareStore(ty, store, init);
      assert forall j :: 0 <= j <= k ==> ms[..j] == init[..j];
    } else {
      k := |ms|;
      LastMessageEnds(ty, store, ms);
      forall j | 0 <= j < k ensures RunRound(ty, store, ms[..j]).InProgress? {
        UnfinishedBefore(ty, store, ms[..|ms| - 1], j);
        assert ms[..|ms| - 1][..j] == ms[..j];
      }
    }
  }

  /** A message that reaches the round by its number and does not convert. */
  predicate Misrouted<P, R, S, O, E>(ty: RoundType<P, R, S, O, E>, m: Incoming<P>) {
    ty.roundOf(m.msg) == ty.round && ty.fromProto(m.msg).None?
  }

  /** If the store obeys the store law, and no message reaches the round that does not convert, only the
      store itself can make the round fail: the router finds no bug, and the store does output. */
  lemma {:induction false} OnlyTheStoreFails<P(!new), R(!new), S(!new), O, E>(
    ty: RoundType<P, R, S, O, E>, inv: S -> bool, store: S, ms: seq<Incoming<P>>)
    requires Lawful(ty.ops, inv) && inv(store) && forall m :: m in ms ==> !Misrouted(ty, m)
    ensures
      match Alone(ty, store, ms)
      case InProgress(s) => inv(s)
      case Completed(result) => result.Ok? || result.error.ProcessMsg?
  {
    if ms != [] {
      var init, last := ms[..|ms| - 1], ms[|ms| - 1];
      assert ms == init + [last];
      OnlyTheStoreFails(ty, inv, store, init);
      AloneSnoc(ty, store, init, last);
      var before := Alone(ty, store, init);
      if before.InProgress? && ty.roundOf(last.msg) == ty.round {
        assert last in ms && ty.fromProto(last.msg).Some?;
        assert inv(ty.ops.add(before.store, last.With(ty.fromProto(last.msg).value)).store);
      }
    }
  }

  /** In a round whose store has its errors relabelled, an error of the store carries the label. */
  lemma LabelledErrors<P, R, S, O, E, E'>(
    ty: RoundType<P, R, S, O, E'>, ops: StoreOps<S, R, O, E>, rename: E -> E', store: S, ms: seq<Incoming<P>>)
    returns (e: E)
    requires ty.ops == Relabelled(ops, rename)
    requires
      var c := Alone(ty, store, ms);
      c.Completed? && c.result.Err? && c.result.error.ProcessMsg?
    ensures Alone(ty, store, ms).result == Err(ProcessMsg(rename(e)))
  {
    var own := OfRound(ty.roundOf, ms, ty.round);
    var k := FinishedRoundIsItsBareStore(ty, store, own);
    var rs := Decoded(ty, own[..k]);
    e := ops.add(AddAll(ty.ops, store, rs[..k - 1]), rs[k - 1]).error.value;
  }

  predicate EndedInBug<S, O, E>(c: Cell<S, O, E>) {
    c.Completed? && c.result.Err? && c.result.error.InternalBug?
  }

  /** Without the conversion law: a round ends with a router bug exactly when a misrouted message is
      among those that reach it while it is in progress. */
  lemma {:induction false} BugExactly<P, R, S, O, E>(ty: RoundType<P, R, S, O, E>, store: S, ms: seq<Incoming<P>>)
    ensures EndedInBug(Alone(ty, store, ms)) <==>
      exists k :: 0 <= k < |ms| && Misrouted(ty, ms[k]) && Alone(ty, store, ms[..k]).InProgress?
  {
    if ms != [] {
      var init, last := ms[..|ms| - 1], ms[|ms| - 1];
      assert init + [last] == ms;
      assert forall k :: 0 <= k < |init| ==> init[..k] == ms[..k];
      BugExactly(ty, store, init);
      AloneSnoc(ty, store, init, last);
    }
  }

  // ----- The router as the source writes it

  /** A boxed round state and the identity of its store type. */
  datatype Boxed<+S, +O, +E> = Boxed(typeId: nat, cell: Cell<S, O, E>)

  /** `complete_round` either hands the witness back or returns the round's result. */
  datatype Completion<+O, +E> = NotYet | Returned(result: Result<O, RoundError<E>>)

  class RoundsRouter<P(!new), R, S, O, E> {
    /** The store types the protocol may register, and their round numbers. */
    const types: nat -> RoundType<P, R, S, O, E>
    /** The identities of the output type and of the error type of each store type. */
    const outputType: nat -> nat
    const errorType: nat -> nat
    const roundOf: P -> u16
    var rounds: map<u16, Option<Boxed<S, O, E>>>

    /** Registered stores as they were handed over, messages routed so far, rounds already taken. */
    ghost var stores: map<u16, (nat, S)>
    ghost var routed: seq<Incoming<P>>
    ghost var taken: set<u16>

    ghost predicate Valid()
      reads this
    {
      && rounds.Keys == stores.Keys
      && taken <= stores.Keys
      && (forall t :: types(t).roundOf == roundOf)
      && (forall m :: m in routed ==> roundOf(m.msg) in stores)
      && forall r :: r in rounds ==> EntryOk(r)
    }

    ghost predicate EntryOk(r: u16)
      requires r in stores && r in rounds
      reads this
    {
      && types(stores[r].0).round == r
      && rounds[r] == Some(Boxed(stores[r].0, if r in taken then Gone else ResultOf(r)))
    }

    ghost function TypeOf(r: u16): RoundType<P, R, S, O, E>
      requires r in stores
      reads this
    {
      types(stores[r].0)
    }

    /** The result of round `r` run alone on everything routed so far. */
    ghost function ResultOf(r: u16): Cell<S, O, E>
      requires r in stores
      reads this
    {
      Alone(TypeOf(r), stores[r].1, routed)
    }

    /** A witness is live from registration until its round's output is taken. */
    ghost predicate Live(w: nat)
      reads this
    {
      var r := types(w).round;
      r in stores && stores[r].0 == w && r !in taken
    }

    constructor (
      types: nat -> RoundType<P, R, S, O, E>, outputType: nat -> nat, errorType: nat -> nat, roundOf: P -> u16)
      requires forall t :: types(t).roundOf == roundOf
      ensures Valid() && this.types == types && this.roundOf == roundOf
      ensures this.outputType == outputType && this.errorType == errorType
      ensures stores == map[] && routed == [] && taken == {}
    {
      this.types, this.outputType, this.errorType, this.roundOf := types, outputType, errorType, roundOf;
      rounds, stores, routed, taken := map[], map[], [], {};
    }

    /** Registering a round twice is a panic in the source, hence the precondition. */
    method AddRound(typeId: nat, store: S) returns (w: nat)
      requires Valid() && types(typeId).round !in rounds
      modifies this
      ensures Valid() && Live(w) && w == typeId
      ensures stores == old(stores)[types(typeId).round := (typeId, store)]
      ensures routed == old(routed) && taken == old(taken)
    {
      var ty := types(typeId);
      var cell := if ty.ops.wantsMore(store) then InProgress(store) else Settle(ty, store);
      rounds := rounds[ty.round := Some(Boxed(typeId, cell))];
      stores := stores[ty.round := (typeId, store)];
      OfRoundNone(roundOf, routed, ty.round);
      assert forall r :: r in rounds && r != ty.round ==> old(EntryOk(r)) && EntryOk(r);
      w := typeId;
    }

    method ReceivedMsg(incoming: Incoming<P>) returns (error: Option<RoundError<E>>)
      requires Valid()
      modifies this
      ensures Valid() && stores == old(stores) && taken == old(taken)
      ensures roundOf(incoming.msg) in stores ==> error.None? && routed == old(routed) + [incoming]
      ensures roundOf(incoming.msg) !in stores ==>
        error == Some(UnregisteredRound(roundOf(incoming.msg), false)) && routed == old(routed)
    {
      var r := roundOf(incoming.msg);
      if r !in rounds {
        return Some(UnregisteredRound(r, false));
      }
      ghost var before := routed;
      routed := routed + [incoming];
      error := None;
      if rounds[r].Some? && rounds[r].value.cell.InProgress? {
        var boxed := rounds[r].value;
        var cell := ProcessMessage(types(boxed.typeId), boxed.cell, incoming);
        rounds := rounds[r := Some(boxed.(cell := cell))];
      }
      forall x | x in rounds ensures EntryOk(x) {
        assert old(EntryOk(x));
        AloneSnoc(TypeOf(x), stores[x].1, before, incoming);
      }
    }

    /** Swaps the state out, as the source does, before the finished store is asked for its output. */
    static method ProcessMessage(ty: RoundType<P, R, S, O, E>, cell: Cell<S, O, E>, m: Incoming<P>)
      returns (cell': Cell<S, O, E>)
      ensures cell' == Receive(ty, cell, m)
    {
      cell' := cell;
      if !cell'.InProgress? {
        return;
      }
      var converted := ty.fromProto(m.msg);
      if converted.None? {
        return Completed(Err(InternalBug(MessageFromAnotherRound(ty.round, ty.roundOf(m.msg)))));
      }
      var added := ty.ops.add(cell'.store, m.With(converted.value));
      cell' := InProgress(added.store);
      if added.error.Some? {
        return Completed(Err(ProcessMsg(added.error.value)));
      }
      if ty.ops.wantsMore(cell'.store) {
        return;
      }
      var replaced := cell';
      cell' := Gone;
      var output := ty.ops.output(replaced.store);
      cell' := Completed(if output.Some? then Ok(output.value) else Err(StoreDidntOutput));
    }

    /** Every outcome of `complete_round`, whatever the witness. Used linearly (on a live witness), it
        returns the result of the round run alone, takes it, and reports no bug of its own. A foreign
        witness of the same round gets the result too, as long as the types agree. */
    method CompleteRound(w: nat) returns (c: Completion<O, E>)
      requires Valid()
      modifies this
      ensures Valid() && stores == old(stores) && routed == old(routed)
      ensures
        var r := types(w).round;
        if r !in stores then
          taken == old(taken) && c == Returned(Err(UnregisteredRound(r, true)))
        else if r in old(taken) then
          taken == old(taken) && c == Returned(Err(InternalBug(TakeRoundResult(AlreadyTaken))))
        else if ResultOf(r).InProgress? then
          taken == old(taken) && c == NotYet
        else
          && taken == old(taken) + {r}
          && c == Returned(
               match ResultOf(r).result
               case Ok(o) =>
                 if outputType(stores[r].0) == outputType(w) then Ok(o) else Err(InternalBug(MismatchedOutputType))
               case Err(e) =>
                 if errorType(stores[r].0) == errorType(w) then Err(e) else Err(InternalBug(MismatchedErrorType)))
      ensures old(Live(w)) ==>
        var r := types(w).round;
        c == if ResultOf(r).InProgress? then NotYet else Returned(ResultOf(r).result)
    {
      var r := types(w).round;
      if r !in rounds {
        return Returned(Err(UnregisteredRound(r, true)));
      }
      if rounds[r].None? {
        assert false;
        return Returned(Err(InternalBug(RoundGoneButWitnessExists(r))));
      }
      var boxed := rounds[r].value;
      match boxed.cell {
        case InProgress(_) =>
          c := NotYet;
        case Gone =>
          c := Returned(Err(InternalBug(TakeRoundResult(AlreadyTaken))));
        case Completed(result) =>
          rounds := rounds[r := Some(boxed.(cell := Gone))];
          taken := taken + {r};
          if result.Ok? && outputType(boxed.typeId) != outputType(w) {
            return Returned(Err(InternalBug(MismatchedOutputType)));
          }
          if result.Err? && errorType(boxed.typeId) != errorType(w) {
            return Returned(Err(InternalBug(MismatchedErrorType)));
          }
          c := Returned(result);
      }
    }
  }

  // ----- The `complete` loop of `MpcParty`

  datatype CompleteError<+E> = InRound(error: RoundError<E>) | UnexpectedEof

  function AsComplete<O, E>(own: Result<O, RoundError<E>>): Result<O, CompleteError<E>> {
    match own case Ok(o) => Ok(o) case Err(e) => Err(InRound(e))
  }

  /** The round run alone on its share of `before` and of the first `k` messages of `stream`. */
  ghost function After<P, R, S, O, E>(
    ty: RoundType<P, R, S, O, E>, store: S, before: seq<Incoming<P>>, stream: seq<Incoming<P>>, k: nat): Cell<S, O, E>
    requires k <= |stream|
  {
    Alone(ty, store, before + stream[..k])
  }

  /** A round finished after `j` messages of a stream has the same result after any more, so that the
      prefix of `Outcome` below is the shortest one that ends the round. */
  lemma FinishedStaysFinished<P, R, S, O, E>(
    ty: RoundType<P, R, S, O, E>, store: S, before: seq<Incoming<P>>, stream: seq<Incoming<P>>, j: nat, k: nat)
    requires j <= k <= |stream| && After(ty, store, before, stream, j).Completed?
    ensures After(ty, store, before, stream, k) == After(ty, store, before, stream, j)
  {
    AloneIgnoresTheRest(ty, store, before + stream[..j], stream[j..k]);
    assert before + stream[..j] + stream[j..k] == before + stream[..k];
  }

  /** All messages are of registered rounds. */
  ghost predicate Known<P>(roundOf: P -> u16, ms: seq<Incoming<P>>, registered: set<u16>) {
    forall m :: m in ms ==> roundOf(m.msg) in registered
  }

  /** What `complete` returns having consumed the first `k` messages of `stream`. */
  ghost predicate Outcome<P, R, S, O, E>(
    ty: RoundType<P, R, S, O, E>, store: S, before: seq<Incoming<P>>, stream: seq<Incoming<P>>, k: nat,
    registered: set<u16>, result: Result<O, CompleteError<E>>)
    requires k <= |stream|
  {
    && (k > 0 ==> After(ty, store, before, stream, k - 1).InProgress?)
    && (k > 0 ==> Known(ty.roundOf, stream[..k - 1], registered))
    && match After(ty, store, before, stream, k)
       case Completed(own) =>
         result == AsComplete(own)
       case InProgress(_) =>
         if k == 0 || ty.roundOf(stream[k - 1].msg) in registered then
           k == |stream| && result == Err(UnexpectedEof)
         else
           result == Err(InRound(UnregisteredRound(ty.roundOf(stream[k - 1].msg), false)))
  }

  /** If the whole stream ends the round, `complete` reaches that end and returns its result. */
  lemma CompletesBeforeTheEnd<P, R, S, O, E>(
    ty: RoundType<P, R, S, O, E>, store: S, before: seq<Incoming<P>>, stream: seq<Incoming<P>>, k: nat,
    registered: set<u16>, result: Result<O, CompleteError<E>>)
    requires k <= |stream| && Outcome(ty, store, before, stream, k, registered, result)
    requires forall m :: m in stream ==> ty.roundOf(m.msg) in registered
    requires Alone(ty, store, before + stream).Completed?
    ensures After(ty, store, before, stream, k).Completed?
    ensures result == AsComplete(Alone(ty, store, before + stream).result)
  {
    assert stream[..|stream|] == stream;
    assert k > 0 ==> stream[k - 1] in stream;
    if After(ty, store, before, stream, k).Completed? {
      FinishedStaysFinished(ty, store, before, stream, k, |stream|);
    }
  }

  lemma AfterSnoc<P, R, S, O, E>(
    ty: RoundType<P, R, S, O, E>, store: S, before: seq<Incoming<P>>, stream: seq<Incoming<P>>, k: nat)
    requires k < |stream|
    ensures before + stream[..k + 1] == before + stream[..k] + [stream[k]]
    ensures ty.roundOf(stream[k].msg) != ty.round ==>
      After(ty, store, before, stream, k + 1) == After(ty, store, before, stream, k)
  {
    assert before + stream[..k + 1] == before + stream[..k] + [stream[k]];
    AloneSnoc(ty, store, before + stream[..k], stream[k]);
  }

  lemma KnownTail<P>(roundOf: P -> u16, before: seq<Incoming<P>>, ms: seq<Incoming<P>>, registered: set<u16>)
    requires Known(roundOf, before + ms, registered)
    ensures Known(roundOf, ms, registered)
  {
    forall m | m in ms ensures roundOf(m.msg) in registered {
      assert m in before + ms;
    }
  }

  /** The state of the `complete` loop having consumed the first `k` messages of `stream`. */
  ghost predicate Stage<P, R, S, O, E>(
    ty: RoundType<P, R, S, O, E>, store: S, before: seq<Incoming<P>>, stream: seq<Incoming<P>>, k: nat,
    registered: set<u16>, c: Completion<O, E>, failed: Option<CompleteError<E>>)
    requires k <= |stream|
  {
    && (k > 0 ==> After(ty, store, before, stream, k - 1).InProgress? && Known(ty.roundOf, stream[..k - 1], registered))
    && match c
       case Returned(own) =>
         failed.None? && After(ty, store, before, stream, k) == Completed(own)
       case NotYet =>
         && After(ty, store, before, stream, k).InProgress?
         && (k > 0 && ty.roundOf(stream[k - 1].msg) !in registered ==>
              failed == Some(InRound(UnregisteredRound(ty.roundOf(stream[k - 1].msg), false))))
         && (k == 0 || ty.roundOf(stream[k - 1].msg) in registered ==>
              failed.None? || (k == |stream| && failed == Some(UnexpectedEof)))
  }

  /** Where the loop stops. */
  lemma StageOutcome<P, R, S, O, E>(
    ty: RoundType<P, R, S, O, E>, store: S, before: seq<Incoming<P>>, stream: seq<Incoming<P>>, k: nat,
    registered: set<u16>, c: Completion<O, E>, failed: Option<CompleteError<E>>)
    requires k <= |stream| && Stage(ty, store, before, stream, k, registered, c, failed)
    requires c.NotYet? ==> failed.Some?
    ensures
      var result := if failed.Some? then Err(failed.value) else AsComplete(c.result);
      Outcome(ty, store, before, stream, k, registered, result)
    ensures After(ty, store, before, stream, k).Completed? <==> c.Returned?
    ensures c.Returned? ==> failed.None?
  {
  }

  class MpcParty<P(!new), R, S, O, E> {
    const router: RoundsRouter<P, R, S, O, E>
    /** What the delivery layer has yet to yield before it closes. */
    var io: seq<Incoming<P>>

    constructor (router: RoundsRouter<P, R, S, O, E>, io: seq<Incoming<P>>)
      ensures this.router == router && this.io == io
    {
      this.router, this.io := router, io;
    }

    /** The loop of `complete` has consumed the first `k` messages of `stream`; `taken` were the rounds
        taken before. */
    ghost predicate InLoop(
      w: nat, before: seq<Incoming<P>>, stream: seq<Incoming<P>>, taken: set<u16>, k: nat,
      c: Completion<O, E>, failed: Option<CompleteError<E>>)
      reads this, router
    {
      var r := router.types(w).round;
      && router.Valid() && r in router.stores && k <= |stream| && io == stream[k..]
      && (failed.None? ==> router.routed == before + stream[..k])
      && (c.NotYet? && failed.None? ==> router.Live(w))
      && Stage(router.TypeOf(r), router.stores[r].1, before, stream, k, router.stores.Keys, c, failed)
      && router.taken == if c.NotYet? then taken else taken + {r}
    }

    /** One iteration of the loop: take a message, route it, and ask for the round again. */
    method Pull(
      w: nat, ghost before: seq<Incoming<P>>, ghost stream: seq<Incoming<P>>, ghost taken: set<u16>, ghost k: nat)
      returns (c: Completion<O, E>, failed: Option<CompleteError<E>>)
      requires InLoop(w, before, stream, taken, k, NotYet, None) && k < |stream|
      modifies this, router
      ensures InLoop(w, before, stream, taken, k + 1, c, failed) && router.stores == old(router.stores)
    {
      ghost var r := router.types(w).round;
      KnownTail(router.roundOf, before, stream[..k], router.stores.Keys);
      AfterSnoc(router.TypeOf(r), router.stores[r].1, before, stream, k);
      var error := router.ReceivedMsg(io[0]);
      io := io[1..];
      c, failed := NotYet, None;
      if error.None? {
        c := router.CompleteRound(w);
      } else {
        failed := Some(InRound(error.value));
      }
    }

    /** Consumes exactly the shortest prefix of the stream that ends the round, and returns what the
        round run alone on its share of that prefix returns; nothing is consumed if it had ended
        before. It gives up only at the end of the stream, or at a message of an unregistered round,
        with the round still unfinished. */
    method Complete(w: nat) returns (result: Result<O, CompleteError<E>>, ghost k: nat)
      requires router.Valid() && router.Live(w)
      modifies this, router
      ensures router.Valid() && router.stores == old(router.stores)
      ensures k <= |old(io)| && io == old(io)[k..]
      ensures
        var r := router.types(w).round;
        var ty, store := router.TypeOf(r), router.stores[r].1;
        && Outcome(ty, store, old(router.routed), old(io), k, router.stores.Keys, result)
        && if After(ty, store, old(router.routed), old(io), k).Completed? then
             router.routed == old(router.routed) + old(io)[..k] && router.taken == old(router.taken) + {r}
           else
             router.taken == old(router.taken)
    {
      ghost var stream, before, taken, r := io, router.routed, router.taken, router.types(w).round;
      k := 0;
      assert before + stream[..0] == before;
      var c := router.CompleteRound(w);
      var failed := None;
      while c.NotYet? && failed.None?
        invariant InLoop(w, before, stream, taken, k, c, failed) && router.stores == old(router.stores)
        decreases |stream| - k, c.NotYet? && failed.None?
      {
        if io == [] {
          failed := Some(UnexpectedEof);
        } else {
          c, failed := Pull(w, before, stream, taken, k);
          k := k + 1;
        }
      }
      StageOutcome(router.TypeOf(r), router.stores[r].1, before, stream, k, router.stores.Keys, c, failed);
      result := if failed.Some? then Err(failed.value) else AsComplete(c.result);
    }

    ghost predicate AllRegistered()
      reads this, router
    {
      forall m :: m in io ==> router.roundOf(m.msg) in router.stores
    }

    /** A round that its whole stream ends is completed with that result, and the rest of the stream
        stays available to other rounds. */
    method CompleteNext(w: nat, ghost all: seq<Incoming<P>>) returns (result: Result<O, CompleteError<E>>)
      requires router.Valid() && router.Live(w) && AllRegistered()
      requires router.routed + io == all && Final(w, all).Completed?
      modifies this, router
      ensures router.Valid() && router.stores == old(router.stores) && AllRegistered()
      ensures router.routed + io == all
      ensures router.taken == old(router.taken) + {router.types(w).round}
      ensures result == AsComplete(old(Final(w, all)).result)
    {
      ghost var before, stream := router.routed, io;
      ghost var r := router.types(w).round;
      ghost var k;
      result, k := Complete(w);
      CompletesBeforeTheEnd(router.TypeOf(r), router.stores[r].1, before, stream, k, router.stores.Keys, result);
      assert before + stream[..k] + stream[k..] == all;
    }

    /** Completing several rounds one after the other over any interleaving of their messages returns,
        for each of them, what it returns run alone on its own messages of the whole stream. */
    method CompleteInOrder(ws: seq<nat>) returns (results: seq<Result<O, CompleteError<E>>>)
      requires router.Valid() && AllRegistered() && forall w :: w in ws ==> router.Live(w)
      requires forall j, l :: 0 <= j < l < |ws| ==> router.types(ws[j]).round != router.types(ws[l]).round
      requires forall w :: w in ws ==> Final(w, router.routed + io).Completed?
      modifies this, router
      ensures router.Valid() && router.stores == old(router.stores)
      ensures |results| == |ws|
      ensures forall j :: 0 <= j < |ws| ==> results[j] == AsComplete(old(Final(ws[j], router.routed + io)).result)
      decreases |ws|
    {
      if ws == [] {
        return [];
      }
      ghost var all := router.routed + io;
      var first := CompleteNext(ws[0], all);
      forall w | w in ws[1..]
        ensures router.Live(w) && Final(w, all) == old(Final(w, router.routed + io))
      {
        var j :| 1 <= j < |ws| && ws[j] == w;
        assert router.types(ws[0]).round != router.types(ws[j]).round;
        assert old(router.Live(w));
      }
      var rest := CompleteInOrder(ws[1..]);
      results := [first] + rest;
    }

    ghost function Final(w: nat, all: seq<Incoming<P>>): (c: Cell<S, O, E>)
      requires router.Live(w)
      reads router
      ensures !c.Gone?
    {
      Alone(router.types(w), router.stores[router.types(w).round].1, all)
    }
  }
}
