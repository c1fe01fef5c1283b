/**
 Echo broadcast among parties that all follow the protocol: reliable rounds over `RoundInput` come to
 their output, whatever the schedule.
 */
module EchoHonest {
  import opened Messages
  import opened RoundStore
  import opened Router
  import opened EchoMessages
  import opened SimpleStore
  import opened EchoStore
  import opened InputRound
  import opened EchoNetwork

  type InputSetup<!MP, !R, H> = Setup<MP, R, RoundInput<R>, RoundMsgs<R>, InputError, H>
  type InputNet<MP, R, H> = Network<MP, RoundMsgs<R>, InputError, H>

  // ----- The main round completes

  ghost function FreshMain<MP, R>(p: u16, n: u16): MainRound<MP, RoundInput<R>, RoundMsgs<R>>
    requires 2 <= n && p < n
  {
    MainNew(Ops(), p, n, New(p, n, Broadcast(true)))
  }

  lemma MainNextIsAccepted<MP(!new), R(!new), H(!new)>(
    su: InputSetup<MP, R, H>, p: u16, own: seq<Wire<MP, H>>, m: Wire<MP, H>)
    requires ValidSetup(su) && OverRoundInput(su) && p < su.n
    requires OneEach(MainType(su), p, su.n, Broadcast(false), own + [m])
    requires RunRound(MainType(su), FreshMain(p, su.n), own).InProgress?
    ensures
      var mr := RunRound(MainType(su), FreshMain(p, su.n), own).store;
      MainAdd(su.codec, su.ops, mr, m.With(MainType(su).fromProto(m.msg).value)).error.None?
  {
    var ty := MainType(su);
    OneEachSnoc(ty, p, su.n, Broadcast(false), own, m);
    UnfinishedRoundIsItsBareStore(ty, FreshMain(p, su.n), own);
    var rs, r := Decoded(ty, own), m.With(ty.fromProto(m.msg).value);
    DecodedSenders(ty, own, m.sender);
    ReliableSenders(rs, m.sender);
    RejectedExactly(p, su.n, Broadcast(true), Reliable(rs), Incoming(r.id, r.sender, Broadcast(true), r.msg));
    WrapperRejectsExactly(su.codec, p, su.n, rs, r);
  }

  /** A message that is accepted leaves the main round ongoing or with its output. */
  lemma AcceptedGoesOn<MP, S, R, O, E>(
    codec: Codec<MP, R>, ops: StoreOps<S, R, O, E>, mr: MainRound<MP, S, O>, m: Incoming<R>)
    requires MainAdd(codec, ops, mr, m).error.None?
    ensures
      var mr' := MainAdd(codec, ops, mr, m).store;
      mr'.state.Ongoing? || MainOutput(mr').Some?
  {
  }

  lemma ReceivedOk<P, R, S, O, E>(ty: RoundType<P, R, S, O, E>, store: S, ms: seq<Incoming<P>>, m: Incoming<P>, r: R)
    requires RunRound(ty, store, ms).InProgress? && ty.fromProto(m.msg) == Some(r)
    requires
      var added := ty.ops.add(RunRound(ty, store, ms).store, m.With(r));
      added.error.None? && (ty.ops.wantsMore(added.store) || ty.ops.output(added.store).Some?)
    ensures
      var c := RunRound(ty, store, ms + [m]);
      c.Completed? ==> c.result.Ok?
  {
    RunRoundSnoc(ty, store, ms, m);
  }

  lemma {:induction false} HonestMainNeverFails<MP(!new), R(!new), H(!new)>(
    su: InputSetup<MP, R, H>, p: u16, own: seq<Wire<MP, H>>)
    requires ValidSetup(su) && OverRoundInput(su) && p < su.n
    requires OneEach(MainType(su), p, su.n, Broadcast(false), own)
    ensures
      var c := RunRound(MainType(su), FreshMain(p, su.n), own);
      c.Completed? ==> c.result.Ok?
  {
    if own != [] {
      var init, m := own[..|own| - 1], own[|own| - 1];
      assert own == init + [m];
      OneEachSnoc(MainType(su), p, su.n, Broadcast(false), init, m);
      HonestMainNeverFails(su, p, init);
      if RunRound(MainType(su), FreshMain(p, su.n), init).InProgress? {
        MainNextIsAccepted(su, p, init, m);
        var mr, r := RunRound(MainType(su), FreshMain(p, su.n), init).store, MainType(su).fromProto(m.msg).value;
        AcceptedGoesOn(su.codec, su.ops, mr, m.With(r));
        ReceivedOk(MainType(su), FreshMain(p, su.n), init, m, r);
      } else {
        EndedRoundIgnoresTheRest(MainType(su), FreshMain(p, su.n), init, [m]);
      }
    }
  }

  /** The main round completes once every other party's message has arrived. */
  lemma HonestMainCompletes<MP(!new), R(!new), H(!new)>(su: InputSetup<MP, R, H>, p: u16, own: seq<Wire<MP, H>>)
    requires ValidSetup(su) && OverRoundInput(su) && p < su.n
    requires OneEach(MainType(su), p, su.n, Broadcast(false), own)
    requires forall q: u16 :: q < su.n && q != p ==> SentBy(own, q)
    ensures
      var c := RunRound(MainType(su), FreshMain(p, su.n), own);
      c.Completed? && c.result.Ok?
  {
    var ty, store := MainType(su), New<R>(p, su.n, Broadcast(true));
    HonestMainNeverFails(su, p, own);
    if RunRound(ty, FreshMain(p, su.n), own).InProgress? {
      UnfinishedRoundIsItsBareStore(ty, FreshMain(p, su.n), own);
      var rs := Decoded(ty, own);
      WrapperIsTransparent(su.codec, Ops(), p, su.n, store, rs);
      forall q: u16 | q < su.n && q != p ensures FirstFrom(Broadcast(true), Reliable(rs), q).Some? {
        DecodedSenders(ty, own, q);
        ReliableSenders(rs, q);
      }
      OutputsExactlyWhenFull(p, su.n, Broadcast(true), Reliable(rs));
    }
  }

  // ----- All vectors coincide

  /** What is logged for a party came from that party. */
  lemma {:induction false} LoggedFrom<P, R>(codec: Codec<P, R>, ms: seq<Incoming<R>>, s: u16) returns (m: Incoming<R>)
    requires Logged(codec, ms, s).Some?
    ensures m in ms && m.sender == s && Logged(codec, ms, s) == Some(codec.toProto(m.msg))
  {
    var init, last := ms[..|ms| - 1], ms[|ms| - 1];
    assert ms == init + [last] && Reliable(ms)[..|ms| - 1] == Reliable(init);
    if Logged(codec, init, s).Some? {
      m := LoggedFrom(codec, init, s);
    } else {
      m := last;
    }
  }

  /** The log of a main round that has its output is full, but for the local party's slot. */
  lemma LogIsFull<P(!new), R(!new)>(
    codec: Codec<P, R>, i: u16, n: u16, ms: seq<Incoming<R>>, main: NeedsOwnMsg<P, RoundMsgs<R>>, s: u16)
    requires RoundTrips(codec) && 2 <= n && i < n && s < n && s != i
    requires
      var store := MainNew(Ops(), i, n, New(i, n, Broadcast(true)));
      && AllAccepted(MainOps(codec, Ops()), store, ms)
      && MainOutput(AddAll(MainOps(codec, Ops()), store, ms)) == Some(main)
    ensures |main.received| == n && main.received[s] == Logged(codec, ms, s) && Logged(codec, ms, s).Some?
  {
    var bare := AddAll(Ops(), New(i, n, Broadcast(true)), Reliable(ms));
    WrapperIsTransparent(codec, Ops(), i, n, New(i, n, Broadcast(true)), ms);
    OutputsExactlyWhenFull(i, n, Broadcast(true), Reliable(ms));
    assert SimpleStore.Output(bare).Some?;
    assert FirstFrom(Broadcast(true), Reliable(ms), s).Some?;
  }

  /** The log of a main round that ended well holds a message received from each other party. */
  lemma SlotCameIn<MP(!new), R(!new), H(!new)>(su: InputSetup<MP, R, H>, p: u16, history: seq<Wire<MP, H>>, s: u16)
    returns (m: MP, wire: Wire<MP, H>)
    requires ValidSetup(su) && OverRoundInput(su) && p < su.n && s < su.n && s != p
    requires MainProgress(su, p, history).Completed? && MainProgress(su, p, history).result.Ok?
    ensures
      var main := MainProgress(su, p, history).result.value;
      |main.received| == su.n && main.received[s] == Some(m)
    ensures wire in history && wire.sender == s && wire.msg == Main(m) && su.codec.roundOf(m) == su.codec.round
  {
    var ms := AcceptedByMain(su, p, history);
    LogIsFull(su.codec, p, su.n, ms, MainProgress(su, p, history).result.value, s);
    var r := LoggedFrom(su.codec, ms, s);
    wire := CameIn(su, history, ms, r);
    m := su.codec.toProto(r.msg);
    assert su.codec.fromProto(m).Some? && ExactOn(su.codec, m);
  }

  /** The vector of a party holds, for each other honest party, a message that this one sent in the round. */
  lemma SlotWasSent<MP(!new), R(!new), H(!new)>(su: InputSetup<MP, R, H>, net: InputNet<MP, R, H>, p: u16, s: u16)
    returns (m: MP)
    requires ValidSetup(su) && OverRoundInput(su) && Inv(su, net) && p in su.honest && s in su.honest && s != p
    requires net.parties[p].vector.Some?
    ensures |net.parties[p].vector.value| == su.n && net.parties[p].vector.value[s] == Some(m)
    ensures Post(s, Main(m)) in net.posts && su.codec.roundOf(m) == su.codec.round
  {
    var wire;
    assert PartyOk(su, net, p) && VectorOk(su, net.posts, p, net.parties[p]);
    m, wire := SlotCameIn(su, p, net.parties[p].history, s);
    assert Authentic(su.honest, net.posts, net.parties[p].history);
  }

  ghost predicate AllHonest<MP, R, S, O, E, H>(su: Setup<MP, R, S, O, E, H>) {
    forall p: u16 :: p < su.n ==> p in su.honest
  }

  /** What party `p` has sent in the round is in its own slot: it has not sent again after leaving it. */
  ghost predicate SentOnce<MP(!new), R, S, O, E, H>(su: Setup<MP, R, S, O, E, H>, net: Network<MP, O, E, H>, p: u16)
    requires p in net.parties && net.parties[p].vector.Some?
  {
    forall m :: Post(p, Main(m)) in net.posts && su.codec.roundOf(m) == su.codec.round ==>
      p < |net.parties[p].vector.value| && net.parties[p].vector.value[p] == Some(m)
  }

  lemma VectorLength<MP(!new), R(!new), H(!new)>(su: InputSetup<MP, R, H>, net: InputNet<MP, R, H>, p: u16)
    requires ValidSetup(su) && Inv(su, net) && p in su.honest && net.parties[p].vector.Some?
    ensures |net.parties[p].vector.value| == su.n
  {
    assert PartyOk(su, net, p) && VectorOk(su, net.posts, p, net.parties[p]);
    var ms := AcceptedByMain(su, p, net.parties[p].history);
    WrapperIsTransparent(su.codec, su.ops, p, su.n, su.init(p), ms);
  }

  /** The slot of a party is the same in every vector. */
  lemma SameSlot<MP(!new), R(!new), H(!new)>(su: InputSetup<MP, R, H>, net: InputNet<MP, R, H>, p: u16, s: u16)
    requires ValidSetup(su) && OverRoundInput(su) && Inv(su, net) && p in su.honest && s in su.honest
    requires net.parties[p].vector.Some? && net.parties[s].vector.Some? && SentOnce(su, net, s)
    ensures |net.parties[p].vector.value| == |net.parties[s].vector.value| == su.n
    ensures net.parties[p].vector.value[s] == net.parties[s].vector.value[s]
  {
    VectorLength(su, net, p);
    VectorLength(su, net, s);
    if p != s {
      var m := SlotWasSent(su, net, p, s);
    }
  }

  lemma SameVectors<MP(!new), R(!new), H(!new)>(su: InputSetup<MP, R, H>, net: InputNet<MP, R, H>, p: u16, q: u16)
    requires ValidSetup(su) && OverRoundInput(su) && Inv(su, net) && AllHonest(su) && p in su.honest && q in su.honest
    requires forall s :: s in su.honest ==> net.parties[s].vector.Some? && SentOnce(su, net, s)
    ensures net.parties[p].vector == net.parties[q].vector
  {
    var v, w := net.parties[p].vector.value, net.parties[q].vector.value;
    VectorLength(su, net, p);
    VectorLength(su, net, q);
    forall s | 0 <= s < su.n ensures v[s] == w[s] {
      SameSlot(su, net, p, s);
      SameSlot(su, net, q, s);
    }
    assert v == w;
  }

  /** Whoever has collected an echo of every other party, all parties have left the main round. */
  lemma EveryoneHashed<MP(!new), R(!new), H(!new)>(su: InputSetup<MP, R, H>, net: InputNet<MP, R, H>, p: u16, q: u16)
    requires ValidSetup(su) && Inv(su, net) && p in su.honest && q in su.honest
    requires
      var progress := EchoProgress(su, p, net.parties[p].history);
      net.parties[p].check.Some? && progress.Completed? && progress.result.Ok?
    ensures net.parties[q].vector.Some?
    ensures p != q ==> |EchoProgress(su, p, net.parties[p].history).result.value.messages| == su.n - 1
    ensures p != q ==>
      EchoProgress(su, p, net.parties[p].history).result.value.messages[Slot(p, q)] ==
      su.hash(net.parties[q].vector.value, su.codec.round, su.n)
  {
    assert PartyOk(su, net, q);
    if p != q {
      EchoWasSent(su, net, p, q);
      assert VectorOk(su, net.posts, q, net.parties[q]);
    }
  }

  /** All echoes collected are the hash of the own vector. */
  lemma EchoesAgree<MP(!new), R(!new), H(!new)>(su: InputSetup<MP, R, H>, net: InputNet<MP, R, H>, p: u16)
    requires ValidSetup(su) && OverRoundInput(su) && AllHonest(su) && Inv(su, net) && p in su.honest
    requires forall s :: s in net.parties && net.parties[s].vector.Some? ==> SentOnce(su, net, s)
    requires
      var progress := EchoProgress(su, p, net.parties[p].history);
      net.parties[p].check.Some? && progress.Completed? && progress.result.Ok?
    ensures
      forall h :: h in EchoProgress(su, p, net.parties[p].history).result.value.messages ==>
        h == net.parties[p].check.value.expectedHash
  {
    var echoes := EchoProgress(su, p, net.parties[p].history).result.value;
    assert PartyOk(su, net, p) && VectorOk(su, net.posts, p, net.parties[p]);
    forall q | q in su.honest ensures net.parties[q].vector.Some? {
      EveryoneHashed(su, net, p, q);
    }
    EveryoneHashed(su, net, p, if p == 0 then 1 else 0);
    forall k | 0 <= k < |echoes.messages| ensures echoes.messages[k] == net.parties[p].check.value.expectedHash {
      var q: u16 := if k < p then k else k + 1;
      EveryoneHashed(su, net, p, q);
      SameVectors(su, net, p, q);
    }
  }

  /** Completeness: in every run among honest parties that do not send again in the round once they have
      left it, a party that has collected an echo of every other one gets its output. */
  lemma HonestRoundSucceeds<MP(!new), R(!new), H(!new)>(
    su: InputSetup<MP, R, H>, steps: seq<Step<MP, H>>, net: InputNet<MP, R, H>, p: u16)
    requires ValidSetup(su) && OverRoundInput(su) && AllHonest(su) && Exec(su, steps) == Some(net)
    requires forall s :: s in net.parties && net.parties[s].vector.Some? ==> SentOnce(su, net, s)
    requires Enabled(su, net, FinishEcho(p)) && EchoProgress(su, p, net.parties[p].history).result.Ok?
    ensures
      var result := Apply(su, net, FinishEcho(p)).parties[p].result;
      result.Some? && result.value.Ok?
  {
    InvHolds(su, steps, net);
    EchoesAgree(su, net, p);
  }

  /** The messages of the round in `history` are one of each other party. */
  ghost predicate Delivered<P, R, S, O, E>(ty: RoundType<P, R, S, O, E>, p: u16, n: u16, history: seq<Incoming<P>>) {
    var own := OfRound(ty.roundOf, history, ty.round);
    OneEach(ty, p, n, Broadcast(false), own) && forall q: u16 :: q < n && q != p ==> SentBy(own, q)
  }

  lemma MainLeaves<MP(!new), R(!new), H(!new)>(su: InputSetup<MP, R, H>, net: InputNet<MP, R, H>, p: u16)
    requires ValidSetup(su) && p in su.honest && p in net.parties && PartyOk(su, net, p)
    requires Enabled(su, net, FinishMain(p)) && MainProgress(su, p, net.parties[p].history).result.Ok?
    ensures
      var net' := Apply(su, net, FinishMain(p));
      && net'.parties[p].vector.Some? && net'.parties[p].result.None?
      && Post(p, Echo(su.codec.round, su.hash(net'.parties[p].vector.value, su.codec.round, su.n))) in net'.posts
  {
    var party := net.parties[p];
    var ms := AcceptedByMain(su, p, party.history);
    WrapperIsTransparent(su.codec, su.ops, p, su.n, su.init(p), ms);
    assert RecordOk(su, net.posts, p, party.sent);
    if party.sent[su.codec.round].Some? {
      assert ExactOn(su.codec, party.sent[su.codec.round].value);
    }
  }

  /** Once every other party's main message has been delivered, the party can leave the main round, with a
      vector and an echo. */
  lemma MainsSuffice<MP(!new), R(!new), H(!new)>(
    su: InputSetup<MP, R, H>, steps: seq<Step<MP, H>>, net: InputNet<MP, R, H>, p: u16)
    requires ValidSetup(su) && OverRoundInput(su) && Exec(su, steps) == Some(net) && p in su.honest && p in net.parties
    requires net.parties[p].vector.None? && net.parties[p].result.None?
    requires Delivered(MainType(su), p, su.n, net.parties[p].history)
    ensures Enabled(su, net, FinishMain(p))
    ensures
      var net' := Apply(su, net, FinishMain(p));
      && net'.parties[p].vector.Some? && net'.parties[p].result.None?
      && Post(p, Echo(su.codec.round, su.hash(net'.parties[p].vector.value, su.codec.round, su.n))) in net'.posts
  {
    InvHolds(su, steps, net);
    assert PartyOk(su, net, p);
    HonestMainCompletes(su, p, OfRound(MainType(su).roundOf, net.parties[p].history, MainType(su).round));
    MainLeaves(su, net, p);
  }

  /** Once every other party's echo has been delivered as well, the party can leave the echo round, and
      gets its output. */
  lemma EchoesSuffice<MP(!new), R(!new), H(!new)>(
    su: InputSetup<MP, R, H>, steps: seq<Step<MP, H>>, net: InputNet<MP, R, H>, p: u16)
    requires ValidSetup(su) && OverRoundInput(su) && AllHonest(su) && Exec(su, steps) == Some(net)
    requires forall s :: s in net.parties && net.parties[s].vector.Some? ==> SentOnce(su, net, s)
    requires p in su.honest && p in net.parties && net.parties[p].check.Some? && net.parties[p].result.None?
    requires Delivered(EchoType(su), p, su.n, net.parties[p].history)
    ensures Enabled(su, net, FinishEcho(p))
    ensures
      var result := Apply(su, net, FinishEcho(p)).parties[p].result;
      result.Some? && result.value.Ok?
  {
    RelabelledActsAsInput<H, EchoError<InputError>>(EchoLabel());
    var own := OfRound(EchoType(su).roundOf, net.parties[p].history, EchoType(su).round);
    HonestRoundCompletes(EchoType(su), p, su.n, Broadcast(false), own);
    HonestRoundSucceeds(su, steps, net, p);
  }
}
