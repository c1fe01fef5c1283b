/** Rounds whose store is `RoundInput`: where the messages of their output come from. */
module InputRound {
  import opened Messages
  import opened RoundStore
  import opened Router
  import opened SimpleStore

  /** A store that takes and outputs what `RoundInput` does; only its errors may be named differently. */
  ghost predicate ActsAsInput<R(!new), E>(ops: StoreOps<RoundInput<R>, R, RoundMsgs<R>, E>) {
    && ops.output == Ops<R>().output && ops.wantsMore == Ops<R>().wantsMore
    && forall s, m :: ops.add(s, m).store == Add(s, m).store && (ops.add(s, m).error.None? <==> Add(s, m).error.None?)
  }

  lemma RelabelledActsAsInput<R(!new), E>(rename: InputError -> E)
    ensures ActsAsInput(Relabelled(Ops<R>(), rename))
  {
  }

  lemma {:induction false} SameContents<R(!new), E>(
    ops: StoreOps<RoundInput<R>, R, RoundMsgs<R>, E>, store: RoundInput<R>, rs: seq<Incoming<R>>)
    requires ActsAsInput(ops)
    ensures AddAll(ops, store, rs) == AddAll(Ops(), store, rs)
  {
    if rs != [] {
      SameContents(ops, store, rs[..|rs| - 1]);
    }
  }

  /** In a round that ended well, the message in each party's slot was received from that party, in that
      round, with the id on record. */
  lemma CollectedFromSender<P, R(!new), E>(
    ty: RoundType<P, R, RoundInput<R>, RoundMsgs<R>, E>,
    i: u16, n: u16, expected: MessageType, history: seq<Incoming<P>>, q: u16) returns (m: Incoming<P>)
    requires 2 <= n && i < n && q < n && q != i
    requires ActsAsInput(ty.ops)
    requires Alone(ty, New(i, n, expected), history).Completed?
    requires Alone(ty, New(i, n, expected), history).result.Ok?
    ensures
      var o := Alone(ty, New(i, n, expected), history).result.value;
      && o.i == i && |o.messages| == |o.ids| == n - 1
      && m in history && m.sender == q && ty.roundOf(m.msg) == ty.round
      && ty.fromProto(m.msg) == Some(o.messages[Slot(i, q)]) && m.id == o.ids[Slot(i, q)]
  {
    var own := OfRound(ty.roundOf, history, ty.round);
    var k := FinishedRoundIsItsBareStore(ty, New(i, n, expected), own);
    var rs := Decoded(ty, own[..k]);
    var o := RunRound(ty, New(i, n, expected), own).result.value;
    SameContents(ty.ops, New(i, n, expected), rs);
    assert Output(AddAll(Ops(), New(i, n, expected), rs)) == Some(o);
    OutputShape(i, n, expected, rs);
    ViewsAgree(i, n, expected, rs, o.messages[0], q);
    ViewsOfParty(o, o.messages[0], q);
    var first := FirstFrom(expected, rs, q).value;
    var j :| 0 <= j < |rs| && rs[j] == first;
    DecodedAt(ty, own[..k], j);
    m := own[j];
    assert own[..k][j] == own[j];
    OfRoundMembers(ty.roundOf, history, ty.round);
  }

  /** A round over `RoundInput`, its errors relabelled or not, fails only with an error of its store. */
  lemma InputRoundFails<P(!new), R(!new), E>(
    ty: RoundType<P, R, RoundInput<R>, RoundMsgs<R>, E>, store: RoundInput<R>, history: seq<Incoming<P>>)
    requires ActsAsInput(ty.ops) && forall m :: m in history ==> !Misrouted(ty, m)
    ensures
      var c := Alone(ty, store, history);
      c.Completed? ==> c.result.Ok? || c.result.error.ProcessMsg?
  {
    InputIsLawful<R>();
    assert forall s: RoundInput<R> :: !ty.ops.wantsMore(s) ==> ty.ops.output(s).Some?;
    OnlyTheStoreFails(ty, _ => true, store, history);
  }

  // ----- Rounds in which nobody misbehaves

  /** Messages of a round that convert, are of the right type and come from different other parties. */
  ghost predicate OneEach<P, R, S, O, E>(
    ty: RoundType<P, R, S, O, E>, i: u16, n: u16, expected: MessageType, own: seq<Incoming<P>>)
  {
    && (forall m :: m in own ==>
         ty.fromProto(m.msg).Some? && m.sender < n && m.sender != i && Accepts(expected, m.msgType))
    && forall a, b :: 0 <= a < b < |own| ==> own[a].sender != own[b].sender
  }

  ghost predicate SentBy<P>(own: seq<Incoming<P>>, q: u16) {
    exists m :: m in own && m.sender == q
  }

  /** Adding the message of one more party. */
  lemma OneEachSnoc<P, R, S, O, E>(
    ty: RoundType<P, R, S, O, E>, i: u16, n: u16, expected: MessageType, own: seq<Incoming<P>>, m: Incoming<P>)
    ensures OneEach(ty, i, n, expected, own + [m]) <==>
      && OneEach(ty, i, n, expected, own) && !SentBy(own, m.sender)
      && ty.fromProto(m.msg).Some? && m.sender < n && m.sender != i && Accepts(expected, m.msgType)
  {
    if OneEach(ty, i, n, expected, own + [m]) {
      assert m in own + [m];
      assert forall e :: e in own ==> e in own + [m];
      assert forall a :: 0 <= a < |own| ==> (own + [m])[a] == own[a];
      assert forall a :: 0 <= a < |own| ==> (own + [m])[a].sender != (own + [m])[|own|].sender;
    } else if OneEach(ty, i, n, expected, own) && !SentBy(own, m.sender) {
      assert forall a :: 0 <= a < |own| ==> own[a] in own;
    }
  }

  lemma SentBySnoc<P>(own: seq<Incoming<P>>, m: Incoming<P>, q: u16)
    ensures SentBy(own + [m], q) <==> SentBy(own, q) || m.sender == q
  {
    assert m in own + [m] && forall e :: e in own ==> e in own + [m];
  }

  /** Converting messages keeps their senders. */
  lemma {:induction false} DecodedSenders<P, R, S, O, E>(ty: RoundType<P, R, S, O, E>, own: seq<Incoming<P>>, q: u16)
    requires Convertible(ty, own)
    ensures SentBy(Decoded(ty, own), q) <==> SentBy(own, q)
  {
    if own != [] {
      var init, last := own[..|own| - 1], own[|own| - 1];
      assert own == init + [last];
      DecodedSenders(ty, init, q);
      SentBySnoc(init, last, q);
      SentBySnoc(Decoded(ty, init), last.With(ty.fromProto(last.msg).value), q);
    }
  }

  lemma DecodedTypes<P, R, S, O, E>(ty: RoundType<P, R, S, O, E>, own: seq<Incoming<P>>, r: Incoming<R>)
    requires Convertible(ty, own) && r in Decoded(ty, own)
    ensures exists m :: m in own && m.sender == r.sender && m.msgType == r.msgType
  {
    var j :| 0 <= j < |own| && Decoded(ty, own)[j] == r;
    DecodedAt(ty, own, j);
    assert own[j] in own;
  }

  lemma NextIsAccepted<P, R(!new), E>(
    ty: RoundType<P, R, RoundInput<R>, RoundMsgs<R>, E>,
    i: u16, n: u16, expected: MessageType, own: seq<Incoming<P>>, m: Incoming<P>)
    requires 2 <= n && i < n && ActsAsInput(ty.ops) && OneEach(ty, i, n, expected, own + [m])
    requires RunRound(ty, New(i, n, expected), own).InProgress?
    ensures
      ty.ops.add(RunRound(ty, New(i, n, expected), own).store, m.With(ty.fromProto(m.msg).value)).error.None?
  {
    OneEachSnoc(ty, i, n, expected, own, m);
    UnfinishedRoundIsItsBareStore(ty, New(i, n, expected), own);
    var rs := Decoded(ty, own);
    SameContents(ty.ops, New(i, n, expected), rs);
    DecodedSenders(ty, own, m.sender);
    RejectedExactly(i, n, expected, rs, m.With(ty.fromProto(m.msg).value));
  }

  /** Such a round does not fail. */
  lemma {:induction false} HonestRoundNeverFails<P, R(!new), E>(
    ty: RoundType<P, R, RoundInput<R>, RoundMsgs<R>, E>, i: u16, n: u16, expected: MessageType, own: seq<Incoming<P>>)
    requires 2 <= n && i < n && ActsAsInput(ty.ops) && OneEach(ty, i, n, expected, own)
    ensures
      var c := RunRound(ty, New(i, n, expected), own);
      c.Completed? ==> c.result.Ok?
  {
    if own != [] {
      var init, m := own[..|own| - 1], own[|own| - 1];
      assert own == init + [m];
      OneEachSnoc(ty, i, n, expected, init, m);
      HonestRoundNeverFails(ty, i, n, expected, init);
      if RunRound(ty, New(i, n, expected), init).InProgress? {
        NextIsAccepted(ty, i, n, expected, init, m);
      }
    }
  }

  /** Such a round completes once every other party's message has arrived. */
  lemma HonestRoundCompletes<P, R(!new), E>(
    ty: RoundType<P, R, RoundInput<R>, RoundMsgs<R>, E>, i: u16, n: u16, expected: MessageType, own: seq<Incoming<P>>)
    requires 2 <= n && i < n && ActsAsInput(ty.ops) && OneEach(ty, i, n, expected, own)
    requires forall q: u16 :: q < n && q != i ==> SentBy(own, q)
    ensures
      var c := RunRound(ty, New(i, n, expected), own);
      c.Completed? && c.result.Ok?
  {
    HonestRoundNeverFails(ty, i, n, expected, own);
    if RunRound(ty, New(i, n, expected), own).InProgress? {
      UnfinishedRoundIsItsBareStore(ty, New(i, n, expected), own);
      var rs := Decoded(ty, own);
      SameContents(ty.ops, New(i, n, expected), rs);
      OutputsExactlyWhenFull(i, n, expected, rs);
      forall q: u16 | q < n && q != i ensures FirstFrom(expected, rs, q).Some? {
        DecodedSenders(ty, own, q);
        var r :| r in rs && r.sender == q;
        DecodedTypes(ty, own, r);
      }
    }
  }

  /** A round of point-to-point messages completes once the message of each other party has arrived, in
      whatever order, and then holds it. */
  lemma P2PRoundCompletes<P, R(!new), E>(
    ty: RoundType<P, R, RoundInput<R>, RoundMsgs<R>, E>, i: u16, n: u16, history: seq<Incoming<P>>, q: u16)
    returns (m: Incoming<P>)
    requires 2 <= n && i < n && q < n && q != i && ActsAsInput(ty.ops)
    requires
      var own := OfRound(ty.roundOf, history, ty.round);
      && (forall e :: e in own ==> ty.fromProto(e.msg).Some? && e.sender < n && e.sender != i && e.msgType == P2P)
      && (forall a, b :: 0 <= a < b < |own| ==> own[a].sender != own[b].sender)
      && forall p: u16 :: p < n && p != i ==> SentBy(own, p)
    ensures Alone(ty, New(i, n, P2P), history).Completed? && Alone(ty, New(i, n, P2P), history).result.Ok?
    ensures
      var o := Alone(ty, New(i, n, P2P), history).result.value;
      && m in history && m.sender == q && |o.messages| == |o.ids| == n - 1
      && ty.fromProto(m.msg) == Some(o.messages[Slot(i, q)]) && m.id == o.ids[Slot(i, q)]
  {
    var own := OfRound(ty.roundOf, history, ty.round);
    assert forall e :: e in own ==> Accepts(P2P, e.msgType);
    assert OneEach(ty, i, n, P2P, own);
    HonestRoundCompletes(ty, i, n, P2P, own);
    m := CollectedFromSender(ty, i, n, P2P, history, q);
  }
}
