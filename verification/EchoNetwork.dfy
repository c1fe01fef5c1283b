/**
 Echo broadcast as a distributed protocol. Honest parties run the engine; the other parties, the
 network and the schedule belong to an adversary, who may deliver anything in any order and any
 number of times, except that what is delivered in the name of an honest party was sent by it.

 The model follows one reliable round. Everything an honest party does in its other rounds is
 arbitrary as far as this round is concerned.
 */
module EchoNetwork {
  import opened Messages
  import opened RoundStore
  import opened Router
  import opened EchoMessages
  import opened SimpleStore
  import opened EchoStore
  import opened EchoEngine
  import opened InputRound

  datatype Setup<!MP, !R, !S, O, E, H> = Setup(
    n: u16,
    honest: set<u16>,
    /** All main rounds that require reliable broadcast, the one followed being `codec.round`. */
    reliable: set<u16>,
    codec: Codec<MP, R>,
    ops: StoreOps<S, R, O, E>,
    init: u16 -> S,
    hash: Hash<MP, H>)

  ghost predicate ValidSetup<MP(!new), R(!new), S, O, E, H>(su: Setup<MP, R, S, O, E, H>) {
    && 2 <= su.n
    && (forall p :: p in su.honest ==> p < su.n)
    && su.codec.round in su.reliable
    && LawfulCodec(su.codec) && su.codec.round <= MAX_MAIN_ROUND
  }

  type Wire<MP, H> = Incoming<EchoMsg<MP, H>>

  datatype Failure<+E> = Failure(error: CompleteRoundError<RoundError<EchoError<E>>>)

  /** An honest party: all it received, what the engine keeps, the vector it hashed and echoed, and what
      completing the round returned. */
  datatype Party<MP, O, E, H> = Party(
    history: seq<Wire<MP, H>>,
    sent: SentMsgs<MP>,
    vector: Option<seq<Option<MP>>>,
    check: Option<ReliabilityCheck<O, H>>,
    result: Option<Result<O, Failure<E>>>)

  datatype Post<MP, H> = Post(sender: u16, msg: EchoMsg<MP, H>)

  datatype Network<MP, O, E, H> = Network(parties: map<u16, Party<MP, O, E, H>>, posts: seq<Post<MP, H>>)

  datatype Step<MP, H> =
    | Send(p: u16, out: Outgoing<MP>)
    | Deliver(p: u16, m: Wire<MP, H>)
    | FinishMain(p: u16)
    | FinishEcho(p: u16)
    /** An echo is sent, and the record dropped, in another reliable round. */
    | EchoElsewhere(p: u16, round: u16, hash: H)

  // ----- What an honest party's rounds have come to, given all it received

  ghost function MainType<MP, R, S, O, E, H>(su: Setup<MP, R, S, O, E, H>)
    : RoundType<EchoMsg<MP, H>, R, MainRound<MP, S, O>, NeedsOwnMsg<MP, O>, EchoError<E>>
    requires su.codec.round <= MAX_MAIN_ROUND
  {
    TypeWith(MainCodec(su.codec), MainOps(su.codec, su.ops))
  }

  ghost function MainProgress<MP, R, S, O, E, H>(su: Setup<MP, R, S, O, E, H>, p: u16, history: seq<Wire<MP, H>>)
    : Cell<MainRound<MP, S, O>, NeedsOwnMsg<MP, O>, EchoError<E>>
    requires su.codec.round <= MAX_MAIN_ROUND
  {
    Alone(MainType(su), MainNew(su.ops, p, su.n, su.init(p)), history)
  }

  ghost function EchoType<MP, R, S, O, E, H>(su: Setup<MP, R, S, O, E, H>)
    : RoundType<EchoMsg<MP, H>, H, RoundInput<H>, RoundMsgs<H>, EchoError<E>>
    requires su.codec.round <= MAX_MAIN_ROUND
  {
    TypeWith(EchoCodec(su.codec), EchoOps())
  }

  ghost function EchoProgress<MP, R, S, O, E, H>(su: Setup<MP, R, S, O, E, H>, p: u16, history: seq<Wire<MP, H>>)
    : Cell<RoundInput<H>, RoundMsgs<H>, EchoError<E>>
    requires su.codec.round <= MAX_MAIN_ROUND && 2 <= su.n && p < su.n
  {
    Alone(EchoType(su), New(p, su.n, Broadcast(false)), history)
  }

  /** A message of a round whose number wraps around onto the one followed. */
  ghost predicate WrapsOnto<MP, R, S, O, E, H>(su: Setup<MP, R, S, O, E, H>, m: EchoMsg<MP, H>) {
    (match m case Echo(round, _) => round case Main(msg) => su.codec.roundOf(msg)) == su.codec.round + 32768
  }

  /** Over a lawful store, both rounds fail only with an error of their store: no bug of the router, no
      store that wants no more and does not output. */
  lemma RoundsFailByTheirStores<MP(!new), R(!new), S(!new), O(!new), E(!new), H(!new)>(
    su: Setup<MP, R, S, O, E, H>, inv: S -> bool, p: u16, history: seq<Wire<MP, H>>)
    requires ValidSetup(su) && p < su.n && Lawful(su.ops, inv) && inv(su.init(p))
    requires forall m :: m in history ==> !WrapsOnto(su, m.msg)
    ensures
      var c := MainProgress(su, p, history);
      c.Completed? ==> c.result.Ok? || c.result.error.ProcessMsg?
    ensures
      var c := EchoProgress(su, p, history);
      c.Completed? ==> c.result.Ok? || exists e :: c.result.error == ProcessMsg(FromEcho(HandleEcho(e)))
  {
    forall m | m in history ensures !Misrouted(MainType(su), m) && !Misrouted(EchoType(su), m) {
      WrappedExactness(su.codec, m.msg);
    }
    WrappingIsLawful(su.codec, su.ops, inv, p, su.n, su.init(p));
    OnlyTheStoreFails(MainType(su), MainInv(inv), MainNew(su.ops, p, su.n, su.init(p)), history);
    RelabelledActsAsInput<H, EchoError<E>>(EchoLabel());
    InputRoundFails(EchoType(su), New(p, su.n, Broadcast(false)), history);
    var c := EchoProgress(su, p, history);
    if c.Completed? && c.result.Err? {
      var e := LabelledErrors(EchoType(su), Ops(), EchoLabel<E>(), New(p, su.n, Broadcast(false)), history);
    }
  }

  /** Whose fault a failed main round is: the wrapped store rejected a message, a sender is out of range, or a
      party sent twice. */
  lemma MainRoundErrors<MP(!new), R(!new), S(!new), O(!new), E(!new), H(!new)>(
    su: Setup<MP, R, S, O, E, H>, inv: S -> bool, p: u16, history: seq<Wire<MP, H>>)
    requires ValidSetup(su) && p < su.n && Lawful(su.ops, inv) && inv(su.init(p))
    requires
      var c := MainProgress(su, p, history);
      c.Completed? && c.result.Err? && c.result.error.ProcessMsg?
    ensures
      match MainProgress(su, p, history).result.error.error
      case FromMain(_) => true
      case FromEcho(reason) =>
        reason == StoreReceivedTwoMsgsFromSameParty || (reason.UnknownSender? && su.n <= reason.i && reason.n == su.n)
  {
    var ty, store := MainType(su), MainNew(su.ops, p, su.n, su.init(p));
    var own := OfRound(ty.roundOf, history, ty.round);
    var k := FinishedRoundIsItsBareStore(ty, store, own);
    var rs := Decoded(ty, own[..k]);
    UnfinishedRoundIsItsBareStore(ty, store, own[..k - 1]);
    assert own[..k][..k - 1] == own[..k - 1] && rs[..k - 1] == Decoded(ty, own[..k - 1]);
    WrapperRejectsOverAnyStore(su.codec, su.ops, p, su.n, su.init(p), rs[..k - 1], rs[k - 1]);
    WrappingIsLawful(su.codec, su.ops, inv, p, su.n, su.init(p));
    LawfulAlways(MainOps(su.codec, su.ops), MainInv(inv), store, rs[..k - 1]);
  }

  /** A round that needs no reliable broadcast fails with the errors of its store, labelled as such. */
  lemma PlainRoundErrors<MP, R, S, O, E, H>(
    codec: Codec<MP, R>, ops: StoreOps<S, R, O, E>, store: S, history: seq<Wire<MP, H>>) returns (e: E)
    requires codec.round <= MAX_MAIN_ROUND
    requires
      var c := Alone(TypeWith(MainCodec(codec), PlainOps(ops)), store, history);
      c.Completed? && c.result.Err? && c.result.error.ProcessMsg?
    ensures
      Alone(TypeWith(MainCodec(codec), PlainOps(ops)), store, history).result == Err(ProcessMsg(FromMain(e)))
  {
    e := LabelledErrors(TypeWith(MainCodec(codec), PlainOps(ops)), ops, MainLabel(), store, history);
  }

  /** A store that has its output from the start: the main round has ended on every history, even on the empty
      one, with that output and an empty log. */
  lemma OutputFromTheStart<MP(!new), R(!new), S, O, E, H>(
    su: Setup<MP, R, S, O, E, H>, p: u16, history: seq<Wire<MP, H>>, o: O)
    requires ValidSetup(su) && su.ops.output(su.init(p)) == Some(o)
    ensures
      var c := MainProgress(su, p, history);
      && c.Completed? && c.result.Ok?
      && var main := c.result.value;
         && main.i == p && main.n == su.n && main.output == o && |main.received| == su.n
         && forall s :: 0 <= s < su.n ==> main.received[s].None?
  {
    assert [] + history == history;
    AloneIgnoresTheRest(MainType(su), MainNew(su.ops, p, su.n, su.init(p)), [], history);
  }

  // ----- Runs

  ghost function Init<MP, R, S, O, E, H>(su: Setup<MP, R, S, O, E, H>): Network<MP, O, E, H> {
    Network(
      map p | p in su.honest :: Party([], map r | r in su.reliable :: None, None, None, None),
      [])
  }

  ghost predicate Enabled<MP(!new), R(!new), S, O, E, H>(
    su: Setup<MP, R, S, O, E, H>, net: Network<MP, O, E, H>, step: Step<MP, H>)
    requires ValidSetup(su)
  {
    && step.p in su.honest && step.p in net.parties
    && var party := net.parties[step.p];
       match step
       case Send(_, _) => true
       case Deliver(_, m) => m.sender in su.honest ==> Post(m.sender, m.msg) in net.posts
       case FinishMain(p) =>
         party.vector.None? && party.result.None? && MainProgress(su, p, party.history).Completed?
       case FinishEcho(p) =>
         party.check.Some? && party.result.None? && EchoProgress(su, p, party.history).Completed?
       case EchoElsewhere(_, round, _) => round != su.codec.round
  }

  ghost function Fail<MP, O, E, H>(party: Party<MP, O, E, H>, e: CompleteRoundError<RoundError<EchoError<E>>>)
    : Party<MP, O, E, H>
  {
    party.(result := Some(Err(Failure(e))))
  }

  /** The step from the main round to the echo round: the own message goes into its slot, the vector is
      hashed, and the hash is what gets sent. */
  ghost function AfterMain<MP(!new), R(!new), S, O, E, H>(
    su: Setup<MP, R, S, O, E, H>, party: Party<MP, O, E, H>, main: NeedsOwnMsg<MP, O>): Party<MP, O, E, H>
  {
    var party' := party.(sent := party.sent - {su.codec.round});
    match LeaveMain(su.codec, su.hash, party.sent, main)
    case Err(reason) => Fail(party', InEcho(reason))
    case Ok(left) => party'.(vector := Some(left.0), check := Some(left.1))
  }

  ghost function Apply<MP(!new), R(!new), S, O, E, H>(
    su: Setup<MP, R, S, O, E, H>, net: Network<MP, O, E, H>, step: Step<MP, H>): Network<MP, O, E, H>
    requires ValidSetup(su) && Enabled(su, net, step)
  {
    var p := step.p;
    var party := net.parties[p];
    match step
    case Send(_, out) =>
      (match OnSending(su.codec.roundOf, party.sent, out)
       case Refused(_) => net
       case Accepted(sent, o) =>
         Network(net.parties[p := party.(sent := sent)], net.posts + [Post(p, Main(o.msg))]))
    case Deliver(_, m) =>
      net.(parties := net.parties[p := party.(history := party.history + [m])])
    case FinishMain(_) =>
      (match MainProgress(su, p, party.history).result
       case Err(e) => net.(parties := net.parties[p := Fail(party, CompleteRound(e))])
       case Ok(main) =>
         var party' := AfterMain(su, party, main);
         Network(
           net.parties[p := party'],
           net.posts +
           if party'.check.None? then [] else [Post(p, Echo(su.codec.round, party'.check.value.expectedHash))]))
    case FinishEcho(_) =>
      var party' := match LeaveEcho(party.check.value, EchoProgress(su, p, party.history).result)
        case Err(e) => Fail(party, e)
        case Ok(output) => party.(result := Some(Ok(output)));
      net.(parties := net.parties[p := party'])
    case EchoElsewhere(_, round, hash) =>
      Network(net.parties[p := party.(sent := party.sent - {round})], net.posts + [Post(p, Echo(round, hash))])
  }

  ghost function AsResult<O, E>(
    r: Result<O, CompleteRoundError<RoundError<EchoError<E>>>>): Option<Result<O, Failure<E>>> {
    Some(match r case Ok(o) => Ok(o) case Err(e) => Err(Failure(e)))
  }

  /** The two steps by which an honest party finishes the round return what completing the round returns. */
  lemma FinishingIsCompleting<MP(!new), R(!new), S, O, E, H>(
    su: Setup<MP, R, S, O, E, H>, net: Network<MP, O, E, H>, later: Network<MP, O, E, H>, p: u16)
    requires ValidSetup(su) && Enabled(su, net, FinishMain(p)) && net.parties[p].check.None?
    ensures
      var party, party' := net.parties[p], Apply(su, net, FinishMain(p)).parties[p];
      if party'.check.None? then
        forall echoOutput :: party'.result == AsResult(
          ReliableOutcome(su.codec, su.hash, party.sent, MainProgress(su, p, party.history).result, echoOutput))
      else
        party'.result.None? &&
        (Enabled(su, later, FinishEcho(p)) && later.parties[p].check == party'.check ==>
          Apply(su, later, FinishEcho(p)).parties[p].result == AsResult(
            ReliableOutcome(su.codec, su.hash, party.sent, MainProgress(su, p, party.history).result,
                       EchoProgress(su, p, later.parties[p].history).result)))
    ensures
      var party, net' := net.parties[p], Apply(su, net, FinishMain(p));
      && net'.parties[p].sent ==
         (if MainProgress(su, p, party.history).result.Ok? then party.sent - {su.codec.round} else party.sent)
      && net'.posts == net.posts +
         if net'.parties[p].check.None? then []
         else [Post(p, Echo(su.codec.round, net'.parties[p].check.value.expectedHash))]
  {
  }

  /** Sending, as a step of the network: the first reliable broadcast of a reliable round is recorded and
      posted, a message of any other round is posted unless it is a reliable broadcast, and the rest is
      refused and changes nothing. */
  lemma SendStepExactly<MP(!new), R(!new), S, O, E, H>(
    su: Setup<MP, R, S, O, E, H>, net: Network<MP, O, E, H>, p: u16, out: Outgoing<MP>)
    requires ValidSetup(su) && Enabled(su, net, Send(p, out))
    ensures
      var party, r, reliable := net.parties[p], su.codec.roundOf(out.msg), out.recipient == AllParties(true);
      Apply(su, net, Send(p, out)) ==
      if r in party.sent && reliable && party.sent[r].None? then
        Network(net.parties[p := party.(sent := party.sent[r := Some(out.msg)])], net.posts + [Post(p, Main(out.msg))])
      else if r !in party.sent && !reliable then
        Network(net.parties, net.posts + [Post(p, Main(out.msg))])
      else net
  {
    assert net.parties[p := net.parties[p]] == net.parties;
  }

  ghost function Next<MP(!new), R(!new), S, O, E, H>(
    su: Setup<MP, R, S, O, E, H>, net: Option<Network<MP, O, E, H>>, step: Step<MP, H>): Option<Network<MP, O, E, H>>
    requires ValidSetup(su)
  {
    if net.Some? && Enabled(su, net.value, step) then Some(Apply(su, net.value, step)) else None
  }

  /** The network after a run: any sequence of steps each of which is possible when it is taken. */
  ghost function Exec<MP(!new), R(!new), S, O, E, H>(su: Setup<MP, R, S, O, E, H>, steps: seq<Step<MP, H>>)
    : Option<Network<MP, O, E, H>>
    requires ValidSetup(su)
  {
    if steps == [] then Some(Init(su)) else Next(su, Exec(su, steps[..|steps| - 1]), steps[|steps| - 1])
  }

  lemma ExecSnoc<MP(!new), R(!new), S, O, E, H>(
    su: Setup<MP, R, S, O, E, H>, steps: seq<Step<MP, H>>, net: Network<MP, O, E, H>, step: Step<MP, H>)
    requires ValidSetup(su) && Exec(su, steps) == Some(net) && Enabled(su, net, step)
    ensures Exec(su, steps + [step]) == Some(Apply(su, net, step))
  {
    assert (steps + [step])[..|steps|] == steps;
  }

  lemma ExecInit<MP(!new), R(!new), S, O, E, H>(
    su: Setup<MP, R, S, O, E, H>, steps: seq<Step<MP, H>>, net: Network<MP, O, E, H>)
    returns (last: Network<MP, O, E, H>)
    requires ValidSetup(su) && Exec(su, steps) == Some(net) && steps != []
    ensures Exec(su, steps[..|steps| - 1]) == Some(last)
    ensures Enabled(su, last, steps[|steps| - 1]) && net == Apply(su, last, steps[|steps| - 1])
  {
    last := Exec(su, steps[..|steps| - 1]).value;
  }

  // ----- The invariant of all runs

  /** Everything delivered in the name of an honest party was sent by it. */
  ghost predicate Authentic<MP, H>(honest: set<u16>, posts: seq<Post<MP, H>>, history: seq<Wire<MP, H>>) {
    forall m :: m in history && m.sender in honest ==> Post(m.sender, m.msg) in posts
  }

  /** Before a party hashes its vector, its record of the round is exactly what it has sent in it. */
  ghost predicate RecordOk<MP(!new), R, S, O, E, H>(
    su: Setup<MP, R, S, O, E, H>, posts: seq<Post<MP, H>>, p: u16, sent: SentMsgs<MP>)
  {
    && su.codec.round in sent
    && (sent[su.codec.round].Some? ==>
         Post(p, Main(sent[su.codec.round].value)) in posts
         && su.codec.roundOf(sent[su.codec.round].value) == su.codec.round)
    && forall m :: Post(p, Main(m)) in posts && su.codec.roundOf(m) == su.codec.round ==>
      sent[su.codec.round] == Some(m)
  }

  /** The vector is the log of the main round, except that the own slot holds what the party sent. */
  ghost predicate VectorOk<MP, R, S, O, E, H>(
    su: Setup<MP, R, S, O, E, H>, posts: seq<Post<MP, H>>, p: u16, party: Party<MP, O, E, H>)
    requires su.codec.round <= MAX_MAIN_ROUND
    requires party.vector.Some?
  {
    var v, progress := party.vector.value, MainProgress(su, p, party.history);
    && progress.Completed? && progress.result.Ok?
    && var main := progress.result.value;
       && p < |v| == |main.received|
       && v == main.received[p := v[p]]
       && (v[p].Some? ==> Post(p, Main(v[p].value)) in posts && su.codec.roundOf(v[p].value) == su.codec.round)
       && party.check == Some(ReliabilityCheck(su.hash(v, su.codec.round, main.n), main.output))
       && Post(p, Echo(su.codec.round, su.hash(v, su.codec.round, main.n))) in posts
       && main.n == su.n
  }

  ghost predicate ResultOk<MP, R, S, O, E, H>(su: Setup<MP, R, S, O, E, H>, p: u16, party: Party<MP, O, E, H>)
    requires su.codec.round <= MAX_MAIN_ROUND && 2 <= su.n && p < su.n
    requires party.result.Some? && party.result.value.Ok?
  {
    && party.check.Some? && party.check.value.output == party.result.value.value
    && var progress := EchoProgress(su, p, party.history);
       && progress.Completed? && progress.result.Ok?
       && forall h :: h in progress.result.value.messages ==> h == party.check.value.expectedHash
  }

  ghost function ExpectedHash<MP, O, E, H>(party: Party<MP, O, E, H>): Option<H> {
    if party.check.Some? then Some(party.check.value.expectedHash) else None
  }

  ghost predicate PartyOk<MP(!new), R(!new), S, O, E, H(!new)>(
    su: Setup<MP, R, S, O, E, H>, net: Network<MP, O, E, H>, p: u16)
    requires ValidSetup(su) && p in su.honest && p in net.parties
  {
    var party := net.parties[p];
    && Authentic(su.honest, net.posts, party.history)
    && (party.vector.None? && party.result.None? ==> RecordOk(su, net.posts, p, party.sent))
    && (party.vector.None? ==> party.check.None? && forall h :: Post(p, Echo(su.codec.round, h)) !in net.posts)
    && (party.vector.Some? ==> VectorOk(su, net.posts, p, party))
    && (party.vector.Some? ==>
         forall h :: Post(p, Echo(su.codec.round, h)) in net.posts ==> Some(h) == ExpectedHash(party))
    && (party.result.Some? && party.result.value.Ok? ==> ResultOk(su, p, party))
  }

  ghost predicate Inv<MP(!new), R(!new), S, O, E, H(!new)>(su: Setup<MP, R, S, O, E, H>, net: Network<MP, O, E, H>)
    requires ValidSetup(su)
  {
    net.parties.Keys == su.honest && forall p :: p in su.honest ==> PartyOk(su, net, p)
  }

  /** What a party knows survives the sending of more messages by others. */
  lemma MorePostsKeepParty<MP(!new), R(!new), S, O, E, H(!new)>(
    su: Setup<MP, R, S, O, E, H>, net: Network<MP, O, E, H>, net': Network<MP, O, E, H>, p: u16)
    requires ValidSetup(su) && p in su.honest && p in net.parties && p in net'.parties
    requires PartyOk(su, net, p) && net'.parties[p] == net.parties[p]
    requires net.posts <= net'.posts
    requires forall m :: Post(p, m) in net'.posts ==> Post(p, m) in net.posts
    ensures PartyOk(su, net', p)
  {
  }

  lemma SendKeepsParty<MP(!new), R(!new), S, O, E, H(!new)>(
    su: Setup<MP, R, S, O, E, H>, net: Network<MP, O, E, H>, step: Step<MP, H>)
    requires ValidSetup(su) && Enabled(su, net, step) && step.Send? && PartyOk(su, net, step.p)
    ensures PartyOk(su, Apply(su, net, step), step.p)
  {
  }

  /** Nothing more that is delivered changes a round that has ended. */
  lemma DeliverKeepsParty<MP(!new), R(!new), S, O, E, H(!new)>(
    su: Setup<MP, R, S, O, E, H>, net: Network<MP, O, E, H>, step: Step<MP, H>)
    requires ValidSetup(su) && Enabled(su, net, step) && step.Deliver? && PartyOk(su, net, step.p)
    ensures PartyOk(su, Apply(su, net, step), step.p)
  {
    var p, party := step.p, net.parties[step.p];
    if MainProgress(su, p, party.history).Completed? {
      AloneIgnoresTheRest(MainType(su), MainNew(su.ops, p, su.n, su.init(p)), party.history, [step.m]);
    }
    if EchoProgress(su, p, party.history).Completed? {
      AloneIgnoresTheRest(EchoType(su), New(p, su.n, Broadcast(false)), party.history, [step.m]);
    }
  }

  /** The first messages of the round in a history, converted. */
  ghost predicate FromRound<P, R, S, O, E>(
    ty: RoundType<P, R, S, O, E>, history: seq<Incoming<P>>, ms: seq<Incoming<R>>) {
    var own := OfRound(ty.roundOf, history, ty.round);
    && |ms| <= |own| && Convertible(ty, own[..|ms|])
    && ms == Decoded(ty, own[..|ms|])
  }

  /** A main round that ended well did so on messages it accepted all. */
  lemma AcceptedByMain<MP(!new), R(!new), S, O, E, H>(
    su: Setup<MP, R, S, O, E, H>, p: u16, history: seq<Wire<MP, H>>) returns (ms: seq<Incoming<R>>)
    requires ValidSetup(su)
    requires MainProgress(su, p, history).Completed? && MainProgress(su, p, history).result.Ok?
    ensures FromRound(MainType(su), history, ms)
    ensures AllAccepted(MainOps(su.codec, su.ops), MainNew(su.ops, p, su.n, su.init(p)), ms)
    ensures MainOutput(AddAll(MainOps(su.codec, su.ops), MainNew(su.ops, p, su.n, su.init(p)), ms)) ==
      Some(MainProgress(su, p, history).result.value)
  {
    var own := OfRound(MainType(su).roundOf, history, MainType(su).round);
    var k := FinishedRoundIsItsBareStore(MainType(su), MainNew(su.ops, p, su.n, su.init(p)), own);
    ms := Decoded(MainType(su), own[..k]);
    assert Convertible(MainType(su), own[..k]);
  }

  lemma FinishMainKeepsParty<MP(!new), R(!new), S, O, E, H(!new)>(
    su: Setup<MP, R, S, O, E, H>, net: Network<MP, O, E, H>, step: Step<MP, H>)
    requires ValidSetup(su) && Enabled(su, net, step) && step.FinishMain? && PartyOk(su, net, step.p)
    ensures PartyOk(su, Apply(su, net, step), step.p)
  {
    var p, party, r := step.p, net.parties[step.p], su.codec.round;
    var progress := MainProgress(su, p, party.history);
    if progress.result.Ok? {
      var main := progress.result.value;
      var ms := AcceptedByMain(su, p, party.history);
      WrapperIsTransparent(su.codec, su.ops, p, su.n, su.init(p), ms);
      assert main.i == p && main.n == su.n && |main.received| == su.n;
      assert RecordOk(su, net.posts, p, party.sent);
      if party.sent[r].Some? {
        assert ExactOn(su.codec, party.sent[r].value);
      }
    }
  }

  /** Leaving the main round either fails or puts the record into the own slot of the vector. */
  lemma OwnSlotIsTheRecord<MP(!new), R(!new), S, O, E, H(!new)>(
    su: Setup<MP, R, S, O, E, H>, net: Network<MP, O, E, H>, p: u16)
    requires ValidSetup(su) && p in su.honest && p in net.parties && PartyOk(su, net, p)
    requires Enabled(su, net, FinishMain(p))
    ensures
      var party, party' := net.parties[p], Apply(su, net, FinishMain(p)).parties[p];
      && party'.history == party.history && su.codec.round in party.sent
      && if party'.result.Some? then party'.result.value.Err? && party'.vector.None?
         else
           party'.vector.Some? && p < |party'.vector.value| && party'.vector.value[p] == party.sent[su.codec.round]
  {
    var party := net.parties[p];
    if MainProgress(su, p, party.history).result.Ok? {
      var ms := AcceptedByMain(su, p, party.history);
      WrapperIsTransparent(su.codec, su.ops, p, su.n, su.init(p), ms);
      assert RecordOk(su, net.posts, p, party.sent);
      if party.sent[su.codec.round].Some? {
        assert ExactOn(su.codec, party.sent[su.codec.round].value);
      }
    }
  }

  lemma FinishEchoKeepsParty<MP(!new), R(!new), S, O, E, H(!new)>(
    su: Setup<MP, R, S, O, E, H>, net: Network<MP, O, E, H>, step: Step<MP, H>)
    requires ValidSetup(su) && Enabled(su, net, step) && step.FinishEcho? && PartyOk(su, net, step.p)
    ensures PartyOk(su, Apply(su, net, step), step.p)
  {
  }

  lemma EchoElsewhereKeepsParty<MP(!new), R(!new), S, O, E, H(!new)>(
    su: Setup<MP, R, S, O, E, H>, net: Network<MP, O, E, H>, step: Step<MP, H>)
    requires ValidSetup(su) && Enabled(su, net, step) && step.EchoElsewhere? && PartyOk(su, net, step.p)
    ensures PartyOk(su, Apply(su, net, step), step.p)
  {
  }

  lemma MoverKeepsParty<MP(!new), R(!new), S, O, E, H(!new)>(
    su: Setup<MP, R, S, O, E, H>, net: Network<MP, O, E, H>, step: Step<MP, H>)
    requires ValidSetup(su) && Enabled(su, net, step) && PartyOk(su, net, step.p)
    ensures PartyOk(su, Apply(su, net, step), step.p)
  {
    match step
    case Send(_, _) => SendKeepsParty(su, net, step);
    case Deliver(_, _) => DeliverKeepsParty(su, net, step);
    case FinishMain(_) => FinishMainKeepsParty(su, net, step);
    case FinishEcho(_) => FinishEchoKeepsParty(su, net, step);
    case EchoElsewhere(_, _, _) => EchoElsewhereKeepsParty(su, net, step);
  }

  /** A step changes only the party that takes it, and only this party sends. */
  lemma StepIsLocal<MP(!new), R(!new), S, O, E, H>(
    su: Setup<MP, R, S, O, E, H>, net: Network<MP, O, E, H>, step: Step<MP, H>)
    requires ValidSetup(su) && Enabled(su, net, step)
    ensures
      var net' := Apply(su, net, step);
      && net'.parties.Keys == net.parties.Keys && net.posts <= net'.posts
      && (forall p :: p in net.parties && p != step.p ==> net'.parties[p] == net.parties[p])
      && (forall p, m :: Post(p, m) in net'.posts && p != step.p ==> Post(p, m) in net.posts)
  {
  }

  /** Every step of every party, and everything the adversary delivers, keeps the invariant. */
  lemma StepKeepsInv<MP(!new), R(!new), S, O, E, H(!new)>(
    su: Setup<MP, R, S, O, E, H>, net: Network<MP, O, E, H>, step: Step<MP, H>)
    requires ValidSetup(su) && Enabled(su, net, step) && Inv(su, net)
    ensures Inv(su, Apply(su, net, step))
  {
    StepIsLocal(su, net, step);
    MoverKeepsParty(su, net, step);
    forall p | p in su.honest && p != step.p ensures PartyOk(su, Apply(su, net, step), p) {
      MorePostsKeepParty(su, net, Apply(su, net, step), p);
    }
  }

  lemma {:induction false} InvHolds<MP(!new), R(!new), S, O, E, H(!new)>(
    su: Setup<MP, R, S, O, E, H>, steps: seq<Step<MP, H>>, net: Network<MP, O, E, H>)
    requires ValidSetup(su) && Exec(su, steps) == Some(net)
    ensures Inv(su, net)
  {
    if steps != [] {
      var before := Exec(su, steps[..|steps| - 1]).value;
      InvHolds(su, steps[..|steps| - 1], before);
      StepKeepsInv(su, before, steps[|steps| - 1]);
    }
  }

  // ----- Agreement

  /** No two different vectors hashed by honest parties of this run have the same hash. */
  ghost predicate NoCollision<MP, R, S, O, E, H>(su: Setup<MP, R, S, O, E, H>, net: Network<MP, O, E, H>) {
    forall p, q :: p in net.parties && q in net.parties
      && net.parties[p].vector.Some? && net.parties[q].vector.Some?
      && su.hash(net.parties[p].vector.value, su.codec.round, su.n) ==
         su.hash(net.parties[q].vector.value, su.codec.round, su.n)
      ==> net.parties[p].vector == net.parties[q].vector
  }

  /** An echo collected from an honest party was sent by it. */
  lemma EchoWasSent<MP(!new), R(!new), S, O, E, H(!new)>(
    su: Setup<MP, R, S, O, E, H>, net: Network<MP, O, E, H>, p: u16, q: u16)
    requires ValidSetup(su) && Inv(su, net) && p in su.honest && q in su.honest && p != q
    requires
      var progress := EchoProgress(su, p, net.parties[p].history);
      progress.Completed? && progress.result.Ok?
    ensures
      var echoes := EchoProgress(su, p, net.parties[p].history).result.value;
      |echoes.messages| == su.n - 1 && Post(q, Echo(su.codec.round, echoes.messages[Slot(p, q)])) in net.posts
  {
    var party := net.parties[p];
    assert PartyOk(su, net, p);
    RelabelledActsAsInput<H, EchoError<E>>(EchoLabel());
    var m := CollectedFromSender(EchoType(su), p, su.n, Broadcast(false), party.history, q);
    var echoes := EchoProgress(su, p, party.history).result.value;
    assert m.msg == Echo(su.codec.round, echoes.messages[Slot(p, q)]);
    assert Authentic(su.honest, net.posts, party.history);
  }

  /** Whoever gets its output has received, from each other honest party, the hash that party sent. */
  lemma ExpectedHashWasSent<MP(!new), R(!new), S, O, E, H(!new)>(
    su: Setup<MP, R, S, O, E, H>, net: Network<MP, O, E, H>, p: u16, q: u16)
    requires ValidSetup(su) && Inv(su, net) && p in su.honest && q in su.honest && p != q
    requires net.parties[p].result.Some? && net.parties[p].result.value.Ok?
    ensures net.parties[p].check.Some?
    ensures Post(q, Echo(su.codec.round, net.parties[p].check.value.expectedHash)) in net.posts
  {
    assert PartyOk(su, net, p) && ResultOk(su, p, net.parties[p]);
    EchoWasSent(su, net, p, q);
    var echoes := EchoProgress(su, p, net.parties[p].history).result.value;
    assert echoes.messages[Slot(p, q)] in echoes.messages;
  }

  /** Agreement: in every run, once one honest party's reliable round returns Ok, every honest party has
      finished the main round and echoed the same `n`-slot vector. */
  lemma ReliableBroadcastAgreement<MP(!new), R(!new), S, O, E, H(!new)>(
    su: Setup<MP, R, S, O, E, H>, steps: seq<Step<MP, H>>, net: Network<MP, O, E, H>, p: u16, q: u16)
    requires ValidSetup(su) && Exec(su, steps) == Some(net) && NoCollision(su, net)
    requires p in su.honest && q in su.honest && p in net.parties && q in net.parties
    requires net.parties[p].result.Some? && net.parties[p].result.value.Ok?
    ensures net.parties[p].vector.Some? && net.parties[q].vector == net.parties[p].vector
    ensures |net.parties[p].vector.value| == su.n
    ensures Post(q, Echo(su.codec.round, su.hash(net.parties[p].vector.value, su.codec.round, su.n))) in net.posts
    ensures net.parties[p].vector.value[q].Some? ==>
      var m := net.parties[p].vector.value[q].value;
      Post(q, Main(m)) in net.posts && su.codec.roundOf(m) == su.codec.round
  {
    InvHolds(su, steps, net);
    assert PartyOk(su, net, p) && PartyOk(su, net, q);
    var ms := AcceptedByMain(su, p, net.parties[p].history);
    WrapperIsTransparent(su.codec, su.ops, p, su.n, su.init(p), ms);
    if p != q {
      ExpectedHashWasSent(su, net, p, q);
      assert net.parties[q].vector.Some? && VectorOk(su, net.posts, q, net.parties[q]);
    }
  }

  /** The own slot of the vector a party hashes holds exactly the message it sent in the round. */
  lemma OwnSlotIsWhatWasSent<MP(!new), R(!new), S, O, E, H(!new)>(
    su: Setup<MP, R, S, O, E, H>, steps: seq<Step<MP, H>>, net: Network<MP, O, E, H>, p: u16, m: MP)
    requires ValidSetup(su) && Exec(su, steps) == Some(net) && su.codec.roundOf(m) == su.codec.round
    requires Enabled(su, net, FinishMain(p)) && Apply(su, net, FinishMain(p)).parties[p].vector.Some?
    ensures
      var vector := Apply(su, net, FinishMain(p)).parties[p].vector.value;
      p < |vector| && (vector[p] == Some(m) <==> Post(p, Main(m)) in net.posts)
  {
    InvHolds(su, steps, net);
    assert PartyOk(su, net, p) && RecordOk(su, net.posts, p, net.parties[p].sent);
    OwnSlotIsTheRecord(su, net, p);
  }

  /** When party `q` left the main round: what it had sent in the round is its slot of the vector. */
  ghost predicate HashedAt<MP(!new), R(!new), S, O, E, H>(
    su: Setup<MP, R, S, O, E, H>, steps: seq<Step<MP, H>>, j: nat, q: u16, vector: seq<Option<MP>>)
    requires ValidSetup(su)
  {
    && j < |steps| && steps[j] == FinishMain(q) && q < |vector|
    && Exec(su, steps[..j]).Some?
    && forall m :: su.codec.roundOf(m) == su.codec.round ==>
      (vector[q] == Some(m) <==> Post(q, Main(m)) in Exec(su, steps[..j]).value.posts)
  }

  lemma HashedAtSnoc<MP(!new), R(!new), S, O, E, H(!new)>(
    su: Setup<MP, R, S, O, E, H>, steps: seq<Step<MP, H>>, j: nat, q: u16, vector: seq<Option<MP>>)
    requires ValidSetup(su) && steps != [] && HashedAt(su, steps[..|steps| - 1], j, q, vector)
    ensures HashedAt(su, steps, j, q, vector)
  {
    assert steps[..|steps| - 1][..j] == steps[..j];
  }

  /** Only leaving the main round sets the vector, and nothing changes it. */
  lemma VectorStep<MP(!new), R(!new), S, O, E, H>(
    su: Setup<MP, R, S, O, E, H>, net: Network<MP, O, E, H>, step: Step<MP, H>, q: u16)
    requires ValidSetup(su) && Enabled(su, net, step) && q in net.parties
    ensures q in Apply(su, net, step).parties
    ensures step != FinishMain(q) ==> Apply(su, net, step).parties[q].vector == net.parties[q].vector
    ensures step == FinishMain(q) ==> net.parties[q].vector.None?
  {
  }

  lemma HashedNow<MP(!new), R(!new), S, O, E, H(!new)>(
    su: Setup<MP, R, S, O, E, H>, steps: seq<Step<MP, H>>, net: Network<MP, O, E, H>, q: u16)
    requires ValidSetup(su) && Exec(su, steps) == Some(net) && Enabled(su, net, FinishMain(q))
    requires Apply(su, net, FinishMain(q)).parties[q].vector.Some?
    ensures HashedAt(su, steps + [FinishMain(q)], |steps|, q, Apply(su, net, FinishMain(q)).parties[q].vector.value)
  {
    var vector := Apply(su, net, FinishMain(q)).parties[q].vector.value;
    InvHolds(su, steps, net);
    assert PartyOk(su, net, q);
    OwnSlotIsTheRecord(su, net, q);
    assert (steps + [FinishMain(q)])[..|steps|] == steps;
    forall m | su.codec.roundOf(m) == su.codec.round
      ensures vector[q] == Some(m) <==> Post(q, Main(m)) in net.posts
    {
      OwnSlotIsWhatWasSent(su, steps, net, q, m);
    }
  }

  /** The vector of a party is settled when it leaves the main round, and never changes afterwards. */
  lemma {:induction false} VectorWasHashed<MP(!new), R(!new), S, O, E, H(!new)>(
    su: Setup<MP, R, S, O, E, H>, steps: seq<Step<MP, H>>, net: Network<MP, O, E, H>, q: u16) returns (j: nat)
    requires ValidSetup(su) && Exec(su, steps) == Some(net) && q in su.honest && q in net.parties
    requires net.parties[q].vector.Some?
    ensures HashedAt(su, steps, j, q, net.parties[q].vector.value)
  {
    var init, last := steps[..|steps| - 1], steps[|steps| - 1];
    var before := ExecInit(su, steps, net);
    StepIsLocal(su, before, last);
    VectorStep(su, before, last, q);
    if last == FinishMain(q) {
      j := |init|;
      HashedNow(su, init, before, q);
      assert init + [last] == steps;
    } else {
      j := VectorWasHashed(su, init, before, q);
      HashedAtSnoc(su, steps, j, q, before.parties[q].vector.value);
    }
  }

  /** The agreed vector is exact: there is a moment at which honest party `q` left the main round, and the
      vector of any honest party whose round returns Ok holds, in `q`'s slot, a message of the round if
      and only if `q` had sent it by then. */
  lemma SlotHoldsExactlyWhatWasSent<MP(!new), R(!new), S, O, E, H(!new)>(
    su: Setup<MP, R, S, O, E, H>, steps: seq<Step<MP, H>>, net: Network<MP, O, E, H>, p: u16, q: u16) returns (j: nat)
    requires ValidSetup(su) && Exec(su, steps) == Some(net) && NoCollision(su, net)
    requires p in su.honest && q in su.honest && p in net.parties && q in net.parties
    requires net.parties[p].result.Some? && net.parties[p].result.value.Ok?
    ensures net.parties[p].vector.Some? && HashedAt(su, steps, j, q, net.parties[p].vector.value)
  {
    ReliableBroadcastAgreement(su, steps, net, p, q);
    j := VectorWasHashed(su, steps, net, q);
  }

  /** Party `q` has `m` on record until it leaves the main round, and in its slot afterwards. */
  ghost predicate Committed<MP, O, E, H>(round: u16, party: Party<MP, O, E, H>, q: u16, m: MP) {
    && (party.vector.None? && party.result.None? ==> round in party.sent && party.sent[round] == Some(m))
    && (party.vector.Some? ==> q < |party.vector.value| && party.vector.value[q] == Some(m))
  }

  lemma StepKeepsCommitment<MP(!new), R(!new), S, O, E, H(!new)>(
    su: Setup<MP, R, S, O, E, H>, net: Network<MP, O, E, H>, step: Step<MP, H>, q: u16, m: MP)
    requires ValidSetup(su) && Enabled(su, net, step) && Inv(su, net) && q in su.honest
    requires Committed(su.codec.round, net.parties[q], q, m)
    ensures Committed(su.codec.round, Apply(su, net, step).parties[q], q, m)
  {
    if step == FinishMain(q) {
      assert PartyOk(su, net, q);
      OwnSlotIsTheRecord(su, net, q);
    }
  }

  lemma {:induction false} CommitmentStaysFrom<MP(!new), R(!new), S, O, E, H(!new)>(
    su: Setup<MP, R, S, O, E, H>, steps: seq<Step<MP, H>>, k: nat,
    before: Network<MP, O, E, H>, net: Network<MP, O, E, H>, q: u16, m: MP)
    requires ValidSetup(su) && k <= |steps| && Exec(su, steps[..k]) == Some(before) && Exec(su, steps) == Some(net)
    requires q in su.honest && q in before.parties && Committed(su.codec.round, before.parties[q], q, m)
    ensures q in net.parties && Committed(su.codec.round, net.parties[q], q, m)
  {
    if k == |steps| {
      assert steps[..k] == steps;
    } else {
      var last := ExecInit(su, steps, net);
      assert steps[..|steps| - 1][..k] == steps[..k];
      CommitmentStaysFrom(su, steps[..|steps| - 1], k, before, last, q, m);
      InvHolds(su, steps[..|steps| - 1], last);
      StepKeepsCommitment(su, last, steps[|steps| - 1], q, m);
    }
  }

  /** What is on record stays there, or in its slot, whatever happens next. */
  lemma CommitmentStays<MP(!new), R(!new), S, O, E, H(!new)>(
    su: Setup<MP, R, S, O, E, H>, steps: seq<Step<MP, H>>, more: seq<Step<MP, H>>,
    before: Network<MP, O, E, H>, net: Network<MP, O, E, H>, q: u16, m: MP)
    requires ValidSetup(su) && Exec(su, steps) == Some(before) && Exec(su, steps + more) == Some(net) && q in su.honest
    requires q in before.parties && Committed(su.codec.round, before.parties[q], q, m)
    ensures q in net.parties && Committed(su.codec.round, net.parties[q], q, m)
  {
    assert (steps + more)[..|steps|] == steps;
    CommitmentStaysFrom(su, steps + more, |steps|, before, net, q, m);
  }

  /** Validity: what an honest party has broadcast in the round, before leaving it, is what every honest
      party whose round later returns Ok holds for it. */
  lemma ReliableBroadcastValidity<MP(!new), R(!new), S, O, E, H(!new)>(
    su: Setup<MP, R, S, O, E, H>, steps: seq<Step<MP, H>>, more: seq<Step<MP, H>>,
    before: Network<MP, O, E, H>, net: Network<MP, O, E, H>, p: u16, q: u16, m: MP)
    requires ValidSetup(su) && Exec(su, steps) == Some(before) && Exec(su, steps + more) == Some(net)
    requires NoCollision(su, net) && p in su.honest && q in su.honest && su.codec.roundOf(m) == su.codec.round
    requires q in before.parties && before.parties[q].vector.None? && before.parties[q].result.None?
    requires Post(q, Main(m)) in before.posts
    requires p in net.parties && net.parties[p].result.Some? && net.parties[p].result.value.Ok?
    ensures net.parties[p].vector.Some? && |net.parties[p].vector.value| == su.n
    ensures net.parties[p].vector.value[q] == Some(m)
  {
    InvHolds(su, steps, before);
    assert PartyOk(su, before, q) && RecordOk(su, before.posts, q, before.parties[q].sent);
    CommitmentStays(su, steps, more, before, net, q, m);
    ReliableBroadcastAgreement(su, steps + more, net, p, q);
  }

  /** Transparency: in every run, the output released by a reliable round is what the bare store outputs
      on the first messages of the round that the party received, marked reliable. */
  lemma ReleasedOutputIsTheBareStores<MP(!new), R(!new), S, O, E, H(!new)>(
    su: Setup<MP, R, S, O, E, H>, steps: seq<Step<MP, H>>, net: Network<MP, O, E, H>, p: u16)
    returns (ms: seq<Incoming<R>>)
    requires ValidSetup(su) && Exec(su, steps) == Some(net) && p in su.honest && p in net.parties
    requires net.parties[p].result.Some? && net.parties[p].result.value.Ok?
    ensures FromRound(MainType(su), net.parties[p].history, ms)
    ensures AllAccepted(su.ops, su.init(p), Reliable(ms))
    ensures su.ops.output(AddAll(su.ops, su.init(p), Reliable(ms))) == Some(net.parties[p].result.value.value)
    ensures ms != [] ==> !su.ops.wantsMore(AddAll(su.ops, su.init(p), Reliable(ms)))
  {
    InvHolds(su, steps, net);
    assert PartyOk(su, net, p) && ResultOk(su, p, net.parties[p]);
    ms := AcceptedByMain(su, p, net.parties[p].history);
    WrapperIsTransparent(su.codec, su.ops, p, su.n, su.init(p), ms);
  }

  // ----- What this means for `RoundInput`

  ghost predicate OverRoundInput<MP, R, H>(su: Setup<MP, R, RoundInput<R>, RoundMsgs<R>, InputError, H>) {
    && 2 <= su.n && su.ops == Ops()
    && forall p: u16 :: p < su.n ==> su.init(p) == New(p, su.n, Broadcast(true))
  }

  /** Both rounds over `RoundInput`, on any history free of wrap-around. */
  lemma InputRoundsFailByTheirStores<MP(!new), R(!new), H(!new)>(
    su: Setup<MP, R, RoundInput<R>, RoundMsgs<R>, InputError, H>, p: u16, history: seq<Wire<MP, H>>)
    requires ValidSetup(su) && OverRoundInput(su) && p < su.n
    requires forall m :: m in history ==> !WrapsOnto(su, m.msg)
    ensures
      var c := MainProgress(su, p, history);
      c.Completed? ==> c.result.Ok? || c.result.error.ProcessMsg?
    ensures
      var c := EchoProgress(su, p, history);
      c.Completed? ==> c.result.Ok? || exists e :: c.result.error == ProcessMsg(FromEcho(HandleEcho(e)))
  {
    InputIsLawful<R>();
    RoundsFailByTheirStores(su, _ => true, p, history);
  }

  /** The output a party releases is the vector it echoed, message by message. */
  lemma OutputIsTheVector<MP(!new), R(!new), H(!new)>(
    su: Setup<MP, R, RoundInput<R>, RoundMsgs<R>, InputError, H>, net: Network<MP, RoundMsgs<R>, InputError, H>,
    p: u16, s: u16)
    requires ValidSetup(su) && OverRoundInput(su) && Inv(su, net) && p in su.honest && s < su.n && s != p
    requires net.parties[p].result.Some? && net.parties[p].result.value.Ok?
    ensures
      var o := net.parties[p].result.value.value;
      && o.i == p && |o.messages| == |o.ids| == su.n - 1
      && net.parties[p].vector.Some? && |net.parties[p].vector.value| == su.n
      && net.parties[p].vector.value[s] == Some(su.codec.toProto(o.messages[Slot(p, s)]))
  {
    var party := net.parties[p];
    assert PartyOk(su, net, p) && ResultOk(su, p, party);
    var main := MainProgress(su, p, party.history).result.value;
    var ms := AcceptedByMain(su, p, party.history);
    var o := party.result.value.value;
    WrapperIsTransparent(su.codec, Ops(), p, su.n, New(p, su.n, Broadcast(true)), ms);
    OutputShape(p, su.n, Broadcast(true), Reliable(ms));
    HashedVectorIsTheOutput(su.codec, p, su.n, ms, main, o.messages[0], s);
    ViewsOfParty(o, o.messages[0], s);
  }

  /** A message among the first of a round, converted, goes back to one in the history. */
  lemma CameIn<MP(!new), R(!new), S, O, E, H(!new)>(
    su: Setup<MP, R, S, O, E, H>, history: seq<Wire<MP, H>>, ms: seq<Incoming<R>>, r: Incoming<R>)
    returns (m: Wire<MP, H>)
    requires ValidSetup(su) && FromRound(MainType(su), history, ms) && r in ms
    ensures m in history && m.id == r.id && m.sender == r.sender && m.msg == Main(su.codec.toProto(r.msg))
  {
    var ty := MainType(su);
    var own := OfRound(ty.roundOf, history, ty.round);
    var j :| 0 <= j < |ms| && ms[j] == r;
    DecodedAt(ty, own[..|ms|], j);
    OfRoundMembers(ty.roundOf, history, ty.round);
    m := own[j];
    assert own[..|ms|][j] == m && m in own;
  }

  /** In every run, the message that an output holds of a party was received from that party, in the main
      round, with the id on record. */
  lemma ReleasedMessageWasReceived<MP(!new), R(!new), H(!new)>(
    su: Setup<MP, R, RoundInput<R>, RoundMsgs<R>, InputError, H>, steps: seq<Step<MP, H>>,
    net: Network<MP, RoundMsgs<R>, InputError, H>, p: u16, s: u16) returns (m: Wire<MP, H>)
    requires ValidSetup(su) && OverRoundInput(su) && Exec(su, steps) == Some(net)
    requires p in su.honest && p in net.parties && s < su.n && s != p
    requires net.parties[p].result.Some? && net.parties[p].result.value.Ok?
    ensures
      var o := net.parties[p].result.value.value;
      && o.i == p && |o.messages| == |o.ids| == su.n - 1
      && m in net.parties[p].history && m.sender == s && m.id == o.ids[Slot(p, s)]
      && m.msg == Main(su.codec.toProto(o.messages[Slot(p, s)]))
  {
    var ms := ReleasedOutputIsTheBareStores(su, steps, net, p);
    var o := net.parties[p].result.value.value;
    OutputShape(p, su.n, Broadcast(true), Reliable(ms));
    ViewsAgree(p, su.n, Broadcast(true), Reliable(ms), o.messages[0], s);
    ViewsOfParty(o, o.messages[0], s);
    var first := FirstFrom(Broadcast(true), Reliable(ms), s).value;
    var j :| 0 <= j < |ms| && Reliable(ms)[j] == first;
    ReliableAt(ms, j);
    m := CameIn(su, net.parties[p].history, ms, ms[j]);
  }

  /** Two honest parties that both get their output hold the same message of every third party. */
  lemma SameMessageOfEveryParty<MP(!new), R(!new), H(!new)>(
    su: Setup<MP, R, RoundInput<R>, RoundMsgs<R>, InputError, H>, steps: seq<Step<MP, H>>,
    net: Network<MP, RoundMsgs<R>, InputError, H>, p: u16, q: u16, s: u16)
    requires ValidSetup(su) && OverRoundInput(su) && Exec(su, steps) == Some(net) && NoCollision(su, net)
    requires p in su.honest && q in su.honest && s < su.n && s != p && s != q
    requires forall x :: x in {p, q} ==>
      x in net.parties && net.parties[x].result.Some? && net.parties[x].result.value.Ok?
    ensures
      var a, b := net.parties[p].result.value.value, net.parties[q].result.value.value;
      && |a.messages| == |b.messages| == su.n - 1
      && a.messages[Slot(p, s)] == b.messages[Slot(q, s)]
  {
    InvHolds(su, steps, net);
    ReliableBroadcastAgreement(su, steps, net, p, q);
    OutputIsTheVector(su, net, p, s);
    OutputIsTheVector(su, net, q, s);
    var a := net.parties[p].result.value.value.messages[Slot(p, s)];
    var b := net.parties[q].result.value.value.messages[Slot(q, s)];
    assert su.codec.fromProto(su.codec.toProto(a)) == Some(a);
    assert su.codec.fromProto(su.codec.toProto(b)) == Some(b);
  }
}
