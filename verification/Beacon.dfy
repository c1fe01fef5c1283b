/**
 The random beacon over echo broadcast, end to end: commitments go through a reliable round, openings
 through a plain one. Each beacon step of an honest party is a step of the network underneath, so that
 a beacon run carries a run of that network with it.
 */
module Beacon {
  import opened Messages
  import opened Router
  import opened EchoMessages
  import opened SimpleStore
  import opened EchoStore
  import opened InputRound
  import opened EchoNetwork
  import opened BeaconCheck

  datatype Msg<C> = CommitMsg(commitment: C) | DecommitMsg(randomness: Bytes32)

  function RoundOf<C>(m: Msg<C>): u16 {
    if m.CommitMsg? then 0 else 1
  }

  function CommitCodec<C>(): Codec<Msg<C>, C> {
    Codec(0, m => RoundOf(m), c => CommitMsg(c), (m: Msg<C>) => if m.CommitMsg? then Some(m.commitment) else None)
  }

  function OpenCodec<C>(): Codec<Msg<C>, Bytes32> {
    Codec(1, m => RoundOf(m), r => DecommitMsg(r), (m: Msg<C>) => if m.DecommitMsg? then Some(m.randomness) else None)
  }

  /** The parties, the two hash functions, and the randomness each honest party happens to draw. */
  datatype Params<!C, H> = Params(
    n: u16,
    honest: set<u16>,
    randomness: u16 -> Bytes32,
    sha: Bytes32 -> C,
    echoHash: Hash<Msg<C>, H>)

  type CommitSetup<!C, H> = Setup<Msg<C>, C, RoundInput<C>, RoundMsgs<C>, InputError, H>
  type CommitParty<C, H> = Party<Msg<C>, RoundMsgs<C>, InputError, H>
  type Net<C, H> = Network<Msg<C>, RoundMsgs<C>, InputError, H>

  ghost predicate ValidParams<C, H>(pa: Params<C, H>) {
    2 <= pa.n && forall p :: p in pa.honest ==> p < pa.n
  }

  lemma CommitCodecIsLawful<C(!new)>()
    ensures LawfulCodec(CommitCodec<C>())
  {
    assert forall m :: ExactOn(CommitCodec<C>(), m);
  }

  /** The reliable round of commitments. */
  ghost function CommitRound<C(!new), H(!new)>(pa: Params<C, H>)
    : (su: CommitSetup<C, H>)
    requires ValidParams(pa)
    ensures ValidSetup(su) && OverRoundInput(su)
  {
    CommitCodecIsLawful<C>();
    Setup(pa.n, pa.honest, {0}, CommitCodec(), Ops(),
          (p: u16) => if p < pa.n then New(p, pa.n, Broadcast(true)) else New(0, 2, Broadcast(true)),
          pa.echoHash)
  }

  /** What has become of the plain round of openings, given all a party received. */
  ghost function OpenType<C, H>(
    ): RoundType<EchoMsg<Msg<C>, H>, Bytes32, RoundInput<Bytes32>, RoundMsgs<Bytes32>, EchoError<InputError>> {
    TypeWith(MainCodec(OpenCodec()), PlainOps(Ops()))
  }

  ghost function OpenProgress<C, H>(pa: Params<C, H>, p: u16, history: seq<Wire<Msg<C>, H>>)
    : Cell<RoundInput<Bytes32>, RoundMsgs<Bytes32>, EchoError<InputError>>
    requires 2 <= pa.n && p < pa.n
  {
    Alone(OpenType(), New(p, pa.n, Broadcast(false)), history)
  }

  // ----- Runs

  datatype Pc<C> =
    | Start
    | Committed
    | Received(commitments: RoundMsgs<C>)
    | Opened(commitments: RoundMsgs<C>)
    | Done(verdict: Verdict)
    | Aborted

  /** The network underneath, the steps that led to it, and where each honest party stands. */
  datatype State<C, H> = State(run: seq<Step<Msg<C>, H>>, net: Net<C, H>, pcs: map<u16, Pc<C>>)

  datatype BeaconStep<C, H> =
    | Commit(p: u16)
    | Hear(p: u16, m: Wire<Msg<C>, H>)
    | EndMain(p: u16)
    | EndEcho(p: u16)
    | Open(p: u16)
    | Conclude(p: u16, verdict: Verdict)

  /** The network step behind a beacon step. */
  ghost function Behind<C, H>(pa: Params<C, H>, step: BeaconStep<C, H>): Step<Msg<C>, H>
    requires !step.Conclude?
  {
    match step
    case Commit(p) => Send(p, Outgoing(AllParties(true), CommitMsg(pa.sha(pa.randomness(p)))))
    case Hear(p, m) => Deliver(p, m)
    case EndMain(p) => FinishMain(p)
    case EndEcho(p) => FinishEcho(p)
    case Open(p) => Send(p, Outgoing(AllParties(false), DecommitMsg(pa.randomness(p))))
  }

  ghost predicate Possible<C(!new), H(!new)>(pa: Params<C, H>, b: State<C, H>, step: BeaconStep<C, H>)
    requires ValidParams(pa)
  {
    && step.p in pa.honest && step.p in b.pcs && step.p in b.net.parties
    && (!step.Conclude? ==> Enabled(CommitRound(pa), b.net, Behind(pa, step)))
    && var pc := b.pcs[step.p];
       match step
       case Commit(_) => pc.Start?
       case Hear(_, _) => true
       case EndMain(_) => pc.Committed?
       case EndEcho(_) => pc.Committed?
       case Open(_) => pc.Received?
       case Conclude(p, verdict) =>
         && pc.Opened?
         && var progress := OpenProgress(pa, p, b.net.parties[p].history);
            && progress.Completed? && progress.result.Ok?
            && (SameRound(pc.commitments, progress.result.value) ==>
                 RightVerdict(pa.sha, pa.randomness(p), pc.commitments, progress.result.value, verdict))
  }

  /** Where a party stands after a step that left it as `party`. A failed round ends the protocol for the
      party; if it is the round of openings, the party just never concludes. */
  ghost function NextPc<C, H>(step: BeaconStep<C, H>, pc: Pc<C>, party: CommitParty<C, H>): Pc<C>
    requires step.EndEcho? ==> party.result.Some?
    requires step.Open? ==> pc.Received?
  {
    match step
    case Commit(_) => Committed
    case Hear(_, _) => pc
    case EndMain(_) => if party.result.Some? then Aborted else pc
    case EndEcho(_) => if party.result.value.Ok? then Received(party.result.value.value) else Aborted
    case Open(_) => Opened(pc.commitments)
    case Conclude(_, verdict) => Done(verdict)
  }

  ghost function Do<C(!new), H(!new)>(pa: Params<C, H>, b: State<C, H>, step: BeaconStep<C, H>): State<C, H>
    requires ValidParams(pa) && Possible(pa, b, step)
  {
    var p := step.p;
    if step.Conclude? then b.(pcs := b.pcs[p := Done(step.verdict)])
    else
      var net' := Apply(CommitRound(pa), b.net, Behind(pa, step));
      State(b.run + [Behind(pa, step)], net', b.pcs[p := NextPc(step, b.pcs[p], net'.parties[p])])
  }

  ghost function InitialState<C(!new), H(!new)>(pa: Params<C, H>): State<C, H>
    requires ValidParams(pa)
  {
    State([], Init(CommitRound(pa)), map p | p in pa.honest :: Start)
  }

  /** The beacon after a run: any sequence of steps each of which is possible when it is taken. */
  ghost function Play<C(!new), H(!new)>(pa: Params<C, H>, steps: seq<BeaconStep<C, H>>): Option<State<C, H>>
    requires ValidParams(pa)
  {
    if steps == [] then Some(InitialState(pa))
    else
      var b := Play(pa, steps[..|steps| - 1]);
      if b.Some? && Possible(pa, b.value, steps[|steps| - 1]) then Some(Do(pa, b.value, steps[|steps| - 1])) else None
  }

  // ----- What every run keeps

  ghost predicate Agrees<C(!new), H(!new)>(pa: Params<C, H>, party: CommitParty<C, H>, p: u16, pc: Pc<C>)
    requires 2 <= pa.n && p < pa.n
  {
    var mine := Some(CommitMsg(pa.sha(pa.randomness(p))));
    && (pc.Start? ==>
         && party.vector.None? && party.result.None? && party.check.None?
         && 0 in party.sent && party.sent[0] == None)
    && (pc.Committed? ==> !(party.result.Some? && party.result.value.Ok?))
    && (pc.Aborted? <==> party.result.Some? && party.result.value.Err?)
    && (!pc.Start? && party.vector.None? && party.result.None? ==> 0 in party.sent && party.sent[0] == mine)
    && (party.vector.Some? ==> p < |party.vector.value| && party.vector.value[p] == mine)
    && (pc.Received? || pc.Opened? ==> party.result == Some(Ok(pc.commitments)))
    && (pc.Done? ==>
         && party.result.Some? && party.result.value.Ok?
         && var progress := OpenProgress(pa, p, party.history);
            && progress.Completed? && progress.result.Ok?
            && SameRound(party.result.value.value, progress.result.value)
            && RightVerdict(pa.sha, pa.randomness(p), party.result.value.value, progress.result.value, pc.verdict))
  }

  /** Where everyone stands agrees with the network. */
  ghost predicate AllAgree<C(!new), H(!new)>(pa: Params<C, H>, net: Net<C, H>, pcs: map<u16, Pc<C>>)
    requires ValidParams(pa)
  {
    && pcs.Keys == net.parties.Keys == pa.honest
    && forall p :: p in pa.honest ==> Agrees(pa, net.parties[p], p, pcs[p])
  }

  ghost predicate BeaconInv<C(!new), H(!new)>(pa: Params<C, H>, b: State<C, H>)
    requires ValidParams(pa)
  {
    && Exec(CommitRound(pa), b.run) == Some(b.net)
    && AllAgree(pa, b.net, b.pcs)
  }

  /** What is known of a party about to take a step. */
  ghost predicate Ready<C(!new), H(!new)>(
    pa: Params<C, H>, su: CommitSetup<C, H>, net: Net<C, H>, p: u16, pc: Pc<C>,
    step: Step<Msg<C>, H>)
    requires ValidParams(pa)
  {
    && su == CommitRound(pa) && ValidSetup(su) && OverRoundInput(su)
    && p in pa.honest && p in net.parties && PartyOk(su, net, p)
    && step.p == p && Enabled(su, net, step)
    && Agrees(pa, net.parties[p], p, pc)
  }

  lemma CommitKeeps<C(!new), H(!new)>(
    pa: Params<C, H>, su: CommitSetup<C, H>, net: Net<C, H>, p: u16, step: Step<Msg<C>, H>)
    requires ValidParams(pa) && step == Behind(pa, Commit(p)) && Ready(pa, su, net, p, Start, step)
    ensures Agrees(pa, Apply(su, net, step).parties[p], p, Committed)
  {
  }

  lemma HearKeeps<C(!new), H(!new)>(
    pa: Params<C, H>, su: CommitSetup<C, H>, net: Net<C, H>, p: u16, pc: Pc<C>, step: Step<Msg<C>, H>)
    requires ValidParams(pa) && step.Deliver? && Ready(pa, su, net, p, pc, step)
    ensures Agrees(pa, Apply(su, net, step).parties[p], p, pc)
  {
    var party := net.parties[p];
    if OpenProgress(pa, p, party.history).Completed? {
      AloneIgnoresTheRest(OpenType<C, H>(), New(p, pa.n, Broadcast(false)), party.history, [step.m]);
    }
  }

  lemma EndMainKeeps<C(!new), H(!new)>(
    pa: Params<C, H>, su: CommitSetup<C, H>, net: Net<C, H>, p: u16, step: Step<Msg<C>, H>)
    requires ValidParams(pa) && step.FinishMain? && Ready(pa, su, net, p, Committed, step)
    ensures
      var party := Apply(su, net, step).parties[p];
      Agrees(pa, party, p, if party.result.Some? then Aborted else Committed)
  {
    assert su.codec.round == 0;
    OwnSlotIsTheRecord(su, net, p);
  }

  lemma EndEchoKeeps<C(!new), H(!new)>(
    pa: Params<C, H>, su: CommitSetup<C, H>, net: Net<C, H>, p: u16, step: Step<Msg<C>, H>)
    requires ValidParams(pa) && step.FinishEcho? && Ready(pa, su, net, p, Committed, step)
    ensures Apply(su, net, step).parties[p].result.Some?
    ensures
      var party := Apply(su, net, step).parties[p];
      Agrees(pa, party, p, if party.result.value.Ok? then Received(party.result.value.value) else Aborted)
  {
  }

  lemma OpenKeeps<C(!new), H(!new)>(
    pa: Params<C, H>, su: CommitSetup<C, H>, net: Net<C, H>, p: u16, pc: Pc<C>, step: Step<Msg<C>, H>)
    requires ValidParams(pa) && step == Behind(pa, Open(p)) && pc.Received? && Ready(pa, su, net, p, pc, step)
    ensures Agrees(pa, Apply(su, net, step).parties[p], p, Opened(pc.commitments))
  {
  }

  lemma OthersKeep<C(!new), H(!new)>(
    pa: Params<C, H>, su: CommitSetup<C, H>, net: Net<C, H>, step: Step<Msg<C>, H>,
    pcs: map<u16, Pc<C>>, p: u16)
    requires ValidParams(pa) && ValidSetup(su) && su == CommitRound(pa) && Enabled(su, net, step) && p == step.p
    requires pcs.Keys == pa.honest == net.parties.Keys
    requires forall q :: q in pa.honest ==> Agrees(pa, net.parties[q], q, pcs[q])
    ensures Apply(su, net, step).parties.Keys == pa.honest
    ensures forall q :: q in pa.honest && q != p ==> Agrees(pa, Apply(su, net, step).parties[q], q, pcs[q])
  {
    StepIsLocal(su, net, step);
  }

  /** The party whose step it is. */
  lemma OwnStepKeeps<C(!new), H(!new)>(
    pa: Params<C, H>, su: CommitSetup<C, H>, net: Net<C, H>, pc: Pc<C>, step: BeaconStep<C, H>)
    requires ValidParams(pa) && !step.Conclude? && Ready(pa, su, net, step.p, pc, Behind(pa, step))
    requires step.Commit? ==> pc.Start?
    requires step.EndMain? || step.EndEcho? ==> pc.Committed?
    requires step.Open? ==> pc.Received?
    ensures step.EndEcho? ==> Apply(su, net, Behind(pa, step)).parties[step.p].result.Some?
    ensures
      var party := Apply(su, net, Behind(pa, step)).parties[step.p];
      Agrees(pa, party, step.p, NextPc(step, pc, party))
  {
    match step
    case Commit(p) => CommitKeeps(pa, su, net, p, Behind(pa, step));
    case Hear(p, _) => HearKeeps(pa, su, net, p, pc, Behind(pa, step));
    case EndMain(p) => EndMainKeeps(pa, su, net, p, Behind(pa, step));
    case EndEcho(p) => EndEchoKeeps(pa, su, net, p, Behind(pa, step));
    case Open(p) => OpenKeeps(pa, su, net, p, pc, Behind(pa, step));
  }

  ghost predicate HashedBy<C, H>(pa: Params<C, H>, history: seq<Wire<Msg<C>, H>>, p: u16, x: Bytes32) {
    x == pa.randomness(p) || exists m :: m in history && m.msg == Main(DecommitMsg(x))
  }

  /** Honest parties of this run hash their own randomness and the openings they receive. */
  ghost predicate Hashed<C, H>(pa: Params<C, H>, net: Net<C, H>, x: Bytes32) {
    exists p :: p in pa.honest && p in net.parties && HashedBy(pa, net.parties[p].history, p, x)
  }

  /** Openings are taken from messages the party received, each from its sender. */
  lemma OpeningWasReceived<C(!new), H(!new)>(pa: Params<C, H>, p: u16, history: seq<Wire<Msg<C>, H>>, t: u16)
    returns (m: Wire<Msg<C>, H>)
    requires ValidParams(pa) && p < pa.n && t < pa.n && t != p
    requires OpenProgress(pa, p, history).Completed? && OpenProgress(pa, p, history).result.Ok?
    ensures
      var openings := OpenProgress(pa, p, history).result.value;
      && openings.i == p && |openings.messages| == |openings.ids| == pa.n - 1
      && m in history && m.sender == t && m.id == openings.ids[Slot(p, t)]
      && m.msg == Main(DecommitMsg(openings.messages[Slot(p, t)]))
      && HashedBy(pa, history, p, openings.messages[Slot(p, t)])
  {
    RelabelledActsAsInput<Bytes32, EchoError<InputError>>(MainLabel());
    m := CollectedFromSender(OpenType<C, H>(), p, pa.n, Broadcast(false), history, t);
  }

  /** Commitments and openings are from rounds of the same party among the same parties. */
  lemma SameRoundAlways<C(!new), H(!new)>(pa: Params<C, H>, b: State<C, H>, p: u16)
    requires ValidParams(pa) && Exec(CommitRound(pa), b.run) == Some(b.net) && p in pa.honest && p in b.net.parties
    requires b.net.parties[p].result.Some? && b.net.parties[p].result.value.Ok?
    requires
      var progress := OpenProgress(pa, p, b.net.parties[p].history);
      progress.Completed? && progress.result.Ok?
    ensures
      SameRound(b.net.parties[p].result.value.value, OpenProgress(pa, p, b.net.parties[p].history).result.value)
  {
    var other: u16 := if p == 0 then 1 else 0;
    InvHolds(CommitRound(pa), b.run, b.net);
    OutputIsTheVector(CommitRound(pa), b.net, p, other);
    var m := OpeningWasReceived(pa, p, b.net.parties[p].history, other);
  }

  lemma ConcludeKeepsInv<C(!new), H(!new)>(pa: Params<C, H>, b: State<C, H>, step: BeaconStep<C, H>)
    requires ValidParams(pa) && BeaconInv(pa, b) && Possible(pa, b, step)
    requires step.Conclude?
    ensures BeaconInv(pa, Do(pa, b, step))
  {
    assert Agrees(pa, b.net.parties[step.p], step.p, b.pcs[step.p]);
    SameRoundAlways(pa, b, step.p);
    assert Agrees(pa, b.net.parties[step.p], step.p, Done(step.verdict));
  }

  lemma AllAgreeUpdate<C(!new), H(!new)>(pa: Params<C, H>, net: Net<C, H>, pcs: map<u16, Pc<C>>, p: u16, pc: Pc<C>)
    requires ValidParams(pa) && pcs.Keys == net.parties.Keys == pa.honest && p in pa.honest
    requires forall q :: q in pa.honest && q != p ==> Agrees(pa, net.parties[q], q, pcs[q])
    requires Agrees(pa, net.parties[p], p, pc)
    ensures AllAgree(pa, net, pcs[p := pc])
  {
  }

  lemma PartiesKeep<C(!new), H(!new)>(
    pa: Params<C, H>, su: CommitSetup<C, H>, net: Net<C, H>, pcs: map<u16, Pc<C>>,
    step: BeaconStep<C, H>)
    requires ValidParams(pa) && !step.Conclude? && step.p in pcs
    requires Ready(pa, su, net, step.p, pcs[step.p], Behind(pa, step))
    requires AllAgree(pa, net, pcs)
    requires step.Commit? ==> pcs[step.p].Start?
    requires step.EndMain? || step.EndEcho? ==> pcs[step.p].Committed?
    requires step.Open? ==> pcs[step.p].Received?
    ensures step.EndEcho? ==> Apply(su, net, Behind(pa, step)).parties[step.p].result.Some?
    ensures
      var net' := Apply(su, net, Behind(pa, step));
      AllAgree(pa, net', pcs[step.p := NextPc(step, pcs[step.p], net'.parties[step.p])])
  {
    OthersKeep(pa, su, net, Behind(pa, step), pcs, step.p);
    OwnStepKeeps(pa, su, net, pcs[step.p], step);
    var net' := Apply(su, net, Behind(pa, step));
    AllAgreeUpdate(pa, net', pcs, step.p, NextPc(step, pcs[step.p], net'.parties[step.p]));
  }

  /** Every beacon step keeps the invariant. */
  lemma DoKeepsInv<C(!new), H(!new)>(pa: Params<C, H>, b: State<C, H>, step: BeaconStep<C, H>)
    requires ValidParams(pa) && BeaconInv(pa, b) && Possible(pa, b, step)
    ensures BeaconInv(pa, Do(pa, b, step))
  {
    if step.Conclude? {
      ConcludeKeepsInv(pa, b, step);
    } else {
      InvHolds(CommitRound(pa), b.run, b.net);
      ExecSnoc(CommitRound(pa), b.run, b.net, Behind(pa, step));
      assert PartyOk(CommitRound(pa), b.net, step.p) && Agrees(pa, b.net.parties[step.p], step.p, b.pcs[step.p]);
      PartiesKeep(pa, CommitRound(pa), b.net, b.pcs, step);
    }
  }

  lemma {:induction false} BeaconInvHolds<C(!new), H(!new)>(
    pa: Params<C, H>, steps: seq<BeaconStep<C, H>>, b: State<C, H>)
    requires ValidParams(pa) && Play(pa, steps) == Some(b)
    ensures BeaconInv(pa, b)
  {
    if steps != [] {
      var before := Play(pa, steps[..|steps| - 1]).value;
      BeaconInvHolds(pa, steps[..|steps| - 1], before);
      DoKeepsInv(pa, before, steps[|steps| - 1]);
    }
  }

  // ----- Agreement

  /** No two different strings hashed by honest parties of this run have the same commitment. */
  ghost predicate NoShaCollision<C, H>(pa: Params<C, H>, net: Net<C, H>) {
    forall x, y :: Hashed(pa, net, x) && Hashed(pa, net, y) && pa.sha(x) == pa.sha(y) ==> x == y
  }

  ghost predicate Succeeded<C, H>(b: State<C, H>, p: u16) {
    p in b.pcs && p in b.net.parties && b.pcs[p].Done? && b.pcs[p].verdict.Randomness?
  }

  /** Everybody's string as party `p` has it: its own, and the openings it received. */
  ghost function Strings<C, H>(pa: Params<C, H>, b: State<C, H>, p: u16): seq<Bytes32>
    requires ValidParams(pa) && p < pa.n && p in b.net.parties
    requires
      var progress := OpenProgress(pa, p, b.net.parties[p].history);
      && progress.Completed? && progress.result.Ok?
      && progress.result.value.i <= |progress.result.value.messages|
  {
    IncludingMe(OpenProgress(pa, p, b.net.parties[p].history).result.value, pa.randomness(p))
  }

  /** Each string a successful party mixes opens the commitment in its vector. */
  lemma StringsOpenTheVector<C(!new), H(!new)>(pa: Params<C, H>, b: State<C, H>, p: u16, s: u16)
    requires ValidParams(pa) && BeaconInv(pa, b)
    requires p in pa.honest && Succeeded(b, p) && s < pa.n
    ensures
      var progress := OpenProgress(pa, p, b.net.parties[p].history);
      && progress.Completed? && progress.result.Ok?
      && progress.result.value.i <= |progress.result.value.messages|
    ensures
      var strings, party := Strings(pa, b, p), b.net.parties[p];
      && |strings| == pa.n && IsSum(b.pcs[p].verdict.output, strings)
      && Hashed(pa, b.net, strings[s])
      && party.vector.Some? && |party.vector.value| == pa.n
      && party.vector.value[s] == Some(CommitMsg(pa.sha(strings[s])))
  {
    var su, party := CommitRound(pa), b.net.parties[p];
    InvHolds(su, b.run, b.net);
    assert Agrees(pa, party, p, b.pcs[p]);
    var other: u16 := if p == 0 then 1 else 0;
    var t := if s == p then other else s;
    OutputIsTheVector(su, b.net, p, t);
    var m := OpeningWasReceived(pa, p, party.history, t);
    var openings := OpenProgress(pa, p, party.history).result.value;
    ViewsOfParty(openings, pa.randomness(p), s);
    if s == p {
      assert HashedBy(pa, party.history, p, Strings(pa, b, p)[s]);
    } else {
      assert Matches(pa.sha, party.result.value.value, openings, Slot(p, s));
      assert HashedBy(pa, party.history, p, Strings(pa, b, p)[s]);
    }
  }

  lemma SameStrings<C(!new), H(!new)>(pa: Params<C, H>, b: State<C, H>, p: u16, q: u16)
    requires ValidParams(pa) && BeaconInv(pa, b)
    requires NoCollision(CommitRound(pa), b.net) && NoShaCollision(pa, b.net)
    requires p in pa.honest && q in pa.honest && Succeeded(b, p) && Succeeded(b, q)
    ensures b.pcs[p].verdict == b.pcs[q].verdict
  {
    assert Agrees(pa, b.net.parties[p], p, b.pcs[p]);
    ReliableBroadcastAgreement(CommitRound(pa), b.run, b.net, p, q);
    StringsOpenTheVector(pa, b, p, p);
    StringsOpenTheVector(pa, b, q, q);
    var ps, qs := Strings(pa, b, p), Strings(pa, b, q);
    forall s | 0 <= s < pa.n ensures ps[s] == qs[s] {
      StringsOpenTheVector(pa, b, p, s);
      StringsOpenTheVector(pa, b, q, s);
    }
    assert ps == qs;
    SumIsXorAll(b.pcs[p].verdict.output, ps);
    SumIsXorAll(b.pcs[q].verdict.output, qs);
  }

  lemma HonestStrings<C(!new), H(!new)>(pa: Params<C, H>, b: State<C, H>, p: u16)
    requires ValidParams(pa) && BeaconInv(pa, b)
    requires NoCollision(CommitRound(pa), b.net) && NoShaCollision(pa, b.net)
    requires p in pa.honest && Succeeded(b, p)
    ensures exists strings: seq<Bytes32> ::
      && |strings| == pa.n && IsSum(b.pcs[p].verdict.output, strings)
      && (forall s :: s in pa.honest ==> strings[s] == pa.randomness(s))
      && forall s :: 0 <= s < pa.n ==> Counts(b.pcs[p].verdict.output, strings, s)
  {
    StringsOpenTheVector(pa, b, p, p);
    var strings := Strings(pa, b, p);
    forall s | s in pa.honest ensures strings[s] == pa.randomness(s) {
      assert Agrees(pa, b.net.parties[p], p, b.pcs[p]) && Agrees(pa, b.net.parties[s], s, b.pcs[s]);
      StringsOpenTheVector(pa, b, p, s);
      ReliableBroadcastAgreement(CommitRound(pa), b.run, b.net, p, s);
      assert HashedBy(pa, b.net.parties[s].history, s, pa.randomness(s));
    }
    EveryStringCounts(b.pcs[p].verdict.output, strings);
  }

  /** End-to-end agreement: in every run, whatever the other parties and the network do, two honest
      parties that both obtain randomness obtain the same, although openings travel over plain broadcast.
      Each bit of it is set if and only if it is set in an odd number of strings, one of every party; the
      string of an honest party is the one it drew, and no string could be another one. */
  lemma BeaconAgreement<C(!new), H(!new)>(
    pa: Params<C, H>, steps: seq<BeaconStep<C, H>>, b: State<C, H>, p: u16, q: u16)
    requires ValidParams(pa) && Play(pa, steps) == Some(b)
    requires NoCollision(CommitRound(pa), b.net) && NoShaCollision(pa, b.net)
    requires p in pa.honest && q in pa.honest && Succeeded(b, p) && Succeeded(b, q)
    ensures b.pcs[p].verdict == b.pcs[q].verdict
    ensures exists strings: seq<Bytes32> ::
      && |strings| == pa.n && IsSum(b.pcs[p].verdict.output, strings)
      && (forall s :: s in pa.honest ==> strings[s] == pa.randomness(s))
      && forall s :: 0 <= s < pa.n ==> Counts(b.pcs[p].verdict.output, strings, s)
  {
    BeaconInvHolds(pa, steps, b);
    StringsOpenTheVector(pa, b, p, p);
    StringsOpenTheVector(pa, b, q, q);
    SameStrings(pa, b, p, q);
    HonestStrings(pa, b, p);
  }

  // ----- Accountability

  /** Honest parties say nothing but their commitment and their opening. */
  ghost predicate HonestUtterances<C(!new), H>(pa: Params<C, H>, posts: seq<Post<Msg<C>, H>>) {
    forall s, m :: s in pa.honest && Post(s, Main(m)) in posts ==>
      m == CommitMsg(pa.sha(pa.randomness(s))) || m == DecommitMsg(pa.randomness(s))
  }

  lemma {:induction false} HonestUtterancesHold<C(!new), H(!new)>(
    pa: Params<C, H>, steps: seq<BeaconStep<C, H>>, b: State<C, H>)
    requires ValidParams(pa) && Play(pa, steps) == Some(b)
    ensures HonestUtterances(pa, b.net.posts)
  {
    if steps != [] {
      var before, step := Play(pa, steps[..|steps| - 1]).value, steps[|steps| - 1];
      HonestUtterancesHold(pa, steps[..|steps| - 1], before);
      if !step.Conclude? {
        assert b.net == Apply(CommitRound(pa), before.net, Behind(pa, step));
      }
    }
  }

  /** The commitment that an honest party is heard with is its own. */
  lemma HonestCommitment<C(!new), H(!new)>(pa: Params<C, H>, b: State<C, H>, p: u16, s: u16)
    requires ValidParams(pa) && BeaconInv(pa, b) && NoCollision(CommitRound(pa), b.net)
    requires p in pa.honest && s in pa.honest && s != p
    requires b.net.parties[p].result.Some? && b.net.parties[p].result.value.Ok?
    ensures
      var commitments := b.net.parties[p].result.value.value;
      && commitments.i == p && |commitments.messages| == pa.n - 1
      && commitments.messages[Slot(p, s)] == pa.sha(pa.randomness(s))
  {
    InvHolds(CommitRound(pa), b.run, b.net);
    assert Agrees(pa, b.net.parties[s], s, b.pcs[s]);
    ReliableBroadcastAgreement(CommitRound(pa), b.run, b.net, p, s);
    OutputIsTheVector(CommitRound(pa), b.net, p, s);
  }

  /** The opening that an honest party is heard with is its own. */
  lemma HonestOpening<C(!new), H(!new)>(pa: Params<C, H>, b: State<C, H>, p: u16, s: u16)
    requires ValidParams(pa) && Exec(CommitRound(pa), b.run) == Some(b.net) && HonestUtterances(pa, b.net.posts)
    requires p in pa.honest && s in pa.honest && s != p && p in b.net.parties
    requires
      var progress := OpenProgress(pa, p, b.net.parties[p].history);
      progress.Completed? && progress.result.Ok?
    ensures
      var openings := OpenProgress(pa, p, b.net.parties[p].history).result.value;
      |openings.messages| == pa.n - 1 && openings.messages[Slot(p, s)] == pa.randomness(s)
  {
    InvHolds(CommitRound(pa), b.run, b.net);
    var m := OpeningWasReceived(pa, p, b.net.parties[p].history, s);
    assert PartyOk(CommitRound(pa), b.net, p) && Authentic(pa.honest, b.net.posts, b.net.parties[p].history);
  }

  /** A blame list that is exact names only parties whose opening does not match. */
  lemma BlamedDoNotMatch<C>(
    sha: Bytes32 -> C, commitments: RoundMsgs<C>, openings: RoundMsgs<Bytes32>, guilty: seq<Blame>, blame: Blame)
    returns (k: nat)
    requires SameRound(commitments, openings) && blame in guilty
    requires BlamesExactly(sha, commitments, openings, |commitments.messages|, guilty)
    ensures k < |commitments.messages| && !Matches(sha, commitments, openings, k)
    ensures blame == Blame(if k < commitments.i then k else k + 1, commitments.ids[k], openings.ids[k])
  {
    k :| 0 <= k < |commitments.messages| && !Matches(sha, commitments, openings, k)
      && blame == BlameFor(commitments, openings, k);
  }

  lemma HonestMatches<C(!new), H(!new)>(
    pa: Params<C, H>, b: State<C, H>, p: u16, s: u16, commitments: RoundMsgs<C>, openings: RoundMsgs<Bytes32>)
    requires ValidParams(pa) && BeaconInv(pa, b) && HonestUtterances(pa, b.net.posts)
    requires NoCollision(CommitRound(pa), b.net) && p in pa.honest && s in pa.honest && s != p
    requires b.net.parties[p].result == Some(Ok(commitments))
    requires OpenProgress(pa, p, b.net.parties[p].history) == Completed(Ok(openings))
    ensures |commitments.messages| == |openings.messages| == pa.n - 1
    ensures Matches(pa.sha, commitments, openings, Slot(p, s))
  {
    HonestCommitment(pa, b, p, s);
    HonestOpening(pa, b, p, s);
  }

  lemma VerdictOf<C(!new), H(!new)>(pa: Params<C, H>, b: State<C, H>, p: u16)
    returns (commitments: RoundMsgs<C>, openings: RoundMsgs<Bytes32>)
    requires ValidParams(pa) && BeaconInv(pa, b) && p in pa.honest && b.pcs[p].Done?
    ensures b.net.parties[p].result == Some(Ok(commitments))
    ensures OpenProgress(pa, p, b.net.parties[p].history) == Completed(Ok(openings))
    ensures SameRound(commitments, openings) && commitments.i == p && |commitments.messages| == pa.n - 1
    ensures RightVerdict(pa.sha, pa.randomness(p), commitments, openings, b.pcs[p].verdict)
  {
    var party := b.net.parties[p];
    assert Agrees(pa, party, p, b.pcs[p]);
    commitments, openings := party.result.value.value, OpenProgress(pa, p, party.history).result.value;
    var m := OpeningWasReceived(pa, p, party.history, if p == 0 then 1 else 0);
  }

  lemma NeverBlamed<C(!new), H(!new)>(pa: Params<C, H>, b: State<C, H>, p: u16, blame: Blame)
    requires ValidParams(pa) && BeaconInv(pa, b) && HonestUtterances(pa, b.net.posts)
    requires NoCollision(CommitRound(pa), b.net)
    requires p in pa.honest && b.pcs[p].Done? && b.pcs[p].verdict.PartiesCheated?
    requires blame in b.pcs[p].verdict.guilty
    ensures blame.guiltyParty < pa.n && blame.guiltyParty != p && blame.guiltyParty !in pa.honest
  {
    var commitments, openings := VerdictOf(pa, b, p);
    var k := BlamedDoNotMatch(pa.sha, commitments, openings, b.pcs[p].verdict.guilty, blame);
    var s: u16 := if k < p then k else k + 1;
    assert blame.guiltyParty == s && s != p && Slot(p, s) == k;
    if s in pa.honest {
      HonestMatches(pa, b, p, s, commitments, openings);
    }
  }

  /** Accountability: in every run, whatever the other parties and the network do, no honest party is
      blamed by an honest party. */
  lemma HonestPartiesAreNeverBlamed<C(!new), H(!new)>(
    pa: Params<C, H>, steps: seq<BeaconStep<C, H>>, b: State<C, H>, p: u16, blame: Blame)
    requires ValidParams(pa) && Play(pa, steps) == Some(b) && NoCollision(CommitRound(pa), b.net)
    requires p in pa.honest && p in b.pcs && b.pcs[p].Done? && b.pcs[p].verdict.PartiesCheated?
    requires blame in b.pcs[p].verdict.guilty
    ensures blame.guiltyParty < pa.n && blame.guiltyParty != p && blame.guiltyParty !in pa.honest
  {
    BeaconInvHolds(pa, steps, b);
    HonestUtterancesHold(pa, steps, b);
    NeverBlamed(pa, b, p, blame);
  }

  /** Among honest parties, every verdict is randomness. */
  lemma HonestBeaconSucceeds<C(!new), H(!new)>(
    pa: Params<C, H>, steps: seq<BeaconStep<C, H>>, b: State<C, H>, p: u16)
    requires ValidParams(pa) && Play(pa, steps) == Some(b) && NoCollision(CommitRound(pa), b.net)
    requires forall s: u16 :: s < pa.n ==> s in pa.honest
    requires p in pa.honest && p in b.pcs && b.pcs[p].Done?
    ensures Succeeded(b, p)
  {
    BeaconInvHolds(pa, steps, b);
    assert Agrees(pa, b.net.parties[p], p, b.pcs[p]);
    if b.pcs[p].verdict.PartiesCheated? {
      HonestPartiesAreNeverBlamed(pa, steps, b, p, b.pcs[p].verdict.guilty[0]);
    }
  }
}
