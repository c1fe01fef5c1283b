/**
 What honest parties of the beacon have said by when, and what follows from it: once an honest party has
 opened its string, nothing can change the randomness any more; and every blame names two messages that
 contradict each other.
 */
module BeaconFairness {
  import opened Messages
  import opened RoundStore
  import opened Router
  import opened EchoMessages
  import opened SimpleStore
  import opened EchoStore
  import opened InputRound
  import opened EchoNetwork
  import opened BeaconCheck
  import opened Beacon

  // ----- What has been said

  ghost predicate Opens<C, H>(posts: seq<Post<Msg<C>, H>>, p: u16) {
    exists x :: Post(p, Main(DecommitMsg(x))) in posts
  }

  /** A party has sent its commitment once it has committed, and its opening once it has opened, which it
      does only after its reliable round has returned Ok. */
  ghost predicate SaidOk<C(!new), H>(
    pa: Params<C, H>, posts: seq<Post<Msg<C>, H>>, party: CommitParty<C, H>, p: u16, pc: Pc<C>)
  {
    && party.sent.Keys <= {0}
    && (!pc.Start? ==> Post(p, Main(CommitMsg(pa.sha(pa.randomness(p))))) in posts)
    && (pc.Opened? || pc.Done? ==> Post(p, Main(DecommitMsg(pa.randomness(p)))) in posts)
    && (Opens(posts, p) ==> pc.Opened? || pc.Done?)
  }

  ghost predicate AllSaid<C(!new), H(!new)>(pa: Params<C, H>, net: Net<C, H>, pcs: map<u16, Pc<C>>)
    requires ValidParams(pa)
  {
    && pcs.Keys == net.parties.Keys == pa.honest
    && forall p :: p in pa.honest ==> SaidOk(pa, net.posts, net.parties[p], p, pcs[p])
  }

  /** More posts of others change nothing. */
  lemma OthersSaid<C(!new), H(!new)>(
    pa: Params<C, H>, posts: seq<Post<Msg<C>, H>>, posts': seq<Post<Msg<C>, H>>, party: CommitParty<C, H>, p: u16,
    pc: Pc<C>)
    requires SaidOk(pa, posts, party, p, pc) && posts <= posts'
    requires forall m :: Post(p, m) in posts' ==> Post(p, m) in posts
    ensures SaidOk(pa, posts', party, p, pc)
  {
  }

  lemma CommitSaid<C(!new), H(!new)>(
    pa: Params<C, H>, su: CommitSetup<C, H>, net: Net<C, H>, p: u16, step: Step<Msg<C>, H>)
    requires ValidParams(pa) && step == Behind(pa, Commit(p)) && Ready(pa, su, net, p, Start, step)
    requires SaidOk(pa, net.posts, net.parties[p], p, Start)
    ensures SaidOk(pa, Apply(su, net, step).posts, Apply(su, net, step).parties[p], p, Pc.Committed)
  {
    SendStepExactly(su, net, p, step.out);
  }

  lemma OpenSaid<C(!new), H(!new)>(
    pa: Params<C, H>, su: CommitSetup<C, H>, net: Net<C, H>, p: u16, pc: Pc<C>, step: Step<Msg<C>, H>)
    requires ValidParams(pa) && step == Behind(pa, Open(p)) && pc.Received? && Ready(pa, su, net, p, pc, step)
    requires SaidOk(pa, net.posts, net.parties[p], p, pc)
    ensures SaidOk(pa, Apply(su, net, step).posts, Apply(su, net, step).parties[p], p, Opened(pc.commitments))
  {
    SendStepExactly(su, net, p, step.out);
  }

  /** Steps that are not sendings post no main message and record nothing. */
  lemma OtherStepSaid<C(!new), H(!new)>(
    pa: Params<C, H>, su: CommitSetup<C, H>, net: Net<C, H>, p: u16, pc: Pc<C>, step: Step<Msg<C>, H>, pc': Pc<C>)
    requires ValidParams(pa) && Ready(pa, su, net, p, pc, step) && SaidOk(pa, net.posts, net.parties[p], p, pc)
    requires step.Deliver? || step.FinishMain? || step.FinishEcho?
    requires pc' == pc || (pc.Committed? && (pc'.Received? || pc'.Aborted?))
    ensures SaidOk(pa, Apply(su, net, step).posts, Apply(su, net, step).parties[p], p, pc')
  {
  }

  /** What a step posts for its own party. */
  lemma MoverSaid<C(!new), H(!new)>(
    pa: Params<C, H>, su: CommitSetup<C, H>, net: Net<C, H>, pc: Pc<C>, step: BeaconStep<C, H>)
    requires ValidParams(pa) && !step.Conclude? && Ready(pa, su, net, step.p, pc, Behind(pa, step))
    requires step.Commit? ==> pc.Start?
    requires step.EndMain? || step.EndEcho? ==> pc.Committed?
    requires step.Open? ==> pc.Received?
    requires step.EndEcho? ==> Apply(su, net, Behind(pa, step)).parties[step.p].result.Some?
    requires SaidOk(pa, net.posts, net.parties[step.p], step.p, pc)
    ensures
      var net' := Apply(su, net, Behind(pa, step));
      SaidOk(pa, net'.posts, net'.parties[step.p], step.p, NextPc(step, pc, net'.parties[step.p]))
  {
    var behind := Behind(pa, step);
    if step.Commit? {
      CommitSaid(pa, su, net, step.p, behind);
    } else if step.Open? {
      OpenSaid(pa, su, net, step.p, pc, behind);
    } else {
      OtherStepSaid(pa, su, net, step.p, pc, behind, NextPc(step, pc, Apply(su, net, behind).parties[step.p]));
    }
  }

  lemma OthersSaidAll<C(!new), H(!new)>(
    pa: Params<C, H>, su: CommitSetup<C, H>, net: Net<C, H>, pcs: map<u16, Pc<C>>, step: Step<Msg<C>, H>)
    requires ValidParams(pa) && AllSaid(pa, net, pcs) && ValidSetup(su) && Enabled(su, net, step)
    ensures
      var net' := Apply(su, net, step);
      && net'.parties.Keys == pa.honest
      && forall q :: q in pa.honest && q != step.p ==> SaidOk(pa, net'.posts, net'.parties[q], q, pcs[q])
  {
    var net' := Apply(su, net, step);
    StepIsLocal(su, net, step);
    forall q | q in pa.honest && q != step.p ensures SaidOk(pa, net'.posts, net'.parties[q], q, pcs[q]) {
      OthersSaid(pa, net.posts, net'.posts, net.parties[q], q, pcs[q]);
    }
  }

  lemma AllSaidUpdate<C(!new), H(!new)>(pa: Params<C, H>, net: Net<C, H>, pcs: map<u16, Pc<C>>, p: u16, pc: Pc<C>)
    requires ValidParams(pa) && pcs.Keys == net.parties.Keys == pa.honest && p in pa.honest
    requires forall q :: q in pa.honest && q != p ==> SaidOk(pa, net.posts, net.parties[q], q, pcs[q])
    requires SaidOk(pa, net.posts, net.parties[p], p, pc)
    ensures AllSaid(pa, net, pcs[p := pc])
  {
  }

  lemma PartiesSaid<C(!new), H(!new)>(
    pa: Params<C, H>, su: CommitSetup<C, H>, net: Net<C, H>, pcs: map<u16, Pc<C>>, step: BeaconStep<C, H>)
    requires ValidParams(pa) && !step.Conclude? && step.p in pcs && AllSaid(pa, net, pcs)
    requires Ready(pa, su, net, step.p, pcs[step.p], Behind(pa, step))
    requires step.Commit? ==> pcs[step.p].Start?
    requires step.EndMain? || step.EndEcho? ==> pcs[step.p].Committed?
    requires step.Open? ==> pcs[step.p].Received?
    ensures step.EndEcho? ==> Apply(su, net, Behind(pa, step)).parties[step.p].result.Some?
    ensures
      var net' := Apply(su, net, Behind(pa, step));
      AllSaid(pa, net', pcs[step.p := NextPc(step, pcs[step.p], net'.parties[step.p])])
  {
    OwnStepKeeps(pa, su, net, pcs[step.p], step);
    MoverSaid(pa, su, net, pcs[step.p], step);
    OthersSaidAll(pa, su, net, pcs, Behind(pa, step));
    var net' := Apply(su, net, Behind(pa, step));
    AllSaidUpdate(pa, net', pcs, step.p, NextPc(step, pcs[step.p], net'.parties[step.p]));
  }

  lemma StepSaid<C(!new), H(!new)>(pa: Params<C, H>, b: State<C, H>, step: BeaconStep<C, H>)
    requires ValidParams(pa) && BeaconInv(pa, b) && Possible(pa, b, step) && AllSaid(pa, b.net, b.pcs)
    ensures AllSaid(pa, Do(pa, b, step).net, Do(pa, b, step).pcs)
  {
    if step.Conclude? {
      assert SaidOk(pa, b.net.posts, b.net.parties[step.p], step.p, b.pcs[step.p]);
    } else {
      InvHolds(CommitRound(pa), b.run, b.net);
      assert PartyOk(CommitRound(pa), b.net, step.p) && Agrees(pa, b.net.parties[step.p], step.p, b.pcs[step.p]);
      PartiesSaid(pa, CommitRound(pa), b.net, b.pcs, step);
    }
  }

  /** In every run, what honest parties have said is what their progress says. */
  lemma {:induction false} SaidHolds<C(!new), H(!new)>(
    pa: Params<C, H>, steps: seq<BeaconStep<C, H>>, b: State<C, H>)
    requires ValidParams(pa) && Play(pa, steps) == Some(b)
    ensures AllSaid(pa, b.net, b.pcs)
  {
    if steps != [] {
      var before := Play(pa, steps[..|steps| - 1]).value;
      SaidHolds(pa, steps[..|steps| - 1], before);
      BeaconInvHolds(pa, steps[..|steps| - 1], before);
      StepSaid(pa, before, steps[|steps| - 1]);
    }
  }

  /** The steps of committing and opening are never refused: the message has been posted afterwards. */
  lemma CommitAndOpenArePosted<C(!new), H(!new)>(
    pa: Params<C, H>, steps: seq<BeaconStep<C, H>>, b: State<C, H>, step: BeaconStep<C, H>)
    requires ValidParams(pa) && Play(pa, steps) == Some(b) && Possible(pa, b, step)
    ensures step.Commit? ==> Post(step.p, Main(CommitMsg(pa.sha(pa.randomness(step.p))))) in Do(pa, b, step).net.posts
    ensures step.Open? ==> Post(step.p, Main(DecommitMsg(pa.randomness(step.p)))) in Do(pa, b, step).net.posts
  {
    SaidHolds(pa, steps, b);
    BeaconInvHolds(pa, steps, b);
    StepSaid(pa, b, step);
    var b' := Do(pa, b, step);
    assert SaidOk(pa, b'.net.posts, b'.net.parties[step.p], step.p, b'.pcs[step.p]);
  }

  // ----- Nothing can change once an opening is out

  /** The commitments on which all honest parties have settled. */
  ghost predicate Settled<C, H>(pa: Params<C, H>, net: Net<C, H>, vector: seq<Option<Msg<C>>>) {
    && |vector| == pa.n
    && (forall q :: q in pa.honest ==> q in net.parties && net.parties[q].vector == Some(vector))
    && (forall q :: q in pa.honest ==> q < pa.n && vector[q] == Some(CommitMsg(pa.sha(pa.randomness(q)))))
    && forall s :: 0 <= s < pa.n ==> vector[s].Some? && vector[s].value.CommitMsg?
  }

  /** The slot of an honest party holds its commitment, in the vector of every honest party. */
  lemma SettledSlot<C(!new), H(!new)>(pa: Params<C, H>, b: State<C, H>, p: u16, q: u16)
    requires ValidParams(pa) && BeaconInv(pa, b) && NoCollision(CommitRound(pa), b.net)
    requires p in pa.honest && q in pa.honest
    requires b.net.parties[p].result.Some? && b.net.parties[p].result.value.Ok?
    ensures b.net.parties[p].vector.Some? && |b.net.parties[p].vector.value| == pa.n
    ensures b.net.parties[q].vector == b.net.parties[p].vector
    ensures b.net.parties[p].vector.value[q] == Some(CommitMsg(pa.sha(pa.randomness(q))))
  {
    ReliableBroadcastAgreement(CommitRound(pa), b.run, b.net, p, q);
    assert Agrees(pa, b.net.parties[q], q, b.pcs[q]);
  }

  lemma EverySlotIsTaken<C(!new), H(!new)>(pa: Params<C, H>, b: State<C, H>, p: u16, s: u16)
    requires ValidParams(pa) && BeaconInv(pa, b) && p in pa.honest && s < pa.n && s != p
    requires b.net.parties[p].result.Some? && b.net.parties[p].result.value.Ok?
    ensures
      var vector := b.net.parties[p].vector;
      vector.Some? && |vector.value| == pa.n && vector.value[s].Some? && vector.value[s].value.CommitMsg?
  {
    InvHolds(CommitRound(pa), b.run, b.net);
    OutputIsTheVector(CommitRound(pa), b.net, p, s);
  }

  lemma OkMeansSettled<C(!new), H(!new)>(pa: Params<C, H>, b: State<C, H>, p: u16) returns (vector: seq<Option<Msg<C>>>)
    requires ValidParams(pa) && BeaconInv(pa, b) && NoCollision(CommitRound(pa), b.net) && p in pa.honest
    requires b.net.parties[p].result.Some? && b.net.parties[p].result.value.Ok?
    ensures Settled(pa, b.net, vector)
  {
    SettledSlot(pa, b, p, p);
    vector := b.net.parties[p].vector.value;
    forall q | q in pa.honest
      ensures b.net.parties[q].vector == Some(vector) && vector[q] == Some(CommitMsg(pa.sha(pa.randomness(q))))
    {
      SettledSlot(pa, b, p, q);
    }
    forall s | 0 <= s < pa.n ensures vector[s].Some? && vector[s].value.CommitMsg? {
      if s != p {
        EverySlotIsTaken(pa, b, p, s);
      }
    }
  }

  /** When the first honest party opens its string, and ever after, all honest parties have settled on the
      same vector, with a commitment of every party. */
  lemma NothingIsOpenedBeforeAllIsSettled<C(!new), H(!new)>(
    pa: Params<C, H>, steps: seq<BeaconStep<C, H>>, b: State<C, H>, p: u16) returns (vector: seq<Option<Msg<C>>>)
    requires ValidParams(pa) && Play(pa, steps) == Some(b) && NoCollision(CommitRound(pa), b.net)
    requires p in pa.honest && Opens(b.net.posts, p)
    ensures Settled(pa, b.net, vector)
  {
    SaidHolds(pa, steps, b);
    BeaconInvHolds(pa, steps, b);
    assert SaidOk(pa, b.net.posts, b.net.parties[p], p, b.pcs[p]) && Agrees(pa, b.net.parties[p], p, b.pcs[p]);
    vector := OkMeansSettled(pa, b, p);
  }

  lemma StepKeepsVector<C(!new), H(!new)>(pa: Params<C, H>, b: State<C, H>, step: BeaconStep<C, H>, q: u16)
    requires ValidParams(pa) && Possible(pa, b, step) && q in b.net.parties && b.net.parties[q].vector.Some?
    ensures q in Do(pa, b, step).net.parties && Do(pa, b, step).net.parties[q].vector == b.net.parties[q].vector
  {
    if !step.Conclude? {
      VectorStep(CommitRound(pa), b.net, Behind(pa, step), q);
    }
  }

  lemma StepKeepsSettled<C(!new), H(!new)>(
    pa: Params<C, H>, b: State<C, H>, step: BeaconStep<C, H>, vector: seq<Option<Msg<C>>>)
    requires ValidParams(pa) && Possible(pa, b, step) && Settled(pa, b.net, vector)
    ensures Settled(pa, Do(pa, b, step).net, vector)
  {
    var b' := Do(pa, b, step);
    forall q | q in pa.honest ensures q in b'.net.parties && b'.net.parties[q].vector == Some(vector) {
      StepKeepsVector(pa, b, step, q);
    }
  }

  lemma PlayInit<C(!new), H(!new)>(pa: Params<C, H>, steps: seq<BeaconStep<C, H>>, b: State<C, H>)
    returns (last: State<C, H>)
    requires ValidParams(pa) && Play(pa, steps) == Some(b) && steps != []
    ensures Play(pa, steps[..|steps| - 1]) == Some(last)
    ensures Possible(pa, last, steps[|steps| - 1]) && b == Do(pa, last, steps[|steps| - 1])
  {
    last := Play(pa, steps[..|steps| - 1]).value;
  }

  /** A vector that is settled stays as it is, whatever happens next. */
  lemma {:induction false} VectorsStay<C(!new), H(!new)>(
    pa: Params<C, H>, steps: seq<BeaconStep<C, H>>, k: nat, b: State<C, H>, b': State<C, H>,
    vector: seq<Option<Msg<C>>>)
    requires ValidParams(pa) && k <= |steps| && Play(pa, steps[..k]) == Some(b) && Play(pa, steps) == Some(b')
    requires Settled(pa, b.net, vector)
    ensures Settled(pa, b'.net, vector)
  {
    if k == |steps| {
      assert steps[..k] == steps;
    } else {
      var last := PlayInit(pa, steps, b');
      assert steps[..|steps| - 1][..k] == steps[..k];
      VectorsStay(pa, steps[..|steps| - 1], k, b, last, vector);
      StepKeepsSettled(pa, last, steps[|steps| - 1], vector);
    }
  }

  /** No two different strings hashed by honest parties, in one run or the other, have the same commitment. */
  ghost predicate NoShaCollisionAcross<C, H>(pa: Params<C, H>, net: Net<C, H>, net': Net<C, H>) {
    forall x, y :: Hashed(pa, net, x) && Hashed(pa, net', y) && pa.sha(x) == pa.sha(y) ==> x == y
  }

  ghost predicate OpensSlot<C, H>(
    pa: Params<C, H>, b: State<C, H>, vector: seq<Option<Msg<C>>>, s: nat, xs: seq<Bytes32>)
    requires s < |vector| == |xs|
  {
    Hashed(pa, b.net, xs[s]) && vector[s] == Some(CommitMsg(pa.sha(xs[s])))
  }

  /** The strings behind the randomness of a party open the vector on which all have settled. */
  lemma OpensTheVector<C(!new), H(!new)>(pa: Params<C, H>, b: State<C, H>, p: u16, vector: seq<Option<Msg<C>>>)
    returns (xs: seq<Bytes32>)
    requires ValidParams(pa) && BeaconInv(pa, b) && Settled(pa, b.net, vector) && p in pa.honest && Succeeded(b, p)
    ensures |xs| == pa.n && IsSum(b.pcs[p].verdict.output, xs)
    ensures forall s :: 0 <= s < pa.n ==> OpensSlot(pa, b, vector, s, xs)
  {
    StringsOpenTheVector(pa, b, p, p);
    xs := Strings(pa, b, p);
    forall s | 0 <= s < pa.n ensures OpensSlot(pa, b, vector, s, xs) {
      StringsOpenTheVector(pa, b, p, s);
    }
  }

  lemma SameOpenings<C, H>(
    pa: Params<C, H>, b: State<C, H>, b': State<C, H>, vector: seq<Option<Msg<C>>>, xs: seq<Bytes32>, ys: seq<Bytes32>)
    requires NoShaCollisionAcross(pa, b.net, b'.net) && |vector| == |xs| == |ys|
    requires forall s :: 0 <= s < |vector| ==> OpensSlot(pa, b, vector, s, xs)
    requires forall s :: 0 <= s < |vector| ==> OpensSlot(pa, b', vector, s, ys)
    ensures xs == ys
  {
    forall s | 0 <= s < |vector| ensures xs[s] == ys[s] {
      assert OpensSlot(pa, b, vector, s, xs) && OpensSlot(pa, b', vector, s, ys);
    }
  }

  lemma SameVectorSameStrings<C(!new), H(!new)>(
    pa: Params<C, H>, b: State<C, H>, b': State<C, H>, p: u16, p': u16, vector: seq<Option<Msg<C>>>)
    requires ValidParams(pa) && BeaconInv(pa, b) && BeaconInv(pa, b') && NoShaCollisionAcross(pa, b.net, b'.net)
    requires Settled(pa, b.net, vector) && Settled(pa, b'.net, vector)
    requires p in pa.honest && p' in pa.honest && Succeeded(b, p) && Succeeded(b', p')
    ensures b.pcs[p].verdict == b'.pcs[p'].verdict
  {
    var xs := OpensTheVector(pa, b, p, vector);
    var ys := OpensTheVector(pa, b', p', vector);
    SameOpenings(pa, b, b', vector, xs, ys);
    SumIsXorAll(b.pcs[p].verdict.output, xs);
    SumIsXorAll(b'.pcs[p'].verdict.output, ys);
  }

  /** No influence after the first opening: from a moment at which an honest party has opened its string,
      let the run go on in two ways, with the other parties, the network and the schedule acting on
      everything they have learned. Whichever honest party obtains randomness in either of them obtains the
      same: what is left to the adversary is whether there is any. */
  lemma OpeningFixesTheRandomness<C(!new), H(!new)>(
    pa: Params<C, H>, steps: seq<BeaconStep<C, H>>, one: seq<BeaconStep<C, H>>, two: seq<BeaconStep<C, H>>,
    b: State<C, H>, b1: State<C, H>, b2: State<C, H>, p: u16, p1: u16, p2: u16)
    requires ValidParams(pa) && Play(pa, steps) == Some(b) && p in pa.honest && Opens(b.net.posts, p)
    requires Play(pa, steps + one) == Some(b1) && Play(pa, steps + two) == Some(b2)
    requires NoCollision(CommitRound(pa), b.net) && NoShaCollisionAcross(pa, b1.net, b2.net)
    requires p1 in pa.honest && p2 in pa.honest && Succeeded(b1, p1) && Succeeded(b2, p2)
    ensures b1.pcs[p1].verdict == b2.pcs[p2].verdict
  {
    var vector := NothingIsOpenedBeforeAllIsSettled(pa, steps, b, p);
    assert (steps + one)[..|steps|] == steps && (steps + two)[..|steps|] == steps;
    VectorsStay(pa, steps + one, |steps|, b, b1, vector);
    VectorsStay(pa, steps + two, |steps|, b, b2, vector);
    BeaconInvHolds(pa, steps + one, b1);
    BeaconInvHolds(pa, steps + two, b2);
    SameVectorSameStrings(pa, b1, b2, p1, p2, vector);
  }

  // ----- Every blame is evidence

  /** Two messages received from the party blamed, with the ids on record, that contradict each other. */
  ghost predicate Contradict<C, H>(
    pa: Params<C, H>, history: seq<Wire<Msg<C>, H>>, blame: Blame, m1: Wire<Msg<C>, H>, m2: Wire<Msg<C>, H>)
  {
    && m1 in history && m1.sender == blame.guiltyParty && m1.id == blame.commitmentMsg
    && m2 in history && m2.sender == blame.guiltyParty && m2.id == blame.decommitmentMsg
    && m1.msg.Main? && m1.msg.msg.CommitMsg? && m2.msg.Main? && m2.msg.msg.DecommitMsg?
    && pa.sha(m2.msg.msg.randomness) != m1.msg.msg.commitment
  }

  /** The two messages behind slot `k` of the rounds that are compared. */
  lemma MessagesBehind<C(!new), H(!new)>(
    pa: Params<C, H>, b: State<C, H>, p: u16, t: u16, commitments: RoundMsgs<C>, openings: RoundMsgs<Bytes32>)
    returns (m1: Wire<Msg<C>, H>, m2: Wire<Msg<C>, H>)
    requires ValidParams(pa) && Exec(CommitRound(pa), b.run) == Some(b.net) && p in pa.honest && p in b.net.parties
    requires t < pa.n && t != p && b.net.parties[p].result == Some(Ok(commitments))
    requires OpenProgress(pa, p, b.net.parties[p].history) == Completed(Ok(openings))
    ensures |commitments.messages| == |commitments.ids| == |openings.messages| == |openings.ids| == pa.n - 1
    ensures m1 in b.net.parties[p].history && m1.sender == t && m1.id == commitments.ids[Slot(p, t)]
    ensures m1.msg == Main(CommitMsg(commitments.messages[Slot(p, t)]))
    ensures m2 in b.net.parties[p].history && m2.sender == t && m2.id == openings.ids[Slot(p, t)]
    ensures m2.msg == Main(DecommitMsg(openings.messages[Slot(p, t)]))
  {
    m1 := ReleasedMessageWasReceived(CommitRound(pa), b.run, b.net, p, t);
    m2 := OpeningWasReceived(pa, p, b.net.parties[p].history, t);
  }

  /** In every run, whoever is blamed by an honest party has sent it two messages that contradict each other,
      and the blame says which. */
  lemma BlameIsEvidence<C(!new), H(!new)>(
    pa: Params<C, H>, steps: seq<BeaconStep<C, H>>, b: State<C, H>, p: u16, blame: Blame)
    returns (m1: Wire<Msg<C>, H>, m2: Wire<Msg<C>, H>)
    requires ValidParams(pa) && Play(pa, steps) == Some(b)
    requires p in pa.honest && p in b.pcs && b.pcs[p].Done? && b.pcs[p].verdict.PartiesCheated?
    requires blame in b.pcs[p].verdict.guilty
    ensures p in b.net.parties && Contradict(pa, b.net.parties[p].history, blame, m1, m2)
  {
    BeaconInvHolds(pa, steps, b);
    var commitments, openings := VerdictOf(pa, b, p);
    var k := BlamedDoNotMatch(pa.sha, commitments, openings, b.pcs[p].verdict.guilty, blame);
    var t: u16 := if k < p then k else k + 1;
    assert Slot(p, t) == k;
    m1, m2 := MessagesBehind(pa, b, p, t, commitments, openings);
  }
}
