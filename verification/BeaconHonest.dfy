/**
 The beacon among parties that all follow the protocol: whatever the schedule, each party can go on as soon
 as the messages it waits for have been delivered, and ends with randomness.
 */
module BeaconHonest {
  import opened Messages
  import opened Router
  import opened EchoMessages
  import opened SimpleStore
  import opened EchoStore
  import opened InputRound
  import opened EchoNetwork
  import opened EchoHonest
  import opened BeaconCheck
  import opened Beacon

  /** A party of the beacon commits once, so its one commitment is in its own slot. */
  lemma CommitsOnce<C(!new), H(!new)>(pa: Params<C, H>, b: State<C, H>, s: u16)
    requires ValidParams(pa) && BeaconInv(pa, b) && HonestUtterances(pa, b.net.posts) && s in pa.honest
    requires b.net.parties[s].vector.Some?
    ensures SentOnce(CommitRound(pa), b.net, s)
  {
    assert Agrees(pa, b.net.parties[s], s, b.pcs[s]);
  }

  /** Once the commitment of every other party has been delivered, a party can leave the main round of the
      reliable round, and goes on to its echo round. */
  lemma CommitmentsSuffice<C(!new), H(!new)>(pa: Params<C, H>, steps: seq<BeaconStep<C, H>>, b: State<C, H>, p: u16)
    requires ValidParams(pa) && Play(pa, steps) == Some(b) && p in pa.honest && p in b.pcs && p in b.net.parties
    requires b.pcs[p].Committed? && b.net.parties[p].vector.None? && b.net.parties[p].result.None?
    requires Delivered(MainType(CommitRound(pa)), p, pa.n, b.net.parties[p].history)
    ensures Possible(pa, b, EndMain(p))
    ensures
      var b' := Do(pa, b, EndMain(p));
      p in b'.pcs && b'.pcs[p].Committed? && b'.net.parties[p].vector.Some? && b'.net.parties[p].result.None?
  {
    BeaconInvHolds(pa, steps, b);
    MainsSuffice(CommitRound(pa), b.run, b.net, p);
  }

  /** Once the echo of every other party has been delivered, a party can leave the echo round, and has
      everyone's commitments. */
  lemma CommitmentEchoesSuffice<C(!new), H(!new)>(
    pa: Params<C, H>, steps: seq<BeaconStep<C, H>>, b: State<C, H>, p: u16)
    requires ValidParams(pa) && Play(pa, steps) == Some(b) && p in pa.honest && p in b.pcs && p in b.net.parties
    requires forall s: u16 :: s < pa.n ==> s in pa.honest
    requires b.pcs[p].Committed? && b.net.parties[p].check.Some? && b.net.parties[p].result.None?
    requires Delivered(EchoType(CommitRound(pa)), p, pa.n, b.net.parties[p].history)
    ensures Possible(pa, b, EndEcho(p))
    ensures p in Do(pa, b, EndEcho(p)).pcs && Do(pa, b, EndEcho(p)).pcs[p].Received?
  {
    BeaconInvHolds(pa, steps, b);
    HonestUtterancesHold(pa, steps, b);
    forall s | s in b.net.parties && b.net.parties[s].vector.Some? ensures SentOnce(CommitRound(pa), b.net, s) {
      CommitsOnce(pa, b, s);
    }
    EchoesSuffice(CommitRound(pa), b.run, b.net, p);
  }

  /** Once the opening of every other party has been delivered, a party that has opened its own string can
      conclude, whoever the other parties are. */
  lemma OpeningsSuffice<C(!new), H(!new)>(pa: Params<C, H>, steps: seq<BeaconStep<C, H>>, b: State<C, H>, p: u16)
    returns (verdict: Verdict)
    requires ValidParams(pa) && Play(pa, steps) == Some(b) && p in pa.honest && p in b.pcs && p in b.net.parties
    requires b.pcs[p].Opened? && Delivered(OpenType<C, H>(), p, pa.n, b.net.parties[p].history)
    ensures Possible(pa, b, Conclude(p, verdict))
  {
    BeaconInvHolds(pa, steps, b);
    assert Agrees(pa, b.net.parties[p], p, b.pcs[p]);
    var history, ty := b.net.parties[p].history, OpenType<C, H>();
    RelabelledActsAsInput<Bytes32, EchoError<InputError>>(MainLabel());
    HonestRoundCompletes(ty, p, pa.n, Broadcast(false), OfRound(ty.roundOf, history, ty.round));
    SameRoundAlways(pa, b, p);
    var openings := OpenProgress(pa, p, history).result.value;
    verdict := VerdictExists(pa.sha, pa.randomness(p), b.pcs[p].commitments, openings);
  }

  /** Among honest parties, that verdict is randomness. */
  lemma HonestOpeningsSuffice<C(!new), H(!new)>(pa: Params<C, H>, steps: seq<BeaconStep<C, H>>, b: State<C, H>, p: u16)
    returns (verdict: Verdict)
    requires ValidParams(pa) && Play(pa, steps) == Some(b) && p in pa.honest && p in b.pcs && p in b.net.parties
    requires NoCollision(CommitRound(pa), b.net) && forall s: u16 :: s < pa.n ==> s in pa.honest
    requires b.pcs[p].Opened? && Delivered(OpenType<C, H>(), p, pa.n, b.net.parties[p].history)
    ensures Possible(pa, b, Conclude(p, verdict)) && verdict.Randomness?
  {
    verdict := OpeningsSuffice(pa, steps, b, p);
    var steps' := steps + [Conclude(p, verdict)];
    assert steps'[..|steps|] == steps;
    HonestBeaconSucceeds(pa, steps', Do(pa, b, Conclude(p, verdict)), p);
  }
}
