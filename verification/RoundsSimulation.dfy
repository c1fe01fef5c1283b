/**
 Simulating `n` parties that each yield, broadcast and complete rounds 1 to `k`: no schedule of the simulator
 deadlocks, the simulation ends, and every party holds what every other party said in every round.
 */
module RoundsSimulation {
  import opened Messages
  import opened Router
  import opened SimpleStore
  import opened Mailboxes
  import opened StateMachine
  import opened Simulation
  import opened RoundsProtocol

  /** A party of the simulation: its program driven through the state machine adapter. */
  datatype Node<V> = Node(p: u16, m: Machine<PState<V>, RMsg<V>>)

  type Party<V> = PartyState<Node<V>, Outputs<V>>
  type RSim<V> = Sim<Node<V>, RMsg<V>, Outputs<V>>

  function NodeOps<V(!new)>(cfg: Config<V>): MachineOps<Node<V>, RMsg<V>, Outputs<V>>
    requires ValidConfig(cfg)
  {
    MachineOps(
      (node: Node<V>) =>
        if node.p >= cfg.n then (node, ProceedResult.Error(PollingUnknownFuture))
        else
          ProgIsRanked(cfg, node.p);
          var (m, r) := Proceed(Prog(cfg, node.p), node.m);
          (Node(node.p, m), r),
      (node: Node<V>, msg: Incoming<RMsg<V>>) =>
        var (box, ok) := ReceivedMsg(node.m.box, msg);
        (Node(node.p, node.m.(box := box)), ok))
  }

  function Idle<V>(s: PState<V>): Machine<PState<V>, RMsg<V>> {
    Machine(s, false, Empty(), false)
  }

  function Asking<V>(s: PState<V>): Machine<PState<V>, RMsg<V>> {
    Machine(s, false, Empty().(wantsRecv := true), false)
  }

  /** Suspended in a yield. */
  function Paused<V>(s: PState<V>): Machine<PState<V>, RMsg<V>> {
    Machine(s, true, Empty(), false)
  }

  function Given<V>(s: PState<V>, m: Incoming<RMsg<V>>): Machine<PState<V>, RMsg<V>> {
    Machine(s, false, Empty().(incoming := Some(m)), false)
  }

  // ----- What `proceed` does with the program

  lemma ProceedPausing<V(!new)>(cfg: Config<V>, p: u16, s: PState<V>)
    requires ValidConfig(cfg) && p < cfg.n && Ranked(Prog(cfg, p)) && s.Pausing?
    ensures Proceed(Prog(cfg, p), Idle(s)) == (Paused(s), Yielded)
  {
  }

  lemma ProceedPaused<V(!new)>(cfg: Config<V>, p: u16, s: PState<V>)
    requires ValidConfig(cfg) && p < cfg.n && Ranked(Prog(cfg, p)) && s.Pausing? && s.left > 0
    ensures Proceed(Prog(cfg, p), Paused(s)) == Proceed(Prog(cfg, p), Idle(Before(s.r, s.left - 1, s.h)))
  {
    assert Poll(Prog(cfg, p), Paused(s)) == Poll(Prog(cfg, p), Idle(Before(s.r, s.left - 1, s.h)));
  }

  lemma ProceedSpeaking<V(!new)>(cfg: Config<V>, p: u16, r: u16, h: seq<Incoming<RMsg<V>>>)
    requires ValidConfig(cfg) && p < cfg.n && Ranked(Prog(cfg, p))
    ensures Proceed(Prog(cfg, p), Idle(Speaking(r, h))) ==
      (Idle(Flushing(r, h)), SendMsg(Outgoing(AllParties(false), Saying(cfg, p, r, h))))
  {
    var out := Outgoing(AllParties(false), Saying(cfg, p, r, h));
    var full := Machine(Flushing(r, h), false, Empty().(outgoing := Some(out)), false);
    assert Poll(Prog(cfg, p), full) == (full.(box := full.box.(wantsSend := true)), None);
    assert Poll(Prog(cfg, p), Idle(Speaking(r, h))) == Poll(Prog(cfg, p), full);
  }

  lemma ProceedWaiting<V(!new)>(cfg: Config<V>, p: u16, r: u16, h: seq<Incoming<RMsg<V>>>)
    requires ValidConfig(cfg) && p < cfg.n && Ranked(Prog(cfg, p))
    ensures Proceed(Prog(cfg, p), Idle(Waiting(r, h))) == (Asking(Waiting(r, h)), NeedsOneMoreMessage)
  {
  }

  lemma ProceedFlushing<V(!new)>(cfg: Config<V>, p: u16, r: u16, h: seq<Incoming<RMsg<V>>>)
    requires ValidConfig(cfg) && p < cfg.n && Ranked(Prog(cfg, p))
    ensures Proceed(Prog(cfg, p), Idle(Flushing(r, h))) == Proceed(Prog(cfg, p), Idle(Advance(cfg, p, r, h)))
  {
    assert Poll(Prog(cfg, p), Idle(Flushing(r, h))) == Poll(Prog(cfg, p), Idle(Advance(cfg, p, r, h)));
  }

  lemma ProceedGiven<V(!new)>(cfg: Config<V>, p: u16, r: u16, h: seq<Incoming<RMsg<V>>>, m: Incoming<RMsg<V>>)
    requires ValidConfig(cfg) && p < cfg.n && Ranked(Prog(cfg, p))
    ensures Proceed(Prog(cfg, p), Given(Waiting(r, h), m)) == Proceed(Prog(cfg, p), Idle(Heard(cfg, p, r, h, m)))
  {
    assert Poll(Prog(cfg, p), Given(Waiting(r, h), m)) == Poll(Prog(cfg, p), Idle(Heard(cfg, p, r, h, m)));
  }

  // ----- Where a party stands

  ghost predicate DoneBelow<V>(cfg: Config<V>, p: u16, r: nat, h: seq<Incoming<RMsg<V>>>)
    requires ValidConfig(cfg) && p < cfg.n
  {
    forall x: u16 :: 1 <= x < r ==> Round(cfg, p, x, h).Completed? && Round(cfg, p, x, h).result.Ok?
  }

  ghost predicate ProgOk<V>(cfg: Config<V>, p: u16, s: PState<V>)
    requires ValidConfig(cfg) && p < cfg.n
  {
    match s
    case Stopped(h, ok) => ok && DoneBelow(cfg, p, cfg.k + 1, h)
    case _ =>
      && 1 <= s.r <= cfg.k && DoneBelow(cfg, p, s.r, s.h)
      && (s.Waiting? ==> Round(cfg, p, s.r, s.h).InProgress?)
      && (s.Pausing? ==> 1 <= s.left <= cfg.pauses(p, s.r))
  }

  /** In how many rounds the party has spoken. */
  function Spoken<V>(cfg: Config<V>, s: PState<V>): nat {
    match s
    case Pausing(r, _, _) => if r > 0 then r - 1 else 0
    case Speaking(r, _) => if r > 0 then r - 1 else 0
    case Flushing(r, _) => r
    case Waiting(r, _) => r
    case Stopped(_, _) => cfg.k
  }

  function Count<V>(cfg: Config<V>, party: Party<V>): nat {
    if party.Active? then Spoken(cfg, party.machine.m.s) else cfg.k
  }

  /** How many of the pauses before the next message have been made. */
  function Made<V>(cfg: Config<V>, p: u16, s: PState<V>): int {
    match s
    case Pausing(r, left, _) => cfg.pauses(p, r) - left
    case Speaking(r, _) => cfg.pauses(p, r)
    case _ => 0
  }

  function PartyMade<V>(cfg: Config<V>, party: Party<V>): int {
    if party.Finished? then 0
    else Made(cfg, party.machine.p, party.machine.m.s) + if party.machine.m.inYield then 1 else 0
  }

  ghost predicate PartyOk<V>(cfg: Config<V>, i: u16, party: Party<V>, history: seq<Incoming<RMsg<V>>>)
    requires ValidConfig(cfg) && i < cfg.n
  {
    match party
    case Finished(out) =>
      && DoneBelow(cfg, i, cfg.k + 1, history)
      && out == Some(Results(cfg, i, cfg.k, history))
    case Active(node, wants) =>
      var s := node.m.s;
      && node.p == i && s.h == history && ProgOk(cfg, i, s)
      && node.m == (if wants then Asking(s) else if node.m.inYield then Paused(s) else Idle(s))
      && (wants <==> s.Waiting?) && (node.m.inYield ==> s.Pausing?)
  }

  lemma AfterRoundOk<V(!new)>(cfg: Config<V>, p: u16, r: u16, h: seq<Incoming<RMsg<V>>>)
    requires ValidConfig(cfg) && p < cfg.n && r <= cfg.k && DoneBelow(cfg, p, r + 1, h)
    ensures
      var s := AfterRound(cfg, p, r, h);
      && ProgOk(cfg, p, s) && s.h == h && Spoken(cfg, s) == r && Made(cfg, p, s) == 0
      && (s.Pausing? || s.Speaking? || s.Stopped?)
  {
  }

  lemma AdvanceOk<V(!new)>(cfg: Config<V>, p: u16, r: u16, h: seq<Incoming<RMsg<V>>>)
    requires ValidConfig(cfg) && p < cfg.n && InScript(cfg, p, h)
    requires 1 <= r <= cfg.k && DoneBelow(cfg, p, r, h)
    ensures ProgOk(cfg, p, Advance(cfg, p, r, h)) && Advance(cfg, p, r, h).h == h
    ensures Spoken(cfg, Advance(cfg, p, r, h)) == r && !Advance(cfg, p, r, h).Flushing?
    ensures Made(cfg, p, Advance(cfg, p, r, h)) == 0
  {
    RoundNeverFails(cfg, p, r, h);
    if Round(cfg, p, r, h).Completed? {
      AfterRoundOk(cfg, p, r, h);
    }
  }

  /** Rounds that are done are not touched by another message. */
  lemma RoundsStay<V(!new)>(cfg: Config<V>, p: u16, r: nat, h: seq<Incoming<RMsg<V>>>, m: Incoming<RMsg<V>>)
    requires ValidConfig(cfg) && p < cfg.n && DoneBelow(cfg, p, r, h)
    ensures DoneBelow(cfg, p, r, h + [m])
    ensures forall x: u16 :: 1 <= x < r ==> Round(cfg, p, x, h + [m]) == Round(cfg, p, x, h)
  {
    forall x: u16 | 1 <= x < r ensures Round(cfg, p, x, h + [m]) == Round(cfg, p, x, h) {
      assert Round(cfg, p, x, h).Completed? && Round(cfg, p, x, h).result.Ok?;
      AloneIgnoresTheRest(Ty(x), New(p, cfg.n, Broadcast(false)), h, [m]);
    }
  }

  lemma HeardOk<V(!new)>(cfg: Config<V>, p: u16, r: u16, h: seq<Incoming<RMsg<V>>>, m: Incoming<RMsg<V>>)
    requires ValidConfig(cfg) && p < cfg.n && InScript(cfg, p, h + [m])
    requires 1 <= r <= cfg.k && DoneBelow(cfg, p, r, h)
    ensures ProgOk(cfg, p, Heard(cfg, p, r, h, m)) && Heard(cfg, p, r, h, m).h == h + [m]
    ensures Spoken(cfg, Heard(cfg, p, r, h, m)) == r && !Heard(cfg, p, r, h, m).Flushing?
    ensures Made(cfg, p, Heard(cfg, p, r, h, m)) == 0
  {
    RoundsStay(cfg, p, r, h, m);
    AdvanceOk(cfg, p, r, h + [m]);
    assert m in h + [m];
    var j := BodiesContain(h + [m], m);
    assert InOrder(Bodies(h + [m], m.sender));
  }

  // ----- What has been sent

  /** Everything party `i` has sent so far. */
  function By<M>(sends: seq<Sending<M>>, i: u16): seq<M> {
    if sends == [] then []
    else
      var last := sends[|sends| - 1];
      By(sends[..|sends| - 1], i) + if last.sender == i then [last.out.msg] else []
  }

  lemma BySnoc<M>(sends: seq<Sending<M>>, s: Sending<M>, i: u16)
    ensures By(sends + [s], i) == By(sends, i) + if s.sender == i then [s.out.msg] else []
  {
    assert (sends + [s])[..|sends|] == sends;
  }

  ghost predicate AllBroadcast<M>(n: nat, sends: seq<Sending<M>>) {
    forall s :: s in sends ==> s.sender < n && s.out.recipient == AllParties(false)
  }

  /** Broadcasts reach everyone but their sender. */
  lemma {:induction false} BroadcastMail<M>(n: nat, sends: seq<Sending<M>>, r: nat, q: u16)
    requires AllBroadcast(n, sends) && r < n
    ensures Bodies(MailTo(n, sends, r), q) == if q == r then [] else By(sends, q)
    ensures forall m :: m in MailTo(n, sends, r) ==> m.sender < n && m.sender != r && m.msgType == Broadcast(false)
  {
    if sends != [] {
      var init, last := sends[..|sends| - 1], sends[|sends| - 1];
      assert last in sends && forall s :: s in init ==> s in sends;
      BroadcastMail(n, init, r, q);
      var before, added := MailTo(n, init, r), Mail(n, NextIdAfter(n, init), last, r);
      if added == [] {
        assert before + added == before;
      } else {
        assert (before + added)[..|before|] == before;
      }
    }
  }

  /** What party `q`, having received `h`, has said in rounds 1 to `c`. */
  function Script<V>(cfg: Config<V>, q: u16, c: u16, h: seq<Incoming<RMsg<V>>>): seq<RMsg<V>>
    requires ValidConfig(cfg) && q < cfg.n
  {
    seq(c, j requires 0 <= j < c => Saying(cfg, q, j + 1, h))
  }

  /** What a party has said does not depend on what it receives afterwards. */
  lemma ScriptStays<V(!new)>(cfg: Config<V>, q: u16, c: u16, h: seq<Incoming<RMsg<V>>>, m: Incoming<RMsg<V>>)
    requires ValidConfig(cfg) && q < cfg.n && DoneBelow(cfg, q, c, h)
    ensures Script(cfg, q, c, h + [m]) == Script(cfg, q, c, h)
  {
    RoundsStay(cfg, q, c, h, m);
    forall j | 0 <= j < c ensures Script(cfg, q, c, h + [m])[j] == Script(cfg, q, c, h)[j] {
      assert Results(cfg, q, j, h + [m]) == Results(cfg, q, j, h);
    }
  }

  // ----- The invariant

  ghost predicate SpokenOk<V>(
    cfg: Config<V>, j: u16, party: Party<V>, sends: seq<Sending<RMsg<V>>>, history: seq<Incoming<RMsg<V>>>)
    requires ValidConfig(cfg) && j < cfg.n
  {
    Count(cfg, party) <= cfg.k && By(sends, j) == Script(cfg, j, Count(cfg, party), history)
  }

  ghost predicate Inv<V>(cfg: Config<V>, sim: RSim<V>)
    requires ValidConfig(cfg)
  {
    && |sim.parties| == cfg.n && DeliveryOk(sim) && AllBroadcast(cfg.n, sim.sends)
    && (forall j: u16 :: j < cfg.n ==> PartyOk(cfg, j, sim.parties[j], sim.received[j]))
    && forall j: u16 :: j < cfg.n ==> SpokenOk(cfg, j, sim.parties[j], sim.sends, sim.received[j])
  }

  /** All mail of a party, received or queued, is for each sender what that sender has said so far. */
  lemma MailOf<V(!new)>(cfg: Config<V>, sim: RSim<V>, i: u16, q: u16)
    requires ValidConfig(cfg) && Inv(cfg, sim) && i < cfg.n && q < cfg.n
    ensures Bodies(sim.received[i] + sim.queues[i], q) ==
      if q == i then [] else Script(cfg, q, Count(cfg, sim.parties[q]), sim.received[q])
  {
    BroadcastMail(cfg.n, sim.sends, i, q);
    assert SpokenOk(cfg, q, sim.parties[q], sim.sends, sim.received[q]);
  }

  lemma MailInOrder<V(!new)>(cfg: Config<V>, sim: RSim<V>, i: u16, q: u16)
    requires ValidConfig(cfg) && Inv(cfg, sim) && i < cfg.n && q < cfg.n
    ensures
      var said := Bodies(sim.received[i] + sim.queues[i], q);
      |said| <= cfg.k && InOrder(said)
  {
    MailOf(cfg, sim, i, q);
    assert SpokenOk(cfg, q, sim.parties[q], sim.sends, sim.received[q]);
  }

  lemma MailInScript<V(!new)>(cfg: Config<V>, sim: RSim<V>, i: u16)
    requires ValidConfig(cfg) && Inv(cfg, sim) && i < cfg.n
    ensures InScript(cfg, i, sim.received[i] + sim.queues[i])
    ensures forall q: u16 :: q < cfg.n && q != i ==>
      Bodies(sim.received[i] + sim.queues[i], q) == Script(cfg, q, Count(cfg, sim.parties[q]), sim.received[q])
  {
    var mail := sim.received[i] + sim.queues[i];
    forall q: u16 | q < cfg.n ensures |Bodies(mail, q)| <= cfg.k && InOrder(Bodies(mail, q)) {
      MailInOrder(cfg, sim, i, q);
    }
    forall q: u16 | q < cfg.n && q != i
      ensures Bodies(mail, q) == Script(cfg, q, Count(cfg, sim.parties[q]), sim.received[q])
    {
      MailOf(cfg, sim, i, q);
    }
    BroadcastMail(cfg.n, sim.sends, i, i);
    assert mail == MailTo(cfg.n, sim.sends, i);
  }

  // ----- Deadlock freedom

  /** Among the first `l` parties, one that is active has spoken least of the active ones. */
  lemma {:induction false} LeastAdvanced<V>(cfg: Config<V>, parties: seq<Party<V>>) returns (i: nat)
    requires exists j :: 0 <= j < |parties| && parties[j].Active?
    ensures i < |parties| && parties[i].Active?
    ensures forall j :: 0 <= j < |parties| && parties[j].Active? ==> Count(cfg, parties[i]) <= Count(cfg, parties[j])
  {
    var init, last := parties[..|parties| - 1], |parties| - 1;
    if exists j :: 0 <= j < |init| && init[j].Active? {
      i := LeastAdvanced(cfg, init);
      if parties[last].Active? && Count(cfg, parties[last]) < Count(cfg, parties[i]) {
        i := last;
      }
    } else {
      i := last;
    }
  }

  /** If all active parties waited on empty queues, the one that has spoken least would have received
      the current round's message from everybody else, and could not be waiting. */
  lemma NeverStuck<V(!new)>(cfg: Config<V>, sim: RSim<V>)
    requires ValidConfig(cfg) && Inv(cfg, sim)
    ensures !Stuck(sim)
  {
    if Stuck(sim) {
      var i: u16 := LeastAdvanced(cfg, sim.parties);
      assert Blocked(sim, i) && PartyOk(cfg, i, sim.parties[i], sim.received[i]);
      var s := sim.parties[i].machine.m.s;
      assert sim.received[i] + sim.queues[i] == s.h;
      MailInScript(cfg, sim, i);
      forall q: u16 | q < cfg.n && q != i ensures |Bodies(s.h, q)| >= s.r {
        assert Blocked(sim, q) && PartyOk(cfg, q, sim.parties[q], sim.received[q]);
      }
      RoundCompletes(cfg, i, s.r, s.h);
    }
  }

  // ----- Every move keeps the invariant

  /** Party `i` is about to be resumed in state `s`; everything else is in order. */
  ghost predicate About<V>(cfg: Config<V>, sim: RSim<V>, i: u16, s: PState<V>)
    requires ValidConfig(cfg)
  {
    && |sim.parties| == cfg.n && i < cfg.n && DeliveryOk(sim) && AllBroadcast(cfg.n, sim.sends)
    && (forall j: u16 :: j < cfg.n && j != i ==> PartyOk(cfg, j, sim.parties[j], sim.received[j]))
    && (forall j: u16 :: j < cfg.n ==> SpokenOk(cfg, j, sim.parties[j], sim.sends, sim.received[j]))
    && s.h == sim.received[i] && ProgOk(cfg, i, s) && !s.Flushing?
    && sim.parties[i].Active? && Spoken(cfg, s) == Count(cfg, sim.parties[i])
    && sim.parties[i].machine.p == i && 0 <= PartyMade(cfg, sim.parties[i]) <= Made(cfg, i, s)
  }

  function Utterance<V>(cfg: Config<V>, i: u16, r: u16, h: seq<Incoming<RMsg<V>>>): Simulation.Sending<RMsg<V>>
    requires ValidConfig(cfg) && i < cfg.n
  {
    Simulation.Sending(i, Outgoing(AllParties(false), Saying(cfg, i, r, h)))
  }

  /** The simulation after party `i` has spoken in round `r`. */
  function AfterSpeaking<V>(cfg: Config<V>, sim: RSim<V>, i: u16, r: u16, h: seq<Incoming<RMsg<V>>>): RSim<V>
    requires ValidConfig(cfg) && Shape(sim) && |sim.parties| == cfg.n && i < cfg.n
  {
    Sim(sim.parties[i := Active(Node(i, Idle(Flushing(r, h))), false)],
        Posted(sim.queues, sim.nextId, Utterance(cfg, i, r, h)),
        sim.nextId + IdsUsed(|sim.queues|, Utterance(cfg, i, r, h)),
        sim.sends + [Utterance(cfg, i, r, h)],
        sim.received)
  }

  lemma SpeakTurn<V(!new)>(cfg: Config<V>, sim: RSim<V>, i: u16, r: u16, h: seq<Incoming<RMsg<V>>>, node: Node<V>)
    requires ValidConfig(cfg) && Shape(sim) && i < |sim.parties| == cfg.n && Ranked(Prog(cfg, i)) && node.p == i
    requires Proceed(Prog(cfg, i), node.m) == Proceed(Prog(cfg, i), Idle(Speaking(r, h)))
    ensures AfterProceed(NodeOps(cfg), node, i, sim) == ThisParty(AfterSpeaking(cfg, sim, i, r, h))
  {
    ProceedSpeaking(cfg, i, r, h);
  }

  lemma SpeakCounts<V(!new)>(cfg: Config<V>, sim: RSim<V>, i: u16, r: u16, h: seq<Incoming<RMsg<V>>>, j: u16)
    requires ValidConfig(cfg) && Shape(sim) && |sim.parties| == cfg.n && i < cfg.n && j < cfg.n && r <= cfg.k
    requires h == sim.received[i] && Count(cfg, sim.parties[i]) + 1 == r
    requires SpokenOk(cfg, j, sim.parties[j], sim.sends, sim.received[j])
    ensures
      var sim' := AfterSpeaking(cfg, sim, i, r, h);
      SpokenOk(cfg, j, sim'.parties[j], sim'.sends, sim'.received[j])
  {
    BySnoc(sim.sends, Utterance(cfg, i, r, h), j);
  }

  lemma SpeakKeeps<V(!new)>(cfg: Config<V>, sim: RSim<V>, i: u16, s: PState<V>)
    requires ValidConfig(cfg) && About(cfg, sim, i, s) && s.Speaking?
    requires DeliveryOk(AfterSpeaking(cfg, sim, i, s.r, s.h))
    ensures Inv(cfg, AfterSpeaking(cfg, sim, i, s.r, s.h))
  {
    var sim' := AfterSpeaking(cfg, sim, i, s.r, s.h);
    assert AllBroadcast(cfg.n, sim'.sends);
    forall j: u16 | j < cfg.n ensures SpokenOk(cfg, j, sim'.parties[j], sim'.sends, sim'.received[j]) {
      SpeakCounts(cfg, sim, i, s.r, s.h, j);
    }
  }

  lemma WaitKeeps<V(!new)>(cfg: Config<V>, sim: RSim<V>, i: u16, s: PState<V>, node: Node<V>)
    requires ValidConfig(cfg) && About(cfg, sim, i, s) && s.Waiting? && Ranked(Prog(cfg, i))
    requires node.p == i && Proceed(Prog(cfg, i), node.m) == Proceed(Prog(cfg, i), Idle(s))
    ensures
      var t := AfterProceed(NodeOps(cfg), node, i, sim);
      t == ThisParty(sim.(parties := sim.parties[i := Active(Node(i, Asking(s)), true)])) && Inv(cfg, t.sim)
  {
    ProceedWaiting(cfg, i, s.r, s.h);
    AfterProceedDelivers(NodeOps(cfg), node, i, sim);
    assert forall j: u16 :: j < cfg.n ==> SpokenOk(cfg, j, sim.parties[j], sim.sends, sim.received[j]);
  }

  lemma PauseKeeps<V(!new)>(cfg: Config<V>, sim: RSim<V>, i: u16, s: PState<V>, node: Node<V>)
    requires ValidConfig(cfg) && About(cfg, sim, i, s) && s.Pausing? && Ranked(Prog(cfg, i))
    requires node.p == i && Proceed(Prog(cfg, i), node.m) == Proceed(Prog(cfg, i), Idle(s))
    ensures
      var t := AfterProceed(NodeOps(cfg), node, i, sim);
      t == ThisParty(sim.(parties := sim.parties[i := Active(Node(i, Paused(s)), false)])) && Inv(cfg, t.sim)
  {
    ProceedPausing(cfg, i, s);
    AfterProceedDelivers(NodeOps(cfg), node, i, sim);
    assert forall j: u16 :: j < cfg.n ==> SpokenOk(cfg, j, sim.parties[j], sim.sends, sim.received[j]);
  }

  lemma StopKeeps<V(!new)>(cfg: Config<V>, sim: RSim<V>, i: u16, s: PState<V>, node: Node<V>)
    requires ValidConfig(cfg) && About(cfg, sim, i, s) && s.Stopped? && Ranked(Prog(cfg, i))
    requires node.p == i && Proceed(Prog(cfg, i), node.m) == Proceed(Prog(cfg, i), Idle(s))
    ensures
      var t := AfterProceed(NodeOps(cfg), node, i, sim);
      && t.NextParty? && t.sim == sim.(parties := sim.parties[i := t.sim.parties[i]]) && t.sim.parties[i].Finished?
      && Inv(cfg, t.sim)
  {
    AfterProceedDelivers(NodeOps(cfg), node, i, sim);
    assert forall j: u16 :: j < cfg.n ==> SpokenOk(cfg, j, sim.parties[j], sim.sends, sim.received[j]);
  }

  // ----- Every move lowers the rank

  /** The pauses of party `p` before rounds `c + 1` to `k`. */
  function PausesFrom<V>(cfg: Config<V>, p: u16, c: nat): nat
    decreases cfg.k - c
  {
    if c >= cfg.k then 0 else cfg.pauses(p, c + 1) + PausesFrom(cfg, p, c + 1)
  }

  function PausesLeft<V>(cfg: Config<V>, party: Party<V>): int {
    if party.Finished? then 0 else PausesFrom(cfg, party.machine.p, Count(cfg, party)) - PartyMade(cfg, party)
  }

  function PartyRank<V>(cfg: Config<V>, party: Party<V>): int {
    (cfg.k - Count(cfg, party)) * (cfg.n + 2) + PausesLeft(cfg, party) +
    if party.Finished? then 0 else if party.wantsOneMoreMsg then 1 else 2
  }

  function PartiesRank<V>(cfg: Config<V>, parties: seq<Party<V>>): int {
    if parties == [] then 0 else PartiesRank(cfg, parties[..|parties| - 1]) + PartyRank(cfg, parties[|parties| - 1])
  }

  function Queued<M>(queues: seq<seq<Incoming<M>>>): nat {
    if queues == [] then 0 else Queued(queues[..|queues| - 1]) + |queues[|queues| - 1]|
  }

  /** What is still to be said, weighed by the mail it causes, plus the mail still queued. */
  function Rank<V>(cfg: Config<V>, sim: RSim<V>): int {
    PartiesRank(cfg, sim.parties) + Queued(sim.queues)
  }

  lemma {:induction false} PartiesRankUpdate<V>(cfg: Config<V>, parties: seq<Party<V>>, i: nat, party: Party<V>)
    requires i < |parties|
    ensures PartiesRank(cfg, parties[i := party]) ==
      PartiesRank(cfg, parties) - PartyRank(cfg, parties[i]) + PartyRank(cfg, party)
  {
    var last := |parties| - 1;
    if i < last {
      PartiesRankUpdate(cfg, parties[..last], i, party);
      assert parties[i := party][..last] == parties[..last][i := party];
    } else {
      assert parties[i := party][..last] == parties[..last];
    }
  }

  lemma {:induction false} QueuedUpdate<M>(queues: seq<seq<Incoming<M>>>, i: nat, q: seq<Incoming<M>>)
    requires i < |queues|
    ensures Queued(queues[i := q]) == Queued(queues) - |queues[i]| + |q|
  {
    var last := |queues| - 1;
    if i < last {
      QueuedUpdate(queues[..last], i, q);
      assert queues[i := q][..last] == queues[..last][i := q];
    } else {
      assert queues[i := q][..last] == queues[..last];
    }
  }

  /** Queues that grow by at most one message each. */
  lemma {:induction false} QueuedGrowth<M>(queues: seq<seq<Incoming<M>>>, queues': seq<seq<Incoming<M>>>)
    requires |queues| == |queues'| && forall r :: 0 <= r < |queues| ==> |queues'[r]| <= |queues[r]| + 1
    ensures Queued(queues') <= Queued(queues) + |queues|
  {
    if queues != [] {
      QueuedGrowth(queues[..|queues| - 1], queues'[..|queues| - 1]);
    }
  }

  lemma PartyRankNonNegative<V>(cfg: Config<V>, party: Party<V>)
    requires Count(cfg, party) <= cfg.k && PausesLeft(cfg, party) >= 0
    ensures PartyRank(cfg, party) >= 0
  {
    var c, n := cfg.k - Count(cfg, party), cfg.n + 2;
    assert c * n >= 0;
  }

  lemma {:induction false} PartiesRankNonNegative<V>(cfg: Config<V>, parties: seq<Party<V>>)
    requires forall j :: 0 <= j < |parties| ==> Count(cfg, parties[j]) <= cfg.k && PausesLeft(cfg, parties[j]) >= 0
    ensures PartiesRank(cfg, parties) >= 0
  {
    if parties != [] {
      PartiesRankNonNegative(cfg, parties[..|parties| - 1]);
      PartyRankNonNegative(cfg, parties[|parties| - 1]);
    }
  }

  lemma Times(c: int, w: int)
    ensures c * w == (c - 1) * w + w
  {
  }

  /** From `before` to a party that has spoken once more: enough rank is freed for the mail it causes. */
  lemma SpeakRank<V>(cfg: Config<V>, before: Party<V>, after: Party<V>)
    requires before.Active? && Count(cfg, after) == Count(cfg, before) + 1 <= cfg.k
    requires after.Active? && after.machine.p == before.machine.p && PartyMade(cfg, after) == 0
    requires PartyMade(cfg, before) <= cfg.pauses(before.machine.p, Count(cfg, before) + 1)
    ensures PartyRank(cfg, after) + cfg.n < PartyRank(cfg, before)
  {
    var c, p := Count(cfg, before), before.machine.p;
    Times(cfg.k - c, cfg.n + 2);
    assert PausesFrom(cfg, p, c) == cfg.pauses(p, c + 1) + PausesFrom(cfg, p, c + 1);
    assert PausesLeft(cfg, before) == PausesFrom(cfg, p, c) - PartyMade(cfg, before);
    assert PausesLeft(cfg, after) == PausesFrom(cfg, p, c + 1);
  }

  /** Speaking frees more rank than the mail it causes takes up. */
  lemma SpeakLowersRank<V>(cfg: Config<V>, sim: RSim<V>, i: u16, r: u16, h: seq<Incoming<RMsg<V>>>)
    requires ValidConfig(cfg) && Shape(sim) && |sim.parties| == cfg.n && i < cfg.n
    requires sim.parties[i].Active? && Count(cfg, sim.parties[i]) + 1 == r <= cfg.k
    requires sim.parties[i].machine.p == i && PartyMade(cfg, sim.parties[i]) <= cfg.pauses(i, r)
    ensures Rank(cfg, AfterSpeaking(cfg, sim, i, r, h)) < Rank(cfg, sim)
  {
    var sim' := AfterSpeaking(cfg, sim, i, r, h);
    PartiesRankUpdate(cfg, sim.parties, i, sim'.parties[i]);
    SpeakRank(cfg, sim.parties[i], sim'.parties[i]);
    QueuedGrowth(sim.queues, sim'.queues);
  }

  /** Asking for a message, or finishing, does not raise the rank, and lowers it unless the party was
      asking before. */
  lemma RestRank<V>(cfg: Config<V>, sim: RSim<V>, i: u16, party: Party<V>)
    requires i < |sim.parties| && sim.parties[i].Active? && Count(cfg, party) == Count(cfg, sim.parties[i])
    requires party.Finished? || (party.wantsOneMoreMsg && party.machine.p == sim.parties[i].machine.p)
    requires PartyMade(cfg, party) == PartyMade(cfg, sim.parties[i]) == 0
    ensures
      var sim' := sim.(parties := sim.parties[i := party]);
      && Rank(cfg, sim') <= Rank(cfg, sim)
      && (!sim.parties[i].wantsOneMoreMsg ==> Rank(cfg, sim') < Rank(cfg, sim))
  {
    PartiesRankUpdate(cfg, sim.parties, i, party);
  }

  /** So does a pause. */
  lemma PauseRank<V>(cfg: Config<V>, sim: RSim<V>, i: u16, s: PState<V>)
    requires i < |sim.parties| && sim.parties[i].Active? && sim.parties[i].machine.p == i
    requires Spoken(cfg, s) == Count(cfg, sim.parties[i]) && 0 <= PartyMade(cfg, sim.parties[i]) <= Made(cfg, i, s)
    ensures
      var sim' := sim.(parties := sim.parties[i := Active(Node(i, Paused(s)), false)]);
      && Rank(cfg, sim') <= Rank(cfg, sim)
      && (!sim.parties[i].wantsOneMoreMsg ==> Rank(cfg, sim') < Rank(cfg, sim))
  {
    PartiesRankUpdate(cfg, sim.parties, i, Active(Node(i, Paused(s)), false));
  }

  /** A turn that keeps the invariant and lowers the rank, unless a party that waited goes on waiting. */
  ghost predicate GoodTurn<V>(cfg: Config<V>, sim: RSim<V>, waited: bool, t: Turn<Node<V>, RMsg<V>, Outputs<V>>)
    requires ValidConfig(cfg)
  {
    && !t.Failed? && Inv(cfg, t.sim)
    && Rank(cfg, t.sim) <= Rank(cfg, sim) && (!waited ==> Rank(cfg, t.sim) < Rank(cfg, sim))
  }

  lemma SpeakMove<V(!new)>(cfg: Config<V>, sim: RSim<V>, i: u16, s: PState<V>, node: Node<V>)
    requires ValidConfig(cfg) && About(cfg, sim, i, s) && Ranked(Prog(cfg, i)) && node.p == i && s.Speaking?
    requires Proceed(Prog(cfg, i), node.m) == Proceed(Prog(cfg, i), Idle(s))
    ensures GoodTurn(cfg, sim, sim.parties[i].wantsOneMoreMsg, AfterProceed(NodeOps(cfg), node, i, sim))
  {
    SpeakTurn(cfg, sim, i, s.r, s.h, node);
    AfterProceedDelivers(NodeOps(cfg), node, i, sim);
    SpeakKeeps(cfg, sim, i, s);
    SpeakLowersRank(cfg, sim, i, s.r, s.h);
  }

  /** Resuming a party keeps the invariant and lowers the rank, unless it goes on waiting. */
  lemma MoveKeeps<V(!new)>(cfg: Config<V>, sim: RSim<V>, i: u16, s: PState<V>, node: Node<V>)
    requires ValidConfig(cfg) && About(cfg, sim, i, s) && Ranked(Prog(cfg, i)) && node.p == i
    requires Proceed(Prog(cfg, i), node.m) == Proceed(Prog(cfg, i), Idle(s))
    ensures GoodTurn(cfg, sim, sim.parties[i].wantsOneMoreMsg, AfterProceed(NodeOps(cfg), node, i, sim))
  {
    if s.Speaking? {
      SpeakMove(cfg, sim, i, s, node);
    } else if s.Pausing? {
      PauseKeeps(cfg, sim, i, s, node);
      PauseRank(cfg, sim, i, s);
    } else if s.Waiting? {
      WaitKeeps(cfg, sim, i, s, node);
      RestRank(cfg, sim, i, Active(Node(i, Asking(s)), true));
    } else {
      StopKeeps(cfg, sim, i, s, node);
      RestRank(cfg, sim, i, AfterProceed(NodeOps(cfg), node, i, sim).sim.parties[i]);
    }
  }

  /** A party resumed after having sent its message or yielded, or for the first time. */
  lemma ResumeKeeps<V(!new)>(cfg: Config<V>, sim: RSim<V>, i: u16)
    requires ValidConfig(cfg) && Inv(cfg, sim) && i < cfg.n
    requires sim.parties[i].Active? && !sim.parties[i].wantsOneMoreMsg
    ensures GoodTurn(cfg, sim, false, TakeTurn(NodeOps(cfg), sim, i))
  {
    var node := sim.parties[i].machine;
    var s := node.m.s;
    ProgIsRanked(cfg, i);
    assert PartyOk(cfg, i, sim.parties[i], sim.received[i]);
    if s.Flushing? {
      MailInScript(cfg, sim, i);
      InScriptPrefix(cfg, i, sim.received[i], sim.queues[i]);
      AdvanceOk(cfg, i, s.r, s.h);
      ProceedFlushing(cfg, i, s.r, s.h);
      MoveKeeps(cfg, sim, i, Advance(cfg, i, s.r, s.h), node);
    } else if node.m.inYield {
      ProceedPaused(cfg, i, s);
      MoveKeeps(cfg, sim, i, Before(s.r, s.left - 1, s.h), node);
    } else {
      MoveKeeps(cfg, sim, i, s, node);
    }
  }

  lemma NextFollowsTheScript<V(!new)>(cfg: Config<V>, sim: RSim<V>, i: u16)
    requires ValidConfig(cfg) && Inv(cfg, sim) && i < cfg.n && sim.queues[i] != []
    ensures InScript(cfg, i, sim.received[i] + [sim.queues[i][0]])
  {
    var m := sim.queues[i][0];
    MailInScript(cfg, sim, i);
    assert sim.received[i] + [m] + sim.queues[i][1..] == sim.received[i] + sim.queues[i];
    InScriptPrefix(cfg, i, sim.received[i] + [m], sim.queues[i][1..]);
  }

  /** Once party `i` has taken the next message of its queue, it is about to go on with it. */
  lemma HearsTheNext<V(!new)>(cfg: Config<V>, sim: RSim<V>, i: u16, s: PState<V>, m: Incoming<RMsg<V>>)
    requires ValidConfig(cfg) && Inv(cfg, sim) && i < cfg.n && sim.queues[i] != [] && m == sim.queues[i][0]
    requires sim.parties[i].Active? && sim.parties[i].wantsOneMoreMsg && s == sim.parties[i].machine.m.s
    ensures s.Waiting? && sim.parties[i].machine == Node(i, Asking(s))
    ensures About(cfg, Dequeued(sim, i), i, Heard(cfg, i, s.r, s.h, m))
  {
    assert PartyOk(cfg, i, sim.parties[i], sim.received[i]);
    NextFollowsTheScript(cfg, sim, i);
    HeardOk(cfg, i, s.r, s.h, m);
    DequeuedDelivers(sim, i);
    assert forall j: u16 :: j < cfg.n && j != i ==> PartyOk(cfg, j, sim.parties[j], sim.received[j]);
    assert forall j: u16 :: j < cfg.n ==> SpokenOk(cfg, j, sim.parties[j], sim.sends, sim.received[j]);
    ScriptStays(cfg, i, s.r, s.h, m);
  }

  lemma ReceiveTurn<V(!new)>(cfg: Config<V>, sim: RSim<V>, i: u16, s: PState<V>)
    requires ValidConfig(cfg) && Shape(sim) && i < |sim.parties| && sim.queues[i] != []
    requires sim.parties[i] == Active(Node(i, Asking(s)), true)
    ensures TakeTurn(NodeOps(cfg), sim, i) ==
      AfterProceed(NodeOps(cfg), Node(i, Given(s, sim.queues[i][0])), i, Dequeued(sim, i))
  {
    var ops := NodeOps(cfg);
    assert ops.receivedMsg(sim.parties[i].machine, sim.queues[i][0]) == (Node(i, Given(s, sim.queues[i][0])), true);
  }

  /** A party that receives the next message of its queue. */
  lemma ReceiveKeeps<V(!new)>(cfg: Config<V>, sim: RSim<V>, i: u16)
    requires ValidConfig(cfg) && Inv(cfg, sim) && i < cfg.n
    requires sim.parties[i].Active? && sim.parties[i].wantsOneMoreMsg && sim.queues[i] != []
    ensures GoodTurn(cfg, sim, false, TakeTurn(NodeOps(cfg), sim, i))
  {
    var s, m := sim.parties[i].machine.m.s, sim.queues[i][0];
    ProgIsRanked(cfg, i);
    HearsTheNext(cfg, sim, i, s, m);
    ProceedGiven(cfg, i, s.r, s.h, m);
    ReceiveTurn(cfg, sim, i, s);
    MoveKeeps(cfg, Dequeued(sim, i), i, Heard(cfg, i, s.r, s.h, m), Node(i, Given(s, m)));
    QueuedUpdate(sim.queues, i, sim.queues[i][1..]);
  }

  lemma TurnKeeps<V(!new)>(cfg: Config<V>, sim: RSim<V>, i: u16)
    requires ValidConfig(cfg) && Inv(cfg, sim) && i < cfg.n && !Blocked(sim, i)
    ensures GoodTurn(cfg, sim, false, TakeTurn(NodeOps(cfg), sim, i))
  {
    if sim.parties[i].wantsOneMoreMsg {
      ReceiveKeeps(cfg, sim, i);
    } else {
      ResumeKeeps(cfg, sim, i);
    }
  }

  // ----- Whole simulations

  function Machines<V>(cfg: Config<V>): seq<Node<V>> {
    seq(cfg.n, i requires 0 <= i < cfg.n => Node(i, Idle(AfterRound(cfg, i, 0, []))))
  }

  function Start<V>(cfg: Config<V>): RSim<V> {
    Initial(Machines(cfg))
  }

  function Run<V(!new)>(cfg: Config<V>, turns: seq<u16>): Option<RSim<V>>
    requires ValidConfig(cfg)
  {
    Scheduled(NodeOps(cfg), Machines(cfg), turns)
  }

  lemma StartIsOk<V(!new)>(cfg: Config<V>)
    requires ValidConfig(cfg)
    ensures Inv(cfg, Start(cfg))
  {
    var sim := Start(cfg);
    forall j: u16 | j < cfg.n
      ensures PartyOk(cfg, j, sim.parties[j], sim.received[j])
      ensures SpokenOk(cfg, j, sim.parties[j], sim.sends, sim.received[j])
    {
      var s := AfterRound<V>(cfg, j, 0, []);
      assert sim.parties[j] == Active(Node(j, Idle(s)), false) && ProgOk(cfg, j, s);
      assert Spoken(cfg, s) == 0;
    }
  }

  lemma RankNonNegative<V>(cfg: Config<V>, sim: RSim<V>)
    requires ValidConfig(cfg) && Inv(cfg, sim)
    ensures Rank(cfg, sim) >= 0
  {
    forall j: u16 | j < cfg.n ensures Count(cfg, sim.parties[j]) <= cfg.k && PausesLeft(cfg, sim.parties[j]) >= 0 {
      assert PartyOk(cfg, j, sim.parties[j], sim.received[j]);
      assert SpokenOk(cfg, j, sim.parties[j], sim.sends, sim.received[j]);
    }
    PartiesRankNonNegative(cfg, sim.parties);
  }

  /** Blocked parties make no move, so a turn of any party is good. */
  lemma AnyTurnKeeps<V(!new)>(cfg: Config<V>, sim: RSim<V>, i: u16)
    requires ValidConfig(cfg) && Inv(cfg, sim) && i < cfg.n
    ensures GoodTurn(cfg, sim, Blocked(sim, i), TakeTurn(NodeOps(cfg), sim, i))
  {
    if !Blocked(sim, i) {
      TurnKeeps(cfg, sim, i);
    }
  }

  /** Whatever the order of turns, no turn fails, some party can move as long as any is active, and the
      number of moves is bounded from the start. */
  lemma {:induction false} NoScheduleFails<V(!new)>(cfg: Config<V>, turns: seq<u16>)
    requires ValidConfig(cfg) && forall i :: i in turns ==> i < cfg.n
    ensures Run(cfg, turns).Some? && Inv(cfg, Run(cfg, turns).value) && !Stuck(Run(cfg, turns).value)
    ensures Moves(NodeOps(cfg), Machines(cfg), turns) + Rank(cfg, Run(cfg, turns).value) <= Rank(cfg, Start(cfg))
    ensures Moves(NodeOps(cfg), Machines(cfg), turns) <= Rank(cfg, Start(cfg))
  {
    if turns == [] {
      StartIsOk(cfg);
    } else {
      var init, i := turns[..|turns| - 1], turns[|turns| - 1];
      assert i in turns && forall j :: j in init ==> j in turns;
      NoScheduleFails(cfg, init);
      AnyTurnKeeps(cfg, Run(cfg, init).value, i);
    }
    NeverStuck(cfg, Run(cfg, turns).value);
    RankNonNegative(cfg, Run(cfg, turns).value);
  }

  /** All pauses of the first `c` parties. */
  function AllPauses<V>(cfg: Config<V>, c: u16): nat {
    if c == 0 then 0 else AllPauses(cfg, c - 1) + PausesFrom(cfg, c - 1, 0)
  }

  lemma {:induction false} EqualRanks<V>(cfg: Config<V>, parties: seq<Party<V>>, w: int)
    requires |parties| <= 0xFFFF
    requires forall j: u16 :: j < |parties| ==> PartyRank(cfg, parties[j]) == w + PausesFrom(cfg, j, 0)
    ensures PartiesRank(cfg, parties) == |parties| * w + AllPauses(cfg, |parties|)
  {
    if parties != [] {
      var c: u16, init := |parties|, parties[..|parties| - 1];
      assert forall j: u16 :: j < |init| ==> init[j] == parties[j];
      EqualRanks(cfg, init, w);
      assert PartyRank(cfg, parties[c - 1]) == w + PausesFrom(cfg, c - 1, 0);
      assert AllPauses(cfg, c) == AllPauses(cfg, c - 1) + PausesFrom(cfg, c - 1, 0);
      Times(c, w);
    }
  }

  lemma {:induction false} NothingQueued<M>(queues: seq<seq<Incoming<M>>>)
    requires forall r :: 0 <= r < |queues| ==> queues[r] == []
    ensures Queued(queues) == 0
  {
    if queues != [] {
      NothingQueued(queues[..|queues| - 1]);
    }
  }

  lemma StartRank<V>(cfg: Config<V>)
    ensures Rank(cfg, Start(cfg)) == cfg.n * (cfg.k * (cfg.n + 2) + 2) + AllPauses(cfg, cfg.n)
  {
    var sim, w := Start(cfg), cfg.k * (cfg.n + 2) + 2;
    forall j: u16 | j < |sim.parties| ensures PartyRank(cfg, sim.parties[j]) == w + PausesFrom(cfg, j, 0) {
      assert sim.parties[j] == Active(Node(j, Idle(AfterRound(cfg, j, 0, []))), false);
      assert Spoken(cfg, AfterRound<V>(cfg, j, 0, [])) == 0 && Made(cfg, j, AfterRound<V>(cfg, j, 0, [])) == 0;
    }
    EqualRanks(cfg, sim.parties, w);
    NothingQueued(sim.queues);
  }

  /** `n` parties make at most `n * (k * (n + 2) + 2)` moves besides their pauses, whatever the schedule. */
  lemma BoundedMoves<V(!new)>(cfg: Config<V>, turns: seq<u16>)
    requires ValidConfig(cfg) && forall i :: i in turns ==> i < cfg.n
    ensures Moves(NodeOps(cfg), Machines(cfg), turns) <= cfg.n * (cfg.k * (cfg.n + 2) + 2) + AllPauses(cfg, cfg.n)
  {
    NoScheduleFails(cfg, turns);
    StartRank(cfg);
  }

  /** Party `p` has completed round `r`, and holds what party `q` had to say in it, given the outcomes of
      `q`'s own rounds before. */
  ghost predicate HeardOf<V>(cfg: Config<V>, outs: seq<Outputs<V>>, p: u16, r: u16, q: u16)
    requires |outs| == cfg.n && p < cfg.n && q < cfg.n && q != p && 1 <= r <= cfg.k
  {
    && outs[p].Some? && |outs[p].value| == cfg.k && outs[q].Some? && |outs[q].value| == cfg.k
    && var c := outs[p].value[r - 1];
       && c.Completed? && c.result.Ok? && |c.result.value.messages| == cfg.n - 1
       && c.result.value.messages[Slot(p, q)] == cfg.value(q, r, outs[q].value[..r - 1])
  }

  /** Every party ends up with what every other party had to say in every round. */
  ghost predicate HeardAll<V>(cfg: Config<V>, outs: seq<Outputs<V>>) {
    && |outs| == cfg.n
    && forall p: u16, q: u16, r: u16 :: p < cfg.n && q < cfg.n && q != p && 1 <= r <= cfg.k ==>
      HeardOf(cfg, outs, p, r, q)
  }

  /** What a party has received of another is what that one has said. */
  lemma HeardIsSaid<V(!new)>(cfg: Config<V>, sim: RSim<V>, p: u16, r: u16, q: u16)
    requires ValidConfig(cfg) && Inv(cfg, sim) && p < cfg.n && q < cfg.n && q != p
    requires 1 <= r <= |Bodies(sim.received[p], q)|
    ensures Bodies(sim.received[p], q)[r - 1] == Saying(cfg, q, r, sim.received[q])
  {
    MailOf(cfg, sim, p, q);
    BodiesConcat(sim.received[p], sim.queues[p], q);
    var said := Script(cfg, q, Count(cfg, sim.parties[q]), sim.received[q]);
    assert Bodies(sim.received[p], q)[r - 1] == said[r - 1];
  }

  /** What a finished party holds of another finished party. */
  lemma FinishedHeard<V(!new)>(cfg: Config<V>, sim: RSim<V>, p: u16, r: u16, q: u16)
    requires ValidConfig(cfg) && Inv(cfg, sim) && p < cfg.n && q < cfg.n && q != p && 1 <= r <= cfg.k
    requires sim.parties[p].Finished? && sim.parties[q].Finished?
    ensures
      var c := Round(cfg, p, r, sim.received[p]);
      && c.Completed? && c.result.Ok? && |c.result.value.messages| == cfg.n - 1
      && c.result.value.messages[Slot(p, q)] == Saying(cfg, q, r, sim.received[q]).value
  {
    var h := sim.received[p];
    assert PartyOk(cfg, p, sim.parties[p], h);
    MailInScript(cfg, sim, p);
    InScriptPrefix(cfg, p, h, sim.queues[p]);
    assert Round(cfg, p, r, h).Completed? && Round(cfg, p, r, h).result.Ok?;
    RoundHoldsTheScript(cfg, p, r, h, q);
    HeardIsSaid(cfg, sim, p, r, q);
  }

  lemma FinishedHeardAll<V(!new)>(cfg: Config<V>, sim: RSim<V>, outs: seq<Outputs<V>>)
    requires ValidConfig(cfg) && Inv(cfg, sim) && |outs| == cfg.n
    requires forall p :: 0 <= p < cfg.n ==> sim.parties[p] == Finished(outs[p])
    ensures HeardAll(cfg, outs)
  {
    forall p: u16, q: u16, r: u16 | p < cfg.n && q < cfg.n && q != p && 1 <= r <= cfg.k
      ensures HeardOf(cfg, outs, p, r, q)
    {
      assert PartyOk(cfg, p, sim.parties[p], sim.received[p]) && PartyOk(cfg, q, sim.parties[q], sim.received[q]);
      FinishedHeard(cfg, sim, p, r, q);
      assert Results(cfg, q, cfg.k, sim.received[q])[..r - 1] == Results(cfg, q, r - 1, sim.received[q]);
    }
  }

  ghost function RankOf<V>(cfg: Config<V>, sim: RSim<V>): nat {
    if Rank(cfg, sim) >= 0 then Rank(cfg, sim) else 0
  }

  /** The argument that makes the simulator's loops end. */
  lemma RoundsProgress<V(!new)>(cfg: Config<V>)
    requires ValidConfig(cfg)
    ensures Progresses(NodeOps(cfg), sim => Inv(cfg, sim), sim => RankOf(cfg, sim))
  {
    forall sim | Inv(cfg, sim) ensures Shape(sim) && !Stuck(sim) {
      NeverStuck(cfg, sim);
    }
    forall sim, i: u16 | Inv(cfg, sim) && i < |sim.parties| && !Blocked(sim, i)
      ensures
        var t := TakeTurn(NodeOps(cfg), sim, i);
        !t.Failed? && Inv(cfg, t.sim) && RankOf(cfg, t.sim) < RankOf(cfg, sim)
    {
      TurnKeeps(cfg, sim, i);
      RankNonNegative(cfg, TakeTurn(NodeOps(cfg), sim, i).sim);
    }
  }

  /** The simulation of `n` parties over `k` rounds ends, without an error, and every party has finished
      with what every other party had to say in every round. */
  method SimulateRounds<V(!new)>(cfg: Config<V>) returns (result: Result<seq<Outputs<V>>, SimError>)
    requires ValidConfig(cfg)
    ensures result.Ok? && |result.value| == cfg.n
    ensures HeardAll(cfg, result.value)
  {
    var simulator := new Simulator(NodeOps(cfg), Machines(cfg));
    StartIsOk(cfg);
    RoundsProgress(cfg);
    ghost var last;
    result, last := simulator.Run(sim => Inv(cfg, sim), sim => RankOf(cfg, sim));
    if result.Err? {
      ghost var i: u16 :| i < |last.parties| && Shape(last) && TakeTurn(NodeOps(cfg), last, i).Failed?;
      AnyTurnKeeps(cfg, last, i);
      assert false;
    }
    FinishedHeardAll(cfg, last, result.value);
  }
}
