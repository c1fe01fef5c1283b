/**
 The standard shape of a protocol, as one party runs it: for each round in turn, yield to the runtime some
 number of times, broadcast a message and complete the round. Messages of later rounds that arrive early
 are kept for their round.
 */
module RoundsProtocol {
  import opened Messages
  import opened Router
  import opened SimpleStore
  import opened InputRound
  import opened StateMachine
  import opened Simulation

  datatype RMsg<V> = RMsg(round: u16, value: V)

  /** The state or the outcome of one round. */
  type RoundCell<V> = Cell<RoundInput<V>, RoundMsgs<V>, InputError>

  /** `n` parties, rounds 1 to `k`, what each party says in each round, which may depend on the outcomes of
      its rounds before, and how often it yields before saying it. */
  datatype Config<!V> = Config(
    n: u16, k: u16, value: (u16, u16, seq<RoundCell<V>>) -> V, pauses: (u16, u16) -> nat)

  predicate ValidConfig<V>(cfg: Config<V>) {
    2 <= cfg.n
  }

  function Ty<V>(r: u16): RoundType<RMsg<V>, V, RoundInput<V>, RoundMsgs<V>, InputError> {
    RoundType(r, (m: RMsg<V>) => m.round, (m: RMsg<V>) => if m.round == r then Some(m.value) else None, Ops())
  }

  /** What round `r` of party `p` has come to, given all the party received. */
  function Round<V>(cfg: Config<V>, p: u16, r: u16, h: seq<Incoming<RMsg<V>>>): (c: RoundCell<V>)
    requires ValidConfig(cfg) && p < cfg.n
    ensures !c.Gone?
  {
    Alone(Ty(r), New(p, cfg.n, Broadcast(false)), h)
  }

  /** What rounds 1 to `c` have come to. */
  function Results<V>(cfg: Config<V>, p: u16, c: u16, h: seq<Incoming<RMsg<V>>>): seq<RoundCell<V>>
    requires ValidConfig(cfg) && p < cfg.n
  {
    seq(c, j requires 0 <= j < c => Round(cfg, p, j + 1, h))
  }

  /** What party `p` says in round `r`. */
  function Saying<V>(cfg: Config<V>, p: u16, r: u16, h: seq<Incoming<RMsg<V>>>): RMsg<V>
    requires ValidConfig(cfg) && p < cfg.n
  {
    RMsg(r, cfg.value(p, r, Results(cfg, p, if r > 0 then r - 1 else 0, h)))
  }

  // ----- The program

  datatype PState<V> =
    | Pausing(r: u16, left: nat, h: seq<Incoming<RMsg<V>>>)
    | Speaking(r: u16, h: seq<Incoming<RMsg<V>>>)
    | Flushing(r: u16, h: seq<Incoming<RMsg<V>>>)
    | Waiting(r: u16, h: seq<Incoming<RMsg<V>>>)
    | Stopped(h: seq<Incoming<RMsg<V>>>, ok: bool)

  /** Before speaking in round `r`, with `left` pauses to make. */
  function Before<V>(r: u16, left: nat, h: seq<Incoming<RMsg<V>>>): PState<V> {
    if left > 0 then Pausing(r, left, h) else Speaking(r, h)
  }

  /** Round `r` is done, or 0 of them are. */
  function AfterRound<V>(cfg: Config<V>, p: u16, r: u16, h: seq<Incoming<RMsg<V>>>): PState<V> {
    if r < cfg.k then Before(r + 1, cfg.pauses(p, r + 1), h) else Stopped(h, true)
  }

  /** `complete` asks for the round before it asks for messages. */
  function Advance<V>(cfg: Config<V>, p: u16, r: u16, h: seq<Incoming<RMsg<V>>>): PState<V>
    requires ValidConfig(cfg) && p < cfg.n
  {
    match Round(cfg, p, r, h)
    case InProgress(_) => Waiting(r, h)
    case Completed(result) => if result.Ok? then AfterRound(cfg, p, r, h) else Stopped(h, false)
  }

  /** A message of a round that was never registered ends the protocol. */
  function Heard<V>(cfg: Config<V>, p: u16, r: u16, h: seq<Incoming<RMsg<V>>>, m: Incoming<RMsg<V>>): PState<V>
    requires ValidConfig(cfg) && p < cfg.n
  {
    if 1 <= m.msg.round <= cfg.k then Advance(cfg, p, r, h + [m]) else Stopped(h + [m], false)
  }

  /** The outcome of each round, or the failure of one. */
  type Outputs<V> = Option<seq<RoundCell<V>>>

  function OpOf<V>(cfg: Config<V>, p: u16, s: PState<V>): Op<PState<V>, RMsg<V>, Outputs<V>>
    requires ValidConfig(cfg) && p < cfg.n
  {
    match s
    case Pausing(r, left, h) => Op.Yield(Before(r, if left > 0 then left - 1 else 0, h))
    case Speaking(r, h) => Feed(Outgoing(AllParties(false), Saying(cfg, p, r, h)), Flushing(r, h))
    case Flushing(r, h) => Flush(Advance(cfg, p, r, h))
    case Waiting(r, h) => Op.Receive(m => Heard(cfg, p, r, h, m))
    case Stopped(h, ok) => Return(if ok then Some(Results(cfg, p, cfg.k, h)) else None)
  }

  function Prog<V>(cfg: Config<V>, p: u16): Program<PState<V>, RMsg<V>, Outputs<V>>
    requires ValidConfig(cfg) && p < cfg.n
  {
    Program(s => OpOf(cfg, p, s), (s: PState<V>) => if s.Flushing? then 1 else 0)
  }

  lemma ProgIsRanked<V(!new)>(cfg: Config<V>, p: u16)
    requires ValidConfig(cfg) && p < cfg.n
    ensures Ranked(Prog(cfg, p))
  {
  }

  // ----- The program completes its rounds as `MpcParty.Complete` does

  predicate Numbered<V>(cfg: Config<V>, r: u16) {
    1 <= r <= cfg.k
  }

  function Registered<V>(cfg: Config<V>): set<u16> {
    set r: u16 | Numbered(cfg, r)
  }

  lemma FlushStep<V>(cfg: Config<V>, p: u16, r: u16, h: seq<Incoming<RMsg<V>>>, stream: seq<Incoming<RMsg<V>>>)
    requires ValidConfig(cfg) && p < cfg.n
    ensures DirectRun(Prog(cfg, p), Flushing(r, h), stream, 1) == Some(Direct(Advance(cfg, p, r, h), [], 0))
  {
    assert DirectRun(Prog(cfg, p), Flushing(r, h), stream, 0) == Some(Direct(Flushing(r, h), [], 0));
  }

  lemma HearStep<V>(
    cfg: Config<V>, p: u16, s: PState<V>, r: u16, h: seq<Incoming<RMsg<V>>>, stream: seq<Incoming<RMsg<V>>>, j: nat)
    requires ValidConfig(cfg) && p < cfg.n && j < |stream|
    requires DirectRun(Prog(cfg, p), s, stream, j + 1) == Some(Direct(Waiting(r, h), [], j))
    ensures DirectRun(Prog(cfg, p), s, stream, j + 2) == Some(Direct(Heard(cfg, p, r, h, stream[j]), [], j + 1))
  {
  }

  lemma HearNext<V>(cfg: Config<V>, p: u16, r: u16, h: seq<Incoming<RMsg<V>>>, stream: seq<Incoming<RMsg<V>>>, j: nat)
    requires ValidConfig(cfg) && p < cfg.n && j < |stream|
    ensures Heard(cfg, p, r, h + stream[..j], stream[j]) ==
      if Numbered(cfg, stream[j].msg.round) then Advance(cfg, p, r, h + stream[..j + 1])
      else Stopped(h + stream[..j + 1], false)
  {
    assert h + stream[..j] + [stream[j]] == h + stream[..j + 1];
  }

  /** As long as the round is unfinished, the program takes one message after the other. */
  lemma {:induction false} WaitsAsTheLoopDoes<V>(
    cfg: Config<V>, p: u16, r: u16, h: seq<Incoming<RMsg<V>>>, stream: seq<Incoming<RMsg<V>>>, j: nat)
    requires ValidConfig(cfg) && p < cfg.n && j <= |stream|
    requires forall x :: 0 <= x < j ==> Numbered(cfg, stream[x].msg.round)
    requires Round(cfg, p, r, h + stream[..j]).InProgress?
    ensures DirectRun(Prog(cfg, p), Flushing(r, h), stream, j + 1) == Some(Direct(Waiting(r, h + stream[..j]), [], j))
  {
    if j == 0 {
      assert h + stream[..0] == h;
      FlushStep(cfg, p, r, h, stream);
    } else {
      if Round(cfg, p, r, h + stream[..j - 1]).Completed? {
        FinishedStaysFinished(Ty(r), New(p, cfg.n, Broadcast(false)), h, stream, j - 1, j);
      }
      WaitsAsTheLoopDoes(cfg, p, r, h, stream, j - 1);
      HearStep(cfg, p, Flushing(r, h), r, h + stream[..j - 1], stream, j - 1);
      HearNext(cfg, p, r, h, stream, j - 1);
    }
  }

  /** Where the program stands when `complete` of round `r` has returned `result`. */
  function AfterComplete<V>(
    cfg: Config<V>, p: u16, r: u16, h: seq<Incoming<RMsg<V>>>, result: Result<RoundMsgs<V>, CompleteError<InputError>>)
    : PState<V>
  {
    match result
    case Ok(_) => AfterRound(cfg, p, r, h)
    case Err(InRound(_)) => Stopped(h, false)
    case Err(UnexpectedEof) => Waiting(r, h)
  }

  lemma LastHeard<V>(
    cfg: Config<V>, p: u16, r: u16, h: seq<Incoming<RMsg<V>>>, stream: seq<Incoming<RMsg<V>>>, k: nat,
    result: Result<RoundMsgs<V>, CompleteError<InputError>>)
    requires ValidConfig(cfg) && p < cfg.n && 1 <= r <= cfg.k && k < |stream|
    requires Outcome(Ty(r), New(p, cfg.n, Broadcast(false)), h, stream, k + 1, Registered(cfg), result)
    ensures Round(cfg, p, r, h + stream[..k]).InProgress?
    ensures forall x :: 0 <= x < k ==> Numbered(cfg, stream[x].msg.round)
    ensures AfterComplete(cfg, p, r, h + stream[..k + 1], result) == Heard(cfg, p, r, h + stream[..k], stream[k])
  {
    HearNext(cfg, p, r, h, stream, k);
    AfterSnoc(Ty(r), New(p, cfg.n, Broadcast(false)), h, stream, k);
    forall x | 0 <= x < k ensures Numbered(cfg, stream[x].msg.round) {
      assert stream[x] in stream[..k];
    }
  }

  /** Whatever `complete` consumes and returns on a stream, the program consumes, and goes on accordingly. */
  lemma CompletesAsTheLoopDoes<V>(
    cfg: Config<V>, p: u16, r: u16, h: seq<Incoming<RMsg<V>>>, stream: seq<Incoming<RMsg<V>>>, k: nat,
    result: Result<RoundMsgs<V>, CompleteError<InputError>>)
    requires ValidConfig(cfg) && p < cfg.n && 1 <= r <= cfg.k && k <= |stream|
    requires Outcome(Ty(r), New(p, cfg.n, Broadcast(false)), h, stream, k, Registered(cfg), result)
    ensures DirectRun(Prog(cfg, p), Flushing(r, h), stream, k + 1) ==
      Some(Direct(AfterComplete(cfg, p, r, h + stream[..k], result), [], k))
  {
    if k == 0 {
      assert h + stream[..0] == h;
      FlushStep(cfg, p, r, h, stream);
    } else {
      LastHeard(cfg, p, r, h, stream, k - 1, result);
      WaitsAsTheLoopDoes(cfg, p, r, h, stream, k - 1);
      HearStep(cfg, p, Flushing(r, h), r, h + stream[..k - 1], stream, k - 1);
    }
  }

  // ----- Histories that follow the protocol

  /** A party speaks in round after round. */
  predicate InOrder<V>(b: seq<RMsg<V>>) {
    forall j :: 0 <= j < |b| ==> b[j].round == j + 1
  }

  /** What party `p` has received is what parties that follow the protocol say, each from its first round
      on. */
  ghost predicate InScript<V>(cfg: Config<V>, p: u16, h: seq<Incoming<RMsg<V>>>) {
    && (forall m :: m in h ==> m.sender < cfg.n && m.sender != p && m.msgType == Broadcast(false))
    && forall q: u16 :: q < cfg.n ==> |Bodies(h, q)| <= cfg.k && InOrder(Bodies(h, q))
  }

  lemma {:induction false} BodiesContain<M>(h: seq<Incoming<M>>, m: Incoming<M>) returns (j: nat)
    requires m in h
    ensures j < |Bodies(h, m.sender)| && Bodies(h, m.sender)[j] == m.msg
  {
    var init, last := h[..|h| - 1], h[|h| - 1];
    assert h == init + [last];
    if m in init {
      j := BodiesContain(init, m);
    } else {
      j := |Bodies(init, m.sender)|;
    }
  }

  lemma {:induction false} BodiesComeFrom<M>(h: seq<Incoming<M>>, q: u16, j: nat) returns (m: Incoming<M>)
    requires j < |Bodies(h, q)|
    ensures m in h && m.sender == q && m.msg == Bodies(h, q)[j]
  {
    var init, last := h[..|h| - 1], h[|h| - 1];
    if j < |Bodies(init, q)| {
      m := BodiesComeFrom(init, q, j);
    } else {
      m := last;
    }
  }

  lemma {:induction false} BodiesConcat<M>(a: seq<Incoming<M>>, b: seq<Incoming<M>>, q: u16)
    ensures Bodies(a + b, q) == Bodies(a, q) + Bodies(b, q)
  {
    if b == [] {
      assert a + b == a;
    } else {
      BodiesConcat(a, b[..|b| - 1], q);
      assert (a + b)[..|a + b| - 1] == a + b[..|b| - 1];
    }
  }

  /** The beginning of a history that follows the protocol follows it too. */
  lemma InScriptPrefix<V>(cfg: Config<V>, p: u16, h: seq<Incoming<RMsg<V>>>, more: seq<Incoming<RMsg<V>>>)
    requires InScript(cfg, p, h + more)
    ensures InScript(cfg, p, h)
  {
    forall m | m in h ensures m.sender < cfg.n && m.sender != p && m.msgType == Broadcast(false) {
      assert m in h + more;
    }
    forall q: u16 | q < cfg.n ensures |Bodies(h, q)| <= cfg.k && InOrder(Bodies(h, q)) {
      BodiesConcat(h, more, q);
      assert Bodies(h, q) == Bodies(h + more, q)[..|Bodies(h, q)|];
    }
  }

  /** In a history that follows the protocol, no party speaks twice in a round. */
  lemma SpeaksOnce<V>(cfg: Config<V>, p: u16, h: seq<Incoming<RMsg<V>>>, m: Incoming<RMsg<V>>, e: Incoming<RMsg<V>>)
    requires InScript(cfg, p, h + [m]) && e in h && e.sender == m.sender
    ensures e.msg.round != m.msg.round
  {
    var q := m.sender;
    assert m in h + [m];
    var j := BodiesContain(h, e);
    assert (h + [m])[..|h|] == h;
    assert Bodies(h + [m], q) == Bodies(h, q) + [m.msg];
    assert Bodies(h + [m], q)[j] == e.msg && Bodies(h + [m], q)[|Bodies(h, q)|] == m.msg;
    assert InOrder(Bodies(h + [m], q));
  }

  /** In each round, a history that follows the protocol has at most one message of each other party. */
  lemma {:induction false} OneMessageEach<V>(cfg: Config<V>, p: u16, r: u16, h: seq<Incoming<RMsg<V>>>)
    requires InScript(cfg, p, h)
    ensures OneEach(Ty<V>(r), p, cfg.n, Broadcast(false), OfRound(Ty<V>(r).roundOf, h, r))
  {
    if h != [] {
      var init, m := h[..|h| - 1], h[|h| - 1];
      assert h == init + [m] && m in h;
      InScriptPrefix(cfg, p, init, [m]);
      OneMessageEach(cfg, p, r, init);
      var own := OfRound(Ty<V>(r).roundOf, init, r);
      OfRoundMembers(Ty<V>(r).roundOf, init, r);
      if m.msg.round == r {
        forall e | e in own ensures e.sender != m.sender {
          if e.sender == m.sender {
            SpeaksOnce(cfg, p, init, m, e);
          }
        }
        OneEachSnoc(Ty<V>(r), p, cfg.n, Broadcast(false), own, m);
      }
    }
  }

  /** No round fails on a history that follows the protocol. */
  lemma RoundNeverFails<V(!new)>(cfg: Config<V>, p: u16, r: u16, h: seq<Incoming<RMsg<V>>>)
    requires ValidConfig(cfg) && p < cfg.n && InScript(cfg, p, h)
    ensures Round(cfg, p, r, h).Completed? ==> Round(cfg, p, r, h).result.Ok?
  {
    OneMessageEach(cfg, p, r, h);
    HonestRoundNeverFails(Ty(r), p, cfg.n, Broadcast(false), OfRound(Ty<V>(r).roundOf, h, r));
  }

  /** A round completes once every other party's message of that round has arrived. */
  lemma RoundCompletes<V(!new)>(cfg: Config<V>, p: u16, r: u16, h: seq<Incoming<RMsg<V>>>)
    requires ValidConfig(cfg) && p < cfg.n && InScript(cfg, p, h) && 1 <= r <= cfg.k
    requires forall q: u16 :: q < cfg.n && q != p ==> |Bodies(h, q)| >= r
    ensures Round(cfg, p, r, h).Completed?
  {
    var own := OfRound(Ty<V>(r).roundOf, h, r);
    forall q: u16 | q < cfg.n && q != p ensures SentBy(own, q) {
      var m := BodiesComeFrom(h, q, r - 1);
      assert InOrder(Bodies(h, q));
      OfRoundMembers(Ty<V>(r).roundOf, h, r);
      assert m in own;
    }
    OneMessageEach(cfg, p, r, h);
    HonestRoundCompletes(Ty(r), p, cfg.n, Broadcast(false), own);
  }

  /** A completed round holds what every other party has said in that round. */
  lemma RoundHoldsTheScript<V(!new)>(cfg: Config<V>, p: u16, r: u16, h: seq<Incoming<RMsg<V>>>, q: u16)
    requires ValidConfig(cfg) && p < cfg.n && InScript(cfg, p, h) && q < cfg.n && q != p
    requires Round(cfg, p, r, h).Completed? && Round(cfg, p, r, h).result.Ok?
    ensures |Round(cfg, p, r, h).result.value.messages| == cfg.n - 1
    ensures 1 <= r <= |Bodies(h, q)|
    ensures Round(cfg, p, r, h).result.value.messages[Slot(p, q)] == Bodies(h, q)[r - 1].value
  {
    var m := CollectedFromSender(Ty(r), p, cfg.n, Broadcast(false), h, q);
    var j := BodiesContain(h, m);
    assert InOrder(Bodies(h, q));
  }
}
