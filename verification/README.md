# A verified model of the round engine of `round-based`

`round-based` runs multi-party protocols in rounds. This project models the engine under those
protocols, layer by layer, and proves what holds within each layer and across them. Everything is
stated for all numbers of parties, all messages, all schedules and all runs.

| layer | files |
|---|---|
| messages and round stores | `Messages.dfy`, `RoundStore.dfy`, `SimpleStore.dfy`, `InputRound.dfy` |
| rounds router and the `complete` loop | `Router.dfy` |
| echo broadcast: numbering, stores, engine, distributed protocol | `EchoMessages.dfy`, `EchoStore.dfy`, `EchoEngine.dfy`, `EchoNetwork.dfy`, `EchoHonest.dfy` |
| random beacon | `BeaconCheck.dfy`, `Beacon.dfy`, `BeaconFairness.dfy`, `BeaconHonest.dfy` |
| state machine adapter | `Mailboxes.dfy`, `StateMachine.dfy` |
| simulator | `Simulation.dfy`, `PartyRuns.dfy`, `RoundsProtocol.dfy`, `RoundsSimulation.dfy` |

The main results:

* **Agreement and validity under Byzantine faults** (`EchoNetwork.ReliableBroadcastAgreement`,
  `EchoNetwork.ReliableBroadcastValidity`, `EchoNetwork.SlotHoldsExactlyWhatWasSent`). Honest parties run
  the engine; everyone else, the network and the schedule are arbitrary, except that a message
  delivered in the name of an honest party was sent by it. Once one honest party's reliable round
  returns Ok, every honest party has finished the main round and echoed the same vector, which holds
  for each honest party exactly what it sent in the round before leaving it. Freedom from collisions is
  a hypothesis about the vectors hashed in the run at hand, not about the hash function.
* **Completeness** (`EchoHonest.MainsSuffice`, `EchoHonest.EchoesSuffice`,
  `BeaconHonest.HonestOpeningsSuffice`). Among honest parties, whatever the schedule, a reliable round
  comes to its output, and the beacon to its randomness, once the messages have been delivered.
* **Beacon agreement and accountability, end to end** (`Beacon.BeaconAgreement`,
  `Beacon.HonestPartiesAreNeverBlamed`, `BeaconFairness.BlameIsEvidence`). In every run of the beacon over
  echo broadcast, two honest parties that obtain randomness obtain the same 32 bytes, although openings
  travel over plain broadcast. A bit of it is set if and only if it is set in an odd number of strings,
  among them the string of every honest party. No honest party blames another, and every blame names two
  received messages that contradict each other.
* **No influence after the first opening** (`BeaconFairness.OpeningFixesTheRandomness`). From the moment an
  honest party has opened its string, any two continuations of the run, whatever the adversary makes of
  what it has learned, yield the same randomness, if any.
* **Interleaving independence** (`Router.RoundsRouter`, `Router.MpcParty.CompleteInOrder`). Whatever the
  interleaving, each round returns what its store alone makes of its own messages.
* **Refinement** (`StateMachine.MachineRefinesDirectRun`, `StateMachine.RunToCompletion`). A program
  driven through the mailbox does what it does on an ideal channel, with one exception stated below.
* **Deadlock freedom and termination** (`RoundsSimulation.NeverStuck`, `RoundsSimulation.BoundedMoves`,
  `RoundsSimulation.SimulateRounds`). `n` parties that yield, broadcast and complete rounds 1 to `k`, saying
  in each round whatever they make of the rounds before, always finish, each with what all others had to
  say; the party that has spoken least can always move. Whatever the machines, each party of a simulation
  is driven as the documentation asks (`PartyRuns.EveryPartyFollowsItsMachine`).

How the model is laid out. An object that the source updates in place is a class whose methods are
proved to do what a function says on the abstract value; the theorems are about those functions.
Stores are records of functions (`StoreOps`), so that results about the router and about echo
broadcast hold for every store that obeys the store law. Futures are resumable programs
(`StateMachine.Program`). Runs are sequences of steps, each of which has to be possible when taken.

Two promises turned out not to hold for all inputs.

Message numbers are 16 bits wide: the echo of main round `r` has number `2 * r + 1`, which wraps around
for rounds above 32767. An echo that claims such a round reaches the echo round of another round, and
ends it with an error documented as a bug. `EchoMessages.EchoOfUnregisteredRoundIsMisrouted` gives the
input, `EchoMessages.WrappedExactness` the exact set of messages on which the conversion law fails,
`EchoMessages.EchoBugExactly` and `EchoMessages.MainBugExactly` exactly when a round ends that way. (The
documentation of the message type expects the error of an unregistered round here. A build with
overflow checks panics instead.)

The state machine adapter hands out a message only on behalf of a program that awaits its departure. A
message that a program feeds and does not flush before it returns, as `SendMany::send` without `flush`
does, is never emitted: `StateMachine.FedAndNeverEmitted` gives the input, and
`StateMachine.MachineRefinesDirectRun` and `StateMachine.RunToCompletion` state that a message stays
behind if and only if the last one fed was not followed by a flush (`StateMachine.Unflushed`).

## Model

| member | source | states |
|---|---|---|
| `RoundStore.RelabellingIsTransparent` | round-based/src/echo_broadcast/store.rs:311-395 | The thin store wrappers hold and accept exactly what the wrapped store does |
| `RoundStore.RelabellingIsLawful` | round-based/src/echo_broadcast/store.rs:311-395 | The thin store wrappers keep the store law |
| `SimpleStore.SlotsHoldFirstMessages` | round-based/src/round/simple_store.rs:139-175 | After any messages at all, each other party's slot holds its first message of acceptable type and the id of that message |
| `SimpleStore.RejectedExactly` | round-based/src/round/simple_store.rs:111-175 | Which message is rejected, with which error, after any history, the table of acceptable types written out |
| `SimpleStore.OrderIsIrrelevant` | round-based/src/round/simple_store.rs:139-191 | When no party sends two different messages, any permutation leaves the same store |
| `SimpleStore.OutputsExactlyWhenFull` | round-based/src/round/simple_store.rs:177-191 | The store outputs if and only if every other party's message is there, if and only if it wants no more |
| `SimpleStore.CompletesByType` | round-based/src/round/simple_store.rs:111-191 | The store outputs if and only if every other party has sent a message of its kind: point-to-point, reliable broadcast, or either broadcast |
| `SimpleStore.InputIsLawful` | round-based/src/round/mod.rs:40-53 | `RoundInput` obeys the store law in every state |
| `SimpleStore.OutputShape` | round-based/src/round/simple_store.rs:181-191 | The output has `n - 1` messages and ids, in the slots they were stored in |
| `SimpleStore.ViewsOfParty` | round-based/src/round/simple_store.rs:205-288 | Including-me views have party `p` at index `p`; the indexed view pairs each slot with its true sender and id |
| `SimpleStore.ViewsAgree` | round-based/src/round/simple_store.rs:205-288 | In every view, party `p`'s entry is the first acceptable message received from `p` |
| `SimpleStore.InsertsAfter.Next` | round-based/src/round/simple_store.rs:247-260 | The iterator yields the remaining elements, the inserted one in its place, one at a time |
| `SimpleStore.IntoIterIncludingMe` | round-based/src/round/simple_store.rs:241-266 | Collecting the iterator gives what inserting into the vector gives |
| `SimpleStore.RoundInputCell.constructor` | round-based/src/round/simple_store.rs:74-88 | The fresh store is the one the specification starts from |
| `SimpleStore.RoundInputCell.AddMessage` | round-based/src/round/simple_store.rs:139-175 | The in-place update of buffers and counter is the specified one; a rejected message changes nothing, and its type is at fault exactly when it is neither the expected one nor a reliable broadcast in a plain round; the counter counts the vacant slots, so it never underflows |
| `InputRound.RelabelledActsAsInput` | round-based/src/echo_broadcast/store.rs:281-309 | The echo round and plain wrapped rounds collect what the bare `RoundInput` collects |
| `InputRound.CollectedFromSender` | round-based/src/round/simple_store.rs:139-191 | In a round that ended well, the message in a party's slot was received from that party, in that round, with the id on record |
| `InputRound.InputRoundFails` | round-based/src/mpc/party/router.rs:208-272 | A round over `RoundInput`, bare or in a thin wrapper, fails only with an error of its store, as long as no message is misrouted to it |
| `InputRound.HonestRoundNeverFails` | round-based/src/round/simple_store.rs:139-191 | A round whose messages are acceptable and from different other parties does not fail, in whatever order they arrive |
| `InputRound.HonestRoundCompletes` | round-based/src/round/simple_store.rs:139-191 | Such a round completes once every other party's message has arrived |
| `InputRound.P2PRoundCompletes` | round-based/src/round/simple_store.rs:105-191 | A point-to-point round completes once the point-to-point message of each other party has arrived, in whatever order, and holds it |
| `Router.AloneIgnoresTheRest` | round-based/src/mpc/party/router.rs:63-79 | Once a round has ended, the rest of the stream changes nothing |
| `Router.EndedRoundIgnoresTheRest` | round-based/src/mpc/party/router.rs:76-79 | The same for the round's own messages |
| `Router.UnfinishedRoundIsItsBareStore` | round-based/src/mpc/party/router.rs:208-272 | A round in progress is its store, alone, after all its messages, each converted and accepted |
| `Router.FinishedRoundIsItsBareStore` | round-based/src/mpc/party/router.rs:208-272 | A round ends on the shortest prefix of its messages on which its store, alone, ends, with that store's output or the error of the last message |
| `Router.OnlyTheStoreFails` | round-based/src/mpc/party/router.rs:208-272 | With a lawful store, and no message that reaches the round and does not convert, a round fails only with an error of its store |
| `Router.LabelledErrors` | round-based/src/echo_broadcast/store.rs:311-395 | The error of a round over a thin wrapper is an error of the wrapped store under its label |
| `Router.BugExactly` | round-based/src/mpc/party/router.rs:212-217 | Without the conversion law, a round ends in an internal bug if and only if a message of its number that does not convert reaches it in progress |
| `Router.RoundsRouter.AddRound` | round-based/src/mpc/party/router.rs:36-51 | Registers the round, whose witness is live from then on, and touches no other round |
| `Router.RoundsRouter.ReceivedMsg` | round-based/src/mpc/party/router.rs:53-82 | Every round stays what its own subsequence of the messages routed makes of it; only a message of an unregistered round is an error, and changes nothing |
| `Router.RoundsRouter.ProcessMessage` | round-based/src/mpc/party/router.rs:233-272 | The state swap of one round is the specified step; the incoherent state is unreachable |
| `Router.RoundsRouter.CompleteRound` | round-based/src/mpc/party/router.rs:85-129 | Every outcome, whatever the witness, a foreign one being judged by its output and error types as the downcasts do; on a live witness, no bug is reported, the result is that of the round run alone, and it is taken once |
| `Router.MpcParty.Pull` | round-based/src/mpc/party/mod.rs:130-144 | One iteration of the loop keeps its invariant |
| `Router.MpcParty.Complete` | round-based/src/mpc/party/mod.rs:115-145 | Consumes exactly the shortest prefix of the stream that ends the round, none if it had ended; gives up only at the end of the stream or at the first message of an unregistered round |
| `Router.FinishedStaysFinished` | round-based/src/mpc/party/mod.rs:115-145 | The prefix on which a round ends is unique: more messages do not change its result |
| `Router.CompletesBeforeTheEnd` | round-based/src/mpc/party/mod.rs:115-145 | If the whole stream ends a round, `complete` returns that result |
| `Router.MpcParty.CompleteNext` | round-based/src/mpc/party/mod.rs:115-145 | Completing a round leaves the others everything they need |
| `Router.MpcParty.CompleteInOrder` | round-based/src/mpc/party/mod.rs:115-145 | Completing rounds one after the other over any interleaving gives each its standalone result |
| `EchoMessages.NumberingLifts` | round-based/src/echo_broadcast/mod.rs:152-200 | Wrapped conversions round-trip; main round `r` is numbered `2 * r`, its echo round `2 * r + 1`, and no two share a number, for all main rounds up to 32767 |
| `EchoMessages.WrappedExactness` | round-based/src/echo_broadcast/mod.rs:152-200 | The wrapped conversions succeed exactly on their own round, except for the messages of the one round that wraps onto it |
| `EchoMessages.EchoOfUnregisteredRoundIsMisrouted` | round-based/src/echo_broadcast/mod.rs:152-181 | An echo of round 32768 ends the echo round of round 0 with an internal bug |
| `EchoMessages.EchoBugExactly` | round-based/src/echo_broadcast/mod.rs:161-181 | An echo round ends in an internal bug if and only if an echo of the round 32768 higher reaches it in progress |
| `EchoMessages.MainBugExactly` | round-based/src/echo_broadcast/mod.rs:183-200 | The same for a main round and main messages |
| `EchoStore.WrappingIsLawful` | round-based/src/echo_broadcast/store.rs:73-147 | Over a lawful store the main round is lawful; `Gone` and `Finished` are never observable and their errors never raised |
| `EchoStore.WrapperIsTransparent` | round-based/src/echo_broadcast/store.rs:14-147 | The main round holds what the bare store holds on the same messages marked reliable, outputs what it outputs, from the start if the store does, and logs each sender's message in that sender's slot |
| `EchoStore.WrapperRejectsOverAnyStore` | round-based/src/echo_broadcast/store.rs:73-119 | Over any store, which message an ongoing main round rejects and with which error |
| `EchoStore.WrapperRejectsExactly` | round-based/src/echo_broadcast/store.rs:73-119 | Over `RoundInput`, wrapping adds one reason to reject: a second message in the local party's own name |
| `EchoStore.HashedVectorIsTheOutput` | round-based/src/echo_broadcast/store.rs:214-238 | The vector hashed after `with_my_msg` is `into_vec_including_me`, slot by slot |
| `EchoStore.MainRoundCell.constructor` | round-based/src/echo_broadcast/store.rs:14-35 | The fresh main round, whose store may have its output from the start |
| `EchoStore.MainRoundCell.AddMessage` | round-based/src/echo_broadcast/store.rs:73-119 | The in-place update of state and log is the specified one, error paths included |
| `EchoEngine.WithEchoBroadcast.AddRound` | round-based/src/echo_broadcast/mod.rs:252-277 | Registers a record for a reliable round, and keeps the outgoing discipline |
| `EchoEngine.WithEchoBroadcast.Send` | round-based/src/echo_broadcast/mod.rs:289-315 | A message is let through if and only if it is the first of a reliable round and a reliable broadcast, or neither of a reliable round nor a reliable broadcast; the former leaves for everyone without the flag and goes on record, the latter leaves for its own recipient; the reason of every refusal; nothing flagged reliable ever leaves, and at most one main message of a reliable round under way does |
| `EchoEngine.WithEchoBroadcast.CompleteReliable` | round-based/src/echo_broadcast/mod.rs:349-387 | Returns what the function behind the network's steps returns: the own slot hashed is the one message sent, the output is released if and only if all echoes equal the hash; every error path |
| `EchoNetwork.FinishingIsCompleting` | round-based/src/echo_broadcast/mod.rs:349-387 | The two steps by which an honest party of the network finishes the round return what completing the round returns, drop the record and send the echo |
| `EchoNetwork.SendStepExactly` | round-based/src/echo_broadcast/mod.rs:289-315 | What a sending step of the network records and posts, and which ones it refuses |
| `EchoNetwork.RoundsFailByTheirStores` | round-based/src/echo_broadcast/store.rs:73-147 | Over any lawful store, the main and the echo round fail only with an error of their store, the echo round with the label of echo errors, on every history free of wrap-around |
| `EchoNetwork.MainRoundErrors` | round-based/src/echo_broadcast/store.rs:73-119 | Over any lawful store, a failed main round is due to the wrapped store, to a sender out of range, or to a party that sent twice |
| `EchoNetwork.PlainRoundErrors` | round-based/src/echo_broadcast/store.rs:311-395 | A failed round that needs no reliable broadcast has the error of its store, labelled as an error of the main protocol |
| `EchoNetwork.OutputFromTheStart` | round-based/src/echo_broadcast/store.rs:14-35 | If the wrapped store has its output from the start, the main round has ended with it on every history |
| `EchoNetwork.InputRoundsFailByTheirStores` | round-based/src/echo_broadcast/store.rs:73-147 | The same over `RoundInput`, with no law left to assume |
| `EchoNetwork.MorePostsKeepParty` | round-based/src/echo_broadcast/mod.rs:349-387 | What is known of an honest party survives everything others send |
| `EchoNetwork.DeliverKeepsParty` | round-based/src/mpc/party/router.rs:53-82 | Whatever the adversary delivers keeps what is known of a party; rounds that have ended do not change |
| `EchoNetwork.FinishMainKeepsParty` | round-based/src/echo_broadcast/mod.rs:354-376 | Hashing and echoing keep what is known of a party |
| `EchoNetwork.FinishEchoKeepsParty` | round-based/src/echo_broadcast/mod.rs:377-387 | The echo check keeps what is known of a party |
| `EchoNetwork.StepIsLocal` | round-based/src/echo_broadcast/mod.rs:331-398 | A step changes only the party that takes it, and only that party sends |
| `EchoNetwork.StepKeepsInv` | round-based/src/echo_broadcast/mod.rs:331-398 | Every step of the network keeps the invariant |
| `EchoNetwork.InvHolds` | round-based/src/echo_broadcast/mod.rs:331-398 | The invariant holds in every run |
| `EchoNetwork.EchoWasSent` | round-based/src/echo_broadcast/store.rs:246-259 | An echo collected from an honest party was sent by it |
| `EchoNetwork.ExpectedHashWasSent` | round-based/src/echo_broadcast/store.rs:246-259 | Who gets its output has received, from each other honest party, the hash that party sent |
| `EchoNetwork.ReliableBroadcastAgreement` | round-based/src/echo_broadcast/mod.rs:349-387 | In every run, once one honest party returns Ok, every honest party has the same `n`-slot vector and has sent its hash |
| `EchoNetwork.ReliableBroadcastValidity` | round-based/src/echo_broadcast/mod.rs:359-369 | What an honest party has sent in the round before leaving it is what every honest party whose round later returns Ok holds for it |
| `EchoNetwork.VectorWasHashed` | round-based/src/echo_broadcast/mod.rs:359-369 | A vector is settled at the step by which its party leaves the main round, and never changes afterwards |
| `EchoNetwork.SlotHoldsExactlyWhatWasSent` | round-based/src/echo_broadcast/mod.rs:359-369 | In the agreed vector, an honest party's slot holds a message of the round if and only if that party had sent it by the step at which it left the main round |
| `EchoNetwork.CommitmentStays` | round-based/src/echo_broadcast/mod.rs:289-315 | In every run, what a party has on record stays on record until it leaves the main round, and in its slot afterwards |
| `EchoNetwork.ReleasedOutputIsTheBareStores` | round-based/src/echo_broadcast/mod.rs:331-389 | In every run, the output of a reliable round is what the bare store outputs on the first messages of the round received, marked reliable, and on these it wants no more |
| `EchoNetwork.OwnSlotIsTheRecord` | round-based/src/echo_broadcast/mod.rs:359-369 | Leaving the main round fails or puts the record into the own slot |
| `EchoNetwork.OwnSlotIsWhatWasSent` | round-based/src/echo_broadcast/mod.rs:359-369 | In every run, the own slot hashed holds a message of the round if and only if the party sent it |
| `EchoNetwork.OutputIsTheVector` | round-based/src/echo_broadcast/store.rs:214-259 | Over `RoundInput`, the output released is the vector echoed, message by message |
| `EchoNetwork.ReleasedMessageWasReceived` | round-based/src/echo_broadcast/mod.rs:331-389 | In every run, the message a reliable round's output holds of a party was received from that party in the main round, with the id on record |
| `EchoNetwork.SameMessageOfEveryParty` | round-based/src/echo_broadcast/mod.rs:349-387 | Two honest parties that return Ok hold the same message of every third party |
| `EchoHonest.HonestMainCompletes` | round-based/src/echo_broadcast/store.rs:73-147 | The main round completes once one message of each other party has arrived |
| `EchoHonest.SameVectors` | round-based/src/echo_broadcast/store.rs:214-238 | Among honest parties that do not send again in the round after leaving it, all vectors coincide |
| `EchoHonest.MainsSuffice` | round-based/src/echo_broadcast/mod.rs:354-376 | Once every other party's main message has been delivered, a party can leave the main round, with a vector and an echo |
| `EchoHonest.HonestRoundSucceeds` | round-based/src/echo_broadcast/mod.rs:377-387 | In every run among honest parties, a party that has collected an echo of every other one gets its output |
| `EchoHonest.EchoesSuffice` | round-based/src/echo_broadcast/mod.rs:377-387 | Once every other party's echo has been delivered, a party can leave the echo round, and gets its output |
| `BeaconCheck.XorAllInsert` | examples/random-generation-protocol/src/lib.rs:114-117 | Where a string stands in the sum does not matter |
| `BeaconCheck.MixedAllParties` | examples/random-generation-protocol/src/lib.rs:99-118 | Mixing in the order of the loop is summing over all parties, the local one included |
| `BeaconCheck.XorAllIsSum` | examples/random-generation-protocol/src/lib.rs:114-117 | A bit of the sum is set if and only if it is set in an odd number of strings |
| `BeaconCheck.SumIsXorAll` | examples/random-generation-protocol/src/lib.rs:114-117 | There is only one such string |
| `BeaconCheck.SumDetermines` | examples/random-generation-protocol/src/lib.rs:114-117 | The sum and all strings but one determine that one |
| `BeaconCheck.EveryStringCounts` | examples/random-generation-protocol/src/lib.rs:114-117 | No string can be replaced by another without changing the sum |
| `BeaconCheck.AnySumIsOpen` | examples/random-generation-protocol/src/lib.rs:114-117 | Whatever the other strings are, each string can bring about any sum |
| `BeaconCheck.XorInto` | examples/random-generation-protocol/src/lib.rs:114-117 | The loop over bytes flips exactly the bits that are set in the other string |
| `BeaconCheck.Verify` | examples/random-generation-protocol/src/lib.rs:98-124 | Iterating over the indexed views, the blame list is exactly the mismatching parties in ascending order, with their message ids; randomness comes out if and only if it is empty, and then each of its bits is set if and only if it is set in an odd number of the parties' strings |
| `Beacon.DoKeepsInv` | examples/random-generation-protocol/src/lib.rs:65-124 | Every beacon step keeps the invariant that ties each party's progress to the network underneath |
| `Beacon.BeaconInvHolds` | examples/random-generation-protocol/src/lib.rs:65-124 | The invariant holds in every run |
| `Beacon.OpeningWasReceived` | examples/random-generation-protocol/src/lib.rs:96-96 | Openings are taken from messages the party received, each from its sender |
| `Beacon.SameRoundAlways` | examples/random-generation-protocol/src/lib.rs:100-103 | The two rounds that are zipped have the same local party and the same number of messages |
| `Beacon.StringsOpenTheVector` | examples/random-generation-protocol/src/lib.rs:98-118 | Each string a successful party mixes opens the commitment in the vector it echoed |
| `Beacon.BeaconAgreement` | examples/random-generation-protocol/src/lib.rs:65-124 | In every run, two honest parties that both obtain randomness obtain the same; each bit of it is the parity of that bit over one string of every party, the string of an honest party is the one it drew, and every string counts |
| `Beacon.HonestUtterancesHold` | examples/random-generation-protocol/src/lib.rs:76-93 | In every run, honest parties say nothing but their commitment and their opening |
| `Beacon.HonestCommitment` | examples/random-generation-protocol/src/lib.rs:79-84 | The commitment that an honest party is heard with is its own |
| `Beacon.HonestOpening` | examples/random-generation-protocol/src/lib.rs:89-96 | The opening that an honest party is heard with is its own |
| `Beacon.HonestPartiesAreNeverBlamed` | examples/random-generation-protocol/src/lib.rs:98-124 | In every run, whatever the other parties and the network do, no honest party is blamed by an honest party |
| `Beacon.HonestBeaconSucceeds` | examples/random-generation-protocol/src/lib.rs:98-124 | Among honest parties, every party that concludes obtains randomness |
| `BeaconFairness.SaidHolds` | examples/random-generation-protocol/src/lib.rs:76-93 | In every run, who has committed or opened has sent its commitment or opening, and nobody opens before its reliable round has returned Ok |
| `BeaconFairness.CommitAndOpenArePosted` | examples/random-generation-protocol/src/lib.rs:79-93 | Committing and opening are never refused: the message has been sent afterwards |
| `BeaconFairness.NothingIsOpenedBeforeAllIsSettled` | examples/random-generation-protocol/src/lib.rs:79-93 | In every run, once an honest party has opened its string, all honest parties have settled on the same vector with a commitment of every party |
| `BeaconFairness.VectorsStay` | examples/random-generation-protocol/src/lib.rs:84-84 | What they have settled on stays as it is, whatever happens next |
| `BeaconFairness.OpeningFixesTheRandomness` | examples/random-generation-protocol/src/lib.rs:65-124 | Once an honest party has opened its string, any two continuations of the run give whoever obtains randomness in either of them the same randomness |
| `BeaconFairness.BlameIsEvidence` | examples/random-generation-protocol/src/lib.rs:98-112 | In every run, a blame names, by sender and id, a commitment and an opening that the blaming party received and that contradict each other |
| `BeaconHonest.CommitmentsSuffice` | examples/random-generation-protocol/src/lib.rs:79-84 | Once every other party's commitment has been delivered, a party goes on to its echo round |
| `BeaconHonest.CommitmentEchoesSuffice` | examples/random-generation-protocol/src/lib.rs:84-84 | Among honest parties, once every other party's echo has been delivered, a party has everyone's commitments |
| `BeaconHonest.OpeningsSuffice` | examples/random-generation-protocol/src/lib.rs:96-124 | Whoever the other parties are, once their openings have been delivered, a party that has opened its string can conclude |
| `BeaconHonest.HonestOpeningsSuffice` | examples/random-generation-protocol/src/lib.rs:96-124 | Among honest parties, it concludes with randomness |
| `Mailboxes.OneCallKeeps` | round-based/src/state_machine/shared_state.rs:38-104 | Every call of either side keeps the mailbox invariant |
| `Mailboxes.MailboxIsFifo` | round-based/src/state_machine/shared_state.rs:38-169 | Over all call sequences: at most one request, a send request with a full slot, a receive request with an empty one, and nothing lost, duplicated or reordered in either direction |
| `Mailboxes.SharedState.ProtocolFlushes` | round-based/src/state_machine/delivery.rs:32-55 | `poll_ready` and `poll_flush` do what the mailbox function says |
| `Mailboxes.SharedState.ProtocolSavesMsg` | round-based/src/state_machine/shared_state.rs:56-66 | `start_send` does what the mailbox function says |
| `Mailboxes.SharedState.ProtocolNeedsOneMoreMsg` | round-based/src/state_machine/delivery.rs:17-26 | `poll_next` does what the mailbox function says |
| `Mailboxes.SharedState.ProtocolYields` | round-based/src/state_machine/runtime.rs:33-45 | The first poll of a yield does what the mailbox function says |
| `Mailboxes.SharedState.ExecutorTakesOutgoingMsg` | round-based/src/state_machine/shared_state.rs:69-78 | Taking the outgoing message does what the mailbox function says |
| `Mailboxes.SharedState.ExecutorReadsAndResetsYieldedFlag` | round-based/src/state_machine/shared_state.rs:88-93 | Reading the flag does what the mailbox function says |
| `Mailboxes.SharedState.ExecutorReceivedMsg` | round-based/src/state_machine/shared_state.rs:96-104 | Saving a received message does what the mailbox function says |
| `StateMachine.PollFollows` | round-based/src/state_machine/delivery.rs:14-63 | A poll follows direct execution and leaves exactly one request pending, or an output |
| `StateMachine.ProceedFollows` | round-based/src/state_machine/mod.rs:186-224 | One `proceed` goes on as direct execution would; it never polls an unknown future |
| `StateMachine.ReceivedFollows` | round-based/src/state_machine/mod.rs:226-228 | Giving a message keeps step with direct execution on the longer input |
| `StateMachine.MachineRefinesDirectRun` | round-based/src/state_machine/mod.rs:186-228 | However it is driven, the machine stands where direct execution stands: same messages sent in order, same inputs consumed, same output; a message is in the slot only if it was not flushed, and once the program has returned, if and only if; the only error is proceeding after the end, and nothing else follows an output |
| `StateMachine.FedAndNeverEmitted` | round-based/src/mpc/party/mod.rs:176-178 | A message fed and not flushed by a program that then returns is sent by direct execution and never emitted, however the machine is driven |
| `StateMachine.DirectRunStops` | round-based/src/state_machine/mod.rs:186-224 | A direct run that has returned cannot be continued, so its length is determined |
| `StateMachine.RunToCompletion` | round-based/src/state_machine/mod.rs:45-59 | If direct execution on the inputs returns, the documented loop ends with the same output, the same inputs consumed and the same messages sent; the last one stays behind if and only if it was fed and never flushed |
| `StateMachine.StateMachineImpl.PollFuture` | round-based/src/state_machine/mod.rs:190-198 | Polling step by step over the shared state is the specified poll; the sink is never found not ready |
| `StateMachine.StateMachineImpl.ProceedOnce` | round-based/src/state_machine/mod.rs:186-224 | Consumes the requests in the order of the source |
| `Simulation.TurnDelivers` | round-based/src/sim/mod.rs:332-373 | Every iteration, of any machines, keeps delivery exact |
| `Simulation.MailIsWhatWasSent` | round-based/src/sim/mod.rs:419-458 | A party's mail is exactly the broadcasts of others and the messages addressed to it, with sender, type and body, in the order they were sent, once |
| `Simulation.IdsIncrease` | round-based/src/sim/mod.rs:419-458 | Ids grow strictly along each recipient's mail |
| `Simulation.IdsAreUnique` | round-based/src/sim/mod.rs:419-458 | No id is used twice in the whole simulation |
| `Simulation.EveryRunDelivers` | round-based/src/sim/mod.rs:326-375 | At every point of every run, for each recipient, received followed by queued is what it is owed, message by message, with ids unique and increasing |
| `Simulation.MessagesQueue.SendMessage` | round-based/src/sim/mod.rs:419-458 | A point-to-point message goes to the end of its recipient's queue alone, with its type; a broadcast to the end of every queue but the sender's, with its flag and ids in order; an unknown recipient is an error that uses up an id and leaves the queues alone |
| `Simulation.MessagesQueue.RecvNextMsg` | round-based/src/sim/mod.rs:460-462 | Takes the first message of the recipient's queue and leaves the others alone |
| `Simulation.Simulator.Iterate` | round-based/src/sim/mod.rs:332-373 | One iteration of the inner loop is the specified turn, errors included; the counter of parties left is exact |
| `Simulation.Simulator.Resume` | round-based/src/sim/mod.rs:352-372 | A party that has proceeded has finished if it returned an output, waits if it asked for a message, and otherwise goes on at once, having yielded or with its message posted; every error |
| `Simulation.Simulator.Pass` | round-based/src/sim/mod.rs:331-374 | Given an argument for progress, one pass over the parties ends and makes progress |
| `Simulation.Simulator.Run` | round-based/src/sim/mod.rs:326-388 | Given an argument for progress, the simulation ends, with every party's output or with the error of a reachable state |
| `PartyRuns.EveryPartyFollowsItsMachine` | round-based/src/sim/mod.rs:326-375 | At every point of every run of any machines, a party is its initial machine after its own `proceed` and `received_msg` calls, made as documented; it has sent and received what these calls say, waits if and only if its last `proceed` asked for a message, and has finished if and only if it returned an output |
| `PartyRuns.FailsByItsParty` | round-based/src/sim/mod.rs:346-371 | A turn fails exactly when its party refuses a message it asked for, fails to proceed, or sends to a party that does not exist, and with that error |
| `RoundsProtocol.CompletesAsTheLoopDoes` | round-based/src/mpc/party/mod.rs:115-145 | The program simulated consumes what `complete` consumes on any stream and goes on as its result says |
| `RoundsProtocol.RoundNeverFails` | round-based/src/round/simple_store.rs:139-175 | No round fails when every other party follows the protocol |
| `RoundsProtocol.RoundCompletes` | round-based/src/mpc/party/router.rs:53-82 | A round completes once every other party's message of it has arrived, whatever arrived before or in between |
| `RoundsProtocol.RoundHoldsTheScript` | round-based/src/round/simple_store.rs:181-191 | A completed round holds what every other party has said in it |
| `RoundsSimulation.MailInScript` | round-based/src/sim/mod.rs:419-458 | A party's mail is, for each sender, what that sender has said so far, given what it had received |
| `RoundsSimulation.ScriptStays` | round-based/src/mpc/party/router.rs:63-79 | What a party has said, which may depend on the outcomes of its rounds before, does not depend on what it receives afterwards |
| `RoundsSimulation.NeverStuck` | round-based/src/sim/mod.rs:341-350 | Never do all active parties wait on empty queues |
| `RoundsSimulation.TurnKeeps` | round-based/src/sim/mod.rs:332-373 | Every move keeps the invariant, does not fail, and lowers the rank |
| `RoundsSimulation.NoScheduleFails` | round-based/src/sim/mod.rs:326-375 | Whatever the order of turns, no turn fails and some active party can move |
| `RoundsSimulation.BoundedMoves` | round-based/src/sim/mod.rs:326-375 | Whatever the order of turns, `n` parties make at most `n * (k * (n + 2) + 2)` moves over `k` rounds besides the number of times they yield |
| `RoundsSimulation.RoundsProgress` | round-based/src/sim/mod.rs:326-375 | The argument for progress that the simulator's loops need |
| `RoundsSimulation.SimulateRounds` | round-based/src/sim/mod.rs:326-388 | For every number of rounds, parties whose messages depend on the outcomes of their rounds before and that yield any number of times in between: the simulation ends without an error, every party has completed every round, and holds of every other party what that one had to say, given its own outcomes |

## Left out

- The simulator over asynchronous channels (`round-based/src/sim/async_env.rs`): it rests on a runtime that is not part of this model.
- The derive macro: only the conversion law that it is meant to establish is used, as a hypothesis.
- Hash functions, serialization and random number generation: hashes are arbitrary functions, drawn randomness is an arbitrary input.
- I/O errors: a stream ends or yields messages; sending never fails.
- The lookup of store properties: whether a round requires reliable broadcast is a boolean.
- Message ids are unbounded numbers; the source counts them in 64 bits.
- `Simulation`: at most 65535 parties, since party indices are 16 bits wide; parties added beyond that are not modelled.
- `SimpleStore.ViewsOfParty`: the overflow of the open-ended index range in the indexed views, which a build with overflow checks may report for 65535 parties, is not modelled.
- `EchoMessages.WrappedExactness`: models wrap-around on overflow, as a build without overflow checks has it; a build with them panics on the same messages.
- `EchoNetwork.ReliableBroadcastAgreement`: follows one reliable round at a time; what an honest party does in its other rounds is any sequence of sends and echoes, so nothing is assumed of it. It speaks of messages, not of their ids, which the hash does not cover.
- `Router.MpcParty.CompleteInOrder`: all stores of one router have the same Dafny type, since the heterogeneous boxes of the source are not a Dafny type; what a downcast compares are identities of output and error types.
- `Beacon.BeaconAgreement`: a party whose round of openings fails never concludes, instead of returning that error.
- `StateMachine.Program`: a program that flushes for ever without sending, receiving or yielding is excluded, as one poll of it need not return.
- `RoundsSimulation.SimulateRounds`: the parties simulated state what the `complete` loop does as a program; `RoundsProtocol.CompletesAsTheLoopDoes` ties the two.
- `Halves`, default send helpers, mapping functions of messages, `Debug` and error texts, and the comparison helpers of simulation results: they would only add easy members.
