# Verification model of the distbench protocols

This project models the distributed algorithms of distbench and the machinery they run on, and
proves what the protocols keep in every run and what they have achieved when nothing is left to
deliver.

How the models are built:

- A process is a class whose fields are the dictionaries of the program at one message id (every
  handler touches them only at the id of its message). Each handler is a method whose
  postcondition equates the new state and everything sent with a step function of the old state.
- A system is a state machine over those step functions: the states of all processes, a bag of
  undelivered messages, and histories. A run is any sequence of steps from the start; messages
  are delivered in any order. A handler that waits in the middle is cut there: its rest is a
  message to itself, so all interleavings at waiting points are covered.
- "At rest" means that nothing sent to a process that accepts messages is undelivered.
- Where the program waits for two things at once and drops one of them, as the Rust connection task
  does with a reply it has begun to read, what is dropped is part of the model.
- Bracha runs over reliable authenticated links between correct processes. The Byzantine model of
  the plain versions lets a faulty process send anything under its own name; the optimized
  version is modelled with processes that may lose what is sent to them.

| file | models |
|---|---|
| `Base`, `Ordering`, `Bags`, `Topology` | ids and their order, circular committees, weights of bags, walks and disjoint paths |
| `BrachaRecord`, `Bracha`, `BrachaByzantine`, `BrachaGuarantees`, `BrachaTermination`, `BrachaTotalityExact` | `bracha_basic.py` and `bracha.py` |
| `BrachaOptimized`, `BrachaOptimizedRun`, `BrachaOptimizedGrounds`, `BrachaOptimizedTotality`, `BrachaOptimizedTermination`, `BrachaOptimizedExact` | `bracha_optimized.py` |
| `DolevNaive`, `DolevFlood`, `DolevExactness`, `DolevDelivery`, `DolevIntegrity`, `DolevSureDelivery`, `DolevFloodStarvation` | `dolev_naive.py` |
| `DisjointSearch`, `Dolev`, `DolevEvidence`, `DolevSpread`, `DolevRelays`, `DolevVerdict`, `DolevTermination`, `DolevCutoff`, `DolevFirstHand`, `DolevStarvation`, `DolevZeroBudget` | the two disjoint-path tests, `dolev.py` |
| `ChangRoberts`, `RingElection` | `chang_roberts.py`, `chang_roberts.rs` |
| `Framing`, `RequestMux`, `RequestWire`, `RequestExact` | framing of both TCP transports, request ids of the Rust one on whole frames and on bytes |
| `Lifecycle`, `LifecycleComplete` | the startup and shutdown barrier of `node.py` and `community.py` |

## Where the code differs from what is said about it

- The thresholds are the textbook ones but no process counts its own READY, and `bracha_basic.py`
  does not count its own ECHO. Totality therefore needs N >= 3f+2 (below that it fails, except that
  with N <= 2f+1 nobody ever delivers: `BrachaTotalityExact.TotalityExact`), and validity needs
  N >= 3f+3 (`bracha_basic.py`) or 3f+2 (`bracha.py`); both validity bounds are exact
  (`ValidityExact`). In the optimized version f = 0 never delivers everywhere
  (`FaultFreeExact`).
- `bracha.py` adds its own ECHO without testing the threshold again, so a process can hold a full
  tally and not send READY. With a correct sender and enough processes at most one is left so at
  rest (`BrachaGuarantees.OneStallAtMost`), which is why its bound is still one better.
- In `bracha_optimized.py` turning reduced messages off frees only the answer to SEND from the
  committee; the sender's own ECHO, both amplifications and READY stay bound to it. With f
  members of the READY committee gone the rest cannot deliver (`MembersStarve`);
  `BrachaOptimizedExact.TotalityExact` gives all losses that are tolerated.
- `dolev_naive.py` never delivers a message id nobody broadcast, but with f liars, f >= 1, it can
  attribute a real one to the wrong correct source; with fewer, or none, it cannot
  (`AttributionExact`).
- Greedy acceptance depends on the order of arrival (`GreedyIsIncomplete`), so f+1 disjoint paths
  among correct processes make a naive flood deliver for no f >= 1 (`CorrectProcessStarves`); what does is
  that every maximal family of disjoint paths is large enough (`DolevSureDelivery`). The greedy
  search refines connectivity only on paths of the shape an honest flood records
  (`ShapeIsNeeded`).
- `dolev.py` sends EMPTY when the connectivity test fails, too, and processes that hear it stop
  relaying to the sender. A process whose first path comes early is cut off by its own EMPTY
  (`CutOffForGood`), so with f >= 1 the only processes sure to deliver are those the source sends
  to first hand, whatever the topology (`DolevFirstHand.SureDeliveryExactly`): f+1 disjoint paths
  among honest processes suffice for no such f (`HonestProcessStarves`). With f = 0 any trail of
  participating processes is enough (`DolevZeroBudget.SureDeliveryExactly`). The MD4 test never applies to an
  honest message (`DetourRuleIsIdle`), since it looks for the sender on the path before the sender
  is added to it.
- In `dolev.py` `broadcast_message` is reached from the spoofing mode only, so a source that
  delivers to itself or sends to half of its neighbours never occurs as the code stands
  (distbench-py/distbench/algorithms/dolev.py:77-101, 200-237). The model allows both; the results
  about failing deliveries use neither.
- A relaying loop of `dolev.py` that begins before anybody was noted looks at a set of its own and
  never sees who is noted later (`UnnotedLoopReachesAll`); otherwise it does (`NotedBeforeItsTurn`).
- Outside single-hop mode `bracha_optimized.py` can broadcast ECHO twice, never more
  (`SendEchoesExactly`, `RunIsGrounded`).
- The Rust connection task drops a reply it has begun to read when something is to be sent
  (distbench-rs/lib/core/src/transport/tcp.rs:374-385). The next read then begins inside a frame: a
  send can complete with bytes the server never gave it, and another never completes
  (`CutReadMisdelivers`). Once everything is delivered, every send has its own answer in exactly the
  runs in which nothing was sent while a frame was partly read (`AnsweredExactly`). That no send
  completes twice holds in every run (`CompletesAtMostOnce`).
- The Python transport takes a call of length 0xFFFFFFFF for a cast; the Rust one truncates a
  length of more than 32 bits silently. Both are excluded exactly by the framing lemmas.
- A node can run `on_exit` without having broadcast FINISHED: this happens exactly if the last
  FINISHED of its peers is handled after its own stop and before its monitor wakes
  (`ExitIsAnnouncedExactly`, `SilentExitHappens`). All other nodes then wait for ever
  (`SilentExitStrands`). A stop that comes while `on_start` still runs wakes nobody
  (`StopDuringStartIsLost`, `StopDuringStartHappens`).

## Model

| member | source | states |
|---|---|---|
| `Ordering.SortedUnique` | `distbench-py/distbench/algorithms/bracha_optimized.py:87-88` | a set of ids has one ascending listing, so every process that knows the same ids computes the same order |
| `Ordering.CircularIsRotationPrefix` | `distbench-py/distbench/algorithms/bracha_optimized.py:96-99` | walking `count` places round from the sender visits exactly the first `count` ids of the rotation that starts after it |
| `Ordering.CommitteeSize` | `distbench-py/distbench/algorithms/bracha_optimized.py:79-100` | for count <= N the committee has exactly `count` members, all in the membership, and contains the sender only when it contains everybody |
| `Ordering.CommitteeExactly` | `distbench-py/distbench/algorithms/bracha_optimized.py:79-100` | a process is on the committee of `count` iff it is in the membership and fewer than `count` ids lie between the sender's and its own, going up and round |
| `BrachaOptimized.EligibleExactly` | `distbench-py/distbench/algorithms/bracha_optimized.py:102-124` | a process may echo iff the ids between the sender's and its own are fewer than (N+f+1)/2 + f, rounded up, and may send READY iff they are fewer than 3f+1 |
| `BrachaOptimized.BrachaOptimizedSlot.InitState` | `distbench-py/distbench/algorithms/bracha_optimized.py:71-77` | empty tallies and no flag set |
| `BrachaOptimized.BrachaOptimizedSlot.CalculateEligibleNodes` | `distbench-py/distbench/algorithms/bracha_optimized.py:79-100` | the loop yields exactly the `count` ids that come next after the sender's, going up and round; nobody for an unknown sender |
| `BrachaOptimized.BrachaOptimizedSlot.ShouldGenerateEcho` | `distbench-py/distbench/algorithms/bracha_optimized.py:102-112` | true iff fewer than ceil((N+f+1)/2) + f ids lie between the sender's and the own one, going up and round |
| `BrachaOptimized.BrachaOptimizedSlot.ShouldGenerateReady` | `distbench-py/distbench/algorithms/bracha_optimized.py:114-124` | true iff fewer than 3f+1 ids lie between the sender's and the own one, going up and round |
| `BrachaOptimized.BrachaOptimizedSlot.OnStart` | `distbench-py/distbench/algorithms/bracha_optimized.py:200-205` | new state and ECHO of the initiator: it echoes only if on its own committee |
| `BrachaOptimized.BrachaOptimizedSlot.OnSend` | `distbench-py/distbench/algorithms/bracha_optimized.py:250-272` | new state and broadcast for SEND: forced ECHO in single-hop mode, committee rule otherwise |
| `BrachaOptimized.BrachaOptimizedSlot.OnEcho` | `distbench-py/distbench/algorithms/bracha_optimized.py:274-302` | new state, broadcast and suspended rest for ECHO, with amplification at f+1 |
| `BrachaOptimized.BrachaOptimizedSlot.OnEchoTail` | `distbench-py/distbench/algorithms/bracha_optimized.py:295-302` | READY at the ECHO quorum, if eligible and not yet sent |
| `BrachaOptimized.BrachaOptimizedSlot.OnReady` | `distbench-py/distbench/algorithms/bracha_optimized.py:304-347` | new state, broadcast, suspended rest and upcall for READY, with the silent-echo rule |
| `BrachaOptimized.BrachaOptimizedSlot.OnReadyTail` | `distbench-py/distbench/algorithms/bracha_optimized.py:342-347` | upcall at 2f+1 READYs, once |
| `BrachaOptimized.SendEchoesExactly` | `distbench-py/distbench/algorithms/bracha_optimized.py:250-272` | when a SEND is answered by an ECHO, for every flag combination: outside single-hop mode also by one that has echoed before |
| `BrachaOptimized.EchoAnswersExactly` | `distbench-py/distbench/algorithms/bracha_optimized.py:274-302` | an ECHO is answered by an ECHO iff amplification is on, f+1 ECHOs are held, none was sent and the process is eligible, and otherwise by READY iff twice the ECHOs held is at least N+f+1, none was sent and it is eligible |
| `BrachaOptimized.EchoTailSendsReadyExactly` | `distbench-py/distbench/algorithms/bracha_optimized.py:295-302` | after an own ECHO: READY iff twice the ECHOs then held is at least N+f+1, none was sent and the process is eligible |
| `BrachaOptimized.ReadyAnswersExactly` | `distbench-py/distbench/algorithms/bracha_optimized.py:304-347` | a READY is answered by READY iff f+1 READYs are held, otherwise by the silent-echo rule, which counts the ECHO as sent even where it is not broadcast; the upcall comes iff 2f+1 are held, at once or after the answer |
| `BrachaOptimizedRun.RunKeepsInv` | `distbench-py/distbench/algorithms/bracha_optimized.py:250-347` | in every state of every run, with handlers interleaved at their waiting points: tallies only hold what was sent, everything sent is tallied or on its way to processes that lose nothing, and each threshold rule has fired, is suspended or is not due |
| `BrachaOptimizedGrounds.RunIsGrounded` | `distbench-py/distbench/algorithms/bracha_optimized.py:182-347` | in every state of every run: READY was sent only by those that hold f+1 READYs or ECHOs numbering at least (N+f+1)/2, delivery happened only at 2f+1 READYs, every ECHO was prompted by initiating, by SEND or by an amplification rule that is on, and nobody broadcast it more than twice, or once in single-hop mode |
| `BrachaOptimizedTotality.CommitteeSoundness` | `distbench-py/distbench/algorithms/bracha_optimized.py:48-49` | in numbers: after the loss of any f members twice the ECHO committee still is at least N+f+1 and the READY committee still has 2f+1; the sender is on its own ECHO committee iff N <= 3f+2 |
| `BrachaOptimizedTotality.AtMostOnce` | `distbench-py/distbench/algorithms/bracha_optimized.py:295-347` | READY at most once and at most one upcall, with the sender's payload, for every interleaving |
| `BrachaOptimizedTotality.AmplifiedReady` | `distbench-py/distbench/algorithms/bracha_optimized.py:315-340` | at rest, once f+1 processes have sent READY every reliable committee member has |
| `BrachaOptimizedTotality.ManyReadies` | `distbench-py/distbench/algorithms/bracha_optimized.py:337-347` | at rest, with fewer than f lossy members of the READY committee, f+1 READY senders lead to delivery at every reliable process |
| `BrachaOptimizedTotality.NoReadiesSingleHop` | `distbench-py/distbench/algorithms/bracha_optimized.py:274-293` | without any READY, f+1 first echoers spread the ECHO through the whole committee |
| `BrachaOptimizedTotality.FewReadiesAllEcho` | `distbench-py/distbench/algorithms/bracha_optimized.py:319-335` | with at most f READY senders the silent-echo rule has suppressed no committee member's ECHO |
| `BrachaOptimizedTotality.QuorumReady` | `distbench-py/distbench/algorithms/bracha_optimized.py:295-300` | ... and then, with fewer than f lossy members of the ECHO committee, every reliable member of the READY committee reaches the ECHO quorum |
| `BrachaOptimizedTotality.FewReadiesImpossible` | `distbench-py/distbench/algorithms/bracha_optimized.py:295-340` | so, with fewer than f lossy members on either committee, at rest at least f+1 processes have sent READY |
| `BrachaOptimizedTotality.Totality` | `distbench-py/distbench/algorithms/bracha_optimized.py:182-347` | for every legal flag combination, fewer than f lossy processes on either committee, any number elsewhere and, in single-hop mode, f+1 reliable first echoers: at rest every reliable process has delivered the sender's payload exactly once |
| `BrachaOptimizedTotality.MemberNeedsTwoMore` | `distbench-py/distbench/algorithms/bracha_optimized.py:310-346` | no READY-committee member ever delivers before 2f+2 members have sent READY; only members ever send it |
| `BrachaOptimizedTotality.FaultFreeExact` | `distbench-py/distbench/algorithms/bracha_optimized.py:182-347` | without losses everybody delivers at rest iff f >= 1 and, in single-hop mode, f+1 processes echo on their own account |
| `BrachaOptimizedTermination.BroadcastTerminates` | `distbench-py/distbench/algorithms/bracha_optimized.py:250-347` | every run, with any losses, is finite: at most n(3n+4)+1 steps among n processes |
| `BrachaOptimizedExact.RunKeepsReasons` | `distbench-py/distbench/algorithms/bracha_optimized.py:250-347` | in every state of every run: only entitled processes echo, an ECHO of one that is not a first echoer rests on f+1 of those, a READY rests on a quorum of broadcast ECHOs, and two committee members left with an untested full tally have not heard each other |
| `BrachaOptimizedExact.QuorumOfEchos` | `distbench-py/distbench/algorithms/bracha_optimized.py:182-335` | at rest a quorum of ECHOs has been broadcast, whatever the silent-echo rule suppressed, if the reliable processes that are to echo make up a quorum |
| `BrachaOptimizedExact.QuorumSpreads` | `distbench-py/distbench/algorithms/bracha_optimized.py:295-340` | at rest a quorum of broadcast ECHOs leads to f+1 READYs |
| `BrachaOptimizedExact.Totality` | `distbench-py/distbench/algorithms/bracha_optimized.py:182-347` | every run at rest has delivered the payload at every reliable process, if the losses are as `TotalityExact` says |
| `BrachaOptimizedExact.MembersStarve` | `distbench-py/distbench/algorithms/bracha_optimized.py:310-346` | with f or more lossy members of the READY committee, a run at rest in which no surviving member has delivered |
| `BrachaOptimizedExact.TotalityExact` | `distbench-py/distbench/algorithms/bracha_optimized.py:48-347` | for every legal flag combination, topology and set of lossy processes: all reliable processes deliver in every run at rest iff fewer than f members of the READY committee are lossy, the reliable processes that are to echo make up a quorum and, in single-hop mode, f+1 reliable processes echo on their own account |
| `Bracha.BrachaSlot.InitState` | `distbench-py/distbench/algorithms/bracha_basic.py:38-44` | empty tallies and no flag set |
| `Bracha.BrachaSlot.MarkEcho` | `distbench-py/distbench/algorithms/bracha.py:158-160` | the flags set before an ECHO, and the own ECHO counted or not |
| `Bracha.BrachaSlot.OnStart` | `distbench-py/distbench/algorithms/bracha.py:98-102` | new state and ECHO of the initiator |
| `Bracha.BrachaSlot.OnSend` | `distbench-py/distbench/algorithms/bracha_basic.py:69-77` | ECHO for the first SEND only |
| `Bracha.BrachaSlot.OnEcho` | `distbench-py/distbench/algorithms/bracha_basic.py:80-87` | READY at the ECHO quorum, once |
| `Bracha.BrachaSlot.OnReady` | `distbench-py/distbench/algorithms/bracha_basic.py:90-101` | READY at f+1 READYs, the suspended rest, and the upcall at 2f+1 |
| `Bracha.BrachaSlot.OnReadyTail` | `distbench-py/distbench/algorithms/bracha_basic.py:99-101` | upcall at 2f+1 READYs, once |
| `Bracha.EchoAnswersExactly` | `distbench-py/distbench/algorithms/bracha_basic.py:69-87` | only the first SEND is echoed, and an ECHO is answered by READY iff none was sent and twice the ECHOs then held is at least N+f+1 |
| `Bracha.ReadyAnswersExactly` | `distbench-py/distbench/algorithms/bracha_basic.py:89-101` | a READY is answered by READY iff none was sent and f+1 are held; the upcall comes once, iff 2f+1 are held, at once or after the answer |
| `BrachaByzantine.RunKeepsInv` | `distbench-py/distbench/algorithms/bracha_basic.py:46-101` | in every state of every run with up to f Byzantine processes: authenticated tallies, reliable links, thresholds fired or suspended, causes of every ECHO and READY, and at most one process stalled by an uncounted test |
| `BrachaGuarantees.AtMostOnce` | `distbench-py/distbench/algorithms/bracha_basic.py:69-101` | a correct process broadcasts ECHO and READY and hands up at most once each |
| `BrachaGuarantees.EchoQuorumUnique` | `distbench-py/distbench/algorithms/bracha_basic.py:34-77` | for one message id at most one payload is ever echoed by so many processes that twice their number is at least N+f+1 |
| `BrachaGuarantees.NoReadyFromNothing` | `distbench-py/distbench/algorithms/bracha_basic.py:69-101` | behind every READY or delivery of a correct process stand correct echoers, at least the quorum minus the faulty, each prompted by a SEND or an initiator |
| `BrachaGuarantees.ReadySpreads` | `distbench-py/distbench/algorithms/bracha_basic.py:95-97` | at rest, f+1 correct READY senders make all correct processes READY senders |
| `BrachaGuarantees.AllReadyDeliver` | `distbench-py/distbench/algorithms/bracha_basic.py:99-101` | if all correct processes sent READY and N >= 3f+2, all deliver |
| `BrachaGuarantees.DeliveredStays` | `distbench-py/distbench/algorithms/bracha_basic.py:99-101` | a delivery is permanent |
| `BrachaGuarantees.Totality` | `distbench-py/distbench/algorithms/bracha_basic.py:89-101` | N >= 3f+2, up to f arbitrary Byzantine processes, any sender: once one correct process has delivered, at rest all have |
| `BrachaGuarantees.OneStallAtMost` | `distbench-py/distbench/algorithms/bracha.py:157-171` | at rest, with a correct sender and enough processes, at most one correct process has not sent READY: the own ECHO, counted without a test, can leave no more than one behind |
| `BrachaGuarantees.EchoPhaseEnds` | `distbench-py/distbench/algorithms/bracha.py:157-171` | with a correct sender and the bound, at rest f+1 correct processes have sent READY |
| `BrachaGuarantees.Validity` | `distbench-py/distbench/algorithms/bracha_basic.py:46-101` | correct sender, N >= 3f+3 (3f+2 if the own ECHO counts): at rest every correct process has delivered, in whatever order things arrived |
| `BrachaGuarantees.DeliveryNeedsByzantineReady` | `distbench-py/distbench/algorithms/bracha_basic.py:90-101` | with N <= 3f+1 and f faulty processes no correct process ever delivers without a READY from a Byzantine one |
| `BrachaGuarantees.NoQuorumBelowBound` | `distbench-py/distbench/algorithms/bracha_basic.py:80-87` | without own ECHOs and with f silent processes, N <= 3f+2 never yields a READY |
| `BrachaGuarantees.ValidityExact` | `distbench-py/distbench/algorithms/bracha_basic.py:34-101` | with f silent processes a correct sender is delivered everywhere iff N meets the validity bound |
| `BrachaTermination.BroadcastTerminates` | `distbench-py/distbench/algorithms/bracha_basic.py:46-101` | without Byzantine messages every run is finite: at most n(2n+3) deliveries among n correct processes |
| `BrachaTermination.ExtendToRest` | `distbench-py/distbench/algorithms/bracha_basic.py:46-101` | after any run, whatever the Byzantine processes have sent, delivering what is left comes to an end |
| `BrachaTotalityExact.RunKeepsLanded` | `distbench-py/distbench/algorithms/bracha_basic.py:62-101` | in every state each message to a correct process is in flight or recorded, and each recorded READY was sent |
| `BrachaTotalityExact.TotalityFails` | `distbench-py/distbench/algorithms/bracha_basic.py:89-101` | for every f >= 1 and every N from 2f+2 to 3f+1, with f Byzantine processes: a run at rest in which a given correct process has delivered and another has not |
| `BrachaTotalityExact.NobodyDelivers` | `distbench-py/distbench/algorithms/bracha_basic.py:99-101` | with N <= 2f+1 no correct process ever delivers |
| `BrachaTotalityExact.TotalityExact` | `distbench-py/distbench/algorithms/bracha_basic.py:34-101` | f Byzantine processes can never divide the correct ones iff N >= 3f+2 or N <= 2f+1 |
| `DolevNaive.PicksGrow` | `distbench-py/distbench/algorithms/dolev_naive.py:150-166` | paths recorded later never withdraw a pick of the greedy search |
| `DolevNaive.PicksDisjoint` | `distbench-py/distbench/algorithms/dolev_naive.py:150-166` | the picked paths share no internal process |
| `DolevNaive.DolevNaiveSlot.constructor` | `distbench-py/distbench/algorithms/dolev_naive.py:28-40` | no path recorded, nothing delivered |
| `DolevNaive.DolevNaiveSlot.OnFlood` | `distbench-py/distbench/algorithms/dolev_naive.py:108-135` | what is recorded and to whom the longer path is forwarded; a message from a non-neighbour is ignored |
| `DolevNaive.DolevNaiveSlot.MyDeliver` | `distbench-py/distbench/algorithms/dolev_naive.py:139-148` | delivers iff not yet delivered and the search accepts |
| `DolevNaive.DolevNaiveSlot.DistPaths` | `distbench-py/distbench/algorithms/dolev_naive.py:150-166` | the loop with its early exit accepts iff the greedy search picks f+1 paths in all |
| `DolevExactness.FloodExactness` | `distbench-py/distbench/algorithms/dolev_naive.py:91-137` | at rest a correct process has recorded exactly the simple paths of correct processes from the source to it, each once, and the source none |
| `DolevExactness.AllTrailsRecorded` | `distbench-py/distbench/algorithms/dolev_naive.py:122-135` | every such path is recorded, by induction along the path |
| `DolevExactness.ForwardsAreFew` | `distbench-py/distbench/algorithms/dolev_naive.py:127-135` | a path only grows through processes not on it, so fewer and fewer forwards follow |
| `DolevExactness.DeliverConsumes` | `distbench-py/distbench/algorithms/dolev_naive.py:108-137` | every delivery lowers the weight of what is in flight |
| `DolevExactness.FloodTerminates` | `distbench-py/distbench/algorithms/dolev_naive.py:108-137` | without lying processes every run is finite, bounded by the initial weight |
| `DolevDelivery.DeliveredExactly` | `distbench-py/distbench/algorithms/dolev_naive.py:137-148` | at rest a process has delivered iff the greedy search accepts its recorded paths, and then under the originator's name |
| `DolevDelivery.DeliveryHasDisjointPaths` | `distbench-py/distbench/algorithms/dolev_naive.py:137-166` | in every state, whoever has delivered has f+1 internally disjoint paths of correct processes from the originator |
| `DolevSureDelivery.PickedIsMaximal` | `distbench-py/distbench/algorithms/dolev_naive.py:150-166` | what the greedy search keeps of all paths is a maximal family of internally disjoint ones |
| `DolevSureDelivery.FamilyStarves` | `distbench-py/distbench/algorithms/dolev_naive.py:91-166` | a maximal family of at most f paths, heard first, leaves the process without delivery for good |
| `DolevSureDelivery.SureDeliveryExactly` | `distbench-py/distbench/algorithms/dolev_naive.py:91-166` | any topology, any silent processes, any f: every run at rest has delivered at a process iff every maximal family of internally disjoint correct paths to it has at least f+1 members |
| `DolevFloodStarvation.CorrectProcessStarves` | `distbench-py/distbench/algorithms/dolev_naive.py:91-166` | for every f >= 1, correct processes only and f+1 disjoint paths from the source: a run at rest in which a process has not delivered |
| `DolevIntegrity.RunKeepsInv` | `distbench-py/distbench/algorithms/dolev_naive.py:108-148` | in every run with liars each recorded or travelling path contains the originator or a faulty process, and each delivery was accepted on its paths |
| `DolevIntegrity.AttributionNeedsCulprits` | `distbench-py/distbench/algorithms/dolev_naive.py:108-166` | a delivery under a correct name other than the originator's needs f+1 different processes that could have forged it |
| `DolevIntegrity.NoFabrication` | `distbench-py/distbench/algorithms/dolev_naive.py:108-166` | any topology, at most f Byzantine processes: nothing is delivered under a correct source's name unless a correct process broadcast the message id |
| `DolevIntegrity.NoMisattribution` | `distbench-py/distbench/algorithms/dolev_naive.py:108-166` | with fewer than f faulty processes the attributed source is the originator |
| `DolevIntegrity.MisattributionAtBudget` | `distbench-py/distbench/algorithms/dolev_naive.py:108-166` | for every fault budget, with as many liars as budgeted and at least one, a run in which a real message is attributed to the wrong correct source |
| `DolevIntegrity.AttributionExact` | `distbench-py/distbench/algorithms/dolev_naive.py:108-166` | n faulty processes leave every attribution to a correct source right, in all systems and runs, iff n < f or n = 0 |
| `DisjointSearch.GreedyRefinesConnectivity` | `distbench-py/distbench/algorithms/dolev_naive.py:150-166` | on distinct simple paths not through the receiver, greedy acceptance implies f+1 internally disjoint paths in the union graph |
| `DisjointSearch.BothChecksMonotone` | `distbench-py/distbench/algorithms/dolev.py:373-403` | both tests stay passed as further paths are recorded |
| `DisjointSearch.GreedyIsIncomplete` | `distbench-py/distbench/algorithms/dolev_naive.py:150-166` | on paths through two middle processes at f = 1 the converse fails, and greedy acceptance depends on the order of arrival |
| `DisjointSearch.ShapeIsNeeded` | `distbench-py/distbench/algorithms/dolev_naive.py:155-162` | with the source in the middle of a path the refinement fails |
| `Dolev.DolevSlot.constructor` | `distbench-py/distbench/algorithms/dolev.py:31-43` | no entry for the message id |
| `Dolev.DolevSlot.NoteInformed` | `distbench-py/distbench/algorithms/dolev.py:292-293` | adds a process to those known to have delivered |
| `Dolev.DolevSlot.OnArrival` | `distbench-py/distbench/algorithms/dolev.py:239-290` | silence, neighbour test, MD5 and MD1 up to the first waiting point |
| `Dolev.DolevSlot.OnBody` | `distbench-py/distbench/algorithms/dolev.py:290-308` | EMPTY handling, MD4, recording the path, and what is left to relay |
| `Dolev.DolevSlot.OnEmptyForward` | `distbench-py/distbench/algorithms/dolev.py:354-369` | EMPTY to all neighbours unless already done |
| `Dolev.DolevSlot.OnEmptySent` | `distbench-py/distbench/algorithms/dolev.py:371-371` | EMPTY is marked as sent, and a direct delivery goes on with the message |
| `Dolev.DolevSlot.BuildGraph` | `distbench-py/distbench/algorithms/dolev.py:379-391` | the loops build the union graph of the recorded paths |
| `Dolev.DolevSlot.OnDeliver` | `distbench-py/distbench/algorithms/dolev.py:323-371` | delivers iff the connectivity reaches f+1; EMPTY otherwise as well |
| `DolevEvidence.RunKeepsInv` | `distbench-py/distbench/algorithms/dolev.py:239-371` | in every run of honest, silent and selective processes, with handlers cut at every wait: genuine messages, genuine recorded paths, evidence behind deliveries |
| `DolevEvidence.UnionIsReal` | `distbench-py/distbench/algorithms/dolev.py:379-391` | a simple path of the union graph is a path of the real topology, even if it mixes edges of several recorded paths |
| `DolevEvidence.RecordedPathsAreGenuine` | `distbench-py/distbench/algorithms/dolev.py:302-308` | every recorded path is a simple walk of the neighbour graph from the source |
| `DolevEvidence.DeliveryHasEvidence` | `distbench-py/distbench/algorithms/dolev.py:323-352` | whoever has delivered, the originator apart, neighbours the source or has f+1 internally disjoint paths from it in the real topology |
| `DolevEvidence.UpcallAtMostOnce` | `distbench-py/distbench/algorithms/dolev.py:323-355` | the parent gets a broadcast at most once, exactly when it was delivered, for every interleaving |
| `DolevEvidence.NeighboursDeliver` | `distbench-py/distbench/algorithms/dolev.py:283-345` | at rest every process the source sends to first hand has delivered, exactly once |
| `DolevEvidence.SelectiveTargets` | `distbench-py/distbench/algorithms/dolev.py:217-229` | the source sends to all neighbours, or in selective mode to the lower half of them in id order, rounded down |
| `DolevSpread.DeliveriesAreAnnounced` | `distbench-py/distbench/algorithms/dolev.py:357-371` | at rest every process that has delivered has sent EMPTY to all neighbours, and each that takes part and listens knows it or is done |
| `DolevSpread.PathsArePassedOn` | `distbench-py/distbench/algorithms/dolev.py:302-319` | at rest each recorded path has been recorded, one process longer, at every neighbour off the path that takes part, except those known to have delivered and those that are done |
| `DolevRelays.UnnotedLoopReachesAll` | `distbench-py/distbench/algorithms/dolev.py:305-319` | a path recorded while nobody had been noted: at rest every neighbour off it that takes part has recorded it, one longer, or is done, even if it was noted while the loop ran |
| `DolevRelays.NotedBeforeItsTurn` | `distbench-py/distbench/algorithms/dolev.py:305-319` | a path recorded once somebody had been noted: a neighbour noted before its turn gets no copy from that loop, now or later |
| `DolevRelays.AnnouncersNoteThemselves` | `distbench-py/distbench/algorithms/dolev.py:343-371` | in every state whoever has sent EMPTY, or is about to after delivering on paths, has noted itself |
| `DolevRelays.WhatIsDropped` | `distbench-py/distbench/algorithms/dolev.py:277-327` | a detour through its own finished sender, anything at a process that is done, and the end of a loop after the delivery change and send nothing |
| `DolevSpread.DetourRuleIsIdle` | `distbench-py/distbench/algorithms/dolev.py:300-303` | the MD4 test is never met by an honest message |
| `DolevSpread.RunKeepsSpread` | `distbench-py/distbench/algorithms/dolev.py:239-371` | announcements and relays owed are done, suspended or on the wire in every state of every run |
| `DolevVerdict.DeliveredExactly` | `distbench-py/distbench/algorithms/dolev.py:283-403` | at rest a process other than the originator has delivered iff the source sends to it first hand or its recorded paths contain f+1 disjoint ones |
| `DolevTermination.BroadcastTerminates` | `distbench-py/distbench/algorithms/dolev.py:239-371` | every run is finite, bounded by the initial weight |
| `DolevCutoff.CutOffForGood` | `distbench-py/distbench/algorithms/dolev.py:288-371` | any topology, budget and interleaving: once a process lacks enough paths, nothing useful is on its way to it, and every process that could relay to it believes it done or is done, it never delivers in any continuation |
| `DolevFirstHand.OnePathFails` | `distbench-py/distbench/algorithms/dolev.py:373-403` | a single recorded path never passes the test when f >= 1 |
| `DolevFirstHand.HearsAndIsCutOff` | `distbench-py/distbench/algorithms/dolev.py:283-371` | a process whose first path is handled before any other is on its way is cut off by its own EMPTY |
| `DolevFirstHand.SureDeliveryExactly` | `distbench-py/distbench/algorithms/dolev.py:161-403` | any topology, any silent processes, f >= 1: every run at rest has delivered at a process iff the source sends to it first hand and it takes part and listens |
| `DolevStarvation.HonestProcessStarves` | `distbench-py/distbench/algorithms/dolev.py:161-403` | for every f >= 1, honest processes only and f+1 disjoint paths from the source: a run at rest in which a process has not delivered |
| `DolevZeroBudget.RunKeepsTraces` | `distbench-py/distbench/algorithms/dolev.py:239-371` | in every state whoever sent EMPTY has got something, whoever passed a path on has recorded one, and every path began with a first-hand step |
| `DolevZeroBudget.SureDeliveryExactly` | `distbench-py/distbench/algorithms/dolev.py:161-403` | f = 0, any topology, any silent processes: every run at rest has delivered at a process iff a trail of participating processes leads to it |
| `ChangRoberts.ChangRobertsNode.constructor` | `distbench-py/distbench/algorithms/chang_roberts.py:36-40` | no leader, no successor remembered |
| `ChangRoberts.ChangRobertsNode.GetNextPeer` | `distbench-py/distbench/algorithms/chang_roberts.py:42-63` | the successor in sorted order, the same when remembered as when computed |
| `ChangRoberts.SuccessorExactly` | `distbench-py/distbench/algorithms/chang_roberts.py:42-63` | the successor is the id with no other between, going up and round, and another process if there is one |
| `ChangRoberts.ChangRobertsNode.OnStart` | `distbench-py/distbench/algorithms/chang_roberts.py:65-80` | an own election message unless a leader is known |
| `ChangRoberts.ChangRobertsNode.OnElection` | `distbench-py/distbench/algorithms/chang_roberts.py:88-121` | elected, forwarded or replaced |
| `ChangRoberts.ChangRobertsNode.OnTermination` | `distbench-py/distbench/algorithms/chang_roberts.py:123-138` | leader taken over once and passed on unless it is the process itself |
| `ChangRoberts.RingIsOneCycle` | `distbench-py/distbench/algorithms/chang_roberts.py:42-63` | the successor map is one cycle through all N nodes |
| `RingElection.StartExactly` | `distbench-py/distbench/algorithms/chang_roberts.py:65-80` | a start adds the process's own election message at its successor iff it knows no leader, and changes no leader |
| `RingElection.LateStartIsSilent` | `distbench-py/distbench/algorithms/chang_roberts.py:72-73` | a start after the leader is known leaves the messages and the leaders as they were |
| `RingElection.RunKeepsInv` | `distbench-py/distbench/algorithms/chang_roberts.py:65-140` | electors have beaten everybody they passed, and the informed processes form an arc |
| `RingElection.HomecomingIsTop` | `distbench-py/distbench/algorithms/chang_roberts.py:93-95` | an elector that comes home is the largest id |
| `RingElection.OnlyTheLargestWins` | `distbench-py/distbench/algorithms/chang_roberts.py:88-140` | in every state only the largest id is anybody's leader, the informed processes are a contiguous arc from it, and until the arc closes TERMINATION is on its way to the first uninformed one |
| `RingElection.NoElectionAfterwards` | `distbench-py/distbench/algorithms/chang_roberts.py:65-140` | once every process knows its leader the election messages in flight never become more, along any continuation |
| `RingElection.Agreement` | `distbench-py/distbench/algorithms/chang_roberts.py:65-140` | at rest, if anybody began, every process has the largest id as leader |
| `RingElection.RustAgrees` | `distbench-rs/src/algorithms/chang_roberts.rs:68-126` | on every message of every run the Rust process, which passes on the maximum and always forwards TERMINATION, reacts like the Python one |
| `RingElection.RustAgreesExactly` | `distbench-rs/src/algorithms/chang_roberts.rs:68-126` | the two programs react alike to every message except TERMINATION with the process's own id at a process without a leader |
| `RingElection.ElectionIsConsumed` | `distbench-py/distbench/algorithms/chang_roberts.py:88-121` | each delivery of an election message brings it closer to its end, which is at the largest id only |
| `RingElection.ElectionEndsInTime` | `distbench-py/distbench/algorithms/chang_roberts.py:88-121` | whoever starts it, an election message has turned into TERMINATION after 2N-1 deliveries |
| `RingElection.ElectionTerminates` | `distbench-py/distbench/algorithms/chang_roberts.py:65-140` | every run is finite, at most N + 4N^2 steps |
| `Framing.ByteAt` | `distbench-rs/lib/core/src/transport/tcp.rs:497-499` | byte i of a number written with width k is its digit of weight 256^(k-1-i): the most significant byte comes first |
| `Framing.FrameLayout` | `distbench-rs/lib/core/src/transport/tcp.rs:490-505` | a Rust frame is the type byte, the id in eight bytes, the length in four, most significant first, and the payload |
| `Framing.ValueOfBigEndian` | `distbench-rs/lib/core/src/transport/tcp.rs:490-507` | a number written with fixed width reads back as itself iff it fits |
| `Framing.FrameSurvives` | `distbench-rs/lib/core/src/transport/tcp.rs:490-517` | a Rust frame in front of anything reads back with the rest untouched iff its id fits 64 and its length 32 bits |
| `Framing.StreamSurvives` | `distbench-rs/lib/core/src/transport/tcp.rs:490-517` | any sequence of fitting frames is read back exactly, with nothing left |
| `Framing.PartialStream` | `distbench-rs/lib/core/src/transport/tcp.rs:507-517` | at any cut of the stream what has been read is a prefix of what was written |
| `Framing.ByteStream.Write` | `distbench-rs/lib/core/src/transport/tcp.rs:490-505` | appends exactly the frame |
| `Framing.ByteStream.ReadExact` | `distbench-rs/lib/core/src/transport/tcp.rs:512-514` | exactly n bytes or none |
| `Framing.ByteStream.Read` | `distbench-rs/lib/core/src/transport/tcp.rs:507-517` | takes exactly one frame off the stream, or reports that it ended |
| `Framing.RequestLayout` | `distbench-py/distbench/transport/tcp.py:72-132` | a Python call is its length in four bytes, most significant first, and the message; a cast has four bytes of all ones in front |
| `Framing.RequestSurvives` | `distbench-py/distbench/transport/tcp.py:72-132` | a Python call or cast reads back exactly iff it is not a call of the marker's length |
| `Framing.RequestsSurvive` | `distbench-py/distbench/transport/tcp.py:207-247` | so does any sequence of them in the server loop |
| `RequestMux.InvAfter` | `distbench-rs/lib/core/src/transport/tcp.rs:240-468` | with whole frames and unwrapped ids every event keeps each issued send in exactly one place, replies truthful and the pending table right |
| `RequestWire.TcpConnection.constructor` | `distbench-rs/lib/core/src/transport/tcp.rs:326-330` | no id drawn, nothing pending, nothing read |
| `RequestWire.TcpConnection.DrawId` | `distbench-rs/lib/core/src/transport/tcp.rs:456-457` | the next id of the 64-bit counter |
| `RequestWire.TcpConnection.OnBytes` | `distbench-rs/lib/core/src/transport/tcp.rs:508-514` | more of the reply stream has arrived |
| `RequestWire.TcpConnection.ReadOn` | `distbench-rs/lib/core/src/transport/tcp.rs:508-514` | the current read takes bytes without completing its frame |
| `RequestWire.TcpConnection.OnOutgoing` | `distbench-rs/lib/core/src/transport/tcp.rs:374-400` | the send is registered under its id, and the bytes a begun read had taken are lost with it |
| `RequestWire.TcpConnection.OnFrame` | `distbench-rs/lib/core/src/transport/tcp.rs:382-442` | a whole frame completes the send waiting under its id; other kinds and unknown ids complete nothing |
| `RequestWire.TypesExactly` | `distbench-rs/lib/core/src/transport/tcp.rs:418-450` | answers have type byte 2, errors 3, and a frame of another type completes nothing |
| `RequestWire.RunKeepsInv` | `distbench-rs/lib/core/src/transport/tcp.rs:366-468` | in every state of a run in which no read is cut, the bytes ahead of the client are exactly the outstanding reply frames and every send is where it should be |
| `RequestWire.AlignedExactly` | `distbench-rs/lib/core/src/transport/tcp.rs:374-385` | the client stays on the frame boundaries throughout a run iff nothing is sent while a frame is partly read |
| `RequestWire.CompletesOnceWithItsOwnReply` | `distbench-rs/lib/core/src/transport/tcp.rs:456-468` | in such runs each result is the server's answer to that same send, and the send is then nowhere else |
| `RequestWire.PendingIsOutstanding` | `distbench-rs/lib/core/src/transport/tcp.rs:398-442` | in such runs an id is pending iff a send with that id is on the stream and unanswered |
| `RequestWire.AllAnsweredAtRest` | `distbench-rs/lib/core/src/transport/tcp.rs:240-305` | in such runs, with nothing on its way, every send issued has returned its answer and nothing is pending |
| `RequestExact.RunKeepsOnce` | `distbench-rs/lib/core/src/transport/tcp.rs:366-468` | in every run each send is in at most one place before the server has it, and a send that can still complete has no result |
| `RequestExact.CompletesAtMostOnce` | `distbench-rs/lib/core/src/transport/tcp.rs:418-442` | in every run, with cut reads, wrapped ids and oversized replies, a step completes at most one send and never one that has completed |
| `RequestExact.ResultsAreFinal` | `distbench-rs/lib/core/src/transport/tcp.rs:418-442` | in every run a result never changes |
| `RequestExact.RunIsAccounted` | `distbench-rs/lib/core/src/transport/tcp.rs:374-385` | in every run the bytes unread, those of completed replies and those lost to cut reads do not exceed those the server wrote |
| `RequestExact.AnsweredExactly` | `distbench-rs/lib/core/src/transport/tcp.rs:240-468` | once everything is delivered, every send has returned the server's answer to it iff nothing was ever sent while a frame was partly read |
| `RequestExact.HandlingIsReturned` | `distbench-rs/lib/core/src/transport/tcp.rs:259-301` | in uncut runs a send whose handling failed returns the error with its text, one whose handling gave data returns the data, one without data an empty answer |
| `RequestWire.CutReadMisdelivers` | `distbench-rs/lib/core/src/transport/tcp.rs:374-385` | for any bytes and any answer, a run with one cut read in which all is delivered, one send returns those bytes instead of its answer and another never returns |
| `RequestWire.WrappedIdMisdelivers` | `distbench-rs/lib/core/src/transport/tcp.rs:398-457` | with 2^64+1 sends a run, no read cut, in which the answer to the first completes the last: the bound on the counter is exact |
| `Lifecycle.LifecycleNode.constructor` | `distbench-py/distbench/node.py:57-65` | the status, keys and monitor of a node before its start delay has passed |
| `Lifecycle.LifecycleNode.SetStatus` | `distbench-py/distbench/node.py:85-97` | the new status, and a monitor waiting for a change is woken |
| `Lifecycle.LifecycleNode.Enter` | `distbench-py/distbench/node.py:105-188` | what one turn of the monitor does for each status |
| `Lifecycle.LifecycleNode.Advance` | `distbench-py/distbench/node.py:121-179` | when the suspended monitor goes on, and what it then does |
| `Lifecycle.LifecycleNode.Handle` | `distbench-py/distbench/node.py:202-242` | PUBKEY, STARTED and FINISHED, with the statuses the handler sets itself; an unknown sender changes nothing |
| `LifecycleComplete.HandlesExactly` | `distbench-py/distbench/node.py:213-242` | a notice of a peer changes the note on that peer only, and the own status iff the node is starting or stopping and the peer was the last |
| `LifecycleComplete.WaitsEndExactly` | `distbench-py/distbench/node.py:121-179` | in every run a monitor's turn leads from the shared key to STARTED iff the node holds all keys, from STARTED to on_start iff it has noted all peers as running, and from FINISHED to on_exit iff it has noted all as terminated |
| `Lifecycle.RunKeepsInv` | `distbench-py/distbench/node.py:99-242` | whatever a node has noted about another was really done by it, over lossy and reordering links |
| `Lifecycle.StartBarrier` | `distbench-py/distbench/node.py:111-157` | on_start runs at a node only once every node holds the keys of all others and every other node has broadcast STARTED |
| `Lifecycle.ExitBarrier` | `distbench-py/distbench/node.py:159-188` | on_exit runs at a node only once every other node has broadcast FINISHED |
| `Lifecycle.DeedsInOrder` | `distbench-py/distbench/node.py:99-188` | key, STARTED, on_start, FINISHED, on_exit happen in this order, each at most once |
| `LifecycleComplete.AllGetThrough` | `distbench-py/distbench/node.py:99-188` | any two or more nodes have a run in which every one of them does all five deeds, on_exit last and after its own FINISHED |
| `Lifecycle.ExitIsAnnouncedExactly` | `distbench-py/distbench/node.py:232-240` | a node reaching on_exit has broadcast FINISHED unless, at an earlier step, the last FINISHED of its peers was handled while it was stopped and its monitor still waited, its status unchanged since |
| `Lifecycle.UndisturbedExitIsAnnounced` | `distbench-py/distbench/node.py:159-188` | if no last FINISHED is handled between a stop and the monitor's next turn, every exit has been announced |
| `Lifecycle.StopDuringStartIsLost` | `distbench-py/distbench/node.py:153-157` | a stop that comes while on_start runs is lost: without another stop the node never broadcasts FINISHED |
| `Lifecycle.StopDuringStartHappens` | `distbench-py/distbench/node.py:153-157` | any two nodes have a run in which a stop comes while on_start runs |
| `Lifecycle.SilentExitStrands` | `distbench-py/distbench/node.py:173-188` | after an exit without FINISHED no other node ever reaches on_exit |
| `Lifecycle.SilentExitHappens` | `distbench-py/distbench/node.py:157-188` | such a run exists for any two nodes |

## Left out

- Shutdown inside the protocols (`terminate`, `check_completion`): stopping a process drops relays; the results at rest are about the protocols without it.
- The sender's start hook is one step, also in the Bracha versions where it waits between its messages; handlers of the sender that run in between are not modelled.
- Payload agreement under an equivocating sender: tallies are kept per message id only, so agreement is on the id. `EchoQuorumUnique` is what holds for payloads; in the optimized model, without lies, payloads are exact.
- Lying processes in `bracha_optimized.py`: one READY makes it echo and eligibility follows a field of the message; modelled with reliable and lossy processes.
- The Dolev layer under Bracha, with its own f: replaced by reliable authenticated links.
- Byzantine processes in `dolev.py`: its union graph mixes edges of different paths, and nothing tells a forged EMPTY from a real one. That enough disjoint paths lead to delivery is false even without them (`DolevFirstHand.SureDeliveryExactly`).
- Delivery of the naive flood from connectivity alone: false, see `CorrectProcessStarves`; `DolevSureDelivery.SureDeliveryExactly` says what holds.
- NetworkX's flow computation: the connectivity is a parameter of `Dolev.DolevSlot.OnDeliver`, specified as the largest number of internally disjoint paths.
- Payloads of Dolev messages, and message ids other than the one under study.
- Ids as strings: a node is its rank in the sort order of the id strings.
- RequestWire.CompletesOnceWithItsOwnReply: holds for runs in which no read is cut, the 64-bit request counter has not wrapped and answers are shorter than 4 GiB; `CutReadMisdelivers`, `WrappedIdMisdelivers` and `Framing.FrameSurvives` show what happens otherwise.
- Casts, close, connection loss and dropped callers on the Rust connection, and the lock and reply framing of the Python one.
- Liveness of the lifecycle barrier: casts may be lost in the model, as they may in the program.
- That `start` stops the node once: in the model the stop may come at any time and repeatedly, so the results cover more runs than the program has.
- Lossy decoding of the text of an error reply; the model hands its bytes over.
- The Rust startup barrier, which looks only at peers it has recorded.
- Sockets, task scheduling, delays, retries, logging, metrics, configuration, serialization and signatures.
- Echo, message chain, simple broadcast and `in4150`: easy, or tied to libraries that are not part of this model.
