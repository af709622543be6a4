# Bully election node and password helpers, modelled in Dafny

This project models the sequential logic of one node of the distributed password cracking tool:

- the per-node Bully leader-election state machine shared by `node.py` and `node3.py`;
- the proxy's first-message-wins deduplication counter;
- the password helpers of `node3.py`.

Each handler is a pure step function. It takes a node state `NodeState(election, coordinator, counter)`, the registration status (computed once at start-up, so one value for the node's whole life) and the answers of the collaborators (directory, readiness, higher nodes, health). It returns the new state and a list of `Effect`s: `Announce`, `CommunicateMaster`, `Election`, `ScheduleElection` and `Forward`. Those effects stand for the outgoing calls and spawned threads.

Modules:

- `Wrappers` (`wrappers.dfy`): `Option` and `Result`.
- `Node` (`node.dfy`): identity, state, snapshot and effects. The coordinator field is `Unknown | Self | Named(name)`. `Self` is the boolean `True` the script stores on self-promotion; `Named` is the name an announcement stores. The dedup counter is a 32-bit C `int` (`Int32`, wrapped by `Wrap32`).
- `Election` (`election.dfy`): `initialize_election`, `response_node`, `announce_coordinator` and one tick of `check_coordinator_health`.
- `Dedup` (`proxy.dfy`): one call of the `proxy` endpoint.
- `NodeTrace` (`node_trace.dfy`): a node driven by a sequence of inbound events. It holds the lemmas about the proxy over whole call sequences.
- `Passwords` (`passwords.dfy`): `generate_password_suggestions`, `calculate_similarity` and `find_most_similar_password`. Scores are exact reals.

Behaviour that follows the code:

- `initialize_election` deletes the node's own name from the directory with `del`. When the name is absent, Python raises `KeyError`. The model returns `Failure(SelfNotInDirectory)`, with no state change.
- A health tick that sees `'crashed'` calls `initialize_election()` with its default `wait=True`, not `wait=False`. So, when the readiness answer is negative, the tick does nothing (`Election.CheckCoordinatorHealth`).
- The dedup counter is a `multiprocessing.Value('i')`, a wrapping C `int`. From 0, exactly the first of up to 2^32 proxy calls is forwarded. After 2^32 calls the counter is back at 0, and the next call forwards again (`NodeTrace.CounterWrapsAfterModulusCalls`).
- `calculate_similarity` divides by zero when both strings are empty. The model returns `Failure(ZeroDivision)`. `find_most_similar_password` therefore fails exactly when the input is empty and the list holds an empty password.

## Model

| member | source | states |
|---|---|---|
| Node.Wrap32 | DistributedPwdCarackingTool/node.py:13 | the counter's value is congruent to the unbounded value modulo 2^32, and equals it while it fits a C int |
| Node.AnnounceEffect | DistributedPwdCarackingTool/node3.py:61-64 | self-promotion announces the node's own name, through `announce` in node.py and through `communicate_master` in node3.py |
| Election.InitializeElection | DistributedPwdCarackingTool/node.py:37-82 | a failed registration changes nothing; a missing own directory entry is the only error; a round that does not get past the readiness gate changes nothing; with no higher node the node becomes coordinator, clears its election flag and announces itself once; otherwise it calls election on the higher nodes once, keeps the flag set and keeps its coordinator; the counter is never touched |
| Election.ResponseNode | DistributedPwdCarackingTool/node.py:97-104 | a node that outranks the sender clears its election flag and schedules exactly one round without the quiet period; otherwise nothing changes |
| Election.AnnounceCoordinator | DistributedPwdCarackingTool/node.py:109-114 | the announced name replaces the coordinator unconditionally; nothing else changes |
| Election.CheckCoordinatorHealth | DistributedPwdCarackingTool/node3.py:200-206 | a health answer other than 'crashed' changes nothing; 'crashed' runs exactly initialize_election with its default wait true: nothing happens without registration, a missing own directory entry raises, a negative readiness answer aborts, with no higher node the node becomes coordinator and announces itself once, and otherwise the flag stays set and one election call goes to the higher nodes |
| Election.NoWaitIgnoresReadiness | DistributedPwdCarackingTool/node.py:55-56 | with wait false the round's outcome does not depend on the readiness answer |
| Election.WaitingRoundAbortsWhenNotReady | DistributedPwdCarackingTool/node.py:49-56 | with wait true and a negative readiness answer the round leaves the state unchanged and emits nothing |
| Election.AnnounceIdempotent | DistributedPwdCarackingTool/node.py:110-112 | delivering one announcement twice equals delivering it once |
| Election.AnnounceLastWriterWins | DistributedPwdCarackingTool/node3.py:178-180 | of two announcements only the later one is remembered |
| Election.ScriptsAgree | DistributedPwdCarackingTool/node3.py:37-92 | the node.py and node3.py rounds reach the same state and effects, except that announce becomes communicate_master |
| Election.OutrankingNodeBecomesCoordinator | DistributedPwdCarackingTool/node3.py:164-172 | a node that outranks the sender and has no higher node becomes coordinator in the round it schedules, whatever the readiness answer |
| Election.SnapshotAfterPromotion | DistributedPwdCarackingTool/node.py:86-93 | after self-promotion the details endpoint reports the node as coordinator and not electing |
| Election.SnapshotAfterAnnouncement | DistributedPwdCarackingTool/node3.py:154-161 | after an announcement the details endpoint reports the announced name and the unchanged election flag |
| Node.GetNodeDetails | DistributedPwdCarackingTool/node.py:86-93 | the snapshot copies the node's name, id and port and its current coordinator and election flag |
| Dedup.CallsUntilForward | DistributedPwdCarackingTool/node.py:119-124 | the number of calls until the next forward lies in 1..2^32 and is 1 exactly when the counter is 0 |
| Dedup.Proxy | DistributedPwdCarackingTool/node.py:118-128 | a call increments the counter by one with C int wrap-around, forwards its payload exactly when the counter was 0, and leaves election and coordinator unchanged |
| NodeTrace.NoForwardUntilCounterReturns | DistributedPwdCarackingTool/node.py:119-124 | over any event sequence with fewer proxy calls than needed to bring the counter back to 1, nothing is forwarded |
| NodeTrace.FirstProxyCallWins | DistributedPwdCarackingTool/node3.py:186-196 | from a fresh counter, over any event sequence with 1 to 2^32 proxy calls, exactly one message is forwarded: the first proxy call's payload |
| NodeTrace.CounterWrapsAfterModulusCalls | DistributedPwdCarackingTool/node3.py:187-192 | after exactly 2^32 proxy calls from a fresh counter the counter is 0 again and the next call forwards |
| Passwords.Search | DistributedPwdCarackingTool/node3.py:143-147 | a class search succeeds exactly when some character of the password is in the class |
| Passwords.GenerateSuggestions | DistributedPwdCarackingTool/node3.py:137-149 | each hint is present exactly when its class is absent (capital: no A-Z; special: all characters in a-zA-Z0-9; simple: no a-z); hints keep the order capital, special, simple; at most three; the empty password gets all three |
| Passwords.Similarity | DistributedPwdCarackingTool/node3.py:127-134 | the ratio lies in [0, 1] and is 0 exactly when the strings share no character |
| Passwords.CalculateSimilarity | DistributedPwdCarackingTool/node3.py:133 | division by zero exactly when both strings are empty; otherwise the ratio |
| Passwords.SimilaritySymmetric | DistributedPwdCarackingTool/node3.py:132-133 | the ratio is symmetric in its two arguments |
| Passwords.SimilarityOneIff | DistributedPwdCarackingTool/node3.py:132-133 | the ratio is 1 exactly when both strings have equal length, the same characters and no repeated character |
| Passwords.FirstBestUnique | DistributedPwdCarackingTool/node3.py:118-122 | the strict comparison makes the chosen entry unique: only one entry is the first to reach the maximum |
| Passwords.FindMostSimilarPassword | DistributedPwdCarackingTool/node3.py:111-124 | fails exactly on an empty input with an empty saved password; returns nothing exactly when every score is 0 (or the list is empty); otherwise returns an entry with a positive score no entry beats, and no earlier entry reaches |

## Left out

- Flask routing, JSON request and response bodies, `requests.post`: each outgoing call is an `Effect`, and each inbound request is an event of `NodeTrace`.
- The `util` collaborators (registration, directory lookup, `get_details`, `ready_for_election`, `get_higher_nodes`, `election`, `announce`, `communicate_master`, `check_health_of_the_service`, `create_node_id`) and the `Bully` class: their code is not part of this model. Their answers are inputs and their calls are effects. The initial state is a parameter, because the `Bully` constructor is not part of this model either.
- Threads and timers: the start-up timer, the thread `response_node` spawns (the `ScheduleElection` effect), and the self-rescheduling 60-second timer of `check_coordinator_health`. Only one tick is modelled. No line of either script starts the health monitor. Handlers run atomically, one after another. Interleavings are not modelled: an announcement landing during the quiet period, or the spawned round racing with `bully.election = False`.
- The random quiet-period sleep: it does not change state.
- The interactive password check after self-promotion: reading `password.txt`, `input()`, `print`, and `suggest_passwords`. All are I/O.
- Python's regular-expression engine: the three classes are ASCII character ranges.
- Module start-up: `sys.argv`, logging set-up, the asserts.
- Multi-node convergence of the Bully protocol: it depends on collaborator behaviour and on message delivery.
- Passwords.FindMostSimilarPassword: compares exact ratios, not floats. Two distinct ratios close enough to round to the same float could compare differently in Python.
