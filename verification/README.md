# Verification of peer-time-sync and The Great Approximator

This project models the two programs of the repository in Dafny and proves what they are for.

**peer-time-sync** is a network of nodes that agree on the clock of a leader by exchanging
SYNC_START, DELAY_REQUEST and DELAY_RESPONSE over UDP.

- `Clock`: timespecs, the natural clock with C's truncating division, `get_clock`, the offset.
- `SyncNode`: one node. The class `NodeData` has the program's fields and handlers, each proved
  against a function of the old state.
- `SyncExchange`: any number of nodes and a network that loses and reorders messages and delivers
  each at most once. In every run a node has one exchange open and levels never wrap.
- `SyncNetwork`: the runs with one leader. In each of them the accuracy bound holds and the leader
  stays the leader.
- `SyncEffects`, `Handshake`: exactly when each handler acts and what it sends, and that an
  exchange whose messages arrive synchronizes the client, in any run.
- `Peers`, `Discovery`: the peer lists and the exchange of HELLO, HELLO_REPLY, CONNECT and
  ACK_CONNECT, down to the bytes of HELLO_REPLY.

**The Great Approximator** is a game: players approximate a polynomial by putting values at
points, a server delays its answers, counts and scores.

- `Greedy`: the automatic strategy is optimal and fastest. `Poly`: both evaluations of a polynomial.
- `Events`, `Server`, `Rows`, `Descriptors`: the timer queue and the server. The classes
  `EventManager` and `ServerLogic` are proved against the functions of `Server`.
- `ServerRuns`: every run of the server. `Totals`, `Players`, `Deadlines`, `Wakeups`, `Scores`: the
  count of puts, who the players are, callbacks neither early nor lost, no player waiting for ever,
  and the scores announced, even when connections come back under the same identity.
- `AutoClient`, `ClientRuns`: the automatic client, alone against any server. `Session`: client and
  server together in every interleaving. `Outcome`: the score the client is sent at the end.
- `Decimals`, `Params`, `Messages`, `MessageLoops`: the text protocol, printers and parsers.
  `Grammar`: exactly which lines are which messages.
- `Framing`, `Channel`: CRLF framing, partial sends and arbitrary chunks.
- `Delivery`: server, text protocol and connection composed. `Network`: client and server over
  two such connections; every run is a session of `Session`, and its results hold of it.

Conventions. Numbers of the game are integers that count 10^-7, scores count 10^-14; the parser
admits at most seven fractional digits and the printer writes seven, so coefficients, polynomial
values at integer points, differences and puts stay on this lattice, and the tolerance 3e-8 is
three tenths of a unit. Instants are integers that count nanoseconds. Random choices, clocks and
the network are parameters: instants given to handlers, sizes of chunks, numbers of bytes a send
takes, the order of steps.

Assumptions of the runs. Synchronisation: each datagram delivered at most once; for the accuracy
bound also no clock drift, delays of at most `maxDelay`, and LEADER 0 given to one node and not
again after LEADER 255; two lemmas say exactly how a leader loses its level otherwise. Server:
descriptors of connected clients are distinct and a line of the coefficient file has N + 1
coefficients, which `handle_hello` does not check. Where runs are those of `Totals`, that is all; in
the runs of `ServerRuns` time is also monotone and a connection does not reuse the descriptor,
address and port of an earlier one.
Client and server together: K >= 1, which the server's argument parser demands, and K^N at most
2^31 - 1, without which `Poly.ClientEvaluatesExactly` says that the client's powers overflow.

The model keeps what the code does where it may surprise: the natural clock can show a millisecond
more than has passed (`Clock.NaturalExact`); DELAY_RESPONSE_TIME is a number of seconds at
peer-time-sync/messages.c:410 but is compared with milliseconds at line 428; the deadline
`waiting_for_delay_response` is stored and never read; a put that is early and out of range
leaves a BAD_PUT pending although PENALTY has already answered it
(the-great-approximator/server_logic.cpp:162-178); an unreadable first message is fatal
to a client, later ones are skipped.

## Model

| member | source | states |
|---|---|---|
| Clock.TimersAreInstants | peer-time-sync/clock.c:56-59 | comparing timespecs field by field orders normalised instants as time does |
| Clock.NaturalReading | peer-time-sync/clock.c:14-22 | although seconds and nanoseconds are truncated separately, and toward zero, a reading is never negative and off by less than a millisecond |
| Clock.NaturalAccuracy | peer-time-sync/clock.c:14-22 | the error of a reading for any clock grain; readings on a clock of whole milliseconds are exact |
| Clock.NaturalMonotone | peer-time-sync/clock.c:14-22 | the natural clock never runs backwards |
| Clock.NaturalExact | peer-time-sync/clock.c:14-22 | exactly when the separate truncation makes the clock show one millisecond more than has passed |
| SyncNode.NodeData.constructor | peer-time-sync/main.c:24-35 | a node starts at level 255 with offset 0, no exchange open and no SYNC_START sent |
| SyncNode.NodeData.UpdateOffset | peer-time-sync/clock.c:50-54 | stores the truncated half of T2 - T1 + T3 - T4 and changes nothing else |
| SyncNode.NodeData.HandleSyncStart | peer-time-sync/messages.c:361-411 | the node and the messages sent after a SYNC_START, every refusal, loss of synchronisation and opened exchange included, as a function of the old state and of the four readings of the clock |
| SyncNode.NodeData.ProceedToSynchronization | peer-time-sync/messages.c:400-410 | opens the exchange: records level, T1, T2, peer and T3, sends DELAY_REQUEST |
| SyncNode.NodeData.HandleDelayRequest | peer-time-sync/messages.c:413-436 | answers with level and clock exactly when the sender was asked and the request is not late, and leaves the node unchanged |
| SyncNode.NodeData.HandleDelayResponse | peer-time-sync/messages.c:438-480 | the node after a DELAY_RESPONSE, closed exchange with its 8-bit level or rejection |
| SyncNode.NodeData.CompleteExchange | peer-time-sync/messages.c:474-479 | closes the exchange: the 8-bit level, the offset, the upstream and its deadline |
| SyncNode.NodeData.HandleLeader | peer-time-sync/messages.c:482-508 | the node after LEADER with any argument |
| SyncNode.NodeData.CheckAndHandleTimers | peer-time-sync/messages.c:553-581 | the node after the timers, with the loss of an upstream that has gone silent, and one SYNC_START per peer in list order, each with the level and its own reading of the clock |
| SyncExchange.DeliverDiscipline | peer-time-sync/messages.c:361-480 | delivering any message keeps every request and response in flight the only one of its client and part of its open exchange |
| SyncExchange.StepDiscipline | peer-time-sync/messages.c:361-581 | so does every delivery, loss, timer check, command and change of peers |
| SyncExchange.OneOpenExchange | peer-time-sync/messages.c:373-479 | in every run, whoever is told to lead, a request or response in flight is the only one of its client, which has an exchange open with that peer; a node that is not synchronizing has none |
| SyncExchange.MessageLowersLevel | peer-time-sync/messages.c:361-480 | a message raises a level only to 255, and a completed exchange never raises it |
| SyncExchange.TimersLowerLevel | peer-time-sync/messages.c:553-581 | neither does a check of the timers, which completes no exchange |
| SyncExchange.LeaderLowersLevels | peer-time-sync/messages.c:482-508 | LEADER breaks the promise of an open exchange exactly when its argument is 0 |
| SyncExchange.LevelsFall | peer-time-sync/messages.c:353-480 | in every run in which LEADER 0 reaches no node with an exchange open, a synchronizing node has synchronizing_level <= 253 and below its level, and each step lowers its level or sets it to 255, so the 8-bit level never wraps |
| SyncNetwork.ClockAccuracy | peer-time-sync/clock.c:24-33 | an offset within the bound keeps the clock within it at every later instant, the clamping of get_clock to 0 included |
| SyncNetwork.SyncStartKeeps | peer-time-sync/messages.c:361-411 | a SYNC_START keeps the accuracy of the node and opens only exchanges whose T1 is leader time |
| SyncNetwork.DelayRequestKeeps | peer-time-sync/messages.c:413-436 | the response to a request carries leader time up to the accuracy of the level it carries |
| SyncNetwork.NewOffset | peer-time-sync/clock.c:50-54 | halving with truncation toward zero costs at most half a millisecond |
| SyncNetwork.DelayResponseKeeps | peer-time-sync/messages.c:449-480 | a completed exchange gives the node the accuracy of one more hop; it rests on the level check |
| SyncNetwork.TimersKeep | peer-time-sync/messages.c:553-581 | timers keep accuracy and send only timestamps that are leader time |
| SyncNetwork.PacketsLeft | peer-time-sync/messages.c:361-508 | messages left in flight stay true when a node changes, because of the exchange discipline |
| SyncNetwork.DeliverKeeps | peer-time-sync/messages.c:361-480 | delivering any message keeps the invariant of the whole network |
| SyncNetwork.StepKeeps | peer-time-sync/messages.c:361-581 | every delivery, loss, timer check, command and change of peers keeps the global invariant |
| SyncNetwork.ClocksAgree | peer-time-sync/messages.c:361-480 | in every reachable state and at every later instant a node of level l < 255 has 2 * error <= l * (maximal delay + 1 ms + 4E) + 4E against the natural clock of the leader, E being the reading error |
| SyncNetwork.ClocksAgreeInMilliseconds | peer-time-sync/clock.c:24-33 | with readings in whole milliseconds and delays of 0..D ms: 2 * error <= l * (D + 1), even while upstream nodes resynchronise, time out or form cycles |
| SyncNetwork.MessageKeepsLeader | peer-time-sync/messages.c:361-480 | no message takes level 0 from a leader that never synchronized, nor makes it synchronize |
| SyncNetwork.TimersKeepLeader | peer-time-sync/messages.c:553-581 | nor does any check of its timers |
| SyncNetwork.LeaderKeepsLeading | peer-time-sync/messages.c:482-508 | in every run the leader keeps level 0 and offset 0 until it is told to stop |
| SyncNetwork.LeaderDemotedBySyncStart | peer-time-sync/messages.c:383-390 | LEADER 0 given to a node that synchronized before: it loses level 0 to a SYNC_START exactly when that comes from its old upstream and no exchange is open |
| SyncNetwork.LeaderDemotedByOpenExchange | peer-time-sync/messages.c:449-480 | LEADER 0 given during an exchange: it loses level 0 exactly when the response completes it and does not wrap the level |
| SyncEffects.SyncStartOpens | peer-time-sync/messages.c:342-411 | the exact condition under which a SYNC_START opens an exchange and a DELAY_REQUEST is sent, and that nothing is sent otherwise |
| SyncEffects.ExchangeOpened | peer-time-sync/messages.c:390-410 | the level, peer and timestamps an opened exchange remembers, its deadline 5 s later, the check of a good source 20 s later, and that nothing else changes |
| SyncEffects.SyncStartRefused | peer-time-sync/messages.c:366-398 | any other SYNC_START changes nothing, except that a source no better than the node costs it level and offset |
| SyncEffects.RequestAnswered | peer-time-sync/messages.c:413-436 | a DELAY_REQUEST is answered exactly when the sender was asked in the last round and 5 ms have not passed, with level and synchronized clock |
| SyncEffects.ResponseCompletes | peer-time-sync/messages.c:438-480 | exactly which DELAY_RESPONSE completes an exchange, and every field it changes, the halved offset and the deadlines included |
| SyncEffects.LeaderCommand | peer-time-sync/messages.c:482-508 | the effect of LEADER with each argument, 2 s of delay included |
| SyncEffects.TimersLose | peer-time-sync/messages.c:553-560 | level and offset are lost exactly when the source has been silent past the check |
| SyncEffects.TimersSend | peer-time-sync/messages.c:562-572 | when a round is due, one SYNC_START goes to each peer in order, with the level and the clock at its own instant; otherwise nothing is sent |
| SyncEffects.TimersRemember | peer-time-sync/messages.c:574-580 | a round remembers whom it asked and when, and the next is due 5 s later; otherwise nothing but level and offset can change |
| Handshake.RoundSends | peer-time-sync/messages.c:562-580 | a round of SYNC_START in a run puts its messages in flight and keeps level and offset |
| Handshake.ExchangeSucceeds | peer-time-sync/messages.c:361-581 | progress over any run: a SYNC_START that opens an exchange, its request back within 5 ms and its response leave the client one level below the server, with the server as its source and half of T2 - T1 + T3 - T4 as its offset, whatever else happens in the network |
| Peers.LessIsTotal | peer-time-sync/peers.cpp:31-38 | the comparison of addresses is a strict total order and addresses it cannot order are equal |
| Peers.LessIsLexicographic | peer-time-sync/peers.cpp:31-38 | on a little-endian host the bytes of the address decide from the last to the first, then the port |
| Peers.InsertOrdered | peer-time-sync/peers.cpp:98-113 | inserting a new address keeps the set strictly ordered |
| Peers.OrderedHasNoDuplicates | peer-time-sync/peers.cpp:40-40 | a list so ordered holds no address twice |
| Peers.OthersKeep | peer-time-sync/peers.cpp:74-91 | the peers without source and destination are ordered and exactly the other members |
| Peers.IsSrcAddr | peer-time-sync/peers.cpp:46-55 | the loop finds the address exactly when it is in the array |
| Peers.PeerList.constructor | peer-time-sync/peers.cpp:60-67 | a new list is empty |
| Peers.AddedExactly | peer-time-sync/peers.cpp:98-112 | exactly the new address joins the list, unless it holds 65535 |
| Peers.PeerList.Add | peer-time-sync/peers.cpp:98-113 | 1, 0 or -1 for added, present or full; the new contents; order and capacity are kept |
| Peers.PeerList.Remove | peer-time-sync/peers.cpp:115-123 | exactly that address is gone |
| Peers.PeerList.CopyFrom | peer-time-sync/peers.cpp:162-167 | the destination gets the contents of the source |
| Peers.PeerList.Count | peer-time-sync/peers.cpp:69-72 | the 16-bit count is the number of peers |
| Peers.PeerList.CountExcl | peer-time-sync/peers.cpp:74-91 | the 16-bit counter is the number of other peers: it cannot wrap |
| Peers.PeerList.WriteToBufExcl | peer-time-sync/peers.cpp:125-160 | true exactly when the records fill the given size, then the buffer holds them in order; nothing outside the range is written |
| Peers.WriteUnlessExcluded | peer-time-sync/peers.cpp:133-153 | one peer: skipped, written, or refused for lack of space, with everything else untouched |
| Peers.WriteRecord | peer-time-sync/peers.cpp:148-152 | appends length, address and port and touches nothing else before or after |
| Peers.PeerList.IteratorBegin | peer-time-sync/peers.cpp:169-173 | starts at the first peer, false on an empty list |
| Peers.PeerList.IteratorNext | peer-time-sync/peers.cpp:175-180 | steps to the next peer, false at the end |
| Peers.PeerList.Walk | peer-time-sync/messages.c:565-572 | the do-while walk visits every peer once, in order |
| Discovery.ReplyReadsBack | peer-time-sync/messages.c:92-115 | encoding a list and reading its records gives the list back |
| Discovery.ReplyHeader | peer-time-sync/messages.c:92-115 | length, type 2 and number of peers in network order |
| Discovery.ReplyLayout | peer-time-sync/messages.c:92-115 | the seven bytes of each peer: the length 4, the address, the port in network order |
| Discovery.ReplyLanguage | peer-time-sync/messages.c:187-246 | exactly which replies are accepted and which peers they list: a count and that many records, none of port zero, of the sender or of the receiver |
| Discovery.HelloReplyRoundTrip | peer-time-sync/messages.c:187-246 | a HELLO_REPLY lists exactly the other peers in order and without duplicates, and the check accepts it exactly when no port is zero and no address of the receiver is listed |
| Discovery.SingleAddressAccepts | peer-time-sync/messages.c:217-243 | a receiver with one address accepts every reply sent to it by a peer whose ports are real |
| Discovery.ReplyTellsThePeers | peer-time-sync/messages.c:248-283 | the receiver of a reply, waiting for nobody yet, ends up waiting for exactly the other peers of the sender |
| Discovery.AddedToNothing | peer-time-sync/messages.c:267-280 | the addresses of a reply added one by one to an empty list give the list sent |
| Discovery.Node.constructor | peer-time-sync/main.c:24-35 | both lists start empty |
| Discovery.Node.CreateHelloReply | peer-time-sync/messages.c:92-115 | 0 when 3 + 7 * count reaches 65536, otherwise that length with the encoded list in the buffer; both passes agree, so the branch for an incorrect message is dead |
| Discovery.Node.HandleHello | peer-time-sync/messages.c:159-184 | the reply and the list after a HELLO, all refusals included; no list ever holds an own address |
| Discovery.Node.CheckHelloReply | peer-time-sync/messages.c:187-246 | the checking loop accepts exactly the acceptable replies of the known peer |
| Discovery.Node.HandleHelloReply | peer-time-sync/messages.c:248-283 | CONNECT goes to exactly the listed addresses in order, which are then awaited; a refused reply changes nothing |
| Discovery.Node.HandleConnect | peer-time-sync/messages.c:285-311 | acknowledges and adds exactly foreign senders for which there is room |
| Discovery.Node.HandleAckConnect | peer-time-sync/messages.c:313-340 | moves exactly an awaited sender for which there is room to the list of peers |
| Greedy.FirstMax | the-great-approximator/client_logic.cpp:435-436 | the first of the largest squared differences |
| Greedy.BestPut | the-great-approximator/client_logic.cpp:422-442 | the put is within the points allowed and within [-5, 5] |
| Greedy.BestPutExact | the-great-approximator/client_logic.cpp:422-442 | the first allowed point at which the value is furthest off, and the difference there cut to [-5, 5] |
| Greedy.GainMonotone | the-great-approximator/client_logic.cpp:435-441 | the error a clamped put removes grows with the difference |
| Greedy.Exchange | the-great-approximator/client_logic.cpp:422-442 | in any plan of cuts one may start at the largest difference without losing |
| Greedy.StartGreedily | the-great-approximator/client_logic.cpp:422-442 | any plan is no better than a greedy step followed by some plan of the rest |
| Greedy.GreedyBeatsCuts | the-great-approximator/client_logic.cpp:422-442 | n greedy steps leave no more error than any n cuts |
| Greedy.PlanAtBestCuts | the-great-approximator/client_logic.cpp:438-440 | a plan of puts with any values leaves no less error than cuts at the same points |
| Greedy.GreedyIsOptimal | the-great-approximator/client_logic.cpp:422-442 | from any differences and for every n, n calls of get_best_put leave a sum of squares no larger than any n legal puts |
| Greedy.AutoIsOptimal | the-great-approximator/client_logic.cpp:422-442 | with only points 0 and 1 open to the first put, the strategy is still optimal among plans whose first put is there |
| Greedy.PutsNeededIsCeiling | the-great-approximator/client_logic.cpp:438-438 | the puts one point needs are the ceiling of |difference| / 5 |
| Greedy.PutLowersWork | the-great-approximator/client_logic.cpp:422-442 | no put lowers the total of puts needed by more than one |
| Greedy.GreedyLowersWork | the-great-approximator/client_logic.cpp:422-442 | while some difference is not zero, a greedy put lowers the total by exactly one |
| Greedy.NoErrorMeansExact | the-great-approximator/client_logic.cpp:422-442 | no error is left exactly when no put is needed |
| Greedy.WorkOfGreedyRun | the-great-approximator/client_logic.cpp:422-442 | after n greedy puts the total is lower by n, or zero |
| Greedy.GreedyIsFastest | the-great-approximator/client_logic.cpp:422-442 | the error is zero after exactly that many greedy puts and no other plan gets there sooner |
| Poly.PlayerPolyAt | the-great-approximator/server_logic.cpp:290-298 | the loop computes the polynomial |
| Poly.PolyAt | the-great-approximator/client_logic.cpp:444-453 | the loop computes the polynomial with powers wrapped to 32 bits |
| Poly.ValuesAgree | the-great-approximator/client_logic.cpp:444-453 | both agree at x when x^N fits an int; the last, unused power may wrap |
| Poly.ClientEvaluatesExactly | the-great-approximator/client_logic.cpp:444-453 | the client is right on all polynomials of degree n at x exactly when x^n fits an int |
| Poly.ClientWrongAt15 | the-great-approximator/client_logic.cpp:444-453 | a polynomial of degree 8 the client evaluates wrongly at 15 |
| Poly.ValueIsHorner | the-great-approximator/server_logic.cpp:290-298 | the sum of powers is the value by the rule of Horner |
| AutoClient.ClientLogic.constructor | the-great-approximator/client_logic.cpp:25-38 | nothing received, one put awaited |
| AutoClient.ClientLogic.IncrementPutsWithoutAnswer | the-great-approximator/client_logic.cpp:386-389 | counts the put |
| AutoClient.ClientLogic.DecrementPutsWithoutAnswer | the-great-approximator/client_logic.cpp:391-401 | counts down if there is one and says so |
| AutoClient.ClientLogic.ProcessCoeffMessage | the-great-approximator/client_logic.cpp:309-335 | the client after COEFF, with both vectors of size two and the values at 0 and 1 |
| AutoClient.ClientLogic.ProcessStateMessage | the-great-approximator/client_logic.cpp:346-370 | the client after STATE: the first one reveals K, extends the approximation by zeros and fills the real values by a loop |
| AutoClient.ClientLogic.ProcessMessage | the-great-approximator/client_logic.cpp:254-302 | the client after any message, the fatal first message included |
| AutoClient.ClientLogic.ClaimPut | the-great-approximator/client_logic.cpp:162-166 | the strategy claims a put exactly when none is awaited, even when the game ends while it waits |
| AutoClient.ClientLogic.SquaredDifferences | the-great-approximator/client_logic.cpp:427-433 | std::transform over the points allowed |
| AutoClient.MaxElement | the-great-approximator/client_logic.cpp:435-436 | std::max_element: the first maximum |
| AutoClient.ClientLogic.BestPutNow | the-great-approximator/client_logic.cpp:422-442 | the put of the greedy strategy, added in place to current_approximation |
| Events.InsertSorted | the-great-approximator/server_events.cpp:7-10 | inserting keeps the queue ordered by deadline |
| Events.InsertLast | the-great-approximator/server_events.cpp:7-10 | a new event comes after all with the same deadline |
| Events.SelectInsert | the-great-approximator/server_events.cpp:7-10 | inserting an event and looking only at the events of one player commute, so no other event disturbs the order of its replies |
| Events.EventManager.AddEvent | the-great-approximator/server_events.cpp:7-10 | the queue with the event inserted |
| Events.EventManager.EraseFirst | the-great-approximator/server_events.cpp:16-16 | the queue without its first event |
| Events.EventManager.Reset | the-great-approximator/server_events.cpp:20-22 | the empty queue |
| Server.ToleranceVanishes | the-great-approximator/server_logic.cpp:171-173 | on the lattice the range check with its tolerance accepts exactly points 0..K and values in [-5, 5] |
| Server.ServerLogic.constructor | the-great-approximator/server_logic.cpp:20-22 | no players, nothing counted, not stopping |
| Server.ServerLogic.HandleNewConnection | the-great-approximator/approx-server.cpp:62-89 | a registered player with zeros and a hello timeout in three seconds |
| Server.ServerLogic.RegisterNewClient | the-great-approximator/server_logic.cpp:28-44 | the fresh player under its descriptor |
| Server.ServerLogic.HandleClientDisconnect | the-great-approximator/server_logic.cpp:101-105 | the player and its counted puts are gone |
| Server.ServerLogic.AppendMessageBack | the-great-approximator/server_logic.cpp:76-79 | one more message for that player |
| Server.ServerLogic.TakeNextMessage | the-great-approximator/server_logic.cpp:64-69 | the first message not yet taken |
| Server.ServerLogic.HandleHello | the-great-approximator/server_logic.cpp:118-151 | the server after a HELLO: a known player is refused, an unknown one gets its id, delay, coefficients and the raw line as COEFF |
| Server.ServerLogic.RespondWithPenalty | the-great-approximator/server_logic.cpp:204-210 | 20 points, PENALTY queued at once, permission to put |
| Server.ServerLogic.RespondWithBadPut | the-great-approximator/server_logic.cpp:212-230 | 10 points at once, BAD_PUT scheduled in a second |
| Server.ServerLogic.RespondWithState | the-great-approximator/server_logic.cpp:232-250 | STATE scheduled after the delay of the player |
| Server.ServerLogic.HandlePut | the-great-approximator/server_logic.cpp:153-202 | the server after any put: early, out of range, both, accepted, or the last of the game |
| Server.ServerLogic.AcceptPut | the-great-approximator/server_logic.cpp:184-199 | counts and applies the put, schedules STATE and ends the game at M |
| Server.ServerLogic.HandleClientMessage | the-great-approximator/server_logic.cpp:107-116 | dispatch; anything but HELLO and PUT is refused |
| Server.ServerLogic.CalculateScore | the-great-approximator/server_logic.cpp:280-288 | the loop computes the squared error plus the penalty |
| Server.ServerLogic.CollectScores | the-great-approximator/server_logic.cpp:258-266 | ids and scores of the known players in descriptor order |
| Server.ServerLogic.SendToKnown | the-great-approximator/server_logic.cpp:269-273 | the message goes to exactly the known players |
| Server.ServerLogic.SendScoringMessages | the-great-approximator/server_logic.cpp:257-278 | one SCORING with the sorted rows for every known player |
| Server.ServerLogic.GameOver | the-great-approximator/server_logic.cpp:252-255 | scores sent and stopping |
| Server.ServerLogic.Call | the-great-approximator/server_logic.cpp:219-228 | a callback acts only for the connection it was made for |
| Server.ServerLogic.CheckTimers | the-great-approximator/server_events.cpp:12-18 | the loop fires every due event, earliest first, those of equal deadlines in order |
| Server.ServerLogic.Reset | the-great-approximator/server_logic.cpp:300-305 | a new game |
| Rows.SortSorts | the-great-approximator/msg_parser.cpp:366-371 | the rows of SCORING are the ordered permutation |
| Rows.StringOrder | the-great-approximator/msg_parser.cpp:371 | a proper prefix comes first, otherwise the characters at the first difference decide |
| Descriptors.Ascending | the-great-approximator/server_logic.cpp:261-261 | the players are visited once each in ascending descriptor order |
| ServerRuns.LocalMoveKeeps | the-great-approximator/server_logic.cpp:107-250 | a move that concerns one player keeps what holds of all the others and of the queue |
| ServerRuns.RefusedKeeps | the-great-approximator/server_logic.cpp:162-182 | a refused put keeps the invariant, also when it is early and out of range and leaves two events pending |
| ServerRuns.AcceptedKeeps | the-great-approximator/server_logic.cpp:184-201 | an accepted put keeps the invariant |
| ServerRuns.AnnounceKeeps | the-great-approximator/server_logic.cpp:269-273 | announcing the scores keeps the invariant |
| ServerRuns.DisconnectKeeps | the-great-approximator/server_logic.cpp:101-105 | a disconnection keeps the invariant |
| ServerRuns.ConnectKeeps | the-great-approximator/approx-server.cpp:62-89 | a registration keeps the invariant |
| ServerRuns.MessageKeeps | the-great-approximator/server_logic.cpp:107-116 | every message keeps the invariant |
| ServerRuns.FireKeeps | the-great-approximator/server_events.cpp:14-17 | every callback keeps the invariant |
| ServerRuns.StepKeeps | the-great-approximator/approx-server.cpp:218-271 | every step of the main loop keeps the invariant |
| ServerRuns.AcceptedPut | the-great-approximator/server_logic.cpp:184-201 | an accepted put counts, applies and schedules, and ends the game exactly when the total reaches M |
| ServerRuns.PenaltyAccounting | the-great-approximator/server_logic.cpp:204-230 | in every run a penalty is 20 per PENALTY queued and 10 per BAD_PUT queued or pending, and the score is the squared error plus exactly that |
| ServerRuns.StateOrder | the-great-approximator/server_logic.cpp:184-195 | in every run the approximation is the sum of the accepted puts at each point, and the STATE messages queued and pending are the snapshots after the first, second, ... accepted put, in order |
| Wakeups.TimersWakeUp | the-great-approximator/server_events.cpp:12-18 | checking the timers when any pending reply to a known player is due leaves that player able to put |
| Wakeups.WaitBegins | the-great-approximator/server_logic.cpp:157-195 | a known player loses the permission to put only by a put of its own, and that step schedules the reply to it |
| Wakeups.StillWaits | the-great-approximator/server_logic.cpp:124-250 | any step after which the player still waits has left the pending reply where it was |
| Wakeups.NobodyIsStuck | the-great-approximator/server_logic.cpp:153-250 | in every run, connections that come back under the same identity included, a known player that may not put is waiting since one of its own puts, and the reply to that very put is pending for its connection and id, due exactly the delay of that reply after the put, however often it puts meanwhile; a timer check from then on lets it put |
| ServerRuns.RepliesOnTime | the-great-approximator/server_logic.cpp:212-250 | in every run the pending STATE and BAD_PUT replies are those of the last puts that scheduled one, each due its delay after its put |
| Scores.EndGameAnnounces | the-great-approximator/server_logic.cpp:252-278 | the end of the game queues, last of all for each known player, one SCORING with exactly one row for each known player, of its id, squared error and penalty, in order |
| Totals.GamesAreServerRuns | the-great-approximator/approx-server.cpp:218-271 | runs with fresh connections are among the runs in which a connection may come back |
| Totals.EndGameSound | the-great-approximator/server_logic.cpp:252-278 | announcing the scores changes no count |
| Totals.StepSound | the-great-approximator/approx-server.cpp:218-271 | every step of the main loop keeps the total right and the vectors at their sizes |
| Totals.Conservation | the-great-approximator/server_logic.cpp:184-199 | in every run, connections that reuse a descriptor, address and port included, the total equals the counted puts of the connected players, never exceeds M, and the server is stopping exactly when it equals M |
| Totals.NewGameBegins | the-great-approximator/approx-server.cpp:218-271 | a new game begins as the first one did |
| Players.DelayIsLetters | the-great-approximator/server_logic.cpp:126-127 | the delay counts the lower-case letters of the id |
| Players.Expected | the-great-approximator/server_logic.cpp:107-182 | exactly which messages are not reported as bad, with the range of a put in lattice units |
| Players.StepPlayer | the-great-approximator/approx-server.cpp:218-271 | a step leaves a client who it is, continues its queue and, unless the timers are checked, queues no STATE or BAD_PUT; HELLO introduces it |
| Players.StepAppears | the-great-approximator/server_logic.cpp:22-44 | only a connection adds a client, unknown, with nothing queued and everything zero |
| Players.KnownSince | the-great-approximator/server_logic.cpp:118-151 | in every run a known player has the id of its own HELLO, as delay the number of lower-case letters in it, and the coefficients of the line it was sent |
| Deadlines.TimersTakeDue | the-great-approximator/server_events.cpp:12-18 | a check of the timers takes away exactly the events that are due and leaves the others in order |
| Deadlines.NothingDue | the-great-approximator/server_events.cpp:12-18 | before the first deadline a check of the timers changes nothing at all |
| Deadlines.EventsAreSet | the-great-approximator/server_logic.cpp:214-250 | in every run each pending event was set by its step: a connection 3 s, a refused put 1 s, an accepted put the delay of its player before the deadline |
| Deadlines.RepliesNeverEarly | the-great-approximator/server_events.cpp:12-18 | in every run each STATE and BAD_PUT ever queued was queued by a check of the timers and answers a put of the same connection and id at least 1 s, or as many seconds as the id has lower-case letters, before |
| Deadlines.DroppedOnTime | the-great-approximator/approx-server.cpp:60-90 | a check of the timers drops only unknown clients, at least 3 s after a connection with that identity |
| Deadlines.TimeoutPending | the-great-approximator/approx-server.cpp:60-90 | in every run a client that is still unknown has its timeout pending, due 3 s after its own connection |
| Deadlines.SilentClientsGo | the-great-approximator/approx-server.cpp:60-90 | such a client is gone after the first check of the timers from then on |
| Scores.ScoreIsFinal | the-great-approximator/server_logic.cpp:280-298 | the score is the sum of squared distances at the points 0 to K and the penalty, in units of 10^-14 |
| Scores.ScoresAnnounced | the-great-approximator/server_logic.cpp:252-278 | in every run, once the game is over, each known player has been sent, last of all, the score of every known player |
| Scores.ScoreAccountsForAll | the-great-approximator/server_logic.cpp:252-298 | the score announced for a player is the squared error of the sums of its accepted puts, 20 for each PENALTY and 10 for each BAD_PUT queued or pending |
| ServerRuns.CountedPutsSplit | the-great-approximator/server_logic.cpp:101-105 | the counted puts do not depend on the order in which players are summed |
| Session.ChooseAgrees | the-great-approximator/client_logic.cpp:422-442 | on the numbers of the client get_best_put makes the next put of the strategy |
| Session.RealsFit | the-great-approximator/client_logic.cpp:357-361 | when K^N fits an int, the values the client computes at the points it reads are those of the polynomial |
| Session.PutAgrees | the-great-approximator/server_logic.cpp:184-186 | accepting the outstanding put makes the numbers of client and server agree without it |
| Session.HandleCoeff | the-great-approximator/client_logic.cpp:309-335 | processing COEFF moves the protocol from its greeting to idle |
| Session.HandleState | the-great-approximator/client_logic.cpp:346-370 | processing STATE moves the protocol from an answered put to idle |
| Session.ScoringArrives | the-great-approximator/server_logic.cpp:257-278 | the end of the game may come at any point of the protocol |
| Session.HandleMove | the-great-approximator/client_logic.cpp:254-302 | processing any message keeps client and server linked |
| Session.ReadMove | the-great-approximator/approx-server.cpp:107-131 | the server reading any message of this client keeps them linked |
| Session.FireMove | the-great-approximator/server_events.cpp:14-17 | a timer, for this client or another, keeps them linked |
| Session.OtherMove | the-great-approximator/server_logic.cpp:107-250 | what other clients do keeps them linked |
| Session.MoveKeeps | the-great-approximator/approx-server.cpp:218-271 | every move of client, server and other clients keeps them linked |
| Session.ClientAndServerAgree | the-great-approximator/client_logic.cpp:162-442 | in every interleaving the client gets no PENALTY or BAD_PUT, never reads beyond its vectors, and its approximation is that of the server plus the at most one put not yet processed |
| Session.AutoPlayerIsOptimal | the-great-approximator/server_logic.cpp:280-298 | at any time, so at the end of the game, a player with n accepted puts has penalty 0 and the least score any n legal puts with the first at point 0 or 1 could reach |
| ClientRuns.AgainstAnyServer | the-great-approximator/client_logic.cpp:247-302 | against any server the client gives up exactly when its first message is not COEFF, ends exactly with SCORING, knows coefficients and K from COEFF and the first STATE, and never claims a put before the one before is answered |
| ClientRuns.PutsWhenAnswered | the-great-approximator/client_logic.cpp:162-170 | while the server answers only its puts, the client may put exactly when all of them are answered |
| Outcome.OptimalScoreAnnounced | the-great-approximator/server_logic.cpp:252-298 | once the game is over, the SCORING sent to an automatic player gives it its squared error alone, no more than as many legal puts with the first at point 0 or 1 could reach |
| Outcome.OptimalScoreOverNetwork | the-great-approximator/server_logic.cpp:252-298 | the same with both programs connected by the text protocol |
| Decimals.ScanReadsBack | the-great-approximator/msg_parser.cpp:49-86 | a text has one reading as sign, digits, point and digits |
| Decimals.IsValidDoubleStringFormat | the-great-approximator/msg_parser.cpp:49-86 | the two-loop scanner accepts exactly the texts whose parts are valid |
| Decimals.ParseDoubleReadsDecimals | the-great-approximator/msg_parser.cpp:88-98 | accepted are exactly an optional minus, digits, an optional point and at most seven digits with at least one digit in all, and the value is the number written |
| Decimals.ParseIntegerReadsDecimals | the-great-approximator/msg_parser.cpp:17-47 | integers are exactly the doubles without a point that fit 32 bits, with the same value |
| Decimals.DoubleRoundTrip | the-great-approximator/msg_parser.cpp:203-207 | every lattice number is parsed back from its text |
| Decimals.IntegerRoundTrip | the-great-approximator/msg_parser.cpp:31-47 | an integer is parsed back exactly when it fits 32 bits |
| Decimals.DoubleLanguage | the-great-approximator/msg_parser.cpp:49-86 | the accepted doubles: after an optional minus sign digits and at most one point, at least one digit and at most seven behind the point |
| Decimals.TrailingZeros | the-great-approximator/msg_parser.cpp:88-98 | a zero at the end of the fraction does not change the number read |
| Decimals.PrintedShape | the-great-approximator/msg_parser.cpp:203-207 | sign, digits without superfluous zeros, a point and exactly seven digits |
| Params.SplitParams | the-great-approximator/msg_parser.cpp:121-140 | the method with its extraction loop computes Split |
| Params.SplitLanguage | the-great-approximator/msg_parser.cpp:127-139 | a non-empty text is split exactly when it is words over the alphabet joined by single spaces, and joining the result gives it back |
| Params.CommandLanguage | the-great-approximator/msg_parser.cpp:100-119 | a line is cut exactly into a command without spaces and non-empty or absent parameters |
| Params.CutLanguage | the-great-approximator/msg_parser.cpp:142-156 | printing a command with words and cutting the line undo each other, both ways |
| Messages.ParamsReadBack | the-great-approximator/msg_parser.cpp:213-312 | for each type the parser of the parameters undoes the printer |
| Messages.RoundTrip | the-great-approximator/msg_parser.cpp:314-382 | every valid HELLO, COEFF, PUT, BAD_PUT, STATE, PENALTY and SCORING is read back from its text, SCORING sorted, the empty list included |
| Messages.ParsedIsValid | the-great-approximator/msg_parser.cpp:142-188 | whatever the parser accepts is valid |
| Messages.FactoryExact | the-great-approximator/msg_parser.cpp:314-382 | a factory yields its message exactly when the contents are valid |
| Grammar.LineLanguage | the-great-approximator/msg_parser.cpp:100-312 | exactly which lines are which message: name, words after one space each, CRLF; number of words, ranges and alphabets |
| Grammar.TextLayout | the-great-approximator/msg_parser.cpp:314-382 | what the factories print: the name, the contents after one space each, every double with seven digits, SCORING in order, CRLF |
| MessageLoops.ParseCoeff | the-great-approximator/msg_parser.cpp:225-248 | the loop accepts exactly 1 to 9 numbers within [-100, 100] and returns them |
| MessageLoops.ParseState | the-great-approximator/msg_parser.cpp:260-279 | the loop accepts exactly 1 to 10001 numbers and returns them |
| MessageLoops.ParseRow | the-great-approximator/msg_parser.cpp:300-309 | one alphanumeric id and one number |
| MessageLoops.ParseScoring | the-great-approximator/msg_parser.cpp:286-312 | the loop accepts exactly pairs of an alphanumeric id and a number |
| MessageLoops.CreateMessage | the-great-approximator/msg_parser.cpp:142-188 | the whole parser |
| MessageLoops.CoeffLine | the-great-approximator/msg_parser.cpp:323-328 | the loop and pop_back build the text of COEFF |
| MessageLoops.CreateCoeff | the-great-approximator/msg_parser.cpp:318-329 | the COEFF factory, null on an empty list |
| MessageLoops.StateLine | the-great-approximator/msg_parser.cpp:346-352 | the loop and pop_back build the text of STATE |
| MessageLoops.CreateState | the-great-approximator/msg_parser.cpp:340-353 | the STATE factory, null on an empty list |
| MessageLoops.ScoringLine | the-great-approximator/msg_parser.cpp:374-381 | the loop and pop_back build the text of SCORING, "SCORING" alone for no rows |
| MessageLoops.CreateScoring | the-great-approximator/msg_parser.cpp:360-382 | the SCORING factory, null on lists of different lengths |
| Framing.FrameUnique | the-great-approximator/client_logic.cpp:184-187 | a buffer has exactly one reading as CRLF-terminated lines followed by a text without CRLF |
| Framing.FrameInChunks | the-great-approximator/client_logic.cpp:181-205 | cutting after each chunk gives the same lines as cutting at once, a CRLF split between chunks included |
| Framing.LinesReadBack | the-great-approximator/client_logic.cpp:184-187 | a stream of lines is cut into these lines with nothing left |
| Framing.ClientBuffer.constructor | the-great-approximator/approx-server.cpp:65-65 | an empty buffer |
| Framing.ClientBuffer.HandleRead | the-great-approximator/approx-server.cpp:106-131 | the loop hands over the lines in order, up to the one it stops at, and keeps every other byte |
| Channel.Outbox.constructor | the-great-approximator/server_logic.cpp:34-34 | an empty queue of messages |
| Channel.Outbox.AppendBack | the-great-approximator/server_logic.cpp:76-79 | the message comes last |
| Channel.Outbox.AppendFront | the-great-approximator/server_logic.cpp:71-74 | the message comes first |
| Channel.Outbox.TakeNext | the-great-approximator/server_logic.cpp:64-69 | the first message leaves the queue |
| Channel.Outbox.HandleWrite | the-great-approximator/approx-server.cpp:137-169 | a partial send leaves the rest at the front: what is sent and what stays is what was queued |
| Channel.Receiver.constructor | the-great-approximator/client_logic.cpp:172-175 | an empty buffer and no message yet |
| Channel.WriteKeepsBytes | the-great-approximator/approx-server.cpp:146-166 | a partial send loses, repeats and reorders no byte |
| Channel.Receiver.Receive | the-great-approximator/client_logic.cpp:181-205 | the loop over a chunk: lines parsed in order, a bad first line fatal, later ones skipped, the rest kept |
| Channel.LinesArrive | the-great-approximator/approx-server.cpp:137-169 | for every pattern of sends and chunks the lines cut are a prefix of the lines queued, and all of them when the connection runs dry |
| Channel.TextIsLine | the-great-approximator/msg_parser.cpp:314-382 | every text a factory prints holds one CRLF, at its end |
| Channel.AcceptedIsLine | the-great-approximator/msg_parser.cpp:142-188 | every text the parser accepts, printed by a factory or not, is one line |
| Channel.TakeLinesAppend | the-great-approximator/client_logic.cpp:181-205 | lines may reach the client in any number of batches |
| Channel.MessagesArrive | the-great-approximator/client_logic.cpp:181-205 | end to end, whatever accepted lines are queued, the messages parsed are a prefix of those queued, in order and with equal contents, and all of them when the connection runs dry |
| Channel.LinesUnderstood | the-great-approximator/client_logic.cpp:188-205 | whatever lines come, the client gives up exactly when the first is not a message, and otherwise gets all messages among them in order and skips the rest |
| Delivery.ParsedRequestOk | the-great-approximator/server_logic.cpp:107-116 | whatever the parser accepts is a request the server can take |
| Delivery.ReplyReadsBack | the-great-approximator/server_logic.cpp:139-149 | the line queued for a reply, the raw line of the file for COEFF and the printed message for any other, is read back as that reply, the scores of SCORING rounded |
| Delivery.RefusedKeeps | the-great-approximator/server_logic.cpp:162-178 | PENALTY and BAD_PUT carry points that can be printed and read back |
| Delivery.AdvancedKeeps | the-great-approximator/server_logic.cpp:184-195 | STATE carries as many values as its parser takes |
| Delivery.EndGameKeeps | the-great-approximator/server_logic.cpp:252-278 | SCORING carries ids its parser takes |
| Delivery.StepKeeps | the-great-approximator/approx-server.cpp:218-271 | every step of the server queues and schedules only readable replies |
| Delivery.RepliesArrive | the-great-approximator/approx-server.cpp:137-169 | in every game and over every connection the client parses a prefix of the replies the server queued for it, in order and with equal contents |
| Network.RequestArrives | the-great-approximator/approx-server.cpp:107-116 | each line the server cuts is parsed as the request the client sent at that place |
| Network.RepliesParsed | the-great-approximator/client_logic.cpp:188-205 | what the client has parsed are the first replies the server has taken from its queue |
| Network.MoveRefines | the-great-approximator/client_logic.cpp:172-294 | every move over the two connections is a move of the session, or moves only bytes and changes nothing the session sees |
| Network.MoveKeeps | the-great-approximator/approx-server.cpp:92-169 | every move keeps what the connections carry equal to what was sent and taken |
| Network.RunsAreSessions | the-great-approximator/client_logic.cpp:162-442 | every run of client and server over two connections, with partial sends, arbitrary chunks and texts in both directions, is a session |
| Network.AgreementOverNetwork | the-great-approximator/client_logic.cpp:162-442 | over the network the server handles the requests of the client in order and unchanged, the client parses the replies in order, none of them PENALTY or BAD_PUT, and both agree up to the put on its way |
| Network.OptimalOverNetwork | the-great-approximator/server_logic.cpp:280-298 | over the network the automatic player has penalty 0 and the least score that as many legal puts with the first at point 0 or 1 could reach |
| Network.RequestsArrive | the-great-approximator/approx-server.cpp:107-116 | the accepted lines of any client reach the server as the same requests, a prefix of them in order, and all once the connection runs dry |

## Left out

- IEEE rounding, infinities, negative zero and numbers too large for a double: the lattice is exact. Scores are rounded to seven digits only when SCORING is printed; `Delivery` takes that rounding as a parameter.
- SyncNetwork.ClocksAgree: does not model drift, duplicated datagrams, peers that do not run this code or several leaders: the runs exclude them. A new offset is taken to fit 64 bits.
- SyncExchange.OneOpenExchange: says nothing about an exchange ever closing, because the program never reads its deadline; liveness of synchronisation is not claimed.
- SyncExchange: a node has one address and its peer list may change at any time; how `Discovery` changes it is modelled separately. The byte layout of SYNC_START, DELAY_REQUEST, DELAY_RESPONSE and TIME, GET_TIME itself and message lengths other than those of discovery are not modelled.
- Peers.PeerList.IteratorNext: the iterator is a position in the list; the program never changes a list while it walks it, and iterators across insertions are not modelled.
- Peers.PeerList.Add: the balanced tree of std::set is represented by its ordered elements; addresses are compared as on a little-endian host.
- Server.ServerLogic.TakeNextMessage: the deque is everything ever queued and a count of what was taken; the remainder of a partial send that goes back to the front is modelled in `Channel`.
- Server.ServerLogic.HandleHello: the line of the coefficient file is a parameter, raw and with its numbers; opening and reading the file is left out, and `Delivery` takes it that the line is a COEFF message, since the server gives up on any other.
- Session.ClientAndServerAgree: follows one connection whose identity is not reused, until it ends or the game is reset; the callbacks recognise a client by descriptor, address, port and id only.
- Framing.ClientBuffer.HandleRead: the reasons for leaving the loop, an unknown client or the end of the game, are the parameter `last`; disconnecting is one atomic step of `ServerRuns` and the adjustment of poll_fds is not modelled.
- Channel.LinesArrive: a send that fails ends the connection, so it ends the run; the last, possibly partial, sends of reset_server before the connection is closed are such an end. The client's network_sender, which writes one message until it is all sent, is the same queue with the same partial sends.
- Network.AgreementOverNetwork: the server may take the next message for a client while a part of the one before is still unsent, and cut lines before it handles them; both allow more runs than the program has.
- Sockets, poll, name resolution, errno, argument parsing, logging, exit codes and the manual strategy.
- ThreadSafeQueue, mutexes and condition variables: queues are atomic and threads are interleaved steps.
