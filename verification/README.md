# Verified models of InferenceMesh

InferenceMesh runs a transformer over a peer-to-peer network: peers announce the blocks they
serve, a client plans a route, requests travel hop by hop along a chain of workers, and a worker
computes attention over a key/value cache whose memory is accounted for. This project models the
parts of it whose correctness is not visible in any one function, and proves them in Dafny 4.11.
`dafny verify dfyconfig.toml` checks everything.

**Planning.** `SpanTable` folds per-block server tables into one span per peer. The order in which
a hash map yields the servers is left open; the result is still a function of the input, and has a
closed form. `Itineraries` says, without any graph, what a journey of a request through the blocks
is and what it costs. `PlannerGraph` builds the planner's graph and proves that its paths are
exactly the itineraries; `ShortestPath` is Dijkstra's search with heap keys truncated to whole
nanoseconds and an untruncated distance table; `Planner` puts them together and rebuilds the route
from `prev`. `GreedyPlanner` is the alternative planner. Costs are exact reals, so that the
truncated keys behave as integer weights, and the real latency of the result is within a nanosecond
a hop of the best. `Latencies` says in plain numbers what journeys cost, and `SpanWindows` what announcements
make of spans.

**Choosing blocks.** `BlockSelection` sums throughputs over servers in any order and scans the
windows of blocks; the window found has a closed form.

**Forwarding.** `Forwarding` has the worker's handlers as a class proved against functions of the
state, and a world of any number of clients and workers whose requests, responses and failures
interleave freely. An entry of the table of exchanges stands for an outbound id and for the response
channel that comes with the request. Responses are shown to reach their own clients although
all requests carry the same id, workers are shared, and routes revisit them. A forwarding worker
passes the tensor on unchanged and only the last peer of a chain computes, with its own layers.
`ChainOfLayers` says when that is what the hops of the chain would compute one after the other, and
`FailedHops` that a failed hop reaches the client as a response.

**Streaming client.** `StreamClient` has the event loop's handlers in the same way, composed with
the producer that waits for an answer before it sends the next payload. A reply of a worker whose
downstream request failed counts as an ordinary response, as in the code, and nothing keeps a
failover from choosing the same peer again. `StreamRetries` says what failures do over whole runs, and
`StreamLiveness` that the runs wanted exist: every payload can be answered, after up to three failures.

**Attention.** `Attention` models a block's forward pass through its reshapes, transposes and
repetitions as nested sequences over exact reals. Projections, norms, the MLP, the rotation and `exp`
are parameters, of which only `exp > 0` is used; the scale is a nonzero parameter. A mask entry is minus infinity or zero, and the
weight of minus infinity is zero. `KvCache` proves incremental decoding equal to a full pass, through
any stack of blocks and for any cut into chunks. `BatchElements` proves that batch elements are
independent, `Rope` that rotary embedding makes attention relative, `ModelConfig` when the
configured head counts fit, `AttentionLaws` says in plain terms what a block computes, and `Engine` is the layer loop of the terminal hop.

**Memory.** `MemoryAccounting` gives every atomic step of `allocate` and `free` to any number of
threads and interleaves them; `MemoryCache` is the accountant's class, each call of which is
a sequence of those steps. `TensorSizes` says what the bytes of a tensor count.

**Provider cache.** `ProviderCache` is the expiring cache, proved to answer as the plain log of
insertions and evictions would, as long as the clock does not run backwards.

Three promises turn out not to hold of the code, and are stated with their exact condition.

- The comment on `dedup_chain` (src/p2p/src/swarm.rs:25-28) calls collapsing repeats correct because
  the terminal hop runs all loaded layers. Clients receive what the hops of their chain compute in
  order, whatever the hops compute, exactly when the collapsed chain is a single hop, that is, when
  the chain is one peer throughout (`ChainOfLayers.ClientsReceiveAllIff`, `ChainOfLayers.OneHopIff`); for
  every other chain, peers that each append a byte are a counterexample.
- The length of a span, which `spans_by_priority` takes, underflows for some announcements
  (`SpanTable.SpanLengthUnderflows`, `SpanTable.SpanLengthIsDefined`).
- The memory limit can be overrun, up to as many times as there are threads
  (`MemoryAccounting.BoundIsReached`): by some run exactly when there are two threads or more and the limit
  is not zero (`MemoryAccounting.SomeRunOverrunsIff`), and from a given state by additions alone
  exactly when sizes that passed the comparison exceed the limit together with the counter
  (`MemoryAccounting.OverrunIff`).

## Model

| member | source | states |
|---|---|---|
| SpanTable.SortedServers | src/p2p/src/sequence_manager.rs:20-22 | every server once, in an order in which the states do not decrease; nothing else about the order is known |
| SpanTable.VisitServer | src/p2p/src/sequence_manager.rs:29-53 | one entry of the table changes, to the specification's visit of that server |
| SpanTable.ComputeSpans | src/p2p/src/sequence_manager.rs:9-58 | for every peer the table holds exactly the span that a fold over the blocks gives, whatever the order of the servers of a block |
| SpanTable.VisitBlock | src/p2p/src/sequence_manager.rs:19-54 | the servers of one block, in any order, take every peer's span one block further |
| SpanTable.SpanExists | src/p2p/src/sequence_manager.rs:24-34 | a peer has a span exactly when it is eligible at some block |
| SpanTable.SpanClosedForm | src/p2p/src/sequence_manager.rs:19-53 | closed form for all inputs: the span runs over the blocks of the peer's highest eligible state, narrowed by exactly those declared ranges that can narrow it, with the announcement of the first such block |
| SpanTable.SpanEndsWithinBlocks | src/p2p/src/sequence_manager.rs:43-53 | no span ends past the known blocks |
| SpanTable.HonestSpan | src/p2p/src/sequence_manager.rs:29-53 | where declared ranges contain the peer's eligible blocks, the span is from the first to one past the last block at its highest eligible state |
| SpanTable.SpanLengthIsDefined | src/p2p/src/sequence_manager.rs:60-65 | the length does not underflow if and only if the declared ranges meet each other and the blocks at the highest state |
| SpanTable.SpanLengthUnderflows | src/p2p/src/sequence_manager.rs:60-65 | a server that declares a range beyond the only block gets a span that ends before it starts |
| SpanWindows.WhichStatesCount | src/p2p/src/sequence_manager.rs:24-41 | online spans are those of peers online at some block; joining peers count where asked for; an online announcement wins over others |
| SpanWindows.DeclaredSpan | src/p2p/src/sequence_manager.rs:43-53 | a range declared at all blocks of a window that starts at block u gives the part of the range inside the window, counted from u |
| SpanWindows.OwnWindow | src/p2p/src/sequence_manager.rs:43-53 | a server that declares exactly the blocks of the window has the whole window as its span |
| SpanWindows.SpansMove | src/p2p/src/sequence_manager.rs:43-53 | adding the same number to the uid and to all declared bounds, within 32 bits, changes no span's start or end |
| SpanTable.SpansContainingBlock | src/p2p/src/sequence_manager.rs:67-80 | at every block, exactly the spans that contain it, in the given order |
| ShortestPath.CostToNanos | src/p2p/src/sequence_manager.rs:88-90 | a non-negative cost lies within one nanosecond above its truncation |
| ShortestPath.NanosOfSum | src/p2p/src/sequence_manager.rs:199-212 | adding a weight to a truncated cost adds the truncated weight, so the heap runs on integers |
| ShortestPath.Pop | src/p2p/src/sequence_manager.rs:92-96 | the heap gives up an entry of least cost |
| ShortestPath.Search | src/p2p/src/sequence_manager.rs:191-219 | the end's distance is finite exactly when there is a path, and truncates to the least sum of truncated weights over all paths; `prev` explains every distance |
| ShortestPath.NoCheaperPath | src/p2p/src/sequence_manager.rs:198-219 | no path to the end has a smaller sum of truncated weights than the end's key; if there is a path the end is reached |
| ShortestPath.FollowPrev | src/p2p/src/sequence_manager.rs:221-227 | following `prev` back terminates and gives, in order, the nodes that a cheapest of all paths enters |
| PlannerGraph.NumberNodes | src/p2p/src/sequence_manager.rs:124-139 | exactly the pairs of a block and a peer hosting it are numbered, one to one |
| PlannerGraph.AddHopArcs | src/p2p/src/sequence_manager.rs:161-188 | every hop that a span offers out of a block becomes an edge, and nothing else does |
| PlannerGraph.BuildGraph | src/p2p/src/sequence_manager.rs:124-189 | the graph holds all arcs between numbered nodes and no others |
| PlannerGraph.GraphIsLayered | src/p2p/src/sequence_manager.rs:147-189 | every edge leads from one layer to the next, with a non-negative weight |
| PlannerGraph.PathIsItinerary | src/p2p/src/sequence_manager.rs:147-189 | every path from start to end is a journey through all blocks with the same delays |
| PlannerGraph.ItineraryIsPath | src/p2p/src/sequence_manager.rs:147-189 | every journey is a path with the same delays |
| Itineraries.FeasibleIffCovered | src/p2p/src/sequence_manager.rs:118-122 | although hand-offs happen only at a span's end, there is a journey exactly when there is a block and every block is inside some span |
| Planner.CollectRoute | src/p2p/src/sequence_manager.rs:229-250 | the route lists the maximal runs of blocks with the same peer, without gap or overlap |
| Planner.RetainNonEmpty | src/p2p/src/sequence_manager.rs:252 | nothing is removed from a route without empty pieces |
| Planner.FindPath | src/p2p/src/sequence_manager.rs:124-227 | finds the nodes of a cheapest journey, or there is no journey |
| Planner.DijkstraMinLatency | src/p2p/src/sequence_manager.rs:112-255 | a route exactly when all blocks are covered; its journey has the least truncated cost of all, and less real latency than any other's plus one nanosecond a hop; the route groups that journey's runs |
| Latencies.EndsCost | src/p2p/src/sequence_manager.rs:147-159 | entering costs half the client's round trip and 18 ms, leaving half the round trip; 0.15 s where it is not known |
| Latencies.HopCosts | src/p2p/src/sequence_manager.rs:161-188 | a block inside a span costs one over the rate, 300 by default; a hand-off half a round trip and 18 ms, the round trip being the measured one, else the server's ping, else 0.15 s |
| Latencies.OnePeerCosts | src/p2p/src/sequence_manager.rs:143-189 | the latency of one peer over the whole model, times its rate, is (c + 0.018) r plus one for each block but the first |
| Latencies.HandoffCosts | src/p2p/src/sequence_manager.rs:143-189 | the latency of a journey with one hand-off, in full |
| Latencies.BestPeerWins | src/p2p/src/sequence_manager.rs:112-255 | a cheapest journey of one peer takes less than any other whole-model peer would, plus one nanosecond a hop |
| Latencies.SlowPeerIsNotChosen | src/p2p/src/sequence_manager.rs:112-255 | of two peers at the same distance that span the model, the route is never that of the one slower by more than the rounding |
| Planner.RouteRunsToSpanEnds | src/p2p/src/sequence_manager.rs:177-188 | with one span per peer, every piece of the route lies inside its peer's span and runs to that span's end |
| Planner.ComputedSpansFit | src/p2p/src/sequence_manager.rs:43-57 | spans of the span table are one per peer and end within the model, as the planner needs |
| GreedyPlanner.MakeSequenceMaxThroughput | src/p2p/src/sequence_manager.rs:257-283 | terminates; within the model it succeeds exactly when the range is covered; the pieces tile the range, each from the first span at its first block |
| GreedyPlanner.GreedyRouteIsItinerary | src/p2p/src/sequence_manager.rs:265-280 | a greedy route over the whole model is a journey of the latency planner's graph |
| GreedyPlanner.GreedyIsNotFaster | src/p2p/src/sequence_manager.rs:112-283 | the latency planner's journey takes less time than the greedy one plus one nanosecond a hop |
| BlockSelection.AnyOrder | src/p2p/src/block_selection.rs:40-46 | a sum over the servers of a block is the same in every order |
| BlockSelection.OneMoreServer | src/p2p/src/block_selection.rs:40-46 | one more server adds all of its throughput if it is joining or online, and nothing if it is offline |
| BlockSelection.ComputeThroughputs | src/p2p/src/block_selection.rs:33-49 | for each block, the throughput of the eligible servers, for any order of the map |
| BlockSelection.BestWindow | src/p2p/src/block_selection.rs:18-28 | the scan keeps the first of the windows with the least minimum |
| BlockSelection.BestWindowIsFirstWithWeakest | src/p2p/src/block_selection.rs:18-28 | that window is the leftmost one containing the leftmost block of least throughput |
| BlockSelection.ChooseBestBlocks | src/p2p/src/block_selection.rs:3-31 | nothing for no blocks; all blocks if more are wanted than there are; else the window that starts at max(0, m + 1 - n) for the leftmost weakest block m, which it contains |
| Forwarding.Dedup | src/p2p/src/swarm.rs:29-36 | no two neighbours are equal, and only the empty chain becomes empty |
| Forwarding.DedupKeepsPeers | src/p2p/src/swarm.rs:29-36 | no peer is lost or added, and the ends stay |
| Forwarding.DedupFixes | src/p2p/src/swarm.rs:29-36 | a chain without repeats is unchanged |
| Forwarding.DedupForgetsRepeat | src/p2p/src/swarm.rs:29-36 | repeating a peer in place makes no difference |
| Forwarding.DedupChain | src/p2p/src/swarm.rs:29-36 | the fold computes that chain |
| Forwarding.Worker.OnRequest | src/p2p/src/swarm.rs:242-290 | at the last hop the reply is the request's tensor without an engine, the engine's output, or the empty tensor when the engine fails, under the request's id; before it, the request goes to the next peer of the route with the next hop, and its channel is stored |
| Forwarding.Worker.OnResponse | src/p2p/src/swarm.rs:291-309 | the response goes up the channel stored for its outbound id, which is then forgotten |
| Forwarding.Worker.OnOutboundFailure | src/p2p/src/swarm.rs:310-324 | the empty reply with id 0 goes up that channel instead |
| Forwarding.DeliverForwards | src/p2p/src/swarm.rs:270-289 | a forwarded request differs from the received one in its hop only, and goes to the peer of that hop; `route[next_index]` is in bounds |
| Forwarding.StepKeepsInv | src/p2p/src/swarm.rs:241-324 | every step of every client, worker and of the network keeps the protocol's invariant |
| Forwarding.RunKeepsInv | src/p2p/src/swarm.rs:241-324 | the invariant holds in every reachable state |
| Forwarding.RunExtends | src/p2p/src/swarm.rs:299-323 | over any run, requests and their origins never change, a reply once given is never altered or withdrawn, and the replies already sent stay a prefix of those sent |
| Forwarding.ChannelsAreAnsweredOnce | src/p2p/src/swarm.rs:299-323 | in every reachable state no channel was replied on twice, and those replied on are exactly those with a reply |
| Forwarding.SentRequest | src/p2p/src/swarm.rs:689-700 | what a client sends is its own request along its collapsed chain, for ever |
| Forwarding.ClientGetsOwnAnswer | src/p2p/src/swarm.rs:138-324 | in every interleaving a response is the last peer's answer to the client's own tensor, or the empty reply if a request that descends from the client's own send failed |
| Forwarding.FailedForIff | src/p2p/src/swarm.rs:310-324 | a send counts as failed exactly when the run has a failure of a request that descends from it |
| Forwarding.InFlightIsAClientsRequest | src/p2p/src/routing.rs:3-27 | every request in flight is some client's request at a later hop, addressed to that hop's peer; no peer dials itself; nothing panics |
| Forwarding.StepWorks | src/p2p/src/swarm.rs:241-324 | every step but a client's send lowers a measure of the remaining hops |
| Forwarding.StepsAreBounded | src/p2p/src/swarm.rs:241-324 | a run has at most two steps a hop of the routes sent, and one a send |
| Forwarding.SomeoneCanMove | src/p2p/src/swarm.rs:241-311 | as long as anyone waits, some request can be delivered or some response returned |
| Forwarding.QuiescentMeansAnswered | src/p2p/src/swarm.rs:138-417 | when nothing can move, every client none of whose own requests failed has, under its own id, its own tensor if the last peer has no engine, that engine's output for its own tensor, or the empty tensor if the engine fails |
| Forwarding.RunCanFinish | src/p2p/src/swarm.rs:241-311 | every run can be finished by deliveries and responses alone |
| ChainOfLayers.OneHopIff | src/p2p/src/swarm.rs:25-36 | a chain collapses to one hop exactly when it is one peer throughout |
| ChainOfLayers.TerminalCarriesAllIff | src/p2p/src/swarm.rs:25-36 | the terminal reply is what the hops of the chain compute in order, for all engines, ids and tensors on which no hop fails, if and only if the collapsed chain is one hop |
| ChainOfLayers.ClientsReceiveAllIff | src/p2p/src/swarm.rs:25-36 | the same of what clients receive, over all runs in which none of their own requests failed |
| FailedHops.EmptyReplyIsReceived | src/p2p/src/swarm.rs:310-324 | on every chain of two hops or more some run ends with the client receiving the empty reply with id 0 as a response |
| StreamClient.EventLoop.OnPayload | src/p2p/src/swarm.rs:681-708 | a payload is sent along the chain or queued, as specified |
| StreamClient.EventLoop.OnKademlia | src/p2p/src/swarm.rs:716-805 | discovery, new queries, then the chain if it can be built, as specified |
| StreamClient.EventLoop.OnOutboundFailure | src/p2p/src/swarm.rs:820-845 | up to the third failure, counts a retry, re-queues the payload in flight and forgets the chain, the providers and that queries were sent; then gives up |
| StreamClient.BuiltChainIsNotEmpty | src/p2p/src/swarm.rs:768-786 | where a chain can be built it is not empty, so the branches for an empty chain are dead |
| StreamClient.StepKeepsInv | src/p2p/src/swarm.rs:676-845 | every step of the client, the producer and the network keeps the invariant of the composed system |
| StreamClient.PayloadsAreConserved | src/cli/src/main.rs:307-347 | in every reachable running state an awaited payload is in exactly one of the two channels, the queue and the request in flight; in flight only with a chain, queued only without |
| StreamClient.AnswersComeInOrder | src/cli/src/main.rs:307-347 | the answers are for payloads 0, 1, 2, ... in this order, one each, and only the last may be an error |
| StreamClient.SendsAreBounded | src/p2p/src/swarm.rs:820-845 | at most three retries in the whole run; sends are the payloads received plus the retries, less a queued payload |
| StreamClient.ChainsAreFresh | src/p2p/src/swarm.rs:724-803 | every chain ever used is non-empty and names only peers found by queries issued after the latest failure |
| StreamRetries.FailuresAreCounted | src/p2p/src/swarm.rs:820-845 | in every run the client has failed exactly when there were four failures, and before that its retry count is their number |
| StreamRetries.FailureIsRetried | src/p2p/src/swarm.rs:820-845 | each of the first three failures of a run queues the failed payload again and starts discovery over |
| StreamRetries.RetrySendsSamePayload | src/p2p/src/swarm.rs:768-803 | after each of the first three failures, the failed payload stays queued until it is the next one sent |
| StreamLiveness.DiscoveryFindsChain | src/p2p/src/swarm.rs:716-805 | from a client that starts or starts over, discovery can find any peers, and then builds their collapsed chain and sends a queued payload along it |
| StreamLiveness.FailuresCanBeSurvived | src/p2p/src/swarm.rs:820-845 | for up to three failures there is a run that sends the first payload once more after each |
| StreamLiveness.FourthFailureEnds | src/p2p/src/swarm.rs:820-845 | there is a run in which a fourth failure ends the client, after four sends of the payload, with an error for it |
| StreamLiveness.AllCanBeAnswered | src/cli/src/main.rs:307-347 | with up to three failures at the first payload there is a run in which every payload is sent and answered |
| StreamLiveness.StuckForEver | src/p2p/src/swarm.rs:741-804 | once the query for a layer has ended without a provider, the client sends nothing more, whatever happens |
| StreamLiveness.TwoEventsGetStuck | src/p2p/src/swarm.rs:741-804 | from a client that starts or starts over, two events are enough to get there |
| Tensors.FlattenAt | src/compute/src/block.rs:243-246 | merging two dimensions puts element j of block i at i * n + j |
| Tensors.ChunkFlatten | src/compute/src/block.rs:263-264 | splitting a merged dimension restores it |
| Tensors.RepeatKvAt | src/compute/src/block.rs:316-328 | row i * groups + j of the repetition is row i |
| Attention.ComputeAttentionMask | src/compute/src/block.rs:154-178 | entry j of row i is zero if and only if j is at most past + i, and minus infinity otherwise |
| Attention.HeadMapping | src/compute/src/block.rs:243-247 | through the reshapes and the repetition, query row b * heads + h meets key/value row h / groups of batch element b |
| Attention.AttentionByHead | src/compute/src/block.rs:243-265 | each query head attends causally to its own key/value head of its own batch element, and to nothing else |
| Attention.SplitHeadsIsReshape | src/compute/src/block.rs:213-224 | for rows of the full width, splitting heads is the reshape followed by the transposition |
| KvCache.CacheAt | src/compute/src/block.rs:226-241 | each head of the new cache is its past rows followed by the rotated keys, or the values, of the pass |
| Attention.ForwardIsRowwise | src/compute/src/block.rs:196-292 | the tensor computation gives each row by one formula over its own input, its position and the keys and values of its batch element |
| AttentionLaws.SoftmaxLaw | src/compute/src/block.rs:250-263 | row n weighs positions 0 to n, and no other, with exp of the scaled score, which is positive; its output times the sum of the weights is the weighted sum of the values |
| AttentionLaws.EqualScoresGiveMean | src/compute/src/block.rs:250-263 | when all scores are equal, row n has the mean of the values of positions 0 to n |
| AttentionLaws.CacheHolds | src/compute/src/block.rs:208-241 | the cache keeps the past rows, then has the keys of the pass rotated by their positions and the values as they are |
| AttentionLaws.BlockComputes | src/compute/src/block.rs:196-292 | a row's heads, side by side and projected, are added to the row, and the MLP of the normed sum to the sum; head h is the rotated query on key/value head h / groups |
| KvCache.AttentionIsCausal | src/compute/src/block.rs:249-262 | keys and values after a position have no influence on it |
| KvCache.CacheJoins | src/compute/src/block.rs:226-241 | the cache after two chunks is the cache after both at once |
| KvCache.PassJoins | src/compute/src/block.rs:196-302 | one block: two incremental passes give the rows of one pass over both chunks |
| KvCache.TwoPasses | src/compute/src/block.rs:196-302 | the same through any stack of blocks, with the same final keys and values |
| KvCache.IncrementalIsFull | src/compute/src/block.rs:196-302 | however a sequence is cut into chunks, from any past, incremental passes through any stack give the rows of one full pass and leave its keys and values in every block |
| BatchElements.StackOfOne | src/compute/src/block.rs:196-302 | rows and caches of a batch element are those of that element computed alone, through any stack |
| ModelConfig.ShapesFitIff | src/compute/src/types.rs:48-59 | heads line up with repeated key/value heads exactly when these divide them, and fill a row exactly when they divide the hidden size |
| ModelConfig.DefaultIsMultiHead | src/compute/src/types.rs:53-59 | without a number of key/value heads, each query head has its own |
| Rope.ApplyIsDefined | src/compute/src/types.rs:89-132 | shapes match exactly for an even head dimension |
| Rope.PairTurns | src/compute/src/types.rs:100-130 | entries i and i + d/2 are turned in their plane by the position times frequency i |
| Rope.DotIsRelative | src/compute/src/types.rs:89-132 | given the laws of angle subtraction, the inner product of a query rotated at m and a key rotated at n is a function of both and of m - n |
| Rope.DotIsShiftInvariant | src/compute/src/types.rs:89-132 | moving both positions by the same distance does not change the inner product |
| Rope.RotationKeepsNorm | src/compute/src/types.rs:89-132 | a rotation keeps the squared norm |
| Rope.StackShifts | src/compute/src/block.rs:226-292 | a pass through any stack gives the same rows wherever its positions start |
| Engine.ComputeEngine.LoadBlocks | src/compute/src/engine.rs:25-39 | succeeds exactly when every layer of the range can be read; the layers before an unreadable one stay loaded, others are untouched |
| Engine.ComputeEngine.Forward | src/compute/src/engine.rs:47-58 | an error exactly when the layer is not loaded, else that layer's pass over the whole sequence |
| Engine.Sequence | src/compute/src/block.rs:188-190 | row s of every batch element has position s |
| Engine.ComputeEngine.RunLayers | src/compute/src/engine.rs:128-131 | an error exactly when some layer of the range is not loaded, else the pass through the whole stack in order |
| Engine.ComputeEngine.TerminalPass | src/compute/src/engine.rs:82-142 | for one entry: that pass, flattened for each batch element |
| Engine.ComputeEngine.ProcessTerminalPass | src/compute/src/engine.rs:60-80 | only the first batch element is returned, and nothing for an empty batch |
| Engine.EngineEqualsIncremental | src/compute/src/engine.rs:128-131 | what the engine computes over a whole sequence, incremental decoding computes chunk by chunk |
| MemoryAccounting.StepKeepsInv | src/compute/src/memory_cache.rs:28-59 | every atomic step keeps the accounts, the lock's discipline and the uniqueness of handles |
| MemoryAccounting.RunKeepsInv | src/compute/src/memory_cache.rs:28-59 | in every interleaving the counter is the live bytes plus those reserved and not yet inserted, removed and not yet subtracted, or lost to a failed creation |
| TensorSizes.BytesCountElements | src/compute/src/memory_cache.rs:29-30 | the bytes of a tensor are the size of an element for each index into it, all indices listed once |
| MemoryAccounting.SubtractNeverUnderflows | src/compute/src/memory_cache.rs:52-59 | when `free` subtracts, the counter holds at least as much |
| MemoryAccounting.HandlesAreNeverReused | src/compute/src/memory_cache.rs:41-49 | no handle is returned twice, and a freed handle is never live again |
| MemoryAccounting.CounterIsBounded | src/compute/src/memory_cache.rs:28-40 | counter and sizes about to be added are at most the number of threads times the limit |
| MemoryAccounting.BoundIsReached | src/compute/src/memory_cache.rs:31-40 | for every number of threads and every limit there is a run that reaches this bound |
| MemoryAccounting.NoOverlapNoOverrun | src/compute/src/memory_cache.rs:31-40 | if no load happens between another thread's comparison and addition, the limit holds |
| MemoryAccounting.OverrunIff | src/compute/src/memory_cache.rs:31-40 | additions alone can take a state over the limit exactly when counter and announced sizes exceed it together |
| MemoryAccounting.SomeRunOverrunsIff | src/compute/src/memory_cache.rs:31-40 | some run exceeds the limit if and only if there are at least two threads and the limit is not zero |
| MemoryAccounting.HandleGivesItsTensor | src/compute/src/memory_cache.rs:48-63 | in every interleaving a returned handle gives the tensor it was returned for until some thread removes it, and nothing for ever after |
| MemoryCache.MemoryCache.Allocate | src/compute/src/memory_cache.rs:28-50 | refuses exactly when the size does not fit, naming what is needed and what is left and changing nothing; else a handle never returned before, whose tensor is live, by exactly the steps of the concurrent model |
| MemoryCache.MemoryCache.Free | src/compute/src/memory_cache.rs:52-59 | gives back exactly the bytes of a live handle and does nothing for another |
| MemoryCache.MemoryCache.Get | src/compute/src/memory_cache.rs:61-63 | the tensor that the handle was returned for, from its allocation until it is freed; nothing before and nothing for ever after |
| MemoryCache.MemoryCache.BytesLeft | src/compute/src/memory_cache.rs:65-68 | the rest of the limit, between zero and the limit |
| MemoryCache.FreeUndoesAllocate | src/compute/src/memory_cache.rs:28-59 | freeing what was just allocated restores the state but for the handle, which is spent |
| ProviderCache.ProviderCache.Insert | src/p2p/src/provider_cache.rs:26-32 | the cache keeps answering as the log does |
| ProviderCache.ProviderCache.Evict | src/p2p/src/provider_cache.rs:67-71 | so it does after an eviction |
| ProviderCache.ProviderCache.PruneExpired | src/p2p/src/provider_cache.rs:73-79 | pruning keeps exactly the fresh entries, drops empty layers, and is invisible to the log |
| ProviderCache.ProviderCache.GetExcluding | src/p2p/src/provider_cache.rs:34-49 | answers what the unpruned log answers, for any readings of a clock that does not run back |
| ProviderCache.ProviderCache.BuildChain | src/p2p/src/provider_cache.rs:51-65 | a chain exactly when the log has an answer for every layer, and then the first of each |
| ProviderCache.HistoryStands | src/p2p/src/provider_cache.rs:26-71 | the entries of a layer are exactly the insertions that no later eviction undid, in order |
| ProviderCache.AnswerIsEarliest | src/p2p/src/provider_cache.rs:34-65 | there is an answer exactly when some standing insertion is fresh and not excluded, and the first answer is the earliest such one |
| ProviderCache.AnswerLists | src/p2p/src/provider_cache.rs:34-49 | the answer lists, in order, the providers of exactly the insertions that stand, are less than the time to live old and are not excluded |

## Left out

- Rounding, NaN, infinities and saturating casts of floating-point numbers: costs, throughputs and tensors are exact reals.
- An inference rate of zero or less and negative round-trip times: the planner's precondition excludes them.
- 32-bit and 64-bit overflow of sizes, handles, hops and ids, except for the 32-bit offset of block uids.
- Parsing block uids: the number that ends the first uid is part of the input.
- The binary heap's layout: it is a multiset of which a greatest entry is taken.
- The sort of `spans_by_priority`: only the lengths it compares are studied.
- `should_choose_other_blocks`: both of its minima are taken from the same unchanged vector.
- libp2p, dialing, Kademlia and codecs: requests and responses are records, query answers arbitrary events; an outbound request gets at most one response or failure.
- The single-shot client `run_client`: its transitions are those of the streaming client, with one payload.
- Liveness of the streaming client under fairness: a query that never ends, or that ends without a provider, leaves it waiting (`StreamLiveness.StuckForEver`).
- Addresses of workers, the provider cache that clients write and never read, and their set of failed peers, which is declared and not used.
- StreamClient.EventLoop.OnKademlia: the provider taken for a layer is the first of the found set, in the order that the event lists it.
- Failure to build or send a message: a request or response that was built is sent.
- candle, weights, tokenizer, embeddings and the language-model head; a block's MLP is one function of a row.
- Engine.ComputeEngine.TerminalPass: one entry only, because stacked entries have four dimensions where `forward` wants three; neither a mask nor the decoding of bytes is modelled.
- Attention.ForwardIsRowwise: does not model a mask given by the user, because the terminal hop passes none; the causal mask is the only one.
- Engine.ComputeEngine.Forward: no mask argument, for the same reason.
- Engine.ComputeEngine.ProcessTerminalPass: no mask arguments, for the same reason, and no decoding of bytes.
- The maximum that softmax subtracts before `exp`, which cancels in exact arithmetic.
- Errors for widths that do not match: a vector that is too short is read as padded with zeros; `ModelConfig.ShapesFitIff` says when the configured widths match.
- `backward`, `BatchConfig`, ping and the distributed-hash-table wrappers: stubs or plumbing.
