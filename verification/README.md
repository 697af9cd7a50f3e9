# The packet engine of BadVPN, modelled and proved in Dafny

BadVPN's native engine (`app/src/main/jni/badvpn`) moves frames between a virtual network device and remote peers. It is
event-driven C: each component is a set of handlers that change a few fields, lists and trees, and its asserts state
invariants that nothing in the code base establishes. This project models the hardest components as state machines whose
steps are those handlers and proves what they promise over every input and every run.

Each component has two layers. A module such as `FairQueue` or `DataProto` gives the state as a value, the handlers as
functions and the theorems over runs. A class (in the same module or in the module ending in `Object`) has the fields and
the loops of the C code, changes them in place in the source's order, and proves that every method does what the function
says and keeps the invariant. Trees are maps or sequences in tree order; intrusive lists are duplicate-free sequences, and
where the C code walks or relinks the nodes themselves (`LinkedNodes`, `MulticastNodes`, `PendingJobs`) the nodes are
modelled too and tied to the sequence.

- **Fair queue** (`FairQueue`, `FairQueueFairness`, `FairQueueSpread`): virtual-time scheduling with a renormalisation
  that runs through modulo-2^64 underflow and overflow while the keys sit in the tree. A bound on all times at once is
  false, since idle flows keep their old times and the current time can fall back to 0 (`FairQueueSpread.AnyDistance`);
  the theorems are about pairs of backlogged flows, and say exactly when two of them are within one packet again.
- **Fragmentation** (`FragmentProto`, `FragmentDisassembler`, `FragmentAssembler`, `FragmentEmission`, `FragmentInOrder`,
  `FragmentRoundTrip`, `FragmentAnyOrder`, `FragmentOutOfOrder`, `FragmentLoss`, `FragmentCancel`, `FragmentWrap`,
  `Tiling`): splitting, reassembly by a pigeonhole argument, the rebased clock, and the round trips, in order and out of
  order. A cancel after part of a frame was written is a real hazard: the id is not advanced, the assembler keeps the
  abandoned beginning, and the next frame under that id is lost.
- **BProto** (`BProto`, `BProtoWire`, `BProtoObject`): writer, parser and getters of any message schema, and the bytes by
  position.
- **Data protocol** (`DataProto`, `DataProtoWishes`, `DataProtoCalls`): deferred detachment of flows whose packet is being
  sent. Its callers see only the wishes: which sinks exist and which sink each flow desires.
- **Relays** (`RelayRouter`, `Relaying`, `RelayingWishes`, `RelayingClient`, `RelayingRuns`, `RelayingObject`): assignment
  of relays to peers, relay flows, and the agreement of both with the data protocol, down to the preconditions of its calls.
- **Frame decider** (`EntryPool`, `MacTable`, `Multicast`, `MulticastNodes`, `GroupTable`, `FrameDecider`,
  `FrameDeciderRuns`, `FrameDecision`): learned addresses, group memberships and the multicast index with an elected
  master per signature.
- **Stream framing** (`PacketProto`), **DHCP client** (`Dhcp`, `DhcpRuns`), **job list and packet handshake** (`PendingJobs`,
  `Handshake`).

Three statements one might expect turned out false of the code. Each is given with a concrete run and with the exact
condition under which it holds:

- that frames come out as they went in, whatever is cancelled (`FragmentCancel.LateCancelLosesFrame`). It holds exactly
  when every frame that ends began with nothing held of an abandoned one (`FragmentCancel.RoundTripExact`). What is held
  follows from the chunks written: an abandoned beginning stays until a chunk that touches it, or one chunk too many, makes
  the assembler drop it, so a second cancelled beginning can clear the way again. With one late cancel the condition is
  that no frame is kept after it (`FragmentCancel.OneLateCancel`).
- that all flow times lie within one packet of each other (`FairQueueSpread.AnyDistance`, `WithinPacketExact`).
- that an interface's pending jobs follow from its state and cancel flag alone (`Handshake.NotAlwaysDetermined`,
  `DeterminedExactly`).

What the handlers amount to is said by the modules ending in `Runs` (and by `FairQueueFairness` and `BProtoWire`) in terms
of the events or the bytes alone: a fold over the events that knows nothing of the tables, lists and timers, and lemmas
that the state and every output agree with it over all runs.

A row whose text says "refines" states that the method's new state is the result of the named function or event on the
old state, and that the class invariant is kept.

## Model

| member | source | states |
|---|---|---|
| `FairQueueFairness.Fairness` | app/src/main/jni/badvpn/flow/PacketPassFairQueue.c:52-217 | Over any run in which two flows stay backlogged, the difference of their virtual times never exceeds the larger of its starting value and weight + MTU, and the service they get, weight plus the length given with the last Send for each packet completed, differs by at most start + that bound; renormalisations, other flows and flow creation or removal may happen in between |
| `FairQueueSpread.AnyDistance` | app/src/main/jni/badvpn/flow/PacketPassFairQueue.c:52-77 | No bound holds on all times at once: for every n that leaves room for one packet in 64 bits there is a legal run from the start after which two waiting flows are more than n apart |
| `FairQueueSpread.WithinPacketExact` | app/src/main/jni/badvpn/flow/PacketPassFairQueue.c:52-217 | Two backlogged flows are within weight + MTU of each other at the end of a stretch if and only if the one behind has been served all of its initial delay but at most that much |
| `FairQueueSpread.CaughtUp` | app/src/main/jni/badvpn/flow/PacketPassFairQueue.c:52-217 | Once the flow behind has been served its initial delay, the two stay within weight + MTU of each other |
| `FairQueueFairness.ServiceMovesLead` | app/src/main/jni/badvpn/flow/PacketPassFairQueue.c:79-217 | Service accounting is exact: over such a run the difference of the services received, weight plus the length each flow gave with its Send, equals the change in lead, so no service is lost or invented by a renormalisation |
| `FairQueueFairness.LeadStep` | app/src/main/jni/badvpn/flow/PacketPassFairQueue.c:79-217 | One event changes the lead by exactly the service given, and a flow is only served while it does not lead any backlogged flow |
| `FairQueueFairness.ToldRun` | app/src/main/jni/badvpn/flow/PacketPassFairQueue.c:118-217 | Over every run the length to be charged for the packet in transit is the one its flow gave with its last Send, and so is that of every waiting packet |
| `FairQueueFairness.ToldStep` | app/src/main/jni/badvpn/flow/PacketPassFairQueue.c:118-180 | The same for one event |
| `FairQueueFairness.PacketsConserved` | app/src/main/jni/badvpn/flow/PacketPassFairQueue.c:118-217 | Over every run in which a flow is not freed, the packets it gave are those completed plus the one still waiting or in transit |
| `FairQueueFairness.LeavesBySending` | app/src/main/jni/badvpn/flow/PacketPassFairQueue.c:118-151 | A waiting flow leaves the queue only by being sent or by being freed |
| `FairQueueFairness.StartsAt` | app/src/main/jni/badvpn/flow/PacketPassFairQueue.c:52-180 | A flow with a new packet is placed at its own time or at the earliest of those sending, waiting and just served, whichever is later; just served, it keeps its time |
| `FairQueueFairness.FirstPacketLevel` | app/src/main/jni/badvpn/flow/PacketPassFairQueue.c:52-180 | Over every run the first packet of a flow is placed exactly level with the earliest of the others, neither ahead nor behind |
| `FairQueueFairness.RenewsInPlace` | app/src/main/jni/badvpn/flow/PacketPassFairQueue.c:153-217 | A flow that sends again after its packet is done and before the schedule job runs keeps exactly the time it was charged to, whatever other flows do in between |
| `FairQueueFairness.RestingKeepsTime` | app/src/main/jni/badvpn/flow/PacketPassFairQueue.c:79-217 | A flow keeps its time, waiting or idle, until an event is about it; only when the served time would not fit 64 bits are all moved back by one amount, no waiting flow below 0 |
| `FairQueueFairness.NoStarvation` | app/src/main/jni/badvpn/flow/PacketPassFairQueue.c:79-217 | With a fixed set of flows, the completions and schedule jobs that can happen while a flow stays queued are bounded by its Patience at the start, and unless the queue is being freed one of those steps is possible until it is sent |
| `FairQueueFairness.DoneDropsDebt` | app/src/main/jni/badvpn/flow/PacketPassFairQueue.c:79-217 | The measure (sum over the other flows of max(0, t + 1 - time), t the time of the waiting flow) strictly drops on every completed send, across renormalisations too |
| `FairQueue.ChargedInRange` | app/src/main/jni/badvpn/flow/PacketPassFairQueue.c:79-116 | When the time would overflow, the finished flow gets its true value, every queued flow is lowered by the same amount without being clamped, and all times stay below 2^64: pairwise differences among them are kept |
| `FairQueue.MoveKeepsInv` | app/src/main/jni/badvpn/flow/PacketPassFairQueue.c:118-351 | Every event keeps the invariant: the queue is in tree order of (time, flow), the sending flow is at or before every queued flow, times are in range, and sending, previous and the schedule job exclude each other as the asserts say |
| `FairQueue.ShiftKeepsOrder` | app/src/main/jni/badvpn/flow/PacketPassFairQueue.c:99-111 | Lowering all queued times by one amount while they sit in the tree leaves the tree order unchanged |
| `FairQueue.EnqueueKeepsOrder` | app/src/main/jni/badvpn/flow/PacketPassFairQueue.c:153-180 | A flow that starts sending is never put before the sending flow, its time never decreases, and no other time changes |
| `FairQueue.Run` | app/src/main/jni/badvpn/flow/PacketPassFairQueue.c:118-351 | Every state reachable by legal events satisfies the invariant |
| `FairQueue.PacketPassFairQueue.GetCurrentTime` | app/src/main/jni/badvpn/flow/PacketPassFairQueue.c:52-77 | The current time is the sending flow's, else the first queued one's, else the previous one's, else 0 |
| `FairQueue.PacketPassFairQueue.SubtractTime` | app/src/main/jni/badvpn/flow/PacketPassFairQueue.c:99-111 | The loop over all flows subtracts modulo 2^64 from the finished flow (it may wrap) and clamps the others at 0, each flow once |
| `FairQueue.PacketPassFairQueue.IncrementSentFlow` | app/src/main/jni/badvpn/flow/PacketPassFairQueue.c:79-116 | The modulo-2^64 subtract-then-add gives exactly the exact-arithmetic result, for all amounts |
| `FairQueue.PacketPassFairQueue.InputHandlerSend` | app/src/main/jni/badvpn/flow/PacketPassFairQueue.c:153-180 | The handler refines the Send event and keeps the invariant |
| `FairQueue.PacketPassFairQueue.OutputHandlerDone` | app/src/main/jni/badvpn/flow/PacketPassFairQueue.c:182-217 | The handler refines the OutputDone event and keeps the invariant |
| `FairQueue.PacketPassFairQueue.ScheduleJobHandler` | app/src/main/jni/badvpn/flow/PacketPassFairQueue.c:118-151 | The job forgets the previous flow and sends the first queued one if any; it refines RunJob, after which the length to be charged is the one that flow gave (FairQueueFairness.ToldStep) |
| `FairQueue.PacketPassFairQueue.FlowInit` | app/src/main/jni/badvpn/flow/PacketPassFairQueue.c:296-321 | A new flow starts at time 0, idle; refines the event |
| `FairQueue.PacketPassFairQueue.FlowFree` | app/src/main/jni/badvpn/flow/PacketPassFairQueue.c:323-351 | A freed flow leaves the list, the queue and the previous slot; refines the event |
| `Tiling.Pigeonhole` | app/src/main/jni/badvpn/client/FragmentProtoAssembler.c:105-108 | Extents that pass the overlap test pairwise inside [0, n) total at most n, and total n if and only if they tile [0, n): every cell is covered by exactly one of them |
| `FragmentEmission.EveryEmissionTiled` | app/src/main/jni/badvpn/client/FragmentProtoAssembler.c:154-283 | In any run, over any chunks and ticks from any initial buffer contents, an emitted frame is tiled exactly by chunks that were really received under its id and holds exactly their bytes, with the flagged chunk at its end |
| `FragmentEmission.EmissionExact` | app/src/main/jni/badvpn/client/FragmentProtoAssembler.c:154-283 | The same for one step: the emitted bytes are the recorded chunks, disjoint and covering [0, N) |
| `FragmentAssembler.CompleteTiles` | app/src/main/jni/badvpn/client/FragmentProtoAssembler.c:256-268 | When a chunk completes a frame, sum == length holds and the accepted extents tile the frame |
| `FragmentAssembler.Process` | app/src/main/jni/badvpn/client/FragmentProtoAssembler.c:154-283 | Any chunk at all, malformed or hostile, keeps the invariant (so num_chunks < o->num_chunks holds for every open frame) and leaves the clock alone |
| `FragmentAssembler.LocateKeepsInv` | app/src/main/jni/badvpn/client/FragmentProtoAssembler.c:46-103 | Finding or allocating a frame, with eviction of the oldest, keeps pool, lists and tree consistent: used and free partition the pool and ids are distinct |
| `FragmentAssembler.Swept` | app/src/main/jni/badvpn/client/FragmentProtoAssembler.c:119-134 | The first loop of reduce_times removes exactly the timed-out frames |
| `FragmentAssembler.ReducedKeepsInv` | app/src/main/jni/badvpn/client/FragmentProtoAssembler.c:117-152 | Rebasing removes only timed-out frames, keeps every survivor's age and contents, and at the maximum makes the clock smaller, so it never overflows |
| `FragmentAssembler.TickAges` | app/src/main/jni/badvpn/client/FragmentProtoAssembler.c:326-339 | After a packet every surviving frame is one older, contents unchanged, and only timed-out frames disappeared |
| `FragmentAssembler.Tick` | app/src/main/jni/badvpn/client/FragmentProtoAssembler.c:326-339 | Advancing the 32-bit clock keeps the invariant (frame times never exceed it) over runs of any length |
| `FragmentAssemblerObject.AdvanceFeeds` | app/src/main/jni/badvpn/client/FragmentProtoAssembler.c:285-346 | The input loop, stopping at each complete frame and resuming when the output is done, does exactly what feeding all chunks of the packet does |
| `FragmentAssemblerObject.FragmentProtoAssembler.ProcessChunk` | app/src/main/jni/badvpn/client/FragmentProtoAssembler.c:154-283 | The in-place code refines Process; its asserts hold |
| `FragmentAssemblerObject.FragmentProtoAssembler.constructor` | app/src/main/jni/badvpn/client/FragmentProtoAssembler.c:370-445 | All entries are free, whatever the allocator left in them; the invariant holds |
| `FragmentAssemblerObject.FragmentProtoAssembler.FreeFrame` | app/src/main/jni/badvpn/client/FragmentProtoAssembler.c:46-55 | The entry leaves the used list and the tree and joins the free list |
| `FragmentAssemblerObject.FragmentProtoAssembler.AllocateNewFrame` | app/src/main/jni/badvpn/client/FragmentProtoAssembler.c:57-103 | Takes the first free entry, or evicts the oldest used one, and starts it empty |
| `FragmentAssemblerObject.FragmentProtoAssembler.OverlapsAny` | app/src/main/jni/badvpn/client/FragmentProtoAssembler.c:197-204 | The loop over the chunks finds an overlap if and only if there is one |
| `FragmentAssemblerObject.FragmentProtoAssembler.SweepTimedOut` | app/src/main/jni/badvpn/client/FragmentProtoAssembler.c:119-134 | One pass removes the timed-out frames and finds the least time of the others, if any |
| `FragmentAssemblerObject.FragmentProtoAssembler.ReduceTimes` | app/src/main/jni/badvpn/client/FragmentProtoAssembler.c:117-152 | The two loops refine Reduced |
| `FragmentAssemblerObject.FragmentProtoAssembler.ProcessInput` | app/src/main/jni/badvpn/client/FragmentProtoAssembler.c:285-346 | The parse loop refines Advance and leaves the cursor at the first unread byte |
| `FragmentAssemblerObject.FragmentProtoAssembler.InputHandlerSend` | app/src/main/jni/badvpn/client/FragmentProtoAssembler.c:348-360 | A new packet is read from its beginning |
| `FragmentAssemblerObject.FragmentProtoAssembler.OutputHandlerDone` | app/src/main/jni/badvpn/client/FragmentProtoAssembler.c:362-368 | Reading resumes where it stopped |
| `FragmentProto.ParseRoundTrip` | app/src/main/jni/badvpn/protocol/fragmentproto.h:50-80 | Parsing an encoded series of chunks gives it back, headers and payloads |
| `FragmentProto.HeaderBytes` | app/src/main/jni/badvpn/protocol/fragmentproto.h:50-80 | The seven bytes of a chunk header by position: id, start and length with the low byte first, then 1 or 0 for the last chunk |
| `FragmentProto.FirstExact` | app/src/main/jni/badvpn/client/FragmentProtoAssembler.c:285-324 | A chunk is read from exactly the buffers that begin with those bytes and its payload, and takes just them |
| `FragmentDisassembler.SplitShape` | app/src/main/jni/badvpn/client/FragmentProtoDisassembler.c:48-70 | One call writes chunks that fit the packet and the 16-bit fields, advances through the frame, and stops only at the frame's end or when no payload byte fits |
| `FragmentDisassembler.Step` | app/src/main/jni/badvpn/client/FragmentProtoDisassembler.c:39-162 | Every handler keeps the invariant and sends only non-empty packets within the MTU |
| `FragmentDisassemblerObject.FragmentProtoDisassembler.WriteChunks` | app/src/main/jni/badvpn/client/FragmentProtoDisassembler.c:39-102 | The do-while loop over the output buffer leaves in it exactly the encoding of the chunks of Write |
| `FragmentDisassemblerObject.FragmentProtoDisassembler.InputHandlerSend` | app/src/main/jni/badvpn/client/FragmentProtoDisassembler.c:104-120 | Refines Input; a sent packet's bytes are the encoded chunks |
| `FragmentDisassemblerObject.FragmentProtoDisassembler.InputHandlerRequestCancel` | app/src/main/jni/badvpn/client/FragmentProtoDisassembler.c:122-132 | Refines Cancel: the frame is dropped and the frame id is not advanced |
| `FragmentDisassemblerObject.FragmentProtoDisassembler.OutputHandlerRecv` | app/src/main/jni/badvpn/client/FragmentProtoDisassembler.c:134-149 | Refines Recv; a sent packet's bytes are the encoded chunks |
| `FragmentDisassemblerObject.FragmentProtoDisassembler.TimerHandler` | app/src/main/jni/badvpn/client/FragmentProtoDisassembler.c:151-162 | Refines Timeout: the part-filled packet is sent as it is |
| `FragmentRoundTrip.RoundTrip` | app/src/main/jni/badvpn/client/FragmentProtoDisassembler.c:39-162 | Whatever is cancelled when, if every frame that ends began with nothing held of an abandoned one, in-order lossless delivery makes the assembler emit a prefix of the frames kept, in order, and exactly those when nothing is left to send; the frames must fit the assembler |
| `FragmentRoundTrip.RoundTripUnlimited` | app/src/main/jni/badvpn/client/DatagramPeerIO.c:196-198 | With no chunk limit, the chunk count the application configures and no cancel of a part-written frame, the same with no further condition: the budget ceil(n / (mtu - header)) + 1 is always enough |
| `FragmentRoundTrip.EarlyClean` | app/src/main/jni/badvpn/client/FragmentProtoDisassembler.c:122-132 | Cancels that come before anything of their frame was written never leave anything held |
| `FragmentRoundTrip.DivUpIsCeiling` | app/src/main/jni/badvpn/protocol/fragmentproto.h:92-98 | The quotient in the chunk budget is the ceiling: a <= q * b, and (q - 1) * b < a unless a is 0 |
| `FragmentRoundTrip.UnlimitedSized` | app/src/main/jni/badvpn/client/DatagramPeerIO.c:196-198 | With no chunk limit and that budget every frame of every run fits the assembler, cancels or not |
| `FragmentRoundTrip.StreamThrifty` | app/src/main/jni/badvpn/protocol/fragmentproto.h:82-98 | With no chunk limit no frame of n bytes uses more than ceil(n / (mtu - header)) + 1 chunks, wherever in a packet it begins |
| `FragmentRoundTrip.PacketsHoldStream` | app/src/main/jni/badvpn/client/FragmentProtoDisassembler.c:39-149 | Packets sent plus what is pending are exactly the chunks written, in order: nothing is lost, repeated or reordered by packing |
| `FragmentRoundTrip.LeavesExactly` | app/src/main/jni/badvpn/client/FragmentProtoDisassembler.c:39-162 | A packet leaves exactly when it is full, on the timer, or at once where no latency is allowed; otherwise a part-filled packet waits for more with the timer running |
| `FragmentRoundTrip.StreamInOrder` | app/src/main/jni/badvpn/client/FragmentProtoDisassembler.c:39-132 | Whatever is cancelled when, the chunks written spell out the kept frames, in order, under ascending ids modulo 2^16, to a listener that begins again at every chunk that starts at 0 |
| `FragmentInOrder.InOrderPackets` | app/src/main/jni/badvpn/client/FragmentProtoAssembler.c:154-346 | Fed packets whose frames each begin with nothing held of an abandoned one, the assembler emits exactly the frames such a listener hears, over any number of packets and any clock value |
| `FragmentInOrder.InOrderStep` | app/src/main/jni/badvpn/client/FragmentProtoAssembler.c:154-283 | One chunk: a frame comes out exactly when it ends and was heard whole, and the entry is what the bookkeeping of extents says |
| `FragmentInOrder.TornAdd` | app/src/main/jni/badvpn/client/FragmentProtoAssembler.c:195-268 | An entry that holds more bytes than the frame has brought so far, or lacks its first byte, is neither completed nor mended by the next chunk (pigeonhole) |
| `FragmentAnyOrder.AnyOrder` | app/src/main/jni/badvpn/client/FragmentProtoAssembler.c:154-283 | The chunks of one frame in any permutation, mixed with any chunks of other frames and any ticks, rebuild the frame exactly once, as long as its entry is not timed out or evicted |
| `FragmentOutOfOrder.ToleratesDisorder` | app/src/main/jni/badvpn/client/FragmentProtoAssembler.h:108-110 | The tolerance in terms of the input alone: the chunks of a frame in any order, chunks of fewer than num_frames other frames among them (any number of chunks of each) and at most num_frames packet ends between two of them, give that frame, once |
| `FragmentOutOfOrder.KeptFrameSplit` | app/src/main/jni/badvpn/client/FragmentProtoDisassembler.c:39-82 | What the splitter writes from a chunk at 0 to the next flagged one is a split of exactly the kept frame whose number is the number of flagged chunks before |
| `FragmentOutOfOrder.KeptFrameWritten` | app/src/main/jni/badvpn/client/FragmentProtoDisassembler.c:39-82 | Every kept frame whose end was written has such a stretch of the stream |
| `FragmentOutOfOrder.KeptEnded` | app/src/main/jni/badvpn/client/FragmentProtoDisassembler.c:39-132 | The ends written are as many as the frames kept, less one that is still being written |
| `FragmentOutOfOrder.KeptFrameRebuilt` | app/src/main/jni/badvpn/client/FragmentProtoDisassembler.c:39-149 | The stretch of any kept frame, delivered in any timely order, gives that frame, once |
| `FragmentAnyOrder.PieceAdded` | app/src/main/jni/badvpn/client/FragmentProtoAssembler.c:195-283 | Any not yet received piece of a frame is accepted in any order; the last one missing, whichever it is, completes the frame with its bytes |
| `FragmentCancel.LateCancelLosesFrame` | app/src/main/jni/badvpn/client/FragmentProtoDisassembler.c:122-132 | A concrete run: cancelling a half-written frame makes the assembler lose the next frame, because the id is used again |
| `FragmentCancel.TornFrameLost` | app/src/main/jni/badvpn/client/FragmentProtoAssembler.c:154-283 | From any pool state in which id has a live entry with bytes and no end, all chunks of the next frame under that id, with any other chunks and packet ends between them, emit nothing for id |
| `FragmentCancel.RoundTripExact` | app/src/main/jni/badvpn/client/FragmentProtoDisassembler.c:122-132 | For every run that leaves nothing unsent, with any number of late cancels: the frames emitted are the frames kept if and only if every frame that ends began with nothing held of an abandoned one; otherwise fewer come out than were kept |
| `FragmentWrap.ForgettingNeeded` | app/src/main/jni/badvpn/client/FragmentProtoDisassembler.c:72-82 | That ids are forgotten before they come round is needed: a legal run of packets with as many frames as ids, with nothing left unsent, in which a frame is not heard whole and yet the frames emitted are the frames kept, one of them completed by a cancelled frame |
| `FragmentCancel.RoundTripOfClient` | app/src/main/jni/badvpn/client/client.h:68-69 | The same equivalence in the configuration of the client, four frames and packets of up to 65535 bytes, with no condition on the frames |
| `FragmentCancel.OneLateCancel` | app/src/main/jni/badvpn/client/FragmentProtoDisassembler.c:122-132 | In any configuration, with one late cancel in the run: the frames emitted are the frames kept if and only if no frame is kept after that cancel |
| `FragmentLoss.LossPackets` | app/src/main/jni/badvpn/client/FragmentProtoAssembler.c:154-346 | Once a frame ends that was not heard whole, fewer frames come out than end, because ids are forgotten before they come round or because nothing is abandoned any more |
| `FragmentLoss.RecentStep` | app/src/main/jni/badvpn/client/FragmentProtoAssembler.c:154-283 | A chunk that is not flagged last completes nothing, because a frame held with a known end under its id would have timed out |
| `FragmentLoss.SpentStep` | app/src/main/jni/badvpn/client/FragmentProtoAssembler.c:154-283 | After a frame has come out, or its first byte was lost, its remaining chunks emit nothing |
| `BProto.RoundTrip` | app/src/main/jni/badvpn/bproto_generator/bproto_functions.php:342-610 | For every schema whose parser compiles and every interleaving of adds within the cardinalities, Parser_Init accepts what was written, each field's getter returns its values in order of addition, and the length is the sum of the SIZE defines |
| `BProto.ParserInitExact` | app/src/main/jni/badvpn/bproto_generator/bproto_functions.php:422-610 | For arbitrary bytes, Parser_Init succeeds if and only if the bytes are complete entries, each a field of the schema, in the allowed numbers; then every field's [start, start + span) begins and ends on entry boundaries and holds all its values |
| `BProto.GetExact` | app/src/main/jni/badvpn/bproto_generator/bproto_functions.php:649-759 | A getter on a sound parser never fails an assert or leaves the buffer: it returns the next value, or reports the end exactly when none is left |
| `BProto.DoneExact` | app/src/main/jni/badvpn/bproto_generator/bproto_functions.php:612-637 | A field's cursor is at the end of its span if and only if no value is left |
| `BProto.GetAllExact` | app/src/main/jni/badvpn/bproto_generator/bproto_functions.php:648-759 | Calling the getter until it fails gives all the field's values in order |
| `BProto.WrittenItems` | app/src/main/jni/badvpn/bproto_generator/bproto_functions.php:342-419 | What the adds write parses into exactly the entries added, and its length is the sum of the SIZE defines |
| `BProto.EntryRoundTrip` | app/src/main/jni/badvpn/bproto_generator/bproto_functions.php:348-412 | One entry, whatever follows it, is read back with its id, type, value and size |
| `BProtoWire.EntryIsWire` | app/src/main/jni/badvpn/bproto/BProto.h:41-83 | Each kind of entry byte by byte: id and type code (1 to 6) low byte first, then the value in 1, 2, 4 or 8 bytes or the length in 4 and the payload; 5, 6, 8, 12 and 8 + length bytes in all |
| `BProtoWire.WrittenIsMessage` | app/src/main/jni/badvpn/bproto_generator/bproto_functions.php:177-419 | A written message is exactly the concatenation of those byte strings |
| `BProtoWire.AcceptsExactly` | app/src/main/jni/badvpn/bproto_generator/bproto_functions.php:422-610 | For arbitrary bytes: the parser accepts a buffer if and only if it is the byte-by-byte message of some adds whose number for each field its cardinality allows |
| `BProtoWire.OneField` | app/src/main/jni/badvpn/bproto_generator/bproto_functions.php:422-610 | For a schema of one required field: exactly the byte string of one fitting value of it is accepted |
| `BProtoObject.GetKeeps` | app/src/main/jni/badvpn/bproto_generator/bproto_functions.php:648-759 | Get takes one value from its own field and leaves every other field's remaining values alone |
| `BProtoObject.ResetKeeps` | app/src/main/jni/badvpn/bproto_generator/bproto_functions.php:761-764 | Reset gives the field all its values again and leaves the others alone |
| `BProtoObject.ForwardKeeps` | app/src/main/jni/badvpn/bproto_generator/bproto_functions.php:766-769 | Forward leaves the field no value and the others alone |
| `BProtoObject.Writer.Add` | app/src/main/jni/badvpn/bproto_generator/bproto_functions.php:342-419 | Appends one entry in place; the buffer holds the encoding of all adds so far |
| `BProtoObject.Writer.Finish` | app/src/main/jni/badvpn/bproto_generator/bproto_functions.php:320-337 | Returns the length; the cardinality asserts hold exactly of the counts of values added |
| `BProtoObject.MessageParser.Init` | app/src/main/jni/badvpn/bproto_generator/bproto_functions.php:422-610 | The loop refines ParserInit, for any bytes |
| `BProtoObject.MessageParser.Get` | app/src/main/jni/badvpn/bproto_generator/bproto_functions.php:648-759 | Returns the first remaining value of the field, or nothing if none remains |
| `BProtoObject.SeekNext` | app/src/main/jni/badvpn/bproto_generator/bproto_functions.php:648-759 | The getter's loop over entries finds what Seek defines |
| `BProtoObject.MessageParser.GotEverything` | app/src/main/jni/badvpn/bproto_generator/bproto_functions.php:612-637 | True if and only if every value of every field was got or forwarded |
| `DataProto.MoveKeepsInv` | app/src/main/jni/badvpn/client/DataProto.c:146-566 | Every call and queue event keeps the invariant: a buffer's sink is its flow's desired sink, or the buffer is its sink's detaching buffer and the one being sent |
| `DataProto.DeferredDetachSettles` | app/src/main/jni/badvpn/client/DataProto.c:146-225 | From every reachable state, once the queues have finished their packets, every buffer has a flow and sits at exactly the sink its flow desires, and no wish was changed on the way |
| `DataProto.NeverCutShort` | app/src/main/jni/badvpn/client/DataProto.c:146-566 | Over every run, what a queue is busy with stays so and its buffer stays attached, whatever is attached, detached, freed or finished elsewhere, until its own queue is done or its sink is freed |
| `DataProto.BusyKept` | app/src/main/jni/badvpn/client/DataProto.c:458-566 | The same for one call or event |
| `DataProto.FinishRestores` | app/src/main/jni/badvpn/client/DataProto.c:200-216 | Finishing a detach restores agreement: the buffer goes to the sink desired now, or is freed with its flow gone |
| `DataProto.ScheduleAsserts` | app/src/main/jni/badvpn/client/DataProto.c:180-198 | The assert of line 184 always holds: a busy buffer's sink has no other detaching buffer |
| `DataProto.AttachBranchDead` | app/src/main/jni/badvpn/client/DataProto.c:516-543 | When a flow without desired sink is attached, its buffer has no sink or is detaching: the other branch is never taken |
| `DataProto.OneDetaching` | app/src/main/jni/badvpn/client/DataProto.c:180-216 | At most one buffer is detaching from a sink |
| `DataProto.SinkFreeKeeps` | app/src/main/jni/badvpn/client/DataProto.c:297-337 | Freeing an undesired sink leaves no buffer pointing at it |
| `DataProtoObject.DataProto.BufferFinishDetach` | app/src/main/jni/badvpn/client/DataProto.c:200-216 | In place, refines FinishDetach |
| `DataProtoObject.DataProto.SinkFree` | app/src/main/jni/badvpn/client/DataProto.c:297-337 | In place, refines SinkFree; no buffer keeps the freed sink |
| `DataProtoObject.DataProto.FlowInit` | app/src/main/jni/badvpn/client/DataProto.c:396-456 | In place, refines FlowInit |
| `DataProtoObject.DataProto.FlowFree` | app/src/main/jni/badvpn/client/DataProto.c:458-484 | In place, refines FlowFree; a busy buffer outlives its flow |
| `DataProtoObject.DataProto.FlowAttach` | app/src/main/jni/badvpn/client/DataProto.c:516-543 | In place, refines Attach |
| `DataProtoObject.DataProto.FlowDetach` | app/src/main/jni/badvpn/client/DataProto.c:545-566 | In place, refines Detach |
| `DataProtoObject.DataProto.QueueDone` | app/src/main/jni/badvpn/client/DataProto.c:218-225 | In place, refines QueueDone: the detaching buffer, if any, is finished |
| `DataProtoWishes.SinkCalls` | app/src/main/jni/badvpn/client/DataProto.c:227-337 | Seen from outside, a sink may be freed if and only if no flow desires it, and the calls do just that to the set of sinks |
| `DataProtoWishes.AttachCall` | app/src/main/jni/badvpn/client/DataProto.c:516-543 | Attach is allowed exactly for a flow that desires nothing and an existing sink, and changes one wish |
| `DataProtoWishes.DetachCall` | app/src/main/jni/badvpn/client/DataProto.c:545-566 | Detach is allowed exactly for a flow that desires a sink, and clears one wish |
| `DataProtoWishes.FlowFreeCall` | app/src/main/jni/badvpn/client/DataProto.c:458-484 | Free is allowed exactly for a flow that desires nothing |
| `DataProtoWishes.QueueCalls` | app/src/main/jni/badvpn/client/DataProto.c:218-225 | Queue events, deferred detaches included, are invisible in the wishes |
| `RelayRouter.Submit` | app/src/main/jni/badvpn/client/DPRelay.c:186-221 | After a submitted frame there is one flow for its source and sink, and never two for one pair; no other flow is added or lost |
| `RelayRouter.FreeSideExact` | app/src/main/jni/badvpn/client/DPRelay.c:238-276 | Freeing flows from the head of a list until it is empty terminates and removes exactly the flows at that end |
| `RelayRouter.Depart` | app/src/main/jni/badvpn/client/DPRelay.c:238-276 | A departing peer takes exactly the flows from or to it; the frame being passed is forgotten only if its flow went |
| `RelayRouter.AttachAllFollows` | app/src/main/jni/badvpn/client/DPRelay.c:278-292 | After Sink_Attach every flow to the peer desires its link |
| `RelayRouter.DetachAllFollows` | app/src/main/jni/badvpn/client/DPRelay.c:294-307 | After Sink_Detach no flow to the peer desires a sink |
| `RelayRouter.CreateFlowKeeps` | app/src/main/jni/badvpn/client/DPRelay.c:42-82 | Creating a flow keeps both lists equal to the sets they stand for |
| `RelayRouter.FreeFlowKeeps` | app/src/main/jni/badvpn/client/DPRelay.c:84-107 | Freeing a flow keeps both lists equal to the sets they stand for |
| `RelayRouterObject.DPRelayRouter.FindFlow` | app/src/main/jni/badvpn/client/DPRelay.c:116-127 | The loop finds the flow of the pair if and only if there is one |
| `RelayRouterObject.DPRelayRouter.SubmitFrame` | app/src/main/jni/badvpn/client/DPRelay.c:186-221 | In place, with the data protocol: refines Submit, and every flow still desires its destination's link |
| `RelayRouterObject.DPRelayRouter.FrameRouted` | app/src/main/jni/badvpn/client/DPRelay.c:129-142 | Forgets the flow the frame was for |
| `RelayRouterObject.DPRelayRouter.FlowInactive` | app/src/main/jni/badvpn/client/DPRelay.c:109-114 | An inactive flow is freed; peers' own flows are untouched |
| `RelayRouterObject.DPRelayRouter.PeerFree` | app/src/main/jni/badvpn/client/DPReceive.c:253-267 | Frees all flows of the peer in place; refines Depart |
| `RelayRouterObject.DPRelayRouter.SinkAttach` | app/src/main/jni/badvpn/client/DPRelay.c:278-292 | The loop attaches every flow of the list to the sink |
| `RelayRouterObject.DPRelayRouter.SinkDetach` | app/src/main/jni/badvpn/client/DPRelay.c:294-307 | The loop detaches every flow of the list |
| `RelayingClient.Step` | app/src/main/jni/badvpn/client/client.c:1606-1914 | After every handler: each peer is in at most one of linked, relayed and waiting; a relay is linked; the three kinds of list equal the sets the peers' fields define; nobody waits while a relay exists; the relay router's links are the peers' links. What each event does is in the rows of RelayingRuns |
| `RelayingClient.Run` | app/src/main/jni/badvpn/client/client.c:1606-1914 | The same over every run of handlers |
| `RelayingRuns.RelaysExactly` | app/src/main/jni/badvpn/client/client.c:1606-2818 | Over every run from the empty client, told from the events: a peer is a relay if and only if it was added as one that may and its link, since set up, was last reported up; it is linked as its last Fresh said; if it could not be bound since, it is relayed when anybody relays and waits otherwise; the relays are in the order they came up |
| `RelayingRuns.FollowsStep` | app/src/main/jni/badvpn/client/client.c:1606-2818 | One event changes link, relay and need of a relay of the peer it names as the events say, of nobody else, and the order of relays accordingly |
| `RelayingRuns.AddOutcome` | app/src/main/jni/badvpn/client/client.c:2773-2803 | A new peer is unconnected with the flag it came with and leaves every other peer exactly as it was; a known one changes nothing |
| `RelayingRuns.RemoveOutcome` | app/src/main/jni/badvpn/client/client.c:2805-2818 | Afterwards exactly that peer is unknown |
| `RelayingRuns.ConnectOutcome` | app/src/main/jni/badvpn/client/client.c:1900-2355 | Reset leaves the peer unconnected; so does a fresh link that fails; one that succeeds leaves it linked and nothing else |
| `RelayingRuns.CannotBindOutcome` | app/src/main/jni/badvpn/client/client.c:2106-2122 | A relay or a waiting peer is left alone; any other is relayed through the relay longest up, or is the last to wait |
| `RelayingRuns.UpOutcome` | app/src/main/jni/badvpn/client/client.c:2626-2645 | A link reported up relays everybody waiting through that peer if it may relay, and changes nothing if it may not |
| `RelayingRuns.DownOutcome` | app/src/main/jni/badvpn/client/client.c:2626-2645 | A relay reported down: its users move to the relay next longest up, or wait in the order they came |
| `RelayingRuns.Undisturbed` | app/src/main/jni/badvpn/client/client.c:1606-2818 | No event touches a peer that it is not about, that is not relayed through that peer and does not wait for its link |
| `RelayingRuns.FlowsOutcome` | app/src/main/jni/badvpn/client/DPRelay.c:42-307 | Relay flows come only with a frame of their pair and go only when inactive or with one of their ends; the frame being passed is forgotten only once routed or with its flow |
| `Relaying.NoSelfRelay` | app/src/main/jni/badvpn/client/client.c:1802-1822 | No peer relays through itself |
| `Relaying.AssignExact` | app/src/main/jni/badvpn/client/client.c:2684-2709 | The loop terminates; with a relay, every waiting peer is relayed through the first relay, in order, and nobody else changes |
| `Relaying.DisbandExact` | app/src/main/jni/badvpn/client/client.c:1779-1790 | The loop over a relay's users terminates and makes exactly them wait, in order |
| `RelayingClient.NeedRelayOutcome` | app/src/main/jni/badvpn/client/client.c:1847-1868 | A peer needing a relay gets the first relay if there is one, else joins the end of the waiting list |
| `RelayingClient.EnableOutcome` | app/src/main/jni/badvpn/client/client.c:1750-1769 | When a peer becomes a relay every waiting peer is relayed through it |
| `RelayingClient.DisableOutcome` | app/src/main/jni/badvpn/client/client.c:1771-1800 | When a relay goes, its users move to the first remaining relay, or wait in their old order |
| `RelayingClient.Cleanup` | app/src/main/jni/badvpn/client/client.c:1729-1748 | Whatever the peer was (relay included), it is left unconnected, and no other peer loses a link |
| `RelayingWishes.FreeLinkUndesired` | app/src/main/jni/badvpn/client/client.c:1695-1727 | When a link's sink is freed no flow desires it, neither any peer's own flow nor any relay flow: the assert of DataProtoSink_Free holds |
| `RelayingWishes.FreeLinkAgreed` | app/src/main/jni/badvpn/client/client.c:1695-1727 | Freeing a link keeps every flow's desired sink what the peers' states say |
| `RelayingWishes.InitLinkAgreed` | app/src/main/jni/badvpn/client/client.c:1606-1693 | Setting up a link keeps it too: own flow and all relay flows to the peer |
| `RelayingWishes.InstallAgreed` | app/src/main/jni/badvpn/client/client.c:1802-1822 | A relayed peer's flow desires its relay's sink |
| `RelayingWishes.FreeRelayingAgreed` | app/src/main/jni/badvpn/client/client.c:1824-1845 | A peer no longer relayed desires none |
| `RelayingObject.Client.AssignRelays` | app/src/main/jni/badvpn/client/client.c:2684-2709 | In place, with the data protocol: refines Assign |
| `RelayingObject.Client.EnableRelayProvider` | app/src/main/jni/badvpn/client/client.c:1750-1769 | In place, refines Enable |
| `RelayingObject.Client.DisableRelayProvider` | app/src/main/jni/badvpn/client/client.c:1771-1800 | In place, refines Disable, and keeps all agreements |
| `RelayingObject.Client.InitLink` | app/src/main/jni/badvpn/client/client.c:1606-1693 | In place; when the transport cannot be set up nothing has changed |
| `RelayingObject.Client.FreeLink` | app/src/main/jni/badvpn/client/client.c:1695-1727 | In place, in the source's order of detaching and freeing |
| `RelayingObject.Client.CleanupConnections` | app/src/main/jni/badvpn/client/client.c:1729-1748 | In place, refines Cleanup |
| `RelayingObject.Client.NeedRelay` | app/src/main/jni/badvpn/client/client.c:1847-1868 | In place, refines NeedRelay |
| `RelayingObject.Client.NewClient` | app/src/main/jni/badvpn/client/client.c:2773-2803 | In place, refines Add; a peer known already is left alone |
| `RelayingObject.Client.EndClient` | app/src/main/jni/badvpn/client/client.c:2805-2818 | In place, refines Remove: connections are cleaned up before the peer's flow and ends are freed |
| `RelayingObject.Client.FreshLink` | app/src/main/jni/badvpn/client/client.c:2342-2355 | In place, refines Fresh: old connections go before the new link is set up |
| `RelayingObject.Client.ResetPeer` | app/src/main/jni/badvpn/client/client.c:1900-1914 | In place, refines Reset |
| `RelayingObject.Client.CannotBind` | app/src/main/jni/badvpn/client/client.c:2106-2122 | In place, refines CannotBind |
| `RelayingObject.Client.DataprotoHandler` | app/src/main/jni/badvpn/client/client.c:2626-2645 | In place, refines Report; with RelayingRuns.RelaysExactly, a peer becomes a relay only if it was added as one that may |
| `RelayingObject.Client.FrameRouted` | app/src/main/jni/badvpn/client/DPRelay.c:129-142 | In place, refines Routed of the whole client |
| `RelayingObject.Client.RelayFrame` | app/src/main/jni/badvpn/client/DPRelay.c:186-221 | In place, refines Submit of the whole client |
| `MacTable.LearnRefines` | app/src/main/jni/badvpn/client/FrameDecider.c:69-118 | Learning an address refines the plain picture: the address moves to the end of the learning peer's least-recently-seen list, leaves every other peer's, and only that peer's oldest is evicted, only when its list is full |
| `MacTable.Learn` | app/src/main/jni/badvpn/client/FrameDecider.c:69-118 | Keeps the invariant: each address has one owner, the tree is the union of the used lists, free plus used is always max_peer_macs |
| `MacTable.SeenExact` | app/src/main/jni/badvpn/client/FrameDecider.c:69-118 | An address is in a peer's list if and only if the tree says that peer owns it |
| `MacTable.RemovePeer` | app/src/main/jni/badvpn/client/FrameDecider.c:650-656 | Afterwards the tree is what it was less exactly the addresses of the peer, the other peers are as they were, and the invariant is kept |
| `Multicast.AddKeeps` | app/src/main/jni/badvpn/client/FrameDecider.c:133-164 | Adding a membership keeps the index: one master per signature, its list exactly the memberships of the signature |
| `Multicast.RemoveKeeps` | app/src/main/jni/badvpn/client/FrameDecider.c:166-197 | Removing one, master or not, keeps it; a new master is elected exactly when one is left |
| `Multicast.OneMaster` | app/src/main/jni/badvpn/client/FrameDecider.c:133-197 | For every signature in use there is exactly one master |
| `LinkedNodes.InsertLinked` | app/src/main/jni/badvpn/structure/LinkedList3.h:204-215 | InitAfter on the nodes inserts into the list, and touches no other list |
| `LinkedNodes.UnlinkLinked` | app/src/main/jni/badvpn/structure/LinkedList3.h:230-243 | Free on the nodes removes from the list, and touches no other list |
| `LinkedNodes.NeighbourExact` | app/src/main/jni/badvpn/structure/LinkedList3.h:245-270 | A node is lonely if and only if its list has one element; NextOrPrev is a real neighbour |
| `LinkedNodes.First` | app/src/main/jni/badvpn/structure/LinkedList3.h:282-289 | Walking back from any node ends at the head of its list |
| `MulticastNodes.AddLinked` | app/src/main/jni/badvpn/client/FrameDecider.c:133-164 | The linked nodes follow the lists of all signatures through an add |
| `MulticastNodes.RemoveLinked` | app/src/main/jni/badvpn/client/FrameDecider.c:166-197 | The linked nodes follow the lists of all signatures through a removal |
| `GroupTable.Join` | app/src/main/jni/badvpn/client/FrameDecider.c:199-252 | Joining (refresh, free entry or eviction) keeps all: index equals memberships, per-peer trees equal used lists, free plus used is max_peer_groups |
| `GroupTable.Leave` | app/src/main/jni/badvpn/client/FrameDecider.c:254-279 | Expiry of an entry keeps all |
| `GroupTable.RemovePeer` | app/src/main/jni/badvpn/client/FrameDecider.c:637-648 | Afterwards the memberships are exactly those of the other peers, with their groups and end times, and the index agrees with them |
| `GroupTable.JoinRefines` | app/src/main/jni/badvpn/client/FrameDecider.c:199-252 | A peer's groups are a bounded least-recently-reported list: the joined group goes to its end, the oldest falls out when full, other peers are untouched |
| `GroupTable.LeaveRefines` | app/src/main/jni/badvpn/client/FrameDecider.c:254-279 | An expired group leaves its own peer's list only |
| `GroupTable.ListenersExact` | app/src/main/jni/badvpn/client/FrameDecider.c:481-504 | The master's list for a signature holds each membership of that signature exactly once, and nothing else |
| `GroupTable.QueryOk` | app/src/main/jni/badvpn/client/FrameDecider.c:281-314 | A query lowers the end times of exactly the memberships of that very group that end later, never raises one, and keeps all |
| `FrameDecider.Run` | app/src/main/jni/badvpn/client/FrameDecider.c:69-321 | Every state reachable through frames, reports, queries, expiries, added and freed peers satisfies all of the above |
| `FrameDecider.GroupFrame` | app/src/main/jni/badvpn/client/FrameDecider.c:477-556 | A frame to a group goes to one destination per membership with the same 23-bit signature (section 6.4 of RFC 1112), among them every peer that joined the group |
| `FrameDecider.LearnedFrame` | app/src/main/jni/badvpn/client/FrameDecider.c:477-509 | After a frame from an address was seen at a peer, a frame to it goes to that peer alone |
| `FrameDeciderRuns.PicturesRun` | app/src/main/jni/badvpn/client/FrameDecider.c:69-687 | Over every run the tables are a plain picture folded from the events: peers in the order added, and per peer a bounded list of addresses seen and of groups reported, the latest last |
| `FrameDeciderRuns.FloodedFrame` | app/src/main/jni/badvpn/client/FrameDecider.c:477-509 | After any run a broadcast or IGMP frame goes to every peer added and not removed, once each, in that order |
| `FrameDeciderRuns.UnicastFrame` | app/src/main/jni/badvpn/client/FrameDecider.c:477-509 | After any run a frame to an address goes to the peer whose list has it alone, and if no list has it to every peer, once each, in the order added |
| `FrameDeciderRuns.StillLearned` | app/src/main/jni/badvpn/client/FrameDecider.c:69-118 | An address last seen at a peer goes to that peer alone after any later events, unless the peer is removed, the address is seen elsewhere, or as many other addresses as the peer can have were seen at it |
| `FrameDeciderRuns.GroupedFrame` | app/src/main/jni/badvpn/client/FrameDecider.c:477-509 | After any run a frame to a group goes to exactly the peers whose list has a group with the same last 23 bits |
| `FrameDeciderRuns.ExpiresWhenDue` | app/src/main/jni/badvpn/client/FrameDecider.c:199-321 | Over every run: a membership may expire if and only if the peer's list has the group and its time is over, which is the last report plus the interval, brought forward to each later query plus the last-member time |
| `GroupTable.JoinEntries` | app/src/main/jni/badvpn/client/FrameDecider.c:199-252 | A report gives the new end time to the peer's entry for the group and leaves every other entry as it was |
| `FrameDecider.MacOfGroup` | app/src/main/jni/badvpn/client/FrameDecider.c:120-131 | Group and hardware address of the group have the same signature |
| `FrameDeciderObject.FrameDecider.AddMacToPeer` | app/src/main/jni/badvpn/client/FrameDecider.c:69-118 | In place, refines Learn |
| `FrameDeciderObject.FrameDecider.AddToMulticast` | app/src/main/jni/badvpn/client/FrameDecider.c:133-164 | In place on tree, masters and nodes, refines Add |
| `FrameDeciderObject.FrameDecider.RemoveFromMulticast` | app/src/main/jni/badvpn/client/FrameDecider.c:166-197 | In place on tree, masters and nodes, refines Remove |
| `FrameDeciderObject.FrameDecider.AddGroupToPeer` | app/src/main/jni/badvpn/client/FrameDecider.c:199-252 | In place, refines Report; a multicast decision under way goes on with exactly what it had left, but for the one entry of the peer that is evicted or entered |
| `FrameDecision.IdsWith` | app/src/main/jni/badvpn/client/FrameDecider.c:133-164 | A membership put in behind the master leaves the iterator its place: what it has left is the same but for the new one |
| `FrameDeciderObject.FrameDecider.FrameSeen` | app/src/main/jni/badvpn/client/FrameDecider.c:671-687 | In place, refines Seen |
| `FrameDeciderObject.FrameDecider.RemoveGroupEntry` | app/src/main/jni/badvpn/client/FrameDecider.c:254-279 | In place, refines Expire, which is enabled only when the entry's time has come; a multicast decision under way goes on with exactly the other memberships it had left |
| `FrameDeciderObject.FrameDecider.LowerGroupTimers` | app/src/main/jni/badvpn/client/FrameDecider.c:281-314 | The walk along the master's nodes refines Query |
| `FrameDeciderObject.FrameDecider.PeerInit` | app/src/main/jni/badvpn/client/FrameDecider.c:558-624 | In place, refines AddPeer; a flood under way goes on to the new peer unless it has passed the last one, any other decision is as it was |
| `FrameDeciderObject.FrameDecider.PeerFree` | app/src/main/jni/badvpn/client/FrameDecider.c:626-669 | The loops over the peer's entries refine RemovePeer; a decision under way, of any kind, goes on with exactly the destinations it had left without the peer |
| `FrameDecision.IdsWithout` | app/src/main/jni/badvpn/structure/LinkedList3.h:230-243 | Moving the iterator on when the node it is at goes leaves it the rest of the list without that node, and is right for every other position and list too |
| `FrameDecision.FloodWithout` | app/src/main/jni/badvpn/client/FrameDecider.c:658-662 | Moving a flood on when the peer it is at goes leaves it the rest of the peers without that peer |
| `FrameDeciderObject.FrameDecider.AnalyzeAndDecide` | app/src/main/jni/badvpn/client/FrameDecider.c:361-510 | With a drained decider, what is pending is exactly the frame's destinations (which FrameDeciderRuns gives from the events); an undrained multicast decision makes it return early and change nothing but that the iterator is no longer attached to its node |
| `FrameDeciderObject.FrameDecider.NextDestination` | app/src/main/jni/badvpn/client/FrameDecider.c:512-556 | Hands out the pending destinations one by one, in order, then none |
| `FrameDeciderObject.FrameDecider.Forward` | app/src/main/jni/badvpn/client/client.c:2666-2682 | The caller's loop sends the frame to all its destinations, each once, and leaves the decider drained |
| `PacketProto.RoundTrip` | app/src/main/jni/badvpn/flow/PacketProtoDecoder.c:46-128 | For any packets within the MTU and any split of their encoding into pieces that fit the buffer, from any buffer position, the decoder outputs the same packets in order and nothing is left over |
| `PacketProto.HeaderBytes` | app/src/main/jni/badvpn/protocol/packetproto.h:55-66 | An encoded packet is the low and the high byte of its length and then the payload |
| `PacketProto.FirstExact` | app/src/main/jni/badvpn/flow/PacketProtoDecoder.c:46-105 | A packet is read from exactly the streams that begin with those two bytes and its payload |
| `PacketProto.OutputExact` | app/src/main/jni/badvpn/flow/PacketProtoDecoder.c:46-128 | For any byte stream without an oversized header, however split, the output is what the whole stream says and the rest stays buffered |
| `PacketProto.FailsExact` | app/src/main/jni/badvpn/flow/PacketProtoDecoder.c:64-104 | However the stream is split, the decoder reports an error if and only if the stream contains an oversized header |
| `PacketProto.AlwaysRoom` | app/src/main/jni/badvpn/flow/PacketProtoDecoder.c:85-98 | Any stream can be received: there is always room for the next byte |
| `PacketProto.Process` | app/src/main/jni/badvpn/flow/PacketProtoDecoder.c:46-105 | Every receive is for a positive length inside the buffer, after a wrap or an error too |
| `PacketProto.SettleExact` | app/src/main/jni/badvpn/flow/PacketProtoDecoder.c:46-128 | Sending packets until one is incomplete outputs exactly the whole packets in the buffer |
| `PacketProto.Reset` | app/src/main/jni/badvpn/flow/PacketProtoDecoder.c:176-182 | Reset empties the buffer and keeps the outstanding receive inside it and of the same length |
| `PacketProtoObject.PacketProtoEncoder.InputHandlerDone` | app/src/main/jni/badvpn/flow/PacketProtoEncoder.c:51-64 | The caller's buffer holds the encoding of the payload received behind the header's place |
| `PacketProtoObject.PacketProtoDecoder.ProcessData` | app/src/main/jni/badvpn/flow/PacketProtoDecoder.c:46-105 | In place, refines Process; what is handed to the output is the packet's bytes |
| `PacketProtoObject.PacketProtoDecoder.Wrap` | app/src/main/jni/badvpn/flow/PacketProtoDecoder.c:90-94 | The move to the front of the buffer keeps the bytes, overlap included |
| `PacketProtoObject.PacketProtoDecoder.InputHandlerDone` | app/src/main/jni/badvpn/flow/PacketProtoDecoder.c:107-119 | Adds the received piece and processes |
| `PacketProtoObject.PacketProtoDecoder.OutputHandlerDone` | app/src/main/jni/badvpn/flow/PacketProtoDecoder.c:121-128 | Processes on |
| `Dhcp.LeaseRespected` | app/src/main/jni/badvpn/dhcpclient/BDHCPClientCore.c:406-678 | When no timer fires more than L after it is due, over every run the address is never held longer than 1000 * lease milliseconds plus 2 L after the last accepted acknowledgement (section 4.4.5 of RFC 2131); with L = 0, never longer than the lease |
| `DhcpRuns.RequestsNameOffer` | app/src/main/jni/badvpn/dhcpclient/BDHCPClientCore.c:406-678 | Over every run, every REQUEST ever sent carries the transaction id and the address of the last offer taken when it was sent, with the server of that offer while requesting and none while renewing; every DISCOVER carries the id then in force |
| `DhcpRuns.SentStep` | app/src/main/jni/badvpn/dhcpclient/BDHCPClientCore.c:406-678 | Unless it is still sending, the client sends exactly when it takes an offer or a timer fires, and one such message |
| `DhcpRuns.UpExactly` | app/src/main/jni/badvpn/dhcpclient/BDHCPClientCore.c:464-563 | After any run, UP is reported if and only if, while requesting, the server of the last offer acknowledges its address under the id; mask, router, name servers and lease are then those of that reply |
| `DhcpRuns.RefusalEnds` | app/src/main/jni/badvpn/dhcpclient/BDHCPClientCore.c:406-462 | After any run, a NAK of that server under the id while requesting, bound or renewing leaves the client without the address, and is reported as DOWN if it was held |
| `DhcpRuns.GivenUpExactly` | app/src/main/jni/badvpn/dhcpclient/BDHCPClientCore.c:406-678 | After any run, a held address is given up, and DOWN reported, if and only if it is so refused or the lease timer fires |
| `DhcpRuns.FollowsRun` | app/src/main/jni/badvpn/dhcpclient/BDHCPClientCore.c:208-678 | Over every run, state, transaction id with its reuse count, offer, lease, requests made and the due time of every running timer are those told by a fold over the events |
| `Dhcp.RunKeepsInv` | app/src/main/jni/badvpn/dhcpclient/BDHCPClientCore.c:406-678 | Over every run the running timers are exactly those of the state, and the reports UP and DOWN alternate beginning with UP, with the address held exactly after an UP |
| `Dhcp.StepKeepsInv` | app/src/main/jni/badvpn/dhcpclient/BDHCPClientCore.c:208-678 | The same for one event: reply, timer, finished send or passing time |
| `Dhcp.PunctualStep` | app/src/main/jni/badvpn/dhcpclient/BDHCPClientCore.c:464-678 | While no timer fires more than L late, no running timer is overdue by more, and the lease timer is due at the end of the lease or at most L after it |
| `Dhcp.StartInv` | app/src/main/jni/badvpn/dhcpclient/BDHCPClientCore.c:565-589 | The started client satisfies both |
| `DhcpObject.BDHCPClientCore.RecvHandlerDone` | app/src/main/jni/badvpn/dhcpclient/BDHCPClientCore.c:404-563 | In place, refines Receive for every decoded reply, expected or not |
| `DhcpObject.BDHCPClientCore.TimerHandler` | app/src/main/jni/badvpn/dhcpclient/BDHCPClientCore.c:591-678 | The five handlers refine Fire |
| `DhcpObject.BDHCPClientCore.StartProcess` | app/src/main/jni/badvpn/dhcpclient/BDHCPClientCore.c:565-589 | In place: the transaction id is kept or renewed as the reuse counter says |
| `DhcpObject.BDHCPClientCore.Nak` | app/src/main/jni/badvpn/dhcpclient/BDHCPClientCore.c:406-462 | In place: a refusal in each state |
| `DhcpObject.BDHCPClientCore.SendHandlerDone` | app/src/main/jni/badvpn/dhcpclient/BDHCPClientCore.c:200-206 | In place, refines SendDone |
| `Handshake.AnsweredOnce` | app/src/main/jni/badvpn/flow/PacketPassInterface.h:149-227 | Over every run, each answered Send has one Sent first and one Answered last with nothing after it, the operation ran at most once and directly after the Send, and never after an early cancel |
| `Handshake.StepKeepsInv` | app/src/main/jni/badvpn/flow/PacketPassInterface.h:149-227 | Every call and job keeps: the jobs pending for an interface are those its state, cancel flag and history allow, each at most once, and its history is a beginning of a proper exchange |
| `Handshake.ExecuteStep` | app/src/main/jni/badvpn/flow/PacketPassInterface.c:32-68 | Whichever job is first on the list, its interface is in the state that the job's asserts demand |
| `Handshake.DeterminedExactly` | app/src/main/jni/badvpn/flow/PacketPassInterface.h:200-227 | The pending jobs are determined by state and cancel flag if and only if the provider is not still busy after being told of the cancel |
| `Handshake.NotAlwaysDetermined` | app/src/main/jni/badvpn/flow/PacketPassInterface.c:45-55 | A concrete run in which they are not |
| `Handshake.Run` | app/src/main/jni/badvpn/flow/PacketPassInterface.h:149-227 | Every reachable world satisfies the invariant |
| `PendingJobs.Set` | app/src/main/jni/badvpn/base/BPending.c:137-154 | A set job is first, is on the list once, and no other job is lost or added |
| `PendingJobs.PrependLinked` | app/src/main/jni/badvpn/structure/SLinkedList_impl.h:54-68 | Prepending on the nodes prepends to the list |
| `PendingJobs.BPendingGroup.SetJob` | app/src/main/jni/badvpn/base/BPending.c:137-154 | In place on nodes and head: a job already pending is moved to the front |
| `PendingJobs.BPendingGroup.UnsetJob` | app/src/main/jni/badvpn/base/BPending.c:156-171 | In place: the job is off the list, order otherwise kept |
| `PendingJobs.BPendingGroup.IsSet` | app/src/main/jni/badvpn/base/BPending.c:173-179 | The next-is-itself test says exactly whether the job is pending |
| `PendingJobs.BPendingGroup.HasJobs` | app/src/main/jni/badvpn/base/BPending.c:59-64 | True if and only if a job is pending |
| `PendingJobs.BPendingGroup.ExecuteJob` | app/src/main/jni/badvpn/base/BPending.c:66-88 | Takes the last job set (last in, first out), which is no longer pending when its handler runs |
| `HandshakeObject.PacketPassInterface.Send` | app/src/main/jni/badvpn/flow/PacketPassInterface.h:181-198 | In place on the shared job list, refines Send |
| `HandshakeObject.PacketPassInterface.Cancel` | app/src/main/jni/badvpn/flow/PacketPassInterface.h:200-227 | In place, refines Ask: an early cancel replaces the operation by the answer |
| `HandshakeObject.PacketPassInterface.Finish` | app/src/main/jni/badvpn/flow/PacketPassInterface.h:149-162 | In place, refines Finish: a cancel not yet told is dropped |
| `HandshakeObject.PacketPassInterface.Execute` | app/src/main/jni/badvpn/flow/PacketPassInterface.c:32-68 | The three job handlers refine the job at the front |

## Left out

- FragmentCancel.RoundTripExact: the "only if" half assumes that an id comes round only after the assembler has forgotten its last use, (num_frames + 1) * (packet MTU / 7) < 65536. The client's four frames meet it for every UDP packet (RoundTripOfClient), OneLateCancel does without, and in general it cannot be dropped (FragmentWrap.ForgettingNeeded).
- FairQueue.PacketPassFairQueue.OutputHandlerDone: the busy-handler callback is left to the caller; in the data protocol it appears as the event QueueDone. RequestCancel only forwards to the output and is not modelled.
- BProtoObject.Writer.Add: reserving the place of a data field and filling it by the caller are one step here.
- BProtoObject.MessageParser.Get: the cursor is written back once per call, after the getter's loop, not once per entry.
- BProto.RoundTrip: schemas are those whose generated switches have no duplicate case label; a data and a constdata field with the same id share a switch, so such a parser does not compile.
- FrameDeciderObject.FrameDecider.AnalyzeAndDecide: the bytes of Ethernet, IPv4 and IGMP headers are not parsed; a frame arrives decoded.
- FrameDeciderObject.FrameDecider.NextDestination: an iterator that an early return has detached is followed only until the tables change, since the source then leaves it pointing at whatever its node becomes.
- RelayingObject.Client.InitLink: setting up the transport is a yes or no given as a parameter; chat, addresses, seeds, messages to the server and the limit on peers are not modelled.
- RelayingObject.Client.NewClient: the check for the own id, the limit on peers and a failed peer_add are not modelled.
- RelayingObject.Client.RelayFrame: the new flow's number and buffer, which the allocator picks, are parameters.
- DhcpObject.BDHCPClientCore.RecvHandlerDone: a reply arrives with its header checked and its options decoded; the option-parsing loop is not modelled.
- Dhcp.LeaseRespected: time is an event and the random transaction id a parameter; message formatting is not modelled.
- The up and up_report job and the keep-alive timers of the data protocol: a timer and a flag, easier than the rest.
- PacketPassConnector and the other flow components (priority queue, buffers, notifiers, copiers): easier variants of what is proved.
- AVL balancing: trees are maps or ordered sequences.
- Failure of memory allocation, logging and debug objects.
- SPProto ciphers, hashes and one-time passwords, SSL, sockets, argument parsing and the device itself.
