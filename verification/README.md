# PEMI in Dafny

PEMI is a QUIC middlebox. It groups the packets it forwards into flowlets, attributes the
encrypted replies to them, infers which packets were lost and sends those again. This project
models it and proves what it relies on.

- `Matching`, `LossInference`, `Flowlets`: from the replies of one flowlet to a loss set.
- `QueueModel`, `PacketQueues`: the two-level queue of packets and flowlets, with its history.
- `Reordering`, `Connections`: one connection, its delayed acknowledgements and its losses.
- `IdleHeap`, `Accounts`, `Middlebox`: the connection map, idle expiry, the retransmission limit,
  and whole runs of the event loop.
- `WindowedMin`, `CongestionControl`: the estimators.
- `Octets`, `QuicHeader`, `Coalesced`: wire formats.

Conventions. Time is real-valued nanoseconds on one clock that never goes back; subtracting a
later `Instant` gives zero. Floating-point costs and factors are exact reals; the matcher works in
nanoseconds, where the program scales to seconds. Collections that the program owns (`VecDeque`,
`Vec`, `HashMap`, `BinaryHeap`) are `seq` and `map` fields of classes; a `Flowlet` is a value inside
its queue. A panic of the queue is a precondition of the operation that raises it (`|packets| <= 1000`
for `Add`, more replies than packets for the matcher). Higher up a panic is an outcome: `Stopped` for a
datagram, not `ok` for a retransmission, a timer or an ACK. `Conn.Stops` says when a connection
panics. The congestion controller is modelled on its own; for the connection and the middlebox its
verdict on an event (`WithinPace`, `TooFast` or `Panics`) is an input, and so is whether traffic to the
client dominates, so their results hold for every controller, one that panics included. Sending is an
append to an output sequence (`forwarded`, `resent`).

Ghost fields record history: every packet added to a queue, every loss declared, every client
datagram that arrived. The invariants `PacketQueue.Valid`, `Conn.Valid` and `Pemi.Valid` speak of
that history, so what they say holds over every run, not only of the current state.

Places where the code does not do what it is said to do, each with an input and its condition, which is exact but for one unwrap:

- The congestion window is bounded from the last increase before slow start ends, not from its end:
  `cwnd_update_slow_start` leaves `cwnd_change` alone when it leaves slow start
  (pemi/src/cc.rs:176-181). `GrowthFromExitFails` gives the RTTs, `GrowthFromExit` says when the bound
  may be counted from a moment.
- The standing RTT can be smaller than the minimum RTT, so the subtraction at pemi/src/cc.rs:104 can
  panic: `StandingCanUndercutMinimum` gives the RTTs, `UndercutExactly` the condition.
- A comment says the client queue cannot be empty when the first server packet comes
  (pemi/src/conn.rs:364). `OpenedThenTurnedAway` gives datagrams that open a connection without
  entering its queue, `FirstServerDatagramStops` the run that then panics, and
  `ServerRttIsMeasurable` the condition. The same unwrap for the client (pemi/src/conn.rs:354) can
  fail after a calibration of zero, as the run of `ZeroCalibrationStops` shows; it can fail only after
  a client RTT of zero was measured, calibrated or used for a timeout (`StopsExactly`).
- A sweep may keep a connection that was idle for longer than the idle timeout:
  `IdleConnectionSurvives` gives the run, `RemoveIdleConns` the condition.

## Model

| member | source | states |
|---|---|---|
| Matching.MatchSentReply | pemi/src/queue.rs:156-210 | The mapping attributes every reply to exactly one packet, in order, at the least total error; among the cheapest attributions it is the one that gives every reply the latest packet. If the replies can all have come exactly one RTT after distinct packets in order, each is given to a packet sent one RTT before it, and to that very one if no two were sent at once. Every reply is given to the last of the packets nearest to one RTT before it, among those between its neighbours' packets. Only set cells are visited. |
| Matching.LatestMatchingIsOptimal | pemi/src/queue.rs:181-207 | The matching the recurrence follows is cheapest among all complete order-preserving matchings, and no cheapest one gives any reply a later packet. |
| Matching.LatestIsLatest | pemi/src/queue.rs:184-188 | Consequence of the strict tie-break: every cheapest matching of every prefix is pointwise no later. |
| Matching.JoinMeetError | pemi/src/queue.rs:152-155 | Pointwise later and earlier of two matchings are matchings, with the same total error together. |
| Matching.LatestCheapestIsUnique | pemi/src/queue.rs:152-155 | The contract of the matcher determines its answer. |
| Matching.ExactMatchingIsFound | pemi/src/queue.rs:179-196 | An attribution without error, if there is one, is what is found; it is unique if no two packets were sent at once. |
| Matching.EveryReplyIsNearest | pemi/src/queue.rs:179-196 | No reply can do better alone: its packet is the last of those nearest to one RTT before it, among the packets between its neighbours'; with one reply, among all. |
| Matching.FillTables | pemi/src/queue.rs:163-193 | Every cell a matching can reach holds the step of the recurrence. |
| Matching.WalkBack | pemi/src/queue.rs:196-209 | Walking back through the cells yields the mapping of the whole problem. |
| LossInference.ExtractPartLoss | pemi/src/queue.rs:217-297 | A packet is lost iff no matched packet is in its run of close gaps and, at threshold 2, its maximal run of such packets has length two or more or reaches the end of the flowlet. |
| LossInference.InferReplies | pemi/src/queue.rs:226-254 | The spreading scan marks exactly the packets linked by close gaps to a matched one. |
| LossInference.ApplyElicitingThreshold | pemi/src/queue.rs:257-287 | The second scan leaves exactly the losses of threshold 2. |
| LossInference.LostByNeighbours | pemi/src/queue.rs:265-285 | At threshold 2 a loss is told by its two neighbours and the end of the flowlet. |
| LossInference.HigherThresholdLosesLess | pemi/src/queue.rs:257-287 | The losses at threshold 2 are among those at threshold 1. |
| LossInference.LossesAndReplies | pemi/src/queue.rs:289-296 | No matched packet is lost; losses and replies together never outnumber the packets. |
| LossInference.CloseToMatchedIsKept | pemi/src/queue.rs:228-256 | A packet less than 100 microseconds before or after a matched one is not lost. |
| LossInference.UnmatchedAreLost | pemi/src/queue.rs:228-296 | Where no two packets are that close and every reply stands for one packet, exactly the unmatched packets are lost. |
| LossInference.ExtractRttSamples | pemi/src/queue.rs:299-316 | Exactly one sample per reply, in reply order, from the packet it is attributed to. |
| Flowlets.FindTarget | pemi/src/queue.rs:739-759 | The early-exit search finds the first flowlet nearest to the moment the reply answers. |
| Flowlets.LaterReplyLaterFlowlet | pemi/src/queue.rs:738-772 | In a fixed queue a later reply never goes to an earlier flowlet. |
| Flowlets.TargetByTime | pemi/src/queue.rs:738-765 | A reply that came one RTT after some moment of a flowlet goes to that flowlet; between two flowlets it goes to the nearer one, in the middle to the earlier. |
| Flowlets.InferPartLoss | pemi/src/queue.rs:108-150 | Matching with the RTT chosen by the duration ratio, then both extractions, computes the loss set and samples of a partly answered flowlet. |
| Flowlets.InferLoss | pemi/src/queue.rs:652-691 | The four cases of a completed flowlet; the matcher runs only with at least one reply and fewer replies than packets. |
| Flowlets.PartlyAnsweredFlowlet | pemi/src/queue.rs:676-691 | A partly answered flowlet yields as many samples as replies, loses no attributed packet, and at most as many as replies are missing; the attribution is the latest cheapest one. |
| Flowlets.LastReplyToLastPacket | pemi/src/queue.rs:115-135 | If the replies span at least 0.8 of the sending time, the last reply is attributed to the last packet; otherwise the matcher uses the RTT of the connection. |
| QueueModel.PartitionHoldsAllNumbers | pemi/src/queue.rs:427-438 | The flowlets' packet numbers, concatenated, are the numbers of the queued packets. |
| QueueModel.AddKeepsSound | pemi/src/queue.rs:585-637 | Adding a packet keeps numbers consecutive, flowlets partitioning and separated, and the history true. |
| QueueModel.RemoveKeepsSound | pemi/src/queue.rs:866-893 | Removing the front flowlet keeps all that, and the losses it declares are originals, in increasing order. |
| QueueModel.LossLogGrows | pemi/src/queue.rs:868-883 | Declared losses are always packets added with that payload and number, strictly increasing, so none is declared twice and no copy is. |
| QueueModel.AnswerKeepsQuiet | pemi/src/queue.rs:728-772 | After a reply no flowlet is complete and only the front one holds replies. |
| QueueModel.ExpiredPrefixIsAllExpired | pemi/src/queue.rs:792-809 | The flowlets the timeout loop meets are all the expired ones. |
| QueueModel.MarksAreIrrelevant | pemi/src/queue.rs:768-778 | The completion mark does not change what a flowlet yields. |
| QueueModel.CompletesRightly | pemi/src/queue.rs:644-699 | Of the flowlets completed, one without replies loses all its datagrams, one with enough replies none; as many replies as packets give the age of each packet at its reply as samples, fewer one sample for each reply, more give none. |
| PacketQueues.PacketQueue.constructor | pemi/src/queue.rs:462-475 | An empty queue satisfies the invariant. |
| PacketQueues.PacketQueue.Add | pemi/src/queue.rs:562-639 | The packet gets the next number and joins the last flowlet unless the gap exceeds the flowlet timeout; interval and threshold are updated; the invariant holds. |
| PacketQueues.PacketQueue.GetPacket | pemi/src/queue.rs:914-925 | Indexing by offset finds exactly the packet with that number. |
| PacketQueues.PacketQueue.RemoveCompleteFlowlet | pemi/src/queue.rs:845-893 | Exactly the packets of the front flowlet leave; the lost originals among them are queued, in order. |
| PacketQueues.PacketQueue.CompleteOneFlowlet | pemi/src/queue.rs:644-695 | Removes the front flowlet with the losses and samples it is due. |
| PacketQueues.PacketQueue.CheckReply | pemi/src/queue.rs:701-780 | Rejects exactly when no flowlet fits; else the nearest flowlet gets the reply. Of several flowlets exactly those before it leave, and it stays with its replies; an only flowlet stays unless it holds more than 100 packets. Those that leave lose all datagrams if they had no reply, none if they had enough, and yield their samples. |
| PacketQueues.PacketQueue.RejectsOnlyOutside | pemi/src/queue.rs:705-736 | A reply is rejected iff nothing is queued, every flowlet is past its deadline, or it is more than the slack too early for all of them and none was answered; so never one that came an RTT after some moment of a queued flowlet. |
| PacketQueues.PacketQueue.OnTimeout | pemi/src/queue.rs:782-811 | Removes exactly the flowlets whose end plus end-timeout is before now. All datagrams of those without replies are declared lost, none of those with enough; samples come from the answered one only. |
| PacketQueues.PacketQueue.DeadlineIsExact | pemi/src/queue.rs:509-520 | A flowlet is past its deadline once one RTT and the smoothed packet gap times both factors have passed since its end. |
| PacketQueues.PacketQueue.Timeout | pemi/src/queue.rs:486-496 | The front flowlet's deadline is the earliest of all. |
| PacketQueues.PacketQueue.ResetDueToRttDeviation | pemi/src/queue.rs:522-536 | Stopping at the first unanswered flowlet still removes every answered one, at most one. |
| PacketQueues.PacketQueue.PopRetransmitFront | pemi/src/queue.rs:895-897 | Takes the oldest declared loss out; nothing else changes. |
| Reordering.SentIsArrival | pemi/src/conn.rs:533-585 | Cutting and sending loses, duplicates and invents no datagram. |
| Reordering.BoundedReordering | pemi/src/conn.rs:565-584 | What is sent is a permutation of what was cut; a datagram is held back by at most one place and overtakes at most six. |
| Connections.ConnIdIdentifiesPair | pemi/src/conn.rs:37-47 | Two address pairs share an ID iff they are the same pair in either order. |
| Connections.TaskFromQueue | pemi/src/retrans.rs:13-37 | The loss queue is emptied in order; the losses are kept only in the protected direction and below overspeed. |
| Connections.ClientStream | pemi/src/conn.rs:517-585 | Every client datagram was sent once or waits; the sent ones are the first to arrive, slightly reordered; at most six wait, in order. |
| Connections.Conn.SendOn | pemi/src/lib.rs:266-271 | A client datagram is delayed exactly under overspeed after the handshake, else sent at once, and then nothing waits that it could overtake. What has been sent and what waits afterwards is determined. |
| Connections.Conn.AddDelayedAck | pemi/src/conn.rs:522-530 | The datagram joins the waiting ones with its RTT, which are then looked at. |
| Connections.Conn.CheckDelayedAcks | pemi/src/conn.rs:533-585 | All that waits is sent in order without overspeed, tail first when the packet or time threshold is passed, and otherwise kept; at most six stay. |
| Connections.DueExactly | pemi/src/conn.rs:548-571 | What waits is due iff more than three datagrams wait or the first for more than 9/8 of its RTT and a millisecond; six and 5/4 once overspeed has lasted an RTT. |
| Connections.AfterGoes | pemi/src/conn.rs:517-585 | A client datagram that is not to be delayed is the last one sent; one that is waits behind the others, and if they are due all are sent, it first. A server datagram has what waits sent in order once the server is not too fast, tail first if due, and else lets it wait. |
| Connections.Conn.ProcessUdpPacket | pemi/src/conn.rs:338-422 | Keeps the connection's invariant. RTTs, packets, flowlets and losses afterwards are determined by the state before: a server datagram may be the first to measure the server RTT from and joins the queue under the next number, in a new flowlet iff the gap is too large, and nothing already queued changes; a client datagram is queued while the server RTT is unknown, is given as a reply to the nearest flowlet, and the flowlets that completes leave with their losses and samples. The overspeed flag follows the verdict; the waiting datagrams are looked at. |
| Connections.Conn.MeasureFirstRtt | pemi/src/conn.rs:347-367 | The first RTT on each side is the greatest age of the packets sent there; a known RTT is kept. |
| Connections.SmoothedConverges | pemi/src/conn.rs:291-305 | Every sample leaves seven eighths of the distance between the client RTT and its value; the first one replaces an unknown RTT. |
| Connections.ServerRttIsMeasurable | pemi/src/conn.rs:358-366 | In every reachable state a server datagram finds no packet to measure the server RTT from iff no client datagram of the connection was accepted. |
| Connections.StopsExactly | pemi/src/conn.rs:347-367 | A client datagram stops the program iff the client RTT is to be measured with nothing queued, or the server RTT is unknown and more than 1000 were accepted; a server datagram iff none was accepted or the queue holds more than 1000. The first case needs a client RTT that was zero before. |
| Connections.ZeroCalibrationStops | pemi/src/conn.rs:351-357 | A run of three datagrams and a calibration of zero to that first case. |
| Connections.Conn.RttCalibration | pemi/src/conn.rs:424-464 | When an end-to-end RTT has passed the calibration is dated; exactly when the deviation is also too large, the sample becomes the RTT and the answered flowlet is forgotten. All other flowlets and all losses stay. |
| Connections.CalibrationIsExact | pemi/src/conn.rs:424-464 | A calibration that is due leaves the RTT within the slack of the sample, and alone if it was within; one that is not due leaves it alone. |
| Connections.Conn.OnTimeout | pemi/src/conn.rs:507-514 | Exactly the flowlets past their deadline leave, with their losses; their samples are smoothed into the client RTT; the others stay. No retransmission becomes possible that was not. |
| Connections.TimerIsExact | pemi/src/conn.rs:507-514 | What a timer leaves are exactly the flowlets not past their deadline, and all of them while the RTT is unknown. |
| Connections.Conn.RecordRetransPacket | pemi/src/conn.rs:467-480 | The copy is queued under the next number without payload, so it cannot be retransmitted; no retransmission becomes possible that was not. |
| Connections.ResentAtMostOnce | pemi/src/retrans.rs:13-37 | Over any run, what is sent to a client again are originals of its server that were handed over as lost, with their payloads, in increasing order: none twice, no copy. |
| Connections.Conn.ToClientRetransTask | pemi/src/conn.rs:589-597 | All losses are handed over, and become a task from server to client or are dropped; those of a task were not sent again before. |
| Connections.Conn.FirstQuicPacket | pemi/src/conn.rs:168-193 | Only an Initial opens a connection; reports how much of the datagram it takes. |
| Connections.Conn.ProcessQuicPacket | pemi/src/conn.rs:197-234 | Tracks the handshake, refreshes the access time, and reports how much of the datagram is taken. |
| IdleHeap.FewerStale | pemi/src/lib.rs:390-428 | Each round of the sweep leaves fewer stale heap entries. |
| IdleHeap.PopKeepsMatch | pemi/src/lib.rs:408-420 | Popping takes exactly one connection out of the heap. |
| IdleHeap.SweptAll | pemi/src/lib.rs:388-429 | A sweep that leaves no stale entry has removed exactly the idle connections with stale entries. |
| IdleHeap.TotalOfUpdate | pemi/src/lib.rs:258-285 | Changing one connection changes the total of possible retransmissions by its difference. |
| Accounts.TouchKeepsBooks | pemi/src/lib.rs:369-373 | An event on one connection keeps heap, map, tasks and counters consistent. |
| Accounts.OpenKeepsBooks | pemi/src/lib.rs:382-386 | So does a new connection. |
| Accounts.CloseKeepsBooks | pemi/src/lib.rs:406-414 | So does removing a connection that no task needs. |
| Accounts.ReenterKeepsBooks | pemi/src/lib.rs:415-421 | So does entering a connection again that is not idle. |
| Accounts.TaskKeepsBooks | pemi/src/lib.rs:283-285 | Losses that become the only task of their connection stay covered by the datagrams counted. |
| Accounts.RetransmitKeepsBooks | pemi/src/lib.rs:327-338 | A retransmission that passes the rate test stays within the limit, and other connections' tasks stay losses not sent again yet. |
| Accounts.RetransmissionsAreBounded | pemi/src/lib.rs:501-506 | With the books in order, retransmissions are at most the datagrams, and at most 100 or a tenth of the datagrams plus one, and stay so as datagrams arrive. |
| Accounts.FreshHeapBoundsIdleTime | pemi/src/lib.rs:399-421 | With no stale heap entry, every connection was accessed within two idle timeouts. |
| Middlebox.Pemi.NewConn | pemi/src/lib.rs:382-386 | The connection is entered in the map and, once, in the heap, and both its queues get the factors of the middlebox, which every connection keeps. |
| Middlebox.Pemi.QuicConnProcess | pemi/src/lib.rs:346-379 | Works through the pieces of the datagram; fails as they do; opens at most the connection of the datagram. |
| Middlebox.InitialIsKnown | pemi/src/lib.rs:360-367 | A datagram leaves its connection known iff it was known before or the datagram begins with an Initial; none is dealt with as QUIC otherwise. |
| Middlebox.Pemi.RemoveIdleConns | pemi/src/lib.rs:388-429 | Removes exactly the connections that are idle and whose heap entry is stale, and leaves none idle for two timeouts. A stale entry of another connection is re-inserted at now, fresh entries stay. It terminates, and every lookup succeeds. |
| Middlebox.IdleConnectionSurvives | pemi/src/lib.rs:415-421 | One idle timeout is not the bound: a run of opening, access and two sweeps after which a connection idle for 179 seconds is still there. |
| Middlebox.Pemi.CollectTask | pemi/src/lib.rs:283-285 | All losses of the connection are handed over; they are its task iff there are some, the direction is protected and the server is not too fast. Tasks of other connections stay. |
| Middlebox.Pemi.Dispatch | pemi/src/lib.rs:233-290 | The outcome follows from the pieces of the datagram, the state of its connection and the controller's verdict alone. What the connections, their histories, RTTs, queues, losses and access times are afterwards is stated for each outcome; only its own connection can get a task. |
| Middlebox.Pemi.ProcessPacket | pemi/src/lib.rs:220-291 | Counts the datagram. Its outcome is determined: passed on iff its pieces are not QUIC, failed iff one is cut short, stopped iff a Handshake comes from the client, the controller panics or the connection stops, else accepted. Accepted, it is entered exactly once in the history of its own connection, which may be new; if it comes from the client it is sent or waits as the state before determines; and it does to its RTTs, flowlets, losses and pace what the state before determines; the losses declared are handed over, as its task or to be dropped, and no other connection gets a task. Exactly the idle connections with stale entries go; the record of every other connection is unchanged. Passed on, no connection goes and no queue changes. The invariant holds in every case, and no loss is left pending. |
| Middlebox.FirstServerDatagramStops | pemi/src/conn.rs:358-366 | A run of two datagrams: one that opens a connection and is turned away, and the first of its server, which stops the program. |
| Middlebox.Pemi.ProcessTimeout | pemi/src/lib.rs:452-474 | Removes exactly the idle connections with stale entries. Unless a controller panics, each remaining connection with a known RTT completes exactly the flowlets past their deadline, and then hands over, as its only task or to be dropped, exactly the losses still pending, of which there are none between events, and those these flowlets yield. The invariant holds. |
| Middlebox.Pemi.RttCalibration | pemi/src/lib.rs:296-300 | Every connection's RTTs, queue and losses become what the sample and the state before determine: exactly the deviating ones take the sample and forget their answered flowlet. No history changes; the invariant holds. |
| Middlebox.Pemi.Retransmit | pemi/src/lib.rs:335-337 | The packet is sent and counted, and its copy recorded iff the queue holds at most 1000 packets; else the program stops. The limit holds either way. |
| Middlebox.Pemi.ProcessRetransTask | pemi/src/lib.rs:324-340 | As many packets as the limit lets through are sent again, once each, in order, and the rest is dropped; it stops iff these overflow the queue. The connection exists. |
| Middlebox.Pemi.DrainTasks | pemi/src/bin/main.rs:99-102 | All tasks are carried out, newest first, iff what the limit lets through fits the queues; what is sent again is determined, and every copy is recorded in the queue of its connection, so the queue sizes are too. No client stream, pending loss or access time changes. |
| Middlebox.QuotaIsExact | pemi/src/lib.rs:324-340 | Packets are let through exactly as long as the limit is not exceeded: the next one would exceed it, or all were let through; the first hundred datagrams know no limit. |
| Middlebox.AllAreResent | pemi/src/lib.rs:324-340 | Without a limit every loss of every task is sent again. |
| Middlebox.Pemi.Handle | pemi/src/bin/main.rs:86-223 | One event and its retransmissions, as a function of the state before. The connections that remain are determined. So is the plan: one task for each connection with all losses the event makes it declare, if there are any, its direction is protected and its server is not too fast, and none otherwise; and how long every queue is. It succeeds iff the event is not refused and the plan fits the queues; then exactly the plan is sent, as far as the limit goes, and recorded in the queues. Every client stream grows by exactly what the event brought. Under overspeed after the handshake a client datagram waits, and is sent, first of all that wait, only if they are due; otherwise it is the last one sent; what waits of other connections does not move. Moreover exactly the connection of a datagram is accessed, and nothing is left pending. |
| Middlebox.Run | pemi/src/bin/main.rs:86-223 | After any sequence of datagrams, timers and calibrations, also one that stops: the invariant holds, all datagrams are counted, retransmissions are at most the datagrams and within the limit. It stops only at a datagram that its connection, known or not, cannot read, at a panic, or at a full queue, as the last state shows. If it does not stop, nothing is pending. Every connection heard of less than an idle timeout before the last event is then in the map, so that one leaves only by expiry. Each holds exactly the datagrams of its client since the one that opened it, an Initial that came when the connection had not been heard of or had expired. Every client stream was sent on, slightly reordered, but for at most six datagrams, which wait in order. |
| WindowedMin.MinStepTracks | pemi/src/minmax.rs:101-119 | The slots stay real samples in order, each no larger than any later one, the first inside the window. |
| WindowedMin.WindowedMinimum | pemi/src/minmax.rs:101-174 | After any run with any windows: slots sorted by time and value, and a result that is the exact minimum of a suffix of the history starting inside the window. |
| WindowedMin.LiveSlotsCount | pemi/src/minmax.rs:101-174 | In any run a slot that is still inside the window is not forgotten: the result is no larger, and with the first inside it is the smaller of that and the new sample. |
| WindowedMin.MaxMirrorsMin | pemi/src/minmax.rs:122-140 | The windowed maximum is the windowed minimum of the negated samples. |
| WindowedMin.Minmax.Reset | pemi/src/minmax.rs:90-98 | All three slots hold the sample. |
| WindowedMin.Minmax.RunningMin | pemi/src/minmax.rs:101-119 | The array is updated in place to the slots of the step; the first is returned. |
| WindowedMin.Minmax.RunningMax | pemi/src/minmax.rs:122-140 | The same for the maximum. |
| WindowedMin.Minmax.UpdateSubwindows | pemi/src/minmax.rs:143-174 | The in-place shifts are those of the step. |
| CongestionControl.RunKeepsWindow | pemi/src/cc.rs:91-182 | Over any run the window is at least 5, at least 10 in slow start, and the velocity a power of two up to 32. |
| CongestionControl.VelocityDoubles | pemi/src/cc.rs:121-141 | As long as ACKs more than an RTT apart keep the direction of the window, the velocity after n of them is the lesser of 32 and its first value doubled n times. |
| CongestionControl.UpRunDoubles | pemi/src/cc.rs:121-141 | So it is for ACKs that go up, from a window that goes up. |
| CongestionControl.FirstTurnResets | pemi/src/cc.rs:121-141 | The first ACK more than an RTT after the last turn that turns the window sets the velocity to one. |
| CongestionControl.HeldWithinRtt | pemi/src/cc.rs:121-141 | Within an RTT of the last turn velocity and direction stay, however many ACKs come. |
| CongestionControl.SlowStartDoubles | pemi/src/cc.rs:165-182 | In slow start, n ACKs that go up, at least an RTT apart, double the window n times. |
| CongestionControl.AvoidanceIsExact | pemi/src/cc.rs:145-163 | Later an ACK moves the window by twice the velocity for each RTT since the last change, and never below 10. |
| CongestionControl.SlowStartEndsOnce | pemi/src/cc.rs:166-182 | Once ended, slow start never comes back. |
| CongestionControl.AvoidanceGrowth | pemi/src/cc.rs:145-163 | However many ACKs arrive, the window grows by at most 64 per least RTT since the change it starts from. |
| CongestionControl.ControllerGrowth | pemi/src/cc.rs:91-182 | In every state of the controller, counted from any earlier moment after slow start, the window has grown within that bound, and slow start is over. |
| CongestionControl.GrowthFromExitFails | pemi/src/cc.rs:166-182 | Three ACKs with RTTs of 100 and 140 milliseconds, through both filters of a fresh controller: counted from the end of slow start, the bound fails. |
| CongestionControl.GrowthFromExit | pemi/src/cc.rs:145-182 | From any window in congestion avoidance, all runs of ACKs from a moment on stay within the bound counted from that moment iff the time since the last change is worth no more than the distance to the minimum window. |
| CongestionControl.StandingCanUndercutMinimum | pemi/src/cc.rs:93-104 | A fresh controller handles four ACKs with RTTs below half a second and panics at the fifth: its standing RTT is below its minimum RTT. |
| CongestionControl.UndercutExactly | pemi/src/cc.rs:93-104 | After any readings the standing RTT is not below the minimum RTT iff the minimum was read no later, or they are equal, or the minimum is a smaller one read by a send; if sends repeat the latest RTT, iff it was read no later or they are equal. |
| CongestionControl.UndercutByTimes | pemi/src/cc.rs:93-104 | On a clock that advances with every reading the two times in the filters decide it. |
| CongestionControl.Copa.OnAckSend | pemi/src/cc.rs:91-142 | Both filters take the RTT. It panics iff the standing RTT is then below the minimum RTT; else the window takes the step, upward iff the current rate is at most the target. Filters and window stay what all readings and ACKs so far lead to. |
| CongestionControl.GoesUpExactly | pemi/src/cc.rs:104-114 | An ACK goes up iff the window times the queueing delay is at most twice the standing RTT. |
| CongestionControl.Copa.OnDataSend | pemi/src/cc.rs:72-88 | Too fast iff the sends that no window so far has left behind exceed the window's share of an RTT; the minimum filter takes the RTT, the window stays. |
| CongestionControl.Copa.ResetRttFilters | pemi/src/cc.rs:185-188 | Both filters start anew, the window stays. |
| CongestionControl.UsedWindow.OnDataSend | pemi/src/cc.rs:44-50 | The record holds exactly the sends not older than any window so far. |
| Octets.VarintRoundTrip | pemi/deps/octets/src/lib.rs:174-196 | A value that fits an allowed length is read back after being written in it, nothing more is consumed, and the first byte tells the length. |
| Octets.VarintBytesRoundTrip | pemi/deps/octets/src/lib.rs:438-468 | Reading a varint and writing it in the length read restores the bytes. |
| Octets.VarintLenIsShortest | pemi/deps/octets/src/lib.rs:667-679 | A length can hold a value iff it is at least the computed one. |
| Octets.Cursor.GetVarint | pemi/deps/octets/src/lib.rs:174-196 | The cursor reads what the format says and advances by it. |
| Octets.Cursor.GetUint | pemi/deps/octets/src/lib.rs:76-84 | Reads network-order integers; fails exactly when too few bytes are left. |
| Octets.MutCursor.PutUint | pemi/deps/octets/src/lib.rs:86-109 | Writes the low bytes in network order and nothing else. |
| Octets.MutCursor.PutVarintWithLen | pemi/deps/octets/src/lib.rs:438-468 | Writes the encoding in that length and nothing else. |
| Octets.MutCursor.PutVarint | pemi/deps/octets/src/lib.rs:432-434 | Writes the shortest encoding, which reads back as the value. |
| QuicHeader.ParseRecoversLongHeader | pemi/src/quic_parse.rs:191-272 | A long header laid out as in section 17.2 of RFC 9000 is recovered: type, version, both IDs and length. |
| QuicHeader.FromBytes | pemi/src/quic_parse.rs:191-272 | The cursor version parses what the format function says, with the same errors. |
| Coalesced.PiecesTile | pemi/src/lib.rs:354-378 | Every piece is non-empty and inside the datagram; on success the pieces tile it; a connection is opened by the first piece only. |
| Coalesced.HandshakedAcceptsAll | pemi/src/conn.rs:226-231 | After the handshake no datagram is turned away. |
| Coalesced.OpenedThenTurnedAway | pemi/src/conn.rs:358-366 | An Initial followed by a short header opens a connection and is turned away. |
| Coalesced.HandshakeIsAccepted | pemi/src/conn.rs:204-221 | A Handshake packet of the server, alone in its datagram, is accepted and ends the handshake. |
| Coalesced.OnlyInitialOpens | pemi/src/conn.rs:174-179 | A long header of another type opens no connection, whatever follows it. |
| Coalesced.PaddedInitialIsTaken | pemi/src/conn.rs:181-191 | An Initial packet with padding behind it is taken whole, by a new connection or a known one. |
| Coalesced.ClientHandshakePanics | pemi/src/conn.rs:207-214 | A Handshake packet of the client before the server's ends the program. |
| Coalesced.CutShortFails | pemi/src/conn.rs:182-183 | A packet that is cut short is an error. |

## Left out

- Sockets, transparent sending, ICMP probing and the asynchronous loop: input and output. Their
  results (datagrams, clock readings, RTT samples) are inputs of the model.
- Dominant-direction measurement and the spin bit: the direction is an input.
- Proxy-only mode: it forwards every datagram and touches no other state.
- Rounding of `f64`, `mul_f64` and `div_f32`: exact reals are used.
- `Flowlet::close_count`, logging, packet identifiers, cycle counting: nothing depends on them.
- `BinaryHeap` and `HashMap` internals: the heap is an unordered sequence from which some oldest
  entry is peeked, and connections are visited in any order.
- Cursor helpers that PEMI never calls, and the empty datagram: no link to the core.
- Conn.Timeout: the idle timer of `PEMI::timeout` is not modelled; it only decides when to wake up.
- Copa.OnAckSend: takes RTTs above zero; a zero RTT makes the rates infinite or undefined in `f64`.
- Pemi.ProcessPacket: the verdict of the congestion controller, its panic included, is an input, since
  exact reals cannot follow the controller through the infinite rates a zero RTT gives it.
