# A model of the UDX stream protocol

async-udx carries reliable byte streams over UDP. A stream numbers its packets, keeps them until
they are acknowledged, sends them again when a timer finds them still outstanding, bounds what is in
flight by a congestion window, and puts what it receives back in order. A socket carries the packets
of many streams: it packs runs of equally long packets into one transmit, hands transmits to the
kernel in batches and sorts what arrives by stream id.

This project models the stream state machine, two of them joined by a network that loses,
duplicates and reorders packets, the wire format, and the socket's queues, and proves what the
protocol promises over every run.

## How it is built

* **The stream as values.** `StreamModel` gives every operation of `UdxStreamInner` as a total
  function on a state. `Apply` and `Run` make runs of them: writes, reads, closing, driver polls
  with any incoming packets, and stamps from the socket.
* **The stream as code.** `Stream.UdxStream` is the class with the source's fields, loops and shared
  packet objects. Each method is proved to change the abstract value exactly as the function does.
  `PacketObject.Packet` is the packet that a stream and the socket both hold.
* **What holds of it.** `StreamInvariant` is the invariant of one stream against any peer;
  `Retransmission`, `GivingUp`, `Timer`, `Estimates`, `Acknowledgement`, `Window`, `Overshoot`,
  `Parking`, `Reassembly`, `Closing`, `Addressing`, `Arrivals`, `Reading`, `Reporting` and `Statistics`
  are about whole runs of one. `Network` joins two of them by a
  network that loses packets for good, `Endpoints` carries the results about one over to each side,
  and `NetworkProgress` and `Loss` are about what can still be delivered.
* **The packet path.** `Batching` and `Path` take a send queue to packet sets, buffers, datagrams and
  back to packets; `Demux` and `Socket` take them through the socket. `Transport` follows what a poll
  hands over to the peer's inbox. `Wire` is the header.
* **Arithmetic.** `Rto` is the timeout estimator, `Congestion` the window growth.

Sequence numbers and durations are natural numbers (durations in nanoseconds). The clock, whether a
poll finds the timer ready, what the kernel accepts and what it delivers are inputs. A waker is a
boolean: somebody is parked. Three histories are kept beside the source's state: the body of every
data packet by sequence number, how often each packet was queued, and in the socket what was sent
and stamped.

Where the code and its comments differ, the model follows the code. Six promises one would expect
are false of it. Each has its exact condition and an input for which it fails:

* a poll whose selective acknowledgements empty `outgoing` may wake no writer
  (`Parking.SackStrandsWriter`, `Parking.SackStrandsWriterExample`);
* a read that put bytes into the buffer may still report that it is pending
  (`Parking.ReadParksWithBytes`, `Parking.ReadParksWithBytesExample`);
* giving up on a peer halves the window while all packets are still counted as in flight
  (`GivingUp.WindowAfterGivingUp`, `Overshoot.GivingUpOvershoots`);
* raw datagrams make the socket stamp packets that have not been sent (`Socket.StampsExactly`,
  `Socket.RawDatagramIsMistaken`);
* a packet of which seven copies are lost is never sent again, so that data can be undeliverable while
  both drivers run (`Loss.DeliverableExactly`, `Loss.SevenLossesAreFatal`);
* a peer that acknowledges more than was sent can keep a stream from ever giving up
  (`GivingUp.GivesUpExactly`, `GivingUp.OverAcknowledgedExample`).

## Model

| member | source | states |
|---|---|---|
| `Network.PrefixDelivery` | src/stream.rs:617-798 | in every reachable state of two streams over a network that loses, duplicates and reorders, open or closed, each reader has a prefix of what the other side's writer had accepted |
| `Network.NothingAcknowledgedIsLost` | src/stream.rs:533-548 | in every reachable state `remote_acked <= peer.ack <= seq`, every packet is still outstanding or acknowledged by the receiver, no acknowledgement in the network is too high, and every packet an acknowledgement in the network covers is found by the ack loop, stale acknowledgements of retransmissions included |
| `Network.CloseMeansDelivered` | src/stream.rs:88-96 | when a driver finds its stream closed and drained, the peer has acknowledged everything, and one large enough read gives the peer's reader exactly what was accepted |
| `Network.StepInv` | src/stream.rs:484-507 | every move of either side, with any packets of the other side that are under way, and every loss keep the two-party invariant |
| `Network.ReachableInv` | src/stream.rs:122-166 | the two-party invariant holds in every reachable state |
| `NetworkProgress.Restart` | src/stream.rs:354-437 | once the sender knows how far the receiver has got, a poll with a ready timer sends the packet the receiver is waiting for, if it has patience left, and leaves every other outstanding packet waiting or under way |
| `NetworkProgress.FreshAck` | src/stream.rs:322-334 | a `close()` and a poll make a receiver whose driver runs say how far it has got, however many of its acknowledgements were lost |
| `NetworkProgress.AllAcknowledged` | src/stream.rs:354-437 | as long as the receiver's driver runs and the first packet that has to be sent again has patience left, timeouts, retransmissions and fresh acknowledgements can get everything acknowledged, whatever has been lost |
| `Loss.EverythingCanBeDelivered` | src/stream.rs:354-437 | under that condition some continuation delivers every accepted byte, from every reachable state |
| `Loss.GoneForGood` | src/stream.rs:388-431 | a packet out of patience of which no copy is under way and which the receiver lacks stays so in every continuation: it is neither lost again, flushed nor acknowledged |
| `Loss.DeliverableExactly` | src/stream.rs:388-431 | in every reachable state, whatever has been lost, some continuation gives the reader everything accepted if and only if the receiver has it all, or its driver runs and the first packet that it lacks and that is not under way has patience left |
| `Loss.DeliverableAfterLoss` | src/stream.rs:388-431 | if everything under way is lost, that is decided by the patience of the packet the receiver is waiting for |
| `Loss.DeliverableWithoutLoss` | src/stream.rs:88-96 | if every outstanding packet is under way or on the queue, only a receiver's driver that has completed stands in the way |
| `Loss.SevenLossesAreFatal` | src/constants.rs:13 | a byte written, `n` firings, and everything under way lost: the byte can still be delivered if and only if `n < 6` |
| `NetworkProgress.FinishedReceiverIsDeaf` | src/stream.rs:88-96 | once a driver has completed, no continuation moves its `ack`, its reader never gets beyond the packets acknowledged by then, and has everything only if the peer's `seq` ends there |
| `NetworkProgress.DeliveredMeansAcknowledged` | src/stream.rs:743-767 | a reader that has everything the writer sent has had every packet acknowledged, because no packet is empty |
| `StreamInvariant.InvAlways` | src/stream.rs:551-613 | after every run, SACKs and nonsensical acknowledgements included: `inflight` is the sum of the lengths of the packets not waiting, the two statistics are the size of `outgoing` and the sum of its body lengths, each packet was queued `1 + transmits` times less one if waiting, `transmits <= 6`, a waiting packet has been lost, the error is set exactly when the stream is locally closed, every stored packet is a DATA packet, and `incoming` holds all of `[read_cursor, ack)`, not `ack`, and nothing older |
| `StreamInvariant.ApplyInv` | src/stream.rs:340-346 | every single action keeps that invariant from any state that has it |
| `StreamInvariant.AcceptedIsLogged` | src/stream.rs:779-797 | the data packets a write creates carry exactly the bytes it reports as written, in order |
| `StreamInvariant.ReadNextInv` | src/stream.rs:708-726 | reading yields the front of what is readable, as much as fits, leaves the rest readable, reports progress exactly when the cursor moved, and never passes `ack` |
| `Reassembly.ReadableIsNeverRetracted` | src/stream.rs:659-673 | whatever arrives, duplicates and forgeries included, what was readable stays the front of what is readable, and no offset of a partly read packet is reset |
| `Addressing.EveryPacketIsAddressed` | src/stream.rs:300-318 | in every run, each packet queued, outstanding or handed over by a poll names the peer's stream, announces a window of `2^32 - 1`, and is data, a bare acknowledgement or, once the stream is closed, an END packet, with numbers no newer than the stream's |
| `Addressing.QueueIsNumbered` | src/stream.rs:732-748 | in every run, going back through the queue from `seq`, each data packet takes one number and each packet without data repeats the next |
| `Arrivals.IncomingIsAnswered` | src/stream.rs:653-682 | the exact packets one incoming packet is answered with: an END packet if it ends the stream, and if it is data an acknowledgement of everything received by then |
| `Arrivals.PollBecomes` | src/stream.rs:484-507 | whatever arrives and however a poll ends: which error and phase it leaves, when `ack` stays put, when a reader stays parked, and what it counts |
| `Arrivals.PollEnds` | src/stream.rs:82-114 | a poll completes, fails with a broken pipe or parks the driver exactly under its condition, and parks it only with an empty queue |
| `Reading.ReadAnswers` | src/stream.rs:809-838 | in every state a read is ready if and only if the cursor moved, fails with `e` if and only if it did not and the error is `e`, and is pending if and only if it did not and there is none; it delivers the front of what is readable, as much as fits |
| `Reading.EmptyReadAnswers` | src/stream.rs:820-825 | with nothing readable, an open stream parks the reader and a closed one reports its error |
| `Reading.PollWakesReader` | src/stream.rs:675-680 | a poll leaves a parked reader parked if and only if none of its packets is data the reader could get next, none ends the stream and the poll does not fail; a poll that moves `ack` never does |
| `Reading.ParkedReaderIsNotPassedBy` | src/stream.rs:820-830 | in every run a parked reader's stream has no error, nothing has become readable since its last read, and either the cursor is at `ack` or that read filled its buffer and left part of the packet at the cursor |
| `Reporting.ErrorIsLastCause` | src/stream.rs:322-334 | in every run the error is that of the last `close()`, failed poll or poll with an END packet, and there is none before the first |
| `Reporting.WriteAnswers` | src/stream.rs:771-797 | in every state a write fails with `e` if and only if the error is `e`, parks if and only if the stream is open and not even the first packet fits, and otherwise stops only where the next packet does not fit |
| `Reporting.WritesFullPackets` | src/stream.rs:779-786 | all packets of a write are full, except perhaps the last |
| `Reporting.FailureIsReported` | src/stream.rs:776-823 | after a poll in any run that failed with `e`, until another error replaces it, every write answers `e`, and so does every read that takes no whole packet |
| `Reporting.PhaseIsHistory` | src/stream.rs:51-76 | in every run the stream is open if and only if it has no error, closed by both sides if and only if an END packet was taken, and never by the remote alone |
| `Reporting.CloseIsAwaited` | src/stream.rs:168-176 | in every run somebody waits for a `close()` if and only if the driver has not completed since |
| `Reporting.LateCloseIsNeverAnswered` | src/stream.rs:88-96 | a `close()` after the driver has completed is never answered, in no continuation |
| `Statistics.CountersAreExact` | src/stream.rs:617-625 | in every run the received counters are the packets delivered and the bytes of the data among them, and the sent counters are the bytes accepted and the packets created |
| `Statistics.StampIsLastStamp` | src/socket.rs:343-348 | in every run an outstanding packet carries the time of its last stamp, and none if it was never stamped |
| `Retransmission.FlushIsExact` | src/stream.rs:421-437 | a waiting packet is queued exactly when the waiting bytes up to and including it fit beside what is in flight |
| `Retransmission.WaitingFramesExact` | src/stream.rs:421-437 | the packets queued are exactly the waiting ones in range, in increasing order |
| `Retransmission.TimeoutRestartsFirst` | src/stream.rs:383-437 | after a successful timeout, the flush of the same poll queues the first packet the timer looks at if and only if it fits the halved window beside the packets in flight below `remote_acked` |
| `Retransmission.TimeoutAlwaysRestartsFirst` | src/stream.rs:383-437 | with no packet outstanding below `remote_acked` it always does |
| `Retransmission.GivesUpOnlyAfterSevenSends` | src/stream.rs:388-404 | a stream gives up only when some packet in flight has been queued seven times |
| `GivingUp.OlderTriedMore` | src/stream.rs:383-437 | in every run, of two packets the timer looks at the older has been lost at least as often, and more often if it waits while the other does not |
| `GivingUp.LostIsNotQueued` | src/stream.rs:421-437 | in every run no packet that was ever declared lost is on the queue between two actions |
| `GivingUp.BoundedRetry` | src/stream.rs:354-412 | without new acknowledgements, a stream whose first due packet keeps fitting the shrinking window gives up: no run has more firings than that packet has patience, at most six, whatever else is written, read or received |
| `GivingUp.GivesUpExactly` | src/stream.rs:383-431 | in every run, with data outstanding and an effective timer: all silent runs with seven firings give up if and only if a packet is due and the first one fits, beside what is in flight below `remote_acked`, the window left after as many halvings as it has patience |
| `GivingUp.HopelessRun` | src/stream.rs:383-431 | with the window at its floor and that condition failing, no silent run without writes ever gives up |
| `GivingUp.PatientTicks` | src/stream.rs:388-404 | as many firings in a row as the first due packet has patience never make a stream give up |
| `GivingUp.SixFiringsDoNotSuffice` | src/stream.rs:388-404 | a stream that has written a byte survives six firings |
| `GivingUp.SilentPeerIsGivenUp` | src/stream.rs:354-412 | in every run with a peer that acknowledged only what was sent, once there is outstanding data the seventh effective firing without a new acknowledgement finds the stream given up |
| `GivingUp.OverAcknowledgedNeverGivesUp` | src/stream.rs:359-383 | once `remote_acked` has reached or passed `seq`, no run without writes gives up, whatever arrives |
| `GivingUp.OverAcknowledgedExample` | src/stream.rs:383-431 | an acknowledgement of an unsent packet and a write of two lead to a state with a packet due in which any number of effective firings does not give up |
| `GivingUp.SilentPeerHoldsDriver` | src/stream.rs:88-96 | from a state with outstanding data, no run with a silent peer completes the driver, not even after giving up, so that a `close()` is never answered |
| `Timer.FiringsTakeTime` | src/stream.rs:362-366 | if the timer is never early, `n` effective firings without new acknowledgements put its deadline `2n` timeouts after the start |
| `Timer.GivingUpTakesTime` | src/stream.rs:354-404 | in every run, a silent peer is given up no sooner than two timeouts of at least a second for each further loss the first due packet may suffer, twelve seconds for one that was never lost |
| `Timer.StepTimer` | src/stream.rs:354-366 | an effective firing sets the timer two timeouts ahead, a poll with a new acknowledgement one, and nothing else moves it |
| `Timer.ProgressDoesNotFire` | src/stream.rs:556-559 | if the timer is never early, a poll with a new acknowledgement does not fire and leaves the deadline one timeout ahead |
| `Timer.ProgressIsUndisturbed` | src/stream.rs:556-559 | a run in which every poll without a new acknowledgement comes less than a timeout after the last has no effective firing, declares nothing lost and never shrinks the window; the deadline is always one timeout after the last progress |
| `Timer.FiresExactlyWhenDue` | src/stream.rs:354-366 | the next poll of such a run, with a timer ready on time, fires if and only if it has no new acknowledgement, comes a timeout or more after the last, and finds something unacknowledged |
| `Acknowledgement.RetireTwice` | src/stream.rs:533-548 | removing two adjacent ranges of packets one after the other is removing them at once, timing estimates included |
| `Acknowledgement.LargestAckSuffices` | src/stream.rs:533-560 | any acknowledgements in any order, handled one by one, leave the stream as the largest of them does |
| `Acknowledgement.BatchRefinesOneByOne` | src/stream.rs:484-507 | a batch of packets without SACKs leaves the sender as handling the packets one at a time does, the congestion window aside |
| `Window.WindowSafety` | src/stream.rs:743-767 | with a peer that acknowledges only what was sent, every run that has not given up keeps `cwnd >= UDX_MTU` and `inflight <= cwnd + UDX_HEADER_SIZE` |
| `Window.WindowWithAnyPeer` | src/stream.rs:743-767 | with any peer, SACKs and acknowledgements of unsent packets included, every run that has not given up keeps `inflight` at most `cwnd + UDX_HEADER_SIZE` or the bytes in flight below `remote_acked` |
| `GivingUp.WindowAfterGivingUp` | src/stream.rs:367-404 | in every run a poll that gives up changes nothing in the sender but halves its window; the bytes in flight are then within it, one header aside, if and only if they were within the half of it |
| `Overshoot.GivingUpOvershoots` | src/stream.rs:367-404 | a run with sound acknowledgements whose last poll gives up with 4221 bytes in flight in a window of 2800 |
| `Endpoints.SideIsRun` | src/stream.rs:484-507 | each side of a network run is a run of one stream whose peer acknowledges only what was sent and sends no SACK |
| `Endpoints.NetworkWindowSafety` | src/stream.rs:743-767 | in every network run a side that has not given up keeps `cwnd >= UDX_MTU` and `inflight <= cwnd + UDX_HEADER_SIZE` |
| `Endpoints.NetworkGivesUp` | src/stream.rs:354-412 | in every network run a side with outstanding data gives up at the seventh effective firing without news from the other side |
| `Endpoints.NetworkWriterIsNeverStranded` | src/stream.rs:745-795 | in every reachable state neither side has a parked writer without outstanding data |
| `Window.BatchGrowsOneSegment` | src/stream.rs:697-703 | in congestion avoidance, a batch with at most one window of advancing acknowledgements adds at least a byte for each, at least their share at the final rate, and at most one segment |
| `Window.BatchSlowStart` | src/stream.rs:697-703 | below `SSTHRESH`, every advancing acknowledgement of a batch adds a full segment |
| `Congestion.OneWindowGrowsOneSegment` | src/stream.rs:697-703 | the same for the window growth alone, for every start between `SSTHRESH` and `UDX_MTU` squared |
| `Congestion.OneWindowGrowsEnough` | src/stream.rs:697-703 | and at least, for each acknowledgement, a segment squared over the window after the whole round |
| `Congestion.AvoidanceRate` | src/stream.rs:697-703 | each acknowledgement adds the whole part of a segment squared over the window, and one byte when that is nothing |
| `Congestion.SlowStart` | src/stream.rs:697-703 | `n` acknowledgements below `SSTHRESH` add `n` segments |
| `Rto.EstimatesStayBounded` | src/stream.rs:569-591 | if all samples lie in `[lo, hi]` then so does `srtt`, `rttvar` is at most `max(hi/2, hi-lo)`, and `rto` is at least a second and at most what these bounds give |
| `Rto.SampleWeights` | src/stream.rs:577-587 | a sample moves `srtt` an eighth of the way to it and `rttvar` a quarter of the way to the deviation, rounded down, without overshooting |
| `Rto.FirstSample` | src/stream.rs:572-576 | the first sample becomes `srtt`, and half of it `rttvar` |
| `Estimates.TimeoutCovers` | src/stream.rs:588-591 | in every run `rto` is at least a second, `srtt + 20ms` and `srtt + 4 * rttvar`, and equal to one of them |
| `Estimates.EstimatesAreSampled` | src/stream.rs:562-591 | in every run the estimates are the estimator applied to the round-trip times taken, in order, by SACKs and acknowledgements |
| `Estimates.SampleIsRoundTrip` | src/stream.rs:569-571 | each of these is the time since a packet with one loss was handed to the kernel |
| `Estimates.EachIsSampled` | src/stream.rs:562-571 | every stamped packet with one loss that an acknowledgement removes gives one sample, in order of sequence numbers |
| `Estimates.RunEstimatesBounded` | src/stream.rs:569-591 | in every run the estimates are bounded by the round-trip times taken |
| `Rto.ConstantLink` | src/stream.rs:569-591 | a link with one constant round-trip time is estimated exactly |
| `Parking.ParkedWriterIsNeverStranded` | src/stream.rs:745-795 | over every run without SACKs, a parked writer has outstanding data |
| `Parking.EmptyingAckWakes` | src/stream.rs:550-554 | an acknowledgement that empties `outgoing` wakes the writer |
| `Parking.AbortWakes` | src/stream.rs:322-334 | a poll that ends in an error leaves no reader or writer parked |
| `Parking.ProgressWakesWriter` | src/stream.rs:550-554 | a poll with a new acknowledgement leaves a parked writer parked if and only if a full packet with its header does not fit then |
| `Parking.WokenWriterWrites` | src/stream.rs:779-797 | the next write of a writer woken like this accepts at least a full packet or the whole buffer |
| `Parking.SackBlocksExact` | src/stream.rs:600-606 | a SACK body has one block for every eight bytes that another byte follows, each two little-endian words |
| `Parking.RetireBlocksExact` | src/stream.rs:597-613 | SACK blocks remove exactly the outstanding packets they cover |
| `Parking.SackStrandsWriter` | src/stream.rs:484-560 | a poll leaves a parked writer without outstanding data if and only if SACK blocks of its packets cover everything outstanding, none of them acknowledges anything new and none ends the stream |
| `Parking.SackStrandsWriterExample` | src/stream.rs:597-613 | two writes and a poll with one SACK for which that happens |
| `Parking.ReadParksWithBytes` | src/stream.rs:809-838 | a read reports pending although it put bytes into the buffer if and only if the stream is open and its next packet has more unread bytes than the non-empty buffer has room for |
| `Parking.ReadParksWithBytesExample` | src/stream.rs:708-726 | a packet and a buffer for which that happens |
| `Closing.ClosedHeader` | src/stream.rs:300-303 | a closed stream's headers never say DATA, whatever was asked for, and keep END |
| `Closing.ClosedStreamIsFrozen` | src/stream.rs:300-325 | from a closed stream on, in every run, `seq` is frozen, the stream stays closed, and each packet it queues or hands over is an END packet or one it already had |
| `Batching.GreedyIsBatching` | src/stream.rs:454-482 | the sets are non-empty, of one packet size, within the limit, and concatenate to the queue in order |
| `Batching.GreedyIsOptimal` | src/stream.rs:454-482 | no order-preserving batching within these limits has fewer sets |
| `Path.WirePathIsIdentity` | src/packet.rs:99-147 | cutting the buffer of a packet set at the segment size, decoding and stripping headers yields the unskipped packets in order; `num_segments` counts them if and only if the set is not a lone skipped packet |
| `Path.QueueArrives` | src/stream.rs:454-482 | queue, sets, buffers, datagrams and parsing together deliver the unskipped packets of the queue in order |
| `Demux.StreamGetsItsFrames` | src/socket.rs:403-450 | over any datagrams, an open stream gets exactly its own frames in order; a dropped one is taken out of the table by the first frame for it |
| `Demux.StraysAreQueued` | src/socket.rs:376-401 | over any datagrams, those that are no packet, name no stream of the table, or come for a dropped stream after the first such are queued in order up to the limit and dropped beyond it |
| `Demux.SetReachesStream` | src/socket.rs:376-384 | a packet set transmitted to a socket puts its unskipped packets, in order and unchanged, into the channel of the stream they name and changes no other |
| `Transport.EventsReach` | src/socket.rs:298-384 | all packet sets a stream hands over put their unskipped packets, in order and unchanged, into the inbox of the stream they are meant for and change no other |
| `Transport.PollReachesPeer` | src/stream.rs:82-114 | one poll of a stream connected to stream `id`, after any run: what it hands over is what the model sends and reaches inbox `id` and no other, as long as sequence numbers fit the wire |
| `Wire.TypeBits` | src/packet.rs:294-296 | of a type word put together from flags, each flag is read back on its own |
| `Wire.EncodedSlots` | src/packet.rs:344-357 | the place of every header field on the wire |
| `Wire.EncodeThenDecode` | src/packet.rs:317-357 | a header survives encoding and decoding, whatever body follows, if and only if its fields fit their slots |
| `Wire.DecodeThenEncode` | src/packet.rs:317-357 | every accepted datagram is the encoding of the decoded header, followed by its body |
| `Wire.PutU32Le` | src/packet.rs:349-356 | overwrites four bytes of the buffer in place and no others |
| `Wire.EncodeInto` | src/packet.rs:344-357 | overwrites the first 20 bytes with the encoding and keeps the rest, or refuses a short buffer and leaves it alone |
| `PacketObject.Packet.constructor` | src/packet.rs:224-244 | a new packet's buffer is its encoded header and its body; it is not waiting, not skipped, not stamped and never transmitted |
| `PacketObject.ToTransmit` | src/packet.rs:99-147 | the loop over the shared packets builds the transmit of those not skipped at that moment |
| `Stream.CutIntoSets` | src/stream.rs:454-482 | the batching loop produces the optimal batching |
| `Stream.UdxStream.constructor` | src/stream.rs:122-166 | a new stream is the start state and satisfies the invariant |
| `Stream.UdxStream.SendStatePacket` | src/stream.rs:732-741 | queues one state packet, an END packet if the stream is locally closed, and wakes the driver |
| `Stream.UdxStream.Terminate` | src/stream.rs:322-334 | closes locally with the given error, queues the END packet and wakes everybody |
| `Stream.UdxStream.Close` | src/stream.rs:168-176 | terminates and remembers that a close is awaited |
| `Stream.UdxStream.SendDataPacket` | src/stream.rs:743-767 | sends one packet if its body fits the window, and otherwise changes nothing |
| `Stream.UdxStream.PollWrite` | src/stream.rs:771-797 | cuts the buffer into packets until it is used up or the window is full, parking only if nothing went |
| `Stream.UdxStream.HandleRemoteAckForPacket` | src/stream.rs:562-595 | marks the packet to be skipped, takes it off the books and absorbs at most one round-trip sample |
| `Stream.UdxStream.HandleIncomingMaxRemoteAck` | src/stream.rs:533-560 | the acknowledgement loop equals one removal of the whole range; the writer is woken if there is room, and the timer set anew |
| `Stream.UdxStream.HandleIncomingSacks` | src/stream.rs:597-613 | the SACK loops remove the blocks in order |
| `Stream.UdxStream.InsertPacket` | src/stream.rs:659-673 | stores a packet that is not old and moves `ack` to the first gap |
| `Stream.UdxStream.HandleIncoming` | src/stream.rs:617-704 | one packet: SACKs, END, data, window growth, in this order; `Arrivals`, `Reading` and `Window` say what this means |
| `Stream.UdxStream.PollIncoming` | src/stream.rs:484-507 | drains the channel and then handles only the largest acknowledgement; a hung-up channel is an error |
| `Stream.UdxStream.StampSent` | src/socket.rs:343-348 | the socket's stamp through the shared reference, as the stream sees it |
| `Stream.UdxStream.PollCheckTimeouts` | src/stream.rs:354-412 | if the timer is effective, sets it two timeouts ahead, halves the window and declares packets lost up to the first exhausted one, in place; otherwise does nothing |
| `Stream.UdxStream.FlushWaitingPackets` | src/stream.rs:421-437 | the flush loop over the shared packets equals the flush of the model |
| `Stream.UdxStream.PollTransmit` | src/stream.rs:454-482 | empties the queue into the optimal packet sets for the socket |
| `Stream.UdxStream.ReadNext` | src/stream.rs:708-726 | the read loop equals the read of the model, partial reads included |
| `Stream.UdxStream.PollRead` | src/stream.rs:809-838 | bytes, result and parking of a read |
| `Stream.UdxStream.PollDrive` | src/stream.rs:340-346 | incoming packets, timeouts, flush and transmission in order, stopping at the first error |
| `Stream.UdxStream.Poll` | src/stream.rs:82-114 | one poll of the driver equals `Drive` of the model: completion, error, or parking; a driver that completes tells the socket so and nothing else, any other hands over only packet sets |
| `Socket.StampsExactly` | src/socket.rs:338-348 | after sending `k` more transmits, the sets stamped are those of the transmits sent if and only if no set is left unsent, or the stamps were not ahead before and no raw datagram was sent |
| `Socket.RawDatagramMisleadsStamping` | src/socket.rs:309-316 | a queue for which they are not |
| `Socket.RawDatagramIsMistaken` | src/socket.rs:309-348 | a socket with a raw datagram and a packet set on its channel, of which the kernel takes one transmit, sends the datagram and stamps the packet |
| `Socket.DrainKeeps` | src/socket.rs:338-348 | any partial send keeps the two queues two views of the same jobs |
| `Socket.StampedAreSent` | src/socket.rs:338-348 | as long as no raw datagram has been sent, exactly the sets of the transmits sent are stamped |
| `Socket.StampSets` | src/socket.rs:344-348 | the nested loops stamp every shared packet of the sets, and no other |
| `Socket.UdxSocket.Fill` | src/socket.rs:298-322 | takes events until the queue is full or the channel empty; what they stand for joins the queue in order, and dropped streams leave the table |
| `Socket.UdxSocket.Drain` | src/socket.rs:338-348 | the transmits accepted leave from the front, and the first sets are stamped now; all other packets keep their time |
| `Socket.UdxSocket.PollTransmit` | src/socket.rs:293-358 | whatever the kernel answers, the transmits sent and queued are what they were followed by those of the events taken, so none is lost, doubled or overtaken; at most `BATCH_SIZE` are queued; the answer, the overflow timer and the stamps are exact, and it stops with events left only if the kernel does not take what it is offered |
| `Socket.UdxSocket.ProcessPacket` | src/socket.rs:403-450 | hands back datagrams that are no packet of a known stream, delivers the others and removes a dropped stream |
| `Socket.UdxSocket.OnRecvDgram` | src/socket.rs:391-401 | queues a stray datagram and wakes a parked receiver if there is room, and otherwise does nothing |
| `Socket.UdxSocket.PollRecv` | src/socket.rs:360-389 | at most `MAX_LOOP - 1` receive calls per poll, whose datagrams are all routed in order |

## Left out

- Wrap-around of the 32-bit sequence numbers: the code adds and compares them without regard to it; `Wire.EncodeThenDecode` says when a header no longer fits.
- The wall clock: one `now` stands for all clock readings of a poll, and whether a poll finds the timer ready is an input; `Timer` adds that it is never early.
- Tokio tasks, locks, reference counts, `Drop` and waker objects: each locked method is one step, and a waker is a boolean.
- The kernel side (udx-udp/src/unix.rs, udx-udp/src/cmsg.rs, udx-udp/src/fallback.rs): segmentation offload is cutting at the segment size; addresses and ECN are not modelled.
- `Stream.UdxStream.PollTransmit`: the channel to the socket is always open; on a closed one the source panics, or warns for the last set.
- `Socket.UdxSocket.PollTransmit`: the throughput statistics are not modelled, because they influence nothing.
- `Acknowledgement.BatchRefinesOneByOne`: says nothing about the congestion window, because growth compares each acknowledgement with the one before the batch, so a batch may grow it more often.
- `Loss.EverythingCanBeDelivered`: is about what remains possible; fairness of the network and the scheduler is not modelled.
- The driver of the socket (src/socket.rs:132-161), which polls receiving and, unless the overflow timer is running, sending, and `recv`, which takes stray datagrams out.
- That a retransmitted packet is never sampled (section 3 of RFC 6298): the code samples exactly packets that were lost once, so this is not claimed.
- Delivery after END, or that the first error stays: an END packet has no place in the sequence, and a later error replaces an earlier one.
- `seq_flushed`, the firewall hook, relays, message packets, reuse of a stream id by a second `connect`, and debug output.
