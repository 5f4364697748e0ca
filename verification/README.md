# Verification of tunshell's protocols

A Dafny model of the parts of tunshell that move other people's bytes, and proofs about every run of
them. `dafny verify dfyconfig.toml` checks everything.

**The reliable byte stream over UDP.** Writes are cut into packets that each consume one sequence
number more than their payload; the receiver buffers, reassembles and acknowledges; a congestion
window gates sending and a resend map repeats what is not acknowledged.

- `SeqNumber`, `Packet`, `Congestion`: wrapping numbers, the wire format, the window arithmetic.
- `Connection` is the specification of every operation on the connection variables as a value;
  `ConnectionVars` is the program's object, with its loops, proved against it. `ConnectionLaws` says
  what each operation does without naming its parts.
- `Stream` relates the receiver to unbounded positions and a log of the packets sent.
- `UdpSystem` is the step system of two peers and a network that loses, repeats and reorders;
  `UdpSafety` proves its invariant step by step and `UdpRuns` states the theorems about every run;
  `UdpLaws` says what single steps do in any run, on positions of the stream.
- `Retransmit` follows every packet through the sending side.
- `Negotiator` and `Handshake` open a connection and lead to the initial state of those runs;
  `NegotiatorLaws` says how every negotiation ends, and that it succeeds when the datagrams arrive.

The chain is: the window has a hard cap; the cap bounds what is in flight; the bound makes wrapping
comparisons faithful; faithful comparisons give prefix safety.

**The fallback terminal.** `InputStreams` tokenises input that comes in any pieces, `Editor` and
`Interpreters` edit the line and repaint it, `LineEndings` over `ByteChannels` converts line ends, and
`Terminal` is the remote row. `Editor.SessionShows` joins them: the terminal shows the line.
`EditorLaws` says which line the keys type.

**Framing, relay and tunnel.** `Messages`, `MessageStreams` and `ShellProto` are the message formats
and the framed stream; `RelayProtocol` and `RelayMethods` the negotiation between the relay server and
two clients, with `RelayLaws` for what is decided and answered in any run; `Tunnel` and `NetworkPeers`
the TCP connections carried over one message channel, with `TunnelLaws` for how they open and close.

Where the source updates objects in place, a class carries the program's loops, and its methods are
proved to do what a function on values does; the lemmas are about those functions.

## Assumptions

- The network loses, repeats, delays and reorders datagrams; it does not alter or invent them. What it
  delivers is recent: within the 2^31 - 2 positions for which wrapping comparisons are faithful
  (`UdpSystem.RecentDatagram`). `UdpRuns.RecentWhenShort` shows that runs of fewer than about 2^31
  sequence numbers need no such assumption. Initial sequence numbers are arbitrary, so runs cross 2^32.
- The initial transit window is in [576, 332352] and the receive window in [576, 2^31 - 559]; the
  defaults, 102400 each, are. A run creates at most 2^30 close packets, which pass the gate unasked.
- A step is one locked section of the program. 32-bit arithmetic wraps, as in a release build.
- JSON and UTF-8 are pairs of a printer and a parser that gives back what was printed. The checksum is
  any function of the other fields, the same on both sides.
- The message channel between two network peers is first in, first out; writing to a socket succeeds;
  a peer gives out fewer than 2^31 - 1 connection numbers.

## Where the source and its own words differ

- tunshell-client/src/p2p/udp/seq_number.rs:18-20 promises an order for differences below 2^31; the
  code (lines 36 and 44) compares with `u32::MAX / 2`, which is 2^31 - 1. `SeqNumber.CmpExact` follows
  the code.
- tunshell-client/src/p2p/udp/packet.rs:221-224 compares raw numbers, so a packet whose range passes
  2^32 is not seen to overlap its own duplicate. Prefix safety holds all the same; progress does not
  (`UdpRuns.WrapDuplicateWedges`), and `UdpRuns.ProgressExact` says exactly when it does.
- tunshell-client/src/shell/proto.rs:203-226 prints a `UdpRecv` as JSON and parses it as binary
  (`ShellProto.UdpRecvGarbled`); every other message round trips.
- tunshell-client/src/p2p/udp/negotiator.rs:168 slices past the end for a short packet behind a hello
  in one buffer. Datagrams are not joined, so no run gets there (`Handshake.NoSlicePanic`).

## Model

| member | source | states |
|---|---|---|
| SeqNumber.WrapAdd | tunshell-client/src/p2p/udp/seq_number.rs:10-16 | adding representations is representing the sum, for all positions |
| SeqNumber.CmpAntisymmetric | tunshell-client/src/p2p/udp/seq_number.rs:27-51 | the order is total and swapping the arguments flips the answer; equal only for equal numbers |
| SeqNumber.CmpFaithful | tunshell-client/src/p2p/udp/seq_number.rs:27-51 | representations of positions at most 2^31 - 2 apart compare as the positions do |
| SeqNumber.CmpExact | tunshell-client/src/p2p/udp/seq_number.rs:27-51 | for every distance below 2^32, exactly when a later position compares as later: up to 2^31 - 2 always, at the next three distances only if the representation wrapped, beyond never |
| SeqNumber.CmpByDistance | tunshell-client/src/p2p/udp/seq_number.rs:27-51 | the comparison as a function of the modular distance, with its dependence on the representation |
| SeqNumber.CmpShiftInvariant | tunshell-client/src/p2p/udp/seq_number.rs:10-51 | adding any number to both sides keeps the answer if and only if the modular distance is not 2^31 - 1, 2^31 or 2^31 + 1 |
| Packet.ParseToVec | tunshell-client/src/p2p/udp/packet.rs:78-194 | parsing a printed packet, followed by anything, gives the packet back with its resend count forgotten |
| Packet.ParseExact | tunshell-client/src/p2p/udp/packet.rs:78-115 | the parser accepts exactly the images of well-formed packets followed by anything |
| Packet.BigEndian | tunshell-client/src/p2p/udp/packet.rs:177-194 | the 2- and 4-byte images are the numbers with the most significant byte first |
| Packet.FieldsOnTheWire | tunshell-client/src/p2p/udp/packet.rs:177-194 | where every field of a packet is in its image, whatever the packet |
| Packet.PacketToVec | tunshell-client/src/p2p/udp/packet.rs:177-194 | the field-by-field printer writes the wire image |
| Packet.ParsePacket | tunshell-client/src/p2p/udp/packet.rs:78-115 | the cursor-based parser gives the packet or the error the format says |
| Packet.Create | tunshell-client/src/p2p/udp/packet.rs:117-142 | a created packet has a valid checksum and length, no resends, and the longest payload prefix that fits in 557 bytes |
| Connection.WakersPartition | tunshell-client/src/p2p/udp/congestion.rs:71-85 | waking keeps every registered task exactly once, and wakes exactly those below the window's end |
| Connection.RecvWindowExact | tunshell-client/src/p2p/udp/receiver.rs:155-169 | what is offered and what is buffered make up the window; nothing is offered when more is buffered |
| ConnectionVars.UdpConnectionVars.constructor | tunshell-client/src/p2p/udp/state.rs:79-100 | the initial value of all variables |
| ConnectionVars.UdpConnectionVars.SetStateSentHello | tunshell-client/src/p2p/udp/state.rs:110-114 | the transition, from the state the program asserts |
| ConnectionVars.UdpConnectionVars.SetStateSentSync | tunshell-client/src/p2p/udp/state.rs:116-120 | the transition, from the state the program asserts |
| ConnectionVars.UdpConnectionVars.SetStateWaitingForSync | tunshell-client/src/p2p/udp/state.rs:122-126 | the transition, from the state the program asserts |
| ConnectionVars.UdpConnectionVars.SetStateConnectFailed | tunshell-client/src/p2p/udp/state.rs:128-136 | the transition, from the states the program asserts |
| ConnectionVars.UdpConnectionVars.SetStateConnected | tunshell-client/src/p2p/udp/state.rs:138-146 | the transition, from the states the program asserts |
| ConnectionVars.UdpConnectionVars.TrySetStateDisconnected | tunshell-client/src/p2p/udp/state.rs:148-162 | disconnects a connected connection and leaves any other alone |
| ConnectionVars.UdpConnectionVars.CalculateRecvWindow | tunshell-client/src/p2p/udp/receiver.rs:155-169 | the loop computes what is left of the receive window, in 32-bit arithmetic |
| ConnectionVars.UdpConnectionVars.FindOverlap | tunshell-client/src/p2p/udp/receiver.rs:44-51 | the search finds the first buffered packet that overlaps, or none |
| ConnectionVars.UdpConnectionVars.RecvProcessPacket | tunshell-client/src/p2p/udp/receiver.rs:27-63 | the whole new state and the result or error, as the specification that `Stream` proves to refine the stream |
| ConnectionVars.UdpConnectionVars.RecvReassemblePackets | tunshell-client/src/p2p/udp/receiver.rs:73-122 | the loop takes the packets next in line off the buffer, appends their bytes, moves the acknowledgement and queues an update |
| ConnectionVars.UdpConnectionVars.RecvDrainBytes | tunshell-client/src/p2p/udp/receiver.rs:134-153 | takes at most len bytes off the front and queues a window update when the window opens |
| ConnectionVars.UdpConnectionVars.PollRead | tunshell-client/src/p2p/udp/connection.rs:210-235 | not connected, pending on an empty buffer, or the drained bytes; the whole new state |
| ConnectionVars.UdpConnectionVars.CreateDataPacket | tunshell-client/src/p2p/udp/sender.rs:113-132 | the packet and the sequence number after it; an empty packet consumes none |
| ConnectionVars.UdpConnectionVars.CreateOpenPacket | tunshell-client/src/p2p/udp/sender.rs:134-144 | the packet and the sequence number after it |
| ConnectionVars.UdpConnectionVars.CreateClosePacket | tunshell-client/src/p2p/udp/sender.rs:146-152 | the packet and the sequence number after it |
| ConnectionVars.UdpConnectionVars.PollWrite | tunshell-client/src/p2p/udp/connection.rs:239-283 | not connected, registered and pending when congested, or a data packet in the channel; the whole new state |
| ConnectionVars.UdpConnectionVars.PullEvent | tunshell-client/src/p2p/udp/sender.rs:53-79 | a send or resend event gives its packet, a close event creates one, an update is dropped |
| ConnectionVars.UdpConnectionVars.IncreaseTransitWindowAfterSend | tunshell-client/src/p2p/udp/congestion.rs:47-54 | the new window, in 32-bit arithmetic, given one that does not divide by zero |
| ConnectionVars.UdpConnectionVars.DecreaseTransitWindowAfterDrop | tunshell-client/src/p2p/udp/congestion.rs:56-60 | the new window, in 32-bit arithmetic |
| ConnectionVars.UdpConnectionVars.WakePendingSendEvents | tunshell-client/src/p2p/udp/congestion.rs:71-85 | the loop keeps the tasks still waiting and wakes the others, in order |
| ConnectionVars.UdpConnectionVars.UpdatePeerAckNumber | tunshell-client/src/p2p/udp/resender.rs:7-21 | only an acknowledgement that compares as greater moves the number, clears the resend map up to it and wakes senders |
| ConnectionVars.UdpConnectionVars.UpdatePeerWindow | tunshell-client/src/p2p/udp/congestion.rs:62-69 | the new window, and senders woken only when it grows |
| ConnectionVars.UdpConnectionVars.HandleRecvPacket | tunshell-client/src/p2p/udp/orchestrator.rs:233-281 | the whole new state for any datagram: unparsable and corrupt ones change nothing |
| ConnectionVars.UdpConnectionVars.HandleSentPacket | tunshell-client/src/p2p/udp/orchestrator.rs:290-334 | a sent data packet grows the window and joins the resend map; a sent close packet disconnects |
| ConnectionVars.UdpConnectionVars.TakeIfFirstDropped | tunshell-client/src/p2p/udp/resender.rs:65-88 | the resend task takes its packet exactly when it is the first unacknowledged one of a connected connection |
| ConnectionVars.UdpConnectionVars.ScheduleResend | tunshell-client/src/p2p/udp/resender.rs:90-128 | past the limit a close event, otherwise the packet again with fresh acknowledgement, window and checksum, and a smaller window |
| ConnectionVars.UdpConnectionVars.PollCanSend | tunshell-client/src/p2p/udp/congestion.rs:8-28 | ready, or the packet's end number registered with the waiting tasks and nothing else changed |
| ConnectionLaws.EmptyDataHandled | tunshell-client/src/p2p/udp/receiver.rs:27-31 | a valid data packet without payload sets the window, moves the acknowledgement to the later number, keeps exactly the keys beyond it, wakes exactly those it should, and leaves the receiver alone |
| ConnectionLaws.DataHandled | tunshell-client/src/p2p/udp/orchestrator.rs:269-280 | a valid data packet does the same to the sender if it is empty or lies in the window and overlaps nothing buffered, and otherwise changes nothing at all |
| ConnectionLaws.OtherHandled | tunshell-client/src/p2p/udp/orchestrator.rs:233-267 | unparsable and corrupt datagrams change nothing; close packets and late open packets end a connected connection |
| ConnectionLaws.RejectedExact | tunshell-client/src/p2p/udp/receiver.rs:33-51 | which error a packet that is not taken gets: the window, or the first buffered packet it overlaps |
| ConnectionLaws.TakenAdvances | tunshell-client/src/p2p/udp/receiver.rs:53-122 | the result for a packet that is taken is how far the acknowledgement moved |
| ConnectionLaws.OfferExact | tunshell-client/src/p2p/udp/receiver.rs:155-169 | the window offered and the wire size of what is buffered make up the receive window |
| ConnectionLaws.ReadExact | tunshell-client/src/p2p/udp/receiver.rs:134-153 | what is read followed by what stays is what was there; its length is the smaller of the room and the bytes; an update is queued exactly when the offer passes 576 from below; nothing else changes |
| ConnectionLaws.ReadElse | tunshell-client/src/p2p/udp/connection.rs:210-235 | a read is refused when not connected, and pending without bytes, and changes nothing |
| ConnectionLaws.WriteExact | tunshell-client/src/p2p/udp/connection.rs:239-283 | when a write is refused, waits and under which number, or becomes a data packet of at most 557 bytes; the whole new state |
| ConnectionLaws.EmptyDataCreated | tunshell-client/src/p2p/udp/sender.rs:113-132 | a packet without payload consumes no number and carries acknowledgement, window left and a valid checksum |
| ConnectionLaws.PullExact | tunshell-client/src/p2p/udp/sender.rs:53-110 | what each event gives, and the number and zero window of a close packet |
| ConnectionLaws.WaitExact | tunshell-client/src/p2p/udp/congestion.rs:8-36 | a packet that does not end inside the send window leaves its end number, a close packet never waits |
| ConnectionLaws.SentExact | tunshell-client/src/p2p/udp/orchestrator.rs:313-333 | after a data packet the window grows by its share of a packet and the packet is remembered if it has bytes; a close packet ends the connection |
| ConnectionLaws.ResendExact | tunshell-client/src/p2p/udp/resender.rs:90-128 | a close event exactly at the limit; otherwise the packet with one more resend, today's acknowledgement, window left and checksum, and a window less a quarter, at least 576 |
| ConnectionLaws.FireExact | tunshell-client/src/p2p/udp/resender.rs:74-88 | a resend task fires exactly on the packet after the acknowledged ones of a connected connection, and takes just it |
| ConnectionLaws.ChecksumCovers | tunshell-client/src/p2p/udp/packet.rs:204-215 | two packets have the same checksum under every hash if and only if they agree in all but checksum and resend count |
| Congestion.WindowStep | tunshell-client/src/p2p/udp/congestion.rs:47-60 | from any window in [576, 332352] both changes stay there, without 32-bit overflow or division by zero: one packet shared among the window's packets more, a quarter less but never below one packet |
| Congestion.Evolve | tunshell-client/src/p2p/udp/congestion.rs:47-60 | every sequence of increases and decreases keeps the window in [576, 332352] |
| Congestion.AdditiveIncrease | tunshell-client/src/p2p/udp/congestion.rs:47-54 | from exactly k packets, k sends add k * (576 / k): at most one packet, and exactly one if and only if k divides 576 |
| Stream.OverlapsExact | tunshell-client/src/p2p/udp/packet.rs:217-225 | for entries less than a turn apart the raw overlap test holds exactly for an equal entry whose range does not pass 2^32 |
| Stream.SearchExact | tunshell-client/src/p2p/udp/receiver.rs:44-51 | the overlap search misses a buffered copy exactly when its range passes 2^32, and finds nothing else |
| Stream.InsertRefines | tunshell-client/src/p2p/udp/receiver.rs:53-61 | a new packet goes where its entry belongs: the buffer stays in entry order |
| Stream.ReassembleRefines | tunshell-client/src/p2p/udp/receiver.rs:73-103 | reassembly takes exactly the entries next in line, whole, and acknowledges the end of the last |
| Stream.ReassembledBytes | tunshell-client/src/p2p/udp/receiver.rs:80-101 | the bytes appended are those of the entries taken, continuing the stream |
| Stream.WindowTestExact | tunshell-client/src/p2p/udp/receiver.rs:33-71 | for recent packets the wrapping window test is the window test on positions |
| Stream.AcceptExact | tunshell-client/src/p2p/udp/receiver.rs:27-63 | a packet is accepted exactly when it lies in the window and is not buffered yet (or its range passes 2^32); the error otherwise, and a rejected packet changes nothing |
| Stream.ReceiveRefines | tunshell-client/src/p2p/udp/receiver.rs:27-122 | any recent packet keeps the receiver on the stream; the stream moves exactly when the packet is the next entry, fits, and the front is not blocked |
| Stream.WedgedExact | tunshell-client/src/p2p/udp/receiver.rs:80-103 | the receiver is blocked exactly when the front of its buffer repeats the last entry taken, whose range then passes 2^32 |
| Stream.WedgedStays | tunshell-client/src/p2p/udp/receiver.rs:27-122 | no packet unblocks a blocked receiver |
| Stream.BufferShape | tunshell-client/src/p2p/udp/receiver.rs:33-62 | while no range passes 2^32: sorted, pairwise disjoint, inside the window, a gap at the front, spans summing to at most the window |
| UdpSafety.GateExact | tunshell-client/src/p2p/udp/congestion.rs:34-40 | in every state of the invariant the wrapping congestion test is the test on the unacknowledged span |
| UdpSafety.AckExact | tunshell-client/src/p2p/udp/resender.rs:7-14 | a genuine recent acknowledgement moves the number exactly when it acknowledges more entries, and never beyond what the peer has taken |
| UdpSafety.WritePreserves | tunshell-client/src/p2p/udp/connection.rs:256-271 | writing, congested or not, keeps the invariant, in-flight bound included |
| UdpSafety.PullPreserves | tunshell-client/src/p2p/udp/sender.rs:53-110 | taking any event from the channel keeps the invariant |
| UdpSafety.SettlePreserves | tunshell-client/src/p2p/udp/orchestrator.rs:313-333 | what follows a socket send keeps the invariant |
| UdpSafety.FirePreserves | tunshell-client/src/p2p/udp/resender.rs:74-88 | the resend task's first step keeps the invariant |
| UdpSafety.ReschedulePreserves | tunshell-client/src/p2p/udp/resender.rs:90-128 | a refreshed packet keeps entry, payload, valid checksum and a true acknowledgement |
| UdpSafety.ReceivePreserves | tunshell-client/src/p2p/udp/orchestrator.rs:233-281 | any genuine recent datagram keeps the invariant of both receiver and sender |
| UdpSafety.StepPreserves | tunshell-client/src/p2p/udp/orchestrator.rs:40-140 | every step of a peer keeps the invariant of the pair and of what is in the network |
| UdpRuns.PrefixSafety | tunshell-client/src/p2p/udp/receiver.rs:27-122 | in every reachable state the bytes read and readable are a prefix of the bytes the peer's writes accepted, and the acknowledgement number is the end of the last packet of that prefix |
| UdpRuns.TruthfulAcks | tunshell-client/src/p2p/udp/resender.rs:7-21 | peer acknowledgement <= receiver's acknowledgement <= sequence number in positions, and the three fields represent them |
| UdpRuns.ClearedWasTaken | tunshell-client/src/p2p/udp/resender.rs:16-21 | every packet an acknowledgement clears from the resend map has all its bytes in place in the stream the peer has taken |
| UdpRuns.ClearedByAck | tunshell-client/src/p2p/udp/resender.rs:7-21 | a datagram clears a packet only if its acknowledgement is newer and reaches it |
| UdpRuns.InFlightBound | tunshell-client/src/p2p/udp/connection.rs:256-271 | the unacknowledged span is at most 332352 + 557, plus one for each close packet, and the congestion gate decides on it |
| UdpRuns.NoPanic | tunshell-client/src/p2p/udp/orchestrator.rs:313-333 | in every reachable state the window is in range, the division is not by zero and the packet type panic is not reached |
| UdpRuns.DatagramsAreGenuine | tunshell-client/src/p2p/udp/resender.rs:27-33 | everything ever in the network, resent or not, has a valid checksum, its entry's number and payload, and a true acknowledgement |
| UdpRuns.ReceiveBuffer | tunshell-client/src/p2p/udp/receiver.rs:33-62 | in every reachable state with no range passing 2^32: sorted, disjoint, in the window, a gap at the front, fitting the window |
| UdpRuns.ProgressExact | tunshell-client/src/p2p/udp/receiver.rs:80-103 | the packet at ack + 1, if it fits, advances the stream if and only if the receiver is not blocked; always while no range passes 2^32 |
| UdpRuns.WedgedForEver | tunshell-client/src/p2p/udp/packet.rs:221-224 | a blocked receiver delivers nothing more on any run |
| UdpRuns.WrapDuplicateWedges | tunshell-client/src/p2p/udp/packet.rs:221-224 | a concrete duplicate and reordering across 2^32 that blocks the receiver: the counterexample to progress |
| UdpRuns.RunPreserves | tunshell-client/src/p2p/udp/orchestrator.rs:40-140 | every run keeps the invariant, whatever the network loses, repeats or reorders |
| UdpRuns.RecentWhenShort | tunshell-client/src/p2p/udp/seq_number.rs:27-51 | while fewer than about 2^31 sequence numbers are in use every datagram is recent, however late |
| UdpLaws.ReceivedExact | tunshell-client/src/p2p/udp/orchestrator.rs:233-281 | in every run a recent data packet that is empty or wanted moves the acknowledged position to the larger of the two and sets the window; any other data packet changes nothing |
| UdpLaws.ReleaseExact | tunshell-client/src/p2p/udp/congestion.rs:8-36 | in every run a waiting packet is let through exactly when its entry ends less than the send window beyond the acknowledged position, and otherwise waits |
| UdpLaws.WriteGate | tunshell-client/src/p2p/udp/connection.rs:256-271 | in every run a write makes an entry of its first 557 bytes exactly when connected and the unacknowledged span is below the send window |
| UdpLaws.FiresFirst | tunshell-client/src/p2p/udp/resender.rs:74-88 | in every run a resend task fires exactly on the first entry not known to be acknowledged |
| UdpLaws.OffersAreCurrent | tunshell-client/src/p2p/udp/sender.rs:113-132 | every packet a step makes or refreshes acknowledges what the receiver has and offers the room left; a close packet offers none |
| UdpLaws.TasksKept | tunshell-client/src/p2p/udp/congestion.rs:62-85 | a registered task leaves only by a taken data packet whose acknowledgement or window wakes it |
| UdpLaws.NoTaskLost | tunshell-client/src/p2p/udp/congestion.rs:42-85 | over any run a task that waits for the window stays registered until a datagram wakes it |
| Retransmit.StepTracked | tunshell-client/src/p2p/udp/resender.rs:36-130 | every step keeps the account of where each entry is and how often it was sent |
| Retransmit.SettleTracked | tunshell-client/src/p2p/udp/resender.rs:36-50 | a sent data packet joins the resend map, and pushes out only an entry under the same number |
| Retransmit.FireTracked | tunshell-client/src/p2p/udp/resender.rs:74-88 | the packet moves from the resend map to its task, nothing else moves |
| Retransmit.RescheduleTracked | tunshell-client/src/p2p/udp/resender.rs:90-128 | the packet goes back to the channel with its count, or is given up with a close event |
| Retransmit.ReceiveTracked | tunshell-client/src/p2p/udp/resender.rs:16-21 | receiving removes from the account exactly the entries cleared from the resend map |
| Retransmit.BoundedSends | tunshell-client/src/p2p/udp/resender.rs:93-124 | in every run every entry is handed to the socket at most max(1, packet_resend_limit) times, number and payload unchanged |
| Retransmit.NothingForgotten | tunshell-client/src/p2p/udp/resender.rs:27-130 | until a close, every data packet not known to be acknowledged is in exactly one place of the sending side, number and payload unchanged |
| Retransmit.ShortRunIsPrompt | tunshell-client/src/p2p/udp/resender.rs:36-50 | a side that has used fewer than 2^31 - 1 sequence numbers meets the promptness that `NothingForgotten` asks for |
| Retransmit.GivesUpAtLimit | tunshell-client/src/p2p/udp/resender.rs:93-110 | in every run a resend task queues a close exactly when its packet has been sent as often as the limit allows |
| Negotiator.NegotiateConnection | tunshell-client/src/p2p/udp/negotiator.rs:17-70 | on any arrivals the code ends in the state, with the packets sent and the error, that the steps over the arrivals give |
| Negotiator.SendSyncPacket | tunshell-client/src/p2p/udp/negotiator.rs:120-139 | the sequence number is the random one plus the open packet's, the peer acknowledgement the random one |
| Negotiator.WaitForSyncPacket | tunshell-client/src/p2p/udp/negotiator.rs:141-185 | the loop skips hellos and takes the first other datagram, or ends in its error |
| Negotiator.WaitForMagicHello | tunshell-client/src/p2p/udp/negotiator.rs:89-118 | succeeds exactly for a datagram that reads as the hello |
| NegotiatorLaws.HelloText | tunshell-client/src/p2p/udp/negotiator.rs:11-14 | the hello is the text tunshell::udp::hello |
| NegotiatorLaws.NegotiationExact | tunshell-client/src/p2p/udp/negotiator.rs:17-70 | how any negotiation ends, from what arrives: the error, or the sync packet's number and window, the random number, the state, the packets sent and the fields of the open packet |
| NegotiatorLaws.HellosSkipped | tunshell-client/src/p2p/udp/negotiator.rs:141-185 | after the first hello any number of hellos is skipped, and the next datagram decides |
| NegotiatorLaws.BothSucceed | tunshell-client/src/p2p/udp/negotiator.rs:17-70 | two sides whose hellos and open packets arrive both succeed, and agree on numbers and windows |
| Handshake.SyncIsOpen | tunshell-client/src/p2p/udp/negotiator.rs:157-184 | whatever a waiting side accepts is the peer's one open packet |
| Handshake.Agreement | tunshell-client/src/p2p/udp/negotiator.rs:48-67 | in every run in which both sides succeed, each acknowledgement number is the other's sequence number, each sequence number is one past the peer acknowledgement, and each knows the other's window |
| Handshake.EstablishesStream | tunshell-client/src/p2p/udp/negotiator.rs:120-184 | two successful negotiations leave the connections in an initial state of the runs of `UdpRuns` |
| Handshake.NoSlicePanic | tunshell-client/src/p2p/udp/negotiator.rs:167-169 | no run reaches the slice whose bounds would be out of order |
| Handshake.Leftovers | tunshell-client/src/p2p/udp/orchestrator.rs:260-267 | datagrams left over from the negotiation change nothing in a connection, or end it |
| ByteChannels.ByteChannel.Write | tunshell-client/src/shell/server/fallback/byte_channel.rs:48-64 | appends, or fails after shutdown unless there is nothing to write |
| ByteChannels.ByteChannel.WriteAll | tunshell-client/src/shell/server/fallback/byte_channel.rs:47-69 | writes everything or nothing |
| ByteChannels.ByteChannel.PollRead | tunshell-client/src/shell/server/fallback/byte_channel.rs:27-44 | reads in order what was written: pending only while open and empty |
| LineEndings.ConvertSplits | tunshell-client/src/shell/server/fallback/output_stream.rs:44-69 | the conversion does not depend on how the output is cut into writes |
| LineEndings.ConvertIdempotent | tunshell-client/src/shell/server/fallback/output_stream.rs:44-69 | converting twice is converting once |
| LineEndings.ConvertFixes | tunshell-client/src/shell/server/fallback/output_stream.rs:49-63 | exactly the texts without a bare line feed are left alone |
| LineEndings.ConvertedHasNoBareLf | tunshell-client/src/shell/server/fallback/output_stream.rs:49-63 | no line feed goes out without its carriage return |
| LineEndings.OnlyCrAdded | tunshell-client/src/shell/server/fallback/output_stream.rs:49-65 | nothing but carriage returns is added, nothing taken away or moved |
| LineEndings.OneCrForEach | tunshell-client/src/shell/server/fallback/output_stream.rs:49-65 | one carriage return is added for every line feed without one |
| LineEndings.OutputStream.Write | tunshell-client/src/shell/server/fallback/output_stream.rs:44-69 | whatever the writes were, the channel has been given the conversion of all that was accepted; a write after shutdown fails and changes nothing |
| LineEndings.OutputStream.WriteLines | tunshell-client/src/shell/server/fallback/output_stream.rs:57-65 | the loop writes the conversion of the buffer, or nothing after shutdown |
| InputStreams.ScanSplits | tunshell-client/src/shell/server/fallback/input_stream.rs:47-90 | scanning can stop anywhere and go on with what was left |
| InputStreams.ScanKeepsBytes | tunshell-client/src/shell/server/fallback/input_stream.rs:150-163 | the bytes of the tokens and the rest are the input |
| InputStreams.ScanLeftover | tunshell-client/src/shell/server/fallback/input_stream.rs:52-58 | what is left is empty or an escape sequence cut short, at most two bytes, and scans to nothing |
| InputStreams.FirstUnit | tunshell-client/src/shell/server/fallback/input_stream.rs:52-87 | which bytes are which key, when an escape waits, and that all else is text |
| InputStreams.TypedIsRead | tunshell-client/src/shell/server/fallback/input_stream.rs:47-90 | any keys and plain text that are typed are read as they were typed, with nothing left |
| InputStreams.MatchIsFront | tunshell-client/src/shell/server/fallback/input_stream.rs:53-63 | the three-byte match decides as the reference does |
| InputStreams.MergeByUnits | tunshell-client/src/shell/server/fallback/input_stream.rs:65-87 | lists of tokens with the same units are the same after merging adjacent texts |
| InputStreams.WriteInStep | tunshell-client/src/shell/server/fallback/input_stream.rs:131-143 | a write at any point keeps the account of tokens and bytes |
| InputStreams.ParseInStep | tunshell-client/src/shell/server/fallback/input_stream.rs:47-90 | a parse at any point keeps it |
| InputStreams.TokensByInput | tunshell-client/src/shell/server/fallback/input_stream.rs:112-128 | when nothing waits, the merged tokens given out are those of the whole input and the buffer is its cut-short tail |
| InputStreams.InputStream.ParseBuff | tunshell-client/src/shell/server/fallback/input_stream.rs:47-90 | the loop queues exactly the merged tokens of the buffer and keeps exactly the tail |
| InputStreams.InputStream.PollNext | tunshell-client/src/shell/server/fallback/input_stream.rs:112-127 | gives the next token if and only if there is one; otherwise everything written has been tokenised, and the end only after shutdown |
| InputStreams.InputStream.Write | tunshell-client/src/shell/server/fallback/input_stream.rs:131-143 | the bytes join the input, and the account is kept |
| Editor.KeyInRange | tunshell-client/src/shell/server/fallback/interpreter.rs:48-62 | every key keeps the cursor inside the line and the history position inside the history, which it does not change |
| Editor.BackspacesUndoInsert | tunshell-client/src/shell/server/fallback/interpreter.rs:73-172 | as many backspaces as bytes were inserted, anywhere in the line, restore the editor |
| Editor.HistoryWalk | tunshell-client/src/shell/server/fallback/interpreter.rs:174-188 | from a new line, n steps up show the n-th newest entry |
| Editor.HistoryReturns | tunshell-client/src/shell/server/fallback/interpreter.rs:174-210 | steps down retrace them, to the empty line at the end |
| Editor.EnteredIsRecalled | tunshell-client/src/shell/server/fallback/interpreter.rs:64-70 | the line entered last is the first the history shows |
| Editor.RefreshShows | tunshell-client/src/shell/server/fallback/interpreter.rs:212-245 | repainting turns a screen that shows the old line and cursor into one that shows the new |
| Editor.InsertShows | tunshell-client/src/shell/server/fallback/interpreter.rs:73-98 | after inserting, at the end or inside, the screen shows the new line and cursor |
| Editor.BackspaceShows | tunshell-client/src/shell/server/fallback/interpreter.rs:146-172 | after a backspace the screen shows the shorter line, blank behind it |
| Editor.CursorShows | tunshell-client/src/shell/server/fallback/interpreter.rs:100-130 | cursor movements stop at both ends of the line and the screen follows |
| Editor.HistoryShows | tunshell-client/src/shell/server/fallback/interpreter.rs:174-210 | walking the history shows the entry, or the empty line past the newest |
| Editor.InterruptShows | tunshell-client/src/shell/server/fallback/interpreter.rs:132-144 | an interrupted line leaves a fresh prompt and an empty line |
| Editor.KeyShows | tunshell-client/src/shell/server/fallback/interpreter.rs:48-62 | every printable key keeps the screen showing the line |
| Editor.KeyUnchanged | tunshell-client/src/shell/server/fallback/output_stream.rs:44-69 | what the editor prints passes the line ending conversion unchanged |
| Editor.RanShows | tunshell-client/src/shell/server/fallback/interpreter.rs:36-71 | after Enter, a command that leaves the row tidy, and the prompt, the screen shows the empty new line |
| Editor.SessionShows | tunshell-client/src/shell/server/fallback/interpreter.rs:36-71 | after any printable session, through the conversion and any cutting of the output, the terminal shows the line and cursor, and both positions are in range |
| Editor.StartShows | tunshell-client/src/shell/server/fallback/interpreter.rs:254-265 | the first prompt on a tidy terminal shows the empty line |
| EditorLaws.KeyRefines | tunshell-client/src/shell/server/fallback/interpreter.rs:48-62 | every key edits the text before and after the cursor, and the place in the history, as a line editor on two halves does |
| EditorLaws.KeysRefine | tunshell-client/src/shell/server/fallback/interpreter.rs:48-62 | so do any keys, and the line is the two halves |
| EditorLaws.ArrowsMove | tunshell-client/src/shell/server/fallback/interpreter.rs:100-130 | n left arrows go n places left and n right arrows n places right, up to the ends; nothing else changes |
| EditorLaws.ArrowsUndo | tunshell-client/src/shell/server/fallback/interpreter.rs:100-130 | left and right undo each other away from the ends |
| EditorLaws.TypedInside | tunshell-client/src/shell/server/fallback/interpreter.rs:73-98 | after n left arrows from the end, what is typed stands n places before the end, exactly those bytes, and the cursor behind it |
| EditorLaws.BackspacesTake | tunshell-client/src/shell/server/fallback/interpreter.rs:146-172 | n backspaces take the n bytes before the cursor and no others |
| EditorLaws.InterruptEmpties | tunshell-client/src/shell/server/fallback/interpreter.rs:132-144 | an interrupt empties the line and keeps the history and the place in it |
| EditorLaws.UpsAndDowns | tunshell-client/src/shell/server/fallback/interpreter.rs:174-210 | from a new line n up arrows show the n-th newest entry and k down arrows retrace k of them, to the empty line |
| EditorLaws.LinesAreKept | tunshell-client/src/shell/server/fallback/interpreter.rs:64-70 | all lines entered are in the history, in order and repeated ones too |
| EditorLaws.LinesAreRecalled | tunshell-client/src/shell/server/fallback/interpreter.rs:174-188 | after any lines, n up arrows show the n-th last of them |
| Interpreters.Interpreter.RefreshLine | tunshell-client/src/shell/server/fallback/interpreter.rs:212-245 | the new line, cursor and history position, and the repainting bytes |
| Interpreters.Interpreter.InsertBytes | tunshell-client/src/shell/server/fallback/interpreter.rs:73-98 | the edit and its bytes, as `Editor` says; refused exactly when the output is closed and there is something to print |
| Interpreters.Interpreter.AdvanceCursor | tunshell-client/src/shell/server/fallback/interpreter.rs:100-116 | the edit and its bytes, as `Editor` says; refused exactly when the output is closed and there is something to print |
| Interpreters.Interpreter.RetractCursor | tunshell-client/src/shell/server/fallback/interpreter.rs:118-130 | the edit and its bytes, as `Editor` says; refused exactly when the output is closed and there is something to print |
| Interpreters.Interpreter.InterruptLine | tunshell-client/src/shell/server/fallback/interpreter.rs:132-144 | the edit and its bytes, as `Editor` says; refused exactly when the output is closed and there is something to print; the history position stays |
| Interpreters.Interpreter.Backspace | tunshell-client/src/shell/server/fallback/interpreter.rs:146-172 | the edit and its bytes, as `Editor` says; refused exactly when the output is closed and there is something to print |
| Interpreters.Interpreter.PreviousInHistory | tunshell-client/src/shell/server/fallback/interpreter.rs:174-188 | the edit and its bytes, as `Editor` says; refused exactly when the output is closed and there is something to print |
| Interpreters.Interpreter.NextInHistory | tunshell-client/src/shell/server/fallback/interpreter.rs:190-210 | the edit and its bytes, as `Editor` says; refused exactly when the output is closed and there is something to print |
| Interpreters.Interpreter.HandleNewLine | tunshell-client/src/shell/server/fallback/interpreter.rs:247-252 | takes the line and prints the line end |
| Interpreters.Interpreter.ReadLine | tunshell-client/src/shell/server/fallback/interpreter.rs:48-71 | exactly when each result is returned: the line that the keys before the first Enter type, by the laws of `EditorLaws`, its bytes not UTF-8, the input ended, or the output closed at the first byte to print; the line becomes the newest history entry |
| Messages.ServerRoundTrip | tunshell-shared/src/message.rs:120-193 | a server message serialises if and only if its data is at most 32767 bytes, and then comes back |
| Messages.ClientRoundTrip | tunshell-shared/src/message.rs:208-257 | the same for client messages |
| Messages.RawOnTheWire | tunshell-shared/src/message.rs:93-101 | the type, the length with its most significant byte first, and the data |
| Messages.ServerFrames | tunshell-shared/src/message.rs:104-194 | the bytes of every server message without data and of a payload |
| Messages.ClientFrames | tunshell-shared/src/message.rs:196-258 | the bytes of every client message without data and of a payload |
| Messages.ServerRefused | tunshell-shared/src/message.rs:150-193 | a raw message is refused exactly for an unknown number, data that does not parse, or data where there should be none |
| Messages.ClientRefused | tunshell-shared/src/message.rs:228-257 | the same for client messages |
| MessageStreams.DecodeSplits | tunshell-shared/src/message_stream.rs:93-163 | decoding can stop anywhere and go on with what is left; after an error the rest does not matter |
| MessageStreams.OneError | tunshell-shared/src/message_stream.rs:131-162 | at most one error, last, and exactly when decoding broke |
| MessageStreams.FrameDecodes | tunshell-shared/src/message.rs:93-101 | a printed frame decodes to its message and leaves what follows |
| MessageStreams.DecodeExact | tunshell-shared/src/message_stream.rs:93-163 | what the front of any bytes decodes to: nothing yet, the error that ends the stream, or its message and then the rest |
| MessageStreams.FramesDecode | tunshell-shared/src/message.rs:68-101 | the printed frames of any list of messages decode to that list |
| MessageStreams.ServerMessagesArrive | tunshell-shared/src/message.rs:104-194 | any list of server messages that serialises arrives as it was sent |
| MessageStreams.ClientMessagesArrive | tunshell-shared/src/message.rs:196-258 | any list of client messages that serialises arrives as it was sent |
| MessageStreams.MessageStream.PollReadInner | tunshell-shared/src/message_stream.rs:58-75 | one read of the inner stream, and the account of bytes and messages is kept |
| MessageStreams.MessageStream.TakeFrame | tunshell-shared/src/message_stream.rs:131-162 | the frame at the front is given out; an error closes the stream |
| MessageStreams.MessageStream.PollNext | tunshell-shared/src/message_stream.rs:93-163 | for any cutting of the bytes into reads and pendings: the results are those of the pure decoder, in order, at most one error, then nothing more |
| ShellProto.SendLikeExact | tunshell-client/src/shell/proto.rs:246-258 | the binary form parses to an id and a payload exactly when it is their image |
| ShellProto.NetworkRoundTrip | tunshell-client/src/shell/proto.rs:203-226 | a tunnel message comes back if and only if it is not a UdpRecv whose JSON differs from its binary form |
| ShellProto.UdpRecvGarbled | tunshell-client/src/shell/proto.rs:203-226 | the concrete UdpRecv that comes back as another connection's with the rest of its JSON as data |
| ShellProto.EmbeddedLimit | tunshell-client/src/shell/proto.rs:230-236 | embedding fits if and only if the tunnel message's data is below 32767 bytes |
| ShellProto.PayloadOnTheWire | tunshell-client/src/shell/proto.rs:203-258 | the binary form: its number, the connection's number with the most significant byte first, the payload |
| ShellProto.NetworkRefused | tunshell-client/src/shell/proto.rs:210-226 | a tunnel message is refused exactly when too short for its binary form or no JSON |
| ShellProto.ClientRefused | tunshell-client/src/shell/proto.rs:112-130 | a shell client message is refused exactly for an unknown number or data that does not parse |
| ShellProto.ServerRefused | tunshell-client/src/shell/proto.rs:166-186 | a shell server message is refused exactly for an unknown number or data that does not parse |
| ShellProto.EmbeddedRoundTrip | tunshell-client/src/shell/proto.rs:230-244 | the same round trip through the embedding |
| ShellProto.ClientRoundTrip | tunshell-client/src/shell/proto.rs:96-130 | every shell client message that serialises comes back, except an embedded UdpRecv |
| ShellProto.ServerRoundTrip | tunshell-client/src/shell/proto.rs:147-186 | every shell server message that serialises comes back, except an embedded UdpRecv |
| ShellProto.ClientMessagesArrive | tunshell-client/src/shell/proto.rs:83-131 | lists of shell client messages arrive through both codecs and the framing |
| ShellProto.ServerMessagesArrive | tunshell-client/src/shell/proto.rs:133-187 | lists of shell server messages arrive through both codecs and the framing |
| RelayProtocol.NoSplitModes | tunshell-server/src/relay/server/relay.rs:36-84 | in every interleaving, with any failures, never is one client direct while the other is in relay mode |
| RelayProtocol.AttemptIsBound | tunshell-server/src/relay/server/relay.rs:103-182 | a client is told to connect only once bound, to the ports its peer announced, one of them for a transport it has bound itself |
| RelayProtocol.NeverUnexpected | tunshell-client/src/client.rs:111-164 | a client never hears an unexpected message, but that the server closed |
| RelayProtocol.RelayIsFifo | tunshell-server/src/relay/server/relay.rs:184-222 | what each client has received over the relay is, in order, a prefix of what the other has sent |
| RelayProtocol.AnswerExpected | tunshell-client/src/client.rs:111-164 | what a client hears next is what its mode expects, given the invariant |
| RelayProtocol.HearOk | tunshell-client/src/client.rs:111-164 | every message heard keeps the client's part of the invariant |
| RelayProtocol.WriteOk | tunshell-server/src/relay/server/relay.rs:19-34 | sending to one client, in any order, keeps the invariant |
| RelayProtocol.TakeDecision | tunshell-server/src/relay/server/relay.rs:110-181 | receiving an answer, and deciding on both, keeps the invariant |
| RelayProtocol.TakeRelay | tunshell-server/src/relay/server/relay.rs:190-219 | passing a payload on, or ending, keeps the invariant |
| RelayProtocol.ActOk | tunshell-server/src/relay/server/relay.rs:10-96 | every action of the server and of either client keeps the invariant |
| RelayLaws.AttemptIsShared | tunshell-server/src/relay/server/relay.rs:133-167 | in every run an attempt that was sent means that both clients announced a port for a common transport, TCP or UDP, and carries the peer's ports |
| RelayLaws.RelayIsUnshared | tunshell-server/src/relay/server/relay.rs:116-160 | in every run, when relaying starts without an attempt, some client bound nothing or they share no transport |
| RelayLaws.DecisionExact | tunshell-server/src/relay/server/relay.rs:114-181 | in every run what the server does with the second answer of a pair: attempt exactly for a shared transport, else relay, and after an attempt direct, relay, or give up exactly when the answers differ |
| RelayLaws.NothingWithheld | tunshell-server/src/relay/server/relay.rs:184-222 | in every run, while the server lives and relays, it has passed on everything it received |
| RelayLaws.TakeExact | tunshell-server/src/relay/server/relay.rs:44-69 | a payload to relay is the next message to the peer and the session goes on; any other message ends it |
| RelayLaws.HearExact | tunshell-client/src/client.rs:111-164 | in every run what a client answers to each message: the ports it bound, whether it connected, and the mode it is in then |
| RelayLaws.FlipReachable | tunshell-server/src/relay/server/relay.rs:10-96 | the protocol is symmetric, so every law of the first client is one of the second |
| RelayMethods.AttemptDirectConnection | tunshell-server/src/relay/server/relay.rs:103-182 | exactly which result, from what the clients will send and how many writes succeed; both are asked to connect, to each other's ports, if and only if both announced a port for a common transport |
| RelayMethods.AttemptDecided | tunshell-server/src/relay/server/relay.rs:103-182 | such an attempt ends as `RelayProtocol` decides |
| RelayMethods.ProxyPayload | tunshell-server/src/relay/server/relay.rs:190-208 | a payload is passed on, a close ends, anything else is an error |
| RelayMethods.ProxyNext | tunshell-server/src/relay/server/relay.rs:210-216 | the next message of one client, with exactly its result, and what was passed on stays what was received |
| RelayMethods.RelayLoop | tunshell-server/src/relay/server/relay.rs:210-221 | both directions pass on exactly the payloads received, in order; it ends at the first message that is no payload, or cannot be read or passed on, with the result that says which |
| RelayMethods.PairConnections | tunshell-server/src/relay/server/relay.rs:19-84 | both clients are told the same things in the order the protocol says, who the peer is first, and relaying starts at the same message; exactly which result the session has |
| RelayMethods.NegotiateNext | tunshell-client/src/client.rs:112-163 | one turn of the client's loop answers as the protocol does |
| RelayMethods.NegotiatePeerConnection | tunshell-client/src/client.rs:103-164 | exactly which socket or error, from what the server will send; the replies are those of the protocol |
| Tunnel.TunnelIsFifo | tunshell-client/src/shell/network.rs:377-389 | in every run what was written to a connection's socket is, in order, a prefix of what was read from its socket on the other side; while it is open, the queued payloads and those on their way are exactly the rest |
| Tunnel.NumbersAreFresh | tunshell-client/src/shell/network.rs:518-527 | client numbers are odd, server numbers even, and none was ever used on either side |
| Tunnel.OneSocket | tunshell-client/src/shell/network.rs:341-369 | a request to connect arrives only for a number without a socket, and each number has at most one reader |
| Tunnel.AcceptOk | tunshell-client/src/shell/network.rs:234-258 | accepting keeps the invariant |
| Tunnel.ConnectOk | tunshell-client/src/shell/network.rs:341-348 | connecting on request keeps the invariant |
| Tunnel.AnsweredOk | tunshell-client/src/shell/network.rs:359-366 | activation flushes the queue and keeps the invariant |
| Tunnel.DeliverOk | tunshell-client/src/shell/network.rs:377-389 | writing, queueing or dropping a payload keeps the invariant |
| Tunnel.DroppedOk | tunshell-client/src/shell/network.rs:390-394 | closing keeps the invariant |
| Tunnel.ReadOk | tunshell-client/src/shell/network.rs:418-421 | forwarding what was read keeps the invariant |
| Tunnel.ReadEndOk | tunshell-client/src/shell/network.rs:414-426 | the end of a socket keeps the invariant |
| Tunnel.ActOk | tunshell-client/src/shell/network.rs:220-272 | every turn of a peer's loop keeps the invariant of the pair |
| TunnelLaws.CloseIsFinal | tunshell-client/src/shell/network.rs:390-430 | in every run, once a peer has handled a close of a number or its own read of it has ended, the number is never live there again and its socket is given nothing more |
| TunnelLaws.CloseReaches | tunshell-client/src/shell/network.rs:406-430 | in every run, once a side's reader is done and nothing is on its way, the other side has closed the number too; each side sends at most one close for it |
| TunnelLaws.CloseExact | tunshell-client/src/shell/network.rs:390-394 | a handled close leaves the number in none of the maps and every other number as it was |
| TunnelLaws.ReadExact | tunshell-client/src/shell/network.rs:406-430 | a read that ends sends exactly one close and stops writing; one with bytes sends just them |
| TunnelLaws.ConnectExact | tunshell-client/src/shell/network.rs:341-357 | a request opens the connection or only answers with the error |
| TunnelLaws.ResultExact | tunshell-client/src/shell/network.rs:359-375 | the answer opens a pending connection and writes its queue, or gives it up with a notice; for any other number it means nothing |
| TunnelLaws.PayloadExact | tunshell-client/src/shell/network.rs:377-389 | a payload is written to an open connection, queued for a pending one, and otherwise reported |
| TunnelLaws.FirstFreeExact | tunshell-client/src/shell/network.rs:518-527 | the number found is free, of the peer's kind, and the first such |
| TunnelLaws.AcceptExact | tunshell-client/src/shell/network.rs:234-253 | the request names the number and the listener's host and port; the number is pending |
| NetworkPeers.NetworkPeer.NextTcpConId | tunshell-client/src/shell/network.rs:518-527 | the loop finds the first free number of its parity |
| NetworkPeers.NetworkPeer.ActivateTcpConnection | tunshell-client/src/shell/network.rs:495-516 | the connection is entered, its queue written in order and forgotten, and reading started |
| NetworkPeers.NetworkPeer.Accept | tunshell-client/src/shell/network.rs:234-253 | a fresh number, pending, and the request for it sent |
| NetworkPeers.NetworkPeer.HandleMessage | tunshell-client/src/shell/network.rs:335-404 | the whole new state and what is sent, for every message, as the laws of `TunnelLaws` say |
| NetworkPeers.NetworkPeer.HandlePayload | tunshell-client/src/shell/network.rs:377-389 | written, queued or refused |
| NetworkPeers.NetworkPeer.HandleTcpRead | tunshell-client/src/shell/network.rs:406-430 | data is forwarded and reading goes on; end and error close |

## Left out

- Retransmit.NothingForgotten: asks that no packet joins the resend map more than 2^31 - 2 positions behind the acknowledged ones, because a packet that late can share its number with a newer one and push it out; `Retransmit.ShortRunIsPrompt` discharges it for runs below 2^31 - 1 sequence numbers.
- UdpRuns.InFlightBound: counts close packets, because they consume sequence numbers without asking the congestion window; before any close packet the bound is the plain one.
- UdpRuns.ReceiveBuffer: speaks of runs in which no packet range passes 2^32, because the overlap test compares raw numbers; prefix safety has no such restriction.
- UdpRuns.ProgressExact: is about one arrival, not about eventual delivery: duplicates trigger no acknowledgement, update events can be lost with a cancelled future, and window growth wakes nobody.
- ConnectionVars.UdpConnectionVars.PullEvent: takes one event; the loop that drains update events before sending one empty packet is several such steps and one `MakeUpdate` of `UdpSystem`, which may come at any time.
- Interpreters.Interpreter.ReadLine: leaves open what state a failed write leaves behind, because the interpreter ends with it.
- Handshake.Agreement: a failing send ends a negotiation like any other error; the partial send before it is not distinguished.
- RelayMethods.PairConnections: writes to the first client before the second; `RelayProtocol` has every order.
- Tunnel.TunnelIsFifo: assumes socket writes succeed, because a failed write is logged and the connection goes on.
- Sockets, tasks, timers, select scheduling and real wakers: steps in any order; a waker is its sequence number.
- The `try_lock` of a disconnect, and an event channel that closes under a write: the connection is ending in both cases.
- Round trip estimates, send times, read and close wakers, and when resend tasks fire.
- Datagrams from strangers, port choice, NAT behaviour and which transport wins a direct attempt.
- Any bound on unread memory: the accept test ignores the reassembled bytes.
- Commands run by the interpreter, the working directory and `delegate_shell`; a command is the bytes it prints.
- Terminals with margins, wide or combining characters, and control characters typed as text.
- The write side of `MessageStream`, whose re-polled write queues the message again.
- UDP bindings of the tunnel, except that their messages share the channel; binding inversion.
- Key exchange, session pairing maps, the encrypted stream, TLS, WebSocket, PTY, HTTP API and website.
