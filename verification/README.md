# A model of the QuakeWorld client network library

The library moves game messages over UDP. Two implementations of its reliable channel live side by side: the
symmetric netchan (`src/net_chan.c`) and the compiled client (`src/netqw.c`). Around them stand a Huffman packet
codec, the delta-coded movement commands, a ring of generated frames with two consumers, a packet-loss meter,
reference-counted packets, a checksum, the loopback and the address parser. This project models those parts in
Dafny 4.11 and proves what they promise, for every input, every run or every interleaving.

`dafny verify dfyconfig.toml` checks everything.

## How it is built

Every stateful part comes three ways. A value describes the state, and functions describe what one call does to it.
A class has the same fields as the C struct, its methods change them in place with the loops of the source, and each
method's contract ties the new state to the function. Lemmas about the functions then speak of whole runs. Each class
holds only the fields of its struct that the part at hand uses.

| files | what they cover |
|---|---|
| `Wire` | bytes, the packet header in its two layouts, 32-bit words |
| `NetchanSpec`, `ReliableDirection`, `NetchanProtocol`, `Netchan` | the netchan: one step, one direction's invariant, two ends and a network, the struct in place and its bandwidth choke |
| `MovePart` | the bytes the compiled client puts in front of its reliable buffers |
| `NetqwSpec`, `NetqwProtocol`, `Netqw` | the compiled client against a netchan server, and its reliable half in place on its linked list |
| `Bits`, `BitSwap`, `Huffman`, `HuffmanPacket`, `Q3Tables`, `Sizebuf` | C's bit operations, the reversal table, the codec over any agreeing tables, the tables in use, compression in place |
| `EndToEnd` | header, compression, wire, decompression and parsing put together, between every pair of ends |
| `Usercmd`, `MessageReading` | the delta writer against the delta reader |
| `FramesSpec`, `FrameClock`, `Frames`, `FrameRuns`, `DeltaPoints` | the frame ring, its timestep, the struct in place, runs of both threads on one clock, and what a packet asks the server for |
| `PacketLoss` | the 200-slot reply window |
| `LinkedList`, `PacketListsSpec`, `PacketLists` | heads, tails and next pointers; allocated blocks, reference counts and the four lists; the struct in place |
| `Crc`, `Loopback`, `Address` | the checksum, the loopback ring, address printing and parsing |

The network of both protocols is a set of every packet ever sent. A packet may be processed at any time, any number
of times, in any order, or never, so loss, duplication and reordering are all covered. A region under the mutex is one
step. Where the network thread frees acknowledged buffers without the mutex (`src/netqw.c:476-484`), taking the head,
freeing it and clearing the tail are steps of their own, and the client thread may append between any two of them.
Time, arrivals, the result of `malloc`, what was in uninitialised memory, the player's input and the name
service are parameters.

## What the code turned out not to do

Some promises hold only under a condition; the lemma then gives the exact condition or a witness.

- A message compressed in place comes back only while it has at most 1451 bytes on the wire, because the receiver's
  length check (`src/net_chan.c:108`) counts the header (`Sizebuf.InPlaceRoundTrip`, `Sizebuf.RawRoundTrip`,
  `Sizebuf.LongMessageNotRestored`).
- A server datagram arrives whole at the compiled client if there is a byte of room in the server's buffer or its
  payload is not lengthened by compression (`EndToEnd.NetchanToQw`). Any other goes out as it is. A netchan leaves it
  alone, but the client decompresses it anyway, and does not get it back if its payload begins with 0x80 or with a
  value not below the code length of its last byte (`EndToEnd.FullDatagramMisread`); with the tables in use such
  datagrams leave a channel (`EndToEnd.FullDatagramNotRestored`).
- Compressing overruns the 1451-byte local buffer of `src/net_chan.c:89` if and only if the code laid down has more
  than 8 bits for each of 1449 bytes; 1450 bytes of value 20 do it (`Sizebuf.LocalBufferOverrun`,
  `Sizebuf.LongPayloadOverruns`).
- A client channel ends the process if and only if it commits a message of 1449 or 1450 bytes; no resend ever does
  (`NetchanProtocol.AbortsExactly`, `NetchanProtocol.LongMessageAborts`).
- The network thread frees acknowledged buffers without the mutex. An append between the moment it takes the last
  buffer of the list and the moment it clears the tail is lost for ever, and the first such append after the buffer
  is freed writes to freed memory. Nothing else does, and nothing else is lost: freed plus queued buffers are all
  those appended if and only if no append falls there (`PacketListsSpec.NothingElseDangles`,
  `PacketListsSpec.BuffersKept`, `PacketListsSpec.UnluckyLosesABuffer`). A bundle behind which another buffer waits
  is freed safely whatever happens meanwhile (`PacketListsSpec.ProtectedStays`, `NetqwSpec.LostExactly`).
- The compiled client is correct only because a server never sends more packets than it has received
  (`src/netqw.c:461`, `src/main.c:345`). Without that the server can be given the same bytes twice
  (`NetqwProtocol.WithoutConventionDuplicates`).
- A reliable buffer at the head of the client's idle queue goes out with a packet if and only if it fits behind that
  packet's moves. The moves take 9 to 60 bytes: a buffer of 1431 bytes or more blocks the queue for ever, one of 1379
  or fewer always gets through, and one in between goes with the first packet that leaves room
  (`NetqwProtocol.HeadGoesExactly`, `NetqwProtocol.WhichHeadsGo`, `NetqwProtocol.OversizedHeadBlocks`).
- The delta reader set to protocol 26 consumes what the writer wrote if and only if exactly one of the second angle
  and the three movements is present (`Usercmd.Protocol26Drifts`).
- The delta point is written to the slot of the packet at the head of the queue, not to the frame just generated
  (`src/netqw.c:266`; `FramesSpec.DeltaGoesToTheHead`).
- The next send is right if and only if at most 62 frames are waiting or due (`FrameRuns.NextSendIsRight`). At every
  rate the client thread's own calls can bring the ring beyond that while the network thread stalls, since they keep
  the clock current and the one-second clamp without effect (`FrameRuns.ClientAloneOverruns`). With an empty queue and
  no other thread generating, one send after a stall stays within it if and only if the rate is at most 66 frames a
  second; the default is 72 (`FrameClock.StallFitsTheRing`).
- Frame times fit their byte if and only if the rate is at least 4 frames a second (`FrameClock.FrameTimeFitsByte`).
- `NetQW_Delete` does not free packets still queued for sending, nor lost buffers
  (`PacketListsSpec.DeleteFreesAllButTheSendQueue`).
- The loopback ring forgets more than it should when a multiple of 2^32 messages, plus up to three, are unread
  (`Loopback.KeepsNewestFour`).
- The loopback address prints as a name that the parser hands to the name service (`Address.LoopbackIsLookedUp`), and
  the name `local` with a port behind it is handed over as well (`Address.ParsesHostAndPort`).
- The comment at `src/net_chan.c:57-59` promises a fatal error on overflow; the code sets a flag nobody reads and
  the channel never sends again (`NetchanProtocol.OverflowSilences`). The model follows the code.

## Model

| member | source | states |
|---|---|---|
| `Wire.HeaderRoundTrip` | src/net_chan.c:258-264 | both implementations lay the header down in the same eight bytes, and either parser reads back both numbers and both flags whatever follows |
| `NetchanProtocol.DeliveredInOrderOnce` | src/net_chan.c:239-275 | over every run with loss, duplication and reordering, in both directions: messages delivered are a prefix of those committed, at most one is outstanding, none when the reliable buffer is empty, and the bytes delivered are a prefix of the bytes written |
| `NetchanProtocol.ResendIsSafe` | src/net_chan.c:239-243 | whenever a run reaches a resend, no reliable packet already sent can be accepted any more, and the message really is missing at the other end |
| `NetchanProtocol.ClearedOnlyWhenDelivered` | src/net_chan.c:374-384 | over every run, the only step that empties the reliable buffer is one after the peer has been given that very message |
| `NetchanProtocol.NextKeeps` | src/net_chan.c:350-384 | every write, transmit and process, at either end, of any packet in the network, keeps the invariant of both directions |
| `NetchanProtocol.RunsCanBeDrained` | src/net_chan.c:43-51 | from every reachable state three loss-free exchanges acknowledge what was outstanding, and a fourth delivers every byte written |
| `NetchanProtocol.ExchangeOutcome` | src/net_chan.c:239-275 | after one exchange the sender holds nothing, or holds the same message together with proof that it was missing |
| `NetchanProtocol.TwoExchangesAreTooFew` | src/net_chan.c:242-243 | three is the least number: after a late loss two exchanges never suffice |
| `NetchanProtocol.LateLossReachable` | src/net_chan.c:274 | such a late loss is reached from the start |
| `NetchanProtocol.AbortsExactly` | src/net_chan.c:245-279 | over every run a channel ends in Sys_Error if and only if it is a client's and some transmit commits a message of 1449 or 1450 bytes |
| `NetchanProtocol.LongMessageAborts` | src/net_chan.c:245-279 | such a message, once written, ends it at the next transmit |
| `NetchanProtocol.OverflowSilences` | src/net_chan.c:227-233 | over every run a channel whose message has overflowed sends nothing ever after, whatever is written or received |
| `ReliableDirection.SenderTransmits` | src/net_chan.c:239-275 | a transmit keeps one direction's invariant over sender, receiver and every packet in flight |
| `ReliableDirection.ReceiverAccepts` | src/net_chan.c:379-384 | a receiver that blindly flips its bit stays in step |
| `Netchan.NetChannel.constructor` | src/net_chan.c:173-188 | Netchan_Setup establishes the initial channel whatever the buffers held |
| `Netchan.NetChannel.Transmit` | src/net_chan.c:217-314 | in place: the channel, the packet and the clear time become what the protocol step says, including overflow and the message too long for its packet |
| `Netchan.NetChannel.PrepareReliable` | src/net_chan.c:239-253 | resend and commit decisions, and the staged copy, match the protocol step |
| `Netchan.NetChannel.WritePacket` | src/net_chan.c:255-279 | header, reliable and unreliable parts of the packet, and the remembered sequence number |
| `Netchan.NetChannel.Process` | src/net_chan.c:318-400 | in place: acceptance, the new channel and the drop counters, for every datagram with a whole header |
| `Netchan.NetChannel.CanPacket` | src/net_chan.c:193-201 | true exactly when, off the loopback, a packet of any size would leave the clear time no further past the present than that packet and 200 bytes cost |
| `Netchan.NetChannel.CanReliable` | src/net_chan.c:204-209 | true exactly when nothing awaits its acknowledgement and a packet may go |
| `Netchan.DatagramHeader` | src/net_chan.c:255-279 | what a channel lays down parses to the header of the protocol step, names the qport, holds the reliable part and then the unreliable data when all fit in 1458 bytes, and fits its buffer |
| `Netchan.ClearTimeIs` | src/net_chan.c:296-299 | the exact clear time of any run: the greatest of what it was plus the cost of everything and, for each transmit, its time plus the cost of it and all later ones |
| `Netchan.PauseForgets` | src/net_chan.c:301-304 | a transmit while the server is paused leaves a channel charged from that moment on only, whose next packet may go at once at any positive rate |
| `Netchan.ClearTimeCovers` | src/net_chan.c:296-299 | so after any run without a pause the clear time is at least the first instant plus the cost of all bytes sent |
| `Netchan.ChokeBoundsBandwidth` | src/net_chan.c:190-201 | over any run paced by Netchan_CanPacket the bytes sent, times the rate, stay below the time elapsed plus the cost of 200 bytes and one packet |
| `NetqwSpec.FitIsLongest` | src/netqw.c:783-791 | a bundle is the longest prefix of the queue that keeps the packet under 1450 bytes |
| `NetqwSpec.DatagramRead` | src/netqw.c:731-803 | the bytes of a client packet read back: header, qport, moves, and the bundled buffers behind them |
| `NetqwProtocol.BuffersDeliveredInOrderOnce` | src/netqw.c:461-488 | over every run against a server that keeps the reply convention: the server's reliable stream is the freed buffers, at most followed by the outstanding bundle, and freed plus queued buffers are all those appended if and only if no append fell while the last buffer had been taken and the tail not yet cleared |
| `NetqwProtocol.ServerMessagesInOrderOnce` | src/netqw.c:437-438 | over every run the client is given the server's reliable messages once each, in order |
| `NetqwProtocol.ServerMessagesGetThrough` | src/netqw.c:731-742 | from every reachable state three rounds bring the client all reliable messages the server has committed, whatever was lost before |
| `NetqwProtocol.DecisionIsRight` | src/netqw.c:461-472 | the reply that settles a bundle tells the truth about it, and no copy of a reliable packet can be accepted afterwards |
| `NetqwProtocol.NextKeeps` | src/netqw.c:476-488 | every step of client, server and network, with appends before and inside the unlocked freeing of buffers, keeps the invariants of both directions |
| `NetqwSpec.LostExactly` | src/netqw.c:476-484 | what is appended after the last buffer has been taken is kept if and only if nothing is freed or another buffer waits behind the bundle |
| `NetqwProtocol.RoundSettles` | src/netqw.c:778-803 | one loss-free round settles the outstanding bundle, freeing exactly what the server has |
| `NetqwProtocol.TwoRoundsFreeTheHead` | src/netqw.c:461-488 | from every reachable state two rounds deliver and free the first queued buffer if it fits behind the moves of each |
| `NetqwProtocol.SmallHeadsGetThrough` | src/netqw.c:744-785 | a first buffer of at most 1379 bytes is always delivered and freed within two rounds, whatever moves go with it |
| `NetqwProtocol.WhichHeadsGo` | src/netqw.c:744-785 | a buffer fits behind every move part the client can write if and only if it has at most 1379 bytes, and behind none if and only if it has 1431 or more |
| `NetqwProtocol.HeadGoesExactly` | src/netqw.c:778-803 | between those the packet's own moves decide, exactly |
| `NetqwProtocol.HeadBlocks` | src/netqw.c:785 | over every run whose packets leave no room for the head of an idle queue nothing is sent or freed |
| `NetqwProtocol.OversizedHeadBlocks` | src/netqw.c:785 | a buffer of 1431 bytes or more at the head of an idle queue is never sent, over every run |
| `MovePart.StillIsShortest` | src/netqw.c:744-773 | the least move part has nine bytes |
| `MovePart.BusyIsLongest` | src/netqw.c:744-773 | the greatest has sixty |
| `MovePart.ExtrasRead` | src/netqw.c:744-773 | read by message numbers, a move part is checksum, loss and three deltas, then a delta request with its number if and only if there is one, then six bytes of teleport if and only if there is one |
| `NetqwProtocol.WithoutConventionDuplicates` | src/netqw.c:461 | if the server may send unasked, some run hands it the same bytes twice |
| `Netqw.Connection.AppendReliableBuffer` | src/netqw.c:1150-1180 | in place on head, tail and next pointers: the buffer becomes the last of the queue exactly when memory was found |
| `Netqw.Connection.DoSend` | src/netqw.c:731-812 | in place: header, qport, move part and the buffers the loop reads off the linked list are the packet of the protocol step, under 1450 bytes |
| `Netqw.Collect` | src/netqw.c:781-793 | following the next pointers from the head stops exactly behind the longest prefix that fits |
| `Netqw.Connection.DoReceive` | src/netqw.c:625-664 | in place: both sequence checks, the new state and exactly the buffers freed, with the client thread appending meanwhile |
| `Netqw.Connection.HandleReceivedPacket` | src/netqw.c:415-489 | in place: keeps, frees or re-arms the bundle as the protocol step says, whatever is appended before, inside and after the last turn of the freeing loop |
| `Netqw.Connection.FreeBundle` | src/netqw.c:476-484 | the loop frees the buffers sent, in order, one head at a time, and leaves the queue that those appends imply |
| `BitSwap.SwapReverses` | src/bitswap.h:20-278 | every entry of the table is its index with the bits reversed |
| `Huffman.EncByte` | src/huffman.c:28-59 | whatever the buffer held, appends exactly the symbol's code bits to the stream, leaves earlier bits alone and the rest of the last byte clear |
| `HuffmanPacket.WindowIsNextBits` | src/huffman.c:61-74 | the decoder's index is the next eleven bits of the stream, in order |
| `HuffmanPacket.DecodesSymbol` | src/huffman.c:61-79 | where a symbol's code stands the decoder answers that symbol, whatever bits follow |
| `HuffmanPacket.DecByte` | src/huffman.c:61-79 | the imperative decoder looks that window up and advances by the code's length |
| `HuffmanPacket.CompressPacket` | src/huffman.c:90-121 | the output buffer holds exactly the unused-bit count and packed codes, or the marker and the bytes themselves, and nothing behind the highest index named by Reach changes |
| `HuffmanPacket.ReachIsExact` | src/huffman.c:100-106 | a buffer one byte longer than the input is overrun if and only if the code is longer than eight bits for each byte but one; three bytes further nothing is ever touched |
| `HuffmanPacket.Compressed` | src/huffman.c:108-120 | never more than one byte longer than the input, and never empty |
| `HuffmanPacket.ShorterForm` | src/huffman.c:106-120 | of the coded and the raw form the shorter goes out, the coded one when equally long; the first byte tells which |
| `HuffmanPacket.DecompressPacket` | src/huffman.c:123-156 | writes exactly the decoded bytes and nothing else |
| `HuffmanPacket.RoundTrip` | src/huffman.c:90-156 | for any agreeing tables, decompressing a compressed packet gives the input back whatever follows it in memory; only a coded packet over 1450 bytes is cut |
| `HuffmanPacket.MisreadBytes` | src/huffman.c:123-156 | bytes never coded and taken for a packet: the marker is dropped, and decoding stops before the last byte if the first is not below the code length of the last |
| `Q3Tables.TablesAgree` | src/huffmantable_q3.h:1-2311 | the 256 codes and 2048 answers in use agree: clean codes of 1 to 11 bits, and every index that starts with a code answers its symbol |
| `Q3Tables.TablesCover` | src/huffmantable_q3.h:1-2311 | no answer of the decode table is shorter than the code of its symbol |
| `Sizebuf.SizeBuf.CompressAt` | src/net_chan.c:87-102 | in place behind the header, with all three ways out, given three bytes behind the local buffer |
| `Sizebuf.LocalBufferOverrun` | src/net_chan.c:89-94 | exactly when the coder writes behind the 1451 bytes of the local buffer |
| `Sizebuf.LongPayloadOverruns` | src/net_chan.c:89-94 | with the tables in use a payload of 1450 bytes does |
| `Sizebuf.SizeBuf.DecompressAt` | src/net_chan.c:104-114 | in place behind the header, with the check that skips it |
| `Sizebuf.HeaderKept` | src/net_chan.c:87-114 | compressing and decompressing never alter the header |
| `Sizebuf.InPlaceRoundTrip` | src/net_chan.c:87-114 | the receiver has the message back exactly while its compressed form has at most 1451 bytes, and otherwise keeps the bytes as they came |
| `Sizebuf.RawRoundTrip` | src/net_chan.c:104-109 | a payload that goes out raw survives if and only if the whole message has at most 1450 bytes |
| `Sizebuf.LongMessageNotRestored` | src/net_chan.c:108-109 | with the tables in use, a message within every limit is not restored |
| `EndToEnd.NetchanToNetchan` | src/net_chan.c:217-397 | whatever a channel may send, its peer reads the same header off the wire and the same payload while the datagram has at most 1451 bytes |
| `EndToEnd.QwToNetchan` | src/netqw.c:349-380 | every packet the compiled client may send arrives whole at a netchan server |
| `EndToEnd.NetchanToQw` | src/netqw.c:509-518 | every server datagram with a byte of room, or whose payload compression does not lengthen, arrives whole at the compiled client |
| `EndToEnd.FullDatagramMisread` | src/netqw.c:509-518 | all others leave as they are, are left alone by a netchan, and are not restored by the client when they begin with the marker or with a value not below the code length of the last byte |
| `EndToEnd.FullDatagramNotRestored` | src/net_chan.c:286-294 | with the tables in use, a channel given 1450 equal bytes of such a value sends such a datagram |
| `Usercmd.WriteDeltaUsercmd` | src/netqw.c:155-223 | in place at a moving index: mask, differing fields in order, frame time, nothing before or after touched |
| `Usercmd.OredIsMask` | src/netqw.c:162-181 | the flags or-ed together are the mask whose bits tell which fields differ |
| `Usercmd.CollectFlags` | src/netqw.c:162-181 | the eight tests in a row compute that mask |
| `Usercmd.ShortRoundTrip` | src/message_reading.c:48-64 | a signed 16-bit value is read back from its two bytes |
| `Usercmd.AngleIsPinned` | src/netqw.c:145-153 | an angle is sent as the one signed 16-bit number whose 360/65536th is within half a step of it modulo 360, away from zero when two are equally near |
| `Usercmd.DeltaRoundTrip` | src/netqw.c:155-223 | reading a delta against the command it was taken from gives every field of the new one as it was sent, and consumes exactly the bytes written |
| `Usercmd.ChainRoundTrip` | src/netqw.c:750-752 | the three chained deltas of a packet decode from the zero command to its three commands as they were sent |
| `Usercmd.CommandsArrive` | src/message_reading.c:155-220 | what is decoded are the three commands themselves: times, movements, buttons and impulses exactly, angles to the nearest step |
| `Usercmd.WriteChain` | src/netqw.c:750-752 | the three calls lay the chain down one behind the other |
| `Usercmd.Protocol26Drifts` | src/message_reading.c:167-215 | set to protocol 26 the reader ends where the writer did if and only if exactly one of four fields is present |
| `Usercmd.EightsArrive` | src/message_reading.c:180-185 | a movement of protocol 26 is a signed byte counting eights |
| `Usercmd.ReaderRunsOut` | src/message_reading.c:28-64 | the reader never passes the end of a message, and the failure flag is set if and only if the message ends before the delta does |
| `Usercmd.NothingLeftToRead` | src/message_reading.c:28-64 | behind the end every field reads as minus one |
| `MessageReading.MessageReader.ReadDeltaUsercmd` | src/message_reading.c:161-220 | in place, both protocol versions: position, failure flag and fields are those of the specification |
| `MessageReading.MessageReader.ReadLong` | src/message_reading.c:28-46 | four bytes left are read as the signed value they stand for; fewer set the failure flag and consume nothing |
| `FramesSpec.ConsumersSeeEveryFrame` | src/netqw.c:252-269 | over every mix of generating, sending and copying with at most 62 unsent and 64 uncopied frames, both consumers see every frame once in order, and both counts of the ring agree modulo 64 |
| `FramesSpec.StepKeeps` | src/netqw.c:809-813 | every step within the limits keeps the ring, both consumers' histories and both counts right |
| `FramesSpec.StepStays` | src/netqw.c:252-269 | every step, within the limits or not, keeps the ring equal to the last 64 frames generated |
| `FramesSpec.CopierFinds` | src/netqw.c:1240-1254 | the copying loop reads the history on from where it was |
| `FramesSpec.CommandRecoverable` | src/netqw.c:750-752 | over every run, packet k decodes to commands k-2, k-1 and k, angles to the nearest step, so any of three packets recovers a command |
| `FramesSpec.GenerateMissesSender` | src/netqw.c:750-752 | a frame generated while the sender reads without the lock does not disturb it |
| `FramesSpec.DeltaGoesToTheHead` | src/netqw.c:261-266 | which packet the delta point goes out with |
| `FramesSpec.WhatIsRead` | src/netqw.c:750-752 | for every number of waiting frames: which frame each of the three commands, and the next frame copied, come from; the intended ones if and only if at most 62 and 64 wait |
| `FramesSpec.RightExactlyWithin` | src/netqw.c:750-752 | over every run: with commands that can be told apart, the next packet is right if and only if at most 62 frames wait, and the next copy if and only if at most 64 do |
| `FrameClock.TimeConserved` | src/netqw.c:242-250 | the whole milliseconds of any number of frames, plus the carry, are the time that passed |
| `FrameClock.StoredTimeConserved` | src/netqw.c:249-250 | the same for the bytes actually stored, while a period and a carry stay under 256 milliseconds |
| `FrameClock.DueIsExact` | src/netqw.c:240-243 | exactly the frames that fit are due, leaving the clock less than a period behind |
| `FrameClock.PeriodIsLeast` | src/netqw.c:1126-1139 | the period is the least multiple of 1000 that is at least 1000 and the frame time |
| `FrameClock.FrameTimeFitsByte` | src/netqw.c:249 | no frame time is truncated if and only if the rate is at least 4 |
| `FrameClock.StallFitsTheRing` | src/netqw.c:711-713 | from an empty queue, nobody else generating: after any stall one send generates at most 62 frames if and only if the rate is at most 66, its two clock readings being under 8 ms apart |
| `FrameClock.LongStallForgets` | src/netqw.c:708-709 | after more than a second without a send only frames that fall due from then on are sent; otherwise the clock is left alone |
| `FrameRuns.NextSendIsRight` | src/netqw.c:700-816 | over every timed run of both threads, at every rate: all packets of the next send are right if and only if at most 62 frames are waiting or due |
| `FrameRuns.ClientAloneOverruns` | src/main.c:57 | at every rate the client thread's own generating brings a send beyond that, the clamp having no effect |
| `Frames.FrameQueue.SetFPS` | src/netqw.c:1120-1148 | in place: the specified period; zero changes nothing |
| `Frames.FrameQueue.Connect` | src/netqw.c:615-617 | a frame is due at once |
| `Frames.FrameQueue.StoreFrame` | src/netqw.c:252-269 | in place: one slot filled, the delta point placed, both counts advanced |
| `Frames.FrameQueue.GenerateFrames` | src/netqw.c:227-277 | the loop ends, generates exactly the frames due, with their frame times, and leaves the clock within a period |
| `Frames.FrameQueue.SendFrame` | src/netqw.c:744-815 | in place: move message with its three deltas read from the ring, delta request, teleport, and the counters once the packet is out |
| `Frames.FrameQueue.WriteMoves` | src/netqw.c:744-752 | the message bytes and the three deltas, one behind the other |
| `Frames.FrameQueue.AppendExtras` | src/netqw.c:758-773 | the delta request and the teleport when there is one, nothing before them touched, the teleport used up |
| `Frames.FrameQueue.SetTeleport` | src/netqw.c:1273-1294 | each coordinate in eighths as sixteen bits |
| `Frames.FrameQueue.DoSend` | src/netqw.c:700-816 | clamp, generation and the sending loop: everything waiting is sent, each packet with its number and move part |
| `Frames.FrameQueue.CopyFrames` | src/netqw.c:1231-1262 | in place: the caller's ring receives exactly the uncopied frames from the reported slot on, with the reported count and sequence number |
| `Frames.GeneratingStays` | src/netqw.c:240-274 | frames generated together extend the history by exactly their plan |
| `Frames.FramesKeepTime` | src/netqw.c:242-250 | over any number of frames generated together, 1000 times the frame times in their commands plus what is left over is the time that passed plus what was left over before |
| `Frames.FramesKeepInput` | src/netqw.c:245-263 | angles, buttons, impulse and time of each frame are the player's, and so are the movements unless they are locked, when they are zero |
| `Frames.PacketsCarryHistory` | src/netqw.c:719-815 | with at most 62 waiting, a send emits each frame once, in order, each packet repeating the last three commands |
| `Frames.DoSendIsRight` | src/netqw.c:700-816 | generation and sending together, from any state any run reaches: all packets are right if and only if at most 62 frames are waiting or due |
| `Frames.PacketExtras` | src/netqw.c:729-773 | packet by packet: numbers one apart, each checksum that of its own number, the loss figure, and the teleport with the first packet only |
| `Frames.PacketArrives` | src/netqw.c:744-752 | every right packet decodes to the last three commands of the history |
| `Frames.ScatteredHolds` | src/netqw.c:1240-1254 | slot by slot, what the caller's ring holds after a copy |
| `Frames.CoordinateArrives` | src/netqw.c:1273-1294 | a teleport coordinate reads back cut to eighths towards zero |
| `DeltaPoints.RequestRead` | src/netqw.c:758-762 | the next packet asks for a delta if and only if its slot has a delta sequence, and then for that number's low byte |
| `DeltaPoints.NextPacketAsks` | src/netqw.c:265-266 | from every reachable state with an empty queue: a delta point set before a frame is generated is what the next packet asks for if and only if it is set and belongs to one of the last 64 packets |
| `DeltaPoints.NoPointNoRequest` | src/netqw.c:263-266 | over every run in which no delta point is set no packet asks for a delta |
| `DeltaPoints.CopiedWithItsDelta` | src/netqw.c:1245 | over every run that overwrites no waiting frame: a frame is copied with the delta sequence its packet went out with, or would go out with now |
| `PacketLoss.LossIsExact` | src/netqw.c:440-458 | over every run, a reply in the window sets the loss to half the exact number of unanswered packets, rounded up, never above 99, counting only packets really sent |
| `PacketLoss.SendTracks` | src/netqw.c:807 | clearing a slot on sending keeps the window accurate, whatever memory held first |
| `PacketLoss.ReplyTracks` | src/netqw.c:440-442 | so does marking a reply, late or repeated |
| `PacketLoss.CountIsExact` | src/netqw.c:444-455 | the downward scan counts each unanswered packet once |
| `PacketLoss.ReplyWindow.HandleReply` | src/netqw.c:440-459 | in place: slot, scan and percentage |
| `PacketLoss.ReplyWindow.PacketSent` | src/netqw.c:807-812 | in place: the slot of the packet sent |
| `PacketListsSpec.CountsAndOrder` | src/netqw.c:649-693 | over every interleaving of both threads: a packet's count is the number of its holders, both packet lists and the send queue are first in first out, and the only step that can touch a freed block is one append |
| `PacketListsSpec.BuffersKept` | src/netqw.c:476-484 | over every interleaving: freed plus queued buffers are all those appended, in order, if and only if no append fell while the list was closing |
| `PacketListsSpec.ProtectedStays` | src/netqw.c:476-484 | while another buffer waits behind the bundle the list does not close, whatever step comes |
| `PacketListsSpec.UnluckyLosesABuffer` | src/netqw.c:476-484 | a run of six steps in which an append touches a freed block and its buffer ends up in no list |
| `PacketListsSpec.StepKeeps` | src/netqw.c:903-918 | every step keeps every count, every list and what the tail of the reliable buffers points to |
| `PacketListsSpec.NothingElseDangles` | src/netqw.c:1157-1176 | a step reads, links or releases a block that is not allocated if and only if it is the first append between the last buffer's freeing and the clearing of the tail |
| `PacketListsSpec.AdvanceKeeps` | src/netqw.c:668-692 | every step keeps both packet lists in order of arrival and accounts for every buffer |
| `PacketListsSpec.DeleteFreesAllButTheSendQueue` | src/netqw.c:1066-1110 | after the final delete every block has been freed exactly once if and only if the send queue was empty and no append fell while the list was closing |
| `LinkedList.Appended` | src/netqw.c:682-692 | setting the next pointer behind the tail, and the head when there was no tail, appends to the list |
| `LinkedList.Popped` | src/netqw.c:905-907 | following the head's next pointer removes the head, and the list is empty exactly when that pointer is null |
| `PacketLists.PacketQueues.ReceivePacket` | src/netqw.c:649-680 | in place on the pointers: one or two references, and a delayed packet linked behind the internal tail |
| `PacketLists.PacketQueues.PublishPacket` | src/netqw.c:682-693 | in place on the pointers, under the lock: the packet becomes the last of the client's list |
| `PacketLists.PacketQueues.HandleHead` | src/netqw.c:903-909 | in place on the pointers: the delayed head is handled, then unlinked, and the tail cleared with the last |
| `PacketLists.PacketQueues.AppendReliableBuffer` | src/netqw.c:1150-1180 | in place on the pointers: links behind the tail field as it is, and writes through freed memory exactly in the case named above |
| `PacketLists.PacketQueues.TakeReliableHead` | src/netqw.c:478-479 | in place: the head moves on to what its next pointer says |
| `PacketLists.PacketQueues.FreeTakenBuffer` | src/netqw.c:480 | in place: the buffer taken is freed, the tail field left as it was |
| `PacketLists.PacketQueues.ResetReliableTail` | src/netqw.c:483-484 | in place: the tail is cleared exactly when the list is empty |
| `PacketLists.PacketQueues.QueuePacket` | src/netqw.c:321-347 | in place on the pointers: the packet becomes the last of the send queue |
| `PacketLists.PacketQueues.SendQueuedHead` | src/netqw.c:929-938 | in place on the pointers: the first packet queued goes out and is freed |
| `PacketLists.PacketQueues.DropReference` | src/netqw.c:913-915 | in place: one reference fewer, the last one frees |
| `PacketLists.PacketQueues.FreePacket` | src/netqw.c:1214-1229 | in place on the pointers: the client's head is unlinked and its reference dropped |
| `PacketLists.PacketQueues.Delete` | src/netqw.c:1085-1105 | the three loops end and leave only the send queue and lost buffers allocated |
| `Crc.TableDivides` | src/common.c:81-115 | every table entry is its index divided by the polynomial |
| `Crc.CrcIsDivision` | src/common.c:117-126 | for every block length the table-driven checksum is the bitwise remainder |
| `Crc.CrcBlock` | src/common.c:117-126 | the loop computes that remainder |
| `Crc.ByteStepBijective` | src/common.c:122-123 | for each byte the step is a bijection of the register |
| `Crc.BurstDetected` | src/common.c:117-126 | equal-length blocks that differ at most inside two adjacent bytes have equal checksums if and only if they are equal |
| `Loopback.RefinesFifo` | src/net.c:375-414 | every sequence of sends and reads behaves as a queue that keeps the newest four messages, counters wrapping, unless a read comes 2^32 messages late |
| `Loopback.GetHolds` | src/net.c:375-397 | a read gives the oldest message kept, whatever the counters did |
| `Loopback.SendHolds` | src/net.c:399-414 | a send overwrites only the message that is no longer kept |
| `Loopback.KeepsNewestFour` | src/net.c:382-386 | the exact unread counts at which the newest four are kept |
| `Loopback.LoopbackBuffer.GetLoopPacket` | src/net.c:375-397 | in place: the read of the specification, counters skipping what was overwritten |
| `Loopback.LoopbackBuffer.SendLoopPacket` | src/net.c:399-414 | in place: the send of the specification, with the message too long for a slot |
| `Address.StringDecToUInt` | src/net.c:208-226 | accepts the maximal run of digits exactly when its value is within the limit, and never builds a value above ten times the limit plus nine |
| `Address.StringToIPv4` | src/net.c:233-267 | the loop reads exactly the dotted quads of the specification |
| `Address.QuadOf` | src/net.c:233-267 | every four decimal bytes joined by dots, ended by the string's end or a colon, are read |
| `Address.OnlyQuads` | src/net.c:233-267 | and nothing else is |
| `Address.StringToNetAddrNoPort` | src/net.c:269-315 | local, then IPv4, then the name service up to the colon |
| `Address.StringToAdr` | src/net.c:317-357 | host, port and what may follow, with every failure |
| `Address.ParsesName` | src/net.c:269-357 | a string without a colon: the loopback, an IPv4 address, or what the name service says about the whole of it, with the default port |
| `Address.ParsesHostAndPort` | src/net.c:269-357 | a string with a colon: an IPv4 address, or what the name service says about exactly the part before the first colon, with the port; it fails if and only if that fails or what follows is not a number up to 65535 |
| `Address.SplitAtColon` | src/net.c:294-296 | every string is of one of these two kinds |
| `Address.HostAndPrintedPort` | src/net.c:333-345 | a host name with a printed port parses to its address with that port |
| `Address.PrintedReadsBack` | src/net.c:176-206 | parsing the printed form of any IPv4 address gives address and port back; without a port, the default |
| `Address.LoopbackIsLookedUp` | src/net.c:180-181 | the printed loopback address comes back exactly when the name service says so |

## Left out

- `Netchan.NetChannel.Transmit`: the size that compression leaves is a parameter; the `outgoing_size` and `outgoing_time` records, latency statistics and demo playback are not modelled, and `cls.netchan.huffcontext` is taken to be the channel's own.
- `Netchan.NetChannel.WritePacket`: returns the packet as a value; `Netchan.DatagramHeader` says what its bytes are.
- `Netchan.NetChannel.Process`: datagrams shorter than a header, and the smoothed latency and rate figures, are not modelled.
- `Netchan.ChokeBoundsBandwidth`: exact real arithmetic and no server pause; the C code uses doubles.
- `NetchanProtocol.DeliveredInOrderOnce`: sequence numbers are unbounded; in C they must stay below 2^31.
- `NetqwProtocol.BuffersDeliveredInOrderOnce`: the undelayed path and a server that keeps the reply convention; with lag the freshness check and the update are apart.
- `PacketListsSpec.BuffersKept`: an append is one step, as if the mutex held it against the freeing thread too; that thread could also come between its statements, and then leave the tail at a lost buffer.
- `Netqw.Connection.HandleReceivedPacket`: buffers appended meanwhile get addresses not in use when the packet came, never that of a buffer it frees; the packet itself is given by its header.
- `Sizebuf.SizeBuf.CompressAt`: the local buffer is given the three bytes past its declared end that the coder may touch.
- `HuffmanPacket.DecompressPacket`: payloads whose unused-bit count exceeds their size, and outputs longer than the buffer, are not modelled.
- `Sizebuf.SizeBuf.DecompressAt`: the same two cases.
- `EndToEnd.FullDatagramMisread`: whether a full datagram that begins with a smaller value than the code length of its last byte may still decode to itself is not settled.
- `Q3Tables.TablesAgree`: the decode table is written as its 257 runs of equal entries.
- `Usercmd.DeltaRoundTrip`: angles are exact reals sent as 16-bit values; the value side of the reader follows the commented version at src/message_reading.c:225-287, since the live one discards what it reads.
- `Frames.FrameQueue.GenerateFrames`: the player's input is a parameter where the source has its calls commented out, and the unsigned wrap of the clock at connection is not modelled.
- `Frames.FrameQueue.SendFrame`: the checksum byte is a parameter; the sequence header and the reliable buffers of the same packet are those of `Netqw.Connection.DoSend`.
- `PacketLoss.LossIsExact`: replies carry the number of a packet already sent, as the convention says.
- `PacketLists.PacketQueues.ReceivePacket`: a next field is a map from addresses, and the time until which a packet is held is a flag.
- `Loopback.LoopbackBuffer.SendLoopPacket`: one direction; choosing the peer's buffer is not modelled.
- `Address.ToString`: IPv4 only, since IPv6 addresses are printed but have no parser.
- SZ_Write, SZ_GetSpace and the MSG_Write functions are not part of the repository; they are taken to append, and to end the process when a buffer without the overflow permission is full (src/common.h:153).
- The challenge and connect handshake, the extension list and the disconnect packets: text exchange without invariants.
- COM_BlockSequenceCRCByte beyond its use of the checksum, and all of src/main.c: message parsing that mostly skips.
- Sockets, threads, mutexes, clocks and name resolution: foreign calls.
