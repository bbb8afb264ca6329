# Verified model of the Bluetooth serial-link stack

A Dafny model of the code in `drivers/blue8852be` that keeps packets ordered, intact and unlost over a
raw byte line: the two reliable links (BCSP and Three-wire, H5), their framing codec and CRC, the
transmit worker of the UART line discipline, H4 reassembly with MediaTek STP underneath, and the HCILL
power-save queue. `dafny verify dfyconfig.toml` checks all of it.

## How it is put together

Every layer has two faces. The functions on values say what an operation does to a state; the claims
are lemmas about them, over every input and every run. The classes hold the driver's own fields and
update them in place, with the loops and branches of the source; each method's contract equates the new
fields with the function of the old ones, so the claims hold of the code in that form.

| file | holds |
|---|---|
| `Bytes.dfy`, `Machine.dfy` | octets; machines that take one input at a time, and why the cutting of the input does not matter |
| `Crc.dfy`, `Framing.dfy` | the nibble-table CRC; the frame format and escaping that BCSP and H5 share |
| `GoBackN.dfy` | the 3-bit sliding window, with absolute numbers kept beside the modular ones |
| `BcspCodec.dfy`, `BcspLink.dfy`, `BcspDriver.dfy` | the BCSP receiver, the link on values, and `struct bcsp_struct` |
| `BcspErrors.dfy` | streams with damaged frames |
| `BcspWire.dfy`, `H5Wire.dfy` | the octets, channel numbers, answers and queue order of both links, written out and proved of the functions above |
| `BcspRun.dfy`, `BcspProgress.dfy`, `BcspService.dfy` | two BCSP endpoints on lossy channels: safety, deadlock freedom, and what one HCI layer gets of what the other submitted |
| `H5Link.dfy`, `H5Codec.dfy`, `H5Driver.dfy`, `H5Run.dfy`, `H5Service.dfy` | the same for Three-wire, from the opening of both links |
| `H5Bringup.dfy`, `H5Down.dfy` | exactly when both Three-wire links can still become active, and a run after which they never do |
| `H5Stall.dfy`, `H5Progress.dfy`, `H5BothEnds.dfy`, `H5Witness.dfy` | how Three-wire can stall, exactly when quiet endpoints get everything across one way and both ways, and runs into each stall |
| `TxWorker.dfy`, `TxWorkerDriver.dfy` | the wake-up protocol as interleaved atomic steps, and the code as traces of them |
| `H4.dfy`, `H4Driver.dfy`, `Stp.dfy`, `StpDriver.dfy` | reassembly and de-framing |
| `Hcill.dfy`, `HcillDriver.dfy` | power-save queueing |

In the two-endpoint models a world is two endpoints and the frames under way in each direction. A step
submits a packet, dequeues and transmits (with any outcome of each allocation), fires an armed timer,
takes the oldest frame, or loses a frame anywhere on the way; nothing is duplicated or reordered, and
detected corruption counts as loss (`BcspErrors.DamageIsLoss`). Frames carry the absolute number they were sent under as a ghost; the
code only sees it modulo 8. That frames and octets agree is `BcspDriver.OctetsCarryFrames` for BCSP
and `H5Codec.OctetsCarryFrames` for Three-wire.

The classes and the functions they are proved against could be wrong together, so what they mean is also
stated from the outside: from the submissions of a run alone (`BcspService`, `H5Service`), from the octets of
a packet alone (`H4.PacketAsWritten`, `Stp.SegmentAsWritten`), bit by bit (`Crc.TrailerBits`), and in plain
numbers (`BcspWire`, `H5Wire`).

Some promises one might expect are false of the code. Each is stated with the exact condition under which
it holds, and an input on which it fails:

- Three-wire does not always get its packets across. From quiet endpoints, with arbitrary windows and every
  allocation succeeding, some run without new packets does it if and only if a condition on counters, windows,
  queues and acknowledgement flags holds (`H5Progress.RecoversExactlyWhen`), and one run does it in both
  directions if and only if the condition holds at both ends (`H5BothEnds.BothRecoverExactlyWhen`). One lost
  acknowledgement is enough to break it (`H5Witness.LostAckStalls`); so is an acknowledgement that goes out on
  a packet rolled back, which the peer drops at its header (`H5Witness.SpentAckStalls`). If allocations may
  fail, an owed acknowledgement can always go out by itself, because the packet ahead of it may not get its
  buffer; that weaker condition is `H5Progress.RecoversWithFailuresExactlyWhen`. A timer lost while the link
  sleeps stalls a sender too, outside these conditions (`H5Stall.TimerLostStalls`).
- Three-wire links do not always come up. From every state reachable from the opening of both, as long as
  no link is put to sleep, both can become active if and only if something is on its way that will be answered,
  or a link that is not active has its timer armed, or what each link still lacks is on its way to it
  (`H5Bringup.ComesUpExactlyWhen`). That always holds until an active link is reset
  (`H5Bringup.ComesUpBeforeReset`); a reset turns the timer off, and two lost frames are then enough to keep
  the links down for ever (`H5Down.LinksStayDown`).
- An STP frame is read back by the format's own receiver if and only if its packet has at most 2048 octets
  (`Stp.SentFrameReadsBack`).
- HCILL never sends data to a device that was told the host sleeps if and only if the device acknowledges
  only wake-ups under way (`Hcill.NoDataToASleeper`); a late acknowledgement is the counterexample
  (`Hcill.LateAcknowledgement`).
- Cutting an H4 stream differently changes nothing if and only if there is no error before the cut or what
  follows meets an error of its own before it delivers anything (`H4.CutMattersExactlyWhen`); a counterexample is `H4.ErrorEndsTheBuffer`.

## Model

| member | source | states |
|---|---|---|
| Crc.CrcIsBitSerial | drivers/blue8852be/hci_bcsp.c:82-106 | for every message and starting register the nibble-table CRC is the bit-serial CRC-CCITT with the reversed polynomial 0x8408, one bit at a time, least significant first |
| Crc.CrcUpdateInjectiveInOctet | drivers/blue8852be/hci_bcsp.c:98-106 | from one register, different octets never lead to the same register |
| Crc.CrcDetectsOneOctet | drivers/blue8852be/hci_bcsp.c:98-106 | replacing one octet of a message of any length changes its CRC |
| Crc.TrailerReadsBack | drivers/blue8852be/hci_bcsp.c:259-264 | the two trailer octets, read big-endian as the receiver does, are the bit-reversed CRC |
| Crc.BitRev16Reverses | drivers/blue8852be/hci_bcsp.c:259-264 | bit k of the reversed register is bit 15 - k of the register, for every k, by masks alone |
| Crc.TrailerBits | drivers/blue8852be/hci_bcsp.c:259-264 | the first trailer octet carries register bits 0 to 7 and the second bits 8 to 15, each most significant bit first |
| Framing.EscapeIsClean | drivers/blue8852be/hci_bcsp.c:117-132 | escaped octets contain no delimiter, and escaping at most doubles the length |
| Framing.HeaderReadsBack | drivers/blue8852be/hci_bcsp.c:226-241 | a header built for any sequence number, acknowledgement, flags, channel and length up to 0xFFF passes the checksum and yields the same fields |
| Framing.EncodedLength | drivers/blue8852be/hci_bcsp.c:212-218 | every encoded frame fits the buffer of (len + 6) * 2 + 2 octets allocated for it |
| GoBackN.CullIsExact | drivers/blue8852be/hci_bcsp.c:357-382 | with at most seven outstanding, the released packets are exactly those below the acknowledged boundary; the boundary is unique, and an acknowledgement that names none releases none |
| GoBackN.NumberIsUnambiguous | drivers/blue8852be/hci_bcsp.c:483-485 | within the window a number modulo 8 equals the expected one only if the absolute numbers are equal |
| GoBackN.CullIsAbsolute | drivers/blue8852be/hci_bcsp.c:347-391 | an acknowledgement under way, late ones after a roll-back included, releases up to its absolute number or nothing |
| GoBackN.StreamAccept | drivers/blue8852be/hci_bcsp.c:479-510 | taking the oldest frame keeps the window invariant and the accepted prefix, accepting exactly the expected index |
| GoBackN.StreamAck | drivers/blue8852be/hci_bcsp.c:504-510 | taking an acknowledgement keeps the window invariant |
| BcspCodec.Resynchronise | drivers/blue8852be/hci_bcsp.c:589-684 | from every receiver state one 0xc0 leads to the packet-start state |
| BcspCodec.FrameAfterAnything | drivers/blue8852be/hci_bcsp.c:580-686 | from every receiver state, an encoded frame, with or without CRC, is completed intact and once |
| BcspCodec.FrameInAnyChunks | drivers/blue8852be/hci_bcsp.c:580-686 | the same after any noise and however the octets are cut into receive buffers |
| BcspCodec.FramesInFramesOut | drivers/blue8852be/hci_bcsp.c:580-686 | frames sent back to back come out one for one, in order |
| BcspCodec.Verdict | drivers/blue8852be/hci_bcsp.c:604-642 | a delimited body with a right header is handed up if and only if its trailer matches |
| BcspCodec.OneOctetReplaced | drivers/blue8852be/hci_bcsp.c:604-642 | replacing one unescaped octet of header, payload or CRC of a CRC-bearing frame makes the receiver drop it |
| BcspErrors.DamageIsLoss | drivers/blue8852be/hci_bcsp.c:580-686 | of any stream of frames, each intact or, if it bears a CRC, with one unescaped octet replaced, exactly the intact ones are completed, once each, in order |
| BcspErrors.DamageIsLossInAnyChunks | drivers/blue8852be/hci_bcsp.c:580-686 | the same in any receive buffers |
| BcspCodec.ReceiveBufferBound | drivers/blue8852be/hci_bcsp.c:668-673 | after any input the octets held and still owed fit the 0x1005-octet buffer |
| BcspDriver.OctetsCarryFrames | drivers/blue8852be/hci_bcsp.c:474-686 | whatever frames a peer encodes, in whatever receive buffers: link and HCI layer see exactly those frames, once each, in order |
| BcspDriver.MicroIsSound | drivers/blue8852be/hci_bcsp.c:589-684 | the turns of the receive loop, consuming or not, add up to the octet-at-a-time receiver |
| BcspDriver.MicroProgress | drivers/blue8852be/hci_bcsp.c:589-684 | every turn consumes an octet or lowers a rank of the state, so the loop ends |
| BcspDriver.Bcsp.constructor | drivers/blue8852be/hci_bcsp.c:710-734 | the opened link is empty, numbers at zero, waiting for a delimiter |
| BcspDriver.Bcsp.EnqueuePkt | drivers/blue8852be/hci_bcsp.c:134-161 | reliable, unreliable, too long and unknown packets go where the link function says |
| BcspDriver.Bcsp.PreparePkt | drivers/blue8852be/hci_bcsp.c:163-268 | the octets built in place are the encoding of the frame for that packet; the number advances only for a reliable packet that got its buffer |
| BcspDriver.Bcsp.DequeuePkt | drivers/blue8852be/hci_bcsp.c:270-339 | unreliable first, then the window, then a bare acknowledgement; a failed allocation puts the packet back |
| BcspDriver.Bcsp.PktCull | drivers/blue8852be/hci_bcsp.c:347-391 | the backward walk and the removal loop release the oldest CullCount packets, and the timer stops when none are left |
| BcspDriver.Bcsp.TimedEvent | drivers/blue8852be/hci_bcsp.c:688-708 | the roll-back puts everything outstanding back in order in front of the queue, and the number with it |
| BcspDriver.Bcsp.CompleteRxPkt | drivers/blue8852be/hci_bcsp.c:474-572 | sequence, acknowledgement, channel and extension handling of a completed buffer, as in the link function, which `BcspWire` and `BcspService` pin: a reliable packet out of order hands up nothing |
| BcspDriver.Bcsp.UnslipOneByte | drivers/blue8852be/hci_bcsp.c:425-472 | one escaped octet against the receiver function |
| BcspDriver.Bcsp.Recv | drivers/blue8852be/hci_bcsp.c:579-686 | any receive buffer: receiver state, link state and packets handed up are those of the octet-at-a-time machine |
| BcspWire.HeaderBits | drivers/blue8852be/hci_bcsp.c:226-245 | every field of a header at its place in the four octets, by division and remainder; the four octets add up to 255 modulo 256 |
| BcspWire.PacketOctets | drivers/blue8852be/hci_bcsp.c:224-267 | header, payload and, with a CRC, the trailer from register 0xffff over both, escaped between two 0xc0 |
| BcspWire.EscapeOctets | drivers/blue8852be/hci_bcsp.c:117-132 | 0xc0 becomes db dc, 0xdb becomes db dd, every other octet stands for itself, at any place of any message |
| BcspWire.BadEscapeDrops | drivers/blue8852be/hci_bcsp.c:444-470 | any other octet behind 0xdb drops the packet up to the next delimiter |
| BcspWire.BadChecksumDrops | drivers/blue8852be/hci_bcsp.c:604-614 | a header whose octets do not add up to 255 drops the packet before its payload |
| BcspWire.WireChannels | drivers/blue8852be/hci_bcsp.c:171-195 | ACL data reliable on channel 6, SCO on 7, link establishment on 1 and acknowledgements on 0, unreliable and without a number |
| BcspWire.WireCommands | drivers/blue8852be/hci_bcsp.c:197-210 | exactly the vendor commands with descriptor 0xc0 to 0xcf go unwrapped on the channel they name, where extensions are enabled; every other command goes on channel 5 |
| BcspWire.HandedUpReliable | drivers/blue8852be/hci_bcsp.c:479-568 | a reliable packet out of order hands up nothing; in order, channel 6 is ACL data, 5 an event, 7 SCO |
| BcspWire.HandedUpUnreliable | drivers/blue8852be/hci_bcsp.c:512-562 | an unreliable packet hands up SCO data from channel 7 and nothing from channels 0 and 1, nor, without extensions, from any other |
| BcspWire.HandedUpAsVendorEvent | drivers/blue8852be/hci_bcsp.c:533-548 | with extensions every other channel comes up as event 0xff with its length, descriptor and payload |
| BcspWire.Numbers | drivers/blue8852be/hci_bcsp.c:479-510 | every reliable packet is acknowledged, only one in order moves the number on, and every packet brings its acknowledge number |
| BcspWire.ConfirmationAnswered | drivers/blue8852be/hci_bcsp.c:397-423 | exactly ad ef ac ed on unreliable channel 1 is answered, with de ad d0 d0 ahead of the queue |
| BcspWire.Queued | drivers/blue8852be/hci_bcsp.c:134-161 | up to 4095 octets, ACL data and commands behind the reliable packets, SCO behind the unreliable ones, nothing else |
| BcspWire.SentNext | drivers/blue8852be/hci_bcsp.c:270-339 | what goes out next of a link in any state, when memory suffices: unreliable, then reliable while fewer than four are outstanding, then an owed acknowledgement |
| BcspRun.ActIsSafe | drivers/blue8852be/hci_bcsp.c:270-572 | every step of an endpoint keeps the invariant of both directions and both endpoints |
| BcspRun.TakeIsLocal | drivers/blue8852be/hci_bcsp.c:474-510 | a frame within the window moves the released and accepted counts by absolute numbers |
| BcspRun.ExactlyOnceInOrder | drivers/blue8852be/hci_bcsp.c:270-572 | over every run, what an endpoint accepted is a prefix of what the other was given, in order, without duplicates, and all that was handed up from reliable frames, accepted or not, is exactly what it carries |
| BcspRun.QueuesConserved | drivers/blue8852be/hci_bcsp.c:303-322 | over every run released ++ `unack` ++ `rel` is exactly what was submitted, the transmit number is (released + outstanding) mod 8, at most four are outstanding, and then the timer is armed |
| BcspProgress.Exchange | drivers/blue8852be/hci_bcsp.c:296-335 | with both sides quiet, one loss-free exchange strictly lowers what is still to be sent |
| BcspProgress.OneSide | drivers/blue8852be/hci_bcsp.c:688-708 | from every reachable state a loss-free run delivers everything one side was given |
| BcspProgress.NoDeadlock | drivers/blue8852be/hci_bcsp.c:270-572 | from every reachable state a loss-free run delivers everything both sides were given and empties `rel` and `unack` |
| BcspService.ArrivalsAtB | drivers/blue8852be/hci_bcsp.c:163-210 | over every run and configuration, all that is handed up from reliable frames, duplicates and frames out of order included, is the arrival of the oldest packets submitted at the other end, one for each accepted, vendor commands on channels of their own included |
| BcspService.HandedUpOnceInOrder | drivers/blue8852be/hci_bcsp.c:474-572 | over every run, the ACL data handed up at one end is a prefix, in order and once each, of the ACL data submitted at the other where that has no extensions, and so is what went over the command channel |
| BcspService.EverythingArrives | drivers/blue8852be/hci_bcsp.c:270-572 | every run can be continued without loss so that the HCI layers got exactly the arrivals of all that was submitted, both ways |
| BcspService.ScoInOrder | drivers/blue8852be/hci_bcsp.c:281-294 | over every run, what is handed up from unreliable frames is SCO data submitted at the other end, in order and each packet at most once; while nothing is lost, handed up ++ under way ++ waiting is all of it |
| H5Link.TakeFrameKeeps | drivers/blue8852be/hci_h5.c:387-481 | a received frame keeps the link invariant, and reaches the HCI layer only in an active session |
| H5Link.SyncStartsOver | drivers/blue8852be/hci_h5.c:191-210 | a synchronisation request or response that is accepted in a session, reliable or not, leaves nothing queued but its answer, both numbers at zero, and the state that goes with it |
| H5Codec.LinkStateInvariant | drivers/blue8852be/hci_h5.c:147-210 | over every run of calls, timer events and arbitrary octets: outside a session nothing reliable is queued and `tx_seq` is 0, at most seven packets are outstanding, and packets go up only if the link was active |
| H5Codec.RxByteKeeps | drivers/blue8852be/hci_h5.c:425-588 | the same for every single octet in every receiver state |
| H5Codec.Resynchronise | drivers/blue8852be/hci_h5.c:483-588 | from every receiver state one delimiter leads to the packet-start state |
| H5Codec.FrameAfterAnything | drivers/blue8852be/hci_h5.c:558-597 | from every state a CRC-less encoded frame acts on the link as one frame: refused at its header, or completed |
| H5Codec.OctetsCarryFrames | drivers/blue8852be/hci_h5.c:387-597 | from every state, any CRC-less frames sent back to back, in any receive buffers, act on the link one after the other and hand up exactly what those completed carry |
| H5Codec.CrcFrameAfterAnything | drivers/blue8852be/hci_h5.c:425-446 | from every state a frame with a CRC is taken like one without, whatever its two last octets are; they stay behind its payload |
| H5Wire.HandedUpExactly | drivers/blue8852be/hci_h5.c:387-481 | a frame that is not in order, or not link control outside a session, changes nothing; of all others exactly packet types 2, 3, 4 and 5 are handed up, under their own type |
| H5Wire.Numbers | drivers/blue8852be/hci_h5.c:387-400 | every reliable frame that is looked at asks for an acknowledgement and moves the number on, and every one brings its acknowledge number |
| H5Wire.Answers | drivers/blue8852be/hci_h5.c:326-385 | what each of the seven link control messages queues, in octets, and the state, window and sleep state it leaves |
| H5Wire.OthersIgnored | drivers/blue8852be/hci_h5.c:379-382 | every other message, and every shorter one, changes nothing |
| H5Wire.LinkFrameAnswered | drivers/blue8852be/hci_h5.c:387-420 | an unreliable link control frame reaches link control with its payload, less the octets of a CRC, in any state |
| H5Wire.Queued | drivers/blue8852be/hci_h5.c:599-639 | only an active link takes packets, of up to 4095 octets: types 1 and 2 behind the reliable ones, 3 and 5 behind the unreliable ones |
| H5Wire.WireTypes | drivers/blue8852be/hci_h5.c:700-715 | types 1 and 2 go out reliable with the next number, all others unreliable without one, none with a CRC |
| H5Wire.SentNext | drivers/blue8852be/hci_h5.c:737-796 | what goes out next of a link in any state, when memory suffices: 05 fa to a sleeping peer and nothing while it wakes, then unreliable, reliable, acknowledgement |
| H5Wire.TimerFires | drivers/blue8852be/hci_h5.c:147-189 | the timer repeats 01 7e or 03 fc with the window while the link comes up, and stays armed; in a session it gives up waking, or rolls back |
| H5Codec.ReceiveBufferBound | drivers/blue8852be/hci_h5.c:493-544 | after any input the octets held and still owed fit the receive buffer |
| H5Driver.MicroIsSound | drivers/blue8852be/hci_h5.c:558-588 | the turns of the receive loop add up to the octet-at-a-time receiver |
| H5Driver.MicroProgress | drivers/blue8852be/hci_h5.c:558-588 | every turn consumes an octet or lowers a rank, the unconsumed delimiter included |
| H5Driver.H5Dev.constructor | drivers/blue8852be/hci_h5.c:212-250 | the opened link has its first synchronisation request queued and the timer armed |
| H5Driver.H5Dev.TimedEvent | drivers/blue8852be/hci_h5.c:147-189 | repeats link establishment, leaves waking up, or rolls back in order |
| H5Driver.H5Dev.PktCull | drivers/blue8852be/hci_h5.c:284-324 | the backward walk releases the oldest CullCount packets |
| H5Driver.H5Dev.HandleInternalRx | drivers/blue8852be/hci_h5.c:326-385 | each link control message against the link function, whose answers `H5Wire.Answers` gives in octets |
| H5Driver.H5Dev.CompleteRxPkt | drivers/blue8852be/hci_h5.c:387-423 | acknowledgement, cull and dispatch of a completed buffer, whose hand-ups `H5Wire.HandedUpExactly` gives in numbers |
| H5Driver.H5Dev.Recv | drivers/blue8852be/hci_h5.c:558-597 | any receive buffer: the whole state and the packets handed up are those of the octet-at-a-time machine |
| H5Driver.H5Dev.EnqueuePkt | drivers/blue8852be/hci_h5.c:599-639 | packets are taken only in an active session and by type |
| H5Driver.H5Dev.PreparePkt | drivers/blue8852be/hci_h5.c:680-735 | the octets built in place are the encoding of the CRC-less frame for that packet |
| H5Driver.H5Dev.DequeuePkt | drivers/blue8852be/hci_h5.c:737-796 | wake-up first, then unreliable, then the window as last announced, then a bare acknowledgement |
| H5Run.ActIsSafe | drivers/blue8852be/hci_h5.c:284-481 | every step of either endpoint, in any link state and for a window that may change at any time, keeps the invariant or resets an active endpoint |
| H5Run.LinkAfterFrame | drivers/blue8852be/hci_h5.c:326-423 | a frame resets an active link, or changes the reliable queues only by releasing what it acknowledges and the numbers only by what it delivers |
| H5Run.ExactlyOnceInOrder | drivers/blue8852be/hci_h5.c:284-481 | over every run that starts with numbers at zero and nothing reliable queued or under way, the links in any state: until an active endpoint is reset, accepted is a prefix of submitted, nothing is dropped inside an endpoint, at most seven are outstanding, for every window 0 to 7 and every change of it |
| H5Run.FromOpening | drivers/blue8852be/hci_h5.c:212-250 | in particular from the opening of both endpoints through link establishment, in which one side may be active and sending while the other still refuses |
| H5Service.AclOnceInOrder | drivers/blue8852be/hci_h5.c:284-481 | from the opening of both endpoints: the ACL data handed up at one end is exactly what it accepted and, until an active endpoint is reset, a prefix, in order and once each, of the ACL data submitted at the other |
| H5Service.LooseInOrder | drivers/blue8852be/hci_h5.c:599-796 | over every run, through every reset: the SCO and ISO data handed up was submitted at the other end under the same type, in that order, each packet at most once |
| H5Service.NothingElse | drivers/blue8852be/hci_h5.c:402-420 | over every run between two such drivers nothing but ACL, SCO and ISO data goes up: link control, acknowledgements and commands do not |
| H5Bringup.AskedComesUp | drivers/blue8852be/hci_h5.c:344-366 | wherever a synchronisation or configuration request, or a synchronisation response, is queued or under way, six turns of sending and receiving make both links active |
| H5Bringup.StaysDownOverRun | drivers/blue8852be/hci_h5.c:147-210 | where the condition fails, it fails after every run without new link control messages, whatever is submitted, lost or not allocated |
| H5Bringup.ComesUpExactlyWhen | drivers/blue8852be/hci_h5.c:147-366 | from every state reachable from the opening of both endpoints without putting one to sleep, messages injected by the devices and resets included: some run without new messages makes both links active, then even a loss-free one of timers, sending and receiving, if and only if something on its way will be answered, or a link not active has its timer armed, or what each link lacks is on its way |
| H5Bringup.ComesUpBeforeReset | drivers/blue8852be/hci_h5.c:158-169 | until an active endpoint is reset that always holds: whatever was lost, a loss-free run makes both links active |
| H5Down.LinksStayDown | drivers/blue8852be/hci_h5.c:191-210 | nineteen steps from the opening, two frames lost, after which one link is active, the other was reset, and no run without new link control messages ever makes both active |
| H5Progress.RecoversExactlyWhen | drivers/blue8852be/hci_h5.c:387-481 | from quiet endpoints with arbitrary windows, every allocation succeeding, some run without new packets, then even one that loses nothing, empties `rel` and `unack` if and only if the sender is acknowledged already, or has the expected packet inside its window, or can hear an acknowledgement that the peer can still get past its own queue |
| H5Progress.RecoversWithFailuresExactlyWhen | drivers/blue8852be/hci_h5.c:769-793 | the same with arbitrary outcomes of each allocation, where any owed acknowledgement can still go out because the packet ahead of it fails to get its buffer |
| H5BothEnds.BothRecoverExactlyWhen | drivers/blue8852be/hci_h5.c:387-481 | one run empties both ends, every allocation succeeding, if and only if each end could be emptied by itself: neither uses up what the other needs |
| H5Witness.LostAckStalls | drivers/blue8852be/hci_h5.c:463-468 | one packet whose acknowledgement is lost brings two fresh active endpoints into a state where both conditions fail |
| H5Witness.SpentAckStalls | drivers/blue8852be/hci_h5.c:707-708 | nine steps with one loss after which an acknowledgement is owed, everything was accepted, and no run in which every allocation succeeds gets it across |
| H5Witness.WindowShrinks | drivers/blue8852be/hci_h5.c:361-363 | a run from fresh endpoints into a window below what the peer accepted |
| H5Witness.TimerGetsLost | drivers/blue8852be/hci_h5.c:171-174 | a run from fresh endpoints through sleep and wake-up that leaves a lost packet outstanding without a timer |
| H5Progress.LostWindowStalls | drivers/blue8852be/hci_h5.c:463-468 | a whole window accepted whose acknowledgements are all lost stalls for ever, though more packets wait behind it, whatever memory does |
| H5Stall.LostAcksStall | drivers/blue8852be/hci_h5.c:463-468 | when both ends can only repeat packets the other drops with their headers, and spend their acknowledgements on them, no run without new packets ever releases them, whatever is lost or not |
| H5Stall.ShrunkWindowStalls | drivers/blue8852be/hci_h5.c:361-363 | when the window shrank below what the peer accepted, no run without link control messages releases anything, new packets at either end included |
| H5Stall.ZeroWindowStalls | drivers/blue8852be/hci_h5.c:769-772 | with a window of zero, a packet not accepted yet is never released |
| H5Stall.SleepLosesTimer | drivers/blue8852be/hci_h5.c:171-174 | a timer that fires while the link sleeps is off after the wake-up, and what is outstanding stays outstanding |
| H5Stall.TimerLostStalls | drivers/blue8852be/hci_h5.c:171-189 | lost packets outstanding without a timer are never sent again while their sender may or can send nothing else, whatever its peer does |
| TxWorker.DoKeeps | drivers/blue8852be/hci_ldisc.c:98-181 | every atomic step of callers, tty and worker keeps the wake-up and conservation invariant |
| TxWorker.NoLostWakeup | drivers/blue8852be/hci_ldisc.c:116-181 | over every interleaving of any number of callers: when all have come to rest, everything is written, or a packet is parked and the tty still owes its call; the sending bit is clear |
| TxWorker.OctetsInOrder | drivers/blue8852be/hci_ldisc.c:159-174 | over every interleaving and all partial writes: written ++ in hand ++ parked ++ queued is the enqueued stream |
| TxWorker.EverythingGoesOut | drivers/blue8852be/hci_ldisc.c:116-181 | from every reachable state, without new packets, the callers and the worker write everything in finitely many steps |
| TxWorkerDriver.HciUart.DequeueSkb | drivers/blue8852be/hci_ldisc.c:98-114 | a parked packet goes first |
| TxWorkerDriver.HciUart.TxWakeup | drivers/blue8852be/hci_ldisc.c:116-142 | one call is a trace of atomic steps of that caller, and leaves both bits set |
| TxWorkerDriver.HciUart.SendFrame | drivers/blue8852be/hci_ldisc.c:272-292 | the packet is queued last and the worker called, as a trace |
| TxWorkerDriver.HciUart.TtyHasRoom | drivers/blue8852be/hci_ldisc.c:568-584 | the tty's request flag is cleared and the worker called, as a trace |
| TxWorkerDriver.HciUart.WriteWork | drivers/blue8852be/hci_ldisc.c:144-181 | one undisturbed run of the worker is a trace of its steps; it ends with the queue empty or a packet parked |
| H4.BuffersDoNotMatter | drivers/blue8852be/hci_h4.c:154-273 | an error-free stream gives the same packets and leaves the same state however it is cut into buffers |
| H4.CutMattersExactlyWhen | drivers/blue8852be/hci_h4.c:154-273 | for any state without error and any two stretches, handing them over in two buffers or in one is the same if and only if the first has no error, the second is empty, or the second meets an error of its own before it delivers anything |
| H4.StreamIn | drivers/blue8852be/h4_recv.h:41-146 | a stream of packets that fit the table, with their padding, comes out as those packets with nothing left |
| H4.ReassemblyInAnyBuffers | drivers/blue8852be/hci_h4.c:154-273 | the same in any buffers, those ending inside a header, a payload or the padding included, with whatever follows treated as in one piece |
| H4.PacketAsWritten | drivers/blue8852be/hci_h4.c:165-272 | for any table: a type octet, a header, as many octets as its length field says (none, one octet, or two with the least significant first) and the filling up to whole units come out as that packet, once, with nothing left |
| H4.TooLongAsWritten | drivers/blue8852be/hci_h4.c:227-247 | a header that announces more than there is room for ends the buffer with EMSGSIZE, delivering and holding nothing |
| H4.UnknownTypeAsWritten | drivers/blue8852be/hci_h4.c:176-193 | an octet of no entry's type, where a packet should begin, ends the buffer with EILSEQ |
| H4.PadIsLeast | drivers/blue8852be/hci_h4.c:255-264 | the padding is the least that makes a whole number of units |
| H4.NothingLostOrInvented | drivers/blue8852be/h4_recv.h:41-146 | without padding every octet of an error-free stream is in exactly one delivered packet or still held, in order, and every delivered packet fits the table |
| H4.NokiaRoundTrip | drivers/blue8852be/hci_nokia.c:510-529 | a word-aligned receiver gives back exactly the packets that were filled up to whole words, in any buffers |
| H4Driver.Reassembler.RecvBuf | drivers/blue8852be/hci_h4.c:154-273 | the in-place bulk-copying loop is the octet-at-a-time reassembler, errors included |
| H4Driver.TxQueue.EnqueueH4 | drivers/blue8852be/hci_h4.c:87-98 | the packet is queued last with its type in front |
| H4Driver.TxQueue.EnqueueNokia | drivers/blue8852be/hci_nokia.c:510-529 | the same, filled to whole words, or refused when there is no memory for filling |
| Stp.SegmentsIn | drivers/blue8852be/btmtkuart.c:428-472 | any sequence of STP packets, whatever their type, checksum and trailer, hands on exactly the concatenated payloads |
| Stp.SegmentAsWritten | drivers/blue8852be/btmtkuart.c:428-472 | 0x80, a big-endian word whose low twelve bits are a length of at most 2048, any octet, that many octets and any two more hand on exactly those octets |
| Stp.SentOctets | drivers/blue8852be/btmtkuart.c:880-890 | a typed packet of up to 4095 octets goes out behind 0x80, its length as a big-endian word and a zero, and before two zeros |
| Stp.NoHeaderIsDropped | drivers/blue8852be/btmtkuart.c:448-460 | four octets that are no header hand nothing on and leave the next header due |
| Stp.SentFrameReadsBack | drivers/blue8852be/btmtkuart.c:864-896 | a sent frame is read back by the received format if and only if the packet is at most 2048 octets |
| StpDriver.MtkUart.Split | drivers/blue8852be/btmtkuart.c:428-472 | the stretch handed to H4 is what the octet-at-a-time de-framer hands on, and at least one octet is used up |
| StpDriver.MtkUart.Recv | drivers/blue8852be/btmtkuart.c:474-521 | any receive buffer: the packets are those H4 finds in the stripped octets; after an H4 error exactly the octets up to the end of that payload are used |
| StpDriver.MtkUart.RecvAll | drivers/blue8852be/btmtkuart.c:474-536 | receive buffers one after the other, errors and recoveries included |
| StpDriver.MtkUart.RecvPackets | drivers/blue8852be/btmtkuart.c:428-521 | successive calls, for any STP packets around an H4 stream in any buffers, hand up exactly its packets and end where they began |
| StpDriver.MtkUart.SendFrame | drivers/blue8852be/btmtkuart.c:864-896 | the frame built is one STP packet around the typed packet |
| StpDriver.StpCarriesH4 | drivers/blue8852be/btmtkuart.c:428-521 | however an H4 stream is cut into STP packets and those into receive buffers, exactly its packets come out, in order |
| Hcill.NothingDroppedOrReordered | drivers/blue8852be/hci_ll.c:186-355 | over every run, for any device and any failed command: transmitted ++ queued ++ waiting packets are the accepted ones, nothing waits while awake, and the dropping branch is never met |
| Hcill.Answers | drivers/blue8852be/hci_ll.c:186-306 | 0x30 is answered with 0x31, 0x32 with 0x33 unless the host is awake, and that and 0x33 release all that waits; without memory for the answer, and on any other command, nothing changes |
| Hcill.Asks | drivers/blue8852be/hci_ll.c:310-355 | a packet is sent at once to a device that is awake and waits last otherwise; the first one for a sleeping device asks with 0x32 |
| Hcill.WakeUpReleases | drivers/blue8852be/hci_ll.c:186-306 | one wake-up from either side puts every accepted packet in the transmit log, in order |
| Hcill.NoDataToASleeper | drivers/blue8852be/hci_ll.c:199-306 | for every run and every packet handed over anywhere in it: no packet is queued between a sleep acknowledgement and the next wake-up command, if and only if the device acknowledges only wake-ups under way |
| Hcill.LateAcknowledgement | drivers/blue8852be/hci_ll.c:284-306 | a concrete crossing of a wake-up with a wish to sleep in which that fails |
| HcillDriver.LlStruct.Awaken | drivers/blue8852be/hci_ll.c:186-194 | the loop moves the whole wait queue, in order, behind the transmit queue, and keeps the order of everything accepted |
| HcillDriver.LlStruct.DeviceWantToWakeUp | drivers/blue8852be/hci_ll.c:199-245 | the wake-up indication in every state, with and without memory for the answer, keeps the order of everything accepted |
| HcillDriver.LlStruct.DeviceWantToSleep | drivers/blue8852be/hci_ll.c:250-279 | the state changes only if the acknowledgement could be queued; the order of everything accepted is kept |
| HcillDriver.LlStruct.RecvFrame | drivers/blue8852be/hci_ll.c:284-384 | every command of the device keeps transmitted ++ queued ++ waiting equal to what was accepted |
| HcillDriver.LlStruct.EnqueueSkb | drivers/blue8852be/hci_ll.c:310-355 | the packet becomes the last accepted one, sent or waiting in its place; none is dropped |
| HcillDriver.LlStruct.DequeueItem | drivers/blue8852be/hci_ll.c:444-449 | the oldest queued item is transmitted and the order of everything accepted is kept |

## Left out

- Kernel services: memory lifetime, devices, clocks, power management, statistics and logging.
- Locks: every driver operation is taken as one atomic step, also those that hold their lock for part of their work at most (`bcsp_dequeue`, `bcsp_complete_rx_pkt`, `h5_dequeue`, `h5_peer_reset`; the acknowledgement flag is cleared outside it). Only the wake-up protocol is split into its atomic actions.
- Time: a timer is an enabled step; its period plays no part.
- Allocation of receive buffers: always succeeds. Allocations while sending may fail at each place; those of link establishment answers and link control messages always succeed.
- Calls of `hci_uart_tx_wakeup` made by the protocols: the steps of the two-endpoint models are free to transmit at any time.
- Flush, close and reopen; `HCI_UART_PROTO_READY` and `HCI_UART_REGISTERED` are taken as set.
- Negative results of the tty's write, which the source itself does not handle.
- BcspDriver.Bcsp.PreparePkt: a vendor command shorter than four octets under `hciextn` makes the source read past its data; the model takes it as carrying no channel descriptor.
- H5Run.ExactlyOnceInOrder: ends with the first reset of an active endpoint; until the other side is reset too, the numbers of the two do not belong together. `H5Link.SyncStartsOver` covers the state an endpoint starts over from.
- H5Codec.OctetsCarryFrames: frames without a CRC only, which is all the driver sends; `H5Codec.CrcFrameAfterAnything` has single frames with one.
- H5Bringup.ComesUpExactlyWhen: after runs in which no device sends the message that puts a link to sleep; a link that is waking its peer sends nothing until it is answered.
- H5Service.AclOnceInOrder: stated from a to b; both endpoints are the same and open alike.
- H5Progress.RecoversExactlyWhen: quiet endpoints are active and awake, with nothing under way or unreliable and a timer behind everything outstanding; link control messages could still change window and sleep state.
- H4: the capacity in a table entry stands for the room the allocator actually gives, which may exceed `maxlen`; the constants of the HCI headers are not part of this model, so tables are arbitrary.
- The USB, SDIO and PCMCIA drivers, whose reassembly loops repeat the H4 one or whose wake-up loops make no such promise, and the firmware loaders.
- The in-band sleep of `hci_qca.c`, whose bypasses put packets ahead of waiting ones.
