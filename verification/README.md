# Verified model of the RDT file transfer core

The program is an FTP-like server and client whose data channel is a reliable protocol over UDP (RDT).
This project models its transport and transfer pipeline in Dafny and proves what they guarantee over
every run, every input and every interleaving.

Verify everything with `dafny verify dfyconfig.toml`.

## What is modelled

| Part | Modules |
|---|---|
| Datagram format and Internet checksum (sections 1 and 2 of RFC 1071) | `Bytes`, `Checksum`, `Codec`, `Datagrams` |
| Selective Repeat sender of the server, with AIMD window and adaptive timeout | `WindowedSender` (functions on its state), `RdtSender` (the class), `SenderProofs` |
| Windowed receivers of both sides, which differ in when they acknowledge the last packet | `WindowedReceiver`, `RdtReceiver` |
| A whole download (RETR) over a network that loses, repeats, delays and reorders | `Retr`, `RetrProofs`, `RetrTheorems`, `RetrRefinement`, `RetrClientRefinement`, `RetrReachability`, `RetrCalls` |
| Stop-and-wait sender of the client and a whole upload (STOR, STOU, APPE) | `StopAndWait`, `Upload`, `UploadProofs`, `UploadRefinement`, `UploadServerRefinement`, `UploadReachability`, `UploadCalls` |
| Server sender against server receiver | `Loopback` |
| File pipeline: CRLF normaliser, chunked readers, temporary-file writer, sendFromReader, receiveFile | `Ascii`, `Readers`, `Writer`, `FilePipeline` |
| Control session: control thread and transfer worker, data endpoints, abort, final replies | `Lifecycle`, `LifecycleProofs` |
| Final replies and the files on the other side | `EndToEnd` |
| Control reply printing and parsing, command splitting (section 4.2 of RFC 959) | `Replies` |

A class that the program updates in place is a Dafny class here (`RdtSender.RdtSender`,
`RdtReceiver.RdtReceiver`, `StopAndWait.RdtSender`, `Writer.ChunkedFileWriter`, the readers, the
translator, `Replies.ReplyReader`, `Replies.CommandBuffer`). Each of its methods is proved to compute a
function of the old state, and the theorems are about these functions. The transition systems `Retr`
and `Upload` are built from the same functions. The four refinement modules show that a call of
pollAcksAndRetransmit, sendChunk, flush, waitForAck, receiveNext, confirmReceive or the handshake is a run
of the system in which the other side keeps moving while the call waits, and give the whole state that
the run ends in, so calls can be chained. What holds of every run therefore holds of every sequence of
these calls; `RetrCalls` and `UploadCalls` state it for the calls of a whole transfer. The loops of
sendFromReader and receiveFile appear in the systems as steps that use the functions of the writer and
the translator.

A network is the set of datagrams ever sent in one direction. Any member may be delivered at any time,
any number of times or never. This covers loss, duplication, delay and reordering at once; damage is
covered because a damaged copy is dropped by the decoder (`Datagrams.DamagedCopyDropped`).

### Assumptions

- A transfer has fewer than 2^32 chunks. The program compares sequence numbers with plain `<` and does
  not treat a wrapped counter.
- Each endpoint sees only datagrams of its pinned peer; the program drops others by address.
- A corrupted datagram is one that the decoder rejects. For damage within one byte this is proved; for
  other damage that spares the checksum field `Codec.CorruptionUndetectedIff` says exactly when it slips
  through.
- Times and the estimator's doubles are reals; clock readings are arbitrary.
- Moving one file over another is atomic, and no other session writes the same files.

### Where the code does less than a reader may expect

- A client that saved the file does not imply a server that reports success. Every transfer has a run in
  which the last acknowledgement is never heard and the server fails at its retry limit
  (`RetrReachability.SavedWithoutSuccess`). Once the client has saved and returned, the server has
  succeeded or can still succeed exactly when it has succeeded already, or is transmitting and the
  client's call returned true (`RetrReachability.SavedSucceedsIff`). The other direction is `RetrTheorems.SuccessMeansSaved`.
- A client whose upload calls all succeeded does not imply a saved file: the server acknowledges the last
  chunk before it commits, and every upload has runs of both kinds
  (`UploadReachability.ClientSuccessLeavesBothOutcomes`). The file is saved or can still be saved exactly
  when the server's receiveFile has not already returned false (`UploadReachability.SucceededSavedIff`).
  A 226 does imply a saved file.
- A saved upload does not imply that the client's last call succeeds: the server reads no more once it has
  accepted the last chunk, so an acknowledgement of it that could not be sent is never repeated
  (`UploadReachability.LastAckDecides`).
- The client's receiveFile returns false after the file was saved exactly when the last acknowledgement
  could not be sent (`FilePipeline.ReceiveFileConfirmed`).
- The command help promises that APPE appends to a file or creates it. The code fails exactly when the
  payload is empty or the existing file is empty, because inserting an empty stream buffer sets the
  stream's fail bit (`Lifecycle.AppendAtomically`); the destination is then unchanged.
- A transfer that ABOR answers with 426 can have had a final reply already. This happens exactly when the
  worker is past its reading of the abort flag at the moment ABOR raises it
  (`LifecycleProofs.SecondFinalReplyIff`), and every upload that can succeed has a run with 226 and then
  426 (`LifecycleProofs.CompletionThenAbortReachable`).
- A single-line reply reads back exactly when its message has no newline
  (`Replies.SingleLineReadsBackIff`).

## Model

| member | source | states |
|---|---|---|
| `Checksum.Residue` | shared/protocol/CheckSum.cpp:11-13 | The folded sum is below 2^16, congruent to the sum modulo 65535, and zero exactly for the sum zero. |
| `Checksum.ResidueEqual` | shared/protocol/CheckSum.cpp:11-14 | Two sums give the same checksum exactly when they are congruent modulo 65535 and agree on being zero. |
| `Checksum.NoOverflow` | shared/protocol/CheckSum.cpp:4-10 | For up to 128 KiB the 32-bit accumulator never wraps, so the checksum is that of the true sum. |
| `Checksum.WordSumUpdate` | shared/protocol/CheckSum.cpp:5-10 | Overwriting one byte moves the sum by the byte difference times its place value in the 16-bit word. |
| `Checksum.ZeroSum` | shared/protocol/CheckSum.cpp:4-10 | Zeros add up to zero, which with the update law fixes the sum of any buffer. |
| `Checksum.FoldStep` | shared/protocol/CheckSum.cpp:11-13 | One carry fold makes the accumulator strictly smaller and keeps its residue. |
| `Checksum.SumWords` | shared/protocol/CheckSum.cpp:4-10 | The word loop computes the sum of big-endian words, an odd last byte padded with zero, modulo 2^32. |
| `Checksum.InternetChecksum` | shared/protocol/CheckSum.cpp:3-15 | Folding terminates and yields the one's complement of the residue of the sum. |
| `Codec.HeaderRoundTrip` | shared/protocol/RdtHeader.cpp:8-46 | Parsing serialised header bytes, whatever follows them, gives the header back in every field. |
| `Codec.WireBytes` | shared/protocol/RdtHeader.cpp:8-22 | The sixteen bytes of a built header one by one, high bytes first, with the complement of the folded sum of the rest in bytes 13 and 14. |
| `Codec.DecodeWire` | shared/protocol/RdtHeader.cpp:48-75 | A built datagram decodes to its own header exactly when length, payload size and control flags are admissible, and is rejected otherwise. |
| `Codec.CorruptionUndetectedIff` | shared/protocol/RdtHeader.cpp:65-71 | A corrupted well-shaped copy with an intact checksum field is accepted exactly when its sum stays in the same class modulo 65535 and agrees on being zero. |
| `Codec.SingleByteCorruptionRejected` | shared/protocol/RdtHeader.cpp:48-75 | Any other value in any one byte of any valid datagram, header, checksum or payload, makes the decoder reject it. |
| `Codec.FlippedBitRejected` | server/src/rdt/RdtSender.cpp:207-215 | The fault injector's bit flip, and a flip of any bit anywhere, acts exactly as a drop. |
| `Codec.SerializeHeader` | shared/protocol/RdtHeader.cpp:8-22 | Writes the sixteen header bytes at their offsets and no other byte of the buffer. |
| `Codec.BuildDatagram` | server/src/rdt/RdtSender.cpp:441-456 | The build sequence, checksum over a zeroed field and then the final header, yields the wire form. |
| `Codec.DecodeValidatedDatagram` | shared/protocol/RdtHeader.cpp:48-75 | Agrees with the decoder function on every buffer and length, null included, without writing the buffer. |
| `Datagrams.FlagsRoundTrip` | shared/protocol/RdtHeader.cpp:60-62 | The flag byte holds the five flags without interference. |
| `Datagrams.WireLayout` | shared/protocol/RdtHeader.cpp:8-22 | Of a built datagram bytes 0-3 are the sequence number, 4-7 the acknowledgement number, 8 the flags (SYN 1, ACK 2, FIN 4, DATA 8, NAK 16), 9-10 the window, 11-12 the payload length, 13-14 the checksum, 15 is zero and the payload follows; numbers in network order. |
| `Datagrams.FlagsInUse` | server/src/rdt/RdtSender.cpp:445 | Byte 8 is 12 in a last data packet, 8 in any other, 2 in an ACK, 16 in a NAK and 1 in a SYN. |
| `Datagrams.WireRoundTrip` | shared/protocol/RdtHeader.cpp:8-75 | Building any sendable datagram and decoding it is the identity, whatever window it advertises. |
| `Datagrams.BuiltAcceptedIff` | shared/protocol/RdtHeader.cpp:48-75 | A datagram built from any numbers, flags and payload decodes to itself exactly when it is sendable; a SYN or ACK with a payload and without DATA, or a payload over 1024 bytes, is rejected. |
| `Datagrams.DamagedCopyDropped` | shared/protocol/RdtHeader.cpp:65-71 | A copy damaged in one byte is dropped, never taken for another datagram. |
| `Ascii.NormalizeHasNoBareLf` | server/src/filesystem/AsciiTranslator.cpp:3-21 | The output has no line feed without a carriage return before it, the carry counted. |
| `Ascii.ByteForByte` | server/src/filesystem/AsciiTranslator.cpp:3-21 | In bytes: a lone 10 becomes 13 10, a 10 after a 13 stays, every other byte stays. |
| `Ascii.NormalizeKeepsText` | server/src/filesystem/AsciiTranslator.cpp:3-21 | Dropping each carriage return before a line feed gives the same text for source and result. |
| `Ascii.NormalizeCharacterised` | server/src/filesystem/AsciiTranslator.cpp:3-21 | The result is the one and only text without bare line feeds that agrees with the source up to returns before line feeds. |
| `Ascii.NormalizeAppend` | server/src/filesystem/AsciiTranslator.cpp:3-30 | Two passes with the carry kept equal one pass, in output and in carry. |
| `Ascii.DecodeAfterEncode` | server/src/filesystem/AsciiTranslator.cpp:23-30 | Decoding what was encoded adds nothing. |
| `Ascii.StreamingEqualsOneShot` | server/src/filesystem/AsciiTranslator.cpp:23-30 | Pieces of any cut, translated one after another, concatenate to one pass over the whole. |
| `Ascii.AsciiTransferMeaning` | server/src/datachannel/DataChannelSession.cpp:103-126 | Cut the source anyhow and encode, cut the result anyhow and decode: the outcome is one pass over the source. |
| `Ascii.AsciiTranslator.Encode` | server/src/filesystem/AsciiTranslator.cpp:23-25 | Normalises under its own carry and leaves the right carry; the decode carry is untouched. |
| `Ascii.AsciiTranslator.Decode` | server/src/filesystem/AsciiTranslator.cpp:27-30 | Normalises under its own carry and leaves the right carry; the encode carry is untouched. |
| `Ascii.NormalizeToCRLF` | server/src/filesystem/AsciiTranslator.cpp:3-21 | The byte loop computes the normalisation and the carry after it. |
| `Readers.CutShape` | server/src/filesystem/ChunkedFileReader.cpp:13-19 | Chunks concatenate to the file, each has 1..1024 bytes, all but the last have exactly 1024. |
| `Readers.PiecesShape` | server/src/datachannel/DataChannelSession.cpp:72-88 | The pieces of a transfer concatenate to the file, fit a datagram, and are the payloads of the numbered chunks; an empty file is one empty piece. |
| `Readers.ChunkedFileReader.NextChunk` | server/src/filesystem/ChunkedFileReader.cpp:13-19 | Returns the next up to 1024 unread bytes and advances past exactly them; false exactly at the end. |
| `Readers.AsciiChunkedReader.Pull` | server/src/filesystem/AsciiChunkedReader.cpp:8-13 | One refill leaves the translated bytes still to come unchanged and consumes raw input. |
| `Readers.AsciiChunkedReader.NextChunk` | server/src/filesystem/AsciiChunkedReader.cpp:7-21 | Terminates and returns the next up to 1024 bytes of the normalised file, as if it had been normalised whole first. |
| `Writer.ChunkedFileWriter.AppendChunk` | server/src/filesystem/ChunkedFileWriter.cpp:41-50 | Succeeds exactly for a valid, uncommitted writer, the expected number and a good stream; only then the data and the count grow. |
| `Writer.ChunkedFileWriter.Commit` | server/src/filesystem/ChunkedFileWriter.cpp:52-69 | The destination changes exactly when everything succeeded, to the whole temporary; otherwise it keeps its contents. |
| `Writer.ChunkedFileWriter.Abort` | client/src/fileio/ChunkedFileWriter.cpp:207-216 | Discards an uncommitted temporary, keeps the destination as it was, and no commit can follow. |
| `Writer.Spoils` | client/src/fileio/ChunkedFileWriter.cpp:207-216 | An abort discards the temporary and a failed write of the expected chunk spoils it; neither changes the destination. |
| `Writer.SpoiltNeverCommits` | server/src/filesystem/ChunkedFileWriter.cpp:41-69 | After an abort or a failed write no calls whatever make a later commit succeed, and the destination keeps its contents. |
| `FilePipeline.FileCopied` | server/src/datachannel/DataChannelSession.cpp:63-129 | A complete prefix of the chunks sent is all of them and translates to the file. |
| `FilePipeline.PiecesTranslate` | server/src/datachannel/DataChannelSession.cpp:92-129 | The pieces of any file, in either type, translate to the file the transfer promises. |
| `FilePipeline.Lookahead` | server/src/datachannel/DataChannelSession.cpp:78-87 | One chunk of lookahead tells exactly whether the current chunk is the last, and is the next chunk otherwise. |
| `FilePipeline.SendFromReader` | server/src/datachannel/DataChannelSession.cpp:63-89 | Whatever transport and abort do, the calls are a prefix of the numbered chunks with only the last final; nothing is sent after a reading of the abort flag that was up; success means all chunks, a flush and every reading down; without trouble it succeeds, empty file included. |
| `FilePipeline.SendPieces` | server/src/datachannel/DataChannelSession.cpp:78-88 | The lookahead loop for a file of at least one byte: calls are a prefix of the numbered chunks, each sent after readings that were all down; success means all of them, a flush, and the readings before and after it down. |
| `FilePipeline.FilledSnoc` | server/src/datachannel/DataChannelSession.cpp:119-126 | Appending the translation of the next chunk under the carry keeps the temporary equal to the translation of all chunks so far. |
| `FilePipeline.ReceiveFile` | server/src/datachannel/DataChannelSession.cpp:110-129 | True means a complete numbered sequence was consumed, its translation replaced the destination, and every reading of the abort flag, the one before the commit included, was down; false means the old contents; nothing is received after a reading that was up; a complete sequence without trouble always succeeds. |
| `FilePipeline.ReceiveFileConfirmed` | client/src/datachannel/DataChannelSession.cpp:116-159 | A positive confirmation is sent only after the commit and only for the last chunk, every reading of the abort flag before it down; an abort seen once a chunk has arrived, and any final chunk that is not committed, is answered by refusing that chunk and nothing else is confirmed; the file is old or complete; the result is true exactly when committed and confirmed; a complete sequence without trouble is always committed. |
| `WindowedSender.EffectiveWindow` | server/src/rdt/RdtSender.cpp:127-130 | Between one and ten; ten from cwnd 10 on; below that the whole part of cwnd. |
| `WindowedSender.Expired` | server/src/rdt/RdtSender.cpp:360-363 | A packet is due exactly when it is unacknowledged and at least one whole millisecond more than the timeout has passed since it was last sent. |
| `SenderProofs.InitialGood` | server/src/rdt/RdtSender.cpp:42-102 | A new sender satisfies the window and congestion invariants for any configured timeout: cwnd 4, the timeout clamped to 50..2000, and the estimate equal to it. |
| `SenderProofs.OnAckGood` | server/src/rdt/RdtSender.cpp:299-339 | An acknowledgement keeps: at most ten in flight, consecutive numbers, front unacknowledged, retransmitted exactly when retries > 0, cwnd >= 1, clean acknowledgements below the effective window, 50 <= timeout <= 2000. |
| `SenderProofs.OnlyFirstTransmissionsSampled` | server/src/rdt/RdtSender.cpp:302-319 | Only the first acknowledgement of a packet sent exactly once moves the estimator and the window credit (section 3 of RFC 6298): the deviation by a quarter from the old estimate, the estimate by an eighth, the timeout from both, cwnd by one after a full effective window of credits; any other acknowledgement touches only the window. |
| `SenderProofs.ScanExact` | server/src/rdt/RdtSender.cpp:352-418 | One scan halves once exactly when something expired, retransmits exactly the expired packets in order under the timeout from before the halving, with the same payload and FIN bit, and stops short exactly when one is out of retries or a send fails. |
| `SenderProofs.ResendFromSends` | server/src/rdt/RdtSender.cpp:374-417 | The retransmission loop sends the expired packets oldest first; it completes exactly when every expired packet has retries left and every send works. |
| `SenderProofs.PollGood` | server/src/rdt/RdtSender.cpp:246-419 | Every poll, with any arrivals, NAK, abort, socket error and send results, keeps the sender invariants. |
| `SenderProofs.DrainFailsIff` | server/src/rdt/RdtSender.cpp:265-298 | The receive loop fails exactly when it meets an abort or a bare NAK before any socket error. |
| `SenderProofs.PollSucceedsIff` | server/src/rdt/RdtSender.cpp:246-419 | A poll succeeds exactly when its receive loop did, no abort was seen with packets in flight, and every packet due had one of its ten retries left and got out, and then sends exactly those due, in order; a poll that fails earlier retransmits nothing. |
| `SenderProofs.PollUntilGood` | server/src/rdt/RdtSender.cpp:434-438 | A blocked call keeps the invariants and returns true only with room below the effective window (flush: an empty window), even after the window was halved below its occupancy. |
| `SenderProofs.SendChunkGood` | server/src/rdt/RdtSender.cpp:422-482 | sendChunk keeps the invariants whether it blocks, fails or succeeds; success puts the next number in flight. |
| `SenderProofs.AcknowledgedOnTheSpot` | server/src/rdt/RdtSender.cpp:478-481 | sendChunk looks for acknowledgements before it returns: one that is already there empties the window. |
| `SenderProofs.TransmitsWithinWindow` | server/src/rdt/RdtSender.cpp:422-482 | sendChunk puts its chunk on the wire exactly when it is admitted, comes to room and the send works; it then found an empty window, or fewer than ten in flight and one more within cwnd; with room it transmits at once; with as many in flight as the whole part of cwnd and no poll it stays blocked, having sent nothing; an aborted or oversized call fails with nothing sent. |
| `SenderProofs.WaitsForRoom` | server/src/rdt/RdtSender.cpp:434-438 | The wait ends with room by the congestion window and goes on only without it. |
| `SenderProofs.NewPacketRemembered` | server/src/rdt/RdtSender.cpp:463-479 | The packet just sent is in the window behind the others with its send time, unacknowledged, with no retries, as the datagram that went out. |
| `SenderProofs.PollUntilResumes` | server/src/rdt/RdtSender.cpp:434-438 | A blocked call given more inputs goes on from where it was, so it may be taken in parts. |
| `SenderProofs.OnAckWork` | server/src/rdt/RdtSender.cpp:299-339 | An acknowledgement either changes nothing at all or uses up part of the work that is left. |
| `SenderProofs.PollUsesWork` | server/src/rdt/RdtSender.cpp:246-419 | A poll that succeeds either changes nothing and sends nothing, or strictly lowers the work left: the termination measure of flush. |
| `SenderProofs.BlockedCallBounded` | server/src/rdt/RdtSender.cpp:485-493 | However long a call stays blocked, at most 110 of its polls do anything. |
| `SenderProofs.SilentFlushFails` | server/src/rdt/RdtSender.cpp:374-417 | If nothing is heard, a flush fails within eleven polls that are each more than the longest timeout apart, whatever is in flight. |
| `SenderProofs.BackOff` | server/src/rdt/RdtSender.cpp:153-170 | k back-to-back decreases give exactly max(1, c/2^k) and min(2000, t*2^k), drop the credit, and leave window and estimator alone (rule 5.5 in section 5 of RFC 6298). |
| `SenderProofs.EstimatorBounded` | server/src/rdt/RdtSender.cpp:132-151 | Over any number of samples the estimate stays within the range of its start and the samples, the deviation within the width of that range, the timeout within its limits. |
| `RdtSender.RdtSender.constructor` | server/src/rdt/RdtSender.cpp:83-102 | Starts with an empty window, cwnd 4 and the clamped timeout. |
| `RdtSender.RdtSender.UpdateRtt` | server/src/rdt/RdtSender.cpp:132-151 | In-place update of the three estimator fields, deviation first. |
| `RdtSender.RdtSender.ApplyCongestionDecrease` | server/src/rdt/RdtSender.cpp:153-170 | In-place halving and doubling; window and estimator untouched. |
| `RdtSender.RdtSender.MarkPacket` | server/src/rdt/RdtSender.cpp:299-334 | The search loop marks the first unacknowledged packet with that number, samples and credits it only if it was sent once, and changes nothing if there is none. |
| `RdtSender.RdtSender.HandleAck` | server/src/rdt/RdtSender.cpp:299-339 | The two loops mark the first unacknowledged packet with that number and slide the window past acknowledged ones. |
| `RdtSender.RdtSender.DrainAcks` | server/src/rdt/RdtSender.cpp:265-350 | The receive loop folds the acknowledgement step over the arrivals; it fails exactly on a NAK or an abort and sends nothing. |
| `RdtSender.RdtSender.ResendExpired` | server/src/rdt/RdtSender.cpp:374-417 | The retransmission loop computes the specified window, sends and result. |
| `RdtSender.RdtSender.PollAcksAndRetransmit` | server/src/rdt/RdtSender.cpp:246-419 | A poll computes the specified state, sends and result. |
| `RdtSender.RdtSender.AwaitRoom` | server/src/rdt/RdtSender.cpp:434-438 | The waiting loop polls until there is room (flush: until the window is empty), fails or is still blocked, with the specified state and sends. |
| `RdtSender.RdtSender.SendChunk` | server/src/rdt/RdtSender.cpp:422-482 | sendChunk computes the specified state, sends and result, over any inputs while it blocks. |
| `RdtSender.RdtSender.Flush` | server/src/rdt/RdtSender.cpp:485-493 | flush computes the specified state, sends and result. |
| `RdtReceiver.RdtReceiver.Handshake` | client/src/rdt/RdtReceiver.cpp:98-169 | The loop sends the specified number of SYNs and nothing else, keeps DATA that answers, and returns the specified result. |
| `WindowedReceiver.ShakeSucceedsIff` | server/src/rdt/RdtReceiver.cpp:104-168 | The handshake succeeds exactly when some attempt within the limit is answered and none before it broke off; at most ten SYNs go out, and without success nothing is kept. |
| `WindowedReceiver.ShakeStopsAt` | server/src/rdt/RdtReceiver.cpp:125-163 | Answered at its k-th attempt it has sent k SYNs, and DATA that answers is kept; broken off, or after ten attempts, it has sent one SYN for each attempt before and keeps nothing. |
| `WindowedReceiver.HandshakeDataComesFirst` | server/src/rdt/RdtReceiver.cpp:159-164 | DATA that ended a handshake is the first thing that the next receiveNext handles; after an acknowledgement it begins with the socket. |
| `WindowedReceiver.AcknowledgedIff` | server/src/rdt/RdtReceiver.cpp:260-292 | The server answers DATA with its acknowledgement exactly when it lies below the end of the receive window, duplicates included; anything else gets no answer and changes nothing. |
| `RdtReceiver.RdtReceiver.Handle` | client/src/rdt/RdtReceiver.cpp:283-323 | The loop body computes the specified reaction: duplicates acknowledged again, the last packet noted but not acknowledged, out-of-order packets buffered, the expected one handed out. |
| `RdtReceiver.RdtReceiver.ReceiveNext` | server/src/rdt/RdtReceiver.cpp:211-313 | receiveNext takes a buffered chunk first, then the datagram kept from the handshake, then the socket, under either acknowledgement policy. |
| `RdtReceiver.RdtReceiver.ListenLoop` | client/src/rdt/RdtReceiver.cpp:237-325 | The receive loop folds the reaction over what arrives until a chunk, a failure or the end, with every acknowledgement in order. |
| `WindowedReceiver.ListenResumes` | client/src/rdt/RdtReceiver.cpp:237-325 | A receive loop given more datagrams goes on from where it was. |
| `RdtReceiver.RdtReceiver.ConfirmReceive` | client/src/rdt/RdtReceiver.cpp:203-220 | Sends the withheld acknowledgement, or a NAK, and clears the note exactly for the noted number. |
| `WindowedReceiver.ConfirmSettles` | client/src/rdt/RdtReceiver.cpp:203-220 | Before it a copy of the last packet is not acknowledged; a saved transfer is acknowledged then, an unsaved one answered with a NAK and reported as failed, and after either every later copy is acknowledged; another number changes nothing and is never acknowledged. |
| `RetrProofs.NeverOutsideWindow` | client/src/rdt/RdtReceiver.cpp:291-296 | While the client reads its socket the sender's window base is at most the expected number, so no packet ever sent is beyond the receive window. |
| `RetrProofs.EveryCopyCounts` | client/src/rdt/RdtReceiver.cpp:222-325 | Every delivered copy of an unaccepted piece is accepted; it is acknowledged exactly when it is not the last piece; it is handed out exactly when it is the expected one. |
| `RetrProofs.EveryCopyAnswered` | client/src/rdt/RdtReceiver.cpp:283-318 | A copy of the last piece gets no acknowledgement; any other copy gets one, or receiveNext returns false with nothing changed if it cannot be sent. |
| `RetrProofs.RefusalFailsServer` | server/src/rdt/RdtSender.cpp:292-297 | A client that refuses a chunk, for an abort, a failed write or a failed commit, stops with false and sends a NAK for it, and a transmitting server that hears it fails. |
| `RetrProofs.BeginsAtSyn` | server/src/rdt/RdtSender.cpp:533-563 | A server that waits for the client begins to transmit at a SYN, which it acknowledges; an ACK, a NAK or DATA changes nothing. |
| `RetrProofs.StepKeeps` | client/src/rdt/RdtReceiver.cpp:203-325 | Each of the seventeen kinds of step of the two endpoints keeps the invariant that ties windows, buffers, both networks, the writer and the delivered chunks. |
| `RetrProofs.RunKeeps` | server/src/rdt/RdtSender.cpp:246-567 | The invariant holds in every reachable state of every download. |
| `RetrTheorems.DeliveredInOrder` | client/src/rdt/RdtReceiver.cpp:222-325 | In every run the chunks handed out are a prefix of the server's, numbered 0,1,2,... without gap or repeat, and only the last is final. |
| `RetrTheorems.FinalAckMeansSaved` | client/src/rdt/RdtReceiver.cpp:203-220 | An acknowledgement of the last number exists only once the client committed the whole transfer; neither receiveNext nor the SYN exchange can produce it. |
| `RetrTheorems.SuccessMeansSaved` | server/src/rdt/RdtSender.cpp:485-493 | If flush returned true, the client has already committed a destination equal to the whole transfer. |
| `RetrTheorems.DownloadCopiesFile` | client/src/datachannel/DataChannelSession.cpp:116-159 | For any file and type, success on either side means the destination holds the promised file; at every moment it is the old or the complete new one. |
| `RetrTheorems.FilesAdmissible` | server/src/datachannel/DataChannelSession.cpp:63-89 | The cut of any file below 2^32 chunks is a transfer the theorems cover. |
| `RetrTheorems.FailureIsNeverSuccess` | client/src/datachannel/DataChannelSession.cpp:133-156 | Once the client returned without saving, its NAK delivered or lost, no continuation makes the server succeed and the old file stays. |
| `RetrTheorems.TransmissionsCounted` | server/src/rdt/RdtSender.cpp:374-482 | In every run the per-chunk counters add up to the data transmissions made. |
| `RetrTheorems.AtMostElevenPerChunk` | server/src/rdt/RdtSender.cpp:381-415 | Any run transmits at most 11 data datagrams per chunk. |
| `RetrTheorems.EverythingSendable` | server/src/rdt/RdtSender.cpp:441-456 | Every datagram of every download fits the wire format and survives it unchanged. |
| `RetrReachability.CompletionReachable` | server/src/datachannel/DataChannelSession.cpp:63-89 | Every transfer has a run in which both sides report success. |
| `RetrReachability.SavedWithoutSuccess` | server/src/rdt/RdtSender.cpp:381-385 | Every transfer has a run in which the client saves the file and returns true, its last acknowledgement is never heard, and the server fails at the retry limit after eleven transmissions of the last piece. |
| `RetrReachability.SavedSucceedsIff` | server/src/rdt/RdtSender.cpp:485-493 | From any reachable state in which the client has saved the file and returned, some continuation ends in server success exactly when the server has succeeded already, or is transmitting and the client returned true. |
| `RetrReachability.FlushAcrossCommit` | client/src/datachannel/DataChannelSession.cpp:148-149 | flush may begin before the file is saved and return true, the client committing and confirming while it waits. |
| `RetrRefinement.PollIsRun` | server/src/rdt/RdtSender.cpp:246-419 | A poll, with the client moving before each thing it sees, is a run with the same final sender, the same datagrams and the same result. |
| `RetrRefinement.SendChunkIsRun` | server/src/rdt/RdtSender.cpp:422-482 | sendChunk of the next piece, with the client moving while it waits, is a run that ends with the client its script moved, the computed sender and the datagrams sent; the piece is in flight exactly when the call got to transmit it. |
| `RetrRefinement.FlushIsRun` | server/src/rdt/RdtSender.cpp:485-493 | flush after the last piece, with the client moving while it waits, is a run that ends with the client its script moved and the computed sender; its true return is the server's success. |
| `RetrClientRefinement.ReceiveNextIsRun` | client/src/rdt/RdtReceiver.cpp:222-325 | receiveNext of the client, with the server moving while it waits, is a run whose whole end state is given: blocked, returned false, or holding the chunk it returned, with the same acknowledgements sent. |
| `RetrClientRefinement.HandshakeIsRun` | client/src/rdt/RdtReceiver.cpp:98-169 | signalClientReady, with the server moving between its attempts, is a run whose whole end state is given: the client receives, or it has stopped. |
| `RetrClientRefinement.ConfirmIsRun` | client/src/rdt/RdtReceiver.cpp:203-220 | confirmReceive after the commit, or for a chunk that is not wanted, is a step that changes the client and what it sent as computed, and nothing else. |
| `RetrCalls.FlushTrueMeansSaved` | server/src/rdt/RdtSender.cpp:485-493 | When flush returns true after any run, the client that moved while it waited has committed a destination equal to the whole transfer. |
| `RetrCalls.AllTrueMeansSaved` | server/src/datachannel/DataChannelSession.cpp:78-88 | When the remaining sendChunk calls of the server and its flush all return true, the client that moved before, between and during them has committed the whole transfer. |
| `RetrCalls.SuccessfulCallsExist` | server/src/datachannel/DataChannelSession.cpp:63-89 | Every transfer has such calls, one sendChunk for each piece and a flush that begins before the commit. |
| `StopAndWait.TransmissionBounds` | client/src/rdt/RdtSender.cpp:239-262 | From attempt n on, at most 10 - n transmissions are made, and success takes at least one. |
| `StopAndWait.AckComesIff` | client/src/rdt/RdtSender.cpp:146-199 | The wait ends well exactly when a bare acknowledgement with the awaited number comes before any timeout or abort. |
| `StopAndWait.SucceedsIff` | client/src/rdt/RdtSender.cpp:239-262 | The retry loop succeeds exactly when one of its ten attempts gets out and is acknowledged in time with no abort up to it. |
| `StopAndWait.RdtSender.WaitForAck` | client/src/rdt/RdtSender.cpp:146-199 | Returns true exactly when the awaited acknowledgement arrives before a timeout or an abort, stale ones and noise skipped. |
| `StopAndWait.RdtSender.SendChunk` | client/src/rdt/RdtSender.cpp:203-263 | Returns true exactly when some attempt is acknowledged in time; what it sends is only copies of the one datagram, as many as attempts that got out. |
| `StopAndWait.RdtSender.Retry` | client/src/rdt/RdtSender.cpp:239-262 | The retry loop from any attempt on: result and number of copies. |
| `UploadProofs.NeverAhead` | server/src/rdt/RdtReceiver.cpp:279-311 | A datagram that the server reads is old or the expected one, never ahead, stale handshake data included. |
| `UploadProofs.BeginsAtSyn` | client/src/rdt/RdtSender.cpp:298-322 | A client that waits for the server begins to send at a SYN, which it acknowledges; an ACK, a NAK or DATA changes nothing. |
| `UploadProofs.EveryCopyAcknowledged` | server/src/rdt/RdtReceiver.cpp:274-293 | In every run each copy of a chunk that the server reads, the first or a later one, is acknowledged. |
| `UploadProofs.StepKeeps` | server/src/rdt/RdtReceiver.cpp:104-313 | Every step of an upload keeps the invariant of client, server, writer and both networks. |
| `UploadProofs.UploadInStep` | client/src/rdt/RdtSender.cpp:203-263 | While chunk n is outstanding the server has handed out exactly 0..n-1 or 0..n in order and buffers nothing, so a true sendChunk means its chunk was accepted. |
| `UploadProofs.AtMostTenPerChunk` | client/src/rdt/RdtSender.cpp:239-262 | Any run transmits at most 10 data datagrams per chunk. |
| `UploadProofs.UploadCopiesFile` | server/src/datachannel/DataChannelSession.cpp:110-129 | The server's receiveFile returns true exactly with the complete promised file at the destination; otherwise the old contents stay. |
| `UploadProofs.EverythingSendable` | client/src/rdt/RdtSender.cpp:211-236 | Every datagram of every upload fits the wire format and survives it unchanged. |
| `UploadRefinement.WaitIsRun` | client/src/rdt/RdtSender.cpp:146-199 | waitForAck, with the server moving while it waits, is a run: the client moves on exactly when the acknowledgement comes. |
| `UploadRefinement.SendChunkIsRun` | client/src/rdt/RdtSender.cpp:203-263 | sendChunk from any attempt on, with the server moving while it waits, is a run whose whole end state is given, with the same datagram and the same number of transmissions: the chunk is acknowledged, or the client fails. |
| `UploadServerRefinement.ReceiveNextIsRun` | server/src/rdt/RdtReceiver.cpp:211-313 | receiveNext of the server, with the client moving while it waits, is a run whose whole end state is given: blocked, returned false, or holding the chunk it returned, with the same acknowledgements sent. |
| `UploadServerRefinement.HandshakeIsRun` | server/src/rdt/RdtReceiver.cpp:104-168 | initiateActiveHandshake, with the client moving between its attempts, is a run whose whole end state is given: the server receives, or it has stopped. |
| `UploadReachability.SendChunkCanSucceed` | client/src/rdt/RdtSender.cpp:239-256 | From any attempt on, with the server reading, one transmission that is heard and acknowledged lets sendChunk return true, whether or not the chunk had been accepted before. |
| `UploadReachability.RetransmissionSucceeds` | client/src/rdt/RdtSender.cpp:239-262 | From any reachable state in which the outstanding chunk is already accepted, the server reads again and an attempt is left, one retransmission can complete the call and hands out nothing twice. |
| `UploadReachability.LastAckDecides` | server/src/datachannel/DataChannelSession.cpp:110-129 | Once the server has accepted the last chunk it reads no more: from any such reachable state the client's calls can still all succeed exactly when that chunk's acknowledgement was sent. |
| `UploadReachability.ClientSuccessLeavesBothOutcomes` | server/src/rdt/RdtReceiver.cpp:279-311 | Every upload has runs in which the client's calls all succeed and the file is saved, and runs in which they all succeed and the old file stays. |
| `UploadReachability.SucceededSavedIff` | server/src/datachannel/DataChannelSession.cpp:119-128 | From any reachable state in which the client's calls have all succeeded, some continuation (or none at all) has the file saved exactly when the server's receiveFile has not already returned false. |
| `UploadCalls.AllTrueMeansAccepted` | client/src/datachannel/DataChannelSession.cpp:82-93 | When the next sendChunk calls of the client all return true, the server that moved before, between and during them has handed out every chunk up to the last of them, in order, and buffers nothing. |
| `Loopback.StepKeeps` | server/src/rdt/RdtReceiver.cpp:217-311 | Every acknowledged sequence is delivered or buffered, through every step of the server's own sender and receiver. |
| `Loopback.BufferBounded` | server/src/rdt/RdtReceiver.cpp:279-311 | In every run the out-of-order buffer holds at most nine packets, all within [expected, expected + 10). |
| `Loopback.EveryCopyAcknowledged` | server/src/rdt/RdtReceiver.cpp:274-293 | In every run each copy that is read, old, expected or ahead, is acknowledged and then delivered or buffered; none is beyond the window. |
| `Loopback.DrainBuffer` | server/src/rdt/RdtReceiver.cpp:217-226 | A buffer that holds all missing pieces can be handed out to the end without the socket, in order. |
| `Loopback.FlushedIsDelivered` | server/src/rdt/RdtSender.cpp:485-493 | When flush succeeded, delivered chunks followed by what the buffer yields without another datagram are exactly all chunks. |
| `Lifecycle.AppendAtomically` | server/src/control/CommandDispatcher.cpp:63-115 | Succeeds exactly when I/O works and neither the payload nor an existing destination is empty; then the result begins with the old contents and goes on with exactly the payload (the payload alone without an old file), otherwise the destination is unchanged. |
| `LifecycleProofs.HandlerShape` | server/src/control/CommandDispatcher.cpp:653-830 | No command handler touches workers, flags, lock or log; only ABOR may change the thread handle, and only a transfer command that goes on changes the files, by reserving the STOU name. |
| `LifecycleProofs.ClearKeepsSockets` | server/src/control/CommandDispatcher.cpp:24-31 | Clearing the data state closes the pending socket once and keeps socket ownership consistent. |
| `LifecycleProofs.StartKeepsSockets` | server/src/control/CommandDispatcher.cpp:176-283 | Starting a transfer takes over the pending socket or opens one, and closes it if the transport is bad. |
| `LifecycleProofs.UnstartedLeavesNothing` | server/src/control/CommandDispatcher.cpp:338-351 | A transfer whose worker cannot be started is no longer active and leaves no reserved STOU file. |
| `LifecycleProofs.OneEndpointPerTransfer` | server/src/control/CommandDispatcher.cpp:176-283 | In no run are there more transfers than PASV and PORT commands before them: a pending socket or a stored address serves once. |
| `LifecycleProofs.OutcomeStep` | server/src/control/CommandDispatcher.cpp:305-328 | Through each worker step the destination is untouched until commit or append; afterwards success means stored, except for an append skipped with the abort flag up, and failure means the old contents, for STOU no file once cleaned up. |
| `LifecycleProofs.TroubleMeansFailure` | server/src/control/CommandDispatcher.cpp:301-328 | A commit or an append that is in trouble fails the transfer and leaves every file as it was. |
| `LifecycleProofs.ReadingDecides` | server/src/control/CommandDispatcher.cpp:163-174 | When finishTransfer reads the flag down, success means that the destination holds what was promised. |
| `LifecycleProofs.StepKeeps` | server/src/control/CommandDispatcher.cpp:24-351 | Every step of either thread keeps the thread, abort, lock, socket, file and log invariants. |
| `LifecycleProofs.RunKeeps` | server/src/control/CommandDispatcher.cpp:856-884 | The invariants hold in every state reachable under any interleaving. |
| `LifecycleProofs.CompleteMeansStored` | server/src/control/CommandDispatcher.cpp:305-337 | Every 226 of a worker comes from a transfer that succeeded; for STOR, STOU or APPE, under any interleaving with ABOR, the destination held the payload at that moment; for APPE, the old contents followed by the payload. |
| `LifecycleProofs.FailedMeansUnchanged` | server/src/control/CommandDispatcher.cpp:163-174 | Every 426 of a worker comes from a transfer that failed; for an upload, under any interleaving, the destination then held what it held when the worker started, and for STOU there was no file. |
| `LifecycleProofs.ReplyTellsOutcome` | server/src/control/CommandDispatcher.cpp:163-174 | In every run a worker past its reply, of a download or an upload, has sent a 226 exactly when its transfer succeeded and it read the abort flag down, a 426 exactly when it failed and the flag was down, and never two replies; a download has succeeded exactly when its data phase did, an upload only if it did. |
| `LifecycleProofs.AbortInTimeStoresNothing` | server/src/control/CommandDispatcher.cpp:301-328 | If the abort flag is up while an upload is still receiving, or before an append begins, then in every continuation, as long as the worker lives, the destination keeps its old contents (for STOU, or no file). |
| `LifecycleProofs.ShutdownAborts` | server/src/control/CommandDispatcher.cpp:856-884 | While a session shuts down the abort flag is up, so an upload still receiving stores nothing; once it has ended no transfer is active and no worker is alive. |
| `LifecycleProofs.IdleAnswerMeansIdle` | server/src/control/CommandDispatcher.cpp:818-823 | The only other 226, ABOR's answer when it finds no transfer in progress, is sent with no worker alive. |
| `LifecycleProofs.HandleNeverOverwritten` | server/src/control/CommandDispatcher.cpp:291-299 | When a worker is started the handle is not joinable and no earlier worker is alive. |
| `LifecycleProofs.AbortFlagIsOwn` | server/src/control/CommandDispatcher.cpp:206-217 | At most one worker is alive; a raised flag it can see was raised for its own transfer and no step lowers it. |
| `LifecycleProofs.PassiveMeansPending` | server/src/control/CommandDispatcher.cpp:653-687 | Passive mode holds exactly when a pending data socket is held. |
| `LifecycleProofs.SocketsClosedOnce` | server/src/control/CommandDispatcher.cpp:879-884 | Every data socket serves at most one transfer and is closed at most once; after shutdown exactly once. |
| `LifecycleProofs.SecondFinalReplyIff` | server/src/control/CommandDispatcher.cpp:812-830 | From the moment ABOR raises the flag to its 426, with no new command in between: the transfer's worker has sent a final reply of its own exactly when it was already past its reading of the flag as the flag went up. |
| `LifecycleProofs.CompletionThenAbortReachable` | server/src/control/CommandDispatcher.cpp:163-174 | Every upload that can succeed has a run, with a passive as with an active data channel, answered with 226 and then with 426. |
| `EndToEnd.UploadReplyMeansStored` | server/src/control/CommandDispatcher.cpp:305-337 | A 226 for STOR or STOU says that the destination holds the client's file in the transfer type; for APPE, the old contents followed by it. |
| `EndToEnd.DownloadReplyMeansSaved` | server/src/control/CommandDispatcher.cpp:219-229 | A 226 for RETR says that the client has saved the server's file in the transfer type. |
| `Replies.ReplyWithCode` | server/src/control/Session.cpp:37-41 | Prints the one-line reply. |
| `Replies.SplitMessage` | server/src/control/Session.cpp:44-54 | The getline loop splits at newlines, strips one trailing return per line, and never yields no line. |
| `Replies.MessageLinesAre` | server/src/control/Session.cpp:49-54 | A message made of lines joined by newlines, with or without one at the end, is split into exactly these lines. |
| `Replies.LineCount` | server/src/control/Session.cpp:49-54 | A message has as many lines as newlines, and one more unless it ends in one; an empty message has one empty line. |
| `Replies.MultilineReplyWithCode` | server/src/control/Session.cpp:43-66 | Prints every line of the message, all but the last with a hyphen. |
| `Replies.ReplyReader.ReadReply` | client/src/control/Session.cpp:77-121 | On any segmentation the result is that of the parser on the whole stream, and exactly the bytes of the reply are consumed. |
| `Replies.LinesReadBack` | client/src/control/Session.cpp:83-112 | From the middle of a reply, the remaining printed lines are collected and none but the last is taken for the terminator. |
| `Replies.ReplyReadsBack` | client/src/control/Session.cpp:77-121 | For codes 100..999 any printed lines without newline parse to the same code and lines, whatever follows. |
| `Replies.MessageReadsBack` | server/src/control/Session.cpp:43-66 | A multi-line reply reads back for every message. |
| `Replies.PrintedShows` | server/src/control/Session.cpp:43-66 | Each printed line is the three digits of the code, a hyphen or for the last line a space, and the text of its line of the message. |
| `Replies.FirstLineDecides` | client/src/control/Session.cpp:90-103 | A first line without three digits makes the client give up; one without a hyphen after them is the whole reply, even if it ends there. |
| `Replies.AnyMultiLineReplyReads` | client/src/control/Session.cpp:83-112 | A multi-line reply of any server (section 4.2 of RFC 959): everything up to the first line with the same code and a space belongs to it, whatever it looks like. |
| `Replies.SingleLineReadsBackIff` | server/src/control/Session.cpp:37-41 | A single-line reply reads back exactly when the message has no newline. |
| `Replies.ConversationReadsBack` | client/src/control/Session.cpp:77-121 | Any list of proper replies is read back one by one and exactly their bytes are consumed. |
| `Replies.ReadReplies` | client/src/control/Session.cpp:77-121 | Repeated readReply calls on any segmentation return the replies that parsing the whole stream returns, up to n and also when there are fewer; after n of them the same rest is left, and a stream that ends within a reply has been received to its end. |
| `Replies.ReadConversation` | client/src/control/Session.cpp:77-121 | When buffer and segments together are what the server printed and a rest, the client gets exactly those replies in order, with code and all lines of text that each message consists of, and the rest is left. |
| `Replies.CommandsExtend` | server/src/control/Session.cpp:156-180 | Splitting commands as bytes arrive equals splitting the whole stream. |
| `Replies.CommandsReadBack` | server/src/control/Session.cpp:160-165 | What sendCommand sent is what the dispatcher gets, in order, with an unfinished end kept. |
| `Replies.CommandBuffer.OnReceive` | server/src/control/Session.cpp:152-181 | One recv yields the complete commands of buffer plus bytes, in order, up to and including the first after which the socket is closed; if none closes it, all of them, and the unfinished end is kept. |

## Left out

- Winsock calls, select, socket options and error codes: they are network steps, clock readings and result parameters.
- SHA-256 hashing: a failed hash is one of the I/O failures of a worker step; the hash values play no part.
- PathResolver and DirectoryService: they depend on file system calls that are not part of this model.
- Parsing and formatting of PORT and PASV addresses.
- Client registry, logging, help texts, USER and PASS, and the metadata commands.
- The client's command loop, messages and hash comparison, and its own session state: user interface.
- Latency and random drops of the fault injector: the network model covers them; its bit flip is in the codec.
- Probing of the destination by the client's writer, failure texts and the copy made of a source before sending.
- Whether a transfer eventually succeeds: it depends on network fairness and time. Proved instead: bounded work, acceptance of every delivered copy, and reachability of success.
- Wrap-around of 32-bit sequence numbers, rounding of doubles, and overflow of the cast of a huge estimate to int.
- The control session is modelled on values: its fields are a record in a transition system of two threads, because every theorem about them is about interleavings. Aliasing of the session object is not captured.
- Failing to create the staging file of APPE is merged with a transport that cannot be opened; both end with the endpoint closed and an error reply.
- The senders' wait for a SYN (waitForClientReady, waitForServerReady) is a step of the two systems, not a method of the sender classes; its attempt limit is not counted.
- The pairing of the server's sender with the server's receiver allows a halving or a retransmission at any time, more than a poll does, so its theorems cover more runs than the program has.
- A flush that fails on a stream that was good until then is merged with a failed close or move; the destination is untouched in all three.
- A read error in the middle of a source file, which the program takes for the end of the file.
