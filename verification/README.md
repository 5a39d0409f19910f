# peerc, modelled and proved in Dafny

peerc is a peer-to-peer messenger and file-transfer program. This project models its four hard
cores and proves what they promise over every input and every run:

- **Resumable file transfer.** Offers, chunks, acknowledgements, disconnects, the `.part` file and
  its `.part.meta` sidecar, on a disk that distinguishes written from fsynced bytes and may crash
  between any two steps (`Names`, `Partial`, `TransferState`, `Session`, `SessionSafety`,
  `Receiving`, `Deciding`, `Durability`, `Resume`, `FileTransfer`, `Sender`, `Chunker`).
- **Trust store with key rotation.** A status machine per device plus a growing graph of rotations,
  searched for its connected component (`Trust`).
- **Authenticated transport.** Framing, the counter-nonce channel, the three-message handshake and
  its session keys, and the relay tunnel that nests one secure session in two others (`Framing`,
  `Secure`, `Handshake`, `Relay`, `Replay`).
- **Group authority.** Admins, memberships, export capabilities, threshold approvals and the byte
  strings that are signed (`Groups`, `Export`, `Signing`), and add-by-link payloads (`Link`).

Times read from messages and sidecars are floats with infinities and NaN (`Clock`).

`dafny verify dfyconfig.toml` checks the whole project.

## How to read it

Each stateful object of the program is a class (`FileTransferSession`, `OutgoingTransfer`,
`TrustStore`, `GroupStore`, `CapabilityStore`, `SecureChannel`, `ConnectionManager`,
`RelayedStreamWriter`, `StreamReader`, `NonceCache`, `ThresholdApproval`, `Device`). Its methods are
proved to do exactly what a step function on values says (`View() == Step(old(View()), ...)`). Runs
are sequences of steps, and the theorems are about all runs.

What the program gets from outside is an argument: clock readings, the peer behind an address, the
outcome of a disk write, a signature check or a user decision, and the library functions for
hashing, sealing, signing, key agreement, address parsing and text encoding. Ideal cryptography is
a hypothesis on the run, never an axiom: a ciphertext opens, or a signature verifies, only if its
owner produced exactly it.

Results worth knowing before changing the code:

- With ordinary names, sweeps that meet no active transfer and offers decided at once, a sidecar can
  claim more than is on disk after exactly two kinds of event
  (`Durability.StepKeepsSidecarsIffBenign`): a stop whose fsync fails while the sidecar is still
  rewritten, and a restart whose sidecar reset does not happen because the address has no current
  peer. `FailedFsyncBreaksSidecar` and `OrphanedRestartBreaksSidecar` show each.
- The expiry sweep may delete the partial of an active transfer
  (`Durability.SweepDeletesActivePartial`); it is harmless exactly when no active transfer's
  sidecar has expired (`SessionSafety.SweepHarmlessIffNoActiveExpired`).
- Offered names ending in `.part` can make one transfer's destination another's part file
  (`SessionSafety.PartNamesCollide`). `Deciding.OfferKeepsPathsDisjointIff` gives the guard that is
  missing, and that it is exactly enough.
- `_handle_offer` does not look again after the user has answered, so two offers can end at one
  destination (`Deciding.TwoAnswersOneDestination`). `Deciding.SafeDecisionsDecide` says exactly
  which answers do harm, over every run. A late answer can also resume a partial that has changed;
  zeros are then filled in and recorded as committed (`Deciding.LateResumeBreaksSidecar`), and
  `Deciding.TrueDecisionsDecide` says exactly when.
- A file is acknowledged before it is renamed; if the rename fails, both sides were told of a
  success and the destination does not exist (`SessionSafety.DoneDeliversExactlyWhatVerifies`).
- A positive acknowledgement is taken at one moment only; at any other the sender's transfer cannot
  complete any more, although the receiver has the file (`Sender.AckedTransferCompletesIff`). An
  accept that overtakes the return of the offer's own send is lost likewise
  (`Sender.AcceptedTransferCompletesIff`).
- `_send_chunks` does not catch the ValueError of `read_chunks`. A transfer it ends is never reported
  and stays SENDING; every other one that ends is reported (`Sender.EndedIsReportedIff`,
  `Sender.ShortenedFileEndsSilently`).
- A failed outgoing transfer can be reported twice, exactly on a failure that follows another
  (`Sender.SecondNoticeIffLateFailure`), although `_fail_outgoing` says it cannot.
- An endpoint update can be accepted twice exactly when its age runs out after its nonce does, or it
  has none (`Replay.ReplayIff`): a future-dated one, one whose second call reads the clock twice
  across the boundary, or one dated NaN, which is accepted again and again
  (`Replay.NaNUpdateReplaysForEver`). A sidecar dated NaN likewise wins over all that follow it
  (`Partial.WinnerHasATimeIff`).
- All groups that restrict an export are judged by the first one's admin keys, which is right for
  every table exactly when they list the same keys (`Export.DecidedByOwnAdminsIff`,
  `Export.OwnAuthorisationOverruled`).
- Storing a burned capability again makes it good for another export, and nothing else does
  (`Export.UsedPassesAgainIffStoredAgain`, `Export.PassesAsOftenAsStored`).
- The handshake asks `check`, not `check_with_rotation`, and asks once, before the finish arrives. It
  thus welcomes devices tainted by another (`Handshake.WelcomedThoughTaintedIff`) and completes with
  devices revoked meanwhile (`Handshake.CompletesThoughRefusedIff`), and no others that the store
  would refuse.
- `is_approved` counts devices, which is counting keys exactly when no two active admins share one
  (`Signing.CountsKeysIffOneEach`, `Signing.SharedKeyVotesTwice`).
- A truncated address in a link raises a ValueError that `decode_link` does not turn into a
  LinkFormatError, exactly in the cases of `Link.DecodeEscapesIff`; `Link.FourthAddressEscapes` has
  one.
- Opening a relay pipe over an end that has another partner leaves a one-sided entry, and only then
  (`Relay.OpenKeepsSymmetryIff`); a pipe closed and reopened can make the far end skip bytes
  (`Relay.ReopenedPipeSkipsBytes`), and does exactly if a step lost one (`Relay.FifoIffNoStepLoses`).
- The documentation of `add_admin` speaks of adding a removed admin again after `remove_admin`; the
  code never allows it, and `Groups.RemovalIsPermanent` proves so.
- An operation is committed and then raises exactly when its group id is empty
  (`Groups.CommittedRaisesIffEmptyId`, `Groups.EmptyIdIsCreatedAndRaises`).

## Model

| member | source | states |
|---|---|---|
| Framing.Encode | core/protocol/frame.py:35-53 | A payload is refused exactly when it is over the limit; otherwise it grows by a four-byte header. |
| Framing.Next | core/protocol/frame.py:83-94 | A frame that is found is non-empty, within the limit, and shortens the stream. |
| Framing.NextOfEncoded | core/protocol/frame.py:35-94 | Reading an encoded frame gives it back with its kind and leaves exactly what followed it. |
| Framing.RoundTrip | core/protocol/frame.py:35-94 | Any concatenation of non-empty frames is read back as that list, with the right kinds and nothing left over. |
| Framing.ReadableIffNonEmpty | core/protocol/frame.py:35-94 | What the encoder produces is readable exactly when the payload is non-empty; an empty one is malformed. |
| Framing.ReadingIsMonotone | core/protocol/frame.py:83-94 | Frames read from a prefix of a stream are a prefix of the frames read from the stream. |
| Framing.PrefixDecodesToPrefix | core/protocol/frame.py:35-94 | Any prefix of an encoded list decodes to a prefix of the list. |
| Framing.StreamReader.FeedData | core/transport/relay_stream.py:47-51 | Data is appended unless end of stream was fed. |
| Framing.StreamReader.FeedEof | core/transport/relay_stream.py:53-57 | End of stream is remembered. |
| Framing.StreamReader.ReadExactly | core/transport/relay_stream.py:63-80 | The first n bytes of the stream however it was segmented, or all of it as an incomplete read when it is shorter. |
| Framing.StreamReader.ReadFrame | core/protocol/frame.py:83-94 | Finds a frame exactly when the stream starts with one, and consumes exactly its bytes. |
| Framing.StreamReader.ReadAll | core/protocol/frame.py:70-94 | The frames read depend only on the bytes, not on their segmentation. |
| Framing.Transmit | core/protocol/frame.py:35-94 | Frames written at one end and delivered in any segmentation are received as that list. |
| Chunker.ReadChunks | core/transfer/chunker.py:13-45 | Fails exactly for an offset past the end; otherwise yields the chunk list from that offset. |
| Chunker.ChunksReassemble | core/transfer/chunker.py:28-45 | The chunks put together are exactly the file from the offset on. |
| Chunker.ChunksAreAligned | core/transfer/chunker.py:28-45 | From an aligned offset every chunk is at a multiple of the size, numbered by it, non-empty, and full unless it ends the file. |
| Chunker.EncodeFileData | core/protocol/binary.py:31-42 | Succeeds exactly when the fields fit the header, and adds 28 bytes. |
| Chunker.DecodeFileData | core/protocol/binary.py:45-64 | Fails exactly on payloads shorter than the header; decoded fields always fit it. |
| Chunker.DecodeEncodeFileData | core/protocol/binary.py:31-64 | Decoding an encoded chunk message gives it back. |
| Chunker.EncodeDecodeFileData | core/protocol/binary.py:31-64 | Encoding a decoded payload gives the same bytes back. |
| Chunker.ChunkFitsWire | core/protocol/binary.py:27-42 | Every chunk of a file of acceptable size fits the header fields and, with all overhead, one frame. |
| Secure.NonceInjective | core/crypto/encryption.py:67-70 | Different sequence numbers have different nonces. |
| Secure.SecureChannel.EncryptMessage | core/crypto/encryption.py:98-104 | Seals under the next nonce and advances the counter, or refuses and keeps it. |
| Secure.SecureChannel.DecryptMessage | core/crypto/encryption.py:106-120 | Accepts only the expected sequence number; the counter advances by one exactly when a plaintext is returned. |
| Secure.SecureChannel.SendMessage | core/transport/secure.py:83-96 | The wire payload is the eight-byte sequence number followed by the sealed marker and body. |
| Secure.SecureChannel.ReceiveFrame | core/transport/secure.py:98-150 | Short frames and anything the channel refuses change nothing; otherwise the message behind the marker. |
| Secure.SentIsReceived | core/transport/secure.py:83-150 | What is sent for one message is received as that message, and both counters advance. |
| Secure.InnerOfFromInner | core/transport/secure.py:98-150 | Every non-empty inner text is some message's and is put together again from it, markers being J, B and R. |
| Secure.DeliveryAcceptsNext | core/crypto/encryption.py:98-120 | Any delivered bytes are either refused without any change or are the next message sent. |
| Secure.AcceptedIsPrefixOfSent | core/crypto/encryption.py:79-120 | On every run against a network that drops, replays, reorders and alters, what each side accepted is a prefix of what the other sent. |
| Secure.NonceNeverReused | core/crypto/encryption.py:67-104 | With different directional keys no key and nonce are used together twice in any run. |
| Secure.NeverRepeatsIffKeysDiffer | core/crypto/encryption.py:25-28 | Nonces are never reused on any run if and only if the two directional keys differ. |
| Secure.SecureStreamRoundTrip | core/transport/secure.py:52-150 | Messages sealed, framed and concatenated are received as the same list with the same kinds. |
| Secure.TruncatedStreamIsPrefix | core/transport/secure.py:98-150 | A stream cut off anywhere yields a prefix of the messages. |
| Secure.FileSurvivesTheStack | core/transport/secure.py:61-150 | A file streamed through file header, marker, encryption and framing is decoded as exactly its chunks, which together are the rest of the file. |
| Relay.ConnectionManager.OpenRelayPipe | core/transport/manager.py:455-462 | The two ends name each other afterwards; nothing else changes. |
| Relay.ConnectionManager.CloseRelayPipe | core/transport/manager.py:464-472 | Both ends of the pipe are gone; without a pipe nothing changes. |
| Relay.ConnectionManager.SendRelayData | core/transport/manager.py:439-453 | True exactly when connected and the send succeeds; a failure drops the session. |
| Relay.ConnectionManager.EndSession | core/transport/manager.py:392-404 | Session, pipe and tunnel of the address are gone. |
| Relay.ConnectionManager.OnRelayChunk | core/transport/manager.py:296-385 | Forwarded through the pipe, else fed to the end of the tunnel, else starts one below the limit, else dropped; a session no longer established is ended. |
| Relay.OpenKeepsSymmetryIff | core/transport/manager.py:455-462 | Opening a pipe keeps the table symmetric if and only if neither end has a third partner. |
| Relay.CloseKeepsSymmetry | core/transport/manager.py:464-472 | Closing keeps the table symmetric. |
| Relay.RelayedStreamWriter.Write | core/transport/relay_stream.py:99-102 | Bytes are pending unless the writer is closed. |
| Relay.RelayedStreamWriter.Drain | core/transport/relay_stream.py:104-109 | All pending bytes leave as one chunk, or are lost with the session. |
| Relay.ClosedWriterIsSilent | core/transport/relay_stream.py:99-125 | Over any run after a close nothing more leaves, whatever is written or drained, and the writer stays closed. |
| Relay.StepKeepsInv | core/transport/manager.py:341-354 | Every event keeps the bytes read, buffered, on either wire and pending lined up as a prefix of what was written. |
| Relay.TunnelIsFifo | core/transport/relay_stream.py:47-109 | Over every interleaving, failures and cross traffic included, what B has read is a prefix of what A wrote; unbroken and idle, B has all of it. |
| Relay.TunnelFramesArePrefix | core/transport/manager.py:341-354 | The inner frames B decodes are a prefix of those A sent. |
| Relay.NestedSessionIsPrefix | core/transport/manager.py:487-512 | The messages of the secure session inside the tunnel are received as a prefix of those sent. |
| Relay.TunnelHoldsArrivals | core/transport/manager.py:341-375 | Over every run of a manager in which the session lives without a pipe, the tunnel holds what it held followed by the payloads that arrived on the session, in order. |
| Relay.TunnelReachesRouter | core/transport/manager.py:341-375 | So B's own tunnel, fed with what R put on its session, holds a prefix of what A wrote. |
| Relay.SessionLeavesNothing | core/transport/manager.py:387-404 | A session that ends, or gets a chunk when it is no longer established, leaves no session, tunnel or pipe at either end, and everything else as it was. |
| Relay.ReopenedPipeSkipsBytes | core/transport/manager.py:341-354 | With the pipe closed and reopened there is a run in which B misses a chunk. |
| Relay.FifoIffNothingLost | core/transport/manager.py:341-472 | Whatever happened before, with all links up the tunnel is a FIFO from here on if and only if no written byte has been lost. |
| Relay.StepKeepsNothingLostIff | core/transport/manager.py:341-472 | A step keeps every written byte with B or under way, in order, if and only if it is not a write after the close, a drain without a session, an arrival R does not forward, or an arrival at a B that no longer listens. |
| Relay.FifoIffNoStepLoses | core/transport/relay_stream.py:47-125 | Over any run from a new tunnel, pipes and sessions coming and going: once all links are up it is a FIFO if and only if no step was one of these four. |
| Replay.NonceCache.CheckAndAdd | core/crypto/handshake.py:116-127 | True exactly when the nonce is not held unexpired; expired ones are forgotten and a fresh one is held from now. |
| Replay.AcceptedIsRemembered | core/crypto/handshake.py:109-127 | An accepted nonce is held until more than the lifetime has passed, whatever else the cache sees. |
| Replay.AcceptancesAreFarApart | core/crypto/handshake.py:109-127 | Two acceptances of one nonce, by handshakes or updates, lie more than the lifetime apart. |
| Replay.AcceptedMeans | core/connectivity/endpoint_update.py:119-160 | An accepted update was signed, dated within the maximum age either way or NaN, and its nonce had not been accepted within the lifetime. |
| Replay.ReplayIff | core/connectivity/endpoint_update.py:97-160 | Some continuation accepts an update again if and only if its timestamp is NaN, or it stays young enough until its nonce has expired. |
| Replay.AcceptedAtMostOnce | core/connectivity/endpoint_update.py:97-160 | With lifetime at least the maximum age, an update with a finite timestamp not after its first acceptance is accepted at most once. |
| Replay.FutureDatedUpdateReplays | core/connectivity/endpoint_update.py:135-160 | A future-dated update is accepted twice under the default settings. |
| Replay.ClockLagReplays | core/connectivity/endpoint_update.py:135-160 | So is a current one when the two clock readings of the second call differ. |
| Replay.NaNUpdateReplaysForEver | core/connectivity/endpoint_update.py:134-160 | An update dated NaN is accepted any number of times, once per lifetime of its nonce. |
| Replay.VerifyEndpointUpdate | core/connectivity/endpoint_update.py:97-160 | An update that is not signed, or whose age compares as too large, is refused without touching the cache; otherwise its nonce decides. |
| Handshake.ResponderTranscriptInjective | core/crypto/handshake.py:138-156 | The responder transcript determines all init and response fields. |
| Handshake.InitiatorTranscriptInjective | core/crypto/handshake.py:159-166 | The initiator transcript determines those fields and the signature string, even if that contains newlines. |
| Handshake.RunKeepsInv | core/crypto/handshake.py:256-512 | In every reachable state whatever honest devices signed in the handshake domains was signed by one of their sessions, and what a session accepted was signed by whom it names. |
| Handshake.ResponderAgreement | core/crypto/handshake.py:375-512 | A responder that completes with an honest initiator agrees on every field and the signature string with exactly one session of it, and no other responder session does. |
| Handshake.InitiatorAgreement | core/crypto/handshake.py:256-372 | An initiator that accepts under an honest key shares all fields with a session of that responder. |
| Handshake.RecordedMeansSigned | core/crypto/handshake.py:200-240 | A recorded identity ties to its key, and an honest one was recorded only after its owner signed a transcript. |
| Handshake.WelcomedThoughTaintedIff | core/crypto/handshake.py:200-220 | The handshake welcomes everybody check_with_rotation welcomes, and beyond that exactly the devices tainted by another one and not revoked themselves. |
| Handshake.TaintedIsWelcomedUntilRevoked | core/crypto/handshake.py:200-220 | Over any run of the trust store, whoever is connected to a tainted device is welcomed until its own row is revoked. |
| Handshake.SuccessorOfRevokedIsWelcomed | core/trust/store.py:423-473 | The successor of a device approved, rotated and revoked is welcomed, though check_with_rotation answers REVOKED. |
| Handshake.CompletesThoughRefusedIff | core/crypto/handshake.py:384-497 | Whatever the store went through meanwhile, a handshake completes with a device it would now refuse if and only if the device was known at the start and has been revoked since. |
| Handshake.AnswersIff | core/crypto/handshake.py:384-455 | An init message is answered if and only if its nonce is not remembered, its device id is that of its key, and the device is unknown or known under exactly that key and not revoked; its nonce is remembered from then on. |
| Handshake.TakesUpIff | core/crypto/handshake.py:284-349 | A response is taken up if and only if the same holds of it, its signature verifies over both messages, and somebody unknown is allowed; then the peer is recorded, and else the store is as it was. |
| Handshake.AnsweredWereUnopposed | core/crypto/handshake.py:384-455 | Over every run of a device, its store changing in any way: whoever was answered was, at that moment, unknown to it or known under that key and not revoked, with a nonce it did not remember. |
| Handshake.CompletingGreets | core/crypto/handshake.py:223-240 | Completing records the peer under its key, seen now, and if it was unknown as pending under a name cut to 64 characters; nobody else changes. |
| Handshake.RevokedMeanwhileStillCompletes | core/crypto/handshake.py:457-497 | A device revoked between the answer and the finish completes. |
| Handshake.DerivedKeysMirror | core/crypto/kdf.py:57-123 | From one secret and salt, usable or not, the two roles derive each other's keys and the same session id, or both nothing. |
| Handshake.KeysMirrorWhenFinishUnchanged | core/crypto/handshake.py:169-174 | Agreeing sessions share the secret; if the finish signature string is unchanged they share hash and session id and their keys mirror, and they share the hash only then, unless the hash collides on their two transcripts. |
| Handshake.DerivedChannelNeverReusesNonces | core/crypto/kdf.py:90-123 | When the two direction labels give different keys, the channel on them never seals twice under one key and nonce. |
| Handshake.Device.RecordTrust | core/crypto/handshake.py:223-240 | Unknown peers are recorded with a truncated name, known ones touched, others left alone. |
| Handshake.Device.AnswerInit | core/crypto/handshake.py:384-455 | Changes the cache and answers exactly as Handshake.AnswersIff says; the trust store is not touched. |
| Handshake.Device.TakeFinish | core/crypto/handshake.py:457-497 | The trust store is written exactly when the initiator's signature verifies, and the handshake completes exactly when recording then succeeds. |
| Handshake.Device.TakeResponse | core/crypto/handshake.py:284-349 | Changes store and cache and signs the finish exactly as Handshake.TakesUpIff says. |
| Names.CompanionsAreInjective | core/transfer/resume.py:13-15 | Part and sidecar names determine their destination and never coincide. |
| Names.CandidateInjective | core/transfer/receiver.py:63-75 | Numbered candidates are pairwise different. |
| Names.CandidateIsPlain | core/transfer/receiver.py:63-75 | Numbering never turns an ordinary name into a partial or sidecar name. |
| Names.FewRefusals | core/transfer/receiver.py:66-75 | At most twice as many candidates are refused as files exist. |
| Names.Destination | core/transfer/receiver.py:50-75 | The result is unused, with its part name unless allowed, and stays an ordinary name. |
| Names.DestinationKeepsFreeName | core/transfer/receiver.py:50-75 | A name is kept as it is exactly when it is unused. |
| Names.DestinationIsFirst | core/transfer/receiver.py:63-75 | It is the name itself or that with the smallest number, all before it being in use. |
| Names.ExtensionIsAfterLastDot | core/transfer/receiver.py:63-75 | The number goes before the last dot if anything but dots precedes it, and else at the end. |
| Names.ResolveDestination | core/transfer/receiver.py:50-75 | The search terminates on the first unused candidate. |
| Partial.RoundDown | core/transfer/partial.py:229-241 | The largest chunk multiple not above the count. |
| Partial.WrittenMetaIsRead | core/transfer/partial.py:63-188 | What was written is read back under its own name and no other; a refused record or failed write leaves every reading as it was. |
| Partial.ReadSidecarIsInBounds | core/transfer/partial.py:121-188 | A sidecar is read exactly if it names itself without suffix, never a path, and its fields are in bounds. |
| Partial.BestIsNewest | core/transfer/partial.py:195-226 | The partial chosen matches the offer, has a usable part file, and none that does compares as newer. |
| Partial.WinnerHasATimeIff | core/transfer/partial.py:195-226 | The partial chosen has a time, NaN being none, if and only if the first match in the listing has one. |
| Partial.FindResumable | core/transfer/partial.py:195-226 | The scan finds a partial exactly when one matches, and then that choice. |
| Partial.ResumeOffset | core/transfer/partial.py:229-241 | A chunk multiple no larger than the committed count and the part file, zero without one. |
| Partial.SweepExpired | core/transfer/partial.py:255-282 | Exactly the expired sidecars and their part files are removed. |
| Partial.SweepTakesIff | core/transfer/partial.py:255-282 | A sweep takes a file exactly if it is a readable sidecar more than a week old or its part file, and leaves the rest as it is. |
| TransferState.StateMachine.TransitionTo | core/transfer_state.py:148-154 | Moves exactly along the table and otherwise refuses and stays. |
| TransferState.OutgoingTerminalIsFinal | core/transfer_state.py:57-79 | No terminal state leads to any other state. |
| SessionSafety.StepKeepsInv | core/transfer/session.py:598-931 | Every message with any content, stop and crash keeps the session invariant, given that an offer has an ordinary name and sweeps no active transfer. |
| SessionSafety.RunKeepsInv | core/transfer/session.py:775-931 | Over arbitrary messages, part files hold exactly the bytes counted and never more than offered, active transfers share no path, and deliveries are intact with the offered size and hash. |
| SessionSafety.StepKeepsPlainFiles | core/transfer/session.py:859-931 | No step changes or removes a file that is not a partial or a sidecar. |
| SessionSafety.RunKeepsPlainFiles | core/transfer/session.py:598-931 | So over any run nothing delivered and nothing that was there is overwritten or deleted. |
| SessionSafety.StartIsSafe | core/transfer/session.py:125-166 | A session started on a directory whose readable sidecars are for ordinary names, one without sidecars for instance, satisfies the invariant and lost no ordinary file. |
| SessionSafety.EveryReachableStateIsSafe | core/transfer/session.py:598-931 | So every state reachable from such a start satisfies it, and without a crash every ordinary file is still as it was. |
| Receiving.ChunkIsKeptIff | core/transfer/session.py:775-883 | For every state and chunk: the transfer goes on if and only if the chunk is the one expected, or (0, 0) as the first of a resume, fits the size, and the disk takes it; then the bytes are those before it, or none, followed by it, and otherwise transfer, part file and sidecar are gone and a negative ack was sent. No other transfer or file changes. |
| Receiving.ChunkStaysWhereItBelongs | core/transfer/session.py:775-857 | Over every run, while a transfer goes on, each chunk that was kept lies in the part file at the offset it carried. |
| Receiving.OfferIsAcceptedIff | core/transfer/session.py:598-761 | For every state and offer: exactly what it is refused for, and otherwise the transfer on its terms, its destination, and the offset it starts and is answered with. |
| Receiving.OfferOnDisk | core/transfer/session.py:613-761 | What an offer does to the directory: accepted, the part file has exactly the bytes it goes on with; refused, nothing appears or changes. |
| Receiving.ReusableIffUsable | core/transfer/session.py:636-655 | A partial is gone on with only if it has a whole chunk and its name is free and passes the sanitizer, and exactly then if the sanitizer leaves the name alone. |
| Receiving.ChunkWritesNews | core/transfer/session.py:245-271 | Any sidecar a chunk leaves that was not there just so speaks for its transfer: its terms, one of its two peers, the time, and whole chunks received. |
| Receiving.OfferWritesNews | core/transfer/session.py:745-757 | So does any sidecar an offer leaves. |
| Receiving.StopKeepsBytes | core/transfer/session.py:193-232 | A stop keeps the bytes of the partial, syncs them if it can, and records all but less than a chunk of them under the peer that offered. |
| Receiving.StopsOne | core/transfer/session.py:335-374 | It removes that transfer and no other, sends nothing, and leaves only such sidecars. |
| SessionSafety.PlanIsSafe | core/transfer/session.py:613-673 | For an ordinary offered name the destination settled is ordinary, free and held by nobody, and a resume starts inside the part file. |
| SessionSafety.DoneDeliversExactlyWhatVerifies | core/transfer/session.py:885-931 | Success is answered exactly when size and hash are as offered; that content appears, at a path that was unused, exactly when the rename then succeeds too, and a failed one changes nothing on disk; without success the partial is gone. |
| SessionSafety.SweepHarmlessIffNoActiveExpired | core/transfer/partial.py:255-282 | The sweep keeps the invariant if and only if no active transfer's sidecar has expired. |
| SessionSafety.PartNamesCollide | core/transfer/session.py:613-673 | Two offers, one named like a part file, make a destination coincide with another's part file. |
| Deciding.OfferKeepsPathsDisjointIff | core/transfer/session.py:613-761 | For any offered name, an accepted offer keeps the destination, part and sidecar paths of active transfers apart if and only if its destination is nobody's sidecar and neither of its companions is anybody's destination. |
| Deciding.OrdinaryNamesPass | core/transfer/session.py:613-673 | Ordinary destinations always meet that condition. |
| Deciding.WaitStepKeepsInvIff | core/transfer/session.py:668-761 | With settling and deciding apart, a step keeps the session invariant if and only if it does not accept a destination taken meanwhile, or refuse a resume of one that is now being received. |
| Deciding.WaitRunKeepsInvIff | core/transfer/session.py:668-761 | The invariant holds throughout a run, answers arriving at any time, if and only if no decision in it is of those two kinds. |
| Deciding.SafeDecisionsDecide | core/transfer/session.py:668-761 | The same from the start of a session. |
| Deciding.TwoAnswersOneDestination | core/transfer/session.py:668-761 | Two offers of one name, answered after both are settled, end as two transfers with one destination. |
| Deciding.WaitStepKeepsSidecarsIff | core/transfer/session.py:668-761 | With settling and deciding apart, a step keeps the sidecars true if and only if it is neither one of the two failures nor a resume of a partial that meanwhile lost synced bytes or, its sidecar not being rewritten, has more of them committed. |
| Deciding.TrueDecisionsDecide | core/transfer/session.py:668-761 | Over every run from the start of a session, invariant and true sidecars hold throughout if and only if every step is of neither kind and every decision safe. |
| Deciding.LateResumeBreaksSidecar | core/transfer/session.py:722-745 | A run from an empty directory in which a late answer resumes a partial that was started over: zeros are filled in and recorded as committed. |
| Durability.StepKeepsSidecarsIffBenign | core/transfer/session.py:187-271 | A step keeps every sidecar's committed count within the fsynced prefix if and only if it is not one of the two failures described above. |
| Durability.RunKeepsSidecarsSafe | core/transfer/session.py:245-271 | Over every run of such steps, crashes included, committed is a chunk multiple no larger than the fsynced prefix. |
| Durability.RestartSafety | core/transfer/session.py:803-827 | A restart leaves a true sidecar exactly when it was rewritten, absent, or no larger than what the restart synced. |
| Durability.ResumeIsCommitted | core/transfer/partial.py:229-241 | Over a safe sidecar with its part file the resume offset is exactly the committed count. |
| Durability.CrashCostsLessThanInterval | core/transfer/session.py:854-855 | A crash between chunks costs every active transfer less than the commit interval, whatever the disk kept. |
| Durability.CrashLeavesAStart | core/transfer/session.py:125-166 | What a crash leaves, at any point of a run, is a directory to start from again. |
| Durability.EveryReachableDiskIsSafe | core/transfer/session.py:245-271 | In every disk state reachable from a start, committed is a chunk multiple no larger than the fsynced prefix. |
| Durability.EveryReachableCrashIsCheap | core/transfer/session.py:836-857 | In every such state a crash costs every active transfer less than the commit interval, and its sidecar still names it. |
| Durability.FailedFsyncBreaksSidecar | core/transfer/session.py:205-232 | A run from an empty directory: after an offer and a chunk, a failed fsync on disconnect leaves a sidecar that claims unsynced bytes. |
| Durability.OrphanedRestartBreaksSidecar | core/transfer/session.py:803-827 | A run from an empty directory: a resumed transfer restarted while the address has no peer leaves the old, larger count. |
| Durability.SweepDeletesActivePartial | core/transfer/partial.py:255-282 | From an empty directory: an offer accepted, another a week later, and the first transfer has lost its part file while active. |
| Resume.StreamIsReadChunks | core/transfer/chunker.py:28-45 | Following a stream step by step visits exactly the chunks of the file. |
| Resume.NextChunkIsInOrder | core/transfer/session.py:775-857 | The next chunk of an honest stream is never judged out of order: it extends the prefix, unless the disk refuses. |
| Resume.FinishDeliversSource | core/transfer/session.py:885-931 | After the last chunk, file_done acknowledges the source and delivers exactly it. |
| Resume.SysStepKeepsInv | core/transfer/session.py:598-761 | Each re-offer, chunk, disconnect, crash and unrelated message keeps every active part file a prefix of the source and every sidecar true. |
| Resume.SysRunKeepsInv | core/transfer/session.py:598-931 | The same over every run, with a sender that honours or ignores the resume offset. |
| Resume.CompleteStreamDelivers | core/transfer/session.py:885-931 | At any point of any run, a stream sent in full ends with the source delivered at a new path. |
| Resume.AcceptedOffsetIsValid | core/transfer/session.py:173-185 | The offset asked for in an accept always passes the sender's validation. |
| Resume.EveryReachableTransferIsTrue | core/transfer/session.py:598-931 | From the start of a session, over all disconnects, crashes and re-offers: an active part file is a prefix of the source, the next chunk is in order, and a stream sent in full delivers exactly the source at a new path. |
| FileTransfer.FileTransferSession.OnOffer | core/transfer/session.py:598-761 | Handling an offer is exactly the specified step: sweep, plan, decision, opening, sidecar, answer. |
| FileTransfer.FileTransferSession.Decide | core/transfer/session.py:674-761 | Once a destination is settled: the space and user decisions, then opening. |
| FileTransfer.FileTransferSession.Begin | core/transfer/session.py:700-761 | Opens or truncates the part file, writes the sidecar, registers the transfer and accepts. |
| FileTransfer.FileTransferSession.Abort | core/transfer/session.py:859-883 | Removes transfer, part file and sidecar and sends a negative acknowledgement. |
| FileTransfer.FileTransferSession.Checkpoint | core/transfer/session.py:245-271 | Syncs, then records the rounded count; a failed sync changes nothing. |
| FileTransfer.FileTransferSession.Restart | core/transfer/session.py:803-827 | Counters and part file start over, and the sidecar is reset through the address's peer. |
| FileTransfer.FileTransferSession.NoteFirstChunk | core/transfer/session.py:791-830 | Judges the first chunk of a resumed transfer: in order, a restart from zero, or to be aborted. |
| FileTransfer.FileTransferSession.Store | core/transfer/session.py:836-857 | Appends the chunk, advances the counters and checkpoints when due. |
| FileTransfer.FileTransferSession.OnChunk | core/transfer/session.py:775-857 | Any chunk, for any transfer, is exactly the step that Receiving.ChunkIsKeptIff describes. |
| FileTransfer.FileTransferSession.OnDone | core/transfer/session.py:885-931 | Exactly the specified verification, acknowledgement and delivery, for either outcome of the rename. |
| FileTransfer.FileTransferSession.Stop | core/transfer/session.py:335-374 | Syncs, records the rounded count and drops the transfer, keeping partial and sidecar. |
| FileTransfer.FileTransferSession.ConnectionLost | core/transfer/session.py:193-239 | Stops every transfer of the address and no other, each with its own disk outcomes. |
| FileTransfer.StopAllIsRun | core/transfer/session.py:193-239 | Losing a connection is a run of single stops, so every invariant of runs covers it. |
| Sender.StepKeepsInv | core/transfer/session.py:480-594 | Every event keeps state, task and notices consistent, keeps a terminal state, and takes no notice back. |
| Sender.FailsIff | core/transfer/session.py:321-402 | Exactly what fails a transfer that is not resolved, with one notice. |
| Sender.EndsOtherwiseIff | core/transfer/session.py:521-594 | It is rejected and completed exactly by a reject while the accept is awaited and by waking to a positive ack. |
| Sender.AdvancesIff | core/transfer/session.py:472-559 | It goes on from state to state exactly by the offer being sent, an accept, and file_done being sent; the offset is the one accepted or zero. |
| Sender.StreamsInOrder | core/transfer/session.py:532-549 | Chunks go out at the accepted offset and at every chunk size after it. |
| Sender.UnsentOfferIsForgotten | core/transfer/session.py:472-478 | An offer that could not be sent is forgotten whatever arrives later. |
| Sender.NeverBothSuccessAndFailure | core/transfer/session.py:321-333 | Under every interleaving success and failure are never both reported, and success exactly when COMPLETED. |
| Sender.ResolvedForGood | core/transfer_state.py:57-79 | Once terminal, the state never changes again. |
| Sender.SecondNoticeIffLateFailure | core/transfer/session.py:321-333 | A failure is reported a second time if and only if a send or read fails after the transfer had failed. |
| Sender.FailureCanBeReportedTwice | core/transfer/session.py:321-333 | A peer error during a send that then fails gives two notices. |
| Sender.EndedIsReportedIff | core/transfer/session.py:532-579 | Over every run, a transfer whose task has ended was reported if and only if its file was not found shorter than the accepted offset; if it was, it stays SENDING for good. |
| Sender.ShortenedFileEndsSilently | core/transfer/chunker.py:28-30 | A concrete resume of a file that was emptied meanwhile ends that way. |
| Sender.AcceptedTransferCompletesIff | core/transfer/session.py:472-519 | A transfer whose single accept has arrived can still complete if and only if it arrived in WAITING_FOR_ACCEPT, not while offer_file was sending. |
| Sender.PrematureAckIsLost | core/transfer/session.py:581-594 | A positive acknowledgement that arrives before the sender waits for it is dropped. |
| Sender.AckedTransferCompletesIff | core/transfer/session.py:561-594 | A transfer whose single positive acknowledgement has arrived can still complete if and only if it arrived while the sender awaited it. |
| Sender.CompletedMeansVerified | core/transfer/session.py:532-594 | With both peers running this code over an ordered channel, COMPLETED implies the receiver verified size and checksum. |
| Sender.CompletedMeansVerifiedFromStart | core/transfer/session.py:532-594 | The same from the start of the receiver's session on such a directory. |
| Sender.HearsTheAnswer | core/transfer/session.py:480-594 | What the receiver answered resolves the sender accordingly when it is heard. |
| Sender.OutgoingTransfer.FailTransfer | core/transfer/session.py:321-333 | Fails along the table, unregisters, wakes the waiting sender and reports. |
| Sender.OutgoingTransfer.AfterOffer | core/transfer/session.py:452-478 | The transfer is registered exactly when the offer was sent. |
| Sender.OutgoingTransfer.OnAccept | core/transfer/session.py:480-519 | Takes a valid offset, or zero, and starts sending only from the right state. |
| Sender.OutgoingTransfer.OnReject | core/transfer/session.py:521-530 | Rejects and reports only from a state that allows it. |
| Sender.OutgoingTransfer.OnCompleteAck | core/transfer/session.py:581-594 | Sets the acknowledgement while it is waited for; a negative one during sending fails the transfer. |
| Sender.OutgoingTransfer.OnError | core/transfer/session.py:376-402 | Only a terminal error fails the transfer. |
| Sender.OutgoingTransfer.OnDisconnect | core/transfer/session.py:241-243 | A lost connection fails the transfer. |
| Sender.OutgoingTransfer.StartTask | core/transfer/session.py:532-541 | Streaming starts at the accepted offset; an OSError fails the transfer, and a file shorter than that offset ends streaming without a word. |
| Sender.OutgoingTransfer.AfterSend | core/transfer/session.py:542-549 | A failed send ends streaming; otherwise the next chunk or file_done. |
| Sender.OutgoingTransfer.AfterDone | core/transfer/session.py:551-559 | The sender waits for the acknowledgement unless resolved meanwhile. |
| Sender.OutgoingTransfer.AfterAck | core/transfer/session.py:561-579 | The acknowledgement or its timeout resolves a transfer that still waits. |
| Trust.TrustStore.Check | core/trust/store.py:157-184 | The stored key and status decide, and nothing is written. |
| Trust.TrustStore.RecordFirstSeen | core/trust/store.py:198-227 | Inserts a pending device exactly when it is unknown and the policy allows it. |
| Trust.TrustStore.TouchLastSeen | core/trust/store.py:229-236 | Changes only the time. |
| Trust.TrustStore.ApproveDevice | core/trust/store.py:238-258 | Trusts a known device exactly when it is not revoked. |
| Trust.TrustStore.RevokeDevice | core/trust/revocation.py:25-45 | Revokes a known device exactly once, recording by whom. |
| Trust.TrustStore.RecordRotation | core/trust/store.py:274-370 | Refused for an invalid certificate or a revoked origin; else the pair is recorded once and trust carries over. |
| Trust.TrustStore.GetRotationChain | core/trust/store.py:381-421 | Terminates on every graph, cycles included, and returns exactly the connected component, each member once, ordered by introduction. |
| Trust.PredecessorComesFirst | core/trust/store.py:411-421 | In the chain a device precedes its successor, if that has no other predecessor and the device was introduced earlier. |
| Trust.TrustStore.CheckWithRotation | core/trust/store.py:423-473 | Unless the key changed: REVOKED exactly when some member of the component is revoked, TRUSTED exactly when none is and some is trusted. |
| Trust.RunExtends | core/trust/store.py:198-370 | Over any run keys never change, statuses only move forward and transitions are never lost. |
| Trust.CheckAnswers | core/trust/store.py:157-370 | For every operation, device and key, what check answers afterwards, told from what it answered before; an operation that raises changes nothing. |
| Trust.RaisesIff | core/trust/store.py:198-370 | When each operation raises, told from what check answers. |
| Trust.KeyIsTheOnePresented | core/trust/store.py:198-370 | Over every run a device has the key and the name of the operation that put it there: a first sighting, or the certificate of a trusted predecessor. |
| Trust.RevokerIsOnRecord | core/trust/revocation.py:25-45 | Over every run a device has an actor on record exactly if it is revoked, and then the one whose call revoked it. |
| Trust.TransitionsAreOnRecordOnce | core/trust/store.py:274-370 | Over every run each transition is on record once, and the latest certificate is there. |
| Trust.SightingIsDated | core/trust/store.py:198-236 | Only a sighting or a rotation to it changes the time of a device, to that of the call. |
| Trust.TaintIsPermanent | core/trust/store.py:423-473 | After any run from a tainted device, everything then connected to it is tainted and answered REVOKED or KEY_CHANGED. |
| Trust.OldMembersStayTainted | core/trust/store.py:381-473 | Every member of a component that is tainted stays tainted however the store changes. |
| Trust.TrustedIsGrounded | core/trust/store.py:238-370 | Every trusted device is reachable along recorded transitions from an approved one. |
| Trust.EveryTrustTracesToApproval | core/trust/store.py:238-370 | So is every device that was trusted at any point of a run. |
| Trust.TrustedVerdictIsEarned | core/trust/store.py:423-473 | A TRUSTED verdict implies no taint, and a connected member whose trust goes back to an approval. |
| Groups.GroupStore.CreateGroup | core/group/store.py:286-324 | Refused for an existing id; else group and founding admin are recorded together. |
| Groups.GroupStore.RecordMembership | core/group/store.py:338-400 | Recorded exactly when the group exists, the issuer is an active admin, the signature holds and there was no membership. |
| Groups.GroupStore.ProcessJoinResponse | core/group/store.py:449-469 | Applied exactly when approved, signed by an active admin, and matching its certificate. |
| Groups.GroupStore.RevokeMembership | core/group/store.py:428-440 | Only an active admin revokes an active membership. |
| Groups.GroupStore.RecordRevocation | core/group/store.py:521-537 | The same with the admin's signature. |
| Groups.GroupStore.ProcessLeaveRequest | core/group/store.py:471-497 | A member leaves by itself unless the policy requires an admin. |
| Groups.GroupStore.ProcessLeaveResponse | core/group/store.py:499-519 | Applied exactly when approved, signed by an active admin, and matching its revocation. |
| Groups.GroupStore.MarkMembershipRevoked | core/group/store.py:539-569 | An active membership becomes revoked, with its actor; anything else is refused. |
| Groups.GroupStore.SetPolicy | core/group/store.py:573-638 | Set for an existing group by nobody in particular or by an active admin. |
| Groups.GroupStore.AddAdmin | core/group/store.py:654-702 | Only an active admin adds a device that never had an admin row. |
| Groups.GroupStore.RemoveAdmin | core/group/store.py:704-736 | Only an active admin that is not the last one is removed. |
| Groups.RemovableIffAnotherAdmin | core/group/store.py:712-719 | The count of active admins exceeds one exactly when somebody else is left. |
| Groups.EveryGroupIsLed | core/group/store.py:286-736 | In every reachable state each group has an active admin, and exactly the founder's row has nobody who added it. |
| Groups.RemovalIsPermanent | core/group/store.py:539-736 | Over any run removed admins and revoked members never become active again, and keys and origins never change. |
| Groups.AuthorityTracesToFounder | core/group/store.py:654-702 | Every admin descends from the founder through added_by, each appointed by somebody who was an active admin at that moment. |
| Groups.MembershipWasIssuedByAdmin | core/group/store.py:338-400 | Every membership was issued by somebody who was an active admin at that moment. |
| Groups.MembersAfter | core/group/store.py:338-569 | For every operation, who is a member afterwards: exactly those enrolled by a valid certificate of an active admin, and those who were and are not dismissed by an admin or, if the policy lets them, by themselves. |
| Groups.AdminsAfter | core/group/store.py:286-736 | Likewise who is an admin: an admin is removed exactly if another is left. |
| Groups.GroupsAfter | core/group/store.py:286-638 | Which groups there are and which policy each has. |
| Groups.MembershipWasSigned | core/group/store.py:338-469 | In every run each membership was written by an operation whose signatures were valid, with the key and issuer of its certificate. |
| Groups.DismissalIsOnRecord | core/group/store.py:428-569 | In every run a membership that is over was ended by such an operation, whose actor is on record. |
| Groups.AdminKeyIsTheOneGiven | core/group/store.py:286-702 | In every run an admin has the key and the appointer of the operation that made it one. |
| Groups.RemovalIsOnRecord | core/group/store.py:704-736 | In every run an inactive admin was removed by whom it says, while another was left. |
| Groups.CommittedRaisesIffEmptyId | core/group/store.py:776-823 | In every reachable state an operation that was committed raises all the same if and only if its group id is empty. |
| Groups.EmptyIdIsCreatedAndRaises | core/group/store.py:286-324 | Creating the group with the empty id raises, and group and founder are there. |
| Export.VerifyExportCapability | core/group/export_auth.py:306-366 | True exactly when unexpired and some key verifies the signature. |
| Export.CapabilityStore.StoreCapability | core/group/store.py:865-895 | Stored as unused exactly when unexpired and signed by a given key; an old row under the id is replaced. |
| Export.CapabilityStore.MarkCapabilityUsed | core/group/store.py:920-926 | The row, if any, is burned. |
| Export.CapabilityStore.Check | core/group/policy.py:391-476 | The loop over groups with its burning and its early denial, proved equal to the gate. |
| Export.BurnedWereSpendable | core/group/policy.py:405-451 | Each burned capability was unused, unexpired and matched device, file or wildcard, and group; a pass burns exactly one per restricting group. |
| Export.BurnedWereEligible | core/group/store.py:897-918 | Every row burned was unused, with now before its expiry, for this device and that group, and for "*" or this file; a pass burned one per restricting group. |
| Export.IneligibleRowsDoNotMatter | core/group/policy.py:405-451 | A row eligible for none of the groups is never burned, and without it every check gives the same verdict and burns the same rows. |
| Export.CapabilityForAnotherFile | core/group/export_auth.py:236-245 | So a capability made out for another file lets nothing through. |
| Export.PassesIff | core/group/policy.py:391-476 | An export passes if and only if every restricting group has such a capability verified by the call's keys: those given, or the first restricting group's. |
| Export.PassesOnRows | core/group/policy.py:405-451 | A check passes only if each restricting group has an eligible row that a key verifies, and passes if each has one and all of them are verified. |
| Export.PurgeChangesNoVerdict | core/group/store.py:953-960 | Purging expired and used capabilities changes no later verdict and no capability that is burned. |
| Export.OneGroupDecidesByItsOwnAdmins | core/group/policy.py:412-430 | With at most one restricting group the verdict is that of its own admins. |
| Export.DecidedByOwnAdminsIff | core/group/policy.py:405-451 | For any list of restricting groups: over all tables and signatures the verdict is that of every group's own admins if and only if all list the same keys as the first, or the first lists none. |
| Export.LedGroupsDecideIff | core/group/policy.py:412-430 | With the admins of a reachable group store the condition is that all restricting groups list the same keys. |
| Export.OwnAuthorisationOverruled | core/group/policy.py:412-430 | An export that the admins of both groups authorised is refused, because the second is judged by the keys of the first. |
| Export.ExportRightsAreConserved | core/group/store.py:865-926 | Over any run, per group and device, exports let through plus unused capabilities never exceed capabilities stored. |
| Export.PassChargesEveryGate | core/group/policy.py:405-451 | A pass is charged to every restricting group the call looked at. |
| Export.UsedTwiceMeansStoredBetween | core/group/store.py:865-926 | Over any run a capability is burned a second time only if it was stored in between. |
| Export.UsedPassesAgainIffStoredAgain | core/group/store.py:865-926 | A burned capability lets another export through after a step, by whatever calls, if and only if that step stores it again. |
| Export.PassesAsOftenAsStored | core/group/store.py:884-894 | For every n there is a run that stores one capability n times and passes n times. |
| Signing.TakePackedItems | core/group/export_auth.py:98-115 | Length-prefixed fields are parsed back exactly, whatever follows. |
| Signing.DomainIsDetermined | core/group/admin.py:38-40 | No domain tag is a prefix of bytes that another tag begins. |
| Signing.OutsideTheHandshake | core/crypto/handshake.py:156-166 | No other signed payload begins like a handshake transcript. |
| Signing.SameBytesIffSamePayload | core/group/export_auth.py:211-232 | Two payloads have the same signed bytes if and only if they are of one kind with the same fields, a missing optional field counting as empty. |
| Signing.ApprovalFieldsInOrder | core/group/admin.py:174-185 | Whoever reads the fields of a signed approval finds group, action and content in this order after its tag. |
| Signing.RequestFieldsInOrder | core/group/export_auth.py:98-115 | Likewise the seven fields of a signed request. |
| Signing.CapabilityFieldsInOrder | core/group/export_auth.py:211-232 | Likewise the ten fields of a signed capability. |
| Signing.UpdateFieldsInOrder | core/connectivity/endpoint_update.py:182-199 | Likewise the six fields of a signed endpoint update. |
| Signing.UnsignableIff | core/group/export_auth.py:211-232 | Exactly what cannot be signed: a text of four gigabytes, a number not of 32 bits, a double not of eight bytes. |
| Signing.CountVerified | core/group/admin.py:147-160 | The loop counts exactly the active admins whose signature verifies. |
| Signing.ThresholdApproval.SignApproval | core/group/admin.py:101-112 | A second vote of one device is refused and changes nothing. |
| Signing.ThresholdApproval.CountValidSignatures | core/group/admin.py:147-160 | Counts exactly the active admins whose signature verifies. |
| Signing.ThresholdApproval.IsApproved | core/group/admin.py:163-166 | True exactly when that count reaches the threshold. |
| Signing.ApprovalMeansSigned | core/group/admin.py:147-185 | Approval means at least k active admins signed bytes that only this group's this action has. |
| Signing.CountsKeysIffOneEach | core/group/admin.py:147-160 | For all collections of signatures the count is the number of different keys that verify, if and only if no two active admins are registered with the same key. |
| Signing.SharedKeyVotesTwice | core/group/admin.py:147-160 | Two ids with one key let one signature count twice. |
| Link.UnpackEndpoints | core/connectivity/link.py:295-322 | The loop over the buffer equals reading endpoint after endpoint. |
| Link.TakesPacked | core/connectivity/link.py:273-322 | A packed endpoint is read back in canonical spelling and ends where it ends. |
| Link.TakenIsPacked | core/connectivity/link.py:273-322 | An endpoint that is read is exactly what packing it writes. |
| Link.UnpackOfPack | core/connectivity/link.py:269-322 | Packed lists are read back in canonical spelling and the walk stops exactly at their end. |
| Link.PackOfUnpack | core/connectivity/link.py:269-322 | Whatever is read is what packing it would have written there. |
| Link.EscapesIffAddressCutShort | core/connectivity/link.py:189-207 | The walk over the endpoints ends in a ValueError if and only if, after well-formed endpoints, an address tag has too few bytes left. |
| Link.DecodeEscapesIff | core/connectivity/link.py:189-222 | Decoding raises a ValueError if and only if the plaintext has the least length and an address within the announced endpoints is cut short. |
| Link.FourthAddressEscapes | core/connectivity/link.py:189-207 | Every plaintext of 101 bytes that announces four endpoints, all tagged as addresses of sixteen bytes, raises it. |
| Link.DecodeLink | core/connectivity/link.py:189-222 | The offset walk, proved equal to the specified decoding. |
| Link.DecodeOfCreate | core/connectivity/link.py:142-150 | A created link decodes to its key, canonical endpoints and time, with the signature found where it was put. |
| Link.UnsignableIff | core/connectivity/link.py:129-150 | Exactly what cannot be signed: no or too many endpoints, one that cannot be packed, or a time that does not fit. |
| Link.TrailingBytesAreIgnored | core/connectivity/link.py:189-222 | Bytes after the signature change nothing. |
| Link.AcceptedWasSigned | core/connectivity/link.py:189-222 | What decoding accepts, a link without endpoints included, the key's owner signed as exactly those endpoints and that time. |

## Left out

- Handlers are atomic steps, except that `Deciding` separates settling an offer from deciding it; the truncation and sidecar reset of a restart are one step.
- SessionSafety.RunKeepsInv: runs are about offers with ordinary names and sweeps that meet no expired active transfer; what happens otherwise is the subject of Deciding.OfferKeepsPathsDisjointIff and SessionSafety.SweepHarmlessIffNoActiveExpired.
- Deciding.WaitRunKeepsInvIff: the space check belongs to settling, and a part file that opens for a resume is a file that is there.
- Removals succeed: `discard` swallows a failing os.remove, after which a partial thrown away is still there.
- A sidecar write is atomic and durable when it succeeds; only part files distinguish written from fsynced bytes.
- The sanitising of file names is a parameter; so are the directory listing order, free space, the user's decision and the peer behind an address.
- Symbolic links, real paths and the size limit of a sidecar file are not part of the disk model.
- The replies to unknown transfers and their one-time reporting, progress notices, events and logging are not modelled.
- FileReceiver, FileSender and the transfer manager, a simpler parallel path that the session does not use.
- JSON text: canonical JSON is an injective function without newlines, and message schemas and the JSON parsing of a decrypted frame are not modelled.
- Real cryptography, base64, hexadecimal and address parsing: parameters with the laws they are used for.
- Secure.SecureChannel.EncryptMessage: the associated data is always empty, as in every call of the program, and closing the connection on an exhausted counter is not modelled.
- Relay.ConnectionManager.EndSession: does not model the map from a tunnelled session to the address it runs over, nor the event published at the end.
- Handshake.Device.TakeResponse: a missing trust store, timeouts and the late failure on an unusable ephemeral key are not modelled; the exchange is a function whose failure is no key.
- Clock readings: one per call, except in endpoint updates, where the two readings are separate.
- The clock, and the times in capabilities and certificates, are reals where they are compared; signed times are eight-byte representations. Only the times in endpoint updates and sidecars can be infinite or NaN, and none is an integer too large for a float.
- Export.CapabilityStore.Check: get_valid_capability is the database's first row, any choice with the latest expiry.
- Group names, times and roles in certificates, audit log contents, the communication matrix and inter-group rules.
- The payloads of join, leave, revocation, policy, membership, rotation and audit signatures; only their domain tags take part in the separation results.
- The add-by-link outer layer (PIN, key derivation, encryption, base64) is left to its library functions; decoding starts at the plaintext.
- Discovery, rendezvous, the vault, chat and the user interface.
