# LFT/1 transfer engine

A model of the transfer engine in `src/transfer`: a sender (`QuicClient::send_file_internal` and its stream
callbacks), a receiver (`QuicServer::receive_file` on its own thread beside its stream callbacks) and the two byte
streams between them, with the header codec, the digest text and the send blocks they rest on.

The files, from the bottom up:

- `ByteStrings`, `FileNames`, `Decimals`, `Digests`, `HeaderCodec`: text. Each loop of the source is a method proved equal
  to a function; `HeaderTheorems` has the framing, round trip, stability and forward compatibility of the format,
  `WireFormat` says it in characters and numbers.
- `Receiver`, `Sender`: what each callback, and each stretch between two waits, does to the fields, as functions.
  `QuicServer`, `QuicClient` are the objects with those fields; their methods update them in place and are proved to
  compute these functions, up to whole calls of `receive_file` and `send_file_internal`.
- `ReceiverLaws`, `SenderLaws`: what they do in each situation the source tells apart, and how a sender's call ends.
- `Fragmentation`: the incremental receiver against the one-shot function of the whole stream, and its answers;
  `PromptAcceptance`: the answers with a prompt.
- `ServerRuns`: `receive_file` beside its callbacks, against an arbitrary peer; `Outcomes`, `Reasons`: where it then writes,
  what it reports, why it failed and what it leaves behind.
- `Transfer`, `TransferSteps`, `Safety`: both ends and the stream; the invariant; the end-to-end theorems.
- `Progress`, `ProgressSteps`, `Completion`: runs without timeouts and transport faults finish, and in agreement.
  `HonestRuns`: honest transfers deliver. `Verdicts`, `Agreement`: when `receive_file` agrees with the OK it gave, and
  that it need not. `Silence`: the failures that no answer reports. `Finishing`: which runs can still finish.
- `Runs`: runs of any of these state machines.
- `SendBlocks`: who owns the memory behind each send.

The transport is taken at its contract: each direction is a reliable ordered byte stream (section 2.2 of RFC 9000),
delivered in arbitrary fragments with the FIN last; abort events (sections 19.4 and 19.5) may come at any time; a
taken send completes once. Opening, writing and sending may fail at any point, waits may time out, the user's answer
and the content read back from the disk are arbitrary. The digest is an arbitrary function on byte strings, or in
`Digests` an incremental one with update(a); update(b) = update(a ++ b), where updating with nothing changes nothing and
the digest has 32 bytes.

Findings about the code that the theorems record as they are:

- Fragmentation matters for a header that ends later than 64 KiB + 1 bytes, because the cap is looked at only after a
  failed decode (`Fragmentation.FragmentationIndependence`, `Fragmentation.LateHeaderSplit`).
- `encode_file_header` does not check its hash; the round trip holds for exactly the valid ones
  (`HeaderTheorems.RoundTrip`). `send_file` only builds valid ones (`Digests.HexIsValid`),
  which is what the theorems on both ends assume.
- `receive_file` can return false for a file it verified and answered with OK (`Agreement.OkButReportedFailed`). It
  returns true exactly when OK was answered and its last wait is woken after a SEND_COMPLETE that followed the FIN, with
  no abort event between the FIN and the wake (`Verdicts.TrueIffOkAndWon`).
- Some failures a real sender is never told of, and learns of by its timeout: without a prompt, an output that cannot be
  opened; a header over the cap that is refused; a header of which anything arrived before `receive_file` was armed; a
  first answer that the transport refuses. No later event helps (`Silence.SilencedForGood`). Among undisturbed runs the
  first and third are exactly the ones that cannot finish without a timeout (`Finishing.FinishesIffHeard`). From any
  other peer, a short undecodable stream gets no answer either (`Fragmentation.ExactAnswers`).

## Model

| member | source | states |
|---|---|---|
| Safety.SenderSuccessMeansDelivered | src/transfer/quic_client.cpp:422-557 | In every run of both ends, in both modes, with any fragmentation, interleaving, timeout, abort or fault: if `send_file_internal` returns true, the receiver read the header that was sent, its output took exactly the body bytes the sender read, as many as declared, the file read back has the announced digest, the user consented, nothing was rejected, and the answers were ACCEPT then OK |
| Safety.SenderSuccessMeansSameDigest | src/transfer/quic_server.cpp:360-365 | The same with an incremental digest: the 32 bytes computed from the file read back are the ones the announced text denotes, in either case of its letters |
| Safety.RunsKeepInv | src/transfer/quic_client.cpp:422-557 | Every run of sender, receiver and stream keeps the system invariant that the theorems of this module are read from |
| TransferSteps.StepKeepsInv | src/transfer/quic_server.cpp:160-384 | Each single step of either end, with anything the environment may do in it, keeps that invariant |
| TransferSteps.NothingBeforeAccept | src/transfer/quic_client.cpp:467-488 | While any body byte or FIN is in the channel, the receiver has accepted and ACCEPT was its first answer |
| TransferSteps.BufferedHeader | src/transfer/quic_server.cpp:282-289 | The receive buffer is a stretch of the wire, and if it decodes it is the whole header of this transfer and nothing else |
| TransferSteps.OnlyWholeHeaderDecodes | src/transfer/quic_transfer.cpp:78-147 | Of all contiguous pieces of an encoded header only the whole of it decodes, and to what was sent |
| TransferSteps.ReceiveKeepsInv | src/transfer/quic_client.cpp:130-147 | Answers cut up in any way leave the first of them in the decision buffer and the rest in the acknowledgement |
| Safety.ConsentBeforeData | src/transfer/quic_server.cpp:630-654 | In every run, no body byte and no FIN is on the wire, and no output file exists, unless no prompt is registered or it said yes; and with data on the wire the output is open or closed, accepted, and ACCEPT was answered |
| Safety.BodyMeetsOpenOutput | src/transfer/quic_server.cpp:282-299 | Every delivered fragment that reaches past the header finds `file_accepted_` set, the header parsed and the output already opened |
| Safety.RepliesRouted | src/transfer/quic_client.cpp:130-155 | In every run `decision_buf_` followed by `file_ack_` is what was delivered of the answers; once resolved the decision is the first answer and holds none of the verdict's bytes; and the final result is true exactly when the answers were ACCEPT then OK |
| Safety.DecisionFinal | src/transfer/quic_client.cpp:60-68 | The decision is resolved at most once: whatever happens after it, the decision and its buffer stay as they were |
| Safety.FinIsLast | src/transfer/quic_client.cpp:490-537 | In every run FIN goes out at most once and last: once it is out no send is attempted again and the wire stays what it is |
| SenderLaws.FailuresAbort | src/transfer/quic_client.cpp:455-551 | In every run of the sender: the stream is aborted exactly if the call fails before its last wait is over, so the receiver is told of every other failure; a failure of the last wait finds all content and FIN sent; success never aborts; rejected means failed and aborted |
| SenderLaws.DecisionRead | src/transfer/quic_client.cpp:133-146 | While a decision is awaited the first newline settles it: accepted exactly if the buffer begins with the six letters of ACCEPT |
| SenderLaws.DecisionCollected | src/transfer/quic_client.cpp:137-144 | Until then bytes are only collected |
| SenderLaws.AckRead | src/transfer/quic_client.cpp:139-141 | After it bytes are acknowledgement and conclude nothing |
| SenderLaws.EndRead | src/transfer/quic_client.cpp:149-155 | The end of the answers settles what is open, by the letters ACCEPT or OK at its beginning, newline or not |
| SenderLaws.DecisionTakenUp | src/transfer/quic_client.cpp:467-488 | ACCEPT goes on; anything else is a rejection and aborts the stream |
| SenderLaws.EmptyBegun | src/transfer/quic_client.cpp:491-496 | An empty file is a bare FIN and its source is not opened |
| SenderLaws.SourceBegun | src/transfer/quic_client.cpp:501-506 | A source that cannot be opened aborts the stream |
| SenderLaws.ChunkGone | src/transfer/quic_client.cpp:514-536 | A chunk goes out whole, with FIN exactly when it is the last; an empty read or a refused send sends nothing and aborts |
| Safety.OkMeansOk | src/transfer/quic_client.cpp:149-155 | When the answer stream has ended, the sender's verdict is true exactly when the answers were ACCEPT then OK |
| ServerRuns.ReceiverSound | src/transfer/quic_server.cpp:334-384 | Against any peer and any order of fragments, timeouts, aborts, completions, faults and user answers: `receive_file` returns true only with a verified file and OK on the wire; OK goes out only for a verified file; verified means the declared size, the declared digest of the file read back, no overflow, no I/O error, and consent |
| ServerRuns.ConsentFirst | src/transfer/quic_server.cpp:630-654 | In every such run an output file exists only with consent, ACCEPT only with consent and an opened output, and REJECT is the only answer of its stream |
| ServerRuns.HeaderMissingUnreachable | src/transfer/quic_server.cpp:351-353 | On every run, when the FIN is handled the branch "file header not received" is not the one taken |
| ServerRuns.StepKeepsInv | src/transfer/quic_server.cpp:160-208 | Every callback and every segment of `receive_file` keeps the receiver's invariant on output, acceptance, phases, success and answers |
| ServerRuns.BodyCount | src/transfer/quic_server.cpp:305-321 | A write never takes the count past the declared size, and the count is what the output holds |
| ServerRuns.FinishedEffect | src/transfer/quic_server.cpp:334-384 | `finish_file_receive` closes the output, answers OK exactly when every check passed and FAIL otherwise, and wakes the waiter itself only if that send is refused |
| Outcomes.OutputStaysInside | src/transfer/quic_server.cpp:234-239 | In every run, whatever a peer announces, the only file ever opened is the one asked for or a direct child of the directory asked for, with a canonical name, put together as above |
| Outcomes.SuccessReported | src/transfer/quic_server.cpp:339-375 | A `receive_file` that returns true reports the declared size, equal to what the output took, and a computed digest equal to the expected and declared one |
| Outcomes.FinishedReports | src/transfer/quic_server.cpp:339-375 | The result after the checks: bytes counted, digest expected and computed, and the first failure as the error, except that an earlier I/O error keeps its text |
| Outcomes.StepKeeps | src/transfer/quic_server.cpp:160-384 | Each step keeps the settled output path and the reported result |
| Reasons.RefusalsTold | src/transfer/quic_server.cpp:217-227 | In every run against any peer: a header refused over the cap has woken `receive_file`, whose wait for an offer or for the verdict can end at once; without a prompt a parsed and unaccepted header has one of two reasons; and the result says rejected exactly when the user said no |
| Reasons.ReturnCloses | src/transfer/quic_server.cpp:664-676 | In every run, when `receive_file` returns no output is left open |
| Reasons.StepReasons | src/transfer/quic_server.cpp:160-208 | Each step keeps the relation of reasons, flags and output, and only a no of the user makes a rejection |
| ReceiverLaws.ArmedIsFresh | src/transfer/quic_server.cpp:569-589 | Whatever an earlier transfer left, arming leaves no header, output, count, error, offer, verdict or result, and the path asked for |
| ReceiverLaws.StartedIsFresh | src/transfer/quic_server.cpp:139-153 | ... and a new stream leaves none of its own, and what `receive_file` was armed with alone |
| ReceiverLaws.TooLongWakes | src/transfer/quic_server.cpp:217-227 | More than 65536 bytes without a header: done, failed, with the reason, nothing kept, nothing said |
| ReceiverLaws.ShortWaits | src/transfer/quic_server.cpp:217-229 | Up to 65536 bytes without a header are kept and change nothing else |
| ReceiverLaws.HeaderOffered | src/transfer/quic_server.cpp:231-249 | With a prompt a decoded header is offered; nothing is opened, written or said |
| ReceiverLaws.HeaderAccepted | src/transfer/quic_server.cpp:251-266 | Without one, and with an output that opens: accepted, the trailing body written up to the declared size, and ACCEPT said exactly if the transport takes it |
| ReceiverLaws.HeaderUnopened | src/transfer/quic_server.cpp:251-255 | ... and with one that does not: the reason is kept, nothing is accepted or said |
| ReceiverLaws.BodyWritten | src/transfer/quic_server.cpp:305-325 | Of each stretch of body exactly what is left of the declared size is written and counted; more sets the overflow flag |
| ReceiverLaws.WriteFails | src/transfer/quic_server.cpp:313-320 | A failed write records its reason and leaves output and count alone |
| ReceiverLaws.BodyDropped | src/transfer/quic_server.cpp:291-299 | Before acceptance, after an error and without an open output body bytes change nothing |
| ReceiverLaws.FinJudged | src/transfer/quic_server.cpp:343-384 | At the FIN of an accepted transfer the first failing check gives the reason, in this order: more bytes than declared, another number of bytes, a file that cannot be read back, another digest; OK goes out exactly if none fails |
| ReceiverLaws.FinAfterError | src/transfer/quic_server.cpp:345-350 | The FIN after an error keeps its reason and is answered FAIL |
| ReceiverLaws.FinIgnored | src/transfer/quic_server.cpp:171-177 | A FIN that nobody waits for, or of a transfer neither accepted nor failed, changes nothing |
| ReceiverLaws.VerdictRefused | src/transfer/quic_server.cpp:377-382 | A verdict the transport refuses wakes the waiter with failure |
| ReceiverLaws.CompletionSeen | src/transfer/quic_server.cpp:179-184 | Only the completion of the final answer wakes the waiter, with its verdict |
| ReceiverLaws.AbortSeen | src/transfer/quic_server.cpp:186-197 | An abort event: failure, a closed output, its own reason only if there is none |
| ReceiverLaws.DeclineSeen | src/transfer/quic_server.cpp:632-640 | A no: REJECT if the transport takes it, and a result that says rejected by the receiver |
| ReceiverLaws.OfferedUnopened | src/transfer/quic_server.cpp:644-650 | A yes and an output that does not open: REJECT too, with another reason, and not called a rejection |
| ReceiverLaws.OfferedOpened | src/transfer/quic_server.cpp:644-654 | A yes and an output that opens: truncated, then accepted, then said, in three steps |
| ReceiverLaws.OfferAwaited | src/transfer/quic_server.cpp:611-625 | The wait for an offer: a failure comes first and returns false without asking, then the question, then the timeout |
| ReceiverLaws.VerdictAwaited | src/transfer/quic_server.cpp:659-674 | The last wait: success drains before it returns; failure and timeout return at once, disarmed, with the output closed |
| ReceiverLaws.DrainOver | src/transfer/quic_server.cpp:595-605 | The drain ends disarmed with the outcome it was for |
| Verdicts.TrueIffOkAndWon | src/transfer/quic_server.cpp:171-197 | Against any peer, with any timeouts, aborts and faults: a `receive_file` that has returned, returned true if and only if OK was answered and, by the events alone, its last wait was woken after a SEND_COMPLETE that came after the FIN, with no abort event between the FIN and the wake |
| Verdicts.AnsweredOkReturnsTrue | src/transfer/quic_server.cpp:659-676 | So in runs without any abort event and without a timeout of the last wait, true and OK go together |
| Agreement.OkButReportedFailed | src/transfer/quic_server.cpp:659-671 | Agreement is one-directional: every honest transfer of an empty file has a run in which the sender succeeds, the file is verified and OK answered, and `receive_file` returns false; one with a timeout and no abort event, and one with an abort event and no timeout |
| Silence.SilencedForGood | src/transfer/quic_server.cpp:210-266 | In every run, in both modes and for headers of every length: once the output failed to open without a prompt, the header was refused over the cap, the beginning of the header was dropped because `receive_file` was not armed, or the time of the first answer went by without one (the transport refused it), every continuation has no answer, no decision, no body byte, no FIN, and neither end reports success |
| Finishing.FinishesIffHeard | src/transfer/quic_server.cpp:162-169 | In both modes, a run that is undisturbed except that data may come before `receive_file` is armed and the output may fail to open can be continued without timeouts until both ends have returned if and only if no data came before it was armed and, without a prompt, the output has not failed to open |
| Finishing.UnopenableStalls | src/transfer/quic_server.cpp:251-255 | Every transfer without a prompt has a run to where the output failed to open, both ends wait, neither has returned, and nothing is in transit |
| Finishing.EarlyHeaderStalls | src/transfer/quic_server.cpp:162-169 | Every transfer, with or without a prompt, has a run to where the whole header came before `receive_file` was armed, with the same standstill |
| Fragmentation.FragmentationIndependence | src/transfer/quic_server.cpp:210-267 | In auto-accept mode without I/O faults the state after a stream is the same for every fragmentation if and only if its header, when there is one, ends within 64 KiB + 1 bytes |
| Fragmentation.FedIsOneShot | src/transfer/quic_server.cpp:282-326 | That state is a one-shot function of the stream: same header, the first min(size, body) body bytes written, overflow exactly when there was more |
| Fragmentation.LateHeaderSplit | src/transfer/quic_server.cpp:217-227 | A header that ends later is accepted when the stream is fed in one piece, and refused when a first fragment passes the cap without it |
| Fragmentation.LateHeaderExists | src/transfer/quic_server.cpp:217-227 | There are such streams: the encoding of a valid header with a name of 70000 letters |
| Fragmentation.BodyGrows | src/transfer/quic_server.cpp:305-321 | While writing, `size - bytes_written` does not underflow, and one more fragment extends the written prefix |
| Fragmentation.ExactAnswers | src/transfer/quic_server.cpp:282-384 | In auto-accept mode without faults, for every stream in every fragmentation: FAIL alone at FIN if at some fragment boundary the cap was passed without a header; else ACCEPT, OK exactly for a decodable header followed by exactly `size` bytes with its hash; ACCEPT, FAIL for any other decodable header; no answer for a short undecodable stream |
| Fragmentation.OkIffGenuine | src/transfer/quic_server.cpp:282-384 | So OK is answered if and only if the stream is genuine and no fragment boundary passed the cap before the header was whole |
| Fragmentation.ExactAcceptance | src/transfer/quic_server.cpp:282-384 | In auto-accept mode, without faults, and with the header, if any, within 64 KiB + 1 bytes, the answers depend on the stream alone, the over-long undecodable one getting FAIL |
| ReceiverLaws.ExactErrors | src/transfer/quic_server.cpp:343-366 | In auto-accept mode without faults, for every stream in every fragmentation, the reason recorded at FIN: too large or malformed if the cap was tripped; more bytes than declared, size mismatch or hash mismatch exactly for a body that is longer, shorter, or of another digest; none for a genuine one; and the bytes counted are the declared ones at most |
| PromptAcceptance.OkIffRight | src/transfer/quic_server.cpp:334-384 | With a prompt, against any peer and in every run without write failures, aborts and timeouts: the FIN is answered with OK if and only if, by the events alone, the bytes heard while a header was awaited decode, the user said yes and the output opened, and the bytes heard after `file_accepted_` was set are as many as declared and have the declared digest |
| Fragmentation.FedExactly | src/transfer/quic_server.cpp:210-267 | In auto-accept mode without faults, for any fragmentation and header length: the receiver is where the one-shot function puts it if no fragment boundary passed the cap without a header, and has refused the stream, not yet answered, otherwise |
| Completion.NeverStuck | src/transfer/quic_client.cpp:455-552 | In every reachable state of an undisturbed run that is not final, a step other than a timeout is possible. Undisturbed: header within the cap, sends taken, source readable and not shrinking, output openable unless prompted, aborts only from a sender that gave up, no fragment delivered before `receive_file` is armed, no empty delivery; the end of `drain_connection`, which has its own bound of 2 seconds, counts as a step and not as a timeout |
| ProgressSteps.EveryStepGood | src/transfer/quic_server.cpp:543-677 | Every undisturbed step keeps the progress invariant and strictly lowers the work measure (phase ranks, unsent bytes, bytes in flight, answers due) |
| Progress.WorkNonNegative | src/transfer/quic_server.cpp:543-677 | That measure is never negative, so it is well-founded |
| Completion.RunsAreBounded | src/transfer/quic_client.cpp:490-537 | An undisturbed run has at most 5 * (header bytes + size) + 41 steps |
| Completion.EveryRunCanFinish | src/transfer/quic_client.cpp:539-556 | Every undisturbed run can be continued until both ends have returned |
| Completion.UndisturbedRunsAgree | src/transfer/quic_server.cpp:659-676 | An undisturbed run that has ended, whether accepted, rejected or failed midway, ended in agreement: both ends report success exactly when OK was answered, and then the file was delivered; the sender reports rejection exactly when REJECT was |
| HonestRuns.HonestRunsDeliver | src/transfer/quic_server.cpp:543-677 | In both modes, for every content whose size and digest the header announces: an undisturbed run in which the source holds it, the user says yes, opening and writing succeed and the disk gives back what it was given, and that has ended, has ACCEPT and OK answered, exactly the content in the closed output, and success at both ends |
| HonestRuns.HonestRunsCanFinish | src/transfer/quic_client.cpp:422-557 | ... and every such run can be continued, in the same way, until both ends have returned |
| ProgressSteps.PendingHeader | src/transfer/quic_server.cpp:217-229 | While this transfer's header is short the buffer stays within the cap; the fragment that completes it brings nothing more |
| HeaderTheorems.RoundTrip | src/transfer/quic_transfer.cpp:65-147 | Decoding an encoding followed by anything gives sanitized name, size and lowercase hash and consumes exactly the encoding, if and only if the hash is 64 hex digits |
| HeaderTheorems.StrictPrefixFails | src/transfer/quic_transfer.cpp:78-84 | No strict prefix of an encoding contains a blank line, so none decodes |
| HeaderTheorems.LostBeginningFails | src/transfer/quic_transfer.cpp:101-105 | No piece of an encoding that lacks its beginning decodes |
| HeaderTheorems.DecodeStable | src/transfer/quic_transfer.cpp:81-146 | Once a blank line is present, success or failure stays the same on every extension of the data |
| HeaderTheorems.DecodedStable | src/transfer/quic_transfer.cpp:81-146 | A success stays the same success, with the same consumed count, on every extension |
| HeaderTheorems.FrameDecodes | src/transfer/quic_transfer.cpp:78-147 | A block of newline-free, non-empty lines ended by a blank line decodes to what its lines mean, whatever follows, and takes exactly the block |
| HeaderTheorems.BlankLineFrames | src/transfer/quic_transfer.cpp:86-106 | All data with a blank line is such a frame, and no line after the first is empty |
| HeaderTheorems.UnknownLinesIgnored | src/transfer/quic_transfer.cpp:106-131 | Lines with unknown keys inserted anywhere after the magic line change neither verdict nor header and move the consumed count by exactly their bytes |
| HeaderTheorems.FieldOrderIrrelevant | src/transfer/quic_transfer.cpp:106-138 | Permuting field lines with distinct known keys changes neither verdict nor header nor consumed count |
| HeaderTheorems.DecodedIsCanonical | src/transfer/quic_transfer.cpp:114-128 | Every decoded header has a canonical name, a 64-digit lowercase hash, and a consumed count within the data |
| HeaderTheorems.DecodedReencodes | src/transfer/quic_transfer.cpp:65-147 | Every decoded header is a fixed point of encoding and decoding again |
| HeaderTheorems.EncodeIsFrame | src/transfer/quic_transfer.cpp:65-76 | An encoding is the frame of its four lines |
| WireFormat.WireText | src/transfer/quic_transfer.cpp:65-76 | The text of an encoded header, and of the four answers, in letters |
| WireFormat.DecodesExactly | src/transfer/quic_transfer.cpp:78-147 | Data decode if and only if there is a blank line and before it the first line is LFT/1, every other line has an equals sign, every `size=` line parses, every `hash=` line is valid, and each of `name=`, `size=` and `hash=` begins some line |
| WireFormat.DecodedFields | src/transfer/quic_transfer.cpp:114-145 | ... and then name, size and hash are those of the last line that gives each, sanitized, read and lowercased, and the header takes all up to and with the blank line |
| WireFormat.NumberByCharacter | src/transfer/quic_transfer.cpp:17-25 | A size is read by decimal place, and below 18446744073709551616 only |
| WireFormat.HexByCharacter | src/transfer/quic_transfer.cpp:27-29 | Hex digits, their values and their lower case, by character |
| WireFormat.DigestByCharacter | src/transfer/quic_transfer.cpp:56-63 | A valid hash is 64 characters of 0-9, a-f, A-F |
| HeaderCodec.DecodeFileHeader | src/transfer/quic_transfer.cpp:78-147 | The scanner returns what the grammar says: split at newlines, last valid duplicate wins, one invalid known field or line without `=` fails, all three fields present |
| HeaderCodec.ScanBlock | src/transfer/quic_transfer.cpp:93-143 | The `find`/`pos` loop terminates and computes the meaning of the block's lines |
| HeaderCodec.ScanLine | src/transfer/quic_transfer.cpp:106-132 | One turn of the loop keeps header and flags equal to the last values among the lines seen |
| HeaderCodec.NameNeverEmpty | src/transfer/quic_transfer.cpp:140-143 | The final test for an empty name never decides anything |
| FileNames.SanitizeFileName | src/transfer/quic_transfer.cpp:33-54 | The erase, pop and replace loops compute the sanitized name |
| FileNames.MaskUnsafe | src/transfer/quic_transfer.cpp:48-52 | The in-place replacement masks exactly the unsafe bytes |
| FileNames.SanitizedIsCanonical | src/transfer/quic_transfer.cpp:33-54 | A sanitized name is never empty, "." or "..", has no separator and no byte below 0x20, and no white space at either end |
| FileNames.SanitizedCharacters | src/transfer/quic_transfer.cpp:33-54 | In characters: no slash, no backslash, no code below 32, neither end a space or a code 9 to 13, and not a dot name |
| FileNames.SanitizedExactly | src/transfer/quic_transfer.cpp:33-54 | For every name: directory part and outer white space go; nothing, "." and ".." become received.bin; otherwise every byte from 32 on but the backslash stays and every other becomes an underscore |
| FileNames.SanitizedFixesExactlyCanonical | src/transfer/quic_transfer.cpp:33-54 | Sanitizing is idempotent and leaves exactly the canonical names alone |
| FileNames.OutputIsDirectChild | src/transfer/quic_server.cpp:234-239 | Whatever name was announced, the output path is a direct child of the directory: the name alone for an empty directory, appended to one with a trailing slash, after a slash otherwise; and it begins with a slash exactly if the directory does |
| FileNames.TargetDirExactly | src/transfer/quic_server.cpp:553-557 | A path is taken for a directory exactly if it is empty, ends with a slash or a backslash, or is an existing directory |
| Decimals.ParseFullU64 | src/transfer/quic_transfer.cpp:17-25 | Digit by digit with overflow detected in 64 bits: accepts exactly non-empty digit strings below 2^64, with their value |
| Decimals.ParsedPrinted | src/transfer/quic_transfer.cpp:72-120 | Parsing a printed number gives it back if it is below 2^64 and fails otherwise |
| Decimals.PrintedParsed | src/transfer/quic_transfer.cpp:17-25 | Printing a parsed number gives the text back exactly when it had no superfluous leading zero |
| Digests.Sha256File | src/transfer/sha256.cpp:49-85 | Reading in 64 KiB blocks hashes to the same text as one update over the whole content |
| Digests.Sha256Bytes | src/transfer/sha256.cpp:27-47 | The text of a one-shot hash is lowercase, passes the header's own hash check and denotes the digest of the data; it is the text that block-wise hashing gives |
| Digests.DigestToHex | src/transfer/sha256.cpp:15-23 | The loop renders each byte as two lowercase hex digits in order |
| Digests.HexIsValid | src/transfer/quic_transfer.cpp:56-63 | A rendered digest passes the header's own hash check and denotes the digest |
| Digests.SameTextIffSameDigest | src/transfer/quic_server.cpp:363-366 | The string comparison at verification holds exactly when the header text, in either case, denotes the same 32 bytes |
| QuicServers.QuicServer.AppendFileBytes | src/transfer/quic_server.cpp:282-326 | The object's fields become those of the receiver function: buffer and parse before the header, write at most the declared size after it |
| QuicServers.QuicServer.WriteBody | src/transfer/quic_server.cpp:305-325 | At most the declared size is written; the rest sets the overflow flag; a failed write sets the error and leaves count and output alone |
| QuicServers.QuicServer.TryParseFileHeader | src/transfer/quic_server.cpp:210-267 | Decode, refuse over the cap, store the header, offer it or accept it on the spot with what came behind it |
| QuicServers.QuicServer.AutoAccept | src/transfer/quic_server.cpp:251-266 | Open, accept, say so, write the trailing bytes; nothing is said if the output does not open |
| QuicServers.QuicServer.OpenOutputFile | src/transfer/quic_server.cpp:269-280 | Truncates on success; on failure sets the error and drops the output |
| QuicServers.QuicServer.Judge | src/transfer/quic_server.cpp:343-375 | The verification checks in their order, with the first failure as the error |
| QuicServers.QuicServer.FinishFileReceive | src/transfer/quic_server.cpp:334-384 | Close, check, answer; a refused answer wakes the waiter at once |
| QuicServers.QuicServer.NotifyFileWaiter | src/transfer/quic_server.cpp:98-106 | Done, the verdict and the result's verdict are set together |
| QuicServers.QuicServer.OnReceive | src/transfer/quic_server.cpp:162-169 | The buffers of one event one after the other, all or none of them, as `receiving_file_` said at its start |
| QuicServers.QuicServer.OnPeerSendShutdown | src/transfer/quic_server.cpp:171-177 | Finishes only if armed and accepted or failed |
| QuicServers.QuicServer.OnSendComplete | src/transfer/quic_server.cpp:179-184 | Wakes the waiter with the result's verdict only for the final answer |
| QuicServers.QuicServer.OnPeerAborted | src/transfer/quic_server.cpp:186-197 | Closes the output, keeps an earlier error text, and wakes the waiter with failure |
| QuicServers.QuicServer.OnPeerStreamStarted | src/transfer/quic_server.cpp:139-153 | A new stream starts with nothing buffered, parsed, written or accepted |
| QuicServers.QuicServer.Arm | src/transfer/quic_server.cpp:569-589 | Arming sets every field of the transfer afresh |
| QuicServers.QuicServer.AskUser | src/transfer/quic_server.cpp:627-655 | Goes on only if the callback said yes to the header that arrived and the output opened; otherwise REJECT, drain, false |
| QuicServers.QuicServer.AwaitVerdict | src/transfer/quic_server.cpp:659-676 | The last wait and its two exits are the steps of the state machine |
| QuicServers.QuicServer.ReceiveFile | src/transfer/quic_server.cpp:543-677 | Called before or after its stream has started, with callbacks at each wait and between its steps in any order a stream allows, the whole call is a legal run of the receiver's state machine that ends with its result; so true means verified, answered OK and consented |
| QuicServers.FragmentsReach | src/transfer/quic_server.cpp:162-169 | A RECEIVE event is one step of the machine per buffer |
| QuicServers.GroupingIrrelevant | src/transfer/quic_server.cpp:162-169 | How buffers are grouped into RECEIVE events makes no difference, with any faults while they are handled: one event after another is one event with the buffers of both |
| QuicServers.FaultFreeIsFed | src/transfer/quic_server.cpp:162-169 | Without faults the buffers of an event are fragments of the stream function |
| QuicClients.QuicClient.OnReceive | src/transfer/quic_client.cpp:133-147 | Whatever the buffers, the fields become those after one piece holding all their bytes: the decision is looked at after the last buffer |
| QuicClients.QuicClient.OnPeerSendShutdown | src/transfer/quic_client.cpp:149-155 | Resolves a pending decision, or else ends the acknowledgement, by the prefix of what was read |
| QuicClients.QuicClient.OnSendComplete | src/transfer/quic_client.cpp:157-160 | One block fewer in flight, and the waiter woken |
| QuicClients.QuicClient.ResolveDecision | src/transfer/quic_client.cpp:60-68 | The decision is stored and its wait ended |
| QuicClients.QuicClient.StreamSendAndWait | src/transfer/quic_client.cpp:198-218 | True only if the send was taken and completed; otherwise the stream is aborted and the call over; a refused send leaves nothing on the wire |
| QuicClients.QuicClient.AwaitDecision | src/transfer/quic_client.cpp:467-488 | Goes on exactly with ACCEPT; timeout and rejection abort the stream |
| QuicClients.QuicClient.SendBody | src/transfer/quic_client.cpp:508-537 | For every content and every sequence of short reads: the chunks are non-empty, at most 64 KiB, and concatenate to a prefix of the content no longer than declared; FIN is out exactly when the declared size is; a source that is too short is aborted; progress strictly increases by completed chunks, all of them on success |
| QuicClients.QuicClient.SendContent | src/transfer/quic_client.cpp:490-537 | The same from ACCEPT on, with an empty file as a bare FIN; on success the last report is the declared size; every failure aborts the stream |
| QuicClients.QuicClient.SendFileInternal | src/transfer/quic_client.cpp:422-557 | The whole call is a run of the sender's state machine that ends with its result; what is on the wire is nothing, or the header followed by a prefix of the source; true means the header and the declared number of bytes of the source went out with FIN and no abort; a failure without an abort means that too |
| QuicClients.ReportedLater | src/transfer/quic_client.cpp:523-529 | Each completed chunk adds a report larger than all before |
| SendBlocks.BlocksFreedOnce | src/transfer/quic_send_buffer.h:21-43 | Over every sequence of sends, refusals and completions each allocated block is owned by msquic and not freed, or freed exactly once |
| SendBlocks.RunsKeepOneBlock | src/transfer/quic_client.cpp:198-218 | Over every run of the sender at most one block is outstanding, it is the latest, and `send_done_` says whether it is |
| SendBlocks.SendWakeMeansThisSend | src/transfer/quic_client.cpp:213-217 | When `stream_send_and_wait` returns true, the block of that very send has come back and been freed once |
| SendBlocks.Sends.StreamSendCopy | src/transfer/quic_send_buffer.h:21-43 | The block handed over is fresh and holds a copy of the data; a refused one is freed on the spot; the blocks in flight are untouched |
| SendBlocks.Sends.OnSendComplete | src/transfer/quic_client.cpp:157-160 | The completed block, and no other, is freed |
| SendBlocks.CopyIsWhole | src/transfer/quic_send_buffer.h:31-36 | The copy msquic reads is the whole data exactly when its length fits in the 32-bit length field |

## Left out

- msquic, TLS, certificates, ALPN and OpenSSL themselves; a failing EVP call counts as a file that cannot be hashed.
- `connect`, `disconnect`, the connection callbacks, the server's `start` and `stop`: handle plumbing.
- `open_stream` failing, or the client not being connected: both return false before anything modelled happens.
- `send_raw_stream` and the `bytes_to_send` override, which only tests use; other peers are covered by arbitrary streams into the receiver.
- Several streams in one `receive_file` call (the listener allows one), and late events of an earlier transfer.
- Data races: arming `receive_file` is one step although callbacks may read the fields meanwhile; steps of the two threads interleave at the granularity of the functions in `Receiver`.
- A file source that changes during the chunk loop: the object `QuicClient` reads a fixed content of any length, while the sender of `Transfer` may read anything in each chunk.
- The 2-second bound of `drain_connection`: the drain may end at any time, whether the client has disconnected or not.
- Wall-clock durations: a wait may time out whenever its predicate is false.
- The file system beyond open, write and read back: permissions, other processes, and a flush that fails silently at close, which is why the file read back is an arbitrary input and the digest theorems speak of it.
- Creating directories before arming, and whether a path is an existing directory, which is an argument.
- Locale effects (the "C" locale is assumed) and path rules other than POSIX: a file name is the text after the last `/`.
- The receiver's progress callback, console output, `path` in the result, mDNS, the user interface, flag parsing and number formatting.
- Buffers of 4 GiB and more: `uint32_t` buffer lengths are modelled only where a send block is filled.
- Losing the last answer when the connection is torn down after `receive_file` has returned: a sender that does not get it does not return true.
- Completion.NeverStuck: assumes what makes undisturbed runs undisturbed; fairness of the scheduler is not modelled, so that a possible step is also taken is not stated.
- QuicServers.QuicServer.ReceiveFile: expects that nothing was sent yet on the stream it serves; on an object that served a transfer before, this holds once the new stream has started, and the answers on the old stream are not modelled.
- SendBlocks.RunsKeepOneBlock: a failed allocation is a refused send of the sender; in the ledger itself it is an operation of its own.
