/** The receiving side as a function of its state: every callback and every segment of receive_file between two
    waits (src/transfer/quic_server.cpp). The fields are those of include/transfer/quic_server.h:114-146. */
module Receiver {
  import opened ByteStrings
  import opened FileNames
  import opened HeaderCodec

  /** file_out_: absent, or the bytes handed to the ofstream so far. Opening truncates. */
  datatype Output = NoFile | Open(bytes: Bytes) | Closed(bytes: Bytes)

  datatype Error = Fine | PeerAborted | BadHeader | OpenFailed | WriteFailed | IoFailed | HeaderMissing
                 | Overflowed | SizeMismatch | Unhashable | HashMismatch | Declined

  /** FileReceiveResult */
  datatype Result = Result(success: bool, rejected: bool, error: Error,
                           bytesReceived: nat, expectedHash: Bytes, computedHash: Bytes)

  const NO_RESULT := Result(false, false, Fine, 0, [], [])

  /** The messages on the stream back to the sender. */
  datatype Reply = ACCEPT | REJECT | OK | FAIL

  function Text(reply: Reply): Bytes {
    match reply
    case ACCEPT => "ACCEPT\n"
    case REJECT => "REJECT\n"
    case OK => "OK\n"
    case FAIL => "FAIL\n"
  }

  /** Every reply but ACCEPT closes the stream. */
  predicate WithFin(reply: Reply) { reply != ACCEPT }

  /** The arguments of receive_file that matter here, and the digest function. */
  datatype Setup = Setup(prompt: bool, dir: Option<Bytes>, file: Bytes, hash: Bytes -> Bytes)

  datatype State = State(
    armed: bool,          // receiving_file_
    buffer: Bytes,        // stream_receive_buffer_
    parsed: bool,         // file_header_parsed_
    header: Header,       // file_header_
    path: Bytes,          // file_output_path_
    offerReady: bool,     // offer_ready_
    accepted: bool,       // file_accepted_
    ioError: bool,        // file_io_error_
    overflow: bool,       // file_overflow_
    written: u64,         // file_bytes_written_
    out: Output,          // file_out_
    finalAck: bool,       // sending_final_ack_
    done: bool,           // file_done_
    ok: bool,             // file_ok_
    result: Result,       // file_result_
    replies: seq<Reply>)  // what StreamSend has taken on file_stream_

  /** What the environment does to one call: open the output, take a send, take a write. */
  datatype Faults = Faults(openOk: bool, sendOk: bool, writeOk: bool)

  const NO_FAULTS := Faults(true, true, true)

  /** uint64_t subtraction. */
  function Minus64(a: u64, b: u64): u64 { if a >= b then a - b else a - b + TWO_POW_64 }

  /** uint64_t addition. */
  function Plus64(a: u64, b: u64): u64 { if a + b < TWO_POW_64 then a + b else a + b - TWO_POW_64 }

  function Shut(out: Output): Output { if out.Open? then Closed(out.bytes) else out }

  predicate FinSent(s: State) { s.replies != [] && WithFin(s.replies[|s.replies| - 1]) }

  /** stream_send_copy on the file stream; nothing can follow a FIN. */
  function Sent(s: State, reply: Reply, sendOk: bool): State {
    if sendOk && !FinSent(s) then s.(replies := s.replies + [reply]) else s
  }

  /** notify_file_waiter */
  function Notified(s: State, success: bool): State {
    s.(done := true, ok := success, result := s.result.(success := success))
  }

  function OutputOpened(s: State, openOk: bool): State {
    if openOk then s.(out := Open([]))
    else s.(out := NoFile, ioError := true, result := s.result.(error := OpenFailed))
  }

  /** append_file_bytes once the header is behind: body bytes, never more of them than were declared. */
  function BodyAppended(s: State, data: Bytes, writeOk: bool): State {
    if !s.accepted || s.ioError || !s.out.Open? || data == [] then s else
    var remaining := Minus64(s.header.size, s.written);
    var n := Min(|data|, remaining);
    var overflow := s.overflow || |data| > remaining;
    if n == 0 then s.(overflow := overflow)
    else if !writeOk then s.(overflow := overflow, ioError := true, result := s.result.(error := WriteFailed))
    else s.(overflow := overflow, written := Plus64(s.written, n), out := Open(s.out.bytes + data[..n]))
  }

  /** The buffer cap was passed without a header. */
  function HeaderRefused(s: State): State {
    Notified(s.(ioError := true, result := s.result.(error := BadHeader), parsed := true, buffer := []), false)
  }

  function HeaderStored(setup: Setup, s: State, header: Header): State {
    s.(header := header, parsed := true, buffer := [],
       path := if setup.dir.Some? then JoinPath(setup.dir.value, header.name) else s.path)
  }

  /** Auto-accept on the callback thread: open, accept, say so (whether or not the send is taken), write what
      came with the header. */
  function AutoAccepted(s: State, body: Bytes, faults: Faults): State {
    if !faults.openOk then OutputOpened(s, false)
    else BodyAppended(Sent(OutputOpened(s, true).(accepted := true), ACCEPT, faults.sendOk), body, faults.writeOk)
  }

  /** try_parse_file_header on a header not yet parsed. */
  function HeaderTried(setup: Setup, s: State, faults: Faults): State {
    var decoded := Decode(s.buffer);
    if decoded.None? then
      if |s.buffer| > MAX_HEADER_BYTES then HeaderRefused(s) else s
    else
      var t := HeaderStored(setup, s, decoded.value.header);
      if setup.prompt then t.(offerReady := true)
      else AutoAccepted(t, Rest(s.buffer, decoded.value.consumed), faults)
  }

  /** buffer.substr(consumed) */
  function Rest(data: Bytes, n: nat): Bytes { if n <= |data| then data[n..] else [] }

  /** append_file_bytes */
  function Appended(setup: Setup, s: State, data: Bytes, faults: Faults): State {
    if s.parsed then BodyAppended(s, data, faults.writeOk)
    else HeaderTried(setup, s.(buffer := s.buffer + data), faults)
  }

  /** The checks of finish_file_receive, in order; `readback` is what sha256_file reads from the disk, if it can. */
  function Verdict(setup: Setup, s: State, readback: Option<Bytes>): Error {
    if s.ioError then if s.result.error == Fine then IoFailed else s.result.error
    else if !s.parsed || s.out.NoFile? then HeaderMissing
    else if s.overflow then Overflowed
    else if s.written != s.header.size then SizeMismatch
    else if readback.None? then Unhashable
    else if setup.hash(readback.value) != s.header.sha256 then HashMismatch
    else Fine
  }

  /** sha256_file is reached only when all earlier checks pass. */
  predicate Hashed(s: State) { !s.ioError && s.parsed && !s.out.NoFile? && !s.overflow && s.written == s.header.size }

  /** file_result_ after those checks. */
  function Judged(setup: Setup, s: State, readback: Option<Bytes>): Result {
    var verdict := Verdict(setup, s, readback);
    s.result.(success := verdict == Fine,
              error := if verdict == Fine then s.result.error else verdict,
              bytesReceived := s.written,
              expectedHash := s.header.sha256,
              computedHash := if Hashed(s) && readback.Some? then setup.hash(readback.value) else s.result.computedHash)
  }

  /** send_file_ack at the end of finish_file_receive; a send that is not taken wakes the waiter at once. */
  function Answered(s: State, good: bool, sendOk: bool): State {
    if sendOk && !FinSent(s) then Sent(s.(finalAck := true), if good then OK else FAIL, true)
    else Notified(s.(finalAck := false), false)
  }

  /** finish_file_receive */
  function Finished(setup: Setup, s: State, readback: Option<Bytes>, sendOk: bool): State {
    Answered(s.(out := Shut(s.out), result := Judged(setup, s, readback)), Verdict(setup, s, readback) == Fine, sendOk)
  }

  // ---------------------------------------------------------------- stream callbacks

  /** PEER_STREAM_STARTED: a new stream, on which nothing has been sent. */
  function StreamStarted(s: State): State {
    s.(buffer := [], parsed := false, ioError := false, overflow := false, written := 0, out := NoFile,
       accepted := false, finalAck := false, replies := [])
  }

  function PeerFinished(setup: Setup, s: State, readback: Option<Bytes>, sendOk: bool): State {
    if s.armed && (s.accepted || s.ioError) then Finished(setup, s, readback, sendOk) else s
  }

  function SendCompleted(s: State): State {
    if s.armed && s.finalAck then Notified(s, s.result.success) else s
  }

  function PeerAbortSeen(s: State): State {
    if !s.armed then s else
    Notified(s.(out := Shut(s.out),
                result := if s.result.error == Fine then s.result.(error := PeerAborted) else s.result), false)
  }

  // ---------------------------------------------------------------- segments of receive_file

  function Armed(setup: Setup, s: State): State {
    s.(armed := true, path := if setup.dir.Some? then [] else setup.file, offerReady := false, accepted := false,
       finalAck := false, parsed := false, ioError := false, overflow := false, written := 0, done := false,
       ok := false, result := NO_RESULT, buffer := [], out := NoFile)
  }

  function OfferDeclined(s: State, sendOk: bool): State {
    var t := Sent(s, REJECT, sendOk);
    t.(result := t.result.(rejected := true, error := Declined))
  }

  /** open_output_file after the user said yes; a file that cannot be opened turns the answer into REJECT. */
  function OfferOpened(s: State, openOk: bool, sendOk: bool): State {
    if openOk then OutputOpened(s, true) else Sent(OutputOpened(s, false), REJECT, sendOk)
  }

  function OfferGranted(s: State): State { s.(accepted := true) }

  function GrantSent(s: State, sendOk: bool): State { Sent(s, ACCEPT, sendOk) }

  /** The failure exit of the final wait. */
  function GivenUp(s: State): State { s.(armed := false, out := Shut(s.out)) }

  function Disarmed(s: State): State { s.(armed := false) }

  // ---------------------------------------------------------------- whole streams

  /** The fragments of a stream, one append_file_bytes call each, in auto-accept mode and without I/O faults. */
  function Fed(setup: Setup, s: State, frags: seq<Bytes>): State {
    if frags == [] then s
    else Appended(setup, Fed(setup, s, frags[..|frags| - 1]), frags[|frags| - 1], NO_FAULTS)
  }

  /** Armed and attached to a stream on which nothing has happened yet. */
  predicate Fresh(s: State) {
    && s.armed && s.buffer == [] && !s.parsed && !s.accepted && !s.ioError && !s.overflow && s.written == 0
    && s.out == NoFile && !s.finalAck && s.replies == []
  }

  /** Having been given `body`: the first `size` bytes are in the output, and overflow says whether there were more. */
  function WithBody(s: State, body: Bytes): State {
    var n := Min(s.header.size, |body|);
    s.(out := Open(body[..n]), written := n, overflow := |body| > s.header.size)
  }

  /** What the receiver should make of a whole stream, said in one go. */
  function OneShot(setup: Setup, s: State, stream: Bytes): State {
    var decoded := Decode(stream);
    if decoded.Some? then
      var header := decoded.value.header;
      WithBody(HeaderStored(setup, s, header).(accepted := true, replies := [ACCEPT]),
               Rest(stream, decoded.value.consumed))
    else if |stream| <= MAX_HEADER_BYTES then s.(buffer := stream)
    else HeaderRefused(s)
  }
}
