/** The sending side as a function of its state: send_file_internal between its waits, and its stream callbacks
    (src/transfer/quic_client.cpp). */
module Sender {
  import opened ByteStrings
  import opened HeaderCodec

  const FILE_CHUNK := 65536

  /** Where send_file_internal stands once its stream is open. */
  datatype Phase =
    | Start             // nothing sent yet
    | HeaderWait        // the header is enqueued; waiting for its SEND_COMPLETE
    | DecisionWait      // waiting for ACCEPT or REJECT
    | Accepted          // ACCEPT came; the source is not open yet
    | Body              // about to read the next chunk
    | ChunkWait         // a chunk is enqueued; waiting for its SEND_COMPLETE
    | AckWait           // everything is sent; waiting for OK or FAIL
    | Ended(success: bool)

  datatype State = State(
    phase: Phase,
    awaiting: bool,          // awaiting_decision_
    decisionBuf: Bytes,      // decision_buf_
    decisionReady: bool,     // decision_ready_
    decisionAccepted: bool,  // decision_accepted_
    rejected: bool,          // rejected_
    ack: Bytes,              // file_ack_
    done: bool,              // file_done_
    ok: bool,                // file_ok_
    sendDone: bool,          // send_done_
    inFlight: nat,           // send blocks handed to msquic and not completed
    sent: nat,               // sent
    wire: Bytes,             // history: every byte StreamSend has taken
    fin: bool,               // history: FIN has been sent
    aborted: bool)           // history: abort_stream has been called

  /** Fields as send_file_internal sets them before it sends the header. */
  const READY := State(Start, true, [], false, false, false, [], false, false, false, 0, 0, [], false, false)

  /** stream_send_copy: a failed send leaves nothing behind. */
  function Enqueued(c: State, data: Bytes, fin: bool): State {
    c.(sendDone := false, inFlight := c.inFlight + 1, wire := c.wire + data, fin := c.fin || fin)
  }

  /** abort_stream, then return false. */
  function Abandoned(c: State): State { c.(aborted := true, phase := Ended(false)) }

  /** stream_send_and_wait lowers send_done_ before it finds that the send is refused. */
  function SendRefused(c: State): State { Abandoned(c.(sendDone := false)) }

  function HeaderSent(c: State, header: Header, sendOk: bool): State {
    if sendOk then Enqueued(c, Encode(header), false).(phase := HeaderWait) else SendRefused(c)
  }

  /** stream_send_and_wait returned true. */
  function SendAwaited(c: State, size: nat): State {
    c.(phase := if c.phase == HeaderWait then DecisionWait else if c.sent < size then Body else AckWait)
  }

  function DecisionTaken(c: State): State {
    if c.decisionAccepted then c.(phase := Accepted) else Abandoned(c.(rejected := true))
  }

  /** An empty file: a bare FIN. */
  function EmptySent(c: State, sendOk: bool): State {
    if sendOk then Enqueued(c, [], true).(phase := ChunkWait) else SendRefused(c)
  }

  function SourceOpened(c: State, openOk: bool): State {
    if openOk then c.(phase := Body) else Abandoned(c)
  }

  /** One turn of the chunk loop; reading nothing means that the file shrank. */
  function ChunkSent(c: State, data: Bytes, size: nat, sendOk: bool): State {
    if data == [] then Abandoned(c) else
    var t := c.(sent := c.sent + |data|);
    if sendOk then Enqueued(t, data, t.sent >= size).(phase := ChunkWait) else SendRefused(t)
  }

  function AckTaken(c: State): State { c.(phase := Ended(c.ok)) }

  // ---------------------------------------------------------------- stream callbacks

  /** resolve_decision */
  function Resolved(c: State, accepted: bool): State {
    c.(awaiting := false, decisionAccepted := accepted, decisionReady := true)
  }

  predicate SaysAccept(buf: Bytes) { "ACCEPT" <= buf }

  predicate SaysOk(buf: Bytes) { "OK" <= buf }

  predicate HasNewline(buf: Bytes) { IndexOf(buf, '\n', 0) < |buf| }

  /** RECEIVE: `data` is all its buffers together. */
  function Received(c: State, data: Bytes): State {
    if !c.awaiting then c.(ack := c.ack + data) else
    var t := c.(decisionBuf := c.decisionBuf + data);
    if HasNewline(t.decisionBuf) then Resolved(t, SaysAccept(t.decisionBuf)) else t
  }

  /** PEER_SEND_SHUTDOWN */
  function PeerFinished(c: State): State {
    if c.awaiting then Resolved(c, SaysAccept(c.decisionBuf))
    else c.(done := true, ok := SaysOk(c.ack))
  }

  /** The half of the state that sending is about. */
  predicate SameSending(c: State, d: State) {
    && d.phase == c.phase && d.sent == c.sent && d.wire == c.wire && d.fin == c.fin && d.aborted == c.aborted
    && d.rejected == c.rejected && d.inFlight == c.inFlight && d.sendDone == c.sendDone
  }

  /** What arrives leaves it alone. */
  lemma ReceivedOnlyReads(c: State, data: Bytes)
    ensures SameSending(c, Received(c, data))
  {
    hide HasNewline, SaysAccept;
    if c.awaiting {
      var t := c.(decisionBuf := c.decisionBuf + data);
      ResolvedOnlyReads(t, SaysAccept(t.decisionBuf));
    }
  }

  /** The fields that arriving answers are about. */
  predicate ReadsOnly(c: State, d: State) {
    && d == c.(awaiting := d.awaiting, decisionReady := d.decisionReady, decisionAccepted := d.decisionAccepted,
               decisionBuf := d.decisionBuf, ack := d.ack)
    && (d.awaiting ==> c.awaiting && d.decisionReady == c.decisionReady)
    && (!d.awaiting ==> d.decisionReady || !c.awaiting)
    && (!c.awaiting ==> d.decisionReady == c.decisionReady && d.decisionAccepted == c.decisionAccepted)
  }

  lemma ReceivedShape(c: State, data: Bytes)
    ensures ReadsOnly(c, Received(c, data))
  {
    hide HasNewline, SaysAccept, ReadsOnly;
    if c.awaiting {
      var t := c.(decisionBuf := c.decisionBuf + data);
      DecisionShape(c, t.decisionBuf, SaysAccept(t.decisionBuf));
    } else {
      AckShape(c, c.ack + data);
    }
  }

  lemma AckShape(c: State, ack: Bytes)
    requires !c.awaiting
    ensures ReadsOnly(c, c.(ack := ack))
  {
  }

  lemma DecisionShape(c: State, buf: Bytes, accepted: bool)
    requires c.awaiting
    ensures ReadsOnly(c, c.(decisionBuf := buf)) && ReadsOnly(c, Resolved(c.(decisionBuf := buf), accepted))
  {
  }

  lemma ResolvedOnlyReads(c: State, accepted: bool)
    ensures SameSending(c, Resolved(c, accepted))
  {
  }

  lemma FinishedOnlyReads(c: State)
    ensures SameSending(c, PeerFinished(c))
  {
    hide SaysAccept, SaysOk;
  }

  /** SEND_COMPLETE: the block is freed and the waiter woken. */
  function SendCompleted(c: State): State
    requires c.inFlight > 0
  {
    c.(inFlight := c.inFlight - 1, sendDone := true)
  }

  // ---------------------------------------------------------------- steps

  datatype Event =
    | SendHeader(headerSendOk: bool)
    | SendWake
    | SendTimeout
    | DecisionWake
    | DecisionTimeout
    | SendEmptyFin(finSendOk: bool)
    | OpenSource(openOk: bool)
    | ReadChunk(data: Bytes, chunkSendOk: bool)
    | AckWake
    | AckTimeout
    | Receive(bytes: Bytes)
    | PeerFin
    | SendComplete

  /** When a step of the sender itself is possible; what arrives is up to the other side. */
  predicate Enabled(c: State, size: nat, e: Event) {
    match e
    case SendHeader(sendOk) => c.phase == Start
    case SendWake => (c.phase == HeaderWait || c.phase == ChunkWait) && c.sendDone
    case SendTimeout => (c.phase == HeaderWait || c.phase == ChunkWait) && !c.sendDone
    case DecisionWake => c.phase == DecisionWait && c.decisionReady
    case DecisionTimeout => c.phase == DecisionWait && !c.decisionReady
    case SendEmptyFin(sendOk) => c.phase == Accepted && size == 0
    case OpenSource(openOk) => c.phase == Accepted && size > 0
    case ReadChunk(data, sendOk) =>
      c.phase == Body && c.sent < size && |data| <= Min(size - c.sent, FILE_CHUNK)
    case AckWake => c.phase == AckWait && c.done
    case AckTimeout => c.phase == AckWait && !c.done
    case Receive(bytes) => true
    case PeerFin => true
    case SendComplete => c.inFlight > 0
  }

  function Next(c: State, header: Header, e: Event): State
    requires Enabled(c, header.size, e)
  {
    match e
    case SendHeader(sendOk) => HeaderSent(c, header, sendOk)
    case SendWake => SendAwaited(c, header.size)
    case SendTimeout => Abandoned(c)
    case DecisionWake => DecisionTaken(c)
    case DecisionTimeout => Abandoned(c)
    case SendEmptyFin(sendOk) => EmptySent(c, sendOk)
    case OpenSource(openOk) => SourceOpened(c, openOk)
    case ReadChunk(data, sendOk) => ChunkSent(c, data, header.size, sendOk)
    case AckWake => AckTaken(c)
    case AckTimeout => c.(phase := Ended(false))
    case Receive(bytes) => Received(c, bytes)
    case PeerFin => PeerFinished(c)
    case SendComplete => SendCompleted(c)
  }

  function Steps(header: Header): (State, Event) -> Option<State> {
    (c: State, e: Event) => if Enabled(c, header.size, e) then Some(Next(c, header, e)) else None
  }
}
