/** The sending object itself: its fields (include/transfer/quic_client.h:138-160) and the methods that update them in
    place (src/transfer/quic_client.cpp), proved to run the state machine of Sender. */
module QuicClients {
  import opened ByteStrings
  import opened HeaderCodec
  import opened Runs
  import S = Sender

  /** A stream event. */
  datatype Callback = Receive(buffers: seq<Bytes>) | SendShutdown | Completed

  /** What happens at one wait: whether the send before it is taken, what read() returns at most before that, and
      the callbacks that come until the wait is over. */
  datatype Turn = Turn(sendOk: bool, atMost: nat, callbacks: seq<Callback>)

  /** What one call of send_file_internal meets on its way. */
  datatype World = World(header: Turn, decision: seq<Callback>, opens: bool, body: nat -> Turn, ack: seq<Callback>)

  // ---------------------------------------------------------------- runs of the sender

  lemma CallbackKeepsSends(header: Header, c: S.State, e: S.Event)
    requires S.Enabled(c, header.size, e) && (e.Receive? || e.PeerFin? || e.SendComplete?)
    ensures SameSends(c, S.Next(c, header, e))
  {
    hide S.Received, S.PeerFinished, S.HeaderSent, S.SendAwaited, S.DecisionTaken, S.EmptySent, S.SourceOpened,
      S.ChunkSent, S.AckTaken, S.Abandoned;
    match e
    case Receive(bytes) => S.ReceivedOnlyReads(c, bytes);
    case PeerFin => S.FinishedOnlyReads(c);
    case SendComplete =>
  }

  /** What callbacks leave alone. */
  predicate SameSends(c: S.State, d: S.State) {
    && d.phase == c.phase && d.sent == c.sent && d.wire == c.wire && d.fin == c.fin && d.aborted == c.aborted
    && d.rejected == c.rejected && d.inFlight <= c.inFlight
  }

  class QuicClient {
    var awaitingDecision: bool
    var decisionBuf: Bytes
    var decisionReady: bool
    var decisionAccepted: bool
    var rejected: bool
    var fileAck: Bytes
    var fileDone: bool
    var fileOk: bool
    var sendDone: bool
    var inFlight: nat        // blocks that msquic still owns
    var wire: Bytes          // what StreamSend has taken on stream_
    var finSent: bool
    var aborted: bool        // the stream has been shut down with ABORT

    /** The fields are those of `c`; how far send_file_internal has got is not a field. */
    ghost predicate Is(c: S.State)
      reads this
    {
      c == S.State(c.phase, awaitingDecision, decisionBuf, decisionReady, decisionAccepted, rejected, fileAck, fileDone,
                   fileOk, sendDone, inFlight, c.sent, wire, finSent, aborted)
    }

    constructor ()
      ensures !awaitingDecision && inFlight == 0
    {
      awaitingDecision, decisionBuf, decisionReady, decisionAccepted, rejected := false, [], false, false, false;
      fileAck, fileDone, fileOk, sendDone, inFlight := [], false, false, false, 0;
      wire, finSent, aborted := [], false, false;
    }

    // -------------------------------------------------------------- on_stream_event

    method ResolveDecision(accepted: bool, ghost c: S.State)
      requires Is(c)
      modifies this
      ensures Is(S.Resolved(c, accepted))
    {
      awaitingDecision := false;
      decisionAccepted := accepted;
      decisionReady := true;
    }

    method NotifyFileWaiter(success: bool, ghost c: S.State)
      requires Is(c)
      modifies this
      ensures Is(c.(done := true, ok := success))
    {
      fileDone := true;
      fileOk := success;
    }

    method HasNewline(text: Bytes) returns (found: bool)
      ensures found == S.HasNewline(text)
    {
      found := false;
      for i := 0 to |text|
        invariant forall k :: 0 <= k < i ==> text[k] != '\n'
      {
        if text[i] == '\n' {
          return true;
        }
      }
    }

    /** However the buffers cut up what arrives, it is as if all of it came in one. */
    method OnReceive(buffers: seq<Bytes>, ghost c: S.State)
      requires Is(c)
      modifies this
      ensures Is(S.Received(c, Concat(buffers)))
    {
      hide Held, S.Received;
      ghost var d := c;
      NothingHeld(c);
      for i := 0 to |buffers|
        invariant d == Held(c, Concat(buffers[..i])) && Is(d)
      {
        Hold(buffers[i], d);
        HeldTwice(c, Concat(buffers[..i]), buffers[i]);
        assert buffers[..i + 1][..i] == buffers[..i];
        d := Held(d, buffers[i]);
      }
      assert buffers[..|buffers|] == buffers;
      Decide(d);
      ReceivedIsHeld(c, Concat(buffers));
    }

    method Hold(buffer: Bytes, ghost c: S.State)
      requires Is(c)
      modifies this
      ensures Is(Held(c, buffer))
    {
      if awaitingDecision {
        decisionBuf := decisionBuf + buffer;
      } else {
        fileAck := fileAck + buffer;
      }
    }

    method Decide(ghost c: S.State)
      requires Is(c)
      modifies this
      ensures Is(Decided(c))
    {
      hide S.HasNewline;
      if awaitingDecision {
        var found := HasNewline(decisionBuf);
        if found {
          ResolveDecision("ACCEPT" <= decisionBuf, c);
        }
      }
    }

    method OnPeerSendShutdown(ghost c: S.State)
      requires Is(c)
      modifies this
      ensures Is(S.PeerFinished(c))
    {
      if awaitingDecision {
        ResolveDecision("ACCEPT" <= decisionBuf, c);
      } else {
        NotifyFileWaiter("OK" <= fileAck, c);
      }
    }

    method OnSendComplete(ghost c: S.State)
      requires Is(c) && c.inFlight > 0
      modifies this
      ensures Is(S.SendCompleted(c))
    {
      inFlight := inFlight - 1;
      sendDone := true;
    }

    /** One callback; msquic completes only what it was given. */
    method OnCallback(header: Header, e: Callback, ghost c: S.State) returns (ghost es: seq<S.Event>, ghost d: S.State)
      requires Is(c)
      modifies this
      ensures Is(d) && Reaches(S.Steps(header), c, es, d) && SameSends(c, d)
    {
      hide Reaches, S.Received, S.PeerFinished;
      ghost var step := S.PeerFin;
      Nothing(S.Steps(header), c);
      match e {
        case Receive(buffers) =>
          OnReceive(buffers, c);
          step := S.Receive(Concat(buffers));
        case SendShutdown =>
          OnPeerSendShutdown(c);
        case Completed =>
          if inFlight == 0 {
            es, d := [], c;
            return;
          }
          OnSendComplete(c);
          step := S.SendComplete;
      }
      Stepped(S.Steps(header), c, [], c, step);
      es, d := [] + [step], S.Next(c, header, step);
      CallbackKeepsSends(header, c, step);
    }

    /** The callbacks that come during one wait. */
    method Meanwhile(header: Header, cs: seq<Callback>, ghost c: S.State)
      returns (ghost es: seq<S.Event>, ghost d: S.State)
      requires Is(c)
      modifies this
      ensures Is(d) && Reaches(S.Steps(header), c, es, d) && SameSends(c, d)
    {
      hide Reaches;
      Nothing(S.Steps(header), c);
      es, d := [], c;
      for i := 0 to |cs|
        invariant Is(d) && Reaches(S.Steps(header), c, es, d) && SameSends(c, d)
      {
        ghost var more, next := OnCallback(header, cs[i], d);
        Joined(S.Steps(header), c, es, d, more, next);
        es, d := es + more, next;
      }
    }

    // -------------------------------------------------------------- sending

    /** StreamSend takes a block of ours, or refuses it. */
    method StreamSendCopy(data: Bytes, fin: bool, ghost c: S.State)
      requires Is(c) && !c.sendDone
      modifies this
      ensures Is(S.Enqueued(c, data, fin))
    {
      inFlight := inFlight + 1;
      wire := wire + data;
      finSent := finSent || fin;
    }

    method LowerSendDone(ghost c: S.State)
      requires Is(c)
      modifies this
      ensures Is(c.(sendDone := false))
    {
      sendDone := false;
    }

    method AbortStream(ghost c: S.State)
      requires Is(c)
      modifies this
      ensures Is(S.Abandoned(c))
    {
      aborted := true;
    }

    /** stream_send_and_wait, for the send that takes the sender from `c` by `e`; `sent` counts that send already. */
    method StreamSendAndWait(header: Header, data: Bytes, fin: bool, turn: Turn, ghost c: S.State, ghost e: S.Event,
                             ghost phase: S.Phase, ghost sent: nat)
      returns (ok: bool, ghost es: seq<S.Event>, ghost m: S.State)
      requires Is(c) && Sends(header, c, e, turn.sendOk, data, fin, phase, sent)
      modifies this
      ensures Reaches(S.Steps(header), c, es, m) && Is(m) && m.sent == sent && m.rejected == c.rejected
      ensures m.wire == (if turn.sendOk then c.wire + data else c.wire) && m.fin == (c.fin || (turn.sendOk && fin))
      ensures if ok then turn.sendOk && m.phase == Woken(header, phase, sent) && m.aborted == c.aborted
              else m.phase == S.Ended(false) && m.aborted
    {
      hide Reaches, S.Enqueued, Sends, S.Next, S.Enabled;
      LowerSendDone(c);
      if !turn.sendOk {
        RefusedSend(header, c, e, data, fin, phase, sent);
        AbortStream(c.(sendDone := false));
        ok, es, m := false, [e], S.Abandoned(c.(sendDone := false)).(sent := sent);
        return;
      }
      TakenSend(header, c, e, data, fin, phase, sent);
      StreamSendCopy(data, fin, c.(sendDone := false));
      es, m := [e], S.Enqueued(c, data, fin).(phase := phase, sent := sent);
      ghost var more, last;
      ok, more, last := AwaitSend(header, turn.callbacks, m);
      Joined(S.Steps(header), c, es, m, more, last);
      es, m := es + more, last;
    }

    /** The wait of stream_send_and_wait; a failure aborts the stream. */
    method AwaitSend(header: Header, cs: seq<Callback>, ghost c: S.State)
      returns (ok: bool, ghost es: seq<S.Event>, ghost m: S.State)
      requires Is(c) && (c.phase == S.HeaderWait || c.phase == S.ChunkWait)
      modifies this
      ensures Reaches(S.Steps(header), c, es, m) && Is(m)
      ensures m.wire == c.wire && m.fin == c.fin && m.sent == c.sent && m.rejected == c.rejected
      ensures if ok then m.phase == Woken(header, c.phase, c.sent) && m.aborted == c.aborted
              else m.phase == S.Ended(false) && m.aborted
    {
      hide Reaches;
      es, m := Meanwhile(header, cs, c);
      ok := sendDone;
      ghost var last := if ok then S.SendWake else S.SendTimeout;
      Stepped(S.Steps(header), c, es, m, last);
      if !ok {
        AbortStream(m);
      }
      es, m := es + [last], S.Next(m, header, last);
    }

    /** One turn of the chunk loop, after the read. */
    method SendChunk(header: Header, data: Bytes, sent: nat, turn: Turn, ghost c: S.State)
      returns (ok: bool, ghost es: seq<S.Event>, ghost m: S.State)
      requires Is(c) && c.phase == S.Body && !c.fin && sent == c.sent + |data|
      requires 0 < |data| <= S.FILE_CHUNK && sent <= header.size
      modifies this
      ensures Reaches(S.Steps(header), c, es, m) && Is(m) && m.sent == sent && m.rejected == c.rejected
      ensures m.wire == if turn.sendOk then c.wire + data else c.wire
      ensures m.fin == (turn.sendOk && sent == header.size)
      ensures if ok then turn.sendOk && m.phase == (if sent < header.size then S.Body else S.AckWait)
                         && m.aborted == c.aborted
              else m.phase == S.Ended(false) && m.aborted
    {
      hide Reaches, Sends;
      ChunkSends(header, c, data, turn.sendOk);
      ok, es, m := StreamSendAndWait(header, data, sent >= header.size, turn, c, S.ReadChunk(data, turn.sendOk),
                                     S.ChunkWait, sent);
    }

    /** The chunk loop over a source that holds `content`, whatever its length, with reads as short as may be. A
        source that is too short is given up on, without FIN. */
    method SendBody(header: Header, content: Bytes, world: nat -> Turn, ghost c: S.State)
      returns (ok: bool, chunks: seq<Bytes>, progress: seq<nat>, ghost es: seq<S.Event>, ghost m: S.State)
      requires Is(c) && c.phase == S.Body && c.sent == 0 && !c.fin && header.size > 0
      modifies this
      ensures Reaches(S.Steps(header), c, es, m) && Is(m) && BodySent(header.size, content, c, m, chunks)
      ensures m.phase == if ok then S.AckWait else S.Ended(false)
      ensures m.aborted == if ok then c.aborted else true
      ensures Reported(progress, chunks) && (ok ==> m.fin && |progress| == |chunks|)
    {
      hide Reaches, S.ChunkSent, Sends, Reported, BodySent;
      chunks, progress, ok := [], [], true;
      var sent := 0;
      es, m := [], c;
      Nothing(S.Steps(header), c);
      NothingSent(header.size, content, c);
      while sent < header.size
        invariant Reaches(S.Steps(header), c, es, m) && Is(m) && BodySent(header.size, content, c, m, chunks)
        invariant m.phase == (if sent < header.size then S.Body else S.AckWait) && m.aborted == c.aborted
        invariant m.sent == sent == |Concat(chunks)| && sent <= header.size && sent <= |content|
        invariant m.fin <==> sent == header.size
        invariant Reported(progress, chunks) && |progress| == |chunks|
      {
        var turn := world(|chunks|);
        var n := ReadCount(Min(header.size - sent, S.FILE_CHUNK), |content| - sent, turn.atMost);
        if n == 0 {
          break;
        }
        var data := content[sent..sent + n];
        ghost var before, more := m, es;
        sent := sent + n;
        ok, more, m := SendChunk(header, data, sent, turn, m);
        Joined(S.Steps(header), c, es, before, more, m);
        es := es + more;
        if turn.sendOk {
          SentMore(header.size, content, c, before, chunks, data, m);
          ReportedLater(progress, chunks, data);
          chunks := chunks + [data];
        } else {
          NotSent(header.size, content, c, before, chunks, m);
        }
        if !ok {
          return;
        }
        progress := progress + [sent];
      }
      if sent != header.size {
        ok := false;
        GaveUp(header, m);
        Stepped(S.Steps(header), c, es, m, S.ReadChunk([], true));
        AbortStream(m);
        NotSent(header.size, content, c, m, chunks, S.Abandoned(m));
        es, m := es + [S.ReadChunk([], true)], S.Abandoned(m);
      }
    }

    // -------------------------------------------------------------- send_file_internal

    /** A new stream, and the fields of an earlier transfer forgotten. */
    method Begin()
      modifies this
      ensures Is(S.READY)
    {
      BeginDecision();
      fileAck, fileDone, fileOk := [], false, false;
      BeginStream();
    }

    method BeginDecision()
      modifies this`awaitingDecision, this`decisionBuf, this`decisionReady, this`decisionAccepted, this`rejected
      ensures awaitingDecision && decisionBuf == [] && !decisionReady && !decisionAccepted && !rejected
    {
      awaitingDecision, decisionBuf, decisionReady, decisionAccepted, rejected := true, [], false, false, false;
    }

    method BeginStream()
      modifies this`sendDone, this`inFlight, this`wire, this`finSent, this`aborted
      ensures !sendDone && inFlight == 0 && wire == [] && !finSent && !aborted
    {
      sendDone, inFlight := false, 0;
      wire, finSent, aborted := [], false, false;
    }

    method AwaitDecision(header: Header, cs: seq<Callback>, ghost c: S.State)
      returns (ok: bool, ghost es: seq<S.Event>, ghost m: S.State)
      requires Is(c) && c.phase == S.DecisionWait
      modifies this
      ensures Reaches(S.Steps(header), c, es, m) && Is(m) && m.wire == c.wire && m.fin == c.fin && m.sent == c.sent
      ensures m.phase == if ok then S.Accepted else S.Ended(false)
      ensures m.aborted == if ok then c.aborted else true
    {
      hide Reaches, S.Next, S.Enabled;
      es, m := Meanwhile(header, cs, c);
      ghost var before := m;
      ghost var last;
      ok, last, m := TakeDecision(header, m);
      Stepped(S.Steps(header), c, es, before, last);
      es := es + [last];
    }

    method TakeDecision(header: Header, ghost c: S.State) returns (ok: bool, ghost e: S.Event, ghost d: S.State)
      requires Is(c) && c.phase == S.DecisionWait
      modifies this
      ensures S.Enabled(c, header.size, e) && S.Next(c, header, e) == d && Is(d)
      ensures d.wire == c.wire && d.fin == c.fin && d.sent == c.sent
      ensures d.phase == if ok then S.Accepted else S.Ended(false)
      ensures d.aborted == if ok then c.aborted else true
    {
      if !decisionReady {
        AbortStream(c);
        return false, S.DecisionTimeout, S.Abandoned(c);
      }
      if !decisionAccepted {
        Reject(c);
        AbortStream(c.(rejected := true));
        return false, S.DecisionWake, S.Abandoned(c.(rejected := true));
      }
      return true, S.DecisionWake, c.(phase := S.Accepted);
    }

    method Reject(ghost c: S.State)
      requires Is(c)
      modifies this
      ensures Is(c.(rejected := true))
    {
      rejected := true;
    }

    method AwaitAck(header: Header, cs: seq<Callback>, ghost c: S.State)
      returns (ok: bool, ghost es: seq<S.Event>, ghost m: S.State)
      requires Is(c) && c.phase == S.AckWait
      modifies this
      ensures Reaches(S.Steps(header), c, es, m) && Is(m) && m.wire == c.wire && m.fin == c.fin
      ensures m.phase == S.Ended(ok) && m.aborted == c.aborted
    {
      hide Reaches;
      es, m := Meanwhile(header, cs, c);
      ok := fileDone && fileOk;
      ghost var last := if fileDone then S.AckWake else S.AckTimeout;
      Stepped(S.Steps(header), c, es, m, last);
      es, m := es + [last], S.Next(m, header, last);
    }

    /** From ACCEPT to the last byte: an empty file is a bare FIN. */
    method SendContent(header: Header, content: Bytes, world: World, ghost c: S.State)
      returns (ok: bool, chunks: seq<Bytes>, progress: seq<nat>, ghost es: seq<S.Event>, ghost m: S.State)
      requires Is(c) && c.phase == S.Accepted && c.sent == 0 && !c.fin
      modifies this
      ensures Reaches(S.Steps(header), c, es, m) && Is(m) && m.phase == if ok then S.AckWait else S.Ended(false)
      ensures Carried(header, content, c.wire, m, ok, chunks, progress)
      ensures m.aborted == if ok then c.aborted else true
    {
      hide Reaches, BodySent, Sends, Carried;
      chunks, progress := [], [];
      if header.size == 0 {
        EmptySends(header, c, world.body(0).sendOk);
        ok, es, m := StreamSendAndWait(header, [], true, world.body(0), c, S.SendEmptyFin(world.body(0).sendOk),
                                       S.ChunkWait, 0);
        progress := if ok then [0] else [];
        EmptyCarried(header, content, c.wire, m, ok, progress);
        return;
      }
      SourceStep(header, c, world.opens);
      if !world.opens {
        AbortStream(c);
        ok, es, m := false, [S.OpenSource(false)], S.Abandoned(c);
        NothingCarried(header, content, c.wire, m);
        return;
      }
      ghost var before := S.SourceOpened(c, true);
      ok, chunks, progress, es, m := SendBody(header, content, world.body, before);
      Joined(S.Steps(header), c, [S.OpenSource(true)], before, es, m);
      es := [S.OpenSource(true)] + es;
      BodyCarried(header, content, before, m, ok, chunks, progress);
    }

    /** send_file_internal once its stream is open. Its run is a run of the sender's state machine. */
    method SendFileInternal(header: Header, content: Bytes, world: World)
      returns (ok: bool, chunks: seq<Bytes>, progress: seq<nat>, ghost es: seq<S.Event>, ghost m: S.State)
      modifies this
      ensures Reaches(S.Steps(header), S.READY, es, m) && Is(m) && m.phase == S.Ended(ok)
      ensures wire == [] || Carried(header, content, Encode(header), m, ok, chunks, progress)
      ensures ok ==> !aborted
      ensures !aborted ==> finSent && header.size <= |content| && wire == Encode(header) + content[..header.size]
    {
      hide Reaches, Sends, Encode, Carried;
      Begin();
      chunks, progress := [], [];
      HeaderSends(header, world.header.sendOk);
      ok, es, m := StreamSendAndWait(header, Encode(header), false, world.header, S.READY,
                                     S.SendHeader(world.header.sendOk), S.HeaderWait, 0);
      assert [] + Encode(header) == Encode(header);
      if !world.header.sendOk {
        return;
      }
      NothingCarried(header, content, Encode(header), m);
      if !ok {
        return;
      }
      ghost var more, next;
      ok, more, next := AwaitDecision(header, world.decision, m);
      Joined(S.Steps(header), S.READY, es, m, more, next);
      es, m := es + more, next;
      NothingCarried(header, content, Encode(header), m);
      if !ok {
        return;
      }
      ok, chunks, progress, more, next := SendContent(header, content, world, m);
      Joined(S.Steps(header), S.READY, es, m, more, next);
      es, m := es + more, next;
      if !ok {
        return;
      }
      CarriedWhole(header, content, m, chunks, progress);
      ok, more, next := AwaitAck(header, world.ack, m);
      Joined(S.Steps(header), S.READY, es, m, more, next);
      CarriedOn(header, content, m, chunks, progress, next, ok);
      es, m := es + more, next;
    }
  }

  /** After `head`, the chunks are on the wire: a prefix of what the source holds, at most the declared size, FIN only
      with all of it; and when the body is through, all of it went out and the last report says so. */
  ghost predicate Carried(header: Header, content: Bytes, head: Bytes, m: S.State, ok: bool, chunks: seq<Bytes>,
                          progress: seq<nat>)
  {
    && m.wire == head + Concat(chunks) && Concat(chunks) <= content && |Concat(chunks)| <= header.size
    && (m.fin ==> |Concat(chunks)| == header.size)
    && (header.size > 0 ==> Reported(progress, chunks) && (m.fin <==> |Concat(chunks)| == header.size))
    && (ok ==> m.fin && progress != [] && progress[|progress| - 1] == header.size)
  }

  lemma EmptySends(header: Header, c: S.State, sendOk: bool)
    requires c.phase == S.Accepted && header.size == 0 && c.sent == 0
    ensures Sends(header, c, S.SendEmptyFin(sendOk), sendOk, [], true, S.ChunkWait, 0)
  {
    hide Encode, S.HeaderSent, S.SendAwaited, S.DecisionTaken, S.SourceOpened, S.AckTaken, S.Received, S.PeerFinished,
      S.SendCompleted;
  }

  lemma HeaderSends(header: Header, sendOk: bool)
    ensures Sends(header, S.READY, S.SendHeader(sendOk), sendOk, Encode(header), false, S.HeaderWait, 0)
  {
    hide Encode;
  }

  lemma SourceStep(header: Header, c: S.State, opens: bool)
    requires c.phase == S.Accepted && header.size > 0
    ensures Reaches(S.Steps(header), c, [S.OpenSource(opens)], S.SourceOpened(c, opens))
  {
    hide Reaches;
    OneStep(S.Steps(header), c, S.OpenSource(opens));
  }

  lemma NothingCarried(header: Header, content: Bytes, head: Bytes, m: S.State)
    requires !m.fin && m.wire == head
    ensures Carried(header, content, head, m, false, [], [])
  {
    assert head + [] == head;
  }

  lemma EmptyCarried(header: Header, content: Bytes, head: Bytes, m: S.State, ok: bool, progress: seq<nat>)
    requires header.size == 0 && m.wire <= head + [] && |m.wire| == |head|
    requires ok ==> m.fin && progress == [0]
    ensures Carried(header, content, head, m, ok, [], progress)
  {
    assert head + [] == head;
  }

  lemma BodyCarried(header: Header, content: Bytes, c: S.State, m: S.State, ok: bool, chunks: seq<Bytes>,
                    progress: seq<nat>)
    requires header.size > 0 && BodySent(header.size, content, c, m, chunks) && Reported(progress, chunks)
    requires ok ==> m.fin && |progress| == |chunks|
    ensures Carried(header, content, c.wire, m, ok, chunks, progress)
  {
    assert chunks[..|chunks|] == chunks;
    if ok && progress != [] {
      assert progress[|progress| - 1] == Total(chunks, |progress|);
    }
  }

  lemma CarriedWhole(header: Header, content: Bytes, m: S.State, chunks: seq<Bytes>, progress: seq<nat>)
    requires Carried(header, content, Encode(header), m, true, chunks, progress)
    ensures m.fin && header.size <= |content| && m.wire == Encode(header) + content[..header.size]
  {
    hide Encode;
  }

  lemma CarriedOn(header: Header, content: Bytes, m: S.State, chunks: seq<Bytes>, progress: seq<nat>, d: S.State,
                  ok: bool)
    requires Carried(header, content, Encode(header), m, true, chunks, progress)
    requires d.wire == m.wire && d.fin == m.fin
    ensures Carried(header, content, Encode(header), d, ok, chunks, progress)
  {
    hide Encode;
  }

  /** Between `c` and `m` the chunks went out: a prefix of the content, never more than the declared size, with FIN
      exactly when the whole of it has gone. */
  ghost predicate BodySent(size: nat, content: Bytes, c: S.State, m: S.State, chunks: seq<Bytes>) {
    && m.wire == c.wire + Concat(chunks) && Concat(chunks) <= content && |Concat(chunks)| <= size
    && (m.fin <==> |Concat(chunks)| == size) && m.rejected == c.rejected
    && forall i :: 0 <= i < |chunks| ==> 0 < |chunks[i]| <= S.FILE_CHUNK
  }

  lemma NothingSent(size: nat, content: Bytes, c: S.State)
    requires size > 0 && !c.fin
    ensures BodySent(size, content, c, c, []) && Concat([]) == [] && Reported([], [])
  {
    assert c.wire + [] == c.wire;
  }

  lemma SentMore(size: nat, content: Bytes, c: S.State, m: S.State, chunks: seq<Bytes>, data: Bytes, d: S.State)
    requires BodySent(size, content, c, m, chunks)
    requires 0 < |data| <= S.FILE_CHUNK
    requires var k := |Concat(chunks)|; k + |data| <= size && k + |data| <= |content| && data == content[k..k + |data|]
    requires d.wire == m.wire + data && d.rejected == m.rejected && d.fin == (|Concat(chunks)| + |data| == size)
    ensures BodySent(size, content, c, d, chunks + [data])
    ensures |Concat(chunks + [data])| == |Concat(chunks)| + |data|
  {
    hide Concat;
    ConcatSnoc(chunks, data);
    var sent := Concat(chunks);
    assert sent == content[..|sent|];
    assert sent + data == content[..|sent| + |data|];
    assert c.wire + sent + data == c.wire + (sent + data);
  }

  lemma NotSent(size: nat, content: Bytes, c: S.State, m: S.State, chunks: seq<Bytes>, d: S.State)
    requires BodySent(size, content, c, m, chunks) && d.wire == m.wire && d.fin == m.fin && d.rejected == m.rejected
    ensures BodySent(size, content, c, d, chunks)
  {
  }

  /** read(): as much as there is and as was asked for, or less, but nothing only at the end. */
  function ReadCount(want: nat, left: nat, atMost: nat): (n: nat)
    ensures n <= want && n <= left && (n == 0 <==> want == 0 || left == 0)
  {
    if want == 0 || left == 0 then 0 else Min(Min(want, left), if atMost == 0 then 1 else atMost)
  }

  /** How much the first n chunks hold. */
  function Total(chunks: seq<Bytes>, n: nat): nat
    requires n <= |chunks|
  {
    |Concat(chunks[..n])|
  }

  /** What has gone out is reported after each completed chunk, more every time. */
  predicate Reported(progress: seq<nat>, chunks: seq<Bytes>) {
    && |progress| <= |chunks|
    && (forall i :: 0 <= i < |progress| ==> progress[i] == Total(chunks, i + 1))
    && (forall i :: 0 < i < |progress| ==> progress[i - 1] < progress[i])
  }

  /** Where the sender is once its send has completed. */
  function Woken(header: Header, phase: S.Phase, sent: nat): S.Phase {
    if phase == S.HeaderWait then S.DecisionWait else if sent < header.size then S.Body else S.AckWait
  }

  /** Event `e` sends `data` and waits in `phase`, or is refused. */
  ghost predicate Sends(header: Header, c: S.State, e: S.Event, sendOk: bool, data: Bytes, fin: bool, phase: S.Phase,
                        sent: nat)
  {
    && S.Enabled(c, header.size, e) && (phase == S.HeaderWait || phase == S.ChunkWait)
    && S.Next(c, header, e) == if sendOk then S.Enqueued(c, data, fin).(phase := phase, sent := sent)
                               else S.SendRefused(c.(sent := sent))
  }

  lemma ChunkSends(header: Header, c: S.State, data: Bytes, sendOk: bool)
    requires c.phase == S.Body && 0 < |data| <= S.FILE_CHUNK && c.sent + |data| <= header.size
    ensures Sends(header, c, S.ReadChunk(data, sendOk), sendOk, data, c.sent + |data| >= header.size, S.ChunkWait,
                  c.sent + |data|)
  {
    hide S.ChunkSent;
    ReadStep(header, c, data, sendOk);
    ChunkIsSend(c, data, header.size, sendOk);
  }

  lemma ReadStep(header: Header, c: S.State, data: Bytes, sendOk: bool)
    requires c.phase == S.Body && c.sent + |data| <= header.size && |data| <= S.FILE_CHUNK && c.sent < header.size
    ensures S.Enabled(c, header.size, S.ReadChunk(data, sendOk))
    ensures S.Next(c, header, S.ReadChunk(data, sendOk)) == S.ChunkSent(c, data, header.size, sendOk)
  {
    hide S.ChunkSent;
  }

  lemma ChunkIsSend(c: S.State, data: Bytes, size: nat, sendOk: bool)
    requires data != []
    ensures var sent := c.sent + |data|;
            S.ChunkSent(c, data, size, sendOk) ==
              if sendOk then S.Enqueued(c, data, sent >= size).(phase := S.ChunkWait, sent := sent)
              else S.SendRefused(c.(sent := sent))
  {
  }

  lemma GaveUp(header: Header, c: S.State)
    requires c.phase == S.Body && c.sent < header.size
    ensures S.Enabled(c, header.size, S.ReadChunk([], true))
    ensures S.Next(c, header, S.ReadChunk([], true)) == S.Abandoned(c)
  {
  }

  lemma TotalLater(chunks: seq<Bytes>, data: Bytes, n: nat)
    requires n <= |chunks|
    ensures Total(chunks + [data], n) == Total(chunks, n)
    ensures Total(chunks + [data], |chunks| + 1) == Total(chunks, |chunks|) + |data|
  {
    var longer := chunks + [data];
    assert longer[..n] == chunks[..n];
    assert longer[..|longer|] == longer && chunks[..|chunks|] == chunks;
    ConcatSnoc(chunks, data);
  }

  lemma {:induction false} ReportedLater(progress: seq<nat>, chunks: seq<Bytes>, data: Bytes)
    requires Reported(progress, chunks) && |progress| == |chunks| && data != []
    ensures Reported(progress, chunks + [data])
    ensures Reported(progress + [|Concat(chunks)| + |data|], chunks + [data])
  {
    assert chunks[..|chunks|] == chunks;
    TotalLater(chunks, data, |chunks|);
    forall i {:trigger progress[i]} | 0 <= i < |progress|
      ensures Total(chunks + [data], i + 1) == Total(chunks, i + 1)
    {
      TotalLater(chunks, data, i + 1);
    }
    if progress != [] {
      assert progress[|progress| - 1] == Total(chunks, |chunks|);
    }
  }

  lemma RefusedSend(header: Header, c: S.State, e: S.Event, data: Bytes, fin: bool, phase: S.Phase, sent: nat)
    requires Sends(header, c, e, false, data, fin, phase, sent)
    ensures Reaches(S.Steps(header), c, [e], S.Abandoned(c.(sendDone := false)).(sent := sent))
  {
    hide S.Next, S.Enabled, Reaches;
    OneStep(S.Steps(header), c, e);
  }

  lemma TakenSend(header: Header, c: S.State, e: S.Event, data: Bytes, fin: bool, phase: S.Phase, sent: nat)
    requires Sends(header, c, e, true, data, fin, phase, sent)
    ensures var d := S.Enqueued(c, data, fin);
            && Reaches(S.Steps(header), c, [e], d.(phase := phase, sent := sent))
            && (phase == S.HeaderWait || phase == S.ChunkWait)
            && S.Enqueued(c.(sendDone := false), data, fin) == d
            && d.wire == c.wire + data && d.fin == (c.fin || fin) && d.rejected == c.rejected && d.aborted == c.aborted
  {
    hide S.Next, S.Enabled, Reaches;
    OneStep(S.Steps(header), c, e);
  }

  /** One buffer goes to the decision or to the acknowledgement. */
  function Held(c: S.State, data: Bytes): S.State {
    if c.awaiting then c.(decisionBuf := c.decisionBuf + data) else c.(ack := c.ack + data)
  }

  /** After the last buffer: is the decision complete? */
  function Decided(c: S.State): S.State {
    if c.awaiting && S.HasNewline(c.decisionBuf) then S.Resolved(c, S.SaysAccept(c.decisionBuf)) else c
  }

  lemma NothingHeld(c: S.State)
    ensures Held(c, Concat([])) == c
  {
    assert c.decisionBuf + [] == c.decisionBuf && c.ack + [] == c.ack;
  }

  lemma HeldTwice(c: S.State, a: Bytes, b: Bytes)
    ensures Held(Held(c, a), b) == Held(c, a + b)
  {
    if c.awaiting {
      assert c.decisionBuf + a + b == c.decisionBuf + (a + b);
    } else {
      assert c.ack + a + b == c.ack + (a + b);
    }
  }

  lemma ReceivedIsHeld(c: S.State, data: Bytes)
    ensures S.Received(c, data) == Decided(Held(c, data))
  {
    hide S.HasNewline, S.SaysAccept;
  }
}
