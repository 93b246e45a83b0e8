/** What a sender does in each of the situations the source tells apart, and how its calls end, over whole runs. */
module SenderLaws {
  import opened ByteStrings
  import opened HeaderCodec
  import opened Runs
  import opened Sender

  // ---------------------------------------------------------------- answers, by character

  predicate BeginsAccept(text: Bytes) {
    && |text| >= 6 && text[0] == 'A' && text[1] == 'C' && text[2] == 'C' && text[3] == 'E' && text[4] == 'P'
    && text[5] == 'T'
  }

  predicate BeginsOk(text: Bytes) { |text| >= 2 && text[0] == 'O' && text[1] == 'K' }

  lemma PrefixByCharacter(text: Bytes)
    ensures SaysAccept(text) <==> BeginsAccept(text)
    ensures SaysOk(text) <==> BeginsOk(text)
    ensures HasNewline(text) <==> '\n' in text
  {
    var a: Bytes := "ACCEPT";
    assert |a| == 6 && a[0] == 'A' && a[1] == 'C' && a[2] == 'C' && a[3] == 'E' && a[4] == 'P' && a[5] == 'T';
    if BeginsAccept(text) {
      assert text[..6] == a;
    }
    if BeginsOk(text) {
      assert text[..2] == "OK";
    }
  }

  /** While a decision is awaited: the first newline settles it, by how the buffer begins. */
  lemma {:induction false} DecisionRead(c: State, data: Bytes)
    requires c.awaiting && '\n' in c.decisionBuf + data
    ensures var d, buf := Received(c, data), c.decisionBuf + data;
            && !d.awaiting && d.decisionReady && d.decisionAccepted == BeginsAccept(buf)
            && d.decisionBuf == buf && d.ack == c.ack && d.done == c.done && d.ok == c.ok
  {
    hide HasNewline, SaysAccept, BeginsAccept;
    PrefixByCharacter(c.decisionBuf + data);
  }

  /** Until then it is only collected. */
  lemma {:induction false} DecisionCollected(c: State, data: Bytes)
    requires c.awaiting && '\n' !in c.decisionBuf + data
    ensures Received(c, data) == c.(decisionBuf := c.decisionBuf + data)
  {
    hide HasNewline, SaysAccept, BeginsAccept;
    PrefixByCharacter(c.decisionBuf + data);
  }

  /** After it everything is acknowledgement; nothing is concluded before the end. */
  lemma {:induction false} AckRead(c: State, data: Bytes)
    requires !c.awaiting
    ensures Received(c, data) == c.(ack := c.ack + data)
  {
  }

  /** The end of the answers settles what is open, newline or not. */
  lemma {:induction false} EndRead(c: State)
    ensures var d := PeerFinished(c);
            if c.awaiting
            then d.decisionReady && !d.awaiting && d.decisionAccepted == BeginsAccept(c.decisionBuf) && d.done == c.done
            else d.done && d.ok == BeginsOk(c.ack) && d.decisionAccepted == c.decisionAccepted
  {
    hide SaysAccept, SaysOk;
    PrefixByCharacter(c.decisionBuf);
    PrefixByCharacter(c.ack);
  }

  // ---------------------------------------------------------------- sending

  /** The decision taken up: ACCEPT goes on, anything else is a rejection, and the stream is aborted. */
  lemma {:induction false} DecisionTakenUp(c: State, header: Header)
    requires c.phase == DecisionWait && c.decisionReady
    ensures Enabled(c, header.size, DecisionWake) && !Enabled(c, header.size, DecisionTimeout)
    ensures var d := Next(c, header, DecisionWake);
            if c.decisionAccepted then d.phase == Accepted && d.rejected == c.rejected && d.aborted == c.aborted
            else d.phase == Ended(false) && d.rejected && d.aborted
  {
    hide Enqueued, Received, PeerFinished;
  }

  /** An empty file is a bare FIN, and its source is not even opened. */
  lemma {:induction false} EmptyBegun(c: State, header: Header)
    requires c.phase == Accepted
    ensures forall ok :: Enabled(c, header.size, SendEmptyFin(ok)) <==> header.size == 0
    ensures forall ok :: Enabled(c, header.size, OpenSource(ok)) <==> header.size > 0
    ensures var d := EmptySent(c, true); d.fin && d.wire == c.wire && d.phase == ChunkWait && d.aborted == c.aborted
    ensures var d := EmptySent(c, false); d.fin == c.fin && d.wire == c.wire && d.phase == Ended(false) && d.aborted
  {
    assert c.wire + [] == c.wire;
  }

  /** Any other is opened, and given up on with an abort if that fails. */
  lemma {:induction false} SourceBegun(c: State, ok: bool)
    ensures var d := SourceOpened(c, ok);
            && d.wire == c.wire && d.fin == c.fin && d.aborted == (c.aborted || !ok)
            && d.phase == if ok then Body else Ended(false)
  {
  }

  /** A chunk goes out whole, with FIN exactly when it is the last; a read that brings nothing, or a refused send,
      aborts the stream and sends nothing. */
  lemma {:induction false} ChunkGone(c: State, data: Bytes, size: nat, sendOk: bool)
    ensures var d := ChunkSent(c, data, size, sendOk);
            if data != [] && sendOk
            then d.wire == c.wire + data && d.fin == (c.fin || c.sent + |data| >= size) && d.phase == ChunkWait
                 && d.sent == c.sent + |data| && d.aborted == c.aborted && d.inFlight == c.inFlight + 1
            else d.wire == c.wire && d.fin == c.fin && d.aborted && d.phase == Ended(false) && d.inFlight == c.inFlight
  {
  }

  // ---------------------------------------------------------------- how a call ends

  /** The waits for the verdict that ended. */
  predicate IsAckEnd(e: Event) { e.AckWake? || e.AckTimeout? }

  predicate AckEnded(es: seq<Event>) { exists e <- es :: IsAckEnd(e) }

  /** Which phases go with how much sent; and aborting is giving up before the last wait. */
  predicate EndInv(size: nat, c: State, ackEnded: bool) {
    && (c.phase == Start || c.phase == HeaderWait || c.phase == DecisionWait || c.phase == Accepted ==>
          c.sent == 0 && !c.fin)
    && (c.phase == Body ==> c.sent < size && !c.fin)
    && (c.phase == ChunkWait ==> c.sent <= size && (c.fin <==> c.sent == size))
    && (c.phase == AckWait ==> c.sent == size && c.fin)
    && (c.aborted <==> c.phase == Ended(false) && !ackEnded)
    && (ackEnded ==> c.phase.Ended? && c.fin && c.sent == size)
    && (c.phase == Ended(true) ==> ackEnded)
    && (c.rejected ==> c.phase == Ended(false) && c.aborted)
  }

  lemma HeaderEnds(c: State, header: Header, sendOk: bool)
    requires EndInv(header.size, c, false) && c.phase == Start
    ensures EndInv(header.size, HeaderSent(c, header, sendOk), false)
  {
    hide Encode;
  }

  lemma AwaitedEnds(c: State, size: nat)
    requires EndInv(size, c, false) && (c.phase == HeaderWait || c.phase == ChunkWait)
    ensures EndInv(size, SendAwaited(c, size), false)
  {
  }

  lemma AbandonedEnds(c: State, size: nat)
    requires EndInv(size, c, false) && !c.phase.Ended?
    ensures EndInv(size, Abandoned(c), false)
  {
  }

  lemma DecisionEnds(c: State, size: nat)
    requires EndInv(size, c, false) && c.phase == DecisionWait
    ensures EndInv(size, DecisionTaken(c), false)
  {
  }

  lemma EmptyEnds(c: State, sendOk: bool)
    requires EndInv(0, c, false) && c.phase == Accepted
    ensures EndInv(0, EmptySent(c, sendOk), false)
  {
  }

  lemma SourceEnds(c: State, size: nat, openOk: bool)
    requires EndInv(size, c, false) && c.phase == Accepted && size > 0
    ensures EndInv(size, SourceOpened(c, openOk), false)
  {
  }

  lemma ChunkEnds(c: State, data: Bytes, size: nat, sendOk: bool)
    requires EndInv(size, c, false) && c.phase == Body && |data| <= size - c.sent
    ensures EndInv(size, ChunkSent(c, data, size, sendOk), false)
  {
    hide ChunkSent;
    ChunkGone(c, data, size, sendOk);
    ChunkKeeps(c, data, size, sendOk);
  }

  lemma ChunkKeeps(c: State, data: Bytes, size: nat, sendOk: bool)
    ensures ChunkSent(c, data, size, sendOk).rejected == c.rejected
  {
  }

  lemma AckEnds(c: State, size: nat)
    requires EndInv(size, c, false) && c.phase == AckWait
    ensures EndInv(size, AckTaken(c), true) && EndInv(size, c.(phase := Ended(false)), true)
  {
  }

  lemma CallbackEnds(c: State, size: nat, d: State, ackEnded: bool)
    requires EndInv(size, c, ackEnded) && d.phase == c.phase && d.sent == c.sent && d.fin == c.fin
    requires d.aborted == c.aborted && d.rejected == c.rejected
    ensures EndInv(size, d, ackEnded)
  {
  }

  lemma OwnStepEnds(header: Header, c: State, e: Event)
    requires EndInv(header.size, c, false) && Enabled(c, header.size, e)
    requires !e.Receive? && !e.PeerFin? && !e.SendComplete?
    ensures EndInv(header.size, Next(c, header, e), IsAckEnd(e))
  {
    hide EndInv, HeaderSent, SendAwaited, DecisionTaken, EmptySent, SourceOpened, ChunkSent, AckTaken, Abandoned,
      Received, PeerFinished;
    match e
    case SendHeader(sendOk) => HeaderEnds(c, header, sendOk);
    case SendWake => AwaitedEnds(c, header.size);
    case SendTimeout => AbandonedEnds(c, header.size);
    case DecisionWake => DecisionEnds(c, header.size);
    case DecisionTimeout => AbandonedEnds(c, header.size);
    case SendEmptyFin(sendOk) => EmptyEnds(c, sendOk);
    case OpenSource(openOk) => SourceEnds(c, header.size, openOk);
    case ReadChunk(data, sendOk) => ChunkEnds(c, data, header.size, sendOk);
    case AckWake => AckEnds(c, header.size);
    case AckTimeout => AckEnds(c, header.size);
  }

  lemma CallbackStepEnds(header: Header, c: State, e: Event, ackEnded: bool)
    requires EndInv(header.size, c, ackEnded) && Enabled(c, header.size, e)
    requires e.Receive? || e.PeerFin? || e.SendComplete?
    ensures EndInv(header.size, Next(c, header, e), ackEnded)
  {
    hide EndInv, HeaderSent, SendAwaited, DecisionTaken, EmptySent, SourceOpened, ChunkSent, AckTaken, Abandoned,
      Received, PeerFinished;
    match e {
      case Receive(bytes) => ReceivedOnlyReads(c, bytes);
      case PeerFin => FinishedOnlyReads(c);
      case SendComplete =>
    }
    CallbackEnds(c, header.size, Next(c, header, e), ackEnded);
  }

  lemma StepEnds(header: Header, c: State, e: Event, ackEnded: bool)
    requires EndInv(header.size, c, ackEnded) && Enabled(c, header.size, e)
    ensures EndInv(header.size, Next(c, header, e), ackEnded || IsAckEnd(e))
  {
    hide EndInv, Next;
    if e.Receive? || e.PeerFin? || e.SendComplete? {
      CallbackStepEnds(header, c, e, ackEnded);
    } else {
      if ackEnded {
        EndedIsEnded(c, header.size);
      }
      OwnStepEnds(header, c, e);
    }
  }

  lemma EndedIsEnded(c: State, size: nat)
    requires EndInv(size, c, true)
    ensures c.phase.Ended?
  {
  }

  lemma {:induction false} RunEnds(header: Header, es: seq<Event>)
    requires Run(Steps(header), READY, es).Some?
    ensures EndInv(header.size, Run(Steps(header), READY, es).value, AckEnded(es))
  {
    hide EndInv, Enabled, Next, IsAckEnd;
    if es == [] {
      assert EndInv(header.size, READY, false) by { ReadyEnds(header.size); }
      assert !AckEnded([]);
    } else {
      var front, e := es[..|es| - 1], es[|es| - 1];
      LastStep(Steps(header), READY, es);
      RunEnds(header, front);
      StepEnds(header, Run(Steps(header), READY, front).value, e, AckEnded(front));
      assert es == front + [e];
      assert AckEnded(es) <==> AckEnded(front) || IsAckEnd(e);
    }
  }

  lemma ReadyEnds(size: nat)
    ensures EndInv(size, READY, false)
  {
  }

  /** In every run: the receiver is told of every failure but that of the last wait. The stream is aborted exactly if
      the call has failed before that wait was over; a failure of that wait finds the whole content and FIN sent. */
  lemma {:induction false} FailuresAbort(header: Header, es: seq<Event>)
    requires Run(Steps(header), READY, es).Some?
    ensures var c := Run(Steps(header), READY, es).value;
            && (c.aborted <==> c.phase == Ended(false) && !AckEnded(es))
            && (c.phase == Ended(false) ==> c.aborted || (c.fin && c.sent == header.size))
            && (c.phase == Ended(true) ==> !c.aborted && c.fin && c.sent == header.size)
            && (c.rejected ==> c.phase == Ended(false) && c.aborted)
  {
    hide Run, AckEnded;
    RunEnds(header, es);
  }
}
