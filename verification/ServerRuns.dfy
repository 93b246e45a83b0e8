/** receive_file on its own thread beside the stream callbacks, against an arbitrary peer and arbitrary faults:
    one transition per callback fragment and per segment of receive_file between two waits
    (src/transfer/quic_server.cpp:160-208, 543-677). */
module ServerRuns {
  import opened ByteStrings
  import opened FileNames
  import opened HeaderCodec
  import opened Receiver
  import opened Runs

  /** Where receive_file stands. */
  datatype App =
    | Idle                       // not called yet
    | WaitOffer                  // waiting for the header to prompt for
    | Asking                     // the offer callback is running
    | Granted                    // it said yes; the output is not open yet
    | Opened                     // the output is open; file_accepted_ is still false
    | Stored                     // file_accepted_ is true; ACCEPT is not sent yet
    | WaitDone                   // waiting for the verdict
    | Draining(success: bool)    // waiting for the peer to close
    | Returned(success: bool)

  /** The callback thread: outside RECEIVE, or inside one that found receiving_file_ as recorded. */
  datatype Callback = Outside | Inside(live: bool)

  datatype Node = Node(
    rx: State,
    app: App,
    callback: Callback,
    started: bool,               // PEER_STREAM_STARTED has been seen
    finSeen: bool,               // PEER_SEND_SHUTDOWN has been seen
    aborts: nat,                 // how many abort events have been seen
    completed: nat,              // how many SEND_COMPLETE events have been seen
    consent: bool,               // history: no offer callback, or it returned true
    verified: Option<Bytes>)     // history: the disk content that passed finish_file_receive

  datatype Event =
    | StreamStart
    | Fragment(data: Bytes, live: bool, faults: Faults)
    | PeerFin(readback: Option<Bytes>, finSendOk: bool)
    | SendComplete
    | PeerAbort
    | Arm
    | OfferWake
    | OfferTimeout
    | Answer(yes: bool, rejectSendOk: bool)
    | OpenOutput(openOk: bool, refuseSendOk: bool)
    | StoreAccepted
    | SendAccept(acceptSendOk: bool)
    | DoneWake
    | DoneTimeout
    | DrainEnd

  /** The transport delivers stream events in order and nothing after the FIN; a RECEIVE event goes on with the
      answer it got when it began; the waits of receive_file end by their predicate or by their timeout. */
  predicate Enabled(n: Node, e: Event) {
    match e
    case StreamStart => !n.started
    case Fragment(data, live, faults) =>
      n.started && !n.finSeen && (live == n.rx.armed || n.callback == Inside(live))
    case PeerFin(readback, sendOk) => n.started && !n.finSeen
    case SendComplete => n.started
    case PeerAbort => n.started
    case Arm => n.app == Idle
    case OfferWake => n.app == WaitOffer && (n.rx.offerReady || n.rx.done)
    case OfferTimeout => n.app == WaitOffer && !n.rx.offerReady && !n.rx.done
    case Answer(yes, sendOk) => n.app == Asking
    case OpenOutput(openOk, sendOk) => n.app == Granted
    case StoreAccepted => n.app == Opened
    case SendAccept(sendOk) => n.app == Stored
    case DoneWake => n.app == WaitDone && n.rx.done
    case DoneTimeout => n.app == WaitDone && !n.rx.done
    case DrainEnd => n.app.Draining?
  }

  // ---------------------------------------------------------------- transitions

  function OnStreamStart(n: Node): Node { n.(rx := StreamStarted(n.rx), started := true) }

  /** append_file_bytes for one buffer of a RECEIVE event. */
  function OnFragment(setup: Setup, n: Node, data: Bytes, live: bool, faults: Faults): Node {
    n.(rx := if live then Appended(setup, n.rx, data, faults) else n.rx, callback := Inside(live))
  }

  predicate Passes(setup: Setup, rx: State, readback: Option<Bytes>) {
    rx.armed && (rx.accepted || rx.ioError) && Verdict(setup, rx, readback) == Fine
  }

  function OnPeerFin(setup: Setup, n: Node, readback: Option<Bytes>, sendOk: bool): Node {
    n.(rx := PeerFinished(setup, n.rx, readback, sendOk), callback := Outside, finSeen := true,
       verified := if Passes(setup, n.rx, readback) then readback else n.verified)
  }

  function OnSendComplete(n: Node): Node {
    n.(rx := SendCompleted(n.rx), callback := Outside, completed := n.completed + 1)
  }

  function OnPeerAbort(n: Node): Node {
    n.(rx := PeerAbortSeen(n.rx), callback := Outside, aborts := n.aborts + 1)
  }

  function OnArm(setup: Setup, n: Node): Node {
    n.(rx := Armed(setup, n.rx), app := if setup.prompt then WaitOffer else WaitDone, consent := !setup.prompt)
  }

  function OnOfferWake(n: Node): Node {
    if n.rx.done then n.(rx := Disarmed(n.rx), app := Returned(false)) else n.(app := Asking)
  }

  function OnOfferTimeout(n: Node): Node { n.(rx := Disarmed(n.rx), app := Returned(false)) }

  function OnAnswer(n: Node, yes: bool, sendOk: bool): Node {
    if yes then n.(app := Granted, consent := true)
    else n.(rx := OfferDeclined(n.rx, sendOk), app := Draining(false))
  }

  function OnOpenOutput(n: Node, openOk: bool, sendOk: bool): Node {
    n.(rx := OfferOpened(n.rx, openOk, sendOk), app := if openOk then Opened else Draining(false))
  }

  function OnStoreAccepted(n: Node): Node { n.(rx := OfferGranted(n.rx), app := Stored) }

  function OnSendAccept(n: Node, sendOk: bool): Node { n.(rx := GrantSent(n.rx, sendOk), app := WaitDone) }

  function OnDoneWake(n: Node): Node {
    if n.rx.ok then n.(app := Draining(true)) else n.(rx := GivenUp(n.rx), app := Returned(false))
  }

  function OnDoneTimeout(n: Node): Node { n.(rx := GivenUp(n.rx), app := Returned(false)) }

  function OnDrainEnd(n: Node): Node { n.(rx := Disarmed(n.rx), app := Returned(n.app == Draining(true))) }

  function Next(setup: Setup, n: Node, e: Event): Node {
    match e
    case StreamStart => OnStreamStart(n)
    case Fragment(data, live, faults) => OnFragment(setup, n, data, live, faults)
    case PeerFin(readback, sendOk) => OnPeerFin(setup, n, readback, sendOk)
    case SendComplete => OnSendComplete(n)
    case PeerAbort => OnPeerAbort(n)
    case Arm => OnArm(setup, n)
    case OfferWake => OnOfferWake(n)
    case OfferTimeout => OnOfferTimeout(n)
    case Answer(yes, sendOk) => OnAnswer(n, yes, sendOk)
    case OpenOutput(openOk, sendOk) => OnOpenOutput(n, openOk, sendOk)
    case StoreAccepted => OnStoreAccepted(n)
    case SendAccept(sendOk) => OnSendAccept(n, sendOk)
    case DoneWake => OnDoneWake(n)
    case DoneTimeout => OnDoneTimeout(n)
    case DrainEnd => OnDrainEnd(n)
  }

  /** A server object before receive_file, whatever an earlier transfer left in its fields. */
  predicate Init(n: Node) {
    n.app == Idle && !n.rx.armed && n.rx.replies == [] && n.callback == Outside && !n.started && !n.finSeen &&
    n.aborts == 0 && n.completed == 0 && !n.consent && n.verified == None
  }

  // ---------------------------------------------------------------- invariant

  /** Output, acceptance and consent hang together; the output holds as many bytes as were counted. */
  predicate OutputInv(setup: Setup, n: Node) {
    var rx := n.rx;
    && (rx.accepted ==> rx.parsed && !rx.out.NoFile? && rx.written <= rx.header.size)
    && (!rx.accepted ==> rx.written == 0 && !rx.overflow)
    && (if rx.out.NoFile? then rx.written == 0 else |rx.out.bytes| == rx.written)
    && (!rx.out.NoFile? ==> n.consent && rx.parsed)
    && (rx.offerReady ==> rx.parsed && setup.prompt)
    && (rx.ioError ==> rx.parsed)
  }

  /** Which phases of the prompt path go with which fields. */
  predicate PhaseInv(setup: Setup, n: Node) {
    var rx := n.rx;
    && (!setup.prompt ==> n.consent && (n.app == WaitDone || n.app.Draining? || n.app.Returned?))
    && (setup.prompt && (n.app == WaitOffer || n.app == Asking || n.app == Granted) ==>
          !rx.accepted && rx.out.NoFile? && (rx.ioError ==> !rx.offerReady))
    && (n.app == Asking || n.app == Granted || n.app == Opened || n.app == Stored ==>
          setup.prompt && rx.parsed && rx.offerReady)
    && (n.app == Asking || n.app == Granted ==> !rx.ioError)
    && (n.app == Opened ==> !rx.out.NoFile? && !rx.accepted && !rx.ioError && n.consent)
    && (n.app == Granted ==> n.consent)
    && (n.app == Stored ==> rx.accepted)
    && (rx.armed || n.app.Returned?)
    && (rx.replies != [] && rx.replies[0] == REJECT ==> setup.prompt)
    && (rx.result.rejected ==> setup.prompt && !rx.accepted && (n.app == Draining(false) || n.app == Returned(false)))
  }

  predicate OkSent(rx: State) { rx.replies != [] && rx.replies[|rx.replies| - 1] == OK }

  /** Success is only ever recorded on the strength of a verified file and an OK on the wire. */
  predicate SuccessInv(setup: Setup, n: Node) {
    var rx := n.rx;
    && (rx.ok || rx.result.success ==> n.verified.Some? && OkSent(rx))
    && (n.app == Draining(true) || n.app == Returned(true) ==> n.verified.Some? && OkSent(rx))
    && (n.verified.Some? ==>
          && n.finSeen && n.started && rx.accepted && rx.parsed && !rx.ioError && !rx.overflow
          && rx.written == rx.header.size && rx.out.Closed?
          && setup.hash(n.verified.value) == rx.header.sha256)
    && (!n.finSeen ==> rx.result.error != HeaderMissing)
    && (!n.started ==> !rx.accepted && !rx.parsed && !rx.ioError && rx.replies == [] && !n.finSeen)
  }

  /** The closing verdict sent to the peer matches the history. */
  predicate VerdictSent(n: Node, r: Reply) {
    (r == OK && n.verified.Some?) || (r == FAIL && n.finSeen && n.verified.None?)
  }

  /** What has been said to the peer: an optional ACCEPT then a verdict, or a single REJECT. */
  predicate ReplyInv(n: Node) {
    var r := n.rx.replies;
    && |r| <= 2
    && (|r| >= 1 && r[0] == ACCEPT ==> n.rx.accepted && n.app != Stored)
    && (|r| >= 1 && r[0] == REJECT ==>
          |r| == 1 && n.rx.parsed && !n.rx.accepted && (n.app == Draining(false) || n.app == Returned(false)))
    && (|r| == 1 ==> r[0] == ACCEPT || r[0] == REJECT || VerdictSent(n, r[0]))
    && (|r| == 2 ==> r[0] == ACCEPT && VerdictSent(n, r[1]))
  }

  /** Before receive_file is called nothing is processed. */
  predicate IdleInv(n: Node) {
    && !n.rx.armed && n.callback != Inside(true) && n.verified == None && n.rx.replies == [] && !n.consent
  }

  predicate Inv(setup: Setup, n: Node) {
    if n.app == Idle then IdleInv(n) && (!n.started ==> !n.finSeen)
    else OutputInv(setup, n) && PhaseInv(setup, n) && SuccessInv(setup, n) && ReplyInv(n)
  }

  lemma InvInit(setup: Setup, n: Node)
    requires Init(n)
    ensures Inv(setup, n)
  {
  }

  lemma StreamStartKeepsInv(setup: Setup, n: Node)
    requires Inv(setup, n) && !n.started
    ensures Inv(setup, OnStreamStart(n))
  {
  }

  /** Everything but the output, its byte count, the two error flags and the error text. */
  predicate SameControl(s: State, t: State) {
    && t.armed == s.armed && t.buffer == s.buffer && t.parsed == s.parsed && t.header == s.header
    && t.path == s.path && t.offerReady == s.offerReady && t.accepted == s.accepted && t.finalAck == s.finalAck
    && t.done == s.done && t.ok == s.ok && t.replies == s.replies && t.result.success == s.result.success
    && t.result.rejected == s.result.rejected
  }

  /** What writing body bytes can change. */
  lemma BodyEffect(s: State, data: Bytes, writeOk: bool)
    ensures var t := BodyAppended(s, data, writeOk);
            && SameControl(s, t)
            && (!s.accepted || s.ioError || !s.out.Open? ==> t == s)
            && (t.result.error == s.result.error || t.result.error == WriteFailed)
            && (t.out.NoFile? <==> s.out.NoFile?)
  {
    hide Minus64, Plus64, FinSent;
    if s.accepted && !s.ioError && s.out.Open? && data != [] {
      WriteEffect(s, data, writeOk);
    }
  }

  lemma WriteEffect(s: State, data: Bytes, writeOk: bool)
    requires s.accepted && !s.ioError && s.out.Open? && data != []
    ensures var t := BodyAppended(s, data, writeOk);
            && SameControl(s, t) && t.out.Open?
            && (t.result.error == s.result.error || t.result.error == WriteFailed)
  {
    hide Minus64, Plus64, FinSent;
  }

  /** A send changes nothing but the answers. */
  lemma SentEffect(s: State, reply: Reply, sendOk: bool)
    ensures Sent(s, reply, sendOk) == s.(replies := Sent(s, reply, sendOk).replies)
  {
  }

  lemma {:induction false} BodyCount(s: State, data: Bytes, writeOk: bool)
    requires s.written <= s.header.size && (!s.out.NoFile? ==> |s.out.bytes| == s.written)
    ensures var t := BodyAppended(s, data, writeOk);
            && t.written <= s.header.size
            && (!s.out.NoFile? && !t.out.NoFile? ==> |t.out.bytes| == t.written)
            && (s.out.NoFile? ==> t.written == s.written)
  {
  }

  lemma FragmentKeepsInv(setup: Setup, n: Node, data: Bytes, live: bool, faults: Faults)
    requires Inv(setup, n) && !n.finSeen && n.started && (live == n.rx.armed || n.callback == Inside(live))
    ensures Inv(setup, OnFragment(setup, n, data, live, faults))
  {
    if n.app != Idle && live {
      if n.rx.parsed {
        BodyKeepsInv(setup, n, data, faults.writeOk);
      } else {
        HeaderKeepsInv(setup, n, data, faults);
      }
    }
  }

  lemma BodyKeepsInv(setup: Setup, n: Node, data: Bytes, writeOk: bool)
    requires n.app != Idle && Inv(setup, n) && !n.finSeen && n.started && n.rx.parsed
    ensures Inv(setup, n.(rx := BodyAppended(n.rx, data, writeOk), callback := Inside(true)))
  {
    hide BodyAppended;
    BodyEffect(n.rx, data, writeOk);
    if n.rx.accepted {
      BodyCount(n.rx, data, writeOk);
    }
  }

  lemma HeaderKeepsInv(setup: Setup, n: Node, data: Bytes, faults: Faults)
    requires n.app != Idle && Inv(setup, n) && !n.finSeen && n.started && !n.rx.parsed
    ensures var rx := HeaderTried(setup, n.rx.(buffer := n.rx.buffer + data), faults);
            Inv(setup, n.(rx := rx, callback := Inside(true)))
  {
    hide Decode, JoinPath, AutoAccepted;
    var s := n.rx.(buffer := n.rx.buffer + data);
    var decoded := Decode(s.buffer);
    if decoded.Some? && !setup.prompt {
      AutoAcceptKeepsInv(setup, n, HeaderStored(setup, s, decoded.value.header),
                         Rest(s.buffer, decoded.value.consumed), faults);
    }
  }

  lemma AutoAcceptKeepsInv(setup: Setup, n: Node, s: State, body: Bytes, faults: Faults)
    requires n.app != Idle && Inv(setup, n) && !n.finSeen && n.started && !n.rx.parsed && !setup.prompt
    requires s == n.rx.(buffer := s.buffer, header := s.header, parsed := true, path := s.path)
    ensures Inv(setup, n.(rx := AutoAccepted(s, body, faults), callback := Inside(true)))
  {
    hide BodyAppended;
    if faults.openOk {
      var u := Sent(OutputOpened(s, true).(accepted := true), ACCEPT, faults.sendOk);
      BodyEffect(u, body, faults.writeOk);
      BodyCount(u, body, faults.writeOk);
    }
  }

  /** finish_file_receive in one line per case. */
  lemma {:induction false} FinishedEffect(setup: Setup, s: State, readback: Option<Bytes>, sendOk: bool)
    ensures var t := Finished(setup, s, readback, sendOk);
            var good, sent := Verdict(setup, s, readback) == Fine, sendOk && !FinSent(s);
            && t == s.(out := Shut(s.out), finalAck := sent, result := t.result, replies := t.replies,
                       done := s.done || !sent, ok := s.ok && sent)
            && t.result.success == (good && sent) && t.result.rejected == s.result.rejected
            && t.replies == (if sent then s.replies + [if good then OK else FAIL] else s.replies)
  {
  }

  lemma PeerFinKeepsInv(setup: Setup, n: Node, readback: Option<Bytes>, sendOk: bool)
    requires Inv(setup, n) && n.started && !n.finSeen
    ensures Inv(setup, OnPeerFin(setup, n, readback, sendOk))
  {
    hide Finished;
    FinishedEffect(setup, n.rx, readback, sendOk);
    var m := OnPeerFin(setup, n, readback, sendOk);
    if n.app != Idle {
      assert OutputInv(setup, m);
      assert PhaseInv(setup, m);
      assert SuccessInv(setup, m);
      assert ReplyInv(m);
    }
  }

  /** A completion in one line per field. */
  lemma CompleteEffect(s: State)
    ensures var t := SendCompleted(s);
            t == s.(done := t.done, ok := t.ok) && t.ok == if s.armed && s.finalAck then s.result.success else s.ok
  {
  }

  lemma SendCompleteKeepsInv(setup: Setup, n: Node)
    requires Inv(setup, n) && n.started
    ensures Inv(setup, OnSendComplete(n))
  {
    hide SendCompleted;
    CompleteEffect(n.rx);
  }

  /** An abort event in one line per field. */
  lemma AbortEffect(s: State)
    ensures var t := PeerAbortSeen(s);
            if !s.armed then t == s
            else && t == s.(out := Shut(s.out), done := true, ok := false, result := t.result)
                 && !t.result.success && t.result.rejected == s.result.rejected
                 && (t.result.error == s.result.error || t.result.error == PeerAborted)
  {
  }

  lemma PeerAbortKeepsInv(setup: Setup, n: Node)
    requires Inv(setup, n) && n.started
    ensures Inv(setup, OnPeerAbort(n))
  {
    hide PeerAbortSeen;
    AbortEffect(n.rx);
  }

  lemma ArmKeepsInv(setup: Setup, n: Node)
    requires Inv(setup, n) && n.app == Idle
    ensures Inv(setup, OnArm(setup, n))
  {
  }

  lemma OfferWakeKeepsInv(setup: Setup, n: Node)
    requires Inv(setup, n) && n.app == WaitOffer && (n.rx.offerReady || n.rx.done)
    ensures Inv(setup, OnOfferWake(n))
  {
  }

  lemma OfferTimeoutKeepsInv(setup: Setup, n: Node)
    requires Inv(setup, n) && n.app == WaitOffer
    ensures Inv(setup, OnOfferTimeout(n))
  {
  }

  lemma AnswerKeepsInv(setup: Setup, n: Node, yes: bool, sendOk: bool)
    requires Inv(setup, n) && n.app == Asking
    ensures Inv(setup, OnAnswer(n, yes, sendOk))
  {
  }

  lemma OpenOutputKeepsInv(setup: Setup, n: Node, openOk: bool, sendOk: bool)
    requires Inv(setup, n) && n.app == Granted
    ensures Inv(setup, OnOpenOutput(n, openOk, sendOk))
  {
  }

  lemma StoreAcceptedKeepsInv(setup: Setup, n: Node)
    requires Inv(setup, n) && n.app == Opened
    ensures Inv(setup, OnStoreAccepted(n))
  {
  }

  lemma SendAcceptKeepsInv(setup: Setup, n: Node, sendOk: bool)
    requires Inv(setup, n) && n.app == Stored
    ensures Inv(setup, OnSendAccept(n, sendOk))
  {
  }

  lemma DoneWakeKeepsInv(setup: Setup, n: Node)
    requires Inv(setup, n) && n.app == WaitDone && n.rx.done
    ensures Inv(setup, OnDoneWake(n))
  {
  }

  lemma DoneTimeoutKeepsInv(setup: Setup, n: Node)
    requires Inv(setup, n) && n.app == WaitDone && !n.rx.done
    ensures Inv(setup, OnDoneTimeout(n))
  {
  }

  lemma DrainEndKeepsInv(setup: Setup, n: Node)
    requires Inv(setup, n) && n.app.Draining?
    ensures Inv(setup, OnDrainEnd(n))
  {
  }

  lemma {:induction false} StepKeepsInv(setup: Setup, n: Node, e: Event)
    requires Inv(setup, n) && Enabled(n, e)
    ensures Inv(setup, Next(setup, n, e))
  {
    hide Inv, OnStreamStart, OnFragment, OnPeerFin, OnSendComplete, OnPeerAbort, OnArm, OnOfferWake, OnOfferTimeout,
      OnAnswer, OnOpenOutput, OnStoreAccepted, OnSendAccept, OnDoneWake, OnDoneTimeout, OnDrainEnd;
    match e
    case StreamStart => StreamStartKeepsInv(setup, n);
    case Fragment(data, live, faults) => FragmentKeepsInv(setup, n, data, live, faults);
    case PeerFin(readback, sendOk) => PeerFinKeepsInv(setup, n, readback, sendOk);
    case SendComplete => SendCompleteKeepsInv(setup, n);
    case PeerAbort => PeerAbortKeepsInv(setup, n);
    case Arm => ArmKeepsInv(setup, n);
    case OfferWake => OfferWakeKeepsInv(setup, n);
    case OfferTimeout => OfferTimeoutKeepsInv(setup, n);
    case Answer(yes, sendOk) => AnswerKeepsInv(setup, n, yes, sendOk);
    case OpenOutput(openOk, sendOk) => OpenOutputKeepsInv(setup, n, openOk, sendOk);
    case StoreAccepted => StoreAcceptedKeepsInv(setup, n);
    case SendAccept(sendOk) => SendAcceptKeepsInv(setup, n, sendOk);
    case DoneWake => DoneWakeKeepsInv(setup, n);
    case DoneTimeout => DoneTimeoutKeepsInv(setup, n);
    case DrainEnd => DrainEndKeepsInv(setup, n);
  }

  // ---------------------------------------------------------------- whole runs

  function Steps(setup: Setup): (Node, Event) -> Option<Node> {
    (n: Node, e: Event) => if Enabled(n, e) then Some(Next(setup, n, e)) else None
  }

  /** Every event was possible when it happened. */
  predicate Legal(setup: Setup, n: Node, es: seq<Event>) { Run(Steps(setup), n, es).Some? }

  function After(setup: Setup, n: Node, es: seq<Event>): Node
    requires Legal(setup, n, es)
  {
    Run(Steps(setup), n, es).value
  }

  lemma LastEvent(setup: Setup, n: Node, es: seq<Event>)
    requires es != [] && Legal(setup, n, es)
    ensures Legal(setup, n, es[..|es| - 1])
    ensures var before := After(setup, n, es[..|es| - 1]);
            Enabled(before, es[|es| - 1]) && After(setup, n, es) == Next(setup, before, es[|es| - 1])
  {
    hide Next, Enabled;
    LastStep(Steps(setup), n, es);
  }

  lemma NoEvent(setup: Setup, n: Node)
    ensures Legal(setup, n, []) && After(setup, n, []) == n
  {
  }

  lemma {:induction false} RunsKeepInv(setup: Setup, n: Node, es: seq<Event>)
    requires Inv(setup, n) && Legal(setup, n, es)
    ensures Inv(setup, After(setup, n, es))
  {
    hide Inv, Next, Enabled, Legal, After;
    if es == [] {
      NoEvent(setup, n);
    } else {
      LastEvent(setup, n, es);
      RunsKeepInv(setup, n, es[..|es| - 1]);
      StepKeepsInv(setup, After(setup, n, es[..|es| - 1]), es[|es| - 1]);
    }
  }

  /** The file whose content was `disk` when it was hashed has the declared digest, and exactly the declared number
      of bytes was handed to it. */
  predicate FileVerified(setup: Setup, rx: State, disk: Bytes) {
    && setup.hash(disk) == rx.header.sha256
    && rx.out.Closed? && |rx.out.bytes| == rx.header.size
    && rx.written == rx.header.size && !rx.overflow && !rx.ioError
  }

  /** What a server that ended or answered well has done. */
  predicate Sound(setup: Setup, m: Node) {
    && (m.app == Returned(true) ==> m.verified.Some? && OkSent(m.rx))
    && (OkSent(m.rx) ==> m.verified.Some?)
    && (m.verified.Some? ==> FileVerified(setup, m.rx, m.verified.value) && m.consent)
  }

  /** An output file exists only with consent; a refusal and an acceptance never both go out. */
  predicate Consented(m: Node) {
    && (m.app != Idle && !m.rx.out.NoFile? ==> m.consent)
    && (ACCEPT in m.rx.replies ==> m.consent && m.rx.accepted && !m.rx.out.NoFile?)
    && (REJECT in m.rx.replies ==> m.rx.replies == [REJECT] && !m.rx.accepted)
  }

  lemma InvIsSound(setup: Setup, m: Node)
    requires Inv(setup, m)
    ensures Sound(setup, m)
  {
  }

  lemma InvIsConsented(setup: Setup, m: Node)
    requires Inv(setup, m)
    ensures Consented(m)
  {
    var r := m.rx.replies;
    assert |r| == 1 ==> r == [r[0]];
    assert |r| == 2 ==> r == [r[0], r[1]];
  }

  /** For every peer, every fault and every order of callbacks, timeouts, aborts and user answers: receive_file
      returns true, and OK goes out, only for a file that finish_file_receive verified. */
  lemma {:induction false} ReceiverSound(setup: Setup, n: Node, es: seq<Event>)
    requires Init(n) && Legal(setup, n, es)
    ensures Sound(setup, After(setup, n, es))
  {
    hide Inv, Sound, After, Legal, Init;
    InvInit(setup, n);
    RunsKeepInv(setup, n, es);
    InvIsSound(setup, After(setup, n, es));
  }

  lemma {:induction false} ConsentFirst(setup: Setup, n: Node, es: seq<Event>)
    requires Init(n) && Legal(setup, n, es)
    ensures Consented(After(setup, n, es))
  {
    hide Inv, Consented, After, Legal, Init;
    InvInit(setup, n);
    RunsKeepInv(setup, n, es);
    InvIsConsented(setup, After(setup, n, es));
  }

  /** Acceptance implies a parsed header and an output object, so when the FIN is handled the branch
      "file header not received" is never the one taken. */
  lemma {:induction false} HeaderMissingUnreachable(setup: Setup, n: Node, es: seq<Event>, readback: Option<Bytes>)
    requires Init(n) && Legal(setup, n, es)
    requires var m := After(setup, n, es); !m.finSeen && m.rx.armed && (m.rx.accepted || m.rx.ioError)
    ensures Verdict(setup, After(setup, n, es).rx, readback) != HeaderMissing
  {
    hide After, Legal, Init;
    InvInit(setup, n);
    RunsKeepInv(setup, n, es);
  }
}
