/** Every step of an undisturbed run keeps its invariant and uses up work. */
module ProgressSteps {
  import opened ByteStrings
  import opened HeaderCodec
  import opened HeaderTheorems
  import opened Transfer
  import opened Progress
  import TransferSteps
  import S = Sender
  import R = Receiver
  import Server = ServerRuns

  // ---------------------------------------------------------------- the sender

  predicate OwnGood(cfg: Config, c: S.State, d: S.State) {
    ClientGood(cfg, d) && ClientWork(cfg, d) < ClientWork(cfg, c) && d.done == c.done
  }

  lemma HeaderStep(cfg: Config, c: S.State)
    requires ClientInv(cfg, c) && ClientGood(cfg, c) && c.phase == S.Start
    ensures OwnGood(cfg, c, S.HeaderSent(c, cfg.header, true))
  {
    hide Encode;
  }

  lemma SendAwaitedStep(cfg: Config, c: S.State)
    requires ClientInv(cfg, c) && ClientGood(cfg, c) && c.sendDone
    requires c.phase == S.HeaderWait || c.phase == S.ChunkWait
    ensures OwnGood(cfg, c, S.SendAwaited(c, cfg.header.size))
  {
    hide Encode;
  }

  lemma DecisionStep(cfg: Config, c: S.State)
    requires ClientInv(cfg, c) && ClientGood(cfg, c) && c.phase == S.DecisionWait && c.decisionReady
    ensures OwnGood(cfg, c, S.DecisionTaken(c))
  {
    hide Encode;
  }

  lemma EmptyFinStep(cfg: Config, c: S.State)
    requires ClientInv(cfg, c) && ClientGood(cfg, c) && c.phase == S.Accepted
    ensures OwnGood(cfg, c, S.EmptySent(c, true))
  {
    hide Encode;
  }

  lemma SourceStep(cfg: Config, c: S.State)
    requires ClientInv(cfg, c) && ClientGood(cfg, c) && c.phase == S.Accepted
    ensures OwnGood(cfg, c, S.SourceOpened(c, true))
  {
    hide Encode;
  }

  lemma ChunkStep(cfg: Config, c: S.State, data: Bytes)
    requires ClientInv(cfg, c) && ClientGood(cfg, c) && c.phase == S.Body
    requires 0 < |data| <= cfg.header.size - c.sent
    ensures OwnGood(cfg, c, S.ChunkSent(c, data, cfg.header.size, true))
  {
    hide Encode;
  }

  lemma AckStep(cfg: Config, c: S.State)
    requires ClientInv(cfg, c) && ClientGood(cfg, c) && c.phase == S.AckWait && c.done
    ensures OwnGood(cfg, c, S.AckTaken(c))
  {
    hide Encode;
  }

  lemma CompleteStep(cfg: Config, c: S.State)
    requires ClientInv(cfg, c) && ClientGood(cfg, c) && c.inFlight > 0
    ensures OwnGood(cfg, c, S.SendCompleted(c))
  {
    hide Encode;
  }

  lemma OwnStep(cfg: Config, sys: System, e: S.Event)
    requires Inv(cfg, sys) && ClientGood(cfg, sys.client)
    requires Enabled(cfg, sys, AtClient(e)) && Good(cfg, sys, AtClient(e)) && !TransferSteps.Arrival(e)
    ensures OwnGood(cfg, sys.client, S.Next(sys.client, cfg.header, e))
  {
    hide ClientInv, ClientGood, OwnGood, DecisionInv, HeaderInv, BodyInv, ReplyOrder, Server.Inv, AnswersGood,
      HeaderGood, S.Abandoned, S.HeaderSent, S.SendAwaited, S.DecisionTaken, S.EmptySent, S.SourceOpened, S.ChunkSent,
      S.AckTaken, S.Received, S.PeerFinished, S.SendCompleted, Server.Enabled, At;
    var c := sys.client;
    match e
    case SendHeader(sendOk) => HeaderStep(cfg, c);
    case SendWake => SendAwaitedStep(cfg, c);
    case DecisionWake => DecisionStep(cfg, c);
    case SendEmptyFin(sendOk) => EmptyFinStep(cfg, c);
    case OpenSource(openOk) => SourceStep(cfg, c);
    case ReadChunk(data, sendOk) => ChunkStep(cfg, c, data);
    case AckWake => AckStep(cfg, c);
    case SendComplete => CompleteStep(cfg, c);
  }

  lemma ReceiveStep(cfg: Config, c: S.State, data: Bytes)
    requires ClientInv(cfg, c) && ClientGood(cfg, c)
    ensures var d := S.Received(c, data);
            ClientGood(cfg, d) && ClientWork(cfg, d) == ClientWork(cfg, c) && d.done == c.done
  {
    hide Encode, S.HasNewline, S.SaysAccept;
  }

  lemma PeerFinStep(cfg: Config, c: S.State)
    requires ClientInv(cfg, c) && ClientGood(cfg, c) && !c.awaiting && !c.done
    ensures var d := S.PeerFinished(c);
            ClientGood(cfg, d) && ClientWork(cfg, d) == ClientWork(cfg, c) && d.done
  {
    hide Encode, S.SaysOk;
  }

  /** The FIN of the answers finds the decision made and the verdict open. */
  lemma PeerFinReady(cfg: Config, sys: System)
    requires Inv(cfg, sys) && Enabled(cfg, sys, AtClient(S.PeerFin))
    ensures !sys.client.awaiting && !sys.client.done
  {
    hide ClientInv, HeaderInv, BodyInv, Server.Inv, ReplyText, S.HasNewline, S.SaysOk, R.Text, Encode;
    if sys.client.awaiting {
      TransferSteps.AwaitingShort(cfg, sys);
      TransferSteps.NotAwaitingAtFin(sys.client, sys.server.rx.replies, sys.down);
    }
  }

  /** The sender's own half is kept by its steps whatever the receiver does. */
  lemma ClientStepKept(cfg: Config, sys: System, e: S.Event)
    requires Inv(cfg, sys) && ClientGood(cfg, sys.client)
    requires Enabled(cfg, sys, AtClient(e)) && Good(cfg, sys, AtClient(e))
    ensures var d := Next(cfg, sys, AtClient(e)).client;
            && ClientGood(cfg, d) && d.done == (sys.client.done || e.PeerFin?)
            && ClientWork(cfg, d) - ClientWork(cfg, sys.client) <= (if TransferSteps.Arrival(e) then 0 else -1)
  {
    hide ClientInv, ClientGood, ClientWork, HeaderInv, BodyInv, Server.Inv, S.Enabled, ReplyText, Encode,
      S.HasNewline, S.SaysAccept, S.SaysOk, R.Text, Server.Enabled, At, S.Received;
    if e.Receive? {
      TransferSteps.NextReceive(cfg, sys, e.bytes);
      ReceiveStep(cfg, sys.client, e.bytes);
    } else if e.PeerFin? {
      PeerFinReady(cfg, sys);
      PeerFinStep(cfg, sys.client);
    } else {
      OwnStep(cfg, sys, e);
    }
  }

  /** What has to be shown of each step. */
  predicate StepGood(cfg: Config, sys: System, t: System) { GoodInv(cfg, t) && Work(cfg, t) < Work(cfg, sys) }

  lemma ClientStepGood(cfg: Config, sys: System, e: S.Event)
    requires Inv(cfg, sys) && GoodInv(cfg, sys) && Enabled(cfg, sys, AtClient(e)) && Good(cfg, sys, AtClient(e))
    ensures StepGood(cfg, sys, Next(cfg, sys, AtClient(e)))
  {
    hide Inv, ClientGood, ClientWork, S.Enabled, AnswersGood, ReplyText, Encode, R.Text, Server.Enabled, At, NodeWork,
      AnswerWork, S.Next;
    ClientStepKept(cfg, sys, e);
  }

  // ---------------------------------------------------------------- the receiver: work

  lemma AnswerWorkDrops(a: seq<R.Reply>, b: seq<R.Reply>)
    requires TransferSteps.Extends(a, b)
    ensures AnswerWork(b) <= AnswerWork(a)
  {
    hide ReplyText;
    if b != a {
      var r := b[|a|];
      TransferSteps.AnswersGrow(a, r);
      assert |R.Text(r)| <= 7;
    }
  }

  lemma NodeWorkDrops(setup: R.Setup, n: Server.Node, e: Server.Event)
    requires Server.Enabled(n, e)
    ensures NodeWork(Server.Next(setup, n, e)) <= NodeWork(n) - (if e.Fragment? then 0 else 1)
  {
    hide R.Appended, R.PeerFinished, R.Sent, R.SendCompleted, R.PeerAbortSeen, R.Armed, R.StreamStarted,
      R.OfferDeclined, R.OfferOpened, R.GivenUp, Server.Passes;
  }

  // ---------------------------------------------------------------- the receiver: what undisturbed runs keep

  predicate CallbackOnly(e: Server.Event) { e.PeerFin? || e.SendComplete? || e.PeerAbort? }

  /** The FIN of the sender finds the receiver waiting for it, with ACCEPT as its only answer. */
  lemma FinFindsWaiting(cfg: Config, sys: System)
    requires Inv(cfg, sys) && GoodInv(cfg, sys) && sys.client.fin && !sys.server.finSeen
    ensures var n := sys.server;
            && n.app == Server.WaitDone && n.rx.armed && n.rx.accepted && n.rx.replies == [R.ACCEPT] && !n.rx.done
  {
    hide Encode, HeaderInv, BodyInv;
    TransferSteps.NothingBeforeAccept(cfg, sys);
    assert |sys.server.rx.replies| == 1;
    assert sys.server.rx.replies == [sys.server.rx.replies[0]];
  }

  lemma PeerFinAnswers(setup: R.Setup, n: Server.Node, readback: Option<Bytes>)
    requires AnswersGood(n) && n.app == Server.WaitDone && n.rx.armed && n.rx.accepted
    requires n.rx.replies == [R.ACCEPT] && !n.rx.done
    ensures AnswersGood(Server.OnPeerFin(setup, n, readback, true))
  {
    hide R.Finished, R.Verdict, Server.Passes;
    Server.FinishedEffect(setup, n.rx, readback, true);
  }

  lemma SendCompleteAnswers(setup: R.Setup, n: Server.Node)
    requires Server.Inv(setup, n) && AnswersGood(n) && n.completed < |n.rx.replies|
    ensures AnswersGood(Server.OnSendComplete(n))
  {
    hide Server.OutputInv, Server.SuccessInv, Server.ReplyInv;
  }

  /** A sender that gave up was declined. */
  lemma AbortAfterReject(cfg: Config, sys: System)
    requires Inv(cfg, sys) && GoodInv(cfg, sys) && sys.client.aborted
    ensures sys.server.rx.replies == [R.REJECT] && Leaving(sys.server.app)
  {
    hide Encode, HeaderInv, BodyInv, HeaderGood, ReplyText, R.Text, S.SaysOk, S.HasNewline;
    var r := sys.server.rx.replies;
    assert r[0] == R.REJECT;
    assert r == [r[0]];
  }

  lemma PeerAbortAnswers(n: Server.Node)
    requires AnswersGood(n) && n.rx.replies == [R.REJECT] && Leaving(n.app) && n.aborts < 2
    ensures AnswersGood(Server.OnPeerAbort(n))
  {
  }

  lemma StreamStartAnswers(setup: R.Setup, n: Server.Node)
    requires Server.Inv(setup, n) && AnswersGood(n) && !n.started
    ensures AnswersGood(Server.OnStreamStart(n)) && Server.OnStreamStart(n).rx.replies == n.rx.replies
  {
  }

  predicate AppStep(e: Server.Event) {
    !e.Fragment? && !e.StreamStart? && !CallbackOnly(e)
  }

  lemma PromptAnswers(setup: R.Setup, n: Server.Node, e: Server.Event)
    requires Server.Inv(setup, n) && AnswersGood(n) && Server.Enabled(n, e)
    requires e.Arm? || e.OfferWake? || (e.Answer? && e.rejectSendOk)
    ensures AnswersGood(Server.Next(setup, n, e))
  {
    hide Server.OnFragment, Server.OnStreamStart, Server.OnPeerFin, Server.OnSendComplete, Server.OnPeerAbort,
      Server.OnStoreAccepted, Server.OnSendAccept, Server.OnDoneWake, Server.OnDrainEnd, Server.OutputInv,
      Server.SuccessInv, Server.ReplyInv, Server.OnOfferTimeout, Server.OnDoneTimeout, Server.OnOpenOutput;
  }

  lemma OpenAnswers(setup: R.Setup, n: Server.Node, openOk: bool)
    requires Server.Inv(setup, n) && AnswersGood(n) && n.app == Server.Granted
    ensures AnswersGood(Server.OnOpenOutput(n, openOk, true))
  {
    hide Server.OutputInv, Server.SuccessInv, Server.ReplyInv;
  }

  lemma EndAnswers(setup: R.Setup, n: Server.Node, e: Server.Event)
    requires Server.Inv(setup, n) && AnswersGood(n) && Server.Enabled(n, e)
    requires e.StoreAccepted? || (e.SendAccept? && e.acceptSendOk) || e.DoneWake? || e.DrainEnd?
    ensures AnswersGood(Server.Next(setup, n, e))
  {
    hide Server.OnFragment, Server.OnStreamStart, Server.OnPeerFin, Server.OnSendComplete, Server.OnPeerAbort,
      Server.OnArm, Server.OnOfferWake, Server.OnAnswer, Server.OnOpenOutput, Server.OutputInv, Server.SuccessInv,
      Server.ReplyInv, Server.OnOfferTimeout, Server.OnDoneTimeout;
  }

  /** A fragment while the header is pending: either it completes the header, and nothing follows, or the header
      is still short and the buffer is within its cap. */
  lemma {:induction false} PendingHeader(cfg: Config, sys: System, data: Bytes)
    requires Ready(cfg) && Inv(cfg, sys) && HeaderGood(cfg, sys) && Serving(sys.server.app)
    requires !sys.server.rx.parsed && Live(sys.server) && At(Wire(sys), sys.up, data)
    ensures var b, m := sys.server.rx.buffer + data, sys.up + |data|;
            if m < |Enc(cfg)| then Decode(b).None? && |b| <= MAX_HEADER_BYTES
            else m == |Enc(cfg)| && Decode(b) == Some(Decoded(OnWire(cfg.header), |b|))
  {
    hide Encode, Decode, DecisionInv, ReplyOrder, BodyInv, Server.Inv;
    TransferSteps.BufferedHeader(cfg, sys, data);
    assert !sys.server.rx.accepted by { TransferSteps.UnparsedFacts(cfg, sys); }
    var w, m := Wire(sys), sys.up + |data|;
    if |w| > |Enc(cfg)| {
      TransferSteps.NothingBeforeAccept(cfg, sys);
    } else if m == |Enc(cfg)| {
      assert w[0..m] == Enc(cfg);
      EncodedEnds(cfg.header);
    }
  }

  /** Everything AnswersGood looks at except the number of answers. */
  predicate SameAnswering(s: R.State, t: R.State) {
    t.done == s.done && t.ok == s.ok && t.finalAck == s.finalAck && t.result.success == s.result.success
  }

  lemma SameAnsweringKeeps(n: Server.Node, rx: R.State, callback: Server.Callback)
    requires AnswersGood(n) && SameAnswering(n.rx, rx)
    requires rx.replies == n.rx.replies ||
             (n.app == Server.WaitDone && n.rx.replies == [] && rx.replies == [R.ACCEPT])
    ensures AnswersGood(n.(rx := rx, callback := callback))
  {
  }

  /** Before the header no answer has been given. */
  lemma UnparsedSilent(setup: R.Setup, n: Server.Node)
    requires Server.Inv(setup, n) && n.app != Server.Idle && !n.rx.parsed && !n.finSeen
    ensures n.rx.replies == [] && (n.app == Server.WaitOffer || n.app == Server.WaitDone || Leaving(n.app))
    ensures n.app == Server.WaitOffer ==> setup.prompt
  {
  }

  /** A completed header is offered, or accepted and answered. */
  lemma HeaderCompleted(setup: R.Setup, s: R.State, header: Header, faults: R.Faults)
    requires Decode(s.buffer) == Some(Decoded(header, |s.buffer|)) && s.replies == []
    requires faults.sendOk && (setup.prompt || faults.openOk)
    ensures var t := R.HeaderTried(setup, s, faults);
            && SameAnswering(s, t) && t.parsed && t.armed == s.armed
            && (setup.prompt ==> t.replies == [] && t.offerReady)
            && (!setup.prompt ==> t.replies == [R.ACCEPT] && t.offerReady == s.offerReady)
  {
    hide Decode, R.AutoAccepted, FileNames.JoinPath;
    var u := R.HeaderStored(setup, s, header);
    assert R.Rest(s.buffer, |s.buffer|) == [];
    TransferSteps.AutoAcceptedEmpty(u, faults);
    if !setup.prompt {
      AutoAcceptedSays(u, faults);
    }
  }

  lemma AutoAcceptedSays(s: R.State, faults: R.Faults)
    requires s.replies == [] && faults.sendOk && faults.openOk
    ensures R.AutoAccepted(s, [], faults).replies == [R.ACCEPT]
  {
    hide R.BodyAppended;
    TransferSteps.NoBody(R.Sent(R.OutputOpened(s, true).(accepted := true), R.ACCEPT, true), faults.writeOk);
  }

  function Received(cfg: Config, sys: System, data: Bytes, live: bool, faults: R.Faults): System {
    TransferSteps.AfterFragment(sys, Server.OnFragment(cfg.setup, sys.server, data, live, faults), data, live)
  }

  lemma DroppedGood(cfg: Config, sys: System, data: Bytes, faults: R.Faults)
    requires Server.Inv(cfg.setup, sys.server) && AnswersGood(sys.server) && HeaderGood(cfg, sys)
    requires sys.server.app != Server.Idle && !sys.server.rx.armed
    ensures var t := Received(cfg, sys, data, false, faults); AnswersGood(t.server) && HeaderGood(cfg, t)
  {
    hide Encode, R.Appended, Server.OutputInv, Server.SuccessInv, Server.ReplyInv;
  }

  lemma BodyGood(cfg: Config, sys: System, data: Bytes, faults: R.Faults)
    requires AnswersGood(sys.server) && HeaderGood(cfg, sys)
    requires sys.server.app != Server.Idle && sys.server.rx.parsed
    ensures var t := Received(cfg, sys, data, true, faults); AnswersGood(t.server) && HeaderGood(cfg, t)
  {
    hide Encode, R.BodyAppended, AnswersGood;
    Server.BodyEffect(sys.server.rx, data, faults.writeOk);
    SameAnsweringKeeps(sys.server, R.BodyAppended(sys.server.rx, data, faults.writeOk), Server.Inside(true));
  }

  lemma HeaderFragmentGood(cfg: Config, sys: System, data: Bytes, faults: R.Faults)
    requires Ready(cfg) && Inv(cfg, sys) && AnswersGood(sys.server) && HeaderGood(cfg, sys)
    requires sys.server.app != Server.Idle && !sys.server.rx.parsed && !sys.server.finSeen
    requires sys.server.rx.armed && At(Wire(sys), sys.up, data)
    requires faults.sendOk && (cfg.setup.prompt || faults.openOk)
    ensures var t := Received(cfg, sys, data, true, faults); AnswersGood(t.server) && HeaderGood(cfg, t)
  {
    hide Encode, Decode, R.HeaderTried, Inv, At, Server.Inv, Ready;
    InvParts(cfg, sys);
    UnparsedSilent(cfg.setup, sys.server);
    PendingHeader(cfg, sys, data);
    var s := sys.server.rx.(buffer := sys.server.rx.buffer + data);
    if sys.up + |data| < |Enc(cfg)| {
      StillPending(cfg.setup, s, faults);
    } else {
      HeaderCompleted(cfg.setup, s, OnWire(cfg.header), faults);
    }
  }

  lemma InvParts(cfg: Config, sys: System)
    requires Inv(cfg, sys)
    ensures Server.Inv(cfg.setup, sys.server)
  {
  }

  lemma StillPending(setup: R.Setup, s: R.State, faults: R.Faults)
    requires Decode(s.buffer).None? && |s.buffer| <= MAX_HEADER_BYTES
    ensures R.HeaderTried(setup, s, faults) == s
  {
    hide Decode;
  }

  lemma FragmentGood(cfg: Config, sys: System, data: Bytes, faults: R.Faults)
    requires Ready(cfg) && Inv(cfg, sys) && AnswersGood(sys.server) && HeaderGood(cfg, sys)
    requires sys.server.app != Server.Idle && !sys.server.finSeen && At(Wire(sys), sys.up, data)
    requires faults.sendOk && (cfg.setup.prompt || faults.openOk)
    ensures var t := Received(cfg, sys, data, sys.server.rx.armed, faults); AnswersGood(t.server) && HeaderGood(cfg, t)
  {
    hide Encode, Inv, Server.Inv, AnswersGood, HeaderGood, Server.OnFragment, Ready, At;
    InvParts(cfg, sys);
    if !sys.server.rx.armed {
      DroppedGood(cfg, sys, data, faults);
    } else if sys.server.rx.parsed {
      BodyGood(cfg, sys, data, faults);
    } else {
      HeaderFragmentGood(cfg, sys, data, faults);
    }
  }

  lemma StreamStartHeader(cfg: Config, sys: System)
    requires Ready(cfg) && Server.Inv(cfg.setup, sys.server) && HeaderInv(cfg, sys) && HeaderGood(cfg, sys)
    requires !sys.server.started
    ensures HeaderGood(cfg, sys.(server := Server.OnStreamStart(sys.server)))
  {
    hide Encode;
    EncodedEnds(cfg.header);
  }

  lemma ArmHeader(cfg: Config, sys: System)
    requires Ready(cfg) && HeaderInv(cfg, sys) && HeaderGood(cfg, sys) && sys.server.app == Server.Idle
    ensures HeaderGood(cfg, sys.(server := Server.OnArm(cfg.setup, sys.server)))
  {
    hide Encode;
    EncodedEnds(cfg.header);
  }

  /** A step that leaves the header alone and keeps its place, or moves on with the header behind it. */
  predicate HeaderKept(setup: R.Setup, n: Server.Node, m: Server.Node) {
    var s, t := n.rx, m.rx;
    && n.app != Server.Idle && m.app != Server.Idle
    && t.parsed == s.parsed && (s.parsed || t.ioError == s.ioError) && t.offerReady == s.offerReady
    && (m.callback == n.callback || m.callback == Server.Outside)
    && (Serving(m.app) ==> Serving(n.app))
    && (m.app == Server.WaitOffer ==> n.app == Server.WaitOffer)
    && (m.app == Server.WaitDone ==>
          (n.app == Server.WaitDone && s.replies <= t.replies) || (t.replies != [] && t.replies[0] == R.ACCEPT))
  }

  lemma HeaderKeptKeeps(cfg: Config, sys: System, n: Server.Node)
    requires HeaderGood(cfg, sys) && HeaderKept(cfg.setup, sys.server, n)
    ensures HeaderGood(cfg, sys.(server := n))
  {
    hide Encode;
  }

  lemma CallbackHeaderKept(setup: R.Setup, n: Server.Node, e: Server.Event)
    requires CallbackOnly(e) && n.app != Server.Idle
    ensures HeaderKept(setup, n, Server.Next(setup, n, e))
  {
    hide R.Finished, Server.Passes;
    if e.PeerFin? {
      Server.FinishedEffect(setup, n.rx, e.readback, e.finSendOk);
    }
  }

  lemma AppHeaderKept(setup: R.Setup, n: Server.Node, e: Server.Event)
    requires Server.Inv(setup, n) && AnswersGood(n) && Server.Enabled(n, e) && AppStep(e) && !e.Arm?
    requires e.SendAccept? ==> e.acceptSendOk
    ensures HeaderKept(setup, n, Server.Next(setup, n, e))
  {
    hide Server.OnFragment, Server.OnStreamStart, Server.OnPeerFin, Server.OnSendComplete, Server.OnPeerAbort,
      Server.OutputInv, Server.SuccessInv, Server.ReplyInv, Server.OnArm;
  }

  /** While receive_file has not been called, callbacks change nothing that matters. */
  lemma IdleCallbackHeader(cfg: Config, sys: System, e: Server.Event)
    requires HeaderGood(cfg, sys) && sys.server.app == Server.Idle && CallbackOnly(e)
    ensures HeaderGood(cfg, sys.(server := Server.Next(cfg.setup, sys.server, e)))
  {
    hide R.PeerFinished, R.SendCompleted, R.PeerAbortSeen, Server.Passes, Encode;
  }

  /** The receiver's half of the invariant after a step other than a fragment. */
  lemma QuietStepAnswers(cfg: Config, sys: System, e: Server.Event)
    requires Inv(cfg, sys) && GoodInv(cfg, sys) && !e.Fragment?
    requires Enabled(cfg, sys, AtServer(e)) && Good(cfg, sys, AtServer(e))
    ensures AnswersGood(Server.Next(cfg.setup, sys.server, e))
  {
    hide Encode, Server.Inv, AnswersGood, HeaderGood, ClientGood, ClientInv, DecisionInv, HeaderInv, BodyInv,
      ReplyOrder, At, Server.OnStreamStart, Server.OnPeerFin, Server.OnSendComplete, Server.OnPeerAbort, Server.OnArm,
      Server.OnOfferWake, Server.OnAnswer, Server.OnOpenOutput, Server.OnStoreAccepted, Server.OnSendAccept,
      Server.OnDoneWake, Server.OnDrainEnd;
    match e
    case StreamStart => StreamStartAnswers(cfg.setup, sys.server);
    case PeerFin(readback, sendOk) =>
      FinFindsWaiting(cfg, sys);
      PeerFinAnswers(cfg.setup, sys.server, readback);
    case SendComplete => SendCompleteAnswers(cfg.setup, sys.server);
    case PeerAbort =>
      AbortAfterReject(cfg, sys);
      PeerAbortAnswers(sys.server);
    case OpenOutput(openOk, _) => OpenAnswers(cfg.setup, sys.server, openOk);
    case _ =>
      if e.StoreAccepted? || e.SendAccept? || e.DoneWake? || e.DrainEnd? {
        EndAnswers(cfg.setup, sys.server, e);
      } else {
        PromptAnswers(cfg.setup, sys.server, e);
      }
  }

  lemma QuietStepHeader(cfg: Config, sys: System, e: Server.Event)
    requires Ready(cfg) && Inv(cfg, sys) && GoodInv(cfg, sys) && !e.Fragment?
    requires Enabled(cfg, sys, AtServer(e)) && Good(cfg, sys, AtServer(e))
    ensures HeaderGood(cfg, sys.(server := Server.Next(cfg.setup, sys.server, e)))
  {
    hide Encode, Server.Inv, AnswersGood, HeaderGood, ClientGood, ClientInv, DecisionInv, HeaderInv, BodyInv,
      ReplyOrder, At, Ready, HeaderKept, Server.OnStreamStart, Server.OnPeerFin, Server.OnSendComplete,
      Server.OnPeerAbort, Server.OnArm, Server.OnOfferWake, Server.OnAnswer, Server.OnOpenOutput,
      Server.OnStoreAccepted, Server.OnSendAccept, Server.OnDoneWake, Server.OnDrainEnd;
    if e.StreamStart? {
      StreamStartHeader(cfg, sys);
    } else if e.Arm? {
      ArmHeader(cfg, sys);
    } else if CallbackOnly(e) && sys.server.app == Server.Idle {
      IdleCallbackHeader(cfg, sys, e);
    } else {
      if CallbackOnly(e) {
        CallbackHeaderKept(cfg.setup, sys.server, e);
      } else {
        AppHeaderKept(cfg.setup, sys.server, e);
      }
      HeaderKeptKeeps(cfg, sys, Server.Next(cfg.setup, sys.server, e));
    }
  }

  lemma ServerWorkDrops(cfg: Config, sys: System, e: Server.Event)
    requires Inv(cfg, sys) && Enabled(cfg, sys, AtServer(e)) && Good(cfg, sys, AtServer(e))
    ensures Work(cfg, Next(cfg, sys, AtServer(e))) < Work(cfg, sys)
  {
    hide Encode, Server.Inv, ClientInv, DecisionInv, HeaderInv, BodyInv, ReplyOrder, Next, Server.Next,
      Server.Enabled, NodeWork, AnswerWork, ClientWork, TransferSteps.Extends, At;
    TransferSteps.NextAtServer(cfg, sys, e);
    TransferSteps.ServerExtends(cfg.setup, sys.server, e);
    AnswerWorkDrops(sys.server.rx.replies, Server.Next(cfg.setup, sys.server, e).rx.replies);
    NodeWorkDrops(cfg.setup, sys.server, e);
  }

  lemma ServerStepGood(cfg: Config, sys: System, e: Server.Event)
    requires Ready(cfg) && Inv(cfg, sys) && GoodInv(cfg, sys)
    requires Enabled(cfg, sys, AtServer(e)) && Good(cfg, sys, AtServer(e))
    ensures StepGood(cfg, sys, Next(cfg, sys, AtServer(e)))
  {
    hide Encode, Inv, AnswersGood, HeaderGood, ClientGood, At, Ready, Next, Work, Server.OnFragment;
    ServerWorkDrops(cfg, sys, e);
    TransferSteps.NextAtServer(cfg, sys, e);
    if e.Fragment? {
      FragmentGood(cfg, sys, e.data, e.faults);
    } else {
      QuietStepAnswers(cfg, sys, e);
      QuietStepHeader(cfg, sys, e);
    }
  }

  /** Every step of an undisturbed run keeps what such runs keep, and uses up work. */
  lemma {:induction false} EveryStepGood(cfg: Config, sys: System, e: Event)
    requires Ready(cfg) && Inv(cfg, sys) && GoodInv(cfg, sys) && Enabled(cfg, sys, e) && Good(cfg, sys, e)
    ensures StepGood(cfg, sys, Next(cfg, sys, e))
  {
    hide Ready, Inv, GoodInv, Enabled, Good, Next, StepGood;
    match e
    case AtServer(s) => ServerStepGood(cfg, sys, s);
    case AtClient(c) => ClientStepGood(cfg, sys, c);
  }
}
