/** An honest transfer delivers: if nothing is disturbed, the user agrees and the disk works, every run ends with the
    file delivered and both ends content; and every such run can be brought to its end. */
module HonestRuns {
  import opened ByteStrings
  import opened Digests
  import opened HeaderCodec
  import opened HeaderTheorems
  import opened Transfer
  import opened Progress
  import TransferSteps
  import ProgressSteps
  import Completion
  import Fragmentation
  import Safety
  import S = Sender
  import R = Receiver
  import Server = ServerRuns

  /** The header announces this content. */
  predicate Announced(cfg: Config, content: Bytes) {
    Ready(cfg) && |content| == cfg.header.size && cfg.setup.hash(content) == Lower(cfg.header.sha256)
  }

  /** An undisturbed step in which the source holds `content`, the user says yes, opening and writing succeed, and
      the disk gives back what it was given. */
  predicate Smooth(cfg: Config, content: Bytes, sys: System, e: Event) {
    && Good(cfg, sys, e)
    && match e
       case AtServer(Fragment(_, _, faults)) => faults.openOk && faults.writeOk
       case AtServer(PeerFin(readback, _)) => readback == Fragmentation.Stored(sys.server.rx)
       case AtServer(Answer(yes, _)) => yes
       case AtServer(OpenOutput(openOk, _)) => openOk
       case AtClient(ReadChunk(data, _)) => At(content, sys.client.sent, data)
       case _ => true
  }

  function SmoothRule(cfg: Config, content: Bytes): (System, Event) -> bool {
    (s: System, e: Event) => Smooth(cfg, content, s, e)
  }

  predicate SmoothRun(cfg: Config, content: Bytes, sys: System, es: seq<Event>)
    requires Safety.Legal(cfg, sys, es)
  {
    Safety.AllSteps(cfg, SmoothRule(cfg, content), sys, es)
  }

  // ---------------------------------------------------------------- what such runs keep

  /** Nothing has gone wrong at the receiver. */
  predicate WellServed(n: Server.Node) {
    var r := n.rx.replies;
    && (r != [] ==> r[0] == R.ACCEPT) && (|r| == 2 ==> r[1] == R.OK)
    && (n.app != Server.Idle ==> !n.rx.ioError)
    && (n.app == Server.Opened || (n.app != Server.Idle && n.rx.accepted && !n.finSeen) ==> n.rx.out.Open?)
  }

  /** What has been sent of the body is the beginning of the content. */
  predicate FromContent(cfg: Config, c: S.State, content: Bytes) {
    |c.wire| > |Enc(cfg)| ==> c.wire[|Enc(cfg)|..] <= content
  }

  // ---------------------------------------------------------------- the sender

  lemma ChunkFromContent(cfg: Config, c: S.State, content: Bytes, data: Bytes, sendOk: bool)
    requires ClientInv(cfg, c) && FromContent(cfg, c, content) && c.phase == S.Body && At(content, c.sent, data)
    ensures FromContent(cfg, S.ChunkSent(c, data, cfg.header.size, sendOk), content)
  {
    hide Encode;
    var n := |Enc(cfg)|;
    if data != [] && sendOk {
      assert c.wire[n..] == content[..c.sent];
      assert (c.wire + data)[n..] == c.wire[n..] + data;
      assert content[..c.sent] + data == content[..c.sent + |data|];
    }
  }

  /** Only the chunk loop adds to the body. */
  lemma OthersSendNoBody(cfg: Config, c: S.State, e: S.Event)
    requires ClientInv(cfg, c) && S.Enabled(c, cfg.header.size, e) && !e.ReadChunk?
    ensures var d := S.Next(c, cfg.header, e); d.wire == c.wire || |d.wire| <= |Enc(cfg)|
  {
    hide S.Received, S.PeerFinished, S.SendAwaited, S.DecisionTaken, S.SourceOpened, S.AckTaken, Encode;
    match e
    case SendWake => SendAwaitedWire(c, cfg.header.size);
    case DecisionWake => DecisionWire(c);
    case OpenSource(openOk) => SourceWire(c, openOk);
    case AckWake => AckWire(c);
    case Receive(bytes) => S.ReceivedOnlyReads(c, bytes);
    case PeerFin => S.FinishedOnlyReads(c);
    case _ =>
  }

  lemma SendAwaitedWire(c: S.State, size: nat)
    ensures S.SendAwaited(c, size).wire == c.wire
  {
  }

  lemma DecisionWire(c: S.State)
    ensures S.DecisionTaken(c).wire == c.wire
  {
  }

  lemma SourceWire(c: S.State, openOk: bool)
    ensures S.SourceOpened(c, openOk).wire == c.wire
  {
  }

  lemma AckWire(c: S.State)
    ensures S.AckTaken(c).wire == c.wire
  {
  }

  lemma ClientKeeps(cfg: Config, content: Bytes, sys: System, e: S.Event)
    requires Inv(cfg, sys) && FromContent(cfg, sys.client, content)
    requires Enabled(cfg, sys, AtClient(e)) && Smooth(cfg, content, sys, AtClient(e))
    ensures var t := Next(cfg, sys, AtClient(e)); t.server == sys.server && FromContent(cfg, t.client, content)
  {
    hide Encode, S.Next, S.Enabled, Server.Enabled, Server.Next, ClientInv, DecisionInv, ReplyOrder, HeaderInv,
      BodyInv, Server.Inv, At, Good, FromContent;
    if e.ReadChunk? {
      ProgressChunk(cfg, sys.client, e);
      ChunkFromContent(cfg, sys.client, content, e.data, e.chunkSendOk);
    } else {
      OthersSendNoBody(cfg, sys.client, e);
      SameBody(cfg, sys.client, S.Next(sys.client, cfg.header, e), content);
    }
  }

  lemma ProgressChunk(cfg: Config, c: S.State, e: S.Event)
    requires e.ReadChunk? && S.Enabled(c, cfg.header.size, e)
    ensures c.phase == S.Body && S.Next(c, cfg.header, e) == S.ChunkSent(c, e.data, cfg.header.size, e.chunkSendOk)
  {
    hide S.ChunkSent;
  }

  lemma SameBody(cfg: Config, c: S.State, d: S.State, content: Bytes)
    requires FromContent(cfg, c, content) && (d.wire == c.wire || |d.wire| <= |Enc(cfg)|)
    ensures FromContent(cfg, d, content)
  {
    hide Encode;
  }

  // ---------------------------------------------------------------- the receiver

  lemma FragmentServes(cfg: Config, content: Bytes, sys: System, data: Bytes, faults: R.Faults)
    requires Ready(cfg) && Inv(cfg, sys) && GoodInv(cfg, sys) && WellServed(sys.server)
    requires Enabled(cfg, sys, AtServer(Server.Fragment(data, sys.server.rx.armed, faults)))
    requires sys.server.app != Server.Idle && faults == R.NO_FAULTS
    ensures WellServed(Server.OnFragment(cfg.setup, sys.server, data, sys.server.rx.armed, faults))
  {
    hide Encode, Decode, Ready, Inv, HeaderGood, AnswersGood, ClientGood, R.HeaderTried, R.BodyAppended, Server.Inv,
      S.Enabled, S.Next, At;
    var n := sys.server;
    ProgressSteps.InvParts(cfg, sys);
    if n.rx.armed && n.rx.parsed {
      BodyServes(n.rx, data);
      Server.BodyEffect(n.rx, data, true);
    } else if n.rx.armed {
      HeaderFragmentServes(cfg, sys, data);
    }
  }

  lemma HeaderFragmentServes(cfg: Config, sys: System, data: Bytes)
    requires Ready(cfg) && Inv(cfg, sys) && GoodInv(cfg, sys) && WellServed(sys.server) && At(Wire(sys), sys.up, data)
    requires sys.server.app != Server.Idle && !sys.server.finSeen && sys.server.rx.armed && !sys.server.rx.parsed
    ensures WellServed(Server.OnFragment(cfg.setup, sys.server, data, true, R.NO_FAULTS))
  {
    hide Encode, Decode, Ready, Inv, HeaderGood, AnswersGood, ClientGood, R.HeaderTried, Server.Inv, At;
    var n := sys.server;
    ProgressSteps.InvParts(cfg, sys);
    assert Serving(n.app) by { UnparsedServes(cfg, sys); }
    if n.rx.accepted {
      Safety.AcceptedParsed(cfg, sys);
    }
    ProgressSteps.UnparsedSilent(cfg.setup, n);
    ProgressSteps.PendingHeader(cfg, sys, data);
    var s := n.rx.(buffer := n.rx.buffer + data);
    if sys.up + |data| < |Enc(cfg)| {
      ProgressSteps.StillPending(cfg.setup, s, R.NO_FAULTS);
    } else {
      HeaderServes(cfg.setup, s, OnWire(cfg.header));
    }
  }

  lemma BodyServes(s: R.State, data: Bytes)
    requires !s.ioError
    ensures var t := R.BodyAppended(s, data, true); !t.ioError && (s.out.Open? ==> t.out.Open?)
  {
  }

  lemma UnparsedServes(cfg: Config, sys: System)
    requires Inv(cfg, sys) && GoodInv(cfg, sys) && sys.server.app != Server.Idle && !sys.server.rx.parsed
    ensures Serving(sys.server.app)
  {
    hide Encode, ClientInv, DecisionInv, HeaderInv, BodyInv, ClientGood, HeaderGood;
  }

  lemma HeaderServes(setup: R.Setup, s: R.State, header: Header)
    requires Decode(s.buffer) == Some(Decoded(header, |s.buffer|)) && s.replies == [] && !s.ioError && !s.accepted
    ensures var t := R.HeaderTried(setup, s, R.NO_FAULTS);
            && !t.ioError && (t.accepted ==> t.out.Open?) && (t.replies == [] || t.replies == [R.ACCEPT])
  {
    hide Decode, R.AutoAccepted, FileNames.JoinPath;
    assert R.Rest(s.buffer, |s.buffer|) == [];
    var u := R.HeaderStored(setup, s, header);
    TransferSteps.AutoAcceptedEmpty(u, R.NO_FAULTS);
    if !setup.prompt {
      ProgressSteps.AutoAcceptedSays(u, R.NO_FAULTS);
    }
  }

  /** At the FIN the output holds the content, all of it. */
  lemma FinHolds(cfg: Config, content: Bytes, sys: System)
    requires Announced(cfg, content) && Inv(cfg, sys) && GoodInv(cfg, sys) && WellServed(sys.server)
    requires FromContent(cfg, sys.client, content) && sys.client.fin && !sys.server.finSeen && sys.up == |Wire(sys)|
    ensures var rx := sys.server.rx;
            && rx.out == R.Open(content) && !rx.overflow && !rx.ioError && rx.parsed
            && rx.written == cfg.header.size && rx.header == OnWire(cfg.header)
  {
    hide Encode, DecisionInv, Ready;
    ProgressSteps.FinFindsWaiting(cfg, sys);
    var w, n := Wire(sys), |Enc(cfg)|;
    assert |w| == n + cfg.header.size;
    assert w[n..sys.up] == w[n..];
    if cfg.header.size == 0 {
      assert w[n..] == content;
    } else {
      assert w[n..] <= content;
      assert w[n..] == content;
    }
  }

  lemma FinServes(cfg: Config, content: Bytes, sys: System)
    requires Announced(cfg, content) && Inv(cfg, sys) && GoodInv(cfg, sys) && WellServed(sys.server)
    requires FromContent(cfg, sys.client, content) && sys.client.fin && !sys.server.finSeen && sys.up == |Wire(sys)|
    ensures WellServed(Server.OnPeerFin(cfg.setup, sys.server, Fragmentation.Stored(sys.server.rx), true))
  {
    hide Encode, Ready, Inv, GoodInv, R.Finished;
    FinHolds(cfg, content, sys);
    ProgressSteps.FinFindsWaiting(cfg, sys);
    Server.FinishedEffect(cfg.setup, sys.server.rx, Fragmentation.Stored(sys.server.rx), true);
  }

  lemma NoAbort(cfg: Config, sys: System)
    requires Inv(cfg, sys) && GoodInv(cfg, sys) && WellServed(sys.server)
    ensures !sys.client.aborted
  {
    hide Inv, GoodInv;
    if sys.client.aborted {
      ProgressSteps.AbortAfterReject(cfg, sys);
    }
  }

  lemma StartServes(setup: R.Setup, n: Server.Node)
    requires Server.Inv(setup, n) && WellServed(n) && !n.started
    ensures WellServed(Server.OnStreamStart(n))
  {
  }

  lemma AskingServes(setup: R.Setup, n: Server.Node, e: Server.Event)
    requires Server.Inv(setup, n) && AnswersGood(n) && WellServed(n) && Server.Enabled(n, e)
    requires e.SendComplete? || e.Arm? || e.OfferWake? || (e.Answer? && e.yes)
    ensures WellServed(Server.Next(setup, n, e))
  {
    hide Server.OnFragment, Server.OnStreamStart, Server.OnPeerFin, Server.OnPeerAbort, Server.OnOpenOutput,
      Server.OnStoreAccepted, Server.OnSendAccept, Server.OnDoneWake, Server.OnDrainEnd, Server.OnOfferTimeout,
      Server.OnDoneTimeout, Server.SuccessInv, Server.OutputInv;
  }

  lemma OpeningServes(setup: R.Setup, n: Server.Node, e: Server.Event)
    requires Server.Inv(setup, n) && AnswersGood(n) && WellServed(n) && Server.Enabled(n, e)
    requires (e.OpenOutput? && e.openOk) || e.StoreAccepted? || e.SendAccept?
    ensures WellServed(Server.Next(setup, n, e))
  {
    hide Server.OnFragment, Server.OnStreamStart, Server.OnPeerFin, Server.OnPeerAbort, Server.OnSendComplete,
      Server.OnArm, Server.OnOfferWake, Server.OnAnswer, Server.OnDoneWake, Server.OnDrainEnd, Server.OnOfferTimeout,
      Server.OnDoneTimeout, Server.SuccessInv, Server.OutputInv;
  }

  lemma EndingServes(setup: R.Setup, n: Server.Node, e: Server.Event)
    requires Server.Inv(setup, n) && AnswersGood(n) && WellServed(n) && Server.Enabled(n, e)
    requires e.DoneWake? || e.DrainEnd?
    ensures WellServed(Server.Next(setup, n, e))
  {
    hide Server.OnFragment, Server.OnStreamStart, Server.OnPeerFin, Server.OnPeerAbort, Server.OnSendComplete,
      Server.OnArm, Server.OnOfferWake, Server.OnAnswer, Server.OnOpenOutput, Server.OnStoreAccepted,
      Server.OnSendAccept, Server.OnOfferTimeout, Server.OnDoneTimeout, Server.OutputInv;
  }

  lemma ServerServes(cfg: Config, content: Bytes, sys: System, e: Server.Event)
    requires Announced(cfg, content) && Inv(cfg, sys) && GoodInv(cfg, sys)
    requires WellServed(sys.server) && FromContent(cfg, sys.client, content)
    requires Enabled(cfg, sys, AtServer(e)) && Smooth(cfg, content, sys, AtServer(e))
    ensures WellServed(Server.Next(cfg.setup, sys.server, e))
  {
    hide Encode, Inv, WellServed, FromContent, Ready, AnswersGood, HeaderGood, ClientGood, At, Server.OnStreamStart,
      Server.OnFragment, Server.OnPeerFin, Server.OnSendComplete, Server.OnPeerAbort, Server.OnArm,
      Server.OnOfferWake, Server.OnAnswer, Server.OnOpenOutput, Server.OnStoreAccepted, Server.OnSendAccept,
      Server.OnDoneWake, Server.OnDrainEnd, Server.Inv;
    ProgressSteps.InvParts(cfg, sys);
    match e
    case StreamStart => StartServes(cfg.setup, sys.server);
    case Fragment(data, live, faults) => FragmentServes(cfg, content, sys, data, faults);
    case PeerFin(readback, sendOk) => FinServes(cfg, content, sys);
    case PeerAbort => NoAbort(cfg, sys);
    case OpenOutput(_, _) => OpeningServes(cfg.setup, sys.server, e);
    case StoreAccepted => OpeningServes(cfg.setup, sys.server, e);
    case SendAccept(_) => OpeningServes(cfg.setup, sys.server, e);
    case DoneWake => EndingServes(cfg.setup, sys.server, e);
    case DrainEnd => EndingServes(cfg.setup, sys.server, e);
    case _ => AskingServes(cfg.setup, sys.server, e);
  }

  lemma SmoothStep(cfg: Config, content: Bytes, sys: System, e: Event)
    requires Announced(cfg, content) && Inv(cfg, sys) && GoodInv(cfg, sys)
    requires WellServed(sys.server) && FromContent(cfg, sys.client, content)
    requires Enabled(cfg, sys, e) && Smooth(cfg, content, sys, e)
    ensures var t := Next(cfg, sys, e); WellServed(t.server) && FromContent(cfg, t.client, content)
  {
    hide Announced, Inv, GoodInv, WellServed, FromContent, Smooth, Server.Next, S.Next, Enabled;
    match e
    case AtServer(s) =>
      ServerServes(cfg, content, sys, s);
      TransferSteps.NextAtServer(cfg, sys, s);
    case AtClient(c) => ClientKeeps(cfg, content, sys, c);
  }

  // ---------------------------------------------------------------- whole runs

  lemma {:induction false} SmoothIsUndisturbed(cfg: Config, content: Bytes, sys: System, es: seq<Event>)
    requires Safety.Legal(cfg, sys, es) && SmoothRun(cfg, content, sys, es)
    ensures Completion.Undisturbed(cfg, sys, es)
  {
    hide Good, Enabled, Next, Safety.Legal, Safety.After;
    if es != [] {
      Safety.LastEvent(cfg, sys, es);
      SmoothIsUndisturbed(cfg, content, sys, es[..|es| - 1]);
    }
  }

  lemma {:induction false} SmoothRunKeeps(cfg: Config, content: Bytes, sys: System, es: seq<Event>)
    requires Announced(cfg, content) && Init(sys) && Safety.Legal(cfg, sys, es) && SmoothRun(cfg, content, sys, es)
    ensures var t := Safety.After(cfg, sys, es); WellServed(t.server) && FromContent(cfg, t.client, content)
  {
    hide Ready, Smooth, Enabled, Next, Safety.Legal, Safety.After, WellServed, FromContent, Inv, GoodInv, Work, Init,
      Completion.Undisturbed;
    if es == [] {
      Safety.NoEvent(cfg, sys);
      SmoothInit(cfg, content, sys);
    } else {
      var front := es[..|es| - 1];
      Safety.LastEvent(cfg, sys, es);
      SmoothRunKeeps(cfg, content, sys, front);
      SmoothIsUndisturbed(cfg, content, sys, front);
      Completion.RunsUseUpWork(cfg, sys, front);
      SmoothStep(cfg, content, Safety.After(cfg, sys, front), es[|es| - 1]);
    }
  }

  lemma SmoothInit(cfg: Config, content: Bytes, sys: System)
    requires Init(sys)
    ensures WellServed(sys.server) && FromContent(cfg, sys.client, content)
  {
  }

  /** An honest transfer that has ended has delivered the content, and both ends say so. */
  lemma {:induction false} HonestRunsDeliver(cfg: Config, content: Bytes, sys: System, es: seq<Event>)
    requires Announced(cfg, content) && Init(sys) && Safety.Legal(cfg, sys, es) && SmoothRun(cfg, content, sys, es)
    requires Final(Safety.After(cfg, sys, es))
    ensures var t := Safety.After(cfg, sys, es);
            && t.server.rx.replies == [R.ACCEPT, R.OK] && t.server.rx.out == R.Closed(content)
            && t.client.phase == S.Ended(true) && t.server.app == Server.Returned(true)
            && Safety.Delivered(cfg, t)
  {
    hide Ready, Safety.Legal, Safety.After, SmoothRun, FromContent, Inv, ClientGood, HeaderGood, Work, Init,
      Completion.Undisturbed, Safety.Delivered;
    var t := Safety.After(cfg, sys, es);
    SmoothIsUndisturbed(cfg, content, sys, es);
    SmoothRunKeeps(cfg, content, sys, es);
    Completion.RunsUseUpWork(cfg, sys, es);
    Completion.UndisturbedRunsAgree(cfg, sys, es);
    var r := t.server.rx.replies;
    assert |r| == 2;
    assert r == [r[0], r[1]];
    WholeContent(cfg, content, t);
  }

  lemma WholeContent(cfg: Config, content: Bytes, t: System)
    requires Safety.Delivered(cfg, t) && FromContent(cfg, t.client, content) && |content| == cfg.header.size
    ensures t.server.rx.out == R.Closed(content)
  {
    hide Encode;
    var body := Safety.BodySent(cfg, t);
    assert body == content;
  }

  /** The smooth version of a possible undisturbed step. */
  lemma MakeSmooth(cfg: Config, content: Bytes, sys: System, e: Event) returns (smooth: Event)
    requires |content| == cfg.header.size && Completion.Possible(cfg, sys, e)
    ensures Completion.Possible(cfg, sys, smooth) && Smooth(cfg, content, sys, smooth)
  {
    match e
    case AtServer(Fragment(data, live, _)) => smooth := AtServer(Server.Fragment(data, live, R.NO_FAULTS));
    case AtServer(PeerFin(_, sendOk)) =>
      smooth := AtServer(Server.PeerFin(Fragmentation.Stored(sys.server.rx), sendOk));
    case AtServer(Answer(_, sendOk)) => smooth := AtServer(Server.Answer(true, sendOk));
    case AtServer(OpenOutput(_, sendOk)) => smooth := AtServer(Server.OpenOutput(true, sendOk));
    case AtClient(ReadChunk(data, sendOk)) =>
      smooth := AtClient(S.ReadChunk(content[sys.client.sent..sys.client.sent + |data|], sendOk));
    case _ => smooth := e;
  }

  /** ... and every honest transfer can be brought to its end from wherever it has got to. */
  lemma {:induction false} HonestRunsCanFinish(cfg: Config, content: Bytes, sys: System, es: seq<Event>)
    returns (whole: seq<Event>)
    requires Announced(cfg, content) && Init(sys) && Safety.Legal(cfg, sys, es) && SmoothRun(cfg, content, sys, es)
    ensures es <= whole && Safety.Legal(cfg, sys, whole) && SmoothRun(cfg, content, sys, whole)
    ensures Final(Safety.After(cfg, sys, whole))
    decreases 5 * (|Enc(cfg)| + cfg.header.size) + 41 - |es|
  {
    hide Ready, Encode, Enabled, Good, Next, Safety.Legal, Safety.After, Safety.AllSteps, Inv, GoodInv, Work, Init,
      Final, Smooth, Completion.Undisturbed;
    SmoothIsUndisturbed(cfg, content, sys, es);
    Completion.RunsUseUpWork(cfg, sys, es);
    if Final(Safety.After(cfg, sys, es)) {
      whole := es;
    } else {
      var e := Completion.NeverStuck(cfg, Safety.After(cfg, sys, es));
      e := MakeSmooth(cfg, content, Safety.After(cfg, sys, es), e);
      Safety.OneMoreStep(cfg, SmoothRule(cfg, content), sys, es, e);
      SmoothIsUndisturbed(cfg, content, sys, es + [e]);
      Completion.RunsAreBounded(cfg, sys, es + [e]);
      whole := HonestRunsCanFinish(cfg, content, sys, es + [e]);
    }
  }
}
