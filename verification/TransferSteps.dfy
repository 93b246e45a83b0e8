/** Every step of the combined system keeps its invariant. */
module TransferSteps {
  import opened ByteStrings
  import opened Digests
  import opened HeaderCodec
  import opened HeaderTheorems
  import opened Transfer
  import S = Sender
  import R = Receiver
  import Server = ServerRuns

  // ---------------------------------------------------------------- the sender moves

  predicate Arrival(e: S.Event) { e.Receive? || e.PeerFin? }

  /** What the sender's own steps do not touch. */
  predicate SameAnswers(c: S.State, d: S.State) {
    && d.awaiting == c.awaiting && d.decisionBuf == c.decisionBuf && d.decisionReady == c.decisionReady
    && d.decisionAccepted == c.decisionAccepted && d.ack == c.ack && d.done == c.done && d.ok == c.ok
  }

  /** A sender step keeps the sender's invariant, leaves the answers alone, and only ever adds to the wire. */
  predicate OwnStep(cfg: Config, c: S.State, d: S.State) {
    ClientInv(cfg, d) && SameAnswers(c, d) && c.wire <= d.wire && (c.fin ==> d.fin)
  }

  lemma AbandonedStep(cfg: Config, c: S.State)
    requires ClientInv(cfg, c)
    ensures OwnStep(cfg, c, S.Abandoned(c))
  {
    hide Encode;
  }

  lemma HeaderStep(cfg: Config, c: S.State, sendOk: bool)
    requires ClientInv(cfg, c) && c.phase == S.Start
    ensures OwnStep(cfg, c, S.HeaderSent(c, cfg.header, sendOk))
  {
    hide Encode;
  }

  lemma SendAwaitedStep(cfg: Config, c: S.State)
    requires ClientInv(cfg, c) && (c.phase == S.HeaderWait || c.phase == S.ChunkWait)
    ensures OwnStep(cfg, c, S.SendAwaited(c, cfg.header.size))
  {
    hide Encode;
  }

  lemma DecisionStep(cfg: Config, c: S.State)
    requires ClientInv(cfg, c) && c.phase == S.DecisionWait && c.decisionReady
    ensures OwnStep(cfg, c, S.DecisionTaken(c))
  {
    hide Encode;
  }

  lemma EmptyFinStep(cfg: Config, c: S.State, sendOk: bool)
    requires ClientInv(cfg, c) && c.phase == S.Accepted && cfg.header.size == 0
    ensures OwnStep(cfg, c, S.EmptySent(c, sendOk))
  {
    hide Encode;
  }

  lemma SourceStep(cfg: Config, c: S.State, openOk: bool)
    requires ClientInv(cfg, c) && c.phase == S.Accepted && cfg.header.size > 0
    ensures OwnStep(cfg, c, S.SourceOpened(c, openOk))
  {
    hide Encode;
  }

  lemma ChunkStep(cfg: Config, c: S.State, data: Bytes, sendOk: bool)
    requires ClientInv(cfg, c) && c.phase == S.Body && |data| <= cfg.header.size - c.sent
    ensures OwnStep(cfg, c, S.ChunkSent(c, data, cfg.header.size, sendOk))
  {
    hide Encode;
  }

  lemma AckStep(cfg: Config, c: S.State)
    requires ClientInv(cfg, c) && c.phase == S.AckWait && c.done
    ensures OwnStep(cfg, c, S.AckTaken(c))
  {
    hide Encode;
  }

  lemma AckTimeoutStep(cfg: Config, c: S.State)
    requires ClientInv(cfg, c) && c.phase == S.AckWait
    ensures OwnStep(cfg, c, c.(phase := S.Ended(false)))
  {
    hide Encode;
  }

  lemma OwnStepKept(cfg: Config, c: S.State, e: S.Event)
    requires ClientInv(cfg, c) && S.Enabled(c, cfg.header.size, e) && !Arrival(e)
    ensures OwnStep(cfg, c, S.Next(c, cfg.header, e))
  {
    hide ClientInv, OwnStep, S.Abandoned, S.HeaderSent, S.SendAwaited, S.DecisionTaken, S.EmptySent, S.SourceOpened,
      S.ChunkSent, S.AckTaken, S.Received, S.PeerFinished;
    match e
    case SendHeader(sendOk) => HeaderStep(cfg, c, sendOk);
    case SendWake => SendAwaitedStep(cfg, c);
    case SendTimeout => AbandonedStep(cfg, c);
    case DecisionWake => DecisionStep(cfg, c);
    case DecisionTimeout => AbandonedStep(cfg, c);
    case SendEmptyFin(sendOk) => EmptyFinStep(cfg, c, sendOk);
    case OpenSource(openOk) => SourceStep(cfg, c, openOk);
    case ReadChunk(data, sendOk) => ChunkStep(cfg, c, data, sendOk);
    case AckWake => AckStep(cfg, c);
    case AckTimeout => AckTimeoutStep(cfg, c);
    case SendComplete => CompleteStep(cfg, c);
  }

  lemma CompleteStep(cfg: Config, c: S.State)
    requires ClientInv(cfg, c) && c.inFlight > 0
    ensures OwnStep(cfg, c, S.SendCompleted(c))
  {
    hide Encode;
  }

  lemma DecisionKept(c: S.State, d: S.State, replies: seq<R.Reply>, down: nat, downFin: bool)
    requires SameAnswers(c, d) && DecisionInv(c, replies, down, downFin)
    ensures DecisionInv(d, replies, down, downFin)
  {
  }

  /** Slices of a growing wire stay what they were. */
  lemma SliceKept(v: Bytes, w: Bytes, i: nat, j: nat)
    requires v <= w && i <= j <= |v|
    ensures v[i..j] == w[i..j] && v[i..] <= w[i..]
  {
    assert forall k :: i <= k < |v| ==> v[k] == w[k];
  }

  lemma WireGrowsHeader(cfg: Config, sys: System, t: System)
    requires HeaderInv(cfg, sys)
    requires t.server == sys.server && t.up == sys.up && t.base == sys.base && Wire(sys) <= Wire(t)
    ensures HeaderInv(cfg, t)
  {
    hide Encode;
    SliceKept(Wire(sys), Wire(t), sys.base, sys.up);
  }

  lemma WireGrowsBody(cfg: Config, sys: System, t: System)
    requires BodyInv(cfg, sys) && sys.up <= |Wire(sys)|
    requires t.server == sys.server && t.up == sys.up && t.base == sys.base && Wire(sys) <= Wire(t)
    ensures BodyInv(cfg, t)
  {
    hide Encode;
    var v, w, n := Wire(sys), Wire(t), |Enc(cfg)|;
    if n <= |v| {
      SliceKept(v, w, n, |v|);
      if n <= sys.up {
        SliceKept(v, w, n, sys.up);
      }
    }
  }

  lemma WireGrows(cfg: Config, sys: System, t: System)
    requires HeaderInv(cfg, sys) && BodyInv(cfg, sys)
    requires t.server == sys.server && t.up == sys.up && t.base == sys.base && Wire(sys) <= Wire(t)
    ensures HeaderInv(cfg, t) && BodyInv(cfg, t)
  {
    assert sys.up <= |Wire(sys)|;
    hide HeaderInv, BodyInv, Encode;
    WireGrowsHeader(cfg, sys, t);
    WireGrowsBody(cfg, sys, t);
  }

  lemma OwnStepKeepsInv(cfg: Config, sys: System, e: S.Event)
    requires Inv(cfg, sys) && Enabled(cfg, sys, AtClient(e)) && !Arrival(e)
    ensures Inv(cfg, Next(cfg, sys, AtClient(e)))
  {
    hide Encode, S.Next, Server.Inv, ReplyText, HeaderInv, BodyInv;
    var t := Next(cfg, sys, AtClient(e));
    OwnStepKept(cfg, sys.client, e);
    DecisionKept(sys.client, t.client, sys.server.rx.replies, sys.down, sys.downFin);
    WireGrows(cfg, sys, t);
  }

  // ---------------------------------------------------------------- answers arrive

  lemma AnswersGrow(replies: seq<R.Reply>, r: R.Reply)
    ensures ReplyText(replies + [r]) == ReplyText(replies) + R.Text(r)
  {
    hide R.Text;
    assert (replies + [r])[..|replies|] == replies;
  }

  lemma AnswerText(replies: seq<R.Reply>)
    requires 1 <= |replies| <= 2
    ensures ReplyText(replies) == R.Text(replies[0]) + (if |replies| == 2 then R.Text(replies[1]) else [])
  {
    hide R.Text, ReplyText;
    AnswersGrow([], replies[0]);
    assert ReplyText([]) == [] by { EmptyText(); }
    assert [] + [replies[0]] == [replies[0]];
    if |replies| == 2 {
      AnswersGrow([replies[0]], replies[1]);
      assert replies == [replies[0]] + [replies[1]];
    } else {
      assert replies == [replies[0]];
    }
  }

  lemma EmptyText()
    ensures ReplyText([]) == []
  {
  }

  /** ACCEPT and REJECT end with their only newline and differ in what the sender looks at. */
  lemma DecisionText(r: R.Reply, k: nat)
    requires (r == R.ACCEPT || r == R.REJECT) && k <= |R.Text(r)|
    ensures S.HasNewline(R.Text(r)[..k]) <==> k == |R.Text(r)|
    ensures S.SaysAccept(R.Text(r)) <==> r == R.ACCEPT
  {
    var text := R.Text(r);
    assert |text| == 7 && text[6] == '\n' && forall i :: 0 <= i < 6 ==> text[i] != '\n';
    assert r == R.ACCEPT ==> text[..6] == "ACCEPT";
    assert r == R.REJECT ==> text[0] == 'R';
  }

  lemma DecisionArrives(c: S.State, replies: seq<R.Reply>, down: nat, data: Bytes)
    requires DecisionInv(c, replies, down, false) && At(ReplyText(replies), down, data) && c.awaiting
    requires |replies| <= 1 && (replies != [] ==> replies[0] == R.ACCEPT || replies[0] == R.REJECT)
    ensures DecisionInv(S.Received(c, data), replies, down + |data|, false)
  {
    hide ReplyText, R.Text, S.HasNewline, S.SaysAccept, S.SaysOk;
    var text := ReplyText(replies);
    assert text[..down] + data == text[..down + |data|];
    if replies == [] {
      EmptyText();
      assert c.decisionBuf + data == c.decisionBuf;
    } else {
      AnswerText(replies);
      DecisionText(replies[0], down + |data|);
      assert text == R.Text(replies[0]) && text[..|text|] == text;
    }
  }

  lemma AckArrives(c: S.State, replies: seq<R.Reply>, down: nat, data: Bytes)
    requires DecisionInv(c, replies, down, false) && At(ReplyText(replies), down, data) && !c.awaiting
    ensures DecisionInv(S.Received(c, data), replies, down + |data|, false)
  {
    hide ReplyText, R.Text, S.HasNewline, S.SaysAccept, S.SaysOk;
    var text, k := ReplyText(replies), |c.decisionBuf|;
    assert text[k..down] + data == text[k..down + |data|];
  }

  lemma ArrivalKeepsClientInv(cfg: Config, c: S.State, d: S.State)
    requires ClientInv(cfg, c)
    requires d == c.(awaiting := d.awaiting, decisionReady := d.decisionReady, decisionAccepted := d.decisionAccepted,
                     decisionBuf := d.decisionBuf, ack := d.ack, done := d.done, ok := d.ok)
    requires d.decisionReady <==> !d.awaiting
    requires !c.awaiting ==> d.decisionReady && d.decisionAccepted == c.decisionAccepted
    requires c.done ==> d.done && d.ok == c.ok
    ensures ClientInv(cfg, d)
  {
    hide Encode;
  }

  lemma NotAwaitingAtFin(c: S.State, replies: seq<R.Reply>, down: nat)
    requires DecisionInv(c, replies, down, false) && down == |ReplyText(replies)| && |replies| <= 1
    requires replies != [] && (replies[0] == R.ACCEPT || replies[0] == R.REJECT)
    ensures !c.awaiting
  {
    AnswerText(replies);
    DecisionText(replies[0], down);
    assert R.Text(replies[0])[..down] == ReplyText(replies)[..down];
  }

  lemma AwaitingShort(cfg: Config, sys: System)
    requires ClientInv(cfg, sys.client) && ReplyOrder(sys) && sys.client.awaiting
    requires Server.Inv(cfg.setup, sys.server)
    ensures |sys.server.rx.replies| <= 1
  {
    assert |sys.server.rx.replies| == 2 ==> sys.server.finSeen;
  }

  lemma NextReceive(cfg: Config, sys: System, data: Bytes)
    requires Enabled(cfg, sys, AtClient(S.Receive(data)))
    ensures Next(cfg, sys, AtClient(S.Receive(data))) ==
            sys.(client := S.Received(sys.client, data), down := sys.down + |data|)
  {
    hide Enabled, S.Received, Server.Next;
  }

  /** Bytes reach the sender: whatever the split, the first answer resolves the decision and the rest is the
      acknowledgement. */
  lemma {:induction false} ReceiveKeepsInv(cfg: Config, sys: System, data: Bytes)
    requires Inv(cfg, sys) && Enabled(cfg, sys, AtClient(S.Receive(data)))
    ensures Inv(cfg, Next(cfg, sys, AtClient(S.Receive(data))))
  {
    hide Encode, ReplyText, Server.Inv, S.Received, HeaderInv, BodyInv, ClientInv, DecisionInv, Next;
    NextReceive(cfg, sys, data);
    S.ReceivedShape(sys.client, data);
    if sys.client.awaiting {
      AwaitingShort(cfg, sys);
      DecisionArrives(sys.client, sys.server.rx.replies, sys.down, data);
    } else {
      AckArrives(sys.client, sys.server.rx.replies, sys.down, data);
    }
    ReadyIffNotAwaiting(cfg, sys.client);
    ArrivalKeepsClientInv(cfg, sys.client, S.Received(sys.client, data));
    WireGrows(cfg, sys, Next(cfg, sys, AtClient(S.Receive(data))));
  }

  lemma ReadyIffNotAwaiting(cfg: Config, c: S.State)
    requires ClientInv(cfg, c)
    ensures c.decisionReady <==> !c.awaiting
  {
    hide Encode;
  }

  lemma AckComplete(c: S.State, replies: seq<R.Reply>, down: nat)
    requires DecisionInv(c, replies, down, false) && down == |ReplyText(replies)| && !c.awaiting
    requires R.WithFin(replies[|replies| - 1])
    ensures DecisionInv(S.PeerFinished(c), replies, down, true)
    ensures !c.done
  {
    hide ReplyText, R.Text, S.SaysOk;
  }

  lemma PeerFinKeepsInv(cfg: Config, sys: System)
    requires Inv(cfg, sys) && Enabled(cfg, sys, AtClient(S.PeerFin))
    ensures Inv(cfg, Next(cfg, sys, AtClient(S.PeerFin)))
  {
    hide Encode, ReplyText, Server.Inv, S.HasNewline, S.SaysAccept, HeaderInv, BodyInv, ClientInv, DecisionInv;
    if sys.client.awaiting {
      AwaitingShort(cfg, sys);
      NotAwaitingAtFin(sys.client, sys.server.rx.replies, sys.down);
    }
    AckComplete(sys.client, sys.server.rx.replies, sys.down);
    ReadyIffNotAwaiting(cfg, sys.client);
    ArrivalKeepsClientInv(cfg, sys.client, S.PeerFinished(sys.client));
    WireGrows(cfg, sys, Next(cfg, sys, AtClient(S.PeerFin)));
  }

  // ---------------------------------------------------------------- the receiver moves: answers

  /** At most one more answer, and none after a FIN. */
  predicate Extends(before: seq<R.Reply>, after: seq<R.Reply>) {
    after == before ||
    (&& |after| == |before| + 1 && after == before + [after[|before|]]
     && (before == [] || !R.WithFin(before[|before| - 1])))
  }

  lemma SentExtends(s: R.State, r: R.Reply, sendOk: bool)
    ensures Extends(s.replies, R.Sent(s, r, sendOk).replies)
  {
  }

  lemma AutoAcceptedExtends(s: R.State, body: Bytes, faults: R.Faults)
    ensures Extends(s.replies, R.AutoAccepted(s, body, faults).replies)
  {
    hide R.BodyAppended, R.Sent;
    var u := R.OutputOpened(s, true).(accepted := true);
    SentExtends(u, R.ACCEPT, faults.sendOk);
    Server.BodyEffect(R.Sent(u, R.ACCEPT, faults.sendOk), body, faults.writeOk);
  }

  lemma AppendedExtends(setup: R.Setup, s: R.State, data: Bytes, faults: R.Faults)
    ensures Extends(s.replies, R.Appended(setup, s, data, faults).replies)
  {
    hide Decode, R.BodyAppended, R.AutoAccepted, Extends;
    assert Extends(s.replies, s.replies) by { ExtendsSelf(s.replies); }
    if s.parsed {
      Server.BodyEffect(s, data, faults.writeOk);
    } else {
      var b := s.buffer + data;
      var decoded := Decode(b);
      if decoded.Some? {
        AutoAcceptedExtends(R.HeaderStored(setup, s.(buffer := b), decoded.value.header),
                            R.Rest(b, decoded.value.consumed), faults);
      }
    }
  }

  lemma ExtendsSelf(r: seq<R.Reply>)
    ensures Extends(r, r)
  {
  }

  lemma FinishedExtends(setup: R.Setup, s: R.State, readback: Option<Bytes>, sendOk: bool)
    ensures Extends(s.replies, R.PeerFinished(setup, s, readback, sendOk).replies)
  {
    hide R.Finished;
    Server.FinishedEffect(setup, s, readback, sendOk);
  }

  lemma ServerExtends(setup: R.Setup, n: Server.Node, e: Server.Event)
    requires Server.Inv(setup, n) && Server.Enabled(n, e)
    ensures Extends(n.rx.replies, Server.Next(setup, n, e).rx.replies)
  {
    hide R.Appended, R.PeerFinished, R.Sent;
    match e
    case Fragment(data, live, faults) => AppendedExtends(setup, n.rx, data, faults);
    case PeerFin(readback, sendOk) => FinishedExtends(setup, n.rx, readback, sendOk);
    case Answer(yes, sendOk) => SentExtends(n.rx, R.REJECT, sendOk);
    case OpenOutput(openOk, sendOk) => SentExtends(R.OutputOpened(n.rx, false), R.REJECT, sendOk);
    case SendAccept(sendOk) => SentExtends(n.rx, R.ACCEPT, sendOk);
    case _ =>
  }

  lemma DecisionExtends(c: S.State, a: seq<R.Reply>, b: seq<R.Reply>, down: nat, downFin: bool)
    requires DecisionInv(c, a, down, downFin) && Extends(a, b)
    ensures DecisionInv(c, b, down, downFin)
  {
    hide ReplyText, S.HasNewline, S.SaysOk, R.Text;
    if b != a {
      AnswersGrow(a, b[|a|]);
      var short, long := ReplyText(a), ReplyText(b);
      assert short <= long;
      assert long[..down] == short[..down];
      if !c.awaiting {
        assert long[|c.decisionBuf|..down] == short[|c.decisionBuf|..down];
      }
    }
  }

  /** No body byte and no FIN enters the channel before the receiver has accepted. */
  lemma {:induction false} NothingBeforeAccept(cfg: Config, sys: System)
    requires Server.Inv(cfg.setup, sys.server) && ClientInv(cfg, sys.client)
    requires DecisionInv(sys.client, sys.server.rx.replies, sys.down, sys.downFin)
    requires |Wire(sys)| > |Enc(cfg)| || sys.client.fin
    ensures sys.server.app != Server.Idle && sys.server.rx.accepted
    ensures sys.server.rx.replies != [] && sys.server.rx.replies[0] == R.ACCEPT
    ensures Enc(cfg) <= Wire(sys)
  {
    hide Encode, ReplyText, S.HasNewline, S.SaysOk, R.Text;
  }

  lemma ServerKeepsOrder(cfg: Config, sys: System, e: Server.Event, t: System)
    requires Inv(cfg, sys) && Enabled(cfg, sys, AtServer(e)) && t == Next(cfg, sys, AtServer(e))
    requires Server.Inv(cfg.setup, t.server)
    requires Extends(sys.server.rx.replies, t.server.rx.replies)
    ensures ReplyOrder(t)
  {
    hide Encode, ReplyText, S.HasNewline, S.SaysOk, R.Text, HeaderInv, BodyInv, ClientInv, DecisionInv, Next,
      Server.OutputInv, Server.PhaseInv;
    FinNeedsPeerFin(cfg, sys, e);
    if t.server.finSeen {
      NothingBeforeAccept(cfg, sys);
    }
  }

  lemma FinNeedsPeerFin(cfg: Config, sys: System, e: Server.Event)
    requires Enabled(cfg, sys, AtServer(e))
    ensures var t := Next(cfg, sys, AtServer(e));
            && t.client == sys.client && t.server == Server.Next(cfg.setup, sys.server, e)
            && t.down == sys.down && t.downFin == sys.downFin
            && (t.server.finSeen ==> sys.server.finSeen || e.PeerFin?)
            && (t.up != sys.up ==> e.Fragment?)
  {
    hide R.Appended, R.PeerFinished, R.Sent, At, S.Next;
  }

  // ---------------------------------------------------------------- the receiver moves: header and body

  /** A step that leaves buffer, header and acceptance alone; the output may be closed, dropped, or freshly opened. */
  predicate Quiet(n: Server.Node, m: Server.Node) {
    var s, t := n.rx, m.rx;
    && m.started == n.started && (m.app == Server.Idle <==> n.app == Server.Idle)
    && (m.callback == n.callback || m.callback == Server.Outside) && (t.armed ==> s.armed)
    && t.buffer == s.buffer && t.parsed == s.parsed && t.header == s.header && t.accepted == s.accepted
    && t.offerReady == s.offerReady && t.overflow == s.overflow && (s.ioError ==> t.ioError)
    && (t.out == s.out || t.out == R.Shut(s.out) || t.out.NoFile? || (!s.accepted && t.out == R.Open([])))
  }

  lemma QuietKeeps(cfg: Config, sys: System, t: System)
    requires HeaderInv(cfg, sys) && BodyInv(cfg, sys) && Quiet(sys.server, t.server)
    requires t == sys.(server := t.server)
    ensures HeaderInv(cfg, t) && BodyInv(cfg, t)
  {
    hide Encode;
  }

  predicate Loud(e: Server.Event) { e.StreamStart? || e.Fragment? || e.Arm? || e.StoreAccepted? }

  lemma QuietFin(setup: R.Setup, n: Server.Node, readback: Option<Bytes>, sendOk: bool)
    ensures Quiet(n, Server.OnPeerFin(setup, n, readback, sendOk))
  {
    hide R.Finished, R.FinSent;
    Server.FinishedEffect(setup, n.rx, readback, sendOk);
  }

  lemma QuietComplete(n: Server.Node)
    ensures Quiet(n, Server.OnSendComplete(n))
  {
    hide R.Shut;
  }

  lemma QuietAbort(n: Server.Node)
    ensures Quiet(n, Server.OnPeerAbort(n))
  {
  }

  lemma QuietOffer(n: Server.Node)
    requires n.app == Server.WaitOffer
    ensures Quiet(n, Server.OnOfferWake(n))
  {
    hide R.Shut;
  }

  lemma QuietTimeout(n: Server.Node)
    requires n.app == Server.WaitOffer
    ensures Quiet(n, Server.OnOfferTimeout(n))
  {
    hide R.Shut;
  }

  lemma QuietAnswer(n: Server.Node, yes: bool, sendOk: bool)
    requires n.app == Server.Asking
    ensures Quiet(n, Server.OnAnswer(n, yes, sendOk))
  {
    hide R.FinSent;
  }

  lemma QuietOpen(setup: R.Setup, n: Server.Node, openOk: bool, sendOk: bool)
    requires Server.Inv(setup, n) && n.app == Server.Granted
    ensures Quiet(n, Server.OnOpenOutput(n, openOk, sendOk))
  {
    hide R.FinSent, Server.OutputInv, Server.SuccessInv, Server.ReplyInv;
  }

  lemma QuietSend(n: Server.Node, sendOk: bool)
    requires n.app == Server.Stored
    ensures Quiet(n, Server.OnSendAccept(n, sendOk))
  {
    hide R.FinSent, R.Shut;
  }

  lemma QuietDone(n: Server.Node)
    requires n.app == Server.WaitDone
    ensures Quiet(n, Server.OnDoneWake(n))
  {
    hide R.FinSent;
  }

  lemma QuietGiveUp(n: Server.Node)
    requires n.app == Server.WaitDone
    ensures Quiet(n, Server.OnDoneTimeout(n))
  {
    hide R.FinSent;
  }

  lemma QuietDrain(n: Server.Node)
    requires n.app.Draining?
    ensures Quiet(n, Server.OnDrainEnd(n))
  {
    hide R.FinSent, R.Shut;
  }

  lemma StreamStartKeeps(cfg: Config, sys: System)
    requires Server.Inv(cfg.setup, sys.server) && HeaderInv(cfg, sys) && BodyInv(cfg, sys) && !sys.server.started
    ensures var t := sys.(server := Server.OnStreamStart(sys.server)); HeaderInv(cfg, t) && BodyInv(cfg, t)
  {
    hide Encode;
  }

  lemma ArmKeeps(cfg: Config, sys: System)
    requires Server.Inv(cfg.setup, sys.server) && HeaderInv(cfg, sys) && sys.server.app == Server.Idle
    ensures var t := sys.(server := Server.OnArm(cfg.setup, sys.server)); HeaderInv(cfg, t) && BodyInv(cfg, t)
  {
    hide Encode;
  }

  /** When file_accepted_ is set on the prompt path no body byte can have been sent, let alone delivered. */
  lemma StoreAcceptedKeeps(cfg: Config, sys: System)
    requires Inv(cfg, sys) && sys.server.app == Server.Opened
    ensures var t := sys.(server := Server.OnStoreAccepted(sys.server)); HeaderInv(cfg, t) && BodyInv(cfg, t)
  {
    hide Encode, ClientInv, DecisionInv;
    if |Wire(sys)| > |Enc(cfg)| {
      NothingBeforeAccept(cfg, sys);
    }
  }

  function AfterFragment(sys: System, n: Server.Node, data: Bytes, live: bool): System {
    sys.(server := n, up := sys.up + |data|, base := if live then sys.base else sys.up + |data|)
  }

  /** A fragment that receive_file is not armed for is dropped. */
  lemma DroppedKeeps(cfg: Config, sys: System, data: Bytes)
    requires Server.Inv(cfg.setup, sys.server) && HeaderInv(cfg, sys) && BodyInv(cfg, sys) && sys.server.started
    requires At(Wire(sys), sys.up, data)
    requires !sys.server.rx.armed || sys.server.callback == Server.Inside(false)
    ensures var t := AfterFragment(sys, sys.server.(callback := Server.Inside(false)), data, false);
            HeaderInv(cfg, t) && BodyInv(cfg, t)
  {
    hide Encode;
  }

  /** Body bytes reach the receiver: acceptance came first, the output is open, and they are appended in place. */
  lemma BodyFragment(enc: Bytes, w: Bytes, up: nat, size: nat, s: R.State, data: Bytes, writeOk: bool)
    requires |enc| <= up && enc <= w && At(w, up, data) && |w| <= |enc| + size && s.header.size == size
    requires s.accepted && s.out.Open? && !s.ioError && !s.overflow
    requires s.out.bytes == w[|enc|..up] && s.written == |s.out.bytes|
    ensures var t := R.BodyAppended(s, data, writeOk);
            && !t.overflow
            && (t.ioError ==> t.out == s.out)
            && (!t.ioError ==> t.out == R.Open(w[|enc|..up + |data|]))
            && w[|enc|..up] <= w[|enc|..] && w[|enc|..up + |data|] <= w[|enc|..]
  {
    assert w[|enc|..up] + data == w[|enc|..up + |data|];
    assert data[..|data|] == data;
  }

  lemma BodyFragmentKeeps(cfg: Config, sys: System, data: Bytes, writeOk: bool)
    requires Inv(cfg, sys) && sys.server.started && sys.server.app != Server.Idle && sys.server.rx.parsed
    requires At(Wire(sys), sys.up, data) && Live(sys.server)
    ensures var n := sys.server.(rx := R.BodyAppended(sys.server.rx, data, writeOk), callback := Server.Inside(true));
            var t := AfterFragment(sys, n, data, true);
            HeaderInv(cfg, t) && BodyInv(cfg, t)
  {
    hide Encode, R.BodyAppended, DecisionInv, ReplyOrder;
    var s := sys.server.rx;
    Server.BodyEffect(s, data, writeOk);
    if s.accepted && s.out.Open? && !s.ioError {
      BodyFragment(Enc(cfg), Wire(sys), sys.up, cfg.header.size, s, data, writeOk);
    }
  }

  // ---------------------------------------------------------------- the header arrives

  /** Of all stretches of an encoded header, only the whole of it decodes, and to what was sent. */
  lemma {:induction false} OnlyWholeHeaderDecodes(h: Header, k: nat, m: nat)
    requires IsSha256Hex(h.sha256) && k <= m <= |Encode(h)|
    ensures Decode(Encode(h)[k..m]).Some? ==>
              k == 0 && m == |Encode(h)| && Decode(Encode(h)[k..m]) == Some(Decoded(OnWire(h), |Encode(h)|))
  {
    hide Decode, Encode, BlankLine;
    var enc := Encode(h);
    if k > 0 {
      LostBeginningFails(h, k, m);
    } else if m < |enc| {
      assert enc[0..m] == enc[..m];
      StrictPrefixFails(h, m);
    } else {
      assert enc[0..m] == enc;
      EncodedEnds(h);
    }
  }

  /** The receiver's buffer is a stretch of the wire, and before acceptance the wire is at most the header. */
  lemma {:induction false} BufferedHeader(cfg: Config, sys: System, data: Bytes)
    requires Proper(cfg) && Inv(cfg, sys) && sys.server.app != Server.Idle && !sys.server.rx.parsed
    requires Live(sys.server) && At(Wire(sys), sys.up, data)
    ensures var b := sys.server.rx.buffer + data;
            && b == Wire(sys)[sys.base..sys.up + |data|]
            && (Decode(b).Some? ==>
                  sys.base == 0 && Wire(sys) == Enc(cfg) && sys.up + |data| == |Enc(cfg)|
                  && Decode(b) == Some(Decoded(OnWire(cfg.header), |Enc(cfg)|)) && |b| == |Enc(cfg)|)
  {
    hide Encode, Decode, DecisionInv, ReplyOrder;
    var w, m := Wire(sys), sys.up + |data|;
    assert w[sys.base..sys.up] + data == w[sys.base..m];
    if |w| > |Enc(cfg)| {
      NothingBeforeAccept(cfg, sys);
    }
    if w == [] {
      NothingDecodes();
    } else {
      assert w == Enc(cfg);
      OnlyWholeHeaderDecodes(cfg.header, sys.base, m);
    }
  }

  lemma NothingDecodes()
    ensures Decode([]).None?
  {
    assert BlankLine([], 0).None?;
  }

  /** Auto-accepting with no trailing body: the output is open and empty. */
  lemma AutoAcceptedEmpty(s: R.State, faults: R.Faults)
    ensures var t := R.AutoAccepted(s, [], faults);
            if faults.openOk then t == s.(out := R.Open([]), accepted := true, replies := t.replies)
            else t == R.OutputOpened(s, false)
  {
    hide R.BodyAppended, R.FinSent;
    NoBody(R.Sent(R.OutputOpened(s, true).(accepted := true), R.ACCEPT, faults.sendOk), faults.writeOk);
  }

  lemma NoBody(s: R.State, writeOk: bool)
    ensures R.BodyAppended(s, [], writeOk) == s
  {
  }

  /** The state after a fragment that completed the header, or refused it. */
  lemma HeaderDone(cfg: Config, sys: System, rx: R.State, data: Bytes)
    requires HeaderInv(cfg, sys) && sys.server.started && sys.server.app != Server.Idle
    requires At(Wire(sys), sys.up, data) && rx.parsed && !rx.overflow
    requires rx.accepted || rx.offerReady ==>
               sys.up + |data| == |Enc(cfg)| && Wire(sys) == Enc(cfg) && rx.header == OnWire(cfg.header)
    requires if rx.accepted then rx.out == R.Open([]) else rx.out.NoFile?
    ensures var t := AfterFragment(sys, sys.server.(rx := rx, callback := Server.Inside(true)), data, true);
            HeaderInv(cfg, t) && BodyInv(cfg, t)
  {
    hide Encode;
  }

  /** ... and after one that did not. */
  lemma HeaderPending(cfg: Config, sys: System, data: Bytes)
    requires HeaderInv(cfg, sys) && BodyInv(cfg, sys) && sys.server.started && sys.server.app != Server.Idle
    requires At(Wire(sys), sys.up, data) && !sys.server.rx.parsed && !sys.server.rx.accepted
    requires sys.server.rx.buffer + data == Wire(sys)[sys.base..sys.up + |data|]
    ensures var n := sys.server.(rx := sys.server.rx.(buffer := sys.server.rx.buffer + data),
                                 callback := Server.Inside(true));
            var t := AfterFragment(sys, n, data, true);
            HeaderInv(cfg, t) && BodyInv(cfg, t)
  {
    hide Encode;
  }

  lemma UnparsedFacts(cfg: Config, sys: System)
    requires Server.Inv(cfg.setup, sys.server) && sys.server.app != Server.Idle && !sys.server.rx.parsed
    requires BodyInv(cfg, sys)
    ensures var s := sys.server.rx; !s.accepted && !s.offerReady && !s.overflow && s.out.NoFile?
  {
    hide Encode;
  }

  /** A header with nothing behind it: stored, and accepted with an empty output or not at all. */
  lemma HeaderWhole(setup: R.Setup, s: R.State, header: Header, faults: R.Faults)
    requires Decode(s.buffer) == Some(Decoded(header, |s.buffer|))
    requires !s.accepted && !s.overflow && s.out.NoFile?
    ensures var t := R.HeaderTried(setup, s, faults);
            && t.parsed && !t.overflow && t.header == header
            && (if t.accepted then t.out == R.Open([]) else t.out.NoFile?)
  {
    hide Decode, R.AutoAccepted, FileNames.JoinPath;
    assert R.Rest(s.buffer, |s.buffer|) == [];
    AutoAcceptedEmpty(R.HeaderStored(setup, s, header), faults);
  }

  lemma HeaderFragmentKeeps(cfg: Config, sys: System, data: Bytes, faults: R.Faults)
    requires Proper(cfg) && Inv(cfg, sys) && sys.server.started && sys.server.app != Server.Idle
    requires !sys.server.rx.parsed && Live(sys.server) && At(Wire(sys), sys.up, data)
    ensures var s := sys.server.rx;
            var n := sys.server.(rx := R.HeaderTried(cfg.setup, s.(buffer := s.buffer + data), faults),
                                 callback := Server.Inside(true));
            var t := AfterFragment(sys, n, data, true);
            HeaderInv(cfg, t) && BodyInv(cfg, t)
  {
    hide Encode, Decode, DecisionInv, ClientInv, ReplyOrder, R.AutoAccepted, HeaderInv, BodyInv, Server.Inv, At,
      R.HeaderStored;
    BufferedHeader(cfg, sys, data);
    UnparsedFacts(cfg, sys);
    var s := sys.server.rx.(buffer := sys.server.rx.buffer + data);
    var decoded := Decode(s.buffer);
    if decoded.Some? {
      HeaderWhole(cfg.setup, s, OnWire(cfg.header), faults);
      HeaderDone(cfg, sys, R.HeaderTried(cfg.setup, s, faults), data);
    } else if |s.buffer| > MAX_HEADER_BYTES {
      HeaderDone(cfg, sys, R.HeaderRefused(s), data);
    } else {
      HeaderPending(cfg, sys, data);
    }
  }

  // ---------------------------------------------------------------- every step

  lemma FragmentKeeps(cfg: Config, sys: System, data: Bytes, live: bool, faults: R.Faults)
    requires Proper(cfg) && Inv(cfg, sys) && Enabled(cfg, sys, AtServer(Server.Fragment(data, live, faults)))
    ensures var t := AfterFragment(sys, Server.OnFragment(cfg.setup, sys.server, data, live, faults), data, live);
            HeaderInv(cfg, t) && BodyInv(cfg, t)
  {
    hide Encode, DecisionInv, ClientInv, ReplyOrder, R.HeaderTried, R.BodyAppended, HeaderInv, BodyInv, At,
      Server.OutputInv, Server.PhaseInv, Server.SuccessInv, Server.ReplyInv;
    if !live {
      DroppedKeeps(cfg, sys, data);
    } else if sys.server.rx.parsed {
      BodyFragmentKeeps(cfg, sys, data, faults.writeOk);
    } else {
      HeaderFragmentKeeps(cfg, sys, data, faults);
    }
  }

  lemma NextAtServer(cfg: Config, sys: System, e: Server.Event)
    requires Enabled(cfg, sys, AtServer(e))
    ensures Next(cfg, sys, AtServer(e)) ==
            if e.Fragment? then AfterFragment(sys, Server.Next(cfg.setup, sys.server, e), e.data, e.live)
            else sys.(server := Server.Next(cfg.setup, sys.server, e))
  {
    hide Server.Next, S.Next, At;
  }

  lemma ReceiverStepKeeps(cfg: Config, sys: System, e: Server.Event)
    requires Proper(cfg) && Inv(cfg, sys) && Enabled(cfg, sys, AtServer(e))
    ensures var t := Next(cfg, sys, AtServer(e)); HeaderInv(cfg, t) && BodyInv(cfg, t)
  {
    hide Encode, DecisionInv, ClientInv, ReplyOrder, HeaderInv, BodyInv, At, Next, Server.Inv, Quiet,
      Server.OnStreamStart, Server.OnFragment, Server.OnPeerFin, Server.OnSendComplete, Server.OnPeerAbort,
      Server.OnArm, Server.OnOfferWake, Server.OnOfferTimeout, Server.OnAnswer, Server.OnOpenOutput,
      Server.OnStoreAccepted, Server.OnSendAccept, Server.OnDoneWake, Server.OnDoneTimeout, Server.OnDrainEnd;
    NextAtServer(cfg, sys, e);
    match e
    case StreamStart => StreamStartKeeps(cfg, sys);
    case Fragment(data, live, faults) => FragmentKeeps(cfg, sys, data, live, faults);
    case Arm => ArmKeeps(cfg, sys);
    case StoreAccepted => StoreAcceptedKeeps(cfg, sys);
    case _ =>
      QuietStep(cfg.setup, sys.server, e);
      QuietKeeps(cfg, sys, Next(cfg, sys, AtServer(e)));
  }

  lemma QuietStep(setup: R.Setup, n: Server.Node, e: Server.Event)
    requires Server.Inv(setup, n) && Server.Enabled(n, e) && !Loud(e)
    ensures Quiet(n, Server.Next(setup, n, e))
  {
    hide Server.Inv, Quiet, Server.OnStreamStart, Server.OnFragment, Server.OnPeerFin, Server.OnSendComplete,
      Server.OnPeerAbort, Server.OnArm, Server.OnOfferWake, Server.OnOfferTimeout, Server.OnAnswer,
      Server.OnOpenOutput, Server.OnStoreAccepted, Server.OnSendAccept, Server.OnDoneWake, Server.OnDoneTimeout,
      Server.OnDrainEnd;
    match e
    case PeerFin(readback, sendOk) => QuietFin(setup, n, readback, sendOk);
    case SendComplete => QuietComplete(n);
    case PeerAbort => QuietAbort(n);
    case OfferWake => QuietOffer(n);
    case OfferTimeout => QuietTimeout(n);
    case Answer(yes, sendOk) => QuietAnswer(n, yes, sendOk);
    case OpenOutput(openOk, sendOk) => QuietOpen(setup, n, openOk, sendOk);
    case SendAccept(sendOk) => QuietSend(n, sendOk);
    case DoneWake => QuietDone(n);
    case DoneTimeout => QuietGiveUp(n);
    case DrainEnd => QuietDrain(n);
  }

  lemma {:induction false} StepKeepsInv(cfg: Config, sys: System, e: Event)
    requires Proper(cfg) && Inv(cfg, sys) && Enabled(cfg, sys, e)
    ensures Inv(cfg, Next(cfg, sys, e))
  {
    hide Next, Server.Inv, Server.Next, ClientInv, DecisionInv, ReplyOrder, HeaderInv, BodyInv, At, Extends, Proper;
    match e
    case AtServer(s) =>
      var t := Next(cfg, sys, e);
      FinNeedsPeerFin(cfg, sys, s);
      Server.StepKeepsInv(cfg.setup, sys.server, s);
      ServerExtends(cfg.setup, sys.server, s);
      DecisionExtends(sys.client, sys.server.rx.replies, t.server.rx.replies, sys.down, sys.downFin);
      ServerKeepsOrder(cfg, sys, s, t);
      ReceiverStepKeeps(cfg, sys, s);
    case AtClient(c) =>
      if c.Receive? {
        ReceiveKeepsInv(cfg, sys, c.bytes);
      } else if c.PeerFin? {
        PeerFinKeepsInv(cfg, sys);
      } else {
        OwnStepKeepsInv(cfg, sys, c);
      }
  }
}
