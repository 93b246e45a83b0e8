/** The sender's success implies the receiver's verdict, but not that receive_file returned true: after OK went out its
    last wait can time out, and an abort event can overrule it. */
module Agreement {
  import opened ByteStrings
  import opened Digests
  import opened HeaderCodec
  import opened HeaderTheorems
  import opened Transfer
  import opened Runs
  import TransferSteps
  import Safety
  import S = Sender
  import R = Receiver
  import Server = ServerRuns

  /** An honest transfer of an empty file to a receiver without a prompt. */
  predicate Honest(cfg: Config) {
    && Proper(cfg) && !cfg.setup.prompt && cfg.header.size == 0
    && cfg.setup.hash([]) == Lower(cfg.header.sha256)
  }

  /** What can spoil the verdict after OK: an abort event, or the timeout of the last wait. */
  function Spoiler(aborted: bool): Event { AtServer(if aborted then Server.PeerAbort else Server.DoneTimeout) }

  /** Of the two, only the one chosen occurs. */
  predicate Only(es: seq<Event>, aborted: bool) { Spoiler(!aborted) !in es }

  /** One event more. */
  lemma Then(cfg: Config, sys: System, es: seq<Event>, t: System, e: Event) returns (longer: seq<Event>, u: System)
    requires Reaches(Safety.Steps(cfg), sys, es, t) && Enabled(cfg, t, e)
    ensures longer == es + [e] && u == Next(cfg, t, e) && Reaches(Safety.Steps(cfg), sys, longer, u)
  {
    hide Enabled, Next;
    longer, u := es + [e], Next(cfg, t, e);
    Stepped(Safety.Steps(cfg), sys, es, t, e);
  }

  // ---------------------------------------------------------------- the four stages of the run

  /** The server waits for a body it has accepted. */
  predicate Accepting(cfg: Config, n: Server.Node) {
    && n.started && !n.finSeen && n.app == Server.WaitDone
    && n.rx.armed && n.rx.parsed && n.rx.accepted && !n.rx.ioError && !n.rx.overflow && n.rx.written == 0
    && n.rx.out == R.Open([]) && n.rx.header == OnWire(cfg.header) && n.rx.replies == [R.ACCEPT] && !n.rx.done
  }

  predicate HeaderOut(cfg: Config, t: System) {
    && t.client == S.HeaderSent(S.READY, cfg.header, true) && Accepting(cfg, t.server)
    && t.up == |Enc(cfg)| && t.down == 0 && !t.downFin
  }

  predicate AllOut(cfg: Config, t: System) {
    var c := t.client;
    && c.phase == S.AckWait && !c.awaiting && c.ack == [] && !c.done && c.fin && c.wire == Enc(cfg)
    && Accepting(cfg, t.server) && t.up == |Enc(cfg)| && t.down == 7 && !t.downFin
  }

  predicate GivenUp(t: System) {
    var c := t.client;
    && c.phase == S.AckWait && !c.awaiting && c.ack == [] && !c.done
    && t.server.app == Server.Returned(false) && t.server.rx.replies == [R.ACCEPT, R.OK] && t.down == 7 && !t.downFin
  }

  lemma ArmedServer(cfg: Config, sys: System, aborted: bool) returns (es: seq<Event>, t: System)
    requires Init(sys)
    ensures Reaches(Safety.Steps(cfg), sys, es, t) && Only(es, aborted)
    ensures var n := Server.OnArm(cfg.setup, Server.OnStreamStart(sys.server)); t == sys.(server := n)
  {
    es, t := [], sys;
    hide Reaches;
    Nothing(Safety.Steps(cfg), sys);
    es, t := Then(cfg, sys, es, t, AtServer(Server.StreamStart));
    es, t := Then(cfg, sys, es, t, AtServer(Server.Arm));
  }

  /** The header arrives whole and is accepted. */
  lemma HeaderAccepted(cfg: Config, n: Server.Node)
    requires Honest(cfg) && Server.Init(n)
    ensures var m := Server.OnArm(cfg.setup, Server.OnStreamStart(n));
            Accepting(cfg, Server.OnFragment(cfg.setup, m, Enc(cfg), true, R.NO_FAULTS))
  {
    hide Encode, Decode, R.AutoAccepted, FileNames.JoinPath;
    var rx := Server.OnArm(cfg.setup, Server.OnStreamStart(n)).rx;
    EncodedEnds(cfg.header);
    assert [] + Enc(cfg) == Enc(cfg);
    var s := R.HeaderStored(cfg.setup, rx.(buffer := Enc(cfg)), OnWire(cfg.header));
    assert R.Rest(Enc(cfg), |Enc(cfg)|) == [];
    AcceptedEmpty(s);
  }

  lemma AcceptedEmpty(s: R.State)
    requires s.replies == []
    ensures R.AutoAccepted(s, [], R.NO_FAULTS) == s.(out := R.Open([]), accepted := true, replies := [R.ACCEPT])
  {
    hide R.BodyAppended;
    TransferSteps.NoBody(R.Sent(R.OutputOpened(s, true).(accepted := true), R.ACCEPT, true), true);
  }

  lemma SendTheHeader(cfg: Config, sys: System, aborted: bool) returns (es: seq<Event>, t: System)
    requires Honest(cfg) && Init(sys)
    ensures Reaches(Safety.Steps(cfg), sys, es, t) && HeaderOut(cfg, t) && Only(es, aborted)
  {
    hide Encode, Reaches, R.Appended, Accepting;
    es, t := ArmedServer(cfg, sys, aborted);
    es, t := Then(cfg, sys, es, t, AtClient(S.SendHeader(true)));
    assert [] + Enc(cfg) == Enc(cfg);
    HeaderAccepted(cfg, sys.server);
    es, t := Then(cfg, sys, es, t, AtServer(Server.Fragment(Enc(cfg), true, R.NO_FAULTS)));
  }

  /** ACCEPT reaches the sender, which has nothing but a FIN to send. */
  lemma SendTheFin(cfg: Config, sys: System, aborted: bool, before: seq<Event>, s: System)
    returns (es: seq<Event>, t: System)
    requires Honest(cfg) && Reaches(Safety.Steps(cfg), sys, before, s) && HeaderOut(cfg, s) && Only(before, aborted)
    ensures Reaches(Safety.Steps(cfg), sys, es, t) && AllOut(cfg, t) && Only(es, aborted)
  {
    hide Encode, Reaches, Accepting, S.Received, ReplyText;
    es, t := Then(cfg, sys, before, s, AtClient(S.SendComplete));
    es, t := Then(cfg, sys, es, t, AtClient(S.SendWake));
    AcceptArrives(t.client);
    assert Answers(t) == "ACCEPT\n" by { Said(t.server.rx.replies, cfg, t.server); }
    es, t := Then(cfg, sys, es, t, AtClient(S.Receive("ACCEPT\n")));
    es, t := Then(cfg, sys, es, t, AtClient(S.DecisionWake));
    es, t := Then(cfg, sys, es, t, AtClient(S.SendEmptyFin(true)));
    es, t := Then(cfg, sys, es, t, AtClient(S.SendComplete));
    es, t := Then(cfg, sys, es, t, AtClient(S.SendWake));
    assert Enc(cfg) + [] == Enc(cfg);
  }

  lemma Said(replies: seq<R.Reply>, cfg: Config, n: Server.Node)
    requires replies == n.rx.replies && Accepting(cfg, n)
    ensures ReplyText(replies) == "ACCEPT\n"
  {
    hide ReplyText;
    TransferSteps.AnswerText(replies);
  }

  lemma AcceptArrives(c: S.State)
    requires c.awaiting && c.decisionBuf == []
    ensures S.Received(c, "ACCEPT\n") ==
            c.(decisionBuf := "ACCEPT\n", awaiting := false, decisionAccepted := true, decisionReady := true)
  {
    var text: Bytes := "ACCEPT\n";
    assert [] + text == text;
    TransferSteps.DecisionText(R.ACCEPT, 7);
    assert R.Text(R.ACCEPT)[..7] == text;
  }

  /** The file is verified and OK goes out; before OK's SEND_COMPLETE the wait of receive_file times out, or an abort
      event ends it. */
  lemma GiveUpLate(cfg: Config, sys: System, aborted: bool, before: seq<Event>, s: System)
    returns (es: seq<Event>, t: System)
    requires Honest(cfg) && Reaches(Safety.Steps(cfg), sys, before, s) && AllOut(cfg, s) && Only(before, aborted)
    ensures Reaches(Safety.Steps(cfg), sys, es, t) && GivenUp(t) && Only(es, aborted)
  {
    hide Encode, Reaches, Server.OnPeerFin, Server.OnPeerAbort, Server.OnDoneWake, Server.OnDoneTimeout, Accepting;
    Verified(cfg, s.server);
    Spoiled(Server.OnPeerFin(cfg.setup, s.server, Some([]), true));
    assert s.server.started && !s.server.finSeen by { Open(cfg, s.server); }
    es, t := Then(cfg, sys, before, s, AtServer(Server.PeerFin(Some([]), true)));
    if aborted {
      es, t := Then(cfg, sys, es, t, AtServer(Server.PeerAbort));
      es, t := Then(cfg, sys, es, t, AtServer(Server.DoneWake));
    } else {
      es, t := Then(cfg, sys, es, t, AtServer(Server.DoneTimeout));
    }
  }

  lemma Open(cfg: Config, n: Server.Node)
    requires Accepting(cfg, n)
    ensures n.started && !n.finSeen
  {
  }

  /** OK is on its way, and its SEND_COMPLETE has not come. */
  predicate OkUnderWay(n: Server.Node) {
    n.app == Server.WaitDone && n.started && n.rx.armed && n.rx.replies == [R.ACCEPT, R.OK] && !n.rx.done
  }

  lemma Verified(cfg: Config, n: Server.Node)
    requires Honest(cfg) && Accepting(cfg, n)
    ensures OkUnderWay(Server.OnPeerFin(cfg.setup, n, Some([]), true))
  {
    Server.FinishedEffect(cfg.setup, n.rx, Some([]), true);
  }

  lemma Spoiled(n: Server.Node)
    requires OkUnderWay(n)
    ensures var m := Server.OnDoneTimeout(n); m.app == Server.Returned(false) && m.rx.replies == [R.ACCEPT, R.OK]
    ensures var a := Server.OnPeerAbort(n);
            && a.app == Server.WaitDone && a.rx.done
            && Server.OnDoneWake(a).app == Server.Returned(false)
            && Server.OnDoneWake(a).rx.replies == [R.ACCEPT, R.OK]
  {
  }

  /** What is left of the answers when ACCEPT has been read. */
  lemma OkLeft(replies: seq<R.Reply>)
    requires replies == [R.ACCEPT, R.OK]
    ensures ReplyText(replies) == "ACCEPT\n" + "OK\n" && |ReplyText(replies)| == 10 && At(ReplyText(replies), 7, "OK\n")
  {
    hide ReplyText;
    TransferSteps.AnswerText(replies);
  }

  lemma OkArrives(c: S.State)
    requires !c.awaiting && c.ack == []
    ensures S.Received(c, "OK\n") == c.(ack := "OK\n") && S.SaysOk("OK\n")
  {
    var ok: Bytes := "OK\n";
    assert [] + ok == ok && R.Text(R.OK) == ok;
    Safety.AckText();
  }

  lemma SenderConcludes(cfg: Config, sys: System, aborted: bool, before: seq<Event>, s: System)
    returns (es: seq<Event>, t: System)
    requires Reaches(Safety.Steps(cfg), sys, before, s) && GivenUp(s) && Only(before, aborted)
    ensures Reaches(Safety.Steps(cfg), sys, es, t) && t.client.phase == S.Ended(true) && t.server == s.server
    ensures Only(es, aborted)
  {
    hide Reaches, ReplyText, S.Received, S.SaysOk, At;
    OkLeft(s.server.rx.replies);
    OkArrives(s.client);
    es, t := Then(cfg, sys, before, s, AtClient(S.Receive("OK\n")));
    es, t := Then(cfg, sys, es, t, AtClient(S.PeerFin));
    es, t := Then(cfg, sys, es, t, AtClient(S.AckWake));
  }

  /** Every honest transfer of an empty file has a run in which the sender succeeds, the file is verified and OK is
      answered, and receive_file returns false: one with a timeout and no abort event, and one the other way round. */
  lemma {:induction false} OkButReportedFailed(cfg: Config, sys: System, aborted: bool) returns (es: seq<Event>)
    requires Honest(cfg) && Init(sys)
    ensures Safety.Legal(cfg, sys, es) && Only(es, aborted)
    ensures var t := Safety.After(cfg, sys, es);
            && t.client.phase == S.Ended(true) && t.server.app == Server.Returned(false)
            && Safety.Delivered(cfg, t)
  {
    hide Honest, Init, Safety.Delivered, HeaderOut, AllOut, Accepting, Enabled, Next, Only;
    var t;
    es, t := SendTheHeader(cfg, sys, aborted);
    es, t := SendTheFin(cfg, sys, aborted, es, t);
    es, t := GiveUpLate(cfg, sys, aborted, es, t);
    es, t := SenderConcludes(cfg, sys, aborted, es, t);
    assert Proper(cfg) by { HonestIsProper(cfg); }
    Safety.SenderSuccessMeansDelivered(cfg, sys, es);
  }

  lemma HonestIsProper(cfg: Config)
    requires Honest(cfg)
    ensures Proper(cfg)
  {
  }
}
