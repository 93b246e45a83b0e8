/** Undisturbed runs are bounded, never get stuck, and end in agreement. */
module Completion {
  import opened ByteStrings
  import opened Digests
  import opened HeaderCodec
  import opened HeaderTheorems
  import opened Transfer
  import opened Progress
  import TransferSteps
  import ProgressSteps
  import Safety
  import S = Sender
  import R = Receiver
  import Server = ServerRuns

  // ---------------------------------------------------------------- some step is always possible

  /** Nothing to do for the sender until something arrives. */
  predicate SenderWaits(c: S.State) {
    && c.inFlight == 0
    && ((c.phase == S.DecisionWait && !c.decisionReady) || (c.phase == S.AckWait && !c.done) || c.phase.Ended?)
  }

  /** Nothing to do for the receiver until something arrives. */
  predicate ReceiverWaits(n: Server.Node) {
    && n.started && n.completed == |n.rx.replies|
    && ((n.app == Server.WaitOffer && !n.rx.offerReady && !n.rx.done) || (n.app == Server.WaitDone && !n.rx.done)
        || n.app.Returned?)
  }

  /** Nothing is under way in either direction. */
  predicate NothingInTransit(sys: System) {
    && sys.up == |Wire(sys)| && sys.down == |Answers(sys)|
    && (sys.client.fin ==> sys.server.finSeen) && (R.FinSent(sys.server.rx) ==> sys.downFin)
  }

  predicate Possible(cfg: Config, sys: System, e: Event) { Enabled(cfg, sys, e) && Good(cfg, sys, e) }

  lemma SenderMoves(cfg: Config, sys: System) returns (e: Event)
    requires ClientInv(cfg, sys.client) && ClientGood(cfg, sys.client) && !SenderWaits(sys.client)
    ensures Possible(cfg, sys, e)
  {
    hide Encode, At, Server.Enabled;
    var c := sys.client;
    var step: S.Event :=
      if c.inFlight > 0 then S.SendComplete
      else match c.phase
        case Start => S.SendHeader(true)
        case HeaderWait => S.SendWake
        case ChunkWait => S.SendWake
        case DecisionWait => S.DecisionWake
        case Accepted => if cfg.header.size == 0 then S.SendEmptyFin(true) else S.OpenSource(true)
        case Body => S.ReadChunk(['x'], true)
        case AckWait => S.AckWake
        case Ended(_) => S.AckWake;
    e := AtClient(step);
  }

  lemma ReceiverMoves(cfg: Config, sys: System) returns (e: Event)
    requires AnswersGood(sys.server) && !ReceiverWaits(sys.server)
    ensures Possible(cfg, sys, e)
  {
    hide At, S.Enabled;
    var n := sys.server;
    var step: Server.Event :=
      if !n.started then Server.StreamStart
      else if n.completed < |n.rx.replies| then Server.SendComplete
      else match n.app
        case Idle => Server.Arm
        case WaitOffer => Server.OfferWake
        case Asking => Server.Answer(true, true)
        case Granted => Server.OpenOutput(true, true)
        case Opened => Server.StoreAccepted
        case Stored => Server.SendAccept(true)
        case WaitDone => Server.DoneWake
        case Draining(_) => Server.DrainEnd
        case Returned(_) => Server.DrainEnd;
    e := AtServer(step);
  }

  lemma TransitMoves(cfg: Config, sys: System) returns (e: Event)
    requires Inv(cfg, sys) && GoodInv(cfg, sys)
    requires ReceiverWaits(sys.server) && !NothingInTransit(sys)
    ensures Possible(cfg, sys, e)
  {
    hide Encode, Server.Inv, ClientInv, BodyInv, ClientGood, AnswersGood, HeaderGood, ReplyText, R.WithFin,
      S.HasNewline, S.SaysOk, R.Text;
    var w, answers := Wire(sys), Answers(sys);
    assert sys.up <= |w| && sys.down <= |answers|;
    if sys.up < |w| {
      e := AtServer(Server.Fragment(w[sys.up..], sys.server.rx.armed, R.NO_FAULTS));
    } else if sys.client.fin && !sys.server.finSeen {
      e := AtServer(Server.PeerFin(None, true));
    } else if sys.down < |answers| {
      assert !sys.downFin;
      e := AtClient(S.Receive(answers[sys.down..]));
    } else {
      e := AtClient(S.PeerFin);
    }
  }

  /** Delivered answers resolve the decision. */
  lemma AnswersResolve(cfg: Config, sys: System)
    requires Inv(cfg, sys) && sys.down == |Answers(sys)| && sys.server.rx.replies != []
    ensures !sys.client.awaiting && sys.client.decisionReady
    ensures sys.client.decisionAccepted == (sys.server.rx.replies[0] == R.ACCEPT)
  {
    hide Encode, Server.Inv, HeaderInv, BodyInv, ReplyText, S.HasNewline, S.SaysOk, R.Text;
    if sys.client.awaiting {
      TransferSteps.AwaitingShort(cfg, sys);
      TransferSteps.NotAwaitingAtFin(sys.client, sys.server.rx.replies, sys.down);
    }
  }

  /** A receiver waiting with nothing in transit has returned. */
  lemma ReceiverIsDone(cfg: Config, sys: System)
    requires Ready(cfg) && Inv(cfg, sys) && GoodInv(cfg, sys)
    requires SenderWaits(sys.client) && ReceiverWaits(sys.server) && NothingInTransit(sys)
    ensures sys.server.app.Returned?
  {
    hide Encode, Server.Inv, HeaderInv, BodyInv, ReplyText, S.HasNewline, S.SaysOk, R.Text;
    var r := sys.server.rx.replies;
    if r != [] {
      AnswersResolve(cfg, sys);
    }
  }

  lemma SenderIsDone(cfg: Config, sys: System)
    requires Inv(cfg, sys) && GoodInv(cfg, sys) && sys.server.app.Returned?
    requires SenderWaits(sys.client) && NothingInTransit(sys)
    ensures sys.client.phase.Ended?
  {
    hide Encode, Server.Inv, HeaderInv, BodyInv, HeaderGood, ReplyText, S.HasNewline, S.SaysOk, R.Text;
    AnswersResolve(cfg, sys);
  }

  /** No deadlock: until both ends have returned, a step without any timeout is possible. */
  lemma {:induction false} NeverStuck(cfg: Config, sys: System) returns (e: Event)
    requires Ready(cfg) && Inv(cfg, sys) && GoodInv(cfg, sys) && !Final(sys)
    ensures Possible(cfg, sys, e)
  {
    hide Ready, Inv, Possible, SenderWaits, ReceiverWaits, NothingInTransit, AnswersGood, HeaderGood, ClientGood;
    if !SenderWaits(sys.client) {
      assert ClientInv(cfg, sys.client) by { SenderPart(cfg, sys); }
      e := SenderMoves(cfg, sys);
    } else if !ReceiverWaits(sys.server) {
      e := ReceiverMoves(cfg, sys);
    } else if !NothingInTransit(sys) {
      e := TransitMoves(cfg, sys);
    } else {
      ReceiverIsDone(cfg, sys);
      SenderIsDone(cfg, sys);
      assert false;
    }
  }

  lemma SenderPart(cfg: Config, sys: System)
    requires Inv(cfg, sys)
    ensures ClientInv(cfg, sys.client)
  {
  }

  // ---------------------------------------------------------------- whole runs

  function GoodRule(cfg: Config): (System, Event) -> bool { (s: System, e: Event) => Good(cfg, s, e) }

  /** Every step of the run was an undisturbed one. */
  predicate Undisturbed(cfg: Config, sys: System, es: seq<Event>)
    requires Safety.Legal(cfg, sys, es)
  {
    Safety.AllSteps(cfg, GoodRule(cfg), sys, es)
  }

  /** Each step of an undisturbed run is paid for out of the initial work. */
  lemma {:induction false} RunsUseUpWork(cfg: Config, sys: System, es: seq<Event>)
    requires Ready(cfg) && Init(sys) && Safety.Legal(cfg, sys, es) && Undisturbed(cfg, sys, es)
    ensures var t := Safety.After(cfg, sys, es);
            Inv(cfg, t) && GoodInv(cfg, t) && |es| + Work(cfg, t) <= Work(cfg, sys)
  {
    hide Inv, GoodInv, Work, Good, Enabled, Next, Init, Ready;
    assert Proper(cfg) by { ReadyIsProper(cfg); }
    Safety.RunsKeepInv(cfg, sys, es);
    if es == [] {
      Safety.NoEvent(cfg, sys);
      GoodInit(cfg, sys);
    } else {
      var front := es[..|es| - 1];
      Safety.LastEvent(cfg, sys, es);
      RunsUseUpWork(cfg, sys, front);
      ProgressSteps.EveryStepGood(cfg, Safety.After(cfg, sys, front), es[|es| - 1]);
    }
  }

  lemma ReadyIsProper(cfg: Config)
    requires Ready(cfg)
    ensures Proper(cfg)
  {
    hide Encode, IsSha256Hex;
  }

  lemma InitialWork(cfg: Config, sys: System)
    requires Init(sys)
    ensures Work(cfg, sys) <= 5 * (|Enc(cfg)| + cfg.header.size) + 41
  {
    hide Encode;
  }

  /** Undisturbed runs are bounded by the bytes to move. */
  lemma {:induction false} RunsAreBounded(cfg: Config, sys: System, es: seq<Event>)
    requires Ready(cfg) && Init(sys) && Safety.Legal(cfg, sys, es) && Undisturbed(cfg, sys, es)
    ensures |es| <= 5 * (|Enc(cfg)| + cfg.header.size) + 41
  {
    hide Inv, GoodInv, Work, Init, Ready, Safety.Legal, Undisturbed, Encode;
    RunsUseUpWork(cfg, sys, es);
    WorkNonNegative(cfg, Safety.After(cfg, sys, es));
    InitialWork(cfg, sys);
  }

  lemma Extended(cfg: Config, sys: System, es: seq<Event>, e: Event)
    requires Safety.Legal(cfg, sys, es) && Undisturbed(cfg, sys, es) && Possible(cfg, Safety.After(cfg, sys, es), e)
    ensures Safety.Legal(cfg, sys, es + [e]) && Undisturbed(cfg, sys, es + [e])
  {
    hide Enabled, Good, Next, Safety.Legal, Safety.After, Safety.AllSteps;
    Safety.OneMoreStep(cfg, GoodRule(cfg), sys, es, e);
  }

  /** From wherever it has got to, an undisturbed run can go on until both ends have returned. */
  lemma {:induction false} EveryRunCanFinish(cfg: Config, sys: System, es: seq<Event>) returns (whole: seq<Event>)
    requires Ready(cfg) && Init(sys) && Safety.Legal(cfg, sys, es) && Undisturbed(cfg, sys, es)
    ensures es <= whole && Safety.Legal(cfg, sys, whole) && Undisturbed(cfg, sys, whole)
    ensures Final(Safety.After(cfg, sys, whole))
    decreases 5 * (|Enc(cfg)| + cfg.header.size) + 41 - |es|
  {
    hide Inv, GoodInv, Work, Init, Ready, Safety.Legal, Safety.After, Undisturbed, Encode, Final, Possible;
    RunsUseUpWork(cfg, sys, es);
    if Final(Safety.After(cfg, sys, es)) {
      whole := es;
    } else {
      var e := NeverStuck(cfg, Safety.After(cfg, sys, es));
      Extended(cfg, sys, es, e);
      RunsAreBounded(cfg, sys, es + [e]);
      whole := EveryRunCanFinish(cfg, sys, es + [e]);
    }
  }

  // ---------------------------------------------------------------- how they end

  /** Both ends report the same outcome: success exactly when OK was answered, and then the file was delivered;
      rejection exactly when REJECT was. */
  predicate Agreed(cfg: Config, t: System) {
    var ok := t.server.rx.replies == [R.ACCEPT, R.OK];
    && (t.client.phase == S.Ended(true) <==> ok) && (t.server.app == Server.Returned(true) <==> ok)
    && (t.client.rejected <==> t.server.rx.replies == [R.REJECT])
    && (ok ==> Safety.Delivered(cfg, t))
  }

  lemma SuccessAgreed(cfg: Config, t: System)
    requires Inv(cfg, t) && GoodInv(cfg, t) && Final(t) && |t.server.rx.replies| == 2
    ensures var ok := t.server.rx.replies == [R.ACCEPT, R.OK];
            && (t.client.phase == S.Ended(true) <==> ok) && (t.server.app == Server.Returned(true) <==> ok)
            && !t.client.rejected
  {
    hide Encode, Server.Inv, HeaderInv, BodyInv, HeaderGood, ReplyText, S.HasNewline, S.SaysOk, R.Text;
    var r := t.server.rx.replies;
    assert r == [r[0], r[1]];
    if t.client.done {
      Safety.OkMeansOk(cfg, t);
    }
  }

  lemma RejectionAgreed(cfg: Config, t: System)
    requires Inv(cfg, t) && GoodInv(cfg, t) && Final(t) && t.server.rx.replies == [R.REJECT]
    ensures t.client.phase == S.Ended(false) && t.server.app == Server.Returned(false) && t.client.rejected
  {
    hide Encode, Server.Inv, HeaderInv, BodyInv, HeaderGood, ReplyText, S.HasNewline, S.SaysOk, R.Text;
    Server.InvIsSound(cfg.setup, t.server);
    if t.client.done {
      Safety.OkMeansOk(cfg, t);
    }
  }

  /** An undisturbed run that has ended, ended in agreement. */
  lemma {:induction false} UndisturbedRunsAgree(cfg: Config, sys: System, es: seq<Event>)
    requires Ready(cfg) && Init(sys) && Safety.Legal(cfg, sys, es) && Undisturbed(cfg, sys, es)
    requires Final(Safety.After(cfg, sys, es))
    ensures Agreed(cfg, Safety.After(cfg, sys, es))
  {
    hide Inv, ClientGood, HeaderGood, Work, Init, Ready, Safety.Legal, Undisturbed, Encode, Safety.Delivered,
      Safety.After;
    RunsUseUpWork(cfg, sys, es);
    var t := Safety.After(cfg, sys, es);
    if |t.server.rx.replies| == 2 {
      SuccessAgreed(cfg, t);
      if t.server.rx.replies == [R.ACCEPT, R.OK] {
        Safety.VerifiedIsDelivered(cfg, t);
      }
    } else {
      RejectionAgreed(cfg, t);
    }
  }
}
