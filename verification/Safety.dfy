/** What every run of sender and receiver guarantees. */
module Safety {
  import opened ByteStrings
  import opened Digests
  import opened HeaderCodec
  import opened HeaderTheorems
  import opened Transfer
  import opened Runs
  import TransferSteps
  import S = Sender
  import R = Receiver
  import Server = ServerRuns

  function Steps(cfg: Config): (System, Event) -> Option<System> {
    (sys: System, e: Event) => if Enabled(cfg, sys, e) then Some(Next(cfg, sys, e)) else None
  }

  /** Every event was possible when it happened. */
  predicate Legal(cfg: Config, sys: System, es: seq<Event>) { Run(Steps(cfg), sys, es).Some? }

  function After(cfg: Config, sys: System, es: seq<Event>): System
    requires Legal(cfg, sys, es)
  {
    Run(Steps(cfg), sys, es).value
  }

  lemma LastEvent(cfg: Config, sys: System, es: seq<Event>)
    requires es != [] && Legal(cfg, sys, es)
    ensures Legal(cfg, sys, es[..|es| - 1])
    ensures var before := After(cfg, sys, es[..|es| - 1]);
            Enabled(cfg, before, es[|es| - 1]) && After(cfg, sys, es) == Next(cfg, before, es[|es| - 1])
  {
    hide Next, Enabled;
    LastStep(Steps(cfg), sys, es);
  }

  lemma NoEvent(cfg: Config, sys: System)
    ensures Legal(cfg, sys, []) && After(cfg, sys, []) == sys
  {
  }

  lemma OneMore(cfg: Config, sys: System, es: seq<Event>, e: Event)
    requires Legal(cfg, sys, es) && Enabled(cfg, After(cfg, sys, es), e)
    ensures Legal(cfg, sys, es + [e]) && After(cfg, sys, es + [e]) == Next(cfg, After(cfg, sys, es), e)
  {
    hide Next, Enabled;
    Stepped(Steps(cfg), sys, es, After(cfg, sys, es), e);
  }

  /** Every step of the run is one that `rule` allows where it is taken. */
  predicate AllSteps(cfg: Config, rule: (System, Event) -> bool, sys: System, es: seq<Event>)
    requires Legal(cfg, sys, es)
  {
    es == [] ||
    (var front := es[..|es| - 1]; AllSteps(cfg, rule, sys, front) && rule(After(cfg, sys, front), es[|es| - 1]))
  }

  lemma OneMoreStep(cfg: Config, rule: (System, Event) -> bool, sys: System, es: seq<Event>, e: Event)
    requires Legal(cfg, sys, es) && AllSteps(cfg, rule, sys, es)
    requires Enabled(cfg, After(cfg, sys, es), e) && rule(After(cfg, sys, es), e)
    ensures Legal(cfg, sys, es + [e]) && AllSteps(cfg, rule, sys, es + [e])
    ensures After(cfg, sys, es + [e]) == Next(cfg, After(cfg, sys, es), e)
  {
    hide Enabled, Next, Legal, After;
    OneMore(cfg, sys, es, e);
    assert (es + [e])[..|es|] == es;
  }

  lemma {:induction false} RunsKeepInv(cfg: Config, sys: System, es: seq<Event>)
    requires Proper(cfg) && Init(sys) && Legal(cfg, sys, es)
    ensures Inv(cfg, After(cfg, sys, es))
  {
    hide Inv, Next, Enabled, Proper, Legal, After;
    if es == [] {
      NoEvent(cfg, sys);
      InvInit(cfg, sys);
    } else {
      LastEvent(cfg, sys, es);
      RunsKeepInv(cfg, sys, es[..|es| - 1]);
      TransferSteps.StepKeepsInv(cfg, After(cfg, sys, es[..|es| - 1]), es[|es| - 1]);
    }
  }

  /** The body bytes the sender read and put on the wire. */
  function BodySent(cfg: Config, sys: System): Bytes {
    R.Rest(Wire(sys), |Enc(cfg)|)
  }

  // ---------------------------------------------------------------- end to end

  /** The receiver verified this very transfer: it read the header that was sent, its output received exactly the
      body bytes the sender read, as many as declared, and the file read back has the declared digest. */
  predicate Delivered(cfg: Config, sys: System) {
    var n := sys.server;
    && n.verified.Some?
    && n.rx.header == OnWire(cfg.header)
    && n.rx.out == R.Closed(BodySent(cfg, sys)) && |BodySent(cfg, sys)| == cfg.header.size
    && cfg.setup.hash(n.verified.value) == Lower(cfg.header.sha256)
    && n.consent && !n.rx.result.rejected && n.rx.replies == [R.ACCEPT, R.OK]
  }

  lemma {:induction false} OkMeansOk(cfg: Config, sys: System)
    requires Inv(cfg, sys) && sys.client.done
    ensures sys.client.ok <==> sys.server.rx.replies == [R.ACCEPT, R.OK]
  {
    hide Encode, HeaderInv, BodyInv, Server.Inv, ClientInv, ReplyText, S.SaysOk, R.Text, S.HasNewline;
    var replies := sys.server.rx.replies;
    TransferSteps.AnswerText(replies);
    AckText();
    var k := |sys.client.decisionBuf|;
    if |replies| == 2 {
      assert sys.client.ack == R.Text(replies[1]);
      assert replies == [replies[0], replies[1]];
    } else {
      assert sys.client.ack == [];
    }
  }

  lemma AckText()
    ensures S.SaysOk(R.Text(R.OK)) && !S.SaysOk(R.Text(R.FAIL)) && !S.SaysOk([])
  {
    assert R.Text(R.OK)[..2] == "OK";
    assert R.Text(R.FAIL)[0] == 'F';
  }

  lemma VerifiedIsDelivered(cfg: Config, sys: System)
    requires Inv(cfg, sys) && sys.server.rx.replies == [R.ACCEPT, R.OK]
    ensures Delivered(cfg, sys)
  {
    hide Encode, DecisionInv, ReplyText;
    var body := BodySent(cfg, sys);
    assert sys.server.verified.Some? && sys.server.app != Server.Idle;
    assert |body| == cfg.header.size;
    assert sys.server.rx.out.bytes == body;
  }

  /** In every run, if send_file returns true then the receiver verified the transfer, whatever was done to the
      source file between hashing and sending. */
  lemma {:induction false} SenderSuccessMeansDelivered(cfg: Config, sys: System, es: seq<Event>)
    requires Proper(cfg) && Init(sys) && Legal(cfg, sys, es)
    requires After(cfg, sys, es).client.phase == S.Ended(true)
    ensures Delivered(cfg, After(cfg, sys, es))
  {
    hide Inv, Delivered, Enabled, Next;
    RunsKeepInv(cfg, sys, es);
    var t := After(cfg, sys, es);
    EndedWell(cfg, t);
    OkMeansOk(cfg, t);
    VerifiedIsDelivered(cfg, t);
  }

  lemma EndedWell(cfg: Config, sys: System)
    requires Inv(cfg, sys) && sys.client.phase == S.Ended(true)
    ensures sys.client.ok && sys.client.done
  {
    hide Encode, HeaderInv, BodyInv, Server.Inv, DecisionInv, ReplyOrder;
  }

  /** With a real incremental digest: the file read back has the 32 bytes that the announced text denotes, in
      either case of its letters. */
  lemma {:induction false} SenderSuccessMeansSameDigest<C(!new)>(cfg: Config, sys: System, es: seq<Event>, sha: Sha<C>)
    requires Proper(cfg) && Init(sys) && Legal(cfg, sys, es)
    requires After(cfg, sys, es).client.phase == S.Ended(true)
    requires Lawful(sha) && forall x :: cfg.setup.hash(x) == HashText(sha, x)
    ensures var disk := After(cfg, sys, es).server.verified;
            disk.Some? && Denotes(cfg.header.sha256, sha.final(sha.update(sha.init, disk.value)))
  {
    hide Inv, Enabled, Next;
    SenderSuccessMeansDelivered(cfg, sys, es);
    var disk := After(cfg, sys, es).server.verified.value;
    SameTextIffSameDigest(sha.final(sha.update(sha.init, disk)), cfg.header.sha256);
  }

  // ---------------------------------------------------------------- consent before data

  /** No body byte and no FIN enters the channel, and no output file exists, without consent and acceptance. */
  lemma {:induction false} ConsentBeforeData(cfg: Config, sys: System, es: seq<Event>)
    requires Proper(cfg) && Init(sys) && Legal(cfg, sys, es)
    ensures var t := After(cfg, sys, es);
            && (BodySent(cfg, t) != [] || t.client.fin ==>
                  && t.server.consent && t.server.rx.accepted && !t.server.rx.out.NoFile?
                  && R.ACCEPT in t.server.rx.replies)
            && (t.server.app != Server.Idle && !t.server.rx.out.NoFile? ==> t.server.consent)
  {
    hide Encode, Enabled, Next, HeaderInv, BodyInv, DecisionInv, ReplyOrder, Server.Inv, ClientInv;
    RunsKeepInv(cfg, sys, es);
    var t := After(cfg, sys, es);
    Server.InvIsConsented(cfg.setup, t.server);
    if BodySent(cfg, t) != [] || t.client.fin {
      TransferSteps.NothingBeforeAccept(cfg, t);
      assert t.server.rx.replies[0] in t.server.rx.replies;
    }
  }

  /** A fragment that carries body bytes finds file_accepted_ set and the output already opened. */
  lemma {:induction false} BodyMeetsOpenOutput(cfg: Config, sys: System, es: seq<Event>, data: Bytes, live: bool,
                                               faults: R.Faults)
    requires Proper(cfg) && Init(sys) && Legal(cfg, sys, es)
    requires Enabled(cfg, After(cfg, sys, es), AtServer(Server.Fragment(data, live, faults)))
    requires After(cfg, sys, es).up + |data| > |Enc(cfg)|
    ensures var n := After(cfg, sys, es).server; n.rx.accepted && n.rx.parsed && !n.rx.out.NoFile? && n.consent
  {
    hide Encode, Next;
    RunsKeepInv(cfg, sys, es);
    var t := After(cfg, sys, es);
    assert BodySent(cfg, t) != [];
    ConsentBeforeData(cfg, sys, es);
    AcceptedParsed(cfg, t);
  }

  lemma AcceptedParsed(cfg: Config, sys: System)
    requires Inv(cfg, sys) && sys.server.app != Server.Idle && sys.server.rx.accepted
    ensures sys.server.rx.parsed
  {
  }

  // ---------------------------------------------------------------- reply routing

  /** The decision buffer takes the first answer and nothing else, the acknowledgement takes what follows, and what
      the sender concludes depends on the answers alone, not on how they were cut up. */
  lemma {:induction false} RepliesRouted(cfg: Config, sys: System, es: seq<Event>)
    requires Proper(cfg) && Init(sys) && Legal(cfg, sys, es)
    ensures var t := After(cfg, sys, es);
            var c, replies := t.client, t.server.rx.replies;
            && t.down <= |Answers(t)| && c.decisionBuf + c.ack == Answers(t)[..t.down]
            && (!c.decisionReady ==> |replies| <= 1 && c.ack == [])
            && (c.decisionReady ==>
                 && replies != [] && c.decisionBuf == R.Text(replies[0])
                 && (c.decisionAccepted <==> replies[0] == R.ACCEPT))
            && (c.done ==> (c.ok <==> replies == [R.ACCEPT, R.OK]))
  {
    hide Encode, Enabled, Next, Inv;
    RunsKeepInv(cfg, sys, es);
    RoutedNow(cfg, After(cfg, sys, es));
    if After(cfg, sys, es).client.done {
      OkMeansOk(cfg, After(cfg, sys, es));
    }
  }

  lemma RoutedNow(cfg: Config, t: System)
    requires Inv(cfg, t)
    ensures var c, replies := t.client, t.server.rx.replies;
            && t.down <= |Answers(t)| && c.decisionBuf + c.ack == Answers(t)[..t.down]
            && (!c.decisionReady ==> |replies| <= 1 && c.ack == [])
            && (c.decisionReady ==>
                 && replies != [] && c.decisionBuf == R.Text(replies[0])
                 && (c.decisionAccepted <==> replies[0] == R.ACCEPT))
  {
    hide Encode, HeaderInv, BodyInv, ReplyText, S.SaysOk, R.Text, S.HasNewline;
    var c, replies, text := t.client, t.server.rx.replies, Answers(t);
    if c.awaiting {
      TransferSteps.AwaitingShort(cfg, t);
      assert text[..t.down] + [] == text[..t.down];
    } else {
      hide Server.Inv;
      FirstAnswerFirst(replies, |c.decisionBuf|);
      assert text[..|c.decisionBuf|] + text[|c.decisionBuf|..t.down] == text[..t.down];
    }
  }

  lemma FirstAnswerFirst(replies: seq<R.Reply>, k: nat)
    requires 1 <= |replies| <= 2 && k == |R.Text(replies[0])|
    ensures k <= |ReplyText(replies)| && ReplyText(replies)[..k] == R.Text(replies[0])
  {
    hide R.Text, ReplyText;
    TransferSteps.AnswerText(replies);
  }

  predicate SameDecision(c: S.State, d: S.State) {
    !d.awaiting && d.decisionBuf == c.decisionBuf && d.decisionAccepted == c.decisionAccepted
  }

  /** The decision is resolved at most once: nothing that happens later changes it. */
  lemma {:induction false} DecisionFinal(cfg: Config, sys: System, es: seq<Event>, k: nat)
    requires Proper(cfg) && Init(sys) && Legal(cfg, sys, es) && k <= |es|
    ensures Legal(cfg, sys, es[..k])
    ensures !After(cfg, sys, es[..k]).client.awaiting ==>
              SameDecision(After(cfg, sys, es[..k]).client, After(cfg, sys, es).client)
  {
    hide Enabled, Next, Proper, Init, Inv, Legal, After;
    if k == |es| {
      assert es[..k] == es;
    } else {
      var front := es[..|es| - 1];
      assert front[..k] == es[..k];
      LastEvent(cfg, sys, es);
      DecisionFinal(cfg, sys, front, k);
      RunsKeepInv(cfg, sys, front);
      if !After(cfg, sys, front).client.awaiting {
        DecisionStays(cfg, After(cfg, sys, front), es[|es| - 1]);
      }
    }
  }

  lemma DecisionStays(cfg: Config, sys: System, e: Event)
    requires Inv(cfg, sys) && Enabled(cfg, sys, e) && !sys.client.awaiting
    ensures SameDecision(sys.client, Next(cfg, sys, e).client)
  {
    hide Server.Next, Server.Enabled, Server.Inv, At, ClientInv, DecisionInv, HeaderInv, BodyInv, ReplyOrder, S.Next,
      S.Enabled, SameDecision;
    if e.AtClient? {
      SenderKeepsDecision(cfg, sys.client, e.c);
    } else {
      SameDecisionSelf(sys.client);
    }
  }

  lemma SameDecisionSelf(c: S.State)
    requires !c.awaiting
    ensures SameDecision(c, c)
  {
  }

  lemma SenderKeepsDecision(cfg: Config, c: S.State, e: S.Event)
    requires ClientInv(cfg, c) && S.Enabled(c, cfg.header.size, e) && !c.awaiting
    ensures SameDecision(c, S.Next(c, cfg.header, e))
  {
    hide Encode, ClientInv, S.HasNewline, S.SaysAccept, S.SaysOk, S.Abandoned, S.HeaderSent, S.SendAwaited,
      S.DecisionTaken, S.EmptySent, S.SourceOpened, S.ChunkSent, S.AckTaken, S.SendCompleted;
    if !TransferSteps.Arrival(e) {
      TransferSteps.OwnStepKept(cfg, c, e);
    }
  }

  // ---------------------------------------------------------------- FIN is last

  /** Events in which the sender hands something to StreamSend. */
  predicate Sends(e: Event) { e.AtClient? && (e.c.SendHeader? || e.c.SendEmptyFin? || e.c.ReadChunk?) }

  lemma SendsBeforeFin(cfg: Config, sys: System, e: Event)
    requires Inv(cfg, sys) && Enabled(cfg, sys, e) && Sends(e)
    ensures !sys.client.fin
  {
    hide Encode, DecisionInv, ReplyOrder, HeaderInv, BodyInv, Server.Inv, Server.Enabled, At;
  }

  lemma OthersAddNothing(cfg: Config, sys: System, e: Event)
    requires Inv(cfg, sys) && Enabled(cfg, sys, e) && !Sends(e)
    ensures var c, d := sys.client, Next(cfg, sys, e).client; d.wire == c.wire && d.fin == c.fin
  {
    hide Encode, Inv, Server.Enabled, Server.Next, At, S.Received, S.PeerFinished;
    match e
    case AtServer(_) =>
    case AtClient(Receive(bytes)) => S.ReceivedOnlyReads(sys.client, bytes);
    case AtClient(PeerFin) => S.FinishedOnlyReads(sys.client);
    case _ =>
  }

  /** In every run FIN goes out at most once, and last: once it is out, no send is ever attempted again and the wire
      stays what it is. */
  lemma {:induction false} FinIsLast(cfg: Config, sys: System, es: seq<Event>, k: nat)
    requires Proper(cfg) && Init(sys) && Legal(cfg, sys, es) && k <= |es|
    ensures Legal(cfg, sys, es[..k])
    ensures After(cfg, sys, es[..k]).client.fin ==>
              && (forall i :: k <= i < |es| ==> !Sends(es[i]))
              && After(cfg, sys, es).client.fin
              && After(cfg, sys, es).client.wire == After(cfg, sys, es[..k]).client.wire
  {
    hide Enabled, Next, Proper, Init, Inv, Legal, After, Sends;
    if k == |es| {
      assert es[..k] == es;
    } else {
      var front, e := es[..|es| - 1], es[|es| - 1];
      assert front[..k] == es[..k];
      LastEvent(cfg, sys, es);
      FinIsLast(cfg, sys, front, k);
      RunsKeepInv(cfg, sys, front);
      if After(cfg, sys, front).client.fin {
        if Sends(e) {
          SendsBeforeFin(cfg, After(cfg, sys, front), e);
        }
        OthersAddNothing(cfg, After(cfg, sys, front), e);
      }
    }
  }
}
