/** Why receive_file failed, and what it leaves behind, over whole runs against an arbitrary peer. */
module Reasons {
  import opened ByteStrings
  import opened HeaderCodec
  import opened Receiver
  import opened ServerRuns
  import ReceiverLaws

  /** How the recorded reasons go with the flags: a refused header has woken the waiter, whatever the mode; a declined
      offer has touched no file. */
  predicate ReasonInv(setup: Setup, n: Node) {
    var rx := n.rx;
    n.app != Idle ==>
      && (rx.parsed ==> rx.buffer == [])
      && (rx.result.error == BadHeader ==> rx.done && rx.ioError)
      && (n.app == WaitOffer && rx.parsed && !rx.offerReady ==> rx.done && rx.result.error == BadHeader)
      && (!setup.prompt && rx.parsed && !rx.accepted ==>
            rx.ioError && (rx.result.error == BadHeader || rx.result.error == OpenFailed))
      && (n.app == Draining(false) ==> rx.out.NoFile? && !rx.accepted && rx.parsed && setup.prompt)
      && (rx.result.rejected ==> rx.result.error == Declined && !rx.ioError && !rx.accepted && rx.parsed)
  }

  lemma BodyReasons(setup: Setup, n: Node, data: Bytes, writeOk: bool)
    requires Inv(setup, n) && ReasonInv(setup, n) && n.app != Idle && n.rx.parsed
    ensures var m := n.(rx := BodyAppended(n.rx, data, writeOk), callback := Inside(true));
            ReasonInv(setup, m) && m.rx.result.rejected == n.rx.result.rejected
  {
    hide Inv, Minus64, Plus64;
    BodyEffect(n.rx, data, writeOk);
    BodyMoves(n.rx, data, writeOk);
  }

  lemma BodyMoves(s: State, data: Bytes, writeOk: bool)
    ensures var t := BodyAppended(s, data, writeOk);
            (s.ioError ==> t.ioError) && (s.ioError || !s.accepted ==> t == s)
  {
    hide Minus64, Plus64;
  }

  lemma HeaderReasons(setup: Setup, n: Node, data: Bytes, faults: Faults)
    requires Inv(setup, n) && ReasonInv(setup, n) && n.app != Idle && !n.rx.parsed
    ensures var rx := HeaderTried(setup, n.rx.(buffer := n.rx.buffer + data), faults);
            var m := n.(rx := rx, callback := Inside(true));
            ReasonInv(setup, m) && m.rx.result.rejected == n.rx.result.rejected
  {
    hide Decode, FileNames.JoinPath, AutoAccepted, SuccessInv, ReplyInv;
    var s := n.rx.(buffer := n.rx.buffer + data);
    var decoded := Decode(s.buffer);
    if decoded.Some? && !setup.prompt {
      AutoReasons(HeaderStored(setup, s, decoded.value.header), Rest(s.buffer, decoded.value.consumed), faults);
    }
  }

  lemma AutoReasons(s: State, body: Bytes, faults: Faults)
    requires s.result.error != BadHeader
    ensures var t := AutoAccepted(s, body, faults);
            && t.result.error != BadHeader && t.result.rejected == s.result.rejected
            && t.buffer == s.buffer && t.parsed == s.parsed && t.offerReady == s.offerReady
            && (t.accepted || (t.ioError && t.result.error == OpenFailed))
  {
    hide BodyAppended, Sent;
    if faults.openOk {
      var u := OutputOpened(s, true).(accepted := true);
      SentEffect(u, ACCEPT, faults.sendOk);
      BodyEffect(Sent(u, ACCEPT, faults.sendOk), body, faults.writeOk);
    }
  }

  lemma FragmentReasons(setup: Setup, n: Node, data: Bytes, live: bool, faults: Faults)
    requires Inv(setup, n) && ReasonInv(setup, n) && Enabled(n, Fragment(data, live, faults))
    ensures var m := OnFragment(setup, n, data, live, faults);
            ReasonInv(setup, m) && (n.app != Idle ==> m.rx.result.rejected == n.rx.result.rejected)
  {
    hide Inv, HeaderTried, BodyAppended;
    if live && n.app != Idle {
      if n.rx.parsed {
        BodyReasons(setup, n, data, faults.writeOk);
      } else {
        HeaderReasons(setup, n, data, faults);
      }
    }
  }

  lemma FinReasons(setup: Setup, n: Node, readback: Option<Bytes>, sendOk: bool)
    requires ReasonInv(setup, n)
    ensures var m := OnPeerFin(setup, n, readback, sendOk);
            ReasonInv(setup, m) && (n.app != Idle ==> m.rx.result.rejected == n.rx.result.rejected)
  {
    hide Finished, Passes;
    FinishedEffect(setup, n.rx, readback, sendOk);
    FinishedReason(setup, n.rx, readback, sendOk);
  }

  lemma FinishedReason(setup: Setup, s: State, readback: Option<Bytes>, sendOk: bool)
    ensures var t := Finished(setup, s, readback, sendOk);
            && (s.ioError && s.result.error != Fine ==> t.result.error == s.result.error)
            && (t.result.error == BadHeader ==> s.result.error == BadHeader)
  {
    hide Shut, FinSent;
  }

  lemma CompleteReasons(setup: Setup, n: Node)
    requires ReasonInv(setup, n)
    ensures var m := OnSendComplete(n); ReasonInv(setup, m) && m.rx.result.rejected == n.rx.result.rejected
  {
    hide SendCompleted;
    ReceiverLaws.CompletionSeen(n.rx);
  }

  lemma AbortReasons(setup: Setup, n: Node)
    requires ReasonInv(setup, n)
    ensures var m := OnPeerAbort(n); ReasonInv(setup, m) && m.rx.result.rejected == n.rx.result.rejected
  {
    hide PeerAbortSeen;
    AbortEffect(n.rx);
    AbortReason(n.rx);
  }

  lemma AbortReason(s: State)
    ensures s.result.error != Fine ==> PeerAbortSeen(s).result.error == s.result.error
  {
  }

  lemma StartReasons(setup: Setup, n: Node)
    requires Inv(setup, n) && ReasonInv(setup, n) && !n.started
    ensures var m := OnStreamStart(n); ReasonInv(setup, m) && m.rx.result.rejected == n.rx.result.rejected
  {
    hide OutputInv, ReplyInv;
  }

  lemma ArmReasons(setup: Setup, n: Node)
    ensures var m := OnArm(setup, n); ReasonInv(setup, m) && !m.rx.result.rejected
  {
  }

  lemma AnswerReasons(setup: Setup, n: Node, yes: bool, sendOk: bool)
    requires Inv(setup, n) && ReasonInv(setup, n) && n.app == Asking
    ensures var m := OnAnswer(n, yes, sendOk);
            ReasonInv(setup, m) && m.rx.result.rejected == (!yes || n.rx.result.rejected)
  {
    hide Sent, OutputInv, SuccessInv, ReplyInv;
    SentEffect(n.rx, REJECT, sendOk);
  }

  lemma OpenReasons(setup: Setup, n: Node, openOk: bool, sendOk: bool)
    requires Inv(setup, n) && ReasonInv(setup, n) && n.app == Granted
    ensures var m := OnOpenOutput(n, openOk, sendOk);
            ReasonInv(setup, m) && m.rx.result.rejected == n.rx.result.rejected
  {
    hide Sent, SuccessInv, ReplyInv;
    SentEffect(OutputOpened(n.rx, false), REJECT, sendOk);
  }

  lemma GrantReasons(setup: Setup, n: Node, sendOk: bool)
    requires ReasonInv(setup, n) && n.app == Stored
    ensures var m := OnSendAccept(n, sendOk); ReasonInv(setup, m) && m.rx.result.rejected == n.rx.result.rejected
  {
    hide Sent;
    SentEffect(n.rx, ACCEPT, sendOk);
  }

  lemma StoreReasons(setup: Setup, n: Node)
    requires Inv(setup, n) && ReasonInv(setup, n) && n.app == Opened
    ensures var m := OnStoreAccepted(n); ReasonInv(setup, m) && m.rx.result.rejected == n.rx.result.rejected
  {
    hide OutputInv, SuccessInv, ReplyInv;
  }

  lemma WaitReasons(setup: Setup, n: Node)
    requires ReasonInv(setup, n) && n.app == WaitOffer && (n.rx.offerReady || n.rx.done)
    ensures var m := OnOfferWake(n); ReasonInv(setup, m) && m.rx.result.rejected == n.rx.result.rejected
  {
  }

  lemma GiveUpReasons(setup: Setup, n: Node, e: Event)
    requires ReasonInv(setup, n) && Enabled(n, e)
    requires e.OfferTimeout? || e.DoneWake? || e.DoneTimeout? || e.DrainEnd?
    ensures var m := Next(setup, n, e); ReasonInv(setup, m) && m.rx.result.rejected == n.rx.result.rejected
  {
    hide OnFragment, OnStreamStart, OnPeerFin, OnSendComplete, OnPeerAbort, OnArm, OnOfferWake, OnAnswer, OnOpenOutput,
      OnStoreAccepted, OnSendAccept;
  }

  /** Only a refusal by the user makes a rejection. */
  predicate SaysNo(e: Event) { e.Answer? && !e.yes }

  lemma StepReasons(setup: Setup, n: Node, e: Event)
    requires Inv(setup, n) && ReasonInv(setup, n) && Enabled(n, e)
    ensures var m := Next(setup, n, e);
            && ReasonInv(setup, m) && (m.app == Idle ==> n.app == Idle)
            && (n.app == Idle && m.app != Idle ==> !m.rx.result.rejected && !SaysNo(e))
            && (n.app != Idle ==> m.rx.result.rejected == (n.rx.result.rejected || SaysNo(e)))
            && (n.app == Idle ==> !SaysNo(e))
  {
    hide Inv, ReasonInv, OnStreamStart, OnFragment, OnPeerFin, OnSendComplete, OnPeerAbort, OnArm, OnOfferWake,
      OnOfferTimeout, OnAnswer, OnOpenOutput, OnStoreAccepted, OnSendAccept, OnDoneWake, OnDoneTimeout, OnDrainEnd;
    SameIdle(setup, n, e);
    match e
    case StreamStart => StartReasons(setup, n);
    case Fragment(data, live, faults) => FragmentReasons(setup, n, data, live, faults);
    case PeerFin(readback, sendOk) => FinReasons(setup, n, readback, sendOk);
    case SendComplete => CompleteReasons(setup, n);
    case PeerAbort => AbortReasons(setup, n);
    case Arm => ArmReasons(setup, n);
    case OfferWake => WaitReasons(setup, n);
    case Answer(yes, sendOk) => AnswerReasons(setup, n, yes, sendOk);
    case OpenOutput(openOk, sendOk) => OpenReasons(setup, n, openOk, sendOk);
    case StoreAccepted => StoreReasons(setup, n);
    case SendAccept(sendOk) => GrantReasons(setup, n, sendOk);
    case _ => GiveUpReasons(setup, n, e);
  }

  lemma SameIdle(setup: Setup, n: Node, e: Event)
    requires Enabled(n, e)
    ensures Next(setup, n, e).app == Idle <==> n.app == Idle && !e.Arm?
  {
    hide Appended, PeerFinished, SendCompleted, PeerAbortSeen, Armed, StreamStarted, Sent, OfferOpened, OfferDeclined,
      GivenUp, Passes;
  }

  // ---------------------------------------------------------------- whole runs

  predicate SaidNo(es: seq<Event>) { exists e <- es :: SaysNo(e) }

  lemma {:induction false} RunReasons(setup: Setup, n: Node, es: seq<Event>)
    requires Init(n) && Legal(setup, n, es)
    ensures var m := After(setup, n, es);
            && ReasonInv(setup, m) && (m.app == Idle ==> !SaidNo(es))
            && (m.app != Idle ==> (m.rx.result.rejected <==> SaidNo(es)))
  {
    hide Inv, ReasonInv, Init, Legal, After, Next, Enabled, SaysNo;
    if es == [] {
      NoEvent(setup, n);
      FirstReasons(setup, n);
    } else {
      var front, e := es[..|es| - 1], es[|es| - 1];
      LastEvent(setup, n, es);
      RunReasons(setup, n, front);
      InvInit(setup, n);
      RunsKeepInv(setup, n, front);
      StepReasons(setup, After(setup, n, front), e);
      assert es == front + [e];
      assert SaidNo(es) <==> SaidNo(front) || SaysNo(e);
    }
  }

  lemma FirstReasons(setup: Setup, n: Node)
    requires Init(n)
    ensures ReasonInv(setup, n) && n.app == Idle
  {
  }

  /** In every run: a refused header has woken receive_file, so the wait for an offer or for the verdict ends at once;
      and the result says "rejected" exactly when the user said no. */
  lemma {:induction false} RefusalsTold(setup: Setup, n: Node, es: seq<Event>)
    requires Init(n) && Legal(setup, n, es) && After(setup, n, es).app != Idle
    ensures var m := After(setup, n, es);
            && (m.rx.result.error == BadHeader ==> m.rx.done)
            && (m.app == WaitOffer && m.rx.parsed && !m.rx.offerReady ==> m.rx.done && Enabled(m, OfferWake))
            && (m.app == WaitDone && m.rx.result.error == BadHeader ==> Enabled(m, DoneWake))
            && (!setup.prompt && m.rx.parsed && !m.rx.accepted ==>
                  m.rx.result.error == BadHeader || m.rx.result.error == OpenFailed)
            && (m.rx.result.rejected <==> SaidNo(es)) && (m.rx.result.rejected ==> m.rx.result.error == Declined)
  {
    hide Inv, Init, Legal, After, Next, SaidNo;
    RunReasons(setup, n, es);
  }

  /** When receive_file returns, no output is left open. */
  lemma {:induction false} ReturnCloses(setup: Setup, n: Node, es: seq<Event>, e: Event)
    requires Init(n) && Legal(setup, n, es) && Enabled(After(setup, n, es), e)
    requires !After(setup, n, es).app.Returned? && Next(setup, After(setup, n, es), e).app.Returned?
    ensures !Next(setup, After(setup, n, es), e).rx.out.Open?
  {
    hide Inv, ReasonInv, Init, Legal, After;
    RunReasons(setup, n, es);
    InvInit(setup, n);
    RunsKeepInv(setup, n, es);
    EndCloses(setup, After(setup, n, es), e);
  }

  lemma EndCloses(setup: Setup, n: Node, e: Event)
    requires Inv(setup, n) && ReasonInv(setup, n) && Enabled(n, e)
    requires !n.app.Returned? && Next(setup, n, e).app.Returned?
    ensures !Next(setup, n, e).rx.out.Open?
  {
    hide OnFragment, OnStreamStart, OnPeerFin, OnSendComplete, OnPeerAbort, OnArm, OnAnswer, OnOpenOutput,
      OnStoreAccepted, OnSendAccept, OutputInv, ReplyInv;
    EndsReturn(setup, n, e);
  }

  lemma EndsReturn(setup: Setup, n: Node, e: Event)
    requires !n.app.Returned? && Enabled(n, e) && Next(setup, n, e).app.Returned?
    ensures e.OfferWake? || e.OfferTimeout? || e.DoneWake? || e.DoneTimeout? || e.DrainEnd?
  {
    hide Appended, PeerFinished, SendCompleted, PeerAbortSeen, Armed, StreamStarted, Sent, OfferOpened, OfferDeclined,
      GivenUp, Passes;
  }
}
