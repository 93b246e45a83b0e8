/** When a receive_file that answered OK also returns true: exactly when, after the FIN, a SEND_COMPLETE comes before
    its last wait is over, no abort event does, and the wait has not timed out. */
module Verdicts {
  import opened ByteStrings
  import opened FileNames
  import opened HeaderCodec
  import R = Receiver
  import opened ServerRuns

  /** What the events alone tell about the race between OK's completion, abort events and the last wait. */
  datatype Race = Race(
    fin: bool,    // the FIN has been seen
    ack: bool,    // and a SEND_COMPLETE after it
    lost: bool,   // and an abort event after it
    early: bool,  // an abort event came before the FIN
    late: bool,   // the last wait timed out
    won: bool)    // the last wait was woken with ack and without lost

  function Raced(r: Race, e: Event): Race {
    match e
    case PeerFin(_, _) => r.(fin := true)
    case SendComplete => r.(ack := r.ack || r.fin)
    case PeerAbort => if r.fin then r.(lost := true) else r.(early := true)
    case DoneWake => r.(won := r.fin && r.ack && !r.lost)
    case DoneTimeout => r.(late := true)
    case _ => r
  }

  function Outcome(es: seq<Event>): Race {
    if es == [] then Race(false, false, false, false, false, false)
    else Raced(Outcome(es[..|es| - 1]), es[|es| - 1])
  }

  /** The last wait ended by being woken, after a SEND_COMPLETE that came after the FIN, with no abort event between
      the FIN and the wake. */
  predicate Won(es: seq<Event>) { Outcome(es).won }

  // ---------------------------------------------------------------- what the race has to do with the fields

  /** After OK: the fields say how the race stands, and then how it ended. */
  predicate AfterOk(n: Node, r: Race) {
    if n.app == Stored || n.app == WaitDone then
      && n.rx.finalAck && n.rx.armed && (n.rx.ok <==> r.ack && !r.lost) && (n.rx.ok ==> n.rx.done)
      && (n.rx.result.success <==> !r.lost) && (n.rx.done ==> n.rx.ok || r.lost || r.early)
    else
      (n.app == Draining(true) && r.won) || (n.app == Returned(r.won) && (r.won || r.lost || r.early || r.late))
  }

  predicate RaceInv(setup: R.Setup, n: Node, r: Race) {
    && (r.fin <==> n.finSeen)
    && (n.app.Returned? ==> !n.rx.armed)
    && (n.app == Draining(false) ==> !n.rx.accepted && n.rx.parsed && setup.prompt)
    && (r.won ==> n.app.Draining? || n.app.Returned?)
    && (!n.finSeen && n.app != Idle ==> !n.rx.finalAck && (n.rx.done ==> n.rx.ioError || r.early))
    && (OkSent(n.rx) ==> n.finSeen && AfterOk(n, r))
  }

  lemma FragmentRaces(setup: R.Setup, n: Node, r: Race, data: Bytes, live: bool, faults: R.Faults)
    requires Inv(setup, n) && RaceInv(setup, n, r) && !n.finSeen && n.started
    requires live == n.rx.armed || n.callback == Inside(live)
    ensures RaceInv(setup, OnFragment(setup, n, data, live, faults), r)
  {
    hide Decode, JoinPath, R.BodyAppended, R.AutoAccepted;
    if live && n.rx.parsed {
      BodyEffect(n.rx, data, faults.writeOk);
      BodyFails(n.rx, data, faults.writeOk);
    } else if live {
      var s := n.rx.(buffer := n.rx.buffer + data);
      var decoded := Decode(s.buffer);
      if decoded.Some? {
        AutoControl(R.HeaderStored(setup, s, decoded.value.header), R.Rest(s.buffer, decoded.value.consumed), faults);
      }
    }
  }

  lemma BodyFails(s: R.State, data: Bytes, writeOk: bool)
    ensures s.ioError ==> R.BodyAppended(s, data, writeOk).ioError
  {
  }

  /** What auto-accepting leaves alone. */
  predicate SameVerdict(s: R.State, t: R.State) {
    && t.done == s.done && t.finalAck == s.finalAck && t.armed == s.armed && t.ok == s.ok
    && t.result.success == s.result.success && t.parsed == s.parsed
  }

  lemma AutoControl(s: R.State, body: Bytes, faults: R.Faults)
    ensures var t := R.AutoAccepted(s, body, faults);
            SameVerdict(s, t) && (t.replies == s.replies || t.replies == s.replies + [R.ACCEPT])
  {
    hide R.BodyAppended, R.Sent, R.OutputOpened;
    OpenedControl(s, faults.openOk);
    OpenedControl(s, true);
    var u := R.OutputOpened(s, true).(accepted := true);
    SentControl(u, faults.sendOk);
    BodyEffect(R.Sent(u, R.ACCEPT, faults.sendOk), body, faults.writeOk);
  }

  lemma OpenedControl(s: R.State, openOk: bool)
    ensures var t := R.OutputOpened(s, openOk); SameVerdict(s, t) && t.replies == s.replies
  {
    hide Decode;
  }

  lemma SentControl(s: R.State, sendOk: bool)
    ensures var t := R.Sent(s, R.ACCEPT, sendOk);
            SameVerdict(s, t) && (t.replies == s.replies || t.replies == s.replies + [R.ACCEPT])
  {
  }

  lemma FinRaces(setup: R.Setup, n: Node, r: Race, readback: Option<Bytes>, sendOk: bool)
    requires Inv(setup, n) && RaceInv(setup, n, r) && !n.finSeen && n.started && !r.ack && !r.lost
    ensures RaceInv(setup, OnPeerFin(setup, n, readback, sendOk), r.(fin := true))
  {
    hide R.Finished, OutputInv;
    FinishedEffect(setup, n.rx, readback, sendOk);
  }

  lemma CompletionRaces(setup: R.Setup, n: Node, r: Race)
    requires Inv(setup, n) && RaceInv(setup, n, r) && n.started
    ensures RaceInv(setup, OnSendComplete(n), Raced(r, SendComplete))
  {
    hide OutputInv, PhaseInv, ReplyInv;
  }

  lemma AbortRaces(setup: R.Setup, n: Node, r: Race)
    requires Inv(setup, n) && RaceInv(setup, n, r) && n.started
    ensures RaceInv(setup, OnPeerAbort(n), Raced(r, PeerAbort))
  {
    hide OutputInv, ReplyInv, SuccessInv;
  }

  lemma StartRaces(setup: R.Setup, n: Node, r: Race)
    requires Inv(setup, n) && RaceInv(setup, n, r) && !n.started
    ensures RaceInv(setup, OnStreamStart(n), r)
  {
  }

  lemma PromptRaces(setup: R.Setup, n: Node, r: Race, e: Event)
    requires Inv(setup, n) && RaceInv(setup, n, r) && Enabled(n, e)
    requires e.Arm? || e.OfferWake? || e.OfferTimeout? || e.Answer?
    ensures RaceInv(setup, Next(setup, n, e), r)
  {
    hide OnFragment, OnPeerFin, OnPeerAbort, OnDoneTimeout, OnSendComplete, OnStreamStart, OnOpenOutput,
      OnStoreAccepted, OnSendAccept, OnDoneWake, OnDrainEnd, OutputInv;
  }

  lemma OutputRaces(setup: R.Setup, n: Node, r: Race, e: Event)
    requires Inv(setup, n) && RaceInv(setup, n, r) && Enabled(n, e)
    requires e.OpenOutput? || e.StoreAccepted? || e.SendAccept?
    ensures RaceInv(setup, Next(setup, n, e), r)
  {
    hide OnFragment, OnPeerFin, OnPeerAbort, OnDoneTimeout, OnSendComplete, OnStreamStart, OnArm, OnOfferWake,
      OnOfferTimeout, OnAnswer, OnDoneWake, OnDrainEnd, OutputInv;
  }

  lemma EndRaces(setup: R.Setup, n: Node, r: Race, e: Event)
    requires Inv(setup, n) && RaceInv(setup, n, r) && Enabled(n, e) && (e.DoneWake? || e.DoneTimeout? || e.DrainEnd?)
    ensures RaceInv(setup, Next(setup, n, e), Raced(r, e))
  {
    hide OnFragment, OnPeerFin, OnPeerAbort, OnSendComplete, OnStreamStart, OnArm, OnOfferWake, OnOfferTimeout,
      OnAnswer, OnOpenOutput, OnStoreAccepted, OnSendAccept, OutputInv;
  }

  lemma StepRaces(setup: R.Setup, n: Node, r: Race, e: Event)
    requires Inv(setup, n) && RaceInv(setup, n, r) && Enabled(n, e) && (!r.fin ==> !r.ack && !r.lost)
    ensures RaceInv(setup, Next(setup, n, e), Raced(r, e))
  {
    hide Inv, OnFragment, OnPeerFin, OnSendComplete, OnStreamStart, OnPeerAbort, OnArm, OnOfferWake, OnOfferTimeout,
      OnAnswer, OnOpenOutput, OnStoreAccepted, OnSendAccept, OnDoneWake, OnDoneTimeout, OnDrainEnd, AfterOk, OkSent;
    match e
    case StreamStart => StartRaces(setup, n, r);
    case Fragment(data, live, faults) => FragmentRaces(setup, n, r, data, live, faults);
    case PeerFin(readback, sendOk) => FinRaces(setup, n, r, readback, sendOk);
    case SendComplete => CompletionRaces(setup, n, r);
    case PeerAbort => AbortRaces(setup, n, r);
    case OpenOutput(_, _) => OutputRaces(setup, n, r, e);
    case StoreAccepted => OutputRaces(setup, n, r, e);
    case SendAccept(_) => OutputRaces(setup, n, r, e);
    case DoneWake => EndRaces(setup, n, r, e);
    case DoneTimeout => EndRaces(setup, n, r, e);
    case DrainEnd => EndRaces(setup, n, r, e);
    case _ => PromptRaces(setup, n, r, e);
  }

  // ---------------------------------------------------------------- whole runs

  lemma {:induction false} RunRaces(setup: R.Setup, n: Node, es: seq<Event>)
    requires Init(n) && Legal(setup, n, es)
    ensures RaceInv(setup, After(setup, n, es), Outcome(es))
    ensures !Outcome(es).fin ==> !Outcome(es).ack && !Outcome(es).lost
  {
    hide RaceInv, Next, Enabled, Init, Inv, Legal, After;
    if es == [] {
      NoEvent(setup, n);
      RaceInit(setup, n);
    } else {
      var front := es[..|es| - 1];
      LastEvent(setup, n, es);
      RunRaces(setup, n, front);
      InvInit(setup, n);
      RunsKeepInv(setup, n, front);
      StepRaces(setup, After(setup, n, front), Outcome(front), es[|es| - 1]);
    }
  }

  lemma RaceInit(setup: R.Setup, n: Node)
    requires Init(n)
    ensures RaceInv(setup, n, Outcome([]))
  {
  }

  /** Against any peer, with any timeouts, aborts and faults: a receive_file that has returned, returned true exactly
      when it answered OK and the race was won. */
  lemma {:induction false} TrueIffOkAndWon(setup: R.Setup, n: Node, es: seq<Event>)
    requires Init(n) && Legal(setup, n, es) && After(setup, n, es).app.Returned?
    ensures var m := After(setup, n, es); m.app == Returned(true) <==> OkSent(m.rx) && Won(es)
  {
    hide Next, Enabled, Init, Inv, After, Legal, OkSent, Outcome;
    RunRaces(setup, n, es);
    ReceiverSound(setup, n, es);
  }

  /** Neither an abort event nor a timeout of the last wait. */
  predicate Calm(e: Event) { !e.PeerAbort? && !e.DoneTimeout? }

  lemma {:induction false} CalmOutcome(es: seq<Event>)
    requires forall e <- es :: Calm(e)
    ensures !Outcome(es).lost && !Outcome(es).early && !Outcome(es).late
  {
    if es != [] {
      var front := es[..|es| - 1];
      assert forall e <- front :: e in es;
      assert Calm(es[|es| - 1]);
      CalmOutcome(front);
    }
  }

  /** So without such events true and OK go together. */
  lemma {:induction false} AnsweredOkReturnsTrue(setup: R.Setup, n: Node, es: seq<Event>)
    requires Init(n) && Legal(setup, n, es) && After(setup, n, es).app.Returned?
    requires forall e <- es :: Calm(e)
    ensures var m := After(setup, n, es); m.app == Returned(true) <==> OkSent(m.rx)
  {
    hide Next, Enabled, Init, Inv, After, Legal, OkSent, Outcome;
    RunRaces(setup, n, es);
    TrueIffOkAndWon(setup, n, es);
    CalmOutcome(es);
  }
}
