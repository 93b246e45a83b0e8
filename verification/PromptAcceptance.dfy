/** With a prompt, against an arbitrary peer: exactly when the FIN is answered with OK, told from the events alone. */
module PromptAcceptance {
  import opened ByteStrings
  import opened FileNames
  import opened HeaderCodec
  import R = Receiver
  import Fragmentation
  import Verdicts
  import opened ServerRuns

  /** What receive_file has been given: bytes while it looked for a header, and bytes after file_accepted_ was set.
      What comes in between is dropped. */
  datatype Heard = Heard(head: Bytes, accepted: bool, body: Bytes)

  /** The header is there, or the cap has been passed. */
  predicate Closed(head: Bytes) { Decode(head).Some? || |head| > MAX_HEADER_BYTES }

  function Hear(h: Heard, e: Event): Heard {
    match e
    case StreamStart => h.(head := [])
    case Arm => Heard([], false, [])
    case StoreAccepted => h.(accepted := true)
    case Fragment(data, live, _) =>
      if !live then h
      else if !Closed(h.head) then h.(head := h.head + data)
      else if h.accepted then h.(body := h.body + data)
      else h
    case _ => h
  }

  function HeardIn(es: seq<Event>): Heard {
    if es == [] then Heard([], false, []) else Hear(HeardIn(es[..|es| - 1]), es[|es| - 1])
  }

  /** Accepted, and exactly the declared number of bytes with the declared digest came after that. */
  predicate Right(hash: Bytes -> Bytes, h: Heard) {
    var decoded := Decode(h.head);
    && h.accepted && decoded.Some?
    && |h.body| == decoded.value.header.size && hash(h.body) == decoded.value.header.sha256
  }

  /** Writes succeed, nothing is aborted and no wait times out. */
  predicate Untroubled(e: Event) {
    (e.Fragment? ==> e.faults.writeOk) && !e.PeerAbort? && !e.OfferTimeout? && !e.DoneTimeout?
  }

  // ---------------------------------------------------------------- what the bytes have to do with the fields

  predicate HeadInv(n: Node, h: Heard) {
    && (!n.rx.parsed ==> n.rx.buffer == h.head && !Closed(h.head))
    && (n.rx.parsed ==> Closed(h.head))
    && (n.rx.offerReady ==> Decode(h.head).Some? && n.rx.header == Decode(h.head).value.header)
    && (n.rx.accepted <==> h.accepted) && (n.rx.accepted ==> n.rx.offerReady)
    && (!h.accepted ==> h.body == [])
  }

  /** While the body comes in, the output holds what has come of it. */
  predicate BodyInv(n: Node, h: Heard) {
    && (n.app == Opened ==> n.rx.out == R.Open([]))
    && (n.rx.accepted && !n.finSeen ==>
          && n.rx.armed && (n.app == Stored || n.app == WaitDone)
          && !n.rx.ioError && n.rx == R.WithBody(n.rx, h.body))
  }

  predicate HeardInv(n: Node, h: Heard) {
    if n.app == Idle then !h.accepted else HeadInv(n, h) && BodyInv(n, h)
  }

  /** A step that leaves header, body and acceptance alone. */
  predicate Deaf(n: Node, m: Node) {
    var s, t := n.rx, m.rx;
    && (n.app == Idle <==> m.app == Idle) && m.finSeen == n.finSeen && m.app != Opened
    && t.buffer == s.buffer && t.parsed == s.parsed && t.header == s.header && t.offerReady == s.offerReady
    && t.accepted == s.accepted
    && (s.accepted && !n.finSeen && n.app != Idle ==>
          t.armed && (m.app == Stored || m.app == WaitDone) && t.ioError == s.ioError && t.out == s.out
          && t.written == s.written && t.overflow == s.overflow)
  }

  lemma DeafKeeps(n: Node, m: Node, h: Heard)
    requires HeardInv(n, h) && Deaf(n, m)
    ensures HeardInv(m, h)
  {
    hide Decode, Closed;
  }

  lemma HeadArrives(setup: R.Setup, n: Node, h: Heard, data: Bytes, faults: R.Faults)
    requires setup.prompt && Inv(setup, n) && HeardInv(n, h) && n.app != Idle && !n.rx.parsed
    ensures HeardInv(OnFragment(setup, n, data, true, faults), h.(head := h.head + data))
  {
    hide Decode, JoinPath, SuccessInv, ReplyInv;
  }

  lemma BodyArrives(setup: R.Setup, n: Node, h: Heard, data: Bytes, faults: R.Faults)
    requires Inv(setup, n) && HeardInv(n, h) && n.app != Idle && n.rx.parsed && !n.finSeen && faults.writeOk
    ensures HeardInv(OnFragment(setup, n, data, true, faults), if h.accepted then h.(body := h.body + data) else h)
  {
    hide Decode, Closed, R.BodyAppended, Inv;
    BodyEffect(n.rx, data, true);
    if n.rx.accepted {
      Fragmentation.BodyGrows(n.rx, h.body, data);
    }
  }

  lemma FragmentHeard(setup: R.Setup, n: Node, h: Heard, data: Bytes, live: bool, faults: R.Faults)
    requires setup.prompt && Inv(setup, n) && HeardInv(n, h) && faults.writeOk
    requires Enabled(n, Fragment(data, live, faults))
    ensures HeardInv(OnFragment(setup, n, data, live, faults), Hear(h, Fragment(data, live, faults)))
  {
    hide Decode, Closed, Inv, HeardInv;
    if n.app == Idle || !live {
      UnheardFragment(setup, n, h, data, live, faults);
    } else if n.rx.parsed {
      assert Closed(h.head) by { ParsedIsClosed(n, h); }
      BodyArrives(setup, n, h, data, faults);
    } else {
      assert !Closed(h.head) by { ParsedIsClosed(n, h); }
      HeadArrives(setup, n, h, data, faults);
    }
  }

  lemma ParsedIsClosed(n: Node, h: Heard)
    requires HeardInv(n, h) && n.app != Idle
    ensures n.rx.parsed <==> Closed(h.head)
  {
    hide Closed;
  }

  lemma UnheardFragment(setup: R.Setup, n: Node, h: Heard, data: Bytes, live: bool, faults: R.Faults)
    requires Inv(setup, n) && HeardInv(n, h) && Enabled(n, Fragment(data, live, faults)) && (n.app == Idle || !live)
    ensures HeardInv(OnFragment(setup, n, data, live, faults), h)
    ensures !live
  {
    hide Decode, Closed, R.Appended;
  }

  lemma StartHeard(setup: R.Setup, n: Node, h: Heard)
    requires Inv(setup, n) && HeardInv(n, h) && !n.started
    ensures HeardInv(OnStreamStart(n), h.(head := []))
  {
    hide Decode;
    NothingClosed();
  }

  lemma NothingClosed()
    ensures !Closed([])
  {
    Fragmentation.EmptyInTime();
  }

  lemma ArmHeard(setup: R.Setup, n: Node, h: Heard)
    requires n.app == Idle
    ensures HeardInv(OnArm(setup, n), Heard([], false, []))
  {
    hide Decode;
    NothingClosed();
  }

  lemma AcceptHeard(setup: R.Setup, n: Node, h: Heard)
    requires Inv(setup, n) && HeardInv(n, h) && n.app == Opened
    ensures HeardInv(OnStoreAccepted(n), h.(accepted := true))
  {
    hide Decode, Closed, SuccessInv, ReplyInv;
  }

  lemma FinHeard(setup: R.Setup, n: Node, h: Heard, readback: Option<Bytes>, sendOk: bool)
    requires Inv(setup, n) && HeardInv(n, h)
    ensures HeardInv(OnPeerFin(setup, n, readback, sendOk), h)
  {
    hide Decode, Closed, R.Finished, SuccessInv, ReplyInv, Passes;
    FinishedEffect(setup, n.rx, readback, sendOk);
  }

  lemma OpenHeard(setup: R.Setup, n: Node, h: Heard, openOk: bool, sendOk: bool)
    requires Inv(setup, n) && HeardInv(n, h) && n.app == Granted
    ensures HeardInv(OnOpenOutput(n, openOk, sendOk), h)
  {
    hide Decode, Closed, SuccessInv, ReplyInv, R.FinSent;
  }

  lemma CompleteHeard(n: Node, h: Heard)
    requires HeardInv(n, h)
    ensures HeardInv(OnSendComplete(n), h)
  {
    hide Decode, Closed;
  }

  lemma OfferDeaf(setup: R.Setup, n: Node, e: Event)
    requires Inv(setup, n) && Enabled(n, e) && setup.prompt && (e.OfferWake? || e.Answer?)
    ensures Deaf(n, Next(setup, n, e))
  {
    hide OnFragment, OnStreamStart, OnPeerFin, OnSendComplete, OnPeerAbort, OnArm, OnOpenOutput, OnStoreAccepted,
      OnSendAccept, OnDoneWake, OnDoneTimeout, OnDrainEnd, SuccessInv, ReplyInv, R.FinSent;
  }

  lemma GrantDeaf(n: Node, sendOk: bool)
    requires n.app == Stored && n.rx.armed
    ensures Deaf(n, OnSendAccept(n, sendOk))
  {
    hide R.FinSent;
  }

  /** Without trouble the last wait is not over before the FIN. */
  lemma EndDeaf(setup: R.Setup, n: Node, h: Heard, r: Verdicts.Race, e: Event)
    requires Inv(setup, n) && HeardInv(n, h) && Verdicts.RaceInv(setup, n, r) && !r.early
    requires Enabled(n, e) && (e.DoneWake? || e.DrainEnd?)
    ensures Deaf(n, Next(setup, n, e))
  {
    hide OnFragment, OnStreamStart, OnPeerFin, OnSendComplete, OnPeerAbort, OnArm, OnOfferWake, OnOfferTimeout,
      OnAnswer, OnOpenOutput, OnStoreAccepted, OnSendAccept, OnDoneTimeout, Decode, Closed, Verdicts.AfterOk,
      OutputInv, ReplyInv;
  }

  lemma StoredIsArmed(setup: R.Setup, n: Node)
    requires Inv(setup, n) && n.app == Stored
    ensures n.rx.armed
  {
  }

  lemma StepHeard(setup: R.Setup, n: Node, h: Heard, r: Verdicts.Race, e: Event)
    requires setup.prompt && Inv(setup, n) && HeardInv(n, h) && Verdicts.RaceInv(setup, n, r) && !r.early
    requires Enabled(n, e) && Untroubled(e)
    ensures HeardInv(Next(setup, n, e), Hear(h, e))
  {
    hide Decode, Closed, Inv, HeardInv, Deaf, Verdicts.RaceInv, OnFragment, OnStreamStart, OnPeerFin, OnSendComplete,
      OnPeerAbort, OnArm, OnOfferWake, OnOfferTimeout, OnAnswer, OnOpenOutput, OnStoreAccepted, OnSendAccept,
      OnDoneWake, OnDoneTimeout, OnDrainEnd;
    match e {
      case StreamStart => StartHeard(setup, n, h); return;
      case Fragment(data, live, faults) => FragmentHeard(setup, n, h, data, live, faults); return;
      case PeerFin(readback, sendOk) => FinHeard(setup, n, h, readback, sendOk); return;
      case SendComplete => CompleteHeard(n, h); return;
      case Arm => ArmHeard(setup, n, h); return;
      case StoreAccepted => AcceptHeard(setup, n, h); return;
      case OpenOutput(openOk, sendOk) => OpenHeard(setup, n, h, openOk, sendOk); return;
      case OfferWake => OfferDeaf(setup, n, e);
      case Answer(_, _) => OfferDeaf(setup, n, e);
      case SendAccept(sendOk) =>
        StoredIsArmed(setup, n);
        GrantDeaf(n, sendOk);
      case DoneWake => EndDeaf(setup, n, h, r, e);
      case DrainEnd => EndDeaf(setup, n, h, r, e);
    }
    DeafKeeps(n, Next(setup, n, e), h);
  }

  // ---------------------------------------------------------------- whole runs

  lemma {:induction false} NothingEarly(es: seq<Event>)
    requires forall e <- es :: Untroubled(e)
    ensures !Verdicts.Outcome(es).early
  {
    if es != [] {
      var front := es[..|es| - 1];
      assert forall e <- front :: e in es;
      assert Untroubled(es[|es| - 1]);
      NothingEarly(front);
    }
  }

  lemma {:induction false} RunHeard(setup: R.Setup, n: Node, es: seq<Event>)
    requires setup.prompt && Init(n) && Legal(setup, n, es) && forall e <- es :: Untroubled(e)
    ensures HeardInv(After(setup, n, es), HeardIn(es))
  {
    hide HeardInv, Hear, Next, Enabled, Init, Inv, Legal, After, Untroubled, Verdicts.RaceInv, Verdicts.Outcome;
    if es == [] {
      NoEvent(setup, n);
      FirstHeard(n);
    } else {
      var front := es[..|es| - 1];
      LastEvent(setup, n, es);
      assert forall e <- front :: e in es;
      assert Untroubled(es[|es| - 1]);
      RunHeard(setup, n, front);
      InvInit(setup, n);
      RunsKeepInv(setup, n, front);
      Verdicts.RunRaces(setup, n, front);
      NothingEarly(front);
      StepHeard(setup, After(setup, n, front), HeardIn(front), Verdicts.Outcome(front), es[|es| - 1]);
    }
  }

  lemma FirstHeard(n: Node)
    requires Init(n)
    ensures HeardInv(n, HeardIn([]))
  {
  }

  /** The answer to the FIN, given what has been heard. */
  lemma FinAnswer(setup: R.Setup, n: Node, h: Heard)
    requires setup.prompt && Inv(setup, n) && HeardInv(n, h) && n.started && !n.finSeen
    ensures OkSent(OnPeerFin(setup, n, Fragmentation.Stored(n.rx), true).rx) <==> Right(setup.hash, h)
  {
    hide Decode, Closed, R.Finished, Passes;
    FinishedEffect(setup, n.rx, Fragmentation.Stored(n.rx), true);
    if n.app != Idle && n.rx.accepted {
      assert h.body[..|h.body|] == h.body;
      NotFinSent(setup, n);
    } else {
      NotOkYet(setup, n);
    }
  }

  lemma NotFinSent(setup: R.Setup, n: Node)
    requires Inv(setup, n) && n.app != Idle && !n.finSeen && n.rx.accepted
    ensures !R.FinSent(n.rx)
  {
  }

  lemma NotOkYet(setup: R.Setup, n: Node)
    requires Inv(setup, n) && !n.finSeen
    ensures !OkSent(n.rx)
  {
  }

  /** With a prompt, for every peer and every untroubled run: the FIN is answered with OK exactly if the bytes heard
      while a header was awaited decode, the user said yes and the output opened, and the bytes heard after
      file_accepted_ was set are exactly as many as declared and have the declared digest. */
  lemma {:induction false} OkIffRight(setup: R.Setup, n: Node, es: seq<Event>)
    requires setup.prompt && Init(n) && Legal(setup, n, es) && forall e <- es :: Untroubled(e)
    requires After(setup, n, es).started && !After(setup, n, es).finSeen
    ensures var m := After(setup, n, es);
            OkSent(OnPeerFin(setup, m, Fragmentation.Stored(m.rx), true).rx) <==> Right(setup.hash, HeardIn(es))
  {
    hide HeardInv, HeardIn, Init, Inv, Legal, After, Untroubled, Right, OnPeerFin, OkSent;
    RunHeard(setup, n, es);
    InvInit(setup, n);
    RunsKeepInv(setup, n, es);
    FinAnswer(setup, After(setup, n, es), HeardIn(es));
  }
}
