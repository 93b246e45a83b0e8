/** Where receive_file writes and what it reports, against an arbitrary peer. */
module Outcomes {
  import opened ByteStrings
  import opened FileNames
  import opened HeaderCodec
  import opened Receiver
  import opened ServerRuns
  import HeaderTheorems

  /** The output path once there is anything to open: the file asked for, or the announced name in the directory. */
  predicate PathSettled(setup: Setup, rx: State) {
    if setup.dir.Some? then Canonical(rx.header.name) && rx.path == JoinPath(setup.dir.value, rx.header.name)
    else rx.path == setup.file
  }

  predicate Destined(rx: State) { rx.offerReady || rx.accepted || !rx.out.NoFile? }

  predicate PathInv(setup: Setup, n: Node) {
    n.app != Idle ==>
      && (setup.dir.None? ==> n.rx.path == setup.file)
      && (Destined(n.rx) ==> PathSettled(setup, n.rx))
  }

  /** What the result says once the file has been verified. */
  predicate ResultInv(setup: Setup, n: Node) {
    n.verified.Some? ==>
      && n.rx.result.bytesReceived == n.rx.header.size && n.rx.result.expectedHash == n.rx.header.sha256
      && n.rx.result.computedHash == setup.hash(n.verified.value) && n.finSeen
  }

  /** A step that leaves header, path and the reported values alone, and opens nothing that was not offered. */
  predicate Settles(n: Node, m: Node) {
    var s, t := n.rx, m.rx;
    && t.header == s.header && t.path == s.path && (m.app == Idle <==> n.app == Idle)
    && (Destined(t) ==> Destined(s)) && m.verified == n.verified && m.finSeen == n.finSeen
    && t.result.bytesReceived == s.result.bytesReceived && t.result.expectedHash == s.result.expectedHash
    && t.result.computedHash == s.result.computedHash
  }

  lemma SettlesKeeps(setup: Setup, n: Node, m: Node)
    requires PathInv(setup, n) && ResultInv(setup, n) && Settles(n, m)
    ensures PathInv(setup, m) && ResultInv(setup, m)
  {
    hide JoinPath, Canonical;
  }

  // ---------------------------------------------------------------- steps that settle nothing

  lemma CompleteSettles(n: Node)
    ensures Settles(n, OnSendComplete(n))
  {
  }

  lemma AbortSettles(n: Node)
    ensures Settles(n, OnPeerAbort(n))
  {
  }

  lemma OfferSettles(n: Node)
    requires n.app == WaitOffer
    ensures Settles(n, OnOfferWake(n)) && Settles(n, OnOfferTimeout(n))
  {
  }

  lemma AnswerSettles(n: Node, yes: bool, sendOk: bool)
    requires n.app == Asking
    ensures Settles(n, OnAnswer(n, yes, sendOk))
  {
    hide Sent;
    SentEffect(n.rx, REJECT, sendOk);
  }

  lemma OpenSettles(setup: Setup, n: Node, openOk: bool, sendOk: bool)
    requires Inv(setup, n) && n.app == Granted
    ensures Settles(n, OnOpenOutput(n, openOk, sendOk))
  {
    hide FinSent, OutputInv, SuccessInv, ReplyInv;
  }

  lemma AcceptSettles(setup: Setup, n: Node)
    requires Inv(setup, n) && n.app == Opened
    ensures Settles(n, OnStoreAccepted(n))
  {
    hide OutputInv, SuccessInv, ReplyInv;
  }

  lemma GrantSettles(n: Node, sendOk: bool)
    requires n.app == Stored
    ensures Settles(n, OnSendAccept(n, sendOk))
  {
    hide FinSent;
  }

  lemma WakeSettles(n: Node)
    requires n.app == WaitDone
    ensures Settles(n, OnDoneWake(n))
  {
  }

  lemma TimeoutSettles(n: Node)
    requires n.app == WaitDone
    ensures Settles(n, OnDoneTimeout(n))
  {
  }

  lemma DrainSettles(n: Node)
    requires n.app.Draining?
    ensures Settles(n, OnDrainEnd(n))
  {
  }

  // ---------------------------------------------------------------- steps that do

  lemma StartKeeps(setup: Setup, n: Node)
    requires Inv(setup, n) && PathInv(setup, n) && ResultInv(setup, n) && !n.started
    ensures PathInv(setup, OnStreamStart(n)) && ResultInv(setup, OnStreamStart(n))
  {
    hide JoinPath, Canonical;
  }

  lemma ArmKeeps(setup: Setup, n: Node)
    requires Inv(setup, n) && n.app == Idle
    ensures PathInv(setup, OnArm(setup, n)) && ResultInv(setup, OnArm(setup, n))
  {
    hide JoinPath, Canonical;
  }

  lemma BodySettles(n: Node, data: Bytes, writeOk: bool)
    ensures Settles(n, n.(rx := BodyAppended(n.rx, data, writeOk), callback := Inside(true)))
  {
    hide Minus64, Plus64;
  }

  /** A decoded header settles the path before anything can be opened. */
  lemma HeaderSettled(setup: Setup, s: State, faults: Faults)
    requires !Destined(s) && (setup.dir.None? ==> s.path == setup.file)
    ensures var t := HeaderTried(setup, s, faults);
            (setup.dir.None? ==> t.path == setup.file) && (Destined(t) ==> PathSettled(setup, t))
  {
    hide Decode, JoinPath, Canonical, AutoAccepted;
    var decoded := Decode(s.buffer);
    if decoded.Some? {
      HeaderTheorems.DecodedIsCanonical(s.buffer);
      var t := HeaderStored(setup, s, decoded.value.header);
      AutoKeepsPath(t, Rest(s.buffer, decoded.value.consumed), faults);
    }
  }

  lemma AutoKeepsPath(s: State, body: Bytes, faults: Faults)
    ensures var t := AutoAccepted(s, body, faults); t.path == s.path && t.header == s.header
  {
    hide BodyAppended, Sent;
    if faults.openOk {
      var u := OutputOpened(s, true).(accepted := true);
      SentKeepsPath(u, faults.sendOk);
      BodyEffect(Sent(u, ACCEPT, faults.sendOk), body, faults.writeOk);
    }
  }

  lemma SentKeepsPath(s: State, sendOk: bool)
    ensures var t := Sent(s, ACCEPT, sendOk); t.path == s.path && t.header == s.header
  {
  }

  lemma FragmentKeeps(setup: Setup, n: Node, data: Bytes, live: bool, faults: Faults)
    requires Inv(setup, n) && PathInv(setup, n) && ResultInv(setup, n) && Enabled(n, Fragment(data, live, faults))
    ensures var m := OnFragment(setup, n, data, live, faults); PathInv(setup, m) && ResultInv(setup, m)
  {
    hide BodyAppended, HeaderTried, PathSettled, PhaseInv, SuccessInv, ReplyInv, Settles;
    assert n.verified.None? by { NotVerifiedYet(setup, n); }
    if live && n.rx.parsed {
      BodySettles(n, data, faults.writeOk);
      SettlesKeeps(setup, n, n.(rx := BodyAppended(n.rx, data, faults.writeOk), callback := Inside(true)));
    } else if live && n.app != Idle {
      HeaderSettled(setup, n.rx.(buffer := n.rx.buffer + data), faults);
    }
  }

  lemma NotVerifiedYet(setup: Setup, n: Node)
    requires Inv(setup, n) && !n.finSeen
    ensures n.verified.None?
  {
  }

  lemma FinKeeps(setup: Setup, n: Node, readback: Option<Bytes>, sendOk: bool)
    requires Inv(setup, n) && PathInv(setup, n) && ResultInv(setup, n) && n.started && !n.finSeen
    ensures var m := OnPeerFin(setup, n, readback, sendOk); PathInv(setup, m) && ResultInv(setup, m)
  {
    hide Finished, JoinPath, Canonical, PhaseInv, ReplyInv, Verdict;
    FinishedEffect(setup, n.rx, readback, sendOk);
    FinishedReports(setup, n.rx, readback, sendOk);
    assert n.verified.None? by { NotVerifiedYet(setup, n); }
  }

  /** What finish_file_receive leaves in the result. */
  lemma FinishedReports(setup: Setup, s: State, readback: Option<Bytes>, sendOk: bool)
    ensures var r, verdict := Finished(setup, s, readback, sendOk).result, Verdict(setup, s, readback);
            && r.bytesReceived == s.written && r.expectedHash == s.header.sha256
            && (verdict == Fine ==>
                  readback.Some? && r.bytesReceived == s.header.size && r.computedHash == setup.hash(readback.value)
                  && r.computedHash == r.expectedHash)
            && (verdict != Fine ==> r.error == verdict && !r.success)
            && (s.ioError && s.result.error != Fine ==> r.error == s.result.error)
  {
  }

  lemma StepKeeps(setup: Setup, n: Node, e: Event)
    requires Inv(setup, n) && PathInv(setup, n) && ResultInv(setup, n) && Enabled(n, e)
    ensures PathInv(setup, Next(setup, n, e)) && ResultInv(setup, Next(setup, n, e))
  {
    hide Inv, PathInv, ResultInv, Settles, OnStreamStart, OnFragment, OnPeerFin, OnSendComplete, OnPeerAbort, OnArm,
      OnOfferWake, OnOfferTimeout, OnAnswer, OnOpenOutput, OnStoreAccepted, OnSendAccept, OnDoneWake, OnDoneTimeout,
      OnDrainEnd;
    match e {
      case StreamStart => StartKeeps(setup, n); return;
      case Fragment(data, live, faults) => FragmentKeeps(setup, n, data, live, faults); return;
      case PeerFin(readback, sendOk) => FinKeeps(setup, n, readback, sendOk); return;
      case Arm => ArmKeeps(setup, n); return;
      case SendComplete => CompleteSettles(n);
      case PeerAbort => AbortSettles(n);
      case OfferWake => OfferSettles(n);
      case OfferTimeout => OfferSettles(n);
      case Answer(yes, sendOk) => AnswerSettles(n, yes, sendOk);
      case OpenOutput(openOk, sendOk) => OpenSettles(setup, n, openOk, sendOk);
      case StoreAccepted => AcceptSettles(setup, n);
      case SendAccept(sendOk) => GrantSettles(n, sendOk);
      case DoneWake => WakeSettles(n);
      case DoneTimeout => TimeoutSettles(n);
      case DrainEnd => DrainSettles(n);
    }
    SettlesKeeps(setup, n, Next(setup, n, e));
  }

  lemma {:induction false} RunsKeep(setup: Setup, n: Node, es: seq<Event>)
    requires Init(n) && Legal(setup, n, es)
    ensures var m := After(setup, n, es); Inv(setup, m) && PathInv(setup, m) && ResultInv(setup, m)
  {
    hide Inv, PathInv, ResultInv, Next, Enabled, Init, Legal, After;
    InvInit(setup, n);
    RunsKeepInv(setup, n, es);
    if es == [] {
      NoEvent(setup, n);
      AtFirst(setup, n);
    } else {
      LastEvent(setup, n, es);
      RunsKeep(setup, n, es[..|es| - 1]);
      StepKeeps(setup, After(setup, n, es[..|es| - 1]), es[|es| - 1]);
    }
  }

  lemma AtFirst(setup: Setup, n: Node)
    requires Init(n)
    ensures PathInv(setup, n) && ResultInv(setup, n)
  {
  }

  /** Whatever a peer announces, the only file that is ever opened is the one asked for, or a direct child of the
      directory asked for. */
  lemma {:induction false} OutputStaysInside(setup: Setup, n: Node, es: seq<Event>)
    requires Init(n) && Legal(setup, n, es)
    requires var m := After(setup, n, es); m.app != Idle && !m.rx.out.NoFile?
    ensures var path := After(setup, n, es).rx.path;
            var k := BaseStart(path, |path|);
            if setup.dir.None? then path == setup.file
            else && Canonical(path[k..]) && (path[..k] == setup.dir.value || path[..k] == setup.dir.value + "/")
                 && InDirectory(path, setup.dir.value, path[k..])
                 && (path[0] == '/' <==> setup.dir.value != [] && setup.dir.value[0] == '/')
  {
    hide Inv, ResultInv, Legal, After, Init, JoinPath, Canonical, BaseStart, InDirectory;
    RunsKeep(setup, n, es);
    var rx := After(setup, n, es).rx;
    if setup.dir.Some? {
      CanonicalUnchanged(rx.header.name);
      OutputIsDirectChild(setup.dir.value, rx.header.name);
    }
  }

  /** A receive_file that returns true reports the declared size and the declared digest, found equal to the computed
      one. */
  lemma {:induction false} SuccessReported(setup: Setup, n: Node, es: seq<Event>)
    requires Init(n) && Legal(setup, n, es) && After(setup, n, es).app == Returned(true)
    ensures var rx := After(setup, n, es).rx;
            && rx.out.Closed? && rx.result.bytesReceived == rx.header.size == |rx.out.bytes|
            && rx.result.computedHash == rx.result.expectedHash == rx.header.sha256
  {
    hide Inv, PathInv, Legal, After, Init;
    RunsKeep(setup, n, es);
    ReceiverSound(setup, n, es);
  }
}
