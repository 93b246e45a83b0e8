/** The failures that no answer ever reports to a real sender. */
module Silence {
  import opened ByteStrings
  import opened HeaderCodec
  import opened HeaderTheorems
  import opened Transfer
  import TransferSteps
  import Safety
  import S = Sender
  import R = Receiver
  import Server = ServerRuns

  /** The header has been dealt with without a prompt, but not accepted: the output did not open, or the buffer cap
      was passed. */
  predicate Unopened(cfg: Config, t: System) {
    t.server.app != Server.Idle && !cfg.setup.prompt && t.server.rx.parsed && !t.server.rx.accepted
  }

  /** The beginning of the header was dropped, because receive_file was not armed yet. */
  predicate Dropped(cfg: Config, t: System) {
    var n := t.server;
    t.base > 0 &&
    (n.app == Server.Idle ||
     (!n.rx.parsed &&
      (n.app == Server.WaitOffer || n.app.Returned? || (n.app == Server.WaitDone && !cfg.setup.prompt))))
  }

  /** With a prompt, the buffer cap was passed before there was anything to ask about. */
  predicate Refused(t: System) {
    var n := t.server;
    n.app == Server.WaitOffer && n.rx.parsed && !n.rx.offerReady && n.rx.replies == []
  }

  /** The time for the first answer has gone by: it was refused by the transport, or there was none to give. */
  predicate Unsaid(t: System) {
    var n := t.server;
    && n.rx.replies == [] && n.rx.parsed
    && ((n.app == Server.WaitDone && n.rx.accepted) || n.app.Draining? || n.app.Returned?)
  }

  predicate Silenced(cfg: Config, t: System) { Unopened(cfg, t) || Dropped(cfg, t) || Refused(t) || Unsaid(t) }

  /** No answer, no decision, no body, no FIN, no success. */
  predicate Mute(cfg: Config, t: System) {
    && t.server.rx.replies == [] && t.client.awaiting && Safety.BodySent(cfg, t) == [] && !t.client.fin
    && t.client.phase != S.Ended(true) && t.server.app != Server.Returned(true)
  }

  lemma SilencedSaidNothing(cfg: Config, t: System)
    requires Inv(cfg, t) && Silenced(cfg, t)
    ensures t.server.rx.replies == []
  {
    hide Encode, HeaderInv, BodyInv, ClientInv, DecisionInv, ReplyText;
  }

  lemma SilencedIsMute(cfg: Config, t: System)
    requires Inv(cfg, t) && Silenced(cfg, t)
    ensures Mute(cfg, t)
  {
    hide Encode, HeaderInv, BodyInv, ReplyText, R.Text, S.HasNewline, S.SaysOk, Server.Inv, Silenced;
    SilencedSaidNothing(cfg, t);
    assert Server.Inv(cfg.setup, t.server);
    Server.InvIsSound(cfg.setup, t.server);
  }

  // ---------------------------------------------------------------- every step

  /** A fragment for a receiver that has lost the beginning: nothing decodes. */
  lemma DroppedFragment(cfg: Config, t: System, data: Bytes, faults: R.Faults)
    requires Proper(cfg) && Inv(cfg, t) && t.base > 0 && t.server.app != Server.Idle && !t.server.rx.parsed
    requires Live(t.server) && At(Wire(t), t.up, data)
    ensures var s, rx := t.server.rx, R.Appended(cfg.setup, t.server.rx, data, faults);
            !rx.accepted && rx.offerReady == s.offerReady && rx.replies == s.replies && !s.offerReady
  {
    hide Encode, Decode, DecisionInv, ClientInv, HeaderInv, ReplyOrder, BodyInv, R.AutoAccepted, R.HeaderStored,
      Proper, Inv, Server.Inv, At;
    TransferSteps.BufferedHeader(cfg, t, data);
    Unparsed(cfg, t);
  }

  lemma Unparsed(cfg: Config, t: System)
    requires Inv(cfg, t) && t.server.app != Server.Idle && !t.server.rx.parsed
    ensures !t.server.rx.accepted && !t.server.rx.offerReady
  {
    hide Encode, ClientInv, DecisionInv, HeaderInv;
    TransferSteps.UnparsedFacts(cfg, t);
  }

  lemma FragmentIsOn(cfg: Config, t: System, data: Bytes, live: bool, faults: R.Faults)
    requires Enabled(cfg, t, AtServer(Server.Fragment(data, live, faults)))
    ensures Server.Next(cfg.setup, t.server, Server.Fragment(data, live, faults)) ==
            Server.OnFragment(cfg.setup, t.server, data, live, faults)
    ensures live ==> Live(t.server)
    ensures At(Wire(t), t.up, data)
  {
    hide Server.OnFragment;
  }

  lemma IdleFacts(cfg: Config, t: System)
    requires Inv(cfg, t)
    ensures t.base <= t.up && (t.server.app == Server.Idle ==> !Live(t.server) && t.base == t.up)
    ensures !t.server.started ==> t.base == 0 && t.up == 0 && (t.server.app != Server.Idle ==> !t.server.rx.parsed)
  {
    hide Encode, BodyInv, DecisionInv, ClientInv;
  }

  lemma ParsedStays(setup: R.Setup, s: R.State, data: Bytes, faults: R.Faults)
    requires s.parsed
    ensures var t := R.Appended(setup, s, data, faults);
            t.parsed && t.accepted == s.accepted && t.offerReady == s.offerReady && t.replies == s.replies
  {
    hide R.BodyAppended;
    Server.BodyEffect(s, data, faults.writeOk);
  }

  lemma FragmentStaysSilent(cfg: Config, t: System, data: Bytes, live: bool, faults: R.Faults)
    requires Proper(cfg) && Inv(cfg, t) && Silenced(cfg, t)
    requires Enabled(cfg, t, AtServer(Server.Fragment(data, live, faults)))
    ensures var u := Next(cfg, t, AtServer(Server.Fragment(data, live, faults)));
            Silenced(cfg, u) && (Unopened(cfg, t) ==> Unopened(cfg, u))
  {
    hide Encode, Next, Inv, At, Proper, R.Appended, Server.Next, Enabled;
    TransferSteps.NextAtServer(cfg, t, Server.Fragment(data, live, faults));
    FragmentIsOn(cfg, t, data, live, faults);
    IdleFacts(cfg, t);
    SilencedSaidNothing(cfg, t);
    if live && t.server.rx.parsed {
      ParsedStays(cfg.setup, t.server.rx, data, faults);
    } else if live {
      DroppedFragment(cfg, t, data, faults);
    }
  }

  /** What is the same in two states that are silenced alike. */
  predicate SameFacts(s: R.State, t: R.State) {
    t.parsed == s.parsed && t.accepted == s.accepted && t.offerReady == s.offerReady && t.replies == s.replies
  }

  lemma CompleteSame(n: Server.Node)
    ensures var m := Server.OnSendComplete(n); m.app == n.app && SameFacts(n.rx, m.rx)
  {
    hide R.Shut;
  }

  lemma AbortSame(n: Server.Node)
    ensures var m := Server.OnPeerAbort(n); m.app == n.app && SameFacts(n.rx, m.rx)
  {
    hide R.Shut;
  }

  /** The waits end in giving up, since nothing good can have happened. */
  lemma WaitsGiveUp(setup: R.Setup, n: Server.Node, e: Server.Event)
    requires Server.Inv(setup, n) && Server.Enabled(n, e) && n.rx.replies == []
    requires e.DoneWake? || e.DoneTimeout? || e.DrainEnd? || e.OfferTimeout? || (e.OfferWake? && !n.rx.offerReady)
    ensures var m := Server.Next(setup, n, e); m.app == Server.Returned(false) && SameFacts(n.rx, m.rx)
  {
    hide R.Shut, Server.OutputInv, Server.PhaseInv, Server.ReplyInv;
  }

  /** Nothing is asked, opened or granted any more. */
  lemma NotAsking(cfg: Config, t: System)
    requires Inv(cfg, t) && Silenced(cfg, t)
    ensures var a := t.server.app; a != Server.Asking && a != Server.Granted && a != Server.Opened && a != Server.Stored
    ensures t.server.app == Server.WaitOffer ==> !t.server.rx.offerReady
  {
    hide Encode, BodyInv, HeaderInv, ClientInv, DecisionInv;
  }

  lemma ArmStaysSilent(cfg: Config, t: System)
    requires t.server.app == Server.Idle && t.base > 0
    ensures Dropped(cfg, t.(server := Server.OnArm(cfg.setup, t.server)))
  {
  }

  lemma ServerStaysSilent(cfg: Config, t: System, e: Server.Event)
    requires Proper(cfg) && Inv(cfg, t) && Silenced(cfg, t) && Enabled(cfg, t, AtServer(e))
    ensures var u := Next(cfg, t, AtServer(e)); Silenced(cfg, u) && (Unopened(cfg, t) ==> Unopened(cfg, u))
  {
    hide Encode, Next, Inv, At, Proper, R.Appended, Server.Next, Server.OnArm, Server.OnSendComplete,
      Server.OnPeerAbort, Server.Inv;
    if e.Fragment? {
      FragmentStaysSilent(cfg, t, e.data, e.live, e.faults);
      return;
    }
    TransferSteps.NextAtServer(cfg, t, e);
    IdleFacts(cfg, t);
    NotAsking(cfg, t);
    SilencedIsMute(cfg, t);
    InvParts(cfg, t);
    NamedSteps(cfg.setup, t.server);
    if e.SendComplete? {
      CompleteSame(t.server);
    } else if e.PeerAbort? {
      AbortSame(t.server);
    } else if e.Arm? {
      ArmStaysSilent(cfg, t);
    } else if e.DoneWake? || e.DoneTimeout? || e.DrainEnd? || e.OfferTimeout? || e.OfferWake? {
      WaitsGiveUp(cfg.setup, t.server, e);
    }
  }

  lemma NamedSteps(setup: R.Setup, n: Server.Node)
    ensures Server.Next(setup, n, Server.Arm) == Server.OnArm(setup, n)
    ensures Server.Next(setup, n, Server.SendComplete) == Server.OnSendComplete(n)
    ensures Server.Next(setup, n, Server.PeerAbort) == Server.OnPeerAbort(n)
  {
    hide Server.OnArm, Server.OnSendComplete, Server.OnPeerAbort;
  }

  lemma InvParts(cfg: Config, t: System)
    requires Inv(cfg, t)
    ensures Server.Inv(cfg.setup, t.server)
  {
  }

  lemma ClientStaysSilent(cfg: Config, t: System, e: S.Event)
    requires Silenced(cfg, t) && Enabled(cfg, t, AtClient(e))
    ensures var u := Next(cfg, t, AtClient(e)); Silenced(cfg, u) && (Unopened(cfg, t) ==> Unopened(cfg, u))
  {
    hide Encode, S.Next, S.Enabled, Server.Enabled, Server.Next, At, ReplyText;
  }

  lemma StaysSilent(cfg: Config, t: System, e: Event)
    requires Proper(cfg) && Inv(cfg, t) && Silenced(cfg, t) && Enabled(cfg, t, e)
    ensures var u := Next(cfg, t, e); Silenced(cfg, u) && (Unopened(cfg, t) ==> Unopened(cfg, u))
  {
    hide Proper, Inv, Silenced, Unopened, Enabled, Next;
    match e
    case AtServer(s) => ServerStaysSilent(cfg, t, s);
    case AtClient(c) => ClientStaysSilent(cfg, t, c);
  }

  // ---------------------------------------------------------------- whole runs

  /** In every run, in both modes and for headers of every length: once silenced always silenced. Whatever comes, no
      answer is given, the sender gets no decision and sends no body, and neither end reports success. */
  lemma {:induction false} SilencedForGood(cfg: Config, sys: System, es: seq<Event>, k: nat)
    requires Proper(cfg) && Init(sys) && Safety.Legal(cfg, sys, es) && k <= |es|
    ensures Safety.Legal(cfg, sys, es[..k])
    ensures Silenced(cfg, Safety.After(cfg, sys, es[..k])) ==>
              Silenced(cfg, Safety.After(cfg, sys, es)) && Mute(cfg, Safety.After(cfg, sys, es))
    ensures Unopened(cfg, Safety.After(cfg, sys, es[..k])) ==> Unopened(cfg, Safety.After(cfg, sys, es))
  {
    hide Enabled, Next, Proper, Init, Inv, Safety.Legal, Safety.After, Silenced, Unopened, Mute;
    Safety.RunsKeepInv(cfg, sys, es);
    if k == |es| {
      assert es[..k] == es;
    } else {
      var front := es[..|es| - 1];
      assert front[..k] == es[..k];
      Safety.LastEvent(cfg, sys, es);
      SilencedForGood(cfg, sys, front, k);
      Safety.RunsKeepInv(cfg, sys, front);
      if Silenced(cfg, Safety.After(cfg, sys, front)) {
        StaysSilent(cfg, Safety.After(cfg, sys, front), es[|es| - 1]);
      }
      UnopenedIsSilenced(cfg, Safety.After(cfg, sys, front));
    }
    UnopenedIsSilenced(cfg, Safety.After(cfg, sys, es[..k]));
    if Silenced(cfg, Safety.After(cfg, sys, es)) {
      SilencedIsMute(cfg, Safety.After(cfg, sys, es));
    }
  }

  lemma UnopenedIsSilenced(cfg: Config, t: System)
    ensures Unopened(cfg, t) ==> Silenced(cfg, t)
  {
  }
}
