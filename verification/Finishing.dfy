/** When an otherwise undisturbed run can still finish without timeouts: exactly if no byte came before receive_file was
    armed and, without a prompt, the output did not fail to open. */
module Finishing {
  import opened ByteStrings
  import opened HeaderCodec
  import opened HeaderTheorems
  import opened Transfer
  import opened Runs
  import opened Progress
  import opened Silence
  import TransferSteps
  import ProgressSteps
  import Completion
  import Safety
  import Agreement
  import S = Sender
  import R = Receiver
  import Server = ServerRuns

  // ---------------------------------------------------------------- the rule

  /** The same event with an output that opens. */
  function Opening(e: Event): Event {
    match e
    case AtServer(Fragment(data, live, faults)) => AtServer(Server.Fragment(data, live, faults.(openOk := true)))
    case _ => e
  }

  /** Something for the receiver, before receive_file is called. */
  predicate IsData(e: Event) { e.AtServer? && e.s.Fragment? && e.s.data != [] }

  predicate TriedStep(cfg: Config, sys: System, e: Event) {
    Good(cfg, sys, Opening(e)) || (IsData(e) && sys.server.app == Server.Idle)
  }

  /** Undisturbed, except that the output may fail to open and that data may come before receive_file is armed. */
  function TriedRule(cfg: Config): (System, Event) -> bool { (s: System, e: Event) => TriedStep(cfg, s, e) }

  predicate Tried(cfg: Config, sys: System, es: seq<Event>)
    requires Safety.Legal(cfg, sys, es)
  {
    Safety.AllSteps(cfg, TriedRule(cfg), sys, es)
  }

  /** Data came before the call of receive_file. */
  predicate DataBeforeArm(es: seq<Event>) {
    es != [] &&
    (var front, e := es[..|es| - 1], es[|es| - 1];
     DataBeforeArm(front) || (IsData(e) && AtServer(Server.Arm) !in front))
  }

  lemma OpeningEnabled(cfg: Config, t: System, e: Event)
    requires Enabled(cfg, t, e)
    ensures Enabled(cfg, t, Opening(e))
  {
    hide At, S.Enabled;
  }

  /** Whether the output opens only matters to the fragment that completes the header, without a prompt. */
  lemma OpeningMatters(setup: R.Setup, s: R.State, data: Bytes, faults: R.Faults)
    requires !s.accepted
    ensures var t := R.Appended(setup, s, data, faults);
            t == R.Appended(setup, s, data, faults.(openOk := true)) || (!setup.prompt && t.parsed && !t.accepted)
  {
    hide Decode, R.HeaderRefused, FileNames.JoinPath;
    if faults.openOk {
      assert faults.(openOk := true) == faults;
    } else {
      UnopenedAuto(s, data);
    }
  }

  lemma UnopenedAuto(s: R.State, data: Bytes)
    ensures s.parsed && !s.accepted ==> forall writeOk :: R.BodyAppended(s, data, writeOk) == s
  {
  }

  lemma OpeningNext(cfg: Config, t: System, e: Event)
    requires Inv(cfg, t) && Enabled(cfg, t, e)
    ensures Enabled(cfg, t, Opening(e))
    ensures Next(cfg, t, e) == Next(cfg, t, Opening(e)) || Unopened(cfg, Next(cfg, t, e))
  {
    hide Enabled, Next, Inv, R.Appended;
    OpeningEnabled(cfg, t, e);
    if e.AtServer? && e.s.Fragment? {
      var f := e.s;
      var other := Server.Fragment(f.data, f.live, f.faults.(openOk := true));
      TransferSteps.NextAtServer(cfg, t, f);
      TransferSteps.NextAtServer(cfg, t, other);
      FragmentIsOn(cfg, t, f.data, f.live, f.faults);
      FragmentIsOn(cfg, t, f.data, f.live, f.faults.(openOk := true));
      if f.live {
        LiveIsArmed(cfg, t);
        if t.server.rx.accepted {
          AcceptedAppends(cfg.setup, t.server.rx, f.data, f.faults);
        } else {
          OpeningMatters(cfg.setup, t.server.rx, f.data, f.faults);
        }
      }
    }
  }

  lemma LiveIsArmed(cfg: Config, t: System)
    requires Inv(cfg, t)
    ensures Live(t.server) ==> t.server.app != Server.Idle
    ensures t.server.app != Server.Idle && t.server.rx.accepted ==> t.server.rx.parsed
  {
    hide Encode, HeaderInv, BodyInv, DecisionInv, ClientInv;
  }

  lemma AcceptedAppends(setup: R.Setup, s: R.State, data: Bytes, faults: R.Faults)
    requires s.parsed
    ensures R.Appended(setup, s, data, faults) == R.Appended(setup, s, data, faults.(openOk := true))
  {
    hide R.BodyAppended;
  }

  // ---------------------------------------------------------------- what such runs come to

  lemma {:induction false} IdleIffUnarmed(cfg: Config, sys: System, es: seq<Event>)
    requires Init(sys) && Safety.Legal(cfg, sys, es)
    ensures Safety.After(cfg, sys, es).server.app == Server.Idle <==> AtServer(Server.Arm) !in es
  {
    hide Enabled, Next, Init, Safety.Legal, Safety.After;
    if es == [] {
      Safety.NoEvent(cfg, sys);
      StartsIdle(sys);
    } else {
      var front, e := es[..|es| - 1], es[|es| - 1];
      Safety.LastEvent(cfg, sys, es);
      IdleIffUnarmed(cfg, sys, front);
      OnlyArmLeavesIdle(cfg, Safety.After(cfg, sys, front), e);
      assert es == front + [e];
    }
  }

  lemma StartsIdle(sys: System)
    requires Init(sys)
    ensures sys.server.app == Server.Idle
  {
  }

  lemma OnlyArmLeavesIdle(cfg: Config, t: System, e: Event)
    requires Enabled(cfg, t, e)
    ensures Next(cfg, t, e).server.app == Server.Idle <==> t.server.app == Server.Idle && e != AtServer(Server.Arm)
  {
    hide S.Enabled, S.Next, At, Server.Next, Server.Enabled;
    if e.AtServer? {
      assert Server.Enabled(t.server, e.s);
      ServerLeavesIdle(cfg.setup, t.server, e.s);
    }
  }

  lemma ServerLeavesIdle(setup: R.Setup, n: Server.Node, e: Server.Event)
    requires Server.Enabled(n, e)
    ensures Server.Next(setup, n, e).app == Server.Idle <==> n.app == Server.Idle && e != Server.Arm
  {
    hide R.Appended, R.PeerFinished, R.SendCompleted, R.PeerAbortSeen, R.Armed, R.StreamStarted, R.Sent, R.OfferOpened,
      R.OfferDeclined, R.GivenUp, Server.Passes;
  }

  /** Data that comes too early is dropped, and the header with it. */
  lemma EarlyDataDropped(cfg: Config, t: System, e: Event)
    requires Inv(cfg, t) && Enabled(cfg, t, e) && IsData(e) && t.server.app == Server.Idle
    ensures Dropped(cfg, Next(cfg, t, e))
  {
    hide Encode, Next, Inv, At, R.Appended, Server.Next, Enabled;
    TransferSteps.NextAtServer(cfg, t, e.s);
    FragmentIsOn(cfg, t, e.s.data, e.s.live, e.s.faults);
    IdleFacts(cfg, t);
  }

  lemma {:induction false} EarlyIsSilenced(cfg: Config, sys: System, es: seq<Event>)
    requires Proper(cfg) && Init(sys) && Safety.Legal(cfg, sys, es) && DataBeforeArm(es)
    ensures Silenced(cfg, Safety.After(cfg, sys, es))
  {
    hide Enabled, Next, Init, Proper, Inv, Safety.Legal, Safety.After, Unopened, Dropped, Refused, Unsaid, IsData;
    var front, e := es[..|es| - 1], es[|es| - 1];
    Safety.LastEvent(cfg, sys, es);
    Safety.RunsKeepInv(cfg, sys, front);
    if DataBeforeArm(front) {
      EarlyIsSilenced(cfg, sys, front);
      StaysSilent(cfg, Safety.After(cfg, sys, front), e);
    } else {
      IdleIffUnarmed(cfg, sys, front);
      EarlyDataDropped(cfg, Safety.After(cfg, sys, front), e);
    }
  }

  /** Such a run has had data too early, or has failed to open the output, or is an undisturbed run. */
  lemma {:induction false} TriedRun(cfg: Config, sys: System, es: seq<Event>) returns (good: seq<Event>)
    requires Ready(cfg) && Init(sys) && Safety.Legal(cfg, sys, es) && Tried(cfg, sys, es) && !DataBeforeArm(es)
    ensures Unopened(cfg, Safety.After(cfg, sys, es)) ||
            (|good| == |es| && Safety.Legal(cfg, sys, good) && Completion.Undisturbed(cfg, sys, good)
             && Safety.After(cfg, sys, good) == Safety.After(cfg, sys, es))
  {
    hide Enabled, Next, Ready, Init, Inv, Safety.Legal, Safety.After, Unopened, Good, IsData;
    good := [];
    if es != [] {
      var front, e := es[..|es| - 1], es[|es| - 1];
      Safety.LastEvent(cfg, sys, es);
      Completion.ReadyIsProper(cfg);
      Safety.RunsKeepInv(cfg, sys, front);
      var t := Safety.After(cfg, sys, front);
      good := TriedRun(cfg, sys, front);
      if Unopened(cfg, t) {
        UnopenedIsSilenced(cfg, t);
        StaysSilent(cfg, t, e);
      } else {
        IdleIffUnarmed(cfg, sys, front);
        OpeningNext(cfg, t, e);
        Completion.Extended(cfg, sys, good, Opening(e));
        Safety.OneMore(cfg, sys, good, Opening(e));
        good := good + [Opening(e)];
      }
    }
  }

  /** While no decision has come, an untimed sender has not returned. */
  lemma {:induction false} TriedSender(cfg: Config, sys: System, es: seq<Event>)
    requires Ready(cfg) && Init(sys) && Safety.Legal(cfg, sys, es) && Tried(cfg, sys, es)
    ensures ClientGood(cfg, Safety.After(cfg, sys, es).client)
  {
    hide Enabled, Next, Ready, Init, Inv, Safety.Legal, Safety.After, Good, ClientGood;
    if es == [] {
      Safety.NoEvent(cfg, sys);
      GoodInit(cfg, sys);
    } else {
      var front, e := es[..|es| - 1], es[|es| - 1];
      Safety.LastEvent(cfg, sys, es);
      TriedSender(cfg, sys, front);
      Completion.ReadyIsProper(cfg);
      Safety.RunsKeepInv(cfg, sys, front);
      if e.AtClient? {
        assert e == AtClient(e.c) && Opening(e) == e;
        ProgressSteps.ClientStepKept(cfg, Safety.After(cfg, sys, front), e.c);
      } else {
        SameClient(cfg, Safety.After(cfg, sys, front), e.s);
      }
    }
  }

  lemma SameClient(cfg: Config, t: System, e: Server.Event)
    requires Enabled(cfg, t, AtServer(e))
    ensures Next(cfg, t, AtServer(e)).client == t.client
  {
    hide Server.Next, S.Next, At;
  }

  lemma MuteIsNotFinal(cfg: Config, t: System)
    requires Inv(cfg, t) && ClientGood(cfg, t.client) && Mute(cfg, t)
    ensures !Final(t)
  {
    hide Encode, HeaderInv, BodyInv, Server.Inv, DecisionInv, ReplyOrder;
  }

  /** An undisturbed run has opened its output. */
  lemma GoodIsOpened(cfg: Config, t: System)
    requires Inv(cfg, t) && GoodInv(cfg, t)
    ensures !Unopened(cfg, t)
  {
    hide Encode, ClientInv, DecisionInv, HeaderInv, BodyInv, ClientGood, ReplyText;
  }

  /** An undisturbed step, with an opening that cannot fail, is one of the rule, and brings no data early. */
  lemma GoodIsTried(cfg: Config, t: System, e: Event) returns (same: Event)
    requires Completion.Possible(cfg, t, e)
    ensures Completion.Possible(cfg, t, same) && TriedStep(cfg, t, same)
    ensures IsData(same) ==> t.server.app != Server.Idle
  {
    same := Opening(e);
    hide At, S.Enabled;
  }

  lemma {:induction false} OpenedCanFinish(cfg: Config, sys: System, es: seq<Event>) returns (whole: seq<Event>)
    requires Ready(cfg) && Init(sys) && Safety.Legal(cfg, sys, es) && Tried(cfg, sys, es)
    requires !Unopened(cfg, Safety.After(cfg, sys, es)) && !DataBeforeArm(es)
    ensures es <= whole && Safety.Legal(cfg, sys, whole) && Tried(cfg, sys, whole)
    ensures Final(Safety.After(cfg, sys, whole))
    decreases 5 * (|Enc(cfg)| + cfg.header.size) + 41 - |es|
  {
    hide Enabled, Next, Ready, Init, Inv, GoodInv, Work, Safety.Legal, Safety.After, Safety.AllSteps, Unopened, Good,
      Final, Encode, Completion.Undisturbed, TriedStep, IsData;
    var good := TriedRun(cfg, sys, es);
    Completion.RunsUseUpWork(cfg, sys, good);
    var t := Safety.After(cfg, sys, es);
    if Final(t) {
      whole := es;
    } else {
      var e := Completion.NeverStuck(cfg, t);
      e := GoodIsTried(cfg, t, e);
      Completion.Extended(cfg, sys, good, e);
      Completion.RunsAreBounded(cfg, sys, good + [e]);
      Completion.RunsUseUpWork(cfg, sys, good + [e]);
      Safety.OneMore(cfg, sys, good, e);
      Safety.OneMoreStep(cfg, TriedRule(cfg), sys, es, e);
      GoodIsOpened(cfg, Safety.After(cfg, sys, es + [e]));
      IdleIffUnarmed(cfg, sys, es);
      assert (es + [e])[..|es|] == es;
      whole := OpenedCanFinish(cfg, sys, es + [e]);
    }
  }

  /** In both modes, a run that is undisturbed but for early data and a failed opening can still finish without timeouts
      exactly when neither has happened. */
  lemma {:induction false} FinishesIffHeard(cfg: Config, sys: System, es: seq<Event>)
    requires Ready(cfg) && Init(sys) && Safety.Legal(cfg, sys, es) && Tried(cfg, sys, es)
    ensures (exists whole :: es <= whole && Safety.Legal(cfg, sys, whole) && Tried(cfg, sys, whole)
                             && Final(Safety.After(cfg, sys, whole)))
            <==> !DataBeforeArm(es) && !Unopened(cfg, Safety.After(cfg, sys, es))
  {
    hide Ready, Init, Inv, Safety.Legal, Safety.After, Tried, Unopened, Final, Mute, Silenced, DataBeforeArm;
    if !DataBeforeArm(es) && !Unopened(cfg, Safety.After(cfg, sys, es)) {
      var whole := OpenedCanFinish(cfg, sys, es);
    } else {
      Completion.ReadyIsProper(cfg);
      UnopenedIsSilenced(cfg, Safety.After(cfg, sys, es));
      if DataBeforeArm(es) {
        EarlyIsSilenced(cfg, sys, es);
      }
      forall whole | es <= whole && Safety.Legal(cfg, sys, whole) && Tried(cfg, sys, whole)
        ensures !Final(Safety.After(cfg, sys, whole))
      {
        assert whole[..|es|] == es;
        SilencedForGood(cfg, sys, whole, |es|);
        Safety.RunsKeepInv(cfg, sys, whole);
        TriedSender(cfg, sys, whole);
        MuteIsNotFinal(cfg, Safety.After(cfg, sys, whole));
      }
    }
  }

  // ---------------------------------------------------------------- both do happen

  /** Every transfer has a run in which the output fails to open, and then both ends wait with nothing under way. */
  lemma {:induction false} UnopenableStalls(cfg: Config, sys: System) returns (es: seq<Event>)
    requires Proper(cfg) && !cfg.setup.prompt && Init(sys)
    ensures Safety.Legal(cfg, sys, es) && Unopened(cfg, Safety.After(cfg, sys, es))
    ensures var t := Safety.After(cfg, sys, es);
            && Completion.SenderWaits(t.client) && Completion.ReceiverWaits(t.server)
            && Completion.NothingInTransit(t) && !Final(t)
  {
    hide Encode, Reaches, R.Appended;
    var t;
    es, t := Agreement.ArmedServer(cfg, sys, false);
    es, t := Agreement.Then(cfg, sys, es, t, AtClient(S.SendHeader(true)));
    assert [] + Enc(cfg) == Enc(cfg);
    UnopenableIsSilent(cfg, sys.server);
    es, t := Agreement.Then(cfg, sys, es, t, AtServer(Server.Fragment(Enc(cfg), true, R.Faults(false, true, true))));
    es := SenderStalls(cfg, sys, es, t);
  }

  /** A receiver that waits, has said nothing and will say nothing. */
  predicate Silent(n: Server.Node) {
    && n.started && n.completed == 0 && n.rx.replies == [] && !n.rx.done
    && (n.app == Server.WaitDone || (n.app == Server.WaitOffer && !n.rx.offerReady))
  }

  lemma SilentWaits(n: Server.Node)
    requires Silent(n)
    ensures Completion.ReceiverWaits(n) && !R.FinSent(n.rx) && ReplyText(n.rx.replies) == [] && !n.app.Returned?
  {
  }

  /** The sender completes its header and waits for a decision. */
  lemma SenderStalls(cfg: Config, sys: System, before: seq<Event>, s: System) returns (es: seq<Event>)
    requires Reaches(Safety.Steps(cfg), sys, before, s) && Silent(s.server)
    requires s.client == S.HeaderSent(S.READY, cfg.header, true) && s.up == |Enc(cfg)| && s.down == 0
    ensures Safety.Legal(cfg, sys, es)
    ensures var t := Safety.After(cfg, sys, es);
            && t.server == s.server && t.base == s.base
            && Completion.SenderWaits(t.client) && Completion.ReceiverWaits(t.server)
            && Completion.NothingInTransit(t) && !Final(t)
  {
    hide Encode, Silent;
    var t;
    es, t := Agreement.Then(cfg, sys, before, s, AtClient(S.SendComplete));
    es, t := Agreement.Then(cfg, sys, es, t, AtClient(S.SendWake));
    SilentWaits(t.server);
  }

  lemma UnopenableIsSilent(cfg: Config, n: Server.Node)
    requires Proper(cfg) && !cfg.setup.prompt && Server.Init(n)
    ensures var m := Server.OnArm(cfg.setup, Server.OnStreamStart(n));
            var rx := R.Appended(cfg.setup, m.rx, Enc(cfg), R.Faults(false, true, true));
            rx.replies == [] && !rx.done && rx.parsed && !rx.accepted
  {
    hide Encode, Decode, FileNames.JoinPath;
    EncodedEnds(cfg.header);
    assert [] + Enc(cfg) == Enc(cfg);
  }

  /** ... and one, with or without a prompt, in which the whole header comes before receive_file is called, which then
      waits as the sender does. */
  lemma {:induction false} EarlyHeaderStalls(cfg: Config, sys: System) returns (es: seq<Event>)
    requires Proper(cfg) && Init(sys)
    ensures Safety.Legal(cfg, sys, es) && Dropped(cfg, Safety.After(cfg, sys, es))
    ensures var t := Safety.After(cfg, sys, es);
            && Completion.SenderWaits(t.client) && Completion.ReceiverWaits(t.server)
            && Completion.NothingInTransit(t) && !Final(t)
  {
    hide Encode, Reaches, Silent, Server.OnStreamStart, Server.OnArm, Server.OnFragment;
    var t;
    EncodedEnds(cfg.header);
    EarlyServer(cfg.setup, sys.server, Enc(cfg));
    es, t := HeaderSentFirst(cfg, sys);
    es, t := Agreement.Then(cfg, sys, es, t, AtServer(Server.Fragment(Enc(cfg), false, R.NO_FAULTS)));
    es, t := Agreement.Then(cfg, sys, es, t, AtServer(Server.Arm));
    es := SenderStalls(cfg, sys, es, t);
  }

  lemma HeaderSentFirst(cfg: Config, sys: System) returns (es: seq<Event>, t: System)
    requires Init(sys)
    ensures Reaches(Safety.Steps(cfg), sys, es, t)
    ensures t == sys.(client := S.HeaderSent(S.READY, cfg.header, true), server := Server.OnStreamStart(sys.server))
    ensures t.client.wire == Enc(cfg)
  {
    hide Encode, Reaches, Server.OnStreamStart;
    es, t := [], sys;
    Nothing(Safety.Steps(cfg), sys);
    es, t := Agreement.Then(cfg, sys, es, t, AtServer(Server.StreamStart));
    es, t := Agreement.Then(cfg, sys, es, t, AtClient(S.SendHeader(true)));
    assert [] + Enc(cfg) == Enc(cfg);
  }

  /** The receiver's side of it. */
  lemma EarlyServer(setup: R.Setup, n: Server.Node, data: Bytes)
    requires Server.Init(n)
    ensures var a := Server.OnStreamStart(n); a.started && !a.finSeen && !a.rx.armed && a.app == Server.Idle
    ensures var b := Server.OnFragment(setup, Server.OnStreamStart(n), data, false, R.NO_FAULTS);
            && b.app == Server.Idle
            && Silent(Server.OnArm(setup, b)) && !Server.OnArm(setup, b).rx.parsed
            && (Server.OnArm(setup, b).app == Server.WaitOffer || !setup.prompt)
  {
    hide R.Appended;
  }
}
