/** Without timeouts and transport faults both ends finish: some step is always possible until they have, and every
    step uses up a finite amount of work. */
module Progress {
  import opened HeaderCodec
  import opened Transfer
  import S = Sender
  import R = Receiver
  import Server = ServerRuns

  /** A header that fits the receiver's buffer. */
  predicate Ready(cfg: Config) { Proper(cfg) && |Enc(cfg)| <= MAX_HEADER_BYTES + 1 }

  /** The steps of an undisturbed run: nothing times out, no send fails, the source can be read and does not shrink,
      and without a prompt the output can be opened. The user may decline, the output may fail to open after a
      prompt, writes may fail, and the file read back may be anything. Aborts come only from a sender that gave up. */
  predicate Good(cfg: Config, sys: System, e: Event) {
    match e
    case AtServer(s) => (
      match s
      case StreamStart => true
      case Fragment(data, live, faults) =>
        && data != [] && live == sys.server.rx.armed && sys.server.app != Server.Idle
        && faults.sendOk && (cfg.setup.prompt || faults.openOk)
      case PeerFin(readback, sendOk) => sendOk
      case SendComplete => sys.server.completed < |sys.server.rx.replies|
      case PeerAbort => sys.client.aborted && sys.server.aborts < 2
      case Arm => true
      case OfferWake => true
      case OfferTimeout => false
      case Answer(yes, sendOk) => sendOk
      case OpenOutput(openOk, sendOk) => sendOk
      case StoreAccepted => true
      case SendAccept(sendOk) => sendOk
      case DoneWake => true
      case DoneTimeout => false
      case DrainEnd => true)
    case AtClient(c) => (
      match c
      case SendHeader(sendOk) => sendOk
      case SendWake => true
      case SendTimeout => false
      case DecisionWake => true
      case DecisionTimeout => false
      case SendEmptyFin(sendOk) => sendOk
      case OpenSource(openOk) => openOk
      case ReadChunk(data, sendOk) => data != [] && sendOk
      case AckWake => true
      case AckTimeout => false
      case Receive(bytes) => bytes != []
      case PeerFin => true
      case SendComplete => true)
  }

  predicate Final(sys: System) { sys.client.phase.Ended? && sys.server.app.Returned? }

  // ---------------------------------------------------------------- work left

  function Flag(b: bool): nat { if b then 1 else 0 }

  function ClientRank(p: S.Phase): nat {
    match p
    case Start => 10
    case HeaderWait => 8
    case DecisionWait => 7
    case Accepted => 6
    case ChunkWait => 3
    case Body => 2
    case AckWait => 1
    case Ended(_) => 0
  }

  function ServerRank(a: Server.App): nat {
    match a
    case Idle => 8
    case WaitOffer => 7
    case Asking => 6
    case Granted => 5
    case Opened => 4
    case Stored => 3
    case WaitDone => 2
    case Draining(_) => 1
    case Returned(_) => 0
  }

  /** Bytes the sender has not handed over count five times, bytes in flight once. */
  function ClientWork(cfg: Config, c: S.State): int {
    5 * (if c.phase == S.Start then |Enc(cfg)| + cfg.header.size else cfg.header.size - c.sent)
    + ClientRank(c.phase) + c.inFlight + |c.wire| + Flag(c.fin)
  }

  /** An answer not yet given outweighs its bytes, its FIN and its completion. */
  function AnswerWork(replies: seq<R.Reply>): int {
    |ReplyText(replies)| - 9 * |replies| + Flag(replies != [] && R.WithFin(replies[|replies| - 1]))
  }

  function NodeWork(n: Server.Node): int {
    ServerRank(n.app) - n.completed - n.aborts + Flag(!n.started) - Flag(n.finSeen)
  }

  function Work(cfg: Config, sys: System): int {
    22 + ClientWork(cfg, sys.client) + NodeWork(sys.server) + AnswerWork(sys.server.rx.replies)
    - sys.up - sys.down - Flag(sys.downFin)
  }

  // ---------------------------------------------------------------- what undisturbed runs keep

  predicate ClientGood(cfg: Config, c: S.State) {
    && c.inFlight <= 1
    && (c.phase == S.HeaderWait || c.phase == S.ChunkWait ==> (c.sendDone <==> c.inFlight == 0))
    && (c.phase != S.HeaderWait && c.phase != S.ChunkWait && !c.phase.Ended? ==> c.inFlight == 0)
    && (c.phase != S.Start ==> Enc(cfg) <= c.wire)
    && (c.aborted ==> c.rejected)
    && (c.rejected ==> c.phase == S.Ended(false) && c.decisionReady && !c.decisionAccepted)
    && (c.phase == S.Ended(false) && !c.rejected ==> c.done && !c.ok && c.decisionReady && c.decisionAccepted)
    && c.sent <= cfg.header.size
  }

  predicate Prompting(a: Server.App) {
    a == Server.WaitOffer || a == Server.Asking || a == Server.Granted || a == Server.Opened || a == Server.Stored
  }

  predicate Serving(a: Server.App) { a != Server.Idle && !a.Returned? }

  predicate Leaving(a: Server.App) { a.Draining? || a.Returned? }

  predicate AnswersGood(n: Server.Node) {
    var r := n.rx.replies;
    && n.completed <= |r| && n.aborts <= 2
    && (Prompting(n.app) || n.app == Server.Idle ==> r == [] && !n.finSeen)
    && (Prompting(n.app) ==> !n.rx.done)
    && (Leaving(n.app) ==> |r| == 2 || r == [R.REJECT])
    && (n.finSeen ==> |r| == 2)
    && (n.app == Server.WaitDone && n.rx.done ==> |r| == 2)
    && (n.app == Server.WaitDone && |r| == 2 && n.completed == 2 ==> n.rx.done)
    && (|r| == 2 ==>
          && n.rx.finalAck && n.rx.result.success == (r[1] == R.OK) && (n.rx.done ==> n.rx.ok == n.rx.result.success)
          && (n.app.Draining? ==> n.app.success == n.rx.result.success)
          && (n.app.Returned? ==> n.app.success == n.rx.result.success))
    && (n.app != Server.Idle && |r| != 2 ==> !n.rx.finalAck)
    && (n.aborts > 0 ==> r == [R.REJECT])
  }

  predicate HeaderGood(cfg: Config, sys: System) {
    var n := sys.server;
    && (n.app == Server.Idle ==> sys.up == 0 && n.callback == Server.Outside)
    && (Serving(n.app) ==> sys.base == 0 && n.callback != Server.Inside(false))
    && (Serving(n.app) && !n.rx.parsed ==> sys.up < |Enc(cfg)| && !n.rx.ioError)
    && (n.app == Server.WaitOffer && n.rx.parsed ==> n.rx.offerReady)
    && (n.app == Server.WaitDone && (cfg.setup.prompt || n.rx.parsed) ==>
          n.rx.replies != [] && n.rx.replies[0] == R.ACCEPT)
  }

  predicate GoodInv(cfg: Config, sys: System) {
    && ClientGood(cfg, sys.client) && AnswersGood(sys.server) && HeaderGood(cfg, sys)
    && (sys.downFin ==> sys.client.done)
  }

  lemma GoodInit(cfg: Config, sys: System)
    requires Ready(cfg) && Init(sys)
    ensures GoodInv(cfg, sys)
  {
    hide Encode;
  }

  /** The work left is never negative. */
  lemma {:induction false} WorkNonNegative(cfg: Config, sys: System)
    requires Inv(cfg, sys) && GoodInv(cfg, sys)
    ensures Work(cfg, sys) >= 0
  {
    hide Encode, ReplyText, Server.Inv, S.HasNewline, S.SaysOk, BodyInv;
  }
}
