/** Sender and receiver together over one stream: every run of the combined system, in both modes, with every
    fragmentation, interleaving, timeout, abort and fault. */
module Transfer {
  import opened ByteStrings
  import opened Digests
  import opened HeaderCodec
  import opened HeaderTheorems
  import S = Sender
  import R = Receiver
  import Server = ServerRuns

  /** One transfer: the receiver's arguments, and the header send_file builds (its hash comes from sha256_file). */
  datatype Config = Config(setup: R.Setup, header: Header)

  predicate Proper(cfg: Config) { IsSha256Hex(cfg.header.sha256) }

  /** Both ends and the stream between them. What the sender has sent is client.wire and client.fin; what the
      receiver has answered is server.rx.replies. */
  datatype System = System(
    client: S.State,
    server: Server.Node,
    up: nat,        // bytes delivered to the receiver
    down: nat,      // bytes delivered to the sender
    downFin: bool,  // the reply stream's FIN has been delivered
    base: nat)      // history: where in the stream the bytes begin that receive_file was armed for

  datatype Event = AtClient(c: S.Event) | AtServer(s: Server.Event)

  function ReplyText(replies: seq<R.Reply>): Bytes {
    if replies == [] then [] else ReplyText(replies[..|replies| - 1]) + R.Text(replies[|replies| - 1])
  }

  function Wire(sys: System): Bytes { sys.client.wire }

  function Answers(sys: System): Bytes { ReplyText(sys.server.rx.replies) }

  /** Each direction is a reliable ordered byte stream (RFC 9000, section 2.2): what is delivered is what was sent,
      in order, cut anywhere, and the FIN comes last. Abort events may come at any time, for any reason, and need
      not stop anything. */
  predicate Enabled(cfg: Config, sys: System, e: Event) {
    match e
    case AtServer(s) =>
      && Server.Enabled(sys.server, s)
      && (s.Fragment? ==> At(Wire(sys), sys.up, s.data))
      && (s.PeerFin? ==> sys.client.fin && sys.up == |Wire(sys)|)
    case AtClient(c) =>
      && S.Enabled(sys.client, cfg.header.size, c)
      && (c.Receive? ==> !sys.downFin && At(Answers(sys), sys.down, c.bytes))
      && (c.PeerFin? ==> !sys.downFin && R.FinSent(sys.server.rx) && sys.down == |Answers(sys)|)
  }

  function Next(cfg: Config, sys: System, e: Event): System
    requires Enabled(cfg, sys, e)
  {
    match e
    case AtServer(s) =>
      var node := Server.Next(cfg.setup, sys.server, s);
      if s.Fragment? then
        var up := sys.up + |s.data|;
        sys.(server := node, up := up, base := if s.live then sys.base else up)
      else sys.(server := node)
    case AtClient(c) =>
      sys.(client := S.Next(sys.client, cfg.header, c),
           down := if c.Receive? then sys.down + |c.bytes| else sys.down,
           downFin := sys.downFin || c.PeerFin?)
  }

  predicate Init(sys: System) {
    && sys.client == S.READY && Server.Init(sys.server)
    && sys.up == 0 && sys.down == 0 && !sys.downFin && sys.base == 0
  }

  // ---------------------------------------------------------------- invariant

  function Enc(cfg: Config): Bytes { Encode(cfg.header) }

  predicate Sending(p: S.Phase) { p == S.Accepted || p == S.Body || p == S.ChunkWait || p == S.AckWait }

  /** What the sender has put on the wire, by phase: the header, then body bytes only after ACCEPT. */
  predicate ClientInv(cfg: Config, c: S.State) {
    var enc, size := Enc(cfg), cfg.header.size;
    && (c.wire == [] || enc <= c.wire)
    && |c.wire| <= |enc| + size
    && (c.fin ==> |c.wire| == |enc| + size)
    && (c.phase == S.Start ==> c.wire == [] && c.sent == 0 && !c.fin)
    && (c.phase != S.Start && !c.phase.Ended? ==> enc <= c.wire && |c.wire| == |enc| + c.sent)
    && (c.phase == S.HeaderWait || c.phase == S.DecisionWait || c.phase == S.Accepted ==> c.sent == 0 && !c.fin)
    && (c.phase == S.Body ==> c.sent < size && !c.fin)
    && (c.phase == S.ChunkWait ==> c.sent <= size && (c.fin <==> c.sent == size))
    && (c.phase == S.AckWait ==> c.sent == size && c.fin)
    && (|c.wire| > |enc| || c.fin || Sending(c.phase) ==> c.decisionReady && c.decisionAccepted)
    && (c.phase == S.Ended(true) ==> c.ok && c.done && c.fin)
    && (c.decisionReady <==> !c.awaiting)
    && (c.rejected ==> c.decisionReady && !c.decisionAccepted)
  }

  /** What the sender has made of the answers: the decision is the first of them, the acknowledgement the rest. */
  predicate DecisionInv(c: S.State, replies: seq<R.Reply>, down: nat, downFin: bool) {
    var text := ReplyText(replies);
    && down <= |text|
    && (c.awaiting ==> c.decisionBuf == text[..down] && !S.HasNewline(c.decisionBuf) && c.ack == [] && !downFin)
    && (!c.awaiting ==>
          && replies != [] && (replies[0] == R.ACCEPT || replies[0] == R.REJECT)
          && c.decisionBuf == R.Text(replies[0]) && c.decisionAccepted == (replies[0] == R.ACCEPT)
          && |c.decisionBuf| <= down && c.ack == text[|c.decisionBuf|..down])
    && (downFin ==> replies != [] && R.WithFin(replies[|replies| - 1]) && down == |text|)
    && (c.done ==> downFin && c.ok == S.SaysOk(c.ack))
    && (c.ok ==> c.done)
  }

  /** Verdicts come after the FIN, and the FIN after the whole body: the first answer is the decision. */
  predicate ReplyOrder(sys: System) {
    var replies := sys.server.rx.replies;
    && |replies| <= 2
    && (replies != [] ==> replies[0] == R.ACCEPT || replies[0] == R.REJECT)
    && (|replies| == 2 ==> replies[0] == R.ACCEPT && (replies[1] == R.OK || replies[1] == R.FAIL))
    && (sys.server.finSeen ==> sys.client.fin && sys.up == |Wire(sys)|)
  }

  /** Fragments may still be processed. */
  predicate Live(n: Server.Node) { n.rx.armed || n.callback == Server.Inside(true) }

  /** What the receiver holds of the header. */
  predicate HeaderInv(cfg: Config, sys: System) {
    var n, w, enc := sys.server, Wire(sys), Enc(cfg);
    && sys.base <= sys.up <= |w|
    && (n.app == Server.Idle ==> sys.base == sys.up)
    && (!n.started ==> sys.up == 0)
    && (n.app != Server.Idle && Live(n) && !n.rx.parsed ==> n.rx.buffer == w[sys.base..sys.up])
    && (n.app != Server.Idle && n.rx.armed && n.callback == Server.Inside(false) ==> !n.rx.parsed && n.rx.buffer == [])
    && (n.app != Server.Idle && (n.rx.accepted || n.rx.offerReady) ==>
          sys.up >= |enc| && enc <= w && n.rx.header == OnWire(cfg.header))
  }

  /** What the receiver holds of the body: always a prefix, and all that was delivered while nothing went wrong. */
  predicate BodyInv(cfg: Config, sys: System) {
    var n, w, enc := sys.server, Wire(sys), Enc(cfg);
    n.app != Server.Idle ==>
      && !n.rx.overflow
      && (n.rx.accepted && !n.rx.out.NoFile? ==> |enc| <= |w| && n.rx.out.bytes <= w[|enc|..])
      && (n.rx.accepted && n.rx.out.Open? && !n.rx.ioError && Live(n) ==>
            |enc| <= sys.up <= |w| && n.rx.out.bytes == w[|enc|..sys.up])
      && (!n.rx.accepted && !n.rx.out.NoFile? ==> n.rx.out.bytes == [])
  }

  predicate Inv(cfg: Config, sys: System) {
    && Server.Inv(cfg.setup, sys.server)
    && ClientInv(cfg, sys.client)
    && DecisionInv(sys.client, sys.server.rx.replies, sys.down, sys.downFin)
    && ReplyOrder(sys)
    && HeaderInv(cfg, sys)
    && BodyInv(cfg, sys)
  }

  lemma InvInit(cfg: Config, sys: System)
    requires Init(sys)
    ensures Inv(cfg, sys)
  {
    Server.InvInit(cfg.setup, sys.server);
  }
}
