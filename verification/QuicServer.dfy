/** The receiving object itself: its fields (include/transfer/quic_server.h:114-146) and the methods that update them
    in place (src/transfer/quic_server.cpp), each proved equal to a function of Receiver. */
module QuicServers {
  import opened ByteStrings
  import opened FileNames
  import opened HeaderCodec
  import opened Receiver
  import opened Runs
  import R = Receiver
  import Server = ServerRuns

  /** One buffer of a RECEIVE event, and what the environment does while it is handled. */
  datatype Buffer = Buffer(data: Bytes, faults: Faults)

  /** The first n buffers of a RECEIVE event, one after the other. */
  function Arrived(setup: Setup, s: State, buffers: seq<Buffer>, n: nat): State
    requires n <= |buffers|
  {
    if n == 0 then s
    else Appended(setup, Arrived(setup, s, buffers, n - 1), buffers[n - 1].data, buffers[n - 1].faults)
  }

  class QuicServer {
    var setup: Setup                       // file_offer_, file_output_is_dir_, file_output_dir_; and the digest
    var receivingFile: bool
    var streamReceiveBuffer: Bytes
    var fileDone: bool
    var fileOk: bool
    var offerReady: bool
    var fileAccepted: bool
    var sendingFinalAck: bool
    var fileStream: seq<Reply>             // what StreamSend has taken on file_stream_
    var fileOutputPath: Bytes
    var fileHeader: Header
    var fileHeaderParsed: bool
    var fileIoError: bool
    var fileOverflow: bool
    var fileBytesWritten: u64
    var fileOut: Output
    var fileResult: Result

    ghost function State(): State
      reads this
    {
      R.State(receivingFile, streamReceiveBuffer, fileHeaderParsed, fileHeader, fileOutputPath, offerReady,
              fileAccepted, fileIoError, fileOverflow, fileBytesWritten, fileOut, sendingFinalAck, fileDone, fileOk,
              fileResult, fileStream)
    }

    constructor (hash: Bytes -> Bytes)
      ensures !receivingFile && fileStream == []
    {
      setup := Setup(false, None, [], hash);
      receivingFile, streamReceiveBuffer, fileDone, fileOk, offerReady := false, [], false, false, false;
      fileAccepted, sendingFinalAck, fileStream, fileOutputPath := false, false, [], [];
      fileHeader, fileHeaderParsed, fileIoError := Header([], 0, []), false, false;
      fileOverflow, fileBytesWritten, fileOut, fileResult := false, 0, NoFile, NO_RESULT;
    }

    method NotifyFileWaiter(success: bool)
      modifies this
      ensures State() == Notified(old(State()), success) && setup == old(setup)
    {
      fileDone := true;
      fileOk := success;
      fileResult := fileResult.(success := success);
    }

    /** stream_send_copy on file_stream_ */
    method StreamSendCopy(reply: Reply, sendOk: bool) returns (taken: bool)
      modifies this
      ensures State() == Sent(old(State()), reply, sendOk) && setup == old(setup)
      ensures taken == (sendOk && !FinSent(old(State())))
    {
      taken := sendOk && !(fileStream != [] && WithFin(fileStream[|fileStream| - 1]));
      if taken {
        fileStream := fileStream + [reply];
      }
    }

    method OpenOutputFile(openOk: bool) returns (ok: bool)
      modifies this
      ensures State() == OutputOpened(old(State()), openOk) && setup == old(setup)
      ensures ok == openOk
    {
      fileOut := if openOk then Open([]) else NoFile;
      if fileOut.NoFile? {
        fileIoError := true;
        fileResult := fileResult.(error := OpenFailed);
        return false;
      }
      return true;
    }

    method CloseOutput()
      modifies this
      ensures State() == old(State()).(out := Shut(old(fileOut))) && setup == old(setup)
    {
      if fileOut.Open? {
        fileOut := Closed(fileOut.bytes);
      }
    }

    method AppendFileBytes(data: Bytes, faults: Faults)
      modifies this
      ensures State() == Appended(old(setup), old(State()), data, faults)
      ensures setup == old(setup)
      decreases if fileHeaderParsed then 0 else 3
    {
      if !fileHeaderParsed {
        streamReceiveBuffer := streamReceiveBuffer + data;
        TryParseFileHeader(faults);
        return;
      }
      if !fileAccepted {
        return;
      }
      if fileIoError || !fileOut.Open? {
        return;
      }
      if data == [] {
        return;
      }
      WriteBody(data, faults.writeOk);
    }

    /** Never more than the declared size; the rest sets the overflow flag. */
    method WriteBody(data: Bytes, writeOk: bool)
      requires fileAccepted && !fileIoError && fileOut.Open? && data != []
      modifies this
      ensures State() == BodyAppended(old(State()), data, writeOk) && setup == old(setup)
    {
      var remaining := Minus64(fileHeader.size, fileBytesWritten);
      var toWrite: nat := |data|;
      if toWrite > remaining {
        toWrite := remaining;
        fileOverflow := true;
      }
      if toWrite > 0 {
        PutBytes(data[..toWrite], writeOk);
      }
    }

    method PutBytes(data: Bytes, writeOk: bool)
      requires fileOut.Open? && |data| < TWO_POW_64
      modifies this
      ensures var s := old(State());
              State() == if writeOk then s.(out := Open(s.out.bytes + data), written := Plus64(s.written, |data|))
                         else s.(ioError := true, result := s.result.(error := WriteFailed))
      ensures setup == old(setup)
    {
      if !writeOk {
        fileIoError := true;
        fileResult := fileResult.(error := WriteFailed);
        return;
      }
      fileOut := Open(fileOut.bytes + data);
      fileBytesWritten := Plus64(fileBytesWritten, |data|);
    }

    /** The buffer cap was passed without a header. */
    method RefuseHeader()
      modifies this
      ensures State() == HeaderRefused(old(State())) && setup == old(setup)
    {
      fileIoError := true;
      fileResult := fileResult.(error := BadHeader);
      StopBuffering();
      NotifyFileWaiter(false);
    }

    method StopBuffering()
      modifies this
      ensures State() == old(State()).(parsed := true, buffer := []) && setup == old(setup)
    {
      fileHeaderParsed := true;
      streamReceiveBuffer := [];
    }

    method StoreHeader(header: Header)
      modifies this
      ensures State() == HeaderStored(setup, old(State()), header) && setup == old(setup)
    {
      fileHeader := header;
      fileHeaderParsed := true;
      streamReceiveBuffer := [];
      if setup.dir.Some? {
        fileOutputPath := JoinPath(setup.dir.value, fileHeader.name);
      }
    }

    method AutoAccept(body: Bytes, faults: Faults)
      requires fileHeaderParsed
      modifies this
      ensures State() == AutoAccepted(old(State()), body, faults) && setup == old(setup)
      decreases 1
    {
      hide BodyAppended;
      var isOpen := OpenOutputFile(faults.openOk);
      if !isOpen {
        return;
      }
      fileAccepted := true;
      var _ := StreamSendCopy(ACCEPT, faults.sendOk);
      NothingAppended(State(), faults.writeOk);
      if body != [] {
        AppendFileBytes(body, faults);
      }
    }

    /** Whatever came with the header is taken out of the buffer before the buffer is cleared. */
    method TryParseFileHeader(faults: Faults)
      modifies this
      ensures State() == if old(fileHeaderParsed) then old(State()) else HeaderTried(old(setup), old(State()), faults)
      ensures setup == old(setup)
      decreases if fileHeaderParsed then 0 else 2
    {
      hide Decode, HeaderRefused, HeaderStored, AutoAccepted;
      if fileHeaderParsed {
        return;
      }
      var decoded, header, headerBytes := DecodeFileHeader(streamReceiveBuffer);
      if !decoded {
        if |streamReceiveBuffer| > MAX_HEADER_BYTES {
          RefuseHeader();
        }
        return;
      }
      var body := Rest(streamReceiveBuffer, headerBytes);
      StoreHeader(header);
      StoredIsParsed(old(setup), old(State()), header);
      if setup.prompt {
        offerReady := true;
        return;
      }
      AutoAccept(body, faults);
    }

    method Judge(readback: Option<Bytes>) returns (verifyOk: bool, result: Result)
      ensures verifyOk == (Verdict(setup, State(), readback) == Fine) && result == Judged(setup, State(), readback)
    {
      result := fileResult.(bytesReceived := fileBytesWritten, expectedHash := fileHeader.sha256);
      verifyOk := false;
      if fileIoError {
        if result.error == Fine {
          result := result.(error := IoFailed);
        }
      } else if !fileHeaderParsed || fileOut.NoFile? {
        result := result.(error := HeaderMissing);
      } else if fileOverflow {
        result := result.(error := Overflowed);
      } else if fileBytesWritten != fileHeader.size {
        result := result.(error := SizeMismatch);
      } else if readback.None? {
        result := result.(error := Unhashable);
      } else {
        result := result.(computedHash := setup.hash(readback.value));
        if result.computedHash != fileHeader.sha256 {
          result := result.(error := HashMismatch);
        } else {
          verifyOk := true;
        }
      }
      result := result.(success := verifyOk);
    }

    method SendFileAck(verifyOk: bool, sendOk: bool)
      modifies this
      ensures State() == Answered(old(State()), verifyOk, sendOk) && setup == old(setup)
    {
      sendingFinalAck := true;
      var sent := StreamSendCopy(if verifyOk then OK else FAIL, sendOk);
      if !sent {
        sendingFinalAck := false;
        NotifyFileWaiter(false);
      }
    }

    method FinishFileReceive(readback: Option<Bytes>, sendOk: bool)
      modifies this
      ensures State() == Finished(old(setup), old(State()), readback, sendOk) && setup == old(setup)
    {
      hide Judged, Verdict, Answered;
      CloseOutput();
      JudgedWhenShut(setup, old(State()), readback);
      var verifyOk, result := Judge(readback);
      fileResult := result;
      SendFileAck(verifyOk, sendOk);
    }

    // -------------------------------------------------------------- on_stream_event, PEER_STREAM_STARTED

    method OnPeerStreamStarted()
      modifies this
      ensures State() == StreamStarted(old(State())) && setup == old(setup)
    {
      ForgetHeader();
      ForgetOutput();
      fileStream := [];
      fileAccepted := false;
      sendingFinalAck := false;
    }

    method ForgetHeader()
      modifies this
      ensures State() == old(State()).(buffer := [], parsed := false, ioError := false) && setup == old(setup)
    {
      streamReceiveBuffer := [];
      fileHeaderParsed := false;
      fileIoError := false;
    }

    method ForgetOutput()
      modifies this
      ensures State() == old(State()).(overflow := false, written := 0, out := NoFile) && setup == old(setup)
    {
      fileOverflow := false;
      fileBytesWritten := 0;
      fileOut := NoFile;
    }

    method OnReceive(buffers: seq<Buffer>)
      modifies this
      ensures State() == if old(receivingFile) then Arrived(old(setup), old(State()), buffers, |buffers|)
                         else old(State())
      ensures setup == old(setup)
    {
      hide Appended;
      if receivingFile {
        for i := 0 to |buffers|
          invariant State() == Arrived(old(setup), old(State()), buffers, i)
          invariant setup == old(setup)
        {
          AppendFileBytes(buffers[i].data, buffers[i].faults);
        }
      }
    }

    method OnPeerSendShutdown(readback: Option<Bytes>, sendOk: bool)
      modifies this
      ensures State() == PeerFinished(old(setup), old(State()), readback, sendOk)
      ensures setup == old(setup)
    {
      hide Finished;
      if receivingFile {
        if fileAccepted || fileIoError {
          FinishFileReceive(readback, sendOk);
        }
      }
    }

    method OnSendComplete()
      modifies this
      ensures State() == SendCompleted(old(State())) && setup == old(setup)
    {
      if receivingFile && sendingFinalAck {
        NotifyFileWaiter(fileResult.success);
      }
    }

    method OnPeerAborted()
      modifies this
      ensures State() == PeerAbortSeen(old(State())) && setup == old(setup)
    {
      if receivingFile {
        CloseOutput();
        if fileResult.error == Fine {
          fileResult := fileResult.(error := PeerAborted);
        }
        NotifyFileWaiter(false);
      }
    }

    // -------------------------------------------------------------- receive_file

    /** The arguments of receive_file go into setup. */
    method Arm(prompt: bool, dir: Option<Bytes>, file: Bytes)
      modifies this
      ensures setup == Setup(prompt, dir, file, old(setup.hash)) && State() == Armed(setup, old(State()))
    {
      setup := Setup(prompt, dir, file, setup.hash);
      ForgetHeader();
      ForgetOutput();
      ForgetDecision();
      ForgetOutcome();
      receivingFile := true;
      fileOutputPath := if dir.Some? then [] else file;
    }

    method ForgetDecision()
      modifies this
      ensures State() == old(State()).(offerReady := false, accepted := false, finalAck := false)
      ensures setup == old(setup)
    {
      offerReady := false;
      fileAccepted := false;
      sendingFinalAck := false;
    }

    method ForgetOutcome()
      modifies this
      ensures State() == old(State()).(done := false, ok := false, result := NO_RESULT) && setup == old(setup)
    {
      fileDone := false;
      fileOk := false;
      fileResult := NO_RESULT;
    }

    method Decline(sendOk: bool)
      modifies this
      ensures State() == OfferDeclined(old(State()), sendOk) && setup == old(setup)
    {
      var _ := StreamSendCopy(REJECT, sendOk);
      fileResult := fileResult.(rejected := true, error := Declined);
    }

    method OpenOffered(openOk: bool, sendOk: bool) returns (ok: bool)
      modifies this
      ensures State() == OfferOpened(old(State()), openOk, sendOk) && ok == openOk && setup == old(setup)
    {
      hide OutputOpened, Sent;
      ok := OpenOutputFile(openOk);
      if !ok {
        var _ := StreamSendCopy(REJECT, sendOk);
      }
    }

    method StoreAccepted()
      modifies this
      ensures State() == OfferGranted(old(State())) && setup == old(setup)
    {
      fileAccepted := true;
    }

    method Disarm()
      modifies this
      ensures State() == Disarmed(old(State())) && setup == old(setup)
    {
      receivingFile := false;
    }

    method GiveUp()
      modifies this
      ensures State() == GivenUp(old(State())) && setup == old(setup)
    {
      CloseOutput();
      receivingFile := false;
    }

    // -------------------------------------------------------------- receive_file among the callbacks

    /** What stream_callback does with one event; `n` is the node of ServerRuns that the object is at. */
    method OnCallback(c: Callback, ghost n: Server.Node) returns (ghost es: seq<Server.Event>, ghost m: Server.Node)
      requires n.rx == State() && CanCome(c, n.started, n.finSeen)
      modifies this
      ensures setup == old(setup) && m.rx == State() && Reaches(Server.Steps(setup), n, es, m)
      ensures m.app == n.app && m.started == Begun(c, n.started) && m.finSeen == Over(c, n.finSeen)
    {
      hide Appended, PeerFinished, SendCompleted, PeerAbortSeen, StreamStarted;
      match c
      case Started =>
        OnPeerStreamStarted();
        es, m := [Server.StreamStart], Server.OnStreamStart(n);
        OneStep(Server.Steps(setup), n, Server.StreamStart);
      case Receive(buffers) =>
        OnReceive(buffers);
        es, m := Fragments(buffers, n.rx.armed, |buffers|), Taken(setup, n, buffers, |buffers|);
        FragmentsReach(setup, n, buffers, |buffers|);
      case SendShutdown(readback, sendOk) =>
        OnPeerSendShutdown(readback, sendOk);
        es, m := [Server.PeerFin(readback, sendOk)], Server.OnPeerFin(setup, n, readback, sendOk);
        OneStep(Server.Steps(setup), n, Server.PeerFin(readback, sendOk));
      case Completed =>
        OnSendComplete();
        es, m := [Server.SendComplete], Server.OnSendComplete(n);
        OneStep(Server.Steps(setup), n, Server.SendComplete);
      case Aborted =>
        OnPeerAborted();
        es, m := [Server.PeerAbort], Server.OnPeerAbort(n);
        OneStep(Server.Steps(setup), n, Server.PeerAbort);
    }

    /** The callbacks that come while receive_file is elsewhere. */
    method Meanwhile(cs: seq<Callback>, ghost n: Server.Node)
      returns (ghost es: seq<Server.Event>, ghost m: Server.Node)
      requires n.rx == State() && InOrder(cs, 0, n.started, n.finSeen)
      modifies this
      ensures setup == old(setup) && m.rx == State() && Reaches(Server.Steps(setup), n, es, m) && m.app == n.app
      ensures (m.started, m.finSeen) == AfterAll(cs, 0, n.started, n.finSeen)
    {
      es, m := [], n;
      for i := 0 to |cs|
        invariant setup == old(setup) && m.rx == State() && Reaches(Server.Steps(setup), n, es, m) && m.app == n.app
        invariant InOrder(cs, i, m.started, m.finSeen)
        invariant AfterAll(cs, i, m.started, m.finSeen) == AfterAll(cs, 0, n.started, n.finSeen)
      {
        ghost var more, next := OnCallback(cs[i], m);
        Joined(Server.Steps(setup), n, es, m, more, next);
        es, m := es + more, next;
      }
    }

    /** drain_connection, then disarm. */
    method Drain(cs: seq<Callback>, ghost n: Server.Node) returns (ghost es: seq<Server.Event>, ghost m: Server.Node)
      requires n.rx == State() && n.app.Draining? && InOrder(cs, 0, n.started, n.finSeen)
      modifies this
      ensures setup == old(setup) && m.rx == State() && Reaches(Server.Steps(setup), n, es, m)
      ensures m.app == Server.Returned(n.app.success)
    {
      hide Reaches, InOrder, AfterAll, Disarmed;
      es, m := Meanwhile(cs, n);
      Disarm();
      Stepped(Server.Steps(setup), n, es, m, Server.DrainEnd);
      es, m := es + [Server.DrainEnd], Server.OnDrainEnd(m);
    }

    /** The wait for a header to prompt for. */
    method AwaitOffer(cs: seq<Callback>, ghost n: Server.Node)
      returns (got: bool, ghost es: seq<Server.Event>, ghost m: Server.Node)
      requires n.rx == State() && n.app == Server.WaitOffer && InOrder(cs, 0, n.started, n.finSeen)
      modifies this
      ensures setup == old(setup) && m.rx == State() && Reaches(Server.Steps(setup), n, es, m)
      ensures m.app == if got then Server.Asking else Server.Returned(false)
      ensures (m.started, m.finSeen) == AfterAll(cs, 0, n.started, n.finSeen)
    {
      hide Reaches, InOrder, AfterAll, Disarmed, Server.Next;
      es, m := Meanwhile(cs, n);
      got := offerReady && !fileDone;
      ghost var e, next := OfferOver(setup, m);
      Stepped(Server.Steps(setup), n, es, m, e);
      es, m := es + [e], next;
      if !got {
        Disarm();
      }
    }

    /** The user said yes: open the output, accept, say so. The three steps can interleave with callbacks. */
    method Grant(during: seq<seq<Callback>>, k: nat, openOk: bool, sendOk: bool, ghost n: Server.Node)
      returns (ok: bool, ghost es: seq<Server.Event>, ghost m: Server.Node)
      requires n.rx == State() && n.app == Server.Granted && k + 3 <= |during|
      requires AllInOrder(during, k, n.started, n.finSeen)
      modifies this
      ensures setup == old(setup) && m.rx == State() && Reaches(Server.Steps(setup), n, es, m)
      ensures m.app == if ok then Server.WaitDone else Server.Returned(false)
      ensures ok ==> AllInOrder(during, k + 3, m.started, m.finSeen)
    {
      hide Reaches, InOrder, AfterAll, AllInOrder, OfferOpened, Sent;
      Peeled(during, k, n.started, n.finSeen);
      es, m := Meanwhile(during[k], n);
      ok := OpenOffered(openOk, sendOk);
      ghost var e := Server.OpenOutput(openOk, sendOk);
      Stepped(Server.Steps(setup), n, es, m, e);
      es, m := es + [e], Server.OnOpenOutput(m, openOk, sendOk);
      ghost var more, next;
      if !ok {
        Peeled(during, k + 1, m.started, m.finSeen);
        more, next := Drain(during[k + 1], m);
      } else {
        more, next := Announce(during, k + 1, sendOk, m);
      }
      Joined(Server.Steps(setup), n, es, m, more, next);
      es, m := es + more, next;
    }

    /** file_accepted_.store(true), then ACCEPT. */
    method Announce(during: seq<seq<Callback>>, k: nat, sendOk: bool, ghost n: Server.Node)
      returns (ghost es: seq<Server.Event>, ghost m: Server.Node)
      requires n.rx == State() && n.app == Server.Opened && k + 2 <= |during|
      requires AllInOrder(during, k, n.started, n.finSeen)
      modifies this
      ensures setup == old(setup) && m.rx == State() && Reaches(Server.Steps(setup), n, es, m)
      ensures m.app == Server.WaitDone
      ensures AllInOrder(during, k + 2, m.started, m.finSeen)
    {
      hide Reaches, InOrder, AfterAll, AllInOrder;
      Peeled(during, k, n.started, n.finSeen);
      es, m := Accept(during[k], n);
      Peeled(during, k + 1, m.started, m.finSeen);
      ghost var more, next := SayAccept(during[k + 1], sendOk, m);
      Joined(Server.Steps(setup), n, es, m, more, next);
      es, m := es + more, next;
    }

    method Accept(cs: seq<Callback>, ghost n: Server.Node) returns (ghost es: seq<Server.Event>, ghost m: Server.Node)
      requires n.rx == State() && n.app == Server.Opened && InOrder(cs, 0, n.started, n.finSeen)
      modifies this
      ensures setup == old(setup) && m.rx == State() && Reaches(Server.Steps(setup), n, es, m) && m.app == Server.Stored
      ensures (m.started, m.finSeen) == AfterAll(cs, 0, n.started, n.finSeen)
    {
      hide Reaches, InOrder, AfterAll, OfferGranted;
      es, m := Meanwhile(cs, n);
      StoreAccepted();
      Stepped(Server.Steps(setup), n, es, m, Server.StoreAccepted);
      es, m := es + [Server.StoreAccepted], Server.OnStoreAccepted(m);
    }

    method SayAccept(cs: seq<Callback>, sendOk: bool, ghost n: Server.Node)
      returns (ghost es: seq<Server.Event>, ghost m: Server.Node)
      requires n.rx == State() && n.app == Server.Stored && InOrder(cs, 0, n.started, n.finSeen)
      modifies this
      ensures setup == old(setup) && m.rx == State() && Reaches(Server.Steps(setup), n, es, m)
      ensures m.app == Server.WaitDone
      ensures (m.started, m.finSeen) == AfterAll(cs, 0, n.started, n.finSeen)
    {
      hide Reaches, InOrder, AfterAll, Sent;
      es, m := Meanwhile(cs, n);
      var _ := StreamSendCopy(ACCEPT, sendOk);
      Stepped(Server.Steps(setup), n, es, m, Server.SendAccept(sendOk));
      es, m := es + [Server.SendAccept(sendOk)], Server.OnSendAccept(m, sendOk);
    }

    /** The wait for the verdict. */
    method AwaitVerdict(during: seq<seq<Callback>>, k: nat, ghost n: Server.Node)
      returns (ok: bool, ghost es: seq<Server.Event>, ghost m: Server.Node)
      requires n.rx == State() && n.app == Server.WaitDone && k + 2 <= |during|
      requires AllInOrder(during, k, n.started, n.finSeen)
      modifies this
      ensures setup == old(setup) && m.rx == State() && Reaches(Server.Steps(setup), n, es, m)
      ensures m.app == Server.Returned(ok)
    {
      hide Reaches, InOrder, AfterAll, AllInOrder, GivenUp;
      Peeled(during, k, n.started, n.finSeen);
      es, m := Meanwhile(during[k], n);
      ok := fileDone && fileOk;
      ghost var e := if fileDone then Server.DoneWake else Server.DoneTimeout;
      Stepped(Server.Steps(setup), n, es, m, e);
      es, m := es + [e], Server.Next(setup, m, e);
      if !ok {
        GiveUp();
        return;
      }
      Peeled(during, k + 1, m.started, m.finSeen);
      ghost var more, next := Drain(during[k + 1], m);
      Joined(Server.Steps(setup), n, es, m, more, next);
      es, m := es + more, next;
    }

    /** The prompt path: ask about the header that arrived, and go on only with a yes and an open output. */
    method AskUser(during: seq<seq<Callback>>, onOffer: Header -> bool, openOk: bool, sendOk: bool,
                   ghost n: Server.Node)
      returns (proceed: bool, ghost es: seq<Server.Event>, ghost m: Server.Node)
      requires n.rx == State() && n.app == Server.Asking && |during| == 7
      requires AllInOrder(during, 1, n.started, n.finSeen)
      modifies this
      ensures setup == old(setup) && m.rx == State() && Reaches(Server.Steps(setup), n, es, m)
      ensures m.app == if proceed then Server.WaitDone else Server.Returned(false)
      ensures proceed ==> onOffer(old(fileHeader)) && AllInOrder(during, 5, m.started, m.finSeen)
    {
      hide Reaches, InOrder, AfterAll, AllInOrder, OfferDeclined;
      var header := fileHeader;
      Peeled(during, 1, n.started, n.finSeen);
      es, m := Meanwhile(during[1], n);
      proceed := onOffer(header);
      ghost var e := Server.Answer(proceed, sendOk);
      Stepped(Server.Steps(setup), n, es, m, e);
      es, m := es + [e], Server.OnAnswer(m, proceed, sendOk);
      ghost var more, next;
      if proceed {
        proceed, more, next := Grant(during, 2, openOk, sendOk, m);
      } else {
        Decline(sendOk);
        Peeled(during, 2, m.started, m.finSeen);
        more, next := Drain(during[2], m);
      }
      Joined(Server.Steps(setup), n, es, m, more, next);
      es, m := es + more, next;
    }

    /** receive_file, called before or after its stream has started, with what the callback thread does at each of its
        waits and between its steps. Its run is a run of the state machine, so everything proved of those holds of it:
        true means a verified file, an OK on the wire, and consent. */
    method ReceiveFile(outputPath: Bytes, isDirectory: bool, onOffer: Option<Header -> bool>, openOk: bool,
                       sendOk: bool, during: seq<seq<Callback>>, ghost n: Server.Node)
      returns (ok: bool, ghost es: seq<Server.Event>, ghost m: Server.Node)
      requires n.rx == State() && n.app == Server.Idle
      requires Server.Inv(Setup(onOffer.Some?, TargetDir(outputPath, isDirectory), outputPath, setup.hash), n)
      requires |during| == 7 && AllInOrder(during, 0, n.started, n.finSeen)
      modifies this
      ensures setup == Setup(onOffer.Some?, TargetDir(outputPath, isDirectory), outputPath, old(setup.hash))
      ensures Reaches(Server.Steps(setup), n, es, m) && m.rx == State() && m.app == Server.Returned(ok)
      ensures Server.Sound(setup, m) && Server.Consented(m)
    {
      hide Reaches, InOrder, AfterAll, AllInOrder, Server.Sound, Server.Consented, Armed;
      Arm(onOffer.Some?, TargetDir(outputPath, isDirectory), outputPath);
      es, m := [Server.Arm], Server.OnArm(setup, n);
      OneStep(Server.Steps(setup), n, Server.Arm);
      ghost var more, next;
      var proceed := true;
      if onOffer.Some? {
        proceed, more, next := Offer(during, onOffer.value, openOk, sendOk, m);
        Joined(Server.Steps(setup), n, es, m, more, next);
        es, m := es + more, next;
      }
      if proceed {
        ok, more, next := AwaitVerdict(during, if onOffer.Some? then 5 else 0, m);
        Joined(Server.Steps(setup), n, es, m, more, next);
        es, m := es + more, next;
      } else {
        ok := false;
      }
      RunIsSound(setup, n, es, m);
    }

    /** The accept or reject phase. */
    method Offer(during: seq<seq<Callback>>, onOffer: Header -> bool, openOk: bool, sendOk: bool, ghost n: Server.Node)
      returns (proceed: bool, ghost es: seq<Server.Event>, ghost m: Server.Node)
      requires n.rx == State() && n.app == Server.WaitOffer && |during| == 7
      requires AllInOrder(during, 0, n.started, n.finSeen)
      modifies this
      ensures setup == old(setup) && m.rx == State() && Reaches(Server.Steps(setup), n, es, m)
      ensures m.app == if proceed then Server.WaitDone else Server.Returned(false)
      ensures proceed ==> AllInOrder(during, 5, m.started, m.finSeen)
    {
      hide Reaches, InOrder, AfterAll, AllInOrder;
      Peeled(during, 0, n.started, n.finSeen);
      proceed, es, m := AwaitOffer(during[0], n);
      if proceed {
        ghost var more, next;
        proceed, more, next := AskUser(during, onOffer, openOk, sendOk, m);
        Joined(Server.Steps(setup), n, es, m, more, next);
        es, m := es + more, next;
      }
    }
  }

  lemma RunIsSound(setup: Setup, n: Server.Node, es: seq<Server.Event>, m: Server.Node)
    requires Server.Inv(setup, n) && Reaches(Server.Steps(setup), n, es, m)
    ensures Server.Sound(setup, m) && Server.Consented(m)
  {
    hide Server.Inv, Server.Sound, Server.Consented;
    Server.RunsKeepInv(setup, n, es);
    Server.InvIsSound(setup, m);
    Server.InvIsConsented(setup, m);
  }

  lemma Peeled(during: seq<seq<Callback>>, k: nat, started: bool, ended: bool)
    requires k < |during| && AllInOrder(during, k, started, ended)
    ensures InOrder(during[k], 0, started, ended)
    ensures var next := AfterAll(during[k], 0, started, ended); AllInOrder(during, k + 1, next.0, next.1)
  {
    hide InOrder, AfterAll;
  }

  /** How the wait for an offer ends: a header to ask about, a failure already, or the timeout. */
  lemma OfferOver(setup: Setup, n: Server.Node) returns (e: Server.Event, m: Server.Node)
    requires n.app == Server.WaitOffer
    ensures Server.Enabled(n, e) && Server.Next(setup, n, e) == m
    ensures m == if n.rx.offerReady && !n.rx.done then n.(app := Server.Asking)
                 else n.(rx := Disarmed(n.rx), app := Server.Returned(false))
  {
    e := if n.rx.offerReady || n.rx.done then Server.OfferWake else Server.OfferTimeout;
    m := Server.Next(setup, n, e);
  }

  // ---------------------------------------------------------------- what may happen around receive_file

  /** A stream event, PEER_STREAM_STARTED among them. */
  datatype Callback =
    | Started
    | Receive(buffers: seq<Buffer>)
    | SendShutdown(readback: Option<Bytes>, sendOk: bool)
    | Completed
    | Aborted

  /** Stream events come after the start of the stream, data before its end. */
  predicate CanCome(c: Callback, started: bool, ended: bool) {
    if c.Started? then !started else started && (c.Receive? || c.SendShutdown? ==> !ended)
  }

  function Begun(c: Callback, started: bool): bool { started || c.Started? }

  function Over(c: Callback, ended: bool): bool { ended || c.SendShutdown? }

  predicate InOrder(cs: seq<Callback>, i: nat, started: bool, ended: bool)
    requires i <= |cs|
    decreases |cs| - i
  {
    i == |cs| ||
    (CanCome(cs[i], started, ended) && InOrder(cs, i + 1, Begun(cs[i], started), Over(cs[i], ended)))
  }

  predicate AllInOrder(during: seq<seq<Callback>>, k: nat, started: bool, ended: bool)
    requires k <= |during|
    decreases |during| - k
  {
    k == |during| ||
    (&& InOrder(during[k], 0, started, ended)
     && AllInOrder(during, k + 1, AfterAll(during[k], 0, started, ended).0, AfterAll(during[k], 0, started, ended).1))
  }

  function AfterAll(cs: seq<Callback>, i: nat, started: bool, ended: bool): (bool, bool)
    requires i <= |cs|
    decreases |cs| - i
  {
    if i == |cs| then (started, ended) else AfterAll(cs, i + 1, Begun(cs[i], started), Over(cs[i], ended))
  }

  /** A RECEIVE event is one fragment per buffer, all with the answer receiving_file_ gave at its start. */
  function Fragments(buffers: seq<Buffer>, live: bool, n: nat): seq<Server.Event>
    requires n <= |buffers|
  {
    if n == 0 then []
    else Fragments(buffers, live, n - 1) + [Server.Fragment(buffers[n - 1].data, live, buffers[n - 1].faults)]
  }

  function Taken(setup: Setup, n: Server.Node, buffers: seq<Buffer>, k: nat): Server.Node
    requires k <= |buffers|
  {
    if k == 0 then n
    else n.(rx := if n.rx.armed then Arrived(setup, n.rx, buffers, k) else n.rx, callback := Server.Inside(n.rx.armed))
  }

  lemma {:induction false} FragmentsReach(setup: Setup, n: Server.Node, buffers: seq<Buffer>, k: nat)
    requires n.started && !n.finSeen && k <= |buffers|
    ensures Reaches(Server.Steps(setup), n, Fragments(buffers, n.rx.armed, k), Taken(setup, n, buffers, k))
  {
    hide Appended;
    if k > 0 {
      FragmentsReach(setup, n, buffers, k - 1);
      var b := buffers[k - 1];
      Stepped(Server.Steps(setup), n, Fragments(buffers, n.rx.armed, k - 1), Taken(setup, n, buffers, k - 1),
              Server.Fragment(b.data, n.rx.armed, b.faults));
    }
  }

  /** Closing the output first makes no difference to the checks. */
  lemma JudgedWhenShut(setup: Setup, s: State, readback: Option<Bytes>)
    ensures var t := s.(out := Shut(s.out));
            Verdict(setup, t, readback) == Verdict(setup, s, readback) &&
            Judged(setup, t, readback) == Judged(setup, s, readback)
  {
  }

  lemma NothingAppended(s: State, writeOk: bool)
    ensures BodyAppended(s, [], writeOk) == s
  {
  }

  lemma StoredIsParsed(setup: Setup, s: State, header: Header)
    ensures HeaderStored(setup, s, header).parsed
  {
  }

  /** How buffers are grouped into RECEIVE events makes no difference, whatever goes wrong in them: one event after
      another is one event with the buffers of both. */
  lemma {:induction false} GroupingIrrelevant(setup: Setup, s: State, a: seq<Buffer>, b: seq<Buffer>, n: nat)
    requires n <= |b|
    ensures Arrived(setup, Arrived(setup, s, a, |a|), b, n) == Arrived(setup, s, a + b, |a| + n)
  {
    hide Appended;
    if n > 0 {
      GroupingIrrelevant(setup, s, a, b, n - 1);
    } else {
      ArrivedBefore(setup, s, a, b, |a|);
    }
  }

  lemma {:induction false} ArrivedBefore(setup: Setup, s: State, a: seq<Buffer>, b: seq<Buffer>, n: nat)
    requires n <= |a|
    ensures Arrived(setup, s, a + b, n) == Arrived(setup, s, a, n)
  {
    hide Appended;
    if n > 0 {
      ArrivedBefore(setup, s, a, b, n - 1);
    }
  }

  function Datas(buffers: seq<Buffer>, n: nat): seq<Bytes>
    requires n <= |buffers|
  {
    if n == 0 then [] else Datas(buffers, n - 1) + [buffers[n - 1].data]
  }

  /** Without faults the buffers are the fragments of Fragmentation. */
  lemma {:induction false} FaultFreeIsFed(setup: Setup, s: State, buffers: seq<Buffer>, n: nat)
    requires n <= |buffers| && forall i :: 0 <= i < n ==> buffers[i].faults == NO_FAULTS
    ensures Arrived(setup, s, buffers, n) == Fed(setup, s, Datas(buffers, n))
  {
    hide Appended;
    if n > 0 {
      FaultFreeIsFed(setup, s, buffers, n - 1);
      var all := Datas(buffers, n);
      assert all[..|all| - 1] == Datas(buffers, n - 1);
    }
  }
}
