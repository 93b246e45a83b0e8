/** What a receiver does in each of the situations the source tells apart, said of its fields and of whole runs rather
    than of the functions that compute them. */
module ReceiverLaws {
  import opened ByteStrings
  import opened HeaderCodec
  import opened Receiver
  import opened ServerRuns
  import Fragmentation
  import HeaderTheorems

  // ---------------------------------------------------------------- beginnings

  /** Whatever an earlier transfer left behind, arming forgets it all. */
  lemma {:induction false} ArmedIsFresh(setup: Setup, s: State)
    ensures var t := Armed(setup, s);
            && Fresh(t.(replies := [])) && t.replies == s.replies && !t.offerReady && !t.done && !t.ok
            && t.result == Result(false, false, Fine, 0, [], [])
            && t.path == if setup.dir.Some? then [] else setup.file
  {
  }

  /** ... and so does a new stream, which keeps what receive_file was armed with. */
  lemma {:induction false} StartedIsFresh(s: State)
    ensures var t := StreamStarted(s);
            && Fresh(t.(armed := true)) && t.armed == s.armed && t.path == s.path && t.offerReady == s.offerReady
            && t.done == s.done && t.ok == s.ok && t.result == s.result
  {
  }

  // ---------------------------------------------------------------- the header

  /** Over the cap without a header: the waiter is woken at once, with failure and the reason. */
  lemma {:induction false} TooLongWakes(setup: Setup, s: State, data: Bytes, faults: Faults)
    requires !s.parsed && Decode(s.buffer + data).None? && |s.buffer + data| > 65536
    ensures var t := Appended(setup, s, data, faults);
            && t.done && !t.ok && !t.result.success && t.result.error == BadHeader && t.ioError
            && t.parsed && t.buffer == [] && t.result.rejected == s.result.rejected
            && t.accepted == s.accepted && t.offerReady == s.offerReady && t.out == s.out && t.replies == s.replies
  {
    hide Decode;
  }

  /** Within it: the bytes are kept and nothing else happens. */
  lemma {:induction false} ShortWaits(setup: Setup, s: State, data: Bytes, faults: Faults)
    requires !s.parsed && Decode(s.buffer + data).None? && |s.buffer + data| <= 65536
    ensures Appended(setup, s, data, faults) == s.(buffer := s.buffer + data)
  {
    hide Decode;
  }

  /** A header with a prompt: it is offered; nothing is opened and nothing said. */
  lemma {:induction false} HeaderOffered(setup: Setup, s: State, data: Bytes, faults: Faults)
    requires !s.parsed && setup.prompt && Decode(s.buffer + data).Some?
    ensures var t := Appended(setup, s, data, faults);
            && t.offerReady && t.parsed && t.header == Decode(s.buffer + data).value.header && t.buffer == []
            && t.accepted == s.accepted && t.out == s.out && t.replies == s.replies && t.done == s.done
            && t.written == s.written && t.ioError == s.ioError && t.result == s.result
  {
    hide Decode, FileNames.JoinPath;
  }

  /** A header without a prompt and an output that does not open: the reason is kept, and nothing is said. */
  lemma {:induction false} HeaderUnopened(setup: Setup, s: State, data: Bytes, faults: Faults)
    requires !s.parsed && !setup.prompt && Decode(s.buffer + data).Some? && !faults.openOk
    ensures var t := Appended(setup, s, data, faults);
            && t.parsed && t.ioError && t.result.error == OpenFailed && t.out == NoFile && t.buffer == []
            && t.accepted == s.accepted && t.replies == s.replies && t.done == s.done && t.written == s.written
  {
    hide Decode, FileNames.JoinPath;
  }

  /** A header without a prompt and an output that opens: accepted, and said so if the transport takes it; what came
      behind the header is the first of the body. */
  lemma {:induction false} HeaderAccepted(setup: Setup, s: State, data: Bytes, faults: Faults)
    requires Fresh(s) && !setup.prompt && Decode(data).Some? && faults.openOk && faults.writeOk
    ensures var t, decoded := Appended(setup, s, data, faults), Decode(data).value;
            var body := Rest(data, decoded.consumed);
            && t.accepted && t.parsed && t.header == decoded.header && !t.ioError
            && t.out == Open(body[..Min(decoded.header.size, |body|)])
            && t.replies == if faults.sendOk then [ACCEPT] else []
  {
    hide Decode, FileNames.JoinPath, BodyAppended;
    assert [] + data == data;
    var u := HeaderStored(setup, s.(buffer := data), Decode(data).value.header);
    var v := Sent(OutputOpened(u, true).(accepted := true), ACCEPT, faults.sendOk);
    assert v.replies == if faults.sendOk then [ACCEPT] else [];
    assert v == WithBody(v, []);
    Fragmentation.BodyGrows(v, [], Rest(data, Decode(data).value.consumed));
    BodyEffect(v, Rest(data, Decode(data).value.consumed), true);
    assert [] + Rest(data, Decode(data).value.consumed) == Rest(data, Decode(data).value.consumed);
  }

  // ---------------------------------------------------------------- the body

  /** What goes to the output of one more stretch of body, and what sets the overflow flag. */
  lemma {:induction false} BodyWritten(setup: Setup, s: State, data: Bytes, faults: Faults)
    requires s.parsed && s.accepted && !s.ioError && s.out.Open? && s.written <= s.header.size && faults.writeOk
    ensures var t, left := Appended(setup, s, data, faults), s.header.size - s.written;
            && t.out == Open(s.out.bytes + data[..Min(|data|, left)]) && t.written == s.written + Min(|data|, left)
            && t.overflow == (s.overflow || |data| > left)
            && !t.ioError && t.result == s.result && t.replies == s.replies && t.done == s.done
  {
    if data == [] {
      assert s.out.bytes + data[..0] == s.out.bytes;
    } else if s.header.size == s.written {
      assert s.out.bytes + data[..0] == s.out.bytes;
    }
  }

  /** A failed write: the reason is kept; what was written and counted stays. */
  lemma {:induction false} WriteFails(setup: Setup, s: State, data: Bytes, faults: Faults)
    requires s.parsed && s.accepted && !s.ioError && s.out.Open? && s.written < s.header.size && data != []
    requires !faults.writeOk
    ensures var t := Appended(setup, s, data, faults);
            && t.ioError && t.result == s.result.(error := WriteFailed) && t.out == s.out && t.written == s.written
            && t.overflow == (s.overflow || |data| > s.header.size - s.written)
            && t.replies == s.replies && t.done == s.done && t.accepted
  {
  }

  /** Before acceptance, after an error, without an open output: body bytes are dropped. */
  lemma {:induction false} BodyDropped(setup: Setup, s: State, data: Bytes, faults: Faults)
    requires s.parsed && (!s.accepted || s.ioError || !s.out.Open?)
    ensures Appended(setup, s, data, faults) == s
  {
  }

  // ---------------------------------------------------------------- the verdict

  /** The FIN of a transfer that was neither accepted nor has failed, or that nobody waits for, is ignored. */
  lemma {:induction false} FinIgnored(setup: Setup, s: State, readback: Option<Bytes>, sendOk: bool)
    requires !s.armed || (!s.accepted && !s.ioError)
    ensures PeerFinished(setup, s, readback, sendOk) == s
  {
  }

  /** The FIN after an error: its reason stands, and FAIL goes out. */
  lemma {:induction false} FinAfterError(setup: Setup, s: State, readback: Option<Bytes>)
    requires s.armed && s.ioError && !FinSent(s)
    ensures var t := PeerFinished(setup, s, readback, true);
            && t.replies == s.replies + [FAIL] && !t.result.success && !t.out.Open? && t.finalAck
            && t.result.error == (if s.result.error == Fine then IoFailed else s.result.error)
            && t.result.bytesReceived == s.written && t.result.computedHash == s.result.computedHash
  {
  }

  /** The first check that fails gives the reason: more bytes than declared, another number of bytes, a file that cannot
      be read back, another digest; if none does, OK goes out. */
  lemma {:induction false} FinJudged(setup: Setup, s: State, readback: Option<Bytes>)
    requires s.armed && s.accepted && s.parsed && !s.ioError && !s.out.NoFile? && !FinSent(s)
    ensures var t := PeerFinished(setup, s, readback, true);
            var reason := if s.overflow then Overflowed
                          else if s.written != s.header.size then SizeMismatch
                          else if readback.None? then Unhashable
                          else if setup.hash(readback.value) != s.header.sha256 then HashMismatch
                          else s.result.error;
            && t.result.error == reason && !t.out.Open? && t.finalAck
            && t.result.bytesReceived == s.written && t.result.expectedHash == s.header.sha256
            && (!s.overflow && s.written == s.header.size && readback.Some? ==>
                  t.result.computedHash == setup.hash(readback.value))
            && var good := !s.overflow && s.written == s.header.size && readback.Some?
                           && setup.hash(readback.value) == s.header.sha256;
               t.result.success == good && t.replies == s.replies + [if good then OK else FAIL]
  {
    hide Shut;
    Closing(s.out);
  }

  lemma Closing(out: Output)
    ensures !Shut(out).Open? && (out.Open? ==> Shut(out) == Closed(out.bytes)) && (!out.Open? ==> Shut(out) == out)
  {
  }

  /** A verdict that the transport refuses wakes the waiter with failure. */
  lemma {:induction false} VerdictRefused(setup: Setup, s: State, readback: Option<Bytes>)
    requires s.armed && (s.accepted || s.ioError)
    ensures var t := PeerFinished(setup, s, readback, false);
            t.done && !t.ok && !t.result.success && !t.finalAck && t.replies == s.replies && !t.out.Open?
  {
    hide Judged, Verdict;
  }

  /** The reason recorded at FIN for every fragmentation of every stream, without faults and without a prompt. */
  lemma {:induction false} ExactErrors(setup: Setup, s: State, frags: seq<Bytes>)
    requires Fresh(s) && !setup.prompt && s.result == NO_RESULT && !s.done
    ensures var t := Fed(setup, s, frags);
            var u := PeerFinished(setup, t, Fragmentation.Stored(t), true);
            var stream := Concat(frags);
            if !Fragmentation.Untripped(frags) then u.result.error == BadHeader
            else if Decode(stream).None? then u == t && u.result.error == Fine && !u.done
            else
              var header, body := Decode(stream).value.header, Rest(stream, Decode(stream).value.consumed);
              && u.result.bytesReceived == Min(header.size, |body|)
              && u.result.error == if |body| > header.size then Overflowed
                                   else if |body| < header.size then SizeMismatch
                                   else if setup.hash(body) != header.sha256 then HashMismatch
                                   else Fine
  {
    hide Decode, FileNames.JoinPath, Fed, PeerFinished, Fragmentation.Untripped;
    Fragmentation.FedExactly(setup, s, frags);
    RefusedReason(setup, s, frags);
    var stream, t := Concat(frags), Fed(setup, s, frags);
    if !Fragmentation.Untripped(frags) {
      FinAfterError(setup, t, Fragmentation.Stored(t));
    } else if Decode(stream).Some? {
      var body := Rest(stream, Decode(stream).value.consumed);
      assert body[..|body|] == body;
      FinJudged(setup, t, Fragmentation.Stored(t));
    } else {
      Fragmentation.LastHeeded(frags);
      FinIgnored(setup, t, Fragmentation.Stored(t), true);
    }
  }

  lemma {:induction false} RefusedReason(setup: Setup, s: State, frags: seq<Bytes>)
    requires Fresh(s) && !setup.prompt
    ensures var t := Fed(setup, s, frags);
            if Fragmentation.Untripped(frags) then t.result == s.result
            else t.result.error == BadHeader && t.done && !t.ok
  {
    hide Decode, FileNames.JoinPath, Appended;
    if frags != [] {
      var front, last := frags[..|frags| - 1], frags[|frags| - 1];
      RefusedReason(setup, s, front);
      Fragmentation.FedExactly(setup, s, front);
      Fragmentation.FedExactly(setup, s, frags);
      if !Fragmentation.Untripped(front) {
        BodyDropped(setup, Fed(setup, s, front), last, NO_FAULTS);
      } else if !Fragmentation.Untripped(frags) {
        Fragmentation.LastHeeded(front);
        NotHeeded(front, last);
        TooLongWakes(setup, Fed(setup, s, front), last, NO_FAULTS);
      }
    }
  }

  /** What trips the cap: a buffer without a header, grown over it. */
  lemma NotHeeded(front: seq<Bytes>, last: Bytes)
    requires Fragmentation.Heeded(Concat(front)) && !Fragmentation.Heeded(Concat(front) + last)
    ensures Decode(Concat(front)).None? && Decode(Concat(front) + last).None?
    ensures |Concat(front) + last| > 65536
  {
    hide Decode;
    if Decode(Concat(front)).Some? {
      HeaderTheorems.DecodedStable(Concat(front), last);
    }
  }

  // ---------------------------------------------------------------- completions, aborts and answers

  lemma {:induction false} CompletionSeen(s: State)
    ensures SendCompleted(s) ==
            if s.armed && s.finalAck then s.(done := true, ok := s.result.success) else s
  {
  }

  /** An abort event: failure, a closed output, and its own reason only if there is none yet. */
  lemma {:induction false} AbortSeen(s: State)
    ensures var t := PeerAbortSeen(s);
            if !s.armed then t == s
            else && t.done && !t.ok && !t.result.success && !t.out.Open?
                 && (s.out.Open? ==> t.out == Closed(s.out.bytes))
                 && t.result.error == (if s.result.error == Fine then PeerAborted else s.result.error)
                 && t.replies == s.replies && t.written == s.written && t.accepted == s.accepted && t.parsed == s.parsed
  {
  }

  /** The user says no: REJECT, if the transport takes it, and a result that says so. */
  lemma {:induction false} DeclineSeen(n: Node, sendOk: bool)
    requires n.app == Asking && !FinSent(n.rx)
    ensures var m := OnAnswer(n, false, sendOk);
            && m.app == Draining(false) && m.rx.result.rejected && m.rx.result.error == Declined
            && m.rx.replies == (if sendOk then n.rx.replies + [REJECT] else n.rx.replies)
            && m.rx.out == n.rx.out && m.rx.accepted == n.rx.accepted && m.consent == n.consent
  {
  }

  /** The user says yes and the output does not open: REJECT too, with another reason, and not called a rejection. */
  lemma {:induction false} OfferedUnopened(n: Node, sendOk: bool)
    requires n.app == Granted && !FinSent(n.rx)
    ensures var m := OnOpenOutput(n, false, sendOk);
            && m.app == Draining(false) && m.rx.ioError && m.rx.result.error == OpenFailed && m.rx.out == NoFile
            && m.rx.result.rejected == n.rx.result.rejected && m.rx.accepted == n.rx.accepted
            && m.rx.replies == (if sendOk then n.rx.replies + [REJECT] else n.rx.replies)
  {
  }

  /** ... and it opens: empty, whatever was there before; accepted in the next step and said in the one after. */
  lemma {:induction false} OfferedOpened(n: Node, sendOk: bool, acceptSendOk: bool)
    requires n.app == Granted && !FinSent(n.rx)
    ensures var a := OnOpenOutput(n, true, sendOk);
            var b := OnStoreAccepted(a);
            var c := OnSendAccept(b, acceptSendOk);
            && a.app == Opened && a.rx.out == Open([]) && a.rx.accepted == n.rx.accepted && a.rx.replies == n.rx.replies
            && b.app == Stored && b.rx.accepted && b.rx.out == a.rx.out && b.rx.replies == n.rx.replies
            && c.app == WaitDone && c.rx.out == a.rx.out
            && c.rx.replies == if acceptSendOk then n.rx.replies + [ACCEPT] else n.rx.replies
  {
  }

  /** The wait for an offer: a failure comes first, then the question, then the timeout. */
  lemma {:induction false} OfferAwaited(n: Node)
    requires n.app == WaitOffer
    ensures Enabled(n, OfferWake) <==> n.rx.offerReady || n.rx.done
    ensures OnOfferWake(n).app == if n.rx.done then Returned(false) else Asking
    ensures n.rx.done ==> !OnOfferWake(n).rx.armed && OnOfferWake(n).rx.replies == n.rx.replies
    ensures Enabled(n, OfferTimeout) <==> !n.rx.offerReady && !n.rx.done
    ensures OnOfferTimeout(n).app == Returned(false) && !OnOfferTimeout(n).rx.armed
  {
  }

  /** The wait for the verdict: success drains before it returns, and keeps listening meanwhile; failure and the timeout
      return at once, disarmed and with the output closed. */
  lemma {:induction false} VerdictAwaited(n: Node)
    requires n.app == WaitDone
    ensures Enabled(n, DoneWake) <==> n.rx.done
    ensures Enabled(n, DoneTimeout) <==> !n.rx.done
    ensures n.rx.ok ==> OnDoneWake(n) == n.(app := Draining(true))
    ensures !n.rx.ok ==> OnDoneWake(n) == OnDoneTimeout(n)
    ensures var m := OnDoneTimeout(n);
            && m.app == Returned(false) && !m.rx.armed && !m.rx.out.Open? && m.rx.replies == n.rx.replies
            && m.rx.result == n.rx.result && (n.rx.out.Open? ==> m.rx.out == Closed(n.rx.out.bytes))
  {
  }

  /** The end of the drain: disarmed, with the outcome that was drained for. */
  lemma {:induction false} DrainOver(n: Node)
    requires n.app.Draining?
    ensures var m := OnDrainEnd(n);
            m.app == Returned(n.app.success) && m.rx == n.rx.(armed := false) && m.verified == n.verified
  {
  }
}
