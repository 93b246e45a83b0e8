/** In auto-accept mode the incremental receiver computes a function of the stream, however QUIC cuts it up. */
module Fragmentation {
  import opened ByteStrings
  import opened FileNames
  import opened Digests
  import opened HeaderCodec
  import opened HeaderTheorems
  import opened Receiver

  /** The stream's header, if it decodes, ends early enough that no shorter prefix trips the buffer cap.
      Decided by the first blank line alone, before any fragment is fed. */
  predicate HeaderInTime(stream: Bytes) {
    Decode(stream).None? || BlankLine(stream, 0).value + 2 <= MAX_HEADER_BYTES + 1
  }

  /** One more stretch of body; the 64-bit subtraction never wraps. */
  lemma {:induction false} BodyGrows(s: State, body: Bytes, data: Bytes)
    requires s.accepted && !s.ioError && s == WithBody(s, body)
    ensures Minus64(s.header.size, s.written) == s.header.size - s.written
    ensures BodyAppended(s, data, true) == WithBody(s, body + data)
  {
    PrefixGrows(body, data, s.header.size);
    assert data == [] ==> body + data == body;
  }

  lemma PrefixGrows(body: Bytes, data: Bytes, size: nat)
    ensures var m := Min(size, |body|);
            var n := Min(|data|, size - m);
            && Min(size, |body + data|) == m + n
            && (body + data)[..m + n] == body[..m] + data[..n]
            && body[..m] + data[..0] == body[..m]
  {
  }

  lemma RestGrows(data: Bytes, more: Bytes, n: nat)
    requires n <= |data|
    ensures Rest(data + more, n) == Rest(data, n) + more
  {
  }

  /** One more fragment takes the one-shot state of a stream to the one-shot state of the longer stream. */
  lemma OneShotGrows(setup: Setup, s: State, stream: Bytes, data: Bytes)
    requires Fresh(s) && !setup.prompt && HeaderInTime(stream + data)
    ensures HeaderInTime(stream)
    ensures Appended(setup, OneShot(setup, s, stream), data, NO_FAULTS) == OneShot(setup, s, stream + data)
  {
    if BlankLine(stream, 0).Some? {
      DecodeStable(stream, data);
    }
    if Decode(stream).Some? {
      AfterHeader(setup, s, stream, data);
    } else if |stream| > MAX_HEADER_BYTES {
      AfterCap(setup, s, stream, data);
    } else {
      HeaderArrives(setup, s, stream + data);
    }
  }

  lemma AfterHeader(setup: Setup, s: State, stream: Bytes, data: Bytes)
    requires Fresh(s) && !setup.prompt && Decode(stream).Some?
    ensures Appended(setup, OneShot(setup, s, stream), data, NO_FAULTS) == OneShot(setup, s, stream + data)
  {
    hide Decode, JoinPath, BodyAppended, Canonical;
    DecodedStable(stream, data);
    DecodedIsCanonical(stream);
    var n := Decode(stream).value.consumed;
    RestGrows(stream, data, n);
    BodyGrows(OneShot(setup, s, stream), Rest(stream, n), data);
  }

  lemma AfterCap(setup: Setup, s: State, stream: Bytes, data: Bytes)
    requires Fresh(s) && !setup.prompt && HeaderInTime(stream + data)
    requires Decode(stream).None? && |stream| > MAX_HEADER_BYTES
    ensures Appended(setup, OneShot(setup, s, stream), data, NO_FAULTS) == OneShot(setup, s, stream + data)
  {
    if Decode(stream + data).Some? {
      var end := BlankLine(stream + data, 0).value;
      assert stream[end] == (stream + data)[end] && stream[end + 1] == (stream + data)[end + 1];
      assert BlankAt(stream, end);
      DecodeStable(stream, data);
      assert false;
    }
  }

  /** The call that sees the header whole, or still does not: the buffer is the stream. */
  lemma HeaderArrives(setup: Setup, s: State, stream: Bytes)
    requires Fresh(s) && !setup.prompt
    ensures HeaderTried(setup, s.(buffer := stream), NO_FAULTS) == OneShot(setup, s, stream)
  {
    hide Decode, JoinPath, Canonical;
    if Decode(stream).Some? {
      DecodedIsCanonical(stream);
      var decoded := Decode(stream).value;
      var t := HeaderStored(setup, s.(buffer := stream), decoded.header);
      TrailingBody(t, Rest(stream, decoded.consumed));
    }
  }

  /** Accepting on the spot and writing what came with the header. */
  lemma TrailingBody(t: State, body: Bytes)
    requires !t.accepted && !t.ioError && !t.overflow && t.written == 0 && t.replies == []
    ensures AutoAccepted(t, body, NO_FAULTS) == WithBody(t.(accepted := true, replies := [ACCEPT]), body)
  {
    var u := Sent(OutputOpened(t, true).(accepted := true), ACCEPT, true);
    assert u.replies == [ACCEPT];
    assert u == WithBody(u, []);
    hide BodyAppended;
    BodyGrows(u, [], body);
    assert [] + body == body;
  }

  lemma EmptyInTime()
    ensures Decode([]).None? && HeaderInTime([])
  {
    assert BlankLine([], 0).None?;
  }

  /** Every fragmentation of a stream ends in the one-shot state of the whole stream. */
  lemma {:induction false} FedIsOneShot(setup: Setup, s: State, frags: seq<Bytes>)
    requires Fresh(s) && !setup.prompt && HeaderInTime(Concat(frags))
    ensures Fed(setup, s, frags) == OneShot(setup, s, Concat(frags))
  {
    if frags == [] {
      EmptyInTime();
    } else {
      var front, last := frags[..|frags| - 1], frags[|frags| - 1];
      OneShotGrows(setup, s, Concat(front), last);
      FedIsOneShot(setup, s, front);
    }
  }

  /** The result is independent of the fragmentation exactly when the header ends in time: the cap is looked at
      only after a failed decode, so a header ending later is refused if a prefix beyond the cap arrives first. */
  lemma {:induction false} FragmentationIndependence(setup: Setup, s: State, stream: Bytes)
    requires Fresh(s) && !setup.prompt
    ensures (forall frags :: Concat(frags) == stream ==> Fed(setup, s, frags) == OneShot(setup, s, stream))
            <==> HeaderInTime(stream)
  {
    hide OneShot, Fed, Decode, Concat, HeaderInTime, Fresh;
    if HeaderInTime(stream) {
      forall frags | Concat(frags) == stream
        ensures Fed(setup, s, frags) == OneShot(setup, s, stream)
      {
        FedIsOneShot(setup, s, frags);
      }
    } else {
      LateHeaderSplit(setup, s, stream);
      assert Concat([stream[..MAX_HEADER_BYTES + 1], stream[MAX_HEADER_BYTES + 1..]]) == stream;
    }
  }

  /** A late header is lost when the cap is passed by a fragment boundary: accepted in one piece, refused in two. */
  lemma {:induction false} LateHeaderSplit(setup: Setup, s: State, stream: Bytes)
    requires Fresh(s) && !setup.prompt && !HeaderInTime(stream)
    ensures |stream| > MAX_HEADER_BYTES + 1
    ensures var frags := [stream[..MAX_HEADER_BYTES + 1], stream[MAX_HEADER_BYTES + 1..]];
            && Concat(frags) == stream
            && Fed(setup, s, frags).ioError && !Fed(setup, s, frags).accepted
            && Fed(setup, s, [stream]).accepted && Fed(setup, s, [stream]) == OneShot(setup, s, stream)
            && Fed(setup, s, frags) != OneShot(setup, s, stream)
  {
    hide Decode, JoinPath, Fed, OneShot;
    OnePiece(setup, s, stream);
    LateRefused(setup, s, stream);
    InTwo(stream, MAX_HEADER_BYTES + 1);
    OneShotAccepts(setup, s, stream);
  }

  lemma LateRefused(setup: Setup, s: State, stream: Bytes)
    requires Fresh(s) && !setup.prompt && !HeaderInTime(stream)
    ensures |stream| > MAX_HEADER_BYTES + 1
    ensures var t := Fed(setup, s, [stream[..MAX_HEADER_BYTES + 1], stream[MAX_HEADER_BYTES + 1..]]);
            t.ioError && !t.accepted
  {
    var front, back := stream[..MAX_HEADER_BYTES + 1], stream[MAX_HEADER_BYTES + 1..];
    InTwo(stream, MAX_HEADER_BYTES + 1);
    NoEarlyBlank(stream, MAX_HEADER_BYTES + 1);
    assert Decode(front).None?;
    FedIsOneShot(setup, s, [front]);
    assert [front, back][..1] == [front];
  }

  lemma OneShotAccepts(setup: Setup, s: State, stream: Bytes)
    requires Decode(stream).Some?
    ensures OneShot(setup, s, stream).accepted
  {
    hide Decode, JoinPath;
  }

  /** A stream that comes in one piece always meets the one-shot function. */
  lemma OnePiece(setup: Setup, s: State, stream: Bytes)
    requires Fresh(s) && !setup.prompt
    ensures Fed(setup, s, [stream]) == OneShot(setup, s, stream)
  {
    hide HeaderTried, OneShot, Fresh;
    HeaderArrives(setup, s, stream);
    assert !s.parsed && s.buffer == [] by { FreshParts(s); }
    assert [stream][..0] == [] && [] + stream == stream;
  }

  lemma FreshParts(s: State)
    requires Fresh(s)
    ensures !s.parsed && s.buffer == []
  {
  }

  /** A valid header that ends too late: a name of 70000 letters. */
  function LateHeader(): Header { Header(seq(70000, _ => 'a'), 0, seq(64, _ => '0')) }

  /** So the failing family is not empty: this encoding is accepted in one piece and refused in two. */
  lemma LateHeaderExists()
    ensures IsSha256Hex(LateHeader().sha256) && !HeaderInTime(Encode(LateHeader()))
  {
    hide Decode;
    var h := LateHeader();
    assert Canonical(h.name) by { assert !IsUseless(h.name) by { assert |h.name| == 70000; } }
    CanonicalUnchanged(h.name);
    EncodedEnds(h);
    EncodingHoldsName(h);
  }

  lemma EncodingHoldsName(h: Header)
    ensures |Encode(h)| > |Sanitized(h.name)| + 2
  {
  }

  lemma InTwo(stream: Bytes, n: nat)
    requires n <= |stream|
    ensures Concat([stream[..n]]) == stream[..n] && Concat([stream[..n], stream[n..]]) == stream
  {
    ConcatSnoc([], stream[..n]);
    ConcatSnoc([stream[..n]], stream[n..]);
    assert [] + [stream[..n]] == [stream[..n]] && [stream[..n]] + [stream[n..]] == [stream[..n], stream[n..]];
    assert stream[..n] + stream[n..] == stream;
  }

  lemma NoEarlyBlank(stream: Bytes, n: nat)
    requires n <= |stream| && BlankLine(stream, 0).Some? && BlankLine(stream, 0).value + 2 > n
    ensures BlankLine(stream[..n], 0).None?
  {
    assert stream[..n] + stream[n..] == stream;
    if BlankLine(stream[..n], 0).Some? {
      DecodeStable(stream[..n], stream[n..]);
    }
  }

  // ---------------------------------------------------------------- acceptance

  /** The stream is a header followed by exactly the declared number of bytes with the declared digest. */
  predicate Genuine(setup: Setup, stream: Bytes) {
    var decoded := Decode(stream);
    && decoded.Some?
    && |Rest(stream, decoded.value.consumed)| == decoded.value.header.size
    && setup.hash(Rest(stream, decoded.value.consumed)) == decoded.value.header.sha256
  }

  /** What the disk holds when the writes succeeded. */
  function Stored(s: State): Option<Bytes> { if s.out.NoFile? then None else Some(s.out.bytes) }

  // ---- every fragmentation, headers of every length

  /** A buffer that is not refused: within the cap, or holding a header. */
  predicate Heeded(buffer: Bytes) { |buffer| <= MAX_HEADER_BYTES || Decode(buffer).Some? }

  /** At no boundary between fragments had the cap been passed without a header. */
  predicate Untripped(frags: seq<Bytes>) {
    frags == [] || (Untripped(frags[..|frags| - 1]) && Heeded(Concat(frags)))
  }

  /** The receiver has given up on the header; it has not said so yet. */
  predicate Refused(t: State) { t.armed && t.parsed && t.ioError && !t.accepted && t.replies == [] }

  lemma HeededOneShot(setup: Setup, s: State, stream: Bytes, data: Bytes)
    requires Fresh(s) && !setup.prompt && Heeded(stream)
    ensures var t := Appended(setup, OneShot(setup, s, stream), data, NO_FAULTS);
            if Heeded(stream + data) then t == OneShot(setup, s, stream + data) else Refused(t)
  {
    hide Decode, JoinPath;
    if Decode(stream).Some? {
      AfterHeader(setup, s, stream, data);
      DecodedStable(stream, data);
    } else {
      HeaderArrives(setup, s, stream + data);
    }
  }

  lemma RefusedForGood(setup: Setup, t: State, data: Bytes)
    requires Refused(t)
    ensures Refused(Appended(setup, t, data, NO_FAULTS))
  {
  }

  /** For every fragmentation of every stream: the receiver is where the one-shot function puts it if the cap was not
      tripped on the way, and has refused the stream otherwise. */
  lemma {:induction false} FedExactly(setup: Setup, s: State, frags: seq<Bytes>)
    requires Fresh(s) && !setup.prompt
    ensures var t := Fed(setup, s, frags);
            if Untripped(frags) then t == OneShot(setup, s, Concat(frags)) else Refused(t)
  {
    hide Appended, OneShot, Refused, Heeded;
    if frags == [] {
      EmptyInTime();
      FedIsOneShot(setup, s, []);
    } else {
      var front, last := frags[..|frags| - 1], frags[|frags| - 1];
      FedExactly(setup, s, front);
      if Untripped(front) {
        assert Heeded(Concat(front)) by { LastHeeded(front); }
        HeededOneShot(setup, s, Concat(front), last);
      } else {
        RefusedForGood(setup, Fed(setup, s, front), last);
      }
    }
  }

  lemma LastHeeded(frags: seq<Bytes>)
    requires Untripped(frags)
    ensures Heeded(Concat(frags))
  {
  }

  /** What goes out at FIN, without faults, whoever the peer is, for every fragmentation of every stream: FAIL alone if
      the cap was tripped; else ACCEPT and OK for a genuine stream, ACCEPT and FAIL for another with a header, and
      nothing at all for a short one without. */
  lemma {:induction false} ExactAnswers(setup: Setup, s: State, frags: seq<Bytes>)
    requires Fresh(s) && !setup.prompt
    ensures var t := Fed(setup, s, frags);
            var stream := Concat(frags);
            PeerFinished(setup, t, Stored(t), true).replies ==
              if !Untripped(frags) then [FAIL]
              else if Genuine(setup, stream) then [ACCEPT, OK]
              else if Decode(stream).Some? then [ACCEPT, FAIL]
              else []
  {
    hide Decode, JoinPath, Fed, Verdict, Finished, Untripped;
    FedExactly(setup, s, frags);
    var stream, t := Concat(frags), Fed(setup, s, frags);
    if !Untripped(frags) {
      FinAfterError(setup, t);
    } else if Decode(stream).Some? {
      FinWithBody(setup, t, Rest(stream, Decode(stream).value.consumed));
    } else {
      LastHeeded(frags);
    }
  }

  /** OK is answered exactly to a genuine stream that did not trip the cap on the way. */
  lemma {:induction false} OkIffGenuine(setup: Setup, s: State, frags: seq<Bytes>)
    requires Fresh(s) && !setup.prompt
    ensures var t := Fed(setup, s, frags);
            OK in PeerFinished(setup, t, Stored(t), true).replies <==>
              Genuine(setup, Concat(frags)) && Untripped(frags)
  {
    hide Fed, PeerFinished, Decode, Untripped;
    ExactAnswers(setup, s, frags);
  }

  /** A header in time is never tripped over, and a stream without one trips exactly if it is too long. */
  lemma {:induction false} InTimeUntripped(frags: seq<Bytes>)
    requires HeaderInTime(Concat(frags))
    ensures Untripped(frags) <==> Heeded(Concat(frags))
  {
    hide Heeded, HeaderInTime;
    if frags == [] {
      assert Heeded([]) by { NothingHeeded(); }
    } else {
      var front := frags[..|frags| - 1];
      HeededBefore(Concat(front), frags[|frags| - 1]);
      InTimeUntripped(front);
    }
  }

  lemma NothingHeeded()
    ensures Heeded([])
  {
    hide Decode;
  }

  lemma HeededBefore(stream: Bytes, data: Bytes)
    requires HeaderInTime(stream + data)
    ensures HeaderInTime(stream) && (Heeded(stream + data) ==> Heeded(stream))
  {
    if BlankLine(stream, 0).Some? {
      DecodeStable(stream, data);
    } else if Decode(stream + data).Some? {
      NoBlankIsShort(stream, data);
    }
  }

  lemma NoBlankIsShort(stream: Bytes, data: Bytes)
    requires BlankLine(stream, 0).None? && BlankLine(stream + data, 0).Some?
    ensures |stream| < BlankLine(stream + data, 0).value + 2
  {
    var end := BlankLine(stream + data, 0).value;
    if end + 2 <= |stream| {
      assert stream[end] == (stream + data)[end] && stream[end + 1] == (stream + data)[end + 1];
      assert BlankAt(stream, end);
      assert false;
    }
  }

  /** With the header in time the fragmentation does not show in the answers. */
  lemma {:induction false} ExactAcceptance(setup: Setup, s: State, frags: seq<Bytes>)
    requires Fresh(s) && !setup.prompt && HeaderInTime(Concat(frags))
    ensures var t := Fed(setup, s, frags);
            var stream := Concat(frags);
            PeerFinished(setup, t, Stored(t), true).replies ==
              if Genuine(setup, stream) then [ACCEPT, OK]
              else if Decode(stream).Some? then [ACCEPT, FAIL]
              else if |stream| > MAX_HEADER_BYTES then [FAIL]
              else []
  {
    hide Fed, PeerFinished, Decode, Untripped, HeaderInTime;
    ExactAnswers(setup, s, frags);
    InTimeUntripped(frags);
  }

  lemma FinWithBody(setup: Setup, t: State, body: Bytes)
    requires t.armed && t.parsed && t.accepted && !t.ioError && t.replies == [ACCEPT] && t == WithBody(t, body)
    ensures var good := |body| == t.header.size && setup.hash(body) == t.header.sha256;
            PeerFinished(setup, t, Stored(t), true).replies == [ACCEPT, if good then OK else FAIL]
  {
    assert body[..|body|] == body;
  }

  lemma FinAfterError(setup: Setup, t: State)
    requires t.armed && t.ioError && t.replies == []
    ensures PeerFinished(setup, t, Stored(t), true).replies == [FAIL]
  {
    assert Verdict(setup, t, Stored(t)) != Fine;
  }

}
