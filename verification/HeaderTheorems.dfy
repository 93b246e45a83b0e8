/** What the header format promises: framing, round trip, stability, forward compatibility. */
module HeaderTheorems {
  import opened ByteStrings
  import opened FileNames
  import opened Decimals
  import opened Digests
  import opened HeaderCodec

  // ---------------------------------------------------------------- framing

  predicate NoNewline(s: Bytes) { forall i :: 0 <= i < |s| ==> s[i] != '\n' }

  predicate Clean(line: Bytes) { line != [] && NoNewline(line) }

  predicate AllClean(lines: seq<Bytes>) { forall i :: 0 <= i < |lines| ==> Clean(lines[i]) }

  /** Every line with its newline. */
  function Rows(lines: seq<Bytes>): Bytes {
    if lines == [] then [] else lines[0] + "\n" + Rows(lines[1..])
  }

  /** A header block: its lines, then the blank line. */
  function Frame(lines: seq<Bytes>): Bytes { Rows(lines) + "\n" }

  predicate At(data: Bytes, p: nat, s: Bytes) { p + |s| <= |data| && data[p..p + |s|] == s }

  lemma AtSplit(data: Bytes, p: nat, a: Bytes, b: Bytes)
    ensures At(data, p, a + b) <==> At(data, p, a) && At(data, p + |a|, b)
  {
    if At(data, p, a + b) {
      assert data[p..p + |a|] == (a + b)[..|a|] == a;
      assert data[p + |a|..p + |a + b|] == (a + b)[|a|..] == b;
    }
    if At(data, p, a) && At(data, p + |a|, b) {
      assert data[p..p + |a + b|] == data[p..p + |a|] + data[p + |a|..p + |a| + |b|];
    }
  }

  lemma RowAt(data: Bytes, p: nat, line: Bytes, rest: Bytes)
    requires Clean(line) && rest != [] && At(data, p, line + "\n" + rest)
    ensures var q := p + |line| + 1;
            && (forall i :: p <= i < q - 1 ==> data[i] != '\n')
            && data[q - 1] == '\n' && At(data, q, rest) && data[q] == rest[0]
  {
    AtSplit(data, p, line + "\n", rest);
    AtSplit(data, p, line, "\n");
    var q := p + |line| + 1;
    assert forall i :: p <= i < q - 1 ==> data[i] == line[i - p];
    assert data[p + |line|..p + |line| + 1] == "\n";
    assert data[q - 1] == data[q - 1..q][0];
    assert data[q] == data[q..q + |rest|][0];
  }

  lemma BlankLineIs(data: Bytes, p: nat, e: nat)
    requires p <= e && BlankAt(data, e)
    requires forall i :: p <= i < e ==> !BlankAt(data, i)
    ensures BlankLine(data, p) == Some(e)
  {
    assert BlankLine(data, p).Some?;
  }

  /** A line is passed over: no blank line starts in it. */
  lemma SkipRow(data: Bytes, p: nat, q: nat, e: nat)
    requires p < q < |data| && data[q] != '\n' && forall i :: p <= i < q - 1 ==> data[i] != '\n'
    requires BlankLine(data, q) == Some(e)
    ensures BlankLine(data, p) == Some(e)
  {
    BlankLineIs(data, p, e);
  }

  /** A frame is its first line and the frame of the others. */
  lemma FramePeeled(lines: seq<Bytes>)
    requires lines != [] && AllClean(lines)
    ensures Frame(lines) == lines[0] + "\n" + Frame(lines[1..])
    ensures |Rows(lines)| == |lines[0]| + 1 + |Rows(lines[1..])|
    ensures Frame(lines[1..]) != [] && (Frame(lines[1..])[0] == '\n' <==> lines[1..] == [])
  {
    var rest := lines[1..];
    if rest != [] {
      assert Frame(rest)[0] == rest[0][0];
    }
  }

  lemma {:induction false} FrameFound(data: Bytes, p: nat, lines: seq<Bytes>)
    requires lines != [] && AllClean(lines) && At(data, p, Frame(lines))
    ensures BlankLine(data, p) == Some(p + |Rows(lines)| - 1)
    decreases |lines|
  {
    hide BlankLine, At, Rows, Frame;
    var line, rest := lines[0], lines[1..];
    FramePeeled(lines);
    RowAt(data, p, line, Frame(rest));
    var q := p + |line| + 1;
    assert q < |data| by { InBounds(data, q, Frame(rest)); }
    if rest == [] {
      assert |Rows(rest)| == 0 by { NoRows(); }
      BlankLineIs(data, p, q - 1);
    } else {
      FrameFound(data, q, rest);
      SkipRow(data, p, q, q + |Rows(rest)| - 1);
    }
  }

  lemma NoRows()
    ensures Rows([]) == []
  {
  }

  lemma InBounds(data: Bytes, p: nat, s: Bytes)
    requires At(data, p, s) && s != []
    ensures p < |data|
  {
  }

  lemma IndexIs(s: Bytes, c: byte, p: nat, k: nat)
    requires p <= k <= |s| && (k < |s| ==> s[k] == c)
    requires forall i :: p <= i < k ==> s[i] != c
    ensures IndexOf(s, c, p) == k
  {
  }

  lemma FirstLine(block: Bytes, p: nat, line: Bytes, rest: Bytes)
    requires Clean(line) && p + |line| + 1 + |rest| == |block| + 1
    requires At(block + "\n", p, line + "\n" + rest)
    ensures var k := p + |line|;
            k <= |block| && IndexOf(block, '\n', p) == k && block[p..k] == line && At(block + "\n", k + 1, rest)
  {
    var data, k := block + "\n", p + |line|;
    AtSplit(data, p, line + "\n", rest);
    AtSplit(data, p, line, "\n");
    assert block[p..k] == data[p..k];
    assert forall i :: p <= i < k ==> block[i] == line[i - p];
    assert data[k] == data[k..k + 1][0] == '\n';
    assert k < |block| ==> block[k] == data[k];
    IndexIs(block, '\n', p, k);
  }

  lemma {:induction false} RowsSplit(block: Bytes, p: nat, lines: seq<Bytes>)
    requires lines != [] && AllClean(lines)
    requires p + |Rows(lines)| == |block| + 1 && At(block + "\n", p, Rows(lines))
    ensures p <= |block| && LinesFrom(block, p) == lines
    decreases |lines|
  {
    var line, rest := lines[0], lines[1..];
    FirstLine(block, p, line, Rows(rest));
    if rest == [] {
      assert block[p..] == block[p..p + |line|];
      assert lines == [line];
    } else {
      RowsEnd(rest);
      RowsSplit(block, p + |line| + 1, rest);
    }
  }

  lemma BlockOf(lines: seq<Bytes>, rest: Bytes)
    requires lines != [] && AllClean(lines)
    ensures |Frame(lines)| >= 2
    ensures LinesFrom((Frame(lines) + rest)[..|Frame(lines)| - 2], 0) == lines
  {
    RowsEnd(lines);
    var rows := Rows(lines);
    var block := (Frame(lines) + rest)[..|Frame(lines)| - 2];
    assert block == rows[..|rows| - 1];
    assert block + "\n" == rows;
    assert rows[0..|rows|] == rows;
    RowsSplit(block, 0, lines);
  }

  /** A framed list of clean lines decodes to its meaning, whatever follows, and takes exactly the frame. */
  lemma {:induction false} FrameDecodes(lines: seq<Bytes>, rest: Bytes)
    requires lines != [] && AllClean(lines)
    ensures |Frame(lines)| >= 2 && BlankLine(Frame(lines) + rest, 0) == Some(|Frame(lines)| - 2)
    ensures Decode(Frame(lines) + rest) ==
            if BlockMeaning(lines).Some? then Some(Decoded(BlockMeaning(lines).value, |Frame(lines)|)) else None
  {
    hide BlankLine, LinesFrom, BlockMeaning, Rows, Clean;
    var data := Frame(lines) + rest;
    assert data[0..|Frame(lines)|] == Frame(lines);
    FrameFound(data, 0, lines);
    BlockOf(lines, rest);
  }

  lemma {:induction false} RowsEnd(lines: seq<Bytes>)
    requires lines != []
    ensures Rows(lines) != [] && Rows(lines)[|Rows(lines)| - 1] == '\n'
  {
    if |lines| > 1 {
      RowsEnd(lines[1..]);
    }
  }

  lemma {:induction false} LinesRebuild(block: Bytes, p: nat)
    requires p <= |block|
    ensures Rows(LinesFrom(block, p)) == block[p..] + "\n"
    decreases |block| - p
  {
    var k := IndexOf(block, '\n', p);
    var lines := LinesFrom(block, p);
    if k < |block| {
      LinesRebuild(block, k + 1);
      assert lines[1..] == LinesFrom(block, k + 1);
      assert block[p..] == block[p..k] + "\n" + block[k + 1..];
    }
  }

  // ---------------------------------------------------------------- round trip

  function Field(key: Bytes, value: Bytes): Bytes { key + "=" + value }

  function HeaderLines(h: Header): seq<Bytes> {
    [MAGIC, Field("name", Sanitized(h.name)), Field("size", Printed(h.size)), Field("hash", Lower(h.sha256))]
  }

  /** The header a peer reads when `h` is sent. */
  function OnWire(h: Header): Header { Header(Sanitized(h.name), h.size, Lower(h.sha256)) }

  lemma {:induction false} FrameOfFour(a: Bytes, b: Bytes, c: Bytes, d: Bytes)
    ensures Frame([a, b, c, d]) == a + "\n" + (b + "\n") + (c + "\n") + (d + "\n") + "\n"
  {
    assert [a, b, c, d][1..] == [b, c, d] && [b, c, d][1..] == [c, d] && [c, d][1..] == [d] && [d][1..] == [];
    assert Rows([d]) == d + "\n";
    assert Rows([c, d]) == (c + "\n") + (d + "\n");
    assert Rows([b, c, d]) == (b + "\n") + ((c + "\n") + (d + "\n"));
  }

  lemma {:induction false} EncodeIsFrame(h: Header)
    ensures Encode(h) == Frame(HeaderLines(h))
  {
    var n, z, x := Sanitized(h.name), Printed(h.size), Lower(h.sha256);
    FrameOfFour(MAGIC, Field("name", n), Field("size", z), Field("hash", x));
    assert Field("name", n) == "name=" + n && Field("size", z) == "size=" + z && Field("hash", x) == "hash=" + x;
  }

  lemma FieldParts(key: Bytes, value: Bytes)
    requires forall i :: 0 <= i < |key| ==> key[i] != '='
    ensures HasKey(Field(key, value)) && Key(Field(key, value)) == key && Value(Field(key, value)) == value
  {
    IndexIs(Field(key, value), '=', 0, |key|);
  }

  lemma HeaderLinesClean(h: Header)
    requires IsSha256Hex(h.sha256)
    ensures AllClean(HeaderLines(h))
  {
    SanitizedIsCanonical(h.name);
    LowerKeepsHex(h.sha256);
    assert Clean(Field("name", Sanitized(h.name)));
    assert Clean(Field("size", Printed(h.size)));
    assert Clean(Field("hash", Lower(h.sha256)));
  }

  lemma FieldsLookup(n: Bytes, z: Bytes, x: Bytes)
    requires ParsedU64(z).Some? && IsSha256Hex(x)
    ensures var fields := [Field("name", n), Field("size", z), Field("hash", x)];
            FieldsMeaning(fields) == Some(Header(Sanitized(n), ParsedU64(z).value, Lower(x)))
  {
    FieldParts("name", n);
    FieldParts("size", z);
    FieldParts("hash", x);
    var fields := [Field("name", n), Field("size", z), Field("hash", x)];
    assert "name" != "size" && "size" != "hash" && "name" != "hash" by {
      assert "name"[0] == 'n' && "size"[0] == 's' && "hash"[0] == 'h';
    }
    LastValueFound(fields, 3, "name", 0);
    LastValueFound(fields, 3, "size", 1);
    LastValueFound(fields, 3, "hash", 2);
    assert AllOk(fields);
  }

  lemma HeaderLinesMean(h: Header)
    requires IsSha256Hex(h.sha256)
    ensures BlockMeaning(HeaderLines(h)) == Some(OnWire(h))
  {
    var n, z, x := Sanitized(h.name), Printed(h.size), Lower(h.sha256);
    ParsedPrinted(h.size);
    LowerKeepsHex(h.sha256);
    SanitizedFixesExactlyCanonical(h.name);
    FieldsLookup(n, z, x);
    HeaderLinesTail(h);
  }

  lemma HeaderLinesTail(h: Header)
    ensures HeaderLines(h) != [] && HeaderLines(h)[0] == MAGIC
    ensures HeaderLines(h)[1..] ==
            [Field("name", Sanitized(h.name)), Field("size", Printed(h.size)), Field("hash", Lower(h.sha256))]
  {
    hide Sanitized, Lower, Printed, Field;
  }

  /** Encoding then decoding gives back name, size and hash, consuming the encoding exactly and ignoring what
      follows. The encoder does not check the hash: the law holds for exactly the headers whose hash is valid. */
  lemma {:induction false} RoundTrip(h: Header, rest: Bytes)
    ensures Decode(Encode(h) + rest) == Some(Decoded(OnWire(h), |Encode(h)|)) <==> IsSha256Hex(h.sha256)
  {
    if IsSha256Hex(h.sha256) {
      EncodeIsFrame(h);
      HeaderLinesClean(h);
      HeaderLinesMean(h);
      FrameDecodes(HeaderLines(h), rest);
    } else if Decode(Encode(h) + rest) == Some(Decoded(OnWire(h), |Encode(h)|)) {
      DecodedIsCanonical(Encode(h) + rest);
      HexFromLower(h.sha256);
    }
  }

  lemma HexFromLower(text: Bytes)
    requires IsSha256Hex(Lower(text))
    ensures IsSha256Hex(text)
  {
    forall i | 0 <= i < |text| ensures IsHexDigit(text[i]) {
      assert IsHexDigit(Lower(text)[i]);
    }
  }

  /** Whatever was sent, a decoded header holds a canonical name and a valid lowercase hash. */
  lemma {:induction false} DecodedIsCanonical(data: Bytes)
    requires Decode(data).Some?
    ensures var h := Decode(data).value.header;
            Canonical(h.name) && IsSha256Hex(h.sha256) && OnWire(h) == h && Decode(data).value.consumed <= |data|
  {
    var h := Decode(data).value.header;
    var lines := LinesFrom(data[..BlankLine(data, 0).value], 0);
    var fields := lines[1..];
    NameNeverEmpty(fields);
    SanitizedFixesExactlyCanonical(h.name);
    var i := LastValueComesFrom(fields, |fields|, "hash");
    assert LineOk(fields[i]);
    LowerKeepsHex(Value(fields[i]));
  }

  /** Every decoded header is a fixed point of decode after encode. */
  lemma {:induction false} DecodedReencodes(data: Bytes, rest: Bytes)
    requires Decode(data).Some?
    ensures var h := Decode(data).value.header;
            Decode(Encode(h) + rest) == Some(Decoded(h, |Encode(h)|))
  {
    DecodedIsCanonical(data);
    RoundTrip(Decode(data).value.header, rest);
  }

  // ---------------------------------------------------------------- stability

  /** Once a blank line is present the verdict, good or bad, survives every extension of the data. */
  lemma {:induction false} DecodeStable(data: Bytes, more: Bytes)
    requires BlankLine(data, 0).Some?
    ensures Decode(data + more) == Decode(data) && BlankLine(data + more, 0) == BlankLine(data, 0)
  {
    var end := BlankLine(data, 0).value;
    forall i | 0 <= i <= end ensures BlankAt(data + more, i) == BlankAt(data, i) {
      assert (data + more)[i] == data[i] && (data + more)[i + 1] == data[i + 1];
    }
    BlankLineIs(data + more, 0, end);
    assert (data + more)[..end] == data[..end];
  }

  lemma {:induction false} DecodedStable(data: Bytes, more: Bytes)
    requires Decode(data).Some?
    ensures Decode(data + more) == Decode(data)
  {
    DecodeStable(data, more);
  }

  /** A header that has not fully arrived never decodes. */
  lemma {:induction false} StrictPrefixFails(h: Header, k: nat)
    requires IsSha256Hex(h.sha256) && k < |Encode(h)|
    ensures BlankLine(Encode(h)[..k], 0).None? && Decode(Encode(h)[..k]).None?
  {
    hide Encode, BlankLine, LinesFrom, BlockMeaning;
    var prefix := Encode(h)[..k];
    EncodedEnds(h);
    assert prefix + Encode(h)[k..] == Encode(h);
    if BlankLine(prefix, 0).Some? {
      DecodeStable(prefix, Encode(h)[k..]);
    }
  }

  lemma EncodedEnds(h: Header)
    requires IsSha256Hex(h.sha256)
    ensures |Encode(h)| >= 2 && BlankLine(Encode(h), 0) == Some(|Encode(h)| - 2)
    ensures Decode(Encode(h)) == Some(Decoded(OnWire(h), |Encode(h)|))
  {
    EncodeIsFrame(h);
    HeaderLinesClean(h);
    FrameDecodes(HeaderLines(h), []);
    RoundTrip(h, []);
    assert Encode(h) + [] == Encode(h);
  }

  /** A header whose beginning was lost never decodes either: its first line can only be the magic line,
      and the slash of the magic line occurs nowhere else in an encoded header. */
  lemma {:induction false} LostBeginningFails(h: Header, k: nat, m: nat)
    requires IsSha256Hex(h.sha256) && 0 < k <= m <= |Encode(h)|
    ensures Decode(Encode(h)[k..m]).None?
  {
    var part := Encode(h)[k..m];
    if Decode(part).Some? {
      var end := BlankLine(part, 0).value;
      MagicFirst(part[..end]);
      assert part[..end][3] == part[3] == Encode(h)[k + 3];
      OneSlash(h, k + 3);
    }
  }

  lemma MagicFirst(block: Bytes)
    requires LinesFrom(block, 0)[0] == MAGIC
    ensures |block| > 3 && block[3] == '/'
  {
    var k := IndexOf(block, '\n', 0);
    assert LinesFrom(block, 0)[0] == block[0..k];
    assert block[3] == block[0..k][3];
  }

  predicate NoSlash(s: Bytes) { forall i :: 0 <= i < |s| ==> s[i] != '/' }

  lemma OneSlash(h: Header, i: nat)
    requires IsSha256Hex(h.sha256) && i < |Encode(h)| && Encode(h)[i] == '/'
    ensures i == 3
  {
    hide NoSlash, Sanitized, Printed, Lower;
    NameNoSlash(h.name);
    SizeNoSlash(h.size);
    HashNoSlash(h.sha256);
    SlashInHead(MAGIC + "\n", "name=" + Sanitized(h.name) + "\n", "size=" + Printed(h.size) + "\n",
                "hash=" + Lower(h.sha256) + "\n", i);
  }

  lemma NameNoSlash(name: Bytes)
    ensures NoSlash("name=" + Sanitized(name) + "\n")
  {
    SanitizedIsCanonical(name);
  }

  lemma SizeNoSlash(size: nat)
    ensures NoSlash("size=" + Printed(size) + "\n")
  {
  }

  lemma HashNoSlash(text: Bytes)
    requires IsSha256Hex(text)
    ensures NoSlash("hash=" + Lower(text) + "\n")
  {
    LowerKeepsHex(text);
  }

  lemma SlashInHead(head: Bytes, a: Bytes, b: Bytes, c: Bytes, i: nat)
    requires NoSlash(a) && NoSlash(b) && NoSlash(c)
    requires i < |head + a + b + c + "\n"| && (head + a + b + c + "\n")[i] == '/'
    ensures i < |head| && head[i] == '/'
  {
  }

  // ---------------------------------------------------------------- blocks seen from the other side

  /** Any data with a blank line is a frame of newline-free lines followed by the rest, and after the first
      line none of them is empty: the scanner's test for empty lines never matters. */
  lemma {:induction false} BlankLineFrames(data: Bytes)
    requires BlankLine(data, 0).Some?
    ensures var end := BlankLine(data, 0).value;
            var lines := LinesFrom(data[..end], 0);
            && data == Frame(lines) + data[end + 2..]
            && forall i :: 0 < i < |lines| ==> Clean(lines[i])
  {
    var end := BlankLine(data, 0).value;
    var block := data[..end];
    var lines := LinesFrom(block, 0);
    LinesRebuild(block, 0);
    assert Rows(lines) == block + "\n";
    assert data == block + "\n" + "\n" + data[end + 2..];
    assert forall i :: 0 <= i < end ==> block[i] == data[i];
    var k := IndexOf(block, '\n', 0);
    if k < |block| {
      LaterLinesClean(data, end, k + 1);
    }
  }

  lemma {:induction false} LaterLinesClean(data: Bytes, end: nat, p: nat)
    requires 0 < p <= end && BlankLine(data, 0) == Some(end) && data[p - 1] == '\n'
    ensures AllClean(LinesFrom(data[..end], p))
    decreases end - p
  {
    var block := data[..end];
    var k := IndexOf(block, '\n', p);
    assert !BlankAt(data, p - 1);
    assert p < end ==> block[p] == data[p];
    assert forall i :: p <= i < k ==> block[p..k][i - p] == block[i];
    assert Clean(block[p..k]);
    if k < end {
      LaterLinesClean(data, end, k + 1);
    } else {
      assert block[p..] == block[p..k];
    }
  }

  // ---------------------------------------------------------------- forward compatibility

  predicate UnknownKey(line: Bytes) {
    HasKey(line) && Key(line) != "name" && Key(line) != "size" && Key(line) != "hash"
  }

  lemma {:induction false} RowsConcat(a: seq<Bytes>, b: seq<Bytes>)
    ensures Rows(a + b) == Rows(a) + Rows(b)
  {
    if a == [] {
      assert a + b == b;
    } else {
      RowsConcat(a[1..], b);
      assert (a + b)[1..] == a[1..] + b;
    }
  }

  /** Inserting lines that do not define `key` does not change its value. */
  lemma {:induction false} LastValueIgnores(a: seq<Bytes>, extra: seq<Bytes>, b: seq<Bytes>, n: nat, key: Bytes)
    requires forall i :: 0 <= i < |extra| ==> !Defines(extra[i], key)
    requires n <= |b|
    ensures LastValue(a + extra + b, |a| + |extra| + n, key) == LastValue(a + b, |a| + n, key)
    decreases n, |extra|
  {
    var longer := a + extra + b;
    if n > 0 {
      assert longer[|a| + |extra| + n - 1] == b[n - 1] == (a + b)[|a| + n - 1];
      LastValueIgnores(a, extra, b, n - 1, key);
    } else if extra != [] {
      var last := |extra| - 1;
      assert longer[|a| + last] == extra[last];
      LastValueIgnores(a, extra[..last], [extra[last]] + b, 0, key);
      assert a + extra[..last] + ([extra[last]] + b) == longer;
      LastValuePrefix(a + b, a + ([extra[last]] + b), |a|, key);
    } else {
      assert longer == a + b;
    }
  }

  lemma {:induction false} LastValuePrefix(x: seq<Bytes>, y: seq<Bytes>, n: nat, key: Bytes)
    requires n <= |x| && n <= |y| && x[..n] == y[..n]
    ensures LastValue(x, n, key) == LastValue(y, n, key)
  {
    if n > 0 {
      assert x[n - 1] == x[..n][n - 1] == y[..n][n - 1] == y[n - 1];
      assert x[..n - 1] == x[..n][..n - 1] == y[..n][..n - 1] == y[..n - 1];
      LastValuePrefix(x, y, n - 1, key);
    }
  }

  lemma FieldsIgnoreUnknown(a: seq<Bytes>, extra: seq<Bytes>, b: seq<Bytes>)
    requires forall i :: 0 <= i < |extra| ==> UnknownKey(extra[i])
    ensures FieldsMeaning(a + extra + b) == FieldsMeaning(a + b)
  {
    hide LastValue, AllOk, UnknownKey, Sanitized, ParsedU64, Lower;
    UnknownDefinesNothing(extra);
    LastValueIgnores(a, extra, b, |b|, "name");
    LastValueIgnores(a, extra, b, |b|, "size");
    LastValueIgnores(a, extra, b, |b|, "hash");
    UnknownChangesNoVerdict(a, extra, b);
  }

  lemma UnknownDefinesNothing(extra: seq<Bytes>)
    requires forall i :: 0 <= i < |extra| ==> UnknownKey(extra[i])
    ensures forall i :: 0 <= i < |extra| ==>
              !Defines(extra[i], "name") && !Defines(extra[i], "size") && !Defines(extra[i], "hash")
  {
  }

  lemma UnknownChangesNoVerdict(a: seq<Bytes>, extra: seq<Bytes>, b: seq<Bytes>)
    requires forall i :: 0 <= i < |extra| ==> UnknownKey(extra[i])
    ensures AllOk(a + extra + b) <==> AllOk(a + b)
  {
    hide LineOk;
    UnknownIsOk(extra);
    AllOkConcat(a, b);
    AllOkConcat(a, extra);
    AllOkConcat(a + extra, b);
  }

  lemma UnknownIsOk(extra: seq<Bytes>)
    requires forall i :: 0 <= i < |extra| ==> UnknownKey(extra[i])
    ensures forall i :: 0 <= i < |extra| ==> LineOk(extra[i])
  {
  }

  lemma AllOkConcat(a: seq<Bytes>, b: seq<Bytes>)
    ensures AllOk(a + b) <==> AllOk(a) && AllOk(b)
  {
    assert forall i :: 0 <= i < |b| ==> (a + b)[|a| + i] == b[i];
    assert forall i :: 0 <= i < |a| ==> (a + b)[i] == a[i];
  }

  /** Lines with unknown keys may stand anywhere after the magic line: the verdict and the header stay the same
      and the consumed count grows by exactly the inserted bytes. */
  lemma {:induction false} UnknownLinesIgnored(a: seq<Bytes>, extra: seq<Bytes>, b: seq<Bytes>, rest: Bytes)
    requires a != [] && AllClean(a) && AllClean(extra) && AllClean(b)
    requires forall i :: 0 <= i < |extra| ==> UnknownKey(extra[i])
    ensures var before, after := Decode(Frame(a + b) + rest), Decode(Frame(a + extra + b) + rest);
            && (before.None? <==> after.None?)
            && (before.Some? ==>
                 && after.value.header == before.value.header
                 && after.value.consumed == before.value.consumed + |Rows(extra)|)
  {
    hide Decode, BlankLine, FieldsMeaning, Rows, Clean;
    FrameDecodes(a + b, rest);
    FrameDecodes(a + extra + b, rest);
    FieldsIgnoreUnknown(a[1..], extra, b);
    assert (a + b)[1..] == a[1..] + b && (a + extra + b)[1..] == a[1..] + extra + b;
    FrameGrows(a, extra, b);
  }

  lemma FrameGrows(a: seq<Bytes>, extra: seq<Bytes>, b: seq<Bytes>)
    ensures |Frame(a + extra + b)| == |Frame(a + b)| + |Rows(extra)|
  {
    RowsConcat(a, b);
    RowsConcat(a, extra);
    RowsConcat(a + extra, b);
  }

  /** No two lines define the same known key. */
  predicate DistinctFields(fields: seq<Bytes>) {
    forall i, j :: 0 <= i < j < |fields| && HasKey(fields[i]) && HasKey(fields[j]) ==>
      Key(fields[i]) != Key(fields[j]) || UnknownKey(fields[i])
  }

  lemma LastValueUnordered(x: seq<Bytes>, y: seq<Bytes>, key: Bytes)
    requires DistinctFields(x) && multiset(x) == multiset(y)
    requires key == "name" || key == "size" || key == "hash"
    ensures LastValue(x, |x|, key) == LastValue(y, |y|, key)
  {
    assert forall l :: l in x <==> l in multiset(x);
    assert forall l :: l in y <==> l in multiset(y);
    if LastValue(y, |y|, key).Some? {
      var j := LastValueComesFrom(y, |y|, key);
      assert y[j] in x;
      var i :| 0 <= i < |x| && x[i] == y[j];
      LastValueFound(x, |x|, key, i);
    } else if LastValue(x, |x|, key).Some? {
      var i := LastValueComesFrom(x, |x|, key);
      assert x[i] in y;
      var j :| 0 <= j < |y| && y[j] == x[i];
      DefinedHasValue(y, |y|, key, j);
    }
  }

  lemma {:induction false} DefinedHasValue(lines: seq<Bytes>, n: nat, key: Bytes, i: nat)
    requires i < n <= |lines| && Defines(lines[i], key)
    ensures LastValue(lines, n, key).Some?
  {
    if i < n - 1 {
      DefinedHasValue(lines, n - 1, key, i);
    }
  }

  /** Taking out a line takes out its room. */
  lemma RowsWithout(lines: seq<Bytes>, j: nat)
    requires j < |lines|
    ensures |Rows(lines)| == |lines[j]| + 1 + |Rows(lines[..j] + lines[j + 1..])|
  {
    hide Rows;
    var front, back := lines[..j], lines[j + 1..];
    assert lines == front + ([lines[j]] + back);
    RowsConcat(front, [lines[j]] + back);
    RowsConcat([lines[j]], back);
    RowsConcat(front, back);
    assert Rows([lines[j]]) == lines[j] + "\n" by { OneRow(lines[j]); }
  }

  lemma OneRow(line: Bytes)
    ensures Rows([line]) == line + "\n"
  {
    assert [line][1..] == [];
  }

  /** The same lines in another order take the same room. */
  lemma {:induction false} RowsUnordered(x: seq<Bytes>, y: seq<Bytes>)
    requires multiset(x) == multiset(y)
    ensures |Rows(x)| == |Rows(y)|
    decreases |x|
  {
    if x == [] {
      assert y == [] by { assert |multiset(y)| == 0; }
    } else {
      hide Rows;
      var j := Counterpart(x, y);
      RowsUnordered(x[1..], y[..j] + y[j + 1..]);
      RowsWithout(y, j);
      RowsWithout(x, 0);
      assert x[..0] + x[1..] == x[1..];
    }
  }

  /** Where the first of x stands in y, and what is left without it. */
  lemma Counterpart(x: seq<Bytes>, y: seq<Bytes>) returns (j: nat)
    requires x != [] && multiset(x) == multiset(y)
    ensures j < |y| && y[j] == x[0] && multiset(y[..j] + y[j + 1..]) == multiset(x[1..])
  {
    assert x[0] in multiset(y);
    j :| 0 <= j < |y| && y[j] == x[0];
    assert y == y[..j] + ([y[j]] + y[j + 1..]);
    assert x == [x[0]] + x[1..];
    assert multiset(y[..j] + y[j + 1..]) == multiset(y) - multiset{x[0]} == multiset(x[1..]);
  }

  /** Distinct fields may come in any order: same verdict, same header, same consumed count. */
  lemma {:induction false} FieldOrderIrrelevant(x: seq<Bytes>, y: seq<Bytes>, rest: Bytes)
    requires DistinctFields(x) && multiset(x) == multiset(y) && AllClean(x) && AllClean(y)
    ensures var dx, dy := Decode(Frame([MAGIC] + x) + rest), Decode(Frame([MAGIC] + y) + rest);
            && (dx.None? <==> dy.None?)
            && (dx.Some? ==> dx.value == dy.value)
  {
    hide Decode, BlankLine, FieldsMeaning, Rows, DistinctFields;
    assert Clean(MAGIC);
    RowsUnordered(x, y);
    RowsConcat([MAGIC], x);
    RowsConcat([MAGIC], y);
    FrameDecodes([MAGIC] + x, rest);
    FrameDecodes([MAGIC] + y, rest);
    assert ([MAGIC] + x)[1..] == x && ([MAGIC] + y)[1..] == y;
    FieldsUnordered(x, y);
  }

  lemma FieldsUnordered(x: seq<Bytes>, y: seq<Bytes>)
    requires DistinctFields(x) && multiset(x) == multiset(y)
    ensures FieldsMeaning(x) == FieldsMeaning(y)
  {
    LastValueUnordered(x, y, "name");
    LastValueUnordered(x, y, "size");
    LastValueUnordered(x, y, "hash");
    assert forall l :: l in x <==> l in multiset(x);
    assert forall l :: l in y <==> l in multiset(y);
    assert AllOk(x) <==> (forall l :: l in x ==> LineOk(l));
    assert AllOk(y) <==> (forall l :: l in y ==> LineOk(l));
  }
}
