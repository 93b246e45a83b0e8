/** The LFT/1 header: encoder, scanning decoder, and the grammar the decoder implements
    (src/transfer/quic_transfer.cpp). */
module HeaderCodec {
  import opened ByteStrings
  import opened FileNames
  import opened Decimals
  import opened Digests

  const MAGIC: Bytes := "LFT/1"
  const MAX_HEADER_BYTES := 65536

  datatype Header = Header(name: Bytes, size: u64, sha256: Bytes)

  /** A successful decode: the header, and how many bytes it took with its blank line. */
  datatype Decoded = Decoded(header: Header, consumed: nat)

  // ---------------------------------------------------------------- grammar

  predicate BlankAt(data: Bytes, i: int) { 0 <= i && i + 2 <= |data| && data[i] == '\n' && data[i + 1] == '\n' }

  /** data.find("\n\n", pos) */
  function BlankLine(data: Bytes, pos: nat): (r: Option<nat>)
    ensures r.Some? ==> pos <= r.value && BlankAt(data, r.value) && forall i :: pos <= i < r.value ==> !BlankAt(data, i)
    ensures r.None? ==> forall i :: pos <= i ==> !BlankAt(data, i)
    decreases |data| - pos
  {
    if pos + 2 > |data| then None
    else if BlankAt(data, pos) then Some(pos)
    else BlankLine(data, pos + 1)
  }

  /** block[pos..] split at every newline. */
  function LinesFrom(block: Bytes, pos: nat): (lines: seq<Bytes>)
    requires pos <= |block|
    ensures lines != []
    decreases |block| - pos
  {
    var k := IndexOf(block, '\n', pos);
    if k == |block| then [block[pos..]] else [block[pos..k]] + LinesFrom(block, k + 1)
  }

  predicate HasKey(line: Bytes) { IndexOf(line, '=', 0) < |line| }

  function Key(line: Bytes): Bytes { line[..IndexOf(line, '=', 0)] }

  function Value(line: Bytes): Bytes
    requires HasKey(line)
  {
    line[IndexOf(line, '=', 0) + 1..]
  }

  predicate Defines(line: Bytes, key: Bytes) { HasKey(line) && Key(line) == key }

  /** One invalid occurrence of a known key spoils the whole header. */
  predicate LineOk(line: Bytes) {
    line == [] ||
    (&& HasKey(line)
     && (Key(line) == "size" ==> ParsedU64(Value(line)).Some?)
     && (Key(line) == "hash" ==> IsSha256Hex(Value(line))))
  }

  predicate AllOk(fields: seq<Bytes>) { forall i :: 0 <= i < |fields| ==> LineOk(fields[i]) }

  /** The value of the last of the first n lines that defines `key`. */
  function LastValue(lines: seq<Bytes>, n: nat, key: Bytes): Option<Bytes>
    requires n <= |lines|
  {
    if n == 0 then None
    else if Defines(lines[n - 1], key) then Some(Value(lines[n - 1]))
    else LastValue(lines, n - 1, key)
  }

  /** What the field lines after the magic line mean. */
  function FieldsMeaning(fields: seq<Bytes>): Option<Header> {
    var name := LastValue(fields, |fields|, "name");
    var size := LastValue(fields, |fields|, "size");
    var hash := LastValue(fields, |fields|, "hash");
    if AllOk(fields) && name.Some? && size.Some? && hash.Some? &&
       ParsedU64(size.value).Some?
    then Some(Header(Sanitized(name.value), ParsedU64(size.value).value, Lower(hash.value)))
    else None
  }

  function BlockMeaning(lines: seq<Bytes>): Option<Header>
    requires lines != []
  {
    if lines[0] == MAGIC then FieldsMeaning(lines[1..]) else None
  }

  /** The reference decoder: everything before the first blank line, split into lines. */
  function Decode(data: Bytes): Option<Decoded> {
    var end := BlankLine(data, 0);
    if end.None? then None else
    var header := BlockMeaning(LinesFrom(data[..end.value], 0));
    if header.None? then None else Some(Decoded(header.value, end.value + 2))
  }

  lemma {:induction false} LastValueComesFrom(lines: seq<Bytes>, n: nat, key: Bytes) returns (i: nat)
    requires n <= |lines| && LastValue(lines, n, key).Some?
    ensures i < n && Defines(lines[i], key) && LastValue(lines, n, key) == Some(Value(lines[i]))
    ensures forall k :: i < k < n ==> !Defines(lines[k], key)
  {
    if Defines(lines[n - 1], key) { i := n - 1; } else { i := LastValueComesFrom(lines, n - 1, key); }
  }

  lemma {:induction false} LastValueFound(lines: seq<Bytes>, n: nat, key: Bytes, i: nat)
    requires i < n <= |lines| && Defines(lines[i], key)
    requires forall k :: i < k < n ==> !Defines(lines[k], key)
    ensures LastValue(lines, n, key) == Some(Value(lines[i]))
  {
    if i < n - 1 {
      LastValueFound(lines, n - 1, key, i);
    }
  }

  /** encode_file_header. The hash is lowercased but not checked. */
  function Encode(h: Header): Bytes {
    MAGIC + "\n" +
    ("name=" + Sanitized(h.name) + "\n") +
    ("size=" + Printed(h.size) + "\n") +
    ("hash=" + Lower(h.sha256) + "\n") +
    "\n"
  }

  // ---------------------------------------------------------------- scanner

  /** The find/pos loop of decode_file_header computes exactly the grammar. */
  method DecodeFileHeader(data: Bytes) returns (ok: bool, header: Header, headerBytes: nat)
    ensures ok <==> Decode(data).Some?
    ensures ok ==> Decode(data) == Some(Decoded(header, headerBytes))
  {
    header, headerBytes := Header([], 0, []), 0;
    var end := BlankLine(data, 0);
    if end.None? {
      return false, header, headerBytes;
    }
    var block := data[..end.value];
    ok, header := ScanBlock(block);
    headerBytes := end.value + 2;
  }

  /** What the scanner knows after the magic line and the first n field lines. */
  ghost predicate Scanned(fields: seq<Bytes>, n: nat, header: Header, hasName: bool, hasSize: bool, hasHash: bool)
    requires n <= |fields|
  {
    && (forall i :: 0 <= i < n ==> LineOk(fields[i]))
    && var name, size, hash := LastValue(fields, n, "name"), LastValue(fields, n, "size"), LastValue(fields, n, "hash");
    && hasName == name.Some? && (hasName ==> header.name == Sanitized(name.value))
    && hasSize == size.Some? && (hasSize ==> ParsedU64(size.value) == Some(header.size))
    && hasHash == hash.Some? && (hasHash ==> header.sha256 == Lower(hash.value))
  }

  method ScanBlock(block: Bytes) returns (ok: bool, header: Header)
    ensures ok <==> BlockMeaning(LinesFrom(block, 0)).Some?
    ensures ok ==> BlockMeaning(LinesFrom(block, 0)) == Some(header)
  {
    hide LineOk, Sanitized, ParsedU64, IsSha256Hex, Lower, Canonical;
    header := Header([], 0, []);
    var hasName, hasSize, hasHash := false, false, false;
    var pos: nat := 0;
    var lineEnd := IndexOf(block, '\n', pos);
    if block[..lineEnd] != MAGIC {
      return false, header;
    }
    ghost var lines := LinesFrom(block, 0);
    ghost var n := 0;
    while lineEnd < |block|
      invariant pos <= lineEnd <= |block| && lineEnd == IndexOf(block, '\n', pos)
      invariant n < |lines| && lines[n..] == LinesFrom(block, pos)
      invariant Scanned(lines[1..], n, header, hasName, hasSize, hasHash)
      decreases |block| - lineEnd
    {
      pos := lineEnd + 1;
      assert lines[n + 1..] == lines[n..][1..];
      lineEnd := IndexOf(block, '\n', pos);
      var line := block[pos..lineEnd];
      assert lines[1..][n] == lines[n + 1..][0] == line;
      ok, header, hasName, hasSize, hasHash := ScanLine(lines[1..], n, line, header, hasName, hasSize, hasHash);
      if !ok {
        return;
      }
      n := n + 1;
    }
    assert lines[n..] == [lines[n]];
    assert n == |lines[1..]|;
    ok := hasName && hasSize && hasHash && header.name != [];
    NameNeverEmpty(lines[1..]);
  }

  /** The loop body: one field line. */
  method ScanLine(ghost fields: seq<Bytes>, ghost n: nat, line: Bytes, header: Header,
                  hasName: bool, hasSize: bool, hasHash: bool)
    returns (ok: bool, header': Header, hasName': bool, hasSize': bool, hasHash': bool)
    requires n < |fields| && fields[n] == line && Scanned(fields, n, header, hasName, hasSize, hasHash)
    ensures ok <==> LineOk(line)
    ensures ok ==> Scanned(fields, n + 1, header', hasName', hasSize', hasHash')
  {
    header', hasName', hasSize', hasHash' := header, hasName, hasSize, hasHash;
    ok := true;
    if line != [] {
      var eq := IndexOf(line, '=', 0);
      if eq == |line| {
        return false, header, hasName, hasSize, hasHash;
      }
      var key, value := line[..eq], line[eq + 1..];
      if key == "name" {
        var name := SanitizeFileName(value);
        header', hasName' := header.(name := name), true;
      } else if key == "size" {
        var size := ParseFullU64(value);
        if size.None? {
          return false, header, hasName, hasSize, hasHash;
        }
        header', hasSize' := header.(size := size.value), true;
      } else if key == "hash" {
        if !IsSha256Hex(value) {
          return false, header, hasName, hasSize, hasHash;
        }
        header', hasHash' := header.(sha256 := Lower(value)), true;
      }
    }
  }

  /** The final emptiness test on the name never decides anything. */
  lemma {:induction false} NameNeverEmpty(fields: seq<Bytes>)
    ensures FieldsMeaning(fields).Some? ==> Canonical(FieldsMeaning(fields).value.name)
    ensures var name := LastValue(fields, |fields|, "name"); name.Some? ==> Sanitized(name.value) != []
  {
    var name := LastValue(fields, |fields|, "name");
    if name.Some? {
      SanitizedIsCanonical(name.value);
    }
  }
}
