/** The format said in characters and numbers: which bytes are a header, what it holds, and what goes over the wire. */
module WireFormat {
  import opened ByteStrings
  import opened FileNames
  import opened Decimals
  import opened Digests
  import opened HeaderCodec
  import opened HeaderTheorems
  import R = Receiver
  import S = Sender

  // ---------------------------------------------------------------- what is written

  /** An encoded header, and the four answers. */
  lemma {:induction false} WireText(h: Header)
    ensures Encode(h) ==
            "LFT/1\nname=" + Sanitized(h.name) + "\nsize=" + Printed(h.size) + "\nhash=" + Lower(h.sha256) + "\n\n"
    ensures R.Text(R.ACCEPT) == "ACCEPT\n" && R.Text(R.REJECT) == "REJECT\n"
    ensures R.Text(R.OK) == "OK\n" && R.Text(R.FAIL) == "FAIL\n"
  {
    var n, z, x := Sanitized(h.name), Printed(h.size), Lower(h.sha256);
    FiveParts("LFT/1", "\n", "name=", n, "size=", z, "hash=", x);
    assert "LFT/1" + "\n" + "name=" == "LFT/1\nname=";
    assert "\n" + "size=" == "\nsize=" && "\n" + "hash=" == "\nhash=" && "\n" + "\n" == "\n\n";
  }

  lemma FiveParts(m: Bytes, e: Bytes, a: Bytes, n: Bytes, b: Bytes, z: Bytes, c: Bytes, x: Bytes)
    ensures m + e + (a + n + e) + (b + z + e) + (c + x + e) + e == (m + e + a) + n + (e + b) + z + (e + c) + x + (e + e)
  {
  }

  /** The limits by number. */
  lemma Limits()
    ensures MAX_HEADER_BYTES == 65536 && S.FILE_CHUNK == 65536 && DIGEST_BYTES == 32
    ensures TWO_POW_64 == 18446744073709551616
  {
  }

  /** Hex digits by character: sixteen, of which six come in two cases. */
  lemma HexByCharacter(c: byte)
    ensures IsHexDigit(c) <==> c in "0123456789abcdefABCDEF"
    ensures LowerChar(c) == if 65 <= c as int <= 90 then (c as int + 32) as char else c
    ensures forall d | 0 <= d < 16 :: HexChar(d) == "0123456789abcdef"[d]
    ensures IsHexDigit(c) ==> "0123456789abcdef"[HexValue(c)] == LowerChar(c)
  {
  }

  /** A hash field: 64 of them. */
  lemma DigestByCharacter(text: Bytes)
    ensures IsSha256Hex(text) <==>
              |text| == 64 && forall i :: 0 <= i < |text| ==> text[i] in "0123456789abcdefABCDEF"
  {
    forall i | 0 <= i < |text| ensures IsHexDigit(text[i]) <==> text[i] in "0123456789abcdefABCDEF" {
      HexByCharacter(text[i]);
    }
  }

  predicate Decimal(text: Bytes) { text != [] && forall i :: 0 <= i < |text| ==> text[i] in "0123456789" }

  lemma DigitsByCharacter(text: Bytes)
    ensures AllDigits(text) <==> forall i :: 0 <= i < |text| ==> text[i] in "0123456789"
    ensures forall i :: 0 <= i < |text| && IsDigit(text[i]) ==> "0123456789"[DigitValue(text[i])] == text[i]
  {
    forall i | 0 <= i < |text| ensures IsDigit(text[i]) <==> text[i] in "0123456789" {
      DigitByCharacter(text[i]);
    }
  }

  lemma DigitByCharacter(c: byte)
    ensures IsDigit(c) <==> c in "0123456789"
  {
  }

  /** A size field: decimal digits, leading zeros included, below two to the sixty-fourth; one digit more is worth ten
      times as much and that digit. */
  lemma {:induction false} NumberByCharacter(text: Bytes, c: byte)
    ensures ParsedU64(text).Some? ==> Decimal(text)
    ensures Decimal(text) && c in "0123456789" ==>
              var more := NumberValue(text + [c], |text| + 1);
              && AllDigits(text) && more == 10 * NumberValue(text, |text|) + (c as int - 48)
              && (ParsedU64(text + [c]) == if more < 18446744073709551616 then Some(more) else None)
    ensures c in "0123456789" ==> ParsedU64([c]) == Some(c as int - 48)
  {
    DigitsByCharacter(text);
    DigitsByCharacter([c]);
    if c in "0123456789" {
      DigitByCharacter(c);
      assert AllDigits([c]) && NumberValue([c], 0) == 0;
    }
    if Decimal(text) && c in "0123456789" {
      var longer := text + [c];
      DigitsByCharacter(longer);
      ValuePrefix(longer, text, |text|);
    }
  }

  // ---------------------------------------------------------------- what is read

  /** A line that gives `key`: it begins with the key and an equals sign. */
  predicate Gives(line: Bytes, key: Bytes) { key + "=" <= line }

  lemma DefinesGives(line: Bytes, key: Bytes)
    requires Defines(line, key)
    ensures Gives(line, key)
  {
    var k := IndexOf(line, '=', 0);
    assert line[..k + 1] == key + "=";
  }

  lemma GivesIsDefines(line: Bytes, key: Bytes)
    requires '=' !in key
    ensures Gives(line, key) <==> Defines(line, key)
    ensures Gives(line, key) ==> Value(line) == line[|key| + 1..]
  {
    var k := IndexOf(line, '=', 0);
    if Gives(line, key) {
      assert line[|key|] == (key + "=")[|key|];
      assert forall i :: 0 <= i < |key| ==> line[i] == (key + "=")[i] == key[i];
      assert k == |key|;
      assert line[..k] == key;
    } else if Defines(line, key) {
      DefinesGives(line, key);
    }
  }

  /** The lines of a header, said without the scanner: the magic line; every other line has an equals sign; every size
      and every hash is valid, also one that is overruled later; and each of the three is given. */
  ghost predicate IsHeader(lines: seq<Bytes>) {
    && lines != [] && lines[0] == "LFT/1"
    && (forall i :: 0 < i < |lines| ==> '=' in lines[i])
    && (forall i :: 0 < i < |lines| && Gives(lines[i], "size") ==> ParsedU64(lines[i][5..]).Some?)
    && (forall i :: 0 < i < |lines| && Gives(lines[i], "hash") ==> IsSha256Hex(lines[i][5..]))
    && (exists i :: 0 < i < |lines| && Gives(lines[i], "name"))
    && (exists i :: 0 < i < |lines| && Gives(lines[i], "size"))
    && (exists i :: 0 < i < |lines| && Gives(lines[i], "hash"))
  }

  /** The last line that gives `key`. */
  ghost predicate LastGiven(lines: seq<Bytes>, key: Bytes, i: nat) {
    0 < i < |lines| && Gives(lines[i], key) && forall k :: i < k < |lines| ==> !Gives(lines[k], key)
  }

  lemma LineOkSaid(line: Bytes)
    requires line != []
    ensures LineOk(line) <==>
              && '=' in line && (Gives(line, "size") ==> ParsedU64(line[5..]).Some?)
              && (Gives(line, "hash") ==> IsSha256Hex(line[5..]))
  {
    hide ParsedU64, IsSha256Hex;
    GivesIsDefines(line, "size");
    GivesIsDefines(line, "hash");
    var k := IndexOf(line, '=', 0);
    assert '=' in line <==> k < |line|;
  }

  lemma {:induction false} GivenHasLast(lines: seq<Bytes>, n: nat, key: Bytes)
    requires n <= |lines| && '=' !in key
    ensures LastValue(lines, n, key).Some? <==> exists i :: 0 <= i < n && Gives(lines[i], key)
  {
    if n > 0 {
      GivenHasLast(lines, n - 1, key);
      GivesIsDefines(lines[n - 1], key);
    }
  }

  lemma FieldsSaid(lines: seq<Bytes>)
    requires lines != [] && forall i :: 0 < i < |lines| ==> lines[i] != []
    ensures BlockMeaning(lines).Some? <==> IsHeader(lines)
  {
    hide LineOk, LastValue, ParsedU64, IsSha256Hex, Sanitized, Lower;
    var fields := lines[1..];
    forall i | 0 < i < |lines|
      ensures fields[i - 1] == lines[i]
      ensures LineOk(lines[i]) <==>
                && '=' in lines[i] && (Gives(lines[i], "size") ==> ParsedU64(lines[i][5..]).Some?)
                && (Gives(lines[i], "hash") ==> IsSha256Hex(lines[i][5..]))
    {
      LineOkSaid(lines[i]);
    }
    KeyGiven(lines, "name");
    KeyGiven(lines, "size");
    KeyGiven(lines, "hash");
    if AllOk(fields) && LastValue(fields, |fields|, "size").Some? {
      SizesParse(fields);
    }
  }

  lemma KeyGiven(lines: seq<Bytes>, key: Bytes)
    requires lines != [] && '=' !in key
    ensures LastValue(lines[1..], |lines| - 1, key).Some? <==> exists i :: 0 < i < |lines| && Gives(lines[i], key)
  {
    hide Gives;
    var fields := lines[1..];
    GivenHasLast(fields, |fields|, key);
    assert forall i :: 0 <= i < |fields| ==> fields[i] == lines[i + 1];
    if i :| 0 < i < |lines| && Gives(lines[i], key) {
      assert fields[i - 1] == lines[i];
    }
  }

  lemma SizesParse(fields: seq<Bytes>)
    requires AllOk(fields) && LastValue(fields, |fields|, "size").Some?
    ensures ParsedU64(LastValue(fields, |fields|, "size").value).Some?
  {
    hide ParsedU64;
    var i := LastValueComesFrom(fields, |fields|, "size");
  }

  /** Which data decode, with nothing said of the scanner or its grammar: those with a blank line whose lines before it
      are those of a header. */
  lemma {:induction false} DecodesExactly(data: Bytes)
    ensures Decode(data).Some? <==>
              BlankLine(data, 0).Some? && IsHeader(LinesFrom(data[..BlankLine(data, 0).value], 0))
  {
    hide IsHeader, BlockMeaning, LinesFrom;
    if BlankLine(data, 0).Some? {
      BlankLineFrames(data);
      FieldsSaid(LinesFrom(data[..BlankLine(data, 0).value], 0));
    }
  }

  lemma LastGivenIs(lines: seq<Bytes>, key: Bytes, i: nat)
    requires LastGiven(lines, key, i) && '=' !in key
    ensures LastValue(lines[1..], |lines| - 1, key) == Some(lines[i][|key| + 1..])
  {
    hide Gives;
    var fields := lines[1..];
    forall k | 0 <= k < |fields| ensures Gives(fields[k], key) <==> Defines(fields[k], key) {
      GivesIsDefines(fields[k], key);
    }
    assert fields[i - 1] == lines[i];
    forall k | i - 1 < k < |fields| ensures !Defines(fields[k], key) {
      assert fields[k] == lines[k + 1];
    }
    LastValueFound(fields, |fields|, key, i - 1);
    GivesIsDefines(lines[i], key);
  }

  /** What they decode to: the last line that gives a field counts; the name is sanitized, the number read, the hash
      lowercased; and the header takes everything up to and with the blank line. */
  lemma {:induction false} DecodedFields(data: Bytes, n: nat, z: nat, x: nat)
    requires Decode(data).Some?
    requires var lines := LinesFrom(data[..BlankLine(data, 0).value], 0);
             LastGiven(lines, "name", n) && LastGiven(lines, "size", z) && LastGiven(lines, "hash", x)
    ensures var lines := LinesFrom(data[..BlankLine(data, 0).value], 0);
            var h := Decode(data).value.header;
            && h.name == Sanitized(lines[n][5..])
            && ParsedU64(lines[z][5..]) == Some(h.size)
            && h.sha256 == Lower(lines[x][5..])
            && Decode(data).value.consumed == BlankLine(data, 0).value + 2
  {
    hide LinesFrom, Sanitized, ParsedU64, Lower, AllOk, LastGiven, BlankLine;
    var lines := LinesFrom(data[..BlankLine(data, 0).value], 0);
    LastGivenIs(lines, "name", n);
    LastGivenIs(lines, "size", z);
    LastGivenIs(lines, "hash", x);
  }
}
