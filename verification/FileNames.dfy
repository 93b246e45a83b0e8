/** The file-name sanitizer (src/transfer/quic_transfer.cpp) and the output path built from its result. */
module FileNames {
  import opened ByteStrings

  const DEFAULT_NAME: Bytes := "received.bin"

  /** isspace in the "C" locale: the space and the codes 9 to 13. */
  predicate IsSpace(c: byte) { c == ' ' || '\t' <= c <= '\r' }

  predicate IsUnsafe(c: byte) { c < ' ' || c == '/' || c == '\\' }

  /** Where path::filename() starts in raw[..n]: just after the last '/'. */
  function BaseStart(raw: Bytes, n: nat): (k: nat)
    requires n <= |raw|
    ensures k <= n && (k > 0 ==> raw[k - 1] == '/')
    ensures forall i :: k <= i < n ==> raw[i] != '/'
  {
    if n == 0 || raw[n - 1] == '/' then n else BaseStart(raw, n - 1)
  }

  /** The first position from `i` on that is not white space. */
  function SkipSpace(s: Bytes, i: nat): (r: nat)
    requires i <= |s|
    ensures i <= r <= |s| && (r < |s| ==> !IsSpace(s[r]))
    ensures forall n :: i <= n < r ==> IsSpace(s[n])
    decreases |s| - i
  {
    if i == |s| || !IsSpace(s[i]) then i else SkipSpace(s, i + 1)
  }

  /** Where s[i..j] ends once its trailing white space is dropped. */
  function DropSpace(s: Bytes, i: nat, j: nat): (r: nat)
    requires i <= j <= |s|
    ensures i <= r <= j && (i < r ==> !IsSpace(s[r - 1]))
    ensures forall n :: r <= n < j ==> IsSpace(s[n])
    decreases j
  {
    if i == j || !IsSpace(s[j - 1]) then j else DropSpace(s, i, j - 1)
  }

  function Masked(s: Bytes): (r: Bytes)
    ensures |r| == |s|
    ensures forall i :: 0 <= i < |s| ==> r[i] == if IsUnsafe(s[i]) then '_' else s[i]
  {
    seq(|s|, i requires 0 <= i < |s| => if IsUnsafe(s[i]) then '_' else s[i])
  }

  predicate IsUseless(s: Bytes) { s == [] || s == "." || s == ".." }

  /** The part of `raw` that survives trimming. */
  function Core(raw: Bytes): Bytes {
    var i := SkipSpace(raw, BaseStart(raw, |raw|));
    raw[i..DropSpace(raw, i, |raw|)]
  }

  function Sanitized(raw: Bytes): Bytes {
    if IsUseless(Core(raw)) then DEFAULT_NAME else Masked(Core(raw))
  }

  method SanitizeFileName(raw: Bytes) returns (name: Bytes)
    ensures name == Sanitized(raw)
  {
    name := TrimName(raw);
    if name == [] || name == "." || name == ".." {
      return DEFAULT_NAME;
    }
    name := MaskUnsafe(name);
  }

  /** filename() and the two loops that erase white space. */
  method TrimName(raw: Bytes) returns (name: Bytes)
    ensures name == Core(raw)
  {
    var base := BaseStart(raw, |raw|);
    name := EraseFront(raw, base);
    name := EraseBack(raw, SkipSpace(raw, base), name);
  }

  method EraseFront(raw: Bytes, base: nat) returns (name: Bytes)
    requires base <= |raw|
    ensures name == raw[SkipSpace(raw, base)..]
  {
    ghost var lo: nat := base;
    name := raw[base..];
    while name != [] && IsSpace(name[0])
      invariant lo <= |raw| && name == raw[lo..]
      invariant SkipSpace(raw, lo) == SkipSpace(raw, base)
      decreases |name|
    {
      assert name[0] == raw[lo] && name[1..] == raw[lo + 1..];
      name, lo := name[1..], lo + 1;
    }
    assert name != [] ==> name[0] == raw[lo];
  }

  method EraseBack(ghost raw: Bytes, ghost lo: nat, front: Bytes) returns (name: Bytes)
    requires lo <= |raw| && front == raw[lo..]
    ensures name == raw[lo..DropSpace(raw, lo, |raw|)]
  {
    ghost var hi: nat := |raw|;
    name := front;
    while name != [] && IsSpace(name[|name| - 1])
      invariant lo <= hi <= |raw| && name == raw[lo..hi]
      invariant DropSpace(raw, lo, hi) == DropSpace(raw, lo, |raw|)
      decreases |name|
    {
      assert name[|name| - 1] == raw[hi - 1] && name[..|name| - 1] == raw[lo..hi - 1];
      name, hi := name[..|name| - 1], hi - 1;
    }
    assert name != [] ==> name[|name| - 1] == raw[hi - 1];
  }

  /** The final in-place replacement loop of the sanitizer. */
  method MaskUnsafe(text: Bytes) returns (name: Bytes)
    ensures name == Masked(text)
  {
    name := text;
    for i := 0 to |text|
      invariant |name| == |text|
      invariant name[..i] == Masked(text)[..i]
      invariant name[i..] == text[i..]
    {
      assert name[i] == text[i..][0];
      if IsUnsafe(name[i]) {
        name := name[i := '_'];
      }
      assert name[..i + 1] == name[..i] + [name[i]];
      assert Masked(text)[..i + 1] == Masked(text)[..i] + [Masked(text)[i]];
      assert name[i + 1..] == text[i..][1..];
    }
  }

  /** A name that can be appended to a directory and cannot break the header's framing. */
  predicate Canonical(name: Bytes) {
    && !IsUseless(name)
    && (forall i :: 0 <= i < |name| ==> !IsUnsafe(name[i]))
    && !IsSpace(name[0])
    && !IsSpace(name[|name| - 1])
  }

  /** Core(raw) is raw[i..j]: no directory part, and nothing but white space cut from the file name. */
  lemma CoreSpan(raw: Bytes) returns (k: nat, i: nat, j: nat)
    ensures k <= i <= j <= |raw| && Core(raw) == raw[i..j]
    ensures k > 0 ==> raw[k - 1] == '/'
    ensures forall n :: k <= n < |raw| ==> raw[n] != '/'
    ensures forall n :: k <= n < i || j <= n < |raw| ==> IsSpace(raw[n])
    ensures i < j ==> !IsSpace(raw[i]) && !IsSpace(raw[j - 1])
  {
    k := BaseStart(raw, |raw|);
    i := SkipSpace(raw, k);
    j := DropSpace(raw, i, |raw|);
  }

  lemma MaskedIsCanonical(name: Bytes)
    requires !IsUseless(name) && !IsSpace(name[0]) && !IsSpace(name[|name| - 1])
    ensures Canonical(Masked(name))
  {
    var m := Masked(name);
    if |name| == 1 {
      assert name == [name[0]];
    } else if |name| == 2 {
      assert name == [name[0], name[1]];
    }
  }

  lemma {:induction false} SanitizedIsCanonical(raw: Bytes)
    ensures Canonical(Sanitized(raw))
  {
    hide Canonical, Masked;
    var k, i, j := CoreSpan(raw);
    if IsUseless(Core(raw)) {
      DefaultIsCanonical();
    } else {
      MaskedIsCanonical(Core(raw));
    }
  }

  lemma DefaultIsCanonical()
    ensures Canonical(DEFAULT_NAME)
  {
    assert |DEFAULT_NAME| == 12;
  }

  /** The sanitizer leaves a name alone exactly when the name is canonical, so it is idempotent. */
  lemma {:induction false} SanitizedFixesExactlyCanonical(name: Bytes)
    ensures Sanitized(name) == name <==> Canonical(name)
    ensures Sanitized(Sanitized(name)) == Sanitized(name)
  {
    SanitizedIsCanonical(name);
    if Canonical(name) {
      CanonicalUnchanged(name);
    }
    CanonicalUnchanged(Sanitized(name));
  }

  lemma CanonicalUnchanged(name: Bytes)
    requires Canonical(name)
    ensures Sanitized(name) == name
  {
    var k, i, j := CoreSpan(name);
    assert k == 0 && i == 0 && j == |name|;
    assert Core(name) == name;
    assert Masked(name) == name;
  }

  // ---------------------------------------------------------------- in characters

  /** The space and the codes 9 to 13, by number. */
  predicate White(c: byte) { c as int == 32 || 9 <= c as int <= 13 }

  /** What may come out: no path separator, no control code, and something other than a dot name. */
  lemma {:induction false} SanitizedCharacters(raw: Bytes)
    ensures var name := Sanitized(raw);
            && name != [] && name != "." && name != ".."
            && (forall i :: 0 <= i < |name| ==> name[i] != '/' && name[i] != '\\' && name[i] as int >= 32)
            && !White(name[0]) && !White(name[|name| - 1])
  {
    SanitizedIsCanonical(raw);
  }

  /** How a name is written: a directory part up to `k`, white space up to `i`, the name proper up to `j`, and white
      space. */
  predicate Written(raw: Bytes, k: nat, i: nat, j: nat) {
    && k <= i <= j <= |raw| && (k == 0 || raw[k - 1] == '/') && (forall n :: k <= n < |raw| ==> raw[n] != '/')
    && (forall n :: k <= n < i ==> White(raw[n])) && (forall n :: j <= n < |raw| ==> White(raw[n]))
    && (i < j ==> !White(raw[i]) && !White(raw[j - 1]))
  }

  /** Every name is written that way. */
  lemma NameParts(raw: Bytes) returns (k: nat, i: nat, j: nat)
    ensures Written(raw, k, i, j)
  {
    k, i, j := CoreSpan(raw);
  }

  lemma CoreOfParts(raw: Bytes, k: nat, i: nat, j: nat)
    requires Written(raw, k, i, j)
    ensures Core(raw) == raw[i..j]
  {
    var a, b := SkipSpace(raw, k), DropSpace(raw, SkipSpace(raw, k), |raw|);
    assert BaseStart(raw, |raw|) == k;
    if i < j {
      assert a == i;
      assert b == j;
    }
  }

  /** What does come out, for every name: the directory part and the white space go; nothing, "." and ".." become
      "received.bin"; of anything else every byte from 32 on other than the backslash stays and every other byte
      becomes an underscore. */
  lemma {:induction false} SanitizedExactly(raw: Bytes, k: nat, i: nat, j: nat)
    requires Written(raw, k, i, j)
    ensures var name, core := Sanitized(raw), raw[i..j];
            if core == [] || core == "." || core == ".." then name == "received.bin"
            else && |name| == |core|
                 && forall n :: 0 <= n < |core| ==>
                      name[n] == if core[n] as int >= 32 && core[n] != '\\' then core[n] else '_'
  {
    CoreOfParts(raw, k, i, j);
  }

  /** std::filesystem::path::operator/ for POSIX paths. */
  function JoinPath(dir: Bytes, name: Bytes): Bytes {
    if name != [] && name[0] == '/' then name
    else if dir == [] || dir[|dir| - 1] == '/' then dir + name
    else dir + "/" + name
  }

  /** The directory and the name put together, in the three cases there are. */
  predicate InDirectory(path: Bytes, dir: Bytes, name: Bytes) {
    if dir == [] then path == name
    else if dir[|dir| - 1] == '/' then path == dir + name
    else path == dir + "/" + name
  }

  /** However hostile the announced name, the output path is a direct child of the directory: an empty directory is the
      current one, and the path begins with a slash only if the directory does. */
  lemma {:induction false} OutputIsDirectChild(dir: Bytes, announced: Bytes)
    ensures var path, name := JoinPath(dir, Sanitized(announced)), Sanitized(announced);
            var k := BaseStart(path, |path|);
            && path[k..] == name && (path[..k] == dir || path[..k] == dir + "/")
            && InDirectory(path, dir, name)
            && (path[0] == '/' <==> dir != [] && dir[0] == '/')
  {
    SanitizedIsCanonical(announced);
    var name := Sanitized(announced);
    var stem := if dir == [] || dir[|dir| - 1] == '/' then dir else dir + "/";
    var path := JoinPath(dir, name);
    assert path == stem + name;
    assert path[|stem|..] == name && path[..|stem|] == stem;
    BaseOfJoined(stem, name);
  }

  /** Whether receive_file takes its argument for a directory: "" and a trailing separator do, and so does an existing
      directory. */
  function TargetDir(outputPath: Bytes, isDirectory: bool): Option<Bytes> {
    if outputPath == [] || outputPath[|outputPath| - 1] == '/' || outputPath[|outputPath| - 1] == '\\' || isDirectory
    then Some(outputPath) else None
  }

  lemma {:induction false} TargetDirExactly(outputPath: Bytes, isDirectory: bool)
    ensures TargetDir(outputPath, isDirectory).Some? <==>
              isDirectory || outputPath == "" || exists stem :: outputPath == stem + "/" || outputPath == stem + "\\"
    ensures TargetDir(outputPath, isDirectory).Some? ==> TargetDir(outputPath, isDirectory).value == outputPath
  {
    if outputPath != [] {
      var stem := outputPath[..|outputPath| - 1];
      assert outputPath == stem + [outputPath[|outputPath| - 1]];
    }
  }

  lemma BaseOfJoined(stem: Bytes, name: Bytes)
    requires Canonical(name) && (stem == [] || stem[|stem| - 1] == '/')
    ensures BaseStart(stem + name, |stem + name|) == |stem|
  {
    var path := stem + name;
    assert forall n :: |stem| <= n < |path| ==> path[n] == name[n - |stem|];
    assert stem != [] ==> path[|stem| - 1] == '/';
  }
}
