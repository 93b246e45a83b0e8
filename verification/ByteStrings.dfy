/** Byte strings, the only text the transfer engine handles, and searching in them. */
module ByteStrings {
  datatype Option<+T> = None | Some(value: T)

  /** A byte, written as the character with that code so that literals stay readable. */
  type byte = c: char | c as int < 256 witness 'a'

  type Bytes = seq<byte>

  const TWO_POW_64 := 0x1_0000_0000_0000_0000

  /** uint64_t. Every value stored in a variable of this type is checked to be in range. */
  type u64 = n: int | 0 <= n < TWO_POW_64

  function Min(a: nat, b: nat): nat { if a <= b then a else b }

  /** The first index from `pos` on that holds `c`, or |s|. */
  function IndexOf(s: Bytes, c: byte, pos: nat): (r: nat)
    requires pos <= |s|
    ensures pos <= r <= |s|
    ensures r < |s| ==> s[r] == c
    ensures forall i :: pos <= i < r ==> s[i] != c
    decreases |s| - pos
  {
    if pos == |s| || s[pos] == c then pos else IndexOf(s, c, pos + 1)
  }

  function Concat(parts: seq<Bytes>): Bytes {
    if parts == [] then [] else Concat(parts[..|parts| - 1]) + parts[|parts| - 1]
  }

  lemma {:induction false} ConcatSnoc(parts: seq<Bytes>, last: Bytes)
    ensures Concat(parts + [last]) == Concat(parts) + last
  {
    assert (parts + [last])[..|parts|] == parts;
  }
}
