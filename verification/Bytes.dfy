// Byte strings and the big-endian integers of the wire formats.
module Bytes {

  type byte = b: int | 0 <= b < 256

  type bytes = seq<byte>

  const TWO_16: int := 65536
  const TWO_32: int := 0x1_0000_0000

  datatype Option<+T> = None | Some(value: T)

  function Min(a: int, b: int): int {
    if a < b then a else b
  }

  function Max(a: int, b: int): int {
    if a < b then b else a
  }

  function One(b: bool): int {
    if b then 1 else 0
  }

  function Be16(n: int): bytes
    requires 0 <= n < TWO_16
  {
    [n / 256, n % 256]
  }

  function Unbe16(b: bytes): int
    requires |b| == 2
  {
    (b[0] as int) * 256 + b[1]
  }

  function Be32(n: int): bytes
    requires 0 <= n < TWO_32
  {
    [n / 0x100_0000, n / 0x1_0000 % 256, n / 0x100 % 256, n % 256]
  }

  function Unbe32(b: bytes): int
    requires |b| == 4
  {
    (((b[0] as int) * 256 + b[1]) * 256 + b[2]) * 256 + b[3]
  }

  lemma Be32RoundTrip(n: int)
    requires 0 <= n < TWO_32
    ensures Unbe32(Be32(n)) == n
  {
    assert n / 0x100 == n / 0x1_0000 * 256 + n / 0x100 % 256;
    assert n / 0x1_0000 == n / 0x100_0000 * 256 + n / 0x1_0000 % 256;
  }

  lemma ConcatAssociative<T>(a: seq<T>, b: seq<T>, c: seq<T>)
    ensures (a + b) + c == a + (b + c)
  {
  }

  lemma DropDrop<T>(s: seq<T>, a: nat, b: nat)
    requires a + b <= |s|
    ensures s[a..][b..] == s[a + b..]
  {
  }

  // Concatenation of a list of byte strings.
  function Flatten(parts: seq<bytes>): bytes {
    if parts == [] then [] else parts[0] + Flatten(parts[1..])
  }

  lemma {:induction false} FlattenAppend(a: seq<bytes>, b: seq<bytes>)
    ensures Flatten(a + b) == Flatten(a) + Flatten(b)
  {
    if a == [] {
      assert a + b == b;
    } else {
      assert (a + b)[1..] == a[1..] + b;
      FlattenAppend(a[1..], b);
    }
  }

  lemma FlattenSnoc(a: seq<bytes>, last: bytes)
    ensures Flatten(a + [last]) == Flatten(a) + last
  {
    FlattenAppend(a, [last]);
    assert Flatten([last]) == last;
  }
}
