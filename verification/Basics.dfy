/** Machine-sized integers, byte strings and the small containers every other module uses. */
module Basics {

  type byte = x: int | 0 <= x < 0x100
  type uint16 = x: int | 0 <= x < 0x1_0000

  /** The source keeps names, filters and payloads as byte strings. */
  type Str = seq<byte>

  datatype Option<+T> = None | Some(value: T)

  ghost predicate NoDup<T>(s: seq<T>) {
    forall i, j :: 0 <= i < j < |s| ==> s[i] != s[j]
  }

  lemma Assoc<T>(a: seq<T>, b: seq<T>, c: seq<T>)
    ensures (a + b) + c == a + (b + c)
  {
  }

  lemma TakeDrop<T>(s: seq<T>, k: nat)
    requires k <= |s|
    ensures s[..k] + s[k..] == s
    ensures k < |s| ==> s[k..] == [s[k]] + s[k + 1..]
  {
  }

  function Min(a: int, b: int): int {
    if a <= b then a else b
  }
}
