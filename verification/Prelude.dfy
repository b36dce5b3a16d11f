// Shared vocabulary: optional values, results, fixed-width integers, and a
// few words about sequences.
module Prelude {
  datatype Option<+T> = None | Some(value: T)

  datatype Result<+T, +E> = Ok(value: T) | Err(error: E)

  type byte = x: int | 0 <= x < 0x100
  type uint16 = x: int | 0 <= x < 0x1_0000
  type uint32 = x: int | 0 <= x < 0x1_0000_0000

  predicate NoDuplicates<T(==)>(s: seq<T>) {
    forall i, j :: 0 <= i < j < |s| ==> s[i] != s[j]
  }

  function Elements<T>(s: seq<T>): set<T> {
    set x | x in s
  }

  function Joined<T>(parts: seq<seq<T>>): seq<T> {
    if parts == [] then [] else parts[0] + Joined(parts[1..])
  }

  function BigEndian(hi: byte, lo: byte): uint16 {
    hi * 0x100 + lo
  }

  function Max(a: int, b: int): int {
    if a < b then b else a
  }
}
