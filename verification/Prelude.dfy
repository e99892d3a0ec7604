/** Types shared by every module: optional values, bytes and the widths of the
    machine integers the proxy counts with. */
module Prelude {

  datatype Option<+T> = None | Some(value: T)

  type byte = b: int | 0 <= b < 256

  type bytes = seq<byte>

  const U32_RANGE: nat := 0x1_0000_0000
  const U64_RANGE: nat := 0x1_0000_0000_0000_0000

  /** A 64-bit counter. */
  type u64 = n: int | 0 <= n < U64_RANGE

  /** Adding one to a 64-bit counter wraps around. */
  function Increment(n: u64): u64 { if n + 1 == U64_RANGE then 0 else n + 1 }

  /** A counter that has been incremented `k` times. */
  function Wrapped(k: nat): u64 { k % U64_RANGE }

  lemma IncrementWrapped(k: nat)
    ensures Increment(Wrapped(k)) == Wrapped(k + 1)
  {
    var q, r := k / U64_RANGE, k % U64_RANGE;
    assert k + 1 == q * U64_RANGE + (r + 1);
    if r + 1 == U64_RANGE {
      assert k + 1 == (q + 1) * U64_RANGE;
    }
  }

  /** The concatenation of a sequence of sequences, in order. */
  function Flatten<T>(parts: seq<seq<T>>): seq<T> {
    if parts == [] then [] else parts[0] + Flatten(parts[1..])
  }

  lemma {:induction false} FlattenAppend<T>(a: seq<seq<T>>, b: seq<seq<T>>)
    ensures Flatten(a + b) == Flatten(a) + Flatten(b)
  {
    if a == [] {
      assert a + b == b;
    } else {
      assert (a + b)[1..] == a[1..] + b;
      FlattenAppend(a[1..], b);
    }
  }

  lemma {:induction false} FlattenPrefix<T>(a: seq<seq<T>>, b: seq<seq<T>>)
    requires a <= b
    ensures Flatten(a) <= Flatten(b)
  {
    FlattenAppend(a, b[|a|..]);
    assert b == a + b[|a|..];
  }
}
