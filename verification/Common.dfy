/** What several modules use: optional values, byte strings, the lesser of two numbers, 2^32. */
module Common {
  datatype Option<+T> = None | Some(value: T)

  type Bytes = seq<bv8>

  const TWO32 := 0x1_0000_0000

  function Min(a: nat, b: nat): nat {
    if a < b then a else b
  }

  function Zeros(n: nat): (z: Bytes)
    ensures |z| == n
  {
    seq(n, i requires 0 <= i < n => 0)
  }
}
