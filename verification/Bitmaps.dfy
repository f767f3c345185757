/** Port bitmaps, as the set of the positions that are shifted in. */
module Bitmaps {
  import opened Common

  type Ports = set<nat>

  // The width of a bitmap.
  const BITS := 32

  // The 32-bit word with these bits; a shift by more than the word leaves it undefined.
  function Word(ports: Ports): (w: Option<Ports>)
    ensures w.Some? <==> forall p | p in ports :: p < BITS
    ensures w.Some? ==> w.value == ports
  {
    if forall p | p in ports :: p < BITS then Some(ports) else None
  }
}
