/** Flash contents: bytes that read 0xFF where nothing was programmed. */
module FlashCells {
  type Byte = x: int | 0 <= x < 256
  type Data = seq<Byte>

  function Blank(n: nat): (s: Data)
    ensures |s| == n
  {
    seq(n, _ => 255)
  }
}
