/** The pair of running 8-bit sums that closes the inter-MCU and the UDP frames. */
module Fletcher {
  import opened Bytes

  function AddByte(a: int, b: int): (sum: uint8) {
    (a + b) % 0x100
  }

  function CkA(s: seq<uint8>): uint8 {
    if |s| == 0 then 0 else AddByte(CkA(s[..|s| - 1]), s[|s| - 1])
  }

  function CkB(s: seq<uint8>): uint8 {
    if |s| == 0 then 0 else AddByte(CkB(s[..|s| - 1]), CkA(s))
  }

  lemma CkSnoc(s: seq<uint8>, c: uint8)
    ensures CkA(s + [c]) == AddByte(CkA(s), c)
    ensures CkB(s + [c]) == AddByte(CkB(s), CkA(s + [c]))
  {
    hide AddByte;
    assert (s + [c])[..|s|] == s;
  }
}
