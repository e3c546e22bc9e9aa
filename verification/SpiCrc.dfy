/** The CRC-8 sealed SPI exchange of sw/airborne/fms/fms_spi_link.c. */
module SpiCrc {
  const POLYNOMIAL: bv8 := 0x31
  const TOP_BIT: bv8 := 0x80

  type Frame = seq<bv8>

  // ---------- The remainder ----------

  /** Addition of polynomials over two elements. */
  function Plus(a: bv8, b: bv8): bv8 {
    a ^ b
  }

  function Double(r: bv8): bv8 {
    r << 1
  }

  /** One turn of the bit loop. */
  function BitStep(r: bv8): bv8 {
    if TopBit(r) then Plus(Double(r), POLYNOMIAL) else Double(r)
  }

  function Mask(top: bool): bv8 {
    if top then POLYNOMIAL else 0
  }

  predicate TopBit(r: bv8) {
    r & TOP_BIT != 0
  }

  /** `n` turns of the bit loop. */
  function Turn(n: nat, r: bv8): bv8 {
    if n == 0 then r else BitStep(Turn(n - 1, r))
  }

  function ByteStep(r: bv8, b: bv8): bv8 {
    Turn(8, Plus(r, b))
  }

  function Crc(s: Frame): bv8 {
    if |s| == 0 then 0 else ByteStep(Crc(s[..|s| - 1]), s[|s| - 1])
  }

  // ---------- The bit step is linear and one-to-one ----------

  lemma BitStepLinear(a: bv8, b: bv8)
    ensures BitStep(Plus(a, b)) == Plus(BitStep(a), BitStep(b))
  {
    hide BitStep, TopBit, Mask, Plus, Double;
    BitStepIsMasked(a);
    BitStepIsMasked(b);
    BitStepIsMasked(Plus(a, b));
    TopBitOfPlus(a, b);
    DoubleOfPlus(a, b);
    MaskOfPlus(TopBit(a), TopBit(b));
    PlusSwap(Double(a), Double(b), Mask(TopBit(a)), Mask(TopBit(b)));
  }

  lemma BitStepIsMasked(r: bv8)
    ensures BitStep(r) == Plus(Double(r), Mask(TopBit(r)))
  {
  }

  lemma TopBitOfPlus(a: bv8, b: bv8)
    ensures TopBit(Plus(a, b)) == (TopBit(a) != TopBit(b))
  {
  }

  lemma DoubleOfPlus(a: bv8, b: bv8)
    ensures Double(Plus(a, b)) == Plus(Double(a), Double(b))
  {
  }

  lemma MaskOfPlus(p: bool, q: bool)
    ensures Mask(p != q) == Plus(Mask(p), Mask(q))
  {
  }

  lemma BitStepOneToOne(a: bv8)
    ensures BitStep(a) == 0 <==> a == 0
  {
  }

  lemma {:induction false} TurnLinear(n: nat, a: bv8, b: bv8)
    ensures Turn(n, Plus(a, b)) == Plus(Turn(n, a), Turn(n, b))
  {
    hide BitStep, Plus;
    if n > 0 {
      TurnLinear(n - 1, a, b);
      BitStepLinear(Turn(n - 1, a), Turn(n - 1, b));
    }
  }

  lemma {:induction false} TurnOneToOne(n: nat, a: bv8)
    ensures Turn(n, a) == 0 <==> a == 0
  {
    hide BitStep;
    if n > 0 {
      TurnOneToOne(n - 1, a);
      BitStepOneToOne(Turn(n - 1, a));
    }
  }

  lemma {:induction false} TurnAdds(m: nat, n: nat, a: bv8)
    ensures Turn(m + n, a) == Turn(m, Turn(n, a))
  {
    hide BitStep;
    if m > 0 {
      TurnAdds(m - 1, n, a);
    }
  }

  // ---------- Frames as vectors over XOR ----------

  function Xor(s: Frame, t: Frame): (u: Frame)
    requires |s| == |t|
    ensures |u| == |s|
    ensures forall k :: 0 <= k < |s| ==> u[k] == Plus(s[k], t[k])
  {
    seq(|s|, k requires 0 <= k < |s| => Plus(s[k], t[k]))
  }

  predicate Zero(s: Frame) {
    forall k :: 0 <= k < |s| ==> s[k] == 0
  }

  lemma PlusZeroIff(a: bv8, b: bv8)
    ensures Plus(a, b) == 0 <==> a == b
  {
  }

  lemma PlusSwap(a: bv8, b: bv8, c: bv8, d: bv8)
    ensures Plus(Plus(a, b), Plus(c, d)) == Plus(Plus(a, c), Plus(b, d))
  {
    hide Plus;
    PlusAssociative(a, b, Plus(c, d));
    PlusAssociative(b, c, d);
    PlusCommutes(b, c);
    PlusAssociative(c, b, d);
    PlusAssociative(a, c, Plus(b, d));
  }

  lemma PlusAssociative(a: bv8, b: bv8, c: bv8)
    ensures Plus(Plus(a, b), c) == Plus(a, Plus(b, c))
  {
  }

  lemma PlusCommutes(a: bv8, b: bv8)
    ensures Plus(a, b) == Plus(b, a)
  {
  }

  lemma {:induction false} CrcLinear(s: Frame, t: Frame)
    requires |s| == |t|
    ensures Crc(Xor(s, t)) == Plus(Crc(s), Crc(t))
  {
    PlusZeroIff(0, 0);
    hide Turn, Plus;
    if |s| > 0 {
      var n := |s| - 1;
      CrcLinear(s[..n], t[..n]);
      assert Xor(s, t)[..n] == Xor(s[..n], t[..n]);
      assert Crc(Xor(s, t)[..n]) == Plus(Crc(s[..n]), Crc(t[..n]));
      PlusSwap(Crc(s[..n]), Crc(t[..n]), s[n], t[n]);
      TurnLinear(8, Plus(Crc(s[..n]), s[n]), Plus(Crc(t[..n]), t[n]));
    }
  }

  lemma {:induction false} CrcOfZero(s: Frame)
    requires Zero(s)
    ensures Crc(s) == 0
  {
    hide Turn;
    if |s| > 0 {
      CrcOfZero(s[..|s| - 1]);
      TurnOneToOne(8, 0);
    }
  }

  /** A tail of zero bytes only turns the remainder. */
  lemma {:induction false} CrcThroughZeros(s: Frame, m: nat)
    requires m <= |s| && Zero(s[m..])
    ensures Crc(s) == Turn(8 * (|s| - m), Crc(s[..m]))
  {
    hide Turn, BitStep;
    if m == |s| {
      assert s[..m] == s;
      TurnZero(Crc(s));
    } else {
      var n := |s| - 1;
      assert s[m..][n - m] == 0;
      assert s[..n][m..] == s[m..][..n - m];
      assert s[..n][..m] == s[..m];
      CrcThroughZeros(s[..n], m);
      assert Plus(Crc(s[..n]), s[n]) == Crc(s[..n]);
      TurnAdds(8, 8 * (n - m), Crc(s[..m]));
    }
  }

  lemma TurnZero(r: bv8)
    ensures Turn(0, r) == r
  {
  }

  // ---------- Sealing and checking ----------

  /** The receiver's test: the last byte is the remainder of those before it. */
  predicate Passes(frame: Frame)
    requires |frame| >= 1
  {
    Crc(frame[..|frame| - 1]) == frame[|frame| - 1]
  }

  function Seal(frame: Frame): (sealed: Frame)
    requires |frame| >= 1
    ensures |sealed| == |frame|
  {
    frame[|frame| - 1 := Crc(frame[..|frame| - 1])]
  }

  /** What the sender seals the receiver accepts, and sealing keeps the payload. */
  lemma SealPasses(frame: Frame)
    requires |frame| >= 1
    ensures Passes(Seal(frame))
    ensures Seal(frame)[..|frame| - 1] == frame[..|frame| - 1]
    ensures Passes(frame) <==> Seal(frame) == frame
  {
    assert Seal(frame)[..|frame| - 1] == frame[..|frame| - 1];
  }

  /** The test accepts exactly the frames with remainder 0. */
  lemma PassesIffRemainderZero(frame: Frame)
    requires |frame| >= 1
    ensures Passes(frame) <==> Crc(frame) == 0
  {
    hide Turn;
    var n := |frame| - 1;
    TurnOneToOne(8, Plus(Crc(frame[..n]), frame[n]));
    PlusZeroIff(Crc(frame[..n]), frame[n]);
  }

  /** An error is missed if and only if the error pattern is itself a frame that passes. */
  lemma MissedIffErrorPasses(frame: Frame, error: Frame)
    requires |frame| == |error| >= 1 && Passes(frame)
    ensures Passes(Xor(frame, error)) <==> Crc(error) == 0
  {
    hide Crc, Passes;
    PassesIffRemainderZero(frame);
    PassesIffRemainderZero(Xor(frame, error));
    CrcLinear(frame, error);
  }

  // ---------- Bits of a frame, first bit on the wire first ----------

  /** Bit `k` of a byte, most significant bit first. */
  predicate BitOf(b: bv8, k: nat)
    requires k < 8
  {
    b & (TOP_BIT >> k) != 0
  }

  predicate Bit(s: Frame, j: nat)
    requires j < 8 * |s|
  {
    BitOf(s[j / 8], j % 8)
  }

  /** Every wrong bit lies among the eight that start at bit `p`. */
  ghost predicate WithinEightBits(error: Frame, p: nat) {
    forall j :: 0 <= j < 8 * |error| && Bit(error, j) ==> p <= j < p + 8
  }

  lemma ByteZeroIff(b: bv8)
    ensures b == 0 <==> forall k :: 0 <= k < 8 ==> !BitOf(b, k)
  {
    if b != 0 {
      assert BitOf(b, 0) || BitOf(b, 1) || BitOf(b, 2) || BitOf(b, 3)
          || BitOf(b, 4) || BitOf(b, 5) || BitOf(b, 6) || BitOf(b, 7);
    }
  }

  /** Bytes `x` then `y` hold no bits but the eight that start at bit `s` of `x`. */
  predicate Straddles(x: bv8, y: bv8, s: nat)
    requires s < 8
  {
    x & !((0xFF as bv8) >> s) == 0 && y & ((0xFF as bv8) >> s) == 0
  }

  lemma StraddlesFromBits(x: bv8, y: bv8, s: nat)
    requires s < 8
    requires forall k :: 0 <= k < s ==> !BitOf(x, k)
    requires forall k :: s <= k < 8 ==> !BitOf(y, k)
    ensures Straddles(x, y, s)
  {
    assert s > 0 ==> !BitOf(x, 0);
    assert s > 1 ==> !BitOf(x, 1);
    assert s > 2 ==> !BitOf(x, 2);
    assert s > 3 ==> !BitOf(x, 3);
    assert s > 4 ==> !BitOf(x, 4);
    assert s > 5 ==> !BitOf(x, 5);
    assert s > 6 ==> !BitOf(x, 6);
    assert s <= 0 ==> !BitOf(y, 0);
    assert s <= 1 ==> !BitOf(y, 1);
    assert s <= 2 ==> !BitOf(y, 2);
    assert s <= 3 ==> !BitOf(y, 3);
    assert s <= 4 ==> !BitOf(y, 4);
    assert s <= 5 ==> !BitOf(y, 5);
    assert s <= 6 ==> !BitOf(y, 6);
    assert !BitOf(y, 7);
  }

  function Eight(r: bv8): bv8 {
    BitStep(BitStep(BitStep(BitStep(BitStep(BitStep(BitStep(BitStep(r))))))))
  }

  lemma TurnEight(r: bv8)
    ensures Turn(8, r) == Eight(r)
  {
    hide BitStep;
    var r1 := Turn(1, r);
    var r2 := Turn(2, r);
    var r3 := Turn(3, r);
    var r4 := Turn(4, r);
    var r5 := Turn(5, r);
    var r6 := Turn(6, r);
    var r7 := Turn(7, r);
    assert Turn(0, r) == r;
    assert r1 == BitStep(r);
    assert r2 == BitStep(r1);
    assert r3 == BitStep(r2);
    assert r4 == BitStep(r3);
    assert r5 == BitStep(r4);
    assert r6 == BitStep(r5);
    assert r7 == BitStep(r6);
  }

  /** The polynomial has a constant term, so no pattern of eight bits is a multiple of it,
      wherever the byte boundary falls. */
  lemma StraddleLeavesRemainder(x: bv8, y: bv8, s: nat)
    requires s < 8 && Straddles(x, y, s)
    requires Eight(x) == y
    ensures x == 0 && y == 0
  {
  }

  /** The remainder after the two bytes that may hold the burst. */
  lemma CrcOfTwoBytes(error: Frame, q: nat)
    requires q + 1 < |error| && Zero(error[..q])
    ensures Crc(error[..q + 2]) == ByteStep(ByteStep(0, error[q]), error[q + 1])
  {
    hide Turn, Plus, ByteStep;
    CrcOfZero(error[..q]);
    assert error[..q + 2][..q + 1] == error[..q + 1];
    assert error[..q + 1][..q] == error[..q];
  }

  lemma BytesOutsideBurst(error: Frame, p: nat, k: nat)
    requires WithinEightBits(error, p)
    requires k < |error| && k != p / 8 && k != p / 8 + 1
    ensures error[k] == 0
  {
    hide BitOf;
    forall t | 0 <= t < 8
      ensures !BitOf(error[k], t)
    {
      assert Bit(error, 8 * k + t) == BitOf(error[k], t);
    }
    ByteZeroIff(error[k]);
  }

  lemma BitsOutsideBurst(error: Frame, p: nat)
    requires WithinEightBits(error, p) && p / 8 + 1 < |error|
    ensures Straddles(error[p / 8], error[p / 8 + 1], p % 8)
  {
    hide BitOf, Straddles;
    var q, s := p / 8, p % 8;
    var y := error[q + 1];
    forall t | 0 <= t < s
      ensures !BitOf(error[q], t)
    {
      assert Bit(error, 8 * q + t) == BitOf(error[q], t);
    }
    forall t | s <= t < 8
      ensures !BitOf(y, t)
    {
      assert Bit(error, 8 * (q + 1) + t) == BitOf(error[q + 1], t);
    }
    StraddlesFromBits(error[q], error[q + 1], s);
  }

  lemma BurstLeavesRemainder(error: Frame, p: nat)
    requires WithinEightBits(error, p) && Crc(error) == 0
    ensures Zero(error)
  {
    hide Turn, Plus, Crc, Straddles, BitStep, WithinEightBits, Bit;
    var q := p / 8;
    forall k | 0 <= k < |error| && k != q && k != q + 1
      ensures error[k] == 0
    {
      BytesOutsideBurst(error, p, k);
    }
    if q + 1 < |error| {
      CrcThroughZeros(error, q + 2);
      TurnOneToOne(8 * (|error| - (q + 2)), Crc(error[..q + 2]));
      CrcOfTwoBytes(error, q);
      TwoBytesLeaveRemainder(error[q], error[q + 1]);
      BitsOutsideBurst(error, p);
      StraddleLeavesRemainder(error[q], error[q + 1], p % 8);
    } else if q < |error| {
      CrcOfZero(error[..q]);
      LastByteLeavesRemainder(error);
    }
  }

  lemma TwoBytesLeaveRemainder(x: bv8, y: bv8)
    ensures ByteStep(ByteStep(0, x), y) == 0 <==> Eight(x) == y
  {
    PlusZeroLeft(x);
    hide Turn, Plus, Eight;
    TurnEight(x);
    TurnOneToOne(8, Plus(Eight(x), y));
    PlusZeroIff(Eight(x), y);
  }

  lemma PlusZeroLeft(x: bv8)
    ensures Plus(0, x) == x
  {
  }

  lemma LastByteLeavesRemainder(error: Frame)
    requires |error| >= 1 && Crc(error[..|error| - 1]) == 0 && Crc(error) == 0
    ensures error[|error| - 1] == 0
  {
    var x := error[|error| - 1];
    PlusZeroLeft(x);
    hide Turn, Plus;
    TurnOneToOne(8, x);
  }

  /** Any error confined to eight consecutive bits, on a byte boundary or across one,
      the check byte included, is rejected. */
  lemma BurstRejected(frame: Frame, error: Frame, p: nat)
    requires |frame| == |error| >= 1 && Passes(frame)
    requires WithinEightBits(error, p) && !Zero(error)
    ensures !Passes(Xor(frame, error))
  {
    hide Passes, Crc, Zero, WithinEightBits, Xor;
    MissedIffErrorPasses(frame, error);
    if Crc(error) == 0 {
      BurstLeavesRemainder(error, p);
    }
  }

  // ---------- Errors of odd weight ----------

  function One(set_: bool): nat {
    if set_ then 1 else 0
  }

  function Ones(b: bv8): nat {
    One(BitOf(b, 0)) + One(BitOf(b, 1)) + One(BitOf(b, 2)) + One(BitOf(b, 3))
    + One(BitOf(b, 4)) + One(BitOf(b, 5)) + One(BitOf(b, 6)) + One(BitOf(b, 7))
  }

  /** How many bits of a frame are set. */
  function Weight(s: Frame): nat {
    if |s| == 0 then 0 else Weight(s[..|s| - 1]) + Ones(s[|s| - 1])
  }

  predicate Odd(b: bv8) {
    BitOf(b, 0) != (BitOf(b, 1) != (BitOf(b, 2) != (BitOf(b, 3)
    != (BitOf(b, 4) != (BitOf(b, 5) != (BitOf(b, 6) != BitOf(b, 7)))))))
  }

  lemma OddIsOnes(b: bv8)
    ensures Odd(b) <==> Ones(b) % 2 == 1
  {
    hide BitOf;
  }

  lemma BitOfPlus(a: bv8, b: bv8, k: nat)
    requires k < 8
    ensures BitOf(Plus(a, b), k) == (BitOf(a, k) != BitOf(b, k))
  {
  }

  lemma OddOfPlus(a: bv8, b: bv8)
    ensures Odd(Plus(a, b)) == (Odd(a) != Odd(b))
  {
    hide BitOf, Plus;
    forall k | 0 <= k < 8
      ensures BitOf(Plus(a, b), k) == (BitOf(a, k) != BitOf(b, k))
    {
      BitOfPlus(a, b, k);
    }
  }

  /** The polynomial, top term included, has an even number of terms. */
  lemma BitStepKeepsParity(r: bv8)
    ensures Odd(BitStep(r)) == Odd(r)
  {
  }

  lemma {:induction false} TurnKeepsParity(n: nat, r: bv8)
    ensures Odd(Turn(n, r)) == Odd(r)
  {
    hide Odd, BitStep;
    if n > 0 {
      TurnKeepsParity(n - 1, r);
      BitStepKeepsParity(Turn(n - 1, r));
    }
  }

  lemma OddSum(a: nat, b: nat)
    ensures (a + b) % 2 == 1 <==> (a % 2 == 1) != (b % 2 == 1)
  {
  }

  lemma ZeroIsEven()
    ensures !Odd(0)
  {
  }

  lemma {:induction false} CrcKeepsParity(s: Frame)
    ensures Odd(Crc(s)) <==> Weight(s) % 2 == 1
  {
    hide Odd, Turn, Plus, Ones;
    if |s| == 0 {
      ZeroIsEven();
    } else {
      var n := |s| - 1;
      CrcKeepsParity(s[..n]);
      OddOfByteStep(Crc(s[..n]), s[n]);
      OddSum(Weight(s[..n]), Ones(s[n]));
    }
  }

  lemma OddOfByteStep(r: bv8, b: bv8)
    ensures Odd(ByteStep(r, b)) == (Odd(r) != (Ones(b) % 2 == 1))
  {
    hide Odd, Turn, Plus, Ones;
    TurnKeepsParity(8, Plus(r, b));
    OddOfPlus(r, b);
    OddIsOnes(b);
  }

  /** Any error that flips an odd number of bits is rejected. */
  lemma OddWeightRejected(frame: Frame, error: Frame)
    requires |frame| == |error| >= 1 && Passes(frame)
    requires Weight(error) % 2 == 1
    ensures !Passes(Xor(frame, error))
  {
    hide Passes, Crc, Odd, Weight, Xor;
    MissedIffErrorPasses(frame, error);
    CrcKeepsParity(error);
    ZeroIsEven();
  }

  // ---------- Errors of two bits ----------

  /** `n` bytes with only bit `i` set. */
  function OneBit(n: nat, i: nat): (s: Frame)
    requires i < 8 * n
    ensures |s| == n
    ensures forall k :: 0 <= k < 8 * n ==> (Bit(s, k) <==> k == i)
  {
    var s := seq(n, q => if q == i / 8 then BitMask(i % 8) else 0);
    assert forall k :: 0 <= k < 8 * n ==> (Bit(s, k) <==> k == i) by {
      forall k | 0 <= k < 8 * n
        ensures Bit(s, k) <==> k == i
      {
        BitOfMask(i % 8, k % 8);
      }
    }
    s
  }

  function BitMask(i: nat): bv8
    requires i < 8
  {
    TOP_BIT >> i
  }

  lemma BitOfMask(i: nat, k: nat)
    requires i < 8 && k < 8
    ensures BitOf(BitMask(i), k) <==> i == k
    ensures !BitOf(0, k)
  {
  }

  /** A single wrong bit leaves as many doublings of 1 as there are bits after it,
      counting the eight of the register. */
  lemma CrcOfOneBit(n: nat, i: nat)
    requires i < 8 * n
    ensures Crc(OneBit(n, i)) == Turn(8 * n + 7 - i, 1)
  {
    hide Turn, Plus, ByteStep, BitStep, Bit;
    var s, q := OneBit(n, i), i / 8;
    OneBitBytes(n, i);
    CrcThroughZeros(s, q + 1);
    CrcOfZero(s[..q]);
    assert s[..q + 1][..q] == s[..q];
    assert Crc(s[..q + 1]) == ByteStep(0, BitMask(i % 8));
    MaskTurns(i % 8);
    TurnAdds(8 * (n - q - 1), 8 + 7 - i % 8, 1);
  }

  lemma OneBitBytes(n: nat, i: nat)
    requires i < 8 * n
    ensures OneBit(n, i)[i / 8] == BitMask(i % 8)
    ensures Zero(OneBit(n, i)[..i / 8]) && Zero(OneBit(n, i)[i / 8 + 1..])
  {
    hide Bit;
  }

  lemma MaskTurns(i: nat)
    requires i < 8
    ensures ByteStep(0, BitMask(i)) == Turn(8 + 7 - i, 1)
  {
    PlusZeroLeft(BitMask(i));
    MaskIsTurned(i);
    hide Turn, Plus, BitMask;
    TurnAdds(8, 7 - i, 1);
  }

  lemma {:induction false} MaskIsTurned(i: nat)
    requires i < 8
    ensures BitMask(i) == Turn(7 - i, 1)
    decreases 7 - i
  {
    if i < 7 {
      MaskIsTurned(i + 1);
      assert BitMask(i) == BitStep(BitMask(i + 1));
    }
  }

  // ---------- The polynomial doubles 1 back to 1 after 127 bits ----------

  lemma TurnsByEight(n: nat, r: bv8, r': bv8)
    requires Turn(n, 1) == r && Eight(r) == r'
    ensures Turn(n + 8, 1) == r'
  {
    hide Turn, Eight;
    TurnAdds(8, n, 1);
    TurnEight(r);
  }

  lemma TurnOnce()
    ensures Turn(0, 1) == 1 && Turn(1, 1) == 2
  {
    assert Turn(1, 1) == BitStep(Turn(0, 1));
  }

  lemma Turn40()
    ensures Turn(40, 1) == 211
  {
    hide Turn;
    TurnOnce();
    TurnsByEight(0, 1, 49);
    TurnsByEight(8, 49, 244);
    TurnsByEight(16, 244, 70);
    TurnsByEight(24, 70, 155);
    TurnsByEight(32, 155, 211);
  }

  lemma Turn80()
    ensures Turn(80, 1) == 74
  {
    hide Turn;
    Turn40();
    TurnsByEight(40, 211, 87);
    TurnsByEight(48, 87, 233);
    TurnsByEight(56, 233, 73);
    TurnsByEight(64, 73, 181);
    TurnsByEight(72, 181, 74);
  }

  lemma Turn120()
    ensures Turn(120, 1) == 104
  {
    hide Turn;
    Turn80();
    TurnsByEight(80, 74, 230);
    TurnsByEight(88, 230, 103);
    TurnsByEight(96, 103, 44);
    TurnsByEight(104, 44, 251);
    TurnsByEight(112, 251, 104);
  }

  lemma Turn127()
    ensures Turn(127, 1) == 1
  {
    Turn120();
    assert Turn(121, 1) == BitStep(Turn(120, 1));
    assert Turn(122, 1) == BitStep(Turn(121, 1));
    assert Turn(123, 1) == BitStep(Turn(122, 1));
    assert Turn(124, 1) == BitStep(Turn(123, 1));
    assert Turn(125, 1) == BitStep(Turn(124, 1));
    assert Turn(126, 1) == BitStep(Turn(125, 1));
    assert Turn(127, 1) == BitStep(Turn(126, 1));
  }

  /** 1 comes back after `m` turns and after `m + d` turns only if it does after `d`. */
  lemma TurnBack(m: nat, d: nat)
    requires Turn(m, 1) == 1
    ensures Turn(m + d, 1) == Turn(d, 1)
  {
    hide Turn;
    TurnAdds(d, m, 1);
  }

  lemma {:induction false} TurnBackTimes(m: nat, k: nat, d: nat)
    requires Turn(m, 1) == 1
    ensures Turn(m * k + d, 1) == Turn(d, 1)
  {
    hide Turn;
    if k > 0 {
      TurnBackTimes(m, k - 1, d);
      TurnBack(m, m * (k - 1) + d);
      assert m * k == m + m * (k - 1);
    } else {
      assert m * k == 0;
    }
  }

  lemma PrimeBy(d: nat)
    requires 2 <= d < 127
    ensures 127 % d != 0
  {
  }

  /** 127 is prime, so no shorter cycle exists: it would have a shorter one in turn. */
  lemma {:induction false} NoShorterCycle(d: nat)
    requires 1 <= d < 127
    ensures Turn(d, 1) != 1
  {
    hide Turn;
    TurnOnce();
    if d > 1 {
      PrimeBy(d);
      NoShorterCycle(127 % d);
      if Turn(d, 1) == 1 {
        Turn127();
        TurnBackTimes(d, 127 / d, 127 % d);
      }
    }
  }

  lemma CycleOf127(d: nat)
    ensures Turn(d, 1) == 1 <==> d % 127 == 0
  {
    hide Turn;
    Turn127();
    TurnBackTimes(127, d / 127, d % 127);
    if d % 127 == 0 {
      TurnZero(1);
    } else {
      NoShorterCycle(d % 127);
    }
  }

  /** Two wrong bits are missed if and only if their distance is a multiple of 127. */
  lemma TwoBitsMissedIff(frame: Frame, i: nat, j: nat)
    requires |frame| >= 1 && i < j < 8 * |frame| && Passes(frame)
    ensures Passes(Xor(frame, Xor(OneBit(|frame|, i), OneBit(|frame|, j)))) <==> (j - i) % 127 == 0
  {
    var n := |frame|;
    hide Passes, Crc, Xor, OneBit, Turn, Plus;
    MissedIffErrorPasses(frame, Xor(OneBit(n, i), OneBit(n, j)));
    CrcLinear(OneBit(n, i), OneBit(n, j));
    CrcOfOneBit(n, i);
    CrcOfOneBit(n, j);
    var m := 8 * n + 7 - j;
    TurnAdds(m, j - i, 1);
    TurnLinear(m, Turn(j - i, 1), 1);
    TurnOneToOne(m, Plus(Turn(j - i, 1), 1));
    PlusZeroIff(Turn(j - i, 1), 1);
    CycleOf127(j - i);
  }

  // ---------- crc_calc_block_crc8 ----------

  method CrcCalcBlock(buf: array<bv8>, len: nat) returns (remainder: bv8)
    requires len <= buf.Length
    ensures remainder == Crc(buf[..len])
  {
    hide Crc;
    remainder := 0;
    EmptyCrc();
    for byte := 0 to len
      invariant remainder == Crc(buf[..byte])
    {
      ghost var before := Plus(remainder, buf[byte]);
      remainder := remainder ^ buf[byte];
      for bit := 8 downto 0
        invariant remainder == Turn(8 - bit, before)
      {
        if remainder & TOP_BIT != 0 {
          remainder := (remainder << 1) ^ POLYNOMIAL;
        } else {
          remainder := remainder << 1;
        }
      }
      NextCrc(buf[..byte], buf[byte]);
      assert buf[..byte + 1] == buf[..byte] + [buf[byte]];
    }
  }

  lemma EmptyCrc()
    ensures Crc([]) == 0
  {
  }

  lemma NextCrc(s: Frame, b: bv8)
    ensures Crc(s + [b]) == Turn(8, Plus(Crc(s), b))
  {
    hide Turn, Plus;
    assert (s + [b])[..|s|] == s;
  }

  // ---------- spi_link_send ----------

  /** What the driver call does to the receive buffer. */
  method Receive(bufIn: array<bv8>, received: Frame)
    requires |received| <= bufIn.Length
    modifies bufIn
    ensures bufIn[..] == received + old(bufIn[|received|..])
  {
    forall k | 0 <= k < |received| {
      bufIn[k] := received[k];
    }
  }

  class SpiLink {
    var msgCnt: nat // uint32_t
    var crcErrCnt: nat // uint32_t

    constructor ()
      ensures msgCnt == 0 && crcErrCnt == 0
    {
      msgCnt, crcErrCnt := 0, 0;
    }

    /** Exchange `count` bytes with the peer. The driver call fills `bufIn` with
        `received`, whatever arrived; `sent` is what went out. */
    method Send(bufOut: array<bv8>, count: nat, bufIn: array<bv8>, received: Frame)
      returns (crcValid: bool, sent: Frame)
      requires 1 <= count < 0x1_0000_0000
      requires count <= bufOut.Length && count <= bufIn.Length && |received| == count
      modifies this, bufOut, bufIn
      ensures sent == Seal(old(bufOut[..count]))
      ensures bufIn[..count] == received && bufIn[count..] == old(bufIn[count..])
      ensures bufOut != bufIn ==> bufOut[..] == sent + old(bufOut[count..])
      ensures crcValid <==> Passes(received)
      ensures msgCnt == (old(msgCnt) + 1) % 0x1_0000_0000
      ensures crcErrCnt == if crcValid then old(crcErrCnt) else (old(crcErrCnt) + 1) % 0x1_0000_0000
    {
      var crc := CrcCalcBlock(bufOut, count - 1);
      bufOut[count - 1] := crc;
      sent := bufOut[..count];
      assert sent == Seal(old(bufOut[..count])) by {
        assert old(bufOut[..count])[..count - 1] == old(bufOut[..count - 1]);
      }
      assert bufOut[count..] == old(bufOut[count..]);
      Receive(bufIn, received);
      msgCnt := (msgCnt + 1) % 0x1_0000_0000;
      var computed := CrcCalcBlock(bufIn, count - 1);
      assert bufIn[..count - 1] == received[..count - 1];
      assert bufIn[count - 1] == received[count - 1];
      if computed == bufIn[count - 1] {
        crcValid := true;
      } else {
        crcValid := false;
        crcErrCnt := (crcErrCnt + 1) % 0x1_0000_0000;
      }
    }
  }
}
