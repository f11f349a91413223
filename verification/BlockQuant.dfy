/**
 Q4_0 blocks: 32 weights as one 16-bit float scale and 16 bytes, the low nibbles first and the high nibbles 16 places
 on. The writer's encoder, the loader's decoder, and what a weight becomes on the way.
 */
module BlockQuant {
  import opened Basics
  import opened Matrix
  import opened Layout
  import opened Quant
  import Gguf
  import GgufFile

  /** `np.round`: to the nearest integer, halves to even. */
  function RoundEven(x: real): int {
    var f := x.Floor;
    if x - f as real < 0.5 then f
    else if x - f as real > 0.5 then f + 1
    else if f % 2 == 0 then f else f + 1
  }

  function Clip(q: int): (c: int)
    ensures -8 <= c <= 7
  {
    if q < -8 then -8 else if q > 7 then 7 else q
  }

  /** The largest magnitude among the first `k` weights of block `b`. */
  function BlockMax(w: seq<real>, b: nat, k: nat): (m: real)
    requires BLOCK * b + k <= |w|
    ensures m >= 0.0
  {
    if k == 0 then 0.0
    else
      var before := BlockMax(w, b, k - 1);
      var v := Abs(w[BLOCK * b + (k - 1)]);
      if v > before then v else before
  }

  function BlockScale(w: seq<real>, b: nat): (s: real)
    requires BLOCK * (b + 1) <= |w|
    ensures s > 0.0
  {
    var m := BlockMax(w, b, BLOCK);
    if m == 0.0 then 1.0 else m / 8.0
  }

  /** The biased code, 0 to 15. */
  function Biased(w: seq<real>, b: nat, j: nat): (n: nat)
    requires BLOCK * (b + 1) <= |w| && j < BLOCK
    ensures n < 16
  {
    Clip(RoundEven(w[BLOCK * b + j] / BlockScale(w, b))) + 8
  }

  ghost predicate TwoBytes(half: Half) {
    forall s :: |half.enc(s)| == 2
  }

  function QuantByte(w: seq<real>, b: nat, j: nat): Byte
    requires BLOCK * (b + 1) <= |w| && j < 16
  {
    Pack(Biased(w, b, j), Biased(w, b, j + 16))
  }

  function EncodeBlock(half: Half, w: seq<real>, b: nat): (bytes: seq<Byte>)
    requires BLOCK * (b + 1) <= |w| && TwoBytes(half)
    ensures |bytes| == BLOCK_BYTES
  {
    half.enc(BlockScale(w, b)) + seq(16, j requires 0 <= j < 16 => QuantByte(w, b, j))
  }

  /** The first `n` blocks. */
  function EncodeBlocks(half: Half, w: seq<real>, n: nat): (bytes: seq<Byte>)
    requires BLOCK * n <= |w| && TwoBytes(half)
    ensures |bytes| == BLOCK_BYTES * n
  {
    if n == 0 then [] else EncodeBlocks(half, w, n - 1) + EncodeBlock(half, w, n - 1)
  }

  /** A biased code times the scale. */
  function Weight(n: nat, s: real): real {
    (n - 8) as real * s
  }

  /** Weight `j` of block `b` as the loader reads it. */
  function DecodeAt(half: Half, blocks: seq<Byte>, b: nat, j: nat): real
    requires BLOCK_BYTES * (b + 1) <= |blocks| && j < BLOCK
  {
    var off := BLOCK_BYTES * b;
    var byte := blocks[off + 2 + (if j < 16 then j else j - 16)];
    Weight(if j < 16 then Low(byte) else High(byte), half.dec(blocks[off..off + 2]))
  }

  /** What weight `j` of block `b` becomes: its code times the scale that survives the 16-bit float. */
  function Stored(half: Half, w: seq<real>, b: nat, j: nat): real
    requires BLOCK * (b + 1) <= |w| && j < BLOCK
  {
    Weight(Biased(w, b, j), half.dec(half.enc(BlockScale(w, b))))
  }

  lemma {:induction false} BlockStays(half: Half, w: seq<real>, b: nat, n: nat)
    requires b < n && BLOCK * n <= |w| && TwoBytes(half)
    ensures BLOCK_BYTES * b + BLOCK_BYTES <= |EncodeBlocks(half, w, n)|
    ensures EncodeBlocks(half, w, n)[BLOCK_BYTES * b..BLOCK_BYTES * b + BLOCK_BYTES] == EncodeBlock(half, w, b)
    decreases n
  {
    hide EncodeBlock, TwoBytes;
    if b < n - 1 {
      BlockStays(half, w, b, n - 1);
      var part := EncodeBlocks(half, w, n - 1);
      assert EncodeBlocks(half, w, n)[..|part|] == part;
      assert part[BLOCK_BYTES * b..BLOCK_BYTES * b + BLOCK_BYTES]
          == EncodeBlocks(half, w, n)[BLOCK_BYTES * b..BLOCK_BYTES * b + BLOCK_BYTES];
    }
  }

  lemma NibblesSurvive(lo: nat, hi: nat)
    requires lo < 16 && hi < 16
    ensures Low(Pack(lo, hi)) == lo && High(Pack(lo, hi)) == hi
  {
  }

  /** Decoding what was encoded: the code of every weight survives, in its place. */
  lemma DecodeEncoded(half: Half, w: seq<real>, n: nat, b: nat, j: nat)
    requires b < n && BLOCK * n <= |w| && TwoBytes(half) && j < BLOCK
    ensures BLOCK_BYTES * (b + 1) <= |EncodeBlocks(half, w, n)|
    ensures DecodeAt(half, EncodeBlocks(half, w, n), b, j) == Stored(half, w, b, j)
  {
    hide Low, High, Pack, Biased, EncodeBlocks, BlockScale, Weight;
    BlockStays(half, w, b, n);
    var blocks := EncodeBlocks(half, w, n);
    var off := BLOCK_BYTES * b;
    var block := blocks[off..off + BLOCK_BYTES];
    var h := if j < 16 then j else j - 16;
    assert block[..2] == half.enc(BlockScale(w, b));
    assert blocks[off..off + 2] == block[..2];
    assert blocks[off + 2 + h] == block[2 + h] == QuantByte(w, b, h);
    NibblesSurvive(Biased(w, b, h), Biased(w, b, h + 16));
  }

  lemma {:induction false} BlockMaxBounds(w: seq<real>, b: nat, k: nat, t: nat)
    requires BLOCK * b + k <= |w| && t < k
    ensures Abs(w[BLOCK * b + t]) <= BlockMax(w, b, k)
    decreases k
  {
    if t < k - 1 {
      BlockMaxBounds(w, b, k - 1, t);
    }
  }

  lemma RoundEvenNear(x: real)
    ensures -0.5 <= RoundEven(x) as real - x <= 0.5
  {
  }

  /** With a scale the 16-bit float carries exactly, a weight comes back within one block scale; and within half of it
      exactly when it is at most seven and a half scales, as the codes stop at seven on the positive side. */
  lemma StoredError(half: Half, w: seq<real>, b: nat, j: nat)
    requires BLOCK * (b + 1) <= |w| && j < BLOCK
    requires half.dec(half.enc(BlockScale(w, b))) == BlockScale(w, b)
    ensures var (v, s) := (w[BLOCK * b + j], BlockScale(w, b));
            && Abs(Stored(half, w, b, j) - v) <= s
            && (Abs(Stored(half, w, b, j) - v) <= s / 2.0 <==> v / s <= 7.5)
  {
    hide BlockScale, RoundEven, Clip, Weight, Abs;
    var (v, s) := (w[BLOCK * b + j], BlockScale(w, b));
    WithinEightScales(w, b, j);
    var c := Clip(RoundEven(v / s));
    WeightIs(c, s);
    assert Stored(half, w, b, j) == Weight(c + 8, s) == c as real * s;
    DivBetween(v, s, 8.0);
    Quotient(v, s);
    ClipError(v / s, s, v, Stored(half, w, b, j));
  }

  /** Where the half-scale bound fails: a positive weight that is the largest of its block stands at eight scales, is
      clipped to code seven and comes back a whole scale too small. */
  lemma LargestIsClipped(half: Half, w: seq<real>, b: nat, j: nat)
    requires BLOCK * (b + 1) <= |w| && j < BLOCK
    requires half.dec(half.enc(BlockScale(w, b))) == BlockScale(w, b)
    requires w[BLOCK * b + j] == BlockMax(w, b, BLOCK) > 0.0
    ensures Biased(w, b, j) == 7 + 8
    ensures Stored(half, w, b, j) == w[BLOCK * b + j] - BlockScale(w, b)
  {
    hide BlockMax, Weight;
    var (v, s) := (w[BLOCK * b + j], BlockScale(w, b));
    assert v == 8.0 * s;
    Quotient(v, s);
    ScaledInOrder(v / s, 8.0, s);
    assert v / s == 8.0;
    WeightIs(7, s);
  }

  lemma WithinEightScales(w: seq<real>, b: nat, j: nat)
    requires BLOCK * (b + 1) <= |w| && j < BLOCK
    ensures Abs(w[BLOCK * b + j]) <= 8.0 * BlockScale(w, b)
  {
    hide BlockMax;
    BlockMaxBounds(w, b, BLOCK, j);
  }

  lemma ClipNear(x: real)
    requires -8.0 <= x <= 8.0
    ensures -1.0 <= Clip(RoundEven(x)) as real - x <= 0.5
    ensures -0.5 <= Clip(RoundEven(x)) as real - x <==> x <= 7.5
  {
    RoundEvenNear(x);
  }

  lemma ClipError(x: real, s: real, v: real, u: real)
    requires s > 0.0 && v == x * s && -8.0 <= x <= 8.0 && u == Clip(RoundEven(x)) as real * s
    ensures Abs(u - v) <= s && (Abs(u - v) <= s / 2.0 <==> x <= 7.5)
  {
    hide RoundEven, Clip;
    ClipNear(x);
    ClippedOff(Clip(RoundEven(x)) as real, x, s, v, u);
  }

  lemma ClippedOff(c: real, x: real, s: real, v: real, u: real)
    requires s > 0.0 && v == x * s && u == c * s && -1.0 <= c - x <= 0.5
    ensures Abs(u - v) <= s
    ensures Abs(u - v) <= s / 2.0 <==> -0.5 <= c - x
  {
    hide Abs;
    Off(c, x, s, v, u, 1.0, s);
    Off(c, x, s, v, u, 0.5, s / 2.0);
  }

  lemma WeightIs(c: int, s: real)
    requires c >= -8
    ensures Weight(c + 8, s) == c as real * s
  {
  }

  // ---------------------------------------------------------------- in numbers

  lemma {:induction false} BlockMaxAttained(w: seq<real>, b: nat, k: nat) returns (t: nat)
    requires BLOCK * b + k <= |w| && BlockMax(w, b, k) > 0.0
    ensures t < k && Abs(w[BLOCK * b + t]) == BlockMax(w, b, k)
    decreases k
  {
    if Abs(w[BLOCK * b + (k - 1)]) > BlockMax(w, b, k - 1) {
      t := k - 1;
    } else {
      t := BlockMaxAttained(w, b, k - 1);
    }
  }

  /** The scale of a block is tight: no weight exceeds eight scales, and unless the block is all zero, when its scale is
      1, some weight of it, at `t`, is eight scales in magnitude. */
  lemma BlockScaleIsTight(w: seq<real>, b: nat) returns (t: nat)
    requires 32 * (b + 1) <= |w|
    ensures var s := BlockScale(w, b);
      if forall k :: 32 * b <= k < 32 * (b + 1) ==> w[k] == 0.0 then s == 1.0
      else
        && (forall k :: 32 * b <= k < 32 * (b + 1) ==> Abs(w[k]) <= 8.0 * s)
        && 32 * b <= t < 32 * (b + 1) && Abs(w[t]) == 8.0 * s
  {
    hide BlockMax, Abs;
    var m := BlockMax(w, b, BLOCK);
    t := 0;
    forall k | 32 * b <= k < 32 * (b + 1)
      ensures Abs(w[k]) <= m
      ensures m == 0.0 ==> w[k] == 0.0
    {
      BlockMaxBounds(w, b, BLOCK, k - 32 * b);
      AbsZero(w[k]);
    }
    if m > 0.0 {
      t := BlockMaxAttained(w, b, BLOCK);
      t := 32 * b + t;
      AbsZero(w[t]);
    }
  }

  /** The nearest code, ties to even, but never above seven. */
  lemma NearestBiased(v: real, s: real, c: int, u: real)
    requires s > 0.0 && Abs(v) <= 8.0 * s && c == Clip(RoundEven(v / s)) && u == c as real * s
    ensures if v > 7.5 * s then c == 7
            else Abs(u - v) <= s / 2.0 && (Abs(u - v) == s / 2.0 && v < 7.5 * s ==> c % 2 == 0)
  {
    hide Abs, RoundEven, Clip;
    var x := v / s;
    Quotient(v, s);
    DivBetween(v, s, 8.0);
    ScaledInOrder(7.5, x, s);
    EvenCode(x, c);
    if x <= 7.5 {
      ClippedOff(c as real, x, s, v, u);
      Distribute(c as real, x, s);
      AbsScaled(c as real - x, s, u - v);
      if Abs(u - v) == s / 2.0 {
        Cancel(Abs(c as real - x), 0.5, s);
      }
      ScaledInOrder(x, 7.5, s);
    }
  }

  lemma NearestNibble(v: real, s: real, biased: nat)
    requires s > 0.0 && Abs(v) <= 8.0 * s && biased == Clip(RoundEven(v / s)) + 8
    ensures
      var u := Weight(biased, s);
      if v > 7.5 * s then biased == 15
      else Abs(u - v) <= s / 2.0 && (Abs(u - v) == s / 2.0 && v < 7.5 * s ==> biased % 2 == 0)
  {
    hide Abs, RoundEven, Clip, Weight;
    WeightIs(biased - 8, s);
    NearestBiased(v, s, biased - 8, Weight(biased, s));
  }

  lemma EvenCode(x: real, c: int)
    requires -8.0 <= x <= 8.0 && c == Clip(RoundEven(x))
    ensures -8 <= c <= 7 && -1.0 <= c as real - x <= 0.5
    ensures if x > 7.5 then c == 7
            else -0.5 <= c as real - x && (Abs(c as real - x) == 0.5 && x < 7.5 ==> c % 2 == 0)
  {
    RoundEvenNear(x);
  }

  /** The bytes of a block: two for the scale, then sixteen, where byte `j` holds the code of weight `j` in its low half
      and of weight `j + 16` in its high half, each biased by eight and nearest to its weight. */
  lemma EncodedInNumbers(half: Half, w: seq<real>, n: nat, b: nat, j: nat)
    requires b < n && 32 * n <= |w| && TwoBytes(half) && j < 32
    ensures |EncodeBlocks(half, w, n)| == 18 * n
    ensures
      var (blocks, s, v) := (EncodeBlocks(half, w, n), BlockScale(w, b), w[32 * b + j]);
      var byte := blocks[18 * b + 2 + j % 16];
      var biased: nat := if j < 16 then byte % 16 else byte / 16;
      var u := Weight(biased, s);
      && blocks[18 * b..18 * b + 2] == half.enc(s)
      && if v > 7.5 * s then biased == 15
         else Abs(u - v) <= s / 2.0 && (Abs(u - v) == s / 2.0 && v < 7.5 * s ==> biased % 2 == 0)
  {
    hide Abs, RoundEven, Clip, BlockScale, EncodeBlocks, Weight;
    CodeInByte(half, w, n, b, j);
    WithinEightScales(w, b, j);
    var byte := EncodeBlocks(half, w, n)[18 * b + 2 + j % 16];
    NearestNibble(w[32 * b + j], BlockScale(w, b), if j < 16 then byte % 16 else byte / 16);
  }

  lemma CodeInByte(half: Half, w: seq<real>, n: nat, b: nat, j: nat)
    requires b < n && BLOCK * n <= |w| && TwoBytes(half) && j < BLOCK
    ensures |EncodeBlocks(half, w, n)| == BLOCK_BYTES * n
    ensures var blocks := EncodeBlocks(half, w, n);
            var byte := blocks[18 * b + 2 + j % 16];
            && blocks[18 * b..18 * b + 2] == half.enc(BlockScale(w, b))
            && (if j < 16 then byte % 16 else byte / 16) == Biased(w, b, j)
  {
    hide Biased, EncodeBlocks, BlockScale;
    BlockStays(half, w, b, n);
    var blocks := EncodeBlocks(half, w, n);
    var off := BLOCK_BYTES * b;
    var block := blocks[off..off + BLOCK_BYTES];
    assert block[..2] == half.enc(BlockScale(w, b));
    assert blocks[off..off + 2] == block[..2];
    assert blocks[off + 2 + j % 16] == block[2 + j % 16] == QuantByte(w, b, j % 16);
    NibblesSurvive(Biased(w, b, j % 16), Biased(w, b, j % 16 + 16));
  }

  /** The loader takes for a Q4_0 tensor exactly the bytes the encoder makes of its weights. */
  lemma SizeIsEncoded(half: Half, w: seq<real>, shape: seq<nat>)
    requires |w| == GgufFile.Total(shape) && TwoBytes(half)
    ensures GgufFile.TensorBytes(shape, Gguf.GQ4_0)
         == if |w| % 32 == 0 then Ok(|EncodeBlocks(half, w, |w| / 32)|) else Err(Gguf.BadShape)
  {
  }

  // ---------------------------------------------------------------- the loops

  method QuantizeBlocks(half: Half, w: seq<real>) returns (out: seq<Byte>)
    requires |w| % BLOCK == 0 && TwoBytes(half)
    ensures out == EncodeBlocks(half, w, |w| / BLOCK)
  {
    hide BlockScale, Biased;
    out := [];
    for b := 0 to |w| / BLOCK
      invariant out == EncodeBlocks(half, w, b)
    {
      var s := MeasureBlock(w, b);
      var block := half.enc(s);
      for j := 0 to 16
        invariant block == EncodeBlock(half, w, b)[..2 + j]
      {
        block := block + [QuantByte(w, b, j)];
      }
      out := out + block;
    }
  }

  method MeasureBlock(w: seq<real>, b: nat) returns (s: real)
    requires BLOCK * (b + 1) <= |w|
    ensures s == BlockScale(w, b)
  {
    var maxAbs := 0.0;
    for k := 0 to BLOCK
      invariant maxAbs == BlockMax(w, b, k)
    {
      var v := Abs(w[BLOCK * b + k]);
      if v > maxAbs {
        maxAbs := v;
      }
    }
    return if maxAbs == 0.0 then 1.0 else maxAbs / 8.0;
  }

  /** The flat list the blocks stand for. */
  function Decoded(half: Half, blocks: seq<Byte>, n: nat): (flat: seq<real>)
    requires |blocks| == BLOCK_BYTES * n
    ensures |flat| == BLOCK * n
  {
    seq(BLOCK * n, k requires 0 <= k < BLOCK * n => DecodeAt(half, blocks, k / BLOCK, k % BLOCK))
  }

  datatype Mismatch = NotWholeBlocks | WrongLength

  /** `Q4GgufTensor::from_blocks` followed by `dequantize`. */
  method Dequantize(half: Half, blocks: seq<Byte>, inDim: nat, outDim: nat) returns (r: Result<seq<real>, Mismatch>)
    ensures r == Err(NotWholeBlocks) <==> (inDim * outDim) % BLOCK != 0
    ensures r == Err(WrongLength) <==>
      (inDim * outDim) % BLOCK == 0 && |blocks| != inDim * outDim / BLOCK * BLOCK_BYTES
    ensures r.Ok? ==> |blocks| == BLOCK_BYTES * (inDim * outDim / BLOCK)
                      && |Decoded(half, blocks, inDim * outDim / BLOCK)| == outDim * inDim
                      && r.value == Transposed(Decoded(half, blocks, inDim * outDim / BLOCK), outDim, inDim)
  {
    var total := inDim * outDim;
    if total % BLOCK != 0 {
      return Err(NotWholeBlocks);
    }
    if |blocks| != total / BLOCK * BLOCK_BYTES {
      return Err(WrongLength);
    }
    assert total == outDim * inDim;
    var flat := DecodeFlat(half, blocks, total / BLOCK);
    var burn := ToRowMajor(flat, inDim, outDim);
    return Ok(burn);
  }

  /** First pass: the flat list, block by block. */
  method DecodeFlat(half: Half, blocks: seq<Byte>, n: nat) returns (flat: seq<real>)
    requires |blocks| == BLOCK_BYTES * n
    ensures flat == Decoded(half, blocks, n)
  {
    hide DecodeAt;
    var gguf := new real[BLOCK * n](_ => 0.0);
    for b := 0 to n
      invariant forall k :: 0 <= k < BLOCK * b ==> gguf[k] == DecodeAt(half, blocks, k / BLOCK, k % BLOCK)
    {
      DecodeOne(half, blocks, b, gguf);
      forall k | BLOCK * b <= k < BLOCK * (b + 1)
        ensures gguf[k] == DecodeAt(half, blocks, k / BLOCK, k % BLOCK)
      {
        assert k / BLOCK == b && k == BLOCK * b + k % BLOCK;
      }
    }
    return gguf[..];
  }

  /** One block: byte `j` gives places `j` and `j + 16`. */
  method DecodeOne(half: Half, blocks: seq<Byte>, b: nat, gguf: array<real>)
    requires BLOCK_BYTES * (b + 1) <= |blocks| && BLOCK * (b + 1) <= gguf.Length
    modifies gguf
    ensures forall k :: 0 <= k < BLOCK * b ==> gguf[k] == old(gguf[k])
    ensures forall j :: 0 <= j < BLOCK ==> gguf[BLOCK * b + j] == DecodeAt(half, blocks, b, j)
  {
    hide Weight, Low, High;
    var off := b * BLOCK_BYTES;
    var scale := half.dec([blocks[off], blocks[off + 1]]);
    assert blocks[off..off + 2] == [blocks[off], blocks[off + 1]];
    for j := 0 to 16
      invariant forall k :: 0 <= k < BLOCK * b ==> gguf[k] == old(gguf[k])
      invariant forall t :: 0 <= t < j ==> gguf[BLOCK * b + t] == DecodeAt(half, blocks, b, t)
      invariant forall t :: 16 <= t < 16 + j ==> gguf[BLOCK * b + t] == DecodeAt(half, blocks, b, t)
    {
      var byte := blocks[off + 2 + j];
      gguf[b * BLOCK + j] := Weight(Low(byte), scale);
      gguf[b * BLOCK + j + 16] := Weight(High(byte), scale);
    }
  }

  /** Second pass: column-major over `[in, out]` to row-major. The dense loader has the same two loops. */
  method ToRowMajor(flat: seq<real>, inDim: nat, outDim: nat) returns (burn: seq<real>)
    requires |flat| == outDim * inDim
    ensures burn == Transposed(flat, outDim, inDim)
  {
    hide TransposedAt;
    var out := new real[inDim * outDim](_ => 0.0);
    for i := 0 to inDim
      invariant i * outDim <= out.Length
      invariant forall x :: 0 <= x < i * outDim ==> out[x] == TransposedAt(flat, outDim, inDim, x)
    {
      MulGap(i, inDim, outDim);
      for j := 0 to outDim
        invariant forall x :: 0 <= x < i * outDim + j ==> out[x] == TransposedAt(flat, outDim, inDim, x)
      {
        FlatBound(j, i, outDim, inDim);
        MovesTo(flat, inDim, outDim, i, j);
        out[i * outDim + j] := flat[j * inDim + i];
      }
      assert (i + 1) * outDim == i * outDim + outDim;
    }
    burn := out[..];
  }

  lemma MovesTo(flat: seq<real>, inDim: nat, outDim: nat, i: nat, j: nat)
    requires |flat| == outDim * inDim && i < inDim && j < outDim
    ensures i * outDim + j < inDim * outDim && j * inDim + i < outDim * inDim
    ensures TransposedAt(flat, outDim, inDim, i * outDim + j) == flat[j * inDim + i]
  {
    FlatIndex(i, j, inDim, outDim);
    FlatBound(j, i, outDim, inDim);
  }

  // ---------------------------------------------------------------- a Q or K weight from checkpoint to model

  /** Flat place `x`, split into block and place within it. */
  lemma InBlock(x: nat, total: nat)
    requires x < total && total % BLOCK == 0
    ensures BLOCK * (x / BLOCK + 1) <= total && BLOCK * (x / BLOCK) + x % BLOCK == x
  {
  }

  /** What the writer and the decoder together make of a flat list. */
  function ThroughBlocks(half: Half, flat: seq<real>): (r: seq<real>)
    requires |flat| % BLOCK == 0 && TwoBytes(half)
    ensures |r| == |flat|
  {
    Decoded(half, EncodeBlocks(half, flat, |flat| / BLOCK), |flat| / BLOCK)
  }

  /** The stored image of the weight at flat place `x`. */
  function StoredAt(half: Half, flat: seq<real>, x: nat): real
    requires |flat| % BLOCK == 0 && x < |flat|
  {
    InBlock(x, |flat|);
    Stored(half, flat, x / BLOCK, x % BLOCK)
  }

  lemma ThroughBlocksAt(half: Half, flat: seq<real>, x: nat)
    requires |flat| % BLOCK == 0 && TwoBytes(half) && x < |flat|
    ensures ThroughBlocks(half, flat)[x] == StoredAt(half, flat, x)
  {
    hide EncodeBlocks, DecodeAt, Stored, TwoBytes;
    InBlock(x, |flat|);
    DecodeEncoded(half, flat, |flat| / BLOCK, x / BLOCK, x % BLOCK);
  }

  /** Where the writer puts the weight that the model has at `[i][j]`. */
  function WrittenPlace(m: Positive, n: nat, inDim: nat, i: nat, j: nat): (x: nat)
    requires i < inDim && j < n * (2 * m)
    ensures x < n * (2 * m) * inDim
  {
    FlatBound(Halved(m, n, j), i, n * (2 * m), inDim);
    Halved(m, n, j) * inDim + i
  }

  /** Through permutation, flattening, Q4_0 blocks, decode, transpose, un-permutation and the final swap, the weight at
      `[i][j]` is the stored image of the checkpoint's weight `[j][i]`. */
  lemma QkWeightLoads(half: Half, w: seq<real>, m: Positive, n: nat, inDim: nat, i: nat, j: nat)
    requires |w| == n * (2 * m) * inDim && |w| % BLOCK == 0 && TwoBytes(half) && i < inDim && j < n * (2 * m)
    ensures var (flat, x) := (PermuteRows(w, m, n, inDim), WrittenPlace(m, n, inDim, i, j));
            && flat[x] == At(w, n * (2 * m), inDim, j, i)
            && At(QkLoaded(ThroughBlocks(half, flat), m, n, inDim), inDim, n * (2 * m), i, j) == StoredAt(half, flat, x)
  {
    hide PermuteRows, QkLoaded, Halved, ThroughBlocks, StoredAt, TwoBytes;
    var flat := PermuteRows(w, m, n, inDim);
    LoadedEntry(ThroughBlocks(half, flat), m, n, inDim, i, j);
    WrittenEntry(w, m, n, inDim, i, j);
    ThroughBlocksAt(half, flat, WrittenPlace(m, n, inDim, i, j));
  }
}
