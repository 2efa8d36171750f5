/** Queue limits: chunked devices, and where a partition's first aligned byte lies. */
module QueueLimits {
  import opened Types

  /** The members of queue_limits used here; all are C `unsigned int`. */
  datatype Limits = Limits(maxSectors: nat, maxHwSectors: nat, maxDiscard: nat, maxWriteSame: nat,
                           chunk: nat, physicalBlock: nat, ioMin: nat, alignmentOffset: nat)

  datatype Kind = BlockPc | Discard | WriteSame | Ordinary

  // ------------------------------------------------------------------ chunks

  /** Bitwise and. */
  function And(a: nat, b: nat): nat {
    if a == 0 || b == 0 then 0 else 2 * And(a / 2, b / 2) + (if a % 2 == 1 && b % 2 == 1 then 1 else 0)
  }

  function Pow2(k: nat): (p: nat)
    ensures p > 0
  {
    if k == 0 then 1 else 2 * Pow2(k - 1)
  }

  ghost predicate IsPow2(c: nat) { exists k: nat :: Pow2(k) == c }

  /** blk_max_size_offset. */
  function MaxSizeOffset(lim: Limits, offset: nat): int {
    if lim.chunk == 0 then lim.maxSectors else lim.chunk - And(offset, lim.chunk - 1)
  }

  /** blk_queue_get_max_sectors. */
  function QueueMaxSectors(lim: Limits, kind: Kind): int {
    match kind
    case Discard => Min(lim.maxDiscard, (TWO_32 - 1) / 512)
    case WriteSame => lim.maxWriteSame
    case _ => lim.maxSectors
  }

  /** blk_rq_get_max_sectors. */
  function RqMaxSectors(lim: Limits, kind: Kind, pos: nat): int {
    if kind.BlockPc? then lim.maxHwSectors
    else if lim.chunk == 0 || kind.Discard? then QueueMaxSectors(lim, kind)
    else Min(MaxSizeOffset(lim, pos), QueueMaxSectors(lim, kind))
  }

  /** All sectors of the request lie in one chunk. */
  predicate WithinChunk(pos: nat, sectors: nat, chunk: nat)
    requires sectors > 0 && chunk > 0
  {
    pos / chunk == (pos + sectors - 1) / chunk
  }

  lemma AndStep(a: nat, b: nat)
    ensures And(a, b) == 2 * And(a / 2, b / 2) + (if a % 2 == 1 && b % 2 == 1 then 1 else 0)
  {
  }

  lemma AndOdd(a: nat, p: nat)
    requires p > 0
    ensures And(a, 2 * p - 1) == 2 * And(a / 2, p - 1) + a % 2
  {
    AndStep(a, 2 * p - 1);
    assert (2 * p - 1) / 2 == p - 1 && (2 * p - 1) % 2 == 1;
  }

  lemma {:induction false} MaskIsRemainder(a: nat, k: nat)
    ensures And(a, Pow2(k) - 1) == a % Pow2(k)
    decreases k
  {
    if k > 0 {
      var p := Pow2(k - 1);
      MaskIsRemainder(a / 2, k - 1);
      AndOdd(a, p);
      HalfRemainder(a, p, Pow2(k));
    }
  }

  lemma HalfRemainder(a: nat, p: nat, d: nat)
    requires p > 0 && d == 2 * p
    ensures a % d == 2 * (a / 2 % p) + a % 2
  {
    var q, r := a / 2 / p, a / 2 % p;
    assert a / 2 == p * q + r;
    Doubled(p, q, d);
    Remainder(a, d, q, 2 * r + a % 2);
  }

  lemma Doubled(p: int, q: int, d: int)
    requires d == 2 * p
    ensures d * q == 2 * (p * q)
  {
  }

  /** Quotient and remainder are unique. */
  lemma Remainder(a: int, d: nat, q: int, r: nat)
    requires d > 0 && r < d && a == d * q + r
    ensures a % d == r && a / d == q
  {
    var q', r' := a / d, a % d;
    assert d * (q - q') == r' - r by {
      assert a == d * q' + r';
      assert d * (q - q') == d * q - d * q';
    }
    if q != q' {
      SmallMultiple(d, q - q', r' - r);
    }
  }

  lemma {:induction false} MulAtLeast(d: int, k: int)
    requires d > 0 && k >= 1
    ensures d * k >= d
    decreases k
  {
    if k > 1 {
      MulAtLeast(d, k - 1);
      assert d * k == d * (k - 1) + d;
    }
  }

  lemma SmallMultiple(d: int, k: int, x: int)
    requires d > 0 && d * k == x && -d < x < d
    ensures k == 0
  {
    if k > 0 {
      MulAtLeast(d, k);
    } else if k < 0 {
      MulAtLeast(d, -k);
    }
  }

  /** A request fits its chunk exactly when it does not reach past the next boundary. */
  lemma FitsChunkIff(pos: nat, sectors: nat, chunk: nat)
    requires sectors > 0 && chunk > 0
    ensures WithinChunk(pos, sectors, chunk) <==> sectors <= chunk - pos % chunk
  {
    var q, r := pos / chunk, pos % chunk;
    var last := pos + sectors - 1;
    assert pos == chunk * q + r && last == chunk * (last / chunk) + last % chunk;
    if sectors <= chunk - r {
      Remainder(last, chunk, q, r + sectors - 1);
    }
  }

  /** On a power-of-two chunk a request within its limit never crosses a boundary; the chunk limit is exact. */
  lemma NeverCrossesChunk(lim: Limits, kind: Kind, pos: nat, sectors: nat)
    requires IsPow2(lim.chunk) && (kind.Ordinary? || kind.WriteSame?) && sectors > 0
    ensures lim.chunk > 0
    ensures sectors <= RqMaxSectors(lim, kind, pos) ==> WithinChunk(pos, sectors, lim.chunk)
    ensures sectors <= QueueMaxSectors(lim, kind) ==>
              (WithinChunk(pos, sectors, lim.chunk) <==> sectors <= RqMaxSectors(lim, kind, pos))
  {
    var k: nat :| Pow2(k) == lim.chunk;
    MaskIsRemainder(pos, k);
    FitsChunkIff(pos, sectors, lim.chunk);
  }

  /** Pass-through and discard requests are bounded by their own limits only; a discard's bytes fit 32 bits. */
  lemma OtherLimits(lim: Limits, pos: nat, sectors: nat)
    ensures sectors <= RqMaxSectors(lim, BlockPc, pos) <==> sectors <= lim.maxHwSectors
    ensures sectors <= RqMaxSectors(lim, Discard, pos) <==> sectors <= lim.maxDiscard && sectors * 512 < TWO_32
  {
  }

  lemma TwicePow2(d: nat)
    ensures IsPow2(d) ==> IsPow2(2 * d)
  {
    if IsPow2(d) {
      var k: nat :| Pow2(k) == d;
      assert Pow2(k + 1) == 2 * d;
    }
  }

  /** Every chunk size that is not a power of two has an offset at which a full-sized request crosses. */
  lemma {:induction false} OtherChunksCross(c: nat) returns (offset: nat)
    requires c > 0 && !IsPow2(c)
    ensures 0 < offset < c && And(offset, c - 1) == 0
    decreases c
  {
    if c % 2 == 1 {
      assert Pow2(0) == 1;
      offset := 1;
      assert And(1, c - 1) == 2 * And(0, (c - 1) / 2);
    } else {
      var d := c / 2;
      TwicePow2(d);
      var half := OtherChunksCross(d);
      offset := 2 * half;
      assert And(offset, c - 1) == 2 * And(half, d - 1);
    }
  }

  /** Every request within the chunk limit at its offset stays in one chunk. */
  ghost predicate ChunkLimitRight(lim: Limits)
    requires lim.chunk > 0
  {
    forall pos: nat, n: nat :: 0 < n <= MaxSizeOffset(lim, pos) ==> WithinChunk(pos, n, lim.chunk)
  }

  lemma PowersLimitRight(lim: Limits, k: nat)
    requires lim.chunk == Pow2(k)
    ensures ChunkLimitRight(lim)
  {
    forall pos: nat, n: nat | 0 < n <= MaxSizeOffset(lim, pos) ensures WithinChunk(pos, n, lim.chunk) {
      MaskIsRemainder(pos, k);
      FitsChunkIff(pos, n, lim.chunk);
    }
  }

  lemma OthersLimitWrong(lim: Limits)
    requires lim.chunk > 0 && !IsPow2(lim.chunk)
    ensures !ChunkLimitRight(lim)
  {
    var pos := OtherChunksCross(lim.chunk);
    var n := lim.chunk;
    FitsChunkIff(pos, n, n);
    Remainder(pos, n, 0, pos);
    assert n <= MaxSizeOffset(lim, pos) && !WithinChunk(pos, n, n);
  }

  /** The chunk limit is right at every offset exactly when the chunk size is a power of two. */
  lemma ChunkLimitRightIff(lim: Limits)
    requires lim.chunk > 0
    ensures ChunkLimitRight(lim) <==> IsPow2(lim.chunk)
  {
    if IsPow2(lim.chunk) {
      var k: nat :| Pow2(k) == lim.chunk;
      PowersLimitRight(lim, k);
    } else {
      OthersLimitWrong(lim);
    }
  }

  // --------------------------------------------------------------- alignment

  function Granularity(lim: Limits): nat { Max(lim.physicalBlock, lim.ioMin) }

  /** Distance in bytes of the sector from the last granularity boundary. */
  function Misplacement(g: nat, sector: nat): nat
    requires g >= 512
  {
    sector % (g / 512) * 512
  }

  /** The unsigned 32-bit value before the final conversion to int. */
  function UnsignedOffset(lim: Limits, sector: nat): nat
    requires Granularity(lim) >= 512
  {
    var g := Granularity(lim);
    (g + lim.alignmentOffset - Misplacement(g, sector)) % TWO_32 % g
  }

  /** queue_limit_alignment_offset. */
  function AlignmentOffset(lim: Limits, sector: nat): int
    requires Granularity(lim) >= 512
  {
    Int32(UnsignedOffset(lim, sector))
  }

  predicate Uints(lim: Limits) {
    lim.physicalBlock < TWO_32 && lim.ioMin < TWO_32 && lim.alignmentOffset < TWO_32
  }

  /** `sector` plus the offset is aligned: it lies at alignment_offset modulo the granularity. */
  predicate Aligned(lim: Limits, sector: nat)
    requires Granularity(lim) >= 512
  {
    (sector * 512 + AlignmentOffset(lim, sector) - lim.alignmentOffset) % Granularity(lim) == 0
  }

  /** The sum does not fit 32 bits. */
  predicate Wraps(lim: Limits, sector: nat)
    requires Granularity(lim) >= 512
  {
    Granularity(lim) + lim.alignmentOffset - Misplacement(Granularity(lim), sector) >= TWO_32
  }

  /**
   Up to 2^31 the sum may wrap only if the granularity divides 2^32. Beyond, it must not wrap and the
   distance to the next aligned byte must stay below 2^31.
   */
  predicate Representable(lim: Limits, sector: nat)
    requires Granularity(lim) >= 512
  {
    var g, a, ao := Granularity(lim), Misplacement(Granularity(lim), sector), lim.alignmentOffset;
    if g <= TWO_31 then !Wraps(lim, sector) || TWO_32 % g == 0
    else !Wraps(lim, sector) && (if ao < a then g else 0) + ao - a < TWO_31
  }

  lemma MultipleMod(g: nat, j: int, y: int)
    requires g > 0
    ensures (g * j + y) % g == y % g
  {
    var q, r := y / g, y % g;
    assert g * j + y == g * (j + q) + r by {
      assert y == g * q + r;
      assert g * (j + q) == g * j + g * q;
    }
    Remainder(g * j + y, g, j + q, r);
  }

  lemma NegatedMod(g: nat, y: int)
    requires g > 0
    ensures (-y) % g == 0 <==> y % g == 0
  {
    if y % g == 0 {
      assert -y == g * -(y / g) by { assert y == g * (y / g); }
      MultipleMod(g, -(y / g), 0);
    }
    if (-y) % g == 0 {
      assert y == g * -(-y / g) by { assert -y == g * (-y / g); }
      MultipleMod(g, -(-y / g), 0);
    }
  }

  lemma SectorBytes(g: nat, sector: nat)
    requires g >= 512 && g % 512 == 0
    ensures sector * 512 == g * (sector / (g / 512)) + Misplacement(g, sector) && Misplacement(g, sector) < g
  {
    var m := g / 512;
    var q := sector / m;
    assert sector == m * q + sector % m;
    assert g * q == 512 * (m * q) by {
      assert g == 512 * m;
    }
  }

  lemma StoredAsInt(r: nat)
    requires r < TWO_32
    ensures Int32(r) == r - TWO_32 * (if r < TWO_31 then 0 else 1)
  {
  }

  lemma Reduced(sum: nat, g: nat)
    requires sum < 2 * TWO_32 && g > 0
    ensures sum % TWO_32 % g == sum - TWO_32 * Ones(sum >= TWO_32) - g * (sum % TWO_32 / g)
  {
    var x := sum % TWO_32;
    assert x == g * (x / g) + x % g;
  }

  /** What the computation leaves behind: whole granules, and 2^32 for each time a value wrapped. */
  lemma Residue(lim: Limits, sector: nat) returns (j: int)
    requires Uints(lim) && Granularity(lim) >= 512 && Granularity(lim) % 512 == 0
    ensures sector * 512 + AlignmentOffset(lim, sector) - lim.alignmentOffset
            == Granularity(lim) * j - TWO_32 * (Ones(Wraps(lim, sector)) + Ones(UnsignedOffset(lim, sector) >= TWO_31))
  {
    var g, a, q := Granularity(lim), Misplacement(Granularity(lim), sector), sector / (Granularity(lim) / 512);
    SectorBytes(g, sector);
    var sum := g + lim.alignmentOffset - a;
    Reduced(sum, g);
    var r, k := UnsignedOffset(lim, sector), sum % TWO_32 / g;
    StoredAsInt(r);
    j := q + 1 - k;
    Distribute(g, q, k);
  }

  lemma Distribute(g: int, q: int, k: int)
    ensures g * (q + 1 - k) == g * q + g - g * k
  {
  }

  /** The alignment formula is right exactly when nothing wraps harmfully. */
  lemma AlignedIff(lim: Limits, sector: nat)
    requires Uints(lim) && Granularity(lim) >= 512 && Granularity(lim) % 512 == 0
    ensures Aligned(lim, sector) <==> Representable(lim, sector)
  {
    var g := Granularity(lim);
    var j := Residue(lim, sector);
    Decide(g, j, Wraps(lim, sector), UnsignedOffset(lim, sector) >= TWO_31);
    if g <= TWO_31 {
      assert UnsignedOffset(lim, sector) < TWO_31;
    } else if !Wraps(lim, sector) {
      UnwrappedOffset(lim, sector);
    } else {
      LargeNeverDivides(g, 1);
    }
  }

  /** Without wrapping, the offset is the distance to the next aligned byte. */
  lemma UnwrappedOffset(lim: Limits, sector: nat)
    requires Uints(lim) && Granularity(lim) > TWO_31 && Granularity(lim) % 512 == 0 && !Wraps(lim, sector)
    ensures var a, ao := Misplacement(Granularity(lim), sector), lim.alignmentOffset;
            UnsignedOffset(lim, sector) == (if ao < a then Granularity(lim) else 0) + ao - a
  {
    var g, a, ao := Granularity(lim), Misplacement(Granularity(lim), sector), lim.alignmentOffset;
    SectorBytes(g, sector);
    var x := g + ao - a;
    if ao < a {
      Remainder(x, g, 0, x);
    } else {
      Remainder(x, g, 1, ao - a);
    }
  }

  lemma Decide(g: nat, j: int, wraps: bool, negative: bool)
    requires 0 < g < TWO_32 && (negative ==> g > TWO_31)
    ensures (g * j - TWO_32 * (Ones(wraps) + Ones(negative))) % g == 0 <==> (!wraps || TWO_32 % g == 0) && !negative
  {
    WrappedMod(g, j, Ones(wraps) + Ones(negative));
    if negative {
      LargeNeverDivides(g, Ones(wraps) + 1);
    }
  }

  lemma WrappedMod(g: nat, j: int, n: nat)
    requires g > 0
    ensures (g * j - TWO_32 * n) % g == 0 <==> TWO_32 * n % g == 0
  {
    MultipleMod(g, j, -(TWO_32 * n));
    NegatedMod(g, TWO_32 * n);
  }

  /** No granularity above 2^31 divides 2^32 or 2^33. */
  lemma LargeNeverDivides(g: nat, n: nat)
    requires TWO_31 < g < TWO_32 && 1 <= n <= 2
    ensures TWO_32 * n % g != 0
  {
    if n == 1 {
      Remainder(TWO_32, g, 1, TWO_32 - g);
    } else if 2 * TWO_32 < 3 * g {
      Remainder(2 * TWO_32, g, 2, 2 * TWO_32 - 2 * g);
    } else {
      Remainder(2 * TWO_32, g, 3, 2 * TWO_32 - 3 * g);
    }
  }

  /** A granularity that divides 2^31, as every power of two up to it does, is always handled right. */
  lemma PowersOfTwoAreAligned(lim: Limits, sector: nat)
    requires Uints(lim) && Granularity(lim) >= 512 && Granularity(lim) % 512 == 0 && TWO_31 % Granularity(lim) == 0
    ensures Aligned(lim, sector) && 0 <= AlignmentOffset(lim, sector) < Granularity(lim)
  {
    var g := Granularity(lim);
    assert TWO_31 == g * (TWO_31 / g);
    assert g <= TWO_31;
    MultipleMod(g, TWO_31 / g, TWO_31);
    assert TWO_32 % g == 0;
    AlignedIff(lim, sector);
  }

  /** A granularity of 1536 bytes with an alignment offset just below 2^32 wraps and lands between boundaries. */
  lemma WrappedOffsetIsWrong()
    ensures var lim := Limits(8, 8, 0, 0, 0, 512, 1536, TWO_32 - 512);
            !Aligned(lim, 0) && AlignmentOffset(lim, 0) == 1024
  {
  }
}
