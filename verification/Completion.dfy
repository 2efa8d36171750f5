/**
 Completion of a bio chain, whole or in parts: blk_update_request, blk_rq_err_bytes and the
 error-boundary loop, with the C widths of the byte counters.
 */
module Completion {
  import opened Types
  import opened Lists
  import opened BioChains

  /** bio_advance: the cursor moves by whole sectors, the size by bytes. */
  function Advance(b: Bio, n: nat): Bio
    requires n <= b.size
  {
    b.(sector := b.sector + n / 512, size := b.size - n)
  }

  /** The completion loop: bios ended in order, bios left, and the bytes it took. */
  datatype Consumed = Consumed(ended: seq<nat>, rest: seq<Bio>, total: nat)

  function Consume(bios: seq<Bio>, n: nat): (c: Consumed)
    ensures c.total <= n
  {
    if bios == [] then Consumed([], [], 0)
    else if n < bios[0].size then Consumed([], [Advance(bios[0], n)] + bios[1..], n)
    else if n == bios[0].size then Consumed([bios[0].id], bios[1..], n)
    else
      var c := Consume(bios[1..], n - bios[0].size);
      Consumed([bios[0].id] + c.ended, c.rest, bios[0].size + c.total)
  }

  /** `total_bytes >> 9` added to a 64-bit sector, with total_bytes held in a C int. */
  function MoveSector(sector: nat, total: nat): nat {
    (sector + Int32(total) / 512) % TWO_64
  }

  /** Unsigned 32-bit subtraction; it wraps only below zero. */
  function Less(a: nat, b: nat): nat { if a >= b then a - b else (a - b) % TWO_32 }

  datatype Progress = Progress(more: bool, chain: Chain, ended: seq<nat>)

  /** blk_update_request; `fs` says that the sector cursor is meaningful. */
  function Update(c: Chain, fs: bool, n: nat): Progress {
    if c.bios == [] then Progress(false, c, [])
    else
      var k := Consume(c.bios, n);
      if k.rest == [] then Progress(false, c.(bios := [], dataLen := 0), k.ended)
      else
        Progress(true,
                 c.(bios := k.rest,
                    dataLen := Less(c.dataLen, k.total),
                    sector := if fs then MoveSector(c.sector, k.total) else c.sector,
                    failFast := if c.mixed then k.rest[0].failFast else c.failFast),
                 k.ended)
  }

  // ------------------------------------------------------------ one completion

  /** Every byte and every bio is accounted for: ended bios first, in chain order. */
  ghost predicate Conserved(bios: seq<Bio>, n: nat, c: Consumed) {
    && c.total == Min(n, Bytes(bios)) && c.total + Bytes(c.rest) == Bytes(bios)
    && c.ended + Ids(c.rest) == Ids(bios)
    && (forall i :: 0 <= i < |c.rest| ==> c.rest[i].size > 0)
    && (c.rest == [] <==> n >= Bytes(bios))
    && (c.rest != [] ==> c.total == n)
  }

  lemma IdsCons(bios: seq<Bio>)
    requires bios != []
    ensures Ids(bios) == [bios[0].id] + Ids(bios[1..])
  {
  }

  lemma ConservedInFirst(bios: seq<Bio>, n: nat)
    requires bios != [] && n < bios[0].size && forall i :: 0 <= i < |bios| ==> bios[i].size > 0
    ensures Conserved(bios, n, Consumed([], [Advance(bios[0], n)] + bios[1..], n))
  {
    var r := [Advance(bios[0], n)] + bios[1..];
    assert r[1..] == bios[1..] && Ids(r) == Ids(bios);
    assert [] + Ids(r) == Ids(r);
  }

  lemma ConservedAtFirst(bios: seq<Bio>)
    requires bios != [] && forall i :: 0 <= i < |bios| ==> bios[i].size > 0
    ensures Conserved(bios, bios[0].size, Consumed([bios[0].id], bios[1..], bios[0].size))
  {
    IdsCons(bios);
    assert bios[1..] != [] ==> bios[1..][0] == bios[1];
  }

  lemma ConservedBeyondFirst(bios: seq<Bio>, n: nat, c: Consumed)
    requires bios != [] && n > bios[0].size && Conserved(bios[1..], n - bios[0].size, c)
    ensures Conserved(bios, n, Consumed([bios[0].id] + c.ended, c.rest, bios[0].size + c.total))
  {
    IdsCons(bios);
    Regroup([bios[0].id], c.ended, Ids(c.rest));
  }

  lemma {:induction false} ConsumeConserves(bios: seq<Bio>, n: nat)
    requires forall i :: 0 <= i < |bios| ==> bios[i].size > 0
    ensures Conserved(bios, n, Consume(bios, n))
  {
    if bios == [] {
    } else if n < bios[0].size {
      ConservedInFirst(bios, n);
    } else if n == bios[0].size {
      ConservedAtFirst(bios);
    } else {
      ConsumeConserves(bios[1..], n - bios[0].size);
      ConservedBeyondFirst(bios, n, Consume(bios[1..], n - bios[0].size));
    }
  }

  /** __data_len stays the sum of the remaining bios, and the request is done exactly when all bytes are. */
  lemma UpdateSound(c: Chain, fs: bool, n: nat)
    requires Sound(c)
    ensures var u := Update(c, fs, n);
            && Sound(u.chain)
            && (u.more <==> n < c.dataLen)
            && u.chain.dataLen == c.dataLen - Min(n, c.dataLen)
            && u.ended + Ids(u.chain.bios) == Ids(c.bios)
            && (!fs ==> u.chain.sector == c.sector) && u.chain.mixed == c.mixed
  {
    ConsumeConserves(c.bios, n);
    if c.bios != [] && Consume(c.bios, n).rest == [] {
      assert Consume(c.bios, n).ended + Ids([]) == Consume(c.bios, n).ended;
    }
  }

  /** Completing blk_rq_bytes() finishes the request and ends every bio. */
  lemma CompleteAll(c: Chain, fs: bool)
    requires Sound(c)
    ensures var u := Update(c, fs, c.dataLen);
            !u.more && u.chain.bios == [] && u.chain.dataLen == 0 && u.ended == Ids(c.bios)
  {
    UpdateSound(c, fs, c.dataLen);
    var u := Update(c, fs, c.dataLen);
    if c.bios != [] {
      ConsumeConserves(c.bios, c.dataLen);
    }
    assert Ids([]) == [];
    assert u.ended + [] == u.ended;
  }

  /**
   While data remains the end sector is unchanged exactly when total_bytes fits its C int and the
   completed bytes do not borrow from the sector remainder.
   */
  lemma EndSectorKept(c: Chain, n: nat)
    requires Sound(c) && c.dataLen < TWO_32 && n < c.dataLen && EndSector(c) < TWO_64
    ensures EndSector(Update(c, true, n).chain) == EndSector(c)
            <==> n < TWO_31 && n % 512 <= c.dataLen % 512
  {
    UpdateSound(c, true, n);
    ConsumeConserves(c.bios, n);
    var s := Update(c, true, n).chain.sector;
    assert s == MoveSector(c.sector, n);
    if n < TWO_31 {
      SmallMove(c.sector, n);
    } else {
      ShiftOf(n);
      assert s == (c.sector + n / 512 - 8388608) % TWO_64;
    }
  }

  lemma {:induction false} ConsumeContiguous(bios: seq<Bio>, at: nat, n: nat)
    requires Whole(bios) && Contiguous(bios, at) && n % 512 == 0 && n <= Bytes(bios)
    ensures Whole(Consume(bios, n).rest) && Contiguous(Consume(bios, n).rest, at + n / 512)
  {
    if bios != [] {
      var tail := bios[1..];
      assert bios[0].size % 512 == 0;
      assert forall i :: 0 <= i < |tail| ==> tail[i] == bios[i + 1];
      if n < bios[0].size {
        var rest := [Advance(bios[0], n)] + tail;
        assert rest[1..] == tail;
        assert (bios[0].size - n) % 512 == 0 && n / 512 + (bios[0].size - n) / 512 == bios[0].size / 512;
      } else if n > bios[0].size {
        ConsumeContiguous(tail, at + bios[0].size / 512, n - bios[0].size);
        assert bios[0].size / 512 + (n - bios[0].size) / 512 == n / 512;
      }
    }
  }

  /** Completing whole sectors leaves a request that still covers, without gaps, the rest of its range. */
  lemma UpdateKeepsWellFormed(c: Chain, n: nat)
    requires WellFormed(c) && n % 512 == 0 && n < c.dataLen && n < TWO_31 && EndSector(c) < TWO_64
    ensures var u := Update(c, true, n).chain;
            WellFormed(u) && u.sector == c.sector + n / 512 && EndSector(u) == EndSector(c)
  {
    UpdateSound(c, true, n);
    UpdateMore(c, n);
    ConsumeContiguous(c.bios, c.sector, n);
    WholeBytes(c.bios);
    SmallMove(c.sector, n);
  }

  /** The "request botched" repair never runs: what is left covers the current segment of the first bio. */
  lemma NeverBotched(c: Chain, fs: bool, n: nat, segment: nat)
    requires Sound(c)
    requires Update(c, fs, n).more ==> segment <= Update(c, fs, n).chain.bios[0].size
    ensures Update(c, fs, n).more ==> Update(c, fs, n).chain.dataLen >= segment
  {
    UpdateSound(c, fs, n);
  }

  // --------------------------------------------------------------- composition

  /** Equal up to the sector cursor of the first bio. */
  ghost predicate SameBytes(a: seq<Bio>, b: seq<Bio>) {
    && |a| == |b|
    && (forall i :: 0 <= i < |a| ==> a[i].(sector := b[i].sector) == b[i])
    && (forall i :: 0 < i < |a| ==> a[i] == b[i])
  }

  ghost predicate Composes(bios: seq<Bio>, a: nat, b: nat) {
    var c1 := Consume(bios, a);
    var c2 := Consume(c1.rest, b);
    var c := Consume(bios, a + b);
    && c1.ended + c2.ended == c.ended && c1.total + c2.total == c.total
    && SameBytes(c2.rest, c.rest)
    && (Whole(bios) && a % 512 + b % 512 < 512 ==> c2.rest == c.rest)
  }

  lemma AdvanceTwice(x: Bio, a: nat, b: nat)
    requires a + b <= x.size
    ensures var y, z := Advance(Advance(x, a), b), Advance(x, a + b);
            y.(sector := z.sector) == z && (a % 512 + b % 512 < 512 ==> y == z)
  {
  }

  /** Both completions stay within the first bio. */
  lemma ComposesWithinFirst(bios: seq<Bio>, a: nat, b: nat)
    requires bios != [] && a + b < bios[0].size
    ensures Composes(bios, a, b)
  {
    var first, tail := Advance(bios[0], a), bios[1..];
    var cut := [first] + tail;
    AdvanceTwice(bios[0], a, b);
    assert cut[1..] == tail && Consume(bios, a) == Consumed([], cut, a);
    assert Consume(cut, b) == Consumed([], [Advance(first, b)] + tail, b);
    assert Consume(bios, a + b) == Consumed([], [Advance(bios[0], a + b)] + tail, a + b);
  }

  /** The second completion ends the bio in which the first one stopped, and perhaps more. */
  lemma ComposesThroughFirst(bios: seq<Bio>, a: nat, b: nat)
    requires bios != [] && a < bios[0].size <= a + b
    ensures Composes(bios, a, b)
  {
    var first, tail := Advance(bios[0], a), bios[1..];
    var cut := [first] + tail;
    assert cut[1..] == tail && Consume(bios, a) == Consumed([], cut, a);
    if a + b == bios[0].size {
      assert Consume(cut, b) == Consumed([first.id], tail, b);
    } else {
      var k := Consume(tail, b - first.size);
      assert Consume(cut, b) == Consumed([first.id] + k.ended, k.rest, first.size + k.total);
      assert a + b - bios[0].size == b - first.size;
    }
  }

  lemma ComposesInsideFirst(bios: seq<Bio>, a: nat, b: nat)
    requires bios != [] && a < bios[0].size
    ensures Composes(bios, a, b)
  {
    if a + b < bios[0].size {
      ComposesWithinFirst(bios, a, b);
    } else {
      ComposesThroughFirst(bios, a, b);
    }
  }

  lemma ComposesAtFirst(bios: seq<Bio>, b: nat)
    requires bios != [] && bios[0].size > 0
    requires forall i :: 0 <= i < |bios| ==> bios[i].size > 0
    ensures Composes(bios, bios[0].size, b)
  {
    var a := bios[0].size;
    assert Consume(bios, a) == Consumed([bios[0].id], bios[1..], a);
    if b == 0 {
      if bios[1..] != [] {
        assert bios[1].size > 0 && Advance(bios[1], 0) == bios[1];
        assert [bios[1]] + bios[1..][1..] == bios[1..];
      }
      assert Consume(bios[1..], 0) == Consumed([], bios[1..], 0);
    } else {
      var k := Consume(bios[1..], b);
      assert Consume(bios, a + b) == Consumed([bios[0].id] + k.ended, k.rest, a + k.total);
    }
  }

  lemma ComposesEmpty(bios: seq<Bio>, a: nat, b: nat)
    requires bios == []
    ensures Composes(bios, a, b)
  {
  }

  /** Two completions in a row consume what one completion of the sum does. */
  lemma {:induction false} ConsumeComposes(bios: seq<Bio>, a: nat, b: nat)
    requires forall i :: 0 <= i < |bios| ==> bios[i].size > 0
    ensures Composes(bios, a, b)
  {
    if bios == [] {
      ComposesEmpty(bios, a, b);
    } else if a < bios[0].size {
      ComposesInsideFirst(bios, a, b);
    } else if a == bios[0].size {
      ComposesAtFirst(bios, b);
    } else {
      assert forall i :: 0 <= i < |bios[1..]| ==> bios[1..][i] == bios[i + 1];
      ConsumeComposes(bios[1..], a - bios[0].size, b);
      ComposesBeyondFirst(bios, a, b);
    }
  }

  lemma ConsumeFirst(bios: seq<Bio>, n: nat)
    requires bios != [] && n > bios[0].size
    ensures var c := Consume(bios[1..], n - bios[0].size);
            Consume(bios, n) == Consumed([bios[0].id] + c.ended, c.rest, bios[0].size + c.total)
  {
  }

  lemma WholeTail(bios: seq<Bio>, a: nat)
    requires bios != [] && Whole(bios) && a > bios[0].size
    ensures Whole(bios[1..]) && (a - bios[0].size) % 512 == a % 512
  {
    assert bios[0].size % 512 == 0;
    assert forall i :: 0 <= i < |bios[1..]| ==> bios[1..][i] == bios[i + 1];
  }

  /** The result of a completion that goes on behind an ended bio. */
  function AfterFirst(id: nat, size: nat, c: Consumed): Consumed {
    Consumed([id] + c.ended, c.rest, size + c.total)
  }

  lemma ComposesBeyondFirst(bios: seq<Bio>, a: nat, b: nat)
    requires bios != [] && a > bios[0].size && Composes(bios[1..], a - bios[0].size, b)
    ensures Composes(bios, a, b)
  {
    var first, tail, a' := bios[0], bios[1..], a - bios[0].size;
    var c1, c := Consume(tail, a'), Consume(tail, a' + b);
    var c2 := Consume(c1.rest, b);
    ConsumeFirst(bios, a);
    ConsumeFirst(bios, a + b);
    assert a + b - first.size == a' + b;
    assert Consume(bios, a) == AfterFirst(first.id, first.size, c1);
    assert Consume(bios, a + b) == AfterFirst(first.id, first.size, c);
    Regroup([first.id], c1.ended, c2.ended);
    if Whole(bios) {
      WholeTail(bios, a);
    }
  }

  /** When the shifted byte counts of two completions add up to that of their sum. */
  predicate ShiftsAdd(a: nat, b: nat) {
    a % 512 + b % 512 < 512 && (a < TWO_31 && b < TWO_31 ==> a + b < TWO_31)
  }

  lemma MoveSectorAdds(sector: nat, a: nat, b: nat)
    requires sector < TWO_64 && a + b < TWO_32
    ensures MoveSector(MoveSector(sector, a), b) == MoveSector(sector, a + b) <==> ShiftsAdd(a, b)
  {
    var x, y, z := Int32(a) / 512, Int32(b) / 512, Int32(a + b) / 512;
    ShiftOf(a);
    ShiftOf(b);
    ShiftOf(a + b);
    assert MoveSector(MoveSector(sector, a), b) == (sector + x + y) % TWO_64 by {
      ModTwice(sector + x, y);
    }
    assert x + y == z <==> ShiftsAdd(a, b);
    ModDiffers(sector, x + y, z);
  }

  lemma ShiftOf(t: nat)
    requires t < TWO_32
    ensures Int32(t) / 512 == t / 512 - (if t < TWO_31 then 0 else 8388608)
  {
    if t >= TWO_31 {
      assert Int32(t) == t - TWO_32;
    } else {
      assert Int32(t) == t;
    }
  }

  lemma ModTwice(x: int, y: int)
    ensures (x % TWO_64 + y) % TWO_64 == (x + y) % TWO_64
  {
  }

  lemma ModDiffers(s: int, x: int, z: int)
    requires -TWO_64 < x - z < TWO_64
    ensures (s + x) % TWO_64 == (s + z) % TWO_64 <==> x == z
  {
  }

  /**
   Partial completion composes. The bios ended, the bytes left and the verdict are always those of
   one completion of a + b bytes. While data remains, on bios of whole sectors, the whole request
   state is the same as well exactly when the two sector shifts add up.
   */
  lemma UpdateComposes(c: Chain, a: nat, b: nat)
    requires Sound(c)
    ensures var u1 := Update(c, true, a);
            var u2 := Update(u1.chain, true, b);
            var u := Update(c, true, a + b);
            && u2.more == u.more && u1.ended + u2.ended == u.ended
            && u2.chain.dataLen == u.chain.dataLen && SameBytes(u2.chain.bios, u.chain.bios)
            && (u.more && Whole(c.bios) && CTyped(c) ==> (u2.chain == u.chain <==> ShiftsAdd(a, b)))
  {
    ConsumeComposes(c.bios, a, b);
    if a + b < c.dataLen {
      ComposesWhileMore(c, a, b);
    } else {
      UpdateSound(c, true, a);
      UpdateSound(c, true, a + b);
      UpdateSound(Update(c, true, a).chain, true, b);
      FinishesAlike(c, a, b);
    }
  }

  /** While data remains, an update is described by what its loop consumed. */
  lemma UpdateMore(c: Chain, n: nat)
    requires Sound(c) && n < c.dataLen
    ensures var k := Consume(c.bios, n);
            && k.rest != [] && k.total == n
            && Update(c, true, n) ==
               Progress(true, Chain(MoveSector(c.sector, n), c.dataLen - n, k.rest,
                                    if c.mixed then k.rest[0].failFast else c.failFast, c.mixed), k.ended)
  {
    ConsumeConserves(c.bios, n);
  }

  /** The counters hold values of their C types: a 32-bit length and a 64-bit sector. */
  predicate CTyped(c: Chain) { c.dataLen < TWO_32 && c.sector < TWO_64 }

  lemma ComposesWhileMore(c: Chain, a: nat, b: nat)
    requires Sound(c) && a + b < c.dataLen
    requires Composes(c.bios, a, b)
    ensures var u1 := Update(c, true, a);
            var u2 := Update(u1.chain, true, b);
            var u := Update(c, true, a + b);
            && u2.more && u.more && u1.ended + u2.ended == u.ended
            && u2.chain.dataLen == u.chain.dataLen && SameBytes(u2.chain.bios, u.chain.bios)
            && (Whole(c.bios) && CTyped(c) ==> (u2.chain == u.chain <==> ShiftsAdd(a, b)))
  {
    UpdateMore(c, a);
    UpdateMore(c, a + b);
    UpdateSound(c, true, a);
    var c1 := Update(c, true, a).chain;
    UpdateMore(c1, b);
    if CTyped(c) {
      MoveSectorAdds(c.sector, a, b);
    }
  }

  lemma FinishesAlike(c: Chain, a: nat, b: nat)
    requires Sound(c) && a + b >= c.dataLen && Composes(c.bios, a, b)
    ensures var u1 := Update(c, true, a);
            var u2 := Update(u1.chain, true, b);
            var u := Update(c, true, a + b);
            && !u2.more && !u.more && u1.ended + u2.ended == u.ended
            && u2.chain.dataLen == u.chain.dataLen && u2.chain.bios == u.chain.bios == []
  {
    ConsumeConserves(c.bios, a);
    ConsumeConserves(c.bios, a + b);
    if a < c.dataLen {
      UpdateMore(c, a);
      ConsumeConserves(Consume(c.bios, a).rest, b);
    }
  }

  lemma HalvesDrift(c: Chain)
    requires Sound(c) && c.dataLen == 2048 && c.sector == 0
    ensures Update(Update(c, true, 256).chain, true, 256).chain.sector == 0 && Update(c, true, 512).chain.sector == 1
  {
    UpdateSound(c, true, 256);
    UpdateMore(c, 256);
    UpdateMore(c, 512);
    UpdateMore(Update(c, true, 256).chain, 256);
    SmallMove(0, 256);
    SmallMove(0, 512);
  }

  lemma SingleSound(b: Bio, readAhead: bool)
    requires b.size > 0
    ensures Sound(FromBio(b, readAhead))
  {
    assert Bytes([b]) == b.size + Bytes([b][1..]);
  }

  /** A concrete pair of completions whose sector cursor drifts. */
  lemma UnalignedCompletionDrifts(c: Chain)
    requires c == FromBio(Bio(0, 0, 2048, {}), false)
    ensures Sound(c) && Whole(c.bios)
    ensures Update(Update(c, true, 256).chain, true, 256).chain.sector == 0 && Update(c, true, 512).chain.sector == 1
  {
    SingleSound(Bio(0, 0, 2048, {}), false);
    HalvesDrift(c);
  }

  lemma SmallMove(sector: nat, total: nat)
    requires total < TWO_31 && sector + total / 512 < TWO_64
    ensures MoveSector(sector, total) == sector + total / 512
  {
    assert Int32(total) == total;
  }

  // -------------------------------------------------------------- error boundary

  /** Bytes of the longest prefix whose bios have every failfast bit in `ff`. */
  function EagerPrefix(bios: seq<Bio>, ff: set<FailFast>): nat {
    if bios == [] || !(ff <= bios[0].failFast) then 0
    else bios[0].size + EagerPrefix(bios[1..], ff)
  }

  /** blk_rq_err_bytes. */
  function ErrBytes(c: Chain): nat {
    if !c.mixed then c.dataLen else EagerPrefix(c.bios, c.failFast)
  }

  /** The bytes of the bios before the first one that lacks a bit of `ff`. */
  lemma {:induction false} EagerPrefixIs(bios: seq<Bio>, ff: set<FailFast>) returns (k: nat)
    ensures k <= |bios| && EagerPrefix(bios, ff) == Bytes(bios[..k])
    ensures forall i :: 0 <= i < k ==> ff <= bios[i].failFast
    ensures k == |bios| || !(ff <= bios[k].failFast)
  {
    if bios == [] || !(ff <= bios[0].failFast) {
      k := 0;
    } else {
      var j := EagerPrefixIs(bios[1..], ff);
      k := j + 1;
      assert bios[..k][1..] == bios[1..][..j];
      assert forall i :: 1 <= i < k ==> bios[i] == bios[1..][i - 1];
    }
  }

  /** `bytes` reaches exactly to the failure boundary: to the first bio less eager to fail than the request. */
  ghost predicate ReachesBoundary(c: Chain, bytes: nat) {
    if !c.mixed then bytes == c.dataLen
    else exists k :: 0 <= k <= |c.bios| && bytes == Bytes(c.bios[..k]) && EagerUpTo(c.bios, c.failFast, k)
  }

  ghost predicate EagerUpTo(bios: seq<Bio>, ff: set<FailFast>, k: nat)
    requires k <= |bios|
  {
    (forall i :: 0 <= i < k ==> ff <= bios[i].failFast) && (k == |bios| || !(ff <= bios[k].failFast))
  }

  lemma ErrBytesReach(c: Chain)
    ensures ReachesBoundary(c, ErrBytes(c))
  {
    if c.mixed {
      var k := EagerPrefixIs(c.bios, c.failFast);
      assert EagerUpTo(c.bios, c.failFast, k);
    }
  }

  /** The BUG_ON in blk_rq_err_bytes. */
  predicate ErrBug(c: Chain) { c.mixed && c.dataLen > 0 && ErrBytes(c) == 0 }

  /** The request's failfast bits are all set on its first bio, which is what its completion code assumes. */
  predicate Leads(c: Chain) { c.mixed && c.bios != [] ==> c.failFast <= c.bios[0].failFast }

  lemma {:induction false} EagerPrefixBound(bios: seq<Bio>, ff: set<FailFast>)
    ensures EagerPrefix(bios, ff) <= Bytes(bios)
  {
    if bios != [] {
      EagerPrefixBound(bios[1..], ff);
    }
  }

  /** The BUG_ON fires exactly for a non-empty mixed request whose first bio lacks one of its bits. */
  lemma ErrBugIff(c: Chain)
    requires Sound(c)
    ensures ErrBug(c) <==> !Leads(c)
    ensures ErrBytes(c) <= c.dataLen
  {
    EagerPrefixBound(c.bios, c.failFast);
    if c.bios != [] {
      assert c.bios[0].size > 0;
    }
  }

  /** One error completion ends at least one bio and leaves a request that can be failed again. */
  lemma ErrStepProgress(c: Chain, fs: bool)
    requires Sound(c) && Leads(c) && c.bios != []
    ensures var u := Update(c, fs, ErrBytes(c));
            && 0 < ErrBytes(c) <= c.dataLen
            && Sound(u.chain) && Leads(u.chain)
            && |u.chain.bios| < |c.bios| && |u.ended| >= 1
            && u.ended + Ids(u.chain.bios) == Ids(c.bios)
  {
    ErrBugIff(c);
    UpdateSound(c, fs, ErrBytes(c));
    assert c.bios[0].size > 0;
    assert ErrBytes(c) >= c.bios[0].size by {
      assert Bytes(c.bios) >= c.bios[0].size;
    }
    assert |Consume(c.bios, ErrBytes(c)).ended| >= 1;
    var u := Update(c, fs, ErrBytes(c));
    assert |u.ended| + |Ids(u.chain.bios)| == |Ids(c.bios)|;
  }

  /** What repeated blk_end_request_err calls do: the number of calls and the bios ended, in order. */
  datatype Ending = Ending(calls: nat, ended: seq<nat>)

  function FailAll(c: Chain, fs: bool, calls: nat): Ending
    decreases calls
  {
    if calls == 0 || c.bios == [] then Ending(0, [])
    else
      var u := Update(c, fs, ErrBytes(c));
      var rest := FailAll(u.chain, fs, calls - 1);
      Ending(1 + rest.calls, u.ended + rest.ended)
  }

  /** At most one call per bio fails the whole request, each bio once and in order. */
  lemma {:induction false} FailAllFinishes(c: Chain, fs: bool, calls: nat)
    requires Sound(c) && Leads(c) && calls >= |c.bios|
    ensures FailAll(c, fs, calls).ended == Ids(c.bios)
    ensures FailAll(c, fs, calls).calls <= |c.bios|
    decreases calls
  {
    if c.bios != [] {
      ErrStepProgress(c, fs);
      FailAllFinishes(Update(c, fs, ErrBytes(c)).chain, fs, calls - 1);
    }
  }

  // ------------------------------------------------- merges and the error boundary

  /** How a request came about: from one bio, by bio merges at either end, and by joining two requests. */
  datatype Recipe =
    | Single(bio: Bio, readAhead: bool)
    | Behind(part: Recipe, bio: Bio)
    | InFront(bio: Bio, part: Recipe)
    | Joined(front: Recipe, back: Recipe)

  function Build(t: Recipe): Chain {
    match t
    case Single(b, readAhead) => FromBio(b, readAhead)
    case Behind(p, b) => Append(Build(p), b)
    case InFront(b, p) => Prepend(Build(p), b)
    case Joined(f, k) => Join(Build(f), Build(k))
  }

  /** The failfast bits the request was created with. */
  function Origin(t: Recipe): set<FailFast> {
    match t
    case Single(b, readAhead) => if readAhead then {Dev, Transport, Driver} else b.failFast
    case Behind(p, _) => Origin(p)
    case InFront(_, p) => Origin(p)
    case Joined(f, _) => Origin(f)
  }

  /** The bio merged in front last, if any. */
  function LastFront(t: Recipe): Option<Bio> {
    match t
    case Single(_, _) => None
    case Behind(p, _) => LastFront(p)
    case InFront(b, _) => Some(b)
    case Joined(f, _) => LastFront(f)
  }

  /** Every bio in the recipe has data. */
  predicate Positive(t: Recipe) {
    match t
    case Single(b, _) => b.size > 0
    case Behind(p, b) => Positive(p) && b.size > 0
    case InFront(b, p) => b.size > 0 && Positive(p)
    case Joined(f, k) => Positive(f) && Positive(k)
  }

  lemma MixSound(c: Chain, mix: bool)
    requires Sound(c)
    ensures var m := Mix(c, mix); Sound(m) && m.dataLen == c.dataLen && |m.bios| == |c.bios|
  {
    SetMixedKeeps(c);
  }

  lemma AppendSound(c: Chain, b: Bio)
    requires Sound(c) && b.size > 0
    ensures Sound(Append(c, b))
  {
    var m := Mix(c, c.failFast != b.failFast);
    MixSound(c, c.failFast != b.failFast);
    BytesConcat(m.bios, [b]);
  }

  lemma PrependSound(c: Chain, b: Bio)
    requires Sound(c) && b.size > 0
    ensures Sound(Prepend(c, b))
  {
    var m := Mix(c, c.failFast != b.failFast);
    MixSound(c, c.failFast != b.failFast);
    BytesConcat([b], m.bios);
    assert Bytes([b]) == b.size + Bytes([b][1..]);
  }

  lemma JoinSound(c: Chain, n: Chain)
    requires Sound(c) && Sound(n)
    ensures Sound(Join(c, n))
  {
    MixSound(c, Mixes(c, n));
    MixSound(n, Mixes(c, n));
    BytesConcat(Mix(c, Mixes(c, n)).bios, Mix(n, Mixes(c, n)).bios);
  }

  lemma {:induction false} BuildSound(t: Recipe)
    requires Positive(t)
    ensures Sound(Build(t))
  {
    match t
    case Single(b, readAhead) => SingleSound(b, readAhead);
    case Behind(p, b) =>
      BuildSound(p);
      AppendSound(Build(p), b);
    case InFront(b, p) =>
      BuildSound(p);
      PrependSound(Build(p), b);
    case Joined(f, k) =>
      BuildSound(f);
      BuildSound(k);
      JoinSound(Build(f), Build(k));
  }

  /** Back merges keep the first bio in charge. */
  lemma AppendLeads(c: Chain, b: Bio)
    requires c.bios != []
    ensures Leads(Append(c, b)) <==> Leads(c)
  {
  }

  /** A front merge is safe to fail exactly when the new bio has every failfast bit of the request. */
  lemma PrependLeads(c: Chain, b: Bio)
    ensures Leads(Prepend(c, b)) <==> c.failFast <= b.failFast
  {
  }

  /** Joining requests keeps the first bio of the front one in charge. */
  lemma JoinLeads(c: Chain, n: Chain)
    requires c.bios != []
    ensures Leads(Join(c, n)) <==> Leads(c)
  {
  }

  /**
   A request built by any bio and request merges can be failed safely exactly when no bio was merged
   in front of its leading part, or the last such bio has every failfast bit the request was created with.
   */
  lemma {:induction false} BuildLeads(t: Recipe)
    ensures var c := Build(t);
            && c.bios != [] && c.failFast == Origin(t)
            && (Leads(c) <==> LastFront(t) == None || Origin(t) <= LastFront(t).value.failFast)
  {
    match t
    case Single(_, _) =>
    case Behind(p, b) =>
      BuildLeads(p);
      AppendLeads(Build(p), b);
    case InFront(b, p) =>
      BuildLeads(p);
      PrependLeads(Build(p), b);
    case Joined(f, k) =>
      BuildLeads(f);
      JoinLeads(Build(f), Build(k));
  }

  /** Hence the BUG_ON of blk_rq_err_bytes fires exactly on the other requests. */
  lemma BuildBugIff(t: Recipe)
    requires Positive(t)
    ensures ErrBug(Build(t)) <==> LastFront(t).Some? && !(Origin(t) <= LastFront(t).value.failFast)
  {
    BuildSound(t);
    BuildLeads(t);
    ErrBugIff(Build(t));
  }

  /** A plain bio at sector 7 merged in front of a failfast bio at sector 8 makes a request that trips the BUG_ON. */
  lemma FrontMergeTripsErrBug()
    ensures var first, front := Bio(0, 8, 512, {Dev}), Bio(1, 7, 512, {});
            && front.sector + front.size / 512 == first.sector
            && ErrBug(Build(InFront(front, Single(first, false))))
  {
    BuildBugIff(InFront(Bio(1, 7, 512, {}), Single(Bio(0, 8, 512, {Dev}), false)));
    assert Dev in {Dev};
  }

  // -------------------------------------------------------- bits through merges

  /** The failfast bits each bio of a built request was submitted with, in chain order. */
  function Bits(t: Recipe): seq<set<FailFast>> {
    match t
    case Single(b, readAhead) => [if readAhead then {Dev, Transport, Driver} else b.failFast]
    case Behind(p, b) => Bits(p) + [b.failFast]
    case InFront(b, p) => [b.failFast] + Bits(p)
    case Joined(f, k) => Bits(f) + Bits(k)
  }

  /** A mixed request records every bio's own bits; in an unmixed one all bios have the request's. */
  ghost predicate Carries(c: Chain, bits: seq<set<FailFast>>) {
    && |bits| == |c.bios|
    && (if c.mixed then forall i :: 0 <= i < |bits| ==> c.bios[i].failFast == bits[i]
        else forall i :: 0 <= i < |bits| ==> bits[i] == c.failFast && c.bios[i].failFast <= c.failFast)
  }

  lemma EveryBit(s: set<FailFast>)
    ensures s <= {Dev, Transport, Driver}
  {
    forall x | x in s ensures x in {Dev, Transport, Driver} {
      match x
      case Dev =>
      case Transport =>
      case Driver =>
    }
  }

  lemma MixCarries(c: Chain, mix: bool, bits: seq<set<FailFast>>)
    requires Carries(c, bits)
    ensures Carries(Mix(c, mix), bits) && (mix ==> Mix(c, mix).mixed) && Mix(c, mix).failFast == c.failFast
  {
    if mix && !c.mixed {
      forall i | 0 <= i < |bits| ensures Mix(c, mix).bios[i].failFast == bits[i] {
        assert c.bios[i].failFast + c.failFast == c.failFast;
      }
    }
  }

  lemma AppendCarries(c: Chain, b: Bio, bits: seq<set<FailFast>>)
    requires Carries(c, bits)
    ensures Carries(Append(c, b), bits + [b.failFast])
  {
    MixCarries(c, c.failFast != b.failFast, bits);
  }

  lemma PrependCarries(c: Chain, b: Bio, bits: seq<set<FailFast>>)
    requires Carries(c, bits)
    ensures Carries(Prepend(c, b), [b.failFast] + bits)
  {
    MixCarries(c, c.failFast != b.failFast, bits);
  }

  lemma JoinCarries(c: Chain, n: Chain, bits: seq<set<FailFast>>, more: seq<set<FailFast>>)
    requires Carries(c, bits) && Carries(n, more)
    ensures Carries(Join(c, n), bits + more)
  {
    MixCarries(c, Mixes(c, n), bits);
    MixCarries(n, Mixes(c, n), more);
  }

  /** Merging loses no failfast bit: whatever was merged, every bio's own bits can still be told. */
  lemma {:induction false} BuildCarries(t: Recipe)
    ensures Carries(Build(t), Bits(t))
  {
    match t
    case Single(b, readAhead) => EveryBit(b.failFast);
    case Behind(p, b) =>
      BuildCarries(p);
      AppendCarries(Build(p), b, Bits(p));
    case InFront(b, p) =>
      BuildCarries(p);
      PrependCarries(Build(p), b, Bits(p));
    case Joined(f, k) =>
      BuildCarries(f);
      BuildCarries(k);
      JoinCarries(Build(f), Build(k), Bits(f), Bits(k));
  }

  /**
   So an error completion of a built request, mixed or not, fails the bios up to the first one that was
   submitted with fewer bits than the request was created with, and stops there.
   */
  lemma BuildErrBytes(t: Recipe) returns (k: nat)
    requires Positive(t)
    ensures |Bits(t)| == |Build(t).bios| && k <= |Bits(t)|
    ensures ErrBytes(Build(t)) == Bytes(Build(t).bios[..k])
    ensures forall i :: 0 <= i < k ==> Origin(t) <= Bits(t)[i]
    ensures k == |Bits(t)| || !(Origin(t) <= Bits(t)[k])
  {
    var c := Build(t);
    BuildCarries(t);
    BuildSound(t);
    BuildLeads(t);
    if c.mixed {
      k := EagerPrefixIs(c.bios, c.failFast);
    } else {
      k := |c.bios|;
      assert c.bios[..k] == c.bios;
    }
  }

  // ---------------------------------------------------------- in-place completion

  /** What the loop has done so far, followed by what is left of it, is the whole. */
  ghost predicate Continues(all: Consumed, ended: seq<nat>, total: nat, bios: seq<Bio>, n: nat) {
    var c := Consume(bios, n);
    all == Consumed(ended + c.ended, c.rest, total + c.total)
  }

  lemma ContinuesNext(all: Consumed, ended: seq<nat>, total: nat, bios: seq<Bio>, n: nat)
    requires bios != [] && n > bios[0].size && Continues(all, ended, total, bios, n)
    ensures Continues(all, ended + [bios[0].id], total + bios[0].size, bios[1..], n - bios[0].size)
  {
    var c := Consume(bios[1..], n - bios[0].size);
    assert ended + ([bios[0].id] + c.ended) == ended + [bios[0].id] + c.ended;
  }

  /** A started request, completed in place. `ended` logs the bios whose end_io ran, in order. */
  class StartedRequest {
    const fs: bool
    var sector: nat
    var dataLen: nat
    var bios: seq<Bio>
    var failFast: set<FailFast>
    var mixed: bool
    var ended: seq<nat>

    ghost function View(): Chain
      reads this
    {
      Chain(sector, dataLen, bios, failFast, mixed)
    }

    constructor (c: Chain, isFs: bool)
      ensures View() == c && fs == isFs && ended == []
    {
      fs, sector, dataLen, bios, failFast, mixed, ended := isFs, c.sector, c.dataLen, c.bios, c.failFast, c.mixed, [];
    }

    /** The loop of blk_update_request with req_bio_endio. */
    method EndBios(nrBytes: nat) returns (total: nat)
      modifies this`bios, this`ended
      ensures var c := Consume(old(bios), nrBytes); bios == c.rest && ended == old(ended) + c.ended && total == c.total
    {
      var n: nat := nrBytes;
      total := 0;
      ghost var all, done: seq<nat> := Consume(bios, nrBytes), [];
      while bios != []
        invariant ended == old(ended) + done && Continues(all, done, total, bios, n)
        decreases |bios|
      {
        var bio := bios[0];
        var bytes := if bio.size <= n then bio.size else n;
        if bytes < n {
          ContinuesNext(all, done, total, bios, n);
        }
        if bytes == bio.size {
          bios := bios[1..];
          ended := ended + [bio.id];
          done := done + [bio.id];
        } else {
          bios := [Advance(bio, bytes)] + bios[1..];
        }
        total := total + bytes;
        n := n - bytes;
        if n == 0 {
          break;
        }
      }
    }

    /** blk_update_request: whether data is left. */
    method UpdateRequest(nrBytes: nat) returns (more: bool)
      modifies this
      ensures |old(ended)| <= |ended| && ended[..|old(ended)|] == old(ended)
      ensures Update(old(View()), fs, nrBytes) == Progress(more, View(), ended[|old(ended)|..])
    {
      if bios == [] {
        return false;
      }
      var total := EndBios(nrBytes);
      if bios == [] {
        dataLen := 0;
        return false;
      }
      dataLen := Less(dataLen, total);
      if fs {
        sector := MoveSector(sector, total);
      }
      if mixed {
        failFast := bios[0].failFast;
      }
      return true;
    }

    /** blk_rq_err_bytes. */
    method ErrorBytes() returns (bytes: nat)
      ensures ReachesBoundary(View(), bytes) && bytes == ErrBytes(View())
    {
      ErrBytesReach(View());
      if !mixed {
        return dataLen;
      }
      bytes := 0;
      var i := 0;
      while i < |bios|
        invariant i <= |bios| && bytes + EagerPrefix(bios[i..], failFast) == EagerPrefix(bios, failFast)
      {
        if !(failFast <= bios[i].failFast) {
          break;
        }
        assert bios[i..][1..] == bios[i + 1..];
        bytes := bytes + bios[i].size;
        i := i + 1;
      }
    }

    /** __blk_end_request_err: fails the request up to the next boundary, at least one whole bio of it. */
    method FailPart() returns (more: bool)
      requires Sound(View()) && Leads(View()) && bios != []
      modifies this
      ensures Sound(View()) && Leads(View()) && (more <==> bios != [])
      ensures |bios| < |old(bios)| && ended + Ids(bios) == old(ended) + Ids(old(bios))
    {
      ErrStepProgress(View(), fs);
      UpdateSound(View(), fs, ErrBytes(View()));
      var bytes := ErrorBytes();
      more := UpdateRequest(bytes);
      ghost var u := Update(old(View()), fs, bytes);
      Advanced(old(ended), u.ended, bios, old(bios));
      assert ended == old(ended) + u.ended;
    }

    /** Repeated until nothing is left: each bio is failed once, in order, in at most one call per bio. */
    method FailRequest() returns (calls: nat)
      requires Sound(View()) && Leads(View())
      modifies this
      ensures bios == [] && ended == old(ended) + Ids(old(bios)) && calls <= |old(bios)|
    {
      calls := 0;
      var more := bios != [];
      while more
        invariant Sound(View()) && Leads(View()) && (more <==> bios != [])
        invariant ended + Ids(bios) == old(ended) + Ids(old(bios)) && calls + |bios| <= |old(bios)|
        decreases |bios|
      {
        more := FailPart();
        calls := calls + 1;
      }
      assert ended + Ids(bios) == ended;
    }
  }

  lemma Advanced(done: seq<nat>, ended: seq<nat>, rest: seq<Bio>, bios: seq<Bio>)
    requires ended + Ids(rest) == Ids(bios)
    ensures done + ended + Ids(rest) == done + Ids(bios)
  {
    assert done + ended + Ids(rest) == done + (ended + Ids(rest));
  }
}
