/**
 The data a request carries: a chain of bios, the byte count and sector cursor
 derived from it, and the failfast bits. Merging extends the chain at either
 end; partial completion consumes it from the front.
 */
module BioChains {

  datatype FailFast = Dev | Transport | Driver

  datatype Bio = Bio(id: nat, sector: nat, size: nat, failFast: set<FailFast>)

  /** `sector` is __sector, `dataLen` is __data_len, `mixed` is REQ_MIXED_MERGE. */
  datatype Chain = Chain(sector: nat, dataLen: nat, bios: seq<Bio>, failFast: set<FailFast>, mixed: bool)

  function Bytes(bios: seq<Bio>): nat {
    if bios == [] then 0 else bios[0].size + Bytes(bios[1..])
  }

  function Ids(bios: seq<Bio>): seq<nat> {
    seq(|bios|, i requires 0 <= i < |bios| => bios[i].id)
  }

  /** rq_end_sector, which is also the merge-hash key. */
  function EndSector(c: Chain): nat {
    c.sector + c.dataLen / 512
  }

  /** Every bio has a positive size and __data_len is their sum. */
  ghost predicate Sound(c: Chain) {
    && c.dataLen == Bytes(c.bios)
    && forall i :: 0 <= i < |c.bios| ==> c.bios[i].size > 0
  }

  /** Every bio covers whole sectors. */
  ghost predicate Whole(bios: seq<Bio>) {
    forall i :: 0 <= i < |bios| ==> bios[i].size % 512 == 0
  }

  /** The bios follow each other on disk, starting at sector `at`. */
  ghost predicate Contiguous(bios: seq<Bio>, at: nat) {
    bios == [] || (bios[0].sector == at && Contiguous(bios[1..], at + bios[0].size / 512))
  }

  /** What init_request_from_bio and every merge keep for a request that has not been started. */
  ghost predicate WellFormed(c: Chain) {
    Sound(c) && c.bios != [] && Whole(c.bios) && Contiguous(c.bios, c.sector)
  }

  // ---------------------------------------------------------------- building

  function FromBio(b: Bio, readAhead: bool): Chain {
    Chain(b.sector, b.size, [b], if readAhead then {Dev, Transport, Driver} else b.failFast, false)
  }

  function Spread(bios: seq<Bio>, ff: set<FailFast>): (r: seq<Bio>)
    ensures |r| == |bios|
    ensures forall i :: 0 <= i < |bios| ==> r[i] == bios[i].(failFast := bios[i].failFast + ff)
  {
    seq(|bios|, i requires 0 <= i < |bios| => bios[i].(failFast := bios[i].failFast + ff))
  }

  /** blk_rq_set_mixed_merge: from now on every bio records its own failfast bits. */
  function SetMixed(c: Chain): Chain {
    if c.mixed then c else c.(bios := Spread(c.bios, c.failFast), mixed := true)
  }

  /** bio_attempt_back_merge, once the merge has been allowed. */
  function Append(c: Chain, b: Bio): Chain {
    var c1 := Mix(c, c.failFast != b.failFast);
    c1.(bios := c1.bios + [b], dataLen := c1.dataLen + b.size)
  }

  /** bio_attempt_front_merge, once the merge has been allowed. */
  function Prepend(c: Chain, b: Bio): Chain {
    var c1 := Mix(c, c.failFast != b.failFast);
    c1.(bios := [b] + c1.bios, sector := b.sector, dataLen := c1.dataLen + b.size)
  }

  predicate Mixes(c: Chain, next: Chain) {
    c.mixed || next.mixed || c.failFast != next.failFast
  }

  function Mix(c: Chain, mix: bool): Chain {
    if mix then SetMixed(c) else c
  }

  function Glue(c: Chain, next: Chain): Chain {
    c.(bios := c.bios + next.bios, dataLen := c.dataLen + next.dataLen)
  }

  /** The chain of `next` appended to the chain of `c` by a request merge. */
  function Join(c: Chain, next: Chain): Chain {
    Glue(Mix(c, Mixes(c, next)), Mix(next, Mixes(c, next)))
  }

  /** A request made from a bio covers exactly its sectors. */
  lemma FromBioCovers(b: Bio, readAhead: bool)
    requires b.size > 0 && b.size % 512 == 0
    ensures var c := FromBio(b, readAhead);
            WellFormed(c) && c.sector == b.sector && EndSector(c) == b.sector + b.size / 512 && Ids(c.bios) == [b.id]
  {
    assert Bytes([b]) == b.size + Bytes([b][1..]);
    assert Contiguous([b][1..], b.sector + b.size / 512);
  }

  lemma {:induction false} BytesConcat(a: seq<Bio>, b: seq<Bio>)
    ensures Bytes(a + b) == Bytes(a) + Bytes(b)
  {
    if a == [] {
      assert a + b == b;
    } else {
      assert (a + b)[1..] == a[1..] + b;
      BytesConcat(a[1..], b);
    }
  }

  lemma {:induction false} WholeBytes(bios: seq<Bio>)
    requires Whole(bios)
    ensures Bytes(bios) % 512 == 0
  {
    if bios != [] {
      assert forall i :: 0 <= i < |bios[1..]| ==> bios[1..][i] == bios[i + 1];
      WholeBytes(bios[1..]);
    }
  }

  lemma {:induction false} ContiguousConcat(a: seq<Bio>, b: seq<Bio>, at: nat)
    requires Whole(a)
    ensures Contiguous(a + b, at) <==> Contiguous(a, at) && Contiguous(b, at + Bytes(a) / 512)
  {
    if a == [] {
      assert a + b == b;
    } else {
      assert (a + b)[1..] == a[1..] + b;
      assert forall i :: 0 <= i < |a[1..]| ==> a[1..][i] == a[i + 1];
      WholeBytes(a[1..]);
      assert a[0].size % 512 == 0;
      ContiguousConcat(a[1..], b, at + a[0].size / 512);
    }
  }

  lemma {:induction false} SpreadKeeps(bios: seq<Bio>, ff: set<FailFast>, at: nat)
    ensures Bytes(Spread(bios, ff)) == Bytes(bios)
    ensures Ids(Spread(bios, ff)) == Ids(bios)
    ensures Contiguous(Spread(bios, ff), at) == Contiguous(bios, at)
  {
    if bios != [] {
      assert Spread(bios, ff)[1..] == Spread(bios[1..], ff);
      SpreadKeeps(bios[1..], ff, at + bios[0].size / 512);
    }
  }

  lemma SetMixedKeeps(c: Chain)
    ensures var m := SetMixed(c);
            && m.sector == c.sector && m.dataLen == c.dataLen && m.failFast == c.failFast
            && |m.bios| == |c.bios| && Bytes(m.bios) == Bytes(c.bios) && Ids(m.bios) == Ids(c.bios)
            && (Whole(c.bios) ==> Whole(m.bios)) && (Sound(c) ==> Sound(m))
            && Contiguous(m.bios, m.sector) == Contiguous(c.bios, c.sector)
  {
    SpreadKeeps(c.bios, c.failFast, c.sector);
  }

  /** A back merge extends the request at its end and keeps its start. */
  lemma AppendExtends(c: Chain, b: Bio)
    requires WellFormed(c) && b.size > 0 && b.size % 512 == 0 && b.sector == EndSector(c)
    ensures var r := Append(c, b);
            && WellFormed(r) && r.sector == c.sector
            && EndSector(r) == EndSector(c) + b.size / 512
            && Ids(r.bios) == Ids(c.bios) + [b.id]
  {
    MixKeeps(c, c.failFast != b.failFast);
    var c1 := Mix(c, c.failFast != b.failFast);
    BytesConcat(c1.bios, [b]);
    WholeBytes(c1.bios);
    ContiguousConcat(c1.bios, [b], c1.sector);
    assert Ids(c1.bios + [b]) == Ids(c1.bios) + [b.id];
  }

  /** A front merge moves the start down and leaves the end sector, the hash key, unchanged. */
  lemma PrependExtends(c: Chain, b: Bio)
    requires WellFormed(c) && b.size > 0 && b.size % 512 == 0 && b.sector + b.size / 512 == c.sector
    ensures var r := Prepend(c, b);
            && WellFormed(r) && r.sector == b.sector
            && EndSector(r) == EndSector(c)
            && Ids(r.bios) == [b.id] + Ids(c.bios)
  {
    MixKeeps(c, c.failFast != b.failFast);
    var c1 := Mix(c, c.failFast != b.failFast);
    WholeBytes(c1.bios);
    assert ([b] + c1.bios)[1..] == c1.bios;
    assert Ids([b] + c1.bios) == [b.id] + Ids(c1.bios);
  }

  lemma GlueExtends(c: Chain, next: Chain)
    requires WellFormed(c) && WellFormed(next) && EndSector(c) == next.sector
    ensures var r := Glue(c, next);
            && WellFormed(r) && r.sector == c.sector
            && EndSector(r) == EndSector(next)
            && Ids(r.bios) == Ids(c.bios) + Ids(next.bios)
  {
    BytesConcat(c.bios, next.bios);
    WholeBytes(c.bios);
    WholeBytes(next.bios);
    ContiguousConcat(c.bios, next.bios, c.sector);
  }

  /** Joining adjacent requests covers exactly both ranges and keeps every bio. */
  lemma JoinExtends(c: Chain, next: Chain)
    requires WellFormed(c) && WellFormed(next) && EndSector(c) == next.sector
    ensures var r := Join(c, next);
            && WellFormed(r) && r.sector == c.sector
            && EndSector(r) == EndSector(next)
            && Ids(r.bios) == Ids(c.bios) + Ids(next.bios)
  {
    MixKeeps(c, Mixes(c, next));
    MixKeeps(next, Mixes(c, next));
    GlueExtends(Mix(c, Mixes(c, next)), Mix(next, Mixes(c, next)));
  }

  lemma MixKeeps(c: Chain, mix: bool)
    requires WellFormed(c)
    ensures var m := Mix(c, mix);
            WellFormed(m) && m.sector == c.sector && m.dataLen == c.dataLen && Ids(m.bios) == Ids(c.bios)
  {
    SetMixedKeeps(c);
  }

  lemma NonEmptyRange(c: Chain)
    requires WellFormed(c)
    ensures c.sector < EndSector(c) && c.dataLen % 512 == 0
  {
    WholeBytes(c.bios);
    assert Bytes(c.bios) >= c.bios[0].size > 0;
  }
}
