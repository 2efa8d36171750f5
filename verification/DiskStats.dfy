/**
 Disk statistics: io_ticks and time_in_queue of a disk and its partitions, kept by rounding each
 partition off at every accounting event, against what they are meant to measure.
 */
module DiskStats {
  import opened Types

  /** The fields of hd_struct that accounting uses; jiffies are unbounded here. */
  datatype Part = Part(stamp: nat, timeInQueue: int, ioTicks: int, readers: int, writers: int)

  function InFlight(p: Part): int { p.readers + p.writers }

  /** part_round_stats_single. */
  function RoundSingle(p: Part, now: nat): Part
  {
    if now == p.stamp then p
    else if InFlight(p) != 0 then
      p.(timeInQueue := p.timeInQueue + InFlight(p) * (now - p.stamp), ioTicks := p.ioTicks + (now - p.stamp),
         stamp := now)
    else p.(stamp := now)
  }

  function Adjust(p: Part, write: bool, delta: int): Part {
    if write then p.(writers := p.writers + delta) else p.(readers := p.readers + delta)
  }

  // ------------------------------------------------------- what is measured

  /** The stay of one accounted request: from accounting start to completion. */
  datatype Stay = Stay(partno: nat, write: bool, start: nat, end: Option<nat>)

  /** Everything on a partition also counts for the whole disk, partition 0. */
  predicate Belongs(s: Stay, n: nat) { n == 0 || s.partno == n }

  predicate ActiveAt(s: Stay, n: nat, t: nat) {
    Belongs(s, n) && s.start <= t && (s.end.Some? ==> t < s.end.value)
  }

  /** How long the stay lasted up to time `t`. */
  function Lasted(s: Stay, n: nat, t: nat): nat {
    var until := if s.end.Some? && s.end.value < t then s.end.value else t;
    if Belongs(s, n) && s.start < until then until - s.start else 0
  }

  /** The sum of the residence times up to `t`. */
  function Residence(stays: seq<Stay>, n: nat, t: nat): nat {
    if stays == [] then 0 else Lasted(stays[0], n, t) + Residence(stays[1..], n, t)
  }

  ghost predicate BusyAt(stays: seq<Stay>, n: nat, t: nat) {
    exists i :: 0 <= i < |stays| && ActiveAt(stays[i], n, t)
  }

  /** The number of ticks before `t` with at least one request in flight. */
  ghost function BusyTicks(stays: seq<Stay>, n: nat, t: nat): nat {
    if t == 0 then 0 else BusyTicks(stays, n, t - 1) + (if BusyAt(stays, n, t - 1) then 1 else 0)
  }

  predicate OpenOn(s: Stay, n: nat, write: bool) { Belongs(s, n) && s.end.None? && s.write == write }

  function OpenCount(stays: seq<Stay>, n: nat, write: bool): nat {
    if stays == [] then 0 else (if OpenOn(stays[0], n, write) then 1 else 0) + OpenCount(stays[1..], n, write)
  }

  // ---------------------------------------------------------- the accounting

  const UNUSED: Part := Part(0, 0, 0, 0, 0)

  function At(parts: map<nat, Part>, n: nat): Part { if n in parts then parts[n] else UNUSED }

  /** part_round_stats: the whole disk first, then the partition. */
  function RoundStats(parts: map<nat, Part>, n: nat, now: nat): map<nat, Part> {
    var parts1 := if n != 0 then parts[0 := RoundSingle(At(parts, 0), now)] else parts;
    parts1[n := RoundSingle(At(parts1, n), now)]
  }

  /** part_inc_in_flight and part_dec_in_flight, which count a partition's requests on the disk too. */
  function AdjustFlight(parts: map<nat, Part>, n: nat, write: bool, delta: int): map<nat, Part> {
    var parts1 := parts[n := Adjust(At(parts, n), write, delta)];
    if n != 0 then parts1[0 := Adjust(At(parts1, 0), write, delta)] else parts1
  }

  /** blk_account_io_start and blk_account_io_done on the counters they both touch. */
  function Account(parts: map<nat, Part>, n: nat, write: bool, delta: int, now: nat): map<nat, Part> {
    AdjustFlight(RoundStats(parts, n, now), n, write, delta)
  }

  datatype Event =
    | Tick(d: nat)                                   // the clock never goes back
    | Begin(partno: nat, alive: bool, write: bool)   // a partition being removed is accounted on the disk only
    | Finish(i: nat)                                 // completion, or absorption by another request
    | Report(partno: nat)                            // /proc/diskstats rounds off before it reads

  /** The statistics of a disk and, beside them, the stays they describe. */
  datatype Disk = Disk(parts: map<nat, Part>, now: nat, stays: seq<Stay>)

  predicate Enabled(d: Disk, e: Event) {
    match e
    case Tick(_) => true
    case Begin(n, _, _) => n in d.parts
    case Finish(i) => i < |d.stays| && d.stays[i].end.None?
    case Report(n) => n in d.parts
  }

  function Step(d: Disk, e: Event): Disk
    requires Enabled(d, e)
  {
    match e
    case Tick(k) => d.(now := d.now + k)
    case Begin(n, alive, write) =>
      var part := if alive then n else 0;
      d.(parts := Account(d.parts, part, write, 1, d.now), stays := d.stays + [Stay(part, write, d.now, None)])
    case Finish(i) =>
      var s := d.stays[i];
      d.(parts := Account(d.parts, s.partno, s.write, -1, d.now), stays := d.stays[i := s.(end := Some(d.now))])
    case Report(n) => d.(parts := RoundStats(d.parts, n, d.now))
  }

  /** A disk with partitions `ns` added at time `born`. */
  function NewDisk(ns: set<nat>, born: nat): Disk {
    Disk(map n | n in ns + {0} :: UNUSED.(stamp := born), born, [])
  }

  ghost predicate Runs(d: Disk, es: seq<Event>)
    decreases |es|
  {
    es == [] || (Enabled(d, es[0]) && Runs(Step(d, es[0]), es[1..]))
  }

  ghost function After(d: Disk, es: seq<Event>): Disk
    requires Runs(d, es)
    decreases |es|
  {
    if es == [] then d else After(Step(d, es[0]), es[1..])
  }

  // --------------------------------------------------------------- invariant

  /** The statistics of partition `n` are exact up to its stamp, and nothing began or ended on it since. */
  ghost predicate Exact(p: Part, n: nat, stays: seq<Stay>, now: nat) {
    && p.stamp <= now
    && p.readers == OpenCount(stays, n, false) && p.writers == OpenCount(stays, n, true)
    && p.timeInQueue == Residence(stays, n, p.stamp)
    && p.ioTicks == BusyTicks(stays, n, p.stamp)
    && (forall i :: 0 <= i < |stays| && Belongs(stays[i], n) ==> SettledBy(stays[i], p.stamp))
  }

  predicate SettledBy(s: Stay, t: nat) {
    s.start <= t && (s.end.Some? ==> s.start <= s.end.value <= t)
  }

  ghost predicate Inv(d: Disk, born: nat) {
    && 0 in d.parts && born <= d.now
    && (forall n :: n in d.parts ==> born <= d.parts[n].stamp)
    && (forall i :: 0 <= i < |d.stays| ==> born <= d.stays[i].start)
    && (forall n :: n in d.parts ==> Exact(d.parts[n], n, d.stays, d.now))
    && (forall i :: 0 <= i < |d.stays| ==> d.stays[i].partno in d.parts)
  }

  // ------------------------------------------------- time passing, no events

  /** After the last event each open request adds one tick per tick. */
  lemma {:induction false} ResidenceGrows(stays: seq<Stay>, n: nat, t: nat, d: nat)
    requires forall i :: 0 <= i < |stays| && Belongs(stays[i], n) ==> SettledBy(stays[i], t)
    ensures Residence(stays, n, t + d)
            == Residence(stays, n, t) + (OpenCount(stays, n, false) + OpenCount(stays, n, true)) * d
  {
    if stays != [] {
      var s, k := stays[0], OpenCount(stays[1..], n, false) + OpenCount(stays[1..], n, true);
      assert Belongs(s, n) ==> SettledBy(s, t);
      ResidenceGrows(stays[1..], n, t, d);
      var own := if Belongs(s, n) && s.end.None? then 1 else 0;
      assert Lasted(s, n, t + d) == Lasted(s, n, t) + own * d;
      assert (own + k) * d == own * d + k * d;
    }
  }

  lemma {:induction false} OpenMeansSome(stays: seq<Stay>, n: nat)
    ensures OpenCount(stays, n, false) + OpenCount(stays, n, true) > 0
            <==> exists i :: 0 <= i < |stays| && Belongs(stays[i], n) && stays[i].end.None?
  {
    if stays != [] {
      OpenMeansSome(stays[1..], n);
      if exists i :: 0 <= i < |stays| && Belongs(stays[i], n) && stays[i].end.None? {
        var i :| 0 <= i < |stays| && Belongs(stays[i], n) && stays[i].end.None?;
        assert i > 0 ==> stays[1..][i - 1] == stays[i];
      }
      if exists i :: 0 <= i < |stays[1..]| && Belongs(stays[1..][i], n) && stays[1..][i].end.None? {
        var i :| 0 <= i < |stays[1..]| && Belongs(stays[1..][i], n) && stays[1..][i].end.None?;
        assert stays[i + 1] == stays[1..][i];
      }
    }
  }

  lemma {:induction false} BusyGrows(stays: seq<Stay>, n: nat, t: nat, d: nat)
    requires forall i :: 0 <= i < |stays| && Belongs(stays[i], n) ==> SettledBy(stays[i], t)
    ensures BusyTicks(stays, n, t + d) == BusyTicks(stays, n, t)
            + (if OpenCount(stays, n, false) + OpenCount(stays, n, true) > 0 then d else 0)
    decreases d
  {
    if d > 0 {
      BusyGrows(stays, n, t, d - 1);
      OpenMeansSome(stays, n);
      var u := t + d - 1;
      if OpenCount(stays, n, false) + OpenCount(stays, n, true) > 0 {
        var i :| 0 <= i < |stays| && Belongs(stays[i], n) && stays[i].end.None?;
        assert SettledBy(stays[i], t);
        assert ActiveAt(stays[i], n, u);
      } else {
        forall i | 0 <= i < |stays| ensures !ActiveAt(stays[i], n, u) {
        }
      }
    }
  }

  /** Rounding off moves the stamp to now and keeps the statistics exact. */
  lemma RoundExact(p: Part, n: nat, stays: seq<Stay>, now: nat)
    requires Exact(p, n, stays, now)
    ensures var p' := RoundSingle(p, now);
            p'.stamp == now && Exact(p', n, stays, now) && p'.readers == p.readers && p'.writers == p.writers
  {
    ResidenceGrows(stays, n, p.stamp, now - p.stamp);
    BusyGrows(stays, n, p.stamp, now - p.stamp);
    forall i | 0 <= i < |stays| && Belongs(stays[i], n) ensures SettledBy(stays[i], now) {
      assert SettledBy(stays[i], p.stamp);
    }
  }

  // ---------------------------------------------------- an event at the stamp

  /** A list of stays that differs only by what happens at or after `t`. */
  ghost predicate SameBefore(stays: seq<Stay>, stays': seq<Stay>, n: nat, t: nat) {
    && |stays| <= |stays'|
    && (forall i :: 0 <= i < |stays| ==> Lasted(stays'[i], n, t) == Lasted(stays[i], n, t))
    && (forall i :: |stays| <= i < |stays'| ==> Lasted(stays'[i], n, t) == 0)
    && (forall i, u :: 0 <= i < |stays| && 0 <= u < t ==> ActiveAt(stays'[i], n, u) == ActiveAt(stays[i], n, u))
    && (forall i, u :: |stays| <= i < |stays'| && 0 <= u < t ==> !ActiveAt(stays'[i], n, u))
  }

  lemma {:induction false} NothingLasted(stays: seq<Stay>, n: nat, t: nat)
    requires forall i :: 0 <= i < |stays| ==> Lasted(stays[i], n, t) == 0
    ensures Residence(stays, n, t) == 0
  {
    if stays != [] {
      assert forall i :: 0 <= i < |stays[1..]| ==> stays[1..][i] == stays[i + 1];
      NothingLasted(stays[1..], n, t);
    }
  }

  lemma {:induction false} ResidenceSame(stays: seq<Stay>, stays': seq<Stay>, n: nat, t: nat)
    requires |stays| <= |stays'|
    requires forall i :: 0 <= i < |stays| ==> Lasted(stays'[i], n, t) == Lasted(stays[i], n, t)
    requires forall i :: |stays| <= i < |stays'| ==> Lasted(stays'[i], n, t) == 0
    ensures Residence(stays', n, t) == Residence(stays, n, t)
  {
    if stays == [] {
      NothingLasted(stays', n, t);
    } else {
      assert forall i :: 0 <= i < |stays[1..]| ==> stays[1..][i] == stays[i + 1];
      assert forall i :: 0 <= i < |stays'[1..]| ==> stays'[1..][i] == stays'[i + 1];
      ResidenceSame(stays[1..], stays'[1..], n, t);
    }
  }

  lemma {:induction false} BusySame(stays: seq<Stay>, stays': seq<Stay>, n: nat, t: nat, u: nat)
    requires SameBefore(stays, stays', n, t) && u <= t
    ensures BusyTicks(stays', n, u) == BusyTicks(stays, n, u)
    decreases u
  {
    if u > 0 {
      BusySame(stays, stays', n, t, u - 1);
      if BusyAt(stays, n, u - 1) {
        var i :| 0 <= i < |stays| && ActiveAt(stays[i], n, u - 1);
        assert ActiveAt(stays'[i], n, u - 1);
      }
      if BusyAt(stays', n, u - 1) {
        var i :| 0 <= i < |stays'| && ActiveAt(stays'[i], n, u - 1);
        assert i < |stays| && ActiveAt(stays[i], n, u - 1);
      }
    }
  }

  lemma {:induction false} OpenAppend(stays: seq<Stay>, s: Stay, n: nat, write: bool)
    ensures OpenCount(stays + [s], n, write) == OpenCount(stays, n, write) + (if OpenOn(s, n, write) then 1 else 0)
  {
    if stays == [] {
      assert stays + [s] == [s];
    } else {
      assert (stays + [s])[1..] == stays[1..] + [s];
      OpenAppend(stays[1..], s, n, write);
    }
  }

  lemma {:induction false} OpenUpdate(stays: seq<Stay>, i: nat, s: Stay, n: nat, write: bool)
    requires i < |stays|
    ensures OpenCount(stays[i := s], n, write) + (if OpenOn(stays[i], n, write) then 1 else 0)
            == OpenCount(stays, n, write) + (if OpenOn(s, n, write) then 1 else 0)
  {
    if i == 0 {
      assert stays[i := s][1..] == stays[1..];
    } else {
      assert stays[i := s][1..] == stays[1..][i - 1 := s];
      OpenUpdate(stays[1..], i - 1, s, n, write);
    }
  }

  /** A request that begins now: partitions it belongs to were just rounded off and count one more. */
  lemma BeginExact(p: Part, n: nat, stays: seq<Stay>, now: nat, s: Stay)
    requires Exact(p, n, stays, now) && s.start == now && s.end.None?
    requires Belongs(s, n) ==> p.stamp == now
    ensures Exact(if Belongs(s, n) then Adjust(p, s.write, 1) else p, n, stays + [s], now)
  {
    var stays' := stays + [s];
    assert SameBefore(stays, stays', n, p.stamp);
    ResidenceSame(stays, stays', n, p.stamp);
    BusySame(stays, stays', n, p.stamp, p.stamp);
    OpenAppend(stays, s, n, true);
    OpenAppend(stays, s, n, false);
  }

  /** A request that ends now. */
  lemma FinishExact(p: Part, n: nat, stays: seq<Stay>, now: nat, i: nat)
    requires Exact(p, n, stays, now) && i < |stays| && stays[i].end.None?
    requires Belongs(stays[i], n) ==> p.stamp == now
    ensures Exact(if Belongs(stays[i], n) then Adjust(p, stays[i].write, -1) else p,
                  n, stays[i := stays[i].(end := Some(now))], now)
  {
    var stays' := stays[i := stays[i].(end := Some(now))];
    assert Belongs(stays[i], n) ==> SettledBy(stays[i], p.stamp);
    assert SameBefore(stays, stays', n, p.stamp);
    ResidenceSame(stays, stays', n, p.stamp);
    BusySame(stays, stays', n, p.stamp, p.stamp);
    OpenUpdate(stays, i, stays'[i], n, true);
    OpenUpdate(stays, i, stays'[i], n, false);
  }

  // --------------------------------------------------------------------- runs

  /** What rounding off a partition does to all of them. */
  lemma RoundStatsExact(d: Disk, n: nat, born: nat)
    requires Inv(d, born) && n in d.parts
    ensures var parts := RoundStats(d.parts, n, d.now);
            && Inv(d.(parts := parts), born) && parts.Keys == d.parts.Keys
            && parts[0].stamp == d.now && parts[n].stamp == d.now
  {
    RoundExact(d.parts[0], 0, d.stays, d.now);
    RoundExact(d.parts[n], n, d.stays, d.now);
  }

  lemma AdjustFlightAt(parts: map<nat, Part>, n: nat, write: bool, delta: int, k: nat)
    requires 0 in parts && n in parts && k in parts
    ensures var parts' := AdjustFlight(parts, n, write, delta);
            && parts'.Keys == parts.Keys
            && parts'[k] == (if k == 0 || k == n then Adjust(parts[k], write, delta) else parts[k])
  {
  }

  /** A request begins on partition `n`, which has just been rounded off. */
  lemma OpensExact(d: Disk, n: nat, write: bool, born: nat)
    requires Inv(d, born) && n in d.parts && d.parts[0].stamp == d.now && d.parts[n].stamp == d.now
    ensures Inv(d.(parts := AdjustFlight(d.parts, n, write, 1), stays := d.stays + [Stay(n, write, d.now, None)]), born)
  {
    var s := Stay(n, write, d.now, None);
    var parts' := AdjustFlight(d.parts, n, write, 1);
    AdjustFlightAt(d.parts, n, write, 1, 0);
    forall k | k in d.parts ensures Exact(parts'[k], k, d.stays + [s], d.now) && born <= parts'[k].stamp {
      AdjustFlightAt(d.parts, n, write, 1, k);
      BeginExact(d.parts[k], k, d.stays, d.now, s);
    }
  }

  lemma ClosesExact(d: Disk, i: nat, born: nat)
    requires Inv(d, born) && i < |d.stays| && d.stays[i].end.None?
    requires d.parts[0].stamp == d.now && d.parts[d.stays[i].partno].stamp == d.now
    ensures var s := d.stays[i];
            Inv(d.(parts := AdjustFlight(d.parts, s.partno, s.write, -1),
                   stays := d.stays[i := s.(end := Some(d.now))]), born)
  {
    var s := d.stays[i];
    var parts' := AdjustFlight(d.parts, s.partno, s.write, -1);
    forall k | k in d.parts
      ensures Exact(parts'[k], k, d.stays[i := s.(end := Some(d.now))], d.now) && born <= parts'[k].stamp
    {
      AdjustFlightAt(d.parts, s.partno, s.write, -1, k);
      FinishExact(d.parts[k], k, d.stays, d.now, i);
    }
  }

  lemma BeginStep(d: Disk, n: nat, write: bool, born: nat)
    requires Inv(d, born) && n in d.parts
    ensures Inv(d.(parts := Account(d.parts, n, write, 1, d.now),
                   stays := d.stays + [Stay(n, write, d.now, None)]), born)
  {
    RoundStatsExact(d, n, born);
    OpensExact(d.(parts := RoundStats(d.parts, n, d.now)), n, write, born);
  }

  lemma FinishStep(d: Disk, i: nat, born: nat)
    requires Inv(d, born) && i < |d.stays| && d.stays[i].end.None?
    ensures var s := d.stays[i];
            Inv(d.(parts := Account(d.parts, s.partno, s.write, -1, d.now),
                   stays := d.stays[i := s.(end := Some(d.now))]), born)
  {
    RoundStatsExact(d, d.stays[i].partno, born);
    ClosesExact(d.(parts := RoundStats(d.parts, d.stays[i].partno, d.now)), i, born);
  }

  lemma AccountKeys(parts: map<nat, Part>, n: nat, write: bool, delta: int, now: nat)
    requires 0 in parts && n in parts
    ensures Account(parts, n, write, delta, now).Keys == parts.Keys
  {
  }

  lemma StepExact(d: Disk, e: Event, born: nat)
    requires Inv(d, born) && Enabled(d, e)
    ensures Inv(Step(d, e), born) && Step(d, e).parts.Keys == d.parts.Keys
  {
    match e
    case Tick(k) =>
      forall n | n in d.parts ensures Exact(d.parts[n], n, d.stays, d.now + k) {
        assert Exact(d.parts[n], n, d.stays, d.now);
      }
    case Begin(n, alive, write) =>
      AccountKeys(d.parts, if alive then n else 0, write, 1, d.now);
      BeginStep(d, if alive then n else 0, write, born);
    case Finish(i) =>
      AccountKeys(d.parts, d.stays[i].partno, d.stays[i].write, -1, d.now);
      FinishStep(d, i, born);
    case Report(n) => RoundStatsExact(d, n, born);
  }

  lemma {:induction false} RunExact(d: Disk, es: seq<Event>, born: nat)
    requires Inv(d, born) && Runs(d, es)
    ensures Inv(After(d, es), born) && After(d, es).parts.Keys == d.parts.Keys
    decreases |es|
  {
    if es != [] {
      StepExact(d, es[0], born);
      RunExact(Step(d, es[0]), es[1..], born);
    }
  }

  lemma {:induction false} NotBusyBeforeBorn(stays: seq<Stay>, n: nat, born: nat, t: nat)
    requires forall i :: 0 <= i < |stays| ==> born <= stays[i].start
    ensures BusyTicks(stays, n, t) <= if t <= born then 0 else t - born
  {
    if t > 0 {
      NotBusyBeforeBorn(stays, n, born, t - 1);
    }
  }

  lemma NewDiskExact(ns: set<nat>, born: nat)
    ensures Inv(NewDisk(ns, born), born)
  {
    var d := NewDisk(ns, born);
    forall n | n in d.parts ensures Exact(d.parts[n], n, d.stays, d.now) {
      NotBusyBeforeBorn([], n, born, born);
    }
  }

  /**
   After any sequence of accounting events, for the disk and every partition: time_in_queue is the
   sum of the residence times up to the last stamp, io_ticks the number of ticks with a request in
   flight, hence at most the time since the disk was added, and in_flight the number still open.
   */
  lemma StatsAreExact(ns: set<nat>, born: nat, es: seq<Event>, n: nat)
    requires (n == 0 || n in ns) && Runs(NewDisk(ns, born), es)
    ensures var d := After(NewDisk(ns, born), es);
            && n in d.parts && d.parts[n].stamp <= d.now
            && d.parts[n].timeInQueue == Residence(d.stays, n, d.parts[n].stamp)
            && d.parts[n].ioTicks == BusyTicks(d.stays, n, d.parts[n].stamp) <= d.parts[n].stamp - born
            && InFlight(d.parts[n]) == OpenCount(d.stays, n, false) + OpenCount(d.stays, n, true)
  {
    var d := After(NewDisk(ns, born), es);
    NewDiskExact(ns, born);
    RunExact(NewDisk(ns, born), es, born);
    assert NewDisk(ns, born).parts.Keys == ns + {0};
    assert Exact(d.parts[n], n, d.stays, d.now);
    NotBusyBeforeBorn(d.stays, n, born, d.parts[n].stamp);
  }

  // ---------------------------------------------------------- in-place updates

  /**
   A disk whose statistics are updated in place. `stays` remembers the requests they describe, so that
   every method can promise exact statistics.
   */
  class Gendisk {
    var parts: map<nat, Part>
    var jiffies: nat
    ghost const born: nat
    ghost var stays: seq<Stay>

    ghost function View(): Disk
      reads this
    {
      Disk(parts, jiffies, stays)
    }

    /** All statistics are exact up to their stamps. */
    ghost predicate Valid()
      reads this
    {
      Inv(View(), born)
    }

    constructor (ns: set<nat>, now: nat)
      ensures Valid() && parts.Keys == ns + {0} && jiffies == now && stays == []
    {
      parts, jiffies, born, stays := map n | n in ns + {0} :: UNUSED.(stamp := now), now, now, [];
      new;
      NewDiskExact(ns, now);
    }

    /** The clock never goes back. */
    method Tick(d: nat)
      requires Valid()
      modifies this`jiffies
      ensures Valid() && jiffies == old(jiffies) + d
    {
      StepExact(View(), Event.Tick(d), born);
      jiffies := jiffies + d;
    }

    /** part_round_stats_single: the partition's statistics are exact up to now, and in_flight is as it was. */
    method RoundPart(n: nat, now: nat)
      requires n in parts && now == jiffies && Exact(parts[n], n, stays, now)
      modifies this`parts
      ensures n in parts && parts == old(parts)[n := parts[n]]
      ensures parts[n].stamp == now && Exact(parts[n], n, stays, now)
      ensures parts[n] == RoundSingle(old(parts[n]), now)
    {
      RoundExact(parts[n], n, stays, now);
      var p := parts[n];
      if now == p.stamp {
        assert parts == parts[n := p];
        return;
      }
      var inflight := p.readers + p.writers;
      if inflight != 0 {
        p := p.(timeInQueue := p.timeInQueue + inflight * (now - p.stamp));
        p := p.(ioTicks := p.ioTicks + (now - p.stamp));
      }
      p := p.(stamp := now);
      parts := parts[n := p];
    }

    /** part_round_stats: the disk and the partition are exact up to now, and no statistic became inexact. */
    method Round(n: nat)
      requires Valid() && n in parts
      modifies this`parts
      ensures Valid() && parts.Keys == old(parts.Keys)
      ensures parts[0].stamp == jiffies && parts[n].stamp == jiffies
      ensures parts == RoundStats(old(parts), n, jiffies)
    {
      RoundStatsExact(View(), n, born);
      var now := jiffies;
      if n != 0 {
        RoundPart(0, now);
      }
      RoundPart(n, now);
    }

    method Flight(n: nat, write: bool, delta: int)
      requires 0 in parts && n in parts
      modifies this`parts
      ensures parts == AdjustFlight(old(parts), n, write, delta)
    {
      parts := parts[n := Adjust(parts[n], write, delta)];
      if n != 0 {
        parts := parts[0 := Adjust(parts[0], write, delta)];
      }
    }

    /** Rounds off, then counts a request in or out. */
    method AccountOn(n: nat, write: bool, delta: int)
      requires Valid() && n in parts
      modifies this`parts
      ensures parts == Account(old(parts), n, write, delta, jiffies)
    {
      Round(n);
      Flight(n, write, delta);
    }

    /**
     blk_account_io_start for a new request: its stay begins now, on its partition or, if that is being
     removed, on the whole disk only.
     */
    method Start(n: nat, alive: bool, write: bool) returns (part: nat)
      requires Valid() && n in parts
      modifies this`parts, this`stays
      ensures Valid() && parts.Keys == old(parts.Keys) && part == (if alive then n else 0)
      ensures stays == old(stays) + [Stay(part, write, jiffies, None)]
      ensures InFlight(parts[0]) == old(InFlight(parts[0])) + 1
      ensures parts == Account(old(parts), part, write, 1, jiffies)
    {
      part := n;
      if !alive {
        part := 0;
      }
      StepExact(View(), Begin(n, alive, write), born);
      DiskFlight(parts, part, write, 1, jiffies);
      AccountOn(part, write, 1);
      stays := stays + [Stay(part, write, jiffies, None)];
    }

    /** blk_account_io_done: the i-th stay, of a request accounted on `n`, ends now. */
    method Done(n: nat, write: bool, ghost i: nat)
      requires Valid() && i < |stays| && stays[i].end.None? && stays[i].partno == n && stays[i].write == write
      modifies this`parts, this`stays
      ensures Valid() && parts.Keys == old(parts.Keys)
      ensures stays == old(stays)[i := old(stays[i]).(end := Some(jiffies))]
      ensures 0 in parts && InFlight(parts[0]) == old(InFlight(parts[0])) - 1
      ensures parts == Account(old(parts), n, write, -1, jiffies)
    {
      StepExact(View(), Finish(i), born);
      DiskFlight(parts, n, write, -1, jiffies);
      AccountOn(n, write, -1);
      stays := stays[i := stays[i].(end := Some(jiffies))];
    }
  }

  /** Accounting on any partition changes the disk's in_flight by one. */
  lemma DiskFlight(parts: map<nat, Part>, n: nat, write: bool, delta: int, now: nat)
    requires 0 in parts && n in parts
    ensures var parts' := Account(parts, n, write, delta, now);
            0 in parts' && InFlight(parts'[0]) == InFlight(parts[0]) + delta
  {
  }
}
