/**
 Flushing a task's plug list: the plugged requests are sorted by queue and sector and handed over
 queue by queue, each queue under its own lock.
 */
module PlugFlush {
  import opened Types

  datatype Plugged = Plugged(id: nat, queue: nat, pos: nat, flush: bool)

  datatype At = IntoFlush | SortMerge

  /** What flushing does to the queues, in order. */
  datatype Act =
    | Lock(queue: nat)
    | Insert(rq: Plugged, at: At)
    | Fail(rq: Plugged)                    // ended with -ENODEV on a dying queue
    | Trace(queue: nat, depth: nat)
    | Run(queue: nat, async: bool)
    | Unlock(queue: nat)

  /** plug_rq_cmp says that `a` goes before `b`. */
  predicate Before(a: Plugged, b: Plugged) {
    a.queue < b.queue || (a.queue == b.queue && a.pos < b.pos)
  }

  /** No request goes before an earlier one. */
  ghost predicate Sorted(list: seq<Plugged>) {
    forall i, j :: 0 <= i < j < |list| ==> !Before(list[j], list[i])
  }

  // --------------------------------------------------------------------- sort

  function Place(rq: Plugged, list: seq<Plugged>): (r: seq<Plugged>)
    ensures multiset(r) == multiset(list) + multiset{rq}
  {
    if list == [] || Before(rq, list[0]) then [rq] + list
    else
      assert list == [list[0]] + list[1..];
      [list[0]] + Place(rq, list[1..])
  }

  /** list_sort: only that it returns a sorted permutation is used below. */
  function SortList(list: seq<Plugged>): (r: seq<Plugged>)
    ensures multiset(r) == multiset(list)
  {
    if list == [] then []
    else
      assert list == [list[0]] + list[1..];
      Place(list[0], SortList(list[1..]))
  }

  lemma {:induction false} PlaceSorted(rq: Plugged, list: seq<Plugged>)
    requires Sorted(list)
    ensures Sorted(Place(rq, list))
  {
    if list != [] && !Before(rq, list[0]) {
      var rest := Place(rq, list[1..]);
      PlaceSorted(rq, list[1..]);
      forall x | x in rest ensures !Before(x, list[0]) {
        assert x in multiset(rest);
        assert x == rq || x in list[1..];
      }
    }
  }

  lemma {:induction false} SortListSorted(list: seq<Plugged>)
    ensures Sorted(SortList(list))
  {
    if list != [] {
      SortListSorted(list[1..]);
      PlaceSorted(list[0], SortList(list[1..]));
    }
  }

  // ----------------------------------------------------------------- the log

  /** Who holds a queue lock after the acts of a log; `Broken` once the discipline was violated. */
  datatype Holder = Free | By(queue: nat) | Broken

  function Next(h: Holder, a: Act): Holder {
    match a
    case Lock(q) => if h.Free? then By(q) else Broken
    case Insert(rq, _) => if h == By(rq.queue) then h else Broken
    case Fail(rq) => if h == By(rq.queue) then h else Broken
    case Trace(q, _) => if h == By(q) then h else Broken
    case Run(q, _) => if h == By(q) then h else Broken
    case Unlock(q) => if h == By(q) then Free else Broken
  }

  function HolderAfter(log: seq<Act>): Holder {
    if log == [] then Free else Next(HolderAfter(log[..|log| - 1]), log[|log| - 1])
  }

  /** What a log did to one queue: how often it was locked, run and unlocked, the insertions and the reported depths. */
  datatype Service = Service(locks: nat, runs: nat, unlocks: nat, inserted: nat, depths: seq<nat>)

  function Add(s: Service, a: Act, q: nat, async: bool): Service {
    match a
    case Lock(x) => if x == q then s.(locks := s.locks + 1) else s
    case Insert(rq, _) => if rq.queue == q then s.(inserted := s.inserted + 1) else s
    case Fail(_) => s
    case Trace(x, depth) => if x == q then s.(depths := s.depths + [depth]) else s
    case Run(x, y) => if x == q && y == async then s.(runs := s.runs + 1) else s
    case Unlock(x) => if x == q then s.(unlocks := s.unlocks + 1) else s
  }

  function ServiceOf(log: seq<Act>, q: nat, async: bool): Service {
    if log == [] then Service(0, 0, 0, 0, [])
    else Add(ServiceOf(log[..|log| - 1], q, async), log[|log| - 1], q, async)
  }

  lemma ExtendHolder(log: seq<Act>, a: Act)
    ensures HolderAfter(log + [a]) == Next(HolderAfter(log), a)
  {
    assert (log + [a])[..|log|] == log;
  }

  lemma ExtendService(log: seq<Act>, a: Act, q: nat, async: bool)
    ensures ServiceOf(log + [a], q, async) == Add(ServiceOf(log, q, async), a, q, async)
  {
    assert (log + [a])[..|log|] == log;
  }

  // ------------------------------------------------------------- the promises

  function InsertAt(rq: Plugged): Act { Insert(rq, if rq.flush then IntoFlush else SortMerge) }

  /** Each listed request is moved exactly as often as it is listed, and no other. */
  ghost predicate EachOnce(list: seq<Plugged>, moves: seq<Act>) {
    && |moves| == |list|
    && (forall rq: Plugged ::
          multiset(moves)[Insert(rq, if rq.flush then IntoFlush else SortMerge)] + multiset(moves)[Fail(rq)]
          == multiset(list)[rq])
  }

  /** The acts of a log that move a request. */
  function Moves(log: seq<Act>): seq<Act> {
    if log == [] then []
    else
      var a := log[|log| - 1];
      Moves(log[..|log| - 1]) + (if a.Insert? || a.Fail? then [a] else [])
  }

  lemma ExtendMoves(log: seq<Act>, a: Act)
    ensures Moves(log + [a]) == Moves(log) + (if a.Insert? || a.Fail? then [a] else [])
  {
    assert (log + [a])[..|log|] == log;
  }

  function Fate(rq: Plugged, dying: bool): Act { if dying then Fail(rq) else InsertAt(rq) }

  /** What becomes of the first `i` requests: ended on a dying queue, inserted otherwise. */
  function Handed(list: seq<Plugged>, i: nat, dying: nat -> bool): seq<Act>
    requires i <= |list|
  {
    if i == 0 then []
    else Handed(list, i - 1, dying) + [Fate(list[i - 1], dying(i - 1))]
  }

  /** Queue by queue, requests are moved in ascending sector order. */
  ghost predicate Ascending(moves: seq<Act>) {
    forall i, j :: 0 <= i < j < |moves| && (moves[i].Insert? || moves[i].Fail?) && (moves[j].Insert? || moves[j].Fail?)
                   && moves[i].rq.queue == moves[j].rq.queue
                   ==> moves[i].rq.pos <= moves[j].rq.pos
  }

  lemma {:induction false} HandedCount(list: seq<Plugged>, i: nat, dying: nat -> bool, rq: Plugged)
    requires i <= |list|
    ensures var moves := Handed(list, i, dying);
            && |moves| == i
            && multiset(moves)[InsertAt(rq)] + multiset(moves)[Fail(rq)] == multiset(list[..i])[rq]
  {
    if i > 0 {
      HandedCount(list, i - 1, dying, rq);
      var last, moves := list[i - 1], Handed(list, i - 1, dying);
      SliceCount(list, i, rq);
      FateCount(moves, Fate(last, dying(i - 1)), last, rq);
    }
  }

  lemma SliceCount(list: seq<Plugged>, i: nat, rq: Plugged)
    requires 0 < i <= |list|
    ensures multiset(list[..i])[rq] == multiset(list[..i - 1])[rq] + (if rq == list[i - 1] then 1 else 0)
  {
    assert list[..i] == list[..i - 1] + [list[i - 1]];
  }

  lemma FateCount(moves: seq<Act>, a: Act, last: Plugged, rq: Plugged)
    requires a == InsertAt(last) || a == Fail(last)
    ensures multiset(moves + [a])[InsertAt(rq)] + multiset(moves + [a])[Fail(rq)]
            == multiset(moves)[InsertAt(rq)] + multiset(moves)[Fail(rq)] + (if rq == last then 1 else 0)
  {
    assert multiset(moves + [a]) == multiset(moves) + multiset{a};
  }

  lemma HandedOnce(list: seq<Plugged>, i: nat, dying: nat -> bool)
    requires i <= |list|
    ensures EachOnce(list[..i], Handed(list, i, dying))
  {
    var moves := Handed(list, i, dying);
    HandedCount(list, i, dying, Plugged(0, 0, 0, false));
    forall rq: Plugged
      ensures multiset(moves)[Insert(rq, if rq.flush then IntoFlush else SortMerge)] + multiset(moves)[Fail(rq)]
              == multiset(list[..i])[rq]
    {
      HandedCount(list, i, dying, rq);
    }
  }

  lemma {:induction false} HandedIs(list: seq<Plugged>, i: nat, dying: nat -> bool, k: nat)
    requires k < i <= |list|
    ensures |Handed(list, i, dying)| == i && Handed(list, i, dying)[k] == Fate(list[k], dying(k))
  {
    if k < i - 1 {
      HandedIs(list, i - 1, dying, k);
    } else if i > 1 {
      HandedIs(list, i - 1, dying, 0);
    }
  }

  lemma HandedAscending(list: seq<Plugged>, i: nat, dying: nat -> bool)
    requires Sorted(list) && i <= |list|
    ensures Ascending(Handed(list, i, dying))
  {
    var moves := Handed(list, i, dying);
    if i > 0 {
      HandedIs(list, i, dying, 0);
    }
    forall a, b | 0 <= a < b < |moves| && (moves[a].Insert? || moves[a].Fail?) && (moves[b].Insert? || moves[b].Fail?)
      ensures moves[a].rq.queue == moves[b].rq.queue ==> moves[a].rq.pos <= moves[b].rq.pos
    {
      HandedIs(list, i, dying, a);
      HandedIs(list, i, dying, b);
      assert !Before(list[b], list[a]);
    }
  }

  /** Locked once or not at all, and likewise run, unlocked and reported with the number of insertions. */
  predicate Served(s: Service, locked: bool, finished: bool) {
    && s.locks == (if locked then 1 else 0)
    && s.runs == s.unlocks == (if finished then 1 else 0)
    && s.depths == (if finished then [s.inserted] else [])
    && (!locked ==> s.inserted == 0)
  }

  // ---------------------------------------------------------------- the steps

  /** The lock discipline so far: `held` is locked, every other queue in `seen` is finished. */
  ghost predicate Locking(log: seq<Act>, async: bool, held: Option<nat>, seen: set<nat>) {
    && HolderAfter(log) == (if held.Some? then By(held.value) else Free)
    && (held.Some? ==> held.value in seen)
    && (forall q :: Served(ServiceOf(log, q, async), q in seen, q in seen && held != Some(q)))
  }

  lemma Acquire(log: seq<Act>, async: bool, seen: set<nat>, q: nat)
    requires Locking(log, async, None, seen) && q !in seen
    ensures Locking(log + [Lock(q)], async, Some(q), seen + {q})
    ensures ServiceOf(log + [Lock(q)], q, async).inserted == 0
  {
    ExtendHolder(log, Lock(q));
    ExtendService(log, Lock(q), q, async);
    forall x ensures Served(ServiceOf(log + [Lock(q)], x, async), x in seen + {q}, x in seen + {q} && x != q) {
      ExtendService(log, Lock(q), x, async);
    }
  }

  lemma HandOver(log: seq<Act>, async: bool, q: nat, seen: set<nat>, a: Act)
    requires Locking(log, async, Some(q), seen) && (a.Insert? || a.Fail?) && a.rq.queue == q
    ensures Locking(log + [a], async, Some(q), seen)
    ensures ServiceOf(log + [a], q, async).inserted == ServiceOf(log, q, async).inserted + (if a.Insert? then 1 else 0)
  {
    ExtendHolder(log, a);
    ExtendService(log, a, q, async);
    forall x ensures Served(ServiceOf(log + [a], x, async), x in seen, x in seen && x != q) {
      ExtendService(log, a, x, async);
    }
  }

  /** queue_unplugged. */
  function Unplugged(q: nat, depth: nat, async: bool): seq<Act> { [Trace(q, depth), Run(q, async), Unlock(q)] }

  lemma ExtendThrice(log: seq<Act>, a: Act, b: Act, c: Act)
    ensures log + [a, b, c] == log + [a] + [b] + [c]
  {
  }

  lemma ReleaseService(log: seq<Act>, async: bool, q: nat, depth: nat, x: nat)
    ensures ServiceOf(log + Unplugged(q, depth, async), x, async) ==
            (var s := ServiceOf(log, x, async);
             if x == q then s.(depths := s.depths + [depth], runs := s.runs + 1, unlocks := s.unlocks + 1) else s)
  {
    var a, b, c := Trace(q, depth), Run(q, async), Unlock(q);
    ExtendThrice(log, a, b, c);
    ExtendService(log, a, x, async);
    ExtendService(log + [a], b, x, async);
    ExtendService(log + [a] + [b], c, x, async);
  }

  lemma ReleaseMoves(log: seq<Act>, q: nat, depth: nat, async: bool)
    ensures Moves(log + Unplugged(q, depth, async)) == Moves(log)
  {
    var a, b, c := Trace(q, depth), Run(q, async), Unlock(q);
    ExtendThrice(log, a, b, c);
    ExtendMoves(log, a);
    ExtendMoves(log + [a], b);
    ExtendMoves(log + [a] + [b], c);
  }

  lemma ReleaseHolder(log: seq<Act>, async: bool, q: nat, depth: nat)
    requires HolderAfter(log) == By(q)
    ensures HolderAfter(log + Unplugged(q, depth, async)) == Free
  {
    var a, b, c := Trace(q, depth), Run(q, async), Unlock(q);
    ExtendThrice(log, a, b, c);
    ExtendHolder(log, a);
    ExtendHolder(log + [a], b);
    ExtendHolder(log + [a] + [b], c);
  }

  lemma Release(log: seq<Act>, async: bool, q: nat, seen: set<nat>, depth: nat)
    requires Locking(log, async, Some(q), seen) && depth == ServiceOf(log, q, async).inserted
    ensures Locking(log + Unplugged(q, depth, async), async, None, seen)
  {
    ReleaseHolder(log, async, q, depth);
    forall x ensures Served(ServiceOf(log + Unplugged(q, depth, async), x, async), x in seen, x in seen) {
      ReleaseService(log, async, q, depth, x);
    }
  }

  ghost function Queues(list: seq<Plugged>): set<nat> {
    set i | 0 <= i < |list| :: list[i].queue
  }

  // ------------------------------------------------------------- the operation

  /** Drops the lock of the last queue, if any, and takes that of `next`. */
  method SwitchQueue(log: seq<Act>, async: bool, held: Option<nat>, depth: nat, next: nat, ghost seen: set<nat>)
    returns (log': seq<Act>)
    requires Locking(log, async, held, seen) && next !in seen
    requires held.Some? ==> depth == ServiceOf(log, held.value, async).inserted
    ensures Locking(log', async, Some(next), seen + {next}) && ServiceOf(log', next, async).inserted == 0
    ensures Moves(log') == Moves(log)
  {
    log' := log;
    if held.Some? {
      Release(log', async, held.value, seen, depth);
      ReleaseMoves(log', held.value, depth, async);
      log' := log' + Unplugged(held.value, depth, async);
    }
    Acquire(log', async, seen, next);
    ExtendMoves(log', Lock(next));
    log' := log' + [Lock(next)];
  }

  /** The state of the loop after `i` requests. */
  ghost predicate Midway(
    list: seq<Plugged>, i: nat, dying: nat -> bool, log: seq<Act>, async: bool, held: Option<nat>, depth: nat)
    requires i <= |list|
  {
    && held == (if i == 0 then None else Some(list[i - 1].queue))
    && Locking(log, async, held, Queues(list[..i]))
    && (held.Some? ==> depth == ServiceOf(log, held.value, async).inserted)
    && Moves(log) == Handed(list, i, dying)
  }

  /** The loop body up to the hand-over: the lock of the request's queue is held. */
  method Enter(
    list: seq<Plugged>, i: nat, ghost dying: nat -> bool, log: seq<Act>, async: bool, held: Option<nat>, depth: nat)
    returns (log': seq<Act>, depth': nat)
    requires Sorted(list) && i < |list| && Midway(list, i, dying, log, async, held, depth)
    ensures Locking(log', async, Some(list[i].queue), Queues(list[..i]) + {list[i].queue})
    ensures depth' == ServiceOf(log', list[i].queue, async).inserted && Moves(log') == Moves(log)
  {
    if held == Some(list[i].queue) {
      assert Queues(list[..i]) + {list[i].queue} == Queues(list[..i]);
      return log, depth;
    }
    NewQueue(list, i);
    log' := SwitchQueue(log, async, held, depth, list[i].queue, Queues(list[..i]));
    depth' := 0;
  }

  lemma HandOverLocks(list: seq<Plugged>, i: nat, log: seq<Act>, async: bool, a: Act)
    requires i < |list| && (a == InsertAt(list[i]) || a == Fail(list[i]))
    requires Locking(log, async, Some(list[i].queue), Queues(list[..i]) + {list[i].queue})
    ensures Locking(log + [a], async, Some(list[i].queue), Queues(list[..i + 1]))
    ensures var q := list[i].queue;
            ServiceOf(log + [a], q, async).inserted == ServiceOf(log, q, async).inserted + (if a.Insert? then 1 else 0)
  {
    QueuesGrow(list, i);
    HandOver(log, async, list[i].queue, Queues(list[..i]) + {list[i].queue}, a);
  }

  lemma HandOverMidway(list: seq<Plugged>, i: nat, dying: nat -> bool, log: seq<Act>, async: bool, depth: nat)
    requires i < |list| && Moves(log) == Handed(list, i, dying)
    requires Locking(log, async, Some(list[i].queue), Queues(list[..i]) + {list[i].queue})
    requires depth == ServiceOf(log, list[i].queue, async).inserted
    ensures Midway(list, i + 1, dying, log + [Fate(list[i], dying(i))], async, Some(list[i].queue),
                   depth + if dying(i) then 0 else 1)
  {
    HandOverLocks(list, i, log, async, Fate(list[i], dying(i)));
    ExtendMoves(log, Fate(list[i], dying(i)));
  }

  /** The loop body. */
  method Turn(list: seq<Plugged>, i: nat, dying: nat -> bool, log: seq<Act>, async: bool, held: Option<nat>, depth: nat)
    returns (log': seq<Act>, depth': nat)
    requires Sorted(list) && i < |list| && Midway(list, i, dying, log, async, held, depth)
    ensures Midway(list, i + 1, dying, log', async, Some(list[i].queue), depth')
  {
    log', depth' := Enter(list, i, dying, log, async, held, depth);
    HandOverMidway(list, i, dying, log', async, depth');
    if dying(i) {
      log' := log' + [Fail(list[i])];
    } else {
      log' := log' + [InsertAt(list[i])];
      depth' := depth' + 1;
    }
  }

  lemma StartMidway(list: seq<Plugged>, dying: nat -> bool, async: bool)
    ensures Midway(list, 0, dying, [], async, None, 0)
  {
    assert Queues(list[..0]) == {};
  }

  lemma EndMidway(list: seq<Plugged>, dying: nat -> bool, log: seq<Act>, async: bool, held: Option<nat>, depth: nat)
    requires Midway(list, |list|, dying, log, async, held, depth)
    ensures var log' := if held.Some? then log + Unplugged(held.value, depth, async) else log;
            Locking(log', async, None, Queues(list)) && Moves(log') == Handed(list, |list|, dying)
  {
    assert list[..|list|] == list;
    if held.Some? {
      Release(log, async, held.value, Queues(list), depth);
      ReleaseMoves(log, held.value, depth, async);
    }
  }

  /** The loop over the sorted list, whatever sorted permutation it is. */
  method FlushSorted(list: seq<Plugged>, dying: nat -> bool, async: bool) returns (log: seq<Act>)
    requires Sorted(list)
    ensures Locking(log, async, None, Queues(list))
    ensures Moves(log) == Handed(list, |list|, dying)
  {
    log := [];
    var q: Option<nat>, depth: nat := None, 0;
    StartMidway(list, dying, async);
    var i := 0;
    while i < |list|
      invariant i <= |list| && Midway(list, i, dying, log, async, q, depth)
    {
      log, depth := Turn(list, i, dying, log, async, q, depth);
      q, i := Some(list[i].queue), i + 1;
    }
    EndMidway(list, dying, log, async, q, depth);
    if q.Some? {
      log := log + Unplugged(q.value, depth, async);
    }
  }

  /** In a sorted list a queue that differs from the last one has not been met before. */
  lemma NewQueue(list: seq<Plugged>, i: nat)
    requires Sorted(list) && i < |list| && (i > 0 ==> list[i - 1].queue != list[i].queue)
    ensures list[i].queue !in Queues(list[..i])
  {
    forall j | 0 <= j < i ensures list[j].queue != list[i].queue {
      assert !Before(list[i], list[j]);
      if j < i - 1 {
        assert !Before(list[i - 1], list[j]);
        assert !Before(list[i], list[i - 1]);
      }
    }
  }

  lemma QueuesGrow(list: seq<Plugged>, i: nat)
    requires i < |list|
    ensures list[..i + 1] == list[..i] + [list[i]]
    ensures Queues(list[..i + 1]) == Queues(list[..i]) + {list[i].queue}
  {
    var s := list[..i];
    assert list[..i + 1] == s + [list[i]];
    forall x ensures x in Queues(s + [list[i]]) <==> x in Queues(s) + {list[i].queue} {
      if x in Queues(s) {
        var j :| 0 <= j < |s| && s[j].queue == x;
        assert (s + [list[i]])[j].queue == x;
      }
      assert (s + [list[i]])[i] == list[i];
    }
  }

  /** A task's plug. */
  class Plug {
    var list: seq<Plugged>

    constructor ()
      ensures list == []
    {
      list := [];
    }

    /**
     blk_flush_plug_list; `dying(i)` is whether the queue of the i-th request is dying when it is
     looked at. Returns the acts in order.
     */
    method Flush(dying: nat -> bool, async: bool) returns (log: seq<Act>)
      modifies this
      ensures list == []
      ensures Locking(log, async, None, Queues(old(list)))
      ensures EachOnce(old(list), Moves(log)) && Ascending(Moves(log))
      ensures Moves(log) == Handed(SortList(old(list)), |SortList(old(list))|, dying)
    {
      log := [];
      if list == [] {
        NothingToFlush(list, log, dying, async);
        return;
      }
      var sorted := SortList(list);
      SortListSorted(list);
      ghost var plugged := list;
      list := [];
      log := FlushSorted(sorted, dying, async);
      FlushSummary(plugged, sorted, dying, log, async);
    }
  }

  lemma NothingToFlush(list: seq<Plugged>, log: seq<Act>, dying: nat -> bool, async: bool)
    requires list == [] && log == []
    ensures Locking(log, async, None, Queues(list)) && EachOnce(list, Moves(log)) && Ascending(Moves(log))
    ensures Moves(log) == Handed(SortList(list), |SortList(list)|, dying)
  {
    StartMidway(list, dying, async);
    EndMidway(list, dying, log, async, None, 0);
    FlushSummary(list, list, dying, log, async);
  }

  /** What flushing the sorted list means for the list that was plugged. */
  lemma FlushSummary(list: seq<Plugged>, sorted: seq<Plugged>, dying: nat -> bool, log: seq<Act>, async: bool)
    requires multiset(sorted) == multiset(list) && Sorted(sorted)
    requires Locking(log, async, None, Queues(sorted)) && Moves(log) == Handed(sorted, |sorted|, dying)
    ensures Locking(log, async, None, Queues(list)) && EachOnce(list, Moves(log)) && Ascending(Moves(log))
  {
    SameQueues(list, sorted);
    HandedAscending(sorted, |sorted|, dying);
    HandedOnce(sorted, |sorted|, dying);
    assert sorted[..|sorted|] == sorted;
    SameOnce(list, sorted, Moves(log));
  }

  lemma SameOnce(list: seq<Plugged>, sorted: seq<Plugged>, moves: seq<Act>)
    requires multiset(sorted) == multiset(list) && EachOnce(sorted, moves)
    ensures EachOnce(list, moves)
  {
    assert |multiset(list)| == |list| && |multiset(sorted)| == |sorted|;
  }

  lemma SameQueues(a: seq<Plugged>, b: seq<Plugged>)
    requires multiset(a) == multiset(b)
    ensures Queues(a) == Queues(b)
  {
    forall x | x in Queues(a) ensures x in Queues(b) {
      QueueOf(a, b, x);
    }
    forall x | x in Queues(b) ensures x in Queues(a) {
      QueueOf(b, a, x);
    }
  }

  lemma QueueOf(a: seq<Plugged>, b: seq<Plugged>, x: nat)
    requires multiset(a) == multiset(b) && x in Queues(a)
    ensures x in Queues(b)
  {
    var i :| 0 <= i < |a| && a[i].queue == x;
    assert a[i] in multiset(b);
    var j :| 0 <= j < |b| && b[j] == a[i];
  }
}
