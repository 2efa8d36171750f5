/**
 The order in which the greedy scheduler serves requests. From lists sorted outward from the last
 position, dispatch is nearest-first and a drain emits the shortest-seek-first schedule. The
 insertion code does not produce such lists, which is stated exactly as well.
 */
module ShortestSeek {
  import opened Types
  import opened Lists
  import opened Requests
  import opened Elevator
  import opened ElevatorSafety

  function Distance(prev: nat, r: Request): nat {
    if Pos(r) >= prev then Pos(r) - prev else prev - Pos(r)
  }

  ghost predicate Ascending(list: seq<Id>, rqs: map<Id, Request>) {
    forall i, j :: 0 <= i < j < |list| ==> Pos(Lookup(rqs, list[i])) <= Pos(Lookup(rqs, list[j]))
  }

  ghost predicate Descending(list: seq<Id>, rqs: map<Id, Request>) {
    forall i, j :: 0 <= i < j < |list| ==> Pos(Lookup(rqs, list[i])) >= Pos(Lookup(rqs, list[j]))
  }

  /** lower < prev_pos <= higher, and both lists go outward from prev_pos. */
  ghost predicate SortedOutward(st: State) {
    && Ascending(st.sched.higher, st.rqs) && Descending(st.sched.lower, st.rqs)
    && (forall id :: id in st.sched.higher ==> st.sched.prevPos <= Pos(Rq(st, id)))
    && (forall id :: id in st.sched.lower ==> Pos(Rq(st, id)) < st.sched.prevPos)
  }

  /** Pending requests have data and do not overlap. */
  ghost predicate DisjointPending(st: State) {
    && (forall x :: Pending(st, x) ==> Pos(Rq(st, x)) < End(Rq(st, x)))
    && (forall x, y :: Pending(st, x) && Pending(st, y) && x != y ==>
          End(Rq(st, x)) <= Pos(Rq(st, y)) || End(Rq(st, y)) <= Pos(Rq(st, x)))
  }

  /** Everything the head can seek between lies within 2^31 sectors. */
  ghost predicate InWindow(st: State, lo: nat) {
    && lo <= st.sched.prevPos < lo + TWO_31
    && (forall x :: Pending(st, x) ==> lo <= Pos(Rq(st, x)) && End(Rq(st, x)) < lo + TWO_31)
  }

  ghost predicate Precedes(prev: nat, t: Request, y: Request) {
    || Distance(prev, t) < Distance(prev, y)
    || (Distance(prev, t) == Distance(prev, y) && Pos(y) < prev <= Pos(t))
  }

  /** `t` is the next request of a shortest-seek-first schedule: strictly nearest, ties served upward. */
  ghost predicate Nearest(rqs: map<Id, Request>, prev: nat, pend: set<Id>, t: Id) {
    && t in pend
    && forall y :: y in pend && y != t ==> Precedes(prev, Lookup(rqs, t), Lookup(rqs, y))
  }

  /** `out` serves exactly `pend`, always the nearest request left, moving the head to its end. */
  ghost predicate Schedule(rqs: map<Id, Request>, prev: nat, pend: set<Id>, out: seq<Id>)
    decreases |out|
  {
    if out == [] then pend == {}
    else Nearest(rqs, prev, pend, out[0]) && Schedule(rqs, End(Lookup(rqs, out[0])), pend - {out[0]}, out[1..])
  }

  ghost function PendingSet(st: State): set<Id> {
    Elements(st.sched.higher) + Elements(st.sched.lower)
  }

  /** A pending set has at most one shortest-seek-first schedule. */
  lemma {:induction false} ScheduleUnique(rqs: map<Id, Request>, prev: nat, pend: set<Id>, a: seq<Id>, b: seq<Id>)
    requires Schedule(rqs, prev, pend, a) && Schedule(rqs, prev, pend, b)
    ensures a == b
    decreases |a|
  {
    if a == [] {
      assert b == [];
    } else {
      assert b != [];
      assert a[0] == b[0];
      ScheduleUnique(rqs, End(Lookup(rqs, a[0])), pend - {a[0]}, a[1..], b[1..]);
      assert a == [a[0]] + a[1..] && b == [b[0]] + b[1..];
    }
  }

  // ---------------------------------------------------------------- dispatch

  /** How often a distance wraps when it is stored in a C int, and what is left of it then. */
  function Turns(d: nat): nat { (d + TWO_31) / TWO_32 }

  function Low(d: nat): nat { (d + TWO_31) % TWO_32 }

  /** The distances wrap equally often, or what is left of them is in the order of how often they wrap. */
  predicate ComparesRight(up: nat, down: nat) {
    Turns(up) == Turns(down) || (Turns(up) > Turns(down) <==> Low(up) > Low(down))
  }

  /** The truncated comparison is right exactly under that condition, for distances of any size. */
  lemma TruncatedCompare(up: nat, down: nat)
    ensures (Int32(up) > Int32(down) <==> up > down) <==> ComparesRight(up, down)
  {
    assert up + TWO_31 == TWO_32 * Turns(up) + Low(up) && down + TWO_31 == TWO_32 * Turns(down) + Low(down);
  }

  /** Both heads are within 2^31 sectors or both are beyond. */
  predicate SameHalf(up: nat, down: nat) { up < TWO_31 <==> down < TWO_31 }

  /** Below 2^32 sectors, as on any disk of up to 2 TB, only the half matters. */
  lemma SameHalfCompares(up: nat, down: nat)
    requires up < TWO_32 && down < TWO_32
    ensures ComparesRight(up, down) <==> SameHalf(up, down)
  {
    assert Turns(up) == (if up < TWO_31 then 0 else 1) && Turns(down) == (if down < TWO_31 then 0 else 1);
  }

  lemma FirstOfAscending(list: seq<Id>, rqs: map<Id, Request>, y: Id)
    requires Ascending(list, rqs) && y in list
    ensures Pos(Lookup(rqs, list[0])) <= Pos(Lookup(rqs, y))
  {
    var j :| 0 <= j < |list| && list[j] == y;
  }

  lemma FirstOfDescending(list: seq<Id>, rqs: map<Id, Request>, y: Id)
    requires Descending(list, rqs) && y in list
    ensures Pos(Lookup(rqs, list[0])) >= Pos(Lookup(rqs, y))
  {
    var j :| 0 <= j < |list| && list[j] == y;
  }

  /** The head of each list is the nearest request on its side, strictly so. */
  lemma HeadsAreNearest(st: State, y: Id)
    requires SortedOutward(st) && DisjointPending(st) && Pending(st, y)
    ensures y in st.sched.higher ==>
              var h := st.sched.higher[0];
              st.sched.prevPos <= Pos(Rq(st, h)) && (y == h || Pos(Rq(st, h)) < Pos(Rq(st, y)))
    ensures y in st.sched.lower ==>
              var l := st.sched.lower[0];
              Pos(Rq(st, l)) < st.sched.prevPos && (y == l || Pos(Rq(st, l)) > Pos(Rq(st, y)))
  {
    if y in st.sched.higher {
      FirstOfAscending(st.sched.higher, st.rqs, y);
      assert Pending(st, st.sched.higher[0]) && st.sched.higher[0] in st.sched.higher;
    }
    if y in st.sched.lower {
      FirstOfDescending(st.sched.lower, st.rqs, y);
      assert Pending(st, st.sched.lower[0]) && st.sched.lower[0] in st.sched.lower;
    }
  }

  /** The head distances on both sides. */
  function Up(st: State): nat
    requires st.sched.higher != []
  {
    Distance(st.sched.prevPos, Rq(st, st.sched.higher[0]))
  }

  function Down(st: State): nat
    requires st.sched.lower != []
  {
    Distance(st.sched.prevPos, Rq(st, st.sched.lower[0]))
  }

  /** The head that an untruncated comparison would choose. */
  function NearerHead(st: State): Id
    requires PendingCount(st) > 0
  {
    if st.sched.lower == [] then st.sched.higher[0]
    else if st.sched.higher == [] || Up(st) > Down(st) then st.sched.lower[0]
    else st.sched.higher[0]
  }

  lemma NearerHeadPrecedes(st: State, y: Id)
    requires SortedOutward(st) && DisjointPending(st) && Pending(st, y)
    ensures y == NearerHead(st) || Precedes(st.sched.prevPos, Rq(st, NearerHead(st)), Rq(st, y))
  {
    HeadsAreNearest(st, y);
    if st.sched.higher != [] {
      assert Pending(st, st.sched.higher[0]);
      HeadsAreNearest(st, st.sched.higher[0]);
    }
    if st.sched.lower != [] {
      assert Pending(st, st.sched.lower[0]);
      HeadsAreNearest(st, st.sched.lower[0]);
    }
  }

  lemma NearerHeadIsNearest(st: State)
    requires SortedOutward(st) && DisjointPending(st) && PendingCount(st) > 0
    ensures Nearest(st.rqs, st.sched.prevPos, PendingSet(st), NearerHead(st))
  {
    assert Pending(st, NearerHead(st));
    forall y | y in PendingSet(st) && y != NearerHead(st)
      ensures Precedes(st.sched.prevPos, Rq(st, NearerHead(st)), Rq(st, y))
    {
      NearerHeadPrecedes(st, y);
    }
  }

  lemma NearestUnique(rqs: map<Id, Request>, prev: nat, pend: set<Id>, a: Id, b: Id)
    requires Nearest(rqs, prev, pend, a) && Nearest(rqs, prev, pend, b)
    ensures a == b
  {
    assert a != b ==> Precedes(prev, Lookup(rqs, a), Lookup(rqs, b)) && Precedes(prev, Lookup(rqs, b), Lookup(rqs, a));
  }

  lemma TargetIsNearerHeadIff(st: State)
    requires Placed(st) && SortedOutward(st) && PendingCount(st) > 0
    ensures var t := GreedyTarget(st.sched, st.rqs);
            && t.Some?
            && (t.value == NearerHead(st) <==>
                  st.sched.higher == [] || st.sched.lower == [] || ComparesRight(Up(st), Down(st)))
  {
    if st.sched.higher != [] && st.sched.lower != [] {
      var h, l := st.sched.higher[0], st.sched.lower[0];
      assert h in st.sched.higher && l in st.sched.lower;
      assert Up(st) == Pos(Rq(st, h)) - st.sched.prevPos && Down(st) == st.sched.prevPos - Pos(Rq(st, l));
      TruncatedCompare(Up(st), Down(st));
    }
  }

  /** greedy_dispatch picks the nearest pending request exactly when the int comparison of the heads is right. */
  lemma DispatchIsNearest(st: State)
    requires Placed(st) && SortedOutward(st) && DisjointPending(st) && PendingCount(st) > 0
    ensures var t := GreedyTarget(st.sched, st.rqs);
            && t.Some?
            && (Nearest(st.rqs, st.sched.prevPos, PendingSet(st), t.value) <==>
                  st.sched.higher == [] || st.sched.lower == [] || ComparesRight(Up(st), Down(st)))
  {
    var t := GreedyTarget(st.sched, st.rqs).value;
    TargetIsNearerHeadIff(st);
    NearerHeadIsNearest(st);
    if Nearest(st.rqs, st.sched.prevPos, PendingSet(st), t) {
      NearestUnique(st.rqs, st.sched.prevPos, PendingSet(st), t, NearerHead(st));
    }
  }

  lemma {:induction false} WithoutHeadOf(s: seq<Id>, id: Id)
    requires NoDup(s) && (id in s ==> s != [] && s[0] == id)
    ensures Without(s, id) == if id in s then s[1..] else s
  {
    if id in s {
      WithoutHead(s);
    }
  }

  /** Serving the nearest request re-establishes the outward order around the new position. */
  lemma DispatchKeepsOutward(st: State)
    requires Placed(st) && SortedOutward(st) && DisjointPending(st) && PendingCount(st) > 0
    ensures SortedOutward(GreedyDispatch(st)) && DisjointPending(GreedyDispatch(st))
    ensures forall lo :: InWindow(st, lo) ==> InWindow(GreedyDispatch(st), lo)
  {
    GreedyDispatchMoves(st);
    var id := GreedyTarget(st.sched, st.rqs).value;
    var k, st' := DispatchPoint(st, id), GreedyDispatch(st);
    TargetIsHead(st);
    MovesServes(st, st', id, k);
    ServesKeepsOutward(st, st', id);
    ServesKeepsDisjoint(st, st', id);
  }

  lemma DropSorted(s: seq<Id>, d: nat, rqs: map<Id, Request>, rqs': map<Id, Request>)
    requires d <= |s|
    requires forall i :: 0 <= i < |s| ==> Pos(Lookup(rqs', s[i])) == Pos(Lookup(rqs, s[i]))
    ensures Ascending(s, rqs) ==> Ascending(s[d..], rqs')
    ensures Descending(s, rqs) ==> Descending(s[d..], rqs')
  {
  }

  lemma TailSorted(s: seq<Id>, rqs: map<Id, Request>, rqs': map<Id, Request>, id: Id)
    requires NoDup(s) && (id in s ==> s[0] == id)
    requires forall x :: Lookup(rqs', x).body == Lookup(rqs, x).body
    ensures Ascending(s, rqs) ==> Ascending(Without(s, id), rqs')
    ensures Descending(s, rqs) ==> Descending(Without(s, id), rqs')
  {
    WithoutHeadOf(s, id);
    var d := if id in s then 1 else 0;
    assert Without(s, id) == s[d..];
    DropSorted(s, d, rqs, rqs');
  }

  lemma TargetIsHead(st: State)
    requires Placed(st) && PendingCount(st) > 0
    ensures var id := GreedyTarget(st.sched, st.rqs).value;
            && (id in st.sched.higher ==> st.sched.higher[0] == id)
            && (id in st.sched.lower ==> st.sched.lower[0] == id)
  {
  }

  /** `st'` is `st` after its head request `id` left the lists and the head moved to its end. */
  ghost predicate Serves(st: State, st': State, id: Id) {
    && Pending(st, id)
    && (id in st.sched.higher ==> st.sched.higher[0] == id) && (id in st.sched.lower ==> st.sched.lower[0] == id)
    && st'.sched.higher == Without(st.sched.higher, id) && st'.sched.lower == Without(st.sched.lower, id)
    && st'.sched.prevPos == End(Rq(st, id))
    && (forall x :: Pending(st', x) <==> Pending(st, x) && x != id)
    && (forall x :: Lookup(st'.rqs, x).body == Lookup(st.rqs, x).body)
  }

  lemma ServesKeepsDisjoint(st: State, st': State, id: Id)
    requires DisjointPending(st) && Serves(st, st', id)
    ensures DisjointPending(st')
    ensures forall lo :: InWindow(st, lo) ==> InWindow(st', lo)
  {
    assert forall x :: Rq(st', x).body == Lookup(st'.rqs, x).body;
  }

  lemma ServesKeepsSides(st: State, st': State, id: Id, x: Id)
    requires SortedOutward(st) && DisjointPending(st) && Serves(st, st', id) && Pending(st, x) && x != id
    ensures x in st.sched.higher ==> st'.sched.prevPos <= Pos(Rq(st, x))
    ensures x in st.sched.lower ==> Pos(Rq(st, x)) < st'.sched.prevPos
  {
    HeadsAreNearest(st, x);
    HeadsAreNearest(st, id);
  }

  lemma ServesKeepsOutward(st: State, st': State, id: Id)
    requires NoDup(st.sched.higher) && NoDup(st.sched.lower)
    requires SortedOutward(st) && DisjointPending(st) && Serves(st, st', id)
    ensures SortedOutward(st')
  {
    TailSorted(st.sched.higher, st.rqs, st'.rqs, id);
    TailSorted(st.sched.lower, st.rqs, st'.rqs, id);
    forall x | x in st'.sched.higher ensures st'.sched.prevPos <= Pos(Rq(st', x)) {
      assert Pending(st', x);
      ServesKeepsSides(st, st', id, x);
    }
    forall x | x in st'.sched.lower ensures Pos(Rq(st', x)) < st'.sched.prevPos {
      assert Pending(st', x);
      ServesKeepsSides(st, st', id, x);
    }
  }

  lemma MovesServes(st: State, st': State, id: Id, k: nat)
    requires Placed(st) && Pending(st, id) && Moves(st, st', id, k) && st'.sched.prevPos == End(Rq(st, id))
    requires id in st.sched.higher ==> st.sched.higher[0] == id
    requires id in st.sched.lower ==> st.sched.lower[0] == id
    ensures Serves(st, st', id)
  {
    MovesPlaced(st, st', id, k);
  }

  /** A schedule depends only on where the scheduled requests lie. */
  lemma {:induction false} ScheduleSame(
    rqs: map<Id, Request>, rqs': map<Id, Request>, prev: nat, pend: set<Id>, out: seq<Id>)
    requires Schedule(rqs, prev, pend, out)
    requires forall x :: x in pend ==> Lookup(rqs', x).body == Lookup(rqs, x).body
    ensures Schedule(rqs', prev, pend, out)
    decreases |out|
  {
    if out != [] {
      assert Nearest(rqs', prev, pend, out[0]);
      ScheduleSame(rqs, rqs', End(Lookup(rqs, out[0])), pend - {out[0]}, out[1..]);
    }
  }

  /** One turn of the drain loop: the nearest request goes to the tail and the order is kept. */
  lemma DrainTurn(st: State, lo: nat)
    requires Placed(st) && SortedOutward(st) && DisjointPending(st) && InWindow(st, lo) && !st.sortDispatch
    requires PendingCount(st) > 0
    ensures var id, st' := GreedyTarget(st.sched, st.rqs).value, GreedyDispatch(st);
            && Placed(st') && SortedOutward(st') && DisjointPending(st') && InWindow(st', lo) && !st'.sortDispatch
            && Pending(st, id) && Moves(st, st', id, |st.queue|) && st'.queue == st.queue + [id]
            && st'.sched.prevPos == End(Rq(st, id))
            && Nearest(st.rqs, st.sched.prevPos, PendingSet(st), id)
  {
    var id, st' := GreedyTarget(st.sched, st.rqs).value, GreedyDispatch(st);
    GreedyDispatchMoves(st);
    MovesPlaced(st, st', id, DispatchPoint(st, id));
    HeadsInWindow(st, lo);
    DispatchIsNearest(st);
    DispatchKeepsOutward(st);
  }

  /** The drain loop emits exactly the shortest-seek-first schedule of the pending set. */
  lemma {:induction false} DrainIsShortestSeek(st: State, lo: nat)
    requires Placed(st) && SortedOutward(st) && DisjointPending(st) && InWindow(st, lo) && !st.sortDispatch
    ensures var q := Drain(st).queue;
            && |q| >= |st.queue| && q[..|st.queue|] == st.queue
            && Schedule(st.rqs, st.sched.prevPos, PendingSet(st), q[|st.queue|..])
    decreases PendingCount(st)
  {
    if PendingCount(st) > 0 {
      var st' := GreedyDispatch(st);
      DrainTurn(st, lo);
      DrainIsShortestSeek(st', lo);
      DrainStep(st, st', GreedyTarget(st.sched, st.rqs).value, Drain(st').queue);
    }
  }

  lemma HeadsInWindow(st: State, lo: nat)
    requires InWindow(st, lo)
    ensures st.sched.higher != [] && st.sched.lower != [] ==> ComparesRight(Up(st), Down(st))
  {
    if st.sched.higher != [] && st.sched.lower != [] {
      assert Pending(st, st.sched.higher[0]) && Pending(st, st.sched.lower[0]);
      SameHalfCompares(Up(st), Down(st));
    }
  }

  lemma MovesPendingSet(st: State, st': State, id: Id)
    requires Placed(st) && Pending(st, id) && Moves(st, st', id, |st.queue|)
    ensures PendingSet(st') == PendingSet(st) - {id}
    ensures forall x :: Lookup(st'.rqs, x).body == Lookup(st.rqs, x).body
  {
  }

  lemma DrainStep(st: State, st': State, id: Id, q: seq<Id>)
    requires Placed(st) && Pending(st, id) && Moves(st, st', id, |st.queue|) && st'.sched.prevPos == End(Rq(st, id))
    requires Nearest(st.rqs, st.sched.prevPos, PendingSet(st), id)
    requires |q| >= |st.queue| + 1 && q[..|st.queue| + 1] == st.queue + [id]
    requires Schedule(st'.rqs, st'.sched.prevPos, PendingSet(st'), q[|st.queue| + 1..])
    ensures q[..|st.queue|] == st.queue
    ensures Schedule(st.rqs, st.sched.prevPos, PendingSet(st), q[|st.queue|..])
  {
    var n := |st.queue|;
    TailSlices(q, st.queue, id);
    MovesPendingSet(st, st', id);
    ScheduleSame(st'.rqs, st.rqs, st'.sched.prevPos, PendingSet(st'), q[n + 1..]);
    ScheduleCons(st.rqs, st.sched.prevPos, PendingSet(st), id, q[n + 1..]);
  }

  lemma TailSlices(q: seq<Id>, s: seq<Id>, id: Id)
    requires |q| >= |s| + 1 && q[..|s| + 1] == s + [id]
    ensures q[..|s|] == s && q[|s|..] == [id] + q[|s| + 1..]
  {
    assert q[..|s|] == q[..|s| + 1][..|s|];
    assert q[..|s| + 1][|s|] == id;
  }

  lemma ScheduleCons(rqs: map<Id, Request>, prev: nat, pend: set<Id>, id: Id, out: seq<Id>)
    requires Nearest(rqs, prev, pend, id) && Schedule(rqs, End(Lookup(rqs, id)), pend - {id}, out)
    ensures Schedule(rqs, prev, pend, [id] + out)
  {
    assert ([id] + out)[1..] == out;
  }

  // --------------------------------------------- what the insertion code really does

  /**
   add_to_higher keeps an ascending list ascending exactly when every request in it starts at the
   same sector as the new one; with distinct sectors, only when the list is empty.
   */
  lemma HigherStaysSortedIff(list: seq<Id>, rqs: map<Id, Request>, id: Id)
    requires Ascending(list, rqs)
    ensures Ascending(AddToHigher(list, rqs, id), rqs)
            <==> forall i :: 0 <= i < |list| ==> Pos(Lookup(rqs, list[i])) == Pos(Lookup(rqs, id))
  {
    var pos := Pos(Lookup(rqs, id));
    var k := FirstAbove(list, rqs, pos, 0);
    var r := AddToHigher(list, rqs, id);
    if k < |list| {
      assert r[k] == list[k] by { assert r[..k + 1] == list[..k + 1]; assert r[..k + 1][k] == list[..k + 1][k]; }
      assert r[k + 1] == id && !(Pos(Lookup(rqs, r[k])) <= Pos(Lookup(rqs, r[k + 1])));
    } else {
      assert r == [id] + list;
      if Ascending(r, rqs) {
        forall i | 0 <= i < |list| ensures Pos(Lookup(rqs, list[i])) == pos {
          assert Pos(Lookup(rqs, r[0])) <= Pos(Lookup(rqs, r[i + 1]));
        }
      }
    }
  }

  /** The same for add_to_lower and descending lists. */
  lemma LowerStaysSortedIff(list: seq<Id>, rqs: map<Id, Request>, id: Id)
    requires Descending(list, rqs)
    ensures Descending(AddToLower(list, rqs, id), rqs)
            <==> forall i :: 0 <= i < |list| ==> Pos(Lookup(rqs, list[i])) == Pos(Lookup(rqs, id))
  {
    var pos := Pos(Lookup(rqs, id));
    var k := FirstBelow(list, rqs, pos, 0);
    var r := AddToLower(list, rqs, id);
    if k < |list| {
      assert r[k] == list[k] by { assert r[..k + 1] == list[..k + 1]; assert r[..k + 1][k] == list[..k + 1][k]; }
      assert r[k + 1] == id && !(Pos(Lookup(rqs, r[k])) >= Pos(Lookup(rqs, r[k + 1])));
    } else {
      assert r == [id] + list;
      if Descending(r, rqs) {
        forall i | 0 <= i < |list| ensures Pos(Lookup(rqs, list[i])) == pos {
          assert Pos(Lookup(rqs, r[0])) >= Pos(Lookup(rqs, r[i + 1]));
        }
      }
    }
  }

  /** Adding requests at sectors 5, 3 and 7 leaves 7 first, so the farthest one is served first. */
  lemma InsertionServesFarthestFirst(rqs: map<Id, Request>)
    requires Pos(Lookup(rqs, 5)) == 5 && Pos(Lookup(rqs, 3)) == 3 && Pos(Lookup(rqs, 7)) == 7
    ensures var list := AddToHigher(AddToHigher(AddToHigher([], rqs, 5), rqs, 3), rqs, 7);
            && list == [7, 5, 3]
            && GreedyTarget(Scheduler(list, [], 0, []), rqs) == Some(7)
            && Distance(0, Lookup(rqs, 3)) < Distance(0, Lookup(rqs, 7))
  {
    assert AddToHigher([], rqs, 5) == [5];
    assert FirstAbove([5], rqs, 3, 0) == 0;
    assert AddToHigher([5], rqs, 3) == [5, 3];
    assert FirstAbove([5, 3], rqs, 7, 2) == 2;
    assert AddToHigher([5, 3], rqs, 7) == [7, 5, 3];
  }

  /** Adding requests at sectors 5, 7 and 3 below sector 9 leaves 3 first, so the farthest one is served first again. */
  lemma LowerInsertionServesFarthestFirst(rqs: map<Id, Request>)
    requires Pos(Lookup(rqs, 5)) == 5 && Pos(Lookup(rqs, 3)) == 3 && Pos(Lookup(rqs, 7)) == 7
    ensures var list := AddToLower(AddToLower(AddToLower([], rqs, 5), rqs, 7), rqs, 3);
            && list == [3, 5, 7]
            && GreedyTarget(Scheduler([], list, 9, []), rqs) == Some(3)
            && Distance(9, Lookup(rqs, 7)) < Distance(9, Lookup(rqs, 3))
  {
    assert AddToLower([], rqs, 5) == [5];
    assert FirstBelow([5], rqs, 7, 0) == 0;
    assert AddToLower([5], rqs, 7) == [5, 7];
    assert FirstBelow([5, 7], rqs, 3, 2) == 2;
    assert AddToLower([5, 7], rqs, 3) == [3, 5, 7];
  }

  /** A head 2^31 sectors up wins against one a single sector down: the int distance has gone negative. */
  lemma TruncationServesFartherFirst(rqs: map<Id, Request>)
    requires Pos(Lookup(rqs, 0)) == 0 && Pos(Lookup(rqs, 1)) == 1 + TWO_31
    ensures GreedyTarget(Scheduler([1], [0], 1, []), rqs) == Some(1)
    ensures Distance(1, Lookup(rqs, 0)) == 1 && Distance(1, Lookup(rqs, 1)) == TWO_31
  {
  }
}
