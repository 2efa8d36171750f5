/**
 One-way service: any run of a uniform workload over an elevator that dispatches by sort insertion
 keeps the dispatch queue in circular order, through merging, dispatch and the moving boundary.
 */
module OneWayService {
  import opened Types
  import opened Lists
  import opened BioChains
  import opened Requests
  import opened Elevator
  import opened ElevatorSafety
  import opened ElevatorMachine
  import opened DispatchOrder
  import opened BackFence

  // -------------------------------------------------- one-way service over runs

  /** Requests of one direction and kind, none of them a barrier, none overlapping. */
  ghost predicate Uniform(st: State, write: bool, discard: bool) {
    && (forall id :: InElevator(st, id) ==>
          var r := Rq(st, id);
          r.write == write && r.discard == discard && !r.softBarrier && Pos(r) < End(r))
    && (forall x, y :: InElevator(st, x) && InElevator(st, y) && x != y ==> Apart(Rq(st, x), Rq(st, y)))
  }

  /** How many entries at the head of the queue the driver has already peeked at. */
  function Peeked(queue: seq<Id>, rqs: map<Id, Request>): (n: nat)
    ensures n <= |queue|
  {
    if queue != [] && Lookup(rqs, queue[0]).started then 1 else 0
  }

  /** The unpeeked part of the queue is in circular order from `b`, the end of the peeked request if there is one. */
  ghost predicate QueueOneWay(queue: seq<Id>, rqs: map<Id, Request>, b: nat) {
    && (forall i :: Peeked(queue, rqs) <= i < |queue| ==> !Lookup(rqs, queue[i]).started)
    && (Peeked(queue, rqs) == 1 ==> b == End(Lookup(rqs, queue[0])))
    && CircSorted(queue[Peeked(queue, rqs)..], rqs, b)
  }

  ghost predicate OneWay(st: State) {
    st.sortDispatch && st.boundary == None && QueueOneWay(st.queue, st.rqs, st.endSector)
  }

  /** Request `id` is of the workload's kind and overlaps nothing else in the elevator. */
  ghost predicate Fits(st: State, id: Id, write: bool, discard: bool) {
    var r := Rq(st, id);
    && r.write == write && r.discard == discard && !r.softBarrier && Pos(r) < End(r)
    && forall x :: InElevator(st, x) && x != id ==> Apart(r, Rq(st, x))
  }

  /** The bio overlaps nothing in the elevator. */
  ghost predicate BioApart(st: State, bio: Bio) {
    forall x :: InElevator(st, x) ==> End(Rq(st, x)) <= bio.sector || BioEnd(bio) <= Pos(Rq(st, x))
  }

  /** The events of a uniform workload: everything but barriers, requeues and overlapping data. */
  ghost predicate FitsWorkload(st: State, e: Event, write: bool, discard: bool) {
    match e
    case Insert(id, at, _) => (at == Sort || at == SortMerge) && Rq(st, id).elvPriv && Fits(st, id, write, discard)
    case SubmitBio(sub, _) => BioApart(st, sub.bio)
    case GiveBack(_) => false
    case _ => true
  }

  lemma {:induction false} StopAtPeeked(queue: seq<Id>, rqs: map<Id, Request>, r: Request, n: nat)
    requires Peeked(queue, rqs) <= n <= |queue|
    requires forall i :: Peeked(queue, rqs) <= i < |queue| ==> Passable(Lookup(rqs, queue[i]), r)
    ensures LastStop(queue, rqs, r, n) == Peeked(queue, rqs)
  {
    if n > Peeked(queue, rqs) {
      StopAtPeeked(queue, rqs, r, n - 1);
    }
  }

  lemma QueueOneWaySame(queue: seq<Id>, rqs: map<Id, Request>, rqs': map<Id, Request>, b: nat)
    requires QueueOneWay(queue, rqs, b)
    requires forall i :: 0 <= i < |queue| ==> Lookup(rqs', queue[i]) == Lookup(rqs, queue[i])
    ensures QueueOneWay(queue, rqs', b)
  {
    var s := queue[Peeked(queue, rqs)..];
    assert forall i :: 0 <= i < |s| ==> Lookup(rqs', s[i]) == Lookup(rqs, s[i]);
  }

  /** A sort insertion of a passable request keeps the queue one-way. */
  lemma SortInsertOneWay(queue: seq<Id>, rqs: map<Id, Request>, id: Id, b: nat)
    requires QueueOneWay(queue, rqs, b) && !Lookup(rqs, id).started
    requires forall i :: Peeked(queue, rqs) <= i < |queue| ==> Passable(Lookup(rqs, queue[i]), Lookup(rqs, id))
    ensures QueueOneWay(SortInsert(queue, rqs, id, b), rqs, b)
  {
    var n, q := Peeked(queue, rqs), SortInsert(queue, rqs, id, b);
    StopAtPeeked(queue, rqs, Lookup(rqs, id), |queue|);
    SortInsertKeepsOrder(queue, rqs, id, b);
    assert n == 1 ==> q[0] == queue[0] by {
      if n == 1 {
        assert q[..1] == queue[..1] && q[..1][0] == queue[..1][0];
      }
    }
    UnstartedSuffix(queue, rqs, id, SortPoint(queue, rqs, Lookup(rqs, id), b, |queue|), n);
  }

  lemma UnstartedSuffix(queue: seq<Id>, rqs: map<Id, Request>, id: Id, k: nat, n: nat)
    requires n <= |queue| && k <= |queue| && !Lookup(rqs, id).started
    requires forall i :: n <= i < |queue| ==> !Lookup(rqs, queue[i]).started
    requires n <= 1 && (n == 1 ==> InsertAt(queue, k, id)[0] == queue[0])
    ensures forall i :: n <= i < |queue| + 1 ==> !Lookup(rqs, InsertAt(queue, k, id)[i]).started
  {
    var q := queue[..k] + [id] + queue[k..];
    assert q == InsertAt(queue, k, id);
    forall i | n <= i < |q| ensures !Lookup(rqs, q[i]).started {
      assert q[i] == if i < k then queue[i] else if i == k then id else queue[i - 1];
      if i > k && i - 1 < n {
        assert k == 0 && n == 1 && q[0] == id;
      }
    }
  }

  /** Dispatching by sort insertion keeps the one-way order. */
  lemma DispatchKeepsOneWay(st: State, write: bool, discard: bool)
    requires Inv(st) && Uniform(st, write, discard) && OneWay(st)
    ensures var st' := GreedyDispatch(st);
            Inv(st') && Uniform(st', write, discard) && OneWay(st')
  {
    GreedyDispatchOk(st, {});
    if PendingCount(st) > 0 {
      GreedyDispatchMoves(st);
      var id := GreedyTarget(st.sched, st.rqs).value;
      var st' := GreedyDispatch(st);
      MovesPlaced(st, st', id, DispatchPoint(st, id));
      MovesUniform(st, st', id, DispatchPoint(st, id), write, discard);
      assert PendingOk(Rq(st, id));
      DispatchSorts(st, st', id, write, discard);
    }
  }

  lemma MovesUniform(st: State, st': State, id: Id, k: nat, write: bool, discard: bool)
    requires Moves(st, st', id, k) && Pending(st, id) && Uniform(st, write, discard)
    requires forall x :: Pending(st', x) <==> Pending(st, x) && x != id
    ensures Uniform(st', write, discard)
  {
    forall x | InElevator(st', x) ensures InElevator(st, x) && SameShape(Rq(st, x), Rq(st', x)) {
      assert x in st'.queue ==> x in st.queue || x == id;
    }
    FrameUniform(st, st', write, discard);
  }

  lemma DispatchSorts(st: State, st': State, id: Id, write: bool, discard: bool)
    requires Placed(st) && Uniform(st, write, discard) && OneWay(st) && Pending(st, id) && !Rq(st, id).started
    requires Moves(st, st', id, DispatchPoint(st, id)) && st'.boundary == st.boundary && st'.endSector == st.endSector
    ensures OneWay(st')
  {
    DispatchIsSortInsert(st, st', id);
    assert id !in st.queue;
    SortedInOneWay(st, st'.rqs, id, write, discard);
  }

  lemma SortedInOneWay(st: State, rqs: map<Id, Request>, id: Id, write: bool, discard: bool)
    requires Uniform(st, write, discard) && OneWay(st) && Pending(st, id) && !Rq(st, id).started && id !in st.queue
    requires id in st.rqs && rqs == st.rqs[id := st.rqs[id].(hashed := false)]
    ensures QueueOneWay(SortInsert(st.queue, rqs, id, st.endSector), rqs, st.endSector)
  {
    QueueOneWaySame(st.queue, st.rqs, rqs, st.endSector);
    QueuePassable(st, rqs, id, write, discard);
    SortInsertOneWay(st.queue, rqs, id, st.endSector);
  }

  lemma QueuePassable(st: State, rqs: map<Id, Request>, id: Id, write: bool, discard: bool)
    requires Uniform(st, write, discard) && Pending(st, id) && id !in st.queue && id in st.rqs
    requires rqs == st.rqs[id := st.rqs[id].(hashed := false)]
    requires forall i :: Peeked(st.queue, rqs) <= i < |st.queue| ==> !Lookup(rqs, st.queue[i]).started
    ensures forall i :: Peeked(st.queue, rqs) <= i < |st.queue| ==> Passable(Lookup(rqs, st.queue[i]), Lookup(rqs, id))
  {
    assert InElevator(st, id);
    forall i | Peeked(st.queue, rqs) <= i < |st.queue| ensures Passable(Lookup(rqs, st.queue[i]), Lookup(rqs, id)) {
      assert InElevator(st, st.queue[i]);
    }
  }

  lemma {:induction false} DrainKeepsOneWay(st: State, write: bool, discard: bool)
    requires Inv(st) && Uniform(st, write, discard) && OneWay(st)
    ensures var st' := Drain(st);
            Inv(st') && Uniform(st', write, discard) && OneWay(st')
    decreases PendingCount(st)
  {
    if PendingCount(st) > 0 {
      DispatchKeepsOneWay(st, write, discard);
      DrainKeepsOneWay(GreedyDispatch(st), write, discard);
    }
  }

  /** What the driver sees first is circularly first from end_sector among everything queued. */
  lemma HeadIsNextOneWay(st: State, y: Id)
    requires OneWay(st) && st.queue != [] && !Rq(st, st.queue[0]).started && y in st.queue
    ensures Before(st.endSector, Pos(Rq(st, st.queue[0])), Pos(Rq(st, y)))
  {
    var j :| 0 <= j < |st.queue| && st.queue[j] == y;
    assert st.queue[0..] == st.queue;
    if j > 0 {
      assert Before(st.endSector, Pos(Lookup(st.rqs, st.queue[0])), Pos(Lookup(st.rqs, st.queue[j])));
    }
  }

  /** Peeking moves the boundary behind the head and keeps the rest one-way. */
  lemma PeekKeepsOneWay(st: State, write: bool, discard: bool)
    requires Inv(st) && Uniform(st, write, discard) && OneWay(st) && st.queue != []
    ensures var st' := PeekHead(st);
            Uniform(st', write, discard) && OneWay(st')
  {
    var id, st' := st.queue[0], PeekHead(st);
    PeekHeadEffect(st);
    forall x | InElevator(st', x) ensures InElevator(st, x) && SameShape(Rq(st, x), Rq(st', x)) {
      assert id in st.rqs;
    }
    FrameUniform(st, st', write, discard);
    forall i | 1 <= i < |st.queue| ensures Lookup(st'.rqs, st.queue[i]) == Lookup(st.rqs, st.queue[i]) {
      assert st.queue[i] != st.queue[0];
      assert Rq(st', st.queue[i]) == Rq(st, st.queue[i]);
    }
    assert Rq(st', id) == Rq(st, id).(started := true);
    QueueApart(st, write, discard);
    PeekOneWay(st.queue, st.rqs, st'.rqs, st.endSector);
  }

  lemma PeekOneWay(queue: seq<Id>, rqs: map<Id, Request>, rqs': map<Id, Request>, b: nat)
    requires queue != [] && QueueOneWay(queue, rqs, b)
    requires Lookup(rqs', queue[0]) == Lookup(rqs, queue[0]).(started := true)
    requires forall i :: 1 <= i < |queue| ==> Lookup(rqs', queue[i]) == Lookup(rqs, queue[i])
    requires forall i :: 0 <= i < |queue| ==> Pos(Lookup(rqs, queue[i])) < End(Lookup(rqs, queue[i]))
    requires forall i, j :: 0 <= i < j < |queue| ==> Apart(Lookup(rqs, queue[i]), Lookup(rqs, queue[j]))
    ensures QueueOneWay(queue, rqs', End(Lookup(rqs, queue[0])))
  {
    if Peeked(queue, rqs) == 0 {
      assert queue[0..] == queue;
      BoundaryMoveKeepsOrder(queue, rqs, b);
    }
    CircSortedSame(queue[1..], rqs, rqs', End(Lookup(rqs, queue[0])));
  }

  /** The queued requests have data and do not overlap, by position. */
  lemma QueueApart(st: State, write: bool, discard: bool)
    requires Placed(st) && Uniform(st, write, discard)
    ensures forall i :: 0 <= i < |st.queue| ==> Pos(Lookup(st.rqs, st.queue[i])) < End(Lookup(st.rqs, st.queue[i]))
    ensures forall i, j :: 0 <= i < j < |st.queue| ==> Apart(Lookup(st.rqs, st.queue[i]), Lookup(st.rqs, st.queue[j]))
  {
    forall i | 0 <= i < |st.queue| ensures InElevator(st, st.queue[i]) {
    }
  }

  /** The request looks the same to the workload. */
  predicate SameShape(r: Request, r': Request) {
    r'.body == r.body && r'.write == r.write && r'.discard == r.discard && r'.softBarrier == r.softBarrier
  }

  lemma FrameUniform(st: State, st': State, write: bool, discard: bool)
    requires Uniform(st, write, discard)
    requires forall x :: InElevator(st', x) ==> InElevator(st, x) && SameShape(Rq(st, x), Rq(st', x))
    ensures Uniform(st', write, discard)
  {
    forall x, y | InElevator(st', x) && InElevator(st', y) && x != y ensures Apart(Rq(st', x), Rq(st', y)) {
      assert SameShape(Rq(st, x), Rq(st', x)) && SameShape(Rq(st, y), Rq(st', y));
      assert Apart(Rq(st, x), Rq(st, y));
    }
  }

  /** A step that leaves the queue, its requests and the boundary alone keeps the one-way order. */
  lemma FrameOneWay(st: State, st': State)
    requires OneWay(st)
    requires st'.queue == st.queue && st'.endSector == st.endSector && st'.boundary == st.boundary
    requires st'.sortDispatch == st.sortDispatch
    requires forall x :: x in st.queue ==> Rq(st', x) == Rq(st, x)
    ensures OneWay(st')
  {
    forall i | 0 <= i < |st.queue| ensures Lookup(st'.rqs, st.queue[i]) == Lookup(st.rqs, st.queue[i]) {
      assert st.queue[i] in st.queue;
      assert Rq(st', st.queue[i]) == Rq(st, st.queue[i]);
    }
    QueueOneWaySame(st.queue, st.rqs, st'.rqs, st.endSector);
  }

  // ------------------------------------------------------------------ merging

  lemma UnhashesUniform(st: State, st': State, write: bool, discard: bool)
    requires Unhashes(st, st') && Uniform(st, write, discard)
    ensures Uniform(st', write, discard)
    ensures forall id :: Fits(st, id, write, discard) ==> Fits(st', id, write, discard)
  {
    forall x ensures SameShape(Rq(st, x), Rq(st', x)) {
      assert Rq(st', x) == Rq(st, x) || Rq(st', x) == Rq(st, x).(hashed := false);
    }
    FrameUniform(st, st', write, discard);
  }

  lemma PendingFits(st: State, id: Id, write: bool, discard: bool)
    requires Uniform(st, write, discard) && Pending(st, id)
    ensures Fits(st, id, write, discard)
  {
  }

  /** Two requests that touch and overlap nothing else overlap nothing once merged. */
  lemma AbsorbsUniform(st: State, st': State, id: Id, next: Id, r: Request, write: bool, discard: bool)
    requires Placed(st) && Absorbs(st, st', id, next, r) && Pending(st, id) && (Pending(st, next) || Outside(st, next))
    requires Uniform(st, write, discard) && Fits(st, next, write, discard)
    requires r.write == Rq(st, id).write && r.discard == Rq(st, id).discard && !r.softBarrier
    requires Pos(r) == Pos(Rq(st, id)) && End(r) == End(Rq(st, next)) && End(Rq(st, id)) == Pos(Rq(st, next))
    ensures Uniform(st', write, discard)
  {
    AbsorbsPlaced(st, st', id, next, r);
    assert InElevator(st, id) && Rq(st', id) == r;
    forall x | InElevator(st', x) && x != id ensures InElevator(st, x) && x != next && Rq(st', x) == Rq(st, x) {
    }
    forall x | InElevator(st', x) && x != id ensures Apart(r, Rq(st', x)) {
      assert Apart(Rq(st, id), Rq(st, x)) && Apart(Rq(st, next), Rq(st, x));
    }
    forall x, y | InElevator(st', x) && InElevator(st', y) && x != y ensures Apart(Rq(st', x), Rq(st', y)) {
      assert x != id && y != id ==> Apart(Rq(st, x), Rq(st, y));
    }
  }

  lemma MergesUniform(st: State, st': State, id: Id, t: Id, write: bool, discard: bool)
    requires MergesInto(st, st', id, t) && Uniform(st, write, discard) && Fits(st, id, write, discard)
    ensures Uniform(st', write, discard)
  {
    assert PendingOk(Rq(st, t));
    JoinedOk(Rq(st, t), Rq(st, id));
    AbsorbsUniform(st, st', t, id, Joined(Rq(st, t), Rq(st, id)), write, discard);
  }

  lemma {:induction false} TraceUniform(st: State, id: Id, tr: Turns, write: bool, discard: bool)
    requires Traces(st, id, tr) && Uniform(st, write, discard) && Fits(st, id, write, discard)
    ensures Uniform(LastState(tr), write, discard)
    ensures tr.Done? ==> Fits(LastState(tr), id, write, discard)
    decreases tr
  {
    match tr
    case Done(st1) => UnhashesUniform(st, st1, write, discard);
    case Turn(st1, t, st2, rest) =>
      UnhashesUniform(st, st1, write, discard);
      MergesUniform(st1, st2, id, t, write, discard);
      PendingFits(st2, t, write, discard);
      TraceUniform(st2, t, rest, write, discard);
  }

  lemma InsertMergeUniform(st: State, id: Id, env: Env, write: bool, discard: bool)
    requires Inv(st) && Outside(st, id) && WellFormed(Rq(st, id).body)
    requires Uniform(st, write, discard) && Fits(st, id, write, discard)
    ensures var m := InsertMerge(st, id, env);
            && Uniform(m.st, write, discard)
            && (m.freed == [] ==> Fits(m.st, id, write, discard))
  {
    if st.noMerges {
    } else if st.lastMerge.Some? && Joins(st, st.lastMerge.value, id, env) {
      MergeTurn(st, id, st.lastMerge.value);
      MergesUniform(st, MergeRequests(st, st.lastMerge.value, id).st, id, st.lastMerge.value, write, discard);
    } else if !st.noXMerges {
      var tr := CascadeTraces(st, id, env);
      TraceUniform(st, id, tr, write, discard);
    }
  }

  lemma InsertSortedUniform(st: State, id: Id, write: bool, discard: bool)
    requires Placed(st) && Uniform(st, write, discard) && Outside(st, id) && Fits(st, id, write, discard)
    ensures Uniform(InsertSorted(st, id), write, discard)
  {
    InsertSortedQueues(st, id);
    QueuesPlaced(st, InsertSorted(st, id), id, SortedAs(st.rqs[id]), GreedyPoint(st, id));
    JoinsUniform(st, InsertSorted(st, id), id, write, discard);
  }

  lemma JoinsUniform(st: State, st': State, id: Id, write: bool, discard: bool)
    requires Uniform(st, write, discard) && Fits(st, id, write, discard)
    requires id in st.rqs && st'.rqs == st.rqs[id := SortedAs(st.rqs[id])]
    requires forall x :: Pending(st', x) <==> Pending(st, x) || x == id
    requires st'.queue == st.queue
    ensures Uniform(st', write, discard)
  {
    assert SameShape(Rq(st, id), Rq(st', id));
    forall x | InElevator(st', x) && x != id
      ensures InElevator(st, x) && Rq(st', x) == Rq(st, x) && Apart(Rq(st', id), Rq(st', x))
    {
      assert Apart(Rq(st, id), Rq(st, x));
    }
    forall x, y | InElevator(st', x) && InElevator(st', y) && x != y ensures Apart(Rq(st', x), Rq(st', y)) {
      assert x != id && y != id ==> Apart(Rq(st, x), Rq(st, y));
    }
  }

  lemma InsertKeepsOneWay(st: State, id: Id, at: Where, env: Env, write: bool, discard: bool)
    requires Inv(st) && Uniform(st, write, discard) && OneWay(st)
    requires MayInsert(st, id, at) && (at == Sort || at == SortMerge)
    requires Rq(st, id).elvPriv && Fits(st, id, write, discard)
    ensures var st' := AddRequest(st, id, at, env).st; Uniform(st', write, discard) && OneWay(st')
  {
    var st' := AddRequest(st, id, at, env).st;
    SortSettles(st, id, at, env);
    FrameOneWay(st, st');
    SortUniform(st, id, at, env, write, discard);
  }

  lemma SortUniform(st: State, id: Id, at: Where, env: Env, write: bool, discard: bool)
    requires Inv(st) && Uniform(st, write, discard) && MayInsert(st, id, at) && (at == Sort || at == SortMerge)
    requires Rq(st, id).elvPriv && Fits(st, id, write, discard)
    ensures Uniform(AddRequest(st, id, at, env).st, write, discard)
  {
    assert Fresh(Rq(st, id));
    if at == Sort {
      InsertSortedUniform(st, id, write, discard);
    } else {
      SortMergeUniform(st, id, env, write, discard);
    }
  }

  lemma SortMergeUniform(st: State, id: Id, env: Env, write: bool, discard: bool)
    requires Inv(st) && Uniform(st, write, discard) && Outside(st, id) && WellFormed(Rq(st, id).body)
    requires Fits(st, id, write, discard)
    ensures var m := InsertMerge(st, id, env);
            Uniform(if m.freed != [] then m.st else InsertSorted(m.st, id), write, discard)
  {
    var m := InsertMerge(st, id, env);
    InsertMergeOk(st, id, env);
    InsertMergeUniform(st, id, env, write, discard);
    if m.freed == [] {
      assert Outside(m.st, id);
      InsertSortedUniform(m.st, id, write, discard);
    }
  }

  // --------------------------------------------------------------- bio merges

  /** A pending request that grew by an adjacent bio overlapping nothing. */
  lemma GrowUniform(st: State, st': State, id: Id, r: Request, bio: Bio, write: bool, discard: bool)
    requires Uniform(st, write, discard) && BioApart(st, bio) && bio.sector < BioEnd(bio)
    requires Pending(st, id) && id in st.rqs && st'.rqs == st.rqs[id := r] && st'.queue == st.queue
    requires forall x :: Pending(st', x) <==> Pending(st, x)
    requires r.write == Rq(st, id).write && r.discard == Rq(st, id).discard && !r.softBarrier
    requires || (Pos(r) == Pos(Rq(st, id)) && bio.sector == End(Rq(st, id)) && End(r) == BioEnd(bio))
             || (Pos(r) == bio.sector && BioEnd(bio) == Pos(Rq(st, id)) && End(r) == End(Rq(st, id)))
    ensures Uniform(st', write, discard)
  {
    assert InElevator(st, id) && Rq(st', id) == r;
    forall x ensures InElevator(st', x) <==> InElevator(st, x) {
    }
    forall x | InElevator(st, x) && x != id ensures Rq(st', x) == Rq(st, x) && Apart(r, Rq(st, x)) {
      assert Apart(Rq(st, id), Rq(st, x));
    }
  }

  lemma ThenMergeUniform(st: State, id: Id, next: Id, write: bool, discard: bool)
    requires InvBut(st, {id}) && Pending(st, id) && Pending(st, next) && id != next && CanJoin(Rq(st, id), Rq(st, next))
    requires Uniform(st, write, discard)
    ensures Uniform(MergeRequests(st, id, next).st, write, discard)
  {
    assert PendingOk(Rq(st, next)) && PendingOk(Rq(st, id));
    MergeRequestsOk(st, id, next);
    JoinedOk(Rq(st, id), Rq(st, next));
    PendingFits(st, next, write, discard);
    AbsorbsUniform(st, MergeRequests(st, id, next).st, id, next, Joined(Rq(st, id), Rq(st, next)), write, discard);
  }

  lemma BackMergeUniform(st: State, id: Id, bio: Bio, env: Env, write: bool, discard: bool)
    requires Inv(st) && Pending(st, id) && WholeBio(bio) && bio.sector == End(Rq(st, id))
    requires Uniform(st, write, discard) && BioApart(st, bio)
    ensures Uniform(BackMergeBio(st, id, bio, env).st, write, discard)
  {
    GrowBackOk(st, id, bio);
    assert PendingOk(Rq(st, id));
    AppendExtends(Rq(st, id).body, bio);
    var r := Rq(st, id).(body := Append(Rq(st, id).body, bio));
    var st1 := SetRq(st, id, r);
    LatterPending(st1, id);
    GrowUniform(st, st1, id, r, bio, write, discard);
    var next := LatterRequest(st1.sched, id);
    if next.Some? && Joins(st1, id, next.value, env) {
      ThenMergeUniform(st1, id, next.value, write, discard);
    } else {
      RepositionUniform(st1, id, write, discard);
    }
  }

  lemma RepositionUniform(st: State, id: Id, write: bool, discard: bool)
    requires Uniform(st, write, discard)
    ensures Uniform(Reposition(st, id).(lastMerge := Some(id)), write, discard)
  {
    FrameUniform(st, Reposition(st, id).(lastMerge := Some(id)), write, discard);
  }

  lemma FrontMergeUniform(st: State, id: Id, bio: Bio, env: Env, write: bool, discard: bool)
    requires Inv(st) && Pending(st, id) && WholeBio(bio) && BioEnd(bio) == Pos(Rq(st, id))
    requires Uniform(st, write, discard) && BioApart(st, bio)
    ensures Uniform(FrontMergeBio(st, id, bio, env).st, write, discard)
  {
    GrowFrontOk(st, id, bio);
    assert PendingOk(Rq(st, id));
    PrependExtends(Rq(st, id).body, bio);
    var r := Rq(st, id).(body := Prepend(Rq(st, id).body, bio));
    var st1 := SetRq(st, id, r);
    FormerPending(st1, id);
    GrowUniform(st, st1, id, r, bio, write, discard);
    var prev := FormerRequest(st1.sched, id);
    if prev.Some? && Joins(st1, prev.value, id, env) {
      InvStale(st1, prev.value);
      ThenMergeUniform(st1, prev.value, id, write, discard);
    } else {
      FrameUniform(st1, st1.(lastMerge := Some(id)), write, discard);
    }
  }

  lemma BioKeepsOneWay(st: State, sub: Submission, env: Env, write: bool, discard: bool)
    requires Inv(st) && WholeBio(sub.bio) && Uniform(st, write, discard) && OneWay(st) && BioApart(st, sub.bio)
    ensures var st' := MergeBio(st, sub, env).st; Uniform(st', write, discard) && OneWay(st')
  {
    var st' := MergeBio(st, sub, env).st;
    MergeBioSettles(st, sub, env);
    FrameOneWay(st, st');
    BioUniform(st, sub, env, write, discard);
  }

  lemma UnhashesBioApart(st: State, st': State, bio: Bio)
    requires Unhashes(st, st') && BioApart(st, bio)
    ensures BioApart(st', bio)
  {
    forall x | InElevator(st', x) ensures End(Rq(st', x)) <= bio.sector || BioEnd(bio) <= Pos(Rq(st', x)) {
      assert InElevator(st, x);
      assert Rq(st', x) == Rq(st, x) || Rq(st', x) == Rq(st, x).(hashed := false);
    }
  }

  lemma BioUniform(st: State, sub: Submission, env: Env, write: bool, discard: bool)
    requires Inv(st) && WholeBio(sub.bio) && Uniform(st, write, discard) && BioApart(st, sub.bio)
    ensures Uniform(MergeBio(st, sub, env).st, write, discard)
  {
    ElvMergeOk(st, sub, env);
    var c := ElvMerge(st, sub, env);
    UnhashesUniform(st, c.st, write, discard);
    UnhashesBioApart(st, c.st, sub.bio);
    match c.kind
    case BackMerge(id) =>
      if id in env.fits {
        BackMergeUniform(c.st, id, sub.bio, env, write, discard);
      }
    case FrontMerge(id) =>
      if id in env.fits {
        FrontMergeUniform(c.st, id, sub.bio, env, write, discard);
      }
    case NoMerge =>
  }

  // -------------------------------------------------------------------- steps

  lemma StartKeepsOneWay(st: State, write: bool, discard: bool)
    requires Inv(st) && Uniform(st, write, discard) && OneWay(st) && st.queue != [] && Rq(st, st.queue[0]).started
    ensures Uniform(Start(st), write, discard) && OneWay(Start(st))
  {
    var st' := Start(st);
    forall x | InElevator(st', x) ensures InElevator(st, x) {
      assert x in st.queue[1..] ==> x in st.queue;
    }
    var tail := st.queue[1..];
    assert Peeked(st.queue, st.rqs) == 1;
    forall i | 0 <= i < |tail| ensures !Lookup(st.rqs, tail[i]).started {
      assert tail[i] == st.queue[i + 1];
    }
    assert tail[0..] == tail;
  }

  lemma PeekNextKeepsOneWay(st: State, flushHeld: bool, bypass: bool, write: bool, discard: bool)
    requires Inv(st) && Uniform(st, write, discard) && OneWay(st)
    ensures var st' := Peek(st, flushHeld, bypass); Uniform(st', write, discard) && OneWay(st')
  {
    DispatchKeepsOneWay(st, write, discard);
    var st1 := NextRequest(st, flushHeld, bypass);
    if st1.queue != [] {
      PeekKeepsOneWay(st1, write, discard);
    }
  }

  /** The events that touch nothing in the elevator but merge permissions. */
  predicate Aside(e: Event) {
    e.Arrive? || e.Abandon? || e.Forbid? || e.Partly? || e.Finish? || e.SwapScheduler? || e.SetMerging?
  }

  /** Nothing in the elevator moved, and its requests look the same to the workload. */
  ghost predicate Unmoved(st: State, st': State) {
    && st'.queue == st.queue && st'.endSector == st.endSector && st'.boundary == st.boundary
    && st'.sortDispatch == st.sortDispatch
    && (forall x :: x in st.queue ==> Rq(st', x) == Rq(st, x))
    && (forall x :: InElevator(st', x) ==> InElevator(st, x) && SameShape(Rq(st, x), Rq(st', x)))
  }

  lemma RewriteUnmoved(st: State, st': State, id: Id, r: Request)
    requires id !in st.queue && (Pending(st, id) ==> SameShape(Rq(st, id), r))
    requires st'.rqs == (if id in st.rqs then st.rqs[id := r] else st.rqs)
    requires st' == st.(rqs := st'.rqs, lastMerge := st'.lastMerge)
    ensures Unmoved(st, st')
  {
    assert forall x :: x != id ==> Rq(st', x) == Rq(st, x);
  }

  lemma AsideUnmoved(st: State, e: Event)
    requires Inv(st) && Enabled(st, e) && Aside(e)
    ensures Unmoved(st, Step(st, e))
  {
    match e
    case Forbid(id) => RewriteUnmoved(st, Step(st, e), id, Rq(st, id).(noMerge := true));
    case Partly(id, n) =>
      RewriteUnmoved(st, Step(st, e), id,
                     Rq(st, id).(body := Completion.Update(Rq(st, id).body, Rq(st, id).fs, n).chain));
    case Arrive(id, r) => OwnersUnmoved(st, Step(st, e), id);
    case Abandon(id) => OwnersUnmoved(st, Step(st, e), id);
    case Finish(id) => OwnersUnmoved(st, Step(st, e), id);
    case SwapScheduler(_) =>
    case SetMerging(_, _) =>
  }

  /** A request outside the elevator comes or goes. */
  lemma OwnersUnmoved(st: State, st': State, id: Id)
    requires !InElevator(st, id) && forall x :: x != id ==> Rq(st', x) == Rq(st, x)
    requires st' == st.(rqs := st'.rqs, inFlight := st'.inFlight, driver := st'.driver)
    ensures Unmoved(st, st')
  {
  }

  lemma StepKeepsOneWay(st: State, e: Event, write: bool, discard: bool)
    requires Inv(st) && Enabled(st, e) && FitsWorkload(st, e, write, discard)
    requires Uniform(st, write, discard) && OneWay(st)
    ensures Uniform(Step(st, e), write, discard) && OneWay(Step(st, e))
  {
    var st' := Step(st, e);
    match e
    case Insert(id, at, env) => InsertKeepsOneWay(st, id, at, env, write, discard);
    case SubmitBio(sub, env) => BioKeepsOneWay(st, sub, env, write, discard);
    case DrainAll => DrainKeepsOneWay(st, write, discard);
    case PeekNext(flushHeld, bypass) => PeekNextKeepsOneWay(st, flushHeld, bypass, write, discard);
    case StartHead => StartKeepsOneWay(st, write, discard);
    case _ =>
      AsideUnmoved(st, e);
      FrameUniform(st, st', write, discard);
      FrameOneWay(st, st');
  }

  ghost predicate WorkloadRuns(st: State, es: seq<Event>, write: bool, discard: bool)
    decreases |es|
  {
    es == [] || (&& Enabled(st, es[0]) && FitsWorkload(st, es[0], write, discard)
                 && WorkloadRuns(Step(st, es[0]), es[1..], write, discard))
  }

  lemma {:induction false} WorkloadKeepsOneWay(st: State, es: seq<Event>, write: bool, discard: bool)
    requires Inv(st) && Uniform(st, write, discard) && OneWay(st) && WorkloadRuns(st, es, write, discard)
    ensures Runs(st, es) && Inv(After(st, es)) && Uniform(After(st, es), write, discard) && OneWay(After(st, es))
    decreases |es|
  {
    if es != [] {
      StepKeepsInv(st, es[0]);
      StepKeepsOneWay(st, es[0], write, discard);
      WorkloadKeepsOneWay(Step(st, es[0]), es[1..], write, discard);
    }
  }

  /**
   Any run of a uniform workload over an elevator that dispatches by sort insertion is served one
   way around the disk: the next request the driver sees is circularly first from end_sector.
   */
  lemma ServedOneWay(es: seq<Event>, write: bool, discard: bool)
    requires WorkloadRuns(Init(true), es, write, discard)
    ensures Runs(Init(true), es)
    ensures var st := After(Init(true), es);
            && (st.queue != [] && !Rq(st, st.queue[0]).started ==>
                  forall y :: y in st.queue ==> Before(st.endSector, Pos(Rq(st, st.queue[0])), Pos(Rq(st, y))))
  {
    InitInv(true);
    WorkloadKeepsOneWay(Init(true), es, write, discard);
    var st := After(Init(true), es);
    if st.queue != [] && !Rq(st, st.queue[0]).started {
      forall y | y in st.queue ensures Before(st.endSector, Pos(Rq(st, st.queue[0])), Pos(Rq(st, y))) {
        HeadIsNextOneWay(st, y);
      }
    }
  }
}
