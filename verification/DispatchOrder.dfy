/**
 elv_dispatch_sort: a one-way circular insertion behind a moving boundary. The suffix behind the
 last stop point stays in circular order from the boundary, and the order survives the boundary
 move made when the head is peeked, so a uniform workload is served one way around the disk.
 */
module DispatchOrder {
  import opened Types
  import opened Lists
  import opened BioChains
  import opened Requests
  import opened Elevator
  import opened ElevatorSafety
  import opened ElevatorMachine

  /** The walk may pass `p` while looking for a place for `r`. */
  predicate Passable(p: Request, r: Request) {
    p.discard == r.discard && p.write == r.write && !p.softBarrier && !p.started
  }

  /** Circular order of sectors from `b`: first those at or above it, then those below. */
  predicate Before(b: nat, x: nat, y: nat) {
    if (x >= b) == (y >= b) then x <= y else x >= b
  }

  ghost predicate CircSorted(s: seq<Id>, rqs: map<Id, Request>, b: nat) {
    forall i, j :: 0 <= i < j < |s| ==> Before(b, Pos(Lookup(rqs, s[i])), Pos(Lookup(rqs, s[j])))
  }

  /** First index behind the last stop point for `r`. */
  function LastStop(queue: seq<Id>, rqs: map<Id, Request>, r: Request, n: nat): (k: nat)
    requires n <= |queue|
    ensures k <= n
    ensures forall j :: k <= j < n ==> Passable(Lookup(rqs, queue[j]), r)
    ensures k > 0 ==> !Passable(Lookup(rqs, queue[k - 1]), r)
  {
    if n == 0 || !Passable(Lookup(rqs, queue[n - 1]), r) then n else LastStop(queue, rqs, r, n - 1)
  }

  lemma StopsIff(p: Request, r: Request, b: nat)
    ensures SortStops(p, r, b) <==> !Passable(p, r) || Before(b, Pos(p), Pos(r))
  {
  }

  lemma {:induction false} SortPointBehindStop(queue: seq<Id>, rqs: map<Id, Request>, r: Request, b: nat, n: nat)
    requires n <= |queue|
    ensures LastStop(queue, rqs, r, n) <= SortPoint(queue, rqs, r, b, n)
  {
    if n > 0 {
      StopsIff(Lookup(rqs, queue[n - 1]), r, b);
      SortPointBehindStop(queue, rqs, r, b, n - 1);
    }
  }

  /** The insertion point lies behind the stop point, after everything circularly at or before the new request. */
  lemma SortPointPlace(queue: seq<Id>, rqs: map<Id, Request>, r: Request, b: nat)
    requires CircSorted(queue[LastStop(queue, rqs, r, |queue|)..], rqs, b)
    ensures var k, m := LastStop(queue, rqs, r, |queue|), SortPoint(queue, rqs, r, b, |queue|);
            && k <= m
            && (forall j :: k <= j < m ==> Before(b, Pos(Lookup(rqs, queue[j])), Pos(r)))
            && (forall j :: m <= j < |queue| ==> !Before(b, Pos(Lookup(rqs, queue[j])), Pos(r)))
  {
    var k, m := LastStop(queue, rqs, r, |queue|), SortPoint(queue, rqs, r, b, |queue|);
    forall j | m <= j < |queue|
      ensures Passable(Lookup(rqs, queue[j]), r) && !Before(b, Pos(Lookup(rqs, queue[j])), Pos(r))
    {
      StopsIff(Lookup(rqs, queue[j]), r, b);
    }
    SortPointBehindStop(queue, rqs, r, b, |queue|);
    if k < m {
      StopsIff(Lookup(rqs, queue[m - 1]), r, b);
      var s := queue[k..];
      forall j | k <= j < m - 1 ensures Before(b, Pos(Lookup(rqs, queue[j])), Pos(r)) {
        assert s[j - k] == queue[j] && s[m - 1 - k] == queue[m - 1];
        assert Before(b, Pos(Lookup(rqs, s[j - k])), Pos(Lookup(rqs, s[m - 1 - k])));
      }
    }
  }

  /**
   elv_dispatch_sort never crosses the last stop point, leaves everything before it alone, and
   keeps the suffix behind it in circular order from the boundary.
   */
  lemma SortInsertKeepsOrder(queue: seq<Id>, rqs: map<Id, Request>, id: Id, b: nat)
    requires CircSorted(queue[LastStop(queue, rqs, Lookup(rqs, id), |queue|)..], rqs, b)
    ensures var k := LastStop(queue, rqs, Lookup(rqs, id), |queue|);
            var q := SortInsert(queue, rqs, id, b);
            && |q| == |queue| + 1 && q[..k] == queue[..k] && id in q[k..]
            && CircSorted(q[k..], rqs, b)
  {
    var r := Lookup(rqs, id);
    var k, m := LastStop(queue, rqs, r, |queue|), SortPoint(queue, rqs, r, b, |queue|);
    SortPointPlace(queue, rqs, r, b);
    var q := SortInsert(queue, rqs, id, b);
    assert q == queue[..m] + [id] + queue[m..];
    InsertSortedSuffix(queue, rqs, id, b, k, m);
    assert q[..k] == queue[..k];
    assert q[k..][m - k] == id;
  }

  lemma InsertSortedSuffix(queue: seq<Id>, rqs: map<Id, Request>, id: Id, b: nat, k: nat, m: nat)
    requires k <= m <= |queue| && CircSorted(queue[k..], rqs, b)
    requires forall j :: k <= j < m ==> Before(b, Pos(Lookup(rqs, queue[j])), Pos(Lookup(rqs, id)))
    requires forall j :: m <= j < |queue| ==> !Before(b, Pos(Lookup(rqs, queue[j])), Pos(Lookup(rqs, id)))
    ensures CircSorted((queue[..m] + [id] + queue[m..])[k..], rqs, b)
  {
    var s, t := queue[k..], (queue[..m] + [id] + queue[m..])[k..];
    assert forall i :: 0 <= i < |s| ==> s[i] == queue[i + k];
    assert forall i :: 0 <= i < |t| ==>
                         t[i] == if i + k < m then queue[i + k] else if i + k == m then id else queue[i + k - 1];
    forall i, j | 0 <= i < j < |t| ensures Before(b, Pos(Lookup(rqs, t[i])), Pos(Lookup(rqs, t[j]))) {
      var i', j' := if i + k < m then i else i - 1, if j + k < m then j else j - 1;
      if i + k != m && j + k != m {
        assert t[i] == s[i'] && t[j] == s[j'];
        assert Before(b, Pos(Lookup(rqs, s[i'])), Pos(Lookup(rqs, s[j'])));
      }
    }
  }

  // ----------------------------------------------------------- boundary moves

  ghost predicate Apart(a: Request, b: Request) { End(a) <= Pos(b) || End(b) <= Pos(a) }

  /** Moving the boundary to the end of the first request keeps the rest in circular order. */
  lemma BoundaryMoveKeepsOrder(s: seq<Id>, rqs: map<Id, Request>, b: nat)
    requires s != [] && CircSorted(s, rqs, b)
    requires forall i :: 0 <= i < |s| ==> Pos(Lookup(rqs, s[i])) < End(Lookup(rqs, s[i]))
    requires forall i, j :: 0 <= i < j < |s| ==> Apart(Lookup(rqs, s[i]), Lookup(rqs, s[j]))
    ensures CircSorted(s[1..], rqs, End(Lookup(rqs, s[0])))
  {
    var e := End(Lookup(rqs, s[0]));
    forall i, j | 0 <= i < j < |s| - 1
      ensures Before(e, Pos(Lookup(rqs, s[1..][i])), Pos(Lookup(rqs, s[1..][j])))
    {
      assert Before(b, Pos(Lookup(rqs, s[i + 1])), Pos(Lookup(rqs, s[j + 1])));
      assert Before(b, Pos(Lookup(rqs, s[0])), Pos(Lookup(rqs, s[i + 1])));
      assert Before(b, Pos(Lookup(rqs, s[0])), Pos(Lookup(rqs, s[j + 1])));
      assert Apart(Lookup(rqs, s[0]), Lookup(rqs, s[i + 1])) && Apart(Lookup(rqs, s[0]), Lookup(rqs, s[j + 1]));
    }
  }

  /**
   Any boundary move: a list in circular order from `b` is in circular order from `e` exactly when,
   seen from `b`, the new boundary comes at or before its first request or behind its last one.
   */
  lemma BoundaryMoveIff(s: seq<Id>, rqs: map<Id, Request>, b: nat, e: nat)
    requires CircSorted(s, rqs, b)
    ensures CircSorted(s, rqs, e) <==> KeepsOrder(s, rqs, b, e)
  {
    if s != [] {
      var n := |s| - 1;
      if KeepsOrder(s, rqs, b, e) {
        forall i, j | 0 <= i < j < |s| ensures Before(e, Pos(Lookup(rqs, s[i])), Pos(Lookup(rqs, s[j]))) {
          assert i == 0 || Before(b, Pos(Lookup(rqs, s[0])), Pos(Lookup(rqs, s[i])));
          assert j == n || Before(b, Pos(Lookup(rqs, s[j])), Pos(Lookup(rqs, s[n])));
        }
      } else {
        assert n > 0 && !Before(e, Pos(Lookup(rqs, s[0])), Pos(Lookup(rqs, s[n]))) by {
          assert n > 0 ==> Before(b, Pos(Lookup(rqs, s[0])), Pos(Lookup(rqs, s[n])));
        }
      }
    }
  }

  predicate KeepsOrder(s: seq<Id>, rqs: map<Id, Request>, b: nat, e: nat) {
    s == [] || Before(b, e, Pos(Lookup(rqs, s[0]))) || !Before(b, e, Pos(Lookup(rqs, s[|s| - 1])))
  }

  lemma CircSortedSame(s: seq<Id>, rqs: map<Id, Request>, rqs': map<Id, Request>, b: nat)
    requires forall i :: 0 <= i < |s| ==> Pos(Lookup(rqs', s[i])) == Pos(Lookup(rqs, s[i]))
    ensures CircSorted(s, rqs', b) <==> CircSorted(s, rqs, b)
  {
  }

  lemma PeekHeadEffect(st: State)
    requires st.queue != []
    ensures var st', id := PeekHead(st), st.queue[0];
            && st'.queue == st.queue && st'.sched == st.sched && st'.sortDispatch == st.sortDispatch
            && st'.endSector == (if MovesBoundary(st) then End(Rq(st, id)) else st.endSector)
            && st'.boundary == (if MovesBoundary(st) then None else st.boundary)
            && (forall x :: x != id ==> Rq(st', x) == Rq(st, x))
            && (id in st.rqs ==> Rq(st', id) == Rq(st, id).(started := true))
  {
  }

  lemma TailSame(queue: seq<Id>, rqs: map<Id, Request>, rqs': map<Id, Request>, b: nat)
    requires queue != [] && NoDup(queue) && forall x :: x != queue[0] ==> Lookup(rqs', x) == Lookup(rqs, x)
    ensures CircSorted(queue[1..], rqs', b) <==> CircSorted(queue[1..], rqs, b)
  {
    var s := queue[1..];
    forall i | 0 <= i < |s| ensures Lookup(rqs', s[i]) == Lookup(rqs, s[i]) {
      assert s[i] == queue[i + 1] && s[i] != queue[0];
    }
    CircSortedSame(s, rqs, rqs', b);
  }

  /** What peeking does to the requests behind the head: exactly when their order survives the boundary move. */
  lemma PeekKeepsOrderIff(st: State)
    requires st.queue != [] && NoDup(st.queue) && CircSorted(st.queue[1..], st.rqs, st.endSector)
    ensures var st' := PeekHead(st);
            && st'.queue == st.queue
            && (CircSorted(st'.queue[1..], st'.rqs, st'.endSector) <==>
                  !MovesBoundary(st) || KeepsOrder(st.queue[1..], st.rqs, st.endSector, End(Rq(st, st.queue[0]))))
  {
    var st' := PeekHead(st);
    PeekHeadEffect(st);
    assert forall x :: x != st.queue[0] ==> Lookup(st'.rqs, x) == Rq(st', x) == Rq(st, x);
    TailSame(st.queue, st.rqs, st'.rqs, st'.endSector);
    BoundaryMoveIff(st.queue[1..], st.rqs, st.endSector, End(Rq(st, st.queue[0])));
  }

  // ------------------------------------------------- a run that breaks the order

  function Transfer(id: nat, sector: nat, write: bool): Request {
    Request(FromBio(Bio(id, sector, 4096, {}), false), write, false, true, false, false,
            false, false, false, false, true, false)
  }

  lemma TransferOk(id: nat, sector: nat, write: bool)
    ensures var r := Transfer(id, sector, write);
            Fresh(r) && WellFormed(r.body) && Pos(r) == sector && End(r) == sector + 8
  {
    FromBioCovers(Bio(id, sector, 4096, {}), false);
  }

  const ALONE: Env := Env(x => x, {}, {}, {})

  /** A request arrives, is sort-inserted and dispatched. */
  function Sent(id: Id, r: Request): seq<Event> { [Arrive(id, r), Insert(id, Sort, ALONE), DrainAll] }

  /** Nothing pending, no boundary request, and the boundary still at sector 0. */
  ghost predicate Settled(st: State) {
    Inv(st) && PendingCount(st) == 0 && st.sortDispatch && st.boundary == None && st.endSector == 0
  }

  /** `st'` has the one pending request `id`, at its place on the disk, and the queue of `st`. */
  ghost predicate PendsOne(st: State, st': State, id: Id) {
    && Inv(st') && PendingCount(st') == 1 && Pending(st', id) && st'.queue == st.queue
    && st'.endSector == st.endSector && st'.boundary == st.boundary && st'.sortDispatch == st.sortDispatch
    && Rq(st', id).body == Rq(st, id).body
    && Rq(st', id).write == Rq(st, id).write && Rq(st', id).discard == Rq(st, id).discard
    && (forall x :: x != id ==> Rq(st', x) == Rq(st, x)) && st'.rqs.Keys == st.rqs.Keys
  }

  lemma InsertAlone(st: State, id: Id)
    requires Inv(st) && PendingCount(st) == 0 && Outside(st, id) && Rq(st, id).elvPriv && Rq(st, id).fs
    requires WellFormed(Rq(st, id).body)
    ensures PendsOne(st, InsertSorted(st, id), id)
  {
    InsertSortedOk(st, id);
    InsertSortedQueues(st, id);
    QueuesPendsOne(st, InsertSorted(st, id), id, GreedyPoint(st, id));
  }

  lemma QueuesPendsOne(st: State, st': State, id: Id, k: nat)
    requires Placed(st) && PendingCount(st) == 0 && Outside(st, id) && Inv(st')
    requires Queues(st, st', id, SortedAs(st.rqs[id]), k)
    ensures PendsOne(st, st', id)
  {
    QueuesPlaced(st, st', id, SortedAs(st.rqs[id]), k);
  }

  /** `st'` is `st` with its only pending request sort-inserted into the queue. */
  ghost predicate DrainsOne(st: State, st': State, id: Id) {
    && Inv(st') && PendingCount(st') == 0 && st'.sortDispatch
    && st'.queue == SortInsert(st.queue, st'.rqs, id, st.endSector)
    && st'.endSector == st.endSector && st'.boundary == st.boundary
    && st'.rqs == st.rqs[id := Rq(st, id).(hashed := false)] && st'.rqs.Keys == st.rqs.Keys
  }

  lemma DrainOne(st: State, id: Id)
    requires Inv(st) && PendingCount(st) == 1 && Pending(st, id) && st.sortDispatch
    ensures DrainsOne(st, Drain(st), id)
  {
    GreedyDispatchMoves(st);
    GreedyDispatchOk(st, {});
    var st', t := GreedyDispatch(st), GreedyTarget(st.sched, st.rqs).value;
    assert t == id by {
      OnlyPending(st, id, t);
    }
    assert Drain(st) == st';
    DispatchIsSortInsert(st, st', id);
  }

  lemma DispatchIsSortInsert(st: State, st': State, id: Id)
    requires st.sortDispatch && Moves(st, st', id, DispatchPoint(st, id))
    ensures st'.queue == SortInsert(st.queue, st'.rqs, id, st.endSector)
  {
    assert Lookup(st'.rqs, id) == Rq(st, id).(hashed := false);
  }

  lemma OnlyPending(st: State, id: Id, t: Id)
    requires PendingCount(st) == 1 && Pending(st, id) && Pending(st, t)
    ensures t == id
  {
    assert |st.sched.higher| == 1 || |st.sched.lower| == 1;
  }

  lemma ThreeSteps(st: State, st1: State, st2: State, st3: State, a: Event, b: Event, c: Event)
    requires Enabled(st, a) && Step(st, a) == st1 && Enabled(st1, b) && Step(st1, b) == st2
    requires Enabled(st2, c) && Step(st2, c) == st3
    ensures Runs(st, [a, b, c]) && After(st, [a, b, c]) == st3
  {
    var es := [a, b, c];
    assert es[1..] == [b, c] && es[1..][1..] == [c] && es[1..][1..][1..] == [];
    assert Runs(st3, []) && Runs(st2, [c]) && After(st2, [c]) == st3;
    assert Runs(st1, [b, c]) && After(st1, [b, c]) == st3;
  }

  /** Sending a request adds it to the settled queue by sort insertion and changes nothing else. */
  ghost predicate Sends(st: State, st': State, id: Id, sector: nat, write: bool) {
    && st'.rqs.Keys == st.rqs.Keys + {id}
    && st'.queue == SortInsert(st.queue, st'.rqs, id, 0)
    && Pos(Rq(st', id)) == sector && End(Rq(st', id)) == sector + 8
    && Rq(st', id).write == write && !Rq(st', id).discard
    && (forall x :: x != id ==> Rq(st', x) == Rq(st, x))
  }

  lemma SendEffect(st: State, st1: State, st2: State, st3: State, id: Id, sector: nat, write: bool)
    requires Settled(st) && st1 == st.(rqs := st.rqs[id := Transfer(id, sector, write)])
    requires PendsOne(st1, st2, id) && DrainsOne(st2, st3, id)
    ensures Settled(st3) && Sends(st, st3, id, sector, write)
  {
    TransferOk(id, sector, write);
    assert Rq(st3, id) == Rq(st2, id).(hashed := false);
    forall x | x != id ensures Rq(st3, x) == Rq(st, x) {
      assert Rq(st3, x) == Rq(st2, x) == Rq(st1, x);
    }
  }

  lemma SortIsInsertSorted(st: State, id: Id)
    requires !Rq(st, id).softBarrier && Rq(st, id).elvPriv
    ensures AddRequest(st, id, Sort, ALONE) == Merged(InsertSorted(st, id), [])
  {
  }

  lemma SentRuns(st: State, id: Id, r: Request)
    requires id !in st.rqs && Fresh(r) && r.elvPriv && r.fs && WellFormed(r.body)
    requires Outside(st.(rqs := st.rqs[id := r]), id)
    ensures Runs(st, Sent(id, r)) && After(st, Sent(id, r)) == Drain(InsertSorted(st.(rqs := st.rqs[id := r]), id))
  {
    var st1 := st.(rqs := st.rqs[id := r]);
    SortIsInsertSorted(st1, id);
    var st2 := InsertSorted(st1, id);
    ThreeSteps(st, st1, st2, Drain(st2), Arrive(id, r), Insert(id, Sort, ALONE), DrainAll);
  }

  lemma SentOk(st: State, id: Id, sector: nat, write: bool)
    requires Settled(st) && id !in st.rqs
    ensures var es := Sent(id, Transfer(id, sector, write));
            Runs(st, es) && Settled(After(st, es)) && Sends(st, After(st, es), id, sector, write)
  {
    var r := Transfer(id, sector, write);
    TransferOk(id, sector, write);
    ArriveOk(st, id, r);
    var st1 := st.(rqs := st.rqs[id := r]);
    InsertAlone(st1, id);
    var st2 := InsertSorted(st1, id);
    DrainOne(st2, id);
    SendEffect(st, st1, st2, Drain(st2), id, sector, write);
    SentRuns(st, id, r);
  }

  /** A run extended by one more request. */
  lemma SentNext(st: State, es: seq<Event>, id: Id, sector: nat, write: bool)
    requires Runs(st, es) && Settled(After(st, es)) && id !in After(st, es).rqs
    ensures var es' := es + Sent(id, Transfer(id, sector, write));
            Runs(st, es') && Settled(After(st, es')) && Sends(After(st, es), After(st, es'), id, sector, write)
  {
    SentOk(After(st, es), id, sector, write);
    RunsConcat(st, es, Sent(id, Transfer(id, sector, write)));
  }

  /** Where the sort insertion puts the third request of the run. */
  lemma ThirdBehindSecond(queue: seq<Id>, rqs: map<Id, Request>)
    requires queue == [0, 1] && Lookup(rqs, 1).write && Lookup(rqs, 2).write
    requires Pos(Lookup(rqs, 1)) == 10 && Pos(Lookup(rqs, 2)) == 200
    ensures SortInsert(queue, rqs, 2, 0) == [0, 1, 2]
  {
  }

  lemma SecondBehindFirst(queue: seq<Id>, rqs: map<Id, Request>)
    requires queue == [0] && !Lookup(rqs, 0).write && Lookup(rqs, 1).write
    ensures SortInsert(queue, rqs, 1, 0) == [0, 1]
  {
  }

  /** A read at 100 and writes at 10 and 200, sent one after the other. */
  const MIXED: seq<Event> :=
    Sent(0, Transfer(0, 100, false)) + Sent(1, Transfer(1, 10, true)) + Sent(2, Transfer(2, 200, true))

  ghost predicate TwoQueued(st: State) {
    && Settled(st) && st.queue == [0, 1] && st.rqs.Keys == {0, 1} && End(Rq(st, 0)) == 108
    && Pos(Rq(st, 1)) == 10 && Rq(st, 1).write
  }

  ghost predicate ThreeQueued(st: State) {
    Settled(st) && st.queue == [0, 1, 2] && End(Rq(st, 0)) == 108 && Pos(Rq(st, 1)) == 10 && Pos(Rq(st, 2)) == 200
  }

  lemma QueueTwo(st: State, st0: State, st1: State)
    requires st.queue == [] && st.rqs.Keys == {} && Settled(st1)
    requires Sends(st, st0, 0, 100, false) && Sends(st0, st1, 1, 10, true)
    ensures TwoQueued(st1)
  {
    assert st0.queue == [0];
    SecondBehindFirst(st0.queue, st1.rqs);
  }

  lemma MixedTwo(st: State)
    requires Settled(st) && st.queue == [] && st.rqs.Keys == {}
    ensures var es := Sent(0, Transfer(0, 100, false)) + Sent(1, Transfer(1, 10, true));
            Runs(st, es) && TwoQueued(After(st, es))
  {
    var e0 := Sent(0, Transfer(0, 100, false));
    SentOk(st, 0, 100, false);
    SentNext(st, e0, 1, 10, true);
    QueueTwo(st, After(st, e0), After(st, e0 + Sent(1, Transfer(1, 10, true))));
  }

  lemma QueueThree(st: State, st': State)
    requires TwoQueued(st) && Sends(st, st', 2, 200, true) && Settled(st')
    ensures ThreeQueued(st')
  {
    ThirdBehindSecond(st.queue, st'.rqs);
  }

  lemma MixedRun(st: State)
    requires Settled(st) && st.queue == [] && st.rqs.Keys == {}
    ensures Runs(st, MIXED) && ThreeQueued(After(st, MIXED))
  {
    var es := Sent(0, Transfer(0, 100, false)) + Sent(1, Transfer(1, 10, true));
    MixedTwo(st);
    SentNext(st, es, 2, 200, true);
    QueueThree(After(st, es), After(st, MIXED));
  }

  lemma MixedPeek(st: State)
    requires ThreeQueued(st)
    ensures var st' := PeekHead(st);
            && CircSorted(st.queue[1..], st.rqs, st.endSector)
            && st'.queue == st.queue && !CircSorted(st'.queue[1..], st'.rqs, st'.endSector)
  {
    assert st.queue[1..] == [1, 2];
    PeekKeepsOrderIff(st);
  }

  /** After that run the writes are in order behind the read; peeking at the read leaves them out of order. */
  lemma MixedDirectionBreaksOrder()
    ensures Runs(Init(true), MIXED)
    ensures var st := After(Init(true), MIXED);
            var st' := Step(st, PeekNext(false, false));
            && Enabled(st, PeekNext(false, false)) && st.queue == [0, 1, 2]
            && CircSorted(st.queue[1..], st.rqs, st.endSector)
            && st'.queue == st.queue && !CircSorted(st'.queue[1..], st'.rqs, st'.endSector)
  {
    InitInv(true);
    MixedRun(Init(true));
    MixedPeek(After(Init(true), MIXED));
  }
}
