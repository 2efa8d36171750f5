/**
 Back insertion is a fence over whole runs: what was in the elevator when B was back-inserted first
 leaves the dispatch queue before B, and what is sort-inserted afterwards first leaves after B,
 whichever dispatch-insert function the scheduler uses.
 */
module BackFence {
  import opened Types
  import opened Lists
  import opened BioChains
  import opened Requests
  import opened Elevator
  import opened ElevatorSafety
  import opened ElevatorMachine

  // ----------------------------------------------------------------- history

  /** What happened since B was inserted: who left the queue, in order of first leaving, and who was sort-inserted. */
  datatype History = History(left: seq<Id>, later: set<Id>)

  function Record(h: History, st: State, e: Event): History
    requires e.StartHead? ==> st.queue != []
  {
    match e
    case StartHead => if st.queue[0] in h.left then h else h.(left := h.left + [st.queue[0]])
    case Insert(id, at, _) => if at == Sort || at == SortMerge then h.(later := h.later + {id}) else h
    case _ => h
  }

  /** Names are not reused for new requests while the fence is being watched. */
  ghost predicate NewName(h: History, early: set<Id>, b: Id, e: Event) {
    e.Arrive? ==> e.id != b && e.id !in early && e.id !in h.later && e.id !in h.left
  }

  ghost predicate Watched(st: State, h: History, early: set<Id>, b: Id, es: seq<Event>)
    decreases |es|
  {
    es == [] || (&& Enabled(st, es[0]) && NewName(h, early, b, es[0])
                 && Watched(Step(st, es[0]), Record(h, st, es[0]), early, b, es[1..]))
  }

  ghost function Final(st: State, h: History, early: set<Id>, b: Id, es: seq<Event>): History
    requires Watched(st, h, early, b, es)
    decreases |es|
  {
    if es == [] then h else Final(Step(st, es[0]), Record(h, st, es[0]), early, b, es[1..])
  }

  /** `x` left before `y` did. */
  ghost predicate Earlier(left: seq<Id>, x: Id, y: Id) {
    exists i, j :: 0 <= i < j < |left| && left[i] == x && left[j] == y
  }

  /** The fence as an observer sees it. */
  ghost predicate Fenced(h: History, early: set<Id>, b: Id) {
    && (b in h.left ==> forall x :: x in early ==> Earlier(h.left, x, b))
    && (forall y :: y in h.later && y in h.left ==> Earlier(h.left, b, y))
  }

  // --------------------------------------------------------------- invariant

  function IndexOf(s: seq<Id>, x: Id): (k: nat)
    requires x in s
    ensures k < |s| && s[k] == x && x !in s[..k]
  {
    if s[0] == x then 0
    else
      var k := 1 + IndexOf(s[1..], x);
      assert s[..k] == [s[0]] + s[1..][..k - 1];
      k
  }

  /** The requests queued ahead of B. */
  ghost function Ahead(queue: seq<Id>, b: Id): seq<Id>
    requires b in queue
  {
    queue[..IndexOf(queue, b)]
  }

  /** B still waits: early requests have left or are ahead of it, later ones are not, and cannot get there. */
  ghost predicate Waiting(st: State, h: History, early: set<Id>, b: Id) {
    && b in st.queue && Rq(st, b).softBarrier && b !in h.left
    && b !in early && early !! h.later && b !in h.later
    && (forall x :: x in early ==> x in h.left || x in Ahead(st.queue, b))
    && (forall y :: y in h.later ==> y !in Ahead(st.queue, b) && y !in h.left && y !in st.driver && !Outside(st, y))
    && (forall y :: Pending(st, y) ==> y in h.later)
  }

  /** Requests that have left do not come back to be inserted again. */
  ghost predicate Spent(st: State, h: History) {
    forall x :: Outside(st, x) ==> x !in h.left
  }

  ghost predicate Holding(st: State, h: History, early: set<Id>, b: Id) {
    Spent(st, h) && (Waiting(st, h, early, b) || (b in h.left && Fenced(h, early, b)))
  }

  // ------------------------------------------------------ steps off the queue

  /** A step that leaves the dispatch queue and its requests alone and takes only `added` from the outside. */
  ghost predicate Settles(st: State, st': State, added: set<Id>) {
    && st'.queue == st.queue && st'.driver == st.driver
    && st'.endSector == st.endSector && st'.boundary == st.boundary && st'.sortDispatch == st.sortDispatch
    && (forall x :: Outside(st', x) <==> Outside(st, x) && x !in added)
    && (forall x :: Pending(st', x) ==> Pending(st, x) || x in added)
    && (forall x :: x in st.queue ==> Rq(st', x) == Rq(st, x))
  }

  lemma SettlesTrans(st: State, st1: State, st2: State, a: set<Id>)
    requires Settles(st, st1, {}) && Settles(st1, st2, a)
    ensures Settles(st, st2, a)
  {
  }

  lemma MergeSettles(st: State, id: Id, next: Id)
    requires InvBut(st, {id}) && Pending(st, id) && (Pending(st, next) || Outside(st, next)) && id != next
    requires WellFormed(Rq(st, next).body) && CanJoin(Rq(st, id), Rq(st, next))
    ensures Settles(st, MergeRequests(st, id, next).st, if Outside(st, next) then {next} else {})
  {
    MergeRequestsOk(st, id, next);
    AbsorbsSettles(st, MergeRequests(st, id, next).st, id, next, Joined(Rq(st, id), Rq(st, next)));
  }

  lemma AbsorbsSettles(st: State, st': State, id: Id, next: Id, r: Request)
    requires Placed(st) && Absorbs(st, st', id, next, r) && Pending(st, id) && (Pending(st, next) || Outside(st, next))
    ensures Settles(st, st', if Outside(st, next) then {next} else {})
  {
    AbsorbsPlaced(st, st', id, next, r);
  }

  lemma UnhashesSettles(st: State, st': State)
    requires Inv(st) && Inv(st') && Unhashes(st, st')
    ensures Settles(st, st', {})
  {
    forall x | x in st.queue ensures Rq(st', x) == Rq(st, x) {
      assert IdOk(st, x);
      assert Rq(st', x) == Rq(st, x) || Rq(st', x) == Rq(st, x).(hashed := false);
    }
  }

  /** What a run of the loop takes from the outside: the new request, if it was merged. */
  ghost function Taken(st: State, id: Id, tr: Turns): set<Id> {
    if tr.Done? || Pending(st, id) then {} else {id}
  }

  lemma {:induction false} TraceSettles(st: State, id: Id, tr: Turns)
    requires Inv(st) && (Pending(st, id) || Outside(st, id)) && Traces(st, id, tr)
    ensures Settles(st, LastState(tr), Taken(st, id, tr))
    decreases tr
  {
    match tr
    case Done(st1) => UnhashesSettles(st, st1);
    case Turn(st1, t, st2, rest) =>
      UnhashesSettles(st, st1);
      AbsorbsSettles(st1, st2, t, id, Joined(Rq(st1, t), Rq(st1, id)));
      TraceSettles(st2, t, rest);
      SettleTwice(st, st1, st2, LastState(rest), id);
  }

  lemma SettleTwice(st: State, st1: State, st2: State, st3: State, id: Id)
    requires Settles(st, st1, {}) && Settles(st1, st2, if Outside(st1, id) then {id} else {}) && Settles(st2, st3, {})
    requires Pending(st, id) || Outside(st, id)
    ensures Settles(st, st3, if Pending(st, id) then {} else {id})
  {
  }

  lemma CascadeSettles(st: State, id: Id, env: Env)
    requires Inv(st) && (Pending(st, id) || Outside(st, id)) && WellFormed(Rq(st, id).body)
    ensures var m := Cascade(st, id, env);
            Settles(st, m.st, if m.freed == [] || Pending(st, id) then {} else {id})
  {
    var tr := CascadeTraces(st, id, env);
    TraceSettles(st, id, tr);
  }

  lemma InsertMergeSettles(st: State, id: Id, env: Env)
    requires Inv(st) && Outside(st, id) && WellFormed(Rq(st, id).body)
    ensures var m := InsertMerge(st, id, env);
            Settles(st, m.st, if m.freed == [] then {} else {id})
  {
    if st.noMerges {
    } else if st.lastMerge.Some? && Joins(st, st.lastMerge.value, id, env) {
      MergeSettles(st, st.lastMerge.value, id);
    } else if !st.noXMerges {
      CascadeSettles(st, id, env);
    }
  }

  lemma InsertSortedSettles(st: State, id: Id)
    requires Placed(st) && Outside(st, id)
    ensures Settles(st, InsertSorted(st, id), {id})
  {
    InsertSortedQueues(st, id);
    QueuesSettles(st, InsertSorted(st, id), id, GreedyPoint(st, id));
  }

  lemma QueuesSettles(st: State, st': State, id: Id, k: nat)
    requires Placed(st) && Outside(st, id) && Queues(st, st', id, SortedAs(st.rqs[id]), k)
    ensures Settles(st, st', {id})
  {
    QueuesPlaced(st, st', id, SortedAs(st.rqs[id]), k);
    assert forall x :: x != id ==> Rq(st', x) == Rq(st, x);
  }

  /** A sort insertion that reaches the scheduler. */
  lemma SortSettles(st: State, id: Id, at: Where, env: Env)
    requires Inv(st) && MayInsert(st, id, at) && Rq(st, id).elvPriv && (at == Sort || at == SortMerge)
    ensures Settles(st, AddRequest(st, id, at, env).st, {id})
  {
    assert Fresh(Rq(st, id));
    if at == Sort {
      InsertSortedSettles(st, id);
    } else {
      InsertMergeOk(st, id, env);
      InsertMergeSettles(st, id, env);
      var m := InsertMerge(st, id, env);
      if m.freed == [] {
        assert Outside(m.st, id);
        InsertSortedSettles(m.st, id);
        SettlesTrans(st, m.st, InsertSorted(m.st, id), {id});
      }
    }
  }

  lemma UpdateSettles(st: State, id: Id, r: Request)
    requires Placed(st) && Pending(st, id)
    ensures Settles(st, SetRq(st, id, r), {})
  {
  }

  lemma RepositionSettles(st: State, id: Id)
    requires Placed(st) && Pending(st, id)
    ensures Settles(st, Reposition(st, id).(lastMerge := Some(id)), {})
  {
  }

  lemma MergeBioSettles(st: State, sub: Submission, env: Env)
    requires Inv(st) && WholeBio(sub.bio)
    ensures Settles(st, MergeBio(st, sub, env).st, {})
  {
    ElvMergeOk(st, sub, env);
    var c := ElvMerge(st, sub, env);
    UnhashesSettles(st, c.st);
    match c.kind
    case BackMerge(id) =>
      if id in env.fits {
        BackMergeSettles(c.st, id, sub.bio, env);
        SettlesTrans(st, c.st, BackMergeBio(c.st, id, sub.bio, env).st, {});
      }
    case FrontMerge(id) =>
      if id in env.fits {
        FrontMergeSettles(c.st, id, sub.bio, env);
        SettlesTrans(st, c.st, FrontMergeBio(c.st, id, sub.bio, env).st, {});
      }
    case NoMerge =>
  }

  lemma BackMergeSettles(st: State, id: Id, bio: Bio, env: Env)
    requires Inv(st) && Pending(st, id) && WholeBio(bio) && bio.sector == End(Rq(st, id))
    ensures Settles(st, BackMergeBio(st, id, bio, env).st, {})
  {
    GrowBackOk(st, id, bio);
    var r := Rq(st, id).(body := Append(Rq(st, id).body, bio));
    var st1 := SetRq(st, id, r);
    UpdateSettles(st, id, r);
    LatterPending(st1, id);
    var next := LatterRequest(st1.sched, id);
    if next.Some? && Joins(st1, id, next.value, env) {
      assert PendingOk(Rq(st1, next.value));
      MergeSettles(st1, id, next.value);
      SettlesTrans(st, st1, MergeRequests(st1, id, next.value).st, {});
    } else {
      RepositionSettles(st1, id);
      SettlesTrans(st, st1, Reposition(st1, id).(lastMerge := Some(id)), {});
    }
  }

  lemma FrontMergeSettles(st: State, id: Id, bio: Bio, env: Env)
    requires Inv(st) && Pending(st, id) && WholeBio(bio) && BioEnd(bio) == Pos(Rq(st, id))
    ensures Settles(st, FrontMergeBio(st, id, bio, env).st, {})
  {
    GrowFrontOk(st, id, bio);
    var r := Rq(st, id).(body := Prepend(Rq(st, id).body, bio));
    var st1 := SetRq(st, id, r);
    UpdateSettles(st, id, r);
    FormerPending(st1, id);
    var prev := FormerRequest(st1.sched, id);
    if prev.Some? && Joins(st1, prev.value, id, env) {
      assert PendingOk(Rq(st1, id));
      InvStale(st1, prev.value);
      MergeSettles(st1, prev.value, id);
      SettlesTrans(st, st1, MergeRequests(st1, prev.value, id).st, {});
    }
  }

  // ------------------------------------------------------- steps on the queue

  lemma IndexOfIs(s: seq<Id>, x: Id, k: nat)
    requires k < |s| && s[k] == x && x !in s[..k]
    ensures x in s && IndexOf(s, x) == k
  {
    var j := IndexOf(s, x);
    assert forall i :: 0 <= i < k ==> s[i] in s[..k];
    assert forall i :: 0 <= i < j ==> s[i] in s[..j];
  }

  /** A step that changes the queue behind B only. */
  ghost predicate BehindOnly(st: State, st': State, b: Id) {
    && b in st.queue && b in st'.queue && Ahead(st'.queue, b) == Ahead(st.queue, b)
    && Rq(st', b).softBarrier == Rq(st, b).softBarrier
    && st'.driver == st.driver
    && (forall x :: Outside(st', x) ==> Outside(st, x))
    && (forall x :: Pending(st', x) ==> Pending(st, x))
  }

  lemma {:induction false} SortPointBehind(
    queue: seq<Id>, rqs: map<Id, Request>, r: Request, boundary: nat, n: nat, i: nat)
    requires i < n <= |queue| && SortStops(Lookup(rqs, queue[i]), r, boundary)
    ensures SortPoint(queue, rqs, r, boundary, n) > i
  {
    if i < n - 1 {
      SortPointBehind(queue, rqs, r, boundary, n - 1, i);
    }
  }

  lemma InsertBehind(queue: seq<Id>, k: nat, id: Id, b: Id)
    requires b in queue && IndexOf(queue, b) < k <= |queue|
    ensures b in InsertAt(queue, k, id) && Ahead(InsertAt(queue, k, id), b) == Ahead(queue, b)
  {
    var q, i := InsertAt(queue, k, id), IndexOf(queue, b);
    assert q[..k] == queue[..k];
    assert q[i] == q[..k][i] == queue[..k][i] == b;
    assert q[..i] == q[..k][..i] == queue[..k][..i] == queue[..i];
    IndexOfIs(q, b, i);
  }

  lemma DispatchBehind(st: State, b: Id, but: set<Id>)
    requires InvDuring(st, but) && b in st.queue && Rq(st, b).softBarrier
    ensures BehindOnly(st, GreedyDispatch(st), b)
  {
    if PendingCount(st) > 0 {
      GreedyDispatchMoves(st);
      var id := GreedyTarget(st.sched, st.rqs).value;
      PointBehind(st, id, b);
      MovesBehind(st, GreedyDispatch(st), id, DispatchPoint(st, id), b);
    }
  }

  lemma PointBehind(st: State, id: Id, b: Id)
    requires b in st.queue && Rq(st, b).softBarrier && id != b
    ensures IndexOf(st.queue, b) < DispatchPoint(st, id) <= |st.queue|
  {
    var i := IndexOf(st.queue, b);
    if st.sortDispatch {
      var rqs, r := st.rqs[id := Rq(st, id).(hashed := false)], Rq(st, id).(hashed := false);
      assert Lookup(rqs, st.queue[i]) == Rq(st, b);
      SortPointBehind(st.queue, rqs, r, st.endSector, |st.queue|, i);
    }
  }

  lemma MovesBehind(st: State, st': State, id: Id, k: nat, b: Id)
    requires Placed(st) && Pending(st, id) && Moves(st, st', id, k) && b in st.queue && IndexOf(st.queue, b) < k
    ensures BehindOnly(st, st', b)
  {
    MovesPlaced(st, st', id, k);
    InsertBehind(st.queue, k, id, b);
  }

  lemma {:induction false} DrainBehind(st: State, b: Id, but: set<Id>)
    requires InvDuring(st, but) && b in st.queue && Rq(st, b).softBarrier
    ensures BehindOnly(st, Drain(st), b)
    decreases PendingCount(st)
  {
    if PendingCount(st) > 0 {
      DispatchBehind(st, b, but);
      GreedyDispatchOk(st, but);
      DrainBehind(GreedyDispatch(st), b, but);
    }
  }

  lemma InsertBackBehind(st: State, id: Id, b: Id)
    requires Inv(st) && Outside(st, id) && b in st.queue && Rq(st, b).softBarrier
    ensures BehindOnly(st, InsertBack(st, id), b) && !Outside(InsertBack(st, id), id)
    ensures id in InsertBack(st, id).queue && id !in Ahead(InsertBack(st, id).queue, b)
  {
    BarrierOk(st, id);
    var st1 := SetRq(st, id, Rq(st, id).(softBarrier := true));
    assert BehindOnly(st, st1, b);
    DrainBehind(st1, b, {id});
    DrainOk(st1, {id});
    var st2 := Drain(st1);
    InsertBehind(st2.queue, |st2.queue|, id, b);
    assert st2.queue + [id] == InsertAt(st2.queue, |st2.queue|, id);
    AppendedBehind(st, st2, id, b);
  }

  lemma AppendedBehind(st: State, st2: State, id: Id, b: Id)
    requires BehindOnly(st, st2, b) && Outside(st2, id)
    requires b in st2.queue + [id] && Ahead(st2.queue + [id], b) == Ahead(st2.queue, b)
    ensures var st3 := st2.(queue := st2.queue + [id]);
            BehindOnly(st, st3, b) && !Outside(st3, id) && id in st3.queue && id !in Ahead(st3.queue, b)
  {
    var st3 := st2.(queue := st2.queue + [id]);
    assert forall x :: x in st3.queue <==> x in st2.queue || x == id;
    assert forall x :: Outside(st3, x) ==> Outside(st2, x);
    assert id !in st2.queue;
  }

  // -------------------------------------------------------------- while B waits

  lemma BehindKeepsWaiting(st: State, st': State, h: History, early: set<Id>, b: Id)
    requires Waiting(st, h, early, b) && BehindOnly(st, st', b)
    ensures Waiting(st', h, early, b)
  {
  }

  lemma SettlesIsBehind(st: State, st': State, b: Id)
    requires Settles(st, st', {}) && b in st.queue
    ensures BehindOnly(st, st', b)
  {
  }

  /** A sort insertion adds a later request that is not ahead of B. */
  lemma SortKeepsWaiting(st: State, st': State, h: History, early: set<Id>, b: Id, id: Id)
    requires Waiting(st, h, early, b) && Spent(st, h) && Settles(st, st', {id}) && Outside(st, id)
    ensures Waiting(st', h.(later := h.later + {id}), early, b)
  {
    assert id !in h.left && id !in Ahead(st.queue, b);
  }

  /** So does one that was redirected to the back of the queue. */
  lemma RedirectKeepsWaiting(st: State, st': State, h: History, early: set<Id>, b: Id, id: Id)
    requires Waiting(st, h, early, b) && Spent(st, h) && BehindOnly(st, st', b) && Outside(st, id)
    requires !Outside(st', id) && id !in Ahead(st'.queue, b)
    ensures Waiting(st', h.(later := h.later + {id}), early, b)
  {
    assert id !in h.left && id !in Ahead(st.queue, b);
  }

  lemma PrependAhead(queue: seq<Id>, id: Id, b: Id)
    requires b in queue && id != b
    ensures b in [id] + queue && Ahead([id] + queue, b) == [id] + Ahead(queue, b)
  {
    var q, k := [id] + queue, IndexOf(queue, b);
    assert q[..k + 1] == [id] + queue[..k];
    IndexOfIs(q, b, k + 1);
  }

  /** Something put at the front of the queue, from outside or from the driver. */
  lemma FrontKeepsWaiting(st: State, st': State, h: History, early: set<Id>, b: Id, id: Id)
    requires Waiting(st, h, early, b) && id != b && id !in h.later
    requires st'.queue == [id] + st.queue && st'.driver <= st.driver && Rq(st', b).softBarrier == Rq(st, b).softBarrier
    requires forall x :: Outside(st', x) ==> Outside(st, x)
    requires forall x :: Pending(st', x) ==> Pending(st, x)
    ensures Waiting(st', h, early, b)
  {
    PrependAhead(st.queue, id, b);
    assert forall x :: x in Ahead(st.queue, b) ==> x in Ahead(st'.queue, b);
  }

  lemma TailAhead(queue: seq<Id>, b: Id)
    requires b in queue && queue[0] != b
    ensures b in queue[1..] && Ahead(queue, b) == [queue[0]] + Ahead(queue[1..], b)
  {
    assert queue == [queue[0]] + queue[1..];
    PrependAhead(queue[1..], queue[0], b);
  }

  lemma StartKeepsWaiting(st: State, h: History, early: set<Id>, b: Id)
    requires Inv(st) && Waiting(st, h, early, b) && st.queue[0] != b
    ensures Waiting(Start(st), Record(h, st, StartHead), early, b)
  {
    TailAhead(st.queue, b);
    var st', id := Start(st), st.queue[0];
    assert id in Ahead(st.queue, b);
    assert forall x :: x in Ahead(st.queue, b) ==> x == id || x in Ahead(st'.queue, b);
    assert forall x :: x in Ahead(st'.queue, b) ==> x in Ahead(st.queue, b);
    assert forall x :: Outside(st', x) ==> Outside(st, x);
  }

  /** When B itself leaves, every early request has left and no later one has. */
  lemma LeavingFences(st: State, h: History, early: set<Id>, b: Id)
    requires Waiting(st, h, early, b) && st.queue[0] == b
    ensures var h' := Record(h, st, StartHead);
            b in h'.left && Fenced(h', early, b)
  {
    assert IndexOf(st.queue, b) == 0;
    var left := h.left + [b];
    forall x | x in early ensures Earlier(left, x, b) {
      assert x in h.left;
      var i :| 0 <= i < |h.left| && h.left[i] == x;
      assert left[i] == x && left[|h.left|] == b;
    }
  }

  // --------------------------------------------------------------------- steps

  /** Requests go outside only by arriving, and leave it only by being inserted or put back. */
  lemma OutsideExact(st: State, e: Event)
    requires Inv(st) && Enabled(st, e)
    ensures forall x :: Outside(Step(st, e), x) <==>
              (Outside(st, x) && !((e.Insert? || e.Abandon?) && x == e.id)) || (e.Arrive? && x == e.id)
    ensures e.Insert? ==> Outside(st, e.id)
  {
    match e
    case Insert(id, at, env) => InsertOutside(st, id, at, env);
    case SubmitBio(sub, env) => MergeBioSettles(st, sub, env);
    case DrainAll => DrainOk(st, {});
    case PeekNext(f, y) => PeekOutside(st, f, y);
    case StartHead => StartOutside(st);
    case GiveBack(id) => RequeueOutside(st, id);
    case _ =>
  }

  lemma StartOutside(st: State)
    requires st.queue != []
    ensures forall x :: Outside(Start(st), x) <==> Outside(st, x)
  {
    assert forall x :: x in st.queue <==> x == st.queue[0] || x in st.queue[1..];
  }

  lemma RequeueOutside(st: State, id: Id)
    requires id in st.driver
    ensures forall x :: Outside(Requeue(st, id), x) <==> Outside(st, x)
  {
    RequeueEffect(st, id);
  }

  lemma RequeueEffect(st: State, id: Id)
    ensures var st' := Requeue(st, id);
            && st'.queue == [id] + st.queue && st'.driver == st.driver - {id} && st'.sched == st.sched
            && st'.rqs.Keys == st.rqs.Keys && (forall x :: x != id ==> Rq(st', x) == Rq(st, x))
  {
  }

  lemma InsertOutside(st: State, id: Id, at: Where, env: Env)
    requires Inv(st) && MayInsert(st, id, at)
    ensures forall x :: Outside(AddRequest(st, id, at, env).st, x) <==> Outside(st, x) && x != id
  {
    assert Fresh(Rq(st, id));
    match Redirect(Rq(st, id), at)
    case Front => assert InsertFront(st, id).queue == [id] + st.queue;
    case Back => InsertBackOutside(st, id);
    case _ => SortSettles(st, id, at, env);
  }

  lemma InsertBackOutside(st: State, id: Id)
    requires Inv(st) && Outside(st, id)
    ensures forall x :: Outside(InsertBack(st, id), x) <==> Outside(st, x) && x != id
  {
    BarrierOk(st, id);
    var st1 := SetRq(st, id, Rq(st, id).(softBarrier := true));
    DrainOk(st1, {id});
    assert forall x :: Outside(st1, x) <==> Outside(st, x);
    assert forall x :: Outside(InsertBack(st, id), x) <==> Outside(Drain(st1), x) && x != id;
  }

  lemma PeekHeadOutside(st: State)
    requires st.queue != []
    ensures forall x :: Outside(PeekHead(st), x) <==> Outside(st, x)
  {
    var st' := PeekHead(st);
    assert st'.rqs.Keys == st.rqs.Keys && st'.sched == st.sched && st'.queue == st.queue && st'.driver == st.driver;
  }

  lemma PeekOutside(st: State, flushHeld: bool, bypass: bool)
    requires Inv(st)
    ensures forall x :: Outside(Peek(st, flushHeld, bypass), x) <==> Outside(st, x)
  {
    GreedyDispatchOk(st, {});
    var st1 := NextRequest(st, flushHeld, bypass);
    if st1.queue != [] {
      PeekHeadOutside(st1);
    }
  }

  lemma SpentKept(st: State, h: History, early: set<Id>, b: Id, e: Event)
    requires Inv(st) && Enabled(st, e) && NewName(h, early, b, e) && Spent(st, h)
    ensures Spent(Step(st, e), Record(h, st, e))
  {
    OutsideExact(st, e);
    var st', h' := Step(st, e), Record(h, st, e);
    forall x | Outside(st', x) ensures x !in h'.left {
      if e.StartHead? {
        assert st.queue[0] in st'.driver;
      }
    }
  }

  lemma EarlierGrows(left: seq<Id>, more: seq<Id>, x: Id, y: Id)
    requires Earlier(left, x, y)
    ensures Earlier(left + more, x, y)
  {
    var i, j :| 0 <= i < j < |left| && left[i] == x && left[j] == y;
    assert (left + more)[i] == x && (left + more)[j] == y;
  }

  /** Once B has left, the fence stays. */
  lemma FencedKept(st: State, h: History, early: set<Id>, b: Id, e: Event)
    requires Inv(st) && Enabled(st, e) && Spent(st, h) && b in h.left && Fenced(h, early, b)
    ensures var h' := Record(h, st, e);
            b in h'.left && Fenced(h', early, b)
  {
    OutsideExact(st, e);
    if e.StartHead? && st.queue[0] !in h.left {
      var id, left := st.queue[0], h.left + [st.queue[0]];
      forall x | x in early ensures Earlier(left, x, b) {
        EarlierGrows(h.left, [id], x, b);
      }
      forall y | y in h.later && y in left ensures Earlier(left, b, y) {
        if y in h.left {
          EarlierGrows(h.left, [id], b, y);
        } else {
          var i :| 0 <= i < |h.left| && h.left[i] == b;
          assert left[i] == b && left[|h.left|] == y;
        }
      }
    }
  }

  /** Events that touch neither the queue nor what is inserted. */
  ghost predicate Quiet(e: Event) {
    e.Partly? || e.Abandon? || e.Forbid? || e.SetMerging?
  }

  lemma QuietBehind(st: State, e: Event, b: Id)
    requires Inv(st) && Enabled(st, e) && Quiet(e) && b in st.queue
    ensures BehindOnly(st, Step(st, e), b)
  {
  }

  lemma WaitingStep(st: State, h: History, early: set<Id>, b: Id, e: Event)
    requires Inv(st) && Enabled(st, e) && NewName(h, early, b, e) && Spent(st, h) && Waiting(st, h, early, b)
    ensures var h' := Record(h, st, e);
            Waiting(Step(st, e), h', early, b) || (b in h'.left && Fenced(h', early, b))
  {
    match e
    case Arrive(id, r) => BehindKeepsWaitingOrNew(st, Step(st, e), h, early, b, id);
    case Insert(id, at, env) => InsertKeepsWaiting(st, id, at, env, h, early, b);
    case SubmitBio(sub, env) =>
      MergeBioSettles(st, sub, env);
      SettlesIsBehind(st, Step(st, e), b);
      BehindKeepsWaiting(st, Step(st, e), h, early, b);
    case DrainAll =>
      DrainBehind(st, b, {});
      BehindKeepsWaiting(st, Step(st, e), h, early, b);
    case PeekNext(f, y) =>
      PeekBehind(st, f, y, b);
      BehindKeepsWaiting(st, Step(st, e), h, early, b);
    case StartHead => StartStep(st, h, early, b);
    case GiveBack(id) => GiveBackKeepsWaiting(st, h, early, b, id);
    case Finish(id) => FinishKeepsWaiting(st, Step(st, e), h, early, b, id);
    case SwapScheduler(_) => SwapKeepsWaiting(st, Step(st, e), h, early, b);
    case _ =>
      QuietBehind(st, e, b);
      BehindKeepsWaiting(st, Step(st, e), h, early, b);
  }

  lemma StartStep(st: State, h: History, early: set<Id>, b: Id)
    requires Inv(st) && Waiting(st, h, early, b)
    ensures var h' := Record(h, st, StartHead);
            Waiting(Start(st), h', early, b) || (b in h'.left && Fenced(h', early, b))
  {
    if st.queue[0] == b {
      LeavingFences(st, h, early, b);
    } else {
      StartKeepsWaiting(st, h, early, b);
    }
  }

  lemma GiveBackKeepsWaiting(st: State, h: History, early: set<Id>, b: Id, id: Id)
    requires Inv(st) && Waiting(st, h, early, b) && id in st.driver
    ensures Waiting(Requeue(st, id), h, early, b)
  {
    RequeueEffect(st, id);
    FrontKeepsWaiting(st, Requeue(st, id), h, early, b, id);
  }

  lemma BehindKeepsWaitingOrNew(st: State, st': State, h: History, early: set<Id>, b: Id, id: Id)
    requires Waiting(st, h, early, b) && id !in h.later && id !in st.rqs && id != b
    requires st'.queue == st.queue && st'.driver == st.driver && st'.sched == st.sched
    requires forall x :: x != id ==> (x in st'.rqs <==> x in st.rqs) && Rq(st', x) == Rq(st, x)
    ensures Waiting(st', h, early, b)
  {
    assert forall x :: Outside(st', x) ==> Outside(st, x) || x == id;
    assert forall x :: Pending(st', x) ==> Pending(st, x);
  }

  lemma SwapKeepsWaiting(st: State, st': State, h: History, early: set<Id>, b: Id)
    requires Waiting(st, h, early, b) && PendingCount(st) == 0 && PendingCount(st') == 0
    requires st' == st.(sched := st'.sched)
    ensures Waiting(st', h, early, b)
  {
    assert forall x :: Outside(st', x) ==> Outside(st, x);
    assert forall x :: !Pending(st', x);
  }

  lemma FinishKeepsWaiting(st: State, st': State, h: History, early: set<Id>, b: Id, id: Id)
    requires Inv(st) && Waiting(st, h, early, b) && id in st.driver && st' == Complete(st, id)
    ensures Waiting(st', h, early, b)
  {
    assert forall x :: Outside(st', x) ==> Outside(st, x);
    assert forall x :: Pending(st', x) ==> Pending(st, x);
    assert b in st.rqs && Rq(st', b) == Rq(st, b);
  }

  lemma PeekBehind(st: State, flushHeld: bool, bypass: bool, b: Id)
    requires b in st.queue
    ensures BehindOnly(st, Peek(st, flushHeld, bypass), b)
  {
    assert NextRequest(st, flushHeld, bypass) == st;
    var st' := PeekHead(st);
    assert st'.rqs.Keys == st.rqs.Keys && st'.sched == st.sched && st'.queue == st.queue && st'.driver == st.driver;
  }

  lemma InsertKeepsWaiting(st: State, id: Id, at: Where, env: Env, h: History, early: set<Id>, b: Id)
    requires Inv(st) && MayInsert(st, id, at) && Spent(st, h) && Waiting(st, h, early, b)
    ensures Waiting(AddRequest(st, id, at, env).st, Record(h, st, Insert(id, at, env)), early, b)
  {
    assert Fresh(Rq(st, id)) && id != b;
    var st' := AddRequest(st, id, at, env).st;
    match Redirect(Rq(st, id), at)
    case Front => FrontKeepsWaiting(st, st', h, early, b, id);
    case Back => BackKeepsWaiting(st, id, at != Back, h, early, b);
    case _ =>
      SortSettles(st, id, at, env);
      SortKeepsWaiting(st, st', h, early, b, id);
  }

  /** A back insertion, asked for as such or redirected from a sort insertion. */
  lemma BackKeepsWaiting(st: State, id: Id, redirected: bool, h: History, early: set<Id>, b: Id)
    requires Inv(st) && Outside(st, id) && Spent(st, h) && Waiting(st, h, early, b) && id != b
    ensures Waiting(InsertBack(st, id), if redirected then h.(later := h.later + {id}) else h, early, b)
  {
    InsertBackBehind(st, id, b);
    if redirected {
      RedirectKeepsWaiting(st, InsertBack(st, id), h, early, b, id);
    } else {
      BehindKeepsWaiting(st, InsertBack(st, id), h, early, b);
    }
  }

  // -------------------------------------------------------------------- theorem

  lemma {:induction false} HoldingRun(st: State, h: History, early: set<Id>, b: Id, es: seq<Event>)
    requires Inv(st) && Holding(st, h, early, b) && Watched(st, h, early, b, es)
    ensures Fenced(Final(st, h, early, b, es), early, b)
    decreases |es|
  {
    if es == [] {
      assert Fenced(h, early, b);
    } else {
      var e := es[0];
      StepKeepsInv(st, e);
      SpentKept(st, h, early, b, e);
      if Waiting(st, h, early, b) {
        WaitingStep(st, h, early, b, e);
      } else {
        FencedKept(st, h, early, b, e);
      }
      HoldingRun(Step(st, e), Record(h, st, e), early, b, es[1..]);
    }
  }

  lemma BackRaises(st: State, b: Id)
    requires Inv(st) && Outside(st, b)
    ensures Holding(InsertBack(st, b), History([], {}), Held(st), b)
  {
    BarrierOk(st, b);
    var st1 := SetRq(st, b, Rq(st, b).(softBarrier := true));
    DrainOk(st1, {b});
    DrainKeepsAll(st1, {b});
    assert Held(st1) == Held(st);
    DrainedAll(st1, Drain(st1), b);
    Raised(Drain(st1), Held(st), b);
  }

  /** Just after the back insertion B waits behind everything the elevator held. */
  lemma FenceRaised(st: State, b: Id, env: Env)
    requires Inv(st) && Outside(st, b)
    ensures var st' := AddRequest(st, b, Back, env).st;
            Inv(st') && Holding(st', History([], {}), Held(st), b)
  {
    assert Fresh(Rq(st, b));
    InsertBackOk(st, b);
    BackRaises(st, b);
  }

  lemma DrainedAll(st: State, st': State, b: Id)
    requires Outside(st, b) && forall x :: Pending(st, x) || x in st.queue ==> x in st'.queue
    ensures forall x :: x in Held(st) ==> x in st'.queue && x != b
  {
    forall x | x in Held(st) ensures x in st'.queue && x != b {
      assert Pending(st, x) || x in st.queue;
    }
  }

  lemma Raised(st: State, early: set<Id>, b: Id)
    requires Outside(st, b) && PendingCount(st) == 0 && Rq(st, b).softBarrier
    requires forall x :: x in early ==> x in st.queue && x != b
    ensures Holding(st.(queue := st.queue + [b]), History([], {}), early, b)
  {
    var q := st.queue + [b];
    assert q[..|st.queue|] == st.queue;
    IndexOfIs(q, b, |st.queue|);
    assert Ahead(q, b) == st.queue;
  }

  /** Draining loses nothing: everything pending is queued afterwards. */
  lemma {:induction false} DrainKeepsAll(st: State, but: set<Id>)
    requires InvDuring(st, but)
    ensures forall x :: Pending(st, x) || x in st.queue ==> x in Drain(st).queue
    decreases PendingCount(st)
  {
    if PendingCount(st) > 0 {
      GreedyDispatchOk(st, but);
      GreedyDispatchMoves(st);
      var id := GreedyTarget(st.sched, st.rqs).value;
      MovesPlaced(st, GreedyDispatch(st), id, DispatchPoint(st, id));
      DrainKeepsAll(GreedyDispatch(st), but);
    }
  }

  /**
   The fence theorem: back-insert B in any state satisfying the invariant, then run on in any way.
   If B has left the dispatch queue, everything the elevator held at its insertion left earlier; and
   whatever was sort-inserted afterwards and has left, left after B.
   */
  lemma BackInsertIsFence(st: State, b: Id, env: Env, es: seq<Event>)
    requires Inv(st) && Outside(st, b)
    requires Watched(AddRequest(st, b, Back, env).st, History([], {}),
                     Held(st), b, es)
    ensures Fenced(Final(AddRequest(st, b, Back, env).st, History([], {}), Held(st), b, es), Held(st), b)
  {
    FenceRaised(st, b, env);
    HoldingRun(AddRequest(st, b, Back, env).st, History([], {}), Held(st), b, es);
  }
}
