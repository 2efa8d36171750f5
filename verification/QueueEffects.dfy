/**
 What a caller of the request queue may rely on after each operation: what was freed, where the
 request now is, what the elevator holds and how the in-flight counts moved.
 */
module QueueEffects {
  import opened Types
  import opened Lists
  import opened BioChains
  import opened Requests
  import opened Elevator
  import opened ElevatorSafety
  import opened AllocatorBalance
  import opened MergeCascade
  import opened BackFence
  import opened WorkConserving
  import opened BugOns

  /** The requests that are gone are exactly those given back, per class and for ELVPRIV. */
  ghost predicate FreesExactly(st: State, st': State, freed: seq<Request>) {
    forall q :: Booked(q) ==> Balanced(st, st', freed, q)
  }

  // ---------------------------------------------------------------- insertion

  /** Where an insertion at `at` leaves the request. */
  ghost predicate AddedAt(st: State, st': State, id: Id, at: Where) {
    match at
    case Front => st'.queue == [id] + st.queue && PendingCount(st') == PendingCount(st)
    case Back =>
      && PendingCount(st') == 0 && st'.queue != [] && st'.queue[|st'.queue| - 1] == id
      && forall x :: InElevator(st, x) ==> x in st'.queue[..|st'.queue| - 1]
    case _ =>
      && Pending(st', id) && PendingCount(st') == PendingCount(st) + 1 && st'.queue == st.queue
      && (Mergeable(Rq(st, id)) && st.lastMerge == None ==> st'.lastMerge == Some(id))
  }

  /** The request was merged away, or is where the insertion puts it; no other request left its owner. */
  ghost predicate Added(st: State, st': State, id: Id, at: Where, freed: seq<Request>) {
    && FreesExactly(st, st', freed)
    && (forall x :: Outside(st', x) <==> Outside(st, x) && x != id)
    && (freed != [] ==> at == SortMerge && id !in st'.rqs)
    && (freed == [] && at == Front ==> AddedAt(st, st', id, Front))
    && (freed == [] && (at == Back || (at != Front && !Rq(st, id).elvPriv)) ==> AddedAt(st, st', id, Back))
    && (freed == [] && (at == Sort || at == SortMerge) && Rq(st, id).elvPriv ==> AddedAt(st, st', id, Sort))
  }

  lemma SortedEffect(st: State, id: Id)
    requires Placed(st) && Outside(st, id)
    ensures AddedAt(st, InsertSorted(st, id), id, Sort)
  {
    InsertSortedQueues(st, id);
    QueuesPlaced(st, InsertSorted(st, id), id, SortedAs(st.rqs[id]), GreedyPoint(st, id));
  }

  lemma BackEffect(st: State, id: Id)
    requires Inv(st) && Outside(st, id)
    ensures AddedAt(st, InsertBack(st, id), id, Back)
  {
    BarrierOk(st, id);
    var st1 := SetRq(st, id, Rq(st, id).(softBarrier := true));
    DrainKeepsAll(st1, {id});
    AppendEffect(st, Drain(st1), id);
  }

  lemma BackInsertEffect(st: State, id: Id)
    requires Inv(st) && Outside(st, id)
    ensures Inv(InsertBack(st, id)) && AddedAt(st, InsertBack(st, id), id, Back)
  {
    InsertBackOk(st, id);
    BackEffect(st, id);
  }

  lemma AppendEffect(st: State, st1: State, id: Id)
    requires PendingCount(st1) == 0 && forall x :: Pending(st, x) || x in st.queue ==> x in st1.queue
    ensures AddedAt(st, st1.(queue := st1.queue + [id]), id, Back)
  {
    assert (st1.queue + [id])[..|st1.queue|] == st1.queue;
  }

  lemma {:induction false} TraceKeys(st: State, id: Id, tr: Turns)
    requires Traces(st, id, tr)
    ensures LastState(tr).rqs.Keys <= st.rqs.Keys
    ensures tr.Turn? ==> id !in LastState(tr).rqs
    decreases tr
  {
    if tr.Turn? {
      TraceKeys(tr.merged, tr.target, tr.rest);
    }
  }

  lemma MergedAway(st: State, id: Id, env: Env)
    requires Inv(st) && Outside(st, id) && WellFormed(Rq(st, id).body)
    ensures InsertMerge(st, id, env).freed != [] ==> id !in InsertMerge(st, id, env).st.rqs
  {
    if !st.noMerges && !st.noXMerges {
      var tr := CascadeTraces(st, id, env);
      TraceKeys(st, id, tr);
    }
  }

  lemma SortMergeEffect(st: State, id: Id, env: Env)
    requires Inv(st) && MayInsert(st, id, SortMerge)
    ensures var m := InsertMerge(st, id, env);
            if m.freed == [] then AddedAt(st, InsertSorted(m.st, id), id, Sort) else id !in m.st.rqs
  {
    MergedAway(st, id, env);
    InsertMergeOk(st, id, env);
    var m := InsertMerge(st, id, env);
    if m.freed == [] {
      assert Outside(m.st, id);
      SortedEffect(m.st, id);
    }
  }

  lemma PlaceEffect(st: State, id: Id, at: Where, env: Env)
    requires Inv(st) && MayInsert(st, id, at)
    ensures var m := AddRequest(st, id, at, env);
            if m.freed == [] then
              AddedAt(st, m.st, id, if at != Front && at != Back && !Rq(st, id).elvPriv then Back else at)
            else
              at == SortMerge && id !in m.st.rqs
  {
    assert Fresh(Rq(st, id));
    match Redirect(Rq(st, id), at)
    case Front =>
    case Back => BackEffect(st, id);
    case Sort => SortedEffect(st, id);
    case SortMerge => SortMergeEffect(st, id, env);
  }

  /** __elv_add_request keeps the invariant and does what its callers expect. */
  lemma AddRequestEffect(st: State, id: Id, at: Where, env: Env)
    requires Inv(st) && MayInsert(st, id, at)
    ensures var m := AddRequest(st, id, at, env); Inv(m.st) && Added(st, m.st, id, at, m.freed)
  {
    AddRequestOk(st, id, at, env);
    PlaceEffect(st, id, at, env);
    InsertOutside(st, id, at, env);
    var m := AddRequest(st, id, at, env);
    forall q | Booked(q) ensures Balanced(st, m.st, m.freed, q) {
      AddRequestBalanced(st, id, at, env, q);
    }
  }

  // ---------------------------------------------------------------- bio merges

  /** A merged bio is pending once more with exactly its sectors; queue, driver and the owners' requests stay. */
  ghost predicate BioTaken(st: State, st': State, bio: Bio, merged: bool, freed: seq<Request>) {
    && FreesExactly(st, st', freed)
    && (if merged then AddsBio(st, st', bio) else KeepsBios(st, st') && freed == [])
    && Settles(st, st', {})
    && (merged ==> CachesBio(st', bio))
  }

  /** last_merge is the request that now holds the bio. */
  ghost predicate CachesBio(st: State, bio: Bio) {
    && st.lastMerge.Some? && Pending(st, st.lastMerge.value)
    && var r := Rq(st, st.lastMerge.value);
       Pos(r) <= bio.sector && BioEnd(bio) <= End(r) && bio.id in Ids(r.body.bios)
  }

  lemma BackMergeCaches(st: State, id: Id, bio: Bio, env: Env)
    requires Inv(st) && Pending(st, id) && WholeBio(bio) && bio.sector == End(Rq(st, id))
    ensures CachesBio(BackMergeBio(st, id, bio, env).st, bio)
  {
    GrowBackOk(st, id, bio);
    assert PendingOk(Rq(st, id));
    AppendExtends(Rq(st, id).body, bio);
    NonEmptyRange(Rq(st, id).body);
    var r := Rq(st, id).(body := Append(Rq(st, id).body, bio));
    var st1 := SetRq(st, id, r);
    assert Ids(r.body.bios)[|Rq(st, id).body.bios|] == bio.id;
    LatterPending(st1, id);
    var next := LatterRequest(st1.sched, id);
    if next.Some? && Joins(st1, id, next.value, env) {
      JoinCaches(st1, id, next.value, bio);
    } else {
      RepositionCaches(st1, id, bio);
    }
  }

  lemma RepositionCaches(st: State, id: Id, bio: Bio)
    requires Pending(st, id) && id in st.rqs
    requires var r := Rq(st, id); Pos(r) <= bio.sector && BioEnd(bio) <= End(r) && bio.id in Ids(r.body.bios)
    ensures CachesBio(Reposition(st, id).(lastMerge := Some(id)), bio)
  {
    assert Rq(Reposition(st, id), id) == Rq(st, id).(hashed := true);
  }

  lemma JoinCaches(st: State, id: Id, next: Id, bio: Bio)
    requires InvBut(st, {id}) && Pending(st, id) && Pending(st, next) && id != next && CanJoin(Rq(st, id), Rq(st, next))
    requires var a, n := Rq(st, id), Rq(st, next);
             && Pos(a) <= bio.sector && BioEnd(bio) <= End(n)
             && (bio.id in Ids(a.body.bios) || bio.id in Ids(n.body.bios))
    ensures CachesBio(MergeRequests(st, id, next).st, bio)
  {
    assert PendingOk(Rq(st, next)) && PendingOk(Rq(st, id));
    MergeRequestsOk(st, id, next);
    JoinExtends(Rq(st, id).body, Rq(st, next).body);
  }

  lemma FrontMergeCaches(st: State, id: Id, bio: Bio, env: Env)
    requires Inv(st) && Pending(st, id) && WholeBio(bio) && BioEnd(bio) == Pos(Rq(st, id))
    ensures CachesBio(FrontMergeBio(st, id, bio, env).st, bio)
  {
    GrowFrontOk(st, id, bio);
    assert PendingOk(Rq(st, id));
    PrependExtends(Rq(st, id).body, bio);
    NonEmptyRange(Rq(st, id).body);
    var r := Rq(st, id).(body := Prepend(Rq(st, id).body, bio));
    var st1 := SetRq(st, id, r);
    assert Ids(r.body.bios)[0] == bio.id;
    FormerPending(st1, id);
    var prev := FormerRequest(st1.sched, id);
    if prev.Some? && Joins(st1, prev.value, id, env) {
      assert PendingOk(Rq(st1, prev.value));
      NonEmptyRange(Rq(st1, prev.value).body);
      InvStale(st1, prev.value);
      JoinCaches(st1, prev.value, id, bio);
    }
  }

  lemma MergeBioCaches(st: State, sub: Submission, env: Env)
    requires Inv(st) && WholeBio(sub.bio) && MergeBio(st, sub, env).merged
    ensures CachesBio(MergeBio(st, sub, env).st, sub.bio)
  {
    ElvMergeOk(st, sub, env);
    var c := ElvMerge(st, sub, env);
    if c.kind.BackMerge? {
      BackMergeCaches(c.st, c.kind.id, sub.bio, env);
    } else {
      FrontMergeCaches(c.st, c.kind.id, sub.bio, env);
    }
  }

  lemma MergeBioEffect(st: State, sub: Submission, env: Env)
    requires Inv(st) && WholeBio(sub.bio)
    ensures var m := MergeBio(st, sub, env); Inv(m.st) && BioTaken(st, m.st, sub.bio, m.merged, m.freed)
  {
    MergeBioOk(st, sub, env);
    MergeBioConserves(st, sub, env);
    MergeBioSettles(st, sub, env);
    var m := MergeBio(st, sub, env);
    if m.merged {
      MergeBioCaches(st, sub, env);
    }
    forall q | Booked(q) ensures Balanced(st, m.st, m.freed, q) {
      MergeBioBalanced(st, sub, env, q);
    }
  }

  // ---------------------------------------------------------------- the driver

  /** Peeking loses nothing; it returns null exactly when it may not or need not dispatch, else the started head. */
  ghost predicate PeekedAt(st: State, st': State, flushHeld: bool, bypass: bool, rq: Option<Id>) {
    && Held(st') == Held(st) && st'.driver == st.driver && st'.inFlight == st.inFlight
    && (rq.None? <==> st.queue == [] && (flushHeld || bypass || PendingCount(st) == 0))
    && (rq.Some? ==> st'.queue != [] && rq.value == st'.queue[0] && Rq(st', rq.value).started)
  }

  lemma PeekEffect(st: State, flushHeld: bool, bypass: bool)
    requires Inv(st)
    ensures var st' := Peek(st, flushHeld, bypass);
            Inv(st') && PeekedAt(st, st', flushHeld, bypass, if st'.queue == [] then None else Some(st'.queue[0]))
  {
    PeekOk(st, flushHeld, bypass);
    NextKeepsHeld(st, flushHeld, bypass);
    NextKeepsDriver(st, flushHeld, bypass);
    var st1 := NextRequest(st, flushHeld, bypass);
    if st1.queue != [] {
      HeadPeeked(st1);
    }
  }

  lemma NextKeepsDriver(st: State, flushHeld: bool, bypass: bool)
    requires Placed(st)
    ensures var st' := NextRequest(st, flushHeld, bypass); st'.driver == st.driver && st'.inFlight == st.inFlight
  {
    if PendingCount(st) > 0 {
      GreedyDispatchMoves(st);
    }
  }

  lemma HeadPeeked(st: State)
    requires Placed(st) && st.queue != []
    ensures var st' := PeekHead(st);
            && st'.queue == st.queue && Held(st') == Held(st) && Rq(st', st.queue[0]).started
            && st'.driver == st.driver && st'.inFlight == st.inFlight
  {
    assert st.queue[0] in st.rqs;
  }

  /** Only the class of an accounted request is counted differently. */
  ghost predicate InFlightMoved(st: State, st': State, r: Request, delta: int) {
    forall s :: st'.inFlight.Get(s) == st.inFlight.Get(s) + (if Accounted(r) && IsSync(r) == s then delta else 0)
  }

  /** The head of the queue has moved to the driver. */
  ghost predicate HandedOver(st: State, st': State, id: Id) {
    && Held(st') == Held(st) - {id} && id in st'.driver && id !in st.driver
    && InFlightMoved(st, st', Rq(st, id), 1)
  }

  lemma StartEffect(st: State)
    requires Inv(st) && st.queue != [] && Rq(st, st.queue[0]).started
    ensures Inv(Start(st)) && HandedOver(st, Start(st), st.queue[0])
  {
    StartOk(st);
    StartTakesHead(st);
  }

  /** The driver's request is back at the head of the queue, as a barrier that has not been started. */
  ghost predicate HandedBack(st: State, st': State, id: Id) {
    && id !in st'.driver && st'.queue == [id] + st.queue && st'.sched == st.sched
    && !Rq(st', id).started && Rq(st', id).softBarrier
    && InFlightMoved(st, st', Rq(st, id), -1)
    && (if Rq(st, id).softBarrier && Rq(st, id).fs then
          st'.boundary == Some(id) && st'.endSector == End(Rq(st, id))
        else
          st'.boundary == st.boundary && st'.endSector == st.endSector)
  }

  lemma RequeueEffects(st: State, id: Id)
    requires Inv(st) && id in st.driver
    ensures Inv(Requeue(st, id)) && HandedBack(st, Requeue(st, id), id)
  {
    RequeueOk(st, id);
    RequeueEffect(st, id);
  }

  /** The request is gone, and given back to the allocator. */
  ghost predicate PutAway(st: State, st': State, id: Id) {
    && id !in st'.rqs && !InElevator(st', id) && id !in st'.driver
    && InFlightMoved(st, st', Rq(st, id), -1) && FreesExactly(st, st', [Rq(st, id)])
  }

  lemma CompleteEffect(st: State, id: Id)
    requires Inv(st) && id in st.driver
    ensures Inv(Complete(st, id)) && PutAway(st, Complete(st, id), id)
  {
    CompleteOk(st, id);
    var st' := Complete(st, id);
    forall q | Booked(q) ensures Balanced(st, st', [Rq(st, id)], q) {
      RemovalBalanced(st, st', id, q);
    }
  }

  lemma BumpUndone(f: Counts, r: Request)
    ensures Bump(Bump(f, r, 1), r, -1) == f
  {
  }

  /** Starting a request and giving it back leaves the in-flight counts and the driver as they were. */
  lemma StartRequeueRoundTrip(st: State)
    requires Placed(st) && st.queue != []
    ensures var st' := Requeue(Start(st), st.queue[0]);
            st'.inFlight == st.inFlight && st'.driver == st.driver && st'.queue == st.queue
  {
    var id, st1 := st.queue[0], Start(st);
    RequeueEffect(st1, id);
    BumpUndone(st.inFlight, Rq(st, id));
    RequeueFlight(st1, id);
    assert [id] + st.queue[1..] == st.queue;
    assert id in st.queue && st.driver + {id} - {id} == st.driver;
  }

  lemma RequeueFlight(st: State, id: Id)
    ensures Requeue(st, id).inFlight == Bump(st.inFlight, Rq(st, id), -1)
  {
  }

  // ------------------------------------------------------------- list building

  /** The request was linked into the list on its side of prev_pos, and into no other. */
  ghost predicate LinkedOnSide(st: State, st': State, id: Id) {
    if Pos(Rq(st, id)) < st.sched.prevPos then
      st'.sched.higher == st.sched.higher && multiset(st'.sched.lower) == multiset(st.sched.lower) + multiset{id}
    else
      st'.sched.lower == st.sched.lower && multiset(st'.sched.higher) == multiset(st.sched.higher) + multiset{id}
  }

  lemma InsertMultiset(s: seq<Id>, k: nat, id: Id)
    requires k <= |s|
    ensures multiset(InsertAt(s, k, id)) == multiset(s) + multiset{id}
  {
    assert s == s[..k] + s[k..];
  }

  lemma AddBehindMultiset(list: seq<Id>, k: nat, id: Id)
    requires k <= |list|
    ensures multiset(AddBehind(list, k, id)) == multiset(list) + multiset{id}
  {
    InsertMultiset(list, if k == |list| then 0 else k + 1, id);
  }

  lemma GreedyAddEffect(st: State, id: Id)
    ensures LinkedOnSide(st, GreedyAdd(st, id), id)
  {
    var pos := Pos(Rq(st, id));
    AddBehindMultiset(st.sched.lower, FirstBelow(st.sched.lower, st.rqs, pos, 0), id);
    AddBehindMultiset(st.sched.higher, FirstAbove(st.sched.higher, st.rqs, pos, 0), id);
  }

  /** The request entered the dispatch queue, whose other requests keep their order, and left hash, cache and count. */
  ghost predicate LeftFor(st: State, st': State, id: Id) {
    && id in st'.queue && (id !in st.queue ==> Without(st'.queue, id) == st.queue)
    && !OnHash(st'.sched.hash, id) && st'.lastMerge != Some(id) && st'.nrSorted == st.nrSorted - 1
    && (if st.sortDispatch then st'.boundary == st.boundary && st'.endSector == st.endSector
        else st'.queue == st.queue + [id] && st'.boundary == Some(id) && st'.endSector == End(Rq(st, id)))
  }

  lemma {:induction false} WithoutInserted(s: seq<Id>, k: nat, id: Id)
    requires k <= |s| && id !in s
    ensures Without(InsertAt(s, k, id), id) == s
    decreases k
  {
    var u := InsertAt(s, k, id);
    if k == 0 {
      assert u == [id] + s && u[1..] == s;
    } else {
      var v := InsertAt(s[1..], k - 1, id);
      assert u == [s[0]] + v && u[1..] == v;
      WithoutInserted(s[1..], k - 1, id);
    }
  }

  lemma DispatchEffect(st: State, id: Id)
    ensures LeftFor(st, DispatchInsert(st, id), id)
  {
    var st1 := LeaveElevator(st, id);
    LeaveEffect(st, id);
    var k :=
      if st.sortDispatch then SortPoint(st1.queue, st1.rqs, Rq(st1, id), st1.endSector, |st1.queue|)
      else |st1.queue|;
    assert DispatchInsert(st, id).queue == InsertAt(st1.queue, k, id);
    if id !in st.queue {
      WithoutInserted(st.queue, k, id);
    }
  }

  lemma LeaveEffect(st: State, id: Id)
    ensures var st1 := LeaveElevator(st, id);
            && st1.queue == st.queue && st1.sortDispatch == st.sortDispatch
            && st1.boundary == st.boundary && st1.endSector == st.endSector && End(Rq(st1, id)) == End(Rq(st, id))
            && !OnHash(st1.sched.hash, id) && st1.lastMerge != Some(id) && st1.nrSorted == st.nrSorted - 1
  {
    DropOnHash(st.sched.hash, id);
  }

  /** The situation of elv_merge_requests: only the hash entry of the surviving request is stale. */
  ghost predicate ReadyToRelink(st: State, id: Id, next: Id) {
    InvBut(st, {id}) && Pending(st, id) && (Pending(st, next) || Outside(st, next)) && id != next
  }

  /** The survivor has one node under its end sector; the other request is on no list and not hashed. */
  lemma RelinkEffect(st: State, id: Id, next: Id)
    requires ReadyToRelink(st, id, next)
    ensures var st' := ElvMergeRequests(st, id, next); Relinks(st, st', id, next) && !PutTrips(st', next)
  {
    assert IdOk(st, next);
    if Outside(st, next) {
      assert Fresh(Rq(st, next));
    } else {
      assert PendingOk(Rq(st, next));
    }
    ElvMergeRelinks(st, id, next);
    UnlinkedAfterRelink(st, id, next);
  }
}
