/**
 What every operation of the elevator keeps: each request is in one place, the counters agree with
 the lists, the merge hash is exact and no cached pointer dangles.
 */
module ElevatorSafety {
  import opened Types
  import opened Lists
  import opened BioChains
  import opened Requests
  import opened Elevator

  // -------------------------------------------------------------- invariant

  /** No request is in two places, and every place holds initialised requests. */
  ghost predicate Placed(st: State) {
    && NoDup(st.sched.higher) && NoDup(st.sched.lower) && NoDup(st.queue)
    && (forall id :: id in st.sched.higher ==>
          id in st.rqs && id !in st.sched.lower && id !in st.queue && id !in st.driver)
    && (forall id :: id in st.sched.lower ==> id in st.rqs && id !in st.queue && id !in st.driver)
    && (forall id :: id in st.queue ==> id in st.rqs && id !in st.driver)
    && (forall id :: id in st.driver ==> id in st.rqs)
  }

  ghost predicate Outside(st: State, id: Id) {
    id in st.rqs && !Pending(st, id) && id !in st.queue && id !in st.driver
  }

  /** Linked on a greedy list or on the dispatch queue. */
  predicate InElevator(st: State, id: Id) { Pending(st, id) || id in st.queue }

  /** Everything the elevator holds, pending or queued for dispatch. */
  ghost function Held(st: State): set<Id> {
    Elements(st.sched.higher) + Elements(st.sched.lower) + Elements(st.queue)
  }

  ghost predicate PendingOk(r: Request) {
    r.sorted && r.fs && r.elvPriv && !r.started && !r.softBarrier && WellFormed(r.body)
  }

  /** Pending requests belong to the elevator; requests outside it, except those in `but`, are untouched. */
  ghost predicate FlagsBut(st: State, but: set<Id>) {
    && (forall id :: Pending(st, id) ==> PendingOk(Rq(st, id)))
    && (forall id :: Outside(st, id) && id !in but ==> Fresh(Rq(st, id)))
  }

  ghost predicate Flags(st: State) { FlagsBut(st, {}) }

  /** nr_sorted counts the greedy lists; in_flight[s] counts started fs requests at the driver. */
  ghost predicate Counted(st: State) {
    && st.nrSorted == PendingCount(st)
    && (forall s :: st.inFlight.Get(s) == Count(st.driver, st.rqs, InFlight(s)))
  }

  ghost predicate OnHash(hash: seq<Entry>, id: Id) {
    exists e :: e in hash && e.id == id
  }

  ghost predicate NoDupIds(hash: seq<Entry>) {
    forall i, j :: 0 <= i < j < |hash| ==> hash[i].id != hash[j].id
  }

  /**
   The hash is right about `id`: hashed means pending under the current end sector, and a mergeable
   pending request is hashed.
   */
  ghost predicate IdOk(st: State, id: Id) {
    && (forall e :: e in st.sched.hash && e.id == id ==>
          Pending(st, id) && e.key == End(Rq(st, id)) && Rq(st, id).hashed)
    && (Rq(st, id).hashed ==> OnHash(st.sched.hash, id))
    && (Pending(st, id) && Mergeable(Rq(st, id)) ==> Rq(st, id).hashed)
  }

  /** The hash is right about every request outside `but`. */
  ghost predicate HashOkBut(st: State, but: set<Id>) {
    NoDupIds(st.sched.hash) && forall id :: id !in but ==> IdOk(st, id)
  }

  /** last_merge is null or pending; boundary_rq is null or a queued request not yet started. */
  ghost predicate Pointers(st: State) {
    && (st.lastMerge.Some? ==> Pending(st, st.lastMerge.value))
    && (st.boundary.Some? ==> st.boundary.value in st.queue && !Rq(st, st.boundary.value).started)
  }

  /** The invariant while the hash is stale about the requests in `but`. */
  ghost predicate InvBut(st: State, but: set<Id>) {
    Placed(st) && Flags(st) && Counted(st) && HashOkBut(st, but) && Pointers(st)
  }

  ghost predicate Inv(st: State) { InvBut(st, {}) }

  // ------------------------------------------------------------- hash steps

  lemma DropOnHash(hash: seq<Entry>, x: Id)
    ensures forall id :: OnHash(DropEntry(hash, x), id) <==> OnHash(hash, id) && id != x
  {
  }

  lemma {:induction false} DropNoDup(hash: seq<Entry>, x: Id)
    requires NoDupIds(hash)
    ensures NoDupIds(DropEntry(hash, x))
  {
    if hash != [] {
      DropNoDup(hash[1..], x);
      var t := DropEntry(hash[1..], x);
      if hash[0].id != x {
        forall j | 0 <= j < |t| ensures t[j].id != hash[0].id {
          assert t[j] in hash[1..];
        }
      }
    }
  }

  lemma IdOkFrame(st: State, st': State, id: Id)
    requires IdOk(st, id)
    requires Pending(st, id) == Pending(st', id) && Rq(st, id) == Rq(st', id)
    requires forall e: Entry :: e.id == id ==> (e in st.sched.hash <==> e in st'.sched.hash)
    ensures IdOk(st', id)
  {
  }

  /** Unhashing: afterwards the hash is right about `id` unless it should have stayed hashed. */
  lemma HashDelOk(st: State, id: Id, but: set<Id>)
    requires HashOkBut(st, but)
    ensures HashOkBut(HashDel(st, id), but + {id})
    ensures !OnHash(HashDel(st, id).sched.hash, id) && !Rq(HashDel(st, id), id).hashed
    ensures !Pending(st, id) || !Mergeable(Rq(st, id)) ==> HashOkBut(HashDel(st, id), but - {id})
  {
    var st' := HashDel(st, id);
    DropNoDup(st.sched.hash, id);
    DropOnHash(st.sched.hash, id);
    forall x | x !in but && x != id ensures IdOk(st', x) {
      IdOkFrame(st, st', x);
    }
  }

  lemma FreshEntryNoDup(hash: seq<Entry>, id: Id, key: nat)
    requires NoDupIds(hash)
    ensures NoDupIds([Entry(id, key)] + DropEntry(hash, id))
  {
    DropNoDup(hash, id);
    var t := DropEntry(hash, id);
    forall j | 0 <= j < |t| ensures t[j].id != id {
      assert t[j] in t;
    }
  }

  lemma RepositionOk(st: State, id: Id, but: set<Id>)
    requires HashOkBut(st, but) && id in st.rqs && Pending(st, id)
    ensures HashOkBut(Reposition(st, id), but - {id})
  {
    var st' := Reposition(st, id);
    var e := Entry(id, End(Rq(st, id)));
    FreshEntryNoDup(st.sched.hash, id, e.key);
    forall x | x !in but && x != id ensures IdOk(st', x) {
      IdOkFrame(st, st', x);
    }
    assert e in st'.sched.hash;
    assert IdOk(st', id);
  }

  // ------------------------------------------------- lookup through the hash

  /** The bucket walk finds a request exactly when a mergeable one with that key is in the hash. */
  lemma {:induction false} HashWalkFinds(st: State, hash: seq<Entry>, bucket: nat -> nat, offset: nat)
    requires forall e :: e in hash ==> e.key == End(Rq(st, e.id))
    ensures var w := HashWalk(hash, st.rqs, bucket, offset);
            && (w.found.Some? <==> exists e :: e in hash && Mergeable(Rq(st, e.id)) && End(Rq(st, e.id)) == offset)
            && (w.found.Some? ==> (exists e :: e in hash && e.id == w.found.value)
                                  && Mergeable(Rq(st, w.found.value)) && End(Rq(st, w.found.value)) == offset)
            && (forall x :: x in w.pruned ==> !Mergeable(Rq(st, x)))
  {
    if hash != [] {
      HashWalkFinds(st, hash[1..], bucket, offset);
      assert hash[0] in hash;
      assert forall e :: e in hash <==> e == hash[0] || e in hash[1..];
    }
  }

  /** `st'` is `st` with some unmergeable requests unhashed. */
  ghost predicate Unhashes(st: State, st': State) {
    && st' == st.(rqs := st'.rqs, sched := st.sched.(hash := st'.sched.hash))
    && st'.rqs.Keys == st.rqs.Keys
    && (forall x :: Rq(st', x) == Rq(st, x) || Rq(st', x) == Rq(st, x).(hashed := false))
    && (forall x :: Mergeable(Rq(st, x)) ==> Rq(st', x) == Rq(st, x))
  }

  lemma HashDelUnhashes(st: State, id: Id)
    requires !Mergeable(Rq(st, id))
    ensures Unhashes(st, HashDel(st, id))
  {
  }

  lemma UnhashesTrans(st: State, st1: State, st2: State)
    requires Unhashes(st, st1) && Unhashes(st1, st2)
    ensures Unhashes(st, st2)
  {
    forall x ensures Rq(st2, x) == Rq(st, x) || Rq(st2, x) == Rq(st, x).(hashed := false) {
      assert Rq(st1, x) == Rq(st, x) || Rq(st1, x) == Rq(st, x).(hashed := false);
    }
    forall x | Mergeable(Rq(st, x)) ensures Rq(st2, x) == Rq(st, x) {
      assert Rq(st1, x) == Rq(st, x);
    }
  }

  lemma StillUnmergeable(st: State, st1: State, ids: seq<Id>)
    requires Unhashes(st, st1) && forall x :: x in ids ==> !Mergeable(Rq(st, x))
    ensures forall x :: x in ids ==> !Mergeable(Rq(st1, x))
  {
    forall x | x in ids ensures !Mergeable(Rq(st1, x)) {
      assert Rq(st1, x) == Rq(st, x) || Rq(st1, x) == Rq(st, x).(hashed := false);
    }
  }

  lemma {:induction false} PruneOk(st: State, ids: seq<Id>, but: set<Id>)
    requires HashOkBut(st, but)
    requires forall x :: x in ids ==> !Mergeable(Rq(st, x))
    ensures HashOkBut(Prune(st, ids), but) && Unhashes(st, Prune(st, ids))
    decreases |ids|
  {
    if ids != [] {
      var st1 := HashDel(st, ids[0]);
      HashDelOk(st, ids[0], but);
      HashDelUnhashes(st, ids[0]);
      assert HashOkBut(st1, but);
      StillUnmergeable(st, st1, ids[1..]);
      PruneOk(st1, ids[1..], but);
      UnhashesTrans(st, st1, Prune(st1, ids[1..]));
    }
  }

  /** elv_rqhash_find refines a scan of the pending requests. */
  lemma HashFindIsScan(st: State, bucket: nat -> nat, offset: nat)
    requires HashOkBut(st, {})
    ensures var f := HashFind(st, bucket, offset);
            && (f.found.Some? <==> exists id :: Pending(st, id) && Mergeable(Rq(st, id)) && End(Rq(st, id)) == offset)
            && (f.found.Some? ==> Pending(st, f.found.value) && Mergeable(Rq(st, f.found.value))
                                  && End(Rq(st, f.found.value)) == offset)
  {
    forall e | e in st.sched.hash ensures e.key == End(Rq(st, e.id)) && Pending(st, e.id) {
      assert IdOk(st, e.id);
    }
    HashWalkFinds(st, st.sched.hash, bucket, offset);
    forall id | Pending(st, id) && Mergeable(Rq(st, id)) && End(Rq(st, id)) == offset
      ensures exists e :: e in st.sched.hash && Mergeable(Rq(st, e.id)) && End(Rq(st, e.id)) == offset
    {
      assert IdOk(st, id);
    }
  }

  // ----------------------------------------------------- dispatch and drain

  /** The effect of moving `id` from the greedy lists to the dispatch queue behind its first `k` entries. */
  ghost predicate Moves(st: State, st': State, id: Id, k: nat) {
    && k <= |st.queue| && st'.queue == InsertAt(st.queue, k, id)
    && id in st.rqs && st'.rqs == st.rqs[id := st.rqs[id].(hashed := false)]
    && st'.sched.higher == Without(st.sched.higher, id) && st'.sched.lower == Without(st.sched.lower, id)
    && st'.sched.hash == DropEntry(st.sched.hash, id)
    && st'.lastMerge == (if st.lastMerge == Some(id) then None else st.lastMerge)
    && st'.nrSorted == st.nrSorted - 1
    && st'.driver == st.driver && st'.inFlight == st.inFlight
    && (st'.boundary == st.boundary || st'.boundary == Some(id))
    && st'.sortDispatch == st.sortDispatch && st'.noMerges == st.noMerges && st'.noXMerges == st.noXMerges
  }

  /** How far behind the head greedy_dispatch inserts: at the tail, or where elv_dispatch_sort stops. */
  function DispatchPoint(st: State, id: Id): nat {
    if st.sortDispatch then
      var r := Rq(st, id).(hashed := false);
      SortPoint(st.queue, st.rqs[id := r], r, st.endSector, |st.queue|)
    else |st.queue|
  }

  /** The part of a move that both dispatch-insert functions share: everything but the queue and the boundary. */
  ghost predicate Leaves(st: State, st': State, id: Id) {
    && id in st.rqs && st'.rqs == st.rqs[id := st.rqs[id].(hashed := false)]
    && st'.sched.higher == Without(st.sched.higher, id) && st'.sched.lower == Without(st.sched.lower, id)
    && st'.sched.hash == DropEntry(st.sched.hash, id)
    && st'.lastMerge == (if st.lastMerge == Some(id) then None else st.lastMerge)
    && st'.nrSorted == st.nrSorted - 1
    && st' == st.(rqs := st'.rqs, sched := st'.sched, lastMerge := st'.lastMerge, nrSorted := st'.nrSorted)
  }

  lemma LeaveListsLeaves(st: State, id: Id)
    requires id in st.rqs
    ensures Leaves(st, LeaveElevator(ListDel(st, id), id), id)
  {
  }

  lemma SortMoves(st: State, st1: State, id: Id)
    requires Leaves(st, st1, id) && st.sortDispatch
    ensures Moves(st, st1.(queue := SortInsert(st1.queue, st1.rqs, id, st1.endSector)), id, DispatchPoint(st, id))
  {
    assert Lookup(st1.rqs, id) == Rq(st, id).(hashed := false);
  }

  lemma TailMoves(st: State, st1: State, id: Id)
    requires Leaves(st, st1, id) && !st.sortDispatch
    ensures Moves(st, st1.(endSector := End(Rq(st1, id)), boundary := Some(id), queue := st1.queue + [id]),
                  id, DispatchPoint(st, id))
  {
    assert st.queue + [id] == InsertAt(st.queue, |st.queue|, id);
  }

  lemma MoveOutMoves(st: State, id: Id)
    requires id in st.rqs
    ensures Moves(st, MoveOut(st, id), id, DispatchPoint(st, id)) && MoveOut(st, id).sched.prevPos == End(Rq(st, id))
  {
    LeaveListsLeaves(st, id);
    var st1 := LeaveElevator(ListDel(st, id), id);
    if st.sortDispatch {
      SortMoves(st, st1, id);
    } else {
      TailMoves(st, st1, id);
    }
  }

  lemma GreedyDispatchMoves(st: State)
    requires Placed(st) && PendingCount(st) > 0
    ensures var id := GreedyTarget(st.sched, st.rqs).value;
            && GreedyTarget(st.sched, st.rqs).Some? && Pending(st, id)
            && Moves(st, GreedyDispatch(st), id, DispatchPoint(st, id))
            && GreedyDispatch(st).sched.prevPos == End(Rq(st, id))
  {
    MoveOutMoves(st, GreedyTarget(st.sched, st.rqs).value);
  }

  lemma MovesPlaced(st: State, st': State, id: Id, k: nat)
    requires Placed(st) && Moves(st, st', id, k) && Pending(st, id)
    ensures Placed(st')
    ensures forall x :: Pending(st', x) <==> Pending(st, x) && x != id
    ensures forall x :: Outside(st', x) <==> Outside(st, x)
    ensures PendingCount(st') == PendingCount(st) - 1
  {
    WithoutNoDup(st.sched.higher, id);
    WithoutNoDup(st.sched.lower, id);
    InsertNoDup(st.queue, k, id);
  }

  lemma MovesCounted(st: State, st': State, id: Id, k: nat)
    requires Placed(st) && Counted(st) && Moves(st, st', id, k) && Pending(st, id)
    ensures Counted(st')
  {
    MovesPlaced(st, st', id, k);
    forall s ensures st'.inFlight.Get(s) == Count(st'.driver, st'.rqs, InFlight(s)) {
      CountSame(st.driver, st.rqs, st'.rqs, InFlight(s));
    }
  }

  lemma MovesHash(st: State, st': State, id: Id, k: nat)
    requires Placed(st) && HashOkBut(st, {}) && Moves(st, st', id, k) && Pending(st, id)
    ensures HashOkBut(st', {})
  {
    MovesPlaced(st, st', id, k);
    DropNoDup(st.sched.hash, id);
    DropOnHash(st.sched.hash, id);
    forall x ensures IdOk(st', x) {
      assert IdOk(st, x);
      if x != id {
        IdOkFrame(st, st', x);
      }
    }
  }

  lemma MovesRest(st: State, st': State, id: Id, k: nat, but: set<Id>)
    requires Placed(st) && FlagsBut(st, but) && Pointers(st) && Moves(st, st', id, k) && Pending(st, id)
    ensures FlagsBut(st', but) && Pointers(st')
  {
    MovesPlaced(st, st', id, k);
    assert PendingOk(Rq(st, id));
    forall x | Pending(st', x) ensures PendingOk(Rq(st', x)) {
      assert PendingOk(Rq(st, x));
    }
    forall x | Outside(st', x) && x !in but ensures Fresh(Rq(st', x)) {
      assert Outside(st, x);
    }
  }

  /** The invariant while a request in `but` is being inserted. */
  ghost predicate InvDuring(st: State, but: set<Id>) {
    Placed(st) && FlagsBut(st, but) && Counted(st) && HashOkBut(st, {}) && Pointers(st)
  }

  lemma GreedyDispatchOk(st: State, but: set<Id>)
    requires InvDuring(st, but)
    ensures InvDuring(GreedyDispatch(st), but)
    ensures forall x :: Outside(GreedyDispatch(st), x) <==> Outside(st, x)
    ensures forall x :: Outside(st, x) ==> Rq(GreedyDispatch(st), x) == Rq(st, x)
  {
    if PendingCount(st) > 0 {
      GreedyDispatchMoves(st);
      var id := GreedyTarget(st.sched, st.rqs).value;
      var k, st' := DispatchPoint(st, id), GreedyDispatch(st);
      MovesPlaced(st, st', id, k);
      MovesCounted(st, st', id, k);
      MovesHash(st, st', id, k);
      MovesRest(st, st', id, k, but);
    }
  }

  lemma {:induction false} DrainOk(st: State, but: set<Id>)
    requires InvDuring(st, but)
    ensures InvDuring(Drain(st), but)
    ensures forall x :: Outside(Drain(st), x) <==> Outside(st, x)
    ensures forall x :: Outside(st, x) ==> Rq(Drain(st), x) == Rq(st, x)
    decreases PendingCount(st)
  {
    if PendingCount(st) != 0 {
      GreedyDispatchOk(st, but);
      DrainOk(GreedyDispatch(st), but);
    }
  }

  // ---------------------------------------------------------- request merge

  function Joined(r: Request, next: Request): Request {
    r.(body := Join(r.body, next.body), hashed := true)
  }

  /** The effect of merging `next` into the pending request `id`, which becomes `r`. */
  ghost predicate Absorbs(st: State, st': State, id: Id, next: Id, r: Request) {
    && id in st.rqs && next in st.rqs && id != next
    && st'.rqs == (st.rqs - {next})[id := r]
    && st'.sched.higher == Without(st.sched.higher, next) && st'.sched.lower == Without(st.sched.lower, next)
    && NoDupIds(st'.sched.hash)
    && (forall e: Entry :: e in st'.sched.hash <==>
          e == Entry(id, End(Rq(st', id))) || (e in st.sched.hash && e.id != id && e.id != next))
    && st'.nrSorted == st.nrSorted - (if Pending(st, next) then 1 else 0)
    && st'.lastMerge == Some(id)
    && st'.queue == st.queue && st'.driver == st.driver && st'.inFlight == st.inFlight
    && st'.boundary == st.boundary && st'.endSector == st.endSector && st'.sched.prevPos == st.sched.prevPos
    && st'.sortDispatch == st.sortDispatch && st'.noMerges == st.noMerges && st'.noXMerges == st.noXMerges
  }

  /** The effect of elv_merge_requests, before `next` is put back. */
  ghost predicate Relinks(st: State, st': State, id: Id, next: Id) {
    && id in st.rqs && next in st.rqs && id != next
    && st'.rqs - {next} == (st.rqs - {next})[id := st.rqs[id].(hashed := true)]
    && st' == st.(rqs := st'.rqs, sched := st'.sched, lastMerge := Some(id),
                  nrSorted := st.nrSorted - (if Pending(st, next) then 1 else 0))
    && st'.sched == st.sched.(higher := Without(st.sched.higher, next),
                              lower := Without(st.sched.lower, next), hash := st'.sched.hash)
    && NoDupIds(st'.sched.hash)
    && (forall e: Entry :: e in st'.sched.hash <==>
          e == Entry(id, End(st.rqs[id])) || (e in st.sched.hash && e.id != id && e.id != next))
  }

  lemma ElvMergeRelinks(st: State, id: Id, next: Id)
    requires id in st.rqs && next in st.rqs && id != next && NoDupIds(st.sched.hash)
    requires Rq(st, next).sorted <==> Pending(st, next)
    requires Pending(st, next) || !OnHash(st.sched.hash, next)
    ensures Relinks(st, ElvMergeRequests(st, id, next), id, next)
  {
    var hash := [Entry(id, End(st.rqs[id]))] + DropEntry(st.sched.hash, id);
    FreshEntryNoDup(st.sched.hash, id, End(st.rqs[id]));
    if st.rqs[next].sorted {
      DropNoDup(hash, next);
    } else {
      forall e | e in st.sched.hash ensures e.id != next {
        assert !OnHash(st.sched.hash, next);
      }
    }
  }

  lemma RelinksAbsorbs(st: State, st1: State, st2: State, id: Id, next: Id, r: Request)
    requires id in st.rqs && next in st.rqs && id != next
    requires st1 == st.(rqs := st.rqs[id := r])
    requires Relinks(st1, st2, id, next)
    ensures Absorbs(st, st2.(rqs := st2.rqs - {next}), id, next, r.(hashed := true))
  {
    assert (st1.rqs - {next})[id := r.(hashed := true)] == (st.rqs - {next})[id := r.(hashed := true)];
  }

  lemma GrownAbsorbs(st: State, id: Id, next: Id, r: Request)
    requires id in st.rqs && next in st.rqs && id != next && NoDupIds(st.sched.hash)
    requires Rq(st, next).sorted <==> Pending(st, next)
    requires Pending(st, next) || !OnHash(st.sched.hash, next)
    ensures var st2 := ElvMergeRequests(SetRq(st, id, r), id, next);
            Absorbs(st, st2.(rqs := st2.rqs - {next}), id, next, r.(hashed := true))
  {
    var st1 := SetRq(st, id, r);
    ElvMergeRelinks(st1, id, next);
    RelinksAbsorbs(st, st1, ElvMergeRequests(st1, id, next), id, next, r);
  }

  lemma MergeRequestsAbsorbs(st: State, id: Id, next: Id)
    requires id in st.rqs && next in st.rqs && id != next && NoDupIds(st.sched.hash)
    requires Rq(st, next).sorted <==> Pending(st, next)
    requires Pending(st, next) || !OnHash(st.sched.hash, next)
    ensures Absorbs(st, MergeRequests(st, id, next).st, id, next, Joined(Rq(st, id), Rq(st, next)))
  {
    GrownAbsorbs(st, id, next, st.rqs[id].(body := Join(st.rqs[id].body, st.rqs[next].body)));
  }

  lemma AbsorbsPlaced(st: State, st': State, id: Id, next: Id, r: Request)
    requires Placed(st) && Absorbs(st, st', id, next, r) && Pending(st, id) && (Pending(st, next) || Outside(st, next))
    ensures Placed(st')
    ensures forall x :: Pending(st', x) <==> Pending(st, x) && x != next
    ensures forall x :: Outside(st', x) <==> Outside(st, x) && x != next
    ensures PendingCount(st') == PendingCount(st) - (if Pending(st, next) then 1 else 0)
  {
    WithoutNoDup(st.sched.higher, next);
    WithoutNoDup(st.sched.lower, next);
  }

  lemma AbsorbsCounted(st: State, st': State, id: Id, next: Id, r: Request)
    requires Placed(st) && Counted(st) && Absorbs(st, st', id, next, r)
    requires Pending(st, id) && (Pending(st, next) || Outside(st, next))
    ensures Counted(st')
  {
    AbsorbsPlaced(st, st', id, next, r);
    forall s ensures st'.inFlight.Get(s) == Count(st'.driver, st'.rqs, InFlight(s)) {
      CountSame(st.driver, st.rqs, st'.rqs, InFlight(s));
    }
  }

  lemma AbsorbsHash(st: State, st': State, id: Id, next: Id, r: Request)
    requires Placed(st) && HashOkBut(st, {id}) && Absorbs(st, st', id, next, r) && r.hashed
    requires Pending(st, id) && (Pending(st, next) || Outside(st, next))
    ensures HashOkBut(st', {})
  {
    AbsorbsPlaced(st, st', id, next, r);
    forall x ensures IdOk(st', x) {
      if x == id {
        assert Entry(id, End(Rq(st', id))) in st'.sched.hash;
      } else if x != next {
        IdOkFrame(st, st', x);
      }
    }
  }

  lemma AbsorbsRest(st: State, st': State, id: Id, next: Id, r: Request)
    requires Placed(st) && Flags(st) && Pointers(st) && Absorbs(st, st', id, next, r) && PendingOk(r)
    requires Pending(st, id) && (Pending(st, next) || Outside(st, next))
    ensures Flags(st') && Pointers(st')
  {
    AbsorbsPlaced(st, st', id, next, r);
    forall x | Pending(st', x) ensures PendingOk(Rq(st', x)) {
      assert PendingOk(Rq(st, x));
    }
    forall x | Outside(st', x) ensures Fresh(Rq(st', x)) {
      assert Outside(st, x);
    }
  }

  lemma JoinedOk(r: Request, next: Request)
    requires PendingOk(r) && WellFormed(next.body) && CanJoin(r, next)
    ensures PendingOk(Joined(r, next)) && Joined(r, next).hashed
    ensures Pos(Joined(r, next)) == Pos(r) && End(Joined(r, next)) == End(next)
  {
    JoinExtends(r.body, next.body);
  }

  /** A request merge restores the invariant, even when the hash was stale about the surviving request. */
  lemma MergeRequestsOk(st: State, id: Id, next: Id)
    requires InvBut(st, {id}) && Pending(st, id) && (Pending(st, next) || Outside(st, next)) && id != next
    requires WellFormed(Rq(st, next).body) && CanJoin(Rq(st, id), Rq(st, next))
    ensures var st' := MergeRequests(st, id, next).st;
            && Inv(st') && Pending(st', id)
            && Absorbs(st, st', id, next, Joined(Rq(st, id), Rq(st, next)))
  {
    if Outside(st, next) {
      assert Fresh(Rq(st, next));
      assert IdOk(st, next);
    } else {
      assert PendingOk(Rq(st, next));
    }
    MergeRequestsAbsorbs(st, id, next);
    AbsorbsOk(st, MergeRequests(st, id, next).st, id, next);
  }

  lemma AbsorbsOk(st: State, st': State, id: Id, next: Id)
    requires InvBut(st, {id}) && Pending(st, id) && (Pending(st, next) || Outside(st, next)) && id != next
    requires WellFormed(Rq(st, next).body) && CanJoin(Rq(st, id), Rq(st, next))
    requires Absorbs(st, st', id, next, Joined(Rq(st, id), Rq(st, next)))
    ensures Inv(st') && Pending(st', id)
  {
    var r := Joined(Rq(st, id), Rq(st, next));
    assert PendingOk(Rq(st, id));
    JoinedOk(Rq(st, id), Rq(st, next));
    AbsorbsPlaced(st, st', id, next, r);
    AbsorbsCounted(st, st', id, next, r);
    AbsorbsHash(st, st', id, next, r);
    AbsorbsRest(st, st', id, next, r);
  }

  // -------------------------------------------------------- insertion merge

  lemma UnhashesOk(st: State, st': State)
    requires Inv(st) && Unhashes(st, st') && HashOkBut(st', {})
    ensures Inv(st')
    ensures forall x :: Pending(st', x) <==> Pending(st, x)
    ensures forall x :: Outside(st', x) <==> Outside(st, x)
  {
    forall s ensures Count(st'.driver, st'.rqs, InFlight(s)) == Count(st.driver, st.rqs, InFlight(s)) {
      forall x | x in st.rqs ensures Holds(InFlight(s), st'.rqs[x]) == Holds(InFlight(s), st.rqs[x]) {
        assert Rq(st', x) == Rq(st, x) || Rq(st', x) == Rq(st, x).(hashed := false);
      }
      CountSame(st.driver, st.rqs, st'.rqs, InFlight(s));
    }
    forall x | Pending(st', x) ensures PendingOk(Rq(st', x)) {
      assert Pending(st, x) && PendingOk(Rq(st, x));
    }
    forall x | Outside(st', x) ensures Fresh(Rq(st', x)) {
      assert Outside(st, x) && Fresh(Rq(st, x));
    }
  }

  /** A lookup keeps the invariant: it only drops hash nodes of requests that can no longer merge. */
  lemma HashFindOk(st: State, bucket: nat -> nat, offset: nat)
    requires Inv(st)
    ensures var f := HashFind(st, bucket, offset);
            && Inv(f.st) && Unhashes(st, f.st)
            && (forall x :: Pending(f.st, x) <==> Pending(st, x))
            && (forall x :: Outside(f.st, x) <==> Outside(st, x))
            && (f.found.Some? ==> Pending(f.st, f.found.value) && Mergeable(Rq(f.st, f.found.value))
                                  && End(Rq(f.st, f.found.value)) == offset)
  {
    HashFindIsScan(st, bucket, offset);
    forall e | e in st.sched.hash ensures e.key == End(Rq(st, e.id)) {
      assert IdOk(st, e.id);
    }
    HashWalkFinds(st, st.sched.hash, bucket, offset);
    var w := HashWalk(st.sched.hash, st.rqs, bucket, offset);
    PruneOk(st, w.pruned, {});
    UnhashesOk(st, Prune(st, w.pruned));
  }

  /** The turns of the insertion-merge loop: the state after the lookup, the request found, the merged state. */
  datatype Turns = Done(last: State) | Turn(found: State, target: Id, merged: State, rest: Turns)

  function LastState(tr: Turns): State {
    match tr
    case Done(st) => st
    case Turn(_, _, _, rest) => LastState(rest)
  }

  function FreedBy(tr: Turns, id: Id): seq<Request> {
    match tr
    case Done(_) => []
    case Turn(st, t, _, rest) => [Rq(st, id)] + FreedBy(rest, t)
  }

  /** In `st` request `id` is merged into `t`, which leaves `st'`. */
  ghost predicate MergesInto(st: State, st': State, id: Id, t: Id) {
    && Inv(st) && Pending(st, t) && (Pending(st, id) || Outside(st, id)) && t != id
    && WellFormed(Rq(st, id).body) && CanJoin(Rq(st, t), Rq(st, id))
    && Absorbs(st, st', t, id, Joined(Rq(st, t), Rq(st, id)))
    && Inv(st') && Pending(st', t)
  }

  /** `tr` is a run of the loop for `id` from `st`: each turn is a lookup and a merge, the last only a lookup. */
  ghost predicate Traces(st: State, id: Id, tr: Turns)
    decreases tr
  {
    match tr
    case Done(st1) => Inv(st1) && Unhashes(st, st1)
    case Turn(st1, t, st2, rest) => Inv(st1) && Unhashes(st, st1) && MergesInto(st1, st2, id, t) && Traces(st2, t, rest)
  }

  lemma MergeTurn(st: State, id: Id, t: Id)
    requires Inv(st) && Pending(st, t) && (Pending(st, id) || Outside(st, id)) && WellFormed(Rq(st, id).body)
    requires t != id && CanJoin(Rq(st, t), Rq(st, id))
    ensures var m := MergeRequests(st, t, id);
            && MergesInto(st, m.st, id, t) && m.freed == [Rq(st, id)] && WellFormed(Rq(m.st, t).body)
            && |m.st.rqs.Keys| < |st.rqs.Keys|
  {
    InvStale(st, t);
    MergeRequestsOk(st, t, id);
    var st' := MergeRequests(st, t, id).st;
    assert PendingOk(Rq(st', t));
    assert st'.rqs.Keys == st.rqs.Keys - {id} && id in st.rqs.Keys;
  }

  /** The loop has a trace that ends in its result; the invariant holds all along it. */
  lemma {:induction false} CascadeTraces(st: State, id: Id, env: Env) returns (tr: Turns)
    requires Inv(st) && (Pending(st, id) || Outside(st, id)) && WellFormed(Rq(st, id).body)
    ensures Traces(st, id, tr) && Cascade(st, id, env) == Merged(LastState(tr), FreedBy(tr, id))
    decreases |st.rqs.Keys|
  {
    var f := HashFind(st, env.bucket, Pos(Rq(st, id)));
    HashFindOk(st, env.bucket, Pos(Rq(st, id)));
    if f.found.Some? && Joins(f.st, f.found.value, id, env) {
      var t := f.found.value;
      MergeTurn(f.st, id, t);
      var m := MergeRequests(f.st, t, id);
      var rest := CascadeTraces(m.st, t, env);
      tr := Turn(f.st, t, m.st, rest);
    } else {
      tr := Done(f.st);
    }
  }

  lemma {:induction false} TraceInv(st: State, id: Id, tr: Turns)
    requires Traces(st, id, tr)
    ensures Inv(LastState(tr))
    decreases tr
  {
    if tr.Turn? {
      TraceInv(tr.merged, tr.target, tr.rest);
    }
  }

  lemma UnhashesPlaces(st: State, st': State)
    requires Unhashes(st, st')
    ensures forall x :: Outside(st', x) <==> Outside(st, x)
    ensures forall x :: Pending(st', x) <==> Pending(st, x)
  {
  }

  /** The insertion-merge loop keeps the invariant. */
  lemma CascadeOk(st: State, id: Id, env: Env)
    requires Inv(st) && (Pending(st, id) || Outside(st, id)) && WellFormed(Rq(st, id).body)
    ensures var m := Cascade(st, id, env);
            && Inv(m.st)
            && (m.freed == [] ==> Unhashes(st, m.st) && (forall x :: Outside(m.st, x) <==> Outside(st, x)))
  {
    var tr := CascadeTraces(st, id, env);
    TraceInv(st, id, tr);
    if tr.Done? {
      UnhashesPlaces(st, tr.last);
    }
  }

  lemma InsertMergeOk(st: State, id: Id, env: Env)
    requires Inv(st) && Outside(st, id) && WellFormed(Rq(st, id).body)
    ensures var m := InsertMerge(st, id, env);
            && Inv(m.st)
            && (m.freed == [] ==> Unhashes(st, m.st) && (forall x :: Outside(m.st, x) <==> Outside(st, x)))
  {
    if st.noMerges {
    } else if st.lastMerge.Some? && Joins(st, st.lastMerge.value, id, env) {
      MergeRequestsOk(st, st.lastMerge.value, id);
    } else if !st.noXMerges {
      CascadeOk(st, id, env);
    }
  }

  // ------------------------------------------------------- sorted insertion

  /** The effect of a sorted insertion of `id`, which becomes `r`. */
  ghost predicate Queues(st: State, st': State, id: Id, r: Request, k: nat) {
    && id in st.rqs && st'.rqs == st.rqs[id := r]
    && r == st.rqs[id].(sorted := true, hashed := st.rqs[id].hashed || Mergeable(st.rqs[id]))
    && (|| (&& k <= |st.sched.higher| && st'.sched.higher == InsertAt(st.sched.higher, k, id)
            && st'.sched.lower == st.sched.lower)
        || (&& k <= |st.sched.lower| && st'.sched.lower == InsertAt(st.sched.lower, k, id)
            && st'.sched.higher == st.sched.higher))
    && st'.sched.hash == (if Mergeable(st.rqs[id]) then [Entry(id, End(r))] + st.sched.hash else st.sched.hash)
    && st'.lastMerge == (if Mergeable(st.rqs[id]) && st.lastMerge == None then Some(id) else st.lastMerge)
    && st'.nrSorted == st.nrSorted + 1
    && st' == st.(rqs := st'.rqs, sched := st'.sched, lastMerge := st'.lastMerge, nrSorted := st'.nrSorted)
    && st'.sched.prevPos == st.sched.prevPos
  }

  function SortedAs(r: Request): Request {
    r.(sorted := true, hashed := r.hashed || Mergeable(r))
  }

  /** Where greedy_add_request links the request in the list it chose. */
  function GreedyPoint(st: State, id: Id): nat {
    var rqs := st.rqs[id := SortedAs(Rq(st, id))];
    if st.sched.prevPos > Pos(Rq(st, id)) then
      var k := FirstBelow(st.sched.lower, rqs, Pos(Rq(st, id)), 0);
      if k == |st.sched.lower| then 0 else k + 1
    else
      var k := FirstAbove(st.sched.higher, rqs, Pos(Rq(st, id)), 0);
      if k == |st.sched.higher| then 0 else k + 1
  }

  lemma InsertSortedQueues(st: State, id: Id)
    requires id in st.rqs
    ensures Queues(st, InsertSorted(st, id), id, SortedAs(st.rqs[id]), GreedyPoint(st, id))
  {
    MarkSortedMarks(st, id);
    GreedyAddQueues(st, MarkSorted(st, id), id);
  }

  ghost predicate MarksSorted(st: State, st': State, id: Id) {
    && id in st.rqs && st'.rqs == st.rqs[id := SortedAs(st.rqs[id])]
    && st' == st.(rqs := st'.rqs, nrSorted := st.nrSorted + 1,
                  lastMerge := if Mergeable(st.rqs[id]) && st.lastMerge == None then Some(id) else st.lastMerge,
                  sched := st.sched.(hash :=
                    if Mergeable(st.rqs[id]) then [Entry(id, End(st.rqs[id]))] + st.sched.hash else st.sched.hash))
  }

  lemma SortedFlag(st: State, id: Id)
    requires id in st.rqs
    ensures var st1 := SetRq(st, id, st.rqs[id].(sorted := true)).(nrSorted := st.nrSorted + 1);
            && Rq(st1, id) == st.rqs[id].(sorted := true) && Mergeable(Rq(st1, id)) == Mergeable(st.rqs[id])
            && st1 == st.(rqs := st.rqs[id := st.rqs[id].(sorted := true)], nrSorted := st.nrSorted + 1)
  {
  }

  lemma MarkSortedMarks(st: State, id: Id)
    requires id in st.rqs
    ensures MarksSorted(st, MarkSorted(st, id), id)
  {
    SortedFlag(st, id);
    var r := st.rqs[id].(sorted := true);
    assert st.rqs[id := r][id := r.(hashed := true)] == st.rqs[id := r.(hashed := true)];
  }

  lemma GreedyAddLower(st: State, st1: State, id: Id)
    requires MarksSorted(st, st1, id) && st.sched.prevPos > Pos(Rq(st, id))
    ensures Queues(st, GreedyAdd(st1, id), id, SortedAs(st.rqs[id]), GreedyPoint(st, id))
  {
  }

  lemma GreedyAddHigher(st: State, st1: State, id: Id)
    requires MarksSorted(st, st1, id) && st.sched.prevPos <= Pos(Rq(st, id))
    ensures Queues(st, GreedyAdd(st1, id), id, SortedAs(st.rqs[id]), GreedyPoint(st, id))
  {
  }

  lemma GreedyAddQueues(st: State, st1: State, id: Id)
    requires MarksSorted(st, st1, id)
    ensures Queues(st, GreedyAdd(st1, id), id, SortedAs(st.rqs[id]), GreedyPoint(st, id))
  {
    if st.sched.prevPos > Pos(Rq(st, id)) {
      GreedyAddLower(st, st1, id);
    } else {
      GreedyAddHigher(st, st1, id);
    }
  }

  lemma QueuesPlaced(st: State, st': State, id: Id, r: Request, k: nat)
    requires Placed(st) && Queues(st, st', id, r, k) && Outside(st, id)
    ensures Placed(st')
    ensures forall x :: Pending(st', x) <==> Pending(st, x) || x == id
    ensures forall x :: Outside(st', x) <==> Outside(st, x) && x != id
    ensures PendingCount(st') == PendingCount(st) + 1
  {
    if k <= |st.sched.higher| {
      InsertNoDup(st.sched.higher, k, id);
    }
    if k <= |st.sched.lower| {
      InsertNoDup(st.sched.lower, k, id);
    }
  }

  lemma QueuesCounted(st: State, st': State, id: Id, r: Request, k: nat)
    requires Placed(st) && Counted(st) && Queues(st, st', id, r, k) && Outside(st, id)
    ensures Counted(st')
  {
    QueuesPlaced(st, st', id, r, k);
    forall s ensures st'.inFlight.Get(s) == Count(st'.driver, st'.rqs, InFlight(s)) {
      CountSame(st.driver, st.rqs, st'.rqs, InFlight(s));
    }
  }

  lemma QueuesHash(st: State, st': State, id: Id, r: Request, k: nat)
    requires Placed(st) && HashOkBut(st, {}) && Queues(st, st', id, r, k) && Outside(st, id) && !st.rqs[id].hashed
    ensures HashOkBut(st', {})
  {
    QueuesPlaced(st, st', id, r, k);
    assert IdOk(st, id);
    forall e | e in st.sched.hash ensures e.id != id {
      assert IdOk(st, e.id);
    }
    forall x ensures IdOk(st', x) {
      if x != id {
        IdOkFrame(st, st', x);
      } else if Mergeable(st.rqs[id]) {
        assert Entry(id, End(r)) in st'.sched.hash;
      }
    }
  }

  lemma QueuesRest(st: State, st': State, id: Id, r: Request, k: nat)
    requires Placed(st) && Flags(st) && Pointers(st) && Queues(st, st', id, r, k) && Outside(st, id) && PendingOk(r)
    ensures Flags(st') && Pointers(st')
  {
    QueuesPlaced(st, st', id, r, k);
    forall x | Pending(st', x) ensures PendingOk(Rq(st', x)) {
      if x != id {
        assert Pending(st, x);
      }
    }
    forall x | Outside(st', x) ensures Fresh(Rq(st', x)) {
      assert Outside(st, x);
    }
  }

  lemma InsertSortedOk(st: State, id: Id)
    requires Inv(st) && Outside(st, id) && WellFormed(Rq(st, id).body) && Rq(st, id).fs && Rq(st, id).elvPriv
    ensures Inv(InsertSorted(st, id)) && Pending(InsertSorted(st, id), id)
  {
    InsertSortedQueues(st, id);
    QueuesOk(st, InsertSorted(st, id), id, GreedyPoint(st, id));
  }

  lemma QueuesOk(st: State, st': State, id: Id, k: nat)
    requires Inv(st) && Outside(st, id) && WellFormed(Rq(st, id).body) && Rq(st, id).fs && Rq(st, id).elvPriv
    requires Queues(st, st', id, SortedAs(st.rqs[id]), k)
    ensures Inv(st') && Pending(st', id)
  {
    var r := SortedAs(st.rqs[id]);
    assert Fresh(Rq(st, id));
    QueuesPlaced(st, st', id, r, k);
    QueuesCounted(st, st', id, r, k);
    QueuesHash(st, st', id, r, k);
    QueuesRest(st, st', id, r, k);
  }

  // ------------------------------------------------------ one request changes

  /** `r` may replace request `id` where it now is. */
  ghost predicate FitsPlace(st: State, id: Id, r: Request) {
    && id in st.rqs
    && (Pending(st, id) ==> PendingOk(r))
    && (Outside(st, id) ==> Fresh(r))
    && (id in st.driver ==> forall s :: Holds(InFlight(s), r) == Holds(InFlight(s), st.rqs[id]))
    && (st.boundary == Some(id) ==> !r.started)
  }

  /** Changing one request leaves the hash stale about it at most. */
  lemma UpdateOk(st: State, id: Id, r: Request)
    requires Inv(st) && FitsPlace(st, id, r)
    ensures InvBut(SetRq(st, id, r), {id})
    ensures End(r) == End(st.rqs[id]) && r.hashed == st.rqs[id].hashed && (Mergeable(r) ==> Mergeable(st.rqs[id]))
            ==> Inv(SetRq(st, id, r))
  {
    var st' := SetRq(st, id, r);
    assert IdOk(st, id);
    forall x | x != id ensures IdOk(st', x) {
      IdOkFrame(st, st', x);
    }
    forall s ensures Count(st'.driver, st'.rqs, InFlight(s)) == Count(st.driver, st.rqs, InFlight(s)) {
      CountSame(st.driver, st.rqs, st'.rqs, InFlight(s));
    }
    forall x | Pending(st', x) ensures PendingOk(Rq(st', x)) {
      assert Pending(st, x);
    }
    forall x | Outside(st', x) ensures Fresh(Rq(st', x)) {
      assert Outside(st, x);
    }
  }

  /** last_merge may point to any pending request or be reset. */
  lemma SetLastMergeOk(st: State, target: Option<Id>)
    requires Inv(st) && (target.Some? ==> Pending(st, target.value))
    ensures Inv(st.(lastMerge := target))
  {
    var st' := st.(lastMerge := target);
    forall x ensures IdOk(st', x) {
      IdOkFrame(st, st', x);
    }
    forall x | Pending(st', x) ensures PendingOk(Rq(st', x)) {
      assert Pending(st, x);
    }
    forall x | Outside(st', x) ensures Fresh(Rq(st', x)) {
      assert Outside(st, x);
    }
  }

  lemma ForbidMergeOk(st: State, id: Id)
    requires Inv(st) && (Pending(st, id) || Outside(st, id))
    ensures Inv(ForbidMerge(st, id))
  {
    var r := st.rqs[id].(noMerge := true);
    assert Pending(st, id) ==> PendingOk(Rq(st, id));
    assert Outside(st, id) ==> Fresh(Rq(st, id));
    UpdateOk(st, id, r);
    SetLastMergeOk(SetRq(st, id, r), if st.lastMerge == Some(id) then None else st.lastMerge);
  }

  // ---------------------------------------------------------------- bio merge

  lemma RepositionInv(st: State, id: Id)
    requires InvBut(st, {id}) && Pending(st, id)
    ensures Inv(Reposition(st, id).(lastMerge := Some(id)))
  {
    RepositionOk(st, id, {id});
    var st1 := Reposition(st, id);
    forall s ensures Count(st1.driver, st1.rqs, InFlight(s)) == Count(st.driver, st.rqs, InFlight(s)) {
      CountSame(st.driver, st.rqs, st1.rqs, InFlight(s));
    }
    forall x | Pending(st1, x) ensures PendingOk(Rq(st1, x)) {
      assert Pending(st, x) && PendingOk(Rq(st, x));
    }
    forall x | Outside(st1, x) ensures Fresh(Rq(st1, x)) {
      assert Outside(st, x);
    }
    assert HashOkBut(st1, {}) by {
      assert {id} - {id} == {};
    }
    SetLastMergeOk(st1, Some(id));
  }

  ghost predicate WholeBio(b: Bio) { b.size > 0 && b.size % 512 == 0 }

  /** greedy_latter_request is the next entry of the list, if there is one. */
  lemma {:induction false} LatterIs(list: seq<Id>, k: nat)
    requires NoDup(list) && k < |list|
    ensures Latter(list, list[k]) == if k + 1 < |list| then Some(list[k + 1]) else None
  {
    if k > 0 {
      assert list[0] != list[k];
      LatterIs(list[1..], k - 1);
    }
  }

  /** greedy_former_request is the previous entry of the list, if there is one. */
  lemma {:induction false} FormerIs(list: seq<Id>, k: nat)
    requires NoDup(list) && k < |list|
    ensures Former(list, list[k]) == if k > 0 then Some(list[k - 1]) else None
  {
    if k == 0 {
      FormerNone(list, list[0]);
    } else if k > 1 {
      assert list[1] != list[k];
      FormerIs(list[1..], k - 1);
    }
  }

  lemma {:induction false} FormerNone(list: seq<Id>, id: Id)
    requires forall i :: 0 < i < |list| ==> list[i] != id
    ensures Former(list, id) == None
  {
    if |list| >= 2 {
      FormerNone(list[1..], id);
    }
  }

  lemma LatterPending(st: State, id: Id)
    requires Placed(st) && Pending(st, id)
    ensures var next := LatterRequest(st.sched, id); next.Some? ==> Pending(st, next.value) && next.value != id
  {
    var list := if id in st.sched.higher then st.sched.higher else st.sched.lower;
    var k :| 0 <= k < |list| && list[k] == id;
    LatterIs(list, k);
  }

  lemma FormerPending(st: State, id: Id)
    requires Placed(st) && Pending(st, id)
    ensures var prev := FormerRequest(st.sched, id); prev.Some? ==> Pending(st, prev.value) && prev.value != id
  {
    var list := if id in st.sched.higher then st.sched.higher else st.sched.lower;
    var k :| 0 <= k < |list| && list[k] == id;
    FormerIs(list, k);
  }

  /** bio_attempt_back_merge changes the hash key and leaves the hash stale about this request only. */
  lemma GrowBackOk(st: State, id: Id, bio: Bio)
    requires Inv(st) && Pending(st, id) && WholeBio(bio) && bio.sector == End(Rq(st, id))
    ensures var st1 := SetRq(st, id, Rq(st, id).(body := Append(Rq(st, id).body, bio)));
            InvBut(st1, {id}) && Pending(st1, id)
  {
    assert PendingOk(Rq(st, id));
    AppendExtends(Rq(st, id).body, bio);
    UpdateOk(st, id, Rq(st, id).(body := Append(Rq(st, id).body, bio)));
  }

  lemma BackMergeBioOk(st: State, id: Id, bio: Bio, env: Env)
    requires Inv(st) && Pending(st, id) && WholeBio(bio) && bio.sector == End(Rq(st, id))
    ensures Inv(BackMergeBio(st, id, bio, env).st)
  {
    GrowBackOk(st, id, bio);
    var st1 := SetRq(st, id, Rq(st, id).(body := Append(Rq(st, id).body, bio)));
    LatterPending(st1, id);
    var next := LatterRequest(st1.sched, id);
    if next.Some? && Joins(st1, id, next.value, env) {
      assert PendingOk(Rq(st1, next.value));
      MergeRequestsOk(st1, id, next.value);
    } else {
      RepositionInv(st1, id);
    }
  }

  /** A front merge needs no reposition: the end sector, and so the hash key, is unchanged. */
  lemma GrowFrontOk(st: State, id: Id, bio: Bio)
    requires Inv(st) && Pending(st, id) && WholeBio(bio) && BioEnd(bio) == Pos(Rq(st, id))
    ensures var st1 := SetRq(st, id, Rq(st, id).(body := Prepend(Rq(st, id).body, bio)));
            Inv(st1) && Pending(st1, id)
  {
    assert PendingOk(Rq(st, id));
    PrependExtends(Rq(st, id).body, bio);
    UpdateOk(st, id, Rq(st, id).(body := Prepend(Rq(st, id).body, bio)));
  }

  lemma InvStale(st: State, id: Id)
    requires Inv(st)
    ensures InvBut(st, {id})
  {
  }

  lemma FrontMergeBioOk(st: State, id: Id, bio: Bio, env: Env)
    requires Inv(st) && Pending(st, id) && WholeBio(bio) && BioEnd(bio) == Pos(Rq(st, id))
    ensures Inv(FrontMergeBio(st, id, bio, env).st)
  {
    GrowFrontOk(st, id, bio);
    var st1 := SetRq(st, id, Rq(st, id).(body := Prepend(Rq(st, id).body, bio)));
    FormerPending(st1, id);
    var prev := FormerRequest(st1.sched, id);
    if prev.Some? && Joins(st1, prev.value, id, env) {
      assert PendingOk(Rq(st1, id));
      InvStale(st1, prev.value);
      MergeRequestsOk(st1, prev.value, id);
    } else {
      SetLastMergeOk(st1, Some(id));
    }
  }

  /** elv_merge offers only a pending, mergeable request that the bio really touches. */
  lemma ElvMergeOk(st: State, sub: Submission, env: Env)
    requires Inv(st)
    ensures var c := ElvMerge(st, sub, env);
            && Inv(c.st) && Unhashes(st, c.st)
            && (c.kind.BackMerge? ==> Pending(c.st, c.kind.id) && MergeOk(Rq(c.st, c.kind.id), sub)
                                      && End(Rq(c.st, c.kind.id)) == sub.bio.sector)
            && (c.kind.FrontMerge? ==> Pending(c.st, c.kind.id) && MergeOk(Rq(c.st, c.kind.id), sub)
                                       && Pos(Rq(c.st, c.kind.id)) == BioEnd(sub.bio))
  {
    HashFindOk(st, env.bucket, sub.bio.sector);
  }

  lemma MergeBioOk(st: State, sub: Submission, env: Env)
    requires Inv(st) && WholeBio(sub.bio)
    ensures Inv(MergeBio(st, sub, env).st)
  {
    ElvMergeOk(st, sub, env);
    var c := ElvMerge(st, sub, env);
    match c.kind
    case BackMerge(id) => BackMergeBioOk(c.st, id, sub.bio, env);
    case FrontMerge(id) => FrontMergeBioOk(c.st, id, sub.bio, env);
    case NoMerge =>
  }

  // -------------------------------------------------- dispatch-queue insertion

  /** Linking an outside request into the dispatch queue completes its insertion. */
  lemma EnqueueOk(st: State, id: Id, k: nat)
    requires InvDuring(st, {id}) && Outside(st, id) && k <= |st.queue|
    ensures Inv(st.(queue := InsertAt(st.queue, k, id)))
  {
    var st' := st.(queue := InsertAt(st.queue, k, id));
    InsertNoDup(st.queue, k, id);
    forall x ensures IdOk(st', x) {
      IdOkFrame(st, st', x);
    }
    forall x | Pending(st', x) ensures PendingOk(Rq(st', x)) {
      assert Pending(st, x);
    }
    forall x | Outside(st', x) ensures Fresh(Rq(st', x)) {
      assert Outside(st, x);
    }
  }

  /** Raising the barrier bit of an outside request. */
  lemma BarrierOk(st: State, id: Id)
    requires InvDuring(st, {id}) && Outside(st, id)
    ensures var st' := SetRq(st, id, Rq(st, id).(softBarrier := true));
            InvDuring(st', {id}) && Outside(st', id)
  {
    var r := Rq(st, id).(softBarrier := true);
    var st' := SetRq(st, id, r);
    assert IdOk(st, id);
    forall x ensures IdOk(st', x) {
      if x != id {
        IdOkFrame(st, st', x);
      }
    }
    forall s ensures Count(st'.driver, st'.rqs, InFlight(s)) == Count(st.driver, st.rqs, InFlight(s)) {
      CountSame(st.driver, st.rqs, st'.rqs, InFlight(s));
    }
    forall x | Pending(st', x) ensures PendingOk(Rq(st', x)) {
      assert Pending(st, x);
    }
    forall x | Outside(st', x) && x != id ensures Fresh(Rq(st', x)) {
      assert Outside(st, x);
    }
  }

  lemma InsertFrontOk(st: State, id: Id)
    requires Inv(st) && Outside(st, id)
    ensures Inv(InsertFront(st, id))
  {
    BarrierOk(st, id);
    var st1 := SetRq(st, id, Rq(st, id).(softBarrier := true));
    EnqueueOk(st1, id, 0);
    assert [id] + st.queue == InsertAt(st.queue, 0, id);
  }

  lemma InsertBackOk(st: State, id: Id)
    requires Inv(st) && Outside(st, id)
    ensures Inv(InsertBack(st, id))
  {
    BarrierOk(st, id);
    var st1 := SetRq(st, id, Rq(st, id).(softBarrier := true));
    DrainOk(st1, {id});
    var st2 := Drain(st1);
    EnqueueOk(st2, id, |st2.queue|);
    assert st2.queue + [id] == InsertAt(st2.queue, |st2.queue|, id);
  }

  /** What __elv_add_request asks of its caller: only fs requests with data are sorted. */
  ghost predicate MayInsert(st: State, id: Id, where_: Where) {
    && Outside(st, id)
    && (where_.Sort? || where_.SortMerge? ==> Rq(st, id).fs && WellFormed(Rq(st, id).body))
  }

  lemma AddRequestOk(st: State, id: Id, where_: Where, env: Env)
    requires Inv(st) && MayInsert(st, id, where_)
    ensures Inv(AddRequest(st, id, where_, env).st)
  {
    assert Fresh(Rq(st, id));
    match Redirect(Rq(st, id), where_)
    case Front => InsertFrontOk(st, id);
    case Back => InsertBackOk(st, id);
    case Sort => InsertSortedOk(st, id);
    case SortMerge =>
      InsertMergeOk(st, id, env);
      var m := InsertMerge(st, id, env);
      if m.freed == [] {
        assert Outside(m.st, id);
        assert Rq(m.st, id) == Rq(st, id) || Rq(m.st, id) == Rq(st, id).(hashed := false);
        InsertSortedOk(m.st, id);
      }
  }

  // -------------------------------------------------------------- the driver

  lemma PeekOk(st: State, flushHeld: bool, bypass: bool)
    requires Inv(st)
    ensures Inv(Peek(st, flushHeld, bypass))
  {
    GreedyDispatchOk(st, {});
    var st1 := NextRequest(st, flushHeld, bypass);
    assert Inv(st1);
    if st1.queue != [] {
      PeekHeadOk(st1);
    }
  }

  /** Dropping boundary_rq, or keeping it, with any end_sector. */
  lemma BoundaryOk(st: State, boundary: Option<Id>, sector: nat)
    requires Inv(st) && (boundary == None || boundary == st.boundary)
    ensures Inv(st.(endSector := sector, boundary := boundary))
  {
    var st' := st.(endSector := sector, boundary := boundary);
    forall x ensures IdOk(st', x) {
      IdOkFrame(st, st', x);
    }
    forall x | Pending(st', x) ensures PendingOk(Rq(st', x)) {
      assert Pending(st, x);
    }
    forall x | Outside(st', x) ensures Fresh(Rq(st', x)) {
      assert Outside(st, x);
    }
  }

  lemma PeekHeadOk(st: State)
    requires Inv(st) && st.queue != []
    ensures Inv(PeekHead(st))
  {
    var id, moves := st.queue[0], MovesBoundary(st);
    var r := Rq(st, id);
    var boundary := if moves then None else st.boundary;
    var sector := if moves then End(r) else st.endSector;
    BoundaryOk(st, boundary, sector);
    UpdateOk(st.(endSector := sector, boundary := boundary), id, r.(started := true));
  }

  lemma StartOk(st: State)
    requires Inv(st) && st.queue != [] && Rq(st, st.queue[0]).started
    ensures Inv(Start(st))
  {
    var id, st' := st.queue[0], Start(st);
    assert id !in st.queue[1..];
    assert forall x :: x in st.queue <==> x == id || x in st.queue[1..];
    forall s ensures st'.inFlight.Get(s) == Count(st'.driver, st'.rqs, InFlight(s)) {
      CountAdd(st.driver, st.rqs, InFlight(s), id);
    }
    forall x ensures IdOk(st', x) {
      IdOkFrame(st, st', x);
    }
    forall x | Pending(st', x) ensures PendingOk(Rq(st', x)) {
      assert Pending(st, x);
    }
    forall x | Outside(st', x) ensures Fresh(Rq(st', x)) {
      assert Outside(st, x);
    }
  }

  /** Taking a request back from the driver, with its started bit cleared. */
  lemma WithdrawOk(st: State, id: Id)
    requires Inv(st) && id in st.driver
    ensures InvDuring(Withdraw(st, id), {id}) && Outside(Withdraw(st, id), id)
  {
    var st' := Withdraw(st, id);
    assert IdOk(st, id);
    forall s ensures st'.inFlight.Get(s) == Count(st'.driver, st'.rqs, InFlight(s)) {
      CountRemove(st.driver, st.rqs, InFlight(s), id);
      CountSame(st.driver - {id}, st.rqs, st'.rqs, InFlight(s));
    }
    forall x ensures IdOk(st', x) {
      if x != id {
        IdOkFrame(st, st', x);
      }
    }
    forall x | Pending(st', x) ensures PendingOk(Rq(st', x)) {
      assert Pending(st, x);
    }
    forall x | Outside(st', x) && x != id ensures Fresh(Rq(st', x)) {
      assert Outside(st, x);
    }
  }

  lemma SetBoundaryOk(st: State, id: Id, sector: nat)
    requires Inv(st) && id in st.queue && !Rq(st, id).started
    ensures Inv(st.(boundary := Some(id), endSector := sector))
  {
    var st' := st.(boundary := Some(id), endSector := sector);
    forall x ensures IdOk(st', x) {
      IdOkFrame(st, st', x);
    }
    forall x | Pending(st', x) ensures PendingOk(Rq(st', x)) {
      assert Pending(st, x);
    }
    forall x | Outside(st', x) ensures Fresh(Rq(st', x)) {
      assert Outside(st, x);
    }
  }

  /** Front insertion of a request that is being put back. */
  lemma FrontOk(st: State, id: Id)
    requires InvDuring(st, {id}) && Outside(st, id)
    ensures Inv(InsertFront(st, id)) && InsertFront(st, id).queue == [id] + st.queue
    ensures Rq(InsertFront(st, id), id) == Rq(st, id).(softBarrier := true)
  {
    BarrierOk(st, id);
    var st1 := SetRq(st, id, Rq(st, id).(softBarrier := true));
    EnqueueOk(st1, id, 0);
    assert [id] + st.queue == InsertAt(st.queue, 0, id);
  }

  lemma FrontWithBoundary(st: State, id: Id, sector: nat)
    ensures InsertFront(st.(endSector := sector, boundary := Some(id)), id)
            == InsertFront(st, id).(endSector := sector, boundary := Some(id))
  {
  }

  /** A request put back may become the boundary. */
  lemma PutBackOk(st: State, id: Id)
    requires InvDuring(st, {id}) && Outside(st, id) && !Rq(st, id).started
    ensures Inv(InsertFront(MarkBoundary(st, id), id))
  {
    FrontOk(st, id);
    if Rq(st, id).softBarrier && Rq(st, id).fs {
      var sector := End(Rq(st, id));
      FrontWithBoundary(st, id, sector);
      SetBoundaryOk(InsertFront(st, id), id, sector);
    }
  }

  lemma RequeueOk(st: State, id: Id)
    requires Inv(st) && id in st.driver
    ensures Inv(Requeue(st, id))
  {
    WithdrawOk(st, id);
    PutBackOk(Withdraw(st, id), id);
  }

  /** Forgetting a request that no list, queue or counter refers to. */
  lemma ForgetOk(st: State, id: Id)
    requires InvDuring(st, {id}) && Outside(st, id)
    ensures Inv(st.(rqs := st.rqs - {id}))
  {
    var st' := st.(rqs := st.rqs - {id});
    assert IdOk(st, id);
    forall s ensures Count(st'.driver, st'.rqs, InFlight(s)) == Count(st.driver, st.rqs, InFlight(s)) {
      CountSame(st.driver, st.rqs, st'.rqs, InFlight(s));
    }
    forall x ensures IdOk(st', x) {
      if x != id {
        IdOkFrame(st, st', x);
      }
    }
    forall x | Pending(st', x) ensures PendingOk(Rq(st', x)) {
      assert Pending(st, x);
    }
    forall x | Outside(st', x) ensures Fresh(Rq(st', x)) {
      assert Outside(st, x);
    }
  }

  lemma CompleteOk(st: State, id: Id)
    requires Inv(st) && id in st.driver
    ensures Inv(Complete(st, id))
  {
    WithdrawOk(st, id);
    var st1 := Withdraw(st, id);
    ForgetOk(st1, id);
    assert st1.rqs - {id} == st.rqs - {id};
  }

  lemma ArriveOk(st: State, id: Id, r: Request)
    requires Inv(st) && id !in st.rqs && Fresh(r)
    ensures Inv(st.(rqs := st.rqs[id := r])) && Outside(st.(rqs := st.rqs[id := r]), id)
  {
    var st' := st.(rqs := st.rqs[id := r]);
    assert IdOk(st, id);
    forall s ensures Count(st'.driver, st'.rqs, InFlight(s)) == Count(st.driver, st.rqs, InFlight(s)) {
      CountSame(st.driver, st.rqs, st'.rqs, InFlight(s));
    }
    forall x ensures IdOk(st', x) {
      if x != id {
        IdOkFrame(st, st', x);
      }
    }
    forall x | Pending(st', x) ensures PendingOk(Rq(st', x)) {
      assert Pending(st, x);
    }
    forall x | Outside(st', x) ensures Fresh(Rq(st', x)) {
      assert x != id ==> Outside(st, x);
    }
  }
}
