/**
 The request queue updated in place, field by field and loop by loop, as the elevator core and the
 greedy scheduler do it. The operations callers use keep the elevator invariant and promise what their
 callers rely on; the routines below them are proved against the function of the same step.
 */
module RequestQueue {
  import opened Types
  import opened Lists
  import opened BioChains
  import opened Requests
  import opened Elevator
  import opened ElevatorSafety
  import opened MergeCascade
  import opened BugOns
  import opened QueueEffects
  import opened MergeOffers
  import Machine = ElevatorMachine

  class Queue {
    var rqs: map<Id, Request>
    var higher: seq<Id>
    var lower: seq<Id>
    var prevPos: nat
    var hash: seq<Entry>
    var lastMerge: Option<Id>
    var nrSorted: int
    var queue: seq<Id>
    var endSector: nat
    var boundary: Option<Id>
    var inFlight: Counts
    var driver: set<Id>
    var noMerges: bool
    var noXMerges: bool
    var sortDispatch: bool

    ghost function View(): State
      reads this
    {
      State(rqs, Scheduler(higher, lower, prevPos, hash), lastMerge, nrSorted, queue, endSector, boundary,
            inFlight, driver, noMerges, noXMerges, sortDispatch)
    }

    /** Each request is in one place, counters agree with lists, the hash is exact, no pointer dangles. */
    ghost predicate Valid()
      reads this
    {
      Inv(View())
    }

    /** elevator_init and greedy_init_queue. */
    constructor (sorts: bool)
      ensures Valid() && View() == Machine.Init(sorts)
    {
      rqs, higher, lower, prevPos, hash := map[], [], [], 0, [];
      lastMerge, nrSorted, queue, endSector, boundary := None, 0, [], 0, None;
      inFlight, driver, noMerges, noXMerges, sortDispatch := Counts(0, 0), {}, false, false, sorts;
      new;
      Machine.InitInv(sorts);
    }

    method Set(id: Id, r: Request)
      modifies this`rqs
      ensures View() == SetRq(old(View()), id, r)
    {
      if id in rqs {
        rqs := rqs[id := r];
      }
    }

    method Forget(id: Id)
      modifies this`rqs
      ensures View() == old(View()).(rqs := old(rqs) - {id})
    {
      rqs := rqs - {id};
    }

    // ---------------------------------------------------------- merge hash

    method RqhashDel(id: Id)
      modifies this`rqs, this`hash
      ensures View() == HashDel(old(View()), id)
    {
      hash := DropEntry(hash, id);
      Set(id, Lookup(rqs, id).(hashed := false));
    }

    method RqhashAdd(id: Id)
      modifies this`rqs, this`hash
      ensures View() == HashAdd(old(View()), id)
    {
      hash := [Entry(id, End(Lookup(rqs, id)))] + hash;
      Set(id, Lookup(rqs, id).(hashed := true));
    }

    method RqhashReposition(id: Id)
      modifies this`rqs, this`hash
      ensures View() == Reposition(old(View()), id)
    {
      RqhashDel(id);
      RqhashAdd(id);
      DelThenAdd(old(View()), id);
    }

    /** elv_rqhash_find: walks the bucket, unhashing requests that can no longer be merged. */
    method RqhashFind(bucket: nat -> nat, offset: nat) returns (found: Option<Id>)
      modifies this`rqs, this`hash
      ensures var f := HashFind(old(View()), bucket, offset); View() == f.st && found == f.found
    {
      var chain := hash;
      var k := 0;
      WalkStarts(View(), bucket, offset);
      while k < |chain|
        invariant k <= |chain| && Walking(old(View()), View(), chain[k..], bucket, offset)
      {
        var e := chain[k];
        WalkTurn(old(View()), View(), chain[k..], bucket, offset);
        assert chain[k..][1..] == chain[k + 1..];
        if bucket(e.key) == bucket(offset) {
          if !Mergeable(Lookup(rqs, e.id)) {
            RqhashDel(e.id);
          } else if End(Lookup(rqs, e.id)) == offset {
            return Some(e.id);
          }
        }
        k := k + 1;
      }
      return None;
    }

    // -------------------------------------------------------- greedy lists

    /** add_to_higher. */
    method AddHigher(id: Id)
      modifies this`higher
      ensures higher == AddToHigher(old(higher), rqs, id)
    {
      var pos := Pos(Lookup(rqs, id));
      var k := 0;
      while k < |higher| && Pos(Lookup(rqs, higher[k])) <= pos
        invariant k <= |higher|
        invariant FirstAbove(higher, rqs, pos, k) == FirstAbove(higher, rqs, pos, 0)
      {
        k := k + 1;
      }
      if k == |higher| {
        higher := InsertAt(higher, 0, id);
      } else {
        higher := InsertAt(higher, k + 1, id);
      }
    }

    /** add_to_lower. */
    method AddLower(id: Id)
      modifies this`lower
      ensures lower == AddToLower(old(lower), rqs, id)
    {
      var pos := Pos(Lookup(rqs, id));
      var k := 0;
      while k < |lower| && Pos(Lookup(rqs, lower[k])) >= pos
        invariant k <= |lower|
        invariant FirstBelow(lower, rqs, pos, k) == FirstBelow(lower, rqs, pos, 0)
      {
        k := k + 1;
      }
      if k == |lower| {
        lower := InsertAt(lower, 0, id);
      } else {
        lower := InsertAt(lower, k + 1, id);
      }
    }

    method LinkGreedy(id: Id)
      modifies this`higher, this`lower
      ensures View() == GreedyAdd(old(View()), id)
    {
      if prevPos > Pos(Lookup(rqs, id)) {
        AddLower(id);
      } else {
        AddHigher(id);
      }
    }

    /** greedy_add_request: into the list on the request's side of prev_pos, and into no other. */
    method GreedyAddRequest(id: Id)
      modifies this`higher, this`lower
      ensures LinkedOnSide(old(View()), View(), id) && View() == GreedyAdd(old(View()), id)
    {
      GreedyAddEffect(View(), id);
      LinkGreedy(id);
    }

    method Unlink(id: Id)
      modifies this`higher, this`lower
      ensures View() == ListDel(old(View()), id)
    {
      higher := Without(higher, id);
      lower := Without(lower, id);
    }

    // ------------------------------------------------------ dispatch queue

    method LeaveLists(id: Id)
      modifies this`lastMerge, this`nrSorted, this`rqs, this`hash
      ensures View() == LeaveElevator(old(View()), id)
    {
      if lastMerge == Some(id) {
        lastMerge := None;
      }
      nrSorted := nrSorted - 1;
      RqhashDel(id);
    }

    /** elv_dispatch_sort: walks back from the tail to the first request it must not pass. */
    method SortIntoQueue(id: Id)
      modifies this`queue
      ensures queue == SortInsert(old(queue), rqs, id, endSector)
    {
      var r := Lookup(rqs, id);
      var k := |queue|;
      while k > 0 && !SortStops(Lookup(rqs, queue[k - 1]), r, endSector)
        invariant 0 <= k <= |queue|
        invariant SortPoint(queue, rqs, r, endSector, k) == SortPoint(queue, rqs, r, endSector, |queue|)
      {
        k := k - 1;
      }
      queue := InsertAt(queue, k, id);
    }

    /** elv_dispatch_sort or elv_dispatch_add_tail. */
    method Dispatch(id: Id)
      modifies this`lastMerge, this`nrSorted, this`rqs, this`hash, this`queue, this`endSector, this`boundary
      ensures LeftFor(old(View()), View(), id) && View() == DispatchInsert(old(View()), id)
    {
      DispatchEffect(View(), id);
      LeaveLists(id);
      if sortDispatch {
        SortIntoQueue(id);
      } else {
        endSector := End(Lookup(rqs, id));
        boundary := Some(id);
        queue := queue + [id];
      }
    }

    /** The choice of greedy_dispatch, by int distances. */
    method ChooseTarget() returns (target: Option<Id>)
      ensures target == GreedyTarget(View().sched, View().rqs)
    {
      target := None;
      if higher != [] {
        target := Some(higher[0]);
        if lower != [] {
          var up := Int32(Pos(Lookup(rqs, higher[0])) - prevPos);
          var down := Int32(prevPos - Pos(Lookup(rqs, lower[0])));
          if up > down {
            target := Some(lower[0]);
          }
        }
      } else if lower != [] {
        target := Some(lower[0]);
      }
    }

    method MoveToQueue(id: Id)
      modifies this
      ensures View() == MoveOut(old(View()), id)
    {
      Unlink(id);
      Dispatch(id);
      prevPos := End(Lookup(rqs, id));
    }

    /** greedy_dispatch: whether a request was moved to the dispatch queue; requests in `but` may be half inserted. */
    method DispatchOne(ghost but: set<Id>) returns (moved: bool)
      requires InvDuring(View(), but)
      modifies this
      ensures InvDuring(View(), but)
      ensures forall x :: Outside(View(), x) <==> Outside(old(View()), x)
      ensures View() == GreedyDispatch(old(View()))
      ensures moved == (PendingCount(old(View())) > 0)
    {
      GreedyDispatchOk(View(), but);
      var target := ChooseTarget();
      if target == None {
        return false;
      }
      MoveToQueue(target.value);
      return true;
    }

    /** elv_drain_elevator. */
    method DrainElevator(ghost but: set<Id>)
      requires InvDuring(View(), but)
      modifies this
      ensures InvDuring(View(), but) && nrSorted == 0
      ensures View() == Drain(old(View()))
    {
      var more := true;
      while more
        invariant InvDuring(View(), but)
        invariant Drain(View()) == Drain(old(View()))
        invariant !more ==> PendingCount(View()) == 0
        decreases PendingCount(View()), more
      {
        more := DispatchOne(but);
      }
    }

    // ------------------------------------------------------------ merging

    method Unhitch(next: Id)
      modifies this
      ensures View() == HashDel(ListDel(old(View()), next), next).(nrSorted := old(nrSorted) - 1)
    {
      Unlink(next);
      RqhashDel(next);
      nrSorted := nrSorted - 1;
    }

    method Reattach(id: Id, next: Id)
      modifies this
      ensures View() == ElvMergeRequests(old(View()), id, next)
    {
      var sorted := Lookup(rqs, next).sorted;
      RqhashReposition(id);
      lastMerge := Some(id);
      if sorted {
        Unhitch(next);
      }
    }

    /** elv_merge_requests and greedy_merged_requests. */
    method Relink(id: Id, next: Id)
      modifies this
      ensures ReadyToRelink(old(View()), id, next) ==>
                Relinks(old(View()), View(), id, next) && !PutTrips(View(), next)
      ensures View() == ElvMergeRequests(old(View()), id, next)
    {
      if ReadyToRelink(View(), id, next) {
        RelinkEffect(View(), id, next);
      }
      Reattach(id, next);
    }

    /** A request merge that blk-merge.c has decided on: elv_merge_requests and __blk_put_request. */
    method MergeInto(id: Id, next: Id) returns (freed: Request)
      modifies this
      ensures var m := MergeRequests(old(View()), id, next); View() == m.st && m.freed == [freed]
    {
      var r, n := Lookup(rqs, id), Lookup(rqs, next);
      freed := n;
      Set(id, r.(body := Join(r.body, n.body)));
      Relink(id, next);
      Forget(next);
    }

    /** blk_attempt_req_merge. */
    method TryMerge(id: Id, next: Id, env: Env) returns (merged: bool, freed: seq<Request>)
      modifies this
      ensures merged == Joins(old(View()), id, next, env)
      ensures merged ==> var m := MergeRequests(old(View()), id, next); View() == m.st && freed == m.freed
      ensures !merged ==> View() == old(View()) && freed == []
    {
      merged := id != next && (id, next) in env.joins && CanJoin(Lookup(rqs, id), Lookup(rqs, next));
      freed := [];
      if merged {
        var r := MergeInto(id, next);
        freed := [r];
      }
    }

    /** One lookup of the insertion-merge loop and the merge it allows. */
    method MergeFound(rq: Id, env: Env) returns (target: Option<Id>, freed: seq<Request>)
      modifies this
      ensures var f := HashFind(old(View()), env.bucket, Pos(Rq(old(View()), rq)));
              if f.found.Some? && Joins(f.st, f.found.value, rq, env) then
                target == f.found && MergeRequests(f.st, f.found.value, rq) == Merged(View(), freed)
              else
                target == None && View() == f.st && freed == []
    {
      target := RqhashFind(env.bucket, Pos(Lookup(rqs, rq)));
      freed := [];
      if target.Some? {
        var merged;
        merged, freed := TryMerge(target.value, rq, env);
        if !merged {
          target := None;
        }
      }
    }

    /** The while loop of elv_attempt_insert_merge. */
    method CascadeMerges(id: Id, env: Env) returns (freed: seq<Request>)
      modifies this
      ensures var m := Cascade(old(View()), id, env); View() == m.st && freed == m.freed
    {
      freed := [];
      var rq, more := id, true;
      ghost var all := Cascade(View(), id, env);
      while more
        invariant more ==> Resumes(all, env, View(), rq, freed)
        invariant !more ==> all == Merged(View(), freed)
        decreases more, |rqs.Keys|
      {
        ResumesAgain(all, env, View(), rq, freed);
        var target, f := MergeFound(rq, env);
        if target.Some? {
          freed, rq := freed + f, target.value;
        } else {
          more := false;
        }
      }
    }

    /** elv_attempt_insert_merge; merged exactly when something was freed, and then no bio or sector is lost. */
    method AttemptInsertMerge(id: Id, env: Env) returns (freed: seq<Request>)
      requires Valid() && Outside(View(), id) && WellFormed(Lookup(rqs, id).body)
      modifies this
      ensures Valid() && Outcome(old(View()), id, Merged(View(), freed))
      ensures MergeDue(old(View()), id, env, Merged(View(), freed))
      ensures freed != [] ==> id !in rqs
      ensures var m := InsertMerge(old(View()), id, env); View() == m.st && freed == m.freed
    {
      InsertMergeConserves(View(), id, env);
      InsertMergeDue(View(), id, env);
      MergedAway(View(), id, env);
      if noMerges {
        return [];
      }
      if lastMerge.Some? {
        var merged, f := TryMerge(lastMerge.value, id, env);
        if merged {
          return f;
        }
      }
      if noXMerges {
        return [];
      }
      freed := CascadeMerges(id, env);
    }

    method LookForMerge(sub: Submission, env: Env) returns (kind: MergeKind)
      modifies this`rqs, this`hash
      ensures var c := ElvMerge(old(View()), sub, env); View() == c.st && kind == c.kind
    {
      if noMerges {
        return NoMerge;
      }
      if lastMerge.Some? && lastMerge.value in env.allowed && MergeOk(Lookup(rqs, lastMerge.value), sub) {
        var r := Lookup(rqs, lastMerge.value);
        if End(r) == sub.bio.sector {
          return BackMerge(lastMerge.value);
        } else if Pos(r) == BioEnd(sub.bio) {
          return FrontMerge(lastMerge.value);
        }
      }
      if noXMerges {
        return NoMerge;
      }
      var found := RqhashFind(env.bucket, sub.bio.sector);
      if found.Some? && found.value in env.allowed && MergeOk(Lookup(rqs, found.value), sub) {
        return BackMerge(found.value);
      }
      return NoMerge;
    }

    /** elv_merge: only a pending, mergeable request that the bio touches is offered. */
    method FindMerge(sub: Submission, env: Env) returns (kind: MergeKind)
      requires Valid()
      modifies this`rqs, this`hash
      ensures Valid() && Offers(View(), kind, sub) && Unhashes(old(View()), View())
      ensures OfferDue(old(View()), sub, env, kind)
      ensures var c := ElvMerge(old(View()), sub, env); View() == c.st && kind == c.kind
    {
      ElvMergeOffers(View(), sub, env);
      kind := LookForMerge(sub, env);
    }

    /** bio_attempt_back_merge, then attempt_back_merge or elv_merged_request. */
    method MergeBack(id: Id, bio: Bio, env: Env) returns (freed: seq<Request>)
      modifies this
      ensures var m := BackMergeBio(old(View()), id, bio, env); View() == m.st && freed == m.freed
    {
      var r := Lookup(rqs, id);
      Set(id, r.(body := Append(r.body, bio)));
      var next := if id in higher then Latter(higher, id) else Latter(lower, id);
      if next.Some? {
        var merged, f := TryMerge(id, next.value, env);
        if merged {
          return f;
        }
      }
      RqhashReposition(id);
      lastMerge := Some(id);
      return [];
    }

    /** bio_attempt_front_merge, then attempt_front_merge or elv_merged_request. */
    method MergeFront(id: Id, bio: Bio, env: Env) returns (freed: seq<Request>)
      modifies this
      ensures var m := FrontMergeBio(old(View()), id, bio, env); View() == m.st && freed == m.freed
    {
      var r := Lookup(rqs, id);
      Set(id, r.(body := Prepend(r.body, bio)));
      var prev := if id in higher then Former(higher, id) else Former(lower, id);
      if prev.Some? {
        var merged, f := TryMerge(prev.value, id, env);
        if merged {
          return f;
        }
      }
      lastMerge := Some(id);
      return [];
    }

    method TryBio(sub: Submission, env: Env) returns (merged: bool, freed: seq<Request>)
      modifies this
      ensures MergeBio(old(View()), sub, env) == Submitted(merged, View(), freed)
    {
      var kind := LookForMerge(sub, env);
      merged, freed := false, [];
      match kind
      case BackMerge(id) =>
        if id in env.fits {
          freed := MergeBack(id, sub.bio, env);
          merged := true;
        }
      case FrontMerge(id) =>
        if id in env.fits {
          freed := MergeFront(id, sub.bio, env);
          merged := true;
        }
      case NoMerge =>
    }

    /** The merge half of blk_queue_bio. */
    method SubmitBio(sub: Submission, env: Env) returns (merged: bool, freed: seq<Request>)
      requires Valid() && WholeBio(sub.bio)
      modifies this
      ensures Valid() && BioTaken(old(View()), View(), sub.bio, merged, freed)
      ensures BioDue(old(View()), sub, env, merged)
      ensures MergeBio(old(View()), sub, env) == Submitted(merged, View(), freed)
    {
      MergeBioEffect(View(), sub, env);
      MergeBioDue(View(), sub, env);
      merged, freed := TryBio(sub, env);
    }

    // ---------------------------------------------------------- insertion

    method OfferForMerging(id: Id)
      modifies this`rqs, this`hash, this`lastMerge
      ensures View() == if Mergeable(Rq(old(View()), id)) then
                          HashAdd(old(View()), id)
                            .(lastMerge := if old(lastMerge) == None then Some(id) else old(lastMerge))
                        else old(View())
    {
      if Mergeable(Lookup(rqs, id)) {
        RqhashAdd(id);
        if lastMerge == None {
          lastMerge := Some(id);
        }
      }
    }

    method CountSorted(id: Id)
      modifies this`rqs, this`nrSorted
      ensures View() == SetRq(old(View()), id, Rq(old(View()), id).(sorted := true)).(nrSorted := old(nrSorted) + 1)
    {
      Set(id, Lookup(rqs, id).(sorted := true));
      nrSorted := nrSorted + 1;
    }

    method Mark(id: Id)
      modifies this`rqs, this`nrSorted, this`hash, this`lastMerge
      ensures View() == MarkSorted(old(View()), id)
    {
      CountSorted(id);
      OfferForMerging(id);
    }

    method LinkSorted(id: Id)
      modifies this
      ensures View() == InsertSorted(old(View()), id)
    {
      Mark(id);
      LinkGreedy(id);
    }

    /** The ELEVATOR_INSERT_SORT case: the request is pending, nothing else moved. */
    method AddSorted(id: Id)
      requires Valid() && Outside(View(), id)
      requires Lookup(rqs, id).fs && Lookup(rqs, id).elvPriv && WellFormed(Lookup(rqs, id).body)
      modifies this
      ensures Valid() && AddedAt(old(View()), View(), id, Sort)
      ensures View() == InsertSorted(old(View()), id)
    {
      InsertSortedOk(View(), id);
      SortedEffect(View(), id);
      LinkSorted(id);
    }

    method AddFront(id: Id)
      modifies this`rqs, this`queue
      ensures View() == InsertFront(old(View()), id)
    {
      Set(id, Lookup(rqs, id).(softBarrier := true));
      queue := [id] + queue;
    }

    /** The ELEVATOR_INSERT_BACK case: everything the elevator held goes first. */
    method AddBack(id: Id)
      requires Valid() && Outside(View(), id)
      modifies this
      ensures Valid() && AddedAt(old(View()), View(), id, Back)
      ensures View() == InsertBack(old(View()), id)
    {
      BackInsertEffect(View(), id);
      DrainAhead(id);
      queue := queue + [id];
    }

    method DrainAhead(id: Id)
      requires Valid() && Outside(View(), id)
      modifies this
      ensures View() == Drain(SetRq(old(View()), id, Rq(old(View()), id).(softBarrier := true)))
    {
      BarrierOk(View(), id);
      Set(id, Lookup(rqs, id).(softBarrier := true));
      DrainElevator({id});
    }

    method NoteBoundary(id: Id)
      modifies this`endSector, this`boundary
      ensures View() == MarkBoundary(old(View()), id)
    {
      var r := Lookup(rqs, id);
      if r.softBarrier {
        if r.fs {
          endSector := End(r);
          boundary := Some(id);
        }
      }
    }

    /** The ELEVATOR_INSERT_SORT_MERGE case. */
    method MergeOrAdd(id: Id, env: Env) returns (freed: seq<Request>)
      requires Valid() && MayInsert(View(), id, SortMerge) && Lookup(rqs, id).elvPriv
      modifies this
      ensures Valid()
      ensures var m := InsertMerge(old(View()), id, env);
              freed == m.freed && View() == (if m.freed != [] then m.st else InsertSorted(m.st, id))
    {
      InsertMergeOk(View(), id, env);
      freed := AttemptInsertMerge(id, env);
      if freed == [] {
        assert Outside(View(), id);
        assert Lookup(rqs, id) == old(Lookup(rqs, id)) || Lookup(rqs, id) == old(Lookup(rqs, id)).(hashed := false);
        AddSorted(id);
      }
    }

    /** __elv_add_request. */
    method Add(id: Id, at: Where, env: Env) returns (freed: seq<Request>)
      requires Valid() && MayInsert(View(), id, at)
      modifies this
      ensures Valid() && Added(old(View()), View(), id, at, freed)
      ensures var m := AddRequest(old(View()), id, at, env); View() == m.st && freed == m.freed
    {
      AddRequestEffect(View(), id, at, env);
      var r, where_ := Lookup(rqs, id), at;
      assert Fresh(r);
      NoteBoundary(id);
      if !r.softBarrier && !r.elvPriv && (where_ == Sort || where_ == SortMerge) {
        where_ := Back;
      }
      freed := [];
      match where_
      case Front => AddFront(id);
      case Back => AddBack(id);
      case Sort => AddSorted(id);
      case SortMerge => freed := MergeOrAdd(id, env);
    }

    // --------------------------------------------------------- the driver

    /**
     __elv_next_request: the loop returns the head of the queue, or dispatches and looks again; it
     dispatches at most once.
     */
    method Next(flushHeld: bool, bypass: bool) returns (rq: Option<Id>, dispatches: nat)
      requires Valid()
      modifies this
      ensures Valid()
      ensures View() == NextRequest(old(View()), flushHeld, bypass)
      ensures rq == (if queue == [] then None else Some(queue[0])) && dispatches <= 1
    {
      dispatches := 0;
      while true
        invariant Valid()
        invariant dispatches == 0 ==> View() == old(View())
        invariant dispatches > 0 ==> dispatches == 1 && queue != []
        invariant dispatches > 0 ==> View() == NextRequest(old(View()), flushHeld, bypass)
        decreases queue == []
      {
        if queue != [] {
          return Some(queue[0]), dispatches;
        }
        if flushHeld || bypass {
          return None, dispatches;
        }
        var moved := DispatchOne({});
        if !moved {
          return None, dispatches;
        }
        DispatchFills(old(View()));
        dispatches := dispatches + 1;
      }
    }

    /** Marks the head as started and moves the boundary behind it. */
    method MarkHead()
      requires queue != []
      modifies this
      ensures View() == PeekHead(old(View()))
    {
      var id := queue[0];
      var end := End(Lookup(rqs, id));
      Set(id, Lookup(rqs, id).(started := true));
      if boundary == None || boundary == Some(id) {
        endSector := end;
        boundary := None;
      }
    }

    /** blk_peek_request on a queue without a prep function. */
    method PeekRequest(flushHeld: bool, bypass: bool) returns (rq: Option<Id>)
      requires Valid()
      modifies this
      ensures Valid() && PeekedAt(old(View()), View(), flushHeld, bypass, rq)
      ensures View() == Peek(old(View()), flushHeld, bypass)
      ensures rq == if queue == [] then None else Some(queue[0])
    {
      PeekEffect(View(), flushHeld, bypass);
      var dispatches;
      rq, dispatches := Next(flushHeld, bypass);
      if rq.Some? {
        MarkHead();
      }
    }

    /** blk_start_request and blk_dequeue_request. */
    method StartRequest()
      requires Valid() && queue != [] && Lookup(rqs, queue[0]).started
      modifies this`queue, this`driver, this`inFlight
      ensures Valid() && HandedOver(old(View()), View(), old(queue[0]))
      ensures View() == Start(old(View()))
    {
      StartEffect(View());
      var id := queue[0];
      queue := queue[1..];
      driver := driver + {id};
      inFlight := Bump(inFlight, Lookup(rqs, id), 1);
    }

    /** blk_requeue_request. */
    method RequeueRequest(id: Id)
      requires Valid() && id in driver
      modifies this
      ensures Valid() && HandedBack(old(View()), View(), id)
      ensures View() == Requeue(old(View()), id)
    {
      RequeueEffects(View(), id);
      var r := Lookup(rqs, id);
      inFlight := Bump(inFlight, r, -1);
      driver := driver - {id};
      Set(id, r.(started := false));
      NoteBoundary(id);
      AddFront(id);
    }

    /** __blk_put_request after elv_completed_request. */
    method PutRequest(id: Id)
      requires Valid() && id in driver
      modifies this`inFlight, this`driver, this`rqs
      ensures Valid() && PutAway(old(View()), View(), id)
      ensures View() == Complete(old(View()), id)
    {
      CompleteEffect(View(), id);
      inFlight := Bump(inFlight, Lookup(rqs, id), -1);
      driver := driver - {id};
      rqs := rqs - {id};
    }
  }

  /** The two states differ at most in which requests are hashed. */
  ghost predicate SameButHashed(st0: State, st: State) {
    forall x :: Rq(st, x) == Rq(st0, x) || Rq(st, x) == Rq(st0, x).(hashed := false)
  }

  /** In state `st` the bucket walk begun in `st0` still has the nodes `rest` to look at. */
  ghost predicate Walking(st0: State, st: State, rest: seq<Entry>, bucket: nat -> nat, offset: nat) {
    var w, f := HashWalk(rest, st0.rqs, bucket, offset), HashFind(st0, bucket, offset);
    SameButHashed(st0, st) && w.found == f.found && Prune(st, w.pruned) == f.st
  }

  lemma WalkStarts(st: State, bucket: nat -> nat, offset: nat)
    ensures Walking(st, st, st.sched.hash, bucket, offset)
  {
  }

  lemma HashDelSame(st0: State, st: State, id: Id)
    requires SameButHashed(st0, st)
    ensures SameButHashed(st0, HashDel(st, id))
  {
    var st' := HashDel(st, id);
    forall x ensures Rq(st', x) == Rq(st0, x) || Rq(st', x) == Rq(st0, x).(hashed := false) {
      HashDelRq(st, id, x);
    }
  }

  lemma HashDelRq(st: State, id: Id, x: Id)
    ensures Rq(HashDel(st, id), x) == if x == id && x in st.rqs then Rq(st, x).(hashed := false) else Rq(st, x)
  {
  }

  /** One node of the walk: the one looked for, one to unhash, or one to pass. */
  lemma WalkTurn(st0: State, st: State, rest: seq<Entry>, bucket: nat -> nat, offset: nat)
    requires rest != [] && Walking(st0, st, rest, bucket, offset)
    ensures var e, r := rest[0], Rq(st, rest[0].id);
            if bucket(e.key) != bucket(offset) then Walking(st0, st, rest[1..], bucket, offset)
            else if !Mergeable(r) then Walking(st0, HashDel(st, e.id), rest[1..], bucket, offset)
            else if End(r) == offset then HashFind(st0, bucket, offset) == Lookups(st, Some(e.id))
            else Walking(st0, st, rest[1..], bucket, offset)
  {
    HashDelSame(st0, st, rest[0].id);
    PruneFirst(st, rest[0].id, HashWalk(rest[1..], st0.rqs, bucket, offset).pruned);
  }

  lemma PruneFirst(st: State, id: Id, ids: seq<Id>)
    ensures Prune(st, [id] + ids) == Prune(HashDel(st, id), ids)
  {
    assert ([id] + ids)[1..] == ids;
  }

  /** After some merges the rest of the loop, started from `rq`, completes the whole. */
  ghost predicate Resumes(all: Merged, env: Env, st: State, rq: Id, freed: seq<Request>) {
    var rest := Cascade(st, rq, env);
    all == Merged(rest.st, freed + rest.freed)
  }

  lemma CascadeUnfolds(st: State, rq: Id, env: Env)
    ensures var f := HashFind(st, env.bucket, Pos(Rq(st, rq)));
            if f.found.Some? && Joins(f.st, f.found.value, rq, env) then
              var m := MergeRequests(f.st, f.found.value, rq);
              var rest := Cascade(m.st, f.found.value, env);
              Cascade(st, rq, env) == Merged(rest.st, m.freed + rest.freed) && |m.st.rqs.Keys| < |st.rqs.Keys|
            else
              Cascade(st, rq, env) == Merged(f.st, [])
  {
    var f := HashFind(st, env.bucket, Pos(Rq(st, rq)));
    if f.found.Some? && Joins(f.st, f.found.value, rq, env) {
      var m := MergeRequests(f.st, f.found.value, rq);
      assert m.st.rqs.Keys == st.rqs.Keys - {rq} && rq in st.rqs.Keys;
    }
  }

  /** One turn of the loop: it goes on from the merged request, or it is over. */
  lemma ResumesAgain(all: Merged, env: Env, st: State, rq: Id, freed: seq<Request>)
    requires Resumes(all, env, st, rq, freed)
    ensures var f := HashFind(st, env.bucket, Pos(Rq(st, rq)));
            if f.found.Some? && Joins(f.st, f.found.value, rq, env) then
              var m := MergeRequests(f.st, f.found.value, rq);
              Resumes(all, env, m.st, f.found.value, freed + m.freed) && |m.st.rqs.Keys| < |st.rqs.Keys|
            else
              all == Merged(f.st, freed)
  {
    var f := HashFind(st, env.bucket, Pos(Rq(st, rq)));
    CascadeUnfolds(st, rq, env);
    if f.found.Some? && Joins(f.st, f.found.value, rq, env) {
      var m := MergeRequests(f.st, f.found.value, rq);
      ResumesJoin(all, Cascade(st, rq, env), Cascade(m.st, f.found.value, env), freed, m.freed);
    } else {
      assert freed + [] == freed;
    }
  }

  lemma ResumesJoin(all: Merged, here: Merged, rest: Merged, freed: seq<Request>, more: seq<Request>)
    requires all == Merged(here.st, freed + here.freed) && here == Merged(rest.st, more + rest.freed)
    ensures all == Merged(rest.st, freed + more + rest.freed)
  {
    Regroup(freed, more, rest.freed);
  }

  lemma DelThenAdd(st: State, id: Id)
    ensures HashAdd(HashDel(st, id), id) == Reposition(st, id)
  {
    if id in st.rqs {
      var r := st.rqs[id];
      assert st.rqs[id := r.(hashed := false)][id := r.(hashed := true)] == st.rqs[id := r.(hashed := true)];
    }
  }

  lemma DispatchFills(st: State)
    requires PendingCount(st) > 0
    ensures GreedyDispatch(st).queue != []
  {
  }
}
