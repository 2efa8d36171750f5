/**
 The elevator as a state machine. Each event is one critical section under the queue lock; the
 theorems hold in every state that some run reaches.
 */
module ElevatorMachine {
  import opened Types
  import opened Lists
  import opened Requests
  import opened Elevator
  import opened ElevatorSafety
  import Completion

  datatype Event =
    | Arrive(id: Id, r: Request)            // a task initialised a request
    | Abandon(id: Id)                       // its owner puts it back uninserted
    | Insert(id: Id, at: Where, env: Env)   // __elv_add_request
    | SubmitBio(sub: Submission, env: Env)  // the merge half of blk_queue_bio
    | Forbid(id: Id)                        // a size limit marks the request unmergeable
    | DrainAll                              // elv_drain_elevator
    | PeekNext(flushHeld: bool, bypass: bool)
    | StartHead                             // blk_start_request on the peeked request
    | GiveBack(id: Id)                      // blk_requeue_request
    | Partly(id: Id, bytes: nat)            // partial completion by the driver
    | Finish(id: Id)                        // the driver is done with it
    | SwapScheduler(sched: Scheduler)       // q->elevator is replaced while nothing is pending
    | SetMerging(noMerges: bool, noXMerges: bool)

  ghost predicate Enabled(st: State, e: Event) {
    match e
    case Arrive(id, r) => id !in st.rqs && Fresh(r)
    case Abandon(id) => Outside(st, id)
    case Insert(id, at, _) => MayInsert(st, id, at)
    case SubmitBio(sub, _) => WholeBio(sub.bio)
    case Forbid(id) => Pending(st, id) || Outside(st, id)
    case StartHead => st.queue != [] && Rq(st, st.queue[0]).started
    case GiveBack(id) => id in st.driver
    case Partly(id, _) => id in st.driver
    case Finish(id) => id in st.driver
    case SwapScheduler(s) => PendingCount(st) == 0 && s.higher == [] && s.lower == [] && s.hash == []
    case _ => true
  }

  function Step(st: State, e: Event): State
    requires e.StartHead? ==> st.queue != []
  {
    match e
    case Arrive(id, r) => st.(rqs := st.rqs[id := r])
    case Abandon(id) => st.(rqs := st.rqs - {id})
    case Insert(id, at, env) => AddRequest(st, id, at, env).st
    case SubmitBio(sub, env) => MergeBio(st, sub, env).st
    case Forbid(id) => ForbidMerge(st, id)
    case DrainAll => Drain(st)
    case PeekNext(flushHeld, bypass) => Peek(st, flushHeld, bypass)
    case StartHead => Start(st)
    case GiveBack(id) => Requeue(st, id)
    case Partly(id, n) =>
      SetRq(st, id, Rq(st, id).(body := Completion.Update(Rq(st, id).body, Rq(st, id).fs, n).chain))
    case Finish(id) => Complete(st, id)
    case SwapScheduler(s) => st.(sched := s)
    case SetMerging(a, b) => st.(noMerges := a, noXMerges := b)
  }

  /** elevator_init on a new queue; `sortDispatch` is false for the greedy scheduler. */
  function Init(sortDispatch: bool): State {
    State(map[], IDLE_SCHEDULER, None, 0, [], 0, None, Counts(0, 0), {}, false, false, sortDispatch)
  }

  ghost predicate Runs(st: State, es: seq<Event>)
    decreases |es|
  {
    es == [] || (Enabled(st, es[0]) && Runs(Step(st, es[0]), es[1..]))
  }

  ghost function After(st: State, es: seq<Event>): State
    requires Runs(st, es)
    decreases |es|
  {
    if es == [] then st else After(Step(st, es[0]), es[1..])
  }

  // ------------------------------------------------------------ preservation

  lemma SwapOk(st: State, s: Scheduler)
    requires Inv(st) && PendingCount(st) == 0 && s.higher == [] && s.lower == [] && s.hash == []
    ensures Inv(st.(sched := s))
  {
    var st' := st.(sched := s);
    forall id ensures IdOk(st', id) {
      assert IdOk(st, id);
      forall e | e in st.sched.hash ensures e.id != id {
        assert IdOk(st, e.id);
      }
    }
    forall id | Outside(st', id) ensures Fresh(Rq(st', id)) {
      assert Outside(st, id);
    }
  }

  lemma SetMergingOk(st: State, a: bool, b: bool)
    requires Inv(st)
    ensures Inv(st.(noMerges := a, noXMerges := b))
  {
    var st' := st.(noMerges := a, noXMerges := b);
    forall id ensures IdOk(st', id) {
      IdOkFrame(st, st', id);
    }
    forall id | Pending(st', id) ensures PendingOk(Rq(st', id)) {
      assert Pending(st, id);
    }
    forall id | Outside(st', id) ensures Fresh(Rq(st', id)) {
      assert Outside(st, id);
    }
  }

  /** Every enabled step keeps the invariant. */
  lemma StepKeepsInv(st: State, e: Event)
    requires Inv(st) && Enabled(st, e)
    ensures Inv(Step(st, e))
  {
    match e
    case Arrive(id, r) => ArriveOk(st, id, r);
    case Abandon(id) => ForgetOk(st, id);
    case Insert(id, at, env) => AddRequestOk(st, id, at, env);
    case SubmitBio(sub, env) => MergeBioOk(st, sub, env);
    case Forbid(id) => ForbidMergeOk(st, id);
    case DrainAll => DrainOk(st, {});
    case PeekNext(flushHeld, bypass) => PeekOk(st, flushHeld, bypass);
    case StartHead => StartOk(st);
    case GiveBack(id) => RequeueOk(st, id);
    case Partly(id, n) => PartlyOk(st, id, n);
    case Finish(id) => CompleteOk(st, id);
    case SwapScheduler(s) => SwapOk(st, s);
    case SetMerging(a, b) => SetMergingOk(st, a, b);
  }

  lemma PartlyOk(st: State, id: Id, n: nat)
    requires Inv(st) && id in st.driver
    ensures Inv(Step(st, Partly(id, n)))
  {
    var r := Rq(st, id).(body := Completion.Update(Rq(st, id).body, Rq(st, id).fs, n).chain);
    var st' := SetRq(st, id, r);
    assert IdOk(st, id);
    UpdateOk(st, id, r);
    forall x ensures IdOk(st', x) {
      if x != id {
        IdOkFrame(st, st', x);
      }
    }
  }

  lemma InitInv(sortDispatch: bool)
    ensures Inv(Init(sortDispatch))
  {
    var st := Init(sortDispatch);
    forall s ensures st.inFlight.Get(s) == Count(st.driver, st.rqs, InFlight(s)) {
      assert Matching(st.driver, st.rqs, InFlight(s)) == {};
    }
  }

  lemma {:induction false} RunKeepsInv(st: State, es: seq<Event>)
    requires Inv(st) && Runs(st, es)
    ensures Inv(After(st, es))
    decreases |es|
  {
    if es != [] {
      StepKeepsInv(st, es[0]);
      RunKeepsInv(Step(st, es[0]), es[1..]);
    }
  }

  lemma {:induction false} RunsConcat(st: State, a: seq<Event>, b: seq<Event>)
    requires Runs(st, a) && Runs(After(st, a), b)
    ensures Runs(st, a + b) && After(st, a + b) == After(After(st, a), b)
    decreases |a|
  {
    if a == [] {
      assert a + b == b;
    } else {
      assert (a + b)[0] == a[0] && (a + b)[1..] == a[1..] + b;
      RunsConcat(Step(st, a[0]), a[1..], b);
    }
  }

  // --------------------------------------------------------------- theorems

  /** How many of the places a request can be in hold it. */
  ghost function Places(st: State, id: Id): nat {
    (if Outside(st, id) then 1 else 0) + multiset(st.sched.higher)[id] + multiset(st.sched.lower)[id]
    + multiset(st.queue)[id] + (if id in st.driver then 1 else 0)
  }

  lemma {:induction false} NoDupOnce(s: seq<Id>, id: Id)
    requires NoDup(s)
    ensures multiset(s)[id] == (if id in s then 1 else 0)
  {
    if s != [] {
      assert s == [s[0]] + s[1..];
      NoDupOnce(s[1..], id);
      assert s[0] !in s[1..];
    }
  }

  /** The started file system requests of class `s` that the driver holds; reads and sync writes are sync. */
  ghost function StartedAtDriver(st: State, s: bool): set<Id> {
    set id | id in st.driver && id in st.rqs && st.rqs[id].started && st.rqs[id].fs
             && (!st.rqs[id].write || st.rqs[id].sync) == s
  }

  /**
   In every reachable state each live request is linked exactly once, in exactly one place;
   nr_sorted is the length of the greedy lists; in_flight[s] is the number of started fs requests
   of class s at the driver, so neither counter ever goes negative.
   */
  lemma ExactlyOnePlace(sortDispatch: bool, es: seq<Event>, id: Id)
    requires Runs(Init(sortDispatch), es)
    ensures var st := After(Init(sortDispatch), es);
            && Places(st, id) == (if id in st.rqs then 1 else 0)
            && st.nrSorted == |st.sched.higher| + |st.sched.lower|
            && (forall s :: st.inFlight.Get(s) == |StartedAtDriver(st, s)|)
  {
    InitInv(sortDispatch);
    RunKeepsInv(Init(sortDispatch), es);
    var st := After(Init(sortDispatch), es);
    forall s ensures st.inFlight.Get(s) == |StartedAtDriver(st, s)| {
      assert Matching(st.driver, st.rqs, InFlight(s)) == StartedAtDriver(st, s);
    }
    NoDupOnce(st.sched.higher, id);
    NoDupOnce(st.sched.lower, id);
    NoDupOnce(st.queue, id);
  }

  /** In every reachable state a hash lookup answers exactly as a scan of the pending requests. */
  lemma LookupIsExact(sortDispatch: bool, es: seq<Event>, bucket: nat -> nat, offset: nat)
    requires Runs(Init(sortDispatch), es)
    ensures var st := After(Init(sortDispatch), es);
            var f := HashFind(st, bucket, offset);
            && (f.found.Some? <==> exists id :: Pending(st, id) && Mergeable(Rq(st, id)) && End(Rq(st, id)) == offset)
            && (f.found.Some? ==> Pending(st, f.found.value) && Mergeable(Rq(st, f.found.value))
                                  && End(Rq(st, f.found.value)) == offset)
  {
    InitInv(sortDispatch);
    RunKeepsInv(Init(sortDispatch), es);
    HashFindIsScan(After(Init(sortDispatch), es), bucket, offset);
  }

  /** In every reachable state last_merge and boundary_rq are null or point to a request linked where they expect it. */
  lemma PointersNeverDangle(sortDispatch: bool, es: seq<Event>)
    requires Runs(Init(sortDispatch), es)
    ensures var st := After(Init(sortDispatch), es);
            && (st.lastMerge.Some? ==> Pending(st, st.lastMerge.value))
            && (PendingCount(st) == 0 ==> st.lastMerge == None)
            && (st.boundary.Some? ==> st.boundary.value in st.queue)
  {
    InitInv(sortDispatch);
    RunKeepsInv(Init(sortDispatch), es);
  }
}
