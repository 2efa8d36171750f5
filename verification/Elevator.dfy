/**
 The elevator core and the greedy scheduler as functions from queue states to queue states. The
 class in RequestQueue.dfy performs the same operations in place; the safety modules prove what
 every run of them keeps.
 */
module Elevator {
  import opened Types
  import opened Lists
  import opened BioChains
  import opened Requests

  /** A node of the merge hash: the request and the key it was added under. */
  datatype Entry = Entry(id: Id, key: nat)

  /** elevator_queue with its greedy_data; `hash` lists the nodes, newest first. */
  datatype Scheduler = Scheduler(higher: seq<Id>, lower: seq<Id>, prevPos: nat, hash: seq<Entry>)

  const IDLE_SCHEDULER: Scheduler := Scheduler([], [], 0, [])

  /**
   request_queue. `rqs` holds every initialised request; `driver` names those the driver holds.
   `sortDispatch` chooses the dispatch-insert function: greedy uses elv_dispatch_add_tail.
   */
  datatype State = State(
    rqs: map<Id, Request>, sched: Scheduler, lastMerge: Option<Id>, nrSorted: int,
    queue: seq<Id>, endSector: nat, boundary: Option<Id>,
    inFlight: Counts, driver: set<Id>,
    noMerges: bool, noXMerges: bool, sortDispatch: bool)

  datatype Where = Front | Back | Sort | SortMerge

  /**
   Decisions taken by code outside the model: the bucket function of the hash table, the merge
   checks beyond direction, kind and adjacency (`allowed`), the size limits (`fits`), and the same
   for joining two requests (`joins`).
   */
  datatype Env = Env(bucket: nat -> nat, allowed: set<Id>, fits: set<Id>, joins: set<(Id, Id)>)

  function Rq(st: State, id: Id): Request { Lookup(st.rqs, id) }

  predicate Pending(st: State, id: Id) { id in st.sched.higher || id in st.sched.lower }

  function PendingCount(st: State): nat { |st.sched.higher| + |st.sched.lower| }

  function SetRq(st: State, id: Id, r: Request): (r': State)
    ensures r'.rqs.Keys == st.rqs.Keys
  {
    st.(rqs := if id in st.rqs then st.rqs[id := r] else st.rqs)
  }

  // -------------------------------------------------------------- merge hash

  function DropEntry(hash: seq<Entry>, id: Id): (r: seq<Entry>)
    ensures forall e :: e in r <==> e in hash && e.id != id
    ensures |r| <= |hash|
  {
    if hash == [] then []
    else if hash[0].id == id then DropEntry(hash[1..], id)
    else [hash[0]] + DropEntry(hash[1..], id)
  }

  /** elv_rqhash_del, and __elv_rqhash_del on a node that may not be hashed. */
  function HashDel(st: State, id: Id): (r: State)
    ensures r.rqs.Keys == st.rqs.Keys
  {
    var st1 := st.(sched := st.sched.(hash := DropEntry(st.sched.hash, id)));
    SetRq(st1, id, Rq(st1, id).(hashed := false))
  }

  function HashAdd(st: State, id: Id): (r: State)
    ensures r.rqs.Keys == st.rqs.Keys
  {
    var st1 := st.(sched := st.sched.(hash := [Entry(id, End(Rq(st, id)))] + st.sched.hash));
    SetRq(st1, id, Rq(st1, id).(hashed := true))
  }

  /** elv_rqhash_reposition: deleted and added again under the current end sector. */
  function Reposition(st: State, id: Id): (r: State)
    ensures r.rqs.Keys == st.rqs.Keys
  {
    var st1 := st.(sched := st.sched.(hash := [Entry(id, End(Rq(st, id)))] + DropEntry(st.sched.hash, id)));
    SetRq(st1, id, Rq(st, id).(hashed := true))
  }

  /** What the bucket walk of elv_rqhash_find returns, and the nodes it unhashes on the way. */
  datatype Walk = Walk(found: Option<Id>, pruned: seq<Id>)

  function HashWalk(hash: seq<Entry>, rqs: map<Id, Request>, bucket: nat -> nat, offset: nat): Walk {
    if hash == [] then Walk(None, [])
    else
      var e := hash[0];
      if bucket(e.key) != bucket(offset) then HashWalk(hash[1..], rqs, bucket, offset)
      else if !Mergeable(Lookup(rqs, e.id)) then
        var w := HashWalk(hash[1..], rqs, bucket, offset);
        w.(pruned := [e.id] + w.pruned)
      else if End(Lookup(rqs, e.id)) == offset then Walk(Some(e.id), [])
      else HashWalk(hash[1..], rqs, bucket, offset)
  }

  function Prune(st: State, ids: seq<Id>): (r: State)
    ensures r.rqs.Keys == st.rqs.Keys
    decreases |ids|
  {
    if ids == [] then st else Prune(HashDel(st, ids[0]), ids[1..])
  }

  datatype Lookups = Lookups(st: State, found: Option<Id>)

  /** elv_rqhash_find. */
  function HashFind(st: State, bucket: nat -> nat, offset: nat): Lookups {
    var w := HashWalk(st.sched.hash, st.rqs, bucket, offset);
    Lookups(Prune(st, w.pruned), w.found)
  }

  // ---------------------------------------------------------- greedy lists

  /** Index of the first entry of `list` from `i` on that lies strictly above `pos`, or its length. */
  function FirstAbove(list: seq<Id>, rqs: map<Id, Request>, pos: nat, i: nat): (k: nat)
    requires i <= |list|
    ensures i <= k <= |list|
    ensures forall j :: i <= j < k ==> Pos(Lookup(rqs, list[j])) <= pos
    ensures k < |list| ==> Pos(Lookup(rqs, list[k])) > pos
    decreases |list| - i
  {
    if i == |list| || Pos(Lookup(rqs, list[i])) > pos then i else FirstAbove(list, rqs, pos, i + 1)
  }

  function FirstBelow(list: seq<Id>, rqs: map<Id, Request>, pos: nat, i: nat): (k: nat)
    requires i <= |list|
    ensures i <= k <= |list|
    ensures forall j :: i <= j < k ==> Pos(Lookup(rqs, list[j])) >= pos
    ensures k < |list| ==> Pos(Lookup(rqs, list[k])) < pos
    decreases |list| - i
  {
    if i == |list| || Pos(Lookup(rqs, list[i])) < pos then i else FirstBelow(list, rqs, pos, i + 1)
  }

  /** list_add(new, pos): behind the entry where the walk stopped, or first when it ran off the end. */
  function AddBehind(list: seq<Id>, k: nat, id: Id): seq<Id>
    requires k <= |list|
  {
    InsertAt(list, if k == |list| then 0 else k + 1, id)
  }

  function AddToHigher(list: seq<Id>, rqs: map<Id, Request>, id: Id): seq<Id> {
    AddBehind(list, FirstAbove(list, rqs, Pos(Lookup(rqs, id)), 0), id)
  }

  function AddToLower(list: seq<Id>, rqs: map<Id, Request>, id: Id): seq<Id> {
    AddBehind(list, FirstBelow(list, rqs, Pos(Lookup(rqs, id)), 0), id)
  }

  /** greedy_add_request. */
  function GreedyAdd(st: State, id: Id): State {
    if st.sched.prevPos > Pos(Rq(st, id)) then
      st.(sched := st.sched.(lower := AddToLower(st.sched.lower, st.rqs, id)))
    else
      st.(sched := st.sched.(higher := AddToHigher(st.sched.higher, st.rqs, id)))
  }

  /** The request greedy_dispatch picks; both distances pass through a C int. */
  function GreedyTarget(sched: Scheduler, rqs: map<Id, Request>): Option<Id> {
    if sched.higher != [] then
      if sched.lower != [] then
        var up := Int32(Pos(Lookup(rqs, sched.higher[0])) - sched.prevPos);
        var down := Int32(sched.prevPos - Pos(Lookup(rqs, sched.lower[0])));
        if up > down then Some(sched.lower[0]) else Some(sched.higher[0])
      else Some(sched.higher[0])
    else if sched.lower != [] then Some(sched.lower[0])
    else None
  }

  /** list_del_init on a request that sits in one of the greedy lists. */
  function ListDel(st: State, id: Id): (r: State)
    ensures Pending(st, id) ==> PendingCount(r) < PendingCount(st)
    ensures PendingCount(r) <= PendingCount(st)
    ensures r.rqs == st.rqs
  {
    st.(sched := st.sched.(higher := Without(st.sched.higher, id), lower := Without(st.sched.lower, id)))
  }

  // -------------------------------------------------------- dispatch queue

  /** Where the backward walk of elv_dispatch_sort stops. */
  predicate SortStops(p: Request, r: Request, boundary: nat) {
    || r.discard != p.discard
    || r.write != p.write
    || p.softBarrier || p.started
    || (if Pos(r) >= boundary then Pos(p) >= boundary && Pos(r) >= Pos(p)
        else Pos(p) >= boundary || Pos(r) >= Pos(p))
  }

  function SortPoint(queue: seq<Id>, rqs: map<Id, Request>, r: Request, boundary: nat, n: nat): (k: nat)
    requires n <= |queue|
    ensures k <= n
    ensures forall j :: k <= j < n ==> !SortStops(Lookup(rqs, queue[j]), r, boundary)
    ensures k > 0 ==> SortStops(Lookup(rqs, queue[k - 1]), r, boundary)
  {
    if n == 0 || SortStops(Lookup(rqs, queue[n - 1]), r, boundary) then n
    else SortPoint(queue, rqs, r, boundary, n - 1)
  }

  function SortInsert(queue: seq<Id>, rqs: map<Id, Request>, id: Id, boundary: nat): seq<Id> {
    InsertAt(queue, SortPoint(queue, rqs, Lookup(rqs, id), boundary, |queue|), id)
  }

  /** The part elv_dispatch_sort and elv_dispatch_add_tail share. */
  function LeaveElevator(st: State, id: Id): State {
    HashDel(st.(lastMerge := if st.lastMerge == Some(id) then None else st.lastMerge,
                nrSorted := st.nrSorted - 1), id)
  }

  function DispatchSort(st: State, id: Id): State {
    var st1 := LeaveElevator(st, id);
    st1.(queue := SortInsert(st1.queue, st1.rqs, id, st1.endSector))
  }

  function DispatchAddTail(st: State, id: Id): State {
    var st1 := LeaveElevator(st, id);
    st1.(endSector := End(Rq(st1, id)), boundary := Some(id), queue := st1.queue + [id])
  }

  function DispatchInsert(st: State, id: Id): State {
    if st.sortDispatch then DispatchSort(st, id) else DispatchAddTail(st, id)
  }

  /** Request `id` leaves the greedy lists for the dispatch queue and the head moves to its end. */
  function MoveOut(st: State, id: Id): (r: State)
    ensures Pending(st, id) ==> PendingCount(r) < PendingCount(st)
  {
    var st1 := DispatchInsert(ListDel(st, id), id);
    st1.(sched := st1.sched.(prevPos := End(Rq(st1, id))))
  }

  /** greedy_dispatch; a state with nothing pending is returned unchanged. */
  function GreedyDispatch(st: State): (r: State)
    ensures PendingCount(st) > 0 ==> PendingCount(r) < PendingCount(st)
    ensures PendingCount(st) == 0 ==> r == st
  {
    match GreedyTarget(st.sched, st.rqs)
    case None => st
    case Some(id) => MoveOut(st, id)
  }

  /** elv_drain_elevator. */
  function Drain(st: State): (r: State)
    ensures PendingCount(r) == 0
    decreases PendingCount(st)
  {
    if PendingCount(st) == 0 then st else Drain(GreedyDispatch(st))
  }

  // -------------------------------------------------------------- merging

  /** The adjacency, direction and kind checks every request merge makes. */
  predicate CanJoin(r: Request, next: Request) {
    && Mergeable(r) && Mergeable(next)
    && r.write == next.write && r.discard == next.discard
    && End(r) == Pos(next)
  }

  /** A merge step: the new state and the requests it put back to the allocator. */
  datatype Merged = Merged(st: State, freed: seq<Request>)

  /** elv_merge_requests: `id` has absorbed `next`, which is unlinked and unhashed if it was sorted. */
  function ElvMergeRequests(st: State, id: Id, next: Id): (r: State)
    ensures r.rqs.Keys == st.rqs.Keys
  {
    var st1 := Reposition(st, id).(lastMerge := Some(id));
    if Rq(st, next).sorted then
      HashDel(ListDel(st1, next), next).(nrSorted := st.nrSorted - 1)
    else st1
  }

  /** `id` has taken the bios of `next`, which is about to be put. */
  function Absorbed(st: State, id: Id, next: Id): (r: State)
    ensures r.rqs.Keys == st.rqs.Keys
  {
    var r, n := Rq(st, id), Rq(st, next);
    ElvMergeRequests(SetRq(st, id, r.(body := Join(r.body, n.body))), id, next)
  }

  /** A successful request merge of `next` into `id`, ending in __blk_put_request for `next`. */
  function MergeRequests(st: State, id: Id, next: Id): (m: Merged)
    ensures m.st.rqs.Keys == st.rqs.Keys - {next}
  {
    var st1 := Absorbed(st, id, next);
    Merged(st1.(rqs := st1.rqs - {next}), [Rq(st, next)])
  }

  /** blk_attempt_req_merge decides to merge `next` into `id`. No request is adjacent to itself. */
  predicate Joins(st: State, id: Id, next: Id, env: Env) {
    id != next && (id, next) in env.joins && CanJoin(Rq(st, id), Rq(st, next))
  }

  /** The while loop of elv_attempt_insert_merge. */
  function Cascade(st: State, id: Id, env: Env): Merged
    decreases |st.rqs.Keys|
  {
    var f := HashFind(st, env.bucket, Pos(Rq(st, id)));
    if f.found.Some? && Joins(f.st, f.found.value, id, env) then
      var m := MergeRequests(f.st, f.found.value, id);
      assert m.st.rqs.Keys == st.rqs.Keys - {id} && id in st.rqs.Keys;
      var rest := Cascade(m.st, f.found.value, env);
      Merged(rest.st, m.freed + rest.freed)
    else Merged(f.st, [])
  }

  /** elv_attempt_insert_merge; the request was merged exactly when `freed` is not empty. */
  function InsertMerge(st: State, id: Id, env: Env): Merged {
    if st.noMerges then Merged(st, [])
    else if st.lastMerge.Some? && Joins(st, st.lastMerge.value, id, env) then
      MergeRequests(st, st.lastMerge.value, id)
    else if st.noXMerges then Merged(st, [])
    else Cascade(st, id, env)
  }

  datatype MergeKind = NoMerge | BackMerge(id: Id) | FrontMerge(id: Id)

  /** A bio with the request properties it would give. */
  datatype Submission = Submission(bio: Bio, write: bool, discard: bool)

  /** elv_rq_merge_ok: rq_mergeable, same direction and kind, and the checks outside the model. */
  predicate MergeOk(r: Request, sub: Submission) {
    Mergeable(r) && r.write == sub.write && r.discard == sub.discard
  }

  function BioEnd(b: Bio): nat { b.sector + b.size / 512 }

  datatype Choice = Choice(st: State, kind: MergeKind)

  /** elv_merge: the one-hit cache first, then the hash for a back merge. */
  function ElvMerge(st: State, sub: Submission, env: Env): Choice {
    if st.noMerges then Choice(st, NoMerge)
    else if st.lastMerge.Some? && st.lastMerge.value in env.allowed
            && MergeOk(Rq(st, st.lastMerge.value), sub)
            && End(Rq(st, st.lastMerge.value)) == sub.bio.sector then
      Choice(st, BackMerge(st.lastMerge.value))
    else if st.lastMerge.Some? && st.lastMerge.value in env.allowed
            && MergeOk(Rq(st, st.lastMerge.value), sub)
            && Pos(Rq(st, st.lastMerge.value)) == BioEnd(sub.bio) then
      Choice(st, FrontMerge(st.lastMerge.value))
    else if st.noXMerges then Choice(st, NoMerge)
    else
      var f := HashFind(st, env.bucket, sub.bio.sector);
      if f.found.Some? && f.found.value in env.allowed && MergeOk(Rq(f.st, f.found.value), sub) then
        Choice(f.st, BackMerge(f.found.value))
      else Choice(f.st, NoMerge)
  }

  /** greedy_latter_request. */
  function Latter(list: seq<Id>, id: Id): Option<Id> {
    if |list| < 2 then None
    else if list[0] == id then Some(list[1])
    else Latter(list[1..], id)
  }

  /** greedy_former_request. */
  function Former(list: seq<Id>, id: Id): Option<Id> {
    if |list| < 2 then None
    else if list[1] == id then Some(list[0])
    else Former(list[1..], id)
  }

  function LatterRequest(sched: Scheduler, id: Id): Option<Id> {
    if id in sched.higher then Latter(sched.higher, id) else Latter(sched.lower, id)
  }

  function FormerRequest(sched: Scheduler, id: Id): Option<Id> {
    if id in sched.higher then Former(sched.higher, id) else Former(sched.lower, id)
  }

  /** What blk_queue_bio's merge attempt did: whether the bio was merged, the state, the requests freed. */
  datatype Submitted = Submitted(merged: bool, st: State, freed: seq<Request>)

  /** bio_attempt_back_merge, then attempt_back_merge or elv_merged_request. */
  function BackMergeBio(st: State, id: Id, bio: Bio, env: Env): Submitted {
    var r := Rq(st, id);
    var st1 := SetRq(st, id, r.(body := Append(r.body, bio)));
    var next := LatterRequest(st1.sched, id);
    if next.Some? && Joins(st1, id, next.value, env) then
      var m := MergeRequests(st1, id, next.value);
      Submitted(true, m.st, m.freed)
    else
      Submitted(true, Reposition(st1, id).(lastMerge := Some(id)), [])
  }

  /** bio_attempt_front_merge, then attempt_front_merge or elv_merged_request. */
  function FrontMergeBio(st: State, id: Id, bio: Bio, env: Env): Submitted {
    var r := Rq(st, id);
    var st1 := SetRq(st, id, r.(body := Prepend(r.body, bio)));
    var prev := FormerRequest(st1.sched, id);
    if prev.Some? && Joins(st1, prev.value, id, env) then
      var m := MergeRequests(st1, prev.value, id);
      Submitted(true, m.st, m.freed)
    else
      Submitted(true, st1.(lastMerge := Some(id)), [])
  }

  /** The merge half of blk_queue_bio. */
  function MergeBio(st: State, sub: Submission, env: Env): Submitted {
    var c := ElvMerge(st, sub, env);
    match c.kind
    case BackMerge(id) =>
      if id in env.fits then BackMergeBio(c.st, id, sub.bio, env) else Submitted(false, c.st, [])
    case FrontMerge(id) =>
      if id in env.fits then FrontMergeBio(c.st, id, sub.bio, env) else Submitted(false, c.st, [])
    case NoMerge => Submitted(false, c.st, [])
  }

  /** ll_back_merge_fn and ll_front_merge_fn refusing a request that has reached its limit. */
  function ForbidMerge(st: State, id: Id): State {
    SetRq(st, id, Rq(st, id).(noMerge := true))
      .(lastMerge := if st.lastMerge == Some(id) then None else st.lastMerge)
  }

  // ------------------------------------------------------------- insertion

  /** The request is counted as sorted and, if mergeable, hashed and perhaps cached. */
  function MarkSorted(st: State, id: Id): State {
    var st1 := SetRq(st, id, Rq(st, id).(sorted := true)).(nrSorted := st.nrSorted + 1);
    if Mergeable(Rq(st1, id)) then
      HashAdd(st1, id).(lastMerge := if st1.lastMerge == None then Some(id) else st1.lastMerge)
    else st1
  }

  /** The ELEVATOR_INSERT_SORT case of __elv_add_request. */
  function InsertSorted(st: State, id: Id): State { GreedyAdd(MarkSorted(st, id), id) }

  function InsertFront(st: State, id: Id): State {
    SetRq(st, id, Rq(st, id).(softBarrier := true)).(queue := [id] + st.queue)
  }

  function InsertBack(st: State, id: Id): State {
    var st1 := Drain(SetRq(st, id, Rq(st, id).(softBarrier := true)));
    st1.(queue := st1.queue + [id])
  }

  /** Where __elv_add_request really inserts: a plain request without ELVPRIV never reaches the scheduler. */
  function Redirect(r: Request, where_: Where): Where {
    if !r.softBarrier && !r.elvPriv && (where_ == Sort || where_ == SortMerge) then Back else where_
  }

  /** A barrier that is a file system request becomes the scheduling boundary. */
  function MarkBoundary(st: State, id: Id): State {
    if Rq(st, id).softBarrier && Rq(st, id).fs then
      st.(endSector := End(Rq(st, id)), boundary := Some(id))
    else st
  }

  /** __elv_add_request. */
  function AddRequest(st: State, id: Id, where_: Where, env: Env): Merged {
    var st1 := MarkBoundary(st, id);
    match Redirect(Rq(st, id), where_)
    case Front => Merged(InsertFront(st1, id), [])
    case Back => Merged(InsertBack(st1, id), [])
    case Sort => Merged(InsertSorted(st1, id), [])
    case SortMerge =>
      var m := InsertMerge(st1, id, env);
      if m.freed != [] then m else Merged(InsertSorted(m.st, id), [])
  }

  // ------------------------------------------------------------ the driver

  /** __elv_next_request without the request it returns, which is the head of the queue. */
  function NextRequest(st: State, flushHeld: bool, bypass: bool): State {
    if st.queue != [] || flushHeld || bypass then st else GreedyDispatch(st)
  }

  /** Whether peeking at the head moves the boundary. */
  predicate MovesBoundary(st: State)
    requires st.queue != []
  {
    st.boundary == None || st.boundary == Some(st.queue[0])
  }

  /** The effect of blk_peek_request on the request it returns. */
  function PeekHead(st: State): State
    requires st.queue != []
  {
    var r := Rq(st, st.queue[0]);
    SetRq(st.(endSector := if MovesBoundary(st) then End(r) else st.endSector,
              boundary := if MovesBoundary(st) then None else st.boundary),
          st.queue[0], r.(started := true))
  }

  function Peek(st: State, flushHeld: bool, bypass: bool): State {
    var st1 := NextRequest(st, flushHeld, bypass);
    if st1.queue != [] then PeekHead(st1) else st1
  }

  function Bump(f: Counts, r: Request, delta: int): Counts {
    if Accounted(r) then f.Put(IsSync(r), f.Get(IsSync(r)) + delta) else f
  }

  /** blk_start_request: blk_dequeue_request hands the head of the queue to the driver. */
  function Start(st: State): State
    requires st.queue != []
  {
    var id := st.queue[0];
    st.(queue := st.queue[1..], driver := st.driver + {id},
        inFlight := Bump(st.inFlight, Rq(st, id), 1))
  }

  /** elv_requeue_request up to the insertion: the driver no longer holds the request. */
  function Withdraw(st: State, id: Id): State {
    SetRq(st.(inFlight := Bump(st.inFlight, Rq(st, id), -1), driver := st.driver - {id}),
          id, Rq(st, id).(started := false))
  }

  /** blk_requeue_request: elv_requeue_request, then a front insertion. */
  function Requeue(st: State, id: Id): State {
    InsertFront(MarkBoundary(Withdraw(st, id), id), id)
  }

  /** __blk_put_request on a request the driver has finished. */
  function Complete(st: State, id: Id): State {
    st.(inFlight := Bump(st.inFlight, Rq(st, id), -1), driver := st.driver - {id}, rqs := st.rqs - {id})
  }
}
