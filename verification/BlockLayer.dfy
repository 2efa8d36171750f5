/**
 The whole single-queue block layer: allocation with the lock dropped in the middle, plugging, the
 elevator, the driver, bypass mode and elevator switching, interleaved in any order.
 */
module BlockLayer {
  import opened Types
  import opened Requests
  import opened Elevator
  import opened ElevatorSafety
  import opened RequestLists
  import opened AllocatorBalance
  import opened BugOns
  import Machine = ElevatorMachine
  import BackFence

  /** How far elevator_switch has come; `Installed` remembers the scheduler that was replaced. */
  datatype Switch = Idle | Draining | Quiesced | Installed(replaced: Scheduler)

  /**
   A queue and the tasks working on it. `allocating` holds the requests granted by __get_request whose
   allocation has not finished; `plugged` those on some task's plug list. The bypass depth is made up
   of the initial hold, the switch, the cleanup and `others`.
   */
  datatype Layer = Layer(
    elv: State, books: Books, allocating: map<Id, Request>, plugged: set<Id>,
    depth: int, bypass: bool, dying: bool, closed: bool, initDone: bool, initialHold: bool, others: nat,
    sw: Switch)

  datatype Event =
    | Get(id: Id, write: bool, sync: bool, forElevator: bool, may: MayQueue, batching: bool)
    | AllocDone(id: Id, r: Request)
    | NoElvPriv(id: Id)                  // fail_elvpriv
    | AllocFail(id: Id)                  // fail_alloc
    | SetLimit(nr: nat)
    | Fill(id: Id, r: Request)           // the owner initialises the request, or merges a bio on its plug list
    | Plug(id: Id)
    | Elv(e: Machine.Event)
    | BypassStart | BypassEnd            // by users other than elevator_switch
    | MarkDying | CleanUp                // blk_set_queue_dying, the locked part of blk_cleanup_queue
    | InitDone | EndInitialHold          // queue registration
    | SwitchStart                        // elevator_switch enters bypass
    | DrainPass | DrainCheck(fnActive: bool)
    | SwitchInit(ok: bool)               // elevator_init_fn
    | SwitchFinish(registered: bool)     // elv_register_queue, elevator_exit, blk_queue_bypass_end

  // ------------------------------------------------------------------- steps

  predicate Blank(s: Scheduler) { s.higher == [] && s.lower == [] && s.hash == [] }

  /** Arrivals and scheduler changes are steps of their own; the driver sees the queue's bypass flag. */
  ghost predicate ElvEnabled(l: Layer, e: Machine.Event) {
    Machine.Enabled(l.elv, e) && !e.Arrive? && !e.SwapScheduler? && (e.PeekNext? ==> e.bypass == l.bypass)
  }

  ghost predicate Enabled(l: Layer, e: Event) {
    match e
    case Get(id, _, _, _, _, _) => id !in l.allocating && id !in l.elv.rqs
    case AllocDone(id, r) => id in l.allocating && Fresh(r) && SameKind(l.allocating[id], r)
    case NoElvPriv(id) => id in l.allocating && l.allocating[id].elvPriv
    case AllocFail(id) => id in l.allocating
    case SetLimit(nr) => nr >= 1
    case Fill(id, r) => Outside(l.elv, id) && Fresh(r) && SameKind(Rq(l.elv, id), r)
    case Plug(id) => Outside(l.elv, id) && id !in l.plugged
    case Elv(e) => ElvEnabled(l, e)
    case BypassEnd => l.others > 0
    case CleanUp => l.dying && !l.closed
    case EndInitialHold => l.initDone && l.initialHold
    case SwitchStart => l.sw.Idle?
    case DrainPass => l.sw.Draining?
    case DrainCheck(_) => l.sw.Draining?
    case SwitchInit(_) => l.sw.Quiesced?
    case SwitchFinish(_) => l.sw.Installed?
    case _ => true
  }

  /** A request under allocation: its class and whether the elevator will manage it. */
  function Ticket(write: bool, sync: bool, elv: bool): Request {
    BLANK.(write := write, sync := sync, elvPriv := elv)
  }

  /** __get_request up to the point where it drops the lock. */
  function Reserve(l: Layer, id: Id, t: Request, may: MayQueue, batching: bool): Layer {
    if l.dying then l
    else
      var g := GetRequest(l.books, IsSync(t), may, batching, t.elvPriv);
      if g.Granted? then l.(books := g.books, allocating := l.allocating[id := t]) else l.(books := g.books)
  }

  /** fail_elvpriv: the request goes on without the elevator. */
  function DropElvPriv(l: Layer, id: Id): Layer
    requires id in l.allocating
  {
    l.(allocating := l.allocating[id := l.allocating[id].(elvPriv := false)],
       books := l.books.(elvPriv := l.books.elvPriv - 1))
  }

  /** The mempool delivered: the request is initialised and belongs to its task. */
  function Admit(l: Layer, id: Id, r: Request): Layer {
    l.(allocating := l.allocating - {id}, elv := l.elv.(rqs := l.elv.rqs[id := r]))
  }

  /** fail_alloc. */
  function Refuse(l: Layer, id: Id): Layer
    requires id in l.allocating
  {
    l.(allocating := l.allocating - {id},
       books := AllocFailed(l.books, IsSync(l.allocating[id]), l.allocating[id].elvPriv))
  }

  function Enter(l: Layer): Layer { l.(depth := l.depth + 1, bypass := true) }

  function Leave(l: Layer): Layer { l.(depth := l.depth - 1, bypass := l.bypass && l.depth - 1 != 0) }

  /** The locked part of blk_cleanup_queue. */
  function Close(l: Layer): Layer {
    Enter(l).(closed := true, elv := l.elv.(noMerges := true, noXMerges := true))
  }

  /** elevator_init_fn publishes the new scheduler, or fails and the switch is abandoned. */
  function Install(l: Layer, ok: bool): Layer {
    if ok then l.(elv := l.elv.(sched := IDLE_SCHEDULER), sw := Installed(l.elv.sched))
    else Leave(l).(sw := Idle)
  }

  /** The end of elevator_switch; a failed registration restores the old scheduler. */
  function Conclude(l: Layer, registered: bool): Layer
    requires l.sw.Installed?
  {
    Leave(if registered then l else l.(elv := l.elv.(sched := l.sw.replaced))).(sw := Idle)
  }

  /** The requests an elevator event puts back to the allocator. */
  function Freed(st: State, e: Machine.Event): seq<Request> {
    match e
    case Insert(id, at, env) => AddRequest(st, id, at, env).freed
    case SubmitBio(sub, env) => MergeBio(st, sub, env).freed
    case Abandon(id) => [Rq(st, id)]
    case Finish(id) => [Rq(st, id)]
    case _ => []
  }

  function ElvStep(l: Layer, e: Machine.Event): Layer
    requires e.StartHead? ==> l.elv.queue != []
  {
    l.(elv := Machine.Step(l.elv, e), books := FreedAll(l.books, Freed(l.elv, e)),
       plugged := if e.Insert? || e.Abandon? then l.plugged - {e.id} else l.plugged)
  }

  function Step(l: Layer, e: Event): Layer
    requires Enabled(l, e)
  {
    match e
    case Get(id, write, sync, forElevator, may, batching) =>
      Reserve(l, id, Ticket(write, sync, forElevator && !l.bypass), may, batching)
    case AllocDone(id, r) => Admit(l, id, r)
    case NoElvPriv(id) => DropElvPriv(l, id)
    case AllocFail(id) => Refuse(l, id)
    case SetLimit(nr) => l.(books := Resize(l.books, nr))
    case Fill(id, r) => l.(elv := SetRq(l.elv, id, r))
    case Plug(id) => l.(plugged := l.plugged + {id})
    case Elv(e) => ElvStep(l, e)
    case BypassStart => Enter(l).(others := l.others + 1)
    case BypassEnd => Leave(l).(others := l.others - 1)
    case MarkDying => l.(dying := true)
    case CleanUp => Close(l)
    case InitDone => l.(initDone := true)
    case EndInitialHold => Leave(l).(initialHold := false)
    case SwitchStart => Enter(l).(sw := if l.initDone then Draining else Quiesced)
    case DrainPass => l.(elv := Drain(l.elv))
    case DrainCheck(fnActive) => if l.books.elvPriv == 0 && !fnActive then l.(sw := Quiesced) else l
    case SwitchInit(ok) => Install(l, ok)
    case SwitchFinish(registered) => Conclude(l, registered)
  }

  /** blk_alloc_queue_node and elevator_init: a queue starts its life in bypass mode. */
  function Init(nr: nat, sortDispatch: bool): Layer {
    Layer(Machine.Init(sortDispatch), NewBooks(nr), map[], {}, 1, true, false, false, false, true, 0, Idle)
  }

  ghost predicate Runs(l: Layer, es: seq<Event>)
    decreases |es|
  {
    es == [] || (Enabled(l, es[0]) && Runs(Step(l, es[0]), es[1..]))
  }

  ghost function After(l: Layer, es: seq<Event>): Layer
    requires Runs(l, es)
    decreases |es|
  {
    if es == [] then l else After(Step(l, es[0]), es[1..])
  }

  /** The BUG_ONs and the WARN_ON of the modelled steps. */
  ghost predicate Trips(l: Layer, e: Event) {
    match e
    case Elv(Insert(id, at, env)) => AddRequestTrips(l.elv, id, at, env)
    case Elv(SubmitBio(sub, env)) => BioTrips(l.elv, sub, env)
    case Elv(StartHead) => l.elv.queue == [] || Rq(l.elv, l.elv.queue[0]).hashed
    case Elv(GiveBack(id)) => InElevator(l.elv, id)
    case Elv(Finish(id)) => PutTrips(l.elv, id)
    case Elv(Abandon(id)) => PutTrips(l.elv, id)
    case BypassEnd => l.depth - 1 < 0
    case EndInitialHold => l.depth - 1 < 0
    case SwitchInit(ok) => !ok && l.depth - 1 < 0
    case SwitchFinish(registered) =>
      var gone := if registered && l.sw.Installed? then l.sw.replaced else l.elv.sched;
      gone.higher != [] || gone.lower != [] || l.depth - 1 < 0
    case _ => false
  }

  // --------------------------------------------------------------- invariant

  ghost function Total(l: Layer, q: Query): nat {
    Live(l.elv, q) + Count(l.allocating.Keys, l.allocating, q)
  }

  /** A request under allocation is not live yet; a plugged one has not been inserted. */
  ghost predicate Owned(l: Layer) {
    && (forall id :: id in l.allocating ==> id !in l.elv.rqs)
    && (forall id :: id in l.plugged ==> Outside(l.elv, id))
  }

  /** The allocator's counts are the numbers of live and half-allocated requests. */
  ghost predicate Ledger(l: Layer) {
    && (forall s :: l.books.Get(s).count == Total(l, OfClass(s)))
    && l.books.elvPriv == Total(l, WithElvPriv)
  }

  /** Who holds the queue in bypass, and that no ELVPRIV request survives a drained bypass. */
  ghost predicate Gate(l: Layer) {
    && l.depth == l.others + Ones(l.initialHold) + Ones(l.closed) + Ones(!l.sw.Idle?)
    && (l.bypass <==> l.depth > 0)
    && (!l.initDone ==> l.initialHold)
    && (l.initialHold || l.sw.Quiesced? || l.sw.Installed? ==> l.books.elvPriv == 0)
    && (l.sw.Installed? ==> Blank(l.sw.replaced))
  }

  ghost predicate LayerInv(l: Layer) {
    Inv(l.elv) && BooksOk(l.books) && Owned(l) && Ledger(l) && Gate(l)
  }

  // ------------------------------------------------------------ counting maps

  lemma CountPut(m: map<Id, Request>, id: Id, r: Request, q: Query)
    requires id !in m
    ensures Count(m[id := r].Keys, m[id := r], q) == Count(m.Keys, m, q) + Tally(q, r)
  {
    var m' := m[id := r];
    CountAdd(m.Keys, m', q, id);
    CountSame(m.Keys, m, m', q);
    assert m'.Keys == m.Keys + {id};
  }

  lemma CountTake(m: map<Id, Request>, id: Id, q: Query)
    requires id in m
    ensures Count((m - {id}).Keys, m - {id}, q) == Count(m.Keys, m, q) - Tally(q, m[id])
  {
    var m' := m - {id};
    CountRemove(m.Keys, m, q, id);
    CountSame(m.Keys - {id}, m, m', q);
    assert m'.Keys == m.Keys - {id};
  }

  lemma CountReplace(m: map<Id, Request>, id: Id, r: Request, q: Query)
    requires id in m
    ensures Count(m[id := r].Keys, m[id := r], q) == Count(m.Keys, m, q) - Tally(q, m[id]) + Tally(q, r)
  {
    CountTake(m, id, q);
    CountPut(m - {id}, id, r, q);
    assert (m - {id})[id := r] == m[id := r];
  }

  /** Without ELVPRIV requests nothing is pending or hashed. */
  lemma NoElvPrivNothingPending(st: State)
    requires Inv(st) && Live(st, WithElvPriv) == 0
    ensures Blank(st.sched) && st.lastMerge == None
    ensures forall id :: id in st.rqs ==> !st.rqs[id].elvPriv
  {
    assert Matching(st.rqs.Keys, st.rqs, WithElvPriv) == {};
    forall id | id in st.rqs ensures !st.rqs[id].elvPriv {
      assert id in Matching(st.rqs.Keys, st.rqs, WithElvPriv) <==> st.rqs[id].elvPriv;
    }
    NothingPending(st);
  }

  lemma NothingPending(st: State)
    requires Inv(st) && forall id :: id in st.rqs ==> !st.rqs[id].elvPriv
    ensures Blank(st.sched) && st.lastMerge == None
  {
    assert forall id :: Pending(st, id) ==> PendingOk(Rq(st, id)) && id in st.rqs;
    assert forall id :: !Pending(st, id);
    if st.sched.higher != [] {
      SomeMember(st.sched.higher);
    }
    if st.sched.lower != [] {
      SomeMember(st.sched.lower);
    }
    HashedArePending(st);
    if st.sched.hash != [] {
      SomeMember(st.sched.hash);
    }
  }

  lemma HashedArePending(st: State)
    requires HashOkBut(st, {})
    ensures forall e :: e in st.sched.hash ==> Pending(st, e.id)
  {
    forall e | e in st.sched.hash ensures Pending(st, e.id) {
      assert IdOk(st, e.id);
    }
  }

  lemma SomeMember<T(!new)>(s: seq<T>)
    requires s != []
    ensures exists x :: x in s
  {
    assert s[0] in s;
  }

  // ------------------------------------------------------------- preservation

  /** New books with the old counts. */
  lemma SameCountsOk(l: Layer, b: Books)
    requires LayerInv(l) && BooksOk(b) && b.elvPriv == l.books.elvPriv
    requires forall s :: b.Get(s).count == l.books.Get(s).count
    ensures LayerInv(l.(books := b))
  {
  }

  /** New books that count one more request, with its ticket. */
  lemma TicketOk(l: Layer, b: Books, id: Id, t: Request)
    requires LayerInv(l) && BooksOk(b) && id !in l.allocating && id !in l.elv.rqs && (l.bypass ==> !t.elvPriv)
    requires forall s :: b.Get(s).count == l.books.Get(s).count + Tally(OfClass(s), t)
    requires b.elvPriv == l.books.elvPriv + Tally(WithElvPriv, t)
    ensures LayerInv(l.(books := b, allocating := l.allocating[id := t]))
  {
    var l' := l.(books := b, allocating := l.allocating[id := t]);
    forall q ensures Total(l', q) == Total(l, q) + Tally(q, t) {
      CountPut(l.allocating, id, t, q);
    }
  }

  lemma ReserveOk(l: Layer, id: Id, t: Request, may: MayQueue, batching: bool)
    requires LayerInv(l) && id !in l.allocating && id !in l.elv.rqs && (l.bypass ==> !t.elvPriv)
    ensures LayerInv(Reserve(l, id, t, may, batching))
  {
    if !l.dying {
      GetRequestOk(l.books, IsSync(t), may, batching, t.elvPriv);
      var g := GetRequest(l.books, IsSync(t), may, batching, t.elvPriv);
      if g.Granted? {
        TicketOk(l, g.books, id, t);
      } else {
        SameCountsOk(l, g.books);
      }
    }
  }

  lemma AllocDoneOk(l: Layer, id: Id, r: Request)
    requires LayerInv(l) && id in l.allocating && Fresh(r) && SameKind(l.allocating[id], r)
    ensures LayerInv(Admit(l, id, r))
  {
    var l' := Admit(l, id, r);
    ArriveOk(l.elv, id, r);
    forall q | Booked(q) ensures Total(l', q) == Total(l, q) {
      CountTake(l.allocating, id, q);
      CountPut(l.elv.rqs, id, r, q);
    }
  }

  lemma NoElvPrivOk(l: Layer, id: Id)
    requires LayerInv(l) && id in l.allocating && l.allocating[id].elvPriv
    ensures LayerInv(DropElvPriv(l, id))
  {
    var l' := DropElvPriv(l, id);
    forall q ensures Total(l', q) == Total(l, q) - Tally(q, l.allocating[id]) + Tally(q, l'.allocating[id]) {
      CountReplace(l.allocating, id, l'.allocating[id], q);
    }
  }

  lemma AllocFailOk(l: Layer, id: Id)
    requires LayerInv(l) && id in l.allocating
    ensures LayerInv(Refuse(l, id))
  {
    var l', t := Refuse(l, id), l.allocating[id];
    forall q ensures Total(l', q) == Total(l, q) - Tally(q, t) {
      CountTake(l.allocating, id, q);
    }
    assert l.books.Get(IsSync(t)).count == Total(l, OfClass(IsSync(t)));
    assert Tally(OfClass(IsSync(t)), t) == 1;
    AllocFailedOk(l.books, IsSync(t), t.elvPriv);
    forall s ensures l'.books.Get(s).count == Total(l', OfClass(s)) {
      assert s == IsSync(t) || s == !IsSync(t);
    }
  }

  lemma FillOk(l: Layer, id: Id, r: Request)
    requires LayerInv(l) && Outside(l.elv, id) && Fresh(r) && SameKind(Rq(l.elv, id), r)
    ensures LayerInv(l.(elv := SetRq(l.elv, id, r)))
  {
    ReplaceOutsideOk(l.elv, id, r);
    ReplaceSameKinds(l.elv, SetRq(l.elv, id, r), id, r);
    KindsOk(l, SetRq(l.elv, id, r));
  }

  lemma ReplaceOutsideOk(st: State, id: Id, r: Request)
    requires Inv(st) && Outside(st, id) && Fresh(r)
    ensures Inv(SetRq(st, id, r)) && (forall x :: Outside(SetRq(st, id, r), x) <==> Outside(st, x))
  {
    ForgetOk(st, id);
    var st1 := st.(rqs := st.rqs - {id});
    ArriveOk(st1, id, r);
    assert st1.rqs[id := r] == SetRq(st, id, r).rqs;
  }

  // -------------------------------------------------------- elevator events

  /** Every elevator event gives back exactly the requests that are gone. */
  lemma ElvBalanced(st: State, e: Machine.Event, q: Query)
    requires Inv(st) && Machine.Enabled(st, e) && !e.Arrive? && Booked(q)
    ensures Balanced(st, Machine.Step(st, e), Freed(st, e), q)
  {
    var st' := Machine.Step(st, e);
    match e
    case Insert(id, at, env) => AddRequestBalanced(st, id, at, env, q);
    case SubmitBio(sub, env) => MergeBioBalanced(st, sub, env, q);
    case Abandon(id) => RemovalBalanced(st, st', id, q);
    case Finish(id) => RemovalBalanced(st, st', id, q);
    case _ =>
      QuietSameKinds(st, e);
      SameKindsBalanced(st, st', q);
  }

  lemma QuietSameKinds(st: State, e: Machine.Event)
    requires Inv(st) && Machine.Enabled(st, e)
    requires !e.Arrive? && !e.Insert? && !e.SubmitBio? && !e.Abandon? && !e.Finish?
    ensures SameKinds(st, Machine.Step(st, e))
  {
    match e
    case DrainAll => DrainSameKinds(st, {});
    case PeekNext(flushHeld, bypass) => PeekSameKinds(st, flushHeld, bypass);
    case GiveBack(id) => RequeueSameKinds(st, id);
    case Partly(id, _) => ReplaceSameKinds(st, Machine.Step(st, e), id, Rq(Machine.Step(st, e), id));
    case Forbid(id) => ReplaceSameKinds(st, Machine.Step(st, e), id, Rq(st, id).(noMerge := true));
    case _ =>
  }

  lemma RequeueSameKinds(st: State, id: Id)
    requires id in st.rqs
    ensures SameKinds(st, Requeue(st, id))
  {
    var st1 := Withdraw(st, id);
    ReplaceSameKinds(st, st1, id, Rq(st, id).(started := false));
    var st2 := MarkBoundary(st1, id);
    FrontSameKinds(st2, id);
    SameKindsTrans(st, st2, InsertFront(st2, id));
  }

  lemma FrontSameKinds(st: State, id: Id)
    requires id in st.rqs
    ensures SameKinds(st, InsertFront(st, id))
  {
    ReplaceSameKinds(st, InsertFront(st, id), id, Rq(st, id).(softBarrier := true));
  }

  lemma PeekHeadSameKinds(st: State)
    requires st.queue != []
    ensures SameKinds(st, PeekHead(st))
  {
  }

  lemma PeekSameKinds(st: State, flushHeld: bool, bypass: bool)
    requires Inv(st)
    ensures SameKinds(st, Peek(st, flushHeld, bypass))
  {
    DispatchSameKinds(st);
    var st1 := NextRequest(st, flushHeld, bypass);
    if st1.queue != [] {
      PeekHeadSameKinds(st1);
      SameKindsTrans(st, st1, PeekHead(st1));
    }
  }

  lemma SameKindsTrans(st: State, st1: State, st2: State)
    requires SameKinds(st, st1) && SameKinds(st1, st2)
    ensures SameKinds(st, st2)
  {
  }

  lemma ElvStepOk(l: Layer, e: Machine.Event)
    requires LayerInv(l) && ElvEnabled(l, e)
    ensures LayerInv(ElvStep(l, e))
  {
    Machine.StepKeepsInv(l.elv, e);
    forall q | Booked(q) ensures Balanced(l.elv, Machine.Step(l.elv, e), Freed(l.elv, e), q) {
      ElvBalanced(l.elv, e, q);
    }
    BackFence.OutsideExact(l.elv, e);
    assert Balanced(l.elv, Machine.Step(l.elv, e), Freed(l.elv, e), WithElvPriv);
    SettleBooks(l, Machine.Step(l.elv, e), Freed(l.elv, e), ElvStep(l, e).plugged);
  }

  /** Requests that are gone and the books that stopped counting them. */
  lemma SettleLedger(l: Layer, l': Layer, freed: seq<Request>)
    requires Ledger(l) && l'.allocating == l.allocating
    requires forall q :: Booked(q) ==> Balanced(l.elv, l'.elv, freed, q)
    requires forall s :: l'.books.Get(s).count == l.books.Get(s).count - TallyAll(OfClass(s), freed)
    requires l'.books.elvPriv == l.books.elvPriv - TallyAll(WithElvPriv, freed)
    ensures Ledger(l') && l'.books.elvPriv <= l.books.elvPriv
  {
    forall s ensures l'.books.Get(s).count == Total(l', OfClass(s)) {
      assert Balanced(l.elv, l'.elv, freed, OfClass(s));
    }
    assert Balanced(l.elv, l'.elv, freed, WithElvPriv);
  }

  lemma EnoughToFree(l: Layer, st': State, freed: seq<Request>)
    requires Ledger(l) && forall q :: Booked(q) ==> Balanced(l.elv, st', freed, q)
    ensures forall s :: TallyAll(OfClass(s), freed) <= l.books.Get(s).count
  {
    forall s ensures TallyAll(OfClass(s), freed) <= l.books.Get(s).count {
      assert Balanced(l.elv, st', freed, OfClass(s));
    }
  }

  /** The books after a step that turned `l.elv` into `st'` and freed `freed`. */
  lemma SettleBooks(l: Layer, st': State, freed: seq<Request>, plugged: set<Id>)
    requires LayerInv(l) && Inv(st') && st'.rqs.Keys <= l.elv.rqs.Keys
    requires forall q :: Booked(q) ==> Balanced(l.elv, st', freed, q)
    requires forall id :: id in plugged ==> Outside(st', id)
    ensures LayerInv(l.(elv := st', books := FreedAll(l.books, freed), plugged := plugged))
  {
    EnoughToFree(l, st', freed);
    FreedAllOk(l.books, freed);
    SettleLedger(l, l.(elv := st', books := FreedAll(l.books, freed), plugged := plugged), freed);
  }

  // --------------------------------------------------- bypass and switching

  /** A step that changes only the bypass fields. */
  lemma GateOk(l: Layer, l': Layer)
    requires LayerInv(l) && Gate(l')
    requires l'.elv == l.elv && l'.books == l.books && l'.allocating == l.allocating && l'.plugged == l.plugged
    ensures LayerInv(l')
  {
  }

  /** A step that changes the elevator without touching its requests' kinds or places outside. */
  lemma KindsOk(l: Layer, st': State)
    requires LayerInv(l) && Inv(st') && SameKinds(l.elv, st')
    requires forall x :: Outside(l.elv, x) ==> Outside(st', x)
    ensures LayerInv(l.(elv := st'))
  {
    var l' := l.(elv := st');
    forall q | Booked(q) ensures Total(l', q) == Total(l, q) {
      SameKindsBalanced(l.elv, st', q);
    }
  }

  lemma DrainPassOk(l: Layer)
    requires LayerInv(l)
    ensures LayerInv(l.(elv := Drain(l.elv)))
  {
    DrainOk(l.elv, {});
    DrainSameKinds(l.elv, {});
    KindsOk(l, Drain(l.elv));
  }

  lemma MergingOk(l: Layer)
    requires LayerInv(l)
    ensures LayerInv(l.(elv := l.elv.(noMerges := true, noXMerges := true)))
  {
    Machine.SetMergingOk(l.elv, true, true);
    KindsOk(l, l.elv.(noMerges := true, noXMerges := true));
  }

  /** Replacing the scheduler of a quiesced queue. */
  lemma SwapLayerOk(l: Layer, s: Scheduler)
    requires LayerInv(l) && l.books.elvPriv == 0 && Blank(s)
    ensures Blank(l.elv.sched) && LayerInv(l.(elv := l.elv.(sched := s)))
  {
    NoElvPrivNothingPending(l.elv);
    Machine.SwapOk(l.elv, s);
    KindsOk(l, l.elv.(sched := s));
  }

  lemma SwitchInitOk(l: Layer, ok: bool)
    requires LayerInv(l) && l.sw.Quiesced?
    ensures LayerInv(Install(l, ok))
  {
    if ok {
      SwapLayerOk(l, IDLE_SCHEDULER);
      GateOk(l.(elv := l.elv.(sched := IDLE_SCHEDULER)), Install(l, ok));
    } else {
      GateOk(l, Install(l, ok));
    }
  }

  lemma SwitchFinishOk(l: Layer, registered: bool)
    requires LayerInv(l) && l.sw.Installed?
    ensures LayerInv(Conclude(l, registered))
  {
    if registered {
      GateOk(l, Conclude(l, registered));
    } else {
      SwapLayerOk(l, l.sw.replaced);
      GateOk(l.(elv := l.elv.(sched := l.sw.replaced)), Conclude(l, registered));
    }
  }

  lemma ResizeLayerOk(l: Layer, nr: nat)
    requires LayerInv(l) && nr >= 1
    ensures LayerInv(l.(books := Resize(l.books, nr)))
  {
    ResizeOk(l.books, nr);
    SameCountsOk(l, Resize(l.books, nr));
  }

  lemma CleanUpOk(l: Layer)
    requires LayerInv(l) && !l.closed
    ensures LayerInv(Close(l))
  {
    MergingOk(l);
    GateOk(l.(elv := l.elv.(noMerges := true, noXMerges := true)), Close(l));
  }

  lemma PlugOk(l: Layer, id: Id)
    requires LayerInv(l) && Outside(l.elv, id)
    ensures LayerInv(l.(plugged := l.plugged + {id}))
  {
    var l' := l.(plugged := l.plugged + {id});
    forall q ensures Total(l', q) == Total(l, q) {
    }
  }

  /** The events that change nothing but bypass fields. */
  predicate Clerical(e: Event) {
    || e.BypassStart? || e.BypassEnd? || e.MarkDying? || e.InitDone? || e.EndInitialHold?
    || e.SwitchStart? || e.DrainCheck?
  }

  lemma ClericalGate(l: Layer, e: Event)
    requires Gate(l) && Enabled(l, e) && Clerical(e)
    ensures var l' := Step(l, e);
            && Gate(l')
            && l'.elv == l.elv && l'.books == l.books && l'.allocating == l.allocating && l'.plugged == l.plugged
  {
  }

  lemma ClericalOk(l: Layer, e: Event)
    requires LayerInv(l) && Enabled(l, e) && Clerical(e)
    ensures LayerInv(Step(l, e))
  {
    ClericalGate(l, e);
    GateOk(l, Step(l, e));
  }

  /** The steps of a task that allocates, fills and plugs requests, and of the limit. */
  predicate Tasks(e: Event) {
    e.Get? || e.AllocDone? || e.NoElvPriv? || e.AllocFail? || e.SetLimit? || e.Fill? || e.Plug?
  }

  lemma TaskStepOk(l: Layer, e: Event)
    requires LayerInv(l) && Enabled(l, e) && Tasks(e)
    ensures LayerInv(Step(l, e))
  {
    match e
    case Get(id, write, sync, forElevator, may, batching) =>
      ReserveOk(l, id, Ticket(write, sync, forElevator && !l.bypass), may, batching);
    case AllocDone(id, r) => AllocDoneOk(l, id, r);
    case NoElvPriv(id) => NoElvPrivOk(l, id);
    case AllocFail(id) => AllocFailOk(l, id);
    case SetLimit(nr) => ResizeLayerOk(l, nr);
    case Fill(id, r) => FillOk(l, id, r);
    case Plug(id) => PlugOk(l, id);
  }

  /** Every step of the interleaved system keeps the invariant. */
  lemma StepKeepsLayer(l: Layer, e: Event)
    requires LayerInv(l) && Enabled(l, e)
    ensures LayerInv(Step(l, e))
  {
    if Tasks(e) {
      TaskStepOk(l, e);
    } else if Clerical(e) {
      ClericalOk(l, e);
    } else {
      match e
      case Elv(x) => ElvStepOk(l, x);
      case CleanUp => CleanUpOk(l);
      case DrainPass => DrainPassOk(l);
      case SwitchInit(ok) => SwitchInitOk(l, ok);
      case SwitchFinish(registered) => SwitchFinishOk(l, registered);
    }
  }

  lemma EmptyCount(m: map<Id, Request>, q: Query)
    requires m == map[]
    ensures Count(m.Keys, m, q) == 0
  {
    assert Matching(m.Keys, m, q) == {};
  }

  lemma InitLayer(nr: nat, sortDispatch: bool)
    requires nr >= 1
    ensures LayerInv(Init(nr, sortDispatch))
  {
    Machine.InitInv(sortDispatch);
    NewBooksOk(nr);
    forall q ensures Total(Init(nr, sortDispatch), q) == 0 {
      EmptyCount(map[], q);
    }
  }

  lemma {:induction false} RunKeepsLayer(l: Layer, es: seq<Event>)
    requires LayerInv(l) && Runs(l, es)
    ensures LayerInv(After(l, es))
    decreases |es|
  {
    if es != [] {
      StepKeepsLayer(l, es[0]);
      RunKeepsLayer(Step(l, es[0]), es[1..]);
    }
  }

  // ---------------------------------------------------------------- theorems

  lemma NoElvTrip(l: Layer, e: Machine.Event)
    requires Inv(l.elv) && Enabled(l, Elv(e))
    ensures !Trips(l, Elv(e))
  {
    match e
    case Insert(id, at, env) => NoAddRequestTrip(l.elv, id, at, env);
    case SubmitBio(sub, env) => NoBioTrip(l.elv, sub, env);
    case _ => HashedIsPending(l.elv);
  }

  lemma NoTrip(l: Layer, e: Event)
    requires LayerInv(l) && Enabled(l, e)
    ensures !Trips(l, e)
  {
    match e
    case Elv(x) => NoElvTrip(l, x);
    case SwitchFinish(_) => NoElvPrivNothingPending(l.elv);
    case _ =>
  }

  /** In every run of every interleaving, no BUG_ON fires and the bypass depth never goes negative. */
  lemma NoBugOn(nr: nat, sortDispatch: bool, es: seq<Event>, e: Event)
    requires nr >= 1 && Runs(Init(nr, sortDispatch), es) && Enabled(After(Init(nr, sortDispatch), es), e)
    ensures !Trips(After(Init(nr, sortDispatch), es), e)
  {
    InitLayer(nr, sortDispatch);
    RunKeepsLayer(Init(nr, sortDispatch), es);
    NoTrip(After(Init(nr, sortDispatch), es), e);
  }

  /**
   While a switch has drained the queue and not yet ended, the queue is in bypass, no request with
   elevator data is live or being allocated, and the current and the replaced scheduler are empty.
   */
  lemma SwitchIsQuiet(nr: nat, sortDispatch: bool, es: seq<Event>)
    requires nr >= 1 && Runs(Init(nr, sortDispatch), es)
    ensures var l := After(Init(nr, sortDispatch), es);
            l.sw.Quiesced? || l.sw.Installed? ==>
              && l.bypass && Blank(l.elv.sched) && l.elv.lastMerge == None && l.elv.nrSorted == 0
              && (l.sw.Installed? ==> Blank(l.sw.replaced))
              && (forall id :: id in l.elv.rqs ==> !l.elv.rqs[id].elvPriv)
              && (forall id :: id in l.allocating ==> !l.allocating[id].elvPriv)
  {
    InitLayer(nr, sortDispatch);
    RunKeepsLayer(Init(nr, sortDispatch), es);
    var l := After(Init(nr, sortDispatch), es);
    if l.sw.Quiesced? || l.sw.Installed? {
      NoElvPrivNothingPending(l.elv);
      assert Matching(l.allocating.Keys, l.allocating, WithElvPriv) == {};
      forall id | id in l.allocating ensures !l.allocating[id].elvPriv {
        assert id in Matching(l.allocating.Keys, l.allocating, WithElvPriv) <==> l.allocating[id].elvPriv;
      }
    }
  }

  /** How many of the places a request can be in hold it, from allocation to the driver. */
  ghost function Places(l: Layer, id: Id): nat {
    Ones(id in l.allocating)
    + Ones(id in l.plugged) + Ones(Outside(l.elv, id) && id !in l.plugged)
    + multiset(l.elv.sched.higher)[id] + multiset(l.elv.sched.lower)[id]
    + multiset(l.elv.queue)[id] + Ones(id in l.elv.driver)
  }

  /**
   In every reachable state each request is in exactly one place: being allocated, held by its task,
   on a plug list, on a greedy list, on the dispatch queue or with the driver. The allocator's counts
   are exactly the numbers of such requests, and no counter is negative.
   */
  lemma OnePlaceAndExactCounts(nr: nat, sortDispatch: bool, es: seq<Event>, id: Id)
    requires nr >= 1 && Runs(Init(nr, sortDispatch), es)
    ensures var l := After(Init(nr, sortDispatch), es);
            && Places(l, id) == Ones(id in l.allocating || id in l.elv.rqs)
            && (forall s :: l.books.Get(s).count == l.books.Get(s).nrRqs == Total(l, OfClass(s)) >= 0)
            && l.books.elvPriv == Total(l, WithElvPriv) >= 0
            && l.elv.nrSorted == |l.elv.sched.higher| + |l.elv.sched.lower|
            && (forall s :: l.elv.inFlight.Get(s) == Count(l.elv.driver, l.elv.rqs, InFlight(s)) >= 0)
  {
    InitLayer(nr, sortDispatch);
    RunKeepsLayer(Init(nr, sortDispatch), es);
    var l := After(Init(nr, sortDispatch), es);
    Machine.NoDupOnce(l.elv.sched.higher, id);
    Machine.NoDupOnce(l.elv.sched.lower, id);
    Machine.NoDupOnce(l.elv.queue, id);
    assert id in l.plugged ==> Outside(l.elv, id);
    forall s ensures l.books.Get(s).count == l.books.Get(s).nrRqs {
      assert ClassOk(l.books.Get(s), l.books.limits);
    }
  }
}
