/**
 What the steps of the block layer must do, beyond keeping its invariant: who is granted a request and
 whether the elevator manages it, where each allocation step leaves it, when a drain is over, and that
 bypass and shutdown only let the counts fall.
 */
module LayerEffects {
  import opened Requests
  import opened Elevator
  import opened ElevatorSafety
  import opened AllocatorBalance
  import opened BlockLayer

  // ----------------------------------------------------------------- allocation

  /** Exactly when a task gets a request. */
  ghost predicate Grants(l: Layer, e: Event)
    requires e.Get?
  {
    var n, nr := l.books.Get(!e.write || e.sync).count, l.books.limits.nr;
    && !l.dying && e.may != RequestLists.No && n < 3 * nr / 2
    && (n < nr || e.may == RequestLists.Must || e.batching)
  }

  lemma ReserveGrants(l: Layer, id: Id, t: Request, may: RequestLists.MayQueue, batching: bool)
    requires RequestLists.BooksOk(l.books) && id !in l.allocating
    ensures var l' := Reserve(l, id, t, may, batching);
            var n, nr := l.books.Get(IsSync(t)).count, l.books.limits.nr;
            && (id in l'.allocating <==>
                  && !l.dying && may != RequestLists.No && n < 3 * nr / 2
                  && (n < nr || may == RequestLists.Must || batching))
            && (id in l'.allocating ==> l'.allocating == l.allocating[id := t])
            && (id !in l'.allocating ==> l'.allocating == l.allocating) && l'.elv == l.elv
  {
    RequestLists.GrantedIff(l.books, IsSync(t), may, batching, t.elvPriv);
  }

  /**
   __get_request: a request is granted exactly under these conditions, of the class asked for, and the
   elevator will manage it exactly when it should and the queue is not bypassed; nobody else is affected.
   */
  lemma GetEffect(l: Layer, e: Event)
    requires LayerInv(l) && e.Get? && Enabled(l, e)
    ensures var l' := Step(l, e);
            && (e.id in l'.allocating <==> Grants(l, e))
            && (Grants(l, e) ==>
                  l'.allocating == l.allocating[e.id := Ticket(e.write, e.sync, e.forElevator && !l.bypass)])
            && (!Grants(l, e) ==> l'.allocating == l.allocating) && l'.elv == l.elv
  {
    ReserveGrants(l, e.id, Ticket(e.write, e.sync, e.forElevator && !l.bypass), e.may, e.batching);
  }

  /** Where the later steps of an allocation leave the request, and what is counted then. */
  lemma AllocationEffect(l: Layer, e: Event)
    requires LayerInv(l) && Enabled(l, e) && (e.AllocDone? || e.NoElvPriv? || e.AllocFail?)
    ensures var l' := Step(l, e);
            && (e.AllocDone? ==> && e.id !in l'.allocating && Outside(l'.elv, e.id) && Rq(l'.elv, e.id) == e.r
                                 && l'.books == l.books)
            && (e.NoElvPriv? ==> && e.id in l'.allocating && !l'.allocating[e.id].elvPriv && l'.elv == l.elv
                                 && l'.books.elvPriv == l.books.elvPriv - 1)
            && (e.AllocFail? ==> e.id !in l'.allocating && e.id !in l'.elv.rqs && l'.elv == l.elv)
  {
    match e
    case AllocDone(id, r) =>
      assert Step(l, e) == Admit(l, id, r);
      ArriveOk(l.elv, id, r);
    case NoElvPriv(id) => assert Step(l, e) == DropElvPriv(l, id);
    case AllocFail(id) => assert Step(l, e) == Refuse(l, id);
  }

  lemma OwnerEffect(l: Layer, e: Event)
    requires Enabled(l, e) && (e.Plug? || e.Fill? || e.SetLimit?)
    ensures var l' := Step(l, e);
            && (e.Plug? ==> e.id in l'.plugged && l'.elv == l.elv)
            && (e.Fill? ==> Rq(l'.elv, e.id) == e.r)
            && (e.SetLimit? ==> l'.books.limits.nr == e.nr && l'.allocating == l.allocating && l'.elv == l.elv)
  {
  }

  // ------------------------------------------------------------ bypass and drain

  /** No request with elevator data is live or being allocated. */
  ghost predicate NoElvPrivAnywhere(l: Layer) {
    && (forall id :: id in l.elv.rqs ==> !l.elv.rqs[id].elvPriv)
    && (forall id :: id in l.allocating ==> !l.allocating[id].elvPriv)
  }

  lemma CountZero(m: map<Id, Request>)
    ensures Count(m.Keys, m, WithElvPriv) == 0 <==> forall id :: id in m ==> !m[id].elvPriv
  {
    var found := Matching(m.Keys, m, WithElvPriv);
    assert forall id :: id in found <==> id in m && m[id].elvPriv;
    if forall id :: id in m ==> !m[id].elvPriv {
      assert found == {};
    }
    if |found| == 0 {
      assert found == {};
    }
  }

  /** nr_rqs_elvpriv is zero exactly when there is no such request. */
  lemma ElvPrivZeroIff(l: Layer)
    requires LayerInv(l)
    ensures l.books.elvPriv == 0 <==> NoElvPrivAnywhere(l)
  {
    CountZero(l.elv.rqs);
    CountZero(l.allocating);
  }

  /** The drain ends exactly when no ELVPRIV request is left anywhere and request_fn is not running. */
  lemma DrainEndsIff(l: Layer, fnActive: bool)
    requires LayerInv(l) && l.sw.Draining?
    ensures Step(l, DrainCheck(fnActive)).sw.Quiesced? <==> NoElvPrivAnywhere(l) && !fnActive
  {
    ElvPrivZeroIff(l);
  }

  /** The steps that enter and prepare bypass mode take effect. */
  lemma GateEffect(l: Layer, e: Event)
    requires Enabled(l, e)
    requires e.SwitchStart? || e.BypassStart? || e.CleanUp? || e.MarkDying? || e.DrainPass? || e.InitDone?
    ensures var l' := Step(l, e);
            && (e.SwitchStart? || e.BypassStart? || e.CleanUp? ==> l'.bypass && l'.depth == l.depth + 1)
            && (e.SwitchStart? ==> !l'.sw.Idle? && !l'.sw.Installed? && (l.initDone ==> l'.sw.Draining?))
            && (e.CleanUp? ==> l'.elv.noMerges && l'.elv.noXMerges)
            && (e.MarkDying? ==> l'.dying) && (e.InitDone? ==> l'.initDone)
            && (e.DrainPass? ==> PendingCount(l'.elv) == 0)
  {
    match e
    case SwitchStart =>
    case BypassStart =>
    case CleanUp => assert Step(l, e) == Close(l);
    case MarkDying =>
    case InitDone =>
    case DrainPass => assert Step(l, e) == l.(elv := Drain(l.elv));
  }

  // ------------------------------------------------------------- only downwards

  lemma ElvCountsFall(l: Layer, e: Machine.Event, q: Query)
    requires LayerInv(l) && ElvEnabled(l, e) && Booked(q)
    ensures Total(ElvStep(l, e), q) <= Total(l, q)
  {
    ElvBalanced(l.elv, e, q);
  }

  lemma TaskCountsFall(l: Layer, e: Event, q: Query)
    requires LayerInv(l) && Tasks(e) && !e.Get? && Enabled(l, e) && Booked(q)
    ensures Total(Step(l, e), q) <= Total(l, q)
  {
    match e
    case AllocDone(id, r) =>
      assert Step(l, e) == Admit(l, id, r);
      CountTake(l.allocating, id, q);
      CountPut(l.elv.rqs, id, r, q);
    case NoElvPriv(id) =>
      assert Step(l, e) == DropElvPriv(l, id);
      CountReplace(l.allocating, id, l.allocating[id].(elvPriv := false), q);
    case AllocFail(id) =>
      assert Step(l, e) == Refuse(l, id);
      CountTake(l.allocating, id, q);
    case Fill(id, r) => CountReplace(l.elv.rqs, id, r, q);
    case Plug(_) =>
    case SetLimit(_) =>
  }

  lemma GetCounts(l: Layer, e: Event, q: Query)
    requires LayerInv(l) && e.Get? && Enabled(l, e)
    ensures Total(Step(l, e), q)
            == Total(l, q) + (if Grants(l, e) then Tally(q, Ticket(e.write, e.sync, e.forElevator && !l.bypass)) else 0)
  {
    GetEffect(l, e);
    CountPut(l.allocating, e.id, Ticket(e.write, e.sync, e.forElevator && !l.bypass), q);
  }

  lemma TurnsSameRequests(l: Layer, e: Event)
    requires Enabled(l, e) && (e.CleanUp? || e.SwitchInit? || e.SwitchFinish?)
    ensures Step(l, e).elv.rqs == l.elv.rqs && Step(l, e).allocating == l.allocating
  {
    match e
    case CleanUp => assert Step(l, e) == Close(l);
    case SwitchInit(ok) => assert Step(l, e) == Install(l, ok);
    case SwitchFinish(registered) => assert Step(l, e) == Conclude(l, registered);
  }

  lemma DrainCounts(l: Layer, q: Query)
    requires LayerInv(l) && Booked(q)
    ensures Total(l.(elv := Drain(l.elv)), q) == Total(l, q)
  {
    DrainSameKinds(l.elv, {});
    SameKindsBalanced(l.elv, Drain(l.elv), q);
  }

  lemma SwitchCounts(l: Layer, e: Event, q: Query)
    requires LayerInv(l) && Enabled(l, e) && !Tasks(e) && !e.Elv? && Booked(q)
    ensures Total(Step(l, e), q) == Total(l, q)
  {
    if e.DrainPass? {
      DrainCounts(l, q);
      assert Step(l, e) == l.(elv := Drain(l.elv));
    } else if Clerical(e) {
      ClericalGate(l, e);
    } else {
      TurnsSameRequests(l, e);
    }
  }

  /** Only a granted request raises a count, and only its own. */
  lemma CountsStep(l: Layer, e: Event, q: Query)
    requires LayerInv(l) && Enabled(l, e) && Booked(q)
    ensures Total(Step(l, e), q) <= Total(l, q) || (e.Get? && Grants(l, e))
    ensures q == WithElvPriv && l.bypass ==> Total(Step(l, e), q) <= Total(l, q)
  {
    if e.Elv? {
      ElvCountsFall(l, e.e, q);
    } else if e.Get? {
      GetCounts(l, e, q);
    } else if Tasks(e) {
      TaskCountsFall(l, e, q);
    } else {
      SwitchCounts(l, e, q);
    }
  }

  /** While the queue is bypassed nr_rqs_elvpriv never rises, so a drain only makes progress. */
  lemma BypassOnlyDrains(l: Layer, e: Event)
    requires LayerInv(l) && Enabled(l, e) && l.bypass
    ensures Step(l, e).books.elvPriv <= l.books.elvPriv
  {
    StepKeepsLayer(l, e);
    CountsStep(l, e, WithElvPriv);
  }

  /** A dying queue stays dying, and its counts never rise again. */
  lemma DyingOnlyShrinks(l: Layer, e: Event, s: bool)
    requires LayerInv(l) && Enabled(l, e) && l.dying
    ensures Step(l, e).dying && Step(l, e).books.Get(s).count <= l.books.Get(s).count
  {
    StepKeepsLayer(l, e);
    CountsStep(l, e, OfClass(s));
    StaysDying(l, e);
  }

  lemma StaysDying(l: Layer, e: Event)
    requires Enabled(l, e) && l.dying
    ensures Step(l, e).dying
  {
    match e
    case Get(id, write, sync, forElevator, may, batching) =>
      assert Step(l, e) == Reserve(l, id, Ticket(write, sync, forElevator && !l.bypass), may, batching);
    case Elv(x) => assert Step(l, e) == ElvStep(l, x);
    case _ =>
  }
}
