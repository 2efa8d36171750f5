/**
 What elevator operations give back to the allocator: after any of them the live requests of a class,
 together with the requests it freed, are the live requests from before.
 */
module AllocatorBalance {
  import opened Types
  import opened BioChains
  import opened Requests
  import opened Elevator
  import opened ElevatorSafety
  import opened RequestLists

  ghost function Live(st: State, q: Query): nat { Count(st.rqs.Keys, st.rqs, q) }

  /** Allocation books do not look at the in-flight state. */
  predicate Booked(q: Query) { !q.InFlight? }

  ghost predicate Balanced(st: State, st': State, freed: seq<Request>, q: Query) {
    st'.rqs.Keys <= st.rqs.Keys && Live(st', q) + TallyAll(q, freed) == Live(st, q)
  }

  /** Same live requests, with the same class and elevator bits. */
  ghost predicate SameKinds(st: State, st': State) {
    && st'.rqs.Keys == st.rqs.Keys
    && forall id :: id in st.rqs ==> SameKind(st.rqs[id], st'.rqs[id])
  }

  predicate SameKind(r: Request, r': Request) {
    r'.write == r.write && r'.sync == r.sync && r'.elvPriv == r.elvPriv
  }

  lemma SameKindsBalanced(st: State, st': State, q: Query)
    requires SameKinds(st, st') && Booked(q)
    ensures Balanced(st, st', [], q)
  {
    forall id | id in st.rqs ensures Holds(q, st.rqs[id]) == Holds(q, st'.rqs[id]) {
      assert SameKind(st.rqs[id], st'.rqs[id]);
    }
    CountSame(st.rqs.Keys, st.rqs, st'.rqs, q);
  }

  lemma BalancedTrans(st: State, st1: State, st2: State, f1: seq<Request>, f2: seq<Request>, q: Query)
    requires Balanced(st, st1, f1, q) && Balanced(st1, st2, f2, q)
    ensures Balanced(st, st2, f1 + f2, q)
  {
    TallyAllConcat(q, f1, f2);
  }

  /** Changes that free nothing may come before or after. */
  lemma SameKindsThen(st: State, st1: State, st2: State, freed: seq<Request>, q: Query)
    requires SameKinds(st, st1) && Balanced(st1, st2, freed, q) && Booked(q)
    ensures Balanced(st, st2, freed, q)
  {
    SameKindsBalanced(st, st1, q);
  }

  /** A request that is gone has been freed. */
  lemma RemovalBalanced(st: State, st': State, id: Id, q: Query)
    requires id in st.rqs && st'.rqs == st.rqs - {id}
    ensures Balanced(st, st', [st.rqs[id]], q)
  {
    assert TallyAll(q, [st.rqs[id]]) == Tally(q, st.rqs[id]) + TallyAll(q, []);
    assert st'.rqs.Keys == st.rqs.Keys - {id};
    CountRemove(st.rqs.Keys, st.rqs, q, id);
    CountSame(st.rqs.Keys - {id}, st.rqs, st'.rqs, q);
  }

  lemma AbsorbsBalanced(st: State, st': State, id: Id, next: Id, r: Request, q: Query)
    requires Absorbs(st, st', id, next, r) && SameKind(Rq(st, id), r) && Booked(q)
    ensures Balanced(st, st', [Rq(st, next)], q)
  {
    var st1 := st.(rqs := st.rqs - {next});
    RemovalBalanced(st, st1, next, q);
    assert SameKinds(st1, st');
    SameKindsBalanced(st1, st', q);
  }

  lemma MergeBalanced(st: State, id: Id, next: Id, q: Query)
    requires InvBut(st, {id}) && Pending(st, id) && (Pending(st, next) || Outside(st, next)) && id != next
    requires WellFormed(Rq(st, next).body) && CanJoin(Rq(st, id), Rq(st, next)) && Booked(q)
    ensures Balanced(st, MergeRequests(st, id, next).st, MergeRequests(st, id, next).freed, q)
  {
    MergeRequestsOk(st, id, next);
    AbsorbsBalanced(st, MergeRequests(st, id, next).st, id, next, Joined(Rq(st, id), Rq(st, next)), q);
  }

  lemma UnhashesSameKinds(st: State, st': State)
    requires Unhashes(st, st')
    ensures SameKinds(st, st')
  {
    forall id | id in st.rqs ensures SameKind(st.rqs[id], st'.rqs[id]) {
      assert Rq(st', id) == Rq(st, id) || Rq(st', id) == Rq(st, id).(hashed := false);
    }
  }

  lemma {:induction false} TraceBalanced(st: State, id: Id, tr: Turns, q: Query)
    requires Traces(st, id, tr) && Booked(q)
    ensures Balanced(st, LastState(tr), FreedBy(tr, id), q)
    decreases tr
  {
    match tr
    case Done(st1) =>
      UnhashesSameKinds(st, st1);
      SameKindsBalanced(st, st1, q);
    case Turn(st1, t, st2, rest) =>
      UnhashesSameKinds(st, st1);
      AbsorbsBalanced(st1, st2, t, id, Joined(Rq(st1, t), Rq(st1, id)), q);
      SameKindsThen(st, st1, st2, [Rq(st1, id)], q);
      TraceBalanced(st2, t, rest, q);
      BalancedTrans(st, st2, LastState(rest), [Rq(st1, id)], FreedBy(rest, t), q);
  }

  lemma CascadeBalanced(st: State, id: Id, env: Env, q: Query)
    requires Inv(st) && (Pending(st, id) || Outside(st, id)) && WellFormed(Rq(st, id).body) && Booked(q)
    ensures Balanced(st, Cascade(st, id, env).st, Cascade(st, id, env).freed, q)
  {
    var tr := CascadeTraces(st, id, env);
    TraceBalanced(st, id, tr, q);
  }

  lemma InsertMergeBalanced(st: State, id: Id, env: Env, q: Query)
    requires Inv(st) && Outside(st, id) && WellFormed(Rq(st, id).body) && Booked(q)
    ensures Balanced(st, InsertMerge(st, id, env).st, InsertMerge(st, id, env).freed, q)
  {
    SameKindsBalanced(st, st, q);
    if st.noMerges {
    } else if st.lastMerge.Some? && Joins(st, st.lastMerge.value, id, env) {
      MergeBalanced(st, st.lastMerge.value, id, q);
    } else if !st.noXMerges {
      CascadeBalanced(st, id, env, q);
    }
  }

  lemma InsertSortedSameKinds(st: State, id: Id)
    requires id in st.rqs
    ensures SameKinds(st, InsertSorted(st, id))
  {
    InsertSortedQueues(st, id);
    ReplaceSameKinds(st, InsertSorted(st, id), id, SortedAs(st.rqs[id]));
  }

  lemma DispatchSameKinds(st: State)
    requires Placed(st)
    ensures SameKinds(st, GreedyDispatch(st))
  {
    if PendingCount(st) > 0 {
      GreedyDispatchMoves(st);
    }
  }

  lemma {:induction false} DrainSameKinds(st: State, but: set<Id>)
    requires InvDuring(st, but)
    ensures SameKinds(st, Drain(st))
    decreases PendingCount(st)
  {
    if PendingCount(st) > 0 {
      DispatchSameKinds(st);
      GreedyDispatchOk(st, but);
      DrainSameKinds(GreedyDispatch(st), but);
    }
  }

  lemma InsertBackSameKinds(st: State, id: Id)
    requires Inv(st) && Outside(st, id)
    ensures SameKinds(st, InsertBack(st, id))
  {
    BarrierOk(st, id);
    DrainSameKinds(SetRq(st, id, Rq(st, id).(softBarrier := true)), {id});
  }

  /** __elv_add_request gives back exactly the requests it merged away. */
  lemma AddRequestBalanced(st: State, id: Id, where_: Where, env: Env, q: Query)
    requires Inv(st) && MayInsert(st, id, where_) && Booked(q)
    ensures Balanced(st, AddRequest(st, id, where_, env).st, AddRequest(st, id, where_, env).freed, q)
  {
    assert Fresh(Rq(st, id));
    var st' := AddRequest(st, id, where_, env).st;
    match Redirect(Rq(st, id), where_)
    case Front => SameKindsBalanced(st, st', q);
    case Back =>
      InsertBackSameKinds(st, id);
      SameKindsBalanced(st, st', q);
    case Sort =>
      InsertSortedSameKinds(st, id);
      SameKindsBalanced(st, st', q);
    case SortMerge =>
      InsertMergeBalanced(st, id, env, q);
      var m := InsertMerge(st, id, env);
      if m.freed == [] {
        InsertMergeOk(st, id, env);
        assert Outside(m.st, id);
        InsertSortedSameKinds(m.st, id);
        SameKindsBalanced(m.st, st', q);
        BalancedTrans(st, m.st, st', [], [], q);
      }
  }

  /** Replacing one request by another of its kind frees nothing. */
  lemma ReplaceSameKinds(st: State, st': State, id: Id, r: Request)
    requires id in st.rqs && st'.rqs == st.rqs[id := r] && SameKind(st.rqs[id], r)
    ensures SameKinds(st, st')
  {
  }

  /** Merging `b` into `a` after request `id` grew into `r`. */
  lemma GrownMergeBalanced(st: State, st1: State, id: Id, r: Request, a: Id, b: Id, q: Query)
    requires id in st.rqs && st1.rqs == st.rqs[id := r] && SameKind(st.rqs[id], r) && Booked(q)
    requires InvBut(st1, {a}) && Pending(st1, a) && Pending(st1, b) && a != b && CanJoin(Rq(st1, a), Rq(st1, b))
    ensures var m := MergeRequests(st1, a, b); Balanced(st, m.st, m.freed, q)
  {
    assert PendingOk(Rq(st1, b));
    MergeBalanced(st1, a, b, q);
    var m := MergeRequests(st1, a, b);
    ReplaceSameKinds(st, st1, id, r);
    SameKindsThen(st, st1, m.st, m.freed, q);
  }

  lemma RepositionBalanced(st: State, st1: State, id: Id, r: Request, q: Query)
    requires id in st.rqs && st1.rqs == st.rqs[id := r] && SameKind(st.rqs[id], r) && Booked(q)
    ensures Balanced(st, Reposition(st1, id).(lastMerge := Some(id)), [], q)
  {
    var st2 := Reposition(st1, id).(lastMerge := Some(id));
    ReplaceSameKinds(st, st2, id, r.(hashed := true));
    SameKindsBalanced(st, st2, q);
  }

  lemma BackMergeBalanced(st: State, id: Id, bio: Bio, env: Env, q: Query)
    requires Inv(st) && Pending(st, id) && WholeBio(bio) && bio.sector == End(Rq(st, id)) && Booked(q)
    ensures Balanced(st, BackMergeBio(st, id, bio, env).st, BackMergeBio(st, id, bio, env).freed, q)
  {
    var r := Rq(st, id).(body := Append(Rq(st, id).body, bio));
    var st1 := SetRq(st, id, r);
    GrowBackOk(st, id, bio);
    LatterPending(st1, id);
    var next := LatterRequest(st1.sched, id);
    if next.Some? && Joins(st1, id, next.value, env) {
      GrownMergeBalanced(st, st1, id, r, id, next.value, q);
    } else {
      RepositionBalanced(st, st1, id, r, q);
    }
  }

  lemma FrontMergeBalanced(st: State, id: Id, bio: Bio, env: Env, q: Query)
    requires Inv(st) && Pending(st, id) && WholeBio(bio) && BioEnd(bio) == Pos(Rq(st, id)) && Booked(q)
    ensures Balanced(st, FrontMergeBio(st, id, bio, env).st, FrontMergeBio(st, id, bio, env).freed, q)
  {
    var r := Rq(st, id).(body := Prepend(Rq(st, id).body, bio));
    var st1 := SetRq(st, id, r);
    GrowFrontOk(st, id, bio);
    FormerPending(st1, id);
    var prev := FormerRequest(st1.sched, id);
    if prev.Some? && Joins(st1, prev.value, id, env) {
      GrownMergeBalanced(st, st1, id, r, prev.value, id, q);
    } else {
      var st2 := st1.(lastMerge := Some(id));
      ReplaceSameKinds(st, st2, id, r);
      SameKindsBalanced(st, st2, q);
    }
  }

  /** A bio merge gives back at most the request it made redundant. */
  lemma MergeBioBalanced(st: State, sub: Submission, env: Env, q: Query)
    requires Inv(st) && WholeBio(sub.bio) && Booked(q)
    ensures Balanced(st, MergeBio(st, sub, env).st, MergeBio(st, sub, env).freed, q)
  {
    ElvMergeOk(st, sub, env);
    var c := ElvMerge(st, sub, env);
    UnhashesSameKinds(st, c.st);
    var m := MergeBio(st, sub, env);
    if c.kind.BackMerge? && c.kind.id in env.fits {
      BackMergeBalanced(c.st, c.kind.id, sub.bio, env, q);
      SameKindsThen(st, c.st, m.st, m.freed, q);
    } else if c.kind.FrontMerge? && c.kind.id in env.fits {
      FrontMergeBalanced(c.st, c.kind.id, sub.bio, env, q);
      SameKindsThen(st, c.st, m.st, m.freed, q);
    } else {
      SameKindsBalanced(st, c.st, q);
    }
  }

  // ----------------------------------------------------------------- the books

  /** freed_request for each request of a list. */
  function FreedAll(b: Books, freed: seq<Request>): Books
    decreases |freed|
  {
    if freed == [] then b else FreedAll(FreedRequest(b, IsSync(freed[0]), freed[0].elvPriv), freed[1..])
  }

  lemma {:induction false} FreedAllOk(b: Books, freed: seq<Request>)
    requires BooksOk(b) && forall s :: TallyAll(OfClass(s), freed) <= b.Get(s).count
    ensures var b' := FreedAll(b, freed);
            && BooksOk(b') && b'.limits == b.limits
            && (forall s :: b'.Get(s).count == b.Get(s).count - TallyAll(OfClass(s), freed))
            && b'.elvPriv == b.elvPriv - TallyAll(WithElvPriv, freed)
    decreases |freed|
  {
    if freed != [] {
      var r := freed[0];
      assert Tally(OfClass(IsSync(r)), r) == 1 && Tally(OfClass(!IsSync(r)), r) == 0;
      assert TallyAll(OfClass(IsSync(r)), freed) >= 1;
      FreedRequestOk(b, IsSync(r), r.elvPriv);
      var b1 := FreedRequest(b, IsSync(r), r.elvPriv);
      forall s ensures TallyAll(OfClass(s), freed[1..]) <= b1.Get(s).count
                       && b1.Get(s).count == b.Get(s).count - Tally(OfClass(s), r)
      {
        assert s == IsSync(r) || s == !IsSync(r);
        assert TallyAll(OfClass(s), freed) == Tally(OfClass(s), r) + TallyAll(OfClass(s), freed[1..]);
      }
      FreedAllOk(b1, freed[1..]);
    }
  }
}
