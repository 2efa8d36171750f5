/**
 The BUG_ONs on the merge paths: what they check, at the moment the code checks it, and that the
 elevator invariant rules all of them out.
 */
module BugOns {
  import opened BioChains
  import opened Requests
  import opened Elevator
  import opened ElevatorSafety

  // ------------------------------------------------------------ what is checked

  /** elv_rqhash_find: a node in the table without REQ_HASHED. */
  ghost predicate FindTrips(st: State) {
    exists e :: e in st.sched.hash && !Rq(st, e.id).hashed
  }

  /** __blk_put_request: the request is still linked or hashed. */
  ghost predicate PutTrips(st: State, id: Id) { InElevator(st, id) || Rq(st, id).hashed }

  /** ELEVATOR_INSERT_SORT: not a file system request; and elv_rqhash_add: already hashed. */
  predicate SortTrips(st: State, id: Id) {
    !Rq(st, id).fs || (Mergeable(Rq(st, id)) && Rq(st, id).hashed)
  }

  /** The put at the end of a request merge. */
  ghost predicate MergeTrips(st: State, id: Id, next: Id) { PutTrips(Absorbed(st, id, next), next) }

  /** The insertion-merge loop, lookup by lookup and merge by merge. */
  ghost predicate CascadeTrips(st: State, id: Id, env: Env)
    decreases |st.rqs.Keys|
  {
    var f := HashFind(st, env.bucket, Pos(Rq(st, id)));
    || FindTrips(st)
    || (f.found.Some? && Joins(f.st, f.found.value, id, env)
        && (MergeTrips(f.st, f.found.value, id)
            || (var m := MergeRequests(f.st, f.found.value, id);
                assert m.st.rqs.Keys == st.rqs.Keys - {id} && id in st.rqs.Keys;
                CascadeTrips(m.st, f.found.value, env))))
  }

  ghost predicate InsertMergeTrips(st: State, id: Id, env: Env) {
    if st.noMerges then false
    else if st.lastMerge.Some? && Joins(st, st.lastMerge.value, id, env) then MergeTrips(st, st.lastMerge.value, id)
    else !st.noXMerges && CascadeTrips(st, id, env)
  }

  /** __elv_add_request. */
  ghost predicate AddRequestTrips(st: State, id: Id, at: Where, env: Env) {
    var st1 := MarkBoundary(st, id);
    match Redirect(Rq(st, id), at)
    case Front => false
    case Back => false
    case Sort => SortTrips(st1, id)
    case SortMerge =>
      var m := InsertMerge(st1, id, env);
      InsertMergeTrips(st1, id, env) || (m.freed == [] && SortTrips(m.st, id))
  }

  ghost predicate BackMergeTrips(st: State, id: Id, bio: Bio, env: Env) {
    var st1 := SetRq(st, id, Rq(st, id).(body := Append(Rq(st, id).body, bio)));
    var next := LatterRequest(st1.sched, id);
    next.Some? && Joins(st1, id, next.value, env) && MergeTrips(st1, id, next.value)
  }

  ghost predicate FrontMergeTrips(st: State, id: Id, bio: Bio, env: Env) {
    var st1 := SetRq(st, id, Rq(st, id).(body := Prepend(Rq(st, id).body, bio)));
    var prev := FormerRequest(st1.sched, id);
    prev.Some? && Joins(st1, prev.value, id, env) && MergeTrips(st1, prev.value, id)
  }

  /** The merge half of blk_queue_bio; the lookup may look at any node. */
  ghost predicate BioTrips(st: State, sub: Submission, env: Env) {
    var c := ElvMerge(st, sub, env);
    || FindTrips(st)
    || (c.kind.BackMerge? && c.kind.id in env.fits && BackMergeTrips(c.st, c.kind.id, sub.bio, env))
    || (c.kind.FrontMerge? && c.kind.id in env.fits && FrontMergeTrips(c.st, c.kind.id, sub.bio, env))
  }

  // -------------------------------------------------------------- none of it fires

  /** Only pending requests are hashed. */
  lemma HashedIsPending(st: State)
    requires Inv(st)
    ensures forall id :: Rq(st, id).hashed ==> Pending(st, id)
    ensures forall id :: Pending(st, id) ==> id !in st.queue && id !in st.driver
  {
    forall id | Rq(st, id).hashed ensures Pending(st, id) {
      assert IdOk(st, id);
    }
  }

  lemma NoFindTrip(st: State)
    requires Inv(st)
    ensures !FindTrips(st)
  {
    forall e | e in st.sched.hash ensures Rq(st, e.id).hashed {
      assert IdOk(st, e.id);
    }
  }

  /** After elv_merge_requests the absorbed request is on no list and not hashed. */
  lemma NoMergeTrip(st: State, id: Id, next: Id)
    requires InvBut(st, {id}) && Pending(st, id) && (Pending(st, next) || Outside(st, next)) && id != next
    ensures !MergeTrips(st, id, next)
  {
    assert IdOk(st, next);
    if Outside(st, next) {
      assert Fresh(Rq(st, next));
    } else {
      assert PendingOk(Rq(st, next));
    }
    UnlinkedAfterRelink(SetRq(st, id, Rq(st, id).(body := Join(Rq(st, id).body, Rq(st, next).body))), id, next);
  }

  lemma UnlinkedAfterRelink(st: State, id: Id, next: Id)
    requires next in st.rqs && id != next && next !in st.queue
    requires Rq(st, next).sorted || (!Pending(st, next) && !Rq(st, next).hashed)
    ensures !PutTrips(ElvMergeRequests(st, id, next), next)
  {
  }

  lemma {:induction false} NoCascadeTrip(st: State, id: Id, env: Env)
    requires Inv(st) && (Pending(st, id) || Outside(st, id)) && WellFormed(Rq(st, id).body)
    ensures !CascadeTrips(st, id, env)
    decreases |st.rqs.Keys|
  {
    var f := HashFind(st, env.bucket, Pos(Rq(st, id)));
    NoFindTrip(st);
    HashFindOk(st, env.bucket, Pos(Rq(st, id)));
    if f.found.Some? && Joins(f.st, f.found.value, id, env) {
      var t := f.found.value;
      MergeTurn(f.st, id, t);
      InvStale(f.st, t);
      NoMergeTrip(f.st, t, id);
      NoCascadeTrip(MergeRequests(f.st, t, id).st, t, env);
    }
  }

  lemma NoInsertMergeTrip(st: State, id: Id, env: Env)
    requires Inv(st) && Outside(st, id) && WellFormed(Rq(st, id).body)
    ensures !InsertMergeTrips(st, id, env)
  {
    NoCascadeTrip(st, id, env);
    if st.lastMerge.Some? && st.lastMerge.value != id {
      InvStale(st, st.lastMerge.value);
      NoMergeTrip(st, st.lastMerge.value, id);
    }
  }

  lemma NoAddRequestTrip(st: State, id: Id, at: Where, env: Env)
    requires Inv(st) && MayInsert(st, id, at)
    ensures !AddRequestTrips(st, id, at, env)
  {
    assert Fresh(Rq(st, id));
    if at == SortMerge {
      NoInsertMergeTrip(st, id, env);
      InsertMergeOk(st, id, env);
      var m := InsertMerge(st, id, env);
      if m.freed == [] {
        assert Outside(m.st, id) && Fresh(Rq(m.st, id));
        assert Rq(m.st, id) == Rq(st, id) || Rq(m.st, id) == Rq(st, id).(hashed := false);
      }
    }
  }

  lemma NoBackMergeTrip(st: State, id: Id, bio: Bio, env: Env)
    requires Inv(st) && Pending(st, id) && WholeBio(bio) && bio.sector == End(Rq(st, id))
    ensures !BackMergeTrips(st, id, bio, env)
  {
    GrowBackOk(st, id, bio);
    var st1 := SetRq(st, id, Rq(st, id).(body := Append(Rq(st, id).body, bio)));
    LatterPending(st1, id);
    var next := LatterRequest(st1.sched, id);
    if next.Some? {
      NoMergeTrip(st1, id, next.value);
    }
  }

  lemma NoFrontMergeTrip(st: State, id: Id, bio: Bio, env: Env)
    requires Inv(st) && Pending(st, id) && WholeBio(bio) && BioEnd(bio) == Pos(Rq(st, id))
    ensures !FrontMergeTrips(st, id, bio, env)
  {
    GrowFrontOk(st, id, bio);
    var st1 := SetRq(st, id, Rq(st, id).(body := Prepend(Rq(st, id).body, bio)));
    FormerPending(st1, id);
    var prev := FormerRequest(st1.sched, id);
    if prev.Some? {
      InvStale(st1, prev.value);
      NoMergeTrip(st1, prev.value, id);
    }
  }

  lemma NoBioTrip(st: State, sub: Submission, env: Env)
    requires Inv(st) && WholeBio(sub.bio)
    ensures !BioTrips(st, sub, env)
  {
    NoFindTrip(st);
    ElvMergeOk(st, sub, env);
    var c := ElvMerge(st, sub, env);
    match c.kind
    case BackMerge(id) => NoBackMergeTrip(c.st, id, sub.bio, env);
    case FrontMerge(id) => NoFrontMergeTrip(c.st, id, sub.bio, env);
    case NoMerge =>
  }
}
