/**
 When merging must happen: which request elv_merge has to offer for a bio, when an inserted request has
 to be merged away, and that the insertion-merge loop stops only where it can go no further.
 */
module MergeOffers {
  import opened Types
  import opened BioChains
  import opened Requests
  import opened Elevator
  import opened ElevatorSafety

  /** A request that a back merge at sector `at` can use: pending, mergeable and ending there. */
  ghost predicate Candidate(st: State, x: Id, at: nat) {
    Pending(st, x) && Mergeable(Rq(st, x)) && End(Rq(st, x)) == at
  }

  lemma UnhashesCandidates(st: State, st': State, at: nat)
    requires Unhashes(st, st')
    ensures forall x :: Candidate(st', x, at) <==> Candidate(st, x, at)
    ensures forall x :: Candidate(st, x, at) ==> Rq(st', x) == Rq(st, x)
  {
    forall x ensures Candidate(st', x, at) <==> Candidate(st, x, at) {
      assert Rq(st', x) == Rq(st, x) || Rq(st', x) == Rq(st, x).(hashed := false);
    }
  }

  // ------------------------------------------------------------------ elv_merge

  /** The request can still be merged, and goes the way of the bio and is of its kind. */
  predicate Compatible(r: Request, sub: Submission) {
    && r.fs && !r.noMerge && !r.started && !r.softBarrier && !r.flush
    && r.write == sub.write && r.discard == sub.discard
  }

  /** The one-hit cache holds a request the bio may be merged into. */
  ghost predicate CacheMay(st: State, sub: Submission, env: Env) {
    st.lastMerge.Some? && st.lastMerge.value in env.allowed && Compatible(Rq(st, st.lastMerge.value), sub)
  }

  ghost predicate CacheBack(st: State, sub: Submission, env: Env) {
    CacheMay(st, sub, env) && End(Rq(st, st.lastMerge.value)) == sub.bio.sector
  }

  ghost predicate CacheFront(st: State, sub: Submission, env: Env) {
    CacheMay(st, sub, env) && Pos(Rq(st, st.lastMerge.value)) == BioEnd(sub.bio)
  }

  /** There is a candidate for the bio, and every one of them may take it. */
  ghost predicate AllMay(st: State, sub: Submission, env: Env) {
    && (exists x :: Candidate(st, x, sub.bio.sector))
    && (forall x :: Candidate(st, x, sub.bio.sector) ==> x in env.allowed && Compatible(Rq(st, x), sub))
  }

  /** What elv_merge has to answer. */
  ghost predicate OfferDue(st: State, sub: Submission, env: Env, kind: MergeKind) {
    && (st.noMerges ==> kind == NoMerge)
    && (!st.noMerges && CacheBack(st, sub, env) ==> kind == BackMerge(st.lastMerge.value))
    && (!st.noMerges && !CacheBack(st, sub, env) && CacheFront(st, sub, env) ==> kind == FrontMerge(st.lastMerge.value))
    && (!st.noMerges && !CacheBack(st, sub, env) && !CacheFront(st, sub, env) ==>
          && !kind.FrontMerge?
          && (st.noXMerges ==> kind == NoMerge)
          && (!st.noXMerges && AllMay(st, sub, env) ==> kind.BackMerge? && Candidate(st, kind.id, sub.bio.sector))
          && ((forall x :: Candidate(st, x, sub.bio.sector) ==> !(x in env.allowed && Compatible(Rq(st, x), sub))) ==>
                kind == NoMerge))
  }

  /** An offer is a pending, compatible request that the bio touches at the stated end. */
  ghost predicate Offers(st: State, kind: MergeKind, sub: Submission) {
    match kind
    case BackMerge(id) => Pending(st, id) && Compatible(Rq(st, id), sub) && End(Rq(st, id)) == sub.bio.sector
    case FrontMerge(id) => Pending(st, id) && Compatible(Rq(st, id), sub) && Pos(Rq(st, id)) == BioEnd(sub.bio)
    case NoMerge => true
  }

  /** elv_merge keeps the invariant and makes every offer it has to make, the cache first, and no other. */
  lemma ElvMergeOffers(st: State, sub: Submission, env: Env)
    requires Inv(st)
    ensures var c := ElvMerge(st, sub, env);
            && Inv(c.st) && Unhashes(st, c.st) && Offers(c.st, c.kind, sub)
            && OfferDue(st, sub, env, c.kind)
  {
    ElvMergeOk(st, sub, env);
    WhatIsOffered(st, sub, env);
  }

  lemma WhatIsOffered(st: State, sub: Submission, env: Env)
    requires Inv(st)
    ensures OfferDue(st, sub, env, ElvMerge(st, sub, env).kind)
  {
    HashFindIsScan(st, env.bucket, sub.bio.sector);
    HashFindOk(st, env.bucket, sub.bio.sector);
    var f := HashFind(st, env.bucket, sub.bio.sector);
    UnhashesCandidates(st, f.st, sub.bio.sector);
    assert f.found.Some? ==> Candidate(st, f.found.value, sub.bio.sector);
    assert f.found.None? ==> forall x :: !Candidate(st, x, sub.bio.sector);
  }

  // ----------------------------------------------------------- merge on insertion

  /** No candidate ends where request `t` starts, or some candidate that does not join it. */
  ghost predicate Stuck(st: State, t: Id, env: Env) {
    || (forall x :: !Candidate(st, x, Pos(Rq(st, t))))
    || (exists x :: Candidate(st, x, Pos(Rq(st, t))) && !Joins(st, x, t, env))
  }

  /** The request the loop ended with: the new one, or the one it grew last. */
  function Survivor(m: Merged, id: Id): Id {
    if m.freed != [] && m.st.lastMerge.Some? then m.st.lastMerge.value else id
  }

  lemma StuckByLookup(st: State, id: Id, env: Env)
    requires Inv(st)
    ensures var f := HashFind(st, env.bucket, Pos(Rq(st, id)));
            f.found.None? || !Joins(f.st, f.found.value, id, env) ==> Stuck(f.st, id, env)
  {
    var at := Pos(Rq(st, id));
    HashFindIsScan(st, env.bucket, at);
    HashFindOk(st, env.bucket, at);
    var f := HashFind(st, env.bucket, at);
    UnhashesCandidates(st, f.st, at);
    assert Rq(f.st, id) == Rq(st, id) || Rq(f.st, id) == Rq(st, id).(hashed := false);
    assert f.found.Some? ==> Candidate(f.st, f.found.value, at);
    assert f.found.None? ==> forall x :: !Candidate(st, x, at);
  }

  /** The loop ended with the request it should have ended with, and that one is stuck. */
  ghost predicate Ends(lastMerge: Option<Id>, id: Id, env: Env, m: Merged) {
    && Stuck(m.st, Survivor(m, id), env)
    && (if m.freed == [] then m.st.lastMerge == lastMerge else m.st.lastMerge.Some?)
  }

  lemma EndsLater(lastMerge: Option<Id>, id: Id, t: Id, env: Env, freed: seq<Request>, rest: Merged)
    requires Ends(Some(t), t, env, rest) && freed != []
    ensures Ends(lastMerge, id, env, Merged(rest.st, freed + rest.freed))
  {
    var m := Merged(rest.st, freed + rest.freed);
    assert Survivor(m, id) == Survivor(rest, t);
  }

  /** The insertion-merge loop goes on as long as the lookup finds something to join, and no longer. */
  lemma {:induction false} CascadeStuck(st: State, id: Id, env: Env)
    requires Inv(st) && (Pending(st, id) || Outside(st, id)) && WellFormed(Rq(st, id).body)
    ensures Ends(st.lastMerge, id, env, Cascade(st, id, env))
    decreases |st.rqs.Keys|
  {
    var f := HashFind(st, env.bucket, Pos(Rq(st, id)));
    HashFindOk(st, env.bucket, Pos(Rq(st, id)));
    if f.found.Some? && Joins(f.st, f.found.value, id, env) {
      var t := f.found.value;
      MergeTurn(f.st, id, t);
      var m := MergeRequests(f.st, t, id);
      CascadeStuck(m.st, t, env);
      EndsLater(st.lastMerge, id, t, env, m.freed, Cascade(m.st, t, env));
    } else {
      StuckByLookup(st, id, env);
    }
  }

  ghost predicate CacheJoins(st: State, id: Id, env: Env) {
    st.lastMerge.Some? && Joins(st, st.lastMerge.value, id, env)
  }

  /** What elv_attempt_insert_merge has to do. */
  ghost predicate MergeDue(st: State, id: Id, env: Env, m: Merged) {
    && (st.noMerges ==> m == Merged(st, []))
    && (!st.noMerges && CacheJoins(st, id, env) ==> m.freed == [Rq(st, id)] && m.st.lastMerge == st.lastMerge)
    && (!st.noMerges && !CacheJoins(st, id, env) && st.noXMerges ==> m == Merged(st, []))
    && (!st.noMerges && !CacheJoins(st, id, env) && !st.noXMerges ==> Stuck(m.st, Survivor(m, id), env))
  }

  /** elv_attempt_insert_merge keeps the invariant and merges as far as it has to, and not without need. */
  lemma InsertMergeDue(st: State, id: Id, env: Env)
    requires Inv(st) && Outside(st, id) && WellFormed(Rq(st, id).body)
    ensures var m := InsertMerge(st, id, env);
            && Inv(m.st) && MergeDue(st, id, env, m)
            && (m.freed == [] ==> Unhashes(st, m.st) && Outside(m.st, id))
  {
    InsertMergeOk(st, id, env);
    HowFarItMerges(st, id, env);
  }

  lemma HowFarItMerges(st: State, id: Id, env: Env)
    requires Inv(st) && Outside(st, id) && WellFormed(Rq(st, id).body)
    ensures MergeDue(st, id, env, InsertMerge(st, id, env))
  {
    if !st.noMerges && CacheJoins(st, id, env) {
      MergeTurn(st, id, st.lastMerge.value);
    } else if !st.noMerges && !st.noXMerges {
      CascadeStuck(st, id, env);
    }
  }

  /** A request that every candidate joins, of which there is one, is merged away. */
  lemma InsertMergeMust(st: State, id: Id, env: Env)
    requires Inv(st) && Outside(st, id) && WellFormed(Rq(st, id).body) && !st.noMerges && !st.noXMerges
    requires exists x :: Candidate(st, x, Pos(Rq(st, id)))
    requires forall x :: Candidate(st, x, Pos(Rq(st, id))) ==> Joins(st, x, id, env)
    ensures InsertMerge(st, id, env).freed != []
  {
    var at := Pos(Rq(st, id));
    HashFindIsScan(st, env.bucket, at);
    HashFindOk(st, env.bucket, at);
    var f := HashFind(st, env.bucket, at);
    UnhashesCandidates(st, f.st, at);
    var x :| Candidate(st, x, at);
    assert Joins(st, x, id, env) && Mergeable(Rq(st, id));
    assert Rq(f.st, id) == Rq(st, id);
    assert Candidate(st, f.found.value, at);
  }

  // ------------------------------------------------------------------ bio merges

  ghost predicate AllFit(st: State, sub: Submission, env: Env) {
    forall x :: Candidate(st, x, sub.bio.sector) ==> x in env.fits
  }

  /** When blk_queue_bio has to merge the bio. */
  ghost predicate BioDue(st: State, sub: Submission, env: Env, merged: bool) {
    && (st.noMerges ==> !merged)
    && (!st.noMerges && (CacheBack(st, sub, env) || CacheFront(st, sub, env)) ==>
          merged == (st.lastMerge.value in env.fits))
    && (!st.noMerges && !CacheBack(st, sub, env) && !CacheFront(st, sub, env) ==>
          && (st.noXMerges ==> !merged)
          && (!st.noXMerges && AllMay(st, sub, env) && AllFit(st, sub, env) ==> merged)
          && ((forall x :: Candidate(st, x, sub.bio.sector) ==>
                 !(x in env.allowed && x in env.fits && Compatible(Rq(st, x), sub))) ==> !merged))
  }

  lemma MergeBioDue(st: State, sub: Submission, env: Env)
    requires Inv(st)
    ensures BioDue(st, sub, env, MergeBio(st, sub, env).merged)
  {
    ElvMergeOffers(st, sub, env);
    var kind := ElvMerge(st, sub, env).kind;
    assert MergeBio(st, sub, env).merged <==> !kind.NoMerge? && kind.id in env.fits;
    OfferIsCandidate(st, sub, env);
  }

  /** Without the cache, what is offered is a candidate that may take the bio. */
  lemma OfferIsCandidate(st: State, sub: Submission, env: Env)
    requires Inv(st)
    ensures var kind := ElvMerge(st, sub, env).kind;
            kind.BackMerge? && !CacheBack(st, sub, env) ==>
              && Candidate(st, kind.id, sub.bio.sector) && kind.id in env.allowed && Compatible(Rq(st, kind.id), sub)
  {
    HashFindIsScan(st, env.bucket, sub.bio.sector);
    HashFindOk(st, env.bucket, sub.bio.sector);
    var f := HashFind(st, env.bucket, sub.bio.sector);
    UnhashesCandidates(st, f.st, sub.bio.sector);
  }

  /** After a back merge the request is joined with its list neighbour exactly when that one joins it. */
  lemma BackMergeNeighbour(st: State, list: seq<Id>, k: nat, bio: Bio, env: Env)
    requires Placed(st) && k < |list| && (list == st.sched.higher || list == st.sched.lower)
    ensures var id := list[k];
            var grown := SetRq(st, id, Rq(st, id).(body := Append(Rq(st, id).body, bio)));
            var m := BackMergeBio(st, id, bio, env);
            if k + 1 < |list| && Joins(grown, id, list[k + 1], env) then
              m.freed == [Rq(grown, list[k + 1])] && list[k + 1] !in m.st.rqs
            else
              m.freed == [] && m.st.rqs.Keys == st.rqs.Keys
  {
    LatterIs(list, k);
  }

  /** After a front merge likewise with the neighbour before it. */
  lemma FrontMergeNeighbour(st: State, list: seq<Id>, k: nat, bio: Bio, env: Env)
    requires Placed(st) && k < |list| && (list == st.sched.higher || list == st.sched.lower)
    ensures var id := list[k];
            var grown := SetRq(st, id, Rq(st, id).(body := Prepend(Rq(st, id).body, bio)));
            var m := FrontMergeBio(st, id, bio, env);
            if k > 0 && Joins(grown, list[k - 1], id, env) then
              m.freed == [Rq(grown, id)] && id !in m.st.rqs
            else
              m.freed == [] && m.st.rqs.Keys == st.rqs.Keys
  {
    FormerIs(list, k);
  }

  // -------------------------------------------------------------------- lookups

  lemma {:induction false} WalkPrunes(
    hash: seq<Entry>, rqs: map<Id, Request>, bucket: nat -> nat, offset: nat, e: Entry)
    requires HashWalk(hash, rqs, bucket, offset).found.None?
    requires e in hash && bucket(e.key) == bucket(offset) && !Mergeable(Lookup(rqs, e.id))
    ensures e.id in HashWalk(hash, rqs, bucket, offset).pruned
  {
    if e != hash[0] {
      WalkPrunes(hash[1..], rqs, bucket, offset, e);
    }
  }

  lemma {:induction false} PruneDrops(st: State, ids: seq<Id>, e: Entry)
    ensures e in Prune(st, ids).sched.hash <==> e in st.sched.hash && e.id !in ids
    decreases |ids|
  {
    if ids != [] {
      PruneDrops(HashDel(st, ids[0]), ids[1..], e);
    }
  }

  /** A lookup that finds nothing leaves no unmergeable node in the bucket it walked. */
  lemma LookupCleansBucket(st: State, bucket: nat -> nat, offset: nat, e: Entry)
    requires Inv(st) && HashFind(st, bucket, offset).found.None?
    requires e in HashFind(st, bucket, offset).st.sched.hash && bucket(e.key) == bucket(offset)
    ensures Mergeable(Rq(st, e.id))
  {
    var w := HashWalk(st.sched.hash, st.rqs, bucket, offset);
    PruneDrops(st, w.pruned, e);
    if !Mergeable(Rq(st, e.id)) {
      WalkPrunes(st.sched.hash, st.rqs, bucket, offset, e);
    }
  }

  /** A request that has reached its limit is not offered again. */
  lemma ForbiddenIsNotOffered(st: State, id: Id, sub: Submission, env: Env)
    requires Inv(st) && Pending(st, id)
    ensures var kind := ElvMerge(ForbidMerge(st, id), sub, env).kind; kind == NoMerge || kind.id != id
  {
    var st1 := ForbidMerge(st, id);
    ForbidMergeOk(st, id);
    ElvMergeOk(st1, sub, env);
    var c := ElvMerge(st1, sub, env);
    assert Rq(st1, id).noMerge;
    assert Rq(c.st, id) == Rq(st1, id) || Rq(c.st, id) == Rq(st1, id).(hashed := false);
  }
}
