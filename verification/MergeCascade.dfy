/**
 What merging conserves: the bios and the sectors held by the pending requests, through single
 request merges, the insertion-merge loop and bio merges.
 */
module MergeCascade {
  import opened Types
  import opened Lists
  import opened BioChains
  import opened Requests
  import opened Elevator
  import opened ElevatorSafety
  import opened MergeOffers

  /** How many times a request carries bio `b`. */
  ghost function BiosOf(r: Request, b: nat): nat { multiset(Ids(r.body.bios))[b] }

  ghost function ListBios(ids: seq<Id>, rqs: map<Id, Request>, b: nat): nat {
    if ids == [] then 0 else BiosOf(Lookup(rqs, ids[0]), b) + ListBios(ids[1..], rqs, b)
  }

  /** How many times the requests in the greedy lists carry bio `b`: the multiset of pending bios. */
  ghost function PendingBios(st: State, b: nat): nat {
    ListBios(st.sched.higher, st.rqs, b) + ListBios(st.sched.lower, st.rqs, b)
  }

  ghost predicate InRange(r: Request, x: nat) { Pos(r) <= x < End(r) }

  /** Some pending request covers sector `x`. */
  ghost predicate Covered(st: State, x: nat) {
    exists id :: Pending(st, id) && InRange(Rq(st, id), x)
  }

  // ------------------------------------------------------------------ lists

  lemma {:induction false} ListBiosSame(ids: seq<Id>, rqs: map<Id, Request>, rqs': map<Id, Request>, b: nat)
    requires forall id :: id in ids ==> Lookup(rqs', id).body == Lookup(rqs, id).body
    ensures ListBios(ids, rqs', b) == ListBios(ids, rqs, b)
  {
    if ids != [] {
      assert ids[0] in ids;
      ListBiosSame(ids[1..], rqs, rqs', b);
    }
  }

  lemma {:induction false} ListBiosUpdate(ids: seq<Id>, rqs: map<Id, Request>, rqs': map<Id, Request>, id: Id, b: nat)
    requires NoDup(ids) && id in ids
    requires forall x :: x in ids && x != id ==> Lookup(rqs', x).body == Lookup(rqs, x).body
    ensures ListBios(ids, rqs', b) + BiosOf(Lookup(rqs, id), b) == ListBios(ids, rqs, b) + BiosOf(Lookup(rqs', id), b)
  {
    if ids[0] == id {
      assert id !in ids[1..];
      ListBiosSame(ids[1..], rqs, rqs', b);
    } else {
      assert ids[0] in ids;
      ListBiosUpdate(ids[1..], rqs, rqs', id, b);
    }
  }

  lemma {:induction false} ListBiosWithout(ids: seq<Id>, rqs: map<Id, Request>, id: Id, b: nat)
    requires NoDup(ids) && id in ids
    ensures ListBios(Without(ids, id), rqs, b) + BiosOf(Lookup(rqs, id), b) == ListBios(ids, rqs, b)
  {
    if ids[0] == id {
      WithoutHead(ids);
    } else {
      ListBiosWithout(ids[1..], rqs, id, b);
      var w := Without(ids[1..], id);
      assert Without(ids, id) == [ids[0]] + w;
      assert ([ids[0]] + w)[1..] == w;
    }
  }

  /** The bios of a list after `next` has left it and `id` has become `r`. */
  lemma ListBiosAbsorb(ids: seq<Id>, rqs: map<Id, Request>, id: Id, next: Id, r: Request, b: nat)
    requires NoDup(ids) && id in rqs && next in rqs && id != next
    ensures var ids', rqs' := Without(ids, next), (rqs - {next})[id := r];
            ListBios(ids', rqs', b)
            + (if id in ids then BiosOf(rqs[id], b) else 0) + (if next in ids then BiosOf(rqs[next], b) else 0)
            == ListBios(ids, rqs, b) + (if id in ids then BiosOf(r, b) else 0)
  {
    var ids', rqs' := Without(ids, next), (rqs - {next})[id := r];
    WithoutNoDup(ids, next);
    if next in ids {
      ListBiosWithout(ids, rqs, next, b);
    }
    if id in ids {
      ListBiosUpdate(ids', rqs, rqs', id, b);
    } else {
      ListBiosSame(ids', rqs, rqs', b);
    }
  }

  // ---------------------------------------------------------- one request merge

  /** A request merge moves the bios of `next` into `id` and loses none. */
  lemma AbsorbsBios(st: State, st': State, id: Id, next: Id, r: Request, b: nat)
    requires Placed(st) && Absorbs(st, st', id, next, r) && Pending(st, id) && (Pending(st, next) || Outside(st, next))
    requires BiosOf(r, b) == BiosOf(Rq(st, id), b) + BiosOf(Rq(st, next), b)
    ensures PendingBios(st', b) == PendingBios(st, b) + (if Pending(st, next) then 0 else BiosOf(Rq(st, next), b))
  {
    ListBiosAbsorb(st.sched.higher, st.rqs, id, next, r, b);
    ListBiosAbsorb(st.sched.lower, st.rqs, id, next, r, b);
  }

  lemma AbsorbsCover(st: State, st': State, id: Id, next: Id, r: Request, x: nat)
    requires Placed(st) && Absorbs(st, st', id, next, r) && Pending(st, id) && (Pending(st, next) || Outside(st, next))
    requires Pos(r) == Pos(Rq(st, id)) && End(r) == End(Rq(st, next)) && End(Rq(st, id)) == Pos(Rq(st, next))
    requires Pos(Rq(st, id)) <= End(Rq(st, id)) <= End(Rq(st, next))
    ensures Covered(st', x) <==> Covered(st, x) || InRange(Rq(st, next), x)
  {
    AbsorbsPlaced(st, st', id, next, r);
    if Covered(st, x) || InRange(Rq(st, next), x) {
      if InRange(r, x) {
        assert Pending(st', id) && InRange(Rq(st', id), x);
      } else {
        var y :| Pending(st, y) && InRange(Rq(st, y), x);
        assert y != id && y != next;
        assert Pending(st', y) && InRange(Rq(st', y), x);
      }
    }
    if Covered(st', x) {
      var y :| Pending(st', y) && InRange(Rq(st', y), x);
      assert Pending(st, y);
      if y == id {
        assert InRange(Rq(st, id), x) || InRange(Rq(st, next), x);
      } else {
        assert InRange(Rq(st, y), x);
      }
    }
  }

  /** What merging `next` into `id` conserves; the absorbed request ends where the result ends. */
  ghost predicate Conserves(st: State, st': State, id: Id, next: Id) {
    var a, n, r := Rq(st, id), Rq(st, next), Rq(st', id);
    && st'.rqs.Keys == st.rqs.Keys - {next} && next in st.rqs
    && Pending(st', id) && PendingOk(r) && st'.lastMerge == Some(id)
    && Pos(r) == Pos(a) < Pos(n) && End(r) == End(n)
    && a.write == n.write == r.write && a.discard == n.discard == r.discard
    && PendingCount(st') == PendingCount(st) - (if Pending(st, next) then 1 else 0)
    && (forall b :: PendingBios(st', b) == PendingBios(st, b) + (if Pending(st, next) then 0 else BiosOf(n, b)))
    && (forall x :: Covered(st', x) <==> Covered(st, x) || InRange(n, x))
  }

  lemma AbsorbConserves(st: State, st': State, id: Id, next: Id)
    requires InvBut(st, {id}) && Pending(st, id) && (Pending(st, next) || Outside(st, next)) && id != next
    requires WellFormed(Rq(st, next).body) && CanJoin(Rq(st, id), Rq(st, next))
    requires Absorbs(st, st', id, next, Joined(Rq(st, id), Rq(st, next)))
    ensures Conserves(st, st', id, next)
  {
    var a, n := Rq(st, id), Rq(st, next);
    var r := Joined(a, n);
    assert PendingOk(a);
    JoinedOk(a, n);
    JoinExtends(a.body, n.body);
    NonEmptyRange(a.body);
    NonEmptyRange(n.body);
    AbsorbsPlaced(st, st', id, next, r);
    forall b ensures PendingBios(st', b) == PendingBios(st, b) + (if Pending(st, next) then 0 else BiosOf(n, b)) {
      AbsorbsBios(st, st', id, next, r, b);
    }
    forall x ensures Covered(st', x) <==> Covered(st, x) || InRange(n, x) {
      AbsorbsCover(st, st', id, next, r, x);
    }
  }

  /** A request merge keeps every bio and every sector. */
  lemma MergeConserves(st: State, id: Id, next: Id)
    requires InvBut(st, {id}) && Pending(st, id) && (Pending(st, next) || Outside(st, next)) && id != next
    requires WellFormed(Rq(st, next).body) && CanJoin(Rq(st, id), Rq(st, next))
    ensures Inv(MergeRequests(st, id, next).st) && Conserves(st, MergeRequests(st, id, next).st, id, next)
  {
    MergeRequestsOk(st, id, next);
    AbsorbConserves(st, MergeRequests(st, id, next).st, id, next);
  }

  // ---------------------------------------------------------- the insertion loop

  lemma UnhashesConserves(st: State, st': State)
    requires Unhashes(st, st')
    ensures forall b :: PendingBios(st', b) == PendingBios(st, b)
    ensures PendingCount(st') == PendingCount(st)
    ensures forall x :: Covered(st', x) <==> Covered(st, x)
    ensures forall id :: Rq(st', id).body == Rq(st, id).body
  {
    forall id ensures Lookup(st'.rqs, id).body == Lookup(st.rqs, id).body {
      assert Rq(st', id) == Rq(st, id) || Rq(st', id) == Rq(st, id).(hashed := false);
    }
    forall b ensures PendingBios(st', b) == PendingBios(st, b) {
      ListBiosSame(st.sched.higher, st.rqs, st'.rqs, b);
      ListBiosSame(st.sched.lower, st.rqs, st'.rqs, b);
    }
    forall x ensures Covered(st', x) <==> Covered(st, x) {
      if Covered(st, x) {
        var id :| Pending(st, id) && InRange(Rq(st, id), x);
        assert Pending(st', id) && InRange(Rq(st', id), x);
      }
      if Covered(st', x) {
        var id :| Pending(st', id) && InRange(Rq(st', id), x);
        assert Pending(st, id) && InRange(Rq(st, id), x);
      }
    }
  }

  /** The absorbed requests all end at sector `end`, and each starts below the one absorbed before it. */
  ghost predicate Descends(freed: seq<Request>, end: nat) {
    && (forall i :: 0 <= i < |freed| ==> End(freed[i]) == end)
    && (forall i, j :: 0 <= i < j < |freed| ==> Pos(freed[j]) < Pos(freed[i]))
  }

  lemma DescendsPrepend(r: Request, freed: seq<Request>, end: nat)
    requires Descends(freed, end) && End(r) == end && (freed != [] ==> Pos(freed[0]) < Pos(r))
    ensures Descends([r] + freed, end)
  {
    var all := [r] + freed;
    forall i, j | 0 <= i < j < |all| ensures Pos(all[j]) < Pos(all[i]) {
      assert all[j] == freed[j - 1];
      if i == 0 {
        assert j == 1 || Pos(freed[j - 1]) < Pos(freed[0]);
      } else {
        assert all[i] == freed[i - 1];
      }
    }
  }

  /** What a successful merge of request `r` (pending already or not) has achieved. */
  ghost predicate Achieved(st: State, r: Request, wasPending: bool, st': State, freed: seq<Request>) {
    && freed != [] && freed[0].body == r.body && Descends(freed, End(r))
    && (forall i :: 0 <= i < |freed| ==> freed[i].write == r.write && freed[i].discard == r.discard)
    && PendingCount(st') == PendingCount(st) - |freed| + (if wasPending then 0 else 1)
    && (forall b :: PendingBios(st', b) == PendingBios(st, b) + (if wasPending then 0 else BiosOf(r, b)))
    && (forall x :: Covered(st', x) <==> Covered(st, x) || InRange(r, x))
    && st'.lastMerge.Some? && Pending(st', st'.lastMerge.value)
    && Pos(Rq(st', st'.lastMerge.value)) < Pos(freed[|freed| - 1])
    && End(Rq(st', st'.lastMerge.value)) == End(r)
    && Rq(st', st'.lastMerge.value).write == r.write && Rq(st', st'.lastMerge.value).discard == r.discard
  }

  lemma AchievedByOne(st: State, st': State, id: Id, t: Id)
    requires Conserves(st, st', t, id)
    ensures Achieved(st, Rq(st, id), Pending(st, id), st', [Rq(st, id)])
  {
  }

  /** One merge followed by a successful merge of the request it grew. */
  lemma AchievedTwice(st: State, r: Request, wasPending: bool, st1: State, st2: State, freed: seq<Request>)
    requires Achieved(st, r, wasPending, st1, [r])
    requires Achieved(st1, Rq(st1, st1.lastMerge.value), true, st2, freed)
    ensures Achieved(st, r, wasPending, st2, [r] + freed)
  {
    var t := Rq(st1, st1.lastMerge.value);
    var all := [r] + freed;
    assert Pos(freed[0]) == Pos(t) && all[|all| - 1] == freed[|freed| - 1];
    DescendsPrepend(r, freed, End(r));
    forall x ensures Covered(st2, x) <==> Covered(st, x) || InRange(r, x) {
      assert InRange(t, x) ==> Covered(st1, x);
    }
  }

  /** Unhashing before or after a merge does not change what the merge achieves. */
  lemma UnhashesBefore(st: State, st1: State, r: Request, wasPending: bool, st': State, freed: seq<Request>)
    requires Unhashes(st, st1) && Achieved(st1, r, wasPending, st', freed)
    ensures Achieved(st, r, wasPending, st', freed)
  {
    UnhashesConserves(st, st1);
  }

  lemma UnhashesAfter(st: State, r: Request, wasPending: bool, st1: State, st': State, freed: seq<Request>)
    requires Unhashes(st1, st') && Achieved(st, r, wasPending, st1, freed)
    ensures Achieved(st, r, wasPending, st', freed)
  {
    UnhashesConserves(st1, st');
    assert Pending(st', st'.lastMerge.value);
  }

  ghost predicate Outcome(st: State, id: Id, m: Merged) {
    if m.freed == [] then Unhashes(st, m.st) else Achieved(st, Rq(st, id), Pending(st, id), m.st, m.freed)
  }

  lemma OutcomeStep(st: State, st1: State, st2: State, id: Id, t: Id, rest: Merged)
    requires Unhashes(st, st1) && Mergeable(Rq(st, id)) && Conserves(st1, st2, t, id) && Outcome(st2, t, rest)
    ensures Outcome(st, id, Merged(rest.st, [Rq(st1, id)] + rest.freed))
  {
    var r := Rq(st, id);
    assert Rq(st1, id) == r && Pending(st1, id) == Pending(st, id);
    AchievedByOne(st1, st2, id, t);
    UnhashesBefore(st, st1, r, Pending(st, id), st2, [r]);
    if rest.freed == [] {
      UnhashesAfter(st, r, Pending(st, id), st2, rest.st, [r]);
      assert [r] + rest.freed == [r];
    } else {
      AchievedTwice(st, r, Pending(st, id), st2, rest.st, rest.freed);
    }
  }

  lemma {:induction false} TraceConserves(st: State, id: Id, tr: Turns)
    requires Traces(st, id, tr)
    ensures Outcome(st, id, Merged(LastState(tr), FreedBy(tr, id)))
    decreases tr
  {
    if tr.Turn? {
      var st1, t, st2 := tr.found, tr.target, tr.merged;
      InvStale(st1, t);
      AbsorbConserves(st1, st2, t, id);
      TraceConserves(st2, t, tr.rest);
      assert Rq(st1, id) == Rq(st, id) || Rq(st1, id) == Rq(st, id).(hashed := false);
      OutcomeStep(st, st1, st2, id, t, Merged(LastState(tr.rest), FreedBy(tr.rest, t)));
    }
  }

  /**
   The insertion-merge loop ends, keeps the invariant, and conserves: every bio and every sector of
   the new request is pending afterwards, each further merge removes one pending request, and the
   start of the merged request strictly decreases.
   */
  lemma CascadeConserves(st: State, id: Id, env: Env)
    requires Inv(st) && (Pending(st, id) || Outside(st, id)) && WellFormed(Rq(st, id).body)
    ensures Inv(Cascade(st, id, env).st) && Outcome(st, id, Cascade(st, id, env))
  {
    var tr := CascadeTraces(st, id, env);
    TraceInv(st, id, tr);
    TraceConserves(st, id, tr);
  }

  /** elv_attempt_insert_merge, whichever path it takes, merges as far as it has to and conserves. */
  lemma InsertMergeConserves(st: State, id: Id, env: Env)
    requires Inv(st) && Outside(st, id) && WellFormed(Rq(st, id).body)
    ensures Inv(InsertMerge(st, id, env).st) && Outcome(st, id, InsertMerge(st, id, env))
    ensures MergeDue(st, id, env, InsertMerge(st, id, env))
  {
    InsertMergeOk(st, id, env);
    InsertMergeDue(st, id, env);
    if st.noMerges {
    } else if st.lastMerge.Some? && Joins(st, st.lastMerge.value, id, env) {
      MergeConserves(st, st.lastMerge.value, id);
      AchievedByOne(st, MergeRequests(st, st.lastMerge.value, id).st, id, st.lastMerge.value);
    } else if !st.noXMerges {
      CascadeConserves(st, id, env);
    }
  }

  // ------------------------------------------------------------------ bio merges

  ghost predicate InBio(bio: Bio, x: nat) { bio.sector <= x < BioEnd(bio) }

  /** Exactly one more bio is pending, and exactly its sectors are covered in addition. */
  ghost predicate AddsBio(st: State, st': State, bio: Bio) {
    && (forall b :: PendingBios(st', b) == PendingBios(st, b) + (if b == bio.id then 1 else 0))
    && (forall x :: Covered(st', x) <==> Covered(st, x) || InBio(bio, x))
  }

  ghost predicate KeepsBios(st: State, st': State) {
    && (forall b :: PendingBios(st', b) == PendingBios(st, b))
    && (forall x :: Covered(st', x) <==> Covered(st, x))
  }

  /** `st'` is `st` with pending request `id` replaced by `r`, on the same lists. */
  ghost predicate Replaces(st: State, st': State, id: Id, r: Request) {
    && Placed(st) && Pending(st, id) && st'.rqs == st.rqs[id := r]
    && st'.sched.higher == st.sched.higher && st'.sched.lower == st.sched.lower
  }

  lemma ReplaceBios(st: State, st': State, id: Id, r: Request, b: nat)
    requires Replaces(st, st', id, r)
    ensures PendingBios(st', b) + BiosOf(Rq(st, id), b) == PendingBios(st, b) + BiosOf(r, b)
  {
    if id in st.sched.higher {
      ListBiosUpdate(st.sched.higher, st.rqs, st'.rqs, id, b);
      ListBiosSame(st.sched.lower, st.rqs, st'.rqs, b);
    } else {
      ListBiosUpdate(st.sched.lower, st.rqs, st'.rqs, id, b);
      ListBiosSame(st.sched.higher, st.rqs, st'.rqs, b);
    }
  }

  lemma ReplaceCover(st: State, st': State, id: Id, r: Request, bio: Bio, x: nat)
    requires Replaces(st, st', id, r)
    requires InRange(r, x) <==> InRange(Rq(st, id), x) || InBio(bio, x)
    ensures Covered(st', x) <==> Covered(st, x) || InBio(bio, x)
  {
    if Covered(st', x) {
      var y :| Pending(st', y) && InRange(Rq(st', y), x);
      assert Pending(st, y);
      assert y != id ==> InRange(Rq(st, y), x);
    }
    if Covered(st, x) {
      var y :| Pending(st, y) && InRange(Rq(st, y), x);
      assert Pending(st', y) && InRange(Rq(st', y), x);
    }
    if InBio(bio, x) {
      assert Pending(st', id) && InRange(Rq(st', id), x);
    }
  }

  /** Growing a pending request by one adjacent bio. */
  lemma GrowAddsBio(st: State, st': State, id: Id, r: Request, bio: Bio)
    requires Replaces(st, st', id, r) && Pos(Rq(st, id)) <= End(Rq(st, id))
    requires forall b :: BiosOf(r, b) == BiosOf(Rq(st, id), b) + (if b == bio.id then 1 else 0)
    requires || (Pos(r) == Pos(Rq(st, id)) && bio.sector == End(Rq(st, id)) && End(r) == BioEnd(bio))
             || (Pos(r) == bio.sector && BioEnd(bio) == Pos(Rq(st, id)) && End(r) == End(Rq(st, id)))
    ensures AddsBio(st, st', bio)
  {
    forall b ensures PendingBios(st', b) == PendingBios(st, b) + (if b == bio.id then 1 else 0) {
      ReplaceBios(st, st', id, r, b);
    }
    forall x ensures Covered(st', x) <==> Covered(st, x) || InBio(bio, x) {
      ReplaceCover(st, st', id, r, bio, x);
    }
  }

  lemma AddedBehind(r: Request, bio: Bio)
    requires WellFormed(r.body) && WholeBio(bio) && bio.sector == End(r)
    ensures var r' := r.(body := Append(r.body, bio));
            && Pos(r') == Pos(r) && End(r') == BioEnd(bio) && Pos(r) <= End(r)
            && forall b :: BiosOf(r', b) == BiosOf(r, b) + (if b == bio.id then 1 else 0)
  {
    AppendExtends(r.body, bio);
  }

  lemma AddedInFront(r: Request, bio: Bio)
    requires WellFormed(r.body) && WholeBio(bio) && BioEnd(bio) == Pos(r)
    ensures var r' := r.(body := Prepend(r.body, bio));
            && Pos(r') == bio.sector && End(r') == End(r) && Pos(r) <= End(r)
            && forall b :: BiosOf(r', b) == BiosOf(r, b) + (if b == bio.id then 1 else 0)
  {
    PrependExtends(r.body, bio);
  }

  /** Merging two pending requests afterwards changes neither bios nor coverage. */
  lemma ThenMerge(st: State, st1: State, id: Id, next: Id, bio: Bio)
    requires AddsBio(st, st1, bio) && InvBut(st1, {id}) && Pending(st1, id) && Pending(st1, next) && id != next
    requires CanJoin(Rq(st1, id), Rq(st1, next))
    ensures AddsBio(st, MergeRequests(st1, id, next).st, bio)
  {
    assert PendingOk(Rq(st1, next));
    MergeConserves(st1, id, next);
    ConservesThen(st, st1, MergeRequests(st1, id, next).st, id, next, bio);
  }

  lemma ConservesThen(st: State, st1: State, st2: State, id: Id, next: Id, bio: Bio)
    requires AddsBio(st, st1, bio) && Pending(st1, next) && Conserves(st1, st2, id, next)
    ensures AddsBio(st, st2, bio)
  {
    forall x ensures Covered(st2, x) <==> Covered(st, x) || InBio(bio, x) {
      assert InRange(Rq(st1, next), x) ==> Covered(st1, x);
    }
  }

  lemma RepositionReplaces(st: State, st1: State, id: Id, r: Request)
    requires Replaces(st, st1, id, r)
    ensures Replaces(st, Reposition(st1, id).(lastMerge := Some(id)), id, r.(hashed := true))
  {
    assert st1.rqs[id := r.(hashed := true)] == st.rqs[id := r.(hashed := true)];
  }

  lemma BackMergeAddsBio(st: State, id: Id, bio: Bio, env: Env)
    requires Inv(st) && Pending(st, id) && WholeBio(bio) && bio.sector == End(Rq(st, id))
    ensures AddsBio(st, BackMergeBio(st, id, bio, env).st, bio)
  {
    GrowBackOk(st, id, bio);
    assert PendingOk(Rq(st, id));
    AddedBehind(Rq(st, id), bio);
    var r := Rq(st, id).(body := Append(Rq(st, id).body, bio));
    var st1 := SetRq(st, id, r);
    LatterPending(st1, id);
    var next := LatterRequest(st1.sched, id);
    if next.Some? && Joins(st1, id, next.value, env) {
      GrowAddsBio(st, st1, id, r, bio);
      ThenMerge(st, st1, id, next.value, bio);
    } else {
      RepositionReplaces(st, st1, id, r);
      GrowAddsBio(st, Reposition(st1, id).(lastMerge := Some(id)), id, r.(hashed := true), bio);
    }
  }

  lemma FrontMergeAddsBio(st: State, id: Id, bio: Bio, env: Env)
    requires Inv(st) && Pending(st, id) && WholeBio(bio) && BioEnd(bio) == Pos(Rq(st, id))
    ensures AddsBio(st, FrontMergeBio(st, id, bio, env).st, bio)
  {
    GrowFrontOk(st, id, bio);
    assert PendingOk(Rq(st, id));
    AddedInFront(Rq(st, id), bio);
    var r := Rq(st, id).(body := Prepend(Rq(st, id).body, bio));
    var st1 := SetRq(st, id, r);
    FormerPending(st1, id);
    var prev := FormerRequest(st1.sched, id);
    if prev.Some? && Joins(st1, prev.value, id, env) {
      GrowAddsBio(st, st1, id, r, bio);
      InvStale(st1, prev.value);
      ThenMerge(st, st1, prev.value, id, bio);
    } else {
      GrowAddsBio(st, st1.(lastMerge := Some(id)), id, r, bio);
    }
  }

  lemma KeepsThenAdds(st: State, st1: State, st2: State, bio: Bio)
    requires KeepsBios(st, st1) && AddsBio(st1, st2, bio)
    ensures AddsBio(st, st2, bio)
  {
  }

  /** A merged bio becomes pending exactly once with exactly its sectors; one that is not merged changes nothing. */
  lemma MergeBioConserves(st: State, sub: Submission, env: Env)
    requires Inv(st) && WholeBio(sub.bio)
    ensures var m := MergeBio(st, sub, env);
            if m.merged then AddsBio(st, m.st, sub.bio) else KeepsBios(st, m.st)
  {
    ElvMergeOk(st, sub, env);
    var c := ElvMerge(st, sub, env);
    UnhashesConserves(st, c.st);
    var m := MergeBio(st, sub, env);
    if c.kind.BackMerge? && c.kind.id in env.fits {
      BackMergeAddsBio(c.st, c.kind.id, sub.bio, env);
      KeepsThenAdds(st, c.st, m.st, sub.bio);
    } else if c.kind.FrontMerge? && c.kind.id in env.fits {
      FrontMergeAddsBio(c.st, c.kind.id, sub.bio, env);
      KeepsThenAdds(st, c.st, m.st, sub.bio);
    }
  }
}
