/**
 Dispatch with the greedy scheduler is work-conserving: the driver is refused a request only under
 bypass, while a flush is held, or when nothing is pending, and fetching hands over every pending
 request exactly once.
 */
module WorkConserving {
  import opened Types
  import opened Lists
  import opened Requests
  import opened Elevator
  import opened ElevatorSafety

  function HeldCount(st: State): nat { PendingCount(st) + |st.queue| }

  datatype Fetched = Fetched(st: State, rq: Option<Id>)

  /** blk_fetch_request on a queue without a prep function. */
  function Fetch(st: State, flushHeld: bool, bypass: bool): Fetched {
    var st1 := Peek(st, flushHeld, bypass);
    if st1.queue == [] then Fetched(st1, None) else Fetched(Start(st1), Some(st1.queue[0]))
  }

  datatype Batch = Batch(st: State, out: seq<Id>)

  /** Fetching `n` times with any fetch function, stopping when it returns null. */
  function Repeat(fetch: State -> Fetched, st: State, n: nat): Batch
    decreases n
  {
    if n == 0 then Batch(st, [])
    else
      var f := fetch(st);
      if f.rq == None then Batch(f.st, [])
      else
        var rest := Repeat(fetch, f.st, n - 1);
        Batch(rest.st, [f.rq.value] + rest.out)
  }

  const UNHINDERED: State -> Fetched := st => Fetch(st, false, false)

  /** `n` calls of blk_fetch_request in a row. */
  function FetchMany(st: State, n: nat): Batch {
    Repeat(UNHINDERED, st, n)
  }

  /** A dispatch keeps what the elevator holds. */
  lemma NextKeepsHeld(st: State, flushHeld: bool, bypass: bool)
    requires Inv(st)
    ensures var st' := NextRequest(st, flushHeld, bypass);
            && Inv(st') && Held(st') == Held(st) && HeldCount(st') == HeldCount(st)
            && (st'.queue == [] <==> st.queue == [] && (flushHeld || bypass || PendingCount(st) == 0))
            && PendingCount(st) - 1 <= PendingCount(st') <= PendingCount(st)
  {
    GreedyDispatchOk(st, {});
    if st.queue == [] && !flushHeld && !bypass && PendingCount(st) > 0 {
      GreedyDispatchMoves(st);
      var id, st' := GreedyTarget(st.sched, st.rqs).value, GreedyDispatch(st);
      MovesHeld(st, st', id, DispatchPoint(st, id));
    }
  }

  lemma MovesHeld(st: State, st': State, id: Id, k: nat)
    requires Placed(st) && Pending(st, id) && Moves(st, st', id, k)
    ensures Held(st') == Held(st) && HeldCount(st') == HeldCount(st)
    ensures PendingCount(st') == PendingCount(st) - 1 && st'.queue != []
  {
    MovesPlaced(st, st', id, k);
    assert forall x :: x in st'.queue <==> x in st.queue || x == id;
    forall x ensures x in Held(st') <==> x in Held(st) {
      assert x in Held(st) <==> Pending(st, x) || x in st.queue;
      assert x in Held(st') <==> Pending(st', x) || x in st'.queue;
    }
  }

  /** __elv_next_request returns null exactly under bypass, a held flush, or with nothing to serve. */
  lemma NullOnlyWhenIdle(st: State, flushHeld: bool, bypass: bool)
    requires Inv(st)
    ensures Fetch(st, flushHeld, bypass).rq == None
            <==> st.queue == [] && (flushHeld || bypass || PendingCount(st) == 0)
  {
    NextKeepsHeld(st, flushHeld, bypass);
  }

  /** A fetch removes exactly the request it returns and starts it. */
  lemma FetchTakesOne(st: State)
    requires Inv(st) && HeldCount(st) > 0
    ensures var f := Fetch(st, false, false);
            && f.rq.Some? && Inv(f.st)
            && f.rq.value in Held(st) && Held(f.st) == Held(st) - {f.rq.value}
            && HeldCount(f.st) == HeldCount(st) - 1
            && f.rq.value in f.st.driver && Rq(f.st, f.rq.value).started
  {
    NextKeepsHeld(st, false, false);
    var st1 := NextRequest(st, false, false);
    PeekHeadOk(st1);
    var st2 := PeekHead(st1);
    assert st2.queue == st1.queue && st2.sched == st1.sched;
    StartOk(st2);
    StartTakesHead(st2);
  }

  lemma StartTakesHead(st: State)
    requires Inv(st) && st.queue != []
    ensures var id := st.queue[0];
            Held(Start(st)) == Held(st) - {id} && HeldCount(Start(st)) == HeldCount(st) - 1 && id in Start(st).driver
  {
    var id, st' := st.queue[0], Start(st);
    assert id !in st.queue[1..] && id in st.queue;
    assert forall x :: x in st.queue <==> x == id || x in st.queue[1..];
  }

  lemma ConsOnce(x: Id, out: seq<Id>, all: set<Id>)
    requires x in all && NoDup(out) && Elements(out) == all - {x}
    ensures NoDup([x] + out) && Elements([x] + out) == all
  {
    var s := [x] + out;
    assert forall i :: 0 <= i < |out| ==> out[i] in Elements(out);
    forall i, j | 0 <= i < j < |s| ensures s[i] != s[j] {
      assert s[j] == out[j - 1];
    }
    forall y ensures y in Elements(s) <==> y in all {
      assert y in s <==> y == x || y in out;
      assert y in out <==> y in Elements(out);
    }
  }

  /** The batch has handed over everything `st` held. */
  ghost predicate Drains(st: State, b: Batch) {
    |b.out| == HeldCount(st) && NoDup(b.out) && Elements(b.out) == Held(st) && HeldCount(b.st) == 0
  }

  /** A fetch in `st` returned a held request and kept the rest. */
  ghost predicate TakesOne(st: State, f: Fetched) {
    && f.rq.Some? && f.rq.value in Held(st) && Held(f.st) == Held(st) - {f.rq.value}
    && HeldCount(f.st) == HeldCount(st) - 1
  }

  /** In state `s` a fetch takes one request and stays within `good`. */
  ghost predicate Serves(fetch: State -> Fetched, good: iset<State>, s: State) {
    TakesOne(s, fetch(s)) && fetch(s).st in good
  }

  lemma DrainsCons(st: State, f: Fetched, rest: Batch)
    requires TakesOne(st, f) && Drains(f.st, rest)
    ensures Drains(st, Batch(rest.st, [f.rq.value] + rest.out))
  {
    ConsOnce(f.rq.value, rest.out, Held(st));
  }

  lemma EmptyDrains(st: State)
    requires HeldCount(st) == 0
    ensures Drains(st, Batch(st, []))
  {
    assert Held(st) == {};
  }

  /** The batch argument for any fetch function and any set of states in which it takes one request. */
  lemma {:induction false} RepeatDrains(fetch: State -> Fetched, st: State, n: nat, good: iset<State>)
    requires st in good && n == HeldCount(st)
    requires forall s {:trigger Serves(fetch, good, s)} :: s in good && HeldCount(s) > 0 ==> Serves(fetch, good, s)
    ensures Drains(st, Repeat(fetch, st, n))
    decreases n
  {
    if n == 0 {
      EmptyDrains(st);
    } else {
      var f := fetch(st);
      assert Serves(fetch, good, st);
      RepeatDrains(fetch, f.st, n - 1, good);
      DrainsCons(st, f, Repeat(fetch, f.st, n - 1));
    }
  }

  lemma NothingLeft(st: State)
    requires HeldCount(st) == 0
    ensures Fetch(st, false, false).rq == None
  {
  }

  /**
   With no arrivals, n fetches return the n requests the elevator holds, each exactly once, and
   the next fetch returns null.
   */
  lemma FetchAllOnce(st: State)
    requires Inv(st)
    ensures var b := FetchMany(st, HeldCount(st));
            && |b.out| == HeldCount(st) && NoDup(b.out) && Elements(b.out) == Held(st)
            && Fetch(b.st, false, false).rq == None
  {
    var good := iset s: State | Inv(s);
    forall s | s in good && HeldCount(s) > 0 ensures Serves(UNHINDERED, good, s)
    {
      FetchTakesOne(s);
    }
    RepeatDrains(UNHINDERED, st, HeldCount(st), good);
    NothingLeft(FetchMany(st, HeldCount(st)).st);
  }
}
