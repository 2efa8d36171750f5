/**
 The request allocator's books: request_list counts, full and congested flags, starvation marks, and
 the per-queue totals. The class updates them in place the way blk-core.c does; the functions say
 what each critical section computes and the lemmas what every run of them keeps.
 */
module RequestLists {
  import opened Types

  /** Answer of elv_may_queue. */
  datatype MayQueue = May | Must | No

  /** The entries of request_list's arrays for one sync class, with the queue's nr_rqs for it. */
  datatype Class = Class(count: int, starved: bool, full: bool, congested: bool, nrRqs: int)

  /** nr_requests and the congestion thresholds derived from it. */
  datatype Limits = Limits(nr: nat, on: int, off: int)

  /** request_list with the request_queue fields its functions touch. */
  datatype Books = Books(async: Class, sync: Class, elvPriv: int, limits: Limits) {
    function Get(isSync: bool): Class {
      if isSync then sync else async
    }

    function Put(isSync: bool, c: Class): Books {
      if isSync then this.(sync := c) else this.(async := c)
    }
  }

  /** blk_queue_congestion_threshold. */
  function LimitsFor(nr: nat): Limits {
    var on := nr - nr / 8 + 1;
    var off := nr - nr / 8 - nr / 16 - 1;
    Limits(nr, if on > nr then nr else on, if off < 1 then 1 else off)
  }

  const UNUSED: Class := Class(0, false, false, false, 0)

  function NewBooks(nr: nat): Books {
    Books(UNUSED, UNUSED, 0, LimitsFor(nr))
  }

  /** What the locked part of __get_request decides, with the books it leaves behind. */
  datatype Grant = Granted(books: Books) | Denied(books: Books)

  /** The flags set before the final limit check: full, then congested. */
  function MarkPressure(c: Class, lim: Limits): Class {
    if c.count + 1 >= lim.on then
      c.(full := c.full || c.count + 1 >= lim.nr, congested := true)
    else c
  }

  /** The queue is full and the caller is neither batching nor exempted by the scheduler. */
  predicate Blocked(c: Class, lim: Limits, may: MayQueue, batching: bool) {
    c.count + 1 >= lim.on && c.count + 1 >= lim.nr && c.full && may != Must && !batching
  }

  function MarkStarved(c: Class): Class {
    c.(starved := c.starved || c.count == 0)
  }

  /** One more request of the class is accounted for. */
  function Take(c: Class): Class {
    c.(nrRqs := c.nrRqs + 1, count := c.count + 1, starved := false)
  }

  /** The critical section of __get_request for class `s`; `wantElv` says the elevator will manage the request. */
  function GetRequest(b: Books, s: bool, may: MayQueue, batching: bool, wantElv: bool): Grant {
    var c := b.Get(s);
    if may == No then Denied(b.Put(s, MarkStarved(c)))
    else if Blocked(c, b.limits, may, batching) then Denied(b)
    else
      var c1 := MarkPressure(c, b.limits);
      if c1.count >= 3 * b.limits.nr / 2 then Denied(b.Put(s, c1))
      else Granted(b.Put(s, Take(c1)).(elvPriv := if wantElv then b.elvPriv + 1 else b.elvPriv))
  }

  /** __freed_request. */
  function Relax(c: Class, lim: Limits): Class {
    c.(congested := c.congested && c.count >= lim.off, full := c.full && c.count + 1 > lim.nr)
  }

  /** The own class of a freed request. */
  function Release(c: Class, lim: Limits): Class {
    Relax(c.(nrRqs := c.nrRqs - 1, count := c.count - 1), lim)
  }

  /** The other class, which is looked at only if it is starved. */
  function Nudge(c: Class, lim: Limits): Class {
    if c.starved then Relax(c, lim) else c
  }

  /** freed_request for a request of class `s`. */
  function FreedRequest(b: Books, s: bool, elv: bool): Books {
    b.Put(s, Release(b.Get(s), b.limits)).Put(!s, Nudge(b.Get(!s), b.limits))
     .(elvPriv := if elv then b.elvPriv - 1 else b.elvPriv)
  }

  /** The failure path of __get_request when the mempool is empty. */
  function AllocFailed(b: Books, s: bool, elv: bool): Books {
    var b1 := FreedRequest(b, s, elv);
    b1.Put(s, MarkStarved(b1.Get(s)))
  }

  function Reclassify(c: Class, lim: Limits): Class {
    c.(congested := c.count >= lim.on || (c.congested && c.count >= lim.off), full := c.count >= lim.nr)
  }

  /** blk_update_nr_requests. */
  function Resize(b: Books, nr: nat): Books {
    b.(limits := LimitsFor(nr), sync := Reclassify(b.sync, LimitsFor(nr)), async := Reclassify(b.async, LimitsFor(nr)))
  }

  // ---------------------------------------------------------------- invariant

  /** The flags of one class say exactly what its count implies. */
  ghost predicate ClassOk(c: Class, lim: Limits) {
    && c.count >= 0 && c.nrRqs == c.count
    && (c.full <==> c.count >= lim.nr)
    && (c.count >= lim.on ==> c.congested)
    && (c.congested ==> c.count >= lim.off)
    && (c.starved ==> c.count == 0)
  }

  ghost predicate BooksOk(b: Books) {
    Ordered(b.limits) && ClassOk(b.sync, b.limits) && ClassOk(b.async, b.limits)
  }

  ghost predicate Ordered(lim: Limits) { 1 <= lim.off <= lim.on <= lim.nr }

  lemma ThresholdOrder(nr: nat)
    requires nr >= 1
    ensures Ordered(LimitsFor(nr))
  {
  }

  /** The on threshold is one above seven eighths of the limit, the off threshold just below thirteen sixteenths. */
  lemma ThresholdFractions(nr: nat)
    requires nr >= 16
    ensures var lim := LimitsFor(nr);
            && lim.nr == nr && 7 * nr <= 8 * (lim.on - 1) < 7 * nr + 8
            && 13 * nr <= 16 * (lim.off + 1) < 13 * nr + 32
  {
  }

  lemma NewBooksOk(nr: nat)
    requires nr >= 1
    ensures BooksOk(NewBooks(nr))
  {
    ThresholdOrder(nr);
  }

  /** Marking pressure and taking one request leaves the class consistent. */
  lemma TakeOk(c: Class, lim: Limits)
    requires Ordered(lim) && ClassOk(c, lim)
    ensures ClassOk(Take(MarkPressure(c, lim)), lim)
    ensures c.count >= lim.nr ==> ClassOk(MarkPressure(c, lim), lim)
  {
  }

  /** A grant raises the count by one and never past 150% of the limit; a denial changes no count. */
  lemma GetRequestOk(b: Books, s: bool, may: MayQueue, batching: bool, wantElv: bool)
    requires BooksOk(b)
    ensures var g := GetRequest(b, s, may, batching, wantElv);
            && BooksOk(g.books) && g.books.limits == b.limits && g.books.Get(!s) == b.Get(!s)
            && (g.Granted? ==> && g.books.Get(s).count == b.Get(s).count + 1 <= 3 * b.limits.nr / 2
                               && g.books.elvPriv == b.elvPriv + (if wantElv then 1 else 0))
            && (g.Denied? ==> g.books.Get(s).count == b.Get(s).count && g.books.elvPriv == b.elvPriv)
            && (var n, nr := b.Get(s).count, b.limits.nr;
                g.Granted? <==> may != No && n < 3 * nr / 2 && (n < nr || may == Must || batching))
  {
    GrantedIff(b, s, may, batching, wantElv);
    var c := b.Get(s);
    assert ClassOk(c, b.limits);
    TakeOk(c, b.limits);
    if may == No {
      PutOk(b, s, MarkStarved(c));
    } else if !Blocked(c, b.limits, may, batching) {
      var c1 := MarkPressure(c, b.limits);
      if c1.count >= 3 * b.limits.nr / 2 {
        PutOk(b, s, c1);
      } else {
        PutOk(b, s, Take(c1));
      }
    }
  }

  lemma PutOk(b: Books, s: bool, c: Class)
    requires BooksOk(b) && ClassOk(c, b.limits)
    ensures var b' := b.Put(s, c);
            BooksOk(b') && b'.limits == b.limits && b'.Get(s) == c && b'.Get(!s) == b.Get(!s) && b'.elvPriv == b.elvPriv
  {
  }

  /**
   Exactly who is granted a request: the scheduler does not forbid it, the class is below 150% of the
   limit, and below the limit itself unless the caller is batching or the scheduler insists.
   */
  lemma GrantedIff(b: Books, s: bool, may: MayQueue, batching: bool, wantElv: bool)
    requires BooksOk(b)
    ensures var n, nr := b.Get(s).count, b.limits.nr;
            GetRequest(b, s, may, batching, wantElv).Granted?
            <==> may != No && n < 3 * nr / 2 && (n < nr || may == Must || batching)
  {
    assert ClassOk(b.Get(s), b.limits);
  }

  /** A caller the scheduler forbids leaves its class starved exactly when it has no request. */
  lemma ForbiddenStarves(b: Books, s: bool, batching: bool, wantElv: bool)
    requires BooksOk(b)
    ensures var c := GetRequest(b, s, No, batching, wantElv).books.Get(s);
            c.starved <==> c.count == 0
  {
    assert ClassOk(b.Get(s), b.limits);
  }

  /** Without a batching caller or the scheduler's exemption the queue never grows past its limit. */
  lemma OrdinaryCallersRespectLimit(b: Books, s: bool, wantElv: bool)
    requires BooksOk(b)
    ensures GetRequest(b, s, May, false, wantElv).Granted? <==> b.Get(s).count < b.limits.nr
  {
    assert ClassOk(b.Get(s), b.limits);
  }

  lemma FreedRequestOk(b: Books, s: bool, elv: bool)
    requires BooksOk(b) && b.Get(s).count > 0
    ensures var b' := FreedRequest(b, s, elv);
            && BooksOk(b') && b'.limits == b.limits
            && b'.Get(s).count == b.Get(s).count - 1 && b'.Get(!s).count == b.Get(!s).count
            && b'.elvPriv == b.elvPriv - (if elv then 1 else 0)
  {
    ReleaseOk(b.Get(s), b.limits);
    ReleaseOk(b.Get(!s), b.limits);
  }

  lemma ReleaseOk(c: Class, lim: Limits)
    requires Ordered(lim) && ClassOk(c, lim)
    ensures c.count > 0 ==> ClassOk(Release(c, lim), lim) && Release(c, lim).count == c.count - 1
    ensures ClassOk(Nudge(c, lim), lim) && Nudge(c, lim).count == c.count
  {
  }

  lemma AllocFailedOk(b: Books, s: bool, elv: bool)
    requires BooksOk(b) && b.Get(s).count > 0
    ensures var b' := AllocFailed(b, s, elv);
            && BooksOk(b') && b'.limits == b.limits
            && b'.Get(s).count == b.Get(s).count - 1 && b'.Get(!s).count == b.Get(!s).count
            && b'.elvPriv == b.elvPriv - (if elv then 1 else 0)
  {
    FreedRequestOk(b, s, elv);
  }

  lemma ResizeOk(b: Books, nr: nat)
    requires BooksOk(b) && nr >= 1
    ensures var b' := Resize(b, nr);
            && BooksOk(b') && b'.elvPriv == b.elvPriv
            && b'.sync.count == b.sync.count && b'.async.count == b.async.count
  {
    ThresholdOrder(nr);
  }

  // --------------------------------------------------------------------- runs

  /** The steps of the allocator; a failed allocation and a free both return a granted request. */
  datatype Step =
    | Reserve(s: bool, may: MayQueue, batching: bool, wantElv: bool)
    | Fail(s: bool, elv: bool)
    | Free(s: bool, elv: bool)
    | SetLimit(nr: nat)

  function Apply(b: Books, step: Step): Books {
    match step
    case Reserve(s, may, batching, wantElv) => GetRequest(b, s, may, batching, wantElv).books
    case Fail(s, elv) => AllocFailed(b, s, elv)
    case Free(s, elv) => FreedRequest(b, s, elv)
    case SetLimit(nr) => Resize(b, nr)
  }

  ghost predicate Legal(b: Books, step: Step) {
    match step
    case Reserve(_, _, _, _) => true
    case Fail(s, _) => b.Get(s).count > 0
    case Free(s, _) => b.Get(s).count > 0
    case SetLimit(nr) => nr >= 1
  }

  ghost predicate LegalRun(b: Books, steps: seq<Step>)
    decreases |steps|
  {
    steps == [] || (Legal(b, steps[0]) && LegalRun(Apply(b, steps[0]), steps[1..]))
  }

  ghost function AfterAll(b: Books, steps: seq<Step>): Books
    decreases |steps|
  {
    if steps == [] then b else AfterAll(Apply(b, steps[0]), steps[1..])
  }

  lemma StepKeepsBooks(b: Books, step: Step)
    requires BooksOk(b) && Legal(b, step)
    ensures BooksOk(Apply(b, step))
  {
    match step
    case Reserve(s, may, batching, wantElv) => GetRequestOk(b, s, may, batching, wantElv);
    case Fail(s, elv) => AllocFailedOk(b, s, elv);
    case Free(s, elv) => FreedRequestOk(b, s, elv);
    case SetLimit(nr) => ResizeOk(b, nr);
  }

  lemma {:induction false} RunKeepsBooks(b: Books, steps: seq<Step>)
    requires BooksOk(b) && LegalRun(b, steps)
    ensures BooksOk(AfterAll(b, steps))
    decreases |steps|
  {
    if steps != [] {
      StepKeepsBooks(b, steps[0]);
      RunKeepsBooks(Apply(b, steps[0]), steps[1..]);
    }
  }

  /**
   After any run of allocations, failures, frees and resizes from a new queue: full exactly at the
   limit, congested from the on threshold and never below the off threshold, thresholds ordered, and
   the next allocation does not go above 150% of the limit.
   */
  lemma EveryRunIsConsistent(nr: nat, steps: seq<Step>, s: bool, may: MayQueue, batching: bool, wantElv: bool)
    requires nr >= 1 && LegalRun(NewBooks(nr), steps)
    ensures var b := AfterAll(NewBooks(nr), steps);
            var c, lim := b.Get(s), b.limits;
            && (c.full <==> c.count >= lim.nr)
            && (c.count >= lim.on ==> c.congested) && (c.congested ==> c.count >= lim.off)
            && 1 <= lim.off <= lim.on <= lim.nr && c.count == c.nrRqs >= 0 && (c.starved ==> c.count == 0)
            && (GetRequest(b, s, may, batching, wantElv).Granted? ==> c.count + 1 <= 3 * lim.nr / 2)
  {
    NewBooksOk(nr);
    RunKeepsBooks(NewBooks(nr), steps);
    var b := AfterAll(NewBooks(nr), steps);
    GetRequestOk(b, s, may, batching, wantElv);
  }

  // ---------------------------------------------------------- in-place updates

  /** request_list and the queue fields it shares, updated field by field under the queue lock. */
  class RequestList {
    var async: Class
    var sync: Class
    var elvPriv: int
    var limits: Limits

    ghost function View(): Books
      reads this
    {
      Books(async, sync, elvPriv, limits)
    }

    /** The flags of both classes say exactly what their counts imply. */
    ghost predicate Valid()
      reads this
    {
      BooksOk(View())
    }

    constructor (nr: nat)
      requires nr >= 1
      ensures Valid() && View() == NewBooks(nr)
    {
      async, sync := UNUSED, UNUSED;
      elvPriv, limits := 0, LimitsFor(nr);
      new;
      NewBooksOk(nr);
    }

    method Load(s: bool) returns (c: Class)
      ensures c == View().Get(s)
    {
      c := if s then sync else async;
    }

    method Store(s: bool, c: Class)
      modifies this`sync, this`async
      ensures View() == old(View()).Put(s, c)
    {
      if s {
        sync := c;
      } else {
        async := c;
      }
    }

    /** The pressure checks of __get_request: whether the caller is turned away, and the flags otherwise. */
    method Press(c: Class, may: MayQueue, batching: bool) returns (blocked: bool, c1: Class)
      ensures Ordered(limits) && ClassOk(c, limits) ==>
                && (blocked <==> c.count >= limits.nr && may != Must && !batching)
                && (!blocked ==> ClassOk(Take(c1), limits) && c1.count == c.count)
      ensures blocked == Blocked(c, limits, may, batching)
      ensures !blocked ==> c1 == MarkPressure(c, limits)
    {
      blocked, c1 := false, c;
      if c1.count + 1 >= limits.on {
        if c1.count + 1 >= limits.nr {
          if !c1.full {
            c1 := c1.(full := true);
          } else if may != Must && !batching {
            return true, c1;
          }
        }
        c1 := c1.(congested := true);
      }
    }

    /** The locked part of __get_request; true when the caller may go on to the mempool. */
    method Acquire(s: bool, may: MayQueue, batching: bool, wantElv: bool) returns (ok: bool)
      requires Valid()
      modifies this
      ensures Valid() && limits == old(limits) && View().Get(!s) == old(View().Get(!s))
      ensures ok ==> View().Get(s).count == old(View().Get(s).count) + 1 <= 3 * limits.nr / 2
                     && elvPriv == old(elvPriv) + Ones(wantElv)
      ensures !ok ==> View().Get(s).count == old(View().Get(s).count) && elvPriv == old(elvPriv)
      ensures var n := old(View().Get(s).count);
              ok <==> may != No && n < 3 * limits.nr / 2 && (n < limits.nr || may == Must || batching)
      ensures may == No ==> (View().Get(s).starved <==> View().Get(s).count == 0)
      ensures var g := GetRequest(old(View()), s, may, batching, wantElv);
              View() == g.books && ok == g.Granted?
    {
      GetRequestOk(View(), s, may, batching, wantElv);
      GrantedIff(View(), s, may, batching, wantElv);
      ForbiddenStarves(View(), s, batching, wantElv);
      var c := Load(s);
      if may == No {
        if c.count == 0 {
          c := c.(starved := true);
        }
        Store(s, c);
        return false;
      }
      var blocked, c1 := Press(c, may, batching);
      if blocked {
        return false;
      }
      c := c1;
      if c.count >= 3 * limits.nr / 2 {
        Store(s, c);
        return false;
      }
      c := c.(nrRqs := c.nrRqs + 1);
      c := c.(count := c.count + 1);
      c := c.(starved := false);
      Store(s, c);
      if wantElv {
        elvPriv := elvPriv + 1;
      }
      return true;
    }

    /** __freed_request. */
    method RelaxClass(s: bool)
      modifies this`sync, this`async
      ensures View() == old(View()).Put(s, Relax(old(View()).Get(s), limits))
    {
      var c := Load(s);
      if c.count < limits.off {
        c := c.(congested := false);
      }
      if c.count + 1 <= limits.nr {
        c := c.(full := false);
      }
      Store(s, c);
    }

    /** freed_request: one request of the class less, the other class unchanged, all flags right. */
    method Freed(s: bool, elv: bool)
      requires Valid() && View().Get(s).count > 0
      modifies this
      ensures Valid() && limits == old(limits)
      ensures View().Get(s).count == old(View().Get(s).count) - 1
      ensures View().Get(!s).count == old(View().Get(!s).count) && elvPriv == old(elvPriv) - Ones(elv)
      ensures View() == FreedRequest(old(View()), s, elv)
    {
      FreedRequestOk(View(), s, elv);
      var c := Load(s);
      Store(s, c.(nrRqs := c.nrRqs - 1, count := c.count - 1));
      if elv {
        elvPriv := elvPriv - 1;
      }
      RelaxClass(s);
      var other := Load(!s);
      if other.starved {
        RelaxClass(!s);
      }
    }

    /** The mempool had nothing: what Acquire reserved is given back, and an idle class is marked starved. */
    method Failed(s: bool, elv: bool)
      requires Valid() && View().Get(s).count > 0
      modifies this
      ensures Valid() && limits == old(limits)
      ensures View().Get(s).count == old(View().Get(s).count) - 1
      ensures View().Get(!s).count == old(View().Get(!s).count) && elvPriv == old(elvPriv) - Ones(elv)
      ensures View().Get(s).starved <==> View().Get(s).count == 0
      ensures View() == AllocFailed(old(View()), s, elv)
    {
      AllocFailedOk(View(), s, elv);
      Freed(s, elv);
      var c := Load(s);
      if c.count == 0 {
        Store(s, c.(starved := true));
      }
    }

    /** Sets or clears the congested flag of a class for the current thresholds. */
    method Recongest(s: bool)
      modifies this`sync, this`async
      ensures var c := old(View().Get(s));
              var congested := c.count >= limits.on || (c.congested && c.count >= limits.off);
              View() == old(View()).Put(s, c.(congested := congested))
    {
      var c := Load(s);
      if c.count >= limits.on {
        c := c.(congested := true);
      } else if c.count < limits.off {
        c := c.(congested := false);
      }
      Store(s, c);
    }

    method Refill(s: bool)
      modifies this`sync, this`async
      ensures var c := old(View().Get(s)); View() == old(View()).Put(s, c.(full := c.count >= limits.nr))
    {
      var c := Load(s);
      Store(s, c.(full := c.count >= limits.nr));
    }

    /** blk_update_nr_requests: the counts stay, every flag is right for the new limit. */
    method UpdateLimit(nr: nat)
      requires Valid() && nr >= 1
      modifies this
      ensures Valid() && limits.nr == nr && elvPriv == old(elvPriv)
      ensures forall s :: View().Get(s).count == old(View().Get(s).count)
      ensures View() == Resize(old(View()), nr)
    {
      ResizeOk(View(), nr);
      limits := LimitsFor(nr);
      Recongest(true);
      Recongest(false);
      Refill(true);
      Refill(false);
    }
  }
}
