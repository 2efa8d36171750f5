/** struct request as the elevator core sees it, and counting over the request table. */
module Requests {
  import opened BioChains

  /** Requests are named by identifiers; two pointers are equal exactly when the identifiers are. */
  type Id = nat

  /**
   The cmd_flags bits and cmd_type the model uses: `write`/`sync` are REQ_WRITE/REQ_SYNC, `fs` is
   REQ_TYPE_FS, `flush` is REQ_FLUSH or REQ_FUA, and the rest are named after their bit.
   */
  datatype Request = Request(
    body: Chain, write: bool, sync: bool, fs: bool, discard: bool, flush: bool,
    noMerge: bool, softBarrier: bool, started: bool, sorted: bool, elvPriv: bool, hashed: bool)

  const BLANK: Request :=
    Request(Chain(0, 0, [], {}, false), false, false, false, false, false,
            false, false, false, false, false, false)

  function Pos(r: Request): nat { r.body.sector }

  function End(r: Request): nat { EndSector(r.body) }

  /** rw_is_sync: a read or a sync write. */
  predicate IsSync(r: Request) { !r.write || r.sync }

  /** rq_mergeable. */
  predicate Mergeable(r: Request) {
    r.fs && !r.noMerge && !r.started && !r.softBarrier && !r.flush
  }

  /** blk_account_rq. */
  predicate Accounted(r: Request) { r.started && r.fs }

  /** A request its owner has initialised and not yet handed to the elevator. */
  predicate Fresh(r: Request) {
    !r.softBarrier && !r.started && !r.sorted && !r.hashed
  }

  function Lookup(rqs: map<Id, Request>, id: Id): Request {
    if id in rqs then rqs[id] else BLANK
  }

  // ---------------------------------------------------------------- counting

  /** What a counter of the block layer counts. */
  datatype Query = OfClass(isSync: bool) | InFlight(isSync: bool) | WithElvPriv

  predicate Holds(q: Query, r: Request) {
    match q
    case OfClass(s) => IsSync(r) == s
    case InFlight(s) => Accounted(r) && IsSync(r) == s
    case WithElvPriv => r.elvPriv
  }

  function Tally(q: Query, r: Request): nat {
    if Holds(q, r) then 1 else 0
  }

  ghost function Matching(ids: set<Id>, rqs: map<Id, Request>, q: Query): set<Id> {
    set id | id in ids && id in rqs && Holds(q, rqs[id])
  }

  ghost function Count(ids: set<Id>, rqs: map<Id, Request>, q: Query): nat {
    |Matching(ids, rqs, q)|
  }

  lemma CountAdd(ids: set<Id>, rqs: map<Id, Request>, q: Query, id: Id)
    requires id !in ids && id in rqs
    ensures Count(ids + {id}, rqs, q) == Count(ids, rqs, q) + Tally(q, rqs[id])
  {
    if Holds(q, rqs[id]) {
      assert Matching(ids + {id}, rqs, q) == Matching(ids, rqs, q) + {id};
    } else {
      assert Matching(ids + {id}, rqs, q) == Matching(ids, rqs, q);
    }
  }

  lemma CountRemove(ids: set<Id>, rqs: map<Id, Request>, q: Query, id: Id)
    requires id in ids && id in rqs
    ensures Count(ids - {id}, rqs, q) == Count(ids, rqs, q) - Tally(q, rqs[id])
  {
    assert (ids - {id}) + {id} == ids;
    CountAdd(ids - {id}, rqs, q, id);
  }

  /** A count depends only on what the query sees of the counted requests. */
  lemma CountSame(ids: set<Id>, rqs: map<Id, Request>, rqs': map<Id, Request>, q: Query)
    requires forall id :: id in ids ==> (id in rqs <==> id in rqs')
    requires forall id :: id in ids && id in rqs ==> Holds(q, rqs[id]) == Holds(q, rqs'[id])
    ensures Count(ids, rqs', q) == Count(ids, rqs, q)
  {
    assert Matching(ids, rqs', q) == Matching(ids, rqs, q);
  }

  /** How many requests of a freed list a query matches. */
  function TallyAll(q: Query, freed: seq<Request>): nat {
    if freed == [] then 0 else Tally(q, freed[0]) + TallyAll(q, freed[1..])
  }

  lemma {:induction false} TallyAllConcat(q: Query, a: seq<Request>, b: seq<Request>)
    ensures TallyAll(q, a + b) == TallyAll(q, a) + TallyAll(q, b)
  {
    if a == [] {
      assert a + b == b;
    } else {
      assert (a + b)[1..] == a[1..] + b;
      TallyAllConcat(q, a[1..], b);
    }
  }
}
