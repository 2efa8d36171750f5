/**
 generic_make_request over stacked devices: recursion turned into a loop over current->bio_list.
 */
module MakeRequest {
  import opened Types
  import opened Lists

  /** A bio addressed to a device; `level` is the device's height in the stack. */
  datatype Bio = Bio(id: nat, level: nat)

  /** The submission checks, and what a device's make_request_fn resubmits for a bio. */
  datatype Stack = Stack(accepts: Bio -> bool, children: Bio -> seq<Bio>)

  /** Every resubmission goes to a strictly lower device. */
  ghost predicate Descends(k: Stack) {
    forall b, c :: c in k.children(b) ==> c.level < b.level
  }

  function Accepted(k: Stack, bios: seq<Bio>): (r: seq<Bio>)
    ensures forall b :: b in r ==> b in bios && k.accepts(b)
  {
    if bios == [] then []
    else if k.accepts(bios[0]) then [bios[0]] + Accepted(k, bios[1..])
    else Accepted(k, bios[1..])
  }

  function Refused(k: Stack, bios: seq<Bio>): seq<Bio> {
    if bios == [] then []
    else if k.accepts(bios[0]) then Refused(k, bios[1..])
    else [bios[0]] + Refused(k, bios[1..])
  }

  function Kids(k: Stack, b: Bio): seq<Bio> { Accepted(k, k.children(b)) }

  /** The bios refused while `handled` were being handled. */
  function RefusedBy(k: Stack, handled: seq<Bio>): seq<Bio> {
    if handled == [] then [] else Refused(k, k.children(handled[0])) + RefusedBy(k, handled[1..])
  }

  // ------------------------------------------------------------- expansions

  /** One more than the highest device addressed. */
  function Height(bios: seq<Bio>): nat {
    if bios == [] then 0 else Max(bios[0].level + 1, Height(bios[1..]))
  }

  lemma {:induction false} HeightBelow(bios: seq<Bio>, level: nat)
    requires forall b :: b in bios ==> b.level < level
    ensures Height(bios) <= level
  {
    if bios != [] {
      assert bios[0] in bios;
      HeightBelow(bios[1..], level);
    }
  }

  lemma KidsBelow(k: Stack, b: Bio)
    requires Descends(k)
    ensures Height(Kids(k, b)) <= b.level
  {
    HeightBelow(Kids(k, b), b.level);
  }

  /** The recursive expansion: every bio is followed at once by all that its device resubmits. */
  ghost function Expand(k: Stack, bios: seq<Bio>): seq<Bio>
    requires Descends(k)
    decreases Height(bios), |bios|
  {
    if bios == [] then []
    else
      KidsBelow(k, bios[0]);
      [bios[0]] + Expand(k, Kids(k, bios[0])) + Expand(k, bios[1..])
  }

  lemma {:induction false} ExpandConcat(k: Stack, a: seq<Bio>, b: seq<Bio>)
    requires Descends(k)
    ensures Expand(k, a + b) == Expand(k, a) + Expand(k, b)
    decreases |a|
  {
    if a == [] {
      assert a + b == b;
    } else {
      assert (a + b)[1..] == a[1..] + b;
      ExpandConcat(k, a[1..], b);
    }
  }

  /** The order of the loop: what a device resubmits waits behind everything already on the list. */
  ghost function Queued(k: Stack, bios: seq<Bio>): seq<Bio>
    requires Descends(k)
    decreases |Expand(k, bios)|
  {
    if bios == [] then []
    else
      ExpandConcat(k, bios[1..], Kids(k, bios[0]));
      [bios[0]] + Queued(k, bios[1..] + Kids(k, bios[0]))
  }

  /** Each accepted bio is handed to its device exactly as often as in the recursive expansion. */
  lemma {:induction false} QueuedIsExpansion(k: Stack, bios: seq<Bio>)
    requires Descends(k)
    ensures multiset(Queued(k, bios)) == multiset(Expand(k, bios))
    decreases |Expand(k, bios)|
  {
    if bios != [] {
      var rest, kids := bios[1..], Kids(k, bios[0]);
      ExpandConcat(k, rest, kids);
      QueuedIsExpansion(k, rest + kids);
      assert multiset(Expand(k, rest + kids)) == multiset(Expand(k, kids)) + multiset(Expand(k, rest));
      assert Expand(k, bios) == [bios[0]] + Expand(k, kids) + Expand(k, rest);
    }
  }

  // ------------------------------------------------------------------- tasks

  lemma {:induction false} SplitLast(k: Stack, bios: seq<Bio>, b: Bio)
    ensures Accepted(k, bios + [b]) == Accepted(k, bios) + (if k.accepts(b) then [b] else [])
    ensures Refused(k, bios + [b]) == Refused(k, bios) + (if k.accepts(b) then [] else [b])
  {
    if bios != [] {
      assert (bios + [b])[1..] == bios[1..] + [b];
      SplitLast(k, bios[1..], b);
    }
  }

  /** Handling `left` in queue order turns the logs `handled` and `ended` into `allHandled` and `allEnded`. */
  ghost predicate Leads(
    k: Stack, left: seq<Bio>, handled: seq<Bio>, ended: seq<Bio>, allHandled: seq<Bio>, allEnded: seq<Bio>)
    requires Descends(k)
  {
    handled + Queued(k, left) == allHandled && ended + RefusedBy(k, Queued(k, left)) == allEnded
  }

  /** One turn of the loop: the first bio is taken off the list and what it resubmits goes to the end. */
  lemma Turn(k: Stack, left: seq<Bio>, handled: seq<Bio>, ended: seq<Bio>, allHandled: seq<Bio>, allEnded: seq<Bio>)
    requires Descends(k) && left != [] && Leads(k, left, handled, ended, allHandled, allEnded)
    ensures var b, left' := left[0], left[1..] + Kids(k, left[0]);
            && Leads(k, left', handled + [b], ended + Refused(k, k.children(b)), allHandled, allEnded)
            && |Expand(k, left')| < |Expand(k, left)|
  {
    var b, left' := left[0], left[1..] + Kids(k, left[0]);
    ExpandConcat(k, left[1..], Kids(k, b));
    RefusedByCons(k, b, Queued(k, left'));
    Regroup(handled, [b], Queued(k, left'));
    Regroup(ended, Refused(k, k.children(b)), RefusedBy(k, Queued(k, left')));
  }

  lemma RefusedByCons(k: Stack, b: Bio, rest: seq<Bio>)
    ensures RefusedBy(k, [b] + rest) == Refused(k, k.children(b)) + RefusedBy(k, rest)
  {
    assert ([b] + rest)[1..] == rest;
  }

  /**
   A task: current->bio_list, how many make_request_fn calls are active, the bios handed to their
   devices and the bios ended by the checks, in order.
   */
  class Task {
    const stack: Stack
    var bioList: Option<seq<Bio>>
    var active: nat
    var handled: seq<Bio>
    var ended: seq<Bio>

    constructor (k: Stack)
      ensures stack == k && bioList == None && active == 0 && handled == [] && ended == []
    {
      stack := k;
      bioList, active, handled, ended := None, 0, [], [];
    }

    /**
     generic_make_request. Called from a make_request_fn it only queues the bio; called from outside
     it handles the bio and all that follows from it, in queue order, and returns with no list.
     */
    method Submit(bio: Bio)
      requires Descends(stack) && (bioList.None? ==> active == 0)
      modifies this
      ensures active == old(active)
      ensures !stack.accepts(bio) ==> bioList == old(bioList) && handled == old(handled) && ended == old(ended) + [bio]
      ensures stack.accepts(bio) && old(bioList).Some? ==>
                bioList == Some(old(bioList).value + [bio]) && handled == old(handled) && ended == old(ended)
      ensures stack.accepts(bio) && old(bioList).None? ==>
                && bioList == None && handled == old(handled) + Queued(stack, [bio])
                && ended == old(ended) + RefusedBy(stack, Queued(stack, [bio]))
      decreases if bioList.None? then 2 else 0
    {
      if !stack.accepts(bio) {
        ended := ended + [bio];
        return;
      }
      if bioList.Some? {
        bioList := Some(bioList.value + [bio]);
        return;
      }
      Loop(bio);
    }

    /** bio_list_pop. */
    method Pop() returns (bio: Option<Bio>)
      requires bioList.Some?
      modifies this`bioList
      ensures bioList.Some? && Remaining(bio, bioList.value) == old(bioList.value)
      ensures bio.None? ==> bioList.value == []
    {
      if bioList.value == [] {
        return None;
      }
      bio := Some(bioList.value[0]);
      bioList := Some(bioList.value[1..]);
    }

    /** The do-while loop of generic_make_request. */
    method Loop(first: Bio)
      requires Descends(stack) && bioList.None? && active == 0
      modifies this
      ensures bioList == None && active == 0
      ensures handled == old(handled) + Queued(stack, [first])
      ensures ended == old(ended) + RefusedBy(stack, Queued(stack, [first]))
      decreases 1, 1
    {
      bioList := Some([]);
      var bio := Some(first);
      ghost var left, all := [first], Queued(stack, [first]);
      ghost var allHandled, allEnded := handled + all, ended + RefusedBy(stack, all);
      while bio.Some?
        invariant bioList.Some? && active == 0 && left == Remaining(bio, bioList.value)
        invariant bio.None? ==> left == []
        invariant Leads(stack, left, handled, ended, allHandled, allEnded)
        decreases |Expand(stack, left)|
      {
        Turn(stack, left, handled, ended, allHandled, allEnded);
        MakeRequestFn(bio.value);
        left := left[1..] + Kids(stack, left[0]);
        bio := Pop();
      }
      bioList := None;
    }

    /** A stacked device's make_request_fn; no other one is active in this task while it runs. */
    method MakeRequestFn(bio: Bio)
      requires Descends(stack) && bioList.Some? && active == 0
      modifies this
      ensures active == 0 && bioList == Some(old(bioList).value + Kids(stack, bio))
      ensures handled == old(handled) + [bio]
      ensures ended == old(ended) + Refused(stack, stack.children(bio))
      decreases 1, 0
    {
      active := active + 1;
      handled := handled + [bio];
      var kids := stack.children(bio);
      for i := 0 to |kids|
        invariant active == 1 && handled == old(handled) + [bio]
        invariant bioList.Some? && bioList.value == old(bioList).value + Accepted(stack, kids[..i])
        invariant ended == old(ended) + Refused(stack, kids[..i])
      {
        assert kids[..i + 1] == kids[..i] + [kids[i]];
        SplitLast(stack, kids[..i], kids[i]);
        Submit(kids[i]);
      }
      assert kids[..|kids|] == kids;
      assert bioList == Some(old(bioList).value + Kids(stack, bio));
      active := active - 1;
    }
  }

  /** What the loop still has to handle. */
  function Remaining(bio: Option<Bio>, list: seq<Bio>): seq<Bio> {
    if bio.Some? then [bio.value] + list else list
  }
}
