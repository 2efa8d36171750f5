/**
 What an elevator switch achieves over whole runs: a successful one leaves the queue with a fresh
 scheduler, a failed one with the scheduler it had when it was drained, whatever happens meanwhile.
 */
module ElevatorSwitch {
  import opened Types
  import opened Requests
  import opened Elevator
  import opened ElevatorSafety
  import opened BlockLayer

  // --------------------------------------------------------- a quiesced elevator

  /** Nothing is or can become pending. */
  ghost predicate Quiet(st: State) {
    Inv(st) && Blank(st.sched) && st.lastMerge == None && forall id :: id in st.rqs ==> !st.rqs[id].elvPriv
  }

  lemma QuietInsert(st: State, id: Id, at: Where, env: Env)
    requires Quiet(st) && MayInsert(st, id, at)
    ensures AddRequest(st, id, at, env).st.sched == st.sched
  {
    assert Fresh(Rq(st, id)) && !Rq(st, id).elvPriv;
    assert Redirect(Rq(st, id), at) == Front || Redirect(Rq(st, id), at) == Back;
    var st1 := SetRq(st, id, Rq(st, id).(softBarrier := true));
    assert PendingCount(st1) == 0 && Drain(st1) == st1;
  }

  lemma QuietBio(st: State, sub: Submission, env: Env)
    requires Quiet(st)
    ensures MergeBio(st, sub, env).st == st
  {
    assert HashFind(st, env.bucket, sub.bio.sector) == Lookups(st, None);
  }

  /** No event but a scheduler change touches the scheduler of a quiet queue, not even its position. */
  lemma QuietKeepsScheduler(st: State, e: Machine.Event)
    requires Quiet(st) && Machine.Enabled(st, e) && !e.SwapScheduler?
    ensures Machine.Step(st, e).sched == st.sched
  {
    match e
    case Insert(id, at, env) => QuietInsert(st, id, at, env);
    case SubmitBio(sub, env) => QuietBio(st, sub, env);
    case _ =>
  }

  lemma DrainedIsQuiet(l: Layer)
    requires LayerInv(l) && (l.sw.Quiesced? || l.sw.Installed?)
    ensures Quiet(l.elv)
  {
    NoElvPrivNothingPending(l.elv);
  }

  lemma ReserveKeeps(l: Layer, id: Id, t: Request, may: RequestLists.MayQueue, batching: bool)
    ensures Reserve(l, id, t, may, batching).elv == l.elv && Reserve(l, id, t, may, batching).sw == l.sw
  {
  }

  lemma GetKeeps(l: Layer, e: Event)
    requires e.Get? && Enabled(l, e)
    ensures Step(l, e).elv == l.elv && Step(l, e).sw == l.sw
  {
    ReserveKeeps(l, e.id, Ticket(e.write, e.sync, e.forElevator && !l.bypass), e.may, e.batching);
  }

  lemma FailKeeps(l: Layer, e: Event)
    requires e.AllocFail? && Enabled(l, e)
    ensures Step(l, e).elv == l.elv && Step(l, e).sw == l.sw
  {
  }

  lemma TaskKeeps(l: Layer, e: Event)
    requires Enabled(l, e) && Tasks(e)
    ensures Step(l, e).elv.sched == l.elv.sched && Step(l, e).sw == l.sw
  {
    match e
    case Get(_, _, _, _, _, _) => GetKeeps(l, e);
    case AllocFail(_) => FailKeeps(l, e);
    case AllocDone(id, r) => assert Step(l, e) == Admit(l, id, r);
    case NoElvPriv(id) => assert Step(l, e) == DropElvPriv(l, id);
    case SetLimit(nr) => assert Step(l, e) == l.(books := l.books.(limits := Step(l, e).books.limits,
                                                   sync := Step(l, e).books.sync, async := Step(l, e).books.async));
    case Fill(id, r) => assert Step(l, e) == l.(elv := SetRq(l.elv, id, r));
    case Plug(id) => assert Step(l, e) == l.(plugged := l.plugged + {id});
  }

  /** The events by which a switch gets on. */
  predicate Advancing(e: Event) { e.SwitchStart? || e.DrainCheck? || Turning(e) }

  predicate Turning(e: Event) { e.SwitchInit? || e.SwitchFinish? }

  lemma GateKeeps(l: Layer, e: Event)
    requires Enabled(l, e) && Clerical(e)
    ensures Step(l, e).elv == l.elv && (!Advancing(e) ==> Step(l, e).sw == l.sw)
  {
    match e
    case BypassStart =>
    case BypassEnd =>
    case MarkDying =>
    case InitDone =>
    case EndInitialHold =>
    case SwitchStart =>
    case DrainCheck(_) =>
  }

  /** No other event touches the switch. */
  lemma SwitchKept(l: Layer, e: Event)
    requires Enabled(l, e) && !Advancing(e)
    ensures Step(l, e).sw == l.sw
  {
    if Tasks(e) {
      TaskKeeps(l, e);
    } else if Clerical(e) {
      GateKeeps(l, e);
    } else {
      match e
      case Elv(x) => assert Step(l, e) == ElvStep(l, x);
      case CleanUp => assert Step(l, e) == Close(l);
      case DrainPass => assert Step(l, e) == l.(elv := Drain(l.elv));
    }
  }

  lemma ElvKeepsScheduler(l: Layer, e: Event)
    requires LayerInv(l) && (l.sw.Quiesced? || l.sw.Installed?) && e.Elv? && Enabled(l, e)
    ensures Step(l, e).elv.sched == l.elv.sched
  {
    DrainedIsQuiet(l);
    QuietKeepsScheduler(l.elv, e.e);
    assert Step(l, e) == ElvStep(l, e.e);
  }

  /** From the end of the drain, only the switch itself changes the scheduler. */
  lemma StepKeepsScheduler(l: Layer, e: Event)
    requires LayerInv(l) && (l.sw.Quiesced? || l.sw.Installed?) && Enabled(l, e) && !Turning(e)
    ensures Step(l, e).elv.sched == l.elv.sched && Step(l, e).sw == l.sw
  {
    SwitchKept(l, e);
    if e.Elv? {
      ElvKeepsScheduler(l, e);
    } else if Tasks(e) {
      TaskKeeps(l, e);
    } else if Clerical(e) {
      GateKeeps(l, e);
    } else {
      assert Step(l, e) == Close(l);
    }
  }

  // ------------------------------------------------------------------ whole runs

  /** A run during which the switch is not over. */
  ghost predicate Ongoing(l: Layer, es: seq<Event>)
    decreases |es|
  {
    !l.sw.Idle? && (es == [] || (Enabled(l, es[0]) && Ongoing(Step(l, es[0]), es[1..])))
  }

  lemma {:induction false} OngoingRuns(l: Layer, es: seq<Event>)
    requires Ongoing(l, es)
    ensures Runs(l, es) && !After(l, es).sw.Idle?
    decreases |es|
  {
    if es != [] {
      OngoingRuns(Step(l, es[0]), es[1..]);
    }
  }

  /** The scheduler the queue has when the drain is over. */
  ghost function DrainedScheduler(l: Layer, es: seq<Event>): Scheduler
    requires Ongoing(l, es)
    decreases |es|
  {
    if es == [] || !l.sw.Draining? then l.elv.sched else DrainedScheduler(Step(l, es[0]), es[1..])
  }

  /** A turn of the switch ends it, or it is the installation of a fresh scheduler. */
  lemma TurningEnds(l: Layer, e: Event)
    requires Enabled(l, e) && Turning(e)
    ensures l.sw.Installed? ==> Step(l, e).sw.Idle?
    ensures Step(l, e).sw.Idle? || (e == SwitchInit(true) && Switched(Step(l, e), l.elv.sched, true))
  {
    match e
    case SwitchInit(ok) => assert Step(l, e) == Install(l, ok);
    case SwitchFinish(registered) => assert Step(l, e) == Conclude(l, registered);
  }

  lemma InstalledStep(l: Layer, e: Event)
    requires LayerInv(l) && l.sw.Installed? && Enabled(l, e) && !Step(l, e).sw.Idle?
    ensures Step(l, e).sw == l.sw && Step(l, e).elv.sched == l.elv.sched
  {
    if Turning(e) {
      TurningEnds(l, e);
    } else {
      StepKeepsScheduler(l, e);
    }
  }

  lemma {:induction false} InstalledKeeps(l: Layer, es: seq<Event>)
    requires LayerInv(l) && l.sw.Installed? && Ongoing(l, es) && Runs(l, es)
    ensures After(l, es).sw == l.sw && After(l, es).elv.sched == l.elv.sched
    decreases |es|
  {
    if es != [] {
      StepKeepsLayer(l, es[0]);
      InstalledStep(l, es[0]);
      InstalledKeeps(Step(l, es[0]), es[1..]);
    }
  }

  /** The switch has the new scheduler in place, fresh, and remembers `old`; or it has still `old` in place. */
  ghost predicate Switched(l: Layer, old_: Scheduler, installed: bool) {
    if installed then l.sw == Installed(old_) && l.elv.sched == Scheduler([], [], 0, [])
    else l.sw.Quiesced? && l.elv.sched == old_
  }

  /** One step of a drained switch: it installs the new scheduler or keeps the old one. */
  lemma QuiescedStep(l: Layer, e: Event)
    requires LayerInv(l) && l.sw.Quiesced? && Enabled(l, e) && !Step(l, e).sw.Idle?
    ensures Switched(Step(l, e), l.elv.sched, e == SwitchInit(true))
  {
    if Turning(e) {
      TurningEnds(l, e);
    } else {
      StepKeepsScheduler(l, e);
    }
  }

  lemma {:induction false} QuiescedKeeps(l: Layer, es: seq<Event>)
    requires LayerInv(l) && l.sw.Quiesced? && Ongoing(l, es) && Runs(l, es)
    ensures Switched(After(l, es), l.elv.sched, SwitchInit(true) in es)
    decreases |es|
  {
    if es != [] {
      var l1 := Step(l, es[0]);
      StepKeepsLayer(l, es[0]);
      QuiescedStep(l, es[0]);
      assert es == [es[0]] + es[1..];
      if es[0] == SwitchInit(true) {
        InstalledKeeps(l1, es[1..]);
      } else {
        QuiescedKeeps(l1, es[1..]);
      }
    }
  }

  lemma DrainingStep(l: Layer, e: Event)
    requires l.sw.Draining? && Enabled(l, e)
    ensures Step(l, e).sw.Draining? || Step(l, e).sw.Quiesced?
    ensures e != SwitchInit(true)
  {
    if !Advancing(e) {
      SwitchKept(l, e);
    }
  }

  /** How far a switch that has started has come after any run. */
  lemma {:induction false} SwitchSoFar(l: Layer, es: seq<Event>)
    requires LayerInv(l) && (l.sw.Draining? || l.sw.Quiesced?) && Ongoing(l, es) && Runs(l, es)
    ensures After(l, es).sw.Draining? || Switched(After(l, es), DrainedScheduler(l, es), SwitchInit(true) in es)
    decreases |es|
  {
    if l.sw.Quiesced? {
      QuiescedKeeps(l, es);
    } else if es != [] {
      assert es == [es[0]] + es[1..];
      StepKeepsLayer(l, es[0]);
      DrainingStep(l, es[0]);
      SwitchSoFar(Step(l, es[0]), es[1..]);
    }
  }

  lemma OnlyTurnsEnd(l: Layer, e: Event)
    requires !l.sw.Idle? && Enabled(l, e) && Step(l, e).sw.Idle?
    ensures e == SwitchInit(false) || e == SwitchFinish(true) || e == SwitchFinish(false)
  {
    if !Advancing(e) {
      SwitchKept(l, e);
    }
  }

  lemma TurnEffect(l: Layer, e: Event)
    requires Enabled(l, e) && (e == SwitchInit(false) || e == SwitchFinish(true) || e == SwitchFinish(false))
    ensures e == SwitchInit(false) ==> l.sw.Quiesced? && Step(l, e).elv.sched == l.elv.sched
    ensures e == SwitchFinish(true) ==> l.sw.Installed? && Step(l, e).elv.sched == l.elv.sched
    ensures e == SwitchFinish(false) ==> l.sw.Installed? && Step(l, e).elv.sched == l.sw.replaced
    ensures Step(l, e).depth == l.depth - 1
  {
    match e
    case SwitchInit(_) => assert Step(l, e) == Install(l, false);
    case SwitchFinish(registered) => assert Step(l, e) == Conclude(l, registered);
  }

  /**
   In every run: from the start of a switch through any interleaved steps to its end, a successful
   switch leaves a fresh scheduler with empty lists, an empty hash and position 0; a failed one leaves
   the scheduler the queue had once drained, position included. Either way the switch's hold on bypass
   mode is released.
   */
  lemma SwitchResult(nr: nat, sortDispatch: bool, pre: seq<Event>, mid: seq<Event>, e: Event)
    requires nr >= 1 && Runs(Init(nr, sortDispatch), pre)
    requires Enabled(After(Init(nr, sortDispatch), pre), SwitchStart)
    requires Ongoing(Step(After(Init(nr, sortDispatch), pre), SwitchStart), mid)
    requires Runs(Step(After(Init(nr, sortDispatch), pre), SwitchStart), mid)
    requires var l := After(Step(After(Init(nr, sortDispatch), pre), SwitchStart), mid);
             Enabled(l, e) && Step(l, e).sw.Idle?
    ensures var l0 := After(Init(nr, sortDispatch), pre);
            var l1 := Step(l0, SwitchStart);
            var l2 := After(l1, mid);
            var l3 := Step(l2, e);
            && l1.bypass && l1.depth == l0.depth + 1 && l3.depth == l2.depth - 1
            && (e == SwitchFinish(true) || e == SwitchFinish(false) || e == SwitchInit(false))
            && (e == SwitchFinish(true) ==> l3.elv.sched == Scheduler([], [], 0, []))
            && (e != SwitchFinish(true) ==> l3.elv.sched == DrainedScheduler(l1, mid))
  {
    InitLayer(nr, sortDispatch);
    RunKeepsLayer(Init(nr, sortDispatch), pre);
    SwitchFrom(After(Init(nr, sortDispatch), pre), mid, e);
  }

  lemma SwitchFrom(l: Layer, mid: seq<Event>, e: Event)
    requires LayerInv(l) && l.sw.Idle? && Ongoing(Step(l, SwitchStart), mid) && Runs(Step(l, SwitchStart), mid)
    requires Enabled(After(Step(l, SwitchStart), mid), e) && Step(After(Step(l, SwitchStart), mid), e).sw.Idle?
    ensures var l1 := Step(l, SwitchStart);
            var l2 := After(l1, mid);
            var l3 := Step(l2, e);
            && l1.bypass && l1.depth == l.depth + 1 && l3.depth == l2.depth - 1
            && (e == SwitchFinish(true) || e == SwitchFinish(false) || e == SwitchInit(false))
            && (e == SwitchFinish(true) ==> l3.elv.sched == Scheduler([], [], 0, []))
            && (e != SwitchFinish(true) ==> l3.elv.sched == DrainedScheduler(l1, mid))
  {
    var l1 := Step(l, SwitchStart);
    StepKeepsLayer(l, SwitchStart);
    SwitchSoFar(l1, mid);
    OngoingRuns(l1, mid);
    OnlyTurnsEnd(After(l1, mid), e);
    TurnEffect(After(l1, mid), e);
  }
}
