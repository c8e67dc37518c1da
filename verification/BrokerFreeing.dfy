/**
 From every reachable state the attach lock can be given up again: if clients give back their
 permits, whoever holds it gets to its end. Nothing is registered and nothing new begins on the way.
 */
module BrokerFreeing {
  import opened Basics
  import opened BindingRecords
  import opened BrokerModel
  import opened BrokerInvariant
  import opened BrokerTheorems
  import opened BrokerProgress

  // ---------------------------------------------------------------------------
  // Going on
  // ---------------------------------------------------------------------------

  /** Neither a registration nor a new attach. */
  predicate Tame(a: Action) {
    !a.Register? && !(a.Attach? && a.attach.BeginAttach?)
  }

  /** A call that has nothing left to do under the attach lock. */
  predicate Waits(pc: Pc) {
    pc.Controlling? || (pc.Closing? && pc.phase.Leaving?)
  }

  /** The same components are registered, no more admissions are out, and waiting calls still wait. */
  ghost predicate Mild(s: State, s': State) {
    && s'.shared.activationIds == s.shared.activationIds && |s'.admissions| <= |s.admissions|
    && forall t :: t in s.tasks && Waits(s.tasks[t]) ==> t in s'.tasks && s'.tasks[t] == s.tasks[t]
  }

  ghost predicate TameFrom(run: seq<Action>, n: nat) {
    forall i :: n <= i < |run| ==> Tame(run[i])
  }

  /** `run'` continues `run` mildly. */
  ghost predicate Onward(run: seq<Action>, run': seq<Action>) {
    run <= run' && Feasible(run') && TameFrom(run', |run|) && Mild(Reached(run), Reached(run'))
  }

  ghost predicate Going(run: seq<Action>) {
    Feasible(run) && |Reached(run).admissions| < U64_MAX
  }

  lemma Stays(run: seq<Action>)
    requires Going(run)
    ensures Onward(run, run)
  {
  }

  lemma Further(run: seq<Action>, run1: seq<Action>, run2: seq<Action>)
    requires Going(run) && Onward(run, run1) && Onward(run1, run2)
    ensures Onward(run, run2) && Going(run2)
  {
    forall i | |run| <= i < |run2| ensures Tame(run2[i]) {
      assert i < |run1| ==> run2[i] == run1[i];
    }
  }

  lemma Go(run: seq<Action>, a: Action, s': State) returns (run': seq<Action>)
    requires Going(run) && Enabled(Reached(run), a) && Tame(a) && Apply(Reached(run), a) == s' && Mild(Reached(run), s')
    ensures Onward(run, run') && Going(run') && Reached(run') == s'
  {
    run' := run + [a];
    assert run'[..|run|] == run;
  }

  // ---------------------------------------------------------------------------
  // Clients give back what they hold
  // ---------------------------------------------------------------------------

  /** Calls that close or control are where they were. */
  ghost predicate ClosersSame(s: State, s': State) {
    && s'.attachHolder == s.attachHolder
    && forall t :: t in s.tasks && (s.tasks[t].Closing? || s.tasks[t].Controlling?) ==> t in s'.tasks && s'.tasks[t] == s.tasks[t]
  }

  /** `u` is free, or at work on recording this admission. */
  predicate MayGiveBack(s: State, u: TaskId, adm: AdmissionId) {
    && adm in s.admissions && s.admissions[adm].handle in s.shared.gates
    && if s.admissions[adm].owner.None? then u !in s.tasks else u in s.tasks && s.tasks[u] == Recording(adm)
  }

  lemma Releases(run: seq<Action>, u: TaskId, adm: AdmissionId) returns (run': seq<Action>)
    requires Going(run) && MayGiveBack(Reached(run), u, adm)
    ensures Onward(run, run') && Going(run') && Reached(run') == DoRelease(Reached(run), u, adm)
  {
    var s := Reached(run);
    var a := Permit(u, if s.admissions[adm].owner.None? then DropPermit(adm) else Rollback);
    run' := Go(run, a, DoRelease(s, u, adm));
  }

  lemma Notifies(run: seq<Action>, u: TaskId, h: Handle) returns (run': seq<Action>)
    requires Going(run) && u in Reached(run).tasks && Reached(run).tasks[u] == Notifying(h) && h in Reached(run).shared.gates
    ensures Onward(run, run') && Going(run') && Reached(run') == DoNotify(Reached(run), u, h)
  {
    run' := Go(run, Permit(u, NotifyWaiters), DoNotify(Reached(run), u, h));
  }

  lemma Giver(s: State, adm: AdmissionId) returns (u: TaskId)
    requires StoreInv(s) && AdmissionInv(s) && OwnerInv(s) && adm in s.admissions
    ensures MayGiveBack(s, u, adm)
  {
    assert Genuine(s, s.admissions[adm]);
    if s.admissions[adm].owner.None? {
      u := UnusedHandle(s.tasks.Keys);
    } else {
      u := s.admissions[adm].owner.value;
    }
  }

  lemma GiverOf(run: seq<Action>, adm: AdmissionId) returns (u: TaskId)
    requires Feasible(run) && adm in Reached(run).admissions
    ensures MayGiveBack(Reached(run), u, adm)
  {
    RunKeeps(run);
    u := Giver(Reached(run), adm);
  }

  lemma GivesBack(run: seq<Action>, adm: AdmissionId) returns (run': seq<Action>)
    requires Going(run) && adm in Reached(run).admissions
    ensures Onward(run, run') && Going(run') && ClosersSame(Reached(run), Reached(run'))
    ensures Reached(run').admissions == Reached(run).admissions - {adm}
  {
    var u := GiverOf(run, adm);
    var run1 := Releases(run, u, adm);
    run' := Notifies(run1, u, Reached(run).admissions[adm].handle);
    Further(run, run1, run');
  }

  /** The generation is left by everybody. */
  lemma {:induction false} Empties(run: seq<Action>, h: Handle) returns (run': seq<Action>)
    requires Going(run)
    ensures Onward(run, run') && Going(run') && ClosersSame(Reached(run), Reached(run'))
    ensures Holding(Reached(run').admissions, h) == {}
    decreases |Holding(Reached(run).admissions, h)|
  {
    var held := Holding(Reached(run).admissions, h);
    if held == {} {
      Stays(run);
      run' := run;
    } else {
      var adm :| adm in held;
      var run1 := GivesBack(run, adm);
      assert Holding(Reached(run1).admissions, h) == held - {adm};
      run' := Empties(run1, h);
      Further(run, run1, run');
    }
  }

  // ---------------------------------------------------------------------------
  // A closer sees its queue settle
  // ---------------------------------------------------------------------------

  /** The first of the queue is left by everybody; the closer is at this point of waiting for it. */
  predicate Empty(s: State, t: TaskId, w: Wait) {
    InDrain(s, t) && s.tasks[t].phase.wait == w && s.shared.gates[s.tasks[t].phase.queue[0].handle].inFlight == 0
  }

  /** The state with the closer at another point of its wait. */
  function AtWait(s: State, t: TaskId, w: Wait): State
    requires InClose(s, t) && s.tasks[t].phase.Drain?
  {
    SetPhase(s, t, s.tasks[t].phase.(wait := w))
  }

  /** The closer `t` got on, and still holds the lock; calls that waited still wait. */
  ghost predicate CloserAt(run: seq<Action>, run': seq<Action>, t: TaskId, p: ClosePhase)
  {
    var s, s' := Reached(run), Reached(run');
    && Onward(run, run') && Going(run') && s'.attachHolder == s.attachHolder
    && InClose(s, t) && InClose(s', t) && s'.tasks[t] == s.tasks[t].(phase := p)
  }

  lemma Checks(run: seq<Action>, t: TaskId, e: nat) returns (run': seq<Action>)
    requires Going(run) && Empty(Reached(run), t, Armed(e))
    ensures CloserAt(run, run', t, Reached(run).tasks[t].phase.(wait := Settled))
  {
    var s := Reached(run);
    run' := Go(run, Close(t, CheckSettled), AtWait(s, t, Settled));
  }

  lemma Arms(run: seq<Action>, t: TaskId) returns (run': seq<Action>)
    requires Going(run) && Empty(Reached(run), t, Unarmed)
    ensures CloserAt(run, run', t, Reached(run).tasks[t].phase.(wait := Settled))
  {
    var s := Reached(run);
    var e := s.shared.gates[s.tasks[t].phase.queue[0].handle].epoch;
    var run1 := Go(run, Close(t, Arm), AtWait(s, t, Armed(e)));
    run' := Checks(run1, t, e);
    Further(run, run1, run');
  }

  lemma Wakes(run: seq<Action>, t: TaskId, e: nat) returns (run': seq<Action>)
    requires Going(run) && Empty(Reached(run), t, Asleep(e))
    requires Reached(run).shared.gates[Reached(run).tasks[t].phase.queue[0].handle].epoch != e
    ensures CloserAt(run, run', t, Reached(run).tasks[t].phase.(wait := Settled))
  {
    var s := Reached(run);
    var run1 := Go(run, Close(t, Wake), AtWait(s, t, Unarmed));
    run' := Arms(run1, t);
    Further(run, run1, run');
  }

  /** A sleeper that was not woken, though nobody is left, has its notification coming. */
  lemma Rouser(run: seq<Action>, t: TaskId, e: nat) returns (n: TaskId)
    requires Feasible(run) && Empty(Reached(run), t, Asleep(e))
    requires Reached(run).shared.gates[Reached(run).tasks[t].phase.queue[0].handle].epoch == e
    ensures n in Reached(run).tasks && Reached(run).tasks[n] == Notifying(Reached(run).tasks[t].phase.queue[0].handle)
  {
    RunKeeps(run);
    var s := Reached(run);
    assert Awaited(s, s.tasks[t]);
    n :| n in s.tasks && s.tasks[n] == Notifying(s.tasks[t].phase.queue[0].handle);
  }

  lemma Rouses(run: seq<Action>, t: TaskId, e: nat) returns (run': seq<Action>)
    requires Going(run) && Empty(Reached(run), t, Asleep(e))
    ensures CloserAt(run, run', t, Reached(run).tasks[t].phase.(wait := Settled))
  {
    var s := Reached(run);
    var h := s.tasks[t].phase.queue[0].handle;
    if s.shared.gates[h].epoch == e {
      var n := Rouser(run, t, e);
      var run1 := Notifies(run, n, h);
      run' := Wakes(run1, t, e);
      Further(run, run1, run');
    } else {
      run' := Wakes(run, t, e);
    }
  }

  lemma Settles(run: seq<Action>, t: TaskId) returns (run': seq<Action>)
    requires Going(run) && InDrain(Reached(run), t)
    requires Reached(run).shared.gates[Reached(run).tasks[t].phase.queue[0].handle].inFlight == 0
    ensures CloserAt(run, run', t, Reached(run).tasks[t].phase.(wait := Settled))
  {
    match Reached(run).tasks[t].phase.wait {
      case Unarmed => run' := Arms(run, t);
      case Armed(e) => run' := Checks(run, t, e);
      case Asleep(e) => run' := Rouses(run, t, e);
      case Settled =>
        Stays(run);
        run' := run;
    }
  }

  lemma Detaches(run: seq<Action>, t: TaskId) returns (run': seq<Action>)
    requires Going(run) && InDrain(Reached(run), t) && Reached(run).tasks[t].phase.wait.Settled?
    ensures var p := Reached(run).tasks[t].phase; CloserAt(run, run', t, Drain(p.queue[1..], p.failed, Unarmed))
  {
    run' := Go(run, Close(t, Detached(true)), DoDetached(Reached(run), t, true));
  }

  lemma HeadHasGate(run: seq<Action>, t: TaskId)
    requires Feasible(run) && InClose(Reached(run), t) && Reached(run).tasks[t].phase.Drain? && Reached(run).tasks[t].phase.queue != []
    ensures InDrain(Reached(run), t)
  {
    RunKeeps(run);
    assert TaskOk(Reached(run), t, Reached(run).tasks[t]);
  }

  lemma EmptyCount(run: seq<Action>, h: Handle)
    requires Feasible(run) && h in Reached(run).shared.gates && Holding(Reached(run).admissions, h) == {}
    ensures Reached(run).shared.gates[h].inFlight == 0
  {
    RunKeeps(run);
  }

  /** One generation of the queue is done with. */
  lemma DrainsOne(run: seq<Action>, t: TaskId) returns (run': seq<Action>)
    requires Going(run) && InClose(Reached(run), t)
    requires var p := Reached(run).tasks[t].phase; p.Drain? && p.queue != []
    ensures var p := Reached(run).tasks[t].phase; CloserAt(run, run', t, Drain(p.queue[1..], p.failed, Unarmed))
  {
    var h := Reached(run).tasks[t].phase.queue[0].handle;
    var run1 := Empties(run, h);
    HeadHasGate(run1, t);
    EmptyCount(run1, h);
    var run2 := Settles(run1, t);
    HeadHasGate(run2, t);
    run' := Detaches(run2, t);
    Further(run, run1, run2);
    Further(run, run2, run');
  }

  lemma {:induction false} Drains(run: seq<Action>, t: TaskId) returns (run': seq<Action>, failed: bool, w: Wait)
    requires Going(run) && InClose(Reached(run), t) && Reached(run).tasks[t].phase.Drain?
    ensures CloserAt(run, run', t, Drain([], failed, w))
    decreases |Reached(run).tasks[t].phase.queue|
  {
    var p := Reached(run).tasks[t].phase;
    if p.queue == [] {
      Stays(run);
      run', failed, w := run, p.failed, p.wait;
    } else {
      var run1 := DrainsOne(run, t);
      run', failed, w := Drains(run1, t);
      Further(run, run1, run');
    }
  }

  // ---------------------------------------------------------------------------
  // Closers and attaches come to the end of the lock
  // ---------------------------------------------------------------------------

  ghost predicate Freed(run: seq<Action>, run': seq<Action>) {
    Onward(run, run') && Going(run') && Reached(run').attachHolder.None?
  }

  lemma FreedFurther(run: seq<Action>, run1: seq<Action>, run': seq<Action>)
    requires Going(run) && Onward(run, run1) && Freed(run1, run')
    ensures Freed(run, run')
  {
    Further(run, run1, run');
  }

  lemma ChecksPending(run: seq<Action>, t: TaskId) returns (run': seq<Action>)
    requires Going(run) && InBarrier(Reached(run), t, PendingCheck)
    ensures Freed(run, run')
  {
    run' := Go(run, Await(t, CheckPending), DoCheckPending(Reached(run), t));
  }

  lemma ChecksLive(run: seq<Action>, t: TaskId) returns (run': seq<Action>)
    requires Going(run) && InBarrier(Reached(run), t, LiveCheck)
    ensures Freed(run, run')
  {
    var run1 := Go(run, Await(t, CheckLive), DoCheckLive(Reached(run), t));
    if Reached(run1).attachHolder.None? {
      run' := run1;
    } else {
      run' := ChecksPending(run1, t);
      FreedFurther(run, run1, run');
    }
  }

  lemma Retries(run: seq<Action>, t: TaskId) returns (run': seq<Action>)
    requires Going(run) && InBarrier(Reached(run), t, PendingRetry)
    ensures Freed(run, run')
  {
    var run1 := Go(run, Await(t, RetryPending(false)), DoRetryPending(Reached(run), t, false));
    run' := ChecksLive(run1, t);
    FreedFurther(run, run1, run');
  }

  lemma Reads(run: seq<Action>, t: TaskId) returns (run': seq<Action>)
    requires Going(run) && InBarrier(Reached(run), t, PendingRead)
    ensures Freed(run, run')
  {
    var run1 := Go(run, Await(t, ReadPending), DoReadPending(Reached(run), t));
    if InBarrier(Reached(run1), t, PendingRetry) {
      run' := Retries(run1, t);
    } else {
      run' := ChecksLive(run1, t);
    }
    FreedFurther(run, run1, run');
  }

  lemma BarrierFrees(run: seq<Action>, t: TaskId) returns (run': seq<Action>)
    requires Going(run) && InClose(Reached(run), t) && Reached(run).tasks[t].phase.Barrier? && Reached(run).tasks[t].goal.ByBinding?
    ensures Freed(run, run')
  {
    match Reached(run).tasks[t].phase.check {
      case PendingRead => run' := Reads(run, t);
      case PendingRetry => run' := Retries(run, t);
      case LiveCheck => run' := ChecksLive(run, t);
      case PendingCheck => run' := ChecksPending(run, t);
    }
  }

  lemma DrainFrees(run: seq<Action>, t: TaskId) returns (run': seq<Action>)
    requires Going(run) && InClose(Reached(run), t) && Reached(run).tasks[t].phase.Drain?
    ensures Freed(run, run')
  {
    var run1, failed, w := Drains(run, t);
    var run2 := Go(run1, Close(t, Finish), DoFinish(Reached(run1), t));
    Further(run, run1, run2);
    if Reached(run2).tasks[t].phase.Barrier? {
      run' := BarrierFrees(run2, t);
      FreedFurther(run, run2, run');
    } else {
      run' := run2;
    }
  }

  lemma QueueOf(run: seq<Action>, goal: Goal) returns (queue: seq<Generation>)
    requires Feasible(run)
    ensures IsClosedQueue(Reached(run).shared, goal, queue)
  {
    RunKeeps(run);
    queue := ListClosed(Reached(run).shared, MatchingHandles(Reached(run).shared, goal));
  }

  lemma ReadyFrees(run: seq<Action>, t: TaskId) returns (run': seq<Action>)
    requires Going(run) && InClose(Reached(run), t) && Reached(run).tasks[t].phase.Ready?
    ensures Freed(run, run')
  {
    var s := Reached(run);
    var queue := QueueOf(run, s.tasks[t].goal);
    var run1 := Go(run, Close(t, Remove(queue)), DoRemove(s, t, queue));
    run' := DrainFrees(run1, t);
    FreedFurther(run, run1, run');
  }

  lemma BarrierGoal(run: seq<Action>, t: TaskId)
    requires Feasible(run) && InClose(Reached(run), t) && Reached(run).tasks[t].phase.Barrier?
    ensures Reached(run).tasks[t].goal.ByBinding?
  {
    RunKeeps(run);
    assert TaskOk(Reached(run), t, Reached(run).tasks[t]);
  }

  lemma CloserFrees(run: seq<Action>, t: TaskId) returns (run': seq<Action>)
    requires Going(run) && InClose(Reached(run), t) && HoldsAttach(Reached(run).tasks[t])
    ensures Freed(run, run')
  {
    match Reached(run).tasks[t].phase {
      case Ready => run' := ReadyFrees(run, t);
      case Drain(_, _, _) => run' := DrainFrees(run, t);
      case Barrier(_) =>
        BarrierGoal(run, t);
        run' := BarrierFrees(run, t);
    }
  }

  lemma FinishFrees(run: seq<Action>, t: TaskId) returns (run': seq<Action>)
    requires Going(run) && InAttach(Reached(run), t) && Reached(run).tasks[t].attach.Announcing?
    ensures Freed(run, run')
  {
    run' := Go(run, Attach(t, FinishAttach), UnlockAttach(Leave(Reached(run), t)));
  }

  lemma Fresh(run: seq<Action>) returns (h: Handle)
    requires Feasible(run)
    ensures h !in Reached(run).shared.issued && Reached(run).shared.nextGeneration <= U64_MAX
  {
    RunKeeps(run);
    h := UnusedHandle(Reached(run).shared.issued);
  }

  lemma MintingFrees(run: seq<Action>, t: TaskId) returns (run': seq<Action>)
    requires Going(run) && InAttach(Reached(run), t) && Reached(run).tasks[t].attach.Minting?
    ensures Freed(run, run')
  {
    var h := Fresh(run);
    var run1 := Go(run, Attach(t, Insert(h)), DoInsert(Reached(run), t, h));
    run' := FinishFrees(run1, t);
    FreedFurther(run, run1, run');
  }

  lemma AbortFrees(run: seq<Action>, t: TaskId) returns (run': seq<Action>)
    requires Going(run) && InAttach(Reached(run), t) && Reached(run).tasks[t].attach.Checked?
    ensures Freed(run, run')
  {
    run' := Go(run, Attach(t, AbortAttach), UnlockAttach(Leave(Reached(run), t)));
  }

  lemma LockedFrees(run: seq<Action>, t: TaskId) returns (run': seq<Action>)
    requires Going(run) && InAttach(Reached(run), t) && Reached(run).tasks[t].attach.Locked?
    ensures Freed(run, run')
  {
    var run1 := Go(run, Attach(t, CheckActivation), DoCheckActivation(Reached(run), t));
    if t in Reached(run1).tasks {
      run' := AbortFrees(run1, t);
      FreedFurther(run, run1, run');
    } else {
      run' := run1;
    }
  }

  lemma AttachFrees(run: seq<Action>, t: TaskId) returns (run': seq<Action>)
    requires Going(run) && InAttach(Reached(run), t) && HoldsAttach(Reached(run).tasks[t])
    ensures Freed(run, run')
  {
    match Reached(run).tasks[t].attach {
      case Locked => run' := LockedFrees(run, t);
      case Checked => run' := AbortFrees(run, t);
      case Minting => run' := MintingFrees(run, t);
      case Announcing(_) => run' := FinishFrees(run, t);
    }
  }

  lemma Holder(run: seq<Action>)
    requires Feasible(run) && Reached(run).attachHolder.Some?
    ensures var s, t := Reached(run), Reached(run).attachHolder.value;
            t in s.tasks && HoldsAttach(s.tasks[t])
  {
    RunKeeps(run);
  }

  /** Whatever has happened, the run can go on to a state in which nobody holds the attach lock. */
  lemma AttachLockCanBeFreed(run: seq<Action>) returns (run': seq<Action>)
    requires Going(run)
    ensures Freed(run, run')
  {
    var s := Reached(run);
    if s.attachHolder.None? {
      Stays(run);
      run' := run;
    } else {
      Holder(run);
      var t := s.attachHolder.value;
      if s.tasks[t].Closing? {
        run' := CloserFrees(run, t);
      } else {
        run' := AttachFrees(run, t);
      }
    }
  }
}
