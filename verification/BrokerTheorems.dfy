/** What holds of the broker in every run, whatever the interleaving. */
module BrokerTheorems {
  import opened Basics
  import opened BindingRecords
  import opened BrokerModel
  import opened BrokerInvariant
  import opened BrokerSteps

  // ---------------------------------------------------------------------------
  // The invariant holds in every reachable state
  // ---------------------------------------------------------------------------

  lemma AttachKeeps(s: State, t: TaskId, a: AttachAction)
    requires Inv(s) && AttachEnabled(s, t, a)
    ensures Inv(AttachApply(s, t, a))
  {
    if a.Insert? {
      InsertKeeps(s, t, a.minted);
    } else {
      AttachMoves(s, t, a);
      if a.FindExisting? { FindExistingArrives(s, t); } else { AttachArrives(s, t, a); }
      BystanderDrains(s, AttachApply(s, t, a), t);
      MoveKeeps(s, AttachApply(s, t, a), t);
    }
  }

  lemma PermitMoveKeeps(s: State, t: TaskId, a: PermitAction)
    requires Inv(s) && PermitEnabled(s, t, a) && (a.Lookup? || a.Reject? || a.Break?)
    ensures Inv(PermitApply(s, t, a))
  {
    PermitMoves(s, t, a);
    PermitArrives(s, t, a);
    BystanderDrains(s, PermitApply(s, t, a), t);
    MoveKeeps(s, PermitApply(s, t, a), t);
  }

  lemma RollbackReady(s: State, t: TaskId)
    requires PermitEnabled(s, t, Rollback)
    ensures CanRelease(s, t, s.tasks[t].admission) && PermitApply(s, t, Rollback) == DoRelease(s, t, s.tasks[t].admission)
  {
  }

  lemma RollbackKeeps(s: State, t: TaskId)
    requires Inv(s) && PermitEnabled(s, t, Rollback)
    ensures Inv(PermitApply(s, t, Rollback))
  {
    RollbackReady(s, t);
    ReleaseKeeps(s, t, s.tasks[t].admission);
  }

  lemma DropReady(s: State, t: TaskId, adm: AdmissionId)
    requires PermitEnabled(s, t, DropPermit(adm))
    ensures CanRelease(s, t, adm) && PermitApply(s, t, DropPermit(adm)) == DoRelease(s, t, adm)
  {
  }

  lemma DropKeeps(s: State, t: TaskId, adm: AdmissionId)
    requires Inv(s) && PermitEnabled(s, t, DropPermit(adm))
    ensures Inv(PermitApply(s, t, DropPermit(adm)))
  {
    DropReady(s, t, adm);
    ReleaseKeeps(s, t, adm);
  }

  lemma GrantReady(s: State, t: TaskId)
    requires PermitEnabled(s, t, Grant)
    ensures IsRecording(s, t, s.tasks[t].admission) && PermitApply(s, t, Grant) == DoGrant(s, t, s.tasks[t].admission)
  {
  }

  lemma GrantPermitKeeps(s: State, t: TaskId)
    requires Inv(s) && PermitEnabled(s, t, Grant)
    ensures Inv(PermitApply(s, t, Grant))
  {
    GrantReady(s, t);
    GrantKeeps(s, t, s.tasks[t].admission);
  }

  lemma AdmitReady(s: State, t: TaskId, adm: AdmissionId)
    requires PermitEnabled(s, t, AdmitCall(adm)) && |s.admissions| < U64_MAX
    ensures CanAdmit(s, t, adm) && PermitApply(s, t, AdmitCall(adm)) == DoAdmit(s, t, adm)
  {
  }

  lemma AdmitCallKeeps(s: State, t: TaskId, adm: AdmissionId)
    requires Inv(s) && PermitEnabled(s, t, AdmitCall(adm)) && |s.admissions| < U64_MAX
    ensures Inv(PermitApply(s, t, AdmitCall(adm)))
  {
    AdmitReady(s, t, adm);
    AdmitKeeps(s, t, adm);
  }

  lemma AdmissionKeeps(s: State, t: TaskId, a: PermitAction)
    requires Inv(s) && PermitEnabled(s, t, a) && |s.admissions| < U64_MAX && (a.AdmitCall? || a.Grant?)
    ensures Inv(PermitApply(s, t, a))
  {
    if a.Grant? { GrantPermitKeeps(s, t); } else { AdmitCallKeeps(s, t, a.admission); }
  }

  lemma GivingBackKeeps(s: State, t: TaskId, a: PermitAction)
    requires Inv(s) && PermitEnabled(s, t, a) && (a.Rollback? || a.DropPermit?)
    ensures Inv(PermitApply(s, t, a))
  {
    if a.Rollback? { RollbackKeeps(s, t); } else { DropKeeps(s, t, a.admission); }
  }

  lemma PermitKeeps(s: State, t: TaskId, a: PermitAction)
    requires Inv(s) && PermitEnabled(s, t, a) && |s.admissions| < U64_MAX
    ensures Inv(PermitApply(s, t, a))
  {
    if a.AdmitCall? || a.Grant? {
      AdmissionKeeps(s, t, a);
    } else if a.Rollback? || a.DropPermit? {
      GivingBackKeeps(s, t, a);
    } else if a.NotifyWaiters? {
      NotifyKeeps(s, t, s.tasks[t].gate);
    } else {
      PermitMoveKeeps(s, t, a);
    }
  }

  lemma CloseKeeps(s: State, t: TaskId, a: CloseAction)
    requires Inv(s) && CloseEnabled(s, t, a)
    ensures Inv(CloseApply(s, t, a))
  {
    if a.Remove? {
      RemoveKeeps(s, t, a.queue);
    } else {
      CloseMoves(s, t, a);
      if a.CheckSettled? { CheckSettledDrains(s, t); } else { CloseDrains(s, t, a); }
      if a.Arm? || a.CheckSettled? { WaitArrives(s, t, a); } else { CloseArrives(s, t, a); }
      MoveKeeps(s, CloseApply(s, t, a), t);
    }
  }

  lemma BarrierKeeps(s: State, t: TaskId, a: BarrierAction)
    requires Inv(s) && BarrierEnabled(s, t, a)
    ensures Inv(BarrierApply(s, t, a))
  {
    if a.Exit? { ExitMoves(s, t); } else { BarrierMoves(s, t, a); }
    BarrierDrains(s, t, a);
    BarrierArrives(s, t, a);
    MoveKeeps(s, BarrierApply(s, t, a), t);
  }

  lemma StopKeeps(s: State, t: TaskId, a: StopAction)
    requires Inv(s) && StopEnabled(s, t, a)
    ensures Inv(StopApply(s, t, a))
  {
    StopMoves(s, t, a);
    StopArrives(s, t, a);
    BystanderDrains(s, StopApply(s, t, a), t);
    MoveKeeps(s, StopApply(s, t, a), t);
  }

  /** An action of no task changes only activation identities and what is still to be reported. */
  predicate IsBackground(a: Action) {
    a.Register? || a.RetryDetached? || a.RetryStopped?
  }

  /** Nothing the invariant speaks of changed. */
  ghost predicate Unchanged(s: State, s': State) {
    SameStore(s, s') && s'.tasks == s.tasks && s'.attachHolder == s.attachHolder && s'.closeHolder == s.closeHolder
  }

  lemma TasksUnchanged(s: State, s': State)
    requires Unchanged(s, s') && TaskInv(s)
    ensures TaskInv(s')
  {
    forall u | u in s'.tasks ensures TaskOk(s', u, s'.tasks[u]) {
      TaskSame(s, s', u, s.tasks[u]);
    }
  }

  lemma WakingUnchanged(s: State, s': State)
    requires Unchanged(s, s') && WakeInv(s)
    ensures WakeInv(s')
  {
    forall u | u in s'.tasks && IsAsleep(s'.tasks[u]) ensures Awaited(s', s'.tasks[u]) {
      assert Awaited(s, s.tasks[u]);
    }
  }

  lemma PartsUnchanged(s: State, s': State)
    requires Unchanged(s, s') && LockInv(s) && PinInv(s) && OwnerInv(s) && SettleInv(s)
    ensures LockInv(s') && PinInv(s') && OwnerInv(s') && SettleInv(s')
  {
  }

  lemma UnchangedKeeps(s: State, s': State)
    requires Inv(s) && Unchanged(s, s')
    ensures Inv(s')
  {
    StoreMoved(s, s');
    TasksUnchanged(s, s');
    WakingUnchanged(s, s');
    PartsUnchanged(s, s');
  }

  lemma BackgroundSame(s: State, a: Action)
    requires IsBackground(a) && Enabled(s, a)
    ensures Unchanged(s, Apply(s, a))
  {
  }

  lemma BackgroundKeeps(s: State, a: Action)
    requires Inv(s) && IsBackground(a) && Enabled(s, a)
    ensures Inv(Apply(s, a))
  {
    BackgroundSame(s, a);
    UnchangedKeeps(s, Apply(s, a));
  }

  lemma StepKeeps(s: State, a: Action)
    requires Inv(s) && Enabled(s, a) && |s.admissions| < U64_MAX
    ensures Inv(Apply(s, a))
  {
    match a
    case Attach(t, x) => AttachKeeps(s, t, x);
    case Permit(t, x) => PermitKeeps(s, t, x);
    case Close(t, x) => CloseKeeps(s, t, x);
    case Await(t, x) => BarrierKeeps(s, t, x);
    case Stop(t, x) => StopKeeps(s, t, x);
    case _ => BackgroundKeeps(s, a);
  }

  lemma {:induction false} RunKeeps(run: seq<Action>)
    requires Feasible(run)
    ensures Inv(Reached(run))
    decreases |run|
  {
    if run != [] {
      RunKeeps(run[..|run| - 1]);
      StepKeeps(Reached(run[..|run| - 1]), run[|run| - 1]);
    }
  }

  lemma AttachRegistersNothing(s: State, t: TaskId, a: AttachAction)
    requires AttachEnabled(s, t, a)
    ensures AttachApply(s, t, a).shared.activationIds == s.shared.activationIds
  {
  }

  lemma PermitRegistersNothing(s: State, t: TaskId, a: PermitAction)
    requires PermitEnabled(s, t, a)
    ensures PermitApply(s, t, a).shared.activationIds == s.shared.activationIds
  {
  }

  lemma CloseRegistersNothing(s: State, t: TaskId, a: CloseAction)
    requires CloseEnabled(s, t, a)
    ensures CloseApply(s, t, a).shared.activationIds == s.shared.activationIds
  {
  }

  lemma AwaitRegistersNothing(s: State, t: TaskId, a: BarrierAction)
    requires BarrierEnabled(s, t, a)
    ensures BarrierApply(s, t, a).shared.activationIds == s.shared.activationIds
  {
  }

  lemma StopRegistersNothing(s: State, t: TaskId, a: StopAction)
    requires StopEnabled(s, t, a) && KeyInv(s)
    ensures KeyInv(StopApply(s, t, a))
  {
  }

  lemma StepKeepsKeys(s: State, a: Action)
    requires Enabled(s, a) && KeyInv(s)
    ensures KeyInv(Apply(s, a))
  {
    match a
    case Attach(t, x) => AttachRegistersNothing(s, t, x);
    case Permit(t, x) => PermitRegistersNothing(s, t, x);
    case Close(t, x) => CloseRegistersNothing(s, t, x);
    case Await(t, x) => AwaitRegistersNothing(s, t, x);
    case Stop(t, x) => StopRegistersNothing(s, t, x);
    case _ =>
  }

  lemma {:induction false} RunKeepsKeys(run: seq<Action>)
    requires Feasible(run)
    ensures KeyInv(Reached(run))
    decreases |run|
  {
    if run != [] {
      RunKeepsKeys(run[..|run| - 1]);
      StepKeepsKeys(Reached(run[..|run| - 1]), run[|run| - 1]);
    }
  }

  lemma Extend(run: seq<Action>, a: Action)
    requires Feasible(run + [a])
    ensures Feasible(run) && Enabled(Reached(run), a) && Reached(run + [a]) == Apply(Reached(run), a)
    ensures |Reached(run).admissions| < U64_MAX
  {
    assert (run + [a])[..|run|] == run;
  }

  // ---------------------------------------------------------------------------
  // Closing is a barrier
  // ---------------------------------------------------------------------------

  /** No admission, of any generation ever created that the goal selects, is outstanding. */
  ghost predicate NoOutstanding(s: State, goal: Goal) {
    forall a :: a in s.admissions ==>
      s.admissions[a].handle in s.history && !Matches(goal, s.history[s.admissions[a].handle])
  }

  /** The task has seen every generation it removed settle. */
  predicate Drained(s: State, t: TaskId) {
    InClose(s, t) && ((s.tasks[t].phase.Drain? && s.tasks[t].phase.queue == []) || s.tasks[t].phase.Barrier?)
  }

  lemma InvDrained(s: State, t: TaskId)
    requires LockInv(s) && StoreInv(s) && AdmissionInv(s) && SettleInv(s) && TaskInv(s) && Drained(s, t)
    ensures NoneLive(s.shared, s.tasks[t].goal) && NoOutstanding(s, s.tasks[t].goal)
  {
    assert TaskOk(s, t, s.tasks[t]);
    forall a | a in s.admissions
      ensures s.admissions[a].handle in s.history
      ensures !Matches(s.tasks[t].goal, s.history[s.admissions[a].handle])
    {
      assert Genuine(s, s.admissions[a]);
    }
  }

  /** Every kind of close ends with nothing it selects live and no admission of it outstanding. */
  lemma CloseDrained(run: seq<Action>, t: TaskId)
    requires Feasible(run) && Drained(Reached(run), t)
    ensures NoneLive(Reached(run).shared, Reached(run).tasks[t].goal)
    ensures NoOutstanding(Reached(run), Reached(run).tasks[t].goal)
  {
    RunKeeps(run);
    InvDrained(Reached(run), t);
  }

  /** When `close_binding_barrier` decides for Ok, the binding is gone in every respect. */
  lemma CloseBarrier(run: seq<Action>, t: TaskId, b: BindingId)
    requires Feasible(run + [Await(t, CheckPending)])
    requires InClose(Reached(run), t) && Reached(run).tasks[t].goal == ByBinding(b)
    requires var s := Reached(run + [Await(t, CheckPending)]); InClose(s, t) && s.tasks[t].phase == Leaving(true)
    ensures var s := Reached(run + [Await(t, CheckPending)]);
            NoneLive(s.shared, ByBinding(b)) && NoOutstanding(s, ByBinding(b)) && b !in s.shared.pending
  {
    Extend(run, Await(t, CheckPending));
    CloseDrained(run, t);
  }

  /** While nobody holds `close_serial`, every outstanding admission is of a live generation. */
  lemma SerialFree(run: seq<Action>, adm: AdmissionId)
    requires Feasible(run) && Reached(run).closeHolder == None && adm in Reached(run).admissions
    ensures Reached(run).admissions[adm].handle in Reached(run).shared.live
  {
    RunKeeps(run);
  }

  // ---------------------------------------------------------------------------
  // Admissions are conserved
  // ---------------------------------------------------------------------------

  /** A gate counts exactly its outstanding admissions, and admits exactly while it is live. */
  lemma AdmissionsConserved(run: seq<Action>, h: Handle)
    requires Feasible(run) && h in Reached(run).shared.issued
    ensures h in Reached(run).shared.gates
    ensures Reached(run).shared.gates[h].inFlight == |Holding(Reached(run).admissions, h)|
    ensures Reached(run).shared.gates[h].admissionOpen <==> h in Reached(run).shared.live
  {
    RunKeeps(run);
  }

  /** Giving back an admission decrements a positive count: the subtraction never sticks at zero. */
  lemma NeverSaturates(run: seq<Action>, t: TaskId, adm: AdmissionId)
    requires Feasible(run) && CanRelease(Reached(run), t, adm)
    ensures Reached(run).shared.gates[Reached(run).admissions[adm].handle].inFlight > 0
  {
    RunKeeps(run);
    ReleaseCounts(Reached(run), t, adm);
  }

  /** What one action may do to a generation that is no longer live. */
  ghost predicate StaysClosed(s: State, s': State, h: Handle)
    requires h in s.shared.gates
  {
    && h in s'.shared.issued && h !in s'.shared.live && h in s'.shared.gates
    && s'.shared.gates[h].inFlight <= s.shared.gates[h].inFlight
    && Holding(s'.admissions, h) <= Holding(s.admissions, h)
  }

  predicate IsClosed(s: State, h: Handle) {
    h in s.shared.issued && h in s.shared.gates && h !in s.shared.live
  }

  lemma PermitClosed(s: State, t: TaskId, a: PermitAction, h: Handle)
    requires PermitEnabled(s, t, a) && IsClosed(s, h)
    ensures StaysClosed(s, PermitApply(s, t, a), h)
  {
  }

  lemma CloseClosed(s: State, t: TaskId, a: CloseAction, h: Handle)
    requires CloseEnabled(s, t, a) && IsClosed(s, h)
    ensures StaysClosed(s, CloseApply(s, t, a), h)
  {
  }

  lemma AttachClosed(s: State, t: TaskId, a: AttachAction, h: Handle)
    requires AttachEnabled(s, t, a) && IsClosed(s, h)
    ensures StaysClosed(s, AttachApply(s, t, a), h)
  {
  }

  lemma StepClosed(s: State, a: Action, h: Handle)
    requires Enabled(s, a) && IsClosed(s, h)
    ensures StaysClosed(s, Apply(s, a), h)
  {
    match a
    case Attach(t, x) => AttachClosed(s, t, x, h);
    case Permit(t, x) => PermitClosed(s, t, x, h);
    case Close(t, x) => CloseClosed(s, t, x, h);
    case _ =>
  }

  /** Once removed, a generation is never live again, admits nobody, and its count only falls. */
  lemma {:induction false} ClosedForever(run: seq<Action>, more: seq<Action>, h: Handle)
    requires Feasible(run + more) && IsClosed(Reached(run), h)
    ensures StaysClosed(Reached(run), Reached(run + more), h)
    decreases |more|
  {
    if more == [] {
      assert run + more == run;
    } else {
      var init, last := more[..|more| - 1], more[|more| - 1];
      assert run + more == (run + init) + [last];
      Extend(run + init, last);
      ClosedForever(run, init, h);
      StepClosed(Reached(run + init), last, h);
    }
  }

  /**
   A permit may be handed out after its generation was removed, because the invocation is recorded
   between admission and return. It was then admitted before the removal, and the closer that
   removed the generation has not yet seen it settle.
   */
  lemma LateGrantIsAwaited(run: seq<Action>, t: TaskId)
    requires Feasible(run + [Permit(t, Grant)])
    requires t in Reached(run).tasks && Reached(run).tasks[t].Recording?
    requires Reached(run).tasks[t].admission in Reached(run).admissions
    requires Reached(run).admissions[Reached(run).tasks[t].admission].handle !in Reached(run).shared.live
    ensures Draining(Reached(run), Reached(run).admissions[Reached(run).tasks[t].admission].handle)
  {
    Extend(run, Permit(t, Grant));
    RunKeeps(run);
  }

  // ---------------------------------------------------------------------------
  // No wakeup is lost
  // ---------------------------------------------------------------------------

  lemma InvWake(s: State, t: TaskId)
    requires WakeInv(s) && AdmissionInv(s) && t in s.tasks && IsAsleep(s.tasks[t])
    ensures var h := s.tasks[t].phase.queue[0].handle;
            && h in s.shared.gates
            && (CloseEnabled(s, t, Wake) || s.shared.gates[h].inFlight > 0 || NotifyDue(s, h))
            && (s.shared.gates[h].inFlight > 0 <==> Holding(s.admissions, h) != {})
  {
    assert Awaited(s, s.tasks[t]);
  }

  /**
   A closer asleep on a gate that nobody has notified since it armed still has an admission to
   wait for, or a task that has decremented and is about to notify. So once a generation has
   settled and its notifications are out, the closer can go on.
   */
  lemma NoLostWakeup(run: seq<Action>, t: TaskId)
    requires Feasible(run) && t in Reached(run).tasks && IsAsleep(Reached(run).tasks[t])
    ensures var s := Reached(run);
            var h := s.tasks[t].phase.queue[0].handle;
            && h in s.shared.gates
            && (CloseEnabled(s, t, Wake) || s.shared.gates[h].inFlight > 0 || NotifyDue(s, h))
            && (s.shared.gates[h].inFlight > 0 <==> Holding(s.admissions, h) != {})
  {
    RunKeeps(run);
    InvWake(Reached(run), t);
  }

  // ---------------------------------------------------------------------------
  // The tables
  // ---------------------------------------------------------------------------

  /** At most one live generation per selection and activation, even when attaches race. */
  lemma OneLiveGeneration(run: seq<Action>, h: Handle, k: Handle)
    requires Feasible(run) && h in Reached(run).shared.live && k in Reached(run).shared.live
    requires SameBinding(Reached(run).shared.live[h], Reached(run).shared.live[k].selection,
                         Reached(run).shared.live[k].activation)
    ensures h == k
  {
    RunKeeps(run);
  }

  /** Every generation ever created keeps the pins it was created with. */
  lemma LiveIsPinned(run: seq<Action>, h: Handle)
    requires Feasible(run) && h in Reached(run).history
    ensures var g := Reached(run).history[h];
            && h in Reached(run).shared.issued && g.handle == h
            && ActivationMatches(g.activation, g.selection) && ProviderMatches(g.provider, g.selection)
            && (h in Reached(run).shared.live ==> Reached(run).shared.live[h] == g)
  {
    RunKeeps(run);
  }

  /** Generation numbers repeat only after the 64-bit counter is exhausted. */
  lemma NumbersUnique(run: seq<Action>, h: Handle, k: Handle)
    requires Feasible(run) && h in Reached(run).history && k in Reached(run).history && h != k
    requires |Reached(run).shared.issued| <= U64_MAX
    ensures Reached(run).history[h].generation != Reached(run).history[k].generation
  {
    RunKeeps(run);
  }

  lemma InvIncrease(s: State, t: TaskId, h: Handle, k: Handle)
    requires StoreInv(s) && NumberInv(s) && AttachEnabled(s, t, Insert(h))
    requires k in s.history && |s.shared.issued| < U64_MAX
    ensures var s' := AttachApply(s, t, Insert(h));
            h in s'.history && k in s'.history && s'.history[k].generation < s'.history[h].generation
  {
  }

  /** A new generation gets a number above all earlier ones, until the counter is exhausted. */
  lemma NumbersIncrease(run: seq<Action>, t: TaskId, h: Handle, k: Handle)
    requires Feasible(run + [Attach(t, Insert(h))])
    requires k in Reached(run).history && |Reached(run).shared.issued| < U64_MAX
    ensures var s := Reached(run + [Attach(t, Insert(h))]);
            h in s.history && k in s.history && s.history[k].generation < s.history[h].generation
  {
    Extend(run, Attach(t, Insert(h)));
    RunKeeps(run);
    InvIncrease(Reached(run), t, h, k);
  }

  /** A permit carries its generation's pinned provider and was asked for by its very activation. */
  lemma PermitsArePinned(run: seq<Action>, adm: AdmissionId)
    requires Feasible(run) && adm in Reached(run).admissions
    ensures var s, p := Reached(run), Reached(run).admissions[adm];
            && p.handle in s.history && p.handle in s.shared.issued
            && var g := s.history[p.handle];
               && p.bindingId == g.selection.bindingId && p.generation == g.generation
               && p.provider == g.provider && ProviderMatches(p.provider, g.selection)
               && p.caller == g.activation && ActivationMatches(p.caller, g.selection)
  {
    RunKeeps(run);
    assert Genuine(Reached(run), Reached(run).admissions[adm]);
  }

  /** Nothing issued is ever forgotten or altered. */
  ghost predicate Remembers(s: State, s': State) {
    s.shared.issued <= s'.shared.issued &&
    forall h :: h in s.history ==> h in s'.history && s'.history[h] == s.history[h]
  }

  lemma AttachRemembers(s: State, t: TaskId, a: AttachAction)
    requires StoreInv(s) && AttachEnabled(s, t, a)
    ensures Remembers(s, AttachApply(s, t, a))
  {
  }

  lemma CloseRemembers(s: State, t: TaskId, a: CloseAction)
    requires CloseEnabled(s, t, a)
    ensures Remembers(s, CloseApply(s, t, a))
  {
  }

  lemma PermitRemembers(s: State, t: TaskId, a: PermitAction)
    requires PermitEnabled(s, t, a)
    ensures Remembers(s, PermitApply(s, t, a))
  {
  }

  lemma AwaitRemembers(s: State, t: TaskId, a: BarrierAction)
    requires BarrierEnabled(s, t, a)
    ensures Remembers(s, BarrierApply(s, t, a))
  {
  }

  lemma StopRemembers(s: State, t: TaskId, a: StopAction)
    requires StopEnabled(s, t, a)
    ensures Remembers(s, StopApply(s, t, a))
  {
  }

  lemma StepRemembers(s: State, a: Action)
    requires StoreInv(s) && Enabled(s, a)
    ensures Remembers(s, Apply(s, a))
  {
    match a
    case Attach(t, x) => AttachRemembers(s, t, x);
    case Permit(t, x) => PermitRemembers(s, t, x);
    case Close(t, x) => CloseRemembers(s, t, x);
    case Await(t, x) => AwaitRemembers(s, t, x);
    case Stop(t, x) => StopRemembers(s, t, x);
    case _ =>
  }

  lemma {:induction false} HandlesNeverForgotten(run: seq<Action>, more: seq<Action>)
    requires Feasible(run + more)
    ensures Remembers(Reached(run), Reached(run + more))
    decreases |more|
  {
    if more == [] {
      assert run + more == run;
    } else {
      var init, last := more[..|more| - 1], more[|more| - 1];
      assert run + more == (run + init) + [last];
      Extend(run + init, last);
      HandlesNeverForgotten(run, init);
      RunKeeps(run + init);
      StepRemembers(Reached(run + init), last);
    }
  }
}
