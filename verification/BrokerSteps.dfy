/** Every action of the broker keeps the invariant. */
module BrokerSteps {
  import opened Basics
  import opened BindingRecords
  import opened BrokerModel
  import opened BrokerInvariant

  // ---------------------------------------------------------------------------
  // Actions that only move one task
  // ---------------------------------------------------------------------------

  lemma AttachMoves(s: State, t: TaskId, a: AttachAction)
    requires LockInv(s) && AttachEnabled(s, t, a) && !a.Insert?
    ensures Moves(s, AttachApply(s, t, a), t)
  {
    AttachSame(s, t, a);
    AttachLocks(s, t, a);
  }

  lemma AttachSame(s: State, t: TaskId, a: AttachAction)
    requires AttachEnabled(s, t, a) && !a.Insert?
    ensures SameStore(s, AttachApply(s, t, a)) && OthersSame(s, AttachApply(s, t, a), t)
  {
  }

  lemma AttachLocks(s: State, t: TaskId, a: AttachAction)
    requires LockInv(s) && AttachEnabled(s, t, a) && !a.Insert?
    ensures LocksFollow(s, AttachApply(s, t, a), t)
  {
  }

  lemma AttachArrives(s: State, t: TaskId, a: AttachAction)
    requires AttachEnabled(s, t, a) && !a.Insert? && !a.FindExisting?
    requires PinInv(s) && (t in s.tasks ==> TaskOk(s, t, s.tasks[t]))
    ensures Arrives(s, AttachApply(s, t, a), t)
  {
  }

  /** Finding no attachment means no live generation has this selection and activation. */
  lemma FindExistingArrives(s: State, t: TaskId)
    requires StoreInv(s) && PinInv(s) && AttachEnabled(s, t, FindExisting)
    ensures Arrives(s, DoFindExisting(s, t), t)
  {
    var pc := s.tasks[t];
    if !AlreadyAttached(s.shared, pc.selection, pc.activation, pc.provider) {
      forall h | h in s.shared.live ensures !SameBinding(s.shared.live[h], pc.selection, pc.activation) {
        // two providers that both equal a selection's pin are the same provider
        assert h in s.history;
        assert !Attached(s.shared.live[h], pc.selection, pc.activation, pc.provider);
      }
    }
  }

  lemma PermitMoves(s: State, t: TaskId, a: PermitAction)
    requires LockInv(s) && PermitEnabled(s, t, a) && (a.Lookup? || a.Reject? || a.Break?)
    ensures Moves(s, PermitApply(s, t, a), t)
  {
  }

  lemma PermitArrives(s: State, t: TaskId, a: PermitAction)
    requires StoreInv(s) && PermitEnabled(s, t, a) && (a.Lookup? || a.Reject? || a.Break?)
    ensures Arrives(s, PermitApply(s, t, a), t)
  {
  }

  lemma CloseMoves(s: State, t: TaskId, a: CloseAction)
    requires LockInv(s) && CloseEnabled(s, t, a) && !a.Remove?
    ensures Moves(s, CloseApply(s, t, a), t)
  {
    CloseSame(s, t, a);
    CloseLocks(s, t, a);
  }

  lemma CloseSame(s: State, t: TaskId, a: CloseAction)
    requires CloseEnabled(s, t, a) && !a.Remove?
    ensures SameStore(s, CloseApply(s, t, a)) && OthersSame(s, CloseApply(s, t, a), t)
  {
  }

  lemma CloseLocks(s: State, t: TaskId, a: CloseAction)
    requires LockInv(s) && CloseEnabled(s, t, a) && !a.Remove?
    ensures LocksFollow(s, CloseApply(s, t, a), t)
  {
  }

  lemma CloseArrives(s: State, t: TaskId, a: CloseAction)
    requires CloseEnabled(s, t, a) && !a.Remove? && !a.Arm? && !a.CheckSettled?
    requires t in s.tasks ==> TaskOk(s, t, s.tasks[t])
    ensures Arrives(s, CloseApply(s, t, a), t)
  {
  }

  lemma WaitArrives(s: State, t: TaskId, a: CloseAction)
    requires CloseEnabled(s, t, a) && (a.Arm? || a.CheckSettled?) && TaskOk(s, t, s.tasks[t])
    ensures Arrives(s, CloseApply(s, t, a), t)
  {
  }

  lemma CloseDrains(s: State, t: TaskId, a: CloseAction)
    requires LockInv(s) && CloseEnabled(s, t, a) && !a.Remove? && !a.CheckSettled?
    ensures KeepsDraining(s, CloseApply(s, t, a))
  {
  }

  /** The check that lets a closer pass: a gate at zero has no admission left. */
  lemma CheckSettledDrains(s: State, t: TaskId)
    requires LockInv(s) && AdmissionInv(s) && CloseEnabled(s, t, CheckSettled)
    ensures KeepsDraining(s, DoCheckSettled(s, t))
  {
    var s', p := DoCheckSettled(s, t), s.tasks[t].phase;
    forall a | a in s.admissions && Draining(s, s.admissions[a].handle)
      ensures Draining(s', s.admissions[a].handle)
    {
      var h := s.admissions[a].handle;
      assert a in Holding(s.admissions, h);
      var i :| 0 <= i < |p.queue| && p.queue[i].handle == h;
      if s.shared.gates[p.queue[0].handle].inFlight == 0 {
        assert i != 0;
        assert p.queue[1..][i - 1].handle == h;
      }
    }
  }

  lemma BarrierMoves(s: State, t: TaskId, a: BarrierAction)
    requires LockInv(s) && BarrierEnabled(s, t, a) && !a.Exit?
    ensures Moves(s, BarrierApply(s, t, a), t)
  {
  }

  lemma ExitMoves(s: State, t: TaskId)
    requires LockInv(s) && BarrierEnabled(s, t, Exit)
    ensures Moves(s, DoExit(s, t), t)
  {
  }

  lemma BarrierDrains(s: State, t: TaskId, a: BarrierAction)
    requires LockInv(s) && BarrierEnabled(s, t, a)
    ensures KeepsDraining(s, BarrierApply(s, t, a))
  {
  }

  lemma BarrierArrives(s: State, t: TaskId, a: BarrierAction)
    requires BarrierEnabled(s, t, a) && TaskOk(s, t, s.tasks[t])
    ensures Arrives(s, BarrierApply(s, t, a), t)
  {
  }

  lemma StopMoves(s: State, t: TaskId, a: StopAction)
    requires LockInv(s) && StopEnabled(s, t, a)
    ensures Moves(s, StopApply(s, t, a), t)
  {
  }

  lemma StopArrives(s: State, t: TaskId, a: StopAction)
    requires StopEnabled(s, t, a)
    ensures Arrives(s, StopApply(s, t, a), t)
  {
  }

  // ---------------------------------------------------------------------------
  // attach inserts a generation
  // ---------------------------------------------------------------------------

  predicate CanInsert(s: State, t: TaskId, h: Handle) {
    InAttach(s, t) && s.tasks[t].attach.Minting? && h !in s.shared.issued && s.shared.nextGeneration <= U64_MAX
  }

  lemma InsertStore(s: State, t: TaskId, h: Handle)
    requires StoreInv(s) && CanInsert(s, t, h) && TaskOk(s, t, s.tasks[t])
    ensures StoreInv(DoInsert(s, t, h))
  {
  }

  lemma InsertPins(s: State, t: TaskId, h: Handle)
    requires PinInv(s) && OwnerInv(s) && CanInsert(s, t, h)
    ensures PinInv(DoInsert(s, t, h)) && OwnerInv(DoInsert(s, t, h))
  {
  }

  lemma InsertNumbers(s: State, t: TaskId, h: Handle)
    requires StoreInv(s) && NumberInv(s) && CanInsert(s, t, h)
    ensures NumberInv(DoInsert(s, t, h))
  {
    assert |s.shared.issued + {h}| == |s.shared.issued| + 1;
    InsertRange(s, t, h);
    InsertApart(s, t, h);
  }

  lemma InsertRange(s: State, t: TaskId, h: Handle)
    requires StoreInv(s) && NumberInv(s) && CanInsert(s, t, h)
    ensures var s' := DoInsert(s, t, h);
            forall k :: k in s'.history ==> 1 <= s'.history[k].generation <= s'.shared.nextGeneration
  {
  }

  lemma InsertApart(s: State, t: TaskId, h: Handle)
    requires StoreInv(s) && NumberInv(s) && CanInsert(s, t, h)
    ensures var s' := DoInsert(s, t, h);
            forall j, k | j in s'.history && k in s'.history && j != k ::
              s'.history[j].generation == s'.history[k].generation ==> |s'.shared.issued| > U64_MAX
  {
    assert |s.shared.issued + {h}| == |s.shared.issued| + 1;
    var s' := DoInsert(s, t, h);
    forall k | k in s.history && k != h
      ensures s'.history[k].generation == s'.history[h].generation ==> |s'.shared.issued| > U64_MAX
    {
      assert s.history[k].generation <= s.shared.nextGeneration;
    }
  }

  lemma InsertUnique(s: State, t: TaskId, h: Handle)
    requires StoreInv(s) && UniqueInv(s) && CanInsert(s, t, h) && TaskOk(s, t, s.tasks[t])
    ensures UniqueInv(DoInsert(s, t, h))
  {
  }

  lemma InsertAdmissions(s: State, t: TaskId, h: Handle)
    requires StoreInv(s) && AdmissionInv(s) && CanInsert(s, t, h)
    ensures AdmissionInv(DoInsert(s, t, h))
  {
    assert Holding(s.admissions, h) == {} by {
      forall a | a in s.admissions ensures s.admissions[a].handle != h {
        assert Genuine(s, s.admissions[a]);
      }
    }
    var s' := DoInsert(s, t, h);
    forall a | a in s'.admissions ensures Genuine(s', s'.admissions[a]) {
      assert Genuine(s, s.admissions[a]);
    }
  }

  lemma InsertTasks(s: State, t: TaskId, h: Handle)
    requires LockInv(s) && StoreInv(s) && TaskInv(s) && CanInsert(s, t, h)
    ensures TaskInv(DoInsert(s, t, h))
  {
    var s' := DoInsert(s, t, h);
    forall u | u in s'.tasks ensures TaskOk(s', u, s'.tasks[u]) {
      assert TaskOk(s, u, s.tasks[u]);
      assert u != t ==> !HoldsAttach(s.tasks[u]);
    }
  }

  lemma InsertWaiters(s: State, t: TaskId, h: Handle)
    requires LockInv(s) && StoreInv(s) && WakeInv(s) && SettleInv(s) && CanInsert(s, t, h)
    ensures WakeInv(DoInsert(s, t, h)) && SettleInv(DoInsert(s, t, h)) && LockInv(DoInsert(s, t, h))
  {
    var s' := DoInsert(s, t, h);
    LocksKept(s, s', t);
  }

  lemma InsertKeeps(s: State, t: TaskId, h: Handle)
    requires Inv(s) && CanInsert(s, t, h)
    ensures Inv(DoInsert(s, t, h))
  {
    InsertStore(s, t, h);
    InsertPins(s, t, h);
    InsertNumbers(s, t, h);
    InsertUnique(s, t, h);
    InsertAdmissions(s, t, h);
    InsertTasks(s, t, h);
    InsertWaiters(s, t, h);
  }

  // ---------------------------------------------------------------------------
  // Admissions begin, are granted, and end
  // ---------------------------------------------------------------------------

  /** Counting: one more, one fewer, or the same admissions of each generation. */
  lemma HoldingAdds(m: map<AdmissionId, Admission>, a: AdmissionId, x: Admission, h: Handle)
    requires a !in m
    ensures |Holding(m[a := x], h)| == |Holding(m, h)| + (if x.handle == h then 1 else 0)
    ensures |Holding(m[a := x], h)| <= |m[a := x]|
  {
    assert Holding(m[a := x], h) == Holding(m, h) + (if x.handle == h then {a} else {});
    HoldingBounded(m[a := x], Holding(m[a := x], h));
  }

  lemma HoldingDrops(m: map<AdmissionId, Admission>, a: AdmissionId, h: Handle)
    requires a in m
    ensures |Holding(m, h)| == |Holding(m - {a}, h)| + (if m[a].handle == h then 1 else 0)
  {
    assert Holding(m, h) == Holding(m - {a}, h) + (if m[a].handle == h then {a} else {});
  }

  lemma HoldingBounded(m: map<AdmissionId, Admission>, keys: set<AdmissionId>)
    requires keys <= m.Keys
    ensures |keys| <= |m|
  {
    SubsetSize(keys, m.Keys);
  }

  lemma {:induction false} SubsetSize<T>(small: set<T>, large: set<T>)
    requires small <= large
    ensures |small| <= |large|
  {
    assert large == small + (large - small);
  }

  /**
   An action that touches only gate counters and admissions, by a task holding no serial lock.
   Admissions of other tasks stay, new ones are of live generations, and whoever relies on a
   notification to come still gets one.
   */
  ghost predicate GateChange(s: State, s': State, t: TaskId) {
    && s'.shared.nextGeneration == s.shared.nextGeneration
    && s'.shared.live == s.shared.live
    && s'.shared.issued == s.shared.issued
    && s'.history == s.history
    && s'.shared.gates.Keys == s.shared.gates.Keys
    && (forall h :: h in s.shared.gates ==>
          && s'.shared.gates[h].admissionOpen == s.shared.gates[h].admissionOpen
          && s'.shared.gates[h].epoch >= s.shared.gates[h].epoch)
    && OthersSame(s, s', t) && LocksFollow(s, s', t)
    && (t in s.tasks ==> !HoldsClose(s.tasks[t]))
    && (t in s'.tasks ==> !s'.tasks[t].Attaching? && !s'.tasks[t].Closing? && TaskOk(s', t, s'.tasks[t]))
    && (forall a :: a in s.admissions && s.admissions[a].owner.Some? && s.admissions[a].owner != Some(t) ==>
          a in s'.admissions && s'.admissions[a] == s.admissions[a])
    && OwnerInv(s')
    && (forall a :: a in s'.admissions ==>
          || s'.admissions[a].handle in s.shared.live
          || (a in s.admissions && s.admissions[a].handle == s'.admissions[a].handle))
  }

  ghost predicate StillAwaited(s: State, s': State, h: Handle)
    requires h in s.shared.gates && h in s'.shared.gates
  {
    s'.shared.gates[h].epoch == s.shared.gates[h].epoch && (s.shared.gates[h].inFlight > 0 || NotifyDue(s, h)) ==>
      s'.shared.gates[h].inFlight > 0 || NotifyDue(s', h)
  }

  lemma GateTasks(s: State, s': State, t: TaskId)
    requires TaskInv(s) && GateChange(s, s', t)
    ensures TaskInv(s')
  {
    forall u | u in s'.tasks ensures TaskOk(s', u, s'.tasks[u]) {
      if u != t { assert TaskOk(s, u, s.tasks[u]); }
    }
  }

  lemma GateSettle(s: State, s': State, t: TaskId)
    requires LockInv(s) && SettleInv(s) && GateChange(s, s', t)
    ensures LockInv(s') && SettleInv(s')
  {
    LocksKept(s, s', t);
  }

  lemma GateWaiters(s: State, s': State, t: TaskId)
    requires WakeInv(s) && GateChange(s, s', t)
    requires forall h :: h in s.shared.gates ==> StillAwaited(s, s', h)
    ensures WakeInv(s')
  {
    forall u | u in s'.tasks && IsAsleep(s'.tasks[u]) ensures Awaited(s', s'.tasks[u]) {
      assert Awaited(s, s.tasks[u]);
      assert StillAwaited(s, s', s.tasks[u].phase.queue[0].handle);
    }
  }

  lemma GateStore(s: State, s': State, t: TaskId)
    requires StoreInv(s) && NumberInv(s) && UniqueInv(s) && GateChange(s, s', t)
    ensures StoreInv(s') && NumberInv(s') && UniqueInv(s')
  {
  }

  lemma GatePins(s: State, s': State, t: TaskId)
    requires PinInv(s) && GateChange(s, s', t)
    ensures PinInv(s')
  {
  }

  lemma GateKeeps(s: State, s': State, t: TaskId)
    requires Inv(s) && GateChange(s, s', t) && AdmissionInv(s')
    requires forall h :: h in s.shared.gates ==> StillAwaited(s, s', h)
    ensures Inv(s')
  {
    GateStore(s, s', t);
    GatePins(s, s', t);
    GateTasks(s, s', t);
    GateSettle(s, s', t);
    GateWaiters(s, s', t);
  }

  /** A task that owes no notification leaves the due ones in place. */
  lemma DueKept(s: State, s': State, t: TaskId, h: Handle)
    requires OthersSame(s, s', t) && NotifyDue(s, h) && (t in s.tasks ==> s.tasks[t] != Notifying(h))
    ensures NotifyDue(s', h)
  {
    var n :| n in s.tasks && s.tasks[n] == Notifying(h);
    assert s'.tasks[n] == Notifying(h);
  }

  predicate CanAdmit(s: State, t: TaskId, adm: AdmissionId) {
    && t in s.tasks && s.tasks[t].Preparing? && adm !in s.admissions
    && Admissible(s.shared, s.tasks[t].prepared)
    && |s.admissions| < U64_MAX
    && s.shared.gates[s.tasks[t].prepared.handle].inFlight <= U64_MAX
  }

  lemma AdmitCounts(s: State, t: TaskId, adm: AdmissionId)
    requires StoreInv(s) && AdmissionInv(s) && CanAdmit(s, t, adm) && TaskOk(s, t, s.tasks[t])
    ensures AdmissionInv(DoAdmit(s, t, adm))
  {
    var s' := DoAdmit(s, t, adm);
    forall h | h in s'.shared.gates ensures s'.shared.gates[h].inFlight == |Holding(s'.admissions, h)| {
      HoldingAdds(s.admissions, adm, s'.admissions[adm], h);
    }
    forall a | a in s'.admissions ensures Genuine(s', s'.admissions[a]) {
      if a != adm { assert Genuine(s, s.admissions[a]); }
    }
  }

  lemma AdmitChange(s: State, t: TaskId, adm: AdmissionId)
    requires LockInv(s) && OwnerInv(s) && CanAdmit(s, t, adm)
    ensures GateChange(s, DoAdmit(s, t, adm), t)
    ensures forall h :: h in s.shared.gates ==> StillAwaited(s, DoAdmit(s, t, adm), h)
  {
    var s' := DoAdmit(s, t, adm);
    forall h | h in s.shared.gates ensures StillAwaited(s, s', h) {
      if NotifyDue(s, h) { DueKept(s, s', t, h); }
    }
  }

  lemma AdmitKeeps(s: State, t: TaskId, adm: AdmissionId)
    requires Inv(s) && CanAdmit(s, t, adm)
    ensures Inv(DoAdmit(s, t, adm))
  {
    AdmitChange(s, t, adm);
    AdmitCounts(s, t, adm);
    GateKeeps(s, DoAdmit(s, t, adm), t);
  }

  /** `t` is recording `adm`. */
  predicate IsRecording(s: State, t: TaskId, adm: AdmissionId) {
    t in s.tasks && s.tasks[t] == Recording(adm) && adm in s.admissions
  }

  lemma GrantCounts(s: State, t: TaskId, adm: AdmissionId)
    requires AdmissionInv(s) && IsRecording(s, t, adm)
    ensures AdmissionInv(DoGrant(s, t, adm))
  {
    var s' := DoGrant(s, t, adm);
    forall h | h in s.shared.gates ensures s'.shared.gates[h].inFlight == |Holding(s'.admissions, h)| {
      assert Holding(s'.admissions, h) == Holding(s.admissions, h);
    }
    forall a | a in s'.admissions ensures Genuine(s', s'.admissions[a]) {
      assert Genuine(s, s.admissions[a]);
    }
  }

  lemma GrantChange(s: State, t: TaskId, adm: AdmissionId)
    requires LockInv(s) && OwnerInv(s) && IsRecording(s, t, adm) && TaskOk(s, t, s.tasks[t])
    ensures GateChange(s, DoGrant(s, t, adm), t)
    ensures forall h :: h in s.shared.gates ==> StillAwaited(s, DoGrant(s, t, adm), h)
  {
    var s' := DoGrant(s, t, adm);
    forall h | h in s.shared.gates ensures StillAwaited(s, s', h) {
      if NotifyDue(s, h) { DueKept(s, s', t, h); }
    }
  }

  lemma GrantKeeps(s: State, t: TaskId, adm: AdmissionId)
    requires Inv(s) && IsRecording(s, t, adm)
    ensures Inv(DoGrant(s, t, adm))
  {
    assert TaskOk(s, t, s.tasks[t]);
    GrantChange(s, t, adm);
    GrantCounts(s, t, adm);
    GateKeeps(s, DoGrant(s, t, adm), t);
  }

  /** `t` may give back `adm`: it is recording it, or `adm` is a granted permit being dropped. */
  predicate CanRelease(s: State, t: TaskId, adm: AdmissionId) {
    && adm in s.admissions && s.admissions[adm].handle in s.shared.gates
    && (if t in s.tasks then s.tasks[t] == Recording(adm) else s.admissions[adm].owner.None?)
  }

  lemma ReleaseCounts(s: State, t: TaskId, adm: AdmissionId)
    requires StoreInv(s) && AdmissionInv(s) && CanRelease(s, t, adm)
    ensures AdmissionInv(DoRelease(s, t, adm))
    ensures s.shared.gates[s.admissions[adm].handle].inFlight > 0
  {
    var s' := DoRelease(s, t, adm);
    forall h | h in s'.shared.gates ensures s'.shared.gates[h].inFlight == |Holding(s'.admissions, h)| {
      HoldingDrops(s.admissions, adm, h);
    }
    HoldingDrops(s.admissions, adm, s.admissions[adm].handle);
    forall a | a in s'.admissions ensures Genuine(s', s'.admissions[a]) {
      assert Genuine(s, s.admissions[a]);
    }
  }

  lemma ReleaseChange(s: State, t: TaskId, adm: AdmissionId)
    requires LockInv(s) && OwnerInv(s) && CanRelease(s, t, adm) && (t in s.tasks ==> TaskOk(s, t, s.tasks[t]))
    ensures GateChange(s, DoRelease(s, t, adm), t)
  {
  }

  /** Whoever was waiting now waits for `t` to notify. */
  lemma ReleaseAwaited(s: State, t: TaskId, adm: AdmissionId)
    requires CanRelease(s, t, adm)
    ensures forall h :: h in s.shared.gates ==> StillAwaited(s, DoRelease(s, t, adm), h)
  {
    var s' := DoRelease(s, t, adm);
    forall h | h in s.shared.gates ensures StillAwaited(s, s', h) {
      if h == s.admissions[adm].handle {
        assert s'.tasks[t] == Notifying(h);
      } else if NotifyDue(s, h) {
        DueKept(s, s', t, h);
      }
    }
  }

  lemma ReleaseKeeps(s: State, t: TaskId, adm: AdmissionId)
    requires Inv(s) && CanRelease(s, t, adm)
    ensures Inv(DoRelease(s, t, adm))
  {
    ReleaseCounts(s, t, adm);
    ReleaseChange(s, t, adm);
    ReleaseAwaited(s, t, adm);
    GateKeeps(s, DoRelease(s, t, adm), t);
  }

  predicate OwesNotice(s: State, t: TaskId, h: Handle) {
    t in s.tasks && s.tasks[t] == Notifying(h) && h in s.shared.gates
  }

  lemma NotifyChange(s: State, t: TaskId, h: Handle)
    requires LockInv(s) && OwnerInv(s) && OwesNotice(s, t, h)
    ensures GateChange(s, DoNotify(s, t, h), t)
  {
  }

  lemma NotifyAwaited(s: State, t: TaskId, h: Handle)
    requires OwesNotice(s, t, h) && AdmissionInv(s)
    ensures forall k :: k in s.shared.gates ==> StillAwaited(s, DoNotify(s, t, h), k)
    ensures AdmissionInv(DoNotify(s, t, h))
  {
    var s' := DoNotify(s, t, h);
    forall k | k in s.shared.gates ensures StillAwaited(s, s', k) {
      if k != h && NotifyDue(s, k) { DueKept(s, s', t, k); }
    }
    forall a | a in s'.admissions ensures Genuine(s', s'.admissions[a]) {
      assert Genuine(s, s.admissions[a]);
    }
  }

  lemma NotifyKeeps(s: State, t: TaskId, h: Handle)
    requires Inv(s) && OwesNotice(s, t, h)
    ensures Inv(DoNotify(s, t, h))
  {
    NotifyChange(s, t, h);
    NotifyAwaited(s, t, h);
    GateKeeps(s, DoNotify(s, t, h), t);
  }

  // ---------------------------------------------------------------------------
  // close_matching
  // ---------------------------------------------------------------------------

  predicate CanRemove(s: State, t: TaskId, queue: seq<Generation>) {
    InClose(s, t) && s.tasks[t].phase.Ready? && IsClosedQueue(s.shared, s.tasks[t].goal, queue)
  }

  lemma RemoveStore(s: State, t: TaskId, queue: seq<Generation>)
    requires StoreInv(s) && AdmissionInv(s) && UniqueInv(s) && CanRemove(s, t, queue)
    ensures StoreInv(DoRemove(s, t, queue)) && AdmissionInv(DoRemove(s, t, queue)) && UniqueInv(DoRemove(s, t, queue))
  {
    var s' := DoRemove(s, t, queue);
    forall a | a in s'.admissions ensures Genuine(s', s'.admissions[a]) {
      assert Genuine(s, s.admissions[a]);
    }
  }

  lemma RemoveTasks(s: State, t: TaskId, queue: seq<Generation>)
    requires StoreInv(s) && TaskInv(s) && CanRemove(s, t, queue)
    ensures TaskInv(DoRemove(s, t, queue))
  {
    var s' := DoRemove(s, t, queue);
    forall u | u in s'.tasks ensures TaskOk(s', u, s'.tasks[u]) {
      if u != t { assert TaskOk(s, u, s.tasks[u]); }
    }
  }

  /** Before the removal every admission is of a live generation; what it removes it queues. */
  lemma RemoveSettle(s: State, t: TaskId, queue: seq<Generation>)
    requires LockInv(s) && SettleInv(s) && CanRemove(s, t, queue)
    ensures LockInv(DoRemove(s, t, queue)) && SettleInv(DoRemove(s, t, queue))
  {
    var s' := DoRemove(s, t, queue);
    LocksKept(s, s', t);
    forall a | a in s'.admissions
      ensures s'.admissions[a].handle in s'.shared.live || Draining(s', s'.admissions[a].handle)
    {
      var h := s.admissions[a].handle;
      assert h in s.shared.live;
      if h !in s'.shared.live {
        assert h in MatchingHandles(s.shared, s.tasks[t].goal);
      }
    }
  }

  lemma RemoveWaiters(s: State, t: TaskId, queue: seq<Generation>)
    requires LockInv(s) && WakeInv(s) && PinInv(s) && OwnerInv(s) && CanRemove(s, t, queue)
    ensures WakeInv(DoRemove(s, t, queue)) && PinInv(DoRemove(s, t, queue)) && OwnerInv(DoRemove(s, t, queue))
  {
  }

  lemma RemoveKeeps(s: State, t: TaskId, queue: seq<Generation>)
    requires Inv(s) && CanRemove(s, t, queue)
    ensures Inv(DoRemove(s, t, queue))
  {
    RemoveStore(s, t, queue);
    RemoveTasks(s, t, queue);
    RemoveSettle(s, t, queue);
    RemoveWaiters(s, t, queue);
  }
}
