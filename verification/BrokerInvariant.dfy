/** The inductive invariant of the broker, preserved by every action of every task. */
module BrokerInvariant {
  import opened Basics
  import opened BindingRecords
  import opened BrokerModel

  predicate HoldsAttach(pc: Pc) {
    || (pc.Attaching? && !pc.attach.Queued?)
    || (pc.Closing? && !pc.phase.WantClose? && !pc.phase.WantAttach? && !pc.phase.Leaving?)
  }

  predicate HoldsClose(pc: Pc) {
    pc.Closing? && !pc.phase.WantClose?
  }

  /** The serial locks are held by exactly the tasks whose position says so. */
  ghost predicate LockInv(s: State) {
    && (forall t :: t in s.tasks && HoldsAttach(s.tasks[t]) ==> s.attachHolder == Some(t))
    && (forall t :: t in s.tasks && HoldsClose(s.tasks[t]) ==> s.closeHolder == Some(t))
    && (s.attachHolder.Some? ==> s.attachHolder.value in s.tasks && HoldsAttach(s.tasks[s.attachHolder.value]))
    && (s.closeHolder.Some? ==> s.closeHolder.value in s.tasks && HoldsClose(s.tasks[s.closeHolder.value]))
  }

  /** A generation was created for a matching consumer and a provider equal to its pin. */
  predicate WellPinned(act: Activation, sel: Selection, prov: Provider) {
    ValidActivation(act) && ActivationMatches(act, sel) && ProviderMatches(prov, sel)
  }

  ghost predicate PinInv(s: State) {
    && (forall h :: h in s.history ==>
          WellPinned(s.history[h].activation, s.history[h].selection, s.history[h].provider))
    && (forall t :: t in s.tasks && s.tasks[t].Attaching? ==>
          WellPinned(s.tasks[t].activation, s.tasks[t].selection, s.tasks[t].provider))
  }

  /** Tables agree: what is live was created and never altered, and is exactly what admits. */
  ghost predicate StoreInv(s: State) {
    && s.history.Keys == s.shared.issued
    && s.shared.gates.Keys == s.shared.issued
    && (forall h :: h in s.shared.live ==> h in s.history && s.shared.live[h] == s.history[h])
    && (forall h :: h in s.history ==> s.history[h].handle == h && s.history[h].open)
    && (forall h :: h in s.shared.gates ==> (s.shared.gates[h].admissionOpen <==> h in s.shared.live))
  }

  /** Numbers count the generations created; only the u64 limit can repeat one. */
  ghost predicate NumberInv(s: State) {
    && s.shared.nextGeneration == (if |s.shared.issued| <= U64_MAX then |s.shared.issued| else U64_MAX)
    && (forall h :: h in s.history ==> 1 <= s.history[h].generation <= s.shared.nextGeneration)
    && (forall h, k | h in s.history && k in s.history && h != k ::
          s.history[h].generation == s.history[k].generation ==> |s.shared.issued| > U64_MAX)
  }

  predicate SameBinding(g: Generation, sel: Selection, act: Activation) {
    g.selection == sel && g.activation == act
  }

  ghost predicate UniqueInv(s: State) {
    forall h, k | h in s.shared.live && k in s.shared.live && h != k ::
      !SameBinding(s.shared.live[h], s.shared.live[k].selection, s.shared.live[k].activation)
  }

  function Holding(admissions: map<AdmissionId, Admission>, h: Handle): set<AdmissionId> {
    set a | a in admissions && admissions[a].handle == h
  }

  /** An admission repeats its generation's pins and was asked for by its activation. */
  ghost predicate Genuine(s: State, a: Admission) {
    && a.handle in s.history
    && a.bindingId == s.history[a.handle].selection.bindingId
    && a.generation == s.history[a.handle].generation
    && a.provider == s.history[a.handle].provider
    && a.caller == s.history[a.handle].activation
  }

  ghost predicate AdmissionInv(s: State) {
    && (forall a :: a in s.admissions ==> Genuine(s, s.admissions[a]))
    && (forall h :: h in s.shared.gates ==> s.shared.gates[h].inFlight == |Holding(s.admissions, h)|)
  }

  /** An admission still being recorded has its task at work on it. */
  ghost predicate OwnerInv(s: State) {
    forall a :: a in s.admissions && s.admissions[a].owner.Some? ==>
      s.admissions[a].owner.value in s.tasks && s.tasks[s.admissions[a].owner.value] == Recording(a)
  }

  predicate Queued(h: Handle, queue: seq<Generation>) {
    exists i :: 0 <= i < |queue| && queue[i].handle == h
  }

  /** The generations a closing task has still to see settle. */
  predicate Unsettled(pc: Pc, h: Handle) {
    && pc.Closing? && pc.phase.Drain?
    && Queued(h, if pc.phase.wait.Settled? && pc.phase.queue != [] then pc.phase.queue[1..] else pc.phase.queue)
  }

  ghost predicate Draining(s: State, h: Handle) {
    s.closeHolder.Some? && s.closeHolder.value in s.tasks && Unsettled(s.tasks[s.closeHolder.value], h)
  }

  /** An admission outlives its generation only while the closer is still waiting for it. */
  ghost predicate SettleInv(s: State) {
    forall a :: a in s.admissions ==>
      s.admissions[a].handle in s.shared.live || Draining(s, s.admissions[a].handle)
  }

  ghost predicate NotifyDue(s: State, h: Handle) {
    exists n :: n in s.tasks && s.tasks[n] == Notifying(h)
  }

  predicate IsAsleep(pc: Pc) {
    pc.Closing? && pc.phase.Drain? && pc.phase.queue != [] && pc.phase.wait.Asleep?
  }

  /** A sleeper nobody has notified still has something to wait for. */
  ghost predicate Awaited(s: State, pc: Pc)
    requires IsAsleep(pc)
  {
    var h := pc.phase.queue[0].handle;
    && h in s.shared.gates
    && pc.phase.wait.epoch <= s.shared.gates[h].epoch
    && (s.shared.gates[h].epoch == pc.phase.wait.epoch ==> s.shared.gates[h].inFlight > 0 || NotifyDue(s, h))
  }

  ghost predicate WakeInv(s: State) {
    forall t :: t in s.tasks && IsAsleep(s.tasks[t]) ==> Awaited(s, s.tasks[t])
  }

  predicate NoneLive(sh: Shared, goal: Goal) {
    forall h :: h in sh.live ==> !Matches(goal, sh.live[h])
  }

  ghost predicate QueueOk(s: State, queue: seq<Generation>) {
    forall i :: 0 <= i < |queue| ==>
      queue[i].handle in s.history && queue[i] == s.history[queue[i].handle].(open := false)
  }

  ghost predicate CloseOk(s: State, goal: Goal, p: ClosePhase) {
    && (p.Drain? || p.Barrier? ==> NoneLive(s.shared, goal))
    && (p.Barrier? ==> goal.ByBinding?)
    && (p.Drain? ==> QueueOk(s, p.queue) && (p.wait.Unarmed? || p.queue != []))
    && (p.Drain? && p.wait.Armed? ==>
          && p.queue[0].handle in s.shared.gates
          && p.wait.epoch <= s.shared.gates[p.queue[0].handle].epoch)
  }

  ghost predicate TaskOk(s: State, t: TaskId, pc: Pc) {
    match pc
    case Attaching(sel, act, prov, phase) =>
      phase.Minting? ==> forall h :: h in s.shared.live ==> !SameBinding(s.shared.live[h], sel, act)
    case Preparing(g, caller) => g.handle in s.history && s.history[g.handle] == g && g.activation == caller
    case Recording(a) => a in s.admissions && s.admissions[a].owner == Some(t)
    case Notifying(h) => h in s.shared.gates
    case Closing(goal, _, phase) => CloseOk(s, goal, phase)
    case Controlling(_) => true
    case Resting(_, _) => true
  }

  ghost predicate TaskInv(s: State) {
    forall t :: t in s.tasks ==> TaskOk(s, t, s.tasks[t])
  }

  /** What is registered is complete, and its id is one the Host minted. */
  ghost predicate KeyInv(s: State) {
    forall k :: k in s.shared.activationIds ==> CompleteKey(k) && !Blank(s.shared.activationIds[k])
  }

  ghost predicate Inv(s: State) {
    LockInv(s) && StoreInv(s) && PinInv(s) && NumberInv(s) && UniqueInv(s) && AdmissionInv(s) && OwnerInv(s)
    && SettleInv(s) && WakeInv(s) && TaskInv(s)
  }

  // ---------------------------------------------------------------------------
  // Actions that move one task and leave generations, gates and admissions alone
  // ---------------------------------------------------------------------------

  ghost predicate OthersSame(s: State, s': State, t: TaskId) {
    s'.tasks == if t in s'.tasks then s.tasks[t := s'.tasks[t]] else s.tasks - {t}
  }

  function HolderAfter(before: Option<TaskId>, t: TaskId, holds: bool): Option<TaskId> {
    if holds then Some(t) else if before == Some(t) then None else before
  }

  /** The serial locks change hands exactly as task `t`'s new position says. */
  ghost predicate LocksFollow(s: State, s': State, t: TaskId) {
    var attach := t in s'.tasks && HoldsAttach(s'.tasks[t]);
    var close := t in s'.tasks && HoldsClose(s'.tasks[t]);
    && s'.attachHolder == HolderAfter(s.attachHolder, t, attach)
    && s'.closeHolder == HolderAfter(s.closeHolder, t, close)
    && (attach ==> s.attachHolder == None || s.attachHolder == Some(t))
    && (close ==> s.closeHolder == None || s.closeHolder == Some(t))
  }

  lemma LocksKept(s: State, s': State, t: TaskId)
    requires LockInv(s) && OthersSame(s, s', t) && LocksFollow(s, s', t)
    ensures LockInv(s')
  {
  }

  ghost predicate SameStore(s: State, s': State) {
    && s'.shared.nextGeneration == s.shared.nextGeneration
    && s'.shared.live == s.shared.live
    && s'.shared.issued == s.shared.issued
    && s'.shared.gates == s.shared.gates
    && s'.history == s.history
    && s'.admissions == s.admissions
  }

  /** Nothing the invariant speaks of changed except the position of task `t`. */
  ghost predicate Moves(s: State, s': State, t: TaskId) {
    && SameStore(s, s')
    && OthersSame(s, s', t)
    && LocksFollow(s, s', t)
  }

  /** What the moving task owes at its new position. */
  ghost predicate Arrives(s: State, s': State, t: TaskId) {
    && (t in s.tasks ==> !s.tasks[t].Notifying? && !s.tasks[t].Recording?)
    && (t in s'.tasks ==> TaskOk(s', t, s'.tasks[t]))
    && (t in s'.tasks && IsAsleep(s'.tasks[t]) ==> Awaited(s', s'.tasks[t]))
    && (t in s'.tasks && s'.tasks[t].Attaching? ==>
          WellPinned(s'.tasks[t].activation, s'.tasks[t].selection, s'.tasks[t].provider))
  }

  /** What was draining, and still has admissions, still is. */
  ghost predicate KeepsDraining(s: State, s': State) {
    forall a :: a in s.admissions && Draining(s, s.admissions[a].handle) ==> Draining(s', s.admissions[a].handle)
  }

  lemma TaskSame(s: State, s': State, t: TaskId, pc: Pc)
    requires SameStore(s, s') && TaskOk(s, t, pc)
    ensures TaskOk(s', t, pc)
  {
  }

  lemma TasksMoved(s: State, s': State, t: TaskId)
    requires TaskInv(s) && Moves(s, s', t) && Arrives(s, s', t)
    ensures TaskInv(s')
  {
    forall u | u in s'.tasks ensures TaskOk(s', u, s'.tasks[u]) {
      if u != t { TaskSame(s, s', u, s.tasks[u]); }
    }
  }

  lemma WakeMoved(s: State, s': State, t: TaskId)
    requires WakeInv(s) && Moves(s, s', t) && Arrives(s, s', t)
    ensures WakeInv(s')
  {
    forall u | u in s'.tasks && IsAsleep(s'.tasks[u]) ensures Awaited(s', s'.tasks[u]) {
      if u != t {
        var h := s.tasks[u].phase.queue[0].handle;
        assert Awaited(s, s.tasks[u]);
        if NotifyDue(s, h) {
          var n :| n in s.tasks && s.tasks[n] == Notifying(h);
          assert s'.tasks[n] == Notifying(h);
        }
      }
    }
  }

  lemma PinsMoved(s: State, s': State, t: TaskId)
    requires PinInv(s) && OwnerInv(s) && Moves(s, s', t) && Arrives(s, s', t)
    ensures PinInv(s') && OwnerInv(s')
  {
  }

  lemma StoreMoved(s: State, s': State)
    requires SameStore(s, s') && StoreInv(s) && NumberInv(s) && UniqueInv(s) && AdmissionInv(s)
    ensures StoreInv(s') && NumberInv(s') && UniqueInv(s') && AdmissionInv(s')
  {
    forall a | a in s'.admissions ensures Genuine(s', s'.admissions[a]) {
      assert Genuine(s, s.admissions[a]);
    }
  }

  lemma MoveKeeps(s: State, s': State, t: TaskId)
    requires Inv(s) && Moves(s, s', t) && Arrives(s, s', t) && KeepsDraining(s, s')
    ensures Inv(s')
  {
    LocksKept(s, s', t);
    StoreMoved(s, s');
    PinsMoved(s, s', t);
    TasksMoved(s, s', t);
    WakeMoved(s, s', t);
  }

  /** A task that does not hold `close_serial` does not disturb what is draining. */
  lemma BystanderDrains(s: State, s': State, t: TaskId)
    requires LockInv(s) && Moves(s, s', t)
    requires t in s.tasks ==> !HoldsClose(s.tasks[t])
    ensures KeepsDraining(s, s')
  {
  }
}
