/**
 The broker never deadlocks by itself: as long as a task is inside it, some task can take a
 step, unless everybody waits for a closer that waits for a permit its client still holds.
 */
module BrokerProgress {
  import opened Basics
  import opened BindingRecords
  import opened BrokerModel
  import opened BrokerInvariant
  import opened BrokerTheorems

  /** Task `t`, already inside the broker, can take a step. */
  ghost predicate CanStep(s: State, t: TaskId) {
    && t in s.tasks
    && (|| (exists a :: AttachEnabled(s, t, a))
        || (exists a :: PermitEnabled(s, t, a))
        || (exists a :: CloseEnabled(s, t, a))
        || (exists a :: BarrierEnabled(s, t, a))
        || (exists a :: StopEnabled(s, t, a)))
  }

  /** The closer is asleep on a generation of which a client still holds a granted permit. */
  ghost predicate WaitsForClient(s: State) {
    && s.closeHolder.Some? && s.closeHolder.value in s.tasks && IsAsleep(s.tasks[s.closeHolder.value])
    && exists a :: a in s.admissions && s.admissions[a].owner.None? &&
         s.admissions[a].handle == s.tasks[s.closeHolder.value].phase.queue[0].handle
  }

  /** A handle that has not been issued. */
  lemma {:induction false} UnusedHandle(used: set<Handle>) returns (h: Handle)
    ensures forall k :: k in used ==> k < h
  {
    if used == {} {
      h := 0;
    } else {
      var k :| k in used;
      var g := UnusedHandle(used - {k});
      h := if g > k then g else k + 1;
      assert used == (used - {k}) + {k};
    }
  }

  lemma {:induction false} ListClosed(sh: Shared, hs: set<Handle>) returns (queue: seq<Generation>)
    requires hs <= sh.live.Keys
    requires forall h :: h in hs ==> sh.live[h].handle == h
    ensures IsClosedList(sh, hs, queue)
  {
    if hs == {} {
      queue := [];
    } else {
      var h :| h in hs;
      var rest := ListClosed(sh, hs - {h});
      queue := [sh.live[h].(open := false)] + rest;
      forall k | k in hs ensures exists i :: 0 <= i < |queue| && queue[i].handle == k {
        if k == h {
          assert queue[0].handle == k;
        } else {
          assert k in hs - {h};
          var i :| 0 <= i < |rest| && rest[i].handle == k;
          assert queue[i + 1].handle == k;
        }
      }
    }
  }

  lemma AttacherSteps(s: State, t: TaskId)
    requires NumberInv(s) && InAttach(s, t) && (s.tasks[t].attach.Queued? ==> s.attachHolder.None?)
    ensures CanStep(s, t)
  {
    match s.tasks[t].attach
    case Queued => assert AttachEnabled(s, t, LockAttach);
    case Locked => assert AttachEnabled(s, t, CheckActivation);
    case Checked => assert AttachEnabled(s, t, FindExisting);
    case Minting =>
      var h := UnusedHandle(s.shared.issued);
      assert AttachEnabled(s, t, Insert(h));
    case Announcing(_) => assert AttachEnabled(s, t, FinishAttach);
  }

  lemma RecorderSteps(s: State, t: TaskId)
    requires StoreInv(s) && AdmissionInv(s) && TaskInv(s) && t in s.tasks && s.tasks[t].Recording?
    ensures CanStep(s, t)
  {
    assert TaskOk(s, t, s.tasks[t]);
    assert PermitEnabled(s, t, Grant);
  }

  lemma NotifierSteps(s: State, t: TaskId)
    requires TaskInv(s) && t in s.tasks && s.tasks[t].Notifying?
    ensures CanStep(s, t)
  {
    assert TaskOk(s, t, s.tasks[t]);
    assert PermitEnabled(s, t, NotifyWaiters);
  }

  lemma ReadySteps(s: State, t: TaskId)
    requires StoreInv(s) && InClose(s, t) && s.tasks[t].phase.Ready?
    ensures CanStep(s, t)
  {
    var queue := ListClosed(s.shared, MatchingHandles(s.shared, s.tasks[t].goal));
    assert CloseEnabled(s, t, Remove(queue));
  }

  lemma BarrierSteps(s: State, t: TaskId)
    requires TaskInv(s) && InClose(s, t) && s.tasks[t].phase.Barrier?
    ensures CanStep(s, t)
  {
    assert TaskOk(s, t, s.tasks[t]);
    match s.tasks[t].phase.check
    case PendingRead => assert BarrierEnabled(s, t, ReadPending);
    case PendingRetry => assert BarrierEnabled(s, t, RetryPending(true));
    case LiveCheck => assert BarrierEnabled(s, t, CheckLive);
    case PendingCheck => assert BarrierEnabled(s, t, CheckPending);
  }

  lemma DrainerSteps(s: State, t: TaskId)
    requires StoreInv(s) && TaskInv(s) && InClose(s, t) && s.tasks[t].phase.Drain? && !IsAsleep(s.tasks[t])
    ensures CanStep(s, t)
  {
    assert TaskOk(s, t, s.tasks[t]);
    if s.tasks[t].phase.queue == [] {
      assert CloseEnabled(s, t, Finish);
    } else {
      match s.tasks[t].phase.wait
      case Unarmed => assert CloseEnabled(s, t, Arm);
      case Armed(_) => assert CloseEnabled(s, t, CheckSettled);
      case Settled => assert CloseEnabled(s, t, Detached(true));
    }
  }

  /** A sleeping closer is notified, about to be, waits for a recorder, or for a client. */
  lemma SleeperSteps(s: State, t: TaskId)
    requires LockInv(s) && StoreInv(s) && AdmissionInv(s) && OwnerInv(s) && WakeInv(s) && TaskInv(s)
    requires t in s.tasks && IsAsleep(s.tasks[t])
    ensures WaitsForClient(s) || exists u :: CanStep(s, u)
  {
    InvWake(s, t);
    var h := s.tasks[t].phase.queue[0].handle;
    if CloseEnabled(s, t, Wake) {
      assert CanStep(s, t);
    } else if NotifyDue(s, h) {
      var n :| n in s.tasks && s.tasks[n] == Notifying(h);
      NotifierSteps(s, n);
    } else {
      var a :| a in Holding(s.admissions, h);
      if s.admissions[a].owner.Some? {
        RecorderSteps(s, s.admissions[a].owner.value);
      }
    }
  }

  /** Whoever holds `attach_serial` without closing can step; so can a closer that needs it. */
  lemma AttachHolderSteps(s: State)
    requires LockInv(s) && NumberInv(s) && s.attachHolder.Some?
    requires !s.tasks[s.attachHolder.value].Closing?
    ensures exists u :: CanStep(s, u)
  {
    AttacherSteps(s, s.attachHolder.value);
  }

  lemma CloserSteps(s: State, t: TaskId)
    requires LockInv(s) && StoreInv(s) && NumberInv(s) && AdmissionInv(s) && OwnerInv(s) && WakeInv(s) && TaskInv(s)
    requires t in s.tasks && HoldsClose(s.tasks[t])
    ensures WaitsForClient(s) || exists u :: CanStep(s, u)
  {
    match s.tasks[t].phase
    case WantAttach =>
      if s.attachHolder.Some? {
        AttachHolderSteps(s);
      } else {
        assert CloseEnabled(s, t, LockBoth);
        assert CanStep(s, t);
      }
    case Ready => ReadySteps(s, t);
    case Drain(_, _, _) => if IsAsleep(s.tasks[t]) { SleeperSteps(s, t); } else { DrainerSteps(s, t); }
    case Barrier(_) => BarrierSteps(s, t);
    case Leaving(_) =>
      assert BarrierEnabled(s, t, Exit);
      assert CanStep(s, t);
  }

  lemma InvProgress(s: State, t: TaskId)
    requires Inv(s) && t in s.tasks
    ensures WaitsForClient(s) || exists u :: CanStep(s, u)
  {
    if s.closeHolder.Some? {
      CloserSteps(s, s.closeHolder.value);
    } else if s.attachHolder.Some? {
      AttachHolderSteps(s);
    } else {
      FreeSteps(s, t);
    }
  }

  /** With both serial locks free every task inside can step. */
  lemma FreeSteps(s: State, t: TaskId)
    requires LockInv(s) && StoreInv(s) && NumberInv(s) && AdmissionInv(s) && TaskInv(s)
    requires s.closeHolder.None? && s.attachHolder.None? && t in s.tasks
    ensures CanStep(s, t)
  {
    match s.tasks[t]
    case Attaching(_, _, _, _) => AttacherSteps(s, t);
    case Preparing(_, _) => assert PermitEnabled(s, t, Reject);
    case Recording(_) => RecorderSteps(s, t);
    case Notifying(_) => NotifierSteps(s, t);
    case Closing(_, _, _) => assert CloseEnabled(s, t, LockClose);
    case Controlling(_) => assert StopEnabled(s, t, Control(None));
    case Resting(_, _) => assert StopEnabled(s, t, Next);
  }

  /** In every reachable state with a task inside the broker. */
  lemma NoDeadlock(run: seq<Action>, t: TaskId)
    requires Feasible(run) && t in Reached(run).tasks
    ensures WaitsForClient(Reached(run)) || exists u :: CanStep(Reached(run), u)
  {
    RunKeeps(run);
    InvProgress(Reached(run), t);
  }
}
