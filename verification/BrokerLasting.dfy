/** What a finished close still guarantees while other tasks go on, and what it does not. */
module BrokerLasting {
  import opened Basics
  import opened BindingRecords
  import opened BrokerModel
  import opened BrokerInvariant
  import opened BrokerTheorems

  // ---------------------------------------------------------------------------
  // Parts of runs
  // ---------------------------------------------------------------------------

  lemma {:induction false} Earlier(run: seq<Action>, more: seq<Action>)
    requires Feasible(run + more)
    ensures Feasible(run)
    decreases |more|
  {
    if more == [] {
      assert run + more == run;
    } else {
      var init := more[..|more| - 1];
      assert (run + more)[..|run + more| - 1] == run + init;
      Earlier(run, init);
    }
  }

  /** By this action a task creates a generation the goal selects. */
  predicate InsertsFor(s: State, a: Action, goal: Goal) {
    && a.Attach? && a.attach.Insert? && InAttach(s, a.t) && s.shared.nextGeneration <= U64_MAX
    && var pc := s.tasks[a.t];
       Matches(goal, NewGeneration(s.shared, a.attach.minted, pc.selection, pc.activation, pc.provider))
  }

  /** Only an insertion adds to the generations created, and it adds the one it was asked for. */
  lemma StepCreates(s: State, a: Action, h: Handle)
    requires Enabled(s, a) && h in Apply(s, a).history && h !in s.history
    ensures a.Attach? && a.attach == Insert(h) && InAttach(s, a.t) && s.shared.nextGeneration <= U64_MAX
    ensures var pc := s.tasks[a.t];
            Apply(s, a).history[h] == NewGeneration(s.shared, h, pc.selection, pc.activation, pc.provider)
  {
  }

  /** `h` was created by the action at place `i`, for the binding and activation its task asked for. */
  ghost predicate CreatedAt(run: seq<Action>, more: seq<Action>, h: Handle, i: int) {
    && 0 <= i < |more| && more[i].Attach? && more[i].attach == Insert(h)
    && h in Reached(run + more).history
    && var s := Reached(run + more[..i]);
       && InAttach(s, more[i].t) && s.shared.nextGeneration <= U64_MAX
       && var pc := s.tasks[more[i].t];
          Reached(run + more).history[h] == NewGeneration(s.shared, h, pc.selection, pc.activation, pc.provider)
  }

  ghost predicate Has(run: seq<Action>, h: Handle) {
    h in Reached(run).history
  }

  lemma {:induction false} FirstWith(run: seq<Action>, more: seq<Action>, h: Handle, k: nat) returns (i: nat)
    requires k <= |more| && Has(run + more[..k], h) && !Has(run + more[..0], h)
    ensures i < k && Has(run + more[..i + 1], h) && !Has(run + more[..i], h)
  {
    if Has(run + more[..k - 1], h) {
      i := FirstWith(run, more, h, k - 1);
    } else {
      i := k - 1;
    }
  }

  lemma Cut(run: seq<Action>, more: seq<Action>, i: nat)
    requires i < |more|
    ensures run + more[..i + 1] == run + more[..i] + [more[i]]
    ensures run + more == run + more[..i + 1] + more[i + 1..]
  {
    assert more[..i + 1] == more[..i] + [more[i]];
    assert more == more[..i + 1] + more[i + 1..];
  }

  /** A run, cut behind one of its actions. */
  lemma CutAt(run: seq<Action>, more: seq<Action>, i: nat)
    requires Feasible(run + more) && i < |more|
    ensures run + more[..i + 1] == run + more[..i] + [more[i]]
    ensures run + more == run + more[..i + 1] + more[i + 1..]
    ensures Feasible(run + more[..i + 1])
  {
    Cut(run, more, i);
    Earlier(run + more[..i + 1], more[i + 1..]);
  }

  lemma CreatedSince(run: seq<Action>, more: seq<Action>, h: Handle) returns (i: nat)
    requires Feasible(run + more) && h in Reached(run + more).history && h !in Reached(run).history
    ensures CreatedAt(run, more, h, i)
  {
    assert run + more[..|more|] == run + more && run + more[..0] == run;
    i := FirstWith(run, more, h, |more|);
    CutAt(run, more, i);
    Extend(run + more[..i], more[i]);
    StepCreates(Reached(run + more[..i]), more[i], h);
    HandlesNeverForgotten(run + more[..i + 1], more[i + 1..]);
  }

  // ---------------------------------------------------------------------------
  // What is closed stays closed
  // ---------------------------------------------------------------------------

  /** Neither live nor admitted. */
  predicate Gone(s: State, h: Handle) {
    h !in s.shared.live && Holding(s.admissions, h) == {}
  }

  /** Nothing the goal selects is live or admitted. */
  ghost predicate Clear(s: State, goal: Goal) {
    NoneLive(s.shared, goal) && NoOutstanding(s, goal)
  }

  /** That is: every generation it selects is gone. */
  ghost predicate AllOfItGone(s: State, goal: Goal) {
    forall h :: h in s.history && Matches(goal, s.history[h]) ==> Gone(s, h)
  }

  lemma ClearIsGone(s: State, goal: Goal)
    requires StoreInv(s) && Clear(s, goal)
    ensures AllOfItGone(s, goal)
  {
    forall h | h in s.history && Matches(goal, s.history[h]) ensures Gone(s, h) {
      assert forall a :: a in s.admissions ==> s.admissions[a].handle != h;
    }
  }

  lemma AdmissionElsewhere(s: State, goal: Goal, a: AdmissionId)
    requires AdmissionInv(s) && AllOfItGone(s, goal) && a in s.admissions
    ensures s.admissions[a].handle in s.history && !Matches(goal, s.history[s.admissions[a].handle])
  {
    assert Genuine(s, s.admissions[a]);
    assert a in Holding(s.admissions, s.admissions[a].handle);
  }

  lemma GoneIsNotLive(s: State, goal: Goal)
    requires StoreInv(s) && AllOfItGone(s, goal)
    ensures NoneLive(s.shared, goal)
  {
  }

  lemma GoneIsClear(s: State, goal: Goal)
    requires StoreInv(s) && AdmissionInv(s) && AllOfItGone(s, goal)
    ensures Clear(s, goal)
  {
    GoneIsNotLive(s, goal);
    forall a | a in s.admissions
      ensures s.admissions[a].handle in s.history && !Matches(goal, s.history[s.admissions[a].handle])
    {
      AdmissionElsewhere(s, goal, a);
    }
  }

  /** A generation that is gone is gone for good. */
  lemma GoneForGood(run: seq<Action>, more: seq<Action>, h: Handle)
    requires Feasible(run + more) && h in Reached(run).history && Gone(Reached(run), h)
    ensures h in Reached(run + more).history && Reached(run + more).history[h] == Reached(run).history[h]
    ensures Gone(Reached(run + more), h)
  {
    Earlier(run, more);
    RunKeeps(run);
    ClosedForever(run, more, h);
    HandlesNeverForgotten(run, more);
  }

  /** Everything the goal selects that existed then is gone now. */
  ghost predicate AllGone(past: State, now: State, goal: Goal) {
    forall h :: h in past.history && Matches(goal, past.history[h]) ==> Gone(now, h)
  }

  /** Whatever the goal selects that is live or admitted now did not exist then. */
  ghost predicate OnlyNew(past: State, now: State, goal: Goal) {
    forall h :: h in now.history && Matches(goal, now.history[h]) && !Gone(now, h) ==> h !in past.history
  }

  lemma ClearLasts(run: seq<Action>, more: seq<Action>, goal: Goal)
    requires Feasible(run + more) && Clear(Reached(run), goal)
    ensures AllGone(Reached(run), Reached(run + more), goal)
    ensures OnlyNew(Reached(run), Reached(run + more), goal)
  {
    Earlier(run, more);
    RunKeeps(run);
    ClearIsGone(Reached(run), goal);
    HandlesNeverForgotten(run, more);
    forall h | h in Reached(run).history && Matches(goal, Reached(run).history[h]) ensures Gone(Reached(run + more), h) {
      GoneForGood(run, more, h);
    }
  }

  // ---------------------------------------------------------------------------
  // When a close is over, exactly
  // ---------------------------------------------------------------------------

  /** Each generation the goal selects that was created since is neither live nor admitted any more. */
  ghost predicate InsertionsGone(run: seq<Action>, more: seq<Action>, goal: Goal) {
    forall i :: 0 <= i < |more| && InsertsFor(Reached(run + more[..i]), more[i], goal) ==>
      Gone(Reached(run + more), more[i].attach.minted)
  }

  lemma StepInserts(s: State, a: Action, goal: Goal)
    requires Enabled(s, a) && InsertsFor(s, a, goal)
    ensures var h := a.attach.minted; h in Apply(s, a).history && Matches(goal, Apply(s, a).history[h])
  {
    assert Apply(s, a) == DoInsert(s, a.t, a.attach.minted);
  }

  lemma InsertedIsSelected(run: seq<Action>, more: seq<Action>, goal: Goal, i: nat)
    requires Feasible(run + more) && i < |more| && InsertsFor(Reached(run + more[..i]), more[i], goal)
    ensures var h := more[i].attach.minted;
            h in Reached(run + more).history && Matches(goal, Reached(run + more).history[h])
  {
    CutAt(run, more, i);
    Extend(run + more[..i], more[i]);
    StepInserts(Reached(run + more[..i]), more[i], goal);
    HandlesNeverForgotten(run + more[..i + 1], more[i + 1..]);
  }

  lemma ClearOfInsertions(run: seq<Action>, more: seq<Action>, goal: Goal)
    requires Feasible(run + more) && Clear(Reached(run + more), goal)
    ensures InsertionsGone(run, more, goal)
  {
    RunKeeps(run + more);
    ClearIsGone(Reached(run + more), goal);
    forall i | 0 <= i < |more| && InsertsFor(Reached(run + more[..i]), more[i], goal)
      ensures Gone(Reached(run + more), more[i].attach.minted)
    {
      InsertedIsSelected(run, more, goal, i);
    }
  }

  lemma ClearButForInsertions(run: seq<Action>, more: seq<Action>, goal: Goal, h: Handle)
    requires Feasible(run + more) && OnlyNew(Reached(run), Reached(run + more), goal) && InsertionsGone(run, more, goal)
    requires h in Reached(run + more).history && Matches(goal, Reached(run + more).history[h])
    ensures Gone(Reached(run + more), h)
  {
    if h !in Reached(run).history {
      var i := CreatedSince(run, more, h);
      assert InsertsFor(Reached(run + more[..i]), more[i], goal);
    }
  }

  /** What was clear once is clear later exactly when everything inserted since is closed and settled again. */
  lemma ClearMeans(run: seq<Action>, more: seq<Action>, goal: Goal)
    requires Feasible(run + more) && Clear(Reached(run), goal)
    ensures Clear(Reached(run + more), goal) <==> InsertionsGone(run, more, goal)
  {
    var now := Reached(run + more);
    RunKeeps(run + more);
    ClearLasts(run, more, goal);
    if Clear(now, goal) {
      ClearOfInsertions(run, more, goal);
    }
    if InsertionsGone(run, more, goal) {
      forall h | h in now.history && Matches(goal, now.history[h]) ensures Gone(now, h) {
        ClearButForInsertions(run, more, goal, h);
      }
      GoneIsClear(now, goal);
    }
  }

  /**
   From the moment `close_binding_barrier` decides for Ok, through its return and ever after, what
   existed of the binding is neither live nor admitted, and what is live or admitted of it came
   later. So the binding is clear exactly when every generation inserted since is closed again.
   */
  lemma BarrierLasts(run: seq<Action>, t: TaskId, b: BindingId, more: seq<Action>)
    requires Feasible(run + [Await(t, CheckPending)] + more)
    requires InClose(Reached(run), t) && Reached(run).tasks[t].goal == ByBinding(b)
    requires var s := Reached(run + [Await(t, CheckPending)]); InClose(s, t) && s.tasks[t].phase == Leaving(true)
    ensures var decided := run + [Await(t, CheckPending)];
            && AllGone(Reached(decided), Reached(decided + more), ByBinding(b))
            && OnlyNew(Reached(decided), Reached(decided + more), ByBinding(b))
            && (Clear(Reached(decided + more), ByBinding(b)) <==> InsertionsGone(decided, more, ByBinding(b)))
  {
    Earlier(run + [Await(t, CheckPending)], more);
    CloseBarrier(run, t, b);
    ClearLasts(run + [Await(t, CheckPending)], more, ByBinding(b));
    ClearMeans(run + [Await(t, CheckPending)], more, ByBinding(b));
  }

  /**
   From the moment `stop_run` has seen everything it closed settle: what existed of its run stays
   gone, and the run is clear, at return or at any other time, exactly when every generation of it
   inserted since is closed and settled again.
   */
  lemma StopLasts(run: seq<Action>, t: TaskId, key: RunKey, more: seq<Action>)
    requires Feasible(run + more) && Drained(Reached(run), t) && Reached(run).tasks[t].goal == ByRun(key)
    ensures AllGone(Reached(run), Reached(run + more), ByRun(key))
    ensures OnlyNew(Reached(run), Reached(run + more), ByRun(key))
    ensures Clear(Reached(run + more), ByRun(key)) <==> InsertionsGone(run, more, ByRun(key))
  {
    Earlier(run, more);
    CloseDrained(run, t);
    ClearLasts(run, more, ByRun(key));
    ClearMeans(run, more, ByRun(key));
  }

  /** In particular if nobody attaches for the run behind its back. */
  lemma UndisturbedStop(run: seq<Action>, t: TaskId, key: RunKey, more: seq<Action>)
    requires Feasible(run + more) && Drained(Reached(run), t) && Reached(run).tasks[t].goal == ByRun(key)
    requires forall i :: 0 <= i < |more| ==> !InsertsFor(Reached(run + more[..i]), more[i], ByRun(key))
    ensures Clear(Reached(run + more), ByRun(key))
  {
    StopLasts(run, t, key, more);
  }

  // ---------------------------------------------------------------------------
  // Cleanup of a closed binding
  // ---------------------------------------------------------------------------

  predicate NoneOf(queue: seq<Generation>, b: BindingId) {
    forall i :: 0 <= i < |queue| ==> queue[i].selection.bindingId != b
  }

  /** Nothing of the binding is live, being drained, or waiting for cleanup. */
  ghost predicate CleanedUp(s: State, b: BindingId) {
    && NoneLive(s.shared, ByBinding(b)) && b !in s.shared.pending
    && forall t :: t in s.tasks && s.tasks[t].Closing? && s.tasks[t].phase.Drain? ==> NoneOf(s.tasks[t].phase.queue, b)
  }

  lemma AttachCleanedUp(s: State, t: TaskId, a: AttachAction, b: BindingId)
    requires AttachEnabled(s, t, a) && CleanedUp(s, b) && !InsertsFor(s, Attach(t, a), ByBinding(b))
    ensures CleanedUp(AttachApply(s, t, a), b)
  {
  }

  lemma PermitCleanedUp(s: State, t: TaskId, a: PermitAction, b: BindingId)
    requires PermitEnabled(s, t, a) && CleanedUp(s, b)
    ensures CleanedUp(PermitApply(s, t, a), b)
  {
  }

  lemma CloseCleanedUp(s: State, t: TaskId, a: CloseAction, b: BindingId)
    requires CloseEnabled(s, t, a) && CleanedUp(s, b)
    ensures CleanedUp(CloseApply(s, t, a), b)
  {
  }

  lemma AwaitCleanedUp(s: State, t: TaskId, a: BarrierAction, b: BindingId)
    requires BarrierEnabled(s, t, a) && CleanedUp(s, b)
    ensures CleanedUp(BarrierApply(s, t, a), b)
  {
  }

  lemma StopCleanedUp(s: State, t: TaskId, a: StopAction, b: BindingId)
    requires StopEnabled(s, t, a) && CleanedUp(s, b)
    ensures CleanedUp(StopApply(s, t, a), b)
  {
  }

  lemma StepCleanedUp(s: State, a: Action, b: BindingId)
    requires Enabled(s, a) && CleanedUp(s, b) && !InsertsFor(s, a, ByBinding(b))
    ensures CleanedUp(Apply(s, a), b)
  {
    match a
    case Attach(t, x) => AttachCleanedUp(s, t, x, b);
    case Permit(t, x) => PermitCleanedUp(s, t, x, b);
    case Close(t, x) => CloseCleanedUp(s, t, x, b);
    case Await(t, x) => AwaitCleanedUp(s, t, x, b);
    case Stop(t, x) => StopCleanedUp(s, t, x, b);
    case _ =>
  }

  lemma {:induction false} StaysCleanedUp(run: seq<Action>, more: seq<Action>, b: BindingId, k: nat)
    requires Feasible(run + more) && CleanedUp(Reached(run), b) && k <= |more|
    requires forall i :: 0 <= i < |more| ==> !InsertsFor(Reached(run + more[..i]), more[i], ByBinding(b))
    ensures CleanedUp(Reached(run + more[..k]), b)
  {
    if k == 0 {
      assert run + more[..0] == run;
    } else {
      StaysCleanedUp(run, more, b, k - 1);
      CutAt(run, more, k - 1);
      Extend(run + more[..k - 1], more[k - 1]);
      StepCleanedUp(Reached(run + more[..k - 1]), more[k - 1], b);
    }
  }

  /** Until somebody attaches for the binding again, it also stays out of pending cleanup. */
  lemma BarrierCleans(run: seq<Action>, t: TaskId, b: BindingId, more: seq<Action>)
    requires Feasible(run + [Await(t, CheckPending)] + more)
    requires InClose(Reached(run), t) && Reached(run).tasks[t].goal == ByBinding(b)
    requires var s := Reached(run + [Await(t, CheckPending)]); InClose(s, t) && s.tasks[t].phase == Leaving(true)
    requires forall i :: 0 <= i < |more| ==>
               !InsertsFor(Reached(run + [Await(t, CheckPending)] + more[..i]), more[i], ByBinding(b))
    ensures var s := Reached(run + [Await(t, CheckPending)] + more); CleanedUp(s, b) && Clear(s, ByBinding(b))
  {
    var decided := run + [Await(t, CheckPending)];
    Earlier(decided, more);
    DecidedCleans(run, t, b);
    StaysCleanedUp(decided, more, b, |more|);
    assert more[..|more|] == more;
    BarrierLasts(run, t, b, more);
  }

  lemma DecidedCleans(run: seq<Action>, t: TaskId, b: BindingId)
    requires Feasible(run + [Await(t, CheckPending)])
    requires InClose(Reached(run), t) && Reached(run).tasks[t].goal == ByBinding(b)
    requires var s := Reached(run + [Await(t, CheckPending)]); InClose(s, t) && s.tasks[t].phase == Leaving(true)
    ensures CleanedUp(Reached(run + [Await(t, CheckPending)]), b)
  {
    CloseBarrier(run, t, b);
    RunKeeps(run + [Await(t, CheckPending)]);
    DecidedAlone(Reached(run + [Await(t, CheckPending)]), t, b);
  }

  lemma DecidedAlone(s: State, t: TaskId, b: BindingId)
    requires LockInv(s) && InClose(s, t) && s.tasks[t].phase.Leaving?
    requires NoneLive(s.shared, ByBinding(b)) && b !in s.shared.pending
    ensures CleanedUp(s, b)
  {
    assert s.closeHolder == Some(t);
  }

  /** The last step of `stop_run` leaves no activation of its run. */
  lemma StopForgets(run: seq<Action>, t: TaskId, key: RunKey)
    requires Feasible(run + [Stop(t, Next)]) && t in Reached(run).tasks && Reached(run).tasks[t] == Resting(key, [])
    ensures var s := Reached(run + [Stop(t, Next)]);
            t !in s.tasks && forall k :: k in s.shared.activationIds ==> !InRun(k, key)
  {
    Extend(run, Stop(t, Next));
  }
}
