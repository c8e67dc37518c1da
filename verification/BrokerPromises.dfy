/**
 What `stop_run` and `close_binding_barrier` promise of the time after them, and exactly when they
 keep it. The condition is on the state in which they decide, and is the one attach itself tests:
 whether a component that could be attached is still registered.
 */
module BrokerPromises {
  import opened Basics
  import opened BindingRecords
  import opened BrokerModel
  import opened BrokerInvariant
  import opened BrokerTheorems
  import opened BrokerProgress
  import opened BrokerLasting
  import opened BrokerRace
  import opened BrokerReopening
  import opened BrokerFreeing

  // ---------------------------------------------------------------------------
  // What is not still can be opened again
  // ---------------------------------------------------------------------------

  lemma ConcernsMeans(goal: Goal, g: Generation)
    requires !goal.ByHandle?
    ensures Matches(goal, g) <==> Concerns(goal, g.selection, g.activation)
  {
  }

  ghost predicate WaitersSame(s: State, s': State) {
    forall t :: t in s.tasks && Waits(s.tasks[t]) ==> t in s'.tasks && s'.tasks[t] == s.tasks[t]
  }

  ghost predicate ExpectedFrom(run: seq<Action>, n: nat, goal: Goal, sels: Selections) {
    forall i :: n <= i < |run| ==> Expected(run[i], goal, sels)
  }

  /** `run'` continues `run` with nothing unexpected, and something of the goal is live. */
  ghost predicate Reopens(run: seq<Action>, run': seq<Action>, goal: Goal, sels: Selections) {
    && run <= run' && Going(run') && ExpectedFrom(run', |run|, goal, sels)
    && !NoneLive(Reached(run').shared, goal) && WaitersSame(Reached(run), Reached(run'))
  }

  lemma OnwardExpected(run: seq<Action>, run': seq<Action>, goal: Goal, sels: Selections)
    requires Onward(run, run')
    ensures ExpectedFrom(run', |run|, goal, sels) && WaitersSame(Reached(run), Reached(run'))
  {
    forall i | |run| <= i < |run'| ensures Expected(run'[i], goal, sels) {
      assert Tame(run'[i]);
    }
  }

  lemma ReopensLater(run: seq<Action>, run1: seq<Action>, run': seq<Action>, goal: Goal, sels: Selections)
    requires Onward(run, run1) && Reopens(run1, run', goal, sels)
    ensures Reopens(run, run', goal, sels)
  {
    OnwardExpected(run, run1, goal, sels);
    forall i | |run| <= i < |run'| ensures Expected(run'[i], goal, sels) {
      assert i < |run1| ==> run'[i] == run1[i];
    }
  }

  /** An attach for the goal that is about to insert does. */
  lemma InsertReopens(run: seq<Action>, t: TaskId, goal: Goal, sels: Selections) returns (run': seq<Action>)
    requires Going(run) && !goal.ByHandle? && InAttach(Reached(run), t) && Reached(run).tasks[t].attach.Minting?
    requires Concerns(goal, Reached(run).tasks[t].selection, Reached(run).tasks[t].activation)
    ensures Reopens(run, run', goal, sels)
  {
    var s := Reached(run);
    var h := Fresh(run);
    run' := Go(run, Attach(t, Insert(h)), DoInsert(s, t, h));
    ConcernsMeans(goal, Reached(run').shared.live[h]);
    assert h in Reached(run').shared.live;
    OnwardExpected(run, run', goal, sels);
  }

  lemma NotAttachedYet(s: State, t: TaskId, goal: Goal)
    requires InAttach(s, t) && !goal.ByHandle? && NoneLive(s.shared, goal)
    requires Concerns(goal, s.tasks[t].selection, s.tasks[t].activation)
    ensures !AlreadyAttached(s.shared, s.tasks[t].selection, s.tasks[t].activation, s.tasks[t].provider)
  {
    forall h | h in s.shared.live
      ensures !Attached(s.shared.live[h], s.tasks[t].selection, s.tasks[t].activation, s.tasks[t].provider)
    {
      ConcernsMeans(goal, s.shared.live[h]);
    }
  }

  lemma CommittedReopens(run: seq<Action>, t: TaskId, goal: Goal, sels: Selections) returns (run': seq<Action>)
    requires Going(run) && !goal.ByHandle? && NoneLive(Reached(run).shared, goal)
    requires t in Reached(run).tasks && Committed(Reached(run).tasks[t])
    requires Concerns(goal, Reached(run).tasks[t].selection, Reached(run).tasks[t].activation)
    ensures Reopens(run, run', goal, sels)
  {
    var s := Reached(run);
    if s.tasks[t].attach.Minting? {
      run' := InsertReopens(run, t, goal, sels);
    } else {
      NotAttachedYet(s, t, goal);
      var run1 := Go(run, Attach(t, FindExisting), SetAttach(s, t, Minting));
      run' := InsertReopens(run1, t, goal, sels);
      ReopensLater(run, run1, run', goal, sels);
    }
  }

  /** The activation attach accepts for a registered key. */
  function Current(s: State, act: Activation): Activation
    requires KeyOf(act) in s.shared.activationIds
  {
    act.(activationId := s.shared.activationIds[KeyOf(act)])
  }

  lemma CurrentAsks(s: State, goal: Goal, sels: Selections, sel: Selection, act: Activation, prov: Provider)
    requires KeyInv(s) && KeyOf(act) in s.shared.activationIds && Asks(goal, sels, sel, act, prov)
    ensures Asks(goal, sels, sel, Current(s, act), prov) && ActivationCurrent(s.shared, Current(s, act))
  {
    assert KeyOf(Current(s, act)) == KeyOf(act);
  }

  lemma MayAttachFor(run: seq<Action>, goal: Goal, sels: Selections, sel: Selection, act: Activation, prov: Provider)
    returns (u: TaskId, h: Handle)
    requires Going(run) && Reached(run).attachHolder.None? && !goal.ByHandle? && NoneLive(Reached(run).shared, goal)
    requires Asks(goal, sels, sel, act, prov) && ActivationCurrent(Reached(run).shared, act)
    ensures MayAttach(Reached(run), u, h, sel, act, prov)
  {
    var s := Reached(run);
    h := Fresh(run);
    u := UnusedHandle(s.tasks.Keys);
    forall k | k in s.shared.live ensures !Attached(s.shared.live[k], sel, act, prov) {
      ConcernsMeans(goal, s.shared.live[k]);
    }
  }

  lemma AttachExpected(run: seq<Action>, u: TaskId, h: Handle, sel: Selection, act: Activation, prov: Provider, goal: Goal,
                       sels: Selections)
    requires sels(sel)
    ensures ExpectedFrom(run + AttachActions(u, h, sel, act, prov), |run|, goal, sels)
  {
    var acts := AttachActions(u, h, sel, act, prov);
    forall i | |run| <= i < |run + acts| ensures Expected((run + acts)[i], goal, sels) {
      assert (run + acts)[i] == acts[i - |run|];
    }
  }

  lemma InsertedIsLive(s: State, h: Handle, sel: Selection, act: Activation, prov: Provider, goal: Goal)
    requires s.shared.nextGeneration <= U64_MAX && !goal.ByHandle? && Concerns(goal, sel, act)
    ensures !NoneLive(Inserted(s, h, sel, act, prov).shared, goal)
  {
    var live := Inserted(s, h, sel, act, prov).shared.live;
    ConcernsMeans(goal, live[h]);
    assert h in live && Matches(goal, live[h]);
  }

  lemma InsertedReopens(run: seq<Action>, u: TaskId, h: Handle, sel: Selection, act: Activation, prov: Provider, goal: Goal,
                        sels: Selections)
    requires Going(run) && !goal.ByHandle? && Asks(goal, sels, sel, act, prov) && MayAttach(Reached(run), u, h, sel, act, prov)
    ensures Reopens(run, run + AttachActions(u, h, sel, act, prov), goal, sels)
  {
    AttachRuns(run, Reached(run), u, h, sel, act, prov);
    AttachExpected(run, u, h, sel, act, prov, goal, sels);
    InsertedIsLive(Reached(run), h, sel, act, prov, goal);
  }

  /** With the lock free, a usable component that is registered is attached. */
  lemma UsableReopens(run: seq<Action>, k: ActivationKey, goal: Goal, sels: Selections) returns (run': seq<Action>)
    requires Going(run) && Reached(run).attachHolder.None? && !goal.ByHandle? && NoneLive(Reached(run).shared, goal)
    requires k in Reached(run).shared.activationIds && Usable(goal, sels, k)
    ensures Reopens(run, run', goal, sels)
  {
    var sel, act, prov :| Asks(goal, sels, sel, act, prov) && KeyOf(act) == k;
    RunKeepsKeys(run);
    CurrentAsks(Reached(run), goal, sels, sel, act, prov);
    var now := Current(Reached(run), act);
    var u, h := MayAttachFor(run, goal, sels, sel, now, prov);
    InsertedReopens(run, u, h, sel, now, prov, goal, sels);
    run' := run + AttachActions(u, h, sel, now, prov);
  }

  lemma RegisteredReopens(run: seq<Action>, k: ActivationKey, goal: Goal, sels: Selections) returns (run': seq<Action>)
    requires Going(run) && !goal.ByHandle?
    requires k in Reached(run).shared.activationIds && Usable(goal, sels, k)
    ensures Reopens(run, run', goal, sels)
  {
    var run1 := AttachLockCanBeFreed(run);
    if NoneLive(Reached(run1).shared, goal) {
      run' := UsableReopens(run1, k, goal, sels);
      ReopensLater(run, run1, run', goal, sels);
    } else {
      run' := run1;
      OnwardExpected(run, run1, goal, sels);
    }
  }

  lemma Reopened(run: seq<Action>, goal: Goal, sels: Selections) returns (run': seq<Action>)
    requires Going(run) && !goal.ByHandle? && NoneLive(Reached(run).shared, goal) && !Still(Reached(run), goal, sels)
    ensures Reopens(run, run', goal, sels)
  {
    var s := Reached(run);
    if k :| k in s.shared.activationIds && Usable(goal, sels, k) {
      run' := RegisteredReopens(run, k, goal, sels);
    } else {
      var t :| t in s.tasks && Committed(s.tasks[t]) && Concerns(goal, s.tasks[t].selection, s.tasks[t].activation);
      run' := CommittedReopens(run, t, goal, sels);
    }
  }

  /** Clear in every continuation in which nothing usable is registered. */
  ghost predicate StaysClear(run: seq<Action>, goal: Goal, sels: Selections) {
    forall more :: Feasible(run + more) && AllExpected(more, goal, sels) ==> Clear(Reached(run + more), goal)
  }

  lemma Tail(run: seq<Action>, run': seq<Action>, goal: Goal, sels: Selections) returns (more: seq<Action>)
    requires run <= run' && ExpectedFrom(run', |run|, goal, sels)
    ensures run' == run + more && AllExpected(more, goal, sels)
  {
    more := run'[|run|..];
    forall i | 0 <= i < |more| ensures Expected(more[i], goal, sels) {
      assert more[i] == run'[|run| + i];
    }
  }

  /**
   What any close has left clear stays so for good exactly when no registered component could be
   attached for it and no attach for it is past the check of its activation.
   */
  lemma ClosedForGood(run: seq<Action>, goal: Goal, sels: Selections)
    requires Going(run) && !goal.ByHandle? && Clear(Reached(run), goal) && Declared(Reached(run), goal, sels)
    ensures StaysClear(run, goal, sels) <==> Still(Reached(run), goal, sels)
  {
    if Still(Reached(run), goal, sels) {
      forall more | Feasible(run + more) && AllExpected(more, goal, sels) ensures Clear(Reached(run + more), goal) {
        StillStaysClear(run, more, goal, sels);
      }
    } else {
      var run' := Reopened(run, goal, sels);
      var more := Tail(run, run', goal, sels);
    }
  }

  // ---------------------------------------------------------------------------
  // What is usable, in so many words
  // ---------------------------------------------------------------------------

  /** The component with this key is the consumer the selection pins. */
  predicate Fits(k: ActivationKey, sel: Selection) {
    && k.installationId == sel.consumer.installationId
    && (sel.consumer.run.Some? ==>
          && sel.consumer.run.value.runId == k.runId
          && sel.consumer.run.value.runRevision > 0
          && sel.consumer.run.value.contextId == k.sessionId)
    && k.packageId == sel.consumer.component.packageId
    && k.componentId == sel.consumer.component.componentId
    && k.nodePath == sel.consumer.component.nodePath
  }

  function ActivationFor(k: ActivationKey, sel: Selection): Activation {
    Activation("id", k.installationId, k.runId, if sel.consumer.run.Some? then sel.consumer.run.value.runRevision else 1,
               k.sessionId, k.packageId, k.componentId, k.nodePath, sel.consumer.rootPort)
  }

  function ProviderFor(sel: Selection): Provider {
    var c := sel.provider.component;
    Provider(c.packageId, c.componentId, c.artifactDigest, c.behaviorDigest, c.trustClass, sel.capabilityId,
             sel.capabilityVersion, "")
  }

  lemma FitsIsPinned(k: ActivationKey, sel: Selection)
    requires CompleteKey(k) && Fits(k, sel)
    ensures WellPinned(ActivationFor(k, sel), sel, ProviderFor(sel)) && KeyOf(ActivationFor(k, sel)) == k
  {
    assert "id"[0] == 'i' && !IsWhitespace('i');
  }

  lemma PinnedFits(act: Activation, sel: Selection, prov: Provider)
    requires WellPinned(act, sel, prov)
    ensures Fits(KeyOf(act), sel)
  {
  }

  /** For a binding with one selection: the components that fit it. */
  lemma UsableForSelection(k: ActivationKey, sel: Selection)
    requires CompleteKey(k)
    ensures Usable(ByBinding(sel.bindingId), Only(sel), k) <==> Fits(k, sel)
  {
    var goal, sels := ByBinding(sel.bindingId), Only(sel);
    if Fits(k, sel) {
      FitsIsPinned(k, sel);
      assert Asks(goal, sels, sel, ActivationFor(k, sel), ProviderFor(sel));
    }
    if Usable(goal, sels, k) {
      var other, act, prov :| Asks(goal, sels, other, act, prov) && KeyOf(act) == k;
      PinnedFits(act, sel, prov);
    }
  }

  /** Some selection of the binding fits every component. */
  function SelectionFor(b: BindingId, k: ActivationKey): Selection {
    var pin := EndpointPin(k.installationId, None, "", ComponentPin(k.packageId, k.componentId, k.nodePath, "", "", ""));
    Selection(b, "", pin, pin, "", "", "")
  }

  lemma UsableForBinding(k: ActivationKey, b: BindingId)
    requires CompleteKey(k)
    ensures Usable(ByBinding(b), ANY, k)
  {
    var sel := SelectionFor(b, k);
    FitsIsPinned(k, sel);
    assert Asks(ByBinding(b), ANY, sel, ActivationFor(k, sel), ProviderFor(sel));
  }

  /** For a run: its components. */
  lemma UsableForRun(k: ActivationKey, key: RunKey)
    requires CompleteKey(k)
    ensures Usable(ByRun(key), ANY, k) <==> InRun(k, key)
  {
    if InRun(k, key) {
      var sel := SelectionFor("", k);
      FitsIsPinned(k, sel);
      assert Asks(ByRun(key), ANY, sel, ActivationFor(k, sel), ProviderFor(sel));
    }
  }

  // ---------------------------------------------------------------------------
  // stop_run
  // ---------------------------------------------------------------------------

  ghost predicate NoneRegistered(s: State, key: RunKey) {
    forall k :: k in s.shared.activationIds ==> !InRun(k, key)
  }

  /** No component of the run is registered, and no attach for it is past the check that asks for one. */
  ghost predicate Quiet(s: State, key: RunKey) {
    && NoneRegistered(s, key)
    && forall t :: t in s.tasks && Committed(s.tasks[t]) ==> !InRun(KeyOf(s.tasks[t].activation), key)
  }

  lemma QuietIsStill(s: State, key: RunKey)
    requires KeyInv(s)
    ensures Still(s, ByRun(key), ANY) <==> Quiet(s, key)
  {
    forall k | k in s.shared.activationIds ensures Usable(ByRun(key), ANY, k) <==> InRun(k, key) {
      UsableForRun(k, key);
    }
  }

  /** A run that is clear stays clear, until one of its components is registered, exactly when it is quiet. */
  lemma StoppedForGood(run: seq<Action>, key: RunKey)
    requires Going(run) && Clear(Reached(run), ByRun(key))
    ensures StaysClear(run, ByRun(key), ANY) <==> Quiet(Reached(run), key)
  {
    RunKeepsKeys(run);
    QuietIsStill(Reached(run), key);
    ClosedForGood(run, ByRun(key), ANY);
  }

  predicate AboutToStop(s: State, t: TaskId, key: RunKey) {
    t in s.tasks && s.tasks[t] == Resting(key, [])
  }

  /** Whenever `stop_run` returns Ok, its run is clear. */
  ghost predicate StopKeepsPromise(run: seq<Action>, t: TaskId, key: RunKey) {
    forall more :: Feasible(run + more + [Stop(t, Next)]) && AllExpected(more, ByRun(key), ANY) ==>
      AboutToStop(Reached(run + more), t, key) ==>
        Clear(Reached(run + more + [Stop(t, Next)]), ByRun(key))
  }

  /** A continuation in which `stop_run` returns Ok and its run is not clear. */
  ghost predicate BreaksStop(run: seq<Action>, more: seq<Action>, t: TaskId, key: RunKey) {
    && Feasible(run + more + [Stop(t, Next)]) && AllExpected(more, ByRun(key), ANY)
    && AboutToStop(Reached(run + more), t, key) && !Clear(Reached(run + more + [Stop(t, Next)]), ByRun(key))
  }

  lemma BreaksLater(run: seq<Action>, most: seq<Action>, rest: seq<Action>, t: TaskId, key: RunKey)
    requires AllExpected(most, ByRun(key), ANY) && BreaksStop(run + most, rest, t, key)
    ensures BreaksStop(run, most + rest, t, key)
  {
    assert run + (most + rest) == run + most + rest;
  }

  /** `stop_run` has seen everything it closed settle, and nothing failed. */
  predicate StopDrained(s: State, t: TaskId, key: RunKey) {
    && t in s.tasks && s.tasks[t].Closing? && s.tasks[t].goal == ByRun(key) && s.tasks[t].after == ThenControl(key)
    && s.tasks[t].phase.Drain? && s.tasks[t].phase.queue == [] && !s.tasks[t].phase.failed
  }

  lemma NobodyCommitted(s: State, t: TaskId)
    requires LockInv(s) && (s.attachHolder == Some(t) || s.attachHolder.None?) && (t in s.tasks ==> !s.tasks[t].Attaching?)
    ensures forall u :: u in s.tasks ==> !Committed(s.tasks[u])
  {
    assert forall u :: u in s.tasks && Committed(s.tasks[u]) ==> HoldsAttach(s.tasks[u]);
  }

  lemma DrainedIsQuiet(run: seq<Action>, t: TaskId, key: RunKey)
    requires Feasible(run) && StopDrained(Reached(run), t, key)
    ensures Clear(Reached(run), ByRun(key)) && (Quiet(Reached(run), key) <==> NoneRegistered(Reached(run), key))
  {
    CloseDrained(run, t);
    RunKeeps(run);
    assert HoldsAttach(Reached(run).tasks[t]);
    NobodyCommitted(Reached(run), t);
  }

  /** The close is over: on to Powerbox control. */
  lemma Controls(run: seq<Action>, t: TaskId, key: RunKey) returns (run': seq<Action>)
    requires Going(run) && StopDrained(Reached(run), t, key)
    ensures run <= run' && Going(run') && ExpectedFrom(run', |run|, ByRun(key), ANY)
    ensures var s, s' := Reached(run), Reached(run');
            && t in s'.tasks && s'.tasks[t] == Controlling(key)
            && s'.shared == s.shared && s'.admissions == s.admissions && s'.history == s.history
  {
    var s := Reached(run);
    var s1 := Verdict(s, t, true);
    assert CloseApply(s, t, Finish) == s1;
    One(run, s, Close(t, Finish), s1);
    var s2 := Goto(s1.(closeHolder := None), t, Controlling(key));
    assert BarrierApply(s1, t, Exit) == s2;
    One(run + [Close(t, Finish)], s1, Await(t, Exit), s2);
    run' := run + [Close(t, Finish)] + [Await(t, Exit)];
  }

  lemma StopBreaksPromise(run: seq<Action>, t: TaskId, key: RunKey) returns (more: seq<Action>)
    requires Going(run) && t in Reached(run).tasks && Reached(run).tasks[t] == Controlling(key)
    requires NoneLive(Reached(run).shared, ByRun(key)) && !Still(Reached(run), ByRun(key), ANY)
    ensures BreaksStop(run, more, t, key)
  {
    var run1 := Reopened(run, ByRun(key), ANY);
    var most := Tail(run, run1, ByRun(key), ANY);
    StopReturns(run1, Reached(run1), t, key);
    more := most + [Stop(t, Control(Some([])))];
    assert run + more == run1 + [Stop(t, Control(Some([])))];
  }

  lemma StillThere(run: seq<Action>, run': seq<Action>, key: RunKey)
    requires Feasible(run) && Feasible(run') && Reached(run').shared == Reached(run).shared && !NoneRegistered(Reached(run), key)
    ensures !Still(Reached(run'), ByRun(key), ANY)
  {
    RunKeepsKeys(run');
    QuietIsStill(Reached(run'), key);
  }

  lemma QuietKeepsPromise(run: seq<Action>, t: TaskId, key: RunKey)
    requires StaysClear(run, ByRun(key), ANY)
    ensures StopKeepsPromise(run, t, key)
  {
    forall more | Feasible(run + more + [Stop(t, Next)]) && AllExpected(more, ByRun(key), ANY)
      ensures Clear(Reached(run + more + [Stop(t, Next)]), ByRun(key))
    {
      var all := more + [Stop(t, Next)];
      assert run + all == run + more + [Stop(t, Next)];
      assert AllExpected(all, ByRun(key), ANY);
    }
  }

  lemma DrainedBreaksPromise(run: seq<Action>, t: TaskId, key: RunKey) returns (more: seq<Action>)
    requires Going(run) && StopDrained(Reached(run), t, key) && NoneLive(Reached(run).shared, ByRun(key))
    requires !NoneRegistered(Reached(run), key)
    ensures BreaksStop(run, more, t, key)
  {
    var run1 := Controls(run, t, key);
    StillThere(run, run1, key);
    var most := Tail(run, run1, ByRun(key), ANY);
    var rest := StopBreaksPromise(run1, t, key);
    BreaksLater(run, most, rest, t, key);
    more := most + rest;
  }

  /**
   From the moment its close is done: `stop_run` leaves its run clear, in every continuation in which
   it returns Ok, exactly when no component of the run was registered any more.
   */
  lemma StopPromise(run: seq<Action>, t: TaskId, key: RunKey)
    requires Going(run) && StopDrained(Reached(run), t, key)
    ensures StopKeepsPromise(run, t, key) <==> NoneRegistered(Reached(run), key)
  {
    DrainedIsQuiet(run, t, key);
    if NoneRegistered(Reached(run), key) {
      StoppedForGood(run, key);
      QuietKeepsPromise(run, t, key);
    } else {
      var more := DrainedBreaksPromise(run, t, key);
    }
  }

  // ---------------------------------------------------------------------------
  // close_binding_barrier
  // ---------------------------------------------------------------------------

  predicate AboutToReturn(s: State, t: TaskId, b: BindingId) {
    t in s.tasks && s.tasks[t].Closing? && s.tasks[t].goal == ByBinding(b) && s.tasks[t].phase == Leaving(true)
  }

  /** Whenever the call returns Ok, the binding is clear. */
  ghost predicate BarrierKeepsPromise(run: seq<Action>, t: TaskId, b: BindingId, sels: Selections) {
    forall more :: Feasible(run + more + [Await(t, Exit)]) && AllExpected(more, ByBinding(b), sels) ==>
      AboutToReturn(Reached(run + more), t, b) ==>
        Clear(Reached(run + more + [Await(t, Exit)]), ByBinding(b))
  }

  lemma BarrierBreaksPromise(run: seq<Action>, t: TaskId, b: BindingId, sels: Selections) returns (more: seq<Action>)
    requires Going(run) && AboutToReturn(Reached(run), t, b)
    requires NoneLive(Reached(run).shared, ByBinding(b)) && !Still(Reached(run), ByBinding(b), sels)
    ensures Feasible(run + more + [Await(t, Exit)]) && AllExpected(more, ByBinding(b), sels)
    ensures AboutToReturn(Reached(run + more), t, b) && !Clear(Reached(run + more + [Await(t, Exit)]), ByBinding(b))
  {
    var run1 := Reopened(run, ByBinding(b), sels);
    more := Tail(run, run1, ByBinding(b), sels);
    var s1 := Reached(run1);
    One(run1, s1, Await(t, Exit), DoExit(s1, t));
  }

  lemma BarrierPromiseMeans(run: seq<Action>, t: TaskId, b: BindingId, sels: Selections)
    requires Going(run) && AboutToReturn(Reached(run), t, b)
    requires Clear(Reached(run), ByBinding(b)) && Declared(Reached(run), ByBinding(b), sels)
    ensures BarrierKeepsPromise(run, t, b, sels) <==> Still(Reached(run), ByBinding(b), sels)
  {
    if Still(Reached(run), ByBinding(b), sels) {
      forall more | Feasible(run + more + [Await(t, Exit)]) && AllExpected(more, ByBinding(b), sels)
        ensures Clear(Reached(run + more + [Await(t, Exit)]), ByBinding(b))
      {
        assert run + (more + [Await(t, Exit)]) == run + more + [Await(t, Exit)];
        assert AllExpected(more + [Await(t, Exit)], ByBinding(b), sels);
        StillStaysClear(run, more + [Await(t, Exit)], ByBinding(b), sels);
      }
    } else {
      var more := BarrierBreaksPromise(run, t, b, sels);
    }
  }

  /** The barrier has just decided for Ok. */
  ghost predicate Decided(run: seq<Action>, t: TaskId, b: BindingId) {
    && Going(run + [Await(t, CheckPending)])
    && InClose(Reached(run), t) && Reached(run).tasks[t].goal == ByBinding(b)
    && InClose(Reached(run + [Await(t, CheckPending)]), t)
    && Reached(run + [Await(t, CheckPending)]).tasks[t].phase == Leaving(true)
  }

  lemma DecidedState(run: seq<Action>, t: TaskId, b: BindingId)
    requires Decided(run, t, b)
    ensures var s := Reached(run + [Await(t, CheckPending)]);
            && AboutToReturn(s, t, b) && Clear(s, ByBinding(b)) && KeyInv(s)
            && forall u :: u in s.tasks ==> !Committed(s.tasks[u])
  {
    var decided := run + [Await(t, CheckPending)];
    Extend(run, Await(t, CheckPending));
    CloseBarrier(run, t, b);
    RunKeepsKeys(decided);
    RunKeeps(decided);
    NobodyCommitted(Reached(decided), t);
  }

  /**
   From the moment it decides for Ok: `close_binding_barrier` leaves its binding clear, in every
   continuation in which it returns, exactly when no component fits the binding's selection.
   */
  lemma BarrierPromise(run: seq<Action>, t: TaskId, sel: Selection)
    requires Decided(run, t, sel.bindingId)
    requires Declared(Reached(run + [Await(t, CheckPending)]), ByBinding(sel.bindingId), Only(sel))
    ensures var decided := run + [Await(t, CheckPending)];
            BarrierKeepsPromise(decided, t, sel.bindingId, Only(sel)) <==>
            forall k :: k in Reached(decided).shared.activationIds ==> !Fits(k, sel)
  {
    var decided := run + [Await(t, CheckPending)];
    DecidedState(run, t, sel.bindingId);
    BarrierPromiseMeans(decided, t, sel.bindingId, Only(sel));
    forall k | k in Reached(decided).shared.activationIds
      ensures Usable(ByBinding(sel.bindingId), Only(sel), k) <==> Fits(k, sel)
    {
      UsableForSelection(k, sel);
    }
  }

  /** Where attaches may carry any selection: exactly when nothing at all is registered. */
  lemma BarrierPromiseAtLarge(run: seq<Action>, t: TaskId, b: BindingId)
    requires Decided(run, t, b)
    ensures var decided := run + [Await(t, CheckPending)];
            BarrierKeepsPromise(decided, t, b, ANY) <==> Reached(decided).shared.activationIds == map[]
  {
    var decided := run + [Await(t, CheckPending)];
    DecidedState(run, t, b);
    BarrierPromiseMeans(decided, t, b, ANY);
    forall k | k in Reached(decided).shared.activationIds ensures Usable(ByBinding(b), ANY, k) {
      UsableForBinding(k, b);
    }
    assert Reached(decided).shared.activationIds == map[] <==> forall k :: k !in Reached(decided).shared.activationIds;
  }
}
