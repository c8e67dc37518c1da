/**
 Who can attach for what was closed. A goal that is clear stays clear as long as no registered
 activation can be attached for it and no attach for it is past the check of its activation.
 */
module BrokerReopening {
  import opened BindingRecords
  import opened BrokerModel
  import opened BrokerInvariant
  import opened BrokerTheorems
  import opened BrokerLasting

  /** The selections attaches are made with. A binding id stands for one selection record; `ANY` assumes nothing. */
  type Selections = Selection -> bool

  const ANY: Selections := (sel: Selection) => true

  function Only(sel: Selection): Selections {
    (other: Selection) => other == sel
  }

  /** The goal selects what this attach creates. A handle selects nothing new: handles are not issued twice. */
  predicate Concerns(goal: Goal, sel: Selection, act: Activation) {
    match goal
    case ByHandle(_) => false
    case ByBinding(b) => sel.bindingId == b
    case ByExposure(e) => sel.exposureId == e
    case ByProviderRun(r) => sel.provider.run.Some? && sel.provider.run.value.runId == r
    case ByConsumerRun(r) => act.runId == r
    case ByRun(run) => InRun(KeyOf(act), run)
  }

  /** An attach the goal concerns, with a selection it may be made with, that passes the checks on its arguments. */
  predicate Asks(goal: Goal, sels: Selections, sel: Selection, act: Activation, prov: Provider) {
    sels(sel) && WellPinned(act, sel, prov) && Concerns(goal, sel, act)
  }

  /** The component with this key could be attached for the goal. */
  ghost predicate Usable(goal: Goal, sels: Selections, k: ActivationKey) {
    exists sel, act, prov :: Asks(goal, sels, sel, act, prov) && KeyOf(act) == k
  }

  /** Past the check of its activation and not yet in the table. */
  predicate Committed(pc: Pc) {
    pc.Attaching? && (pc.attach.Checked? || pc.attach.Minting?)
  }

  /** Nothing registered could be attached for the goal, and no attach for it is past the check. */
  ghost predicate Still(s: State, goal: Goal, sels: Selections) {
    && (forall k :: k in s.shared.activationIds ==> !Usable(goal, sels, k))
    && (forall t :: t in s.tasks && Committed(s.tasks[t]) ==> !Concerns(goal, s.tasks[t].selection, s.tasks[t].activation))
  }

  /** Attaches under way for the goal have one of the selections. */
  ghost predicate Declared(s: State, goal: Goal, sels: Selections) {
    forall t :: t in s.tasks && s.tasks[t].Attaching? && Concerns(goal, s.tasks[t].selection, s.tasks[t].activation) ==>
      sels(s.tasks[t].selection)
  }

  /** Nothing usable is registered, and attaches for the goal are made with the selections only. */
  ghost predicate Expected(a: Action, goal: Goal, sels: Selections) {
    && (a.Register? ==> !Usable(goal, sels, a.key))
    && (a.Attach? && a.attach.BeginAttach? && Concerns(goal, a.attach.selection, a.attach.activation) ==>
          sels(a.attach.selection))
  }

  ghost predicate AllExpected(more: seq<Action>, goal: Goal, sels: Selections) {
    forall i :: 0 <= i < |more| ==> Expected(more[i], goal, sels)
  }

  // ---------------------------------------------------------------------------
  // Standing still
  // ---------------------------------------------------------------------------

  /** No attach moved and nothing was registered. */
  ghost predicate NobodyAttached(s: State, s': State) {
    && s'.shared.activationIds.Keys <= s.shared.activationIds.Keys
    && forall t :: t in s'.tasks && s'.tasks[t].Attaching? ==> t in s.tasks && s.tasks[t] == s'.tasks[t]
  }

  lemma NobodyStill(s: State, s': State, goal: Goal, sels: Selections)
    requires NobodyAttached(s, s') && Still(s, goal, sels) && Declared(s, goal, sels)
    ensures Still(s', goal, sels) && Declared(s', goal, sels)
  {
  }

  lemma PermitNobody(s: State, t: TaskId, a: PermitAction)
    requires PermitEnabled(s, t, a)
    ensures NobodyAttached(s, PermitApply(s, t, a))
  {
  }

  lemma CloseNobody(s: State, t: TaskId, a: CloseAction)
    requires CloseEnabled(s, t, a)
    ensures NobodyAttached(s, CloseApply(s, t, a))
  {
  }

  lemma AwaitNobody(s: State, t: TaskId, a: BarrierAction)
    requires BarrierEnabled(s, t, a)
    ensures NobodyAttached(s, BarrierApply(s, t, a))
  {
  }

  lemma StopNobody(s: State, t: TaskId, a: StopAction)
    requires StopEnabled(s, t, a)
    ensures NobodyAttached(s, StopApply(s, t, a))
  {
  }

  /** The check of the activation stops every attach the goal concerns. */
  lemma CheckStill(s: State, t: TaskId, goal: Goal, sels: Selections)
    requires InAttach(s, t) && PinInv(s) && Declared(s, goal, sels)
    requires Concerns(goal, s.tasks[t].selection, s.tasks[t].activation)
    ensures Usable(goal, sels, KeyOf(s.tasks[t].activation))
  {
    var pc := s.tasks[t];
    assert Asks(goal, sels, pc.selection, pc.activation, pc.provider);
  }

  /** One task moved; if it is attaching it is not past its check for the goal, and has one of the selections. */
  ghost predicate MovesStill(s: State, s': State, t: TaskId, goal: Goal, sels: Selections) {
    && OthersSame(s, s', t) && s'.shared.activationIds == s.shared.activationIds
    && (t in s'.tasks && s'.tasks[t].Attaching? && Concerns(goal, s'.tasks[t].selection, s'.tasks[t].activation) ==>
          sels(s'.tasks[t].selection) && !Committed(s'.tasks[t]))
  }

  lemma MoveStill(s: State, s': State, t: TaskId, goal: Goal, sels: Selections)
    requires MovesStill(s, s', t, goal, sels) && Still(s, goal, sels) && Declared(s, goal, sels)
    ensures Still(s', goal, sels) && Declared(s', goal, sels)
  {
  }

  lemma AttachMovesStill(s: State, t: TaskId, a: AttachAction, goal: Goal, sels: Selections)
    requires AttachEnabled(s, t, a) && Still(s, goal, sels) && Declared(s, goal, sels)
    requires Expected(Attach(t, a), goal, sels)
    requires a.CheckActivation? && Concerns(goal, s.tasks[t].selection, s.tasks[t].activation) ==>
               !ActivationCurrent(s.shared, s.tasks[t].activation)
    ensures MovesStill(s, AttachApply(s, t, a), t, goal, sels)
  {
  }

  lemma AttachStill(s: State, t: TaskId, a: AttachAction, goal: Goal, sels: Selections)
    requires AttachEnabled(s, t, a) && PinInv(s) && Still(s, goal, sels) && Declared(s, goal, sels)
    requires Expected(Attach(t, a), goal, sels)
    ensures Still(AttachApply(s, t, a), goal, sels) && Declared(AttachApply(s, t, a), goal, sels)
  {
    if a.CheckActivation? && Concerns(goal, s.tasks[t].selection, s.tasks[t].activation) {
      CheckStill(s, t, goal, sels);
    }
    AttachMovesStill(s, t, a, goal, sels);
    MoveStill(s, AttachApply(s, t, a), t, goal, sels);
  }

  lemma InsertStill(s: State, a: Action, goal: Goal, sels: Selections)
    requires Enabled(s, a) && Still(s, goal, sels) && !goal.ByHandle?
    ensures !InsertsFor(s, a, goal)
  {
    if a.Attach? && a.attach.Insert? {
      assert Committed(s.tasks[a.t]);
    }
  }

  lemma StepStill(s: State, a: Action, goal: Goal, sels: Selections)
    requires Enabled(s, a) && PinInv(s) && Still(s, goal, sels) && Declared(s, goal, sels) && Expected(a, goal, sels)
    ensures Still(Apply(s, a), goal, sels) && Declared(Apply(s, a), goal, sels)
  {
    match a
    case Attach(t, x) => AttachStill(s, t, x, goal, sels);
    case Permit(t, x) => PermitNobody(s, t, x); NobodyStill(s, Apply(s, a), goal, sels);
    case Close(t, x) => CloseNobody(s, t, x); NobodyStill(s, Apply(s, a), goal, sels);
    case Await(t, x) => AwaitNobody(s, t, x); NobodyStill(s, Apply(s, a), goal, sels);
    case Stop(t, x) => StopNobody(s, t, x); NobodyStill(s, Apply(s, a), goal, sels);
    case Register(key, _) =>
    case RetryDetached(_) => NobodyStill(s, Apply(s, a), goal, sels);
    case RetryStopped(_) => NobodyStill(s, Apply(s, a), goal, sels);
  }

  lemma {:induction false} StaysStill(run: seq<Action>, more: seq<Action>, goal: Goal, sels: Selections, k: nat)
    requires Feasible(run + more) && k <= |more| && AllExpected(more, goal, sels)
    requires Still(Reached(run), goal, sels) && Declared(Reached(run), goal, sels)
    ensures Still(Reached(run + more[..k]), goal, sels) && Declared(Reached(run + more[..k]), goal, sels)
  {
    if k == 0 {
      assert run + more[..0] == run;
    } else {
      StaysStill(run, more, goal, sels, k - 1);
      CutAt(run, more, k - 1);
      RunStepStill(run + more[..k - 1], more[k - 1], goal, sels);
    }
  }

  lemma RunStepStill(run: seq<Action>, a: Action, goal: Goal, sels: Selections)
    requires Feasible(run + [a]) && Expected(a, goal, sels)
    requires Still(Reached(run), goal, sels) && Declared(Reached(run), goal, sels)
    ensures Still(Reached(run + [a]), goal, sels) && Declared(Reached(run + [a]), goal, sels)
  {
    Extend(run, a);
    RunKeeps(run);
    StepStill(Reached(run), a, goal, sels);
  }

  /** What is clear and still is clear in every continuation in which nothing usable is registered. */
  lemma StillStaysClear(run: seq<Action>, more: seq<Action>, goal: Goal, sels: Selections)
    requires Feasible(run + more) && !goal.ByHandle? && AllExpected(more, goal, sels)
    requires Clear(Reached(run), goal) && Still(Reached(run), goal, sels) && Declared(Reached(run), goal, sels)
    ensures Clear(Reached(run + more), goal)
  {
    forall i | 0 <= i < |more| ensures !InsertsFor(Reached(run + more[..i]), more[i], goal) {
      StaysStill(run, more, goal, sels, i);
      CutAt(run, more, i);
      Extend(run + more[..i], more[i]);
      InsertStill(Reached(run + more[..i]), more[i], goal, sels);
    }
    ClearMeans(run, more, goal);
  }
}
