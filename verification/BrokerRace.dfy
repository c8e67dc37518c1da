/**
 Attaches that overtake a close. `stop_run` returns Ok while a generation of its run is live, and
 `close_binding_barrier` while a generation of its binding is: what they promise of the moment they
 return does not hold, only what was there when they decided stays closed.
 */
module BrokerRace {
  import opened Basics
  import opened BindingRecords
  import opened BrokerModel
  import opened BrokerInvariant

  /** The run can be taken, and ends in `s`. */
  ghost predicate Gets(run: seq<Action>, s: State) {
    Feasible(run) && Reached(run) == s
  }

  lemma One(run: seq<Action>, s: State, a: Action, s': State)
    requires Gets(run, s) && Enabled(s, a) && |s.admissions| < U64_MAX && Apply(s, a) == s'
    ensures Gets(run + [a], s')
  {
    assert (run + [a])[..|run|] == run;
  }

  /** Nobody is attaching, and nothing stands in the way of this attach. */
  ghost predicate MayAttach(s: State, u: TaskId, h: Handle, sel: Selection, act: Activation, prov: Provider) {
    && u !in s.tasks && s.attachHolder.None? && h !in s.shared.issued && s.shared.nextGeneration <= U64_MAX
    && WellPinned(act, sel, prov) && ActivationCurrent(s.shared, act) && !AlreadyAttached(s.shared, sel, act, prov)
    && |s.admissions| < U64_MAX
  }

  function AttachActions(u: TaskId, h: Handle, sel: Selection, act: Activation, prov: Provider): seq<Action> {
    [Attach(u, BeginAttach(sel, act, prov)), Attach(u, LockAttach), Attach(u, CheckActivation),
     Attach(u, FindExisting), Attach(u, Insert(h)), Attach(u, FinishAttach)]
  }

  function Inserted(s: State, h: Handle, sel: Selection, act: Activation, prov: Provider): State
    requires s.shared.nextGeneration <= U64_MAX
  {
    s.(shared := InsertGeneration(s.shared, h, sel, act, prov),
       history := s.history[h := NewGeneration(s.shared, h, sel, act, prov)])
  }

  /** The state with the attach at the given point, holding its lock. */
  function Midway(s: State, u: TaskId, sel: Selection, act: Activation, prov: Provider, p: AttachPhase): State {
    s.(attachHolder := Some(u), tasks := s.tasks[u := Attaching(sel, act, prov, p)])
  }

  lemma AttachLocks(run: seq<Action>, s: State, u: TaskId, h: Handle, sel: Selection, act: Activation, prov: Provider)
    requires Gets(run, s) && MayAttach(s, u, h, sel, act, prov)
    ensures Gets(run + [Attach(u, BeginAttach(sel, act, prov))] + [Attach(u, LockAttach)], Midway(s, u, sel, act, prov, Locked))
  {
    var s1, s2 := Goto(s, u, Attaching(sel, act, prov, Queued)), Midway(s, u, sel, act, prov, Locked);
    One(run, s, Attach(u, BeginAttach(sel, act, prov)), s1);
    assert AttachApply(s1, u, LockAttach) == s2;
    One(run + [Attach(u, BeginAttach(sel, act, prov))], s1, Attach(u, LockAttach), s2);
  }

  lemma AttachChecks(run: seq<Action>, s: State, u: TaskId, h: Handle, sel: Selection, act: Activation, prov: Provider)
    requires MayAttach(s, u, h, sel, act, prov) && Gets(run, Midway(s, u, sel, act, prov, Locked))
    ensures Gets(run + [Attach(u, CheckActivation)] + [Attach(u, FindExisting)], Midway(s, u, sel, act, prov, Minting))
  {
    var s1, s2, s3 := Midway(s, u, sel, act, prov, Locked), Midway(s, u, sel, act, prov, Checked),
                      Midway(s, u, sel, act, prov, Minting);
    CheckPasses(s, u, h, sel, act, prov);
    One(run, s1, Attach(u, CheckActivation), s2);
    FindPasses(s, u, h, sel, act, prov);
    One(run + [Attach(u, CheckActivation)], s2, Attach(u, FindExisting), s3);
  }

  lemma CheckPasses(s: State, u: TaskId, h: Handle, sel: Selection, act: Activation, prov: Provider)
    requires MayAttach(s, u, h, sel, act, prov)
    ensures AttachApply(Midway(s, u, sel, act, prov, Locked), u, CheckActivation) == Midway(s, u, sel, act, prov, Checked)
  {
  }

  lemma FindPasses(s: State, u: TaskId, h: Handle, sel: Selection, act: Activation, prov: Provider)
    requires MayAttach(s, u, h, sel, act, prov)
    ensures AttachApply(Midway(s, u, sel, act, prov, Checked), u, FindExisting) == Midway(s, u, sel, act, prov, Minting)
  {
  }

  lemma InsertLands(s: State, u: TaskId, h: Handle, sel: Selection, act: Activation, prov: Provider)
    requires MayAttach(s, u, h, sel, act, prov)
    ensures AttachApply(Midway(s, u, sel, act, prov, Minting), u, Insert(h))
            == Midway(Inserted(s, h, sel, act, prov), u, sel, act, prov, Announcing(h))
  {
  }

  lemma FinishLeaves(s: State, u: TaskId, h: Handle, sel: Selection, act: Activation, prov: Provider)
    requires u !in s.tasks && s.attachHolder.None?
    ensures AttachApply(Midway(s, u, sel, act, prov, Announcing(h)), u, FinishAttach) == s
  {
    assert Midway(s, u, sel, act, prov, Announcing(h)).tasks - {u} == s.tasks;
  }

  lemma AttachInserts(run: seq<Action>, s: State, u: TaskId, h: Handle, sel: Selection, act: Activation, prov: Provider)
    requires MayAttach(s, u, h, sel, act, prov) && Gets(run, Midway(s, u, sel, act, prov, Minting))
    ensures Gets(run + [Attach(u, Insert(h))] + [Attach(u, FinishAttach)], Inserted(s, h, sel, act, prov))
  {
    var s1, s3 := Midway(s, u, sel, act, prov, Minting), Inserted(s, h, sel, act, prov);
    var s2 := Midway(s3, u, sel, act, prov, Announcing(h));
    InsertLands(s, u, h, sel, act, prov);
    One(run, s1, Attach(u, Insert(h)), s2);
    FinishLeaves(s3, u, h, sel, act, prov);
    One(run + [Attach(u, Insert(h))], s2, Attach(u, FinishAttach), s3);
  }

  /** An attach nobody interferes with ends with its generation live and everything else as it was. */
  lemma AttachRuns(run: seq<Action>, s: State, u: TaskId, h: Handle, sel: Selection, act: Activation, prov: Provider)
    requires Gets(run, s) && MayAttach(s, u, h, sel, act, prov)
    ensures Gets(run + AttachActions(u, h, sel, act, prov), Inserted(s, h, sel, act, prov))
  {
    var r1 := run + [Attach(u, BeginAttach(sel, act, prov))] + [Attach(u, LockAttach)];
    var r2 := r1 + [Attach(u, CheckActivation)] + [Attach(u, FindExisting)];
    AttachLocks(run, s, u, h, sel, act, prov);
    AttachChecks(r1, s, u, h, sel, act, prov);
    AttachInserts(r2, s, u, h, sel, act, prov);
    AttachInOrder(run, u, h, sel, act, prov);
  }

  lemma AttachInOrder(run: seq<Action>, u: TaskId, h: Handle, sel: Selection, act: Activation, prov: Provider)
    ensures run + AttachActions(u, h, sel, act, prov) ==
            run + [Attach(u, BeginAttach(sel, act, prov))] + [Attach(u, LockAttach)] + [Attach(u, CheckActivation)]
              + [Attach(u, FindExisting)] + [Attach(u, Insert(h))] + [Attach(u, FinishAttach)]
  {
  }

  lemma StopReturns(run: seq<Action>, s: State, t: TaskId, key: RunKey)
    requires Gets(run, s) && t in s.tasks && s.tasks[t] == Controlling(key) && |s.admissions| < U64_MAX
    ensures Gets(run + [Stop(t, Control(Some([])))], Goto(s, t, Resting(key, [])))
    ensures Gets(run + [Stop(t, Control(Some([])))] + [Stop(t, Next)], Leave(s, t).(shared := DropRunActivations(s.shared, key)))
  {
    var s1, s2 := Goto(s, t, Resting(key, [])), Leave(s, t).(shared := DropRunActivations(s.shared, key));
    One(run, s, Stop(t, Control(Some([]))), s1);
    assert s1.tasks - {t} == s.tasks - {t};
    One(run + [Stop(t, Control(Some([])))], s1, Stop(t, Next), s2);
  }

  /**
   Wherever `stop_run` has closed its run and is waiting for Powerbox control, an attach of a
   component that is still registered can get in: `stop_run` then returns Ok over a live generation.
   */
  lemma StopOvertaken(run: seq<Action>, t: TaskId, key: RunKey, u: TaskId, h: Handle, sel: Selection, act: Activation,
                      prov: Provider)
    requires Feasible(run) && t in Reached(run).tasks && Reached(run).tasks[t] == Controlling(key)
    requires InRun(KeyOf(act), key) && MayAttach(Reached(run), u, h, sel, act, prov)
    ensures var r := run + AttachActions(u, h, sel, act, prov) + [Stop(t, Control(Some([])))];
            && Feasible(r + [Stop(t, Next)]) && t in Reached(r).tasks && Reached(r).tasks[t] == Resting(key, [])
            && var s := Reached(r + [Stop(t, Next)]);
               t !in s.tasks && h in s.shared.live && Matches(ByRun(key), s.shared.live[h])
  {
    var s, r := Reached(run), run + AttachActions(u, h, sel, act, prov);
    AttachRuns(run, s, u, h, sel, act, prov);
    StopReturns(r, Inserted(s, h, sel, act, prov), t, key);
  }

  /**
   Once `close_binding_barrier` has decided it gives up `attach_serial` first. An attach for the
   binding can get in before the call returns.
   */
  lemma BarrierOvertaken(run: seq<Action>, t: TaskId, b: BindingId, u: TaskId, h: Handle, sel: Selection, act: Activation,
                         prov: Provider)
    requires Feasible(run) && t in Reached(run).tasks && Reached(run).tasks[t] == Closing(ByBinding(b), Return, Leaving(true))
    requires sel.bindingId == b && MayAttach(Reached(run), u, h, sel, act, prov)
    ensures var r := run + AttachActions(u, h, sel, act, prov);
            && Feasible(r + [Await(t, Exit)])
            && t in Reached(r).tasks && Reached(r).tasks[t] == Closing(ByBinding(b), Return, Leaving(true))
            && var s := Reached(r + [Await(t, Exit)]);
               t !in s.tasks && h in s.shared.live && Matches(ByBinding(b), s.shared.live[h])
  {
    var s, r := Reached(run), run + AttachActions(u, h, sel, act, prov);
    AttachRuns(run, s, u, h, sel, act, prov);
    var s1 := Inserted(s, h, sel, act, prov);
    One(r, s1, Await(t, Exit), Leave(s1.(closeHolder := None), t));
  }

  // ---------------------------------------------------------------------------
  // A permit granted after its generation was removed
  // ---------------------------------------------------------------------------

  /** The generation is live and being recorded as invoked by `u`; nobody closes, and `c` is free to. */
  ghost predicate MayCloseUnder(s: State, u: TaskId, adm: AdmissionId, c: TaskId) {
    && u in s.tasks && s.tasks[u] == Recording(adm) && adm in s.admissions && s.admissions[adm].handle in s.shared.live
    && (forall k :: k in s.shared.live ==> s.shared.live[k].handle == k)
    && c !in s.tasks && s.attachHolder.None? && s.closeHolder.None? && |s.admissions| < U64_MAX
  }

  /** The state with the closer of a generation at the given point, holding what it holds there. */
  function Closes(s: State, c: TaskId, h: Handle, p: ClosePhase): State {
    s.(closeHolder := if p.WantClose? then None else Some(c),
       attachHolder := if p.WantClose? || p.WantAttach? then None else Some(c),
       tasks := s.tasks[c := Closing(ByHandle(h), Return, p)])
  }

  lemma CloserBegins(run: seq<Action>, s: State, u: TaskId, adm: AdmissionId, c: TaskId)
    requires Gets(run, s) && MayCloseUnder(s, u, adm, c)
    ensures Gets(run + [Close(c, BeginClose(ByHandle(s.admissions[adm].handle)))] + [Close(c, LockClose)],
                 Closes(s, c, s.admissions[adm].handle, WantAttach))
  {
    var h := s.admissions[adm].handle;
    var s1, s2 := Closes(s, c, h, WantClose), Closes(s, c, h, WantAttach);
    assert CloseApply(s, c, BeginClose(ByHandle(h))) == s1;
    One(run, s, Close(c, BeginClose(ByHandle(h))), s1);
    assert CloseApply(s1, c, LockClose) == s2;
    One(run + [Close(c, BeginClose(ByHandle(h)))], s1, Close(c, LockClose), s2);
  }

  lemma OneToClose(s: State, u: TaskId, adm: AdmissionId, c: TaskId)
    requires MayCloseUnder(s, u, adm, c)
    ensures var h := s.admissions[adm].handle;
            && MatchingHandles(s.shared, ByHandle(h)) == {h}
            && IsClosedQueue(s.shared, ByHandle(h), [s.shared.live[h].(open := false)])
  {
    var h := s.admissions[adm].handle;
    assert MatchingHandles(s.shared, ByHandle(h)) == {h};
    assert [s.shared.live[h].(open := false)][0].handle == h;
  }

  lemma CloserRemoves(run: seq<Action>, s: State, u: TaskId, adm: AdmissionId, c: TaskId) returns (r: seq<Action>, s': State)
    requires MayCloseUnder(s, u, adm, c) && Gets(run, Closes(s, c, s.admissions[adm].handle, WantAttach))
    ensures Gets(r, s') && s'.admissions == s.admissions && u in s'.tasks && s'.tasks[u] == Recording(adm)
    ensures s.admissions[adm].handle !in s'.shared.live
  {
    var h := s.admissions[adm].handle;
    var s1, s2 := Closes(s, c, h, WantAttach), Closes(s, c, h, Ready);
    var queue := [s.shared.live[h].(open := false)];
    assert CloseApply(s1, c, LockBoth) == s2;
    One(run, s1, Close(c, LockBoth), s2);
    OneToClose(s, u, adm, c);
    s' := DoRemove(s2, c, queue);
    One(run + [Close(c, LockBoth)], s2, Close(c, Remove(queue)), s');
    r := run + [Close(c, LockBoth)] + [Close(c, Remove(queue))];
  }

  /** While an invocation is being recorded its generation can be removed; the permit is granted all the same. */
  lemma GrantOvertaken(run: seq<Action>, u: TaskId, adm: AdmissionId, c: TaskId) returns (r: seq<Action>)
    requires Feasible(run) && MayCloseUnder(Reached(run), u, adm, c)
    ensures Feasible(r + [Permit(u, Grant)]) && u in Reached(r).tasks && Reached(r).tasks[u] == Recording(adm)
    ensures adm in Reached(r).admissions && Reached(r).admissions[adm].handle !in Reached(r).shared.live
    ensures var s := Reached(r + [Permit(u, Grant)]);
            adm in s.admissions && s.admissions[adm].owner.None? && s.admissions[adm].handle !in s.shared.live
  {
    var s := Reached(run);
    var h := s.admissions[adm].handle;
    CloserBegins(run, s, u, adm, c);
    var s1;
    r, s1 := CloserRemoves(run + [Close(c, BeginClose(ByHandle(h)))] + [Close(c, LockClose)], s, u, adm, c);
    One(r, s1, Permit(u, Grant), DoGrant(s1, u, adm));
  }

  // ---------------------------------------------------------------------------
  // One such run of each, from the start
  // ---------------------------------------------------------------------------

  const COMPONENT := ComponentPin("package", "component", ["node"], "artifact", "behavior", "class")
  const ENDPOINT := EndpointPin("installation", None, "port", COMPONENT)
  const SELECTION := Selection("binding", "exposure", ENDPOINT, ENDPOINT, "capability", "1", "")
  const ACTIVATION := Activation("act", "installation", "run", 1, "session", "package", "component", ["node"], "port")
  const PROVIDER := Provider("package", "component", "artifact", "behavior", "class", "capability", "1", "")
  const RUN := RunKey("installation", "run", "session")

  lemma RequestIsValid()
    ensures WellPinned(ACTIVATION, SELECTION, PROVIDER) && CompleteKey(KeyOf(ACTIVATION)) && InRun(KeyOf(ACTIVATION), RUN)
    ensures !Blank("act")
  {
    var act := ACTIVATION;
    assert act.activationId == "act" && act.activationId[0] == 'a' && act.packageId[0] == 'p' && act.componentId[0] == 'c' && act.sessionId[0] == 's';
  }

  /** A component is registered; nothing else, but for the given tasks and locks. */
  function Idle(tasks: map<TaskId, Pc>, attachHolder: Option<TaskId>, closeHolder: Option<TaskId>): State {
    State(Shared(0, map[KeyOf(ACTIVATION) := "act"], map[], {}, {}, {}, map[]), attachHolder, closeHolder, map[], map[], tasks)
  }

  function AtPhase(goal: Goal, after: After, p: ClosePhase): map<TaskId, Pc> {
    map[0 := Closing(goal, after, p)]
  }

  /** Task 0 stops the run, or closes the binding, with nothing there to close. */
  const STOPPING: Goal := ByRun(RUN)
  const CLOSING: Goal := ByBinding("binding")

  lemma Registered()
    ensures Gets([Register(KeyOf(ACTIVATION), "act")], Idle(map[], None, None))
  {
    RequestIsValid();
    assert Apply(INITIAL, Register(KeyOf(ACTIVATION), "act")) == Idle(map[], None, None);
    One([], INITIAL, Register(KeyOf(ACTIVATION), "act"), Idle(map[], None, None));
    assert [] + [Register(KeyOf(ACTIVATION), "act")] == [Register(KeyOf(ACTIVATION), "act")];
  }

  lemma Locks(run: seq<Action>, goal: Goal, after: After)
    requires Gets(run, Idle(AtPhase(goal, after, WantClose), None, None))
    ensures Gets(run + [Close(0, LockClose)] + [Close(0, LockBoth)], Idle(AtPhase(goal, after, Ready), Some(0), Some(0)))
  {
    var s1, s2 := Idle(AtPhase(goal, after, WantClose), None, None), Idle(AtPhase(goal, after, WantAttach), None, Some(0));
    var s3 := Idle(AtPhase(goal, after, Ready), Some(0), Some(0));
    assert CloseApply(s1, 0, LockClose) == s2;
    One(run, s1, Close(0, LockClose), s2);
    assert CloseApply(s2, 0, LockBoth) == s3;
    One(run + [Close(0, LockClose)], s2, Close(0, LockBoth), s3);
  }

  lemma Removes(run: seq<Action>, goal: Goal, after: After)
    requires Gets(run, Idle(AtPhase(goal, after, Ready), Some(0), Some(0)))
    ensures Gets(run + [Close(0, Remove([]))], Idle(AtPhase(goal, after, Drain([], false, Unarmed)), Some(0), Some(0)))
  {
    var s1, s2 := Idle(AtPhase(goal, after, Ready), Some(0), Some(0)),
                  Idle(AtPhase(goal, after, Drain([], false, Unarmed)), Some(0), Some(0));
    assert MatchingHandles(s1.shared, goal) == {};
    assert CloseMatching(s1.shared, goal) == s1.shared;
    assert CloseApply(s1, 0, Remove([])) == s2;
    One(run, s1, Close(0, Remove([])), s2);
  }

  /** Both locks taken and nothing found: the state from which either close goes on to its end. */
  lemma Drains(run: seq<Action>, goal: Goal, after: After) returns (r: seq<Action>)
    requires Gets(run, Idle(AtPhase(goal, after, WantClose), None, None))
    ensures Gets(r, Idle(AtPhase(goal, after, Drain([], false, Unarmed)), Some(0), Some(0)))
  {
    var r1 := run + [Close(0, LockClose)] + [Close(0, LockBoth)];
    Locks(run, goal, after);
    Removes(r1, goal, after);
    r := r1 + [Close(0, Remove([]))];
  }

  lemma StopOpens() returns (r: seq<Action>)
    ensures Gets(r, Idle(AtPhase(STOPPING, ThenControl(RUN), Drain([], false, Unarmed)), Some(0), Some(0)))
  {
    var s := Idle(map[], None, None);
    Registered();
    assert StopApply(s, 0, BeginStop(RUN)) == Idle(AtPhase(STOPPING, ThenControl(RUN), WantClose), None, None);
    One([Register(KeyOf(ACTIVATION), "act")], s, Stop(0, BeginStop(RUN)),
        Idle(AtPhase(STOPPING, ThenControl(RUN), WantClose), None, None));
    r := Drains([Register(KeyOf(ACTIVATION), "act")] + [Stop(0, BeginStop(RUN))], STOPPING, ThenControl(RUN));
  }

  lemma StopControls() returns (r: seq<Action>)
    ensures Gets(r, Idle(map[0 := Controlling(RUN)], None, None))
  {
    var r0 := StopOpens();
    var s1 := Idle(AtPhase(STOPPING, ThenControl(RUN), Drain([], false, Unarmed)), Some(0), Some(0));
    var s2 := Idle(AtPhase(STOPPING, ThenControl(RUN), Leaving(true)), None, Some(0));
    var s3 := Idle(map[0 := Controlling(RUN)], None, None);
    assert CloseApply(s1, 0, Finish) == s2;
    One(r0, s1, Close(0, Finish), s2);
    assert BarrierApply(s2, 0, Exit) == s3;
    One(r0 + [Close(0, Finish)], s2, Await(0, Exit), s3);
    r := r0 + [Close(0, Finish)] + [Await(0, Exit)];
  }

  /** `stop_run` returns Ok and a generation of its run is live. */
  lemma StopLeavesOneLive() returns (run: seq<Action>)
    ensures Feasible(run + [Stop(0, Next)]) && 0 in Reached(run).tasks && Reached(run).tasks[0] == Resting(RUN, [])
    ensures var s := Reached(run + [Stop(0, Next)]); 0 !in s.tasks && !NoneLive(s.shared, ByRun(RUN))
  {
    var r := StopControls();
    RequestIsValid();
    StopOvertaken(r, 0, RUN, 1, 0, SELECTION, ACTIVATION, PROVIDER);
    run := r + AttachActions(1, 0, SELECTION, ACTIVATION, PROVIDER) + [Stop(0, Control(Some([])))];
  }

  lemma BarrierOpens() returns (r: seq<Action>)
    ensures Gets(r, Idle(AtPhase(CLOSING, Return, Barrier(PendingRead)), Some(0), Some(0)))
  {
    var s := Idle(map[], None, None);
    Registered();
    assert CloseApply(s, 0, BeginClose(CLOSING)) == Idle(AtPhase(CLOSING, Return, WantClose), None, None);
    One([Register(KeyOf(ACTIVATION), "act")], s, Close(0, BeginClose(CLOSING)), Idle(AtPhase(CLOSING, Return, WantClose), None, None));
    var r0 := Drains([Register(KeyOf(ACTIVATION), "act")] + [Close(0, BeginClose(CLOSING))], CLOSING, Return);
    var s1 := Idle(AtPhase(CLOSING, Return, Drain([], false, Unarmed)), Some(0), Some(0));
    var s2 := Idle(AtPhase(CLOSING, Return, Barrier(PendingRead)), Some(0), Some(0));
    assert CloseApply(s1, 0, Finish) == s2;
    One(r0, s1, Close(0, Finish), s2);
    r := r0 + [Close(0, Finish)];
  }

  lemma BarrierChecks() returns (r: seq<Action>)
    ensures Gets(r, Idle(AtPhase(CLOSING, Return, Barrier(PendingCheck)), Some(0), Some(0)))
  {
    var r0 := BarrierOpens();
    var s1 := Idle(AtPhase(CLOSING, Return, Barrier(PendingRead)), Some(0), Some(0));
    var s2 := Idle(AtPhase(CLOSING, Return, Barrier(LiveCheck)), Some(0), Some(0));
    var s3 := Idle(AtPhase(CLOSING, Return, Barrier(PendingCheck)), Some(0), Some(0));
    assert BarrierApply(s1, 0, ReadPending) == s2;
    One(r0, s1, Await(0, ReadPending), s2);
    assert BarrierApply(s2, 0, CheckLive) == s3;
    One(r0 + [Await(0, ReadPending)], s2, Await(0, CheckLive), s3);
    r := r0 + [Await(0, ReadPending)] + [Await(0, CheckLive)];
  }

  lemma BarrierDecides() returns (r: seq<Action>)
    ensures Gets(r + [Await(0, CheckPending)], Idle(AtPhase(CLOSING, Return, Leaving(true)), None, Some(0)))
  {
    r := BarrierChecks();
    var s1 := Idle(AtPhase(CLOSING, Return, Barrier(PendingCheck)), Some(0), Some(0));
    var s2 := Idle(AtPhase(CLOSING, Return, Leaving(true)), None, Some(0));
    assert BarrierApply(s1, 0, CheckPending) == s2;
    One(r, s1, Await(0, CheckPending), s2);
  }

  /** `close_binding_barrier` returns Ok and a generation of its binding is live. */
  lemma BarrierLeavesOneLive() returns (run: seq<Action>)
    ensures Feasible(run + [Await(0, Exit)]) && 0 in Reached(run).tasks
    ensures Reached(run).tasks[0] == Closing(ByBinding("binding"), Return, Leaving(true))
    ensures var s := Reached(run + [Await(0, Exit)]); 0 !in s.tasks && !NoneLive(s.shared, ByBinding("binding"))
  {
    var r := BarrierDecides();
    RequestIsValid();
    BarrierOvertaken(r + [Await(0, CheckPending)], 0, "binding", 1, 0, SELECTION, ACTIVATION, PROVIDER);
    run := r + [Await(0, CheckPending)] + AttachActions(1, 0, SELECTION, ACTIVATION, PROVIDER);
  }

  /** A component has its generation, and an invocation of it is being recorded. */
  lemma Invokes() returns (r: seq<Action>)
    ensures Feasible(r) && MayCloseUnder(Reached(r), 2, 0, 3)
  {
    var s0 := Idle(map[], None, None);
    Registered();
    RequestIsValid();
    AttachRuns([Register(KeyOf(ACTIVATION), "act")], s0, 1, 0, SELECTION, ACTIVATION, PROVIDER);
    var r0 := [Register(KeyOf(ACTIVATION), "act")] + AttachActions(1, 0, SELECTION, ACTIVATION, PROVIDER);
    r := Invoked(r0, Inserted(s0, 0, SELECTION, ACTIVATION, PROVIDER));
  }

  /** One generation is attached and nothing else goes on. */
  ghost predicate OneAttached(s: State) {
    && s.tasks == map[] && s.attachHolder.None? && s.closeHolder.None? && s.admissions == map[]
    && s.shared.live.Keys == {0} && s.shared.live[0].handle == 0 && s.shared.live[0].open
    && s.shared.live[0].activation == ACTIVATION
    && 0 in s.shared.gates && s.shared.gates[0] == Gate(true, 0, 0)
  }

  lemma LooksUp(run: seq<Action>, s: State) returns (s1: State)
    requires Gets(run, s) && OneAttached(s)
    ensures s1 == s.(tasks := map[2 := Preparing(s.shared.live[0], ACTIVATION)])
    ensures Gets(run + [Permit(2, Lookup(0, ACTIVATION))], s1)
  {
    RequestIsValid();
    s1 := Goto(s, 2, Preparing(s.shared.live[0], ACTIVATION));
    One(run, s, Permit(2, Lookup(0, ACTIVATION)), s1);
  }

  lemma Admits(run: seq<Action>, s: State) returns (s1: State)
    requires s.tasks == map[] && OneAttached(s) && Gets(run, s.(tasks := map[2 := Preparing(s.shared.live[0], ACTIVATION)]))
    ensures Gets(run + [Permit(2, AdmitCall(0))], s1) && MayCloseUnder(s1, 2, 0, 3)
  {
    var s0 := s.(tasks := map[2 := Preparing(s.shared.live[0], ACTIVATION)]);
    s1 := DoAdmit(s0, 2, 0);
    One(run, s0, Permit(2, AdmitCall(0)), s1);
    assert |s1.admissions| == 1;
  }

  lemma Invoked(run: seq<Action>, s: State) returns (r: seq<Action>)
    requires Gets(run, s) && OneAttached(s)
    ensures Feasible(r) && MayCloseUnder(Reached(r), 2, 0, 3)
  {
    var s1 := LooksUp(run, s);
    var s2 := Admits(run + [Permit(2, Lookup(0, ACTIVATION))], s);
    r := run + [Permit(2, Lookup(0, ACTIVATION))] + [Permit(2, AdmitCall(0))];
  }

  /** A permit is granted on a generation that is no longer live. */
  lemma PermitComesLate() returns (run: seq<Action>)
    ensures Feasible(run + [Permit(2, Grant)]) && 2 in Reached(run).tasks && Reached(run).tasks[2] == Recording(0)
    ensures 0 in Reached(run).admissions && Reached(run).admissions[0].handle !in Reached(run).shared.live
    ensures var s := Reached(run + [Permit(2, Grant)]);
            0 in s.admissions && s.admissions[0].owner.None? && s.admissions[0].handle !in s.shared.live
  {
    var r := Invokes();
    run := GrantOvertaken(r, 2, 0, 3);
  }
}
