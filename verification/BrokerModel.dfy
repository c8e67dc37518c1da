/**
 The Run binding broker as a state machine.

 One action is one region the source runs under a lock (`state`, a generation gate), one
 acquisition of `attach_serial` or `close_serial`, or one step of a `Notify`. Any number of
 tasks interleave. `PowerboxControl`, `HandleTable`, the capability fabric and the stream
 registry appear only through the outcomes an action may choose.

 `shared` is what the source stores. `history`, `admissions` and `tasks` record what it leaves
 implicit: every generation ever created, every outstanding admission, and where each task is.
 */
module BrokerModel {
  import opened Basics
  import opened BindingRecords

  type TaskId = nat
  type AdmissionId = nat

  /** `epoch` counts `notify_waiters` calls: a `Notified` future is woken by any later call. */
  datatype Gate = Gate(admissionOpen: bool, inFlight: nat, epoch: nat)

  datatype Shared = Shared(
    nextGeneration: nat,
    activationIds: map<ActivationKey, string>,
    live: map<Handle, Generation>,
    issued: set<Handle>,
    pending: set<BindingId>,
    pendingRuns: set<RunKey>,
    gates: map<Handle, Gate>)

  /** What one close call selects. */
  datatype Goal =
    | ByHandle(handle: Handle)
    | ByBinding(bindingId: BindingId)
    | ByExposure(exposureId: string)
    | ByProviderRun(providerRun: RunId)
    | ByConsumerRun(consumerRun: RunId)
    | ByRun(run: RunKey)

  predicate Matches(goal: Goal, g: Generation) {
    match goal
    case ByHandle(h) => g.handle == h
    case ByBinding(b) => g.selection.bindingId == b
    case ByExposure(e) => g.selection.exposureId == e
    case ByProviderRun(r) => g.selection.provider.run.Some? && g.selection.provider.run.value.runId == r
    case ByConsumerRun(r) => g.activation.runId == r
    case ByRun(run) => InRun(KeyOf(g.activation), run)
  }

  /** What a close call's caller does next: nothing, or a step of `stop_run`. */
  datatype After = Return | ThenControl(run: RunKey) | ThenRest(run: RunKey, rest: seq<BindingId>)

  datatype AttachPhase = Queued | Locked | Checked | Minting | Announcing(handle: Handle)

  /** Progress of `wait_settled` on the first generation of the queue. */
  datatype Wait = Unarmed | Armed(epoch: nat) | Asleep(epoch: nat) | Settled

  datatype BarrierCheck = PendingRead | PendingRetry | LiveCheck | PendingCheck

  datatype ClosePhase =
    | WantClose
    | WantAttach
    | Ready
    | Drain(queue: seq<Generation>, failed: bool, wait: Wait)
    | Barrier(check: BarrierCheck)
    | Leaving(ok: bool)

  /** Where a task is; a task that is not in `tasks` is outside the broker. */
  datatype Pc =
    | Attaching(selection: Selection, activation: Activation, provider: Provider, attach: AttachPhase)
    | Preparing(prepared: Generation, caller: Activation)
    | Recording(admission: AdmissionId)
    | Notifying(gate: Handle)
    | Closing(goal: Goal, after: After, phase: ClosePhase)
    | Controlling(run: RunKey)
    | Resting(run: RunKey, rest: seq<BindingId>)

  /** An outstanding admission: being recorded by `owner`, or granted as a permit. */
  datatype Admission = Admission(
    handle: Handle,
    bindingId: BindingId,
    generation: nat,
    provider: Provider,
    caller: Activation,
    owner: Option<TaskId>)

  datatype State = State(
    shared: Shared,
    attachHolder: Option<TaskId>,
    closeHolder: Option<TaskId>,
    history: map<Handle, Generation>,
    admissions: map<AdmissionId, Admission>,
    tasks: map<TaskId, Pc>)

  // ---------------------------------------------------------------------------
  // Regions: what the source does to its shared state under one lock
  // ---------------------------------------------------------------------------

  function RegisterActivation(sh: Shared, key: ActivationKey, freshId: string): Shared {
    if key in sh.activationIds then sh else sh.(activationIds := sh.activationIds[key := freshId])
  }

  predicate ActivationCurrent(sh: Shared, a: Activation) {
    KeyOf(a) in sh.activationIds && sh.activationIds[KeyOf(a)] == a.activationId
  }

  predicate Attached(g: Generation, sel: Selection, act: Activation, prov: Provider) {
    g.open && g.selection == sel && g.activation == act && SameProvider(g.provider, prov)
  }

  predicate AlreadyAttached(sh: Shared, sel: Selection, act: Activation, prov: Provider) {
    exists h :: h in sh.live && Attached(sh.live[h], sel, act, prov)
  }

  function NewGeneration(sh: Shared, h: Handle, sel: Selection, act: Activation, prov: Provider): Generation
    requires sh.nextGeneration <= U64_MAX
  {
    Generation(SaturatingInc(sh.nextGeneration), true, h, act, sel, prov)
  }

  function InsertGeneration(sh: Shared, h: Handle, sel: Selection, act: Activation, prov: Provider): Shared
    requires sh.nextGeneration <= U64_MAX
  {
    sh.(nextGeneration := SaturatingInc(sh.nextGeneration),
        live := sh.live[h := NewGeneration(sh, h, sel, act, prov)],
        issued := sh.issued + {h},
        gates := sh.gates[h := Gate(true, 0, 0)])
  }

  predicate Admissible(sh: Shared, prepared: Generation) {
    var h := prepared.handle;
    && h in sh.live
    && sh.live[h].open
    && sh.live[h].generation == prepared.generation
    && h in sh.gates
    && sh.gates[h].admissionOpen
  }

  function Admit(sh: Shared, h: Handle): Shared
    requires h in sh.gates && sh.gates[h].inFlight <= U64_MAX
  {
    sh.(gates := sh.gates[h := sh.gates[h].(inFlight := SaturatingInc(sh.gates[h].inFlight))])
  }

  function Release(sh: Shared, h: Handle): Shared
    requires h in sh.gates
  {
    sh.(gates := sh.gates[h := sh.gates[h].(inFlight := SaturatingDec(sh.gates[h].inFlight))])
  }

  function Notify(sh: Shared, h: Handle): Shared
    requires h in sh.gates
  {
    sh.(gates := sh.gates[h := sh.gates[h].(epoch := sh.gates[h].epoch + 1)])
  }

  function MatchingHandles(sh: Shared, goal: Goal): set<Handle> {
    set h | h in sh.live && Matches(goal, sh.live[h])
  }

  /** Unlink the given generations and shut their gates. */
  function CloseHandles(sh: Shared, hs: set<Handle>): Shared {
    sh.(live := sh.live - hs,
        gates := map h | h in sh.gates ::
          if h in hs then sh.gates[h].(admissionOpen := false) else sh.gates[h])
  }

  function CloseMatching(sh: Shared, goal: Goal): Shared {
    CloseHandles(sh, MatchingHandles(sh, goal))
  }

  /** The given generations, closed, once each, in some order. */
  predicate IsClosedList(sh: Shared, hs: set<Handle>, queue: seq<Generation>) {
    && |queue| == |hs|
    && (forall i :: 0 <= i < |queue| ==>
          && queue[i].handle in hs && queue[i].handle in sh.live
          && queue[i] == sh.live[queue[i].handle].(open := false))
    && (forall h :: h in hs ==> exists i :: 0 <= i < |queue| && queue[i].handle == h)
  }

  /** What `close_matching` returns; a hash map gives no order. */
  predicate IsClosedQueue(sh: Shared, goal: Goal, queue: seq<Generation>) {
    IsClosedList(sh, MatchingHandles(sh, goal), queue)
  }

  function DropRunActivations(sh: Shared, run: RunKey): Shared {
    sh.(activationIds := map k | k in sh.activationIds && !InRun(k, run) :: sh.activationIds[k])
  }

  // ---------------------------------------------------------------------------
  // Bookkeeping shared by the actions
  // ---------------------------------------------------------------------------

  function Goto(s: State, t: TaskId, pc: Pc): State {
    s.(tasks := s.tasks[t := pc])
  }

  function Leave(s: State, t: TaskId): State {
    s.(tasks := s.tasks - {t})
  }

  function UnlockAttach(s: State): State {
    s.(attachHolder := None)
  }

  predicate InAttach(s: State, t: TaskId) {
    t in s.tasks && s.tasks[t].Attaching?
  }

  predicate InClose(s: State, t: TaskId) {
    t in s.tasks && s.tasks[t].Closing?
  }

  function SetAttach(s: State, t: TaskId, p: AttachPhase): State
    requires InAttach(s, t)
  {
    Goto(s, t, s.tasks[t].(attach := p))
  }

  function SetPhase(s: State, t: TaskId, p: ClosePhase): State
    requires InClose(s, t)
  {
    Goto(s, t, s.tasks[t].(phase := p))
  }

  // ---------------------------------------------------------------------------
  // attach
  // ---------------------------------------------------------------------------

  datatype AttachAction =
    | BeginAttach(selection: Selection, activation: Activation, provider: Provider)
    | LockAttach
    | CheckActivation
    | AbortAttach
    | FindExisting
    | Insert(minted: Handle)
    | FinishAttach
    | UndoAttach

  predicate AttachEnabled(s: State, t: TaskId, a: AttachAction) {
    match a
    case BeginAttach(sel, act, prov) =>
      t !in s.tasks && ValidActivation(act) && ActivationMatches(act, sel) && ProviderMatches(prov, sel)
    case LockAttach => InAttach(s, t) && s.tasks[t].attach.Queued? && s.attachHolder.None?
    case CheckActivation => InAttach(s, t) && s.tasks[t].attach.Locked?
    case AbortAttach => InAttach(s, t) && s.tasks[t].attach.Checked?
    case FindExisting => InAttach(s, t) && s.tasks[t].attach.Checked?
    case Insert(minted) =>
      && InAttach(s, t) && s.tasks[t].attach.Minting?
      && minted !in s.shared.issued && s.shared.nextGeneration <= U64_MAX
    case FinishAttach => InAttach(s, t) && s.tasks[t].attach.Announcing?
    case UndoAttach => InAttach(s, t) && s.tasks[t].attach.Announcing?
  }

  /** The Host-issued activation identity must still be the caller's. */
  function DoCheckActivation(s: State, t: TaskId): State
    requires InAttach(s, t)
  {
    if ActivationCurrent(s.shared, s.tasks[t].activation)
    then SetAttach(s, t, Checked)
    else UnlockAttach(Leave(s, t))
  }

  /** An attachment that already exists is returned instead of making a second one. */
  function DoFindExisting(s: State, t: TaskId): State
    requires InAttach(s, t)
  {
    var pc := s.tasks[t];
    if AlreadyAttached(s.shared, pc.selection, pc.activation, pc.provider)
    then UnlockAttach(Leave(s, t))
    else SetAttach(s, t, Minting)
  }

  function DoInsert(s: State, t: TaskId, h: Handle): State
    requires InAttach(s, t) && s.shared.nextGeneration <= U64_MAX
  {
    var pc := s.tasks[t];
    SetAttach(s, t, Announcing(h)).(
    shared := InsertGeneration(s.shared, h, pc.selection, pc.activation, pc.provider),
    history := s.history[h := NewGeneration(s.shared, h, pc.selection, pc.activation, pc.provider)])
  }

  function AttachApply(s: State, t: TaskId, a: AttachAction): State
    requires AttachEnabled(s, t, a)
  {
    match a
    case BeginAttach(sel, act, prov) => Goto(s, t, Attaching(sel, act, prov, Queued))
    case LockAttach => SetAttach(s, t, Locked).(attachHolder := Some(t))
    case CheckActivation => DoCheckActivation(s, t)
    case AbortAttach => UnlockAttach(Leave(s, t))
    case FindExisting => DoFindExisting(s, t)
    case Insert(minted) => DoInsert(s, t, minted)
    case FinishAttach => UnlockAttach(Leave(s, t))
    case UndoAttach => UnlockAttach(Goto(s, t, Closing(ByHandle(s.tasks[t].attach.handle), Return, WantClose)))
  }

  // ---------------------------------------------------------------------------
  // validate_permit and permit drop
  // ---------------------------------------------------------------------------

  datatype PermitAction =
    | Lookup(handle: Handle, caller: Activation)
    | Reject
    | Break
    | AdmitCall(admission: AdmissionId)
    | Grant
    | Rollback
    | DropPermit(admission: AdmissionId)
    | NotifyWaiters

  predicate PermitEnabled(s: State, t: TaskId, a: PermitAction) {
    match a
    case Lookup(h, caller) =>
      && t !in s.tasks && ValidActivation(caller)
      && h in s.shared.live && s.shared.live[h].open && s.shared.live[h].activation == caller
    case Reject => t in s.tasks && s.tasks[t].Preparing?
    case Break => t in s.tasks && s.tasks[t].Preparing?
    case AdmitCall(adm) =>
      && t in s.tasks && s.tasks[t].Preparing?
      && adm !in s.admissions
      && Admissible(s.shared, s.tasks[t].prepared)
      && s.shared.gates[s.tasks[t].prepared.handle].inFlight <= U64_MAX
    case Grant => t in s.tasks && s.tasks[t].Recording? && s.tasks[t].admission in s.admissions
    case Rollback =>
      && t in s.tasks && s.tasks[t].Recording? && s.tasks[t].admission in s.admissions
      && s.admissions[s.tasks[t].admission].handle in s.shared.gates
    case DropPermit(adm) =>
      && t !in s.tasks && adm in s.admissions && s.admissions[adm].owner.None?
      && s.admissions[adm].handle in s.shared.gates
    case NotifyWaiters => t in s.tasks && s.tasks[t].Notifying? && s.tasks[t].gate in s.shared.gates
  }

  function DoAdmit(s: State, t: TaskId, adm: AdmissionId): State
    requires t in s.tasks && s.tasks[t].Preparing?
    requires s.tasks[t].prepared.handle in s.shared.gates
    requires s.shared.gates[s.tasks[t].prepared.handle].inFlight <= U64_MAX
  {
    var g := s.tasks[t].prepared;
    Goto(s, t, Recording(adm)).(
    shared := Admit(s.shared, g.handle),
    admissions := s.admissions[adm := Admission(g.handle, g.selection.bindingId, g.generation, g.provider,
                                                s.tasks[t].caller, Some(t))])
  }

  function DoGrant(s: State, t: TaskId, adm: AdmissionId): State
    requires adm in s.admissions
  {
    Leave(s, t).(admissions := s.admissions[adm := s.admissions[adm].(owner := None)])
  }

  /** Decrement the gate and forget the admission; the notification is still to come. */
  function DoRelease(s: State, t: TaskId, adm: AdmissionId): State
    requires adm in s.admissions && s.admissions[adm].handle in s.shared.gates
  {
    Goto(s, t, Notifying(s.admissions[adm].handle)).(
    shared := Release(s.shared, s.admissions[adm].handle),
    admissions := s.admissions - {adm})
  }

  function DoNotify(s: State, t: TaskId, h: Handle): State
    requires h in s.shared.gates
  {
    Leave(s, t).(shared := Notify(s.shared, h))
  }

  function PermitApply(s: State, t: TaskId, a: PermitAction): State
    requires PermitEnabled(s, t, a)
  {
    match a
    case Lookup(h, caller) => Goto(s, t, Preparing(s.shared.live[h], caller))
    case Reject => Leave(s, t)
    case Break => Goto(s, t, Closing(ByBinding(s.tasks[t].prepared.selection.bindingId), Return, WantClose))
    case AdmitCall(adm) => DoAdmit(s, t, adm)
    case Grant => DoGrant(s, t, s.tasks[t].admission)
    case Rollback => DoRelease(s, t, s.tasks[t].admission)
    case DropPermit(adm) => DoRelease(s, t, adm)
    case NotifyWaiters => DoNotify(s, t, s.tasks[t].gate)
  }

  // ---------------------------------------------------------------------------
  // close_*, finish_close and wait_settled
  // ---------------------------------------------------------------------------

  datatype CloseAction =
    | BeginClose(goal: Goal)
    | LockClose
    | LockBoth
    | Remove(queue: seq<Generation>)
    | Arm
    | CheckSettled
    | Wake
    | Detached(ok: bool)
    | Finish

  /** The task is draining and has a generation to see settle. */
  predicate InDrain(s: State, t: TaskId) {
    && InClose(s, t) && s.tasks[t].phase.Drain? && s.tasks[t].phase.queue != []
    && s.tasks[t].phase.queue[0].handle in s.shared.gates
  }

  predicate CloseEnabled(s: State, t: TaskId, a: CloseAction) {
    if a.BeginClose? then t !in s.tasks
    else
      && InClose(s, t)
      && var p := s.tasks[t].phase;
         match a
         case LockClose => p.WantClose? && s.closeHolder.None?
         case LockBoth => p.WantAttach? && s.attachHolder.None?
         case Remove(queue) => p.Ready? && IsClosedQueue(s.shared, s.tasks[t].goal, queue)
         case Arm => InDrain(s, t) && p.wait.Unarmed?
         case CheckSettled => InDrain(s, t) && p.wait.Armed?
         case Wake =>
           InDrain(s, t) && p.wait.Asleep? && s.shared.gates[p.queue[0].handle].epoch != p.wait.epoch
         case Detached(ok) => InDrain(s, t) && p.wait.Settled?
         case Finish => p.Drain? && p.queue == []
  }

  function DoRemove(s: State, t: TaskId, queue: seq<Generation>): State
    requires InClose(s, t)
  {
    SetPhase(s, t, Drain(queue, false, Unarmed)).(shared := CloseMatching(s.shared, s.tasks[t].goal))
  }

  /** Create the `Notified` future before looking at the count. */
  function DoArm(s: State, t: TaskId): State
    requires InDrain(s, t)
  {
    var p := s.tasks[t].phase;
    SetPhase(s, t, p.(wait := Armed(s.shared.gates[p.queue[0].handle].epoch)))
  }

  function DoCheckSettled(s: State, t: TaskId): State
    requires InDrain(s, t) && s.tasks[t].phase.wait.Armed?
  {
    var p := s.tasks[t].phase;
    SetPhase(s, t, p.(wait := if s.shared.gates[p.queue[0].handle].inFlight == 0 then Settled
                              else Asleep(p.wait.epoch)))
  }

  function DoWake(s: State, t: TaskId): State
    requires InDrain(s, t)
  {
    SetPhase(s, t, s.tasks[t].phase.(wait := Unarmed))
  }

  /** Report the detachment; a failed report is kept for later. */
  function DoDetached(s: State, t: TaskId, ok: bool): State
    requires InDrain(s, t)
  {
    var p := s.tasks[t].phase;
    if ok then SetPhase(s, t, Drain(p.queue[1..], p.failed, Unarmed))
    else SetPhase(s, t, Drain(p.queue[1..], true, Unarmed)).(
         shared := s.shared.(pending := s.shared.pending + {p.queue[0].selection.bindingId}))
  }

  /** Give up `attach_serial` and carry the verdict to the end of the call. */
  function Verdict(s: State, t: TaskId, ok: bool): State
    requires InClose(s, t)
  {
    UnlockAttach(SetPhase(s, t, Leaving(ok)))
  }

  function DoFinish(s: State, t: TaskId): State
    requires InClose(s, t) && s.tasks[t].phase.Drain?
  {
    if s.tasks[t].goal.ByBinding? && !s.tasks[t].phase.failed
    then SetPhase(s, t, Barrier(PendingRead))
    else Verdict(s, t, !s.tasks[t].phase.failed)
  }

  function CloseApply(s: State, t: TaskId, a: CloseAction): State
    requires CloseEnabled(s, t, a)
  {
    match a
    case BeginClose(goal) => Goto(s, t, Closing(goal, Return, WantClose))
    case LockClose => SetPhase(s, t, WantAttach).(closeHolder := Some(t))
    case LockBoth => SetPhase(s, t, Ready).(attachHolder := Some(t))
    case Remove(queue) => DoRemove(s, t, queue)
    case Arm => DoArm(s, t)
    case CheckSettled => DoCheckSettled(s, t)
    case Wake => DoWake(s, t)
    case Detached(ok) => DoDetached(s, t, ok)
    case Finish => DoFinish(s, t)
  }

  // ---------------------------------------------------------------------------
  // The checks that end close_binding_barrier
  // ---------------------------------------------------------------------------

  datatype BarrierAction =
    | ReadPending
    | RetryPending(ok: bool)
    | CheckLive
    | CheckPending
    | Exit

  predicate InBarrier(s: State, t: TaskId, check: BarrierCheck) {
    InClose(s, t) && s.tasks[t].phase == Barrier(check) && s.tasks[t].goal.ByBinding?
  }

  predicate BarrierEnabled(s: State, t: TaskId, a: BarrierAction) {
    match a
    case ReadPending => InBarrier(s, t, PendingRead)
    case RetryPending(ok) => InBarrier(s, t, PendingRetry)
    case CheckLive => InBarrier(s, t, LiveCheck)
    case CheckPending => InBarrier(s, t, PendingCheck)
    case Exit => InClose(s, t) && s.tasks[t].phase.Leaving?
  }

  function DoReadPending(s: State, t: TaskId): State
    requires InClose(s, t) && s.tasks[t].goal.ByBinding?
  {
    SetPhase(s, t, Barrier(if s.tasks[t].goal.bindingId in s.shared.pending then PendingRetry else LiveCheck))
  }

  function DoRetryPending(s: State, t: TaskId, ok: bool): State
    requires InClose(s, t) && s.tasks[t].goal.ByBinding?
  {
    if ok then SetPhase(s, t, Barrier(LiveCheck)).(
               shared := s.shared.(pending := s.shared.pending - {s.tasks[t].goal.bindingId}))
    else SetPhase(s, t, Barrier(LiveCheck))
  }

  predicate AnyLive(sh: Shared, goal: Goal) {
    exists h :: h in sh.live && sh.live[h].open && Matches(goal, sh.live[h])
  }

  function DoCheckLive(s: State, t: TaskId): State
    requires InClose(s, t)
  {
    if AnyLive(s.shared, s.tasks[t].goal) then Verdict(s, t, false)
    else SetPhase(s, t, Barrier(PendingCheck))
  }

  function DoCheckPending(s: State, t: TaskId): State
    requires InClose(s, t) && s.tasks[t].goal.ByBinding?
  {
    Verdict(s, t, s.tasks[t].goal.bindingId !in s.shared.pending)
  }

  function DoExit(s: State, t: TaskId): State
    requires InClose(s, t) && s.tasks[t].phase.Leaving?
  {
    var s' := s.(closeHolder := None);
    if !s.tasks[t].phase.ok then Leave(s', t)
    else match s.tasks[t].after
      case Return => Leave(s', t)
      case ThenControl(run) => Goto(s', t, Controlling(run))
      case ThenRest(run, rest) => Goto(s', t, Resting(run, rest))
  }

  function BarrierApply(s: State, t: TaskId, a: BarrierAction): State
    requires BarrierEnabled(s, t, a)
  {
    match a
    case ReadPending => DoReadPending(s, t)
    case RetryPending(ok) => DoRetryPending(s, t, ok)
    case CheckLive => DoCheckLive(s, t)
    case CheckPending => DoCheckPending(s, t)
    case Exit => DoExit(s, t)
  }

  // ---------------------------------------------------------------------------
  // stop_run
  // ---------------------------------------------------------------------------

  datatype StopAction =
    | BeginStop(run: RunKey)
    | Control(affected: Option<seq<BindingId>>)
    | Next

  predicate StopEnabled(s: State, t: TaskId, a: StopAction) {
    match a
    case BeginStop(run) => t !in s.tasks
    case Control(affected) => t in s.tasks && s.tasks[t].Controlling?
    case Next => t in s.tasks && s.tasks[t].Resting?
  }

  function DoControl(s: State, t: TaskId, affected: Option<seq<BindingId>>): State
    requires t in s.tasks && s.tasks[t].Controlling?
  {
    var run := s.tasks[t].run;
    match affected
    case Some(bindings) => Goto(s, t, Resting(run, bindings))
    case None => Leave(s, t).(shared := s.shared.(pendingRuns := s.shared.pendingRuns + {run}))
  }

  function DoNext(s: State, t: TaskId): State
    requires t in s.tasks && s.tasks[t].Resting?
  {
    var pc := s.tasks[t];
    if pc.rest != []
    then Goto(s, t, Closing(ByBinding(pc.rest[0]), ThenRest(pc.run, pc.rest[1..]), WantClose))
    else Leave(s, t).(shared := DropRunActivations(s.shared, pc.run))
  }

  function StopApply(s: State, t: TaskId, a: StopAction): State
    requires StopEnabled(s, t, a)
  {
    match a
    case BeginStop(run) => Goto(s, t, Closing(ByRun(run), ThenControl(run), WantClose))
    case Control(affected) => DoControl(s, t, affected)
    case Next => DoNext(s, t)
  }

  // ---------------------------------------------------------------------------
  // All actions
  // ---------------------------------------------------------------------------

  datatype Action =
    | Attach(t: TaskId, attach: AttachAction)
    | Permit(t: TaskId, permit: PermitAction)
    | Close(t: TaskId, close: CloseAction)
    | Await(t: TaskId, barrier: BarrierAction)
    | Stop(t: TaskId, stop: StopAction)
    | Register(key: ActivationKey, freshId: string)
    | RetryDetached(bindingId: BindingId)
    | RetryStopped(run: RunKey)

  predicate Enabled(s: State, a: Action) {
    match a
    case Attach(t, x) => AttachEnabled(s, t, x)
    case Permit(t, x) => PermitEnabled(s, t, x)
    case Close(t, x) => CloseEnabled(s, t, x)
    case Await(t, x) => BarrierEnabled(s, t, x)
    case Stop(t, x) => StopEnabled(s, t, x)
    case Register(key, freshId) => CompleteKey(key) && !Blank(freshId)
    case RetryDetached(_) => true
    case RetryStopped(_) => true
  }

  function Apply(s: State, a: Action): State
    requires Enabled(s, a)
  {
    match a
    case Attach(t, x) => AttachApply(s, t, x)
    case Permit(t, x) => PermitApply(s, t, x)
    case Close(t, x) => CloseApply(s, t, x)
    case Await(t, x) => BarrierApply(s, t, x)
    case Stop(t, x) => StopApply(s, t, x)
    case Register(key, freshId) => s.(shared := RegisterActivation(s.shared, key, freshId))
    case RetryDetached(b) => s.(shared := s.shared.(pending := s.shared.pending - {b}))
    case RetryStopped(run) =>
      s.(shared := DropRunActivations(s.shared.(pendingRuns := s.shared.pendingRuns - {run}), run))
  }

  // ---------------------------------------------------------------------------
  // Runs
  // ---------------------------------------------------------------------------

  const INITIAL: State := State(
    Shared(0, map[], map[], {}, {}, {}, map[]), None, None, map[], map[], map[])

  /**
   A run is a list of actions, each enabled where it is taken. Every outstanding admission
   is an object in memory, so there are always fewer than a `usize` can count.
   */
  ghost predicate Feasible(run: seq<Action>)
    decreases |run|
  {
    run != [] ==>
      && Feasible(run[..|run| - 1])
      && Enabled(Reached(run[..|run| - 1]), run[|run| - 1])
      && |Reached(run[..|run| - 1]).admissions| < U64_MAX
  }

  /** The state a run ends in. */
  ghost function Reached(run: seq<Action>): State
    decreases |run|
  {
    if run == [] then INITIAL
    else
      var s := Reached(run[..|run| - 1]);
      if Enabled(s, run[|run| - 1]) then Apply(s, run[|run| - 1]) else s
  }
}
