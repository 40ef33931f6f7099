/** The plugin registry of src/main/plugins/plugin-registry.ts over all its plugins, with
    its one queue of saves, as a system of atomic steps in any order. */
module PluginRegistry {
  import opened Options
  import opened PluginRuntimes
  import opened PluginChanges

  /** The save at the head of the queue: not begun, at the store, or taken over and
      waiting for the plugins it concerns. */
  datatype Save = Waiting | Writing(next: map<string, Saved>) | Settling(failed: bool)

  /** `tail` names the plugins whose first task waits for its save, in order. */
  datatype Registry = Registry(
    runtimes: map<string, Runtime>,
    persisted: map<string, Saved>,
    tail: seq<string>,
    save: Save)

  datatype Event =
    | Local(id: string, step: Step)
    | ShutdownAll
    | SaveBegins
    | SaveReturns(state: map<string, Saved>)
    | SaveThrows
    | SettlingEnds

  /** The part an event plays for one plugin. */
  function StepOf(s: Registry, event: Event, id: string): Option<Step>
  {
    match event
    case Local(at, step) => if at == id then Some(step) else None
    case ShutdownAll => Some(ShutdownCalled)
    case SaveBegins => None
    case SaveReturns(state) =>
      if s.save.Writing? && id in state && id in s.save.next && s.tail != [] then
        Some(SaveAdopted(state[id], s.save.next[id], id == s.tail[0]))
      else None
    case SaveThrows => if s.tail != [] && id == s.tail[0] then Some(PersistEnds(false)) else None
    case SettlingEnds =>
      if s.tail != [] && id == s.tail[0] && s.save.Settling? then Some(PersistEnds(!s.save.failed)) else None
  }

  predicate Possible(s: Registry, event: Event)
  {
    match event
    case Local(id, step) =>
      id in s.runtimes && Enabled(s.runtimes[id], step)
      && !step.SaveAdopted? && !step.PersistEnds? && !step.ShutdownCalled?
    case ShutdownAll => true
    case SaveBegins => s.save == Waiting && s.tail != []
    case SaveReturns(state) => s.save.Writing? && state.Keys == s.runtimes.Keys
    case SaveThrows => s.save.Writing?
    case SettlingEnds => s.save.Settling? && forall id :: id in s.runtimes ==> s.runtimes[id].share == NoShare
  }

  function Moved(r: Runtime, step: Option<Step>): Runtime
  {
    if step.Some? && Enabled(r, step.value) then Apply(r, step.value) else r
  }

  function RuntimesAfter(s: Registry, event: Event): map<string, Runtime>
  {
    map id | id in s.runtimes :: Moved(s.runtimes[id], StepOf(s, event, id))
  }

  /** A copy of the persisted state with the first waiting task's change made to it. */
  function Requested(s: Registry): map<string, Saved>
  {
    if s.tail == [] || s.tail[0] !in s.runtimes || s.tail[0] !in s.persisted || s.runtimes[s.tail[0]].queue == [] then
      s.persisted
    else
      var id, r := s.tail[0], s.runtimes[s.tail[0]];
      s.persisted[id := ApplyAll(r.keys, s.persisted[id], ChangesOf(r.queue[0]))]
  }

  /** What one plugin's step does to the save in progress. */
  function SaveAfter(s: Registry, id: string, step: Step): Save
  {
    if !s.save.Settling? || id !in s.runtimes then s.save
    else match step
      case ShareCleanedUp =>
        if ShareIsCleaned(s.runtimes[id]) && AttemptFailed(s.runtimes[id], Some(s.runtimes[id].share.attempt)) then Settling(true)
        else s.save
      case ShareSettingsApplied(failed) => if failed then Settling(true) else s.save
      case _ => s.save
  }

  function Next(s: Registry, event: Event): Registry
  {
    var runtimes := RuntimesAfter(s, event);
    var rest := if s.tail == [] then [] else s.tail[1..];
    match event
    case Local(id, step) =>
      var asks := id in runtimes && runtimes[id].stage.Persisting? && id !in s.tail;
      s.(runtimes := runtimes, tail := if asks then s.tail + [id] else s.tail, save := SaveAfter(s, id, step))
    case ShutdownAll => s.(runtimes := runtimes)
    case SaveBegins => s.(runtimes := runtimes, save := Writing(Requested(s)))
    case SaveReturns(state) => s.(runtimes := runtimes, persisted := state, save := Settling(false))
    case SaveThrows => s.(runtimes := runtimes, tail := rest, save := Waiting)
    case SettlingEnds => s.(runtimes := runtimes, tail := rest, save := Waiting)
  }

  predicate WaitsForSave(r: Runtime)
  {
    r.stage.Persisting? || r.stage.Reconciling?
  }

  /** Memory holds what is persisted. */
  ghost predicate Agrees(s: Registry)
  {
    s.persisted.Keys == s.runtimes.Keys
    && forall id :: id in s.runtimes ==> Memory(s.runtimes[id]) == s.persisted[id]
  }

  /** The plugins in the queue of saves are those whose first task waits for one. */
  ghost predicate Queued(s: Registry)
  {
    (forall i :: 0 <= i < |s.tail| ==> s.tail[i] in s.runtimes && WaitsForSave(s.runtimes[s.tail[i]]))
    && (forall i, j :: 0 <= i < j < |s.tail| ==> s.tail[i] != s.tail[j])
    && (forall id :: id in s.runtimes && WaitsForSave(s.runtimes[id]) ==> id in s.tail)
  }

  /** Only the first save is at work, and only while it settles do plugins share in it. */
  ghost predicate OneAtWork(s: Registry)
  {
    (s.save != Waiting ==> s.tail != [])
    && (forall id :: id in s.runtimes ==>
         (s.runtimes[id].stage.Reconciling? <==> s.save.Settling? && s.tail != [] && id == s.tail[0])
         && (s.runtimes[id].share != NoShare ==> s.save.Settling?))
    && (s.save.Writing? ==> s.save.next == Requested(s))
  }

  ghost predicate AllValid(s: Registry)
  {
    forall id :: id in s.runtimes ==> Valid(s.runtimes[id])
  }

  ghost predicate Invariant(s: Registry)
  {
    Agrees(s) && Queued(s) && OneAtWork(s) && AllValid(s)
  }

  // --- One plugin's step, seen from the queue of saves ---

  /** A step other than taking over or ending a save leaves a waiting task waiting, starts
      no reconciliation, and gives the plugin no share in one. */
  ghost predicate Quiet(r: Runtime, s: Runtime)
  {
    Memory(s) == Memory(r) && s.keys == r.keys
    && (WaitsForSave(r) ==> s.stage == r.stage && r.queue != [] && s.queue != [] && s.queue[0] == r.queue[0])
    && (!WaitsForSave(r) ==> !s.stage.Reconciling?)
    && (r.share == NoShare ==> s.share == NoShare)
  }

  lemma CallQuiet(r: Runtime, step: Step)
    requires Waits(r.made, r.attempts, r.queue, r.stage, r.share) && IsCall(step)
    ensures Quiet(r, Apply(r, step))
  {
    hide Apply, ChangesOf, Asked;
    CallMemory(r, step);
    CallShare(r, step);
    SameFirst(r.queue, Apply(r, step).queue);
  }

  /** A longer queue begins as the shorter one does. */
  lemma SameFirst(queue: seq<Task>, longer: seq<Task>)
    requires longer == queue || (longer != [] && longer[..|longer| - 1] == queue)
    ensures queue != [] ==> longer != [] && longer[0] == queue[0]
  {
  }

  lemma CallShare(r: Runtime, step: Step)
    requires IsCall(step)
    ensures Apply(r, step).share == r.share
  {
  }

  lemma CleaningShare(r: Runtime, epoch: nat)
    ensures StartCleaning(r, epoch).share == r.share && StartCleaning(r, epoch).stage.Cleaning?
  {
  }

  lemma EndsShare(r: Runtime, epoch: nat, failed: bool, lifecycle: Lifecycle)
    ensures EndEnable(r, epoch).share == r.share && EndDisable(r, epoch, failed).share == r.share
    ensures EndWith(r, epoch, lifecycle).share == r.share && Done(r).share == r.share
    ensures Done(FinishTransition(r, epoch).(lifecycle := Failed)).share == r.share
  {
    hide Done, FinishTransition;
    EndShare(r, epoch, Failed);
    EndShare(r, epoch, EnabledIdle);
    EndShare(r, epoch, Disabled);
    EndShare(r, epoch, r.lifecycle);
    EndShare(r, epoch, lifecycle);
  }

  lemma EndShare(r: Runtime, epoch: nat, lifecycle: Lifecycle)
    ensures Done(r).share == r.share && Done(FinishTransition(r, epoch).(lifecycle := lifecycle)).share == r.share
  {
  }

  lemma StartQuiet(r: Runtime)
    requires Enabled(r, TaskStarts)
    ensures Quiet(r, Start(r))
  {
    hide StartCleaning, EndEnable, Done;
    StartMemory(r);
    StartShare(r);
  }

  lemma StartShare(r: Runtime)
    requires Enabled(r, TaskStarts)
    ensures Start(r).share == r.share && !Start(r).stage.Reconciling?
  {
    hide StartCleaning, EndEnable, Done;
    match r.queue[0]
    case Enable(epoch) => EndsShare(r, epoch, false, Failed); EndsLeft(r, epoch, false, Failed);
    case SetSetting(_, _) => EndsShare(r, 0, false, Failed); EndsLeft(r, 0, false, Failed);
    case Dispose(_, _) =>
      EndsShare(r, 0, false, Failed);
      EndsLeft(r, 0, false, Failed);
      var begun := BeginTransition(r, RendererDisposed, r.desired, true).(lifecycle := Deactivating);
      CleaningShare(begun, begun.epoch);
    case Disable(epoch) => CleaningShare(r, epoch);
    case Replace(epoch) => CleaningShare(r, epoch);
    case Shutdown(epoch) => CleaningShare(r, epoch);
  }

  lemma ActivateShare(r: Runtime, lease: string)
    ensures Activate(r, lease).share == r.share
  {
  }

  lemma ReplaceOverShare(r: Runtime, lease: string)
    requires r.stage.Cleaning?
    ensures ReplaceOver(r, lease).share == r.share && !ReplaceOver(r, lease).stage.Reconciling?
  {
    hide Activate;
    ActivateShare(r, lease);
  }

  lemma AfterCleanupShare(r: Runtime, epoch: nat, failed: bool, lease: string)
    requires r.stage.Cleaning? && r.queue != []
    ensures AfterCleanup(r, epoch, failed, lease).share == r.share
    ensures !AfterCleanup(r, epoch, failed, lease).stage.Reconciling?
  {
    hide ReplaceOver, EndDisable, EndWith, Done;
    EndsShare(r, epoch, failed, Failed);
    EndsLeft(r, epoch, failed, Failed);
    match r.queue[0]
    case Replace(_) => if r.epoch == epoch { ReplaceOverShare(FinishTransition(r, epoch), lease); }
    case Shutdown(_) =>
      var lifecycle := if failed then Failed else if r.desired then EnabledIdle else Disabled;
      EndsShare(r, epoch, failed, lifecycle);
      EndsLeft(r, epoch, failed, lifecycle);
    case _ =>
  }

  lemma AfterPersistShare(r: Runtime, cleanupFailed: bool, ok: bool)
    requires r.queue != []
    ensures AfterPersist(r, cleanupFailed, ok).share == r.share
  {
    hide EndEnable, EndDisable, EndWith, Done;
    EndsShare(r, 0, cleanupFailed, Failed);
    if r.queue[0].Enable? || r.queue[0].Disable? { EndsShare(r, r.queue[0].epoch, cleanupFailed, Failed); }
  }

  lemma ResumeQuiet(r: Runtime, lease: string)
    requires CanResume(r) && r.queue != []
    ensures Quiet(r, Resume(r, lease))
  {
    hide AfterCleanup, AfterPersist, Done;
    ResumeMemory(r, lease);
    match r.stage
    case Cleaning(attempt, epoch) => AfterCleanupShare(r, epoch, AttemptFailed(r, attempt), lease);
    case Persisted(cleanupFailed, ok) =>
      AfterPersistShare(r, cleanupFailed, ok);
      AfterPersistMemory(r, cleanupFailed, ok);
    case AwaitingActivation(g) => EndsShare(r, g, false, Failed); EndsLeft(r, g, false, Failed);
    case _ =>
  }

  lemma HostQuiet(r: Runtime, step: Step)
    requires Waits(r.made, r.attempts, r.queue, r.stage, r.share)
    requires Enabled(r, step) && !IsCall(step) && !step.SaveAdopted? && !step.PersistEnds?
    requires !step.TaskStarts? && !step.TaskResumes?
    ensures Quiet(r, Apply(r, step))
  {
    hide Start, Resume, OpenFailed, Activate;
    match step
    case Triggered(lease) => ActivateSame(r, lease); ActivateShare(r, lease);
    case WorkFails(g) => OpenFailedSame(r, g); OpenFailedShare(r, g);
    case _ =>
  }

  lemma OpenFailedShare(r: Runtime, g: nat)
    requires IsOpening(r, g)
    ensures OpenFailed(r, g).share == r.share
  {
  }

  lemma StepQuiet(r: Runtime, step: Step)
    requires Waits(r.made, r.attempts, r.queue, r.stage, r.share)
    requires Enabled(r, step) && !step.SaveAdopted? && !step.PersistEnds?
    ensures Quiet(r, Apply(r, step))
  {
    hide Quiet, Start, Resume, Waits;
    match step
    case TaskStarts => StartQuiet(r);
    case TaskResumes(lease) => WaitsQueue(r); ResumeQuiet(r, lease);
    case Triggered(_) => HostQuiet(r, step);
    case WorkSucceeds(_) => HostQuiet(r, step);
    case WorkFails(_) => HostQuiet(r, step);
    case FailureCleanedUp(_) => HostQuiet(r, step);
    case AttemptEnds(_, _) => HostQuiet(r, step);
    case ServiceAnswers(_, _) => HostQuiet(r, step);
    case ServiceExits(_, _) => HostQuiet(r, step);
    case ShareCleanedUp => HostQuiet(r, step);
    case ShareSettingsApplied(_) => HostQuiet(r, step);
    case _ => CallQuiet(r, step);
  }

  lemma WaitsQueue(r: Runtime)
    requires Waits(r.made, r.attempts, r.queue, r.stage, r.share)
    ensures r.stage != NotStarted ==> r.queue != []
  {
  }

  lemma ValidWaits(r: Runtime)
    requires Valid(r)
    ensures Waits(r.made, r.attempts, r.queue, r.stage, r.share)
  {
  }

  // --- What every event keeps ---

  /** In a state that satisfies the invariant, each plugin's part in a possible event is a step it can take. */
  lemma PartEnabled(s: Registry, event: Event, id: string)
    requires Invariant(s) && Possible(s, event) && id in s.runtimes
    ensures StepOf(s, event, id).Some? ==> Enabled(s.runtimes[id], StepOf(s, event, id).value)
  {
    hide Valid;
  }

  lemma NextValid(s: Registry, event: Event)
    requires Invariant(s) && Possible(s, event)
    ensures AllValid(Next(s, event))
  {
    hide Valid, Apply, Enabled, Agrees, Queued, OneAtWork;
    forall id | id in s.runtimes ensures Valid(Moved(s.runtimes[id], StepOf(s, event, id))) {
      var part := StepOf(s, event, id);
      if part.Some? && Enabled(s.runtimes[id], part.value) { StepActive(s.runtimes[id], part.value); }
    }
  }

  lemma LocalShape(s: Registry, id: string, step: Step)
    requires Possible(s, Local(id, step))
    ensures var t := Next(s, Local(id, step));
            t.runtimes == s.runtimes[id := Apply(s.runtimes[id], step)] && t.persisted == s.persisted
            && t.tail == (if t.runtimes[id].stage.Persisting? && id !in s.tail then s.tail + [id] else s.tail)
            && (t.save == s.save || (s.save.Settling? && t.save.Settling?))
  {
    hide Apply, Enabled;
  }

  lemma LocalAgrees(s: Registry, id: string, r: Runtime)
    requires Agrees(s) && id in s.runtimes && Quiet(s.runtimes[id], r)
    ensures Agrees(s.(runtimes := s.runtimes[id := r]))
  {
    hide Memory;
  }

  lemma LocalQueued(s: Registry, id: string, r: Runtime)
    requires Queued(s) && id in s.runtimes && Quiet(s.runtimes[id], r)
    ensures Queued(s.(runtimes := s.runtimes[id := r],
                      tail := if r.stage.Persisting? && id !in s.tail then s.tail + [id] else s.tail))
  {
    hide Memory;
  }

  lemma LocalRequested(s: Registry, id: string, r: Runtime)
    requires Queued(s) && s.tail != [] && id in s.runtimes && Quiet(s.runtimes[id], r)
    ensures Requested(s.(runtimes := s.runtimes[id := r])) == Requested(s)
  {
    hide Memory, ApplyAll;
  }

  lemma LocalOneAtWork(s: Registry, id: string, r: Runtime, save: Save)
    requires Queued(s) && OneAtWork(s) && id in s.runtimes && Quiet(s.runtimes[id], r)
    requires save == s.save || (s.save.Settling? && save.Settling?)
    ensures OneAtWork(s.(runtimes := s.runtimes[id := r], save := save))
  {
    hide Memory, Requested;
    if s.tail != [] { LocalRequested(s, id, r); LookAlike(s.(runtimes := s.runtimes[id := r]), s.tail, save); }
  }

  /** What is requested depends on the first in the queue only. */
  lemma LookAlike(s: Registry, tail: seq<string>, save: Save)
    requires s.tail != [] && tail != [] && tail[0] == s.tail[0]
    ensures Requested(s.(tail := tail, save := save)) == Requested(s)
  {
  }

  lemma LaterTail(s: Registry, id: string)
    requires OneAtWork(s) && (s.tail == [] ==> s.save == Waiting)
    ensures OneAtWork(s.(tail := s.tail + [id]))
  {
    hide Memory, Requested;
    if s.tail != [] { LookAlike(s, s.tail + [id], s.save); }
  }

  lemma LocalKeeps(s: Registry, id: string, step: Step)
    requires Invariant(s) && Possible(s, Local(id, step))
    ensures var t := Next(s, Local(id, step)); Agrees(t) && Queued(t) && OneAtWork(t)
  {
    hide Valid, Apply, Enabled, Quiet, Next, Agrees, Queued, OneAtWork;
    var r, t := Apply(s.runtimes[id], step), Next(s, Local(id, step));
    RuntimeQuiet(s, id, step);
    LocalShape(s, id, step);
    LocalAgrees(s, id, r);
    AgreesOnly(s.(runtimes := t.runtimes), t);
    LocalQueued(s, id, r);
    QueuedOnly(s.(runtimes := t.runtimes, tail := t.tail), t);
    LocalOneAtWork(s, id, r, t.save);
    if t.tail != s.tail {
      WorkNeedsTail(s);
      LaterTail(s.(runtimes := t.runtimes, save := t.save), id);
    }
  }

  lemma WorkNeedsTail(s: Registry)
    requires OneAtWork(s)
    ensures s.tail == [] ==> s.save == Waiting
  {
  }

  lemma RuntimeQuiet(s: Registry, id: string, step: Step)
    requires Invariant(s) && Possible(s, Local(id, step))
    ensures id in s.runtimes && Quiet(s.runtimes[id], Apply(s.runtimes[id], step))
  {
    hide Quiet, Apply;
    ValidWaits(s.runtimes[id]);
    StepQuiet(s.runtimes[id], step);
  }

  lemma AgreesOnly(s: Registry, t: Registry)
    requires Agrees(s) && t.runtimes == s.runtimes && t.persisted == s.persisted
    ensures Agrees(t)
  {
  }

  lemma QueuedOnly(s: Registry, t: Registry)
    requires Queued(s) && t.runtimes == s.runtimes && t.tail == s.tail
    ensures Queued(t)
  {
  }

  lemma ShutdownKeeps(s: Registry)
    requires Invariant(s)
    ensures var t := Next(s, ShutdownAll); Agrees(t) && Queued(t) && OneAtWork(t)
  {
    hide Valid, Apply, Requested;
    forall id | id in s.runtimes
      ensures var r := Moved(s.runtimes[id], Some(ShutdownCalled));
              Quiet(s.runtimes[id], r) && r.stage == s.runtimes[id].stage
    {
      ValidWaits(s.runtimes[id]);
      StepQuiet(s.runtimes[id], ShutdownCalled);
      CallMemory(s.runtimes[id], ShutdownCalled);
    }
    AllQuiet(s, Next(s, ShutdownAll));
  }

  lemma AllRequested(s: Registry, t: Registry)
    requires Queued(s) && s.tail != []
    requires t.persisted == s.persisted && t.tail == s.tail && t.runtimes.Keys == s.runtimes.Keys
    requires forall id :: id in s.runtimes ==> Quiet(s.runtimes[id], t.runtimes[id])
    ensures Requested(t) == Requested(s)
  {
    hide Memory, ApplyAll;
    assert s.tail[0] in s.runtimes;
  }

  lemma AllQuiet(s: Registry, t: Registry)
    requires Agrees(s) && Queued(s) && OneAtWork(s)
    requires t.persisted == s.persisted && t.tail == s.tail && t.save == s.save && t.runtimes.Keys == s.runtimes.Keys
    requires forall id :: id in s.runtimes ==>
      Quiet(s.runtimes[id], t.runtimes[id]) && t.runtimes[id].stage == s.runtimes[id].stage
    ensures Agrees(t) && Queued(t) && OneAtWork(t)
  {
    hide Memory, Requested;
    if s.tail != [] { AllRequested(s, t); }
    forall id | id in t.runtimes
      ensures t.runtimes[id].stage.Reconciling? <==> s.runtimes[id].stage.Reconciling?
      ensures t.runtimes[id].share != NoShare ==> s.runtimes[id].share != NoShare
    {
      assert Quiet(s.runtimes[id], t.runtimes[id]);
    }
  }

  lemma SaveBeginsKeeps(s: Registry)
    requires Invariant(s) && Possible(s, SaveBegins)
    ensures var t := Next(s, SaveBegins); Agrees(t) && Queued(t) && OneAtWork(t)
  {
    hide Valid, Requested;
    var t := Next(s, SaveBegins);
    assert t.runtimes == s.runtimes;
    LookAlike(s, s.tail, t.save);
  }

  function TakenOver(stage: Stage): Stage
  {
    if stage.Persisting? then Reconciling(stage.cleanupFailed) else stage
  }

  /** A save taken over by one plugin. */
  lemma AdoptedShape(r: Runtime, saved: Saved, requested: Saved, own: bool)
    requires Enabled(r, SaveAdopted(saved, requested, own))
    ensures var s := Apply(r, SaveAdopted(saved, requested, own));
            Memory(s) == saved && s.queue == r.queue && s.keys == r.keys
            && s.stage == if own then TakenOver(r.stage) else r.stage
  {
    hide Adopt, Memory;
    AdoptMemory(r, saved, requested);
    AdoptedSame(Adopt(r, saved, requested));
  }

  lemma AdoptedSame(r: Runtime)
    ensures Memory(Adopted(r)) == Memory(r)
  {
  }

  lemma RequestedKeys(s: Registry)
    requires Agrees(s)
    ensures Requested(s).Keys == s.runtimes.Keys
  {
  }

  lemma HeadAtWork(s: Registry)
    requires Queued(s) && OneAtWork(s) && s.save != Waiting
    ensures s.tail != [] && s.tail[0] in s.runtimes
    ensures s.save.Writing? ==> s.runtimes[s.tail[0]].stage.Persisting?
    ensures s.save.Settling? ==> s.runtimes[s.tail[0]].stage.Reconciling?
    ensures s.save.Writing? ==> forall id :: id in s.runtimes ==> s.runtimes[id].share == NoShare
  {
  }

  lemma PartAdopted(s: Registry, state: map<string, Saved>, id: string)
    requires Invariant(s) && Possible(s, SaveReturns(state)) && id in s.runtimes
    requires s.tail != [] && s.tail[0] in s.runtimes && s.runtimes[s.tail[0]].stage.Persisting?
    ensures var r := Moved(s.runtimes[id], StepOf(s, SaveReturns(state), id));
            Memory(r) == state[id]
            && r.stage == if id == s.tail[0] then TakenOver(s.runtimes[id].stage) else s.runtimes[id].stage
  {
    hide Valid, Apply, Enabled, Memory, Queued, Requested;
    RequestedKeys(s);
    PartEnabled(s, SaveReturns(state), id);
    AdoptedShape(s.runtimes[id], state[id], s.save.next[id], id == s.tail[0]);
  }

  /** After a save has come back, every plugin holds what it brought. */
  ghost predicate TakesOver(s: Registry, state: map<string, Saved>, t: Registry)
  {
    s.tail != [] && s.tail[0] in s.runtimes && s.runtimes[s.tail[0]].stage.Persisting?
    && t.runtimes.Keys == s.runtimes.Keys == state.Keys && t.persisted == state && t.tail == s.tail && t.save == Settling(false)
    && forall id :: id in s.runtimes ==>
      Memory(t.runtimes[id]) == state[id]
      && t.runtimes[id].stage == if id == s.tail[0] then TakenOver(s.runtimes[id].stage) else s.runtimes[id].stage
  }

  lemma SaveReturnsShape(s: Registry, state: map<string, Saved>)
    requires Invariant(s) && Possible(s, SaveReturns(state))
    ensures TakesOver(s, state, Next(s, SaveReturns(state)))
  {
    hide Invariant, Moved, StepOf, Memory;
    InvariantParts(s);
    HeadAtWork(s);
    forall id | id in s.runtimes
      ensures var r := Moved(s.runtimes[id], StepOf(s, SaveReturns(state), id));
              Memory(r) == state[id]
              && r.stage == if id == s.tail[0] then TakenOver(s.runtimes[id].stage) else s.runtimes[id].stage
    {
      PartAdopted(s, state, id);
    }
  }

  lemma InvariantParts(s: Registry)
    requires Invariant(s)
    ensures Agrees(s) && Queued(s) && OneAtWork(s)
  {
  }

  lemma TakenOverQueued(s: Registry, state: map<string, Saved>, t: Registry)
    requires Queued(s) && TakesOver(s, state, t)
    ensures Queued(t)
  {
    hide Memory;
    forall id | id in s.runtimes ensures WaitsForSave(t.runtimes[id]) <==> WaitsForSave(s.runtimes[id]) {}
  }

  lemma TakenOverAtWork(s: Registry, state: map<string, Saved>, t: Registry)
    requires OneAtWork(s) && s.save.Writing? && TakesOver(s, state, t)
    ensures OneAtWork(t)
  {
    hide Memory, Requested;
  }

  lemma SaveReturnsKeeps(s: Registry, state: map<string, Saved>)
    requires Invariant(s) && Possible(s, SaveReturns(state))
    ensures var t := Next(s, SaveReturns(state)); Agrees(t) && Queued(t) && OneAtWork(t)
  {
    hide Invariant, Queued, OneAtWork, Next, Memory;
    InvariantParts(s);
    SaveReturnsShape(s, state);
    var t := Next(s, SaveReturns(state));
    TakenOverQueued(s, state, t);
    TakenOverAtWork(s, state, t);
  }

  /** The first save is over, whichever way. */
  ghost predicate SaveOver(s: Registry, t: Registry)
  {
    s.tail != [] && s.tail[0] in s.runtimes
    && t.persisted == s.persisted && t.tail == s.tail[1..] && t.save == Waiting
    && t.runtimes.Keys == s.runtimes.Keys
    && (forall id :: id in s.runtimes && id != s.tail[0] ==> t.runtimes[id] == s.runtimes[id])
    && Memory(t.runtimes[s.tail[0]]) == Memory(s.runtimes[s.tail[0]])
    && t.runtimes[s.tail[0]].stage.Persisted? && t.runtimes[s.tail[0]].share == NoShare
  }

  lemma SaveOverQueued(s: Registry, t: Registry)
    requires Queued(s) && SaveOver(s, t)
    ensures Queued(t)
  {
    hide Memory;
    forall i | 0 <= i < |t.tail| ensures t.tail[i] in t.runtimes && WaitsForSave(t.runtimes[t.tail[i]]) {
      var j := i + 1;
      assert t.tail[i] == s.tail[j];
    }
    forall id | id in t.runtimes && WaitsForSave(t.runtimes[id]) ensures id in t.tail {
      assert id in s.tail && id != s.tail[0];
    }
  }

  lemma SaveOverKeeps(s: Registry, t: Registry)
    requires Agrees(s) && Queued(s) && OneAtWork(s) && SaveOver(s, t)
    requires forall id :: id in s.runtimes ==> s.runtimes[id].share == NoShare
    ensures Agrees(t) && Queued(t) && OneAtWork(t)
  {
    hide Memory, Requested, Queued;
    SaveOverQueued(s, t);
  }

  lemma PersistOverMemory(r: Runtime, ok: bool)
    requires WaitsForSave(r)
    ensures var s := PersistOver(r, ok); Memory(s) == Memory(r) && s.stage.Persisted? && s.share == r.share
  {
  }

  lemma SaveOverMoves(s: Registry, event: Event, id: string)
    requires s.tail != [] && s.tail[0] in s.runtimes && WaitsForSave(s.runtimes[s.tail[0]])
    requires event.SaveThrows? || (event.SettlingEnds? && s.save.Settling?)
    requires id in s.runtimes
    ensures var r := Moved(s.runtimes[id], StepOf(s, event, id));
            if id == s.tail[0] then Memory(r) == Memory(s.runtimes[id]) && r.stage.Persisted? && r.share == s.runtimes[id].share
            else r == s.runtimes[id]
  {
    hide Memory, PersistOver;
    PersistOverMemory(s.runtimes[s.tail[0]], if s.save.Settling? then !s.save.failed else false);
    PersistOverMemory(s.runtimes[s.tail[0]], false);
  }

  lemma SaveOverShape(s: Registry, event: Event)
    requires Invariant(s) && Possible(s, event) && (event.SaveThrows? || event.SettlingEnds?)
    ensures SaveOver(s, Next(s, event)) && forall id :: id in s.runtimes ==> s.runtimes[id].share == NoShare
  {
    hide Invariant, Memory, StepOf, Moved;
    InvariantParts(s);
    HeadAtWork(s);
    forall id | id in s.runtimes
      ensures var r := Moved(s.runtimes[id], StepOf(s, event, id));
              if id == s.tail[0] then Memory(r) == Memory(s.runtimes[id]) && r.stage.Persisted? && r.share == s.runtimes[id].share
              else r == s.runtimes[id]
    {
      SaveOverMoves(s, event, id);
    }
  }

  /** Whatever happens next, memory and disk agree, only the first save is at work, and
      every plugin's record stays valid. */
  lemma NextInvariant(s: Registry, event: Event)
    requires Invariant(s) && Possible(s, event)
    ensures Invariant(Next(s, event))
  {
    hide Next, AllValid, Agrees, Queued, OneAtWork, Possible;
    NextValid(s, event);
    match event
    case Local(id, step) => LocalKeeps(s, id, step);
    case ShutdownAll => ShutdownKeeps(s);
    case SaveBegins => SaveBeginsKeeps(s);
    case SaveReturns(state) => SaveReturnsKeeps(s, state);
    case SaveThrows => SaveOverShape(s, event); SaveOverKeeps(s, Next(s, event));
    case SettlingEnds => SaveOverShape(s, event); SaveOverKeeps(s, Next(s, event));
  }

  // --- Whole runs ---

  /** The registry as `hydrate` leaves it. */
  ghost predicate Initial(s: Registry)
  {
    Agrees(s) && s.tail == [] && s.save == Waiting && forall id :: id in s.runtimes ==> Fresh(s.runtimes[id])
  }

  predicate Follows(s: Registry, event: Event, t: Registry)
  {
    Possible(s, event) && t == Next(s, event)
  }

  /** States in the order in which the events brought them about. */
  ghost predicate Run(states: seq<Registry>, events: seq<Event>)
  {
    |states| == |events| + 1 && Initial(states[0])
    && forall i :: 0 <= i < |events| ==> var j := i + 1; Follows(states[i], events[i], states[j])
  }

  lemma InitialInvariant(s: Registry)
    requires Initial(s)
    ensures Invariant(s)
    ensures forall id :: id in s.runtimes ==> ActiveHasGeneration(s.runtimes[id])
  {
    hide Valid;
    forall id | id in s.runtimes ensures Valid(s.runtimes[id]) && ActiveHasGeneration(s.runtimes[id]) {
      FreshValid(s.runtimes[id]);
    }
  }

  /** At every moment of every run. */
  lemma {:induction false} RunInvariant(states: seq<Registry>, events: seq<Event>, n: nat)
    requires Run(states, events) && n < |states|
    ensures Invariant(states[n]) && states[n].runtimes.Keys == states[0].runtimes.Keys
  {
    hide Invariant, Initial, Next, Possible;
    if n == 0 {
      InitialInvariant(states[0]);
    } else {
      var m := n - 1;
      RunInvariant(states, events, m);
      assert Follows(states[m], events[m], states[n]);
      NextInvariant(states[m], events[m]);
      SamePlugins(states[m], events[m]);
    }
  }

  lemma SamePlugins(s: Registry, event: Event)
    ensures Next(s, event).runtimes.Keys == s.runtimes.Keys
  {
  }

  /** The event starts a queued cleanup of a plugin that is active. */
  predicate BreaksActive(s: Registry, event: Event, id: string)
  {
    id in s.runtimes && StepOf(s, event, id) == Some(TaskStarts) && CleansActive(s.runtimes[id], TaskStarts)
  }

  lemma PluginStep(s: Registry, event: Event, id: string)
    requires Invariant(s) && Possible(s, event) && id in s.runtimes
    ensures var t := Next(s, event); var part := StepOf(s, event, id);
            id in t.runtimes && (part.None? ==> t.runtimes[id] == s.runtimes[id])
            && (part.Some? ==> Enabled(s.runtimes[id], part.value) && t.runtimes[id] == Apply(s.runtimes[id], part.value))
  {
    hide Invariant, Possible, StepOf, Enabled, Apply;
    PartEnabled(s, event, id);
  }

  lemma NextActive(s: Registry, event: Event, id: string)
    requires Invariant(s) && Possible(s, event) && id in s.runtimes && ActiveHasGeneration(s.runtimes[id])
    ensures id in Next(s, event).runtimes
    ensures ActiveHasGeneration(Next(s, event).runtimes[id]) <==> !BreaksActive(s, event, id)
  {
    hide Next, Possible, StepOf, Enabled, Apply, ActiveHasGeneration, Valid, Agrees, Queued, OneAtWork;
    PluginStep(s, event, id);
    var part := StepOf(s, event, id);
    if part.Some? { StepActive(s.runtimes[id], part.value); }
  }

  /** In a whole run, `active` always means a live generation, nothing pending cleanup and
      no transition under way, if and only if no queued cleanup starts on an active plugin. */
  lemma ActiveExactly(states: seq<Registry>, events: seq<Event>, id: string)
    requires Run(states, events) && id in states[0].runtimes
    ensures (forall n :: 0 <= n < |states| ==> id in states[n].runtimes && ActiveHasGeneration(states[n].runtimes[id]))
            <==> (forall n :: 0 <= n < |events| ==> !BreaksActive(states[n], events[n], id))
  {
    hide Next, Possible, BreaksActive, ActiveHasGeneration, Initial, Invariant;
    if forall n :: 0 <= n < |events| ==> !BreaksActive(states[n], events[n], id) {
      forall n | 0 <= n < |states| ensures id in states[n].runtimes && ActiveHasGeneration(states[n].runtimes[id]) {
        ActiveSoFar(states, events, id, n);
      }
    }
    if forall n :: 0 <= n < |states| ==> id in states[n].runtimes && ActiveHasGeneration(states[n].runtimes[id]) {
      forall n | 0 <= n < |events| ensures !BreaksActive(states[n], events[n], id) {
        RunInvariant(states, events, n);
        var m := n + 1;
        assert Follows(states[n], events[n], states[m]);
        NextActive(states[n], events[n], id);
      }
    }
  }

  lemma {:induction false} ActiveSoFar(states: seq<Registry>, events: seq<Event>, id: string, n: nat)
    requires Run(states, events) && id in states[0].runtimes && n < |states|
    requires forall n :: 0 <= n < |events| ==> !BreaksActive(states[n], events[n], id)
    ensures id in states[n].runtimes && ActiveHasGeneration(states[n].runtimes[id])
  {
    hide Next, Possible, BreaksActive, ActiveHasGeneration, Initial, Invariant;
    if n == 0 {
      InitialInvariant(states[0]);
    } else {
      var m := n - 1;
      ActiveSoFar(states, events, id, m);
      RunInvariant(states, events, m);
      assert Follows(states[m], events[m], states[n]);
      NextActive(states[m], events[m], id);
    }
  }

  /** Where the registry is about to use a generation, it asks for an active lifecycle and
      a generation. Those two then imply everything else. */
  lemma UsedIsLive(s: Registry, id: string)
    requires Invariant(s) && id in s.runtimes
    requires s.runtimes[id].lifecycle == Active && s.runtimes[id].generation.Some?
    ensures GenerationCanPublish(s.runtimes[id], s.runtimes[id].generation.value, s.runtimes[id].epoch)
  {
    hide Bookkept, Agrees, Queued, OneAtWork;
  }

  /** Every number ever issued is exactly one of: the current generation, the one pending
      cleanup, released by a successful cleanup, or lost with its service process. */
  lemma NoneLost(states: seq<Registry>, events: seq<Event>, n: nat, id: string, g: nat)
    requires Run(states, events) && n < |states| && id in states[0].runtimes
    ensures id in states[n].runtimes
    ensures var r := states[n].runtimes[id];
            (1 <= g <= r.counter <==> g in r.made)
            && !(r.generation.Some? && r.cleanupPending.Some?)
            && (g in r.made ==> (r.made[g].fate == Held <==> r.generation == Some(g) || r.cleanupPending == Some(g)))
            && (r.generation == Some(g) || r.cleanupPending == Some(g) ==> g in r.made)
  {
    hide Run, Agrees, Queued, OneAtWork, Linked, Waits;
    RunInvariant(states, events, n);
    assert Valid(states[n].runtimes[id]);
  }

  lemma NextLater(s: Registry, event: Event, id: string)
    requires Invariant(s) && Possible(s, event) && id in s.runtimes
    ensures id in Next(s, event).runtimes && Later(s.runtimes[id].made, Next(s, event).runtimes[id].made)
  {
    hide Next, Possible, StepOf, Enabled, Apply, Bookkept, ActiveIsLive, Agrees, Queued, OneAtWork;
    PluginStep(s, event, id);
    var part := StepOf(s, event, id);
    if part.Some? { StepLater(s.runtimes[id], part.value); }
  }

  lemma {:induction false} RunLater(states: seq<Registry>, events: seq<Event>, id: string, m: nat, n: nat)
    requires Run(states, events) && id in states[0].runtimes && m <= n < |states|
    ensures id in states[m].runtimes && id in states[n].runtimes
    ensures Later(states[m].runtimes[id].made, states[n].runtimes[id].made)
    decreases n
  {
    hide Next, Possible, Initial, Invariant, Later;
    RunInvariant(states, events, m);
    if m == n {
      LaterSelf(states[m].runtimes[id].made);
    } else {
      var k := n - 1;
      RunLater(states, events, id, m, k);
      RunInvariant(states, events, k);
      assert Follows(states[k], events[k], states[n]);
      NextLater(states[k], events[k], id);
      LaterTwice(states[m].runtimes[id].made, states[k].runtimes[id].made, states[n].runtimes[id].made);
    }
  }

  lemma LaterSelf(made: map<nat, Generation>)
    ensures Later(made, made)
  {
  }

  /** A generation once aborted is never again the generation of an active plugin, and one
      released or lost is never again current or pending cleanup. */
  lemma FencedForGood(states: seq<Registry>, events: seq<Event>, id: string, g: nat, m: nat, n: nat)
    requires Run(states, events) && id in states[0].runtimes && m <= n < |states|
    ensures id in states[m].runtimes && id in states[n].runtimes
    ensures var before, after := states[m].runtimes[id], states[n].runtimes[id];
            g in before.made ==>
              (before.made[g].aborted ==> !(after.lifecycle == Active && after.generation == Some(g)))
              && (before.made[g].fate != Held ==> after.generation != Some(g) && after.cleanupPending != Some(g))
  {
    hide Run, Agrees, Queued, OneAtWork, Linked, Waits;
    RunLater(states, events, id, m, n);
    RunInvariant(states, events, n);
    assert Valid(states[n].runtimes[id]);
  }

  // --- What becomes of the readers' changes ---

  /** The save comes back as it was asked for. */
  predicate Durable(s: Registry, event: Event)
  {
    !event.SaveThrows? && (event.SaveReturns? && s.save.Writing? ==> event.state == s.save.next)
  }

  function AskedBy(event: Event, id: string): seq<Change>
  {
    if event.Local? && event.id == id then Asked(event.step) else []
  }

  /** The changes that readers asked of one plugin, in call order. */
  function AskedInAll(events: seq<Event>, id: string): seq<Change>
  {
    if events == [] then [] else AskedInAll(events[..|events| - 1], id) + AskedBy(events[|events| - 1], id)
  }

  lemma SaveOutlook(s: Registry, id: string)
    requires Invariant(s) && s.save.Writing? && id in s.runtimes
    ensures var event := SaveReturns(s.save.next);
            StepOf(s, event, id).Some? && Outlook(Moved(s.runtimes[id], StepOf(s, event, id))) == Outlook(s.runtimes[id])
  {
    hide Invariant, Outlook, ApplyAll, Requested, Apply, Enabled;
    InvariantParts(s);
    HeadAtWork(s);
    RequestedIs(s, id);
    InvariantWaits(s, id);
    AdoptOutlook(s.runtimes[id], s.save.next[id], id == s.tail[0]);
  }

  lemma RequestedIs(s: Registry, id: string)
    requires Agrees(s) && Queued(s) && OneAtWork(s) && s.save.Writing? && id in s.runtimes
    ensures id in s.save.next && s.tail != [] && s.tail[0] in s.runtimes
    ensures var r := s.runtimes[id];
            s.save.next[id] == if id == s.tail[0] && r.queue != [] then ApplyAll(r.keys, Memory(r), ChangesOf(r.queue[0])) else Memory(r)
  {
    hide Memory, ApplyAll;
    assert s.tail[0] in s.runtimes;
  }

  lemma AdoptOutlook(r: Runtime, saved: Saved, own: bool)
    requires Waits(r.made, r.attempts, r.queue, r.stage, r.share)
    requires r.share == NoShare && (own ==> r.stage.Persisting?)
    requires saved == if own && r.queue != [] then ApplyAll(r.keys, Memory(r), ChangesOf(r.queue[0])) else Memory(r)
    ensures Enabled(r, SaveAdopted(saved, saved, own)) && Outlook(Apply(r, SaveAdopted(saved, saved, own))) == Outlook(r)
  {
    hide Outlook, Adopt, ApplyAll;
    if own { OwnSaveOutlook(r, saved); } else { OtherSaveOutlook(r, saved); }
  }

  lemma PartOutlook(s: Registry, event: Event, id: string)
    requires Invariant(s) && Possible(s, event) && Durable(s, event) && id in s.runtimes
    ensures var r := s.runtimes[id]; var part := StepOf(s, event, id);
            part.Some? ==> Enabled(r, part.value) && Outlook(Apply(r, part.value)) == ApplyAll(r.keys, Outlook(r), AskedBy(event, id))
  {
    hide Outlook, Apply, Enabled, Agrees, Queued, Valid;
    PartEnabled(s, event, id);
    ValidWaits(s.runtimes[id]);
    match event
    case Local(at, step) => if at == id { StepOutlook(s.runtimes[id], step); }
    case ShutdownAll => StepOutlook(s.runtimes[id], ShutdownCalled);
    case SaveReturns(state) => SaveOutlook(s, id);
    case SettlingEnds => if s.tail != [] && id == s.tail[0] { SettleOutlook(s.runtimes[id], !s.save.failed); }
    case _ =>
  }

  lemma SettleOutlook(r: Runtime, ok: bool)
    requires r.stage.Reconciling?
    ensures Outlook(Apply(r, PersistEnds(ok))) == Outlook(r)
  {
    hide Outlook;
    PersistOutlook(r, ok);
  }

  lemma NextOutlook(s: Registry, event: Event, id: string)
    requires Invariant(s) && Possible(s, event) && Durable(s, event) && id in s.runtimes
    ensures var r, t := s.runtimes[id], Next(s, event).runtimes;
            id in t && t[id].keys == r.keys && Outlook(t[id]) == ApplyAll(r.keys, Outlook(r), AskedBy(event, id))
  {
    hide Next, Possible, Invariant, StepOf, Enabled, Apply, Outlook, Durable;
    PluginStep(s, event, id);
    PartOutlook(s, event, id);
    PartKeys(s, event, id);
    NoPartNothingAsked(s, event, id);
  }

  lemma NoPartNothingAsked(s: Registry, event: Event, id: string)
    ensures StepOf(s, event, id).None? ==> AskedBy(event, id) == []
  {
  }

  lemma PartKeys(s: Registry, event: Event, id: string)
    requires Invariant(s) && Possible(s, event) && id in s.runtimes
    ensures id in Next(s, event).runtimes && Next(s, event).runtimes[id].keys == s.runtimes[id].keys
  {
    hide Next, Possible, Invariant, Enabled, Apply;
    PluginStep(s, event, id);
    var part := StepOf(s, event, id);
    if part.Some? {
      InvariantWaits(s, id);
      StepKeys(s.runtimes[id], part.value);
    }
  }

  lemma InvariantWaits(s: Registry, id: string)
    requires Invariant(s) && id in s.runtimes
    ensures var r := s.runtimes[id]; Waits(r.made, r.attempts, r.queue, r.stage, r.share)
  {
    hide Waits;
    ValidWaits(s.runtimes[id]);
  }

  lemma StepKeys(r: Runtime, step: Step)
    requires Waits(r.made, r.attempts, r.queue, r.stage, r.share) && Enabled(r, step)
    ensures Apply(r, step).keys == r.keys
  {
    hide Waits, Start, Resume, Adopt, Apply;
    match step
    case SaveAdopted(saved, requested, own) => AdoptedShape(r, saved, requested, own);
    case PersistEnds(ok) => PersistKeys(r, ok);
    case _ => StepOutlook(r, step);
  }

  lemma PersistKeys(r: Runtime, ok: bool)
    requires Enabled(r, PersistEnds(ok))
    ensures Apply(r, PersistEnds(ok)).keys == r.keys
  {
  }

  /** With saves that come back durable, what a plugin will hold once its queue is done is
      at every moment its first state with all the changes asked for so far, in call order. */
  lemma {:induction false} ChangesInOrder(states: seq<Registry>, events: seq<Event>, id: string, n: nat)
    requires Run(states, events) && id in states[0].runtimes && n < |states|
    requires forall i :: 0 <= i < |events| ==> Durable(states[i], events[i])
    ensures id in states[n].runtimes && id in states[0].persisted
    ensures var first := states[0].runtimes[id];
            states[n].runtimes[id].keys == first.keys
            && Outlook(states[n].runtimes[id]) == ApplyAll(first.keys, states[0].persisted[id], AskedInAll(events[..n], id))
  {
    hide Next, Possible, Initial, Invariant, Outlook, Durable, AskedBy, ApplyAll, Agrees, Fresh;
    if n == 0 {
      FirstOutlook(states[0], id);
      assert events[..0] == [] && AskedInAll([], id) == [];
    } else {
      var m := n - 1;
      ChangesInOrder(states, events, id, m);
      RunInvariant(states, events, m);
      assert Follows(states[m], events[m], states[n]);
      NextOutlook(states[m], events[m], id);
      assert events[..n][..m] == events[..m];
      ApplyBoth(states[0].runtimes[id].keys, states[0].persisted[id], AskedInAll(events[..m], id), AskedBy(events[m], id));
    }
  }

  lemma FirstOutlook(s: Registry, id: string)
    requires Initial(s) && id in s.runtimes
    ensures id in s.persisted && Outlook(s.runtimes[id]) == ApplyAll(s.runtimes[id].keys, s.persisted[id], [])
  {
  }

  lemma {:induction false} ApplyBoth(keys: set<string>, saved: Saved, xs: seq<Change>, ys: seq<Change>)
    ensures ApplyAll(keys, saved, xs + ys) == ApplyAll(keys, ApplyAll(keys, saved, xs), ys)
    decreases |xs|
  {
    if xs == [] {
      assert xs + ys == ys;
    } else {
      assert (xs + ys)[1..] == xs[1..] + ys;
      ApplyBoth(keys, Changed(keys, saved, xs[0]), xs[1..], ys);
    }
  }

  /** Once a plugin's queue is empty, memory and disk both hold all its changes: none is lost. */
  lemma NoChangeLost(states: seq<Registry>, events: seq<Event>, id: string, n: nat)
    requires Run(states, events) && id in states[0].runtimes && n < |states|
    requires forall i :: 0 <= i < |events| ==> Durable(states[i], events[i])
    ensures id in states[n].runtimes && id in states[n].persisted && id in states[0].persisted
    ensures Memory(states[n].runtimes[id]) == states[n].persisted[id]
    ensures states[n].runtimes[id].queue == [] ==>
      states[n].persisted[id] == ApplyAll(states[0].runtimes[id].keys, states[0].persisted[id], AskedInAll(events[..n], id))
  {
    hide Run, Queued, OneAtWork, AllValid, Durable, AskedInAll, ApplyAll;
    ChangesInOrder(states, events, id, n);
    RunInvariant(states, events, n);
    if states[n].runtimes[id].queue == [] { EmptyOutlook(states[n].runtimes[id]); }
  }

  lemma EmptyOutlook(r: Runtime)
    requires r.queue == []
    ensures Outlook(r) == Memory(r)
  {
  }

  // --- A run in which `active` is not live ---

  /** One renderer plugin with one setting. */
  function Lone(r: Runtime, held: Saved, tail: seq<string>, save: Save): Registry
  {
    Registry(map["p" := r], map["p" := held], tail, save)
  }

  lemma LoneStep(r: Runtime, step: Step, r': Runtime, held: Saved, tail: seq<string>, save: Save)
    requires Enabled(r, step) && Apply(r, step) == r' && !step.SaveAdopted? && !step.PersistEnds? && !step.ShutdownCalled?
    requires !step.ShareCleanedUp? && step != ShareSettingsApplied(true)
    ensures Follows(Lone(r, held, tail, save), Local("p", step),
                    Lone(r', held, if r'.stage.Persisting? && "p" !in tail then tail + ["p"] else tail, save))
  {
    hide Apply, Enabled;
    var s := Lone(r, held, tail, save);
    assert RuntimesAfter(s, Local("p", step)) == map["p" := r'];
  }

  function Idle0(): Runtime
  {
    Runtime(true, {"k"}, true, map["k" := false], EnabledIdle, 0, None, None, 0, Stable, true, map[], [], [], NotStarted, NoShare)
  }

  function Opening1(): Runtime
  {
    Idle0().(counter := 1, generation := Some(1), lifecycle := Activating,
             made := map[1 := Generation(Some("first"), false, None, 0, Opening, Held, None)])
  }

  function Active1(): Runtime
  {
    Opening1().(lifecycle := Active, made := map[1 := Generation(Some("first"), false, None, 0, Settled, Held, None)])
  }

  /** The renderer reports its lease gone, the reader changes the setting and disables. */
  function Called(): Runtime
  {
    Active1().(lifecycle := Deactivating, epoch := 1, phase := Disabling, intent := false,
               made := map[1 := Generation(Some("first"), true, None, 0, Settled, Held, None)],
               queue := [Dispose("first", 1), SetSetting("k", true), Disable(1)])
  }

  function Disposing(): Runtime
  {
    Called().(epoch := 2, phase := RendererDisposed, intent := true, generation := None, cleanupPending := Some(1),
              made := map[1 := Generation(Some("first"), true, Some(0), 0, Settled, Held, None)],
              attempts := [Attempt(1, None)], stage := Cleaning(Some(0), 2))
  }

  function DisposeCleaned(): Runtime
  {
    Disposing().(cleanupPending := None, attempts := [Attempt(1, Some(false))],
                 made := map[1 := Generation(Some("first"), true, None, 0, Settled, Released, None)])
  }

  /** The disposal has finished under its own epoch, and so made activation possible again. */
  function Disposed(): Runtime
  {
    DisposeCleaned().(phase := Stable, intent := true, lifecycle := Failed,
                      queue := [SetSetting("k", true), Disable(1)], stage := NotStarted)
  }

  function Saving(): Runtime
  {
    Disposed().(stage := Persisting(false))
  }

  function Opening2(): Runtime
  {
    Saving().(counter := 2, generation := Some(2), lifecycle := Activating,
              made := map[1 := Generation(Some("first"), true, None, 0, Settled, Released, None),
                          2 := Generation(Some("second"), false, None, 2, Opening, Held, None)])
  }

  function Active2(): Runtime
  {
    Opening2().(lifecycle := Active,
                made := map[1 := Generation(Some("first"), true, None, 0, Settled, Released, None),
                            2 := Generation(Some("second"), false, None, 2, Settled, Held, None)])
  }

  lemma FirstLife()
    ensures Enabled(Idle0(), Triggered("first")) && Apply(Idle0(), Triggered("first")) == Opening1()
    ensures Enabled(Opening1(), WorkSucceeds(1)) && Apply(Opening1(), WorkSucceeds(1)) == Active1()
  {
  }

  lemma ThreeCalls()
    ensures var a := Apply(Active1(), DisposeCalled("first", 1));
            var b := Apply(a, SettingCalled("k", true));
            Apply(b, DisableCalled) == Called()
  {
  }

  lemma DisposalRuns()
    ensures Enabled(Called(), TaskStarts) && Apply(Called(), TaskStarts) == Disposing()
    ensures Enabled(Disposing(), AttemptEnds(0, false)) && Apply(Disposing(), AttemptEnds(0, false)) == DisposeCleaned()
    ensures Enabled(DisposeCleaned(), TaskResumes("")) && Apply(DisposeCleaned(), TaskResumes("")) == Disposed()
  {
  }

  lemma SecondLife()
    ensures Enabled(Disposed(), TaskStarts) && Apply(Disposed(), TaskStarts) == Saving()
    ensures Enabled(Saving(), Triggered("second")) && Apply(Saving(), Triggered("second")) == Opening2()
    ensures Enabled(Opening2(), WorkSucceeds(2)) && Apply(Opening2(), WorkSucceeds(2)) == Active2()
  {
  }

  const BEFORE := Saved(true, map["k" := false])
  const AFTER := Saved(true, map["k" := true])

  function TakenOver2(): Runtime
  {
    Active2().(settings := map["k" := true], stage := Reconciling(false), share := SharedSettings)
  }

  /** The setting is saved and applied, and the task is over. */
  function SettingSaved(): Runtime
  {
    Active2().(settings := map["k" := true], queue := [Disable(1)], stage := NotStarted)
  }

  lemma SettingRuns()
    ensures Enabled(Active2(), SaveAdopted(AFTER, AFTER, true))
    ensures Apply(Active2(), SaveAdopted(AFTER, AFTER, true)) == TakenOver2()
    ensures Enabled(TakenOver2(), ShareSettingsApplied(false))
    ensures var settled := Apply(TakenOver2(), ShareSettingsApplied(false));
            settled == TakenOver2().(share := NoShare) && Enabled(settled, PersistEnds(true))
            && Apply(settled, PersistEnds(true)) == settled.(stage := Persisted(false, true))
            && Enabled(settled.(stage := Persisted(false, true)), TaskResumes(""))
            && Apply(settled.(stage := Persisted(false, true)), TaskResumes("")) == SettingSaved()
  {
    var adopted := Active2().(settings := map["k" := true]);
    assert "k" in adopted.keys && !SameAt(map["k" := false], adopted.settings, "k");
    assert SettingsChanged(adopted, map["k" := false], map["k" := true]);
  }

  lemma LoneSaveBegins()
    ensures Follows(Lone(Active2(), BEFORE, ["p"], Waiting), SaveBegins,
                    Lone(Active2(), BEFORE, ["p"], Writing(map["p" := AFTER])))
  {
    hide Apply, Enabled;
    var s := Lone(Active2(), BEFORE, ["p"], Waiting);
    assert ApplyAll({"k"}, BEFORE, [Set("k", true)]) == AFTER by {
      assert map["k" := false]["k" := true] == map["k" := true];
    }
    assert Requested(s) == map["p" := AFTER];
    assert RuntimesAfter(s, SaveBegins) == s.runtimes;
  }

  lemma LoneSaveReturns(r: Runtime, held: Saved, saved: Saved, r': Runtime)
    requires Enabled(r, SaveAdopted(saved, saved, true)) && Apply(r, SaveAdopted(saved, saved, true)) == r'
    ensures Follows(Lone(r, held, ["p"], Writing(map["p" := saved])), SaveReturns(map["p" := saved]),
                    Lone(r', saved, ["p"], Settling(false)))
  {
    hide Apply, Enabled, Requested, SaveAfter;
    var s := Lone(r, held, ["p"], Writing(map["p" := saved]));
    assert RuntimesAfter(s, SaveReturns(map["p" := saved])) == map["p" := r'];
  }

  lemma LoneSettlingEnds(r: Runtime, held: Saved, r': Runtime)
    requires r.share == NoShare && Enabled(r, PersistEnds(true)) && Apply(r, PersistEnds(true)) == r'
    ensures Follows(Lone(r, held, ["p"], Settling(false)), SettlingEnds, Lone(r', held, [], Waiting))
  {
    hide Apply, Enabled, Requested, SaveAfter;
    var s := Lone(r, held, ["p"], Settling(false));
    assert RuntimesAfter(s, SettlingEnds) == map["p" := r'];
    assert ["p"][1..] == [];
  }

  /** A run in which every save comes back as asked, ending in a lone plugin's state. */
  ghost predicate LoneRun(states: seq<Registry>, events: seq<Event>, r: Runtime, held: Saved, tail: seq<string>, save: Save)
  {
    Run(states, events) && states[|states| - 1] == Lone(r, held, tail, save)
    && forall i :: 0 <= i < |events| ==> Durable(states[i], events[i])
  }

  lemma Extend(states: seq<Registry>, events: seq<Event>, r: Runtime, held: Saved, tail: seq<string>, save: Save,
               event: Event, r': Runtime, held': Saved, tail': seq<string>, save': Save)
    requires LoneRun(states, events, r, held, tail, save)
    requires Follows(Lone(r, held, tail, save), event, Lone(r', held', tail', save'))
    requires Durable(Lone(r, held, tail, save), event)
    ensures LoneRun(states + [Lone(r', held', tail', save')], events + [event], r', held', tail', save')
  {
    hide Follows, Initial, Lone, Durable;
    var states', events' := states + [Lone(r', held', tail', save')], events + [event];
    forall i | 0 <= i < |events'|
      ensures var j := i + 1; Follows(states'[i], events'[i], states'[j])
      ensures Durable(states'[i], events'[i])
    {
      if i < |events| { var j := i + 1; assert Follows(states[i], events[i], states[j]); }
    }
  }

  lemma LocalDurable(s: Registry, id: string, step: Step)
    ensures Durable(s, Local(id, step))
  {
  }

  /** One more step of the plugin, which asks for no save. */
  lemma Extended(states: seq<Registry>, events: seq<Event>, r: Runtime, held: Saved, tail: seq<string>, save: Save,
                 step: Step, r': Runtime)
    returns (states': seq<Registry>, events': seq<Event>)
    requires LoneRun(states, events, r, held, tail, save)
    requires Enabled(r, step) && Apply(r, step) == r' && !step.SaveAdopted? && !step.PersistEnds? && !step.ShutdownCalled?
    requires !step.ShareCleanedUp? && step != ShareSettingsApplied(true)
    requires !r'.stage.Persisting? || "p" in tail
    ensures LoneRun(states', events', r', held, tail, save) && states < states' && events < events'
  {
    hide Apply, Enabled, LoneRun, Follows, Lone, Durable;
    LoneStep(r, step, r', held, tail, save);
    LocalDurable(Lone(r, held, tail, save), "p", step);
    Extend(states, events, r, held, tail, save, Local("p", step), r', held, tail, save);
    states', events' := states + [Lone(r', held, tail, save)], events + [Local("p", step)];
  }

  lemma Stages()
    ensures Opening1().stage == Active1().stage == Called().stage == Disposed().stage == SettingSaved().stage == NotStarted
    ensures Disposing().stage.Cleaning? && DisposeCleaned().stage.Cleaning?
    ensures Saving().stage.Persisting? && TakenOver2().stage.Reconciling?
    ensures Apply(Active1(), DisposeCalled("first", 1)).stage == NotStarted
    ensures Apply(Apply(Active1(), DisposeCalled("first", 1)), SettingCalled("k", true)).stage == NotStarted
  {
  }

  lemma Begin() returns (states: seq<Registry>, events: seq<Event>)
    ensures LoneRun(states, events, Idle0(), BEFORE, [], Waiting)
  {
    states, events := [Lone(Idle0(), BEFORE, [], Waiting)], [];
  }

  /** The plugin's first life, and the three calls that end it. */
  lemma ToCalled() returns (states: seq<Registry>, events: seq<Event>)
    ensures LoneRun(states, events, Called(), BEFORE, [], Waiting)
  {
    hide *;
    FirstLife();
    ThreeCalls();
    Stages();
    CallsEnabled(Active1());
    var a := Apply(Active1(), DisposeCalled("first", 1));
    CallsEnabled(a);
    var b := Apply(a, SettingCalled("k", true));
    CallsEnabled(b);
    states, events := Begin();
    states, events := Extended(states, events, Idle0(), BEFORE, [], Waiting, Triggered("first"), Opening1());
    states, events := Extended(states, events, Opening1(), BEFORE, [], Waiting, WorkSucceeds(1), Active1());
    states, events := Extended(states, events, Active1(), BEFORE, [], Waiting, DisposeCalled("first", 1), a);
    states, events := Extended(states, events, a, BEFORE, [], Waiting, SettingCalled("k", true), b);
    states, events := Extended(states, events, b, BEFORE, [], Waiting, DisableCalled, Called());
  }

  lemma CallsEnabled(r: Runtime)
    ensures Enabled(r, DisposeCalled("first", 1)) && Enabled(r, SettingCalled("k", true)) && Enabled(r, DisableCalled)
  {
  }

  /** The disposal runs; the setting asks for its save. */
  lemma ToSaving() returns (states: seq<Registry>, events: seq<Event>)
    ensures LoneRun(states, events, Saving(), BEFORE, ["p"], Waiting)
  {
    hide *;
    DisposalRuns();
    SecondLife();
    Stages();
    states, events := ToCalled();
    states, events := Extended(states, events, Called(), BEFORE, [], Waiting, TaskStarts, Disposing());
    states, events := Extended(states, events, Disposing(), BEFORE, [], Waiting, AttemptEnds(0, false), DisposeCleaned());
    states, events := Extended(states, events, DisposeCleaned(), BEFORE, [], Waiting, TaskResumes(""), Disposed());
    LoneStep(Disposed(), TaskStarts, Saving(), BEFORE, [], Waiting);
    LocalDurable(Lone(Disposed(), BEFORE, [], Waiting), "p", TaskStarts);
    assert [] + ["p"] == ["p"];
    Extend(states, events, Disposed(), BEFORE, [], Waiting, Local("p", TaskStarts), Saving(), BEFORE, ["p"], Waiting);
    states, events := states + [Lone(Saving(), BEFORE, ["p"], Waiting)], events + [Local("p", TaskStarts)];
  }

  /** While the setting is being saved, the plugin starts its second life. */
  lemma ToTakenOver() returns (states: seq<Registry>, events: seq<Event>)
    ensures LoneRun(states, events, TakenOver2(), AFTER, ["p"], Settling(false))
  {
    hide *;
    SecondLife();
    SavesDurable();
    states, events := ToSaving();
    states, events := Extended(states, events, Saving(), BEFORE, ["p"], Waiting, Triggered("second"), Opening2());
    states, events := Extended(states, events, Opening2(), BEFORE, ["p"], Waiting, WorkSucceeds(2), Active2());
    LoneSaveBegins();
    var next := map["p" := AFTER];
    Extend(states, events, Active2(), BEFORE, ["p"], Waiting, SaveBegins, Active2(), BEFORE, ["p"], Writing(next));
    states, events := states + [Lone(Active2(), BEFORE, ["p"], Writing(next))], events + [SaveBegins];
    SettingRuns();
    LoneSaveReturns(Active2(), BEFORE, AFTER, TakenOver2());
    Extend(states, events, Active2(), BEFORE, ["p"], Writing(next), SaveReturns(next), TakenOver2(), AFTER, ["p"], Settling(false));
    states, events := states + [Lone(TakenOver2(), AFTER, ["p"], Settling(false))], events + [SaveReturns(next)];
  }

  lemma SavesDurable()
    ensures Durable(Lone(Active2(), BEFORE, ["p"], Waiting), SaveBegins)
    ensures Durable(Lone(Active2(), BEFORE, ["p"], Writing(map["p" := AFTER])), SaveReturns(map["p" := AFTER]))
    ensures Durable(Lone(TakenOver2().(share := NoShare), AFTER, ["p"], Settling(false)), SettlingEnds)
  {
  }

  lemma ToDisable() returns (states: seq<Registry>, events: seq<Event>)
    ensures LoneRun(states, events, SettingSaved(), AFTER, [], Waiting)
  {
    hide *;
    SettingRuns();
    SavesDurable();
    Stages();
    states, events := ToTakenOver();
    var settled := TakenOver2().(share := NoShare);
    states, events := Extended(states, events, TakenOver2(), AFTER, ["p"], Settling(false), ShareSettingsApplied(false), settled);
    var persisted := settled.(stage := Persisted(false, true));
    LoneSettlingEnds(settled, AFTER, persisted);
    Extend(states, events, settled, AFTER, ["p"], Settling(false), SettlingEnds, persisted, AFTER, [], Waiting);
    states, events := states + [Lone(persisted, AFTER, [], Waiting)], events + [SettlingEnds];
    states, events := Extended(states, events, persisted, AFTER, [], Waiting, TaskResumes(""), SettingSaved());
  }

  lemma DisableStarts()
    ensures Enabled(SettingSaved(), TaskStarts) && !ActiveHasGeneration(Apply(SettingSaved(), TaskStarts))
    ensures !Apply(SettingSaved(), TaskStarts).stage.Persisting?
    ensures Apply(SettingSaved(), TaskStarts).lifecycle == Active && Apply(SettingSaved(), TaskStarts).generation.None?
  {
  }

  /** `active` is not always live: a renderer disposal, a setting and a disable are called
      in one breath; the disposal ends under its own, later epoch, an event activates the
      plugin again while the setting is being saved, and then the disable that was queued
      all along takes the new generation away from a plugin that still says `active`.
      Every save in this run is durable. */
  lemma ActiveWithoutGeneration() returns (states: seq<Registry>, events: seq<Event>)
    ensures Run(states, events) && forall i :: 0 <= i < |events| ==> Durable(states[i], events[i])
    ensures var last := states[|states| - 1].runtimes;
            "p" in last && last["p"].lifecycle == Active && last["p"].generation.None?
  {
    hide Apply, Enabled, Run, Durable;
    DisableStarts();
    states, events := ToDisable();
    states, events := Extended(states, events, SettingSaved(), AFTER, [], Waiting, TaskStarts, Apply(SettingSaved(), TaskStarts));
  }
}
