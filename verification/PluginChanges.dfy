/** What the readers' changes to a plugin amount to, one after another. */
module PluginChanges {
  import opened Options
  import opened PluginRuntimes

  datatype Change = TurnOn | TurnOff | Set(key: string, value: bool)

  function Changed(keys: set<string>, saved: Saved, change: Change): Saved
  {
    match change
    case TurnOn => saved.(desired := true)
    case TurnOff => saved.(desired := false)
    case Set(key, value) => if key in keys then saved.(settings := saved.settings[key := value]) else saved
  }

  /** The changes applied in order. A setting the manifest does not name changes nothing. */
  function ApplyAll(keys: set<string>, saved: Saved, changes: seq<Change>): Saved
    decreases |changes|
  {
    if changes == [] then saved else ApplyAll(keys, Changed(keys, saved, changes[0]), changes[1..])
  }

  lemma {:induction false} ApplyOneMore(keys: set<string>, saved: Saved, changes: seq<Change>, change: Change)
    ensures ApplyAll(keys, saved, changes + [change]) == Changed(keys, ApplyAll(keys, saved, changes), change)
    decreases |changes|
  {
    if changes != [] {
      assert (changes + [change])[1..] == changes[1..] + [change];
      ApplyOneMore(keys, Changed(keys, saved, changes[0]), changes[1..], change);
    }
  }

  function ChangesOf(task: Task): seq<Change>
  {
    match task
    case Enable(_) => [TurnOn]
    case Disable(_) => [TurnOff]
    case SetSetting(key, value) => [Set(key, value)]
    case _ => []
  }

  function ChangesOfAll(tasks: seq<Task>): seq<Change>
  {
    if tasks == [] then [] else ChangesOf(tasks[0]) + ChangesOfAll(tasks[1..])
  }

  lemma {:induction false} ChangesAppend(tasks: seq<Task>, task: Task)
    ensures ChangesOfAll(tasks + [task]) == ChangesOfAll(tasks) + ChangesOf(task)
  {
    if tasks != [] {
      assert (tasks + [task])[1..] == tasks[1..] + [task];
      ChangesAppend(tasks[1..], task);
    }
  }

  /** The tasks whose change has not been taken over yet. */
  function Owed(r: Runtime): seq<Task>
  {
    if r.queue != [] && (r.stage.Reconciling? || r.stage.Persisted? || r.stage.AwaitingActivation?) then r.queue[1..]
    else r.queue
  }

  function Memory(r: Runtime): Saved
  {
    Saved(r.desired, r.settings)
  }

  /** What the record will hold once its queued tasks have been carried out. */
  function Outlook(r: Runtime): Saved
  {
    ApplyAll(r.keys, Memory(r), ChangesOfAll(Owed(r)))
  }

  /** The change that a call asks for. */
  function Asked(step: Step): seq<Change>
  {
    match step
    case EnableCalled => [TurnOn]
    case DisableCalled => [TurnOff]
    case SettingCalled(key, value) => [Set(key, value)]
    case _ => []
  }

  /** The first task's change takes no effect on a record that already has it. */
  predicate Idle(r: Runtime)
  {
    r.queue != [] &&
    match r.queue[0]
    case Enable(_) => r.desired
    case Disable(_) => !r.desired
    case SetSetting(key, value) => key !in r.keys || (key in r.settings && r.settings[key] == value)
    case _ => true
  }

  lemma IdleHead(r: Runtime)
    requires Idle(r)
    ensures ApplyAll(r.keys, Memory(r), ChangesOfAll(r.queue)) == ApplyAll(r.keys, Memory(r), ChangesOfAll(r.queue[1..]))
  {
    var head, rest := ChangesOf(r.queue[0]), ChangesOfAll(r.queue[1..]);
    if head == [] {
      assert head + rest == rest;
    } else {
      assert (head + rest)[1..] == rest;
      match r.queue[0]
      case SetSetting(key, value) => if key in r.keys { assert r.settings[key := value] == r.settings; }
      case _ =>
    }
  }

  /** The head's change carried out. */
  lemma HeadTaken(keys: set<string>, saved: Saved, queue: seq<Task>)
    requires queue != []
    ensures ApplyAll(keys, ApplyAll(keys, saved, ChangesOf(queue[0])), ChangesOfAll(queue[1..]))
            == ApplyAll(keys, saved, ChangesOfAll(queue))
  {
    var head, rest := ChangesOf(queue[0]), ChangesOfAll(queue[1..]);
    if head == [] {
      assert head + rest == rest;
    } else {
      assert head[1..] == [] && (head + rest)[1..] == rest;
    }
  }

  // --- The steps of a record ---

  /** What a step leaves of memory and queue. */
  ghost predicate Same(r: Runtime, s: Runtime)
  {
    s.keys == r.keys && s.inEditor == r.inEditor && s.desired == r.desired && s.settings == r.settings
  }

  lemma CallMemory(r: Runtime, step: Step)
    requires step.EnableCalled? || step.DisableCalled? || step.SettingCalled? || step.ReplaceCalled?
             || step.DisposeCalled? || step.ShutdownCalled?
    ensures var s := Apply(r, step);
            Same(r, s) && s.stage == r.stage && ((s == r && Asked(step) == [])
            || (s.queue != [] && s.queue[..|s.queue| - 1] == r.queue && ChangesOf(s.queue[|s.queue| - 1]) == Asked(step)))
  {
    hide BeginTransition;
    BeginSame(r, Enabling, true, false);
    BeginSame(r, Disabling, false, true);
    BeginSame(r, Replacing, true, true);
    BeginSame(r, ShuttingDown, r.desired, true);
  }

  lemma BeginSame(r: Runtime, phase: Phase, intent: bool, fence: bool)
    ensures var s := BeginTransition(r, phase, intent, fence); Same(r, s) && s.queue == r.queue && s.stage == r.stage
  {
  }

  lemma CallOutlook(r: Runtime, step: Step)
    requires Waits(r.made, r.attempts, r.queue, r.stage, r.share)
    requires step.EnableCalled? || step.DisableCalled? || step.SettingCalled? || step.ReplaceCalled?
             || step.DisposeCalled? || step.ShutdownCalled?
    ensures Outlook(Apply(r, step)) == ApplyAll(r.keys, Outlook(r), Asked(step))
  {
    hide Apply, ChangesOfAll, Asked;
    CallMemory(r, step);
    var s := Apply(r, step);
    if s != r {
      var task := s.queue[|s.queue| - 1];
      assert s.queue == r.queue + [task];
      assert Owed(s) == Owed(r) + [task];
      ChangesAppend(Owed(r), task);
      AskedAtMostOne(step);
      if Asked(step) != [] { ApplyOneMore(r.keys, Memory(r), ChangesOfAll(Owed(r)), Asked(step)[0]); }
      else { assert ChangesOfAll(Owed(r)) + [] == ChangesOfAll(Owed(r)); }
    }
  }

  lemma AskedAtMostOne(step: Step)
    ensures |Asked(step)| <= 1
  {
  }

  lemma CleanupSame(r: Runtime)
    ensures Same(r, CleanupOwned(r)) && CleanupOwned(r).queue == r.queue
  {
  }

  /** The first task has left the queue, with nothing else done to memory. */
  ghost predicate Left(r: Runtime, s: Runtime)
  {
    r.queue != [] && Same(r, s) && s.queue == r.queue[1..] && s.stage == NotStarted
  }

  lemma FinishLeft(r: Runtime, epoch: nat, lifecycle: Lifecycle)
    requires r.queue != []
    ensures Left(r, Done(r)) && Left(r, Done(FinishTransition(r, epoch).(lifecycle := lifecycle)))
  {
  }

  lemma EndsLeft(r: Runtime, epoch: nat, failed: bool, lifecycle: Lifecycle)
    requires r.queue != []
    ensures Left(r, EndEnable(r, epoch)) && Left(r, EndDisable(r, epoch, failed)) && Left(r, EndWith(r, epoch, lifecycle))
    ensures Left(r, Done(r)) && Left(r, Done(FinishTransition(r, epoch).(lifecycle := Failed)))
  {
    hide Done, FinishTransition, Left;
    FinishLeft(r, epoch, Failed);
    FinishLeft(r, epoch, EnabledIdle);
    FinishLeft(r, epoch, Disabled);
    FinishLeft(r, epoch, r.lifecycle);
    FinishLeft(r, epoch, lifecycle);
  }

  /** The task still stands first and owes its change. */
  ghost predicate Stays(r: Runtime, s: Runtime)
  {
    Same(r, s) && s.queue == r.queue && Owed(s) == r.queue
  }

  lemma StartCleaningStays(r: Runtime, epoch: nat)
    ensures Stays(r, StartCleaning(r, epoch))
  {
    hide CleanupOwned;
    CleanupSame(r);
  }

  /** A task that starts either stands where it stood, or is over for having nothing to change. */
  lemma StartMemory(r: Runtime)
    requires Enabled(r, TaskStarts)
    ensures Stays(r, Start(r)) || (Idle(r) && Left(r, Start(r)))
  {
    hide StartCleaning, EndEnable, Done;
    match r.queue[0]
    case Enable(epoch) => EndsLeft(r, epoch, false, Failed);
    case SetSetting(_, _) => EndsLeft(r, 0, false, Failed);
    case Dispose(_, _) =>
      EndsLeft(r, 0, false, Failed);
      var begun := BeginTransition(r, RendererDisposed, r.desired, true).(lifecycle := Deactivating);
      StartCleaningStays(begun, begun.epoch);
    case Disable(epoch) => StartCleaningStays(r, epoch);
    case Replace(epoch) => StartCleaningStays(r, epoch);
    case Shutdown(epoch) => StartCleaningStays(r, epoch);
  }

  lemma ActivateSame(r: Runtime, lease: string)
    ensures Same(r, Activate(r, lease)) && Activate(r, lease).queue == r.queue && Activate(r, lease).stage == r.stage
  {
  }

  /** Whatever a replacement ends in, it is no longer owed. */
  lemma ReplaceOverMemory(r: Runtime, lease: string)
    requires r.queue != []
    ensures var s := ReplaceOver(r, lease); Same(r, s) && Owed(s) == r.queue[1..]
  {
    hide Activate;
    ActivateSame(r, lease);
  }

  lemma AfterReplaceMemory(r: Runtime, epoch: nat, lease: string)
    requires r.queue != [] && r.epoch == epoch
    ensures var s := ReplaceOver(FinishTransition(r, epoch), lease); Same(r, s) && Owed(s) == r.queue[1..]
  {
    hide ReplaceOver;
    ReplaceOverMemory(FinishTransition(r, epoch), lease);
  }

  lemma AfterCleanupMemory(r: Runtime, epoch: nat, failed: bool, lease: string)
    requires r.queue != [] && r.stage.Cleaning?
    ensures var s := AfterCleanup(r, epoch, failed, lease);
            Stays(r, s) || (Idle(r) && Same(r, s) && Owed(s) == r.queue[1..])
  {
    hide ReplaceOver, EndDisable, EndWith, Done, FinishTransition;
    EndsLeft(r, epoch, failed, Failed);
    match r.queue[0]
    case Replace(_) => if r.epoch == epoch { AfterReplaceMemory(r, epoch, lease); }
    case Shutdown(_) => EndsLeft(r, epoch, failed, if failed then Failed else if r.desired then EnabledIdle else Disabled);
    case _ =>
  }

  lemma AfterPersistMemory(r: Runtime, cleanupFailed: bool, ok: bool)
    requires r.queue != []
    ensures Left(r, AfterPersist(r, cleanupFailed, ok))
  {
    hide EndEnable, EndDisable, EndWith, Done, Left;
    EndsLeft(r, 0, cleanupFailed, Failed);
    if r.queue[0].Enable? || r.queue[0].Disable? { EndsLeft(r, r.queue[0].epoch, cleanupFailed, Failed); }
  }

  /** A resumed task either goes on, still owing its change, or owes nothing more. */
  lemma ResumeMemory(r: Runtime, lease: string)
    requires CanResume(r) && r.queue != []
    ensures var s := Resume(r, lease);
            Same(r, s) && (Owed(s) == Owed(r) || (Idle(r) && Owed(r) == r.queue && Owed(s) == r.queue[1..]))
  {
    hide AfterCleanup, AfterPersist, Done;
    match r.stage
    case Cleaning(attempt, epoch) => AfterCleanupMemory(r, epoch, AttemptFailed(r, attempt), lease);
    case Persisted(cleanupFailed, ok) => AfterPersistMemory(r, cleanupFailed, ok);
    case AwaitingActivation(g) => EndsLeft(r, g, false, Failed);
    case _ =>
  }

  /** A call from outside, as opposed to the registry's own steps. */
  lemma StepMemory(r: Runtime, step: Step)
    requires Enabled(r, step) && (r.stage != NotStarted ==> r.queue != [])
    requires !step.SaveAdopted? && !step.PersistEnds? && !IsCall(step)
    ensures var s := Apply(r, step);
            Same(r, s) && (Owed(s) == Owed(r) || (Idle(r) && Owed(r) == r.queue && Owed(s) == r.queue[1..]))
  {
    hide Start, Resume, Idle, Activate, OpenFailed;
    match step
    case TaskStarts => StartMemory(r);
    case TaskResumes(lease) => ResumeMemory(r, lease);
    case Triggered(lease) => ActivateSame(r, lease);
    case WorkFails(g) => OpenFailedSame(r, g);
    case _ =>
  }

  lemma OpenFailedSame(r: Runtime, g: nat)
    requires IsOpening(r, g)
    ensures var s := OpenFailed(r, g); Same(r, s) && s.queue == r.queue && s.stage == r.stage
  {
  }

  lemma IdleOutlook(r: Runtime, s: Runtime)
    requires Same(r, s)
    requires Owed(s) == Owed(r) || (Idle(r) && Owed(r) == r.queue && Owed(s) == r.queue[1..])
    ensures Outlook(s) == Outlook(r)
  {
    hide Owed, Idle, ChangesOfAll, ApplyAll;
    if Owed(s) != Owed(r) { IdleHead(r); }
  }

  /** A step that is no call and takes over no save leaves the outlook as it is; a call
      adds just its own change, after all the others. */
  lemma StepOutlook(r: Runtime, step: Step)
    requires Waits(r.made, r.attempts, r.queue, r.stage, r.share)
    requires Enabled(r, step) && !step.SaveAdopted? && !step.PersistEnds?
    ensures Outlook(Apply(r, step)) == ApplyAll(r.keys, Outlook(r), Asked(step))
    ensures Apply(r, step).keys == r.keys && Memory(Apply(r, step)) == Memory(r)
  {
    hide Outlook, Apply, Enabled, Owed, Idle;
    if IsCall(step) {
      CallOutlook(r, step);
      CallMemory(r, step);
    } else {
      StepMemory(r, step);
      IdleOutlook(r, Apply(r, step));
    }
  }

  lemma AdoptMemory(r: Runtime, saved: Saved, requested: Saved)
    ensures var s := Adopt(r, saved, requested);
            Memory(s) == saved && s.keys == r.keys && s.queue == r.queue && s.stage == r.stage
  {
    hide CleanupOwned, SettingsChanged;
    var adopted := r.(desired := saved.desired, settings := saved.settings);
    CleanupSame(adopted.(epoch := r.epoch + 1, phase := Disabling, intent := false));
    CleanupOwnedQueue(adopted.(epoch := r.epoch + 1, phase := Disabling, intent := false));
  }

  /** Taking over a save that holds the first task's change settles what was owed for it. */
  lemma OwnSaveOutlook(r: Runtime, requested: Saved)
    requires r.stage.Persisting? && r.queue != []
    ensures var saved := ApplyAll(r.keys, Memory(r), ChangesOf(r.queue[0]));
            Outlook(Adopted(Adopt(r, saved, requested))) == Outlook(r)
  {
    hide Adopt, ChangesOfAll, ApplyAll;
    var saved := ApplyAll(r.keys, Memory(r), ChangesOf(r.queue[0]));
    AdoptMemory(r, saved, requested);
    HeadTaken(r.keys, Memory(r), r.queue);
  }

  lemma OtherSaveOutlook(r: Runtime, requested: Saved)
    ensures Outlook(Adopt(r, Memory(r), requested)) == Outlook(r)
  {
    hide Adopt, ChangesOfAll, ApplyAll;
    AdoptMemory(r, Memory(r), requested);
  }

  lemma PersistOutlook(r: Runtime, ok: bool)
    requires r.stage.Reconciling?
    ensures Outlook(PersistOver(r, ok)) == Outlook(r) && Memory(PersistOver(r, ok)) == Memory(r)
  {
  }
}
