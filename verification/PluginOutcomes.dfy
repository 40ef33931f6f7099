/** What a plugin's lifecycle tells, and what each task of its queue comes to, at every moment of every run. */
module PluginOutcomes {
  import opened Options
  import opened PluginRuntimes
  import opened PluginChanges
  import opened PluginRegistry

  // --- What is meant ---

  /** In a stable record, an idle lifecycle says what is desired. */
  ghost predicate IdleMeans(r: Runtime)
  {
    r.phase == Stable ==> (r.lifecycle == EnabledIdle ==> r.desired) && (r.lifecycle == Disabled ==> !r.desired)
  }

  /** A disabled record has no generation, current or pending cleanup. */
  ghost predicate DisabledMeans(r: Runtime)
  {
    r.lifecycle == Disabled ==> r.generation.None? && r.cleanupPending.None?
  }

  /** The epoch of the transition that the call of a task began or joined. */
  function EpochOf(task: Task): Option<nat>
  {
    match task
    case Enable(epoch) => Some(epoch)
    case Disable(epoch) => Some(epoch)
    case Replace(epoch) => Some(epoch)
    case Shutdown(epoch) => Some(epoch)
    case _ => None
  }

  /** Whoever is to end the transition under way: a task of its epoch, the disposal that
      began it, or the reconciliation of a save. */
  ghost predicate HasOwner(r: Runtime)
  {
    r.phase != Stable ==>
      InQueue(r.queue, r.epoch) || (r.stage.Cleaning? && r.stage.epoch == r.epoch) || r.share.SharedCleanup?
  }

  ghost predicate InQueue(queue: seq<Task>, epoch: nat)
  {
    exists i :: 0 <= i < |queue| && EpochOf(queue[i]) == Some(epoch)
  }

  // --- What it rests on ---

  /** No generation, and at most one pending cleanup, which the attempt has not released. */
  ghost predicate Rid(r: Runtime, attempt: Option<nat>)
  {
    r.generation.None?
    && (r.cleanupPending.Some? ==>
          attempt.Some? && attempt.value < |r.attempts| && r.attempts[attempt.value].number == r.cleanupPending.value
          && r.attempts[attempt.value].failed != Some(false))
  }

  ghost predicate ShareMeans(r: Runtime)
  {
    r.share.SharedCleanup? ==> !r.desired && Rid(r, Some(r.share.attempt))
  }

  /** The epoch is current, and nothing can have been activated under it. */
  ghost predicate Bars(r: Runtime, epoch: nat)
  {
    r.epoch == epoch && (r.phase != Stable || !r.desired)
  }

  predicate InSave(stage: Stage)
  {
    stage.Persisting? || stage.Reconciling? || stage.Persisted?
  }

  ghost predicate CleaningMeans(r: Runtime)
  {
    r.stage.Cleaning? && Bars(r, r.stage.epoch) ==> Rid(r, r.stage.attempt)
  }

  ghost predicate DisablingMeans(r: Runtime)
  {
    InSave(r.stage) && r.queue != [] && r.queue[0].Disable? && Bars(r, r.queue[0].epoch) ==>
      r.generation.None? && (r.cleanupPending.Some? ==> r.stage.cleanupFailed)
  }

  /** Which task can be where. */
  ghost predicate StageMeans(r: Runtime)
  {
    (InSave(r.stage) ==> r.queue != [] && (r.queue[0].Enable? || r.queue[0].Disable? || r.queue[0].SetSetting?))
    && (r.stage.Cleaning? ==>
          r.queue != [] && r.stage.epoch <= r.epoch
          && (r.queue[0].Dispose? || (EpochOf(r.queue[0]) == Some(r.stage.epoch) && !r.queue[0].Enable?)))
    && (r.stage.AwaitingActivation? ==> r.queue != [] && r.queue[0].Replace? && (r.queue[0].epoch == r.epoch ==> r.phase == Stable))
  }

  ghost predicate EpochsMean(queue: seq<Task>, epoch: nat)
  {
    forall i :: 0 <= i < |queue| && EpochOf(queue[i]).Some? ==> EpochOf(queue[i]).value <= epoch
  }

  ghost predicate Meaning(r: Runtime)
  {
    IdleMeans(r) && DisabledMeans(r) && HasOwner(r) && ShareMeans(r) && CleaningMeans(r) && DisablingMeans(r)
    && StageMeans(r) && EpochsMean(r.queue, r.epoch)
  }

  // --- What every step keeps ---

  lemma QueueGrows(queue: seq<Task>, task: Task, epoch: nat, begun: nat)
    requires EpochsMean(queue, epoch) && epoch <= begun && (EpochOf(task).Some? ==> EpochOf(task).value <= begun)
    ensures EpochsMean(queue + [task], begun)
    ensures InQueue(queue, epoch) ==> InQueue(queue + [task], epoch)
    ensures EpochOf(task) == Some(begun) ==> InQueue(queue + [task], begun)
    ensures queue != [] ==> (queue + [task])[0] == queue[0]
  {
    var grown, n := queue + [task], |queue|;
    assert grown[n] == task;
    if InQueue(queue, epoch) {
      var i :| 0 <= i < |queue| && EpochOf(queue[i]) == Some(epoch);
      assert grown[i] == queue[i];
    }
  }

  /** A call queues a task, under the transition there is or one of its own, and leaves what
      is owned and desired. */
  ghost predicate Calls(r: Runtime, task: Task, s: Runtime)
  {
    s == r.(epoch := s.epoch, phase := s.phase, intent := s.intent, made := s.made, lifecycle := s.lifecycle, queue := r.queue + [task])
    && (s.lifecycle == r.lifecycle || s.lifecycle == Deactivating)
    && (if s.epoch == r.epoch then s.phase == r.phase && (EpochOf(task).None? || EpochOf(task) == Some(r.epoch))
        else s.epoch == r.epoch + 1 && s.phase != Stable && EpochOf(task) == Some(s.epoch))
  }

  lemma CallCalls(r: Runtime, step: Step)
    requires IsCall(step) && Apply(r, step) != r
    ensures exists task :: Calls(r, task, Apply(r, step))
  {
    hide Abort;
    var s := Apply(r, step);
    assert Calls(r, s.queue[|r.queue|], s);
  }

  lemma CallsMean(r: Runtime, task: Task, s: Runtime)
    requires Meaning(r) && Calls(r, task, s)
    ensures Meaning(s)
  {
    hide InQueue;
    QueueGrows(r.queue, task, r.epoch, s.epoch);
  }

  lemma CallMeaning(r: Runtime, step: Step)
    requires Meaning(r) && IsCall(step)
    ensures Meaning(Apply(r, step))
  {
    hide Meaning, Apply, Calls;
    if Apply(r, step) != r {
      CallCalls(r, step);
      var task :| Calls(r, task, Apply(r, step));
      CallsMean(r, task, Apply(r, step));
    }
  }

  lemma FreshMeaning(r: Runtime)
    requires Fresh(r)
    ensures Meaning(r)
  {
  }

  /** The first task leaves the queue, in a stable record or under another's epoch. */
  lemma DoneMeaning(r: Runtime)
    requires HasOwner(r) && ShareMeans(r) && EpochsMean(r.queue, r.epoch) && IdleMeans(r) && DisabledMeans(r)
    requires r.phase == Stable || (r.queue != [] && EpochOf(r.queue[0]) != Some(r.epoch))
    requires r.phase != Stable && r.stage.Cleaning? ==> r.stage.epoch != r.epoch
    ensures Meaning(Done(r))
  {
    var s := Done(r);
    if InQueue(r.queue, r.epoch) && r.phase != Stable {
      var i :| 0 <= i < |r.queue| && EpochOf(r.queue[i]) == Some(r.epoch);
      var j := i - 1;
      assert s.queue[j] == r.queue[i];
    }
  }

  lemma HostMeaning(r: Runtime, step: Step)
    requires Valid(r) && Meaning(r) && Enabled(r, step)
    requires step.Triggered? || step.WorkSucceeds? || step.FailureCleanedUp? || step.AttemptEnds? || step.ServiceExits? || step.ServiceAnswers?
    ensures Meaning(Apply(r, step))
  {
    hide Linked, Waits, EpochsMean, InQueue;
  }

  lemma OpenFailedMeaning(r: Runtime, g: nat)
    requires Valid(r) && Meaning(r) && IsOpening(r, g)
    ensures Meaning(OpenFailed(r, g))
  {
  }

  /** What giving up and cleaning up leaves. */
  ghost predicate Cleaned(r: Runtime, c: Runtime)
  {
    c == r.(generation := None, cleanupPending := c.cleanupPending, made := c.made, attempts := c.attempts)
    && r.attempts <= c.attempts && (r.generation.None? ==> c.cleanupPending == r.cleanupPending)
    && (c.cleanupPending.None? <==> r.generation.None? && r.cleanupPending.None?)
    && (if c.cleanupPending.None? then Awaited(c).None?
        else Awaited(c).Some? && Awaited(c).value < |c.attempts| && c.attempts[Awaited(c).value] == Attempt(c.cleanupPending.value, None))
  }

  lemma CleanupCleans(r: Runtime)
    requires Bookkept(r)
    ensures Cleaned(r, CleanupOwned(r)) && Rid(CleanupOwned(r), Awaited(CleanupOwned(r)))
  {
  }

  lemma StartCleaningMeaning(r: Runtime, epoch: nat)
    requires Bookkept(r) && IdleMeans(r) && DisabledMeans(r) && ShareMeans(r) && EpochsMean(r.queue, r.epoch)
    requires HasOwner(r) || epoch == r.epoch
    requires r.stage == NotStarted && r.queue != [] && epoch <= r.epoch
    requires r.queue[0].Dispose? || (EpochOf(r.queue[0]) == Some(epoch) && !r.queue[0].Enable?)
    ensures Meaning(StartCleaning(r, epoch))
  {
    hide Bookkept, CleanupOwned, Awaited;
    CleanupCleans(r);
  }

  lemma FencedBooks(r: Runtime)
    requires Bookkept(r)
    ensures Bookkept(BeginTransition(r, RendererDisposed, r.desired, true).(lifecycle := Deactivating))
  {
    hide Bookkept;
    AbortKeeps(r);
    var begun := BeginTransition(r, RendererDisposed, r.desired, true).(lifecycle := Deactivating);
    Overlooks(r.(made := begun.made), begun);
  }

  lemma DisposeMeaning(r: Runtime)
    requires Valid(r) && Meaning(r) && r.queue != [] && r.stage == NotStarted && r.queue[0].Dispose?
    ensures Meaning(Start(r))
  {
    hide Bookkept, StartCleaning, Done;
    FencedBooks(r);
    DoneMeaning(r);
    var begun := BeginTransition(r, RendererDisposed, r.desired, true).(lifecycle := Deactivating);
    StartCleaningMeaning(begun, begun.epoch);
  }

  /** Only the task that ends the transition sees it stable again. */
  lemma EndWithMeaning(r: Runtime, epoch: nat, lifecycle: Lifecycle)
    requires Meaning(r) && r.queue != [] && (EpochOf(r.queue[0]) == Some(epoch) || (r.stage.Cleaning? && r.stage.epoch == epoch))
    requires lifecycle == Failed || (lifecycle == EnabledIdle && r.desired)
             || (lifecycle == Disabled && !r.desired && (r.epoch == epoch ==> r.generation.None? && r.cleanupPending.None?))
    ensures Meaning(EndWith(r, epoch, lifecycle))
  {
    hide Done;
    if r.epoch == epoch { DoneMeaning(FinishTransition(r, epoch).(lifecycle := lifecycle)); } else { DoneMeaning(r); }
  }

  lemma EndEnableMeaning(r: Runtime, epoch: nat)
    requires Meaning(r) && r.queue != [] && r.queue[0] == Enable(epoch)
    ensures Meaning(EndEnable(r, epoch))
  {
    hide Done;
    if r.epoch == epoch {
      var lifecycle := if !r.desired || r.cleanupPending.Some? then Failed else if r.generation.None? then EnabledIdle else r.lifecycle;
      DoneMeaning(FinishTransition(r, epoch).(lifecycle := lifecycle));
    } else {
      DoneMeaning(r);
    }
  }

  lemma StartMeaning(r: Runtime)
    requires Valid(r) && Meaning(r) && Enabled(r, TaskStarts)
    ensures Meaning(Start(r))
  {
    hide Bookkept, StartCleaning, Done, EndEnable;
    match r.queue[0]
    case Enable(epoch) => EndEnableMeaning(r, epoch);
    case SetSetting(_, _) => DoneMeaning(r);
    case Dispose(_, _) => DisposeMeaning(r);
    case Disable(epoch) => StartCleaningMeaning(r, epoch);
    case Replace(epoch) => StartCleaningMeaning(r, epoch);
    case Shutdown(epoch) => StartCleaningMeaning(r, epoch);
  }

  lemma ReplaceOverMeaning(r: Runtime, lease: string)
    requires Valid(r) && Meaning(r) && r.queue != [] && r.queue[0] == Replace(r.epoch) && r.stage.Cleaning?
    requires !r.desired ==> r.generation.None? && r.cleanupPending.None?
    ensures Meaning(ReplaceOver(FinishTransition(r, r.epoch), lease))
  {
    hide Bookkept, Done;
    var f := FinishTransition(r, r.epoch);
    if !f.desired { DoneMeaning(f.(lifecycle := Disabled)); }
    else if !ActivationIntentAllows(f, f.epoch) { DoneMeaning(f); }
    else { DoneMeaning(Activate(f, lease)); }
  }

  lemma AfterCleanupMeaning(r: Runtime, lease: string)
    requires Valid(r) && Meaning(r) && r.stage.Cleaning? && AttemptOver(r, r.stage.attempt)
    ensures Meaning(AfterCleanup(r, r.stage.epoch, AttemptFailed(r, r.stage.attempt), lease))
  {
    hide Bookkept, Done, ReplaceOver, EndWith;
    var epoch, failed := r.stage.epoch, AttemptFailed(r, r.stage.attempt);
    match r.queue[0]
    case Disable(_) =>
      if !r.desired { EndWithMeaning(r, epoch, if failed then Failed else Disabled); EndDisableIs(r, epoch, failed); }
    case Replace(_) =>
      EndWithMeaning(r, epoch, Failed);
      if r.epoch == epoch { if !failed { ReplaceOverMeaning(r, lease); } } else { DoneMeaning(r); }
    case Shutdown(_) => EndWithMeaning(r, epoch, if failed then Failed else if r.desired then EnabledIdle else Disabled);
    case Dispose(_, _) => EndWithMeaning(r, epoch, Failed);
    case _ =>
  }

  lemma EndDisableIs(r: Runtime, epoch: nat, failed: bool)
    ensures EndDisable(r, epoch, failed) == EndWith(r, epoch, if failed || r.desired then Failed else Disabled)
  {
  }

  lemma AfterPersistMeaning(r: Runtime, ok: bool)
    requires Meaning(r) && r.stage.Persisted?
    ensures Meaning(AfterPersist(r, r.stage.cleanupFailed, ok))
  {
    hide Done, EndWith, EndEnable;
    match r.queue[0]
    case Enable(epoch) =>
      EndEnableMeaning(r, epoch);
      DoneMeaning(FinishTransition(r, epoch).(lifecycle := Failed));
    case Disable(epoch) =>
      EndWithMeaning(r, epoch, if r.stage.cleanupFailed || r.desired then Failed else Disabled);
      EndDisableIs(r, epoch, r.stage.cleanupFailed);
      EndWithMeaning(r, epoch, Failed);
    case _ => DoneMeaning(r);
  }

  lemma ResumeMeaning(r: Runtime, lease: string)
    requires Valid(r) && Meaning(r) && CanResume(r)
    ensures Meaning(Resume(r, lease))
  {
    hide Bookkept, Done, AfterCleanup, AfterPersist;
    match r.stage
    case Cleaning(_, _) => AfterCleanupMeaning(r, lease);
    case Persisted(_, ok) => AfterPersistMeaning(r, ok);
    case _ => DoneMeaning(r);
  }

  /** A save taken over either leaves what is owned, or gives it up under an epoch of its own. */
  lemma AdoptMeaning(r: Runtime, saved: Saved, requested: Saved)
    requires Valid(r) && Meaning(r) && r.share == NoShare
    ensures Meaning(Adopt(r, saved, requested))
  {
    hide SettingsChanged, Bookkept, DisableForGood;
    var adopted := AdoptPersisted(r, saved);
    Overlooks(r, adopted);
    if !saved.desired && (r.generation.Some? || r.cleanupPending.Some?) { DisableForGoodMeaning(adopted); }
  }

  lemma DisableForGoodMeaning(r: Runtime)
    requires Bookkept(r) && !r.desired && EpochsMean(r.queue, r.epoch) && StageMeans(r)
    requires r.generation.Some? || r.cleanupPending.Some?
    ensures Meaning(DisableForGood(r))
  {
    hide Bookkept, CleanupOwned, Awaited;
    var begun := r.(epoch := r.epoch + 1, phase := Disabling, intent := false);
    Overlooks(r, begun);
    CleanupCleans(begun);
  }

  lemma SaveMeaning(r: Runtime, step: Step)
    requires Valid(r) && Meaning(r) && Enabled(r, step)
    requires step.SaveAdopted? || step.ShareCleanedUp? || step.ShareSettingsApplied? || step.PersistEnds?
    ensures Meaning(Apply(r, step))
  {
    hide Bookkept, Adopt;
    match step
    case SaveAdopted(saved, requested, _) => AdoptMeaning(r, saved, requested);
    case _ =>
  }

  /** Every step keeps it. */
  lemma StepMeaning(r: Runtime, step: Step)
    requires Valid(r) && Meaning(r) && Enabled(r, step)
    ensures Meaning(Apply(r, step))
  {
    hide Valid, Meaning, Start, Resume, OpenFailed;
    match step
    case TaskStarts => StartMeaning(r);
    case TaskResumes(lease) => ResumeMeaning(r, lease);
    case WorkFails(g) => OpenFailedMeaning(r, g);
    case SaveAdopted(_, _, _) => SaveMeaning(r, step);
    case ShareCleanedUp => SaveMeaning(r, step);
    case ShareSettingsApplied(_) => SaveMeaning(r, step);
    case PersistEnds(_) => SaveMeaning(r, step);
    case Triggered(_) => HostMeaning(r, step);
    case WorkSucceeds(_) => HostMeaning(r, step);
    case FailureCleanedUp(_) => HostMeaning(r, step);
    case AttemptEnds(_, _) => HostMeaning(r, step);
    case ServiceAnswers(_, _) => HostMeaning(r, step);
    case ServiceExits(_, _) => HostMeaning(r, step);
    case _ => CallMeaning(r, step);
  }

  // --- Whole runs ---

  lemma NextMeaning(s: Registry, event: Event, id: string)
    requires Invariant(s) && Possible(s, event) && id in s.runtimes && Meaning(s.runtimes[id])
    ensures id in Next(s, event).runtimes && Meaning(Next(s, event).runtimes[id])
  {
    hide Next, Possible, StepOf, Enabled, Apply, Meaning, PluginRuntimes.Valid, Agrees, Queued, OneAtWork;
    PluginStep(s, event, id);
    var part := StepOf(s, event, id);
    if part.Some? { StepMeaning(s.runtimes[id], part.value); }
  }

  lemma {:induction false} RunMeaning(states: seq<Registry>, events: seq<Event>, id: string, n: nat)
    requires Run(states, events) && id in states[0].runtimes && n < |states|
    ensures id in states[n].runtimes && PluginRuntimes.Valid(states[n].runtimes[id]) && Meaning(states[n].runtimes[id])
  {
    hide Next, Possible, Initial, Invariant, Meaning, Fresh;
    RunInvariant(states, events, n);
    RecordValid(states[n], id);
    if n == 0 {
      InitialMeaning(states[0], id);
    } else {
      var m := n - 1;
      RunMeaning(states, events, id, m);
      RunInvariant(states, events, m);
      assert Follows(states[m], events[m], states[n]);
      NextMeaning(states[m], events[m], id);
    }
  }

  lemma RecordValid(s: Registry, id: string)
    requires Invariant(s) && id in s.runtimes
    ensures PluginRuntimes.Valid(s.runtimes[id])
  {
  }

  lemma InitialMeaning(s: Registry, id: string)
    requires Initial(s) && id in s.runtimes
    ensures Meaning(s.runtimes[id])
  {
    hide Fresh, Meaning;
    FreshMeaning(s.runtimes[id]);
  }

  /** At every moment of every run, a stable record that is `enabled-idle` is desired, one
      that is `disabled` is not, and a disabled one owns nothing. */
  lemma IdleAlways(states: seq<Registry>, events: seq<Event>, id: string, n: nat)
    requires Run(states, events) && id in states[0].runtimes && n < |states|
    ensures id in states[n].runtimes
    ensures var r := states[n].runtimes[id];
            (r.phase == Stable ==> (r.lifecycle == EnabledIdle ==> r.desired) && (r.lifecycle == Disabled ==> !r.desired))
            && (r.lifecycle == Disabled ==> r.generation.None? && r.cleanupPending.None?)
  {
    hide Run, PluginRuntimes.Valid;
    RunMeaning(states, events, id, n);
  }

  /** No transition is left behind: once a plugin's queue is empty and no reconciliation
      cleans up for it, its record is stable. */
  lemma NoneLeftBehind(states: seq<Registry>, events: seq<Event>, id: string, n: nat)
    requires Run(states, events) && id in states[0].runtimes && n < |states|
    ensures id in states[n].runtimes
    ensures var r := states[n].runtimes[id]; r.queue == [] && !r.share.SharedCleanup? ==> r.phase == Stable
  {
    hide Run, PluginRuntimes.Valid;
    RunMeaning(states, events, id, n);
  }

  /** The reconciliation of a save has failed once a plugin's cleanup or its settings have,
      and by nothing else, until the save is over. */
  lemma SettlingFailsBy(s: Registry, event: Event)
    requires Possible(s, event) && s.save.Settling? && !event.SettlingEnds?
    ensures var failing := event.Local? && (event.step == ShareSettingsApplied(true)
                           || (event.step.ShareCleanedUp? && AttemptFailed(s.runtimes[event.id], Some(s.runtimes[event.id].share.attempt))));
            Next(s, event).save == Settling(s.save.failed || failing)
  {
    hide Apply, Moved, StepOf;
  }

  /** How a save ends for the task that asked for it: well exactly if the store kept it and
      the reconciliation did not fail; and a save that throws changes nothing persisted. */
  lemma SaveEnds(s: Registry, event: Event)
    requires Invariant(s) && Possible(s, event) && (event.SaveThrows? || event.SettlingEnds?)
    ensures s.tail != [] && s.tail[0] in s.runtimes && InSave(s.runtimes[s.tail[0]].stage)
    ensures var r, t := s.runtimes[s.tail[0]], Next(s, event);
            t.runtimes[s.tail[0]] == r.(stage := Persisted(r.stage.cleanupFailed, event.SettlingEnds? && !s.save.failed))
            && t.persisted == s.persisted && t.tail == s.tail[1..] && t.save == Waiting
  {
    hide PluginRuntimes.Valid, Agrees;
    HeadAtWork(s);
  }

  // --- What each task comes to ---

  /** The first task starts or runs on, and leaves the queue. */
  predicate Leaves(r: Runtime, step: Step)
  {
    (step.TaskStarts? || step.TaskResumes?) && Enabled(r, step) && r.queue != [] && |Apply(r, step).queue| < |r.queue|
  }

  predicate OwnsNothing(r: Runtime)
  {
    r.generation.None? && r.cleanupPending.None?
  }

  predicate SaveFailed(r: Runtime)
  {
    r.stage.Persisted? && !r.stage.ok
  }

  /** The cleanup that the first task waited for, now or before its save, has failed. */
  predicate CleanupFailed(r: Runtime)
  {
    if r.stage.Cleaning? then AttemptOver(r, r.stage.attempt) && AttemptFailed(r, r.stage.attempt)
    else InSave(r.stage) && r.stage.cleanupFailed
  }

  /** The end of a task changes neither what is owned and desired nor the tasks behind it. */
  ghost predicate OnlyEnds(r: Runtime, s: Runtime)
    requires r.queue != []
  {
    s == r.(lifecycle := s.lifecycle, phase := s.phase, intent := s.intent, queue := r.queue[1..], stage := NotStarted)
  }

  /** The transition of this epoch is over. */
  ghost predicate IsOver(r: Runtime, epoch: nat, s: Runtime)
  {
    if r.epoch == epoch then s.phase == Stable && s.intent == s.desired else s.phase == r.phase && s.intent == r.intent
  }

  /** What a step of the first task is. */
  lemma TaskStep(r: Runtime, step: Step)
    requires Meaning(r) && Enabled(r, step) && (step.TaskStarts? || step.TaskResumes?)
    ensures r.queue != []
    ensures step.TaskStarts? ==> r.stage == NotStarted && Apply(r, step) == Start(r)
    ensures step.TaskResumes? ==>
      match r.stage
      case Cleaning(attempt, epoch) =>
        AttemptOver(r, attempt) && !r.queue[0].Enable? && Apply(r, step) == AfterCleanup(r, epoch, AttemptFailed(r, attempt), step.lease)
        && (r.queue[0].Dispose? || EpochOf(r.queue[0]) == Some(epoch))
      case Persisted(failed, ok) =>
        (r.queue[0].Enable? || r.queue[0].Disable? || r.queue[0].SetSetting?) && Apply(r, step) == AfterPersist(r, failed, ok)
      case AwaitingActivation(_) => r.queue[0].Replace?
      case _ => false
  {
    hide Start, AfterCleanup, AfterPersist, HasOwner, IdleMeans, DisabledMeans, ShareMeans, CleaningMeans, DisablingMeans, EpochsMean;
  }

  /** An enable whose save went well and whose transition is still current ends
      `enabled-idle` if nothing is owned, and `failed` if a cleanup is pending or the
      plugin is not desired after all; a failed save is always told. */
  lemma EnableEnds(r: Runtime, step: Step, epoch: nat)
    requires Valid(r) && Meaning(r) && Leaves(r, step) && r.queue[0] == Enable(epoch)
    ensures var s := Apply(r, step);
            OnlyEnds(r, s) && IsOver(r, epoch, s)
            && (SaveFailed(r) ==> s.lifecycle == Failed)
            && (!SaveFailed(r) && r.epoch != epoch ==> s.lifecycle == r.lifecycle)
            && (!SaveFailed(r) && r.epoch == epoch ==>
                  (s.lifecycle == EnabledIdle <== r.desired && OwnsNothing(r))
                  && (s.lifecycle == Failed <== !r.desired || r.cleanupPending.Some?)
                  && (s.lifecycle == r.lifecycle <== r.desired && r.generation.Some?))
  {
    hide Valid, Meaning, Apply, Enabled, EndEnable;
    TaskStep(r, step);
    OwnsOne(r);
    EndEnableIs(r, epoch);
  }

  lemma OwnsOne(r: Runtime)
    requires Valid(r)
    ensures r.generation.Some? ==> r.cleanupPending.None?
  {
  }

  lemma EndEnableIs(r: Runtime, epoch: nat)
    requires r.queue != []
    ensures var s := EndEnable(r, epoch);
            OnlyEnds(r, s) && IsOver(r, epoch, s)
            && s.lifecycle == (if r.epoch != epoch || (r.desired && r.cleanupPending.None? && r.generation.Some?) then r.lifecycle
                               else if r.desired && r.cleanupPending.None? then EnabledIdle else Failed)
  {
  }

  lemma EndWithEnds(r: Runtime, epoch: nat, lifecycle: Lifecycle)
    requires r.queue != []
    ensures var s := EndWith(r, epoch, lifecycle);
            OnlyEnds(r, s) && IsOver(r, epoch, s) && s.lifecycle == if r.epoch == epoch then lifecycle else r.lifecycle
  {
  }

  /** A disable whose transition is still current ends `disabled` exactly if its save went
      well, the plugin is not desired and the cleanup succeeded, and then nothing is owned;
      otherwise it ends `failed`. */
  lemma DisableEnds(r: Runtime, step: Step, epoch: nat)
    requires Valid(r) && Meaning(r) && Leaves(r, step) && r.queue[0] == Disable(epoch)
    ensures var s := Apply(r, step);
            OnlyEnds(r, s) && IsOver(r, epoch, s)
            && (r.epoch != epoch ==> s.lifecycle == r.lifecycle)
            && (r.epoch == epoch ==>
                  (s.lifecycle == Disabled || s.lifecycle == Failed)
                  && (s.lifecycle == Disabled <==> !SaveFailed(r) && !r.desired && !CleanupFailed(r))
                  && (s.lifecycle == Disabled ==> OwnsNothing(s)))
  {
    hide Valid, Meaning, Apply, Enabled, EndDisable, EndWith, StartCleaning;
    TaskStep(r, step);
    StepMeaning(r, step);
    MeaningParts(Apply(r, step));
    CleaningSame(r, epoch);
    EndWithEnds(r, epoch, Failed);
    EndWithEnds(r, epoch, Disabled);
    EndDisableIs(r, epoch, CleanupFailed(r));
  }

  /** A shutdown ends `failed` exactly if its cleanup failed, and else in what is desired. */
  lemma ShutdownEnds(r: Runtime, step: Step, epoch: nat)
    requires Valid(r) && Meaning(r) && Leaves(r, step) && r.queue[0] == Shutdown(epoch)
    ensures var s := Apply(r, step);
            OnlyEnds(r, s) && IsOver(r, epoch, s)
            && (r.epoch != epoch ==> s.lifecycle == r.lifecycle)
            && (r.epoch == epoch ==>
                  (s.lifecycle == Failed <==> CleanupFailed(r))
                  && (s.lifecycle == EnabledIdle <==> !CleanupFailed(r) && r.desired)
                  && (s.lifecycle == Disabled <==> !CleanupFailed(r) && !r.desired))
  {
    hide Valid, Meaning, Apply, Enabled, EndWith, StartCleaning;
    TaskStep(r, step);
    CleaningSame(r, epoch);
    EndWithEnds(r, epoch, Failed);
    EndWithEnds(r, epoch, EnabledIdle);
    EndWithEnds(r, epoch, Disabled);
  }

  /** A disposal of the owned lease ends `failed` whatever its cleanup came to; of any other
      lease it changes nothing. */
  lemma DisposalEnds(r: Runtime, step: Step, lease: string, number: nat)
    requires Valid(r) && Meaning(r) && Leaves(r, step) && r.queue[0] == Dispose(lease, number)
    ensures var s := Apply(r, step);
            OnlyEnds(r, s)
            && (r.stage == NotStarted ==> s.lifecycle == r.lifecycle && s.phase == r.phase && s.intent == r.intent)
            && (r.stage.Cleaning? ==>
                  IsOver(r, r.stage.epoch, s) && s.lifecycle == if r.epoch == r.stage.epoch then Failed else r.lifecycle)
  {
    hide Valid, Meaning, Apply, Enabled, EndWith, StartCleaning;
    TaskStep(r, step);
    var begun := BeginTransition(r, RendererDisposed, r.desired, true).(lifecycle := Deactivating);
    CleaningSame(begun, begun.epoch);
    if r.stage.Cleaning? { EndWithEnds(r, r.stage.epoch, Failed); }
  }

  /** A replacement whose transition is under way, once its cleanup is over: it fails with
      the cleanup, or leaves a plugin that is no longer desired `disabled`, or else opens
      the next generation. */
  lemma ReplacementEnds(r: Runtime, lease: string, epoch: nat)
    requires Valid(r) && Meaning(r) && r.stage.Cleaning? && Enabled(r, TaskResumes(lease)) && r.queue[0] == Replace(epoch)
    requires r.epoch == epoch && r.phase != Stable
    ensures var s := Apply(r, TaskResumes(lease));
            s.phase == Stable && s.intent == r.desired == s.desired && s.epoch == r.epoch
            && (CleanupFailed(r) ==> OnlyEnds(r, s) && s.lifecycle == Failed)
            && (!CleanupFailed(r) && !r.desired ==> OnlyEnds(r, s) && s.lifecycle == Disabled)
            && (!CleanupFailed(r) && r.desired ==>
                  s.counter == r.counter + 1 && s.generation == Some(s.counter) && s.lifecycle == Activating
                  && s.made == r.made[s.counter := Generation(if r.inEditor then Some(lease) else None, false, None, epoch, Opening, Held, None)]
                  && s.stage == AwaitingActivation(s.counter) && s.queue == r.queue && s.cleanupPending.None?)
  {
    hide Apply, Enabled, EndWith, Linked, Owned, HasOwner, IdleMeans, DisabledMeans, ShareMeans, DisablingMeans, EpochsMean;
    TaskStep(r, TaskResumes(lease));
    EndWithEnds(r, epoch, Failed);
  }

  // --- Which steps change the lifecycle ---

  /** What these steps always do to it. */
  lemma LifecycleOf(r: Runtime, step: Step)
    requires Valid(r) && Enabled(r, step)
    ensures var s := Apply(r, step);
            match step
            case WorkSucceeds(_) => s.lifecycle == Active
            case FailureCleanedUp(_) => s.lifecycle == Failed
            case ServiceExits(g, service) =>
              s.lifecycle == if r.generation == Some(g) && r.made[g].service == Some(service) then Crashed else r.lifecycle
            case ShareCleanedUp => s.lifecycle == (if AttemptFailed(r, Some(r.share.attempt)) then Failed else Disabled) && s.phase == Stable
            case ShareSettingsApplied(failed) => s.lifecycle == if failed then Failed else r.lifecycle
            case DisableCalled => s.lifecycle == Deactivating
            case ReplaceCalled => s.lifecycle == if ActivationIntentAllows(r, r.epoch) then Deactivating else r.lifecycle
            case ShutdownCalled => s.lifecycle == if OwnsNothing(r) then r.lifecycle else Deactivating
            case Triggered(_) =>
              s.lifecycle == if ActivationIntentAllows(r, r.epoch) && r.generation.None? then Activating else r.lifecycle
            case SaveAdopted(saved, _, _) =>
              s.lifecycle == (if OwnsNothing(r) && r.phase == Stable && r.lifecycle != Failed then (if saved.desired then EnabledIdle else Disabled)
                              else if !saved.desired && !OwnsNothing(r) && !(r.phase == Disabling && !r.intent) then Deactivating
                              else r.lifecycle)
            case _ => step.TaskStarts? || step.TaskResumes? || s.lifecycle == r.lifecycle
  {
    hide Linked, Waits, SettingsChanged, CleanupOwned;
  }

  /** The step is one that means the lifecycle it has brought about. */
  ghost predicate MeantBy(r: Runtime, step: Step, s: Runtime)
    requires Enabled(r, step)
  {
    match s.lifecycle
    case Discovered => false
    case Activating => step.Triggered? || (step.TaskResumes? && r.queue != [] && r.queue[0].Replace?)
    case Active => step.WorkSucceeds? && r.generation == Some(step.g)
    case Crashed => step.ServiceExits? && r.generation == Some(step.g)
    case Deactivating => step.DisableCalled? || step.ReplaceCalled? || step.ShutdownCalled?
                         || (step.TaskStarts? && r.queue[0].Dispose?) || (step.SaveAdopted? && !s.desired)
    case EnabledIdle => s.desired && s.phase == Stable && (step.SaveAdopted? || step.TaskStarts? || step.TaskResumes?)
    case Disabled => !s.desired && OwnsNothing(s) && s.phase == Stable && (step.SaveAdopted? || step.ShareCleanedUp? || step.TaskResumes?)
    case Failed => step.FailureCleanedUp? || step == ShareSettingsApplied(true) || step.TaskStarts? || step.TaskResumes?
                   || (step.ShareCleanedUp? && AttemptFailed(r, Some(r.share.attempt)))
  }

  lemma CleaningSame(r: Runtime, epoch: nat)
    ensures StartCleaning(r, epoch).lifecycle == r.lifecycle && |StartCleaning(r, epoch).queue| == |r.queue|
  {
    hide Awaited;
  }

  lemma StartBy(r: Runtime)
    requires Valid(r) && Meaning(r) && Enabled(r, TaskStarts) && Start(r).lifecycle != r.lifecycle
    ensures MeantBy(r, TaskStarts, Start(r))
  {
    hide Valid, Meaning, StartCleaning, EndEnable;
    match r.queue[0]
    case Enable(epoch) => EndEnableIs(r, epoch);
    case Disable(epoch) => CleaningSame(r, epoch);
    case Replace(epoch) => CleaningSame(r, epoch);
    case Shutdown(epoch) => CleaningSame(r, epoch);
    case Dispose(_, _) =>
      var begun := BeginTransition(r, RendererDisposed, r.desired, true).(lifecycle := Deactivating);
      CleaningSame(begun, begun.epoch);
    case SetSetting(_, _) =>
  }

  lemma CleanedBy(r: Runtime, lease: string)
    requires Valid(r) && Meaning(r) && r.stage.Cleaning? && CanResume(r) && Resume(r, lease).lifecycle != r.lifecycle
    ensures MeantBy(r, TaskResumes(lease), Resume(r, lease))
  {
    hide Valid, Meaning, EndWith, EndDisable, ReplaceOver, FinishTransition, Done;
    ResumeMeaning(r, lease);
    MeaningParts(r);
    MeaningParts(Resume(r, lease));
    var epoch, failed := r.stage.epoch, AttemptFailed(r, r.stage.attempt);
    DoneSameLifecycle(r);
    match r.queue[0]
    case Disable(_) =>
      EndDisableIs(r, epoch, failed);
      EndWithIs(r, epoch, if failed || r.desired then Failed else Disabled);
    case Replace(_) => EndWithIs(r, epoch, Failed); if r.epoch == epoch { ReplaceOverBy(r, epoch, lease); }
    case Shutdown(_) => EndWithIs(r, epoch, if failed then Failed else if r.desired then EnabledIdle else Disabled);
    case Dispose(_, _) => EndWithIs(r, epoch, Failed);
    case _ =>
  }

  lemma DoneSameLifecycle(r: Runtime)
    ensures Done(r).lifecycle == r.lifecycle
  {
  }

  lemma ReplaceOverBy(r: Runtime, epoch: nat, lease: string)
    requires r.epoch == epoch
    ensures var s := ReplaceOver(FinishTransition(r, epoch), lease);
            s.phase == Stable && s.desired == r.desired
            && (s.lifecycle == r.lifecycle || s.lifecycle == Activating || (s.lifecycle == Disabled && !r.desired))
  {
  }

  lemma EndWithIs(r: Runtime, epoch: nat, lifecycle: Lifecycle)
    ensures var s := EndWith(r, epoch, lifecycle);
            s.desired == r.desired && (s.lifecycle == r.lifecycle || (s.lifecycle == lifecycle && s.phase == Stable))
  {
  }

  lemma PersistedBy(r: Runtime, lease: string)
    requires Valid(r) && Meaning(r) && r.stage.Persisted? && Resume(r, lease).lifecycle != r.lifecycle
    ensures MeantBy(r, TaskResumes(lease), Resume(r, lease))
  {
    hide Valid, Meaning, EndWith, EndEnable, EndDisable, Done;
    ResumeMeaning(r, lease);
    MeaningParts(r);
    MeaningParts(Resume(r, lease));
    DoneSameLifecycle(r);
    match r.queue[0]
    case Enable(epoch) => EndEnableIs(r, epoch); DoneSameLifecycle(FinishTransition(r, epoch).(lifecycle := Failed));
    case Disable(epoch) =>
      EndDisableIs(r, epoch, r.stage.cleanupFailed);
      EndWithIs(r, epoch, if r.stage.cleanupFailed || r.desired then Failed else Disabled);
      EndWithIs(r, epoch, Failed);
    case _ =>
  }

  lemma ResumeBy(r: Runtime, lease: string)
    requires Valid(r) && Meaning(r) && CanResume(r) && Resume(r, lease).lifecycle != r.lifecycle
    ensures MeantBy(r, TaskResumes(lease), Resume(r, lease))
  {
    hide Valid, Meaning, AfterCleanup, AfterPersist;
    match r.stage
    case Cleaning(_, _) => CleanedBy(r, lease);
    case Persisted(_, _) => PersistedBy(r, lease);
    case _ =>
  }

  /** Every lifecycle that a step brings about is brought about by a step that means it. */
  lemma LifecycleBy(r: Runtime, step: Step)
    requires Valid(r) && Meaning(r) && Enabled(r, step) && Apply(r, step).lifecycle != r.lifecycle
    ensures MeantBy(r, step, Apply(r, step))
  {
    hide Valid, Meaning, Start, Resume, OpenFailed, Adopt;
    StepMeaning(r, step);
    LifecycleOf(r, step);
    if step.TaskStarts? { StartBy(r); }
    else if step.TaskResumes? { ResumeBy(r, step.lease); }
    else { OtherBy(r, step); }
  }

  lemma OtherBy(r: Runtime, step: Step)
    requires Valid(r) && Meaning(r) && Enabled(r, step) && Apply(r, step).lifecycle != r.lifecycle
    requires !step.TaskStarts? && !step.TaskResumes?
    ensures MeantBy(r, step, Apply(r, step))
  {
    hide Valid, Meaning, Adopt, OpenFailed;
    LifecycleOf(r, step);
    MeaningParts(r);
    match step
    case SaveAdopted(saved, requested, own) => AdoptBy(r, saved, requested);
    case WorkFails(g) => OpenFailedSame(r, g);
    case ShareCleanedUp => StepMeaning(r, step); MeaningParts(Apply(r, step));
    case _ =>
  }

  lemma MeaningParts(r: Runtime)
    requires Meaning(r)
    ensures IdleMeans(r) && DisabledMeans(r) && StageMeans(r)
  {
  }

  lemma AdoptBy(r: Runtime, saved: Saved, requested: Saved)
    ensures var s := Adopt(r, saved, requested);
            s.desired == saved.desired
            && (r.phase == Stable && OwnsNothing(r) ==> s.phase == Stable && OwnsNothing(s))
  {
    hide SettingsChanged, CleanupOwned;
    AdoptMemory(r, saved, requested);
  }

  /** Which calls begin a transition of their own, and which of them abort the generation. */
  lemma CallBegins(r: Runtime, step: Step)
    requires IsCall(step)
    ensures var s := Apply(r, step);
            var begins := step.DisableCalled? || step.ShutdownCalled? || (step.EnableCalled? && !(r.desired && r.phase == Stable))
                          || (step.ReplaceCalled? && ActivationIntentAllows(r, r.epoch));
            s.epoch == (if begins then r.epoch + 1 else r.epoch) && (begins ==> s.phase != Stable) && (!begins ==> s.phase == r.phase)
            && s.made == (if begins && !step.EnableCalled? then Abort(r.made, r.generation) else r.made)
            && (if step.ReplaceCalled? && !begins then s == r
                else |s.queue| == |r.queue| + 1 && s.queue[..|r.queue|] == r.queue
                     && (step.EnableCalled? || begins ==> EpochOf(s.queue[|r.queue|]) == Some(s.epoch)))
            && s.generation == r.generation && s.cleanupPending == r.cleanupPending && s.desired == r.desired
            && s.intent == (if !begins then r.intent else if step.DisableCalled? then false
                            else if step.ShutdownCalled? then r.desired else true)
  {
    hide Abort;
  }

  /** A trigger opens the next generation exactly if the plugin is wanted, stable, owns
      nothing and has none, and changes nothing otherwise. */
  lemma TriggeredOpens(r: Runtime, lease: string)
    ensures var s := Apply(r, Triggered(lease));
            if r.phase == Stable && r.intent && r.desired && OwnsNothing(r) then
              s == r.(counter := r.counter + 1, generation := Some(r.counter + 1), lifecycle := Activating, made := s.made)
              && s.made == r.made[r.counter + 1 := Generation(if r.inEditor then Some(lease) else None, false, None, r.epoch, Opening, Held, None)]
            else s == r
  {
  }

  /** A disposal is stale, and ends at once, exactly if the record does not own the
      generation it names under the lease it names. */
  lemma DisposalStarts(r: Runtime, lease: string, number: nat)
    requires Valid(r) && Enabled(r, TaskStarts) && r.queue[0] == Dispose(lease, number)
    ensures Leaves(r, TaskStarts)
            <==> !((r.generation == Some(number) || r.cleanupPending == Some(number)) && r.made[number].lease == Some(lease))
    ensures !Leaves(r, TaskStarts) ==>
      Apply(r, TaskStarts).epoch == r.epoch + 1 && Apply(r, TaskStarts).phase == RendererDisposed
      && Apply(r, TaskStarts).lifecycle == Deactivating && Apply(r, TaskStarts).intent == r.desired && Apply(r, TaskStarts).generation.None?
  {
    hide Linked, Waits, Awaited;
    var begun := BeginTransition(r, RendererDisposed, r.desired, true).(lifecycle := Deactivating);
    CleaningSame(begun, begun.epoch);
  }

  /** What a plugin has to do about a save: tell a live lease of settings that differ from
      what it has or from what was asked, or clean up what it owns when it is not wanted. */
  lemma SharesBy(r: Runtime, saved: Saved, requested: Saved, own: bool)
    requires Valid(r) && Enabled(r, SaveAdopted(saved, requested, own))
    ensures var s := Apply(r, SaveAdopted(saved, requested, own));
            var off := !saved.desired && !OwnsNothing(r) && !(r.phase == Disabling && !r.intent);
            var told := saved.desired && r.inEditor && r.generation.Some? && r.made[r.generation.value].lease.Some?
                        && exists key :: key in r.keys && (!SameAt(r.settings, saved.settings, key) || !SameAt(requested.settings, saved.settings, key));
            (s.share.SharedCleanup? <==> off) && (s.share.SharedSettings? <==> told)
            && s.desired == saved.desired && s.settings == saved.settings
            && (off ==> s.generation.None? && s.cleanupPending.Some? && s.epoch == r.epoch + 1 && s.phase == Disabling && !s.intent)
            && (!off ==> s.generation == r.generation && s.cleanupPending == r.cleanupPending && s.epoch == r.epoch && s.phase == r.phase)
  {
    hide Linked, Waits, CleanupOwned, Awaited, SameAt;
    var adopted := AdoptPersisted(r, saved);
    Overlooks(r, adopted);
    var begun := adopted.(epoch := r.epoch + 1, phase := Disabling, intent := false);
    Overlooks(r, begun);
    CleanupCleans(begun);
  }

  // --- Tasks from their call to their end ---

  /** The record after these steps, if each can be taken. */
  function After(r: Runtime, steps: seq<Step>): Option<Runtime>
    decreases |steps|
  {
    if steps == [] then Some(r)
    else if !Enabled(r, steps[0]) then None
    else After(Apply(r, steps[0]), steps[1..])
  }

  /** The record has nothing to do and no transition under way. */
  ghost predicate AtRest(r: Runtime)
  {
    r.queue == [] && r.stage == NotStarted && r.share == NoShare && r.phase == Stable
  }

  predicate Takes(r: Runtime, step: Step, s: Runtime)
  {
    Enabled(r, step) && Apply(r, step) == s
  }

  lemma OneMore(r: Runtime, step: Step, s: Runtime, rest: seq<Step>, end: Runtime)
    requires Takes(r, step, s) && After(s, rest) == Some(end)
    ensures After(r, [step] + rest) == Some(end)
  {
    hide Enabled, Apply;
    assert ([step] + rest)[1..] == rest;
  }

  lemma {:induction false} Follow(records: seq<Runtime>, steps: seq<Step>)
    requires |records| == |steps| + 1 && forall i :: 0 <= i < |steps| ==> var j := i + 1; Takes(records[i], steps[i], records[j])
    ensures After(records[0], steps) == Some(records[|steps|])
    decreases |steps|
  {
    hide Takes;
    if steps != [] {
      var rest, later := steps[1..], records[1..];
      forall i | 0 <= i < |rest| ensures var j := i + 1; Takes(later[i], rest[i], later[j]) {
        var j := i + 1;
        var k := j + 1;
        assert Takes(records[j], steps[j], records[k]);
      }
      Follow(later, rest);
      assert steps == [steps[0]] + rest;
      OneMore(records[0], steps[0], records[1], rest, records[|steps|]);
    }
  }

  lemma EnableAsks(r: Runtime, called: Runtime)
    requires AtRest(r) && !r.desired
    requires called == r.(epoch := r.epoch + 1, phase := Enabling, intent := true, queue := [Enable(r.epoch + 1)])
    ensures Takes(r, EnableCalled, called) && Takes(called, TaskStarts, called.(stage := Persisting(false)))
  {
    assert r.queue + [Enable(r.epoch + 1)] == called.queue;
  }

  /** A save of the first task's own is taken over where nothing is to be reconciled, and
      done with. */
  lemma SaveTakes(r: Runtime, saved: Saved, requested: Saved, cleanupFailed: bool, adopted: Runtime)
    requires r.stage == Persisting(cleanupFailed) && r.share == NoShare && r.generation.None?
    requires (r.phase == Enabling && r.cleanupPending.None?) || (r.phase == Disabling && !r.intent)
    requires adopted == r.(desired := saved.desired, settings := saved.settings, stage := Reconciling(cleanupFailed))
    ensures Takes(r, SaveAdopted(saved, requested, true), adopted)
    ensures Takes(adopted, PersistEnds(true), adopted.(stage := Persisted(cleanupFailed, true)))
  {
    hide SettingsChanged, DisableForGood;
  }

  /** Enabling a plugin that is off and at rest, by itself: `enabled-idle` if the save keeps
      it wanted, `failed` if it comes back without it. */
  lemma EnableFromRest(r: Runtime, saved: Saved, requested: Saved, lease: string)
    requires AtRest(r) && OwnsNothing(r) && !r.desired
    ensures After(r, [EnableCalled, TaskStarts, SaveAdopted(saved, requested, true), PersistEnds(true), TaskResumes(lease)])
            == Some(r.(epoch := r.epoch + 1, intent := saved.desired, desired := saved.desired, settings := saved.settings,
                       lifecycle := if saved.desired then EnabledIdle else Failed))
  {
    hide Takes, Apply, After, Abort, CanResume, CleanupFailed, Enabled;
    var called := r.(epoch := r.epoch + 1, phase := Enabling, intent := true, queue := [Enable(r.epoch + 1)]);
    var asking := called.(stage := Persisting(false));
    var adopted := asking.(desired := saved.desired, settings := saved.settings, stage := Reconciling(false));
    var persisted := adopted.(stage := Persisted(false, true));
    var end := r.(epoch := r.epoch + 1, intent := saved.desired, desired := saved.desired, settings := saved.settings,
                  lifecycle := if saved.desired then EnabledIdle else Failed);
    EnableAsks(r, called);
    SaveTakes(asking, saved, requested, false, adopted);
    EnableOver(persisted, lease);
    assert end.queue == persisted.queue[1..];
    Follow([r, called, asking, adopted, persisted, end],
           [EnableCalled, TaskStarts, SaveAdopted(saved, requested, true), PersistEnds(true), TaskResumes(lease)]);
  }

  lemma EnableOver(r: Runtime, lease: string)
    requires r.stage == Persisted(false, true) && r.queue == [Enable(r.epoch)] && OwnsNothing(r)
    ensures Takes(r, TaskResumes(lease), r.(phase := Stable, intent := r.desired, lifecycle := if r.desired then EnabledIdle else Failed,
                                            queue := [], stage := NotStarted))
  {
  }

  /** The plugin runs: its generation is live and its own. */
  ghost predicate Runs(r: Runtime, g: nat)
  {
    AtRest(r) && r.desired && r.intent && r.lifecycle == Active && r.generation == Some(g) && r.cleanupPending.None?
    && g in r.made && !r.made[g].aborted && r.made[g].attempt.None? && r.made[g].fate == Held
  }

  /** The first task has given generation g up and waits for its cleanup. */
  function GivenUp(r: Runtime, g: nat): Runtime
    requires g in r.made
  {
    r.(generation := None, cleanupPending := Some(g), attempts := r.attempts + [Attempt(g, None)],
       made := r.made[g := r.made[g].(aborted := true, attempt := Some(|r.attempts|))], stage := Cleaning(Some(|r.attempts|), r.epoch))
  }

  /** The cleanup is over. */
  function CleanedUp(r: Runtime, g: nat, failed: bool): Runtime
    requires g in r.made
  {
    r.(generation := None, cleanupPending := if failed then Some(g) else None, attempts := r.attempts + [Attempt(g, Some(failed))],
       made := r.made[g := r.made[g].(aborted := true, attempt := None, fate := if failed then r.made[g].fate else Released)],
       stage := Cleaning(Some(|r.attempts|), r.epoch))
  }

  lemma CleaningTakes(r: Runtime, g: nat, failed: bool)
    requires r.stage == NotStarted && r.generation == Some(g) && g in r.made && r.made[g].attempt.None? && r.cleanupPending.None?
    requires r.queue == [Disable(r.epoch)] || r.queue == [Replace(r.epoch)] || r.queue == [Shutdown(r.epoch)]
    ensures Takes(r, TaskStarts, GivenUp(r, g))
    ensures Takes(GivenUp(r, g), AttemptEnds(|r.attempts|, failed), CleanedUp(r, g, failed))
    ensures CanResume(CleanedUp(r, g, failed)) && CleanupFailed(CleanedUp(r, g, failed)) == failed
  {
    hide StartCleaning;
    CleaningIs(r, g);
    GivenUpEnds(r, g, failed);
  }

  /** Disabling a running plugin: its generation is released and it ends `disabled`, or the
      cleanup fails and stays pending, and it ends `failed`. */
  lemma DisableRunning(r: Runtime, g: nat, failed: bool, saved: Saved, requested: Saved, lease: string)
    requires Runs(r, g) && !saved.desired
    ensures var end := After(r, [DisableCalled, TaskStarts, AttemptEnds(|r.attempts|, failed), TaskResumes(lease),
                                 SaveAdopted(saved, requested, true), PersistEnds(true), TaskResumes(lease)]);
            end.Some? && AtRest(end.value) && !end.value.desired && !end.value.intent && end.value.generation.None?
            && end.value.lifecycle == (if failed then Failed else Disabled)
            && end.value.cleanupPending == (if failed then Some(g) else None)
            && g in end.value.made && end.value.made[g].aborted && (end.value.made[g].fate == Released <==> !failed)
  {
    hide Takes, Apply, After, Abort, CanResume, CleanupFailed, Enabled, Fenced;
    FencedMade(r, g);
    var called := Fenced(r).(phase := Disabling, intent := false, queue := [Disable(r.epoch + 1)]);
    var cleaned := CleanedUp(called, g, failed);
    var asking := cleaned.(stage := Persisting(failed));
    var adopted := asking.(desired := saved.desired, settings := saved.settings, stage := Reconciling(failed));
    var persisted := adopted.(stage := Persisted(failed, true));
    var end := persisted.(phase := Stable, lifecycle := if failed then Failed else Disabled, queue := [], stage := NotStarted);
    DisableTakes(r);
    CleaningTakes(called, g, failed);
    DisableGoesOn(cleaned, lease, failed);
    SaveTakes(asking, saved, requested, failed, adopted);
    DisableOver(persisted, failed, lease);
    Follow([r, called, GivenUp(called, g), cleaned, asking, adopted, persisted, end],
           [DisableCalled, TaskStarts, AttemptEnds(|r.attempts|, failed), TaskResumes(lease),
            SaveAdopted(saved, requested, true), PersistEnds(true), TaskResumes(lease)]);
  }

  function Fenced(r: Runtime): Runtime
  {
    r.(epoch := r.epoch + 1, made := Abort(r.made, r.generation), lifecycle := Deactivating)
  }

  lemma FencedMade(r: Runtime, g: nat)
    requires r.generation == Some(g) && g in r.made
    ensures g in Fenced(r).made && Fenced(r).made[g] == r.made[g].(aborted := true) && Fenced(r).made.Keys == r.made.Keys
    ensures Fenced(r) == r.(epoch := r.epoch + 1, made := Fenced(r).made, lifecycle := Deactivating)
  {
  }

  lemma DisableTakes(r: Runtime)
    requires AtRest(r)
    ensures Takes(r, DisableCalled, Fenced(r).(phase := Disabling, intent := false, queue := [Disable(r.epoch + 1)]))
  {
    hide Abort;
    assert [] + [Disable(r.epoch + 1)] == [Disable(r.epoch + 1)];
  }

  lemma ShutdownTakes(r: Runtime)
    requires AtRest(r) && r.generation.Some?
    ensures Takes(r, ShutdownCalled, Fenced(r).(phase := ShuttingDown, intent := r.desired, queue := [Shutdown(r.epoch + 1)]))
  {
    hide Abort;
    assert [] + [Shutdown(r.epoch + 1)] == [Shutdown(r.epoch + 1)];
  }

  lemma ReplaceTakes(r: Runtime)
    requires AtRest(r) && r.desired && r.intent && r.cleanupPending.None?
    ensures Takes(r, ReplaceCalled, Fenced(r).(phase := Replacing, intent := true, queue := [Replace(r.epoch + 1)]))
  {
    hide Abort;
    assert [] + [Replace(r.epoch + 1)] == [Replace(r.epoch + 1)];
  }

  lemma DisableGoesOn(r: Runtime, lease: string, failed: bool)
    requires r.stage.Cleaning? && CanResume(r) && CleanupFailed(r) == failed && r.desired && r.queue == [Disable(r.epoch)]
    ensures Takes(r, TaskResumes(lease), r.(stage := Persisting(failed)))
  {
  }

  lemma DisableOver(r: Runtime, failed: bool, lease: string)
    requires r.stage == Persisted(failed, true) && r.queue == [Disable(r.epoch)] && !r.desired && !r.intent
    ensures Takes(r, TaskResumes(lease), r.(phase := Stable, lifecycle := if failed then Failed else Disabled, queue := [], stage := NotStarted))
  {
  }

  /** A shutdown of a running plugin leaves it `enabled-idle`, or `failed` with its cleanup. */
  lemma ShutdownRunning(r: Runtime, g: nat, failed: bool, lease: string)
    requires Runs(r, g)
    ensures var end := After(r, [ShutdownCalled, TaskStarts, AttemptEnds(|r.attempts|, failed), TaskResumes(lease)]);
            end.Some? && AtRest(end.value) && end.value.desired && end.value.intent && end.value.generation.None?
            && end.value.lifecycle == (if failed then Failed else EnabledIdle)
            && end.value.cleanupPending == (if failed then Some(g) else None)
  {
    hide Takes, Apply, After, Abort, CanResume, CleanupFailed, Enabled, Fenced;
    FencedMade(r, g);
    var called := Fenced(r).(phase := ShuttingDown, intent := r.desired, queue := [Shutdown(r.epoch + 1)]);
    var cleaned := CleanedUp(called, g, failed);
    var end := cleaned.(phase := Stable, lifecycle := if failed then Failed else EnabledIdle, queue := [], stage := NotStarted);
    ShutdownTakes(r);
    CleaningTakes(called, g, failed);
    ShutdownOver(cleaned, lease, failed);
    Follow([r, called, GivenUp(called, g), cleaned, end],
           [ShutdownCalled, TaskStarts, AttemptEnds(|r.attempts|, failed), TaskResumes(lease)]);
  }

  lemma ShutdownOver(r: Runtime, lease: string, failed: bool)
    requires r.stage.Cleaning? && r.stage.epoch == r.epoch && CanResume(r) && CleanupFailed(r) == failed
    requires r.desired && r.intent && r.queue == [Shutdown(r.epoch)]
    ensures Takes(r, TaskResumes(lease), r.(phase := Stable, lifecycle := if failed then Failed else EnabledIdle, queue := [], stage := NotStarted))
  {
  }

  /** Replacing the generation of a running plugin in the editor ends with the next
      generation active and the one before released. */
  lemma ReplaceRunning(r: Runtime, g: nat, lease: string)
    requires Runs(r, g) && r.inEditor && g <= r.counter
    ensures var next := r.counter + 1;
            var end := After(r, [ReplaceCalled, TaskStarts, AttemptEnds(|r.attempts|, false), TaskResumes(lease),
                                 WorkSucceeds(next), TaskResumes(lease)]);
            end.Some? && Runs(end.value, next) && end.value.counter == next
            && end.value.made[next].lease == Some(lease) && g in end.value.made && end.value.made[g].fate == Released
  {
    hide Takes, Apply, After, Abort, CanResume, CleanupFailed, Enabled, Fenced;
    FencedMade(r, g);
    var called := Fenced(r).(phase := Replacing, intent := true, queue := [Replace(r.epoch + 1)]);
    var cleaned, next := CleanedUp(called, g, false), r.counter + 1;
    var opening := cleaned.(phase := Stable, counter := next, generation := Some(next), lifecycle := Activating,
                            made := cleaned.made[next := Generation(Some(lease), false, None, r.epoch + 1, Opening, Held, None)],
                            stage := AwaitingActivation(next));
    var active := opening.(lifecycle := Active, made := opening.made[next := opening.made[next].(activation := Settled)]);
    var end := active.(queue := [], stage := NotStarted);
    ReplaceTakes(r);
    CleaningTakes(called, g, false);
    ReplaceOpens(cleaned, lease, opening);
    WorkTakes(opening, next, active);
    ReplaceOverTakes(active, lease);
    Follow([r, called, GivenUp(called, g), cleaned, opening, active, end],
           [ReplaceCalled, TaskStarts, AttemptEnds(|r.attempts|, false), TaskResumes(lease), WorkSucceeds(next), TaskResumes(lease)]);
  }

  lemma ReplaceOpens(r: Runtime, lease: string, opening: Runtime)
    requires r.stage.Cleaning? && r.stage.epoch == r.epoch && CanResume(r) && !CleanupFailed(r)
    requires r.desired && r.intent && r.inEditor && OwnsNothing(r) && r.lifecycle == Deactivating && r.queue == [Replace(r.epoch)]
    requires opening == r.(phase := Stable, counter := r.counter + 1, generation := Some(r.counter + 1), lifecycle := Activating,
                           made := r.made[r.counter + 1 := Generation(Some(lease), false, None, r.epoch, Opening, Held, None)],
                           stage := AwaitingActivation(r.counter + 1))
    ensures Takes(r, TaskResumes(lease), opening)
  {
  }

  lemma WorkTakes(r: Runtime, g: nat, active: Runtime)
    requires g in r.made && r.generation == Some(g) && r.made[g].activation == Opening && !r.made[g].aborted && r.made[g].epoch == r.epoch
    requires r.phase == Stable && r.intent && r.desired && r.cleanupPending.None? && r.inEditor
    requires active == r.(lifecycle := Active, made := r.made[g := r.made[g].(activation := Settled)])
    ensures Takes(r, WorkSucceeds(g), active)
  {
  }

  lemma ReplaceOverTakes(r: Runtime, lease: string)
    requires r.stage.AwaitingActivation? && CanResume(r) && |r.queue| == 1
    ensures Takes(r, TaskResumes(lease), r.(queue := [], stage := NotStarted))
  {
  }

  /** The renderer disposes of a running plugin's lease: the generation is given up and the
      plugin ends `failed`, whatever the cleanup comes to. */
  lemma DisposeRunning(r: Runtime, g: nat, failed: bool, held: string, lease: string)
    requires Runs(r, g) && r.made[g].lease == Some(held)
    ensures var end := After(r, [DisposeCalled(held, g), TaskStarts, AttemptEnds(|r.attempts|, failed), TaskResumes(lease)]);
            end.Some? && AtRest(end.value) && end.value.desired && end.value.intent && end.value.generation.None?
            && end.value.lifecycle == Failed && end.value.cleanupPending == (if failed then Some(g) else None)
  {
    hide Takes, Apply, After, Abort, CanResume, CleanupFailed, Enabled, Fenced;
    FencedMade(r, g);
    var called := r.(queue := [Dispose(held, g)]);
    var begun := Fenced(r).(phase := RendererDisposed, intent := true, queue := [Dispose(held, g)]);
    var cleaned := CleanedUp(begun, g, failed);
    var end := cleaned.(phase := Stable, lifecycle := Failed, queue := [], stage := NotStarted);
    DisposeTakes(r, g, held, begun);
    GivenUpEnds(begun, g, failed);
    DisposeOver(cleaned, lease);
    Follow([r, called, GivenUp(begun, g), cleaned, end],
           [DisposeCalled(held, g), TaskStarts, AttemptEnds(|r.attempts|, failed), TaskResumes(lease)]);
  }

  lemma DisposeTakes(r: Runtime, g: nat, held: string, begun: Runtime)
    requires Runs(r, g) && r.made[g].lease == Some(held)
    requires begun == Fenced(r).(phase := RendererDisposed, intent := true, queue := [Dispose(held, g)])
    ensures g in begun.made
    ensures Takes(r, DisposeCalled(held, g), r.(queue := [Dispose(held, g)]))
    ensures Takes(r.(queue := [Dispose(held, g)]), TaskStarts, GivenUp(begun, g))
  {
    hide StartCleaning, Abort;
    FencedMade(r, g);
    CleaningIs(begun, g);
    assert [] + [Dispose(held, g)] == [Dispose(held, g)];
  }

  lemma CleaningIs(r: Runtime, g: nat)
    requires r.generation == Some(g) && g in r.made && r.made[g].attempt.None?
    ensures StartCleaning(r, r.epoch) == GivenUp(r, g)
  {
    var c := GivenUp(r, g);
    assert r.made[g := r.made[g].(aborted := true)][g := c.made[g]] == c.made;
  }

  lemma GivenUpEnds(r: Runtime, g: nat, failed: bool)
    requires g in r.made
    ensures Takes(GivenUp(r, g), AttemptEnds(|r.attempts|, failed), CleanedUp(r, g, failed))
    ensures CanResume(CleanedUp(r, g, failed)) && CleanupFailed(CleanedUp(r, g, failed)) == failed
  {
    var c, n := GivenUp(r, g), |r.attempts|;
    assert c.attempts[n] == Attempt(g, None) && c.attempts[n := Attempt(g, Some(failed))] == r.attempts + [Attempt(g, Some(failed))];
    assert c.made[g := CleanedUp(r, g, failed).made[g]] == CleanedUp(r, g, failed).made;
  }

  lemma DisposeOver(r: Runtime, lease: string)
    requires r.stage.Cleaning? && r.stage.epoch == r.epoch && CanResume(r) && r.desired && r.intent && |r.queue| == 1 && r.queue[0].Dispose?
    ensures Takes(r, TaskResumes(lease), r.(phase := Stable, lifecycle := Failed, queue := [], stage := NotStarted))
  {
  }
}
