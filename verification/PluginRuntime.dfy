/** One plugin's runtime record in src/main/plugins/plugin-registry.ts, as a value, and
    every atomic step that changes it: the code between two awaits. A step is a call from
    outside, the start of a queued task or its end of an await, what a host or a cleanup
    reports, or what a save brings. Nothing here decides when a step is taken; that is up to
    whoever takes it, in any order in which the steps are enabled. */
module PluginRuntimes {
  import opened Options

  datatype Phase = Stable | Enabling | Disabling | Replacing | RendererDisposed | ShuttingDown

  datatype Lifecycle = Discovered | EnabledIdle | Activating | Active | Deactivating | Disabled | Failed | Crashed

  /** The promise of an activation: the host still opening, the cleanup after a failed
      opening, or settled. */
  datatype Activation = Opening | CleaningFailure(attempt: nat) | Settled

  /** What became of a generation. `Held` until a cleanup of it succeeds or its service
      process exits. The source keeps no such field: it is the history of the record. */
  datatype Fate = Held | Released | Lost

  datatype Generation = Generation(
    lease: Option<string>,
    aborted: bool,
    attempt: Option<nat>,
    epoch: nat,
    activation: Activation,
    fate: Fate,
    service: Option<nat>)

  /** A run of the host's cleanup, with how it ended. */
  datatype Attempt = Attempt(number: nat, failed: Option<bool>)

  datatype Task =
    | Enable(epoch: nat)
    | Disable(epoch: nat)
    | SetSetting(key: string, value: bool)
    | Replace(epoch: nat)
    | Dispose(lease: string, number: nat)
    | Shutdown(epoch: nat)

  /** How far the first task of the queue has come. */
  datatype Stage =
    | NotStarted
    | Cleaning(attempt: Option<nat>, epoch: nat)
    | Persisting(cleanupFailed: bool)
    | Reconciling(cleanupFailed: bool)
    | Persisted(cleanupFailed: bool, ok: bool)
    | AwaitingActivation(number: nat)

  /** The record's part in the reconciliation that follows a save. */
  datatype Share = NoShare | SharedCleanup(attempt: nat) | SharedSettings

  datatype Saved = Saved(desired: bool, settings: map<string, bool>)

  datatype Runtime = Runtime(
    inEditor: bool,
    keys: set<string>,
    desired: bool,
    settings: map<string, bool>,
    lifecycle: Lifecycle,
    counter: nat,
    generation: Option<nat>,
    cleanupPending: Option<nat>,
    epoch: nat,
    phase: Phase,
    intent: bool,
    made: map<nat, Generation>,
    attempts: seq<Attempt>,
    queue: seq<Task>,
    stage: Stage,
    share: Share)

  /** Every number up to the counter has been issued, and each is held by the record
      exactly until it is released or lost; only one is held at a time. */
  ghost predicate Owned(counter: nat, generation: Option<nat>, pending: Option<nat>, made: map<nat, Generation>)
  {
    (forall g: nat :: g in made <==> 1 <= g <= counter)
    && (generation.Some? ==> pending.None?)
    && (forall g :: g in made ==> (made[g].fate == Held <==> generation == Some(g) || pending == Some(g)))
    && (generation.Some? ==> generation.value in made)
    && (pending.Some? ==> pending.value in made && made[pending.value].aborted)
  }

  /** A running cleanup is known to its generation, and a generation knows no other. */
  ghost predicate Linked(made: map<nat, Generation>, attempts: seq<Attempt>)
  {
    (forall a :: 0 <= a < |attempts| ==> attempts[a].number in made && made[attempts[a].number].aborted)
    && (forall a :: 0 <= a < |attempts| && attempts[a].failed.None? ==> made[attempts[a].number].attempt == Some(a))
    && (forall g :: g in made && made[g].attempt.Some? ==>
          made[g].attempt.value < |attempts| && attempts[made[g].attempt.value] == Attempt(g, None))
    && (forall g :: g in made && made[g].activation.CleaningFailure? ==> made[g].activation.attempt < |attempts|)
  }

  /** What the first task and the reconciliation wait for exists. */
  ghost predicate Waits(made: map<nat, Generation>, attempts: seq<Attempt>, queue: seq<Task>, stage: Stage, share: Share)
  {
    (stage.Cleaning? && stage.attempt.Some? ==> stage.attempt.value < |attempts|)
    && (stage.AwaitingActivation? ==> stage.number in made)
    && (share.SharedCleanup? ==> share.attempt < |attempts|)
    && (stage != NotStarted ==> queue != [])
  }

  /** An active record that has a generation has a live one: not aborted, its opening
      over, nothing pending cleanup, and no transition under way. */
  ghost predicate ActiveIsLive(r: Runtime)
  {
    r.lifecycle == Active && r.generation.Some? ==>
      r.generation.value in r.made
      && !r.made[r.generation.value].aborted
      && r.made[r.generation.value].activation == Settled
      && r.cleanupPending.None? && r.phase == Stable && r.intent && r.desired
  }

  ghost predicate Bookkept(r: Runtime)
  {
    Owned(r.counter, r.generation, r.cleanupPending, r.made) && Linked(r.made, r.attempts)
    && Waits(r.made, r.attempts, r.queue, r.stage, r.share)
  }

  ghost predicate Valid(r: Runtime)
  {
    Bookkept(r) && ActiveIsLive(r)
  }

  /** What the plugin panel takes `active` to mean. */
  ghost predicate ActiveHasGeneration(r: Runtime)
  {
    r.lifecycle == Active ==>
      r.generation.Some? && r.generation.value in r.made
      && !r.made[r.generation.value].aborted
      && r.cleanupPending.None? && r.phase == Stable && r.desired
  }

  // --- Helpers of the source ---

  function Abort(made: map<nat, Generation>, g: Option<nat>): map<nat, Generation>
  {
    if g.Some? && g.value in made then made[g.value := made[g.value].(aborted := true)] else made
  }

  function BeginTransition(r: Runtime, phase: Phase, intent: bool, fence: bool): Runtime
  {
    r.(epoch := r.epoch + 1, phase := phase, intent := intent,
       made := if fence then Abort(r.made, r.generation) else r.made)
  }

  function FinishTransition(r: Runtime, epoch: nat): Runtime
  {
    if r.epoch != epoch then r else r.(phase := Stable, intent := r.desired)
  }

  predicate ActivationIntentAllows(r: Runtime, epoch: nat)
  {
    r.epoch == epoch && r.phase == Stable && r.intent && r.desired && r.cleanupPending.None?
  }

  predicate GenerationCanPublish(r: Runtime, g: nat, epoch: nat)
  {
    r.generation == Some(g) && g in r.made && !r.made[g].aborted && ActivationIntentAllows(r, epoch)
  }

  /** The generation becomes one pending cleanup, aborted. */
  function GiveUp(r: Runtime): Runtime
  {
    if r.generation.None? then r
    else r.(generation := None, cleanupPending := r.generation, made := Abort(r.made, r.generation))
  }

  /** Start a cleanup of generation g, unless one is running. */
  function AttemptCleanup(r: Runtime, g: nat): Runtime
  {
    if g !in r.made || r.made[g].attempt.Some? then r
    else r.(attempts := r.attempts + [Attempt(g, None)],
            made := r.made[g := r.made[g].(aborted := true, attempt := Some(|r.attempts|))])
  }

  function CleanupOwned(r: Runtime): Runtime
  {
    var given := GiveUp(r);
    if given.cleanupPending.None? then given else AttemptCleanup(given, given.cleanupPending.value)
  }

  /** The attempt whose end the caller of `CleanupOwned` waits for. */
  function Awaited(r: Runtime): Option<nat>
  {
    if r.cleanupPending.None? || r.cleanupPending.value !in r.made then None else r.made[r.cleanupPending.value].attempt
  }

  function Activate(r: Runtime, lease: string): Runtime
  {
    if !ActivationIntentAllows(r, r.epoch) || r.generation.Some? then r
    else
      var g := r.counter + 1;
      r.(counter := g, generation := Some(g), lifecycle := Activating,
         made := r.made[g := Generation(if r.inEditor then Some(lease) else None, false, None, r.epoch, Opening, Held, None)])
  }

  function Done(r: Runtime): Runtime
  {
    r.(queue := if r.queue == [] then [] else r.queue[1..], stage := NotStarted)
  }

  // --- Calls from outside ---

  function CallEnable(r: Runtime): Runtime
  {
    var begun := if r.desired && r.phase == Stable then r else BeginTransition(r, Enabling, true, false);
    begun.(queue := r.queue + [Enable(begun.epoch)])
  }

  function CallDisable(r: Runtime): Runtime
  {
    var begun := BeginTransition(r, Disabling, false, true);
    begun.(lifecycle := Deactivating, queue := r.queue + [Disable(begun.epoch)])
  }

  function CallReplace(r: Runtime): Runtime
  {
    if !ActivationIntentAllows(r, r.epoch) then r
    else
      var begun := BeginTransition(r, Replacing, true, true);
      begun.(lifecycle := Deactivating, queue := r.queue + [Replace(begun.epoch)])
  }

  function CallShutdown(r: Runtime): Runtime
  {
    var begun := BeginTransition(r, ShuttingDown, r.desired, true);
    begun.(lifecycle := if r.generation.Some? || r.cleanupPending.Some? then Deactivating else r.lifecycle,
           queue := r.queue + [Shutdown(begun.epoch)])
  }

  // --- The tasks ---

  function OwnedNumber(r: Runtime): Option<nat>
  {
    if r.generation.Some? then r.generation else r.cleanupPending
  }

  function StartCleaning(r: Runtime, epoch: nat): Runtime
  {
    var cleaned := CleanupOwned(r);
    cleaned.(stage := Cleaning(Awaited(cleaned), epoch))
  }

  function EndEnable(r: Runtime, epoch: nat): Runtime
  {
    if r.epoch != epoch then Done(r)
    else Done(FinishTransition(r, epoch).(lifecycle :=
      if !r.desired || r.cleanupPending.Some? then Failed
      else if r.generation.None? then EnabledIdle
      else r.lifecycle))
  }

  function EndDisable(r: Runtime, epoch: nat, cleanupFailed: bool): Runtime
  {
    if r.epoch != epoch then Done(r)
    else Done(FinishTransition(r, epoch).(lifecycle := if cleanupFailed || r.desired then Failed else Disabled))
  }

  /** A finished transition leaves this lifecycle, unless a later one has begun. */
  function EndWith(r: Runtime, epoch: nat, lifecycle: Lifecycle): Runtime
  {
    if r.epoch != epoch then Done(r) else Done(FinishTransition(r, epoch).(lifecycle := lifecycle))
  }

  /** The first task of the queue runs up to its first await. */
  function Start(r: Runtime): Runtime
  {
    if r.queue == [] || r.stage != NotStarted then r
    else match r.queue[0]
      case Enable(epoch) => if !r.desired then r.(stage := Persisting(false)) else EndEnable(r, epoch)
      case Disable(epoch) => StartCleaning(r, epoch)
      case Replace(epoch) => StartCleaning(r, epoch)
      case Shutdown(epoch) => StartCleaning(r, epoch)
      case SetSetting(key, value) =>
        if key !in r.keys || (key in r.settings && r.settings[key] == value) then Done(r)
        else r.(stage := Persisting(false))
      case Dispose(lease, number) =>
        if OwnedNumber(r) != Some(number) || number !in r.made || r.made[number].lease != Some(lease) then Done(r)
        else
          var begun := BeginTransition(r, RendererDisposed, r.desired, true).(lifecycle := Deactivating);
          StartCleaning(begun, begun.epoch)
  }

  predicate AttemptOver(r: Runtime, attempt: Option<nat>)
  {
    attempt.Some? ==> attempt.value < |r.attempts| && r.attempts[attempt.value].failed.Some?
  }

  predicate AttemptFailed(r: Runtime, attempt: Option<nat>)
    requires AttemptOver(r, attempt)
  {
    attempt.Some? && r.attempts[attempt.value].failed.value
  }

  /** A replaced generation is out of the way: activate the next. */
  function ReplaceOver(r: Runtime, lease: string): Runtime
  {
    if !r.desired then Done(r.(lifecycle := Disabled))
    else if !ActivationIntentAllows(r, r.epoch) then Done(r)
    else
      var next := Activate(r, lease);
      if next.lifecycle == Active || next.generation.None? then Done(next)
      else next.(stage := AwaitingActivation(next.generation.value))
  }

  /** The cleanup that the first task waited for is over. */
  function AfterCleanup(r: Runtime, epoch: nat, failed: bool, lease: string): Runtime
  {
    if r.queue == [] then r
    else match r.queue[0]
      case Disable(_) => if r.desired then r.(stage := Persisting(failed)) else EndDisable(r, epoch, failed)
      case Replace(_) =>
        if failed then EndWith(r, epoch, Failed)
        else if r.epoch != epoch then Done(r)
        else ReplaceOver(FinishTransition(r, epoch), lease)
      case Shutdown(_) => EndWith(r, epoch, if failed then Failed else if r.desired then EnabledIdle else Disabled)
      case Dispose(_, _) => EndWith(r, epoch, Failed)
      case _ => r
  }

  /** The save that the first task waited for is over. */
  function AfterPersist(r: Runtime, cleanupFailed: bool, ok: bool): Runtime
  {
    if r.queue == [] then r
    else match r.queue[0]
      case Enable(epoch) => if ok then EndEnable(r, epoch) else Done(FinishTransition(r, epoch).(lifecycle := Failed))
      case Disable(epoch) => if ok then EndDisable(r, epoch, cleanupFailed) else EndWith(r, epoch, Failed)
      case _ => Done(r)
  }

  predicate CanResume(r: Runtime)
  {
    match r.stage
    case Cleaning(attempt, _) => AttemptOver(r, attempt)
    case Persisted(_, _) => true
    case AwaitingActivation(g) => g in r.made && r.made[g].activation == Settled
    case _ => false
  }

  /** The first task runs on from the await it was at. */
  function Resume(r: Runtime, lease: string): Runtime
    requires CanResume(r)
  {
    match r.stage
    case Cleaning(attempt, epoch) => AfterCleanup(r, epoch, AttemptFailed(r, attempt), lease)
    case Persisted(cleanupFailed, ok) => AfterPersist(r, cleanupFailed, ok)
    case _ => Done(r)
  }

  // --- What the hosts report ---

  predicate IsOpening(r: Runtime, g: nat)
  {
    g in r.made && r.made[g].activation == Opening
  }

  function Opened(r: Runtime, g: nat): Runtime
    requires IsOpening(r, g)
  {
    r.(lifecycle := Active, made := r.made[g := r.made[g].(activation := Settled)])
  }

  /** The opening failed or was aborted. Only a generation that is still wanted is cleaned up here. */
  function OpenFailed(r: Runtime, g: nat): Runtime
    requires IsOpening(r, g)
  {
    if !GenerationCanPublish(r, g, r.made[g].epoch) then r.(made := r.made[g := r.made[g].(activation := Settled)])
    else
      var attempted := AttemptCleanup(r.(generation := None, cleanupPending := Some(g)), g);
      var attempt := attempted.made[g].attempt;
      attempted.(made := attempted.made[g := attempted.made[g].(activation :=
        if attempt.Some? then CleaningFailure(attempt.value) else Settled)])
  }

  predicate FailureIsCleaned(r: Runtime, g: nat)
  {
    g in r.made && r.made[g].activation.CleaningFailure? && AttemptOver(r, Some(r.made[g].activation.attempt))
  }

  function FailureCleaned(r: Runtime, g: nat): Runtime
    requires FailureIsCleaned(r, g)
  {
    r.(lifecycle := Failed, made := r.made[g := r.made[g].(activation := Settled)])
  }

  predicate AttemptRuns(r: Runtime, a: nat)
  {
    a < |r.attempts| && r.attempts[a].failed.None? && r.attempts[a].number in r.made
  }

  /** A cleanup ends, by reply, error or timeout. Success releases the generation if it is still the pending one. */
  function AttemptEnded(r: Runtime, a: nat, failed: bool): Runtime
    requires AttemptRuns(r, a)
  {
    var g := r.attempts[a].number;
    var released := !failed && r.cleanupPending == Some(g);
    r.(attempts := r.attempts[a := Attempt(g, Some(failed))],
       cleanupPending := if released then None else r.cleanupPending,
       made := r.made[g := r.made[g].(attempt := None, fate := if released then Released else r.made[g].fate)])
  }

  /** The service host has activated generation g in this service generation; the answer is
      kept even if nobody wants it any more. */
  predicate AwaitsService(r: Runtime, g: nat)
  {
    g in r.made && !r.inEditor && r.made[g].service.None?
  }

  function ServiceAnswered(r: Runtime, g: nat, service: nat): Runtime
    requires AwaitsService(r, g)
  {
    r.(made := r.made[g := r.made[g].(service := Some(service))])
  }

  /** The process of a service generation exited unasked, under registry generation g. It
      concerns the current generation only, and that only once it knows its service. */
  function ServiceExited(r: Runtime, g: nat, service: nat): Runtime
  {
    if r.generation != Some(g) || g !in r.made || r.made[g].service != Some(service) then r
    else r.(generation := None, cleanupPending := None, lifecycle := Crashed,
            made := r.made[g := r.made[g].(aborted := true, fate := Lost)])
  }

  // --- What a save brings ---

  predicate SettingsChanged(r: Runtime, prior: map<string, bool>, requested: map<string, bool>)
  {
    exists key :: key in r.keys && (!SameAt(prior, r.settings, key) || !SameAt(requested, r.settings, key))
  }

  predicate SameAt(left: map<string, bool>, right: map<string, bool>, key: string)
  {
    (key in left <==> key in right) && (key in left && key in right ==> left[key] == right[key])
  }

  function ShareIn(attempt: Option<nat>): Share
  {
    if attempt.Some? then SharedCleanup(attempt.value) else NoShare
  }

  /** What is persisted wants the plugin off: a transition of its own, and a cleanup. */
  function DisableForGood(r: Runtime): Runtime
  {
    var cleaned := CleanupOwned(r.(epoch := r.epoch + 1, phase := Disabling, intent := false));
    cleaned.(lifecycle := Deactivating, share := ShareIn(Awaited(cleaned)))
  }

  function AdoptPersisted(r: Runtime, saved: Saved): Runtime
  {
    r.(desired := saved.desired, settings := saved.settings)
  }

  /** Act on what a save has changed, or has not changed as requested. */
  function Reconcile(r: Runtime, prior: map<string, bool>, requested: map<string, bool>): Runtime
  {
    if !r.desired && (r.generation.Some? || r.cleanupPending.Some?) && !(r.phase == Disabling && !r.intent) then
      DisableForGood(r)
    else if r.desired && r.inEditor && r.generation.Some? && r.generation.value in r.made
            && r.made[r.generation.value].lease.Some? && SettingsChanged(r, prior, requested) then
      r.(share := SharedSettings)
    else if r.phase == Stable && r.generation.None? && r.cleanupPending.None? && r.lifecycle != Failed then
      r.(intent := r.desired, lifecycle := if r.desired then EnabledIdle else Disabled)
    else r
  }

  /** Take over what is persisted, then act on the difference. */
  function Adopt(r: Runtime, saved: Saved, requested: Saved): Runtime
  {
    Reconcile(AdoptPersisted(r, saved), r.settings, requested.settings)
  }

  predicate ShareIsCleaned(r: Runtime)
  {
    r.share.SharedCleanup? && AttemptOver(r, Some(r.share.attempt))
  }

  function ShareCleaned(r: Runtime): Runtime
    requires ShareIsCleaned(r)
  {
    r.(phase := Stable, intent := false, share := NoShare,
       lifecycle := if AttemptFailed(r, Some(r.share.attempt)) then Failed else Disabled)
  }

  function SettingsApplied(r: Runtime, failed: bool): Runtime
  {
    r.(share := NoShare, lifecycle := if failed then Failed else r.lifecycle)
  }

  /** The task whose change has just been taken over moves on to reconciliation. */
  function Adopted(r: Runtime): Runtime
  {
    if r.stage.Persisting? then r.(stage := Reconciling(r.stage.cleanupFailed)) else r
  }

  function PersistOver(r: Runtime, ok: bool): Runtime
  {
    match r.stage
    case Persisting(cleanupFailed) => r.(stage := Persisted(cleanupFailed, ok))
    case Reconciling(cleanupFailed) => r.(stage := Persisted(cleanupFailed, ok))
    case _ => r
  }

  // --- Steps ---

  datatype Step =
    | EnableCalled
    | DisableCalled
    | SettingCalled(key: string, value: bool)
    | ReplaceCalled
    | DisposeCalled(lease: string, number: nat)
    | ShutdownCalled
    | Triggered(lease: string)
    | TaskStarts
    | TaskResumes(lease: string)
    | WorkSucceeds(g: nat)
    | WorkFails(g: nat)
    | FailureCleanedUp(g: nat)
    | AttemptEnds(a: nat, failed: bool)
    | ServiceAnswers(g: nat, service: nat)
    | ServiceExits(g: nat, service: nat)
    | SaveAdopted(saved: Saved, requested: Saved, own: bool)
    | ShareCleanedUp
    | ShareSettingsApplied(failed: bool)
    | PersistEnds(ok: bool)

  /** A call from outside that a task or a transition follows. */
  predicate IsCall(step: Step)
  {
    step.EnableCalled? || step.DisableCalled? || step.SettingCalled? || step.ReplaceCalled?
    || step.DisposeCalled? || step.ShutdownCalled?
  }

  /** When a step can be taken. A call from outside always can. */
  predicate Enabled(r: Runtime, step: Step)
  {
    match step
    case TaskStarts => r.queue != [] && r.stage == NotStarted
    case TaskResumes(_) => CanResume(r)
    case WorkSucceeds(g) => IsOpening(r, g) && GenerationCanPublish(r, g, r.made[g].epoch) && (r.inEditor || r.made[g].service.Some?)
    case ServiceAnswers(g, _) => AwaitsService(r, g)
    case WorkFails(g) => IsOpening(r, g)
    case FailureCleanedUp(g) => FailureIsCleaned(r, g)
    case AttemptEnds(a, _) => AttemptRuns(r, a)
    case SaveAdopted(_, _, own) => r.share == NoShare && (own ==> r.stage.Persisting?)
    case ShareCleanedUp => ShareIsCleaned(r)
    case ShareSettingsApplied(_) => r.share == SharedSettings
    case PersistEnds(_) => r.stage.Persisting? || r.stage.Reconciling?
    case _ => true
  }

  function Apply(r: Runtime, step: Step): Runtime
    requires Enabled(r, step)
  {
    match step
    case EnableCalled => CallEnable(r)
    case DisableCalled => CallDisable(r)
    case SettingCalled(key, value) => r.(queue := r.queue + [SetSetting(key, value)])
    case ReplaceCalled => CallReplace(r)
    case DisposeCalled(lease, number) => r.(queue := r.queue + [Dispose(lease, number)])
    case ShutdownCalled => CallShutdown(r)
    case Triggered(lease) => Activate(r, lease)
    case TaskStarts => Start(r)
    case TaskResumes(lease) => Resume(r, lease)
    case WorkSucceeds(g) => Opened(r, g)
    case WorkFails(g) => OpenFailed(r, g)
    case FailureCleanedUp(g) => FailureCleaned(r, g)
    case AttemptEnds(a, failed) => AttemptEnded(r, a, failed)
    case ServiceAnswers(g, service) => ServiceAnswered(r, g, service)
    case ServiceExits(g, service) => ServiceExited(r, g, service)
    case SaveAdopted(saved, requested, own) => if own then Adopted(Adopt(r, saved, requested)) else Adopt(r, saved, requested)
    case ShareCleanedUp => ShareCleaned(r)
    case ShareSettingsApplied(failed) => SettingsApplied(r, failed)
    case PersistEnds(ok) => PersistOver(r, ok)
  }

  /** A record as `hydrate` leaves it. */
  ghost predicate Fresh(r: Runtime)
  {
    r.counter == 0 && r.made == map[] && r.generation.None? && r.cleanupPending.None? && r.attempts == []
    && r.queue == [] && r.stage == NotStarted && r.share == NoShare
    && r.phase == Stable && r.intent == r.desired && r.lifecycle == if r.desired then EnabledIdle else Disabled
  }

  lemma FreshValid(r: Runtime)
    requires Fresh(r)
    ensures Valid(r) && ActiveHasGeneration(r)
  {
  }

  // --- What every step keeps ---

  lemma AbortKeeps(r: Runtime)
    requires Bookkept(r)
    ensures Bookkept(r.(made := Abort(r.made, r.generation)))
  {
  }

  lemma GiveUpKeeps(r: Runtime)
    requires Bookkept(r)
    ensures Bookkept(GiveUp(r)) && GiveUp(r).generation.None?
  {
  }

  /** Ownership does not depend on attempts, nor on openings. */
  lemma OwnedSame(counter: nat, generation: Option<nat>, pending: Option<nat>, made: map<nat, Generation>, g: nat, n: Generation)
    requires Owned(counter, generation, pending, made) && g in made
    requires n.fate == made[g].fate && (made[g].aborted ==> n.aborted)
    ensures Owned(counter, generation, pending, made[g := n])
  {
  }

  lemma LinkAttempt(made: map<nat, Generation>, attempts: seq<Attempt>, g: nat)
    requires Linked(made, attempts) && g in made && made[g].attempt.None?
    ensures Linked(made[g := made[g].(aborted := true, attempt := Some(|attempts|))], attempts + [Attempt(g, None)])
  {
    var after, n := attempts + [Attempt(g, None)], |attempts|;
    assert after[n] == Attempt(g, None) && forall a :: 0 <= a < n ==> after[a] == attempts[a];
  }

  lemma MoreWaits(made: map<nat, Generation>, attempts: seq<Attempt>, queue: seq<Task>, stage: Stage, share: Share,
                  made': map<nat, Generation>, attempts': seq<Attempt>)
    requires Waits(made, attempts, queue, stage, share)
    requires |attempts| <= |attempts'| && made.Keys <= made'.Keys
    ensures Waits(made', attempts', queue, stage, share)
  {
  }

  lemma AttemptCleanupKeeps(r: Runtime, g: nat)
    requires Bookkept(r) && g in r.made
    ensures var c := AttemptCleanup(r, g);
            Bookkept(c) && g in c.made && c.made[g].attempt.Some? && c.made[g].attempt.value < |c.attempts|
            && c.made[g].aborted
  {
    hide Owned, Waits;
    if r.made[g].attempt.None? {
      LinkAttempt(r.made, r.attempts, g);
      var c := AttemptCleanup(r, g);
      OwnedSame(r.counter, r.generation, r.cleanupPending, r.made, g, c.made[g]);
      MoreWaits(r.made, r.attempts, r.queue, r.stage, r.share, c.made, c.attempts);
    }
  }

  lemma CleanupOwnedKeeps(r: Runtime)
    requires Bookkept(r)
    ensures var c := CleanupOwned(r);
            Bookkept(c) && c.generation.None? && (Awaited(c).Some? ==> Awaited(c).value < |c.attempts|)
  {
    GiveUpKeeps(r);
    var given := GiveUp(r);
    if given.cleanupPending.Some? { AttemptCleanupKeeps(given, given.cleanupPending.value); }
  }

  lemma QueueKeeps(r: Runtime, task: Task)
    requires Bookkept(r)
    ensures Bookkept(r.(queue := r.queue + [task]))
  {
    hide Owned, Linked;
  }

  lemma DoneKeeps(r: Runtime)
    requires Bookkept(r)
    ensures Bookkept(Done(r))
  {
    hide Owned, Linked;
  }

  /** The bookkeeping does not look at intents, lifecycles, settings or epochs. */
  lemma Overlooks(r: Runtime, s: Runtime)
    requires Bookkept(r)
    requires s.counter == r.counter && s.generation == r.generation && s.cleanupPending == r.cleanupPending
    requires s.made == r.made && s.attempts == r.attempts && s.queue == r.queue && s.stage == r.stage && s.share == r.share
    ensures Bookkept(s)
  {
    hide Owned, Linked, Waits;
  }

  /** A call may add a task and abort the generation, and leaves the rest of the books. */
  ghost predicate OnlyCalled(r: Runtime, s: Runtime)
  {
    s.counter == r.counter && s.generation == r.generation && s.cleanupPending == r.cleanupPending && s.attempts == r.attempts
    && s.stage == r.stage && s.share == r.share && (s.made == r.made || s.made == Abort(r.made, r.generation))
    && (s.queue == r.queue || exists task :: s.queue == r.queue + [task])
  }

  lemma CallOnly(r: Runtime, step: Step)
    requires IsCall(step)
    ensures OnlyCalled(r, Apply(r, step))
  {
    hide Abort;
    var s := Apply(r, step);
    if s.queue != r.queue { assert s.queue == r.queue + [s.queue[|r.queue|]]; }
  }

  lemma CallKeeps(r: Runtime, step: Step)
    requires Bookkept(r) && IsCall(step)
    ensures Bookkept(Apply(r, step))
  {
    hide Bookkept, Apply, Abort;
    CallOnly(r, step);
    AbortKeeps(r);
    var s := Apply(r, step);
    var from := if s.made == r.made then r else r.(made := Abort(r.made, r.generation));
    if s.queue != r.queue {
      var task :| s.queue == r.queue + [task];
      QueueKeeps(from, task);
    }
    Overlooks(from.(queue := s.queue), s);
  }

  lemma StartCleaningKeeps(r: Runtime, epoch: nat)
    requires Bookkept(r) && r.queue != []
    ensures Bookkept(StartCleaning(r, epoch))
  {
    hide Owned, Linked;
    CleanupOwnedKeeps(r);
    CleanupOwnedQueue(r);
  }

  lemma CleanupOwnedQueue(r: Runtime)
    ensures CleanupOwned(r).queue == r.queue && CleanupOwned(r).stage == r.stage
  {
  }

  /** However the first task ends, it only leaves the queue. */
  lemma EndsKeep(r: Runtime, s: Runtime)
    requires Bookkept(r)
    requires s.counter == r.counter && s.generation == r.generation && s.cleanupPending == r.cleanupPending
    requires s.made == r.made && s.attempts == r.attempts && s.queue == Done(r).queue && s.stage == NotStarted
    requires s.share == r.share
    ensures Bookkept(s)
  {
    hide Bookkept;
    DoneKeeps(r);
    Overlooks(Done(r), s);
  }

  lemma StageKeeps(r: Runtime, stage: Stage)
    requires Bookkept(r) && r.queue != []
    requires stage.AwaitingActivation? ==> stage.number in r.made
    requires stage.Cleaning? ==> r.stage == stage
    ensures Bookkept(r.(stage := stage))
  {
    hide Owned, Linked;
  }

  lemma DisposeKeeps(r: Runtime)
    requires Bookkept(r) && r.queue != [] && r.stage == NotStarted && r.queue[0].Dispose?
    ensures Bookkept(Start(r))
  {
    hide Bookkept, CleanupOwned;
    var begun := BeginTransition(r, RendererDisposed, r.desired, true).(lifecycle := Deactivating);
    AbortKeeps(r);
    Overlooks(r.(made := begun.made), begun);
    StartCleaningKeeps(begun, begun.epoch);
    DoneKeeps(r);
  }

  lemma StartKeeps(r: Runtime)
    requires Bookkept(r) && Enabled(r, TaskStarts)
    ensures Bookkept(Start(r))
  {
    hide Bookkept, StartCleaning;
    match r.queue[0]
    case Enable(epoch) => if r.desired { EndsKeep(r, Start(r)); } else { StageKeeps(r, Persisting(false)); }
    case SetSetting(_, _) => EndsKeep(r, Done(r)); StageKeeps(r, Persisting(false));
    case Dispose(_, _) => DisposeKeeps(r);
    case Disable(epoch) => StartCleaningKeeps(r, epoch);
    case Replace(epoch) => StartCleaningKeeps(r, epoch);
    case Shutdown(epoch) => StartCleaningKeeps(r, epoch);
  }

  lemma ActivateBook(r: Runtime, lease: string)
    requires Bookkept(r)
    ensures Bookkept(Activate(r, lease))
    ensures Activate(r, lease).queue == r.queue && Activate(r, lease).stage == r.stage
    ensures Activate(r, lease).generation.Some? ==> Activate(r, lease).generation.value in Activate(r, lease).made
  {
  }

  lemma ReplaceOverKeeps(r: Runtime, lease: string)
    requires Bookkept(r) && r.queue != []
    ensures Bookkept(ReplaceOver(r, lease))
  {
    hide Bookkept, Activate;
    ActivateBook(r, lease);
    var next := Activate(r, lease);
    EndsKeep(r, Done(r.(lifecycle := Disabled)));
    EndsKeep(r, Done(r));
    EndsKeep(next, Done(next));
    if next.generation.Some? { StageKeeps(next, AwaitingActivation(next.generation.value)); }
  }

  lemma FinishKeeps(r: Runtime, epoch: nat, lifecycle: Lifecycle)
    requires Bookkept(r)
    ensures Bookkept(Done(FinishTransition(r, epoch).(lifecycle := lifecycle))) && Bookkept(Done(r))
  {
    hide Bookkept;
    DoneKeeps(r);
    EndsKeep(r, Done(FinishTransition(r, epoch).(lifecycle := lifecycle)));
  }

  lemma EndEnableKeeps(r: Runtime, epoch: nat)
    requires Bookkept(r)
    ensures Bookkept(EndEnable(r, epoch))
  {
    hide Bookkept, Done, FinishTransition;
    FinishKeeps(r, epoch, Failed);
    FinishKeeps(r, epoch, EnabledIdle);
    FinishKeeps(r, epoch, r.lifecycle);
  }

  lemma EndDisableKeeps(r: Runtime, epoch: nat, failed: bool)
    requires Bookkept(r)
    ensures Bookkept(EndDisable(r, epoch, failed))
  {
    hide Bookkept, Done, FinishTransition;
    FinishKeeps(r, epoch, Failed);
    FinishKeeps(r, epoch, Disabled);
  }

  lemma EndWithKeeps(r: Runtime, epoch: nat, lifecycle: Lifecycle)
    requires Bookkept(r)
    ensures Bookkept(EndWith(r, epoch, lifecycle))
  {
    hide Bookkept, Done, FinishTransition;
    FinishKeeps(r, epoch, lifecycle);
  }

  lemma EndFunctionsKeep(r: Runtime, epoch: nat, failed: bool, lifecycle: Lifecycle)
    requires Bookkept(r)
    ensures Bookkept(EndEnable(r, epoch)) && Bookkept(EndDisable(r, epoch, failed)) && Bookkept(EndWith(r, epoch, lifecycle))
  {
    hide *;
    EndEnableKeeps(r, epoch);
    EndDisableKeeps(r, epoch, failed);
    EndWithKeeps(r, epoch, lifecycle);
  }

  lemma AfterReplaceKeeps(r: Runtime, epoch: nat, lease: string)
    requires Bookkept(r) && r.queue != [] && r.epoch == epoch
    ensures Bookkept(ReplaceOver(FinishTransition(r, epoch), lease))
  {
    hide Bookkept, ReplaceOver;
    Overlooks(r, FinishTransition(r, epoch));
    ReplaceOverKeeps(FinishTransition(r, epoch), lease);
  }

  lemma AfterCleanupKeeps(r: Runtime, epoch: nat, failed: bool, lease: string)
    requires Bookkept(r) && r.queue != []
    ensures Bookkept(AfterCleanup(r, epoch, failed, lease))
  {
    hide Bookkept, ReplaceOver, EndEnable, EndDisable, EndWith, Done, FinishTransition;
    match r.queue[0]
    case Disable(_) => StageKeeps(r, Persisting(failed)); EndFunctionsKeep(r, epoch, failed, Failed);
    case Replace(_) =>
      EndFunctionsKeep(r, epoch, failed, Failed);
      DoneKeeps(r);
      if r.epoch == epoch { AfterReplaceKeeps(r, epoch, lease); }
    case Shutdown(_) => EndFunctionsKeep(r, epoch, failed, if failed then Failed else if r.desired then EnabledIdle else Disabled);
    case Dispose(_, _) => EndFunctionsKeep(r, epoch, failed, Failed);
    case _ =>
  }

  lemma AfterPersistKeeps(r: Runtime, cleanupFailed: bool, ok: bool)
    requires Bookkept(r) && r.queue != []
    ensures Bookkept(AfterPersist(r, cleanupFailed, ok))
  {
    hide Bookkept, EndEnable, EndDisable, EndWith;
    match r.queue[0]
    case Enable(epoch) =>
      EndFunctionsKeep(r, epoch, cleanupFailed, Failed);
      EndsKeep(r, Done(FinishTransition(r, epoch).(lifecycle := Failed)));
    case Disable(epoch) => EndFunctionsKeep(r, epoch, cleanupFailed, Failed);
    case _ => DoneKeeps(r);
  }

  lemma ResumeKeeps(r: Runtime, lease: string)
    requires Bookkept(r) && CanResume(r)
    ensures Bookkept(Resume(r, lease))
  {
    hide Owned, Linked, AfterCleanup, AfterPersist, Done;
    match r.stage
    case Cleaning(attempt, epoch) => AfterCleanupKeeps(r, epoch, AttemptFailed(r, attempt), lease);
    case Persisted(cleanupFailed, ok) => AfterPersistKeeps(r, cleanupFailed, ok);
    case _ => DoneKeeps(r);
  }

  /** Settling an opening. */
  lemma SettleKeeps(r: Runtime, g: nat, activation: Activation)
    requires Bookkept(r) && g in r.made
    requires activation.CleaningFailure? ==> activation.attempt < |r.attempts|
    ensures Bookkept(r.(made := r.made[g := r.made[g].(activation := activation)]))
  {
    hide Owned;
    OwnedSame(r.counter, r.generation, r.cleanupPending, r.made, g, r.made[g].(activation := activation));
  }

  lemma HandOver(c: Runtime, g: nat)
    requires Bookkept(c) && c.generation == Some(g) && g in c.made && c.made[g].aborted
    ensures Bookkept(c.(generation := None, cleanupPending := Some(g)))
  {
    hide Linked, Waits;
  }

  lemma OpenFailedKeeps(r: Runtime, g: nat)
    requires Bookkept(r) && IsOpening(r, g)
    ensures Bookkept(OpenFailed(r, g))
  {
    hide Bookkept;
    if GenerationCanPublish(r, g, r.made[g].epoch) {
      AttemptCleanupKeeps(r, g);
      var c := AttemptCleanup(r, g);
      HandOver(c, g);
      var given := c.(generation := None, cleanupPending := Some(g));
      assert given == AttemptCleanup(r.(generation := None, cleanupPending := Some(g)), g);
      SettleKeeps(given, g, CleaningFailure(given.made[g].attempt.value));
    } else {
      SettleKeeps(r, g, Settled);
    }
  }

  lemma EndLinked(made: map<nat, Generation>, attempts: seq<Attempt>, a: nat, failed: bool, fate: Fate)
    requires Linked(made, attempts) && a < |attempts| && attempts[a].failed.None? && attempts[a].number in made
    ensures var g := attempts[a].number;
            Linked(made[g := made[g].(attempt := None, fate := fate)], attempts[a := Attempt(g, Some(failed))])
  {
  }

  lemma EndOwned(r: Runtime, a: nat, failed: bool)
    requires Bookkept(r) && AttemptRuns(r, a)
    ensures var s := AttemptEnded(r, a, failed); Owned(s.counter, s.generation, s.cleanupPending, s.made)
  {
    hide Linked, Waits;
  }

  lemma AttemptEndedKeeps(r: Runtime, a: nat, failed: bool)
    requires Bookkept(r) && AttemptRuns(r, a)
    ensures Bookkept(AttemptEnded(r, a, failed))
  {
    hide Owned, Linked;
    EndOwned(r, a, failed);
    var s := AttemptEnded(r, a, failed);
    EndLinked(r.made, r.attempts, a, failed, s.made[r.attempts[a].number].fate);
  }

  lemma ServiceExitedKeeps(r: Runtime, g: nat, service: nat)
    requires Bookkept(r)
    ensures Bookkept(ServiceExited(r, g, service))
  {
  }

  lemma ServiceAnsweredKeeps(r: Runtime, g: nat, service: nat)
    requires Bookkept(r) && AwaitsService(r, g)
    ensures Bookkept(ServiceAnswered(r, g, service))
  {
    hide Owned;
    OwnedSame(r.counter, r.generation, r.cleanupPending, r.made, g, r.made[g].(service := Some(service)));
  }

  lemma ShareKeeps(r: Runtime, share: Share)
    requires Bookkept(r) && (share.SharedCleanup? ==> share.attempt < |r.attempts|)
    ensures Bookkept(r.(share := share))
  {
    hide Owned, Linked;
  }

  lemma AdoptKeeps(r: Runtime, saved: Saved, requested: Saved)
    requires Bookkept(r)
    ensures Bookkept(Adopt(r, saved, requested)) && Adopt(r, saved, requested).stage == r.stage
    ensures Adopt(r, saved, requested).queue == r.queue
  {
    hide Bookkept, CleanupOwned, SettingsChanged;
    var adopted := r.(desired := saved.desired, settings := saved.settings);
    var fenced := adopted.(epoch := r.epoch + 1, phase := Disabling, intent := false);
    Overlooks(r, adopted);
    Overlooks(r, fenced);
    CleanupOwnedKeeps(fenced);
    CleanupOwnedQueue(fenced);
    var cleaned := CleanupOwned(fenced);
    var attempt := Awaited(cleaned);
    Overlooks(cleaned, cleaned.(lifecycle := Deactivating));
    ShareKeeps(cleaned.(lifecycle := Deactivating), if attempt.Some? then SharedCleanup(attempt.value) else NoShare);
    ShareKeeps(adopted, SharedSettings);
    Overlooks(r, adopted.(intent := saved.desired, lifecycle := if saved.desired then EnabledIdle else Disabled));
  }

  lemma SaveAdoptedKeeps(r: Runtime, saved: Saved, requested: Saved, own: bool)
    requires Bookkept(r) && Enabled(r, SaveAdopted(saved, requested, own))
    ensures Bookkept(Apply(r, SaveAdopted(saved, requested, own)))
  {
    hide Owned, Linked, Adopt;
    AdoptKeeps(r, saved, requested);
  }

  /** No step loses a generation, holds two, or leaves a waiter without what it waits for. */
  lemma StepBookkept(r: Runtime, step: Step)
    requires Bookkept(r) && Enabled(r, step)
    ensures Bookkept(Apply(r, step))
  {
    hide Bookkept, Start, Resume, Adopt, AttemptEnded, OpenFailed, Activate, ServiceExited, ServiceAnswered;
    match step
    case Triggered(lease) => ActivateBook(r, lease);
    case TaskStarts => StartKeeps(r);
    case TaskResumes(lease) => ResumeKeeps(r, lease);
    case WorkSucceeds(g) => SettleKeeps(r, g, Settled); Overlooks(r.(made := Opened(r, g).made), Opened(r, g));
    case WorkFails(g) => OpenFailedKeeps(r, g);
    case FailureCleanedUp(g) =>
      SettleKeeps(r, g, Settled);
      Overlooks(r.(made := FailureCleaned(r, g).made), FailureCleaned(r, g));
    case AttemptEnds(a, failed) => AttemptEndedKeeps(r, a, failed);
    case ServiceAnswers(g, service) => ServiceAnsweredKeeps(r, g, service);
    case ServiceExits(g, service) => ServiceExitedKeeps(r, g, service);
    case SaveAdopted(saved, requested, own) => SaveAdoptedKeeps(r, saved, requested, own);
    case ShareCleanedUp => ShareKeeps(r, NoShare); Overlooks(r.(share := NoShare), ShareCleaned(r));
    case ShareSettingsApplied(failed) => ShareKeeps(r, NoShare); Overlooks(r.(share := NoShare), SettingsApplied(r, failed));
    case PersistEnds(ok) => PersistOverKeeps(r, ok);
    case _ => CallKeeps(r, step);
  }

  lemma PersistOverKeeps(r: Runtime, ok: bool)
    requires Bookkept(r)
    ensures Bookkept(PersistOver(r, ok))
  {
    hide Owned, Linked;
  }

  // --- What an active record is ---

  /** The step that starts the queued cleanup of a disable, replacement or shutdown
      although the record is active. These three tasks set no lifecycle when they start. */
  predicate CleansActive(r: Runtime, step: Step)
  {
    step.TaskStarts? && r.queue != [] && r.stage == NotStarted && r.lifecycle == Active
    && (r.queue[0].Disable? || r.queue[0].Replace? || r.queue[0].Shutdown?)
  }

  lemma CallActive(r: Runtime, step: Step)
    requires Valid(r) && Enabled(r, step)
    requires IsCall(step) || step.Triggered?
    ensures ActiveIsLive(Apply(r, step))
    ensures ActiveHasGeneration(r) ==> ActiveHasGeneration(Apply(r, step))
  {
    hide Linked, Waits;
  }

  lemma CleanupOwnedActive(r: Runtime)
    ensures CleanupOwned(r).lifecycle == r.lifecycle
    ensures r.generation.Some? ==> CleanupOwned(r).generation.None?
    ensures r.generation.None? ==> CleanupOwned(r).generation.None?
  {
  }

  ghost predicate KeepsActive(r: Runtime, s: Runtime)
  {
    ActiveIsLive(s) && (ActiveHasGeneration(r) ==> ActiveHasGeneration(s))
  }

  lemma EndEnableActive(r: Runtime, epoch: nat)
    requires ActiveIsLive(r)
    ensures KeepsActive(r, EndEnable(r, epoch)) && KeepsActive(r, Done(r))
  {
  }

  lemma EndOthersActive(r: Runtime, epoch: nat, failed: bool, lifecycle: Lifecycle)
    requires ActiveIsLive(r) && lifecycle != Active
    ensures KeepsActive(r, EndDisable(r, epoch, failed)) && KeepsActive(r, EndWith(r, epoch, lifecycle))
    ensures KeepsActive(r, Done(FinishTransition(r, epoch).(lifecycle := Failed)))
  {
  }

  /** A cleanup takes the generation away and leaves the lifecycle. */
  lemma StartCleaningActive(r: Runtime, epoch: nat)
    ensures ActiveIsLive(StartCleaning(r, epoch))
    ensures ActiveHasGeneration(StartCleaning(r, epoch)) <==> r.lifecycle != Active
  {
    hide CleanupOwned, Awaited;
    CleanupOwnedActive(r);
  }

  lemma StartActive(r: Runtime)
    requires Valid(r) && Enabled(r, TaskStarts)
    ensures ActiveIsLive(Start(r))
    ensures ActiveHasGeneration(r) ==> (ActiveHasGeneration(Start(r)) <==> !CleansActive(r, TaskStarts))
  {
    hide Bookkept, StartCleaning, EndEnable, Done;
    match r.queue[0]
    case Enable(epoch) => EndEnableActive(r, epoch);
    case SetSetting(_, _) => EndEnableActive(r, 0);
    case Dispose(_, _) =>
      EndEnableActive(r, 0);
      var begun := BeginTransition(r, RendererDisposed, r.desired, true).(lifecycle := Deactivating);
      StartCleaningActive(begun, begun.epoch);
    case Disable(epoch) => StartCleaningActive(r, epoch);
    case Replace(epoch) => StartCleaningActive(r, epoch);
    case Shutdown(epoch) => StartCleaningActive(r, epoch);
  }

  lemma ReplaceOverActive(r: Runtime, epoch: nat, lease: string)
    requires Valid(r) && r.epoch == epoch
    ensures KeepsActive(r, ReplaceOver(FinishTransition(r, epoch), lease))
  {
    hide Linked, Waits;
  }

  lemma AfterCleanupActive(r: Runtime, epoch: nat, failed: bool, lease: string)
    requires Valid(r)
    ensures KeepsActive(r, AfterCleanup(r, epoch, failed, lease))
  {
    hide Bookkept, ReplaceOver, EndDisable, EndWith, Done;
    if r.queue != [] {
      EndOthersActive(r, epoch, failed, Failed);
      EndOthersActive(r, epoch, failed, if failed then Failed else if r.desired then EnabledIdle else Disabled);
      EndEnableActive(r, epoch);
      if r.epoch == epoch { ReplaceOverActive(r, epoch, lease); }
    }
  }

  lemma AfterPersistActive(r: Runtime, cleanupFailed: bool, ok: bool)
    requires Valid(r)
    ensures KeepsActive(r, AfterPersist(r, cleanupFailed, ok))
  {
    hide Bookkept, EndEnable, EndDisable, EndWith, Done;
    if r.queue != [] {
      EndEnableActive(r, 0);
      if r.queue[0].Enable? || r.queue[0].Disable? {
        EndEnableActive(r, r.queue[0].epoch);
        EndOthersActive(r, r.queue[0].epoch, cleanupFailed, Failed);
      }
    }
  }

  lemma ResumeActive(r: Runtime, lease: string)
    requires Valid(r) && CanResume(r)
    ensures KeepsActive(r, Resume(r, lease))
  {
    hide Bookkept, AfterCleanup, AfterPersist, Done, KeepsActive;
    match r.stage
    case Cleaning(attempt, epoch) => AfterCleanupActive(r, epoch, AttemptFailed(r, attempt), lease);
    case Persisted(cleanupFailed, ok) => AfterPersistActive(r, cleanupFailed, ok);
    case _ => DoneActive(r);
  }

  lemma DoneActive(r: Runtime)
    requires ActiveIsLive(r)
    ensures KeepsActive(r, Done(r))
  {
  }

  lemma HostActive(r: Runtime, step: Step)
    requires Valid(r) && Enabled(r, step)
    requires step.WorkSucceeds? || step.WorkFails? || step.FailureCleanedUp? || step.AttemptEnds? || step.ServiceExits? || step.ServiceAnswers?
    ensures ActiveIsLive(Apply(r, step))
    ensures ActiveHasGeneration(r) ==> ActiveHasGeneration(Apply(r, step))
  {
    hide Linked, Waits;
  }

  lemma DisableForGoodActive(r: Runtime)
    ensures DisableForGood(r).lifecycle == Deactivating
  {
  }

  lemma ReconcileActive(r: Runtime, prior: map<string, bool>, requested: map<string, bool>)
    requires Owned(r.counter, r.generation, r.cleanupPending, r.made)
    requires r.lifecycle == Active && r.generation.Some? ==>
      r.generation.value in r.made && !r.made[r.generation.value].aborted && r.made[r.generation.value].activation == Settled
      && r.cleanupPending.None? && r.phase == Stable && r.intent
    ensures ActiveIsLive(Reconcile(r, prior, requested))
    ensures (r.lifecycle == Active ==> r.generation.Some?) ==> ActiveHasGeneration(Reconcile(r, prior, requested))
  {
    hide Owned, SettingsChanged, DisableForGood;
    DisableForGoodActive(r);
  }

  lemma AdoptActive(r: Runtime, saved: Saved, requested: Saved)
    requires Valid(r)
    ensures KeepsActive(r, Adopt(r, saved, requested))
  {
    hide Linked, Waits, Reconcile;
    ReconcileActive(AdoptPersisted(r, saved), r.settings, requested.settings);
  }

  lemma AdoptedActive(r: Runtime)
    ensures ActiveIsLive(r) ==> ActiveIsLive(Adopted(r))
    ensures ActiveHasGeneration(r) ==> ActiveHasGeneration(Adopted(r))
  {
  }

  lemma SaveActive(r: Runtime, step: Step)
    requires Valid(r) && Enabled(r, step)
    requires step.SaveAdopted? || step.ShareCleanedUp? || step.ShareSettingsApplied? || step.PersistEnds?
    ensures ActiveIsLive(Apply(r, step))
    ensures ActiveHasGeneration(r) ==> ActiveHasGeneration(Apply(r, step))
  {
    hide Bookkept, Adopt, Adopted;
    if step.SaveAdopted? {
      AdoptActive(r, step.saved, step.requested);
      AdoptedActive(Adopt(r, step.saved, step.requested));
    }
  }

  /** A step breaks what `active` means exactly when it starts a queued cleanup of an
      active record. */
  lemma StepActive(r: Runtime, step: Step)
    requires Valid(r) && Enabled(r, step)
    ensures Valid(Apply(r, step))
    ensures ActiveHasGeneration(r) ==> (ActiveHasGeneration(Apply(r, step)) <==> !CleansActive(r, step))
  {
    hide Bookkept, ActiveIsLive, ActiveHasGeneration, Apply, Enabled;
    StepBookkept(r, step);
    match step
    case TaskStarts => StartStep(r);
    case TaskResumes(lease) => ResumeStep(r, lease);
    case WorkSucceeds(_) => HostActive(r, step);
    case WorkFails(_) => HostActive(r, step);
    case FailureCleanedUp(_) => HostActive(r, step);
    case AttemptEnds(_, _) => HostActive(r, step);
    case ServiceAnswers(_, _) => HostActive(r, step);
    case ServiceExits(_, _) => HostActive(r, step);
    case SaveAdopted(_, _, _) => SaveActive(r, step);
    case ShareCleanedUp => SaveActive(r, step);
    case ShareSettingsApplied(_) => SaveActive(r, step);
    case PersistEnds(_) => SaveActive(r, step);
    case _ => CallActive(r, step);
  }

  lemma StartStep(r: Runtime)
    requires Valid(r) && Enabled(r, TaskStarts)
    ensures ActiveIsLive(Apply(r, TaskStarts))
    ensures ActiveHasGeneration(r) ==> (ActiveHasGeneration(Apply(r, TaskStarts)) <==> !CleansActive(r, TaskStarts))
  {
    hide Bookkept, ActiveIsLive, ActiveHasGeneration, Start;
    StartActive(r);
  }

  lemma ResumeStep(r: Runtime, lease: string)
    requires Valid(r) && Enabled(r, TaskResumes(lease))
    ensures KeepsActive(r, Apply(r, TaskResumes(lease)))
  {
    hide Bookkept, ActiveIsLive, ActiveHasGeneration, Resume;
    ResumeActive(r, lease);
  }

  // --- History ---

  /** Numbers stay issued, abortion is for good, and so is being released or lost. */
  ghost predicate Later(made: map<nat, Generation>, made': map<nat, Generation>)
  {
    forall g :: g in made ==>
      g in made' && made'[g].lease == made[g].lease && (made[g].aborted ==> made'[g].aborted)
      && (made[g].fate != Held ==> made'[g].fate == made[g].fate)
  }

  lemma LaterTwice(made: map<nat, Generation>, made': map<nat, Generation>, made'': map<nat, Generation>)
    requires Later(made, made') && Later(made', made'')
    ensures Later(made, made'')
  {
  }

  lemma CleanupOwnedLater(r: Runtime)
    ensures Later(r.made, CleanupOwned(r).made)
  {
    hide Later;
    GiveUpLater(r);
    var given := GiveUp(r);
    if given.cleanupPending.Some? {
      AttemptLater(given, given.cleanupPending.value);
      LaterTwice(r.made, given.made, CleanupOwned(r).made);
    }
  }

  lemma GiveUpLater(r: Runtime)
    ensures Later(r.made, GiveUp(r).made) && Later(r.made, Abort(r.made, r.generation)) && Later(r.made, r.made)
  {
  }

  lemma AttemptLater(r: Runtime, g: nat)
    ensures Later(r.made, AttemptCleanup(r, g).made)
  {
  }

  lemma ActivateLater(r: Runtime, lease: string)
    requires Bookkept(r)
    ensures Later(r.made, Activate(r, lease).made)
  {
  }

  lemma StartCleaningLater(r: Runtime, epoch: nat)
    ensures Later(r.made, StartCleaning(r, epoch).made)
  {
    hide Later, CleanupOwned;
    CleanupOwnedLater(r);
  }

  lemma StartLater(r: Runtime)
    requires Enabled(r, TaskStarts)
    ensures Later(r.made, Start(r).made)
  {
    hide Later, StartCleaning;
    GiveUpLater(r);
    match r.queue[0]
    case Disable(epoch) => StartCleaningLater(r, epoch);
    case Replace(epoch) => StartCleaningLater(r, epoch);
    case Shutdown(epoch) => StartCleaningLater(r, epoch);
    case Dispose(_, _) =>
      var begun := BeginTransition(r, RendererDisposed, r.desired, true).(lifecycle := Deactivating);
      StartCleaningLater(begun, begun.epoch);
      LaterTwice(r.made, begun.made, StartCleaning(begun, begun.epoch).made);
    case _ =>
  }

  lemma ReplaceOverLater(r: Runtime, lease: string)
    requires Bookkept(r)
    ensures Later(r.made, ReplaceOver(r, lease).made)
  {
    hide Later, Activate, Bookkept;
    GiveUpLater(r);
    ActivateLater(r, lease);
  }

  lemma AfterCleanupLater(r: Runtime, epoch: nat, failed: bool, lease: string)
    requires Bookkept(r)
    ensures Later(r.made, AfterCleanup(r, epoch, failed, lease).made)
  {
    hide Later, ReplaceOver, Bookkept, Done, EndDisable, EndWith;
    GiveUpLater(r);
    EndsSame(r, epoch, failed, Failed);
    EndsSame(r, epoch, failed, if failed then Failed else if r.desired then EnabledIdle else Disabled);
    if r.epoch == epoch {
      Overlooks(r, FinishTransition(r, epoch));
      ReplaceOverLater(FinishTransition(r, epoch), lease);
    }
  }

  lemma DoneSame(r: Runtime)
    ensures Done(r).made == r.made
  {
  }

  lemma EndSame(r: Runtime, epoch: nat, lifecycle: Lifecycle)
    ensures Done(r).made == r.made && Done(FinishTransition(r, epoch).(lifecycle := lifecycle)).made == r.made
  {
  }

  lemma EndsSame(r: Runtime, epoch: nat, failed: bool, lifecycle: Lifecycle)
    ensures EndEnable(r, epoch).made == r.made && EndDisable(r, epoch, failed).made == r.made
    ensures EndWith(r, epoch, lifecycle).made == r.made && Done(r).made == r.made
    ensures Done(FinishTransition(r, epoch).(lifecycle := Failed)).made == r.made
  {
    hide Done, FinishTransition;
    EndSame(r, epoch, Failed);
    EndSame(r, epoch, EnabledIdle);
    EndSame(r, epoch, Disabled);
    EndSame(r, epoch, r.lifecycle);
    EndSame(r, epoch, lifecycle);
  }

  lemma AfterPersistSame(r: Runtime, cleanupFailed: bool, ok: bool)
    ensures AfterPersist(r, cleanupFailed, ok).made == r.made
  {
    hide Done, FinishTransition, EndEnable, EndDisable, EndWith;
    if r.queue != [] {
      EndsSame(r, 0, cleanupFailed, Failed);
      if r.queue[0].Enable? || r.queue[0].Disable? { EndsSame(r, r.queue[0].epoch, cleanupFailed, Failed); }
    }
  }

  lemma ResumeLater(r: Runtime, lease: string)
    requires Bookkept(r) && CanResume(r)
    ensures Later(r.made, Resume(r, lease).made)
  {
    hide Later, AfterCleanup, AfterPersist, Done, Bookkept;
    GiveUpLater(r);
    match r.stage
    case Cleaning(attempt, epoch) => AfterCleanupLater(r, epoch, AttemptFailed(r, attempt), lease);
    case Persisted(cleanupFailed, ok) => AfterPersistSame(r, cleanupFailed, ok);
    case _ => DoneSame(r);
  }

  lemma OtherLater(r: Runtime, step: Step)
    requires Bookkept(r) && Enabled(r, step)
    requires step.FailureCleanedUp? || step.AttemptEnds? || step.ServiceExits? || step.ServiceAnswers? || step.WorkSucceeds?
    ensures Later(r.made, Apply(r, step).made)
  {
    hide Linked, Waits;
  }

  lemma OpenFailedLater(r: Runtime, g: nat)
    requires IsOpening(r, g)
    ensures Later(r.made, OpenFailed(r, g).made)
  {
  }

  lemma AdoptLater(r: Runtime, saved: Saved, requested: Saved)
    ensures Later(r.made, Adopt(r, saved, requested).made)
  {
    hide Later, CleanupOwned, SettingsChanged;
    GiveUpLater(r);
    var adopted := r.(desired := saved.desired, settings := saved.settings);
    CleanupOwnedLater(adopted.(epoch := r.epoch + 1, phase := Disabling, intent := false));
  }

  lemma StepLater(r: Runtime, step: Step)
    requires Bookkept(r) && Enabled(r, step)
    ensures Later(r.made, Apply(r, step).made)
  {
    hide Bookkept, Later, Start, Resume, Adopt, AttemptEnded, OpenFailed, Opened, Activate, ServiceExited, ServiceAnswered;
    GiveUpLater(r);
    match step
    case Triggered(lease) => ActivateLater(r, lease);
    case TaskStarts => StartLater(r);
    case TaskResumes(lease) => ResumeLater(r, lease);
    case WorkSucceeds(g) => OtherLater(r, step);
    case WorkFails(g) => OpenFailedLater(r, g);
    case FailureCleanedUp(g) => OtherLater(r, step);
    case AttemptEnds(a, failed) => OtherLater(r, step);
    case ServiceAnswers(_, _) => OtherLater(r, step);
    case ServiceExits(_, _) => OtherLater(r, step);
    case SaveAdopted(saved, requested, own) => AdoptLater(r, saved, requested);
    case _ =>
  }
}
