/** The runtime record of src/main/plugins/plugin-registry.ts as the object it is, changed
    field by field. Each method is proved to do what the step of the same name says. */
module PluginRecords {
  import opened Options
  import opened PluginRuntimes

  class GenerationRuntime {
    const number: nat
    const lease: Option<string>
    const epoch: nat
    var aborted: bool
    var cleanupAttempt: Option<nat>
    /** The service generation that the host has answered with. */
    var serviceGeneration: Option<nat>
    /** How far the activation promise is. */
    var activation: Activation
    ghost var fate: Fate

    constructor (number: nat, lease: Option<string>, epoch: nat)
      ensures this.number == number && View() == Generation(lease, false, None, epoch, Opening, Held, None)
    {
      this.number, this.lease, this.epoch := number, lease, epoch;
      aborted, cleanupAttempt, serviceGeneration, activation, fate := false, None, None, Opening, Held;
    }

    ghost function View(): Generation
      reads this
    {
      Generation(lease, aborted, cleanupAttempt, epoch, activation, fate, serviceGeneration)
    }
  }

  class PluginRuntime {
    const inEditor: bool
    const keys: set<string>
    var desired: bool
    var settings: map<string, bool>
    var lifecycle: Lifecycle
    var generationCounter: nat
    var generation: GenerationRuntime?
    var cleanupPending: GenerationRuntime?
    var epoch: nat
    var phase: Phase
    var intent: bool
    /** What the source keeps in closures and promises: every generation there has been,
        the cleanups of them, and where the record's tasks stand. */
    ghost var made: map<nat, GenerationRuntime>
    var attempts: seq<Attempt>
    var queue: seq<Task>
    var stage: Stage
    var share: Share

    /** A record as hydration leaves it. */
    constructor (inEditor: bool, keys: set<string>, saved: Saved)
      ensures Sound() && Fresh(View()) && made == map[]
      ensures this.inEditor == inEditor && this.keys == keys && PluginRuntimes.AdoptPersisted(View(), saved) == View()
    {
      this.inEditor, this.keys := inEditor, keys;
      desired, settings := saved.desired, saved.settings;
      lifecycle := if saved.desired then EnabledIdle else Disabled;
      generationCounter, generation, cleanupPending := 0, null, null;
      epoch, phase, intent := 0, Stable, saved.desired;
      made, attempts, queue, stage, share := map[], [], [], NotStarted, NoShare;
      new;
      FreshValid(View());
    }

    ghost predicate Valid()
      reads this, made.Values
    {
      (forall n :: n in made ==> made[n].number == n <= generationCounter)
      && (generation != null ==> generation.number in made && made[generation.number] == generation)
      && (cleanupPending != null ==> cleanupPending.number in made && made[cleanupPending.number] == cleanupPending)
    }

    ghost function Made(): map<nat, Generation>
      reads this`made, made.Values
    {
      map n | n in made :: made[n].View()
    }

    ghost function View(): Runtime
      reads this, made.Values
    {
      Runtime(inEditor, keys, desired, settings, lifecycle, generationCounter,
              if generation == null then None else Some(generation.number),
              if cleanupPending == null then None else Some(cleanupPending.number),
              epoch, phase, intent, Made(), attempts, queue, stage, share)
    }

    /** What every step keeps: each generation held, released or lost, the cleanups linked,
        and an active record's generation live. */
    ghost predicate Sound()
      reads this, made.Values
    {
      Valid() && PluginRuntimes.Valid(View())
    }

    ghost predicate ActivationAllowed(epoch: nat)
      reads this, made.Values
      requires Valid()
      ensures ActivationAllowed(epoch) == ActivationIntentAllows(View(), epoch)
    {
      this.epoch == epoch && phase == Stable && intent && desired && cleanupPending == null
    }

    /** Changing one generation changes one entry. */
    twostate lemma OneChanged(g: GenerationRuntime)
      requires old(Valid()) && g.number in old(made) && old(made)[g.number] == g && made == old(made)
      requires forall n :: n in made && made[n] != g ==> unchanged(made[n])
      ensures Made() == old(Made())[g.number := g.View()]
      ensures g.number in old(Made()) && old(Made())[g.number] == old(g.View())
    {
    }

    twostate lemma NoneChanged()
      requires made == old(made) && forall n :: n in made ==> unchanged(made[n])
      ensures Made() == old(Made())
    {
    }

    lemma Has(g: GenerationRuntime)
      requires g.number in made && made[g.number] == g
      ensures g.number in Made() && Made()[g.number] == g.View()
    {
    }

    method Fence()
      requires Valid()
      modifies generation
      ensures Valid() && Made() == Abort(old(Made()), old(View()).generation)
    {
      hide Made;
      if generation == null {
        NoneChanged();
      } else {
        generation.aborted := true;
        OneChanged(generation);
      }
    }

    method BeginTransition(phase: Phase, intent: bool, fence: bool) returns (begun: nat)
      requires Valid()
      modifies this`epoch, this`phase, this`intent, generation
      ensures Valid() && begun == epoch
      ensures View() == PluginRuntimes.BeginTransition(old(View()), phase, intent, fence)
    {
      hide Made;
      begun := epoch + 1;
      epoch, this.phase, this.intent := begun, phase, intent;
      if fence { Fence(); } else { NoneChanged(); }
    }

    method FinishTransition(epoch: nat) returns (current: bool)
      requires Valid()
      modifies this`phase, this`intent
      ensures Valid() && current == (this.epoch == epoch)
      ensures View() == PluginRuntimes.FinishTransition(old(View()), epoch)
    {
      if this.epoch != epoch { return false; }
      hide Made;
      phase, intent := Stable, desired;
      NoneChanged();
      return true;
    }

    method AttemptCleanup(g: GenerationRuntime)
      requires Valid() && g.number in made && made[g.number] == g
      modifies g, this`attempts
      ensures Valid() && View() == PluginRuntimes.AttemptCleanup(old(View()), g.number)
    {
      hide Made;
      Has(g);
      if g.cleanupAttempt.Some? { return; }
      g.aborted := true;
      g.cleanupAttempt := Some(|attempts|);
      attempts := attempts + [Attempt(g.number, None)];
      OneChanged(g);
    }

    /** Give the current generation up, if there is one, and start cleaning up whatever is pending. */
    method CleanupOwned() returns (awaited: Option<nat>)
      requires Valid()
      modifies this`generation, this`cleanupPending, this`attempts, generation, cleanupPending
      ensures Valid() && View() == PluginRuntimes.CleanupOwned(old(View()))
      ensures awaited == Awaited(View())
    {
      hide Made;
      GiveUp();
      awaited := None;
      if cleanupPending != null {
        Has(cleanupPending);
        AttemptCleanup(cleanupPending);
        Has(cleanupPending);
        awaited := cleanupPending.cleanupAttempt;
      }
    }

    method GiveUp()
      requires Valid()
      modifies this`generation, this`cleanupPending, generation
      ensures Valid() && View() == PluginRuntimes.GiveUp(old(View()))
      ensures cleanupPending == old(cleanupPending) || cleanupPending == old(generation)
    {
      hide Made;
      if generation == null {
        NoneChanged();
      } else {
        var g := generation;
        generation, cleanupPending := null, g;
        g.aborted := true;
        OneChanged(g);
      }
    }

    method Activate(lease: string)
      requires Valid()
      modifies this`generationCounter, this`generation, this`lifecycle, this`made
      ensures Valid() && View() == PluginRuntimes.Activate(old(View()), lease)
    {
      hide Made;
      NoneChanged();
      if !(phase == Stable && intent && desired && cleanupPending == null) || generation != null { return; }
      generationCounter := generationCounter + 1;
      var g := new GenerationRuntime(generationCounter, if inEditor then Some(lease) else None, epoch);
      generation := g;
      lifecycle := Activating;
      made := made[generationCounter := g];
      OneMade(g);
    }

    /** A new generation is one more entry. */
    twostate lemma OneMade(new g: GenerationRuntime)
      requires old(Valid()) && g.number !in old(made) && made == old(made)[g.number := g]
      requires forall n :: n in old(made) ==> unchanged(old(made)[n])
      ensures Made() == old(Made())[g.number := g.View()]
    {
    }

    /** The host has opened the generation, or failed to, or was overtaken by an abort. */
    method WorkDone(g: GenerationRuntime, ok: bool)
      requires Valid() && g.number in made && made[g.number] == g && g.activation == Opening
      modifies this`lifecycle, this`generation, this`cleanupPending, this`attempts, g
      ensures Valid()
      ensures IsOpening(old(View()), g.number)
      ensures View() == if ok && GenerationCanPublish(old(View()), g.number, g.epoch) then Opened(old(View()), g.number)
                        else OpenFailed(old(View()), g.number)
    {
      hide Made;
      Has(g);
      var current := generation == g && !g.aborted && epoch == g.epoch && phase == Stable && intent && desired
                     && cleanupPending == null;
      if !current {
        g.activation := Settled;
        OneChanged(g);
      } else if ok {
        lifecycle := Active;
        g.activation := Settled;
        OneChanged(g);
      } else {
        FailOpening(g);
      }
    }

    method FailOpening(g: GenerationRuntime)
      requires Valid() && g.number in made && made[g.number] == g && g.activation == Opening && generation == g
      requires GenerationCanPublish(View(), g.number, g.epoch)
      modifies this`generation, this`cleanupPending, this`attempts, g
      ensures Valid() && IsOpening(old(View()), g.number) && View() == OpenFailed(old(View()), g.number)
    {
      hide Made;
      Has(g);
      generation, cleanupPending := null, g;
      NoneChanged();
      AttemptCleanup(g);
      Has(g);
      label attempted:
      g.activation := if g.cleanupAttempt.Some? then CleaningFailure(g.cleanupAttempt.value) else Settled;
      OneChanged@attempted(g);
    }

    method FailureCleaned(g: GenerationRuntime)
      requires Valid() && g.number in made && made[g.number] == g && FailureIsCleaned(View(), g.number)
      modifies this`lifecycle, g
      ensures Valid() && View() == PluginRuntimes.FailureCleaned(old(View()), g.number)
    {
      hide Made;
      lifecycle := Failed;
      g.activation := Settled;
      OneChanged(g);
    }

    method AttemptEnded(a: nat, g: GenerationRuntime, failed: bool)
      requires Valid() && AttemptRuns(View(), a) && g.number == attempts[a].number && g.number in made && made[g.number] == g
      modifies this`attempts, this`cleanupPending, g
      ensures Valid() && View() == PluginRuntimes.AttemptEnded(old(View()), a, failed)
    {
      hide Made;
      Has(g);
      attempts := attempts[a := Attempt(g.number, Some(failed))];
      if !failed && cleanupPending == g {
        cleanupPending := null;
        g.fate := Released;
      }
      g.cleanupAttempt := None;
      OneChanged(g);
    }

    /** The service host has answered. */
    method ServiceAnswered(g: GenerationRuntime, service: nat)
      requires Valid() && g.number in made && made[g.number] == g && AwaitsService(View(), g.number)
      modifies g`serviceGeneration
      ensures Valid() && View() == PluginRuntimes.ServiceAnswered(old(View()), g.number, service)
    {
      hide Made;
      Has(g);
      g.serviceGeneration := Some(service);
      OneChanged(g);
    }

    /** An unexpected exit concerns the current generation only, in its service generation. */
    method ServiceExited(number: nat, service: nat)
      requires Valid()
      modifies this`generation, this`cleanupPending, this`lifecycle, generation
      ensures Valid() && View() == PluginRuntimes.ServiceExited(old(View()), number, service)
    {
      hide Made;
      NoneChanged();
      if generation == null || generation.number != number { return; }
      var g := generation;
      Has(g);
      if g.serviceGeneration != Some(service) { return; }
      g.aborted := true;
      g.fate := Lost;
      OneChanged(g);
      generation, cleanupPending := null, null;
      lifecycle := Crashed;
    }

    // --- Calls ---

    method CallEnable()
      requires Valid()
      modifies this`epoch, this`phase, this`intent, this`queue, generation
      ensures Valid() && View() == PluginRuntimes.CallEnable(old(View()))
    {
      hide Made;
      NoneChanged();
      var begun := epoch;
      if !(desired && phase == Stable) { begun := BeginTransition(Enabling, true, false); }
      queue := queue + [Enable(begun)];
    }

    method CallDisable()
      requires Valid()
      modifies this`epoch, this`phase, this`intent, this`queue, this`lifecycle, generation
      ensures Valid() && View() == PluginRuntimes.CallDisable(old(View()))
    {
      hide Made;
      var begun := BeginTransition(Disabling, false, true);
      lifecycle := Deactivating;
      queue := queue + [Disable(begun)];
    }

    method Enqueue(task: Task)
      requires Valid()
      modifies this`queue
      ensures Valid() && View() == old(View()).(queue := old(View()).queue + [task])
    {
      hide Made;
      queue := queue + [task];
      NoneChanged();
    }

    method CallReplace()
      requires Valid()
      modifies this`epoch, this`phase, this`intent, this`queue, this`lifecycle, generation
      ensures Valid() && View() == PluginRuntimes.CallReplace(old(View()))
    {
      hide Made;
      NoneChanged();
      if !(phase == Stable && intent && desired && cleanupPending == null) { return; }
      var begun := BeginTransition(Replacing, true, true);
      lifecycle := Deactivating;
      queue := queue + [Replace(begun)];
    }

    method CallShutdown()
      requires Valid()
      modifies this`epoch, this`phase, this`intent, this`queue, this`lifecycle, generation
      ensures Valid() && View() == PluginRuntimes.CallShutdown(old(View()))
    {
      hide Made;
      var begun := BeginTransition(ShuttingDown, desired, true);
      if generation != null || cleanupPending != null { lifecycle := Deactivating; }
      queue := queue + [Shutdown(begun)];
    }

    // --- Tasks ---

    method Done()
      requires Valid()
      modifies this`queue, this`stage
      ensures Valid() && View() == PluginRuntimes.Done(old(View()))
    {
      hide Made;
      NoneChanged();
      queue, stage := if queue == [] then [] else queue[1..], NotStarted;
    }

    method EndEnable(epoch: nat)
      requires Valid()
      modifies this`phase, this`intent, this`lifecycle, this`queue, this`stage
      ensures Valid() && View() == PluginRuntimes.EndEnable(old(View()), epoch)
    {
      hide Made, PluginRuntimes.Done;
      NoneChanged();
      var mismatch := !desired;
      var current := FinishTransition(epoch);
      if current {
        if mismatch { lifecycle := Failed; }
        else if cleanupPending != null { lifecycle := Failed; }
        else if generation == null { lifecycle := EnabledIdle; }
      }
      Done();
    }

    method EndDisable(epoch: nat, cleanupFailed: bool)
      requires Valid()
      modifies this`phase, this`intent, this`lifecycle, this`queue, this`stage
      ensures Valid() && View() == PluginRuntimes.EndDisable(old(View()), epoch, cleanupFailed)
    {
      hide Made, PluginRuntimes.Done;
      NoneChanged();
      var mismatch := desired;
      var current := FinishTransition(epoch);
      if current { lifecycle := if cleanupFailed then Failed else if mismatch then Failed else Disabled; }
      Done();
    }

    method EndWith(epoch: nat, lifecycle: Lifecycle)
      requires Valid()
      modifies this`phase, this`intent, this`lifecycle, this`queue, this`stage
      ensures Valid() && View() == PluginRuntimes.EndWith(old(View()), epoch, lifecycle)
    {
      hide Made, PluginRuntimes.Done;
      NoneChanged();
      var current := FinishTransition(epoch);
      if current { this.lifecycle := lifecycle; }
      Done();
    }

    method StartCleaning(epoch: nat)
      requires Valid()
      modifies this`generation, this`cleanupPending, this`attempts, this`stage, generation, cleanupPending
      ensures Valid() && View() == PluginRuntimes.StartCleaning(old(View()), epoch)
    {
      hide Made, PluginRuntimes.CleanupOwned;
      var awaited := CleanupOwned();
      label cleaned:
      stage := Cleaning(awaited, epoch);
      NoneChanged@cleaned();
    }

    method StartDispose(lease: string, number: nat)
      requires Valid() && queue != [] && queue[0] == Dispose(lease, number) && stage == NotStarted
      modifies this`epoch, this`phase, this`intent, this`lifecycle, this`queue
      modifies this`generation, this`cleanupPending, this`attempts, this`stage, generation, cleanupPending
      ensures Valid() && View() == PluginRuntimes.Start(old(View()))
    {
      hide Made, PluginRuntimes.Done, PluginRuntimes.StartCleaning, PluginRuntimes.BeginTransition;
      NoneChanged();
      var owned := if generation != null then generation else cleanupPending;
      if owned != null { Has(owned); }
      if owned == null || owned.lease != Some(lease) || owned.number != number {
        Done();
      } else {
        var begun := BeginTransition(RendererDisposed, desired, true);
        label fenced:
        lifecycle := Deactivating;
        NoneChanged@fenced();
        StartCleaning(begun);
      }
    }

    /** The first task runs up to its first await. */
    method Start()
      requires Valid() && queue != [] && stage == NotStarted
      modifies this`epoch, this`phase, this`intent, this`lifecycle, this`queue
      modifies this`generation, this`cleanupPending, this`attempts, this`stage, generation, cleanupPending
      ensures Valid() && View() == PluginRuntimes.Start(old(View()))
    {
      hide Made, PluginRuntimes.Done, PluginRuntimes.StartCleaning, PluginRuntimes.BeginTransition, PluginRuntimes.EndEnable;
      NoneChanged();
      match queue[0]
      case Enable(epoch) => if !desired { stage := Persisting(false); NoneChanged(); } else { EndEnable(epoch); }
      case Disable(epoch) => StartCleaning(epoch);
      case Replace(epoch) => StartCleaning(epoch);
      case Shutdown(epoch) => StartCleaning(epoch);
      case SetSetting(key, value) =>
        if key !in keys || (key in settings && settings[key] == value) { Done(); } else { stage := Persisting(false); NoneChanged(); }
      case Dispose(lease, number) => StartDispose(lease, number);
    }

    method ReplaceOver(lease: string)
      requires Valid()
      modifies this`lifecycle, this`queue, this`stage, this`generationCounter, this`generation, this`made
      ensures Valid() && View() == PluginRuntimes.ReplaceOver(old(View()), lease)
    {
      hide Made, PluginRuntimes.Done, PluginRuntimes.Activate;
      NoneChanged();
      if !desired {
        lifecycle := Disabled;
        NoneChanged();
        Done();
        return;
      }
      var allowed := phase == Stable && intent && desired && cleanupPending == null;
      if !allowed { Done(); return; }
      Activate(lease);
      label activated:
      if lifecycle == Active || generation == null { Done(); } else { stage := AwaitingActivation(generation.number); NoneChanged@activated(); }
    }

    /** The cleanup that the first task waited for is over. */
    method AfterCleanup(epoch: nat, failed: bool, lease: string)
      requires Valid() && queue != []
      modifies this`phase, this`intent, this`lifecycle, this`queue, this`stage
      modifies this`generationCounter, this`generation, this`made
      ensures Valid() && View() == PluginRuntimes.AfterCleanup(old(View()), epoch, failed, lease)
    {
      hide Made, PluginRuntimes.Done, PluginRuntimes.EndDisable, PluginRuntimes.EndWith, PluginRuntimes.ReplaceOver;
      NoneChanged();
      match queue[0]
      case Disable(_) => if desired { stage := Persisting(failed); NoneChanged(); } else { EndDisable(epoch, failed); }
      case Replace(_) =>
        if failed { EndWith(epoch, Failed); } else {
          var current := FinishTransition(epoch);
          if current { ReplaceOver(lease); } else { Done(); }
        }
      case Shutdown(_) => EndWith(epoch, if failed then Failed else if desired then EnabledIdle else Disabled);
      case Dispose(_, _) => EndWith(epoch, Failed);
      case _ =>
    }

    /** The save that the first task waited for is over. */
    method AfterPersist(cleanupFailed: bool, ok: bool)
      requires Valid() && queue != []
      modifies this`phase, this`intent, this`lifecycle, this`queue, this`stage
      ensures Valid() && View() == PluginRuntimes.AfterPersist(old(View()), cleanupFailed, ok)
    {
      hide Made, PluginRuntimes.Done, PluginRuntimes.EndDisable, PluginRuntimes.EndWith, PluginRuntimes.EndEnable;
      NoneChanged();
      match queue[0]
      case Enable(epoch) =>
        if ok { EndEnable(epoch); } else {
          var _ := FinishTransition(epoch);
          lifecycle := Failed;
          NoneChanged();
          Done();
        }
      case Disable(epoch) => if ok { EndDisable(epoch, cleanupFailed); } else { EndWith(epoch, Failed); }
      case _ => Done();
    }

    /** The first task runs on from its await; `failed` is what the cleanup that it waited
        for has come to. */
    method Resume(lease: string, failed: bool)
      requires Valid() && CanResume(View()) && queue != []
      requires stage.Cleaning? ==> failed == AttemptFailed(View(), stage.attempt)
      modifies this`phase, this`intent, this`lifecycle, this`queue, this`stage
      modifies this`generationCounter, this`generation, this`made
      ensures Valid() && View() == PluginRuntimes.Resume(old(View()), lease)
    {
      hide Made, PluginRuntimes.Done, PluginRuntimes.AfterCleanup, PluginRuntimes.AfterPersist;
      if stage.Cleaning? { AfterCleanup(stage.epoch, failed, lease); }
      else if stage.Persisted? { AfterPersist(stage.cleanupFailed, stage.ok); }
      else { Done(); }
    }

    // --- Saves ---

    method ToDisabling()
      requires Valid()
      modifies this`epoch, this`phase, this`intent
      ensures Valid() && generation == old(generation) && cleanupPending == old(cleanupPending)
      ensures View() == old(View()).(epoch := old(View()).epoch + 1, phase := Disabling, intent := false)
    {
      hide Made;
      epoch, phase, intent := epoch + 1, Disabling, false;
      NoneChanged();
    }

    method ShareCleanup(awaited: Option<nat>)
      requires Valid()
      modifies this`lifecycle, this`share
      ensures Valid() && View() == old(View()).(lifecycle := Deactivating, share := ShareIn(awaited))
    {
      hide Made, ShareIn;
      lifecycle, share := Deactivating, ShareIn(awaited);
      NoneChanged();
    }

    method DisableForGood()
      requires Valid()
      modifies this`epoch, this`phase, this`intent, this`lifecycle, this`share
      modifies this`generation, this`cleanupPending, this`attempts, generation, cleanupPending
      ensures Valid() && View() == PluginRuntimes.DisableForGood(old(View()))
    {
      hide View, PluginRuntimes.CleanupOwned, Awaited, ShareIn;
      ToDisabling();
      var awaited := CleanupOwned();
      ShareCleanup(awaited);
    }

    method AdoptPersisted(saved: Saved)
      requires Valid()
      modifies this`desired, this`settings
      ensures Valid() && View() == PluginRuntimes.AdoptPersisted(old(View()), saved)
    {
      hide Made;
      desired, settings := saved.desired, saved.settings;
      NoneChanged();
    }

    method Reconcile(prior: map<string, bool>, requested: map<string, bool>)
      requires Valid()
      modifies this`epoch, this`phase, this`intent, this`lifecycle, this`share
      modifies this`generation, this`cleanupPending, this`attempts, generation, cleanupPending
      ensures Valid() && View() == PluginRuntimes.Reconcile(old(View()), prior, requested)
    {
      hide Made, PluginRuntimes.DisableForGood, SameAt;
      NoneChanged();
      if generation != null { Has(generation); }
      var changed := exists key :: key in keys && (!SameAt(prior, settings, key) || !SameAt(requested, settings, key));
      if !desired && (generation != null || cleanupPending != null) && !(phase == Disabling && !intent) {
        DisableForGood();
      } else if desired && inEditor && generation != null && generation.lease.Some? && changed {
        share := SharedSettings;
        NoneChanged();
      } else if phase == Stable && generation == null && cleanupPending == null && lifecycle != Failed {
        intent := desired;
        lifecycle := if desired then EnabledIdle else Disabled;
        NoneChanged();
      }
    }

    /** Take over what has been persisted, then reconcile. */
    method Adopt(saved: Saved, requested: Saved)
      requires Valid()
      modifies this`desired, this`settings, this`epoch, this`phase, this`intent, this`lifecycle, this`share
      modifies this`generation, this`cleanupPending, this`attempts, generation, cleanupPending
      ensures Valid() && View() == PluginRuntimes.Adopt(old(View()), saved, requested)
    {
      hide Made, PluginRuntimes.Reconcile, PluginRuntimes.AdoptPersisted;
      var prior := settings;
      AdoptPersisted(saved);
      Reconcile(prior, requested.settings);
    }

    method ShareCleaned(failed: bool)
      requires Valid() && ShareIsCleaned(View()) && failed == AttemptFailed(View(), Some(share.attempt))
      modifies this`phase, this`intent, this`share, this`lifecycle
      ensures Valid() && View() == PluginRuntimes.ShareCleaned(old(View()))
    {
      hide Made;
      phase, intent := Stable, false;
      share := NoShare;
      lifecycle := if failed then Failed else Disabled;
      NoneChanged();
    }

    method SettingsApplied(failed: bool)
      requires Valid()
      modifies this`share, this`lifecycle
      ensures Valid() && View() == PluginRuntimes.SettingsApplied(old(View()), failed)
    {
      hide Made;
      share := NoShare;
      if failed { lifecycle := Failed; }
      NoneChanged();
    }

    /** The first task's own change has been taken over. */
    method Adopted()
      requires Valid()
      modifies this`stage
      ensures Valid() && View() == PluginRuntimes.Adopted(old(View()))
    {
      hide Made;
      if stage.Persisting? { stage := Reconciling(stage.cleanupFailed); }
      NoneChanged();
    }

    method PersistOver(ok: bool)
      requires Valid()
      modifies this`stage
      ensures Valid() && View() == PluginRuntimes.PersistOver(old(View()), ok)
    {
      hide Made;
      match stage {
        case Persisting(cleanupFailed) => stage := Persisted(cleanupFailed, ok);
        case Reconciling(cleanupFailed) => stage := Persisted(cleanupFailed, ok);
        case _ =>
      }
      NoneChanged();
    }

    // --- Every step ---

    /** The generation that a promise of the source has in its closure. */
    ghost predicate Concerns(step: Step, g: GenerationRuntime?)
      reads this
    {
      match step
      case WorkSucceeds(n) => g != null && n in made && made[n] == g
      case WorkFails(n) => g != null && n in made && made[n] == g
      case FailureCleanedUp(n) => g != null && n in made && made[n] == g
      case ServiceAnswers(n, _) => g != null && n in made && made[n] == g
      case AttemptEnds(a, _) => g != null && a < |attempts| && attempts[a].number in made && made[attempts[a].number] == g
      case _ => g == null
    }

    method Call(step: Step)
      requires Valid() && Enabled(View(), step) && IsCall(step)
      modifies this`epoch, this`phase, this`intent, this`queue, this`lifecycle, generation
      ensures Valid() && View() == Apply(old(View()), step)
    {
      hide View, PluginRuntimes.CallEnable, PluginRuntimes.CallDisable, PluginRuntimes.CallReplace, PluginRuntimes.CallShutdown;
      match step
      case EnableCalled => CallEnable();
      case DisableCalled => CallDisable();
      case SettingCalled(key, value) => Enqueue(SetSetting(key, value));
      case ReplaceCalled => CallReplace();
      case DisposeCalled(lease, number) => Enqueue(Dispose(lease, number));
      case ShutdownCalled => CallShutdown();
      case _ =>
    }

    /** What a host or a cleanup reports, and the trigger of an activation. */
    method Report(step: Step, g: GenerationRuntime?)
      requires Valid() && Enabled(View(), step) && Concerns(step, g)
      requires step.Triggered? || step.WorkSucceeds? || step.WorkFails? || step.FailureCleanedUp? || step.AttemptEnds?
               || step.ServiceAnswers? || step.ServiceExits?
      modifies this`generationCounter, this`generation, this`cleanupPending, this`lifecycle, this`attempts, this`made, generation, g
      ensures Valid() && View() == Apply(old(View()), step)
    {
      hide Made, PluginRuntimes.Activate, Opened, OpenFailed, PluginRuntimes.FailureCleaned, PluginRuntimes.AttemptEnded,
        PluginRuntimes.ServiceAnswered, PluginRuntimes.ServiceExited;
      if g != null { Has(g); }
      match step
      case Triggered(lease) => Activate(lease);
      case WorkSucceeds(_) => WorkDone(g, true);
      case WorkFails(_) => WorkDone(g, false);
      case FailureCleanedUp(_) => FailureCleaned(g);
      case AttemptEnds(a, failed) => AttemptEnded(a, g, failed);
      case ServiceAnswers(_, service) => ServiceAnswered(g, service);
      case ServiceExits(n, service) => ServiceExited(n, service);
      case _ =>
    }

    /** The queue goes on; `failed` is what the cleanup waited for has come to, if one was. */
    method GoOn(step: Step, failed: bool)
      requires Valid() && Enabled(View(), step) && (step.TaskStarts? || (step.TaskResumes? && queue != []))
      requires step.TaskResumes? && stage.Cleaning? ==> failed == AttemptFailed(View(), stage.attempt)
      modifies this`epoch, this`phase, this`intent, this`lifecycle, this`queue, this`generationCounter, this`made
      modifies this`generation, this`cleanupPending, this`attempts, this`stage, generation, cleanupPending
      ensures Valid() && View() == Apply(old(View()), step)
    {
      hide PluginRuntimes.Start, PluginRuntimes.Resume, Made;
      match step
      case TaskStarts => Start();
      case TaskResumes(lease) => Resume(lease, failed);
      case _ =>
    }

    /** A save, or what follows it. */
    method Settle(step: Step, failed: bool)
      requires Valid() && Enabled(View(), step)
      requires step.SaveAdopted? || step.ShareCleanedUp? || step.ShareSettingsApplied? || step.PersistEnds?
      requires step.ShareCleanedUp? ==> failed == AttemptFailed(View(), Some(share.attempt))
      modifies this`desired, this`settings, this`epoch, this`phase, this`intent, this`lifecycle, this`share, this`stage
      modifies this`generation, this`cleanupPending, this`attempts, generation, cleanupPending
      ensures Valid() && View() == Apply(old(View()), step)
    {
      hide PluginRuntimes.Adopt, PluginRuntimes.Adopted, PluginRuntimes.ShareCleaned, PluginRuntimes.SettingsApplied,
        PluginRuntimes.PersistOver, Made;
      match step
      case SaveAdopted(saved, requested, own) => Adopt(saved, requested); if own { Adopted(); }
      case ShareCleanedUp => ShareCleaned(failed);
      case ShareSettingsApplied(bad) => SettingsApplied(bad);
      case PersistEnds(ok) => PersistOver(ok);
      case _ =>
    }

    /** Whatever happens to the record, it does what the step says and stays sound; and an
        active record keeps its generation exactly unless the step starts a queued cleanup. */
    method Happen(step: Step, g: GenerationRuntime?, failed: bool)
      requires Sound() && Enabled(View(), step) && Concerns(step, g)
      requires step.TaskResumes? && stage.Cleaning? ==> failed == AttemptFailed(View(), stage.attempt)
      requires step.ShareCleanedUp? ==> failed == AttemptFailed(View(), Some(share.attempt))
      modifies this, made.Values
      ensures Sound() && View() == Apply(old(View()), step) && Later(old(View()).made, View().made)
      ensures old(ActiveHasGeneration(View())) ==> (ActiveHasGeneration(View()) <==> !old(CleansActive(View(), step)))
    {
      hide Made, Apply, PluginRuntimes.Valid, ActiveHasGeneration, CleansActive, Later;
      StepSound(View(), step);
      if IsCall(step) { Call(step); }
      else if step.TaskStarts? || step.TaskResumes? { GoOn(step, failed); }
      else if step.SaveAdopted? || step.ShareCleanedUp? || step.ShareSettingsApplied? || step.PersistEnds? { Settle(step, failed); }
      else { Report(step, g); }
    }
  }

  lemma StepSound(r: Runtime, step: Step)
    requires PluginRuntimes.Valid(r) && Enabled(r, step)
    ensures var s := Apply(r, step);
            PluginRuntimes.Valid(s) && Later(r.made, s.made)
            && (ActiveHasGeneration(r) ==> (ActiveHasGeneration(s) <==> !CleansActive(r, step)))
    ensures step.TaskResumes? ==> r.queue != []
  {
    hide Apply, ActiveHasGeneration, CleansActive, Later, Owned, Linked, ActiveIsLive;
    StepActive(r, step);
    StepLater(r, step);
  }
}
