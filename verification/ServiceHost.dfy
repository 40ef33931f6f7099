/** The service process's host, src/main/plugins/service-host.ts: what changes its fields, and the promises in between. */
module ServiceHosts {
  import opened Options

  datatype State = Stopped | Starting | Ready | Stopping | Failed

  /** A grant of the broker, or a read pending in the ledger, with its generations. */
  datatype Grant = Grant(registry: nat, service: nat)

  datatype Read = Read(grantId: string, registry: nat, service: nat)

  /** The object's fields. A child, its port, its exit and its readiness lease are named by
      the service generation that they were made for. */
  datatype Host = Host(
    hasPath: bool,
    state: State,
    child: Option<nat>,
    port: Option<nat>,
    exitWaiter: Option<nat>,
    counter: nat,
    active: Option<nat>,
    ready: Option<nat>,
    lease: Option<nat>,
    stopping: set<nat>,
    registry: Option<nat>,
    probeFailed: bool,
    grants: map<string, Grant>,
    pending: Option<Read>)

  // --- The synchronous parts ---

  function RevokeGeneration(grants: map<string, Grant>, registry: nat, service: nat): map<string, Grant>
  {
    map id | id in grants && grants[id] != Grant(registry, service) :: grants[id]
  }

  /** Ends readiness; revokes the grants of the generations, if both are known. */
  function ClearReadiness(h: Host, registry: Option<nat>, service: Option<nat>): Host
  {
    h.(grants := if registry.Some? && service.Some? then RevokeGeneration(h.grants, registry.value, service.value) else h.grants,
       ready := None, lease := None)
  }

  /** Ends the pending read if it is of these generations. */
  function EndReads(h: Host, registry: Option<nat>, service: nat): Host
  {
    if registry.Some? && h.pending.Some? && h.pending.value.registry == registry.value && h.pending.value.service == service
    then h.(pending := None) else h
  }

  /** How a call of `stop` stands: its promise rejected, settled, or waiting for an exit. */
  datatype Wait = Exited | Broken | WaitingFor(generation: nat)

  function Stop(h: Host): (Host, Wait)
  {
    if h.child.None? || h.active.None? then
      (ClearReadiness(h, h.registry, h.active).(state := Stopped, port := None, child := None, active := None, exitWaiter := None), Exited)
    else if h.exitWaiter != h.child || h.exitWaiter != h.active then
      (ClearReadiness(h, h.registry, h.active).(state := Failed), Broken)
    else
      var cleared := EndReads(ClearReadiness(h, h.registry, h.active), h.registry, h.active.value);
      (cleared.(state := Stopping, stopping := h.stopping + {h.active.value}), WaitingFor(h.active.value))
  }

  /** What `start` comes to before its first await. */
  datatype Started = AlreadyReady | Refused | Resolves(generation: nat)

  function Start(h: Host): (Host, Started)
  {
    if h.state == Ready then (h, AlreadyReady)
    else if h.child.Some? || h.state == Starting then (h, Refused)
    else if !h.hasPath then (h.(state := Failed), Refused)
    else
      var g := h.counter + 1;
      var numbered := h.(counter := g, active := Some(g));
      (ClearReadiness(numbered, h.registry, Some(g)).(state := Starting), Resolves(g))
  }

  function Fork(h: Host, g: nat): Host
  {
    h.(port := Some(g), child := Some(g), exitWaiter := Some(g))
  }

  function FailGeneration(h: Host, g: nat): Host
  {
    if h.active != Some(g) then h
    else EndReads(ClearReadiness(h, h.registry, Some(g)).(state := Failed), h.registry, g)
  }

  function ChildExits(h: Host, g: nat): Host
  {
    var stopping := h.stopping - {g};
    if h.child != Some(g) || h.active != Some(g) then h.(stopping := stopping)
    else
      var cleared := EndReads(ClearReadiness(h, h.registry, Some(g)), h.registry, g);
      cleared.(stopping := stopping, port := None, child := None, active := None, exitWaiter := None,
               state := if g in h.stopping then Stopped else Failed,
               registry := if g in h.stopping then h.registry else None)
  }

  function BecomeReady(h: Host, g: nat): Host
  {
    h.(state := Ready, ready := Some(g), lease := Some(g))
  }

  predicate LeaseLive(h: Host, g: nat)
  {
    h.lease == Some(g) && h.state == Ready && h.child == Some(g) && h.port == Some(g) && h.active == Some(g) && h.ready == Some(g)
  }

  // --- The promises ---

  datatype Handshake = Open | Ok | Bad(fallback: bool)

  /** How far an activation is. */
  datatype Act =
    | Resolving(generation: nat, probing: bool)
    | Handshaking(generation: nat, probing: bool, outcome: Handshake)
    | FallbackStopping(wait: Wait)
    | FailStopping(wait: Wait)
    | AbortStopping(wait: Wait)
    | StartOver(ok: bool)
    | Over

  /** A call of `stop` that somebody waits for, on behalf of a registry generation or not. */
  datatype Deact = Deact(registry: Option<nat>, wait: Wait)

  datatype Ask = AskGrant(id: string) | AskRevoke(id: string, known: bool) | AskCancel(matches: bool) | AskRead(id: string) | AskReadAuthorized(id: string)

  /** A request that waits for a path, under the lease of its service generation. */
  datatype Request = Request(registry: nat, service: nat, ask: Ask)

  /** `probes` says of each service generation whether it was started with the permission
      probe. */
  datatype System = System(
    h: Host,
    acts: map<nat, Act>,
    deacts: map<nat, Deact>,
    requests: map<nat, Request>,
    probes: map<nat, bool>)

  predicate Settled(wait: Wait)
  {
    !wait.WaitingFor?
  }

  /** A promise that the activation awaits has settled, so that it runs on before the next
      host event. */
  predicate ActRuns(act: Act)
  {
    match act
    case Handshaking(_, _, outcome) => outcome != Open
    case FallbackStopping(wait) => Settled(wait)
    case FailStopping(wait) => Settled(wait)
    case AbortStopping(wait) => Settled(wait)
    case StartOver(_) => true
    case _ => false
  }

  ghost predicate Quiescent(s: System)
  {
    (forall r :: r in s.acts ==> !ActRuns(s.acts[r])) && (forall d :: d in s.deacts ==> !Settled(s.deacts[d].wait))
  }

  // --- Calls ---

  /** The call of `start` within activation r. */
  function StartFor(s: System, r: nat, probing: bool): System
  {
    var (h, started) := Start(s.h);
    s.(h := h,
       acts := s.acts[r := match started
                           case AlreadyReady => StartOver(true)
                           case Refused => StartOver(false)
                           case Resolves(g) => Resolving(g, probing)],
       probes := if started.Resolves? then s.probes[started.generation := probing] else s.probes)
  }

  /** `activate`, for a signal not aborted and a registry generation never used before. */
  function CallActivate(s: System, r: nat): System
  {
    if s.h.registry.Some? && s.h.registry != Some(r) then s
    else StartFor(s.(h := s.h.(registry := Some(r))), r, !s.h.probeFailed)
  }

  predicate DeactivateAllowed(h: Host, r: nat)
  {
    h.registry.Some? ==> h.registry == Some(r)
  }

  function CallDeactivate(s: System, d: nat, r: nat): System
  {
    if !DeactivateAllowed(s.h, r) then s
    else var (h, wait) := Stop(s.h); s.(h := h, deacts := s.deacts[d := Deact(Some(r), wait)])
  }

  /** A call of `stop` from outside, as when the application quits. */
  function CallStop(s: System, d: nat): System
  {
    var (h, wait) := Stop(s.h); s.(h := h, deacts := s.deacts[d := Deact(None, wait)])
  }

  function CallRequest(s: System, n: nat, r: nat, ask: Ask): System
  {
    if s.h.registry != Some(r) || !s.h.hasPath || s.h.lease.None? || !LeaseLive(s.h, s.h.lease.value) then s
    else s.(requests := s.requests[n := Request(r, s.h.lease.value, ask)])
  }

  // --- Continuations ---

  function ForgetRegistry(h: Host, r: nat): Host
  {
    if h.registry == Some(r) then h.(registry := None) else h
  }

  /** The activation runs on from a settled promise. */
  function ActContinues(s: System, r: nat, aborted: bool): System
    requires r in s.acts && ActRuns(s.acts[r])
  {
    match s.acts[r]
    case Handshaking(g, probing, outcome) =>
      if outcome == Ok then s.(acts := s.acts[r := StartOver(true)])
      else if probing && outcome.fallback then
        var (h, wait) := Stop(s.h.(probeFailed := true));
        s.(h := h, acts := s.acts[r := FallbackStopping(wait)])
      else
        var (h, wait) := Stop(FailGeneration(s.h, g));
        s.(h := h, acts := s.acts[r := FailStopping(wait)])
    case FallbackStopping(wait) =>
      if wait == Exited then StartFor(s, r, false) else s.(acts := s.acts[r := StartOver(false)])
    case FailStopping(_) => s.(acts := s.acts[r := StartOver(false)])
    case AbortStopping(_) => s.(h := ForgetRegistry(s.h, r), acts := s.acts[r := Over])
    case StartOver(ok) =>
      if ok && aborted then
        if !DeactivateAllowed(s.h, r) then s.(acts := s.acts[r := StartOver(false)])
        else var (h, wait) := Stop(s.h); s.(h := h, acts := s.acts[r := AbortStopping(wait)])
      else if ok && s.h.ready.Some? then s.(acts := s.acts[r := Over])
      else s.(h := ForgetRegistry(s.h, r), acts := s.acts[r := Over])
    case _ => s
  }

  function DeactContinues(s: System, d: nat): System
    requires d in s.deacts && Settled(s.deacts[d].wait)
  {
    s.(h := if s.deacts[d].registry.Some? then ForgetRegistry(s.h, s.deacts[d].registry.value) else s.h, deacts := s.deacts - {d})
  }

  // --- Host events ---

  datatype Resolution = Rejects | ForkThrows | Forks

  function PathResolves(s: System, r: nat, resolution: Resolution): System
    requires r in s.acts && s.acts[r].Resolving?
  {
    var g := s.acts[r].generation;
    if resolution == Rejects || s.h.state != Starting || s.h.active != Some(g) then s.(acts := s.acts[r := StartOver(false)])
    else if resolution == ForkThrows then s.(h := s.h.(port := Some(g)), acts := s.acts[r := StartOver(false)])
    else s.(h := Fork(s.h, g), acts := s.acts[r := Handshaking(g, s.acts[r].probing, Open)])
  }

  /** The handshake of generation g, where it is still open, ends. */
  function Shaken(acts: map<nat, Act>, g: nat, outcome: Handshake): map<nat, Act>
  {
    map r | r in acts :: if acts[r].Handshaking? && acts[r].generation == g && acts[r].outcome == Open
                         then Handshaking(g, acts[r].probing, outcome) else acts[r]
  }

  /** What a process sends: nonsense, `ready` with or without the probe denied, or the
      answer to a read, which may or may not be the pending one. */
  datatype Message = Malformed | SaysReady(denied: bool, compatible: bool) | Answer(matches: bool)

  function Receives(s: System, g: nat, probing: bool, message: Message): System
  {
    if message == Malformed then s.(h := FailGeneration(s.h, g), acts := Shaken(s.acts, g, Bad(false)))
    else if s.h.active != Some(g) then s
    else match message
      case SaysReady(denied, compatible) =>
        if s.h.state != Starting || s.h.child != Some(g) || s.h.port != Some(g) then s
        else if probing && !denied then s.(acts := Shaken(s.acts, g, Bad(compatible)))
        else s.(h := BecomeReady(s.h, g), acts := Shaken(s.acts, g, Ok))
      case Answer(matches) => if matches then s.(h := EndReads(s.h, s.h.registry, g)) else s
      case Malformed => s
  }

  function After(wait: Wait, g: nat): Wait
  {
    if wait == WaitingFor(g) then Exited else wait
  }

  function ActAfterExit(act: Act, g: nat): Act
  {
    match act
    case Handshaking(h, probing, outcome) => if h == g && outcome == Open then Handshaking(h, probing, Bad(false)) else act
    case FallbackStopping(wait) => FallbackStopping(After(wait, g))
    case FailStopping(wait) => FailStopping(After(wait, g))
    case AbortStopping(wait) => AbortStopping(After(wait, g))
    case _ => act
  }

  function ActsAfterExit(acts: map<nat, Act>, g: nat): map<nat, Act>
  {
    map r | r in acts :: ActAfterExit(acts[r], g)
  }

  function DeactsAfterExit(deacts: map<nat, Deact>, g: nat): map<nat, Deact>
  {
    map d | d in deacts :: deacts[d].(wait := After(deacts[d].wait, g))
  }

  function Exits(s: System, g: nat): System
  {
    s.(h := ChildExits(s.h, g), acts := ActsAfterExit(s.acts, g), deacts := DeactsAfterExit(s.deacts, g))
  }

  /** A call of `stop` has waited too long. */
  function StopTimesOut(h: Host, g: nat): Host
  {
    h.(stopping := h.stopping - {g}, state := Failed)
  }

  function ActWait(act: Act): Option<Wait>
  {
    match act
    case FallbackStopping(wait) => Some(wait)
    case FailStopping(wait) => Some(wait)
    case AbortStopping(wait) => Some(wait)
    case _ => None
  }

  function ActTimesOut(s: System, r: nat): System
    requires r in s.acts && ActWait(s.acts[r]).Some? && ActWait(s.acts[r]).value.WaitingFor?
  {
    var g := ActWait(s.acts[r]).value.generation;
    s.(h := StopTimesOut(s.h, g),
       acts := s.acts[r := match s.acts[r]
                           case FallbackStopping(_) => FallbackStopping(Broken)
                           case FailStopping(_) => FailStopping(Broken)
                           case _ => AbortStopping(Broken)])
  }

  /** The path that a request waited for; `ok` when it lies inside what was granted. */
  function RequestResolves(s: System, n: nat, ok: bool): System
    requires n in s.requests
  {
    var q, rest := s.requests[n], s.requests - {n};
    if !ok || !LeaseLive(s.h, q.service) then s.(requests := rest)
    else match q.ask
      case AskGrant(id) =>
        if s.h.grants != map[] then s.(requests := rest)
        else s.(requests := rest, h := s.h.(grants := map[id := Grant(q.registry, q.service)]))
      case AskRevoke(id, known) =>
        if (if id in s.h.grants then s.h.grants[id] != Grant(q.registry, q.service) else !known) then s.(requests := rest)
        else
          var h := s.h.(grants := s.h.grants - {id});
          s.(requests := rest,
             h := if h.pending.Some? && h.pending.value == Read(id, q.registry, q.service) then h.(pending := None) else h)
      case AskCancel(matches) => s.(requests := rest, h := if matches then EndReads(s.h, Some(q.registry), q.service) else s.h)
      case AskRead(id) =>
        if id in s.h.grants && s.h.grants[id] == Grant(q.registry, q.service) then
          s.(requests := rest[n := q.(ask := AskReadAuthorized(id))])
        else s.(requests := rest)
      case AskReadAuthorized(id) =>
        if s.h.pending.Some? then s.(requests := rest)
        else s.(requests := rest, h := s.h.(pending := Some(Read(id, q.registry, q.service))))
  }

  // --- Steps ---

  datatype Event =
    | Activated(r: nat)
    | Deactivated(d: nat, r: nat)
    | StopCalled(d: nat)
    | Requested(n: nat, r: nat, ask: Ask)
    | ActRunsOn(r: nat, aborted: bool)
    | DeactRunsOn(d: nat)
    | PathResolved(r: nat, resolution: Resolution)
    | RequestResolved(n: nat, ok: bool)
    | MessageArrived(g: nat, probing: bool, message: Message)
    | ChildErrored(g: nat)
    | ChildExited(g: nat)
    | HandshakeTimedOut(r: nat)
    | ActStopTimedOut(r: nat)
    | DeactStopTimedOut(d: nat)
    | ReadTimedOut

  /** Calls may come at any time; what the host reports, only once every settled promise has
      run on. A process that has not been forked reports nothing, and its start knows whether
      it was to be probed. */
  ghost predicate Enabled(s: System, event: Event)
  {
    match event
    case Activated(r) => r !in s.acts
    case Deactivated(d, _) => d !in s.deacts
    case StopCalled(d) => d !in s.deacts
    case Requested(n, _, _) => n !in s.requests
    case ActRunsOn(r, _) => r in s.acts && ActRuns(s.acts[r])
    case DeactRunsOn(d) => d in s.deacts && Settled(s.deacts[d].wait)
    case PathResolved(r, _) => Quiescent(s) && r in s.acts && s.acts[r].Resolving?
    case RequestResolved(n, _) => Quiescent(s) && n in s.requests
    case MessageArrived(g, probing, _) =>
      Quiescent(s) && (s.h.active == Some(g) ==> s.h.child == Some(g)) && g in s.probes && s.probes[g] == probing
    case ChildErrored(g) => Quiescent(s) && (s.h.active == Some(g) ==> s.h.child == Some(g))
    case ChildExited(_) => Quiescent(s)
    case HandshakeTimedOut(r) => Quiescent(s) && r in s.acts && s.acts[r].Handshaking? && s.acts[r].outcome == Open
    case ActStopTimedOut(r) => Quiescent(s) && r in s.acts && ActWait(s.acts[r]).Some? && ActWait(s.acts[r]).value.WaitingFor?
    case DeactStopTimedOut(d) => Quiescent(s) && d in s.deacts && s.deacts[d].wait.WaitingFor?
    case ReadTimedOut => Quiescent(s)
  }

  ghost function Next(s: System, event: Event): System
    requires Enabled(s, event)
  {
    match event
    case Activated(r) => CallActivate(s, r)
    case Deactivated(d, r) => CallDeactivate(s, d, r)
    case StopCalled(d) => CallStop(s, d)
    case Requested(n, r, ask) => CallRequest(s, n, r, ask)
    case ActRunsOn(r, aborted) => ActContinues(s, r, aborted)
    case DeactRunsOn(d) => DeactContinues(s, d)
    case PathResolved(r, resolution) => PathResolves(s, r, resolution)
    case RequestResolved(n, ok) => RequestResolves(s, n, ok)
    case MessageArrived(g, probing, message) => Receives(s, g, probing, message)
    case ChildErrored(g) => s.(h := FailGeneration(s.h, g))
    case ChildExited(g) => Exits(s, g)
    case HandshakeTimedOut(r) => s.(acts := s.acts[r := Handshaking(s.acts[r].generation, s.acts[r].probing, Bad(false))])
    case ActStopTimedOut(r) => ActTimesOut(s, r)
    case DeactStopTimedOut(d) =>
      s.(h := StopTimesOut(s.h, s.deacts[d].wait.generation), deacts := s.deacts[d := s.deacts[d].(wait := Broken)])
    case ReadTimedOut => s.(h := s.h.(pending := None))
  }

  // --- The invariant ---

  /** Child, port, exit and lease belong to one generation, and readiness to a live child. */
  ghost predicate Tracked(h: Host)
  {
    (h.child.Some? ==> h.active == h.child && h.port == h.child)
    && h.exitWaiter == h.child
    && (h.active.Some? ==> h.active.value <= h.counter)
    && (h.state == Starting ==> h.active == Some(h.counter))
    && (h.state == Ready <==> h.ready.Some?)
    && (h.ready.Some? ==> h.child == h.ready)
    && h.lease == h.ready
  }

  /** What the service may use belongs to the ready service generation and the active
      registry generation. */
  ghost predicate Covered(h: Host)
  {
    (forall id :: id in h.grants ==> h.ready.Some? && h.registry.Some? && h.grants[id] == Grant(h.registry.value, h.ready.value))
    && (h.pending.Some? ==> h.ready.Some? && h.registry == Some(h.pending.value.registry) && h.ready == Some(h.pending.value.service))
    && (forall i, j :: i in h.grants && j in h.grants ==> i == j)
  }

  function GenerationOf(act: Act): Option<nat>
  {
    match act
    case Resolving(g, _) => Some(g)
    case Handshaking(g, _, _) => Some(g)
    case _ => None
  }

  /** No two activations wait for the same start. */
  ghost predicate Distinct(h: Host, acts: map<nat, Act>)
  {
    (forall r :: r in acts && GenerationOf(acts[r]).Some? ==> GenerationOf(acts[r]).value <= h.counter)
    && (forall r, q :: r in acts && q in acts && r != q && GenerationOf(acts[r]).Some? ==> GenerationOf(acts[r]) != GenerationOf(acts[q]))
  }

  ghost predicate ActFits(h: Host, act: Act)
  {
    (act.Handshaking? && (act.outcome == Open || act.outcome == Bad(true)) ==> h.child == Some(act.generation))
    && (ActWait(act).Some? && ActWait(act).value.WaitingFor? ==>
          h.child == Some(ActWait(act).value.generation) && (h.state == Stopping || h.state == Failed))
    && (h.state == Ready ==> ActWait(act).None? && !(act.Handshaking? && act.outcome == Open))
    && (act.Resolving? ==> h.child != Some(act.generation))
  }

  ghost predicate ActsFit(h: Host, acts: map<nat, Act>)
  {
    forall r :: r in acts ==> ActFits(h, acts[r])
  }

  ghost predicate DeactsFit(h: Host, deacts: map<nat, Deact>)
  {
    (h.state == Ready ==> deacts == map[])
    && forall d :: d in deacts && deacts[d].wait.WaitingFor? ==>
      h.child == Some(deacts[d].wait.generation) && (h.state == Stopping || h.state == Failed)
  }

  /** A start that may yet be repeated without the permission probe. */
  predicate MayRestart(act: Act)
  {
    act.FallbackStopping? && act.wait != Broken
  }

  /** What an activation whose stop has brought a restart about keeps others from. */
  predicate MayStop(act: Act)
  {
    (act.Handshaking? && act.outcome != Open) || act == StartOver(true)
  }

  ghost predicate Restarts(acts: map<nat, Act>)
  {
    forall r, q :: r in acts && q in acts && acts[r].FallbackStopping? ==>
      (acts[r].wait == Exited ==> !MayStop(acts[q]))
      && (acts[r].wait.WaitingFor? ==> !(acts[q].Handshaking? && acts[q].generation == acts[r].wait.generation))
  }

  /** The activation of the active registry generation. Resolving its path, it is the one
      start there is, or that start was stopped for good. Once the host is ready, it has
      succeeded or is about to. */
  ghost predicate ActiveFits(strict: bool, s: System)
  {
    strict && s.h.registry.Some? && s.h.registry.value in s.acts ==>
      var r := s.h.registry.value; var act := s.acts[r];
      (act.Resolving? ==>
        (s.h.state == Starting && s.h.active == Some(act.generation) && s.h.child.None?)
        || (s.h.child.None? && s.h.state != Starting && s.h.state != Ready && NoRestart(s.acts))
        || Unregistering(s.deacts, r))
      && (s.h.state == Ready ==> act == Over || act == StartOver(true) || (act.Handshaking? && act.outcome == Ok))
  }

  ghost predicate NoRestart(acts: map<nat, Act>)
  {
    forall r :: r in acts ==> !MayRestart(acts[r])
  }

  /** A settled deactivation is about to clear the registry generation. */
  ghost predicate Unregistering(deacts: map<nat, Deact>, r: nat)
  {
    exists d :: d in deacts && deacts[d].registry == Some(r) && Settled(deacts[d].wait)
  }

  /** A request's lease outlives no change of the registry generation. */
  ghost predicate RequestsFit(strict: bool, h: Host, requests: map<nat, Request>)
  {
    strict ==> forall n :: n in requests ==>
      requests[n].service <= h.counter
      && (h.state == Starting ==> requests[n].service < h.counter)
      && (h.ready == Some(requests[n].service) ==> h.registry == Some(requests[n].registry))
  }

  /** Whether what is granted and pending is covered depends on the last two parts. Those
      are kept only while no stop is hasty, which `strict` stands for. */
  ghost predicate Invariant(strict: bool, s: System)
  {
    Tracked(s.h) && Covered(s.h) && Distinct(s.h, s.acts) && ActsFit(s.h, s.acts) && DeactsFit(s.h, s.deacts)
    && Restarts(s.acts) && ActiveFits(strict, s) && RequestsFit(strict, s.h, s.requests)
  }

  // --- What the synchronous parts keep ---

  /** Nothing is granted or pending, and the host is not ready. */
  predicate Bare(h: Host)
  {
    h.grants == map[] && h.pending.None? && h.ready.None? && h.lease.None?
  }

  lemma Clears(h: Host)
    requires Tracked(h) && Covered(h)
    ensures var k := ClearReadiness(h, h.registry, h.active); k.grants == map[] && k.ready.None? && k.lease.None?
    ensures h.active.Some? ==> Bare(EndReads(ClearReadiness(h, h.registry, h.active), h.registry, h.active.value))
    ensures h.ready.None? ==> Bare(h)
  {
    var k := ClearReadiness(h, h.registry, h.active);
    assert forall id :: id in k.grants ==> id in h.grants && h.active.Some?;
  }

  lemma StopKeeps(h: Host)
    requires Tracked(h) && Covered(h)
    ensures var (k, wait) := Stop(h);
            Tracked(k) && Covered(k) && Bare(k) && k.registry == h.registry && k.counter == h.counter && k.child == h.child
            && (if h.child.None? then wait == Exited && k.state == Stopped && k.active.None?
                else wait == WaitingFor(h.child.value) && k.state == Stopping && k.active == h.active)
  {
    hide Covered;
    Clears(h);
    BareCovered(Stop(h).0);
  }

  lemma BareCovered(h: Host)
    ensures Bare(h) ==> Covered(h)
  {
  }

  lemma StartKeeps(h: Host)
    requires Tracked(h) && Covered(h)
    ensures var (k, started) := Start(h);
            Tracked(k) && Covered(k) && k.registry == h.registry && k.child == h.child && h.counter <= k.counter
            && (match started
                case AlreadyReady => k == h && h.state == Ready
                case Refused => h.state != Ready && k.state != Ready && k.active == h.active && k.counter == h.counter
                                && (k.state == h.state || (k.state == Failed && h.child.None? && h.state != Starting))
                case Resolves(g) => h.state != Ready && h.state != Starting && k.state == Starting && k.active == Some(g) && k.child.None?
                                    && g == k.counter == h.counter + 1)
  {
    hide Covered;
    Clears(h);
    if h.state != Ready {
      assert Bare(h);
      BareCovered(h);
      BareCovered(Start(h).0);
    }
  }

  lemma FailKeeps(h: Host, g: nat)
    requires Tracked(h) && Covered(h)
    ensures var k := FailGeneration(h, g);
            Tracked(k) && Covered(k) && k.registry == h.registry && k.counter == h.counter && k.child == h.child && k.active == h.active
            && (if h.active == Some(g) then k.state == Failed else k == h)
  {
    hide Covered;
    Clears(h);
    BareCovered(FailGeneration(h, g));
  }

  lemma ExitKeeps(h: Host, g: nat)
    requires Tracked(h) && Covered(h)
    ensures var k := ChildExits(h, g);
            Tracked(k) && Covered(k) && k.counter == h.counter && (k.registry == h.registry || k.registry.None?)
            && (if h.child != Some(g) then k == h.(stopping := h.stopping - {g})
                else k.child.None? && k.active.None? && Bare(k)
                     && (if g in h.stopping then k.state == Stopped && k.registry == h.registry
                         else k.state == Failed && k.registry.None?))
  {
    hide Covered;
    Clears(h);
    BareCovered(ChildExits(h, g));
    if h.child != Some(g) { CoveredSame(h, ChildExits(h, g)); }
  }

  lemma CoveredSame(h: Host, k: Host)
    requires Covered(h) && k.grants == h.grants && k.pending == h.pending && k.ready == h.ready && k.registry == h.registry
    ensures Covered(k)
  {
  }

  // --- What can go wrong ---

  /** The activation of the active registry generation resolves its path, and another start
      is due to be repeated without the probe. Stopping the host now lets that one have it. */
  ghost predicate HastyStop(s: System)
  {
    s.h.registry.Some? && s.h.registry.value in s.acts && s.acts[s.h.registry.value].Resolving?
    && !NoRestart(s.acts) && !Unregistering(s.deacts, s.h.registry.value)
  }

  /** A failed activation forgets the registry generation of a ready host that has granted
      something or is reading. */
  predicate ForgetsCovered(s: System, r: nat, aborted: bool)
  {
    r in s.acts && s.acts[r].StartOver? && s.h.registry == Some(r) && s.h.state == Ready
    && !(s.acts[r].ok && (aborted || s.h.ready.Some?)) && !(s.h.grants == map[] && s.h.pending.None?)
  }

  // --- What every event keeps ---

  /** The host has gone no nearer to being ready. */
  ghost predicate Retreats(h: Host, k: Host)
  {
    k.child == h.child && k.counter == h.counter && k.registry == h.registry && (k.ready == h.ready || k.ready.None?)
    && (k.state == h.state || k.state == Stopping || k.state == Failed || (k.state == Stopped && h.child.None?))
  }

  lemma RetreatFits(strict: bool, s: System, k: Host)
    requires Retreats(s.h, k) && Distinct(s.h, s.acts) && ActsFit(s.h, s.acts) && DeactsFit(s.h, s.deacts) && RequestsFit(strict, s.h, s.requests)
    ensures Distinct(k, s.acts) && ActsFit(k, s.acts) && DeactsFit(k, s.deacts) && RequestsFit(strict, k, s.requests)
  {
  }

  /** A start has begun: no child, and a number above all others. */
  ghost predicate Begins(h: Host, k: Host)
  {
    h.child.None? && k.child.None? && h.state != Ready && h.state != Starting && k.state == Starting
    && k.counter == h.counter + 1 && k.active == Some(k.counter) && k.registry == h.registry && k.ready.None?
  }

  lemma BeginFits(strict: bool, s: System, k: Host, r: nat, probing: bool)
    requires Begins(s.h, k) && Distinct(s.h, s.acts) && ActsFit(s.h, s.acts) && DeactsFit(s.h, s.deacts) && RequestsFit(strict, s.h, s.requests)
    ensures var acts := s.acts[r := Resolving(k.counter, probing)];
            Distinct(k, acts) && ActsFit(k, acts) && DeactsFit(k, s.deacts) && RequestsFit(strict, k, s.requests)
  {
  }

  /** An activation at rest fits any host. */
  lemma RestFits(h: Host, acts: map<nat, Act>, r: nat, act: Act)
    requires Distinct(h, acts) && ActsFit(h, acts)
    requires GenerationOf(act).None? && ActWait(act).None?
    ensures Distinct(h, acts[r := act]) && ActsFit(h, acts[r := act])
  {
  }

  lemma RestRestarts(acts: map<nat, Act>, r: nat, act: Act)
    requires Restarts(acts) && !act.FallbackStopping? && !act.Handshaking?
    requires MayStop(act) ==> forall q :: q in acts ==> !acts[q].FallbackStopping?
    ensures Restarts(acts[r := act])
  {
  }

  lemma ReadyNoFallback(h: Host, acts: map<nat, Act>)
    requires ActsFit(h, acts) && h.state == Ready
    ensures forall q :: q in acts ==> !acts[q].FallbackStopping?
  {
    forall q | q in acts ensures !acts[q].FallbackStopping? { assert ActFits(h, acts[q]); }
  }

  lemma StartForFits(strict: bool, s: System, r: nat, probing: bool)
    requires Invariant(strict, s)
    ensures var t := StartFor(s, r, probing);
            Tracked(t.h) && Covered(t.h) && Distinct(t.h, t.acts) && ActsFit(t.h, t.acts) && DeactsFit(t.h, t.deacts)
            && Restarts(t.acts) && RequestsFit(strict, t.h, t.requests)
  {
    hide Start, Covered, Tracked, Distinct, ActsFit, DeactsFit, Restarts, RequestsFit;
    StartKeeps(s.h);
    var (k, started) := Start(s.h);
    match started
    case AlreadyReady =>
      RestFits(k, s.acts, r, StartOver(true));
      ReadyNoFallback(k, s.acts);
      RestRestarts(s.acts, r, StartOver(true));
    case Refused =>
      RefusedRetreats(s.h);
      RetreatFits(strict, s, k);
      RestFits(k, s.acts, r, StartOver(false));
      RestRestarts(s.acts, r, StartOver(false));
    case Resolves(g) =>
      ResolvesBegins(s.h);
      BeginFits(strict, s, k, r, probing);
      RestRestarts(s.acts, r, Resolving(g, probing));
  }

  lemma RefusedRetreats(h: Host)
    requires Start(h).1 == Refused
    ensures Retreats(h, Start(h).0)
  {
  }

  lemma ResolvesBegins(h: Host)
    requires Start(h).1.Resolves?
    ensures Begins(h, Start(h).0)
  {
  }

  lemma StartForActive(strict: bool, s: System, r: nat, probing: bool)
    requires Invariant(strict, s) && ((r !in s.acts && s.h.registry == Some(r)) || (r in s.acts && s.acts[r] == FallbackStopping(Exited)))
    ensures ActiveFits(strict, StartFor(s, r, probing))
  {
    hide Start, Covered, Distinct, ActsFit, DeactsFit, Restarts, RequestsFit;
    StartKeeps(s.h);
  }

  lemma StartForKeeps(strict: bool, s: System, r: nat, probing: bool)
    requires Invariant(strict, s) && ((r !in s.acts && s.h.registry == Some(r)) || (r in s.acts && s.acts[r] == FallbackStopping(Exited)))
    ensures Invariant(strict, StartFor(s, r, probing))
  {
    hide Tracked, Covered, Distinct, ActsFit, DeactsFit, Restarts, ActiveFits, RequestsFit, StartFor;
    StartForFits(strict, s, r, probing);
    StartForActive(strict, s, r, probing);
  }

  /** A registry generation takes its place where there was none. */
  lemma RegisterKeeps(strict: bool, s: System, r: nat)
    requires Invariant(strict, s) && r !in s.acts && (s.h.registry.None? || s.h.registry == Some(r))
    ensures Invariant(strict, s.(h := s.h.(registry := Some(r))))
  {
  }

  lemma ActivatedKeeps(strict: bool, s: System, r: nat)
    requires Invariant(strict, s) && Enabled(s, Activated(r))
    ensures Invariant(strict, Next(s, Activated(r)))
  {
    hide Invariant, StartFor;
    if s.h.registry.None? || s.h.registry == Some(r) {
      RegisterKeeps(strict, s, r);
      StartForKeeps(strict, s.(h := s.h.(registry := Some(r))), r, !s.h.probeFailed);
    }
  }

  lemma StopRetreats(h: Host)
    requires Tracked(h)
    ensures Retreats(h, Stop(h).0)
  {
  }

  lemma DeactivatedActive(strict: bool, s: System, d: nat, r: nat)
    requires Invariant(strict, s) && d !in s.deacts && DeactivateAllowed(s.h, r)
    ensures ActiveFits(strict, CallDeactivate(s, d, r))
  {
    hide Stop, Covered, Distinct, ActsFit, Restarts, RequestsFit, NoRestart;
    StopKeeps(s.h);
    var t := CallDeactivate(s, d, r);
    assert d in t.deacts && t.deacts[d].registry == Some(r);
    if s.h.registry.Some? && Unregistering(s.deacts, r) {
      var e :| e in s.deacts && s.deacts[e].registry == Some(r) && Settled(s.deacts[e].wait);
      assert t.deacts[e] == s.deacts[e];
    }
  }

  lemma DeactivatedKeeps(strict: bool, s: System, d: nat, r: nat)
    requires Invariant(strict, s) && Enabled(s, Deactivated(d, r))
    ensures Invariant(strict, Next(s, Deactivated(d, r)))
  {
    hide Covered, Distinct, ActsFit, Restarts, RequestsFit, ActiveFits, Stop;
    if DeactivateAllowed(s.h, r) {
      StopKeeps(s.h);
      StopRetreats(s.h);
      RetreatFits(strict, s, Stop(s.h).0);
      DeactivatedActive(strict, s, d, r);
    }
  }

  lemma StopCalledActive(strict: bool, s: System, d: nat)
    requires Invariant(strict, s) && d !in s.deacts && (strict ==> !HastyStop(s))
    ensures ActiveFits(strict, CallStop(s, d))
  {
    hide Stop, Covered, Distinct, ActsFit, Restarts, RequestsFit, NoRestart;
    StopKeeps(s.h);
    var t := CallStop(s, d);
    if s.h.registry.Some? && Unregistering(s.deacts, s.h.registry.value) {
      var e :| e in s.deacts && s.deacts[e].registry == s.h.registry && Settled(s.deacts[e].wait);
      assert t.deacts[e] == s.deacts[e];
    }
  }

  lemma StopCalledKeeps(strict: bool, s: System, d: nat)
    requires Invariant(strict, s) && Enabled(s, StopCalled(d)) && (strict ==> !HastyStop(s))
    ensures Invariant(strict, Next(s, StopCalled(d)))
  {
    hide Covered, Distinct, ActsFit, Restarts, RequestsFit, ActiveFits, Stop;
    StopKeeps(s.h);
    StopRetreats(s.h);
    RetreatFits(strict, s, Stop(s.h).0);
    StopCalledActive(strict, s, d);
  }

  /** A hasty stop is exactly what the whole invariant does not survive. */
  lemma StopExactly(s: System, d: nat)
    requires Invariant(true, s) && d !in s.deacts
    ensures Invariant(true, CallStop(s, d)) <==> !HastyStop(s)
  {
    hide Tracked, Covered, Distinct, ActsFit, DeactsFit, Restarts, RequestsFit, NoRestart, Stop;
    if HastyStop(s) { HastyBreaks(s, d); } else { StopCalledKeeps(true, s, d); }
  }

  lemma HastyBreaks(s: System, d: nat)
    requires Tracked(s.h) && Covered(s.h) && HastyStop(s) && d !in s.deacts
    ensures !ActiveFits(true, CallStop(s, d))
  {
    hide Tracked, Covered, Stop, NoRestart;
    StopKeeps(s.h);
    var t := CallStop(s, d);
    var r := s.h.registry.value;
    assert forall e :: e in t.deacts && t.deacts[e].registry == Some(r) ==> e in s.deacts;
  }

  lemma RequestedKeeps(strict: bool, s: System, n: nat, r: nat, ask: Ask)
    requires Invariant(strict, s) && Enabled(s, Requested(n, r, ask))
    ensures Invariant(strict, Next(s, Requested(n, r, ask)))
  {
    hide Covered, Distinct, ActsFit, DeactsFit, Restarts;
  }

  // --- An activation runs on ---

  lemma SucceedRestarts(acts: map<nat, Act>, r: nat)
    requires Restarts(acts) && r in acts && MayStop(acts[r])
    ensures Restarts(acts[r := StartOver(true)])
  {
  }

  /** An activation leaves its stop, or is over, while the host is not ready or not its own. */
  lemma RestActive(strict: bool, s: System, r: nat, act: Act)
    requires ActiveFits(strict, s) && r in s.acts && GenerationOf(act).None? && !MayRestart(act)
    requires strict && s.h.state == Ready && s.h.registry == Some(r) ==> act == Over || act == StartOver(true)
    ensures ActiveFits(strict, s.(acts := s.acts[r := act]))
  {
  }

  /** Nothing is granted or pending. */
  predicate Uncovered(h: Host)
  {
    h.grants == map[] && h.pending.None?
  }

  lemma ForgetKeeps(strict: bool, s: System, r: nat)
    requires Invariant(strict, s) && (s.h.registry == Some(r) ==> s.h.state != Ready || (!strict && Uncovered(s.h)))
    ensures Invariant(strict, s.(h := ForgetRegistry(s.h, r)))
  {
    hide Distinct, ActsFit, DeactsFit, Restarts;
    if s.h.registry == Some(r) {
      var k := ForgetRegistry(s.h, r);
      Clears(s.h);
      ForgetFits(s, k);
    }
  }

  lemma ForgetFits(s: System, k: Host)
    requires k == s.h.(registry := None)
    requires Distinct(s.h, s.acts) && ActsFit(s.h, s.acts) && DeactsFit(s.h, s.deacts)
    ensures Distinct(k, s.acts) && ActsFit(k, s.acts) && DeactsFit(k, s.deacts)
  {
  }

  /** The activation comes to rest in place of a stop or a start. */
  lemma RestKeeps(strict: bool, s: System, r: nat, act: Act)
    requires Invariant(strict, s) && r in s.acts && (act == Over || act == StartOver(false))
    requires strict && s.h.state == Ready && s.h.registry == Some(r) ==> act == Over
    ensures Invariant(strict, s.(acts := s.acts[r := act]))
  {
    hide Tracked, Covered, Distinct, ActsFit, DeactsFit, Restarts, ActiveFits, RequestsFit;
    RestFits(s.h, s.acts, r, act);
    RestRestarts(s.acts, r, act);
    RestActive(strict, s, r, act);
  }

  lemma NotReadyWhileStopping(s: System, r: nat)
    requires ActsFit(s.h, s.acts) && r in s.acts && ActWait(s.acts[r]).Some?
    ensures s.h.state != Ready
  {
    assert ActFits(s.h, s.acts[r]);
  }

  lemma HandshakeOk(strict: bool, s: System, r: nat)
    requires Invariant(strict, s) && r in s.acts && s.acts[r].Handshaking? && s.acts[r].outcome == Ok
    ensures Invariant(strict, s.(acts := s.acts[r := StartOver(true)]))
  {
    hide Tracked, Covered, Distinct, ActsFit, DeactsFit, Restarts, ActiveFits, RequestsFit;
    RestFits(s.h, s.acts, r, StartOver(true));
    SucceedRestarts(s.acts, r);
    RestActive(strict, s, r, StartOver(true));
  }

  /** The activation waits for a stop that has just been called. */
  lemma StoppingFits(strict: bool, s: System, k: Host, r: nat, act: Act)
    requires Retreats(s.h, k) && Distinct(s.h, s.acts) && ActsFit(s.h, s.acts) && DeactsFit(s.h, s.deacts) && RequestsFit(strict, s.h, s.requests)
    requires ActWait(act).Some? && k.state != Ready
    requires ActWait(act).value.WaitingFor? ==> k.child == Some(ActWait(act).value.generation) && k.state == Stopping
    ensures Distinct(k, s.acts[r := act]) && ActsFit(k, s.acts[r := act]) && DeactsFit(k, s.deacts) && RequestsFit(strict, k, s.requests)
  {
    hide Retreats, Distinct, ActsFit, DeactsFit, RequestsFit;
    RetreatFits(strict, s, k);
    WaitFits(k, s.acts, r, act);
  }

  lemma WaitFits(k: Host, acts: map<nat, Act>, r: nat, act: Act)
    requires Distinct(k, acts) && ActsFit(k, acts) && ActFits(k, act) && GenerationOf(act).None?
    ensures Distinct(k, acts[r := act]) && ActsFit(k, acts[r := act])
  {
  }

  lemma FallbackRestarts(h: Host, acts: map<nat, Act>, r: nat)
    requires Distinct(h, acts) && Restarts(acts) && r in acts && acts[r].Handshaking?
    ensures Restarts(acts[r := FallbackStopping(WaitingFor(acts[r].generation))])
  {
    var g := acts[r].generation;
    forall q | q in acts && q != r ensures !(acts[q].Handshaking? && acts[q].generation == g) {
      assert GenerationOf(acts[q]) != GenerationOf(acts[r]) || GenerationOf(acts[q]).None?;
    }
  }

  /** While a child runs, whoever resolves a path under the active number is on the way out. */
  lemma ChildActive(strict: bool, s: System, k: Host, r: nat, act: Act)
    requires ActiveFits(strict, s) && s.h.child.Some? && k.registry == s.h.registry && k.state != Ready && GenerationOf(act).None?
    ensures ActiveFits(strict, s.(h := k, acts := s.acts[r := act]))
  {
  }

  /** The process of the failed probe is stopped, to be started again without it. */
  lemma FallbackBegins(strict: bool, s: System, r: nat)
    requires Invariant(strict, s) && r in s.acts && s.acts[r].Handshaking? && s.acts[r].outcome == Bad(true)
    ensures var (k, wait) := Stop(s.h.(probeFailed := true)); Invariant(strict, s.(h := k, acts := s.acts[r := FallbackStopping(wait)]))
  {
    hide Stop, Covered, Distinct, Restarts, DeactsFit, ActiveFits, RequestsFit;
    var h := s.h.(probeFailed := true);
    CoveredSame(s.h, h);
    StopKeeps(h);
    StopRetreats(h);
    assert ActFits(s.h, s.acts[r]);
    var (k, wait) := Stop(h);
    StoppingFits(strict, s, k, r, FallbackStopping(wait));
    FallbackRestarts(s.h, s.acts, r);
    ChildActive(strict, s, k, r, FallbackStopping(wait));
  }

  lemma StoppingRestarts(acts: map<nat, Act>, r: nat, act: Act)
    requires Restarts(acts) && !act.FallbackStopping? && ActWait(act).Some?
    ensures Restarts(acts[r := act])
  {
  }

  /** No start is repeated while an activation is about to stop the host. */
  lemma StopperNoRestart(h: Host, acts: map<nat, Act>, r: nat)
    requires ActsFit(h, acts) && Restarts(acts) && r in acts && MayStop(acts[r]) && h.child.None?
    ensures NoRestart(acts)
  {
    forall q | q in acts ensures !MayRestart(acts[q]) { assert ActFits(h, acts[q]); }
  }

  /** An activation that stops the host leaves no start of the active number that could come to anything. */
  lemma StopperActive(strict: bool, s: System, k: Host, r: nat, act: Act)
    requires ActiveFits(strict, s) && ActsFit(s.h, s.acts) && Restarts(s.acts) && r in s.acts && MayStop(s.acts[r])
    requires k.registry == s.h.registry && k.child == s.h.child && k.state != Ready && k.state != Starting
    requires GenerationOf(act).None? && !MayRestart(act)
    ensures ActiveFits(strict, s.(h := k, acts := s.acts[r := act]))
  {
    hide Restarts, ActsFit;
    if s.h.child.None? { StopperNoRestart(s.h, s.acts, r); }
  }

  lemma TwoRetreats(h: Host, j: Host, k: Host)
    requires Retreats(h, j) && Retreats(j, k)
    ensures Retreats(h, k)
  {
  }

  lemma FailRetreats(h: Host, g: nat)
    ensures Retreats(h, FailGeneration(h, g))
  {
  }

  lemma HandshakeFails(strict: bool, s: System, r: nat)
    requires Invariant(strict, s) && r in s.acts && s.acts[r].Handshaking? && s.acts[r].outcome != Open
    ensures var (k, wait) := Stop(FailGeneration(s.h, s.acts[r].generation));
            Invariant(strict, s.(h := k, acts := s.acts[r := FailStopping(wait)]))
  {
    hide Stop, FailGeneration, Covered, Tracked, Distinct, ActsFit, DeactsFit, Restarts, ActiveFits, RequestsFit, Retreats;
    var g := s.acts[r].generation;
    var j := FailGeneration(s.h, g);
    FailKeeps(s.h, g);
    FailRetreats(s.h, g);
    StopKeeps(j);
    StopRetreats(j);
    var (k, wait) := Stop(j);
    TwoRetreats(s.h, j, k);
    StoppingFits(strict, s, k, r, FailStopping(wait));
    StoppingRestarts(s.acts, r, FailStopping(wait));
    StopperActive(strict, s, k, r, FailStopping(wait));
  }

  lemma AbortStops(strict: bool, s: System, r: nat)
    requires Invariant(strict, s) && r in s.acts && s.acts[r] == StartOver(true)
    ensures var (k, wait) := Stop(s.h); Invariant(strict, s.(h := k, acts := s.acts[r := AbortStopping(wait)]))
  {
    hide Stop, Covered, Tracked, Distinct, ActsFit, DeactsFit, Restarts, ActiveFits, RequestsFit, Retreats;
    StopKeeps(s.h);
    StopRetreats(s.h);
    var (k, wait) := Stop(s.h);
    StoppingFits(strict, s, k, r, AbortStopping(wait));
    StoppingRestarts(s.acts, r, AbortStopping(wait));
    StopperActive(strict, s, k, r, AbortStopping(wait));
  }

  lemma StartOverKeeps(strict: bool, s: System, r: nat, aborted: bool)
    requires Invariant(strict, s) && r in s.acts && s.acts[r].StartOver? && (strict || !ForgetsCovered(s, r, aborted))
    ensures Invariant(strict, ActContinues(s, r, aborted))
  {
    hide Tracked, Covered, Distinct, ActsFit, DeactsFit, Restarts, RequestsFit, Stop;
    var ok := s.acts[r].ok;
    if ok && aborted {
      if DeactivateAllowed(s.h, r) { AbortStops(strict, s, r); } else { RestKeeps(strict, s, r, StartOver(false)); }
    } else if ok && s.h.ready.Some? {
      RestKeeps(strict, s, r, Over);
    } else {
      ReadyMeans(strict, s);
      if strict && !ok && s.h.registry == Some(r) { NotReadyIfFailed(s, r); }
      ForgetKeeps(strict, s, r);
      RestKeeps(strict, s.(h := ForgetRegistry(s.h, r)), r, Over);
    }
  }

  lemma NotReadyIfFailed(s: System, r: nat)
    requires Invariant(true, s) && r in s.acts && s.acts[r] == StartOver(false) && s.h.registry == Some(r)
    ensures s.h.state != Ready
  {
    hide Covered, Distinct, ActsFit, DeactsFit, Restarts, RequestsFit;
  }

  lemma ReadyMeans(strict: bool, s: System)
    requires Invariant(strict, s)
    ensures s.h.state == Ready <==> s.h.ready.Some?
  {
  }

  lemma ActRunsOnKeeps(strict: bool, s: System, r: nat, aborted: bool)
    requires Invariant(strict, s) && Enabled(s, ActRunsOn(r, aborted)) && (strict || !ForgetsCovered(s, r, aborted))
    ensures Invariant(strict, Next(s, ActRunsOn(r, aborted)))
  {
    hide Invariant, StartFor, Stop, FailGeneration, ForgetRegistry;
    match s.acts[r]
    case Handshaking(g, probing, outcome) =>
      if outcome == Ok { HandshakeOk(strict, s, r); }
      else if probing && outcome.fallback { FallbackBegins(strict, s, r); }
      else { HandshakeFails(strict, s, r); }
    case FallbackStopping(wait) => if wait == Exited { StartForKeeps(strict, s, r, false); } else { StopLeft(strict, s, r); }
    case FailStopping(_) => StopLeft(strict, s, r);
    case AbortStopping(_) => AbortOver(strict, s, r);
    case StartOver(_) => StartOverKeeps(strict, s, r, aborted);
    case _ =>
  }

  lemma StopLeft(strict: bool, s: System, r: nat)
    requires Invariant(strict, s) && r in s.acts && ActWait(s.acts[r]).Some?
    ensures Invariant(strict, s.(acts := s.acts[r := StartOver(false)]))
  {
    hide Tracked, Covered, Distinct, ActsFit, DeactsFit, Restarts, RequestsFit, ActiveFits;
    NotReadyWhileStopping(s, r);
    RestKeeps(strict, s, r, StartOver(false));
  }

  lemma AbortOver(strict: bool, s: System, r: nat)
    requires Invariant(strict, s) && r in s.acts && ActWait(s.acts[r]).Some?
    ensures Invariant(strict, s.(h := ForgetRegistry(s.h, r), acts := s.acts[r := Over]))
  {
    hide Tracked, Covered, Distinct, ActsFit, DeactsFit, Restarts, RequestsFit, ActiveFits;
    NotReadyWhileStopping(s, r);
    ForgetKeeps(strict, s, r);
    RestKeeps(strict, s.(h := ForgetRegistry(s.h, r)), r, Over);
  }

  lemma DeactRunsOnKeeps(strict: bool, s: System, d: nat)
    requires Invariant(strict, s) && Enabled(s, DeactRunsOn(d))
    ensures Invariant(strict, Next(s, DeactRunsOn(d)))
  {
    hide Tracked, Covered, Distinct, ActsFit, Restarts, RequestsFit, NoRestart;
    var registry := s.deacts[d].registry;
    if registry.Some? { ForgetKeeps(strict, s, registry.value); }
    var t := s.(h := if registry.Some? then ForgetRegistry(s.h, registry.value) else s.h);
    if t.h.registry.Some? && Unregistering(s.deacts, t.h.registry.value) {
      var e :| e in s.deacts && s.deacts[e].registry == t.h.registry && Settled(s.deacts[e].wait);
      assert e != d && e in s.deacts - {d};
    }
  }

  // --- The host reports ---

  lemma NoneSettled(s: System)
    requires Quiescent(s)
    ensures forall r :: r in s.acts ==> !MayStop(s.acts[r]) && s.acts[r] != FallbackStopping(Exited)
    ensures forall r :: !Unregistering(s.deacts, r)
  {
    forall r | r in s.acts ensures !MayStop(s.acts[r]) && s.acts[r] != FallbackStopping(Exited) { assert !ActRuns(s.acts[r]); }
  }

  lemma ForkFits(strict: bool, s: System, r: nat)
    requires Invariant(strict, s) && r in s.acts && s.acts[r].Resolving? && s.h.state == Starting && s.h.active == Some(s.acts[r].generation)
    ensures var g := s.acts[r].generation; var act := Handshaking(g, s.acts[r].probing, Open);
            var k := Fork(s.h, g);
            s.h.child.None? && Distinct(k, s.acts[r := act]) && ActsFit(k, s.acts[r := act]) && DeactsFit(k, s.deacts)
  {
    hide Covered, Restarts, ActiveFits, RequestsFit;
    assert ActFits(s.h, s.acts[r]);
    var g := s.acts[r].generation;
    forall q | q in s.acts && q != r ensures ActFits(Fork(s.h, g), s.acts[q]) {
      assert ActFits(s.h, s.acts[q]);
      assert GenerationOf(s.acts[q]) != Some(g);
    }
  }

  lemma ForkRestarts(s: System, r: nat)
    requires ActsFit(s.h, s.acts) && Restarts(s.acts) && r in s.acts && s.acts[r].Resolving? && s.h.child.None?
    ensures Restarts(s.acts[r := Handshaking(s.acts[r].generation, s.acts[r].probing, Open)])
  {
    forall q | q in s.acts && s.acts[q].FallbackStopping? ensures !s.acts[q].wait.WaitingFor? { assert ActFits(s.h, s.acts[q]); }
  }

  lemma ForkActive(strict: bool, s: System, r: nat)
    requires Invariant(strict, s) && r in s.acts && s.acts[r].Resolving? && s.h.state == Starting && s.h.active == Some(s.acts[r].generation)
    ensures var g := s.acts[r].generation;
            ActiveFits(strict, s.(h := Fork(s.h, g), acts := s.acts[r := Handshaking(g, s.acts[r].probing, Open)]))
  {
    hide Covered, Restarts, RequestsFit, Tracked, ActsFit, DeactsFit, NoRestart;
  }

  lemma PathResolvedKeeps(strict: bool, s: System, r: nat, resolution: Resolution)
    requires Invariant(strict, s) && Enabled(s, PathResolved(r, resolution))
    ensures Invariant(strict, Next(s, PathResolved(r, resolution)))
  {
    hide Quiescent;
    var g := s.acts[r].generation;
    if resolution == Rejects || s.h.state != Starting || s.h.active != Some(g) {
      PathRefused(strict, s, r);
    } else if resolution == ForkThrows {
      ForkThrown(strict, s, r);
    } else {
      ForkKeeps(strict, s, r);
    }
  }

  lemma PathRefused(strict: bool, s: System, r: nat)
    requires Invariant(strict, s) && r in s.acts && s.acts[r].Resolving?
    ensures Invariant(strict, s.(acts := s.acts[r := StartOver(false)]))
  {
    hide Tracked, Covered, Distinct, ActsFit, DeactsFit, Restarts, RequestsFit;
    RestKeeps(strict, s, r, StartOver(false));
  }

  lemma ForkThrown(strict: bool, s: System, r: nat)
    requires Invariant(strict, s) && r in s.acts && s.acts[r].Resolving? && s.h.state == Starting && s.h.active == Some(s.acts[r].generation)
    ensures Invariant(strict, s.(h := s.h.(port := s.h.active), acts := s.acts[r := StartOver(false)]))
  {
    hide Covered, Distinct, DeactsFit, Restarts, RequestsFit, ActiveFits;
    ForkFits(strict, s, r);
    PathRefused(strict, s, r);
    PortOnly(strict, s.(acts := s.acts[r := StartOver(false)]), s.h.active);
  }

  lemma PortOnly(strict: bool, s: System, port: Option<nat>)
    requires Invariant(strict, s) && s.h.child.None?
    ensures Invariant(strict, s.(h := s.h.(port := port)))
  {
  }

  lemma ForkKeeps(strict: bool, s: System, r: nat)
    requires Invariant(strict, s) && r in s.acts && s.acts[r].Resolving? && s.h.state == Starting && s.h.active == Some(s.acts[r].generation)
    ensures var g := s.acts[r].generation;
            Invariant(strict, s.(h := Fork(s.h, g), acts := s.acts[r := Handshaking(g, s.acts[r].probing, Open)]))
  {
    hide Distinct, ActsFit, DeactsFit, Restarts, ActiveFits;
    ForkFits(strict, s, r);
    ForkRestarts(s, r);
    ForkActive(strict, s, r);
  }

  /** Ending open handshakes of generation g. */
  lemma ShakenFits(h: Host, k: Host, acts: map<nat, Act>, g: nat, outcome: Handshake)
    requires Distinct(h, acts) && ActsFit(k, acts) && k.counter == h.counter
    requires outcome == Bad(true) ==> k.child == Some(g)
    requires outcome != Open
    ensures Distinct(k, Shaken(acts, g, outcome)) && ActsFit(k, Shaken(acts, g, outcome))
  {
    forall r | r in acts ensures ActFits(k, Shaken(acts, g, outcome)[r]) { assert ActFits(k, acts[r]); }
    forall r | r in acts ensures GenerationOf(Shaken(acts, g, outcome)[r]) == GenerationOf(acts[r]) {}
  }

  lemma ShakenRestarts(s: System, g: nat, outcome: Handshake)
    requires Quiescent(s) && Restarts(s.acts)
    ensures Restarts(Shaken(s.acts, g, outcome))
  {
    hide Quiescent, ActRuns;
    NoneSettled(s);
  }

  /** The host fails, or does nothing new, outside the active start. */
  lemma FailActive(strict: bool, s: System, k: Host, g: nat, outcome: Handshake)
    requires ActiveFits(strict, s) && k.child == s.h.child && k.registry == s.h.registry && k.active == s.h.active
    requires if s.h.active == Some(g) then k.state == Failed && s.h.child == Some(g) else k.state == s.h.state
    ensures ActiveFits(strict, s.(h := k)) && (outcome != Open ==> ActiveFits(strict, s.(h := k, acts := Shaken(s.acts, g, outcome))))
  {
    if NoRestart(s.acts) { ShakenNoRestart(s.acts, g, outcome); }
  }

  lemma ShakenNoRestart(acts: map<nat, Act>, g: nat, outcome: Handshake)
    requires NoRestart(acts)
    ensures NoRestart(Shaken(acts, g, outcome))
  {
  }

  lemma MalformedKeeps(strict: bool, s: System, g: nat)
    requires Invariant(strict, s) && Quiescent(s) && (s.h.active == Some(g) ==> s.h.child == Some(g))
    ensures var k := FailGeneration(s.h, g);
            Invariant(strict, s.(h := k)) && Invariant(strict, s.(h := k, acts := Shaken(s.acts, g, Bad(false))))
  {
    hide Tracked, Covered, Distinct, ActsFit, DeactsFit, Restarts, RequestsFit, ActiveFits, FailGeneration, Retreats, Shaken, Quiescent;
    var k := FailGeneration(s.h, g);
    FailKeeps(s.h, g);
    FailRetreats(s.h, g);
    RetreatFits(strict, s, k);
    ShakenFits(k, k, s.acts, g, Bad(false));
    ShakenRestarts(s, g, Bad(false));
    FailActive(strict, s, k, g, Bad(false));
  }

  lemma ProbeFailsKeeps(strict: bool, s: System, g: nat, compatible: bool)
    requires Invariant(strict, s) && Quiescent(s) && s.h.child == Some(g) && s.h.state == Starting
    ensures Invariant(strict, s.(acts := Shaken(s.acts, g, Bad(compatible))))
  {
    hide Covered, Distinct, ActsFit, DeactsFit, Restarts, RequestsFit, Shaken, NoRestart, Quiescent;
    ShakenFits(s.h, s.h, s.acts, g, Bad(compatible));
    ShakenRestarts(s, g, Bad(compatible));
    ShakenActive(strict, s, g, Bad(compatible));
  }

  lemma ShakenActive(strict: bool, s: System, g: nat, outcome: Handshake)
    requires ActiveFits(strict, s) && s.h.state == Starting && s.h.child.Some?
    ensures ActiveFits(strict, s.(acts := Shaken(s.acts, g, outcome)))
  {
  }

  /** Nobody waits or is about to run on: the host may become ready. */
  lemma ReadyFits(strict: bool, s: System, g: nat)
    requires Invariant(strict, s) && Quiescent(s) && s.h.child == Some(g) && s.h.state == Starting
    ensures var k, acts := BecomeReady(s.h, g), Shaken(s.acts, g, Ok);
            Distinct(k, acts) && ActsFit(k, acts) && DeactsFit(k, s.deacts)
  {
    hide Covered, Restarts, RequestsFit, ActiveFits;
    var k, acts := BecomeReady(s.h, g), Shaken(s.acts, g, Ok);
    forall r | r in acts ensures ActFits(k, acts[r]) && GenerationOf(acts[r]) == GenerationOf(s.acts[r]) {
      assert ActFits(s.h, s.acts[r]) && !ActRuns(s.acts[r]);
    }
    NoDeacts(s);
  }

  lemma NoDeacts(s: System)
    requires Quiescent(s) && DeactsFit(s.h, s.deacts) && s.h.state == Starting
    ensures s.deacts == map[]
  {
    assert forall d :: d in s.deacts ==> !Settled(s.deacts[d].wait);
  }

  lemma ReadyActive(strict: bool, s: System, g: nat)
    requires Invariant(strict, s) && Quiescent(s) && s.h.child == Some(g) && s.h.state == Starting
    ensures ActiveFits(strict, s.(h := BecomeReady(s.h, g), acts := Shaken(s.acts, g, Ok)))
  {
    hide Covered, Restarts, RequestsFit, Distinct;
    NoneSettled(s);
    if s.h.registry.Some? && s.h.registry.value in s.acts {
      var r := s.h.registry.value;
      assert ActFits(s.h, s.acts[r]) && !ActRuns(s.acts[r]);
    }
  }

  lemma ReadyKeeps(strict: bool, s: System, g: nat)
    requires Invariant(strict, s) && Quiescent(s) && s.h.child == Some(g) && s.h.state == Starting
    ensures Invariant(strict, s.(h := BecomeReady(s.h, g), acts := Shaken(s.acts, g, Ok)))
  {
    hide Distinct, ActsFit, DeactsFit, Restarts, ActiveFits, Shaken, Quiescent;
    ReadyFits(strict, s, g);
    ReadyActive(strict, s, g);
    ShakenRestarts(s, g, Ok);
  }

  lemma AnswerKeeps(strict: bool, s: System, k: Host)
    requires Invariant(strict, s) && k == s.h.(pending := None)
    ensures Invariant(strict, s.(h := k))
  {
  }

  lemma MessageArrivedKeeps(strict: bool, s: System, g: nat, probing: bool, message: Message)
    requires Invariant(strict, s) && Enabled(s, MessageArrived(g, probing, message))
    ensures Invariant(strict, Next(s, MessageArrived(g, probing, message)))
  {
    hide Invariant, Quiescent, FailGeneration, Shaken, BecomeReady;
    match message
    case Malformed => MalformedKeeps(strict, s, g);
    case SaysReady(denied, compatible) =>
      if s.h.active == Some(g) && s.h.state == Starting && s.h.child == Some(g) && s.h.port == Some(g) {
        if probing && !denied { ProbeFailsKeeps(strict, s, g, compatible); } else { ReadyKeeps(strict, s, g); }
      }
    case Answer(matches) => AnswerKeeps(strict, s, s.h.(pending := None));
  }

  lemma HandshakeTimedOutKeeps(strict: bool, s: System, r: nat)
    requires Invariant(strict, s) && Enabled(s, HandshakeTimedOut(r))
    ensures Invariant(strict, Next(s, HandshakeTimedOut(r)))
  {
    hide Tracked, Covered, Distinct, ActsFit, DeactsFit, Restarts, RequestsFit, ActiveFits, Quiescent;
    var act := Handshaking(s.acts[r].generation, s.acts[r].probing, Bad(false));
    TimedOutFits(s.h, s.acts, r);
    TimedOutRestarts(s, r);
    TimedOutActive(strict, s, r);
  }

  lemma TimedOutFits(h: Host, acts: map<nat, Act>, r: nat)
    requires Distinct(h, acts) && ActsFit(h, acts) && r in acts && acts[r].Handshaking?
    ensures var act := Handshaking(acts[r].generation, acts[r].probing, Bad(false));
            Distinct(h, acts[r := act]) && ActsFit(h, acts[r := act])
  {
    assert ActFits(h, acts[r]);
  }

  lemma TimedOutRestarts(s: System, r: nat)
    requires Quiescent(s) && Restarts(s.acts) && r in s.acts && s.acts[r].Handshaking?
    ensures Restarts(s.acts[r := Handshaking(s.acts[r].generation, s.acts[r].probing, Bad(false))])
  {
    hide Quiescent, ActRuns;
    NoneSettled(s);
  }

  lemma TimedOutActive(strict: bool, s: System, r: nat)
    requires ActiveFits(strict, s) && ActsFit(s.h, s.acts) && r in s.acts && s.acts[r].Handshaking? && s.acts[r].outcome == Open
    ensures ActiveFits(strict, s.(acts := s.acts[r := Handshaking(s.acts[r].generation, s.acts[r].probing, Bad(false))]))
  {
    assert ActFits(s.h, s.acts[r]);
  }

  // --- Exits and timeouts ---

  lemma ForeignExit(s: System, g: nat)
    requires ActsFit(s.h, s.acts) && DeactsFit(s.h, s.deacts) && s.h.child != Some(g)
    ensures ActsAfterExit(s.acts, g) == s.acts
    ensures DeactsAfterExit(s.deacts, g) == s.deacts
  {
    forall r | r in s.acts ensures ActAfterExit(s.acts[r], g) == s.acts[r] { assert ActFits(s.h, s.acts[r]); }
  }

  lemma ExitFits(strict: bool, s: System, k: Host, g: nat)
    requires Invariant(strict, s) && Quiescent(s) && s.h.child == Some(g)
    requires k.child.None? && k.counter == s.h.counter && (k.state == Stopped || k.state == Failed)
    ensures var acts := ActsAfterExit(s.acts, g);
            Distinct(k, acts) && ActsFit(k, acts)
    ensures DeactsFit(k, DeactsAfterExit(s.deacts, g))
  {
    hide Tracked, Covered, Restarts, ActiveFits, RequestsFit;
    var acts := ActsAfterExit(s.acts, g);
    forall r | r in s.acts ensures ActFits(k, acts[r]) && GenerationOf(acts[r]) == GenerationOf(s.acts[r]) {
      assert ActFits(s.h, s.acts[r]) && !ActRuns(s.acts[r]);
    }
  }

  lemma ExitRestarts(s: System, g: nat)
    requires ActsFit(s.h, s.acts) && Restarts(s.acts) && Quiescent(s) && s.h.child == Some(g)
    ensures Restarts(ActsAfterExit(s.acts, g))
  {
    hide Quiescent;
    NoneSettled(s);
    var acts := ActsAfterExit(s.acts, g);
    forall r, q | r in acts && q in acts && acts[r].FallbackStopping?
      ensures (acts[r].wait == Exited ==> !MayStop(acts[q]))
              && (acts[r].wait.WaitingFor? ==> !(acts[q].Handshaking? && acts[q].generation == acts[r].wait.generation))
    {
      assert ActFits(s.h, s.acts[r]) && ActFits(s.h, s.acts[q]) && s.acts[r].FallbackStopping?;
    }
  }

  lemma ExitActive(strict: bool, s: System, k: Host, g: nat)
    requires Invariant(strict, s) && Quiescent(s) && s.h.child == Some(g) && k.state != Ready
    requires k.registry == s.h.registry || k.registry.None?
    ensures ActiveFits(strict, s.(h := k, acts := ActsAfterExit(s.acts, g),
                          deacts := DeactsAfterExit(s.deacts, g)))
  {
    hide Tracked, Covered, Restarts, RequestsFit, Quiescent, Distinct, ActsFit, DeactsFit;
    NoneSettled(s);
  }

  lemma ChildExitedKeeps(strict: bool, s: System, g: nat)
    requires Invariant(strict, s) && Enabled(s, ChildExited(g))
    ensures Invariant(strict, Next(s, ChildExited(g)))
  {
    hide Tracked, Covered, Distinct, ActsFit, DeactsFit, Restarts, ActiveFits, ChildExits, Quiescent, ActsAfterExit, DeactsAfterExit;
    ExitKeeps(s.h, g);
    var k := ChildExits(s.h, g);
    if s.h.child == Some(g) {
      ExitFits(strict, s, k, g);
      ExitRestarts(s, g);
      ExitActive(strict, s, k, g);
      TrackedReady(k);
    } else {
      ForeignExit(s, g);
      StoppingOnly(strict, s, k);
    }
  }

  lemma TrackedReady(h: Host)
    requires Tracked(h)
    ensures h.state == Ready <==> h.ready.Some?
  {
  }

  lemma StoppingOnly(strict: bool, s: System, k: Host)
    requires Invariant(strict, s) && k == s.h.(stopping := k.stopping)
    ensures Invariant(strict, s.(h := k))
  {
  }

  /** A stop gives up waiting: the host has failed, and its child may still run. */
  lemma TimeoutHost(strict: bool, s: System, g: nat)
    requires Invariant(strict, s) && s.h.child == Some(g) && (s.h.state == Stopping || s.h.state == Failed)
    ensures var k := StopTimesOut(s.h, g);
            Tracked(k) && Covered(k) && Distinct(k, s.acts) && ActsFit(k, s.acts) && DeactsFit(k, s.deacts) && RequestsFit(strict, k, s.requests)
            && ActiveFits(strict, s.(h := k)) && k.state == Failed && k.child == s.h.child
  {
    hide Covered, Distinct, ActsFit, DeactsFit, Restarts, RequestsFit;
    var k := StopTimesOut(s.h, g);
    CoveredSame(s.h, k);
    RetreatFits(strict, s, k);
  }

  lemma ActStopTimedOutKeeps(strict: bool, s: System, r: nat)
    requires Invariant(strict, s) && Enabled(s, ActStopTimedOut(r))
    ensures Invariant(strict, Next(s, ActStopTimedOut(r)))
  {
    hide Tracked, Covered, Distinct, ActsFit, DeactsFit, Restarts, RequestsFit, ActiveFits, Quiescent, StopTimesOut;
    var g := ActWait(s.acts[r]).value.generation;
    WaitingChild(s, r);
    TimeoutHost(strict, s, g);
    var t := Next(s, ActStopTimedOut(r));
    WaitFits(t.h, s.acts, r, t.acts[r]);
    BrokenRestarts(s.acts, r, t.acts[r]);
    BrokenActive(strict, s.(h := t.h), r, t.acts[r]);
  }

  lemma WaitingChild(s: System, r: nat)
    requires ActsFit(s.h, s.acts) && r in s.acts && ActWait(s.acts[r]).Some? && ActWait(s.acts[r]).value.WaitingFor?
    ensures s.h.child == Some(ActWait(s.acts[r]).value.generation) && (s.h.state == Stopping || s.h.state == Failed)
  {
    assert ActFits(s.h, s.acts[r]);
  }

  lemma BrokenRestarts(acts: map<nat, Act>, r: nat, act: Act)
    requires Restarts(acts) && ActWait(act) == Some(Broken)
    ensures Restarts(acts[r := act])
  {
  }

  lemma BrokenActive(strict: bool, s: System, r: nat, act: Act)
    requires ActiveFits(strict, s) && s.h.state == Failed && ActWait(act) == Some(Broken)
    ensures ActiveFits(strict, s.(acts := s.acts[r := act]))
  {
  }

  lemma BrokenDeact(strict: bool, s: System, d: nat)
    requires ActiveFits(strict, s) && DeactsFit(s.h, s.deacts) && d in s.deacts
    ensures var deacts := s.deacts[d := s.deacts[d].(wait := Broken)];
            DeactsFit(s.h, deacts) && ActiveFits(strict, s.(deacts := deacts))
  {
    hide NoRestart;
    var deacts := s.deacts[d := s.deacts[d].(wait := Broken)];
    if s.h.registry.Some? && Unregistering(s.deacts, s.h.registry.value) {
      var e :| e in s.deacts && s.deacts[e].registry == s.h.registry && Settled(s.deacts[e].wait);
      assert e in deacts && deacts[e].registry == s.h.registry && Settled(deacts[e].wait);
    }
  }

  lemma DeactStopTimedOutKeeps(strict: bool, s: System, d: nat)
    requires Invariant(strict, s) && Enabled(s, DeactStopTimedOut(d))
    ensures Invariant(strict, Next(s, DeactStopTimedOut(d)))
  {
    hide Tracked, Covered, Distinct, ActsFit, DeactsFit, Restarts, RequestsFit, ActiveFits, Quiescent, StopTimesOut;
    WaitingDeact(s, d);
    var g := s.deacts[d].wait.generation;
    TimeoutHost(strict, s, g);
    BrokenDeact(strict, s.(h := StopTimesOut(s.h, g)), d);
  }

  lemma WaitingDeact(s: System, d: nat)
    requires DeactsFit(s.h, s.deacts) && d in s.deacts && s.deacts[d].wait.WaitingFor?
    ensures s.h.child == Some(s.deacts[d].wait.generation) && (s.h.state == Stopping || s.h.state == Failed)
  {
  }

  // --- Requests ---

  /** Only what is granted and pending changes, and only within the lease. */
  ghost predicate Within(h: Host, k: Host)
  {
    k == h.(grants := k.grants, pending := k.pending)
  }

  lemma EndReadsWithin(h: Host, registry: Option<nat>, service: nat)
    ensures Within(h, EndReads(h, registry, service)) && Within(h, h)
  {
  }

  lemma RequestWithin(s: System, n: nat, ok: bool)
    requires n in s.requests
    ensures var t := RequestResolves(s, n, ok); Within(s.h, t.h) && t.acts == s.acts && t.deacts == s.deacts && t.probes == s.probes
  {
    hide LeaseLive, EndReads;
    EndReadsWithin(s.h, Some(s.requests[n].registry), s.requests[n].service);
    if ok {
      match s.requests[n].ask
      case AskGrant(_) =>
      case AskRevoke(_, _) =>
      case AskCancel(_) =>
      case AskRead(_) =>
      case AskReadAuthorized(_) =>
    }
  }

  lemma RequestLeft(s: System, n: nat, ok: bool)
    requires n in s.requests
    ensures var t := RequestResolves(s, n, ok);
            t.requests == s.requests - {n}
            || exists ask :: t.requests == (s.requests - {n})[n := s.requests[n].(ask := ask)]
  {
    hide LeaseLive, EndReads;
    if s.requests[n].ask.AskRead? {
      var ask := AskReadAuthorized(s.requests[n].ask.id);
      assert RequestResolves(s, n, ok).requests == s.requests - {n}
             || RequestResolves(s, n, ok).requests == (s.requests - {n})[n := s.requests[n].(ask := ask)];
    }
  }

  lemma WithinFits(strict: bool, s: System, t: System)
    requires Tracked(s.h) && Distinct(s.h, s.acts) && ActsFit(s.h, s.acts) && DeactsFit(s.h, s.deacts) && ActiveFits(strict, s)
    requires Within(s.h, t.h) && t.acts == s.acts && t.deacts == s.deacts
    ensures Tracked(t.h) && Distinct(t.h, t.acts) && ActsFit(t.h, t.acts) && DeactsFit(t.h, t.deacts) && ActiveFits(strict, t)
  {
  }

  lemma WithinRequests(strict: bool, s: System, t: System, n: nat)
    requires RequestsFit(strict, s.h, s.requests) && Within(s.h, t.h) && n in s.requests
    requires t.requests == s.requests - {n} || exists ask :: t.requests == (s.requests - {n})[n := s.requests[n].(ask := ask)]
    ensures RequestsFit(strict, t.h, t.requests)
  {
  }

  /** A grant or a read under the registry generation that is active. */
  lemma MoreCovered(h: Host, id: string, registry: nat, service: nat)
    requires Covered(h) && h.ready == Some(service) && h.registry == Some(registry)
    ensures h.grants == map[] ==> Covered(h.(grants := map[id := Grant(registry, service)]))
    ensures h.pending.None? ==> Covered(h.(pending := Some(Read(id, registry, service))))
  {
  }

  /** The same under another. */
  lemma Miscovered(h: Host, id: string, registry: nat, service: nat)
    requires h.registry != Some(registry)
    ensures !Covered(h.(grants := map[id := Grant(registry, service)]))
    ensures !Covered(h.(pending := Some(Read(id, registry, service))))
  {
    var k := h.(grants := map[id := Grant(registry, service)]);
    assert id in k.grants && k.grants[id] == Grant(registry, service);
  }

  lemma LessCovered(h: Host, id: string)
    requires Covered(h)
    ensures Covered(h.(grants := h.grants - {id})) && Covered(h.(pending := None))
    ensures Covered(h.(grants := h.grants - {id}, pending := None))
  {
  }

  /** A request grants or reads for a registry generation that is no longer the active one. */
  predicate Miscovers(s: System, n: nat, ok: bool)
  {
    n in s.requests && ok && LeaseLive(s.h, s.requests[n].service) && s.h.registry != Some(s.requests[n].registry)
    && ((s.requests[n].ask.AskGrant? && s.h.grants == map[]) || (s.requests[n].ask.AskReadAuthorized? && s.h.pending.None?))
  }

  lemma RequestResolvedCovered(strict: bool, s: System, n: nat, ok: bool)
    requires Covered(s.h) && RequestsFit(strict, s.h, s.requests) && n in s.requests
    requires strict || !Miscovers(s, n, ok)
    ensures Covered(RequestResolves(s, n, ok).h)
  {
    hide Covered;
    var q := s.requests[n];
    if ok && LeaseLive(s.h, q.service) {
      if s.h.registry == Some(q.registry) && (q.ask.AskGrant? || q.ask.AskReadAuthorized?) { MoreCovered(s.h, q.ask.id, q.registry, q.service); }
      LessCovered(s.h, if q.ask.AskRevoke? then q.ask.id else "");
    }
  }

  lemma RequestResolvedKeeps(strict: bool, s: System, n: nat, ok: bool)
    requires Invariant(strict, s) && Enabled(s, RequestResolved(n, ok)) && (strict || !Miscovers(s, n, ok))
    ensures Invariant(strict, Next(s, RequestResolved(n, ok)))
  {
    hide Tracked, Covered, Distinct, ActsFit, DeactsFit, Restarts, RequestsFit, Quiescent, ActiveFits, RequestResolves;
    var t := RequestResolves(s, n, ok);
    RequestResolvedCovered(strict, s, n, ok);
    RequestWithin(s, n, ok);
    RequestLeft(s, n, ok);
    WithinFits(strict, s, t);
    WithinRequests(strict, s, t, n);
  }

  /** The event leaves something granted or pending for a registry generation that is not the active one. */
  predicate Uncovers(s: System, event: Event)
  {
    match event
    case ActRunsOn(r, aborted) => ForgetsCovered(s, r, aborted)
    case RequestResolved(n, ok) => Miscovers(s, n, ok)
    case _ => false
  }

  /** Every event keeps the whole invariant, but for a hasty stop; and every event keeps
      what does not depend on it, but for one that uncovers something. */
  lemma NextInvariant(strict: bool, s: System, event: Event)
    requires Invariant(strict, s) && Enabled(s, event)
    requires if strict then !(event.StopCalled? && HastyStop(s)) else !Uncovers(s, event)
    ensures Invariant(strict, Next(s, event))
  {
    hide Invariant, Next, Enabled;
    match event
    case Activated(r) => ActivatedKeeps(strict, s, r);
    case Deactivated(d, r) => DeactivatedKeeps(strict, s, d, r);
    case StopCalled(d) => StopCalledKeeps(strict, s, d);
    case Requested(n, r, ask) => RequestedKeeps(strict, s, n, r, ask);
    case ActRunsOn(r, aborted) => ActRunsOnKeeps(strict, s, r, aborted);
    case DeactRunsOn(d) => DeactRunsOnKeeps(strict, s, d);
    case PathResolved(r, resolution) => PathResolvedKeeps(strict, s, r, resolution);
    case RequestResolved(n, ok) => RequestResolvedKeeps(strict, s, n, ok);
    case MessageArrived(g, probing, message) => MessageArrivedKeeps(strict, s, g, probing, message);
    case ChildErrored(g) => ChildErroredKeeps(strict, s, g);
    case ChildExited(g) => ChildExitedKeeps(strict, s, g);
    case HandshakeTimedOut(r) => HandshakeTimedOutKeeps(strict, s, r);
    case ActStopTimedOut(r) => ActStopTimedOutKeeps(strict, s, r);
    case DeactStopTimedOut(d) => DeactStopTimedOutKeeps(strict, s, d);
    case ReadTimedOut => ReadTimedOutKeeps(strict, s);
  }

  lemma ChildErroredKeeps(strict: bool, s: System, g: nat)
    requires Invariant(strict, s) && Enabled(s, ChildErrored(g))
    ensures Invariant(strict, Next(s, ChildErrored(g)))
  {
    hide Invariant, FailGeneration;
    MalformedKeeps(strict, s, g);
  }

  lemma ReadTimedOutKeeps(strict: bool, s: System)
    requires Invariant(strict, s) && Enabled(s, ReadTimedOut)
    ensures Invariant(strict, Next(s, ReadTimedOut))
  {
    hide Invariant;
    AnswerKeeps(strict, s, s.h.(pending := None));
  }

  // --- Whole runs ---

  ghost predicate Initial(s: System)
  {
    s.h.state == Stopped && s.h.child.None? && s.h.port.None? && s.h.exitWaiter.None? && s.h.active.None? && s.h.registry.None?
    && Bare(s.h) && s.acts == map[] && s.deacts == map[] && s.requests == map[] && s.probes == map[]
  }

  ghost predicate Follows(s: System, event: Event, t: System)
  {
    Enabled(s, event) && t == Next(s, event)
  }

  ghost predicate Run(states: seq<System>, events: seq<Event>)
  {
    |states| == |events| + 1 && Initial(states[0])
    && forall i :: 0 <= i < |events| ==> var j := i + 1; Follows(states[i], events[i], states[j])
  }

  /** No stop is called from outside while it would let the wrong start go on. */
  ghost predicate NoHastyStop(states: seq<System>, events: seq<Event>)
  {
    |events| <= |states| && forall i :: 0 <= i < |events| ==> !(events[i].StopCalled? && HastyStop(states[i]))
  }

  lemma {:induction false} RunInvariant(states: seq<System>, events: seq<Event>, n: nat)
    requires Run(states, events) && n < |states| && NoHastyStop(states, events)
    ensures Invariant(true, states[n])
  {
    hide Invariant, Next, Enabled, HastyStop;
    if n == 0 {
      InitialInvariant(true, states[0]);
    } else {
      var m := n - 1;
      RunInvariant(states, events, m);
      assert Follows(states[m], events[m], states[n]);
      NextInvariant(true, states[m], events[m]);
    }
  }

  lemma InitialInvariant(strict: bool, s: System)
    requires Initial(s)
    ensures Invariant(strict, s)
  {
  }

  /** While the host is not ready, nothing is granted and nothing pending; while it is,
      whatever is granted or pending names exactly the ready service generation and the
      active registry generation, and that is the live child's. */
  ghost predicate CoveredOnlyWhileReady(h: Host)
  {
    (h.state != Ready ==> h.grants == map[] && h.pending.None?)
    && (h.state == Ready ==> h.ready.Some? && h.child == h.ready && h.active == h.ready)
    && (forall id :: id in h.grants ==> h.ready == Some(h.grants[id].service) && h.registry == Some(h.grants[id].registry))
    && (h.pending.Some? ==> h.ready == Some(h.pending.value.service) && h.registry == Some(h.pending.value.registry))
    && |h.grants| <= 1
  }

  /** At every moment of every run without a hasty stop, and so of every run in which the
      host is stopped only through activations and deactivations. */
  lemma NothingUnlessReady(states: seq<System>, events: seq<Event>, n: nat)
    requires Run(states, events) && n < |states| && NoHastyStop(states, events)
    ensures CoveredOnlyWhileReady(states[n].h)
  {
    hide Run, Invariant, CoveredOnlyWhileReady, NoHastyStop;
    RunInvariant(states, events, n);
    InvariantCovers(true, states[n]);
  }

  lemma InvariantCovers(strict: bool, s: System)
    requires Invariant(strict, s)
    ensures CoveredOnlyWhileReady(s.h)
  {
    hide Distinct, ActsFit, DeactsFit, Restarts, ActiveFits, RequestsFit;
    AtMostOne(s.h.grants);
  }

  lemma AtMostOne(grants: map<string, Grant>)
    requires forall i, j :: i in grants && j in grants ==> i == j
    ensures |grants| <= 1
  {
    if grants != map[] {
      var i :| i in grants;
      assert grants == map[i := grants[i]];
    }
  }

  // --- With stops at any time ---

  lemma UncoversBreaks(s: System, event: Event)
    requires Enabled(s, event) && Uncovers(s, event)
    ensures !CoveredOnlyWhileReady(Next(s, event).h)
  {
    hide Quiescent, LeaseLive;
    match event
    case ActRunsOn(r, aborted) => ForgottenUncovered(s, r, aborted);
    case RequestResolved(n, ok) => MiscoveredRequest(s, n, ok);
    case _ =>
  }

  lemma ForgottenUncovered(s: System, r: nat, aborted: bool)
    requires ForgetsCovered(s, r, aborted) && ActRuns(s.acts[r])
    ensures !CoveredOnlyWhileReady(ActContinues(s, r, aborted).h)
  {
    var h := ActContinues(s, r, aborted).h;
    assert h == s.h.(registry := None);
    if s.h.grants != map[] {
      var id :| id in s.h.grants;
      assert id in h.grants;
    }
  }

  lemma MiscoveredRequest(s: System, n: nat, ok: bool)
    requires Miscovers(s, n, ok)
    ensures !CoveredOnlyWhileReady(RequestResolves(s, n, ok).h)
  {
    hide LeaseLive;
    var q, h := s.requests[n], RequestResolves(s, n, ok).h;
    if q.ask.AskGrant? { assert q.ask.id in h.grants && h.grants[q.ask.id] == Grant(q.registry, q.service); }
  }

  /** In any run, with stops called from outside at any time, the property holds throughout
      if and only if no failed activation forgets the registry generation of a ready host
      that has granted something or reads, and no request grants or reads for a registry
      generation that is no longer active. */
  lemma CoveredExactly(states: seq<System>, events: seq<Event>)
    requires Run(states, events)
    ensures (forall n :: 0 <= n < |states| ==> CoveredOnlyWhileReady(states[n].h))
            <==> (forall n :: 0 <= n < |events| ==> !Uncovers(states[n], events[n]))
  {
    hide Next, Enabled, Uncovers, CoveredOnlyWhileReady, Initial, Invariant;
    if forall n :: 0 <= n < |events| ==> !Uncovers(states[n], events[n]) {
      forall n | 0 <= n < |states| ensures CoveredOnlyWhileReady(states[n].h) {
        CoveredSoFar(states, events, n);
        InvariantCovers(false, states[n]);
      }
    }
    if forall n :: 0 <= n < |states| ==> CoveredOnlyWhileReady(states[n].h) {
      forall n | 0 <= n < |events| ensures !Uncovers(states[n], events[n]) {
        var m := n + 1;
        assert Follows(states[n], events[n], states[m]);
        if Uncovers(states[n], events[n]) { UncoversBreaks(states[n], events[n]); }
      }
    }
  }

  lemma {:induction false} CoveredSoFar(states: seq<System>, events: seq<Event>, n: nat)
    requires Run(states, events) && n < |states|
    requires forall n :: 0 <= n < |events| ==> !Uncovers(states[n], events[n])
    ensures Invariant(false, states[n])
  {
    hide Invariant, Next, Enabled, Uncovers;
    if n == 0 {
      InitialInvariant(false, states[0]);
    } else {
      var m := n - 1;
      CoveredSoFar(states, events, m);
      assert Follows(states[m], events[m], states[n]);
      NextInvariant(false, states[m], events[m]);
    }
  }

  // --- A run with a hasty stop ---

  function Running(state: State, child: Option<nat>, counter: nat, active: Option<nat>, ready: Option<nat>, registry: Option<nat>,
                   probeFailed: bool, stopping: set<nat>, grants: map<string, Grant>): Host
  {
    Host(true, state, child, child, child, counter, active, ready, ready, stopping, registry, probeFailed, grants, None)
  }

  /** The moments of the run. */
  function Moment(n: nat): System
  {
    match n
    case 0 => System(Running(Stopped, None, 0, None, None, None, false, {}, map[]),
                     map[], map[], map[], map[])
    case 1 => System(Running(Starting, None, 1, Some(1), None, Some(1), false, {}, map[]),
                     map[1 := Resolving(1, true)], map[], map[], map[1 := true])
    case 2 => System(Running(Starting, Some(1), 1, Some(1), None, Some(1), false, {}, map[]),
                     map[1 := Handshaking(1, true, Open)], map[], map[], map[1 := true])
    case 3 => System(Running(Starting, Some(1), 1, Some(1), None, Some(1), false, {}, map[]),
                     map[1 := Handshaking(1, true, Bad(true))], map[], map[], map[1 := true])
    case 4 => System(Running(Stopping, Some(1), 1, Some(1), None, Some(1), false, {1}, map[]),
                     map[1 := Handshaking(1, true, Bad(true))], map[1 := Deact(Some(1), WaitingFor(1))], map[], map[1 := true])
    case 5 => System(Running(Stopping, Some(1), 1, Some(1), None, Some(1), true, {1}, map[]),
                     map[1 := FallbackStopping(WaitingFor(1))], map[1 := Deact(Some(1), WaitingFor(1))], map[], map[1 := true])
    case 6 => System(Running(Stopped, None, 1, None, None, Some(1), true, {}, map[]),
                     map[1 := FallbackStopping(Exited)], map[1 := Deact(Some(1), Exited)], map[], map[1 := true])
    case 7 => System(Running(Stopped, None, 1, None, None, None, true, {}, map[]),
                     map[1 := FallbackStopping(Exited)], map[], map[], map[1 := true])
    case 8 => System(Running(Starting, None, 2, Some(2), None, Some(2), true, {}, map[]),
                     map[1 := FallbackStopping(Exited), 2 := Resolving(2, false)], map[], map[], map[1 := true, 2 := false])
    case 9 => System(Running(Stopped, None, 2, None, None, Some(2), true, {}, map[]),
                     map[1 := FallbackStopping(Exited), 2 := Resolving(2, false)], map[2 := Deact(None, Exited)], map[], map[1 := true, 2 := false])
    case 10 => System(Running(Starting, None, 3, Some(3), None, Some(2), true, {}, map[]),
                     map[1 := Resolving(3, false), 2 := Resolving(2, false)], map[2 := Deact(None, Exited)], map[], map[1 := true, 2 := false, 3 := false])
    case 11 => System(Running(Starting, None, 3, Some(3), None, Some(2), true, {}, map[]),
                     map[1 := Resolving(3, false), 2 := Resolving(2, false)], map[], map[], map[1 := true, 2 := false, 3 := false])
    case 12 => System(Running(Starting, Some(3), 3, Some(3), None, Some(2), true, {}, map[]),
                     map[1 := Handshaking(3, false, Open), 2 := Resolving(2, false)], map[], map[], map[1 := true, 2 := false, 3 := false])
    case 13 => System(Running(Ready, Some(3), 3, Some(3), Some(3), Some(2), true, {}, map[]),
                     map[1 := Handshaking(3, false, Ok), 2 := Resolving(2, false)], map[], map[], map[1 := true, 2 := false, 3 := false])
    case 14 => System(Running(Ready, Some(3), 3, Some(3), Some(3), Some(2), true, {}, map[]),
                     map[1 := StartOver(true), 2 := Resolving(2, false)], map[], map[], map[1 := true, 2 := false, 3 := false])
    case 15 => System(Running(Ready, Some(3), 3, Some(3), Some(3), Some(2), true, {}, map[]),
                     map[1 := Over, 2 := Resolving(2, false)], map[], map[], map[1 := true, 2 := false, 3 := false])
    case 16 => System(Running(Ready, Some(3), 3, Some(3), Some(3), Some(2), true, {}, map[]),
                     map[1 := Over, 2 := Resolving(2, false)], map[], map[0 := Request(2, 3, AskGrant("g"))], map[1 := true, 2 := false, 3 := false])
    case 17 => System(Running(Ready, Some(3), 3, Some(3), Some(3), Some(2), true, {}, map["g" := Grant(2, 3)]),
                     map[1 := Over, 2 := Resolving(2, false)], map[], map[], map[1 := true, 2 := false, 3 := false])
    case 18 => System(Running(Ready, Some(3), 3, Some(3), Some(3), Some(2), true, {}, map["g" := Grant(2, 3)]),
                     map[1 := Over, 2 := StartOver(false)], map[], map[], map[1 := true, 2 := false, 3 := false])
    case _ => System(Running(Ready, Some(3), 3, Some(3), Some(3), None, true, {}, map["g" := Grant(2, 3)]),
                     map[1 := Over, 2 := Over], map[], map[], map[1 := true, 2 := false, 3 := false])
  }

  function Happening(n: nat): Event
  {
    match n
    case 0 => Activated(1)
    case 1 => PathResolved(1, Forks)
    case 2 => MessageArrived(1, true, SaysReady(false, true))
    case 3 => Deactivated(1, 1)
    case 4 => ActRunsOn(1, false)
    case 5 => ChildExited(1)
    case 6 => DeactRunsOn(1)
    case 7 => Activated(2)
    case 8 => StopCalled(2)
    case 9 => ActRunsOn(1, false)
    case 10 => DeactRunsOn(2)
    case 11 => PathResolved(1, Forks)
    case 12 => MessageArrived(3, false, SaysReady(true, false))
    case 13 => ActRunsOn(1, false)
    case 14 => ActRunsOn(1, false)
    case 15 => Requested(0, 2, AskGrant("g"))
    case 16 => RequestResolved(0, true)
    case 17 => PathResolved(2, Rejects)
    case _ => ActRunsOn(2, false)
  }

  lemma StartsCalled()
    ensures Follows(Moment(0), Happening(0), Moment(1))
    ensures Follows(Moment(3), Happening(3), Moment(4))
    ensures Follows(Moment(7), Happening(7), Moment(8))
  {
  }

  lemma StopCalledHastily()
    ensures Follows(Moment(8), Happening(8), Moment(9))
    ensures Follows(Moment(15), Happening(15), Moment(16))
  {
  }

  lemma PromisesRunOn()
    ensures Follows(Moment(4), Happening(4), Moment(5))
    ensures Follows(Moment(6), Happening(6), Moment(7))
  {
  }

  lemma RestartRunsOn()
    ensures Follows(Moment(9), Happening(9), Moment(10))
    ensures Follows(Moment(10), Happening(10), Moment(11))
  {
  }

  lemma RestartReady()
    ensures Follows(Moment(13), Happening(13), Moment(14))
  {
  }

  lemma ActivationsEnd()
    ensures Follows(Moment(14), Happening(14), Moment(15))
    ensures Follows(Moment(18), Happening(18), Moment(19))
  {
  }

  lemma PathsResolve()
    ensures Follows(Moment(1), Happening(1), Moment(2))
    ensures Follows(Moment(11), Happening(11), Moment(12))
  {
  }

  lemma SecondPathRejected()
    ensures Follows(Moment(17), Happening(17), Moment(18))
  {
  }

  lemma ProbeEndsBadly()
    ensures Follows(Moment(2), Happening(2), Moment(3))
  {
  }

  lemma ProcessReady()
    ensures Follows(Moment(12), Happening(12), Moment(13))
  {
  }

  lemma ChildGoes()
    ensures Follows(Moment(5), Happening(5), Moment(6))
  {
  }

  lemma Granted()
    ensures Follows(Moment(16), Happening(16), Moment(17))
  {
  }

  lemma Happens(n: nat)
    requires n < 19
    ensures var m := n + 1; Follows(Moment(n), Happening(n), Moment(m))
  {
    hide *;
    StartsCalled();
    StopCalledHastily();
    PromisesRunOn();
    RestartRunsOn();
    RestartReady();
    ActivationsEnd();
    PathsResolve();
    SecondPathRejected();
    ProbeEndsBadly();
    ProcessReady();
    ChildGoes();
    Granted();
  }

  /** A stop from outside can uncover a grant. The first activation waits for its process to
      go, to start over without the probe; the process goes, a deactivation ends first, and
      a second activation begins to resolve its path. The stop ends the second start, so
      that the first activation's comes to be under the second's registry generation, and
      the failing second activation then forgets it under a ready host. Only the one stop of
      this run is hasty. */
  lemma HastyStopUncovers() returns (states: seq<System>, events: seq<Event>)
    ensures Run(states, events) && |events| == 19 && Uncovers(states[18], events[18])
    ensures HastyStop(states[8]) && forall i :: 0 <= i < |events| && events[i].StopCalled? ==> i == 8
    ensures var last := states[19].h; last.state == Ready && last.registry.None? && last.grants != map[]
    ensures !CoveredOnlyWhileReady(states[19].h)
  {
    hide Follows, CoveredOnlyWhileReady, Moment, Happening, HastyStop, Initial, Uncovers;
    states, events := seq(20, n requires 0 <= n => Moment(n)), seq(19, n requires 0 <= n => Happening(n));
    forall i | 0 <= i < |events| ensures var j := i + 1; Follows(states[i], events[i], states[j]) { Happens(i); }
    Ending();
    OneStop();
    assert Follows(states[18], events[18], states[19]) by { Happens(18); }
    UncoversIn(states[18], events[18], states[19]);
  }

  lemma Ending()
    ensures Initial(Moment(0)) && Uncovers(Moment(18), Happening(18)) && HastyStop(Moment(8))
    ensures var last := Moment(19).h; last.state == Ready && last.registry.None? && last.grants != map[]
  {
    assert 1 in Moment(8).acts && MayRestart(Moment(8).acts[1]);
    assert "g" in Moment(19).h.grants;
  }

  lemma OneStop()
    ensures forall i: nat :: i < 19 && Happening(i).StopCalled? ==> i == 8
  {
  }

  lemma UncoversIn(s: System, event: Event, t: System)
    requires Follows(s, event, t) && Uncovers(s, event)
    ensures !CoveredOnlyWhileReady(t.h)
  {
    hide Next, Enabled, Uncovers, CoveredOnlyWhileReady;
    UncoversBreaks(s, event);
  }
}
