/** What runs of the service host come to: which start is probed, and what an activation, a request and a stop end in. */
module ServiceHostRuns {
  import opened Options
  import opened ServiceHosts

  // --- The permission probe ---

  /** A probed process that is still starting says that it is ready, that the read outside
      was not denied, and that its platform is known for that. */
  ghost predicate SaysUndenied(s: System, event: Event)
  {
    event.MessageArrived? && event.probing && event.message == SaysReady(false, true)
    && s.h.active == Some(event.g) && s.h.child == Some(event.g) && s.h.state == Starting
    && event.g in s.probes && s.probes[event.g]
  }

  predicate Unprobed(act: Act)
  {
    act.FallbackStopping? || (act.Resolving? && !act.probing)
    || (act.Handshaking? && (!act.probing || act.outcome == Bad(true)))
  }

  /** Nothing is started, or about to be started, without the probe. */
  ghost predicate AllProbed(s: System)
  {
    !s.h.probeFailed && (forall r :: r in s.acts ==> !Unprobed(s.acts[r])) && (forall g :: g in s.probes ==> s.probes[g])
  }

  lemma StartProbed(s: System, r: nat, probing: bool)
    requires AllProbed(s) && probing
    ensures AllProbed(StartFor(s, r, probing))
  {
  }

  lemma StopsSame(h: Host)
    ensures Stop(h).0.probeFailed == h.probeFailed && Stop(h).0.counter == h.counter && Stop(h).0.state != Starting
    ensures Stop(h).0.ready.None?
    ensures forall g: nat :: FailGeneration(h, g).probeFailed == h.probeFailed
  {
  }

  lemma StartsSame(h: Host)
    ensures var (k, started) := Start(h);
            k.probeFailed == h.probeFailed && (k.ready == h.ready || k.ready.None?)
            && (if started.Resolves? then k.state == Starting && k.active == Some(started.generation)
                else k.state != Starting || (k.state == h.state && k.active == h.active))
  {
  }

  lemma ContinuesProbed(s: System, r: nat, aborted: bool)
    requires AllProbed(s) && r in s.acts && ActRuns(s.acts[r])
    ensures AllProbed(ActContinues(s, r, aborted))
  {
    hide Stop, FailGeneration, StartFor;
    StopsSame(s.h);
    if s.acts[r].Handshaking? { StopsSame(FailGeneration(s.h, s.acts[r].generation)); }
  }

  lemma MessageProbed(s: System, event: Event)
    requires AllProbed(s) && Enabled(s, event) && !SaysUndenied(s, event) && event.MessageArrived?
    ensures AllProbed(Next(s, event))
  {
    hide Quiescent, FailGeneration, BecomeReady, EndReads, Unprobed;
    StopsSame(s.h);
    ShakenProbed(s.acts, event.g);
    EndsReadsSame(s.h, event.g);
  }

  lemma ShakenProbed(acts: map<nat, Act>, g: nat)
    ensures forall outcome :: outcome != Bad(true) ==>
      forall r :: r in acts && !Unprobed(acts[r]) ==> r in Shaken(acts, g, outcome) && !Unprobed(Shaken(acts, g, outcome)[r])
    ensures forall outcome :: Shaken(acts, g, outcome).Keys == acts.Keys
  {
  }

  lemma EndsReadsSame(h: Host, g: nat)
    ensures EndReads(h, h.registry, g).probeFailed == h.probeFailed && BecomeReady(h, g).probeFailed == h.probeFailed
  {
  }

  lemma ReportProbed(s: System, event: Event)
    requires AllProbed(s) && Enabled(s, event) && (event.ChildExited? || event.HandshakeTimedOut? || event.PathResolved?)
    ensures AllProbed(Next(s, event))
  {
    hide Quiescent, EndReads, ClearReadiness;
    ClearsSame(s.h);
  }

  lemma NextProbed(s: System, event: Event)
    requires AllProbed(s) && Enabled(s, event) && !SaysUndenied(s, event)
    ensures AllProbed(Next(s, event))
  {
    hide Stop, StartFor, ActContinues, FailGeneration, Receives, PathResolves, Exits, Quiescent, SaysUndenied, AllProbed;
    match event
    case ActRunsOn(r, aborted) => ContinuesProbed(s, r, aborted);
    case MessageArrived(_, _, _) => MessageProbed(s, event);
    case ChildExited(_) => ReportProbed(s, event);
    case HandshakeTimedOut(_) => ReportProbed(s, event);
    case PathResolved(_, _) => ReportProbed(s, event);
    case _ => OtherProbed(s, event);
  }

  lemma OtherProbed(s: System, event: Event)
    requires AllProbed(s) && Enabled(s, event)
    requires !event.ActRunsOn? && !event.MessageArrived? && !event.ChildExited? && !event.HandshakeTimedOut? && !event.PathResolved?
    ensures AllProbed(Next(s, event))
  {
    hide Stop, StartFor, Quiescent;
    StopsSame(s.h);
    if event.Activated? { StartProbed(s.(h := s.h.(registry := Some(event.r))), event.r, true); }
  }

  /** Whenever the probe counts as failed, or a start is being repeated without it or was
      made without it, a probed process has once said that it is ready and that the read
      outside was not denied. A timeout, an exit, a malformed message or any other answer
      never leads there. */
  lemma {:induction false} ProbeOnly(states: seq<System>, events: seq<Event>, n: nat) returns (m: nat)
    requires Run(states, events) && !states[0].h.probeFailed && n < |states|
    requires states[n].h.probeFailed || (exists r :: r in states[n].acts && Unprobed(states[n].acts[r]))
             || exists g :: g in states[n].probes && !states[n].probes[g]
    ensures m < n && SaysUndenied(states[m], events[m])
  {
    hide Next, Enabled, SaysUndenied, Unprobed;
    assert n > 0;
    m := n - 1;
    assert Follows(states[m], events[m], states[n]);
    if AllProbed(states[m]) {
      if !SaysUndenied(states[m], events[m]) { NextProbed(states[m], events[m]); }
    } else {
      m := ProbeOnly(states, events, m);
    }
  }

  /** A new start is numbered next, and probed exactly if it is an activation's own and the
      probe has not failed. */
  lemma StartedBy(s: System, event: Event, g: nat)
    requires Enabled(s, event) && g in Next(s, event).probes && (g !in s.probes || Next(s, event).probes[g] != s.probes[g])
    ensures g == s.h.counter + 1 == Next(s, event).h.counter && Next(s, event).probes[g] == (event.Activated? && !s.h.probeFailed)
    ensures event.Activated? || (event.ActRunsOn? && s.acts[event.r] == FallbackStopping(Exited))
  {
    hide Stop, Quiescent, FailGeneration, Receives, Exits, PathResolves, RequestResolves, CallRequest;
    StopsSame(s.h);
    match event
    case MessageArrived(_, _, _) => ReportsKeepProbes(s, event);
    case ChildExited(_) => ReportsKeepProbes(s, event);
    case PathResolved(_, _) => ReportsKeepProbes(s, event);
    case Requested(_, _, _) => ReportsKeepProbes(s, event);
    case RequestResolved(n, ok) => RequestWithin(s, n, ok);
    case _ =>
  }

  lemma ReportsKeepProbes(s: System, event: Event)
    requires Enabled(s, event) && (event.MessageArrived? || event.ChildExited? || event.PathResolved? || event.Requested?)
    ensures Next(s, event).probes == s.probes
  {
    hide Quiescent, FailGeneration, BecomeReady, EndReads, Shaken, ChildExits, ActsAfterExit, DeactsAfterExit, LeaseLive;
  }

  /** The process says that it is ready, after its probe if it is probed. */
  ghost predicate SaysReadyProbed(s: System, event: Event, g: nat)
  {
    event.MessageArrived? && event.g == g && event.message.SaysReady? && g in s.probes && s.probes[g] == event.probing
    && (event.probing ==> event.message.denied)
    && s.h.active == Some(g) && s.h.child == Some(g) && s.h.port == Some(g) && s.h.state == Starting
  }

  lemma ReadyBy(s: System, event: Event, g: nat)
    requires Enabled(s, event) && Next(s, event).h.ready == Some(g) && s.h.ready != Some(g)
    ensures SaysReadyProbed(s, event, g)
  {
    hide Quiescent, Stop, Start, ActContinues, RequestResolves, Receives, ChildExits;
    StopsSame(s.h);
    match event
    case Activated(r) => StartsSame(s.h.(registry := Some(r)));
    case ActRunsOn(r, aborted) => ContinuesReady(s, r, aborted);
    case RequestResolved(n, ok) => RequestWithin(s, n, ok);
    case MessageArrived(at, probing, message) => ReceivesReady(s, at, probing, message);
    case ChildExited(at) => ExitsReady(s.h, at);
    case _ =>
  }

  lemma ReceivesReady(s: System, g: nat, probing: bool, message: Message)
    ensures var k := Receives(s, g, probing, message).h;
            k.ready == s.h.ready || k.ready.None?
            || (k.ready == Some(g) && message.SaysReady? && (probing ==> message.denied) && s.h.state == Starting
                && s.h.active == Some(g) && s.h.child == Some(g) && s.h.port == Some(g))
  {
  }

  lemma ExitsReady(h: Host, g: nat)
    ensures ChildExits(h, g).ready == h.ready || ChildExits(h, g).ready.None?
  {
  }

  lemma ContinuesReady(s: System, r: nat, aborted: bool)
    requires r in s.acts && ActRuns(s.acts[r])
    ensures ActContinues(s, r, aborted).h.ready == s.h.ready || ActContinues(s, r, aborted).h.ready.None?
  {
    hide Stop, Start, FailGeneration;
    StopsSame(s.h);
    StopsSame(s.h.(probeFailed := true));
    StartsSame(s.h);
    if s.acts[r].Handshaking? { StopsSame(FailGeneration(s.h, s.acts[r].generation)); }
  }

  /** A ready service has said so itself, and either was started without the probe or has
      found the read outside denied. */
  lemma {:induction false} ReadyProbed(states: seq<System>, events: seq<Event>, n: nat, g: nat) returns (m: nat)
    requires Run(states, events) && n < |states| && states[n].h.ready == Some(g)
    ensures m < n && SaysReadyProbed(states[m], events[m], g)
  {
    hide Next, Enabled, SaysReadyProbed;
    assert n > 0;
    m := n - 1;
    assert Follows(states[m], events[m], states[n]);
    if states[m].h.ready == Some(g) { m := ReadyProbed(states, events, m, g); } else { ReadyBy(states[m], events[m], g); }
  }

  /** Once the probe has failed, whoever starts does so without it. */
  ghost predicate FailedMeans(s: System)
  {
    s.h.probeFailed && s.h.state == Starting ==> s.h.active.Some? && s.h.active.value in s.probes && !s.probes[s.h.active.value]
  }

  lemma ShakenFailed(s: System, r: nat)
    requires r in s.acts && s.acts[r].Handshaking? && s.acts[r].outcome != Open && FailedMeans(s)
    ensures var t := ActContinues(s, r, false); FailedMeans(t) && (s.h.probeFailed ==> t.h.probeFailed)
    ensures forall aborted :: ActContinues(s, r, aborted) == ActContinues(s, r, false)
  {
    hide Stop, Start, FailGeneration;
    StopsSame(s.h.(probeFailed := true));
    StopsSame(s.h);
    StopsSame(FailGeneration(s.h, s.acts[r].generation));
  }

  lemma ContinuesFailed(s: System, r: nat, aborted: bool)
    requires r in s.acts && ActRuns(s.acts[r]) && FailedMeans(s)
    ensures FailedMeans(ActContinues(s, r, aborted)) && (s.h.probeFailed ==> ActContinues(s, r, aborted).h.probeFailed)
  {
    hide Stop, Start, FailGeneration, StartFor, ForgetRegistry, Unprobed;
    StopsSame(s.h);
    match s.acts[r]
    case Handshaking(_, _, _) => ShakenFailed(s, r);
    case FallbackStopping(_) => StartForFailed(s, r);
    case AbortStopping(_) => ForgetsSame(s.h, r);
    case StartOver(_) => ForgetsSame(s.h, r);
    case _ =>
  }

  lemma StartForFailed(s: System, r: nat)
    requires FailedMeans(s)
    ensures FailedMeans(StartFor(s, r, false)) && StartFor(s, r, false).h.probeFailed == s.h.probeFailed
  {
    hide Start;
    StartsSame(s.h);
  }

  lemma ForgetsSame(h: Host, r: nat)
    ensures ForgetRegistry(h, r) == h.(registry := ForgetRegistry(h, r).registry)
  {
  }

  lemma ReportsFailed(s: System, event: Event)
    requires Enabled(s, event) && FailedMeans(s) && (event.MessageArrived? || event.ChildExited? || event.PathResolved?)
    ensures FailedMeans(Next(s, event)) && Next(s, event).h.probeFailed == s.h.probeFailed
  {
    hide Quiescent, EndReads, ClearReadiness;
    ClearsSame(s.h);
  }

  lemma ClearsSame(h: Host)
    ensures forall registry, service :: var k := ClearReadiness(h, registry, service);
              k.probeFailed == h.probeFailed && k.state == h.state && k.active == h.active
    ensures forall k: Host, registry: Option<nat>, service: nat :: var e := EndReads(k, registry, service);
              e.probeFailed == k.probeFailed && e.state == k.state && e.active == k.active
  {
  }

  lemma NextFailed(s: System, event: Event)
    requires Enabled(s, event) && FailedMeans(s)
    ensures FailedMeans(Next(s, event)) && (s.h.probeFailed ==> Next(s, event).h.probeFailed)
  {
    hide Quiescent, Stop, Start, ActContinues, RequestResolves, Receives, Exits, PathResolves, Enabled, FailGeneration;
    StopsSame(s.h);
    match event
    case Activated(r) => StartsSame(s.h.(registry := Some(r)));
    case ActRunsOn(r, aborted) => RunsOnEnabled(s, r, aborted); ContinuesFailed(s, r, aborted);
    case RequestResolved(n, ok) => RunsOnRequest(s, n, ok); RequestWithin(s, n, ok);
    case MessageArrived(_, _, _) => ReportsFailed(s, event);
    case ChildExited(_) => ReportsFailed(s, event);
    case PathResolved(_, _) => ReportsFailed(s, event);
    case ChildErrored(g) => FailsSame(s.h, g);
    case _ =>
  }

  lemma FailsSame(h: Host, g: nat)
    ensures var k := FailGeneration(h, g); k.probeFailed == h.probeFailed && (k == h || k.state == Failed)
  {
  }

  lemma RunsOnEnabled(s: System, r: nat, aborted: bool)
    requires Enabled(s, ActRunsOn(r, aborted))
    ensures r in s.acts && ActRuns(s.acts[r])
  {
  }

  lemma RunsOnRequest(s: System, n: nat, ok: bool)
    requires Enabled(s, RequestResolved(n, ok))
    ensures n in s.requests
  {
  }

  /** The probe fails for good: from then on no probed process is heard to be ready. */
  lemma {:induction false} FailedForGood(states: seq<System>, events: seq<Event>, m: nat, n: nat)
    requires Run(states, events) && !states[0].h.probeFailed && m <= n < |states|
    ensures FailedMeans(states[n]) && (states[m].h.probeFailed ==> states[n].h.probeFailed)
    ensures states[m].h.probeFailed && n < |events| ==>
      forall g :: SaysReadyProbed(states[n], events[n], g) ==> !events[n].probing
    decreases n
  {
    hide Next, Enabled;
    if n > 0 {
      var k := n - 1;
      FailedForGood(states, events, if m == n then k else m, k);
      assert Follows(states[k], events[k], states[n]);
      NextFailed(states[k], events[k]);
    }
  }

  // --- Calls from their beginning to their end ---

  /** These events can happen one after another and lead from s to t. */
  ghost predicate Leads(s: System, events: seq<Event>, t: System)
    decreases |events|
  {
    if events == [] then s == t else Enabled(s, events[0]) && Leads(Next(s, events[0]), events[1..], t)
  }

  lemma {:induction false} FollowAll(systems: seq<System>, events: seq<Event>)
    requires |systems| == |events| + 1 && forall i :: 0 <= i < |events| ==> var j := i + 1; Follows(systems[i], events[i], systems[j])
    ensures Leads(systems[0], events, systems[|events|])
    decreases |events|
  {
    hide Enabled, Next;
    if events != [] {
      var rest, later := events[1..], systems[1..];
      forall i | 0 <= i < |rest| ensures var j := i + 1; Follows(later[i], rest[i], later[j]) {
        var j := i + 1;
        var k := j + 1;
        assert Follows(systems[j], events[j], systems[k]);
      }
      FollowAll(later, rest);
      assert Follows(systems[0], events[0], systems[1]);
    }
  }

  /** Nothing runs, nothing is asked and nobody waits. */
  ghost predicate AtRest(s: System)
  {
    s.h.hasPath && (s.h.state == Stopped || s.h.state == Failed) && s.h.registry.None? && Bare(s.h)
    && s.h.child.None? && s.h.port.None? && s.h.exitWaiter.None? && s.h.active.None? && s.h.stopping == {}
    && s.acts == map[] && s.deacts == map[] && s.requests == map[]
  }

  /** Activation r is on its way, with the host as given. */
  function Busy(s: System, r: nat, act: Act, h: Host, g: nat, probing: bool): System
  {
    System(h, map[r := act], map[], map[], s.probes[g := probing])
  }

  function Started(h: Host, r: nat): Host
  {
    h.(registry := Some(r), counter := h.counter + 1, active := Some(h.counter + 1), state := Starting)
  }

  function Forked(h: Host, r: nat): Host
  {
    Fork(Started(h, r), h.counter + 1)
  }

  lemma Starts(s: System, r: nat)
    requires AtRest(s)
    ensures var g, p := s.h.counter + 1, !s.h.probeFailed;
            Follows(s, Activated(r), Busy(s, r, Resolving(g, p), Started(s.h, r), g, p))
            && Follows(Busy(s, r, Resolving(g, p), Started(s.h, r), g, p), PathResolved(r, Forks),
                       Busy(s, r, Handshaking(g, p, Open), Forked(s.h, r), g, p))
  {
  }

  lemma SaysSo(s: System, r: nat, h: Host, g: nat, p: bool, denied: bool, compatible: bool)
    requires h.state == Starting && h.active == h.child == h.port == Some(g) && (p ==> denied)
    ensures var b := Busy(s, r, Handshaking(g, p, Open), h, g, p);
            var k := BecomeReady(h, g);
            Follows(b, MessageArrived(g, p, SaysReady(denied, compatible)), Busy(s, r, Handshaking(g, p, Ok), k, g, p))
            && Follows(Busy(s, r, Handshaking(g, p, Ok), k, g, p), ActRunsOn(r, false), Busy(s, r, StartOver(true), k, g, p))
            && Follows(Busy(s, r, StartOver(true), k, g, p), ActRunsOn(r, false), Busy(s, r, Over, k, g, p))
  {
  }

  /** An activation whose process says it is ready, and passes its probe if it is probed,
      ends with the host ready for its registry generation. */
  lemma ActivationSucceeds(s: System, r: nat, compatible: bool, denied: bool) returns (t: System)
    requires AtRest(s) && (denied || s.h.probeFailed)
    ensures var g, p := s.h.counter + 1, !s.h.probeFailed;
            Leads(s, [Activated(r), PathResolved(r, Forks), MessageArrived(g, p, SaysReady(denied, compatible)),
                      ActRunsOn(r, false), ActRunsOn(r, false)], t)
            && t == Busy(s, r, Over, BecomeReady(Forked(s.h, r), g), g, p)
    ensures t.h.state == Ready && t.h.ready == Some(s.h.counter + 1) && t.h.registry == Some(r) && LeaseLive(t.h, s.h.counter + 1)
  {
    hide Follows, Leads;
    var g, p, h := s.h.counter + 1, !s.h.probeFailed, Forked(s.h, r);
    t := Busy(s, r, Over, BecomeReady(h, g), g, p);
    Starts(s, r);
    SaysSo(s, r, h, g, p, denied, compatible);
    FollowAll([s, Busy(s, r, Resolving(g, p), Started(s.h, r), g, p), Busy(s, r, Handshaking(g, p, Open), h, g, p),
               Busy(s, r, Handshaking(g, p, Ok), BecomeReady(h, g), g, p), Busy(s, r, StartOver(true), BecomeReady(h, g), g, p), t],
              [Activated(r), PathResolved(r, Forks), MessageArrived(g, p, SaysReady(denied, compatible)), ActRunsOn(r, false), ActRunsOn(r, false)]);
  }

  // --- A handshake that ends badly ---

  /** A stopped host whose next number is used up: what a failed activation leaves. */
  function GivenBack(s: System, r: nat): System
  {
    Busy(s, r, Over, s.h.(counter := s.h.counter + 1, state := Stopped), s.h.counter + 1, !s.h.probeFailed)
  }

  /** What a failed handshake goes through once its process has been asked to go. */
  function Failing(s: System, r: nat, act: Act): System
  {
    Busy(s, r, act, s.h.(registry := Some(r), counter := s.h.counter + 1, state := Stopped), s.h.counter + 1, !s.h.probeFailed)
  }

  function Going(s: System, r: nat): Host
  {
    Forked(s.h, r).(state := Stopping, stopping := {s.h.counter + 1})
  }

  lemma TimesOut(s: System, r: nat, aborted: bool)
    requires AtRest(s)
    ensures var g, p, h := s.h.counter + 1, !s.h.probeFailed, Forked(s.h, r);
            var bad := Busy(s, r, Handshaking(g, p, Bad(false)), h, g, p);
            Follows(Busy(s, r, Handshaking(g, p, Open), h, g, p), HandshakeTimedOut(r), bad)
            && Follows(bad, ActRunsOn(r, aborted), Busy(s, r, FailStopping(WaitingFor(g)), Going(s, r), g, p))
            && (p ==> Follows(Busy(s, r, Handshaking(g, p, Open), h, g, p), MessageArrived(g, p, SaysReady(false, false)), bad))
  {
  }

  lemma SpeaksNonsense(s: System, r: nat, aborted: bool)
    requires AtRest(s)
    ensures var g, p, h := s.h.counter + 1, !s.h.probeFailed, Forked(s.h, r);
            var bad := Busy(s, r, Handshaking(g, p, Bad(false)), h.(state := Failed), g, p);
            Follows(Busy(s, r, Handshaking(g, p, Open), h, g, p), MessageArrived(g, p, Malformed), bad)
            && Follows(bad, ActRunsOn(r, aborted), Busy(s, r, FailStopping(WaitingFor(g)), Going(s, r), g, p))
  {
  }

  lemma Goes(s: System, r: nat)
    requires AtRest(s)
    ensures var g, p := s.h.counter + 1, !s.h.probeFailed;
            Follows(Busy(s, r, FailStopping(WaitingFor(g)), Going(s, r), g, p), ChildExited(g), Failing(s, r, FailStopping(Exited)))
  {
  }

  lemma FailsOver(s: System, r: nat, aborted: bool)
    requires AtRest(s)
    ensures Follows(Failing(s, r, FailStopping(Exited)), ActRunsOn(r, aborted), Failing(s, r, StartOver(false)))
    ensures Follows(Failing(s, r, StartOver(false)), ActRunsOn(r, aborted), GivenBack(s, r))
  {
  }

  /** A handshake that times out, is answered with nonsense or by an undenied process of no
      known kind ends in a failed activation: the process is asked to go, and the host is
      as it was but for the number used up. */
  lemma HandshakeFailed(s: System, r: nat, event: Event, aborted: bool)
    requires AtRest(s)
    requires var g, p := s.h.counter + 1, !s.h.probeFailed;
             event == HandshakeTimedOut(r) || event == MessageArrived(g, p, Malformed) || (p && event == MessageArrived(g, p, SaysReady(false, false)))
    ensures Leads(s, [Activated(r), PathResolved(r, Forks), event, ActRunsOn(r, aborted), ChildExited(s.h.counter + 1),
                      ActRunsOn(r, aborted), ActRunsOn(r, aborted)], GivenBack(s, r))
    ensures GivenBack(s, r).h == s.h.(counter := s.h.counter + 1, state := Stopped)
  {
    hide Follows, Leads, AtRest, Busy, Failing, GivenBack, Going, Forked, Started;
    var g, p, h := s.h.counter + 1, !s.h.probeFailed, Forked(s.h, r);
    var bad := Busy(s, r, Handshaking(g, p, Bad(false)), if event.MessageArrived? && event.message == Malformed then h.(state := Failed) else h, g, p);
    Starts(s, r);
    TimesOut(s, r, aborted);
    SpeaksNonsense(s, r, aborted);
    Goes(s, r);
    FailsOver(s, r, aborted);
    FollowAll([s, Busy(s, r, Resolving(g, p), Started(s.h, r), g, p), Busy(s, r, Handshaking(g, p, Open), h, g, p), bad,
               Busy(s, r, FailStopping(WaitingFor(g)), Going(s, r), g, p), Failing(s, r, FailStopping(Exited)), Failing(s, r, StartOver(false)),
               GivenBack(s, r)],
              [Activated(r), PathResolved(r, Forks), event, ActRunsOn(r, aborted), ChildExited(g), ActRunsOn(r, aborted), ActRunsOn(r, aborted)]);
    GivenBackIs(s, r);
  }

  lemma GivenBackIs(s: System, r: nat)
    ensures GivenBack(s, r).h == s.h.(counter := s.h.counter + 1, state := Stopped)
  {
  }

  lemma ExitsEarly(s: System, r: nat)
    requires AtRest(s)
    ensures var g, p := s.h.counter + 1, !s.h.probeFailed;
            Follows(Busy(s, r, Handshaking(g, p, Open), Forked(s.h, r), g, p), ChildExited(g),
                    Busy(s, r, Handshaking(g, p, Bad(false)), s.h.(counter := g, state := Failed), g, p))
  {
  }

  lemma EndsEarly(s: System, r: nat, aborted: bool)
    requires AtRest(s)
    ensures var g, p := s.h.counter + 1, !s.h.probeFailed;
            var bare := s.h.(counter := g, state := Failed);
            Follows(Busy(s, r, Handshaking(g, p, Bad(false)), bare, g, p), ActRunsOn(r, aborted),
                    Busy(s, r, FailStopping(Exited), bare.(state := Stopped), g, p))
            && Follows(Busy(s, r, FailStopping(Exited), bare.(state := Stopped), g, p), ActRunsOn(r, aborted),
                       Busy(s, r, StartOver(false), bare.(state := Stopped), g, p))
            && Follows(Busy(s, r, StartOver(false), bare.(state := Stopped), g, p), ActRunsOn(r, aborted), GivenBack(s, r))
  {
  }

  /** So does one whose process exits. */
  lemma HandshakeExits(s: System, r: nat, aborted: bool)
    requires AtRest(s)
    ensures Leads(s, [Activated(r), PathResolved(r, Forks), ChildExited(s.h.counter + 1), ActRunsOn(r, aborted),
                      ActRunsOn(r, aborted), ActRunsOn(r, aborted)], GivenBack(s, r))
  {
    hide Follows, Leads, AtRest, Busy, GivenBack, Forked, Started;
    var g, p, h := s.h.counter + 1, !s.h.probeFailed, Forked(s.h, r);
    var bare := s.h.(counter := g, state := Failed);
    Starts(s, r);
    ExitsEarly(s, r);
    EndsEarly(s, r, aborted);
    FollowAll([s, Busy(s, r, Resolving(g, p), Started(s.h, r), g, p), Busy(s, r, Handshaking(g, p, Open), h, g, p),
               Busy(s, r, Handshaking(g, p, Bad(false)), bare, g, p), Busy(s, r, FailStopping(Exited), bare.(state := Stopped), g, p),
               Busy(s, r, StartOver(false), bare.(state := Stopped), g, p), GivenBack(s, r)],
              [Activated(r), PathResolved(r, Forks), ChildExited(g), ActRunsOn(r, aborted), ActRunsOn(r, aborted), ActRunsOn(r, aborted)]);
  }

  // --- A start repeated without the probe ---

  /** The host on its way to the repeated start. */
  function Unprobing(s: System, r: nat): Host
  {
    Going(s, r).(probeFailed := true)
  }

  function Repeating(s: System): System
  {
    s.(h := s.h.(counter := s.h.counter + 1, probeFailed := true, state := Stopped), probes := s.probes[s.h.counter + 1 := true])
  }

  lemma FallsBack(s: System, r: nat, aborted: bool)
    requires AtRest(s) && !s.h.probeFailed
    ensures var g, h := s.h.counter + 1, Forked(s.h, r);
            Follows(Busy(s, r, Handshaking(g, true, Open), h, g, true), MessageArrived(g, true, SaysReady(false, true)),
                    Busy(s, r, Handshaking(g, true, Bad(true)), h, g, true))
            && Follows(Busy(s, r, Handshaking(g, true, Bad(true)), h, g, true), ActRunsOn(r, aborted),
                       Busy(s, r, FallbackStopping(WaitingFor(g)), Unprobing(s, r), g, true))
  {
  }

  lemma GoesUnprobed(s: System, r: nat)
    requires AtRest(s) && !s.h.probeFailed
    ensures var g, t := s.h.counter + 1, Repeating(s);
            Follows(Busy(s, r, FallbackStopping(WaitingFor(g)), Unprobing(s, r), g, true), ChildExited(g),
                    Busy(s, r, FallbackStopping(Exited), t.h.(registry := Some(r)), g, true))
  {
  }

  lemma Repeats(s: System, r: nat, aborted: bool)
    requires AtRest(s) && !s.h.probeFailed
    ensures var g, t := s.h.counter + 1, Repeating(s);
            Follows(Busy(s, r, FallbackStopping(Exited), t.h.(registry := Some(r)), g, true), ActRunsOn(r, aborted),
                    Busy(t, r, Resolving(g + 1, false), Started(t.h, r), g + 1, false))
  {
  }

  lemma ForksAgain(s: System, r: nat, g: nat)
    requires Bare(s.h) && s.h.counter == g
    ensures Follows(Busy(s, r, Resolving(g + 1, false), Started(s.h, r), g + 1, false), PathResolved(r, Forks),
                    Busy(s, r, Handshaking(g + 1, false, Open), Forked(s.h, r), g + 1, false))
  {
  }

  /** A probed process that is ready undenied, on a platform known for that, is asked to go,
      and the start is repeated without the probe. */
  lemma FallsBackToStart(s: System, r: nat, aborted: bool)
    requires AtRest(s) && !s.h.probeFailed
    ensures var g, u := s.h.counter + 1, Repeating(s);
            Leads(s, [Activated(r), PathResolved(r, Forks), MessageArrived(g, true, SaysReady(false, true)), ActRunsOn(r, aborted),
                      ChildExited(g), ActRunsOn(r, aborted)], Busy(u, r, Resolving(g + 1, false), Started(u.h, r), g + 1, false))
  {
    var g, u, h := s.h.counter + 1, Repeating(s), Forked(s.h, r);
    var stopped := u.h.(registry := Some(r));
    hide Follows, Leads, AtRest, Unprobing, Busy, Forked, Started, Repeating;
    Starts(s, r);
    FallsBack(s, r, aborted);
    GoesUnprobed(s, r);
    Repeats(s, r, aborted);
    FollowAll([s, Busy(s, r, Resolving(g, true), Started(s.h, r), g, true), Busy(s, r, Handshaking(g, true, Open), h, g, true),
               Busy(s, r, Handshaking(g, true, Bad(true)), h, g, true), Busy(s, r, FallbackStopping(WaitingFor(g)), Unprobing(s, r), g, true),
               Busy(s, r, FallbackStopping(Exited), stopped, g, true), Busy(u, r, Resolving(g + 1, false), Started(u.h, r), g + 1, false)],
              [Activated(r), PathResolved(r, Forks), MessageArrived(g, true, SaysReady(false, true)), ActRunsOn(r, aborted),
               ChildExited(g), ActRunsOn(r, aborted)]);
  }

  /** Which then succeeds whatever its process says of the read outside. */
  lemma FallbackSucceeds(s: System, r: nat, denied: bool, compatible: bool) returns (t: System)
    requires AtRest(s) && !s.h.probeFailed
    ensures var g, u := s.h.counter + 1, Repeating(s);
            Leads(Busy(u, r, Resolving(g + 1, false), Started(u.h, r), g + 1, false),
                  [PathResolved(r, Forks), MessageArrived(g + 1, false, SaysReady(denied, compatible)), ActRunsOn(r, false), ActRunsOn(r, false)], t)
    ensures t.h.state == Ready && t.h.ready == Some(s.h.counter + 2) && t.h.registry == Some(r) && t.h.probeFailed
    ensures LeaseLive(t.h, s.h.counter + 2) && t.acts == map[r := Over]
  {
    var g, u := s.h.counter + 1, Repeating(s);
    var k := Forked(u.h, r);
    t := Busy(u, r, Over, BecomeReady(k, g + 1), g + 1, false);
    hide Follows, Leads, AtRest;
    ForksAgain(u, r, g);
    SaysSo(u, r, k, g + 1, false, denied, compatible);
    FollowAll([Busy(u, r, Resolving(g + 1, false), Started(u.h, r), g + 1, false), Busy(u, r, Handshaking(g + 1, false, Open), k, g + 1, false),
               Busy(u, r, Handshaking(g + 1, false, Ok), BecomeReady(k, g + 1), g + 1, false),
               Busy(u, r, StartOver(true), BecomeReady(k, g + 1), g + 1, false), t],
              [PathResolved(r, Forks), MessageArrived(g + 1, false, SaysReady(denied, compatible)), ActRunsOn(r, false), ActRunsOn(r, false)]);
  }

  // --- A ready host ---

  /** The host is ready for registry generation r under service generation g, with nothing asked. */
  ghost predicate IsReady(s: System, r: nat, g: nat)
  {
    LeaseLive(s.h, g) && s.h.registry == Some(r) && s.h.hasPath && s.h.exitWaiter == Some(g) && s.h.stopping == {}
    && (forall q :: q in s.acts ==> s.acts[q] == Over) && s.deacts == map[] && s.requests == map[] && s.h.pending.None?
    && g in s.probes
  }

  function WithGrant(s: System, r: nat, g: nat, id: string): System
  {
    s.(h := s.h.(grants := map[id := Grant(r, g)]))
  }

  function WithRead(s: System, r: nat, g: nat, id: string): System
  {
    s.(h := s.h.(pending := Some(Read(id, r, g))))
  }

  function WithoutRead(s: System): System
  {
    s.(h := s.h.(pending := None))
  }

  function WithoutGrant(s: System): System
  {
    s.(h := s.h.(grants := map[]))
  }

  function AskThenPath(n: nat, r: nat, ask: Ask): seq<Event>
  {
    [Requested(n, r, ask), RequestResolved(n, true)]
  }

  /** A grant and then a read under it: granted, asked, and answered. */
  lemma GrantThenRead(s: System, r: nat, g: nat, n: nat, id: string)
    requires IsReady(s, r, g) && s.h.grants == map[]
    ensures Leads(s, AskThenPath(n, r, AskGrant(id)), WithGrant(s, r, g, id))
    ensures Leads(WithGrant(s, r, g, id), AskThenPath(n, r, AskRead(id)) + [RequestResolved(n, true)], WithRead(WithGrant(s, r, g, id), r, g, id))
    ensures Leads(WithRead(WithGrant(s, r, g, id), r, g, id), [MessageArrived(g, s.probes[g], Answer(true))], WithGrant(s, r, g, id))
    ensures Leads(WithGrant(s, r, g, id), AskThenPath(n, r, AskRevoke(id, true)), s)
  {
    var granted := WithGrant(s, r, g, id);
    var reading := WithRead(granted, r, g, id);
    Asking(s, r, g, n, AskGrant(id));
    Asking(granted, r, g, n, AskRead(id));
    Asking(granted, r, g, n, AskRevoke(id, true));
    Granting(s, r, g, n, id);
    Reading(granted, r, g, n, id);
    Revoking(granted, r, g, n, id);
    assert WithoutGrant(granted) == s;
    hide Follows, Leads, IsReady, WithGrant, WithRead, WithoutGrant, Asked;
    FollowAll([s, Asked(s, r, g, n, AskGrant(id)), granted], AskThenPath(n, r, AskGrant(id)));
    FollowAll([granted, Asked(granted, r, g, n, AskRead(id)), Asked(granted, r, g, n, AskReadAuthorized(id)), reading],
              AskThenPath(n, r, AskRead(id)) + [RequestResolved(n, true)]);
    FollowAll([reading, granted], [MessageArrived(g, s.probes[g], Answer(true))]);
    FollowAll([granted, Asked(granted, r, g, n, AskRevoke(id, true)), s], AskThenPath(n, r, AskRevoke(id, true)));
  }

  function Asked(s: System, r: nat, g: nat, n: nat, ask: Ask): System
  {
    s.(requests := map[n := Request(r, g, ask)])
  }

  lemma Asking(s: System, r: nat, g: nat, n: nat, ask: Ask)
    requires IsReady(s, r, g)
    ensures Follows(s, Requested(n, r, ask), Asked(s, r, g, n, ask))
  {
  }

  lemma NoneAsked(s: System, r: nat, g: nat, n: nat, ask: Ask)
    ensures Asked(s, r, g, n, ask).requests - {n} == map[]
  {
  }

  lemma Granting(s: System, r: nat, g: nat, n: nat, id: string)
    requires IsReady(s, r, g) && s.h.grants == map[]
    ensures Follows(Asked(s, r, g, n, AskGrant(id)), RequestResolved(n, true), WithGrant(s, r, g, id))
  {
    NoneAsked(s, r, g, n, AskGrant(id));
  }

  lemma Reading(s: System, r: nat, g: nat, n: nat, id: string)
    requires IsReady(s, r, g) && s.h.grants == map[id := Grant(r, g)]
    ensures Follows(Asked(s, r, g, n, AskRead(id)), RequestResolved(n, true), Asked(s, r, g, n, AskReadAuthorized(id)))
    ensures Follows(Asked(s, r, g, n, AskReadAuthorized(id)), RequestResolved(n, true), WithRead(s, r, g, id))
    ensures Follows(WithRead(s, r, g, id), MessageArrived(g, s.probes[g], Answer(true)), s)
  {
    NoneAsked(s, r, g, n, AskRead(id));
    NoneAsked(s, r, g, n, AskReadAuthorized(id));
  }

  lemma Revoking(s: System, r: nat, g: nat, n: nat, id: string)
    requires IsReady(s, r, g) && s.h.grants == map[id := Grant(r, g)]
    ensures Follows(Asked(s, r, g, n, AskRevoke(id, true)), RequestResolved(n, true), WithoutGrant(s))
  {
    NoneAsked(s, r, g, n, AskRevoke(id, true));
    assert s.h.grants - {id} == map[];
  }

  /** A read under way ends with its grant, when it is cancelled, and when its time is up. */
  lemma ReadEnds(s: System, r: nat, g: nat, n: nat, id: string)
    requires s.h.pending == Some(Read(id, r, g)) && s.h.grants == map[id := Grant(r, g)] && IsReady(WithoutRead(s), r, g)
    ensures Leads(s, AskThenPath(n, r, AskRevoke(id, true)), WithoutGrant(WithoutRead(s)))
    ensures Leads(s, AskThenPath(n, r, AskCancel(true)), WithoutRead(s)) && Leads(s, AskThenPath(n, r, AskCancel(false)), s)
    ensures Leads(s, [ReadTimedOut], WithoutRead(s))
  {
    EndsReading(s, r, g, n, id);
    CancelsReading(s, r, g, n, id, true);
    CancelsReading(s, r, g, n, id, false);
    TimesUp(s);
    hide Follows, Leads, IsReady, WithoutRead, WithoutGrant, Asked;
    FollowAll([s, Asked(s, r, g, n, AskRevoke(id, true)), WithoutGrant(WithoutRead(s))], AskThenPath(n, r, AskRevoke(id, true)));
    FollowAll([s, Asked(s, r, g, n, AskCancel(true)), WithoutRead(s)], AskThenPath(n, r, AskCancel(true)));
    FollowAll([s, Asked(s, r, g, n, AskCancel(false)), s], AskThenPath(n, r, AskCancel(false)));
    FollowAll([s, WithoutRead(s)], [ReadTimedOut]);
  }

  lemma EndsReading(s: System, r: nat, g: nat, n: nat, id: string)
    requires s.h.pending == Some(Read(id, r, g)) && s.h.grants == map[id := Grant(r, g)] && IsReady(WithoutRead(s), r, g)
    ensures Follows(s, Requested(n, r, AskRevoke(id, true)), Asked(s, r, g, n, AskRevoke(id, true)))
    ensures Follows(Asked(s, r, g, n, AskRevoke(id, true)), RequestResolved(n, true), WithoutGrant(WithoutRead(s)))
  {
    NoneAsked(s, r, g, n, AskRevoke(id, true));
    assert s.h.grants - {id} == map[];
  }

  lemma CancelsReading(s: System, r: nat, g: nat, n: nat, id: string, matches: bool)
    requires s.h.pending == Some(Read(id, r, g)) && s.h.grants == map[id := Grant(r, g)] && IsReady(WithoutRead(s), r, g)
    ensures Follows(s, Requested(n, r, AskCancel(matches)), Asked(s, r, g, n, AskCancel(matches)))
    ensures Follows(Asked(s, r, g, n, AskCancel(matches)), RequestResolved(n, true), if matches then WithoutRead(s) else s)
  {
    NoneAsked(s, r, g, n, AskCancel(matches));
  }

  lemma TimesUp(s: System)
    requires (forall q :: q in s.acts ==> s.acts[q] == Over) && s.deacts == map[]
    ensures Follows(s, ReadTimedOut, WithoutRead(s))
  {
  }

  /** A host whose process has been asked to go. */
  function Leaving(h: Host, g: nat): Host
  {
    Host(h.hasPath, Stopping, h.child, h.port, h.exitWaiter, h.counter, h.active, None, None, {g}, h.registry, h.probeFailed, map[], h.pending)
  }

  /** A host without a process. */
  function Empty(h: Host, state: State, registry: Option<nat>): Host
  {
    Host(h.hasPath, state, None, None, None, h.counter, None, None, None, {}, registry, h.probeFailed, map[], h.pending)
  }

  /** Deactivating a ready host: whatever was granted or read goes at once, and once the
      process has gone the host is at rest. */
  lemma Deactivates(s: System, r: nat, g: nat, d: nat) returns (t: System)
    requires IsReady(s, r, g) && s.acts == map[] && s.h.grants.Values <= {Grant(r, g)}
    ensures Leads(s, [Deactivated(d, r), ChildExited(g), DeactRunsOn(d)], t)
    ensures t == s.(h := Empty(s.h, Stopped, None)) && AtRest(t)
  {
    var stopping := s.(h := Leaving(s.h, g), deacts := map[d := Deact(Some(r), WaitingFor(g))]);
    var stopped := s.(h := Empty(s.h, Stopped, Some(r)), deacts := map[d := Deact(Some(r), Exited)]);
    t := s.(h := Empty(s.h, Stopped, None));
    AskedToGo(s, r, g, d, stopping);
    Gone(stopping, stopped, r, g, d);
    hide Follows, Leads, IsReady;
    FollowAll([s, stopping, stopped, t], [Deactivated(d, r), ChildExited(g), DeactRunsOn(d)]);
  }

  lemma AskedToGo(s: System, r: nat, g: nat, d: nat, t: System)
    requires IsReady(s, r, g) && s.acts == map[] && s.h.grants.Values <= {Grant(r, g)}
    requires t == s.(h := Leaving(s.h, g), deacts := map[d := Deact(Some(r), WaitingFor(g))])
    ensures Follows(s, Deactivated(d, r), t)
  {
    assert RevokeGeneration(s.h.grants, r, g) == map[] by {
      assert forall id :: id in s.h.grants ==> s.h.grants[id] in s.h.grants.Values;
    }
  }

  lemma Gone(s: System, t: System, r: nat, g: nat, d: nat)
    requires Bare(s.h) && s.acts == map[] && s.deacts == map[d := Deact(Some(r), WaitingFor(g))] && s.h.stopping == {g}
    requires s.h.registry == Some(r) && s.h.child == Some(g) && s.h.active == Some(g)
    requires t == s.(h := Empty(s.h, Stopped, Some(r)), deacts := map[d := Deact(Some(r), Exited)])
    ensures Follows(s, ChildExited(g), t)
    ensures Follows(t, DeactRunsOn(d), t.(h := Empty(s.h, Stopped, None), deacts := map[]))
  {
    assert t.deacts - {d} == map[];
  }

  /** A failed host whose process is still there. */
  function Abandoned(s: System): System
  {
    s.(h := Host(s.h.hasPath, Failed, s.h.child, s.h.port, s.h.exitWaiter, s.h.counter, s.h.active, None, None, {}, None, s.h.probeFailed, map[], s.h.pending))
  }

  /** A process that does not go in time: the stop fails, the host counts as failed with the
      process still there, and its exit, whenever it comes, counts as unasked. */
  lemma StopTimesOutLate(s: System, r: nat, g: nat, d: nat)
    requires IsReady(s, r, g) && s.acts == map[] && s.h.grants == map[]
    ensures Leads(s, [Deactivated(d, r), DeactStopTimedOut(d), DeactRunsOn(d)], Abandoned(s))
    ensures Leads(Abandoned(s), [ChildExited(g)], s.(h := Empty(s.h, Failed, None))) && AtRest(s.(h := Empty(s.h, Failed, None)))
  {
    var stopping := s.(h := Leaving(s.h, g), deacts := map[d := Deact(Some(r), WaitingFor(g))]);
    var late := stopping.(h := stopping.h.(state := Failed, stopping := {}), deacts := map[d := Deact(Some(r), Broken)]);
    AskedToGo(s, r, g, d, stopping);
    GoesLate(stopping, late, r, g, d);
    GoesUnasked(Abandoned(s), g);
    assert late.(h := late.h.(registry := None), deacts := map[]) == Abandoned(s);
    hide Follows, Leads, IsReady;
    FollowAll([s, stopping, late, Abandoned(s)], [Deactivated(d, r), DeactStopTimedOut(d), DeactRunsOn(d)]);
    FollowAll([Abandoned(s), s.(h := Empty(s.h, Failed, None))], [ChildExited(g)]);
  }

  lemma GoesLate(s: System, t: System, r: nat, g: nat, d: nat)
    requires s.acts == map[] && s.deacts == map[d := Deact(Some(r), WaitingFor(g))] && s.h.stopping == {g} && s.h.registry == Some(r)
    requires t == s.(h := s.h.(state := Failed, stopping := {}), deacts := map[d := Deact(Some(r), Broken)])
    ensures Follows(s, DeactStopTimedOut(d), t)
    ensures Follows(t, DeactRunsOn(d), t.(h := t.h.(registry := None), deacts := map[]))
  {
    assert t.deacts - {d} == map[] && s.h.stopping - {g} == {};
    assert s.deacts[d := Deact(Some(r), Broken)] == t.deacts;
  }

  lemma GoesUnasked(t: System, g: nat)
    requires Bare(t.h) && t.acts == map[] && t.deacts == map[] && t.h.child == Some(g) && t.h.active == Some(g) && t.h.registry.None?
    requires t.h.stopping == {} && t.h.state == Failed
    ensures Follows(t, ChildExited(g), t.(h := Empty(t.h, Failed, None)))
  {
    assert DeactsAfterExit(map[], g) == map[] && ActsAfterExit(map[], g) == map[];
  }

  // --- Starts that come to nothing ---

  /** Without a fixture path an activation fails at once. */
  lemma NoPathFails(s: System, r: nat, aborted: bool)
    requires AtRest(s.(h := s.h.(hasPath := true))) && !s.h.hasPath
    ensures Leads(s, [Activated(r), ActRunsOn(r, aborted)], s.(h := s.h.(state := Failed), acts := map[r := Over]))
  {
    var failing := s.(h := s.h.(state := Failed, registry := Some(r)), acts := map[r := StartOver(false)]);
    var over := s.(h := s.h.(state := Failed), acts := map[r := Over]);
    NoPathStarts(s, r);
    NoPathEnds(s, r, aborted);
    hide Follows, Leads;
    FollowAll([s, failing, over], [Activated(r), ActRunsOn(r, aborted)]);
  }

  lemma NoPathStarts(s: System, r: nat)
    requires s.h.state != Ready && s.h.state != Starting && s.h.child.None? && s.h.registry.None? && !s.h.hasPath && s.acts == map[]
    ensures Follows(s, Activated(r), s.(h := s.h.(state := Failed, registry := Some(r)), acts := map[r := StartOver(false)]))
  {
  }

  lemma NoPathEnds(s: System, r: nat, aborted: bool)
    requires s.h.registry.None? && s.acts == map[]
    ensures Follows(s.(h := s.h.(state := Failed, registry := Some(r)), acts := map[r := StartOver(false)]), ActRunsOn(r, aborted),
                    s.(h := s.h.(state := Failed), acts := map[r := Over]))
  {
    assert map[r := StartOver(false)][r := Over] == map[r := Over];
  }

  /** The host as a start leaves it that has got no process. */
  function Stuck(h: Host, r: nat, resolution: Resolution): Host
  {
    if resolution == ForkThrows then Started(h, r).(port := Some(h.counter + 1)) else Started(h, r)
  }

  /** The failed activation has forgotten its generation; the host is still starting. */
  function Sticking(s: System, r: nat, resolution: Resolution): System
  {
    Busy(s, r, Over, Stuck(s.h, r, resolution).(registry := None), s.h.counter + 1, !s.h.probeFailed)
  }

  /** A path that cannot be resolved, or a fork that throws, fails the activation and leaves
      the host starting; until somebody stops it, no later activation can succeed. */
  lemma RejectedPathSticks(s: System, r: nat, q: nat, resolution: Resolution, aborted: bool)
    requires AtRest(s) && q != r && (resolution == Rejects || resolution == ForkThrows)
    ensures var t := Sticking(s, r, resolution);
            Leads(s, [Activated(r), PathResolved(r, resolution), ActRunsOn(r, aborted)], t)
            && Leads(t, [Activated(q), ActRunsOn(q, aborted)], t.(acts := map[r := Over, q := Over]))
            && t.h.state == Starting && t.h.child.None? && t.h.registry.None?
  {
    var g, p := s.h.counter + 1, !s.h.probeFailed;
    var h, t := Stuck(s.h, r, resolution), Sticking(s, r, resolution);
    var refused := t.(h := t.h.(registry := Some(q)), acts := map[r := Over, q := StartOver(false)]);
    Starts(s, r);
    Rejected(s, r, resolution, h, aborted);
    Refused(t, r, q, aborted);
    hide Follows, Leads, AtRest;
    FollowAll([s, Busy(s, r, Resolving(g, p), Started(s.h, r), g, p), Busy(s, r, StartOver(false), h, g, p), t],
              [Activated(r), PathResolved(r, resolution), ActRunsOn(r, aborted)]);
    FollowAll([t, refused, t.(acts := map[r := Over, q := Over])], [Activated(q), ActRunsOn(q, aborted)]);
  }

  lemma Rejected(s: System, r: nat, resolution: Resolution, h: Host, aborted: bool)
    requires AtRest(s) && (resolution == Rejects || resolution == ForkThrows)
    requires h == Stuck(s.h, r, resolution)
    ensures var g, p := s.h.counter + 1, !s.h.probeFailed;
            Follows(Busy(s, r, Resolving(g, p), Started(s.h, r), g, p), PathResolved(r, resolution), Busy(s, r, StartOver(false), h, g, p))
            && Follows(Busy(s, r, StartOver(false), h, g, p), ActRunsOn(r, aborted), Busy(s, r, Over, h.(registry := None), g, p))
  {
  }

  lemma Refused(t: System, r: nat, q: nat, aborted: bool)
    requires t.h.state == Starting && t.h.registry.None? && t.acts == map[r := Over] && q != r
    ensures var refused := t.(h := t.h.(registry := Some(q)), acts := map[r := Over, q := StartOver(false)]);
            Follows(t, Activated(q), refused) && Follows(refused, ActRunsOn(q, aborted), t.(acts := map[r := Over, q := Over]))
  {
    assert map[r := Over][q := StartOver(false)] == map[r := Over, q := StartOver(false)];
    assert map[r := Over, q := StartOver(false)][q := Over] == map[r := Over, q := Over];
  }

  /** An activation aborted while it starts stops the host again as soon as it has succeeded. */
  lemma AbortedStops(s: System, r: nat, compatible: bool) returns (t: System)
    requires AtRest(s)
    ensures var g, p := s.h.counter + 1, !s.h.probeFailed;
            Leads(s, [Activated(r), PathResolved(r, Forks), MessageArrived(g, p, SaysReady(true, compatible)), ActRunsOn(r, true), ActRunsOn(r, true),
                      ChildExited(g), ActRunsOn(r, true)], t)
    ensures t.h == s.h.(counter := s.h.counter + 1, state := Stopped) && t.acts == map[r := Over]
  {
    var g, p, h := s.h.counter + 1, !s.h.probeFailed, Forked(s.h, r);
    t := GivenBack(s, r);
    Starts(s, r);
    SaysSo(s, r, h, g, p, true, compatible);
    GivenBackIs(s, r);
    Aborts(s, r);
    hide Follows, Leads, AtRest;
    FollowAll([s, Busy(s, r, Resolving(g, p), Started(s.h, r), g, p), Busy(s, r, Handshaking(g, p, Open), h, g, p),
               Busy(s, r, Handshaking(g, p, Ok), BecomeReady(h, g), g, p), Busy(s, r, StartOver(true), BecomeReady(h, g), g, p),
               Busy(s, r, AbortStopping(WaitingFor(g)), Going(s, r), g, p), Failing(s, r, AbortStopping(Exited)), t],
              [Activated(r), PathResolved(r, Forks), MessageArrived(g, p, SaysReady(true, compatible)), ActRunsOn(r, true), ActRunsOn(r, true),
               ChildExited(g), ActRunsOn(r, true)]);
  }

  lemma Aborts(s: System, r: nat)
    requires AtRest(s)
    ensures var g, p, h := s.h.counter + 1, !s.h.probeFailed, Forked(s.h, r);
            Follows(Busy(s, r, Handshaking(g, p, Ok), BecomeReady(h, g), g, p), ActRunsOn(r, true), Busy(s, r, StartOver(true), BecomeReady(h, g), g, p))
            && Follows(Busy(s, r, StartOver(true), BecomeReady(h, g), g, p), ActRunsOn(r, true),
                       Busy(s, r, AbortStopping(WaitingFor(g)), Going(s, r), g, p))
    ensures var g, p := s.h.counter + 1, !s.h.probeFailed;
            Follows(Busy(s, r, AbortStopping(WaitingFor(g)), Going(s, r), g, p), ChildExited(g), Failing(s, r, AbortStopping(Exited)))
            && Follows(Failing(s, r, AbortStopping(Exited)), ActRunsOn(r, true), GivenBack(s, r))
  {
    AbortsReady(s, r);
    AbortsGone(s, r);
  }

  lemma AbortsReady(s: System, r: nat)
    requires AtRest(s)
    ensures var g, p, h := s.h.counter + 1, !s.h.probeFailed, Forked(s.h, r);
            Follows(Busy(s, r, Handshaking(g, p, Ok), BecomeReady(h, g), g, p), ActRunsOn(r, true), Busy(s, r, StartOver(true), BecomeReady(h, g), g, p))
            && Follows(Busy(s, r, StartOver(true), BecomeReady(h, g), g, p), ActRunsOn(r, true),
                       Busy(s, r, AbortStopping(WaitingFor(g)), Going(s, r), g, p))
  {
  }

  lemma AbortsGone(s: System, r: nat)
    requires AtRest(s)
    ensures var g, p := s.h.counter + 1, !s.h.probeFailed;
            Follows(Busy(s, r, AbortStopping(WaitingFor(g)), Going(s, r), g, p), ChildExited(g), Failing(s, r, AbortStopping(Exited)))
            && Follows(Failing(s, r, AbortStopping(Exited)), ActRunsOn(r, true), GivenBack(s, r))
  {
  }
}
