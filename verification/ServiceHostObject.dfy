/** The service host as the object it is, with its broker and its ledger. Each method is
    proved to do what the synchronous part of the same name says. */
module ServiceHostObjects {
  import opened Options
  import SH = ServiceHosts
  import CB = CapabilityBroker
  import SL = ServiceRequestLedger

  /** The generations of the grants. */
  function Named(grants: map<string, CB.Grant>): map<string, SH.Grant>
  {
    map id | id in grants :: SH.Grant(grants[id].registryGeneration, grants[id].serviceGeneration)
  }

  lemma PurgedNamed(was: map<string, CB.Grant>, registry: nat, service: nat, now: map<string, CB.Grant>)
    requires now == map id | id in was && !CB.OfGenerations(was[id], registry, Some(service)) :: was[id]
    ensures Named(now) == SH.RevokeGeneration(Named(was), registry, service)
  {
  }

  /** The state may be set before or after the rest. */
  lemma StateFirst(h: SH.Host, state: SH.State, registry: Option<nat>, service: Option<nat>, g: nat)
    ensures SH.ClearReadiness(h.(state := state), registry, service) == SH.ClearReadiness(h, registry, service).(state := state)
    ensures SH.EndReads(h.(state := state), registry, g) == SH.EndReads(h, registry, g).(state := state)
  {
  }

  /** What a request makes of the host once its path has resolved. */
  function Answered(h: SH.Host, q: SH.Request, ok: bool): SH.Host
  {
    SH.RequestResolves(SH.System(h, map[], map[], map[0 := q], map[]), 0, ok).h
  }

  /** Whether it goes on to wait for a second path. */
  predicate Proceeds(h: SH.Host, q: SH.Request, ok: bool)
  {
    SH.RequestResolves(SH.System(h, map[], map[], map[0 := q], map[]), 0, ok).requests != map[]
  }

  lemma AnsweredAlike(s: SH.System, n: nat, ok: bool)
    requires n in s.requests
    ensures SH.RequestResolves(s, n, ok).h == Answered(s.h, s.requests[n], ok)
    ensures n in SH.RequestResolves(s, n, ok).requests <==> Proceeds(s.h, s.requests[n], ok)
  {
    hide SH.LeaseLive, SH.EndReads;
    assert map[0 := s.requests[n]] - {0} == map[];
  }

  lemma Revoking(h: SH.Host, registry: nat, service: nat, id: string, known: bool, ok: bool)
    ensures Answered(h, SH.Request(registry, service, SH.AskRevoke(id, known)), ok)
            == if ok && SH.LeaseLive(h, service) && (if id in h.grants then h.grants[id] == SH.Grant(registry, service) else known)
               then h.(grants := h.grants - {id},
                       pending := if h.pending == Some(SH.Read(id, registry, service)) then None else h.pending)
               else h
  {
    hide SH.LeaseLive;
  }

  class ServiceHost {
    const broker: CB.Broker
    const ledger: SL.Ledger
    const hasPath: bool
    var state: SH.State
    var child: Option<nat>
    var port: Option<nat>
    var exitWaiter: Option<nat>
    var generationCounter: nat
    var activeGeneration: Option<nat>
    var readyGeneration: Option<nat>
    var readyLease: Option<nat>
    var stoppingGenerations: set<nat>
    var activeRegistryGeneration: Option<nat>
    var probeFailed: bool

    constructor (broker: CB.Broker, ledger: SL.Ledger, hasPath: bool)
      requires broker.Valid() && ledger.Valid() && broker.grants == map[] && ledger.Current().None?
      ensures Valid() && SH.Bare(View()) && View().state == SH.Stopped && View().hasPath == hasPath
    {
      this.broker, this.ledger, this.hasPath := broker, ledger, hasPath;
      state, probeFailed := SH.Stopped, false;
      child, port, exitWaiter, activeGeneration, readyGeneration, readyLease := None, None, None, None, None, None;
      stoppingGenerations, activeRegistryGeneration, generationCounter := {}, None, 0;
    }

    ghost predicate Valid()
      reads this, broker, ledger
    {
      broker.Valid() && ledger.Valid()
    }

    ghost function Grants(): map<string, SH.Grant>
      reads broker
    {
      Named(broker.grants)
    }

    ghost function Pending(): Option<SH.Read>
      reads ledger
    {
      if ledger.Current().None? then None
      else var i := ledger.Current().value.identity; Some(SH.Read(i.grantId, i.registryGeneration, i.serviceGeneration))
    }

    ghost function View(): SH.Host
      reads this, broker, ledger
    {
      SH.Host(hasPath, state, child, port, exitWaiter, generationCounter, activeGeneration, readyGeneration, readyLease,
              stoppingGenerations, activeRegistryGeneration, probeFailed, Grants(), Pending())
    }

    method Revoke(registry: nat, service: nat)
      requires Valid()
      modifies broker
      ensures Valid() && Grants() == SH.RevokeGeneration(old(Grants()), registry, service)
    {
      hide CB.Broker.Valid, SL.Ledger.Valid, SH.RevokeGeneration;
      var _ := broker.RevokeGeneration(registry, Some(service));
      PurgedNamed(old(broker.grants), registry, service, broker.grants);
    }

    method ClearReadiness(registry: Option<nat>, service: Option<nat>)
      requires Valid()
      modifies this`readyGeneration, this`readyLease, broker
      ensures Valid() && View() == SH.ClearReadiness(old(View()), registry, service)
    {
      hide CB.Broker.Valid, SL.Ledger.Valid, SH.RevokeGeneration;
      if registry.Some? && service.Some? { Revoke(registry.value, service.value); }
      readyGeneration, readyLease := None, None;
    }

    /** `failGeneration` and `cancelGeneration` of the ledger. */
    method EndReads(registry: Option<nat>, service: nat, ending: SL.Ending)
      requires Valid()
      modifies ledger
      ensures Valid() && View() == SH.EndReads(old(View()), registry, service)
    {
      hide CB.Broker.Valid, SL.Ledger.Valid, Grants;
      ledger.OnePending();
      if registry.Some? { var _ := ledger.EndAll(None, registry.value, service, ending); }
    }

    method Stop() returns (wait: SH.Wait)
      requires Valid()
      modifies this, broker, ledger
      ensures Valid() && (View(), wait) == SH.Stop(old(View()))
    {
      hide CB.Broker.Valid, SL.Ledger.Valid, SH.RevokeGeneration, SH.EndReads, SH.ClearReadiness, Grants, Pending;
      StateFirst(View(), SH.Stopped, activeRegistryGeneration, activeGeneration, 0);
      StateFirst(View(), SH.Failed, activeRegistryGeneration, activeGeneration, 0);
      if child.None? || activeGeneration.None? {
        state := SH.Stopped;
        ClearReadiness(activeRegistryGeneration, activeGeneration);
        port, child, activeGeneration, exitWaiter := None, None, None, None;
        return SH.Exited;
      }
      if exitWaiter != child || exitWaiter != activeGeneration {
        state := SH.Failed;
        ClearReadiness(activeRegistryGeneration, activeGeneration);
        return SH.Broken;
      }
      var generation := activeGeneration.value;
      StateFirst(View(), SH.Stopping, activeRegistryGeneration, activeGeneration, generation);
      StateFirst(SH.ClearReadiness(View(), activeRegistryGeneration, activeGeneration), SH.Stopping, activeRegistryGeneration, None, generation);
      state := SH.Stopping;
      ClearReadiness(activeRegistryGeneration, activeGeneration);
      EndReads(activeRegistryGeneration, generation, SL.Cancelled);
      stoppingGenerations := stoppingGenerations + {generation};
      return SH.WaitingFor(generation);
    }

    method Start() returns (started: SH.Started)
      requires Valid()
      modifies this, broker
      ensures Valid() && (View(), started) == SH.Start(old(View()))
    {
      hide CB.Broker.Valid, SL.Ledger.Valid, SH.RevokeGeneration, SH.ClearReadiness, Grants, Pending;
      if state == SH.Ready { return SH.AlreadyReady; }
      if child.Some? || state == SH.Starting { return SH.Refused; }
      if !hasPath {
        state := SH.Failed;
        return SH.Refused;
      }
      generationCounter := generationCounter + 1;
      activeGeneration := Some(generationCounter);
      ClearReadiness(activeRegistryGeneration, activeGeneration);
      state := SH.Starting;
      return SH.Resolves(generationCounter);
    }

    method Fork(generation: nat)
      requires Valid()
      modifies this`port, this`child, this`exitWaiter
      ensures Valid() && View() == SH.Fork(old(View()), generation)
    {
      hide CB.Broker.Valid, SL.Ledger.Valid, Grants, Pending;
      port, child, exitWaiter := Some(generation), Some(generation), Some(generation);
    }

    method FailGeneration(generation: nat)
      requires Valid()
      modifies this, broker, ledger
      ensures Valid() && View() == SH.FailGeneration(old(View()), generation)
    {
      hide CB.Broker.Valid, SL.Ledger.Valid, SH.RevokeGeneration, SH.EndReads, SH.ClearReadiness, Grants, Pending;
      if Some(generation) != activeGeneration { return; }
      StateFirst(View(), SH.Failed, activeRegistryGeneration, Some(generation), generation);
      state := SH.Failed;
      ClearReadiness(activeRegistryGeneration, Some(generation));
      EndReads(activeRegistryGeneration, generation, SL.Failed);
    }

    /** The process of `generation` exits; whether it was asked to is remembered until now. */
    method ChildExits(generation: nat)
      requires Valid()
      modifies this, broker, ledger
      ensures Valid() && View() == SH.ChildExits(old(View()), generation)
    {
      hide CB.Broker.Valid, SL.Ledger.Valid, SH.RevokeGeneration, SH.EndReads, SH.ClearReadiness, Grants, Pending;
      var intentional := generation in stoppingGenerations;
      if child != Some(generation) || activeGeneration != Some(generation) {
        stoppingGenerations := stoppingGenerations - {generation};
        return;
      }
      ClearReadiness(activeRegistryGeneration, Some(generation));
      EndReads(activeRegistryGeneration, generation, SL.Failed);
      stoppingGenerations := stoppingGenerations - {generation};
      port, child, activeGeneration, exitWaiter := None, None, None, None;
      if intentional {
        state := SH.Stopped;
      } else {
        state := SH.Failed;
        activeRegistryGeneration := None;
      }
    }

    method BecomeReady(generation: nat)
      requires Valid()
      modifies this`state, this`readyGeneration, this`readyLease
      ensures Valid() && View() == SH.BecomeReady(old(View()), generation)
    {
      hide CB.Broker.Valid, SL.Ledger.Valid, Grants, Pending;
      state, readyGeneration, readyLease := SH.Ready, Some(generation), Some(generation);
    }

    /** The answer to a read comes from the process of `generation`. */
    method Answer(correlationId: string, generation: nat, ok: bool) returns (accepted: bool)
      requires Valid()
      modifies ledger
      ensures Valid()
      ensures var p := old(ledger.Current());
              var matches := p.Some? && p.value.correlationId == correlationId;
              View() == SH.Receives(SH.System(old(View()), map[], map[], map[], map[]), generation, false, SH.Answer(matches)).h
              && (accepted <==> matches && activeGeneration == Some(generation)
                                && activeRegistryGeneration == Some(p.value.identity.registryGeneration)
                                && p.value.identity.serviceGeneration == generation)
    {
      hide CB.Broker.Valid, SL.Ledger.Valid, Grants;
      if activeGeneration != Some(generation) || activeRegistryGeneration.None? { return false; }
      ledger.OnePending();
      var outcome := ledger.Settle(correlationId, activeRegistryGeneration.value, generation, ok);
      return outcome == SL.Accepted;
    }

    /** A read's timer runs out. */
    method ReadTimesOut(pending: SL.Pending)
      requires Valid() && pending in ledger.begun
      modifies ledger
      ensures Valid()
      ensures View() == if old(ledger.Current()) == Some(pending) then old(View()).(pending := None) else old(View())
    {
      hide CB.Broker.Valid, SL.Ledger.Valid, Grants;
      ledger.OnePending();
      ledger.Finish(pending, SL.TimedOut);
    }

    /** The readiness lease that a request captured is still live. */
    function LeaseLive(service: nat): (live: bool)
      reads this, broker, ledger
      ensures live == SH.LeaseLive(View(), service)
    {
      readyLease == Some(service) && state == SH.Ready && child == Some(service) && port == Some(service)
      && activeGeneration == Some(service) && readyGeneration == Some(service)
    }

    /** `grant-read`, once its path has resolved. */
    method Grant(registry: nat, service: nat, id: string, root: string, ok: bool) returns (granted: bool)
      requires Valid() && id !in broker.grants && id !in broker.revoked && id != ""
      modifies broker
      ensures Valid()
      ensures View() == Answered(old(View()), SH.Request(registry, service, SH.AskGrant(id)), ok && registry > 0 && service > 0)
      ensures granted <==> ok && old(SH.LeaseLive(View(), service)) && registry > 0 && service > 0 && old(broker.grants) == map[]
    {
      hide SL.Ledger.Valid, Pending;
      if !ok || !LeaseLive(service) { return false; }
      var reply := broker.GrantRead(id, root, registry, service);
      NoneNamed(old(broker.grants));
      return reply.Granted?;
    }

    /** `revoke-grant`; `shown` is the grant that the capability snapshot shows. */
    method RevokeGrant(registry: nat, service: nat, id: string, shown: Option<string>, ok: bool) returns (revoked: bool)
      requires Valid()
      modifies broker, ledger
      ensures Valid()
      ensures var known := id in old(broker.revoked) && shown == Some(id);
              View() == Answered(old(View()), SH.Request(registry, service, SH.AskRevoke(id, known)), ok)
              && (revoked <==> ok && old(SH.LeaseLive(View(), service))
                               && if id in old(Grants()) then old(Grants())[id] == SH.Grant(registry, service) else known)
    {
      hide CB.Broker.Valid, SL.Ledger.Valid, SH.LeaseLive, Named, Answered, Pending;
      Revoking(View(), registry, service, id, id in broker.revoked && shown == Some(id), ok);
      if !ok || !LeaseLive(service) { return false; }
      revoked := Withdraw(registry, service, id, shown);
      if revoked { CancelReads(registry, service, id); }
    }

    /** The broker's part of it. */
    method Withdraw(registry: nat, service: nat, id: string, shown: Option<string>) returns (revoked: bool)
      requires Valid()
      modifies broker
      ensures Valid()
      ensures revoked <==> if id in old(Grants()) then old(Grants())[id] == SH.Grant(registry, service)
                           else id in old(broker.revoked) && shown == Some(id)
      ensures Grants() == if revoked then old(Grants()) - {id} else old(Grants())
    {
      hide SL.Ledger.Valid;
      NamedWithout(broker.grants, id);
      var reply := broker.Revoke(id, Some(registry), Some(service));
      return reply.Revoked? || (reply.AlreadyRevoked? && shown == Some(id));
    }

    /** The ledger's. */
    method CancelReads(registry: nat, service: nat, id: string)
      requires Valid()
      modifies ledger
      ensures Valid()
      ensures Pending() == if old(Pending()) == Some(SH.Read(id, registry, service)) then None else old(Pending())
    {
      hide CB.Broker.Valid, SL.Ledger.Valid;
      ledger.OnePending();
      var _ := ledger.EndAll(Some(id), registry, service, SL.Cancelled);
    }

    /** `cancel-request` of the request that the renderer calls `target`. */
    method CancelRequest(registry: nat, service: nat, target: string, ok: bool) returns (cancelled: bool)
      requires Valid()
      modifies ledger
      ensures Valid()
      ensures var p := old(ledger.Current());
              var matches := p.Some? && p.value.identity.rendererRequestId == target;
              View() == Answered(old(View()), SH.Request(registry, service, SH.AskCancel(matches)), ok)
              && (cancelled <==> ok && old(SH.LeaseLive(View(), service)) && matches
                                 && p.value.identity.registryGeneration == registry && p.value.identity.serviceGeneration == service)
    {
      hide CB.Broker.Valid, SL.Ledger.Valid, SH.LeaseLive, Grants;
      if !ok || !LeaseLive(service) { return false; }
      ledger.OnePending();
      var outcome := ledger.Cancel(target, registry, service);
      return outcome == SL.Accepted;
    }

    /** A read, once its first path has resolved: it goes on under the grant it names. */
    method AuthorizeRead(registry: nat, service: nat, id: string, inside: bool, ok: bool) returns (grant: Option<CB.Grant>)
      requires Valid()
      modifies broker`denials
      ensures Valid()
      ensures var q := SH.Request(registry, service, SH.AskRead(id));
              View() == Answered(old(View()), q, ok && inside) && (grant.Some? <==> Proceeds(old(View()), q, ok && inside))
    {
      hide SL.Ledger.Valid, SH.LeaseLive, Pending;
      if !ok || !LeaseLive(service) { return None; }
      grant := broker.AuthorizeRead(id, inside, registry, service);
    }

    /** A read, once its target has resolved inside the grant. */
    method BeginRead(registry: nat, service: nat, id: string, rendererRequestId: string, token: string, ok: bool) returns (start: Option<SL.Start>)
      requires Valid() && |token| == ledger.tokenWidth
      modifies ledger
      ensures Valid()
      ensures var duplicate := SL.EndedRecently(old(ledger.ended), rendererRequestId);
              View() == Answered(old(View()), SH.Request(registry, service, SH.AskReadAuthorized(id)), ok && !duplicate)
              && (start.Some? <==> ok && old(SH.LeaseLive(View(), service)))
              && (start.Some? ==> (start.value.Begun? <==> old(ledger.Current()).None? && !duplicate))
    {
      hide CB.Broker.Valid, SL.Ledger.Valid, SH.LeaseLive, SL.EndedRecently, Grants;
      if !ok || !LeaseLive(service) { return None; }
      ledger.OnePending();
      var begun := ledger.Begin(SL.Identity(rendererRequestId, id, registry, service), token);
      assert begun.Begun? ==> Pending() == Some(SH.Read(id, registry, service));
      assert !begun.Begun? ==> Pending() == old(Pending());
      return Some(begun);
    }
  }

  lemma NoneNamed(grants: map<string, CB.Grant>)
    ensures Named(grants) == map[] <==> grants == map[]
  {
    if grants != map[] {
      var id :| id in grants;
      assert id in Named(grants);
    }
  }

  lemma NamedWithout(grants: map<string, CB.Grant>, id: string)
    ensures grants.Keys == {id} ==> Named(grants) - {id} == map[]
    ensures id !in grants ==> Named(grants) - {id} == Named(grants)
  {
  }
}
