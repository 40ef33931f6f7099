/** The renderer lease bridge of src/main/plugins/renderer-lease-bridge.ts as the object it
    is. Each method is proved to be a step of its requests' table. */
module RendererLeaseBridge {
  import opened Options
  import RR = RendererRequests
  import opened RendererRequests

  lemma OneDisposed(settled: map<string, Settlement>, all: set<string>, rest: set<string>, id: string)
    requires id in rest && rest <= all
    ensures WithDisposed(settled, all - rest)[id := Disposed] == WithDisposed(settled, all - (rest - {id}))
  {
  }

  lemma NoneDisposed(settled: map<string, Settlement>, all: set<string>)
    ensures WithDisposed(settled, all - all) == settled && all - {} == all
  {
  }

  lemma NotSentYet(t: Table, id: string)
    requires Sound(t) && id !in t.pending && id !in t.settled
    ensures id !in t.sent
  {
  }

  class Bridge {
    const bridgeSessionId: string
    var pending: map<string, Pending>
    var leases: map<string, Identity>
    var requestSequence: nat
    var rendererGone: bool
    var rendererSessionId: Option<string>
    /** The ids of all requests that were ever in the table, and how each that has left it was settled. */
    ghost var sent: seq<string>
    ghost var settled: map<string, Settlement>

    constructor (bridgeSessionId: string)
      ensures Valid() && pending == map[] && settled == map[] && this.bridgeSessionId == bridgeSessionId && !Live()
      ensures Initial(View())
    {
      this.bridgeSessionId := bridgeSessionId;
      pending, leases, requestSequence, rendererGone, rendererSessionId, sent, settled := map[], map[], 0, true, None, [], map[];
    }

    ghost function View(): Table
      reads this
    {
      Table(bridgeSessionId, pending, leases, requestSequence, rendererGone, rendererSessionId, sent, settled)
    }

    /** A renderer is there, under a session with a name. */
    predicate Live()
      reads this`rendererGone, this`rendererSessionId
    {
      !rendererGone && rendererSessionId.Some? && rendererSessionId.value != ""
    }

    /** Each id sent is pending under the live session or settled, never both, and none was sent twice. */
    ghost predicate Valid()
      reads this
    {
      Sound(View())
    }

    method NextRequestId() returns (id: string)
      requires Valid()
      modifies this`requestSequence
      ensures Valid() && View() == Numbered(old(View())) && id == CurrentId(View())
      ensures id !in sent && id !in pending && id !in settled && Issued(bridgeSessionId, requestSequence, id)
      ensures requestSequence == old(requestSequence) + 1
    {
      FreshId(View());
      requestSequence := requestSequence + 1;
      return RequestId(bridgeSessionId, requestSequence);
    }

    /** Puts the request in the table and hands it to the renderer, which may throw. */
    method Dispatch(request: Pending, aborted: bool, wellFormed: bool, throws: bool) returns (call: Call)
      requires Valid() && Issued(bridgeSessionId, requestSequence, request.requestId)
      requires request.requestId !in settled
      modifies this`pending, this`settled, this`sent
      ensures Valid() && (View(), call) == Dispatched(old(View()), request, aborted, wellFormed, throws)
      ensures call == if rendererGone then RendererGone
                      else if !Live() || rendererSessionId != Some(request.session) then SessionStale
                      else if !wellFormed then RequestInvalid
                      else if request.requestId in old(pending) then IdReused
                      else if aborted then GenerationAborted
                      else if throws then NotDispatched(request.requestId)
                      else Sent(request.requestId)
      ensures pending == if call.Sent? then old(pending)[request.requestId := request] else old(pending)
      ensures settled == if call.NotDispatched? then old(settled)[request.requestId := DispatchFailed] else old(settled)
    {
      hide Sound, Issued;
      if rendererGone { return RendererGone; }
      if rendererSessionId.None? || rendererSessionId.value == "" || request.session != rendererSessionId.value { return SessionStale; }
      if !wellFormed { return RequestInvalid; }
      if request.requestId in pending { return IdReused; }
      if aborted { return GenerationAborted; }
      NotSentYet(View(), request.requestId);
      DispatchedKeeps(View(), request, aborted, wellFormed, throws);
      sent := sent + [request.requestId];
      pending := pending[request.requestId := request];
      if throws {
        pending := pending - {request.requestId};
        settled := settled[request.requestId := DispatchFailed];
        assert pending == old(pending);
        return NotDispatched(request.requestId);
      }
      return Sent(request.requestId);
    }

    /** A request leaves the table, and its promise is settled. */
    method Settle(id: string, how: Settlement)
      requires Valid() && id in pending
      modifies this`pending, this`settled
      ensures Valid() && View() == SettledAs(old(View()), id, how)
      ensures pending == old(pending) - {id} && settled == old(settled)[id := how]
    {
      hide Sound;
      SettledKeeps(View(), id, how);
      pending := pending - {id};
      settled := settled[id := how];
    }

    /** An answer counts when it names a pending request in every respect. */
    method Acknowledge(requestId: string, session: string, action: Action, identity: Identity, wellFormed: bool) returns (accepted: bool)
      requires Valid()
      modifies this`pending, this`settled
      ensures Valid()
      ensures (View(), accepted) == Answered(old(View()), Pending(requestId, session, action, identity), wellFormed)
      ensures accepted <==> wellFormed && requestId in old(pending) && old(pending)[requestId] == Pending(requestId, session, action, identity)
      ensures accepted ==> Live() && session == rendererSessionId.value
      ensures pending == (if accepted then old(pending) - {requestId} else old(pending))
      ensures settled == (if accepted then old(settled)[requestId := Acknowledged] else old(settled))
    {
      if !wellFormed { return false; }
      if requestId !in pending { return false; }
      var p := pending[requestId];
      if p.action != action || p.session != session || p.identity.pluginId != identity.pluginId
         || p.identity.leaseId != identity.leaseId || p.identity.generation != identity.generation { return false; }
      Settle(requestId, Acknowledged);
      return true;
    }

    /** The signal of a request aborts, or its time is up; nothing if it has left the table. */
    method GiveUp(requestId: string, how: Settlement)
      requires Valid() && (how == Aborted || how == TimedOut)
      modifies this`pending, this`settled
      ensures Valid() && View() == GivenUp(old(View()), requestId, how) && pending == old(pending) - {requestId}
      ensures settled == if requestId in old(pending) then old(settled)[requestId := how] else old(settled)
    {
      if requestId in pending { Settle(requestId, how); } else { assert pending - {requestId} == pending; }
    }

    /** The renderer is gone: every pending request is settled at once. */
    method RendererDisposed()
      requires Valid()
      modifies this`pending, this`settled, this`rendererGone, this`rendererSessionId
      ensures Valid() && View() == AllDisposed(old(View()))
      ensures pending == map[] && !Live() && rendererGone && rendererSessionId.None?
      ensures settled == WithDisposed(old(settled), old(pending).Keys)
    {
      hide WithDisposed;
      DisposedKeeps(View());
      SettleAll();
      rendererGone, rendererSessionId := true, None;
    }

    method SettleAll()
      requires Valid()
      modifies this`pending, this`settled
      ensures Valid() && pending == map[] && settled == WithDisposed(old(settled), old(pending).Keys)
    {
      hide Valid, WithDisposed;
      var rest := pending.Keys;
      NoneDisposed(settled, rest);
      while rest != {}
        invariant Valid() && rest == pending.Keys <= old(pending).Keys
        invariant settled == WithDisposed(old(settled), old(pending).Keys - rest)
        decreases |rest|
      {
        var id :| id in rest;
        OneDisposed(old(settled), old(pending).Keys, rest, id);
        Settle(id, Disposed);
        rest := rest - {id};
      }
      NoneDisposed(settled, old(pending).Keys);
    }

    /** A new session displaces the old one and everything that was asked of it. */
    method RendererReady(session: string) returns (displaced: map<string, Identity>)
      requires Valid()
      modifies this`pending, this`settled, this`rendererGone, this`rendererSessionId
      ensures Valid() && View() == Readied(old(View()), session)
      ensures rendererSessionId == Some(session) && !rendererGone
      ensures var same := old(rendererSessionId) == Some(session) && !old(rendererGone);
              displaced == (if same then map[] else leases)
              && pending == (if same then old(pending) else map[])
              && settled == if same then old(settled) else WithDisposed(old(settled), old(pending).Keys)
    {
      hide Sound, WithDisposed;
      ReadiedKeeps(View(), session);
      if rendererSessionId == Some(session) && !rendererGone { return map[]; }
      displaced := leases;
      RendererDisposed();
      rendererSessionId, rendererGone := Some(session), false;
    }

    // --- Leases ---

    method OpenLease(identity: Identity, aborted: bool, wellFormed: bool, throws: bool) returns (call: Call)
      requires Valid()
      modifies this`pending, this`settled, this`sent, this`leases, this`requestSequence
      ensures Valid() && (View(), call) == Opened(old(View()), identity, aborted, wellFormed, throws)
      ensures call == GenerationAborted <==> aborted
      ensures call == RendererGone <==> !aborted && !Live()
      ensures call == LeaseMismatch <==>
        !aborted && Live() && identity.leaseId in old(leases) && old(leases)[identity.leaseId] != identity
      ensures leases == if call.GenerationAborted? || call.RendererGone? || call.LeaseMismatch? then old(leases)
                        else old(leases)[identity.leaseId := identity]
      ensures call.Sent? <==>
        !aborted && Live() && wellFormed && !throws && (identity.leaseId in old(leases) ==> old(leases)[identity.leaseId] == identity)
      ensures call.Sent? ==> Live() && call.requestId !in old(pending) && call.requestId !in old(settled)
      ensures pending == if call.Sent? then old(pending)[call.requestId := Pending(call.requestId, rendererSessionId.value, OpenAction, identity)]
                         else old(pending)
      ensures settled == if call.NotDispatched? then old(settled)[call.requestId := DispatchFailed] else old(settled)
      ensures requestSequence == old(requestSequence) + if call.GenerationAborted? || call.RendererGone? || call.LeaseMismatch? then 0 else 1
      ensures call.Sent? || call.NotDispatched? ==> call.requestId == RequestId(bridgeSessionId, requestSequence)
    {
      hide Sound, RequestId, Issued, Dispatched;
      LeasesKeep(View(), leases[identity.leaseId := identity]);
      OpenedKeeps(View(), identity, aborted, wellFormed, throws);
      if aborted { return GenerationAborted; }
      if rendererGone || rendererSessionId.None? || rendererSessionId.value == "" { return RendererGone; }
      if identity.leaseId in leases && leases[identity.leaseId] != identity { return LeaseMismatch; }
      leases := leases[identity.leaseId := identity];
      var id := NextRequestId();
      call := Dispatch(Pending(id, rendererSessionId.value, OpenAction, identity), false, wellFormed, throws);
    }

    /** An opening that failed forgets its lease, unless something is pending for it. */
    method OpenRejected(leaseId: string)
      requires Valid()
      modifies this`leases
      ensures Valid() && View() == OpenFailed(old(View()), leaseId)
      ensures leases == if exists id :: id in pending && pending[id].identity.leaseId == leaseId then old(leases) else old(leases) - {leaseId}
    {
      hide Sound;
      LeasesKeep(View(), leases - {leaseId});
      var busy := exists id :: id in pending && pending[id].identity.leaseId == leaseId;
      if !busy { leases := leases - {leaseId}; }
    }

    /** Without a renderer the lease is closed at once. The number of a request is spent
        even when there is no session to send it to. */
    method CloseLease(leaseId: string, wellFormed: bool, throws: bool) returns (call: Call)
      requires Valid()
      modifies this`pending, this`settled, this`sent, this`leases, this`requestSequence
      ensures Valid() && (View(), call) == Closed(old(View()), leaseId, wellFormed, throws)
      ensures call == LeaseUnknown <==> leaseId !in old(leases)
      ensures call == Done <==> leaseId in old(leases) && rendererGone
      ensures leases == if call == Done then old(leases) - {leaseId} else old(leases)
      ensures call.Sent? <==> Live() && wellFormed && !throws && leaseId in old(leases)
      ensures call.Sent? ==> Live() && leaseId in leases && call.requestId !in old(pending) && call.requestId !in old(settled)
      ensures pending == if call.Sent? then old(pending)[call.requestId := Pending(call.requestId, rendererSessionId.value, CloseAction, leases[leaseId])]
                         else old(pending)
      ensures settled == if call.NotDispatched? then old(settled)[call.requestId := DispatchFailed] else old(settled)
      ensures requestSequence == old(requestSequence) + if leaseId in old(leases) && !rendererGone then 1 else 0
      ensures call.Sent? || call.NotDispatched? ==> call.requestId == RequestId(bridgeSessionId, requestSequence)
    {
      hide Sound, RequestId, Issued, Dispatched;
      LeasesKeep(View(), leases - {leaseId});
      if leaseId !in leases { return LeaseUnknown; }
      if rendererGone {
        leases := leases - {leaseId};
        return Done;
      }
      var id := NextRequestId();
      if rendererSessionId.None? || rendererSessionId.value == "" { return RendererGone; }
      call := Dispatch(Pending(id, rendererSessionId.value, CloseAction, leases[leaseId]), false, wellFormed, throws);
    }

    /** The renderer reports whether it has closed the lease completely. */
    method CloseAcknowledged(leaseId: string, complete: bool)
      requires Valid()
      modifies this`leases
      ensures Valid() && View() == CloseAnswered(old(View()), leaseId, complete)
      ensures leases == if complete then old(leases) - {leaseId} else old(leases)
    {
      hide Sound;
      LeasesKeep(View(), leases - {leaseId});
      if complete { leases := leases - {leaseId}; }
    }

    /** A command or a setting for a lease. */
    method Ask(leaseId: string, action: Action, aborted: bool, wellFormed: bool, throws: bool) returns (call: Call)
      requires Valid() && (action == CommandAction || action == SettingAction)
      modifies this`pending, this`settled, this`sent, this`requestSequence
      ensures Valid() && (View(), call) == Asked(old(View()), leaseId, action, aborted, wellFormed, throws)
      ensures call == LeaseUnknown <==> leaseId !in leases
      ensures call.Sent? <==> Live() && wellFormed && !throws && !aborted && leaseId in leases
      ensures call.Sent? ==> Live() && leaseId in leases && !aborted && call.requestId !in old(pending) && call.requestId !in old(settled)
      ensures pending == if call.Sent? then old(pending)[call.requestId := Pending(call.requestId, rendererSessionId.value, action, leases[leaseId])]
                         else old(pending)
      ensures settled == if call.NotDispatched? then old(settled)[call.requestId := DispatchFailed] else old(settled)
      ensures requestSequence == old(requestSequence) + if leaseId in leases then 1 else 0
      ensures call.Sent? || call.NotDispatched? ==> call.requestId == RequestId(bridgeSessionId, requestSequence)
    {
      hide Sound, RequestId, Issued, Dispatched;
      if leaseId !in leases { return LeaseUnknown; }
      var id := NextRequestId();
      if !Live() { return RendererGone; }
      call := Dispatch(Pending(id, rendererSessionId.value, action, leases[leaseId]), aborted, wellFormed, throws);
    }
  }
}
