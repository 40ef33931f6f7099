/** The table of requests of src/main/plugins/renderer-lease-bridge.ts, step by step and over whole runs. */
module RendererRequests {
  import opened Options
  import opened Numerals

  datatype Identity = Identity(pluginId: string, leaseId: string, generation: nat)

  datatype Action = OpenAction | CloseAction | CommandAction | SettingAction

  datatype Pending = Pending(requestId: string, session: string, action: Action, identity: Identity)

  /** How the promise of a request was settled. */
  datatype Settlement = Acknowledged | Aborted | TimedOut | Disposed | DispatchFailed

  /** What a call comes to before the renderer answers. */
  datatype Call = Sent(requestId: string) | Done | GenerationAborted | RendererGone | LeaseMismatch | LeaseUnknown
    | SessionStale | RequestInvalid | IdReused | NotDispatched(requestId: string)

  function RequestId(bridge: string, n: nat): string
  {
    "renderer:" + bridge + ":" + Numeral(n, Ten)
  }

  /** No request id is used twice. */
  lemma RequestIdsDiffer(bridge: string, m: nat, n: nat)
    requires RequestId(bridge, m) == RequestId(bridge, n)
    ensures m == n
  {
    var p := "renderer:" + bridge + ":";
    assert Numeral(m, Ten) == RequestId(bridge, m)[|p|..] && Numeral(n, Ten) == RequestId(bridge, n)[|p|..];
    NumeralsDiffer(m, n, Ten);
  }

  /** The bridge's fields, and what has become of its promises: `sent` are the ids of all
      requests that were ever in the table, in order, `settled` those of them whose promise
      has been settled, and how. */
  datatype Table = Table(
    bridge: string,
    pending: map<string, Pending>,
    leases: map<string, Identity>,
    sequence: nat,
    gone: bool,
    session: Option<string>,
    sent: seq<string>,
    settled: map<string, Settlement>)

  /** A renderer is there, under a session with a name. */
  predicate Live(t: Table)
  {
    !t.gone && t.session.Some? && t.session.value != ""
  }

  // --- Steps ---

  function Numbered(t: Table): Table
  {
    t.(sequence := t.sequence + 1)
  }

  function CurrentId(t: Table): string
  {
    RequestId(t.bridge, t.sequence)
  }

  /** Put the request in the table and hand it to the renderer, which may throw. */
  function Dispatched(t: Table, request: Pending, aborted: bool, wellFormed: bool, throws: bool): (Table, Call)
  {
    if t.gone then (t, RendererGone)
    else if !Live(t) || t.session != Some(request.session) then (t, SessionStale)
    else if !wellFormed then (t, RequestInvalid)
    else if request.requestId in t.pending then (t, IdReused)
    else if aborted then (t, GenerationAborted)
    else
      var sent := t.sent + [request.requestId];
      if throws then (t.(sent := sent, settled := t.settled[request.requestId := DispatchFailed]), NotDispatched(request.requestId))
      else (t.(sent := sent, pending := t.pending[request.requestId := request]), Sent(request.requestId))
  }

  function SettledAs(t: Table, id: string, how: Settlement): Table
  {
    t.(pending := t.pending - {id}, settled := t.settled[id := how])
  }

  function Opened(t: Table, identity: Identity, aborted: bool, wellFormed: bool, throws: bool): (Table, Call)
  {
    if aborted then (t, GenerationAborted)
    else if !Live(t) then (t, RendererGone)
    else if identity.leaseId in t.leases && t.leases[identity.leaseId] != identity then (t, LeaseMismatch)
    else
      var leased := Numbered(t.(leases := t.leases[identity.leaseId := identity]));
      Dispatched(leased, Pending(CurrentId(leased), t.session.value, OpenAction, identity), false, wellFormed, throws)
  }

  predicate Busy(t: Table, leaseId: string)
  {
    exists id :: id in t.pending && t.pending[id].identity.leaseId == leaseId
  }

  function OpenFailed(t: Table, leaseId: string): Table
  {
    if Busy(t, leaseId) then t else t.(leases := t.leases - {leaseId})
  }

  /** A numbered request to the renderer for a known lease. */
  function Asked(t: Table, leaseId: string, action: Action, aborted: bool, wellFormed: bool, throws: bool): (Table, Call)
  {
    if leaseId !in t.leases then (t, LeaseUnknown)
    else if !Live(t) then (Numbered(t), RendererGone)
    else
      Dispatched(Numbered(t), Pending(CurrentId(Numbered(t)), t.session.value, action, t.leases[leaseId]), aborted, wellFormed, throws)
  }

  function Closed(t: Table, leaseId: string, wellFormed: bool, throws: bool): (Table, Call)
  {
    if leaseId in t.leases && t.gone then (t.(leases := t.leases - {leaseId}), Done)
    else Asked(t, leaseId, CloseAction, false, wellFormed, throws)
  }

  function CloseAnswered(t: Table, leaseId: string, complete: bool): Table
  {
    if complete then t.(leases := t.leases - {leaseId}) else t
  }

  function Answered(t: Table, answer: Pending, wellFormed: bool): (Table, bool)
  {
    if wellFormed && answer.requestId in t.pending && t.pending[answer.requestId] == answer
    then (SettledAs(t, answer.requestId, Acknowledged), true)
    else (t, false)
  }

  function GivenUp(t: Table, id: string, how: Settlement): Table
  {
    if id in t.pending then SettledAs(t, id, how) else t
  }

  /** The given requests settled for want of a renderer. */
  function WithDisposed(settled: map<string, Settlement>, ids: set<string>): map<string, Settlement>
  {
    settled + map id | id in ids :: Disposed
  }

  function AllDisposed(t: Table): Table
  {
    t.(pending := map[], settled := WithDisposed(t.settled, t.pending.Keys), gone := true, session := None)
  }

  function Readied(t: Table, session: string): Table
  {
    if t.session == Some(session) && !t.gone then t else AllDisposed(t).(session := Some(session), gone := false)
  }

  datatype Event =
    | OpenCalled(identity: Identity, aborted: bool, wellFormed: bool, throws: bool)
    | OpenRejected(leaseId: string)
    | CloseCalled(leaseId: string, wellFormed: bool, throws: bool)
    | CloseAcknowledged(leaseId: string, complete: bool)
    | CommandCalled(leaseId: string, aborted: bool, wellFormed: bool, throws: bool)
    | SettingCalled(leaseId: string, aborted: bool, wellFormed: bool, throws: bool)
    | AnswerArrived(answer: Pending, wellFormed: bool)
    | SignalAborted(id: string)
    | TimeUp(id: string)
    | RendererDisposed
    | RendererReady(session: string)

  /** Any event may come at any time. */
  function Next(t: Table, event: Event): Table
  {
    match event
    case OpenCalled(identity, aborted, wellFormed, throws) => Opened(t, identity, aborted, wellFormed, throws).0
    case OpenRejected(leaseId) => OpenFailed(t, leaseId)
    case CloseCalled(leaseId, wellFormed, throws) => Closed(t, leaseId, wellFormed, throws).0
    case CloseAcknowledged(leaseId, complete) => CloseAnswered(t, leaseId, complete)
    case CommandCalled(leaseId, aborted, wellFormed, throws) => Asked(t, leaseId, CommandAction, aborted, wellFormed, throws).0
    case SettingCalled(leaseId, aborted, wellFormed, throws) => Asked(t, leaseId, SettingAction, aborted, wellFormed, throws).0
    case AnswerArrived(answer, wellFormed) => Answered(t, answer, wellFormed).0
    case SignalAborted(id) => GivenUp(t, id, Aborted)
    case TimeUp(id) => GivenUp(t, id, TimedOut)
    case RendererDisposed => AllDisposed(t)
    case RendererReady(session) => Readied(t, session)
  }

  // --- What every step keeps ---

  /** The id is that of one of the first n numbers. */
  ghost predicate Issued(bridge: string, n: nat, id: string)
  {
    exists k: nat :: k <= n && id == RequestId(bridge, k)
  }

  ghost predicate OneOf(pending: map<string, Pending>, settled: map<string, Settlement>, sent: seq<string>)
  {
    (forall id :: id in sent <==> id in pending || id in settled)
    && (forall id :: id in pending ==> id !in settled)
    && (forall i, j :: 0 <= i < j < |sent| ==> sent[i] != sent[j])
  }

  ghost predicate Sound(t: Table)
  {
    (forall id :: id in t.pending ==> t.pending[id].requestId == id && Live(t) && Some(t.pending[id].session) == t.session)
    && OneOf(t.pending, t.settled, t.sent)
    && (forall id :: id in t.sent ==> Issued(t.bridge, t.sequence, id))
  }

  /** What was sent stays sent, and what was settled stays settled, in the same way. */
  ghost predicate Later(t: Table, u: Table)
  {
    u.bridge == t.bridge && t.sequence <= u.sequence && t.sent <= u.sent
    && forall id :: id in t.settled ==> id in u.settled && u.settled[id] == t.settled[id]
  }

  /** The next number's id has never been sent. */
  lemma FreshId(t: Table)
    requires Sound(t)
    ensures Sound(Numbered(t)) && CurrentId(Numbered(t)) !in t.sent
    ensures CurrentId(Numbered(t)) !in t.pending && CurrentId(Numbered(t)) !in t.settled
    ensures Issued(t.bridge, t.sequence + 1, CurrentId(Numbered(t)))
  {
    hide RequestId;
    var id := CurrentId(Numbered(t));
    forall other | other in t.sent ensures Issued(t.bridge, t.sequence + 1, other) && other != id {
      var k: nat :| k <= t.sequence && other == RequestId(t.bridge, k);
      if other == id { RequestIdsDiffer(t.bridge, k, t.sequence + 1); }
    }
  }

  lemma SendKeeps(pending: map<string, Pending>, settled: map<string, Settlement>, sent: seq<string>, id: string, p: Pending, how: Settlement)
    requires OneOf(pending, settled, sent) && id !in sent
    ensures OneOf(pending[id := p], settled, sent + [id]) && OneOf(pending, settled[id := how], sent + [id])
  {
  }

  lemma DispatchedKeeps(t: Table, request: Pending, aborted: bool, wellFormed: bool, throws: bool)
    requires Sound(t) && Issued(t.bridge, t.sequence, request.requestId) && request.requestId !in t.sent
    ensures var u := Dispatched(t, request, aborted, wellFormed, throws).0; Sound(u) && Later(t, u)
    ensures Dispatched(t, request, aborted, wellFormed, throws).1 != IdReused
  {
    hide OneOf, Issued;
    assert request.requestId !in t.pending && request.requestId !in t.settled by { NotSent(t, request.requestId); }
    SendKeeps(t.pending, t.settled, t.sent, request.requestId, request, DispatchFailed);
  }

  lemma NotSent(t: Table, id: string)
    requires Sound(t) && id !in t.sent
    ensures id !in t.pending && id !in t.settled
  {
  }

  lemma SettledKeeps(t: Table, id: string, how: Settlement)
    requires Sound(t) && id in t.pending
    ensures Sound(SettledAs(t, id, how)) && Later(t, SettledAs(t, id, how))
  {
    hide Issued;
  }

  lemma DisposedKeeps(t: Table)
    requires Sound(t)
    ensures Sound(AllDisposed(t)) && Later(t, AllDisposed(t))
  {
    hide Issued;
  }

  /** Leases, and a session with nothing pending, are no part of it. */
  lemma LeasesKeep(t: Table, leases: map<string, Identity>)
    requires Sound(t)
    ensures Sound(t.(leases := leases)) && Later(t, t.(leases := leases))
  {
    hide OneOf, Issued;
  }

  lemma ReadiedKeeps(t: Table, session: string)
    requires Sound(t)
    ensures Sound(Readied(t, session)) && Later(t, Readied(t, session))
  {
    hide OneOf, Issued;
    DisposedKeeps(t);
  }

  lemma AskedKeeps(t: Table, leaseId: string, action: Action, aborted: bool, wellFormed: bool, throws: bool)
    requires Sound(t)
    ensures var (u, call) := Asked(t, leaseId, action, aborted, wellFormed, throws); Sound(u) && Later(t, u) && call != IdReused
  {
    hide Sound, Dispatched;
    FreshId(t);
    NumberedLater(t);
    if leaseId in t.leases && Live(t) {
      var request := Pending(CurrentId(Numbered(t)), t.session.value, action, t.leases[leaseId]);
      DispatchedKeeps(Numbered(t), request, aborted, wellFormed, throws);
    }
  }

  lemma NumberedLater(t: Table)
    ensures Later(t, Numbered(t)) && Later(t, t)
  {
  }

  lemma OpenedKeeps(t: Table, identity: Identity, aborted: bool, wellFormed: bool, throws: bool)
    requires Sound(t)
    ensures var (u, call) := Opened(t, identity, aborted, wellFormed, throws); Sound(u) && Later(t, u) && call != IdReused
  {
    hide Sound, Dispatched;
    NumberedLater(t);
    var leased := t.(leases := t.leases[identity.leaseId := identity]);
    LeasesKeep(t, leased.leases);
    FreshId(leased);
    if Live(t) {
      DispatchedKeeps(Numbered(leased), Pending(CurrentId(Numbered(leased)), t.session.value, OpenAction, identity), false, wellFormed, throws);
    }
  }

  lemma ClosedKeeps(t: Table, leaseId: string, wellFormed: bool, throws: bool)
    requires Sound(t)
    ensures var (u, call) := Closed(t, leaseId, wellFormed, throws); Sound(u) && Later(t, u) && call != IdReused
  {
    hide Sound, Later, Asked;
    LeasesKeep(t, t.leases - {leaseId});
    AskedKeeps(t, leaseId, CloseAction, false, wellFormed, throws);
  }

  /** Every event keeps it, and takes nothing back. */
  lemma NextKeeps(t: Table, event: Event)
    requires Sound(t)
    ensures Sound(Next(t, event)) && Later(t, Next(t, event))
  {
    hide Sound, Later, Opened, Closed, Asked, SettledAs, AllDisposed, Readied;
    NumberedLater(t);
    match event
    case OpenCalled(identity, aborted, wellFormed, throws) => OpenedKeeps(t, identity, aborted, wellFormed, throws);
    case OpenRejected(leaseId) => LeasesKeep(t, t.leases - {leaseId});
    case CloseCalled(leaseId, wellFormed, throws) => ClosedKeeps(t, leaseId, wellFormed, throws);
    case CloseAcknowledged(leaseId, _) => LeasesKeep(t, t.leases - {leaseId});
    case CommandCalled(leaseId, aborted, wellFormed, throws) => AskedKeeps(t, leaseId, CommandAction, aborted, wellFormed, throws);
    case SettingCalled(leaseId, aborted, wellFormed, throws) => AskedKeeps(t, leaseId, SettingAction, aborted, wellFormed, throws);
    case AnswerArrived(answer, _) => if answer.requestId in t.pending { SettledKeeps(t, answer.requestId, Acknowledged); }
    case SignalAborted(id) => if id in t.pending { SettledKeeps(t, id, Aborted); }
    case TimeUp(id) => if id in t.pending { SettledKeeps(t, id, TimedOut); }
    case RendererDisposed => DisposedKeeps(t);
    case RendererReady(session) => ReadiedKeeps(t, session);
  }

  // --- Whole runs ---

  ghost predicate Initial(t: Table)
  {
    t.pending == map[] && t.leases == map[] && t.sequence == 0 && t.gone && t.session.None? && t.sent == [] && t.settled == map[]
  }

  /** Tables in the order in which the events brought them about. */
  ghost predicate Run(tables: seq<Table>, events: seq<Event>)
  {
    |tables| == |events| + 1 && Initial(tables[0])
    && forall i :: 0 <= i < |events| ==> var j := i + 1; tables[j] == Next(tables[i], events[i])
  }

  lemma {:induction false} RunSound(tables: seq<Table>, events: seq<Event>, n: nat)
    requires Run(tables, events) && n < |tables|
    ensures Sound(tables[n])
  {
    hide Next, Sound;
    if n == 0 {
      InitialSound(tables[0]);
    } else {
      var m := n - 1;
      RunSound(tables, events, m);
      NextKeeps(tables[m], events[m]);
      assert tables[n] == Next(tables[m], events[m]) by { var j := m + 1; assert tables[j] == Next(tables[m], events[m]); }
    }
  }

  lemma InitialSound(t: Table)
    requires Initial(t)
    ensures Sound(t)
  {
  }

  lemma LaterTwice(t: Table, u: Table, v: Table)
    requires Later(t, u) && Later(u, v)
    ensures Later(t, v)
  {
  }

  lemma {:induction false} RunLater(tables: seq<Table>, events: seq<Event>, m: nat, n: nat)
    requires Run(tables, events) && m <= n < |tables|
    ensures Later(tables[m], tables[n])
    decreases n
  {
    hide Next, Sound, Later;
    if m == n {
      NumberedLater(tables[m]);
    } else {
      var k := n - 1;
      RunLater(tables, events, m, k);
      RunSound(tables, events, k);
      NextKeeps(tables[k], events[k]);
      assert tables[n] == Next(tables[k], events[k]) by { var j := k + 1; assert tables[j] == Next(tables[k], events[k]); }
      LaterTwice(tables[m], tables[k], tables[n]);
    }
  }

  /** At every moment, each id ever sent is either pending, under the live session, or
      settled, never both; nothing else is either, and no id has been sent twice. */
  lemma OneOfTwo(tables: seq<Table>, events: seq<Event>, n: nat, id: string)
    requires Run(tables, events) && n < |tables|
    ensures var t := tables[n];
            (id in t.sent <==> id in t.pending || id in t.settled) && !(id in t.pending && id in t.settled)
            && (id in t.pending ==> t.pending[id].requestId == id && Live(t) && t.session == Some(t.pending[id].session))
            && forall i, j :: 0 <= i < j < |t.sent| ==> t.sent[i] != t.sent[j]
  {
    hide Run, Issued;
    RunSound(tables, events, n);
  }

  /** A request once settled stays settled, in the same way; it is never pending again and
      no answer to it is accepted any more. */
  lemma SettledForGood(tables: seq<Table>, events: seq<Event>, m: nat, n: nat, id: string)
    requires Run(tables, events) && m <= n < |tables| && id in tables[m].settled
    ensures id in tables[n].settled && tables[n].settled[id] == tables[m].settled[id] && id !in tables[n].pending
    ensures forall answer: Pending, wellFormed: bool :: answer.requestId == id ==> !Answered(tables[n], answer, wellFormed).1
  {
    hide Run;
    RunLater(tables, events, m, n);
    OneOfTwo(tables, events, n, id);
  }

  /** What an event sends has never been sent before. */
  lemma SentOnce(tables: seq<Table>, events: seq<Event>, m: nat, n: nat, id: string)
    requires Run(tables, events) && m <= n < |events| && id in tables[n + 1].sent && id !in tables[n].sent
    ensures id !in tables[m].sent && id !in tables[m].pending && id !in tables[m].settled
  {
    hide Sound, Next;
    RunLater(tables, events, m, n);
    RunSound(tables, events, m);
    if id in tables[m].sent { Kept(tables[m], tables[n], id); }
    NotSent(tables[m], id);
  }

  lemma Kept(t: Table, u: Table, id: string)
    requires Later(t, u) && id in t.sent
    ensures id in u.sent
  {
    var i :| 0 <= i < |t.sent| && t.sent[i] == id;
    assert u.sent[i] == id;
  }

  /** A request that was pending and is no longer has left the table at just one event,
      and was settled by it. */
  lemma LeavesOnce(tables: seq<Table>, events: seq<Event>, m: nat, n: nat, id: string) returns (at: nat)
    requires Run(tables, events) && m <= n < |tables| && id in tables[m].pending && id !in tables[n].pending
    ensures m <= at < n && id in tables[at].pending && id !in tables[at].settled
    ensures id !in tables[at + 1].pending && id in tables[at + 1].settled
    ensures forall k: nat :: m <= k < |tables| ==> (id in tables[k].pending <==> k <= at)
  {
    hide Run, Sound, Next, Later;
    at := m;
    while id in tables[at + 1].pending
      invariant m <= at < n && id in tables[at].pending
      invariant forall k: nat :: m <= k <= at ==> id in tables[k].pending
      decreases n - at
    {
      at := at + 1;
    }
    OneOfTwo(tables, events, at, id);
    OneOfTwo(tables, events, at + 1, id);
    RunLater(tables, events, at, at + 1);
    Kept(tables[at], tables[at + 1], id);
    forall k: nat | at < k < |tables| ensures id !in tables[k].pending {
      SettledForGood(tables, events, at + 1, k, id);
    }
  }

  /** What can take a request from the table, and how each settles it. */
  lemma LeavesBy(t: Table, event: Event, id: string)
    requires Sound(t) && id in t.pending && id !in Next(t, event).pending
    ensures id in Next(t, event).settled
    ensures match Next(t, event).settled[id]
            case Acknowledged => event == AnswerArrived(t.pending[id], true)
            case Aborted => event == SignalAborted(id)
            case TimedOut => event == TimeUp(id)
            case Disposed => event == RendererDisposed
                             || (event.RendererReady? && (t.gone || t.session != Some(event.session)))
            case DispatchFailed => false
  {
    hide OneOf, Issued, Opened, Closed, Asked;
    match event
    case OpenCalled(identity, aborted, wellFormed, throws) => OpenedSends(t, identity, aborted, wellFormed, throws);
    case CloseCalled(leaseId, wellFormed, throws) => ClosedSends(t, leaseId, wellFormed, throws);
    case CommandCalled(leaseId, aborted, wellFormed, throws) => AskedSends(t, leaseId, CommandAction, aborted, wellFormed, throws);
    case SettingCalled(leaseId, aborted, wellFormed, throws) => AskedSends(t, leaseId, SettingAction, aborted, wellFormed, throws);
    case _ =>
  }

  /** A call only adds to the table, and only what it sends, under the number it has drawn. */
  ghost predicate Sends(t: Table, u: Table, call: Call)
  {
    t.sequence <= u.sequence <= t.sequence + 1
    && (call.Sent? || call.NotDispatched? ==> u.sequence == t.sequence + 1 && call.requestId == RequestId(t.bridge, u.sequence))
    && u.settled == (if call.NotDispatched? then t.settled[call.requestId := DispatchFailed] else t.settled)
    && u.sent == (if call.Sent? || call.NotDispatched? then t.sent + [call.requestId] else t.sent)
    && t.pending.Keys <= u.pending.Keys
    && u.pending.Keys == t.pending.Keys + (if call.Sent? then {call.requestId} else {})
  }

  lemma AskedSends(t: Table, leaseId: string, action: Action, aborted: bool, wellFormed: bool, throws: bool)
    ensures var (u, call) := Asked(t, leaseId, action, aborted, wellFormed, throws); Sends(t, u, call)
  {
    hide RequestId;
  }

  lemma OpenedSends(t: Table, identity: Identity, aborted: bool, wellFormed: bool, throws: bool)
    ensures var (u, call) := Opened(t, identity, aborted, wellFormed, throws); Sends(t, u, call)
  {
    hide RequestId;
  }

  lemma ClosedSends(t: Table, leaseId: string, wellFormed: bool, throws: bool)
    ensures var (u, call) := Closed(t, leaseId, wellFormed, throws); Sends(t, u, call)
  {
    hide Asked, RequestId;
    AskedSends(t, leaseId, CloseAction, false, wellFormed, throws);
  }

  /** When an opening, a close, a command or a setting is sent: exactly for a live renderer
      and, but for an opening, a known lease, if the request is well formed, not aborted and
      not thrown at; an opening also must not contradict the lease of its id. */
  lemma SentExactly(t: Table, identity: Identity, leaseId: string, action: Action, aborted: bool, wellFormed: bool, throws: bool)
    requires Sound(t)
    ensures Opened(t, identity, aborted, wellFormed, throws).1.Sent?
            <==> Live(t) && !aborted && wellFormed && !throws && (identity.leaseId in t.leases ==> t.leases[identity.leaseId] == identity)
    ensures Asked(t, leaseId, action, aborted, wellFormed, throws).1.Sent? <==> Live(t) && !aborted && wellFormed && !throws && leaseId in t.leases
    ensures Closed(t, leaseId, wellFormed, throws).1.Sent? <==> Live(t) && wellFormed && !throws && leaseId in t.leases
  {
    hide RequestId, Sound;
    FreshId(t);
    FreshId(t.(leases := t.leases[identity.leaseId := identity])) by { LeasesKeep(t, t.leases[identity.leaseId := identity]); }
  }
}
