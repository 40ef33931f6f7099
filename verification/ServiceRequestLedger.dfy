/** The read requests of src/main/plugins/service-request-ledger.ts. */
module ServiceRequestLedger {
  import opened Options
  import opened Numerals

  datatype Identity = Identity(rendererRequestId: string, grantId: string, registryGeneration: nat, serviceGeneration: nat)

  datatype Pending = Pending(identity: Identity, token: string, correlationId: string)

  datatype Ending = Completed | Cancelled | TimedOut | Failed

  /** What is reported of a request when it ends, and how its promise is settled:
      fulfilled for `Completed`, rejected for the others. */
  datatype Terminal = Terminal(request: Pending, ending: Ending)

  datatype Start = Begun(correlationId: string) | Busy | Duplicate

  datatype Settling = Accepted | Mismatched | Stale | AlreadyOver

  const LIMIT := 4096
  const REMEMBERED := 2048

  function CorrelationKey(id: string): string
  {
    "correlation:" + id
  }

  function RendererKey(id: string): string
  {
    "renderer:" + id
  }

  /** The id of the n-th request. */
  function CorrelationId(generation: nat, token: string, n: nat): string
  {
    "service-" + (Numeral(generation, Ten) + "-" + (token + Numeral(n, ThirtySix)))
  }

  /** With tokens of one width, no two requests have the same id. */
  lemma CorrelationIdsDiffer(g: nat, s: string, m: nat, h: nat, t: string, n: nat)
    requires |s| == |t| && CorrelationId(g, s, m) == CorrelationId(h, t, n)
    ensures m == n
  {
    var x, y := Numeral(g, Ten) + "-" + (s + Numeral(m, ThirtySix)), Numeral(h, Ten) + "-" + (t + Numeral(n, ThirtySix));
    SamePrefix("service-", x, y);
    NoDash(g, Ten);
    NoDash(h, Ten);
    FirstDash(Numeral(g, Ten), s + Numeral(m, ThirtySix), Numeral(h, Ten), t + Numeral(n, ThirtySix));
    SameSplit(s, Numeral(m, ThirtySix), t, Numeral(n, ThirtySix));
    NumeralsDiffer(m, n, ThirtySix);
  }

  lemma SamePrefix(p: string, x: string, y: string)
    requires p + x == p + y
    ensures x == y
  {
    assert x == (p + x)[|p|..] && y == (p + y)[|p|..];
  }

  lemma SameSplit(a: string, x: string, b: string, y: string)
    requires |a| == |b| && a + x == b + y
    ensures x == y
  {
    assert x == (a + x)[|a|..] && y == (b + y)[|b|..];
  }

  // --- Which requests are remembered ---

  /** The keys of the requests, two each, oldest first. */
  function Keys(ended: seq<Terminal>): (keys: seq<string>)
    ensures |keys| == 2 * |ended|
  {
    if ended == [] then []
    else Keys(ended[..|ended| - 1]) + KeysOf(ended[|ended| - 1].request)
  }

  function KeysOf(request: Pending): (keys: seq<string>)
    ensures |keys| == 2
  {
    [CorrelationKey(request.correlationId), RendererKey(request.identity.rendererRequestId)]
  }

  /** The requests that ended last. */
  function Recent(ended: seq<Terminal>): (recent: seq<Terminal>)
    ensures |recent| <= REMEMBERED && |recent| <= |ended|
  {
    if |ended| <= REMEMBERED then ended else ended[|ended| - REMEMBERED..]
  }

  /** Add a key to an insertion-ordered set, then drop the oldest if it has grown too large. */
  function Tombstone(terminals: seq<string>, key: string): seq<string>
  {
    var added := if key in terminals then terminals else terminals + [key];
    if |added| <= LIMIT then added else added[1..]
  }

  lemma {:induction false} KeysTail(ended: seq<Terminal>)
    requires ended != []
    ensures Keys(ended[1..]) == Keys(ended)[2..]
    decreases |ended|
  {
    var n := |ended| - 1;
    if n > 0 {
      KeysTail(ended[..n]);
      assert ended[1..][..n - 1] == ended[..n][1..];
      assert ended[1..][n - 1] == ended[n];
      DropOfSum(Keys(ended[..n]), KeysOf(ended[n].request));
    } else {
      assert ended[1..] == [];
    }
  }

  lemma DropOfSum(x: seq<string>, y: seq<string>)
    requires |x| >= 2
    ensures (x + y)[2..] == x[2..] + y
  {
  }

  /** Which keys there are. */
  lemma {:induction false} InKeys(ended: seq<Terminal>, key: string)
    ensures key in Keys(ended) <==> exists i :: 0 <= i < |ended| && key in KeysOf(ended[i].request)
  {
    if ended != [] {
      var n := |ended| - 1;
      InKeys(ended[..n], key);
      forall i | 0 <= i < n ensures ended[..n][i] == ended[i] {}
      if key in KeysOf(ended[n].request) {}
    }
  }

  lemma KeysDiffer(a: string, b: string)
    ensures CorrelationKey(a) != RendererKey(b)
    ensures (CorrelationKey(a) == CorrelationKey(b) || RendererKey(a) == RendererKey(b)) ==> a == b
  {
    assert CorrelationKey(a)[0] == 'c' && RendererKey(b)[0] == 'r';
    if CorrelationKey(a) == CorrelationKey(b) { SamePrefix("correlation:", a, b); }
    if RendererKey(a) == RendererKey(b) { SamePrefix("renderer:", a, b); }
  }

  /** One more ending is remembered in place of the oldest. */
  lemma Remember(ended: seq<Terminal>, last: Terminal)
    requires forall key :: key in KeysOf(last.request) ==> key !in Keys(Recent(ended))
    ensures var keys := KeysOf(last.request);
            Tombstone(Tombstone(Keys(Recent(ended)), keys[0]), keys[1]) == Keys(Recent(ended + [last]))
  {
    hide Keys, Recent;
    var recent, c, r := Recent(ended), KeysOf(last.request)[0], KeysOf(last.request)[1];
    KeysDiffer(last.request.correlationId, last.request.identity.rendererRequestId);
    RecentAppend(ended, last);
    KeysAppend(recent, last);
    if |recent| == REMEMBERED {
      KeysTail(recent + [last]);
      DropTwice(Keys(recent), c, r);
    }
  }

  lemma DropTwice(keys: seq<string>, c: string, r: string)
    requires keys != [] && c !in keys && r !in keys && c != r
    ensures ((keys + [c])[1..] + [r])[1..] == (keys + [c, r])[2..] && r !in (keys + [c])[1..]
  {
  }

  lemma KeysAppend(ended: seq<Terminal>, last: Terminal)
    ensures Keys(ended + [last]) == Keys(ended) + KeysOf(last.request)
  {
    assert (ended + [last])[..|ended|] == ended;
  }

  lemma RecentAppend(ended: seq<Terminal>, last: Terminal)
    ensures Recent(ended + [last]) == if |Recent(ended)| < REMEMBERED then Recent(ended) + [last] else (Recent(ended) + [last])[1..]
  {
  }

  /** A request with this renderer id is among the last 2048 to end. */
  ghost predicate EndedRecently(ended: seq<Terminal>, id: string)
  {
    exists i :: 0 <= i < |Recent(ended)| && Recent(ended)[i].request.identity.rendererRequestId == id
  }

  // --- The ledger ---

  class Ledger {
    const tokenWidth: nat
    var byCorrelation: map<string, Pending>
    var byRendererRequest: map<string, Pending>
    /** A set in insertion order. */
    var terminals: seq<string>
    var sequence: nat
    /** Every request there has been, and every ending reported. */
    ghost var begun: seq<Pending>
    ghost var ended: seq<Terminal>

    constructor (tokenWidth: nat)
      ensures Valid() && begun == [] && ended == [] && this.tokenWidth == tokenWidth
    {
      this.tokenWidth := tokenWidth;
      byCorrelation, byRendererRequest, terminals, sequence, begun, ended := map[], map[], [], 0, [], [];
    }

    /** The request that has begun and not ended. */
    ghost function Current(): Option<Pending>
      reads this`begun, this`ended
    {
      if |begun| > |ended| then Some(begun[|begun| - 1]) else None
    }

    /** Requests end in the order in which they began, each once; both indexes hold the
        one that has not ended, and the tombstones are those of the last 2048 endings. */
    ghost predicate Valid()
      reads this
    {
      |begun| == sequence && |ended| <= |begun| <= |ended| + 1
      && (forall i :: 0 <= i < |ended| ==> ended[i].request == begun[i])
      && (forall i :: 0 <= i < |begun| ==> Named(i))
      && byCorrelation == (if Current().None? then map[] else map[Current().value.correlationId := Current().value])
      && byRendererRequest == (if Current().None? then map[] else map[Current().value.identity.rendererRequestId := Current().value])
      && terminals == Keys(Recent(ended))
      && (Current().Some? ==> RendererKey(Current().value.identity.rendererRequestId) !in terminals)
    }

    ghost predicate Named(i: nat)
      reads this`begun
      requires i < |begun|
    {
      var p := begun[i];
      |p.token| == tokenWidth && p.correlationId == CorrelationId(p.identity.serviceGeneration, p.token, i + 1)
    }

    /** No two requests share a correlation id. */
    lemma IdsDiffer(i: nat, j: nat)
      requires Valid() && i < j < |begun|
      ensures begun[i].correlationId != begun[j].correlationId
    {
      hide Keys, Recent, CorrelationId;
      assert Named(i) && Named(j);
      var p, q := begun[i], begun[j];
      if p.correlationId == q.correlationId {
        CorrelationIdsDiffer(p.identity.serviceGeneration, p.token, i + 1, q.identity.serviceGeneration, q.token, j + 1);
      }
    }

    /** With nothing pending, a renderer id has a tombstone exactly when it is that of one
        of the last 2048 requests to end. */
    lemma Remembered(id: string)
      requires Valid()
      ensures RendererKey(id) in terminals <==> EndedRecently(ended, id)
    {
      InKeys(Recent(ended), RendererKey(id));
      forall i | 0 <= i < |Recent(ended)|
        ensures RendererKey(id) in KeysOf(Recent(ended)[i].request)
                <==> Recent(ended)[i].request.identity.rendererRequestId == id
      {
        KeysDiffer(Recent(ended)[i].request.correlationId, id);
        KeysDiffer(Recent(ended)[i].request.identity.rendererRequestId, id);
      }
    }

    lemma OnePending()
      requires Valid()
      ensures |ended| <= |begun| <= |ended| + 1
    {
    }

    /** No request ends twice. */
    lemma EndsOnce(i: nat, j: nat)
      requires Valid() && i < j < |ended|
      ensures ended[i].request != ended[j].request
    {
      IdsDiffer(i, j);
    }

    method Begin(identity: Identity, token: string) returns (start: Start)
      requires Valid() && |token| == tokenWidth
      modifies this`byCorrelation, this`byRendererRequest, this`sequence, this`begun
      ensures Valid()
      ensures start == Busy <==> old(Current()).Some?
      ensures old(Current()).None? ==> (start == Duplicate <==> EndedRecently(ended, identity.rendererRequestId))
      ensures !start.Begun? ==> begun == old(begun) && byCorrelation == old(byCorrelation)
      ensures start.Begun? ==>
        begun == old(begun) + [Pending(identity, token, start.correlationId)] && old(Current()).None?
        && Current() == Some(begun[|begun| - 1])
    {
      hide Keys, Recent;
      if |byCorrelation| > 0 { return Busy; }
      Remembered(identity.rendererRequestId);
      if identity.rendererRequestId in byRendererRequest || RendererKey(identity.rendererRequestId) in terminals {
        return Duplicate;
      }
      sequence := sequence + 1;
      var correlationId := CorrelationId(identity.serviceGeneration, token, sequence);
      var pending := Pending(identity, token, correlationId);
      begun := begun + [pending];
      byCorrelation := byCorrelation[correlationId := pending];
      byRendererRequest := byRendererRequest[identity.rendererRequestId := pending];
      forall i | 0 <= i < |begun| ensures Named(i) {
        if i < |old(begun)| { assert old(Named(i)); }
      }
      return Begun(correlationId);
    }

    /** The pending request's tombstones are new. */
    lemma NewKeys()
      requires Valid() && Current().Some?
      ensures forall key :: key in KeysOf(Current().value) ==> key !in Keys(Recent(ended))
    {
      var p, c := Current().value, CorrelationKey(Current().value.correlationId);
      InKeys(Recent(ended), c);
      forall i | 0 <= i < |Recent(ended)| ensures c !in KeysOf(Recent(ended)[i].request) {
        var n := if |ended| <= REMEMBERED then i else |ended| - REMEMBERED + i;
        assert Recent(ended)[i] == ended[n];
        IdsDiffer(n, |begun| - 1);
        KeysDiffer(begun[n].correlationId, p.correlationId);
        KeysDiffer(p.correlationId, begun[n].identity.rendererRequestId);
      }
    }

    /** Ends the request, unless it has ended already. */
    method Finish(pending: Pending, ending: Ending)
      requires Valid() && (Current() == Some(pending) || pending in begun)
      modifies this`byCorrelation, this`byRendererRequest, this`terminals, this`ended
      ensures Valid()
      ensures ended == old(ended) + if old(Current()) == Some(pending) then [Terminal(pending, ending)] else []
    {
      hide Keys, Recent;
      if pending.correlationId !in byCorrelation {
        return;
      }
      assert Current() == Some(pending) by { OneId(pending); }
      NewKeys();
      Remember(ended, Terminal(pending, ending));
      byCorrelation := byCorrelation - {pending.correlationId};
      byRendererRequest := byRendererRequest - {pending.identity.rendererRequestId};
      terminals := Tombstone(terminals, CorrelationKey(pending.correlationId));
      terminals := Tombstone(terminals, RendererKey(pending.identity.rendererRequestId));
      ended := ended + [Terminal(pending, ending)];
      forall i | 0 <= i < |begun| ensures Named(i) { assert old(Named(i)); }
    }

    lemma OneId(pending: Pending)
      requires Valid() && pending in begun && pending.correlationId in byCorrelation
      ensures Current() == Some(pending)
    {
      var i :| 0 <= i < |begun| && begun[i] == pending;
      if i < |begun| - 1 { IdsDiffer(i, |begun| - 1); }
    }

    /** The reply carries the generations of the pending request. */
    predicate Matches(pending: Pending, registryGeneration: nat, serviceGeneration: nat)
    {
      pending.identity.registryGeneration == registryGeneration && pending.identity.serviceGeneration == serviceGeneration
    }

    /** A reply from the service, good or bad. It ends the pending request exactly when it
        names it and both its generations. */
    method Settle(correlationId: string, registryGeneration: nat, serviceGeneration: nat, ok: bool) returns (result: Settling)
      requires Valid()
      modifies this`byCorrelation, this`byRendererRequest, this`terminals, this`ended
      ensures Valid()
      ensures var p := old(Current());
              result == Accepted <==> p.Some? && p.value.correlationId == correlationId && Matches(p.value, registryGeneration, serviceGeneration)
      ensures ended == old(ended) +
              if result == Accepted then [Terminal(old(Current()).value, if ok then Completed else Failed)] else []
      ensures result == AlreadyOver ==> CorrelationKey(correlationId) in old(terminals)
    {
      hide Keys, Recent;
      if correlationId !in byCorrelation {
        return if CorrelationKey(correlationId) in terminals then AlreadyOver else Stale;
      }
      var pending := byCorrelation[correlationId];
      if !Matches(pending, registryGeneration, serviceGeneration) { return Mismatched; }
      Finish(pending, if ok then Completed else Failed);
      return Accepted;
    }

    method Cancel(rendererRequestId: string, registryGeneration: nat, serviceGeneration: nat) returns (result: Settling)
      requires Valid()
      modifies this`byCorrelation, this`byRendererRequest, this`terminals, this`ended
      ensures Valid()
      ensures var p := old(Current());
              result == Accepted <==> p.Some? && p.value.identity.rendererRequestId == rendererRequestId
                                      && Matches(p.value, registryGeneration, serviceGeneration)
      ensures ended == old(ended) + if result == Accepted then [Terminal(old(Current()).value, Cancelled)] else []
    {
      hide Keys, Recent;
      if rendererRequestId !in byRendererRequest {
        return if RendererKey(rendererRequestId) in terminals then AlreadyOver else Stale;
      }
      var pending := byRendererRequest[rendererRequestId];
      if !Matches(pending, registryGeneration, serviceGeneration) { return Mismatched; }
      Finish(pending, Cancelled);
      return Accepted;
    }

    /** Ends every pending request of a generation, and of one grant if one is given: the
        loops of `cancelGrant`, `failGeneration` and `cancelGeneration`. */
    method EndAll(grantId: Option<string>, registryGeneration: nat, serviceGeneration: nat, ending: Ending) returns (count: nat)
      requires Valid()
      modifies this`byCorrelation, this`byRendererRequest, this`terminals, this`ended
      ensures Valid()
      ensures var p := old(Current());
              var hit := p.Some? && Matches(p.value, registryGeneration, serviceGeneration)
                         && (grantId.Some? ==> p.value.identity.grantId == grantId.value);
              count == (if hit then 1 else 0) && ended == old(ended) + if hit then [Terminal(p.value, ending)] else []
    {
      hide Keys, Recent;
      count := 0;
      ghost var p := Current();
      var ids := byCorrelation.Keys;
      while ids != {}
        invariant Valid()
        invariant ids == {} || (p.Some? && ids == {p.value.correlationId})
        invariant ids != {} ==> count == 0 && ended == old(ended) && Current() == p
        invariant ids == {} ==>
          var hit := p.Some? && Matches(p.value, registryGeneration, serviceGeneration)
                     && (grantId.Some? ==> p.value.identity.grantId == grantId.value);
          count == (if hit then 1 else 0) && ended == old(ended) + if hit then [Terminal(p.value, ending)] else []
        decreases |ids|
      {
        var id :| id in ids;
        var pending := byCorrelation[id];
        ids := ids - {id};
        if Matches(pending, registryGeneration, serviceGeneration) && (grantId.Some? ==> pending.identity.grantId == grantId.value) {
          Finish(pending, ending);
          count := count + 1;
        }
      }
    }
  }
}
