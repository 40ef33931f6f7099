/** Who may read what: src/main/plugins/capability-broker.ts. */
module CapabilityBroker {
  import opened Options

  datatype Grant = Grant(id: string, registryGeneration: nat, serviceGeneration: nat, absoluteRoot: string)

  /** A result, or one of the errors thrown. */
  datatype Reply = Granted(grant: Grant) | Revoked(grant: Grant) | AlreadyRevoked | Denied | StaleGrant

  predicate OfGenerations(grant: Grant, registry: nat, service: Option<nat>)
  {
    grant.registryGeneration == registry && (service.Some? ==> grant.serviceGeneration == service.value)
  }

  class Broker {
    var grants: map<string, Grant>
    var revoked: set<string>
    var granted: nat
    var denials: nat

    constructor ()
      ensures Valid() && grants == map[] && revoked == {}
    {
      grants, revoked, granted, denials := map[], {}, 0, 0;
    }

    /** One grant at most, under its own id, and every id ever granted is still granted or
        known to be revoked. */
    ghost predicate Valid()
      reads this
    {
      (forall id :: id in grants ==> grants[id].id == id && id !in revoked
                                     && grants[id].registryGeneration > 0 && grants[id].serviceGeneration > 0)
      && (forall i, j :: i in grants && j in grants ==> i == j)
      && granted == |revoked| + |grants| && "" !in grants
    }

    /** `id` is a fresh UUID behind a prefix. */
    method GrantRead(id: string, root: string, registry: nat, service: nat) returns (reply: Reply)
      requires Valid() && id !in grants && id !in revoked && id != ""
      modifies this`grants, this`granted, this`denials
      ensures Valid()
      ensures reply == if registry > 0 && service > 0 && old(grants) == map[] then Granted(Grant(id, registry, service, root)) else Denied
      ensures grants == if reply.Granted? then map[id := reply.grant] else old(grants)
      ensures granted == old(granted) + (if reply.Granted? then 1 else 0)
      ensures denials == old(denials) + (if reply.Granted? then 0 else 1)
    {
      if registry == 0 || service == 0 || |grants| > 0 {
        denials := denials + 1;
        return Denied;
      }
      var grant := Grant(id, registry, service, root);
      grants := grants[id := grant];
      granted := granted + 1;
      return Granted(grant);
    }

    /** `inside` is what the checks of the relative path come to. A read is authorized
        exactly under the grant it names, in both the grant's generations; anything else is
        a counted denial. */
    method AuthorizeRead(id: string, inside: bool, registry: nat, service: nat) returns (grant: Option<Grant>)
      requires Valid()
      modifies this`denials
      ensures Valid()
      ensures grant.Some? <==> inside && exists root :: grants == map[id := Grant(id, registry, service, root)]
      ensures grant.Some? ==> id in grants && grant.value == grants[id]
      ensures denials == old(denials) + (if grant.Some? then 0 else 1)
    {
      if id == "" || id !in grants || grants[id].registryGeneration != registry || grants[id].serviceGeneration != service || !inside {
        if inside && exists root :: grants == map[id := Grant(id, registry, service, root)] {
          assert id in grants;
        }
        denials := denials + 1;
        return None;
      }
      assert grants == map[id := Grant(id, registry, service, grants[id].absoluteRoot)];
      return Some(grants[id]);
    }

    method Revoke(id: string, registry: Option<nat>, service: Option<nat>) returns (reply: Reply)
      requires Valid()
      modifies this`grants, this`revoked, this`denials
      ensures Valid()
      ensures var known := id in old(grants);
              var matches := known && (registry.Some? ==> old(grants)[id].registryGeneration == registry.value)
                             && (service.Some? ==> old(grants)[id].serviceGeneration == service.value);
              reply == (if matches then Revoked(old(grants)[id]) else if known then StaleGrant
                        else if id in old(revoked) then AlreadyRevoked else Denied)
              && grants == (if matches then map[] else old(grants))
              && revoked == (if matches then old(revoked) + {id} else old(revoked))
              && denials == old(denials) + (if reply == Denied then 1 else 0)
    {
      if id !in grants {
        if id in revoked { return AlreadyRevoked; }
        denials := denials + 1;
        return Denied;
      }
      var grant := grants[id];
      if (registry.Some? && grant.registryGeneration != registry.value) || (service.Some? && grant.serviceGeneration != service.value) {
        return StaleGrant;
      }
      assert grants.Keys == {id};
      grants := grants - {id};
      revoked := revoked + {id};
      return Revoked(grant);
    }

    method Drop(id: string)
      requires Valid() && id in grants
      modifies this`grants, this`revoked
      ensures Valid() && grants == map[] && revoked == old(revoked) + {id}
    {
      assert grants.Keys == {id};
      grants := grants - {id};
      revoked := revoked + {id};
    }

    lemma OnlyOne(id: string)
      requires Valid() && id in grants
      ensures grants.Keys == {id} && grants.Keys - {id} == {}
    {
    }

    /** The only grant goes, or stays. */
    method PurgeOne(id: string, registry: nat, service: Option<nat>) returns (gone: seq<Grant>)
      requires Valid() && grants.Keys == {id}
      modifies this`grants, this`revoked
      ensures Valid() && Purged(old(grants), registry, service, grants, gone)
      ensures revoked == old(revoked) + (old(grants).Keys - grants.Keys)
    {
      hide Purged, OfGenerations;
      OnePurged(grants, registry, service, id);
      if OfGenerations(grants[id], registry, service) {
        gone := [grants[id]];
        Drop(id);
      } else {
        gone := [];
      }
    }

    /** Revokes every grant of the generations, and no other. */
    method RevokeGeneration(registry: nat, service: Option<nat>) returns (gone: seq<Grant>)
      requires Valid()
      modifies this`grants, this`revoked
      ensures Valid() && Purged(old(grants), registry, service, grants, gone)
      ensures revoked == old(revoked) + (old(grants).Keys - grants.Keys)
    {
      hide Purged, OfGenerations, Valid;
      gone := [];
      var ids := grants.Keys;
      NothingPurged(grants, registry, service);
      while ids != {}
        invariant Valid()
        invariant ids == {} || (ids == grants.Keys && grants == old(grants) && revoked == old(revoked) && gone == [])
        invariant ids == {} ==> Purged(old(grants), registry, service, grants, gone)
        invariant ids == {} ==> revoked == old(revoked) + (old(grants).Keys - grants.Keys)
        decreases |ids|
      {
        var id :| id in ids;
        OnlyOne(id);
        ids := ids - {id};
        var more := PurgeOne(id, registry, service);
        assert gone + more == more;
        gone := gone + more;
      }
    }
  }

  /** `now` are the grants of `was` that are not of the generations, `gone` the others. */
  ghost predicate Purged(was: map<string, Grant>, registry: nat, service: Option<nat>, now: map<string, Grant>, gone: seq<Grant>)
  {
    now == (map id | id in was && !OfGenerations(was[id], registry, service) :: was[id])
    && (forall id :: id in was && OfGenerations(was[id], registry, service) ==> was[id] in gone)
    && (forall g :: g in gone ==> exists id :: id in was && was[id] == g && OfGenerations(g, registry, service))
  }

  lemma NothingPurged(was: map<string, Grant>, registry: nat, service: Option<nat>)
    ensures was.Keys == {} ==> Purged(was, registry, service, was, [])
  {
  }

  lemma OnePurged(was: map<string, Grant>, registry: nat, service: Option<nat>, id: string)
    requires was.Keys == {id}
    ensures if OfGenerations(was[id], registry, service) then Purged(was, registry, service, map[], [was[id]])
            else Purged(was, registry, service, was, [])
  {
  }
}
