/** Least-connections routing (internal/router/router.go). */
module Routing {
  import opened Basics
  import opened Keys
  import opened RedisModel
  import opened Registry
  import opened AgentPool
  import RegistryProperties

  datatype RouteError = NoAgentAvailable | ListFailed(error: Registry.Error)

  predicate Online(s: Store, t: string, i: string) {
    Lookup(s, t, i).Ok? && Lookup(s, t, i).value.status == STATUS_ONLINE
  }

  /** An online agent with the fewest sessions among these ids; or none of them is online. */
  ghost predicate Best(s: Store, t: string, ids: set<string>, r: Result<AgentInfo, RouteError>) {
    match r
    case Ok(a) =>
      && a.id in ids && Lookup(s, t, a.id) == Ok(a) && Online(s, t, a.id)
      && forall i <- ids :: Online(s, t, i) ==> a.activeSessions <= Lookup(s, t, i).value.activeSessions
    case Err(NoAgentAvailable) => forall i <- ids :: !Online(s, t, i)
    case Err(ListFailed(_)) => false
  }

  lemma PlainLookups(s: Store, t: string)
    requires ColonFree(t)
    ensures forall i :: LookupUnder(s, Home(t, i), i) == Lookup(s, t, i)
  {
  }

  lemma LiveIsScanned(s: Store, t: string)
    requires ColonFree(t)
    ensures LiveIDs(s, t) == Scan(s, t) * s.SMembers(AgentsByType(t))
  {
    forall i | i in s.SMembers(AgentsByType(t)) ensures i in LiveIDs(s, t) <==> i in Scan(s, t) {
      assert i in Scan(s, t) <==> Agent(t, i) in s.keys;
    }
  }

  /** An online agent of the list with the fewest sessions, or none of the list is online. */
  predicate BestOf(agents: seq<AgentInfo>, best: Option<AgentInfo>) {
    match best
    case Some(b) => b in agents && b.status == STATUS_ONLINE
        && forall a <- agents :: a.status == STATUS_ONLINE ==> b.activeSessions <= a.activeSessions
    case None => forall a <- agents :: a.status != STATUS_ONLINE
  }

  /** The best of a listing is the best of the live indexed ids. */
  lemma BestOfListing(s: Store, t: string, agents: seq<AgentInfo>, best: Option<AgentInfo>)
    requires ColonFree(t) && Listed(s, t, agents, LiveIDs(s, t)) && BestOf(agents, best)
    ensures Best(s, t, Scan(s, t) * s.SMembers(AgentsByType(t)), if best.Some? then Ok(best.value)
              else Err(NoAgentAvailable))
  {
    LiveIsScanned(s, t);
    var ids := LiveIDs(s, t);
    hide Scan, LiveIDs;
    PlainLookups(s, t);
    hide LookupUnder, Lookup, Home;
    forall i | i in ids && Online(s, t, i)
      ensures best.Some? && best.value.activeSessions <= Lookup(s, t, i).value.activeSessions
    {
      var a :| a in agents && a.id == i;
      assert Lookup(s, t, i) == Ok(a);
    }
  }

  /** While the registry is in order no index exists for a type with a colon, and no agent. */
  lemma ColonTypeHasNone(s: Store, t: string, ttl: nat)
    requires Inv(s, ttl) && !ColonFree(t)
    ensures s.SMembers(AgentsByType(t)) == {} && Scan(s, t) == {}
  {
    assert IndexOk(s, ttl, AgentsByType(t));
    forall k | k in s.keys && k.Agent? ensures k.agentType != t {
      assert Fits(k, s.keys[k], s.now);
    }
  }

  /** What a listing of any type comes to while the registry is in order. */
  lemma RoutedInOrder(s: Store, t: string, agents: seq<AgentInfo>, best: Option<AgentInfo>, ttl: nat)
    requires Inv(s, ttl) && Listed(s, t, agents, LiveIDs(s, t)) && BestOf(agents, best)
    ensures DropIDs(s, t, s.SMembers(AgentsByType(t)) - LiveIDs(s, t)) == Prune(s, t)
    ensures Best(s, t, Scan(s, t), if best.Some? then Ok(best.value) else Err(NoAgentAvailable))
  {
    var r := if best.Some? then Ok(best.value) else Err(NoAgentAvailable);
    if ColonFree(t) {
      LiveIsScanned(s, t);
      BestOfListing(s, t, agents, best);
      RegistryProperties.ListAgreesWithScan(s, t, ttl);
      assert s.SMembers(AgentsByType(t)) - Scan(s, t) * s.SMembers(AgentsByType(t))
          == s.SMembers(AgentsByType(t)) - Scan(s, t);
      hide DropIDs, Listed, BestOf, Best, LiveIDs, Scan, Inv;
    } else {
      ColonTypeHasNone(s, t, ttl);
      hide Inv, DropIDs, Scan;
      assert agents == [];
      assert s.SMembers(AgentsByType(t)) - LiveIDs(s, t) == s.SMembers(AgentsByType(t)) - Scan(s, t);
    }
  }

  /** An order in the registry leaves no hash that cannot be read. */
  lemma ListingReads(s: Store, t: string, i: string, ttl: nat)
    requires Inv(s, ttl) && i in LiveIDs(s, t)
    ensures LookupUnder(s, Home(t, i), i).Ok?
  {
    if ColonFree(t) {
      RegistryProperties.LookupReads(s, t, i, ttl);
    } else {
      ColonTypeHasNone(s, t, ttl);
    }
  }

  /** An agent routing may choose has beaten within its lease, to the second. */
  lemma BestIsFresh(s: Store, t: string, r: Result<AgentInfo, RouteError>, ttl: nat)
    requires Inv(s, ttl) && r.Ok? && Best(s, t, Scan(s, t), r)
    ensures s.now < 1000 * r.value.lastHeartbeat + ttl + 1000
  {
    RegistryProperties.LookupIsFresh(s, t, r.value.id, ttl);
  }

  predicate HasStatus(s: Store, t: string, i: string, status: string) {
    Lookup(s, t, i).Ok? && Lookup(s, t, i).value.status == status
  }

  /** Nobody but an agent whose hash says "online" may be chosen, and one is if there is any. */
  lemma BestIsOnline(s: Store, t: string, r: Result<AgentInfo, RouteError>)
    requires Best(s, t, Scan(s, t), r)
    ensures r.Ok? <==> exists i :: i in Scan(s, t) && HasStatus(s, t, i, "online")
    ensures r.Ok? ==>
              && HasStatus(s, t, r.value.id, "online")
              && forall i <- Scan(s, t) :: HasStatus(s, t, i, "online") ==>
                   r.value.activeSessions <= Lookup(s, t, i).value.activeSessions
  {
    hide Lookup, Scan;
    if r.Ok? {
      assert r.value.id in Scan(s, t) && HasStatus(s, t, r.value.id, "online");
    }
  }

  class Router {
    const pool: Pool

    constructor (pool: Pool)
      ensures this.pool == pool
    {
      this.pool := pool;
    }

    /** The loop: the first of the least loaded online agents. */
    static method Least(agents: seq<AgentInfo>) returns (best: Option<AgentInfo>)
      ensures BestOf(agents, best)
    {
      best := None;
      for n := 0 to |agents|
        invariant BestOf(agents[..n], best)
      {
        var a := agents[n];
        assert agents[..n + 1] == agents[..n] + [a];
        if a.status != STATUS_ONLINE {
          continue;
        }
        if best.None? || a.activeSessions < best.value.activeSessions {
          best := Some(a);
        }
      }
      assert agents[..|agents|] == agents;
    }

    /** While the registry is in order this is the best agent of a full scan of the store, whatever
        order the index is read in, and the only failure is that no live agent is online. */
    method Route(agentType: string) returns (r: Result<AgentInfo, RouteError>)
      requires pool.client.Valid()
      modifies pool.client
      ensures pool.client.Valid()
      ensures ColonFree(agentType) && !(r.Err? && r.error.ListFailed?) ==>
                var s := old(pool.client.view);
                && pool.client.view
                    == DropIDs(s, agentType, s.SMembers(AgentsByType(agentType)) - LiveIDs(s, agentType))
                && Best(s, agentType, Scan(s, agentType) * s.SMembers(AgentsByType(agentType)), r)
      ensures Inv(old(pool.client.view), pool.TTL()) ==>
                && pool.client.view == Prune(old(pool.client.view), agentType)
                && Best(old(pool.client.view), agentType, Scan(old(pool.client.view), agentType), r)
      ensures Inv(old(pool.client.view), pool.TTL()) && r.Ok? ==>
                old(pool.client.view).now < 1000 * r.value.lastHeartbeat + 2 * pool.heartbeatTimeout + 1000
      ensures Inv(old(pool.client.view), pool.TTL()) ==>
                var s := old(pool.client.view);
                && (r.Ok? <==> exists i :: i in Scan(s, agentType) && HasStatus(s, agentType, i, "online"))
                && (r.Ok? ==>
                      && HasStatus(s, agentType, r.value.id, "online")
                      && forall i <- Scan(s, agentType) :: HasStatus(s, agentType, i, "online") ==>
                           r.value.activeSessions <= Lookup(s, agentType, i).value.activeSessions)
    {
      hide Listed, LiveIDs, LookupUnder, Best, BestOf, Prune, DropIDs, Scan, Renders, WellKinded, Inv, Home, HasStatus;
      ghost var s := pool.client.view;
      var listed := pool.ListByType(agentType);
      if listed.Err? {
        if Inv(s, pool.TTL()) {
          var i :| i in LiveIDs(s, agentType) && LookupUnder(s, Home(agentType, i), i) == Err(listed.error);
          ListingReads(s, agentType, i, pool.TTL());
        }
        return Err(ListFailed(listed.error));
      }
      var best := Least(listed.value);
      if ColonFree(agentType) {
        BestOfListing(s, agentType, listed.value, best);
      }
      r := if best.None? then Err(NoAgentAvailable) else Ok(best.value);
      if Inv(s, pool.TTL()) {
        RoutedInOrder(s, agentType, listed.value, best, pool.TTL());
        BestIsOnline(s, agentType, r);
        if r.Ok? {
          BestIsFresh(s, agentType, r, pool.TTL());
        }
      }
    }
  }
}
