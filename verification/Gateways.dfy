/** How gateways advertise their address (internal/agent/forwarder.go). */
module Gateways {
  import opened Basics
  import opened Keys
  import opened RedisModel

  datatype Error = GatewayNotFound

  function RegisterInstance(s: Store, g: string, addr: string, ttl: nat): Store {
    var fields := s.HGetAll(Gateway(g)) + map[Addr := addr, StartedAt := Seconds(s), LastKeepalive := Seconds(s)];
    s.With(Gateway(g), Unexpired(s, HashEntry(fields, Some(s.now + ttl))))
  }

  /** A refresh that comes after the entry expired makes a new entry, without an address. */
  function RefreshKeepalive(s: Store, g: string, ttl: nat): Store {
    var fields := s.HGetAll(Gateway(g)) + map[LastKeepalive := Seconds(s)];
    s.With(Gateway(g), Unexpired(s, HashEntry(fields, Some(s.now + ttl))))
  }

  function UnregisterInstance(s: Store, g: string): Store {
    s.Del(Gateway(g))
  }

  function LookupInstance(s: Store, g: string): Result<string, Error> {
    if Addr in s.HGetAll(Gateway(g)) then Ok(s.HGetAll(Gateway(g))[Addr]) else Err(GatewayNotFound)
  }

  lemma RegisterKinded(s: Store, g: string, addr: string, ttl: nat)
    requires WellKinded(s)
    ensures WellKinded(RegisterInstance(s, g, addr, ttl))
  {
    var fields := s.HGetAll(Gateway(g)) + map[Addr := addr, StartedAt := Seconds(s), LastKeepalive := Seconds(s)];
    assert Addr in fields;
    WithKinded(s, Gateway(g), Unexpired(s, HashEntry(fields, Some(s.now + ttl))));
  }

  lemma RefreshKinded(s: Store, g: string, ttl: nat)
    requires WellKinded(s)
    ensures WellKinded(RefreshKeepalive(s, g, ttl))
  {
    var fields := s.HGetAll(Gateway(g)) + map[LastKeepalive := Seconds(s)];
    assert LastKeepalive in fields;
    WithKinded(s, Gateway(g), Unexpired(s, HashEntry(fields, Some(s.now + ttl))));
  }
}


/** The forwarder's own entry in Redis, and the lookup of its peers'. */
module GatewayForwarder {
  import opened Basics
  import opened Decimal
  import opened Keys
  import opened RedisModel
  import Gateways

  class Forwarder {
    const client: Redis
    const instanceID: string
    const addr: string
    const ttl: nat

    constructor (client: Redis, instanceID: string, addr: string, ttl: nat)
      ensures this.client == client && this.instanceID == instanceID && this.addr == addr && this.ttl == ttl
    {
      this.client := client;
      this.instanceID := instanceID;
      this.addr := addr;
      this.ttl := ttl;
    }

    method RegisterInstance()
      requires client.Valid()
      modifies client
      ensures client.Valid() && client.view == Gateways.RegisterInstance(old(client.view), instanceID, addr, ttl)
      ensures ttl > 0 ==>
                && Gateways.LookupInstance(client.view, instanceID) == Ok(addr)
                && DeadlineOf(client.view, Gateway(instanceID)) == Some(old(client.view).now + ttl)
    {
      var k, now := Gateway(instanceID), FormatInt(client.db.now / 1000);
      ghost var s := client.view;
      assert k in s.keys ==> Fits(k, s.keys[k], s.now);
      var fields := map[Addr := addr, StartedAt := now, LastKeepalive := now];
      assert Addr in fields;
      HSetExpire(s, k, fields, ttl);
      client.HSet(k, fields);
      client.Expire(k, ttl);
    }

    method RefreshKeepalive()
      requires client.Valid()
      modifies client
      ensures client.Valid() && client.view == Gateways.RefreshKeepalive(old(client.view), instanceID, ttl)
    {
      var k, now := Gateway(instanceID), FormatInt(client.db.now / 1000);
      ghost var s := client.view;
      assert k in s.keys ==> Fits(k, s.keys[k], s.now);
      var fields := map[LastKeepalive := now];
      assert LastKeepalive in fields;
      HSetExpire(s, k, fields, ttl);
      client.HSet(k, fields);
      client.Expire(k, ttl);
    }

    method LookupInstance(gateway: string) returns (r: Result<string, Gateways.Error>)
      requires client.Valid()
      ensures r == Gateways.LookupInstance(client.view, gateway)
    {
      var vals := client.HGetAll(Gateway(gateway));
      r := if Addr in vals then Ok(vals[Addr]) else Err(Gateways.GatewayNotFound);
    }

    method UnregisterInstance()
      requires client.Valid()
      modifies client
      ensures client.Valid() && client.view == Gateways.UnregisterInstance(old(client.view), instanceID)
    {
      client.Del(Gateway(instanceID));
    }
  }
}
