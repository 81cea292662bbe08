/** Who takes what from whom when leases may lapse: connections that leave, that beat and that register
    again after a missed beat, and gateways that are cleared
    (internal/agent/grpc_server.go Connect and recvLoop, internal/agent/pool.go). */
module Evictions {
  import opened Basics
  import opened Keys
  import opened RedisModel
  import opened Runs
  import R = Registry
  import RP = RegistryProperties
  import opened RunProperties
  import opened Lease

  // ----- What a run leaves to remember -----

  /** Who last registered each agent, who was last published in each slot, and which connections have
      found their hash gone since they last registered. `since` pairs a connection that missed a beat, and
      has yet to register again, with every one that registered its agent meanwhile; `robbed` are those
      whose live hash was then written over by the other of the pair, and who have not registered since. */
  datatype History = History(
    holder: map<Key, nat>, publisher: map<(string, string), nat>, lapsed: set<nat>,
    since: set<(nat, nat)>, robbed: set<nat>)

  /** The connection that writes an agent's hash in a step, if any: one that connects, or one that registers
      again after a missed beat. */
  function Registrant(w: World, step: Step): Option<nat> {
    if (step.Connect? && Agent(step.t, step.i) !in w.store.keys) || step.Renew? then Some(step.c) else None
  }

  predicate Misses(w: World, d: nat) {
    d in w.conns && w.conns[d].stage == Missed
  }

  ghost predicate Holds(w: World, h: History, c: nat)
    requires c in w.conns
  {
    w.conns[c].Key() in h.holder && h.holder[w.conns[c].Key()] == c
  }

  /** It registered its agent last, and the hash is live. */
  ghost predicate HoldsLive(w: World, h: History, c: nat)
    requires c in w.conns
  {
    Holds(w, h, c) && w.conns[c].Key() in w.store.keys
  }

  /** The step registers again an agent that c holds by now. */
  ghost predicate WritesOver(w: World, h: History, step: Step, c: nat)
    requires c in w.conns
  {
    && step.Renew? && step.c in w.conns && c != step.c
    && w.conns[c].Key() == w.conns[step.c].Key() && HoldsLive(w, h, c)
  }

  ghost function NextHistory(w: World, cfg: Config, h: History, step: Step): History
    requires Possible(w, step)
  {
    var w' := Next(w, cfg, step);
    var r := Registrant(w, step);
    History(
      if r.Some? && r.value in w'.conns then h.holder[w'.conns[r.value].Key() := r.value] else h.holder,
      if step.Publish? then h.publisher[w.conns[step.c].Slot() := step.c] else h.publisher,
      (h.lapsed - (if r.Some? then {r.value} else {})) + set c | c in w'.conns && w'.conns[c].Key() !in w'.store.keys,
      (set p | p in h.since && Misses(w, p.0) && Misses(w', p.0))
      + set d | r.Some? && r.value in w'.conns && d in w.conns && Misses(w, d) && Misses(w', d)
                && w.conns[d].Key() == w'.conns[r.value].Key() :: (d, r.value),
      (h.robbed - (if r.Some? then {r.value} else {}))
      + set c | c in w.conns && WritesOver(w, h, step, c) && (step.c, c) in h.since)
  }

  /** A connection holds its agent, its hash live, exactly if since it last registered it has not found the
      hash gone and has not had it written over; and then the hash names its gateway. */
  ghost predicate HolderOk(w: World, h: History, c: nat)
    requires c in w.conns
  {
    && (HoldsLive(w, h, c) <==> c !in h.lapsed && c !in h.robbed)
    && (HoldsLive(w, h, c) ==> Owns(w.store, w.conns[c]))
  }

  /** A hash that is live again after a missed beat is another connection's, who registered since. */
  predicate MissOk(w: World, h: History, d: nat)
    requires d in w.conns
  {
    var k := w.conns[d].Key();
    Misses(w, d) && k in w.store.keys ==> k in h.holder && h.holder[k] != d && (d, h.holder[k]) in h.since
  }

  /** Holders are as their histories say, and a table entry is the last connection published there. */
  ghost predicate HistoryOk(w: World, h: History) {
    && Named(w) && EntriesOk(w)
    && (forall c <- w.conns :: HolderOk(w, h, c) && MissOk(w, h, c))
    && (forall k <- w.tables :: k in h.publisher && h.publisher[k] == w.tables[k])
  }

  /** Nor is there anything to remember when a run starts. */
  lemma StartHistoryOk(start: nat, cfg: Config)
    requires start <= MAX_TIME
    ensures var w := World(Db(start, map[]), map[], map[]);
      WorldInv(w, cfg) && AllReached(w) && HistoryOk(w, History(map[], map[], {}, {}, {}))
  {
    StartInv(start, cfg);
  }

  lemma SRemLeavesOut(s: Store, t: string, i: string)
    ensures Agent(t, i) !in R.Unregister(s, t, i).keys
  {
  }

  lemma LiveIsSpared(s: Store, cfg: Config, op: Op, k: Connection)
    requires Owns(s, k) && DeadlineOf(s, k.Key()).Some? && k.Key() in Apply(s, cfg, op).keys
    requires op.ReRegister? ==> op.info.Key() != k.Key()
    ensures Spares(s, op, k)
  {
    hide R.PutAgent, R.UpdateHeartbeat, R.AddSessions, R.Prune;
    if op.Unregister? {
      SRemLeavesOut(s, op.t, op.i);
    }
    hide R.Unregister;
  }

  /** An operation that leaves a hash live, and is no new registration of it, leaves it with its gateway. */
  lemma LiveStaysOwned(s: Store, cfg: Config, op: Op, k: Connection)
    requires Inv(s, cfg) && Allowed(s, op) && cfg.agentTTL > 0 && Owns(s, k)
    requires k.Key() in Apply(s, cfg, op).keys && (op.ReRegister? ==> op.info.Key() != k.Key())
    ensures Owns(Apply(s, cfg, op), k)
  {
    assert R.AgentOk(s, cfg.agentTTL, k.agentType, k.agentID);
    assert DeadlineOf(s, k.Key()).Some?;
    LiveIsSpared(s, cfg, op, k);
    hide Inv, Apply, Owns, Spares, Allowed;
    SparedStaysOwned(s, cfg, op, k);
  }

  lemma WrittenIsOwned(s: Store, cfg: Config, k: Connection)
    requires cfg.agentTTL > 0 && ColonFree(k.agentType) && k.gateway != ""
    ensures Owns(R.PutAgent(s, k.Info(), cfg.agentTTL), k)
  {
    R.PutAgentAt(s, k.Info(), cfg.agentTTL, k.Key());
    hide R.PutAgent;
  }

  lemma GoneFromRegistry(s: Store, cfg: Config, op: Op, k: Key)
    requires k.Agent? && k !in s.keys && (OpFamily(op) == Agents || OpFamily(op) == Time)
    requires (op.Register? || op.ReRegister?) ==> op.info.Key() != k
    ensures k !in Apply(s, cfg, op).keys
  {
  }

  /** A hash that is gone comes back only by registration. */
  lemma GoneStaysGone(s: Store, cfg: Config, op: Op, k: Connection)
    requires k.Key() !in s.keys
    requires (op.Register? || op.ReRegister?) ==> op.info.Key() != k.Key()
    ensures k.Key() !in Apply(s, cfg, op).keys
  {
    if OpFamily(op) == Sessions || OpFamily(op) == Gateways {
      Footprint(s, cfg, op, k.Key());
    } else {
      GoneFromRegistry(s, cfg, op, k.Key());
    }
  }

  lemma OwnedLives(s: Store, k: Connection)
    requires Owns(s, k)
    ensures k.Key() in s.keys
  {
  }

  lemma RegistrantWrites(w: World, cfg: Config, step: Step, c: nat)
    requires Named(w) && Possible(w, step) && Registrant(w, step) == Some(c)
    ensures c in NextConns(w, step)
    ensures var k := NextConns(w, step)[c];
      && ColonFree(k.agentType) && k.gateway != ""
      && NextStore(w, cfg, step) == R.PutAgent(w.store, k.Info(), cfg.agentTTL)
  {
    hide R.PutAgent, Allowed;
  }

  lemma RegistrantHistory(w: World, cfg: Config, h: History, step: Step, c: nat)
    requires Possible(w, step) && Registrant(w, step) == Some(c) && c in Next(w, cfg, step).conns
    ensures var w', h' := Next(w, cfg, step), NextHistory(w, cfg, h, step); var k := w'.conns[c].Key();
      && k in h'.holder && h'.holder[k] == c
      && (k in w'.store.keys ==> c !in h'.lapsed) && c !in h'.robbed
  {
    hide Possible, NextConns, NextTables, NextStore;
  }

  /** Who registered holds the agent, and the hash names its gateway. */
  lemma RegistrantHolds(w: World, cfg: Config, h: History, step: Step, c: nat)
    requires Named(w) && Possible(w, step) && cfg.agentTTL > 0 && Registrant(w, step) == Some(c)
    ensures c in Next(w, cfg, step).conns && HolderOk(Next(w, cfg, step), NextHistory(w, cfg, h, step), c)
  {
    hide R.PutAgent, Named, NextStore, NextHistory, Allowed, NextConns, NextTables, Owns;
    RegistrantWrites(w, cfg, step, c);
    RegistrantHistory(w, cfg, h, step, c);
    WrittenIsOwned(w.store, cfg, Next(w, cfg, step).conns[c]);
    OwnedLives(Next(w, cfg, step).store, Next(w, cfg, step).conns[c]);
  }

  predicate RegistersKey(w: World, step: Step, k: Key)
    requires step.Renew? ==> step.c in w.conns
  {
    && Registrant(w, step).Some?
    && k == if step.Connect? then Agent(step.t, step.i) else if step.Renew? then w.conns[step.c].Key() else k
  }

  /** What a step that does not register its agent does to a connection's hash. */
  lemma HashOverStep(w: World, cfg: Config, step: Step, c: nat)
    requires Inv(w.store, cfg) && Named(w) && Possible(w, step) && cfg.agentTTL > 0 && c in w.conns
    requires !RegistersKey(w, step, w.conns[c].Key())
    ensures w.conns[c].Key() in NextStore(w, cfg, step).keys ==> w.conns[c].Key() in w.store.keys
    ensures w.conns[c].Key() in NextStore(w, cfg, step).keys && Owns(w.store, w.conns[c]) ==>
              Owns(NextStore(w, cfg, step), w.conns[c])
  {
    StoreOpAllowed(w, step);
    hide Inv, Apply, Owns, Allowed, Named;
    var op, k := StoreOp(w, step), w.conns[c];
    if op.Some? {
      if k.Key() !in w.store.keys {
        GoneStaysGone(w.store, cfg, op.value, k);
      } else if k.Key() in NextStore(w, cfg, step).keys && Owns(w.store, k) {
        LiveStaysOwned(w.store, cfg, op.value, k);
      }
    }
  }

  lemma RegistrantsKey(w: World, cfg: Config, step: Step)
    requires Possible(w, step)
    ensures var r := Registrant(w, step);
      r.Some? ==>
        && r.value in Next(w, cfg, step).conns && !Misses(Next(w, cfg, step), r.value)
        && (forall k :: RegistersKey(w, step, k) <==> k == Next(w, cfg, step).conns[r.value].Key())
        && (step.Connect? ==> Next(w, cfg, step).conns[r.value].Key() !in w.store.keys)
  {
    hide NextStore, StoreOp, Allowed;
  }

  /** What a step that is not a connection's own registration does to its history. */
  lemma HistoryOver(w: World, cfg: Config, h: History, step: Step, c: nat)
    requires Possible(w, step) && c in w.conns && c in Next(w, cfg, step).conns && Registrant(w, step) != Some(c)
    ensures var k, w', h' := w.conns[c].Key(), Next(w, cfg, step), NextHistory(w, cfg, h, step);
      && (c in h'.lapsed <==> c in h.lapsed || w'.conns[c].Key() !in w'.store.keys)
      && (c in h'.robbed <==> c in h.robbed || (WritesOver(w, h, step, c) && (step.c, c) in h.since))
      && (if RegistersKey(w, step, k) then k in h'.holder && h'.holder[k] == Registrant(w, step).value != c
                                           && (k in w.store.keys ==> step.Renew? && step.c in w.conns)
          else (k in h'.holder <==> k in h.holder) && (k in h.holder ==> h'.holder[k] == h.holder[k]))
  {
    RegistrantsKey(w, cfg, step);
    hide Possible, NextConns, NextTables, NextStore, StoreOp, RegistersKey;
  }

  /** Another one registers the agent. */
  lemma ReplacedHolderOk(w: World, cfg: Config, h: History, step: Step, c: nat)
    requires Possible(w, step) && c in w.conns && HolderOk(w, h, c) && (step.Renew? ==> MissOk(w, h, step.c))
    requires c in Next(w, cfg, step).conns && Next(w, cfg, step).conns[c].Key() == w.conns[c].Key()
    requires RegistersKey(w, step, w.conns[c].Key()) && Registrant(w, step) != Some(c)
    ensures HolderOk(Next(w, cfg, step), NextHistory(w, cfg, h, step), c)
  {
    HistoryOver(w, cfg, h, step, c);
    hide Allowed, NextConns, NextTables, NextStore, StoreOp, NextHistory, Owns;
  }

  /** Nobody does. */
  lemma KeptHolderOk(w: World, cfg: Config, h: History, step: Step, c: nat)
    requires Inv(w.store, cfg) && Named(w) && Possible(w, step) && cfg.agentTTL > 0
    requires c in w.conns && HolderOk(w, h, c) && c in Next(w, cfg, step).conns
    requires !RegistersKey(w, step, w.conns[c].Key())
    ensures HolderOk(Next(w, cfg, step), NextHistory(w, cfg, h, step), c)
  {
    var w', h' := Next(w, cfg, step), NextHistory(w, cfg, h, step);
    ConnsBefore(w, step);
    HistoryOver(w, cfg, h, step, c);
    hide Named, Inv, Allowed, NextConns, NextTables, NextStore, StoreOp, NextHistory, Owns;
    HashOverStep(w, cfg, step, c);
    if HoldsLive(w', h', c) {
      OwnsByKey(w'.store, w.conns[c], w'.conns[c]);
    }
  }

  lemma OtherHolderOk(w: World, cfg: Config, h: History, step: Step, c: nat)
    requires Inv(w.store, cfg) && Named(w) && Possible(w, step) && cfg.agentTTL > 0
    requires forall d <- w.conns :: HolderOk(w, h, d) && MissOk(w, h, d)
    requires c in w.conns && c in Next(w, cfg, step).conns && Registrant(w, step) != Some(c)
    ensures HolderOk(Next(w, cfg, step), NextHistory(w, cfg, h, step), c)
  {
    hide Named, Inv, Allowed, NextConns, NextTables, NextStore, NextHistory, HolderOk, MissOk, RegistersKey;
    ConnsBefore(w, step);
    assert HolderOk(w, h, c);
    if RegistersKey(w, step, w.conns[c].Key()) {
      assert step.Renew? ==> MissOk(w, h, step.c);
      ReplacedHolderOk(w, cfg, h, step, c);
    } else {
      KeptHolderOk(w, cfg, h, step, c);
    }
  }

  lemma SinceOver(w: World, cfg: Config, h: History, step: Step, d: nat)
    requires Possible(w, step) && d in w.conns && Misses(w, d) && Misses(Next(w, cfg, step), d)
    ensures var k, h' := w.conns[d].Key(), NextHistory(w, cfg, h, step);
      && Registrant(w, step) != Some(d)
      && (forall c :: (d, c) in h.since ==> (d, c) in h'.since)
      && (RegistersKey(w, step, k) ==> (d, Registrant(w, step).value) in h'.since)
  {
    RegistrantsKey(w, cfg, step);
    hide Possible, NextConns, NextTables, NextStore, StoreOp, RegistersKey;
  }

  /** A connection that has missed did so before, or finds no hash in this step. */
  lemma MissesBefore(w: World, cfg: Config, step: Step, d: nat)
    requires Possible(w, step) && Misses(Next(w, cfg, step), d)
    ensures d in w.conns && Next(w, cfg, step).conns[d].Key() == w.conns[d].Key()
    ensures Misses(w, d) || (step == Beat(d) && w.conns[d].Key() !in w.store.keys)
  {
    hide NextStore, StoreOp, Allowed;
  }

  lemma StepMissOk(w: World, cfg: Config, h: History, step: Step, d: nat)
    requires Inv(w.store, cfg) && Named(w) && Possible(w, step) && cfg.agentTTL > 0
    requires d in Next(w, cfg, step).conns && (d in w.conns ==> MissOk(w, h, d))
    ensures MissOk(Next(w, cfg, step), NextHistory(w, cfg, h, step), d)
  {
    var w', h' := Next(w, cfg, step), NextHistory(w, cfg, h, step);
    hide Named, Inv, NextConns, NextTables, NextStore, StoreOp, NextHistory, Possible;
    if Misses(w', d) && w'.conns[d].Key() in w'.store.keys {
      var k := w.conns[d].Key();
      MissesBefore(w, cfg, step, d);
      if !RegistersKey(w, step, k) {
        HashOverStep(w, cfg, step, d);
      }
      SinceOver(w, cfg, h, step, d);
      HistoryOver(w, cfg, h, step, d);
    }
  }

  lemma PublishersOk(w: World, cfg: Config, h: History, step: Step)
    requires Possible(w, step) && (forall k <- w.tables :: k in h.publisher && h.publisher[k] == w.tables[k])
    ensures var w', h' := Next(w, cfg, step), NextHistory(w, cfg, h, step);
      forall k <- w'.tables :: k in h'.publisher && h'.publisher[k] == w'.tables[k]
  {
    hide NextStore, StoreOp, Allowed;
  }

  lemma StepHistoryOk(w: World, cfg: Config, h: History, step: Step)
    requires Inv(w.store, cfg) && HistoryOk(w, h) && Possible(w, step) && cfg.agentTTL > 0
    ensures Inv(Next(w, cfg, step).store, cfg) && HistoryOk(Next(w, cfg, step), NextHistory(w, cfg, h, step))
  {
    var w', h' := Next(w, cfg, step), NextHistory(w, cfg, h, step);
    StoreKeepsInv(w, cfg, step);
    EntriesStayOk(w, cfg, step);
    ConnsBefore(w, step);
    PublishersOk(w, cfg, h, step);
    assert Named(w') by { hide Inv, NextStore, NextTables; }
    forall c | c in w'.conns ensures HolderOk(w', h', c) && MissOk(w', h', c) {
      hide HolderOk, MissOk, Inv, EntriesOk, NextStore, NextTables;
      StepMissOk(w, cfg, h, step, c);
      if Registrant(w, step) == Some(c) {
        RegistrantHolds(w, cfg, h, step, c);
      } else {
        assert c in w.conns;
        OtherHolderOk(w, cfg, h, step, c);
      }
    }
  }

  /** Where a run leads, and what it leaves to remember. */
  ghost function Past(w: World, cfg: Config, h: History, steps: seq<Step>): (World, History)
    requires PossibleRun(w, cfg, steps)
    decreases |steps|
  {
    if steps == [] then (w, h) else Past(Next(w, cfg, steps[0]), cfg, NextHistory(w, cfg, h, steps[0]), steps[1..])
  }

  lemma {:induction false} PastHistoryOk(w: World, cfg: Config, h: History, steps: seq<Step>)
    requires Inv(w.store, cfg) && HistoryOk(w, h) && PossibleRun(w, cfg, steps) && cfg.agentTTL > 0
    ensures var (w', h') := Past(w, cfg, h, steps); Inv(w'.store, cfg) && HistoryOk(w', h')
    decreases |steps|
  {
    if steps != [] {
      StepHistoryOk(w, cfg, h, steps[0]);
      hide Inv, HistoryOk, Possible, Next, NextHistory;
      PastHistoryOk(Next(w, cfg, steps[0]), cfg, NextHistory(w, cfg, h, steps[0]), steps[1..]);
    }
  }

  // ----- Leaving and beating -----

  /** Leaving takes the hash of a connection exactly when it owns one under the same key. */
  lemma LeaveTakesExactly(w: World, cfg: Config, c: nat, c': nat)
    requires WellKinded(w.store) && c in w.conns && c' in w.conns && Owns(w.store, w.conns[c'])
    ensures Owns(NextStore(w, cfg, Step.Leave(c)), w.conns[c']) <==> w.conns[c'].Key() != w.conns[c].Key()
  {
    var k, k' := w.conns[c], w.conns[c'];
    RP.UnregisterAt(w.store, k.agentType, k.agentID, k'.Key());
    hide R.Unregister, WellKinded;
  }

  /** The agent's hash is live, and another connection still there is the one that registered it last. */
  ghost predicate Succeeded(w: World, h: History, c: nat)
    requires c in w.conns
  {
    var k := w.conns[c].Key();
    k in w.store.keys && k in h.holder && h.holder[k] != c && h.holder[k] in w.conns && w.conns[h.holder[k]].Key() == k
  }

  /** Its slot has an entry, and another connection was published there last. */
  predicate PublishedOver(w: World, h: History, c: nat)
    requires c in w.conns
  {
    var k := w.conns[c].Slot();
    k in w.tables && k in h.publisher && h.publisher[k] != c
  }

  /** Some other connection loses the agent it holds when c leaves. */
  ghost predicate LeaveEvicts(w: World, cfg: Config, h: History, c: nat)
    requires c in w.conns
  {
    exists c' <- w.conns :: c' != c && Holds(w, h, c') && Owns(w.store, w.conns[c'])
                            && !Owns(NextStore(w, cfg, Step.Leave(c)), w.conns[c'])
  }

  /** Some other connection loses its table entry when c is removed. */
  predicate RemovalEvicts(w: World, c: nat)
    requires c in w.conns
  {
    exists c' <- w.conns :: c' != c && Points(w, c') && w.conns[c'].Slot() !in NextTables(w, RemoveLocal(c))
  }

  lemma EvictionNow(w: World, cfg: Config, h: History, c: nat)
    requires WellKinded(w.store) && HistoryOk(w, h) && c in w.conns
    ensures LeaveEvicts(w, cfg, h, c) <==> Succeeded(w, h, c)
    ensures Succeeded(w, h, c) ==> c in h.lapsed || c in h.robbed
    ensures RemovalEvicts(w, c) <==> PublishedOver(w, h, c)
  {
    hide WellKinded;
    assert HolderOk(w, h, c);
    if LeaveEvicts(w, cfg, h, c) {
      var c' :| c' in w.conns && c' != c && Holds(w, h, c') && Owns(w.store, w.conns[c'])
                && !Owns(NextStore(w, cfg, Step.Leave(c)), w.conns[c']);
      LeaveTakesExactly(w, cfg, c, c');
    }
    if Succeeded(w, h, c) {
      var c' := h.holder[w.conns[c].Key()];
      assert HolderOk(w, h, c');
      LeaveTakesExactly(w, cfg, c, c');
    }
    hide Owns, NextStore, HolderOk, Holds, LeaveEvicts, Succeeded;
    if PublishedOver(w, h, c) {
      assert Points(w, w.tables[w.conns[c].Slot()]);
    }
  }

  /** When a disconnect takes something from another connection, on the same gateway or another, in any
      run without guards: by unregistering, exactly if another connection has registered the agent since
      it did and still has it, which takes that its own lease has lapsed since or that its live hash was
      written over; by leaving the table, exactly if another connection was published in its slot since and
      is still there. */
  lemma DisconnectEvictsExactly(start: World, cfg: Config, h: History, steps: seq<Step>, c: nat)
    requires Inv(start.store, cfg) && HistoryOk(start, h) && PossibleRun(start, cfg, steps) && cfg.agentTTL > 0
    requires c in Past(start, cfg, h, steps).0.conns
    ensures var (w, h') := Past(start, cfg, h, steps);
      && (LeaveEvicts(w, cfg, h', c) <==> Succeeded(w, h', c))
      && (Succeeded(w, h', c) ==> c in h'.lapsed || c in h'.robbed)
      && (RemovalEvicts(w, c) <==> PublishedOver(w, h', c))
  {
    PastHistoryOk(start, cfg, h, steps);
    var (w, h') := Past(start, cfg, h, steps);
    InvKinded(w.store, cfg);
    hide Past, PossibleRun, Inv;
    EvictionNow(w, cfg, h', c);
  }

  /** The agent's hash is live, and another connection registered it since. */
  predicate Superseded(w: World, h: History, c: nat)
    requires c in w.conns
  {
    var k := w.conns[c].Key();
    k in w.store.keys && k in h.holder && h.holder[k] != c
  }

  /** The beat of c renews a hash that another connection registered, and leaves it with that one. */
  ghost predicate BeatsForAnother(w: World, cfg: Config, h: History, c: nat)
    requires c in w.conns && Possible(w, Beat(c))
  {
    var k, w', h' := w.conns[c].Key(), Next(w, cfg, Beat(c)), NextHistory(w, cfg, h, Beat(c));
    && k in w'.store.keys && DeadlineOf(w'.store, k) == Some(w.store.now + cfg.agentTTL)
    && k in h'.holder && h'.holder[k] != c
  }

  /** A beat that finds a hash renews its lease and leaves it with its gateway. */
  lemma LiveBeat(w: World, cfg: Config, c: nat)
    requires c in w.conns && cfg.agentTTL > 0 && w.conns[c].Key() in w.store.keys
    ensures var k, s' := w.conns[c], NextStore(w, cfg, Beat(c));
      && DeadlineOf(s', k.Key()) == Some(w.store.now + cfg.agentTTL)
      && R.GatewayOf(s', k.agentType, k.agentID) == R.GatewayOf(w.store, k.agentType, k.agentID)
  {
    R.HeartbeatAt(w.store, w.conns[c].agentType, w.conns[c].agentID, cfg.agentTTL, w.conns[c].Key());
    hide R.UpdateHeartbeat;
  }

  lemma DeadBeat(w: World, cfg: Config, c: nat)
    requires c in w.conns && w.conns[c].Key() !in w.store.keys
    ensures NextStore(w, cfg, Beat(c)) == w.store
  {
  }

  lemma BeatNow(w: World, cfg: Config, h: History, c: nat)
    requires HistoryOk(w, h) && c in w.conns && Possible(w, Beat(c)) && cfg.agentTTL > 0
    ensures BeatsForAnother(w, cfg, h, c) <==> Superseded(w, h, c)
    ensures Superseded(w, h, c) ==>
              && (c in h.lapsed || c in h.robbed)
              && R.GatewayOf(Next(w, cfg, Beat(c)).store, w.conns[c].agentType, w.conns[c].agentID)
                 == R.GatewayOf(w.store, w.conns[c].agentType, w.conns[c].agentID)
  {
    var k := w.conns[c];
    assert HolderOk(w, h, c);
    if k.Key() in w.store.keys {
      LiveBeat(w, cfg, c);
    } else {
      DeadBeat(w, cfg, c);
    }
    hide NextStore, R.GatewayOf, Owns;
  }

  /** In any run, a beat renews the lease of another connection exactly if that one registered the agent
      since the beating one did, whose own lease then has lapsed or been written over. The hash goes on
      naming the gateway it named, and that gateway need not be there any more: routing can be kept on a
      dead one. */
  lemma BeatRenewsAnotherExactly(start: World, cfg: Config, h: History, steps: seq<Step>, c: nat)
    requires Inv(start.store, cfg) && HistoryOk(start, h) && PossibleRun(start, cfg, steps) && cfg.agentTTL > 0
    requires c in Past(start, cfg, h, steps).0.conns && Possible(Past(start, cfg, h, steps).0, Beat(c))
    ensures var (w, h') := Past(start, cfg, h, steps); var k := w.conns[c];
      && (BeatsForAnother(w, cfg, h', c) <==> Superseded(w, h', c))
      && (Superseded(w, h', c) ==>
            && (c in h'.lapsed || c in h'.robbed)
            && R.GatewayOf(Next(w, cfg, Beat(c)).store, k.agentType, k.agentID)
               == R.GatewayOf(w.store, k.agentType, k.agentID))
  {
    PastHistoryOk(start, cfg, h, steps);
    hide Past, PossibleRun, Inv;
    BeatNow(Past(start, cfg, h, steps).0, cfg, Past(start, cfg, h, steps).1, c);
  }

  // ----- A registration after a missed beat -----

  /** Some other connection loses the agent it holds when d registers again. */
  ghost predicate RenewEvicts(w: World, cfg: Config, h: History, d: nat)
    requires d in w.conns
  {
    exists c <- w.conns :: c != d && HoldsLive(w, h, c) && Owns(w.store, w.conns[c])
                           && !Owns(NextStore(w, cfg, Renew(d)), w.conns[c])
  }

  /** The agent's hash after a registration is live and names the gateway of the connection registering. */
  lemma RenewedHash(w: World, cfg: Config, d: nat)
    requires Named(w) && cfg.agentTTL > 0 && d in w.conns
    ensures Owns(NextStore(w, cfg, Renew(d)), w.conns[d])
  {
    WrittenIsOwned(w.store, cfg, w.conns[d]);
    hide R.PutAgent;
  }

  lemma SameHashSameGateway(s: Store, k: Connection, k': Connection)
    requires Owns(s, k) && k.Key() == k'.Key() && ColonFree(k'.agentType) && k'.gateway != ""
    ensures Owns(s, k') <==> k'.gateway == k.gateway
  {
  }

  lemma RenewTakesOf(w: World, cfg: Config, d: nat, c: nat)
    requires Inv(w.store, cfg) && Named(w) && cfg.agentTTL > 0
    requires d in w.conns && c in w.conns && Owns(w.store, w.conns[c])
    ensures Owns(NextStore(w, cfg, Renew(d)), w.conns[c])
       <==> w.conns[c].Key() != w.conns[d].Key() || w.conns[c].gateway == w.conns[d].gateway
  {
    var k, k' := w.conns[d], w.conns[c];
    if k.Key() == k'.Key() {
      RenewedHash(w, cfg, d);
      hide NextStore, Owns;
      SameHashSameGateway(NextStore(w, cfg, Renew(d)), k, k');
    } else {
      var op := ReRegister(k.Info());
      assert R.AgentOk(w.store, cfg.agentTTL, k'.agentType, k'.agentID);
      assert Allowed(w.store, op);
      hide Inv, Apply, Owns, Allowed;
      SparedStaysOwned(w.store, cfg, op, k');
    }
  }

  lemma RenewNow(w: World, cfg: Config, h: History, d: nat)
    requires Inv(w.store, cfg) && HistoryOk(w, h) && cfg.agentTTL > 0 && d in w.conns
    ensures RenewEvicts(w, cfg, h, d)
       <==> Succeeded(w, h, d) && w.conns[h.holder[w.conns[d].Key()]].gateway != w.conns[d].gateway
  {
    hide Inv, NextStore, Owns;
    if RenewEvicts(w, cfg, h, d) {
      var c :| c in w.conns && c != d && HoldsLive(w, h, c) && Owns(w.store, w.conns[c])
               && !Owns(NextStore(w, cfg, Renew(d)), w.conns[c]);
      RenewTakesOf(w, cfg, d, c);
    }
    if Succeeded(w, h, d) {
      var c := h.holder[w.conns[d].Key()];
      assert HolderOk(w, h, c);
      RenewTakesOf(w, cfg, d, c);
    }
  }

  /** What becomes of the connection whose live hash d writes over when it registers again. */
  lemma RobbedNow(w: World, cfg: Config, h: History, d: nat)
    requires Inv(w.store, cfg) && HistoryOk(w, h) && cfg.agentTTL > 0 && d in w.conns && Possible(w, Renew(d))
    requires Succeeded(w, h, d)
    ensures var c, w', h' := h.holder[w.conns[d].Key()], Next(w, cfg, Renew(d)), NextHistory(w, cfg, h, Renew(d));
      && c !in h.lapsed && (d, c) in h.since
      && c in w'.conns && c !in h'.lapsed && c in h'.robbed && Succeeded(w', h', c)
  {
    var c, w', h' := h.holder[w.conns[d].Key()], Next(w, cfg, Renew(d)), NextHistory(w, cfg, h, Renew(d));
    assert HolderOk(w, h, c) && MissOk(w, h, d);
    RenewedHash(w, cfg, d);
    assert Named(w);
    OwnedLives(w'.store, w.conns[d]);
    hide NextStore, NextTables, Inv, Owns, HistoryOk;
  }

  lemma HistoryNamed(w: World, h: History)
    requires HistoryOk(w, h)
    ensures Named(w)
  {
  }

  lemma HolderIs(w: World, h: History, c: nat)
    requires c in w.conns && Holds(w, h, c)
    ensures w.conns[c].Key() in h.holder && h.holder[w.conns[c].Key()] == c
  {
  }

  /** In any run, a connection that registers again after a missed beat takes the agent from another one
      exactly if that one registered it since and still has it, on another gateway. The other has not
      lapsed: it registered after the beat was missed. By leaving it would now take the agent from the
      first, on the same gateway too. */
  lemma RenewTakesExactly(start: World, cfg: Config, h: History, steps: seq<Step>, d: nat)
    requires Inv(start.store, cfg) && HistoryOk(start, h) && PossibleRun(start, cfg, steps) && cfg.agentTTL > 0
    requires d in Past(start, cfg, h, steps).0.conns && Possible(Past(start, cfg, h, steps).0, Renew(d))
    ensures var (w, h') := Past(start, cfg, h, steps); var k := w.conns[d].Key();
      && (RenewEvicts(w, cfg, h', d) <==> Succeeded(w, h', d) && w.conns[h'.holder[k]].gateway != w.conns[d].gateway)
      && (Succeeded(w, h', d) ==>
            var c, w'', h'' := h'.holder[k], Next(w, cfg, Renew(d)), NextHistory(w, cfg, h', Renew(d));
            && c !in h'.lapsed && (d, c) in h'.since
            && c in w''.conns && c !in h''.lapsed && c in h''.robbed && Succeeded(w'', h'', c))
  {
    PastHistoryOk(start, cfg, h, steps);
    var (w, h') := Past(start, cfg, h, steps);
    hide Past, PossibleRun, Inv, HistoryOk, Possible, Next, NextHistory, RenewEvicts;
    RenewNow(w, cfg, h', d);
    if Succeeded(w, h', d) {
      RobbedNow(w, cfg, h', d);
    }
  }

  /** A registration after a missed beat meets a connection that holds the agent by now. */
  ghost predicate RenewsOver(w: World, h: History, step: Step) {
    step.Renew? && step.c in w.conns && Succeeded(w, h, step.c)
  }

  /** The test that `Register` makes and `ReRegister` does not: the agent's hash is live. */
  predicate MeetsHash(w: World, step: Step) {
    step.Renew? && step.c in w.conns && w.conns[step.c].Key() in w.store.keys
  }

  /** Whoever can take a registration from another connection by leaving has lapsed. */
  ghost predicate LapseExplains(w: World, h: History) {
    forall c <- w.conns :: Succeeded(w, h, c) ==> c in h.lapsed
  }

  ghost predicate ExplainedThroughout(w: World, cfg: Config, h: History, steps: seq<Step>)
    requires PossibleRun(w, cfg, steps)
    decreases |steps|
  {
    && LapseExplains(w, h)
    && (steps != [] ==>
          ExplainedThroughout(Next(w, cfg, steps[0]), cfg, NextHistory(w, cfg, h, steps[0]), steps[1..]))
  }

  ghost predicate NoneOver(w: World, cfg: Config, h: History, steps: seq<Step>)
    requires PossibleRun(w, cfg, steps)
    decreases |steps|
  {
    steps != [] ==>
      && !RenewsOver(w, h, steps[0])
      && NoneOver(Next(w, cfg, steps[0]), cfg, NextHistory(w, cfg, h, steps[0]), steps[1..])
  }

  ghost predicate NoneMeetsHash(w: World, cfg: Config, steps: seq<Step>)
    requires PossibleRun(w, cfg, steps)
    decreases |steps|
  {
    steps != [] ==> !MeetsHash(w, steps[0]) && NoneMeetsHash(Next(w, cfg, steps[0]), cfg, steps[1..])
  }

  lemma UnrobbedIsExplained(w: World, h: History)
    requires HistoryOk(w, h) && h.robbed == {}
    ensures LapseExplains(w, h)
  {
    forall c | c in w.conns && Succeeded(w, h, c) ensures c in h.lapsed {
      assert HolderOk(w, h, c);
    }
  }

  lemma StepExplainsExactly(w: World, cfg: Config, h: History, step: Step)
    requires Inv(w.store, cfg) && HistoryOk(w, h) && Possible(w, step) && cfg.agentTTL > 0 && h.robbed == {}
    ensures if RenewsOver(w, h, step) then !LapseExplains(Next(w, cfg, step), NextHistory(w, cfg, h, step))
            else NextHistory(w, cfg, h, step).robbed == {}
  {
    hide Inv, HistoryOk, Next, Possible, Owns;
    if RenewsOver(w, h, step) {
      hide NextHistory, Succeeded;
      RobbedNow(w, cfg, h, step.c);
    }
  }

  lemma ExplainedFirst(w: World, cfg: Config, h: History, steps: seq<Step>)
    requires PossibleRun(w, cfg, steps) && ExplainedThroughout(w, cfg, h, steps)
    ensures LapseExplains(w, h)
  {
  }

  /** Only a lapsed connection can take a registration from another by leaving, all through a run, exactly
      if no registration after a missed beat meets a connection that holds the agent by then. */
  lemma {:induction false} LapseExplainsExactly(w: World, cfg: Config, h: History, steps: seq<Step>)
    requires Inv(w.store, cfg) && HistoryOk(w, h) && PossibleRun(w, cfg, steps) && cfg.agentTTL > 0 && h.robbed == {}
    ensures ExplainedThroughout(w, cfg, h, steps) <==> NoneOver(w, cfg, h, steps)
    decreases |steps|
  {
    UnrobbedIsExplained(w, h);
    if steps != [] {
      var w', h' := Next(w, cfg, steps[0]), NextHistory(w, cfg, h, steps[0]);
      StepHistoryOk(w, cfg, h, steps[0]);
      StepExplainsExactly(w, cfg, h, steps[0]);
      hide Inv, HistoryOk, Possible, Next, NextHistory, LapseExplains, RenewsOver;
      if RenewsOver(w, h, steps[0]) {
        if ExplainedThroughout(w', cfg, h', steps[1..]) {
          ExplainedFirst(w', cfg, h', steps[1..]);
        }
      } else {
        LapseExplainsExactly(w', cfg, h', steps[1..]);
      }
    }
  }

  /** Whoever registered a connection's live hash last is still there. */
  predicate HeldNow(w: World, h: History, c: nat)
    requires c in w.conns
  {
    var k := w.conns[c].Key();
    k in w.store.keys ==> k in h.holder && h.holder[k] in w.conns && w.conns[h.holder[k]].Key() == k
  }

  ghost predicate AllHeld(w: World, h: History) {
    forall c <- w.conns :: HeldNow(w, h, c)
  }

  /** Without a crash a connection goes by leaving only, and its hash with it. */
  lemma GoesByLeaving(w: World, cfg: Config, step: Step, c: nat)
    requires Possible(w, step) && !step.Crash? && c in w.conns && c !in Next(w, cfg, step).conns
    ensures w.conns[c].Key() !in NextStore(w, cfg, step).keys
  {
    assert step == Step.Leave(c) by { hide NextStore, StoreOp, Allowed; }
    SRemLeavesOut(w.store, w.conns[c].agentType, w.conns[c].agentID);
    hide R.Unregister;
  }

  lemma StepHeld(w: World, cfg: Config, h: History, step: Step, c: nat)
    requires Inv(w.store, cfg) && Named(w) && Possible(w, step) && cfg.agentTTL > 0 && !step.Crash?
    requires c in Next(w, cfg, step).conns && (c in w.conns ==> HeldNow(w, h, c))
    ensures HeldNow(Next(w, cfg, step), NextHistory(w, cfg, h, step), c)
  {
    var w', h' := Next(w, cfg, step), NextHistory(w, cfg, h, step);
    hide Named, Inv, Possible, NextConns, NextTables, NextStore, StoreOp;
    RegistrantsKey(w, cfg, step);
    ConnsBefore(w, step);
    if Registrant(w, step) != Some(c) {
      var k := w.conns[c].Key();
      HistoryOver(w, cfg, h, step, c);
      hide NextHistory;
      if k in w'.store.keys && !RegistersKey(w, step, k) {
        HashOverStep(w, cfg, step, c);
        if h.holder[k] !in w'.conns {
          GoesByLeaving(w, cfg, step, h.holder[k]);
        }
      }
    }
  }

  lemma MeetsExactly(w: World, h: History, step: Step)
    requires HistoryOk(w, h) && Possible(w, step)
    ensures RenewsOver(w, h, step) ==> MeetsHash(w, step)
    ensures AllHeld(w, h) ==> (RenewsOver(w, h, step) <==> MeetsHash(w, step))
  {
    if MeetsHash(w, step) {
      assert MissOk(w, h, step.c);
      assert AllHeld(w, h) ==> HeldNow(w, h, step.c);
    }
    hide HistoryOk, Owns;
  }

  lemma {:induction false} OverMeetsHash(w: World, cfg: Config, h: History, steps: seq<Step>)
    requires Inv(w.store, cfg) && HistoryOk(w, h) && PossibleRun(w, cfg, steps) && cfg.agentTTL > 0
    ensures NoneMeetsHash(w, cfg, steps) ==> NoneOver(w, cfg, h, steps)
    ensures AllHeld(w, h) && (forall step <- steps :: !step.Crash?) ==>
              (NoneOver(w, cfg, h, steps) <==> NoneMeetsHash(w, cfg, steps))
    decreases |steps|
  {
    if steps != [] {
      var w', h' := Next(w, cfg, steps[0]), NextHistory(w, cfg, h, steps[0]);
      StepHistoryOk(w, cfg, h, steps[0]);
      MeetsExactly(w, h, steps[0]);
      if AllHeld(w, h) && !steps[0].Crash? {
        forall c | c in w'.conns ensures HeldNow(w', h', c) {
          StepHeld(w, cfg, h, steps[0], c);
        }
        assert AllHeld(w', h');
      }
      hide Inv, HistoryOk, Possible, Next, NextHistory, RenewsOver, MeetsHash, AllHeld;
      OverMeetsHash(w', cfg, h', steps[1..]);
    }
  }

  /** It is enough that none meets a live hash, which could be tested before registering, for instance by
      calling `Register` there. In a run without a crash that is exact: each live hash has its connection. */
  lemma LapseExplainsByTest(w: World, cfg: Config, h: History, steps: seq<Step>)
    requires Inv(w.store, cfg) && HistoryOk(w, h) && PossibleRun(w, cfg, steps) && cfg.agentTTL > 0 && h.robbed == {}
    ensures NoneMeetsHash(w, cfg, steps) ==> ExplainedThroughout(w, cfg, h, steps)
    ensures AllHeld(w, h) && (forall step <- steps :: !step.Crash?) ==>
              (ExplainedThroughout(w, cfg, h, steps) <==> NoneMeetsHash(w, cfg, steps))
  {
    hide *;
    LapseExplainsExactly(w, cfg, h, steps);
    OverMeetsHash(w, cfg, h, steps);
  }

  // ----- Cases that happen -----

  lemma Reconnects(w: World, cfg: Config, h: History, c: nat, c': nat, g: string)
    requires Named(w) && cfg.agentTTL > 0 && g != ""
    requires c in w.conns && c' !in w.conns && w.conns[c].Key() !in w.store.keys
    ensures var k := w.conns[c]; var connect := Connect(c', k.agentType, k.agentID, g);
      && Possible(w, connect)
      && var w1, h1 := Next(w, cfg, connect), NextHistory(w, cfg, h, connect);
      && c in w1.conns && w1.conns[c] == k && c' in w1.conns
          && w1.conns[c'] == Connection(k.agentType, k.agentID, g, Registered)
      && Holds(w1, h1, c') && Owns(w1.store, w1.conns[c'])
  {
    var connect := Connect(c', w.conns[c].agentType, w.conns[c].agentID, g);
    RegistrantHolds(w, cfg, h, connect, c');
    assert HolderOk(Next(w, cfg, connect), NextHistory(w, cfg, h, connect), c');
    hide NextStore, Owns, Named;
  }

  lemma NoStoreOp(w: World, cfg: Config, step: Step)
    requires step.Publish? || step.Stop? || step.RemoveLocal? || step.Crash?
    ensures NextStore(w, cfg, step) == w.store
  {
  }

  lemma LeaveTakes(w: World, cfg: Config, c: nat, c': nat)
    requires c in w.conns && c' in w.conns && w.conns[c].Key() == w.conns[c'].Key()
    ensures !Owns(NextStore(w, cfg, Step.Leave(c)), w.conns[c'])
  {
    SRemLeavesOut(w.store, w.conns[c].agentType, w.conns[c].agentID);
    hide R.Unregister;
  }

  lemma PublishEvicts(w: World, cfg: Config, h: History, c: nat, c': nat)
    requires c in w.conns && c' in w.conns && c != c' && w.conns[c].Key() == w.conns[c'].Key()
              && w.conns[c'].stage == Registered
    requires Holds(w, h, c') && Owns(w.store, w.conns[c'])
    ensures Possible(w, Publish(c'))
    ensures var w2, h2 := Next(w, cfg, Publish(c')), NextHistory(w, cfg, h, Publish(c'));
      && c in w2.conns && LeaveEvicts(w2, cfg, h2, c)
      && (w.conns[c'].gateway == w.conns[c].gateway ==> RemovalEvicts(w2, c))
  {
    var w2, h2 := Next(w, cfg, Publish(c')), NextHistory(w, cfg, h, Publish(c'));
    NoStoreOp(w, cfg, Publish(c'));
    OwnsByKey(w.store, w.conns[c'], w2.conns[c']);
    LeaveTakes(w2, cfg, c, c');
    hide NextStore, Owns;
    assert Holds(w2, h2, c');
    assert w.conns[c'].gateway == w.conns[c].gateway ==> Points(w2, c');
  }

  lemma MissedBeat(w: World, cfg: Config, c: nat)
    requires c in w.conns && w.conns[c].stage == Serving && w.conns[c].Key() !in w.store.keys
    ensures var w' := Next(w, cfg, Beat(c));
      Possible(w, Beat(c)) && w'.conns == w.conns[c := w.conns[c].(stage := Missed)] && w'.store == w.store
  {
    DeadBeat(w, cfg, c);
    hide NextStore;
  }

  lemma PublishedSucceeds(w: World, cfg: Config, h: History, c: nat, c': nat)
    requires c in w.conns && c' in w.conns && c != c' && w.conns[c].Key() == w.conns[c'].Key()
    requires w.conns[c'].stage == Registered && Holds(w, h, c') && Owns(w.store, w.conns[c'])
    ensures Possible(w, Publish(c'))
    ensures var w', h' := Next(w, cfg, Publish(c')), NextHistory(w, cfg, h, Publish(c'));
      && c in w'.conns && w'.conns[c] == w.conns[c] && Succeeded(w', h', c) && h'.holder == h.holder
      && c' in w'.conns && w'.conns[c'] == w.conns[c'].(stage := Serving)
  {
    OwnedLives(w.store, w.conns[c']);
    NoStoreOp(w, cfg, Publish(c'));
    hide NextStore, Owns;
  }

  lemma RenewedOver(w: World, cfg: Config, h: History, c: nat)
    requires Inv(w.store, cfg) && HistoryOk(w, h) && cfg.agentTTL > 0 && c in w.conns && Possible(w, Renew(c))
    requires Succeeded(w, h, c) && w.conns[h.holder[w.conns[c].Key()]].gateway != w.conns[c].gateway
    ensures var k, c' := w.conns[c], h.holder[w.conns[c].Key()];
      var w', h' := Next(w, cfg, Renew(c)), NextHistory(w, cfg, h, Renew(c));
      && RenewEvicts(w, cfg, h, c) && R.GatewayOf(w'.store, k.agentType, k.agentID) == k.gateway
      && c' in w'.conns && c' !in h'.lapsed && LeaveEvicts(w', cfg, h', c')
  {
    var w', h' := Next(w, cfg, Renew(c)), NextHistory(w, cfg, h, Renew(c));
    RenewNow(w, cfg, h, c);
    RobbedNow(w, cfg, h, c);
    StepHistoryOk(w, cfg, h, Renew(c));
    InvKinded(w'.store, cfg);
    assert Named(w);
    RenewedHash(w, cfg, c);
    OwnsNames(w'.store, w.conns[c]);
    hide Inv, HistoryOk, Owns, RenewEvicts, NextStore, NextHistory, NextConns, NextTables, Possible, R.GatewayOf;
    EvictionNow(w', cfg, h', h.holder[w.conns[c].Key()]);
  }

  /** The case that happens: a lapsed connection's beat finds no hash; its agent connects again, to another
      gateway; and then the old connection registers again. It takes the agent from the new one, which
      never lapsed, and that one takes it back from the old by leaving. */
  lemma LateRenewTakes(w: World, cfg: Config, h: History, c: nat, c': nat, g: string)
    requires Inv(w.store, cfg) && HistoryOk(w, h) && cfg.agentTTL > 0 && g != "" && c in w.conns
    requires c' !in w.conns && w.conns[c].stage == Serving && w.conns[c].Key() !in w.store.keys
    requires g != w.conns[c].gateway
    ensures var k := w.conns[c]; var connect := Connect(c', k.agentType, k.agentID, g);
      && Possible(w, Beat(c))
      && var w1, h1 := Next(w, cfg, Beat(c)), NextHistory(w, cfg, h, Beat(c));
      && Possible(w1, connect)
      && var w2, h2 := Next(w1, cfg, connect), NextHistory(w1, cfg, h1, connect);
      && Possible(w2, Publish(c'))
      && var w3, h3 := Next(w2, cfg, Publish(c')), NextHistory(w2, cfg, h2, Publish(c'));
      && Possible(w3, Renew(c)) && RenewEvicts(w3, cfg, h3, c)
      && var w4, h4 := Next(w3, cfg, Renew(c)), NextHistory(w3, cfg, h3, Renew(c));
      && c' in w4.conns && c' !in h4.lapsed && R.GatewayOf(w4.store, k.agentType, k.agentID) == k.gateway
      && LeaveEvicts(w4, cfg, h4, c')
  {
    hide Inv, HistoryOk, Next, NextHistory, Owns, Holds, Succeeded, RenewEvicts, LeaveEvicts, R.GatewayOf, Named;
    var k := w.conns[c];
    var connect := Connect(c', k.agentType, k.agentID, g);
    MissedBeat(w, cfg, c);
    StepHistoryOk(w, cfg, h, Beat(c));
    var w1, h1 := Next(w, cfg, Beat(c)), NextHistory(w, cfg, h, Beat(c));
    HistoryNamed(w1, h1);
    Reconnects(w1, cfg, h1, c, c', g);
    StepHistoryOk(w1, cfg, h1, connect);
    var w2, h2 := Next(w1, cfg, connect), NextHistory(w1, cfg, h1, connect);
    PublishedSucceeds(w2, cfg, h2, c, c');
    StepHistoryOk(w2, cfg, h2, Publish(c'));
    var w3, h3 := Next(w2, cfg, Publish(c')), NextHistory(w2, cfg, h2, Publish(c'));
    HolderIs(w2, h2, c');
    RenewedOver(w3, cfg, h3, c);
  }

  lemma CrashSparesOthers(w: World, cfg: Config, c: nat, g: string)
    requires c in w.conns && w.conns[c].gateway != g
    ensures var w' := Next(w, cfg, Crash(g));
      && c in w'.conns && w'.conns[c] == w.conns[c] && (forall d <- w'.conns :: w'.conns[d].gateway != g)
      && w'.store == w.store && (w.conns[c].stage == Serving ==> Possible(w', Beat(c)))
  {
    NoStoreOp(w, cfg, Crash(g));
    hide NextStore;
  }

  lemma BeatStores(w: World, cfg: Config, c: nat)
    requires c in w.conns
    ensures Next(w, cfg, Beat(c)).store == NextStore(w, cfg, Beat(c))
  {
  }

  lemma BeatAfterCrash(w: World, cfg: Config, c: nat, c': nat, g: string)
    requires c in w.conns && c' in w.conns && w.conns[c].Key() == w.conns[c'].Key() && w.conns[c].stage == Serving
    requires w.conns[c].gateway != g == w.conns[c'].gateway && Owns(w.store, w.conns[c']) && cfg.agentTTL > 0
    ensures var k := w.conns[c]; var w2 := Next(w, cfg, Crash(g));
      && c in w2.conns && (forall d <- w2.conns :: w2.conns[d].gateway != g) && Possible(w2, Beat(c))
      && var w3 := Next(w2, cfg, Beat(c));
      && DeadlineOf(w3.store, k.Key()) == Some(w2.store.now + cfg.agentTTL)
      && R.GatewayOf(w3.store, k.agentType, k.agentID) == g
  {
    hide Next, NextStore, Owns, R.GatewayOf, Possible, DeadlineOf;
    OwnedLives(w.store, w.conns[c']);
    OwnsNames(w.store, w.conns[c']);
    CrashSparesOthers(w, cfg, c, g);
    LiveBeat(Next(w, cfg, Crash(g)), cfg, c);
    BeatStores(Next(w, cfg, Crash(g)), cfg, c);
  }

  /** Such a case: the agent of a lapsed connection that still serves connects again on another gateway, and
      that gateway crashes. Every beat of the old connection keeps the hash live and naming the dead one. */
  lemma BeatKeepsDeadGateway(w: World, cfg: Config, h: History, c: nat, c': nat, g: string)
    requires Named(w) && cfg.agentTTL > 0 && g != "" && c in w.conns && g != w.conns[c].gateway
    requires c' !in w.conns && w.conns[c].stage == Serving && w.conns[c].Key() !in w.store.keys
    ensures var k := w.conns[c]; var connect := Connect(c', k.agentType, k.agentID, g);
      && Possible(w, connect)
      && var w2 := Next(Next(w, cfg, connect), cfg, Crash(g));
      && c in w2.conns && (forall d <- w2.conns :: w2.conns[d].gateway != g) && Possible(w2, Beat(c))
      && var w3 := Next(w2, cfg, Beat(c));
      && DeadlineOf(w3.store, k.Key()) == Some(w2.store.now + cfg.agentTTL)
      && R.GatewayOf(w3.store, k.agentType, k.agentID) == g
  {
    hide Next, NextStore, NextHistory, Owns, Holds, R.GatewayOf, Named, Possible, DeadlineOf;
    var w1 := Next(w, cfg, Connect(c', w.conns[c].agentType, w.conns[c].agentID, g));
    Reconnects(w, cfg, h, c, c', g);
    assert w1.conns[c] == w.conns[c] && w1.conns[c'].gateway == g && w1.conns[c'].Key() == w.conns[c].Key();
    BeatAfterCrash(w1, cfg, c, c', g);
  }

  /** The case that happens: a connection whose lease ran out before it left, and its agent connected
      again, to any gateway, its own included. When the old connection goes it takes the new one's
      registration, and on the same gateway its table entry too. */
  lemma ReconnectIsEvicted(w: World, cfg: Config, h: History, c: nat, c': nat, g: string)
    requires Named(w) && cfg.agentTTL > 0 && g != ""
    requires c in w.conns && c' !in w.conns && w.conns[c].Key() !in w.store.keys
    ensures var k := w.conns[c]; var connect := Connect(c', k.agentType, k.agentID, g);
      var w1, h1 := Next(w, cfg, connect), NextHistory(w, cfg, h, connect);
      && Possible(w, connect) && c' in w1.conns && Possible(w1, Publish(c'))
      && var w2, h2 := Next(w1, cfg, Publish(c')), NextHistory(w1, cfg, h1, Publish(c'));
      && c in w2.conns && LeaveEvicts(w2, cfg, h2, c)
      && (g == k.gateway ==> RemovalEvicts(w2, c))
  {
    var connect := Connect(c', w.conns[c].agentType, w.conns[c].agentID, g);
    Reconnects(w, cfg, h, c, c', g);
    hide NextStore, Owns, Holds, LeaveEvicts, RemovalEvicts, Next, NextHistory;
    PublishEvicts(Next(w, cfg, connect), cfg, NextHistory(w, cfg, h, connect), c, c');
  }

  /** The same on the store alone, from an empty one, for any two gateways. */
  lemma LapsedConnectionEvictsSuccessor(ttl: nat, g1: string, g2: string)
    requires 0 < ttl && g1 != "" && g2 != ""
    ensures var first, second := Connection("t", "a", g1, Stopped), Connection("t", "a", g2, Serving);
            var lapsed := R.PutAgent(Db(0, map[]), first.Info(), ttl).Advance(ttl);
            var taken := R.Register(lapsed, second.Info(), ttl);
            && Owns(taken, second)
            && second.Key() !in R.Unregister(taken, "t", "a").keys
  {
    var first, second := Connection("t", "a", g1, Stopped), Connection("t", "a", g2, Serving);
    hide R.PutAgent, R.Unregister, Owns, R.AgentFields;
    var lapsed := R.PutAgent(Db(0, map[]), first.Info(), ttl).Advance(ttl);
    R.PutAgentAt(Db(0, map[]), first.Info(), ttl, first.Key());
    assert first.Key() !in lapsed.keys;
    WrittenIsOwned(lapsed, Config(ttl, 0, 0), second);
    SRemLeavesOut(R.Register(lapsed, second.Info(), ttl), "t", "a");
  }

  // ----- Clearing a gateway -----

  /** Clearing a gateway's index takes the hash of a connection, on whatever gateway, exactly when the
      index lists it. */
  lemma ClearingTakesExactly(s: Store, g: string, k: Connection, ttl: nat)
    requires R.Inv(s, ttl) && Owns(s, k)
    ensures Owns(R.UnregisterByGateway(s, g), k) <==> Compose(k.agentType, k.agentID) !in s.SMembers(GatewayAgents(g))
  {
    RP.UnregisterByGatewayComplete(s, g, ttl);
    hide R.Inv, R.UnregisterByGateway, Compose;
  }

  /** A live agent whose hash names another gateway. */
  predicate Elsewhere(s: Store, g: string, t: string, i: string) {
    Agent(t, i) in s.keys && R.GatewayOf(s, t, i) != g
  }

  /** Clearing a gateway's index takes a hash that names another gateway exactly when the index lists
      one. */
  lemma ClearingEvictsExactly(s: Store, g: string, ttl: nat)
    requires R.Inv(s, ttl)
    ensures (exists t, i :: Elsewhere(s, g, t, i) && Agent(t, i) !in R.UnregisterByGateway(s, g).keys)
       <==> (exists t, i :: Elsewhere(s, g, t, i) && Compose(t, i) in s.SMembers(GatewayAgents(g)))
  {
    RP.UnregisterByGatewayComplete(s, g, ttl);
    hide R.Inv, R.UnregisterByGateway, R.GatewayOf, Compose;
    var s' := R.UnregisterByGateway(s, g);
    if t, i :| Agent(t, i) in s.keys && R.GatewayOf(s, t, i) != g && Agent(t, i) !in s'.keys {
      assert Compose(t, i) in s.SMembers(GatewayAgents(g));
    }
    if t, i :| Agent(t, i) in s.keys && R.GatewayOf(s, t, i) != g && Compose(t, i) in s.SMembers(GatewayAgents(g)) {
      assert Agent(t, i) !in s'.keys;
    }
  }

  lemma ClearingEvictsListed(s: Store, moved: Connection, g: string, ttl: nat)
    requires ttl > 0 && ColonFree(moved.agentType) && moved.gateway != "" && moved.gateway != g
    requires moved.Key() !in s.keys && Compose(moved.agentType, moved.agentID) in s.SMembers(GatewayAgents(g))
    ensures var s' := R.Register(s, moved.Info(), ttl);
      Owns(s', moved) && moved.Key() !in R.UnregisterByGateway(s', g).keys
  {
    R.PutAgentAt(s, moved.Info(), ttl, moved.Key());
    R.PutAgentAt(s, moved.Info(), ttl, GatewayAgents(g));
    hide R.PutAgent, R.AgentFields, Compose;
  }

  /** After b has extended the index of g1, that index still lists the lapsed agent a. */
  lemma MovedAgentListed(ttl: nat)
    requires 1 < ttl
    ensures var a, b := Connection("t", "a", "g1", Serving), Connection("t", "b", "g1", Serving);
            var s2 := R.PutAgent(R.PutAgent(Db(0, map[]), a.Info(), ttl).Advance(1), b.Info(), ttl).Advance(ttl - 1);
            a.Key() !in s2.keys && Compose("t", "a") in s2.SMembers(GatewayAgents("g1"))
  {
    var a, b, g := Connection("t", "a", "g1", Serving), Connection("t", "b", "g1", Serving), GatewayAgents("g1");
    var s0 := R.PutAgent(Db(0, map[]), a.Info(), ttl);
    var s1 := s0.Advance(1);
    var s1b := R.PutAgent(s1, b.Info(), ttl);
    R.PutAgentAt(Db(0, map[]), a.Info(), ttl, a.Key());
    R.PutAgentAt(Db(0, map[]), a.Info(), ttl, g);
    R.PutAgentAt(s1, b.Info(), ttl, a.Key());
    R.PutAgentAt(s1, b.Info(), ttl, g);
    assert "a" != "b" by { assert "a"[0] != "b"[0]; }
    hide R.PutAgent, R.AgentFields, Compose;
    assert s1.At(g) == s0.At(g) && s1.At(a.Key()) == s0.At(a.Key());
    assert s1b.Advance(ttl - 1).At(g) == s1b.At(g);
  }

  /** Nor is it enough that a gateway has stopped: its index can outlive one of its agents and still
      list it when that agent has moved, and clearing the index then evicts the agent from its new
      gateway. */
  lemma StaleIndexEvictsMovedAgent(ttl: nat)
    requires 1 < ttl && 2 * ttl <= MAX_TIME
    ensures var a, b, moved := Connection("t", "a", "g1", Serving), Connection("t", "b", "g1", Serving),
              Connection("t", "a", "g2", Serving);
            var s1 := R.PutAgent(Db(0, map[]), a.Info(), ttl).Advance(1);
            var s2 := R.PutAgent(s1, b.Info(), ttl).Advance(ttl - 1);
            var s3 := R.Register(s2, moved.Info(), ttl);
            && a.Key() !in s2.keys && Owns(s3, moved)
            && moved.Key() !in R.UnregisterByGateway(s3, "g1").keys
  {
    var a, b := Connection("t", "a", "g1", Serving), Connection("t", "b", "g1", Serving);
    var moved := Connection("t", "a", "g2", Serving);
    var s2 := R.PutAgent(R.PutAgent(Db(0, map[]), a.Info(), ttl).Advance(1), b.Info(), ttl).Advance(ttl - 1);
    assert "g1" != "g2" by { assert "g1"[1] != "g2"[1]; }
    assert moved.Key() == a.Key();
    MovedAgentListed(ttl);
    hide R.PutAgent, R.Register, R.UnregisterByGateway, Owns;
    ClearingEvictsListed(s2, moved, "g1", ttl);
  }
}
