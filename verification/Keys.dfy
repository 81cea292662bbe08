/** The key schema shared by the agent registry, the session store and the forwarder.

    A `Key` names a Redis key by its family and parts; `Render` is the string the
    gateway really sends. Rendering is injective as long as agent types hold no colon,
    and every agent type with a colon collides with another agent's key. */
module Keys {
  predicate ColonFree(s: string) {
    ':' !in s
  }

  /** "head:tail": a member of a gateway index, and equally a composite session id. */
  function Compose(head: string, tail: string): string {
    head + ":" + tail
  }

  datatype Key =
    | Agent(agentType: string, agentID: string)
    | AgentsByType(agentType: string)
    | GatewayAgents(gateway: string)
    | Gateway(gateway: string)
    | Session(sessionID: string)
    | AgentSessions(agentID: string)
  {
    function Render(): string {
      match this
      case Agent(t, i) => "agent:" + Compose(t, i)
      case AgentsByType(t) => "agents_by_type:" + t
      case GatewayAgents(g) => "gateway_agents:" + g
      case Gateway(g) => "gateway:" + g
      case Session(s) => "session:" + s
      case AgentSessions(a) => "agent_sessions:" + a
    }

    predicate WellFormed() {
      Agent? ==> ColonFree(agentType)
    }

    /** Whether the gateway uses the key as a hash (otherwise as a set). */
    predicate IsHash() {
      Agent? || Gateway? || Session?
    }
  }

  /** Position of the first colon, or the length when there is none. */
  function FirstColon(s: string): (n: nat)
    ensures n <= |s|
    ensures ColonFree(s[..n])
    ensures n < |s| ==> s[n] == ':'
  {
    if s == [] || s[0] == ':' then 0
    else
      assert forall k :: 0 <= k <= |s| - 1 ==> s[..k + 1] == [s[0]] + s[1..][..k];
      1 + FirstColon(s[1..])
  }

  datatype Parts = NoColon | Parts(head: string, tail: string)

  function Split(s: string): Parts {
    var n := FirstColon(s);
    if n < |s| then Parts(s[..n], s[n + 1..]) else NoColon
  }

  lemma FirstColonIs(s: string, n: nat)
    requires n < |s| && s[n] == ':' && ColonFree(s[..n])
    ensures FirstColon(s) == n
  {
    forall k | 0 <= k < n ensures s[k] != ':' {
      assert s[..n][k] in s[..n];
    }
    var m := FirstColon(s);
    forall k | 0 <= k < m ensures s[k] != ':' {
      assert s[..m][k] in s[..m];
    }
  }

  /** The other way round: composing the parts restores the string, for every string with a colon. */
  lemma ComposeSplit(s: string)
    ensures Split(s).NoColon? <==> ColonFree(s)
    ensures Split(s).Parts? ==> ColonFree(Split(s).head) && Compose(Split(s).head, Split(s).tail) == s
  {
    var n := FirstColon(s);
    if n < |s| {
      assert s[n] in s;
      assert s == s[..n] + [s[n]] + s[n + 1..];
    } else {
      assert s[..n] == s;
    }
  }

  /** Only the first colon separates: the parts come back exactly when the head has no colon,
      whatever the tail holds. */
  lemma SplitCompose(head: string, tail: string)
    ensures Split(Compose(head, tail)) == Parts(head, tail) <==> ColonFree(head)
  {
    var s := Compose(head, tail);
    assert s[|head|] == ':';
    ComposeSplit(s);
    if ColonFree(head) {
      assert s[..|head|] == head && s[|head| + 1..] == tail;
      FirstColonIs(s, |head|);
    }
  }

  lemma ComposeInjective(t: string, i: string, t': string, i': string)
    requires ColonFree(t) && ColonFree(t')
    requires Compose(t, i) == Compose(t', i')
    ensures t == t' && i == i'
  {
    SplitCompose(t, i);
    SplitCompose(t', i');
  }

  lemma PrefixInjective(p: string, x: string, y: string)
    requires p + x == p + y
    ensures x == y
  {
    assert (p + x)[|p|..] == x && (p + y)[|p|..] == y;
  }

  /** Two keys of different families never render to the same string. */
  lemma FamiliesDisjoint(k: Key, k': Key)
    requires k.Render() == k'.Render()
    ensures k.Agent? <==> k'.Agent?
    ensures k.AgentsByType? <==> k'.AgentsByType?
    ensures k.GatewayAgents? <==> k'.GatewayAgents?
    ensures k.Gateway? <==> k'.Gateway?
    ensures k.Session? <==> k'.Session?
    ensures k.AgentSessions? <==> k'.AgentSessions?
  {
    var s := k.Render();
    // "agent:", "agents_by_type:" and "agent_sessions:" part at index 5, the gateway families at 7.
    assert s[0] == if k.Session? then 's' else if k.Gateway? || k.GatewayAgents? then 'g' else 'a';
    assert s[0] == 'a' ==> s[5] == if k.Agent? then ':' else if k.AgentsByType? then 's' else '_';
    assert s[0] == 'g' ==> s[7] == if k.Gateway? then ':' else '_';
    var s' := k'.Render();
    assert s'[0] == if k'.Session? then 's' else if k'.Gateway? || k'.GatewayAgents? then 'g' else 'a';
    assert s'[0] == 'a' ==> s'[5] == if k'.Agent? then ':' else if k'.AgentsByType? then 's' else '_';
    assert s'[0] == 'g' ==> s'[7] == if k'.Gateway? then ':' else '_';
  }

  /** No two well-formed keys share a string, within a family or across families. */
  lemma RenderInjective(k: Key, k': Key)
    requires k.WellFormed() && k'.WellFormed()
    requires k.Render() == k'.Render()
    ensures k == k'
  {
    FamiliesDisjoint(k, k');
    match k
    case Agent(t, i) =>
      PrefixInjective("agent:", Compose(t, i), Compose(k'.agentType, k'.agentID));
      ComposeInjective(t, i, k'.agentType, k'.agentID);
    case AgentsByType(t) => PrefixInjective("agents_by_type:", t, k'.agentType);
    case GatewayAgents(g) => PrefixInjective("gateway_agents:", g, k'.gateway);
    case Gateway(g) => PrefixInjective("gateway:", g, k'.gateway);
    case Session(s) => PrefixInjective("session:", s, k'.sessionID);
    case AgentSessions(a) => PrefixInjective("agent_sessions:", a, k'.agentID);
  }

  /** The colon-free condition is exact: an agent key shares its string with the key of some
      other, colon-free agent type if and only if its own type holds a colon. */
  lemma AgentKeyCollides(t: string, i: string)
    ensures (exists k: Key :: k.WellFormed() && k != Agent(t, i) && k.Render() == Agent(t, i).Render())
       <==> !ColonFree(t)
  {
    if ColonFree(t) {
      forall k: Key | k.WellFormed() && k.Render() == Agent(t, i).Render() ensures k == Agent(t, i) {
        RenderInjective(k, Agent(t, i));
      }
    } else {
      ComposeSplit(t);
      var p := Split(t);
      var k := Agent(p.head, Compose(p.tail, i));
      assert Compose(p.head, Compose(p.tail, i)) == Compose(t, i);
      assert k.WellFormed() && k != Agent(t, i) && k.Render() == Agent(t, i).Render();
    }
  }

  /** The well-formed key an agent's hash is stored under, whatever its type: the string splits at its
      first colon, wherever that is. */
  function Home(t: string, i: string): (k: Key)
    ensures k.Agent? && k.WellFormed() && k.Render() == Agent(t, i).Render()
    ensures k == Agent(t, i) <==> ColonFree(t)
  {
    ComposeSplit(t);
    if ColonFree(t) then Agent(t, i)
    else
      var p := Split(t);
      assert Compose(p.head, Compose(p.tail, i)) == Compose(t, i);
      Agent(p.head, Compose(p.tail, i))
  }

  /** Splits an index member at its first colon, scanning left to right. */
  method SplitAgentMember(member: string) returns (parts: Parts)
    ensures parts == Split(member)
    ensures parts.NoColon? <==> ColonFree(member)
    ensures parts.Parts? ==> ColonFree(parts.head) && Compose(parts.head, parts.tail) == member
  {
    ComposeSplit(member);
    for i := 0 to |member|
      invariant ColonFree(member[..i])
    {
      if member[i] == ':' {
        assert member == Compose(member[..i], member[i + 1..]);
        SplitCompose(member[..i], member[i + 1..]);
        return Parts(member[..i], member[i + 1..]);
      }
      assert member[..i + 1] == member[..i] + [member[i]];
    }
    assert member[..|member|] == member;
    return NoColon;
  }
}
