/** The two loops of a forwarded request, on the agent's gateway (internal/agent/grpc_internal.go) and
    on the client's (internal/agent/forwarder.go), each run against what its peer gives it. */
module Forwarding {
  import opened Basics
  import opened Proto
  import opened Mux
  import opened AgentServer
  import opened Callers

  datatype Status = OK | InvalidArgument | NotFound | Internal | SendFailed | Cancelled

  lemma {:induction false} UpToDoneFacts(rs: seq<AgentResponse>)
    ensures UpToDone(rs) <= rs && StopsAtDone(UpToDone(rs))
    ensures Finished(UpToDone(rs)) <==> exists x :: x in rs && x.done
  {
    if rs != [] {
      var rest := UpToDone(rs[1..]);
      UpToDoneFacts(rs[1..]);
      assert rs == [rs[0]] + rs[1..];
      assert UpToDone(rs) == if rs[0].done then [rs[0]] else [rs[0]] + rest;
      hide UpToDone;
    }
  }

  /** What the loop has sent and says, given what it has taken. */
  predicate Relayed(taken: seq<AgentResponse>, out: seq<AgentResponse>, status: Status) {
    match status
    case SendFailed => taken != [] && out == taken[..|taken| - 1] && !Finished(out)
    case OK => out == taken && Finished(out)
    case Cancelled => out == taken && !Finished(out)
    case _ => false
  }

  /** The turns at which responses were taken, in order, and what became of them: each was sent on, as its turn
      says, but the last if its send failed, which is what the status then tells. */
  ghost predicate SentAsTold(turns: seq<Turn<bool>>, took: seq<nat>, taken: seq<AgentResponse>, out: seq<AgentResponse>,
                             status: Status)
  {
    && |took| == |taken| && (forall k :: 0 <= k < |took| ==> took[k] < |turns| && turns[took[k]].Mine?)
    && (forall j, k :: 0 <= j < k < |took| ==> took[j] < took[k])
    && (forall k :: 0 <= k < |took| - 1 ==> turns[took[k]].turn)
    && (status == SendFailed <==> took != [] && !turns[took[|took| - 1]].turn)
    && out == if status == SendFailed then taken[..|taken| - 1] else taken
  }

  predicate AllOwn(turns: seq<Turn<bool>>) {
    forall t <- turns :: t.Mine?
  }

  /** Left alone, the loop sends the buffer from its front, one response a turn, up to the first final one, or
      the first send that fails, or the end of its turns. */
  predicate BufferSent(had: seq<AgentResponse>, turns: seq<Turn<bool>>, out: seq<AgentResponse>, status: Status)
    requires AllOwn(turns)
  {
    && out <= had && |out| <= |turns| && (forall k :: 0 <= k < |out| ==> turns[k].turn)
    && (forall k :: 0 <= k < |out| - 1 ==> !out[k].done)
    && match status
       case OK => Finished(out)
       case SendFailed => !Finished(out) && |out| < |had| && |out| < |turns| && !turns[|out|].turn
       case Cancelled => !Finished(out) && (|out| == |turns| || out == had)
       case _ => false
  }

  /** A loop left alone after n of its turns. */
  ghost predicate Relaying(had: seq<AgentResponse>, turns: seq<Turn<bool>>, out: seq<AgentResponse>,
                           left: seq<AgentResponse>, n: nat)
  {
    && AllOwn(turns) && n <= |turns| && Draining(had, out, left, n) && |out| <= n
    && forall k :: 0 <= k < |out| ==> turns[k].turn
  }

  lemma OtherTurn(turns: seq<Turn<bool>>, n: nat)
    requires n < |turns| && turns[n].Others?
    ensures turns[n] in turns && !AllOwn(turns)
  {
  }

  lemma RelayStarts(had: seq<AgentResponse>, turns: seq<Turn<bool>>)
    ensures AllOwn(turns) ==> Relaying(had, turns, [], had, 0)
    ensures SentAsTold(turns, [], [], [], Cancelled)
    ensures Alone(turns, true) ==> AllOwn(turns)
  {
  }

  lemma RelayIdles(had: seq<AgentResponse>, turns: seq<Turn<bool>>, out: seq<AgentResponse>, n: nat)
    requires n < |turns| && Relaying(had, turns, out, [], n)
    ensures Relaying(had, turns, out, [], n + 1)
  {
  }

  /** A response taken in a turn of the loop's own, and sent on or not. */
  lemma RelayPops(had: seq<AgentResponse>, turns: seq<Turn<bool>>, out: seq<AgentResponse>, n: nat,
                  x: AgentResponse, left: seq<AgentResponse>)
    requires n < |turns| && Relaying(had, turns, out, [x] + left, n) && turns[n].Mine? && forall y <- out :: !y.done
    ensures turns[n].turn ==> Relaying(had, turns, out + [x], left, n + 1)
    ensures turns[n].turn && x.done ==> BufferSent(had, turns, out + [x], OK)
    ensures !turns[n].turn ==> BufferSent(had, turns, out, SendFailed)
    ensures x.done ==> UpToDone(had) == out + [x]
  {
    DrainPop(had, out, n, x, left);
    assert had == out + [x] + left;
    assert out != [] ==> out[|out| - 1] in out;
  }

  lemma RelayStops(had: seq<AgentResponse>, turns: seq<Turn<bool>>, out: seq<AgentResponse>, left: seq<AgentResponse>)
    requires Relaying(had, turns, out, left, |turns|) && forall y <- out :: !y.done
    ensures BufferSent(had, turns, out, Cancelled)
    ensures |turns| >= |had| ==> out == UpToDone(had)
  {
    assert out != [] ==> out[|out| - 1] in out;
    DrainEnd(had, out, left, |turns|);
    assert left == [] ==> out + left == out;
  }

  lemma TookOne(turns: seq<Turn<bool>>, took: seq<nat>, out: seq<AgentResponse>, n: nat, x: AgentResponse)
    requires SentAsTold(turns, took, out, out, Cancelled) && n < |turns| && turns[n].Mine? && forall k <- took :: k < n
    ensures turns[n].turn ==>
              && SentAsTold(turns, took + [n], out + [x], out + [x], OK)
              && SentAsTold(turns, took + [n], out + [x], out + [x], Cancelled)
    ensures !turns[n].turn ==> SentAsTold(turns, took + [n], out + [x], out, SendFailed)
  {
    assert forall k :: 0 <= k < |took| ==> took[k] in took;
  }

  /** ForwardRequest's loop on the caller's own buffer, everybody else going on: each response taken is
      sent on, until a final one or a send that fails; the context ends with the turns. Left alone with
      turns enough it sends the buffered responses up to the first final one. */
  method RelayToGateway(s: GRPCServer, r: string, turns: seq<Turn<bool>>, ghost start: State, ghost before: seq<Action>)
    returns (out: seq<AgentResponse>, status: Status, ghost steps: seq<Action>, ghost took: seq<nat>)
    requires s.Valid() && r in s.calls && s.calls[r].phase.Waiting? && s.calls[r].consumed == []
              && Path(start, before, s.Model())
    requires OfCaller(before, r, turns)
    modifies s
    ensures s.Valid() && r in s.calls && Path(start, steps, s.Model()) && OfCaller(steps, r, turns)
    ensures SameCall(old(s.calls)[r], s.calls[r])
    ensures Relayed(s.calls[r].consumed, out, status) && status != Internal
    ensures SentAsTold(turns, took, s.calls[r].consumed, out, status)
    ensures AllOwn(turns) ==> BufferSent(old(s.calls)[r].buffer, turns, out, status)
    ensures Alone(turns, true) && |turns| >= |old(s.calls)[r].buffer| ==> out == UpToDone(old(s.calls)[r].buffer)
  {
    hide Inv, Path, OfCaller, Alone, AllOwn, Relaying, SameCall, SentAsTold, BufferSent;
    out, status, steps, took := [], Cancelled, before, [];
    ghost var had := s.calls[r].buffer;
    RelayStarts(had, turns);
    SameAsItself(s.calls[r]);
    for n := 0 to |turns|
      invariant Inv(s.Model()) && r in s.calls && s.calls[r].phase.Waiting? && s.calls[r].consumed == out
      invariant Path(start, steps, s.Model()) && OfCaller(steps, r, turns)
      invariant SameCall(old(s.calls)[r], s.calls[r])
      invariant forall x <- out :: !x.done
      invariant SentAsTold(turns, took, out, out, Cancelled) && forall k <- took :: k < n
      invariant AllOwn(turns) ==> Relaying(had, turns, out, s.calls[r].buffer, n)
    {
      ghost var was := s.calls[r];
      match turns[n]
      case Others(a) =>
        OtherTurn(turns, n);
        steps := LetOthers(s, r, a, turns, start, steps);
        StillSame(old(s.calls)[r], was, s.calls[r]);
      case Mine(ok) =>
        if s.calls[r].buffer == [] {
          if AllOwn(turns) { RelayIdles(had, turns, out, n); }
        } else {
          var x;
          x, steps := Pop(s, r, turns, start, steps);
          StillSame(old(s.calls)[r], was, s.calls[r]);
          TookOne(turns, took, out, n, x);
          took := took + [n];
          if AllOwn(turns) { RelayPops(had, turns, out, n, x, s.calls[r].buffer); }
          if !ok {
            AloneTurn(turns, true, n);
            return out, SendFailed, steps, took;
          }
          if x.done {
            return out + [x], OK, steps, took;
          }
          out := out + [x];
        }
    }
    if AllOwn(turns) { RelayStops(had, turns, out, s.calls[r].buffer); }
  }

  /** The relay goroutine: `received` is what the stream yields until it ends or breaks. The channel it
      fills is closed behind the last response pushed. */
  method RelayToCaller(received: seq<AgentResponse>) returns (channel: seq<AgentResponse>)
    ensures channel == UpToDone(received)
  {
    channel := [];
    for n := 0 to |received|
      invariant channel == received[..n]
      invariant forall k :: 0 <= k < n ==> !received[k].done
    {
      UpToDoneFrom(received, n);
      assert received[n..] != [] && received[n..][0] == received[n];
      channel := channel + [received[n]];
      assert received[..n + 1] == received[..n] + [received[n]];
      if received[n].done {
        assert UpToDone(received) == channel;
        return;
      }
    }
    UpToDoneFrom(received, |received|);
    assert UpToDone(received) == received;
  }

  /** Relaying what was relayed adds nothing and drops nothing: the second loop passes on every prefix
      the first one can have sent. */
  lemma RelaysCompose(rs: seq<AgentResponse>, k: nat)
    requires k <= |UpToDone(rs)|
    ensures UpToDone(UpToDone(rs)[..k]) == UpToDone(rs)[..k]
  {
    UpToDoneFacts(rs);
    var p := UpToDone(rs)[..k];
    StoppedPrefix(p, p);
    UpToDoneFacts(p);
    assert p <= UpToDone(p) <= p;
  }

  /** What was relayed to the gateway belongs to the answer that came over the request's connection. */
  lemma RelayedFromAnswer(m: State, r: string, out: seq<AgentResponse>, status: Status)
    requires Inv(m) && r in m.calls && m.calls[r].conn.Some? && Relayed(m.calls[r].consumed, out, status)
    ensures ConnOfAgent(m, m.calls[r].conn.value, m.calls[r].agentID)
    ensures out <= Answer(m, r) && (status == OK <==> Finished(out)) && (status == OK ==> out == Answer(m, r))
  {
    ConsumedIsAnswer(m, r);
  }

  /** From registering the handler on. */
  method SendAndRelay(s: GRPCServer, r: string, model: string, agentID: string, turns: seq<Turn<bool>>)
    returns (out: seq<AgentResponse>, status: Status, ghost steps: seq<Action>, ghost took: seq<nat>)
    requires s.Valid() && r !in s.calls && agentID in s.localAgents && s.localAgents[agentID] in s.conns
    modifies s
    ensures s.Valid() && Path(old(s.Model()), steps, s.Model()) && OfCaller(steps, r, turns)
    ensures r in s.calls && s.calls[r].phase.Left? && r !in s.responseHandlers && s.calls[r].agentID == agentID
    ensures s.calls[r].wanted == model
    ensures status != Internal ==> s.calls[r].conn == Some(old(s.localAgents)[agentID])
    ensures status == Internal <==> |old(s.conns)[old(s.localAgents)[agentID]].queue| >= QUEUE_SIZE
    ensures status == Internal ==> out == [] && s.conns == old(s.conns)
    ensures status != Internal ==> s.calls[r].conn.Some? && Relayed(s.calls[r].consumed, out, status)
    ensures status != Internal ==> SentAsTold(turns, took, s.calls[r].consumed, out, status)
  {
    hide Inv, Path, OfCaller, Relayed, SentAsTold;
    var sent;
    ghost var start := s.Model();
    sent, steps := RegisterAndSend(s, r, model, agentID);
    OfCallerOnly(steps, r, turns);
    if sent.Err? {
      steps := Callers.Leave(s, r, turns, start, steps);
      return [], Internal, steps, [];
    }
    out, status, steps, took := RelayToGateway(s, r, turns, start, steps);
    steps := Callers.Leave(s, r, turns, start, steps);
  }

  /** The whole call on the agent's gateway, while everybody else goes on as the turns say. Every way out
      but the first two registers the handler and unregisters it again, and takes a path of the
      multiplexer on which each step is the call's own or somebody else's. What is sent on is a beginning
      of an agent's answer, and all of it if the status is OK. That agent bears the id in the metadata;
      it is of the type that the request's model names exactly if the entry under that id is. */
  method ForwardRequest(s: GRPCServer, r: string, model: string, md: Option<seq<string>>, turns: seq<Turn<bool>>)
    returns (out: seq<AgentResponse>, status: Status, ghost steps: seq<Action>, ghost took: seq<nat>)
    requires s.Valid() && r !in s.calls
    modifies s
    ensures s.Valid() && Path(old(s.Model()), steps, s.Model()) && OfCaller(steps, r, turns)
    ensures status == InvalidArgument <==> md.None? || md.value == []
    ensures status == NotFound <==> md.Some? && md.value != [] && md.value[0] !in old(s.localAgents)
    ensures status == InvalidArgument || status == NotFound ==> out == [] && steps == []
    ensures md.Some? && md.value != [] && md.value[0] in old(s.localAgents) ==>
              && old(s.localAgents)[md.value[0]] in old(s.conns)
              && (status == Internal <==> |old(s.conns)[old(s.localAgents)[md.value[0]]].queue| >= QUEUE_SIZE)
              && r in s.calls && s.calls[r].phase.Left? && r !in s.responseHandlers && s.calls[r].agentID == md.value[0]
    ensures status == Internal ==> out == [] && s.conns == old(s.conns)
    ensures status in {OK, SendFailed, Cancelled} ==>
              && r in s.calls && s.calls[r].conn.Some?
                  && ConnOfAgent(s.Model(), s.calls[r].conn.value, s.calls[r].agentID)
              && out <= Answer(s.Model(), r) && (status == OK <==> Finished(out))
                  && (status == OK ==> out == Answer(s.Model(), r))
              && SentAsTold(turns, took, s.calls[r].consumed, out, status)
              && s.calls[r].agentID == md.value[0] && s.calls[r].wanted == model
              && (AtRightAgent(s.Model(), r) <==> EntryIs(old(s.Model()), model, md.value[0]))
  {
    PathNil(s.Model());
    out, steps, took := [], [], [];
    if md.None? {
      return out, InvalidArgument, steps, took;
    }
    if md.value == [] {
      return out, InvalidArgument, steps, took;
    }
    var agentID := md.value[0];
    var local := s.HasLocalAgent(agentID);
    if !local {
      return out, NotFound, steps, took;
    }
    ghost var start := s.Model();
    InvAgents(start);
    hide Inv, Path, OfCaller, AtRightAgent, EntryIs, Relayed, SentAsTold;
    out, status, steps, took := SendAndRelay(s, r, model, agentID, turns);
    if status != Internal {
      EntryDecides(start, steps, s.Model(), r);
      RelayedFromAnswer(s.Model(), r, out, status);
    }
  }
}
