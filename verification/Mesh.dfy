/**
 The peer-to-peer half of the client (Client/src/p2p_mesh.cpp): lazily built
 libjuice links, a retry budget per peer, and the signals that build them.

 libjuice is an opaque world: every call made on it is appended to `calls`,
 what it answers is an `Env`, and a handle is the number of agents created
 before it, so handles are never reused.
 */
module Mesh {
  import opened Protocol
  import opened Seqs

  const MAX_ATTEMPTS := 3

  type Agent = nat

  datatype Link = Link(agent: Agent, remoteSet: bool, connected: bool, outbox: seq<Str>)

  datatype Call =
    | Create(agent: Agent, peer: Id)
    | Destroy(agent: Agent)
    | SetRemote(agent: Agent, sdp: Str)
    | AddCandidate(agent: Agent, sdp: Str)
    | RemoteDone(agent: Agent)
    | Gather(agent: Agent)
    | SendData(agent: Agent, data: Str)

  datatype Option<+T> = None | Some(value: T)

  /** What libjuice answers: the new agent, its description, gathering, sending. */
  datatype Env = Env(creates: bool, sdp: Option<Str>, gathers: bool, sends: bool)

  datatype State = Connected | Completed | Disconnected | Failed | Other
  datatype Kind = StateChange(state: State) | LocalCandidate(sdp: Str) | LocalDone | Recv(data: Str)
  datatype Event = Event(agent: Agent, peer: Id, kind: Kind)

  datatype Datagram = Datagram(from: Id, data: Str)

  datatype Mesh = Mesh(
    links: map<Id, Link>, attempts: map<Id, nat>, nextAgent: Agent,
    calls: seq<Call>, signals: seq<Msg>, inbox: seq<Datagram>)

  const NEW_MESH := Mesh(map[], map[], 0, [], [], [])

  datatype Outcome = Outcome(mesh: Mesh, ok: bool)

  function Tries(m: Mesh, p: Id): nat {
    if p in m.attempts then m.attempts[p] else 0
  }

  function Called(m: Mesh, c: Call): Mesh {
    m.(calls := m.calls + [c])
  }

  function Signaled(m: Mesh, p: Id, kind: byte, payload: Str): Mesh {
    m.(signals := m.signals + [P2PSignal(p, kind, payload)])
  }

  function CreateLink(m: Mesh, p: Id, e: Env): Outcome
    requires p !in m.links
  {
    var tries := Tries(m, p);
    if tries >= MAX_ATTEMPTS || !e.creates then
      Outcome(m.(attempts := m.attempts[p := tries]), false) // operator[] leaves an entry behind
    else
      Outcome(Called(m.(links := m.links[p := Link(m.nextAgent, false, false, [])],
                        attempts := m.attempts[p := tries + 1],
                        nextAgent := m.nextAgent + 1),
                     Create(m.nextAgent, p)),
              true)
  }

  function ShareLink(m: Mesh, p: Id, e: Env): Outcome
    requires p in m.links
  {
    if e.sdp.None? then Outcome(m, false)
    else Outcome(Called(Signaled(m, p, DESCRIPTION, e.sdp.value), Gather(m.links[p].agent)), e.gathers)
  }

  function DestroyLink(m: Mesh, p: Id): Mesh {
    if p !in m.links then m
    else Called(m, Destroy(m.links[p].agent)).(links := m.links - {p})
  }

  /** DestroyAllLinks' loop over the map, in key order. */
  function DestroyEach(m: Mesh): Mesh
    decreases |m.links|
  {
    if m.links == map[] then m else DestroyEach(DestroyLink(m, LeastId(m.links.Keys)))
  }

  function DestroyAllLinks(m: Mesh): Mesh {
    DestroyEach(m).(attempts := map[])
  }

  predicate Sendable(data: Str) {
    0 < |data| <= MAX_P2P_MESSAGE
  }

  /** The link a send will use, dialing first if there is none. */
  function Dial(m: Mesh, p: Id, e: Env): (r: Outcome)
    ensures r.ok ==> p in r.mesh.links
  {
    if p in m.links then Outcome(m, true)
    else
      var made := CreateLink(m, p, e);
      if !made.ok then made
      else
        var shared := ShareLink(made.mesh, p, e);
        if shared.ok then shared else Outcome(DestroyLink(shared.mesh, p), false)
  }

  /** `isPeer`: the target is another member of the cached room. */
  function SendP2P(m: Mesh, isPeer: bool, p: Id, data: Str, e: Env): Outcome {
    if !Sendable(data) || !isPeer then Outcome(m, false)
    else
      var dialed := Dial(m, p, e);
      if !dialed.ok then Outcome(dialed.mesh, false)
      else
        var m := dialed.mesh;
        var link := m.links[p];
        if !link.connected then
          Outcome(m.(links := m.links[p := link.(outbox := link.outbox + [data])]), true)
        else Outcome(Called(m, SendData(link.agent, data)), e.sends)
  }

  function SendEach(agent: Agent, outbox: seq<Str>): seq<Call> {
    if outbox == [] then [] else [SendData(agent, outbox[0])] + SendEach(agent, outbox[1..])
  }

  function FlushLink(m: Mesh, p: Id): Mesh
    requires p in m.links
  {
    var link := m.links[p];
    m.(calls := m.calls + SendEach(link.agent, link.outbox), links := m.links[p := link.(outbox := [])])
  }

  function ApplyRemote(m: Mesh, p: Id, sdp: Str): Mesh
    requires p in m.links
  {
    var link := m.links[p];
    if link.remoteSet then m
    else Called(m, SetRemote(link.agent, sdp)).(links := m.links[p := link.(remoteSet := true)])
  }

  function HandleDescription(m: Mesh, p: Id, sdp: Str, e: Env): Mesh {
    // already described: this is a redial
    var m := if p in m.links && m.links[p].remoteSet then DestroyLink(m, p) else m;
    if p in m.links then ApplyRemote(m, p, sdp)
    else
      var made := CreateLink(m.(attempts := m.attempts - {p}), p, e);
      if !made.ok then made.mesh else ShareLink(ApplyRemote(made.mesh, p, sdp), p, e).mesh
  }

  function HandleSignal(m: Mesh, p: Id, kind: byte, payload: Str, e: Env): Mesh {
    if kind == DESCRIPTION then HandleDescription(m, p, payload, e)
    else if p !in m.links then m
    else if kind == CANDIDATE then Called(m, AddCandidate(m.links[p].agent, payload))
    else if kind == GATHERING_DONE then Called(m, RemoteDone(m.links[p].agent))
    else m
  }

  function HandleLinkState(m: Mesh, p: Id, state: State): Mesh
    requires p in m.links
  {
    match state
    case Connected => FlushLink(m.(links := m.links[p := m.links[p].(connected := true)], attempts := m.attempts - {p}), p)
    case Completed => FlushLink(m.(links := m.links[p := m.links[p].(connected := true)], attempts := m.attempts - {p}), p)
    case Disconnected => m.(links := m.links[p := m.links[p].(connected := false)])
    case Failed => DestroyLink(m, p)
    case Other => m
  }

  /** The event comes from the agent behind its peer's current link. */
  predicate Current(m: Mesh, ev: Event) {
    ev.peer in m.links && m.links[ev.peer].agent == ev.agent
  }

  function HandleEvent(m: Mesh, ev: Event): Mesh {
    if !Current(m, ev) then m
    else
      match ev.kind
      case StateChange(state) => HandleLinkState(m, ev.peer, state)
      case LocalCandidate(sdp) => Signaled(m, ev.peer, CANDIDATE, sdp)
      case LocalDone => Signaled(m, ev.peer, GATHERING_DONE, [])
      case Recv(data) => m.(inbox := m.inbox + [Datagram(ev.peer, data)])
  }

  /** A departed member loses its link and its record. */
  function PeerGone(m: Mesh, p: Id): Mesh {
    var m := DestroyLink(m, p);
    m.(attempts := m.attempts - {p})
  }

  datatype Step =
    | Send(isPeer: bool, peer: Id, data: Str, env: Env)
    | Signal(peer: Id, kind: byte, payload: Str, env: Env)
    | Juice(event: Event)
    | Gone(peer: Id)
    | Clear

  function Do(m: Mesh, step: Step): Mesh {
    match step
    case Send(isPeer, p, data, e) => SendP2P(m, isPeer, p, data, e).mesh
    case Signal(p, kind, payload, e) => HandleSignal(m, p, kind, payload, e)
    case Juice(ev) => HandleEvent(m, ev)
    case Gone(p) => PeerGone(m, p)
    case Clear => DestroyAllLinks(m)
  }

  /** A whole run from a fresh client. */
  function Exec(steps: seq<Step>): Mesh {
    if steps == [] then NEW_MESH else Do(Exec(steps[..|steps| - 1]), steps[|steps| - 1])
  }

  // -------------------------------------------------- the life of an agent

  datatype Phase = Unborn | Alive(remote: bool) | Dead | Misused

  /** The protocol libjuice asks for: create, at most one remote description, destroy, nothing after. */
  function Next(ph: Phase, c: Call, a: Agent): Phase {
    if c.agent != a then ph
    else if c.Create? then (if ph == Unborn then Alive(false) else Misused)
    else if !ph.Alive? then Misused
    else if c.SetRemote? then (if ph.remote then Misused else Alive(true))
    else if c.Destroy? then Dead
    else ph
  }

  function Life(calls: seq<Call>, a: Agent): Phase {
    if calls == [] then Unborn else Next(Life(calls[..|calls| - 1], a), calls[|calls| - 1], a)
  }

  lemma LifeSnoc(calls: seq<Call>, c: Call, a: Agent)
    ensures Life(calls + [c], a) == Next(Life(calls, a), c, a)
  {
    assert (calls + [c])[..|calls|] == calls;
  }

  ghost predicate Owned(m: Mesh, a: Agent) {
    exists p :: p in m.links && m.links[p].agent == a
  }

  ghost predicate AgentOk(m: Mesh, a: Agent) {
    && Life(m.calls, a) != Misused
    && (Life(m.calls, a) == Unborn <==> a >= m.nextAgent)
    && (Life(m.calls, a).Alive? ==> Owned(m, a))
  }

  ghost predicate LinkOk(m: Mesh, p: Id) {
    p in m.links ==>
      && Life(m.calls, m.links[p].agent) == Alive(m.links[p].remoteSet)
      && (m.links[p].connected ==> m.links[p].outbox == [])
      && forall q :: q in m.links && m.links[q].agent == m.links[p].agent ==> q == p
  }

  /**
   Every agent is used as libjuice asks and none leaks: an agent is alive
   exactly while one link stands on it, and that link alone.
   */
  ghost predicate Disciplined(m: Mesh) {
    (forall p :: LinkOk(m, p)) && (forall a :: AgentOk(m, a))
  }

  lemma NewMeshDisciplined()
    ensures Disciplined(NEW_MESH)
  {
  }

  lemma AgentsNumbered(m: Mesh, q: Id)
    requires Disciplined(m) && q in m.links
    ensures m.links[q].agent < m.nextAgent
  {
    hide Life;
    assert LinkOk(m, q) && AgentOk(m, m.links[q].agent);
  }

  lemma CreateLinkOk(m: Mesh, p: Id, e: Env, q: Id)
    requires Disciplined(m) && p !in m.links
    ensures LinkOk(CreateLink(m, p, e).mesh, q)
  {
    hide Life;
    var n := CreateLink(m, p, e).mesh;
    assert LinkOk(m, q) && AgentOk(m, m.nextAgent);
    forall x | x in m.links ensures m.links[x].agent < m.nextAgent { AgentsNumbered(m, x); }
    hide Disciplined;
    if q in m.links { LifeSnoc(m.calls, Create(m.nextAgent, p), m.links[q].agent); }
    LifeSnoc(m.calls, Create(m.nextAgent, p), m.nextAgent);
  }

  lemma CreateAgentOk(m: Mesh, p: Id, e: Env, a: Agent)
    requires Disciplined(m) && p !in m.links
    ensures AgentOk(CreateLink(m, p, e).mesh, a)
  {
    hide Life;
    var n := CreateLink(m, p, e).mesh;
    assert AgentOk(m, a);
    hide Disciplined, LinkOk;
    LifeSnoc(m.calls, Create(m.nextAgent, p), a);
    if Owned(m, a) {
      var q :| q in m.links && m.links[q].agent == a;
      assert q in n.links && n.links[q].agent == a;
    }
    assert n.calls != m.calls ==> n.links[p].agent == m.nextAgent;
  }

  lemma CreateDisciplined(m: Mesh, p: Id, e: Env)
    requires Disciplined(m) && p !in m.links
    ensures Disciplined(CreateLink(m, p, e).mesh)
  {
    hide LinkOk, AgentOk, CreateLink;
    forall q ensures LinkOk(CreateLink(m, p, e).mesh, q) { CreateLinkOk(m, p, e, q); }
    forall a ensures AgentOk(CreateLink(m, p, e).mesh, a) { CreateAgentOk(m, p, e, a); }
  }

  /** A call that neither creates, destroys nor describes, on a linked agent. */
  lemma NeutralDisciplined(m: Mesh, p: Id, c: Call)
    requires Disciplined(m) && p in m.links && c.agent == m.links[p].agent
    requires !c.Create? && !c.Destroy? && !c.SetRemote?
    ensures Disciplined(Called(m, c))
  {
    var n := Called(m, c);
    assert LinkOk(m, p);
    forall q ensures LinkOk(n, q) {
      assert LinkOk(m, q);
      if q in m.links { LifeSnoc(m.calls, c, m.links[q].agent); }
    }
    forall a ensures AgentOk(n, a) {
      assert AgentOk(m, a);
      LifeSnoc(m.calls, c, a);
    }
  }

  lemma DestroyDisciplined(m: Mesh, p: Id)
    requires Disciplined(m)
    ensures Disciplined(DestroyLink(m, p))
  {
    if p in m.links {
      var n, c := DestroyLink(m, p), Destroy(m.links[p].agent);
      assert LinkOk(m, p);
      forall q ensures LinkOk(n, q) {
        assert LinkOk(m, q);
        if q in m.links { LifeSnoc(m.calls, c, m.links[q].agent); }
      }
      forall a ensures AgentOk(n, a) {
        assert AgentOk(m, a);
        LifeSnoc(m.calls, c, a);
        if Life(n.calls, a).Alive? {
          var q :| q in m.links && m.links[q].agent == a;
          assert q in n.links;
        }
      }
    }
  }

  lemma {:induction false} DestroyEachDisciplined(m: Mesh)
    requires Disciplined(m)
    ensures Disciplined(DestroyEach(m)) && DestroyEach(m).links == map[]
    decreases |m.links|
  {
    if m.links != map[] {
      var p := LeastId(m.links.Keys);
      DestroyDisciplined(m, p);
      DestroyEachDisciplined(DestroyLink(m, p));
    }
  }

  lemma RemoteDisciplined(m: Mesh, p: Id, sdp: Str)
    requires Disciplined(m) && p in m.links
    ensures Disciplined(ApplyRemote(m, p, sdp))
  {
    if !m.links[p].remoteSet {
      var n, c := ApplyRemote(m, p, sdp), SetRemote(m.links[p].agent, sdp);
      assert LinkOk(m, p);
      forall q ensures LinkOk(n, q) {
        assert LinkOk(m, q);
        if q in m.links { LifeSnoc(m.calls, c, m.links[q].agent); }
      }
      forall a ensures AgentOk(n, a) {
        assert AgentOk(m, a);
        LifeSnoc(m.calls, c, a);
        if Owned(m, a) {
          var q :| q in m.links && m.links[q].agent == a;
          assert n.links[q].agent == a;
        }
      }
    }
  }

  /** Only the connected flag, the outbox or untracked fields change. */
  lemma RelinkDisciplined(m: Mesh, n: Mesh, p: Id)
    requires Disciplined(m) && p in m.links && p in n.links && n.calls == m.calls && n.nextAgent == m.nextAgent
    requires n.links == m.links[p := n.links[p]]
    requires n.links[p].agent == m.links[p].agent && n.links[p].remoteSet == m.links[p].remoteSet
    requires n.links[p].connected ==> n.links[p].outbox == []
    ensures Disciplined(n)
  {
    assert LinkOk(m, p);
    forall q ensures LinkOk(n, q) { assert LinkOk(m, q); }
    forall a ensures AgentOk(n, a) {
      assert AgentOk(m, a);
      if Owned(m, a) {
        var q :| q in m.links && m.links[q].agent == a;
        assert n.links[q].agent == a;
      }
    }
  }

  lemma ShareDisciplined(m: Mesh, p: Id, e: Env)
    requires Disciplined(m) && p in m.links
    ensures Disciplined(ShareLink(m, p, e).mesh)
  {
    if e.sdp.Some? {
      var n := Signaled(m, p, DESCRIPTION, e.sdp.value);
      assert n.links == m.links[p := n.links[p]];
      assert LinkOk(m, p);
      RelinkDisciplined(m, n, p);
      NeutralDisciplined(n, p, Gather(m.links[p].agent));
    }
  }

  lemma {:induction false} SendEachDisciplined(m: Mesh, p: Id, outbox: seq<Str>)
    requires Disciplined(m) && p in m.links
    ensures Disciplined(m.(calls := m.calls + SendEach(m.links[p].agent, outbox)))
    decreases outbox
  {
    var agent := m.links[p].agent;
    if outbox == [] {
      assert m.calls + [] == m.calls;
    } else {
      NeutralDisciplined(m, p, SendData(agent, outbox[0]));
      var n := Called(m, SendData(agent, outbox[0]));
      SendEachDisciplined(n, p, outbox[1..]);
      assert n.calls + SendEach(agent, outbox[1..]) == m.calls + SendEach(agent, outbox);
    }
  }

  lemma DialDisciplined(m: Mesh, p: Id, e: Env)
    requires Disciplined(m)
    ensures Disciplined(Dial(m, p, e).mesh)
  {
    if p !in m.links {
      CreateDisciplined(m, p, e);
      var made := CreateLink(m, p, e);
      if made.ok {
        ShareDisciplined(made.mesh, p, e);
        DestroyDisciplined(ShareLink(made.mesh, p, e).mesh, p);
      }
    }
  }

  lemma SendDisciplined(m: Mesh, isPeer: bool, p: Id, data: Str, e: Env)
    requires Disciplined(m)
    ensures Disciplined(SendP2P(m, isPeer, p, data, e).mesh)
  {
    DialDisciplined(m, p, e);
    var dialed := Dial(m, p, e);
    hide Dial;
    if Sendable(data) && isPeer && dialed.ok {
      var d := dialed.mesh;
      if d.links[p].connected {
        NeutralDisciplined(d, p, SendData(d.links[p].agent, data));
      } else {
        RelinkDisciplined(d, SendP2P(m, isPeer, p, data, e).mesh, p);
      }
    }
  }

  lemma DescriptionDisciplined(m: Mesh, p: Id, sdp: Str, e: Env)
    requires Disciplined(m)
    ensures Disciplined(HandleDescription(m, p, sdp, e))
  {
    hide Disciplined;
    DestroyDisciplined(m, p);
    var m' := if p in m.links && m.links[p].remoteSet then DestroyLink(m, p) else m;
    if p in m'.links {
      RemoteDisciplined(m', p, sdp);
    } else {
      var k := m'.(attempts := m'.attempts - {p});
      AttemptsDisciplined(m', k.attempts);
      CreateDisciplined(k, p, e);
      var made := CreateLink(k, p, e);
      if made.ok {
        RemoteDisciplined(made.mesh, p, sdp);
        ShareDisciplined(ApplyRemote(made.mesh, p, sdp), p, e);
      }
    }
  }

  lemma AttemptsDisciplined(m: Mesh, attempts: map<Id, nat>)
    requires Disciplined(m)
    ensures Disciplined(m.(attempts := attempts))
  {
    var n := m.(attempts := attempts);
    forall q ensures LinkOk(n, q) { assert LinkOk(m, q); }
    forall a ensures AgentOk(n, a) {
      assert AgentOk(m, a);
      assert Owned(m, a) ==> Owned(n, a);
    }
  }

  lemma FlushDisciplined(m: Mesh, p: Id)
    requires Disciplined(m) && p in m.links
    ensures Disciplined(HandleLinkState(m, p, Connected))
  {
    hide Disciplined;
    var link := m.links[p];
    SendEachDisciplined(m, p, link.outbox);
    var n := m.(calls := m.calls + SendEach(link.agent, link.outbox));
    var k := n.(links := n.links[p := link.(connected := true, outbox := [])]);
    RelinkDisciplined(n, k, p);
    AttemptsDisciplined(k, m.attempts - {p});
    assert HandleLinkState(m, p, Connected) == k.(attempts := m.attempts - {p}) by {
      assert m.links[p := link.(connected := true)][p := link.(connected := true, outbox := [])]
          == m.links[p := link.(connected := true, outbox := [])];
    }
  }

  lemma EventDisciplined(m: Mesh, ev: Event)
    requires Disciplined(m)
    ensures Disciplined(HandleEvent(m, ev))
  {
    if Current(m, ev) {
      var p, n := ev.peer, HandleEvent(m, ev);
      match ev.kind {
        case StateChange(state) =>
          FlushDisciplined(m, p);
          DestroyDisciplined(m, p);
          if state == Disconnected { RelinkDisciplined(m, n, p); }
        case LocalCandidate(sdp) =>
          assert LinkOk(m, p) && m.links == m.links[p := m.links[p]];
          RelinkDisciplined(m, n, p);
        case LocalDone =>
          assert LinkOk(m, p) && m.links == m.links[p := m.links[p]];
          RelinkDisciplined(m, n, p);
        case Recv(data) =>
          assert LinkOk(m, p) && m.links == m.links[p := m.links[p]];
          RelinkDisciplined(m, n, p);
      }
    }
  }

  lemma DoDisciplined(m: Mesh, step: Step)
    requires Disciplined(m)
    ensures Disciplined(Do(m, step))
  {
    hide Disciplined;
    match step {
      case Send(isPeer, p, data, e) => SendDisciplined(m, isPeer, p, data, e);
      case Signal(p, kind, payload, e) =>
        DescriptionDisciplined(m, p, payload, e);
        if p in m.links {
          NeutralDisciplined(m, p, AddCandidate(m.links[p].agent, payload));
          NeutralDisciplined(m, p, RemoteDone(m.links[p].agent));
        }
      case Juice(ev) => EventDisciplined(m, ev);
      case Gone(p) =>
        DestroyDisciplined(m, p);
        AttemptsDisciplined(DestroyLink(m, p), DestroyLink(m, p).attempts - {p});
      case Clear =>
        DestroyEachDisciplined(m);
        AttemptsDisciplined(DestroyEach(m), map[]);
    }
  }

  /** Over every run: no agent is described twice, used after its end, or leaked. */
  lemma {:induction false} RunDisciplined(steps: seq<Step>)
    ensures Disciplined(Exec(steps))
  {
    if steps == [] {
      NewMeshDisciplined();
    } else {
      RunDisciplined(steps[..|steps| - 1]);
      DoDisciplined(Exec(steps[..|steps| - 1]), steps[|steps| - 1]);
    }
  }

  /** Whatever a destroyed agent still had queued changes nothing. */
  lemma DeadAgentsAreMute(steps: seq<Step>, ev: Event)
    requires !Life(Exec(steps).calls, ev.agent).Alive?
    ensures Do(Exec(steps), Juice(ev)) == Exec(steps)
  {
    RunDisciplined(steps);
    assert LinkOk(Exec(steps), ev.peer);
  }
}
