/**
 What a mesh run amounts to, read off its steps alone: which links stand, which
 are up, what was received, what was signalled, what reached each agent.
 */
module MeshTrace {
  import opened Protocol
  import opened Seqs
  import opened Mesh
  import opened MeshRuns

  /** The event's agent is the one behind its peer's link. */
  predicate Heeded(m: Mesh, ev: Event) {
    ev.peer in m.links && m.links[ev.peer].agent == ev.agent
  }

  // ---------------------------------------------------------------- datagrams

  function Receives(m: Mesh, step: Step): seq<Datagram> {
    if step.Juice? && step.event.kind.Recv? && Heeded(m, step.event)
    then [Datagram(step.event.peer, step.event.kind.data)] else []
  }

  function Received(steps: seq<Step>): seq<Datagram> {
    if steps == [] then []
    else Received(steps[..|steps| - 1]) + Receives(Exec(steps[..|steps| - 1]), steps[|steps| - 1])
  }

  // ------------------------------------------------------------------- signals

  /** A send to a peer without a link that gets as far as a description. */
  predicate Dials(m: Mesh, step: Step) {
    && step.Send? && step.isPeer && 0 < |step.data| <= 1024 && step.peer !in m.links
    && Tries(m, step.peer) < 3 && step.env.creates && step.env.sdp.Some?
  }

  /** A description from a peer with no link, or one already described, for which an agent can be made. */
  predicate Answers(m: Mesh, step: Step) {
    && step.Signal? && step.kind == DESCRIPTION && step.env.creates
    && (step.peer in m.links ==> m.links[step.peer].remoteSet)
  }

  predicate Describes(m: Mesh, step: Step) {
    Dials(m, step) || (Answers(m, step) && step.env.sdp.Some?)
  }

  /** The signals one step sends. */
  function Says(m: Mesh, step: Step): seq<Msg> {
    if Describes(m, step) then [P2PSignal(step.peer, DESCRIPTION, step.env.sdp.value)]
    else if step.Juice? && Heeded(m, step.event) && step.event.kind.LocalCandidate? then
      [P2PSignal(step.event.peer, CANDIDATE, step.event.kind.sdp)]
    else if step.Juice? && Heeded(m, step.event) && step.event.kind.LocalDone? then
      [P2PSignal(step.event.peer, GATHERING_DONE, [])]
    else []
  }

  function Said(steps: seq<Step>): seq<Msg> {
    if steps == [] then []
    else Said(steps[..|steps| - 1]) + Says(Exec(steps[..|steps| - 1]), steps[|steps| - 1])
  }

  // ------------------------------------------------- dials and answers at once

  /** A dial, step by step as SendP2P makes it, amounts to this. */
  function Dialled(m: Mesh, p: Id, e: Env): Mesh {
    if Tries(m, p) >= MAX_ATTEMPTS || !e.creates then m.(attempts := m.attempts[p := Tries(m, p)])
    else
      var a, stays := m.nextAgent, e.sdp.Some? && e.gathers;
      Mesh(if stays then m.links[p := Link(a, false, false, [])] else m.links,
           m.attempts[p := Tries(m, p) + 1], a + 1,
           m.calls + [Create(a, p)] + (if e.sdp.Some? then [Gather(a)] else []) + (if stays then [] else [Destroy(a)]),
           m.signals + (if e.sdp.Some? then [P2PSignal(p, DESCRIPTION, e.sdp.value)] else []), m.inbox)
  }

  lemma DialAtOnce(m: Mesh, p: Id, e: Env)
    requires p !in m.links
    ensures Dial(m, p, e).mesh == Dialled(m, p, e)
    ensures Dial(m, p, e).ok <==> Tries(m, p) < MAX_ATTEMPTS && e.creates && e.sdp.Some? && e.gathers
  {
    var a := m.nextAgent;
    assert m.links[p := Link(a, false, false, [])] - {p} == m.links;
    assert m.calls + [Create(a, p)] + [] == m.calls + [Create(a, p)] && m.signals + [] == m.signals;
    assert m.calls + [Create(a, p)] + [Gather(a)] + [] == m.calls + [Create(a, p)] + [Gather(a)];
  }

  /** An answer to a description, step by step as HandleP2PDescription makes it, amounts to this. */
  function Answered(m: Mesh, p: Id, sdp: Str, e: Env): Mesh {
    var rid := m.calls + if p in m.links then [Destroy(m.links[p].agent)] else [];
    if !e.creates then m.(links := m.links - {p}, attempts := (m.attempts - {p})[p := 0], calls := rid)
    else
      var a := m.nextAgent;
      Mesh(m.links[p := Link(a, true, false, [])], (m.attempts - {p})[p := 1], a + 1,
           rid + [Create(a, p)] + [SetRemote(a, sdp)] + (if e.sdp.Some? then [Gather(a)] else []),
           m.signals + (if e.sdp.Some? then [P2PSignal(p, DESCRIPTION, e.sdp.value)] else []), m.inbox)
  }

  lemma AnswerAtOnce(m: Mesh, p: Id, sdp: Str, e: Env)
    requires p in m.links ==> m.links[p].remoteSet
    ensures HandleDescription(m, p, sdp, e) == Answered(m, p, sdp, e)
  {
    var a, n := m.nextAgent, DestroyLink(m, p);
    assert m.calls + [] == m.calls && m.signals + [] == m.signals && m.links - {p} == n.links;
    assert p !in m.links ==> m.links - {p} == m.links;
    assert n.links[p := Link(a, false, false, [])][p := Link(a, true, false, [])] == m.links[p := Link(a, true, false, [])];
    assert n.calls + [Create(a, p)] + [SetRemote(a, sdp)] + [] == n.calls + [Create(a, p)] + [SetRemote(a, sdp)];
  }

  lemma {:induction false} DestroyEachFrame(m: Mesh)
    ensures var n := DestroyEach(m);
            n.links == map[] && n.signals == m.signals && n.inbox == m.inbox && n.nextAgent == m.nextAgent
    decreases |m.links|
  {
    if m.links != map[] { DestroyEachFrame(DestroyLink(m, LeastId(m.links.Keys))); }
  }

  lemma SendTraffic(m: Mesh, isPeer: bool, p: Id, data: Str, e: Env)
    ensures var n := SendP2P(m, isPeer, p, data, e).mesh;
            n.inbox == m.inbox && n.signals == m.signals + Says(m, Send(isPeer, p, data, e))
  {
    hide Dial, Tries;
    assert m.signals + [] == m.signals;
    if p !in m.links { DialAtOnce(m, p, e); } else { DialledAlready(m, p, e); }
  }

  lemma DialledAlready(m: Mesh, p: Id, e: Env)
    requires p in m.links
    ensures Dial(m, p, e) == Outcome(m, true)
  {
  }

  lemma DescriptionTraffic(m: Mesh, p: Id, sdp: Str, e: Env)
    ensures var n := HandleDescription(m, p, sdp, e);
            n.inbox == m.inbox && n.signals == m.signals + Says(m, Signal(p, DESCRIPTION, sdp, e))
  {
    assert m.signals + [] == m.signals;
    if p in m.links ==> m.links[p].remoteSet {
      hide HandleDescription;
      AnswerAtOnce(m, p, sdp, e);
    }
  }

  /** One step's effect on what leaves and enters the client. */
  lemma StepTraffic(m: Mesh, step: Step)
    ensures Do(m, step).inbox == m.inbox + Receives(m, step)
    ensures Do(m, step).signals == m.signals + Says(m, step)
  {
    hide SendP2P, HandleDescription, DestroyEach, SendEach;
    assert m.signals + [] == m.signals && m.inbox + [] == m.inbox;
    match step {
      case Send(isPeer, p, data, e) => SendTraffic(m, isPeer, p, data, e);
      case Signal(p, kind, payload, e) => if kind == DESCRIPTION { DescriptionTraffic(m, p, payload, e); }
      case Juice(ev) =>
      case Gone(p) =>
      case Clear => DestroyEachFrame(m);
    }
  }

  /** In every run the inbox holds what current agents received, in order, and nothing else. */
  lemma {:induction false} InboxIsReceived(steps: seq<Step>)
    ensures Exec(steps).inbox == Received(steps)
  {
    hide Do, Receives;
    if steps != [] {
      InboxIsReceived(steps[..|steps| - 1]);
      StepTraffic(Exec(steps[..|steps| - 1]), steps[|steps| - 1]);
    }
  }

  /**
   In every run the signals sent are, in order: one description per dial or
   answer, the candidates of current agents, and one GATHERING_DONE for each
   that finished.
   */
  lemma {:induction false} SignalsAreSaid(steps: seq<Step>)
    ensures Exec(steps).signals == Said(steps)
  {
    hide Do, Says;
    if steps != [] {
      SignalsAreSaid(steps[..|steps| - 1]);
      StepTraffic(Exec(steps[..|steps| - 1]), steps[|steps| - 1]);
    }
  }

  // ---------------------------------------------------------------- the links

  /** Whether a link to `p` stands at the end of the run. */
  predicate Stands(steps: seq<Step>, p: Id) {
    steps != [] &&
    var before, last := steps[..|steps| - 1], steps[|steps| - 1];
    var m := Exec(before);
    match last
    case Send(_, q, _, e) => Stands(before, p) || (q == p && Dials(m, last) && e.gathers)
    case Signal(q, kind, _, e) =>
      if q != p || kind != DESCRIPTION then Stands(before, p)
      else (p in m.links && !m.links[p].remoteSet) || e.creates
    case Juice(ev) => Stands(before, p) && !(ev.peer == p && ev.kind == StateChange(Failed) && Heeded(m, ev))
    case Gone(q) => Stands(before, p) && q != p
    case Clear => false
  }

  /** Whether agent `a` is up: what the last current state event of its link said. */
  predicate Up(steps: seq<Step>, a: Agent) {
    steps != [] &&
    var before, last := steps[..|steps| - 1], steps[|steps| - 1];
    if last.Juice? && last.event.agent == a && Heeded(Exec(before), last.event) && last.event.kind.StateChange? then
      match last.event.kind.state
      case Connected => true
      case Completed => true
      case Disconnected => false
      case _ => Up(before, a)
    else Up(before, a)
  }

  /** The link to `p` keeps its agent, and its flag unless a state event of that agent sets it; or it is new and down. */
  ghost predicate Evolves(m: Mesh, n: Mesh, step: Step, p: Id) {
    && m.nextAgent <= n.nextAgent
    && (p in n.links ==>
          || (&& p in m.links && n.links[p].agent == m.links[p].agent
              && n.links[p].connected == Flag(m, step, p))
          || (n.links[p].agent == m.nextAgent < n.nextAgent && !n.links[p].connected && !step.Juice?))
  }

  predicate Flag(m: Mesh, step: Step, p: Id)
    requires p in m.links
  {
    var a := m.links[p].agent;
    if step == Juice(Event(a, p, StateChange(Connected))) || step == Juice(Event(a, p, StateChange(Completed))) then true
    else if step == Juice(Event(a, p, StateChange(Disconnected))) then false
    else m.links[p].connected
  }

  /** Whether the step leaves a link to `p`. */
  predicate Leaves(m: Mesh, step: Step, p: Id) {
    match step
    case Send(_, q, _, e) => p in m.links || (q == p && Dials(m, step) && e.gathers)
    case Signal(q, kind, _, e) =>
      if q != p || kind != DESCRIPTION then p in m.links
      else (p in m.links && !m.links[p].remoteSet) || e.creates
    case Juice(ev) => p in m.links && !(ev.peer == p && ev.kind == StateChange(Failed) && Heeded(m, ev))
    case Gone(q) => p in m.links && q != p
    case Clear => false
  }

  lemma SendLink(m: Mesh, isPeer: bool, q: Id, data: Str, e: Env, p: Id)
    ensures var step, n := Send(isPeer, q, data, e), SendP2P(m, isPeer, q, data, e).mesh;
            Evolves(m, n, step, p) && (p in n.links <==> Leaves(m, step, p))
  {
    hide Dial, Tries;
    if q !in m.links { DialAtOnce(m, q, e); } else { DialledAlready(m, q, e); }
  }

  lemma DescriptionLink(m: Mesh, q: Id, sdp: Str, e: Env, p: Id)
    ensures var step, n := Signal(q, DESCRIPTION, sdp, e), HandleDescription(m, q, sdp, e);
            Evolves(m, n, step, p) && (p in n.links <==> Leaves(m, step, p))
  {
    if q in m.links ==> m.links[q].remoteSet {
      hide HandleDescription;
      AnswerAtOnce(m, q, sdp, e);
    }
  }

  lemma EventLink(m: Mesh, ev: Event, p: Id)
    ensures var n := HandleEvent(m, ev);
            Evolves(m, n, Juice(ev), p) && (p in n.links <==> Leaves(m, Juice(ev), p))
  {
    hide SendEach;
  }

  lemma StepLink(m: Mesh, step: Step, p: Id)
    ensures Evolves(m, Do(m, step), step, p) && (p in Do(m, step).links <==> Leaves(m, step, p))
  {
    hide SendP2P, HandleDescription, HandleEvent, DestroyEach;
    match step {
      case Send(isPeer, q, data, e) => SendLink(m, isPeer, q, data, e, p);
      case Signal(q, kind, payload, e) => if kind == DESCRIPTION { DescriptionLink(m, q, payload, e, p); }
      case Juice(ev) => EventLink(m, ev, p);
      case Gone(q) =>
      case Clear => DestroyEachFrame(m);
    }
  }

  /** In every run, which links exist is decided by the steps. */
  lemma {:induction false} LinkedIffStands(steps: seq<Step>, p: Id)
    ensures p in Exec(steps).links <==> Stands(steps, p)
  {
    hide Do, Dials, Heeded, Evolves;
    if steps != [] {
      LinkedIffStands(steps[..|steps| - 1], p);
      StepLink(Exec(steps[..|steps| - 1]), steps[|steps| - 1], p);
    }
  }

  lemma {:induction false} UnbornNotUp(steps: seq<Step>, a: Agent)
    requires a >= Exec(steps).nextAgent
    ensures !Up(steps, a)
  {
    hide Do, Disciplined;
    if steps != [] {
      var before, last := steps[..|steps| - 1], steps[|steps| - 1];
      StepLink(Exec(before), last, 0);
      UnbornNotUp(before, a);
      RunDisciplined(before);
      if last.Juice? && Heeded(Exec(before), last.event) { AgentsNumbered(Exec(before), last.event.peer); }
    }
  }

  /** In every run a link is connected iff the last state its agent reported was connected or completed. */
  lemma {:induction false} ConnectedIffUp(steps: seq<Step>, p: Id)
    requires p in Exec(steps).links
    ensures Exec(steps).links[p].connected <==> Up(steps, Exec(steps).links[p].agent)
  {
    hide Do, Disciplined, Life;
    if steps != [] {
      var before, last := steps[..|steps| - 1], steps[|steps| - 1];
      var m, n := Exec(before), Exec(steps);
      StepLink(m, last, p);
      if p in m.links && n.links[p].agent == m.links[p].agent {
        ConnectedIffUp(before, p);
        RunDisciplined(before);
        OneLinkPerAgent(m, p);
        AgentsNumbered(m, p);
        if last.Juice? && Heeded(m, last.event) && last.event.agent == m.links[p].agent {
          assert last == Juice(Event(m.links[p].agent, p, last.event.kind));
        }
      } else {
        UnbornNotUp(before, m.nextAgent);
      }
    }
  }

  lemma OneLinkPerAgent(m: Mesh, p: Id)
    requires Disciplined(m) && p in m.links
    ensures forall q :: q in m.links && m.links[q].agent == m.links[p].agent ==> q == p
  {
    hide Life;
    assert LinkOk(m, p);
  }

  // ------------------------------------------------------------- handing over

  /** While an agent is up nothing waits: all that was accepted for it has been handed over. */
  lemma UpHandsOver(steps: seq<Step>, p: Id)
    requires p in Exec(steps).links && Up(steps, Exec(steps).links[p].agent)
    ensures Handed(Exec(steps).calls, Exec(steps).links[p].agent) == Accepted(steps, Exec(steps).links[p].agent)
  {
    hide Exec, Up, Handed, Accepted;
    var a := Exec(steps).links[p].agent;
    ConnectedIffUp(steps, p);
    DatagramOrder(steps, a);
    assert Handed(Exec(steps).calls, a) + [] == Handed(Exec(steps).calls, a);
  }

  /** The moment a link comes up, everything accepted for it so far has been handed over, in order. */
  lemma FlushedOnConnect(steps: seq<Step>, ev: Event)
    requires Heeded(Exec(steps), ev) && ev.kind in {StateChange(Connected), StateChange(Completed)}
    ensures Handed(Exec(steps + [Juice(ev)]).calls, ev.agent) == Accepted(steps, ev.agent)
  {
    var all := steps + [Juice(ev)];
    assert all[..|all| - 1] == steps;
    StepLink(Exec(steps), Juice(ev), ev.peer);
    hide Do, Handed;
    UpHandsOver(all, ev.peer);
    assert Accepted(steps, ev.agent) + [] == Accepted(steps, ev.agent);
  }

  /** A valid send on a standing link is handed over in the same step if the agent is up, and waits otherwise. */
  lemma SendsGoOut(steps: seq<Step>, p: Id, data: Str, e: Env)
    requires p in Exec(steps).links && 0 < |data| <= 1024
    ensures var all, a := steps + [Send(true, p, data, e)], Exec(steps).links[p].agent;
            && p in Exec(all).links && Exec(all).links[p].agent == a
            && Handed(Exec(all).calls, a) == Handed(Exec(steps).calls, a) + (if Up(steps, a) then [data] else [])
            && Exec(all).links[p].outbox == Exec(steps).links[p].outbox + (if Up(steps, a) then [] else [data])
  {
    var all, a, m := steps + [Send(true, p, data, e)], Exec(steps).links[p].agent, Exec(steps);
    assert all[..|all| - 1] == steps;
    ConnectedIffUp(steps, p);
    hide Up, Handed;
    HandedSnoc(m.calls, SendData(a, data), a);
    assert m.links[p].outbox + [] == m.links[p].outbox && Handed(m.calls, a) + [] == Handed(m.calls, a);
  }

  /** What SendP2P reports: the message is on its way, queued or accepted by libjuice. */
  lemma SendReports(m: Mesh, isPeer: bool, p: Id, data: Str, e: Env)
    ensures var r := SendP2P(m, isPeer, p, data, e);
            var was := if p in m.links then m.links[p].outbox else [];
            && (r.ok <==> isPeer && 0 < |data| <= 1024 && p in r.mesh.links && (r.mesh.links[p].connected ==> e.sends))
            && (r.ok && !r.mesh.links[p].connected ==> r.mesh.links[p].outbox == was + [data])
            && (r.ok && r.mesh.links[p].connected ==> r.mesh.calls == m.calls + [SendData(r.mesh.links[p].agent, data)])
  {
    hide Tries;
  }

  // ---------------------------------------------------- what reaches an agent

  /** The calls that carry a peer's signals into libjuice. */
  function Inward(calls: seq<Call>): seq<Call> {
    if calls == [] then []
    else
      var c := calls[|calls| - 1];
      Inward(calls[..|calls| - 1]) + if c.SetRemote? || c.AddCandidate? || c.RemoteDone? then [c] else []
  }

  /** What one step passes on: a signal reaches the agent of its sender's link, a new one if a description needs it. */
  function Passes(m: Mesh, step: Step): seq<Call> {
    if !step.Signal? then []
    else if step.kind == DESCRIPTION then
      if Answers(m, step) then [SetRemote(m.nextAgent, step.payload)]
      else if step.peer in m.links && !m.links[step.peer].remoteSet then
        [SetRemote(m.links[step.peer].agent, step.payload)]
      else []
    else if step.peer !in m.links then []
    else if step.kind == CANDIDATE then [AddCandidate(m.links[step.peer].agent, step.payload)]
    else if step.kind == GATHERING_DONE then [RemoteDone(m.links[step.peer].agent)]
    else []
  }

  function Passed(steps: seq<Step>): seq<Call> {
    if steps == [] then []
    else Passed(steps[..|steps| - 1]) + Passes(Exec(steps[..|steps| - 1]), steps[|steps| - 1])
  }

  /** How often agent `a` was told to gather. */
  function Gathers(calls: seq<Call>, a: Agent): nat {
    if calls == [] then 0
    else
      var c := calls[|calls| - 1];
      Gathers(calls[..|calls| - 1], a) + if c == Gather(a) then 1 else 0
  }

  /** How often a description of agent `a` was signalled. */
  function Described(steps: seq<Step>, a: Agent): nat {
    if steps == [] then 0
    else
      var before, last := steps[..|steps| - 1], steps[|steps| - 1];
      Described(before, a) + if Describes(Exec(before), last) && Exec(before).nextAgent == a then 1 else 0
  }

  lemma CallsSnoc(calls: seq<Call>, c: Call, a: Agent)
    ensures Inward(calls + [c])
         == Inward(calls) + if c.SetRemote? || c.AddCandidate? || c.RemoteDone? then [c] else []
    ensures Gathers(calls + [c], a) == Gathers(calls, a) + if c == Gather(a) then 1 else 0
  {
    assert (calls + [c])[..|calls|] == calls;
  }

  /** One call's share of both. */
  ghost predicate Adds(m: Mesh, n: Mesh, a: Agent, passes: seq<Call>, gathers: nat) {
    Inward(n.calls) == Inward(m.calls) + passes && Gathers(n.calls, a) == Gathers(m.calls, a) + gathers
  }

  lemma NoCalls()
    ensures var none: seq<Call> := []; none + none == none
  {
  }

  lemma AddsNothing(m: Mesh, n: Mesh, a: Agent)
    requires n.calls == m.calls
    ensures Adds(m, n, a, [], 0)
  {
  }

  lemma AddsTwice(m: Mesh, n: Mesh, k: Mesh, a: Agent, ps: seq<Call>, g: nat, qs: seq<Call>, h: nat)
    requires Adds(m, n, a, ps, g) && Adds(n, k, a, qs, h)
    ensures Adds(m, k, a, ps + qs, g + h)
  {
    hide Inward, Gathers;
    Assoc(Inward(m.calls), ps, qs);
  }

  lemma CallAdds(m: Mesh, n: Mesh, c: Call, a: Agent)
    requires n.calls == m.calls + [c]
    ensures Adds(m, n, a, if c.SetRemote? || c.AddCandidate? || c.RemoteDone? then [c] else [], if c == Gather(a) then 1 else 0)
  {
    hide Inward, Gathers;
    CallsSnoc(m.calls, c, a);
  }

  lemma {:induction false} DestroyEachAdds(m: Mesh, a: Agent)
    ensures Adds(m, DestroyEach(m), a, [], 0)
    decreases |m.links|
  {
    hide Adds;
    if m.links == map[] {
      AddsNothing(m, m, a);
    } else {
      var p := LeastId(m.links.Keys);
      var n := DestroyLink(m, p);
      CallAdds(m, n, Destroy(m.links[p].agent), a);
      DestroyEachAdds(n, a);
      AddsTwice(m, n, DestroyEach(n), a, [], 0, [], 0);
      NoCalls();
    }
  }

  lemma {:induction false} SendEachAdds(calls: seq<Call>, agent: Agent, outbox: seq<Str>, a: Agent)
    ensures Inward(calls + SendEach(agent, outbox)) == Inward(calls)
    ensures Gathers(calls + SendEach(agent, outbox), a) == Gathers(calls, a)
    decreases outbox
  {
    hide Inward, Gathers;
    if outbox == [] {
      assert calls + [] == calls;
    } else {
      var c := SendData(agent, outbox[0]);
      CallsSnoc(calls, c, a);
      SendEachAdds(calls + [c], agent, outbox[1..], a);
      ConcatCons(calls, c, SendEach(agent, outbox[1..]));
    }
  }

  lemma EventAdds(m: Mesh, ev: Event, a: Agent)
    ensures Adds(m, HandleEvent(m, ev), a, [], 0)
  {
    hide Inward, Gathers, SendEach;
    if Current(m, ev) {
      SendEachAdds(m.calls, ev.agent, m.links[ev.peer].outbox, a);
      CallsSnoc(m.calls, Destroy(ev.agent), a);
    }
    assert Inward(m.calls) + [] == Inward(m.calls);
  }

  lemma SendAdds(m: Mesh, isPeer: bool, p: Id, data: Str, e: Env, a: Agent)
    ensures Adds(m, SendP2P(m, isPeer, p, data, e).mesh, a, [],
                 if Dials(m, Send(isPeer, p, data, e)) && m.nextAgent == a then 1 else 0)
  {
    hide Inward, Gathers, Dial, Tries, Dialled;
    assert Inward(m.calls) + [] == Inward(m.calls);
    if p in m.links {
      DialledAlready(m, p, e);
      CallsSnoc(m.calls, SendData(m.links[p].agent, data), a);
    } else {
      DialAtOnce(m, p, e);
      DialledAdds(m, p, e, a);
      DialledDown(m, p, e);
    }
  }

  lemma DialledDown(m: Mesh, p: Id, e: Env)
    requires p !in m.links
    ensures p in Dialled(m, p, e).links ==> !Dialled(m, p, e).links[p].connected
  {
  }

  lemma DialledAdds(m: Mesh, p: Id, e: Env, a: Agent)
    ensures Adds(m, Dialled(m, p, e), a, [],
                 if Tries(m, p) < MAX_ATTEMPTS && e.creates && e.sdp.Some? && m.nextAgent == a then 1 else 0)
  {
    hide Inward, Gathers, Tries;
    assert Inward(m.calls) + [] == Inward(m.calls);
    var made := m.calls + [Create(m.nextAgent, p)];
    CallsSnoc(m.calls, Create(m.nextAgent, p), a);
    assert made + [] == made;
    if e.sdp.Some? {
      CallsSnoc(made, Gather(m.nextAgent), a);
      CallsSnoc(made + [Gather(m.nextAgent)], Destroy(m.nextAgent), a);
      assert made + [Gather(m.nextAgent)] + [] == made + [Gather(m.nextAgent)];
    } else {
      CallsSnoc(made, Destroy(m.nextAgent), a);
    }
  }

  lemma DescriptionAdds(m: Mesh, p: Id, sdp: Str, e: Env, a: Agent)
    ensures var step := Signal(p, DESCRIPTION, sdp, e);
            Adds(m, HandleDescription(m, p, sdp, e), a, Passes(m, step),
                 if Describes(m, step) && m.nextAgent == a then 1 else 0)
  {
    hide Inward, Gathers, Answered;
    if p in m.links && !m.links[p].remoteSet {
      CallsSnoc(m.calls, SetRemote(m.links[p].agent, sdp), a);
    } else {
      AnswerAtOnce(m, p, sdp, e);
      hide HandleDescription;
      AnsweredAdds(m, p, sdp, e, a);
    }
  }

  lemma AnsweredAdds(m: Mesh, p: Id, sdp: Str, e: Env, a: Agent)
    ensures Adds(m, Answered(m, p, sdp, e), a, if e.creates then [SetRemote(m.nextAgent, sdp)] else [],
                 if e.creates && e.sdp.Some? && m.nextAgent == a then 1 else 0)
  {
    hide Inward, Gathers;
    var rid := m.calls + if p in m.links then [Destroy(m.links[p].agent)] else [];
    assert Inward(m.calls) + [] == Inward(m.calls) && m.calls + [] == m.calls;
    if p in m.links { CallsSnoc(m.calls, Destroy(m.links[p].agent), a); }
    assert Inward(rid) == Inward(m.calls) && Gathers(rid, a) == Gathers(m.calls, a);
    var made := rid + [Create(m.nextAgent, p)];
    CallsSnoc(rid, Create(m.nextAgent, p), a);
    CallsSnoc(made, SetRemote(m.nextAgent, sdp), a);
    var told := made + [SetRemote(m.nextAgent, sdp)];
    CallsSnoc(told, Gather(m.nextAgent), a);
    assert told + [] == told && Inward(told) + [] == Inward(told);
  }

  lemma StepAdds(m: Mesh, step: Step, a: Agent)
    ensures Adds(m, Do(m, step), a, Passes(m, step), if Describes(m, step) && m.nextAgent == a then 1 else 0)
  {
    hide Adds, SendP2P, HandleDescription, HandleEvent, DestroyEach;
    match step {
      case Send(isPeer, p, data, e) => SendAdds(m, isPeer, p, data, e, a);
      case Signal(p, kind, payload, e) =>
        if kind == DESCRIPTION {
          DescriptionAdds(m, p, payload, e, a);
        } else if p !in m.links {
          AddsNothing(m, m, a);
        } else {
          AddsNothing(m, m, a);
          CallAdds(m, Called(m, AddCandidate(m.links[p].agent, payload)), AddCandidate(m.links[p].agent, payload), a);
          CallAdds(m, Called(m, RemoteDone(m.links[p].agent)), RemoteDone(m.links[p].agent), a);
        }
      case Juice(ev) => EventAdds(m, ev, a);
      case Gone(p) =>
        var n := PeerGone(m, p);
        if p in m.links { CallAdds(m, n, Destroy(m.links[p].agent), a); } else { AddsNothing(m, n, a); }
      case Clear =>
        DestroyEachAdds(m, a);
        AddsNothing(DestroyEach(m), DestroyAllLinks(m), a);
        AddsTwice(m, DestroyEach(m), DestroyAllLinks(m), a, [], 0, [], 0);
        NoCalls();
    }
  }

  /** In every run each signal of a peer is passed to the agent of its link, and nothing else is passed on. */
  lemma {:induction false} SignalsPassedOn(steps: seq<Step>)
    ensures Inward(Exec(steps).calls) == Passed(steps)
  {
    hide Do, Passes, Inward;
    if steps == [] {
      NothingCalled(0);
    } else {
      SignalsPassedOn(steps[..|steps| - 1]);
      StepAdds(Exec(steps[..|steps| - 1]), steps[|steps| - 1], 0);
    }
  }

  lemma NothingCalled(a: Agent)
    ensures Inward([]) == [] && Gathers([], a) == 0
  {
  }

  /** In every run an agent gathers candidates exactly as often as it was described: at most once. */
  lemma {:induction false} GatheredOnce(steps: seq<Step>, a: Agent)
    ensures Gathers(Exec(steps).calls, a) == Described(steps, a) <= 1
    ensures Described(steps, a) == 1 ==> a < Exec(steps).nextAgent
  {
    hide Do, Describes, Gathers;
    if steps == [] {
      NothingCalled(a);
    } else {
      var before, last := steps[..|steps| - 1], steps[|steps| - 1];
      GatheredOnce(before, a);
      StepAdds(Exec(before), last, a);
      StepLink(Exec(before), last, 0);
      if Describes(Exec(before), last) { DescribingCreates(Exec(before), last); }
    }
  }

  lemma DescribingCreates(m: Mesh, step: Step)
    requires Describes(m, step)
    ensures Do(m, step).nextAgent == m.nextAgent + 1
  {
    hide Dial, HandleDescription, Tries;
    if step.Send? { DialAtOnce(m, step.peer, step.env); } else { AnswerAtOnce(m, step.peer, step.payload, step.env); }
  }

  // --------------------------------------------------------------------- roles

  /** Which came first to an agent: gathering, so it leads, or the peer's description, so it follows. */
  datatype Role = Unset | Controlling | Controlled

  function RoleOf(calls: seq<Call>, a: Agent): Role {
    if calls == [] then Unset
    else
      var c, was := calls[|calls| - 1], RoleOf(calls[..|calls| - 1], a);
      if was != Unset then was
      else if c == Gather(a) then Controlling
      else if c.SetRemote? && c.agent == a then Controlled
      else Unset
  }

  lemma RoleSnoc(calls: seq<Call>, c: Call, a: Agent)
    ensures RoleOf(calls + [c], a)
         == if RoleOf(calls, a) != Unset then RoleOf(calls, a)
            else if c == Gather(a) then Controlling
            else if c.SetRemote? && c.agent == a then Controlled
            else Unset
  {
    assert (calls + [c])[..|calls|] == calls;
  }

  lemma {:induction false} RoleStays(calls: seq<Call>, more: seq<Call>, a: Agent)
    requires RoleOf(calls, a) != Unset
    ensures RoleOf(calls + more, a) == RoleOf(calls, a)
    decreases more
  {
    if more == [] {
      assert calls + more == calls;
    } else {
      assert (calls + more)[..|calls + more| - 1] == calls + more[..|more| - 1];
      RoleStays(calls, more[..|more| - 1], a);
    }
  }

  lemma {:induction false} DestroyEachGrows(m: Mesh)
    ensures m.calls <= DestroyEach(m).calls
    decreases |m.links|
  {
    if m.links != map[] { DestroyEachGrows(DestroyLink(m, LeastId(m.links.Keys))); }
  }

  lemma CallsGrow(m: Mesh, step: Step)
    ensures m.calls <= Do(m, step).calls
  {
    hide Dial, HandleDescription, DestroyEach, SendEach, Tries;
    match step {
      case Send(_, p, _, e) => if p !in m.links { DialAtOnce(m, p, e); } else { DialledAlready(m, p, e); }
      case Signal(p, kind, payload, e) => if kind == DESCRIPTION { DescriptionGrows(m, p, payload, e); }
      case Juice(ev) =>
      case Gone(p) =>
      case Clear => DestroyEachGrows(m);
    }
  }

  lemma DescriptionGrows(m: Mesh, p: Id, sdp: Str, e: Env)
    ensures m.calls <= HandleDescription(m, p, sdp, e).calls
  {
    if p in m.links ==> m.links[p].remoteSet {
      hide HandleDescription;
      AnswerAtOnce(m, p, sdp, e);
    }
  }

  lemma {:induction false} UncalledUnset(calls: seq<Call>, a: Agent)
    requires Life(calls, a) == Unborn
    ensures RoleOf(calls, a) == Unset
  {
    if calls != [] { UncalledUnset(calls[..|calls| - 1], a); }
  }

  /** The agent a dial or an answer creates takes its role at once. */
  lemma RoleTaken(m: Mesh, step: Step)
    requires Disciplined(m) && (Dials(m, step) || Answers(m, step))
    ensures RoleOf(Do(m, step).calls, m.nextAgent) == if Answers(m, step) then Controlled else Controlling
  {
    hide Dial, HandleDescription, Tries, Life, RoleOf;
    var a := m.nextAgent;
    assert AgentOk(m, a);
    hide Disciplined;
    UncalledUnset(m.calls, a);
    var rid := m.calls + if step.Signal? && step.peer in m.links then [Destroy(m.links[step.peer].agent)] else [];
    assert RoleOf(rid, a) == Unset by {
      if step.Signal? && step.peer in m.links { RoleSnoc(m.calls, Destroy(m.links[step.peer].agent), a); }
      assert m.calls + [] == m.calls;
    }
    var made := rid + [Create(a, step.peer)];
    RoleSnoc(rid, Create(a, step.peer), a);
    if step.Send? {
      DialAtOnce(m, step.peer, step.env);
      assert rid == m.calls;
      RoleSnoc(made, Gather(a), a);
      RoleStays(made + [Gather(a)], if step.env.gathers then [] else [Destroy(a)], a);
    } else {
      AnswerAtOnce(m, step.peer, step.payload, step.env);
      RoleSnoc(made, SetRemote(a, step.payload), a);
      RoleStays(made + [SetRemote(a, step.payload)], if step.env.sdp.Some? then [Gather(a)] else [], a);
    }
  }

  /**
   In every run, whoever answers a dial has set the remote description before
   gathering, and so is controlled; whoever dials gathers first and controls.
   */
  lemma {:induction false} AnswererIsControlled(steps: seq<Step>, step: Step, more: seq<Step>)
    requires Dials(Exec(steps), step) || Answers(Exec(steps), step)
    ensures RoleOf(Exec(steps + [step] + more).calls, Exec(steps).nextAgent)
         == if Answers(Exec(steps), step) then Controlled else Controlling
    decreases more
  {
    hide Do, Dials, Answers, RoleOf, Disciplined;
    var all, m := steps + [step] + more, Exec(steps);
    if more == [] {
      assert all == steps + [step] && all[..|all| - 1] == steps;
      RunDisciplined(steps);
      RoleTaken(m, step);
    } else {
      var most := steps + [step] + more[..|more| - 1];
      assert all[..|all| - 1] == most;
      AnswererIsControlled(steps, step, more[..|more| - 1]);
      CallsGrow(Exec(most), all[|all| - 1]);
      var was, now := Exec(most).calls, Exec(all).calls;
      assert now == was + now[|was|..];
      RoleStays(was, now[|was|..], m.nextAgent);
    }
  }
}
