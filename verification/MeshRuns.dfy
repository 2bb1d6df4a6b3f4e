/** What every run of the mesh keeps: the retry budget and the order of datagrams. */
module MeshRuns {
  import opened Protocol
  import opened Seqs
  import opened Mesh

  // ------------------------------------------------------- remote descriptions

  function RemotesOf(calls: seq<Call>, a: Agent): nat {
    if calls == [] then 0
    else
      var c := calls[|calls| - 1];
      RemotesOf(calls[..|calls| - 1], a) + if c.SetRemote? && c.agent == a then 1 else 0
  }

  lemma {:induction false} LifeBoundsRemotes(calls: seq<Call>, a: Agent)
    ensures match Life(calls, a)
            case Unborn => RemotesOf(calls, a) == 0
            case Alive(remote) => RemotesOf(calls, a) == if remote then 1 else 0
            case Dead => RemotesOf(calls, a) <= 1
            case Misused => true
  {
    if calls != [] { LifeBoundsRemotes(calls[..|calls| - 1], a); }
  }

  /** juice_set_remote_description runs at most once per agent, in every run. */
  lemma OneRemotePerAgent(steps: seq<Step>, a: Agent)
    ensures RemotesOf(Exec(steps).calls, a) <= 1
  {
    RunDisciplined(steps);
    assert AgentOk(Exec(steps), a);
    LifeBoundsRemotes(Exec(steps).calls, a);
  }

  // -------------------------------------------------------------- retry budget

  /** How many agents have been created for `p`. */
  function Creates(calls: seq<Call>, p: Id): nat {
    if calls == [] then 0
    else
      var c := calls[|calls| - 1];
      Creates(calls[..|calls| - 1], p) + if c.Create? && c.peer == p then 1 else 0
  }

  lemma CreatesSnoc(calls: seq<Call>, c: Call, p: Id)
    ensures Creates(calls + [c], p) == Creates(calls, p) + if c.Create? && c.peer == p then 1 else 0
  {
    assert (calls + [c])[..|calls|] == calls;
  }

  /** The four ways a peer's record is wiped, read off the step alone. */
  predicate Resets(m: Mesh, step: Step, p: Id) {
    match step
    case Send(_, _, _, _) => false
    case Signal(q, kind, _, _) => q == p && kind == DESCRIPTION && (p in m.links ==> m.links[p].remoteSet)
    case Juice(ev) =>
      ev.peer == p && Current(m, ev)
      && (ev.kind == StateChange(Connected) || ev.kind == StateChange(Completed))
    case Gone(q) => q == p
    case Clear => true
  }

  /** Agents created for `p` since its last reset, counted over the run. */
  function SinceReset(steps: seq<Step>, p: Id): int {
    if steps == [] then 0
    else
      var before, last := steps[..|steps| - 1], steps[|steps| - 1];
      (if Resets(Exec(before), last, p) then 0 else SinceReset(before, p))
      + Creates(Exec(steps).calls, p) - Creates(Exec(before).calls, p)
  }

  /** One operation's effect on the budget of `p`: `reset` wipes, creations add. */
  ghost predicate Budget(m: Mesh, n: Mesh, p: Id, reset: bool) {
    && Creates(m.calls, p) <= Creates(n.calls, p)
    && Tries(n, p) == (if reset then 0 else Tries(m, p)) + Creates(n.calls, p) - Creates(m.calls, p)
    && (Tries(m, p) <= MAX_ATTEMPTS ==> Tries(n, p) <= MAX_ATTEMPTS)
  }

  lemma CreateBudget(m: Mesh, q: Id, e: Env, p: Id)
    requires q !in m.links
    ensures Budget(m, CreateLink(m, q, e).mesh, p, false)
  {
    hide Creates;
    CreatesSnoc(m.calls, Create(m.nextAgent, q), p);
  }

  lemma ShareBudget(m: Mesh, q: Id, e: Env, p: Id)
    requires q in m.links
    ensures Budget(m, ShareLink(m, q, e).mesh, p, false)
  {
    hide Creates;
    CreatesSnoc(m.calls, Gather(m.links[q].agent), p);
  }

  lemma DestroyBudget(m: Mesh, q: Id, p: Id)
    ensures Budget(m, DestroyLink(m, q), p, false)
    ensures DestroyLink(m, q).attempts == m.attempts
    ensures Creates(DestroyLink(m, q).calls, p) == Creates(m.calls, p)
  {
    if q in m.links { CreatesSnoc(m.calls, Destroy(m.links[q].agent), p); }
  }

  lemma {:induction false} DestroyEachBudget(m: Mesh, p: Id)
    ensures Budget(m, DestroyEach(m), p, false) && Creates(DestroyEach(m).calls, p) == Creates(m.calls, p)
    decreases |m.links|
  {
    hide Creates;
    if m.links != map[] {
      var q := LeastId(m.links.Keys);
      DestroyBudget(m, q, p);
      DestroyEachBudget(DestroyLink(m, q), p);
    }
  }

  lemma {:induction false} SendEachCreates(calls: seq<Call>, agent: Agent, outbox: seq<Str>, p: Id)
    ensures Creates(calls + SendEach(agent, outbox), p) == Creates(calls, p)
    decreases outbox
  {
    hide Creates;
    if outbox == [] {
      assert calls + [] == calls;
    } else {
      var c := SendData(agent, outbox[0]);
      CreatesSnoc(calls, c, p);
      SendEachCreates(calls + [c], agent, outbox[1..], p);
      ConcatCons(calls, c, SendEach(agent, outbox[1..]));
    }
  }

  lemma SendBudget(m: Mesh, isPeer: bool, q: Id, data: Str, e: Env, p: Id)
    ensures Budget(m, SendP2P(m, isPeer, q, data, e).mesh, p, false)
  {
    hide Creates;
    if Sendable(data) && isPeer {
      if q !in m.links {
        CreateBudget(m, q, e, p);
        var made := CreateLink(m, q, e);
        if made.ok {
          ShareBudget(made.mesh, q, e, p);
          DestroyBudget(ShareLink(made.mesh, q, e).mesh, q, p);
        }
      }
      var d := Dial(m, q, e);
      if d.ok { CreatesSnoc(d.mesh.calls, SendData(d.mesh.links[q].agent, data), p); }
    }
  }

  lemma DescriptionBudget(m: Mesh, q: Id, sdp: Str, e: Env, p: Id)
    ensures Budget(m, HandleDescription(m, q, sdp, e), p, q == p && (p in m.links ==> m.links[p].remoteSet))
  {
    hide Creates;
    DestroyBudget(m, q, p);
    var n := if q in m.links && m.links[q].remoteSet then DestroyLink(m, q) else m;
    if q in n.links {
      CreatesSnoc(n.calls, SetRemote(n.links[q].agent, sdp), p);
    } else {
      var k := n.(attempts := n.attempts - {q});
      CreateBudget(k, q, e, p);
      var made := CreateLink(k, q, e);
      if made.ok {
        CreatesSnoc(made.mesh.calls, SetRemote(made.mesh.links[q].agent, sdp), p);
        ShareBudget(ApplyRemote(made.mesh, q, sdp), q, e, p);
      }
    }
  }

  lemma SignalBudget(m: Mesh, q: Id, kind: byte, payload: Str, e: Env, p: Id)
    ensures Budget(m, HandleSignal(m, q, kind, payload, e), p, Resets(m, Signal(q, kind, payload, e), p))
  {
    hide Creates, HandleDescription;
    DescriptionBudget(m, q, payload, e, p);
    if q in m.links {
      CreatesSnoc(m.calls, AddCandidate(m.links[q].agent, payload), p);
      CreatesSnoc(m.calls, RemoteDone(m.links[q].agent), p);
    }
  }

  lemma EventBudget(m: Mesh, ev: Event, p: Id)
    ensures Budget(m, HandleEvent(m, ev), p, Resets(m, Juice(ev), p))
  {
    hide Creates, SendEach;
    if Current(m, ev) {
      DestroyBudget(m, ev.peer, p);
      SendEachCreates(m.calls, ev.agent, m.links[ev.peer].outbox, p);
    }
  }

  lemma StepBudget(m: Mesh, step: Step, p: Id)
    ensures Budget(m, Do(m, step), p, Resets(m, step, p))
  {
    hide Creates, SendP2P, HandleSignal, HandleEvent, DestroyEach;
    match step {
      case Send(isPeer, q, data, e) => SendBudget(m, isPeer, q, data, e, p);
      case Signal(q, kind, payload, e) => SignalBudget(m, q, kind, payload, e, p);
      case Juice(ev) => EventBudget(m, ev, p);
      case Gone(q) => DestroyBudget(m, q, p);
      case Clear => DestroyEachBudget(m, p);
    }
  }

  /**
   Over every run the attempt counter is the number of agents created for the
   peer since its last reset, and it never passes the limit.
   */
  lemma {:induction false} RetryBudget(steps: seq<Step>, p: Id)
    ensures Tries(Exec(steps), p) == SinceReset(steps, p) <= MAX_ATTEMPTS
  {
    if steps != [] {
      RetryBudget(steps[..|steps| - 1], p);
      StepBudget(Exec(steps[..|steps| - 1]), steps[|steps| - 1], p);
    }
  }

  /** No step of `more`, run after `steps`, resets `p`. */
  predicate NoReset(steps: seq<Step>, more: seq<Step>, p: Id) {
    more == [] ||
    (var before := more[..|more| - 1];
     NoReset(steps, before, p) && !Resets(Exec(steps + before), more[|more| - 1], p))
  }

  /** Without a reset, the agents still to come are bounded by what is left of the budget. */
  lemma {:induction false} BudgetBoundsAgents(steps: seq<Step>, more: seq<Step>, p: Id)
    requires NoReset(steps, more, p)
    ensures Creates(Exec(steps + more).calls, p) - Creates(Exec(steps).calls, p)
         == Tries(Exec(steps + more), p) - Tries(Exec(steps), p)
         <= MAX_ATTEMPTS - Tries(Exec(steps), p)
    ensures Creates(Exec(steps).calls, p) <= Creates(Exec(steps + more).calls, p)
    decreases more
  {
    hide Creates, Tries, Do, Resets;
    if more == [] {
      assert steps + more == steps;
      RetryBudget(steps, p);
    } else {
      var before, last := more[..|more| - 1], more[|more| - 1];
      BudgetBoundsAgents(steps, before, p);
      assert (steps + more)[..|steps + more| - 1] == steps + before;
      StepBudget(Exec(steps + before), last, p);
      RetryBudget(steps + more, p);
    }
  }

  /**
   Once the budget is spent, it stays spent until a reset: however the run goes
   on, no agent is created for the peer, and every send to it without a link
   fails and changes nothing.
   */
  lemma SpentBudgetRefuses(steps: seq<Step>, more: seq<Step>, p: Id, isPeer: bool, data: Str, e: Env)
    requires Tries(Exec(steps), p) == MAX_ATTEMPTS && NoReset(steps, more, p)
    ensures Creates(Exec(steps + more).calls, p) == Creates(Exec(steps).calls, p)
    ensures p !in Exec(steps + more).links ==>
              SendP2P(Exec(steps + more), isPeer, p, data, e) == Outcome(Exec(steps + more), false)
  {
    hide Exec, Creates, NoReset;
    BudgetBoundsAgents(steps, more, p);
    var m := Exec(steps + more);
    assert Tries(m, p) == MAX_ATTEMPTS;
    assert m.attempts[p := m.attempts[p]] == m.attempts;
  }

  // ------------------------------------------------------------ datagram order

  /** The payloads handed to juice_send on agent `a`, in order. */
  function Handed(calls: seq<Call>, a: Agent): seq<Str> {
    if calls == [] then []
    else
      var c := calls[|calls| - 1];
      Handed(calls[..|calls| - 1], a) + if c.SendData? && c.agent == a then [c.data] else []
  }

  lemma HandedSnoc(calls: seq<Call>, c: Call, a: Agent)
    ensures Handed(calls + [c], a) == Handed(calls, a) + if c.SendData? && c.agent == a then [c.data] else []
  {
    assert (calls + [c])[..|calls|] == calls;
  }

  lemma {:induction false} HandedSendEach(calls: seq<Call>, agent: Agent, outbox: seq<Str>, a: Agent)
    ensures Handed(calls + SendEach(agent, outbox), a) == Handed(calls, a) + if a == agent then outbox else []
    decreases outbox
  {
    hide Handed;
    if outbox == [] {
      assert calls + [] == calls;
      assert Handed(calls, a) + [] == Handed(calls, a);
    } else {
      var c := SendData(agent, outbox[0]);
      HandedSnoc(calls, c, a);
      HandedSendEach(calls + [c], agent, outbox[1..], a);
      ConcatCons(calls, c, SendEach(agent, outbox[1..]));
      ConcatCons(Handed(calls, a), outbox[0], outbox[1..]);
      assert outbox == [outbox[0]] + outbox[1..];
      assert Handed(calls, a) + [] == Handed(calls, a);
    }
  }

  /** The messages a step puts on agent `a`: a valid send that ends with a link on `a`. */
  function Taken(m: Mesh, step: Step, a: Agent): seq<Str> {
    if step.Send? && Sendable(step.data) && step.isPeer
       && step.peer in Do(m, step).links && Do(m, step).links[step.peer].agent == a
    then [step.data] else []
  }

  function Accepted(steps: seq<Step>, a: Agent): seq<Str> {
    if steps == [] then []
    else
      var before := steps[..|steps| - 1];
      Accepted(before, a) + Taken(Exec(before), steps[|steps| - 1], a)
  }

  /** Handed over, then waiting: exactly what was accepted, in that order. */
  ghost predicate Ordered(m: Mesh, a: Agent, accepted: seq<Str>) {
    && Handed(m.calls, a) <= accepted
    && (a >= m.nextAgent ==> accepted == [])
    && forall p :: p in m.links && m.links[p].agent == a ==> Handed(m.calls, a) + m.links[p].outbox == accepted
  }

  /** Same links, up to fields that carry no data; the call does not send. */
  lemma CallOrdered(m: Mesh, n: Mesh, c: Call, a: Agent, accepted: seq<Str>)
    requires Ordered(m, a, accepted) && n.calls == m.calls + [c] && !c.SendData? && n.nextAgent >= m.nextAgent
    requires forall p :: p in n.links && n.links[p].agent == a ==>
               (p in m.links && m.links[p].agent == a && n.links[p].outbox == m.links[p].outbox)
               || (a >= m.nextAgent && n.links[p].outbox == [])
    ensures Ordered(n, a, accepted)
  {
    HandedSnoc(m.calls, c, a);
    assert a >= m.nextAgent ==> Handed(m.calls, a) == [];
  }

  lemma DestroyOrdered(m: Mesh, p: Id, a: Agent, accepted: seq<Str>)
    requires Ordered(m, a, accepted)
    ensures Ordered(DestroyLink(m, p), a, accepted)
  {
    if p in m.links { CallOrdered(m, DestroyLink(m, p), Destroy(m.links[p].agent), a, accepted); }
  }

  lemma {:induction false} DestroyEachOrdered(m: Mesh, a: Agent, accepted: seq<Str>)
    requires Ordered(m, a, accepted)
    ensures Ordered(DestroyEach(m), a, accepted)
    decreases |m.links|
  {
    if m.links != map[] {
      var p := LeastId(m.links.Keys);
      DestroyOrdered(m, p, a, accepted);
      DestroyEachOrdered(DestroyLink(m, p), a, accepted);
    }
  }

  lemma CreateOrdered(m: Mesh, p: Id, e: Env, a: Agent, accepted: seq<Str>)
    requires Ordered(m, a, accepted) && p !in m.links
    ensures Ordered(CreateLink(m, p, e).mesh, a, accepted)
  {
    if CreateLink(m, p, e).ok {
      CallOrdered(m, CreateLink(m, p, e).mesh, Create(m.nextAgent, p), a, accepted);
    }
  }

  lemma ShareOrdered(m: Mesh, p: Id, e: Env, a: Agent, accepted: seq<Str>)
    requires Ordered(m, a, accepted) && p in m.links
    ensures Ordered(ShareLink(m, p, e).mesh, a, accepted)
  {
    if e.sdp.Some? {
      CallOrdered(m, ShareLink(m, p, e).mesh, Gather(m.links[p].agent), a, accepted);
    }
  }

  lemma DialOrdered(m: Mesh, p: Id, e: Env, a: Agent, accepted: seq<Str>)
    requires Ordered(m, a, accepted)
    ensures Ordered(Dial(m, p, e).mesh, a, accepted)
    ensures !Dial(m, p, e).ok ==> p !in Dial(m, p, e).mesh.links
  {
    if p !in m.links {
      CreateOrdered(m, p, e, a, accepted);
      var made := CreateLink(m, p, e);
      if made.ok {
        ShareOrdered(made.mesh, p, e, a, accepted);
        DestroyOrdered(ShareLink(made.mesh, p, e).mesh, p, a, accepted);
      }
    }
  }

  /** The send itself, on a mesh that already has the link. */
  lemma PutOrdered(d: Mesh, p: Id, data: Str, a: Agent, accepted: seq<Str>)
    requires Disciplined(d) && Ordered(d, a, accepted) && p in d.links
    ensures var link := d.links[p];
            var n := if link.connected then Called(d, SendData(link.agent, data))
                     else d.(links := d.links[p := link.(outbox := link.outbox + [data])]);
            Ordered(n, a, accepted + if link.agent == a then [data] else [])
  {
    hide Handed, Life;
    var link := d.links[p];
    assert LinkOk(d, p) && AgentOk(d, link.agent);
    HandedSnoc(d.calls, SendData(link.agent, data), a);
    assert Handed(d.calls, a) + [] == Handed(d.calls, a);
    assert accepted + [] == accepted;
  }

  lemma SendOrdered(m: Mesh, step: Step, a: Agent, accepted: seq<Str>)
    requires Disciplined(m) && Ordered(m, a, accepted) && step.Send?
    ensures Ordered(Do(m, step), a, accepted + Taken(m, step, a))
  {
    hide Ordered, Disciplined;
    var Send(isPeer, p, data, e) := step;
    DialOrdered(m, p, e, a, accepted);
    DialDisciplined(m, p, e);
    hide Dial;
    assert accepted + [] == accepted;
    if Sendable(data) && isPeer && Dial(m, p, e).ok {
      PutOrdered(Dial(m, p, e).mesh, p, data, a, accepted);
    }
  }

  lemma RemoteOrdered(m: Mesh, p: Id, sdp: Str, a: Agent, accepted: seq<Str>)
    requires Ordered(m, a, accepted) && p in m.links
    ensures Ordered(ApplyRemote(m, p, sdp), a, accepted)
  {
    hide Handed;
    if !m.links[p].remoteSet {
      CallOrdered(m, ApplyRemote(m, p, sdp), SetRemote(m.links[p].agent, sdp), a, accepted);
    }
  }

  lemma DescriptionOrdered(m: Mesh, p: Id, sdp: Str, e: Env, a: Agent, accepted: seq<Str>)
    requires Ordered(m, a, accepted)
    ensures Ordered(HandleDescription(m, p, sdp, e), a, accepted)
  {
    hide Handed;
    DestroyOrdered(m, p, a, accepted);
    var n := if p in m.links && m.links[p].remoteSet then DestroyLink(m, p) else m;
    if p in n.links {
      RemoteOrdered(n, p, sdp, a, accepted);
    } else {
      var k := n.(attempts := n.attempts - {p});
      assert Ordered(k, a, accepted);
      hide Ordered;
      CreateOrdered(k, p, e, a, accepted);
      var made := CreateLink(k, p, e);
      if made.ok {
        RemoteOrdered(made.mesh, p, sdp, a, accepted);
        ShareOrdered(ApplyRemote(made.mesh, p, sdp), p, e, a, accepted);
      }
    }
  }

  lemma FlushOrdered(m: Mesh, p: Id, a: Agent, accepted: seq<Str>)
    requires Disciplined(m) && Ordered(m, a, accepted) && p in m.links
    ensures Ordered(HandleLinkState(m, p, Connected), a, accepted)
  {
    hide Handed, Life;
    var link := m.links[p];
    assert LinkOk(m, p);
    HandedSendEach(m.calls, link.agent, link.outbox, a);
    assert accepted + [] == accepted;
    assert Handed(m.calls, a) + [] == Handed(m.calls, a);
  }

  lemma EventOrdered(m: Mesh, ev: Event, a: Agent, accepted: seq<Str>)
    requires Disciplined(m) && Ordered(m, a, accepted)
    ensures Ordered(HandleEvent(m, ev), a, accepted)
  {
    hide Handed, Disciplined, FlushLink;
    if Current(m, ev) {
      FlushOrdered(m, ev.peer, a, accepted);
      DestroyOrdered(m, ev.peer, a, accepted);
      hide DestroyLink;
    }
  }

  lemma StepOrdered(m: Mesh, step: Step, a: Agent, accepted: seq<Str>)
    requires Disciplined(m) && Ordered(m, a, accepted)
    ensures Ordered(Do(m, step), a, accepted + Taken(m, step, a))
  {
    hide Handed, Disciplined, HandleDescription, DestroyEach, FlushLink;
    assert accepted + [] == accepted;
    match step {
      case Send(_, _, _, _) => SendOrdered(m, step, a, accepted);
      case Signal(p, kind, payload, e) =>
        DescriptionOrdered(m, p, payload, e, a, accepted);
        if p in m.links && kind != DESCRIPTION {
          HandedSnoc(m.calls, AddCandidate(m.links[p].agent, payload), a);
          HandedSnoc(m.calls, RemoteDone(m.links[p].agent), a);
        }
      case Juice(ev) =>
        EventOrdered(m, ev, a, accepted);
      case Gone(p) => DestroyOrdered(m, p, a, accepted);
      case Clear => DestroyEachOrdered(m, a, accepted);
    }
  }

  /**
   Over every run, on every agent: what was handed to libjuice followed by what
   still waits is what was accepted, once and in order; a connected link has
   nothing waiting; a lost link has handed over a prefix.
   */
  lemma {:induction false} DatagramOrder(steps: seq<Step>, a: Agent)
    ensures Ordered(Exec(steps), a, Accepted(steps, a))
    ensures forall p :: p in Exec(steps).links && Exec(steps).links[p].connected ==> Exec(steps).links[p].outbox == []
  {
    RunDisciplined(steps);
    forall p | p in Exec(steps).links && Exec(steps).links[p].connected ensures Exec(steps).links[p].outbox == [] {
      assert LinkOk(Exec(steps), p);
    }
    if steps != [] {
      var before := steps[..|steps| - 1];
      DatagramOrder(before, a);
      RunDisciplined(before);
      StepOrdered(Exec(before), steps[|steps| - 1], a, Accepted(before, a));
    }
  }
}
