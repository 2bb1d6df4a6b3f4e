/** The mesh of every client of the whole system has a run of its own, so what every mesh run keeps, it keeps. */
module ClientRuns {
  import opened Protocol
  import opened Seqs
  import opened M = Mesh
  import opened MeshRuns
  import opened MeshTrace
  import opened Replica
  import S = System

  /** What a carved message asks of the mesh of the client with id `me`. */
  function Asks(me: Id, m: Msg, e: Env): seq<Step> {
    match m
    case P2PSignal(p, kind, payload) => [Signal(p, kind, payload, e)]
    case PeerLeft(p) => [if p == me then Clear else Gone(p)]
    case KickedByHost => [Clear]
    case BannedByHost => [Clear]
    case _ => []
  }

  /** What one action of the system asks of the mesh of `c`. */
  function Asked(y: S.Sys, act: S.Action, c: Id): seq<Step> {
    if !S.Possible(y, act) || act.ServerStep? || act.Hangup? || act.c != c then []
    else
      var v := y.clients[c].cache;
      match act
      case Deliver(_, e) => Asks(v.id, y.streams[c][0], e)
      case AppSend(_, p, data, e) => [Send(p != v.id && p in v.members, p, data, e)]
      case JuiceEvent(_, ev) => [Juice(ev)]
      case _ => []
  }

  /** The mesh steps client `c` has gone through since it connected. */
  function Lived(cfg: S.R.Config, acts: seq<S.Action>, c: Id): seq<Step> {
    if acts == [] then []
    else
      var before, last := acts[..|acts| - 1], acts[|acts| - 1];
      var y := S.Run(cfg, before);
      if S.Possible(y, last) && last == S.ServerStep(S.R.Accept) && y.core.nextId == c then []
      else Lived(cfg, before, c) + Asked(y, last, c)
  }

  lemma ExecOne(steps: seq<Step>, step: Step)
    ensures Exec(steps + [step]) == Do(Exec(steps), step)
  {
    assert (steps + [step])[..|steps|] == steps;
  }

  lemma DispatchIsSteps(cl: S.Client, m: Msg, e: Env, steps: seq<Step>)
    requires cl.mesh == Exec(steps)
    ensures S.Dispatch(cl, m, e).mesh == Exec(steps + Asks(cl.cache.id, m, e))
  {
    hide Exec, HandleSignal, PeerGone, DestroyAllLinks;
    var asks := Asks(cl.cache.id, m, e);
    if asks == [] {
      assert steps + [] == steps;
    } else {
      ExecOne(steps, asks[0]);
      assert asks == [asks[0]];
    }
  }

  lemma ActIsSteps(y: S.Sys, act: S.Action, c: Id, steps: seq<Step>)
    requires c in y.clients && y.clients[c].mesh == Exec(steps) && c in S.Act(y, act).clients
    requires !(S.Possible(y, act) && act == S.ServerStep(S.R.Accept) && y.core.nextId == c)
    ensures S.Act(y, act).clients[c].mesh == Exec(steps + Asked(y, act, c))
  {
    hide Exec, S.Dispatch, SendP2P, HandleEvent, Asks, S.R.Perform, S.R.Enabled;
    assert steps + [] == steps;
    if S.Possible(y, act) && !act.ServerStep? && !act.Hangup? && act.c == c {
      match act {
        case Deliver(_, e) => DispatchIsSteps(y.clients[c], y.streams[c][0], e, steps);
        case AppSend(_, p, data, e) => ExecOne(steps, Asked(y, act, c)[0]);
        case JuiceEvent(_, ev) => ExecOne(steps, Juice(ev));
        case _ =>
      }
    }
  }

  /** In every run of the system, a client's mesh is what its own steps make of a new one. */
  lemma {:induction false} MeshIsExec(cfg: S.R.Config, acts: seq<S.Action>, c: Id)
    requires c in S.Run(cfg, acts).clients
    ensures S.Run(cfg, acts).clients[c].mesh == Exec(Lived(cfg, acts, c))
  {
    hide Exec, S.Dispatch, SendP2P, HandleEvent, Asked, S.R.Perform, S.R.Enabled;
    if acts != [] {
      var before, last := acts[..|acts| - 1], acts[|acts| - 1];
      var y := S.Run(cfg, before);
      if S.Possible(y, last) && last == S.ServerStep(S.R.Accept) && y.core.nextId == c {
        NewMesh();
      } else {
        MeshIsExec(cfg, before, c);
        ActIsSteps(y, last, c, Lived(cfg, before, c));
      }
    }
    NewMesh();
  }

  lemma NewMesh()
    ensures Exec([]) == NEW_MESH
  {
  }

  /**
   So in every run of the whole system every client uses its agents as libjuice
   asks, stays within its retry budget, hands its datagrams over in order, and
   has received and signalled exactly what its agents did.
   */
  lemma EveryClientKeeps(cfg: S.R.Config, acts: seq<S.Action>, c: Id, p: Id, a: Agent)
    requires c in S.Run(cfg, acts).clients
    ensures var m, steps := S.Run(cfg, acts).clients[c].mesh, Lived(cfg, acts, c);
            && Disciplined(m) && RemotesOf(m.calls, a) <= 1
            && Tries(m, p) == SinceReset(steps, p) <= MAX_ATTEMPTS
            && Ordered(m, a, Accepted(steps, a))
            && m.inbox == Received(steps) && m.signals == Said(steps) && Inward(m.calls) == Passed(steps)
            && (p in m.links <==> Stands(steps, p))
            && (p in m.links ==> (m.links[p].connected <==> Up(steps, m.links[p].agent)))
  {
    hide Exec, S.Run, Disciplined, RemotesOf, Tries, SinceReset, Ordered, Accepted, Received, Said, Inward, Passed, Stands, Up;
    var steps := Lived(cfg, acts, c);
    MeshIsExec(cfg, acts, c);
    RunDisciplined(steps);
    OneRemotePerAgent(steps, a);
    RetryBudget(steps, p);
    DatagramOrder(steps, a);
    InboxIsReceived(steps);
    SignalsAreSaid(steps);
    SignalsPassedOn(steps);
    LinkedIffStands(steps, p);
    if p in Exec(steps).links { ConnectedIffUp(steps, p); }
  }

  // ------------------------------------------------ what those steps stem from

  /** The messages delivered to `c` since it connected, in order. */
  function Delivered(cfg: S.R.Config, acts: seq<S.Action>, c: Id): seq<Msg> {
    if acts == [] then []
    else
      var before, last := acts[..|acts| - 1], acts[|acts| - 1];
      var y := S.Run(cfg, before);
      if S.Possible(y, last) && last == S.ServerStep(S.R.Accept) && y.core.nextId == c then []
      else Delivered(cfg, before, c)
           + if S.Possible(y, last) && last.Deliver? && last.c == c then [y.streams[c][0]] else []
  }

  /** What libjuice reported to `c` since it connected. */
  function Reported(cfg: S.R.Config, acts: seq<S.Action>, c: Id): seq<Event> {
    if acts == [] then []
    else
      var before, last := acts[..|acts| - 1], acts[|acts| - 1];
      var y := S.Run(cfg, before);
      if S.Possible(y, last) && last == S.ServerStep(S.R.Accept) && y.core.nextId == c then []
      else Reported(cfg, before, c)
           + if S.Possible(y, last) && last.JuiceEvent? && last.c == c then [last.event] else []
  }

  function SignalsOf(ms: seq<Msg>): seq<Msg> {
    if ms == [] then []
    else SignalsOf(ms[..|ms| - 1]) + if ms[|ms| - 1].P2PSignal? then [ms[|ms| - 1]] else []
  }

  /** The signals a mesh run handled, as messages. */
  function SignalsIn(steps: seq<Step>): seq<Msg> {
    if steps == [] then []
    else
      var last := steps[|steps| - 1];
      SignalsIn(steps[..|steps| - 1]) + if last.Signal? then [P2PSignal(last.peer, last.kind, last.payload)] else []
  }

  function EventsIn(steps: seq<Step>): seq<Event> {
    if steps == [] then []
    else
      var last := steps[|steps| - 1];
      EventsIn(steps[..|steps| - 1]) + if last.Juice? then [last.event] else []
  }

  lemma {:induction false} ProjectConcat(a: seq<Step>, b: seq<Step>)
    ensures SignalsIn(a + b) == SignalsIn(a) + SignalsIn(b) && EventsIn(a + b) == EventsIn(a) + EventsIn(b)
    decreases b
  {
    if b == [] {
      assert a + b == a && SignalsIn(a) + [] == SignalsIn(a) && EventsIn(a) + [] == EventsIn(a);
    } else {
      assert (a + b)[..|a + b| - 1] == a + b[..|b| - 1];
      ProjectConcat(a, b[..|b| - 1]);
    }
  }

  lemma ProjectOne(step: Step)
    ensures SignalsIn([step]) == (if step.Signal? then [P2PSignal(step.peer, step.kind, step.payload)] else [])
    ensures EventsIn([step]) == if step.Juice? then [step.event] else []
    ensures SignalsIn([]) == [] && EventsIn([]) == []
  {
    assert [step][..0] == [];
  }

  lemma SignalsSnoc(ms: seq<Msg>, m: Msg)
    ensures SignalsOf(ms + [m]) == SignalsOf(ms) + if m.P2PSignal? then [m] else []
  {
    assert (ms + [m])[..|ms|] == ms;
  }

  /** A message asks for the signal it is, if it is one, and for no event. */
  lemma AsksProjected(me: Id, m: Msg, e: Env)
    ensures SignalsIn(Asks(me, m, e)) == (if m.P2PSignal? then [m] else []) && EventsIn(Asks(me, m, e)) == []
  {
    hide SignalsIn, EventsIn;
    var asks := Asks(me, m, e);
    ProjectOne(if asks == [] then Clear else asks[0]);
    assert asks != [] ==> asks == [asks[0]];
  }

  lemma AskedProjected(y: S.Sys, act: S.Action, c: Id)
    ensures var heard := S.Possible(y, act) && act.Deliver? && act.c == c;
            SignalsIn(Asked(y, act, c)) == if heard && y.streams[c][0].P2PSignal? then [y.streams[c][0]] else []
    ensures EventsIn(Asked(y, act, c)) == if S.Possible(y, act) && act.JuiceEvent? && act.c == c then [act.event] else []
  {
    hide SignalsIn, EventsIn, Asks, S.R.Enabled;
    ProjectOne(Clear);
    if S.Possible(y, act) && !act.ServerStep? && !act.Hangup? && act.c == c {
      match act {
        case Deliver(_, e) => AsksProjected(y.clients[c].cache.id, y.streams[c][0], e);
        case AppSend(_, _, _, _) => ProjectOne(Asked(y, act, c)[0]);
        case JuiceEvent(_, ev) => ProjectOne(Juice(ev));
        case _ =>
      }
    }
  }

  /**
   In every run of the system a client's mesh has handled exactly the signals
   delivered to it and the events libjuice reported to it, each in order, and
   its cache is everything delivered to it, folded.
   */
  lemma {:induction false} NothingLostOnTheWay(cfg: S.R.Config, acts: seq<S.Action>, c: Id)
    requires c in S.Run(cfg, acts).clients
    ensures SignalsIn(Lived(cfg, acts, c)) == SignalsOf(Delivered(cfg, acts, c))
    ensures EventsIn(Lived(cfg, acts, c)) == Reported(cfg, acts, c)
    ensures S.Run(cfg, acts).clients[c].cache == Fold(NEW_CACHE, Delivered(cfg, acts, c))
  {
    hide S.Dispatch, SendP2P, HandleEvent, Asked, S.R.Perform, S.R.Enabled, SignalsIn, EventsIn, Fold;
    ProjectOne(Clear);
    FoldOne(NEW_CACHE, LeaveRoom);
    if acts != [] {
      var before, last := acts[..|acts| - 1], acts[|acts| - 1];
      var y := S.Run(cfg, before);
      if !(S.Possible(y, last) && last == S.ServerStep(S.R.Accept) && y.core.nextId == c) {
        NothingLostOnTheWay(cfg, before, c);
        ProjectConcat(Lived(cfg, before, c), Asked(y, last, c));
        AskedProjected(y, last, c);
        var was := Delivered(cfg, before, c);
        assert was + [] == was && Reported(cfg, before, c) + [] == Reported(cfg, before, c);
        assert SignalsOf(was) + [] == SignalsOf(was);
        if S.Possible(y, last) && last.Deliver? && last.c == c {
          SignalsSnoc(was, y.streams[c][0]);
          S.DispatchCache(y.clients[c], y.streams[c][0], last.env);
          FoldConcat(NEW_CACHE, was, [y.streams[c][0]]);
          FoldOne(y.clients[c].cache, y.streams[c][0]);
        }
        hide SignalsOf, Apply;
      }
    }
  }

  lemma FoldOne(v: Cache, m: Msg)
    ensures Fold(v, [m]) == Apply(v, m) && Fold(v, []) == v
  {
    hide Apply;
    assert [m][1..] == [];
  }

  // ------------------------------------------------------- batches of messages

  /** What a batch of carved messages asks of the mesh; `tape(i)` is what libjuice answers to the i-th. */
  function AsksAll(v: Cache, ms: seq<Msg>, tape: nat -> Env): seq<Step> {
    if ms == [] then []
    else
      var n := |ms| - 1;
      AsksAll(v, ms[..n], tape) + Asks(Fold(v, ms[..n]).id, ms[n], tape(n))
  }

  lemma {:induction false} AsksAllProjected(v: Cache, ms: seq<Msg>, tape: nat -> Env)
    ensures SignalsIn(AsksAll(v, ms, tape)) == SignalsOf(ms) && EventsIn(AsksAll(v, ms, tape)) == []
  {
    hide SignalsIn, EventsIn, Asks, Fold;
    ProjectOne(Clear);
    if ms != [] {
      var n := |ms| - 1;
      AsksAllProjected(v, ms[..n], tape);
      ProjectConcat(AsksAll(v, ms[..n], tape), Asks(Fold(v, ms[..n]).id, ms[n], tape(n)));
      AsksProjected(Fold(v, ms[..n]).id, ms[n], tape(n));
    }
  }

  lemma {:induction false} SignalsOfConcat(a: seq<Msg>, b: seq<Msg>)
    ensures SignalsOf(a + b) == SignalsOf(a) + SignalsOf(b)
    decreases b
  {
    if b == [] {
      assert a + b == a && SignalsOf(a) + [] == SignalsOf(a);
    } else {
      assert (a + b)[..|a + b| - 1] == a + b[..|b| - 1];
      SignalsOfConcat(a, b[..|b| - 1]);
    }
  }
}
