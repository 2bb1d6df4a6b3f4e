/**
 Two members dialing each other (Client/src/p2p_mesh.cpp), each amid whatever
 else its mesh is doing. Each side's signals to the other arrive in the order
 they were sent; both may dial at once. As long as neither link of the pair is
 torn down, the description exchange stays consistent.
 */
module Glare {
  import opened Protocol
  import Seqs
  import opened M = Mesh

  /** One side: its mesh, and how many of its signals to the other side have been handled there. */
  datatype Half = Half(mesh: Mesh, handled: nat)

  datatype Pair = Pair(left: Half, right: Half)

  datatype Side = Left | Right

  function Other(s: Side): Side {
    if s.Left? then Right else Left
  }

  function At(y: Pair, s: Side): Half {
    if s.Left? then y.left else y.right
  }

  function Put(y: Pair, s: Side, h: Half): Pair {
    if s.Left? then y.(left := h) else y.(right := h)
  }

  /** The clients' ids, and the local description libjuice gives each agent. */
  datatype World = World(leftId: Id, rightId: Id, describe: (Side, Agent) -> Str)

  /** The id under which side `s` knows its partner. */
  function PeerOf(w: World, s: Side): Id {
    if s.Left? then w.rightId else w.leftId
  }

  /** The signals addressed to `p`, in order. */
  function SentTo(signals: seq<Msg>, p: Id): (r: seq<Msg>)
    ensures forall i :: 0 <= i < |r| ==> r[i].P2PSignal? && r[i].id == p
  {
    if signals == [] then []
    else
      var last := signals[|signals| - 1];
      SentTo(signals[..|signals| - 1], p) + if last.P2PSignal? && last.id == p then [last] else []
  }

  /** Everything side `s` has signalled to its partner. */
  function Sent(w: World, s: Side, h: Half): (r: seq<Msg>)
    ensures forall i :: 0 <= i < |r| ==> r[i].P2PSignal? && r[i].id == PeerOf(w, s)
  {
    SentTo(h.mesh.signals, PeerOf(w, s))
  }

  predicate Linked(w: World, s: Side, h: Half) {
    PeerOf(w, s) in h.mesh.links
  }

  /** The agent behind side `s`'s link to its partner. */
  function AgentOf(w: World, s: Side, h: Half): Agent
    requires Linked(w, s, h)
  {
    h.mesh.links[PeerOf(w, s)].agent
  }

  predicate Applied(w: World, s: Side, h: Half) {
    Linked(w, s, h) && h.mesh.links[PeerOf(w, s)].remoteSet
  }

  // ------------------------------------------------------------------- steps

  /** Anything a mesh can do, or handling the oldest signal in flight from the partner. */
  datatype PairStep =
    | Own(side: Side, step: M.Step)
    | Handle(side: Side, env: Env)

  /** The description libjuice gives, if it gives one, is that of the agent just created. */
  predicate Truthful(w: World, s: Side, m: Mesh, e: Env) {
    e.sdp.Some? ==> e.sdp.value == w.describe(s, m.nextAgent)
  }

  predicate Incoming(w: World, y: Pair, s: Side) {
    At(y, Other(s)).handled < |Sent(w, Other(s), At(y, Other(s)))|
  }

  /** The signal `s` handles next. */
  function Oldest(w: World, y: Pair, s: Side): (m: Msg)
    requires Incoming(w, y, s)
    ensures m.P2PSignal?
  {
    Sent(w, Other(s), At(y, Other(s)))[At(y, Other(s)).handled]
  }

  /** What can happen at all, whatever libjuice answers; the partner's signals come only through `Handle`. */
  predicate Enabled(w: World, y: Pair, step: PairStep) {
    match step
    case Own(s, act) =>
      && (act.Signal? ==> act.peer != PeerOf(w, s))
      && (act.Send? && act.peer == PeerOf(w, s) ==> Truthful(w, s, At(y, s).mesh, act.env))
    case Handle(s, e) => Incoming(w, y, s) && Truthful(w, s, At(y, s).mesh, e)
  }

  /** The dial has announced itself, yet gathering fails: SendP2P tears the link down. */
  predicate Withdrawn(m: Mesh, isPeer: bool, p: Id, data: Str, e: Env) {
    p !in m.links && isPeer && Sendable(data) && Tries(m, p) < MAX_ATTEMPTS && e.creates && e.sdp.Some? && !e.gathers
  }

  /** A description finds no link, and no answer can be given. */
  predicate Unanswered(m: Mesh, p: Id, kind: byte, e: Env) {
    p !in m.links && kind == DESCRIPTION && !(e.creates && e.sdp.Some?)
  }

  /** The pair's links are not torn down, and a dial that reaches the other side is answered. */
  predicate Undisturbed(w: World, y: Pair, step: PairStep) {
    match step
    case Own(s, act) =>
      var p, m := PeerOf(w, s), At(y, s).mesh;
      (match act
       case Send(isPeer, q, data, e) => q == p ==> !Withdrawn(m, isPeer, p, data, e)
       case Signal(_, _, _, _) => true
       case Juice(ev) => ev.peer == p && ev.kind == StateChange(Failed) ==> !Current(m, ev)
       case Gone(q) => q == p ==> p !in m.links
       case Clear => p !in m.links)
    case Handle(s, e) => Incoming(w, y, s) ==> !Unanswered(At(y, s).mesh, PeerOf(w, s), Oldest(w, y, s).kind, e)
  }

  function Step(w: World, y: Pair, step: PairStep): Pair {
    if !Enabled(w, y, step) then y
    else
      match step
      case Own(s, act) => Put(y, s, At(y, s).(mesh := Do(At(y, s).mesh, act)))
      case Handle(s, e) =>
        var h, from, sig := At(y, s), At(y, Other(s)), Oldest(w, y, s);
        Put(Put(y, s, h.(mesh := HandleSignal(h.mesh, PeerOf(w, s), sig.kind, sig.payload, e))),
            Other(s), from.(handled := from.handled + 1))
  }

  function Run(w: World, y: Pair, steps: seq<PairStep>): Pair {
    if steps == [] then y else Step(w, Run(w, y, steps[..|steps| - 1]), steps[|steps| - 1])
  }

  /** Nothing disturbs the run before its end. */
  predicate Calm(w: World, y: Pair, steps: seq<PairStep>) {
    steps == [] ||
    (Calm(w, y, steps[..|steps| - 1]) && Undisturbed(w, Run(w, y, steps[..|steps| - 1]), steps[|steps| - 1]))
  }

  /**
   Two meshes at any point of their lives with no link between them and nothing
   in flight. `Disciplined` holds of every mesh a client can reach.
   */
  ghost predicate Drained(w: World, y: Pair) {
    && w.leftId != w.rightId
    && forall s :: Disciplined(At(y, s).mesh) && !Linked(w, s, At(y, s)) && At(y, s).handled == |Sent(w, s, At(y, s))|
  }

  /** Every two meshes clients can reach are such a start, once unlinked and with all signals handled. */
  lemma ReachableDrained(w: World, left: seq<M.Step>, right: seq<M.Step>)
    requires w.leftId != w.rightId && w.rightId !in Exec(left).links && w.leftId !in Exec(right).links
    ensures Drained(w, Pair(Half(Exec(left), |SentTo(Exec(left).signals, w.rightId)|),
                            Half(Exec(right), |SentTo(Exec(right).signals, w.leftId)|)))
  {
    hide Exec, SentTo, Disciplined;
    RunDisciplined(left);
    RunDisciplined(right);
  }

  // ------------------------------------------------------------ bookkeeping

  /** The description last given to agent `a`. */
  function RemoteOf(calls: seq<Call>, a: Agent): Option<Str> {
    if calls == [] then None
    else
      var c := calls[|calls| - 1];
      if c.SetRemote? && c.agent == a then Some(c.sdp) else RemoteOf(calls[..|calls| - 1], a)
  }

  lemma RemoteSnoc(calls: seq<Call>, c: Call, a: Agent)
    ensures RemoteOf(calls + [c], a) == if c.SetRemote? && c.agent == a then Some(c.sdp) else RemoteOf(calls, a)
  {
    assert (calls + [c])[..|calls|] == calls;
  }

  lemma {:induction false} RemoteSendEach(calls: seq<Call>, agent: Agent, outbox: seq<Str>, a: Agent)
    ensures RemoteOf(calls + SendEach(agent, outbox), a) == RemoteOf(calls, a)
    decreases outbox
  {
    hide RemoteOf;
    if outbox == [] {
      assert calls + [] == calls;
    } else {
      var c := SendData(agent, outbox[0]);
      RemoteSnoc(calls, c, a);
      RemoteSendEach(calls + [c], agent, outbox[1..], a);
      assert calls + SendEach(agent, outbox) == calls + [c] + SendEach(agent, outbox[1..]);
    }
  }

  lemma SentSnoc(signals: seq<Msg>, m: Msg, p: Id)
    ensures SentTo(signals + [m], p) == SentTo(signals, p) + if m.P2PSignal? && m.id == p then [m] else []
  {
    assert (signals + [m])[..|signals|] == signals;
  }

  /** The link to `p` keeps its agent and what it heard; only signals other than descriptions are sent to `p`. */
  ghost predicate Keeps(p: Id, m: Mesh, n: Mesh) {
    && (p in n.links <==> p in m.links)
    && (p in m.links ==>
          && n.links[p].agent == m.links[p].agent && n.links[p].remoteSet == m.links[p].remoteSet
          && RemoteOf(n.calls, m.links[p].agent) == RemoteOf(m.calls, m.links[p].agent))
    && SentTo(m.signals, p) <= SentTo(n.signals, p)
    && (p !in m.links ==> SentTo(n.signals, p) == SentTo(m.signals, p))
    && forall i :: |SentTo(m.signals, p)| <= i < |SentTo(n.signals, p)| ==> SentTo(n.signals, p)[i].kind != DESCRIPTION
  }

  lemma KeepsTwice(p: Id, m: Mesh, n: Mesh, k: Mesh)
    requires Keeps(p, m, n) && Keeps(p, n, k)
    ensures Keeps(p, m, k)
  {
    hide RemoteOf, SentTo;
  }

  // ------------------------------------------- what concerns another peer

  lemma CallKeeps(p: Id, m: Mesh, c: Call)
    requires c.SetRemote? ==> (p in m.links ==> c.agent != m.links[p].agent)
    ensures Keeps(p, m, Called(m, c))
  {
    hide RemoteOf, SentTo;
    if p in m.links { RemoteSnoc(m.calls, c, m.links[p].agent); }
  }

  lemma CreateKeeps(p: Id, m: Mesh, q: Id, e: Env)
    requires q != p && q !in m.links
    ensures Keeps(p, m, CreateLink(m, q, e).mesh)
  {
    hide RemoteOf, SentTo;
    if p in m.links { RemoteSnoc(m.calls, Create(m.nextAgent, q), m.links[p].agent); }
  }

  lemma ShareKeeps(p: Id, m: Mesh, q: Id, e: Env)
    requires q != p && q in m.links
    ensures Keeps(p, m, ShareLink(m, q, e).mesh)
  {
    hide RemoteOf, SentTo;
    if e.sdp.Some? {
      SentSnoc(m.signals, P2PSignal(q, DESCRIPTION, e.sdp.value), p);
      if p in m.links { RemoteSnoc(m.calls, Gather(m.links[q].agent), m.links[p].agent); }
    }
  }

  lemma DestroyKeeps(p: Id, m: Mesh, q: Id)
    requires q != p || p !in m.links
    ensures Keeps(p, m, DestroyLink(m, q))
  {
    hide RemoteOf, SentTo;
    if q in m.links && p in m.links { RemoteSnoc(m.calls, Destroy(m.links[q].agent), m.links[p].agent); }
  }

  lemma RemoteKeeps(p: Id, m: Mesh, q: Id, sdp: Str)
    requires q != p && q in m.links && Disciplined(m)
    ensures Keeps(p, m, ApplyRemote(m, q, sdp))
  {
    hide RemoteOf, SentTo, Life;
    assert LinkOk(m, q);
    if p in m.links { RemoteSnoc(m.calls, SetRemote(m.links[q].agent, sdp), m.links[p].agent); }
  }

  lemma OtherSendKeeps(p: Id, m: Mesh, isPeer: bool, q: Id, data: Str, e: Env)
    requires q != p
    ensures Keeps(p, m, SendP2P(m, isPeer, q, data, e).mesh)
  {
    hide Keeps;
    KeepsSelf(p, m);
    if Sendable(data) && isPeer {
      var d := Dial(m, q, e);
      if q !in m.links {
        var made := CreateLink(m, q, e);
        CreateKeeps(p, m, q, e);
        if made.ok {
          var shared := ShareLink(made.mesh, q, e);
          ShareKeeps(p, made.mesh, q, e);
          KeepsTwice(p, m, made.mesh, shared.mesh);
          DestroyKeeps(p, shared.mesh, q);
          KeepsTwice(p, m, shared.mesh, DestroyLink(shared.mesh, q));
        }
      }
      assert Keeps(p, m, d.mesh);
      if d.ok {
        PutKeeps(p, d.mesh, q, data);
        KeepsTwice(p, m, d.mesh, SendP2P(m, isPeer, q, data, e).mesh);
      }
    }
  }

  lemma KeepsSelf(p: Id, m: Mesh)
    ensures Keeps(p, m, m)
  {
  }

  /** Queueing or handing over a datagram, to any peer. */
  lemma PutKeeps(p: Id, m: Mesh, q: Id, data: Str)
    requires q in m.links
    ensures var link := m.links[q];
            Keeps(p, m, if !link.connected then m.(links := m.links[q := link.(outbox := link.outbox + [data])])
                        else Called(m, SendData(link.agent, data)))
  {
    hide RemoteOf, SentTo;
    CallKeeps(p, m, SendData(m.links[q].agent, data));
  }

  lemma OtherDescriptionKeeps(p: Id, m: Mesh, q: Id, sdp: Str, e: Env)
    requires q != p && Disciplined(m)
    ensures Keeps(p, m, HandleDescription(m, q, sdp, e))
  {
    hide Keeps, Disciplined;
    KeepsSelf(p, m);
    DestroyKeeps(p, m, q);
    DestroyDisciplined(m, q);
    var n := if q in m.links && m.links[q].remoteSet then DestroyLink(m, q) else m;
    if q in n.links {
      RemoteKeeps(p, n, q, sdp);
      KeepsTwice(p, m, n, ApplyRemote(n, q, sdp));
    } else {
      var k := n.(attempts := n.attempts - {q});
      AttemptsKeep(p, n, k.attempts);
      AttemptsDisciplined(n, k.attempts);
      KeepsTwice(p, m, n, k);
      var made := CreateLink(k, q, e);
      CreateKeeps(p, k, q, e);
      CreateDisciplined(k, q, e);
      KeepsTwice(p, m, k, made.mesh);
      if made.ok {
        var applied := ApplyRemote(made.mesh, q, sdp);
        RemoteKeeps(p, made.mesh, q, sdp);
        KeepsTwice(p, m, made.mesh, applied);
        ShareKeeps(p, applied, q, e);
        KeepsTwice(p, m, applied, ShareLink(applied, q, e).mesh);
      }
    }
  }

  lemma AttemptsKeep(p: Id, m: Mesh, attempts: map<Id, nat>)
    ensures Keeps(p, m, m.(attempts := attempts))
  {
  }

  lemma OtherSignalKeeps(p: Id, m: Mesh, q: Id, kind: byte, payload: Str, e: Env)
    requires q != p && Disciplined(m)
    ensures Keeps(p, m, HandleSignal(m, q, kind, payload, e))
  {
    hide Keeps, HandleDescription;
    OtherDescriptionKeeps(p, m, q, payload, e);
    KeepsSelf(p, m);
    if q in m.links {
      CallKeeps(p, m, AddCandidate(m.links[q].agent, payload));
      CallKeeps(p, m, RemoteDone(m.links[q].agent));
    }
  }

  // --------------------------------------------------- events, of any peer

  lemma LinkStateKeeps(p: Id, m: Mesh, q: Id, state: State)
    requires q in m.links && (state == Failed ==> q != p)
    ensures Keeps(p, m, HandleLinkState(m, q, state))
  {
    hide RemoteOf, SentTo, SendEach;
    if state == Failed { DestroyKeeps(p, m, q); }
    if p in m.links { RemoteSendEach(m.calls, m.links[q].agent, m.links[q].outbox, m.links[p].agent); }
  }

  /** A signal that is no description, to any linked peer. */
  lemma TrickleKeeps(p: Id, m: Mesh, q: Id, kind: byte, payload: Str)
    requires q in m.links && kind != DESCRIPTION
    ensures Keeps(p, m, Signaled(m, q, kind, payload))
  {
    hide RemoteOf, SentTo;
    SentSnoc(m.signals, P2PSignal(q, kind, payload), p);
  }

  lemma InboxKeeps(p: Id, m: Mesh, inbox: seq<Datagram>)
    ensures Keeps(p, m, m.(inbox := inbox))
  {
  }

  lemma EventKeeps(p: Id, m: Mesh, ev: Event)
    requires ev.peer == p && ev.kind == StateChange(Failed) ==> !Current(m, ev)
    ensures Keeps(p, m, HandleEvent(m, ev))
  {
    hide Keeps, HandleLinkState, Signaled;
    KeepsSelf(p, m);
    if Current(m, ev) {
      match ev.kind {
        case StateChange(state) => LinkStateKeeps(p, m, ev.peer, state);
        case LocalCandidate(sdp) => TrickleKeeps(p, m, ev.peer, CANDIDATE, sdp);
        case LocalDone => TrickleKeeps(p, m, ev.peer, GATHERING_DONE, []);
        case Recv(data) => InboxKeeps(p, m, m.inbox + [Datagram(ev.peer, data)]);
      }
    }
  }

  lemma GoneKeeps(p: Id, m: Mesh, q: Id)
    requires q == p ==> p !in m.links
    ensures Keeps(p, m, PeerGone(m, q))
  {
    hide Keeps;
    var n := DestroyLink(m, q);
    DestroyKeeps(p, m, q);
    AttemptsKeep(p, n, n.attempts - {q});
    KeepsTwice(p, m, n, PeerGone(m, q));
  }

  lemma {:induction false} DestroyEachKeeps(p: Id, m: Mesh)
    requires p !in m.links
    ensures Keeps(p, m, DestroyEach(m))
    decreases |m.links|
  {
    hide Keeps;
    if m.links == map[] {
      KeepsSelf(p, m);
    } else {
      var q := Seqs.LeastId(m.links.Keys);
      var n := DestroyLink(m, q);
      DestroyKeeps(p, m, q);
      DestroyEachKeeps(p, n);
      KeepsTwice(p, m, n, DestroyEach(n));
    }
  }

  lemma ClearKeeps(p: Id, m: Mesh)
    requires p !in m.links
    ensures Keeps(p, m, DestroyAllLinks(m))
  {
    hide Keeps, DestroyEach;
    DestroyEachKeeps(p, m);
    AttemptsKeep(p, DestroyEach(m), map[]);
    KeepsTwice(p, m, DestroyEach(m), DestroyAllLinks(m));
  }

  // --------------------------------------------------------------- invariant

  /** How many signals side `s` had sent its partner when the run began. */
  function Base(w: World, start: Pair, s: Side): nat {
    |Sent(w, s, At(start, s))|
  }

  /** Since the start, side `s` has sent one description, before any other signal, iff it has a link. */
  ghost predicate Spoken(w: World, s: Side, h: Half, base: nat) {
    var sent := Sent(w, s, h);
    && Disciplined(h.mesh) && base <= h.handled <= |sent|
    && (|sent| == base <==> !Linked(w, s, h))
    && (Linked(w, s, h) ==> sent[base] == P2PSignal(PeerOf(w, s), DESCRIPTION, w.describe(s, AgentOf(w, s, h))))
    && forall i :: base < i < |sent| ==> sent[i].kind != DESCRIPTION
  }

  /** What `s` applied is exactly what its partner's present agent announced. */
  ghost predicate Heard(w: World, s: Side, h: Half, from: Half, base: nat) {
    && (Applied(w, s, h) <==> from.handled > base)
    && (Applied(w, s, h) ==>
          Linked(w, Other(s), from)
          && RemoteOf(h.mesh.calls, AgentOf(w, s, h)) == Some(w.describe(Other(s), AgentOf(w, Other(s), from))))
  }

  ghost predicate SideOk(w: World, start: Pair, y: Pair, s: Side) {
    Spoken(w, s, At(y, s), Base(w, start, s)) && Heard(w, s, At(y, s), At(y, Other(s)), Base(w, start, Other(s)))
  }

  ghost predicate Consistent(w: World, start: Pair, y: Pair) {
    SideOk(w, start, y, Left) && SideOk(w, start, y, Right)
  }

  lemma BothSides(w: World, start: Pair, y: Pair, s: Side)
    ensures Consistent(w, start, y) <==> SideOk(w, start, y, s) && SideOk(w, start, y, Other(s))
  {
  }

  /** A side whose link and descriptions stay as they are disturbs neither half of the agreement. */
  lemma KeepsConsistent(w: World, start: Pair, y: Pair, s: Side, n: Mesh)
    requires Consistent(w, start, y) && Keeps(PeerOf(w, s), At(y, s).mesh, n) && Disciplined(n)
    ensures Consistent(w, start, Put(y, s, At(y, s).(mesh := n)))
  {
    hide RemoteOf, SentTo, Disciplined;
    BothSides(w, start, y, s);
    var z := Put(y, s, At(y, s).(mesh := n));
    BothSides(w, start, z, s);
    assert At(z, Other(s)) == At(y, Other(s)) && At(z, s).mesh == n;
  }

  /** A dial to the partner that finds no link and succeeds: the first signal since the start. */
  ghost predicate Opens(w: World, s: Side, h: Half, n: Mesh) {
    var p := PeerOf(w, s);
    && p !in h.mesh.links && p in n.links && !n.links[p].remoteSet
    && SentTo(n.signals, p) == SentTo(h.mesh.signals, p) + [P2PSignal(p, DESCRIPTION, w.describe(s, n.links[p].agent))]
  }

  lemma DialKeeps(w: World, s: Side, h: Half, isPeer: bool, data: Str, e: Env)
    requires Truthful(w, s, h.mesh, e) && !Withdrawn(h.mesh, isPeer, PeerOf(w, s), data, e)
    ensures var n := SendP2P(h.mesh, isPeer, PeerOf(w, s), data, e).mesh;
            Keeps(PeerOf(w, s), h.mesh, n) || Opens(w, s, h, n)
  {
    hide RemoteOf, SentTo;
    var p, m := PeerOf(w, s), h.mesh;
    KeepsSelf(p, m);
    if p in m.links {
      PutKeeps(p, m, p, data);
    } else if e.sdp.Some? {
      SentSnoc(m.signals, P2PSignal(p, DESCRIPTION, e.sdp.value), p);
    }
  }

  lemma OpensConsistent(w: World, start: Pair, y: Pair, s: Side, n: Mesh)
    requires Consistent(w, start, y) && Opens(w, s, At(y, s), n) && Disciplined(n)
    ensures Consistent(w, start, Put(y, s, At(y, s).(mesh := n)))
  {
    hide RemoteOf, SentTo, Disciplined;
    BothSides(w, start, y, s);
    var z := Put(y, s, At(y, s).(mesh := n));
    BothSides(w, start, z, s);
    assert At(z, Other(s)) == At(y, Other(s)) && At(z, s).mesh == n;
  }

  /** The first signal is the description: it is applied, and answered if there was no link. */
  lemma FirstSignal(w: World, s: Side, h: Half, sdp: Str, e: Env)
    requires Disciplined(h.mesh) && !Applied(w, s, h)
    requires Truthful(w, s, h.mesh, e) && !Unanswered(h.mesh, PeerOf(w, s), DESCRIPTION, e)
    ensures var p, m := PeerOf(w, s), h.mesh;
            var n := HandleSignal(m, p, DESCRIPTION, sdp, e);
            && p in n.links && n.links[p].remoteSet && RemoteOf(n.calls, n.links[p].agent) == Some(sdp)
            && (p in m.links ==> n.links[p].agent == m.links[p].agent && n.signals == m.signals)
            && (p !in m.links ==>
                  SentTo(n.signals, p)
                  == SentTo(m.signals, p) + [P2PSignal(p, DESCRIPTION, w.describe(s, n.links[p].agent))])
  {
    hide RemoteOf, SentTo, Disciplined;
    var p, m := PeerOf(w, s), h.mesh;
    if p in m.links {
      RemoteSnoc(m.calls, SetRemote(m.links[p].agent, sdp), m.links[p].agent);
    } else {
      var a, created := m.nextAgent, m.calls + [Create(m.nextAgent, p)];
      RemoteSnoc(created, SetRemote(a, sdp), a);
      RemoteSnoc(created + [SetRemote(a, sdp)], Gather(a), a);
      SentSnoc(m.signals, P2PSignal(p, DESCRIPTION, e.sdp.value), p);
    }
  }

  /** A later signal leaves the exchange alone. */
  lemma LaterSignal(p: Id, m: Mesh, kind: byte, payload: Str, e: Env)
    requires kind != DESCRIPTION
    ensures Keeps(p, m, HandleSignal(m, p, kind, payload, e))
  {
    hide Keeps;
    KeepsSelf(p, m);
    if p in m.links {
      CallKeeps(p, m, AddCandidate(m.links[p].agent, payload));
      CallKeeps(p, m, RemoteDone(m.links[p].agent));
    }
  }

  /** The receiver after its partner's description. */
  lemma FirstHandled(w: World, s: Side, h: Half, from: Half, base: nat, fromBase: nat, n: Mesh, e: Env)
    requires Spoken(w, s, h, base) && Spoken(w, Other(s), from, fromBase) && Disciplined(n)
    requires from.handled == fromBase < |Sent(w, Other(s), from)| && !Applied(w, s, h)
    requires Truthful(w, s, h.mesh, e) && !Unanswered(h.mesh, PeerOf(w, s), DESCRIPTION, e)
    requires var sig := Sent(w, Other(s), from)[fromBase]; n == HandleSignal(h.mesh, PeerOf(w, s), sig.kind, sig.payload, e)
    ensures Spoken(w, s, h.(mesh := n), base)
    ensures Heard(w, s, h.(mesh := n), from.(handled := from.handled + 1), fromBase)
    ensures Linked(w, s, h) ==> AgentOf(w, s, h.(mesh := n)) == AgentOf(w, s, h)
  {
    hide HandleSignal, RemoteOf, SentTo, Disciplined;
    FirstSignal(w, s, h, Sent(w, Other(s), from)[fromBase].payload, e);
  }

  lemma HandleKeeps(w: World, start: Pair, y: Pair, s: Side, e: Env)
    requires Consistent(w, start, y) && Enabled(w, y, Handle(s, e)) && Undisturbed(w, y, Handle(s, e))
    ensures Consistent(w, start, Step(w, y, Handle(s, e)))
  {
    hide HandleSignal, RemoteOf, SentTo, Disciplined, Unanswered;
    BothSides(w, start, y, s);
    var h, from, sig := At(y, s), At(y, Other(s)), Oldest(w, y, s);
    var n := HandleSignal(h.mesh, PeerOf(w, s), sig.kind, sig.payload, e);
    DoDisciplined(h.mesh, Signal(PeerOf(w, s), sig.kind, sig.payload, e));
    if from.handled == Base(w, start, Other(s)) {
      FirstHandled(w, s, h, from, Base(w, start, s), Base(w, start, Other(s)), n, e);
      var z := Step(w, y, Handle(s, e));
      BothSides(w, start, z, s);
      assert At(z, Other(s)) == from.(handled := from.handled + 1) && At(z, s) == h.(mesh := n);
    } else {
      LaterHandled(w, start, y, s, e);
    }
  }

  lemma LaterHandled(w: World, start: Pair, y: Pair, s: Side, e: Env)
    requires Consistent(w, start, y) && Enabled(w, y, Handle(s, e)) && At(y, Other(s)).handled > Base(w, start, Other(s))
    ensures Consistent(w, start, Step(w, y, Handle(s, e)))
  {
    hide HandleSignal, RemoteOf, SentTo, Disciplined, Keeps;
    BothSides(w, start, y, s);
    var h, from, sig := At(y, s), At(y, Other(s)), Oldest(w, y, s);
    var n := HandleSignal(h.mesh, PeerOf(w, s), sig.kind, sig.payload, e);
    LaterSignal(PeerOf(w, s), h.mesh, sig.kind, sig.payload, e);
    DoDisciplined(h.mesh, Signal(PeerOf(w, s), sig.kind, sig.payload, e));
    KeepsConsistent(w, start, y, s, n);
    var between := Put(y, s, h.(mesh := n));
    BothSides(w, start, between, s);
    var z := Put(between, Other(s), from.(handled := from.handled + 1));
    BothSides(w, start, z, s);
    assert At(between, Other(s)) == from && At(z, s) == At(between, s);
  }

  /** Whatever one side does by itself. */
  lemma OwnKeeps(w: World, s: Side, h: Half, act: M.Step, y: Pair)
    requires h == At(y, s) && Disciplined(h.mesh)
    requires Enabled(w, y, Own(s, act)) && Undisturbed(w, y, Own(s, act))
    ensures Keeps(PeerOf(w, s), h.mesh, Do(h.mesh, act)) || Opens(w, s, h, Do(h.mesh, act))
  {
    hide Keeps, Opens, Disciplined, SendP2P, HandleSignal, HandleEvent, PeerGone, DestroyAllLinks, Withdrawn, Truthful;
    var p, m := PeerOf(w, s), h.mesh;
    match act {
      case Send(isPeer, q, data, e) =>
        if q == p { DialKeeps(w, s, h, isPeer, data, e); } else { OtherSendKeeps(p, m, isPeer, q, data, e); }
      case Signal(q, kind, payload, e) => OtherSignalKeeps(p, m, q, kind, payload, e);
      case Juice(ev) => EventKeeps(p, m, ev);
      case Gone(q) => GoneKeeps(p, m, q);
      case Clear => ClearKeeps(p, m);
    }
  }

  lemma StepKeeps(w: World, start: Pair, y: Pair, step: PairStep)
    requires Consistent(w, start, y) && Undisturbed(w, y, step)
    ensures Consistent(w, start, Step(w, y, step))
  {
    hide Keeps, Opens, Disciplined, Do, HandleSignal, Heard;
    if Enabled(w, y, step) {
      var s := step.side;
      BothSides(w, start, y, s);
      match step {
        case Own(_, act) =>
          OwnKeeps(w, s, At(y, s), act, y);
          DoDisciplined(At(y, s).mesh, act);
          var n := Do(At(y, s).mesh, act);
          if Opens(w, s, At(y, s), n) { OpensConsistent(w, start, y, s, n); } else { KeepsConsistent(w, start, y, s, n); }
        case Handle(_, e) => HandleKeeps(w, start, y, s, e);
      }
    }
  }

  lemma {:induction false} RunKeeps(w: World, start: Pair, steps: seq<PairStep>)
    requires Drained(w, start) && Calm(w, start, steps)
    ensures Consistent(w, start, Run(w, start, steps))
  {
    hide Disciplined, SentTo, RemoteOf;
    if steps != [] {
      hide Consistent, Drained;
      RunKeeps(w, start, steps[..|steps| - 1]);
      StepKeeps(w, start, Run(w, start, steps[..|steps| - 1]), steps[|steps| - 1]);
    }
  }

  // ---------------------------------------------------------------- theorems

  /** How many of the signals are descriptions. */
  function Descriptions(signals: seq<Msg>): nat {
    if signals == [] then 0
    else
      var last := signals[|signals| - 1];
      Descriptions(signals[..|signals| - 1]) + if last.P2PSignal? && last.kind == DESCRIPTION then 1 else 0
  }

  lemma {:induction false} OneDescription(signals: seq<Msg>)
    requires forall i :: 0 <= i < |signals| ==> signals[i].P2PSignal?
    requires forall i :: 1 <= i < |signals| ==> signals[i].kind != DESCRIPTION
    ensures Descriptions(signals) == if signals != [] && signals[0].kind == DESCRIPTION then 1 else 0
  {
    if signals != [] { OneDescription(signals[..|signals| - 1]); }
  }

  /**
   What the exchange promises of side `s`: since the start it has sent one
   description iff it has a link; that is in flight iff the partner has not
   applied it; and what the partner has applied is the description of this
   side's current agent.
   */
  ghost predicate Agreed(w: World, start: Pair, y: Pair, s: Side) {
    var me, peer, sent := At(y, s), At(y, Other(s)), Sent(w, s, At(y, s));
    && Base(w, start, s) <= me.handled <= |sent|
    && Descriptions(sent[Base(w, start, s)..]) == (if Linked(w, s, me) then 1 else 0)
    && (Descriptions(sent[me.handled..]) == 1 <==> Linked(w, s, me) && !Applied(w, Other(s), peer))
    && (Applied(w, Other(s), peer) ==>
          Linked(w, s, me)
          && RemoteOf(peer.mesh.calls, AgentOf(w, Other(s), peer)) == Some(w.describe(s, AgentOf(w, s, me))))
  }

  lemma ConsistentAgrees(w: World, start: Pair, y: Pair, s: Side)
    requires Consistent(w, start, y)
    ensures Agreed(w, start, y, s)
  {
    hide RemoteOf, SentTo, Disciplined, Descriptions;
    BothSides(w, start, y, s);
    var sent := Sent(w, s, At(y, s));
    OneDescription(sent[Base(w, start, s)..]);
    OneDescription(sent[At(y, s).handled..]);
  }

  /** From any drained start, in every undisturbed run, the exchange keeps its promise to both sides. */
  lemma GlareConsistent(w: World, start: Pair, steps: seq<PairStep>, s: Side)
    requires Drained(w, start) && Calm(w, start, steps)
    ensures Agreed(w, start, Run(w, start, steps), s)
  {
    RunKeeps(w, start, steps);
    ConsistentAgrees(w, start, Run(w, start, steps), s);
    hide Run, Agreed, Drained;
  }

  lemma {:induction false} DestroyEachSilent(m: Mesh)
    ensures DestroyEach(m).links == map[] && DestroyEach(m).signals == m.signals
    decreases |m.links|
  {
    if m.links != map[] { DestroyEachSilent(DestroyLink(m, Seqs.LeastId(m.links.Keys))); }
  }

  /** A description is left behind without its link. */
  lemma Orphaned(w: World, s: Side, h: Half, act: M.Step, y: Pair)
    requires h == At(y, s) && Enabled(w, y, Own(s, act)) && !Undisturbed(w, y, Own(s, act))
    ensures var p, n := PeerOf(w, s), Do(h.mesh, act);
            && p !in n.links
            && SentTo(n.signals, p)
               == SentTo(h.mesh.signals, p)
                  + if p in h.mesh.links then [] else [P2PSignal(p, DESCRIPTION, w.describe(s, h.mesh.nextAgent))]
  {
    hide DestroyEach, SentTo;
    var p, m := PeerOf(w, s), h.mesh;
    if act.Send? { SentSnoc(m.signals, P2PSignal(p, DESCRIPTION, w.describe(s, m.nextAgent)), p); }
    DestroyEachSilent(m);
  }

  lemma OrphanBreaks(w: World, start: Pair, y: Pair, s: Side, act: M.Step)
    requires Consistent(w, start, y) && Enabled(w, y, Own(s, act)) && !Undisturbed(w, y, Own(s, act))
    ensures !Agreed(w, start, Step(w, y, Own(s, act)), s)
  {
    hide RemoteOf, SentTo, Disciplined, Descriptions, Do;
    BothSides(w, start, y, s);
    Orphaned(w, s, At(y, s), act, y);
    hide Enabled, Undisturbed;
    var z := Put(y, s, At(y, s).(mesh := Do(At(y, s).mesh, act)));
    OneDescription(Sent(w, s, At(z, s))[Base(w, start, s)..]);
  }

  /** The partner's dial goes unanswered: it has been handled, yet nothing applied it or nothing says so. */
  lemma SilenceBreaks(w: World, start: Pair, y: Pair, s: Side, e: Env)
    requires Consistent(w, start, y) && Enabled(w, y, Handle(s, e)) && !Undisturbed(w, y, Handle(s, e))
    ensures var z := Step(w, y, Handle(s, e)); !Agreed(w, start, z, s) || !Agreed(w, start, z, Other(s))
  {
    hide RemoteOf, SentTo, Disciplined, Descriptions;
    BothSides(w, start, y, s);
    var z, from := Step(w, y, Handle(s, e)), At(y, Other(s));
    assert from.handled == Base(w, start, Other(s));
    assert At(z, Other(s)) == from.(handled := from.handled + 1);
    OneDescription(Sent(w, s, At(z, s))[Base(w, start, s)..]);
    var rest := Sent(w, Other(s), from)[from.handled + 1..];
    OneDescription(rest);
  }

  /**
   The hypothesis is exact. After any undisturbed run, the next step keeps the
   promise to both sides if and only if it tears down neither link of the pair
   and leaves no dial unanswered.
   */
  lemma GlareExact(w: World, start: Pair, steps: seq<PairStep>, step: PairStep)
    requires Drained(w, start) && Calm(w, start, steps) && Enabled(w, Run(w, start, steps), step)
    ensures var y := Run(w, start, steps);
            var z := Step(w, y, step);
            Undisturbed(w, y, step) <==> Agreed(w, start, z, Left) && Agreed(w, start, z, Right)
  {
    RunKeeps(w, start, steps);
    StepExact(w, start, Run(w, start, steps), step);
    hide Run, Agreed, Drained, Consistent, Enabled, Calm, Undisturbed, Step;
  }

  lemma StepExact(w: World, start: Pair, y: Pair, step: PairStep)
    requires Consistent(w, start, y) && Enabled(w, y, step)
    ensures var z := Step(w, y, step);
            Undisturbed(w, y, step) <==> Agreed(w, start, z, Left) && Agreed(w, start, z, Right)
  {
    hide Agreed, Consistent, Enabled, Undisturbed, Step;
    assert step.side == Left || step.side == Right;
    if Undisturbed(w, y, step) {
      StepKeeps(w, start, y, step);
      ConsistentAgrees(w, start, Step(w, y, step), Left);
      ConsistentAgrees(w, start, Step(w, y, step), Right);
    } else {
      match step {
        case Own(s, act) => OrphanBreaks(w, start, y, s, act);
        case Handle(s, e) => SilenceBreaks(w, start, y, s, e);
      }
    }
  }

  /**
   In every such run, a candidate or end-of-gathering that arrives finds an
   agent already described, and is handed to it: none is dropped or early.
   */
  lemma SignalsLand(w: World, start: Pair, steps: seq<PairStep>, s: Side, e: Env)
    requires Drained(w, start) && Calm(w, start, steps) && Enabled(w, Run(w, start, steps), Handle(s, e))
    requires Oldest(w, Run(w, start, steps), s).kind in [CANDIDATE, GATHERING_DONE]
    ensures var y := Run(w, start, steps);
            var h, sig := At(y, s), Oldest(w, y, s);
            && Applied(w, s, h)
            && At(Step(w, y, Handle(s, e)), s).mesh
               == Called(h.mesh, if sig.kind == CANDIDATE then AddCandidate(AgentOf(w, s, h), sig.payload)
                                 else RemoteDone(AgentOf(w, s, h)))
  {
    RunKeeps(w, start, steps);
    LaterFindsAgent(w, start, Run(w, start, steps), s);
    hide Run, SentTo, Calm, Drained, HandleDescription, Consistent;
  }

  lemma LaterFindsAgent(w: World, start: Pair, y: Pair, s: Side)
    requires Consistent(w, start, y) && Incoming(w, y, s) && Oldest(w, y, s).kind != DESCRIPTION
    ensures Applied(w, s, At(y, s))
  {
    hide RemoteOf, SentTo, Disciplined;
    BothSides(w, start, y, s);
  }
}
