/**
 The whole system: one server, any number of clients, and a FIFO stream of
 messages to each. Clients may send anything at any time; the server may be
 scheduled, and messages delivered, in any order the streams allow.
 */
module System {
  import opened Protocol
  import opened Seqs
  import opened Replica
  import R = Rooms
  import opened Replication
  import opened Mesh

  datatype Client = Client(cache: Cache, mesh: Mesh)

  const NEW_CLIENT := Client(NEW_CACHE, NEW_MESH)

  /** CarveServer's dispatch of one whole message. */
  function Dispatch(cl: Client, m: Msg, e: Env): Client {
    var cache := Apply(cl.cache, m);
    match m
    case P2PSignal(p, kind, payload) => Client(cache, HandleSignal(cl.mesh, p, kind, payload, e))
    case PeerLeft(p) =>
      Client(cache, if p == cl.cache.id then DestroyAllLinks(cl.mesh) else PeerGone(cl.mesh, p))
    case KickedByHost => Client(cache, DestroyAllLinks(cl.mesh))
    case BannedByHost => Client(cache, DestroyAllLinks(cl.mesh))
    case _ => Client(cache, cl.mesh)
  }

  function SendTo(cl: Client, p: Id, data: Str, e: Env): Client {
    cl.(mesh := SendP2P(cl.mesh, p != cl.cache.id && p in cl.cache.members, p, data, e).mesh)
  }

  /** `streams[c]`: everything queued for `c` and not yet carved by it. */
  datatype Sys = Sys(core: R.Core, clients: map<Id, Client>, streams: map<Id, seq<Msg>>)

  datatype Action =
    | ServerStep(step: R.Step)
    | Deliver(c: Id, env: Env)
    | AppSend(c: Id, peer: Id, data: Str, env: Env)
    | JuiceEvent(c: Id, event: Event)
    | Hangup(c: Id)

  function Start(cfg: R.Config): Sys {
    Sys(R.Init(cfg), map[], map[])
  }

  predicate Possible(y: Sys, act: Action) {
    match act
    case ServerStep(step) => R.Enabled(y.core, step)
    case Deliver(c, _) => c in y.clients && c in y.streams && y.streams[c] != []
    case AppSend(c, _, _, _) => c in y.clients
    case JuiceEvent(c, _) => c in y.clients
    case Hangup(c) => c in y.clients
  }

  /** The server acts; whatever it queues for a connected client joins that client's stream. */
  function Serve(y: Sys, step: R.Step): Sys
    requires R.Enabled(y.core, step)
  {
    var e := R.Perform(y.core, step);
    var streams := map c | c in y.streams ::
      if c in e.core.conns then y.streams[c] + R.For(e.sends, c) else y.streams[c];
    if step.Accept? then
      Sys(e.core, y.clients[y.core.nextId := NEW_CLIENT], streams[y.core.nextId := []])
    else Sys(e.core, y.clients, streams)
  }

  /** An impossible action does not happen. */
  function Act(y: Sys, act: Action): Sys {
    if !Possible(y, act) then y
    else
      match act
      case ServerStep(step) => Serve(y, step)
      case Deliver(c, e) =>
        y.(clients := y.clients[c := Dispatch(y.clients[c], y.streams[c][0], e)],
           streams := y.streams[c := y.streams[c][1..]])
      case AppSend(c, p, data, e) => y.(clients := y.clients[c := SendTo(y.clients[c], p, data, e)])
      case JuiceEvent(c, ev) =>
        y.(clients := y.clients[c := y.clients[c].(mesh := HandleEvent(y.clients[c].mesh, ev))])
      case Hangup(c) => y.(clients := y.clients - {c}, streams := y.streams - {c})
  }

  function Run(cfg: R.Config, acts: seq<Action>): Sys {
    if acts == [] then Start(cfg) else Act(Run(cfg, acts[..|acts| - 1]), acts[|acts| - 1])
  }

  // ---------------------------------------------------------------- invariant

  /** No link or attempt points outside the room: every key names another cached member. */
  ghost predicate Spans(cl: Client) {
    forall p :: p in cl.mesh.links || p in cl.mesh.attempts ==> p in cl.cache.members && p != cl.cache.id
  }

  ghost predicate ClientAt(y: Sys, c: Id) {
    c in y.clients ==>
      && c < y.core.nextId && c in y.streams
      && CacheOk(y.clients[c].cache) && Spans(y.clients[c])
      && FitsAll(y.clients[c].cache, y.streams[c])
      && (c in y.core.conns ==> Fold(y.clients[c].cache, y.streams[c]) == View(y.core, c))
  }

  ghost predicate SysInv(y: Sys) {
    && R.Inv(y.core)
    && y.streams.Keys == y.clients.Keys
    && forall c :: ClientAt(y, c)
  }

  // ------------------------------------------------------------- client steps

  /** Every key of the new mesh is an old one or `p`. */
  ghost predicate Within(m: Mesh, n: Mesh, p: Id) {
    forall q :: q in n.links || q in n.attempts ==> q in m.links || q in m.attempts || q == p
  }

  lemma SendWithin(m: Mesh, isPeer: bool, p: Id, data: Str, e: Env)
    ensures Within(m, SendP2P(m, isPeer, p, data, e).mesh, p)
    ensures !isPeer ==> SendP2P(m, isPeer, p, data, e).mesh == m
  {
  }

  lemma SignalWithin(m: Mesh, p: Id, kind: byte, payload: Str, e: Env)
    ensures Within(m, HandleSignal(m, p, kind, payload, e), p)
  {
    DescriptionWithin(m, p, payload, e);
    hide HandleDescription;
  }

  lemma DescriptionWithin(m: Mesh, p: Id, sdp: Str, e: Env)
    ensures Within(m, HandleDescription(m, p, sdp, e), p)
  {
    var n := if p in m.links && m.links[p].remoteSet then DestroyLink(m, p) else m;
    assert Within(m, n, p);
    if p in n.links {
      assert Within(n, ApplyRemote(n, p, sdp), p);
    } else {
      var made := CreateLink(n.(attempts := n.attempts - {p}), p, e);
      assert Within(n, made.mesh, p);
      if made.ok {
        var applied := ApplyRemote(made.mesh, p, sdp);
        assert Within(made.mesh, applied, p) && Within(applied, ShareLink(applied, p, e).mesh, p);
      }
      hide CreateLink, ShareLink;
    }
    hide DestroyLink, ApplyRemote;
  }

  lemma EventWithin(m: Mesh, ev: Event)
    ensures forall q :: q in HandleEvent(m, ev).links ==> q in m.links
    ensures forall q :: q in HandleEvent(m, ev).attempts ==> q in m.attempts
  {
  }

  lemma ClearedMesh(m: Mesh)
    ensures DestroyAllLinks(m).links == map[] && DestroyAllLinks(m).attempts == map[]
  {
    DestroyEachEmpties(m);
  }

  lemma {:induction false} DestroyEachEmpties(m: Mesh)
    ensures DestroyEach(m).links == map[]
    decreases |m.links|
  {
    if m.links != map[] { DestroyEachEmpties(DestroyLink(m, LeastId(m.links.Keys))); }
  }

  /** Messages that leave the mesh alone lose no member, unless there was none. */
  lemma MembersStay(v: Cache, m: Msg)
    requires Fits(v, m) && !m.PeerLeft? && !m.KickedByHost? && !m.BannedByHost?
    ensures v.members == [] || (Apply(v, m).id == v.id && forall p :: p in v.members ==> p in Apply(v, m).members)
  {
  }

  lemma LeftKeeps(cl: Client, p: Id)
    requires Spans(cl) && p != cl.cache.id
    ensures Spans(Client(Apply(cl.cache, PeerLeft(p)), PeerGone(cl.mesh, p)))
  {
  }

  /**
   One carved message. HandleP2PDescription never looks at the member list; the
   stream's shape is what keeps strangers out of the mesh.
   */
  lemma DispatchKeeps(cl: Client, m: Msg, e: Env)
    requires CacheOk(cl.cache) && Spans(cl) && Fits(cl.cache, m)
    ensures CacheOk(Dispatch(cl, m, e).cache) && Spans(Dispatch(cl, m, e))
    ensures Dispatch(cl, m, e).cache == Apply(cl.cache, m)
  {
    ApplyKeepsCacheOk(cl.cache, m);
    DispatchCache(cl, m, e);
    if m.P2PSignal? { SignalSpans(cl, m, e); }
    else if m.PeerLeft? || m.KickedByHost? || m.BannedByHost? { DepartureSpans(cl, m, e); }
    else { AnnouncementSpans(cl, m, e); }
    hide Dispatch, Apply, CacheOk, Spans;
  }

  lemma DispatchCache(cl: Client, m: Msg, e: Env)
    ensures Dispatch(cl, m, e).cache == Apply(cl.cache, m)
  {
    hide Apply, HandleSignal, DestroyAllLinks, PeerGone;
  }

  lemma SignalSpans(cl: Client, m: Msg, e: Env)
    requires CacheOk(cl.cache) && Spans(cl) && Fits(cl.cache, m) && m.P2PSignal?
    ensures Spans(Dispatch(cl, m, e))
  {
    hide HandleSignal, CacheOk;
    SignalWithin(cl.mesh, m.id, m.kind, m.payload, e);
  }

  lemma DepartureSpans(cl: Client, m: Msg, e: Env)
    requires Spans(cl) && (m.PeerLeft? || m.KickedByHost? || m.BannedByHost?)
    ensures Spans(Dispatch(cl, m, e))
  {
    hide DestroyAllLinks, PeerGone, Apply;
    ClearedMesh(cl.mesh);
    if m.PeerLeft? && m.id != cl.cache.id { LeftKeeps(cl, m.id); }
  }

  lemma AnnouncementSpans(cl: Client, m: Msg, e: Env)
    requires CacheOk(cl.cache) && Spans(cl) && Fits(cl.cache, m)
    requires !m.P2PSignal? && !m.PeerLeft? && !m.KickedByHost? && !m.BannedByHost?
    ensures Spans(Dispatch(cl, m, e))
  {
    hide Apply, Fits, CacheOk;
    MembersStay(cl.cache, m);
  }

  lemma SendKeeps(cl: Client, p: Id, data: Str, e: Env)
    requires Spans(cl)
    ensures Spans(SendTo(cl, p, data, e)) && SendTo(cl, p, data, e).cache == cl.cache
  {
    SendWithin(cl.mesh, p != cl.cache.id && p in cl.cache.members, p, data, e);
    hide SendP2P;
  }

  lemma EventKeeps(cl: Client, ev: Event)
    requires Spans(cl)
    ensures Spans(cl.(mesh := HandleEvent(cl.mesh, ev)))
  {
    EventWithin(cl.mesh, ev);
    hide HandleEvent;
  }

  // -------------------------------------------------------------- system steps

  lemma ServeKeepsClient(y: Sys, step: R.Step, c: Id)
    requires SysInv(y) && R.Enabled(y.core, step)
    ensures ClientAt(Serve(y, step), c)
  {
    hide Fold, FitsAll, View;
    StepGood(y.core, step);
    var e := R.Perform(y.core, step);
    NextIdGrows(y.core, step, c);
    if step.Accept? { AcceptGood(y.core); }
    hide R.Perform;
    assert ClientAt(y, c) && TracksFor(y.core, e, c);
    if c in y.clients && c in e.core.conns && !(step.Accept? && c == y.core.nextId) {
      var v, ms := y.clients[c].cache, y.streams[c];
      LeadsConcat(v, ms, Fold(v, ms), R.For(e.sends, c), View(e.core, c));
    }
    LeadsNone(NEW_CACHE);
  }

  lemma DeliverKeeps(y: Sys, c: Id, e: Env)
    requires SysInv(y) && Possible(y, Deliver(c, e))
    ensures SysInv(Act(y, Deliver(c, e)))
  {
    hide Dispatch, View;
    assert ClientAt(y, c);
    DispatchKeeps(y.clients[c], y.streams[c][0], e);
    hide Apply, Fits;
    forall x ensures ClientAt(Act(y, Deliver(c, e)), x) { assert ClientAt(y, x); }
  }

  lemma ActKeeps(y: Sys, act: Action)
    requires SysInv(y)
    ensures SysInv(Act(y, act))
  {
    hide Fold, FitsAll, View;
    if Possible(y, act) {
      match act {
        case ServerStep(step) =>
          StepGood(y.core, step);
          forall c ensures ClientAt(Serve(y, step), c) { ServeKeepsClient(y, step, c); }
        case Deliver(c, e) => DeliverKeeps(y, c, e);
        case AppSend(c, p, data, e) =>
          assert ClientAt(y, c);
          SendKeeps(y.clients[c], p, data, e);
          hide SendTo;
          forall x ensures ClientAt(Act(y, act), x) { assert ClientAt(y, x); }
        case JuiceEvent(c, ev) =>
          assert ClientAt(y, c);
          EventKeeps(y.clients[c], ev);
          hide HandleEvent;
          forall x ensures ClientAt(Act(y, act), x) { assert ClientAt(y, x); }
        case Hangup(c) =>
          forall x ensures ClientAt(Act(y, act), x) { assert ClientAt(y, x); }
      }
    }
  }

  lemma {:induction false} RunKeeps(cfg: R.Config, acts: seq<Action>)
    requires cfg.ice.IceServers?
    ensures SysInv(Run(cfg, acts))
  {
    if acts == [] {
      InitInv(cfg);
    } else {
      RunKeeps(cfg, acts[..|acts| - 1]);
      ActKeeps(Run(cfg, acts[..|acts| - 1]), acts[|acts| - 1]);
    }
  }

  // --------------------------------------------------------------- theorems

  /** In every run, whatever is undelivered turns a live client's cache into the server's view. */
  lemma Convergence(cfg: R.Config, acts: seq<Action>, c: Id)
    requires cfg.ice.IceServers?
    requires c in Run(cfg, acts).clients && c in Run(cfg, acts).core.conns
    ensures var y := Run(cfg, acts);
            c in y.streams && Fold(y.clients[c].cache, y.streams[c]) == View(y.core, c)
  {
    RunKeeps(cfg, acts);
    assert ClientAt(Run(cfg, acts), c);
  }

  /** A drained client holds exactly its room, itself listed first. */
  lemma DrainedClientAgrees(cfg: R.Config, acts: seq<Action>, c: Id)
    requires cfg.ice.IceServers?
    requires c in Run(cfg, acts).clients && c in Run(cfg, acts).core.conns
    requires c in Run(cfg, acts).streams && Run(cfg, acts).streams[c] == [] && Run(cfg, acts).core.conns[c].started
    ensures var y := Run(cfg, acts);
            var v, conn := y.clients[c].cache, y.core.conns[c];
            && v.id == c && v.room == conn.room
            && (v.room != [] ==>
                  v.room in y.core.rooms
                  && var r := y.core.rooms[v.room];
                     && v.members == [c] + Without(r.members, c) && c in r.members
                     && v.host == r.host && v.open == r.open && v.passworded == (r.password != [])
                     && v.data == r.data && v.memberData == r.memberData)
  {
    Convergence(cfg, acts, c);
    RunKeeps(cfg, acts);
    var y := Run(cfg, acts);
    assert R.ConnAt(y.core, c) && R.RoomAt(y.core, y.core.conns[c].room) && R.RoomAt(y.core, []);
  }

  /** Every queue position fits the cache its prefix leaves. */
  lemma StreamShape(cfg: R.Config, acts: seq<Action>, c: Id, i: nat)
    requires cfg.ice.IceServers?
    requires c in Run(cfg, acts).clients && c in Run(cfg, acts).streams && i < |Run(cfg, acts).streams[c]|
    ensures var y := Run(cfg, acts);
            Fits(Fold(y.clients[c].cache, y.streams[c][..i]), y.streams[c][i])
  {
    RunKeeps(cfg, acts);
    assert ClientAt(Run(cfg, acts), c);
    FitsAt(Run(cfg, acts).clients[c].cache, Run(cfg, acts).streams[c], i);
  }

  /** In every run, every client's links and attempts name other members of its cached room. */
  lemma MeshSpansRoom(cfg: R.Config, acts: seq<Action>, c: Id, p: Id)
    requires cfg.ice.IceServers? && c in Run(cfg, acts).clients
    requires var m := Run(cfg, acts).clients[c].mesh; p in m.links || p in m.attempts
    ensures var v := Run(cfg, acts).clients[c].cache; p in v.members && p != v.id
  {
    RunKeeps(cfg, acts);
    assert ClientAt(Run(cfg, acts), c);
  }

  /**
   The server's two indexes agree in every reachable state, and every room is
   within its limits.
   */
  lemma IndexAgreement(cfg: R.Config, acts: seq<Action>, c: Id, k: Str)
    requires cfg.ice.IceServers?
    ensures var s := Run(cfg, acts).core;
            && (k in s.rooms && c in s.rooms[k].members <==> c in s.conns && s.conns[c].room == k != [])
            && (k in s.rooms ==>
                  var r := s.rooms[k];
                  && r.id == k && r.members != [] && Distinct(r.members) && r.host in r.members
                  && (c in r.banned ==> c !in r.members)
                  && (c in r.memberData ==> c in r.members && 0 < |r.memberData[c]| <= MAX_MEMBER_KEYS)
                  && |r.data| <= MAX_ROOM_KEYS && |r.password| <= MAX_PASSWORD
                  && (forall key :: key in r.data ==> 0 < |key| <= MAX_KEY && 0 < |r.data[key]| <= MAX_VALUE)
                  && (c in r.memberData ==>
                        forall key :: key in r.memberData[c] ==>
                          0 < |key| <= MAX_KEY && 0 < |r.memberData[c][key]| <= MAX_VALUE))
  {
    RunKeeps(cfg, acts);
    var s := Run(cfg, acts).core;
    assert R.RoomAt(s, k) && R.ConnAt(s, c);
    hide Run;
  }
}
