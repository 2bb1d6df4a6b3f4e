/**
 The client as it runs (Client/src/client.cpp, Client/src/p2p_mesh.cpp): one
 object whose methods update the cached room, the mesh and the receive buffers
 in place. Every method is proved to do what the pure model says.
 */
module ClientImpl {
  import opened Protocol
  import opened Seqs
  import opened Replica
  import M = Mesh
  import S = System
  import opened Codec
  import opened Framing
  import opened Readers
  import ClientRuns

  /** Which messages are handed to the application through Next. */
  predicate Surfaces(m: Msg) {
    !m.AssignClientId? && !m.IceServers? && !m.P2PSignal?
  }

  function Surfaced(ms: seq<Msg>): seq<Msg> {
    if ms == [] then []
    else Surfaced(ms[..|ms| - 1]) + if Surfaces(ms[|ms| - 1]) then [ms[|ms| - 1]] else []
  }

  /** Dispatching carved messages in order; `tape(i)` is what libjuice answers to the i-th. */
  function DispatchAll(cl: S.Client, ms: seq<Msg>, tape: nat -> M.Env): S.Client {
    if ms == [] then cl
    else S.Dispatch(DispatchAll(cl, ms[..|ms| - 1], tape), ms[|ms| - 1], tape(|ms| - 1))
  }

  lemma NothingDispatched(cl: S.Client, tape: nat -> M.Env)
    ensures DispatchAll(cl, [], tape) == cl && Surfaced([]) == []
  {
  }

  /** One more message, for the mesh and cache, for the application and for the stream. */
  lemma Snoc(cl: S.Client, inbox: seq<Msg>, ms: seq<Msg>, m: Msg, rest: Carved, tape: nat -> M.Env)
    ensures DispatchAll(cl, ms + [m], tape) == S.Dispatch(DispatchAll(cl, ms, tape), m, tape(|ms|))
    ensures inbox + Surfaced(ms + [m]) == (inbox + Surfaced(ms)) + if Surfaces(m) then [m] else []
    ensures AfterAll(ms, AfterAll([m], rest)) == AfterAll(ms + [m], rest)
  {
    hide S.Dispatch, Surfaces;
    assert (ms + [m])[..|ms|] == ms;
    Assoc(inbox, Surfaced(ms), if Surfaces(m) then [m] else []);
    Assoc(ms, [m], rest.msgs);
  }

  /** Whatever libjuice answers, the cache after a batch is the batch folded into it. */
  lemma {:induction false} DispatchFolds(cl: S.Client, ms: seq<Msg>, tape: nat -> M.Env)
    ensures DispatchAll(cl, ms, tape).cache == Fold(cl.cache, ms)
  {
    hide Apply, M.HandleSignal, M.PeerGone, M.DestroyAllLinks;
    if ms != [] {
      var before, last := ms[..|ms| - 1], ms[|ms| - 1];
      DispatchFolds(cl, before, tape);
      assert before + [last] == ms && [last][1..] == [];
      FoldConcat(cl.cache, before, [last]);
    }
  }

  lemma {:induction false} SurfacedConcat(ms: seq<Msg>, ns: seq<Msg>)
    ensures Surfaced(ms + ns) == Surfaced(ms) + Surfaced(ns)
    decreases ns
  {
    hide Surfaces;
    if ns == [] {
      assert ms + ns == ms && Surfaced(ms) + [] == Surfaced(ms);
    } else {
      SurfacedConcat(ms, ns[..|ns| - 1]);
      assert (ms + ns)[..|ms + ns| - 1] == ms + ns[..|ns| - 1];
    }
  }

  /** Dispatching a batch is running the mesh through what the batch asks. */
  lemma {:induction false} DispatchIsRun(cl: S.Client, ms: seq<Msg>, tape: nat -> M.Env, steps: seq<M.Step>)
    requires cl.mesh == M.Exec(steps)
    ensures DispatchAll(cl, ms, tape).mesh == M.Exec(steps + ClientRuns.AsksAll(cl.cache, ms, tape))
  {
    hide S.Dispatch, M.Exec, ClientRuns.Asks, Fold;
    if ms == [] {
      assert steps + [] == steps;
    } else {
      var n := |ms| - 1;
      var asked := ClientRuns.AsksAll(cl.cache, ms[..n], tape);
      DispatchIsRun(cl, ms[..n], tape, steps);
      DispatchFolds(cl, ms[..n], tape);
      var mid := DispatchAll(cl, ms[..n], tape);
      ClientRuns.DispatchIsSteps(mid, ms[n], tape(n), steps + asked);
      Assoc(steps, asked, ClientRuns.Asks(mid.cache.id, ms[n], tape(n)));
    }
  }

  /** Draining a batch of events is running the mesh through them, one by one. */
  lemma {:induction false} EventsAreSteps(steps: seq<M.Step>, events: seq<M.Event>)
    ensures HandleAll(M.Exec(steps), events)
         == M.Exec(steps + seq(|events|, i requires 0 <= i < |events| => M.Juice(events[i])))
  {
    hide M.HandleEvent, M.Exec;
    var all := seq(|events|, i requires 0 <= i < |events| => M.Juice(events[i]));
    if events == [] {
      assert steps + all == steps;
    } else {
      var n := |events| - 1;
      var most := seq(n, i requires 0 <= i < n => M.Juice(events[..n][i]));
      EventsAreSteps(steps, events[..n]);
      assert all == most + [M.Juice(events[n])];
      Assoc(steps, most, [M.Juice(events[n])]);
      ClientRuns.ExecOne(steps + most, M.Juice(events[n]));
    }
  }

  /** The messages that pass `f`, in order. */
  function Only(ms: seq<Msg>, f: Msg -> bool): seq<Msg> {
    if ms == [] then []
    else Only(ms[..|ms| - 1], f) + if f(ms[|ms| - 1]) then [ms[|ms| - 1]] else []
  }

  /**
   The application sees every message but the transport's own, in order; so
   whatever kind of room event it looks for, it finds all of them.
   */
  lemma {:induction false} SurfacedExactly(ms: seq<Msg>, f: Msg -> bool)
    ensures Surfaced(ms) == Only(ms, (m: Msg) => !(m.AssignClientId? || m.IceServers? || m.P2PSignal?))
    ensures (forall m :: f(m) ==> !(m.AssignClientId? || m.IceServers? || m.P2PSignal?)) ==>
              Only(Surfaced(ms), f) == Only(ms, f)
  {
    if ms != [] {
      var most, last := ms[..|ms| - 1], ms[|ms| - 1];
      SurfacedExactly(most, f);
      assert (Surfaced(most) + [last])[..|Surfaced(most)|] == Surfaced(most);
      assert Surfaced(most) + [] == Surfaced(most) && Only(most, f) + [] == Only(most, f);
    }
  }

  /** What one turn of CarveServer's loop finds: `msgs` holds the message completed, if any. */
  datatype Taken = Waiting | Refused | Took(rest: seq<byte>, partial: seq<byte>, msgs: seq<Msg>)

  function Next(rx: seq<byte>, partial: seq<byte>): (t: Taken)
    ensures t.Took? ==> |t.rest| < |rx| && |t.msgs| <= 1
  {
    if |rx| < HEADER then Waiting
    else
      var h := DecodeHeader(rx);
      if !h.ok then Refused
      else if |rx| < HEADER + h.len then Waiting
      else if |partial| + h.len > MAX_REASSEMBLED then Refused
      else
        var rest, body := rx[HEADER + h.len..], partial + rx[HEADER..HEADER + h.len];
        if h.more then Took(rest, body, [])
        else if Decode(body).Bad? then Refused
        else Took(rest, [], [Decode(body).value])
  }

  /** Carving is taking fragments until the buffer runs short or is refused. */
  lemma CarveUnfolds(rx: seq<byte>, partial: seq<byte>)
    ensures Carve(rx, partial)
         == match Next(rx, partial)
            case Waiting => Carved([], rx, partial, true)
            case Refused => CLOSED
            case Took(rest, gathered, msgs) => AfterAll(msgs, Carve(rest, gathered))
  {
    hide Decode, DecodeHeader;
    if |rx| >= HEADER {
      var h := DecodeHeader(rx);
      if h.ok && |rx| >= HEADER + h.len {
        var rest := rx[HEADER + h.len..];
        assert forall c: Carved :: AfterAll([], c) == c by {
          forall c: Carved ensures AfterAll([], c) == c { assert [] + c.msgs == c.msgs; }
        }
      }
    }
  }

  /** DisconnectServer's effect on the cached room and the mesh. */
  function HungUp(cl: S.Client): S.Client {
    S.Client(Cleared(cl.cache), M.DestroyAllLinks(cl.mesh))
  }

  lemma DepartureMeaning(cl: S.Client, m: Msg, e: M.Env)
    requires m.PeerLeft? || m.KickedByHost? || m.BannedByHost?
    ensures S.Dispatch(cl, m, e)
         == if m.PeerLeft? && m.id != cl.cache.id then
              S.Client(cl.cache.(members := Without(cl.cache.members, m.id), memberData := cl.cache.memberData - {m.id}),
                       M.PeerGone(cl.mesh, m.id))
            else HungUp(cl)
  {
    hide M.DestroyAllLinks, M.PeerGone, Without;
  }

  lemma MetadataMeaning(cl: S.Client, m: Msg, e: M.Env)
    ensures m.AssignClientId? ==> S.Dispatch(cl, m, e) == cl.(cache := cl.cache.(id := m.id))
    ensures m.IceServers? ==> S.Dispatch(cl, m, e) == cl
    ensures m.P2PSignal? ==>
              S.Dispatch(cl, m, e) == cl.(mesh := M.HandleSignal(cl.mesh, m.id, m.kind, m.payload, e))
  {
    hide M.HandleSignal;
  }

  lemma ChangeMeaning(v: Cache, m: Msg)
    requires Surfaces(m) && !m.AssignRoomId? && !m.PeerLeft? && !m.KickedByHost? && !m.BannedByHost?
    ensures m.PeerJoined? ==> Apply(v, m) == v.(members := v.members + [m.id])
    ensures m.HostChanged? ==> Apply(v, m) == v.(host := m.id)
    ensures m.RoomDataChanged? ==> Apply(v, m) == v.(data := SetKey(v.data, m.key, m.value))
    ensures m.MemberDataChanged? ==> Apply(v, m) == v.(memberData := SetMemberKey(v.memberData, m.id, m.key, m.value))
    ensures m.RoomAccessChanged? ==> Apply(v, m) == v.(open := m.open, passworded := m.passworded)
    ensures Apply(v, m) != v ==>
              m.PeerJoined? || m.HostChanged? || m.RoomDataChanged? || m.MemberDataChanged? || m.RoomAccessChanged?
  {
    hide SetKey, SetMemberKey;
  }

  class Client {
    // the cached room
    var id: Id
    var room: Str
    var host: Id
    var roomOpen: bool
    var passworded: bool
    var members: seq<Id>
    var data: map<Str, Str>
    var memberData: map<Id, map<Str, Str>>

    // the mesh; `calls` records what has been asked of libjuice
    var links: map<Id, M.Link>
    var attempts: map<Id, nat>
    var nextAgent: M.Agent
    ghost var calls: seq<M.Call>
    var signals: seq<Msg>
    var datagrams: seq<M.Datagram>

    // the server connection
    var connected: bool
    var rx: seq<byte>
    var rxMsg: seq<byte>
    var inbox: seq<Msg>

    ghost function CacheNow(): Cache
      reads `id, `room, `host, `roomOpen, `passworded, `members, `data, `memberData
    {
      Cache(id, room, host, roomOpen, passworded, members, data, memberData)
    }

    ghost function MeshNow(): M.Mesh
      reads `links, `attempts, `nextAgent, `calls, `signals, `datagrams
    {
      M.Mesh(links, attempts, nextAgent, calls, signals, datagrams)
    }

    ghost function Now(): S.Client
      reads `id, `room, `host, `roomOpen, `passworded, `members, `data, `memberData
      reads `links, `attempts, `nextAgent, `calls, `signals, `datagrams
    {
      S.Client(CacheNow(), MeshNow())
    }

    constructor ()
      ensures Now() == S.NEW_CLIENT && connected && rx == rxMsg == [] && inbox == []
    {
      id, room, host, roomOpen, passworded := 0, [], 0, true, false;
      members, data, memberData := [], map[], map[];
      links, attempts, nextAgent, calls, signals, datagrams := map[], map[], 0, [], [], [];
      connected, rx, rxMsg, inbox := true, [], [], [];
    }

    // ------------------------------------------------------------------ links

    method CreateLink(p: Id, e: M.Env) returns (ok: bool)
      requires p !in links
      modifies `links, `attempts, `nextAgent, `calls
      ensures M.Outcome(MeshNow(), ok) == M.CreateLink(old(MeshNow()), p, e)
    {
      if p !in attempts { attempts := attempts[p := 0]; } // operator[]
      assert attempts == old(attempts)[p := M.Tries(old(MeshNow()), p)];
      if attempts[p] >= M.MAX_ATTEMPTS { return false; }
      if !e.creates { return false; }
      attempts := attempts[p := attempts[p] + 1];
      links := links[p := M.Link(nextAgent, false, false, [])];
      calls := calls + [M.Create(nextAgent, p)];
      nextAgent := nextAgent + 1;
      return true;
    }

    method ShareLink(p: Id, e: M.Env) returns (ok: bool)
      requires p in links
      modifies `calls, `signals
      ensures M.Outcome(MeshNow(), ok) == M.ShareLink(old(MeshNow()), p, e)
    {
      if e.sdp.None? { return false; }
      signals := signals + [P2PSignal(p, DESCRIPTION, e.sdp.value)];
      calls := calls + [M.Gather(links[p].agent)];
      return e.gathers;
    }

    method DestroyLink(p: Id)
      modifies `links, `calls
      ensures MeshNow() == M.DestroyLink(old(MeshNow()), p)
    {
      if p !in links { return; }
      calls := calls + [M.Destroy(links[p].agent)];
      links := links - {p};
    }

    method DestroyAllLinks()
      modifies `links, `attempts, `calls
      ensures MeshNow() == M.DestroyAllLinks(old(MeshNow()))
    {
      while links != map[]
        invariant M.DestroyEach(MeshNow()) == M.DestroyEach(old(MeshNow()))
        decreases |links|
      {
        DestroyLink(LeastId(links.Keys));
      }
      attempts := map[];
    }

    method FlushLink(p: Id)
      requires p in links
      modifies `links, `calls
      ensures MeshNow() == M.FlushLink(old(MeshNow()), p)
    {
      var outbox := links[p].outbox;
      ghost var done: seq<M.Call> := [];
      assert outbox[0..] == outbox && calls + [] == calls;
      assert done + M.SendEach(links[p].agent, outbox) == M.SendEach(links[p].agent, outbox);
      for i := 0 to |outbox|
        invariant links == old(links) && calls == old(calls) + done
        invariant done + M.SendEach(links[p].agent, outbox[i..]) == M.SendEach(links[p].agent, outbox)
      {
        assert outbox[i..][1..] == outbox[i + 1..];
        ConcatCons(done, M.SendData(links[p].agent, outbox[i]), M.SendEach(links[p].agent, outbox[i + 1..]));
        calls := calls + [M.SendData(links[p].agent, outbox[i])];
        Assoc(old(calls), done, [M.SendData(links[p].agent, outbox[i])]);
        done := done + [M.SendData(links[p].agent, outbox[i])];
      }
      assert outbox[|outbox|..] == [] && done + [] == done;
      links := links[p := links[p].(outbox := [])];
    }

    /** The link a send will use, dialing first if there is none. */
    method Dial(p: Id, e: M.Env) returns (ok: bool)
      modifies `links, `attempts, `nextAgent, `calls, `signals
      ensures M.Outcome(MeshNow(), ok) == M.Dial(old(MeshNow()), p, e)
    {
      if p in links { return true; }
      ok := CreateLink(p, e);
      if ok {
        ok := ShareLink(p, e);
        if !ok { DestroyLink(p); }
      }
    }

    method SendP2P(p: Id, msg: Str, e: M.Env) returns (ok: bool)
      modifies `links, `attempts, `nextAgent, `calls, `signals
      ensures Now() == S.SendTo(old(Now()), p, msg, e)
      ensures ok == M.SendP2P(old(MeshNow()), p != id && p in members, p, msg, e).ok
    {
      hide M.Dial;
      if msg == [] || |msg| > MAX_P2P_MESSAGE { return false; }
      if p == id || p !in members { return false; }
      ok := Dial(p, e);
      if !ok { return; }
      if !links[p].connected {
        links := links[p := links[p].(outbox := links[p].outbox + [msg])];
        return true;
      }
      calls := calls + [M.SendData(links[p].agent, msg)];
      return e.sends;
    }

    // ---------------------------------------------------------------- signals

    method HandleP2PDescription(p: Id, sdp: Str, e: M.Env)
      modifies `links, `attempts, `nextAgent, `calls, `signals
      ensures MeshNow() == M.HandleDescription(old(MeshNow()), p, sdp, e)
    {
      if p in links && links[p].remoteSet {
        DestroyLink(p);
      }
      var answering := p !in links;
      if answering {
        attempts := attempts - {p};
        var made := CreateLink(p, e);
        if !made { return; }
      }
      if !links[p].remoteSet {
        calls := calls + [M.SetRemote(links[p].agent, sdp)];
        links := links[p := links[p].(remoteSet := true)];
      }
      if answering {
        var _ := ShareLink(p, e);
      }
    }

    method HandleP2PSignal(p: Id, kind: byte, payload: Str, e: M.Env)
      modifies `links, `attempts, `nextAgent, `calls, `signals
      ensures MeshNow() == M.HandleSignal(old(MeshNow()), p, kind, payload, e)
    {
      if kind == DESCRIPTION {
        HandleP2PDescription(p, payload, e);
      } else if kind == CANDIDATE {
        if p in links { calls := calls + [M.AddCandidate(links[p].agent, payload)]; }
      } else if kind == GATHERING_DONE {
        if p in links { calls := calls + [M.RemoteDone(links[p].agent)]; }
      }
    }

    // ----------------------------------------------------------------- events

    method HandleLinkState(p: Id, state: M.State)
      requires p in links
      modifies `links, `attempts, `calls
      ensures MeshNow() == M.HandleLinkState(old(MeshNow()), p, state)
    {
      match state {
        case Connected =>
          links := links[p := links[p].(connected := true)];
          attempts := attempts - {p};
          FlushLink(p);
        case Completed =>
          links := links[p := links[p].(connected := true)];
          attempts := attempts - {p};
          FlushLink(p);
        case Disconnected => links := links[p := links[p].(connected := false)];
        case Failed => DestroyLink(p);
        case Other =>
      }
    }

    method HandleJuiceEvent(ev: M.Event)
      modifies `links, `attempts, `calls, `signals, `datagrams
      ensures MeshNow() == M.HandleEvent(old(MeshNow()), ev)
    {
      if ev.peer !in links || links[ev.peer].agent != ev.agent { return; }
      match ev.kind {
        case StateChange(state) => HandleLinkState(ev.peer, state);
        case LocalCandidate(sdp) => signals := signals + [P2PSignal(ev.peer, CANDIDATE, sdp)];
        case LocalDone => signals := signals + [P2PSignal(ev.peer, GATHERING_DONE, [])];
        case Recv(payload) => datagrams := datagrams + [M.Datagram(ev.peer, payload)];
      }
    }

    /** The drained batch, in the order libjuice queued it. */
    method PollPeers(events: seq<M.Event>)
      modifies `links, `attempts, `calls, `signals, `datagrams
      ensures Now() == old(Now()).(mesh := HandleAll(old(Now()).mesh, events))
    {
      assert events[..0] == [];
      for i := 0 to |events|
        invariant MeshNow() == HandleAll(old(MeshNow()), events[..i])
      {
        HandleJuiceEvent(events[i]);
        assert events[..i + 1][..i] == events[..i];
      }
      assert events[..|events|] == events;
    }

    // ------------------------------------------------------------ cached room

    method ClearRoomState()
      modifies `room, `host, `roomOpen, `passworded, `members, `data, `memberData, `links, `attempts, `calls
      ensures Now() == HungUp(old(Now()))
    {
      hide M.DestroyAllLinks;
      DestroyAllLinks();
      room, host, roomOpen, passworded := [], 0, true, false;
      members, data, memberData := [], map[], map[];
    }

    /** A peer's departure takes its data and its link along. */
    method DropPeer(p: Id)
      modifies `members, `memberData, `links, `attempts, `calls
      ensures members == Without(old(members), p) && memberData == old(memberData) - {p}
      ensures MeshNow() == M.PeerGone(old(MeshNow()), p)
    {
      hide Without;
      members := Without(members, p);
      memberData := memberData - {p};
      DestroyLink(p);
      attempts := attempts - {p};
    }

    /** A departure: ours clears everything. */
    method CacheDeparture(m: Msg, ghost e: M.Env)
      requires m.PeerLeft? || m.KickedByHost? || m.BannedByHost?
      modifies `room, `host, `roomOpen, `passworded, `members, `data, `memberData, `links, `attempts, `calls
      ensures Now() == S.Dispatch(old(Now()), m, e)
    {
      hide M.DestroyAllLinks, M.PeerGone, Without;
      DepartureMeaning(Now(), m, e);
      hide S.Dispatch;
      if m.PeerLeft? && m.id != id {
        DropPeer(m.id);
      } else {
        ClearRoomState();
      }
    }

    /** An announcement: only the cached room changes. */
    method CacheAnnouncement(m: Msg)
      requires Surfaces(m) && !m.PeerLeft? && !m.KickedByHost? && !m.BannedByHost?
      modifies `room, `host, `roomOpen, `passworded, `members, `data, `memberData
      ensures CacheNow() == Apply(old(CacheNow()), m)
    {
      if m.AssignRoomId? {
        room, host, roomOpen, passworded := m.room, 0, true, false;
        members, data, memberData := [id], map[], map[];
      } else {
        hide CacheNow, Apply;
        CacheChange(m);
      }
    }

    method CacheChange(m: Msg)
      requires Surfaces(m) && !m.AssignRoomId? && !m.PeerLeft? && !m.KickedByHost? && !m.BannedByHost?
      modifies `host, `roomOpen, `passworded, `members, `data, `memberData
      ensures CacheNow() == Apply(old(CacheNow()), m)
    {
      hide Apply, SetMemberKey;
      ChangeMeaning(CacheNow(), m);
      match m {
        case PeerJoined(p) => members := members + [p];
        case HostChanged(p) => host := p;
        case RoomDataChanged(key, value) =>
          data := if value == [] then data - {key} else data[key := value];
        case MemberDataChanged(p, key, value) => CacheMemberKey(p, key, value);
        case RoomAccessChanged(o, pw) => roomOpen, passworded := o, pw;
        case _ =>
      }
    }

    method CacheRoomState(m: Msg, ghost e: M.Env)
      requires Surfaces(m)
      modifies `room, `host, `roomOpen, `passworded, `members, `data, `memberData, `links, `attempts, `calls
      ensures Now() == S.Dispatch(old(Now()), m, e)
    {
      if m.PeerLeft? || m.KickedByHost? || m.BannedByHost? {
        CacheDeparture(m, e);
      } else {
        CacheAnnouncement(m);
        hide Apply;
      }
    }

    method CacheMemberKey(p: Id, key: Str, value: Str)
      modifies `memberData
      ensures memberData == SetMemberKey(old(memberData), p, key, value)
    {
      if value == [] {
        if p in memberData {
          memberData := memberData[p := memberData[p] - {key}];
          if memberData[p] == map[] { memberData := memberData - {p}; }
          assert old(memberData)[p := map[]] - {p} == old(memberData) - {p};
        }
      } else {
        if p !in memberData { memberData := memberData[p := map[]]; } // operator[]
        memberData := memberData[p := memberData[p][key := value]];
        assert old(memberData)[p := map[]][p := map[key := value]] == old(memberData)[p := map[key := value]];
      }
    }

    method DisconnectServer() returns (ok: bool)
      modifies `connected
      modifies `room, `host, `roomOpen, `passworded, `members, `data, `memberData, `links, `attempts, `calls
      ensures !ok && !connected && Now() == HungUp(old(Now()))
    {
      connected := false;
      ClearRoomState();
      return false;
    }

    // --------------------------------------------------------------- carving

    /** One whole message. */
    method Deliver(m: Msg, e: M.Env)
      modifies `id, `inbox
      modifies `room, `host, `roomOpen, `passworded, `members, `data, `memberData
      modifies `links, `attempts, `nextAgent, `calls, `signals
      ensures Now() == S.Dispatch(old(Now()), m, e)
      ensures inbox == old(inbox) + if Surfaces(m) then [m] else []
    {
      hide M.HandleSignal, S.Dispatch;
      MetadataMeaning(Now(), m, e);
      if m.AssignClientId? {
        id := m.id;
      } else if m.P2PSignal? {
        HandleP2PSignal(m.id, m.kind, m.payload, e);
      } else if !m.IceServers? { // the ICE list only configures later links
        hide CacheNow, MeshNow, Now;
        CacheRoomState(m, e);
        inbox := inbox + [m];
      }
    }

    /** Takes one fragment off the buffer, and the message it completes. */
    method TakeFragment(remaining: seq<byte>) returns (t: Taken)
      modifies `rxMsg
      ensures t == Next(remaining, old(rxMsg))
      ensures (t.Waiting? ==> rxMsg == old(rxMsg)) && (t.Took? ==> rxMsg == t.partial)
    {
      hide Decode, DecodeHeader;
      if |remaining| < HEADER { return Waiting; }
      var h := DecodeHeader(remaining);
      if !h.ok { return Refused; }
      if |remaining| < HEADER + h.len { return Waiting; } // for the fragment
      var fits, grown := AppendFragment(rxMsg, remaining[HEADER..HEADER + h.len]);
      if !fits { return Refused; }
      rxMsg := grown;
      if h.more { return Took(remaining[HEADER + h.len..], rxMsg, []); }
      var m := Decode(rxMsg);
      rxMsg := [];
      return if m.Bad? then Refused else Took(remaining[HEADER + h.len..], [], [m.value]);
    }

    /**
     CarveServer: everything complete in the buffer is delivered; a protocol
     error disconnects after the messages that came before it.
     */
    method CarveServer(tape: nat -> M.Env) returns (ok: bool)
      requires connected
      modifies this
      ensures var c := Carve(old(rx), old(rxMsg));
              && ok == connected == c.open
              && inbox == old(inbox) + Surfaced(c.msgs)
              && Now() == (if ok then DispatchAll(old(Now()), c.msgs, tape)
                           else HungUp(DispatchAll(old(Now()), c.msgs, tape)))
              && (ok ==> rx == c.rx && rxMsg == c.partial)
    {
      hide Next, S.Dispatch, HungUp, Carve, DispatchAll, Surfaced, Now;
      var remaining := rx;
      ghost var done: seq<Msg> := [];
      var count := 0;
      NothingDispatched(Now(), tape);
      assert inbox + [] == inbox;
      while true
        invariant connected && rx == old(rx) && count == |done|
        invariant AfterAll(done, Carve(remaining, rxMsg)) == Carve(old(rx), old(rxMsg))
        invariant Now() == DispatchAll(old(Now()), done, tape) && inbox == old(inbox) + Surfaced(done)
        decreases |remaining|
      {
        CarveUnfolds(remaining, rxMsg);
        assert done + [] == done;
        var t := TakeFragment(remaining);
        if t.Waiting? { break; }
        if t.Refused? {
          ok := DisconnectServer();
          return;
        }
        remaining := t.rest;
        if t.msgs != [] {
          assert t.msgs == [t.msgs[0]];
          Snoc(old(Now()), old(inbox), done, t.msgs[0], Carve(remaining, rxMsg), tape);
          Deliver(t.msgs[0], tape(count));
          done, count := done + t.msgs, count + 1;
        }
      }
      rx := remaining;
      return true;
    }

    /** Poll, given the bytes just drained and the events libjuice has queued. */
    method Poll(chunk: seq<byte>, events: seq<M.Event>, tape: nat -> M.Env) returns (ok: bool)
      modifies this
      ensures !old(connected) ==> !ok && !connected && Now() == old(Now()) && inbox == old(inbox)
      ensures old(connected) ==>
                var c := Carve(old(rx) + chunk, old(rxMsg));
                var cl := DispatchAll(old(Now()), c.msgs, tape);
                && ok == connected == c.open
                && inbox == old(inbox) + Surfaced(c.msgs)
                && (ok ==> Now() == cl.(mesh := HandleAll(cl.mesh, events)) && rx == c.rx && rxMsg == c.partial)
                && (!ok ==> Now() == HungUp(cl))
    {
      hide Carve, DispatchAll, Surfaced, HungUp, HandleAll, Now;
      if !connected { return false; }
      rx := rx + chunk;
      ok := CarveServer(tape);
      if !ok { return; }
      PollPeers(events);
    }
  }

  function HandleAll(m: M.Mesh, events: seq<M.Event>): M.Mesh {
    if events == [] then m
    else M.HandleEvent(HandleAll(m, events[..|events| - 1]), events[|events| - 1])
  }
}
