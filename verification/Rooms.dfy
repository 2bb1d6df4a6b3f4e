/**
 The server's room state machine (Server/src/weyvelength_server.cpp). Handlers
 run to completion on one thread, so each is one atomic step: the state it
 leaves and the messages it queues, in order.
 */
module Rooms {
  import opened Protocol
  import opened Seqs

  datatype Room = Room(
    id: Str, host: Id, members: seq<Id>,
    data: map<Str, Str>, memberData: map<Id, map<Str, Str>>,
    open: bool, password: Str, banned: seq<Id>)

  /** `room` empty means "not in a room"; `started` once the session greeted the client. */
  datatype Conn = Conn(started: bool, room: Str)

  datatype Config = Config(codeLength: nat, ice: Msg)

  datatype Core = Core(cfg: Config, conns: map<Id, Conn>, rooms: map<Str, Room>, nextId: u32)

  datatype Send = To(id: Id, msg: Msg)

  datatype Effect = Effect(core: Core, sends: seq<Send>)

  // ---------------------------------------------------------------- sending

  /** The messages of `sends` addressed to `c`, in order. */
  function For(sends: seq<Send>, c: Id): seq<Msg> {
    if sends == [] then []
    else (if sends[0].id == c then [sends[0].msg] else []) + For(sends[1..], c)
  }

  /** SendToMany: one copy per listed id. */
  function ToMany(ids: seq<Id>, m: Msg): seq<Send> {
    if ids == [] then [] else [To(ids[0], m)] + ToMany(ids[1..], m)
  }

  /** A run of SendTo calls to one connection. */
  function ToOne(c: Id, ms: seq<Msg>): seq<Send> {
    if ms == [] then [] else [To(c, ms[0])] + ToOne(c, ms[1..])
  }

  lemma ForCons(s: Send, rest: seq<Send>, c: Id)
    ensures For([s] + rest, c) == (if s.id == c then [s.msg] else []) + For(rest, c)
  {
    assert ([s] + rest)[1..] == rest;
  }

  lemma {:induction false} ForConcat(a: seq<Send>, b: seq<Send>, c: Id)
    ensures For(a + b, c) == For(a, c) + For(b, c)
  {
    if a == [] {
      assert a + b == b;
    } else {
      assert a + b == [a[0]] + (a[1..] + b);
      ForCons(a[0], a[1..] + b, c);
      ForConcat(a[1..], b, c);
    }
  }

  lemma {:induction false} ForToOne(to: Id, ms: seq<Msg>, c: Id)
    ensures For(ToOne(to, ms), c) == if c == to then ms else []
  {
    if ms != [] {
      ForCons(To(to, ms[0]), ToOne(to, ms[1..]), c);
      ForToOne(to, ms[1..], c);
    }
  }

  lemma {:induction false} ForToMany(ids: seq<Id>, m: Msg, c: Id)
    requires Distinct(ids)
    ensures For(ToMany(ids, m), c) == if c in ids then [m] else []
  {
    if ids != [] {
      ForCons(To(ids[0], m), ToMany(ids[1..], m), c);
      ForToMany(ids[1..], m, c);
    }
  }

  // ------------------------------------------------------------- hydration

  function JoinedEvents(members: seq<Id>): seq<Msg> {
    if members == [] then [] else [PeerJoined(members[0])] + JoinedEvents(members[1..])
  }

  function DataEvents(data: map<Str, Str>): seq<Msg>
    decreases |data|
  {
    if data == map[] then []
    else
      var k := Least(data.Keys);
      [RoomDataChanged(k, data[k])] + DataEvents(data - {k})
  }

  function OneMemberEvents(id: Id, data: map<Str, Str>): seq<Msg>
    decreases |data|
  {
    if data == map[] then []
    else
      var k := Least(data.Keys);
      [MemberDataChanged(id, k, data[k])] + OneMemberEvents(id, data - {k})
  }

  function MemberEvents(md: map<Id, map<Str, Str>>): seq<Msg>
    decreases |md|
  {
    if md == map[] then []
    else
      var id := LeastId(md.Keys);
      OneMemberEvents(id, md[id]) + MemberEvents(md - {id})
  }

  /** Everything a joiner is told, before it is listed itself. */
  function Welcome(room: Room, id: Str): seq<Msg> {
    [AssignRoomId(id)] + JoinedEvents(room.members)
    + [HostChanged(room.host), RoomAccessChanged(room.open, room.password != [])]
    + DataEvents(room.data) + MemberEvents(room.memberData)
  }

  // -------------------------------------------------------------- handlers

  /** Handlers open and close no connections. */
  predicate Kept(s: Core, t: Core) {
    t.cfg == s.cfg && t.nextId == s.nextId && t.conns.Keys == s.conns.Keys
  }

  function Quiet(s: Core): Effect {
    Effect(s, [])
  }

  function Reply(s: Core, c: Id, m: Msg): Effect {
    Effect(s, [To(c, m)])
  }

  function Fail(s: Core, c: Id, code: byte, context: Str): Effect {
    Reply(s, c, RoomError(code, context))
  }

  function PutRoom(s: Core, room: Room): Core {
    s.(rooms := s.rooms[room.id := room])
  }

  /** Store the room and tell all its members. */
  function Announce(s: Core, room: Room, m: Msg): Effect {
    Effect(PutRoom(s, room), ToMany(room.members, m))
  }

  function Move(s: Core, c: Id, room: Str): Core
    requires c in s.conns
  {
    s.(conns := s.conns[c := s.conns[c].(room := room)])
  }

  function RoomOf(s: Core, c: Id): Str
    requires c in s.conns
  {
    s.conns[c].room
  }

  predicate Hosts(s: Core, c: Id)
    requires c in s.conns
  {
    RoomOf(s, c) in s.rooms && s.rooms[RoomOf(s, c)].host == c
  }

  /** HostRoom's two refusals. */
  function NotHosting(s: Core, c: Id): (e: Effect)
    requires c in s.conns
    ensures Kept(s, e.core)
  {
    Fail(s, c, if RoomOf(s, c) in s.rooms then NOT_HOST else NOT_IN_ROOM, [])
  }

  function HandleCreateRoom(s: Core, c: Id, code: Str): (e: Effect)
    requires c in s.conns
    ensures Kept(s, e.core)
  {
    if RoomOf(s, c) != [] then Fail(s, c, ALREADY_IN_ROOM, RoomOf(s, c))
    else
      var room := Room(code, c, [c], map[], map[], true, [], []);
      Effect(Move(PutRoom(s, room), c, code), ToOne(c, [AssignRoomId(code), HostChanged(c)]))
  }

  function HandleJoinRoom(s: Core, c: Id, id: Str, password: Str): (e: Effect)
    requires c in s.conns
    ensures Kept(s, e.core)
  {
    if RoomOf(s, c) != [] then Fail(s, c, ALREADY_IN_ROOM, RoomOf(s, c))
    else if id !in s.rooms then Fail(s, c, NO_SUCH_ROOM, id)
    else
      var room := s.rooms[id];
      if c in room.banned then Fail(s, c, BANNED, id)
      else if !room.open then Fail(s, c, ROOM_CLOSED, id)
      else if room.password != [] && password != room.password then Fail(s, c, BAD_PASSWORD, id)
      else
        var joined := room.(members := room.members + [c]);
        Effect(Move(s.(rooms := s.rooms[id := joined]), c, id),
               ToMany(room.members, PeerJoined(c)) + ToOne(c, Welcome(room, id)))
  }

  /** The room once `c` is gone; `members` must not become empty. */
  function Bereft(room: Room, c: Id): Room
    requires Without(room.members, c) != []
  {
    var members := Without(room.members, c);
    room.(members := members, memberData := room.memberData - {c},
          host := if room.host == c then members[0] else room.host)
  }

  function DepartureEvents(room: Room, c: Id): seq<Send>
    requires Without(room.members, c) != []
  {
    var left := Bereft(room, c);
    ToMany(left.members, PeerLeft(c))
    + if room.host == c then ToMany(left.members, HostChanged(left.host)) else []
  }

  /** The common exit path: leave, kick, ban and disconnect all end here. */
  function Depart(s: Core, c: Id): (e: Effect)
    requires c in s.conns
    ensures Kept(s, e.core)
  {
    var id := RoomOf(s, c);
    if id == [] then Quiet(s)
    else if id !in s.rooms then Effect(Move(s, c, []), [])
    else
      var room := s.rooms[id];
      if Without(room.members, c) == [] then Effect(Move(s.(rooms := s.rooms - {id}), c, []), [])
      else Effect(Move(s.(rooms := s.rooms[id := Bereft(room, c)]), c, []), DepartureEvents(room, c))
  }

  /** Tell `c` why, then run the common exit path. */
  function Remove(s: Core, c: Id, why: Msg): (e: Effect)
    requires c in s.conns
    ensures Kept(s, e.core)
  {
    var gone := Depart(s, c);
    Effect(gone.core, [To(c, why)] + gone.sends)
  }

  function HandleLeaveRoom(s: Core, c: Id): (e: Effect)
    requires c in s.conns
    ensures Kept(s, e.core)
  {
    if RoomOf(s, c) == [] then Fail(s, c, NOT_IN_ROOM, []) else Remove(s, c, PeerLeft(c))
  }

  function HandleRoomChat(s: Core, c: Id, text: Str): (e: Effect)
    requires c in s.conns
    ensures Kept(s, e.core)
  {
    if RoomOf(s, c) !in s.rooms then Fail(s, c, NOT_IN_ROOM, [])
    else Effect(s, ToMany(s.rooms[RoomOf(s, c)].members, RoomChat(c, text)))
  }

  function HandleP2PSignal(s: Core, c: Id, target: Id, kind: byte, payload: Str): (e: Effect)
    requires c in s.conns
    ensures Kept(s, e.core)
  {
    if RoomOf(s, c) !in s.rooms then Quiet(s)
    else if target == c || target !in s.rooms[RoomOf(s, c)].members then Quiet(s)
    else Reply(s, target, P2PSignal(c, kind, payload))
  }

  predicate BadPair(key: Str, value: Str) {
    key == [] || |key| > MAX_KEY || |value| > MAX_VALUE
  }

  function HandleSetRoomData(s: Core, c: Id, key: Str, value: Str): (e: Effect)
    requires c in s.conns
    ensures Kept(s, e.core)
  {
    if !Hosts(s, c) then NotHosting(s, c)
    else
      var room := s.rooms[RoomOf(s, c)];
      if BadPair(key, value) then Fail(s, c, BAD_ROOM_DATA, key)
      else if value == [] then
        if key !in room.data then Quiet(s)
        else Announce(s, room.(data := room.data - {key}), RoomDataChanged(key, value))
      else if key !in room.data && |room.data| + 1 > MAX_ROOM_KEYS then Fail(s, c, BAD_ROOM_DATA, key)
      else if key in room.data && room.data[key] == value then Quiet(s)
      else Announce(s, room.(data := room.data[key := value]), RoomDataChanged(key, value))
  }

  function HandleSetMemberData(s: Core, c: Id, key: Str, value: Str): (e: Effect)
    requires c in s.conns
    ensures Kept(s, e.core)
  {
    if RoomOf(s, c) !in s.rooms then Fail(s, c, NOT_IN_ROOM, [])
    else if BadPair(key, value) then Fail(s, c, BAD_ROOM_DATA, key)
    else
      var room := s.rooms[RoomOf(s, c)];
      var mine := if c in room.memberData then room.memberData[c] else map[];
      if value == [] then
        if key !in mine then Quiet(s)
        else
          var rest := mine - {key};
          var md := if rest == map[] then room.memberData - {c} else room.memberData[c := rest];
          Announce(s, room.(memberData := md), MemberDataChanged(c, key, value))
      else if key !in mine && |mine| + 1 > MAX_MEMBER_KEYS then Fail(s, c, BAD_ROOM_DATA, key)
      else if key in mine && mine[key] == value then Quiet(s)
      else
        Announce(s, room.(memberData := room.memberData[c := mine[key := value]]),
                 MemberDataChanged(c, key, value))
  }

  /** std::to_string of an id. */
  function Digits(n: nat): Str {
    if n < 10 then [48 + n] else Digits(n / 10) + [48 + n % 10]
  }

  /** Kick and ban refuse the host, strangers and members of other rooms alike. */
  predicate Evictable(s: Core, room: Room, target: Id) {
    target != room.host && target in s.conns && s.conns[target].room == room.id
  }

  function HandleKickMember(s: Core, c: Id, target: Id): (e: Effect)
    requires c in s.conns
    ensures Kept(s, e.core)
  {
    if !Hosts(s, c) then NotHosting(s, c)
    else if !Evictable(s, s.rooms[RoomOf(s, c)], target) then Fail(s, c, NO_SUCH_MEMBER, Digits(target))
    else Remove(s, target, KickedByHost)
  }

  function Barred(room: Room, target: Id): seq<Id> {
    if target in room.banned then room.banned else room.banned + [target]
  }

  function HandleBanMember(s: Core, c: Id, target: Id): (e: Effect)
    requires c in s.conns
    ensures Kept(s, e.core)
  {
    if !Hosts(s, c) then NotHosting(s, c)
    else
      var room := s.rooms[RoomOf(s, c)];
      if !Evictable(s, room, target) then Fail(s, c, NO_SUCH_MEMBER, Digits(target))
      else
        Remove(PutRoom(s, room.(banned := Barred(room, target))), target, BannedByHost)
  }

  function HandleTransferHost(s: Core, c: Id, target: Id): (e: Effect)
    requires c in s.conns
    ensures Kept(s, e.core)
  {
    if !Hosts(s, c) then NotHosting(s, c)
    else if target == c then Quiet(s)
    else
      var room := s.rooms[RoomOf(s, c)];
      if target !in room.members then Fail(s, c, NO_SUCH_MEMBER, Digits(target))
      else Announce(s, room.(host := target), HostChanged(target))
  }

  function HandleSetRoomJoinable(s: Core, c: Id, open: bool): (e: Effect)
    requires c in s.conns
    ensures Kept(s, e.core)
  {
    if !Hosts(s, c) then NotHosting(s, c)
    else
      var room := s.rooms[RoomOf(s, c)];
      if room.open == open then Quiet(s)
      else Announce(s, room.(open := open), RoomAccessChanged(open, room.password != []))
  }

  function HandleSetRoomPassword(s: Core, c: Id, password: Str): (e: Effect)
    requires c in s.conns
    ensures Kept(s, e.core)
  {
    if !Hosts(s, c) then NotHosting(s, c)
    else if |password| > MAX_PASSWORD then Fail(s, c, BAD_PASSWORD, [])
    else
      var room := s.rooms[RoomOf(s, c)];
      var locked := room.(password := password);
      if room.password == password then Quiet(s)
      else if (room.password != []) != (password != []) then
        Announce(s, locked, RoomAccessChanged(room.open, password != []))
      else Effect(PutRoom(s, locked), [])
  }

  /** HandleMessage; `code` is the room code drawn should a room be created. */
  function Handle(s: Core, c: Id, m: Msg, code: Str): (e: Effect)
    requires c in s.conns
    ensures Kept(s, e.core)
  {
    match m
    case Heartbeat(t) => Reply(s, c, Heartbeat(t))
    case CreateRoom => HandleCreateRoom(s, c, code)
    case JoinRoom(id, password) => HandleJoinRoom(s, c, id, password)
    case LeaveRoom => HandleLeaveRoom(s, c)
    case RoomChat(_, text) => HandleRoomChat(s, c, text)
    case P2PSignal(target, kind, payload) => HandleP2PSignal(s, c, target, kind, payload)
    case SetRoomData(key, value) => HandleSetRoomData(s, c, key, value)
    case SetMemberData(key, value) => HandleSetMemberData(s, c, key, value)
    case KickMember(target) => HandleKickMember(s, c, target)
    case BanMember(target) => HandleBanMember(s, c, target)
    case TransferHost(target) => HandleTransferHost(s, c, target)
    case SetRoomJoinable(open) => HandleSetRoomJoinable(s, c, open)
    case SetRoomPassword(password) => HandleSetRoomPassword(s, c, password)
    case _ => Quiet(s)
  }

  // ------------------------------------------------------------------ steps

  datatype Step =
    | Accept
    | Start(c: Id)
    | Receive(c: Id, msg: Msg, code: Str)
    | Disconnect(c: Id)

  /** MakeRoomCode retried until unused: any fresh code of the configured length. */
  predicate FreshCode(s: Core, code: Str) {
    |code| == s.cfg.codeLength && code !in s.rooms
  }

  /** When a step can happen. Ids are assumed not to wrap. */
  predicate Enabled(s: Core, step: Step) {
    match step
    case Accept => s.nextId < 0xFFFF_FFFF
    case Start(c) => c in s.conns && !s.conns[c].started
    case Receive(c, m, code) =>
      && c in s.conns && s.conns[c].started
      && (m.CreateRoom? && RoomOf(s, c) == [] ==> FreshCode(s, code))
    case Disconnect(c) => c in s.conns && s.conns[c].started
  }

  function Perform(s: Core, step: Step): Effect
    requires Enabled(s, step)
  {
    match step
    case Accept => Effect(s.(conns := s.conns[s.nextId := Conn(false, [])], nextId := s.nextId + 1), [])
    case Start(c) =>
      Effect(s.(conns := s.conns[c := s.conns[c].(started := true)]), ToOne(c, [AssignClientId(c), s.cfg.ice]))
    case Receive(c, m, code) => Handle(s, c, m, code)
    case Disconnect(c) =>
      var gone := Depart(s, c);
      Effect(gone.core.(conns := gone.core.conns - {c}), gone.sends)
  }

  function Init(cfg: Config): Core {
    Core(cfg.(codeLength := if cfg.codeLength == 0 then 8 else cfg.codeLength), map[], map[], 1)
  }

  // -------------------------------------------------------------- invariant

  ghost predicate PairsOk(data: map<Str, Str>, cap: nat) {
    |data| <= cap && forall k :: k in data ==> 0 < |k| <= MAX_KEY && 0 < |data[k]| <= MAX_VALUE
  }

  ghost predicate MemberDataOk(md: map<Id, map<Str, Str>>, members: seq<Id>) {
    forall m :: m in md ==> m in members && md[m] != map[] && PairsOk(md[m], MAX_MEMBER_KEYS)
  }

  /** What a room satisfies on its own. */
  ghost predicate RoomOk(r: Room) {
    && r.members != [] && Distinct(r.members)
    && r.host in r.members
    && (forall b :: b in r.banned ==> b !in r.members)
    && PairsOk(r.data, MAX_ROOM_KEYS)
    && MemberDataOk(r.memberData, r.members)
    && |r.password| <= MAX_PASSWORD
  }

  /** Room `k` is filed under its own id, and its members point back at it. */
  ghost predicate RoomAt(s: Core, k: Str) {
    k in s.rooms ==>
      && s.rooms[k].id == k && |k| == s.cfg.codeLength
      && RoomOk(s.rooms[k])
      && forall m :: m in s.rooms[k].members ==> m in s.conns && s.conns[m].room == k
  }

  /** Connection `c` names no room, or an existing room that lists it. */
  ghost predicate ConnAt(s: Core, c: Id) {
    c in s.conns ==>
      && 0 < c < s.nextId
      && (s.conns[c].room != [] ==>
            s.conns[c].started && s.conns[c].room in s.rooms && c in s.rooms[s.conns[c].room].members)
  }

  ghost predicate Inv(s: Core) {
    && 0 < s.nextId && 0 < s.cfg.codeLength && s.cfg.ice.IceServers?
    && (forall k :: RoomAt(s, k))
    && (forall c :: ConnAt(s, c))
  }
}
