/**
 The server as it runs: handlers that update the connection and room tables in
 place and append to outbound queues as they go (Server/src/weyvelength_server.cpp).
 Every method is proved to do what the step function of Rooms says.
 */
module ServerImpl {
  import opened Protocol
  import opened Seqs
  import opened Rooms
  import Replication

  type Queues = map<Id, seq<Msg>>

  /** Every queue grew by exactly what `sends` addresses to it, in order. */
  ghost predicate Grew(before: Queues, after: Queues, sends: seq<Send>) {
    after.Keys == before.Keys && forall c :: c in before ==> after[c] == before[c] + For(sends, c)
  }

  lemma GrewNothing(q: Queues)
    ensures Grew(q, q, [])
  {
  }

  lemma GrewConcat(a: Queues, b: Queues, c: Queues, s: seq<Send>, t: seq<Send>)
    requires Grew(a, b, s) && Grew(b, c, t)
    ensures Grew(a, c, s + t)
  {
    forall x | x in a ensures c[x] == a[x] + For(s + t, x) {
      ForConcat(s, t, x);
      Assoc(a[x], For(s, x), For(t, x));
    }
  }

  lemma ToManySnoc(ids: seq<Id>, i: nat, m: Msg)
    requires i < |ids|
    ensures ToMany(ids[i..], m) == [To(ids[i], m)] + ToMany(ids[i + 1..], m)
  {
    assert ids[i..][1..] == ids[i + 1..];
  }

  class Server {
    const cfg: Config
    var conns: map<Id, Conn>
    var queues: Queues // each connection's outbound queue, as messages
    var rooms: map<Str, Room>
    var nextId: u32

    ghost function State(): Core
      reads this
    {
      Core(cfg, conns, rooms, nextId)
    }

    /** The outcome of a handler: the specified state, and the specified messages queued. */
    ghost predicate Did(before: Queues, e: Effect)
      reads this
    {
      State() == e.core && Grew(before, queues, e.sends)
    }

    /** The two indexes agree, and every connection has a queue. */
    ghost predicate Valid()
      reads this
    {
      Inv(State()) && queues.Keys == conns.Keys
    }

    constructor (config: Config)
      requires config.ice.IceServers?
      ensures State() == Init(config) && queues == map[] && Valid()
    {
      Replication.InitInv(config);
      cfg := config.(codeLength := if config.codeLength == 0 then 8 else config.codeLength);
      conns, queues, rooms, nextId := map[], map[], map[], 1;
    }

    // ------------------------------------------------------------- sending

    method SendTo(id: Id, m: Msg)
      modifies this`queues
      ensures Grew(old(queues), queues, [To(id, m)])
    {
      if id in queues {
        queues := queues[id := queues[id] + [m]];
      }
      forall c | c in queues ensures queues[c] == old(queues)[c] + For([To(id, m)], c) {
        ForCons(To(id, m), [], c);
        assert [To(id, m)] + [] == [To(id, m)];
      }
    }

    method SendToMany(ids: seq<Id>, m: Msg)
      modifies this`queues
      ensures Grew(old(queues), queues, ToMany(ids, m))
    {
      hide ToMany, For;
      ghost var done: seq<Send> := [];
      assert ids[0..] == ids && done + ToMany(ids, m) == ToMany(ids, m);
      GrewNothing(old(queues));
      for i := 0 to |ids|
        invariant done + ToMany(ids[i..], m) == ToMany(ids, m)
        invariant Grew(old(queues), queues, done)
      {
        ghost var mid := queues;
        SendTo(ids[i], m);
        GrewConcat(old(queues), mid, queues, done, [To(ids[i], m)]);
        ToManySnoc(ids, i, m);
        ConcatCons(done, To(ids[i], m), ToMany(ids[i + 1..], m));
        done := done + [To(ids[i], m)];
      }
      ToManyNone(m);
      assert ids[|ids|..] == [] && done + [] == done;
    }

    // ------------------------------------------------------------ the exits

    method LeaveRoom(c: Id)
      requires c in conns
      modifies this
      ensures Did(old(queues), Depart(old(State()), c))
    {
      hide ToMany, For, Kept;
      GrewNothing(queues);
      var id := conns[c].room;
      if id == [] { return; }
      if id in rooms {
        var room := rooms[id];
        room := room.(members := Without(room.members, c));
        room := room.(memberData := room.memberData - {c});
        if room.members == [] {
          rooms := rooms - {id};
        } else {
          SendToMany(room.members, PeerLeft(c));
          if room.host == c {
            room := room.(host := room.members[0]);
            ghost var mid := queues;
            SendToMany(room.members, HostChanged(room.host));
            GrewConcat(old(queues), mid, queues,
                       ToMany(room.members, PeerLeft(c)), ToMany(room.members, HostChanged(room.host)));
          } else {
            assert ToMany(room.members, PeerLeft(c)) + [] == ToMany(room.members, PeerLeft(c));
          }
          rooms := rooms[id := room];
        }
      }
      conns := conns[c := conns[c].(room := [])];
    }

    /** A notice to the leaver, then the common exit path. */
    method Evict(c: Id, why: Msg)
      requires c in conns
      modifies this
      ensures Did(old(queues), Remove(old(State()), c, why))
    {
      hide For, Depart, Kept;
      SendTo(c, why);
      ghost var mid := queues;
      LeaveRoom(c);
      GrewConcat(old(queues), mid, queues, [To(c, why)], Depart(old(State()), c).sends);
    }

    method HandleLeaveRoom(c: Id)
      requires c in conns
      modifies this
      ensures Did(old(queues), Rooms.HandleLeaveRoom(old(State()), c))
    {
      hide For, Remove, Kept;
      if conns[c].room == [] {
        SendTo(c, RoomError(NOT_IN_ROOM, []));
        return;
      }
      Evict(c, PeerLeft(c));
    }

    // ------------------------------------------------------------- entering

    method HandleCreateRoom(c: Id, code: Str)
      requires c in conns
      modifies this
      ensures Did(old(queues), Rooms.HandleCreateRoom(old(State()), c, code))
    {
      hide For, Kept;
      if conns[c].room != [] {
        SendTo(c, RoomError(ALREADY_IN_ROOM, conns[c].room));
        return;
      }
      rooms := rooms[code := Room(code, c, [c], map[], map[], true, [], [])];
      conns := conns[c := conns[c].(room := code)];
      SendTo(c, AssignRoomId(code));
      ghost var mid := queues;
      SendTo(c, HostChanged(c));
      GrewConcat(old(queues), mid, queues, [To(c, AssignRoomId(code))], [To(c, HostChanged(c))]);
      ToOneTwo(c, AssignRoomId(code), HostChanged(c));
      hide ToOne;
    }

    /** One PeerJoined per existing member. */
    method ReplayMembers(c: Id, members: seq<Id>)
      modifies this`queues
      ensures Grew(old(queues), queues, ToOne(c, JoinedEvents(members)))
    {
      hide For, ToOne, JoinedEvents;
      ghost var done: seq<Msg> := [];
      GrewNothing(queues);
      ToOneNone(c);
      assert members[0..] == members && done + JoinedEvents(members) == JoinedEvents(members);
      for i := 0 to |members|
        invariant done + JoinedEvents(members[i..]) == JoinedEvents(members)
        invariant Grew(old(queues), queues, ToOne(c, done))
      {
        ghost var mid := queues;
        SendTo(c, PeerJoined(members[i]));
        GrewConcat(old(queues), mid, queues, ToOne(c, done), [To(c, PeerJoined(members[i]))]);
        ToOneSnoc(c, done, PeerJoined(members[i]));
        JoinedStep(members, i);
        ConcatCons(done, PeerJoined(members[i]), JoinedEvents(members[i + 1..]));
        done := done + [PeerJoined(members[i])];
      }
      JoinedNone();
      assert members[|members|..] == [] && done + [] == done;
    }

    /** One RoomDataChanged per key, in key order. */
    method ReplayData(c: Id, data: map<Str, Str>)
      modifies this`queues
      ensures Grew(old(queues), queues, ToOne(c, DataEvents(data)))
    {
      hide For, ToOne, DataEvents, Least;
      ghost var done: seq<Msg> := [];
      GrewNothing(queues);
      ToOneNone(c);
      var left := data;
      assert done + DataEvents(data) == DataEvents(data);
      while left != map[]
        invariant done + DataEvents(left) == DataEvents(data)
        invariant Grew(old(queues), queues, ToOne(c, done))
        decreases |left|
      {
        var k := Least(left.Keys);
        ghost var mid := queues;
        SendTo(c, RoomDataChanged(k, left[k]));
        GrewConcat(old(queues), mid, queues, ToOne(c, done), [To(c, RoomDataChanged(k, left[k]))]);
        ToOneSnoc(c, done, RoomDataChanged(k, left[k]));
        DataStep(left);
        ConcatCons(done, RoomDataChanged(k, left[k]), DataEvents(left - {k}));
        done := done + [RoomDataChanged(k, left[k])];
        left := left - {k};
      }
      DataStep(left);
      assert done + [] == done;
    }

    /** One MemberDataChanged per key of one member. */
    method ReplayOneMember(c: Id, id: Id, data: map<Str, Str>)
      modifies this`queues
      ensures Grew(old(queues), queues, ToOne(c, OneMemberEvents(id, data)))
    {
      hide For, ToOne, OneMemberEvents, Least;
      ghost var done: seq<Msg> := [];
      GrewNothing(queues);
      ToOneNone(c);
      var left := data;
      assert done + OneMemberEvents(id, data) == OneMemberEvents(id, data);
      while left != map[]
        invariant done + OneMemberEvents(id, left) == OneMemberEvents(id, data)
        invariant Grew(old(queues), queues, ToOne(c, done))
        decreases |left|
      {
        var k := Least(left.Keys);
        ghost var mid := queues;
        SendTo(c, MemberDataChanged(id, k, left[k]));
        GrewConcat(old(queues), mid, queues, ToOne(c, done), [To(c, MemberDataChanged(id, k, left[k]))]);
        ToOneSnoc(c, done, MemberDataChanged(id, k, left[k]));
        OneMemberStep(id, left);
        ConcatCons(done, MemberDataChanged(id, k, left[k]), OneMemberEvents(id, left - {k}));
        done := done + [MemberDataChanged(id, k, left[k])];
        left := left - {k};
      }
      OneMemberStep(id, left);
      assert done + [] == done;
    }

    method ReplayMemberData(c: Id, md: map<Id, map<Str, Str>>)
      modifies this`queues
      ensures Grew(old(queues), queues, ToOne(c, MemberEvents(md)))
    {
      hide For, ToOne, MemberEvents, LeastId, OneMemberEvents;
      ghost var done: seq<Msg> := [];
      GrewNothing(queues);
      ToOneNone(c);
      var left := md;
      assert done + MemberEvents(md) == MemberEvents(md);
      while left != map[]
        invariant done + MemberEvents(left) == MemberEvents(md)
        invariant Grew(old(queues), queues, ToOne(c, done))
        decreases |left|
      {
        var id := LeastId(left.Keys);
        ghost var mid := queues;
        ReplayOneMember(c, id, left[id]);
        GrewConcat(old(queues), mid, queues, ToOne(c, done), ToOne(c, OneMemberEvents(id, left[id])));
        ToOneConcat(c, done, OneMemberEvents(id, left[id]));
        MemberStep(left);
        Assoc(done, OneMemberEvents(id, left[id]), MemberEvents(left - {id}));
        done := done + OneMemberEvents(id, left[id]);
        left := left - {id};
      }
      MemberStep(left);
      assert done + [] == done;
    }

    method HandleJoinRoom(c: Id, id: Str, password: Str)
      requires c in conns
      modifies this
      ensures Did(old(queues), Rooms.HandleJoinRoom(old(State()), c, id, password))
    {
      hide For, Kept, ToMany, ToOne, JoinedEvents, DataEvents, MemberEvents;
      if conns[c].room != [] {
        SendTo(c, RoomError(ALREADY_IN_ROOM, conns[c].room));
        return;
      }
      if id !in rooms {
        SendTo(c, RoomError(NO_SUCH_ROOM, id));
        return;
      }
      var room := rooms[id];
      if c in room.banned {
        SendTo(c, RoomError(BANNED, id));
        return;
      }
      if !room.open {
        SendTo(c, RoomError(ROOM_CLOSED, id));
        return;
      }
      if room.password != [] && password != room.password {
        SendTo(c, RoomError(BAD_PASSWORD, id));
        return;
      }
      SendToMany(room.members, PeerJoined(c));
      ghost var mid := queues;
      Hydrate(c, room, id);
      GrewConcat(old(queues), mid, queues, ToMany(room.members, PeerJoined(c)), ToOne(c, Welcome(room, id)));
      hide Welcome;
      rooms := rooms[id := room.(members := room.members + [c])];
      conns := conns[c := conns[c].(room := id)];
    }

    /** The room as it stands, told to a joiner event by event. */
    method Hydrate(c: Id, room: Room, id: Str)
      modifies this`queues
      ensures Grew(old(queues), queues, ToOne(c, Welcome(room, id)))
    {
      hide For, ToOne, JoinedEvents, DataEvents, MemberEvents, Grew;
      var host, access := HostChanged(room.host), RoomAccessChanged(room.open, room.password != []);
      ghost var q0 := queues;
      SendTo(c, AssignRoomId(id));
      ghost var q1 := queues;
      ToOneNone(c);
      ToOneSnoc(c, [], AssignRoomId(id));
      assert [] + [AssignRoomId(id)] == [AssignRoomId(id)] && [] + [To(c, AssignRoomId(id))] == [To(c, AssignRoomId(id))];
      ReplayMembers(c, room.members);
      ghost var ms := [AssignRoomId(id)] + JoinedEvents(room.members);
      GrewMore(c, q0, q1, queues, [AssignRoomId(id)], JoinedEvents(room.members));
      ghost var q2 := queues;
      SendTo(c, host);
      ghost var q3 := queues;
      SendTo(c, access);
      GrewConcat(q2, q3, queues, [To(c, host)], [To(c, access)]);
      ToOneTwo(c, host, access);
      GrewMore(c, q0, q2, queues, ms, [host, access]);
      ghost var q4 := queues;
      ReplayData(c, room.data);
      GrewMore(c, q0, q4, queues, ms + [host, access], DataEvents(room.data));
      ghost var q5 := queues;
      ReplayMemberData(c, room.memberData);
      GrewMore(c, q0, q5, queues, ms + [host, access] + DataEvents(room.data), MemberEvents(room.memberData));
    }

    // ---------------------------------------------------------- within a room

    method HandleRoomChat(c: Id, text: Str)
      requires c in conns
      modifies this
      ensures Did(old(queues), Rooms.HandleRoomChat(old(State()), c, text))
    {
      if conns[c].room !in rooms {
        SendTo(c, RoomError(NOT_IN_ROOM, []));
        return;
      }
      SendToMany(rooms[conns[c].room].members, RoomChat(c, text));
    }

    method HandleP2PSignal(c: Id, target: Id, kind: byte, payload: Str)
      requires c in conns
      modifies this
      ensures Did(old(queues), Rooms.HandleP2PSignal(old(State()), c, target, kind, payload))
    {
      GrewNothing(queues);
      if conns[c].room !in rooms { return; }
      if target == c || target !in rooms[conns[c].room].members { return; }
      SendTo(target, P2PSignal(c, kind, payload));
    }

    /** Whether `c` hosts its room; if not, the refusal is queued. */
    method HostRoom(c: Id) returns (hosted: bool)
      requires c in conns
      modifies this`queues
      ensures hosted == Hosts(old(State()), c)
      ensures hosted ==> queues == old(queues)
      ensures !hosted ==> Grew(old(queues), queues, NotHosting(old(State()), c).sends)
    {
      if conns[c].room !in rooms {
        SendTo(c, RoomError(NOT_IN_ROOM, []));
        return false;
      }
      if rooms[conns[c].room].host != c {
        SendTo(c, RoomError(NOT_HOST, []));
        return false;
      }
      return true;
    }

    method HandleSetRoomData(c: Id, key: Str, value: Str)
      requires c in conns && (conns[c].room in rooms ==> rooms[conns[c].room].id == conns[c].room)
      modifies this
      ensures Did(old(queues), Rooms.HandleSetRoomData(old(State()), c, key, value))
    {
      hide For, Kept, ToMany;
      GrewNothing(queues);
      var hosted := HostRoom(c);
      if !hosted { return; }
      var id := conns[c].room;
      var room := rooms[id];
      if |key| == 0 || |key| > MAX_KEY || |value| > MAX_VALUE {
        SendTo(c, RoomError(BAD_ROOM_DATA, key));
        return;
      }
      if value == [] {
        if key !in room.data { return; }
        room := room.(data := room.data - {key});
      } else if key !in room.data {
        var before := room.data;
        room := room.(data := room.data[key := value]); // try_emplace inserts first
        InsertedSize(before, key, value);
        if |room.data| > MAX_ROOM_KEYS {
          room := room.(data := room.data - {key});
          SendTo(c, RoomError(BAD_ROOM_DATA, key));
          return;
        }
      } else {
        if room.data[key] == value { return; }
        room := room.(data := room.data[key := value]);
      }
      rooms := rooms[id := room];
      SendToMany(room.members, RoomDataChanged(key, value));
    }

    method HandleSetMemberData(c: Id, key: Str, value: Str)
      requires c in conns && (conns[c].room in rooms ==> rooms[conns[c].room].id == conns[c].room)
      modifies this
      ensures Did(old(queues), Rooms.HandleSetMemberData(old(State()), c, key, value))
    {
      hide For, Kept, ToMany, Rooms.HandleSetMemberData;
      Replication.SetMemberDataOutcome(State(), c, key, value);
      GrewNothing(queues);
      var id := conns[c].room;
      if id !in rooms {
        SendTo(c, RoomError(NOT_IN_ROOM, []));
        return;
      }
      if |key| == 0 || |key| > MAX_KEY || |value| > MAX_VALUE {
        SendTo(c, RoomError(BAD_ROOM_DATA, key));
        return;
      }
      var room := rooms[id];
      var md := room.memberData;
      if value == [] {
        if c !in md || key !in md[c] { return; }
        md := md[c := md[c] - {key}];
        if md[c] == map[] { md := md - {c}; }
        assert md == if room.memberData[c] - {key} == map[] then room.memberData - {c}
                     else room.memberData[c := room.memberData[c] - {key}];
      } else {
        if c !in md { md := md[c := map[]]; } // operator[] creates the entry
        var mine := md[c];
        if key !in mine {
          InsertedSize(mine, key, value);
          if |mine[key := value]| > MAX_MEMBER_KEYS {
            SendTo(c, RoomError(BAD_ROOM_DATA, key));
            return;
          }
        } else if mine[key] == value {
          return;
        }
        md := md[c := mine[key := value]];
        assert md == room.memberData[c := mine[key := value]];
      }
      room := room.(memberData := md);
      rooms := rooms[id := room];
      SendToMany(room.members, MemberDataChanged(c, key, value));
    }

    // ------------------------------------------------------------ host actions

    method HandleKickMember(c: Id, target: Id)
      requires c in conns
      modifies this
      ensures Did(old(queues), Rooms.HandleKickMember(old(State()), c, target))
    {
      hide For, Kept, Remove, Digits;
      var hosted := HostRoom(c);
      if !hosted { return; }
      var room := rooms[conns[c].room];
      if target == room.host || target !in conns || conns[target].room != room.id {
        SendTo(c, RoomError(NO_SUCH_MEMBER, Digits(target)));
        return;
      }
      Evict(target, KickedByHost);
    }

    method HandleBanMember(c: Id, target: Id)
      requires c in conns && (conns[c].room in rooms ==> rooms[conns[c].room].id == conns[c].room)
      modifies this
      ensures Did(old(queues), Rooms.HandleBanMember(old(State()), c, target))
    {
      hide For, Kept, Remove, Digits;
      var hosted := HostRoom(c);
      if !hosted { return; }
      var id := conns[c].room;
      var room := rooms[id];
      if target == room.host || target !in conns || conns[target].room != room.id {
        SendTo(c, RoomError(NO_SUCH_MEMBER, Digits(target)));
        return;
      }
      if target !in room.banned {
        room := room.(banned := room.banned + [target]);
      }
      rooms := rooms[id := room];
      Evict(target, BannedByHost);
    }

    method HandleTransferHost(c: Id, target: Id)
      requires c in conns && (conns[c].room in rooms ==> rooms[conns[c].room].id == conns[c].room)
      modifies this
      ensures Did(old(queues), Rooms.HandleTransferHost(old(State()), c, target))
    {
      hide For, Kept, ToMany, Digits;
      GrewNothing(queues);
      var hosted := HostRoom(c);
      if !hosted { return; }
      if target == c { return; }
      var id := conns[c].room;
      if target !in rooms[id].members {
        SendTo(c, RoomError(NO_SUCH_MEMBER, Digits(target)));
        return;
      }
      rooms := rooms[id := rooms[id].(host := target)];
      SendToMany(rooms[id].members, HostChanged(target));
    }

    method HandleSetRoomJoinable(c: Id, open: bool)
      requires c in conns && (conns[c].room in rooms ==> rooms[conns[c].room].id == conns[c].room)
      modifies this
      ensures Did(old(queues), Rooms.HandleSetRoomJoinable(old(State()), c, open))
    {
      hide For, Kept, ToMany;
      GrewNothing(queues);
      var hosted := HostRoom(c);
      if !hosted { return; }
      var id := conns[c].room;
      if rooms[id].open == open { return; }
      rooms := rooms[id := rooms[id].(open := open)];
      SendToMany(rooms[id].members, RoomAccessChanged(open, rooms[id].password != []));
    }

    method HandleSetRoomPassword(c: Id, password: Str)
      requires c in conns && (conns[c].room in rooms ==> rooms[conns[c].room].id == conns[c].room)
      modifies this
      ensures Did(old(queues), Rooms.HandleSetRoomPassword(old(State()), c, password))
    {
      hide For, Kept, ToMany;
      GrewNothing(queues);
      var hosted := HostRoom(c);
      if !hosted { return; }
      var id := conns[c].room;
      if |password| > MAX_PASSWORD {
        SendTo(c, RoomError(BAD_PASSWORD, []));
        return;
      }
      var wasPassworded := rooms[id].password != [];
      if rooms[id].password == password { return; }
      rooms := rooms[id := rooms[id].(password := password)];
      if wasPassworded != (password != []) {
        SendToMany(rooms[id].members, RoomAccessChanged(rooms[id].open, password != []));
      }
    }

    // --------------------------------------------------------------- dispatch

    /** One whole message from `c`, as ReadLoop hands it over. */
    method HandleMessage(c: Id, m: Msg, code: Str)
      requires Valid() && Enabled(State(), Receive(c, m, code))
      modifies this
      ensures Valid() && Did(old(queues), Perform(old(State()), Receive(c, m, code)))
    {
      assert RoomAt(State(), conns[c].room);
      Replication.StepGood(State(), Receive(c, m, code));
      Dispatch(c, m, code);
      hide Handle, Replication.Tracks;
    }

    method Dispatch(c: Id, m: Msg, code: Str)
      requires c in conns && (conns[c].room in rooms ==> rooms[conns[c].room].id == conns[c].room)
      modifies this
      ensures Did(old(queues), Handle(old(State()), c, m, code))
    {
      hide Did, State, Kept, Rooms.HandleCreateRoom, Rooms.HandleJoinRoom, Rooms.HandleLeaveRoom, Rooms.HandleRoomChat;
      hide Rooms.HandleP2PSignal, Rooms.HandleSetRoomData, Rooms.HandleSetMemberData, Rooms.HandleKickMember;
      hide Rooms.HandleBanMember, Rooms.HandleTransferHost, Rooms.HandleSetRoomJoinable, Rooms.HandleSetRoomPassword;
      if m.Heartbeat? {
        Pong(c, m.timestamp);
      } else if m.CreateRoom? {
        HandleCreateRoom(c, code);
      } else if m.JoinRoom? {
        HandleJoinRoom(c, m.room, m.password);
      } else if m.LeaveRoom? {
        HandleLeaveRoom(c);
      } else if m.RoomChat? {
        HandleRoomChat(c, m.text);
      } else if m.P2PSignal? {
        HandleP2PSignal(c, m.id, m.kind, m.payload);
      } else {
        hide Handle;
        DispatchInRoom(c, m, code);
      }
    }

    method DispatchInRoom(c: Id, m: Msg, code: Str)
      requires c in conns && (conns[c].room in rooms ==> rooms[conns[c].room].id == conns[c].room)
      requires !m.Heartbeat? && !m.CreateRoom? && !m.JoinRoom? && !m.LeaveRoom? && !m.RoomChat? && !m.P2PSignal?
      modifies this
      ensures Did(old(queues), Handle(old(State()), c, m, code))
    {
      hide Did, State, Kept, Rooms.HandleSetRoomData, Rooms.HandleSetMemberData, Rooms.HandleKickMember, Rooms.HandleBanMember;
      if m.SetRoomData? {
        HandleSetRoomData(c, m.key, m.value);
      } else if m.SetMemberData? {
        HandleSetMemberData(c, m.key, m.value);
      } else if m.KickMember? {
        HandleKickMember(c, m.id);
      } else if m.BanMember? {
        HandleBanMember(c, m.id);
      } else {
        hide Handle;
        DispatchSettings(c, m, code);
      }
    }

    method DispatchSettings(c: Id, m: Msg, code: Str)
      requires c in conns && (conns[c].room in rooms ==> rooms[conns[c].room].id == conns[c].room)
      requires !m.Heartbeat? && !m.CreateRoom? && !m.JoinRoom? && !m.LeaveRoom? && !m.RoomChat? && !m.P2PSignal?
      requires !m.SetRoomData? && !m.SetMemberData? && !m.KickMember? && !m.BanMember?
      modifies this
      ensures Did(old(queues), Handle(old(State()), c, m, code))
    {
      hide Did, State, Kept, Rooms.HandleTransferHost, Rooms.HandleSetRoomJoinable, Rooms.HandleSetRoomPassword;
      if m.TransferHost? {
        HandleTransferHost(c, m.id);
      } else if m.SetRoomJoinable? {
        HandleSetRoomJoinable(c, m.open);
      } else if m.SetRoomPassword? {
        HandleSetRoomPassword(c, m.password);
      } else {
        QuietDid();
      }
    }

    method Pong(c: Id, t: u64)
      modifies this`queues
      ensures Did(old(queues), Reply(old(State()), c, Heartbeat(t)))
    {
      SendTo(c, Heartbeat(t));
    }

    lemma QuietDid()
      ensures Did(queues, Quiet(State()))
    {
    }

    // -------------------------------------------------------- session lifetime

    /** AcceptLoop: the next id, not yet greeted. */
    method Accept()
      requires Valid() && Enabled(State(), Step.Accept)
      modifies this
      ensures Valid() && State() == Perform(old(State()), Step.Accept).core
      ensures queues == old(queues)[old(nextId) := []]
    {
      Replication.AcceptGood(State());
      conns := conns[nextId := Conn(false, [])];
      queues := queues[nextId := []];
      nextId := nextId + 1;
    }

    /** The start of Session: the greeting. */
    method Greet(c: Id)
      requires Valid() && Enabled(State(), Start(c))
      modifies this
      ensures Valid() && Did(old(queues), Perform(old(State()), Start(c)))
    {
      Replication.StartGood(State(), c);
      hide For, ToOne;
      conns := conns[c := conns[c].(started := true)];
      SendTo(c, AssignClientId(c));
      ghost var mid := queues;
      SendTo(c, cfg.ice);
      GrewConcat(old(queues), mid, queues, [To(c, AssignClientId(c))], [To(c, cfg.ice)]);
      ToOneTwo(c, AssignClientId(c), cfg.ice);
    }

    /** The end of Session: leave the room, then forget the connection. */
    method Farewell(c: Id)
      requires Valid() && Enabled(State(), Disconnect(c))
      modifies this
      ensures Valid() && State() == Perform(old(State()), Disconnect(c)).core
      ensures queues.Keys == old(queues).Keys - {c}
      ensures forall x :: x in queues ==> queues[x] == old(queues)[x] + For(Perform(old(State()), Disconnect(c)).sends, x)
    {
      hide Depart, For;
      Replication.DisconnectGood(State(), c);
      LeaveRoom(c);
      conns := conns - {c};
      queues := queues - {c};
    }
  }

  lemma InsertedSize(data: map<Str, Str>, key: Str, value: Str)
    requires key !in data
    ensures |data[key := value]| == |data| + 1
  {
    assert data[key := value].Keys == data.Keys + {key};
  }

  /** A further run of messages to the same connection. */
  lemma GrewMore(c: Id, a: Queues, b: Queues, d: Queues, ms: seq<Msg>, ns: seq<Msg>)
    requires Grew(a, b, ToOne(c, ms)) && Grew(b, d, ToOne(c, ns))
    ensures Grew(a, d, ToOne(c, ms + ns))
  {
    hide Grew, ToOne;
    GrewConcat(a, b, d, ToOne(c, ms), ToOne(c, ns));
    ToOneConcat(c, ms, ns);
  }

  // ------------------------------------------------- unfolding, one step each

  lemma ToManyNone(m: Msg)
    ensures ToMany([], m) == []
  {
  }

  lemma ToOneNone(c: Id)
    ensures ToOne(c, []) == []
  {
  }

  lemma ToOneTwo(c: Id, m: Msg, n: Msg)
    ensures ToOne(c, [m, n]) == [To(c, m)] + [To(c, n)]
  {
    assert [m, n][1..] == [n] && [n][1..] == [];
    assert ToOne(c, [n]) == [To(c, n)];
  }

  lemma {:induction false} ToOneConcat(c: Id, ms: seq<Msg>, ns: seq<Msg>)
    ensures ToOne(c, ms + ns) == ToOne(c, ms) + ToOne(c, ns)
  {
    if ms == [] {
      assert ms + ns == ns;
    } else {
      assert (ms + ns)[1..] == ms[1..] + ns;
      ToOneConcat(c, ms[1..], ns);
    }
  }

  lemma ToOneSnoc(c: Id, ms: seq<Msg>, m: Msg)
    ensures ToOne(c, ms + [m]) == ToOne(c, ms) + [To(c, m)]
  {
    ToOneConcat(c, ms, [m]);
    assert [m][1..] == [];
  }

  lemma JoinedNone()
    ensures JoinedEvents([]) == []
  {
  }

  lemma JoinedStep(members: seq<Id>, i: nat)
    requires i < |members|
    ensures JoinedEvents(members[i..]) == [PeerJoined(members[i])] + JoinedEvents(members[i + 1..])
  {
    assert members[i..][1..] == members[i + 1..];
  }

  lemma DataStep(data: map<Str, Str>)
    ensures data == map[] ==> DataEvents(data) == []
    ensures data != map[] ==>
              var k := Least(data.Keys); DataEvents(data) == [RoomDataChanged(k, data[k])] + DataEvents(data - {k})
  {
  }

  lemma OneMemberStep(id: Id, data: map<Str, Str>)
    ensures data == map[] ==> OneMemberEvents(id, data) == []
    ensures data != map[] ==>
              var k := Least(data.Keys);
              OneMemberEvents(id, data) == [MemberDataChanged(id, k, data[k])] + OneMemberEvents(id, data - {k})
  {
  }

  lemma MemberStep(md: map<Id, map<Str, Str>>)
    ensures md == map[] ==> MemberEvents(md) == []
    ensures md != map[] ==>
              var id := LeastId(md.Keys); MemberEvents(md) == OneMemberEvents(id, md[id]) + MemberEvents(md - {id})
  {
  }
}
