/**
 Every server step keeps the two indexes in agreement and queues, for each
 connection, a well-formed stream that turns the connection's view of the old
 state into its view of the new one.
 */
module Replication {
  import opened Protocol
  import opened Seqs
  import opened Replica
  import opened Rooms

  function RoomView(r: Room, c: Id): Cache {
    Cache(c, r.id, r.host, r.open, r.password != [], [c] + Without(r.members, c), r.data, r.memberData)
  }

  /** The cache a fully drained client `c` should hold. */
  function View(s: Core, c: Id): Cache
    requires c in s.conns
  {
    if RoomOf(s, c) in s.rooms then RoomView(s.rooms[RoomOf(s, c)], c)
    else NEW_CACHE.(id := if s.conns[c].started then c else 0)
  }

  ghost predicate TracksFor(s: Core, e: Effect, c: Id) {
    c in s.conns && c in e.core.conns ==> Leads(View(s, c), For(e.sends, c), View(e.core, c))
  }

  ghost predicate Tracks(s: Core, e: Effect) {
    forall c :: TracksFor(s, e, c)
  }

  /** A step outcome that is right for the indexes and for every replica. */
  ghost predicate Good(s: Core, e: Effect) {
    Inv(e.core) && Tracks(s, e)
  }

  lemma QuietGood(s: Core)
    requires Inv(s)
    ensures Good(s, Quiet(s))
  {
  }

  lemma ReplyTracks(s: Core, to: Id, m: Msg)
    requires to in s.conns && Fits(View(s, to), m) && Apply(View(s, to), m) == View(s, to)
    ensures Tracks(s, Reply(s, to, m))
  {
    LeadsOne(View(s, to), m);
    forall c ensures TracksFor(s, Reply(s, to, m), c) {
      assert [To(to, m)][1..] == [];
      assert For([To(to, m)], c) == (if c == to then [m] else []);
    }
  }

  lemma FailTracks(s: Core, to: Id, code: byte, context: Str)
    requires to in s.conns
    ensures Tracks(s, Fail(s, to, code, context))
  {
    ReplyTracks(s, to, RoomError(code, context));
  }

  /** Replacing a room by one with the same members keeps the invariant. */
  lemma PutRoomInv(s: Core, r: Room)
    requires Inv(s) && r.id in s.rooms && RoomOk(r) && r.members == s.rooms[r.id].members
    ensures Inv(PutRoom(s, r))
  {
    var t := PutRoom(s, r);
    forall k ensures RoomAt(t, k) { assert RoomAt(s, k); }
    forall c ensures ConnAt(t, c) { assert ConnAt(s, c); }
  }

  ghost predicate CarriesFor(r: Room, m: Msg, t: Room, x: Id) {
    x in r.members ==> Fits(RoomView(r, x), m) && Apply(RoomView(r, x), m) == RoomView(t, x)
  }

  /** Broadcasting `m` is the right way to tell room `r` that it became `t`. */
  ghost predicate Carries(r: Room, m: Msg, t: Room) {
    t.id == r.id && t.members == r.members && forall x :: CarriesFor(r, m, t, x)
  }

  lemma AnnounceTracks(s: Core, r: Room, m: Msg)
    requires Inv(s) && r.id in s.rooms && Carries(s.rooms[r.id], m, r)
    ensures Tracks(s, Announce(s, r, m))
  {
    var e := Announce(s, r, m);
    assert RoomAt(s, r.id);
    forall c ensures TracksFor(s, e, c) {
      assert ConnAt(s, c);
      if c in s.conns {
        ForToMany(r.members, m, c);
        assert CarriesFor(s.rooms[r.id], m, r, c);
        if c in r.members {
          LeadsOne(RoomView(s.rooms[r.id], c), m);
        }
      }
    }
  }

  lemma AnnounceGood(s: Core, r: Room, m: Msg)
    requires Inv(s) && r.id in s.rooms && RoomOk(r) && Carries(s.rooms[r.id], m, r)
    ensures Good(s, Announce(s, r, m))
  {
    PutRoomInv(s, r);
    AnnounceTracks(s, r, m);
  }

  lemma CreateInv(s: Core, c: Id, code: Str)
    requires Inv(s) && c in s.conns && s.conns[c].started && RoomOf(s, c) == [] && FreshCode(s, code)
    ensures Inv(HandleCreateRoom(s, c, code).core)
  {
    var t := HandleCreateRoom(s, c, code).core;
    forall k ensures RoomAt(t, k) { assert RoomAt(s, k); }
    forall x ensures ConnAt(t, x) { assert ConnAt(s, x); }
  }

  lemma CreateTracks(s: Core, c: Id, code: Str)
    requires Inv(s) && c in s.conns && s.conns[c].started && RoomOf(s, c) == [] && FreshCode(s, code)
    ensures Tracks(s, HandleCreateRoom(s, c, code))
  {
    var e := HandleCreateRoom(s, c, code);
    var ms := [AssignRoomId(code), HostChanged(c)];
    assert RoomAt(s, []) && ConnAt(s, c);
    forall x ensures TracksFor(s, e, x) {
      ForToOne(c, ms, x);
      assert ConnAt(s, x);
      if x == c {
        LeadsTwo(View(s, c), AssignRoomId(code), HostChanged(c));
        assert [c][1..] == [] && [c] + Without([c], c) == [c];
      }
    }
  }

  // -------------------------------------------------------------- hydration

  lemma {:induction false} HydrateMembers(v: Cache, ids: seq<Id>)
    requires v.room != [] && Distinct(ids) && forall i :: i in ids ==> i !in v.members
    ensures Leads(v, JoinedEvents(ids), v.(members := v.members + ids))
    decreases ids
  {
    hide Fold, FitsAll;
    if ids == [] {
      LeadsNone(v);
      assert v.members + ids == v.members;
    } else {
      var w := v.(members := v.members + [ids[0]]);
      HydrateMembers(w, ids[1..]);
      LeadsCons(v, PeerJoined(ids[0]), JoinedEvents(ids[1..]), w.(members := w.members + ids[1..]));
      assert w.members + ids[1..] == v.members + ids;
    }
  }

  ghost predicate Filled(data: map<Str, Str>) {
    forall k :: k in data ==> data[k] != []
  }

  lemma FitsRoomKey(v: Cache, k: Str, value: Str)
    requires v.room != [] && value != [] && k !in v.data
    ensures Fits(v, RoomDataChanged(k, value))
    ensures Apply(v, RoomDataChanged(k, value)) == v.(data := v.data[k := value])
  {
    assert k in v.data[k := value];
  }

  lemma {:induction false} HydrateData(v: Cache, data: map<Str, Str>)
    requires v.room != [] && Filled(data) && data.Keys !! v.data.Keys
    ensures Leads(v, DataEvents(data), v.(data := v.data + data))
    decreases |data|
  {
    hide Fold, FitsAll, Least, Apply, Fits;
    if data == map[] {
      LeadsNone(v);
      assert v.data + data == v.data;
    } else {
      var k := Least(data.Keys);
      var w := v.(data := v.data[k := data[k]]);
      FitsRoomKey(v, k, data[k]);
      HydrateData(w, data - {k});
      MergeStep(v.data, data, k);
      LeadsCons(v, RoomDataChanged(k, data[k]), DataEvents(data - {k}), v.(data := v.data + data));
    }
  }

  function DataOf(md: map<Id, map<Str, Str>>, id: Id): map<Str, Str> {
    if id in md then md[id] else map[]
  }

  /** The cache with `data` merged into one member's map. */
  function WithMember(v: Cache, id: Id, data: map<Str, Str>): Cache {
    v.(memberData := v.memberData[id := DataOf(v.memberData, id) + data])
  }

  lemma WithMemberStep(v: Cache, id: Id, data: map<Str, Str>, k: Str)
    requires k in data
    ensures WithMember(WithMember(v, id, map[k := data[k]]), id, data - {k}) == WithMember(v, id, data)
  {
    var mine := DataOf(v.memberData, id);
    MergeStep(mine, data, k);
    assert mine + map[k := data[k]] == mine[k := data[k]];
  }

  lemma FitsMemberKey(v: Cache, id: Id, k: Str, value: Str)
    requires id in v.members && value != [] && k !in DataOf(v.memberData, id)
    ensures Fits(v, MemberDataChanged(id, k, value))
    ensures Apply(v, MemberDataChanged(id, k, value)) == WithMember(v, id, map[k := value])
    ensures var w := WithMember(v, id, map[k := value]);
            w.room == v.room && w.members == v.members
            && DataOf(w.memberData, id).Keys == DataOf(v.memberData, id).Keys + {k}
  {
    var mine := DataOf(v.memberData, id);
    var after := mine[k := value];
    assert k in after;
    assert mine + map[k := value] == after;
    assert id in v.memberData ==> v.memberData[id] != after;
  }

  lemma {:induction false} HydrateOneMember(v: Cache, id: Id, data: map<Str, Str>)
    requires v.room != [] && id in v.members && Filled(data) && data != map[]
    requires data.Keys !! DataOf(v.memberData, id).Keys
    ensures Leads(v, OneMemberEvents(id, data), WithMember(v, id, data))
    decreases |data|
  {
    hide Fold, FitsAll, Least, Apply, Fits, WithMember, DataOf;
    var k := Least(data.Keys);
    var rest := data - {k};
    var w := WithMember(v, id, map[k := data[k]]);
    FitsMemberKey(v, id, k, data[k]);
    WithMemberStep(v, id, data, k);
    if rest == map[] {
      LeadsNone(w);
      assert data == map[k := data[k]];
    } else {
      HydrateOneMember(w, id, rest);
    }
    LeadsCons(v, MemberDataChanged(id, k, data[k]), OneMemberEvents(id, rest), WithMember(v, id, data));
  }

  lemma WithMemberNew(v: Cache, i: Id, md: map<Id, map<Str, Str>>)
    requires i in md && i !in v.memberData
    ensures WithMember(v, i, md[i]) == v.(memberData := v.memberData[i := md[i]])
    ensures DataOf(v.memberData, i) == map[]
    ensures v.memberData[i := md[i]] + (md - {i}) == v.memberData + md
  {
    MergeEmpty(md[i]);
    MergeStep(v.memberData, md, i);
  }

  lemma {:induction false} HydrateMemberData(v: Cache, md: map<Id, map<Str, Str>>)
    requires v.room != []
    requires md.Keys !! v.memberData.Keys
    requires forall i :: i in md ==> i in v.members && md[i] != map[] && Filled(md[i])
    ensures Leads(v, MemberEvents(md), v.(memberData := v.memberData + md))
    decreases |md|
  {
    hide Fold, FitsAll, LeastId, Apply, Fits, WithMember, DataOf;
    if md == map[] {
      LeadsNone(v);
      assert v.memberData + md == v.memberData;
    } else {
      var i := LeastId(md.Keys);
      var rest := md - {i};
      WithMemberNew(v, i, md);
      var w := v.(memberData := v.memberData[i := md[i]]);
      HydrateOneMember(v, i, md[i]);
      HydrateMemberData(w, rest);
      LeadsConcat(v, OneMemberEvents(i, md[i]), w, MemberEvents(rest), v.(memberData := v.memberData + md));
    }
  }

  /** The first half of the welcome: the member list, the host and the access flags. */
  lemma WelcomeOpens(r: Room, c: Id)
    requires Distinct(r.members) && r.host in r.members && r.id != [] && c !in r.members && c != 0 && r.host != 0
    ensures Leads(NEW_CACHE.(id := c),
                  [AssignRoomId(r.id)] + JoinedEvents(r.members)
                  + [HostChanged(r.host), RoomAccessChanged(r.open, r.password != [])],
                  Cache(c, r.id, r.host, r.open, r.password != [], [c] + r.members, map[], map[]))
  {
    hide Fold, FitsAll, JoinedEvents;
    var v0 := NEW_CACHE.(id := c);
    var v1 := Apply(v0, AssignRoomId(r.id));
    HydrateMembers(v1, r.members);
    var v2 := v1.(members := [c] + r.members);
    LeadsCons(v0, AssignRoomId(r.id), JoinedEvents(r.members), v2);
    LeadsTwo(v2, HostChanged(r.host), RoomAccessChanged(r.open, r.password != []));
    LeadsConcat(v0, [AssignRoomId(r.id)] + JoinedEvents(r.members), v2,
                [HostChanged(r.host), RoomAccessChanged(r.open, r.password != [])],
                v2.(host := r.host, open := r.open, passworded := r.password != []));
  }

  /** The welcome turns an empty cache into the room as the joiner sees it. */
  lemma WelcomeHydrates(r: Room, c: Id)
    requires RoomOk(r) && r.id != [] && c !in r.members && c != 0 && r.host != 0
    ensures Leads(NEW_CACHE.(id := c), Welcome(r, r.id), RoomView(r.(members := r.members + [c]), c))
  {
    hide Fold, FitsAll, JoinedEvents, DataEvents, MemberEvents, Apply, Fits;
    WelcomeOpens(r, c);
    var v0 := NEW_CACHE.(id := c);
    var head := [AssignRoomId(r.id)] + JoinedEvents(r.members)
                + [HostChanged(r.host), RoomAccessChanged(r.open, r.password != [])];
    var v3 := Cache(c, r.id, r.host, r.open, r.password != [], [c] + r.members, map[], map[]);
    HydrateData(v3, r.data);
    MergeEmpty(r.data);
    var v4 := v3.(data := r.data);
    LeadsConcat(v0, head, v3, DataEvents(r.data), v4);
    HydrateMemberData(v4, r.memberData);
    MergeEmpty(r.memberData);
    LeadsConcat(v0, head + DataEvents(r.data), v4, MemberEvents(r.memberData), v4.(memberData := r.memberData));
    WithoutLast(r.members, c, c);
  }

  lemma JoinInv(s: Core, c: Id, id: Str)
    requires Inv(s) && c in s.conns && s.conns[c].started && RoomOf(s, c) == []
    requires id in s.rooms && c !in s.rooms[id].banned
    ensures Inv(Move(s.(rooms := s.rooms[id := s.rooms[id].(members := s.rooms[id].members + [c])]), c, id))
  {
    var t := Move(s.(rooms := s.rooms[id := s.rooms[id].(members := s.rooms[id].members + [c])]), c, id);
    assert RoomAt(s, id);
    forall k ensures RoomAt(t, k) { assert RoomAt(s, k); }
    forall x ensures ConnAt(t, x) { assert ConnAt(s, x); }
  }

  lemma PeerJoinedLeads(r: Room, c: Id, x: Id)
    requires r.id != [] && x in r.members && c !in r.members
    ensures Leads(RoomView(r, x), [PeerJoined(c)], RoomView(r.(members := r.members + [c]), x))
  {
    hide Fold, FitsAll, Without;
    LeadsOne(RoomView(r, x), PeerJoined(c));
    WithoutLast(r.members, c, x);
    assert [x] + (Without(r.members, x) + [c]) == ([x] + Without(r.members, x)) + [c];
  }

  lemma ForJoin(r: Room, c: Id, ms: seq<Msg>, x: Id)
    requires Distinct(r.members) && c !in r.members
    ensures For(ToMany(r.members, PeerJoined(c)) + ToOne(c, ms), x)
         == if x == c then ms else if x in r.members then [PeerJoined(c)] else []
  {
    ForConcat(ToMany(r.members, PeerJoined(c)), ToOne(c, ms), x);
    ForToMany(r.members, PeerJoined(c), x);
    ForToOne(c, ms, x);
  }

  lemma JoinTracks(s: Core, c: Id, id: Str, password: Str)
    requires Inv(s) && c in s.conns && s.conns[c].started && RoomOf(s, c) == [] && id in s.rooms
    requires c !in s.rooms[id].banned && s.rooms[id].open
    requires s.rooms[id].password == [] || s.rooms[id].password == password
    ensures Tracks(s, HandleJoinRoom(s, c, id, password))
  {
    hide Fold, FitsAll, Welcome;
    var e := HandleJoinRoom(s, c, id, password);
    var r := s.rooms[id];
    assert RoomAt(s, id) && RoomAt(s, []) && ConnAt(s, c) && ConnAt(s, r.host);
    WelcomeHydrates(r, c);
    assert Distinct(r.members) && c !in r.members;
    forall x ensures TracksFor(s, e, x) {
      hide RoomOk;
      assert ConnAt(s, x);
      ForJoin(r, c, Welcome(r, id), x);
      if x in r.members {
        PeerJoinedLeads(r, c, x);
      } else if x != c && x in s.conns {
        LeadsNone(View(s, x));
      }
    }
  }

  // ------------------------------------------------------------- departures

  /** Losing one member of several keeps a room sound. */
  lemma BereftOk(r: Room, c: Id)
    requires RoomOk(r) && Without(r.members, c) != []
    ensures RoomOk(Bereft(r, c))
  {
    WithoutDistinct(r.members, c);
  }

  lemma BereftHostStays(r: Room, target: Id)
    requires RoomOk(r) && target != r.host
    ensures r.host in Without(r.members, target)
  {
  }

  lemma DepartRoomAt(s: Core, c: Id, k: Str)
    requires Inv(s) && c in s.conns
    ensures RoomAt(Depart(s, c).core, k)
  {
    var id := RoomOf(s, c);
    assert ConnAt(s, c) && RoomAt(s, k);
    if k == id && k in s.rooms && Without(s.rooms[k].members, c) != [] {
      BereftOk(s.rooms[k], c);
    }
    hide RoomOk, Without;
  }

  lemma DepartConnAt(s: Core, c: Id, x: Id)
    requires Inv(s) && c in s.conns
    ensures ConnAt(Depart(s, c).core, x)
  {
    hide RoomOk, Without;
    assert ConnAt(s, c) && ConnAt(s, x) && RoomAt(s, RoomOf(s, c));
    if RoomOf(s, c) != [] && x in s.rooms[RoomOf(s, c)].members && x != c {
      assert x in Without(s.rooms[RoomOf(s, c)].members, c);
    }
  }

  lemma DepartInv(s: Core, c: Id)
    requires Inv(s) && c in s.conns
    ensures Inv(Depart(s, c).core)
    ensures RoomOf(Depart(s, c).core, c) == []
  {
    forall k ensures RoomAt(Depart(s, c).core, k) { DepartRoomAt(s, c, k); }
    forall x ensures ConnAt(Depart(s, c).core, x) { DepartConnAt(s, c, x); }
    hide RoomAt, ConnAt, Without;
  }

  lemma ForDeparture(r: Room, c: Id, x: Id)
    requires Distinct(r.members) && Without(r.members, c) != []
    ensures For(DepartureEvents(r, c), x)
         == if x == c || x !in r.members then []
            else if r.host == c then [PeerLeft(c), HostChanged(Bereft(r, c).host)]
            else [PeerLeft(c)]
  {
    var left := Bereft(r, c);
    WithoutDistinct(r.members, c);
    ForToMany(left.members, PeerLeft(c), x);
    ForToMany(left.members, HostChanged(left.host), x);
    ForConcat(ToMany(left.members, PeerLeft(c)),
              if r.host == c then ToMany(left.members, HostChanged(left.host)) else [], x);
  }

  /** PeerLeft, and HostChanged after a host's exit, rebuild a remaining member's view. */
  lemma DepartureLeads(r: Room, c: Id, x: Id)
    requires Distinct(r.members) && c in r.members && x in r.members && x != c && r.id != []
    ensures Without(r.members, c) != []
    ensures Leads(RoomView(r, x),
                  if r.host == c then [PeerLeft(c), HostChanged(Bereft(r, c).host)] else [PeerLeft(c)],
                  RoomView(Bereft(r, c), x))
  {
    hide Fold, FitsAll, Without;
    assert x in Without(r.members, c);
    WithoutHead(x, Without(r.members, x), c);
    WithoutCommutes(r.members, x, c);
    var v, left := RoomView(r, x), Bereft(r, c);
    assert left.members[0] in left.members;
    assert Apply(v, PeerLeft(c)).members == [x] + Without(left.members, x);
    if r.host == c {
      LeadsTwo(v, PeerLeft(c), HostChanged(left.host));
    } else {
      LeadsOne(v, PeerLeft(c));
    }
  }

  lemma DepartTracks(s: Core, c: Id, x: Id)
    requires Inv(s) && c in s.conns
    ensures x != c ==> TracksFor(s, Depart(s, c), x)
    ensures For(Depart(s, c).sends, c) == []
  {
    hide Fold, FitsAll, Without, Kept;
    var id := RoomOf(s, c);
    assert ConnAt(s, c) && ConnAt(s, x) && RoomAt(s, id) && RoomAt(s, []);
    if x in s.conns { LeadsNone(View(s, x)); }
    if id != [] {
      var r := s.rooms[id];
      if x in r.members && x != c {
        DepartureLeads(r, c, x);
      }
      if Without(r.members, c) != [] {
        ForDeparture(r, c, x);
        ForDeparture(r, c, c);
      }
    }
  }

  lemma RemoveGood(s: Core, c: Id, why: Msg)
    requires Inv(s) && c in s.conns && RoomOf(s, c) != []
    requires why == PeerLeft(c) || why == KickedByHost || why == BannedByHost
    ensures Good(s, Remove(s, c, why))
  {
    hide Fold, FitsAll, Without, Kept;
    DepartInv(s, c);
    var e := Remove(s, c, why);
    assert ConnAt(s, c) && RoomAt(s, RoomOf(s, c)) && RoomAt(e.core, []);
    forall x ensures TracksFor(s, e, x) {
      DepartTracks(s, c, x);
      ForCons(To(c, why), Depart(s, c).sends, x);
      if x == c {
        LeadsOne(View(s, c), why);
        assert [why] + [] == [why];
      } else {
        assert [] + For(Depart(s, c).sends, x) == For(Depart(s, c).sends, x);
      }
    }
  }

  // --------------------------------------------------------------- handlers

  lemma ChatGood(s: Core, c: Id, text: Str)
    requires Inv(s) && c in s.conns
    ensures Good(s, HandleRoomChat(s, c, text))
  {
    hide Fold, FitsAll;
    assert ConnAt(s, c) && RoomAt(s, RoomOf(s, c));
    FailTracks(s, c, NOT_IN_ROOM, []);
    if RoomOf(s, c) in s.rooms {
      var r := s.rooms[RoomOf(s, c)];
      assert Carries(r, RoomChat(c, text), r) by { hide Inv; }
      AnnounceTracks(s, r, RoomChat(c, text));
      assert PutRoom(s, r) == s;
    }
  }

  lemma SignalGood(s: Core, c: Id, target: Id, kind: byte, payload: Str)
    requires Inv(s) && c in s.conns
    ensures Good(s, HandleP2PSignal(s, c, target, kind, payload))
  {
    assert ConnAt(s, c) && RoomAt(s, RoomOf(s, c)) && RoomAt(s, []);
    QuietGood(s);
    if RoomOf(s, c) in s.rooms && target != c && target in s.rooms[RoomOf(s, c)].members {
      ReplyTracks(s, target, P2PSignal(c, kind, payload));
    }
  }

  lemma PairsGrow(data: map<Str, Str>, cap: nat, key: Str, value: Str)
    requires PairsOk(data, cap) && !BadPair(key, value) && value != [] && (key in data || |data| + 1 <= cap)
    ensures PairsOk(data[key := value], cap)
  {
    assert data[key := value].Keys == data.Keys + {key};
    assert key in data ==> data.Keys + {key} == data.Keys;
  }

  lemma PairsShrink(data: map<Str, Str>, cap: nat, key: Str)
    requires PairsOk(data, cap)
    ensures PairsOk(data - {key}, cap)
  {
    assert (data - {key}).Keys == data.Keys - {key};
  }

  /** Setting or deleting one key stays within the limits. */
  lemma PairsStep(data: map<Str, Str>, cap: nat, key: Str, value: Str)
    requires PairsOk(data, cap) && !BadPair(key, value)
    ensures PairsOk(data - {key}, cap)
    ensures value != [] && (key in data || |data| + 1 <= cap) ==> PairsOk(data[key := value], cap)
  {
    hide PairsOk;
    PairsShrink(data, cap, key);
    if value != [] && (key in data || |data| + 1 <= cap) { PairsGrow(data, cap, key, value); }
  }

  lemma RoomKeyCarries(r: Room, key: Str, value: Str)
    requires r.id != [] && SetKey(r.data, key, value) != r.data
    ensures Carries(r, RoomDataChanged(key, value), r.(data := SetKey(r.data, key, value)))
  {
    hide Without, SetKey;
  }

  lemma RoomKeyOk(r: Room, key: Str, value: Str)
    requires RoomOk(r) && !BadPair(key, value)
    requires value == [] ==> key in r.data
    requires value != [] ==> if key in r.data then r.data[key] != value else |r.data| + 1 <= MAX_ROOM_KEYS
    ensures RoomOk(r.(data := SetKey(r.data, key, value))) && SetKey(r.data, key, value) != r.data
  {
    PairsStep(r.data, MAX_ROOM_KEYS, key, value);
    hide Without, PairsOk, MemberDataOk;
    if value == [] {
      assert key !in SetKey(r.data, key, value);
    } else {
      assert SetKey(r.data, key, value)[key] == value;
    }
  }

  lemma SetRoomDataGood(s: Core, c: Id, key: Str, value: Str)
    requires Inv(s) && c in s.conns
    ensures Good(s, HandleSetRoomData(s, c, key, value))
  {
    hide Tracks, RoomOk, Carries, ToMany;
    assert RoomAt(s, RoomOf(s, c));
    QuietGood(s);
    FailTracks(s, c, NOT_HOST, []);
    FailTracks(s, c, NOT_IN_ROOM, []);
    FailTracks(s, c, BAD_ROOM_DATA, key);
    if Hosts(s, c) && !BadPair(key, value) {
      var r := s.rooms[RoomOf(s, c)];
      if if value == [] then key in r.data
         else if key in r.data then r.data[key] != value else |r.data| + 1 <= MAX_ROOM_KEYS {
        RoomKeyOk(r, key, value);
        RoomKeyCarries(r, key, value);
        AnnounceGood(s, r.(data := SetKey(r.data, key, value)), RoomDataChanged(key, value));
      }
    }
  }

  lemma MemberDataUpdate(md: map<Id, map<Str, Str>>, members: seq<Id>, c: Id, data: map<Str, Str>)
    requires MemberDataOk(md, members) && c in members
    ensures MemberDataOk(md - {c}, members)
    ensures data != map[] && PairsOk(data, MAX_MEMBER_KEYS) ==> MemberDataOk(md[c := data], members)
  {
    hide PairsOk;
  }

  lemma MemberKeyOk(md: map<Id, map<Str, Str>>, members: seq<Id>, c: Id, key: Str, value: Str)
    requires MemberDataOk(md, members) && c in members && !BadPair(key, value)
    requires Announces(DataOf(md, c), key, value)
    ensures MemberDataOk(SetMemberKey(md, c, key, value), members)
  {
    var mine := DataOf(md, c);
    assert PairsOk(mine, MAX_MEMBER_KEYS);
    PairsStep(mine, MAX_MEMBER_KEYS, key, value);
    MemberDataUpdate(md, members, c, mine[key := value]);
    MemberDataUpdate(md, members, c, mine - {key});
    assert key in mine[key := value];
    hide PairsOk, MemberDataOk;
  }

  lemma MemberKeyChanges(md: map<Id, map<Str, Str>>, c: Id, key: Str, value: Str)
    requires value == [] ==> key in DataOf(md, c)
    requires value != [] ==> key !in DataOf(md, c) || DataOf(md, c)[key] != value
    ensures SetMemberKey(md, c, key, value) != md
  {
    var after := SetMemberKey(md, c, key, value);
    if value != [] {
      assert key in DataOf(after, c) && DataOf(after, c)[key] == value;
    } else {
      assert key !in DataOf(after, c);
    }
  }

  /** SetMemberData has something to announce. */
  predicate Announces(mine: map<Str, Str>, key: Str, value: Str) {
    if value == [] then key in mine
    else (key in mine && mine[key] != value) || (key !in mine && |mine| + 1 <= MAX_MEMBER_KEYS)
  }

  /** The server's nested-map update is the one its members will replay; anything else is refused or ignored. */
  lemma SetMemberDataOutcome(s: Core, c: Id, key: Str, value: Str)
    requires c in s.conns
    ensures var e := HandleSetMemberData(s, c, key, value);
            if RoomOf(s, c) !in s.rooms then e == Fail(s, c, NOT_IN_ROOM, [])
            else
              var r := s.rooms[RoomOf(s, c)];
              var mine := DataOf(r.memberData, c);
              if BadPair(key, value) then e == Fail(s, c, BAD_ROOM_DATA, key)
              else if Announces(mine, key, value)
              then e == Announce(s, r.(memberData := SetMemberKey(r.memberData, c, key, value)),
                                 MemberDataChanged(c, key, value))
              else if value == [] || key in mine then e == Quiet(s)
              else e == Fail(s, c, BAD_ROOM_DATA, key)
  {
    hide ToMany, Kept;
  }

  lemma MemberRoomOk(r: Room, c: Id, key: Str, value: Str)
    requires RoomOk(r) && c in r.members && !BadPair(key, value)
    requires Announces(DataOf(r.memberData, c), key, value)
    ensures RoomOk(r.(memberData := SetMemberKey(r.memberData, c, key, value)))
    ensures SetMemberKey(r.memberData, c, key, value) != r.memberData
  {
    MemberKeyOk(r.memberData, r.members, c, key, value);
    MemberKeyChanges(r.memberData, c, key, value);
    hide MemberDataOk, PairsOk, SetMemberKey, DataOf;
  }

  lemma MemberKeyCarries(r: Room, c: Id, key: Str, value: Str)
    requires c in r.members && SetMemberKey(r.memberData, c, key, value) != r.memberData
    ensures Carries(r, MemberDataChanged(c, key, value),
                    r.(memberData := SetMemberKey(r.memberData, c, key, value)))
  {
    hide Without, SetMemberKey;
  }

  lemma SetMemberDataGood(s: Core, c: Id, key: Str, value: Str)
    requires Inv(s) && c in s.conns
    ensures Good(s, HandleSetMemberData(s, c, key, value))
  {
    hide Tracks, RoomOk, Carries, ToMany;
    assert ConnAt(s, c) && RoomAt(s, RoomOf(s, c));
    QuietGood(s);
    FailTracks(s, c, NOT_IN_ROOM, []);
    FailTracks(s, c, BAD_ROOM_DATA, key);
    if RoomOf(s, c) in s.rooms && !BadPair(key, value) {
      var r := s.rooms[RoomOf(s, c)];
      SetMemberDataOutcome(s, c, key, value);
      hide HandleSetMemberData;
      if Announces(DataOf(r.memberData, c), key, value) {
        MemberRoomOk(r, c, key, value);
        MemberKeyCarries(r, c, key, value);
        AnnounceGood(s, r.(memberData := SetMemberKey(r.memberData, c, key, value)), MemberDataChanged(c, key, value));
      }
    }
  }

  lemma KickGood(s: Core, c: Id, target: Id)
    requires Inv(s) && c in s.conns
    ensures Good(s, HandleKickMember(s, c, target))
  {
    hide Fold, FitsAll, Without;
    assert ConnAt(s, c) && RoomAt(s, RoomOf(s, c)) && RoomAt(s, []);
    FailTracks(s, c, NOT_HOST, []);
    FailTracks(s, c, NOT_IN_ROOM, []);
    FailTracks(s, c, NO_SUCH_MEMBER, Digits(target));
    if Hosts(s, c) && Evictable(s, s.rooms[RoomOf(s, c)], target) {
      RemoveGood(s, target, KickedByHost);
    }
  }

  /** A ban is an eviction that also leaves a mark on the surviving room. */
  lemma BanIsMarkedRemoval(s: Core, c: Id, target: Id)
    requires Inv(s) && c in s.conns && Hosts(s, c) && Evictable(s, s.rooms[RoomOf(s, c)], target)
    ensures var e, plain := HandleBanMember(s, c, target), Remove(s, target, BannedByHost);
            var id := RoomOf(s, c);
            && id in plain.core.rooms && e.sends == plain.sends
            && target !in plain.core.rooms[id].members && plain.core.rooms[id].banned == s.rooms[id].banned
            && e.core == PutRoom(plain.core, plain.core.rooms[id].(banned := Barred(s.rooms[id], target)))
  {
    hide Fold, FitsAll, Without, RoomOk;
    var id := RoomOf(s, c);
    assert RoomAt(s, id);
    var r := s.rooms[id];
    assert c in Without(r.members, target) by {
      assert RoomOk(r);
      BereftHostStays(r, target);
    }
  }

  lemma BanGood(s: Core, c: Id, target: Id)
    requires Inv(s) && c in s.conns
    ensures Good(s, HandleBanMember(s, c, target))
  {
    hide Inv, Tracks, Remove, Kept, Digits;
    FailTracks(s, c, NOT_HOST, []);
    FailTracks(s, c, NOT_IN_ROOM, []);
    FailTracks(s, c, NO_SUCH_MEMBER, Digits(target));
    if Hosts(s, c) && Evictable(s, s.rooms[RoomOf(s, c)], target) { MarkGood(s, c, target); }
  }

  lemma MarkGood(s: Core, c: Id, target: Id)
    requires Inv(s) && c in s.conns && Hosts(s, c) && Evictable(s, s.rooms[RoomOf(s, c)], target)
    ensures Good(s, HandleBanMember(s, c, target))
  {
    hide Leads, Without, Remove, Kept;
    var e, plain, id := HandleBanMember(s, c, target), Remove(s, target, BannedByHost), RoomOf(s, c);
    assert RoomOf(s, target) in s.rooms && RoomOf(s, target) != [] by { assert RoomAt(s, id) && RoomAt(s, []); }
    BanIsMarkedRemoval(s, c, target);
    RemoveGood(s, target, BannedByHost);
    hide HandleBanMember;
    assert RoomAt(plain.core, id) && RoomAt(s, id);
    PutRoomInv(plain.core, e.core.rooms[id]);
    hide Inv;
    forall x ensures TracksFor(s, e, x) {
      assert TracksFor(s, plain, x);
      if x in plain.core.conns { MarkUnseen(plain.core, e.core.rooms[id], x); }
    }
  }

  /** Nobody's view shows the ban list. */
  lemma MarkUnseen(s: Core, r: Room, x: Id)
    requires x in s.conns && r.id in s.rooms && r == s.rooms[r.id].(banned := r.banned)
    ensures View(PutRoom(s, r), x) == View(s, x)
  {
    hide Without;
  }

  lemma TransferCarries(r: Room, target: Id)
    requires RoomOk(r) && target in r.members && target != r.host
    ensures RoomOk(r.(host := target)) && Carries(r, HostChanged(target), r.(host := target))
  {
    hide Without;
  }

  lemma TransferGood(s: Core, c: Id, target: Id)
    requires Inv(s) && c in s.conns
    ensures Good(s, HandleTransferHost(s, c, target))
  {
    hide Tracks, RoomOk, Carries, ToMany, Digits;
    assert RoomAt(s, RoomOf(s, c));
    QuietGood(s);
    FailTracks(s, c, NOT_HOST, []);
    FailTracks(s, c, NOT_IN_ROOM, []);
    FailTracks(s, c, NO_SUCH_MEMBER, Digits(target));
    if Hosts(s, c) && target != c && target in s.rooms[RoomOf(s, c)].members {
      TransferCarries(s.rooms[RoomOf(s, c)], target);
      AnnounceGood(s, s.rooms[RoomOf(s, c)].(host := target), HostChanged(target));
    }
  }

  lemma AccessCarries(r: Room, open: bool, password: Str)
    requires RoomOk(r) && r.id != [] && |password| <= MAX_PASSWORD
    ensures var t := r.(open := open, password := password);
            RoomOk(t) && Carries(r, RoomAccessChanged(open, password != []), t)
  {
    hide Without;
  }

  lemma JoinableGood(s: Core, c: Id, open: bool)
    requires Inv(s) && c in s.conns
    ensures Good(s, HandleSetRoomJoinable(s, c, open))
  {
    hide Tracks, Carries, ToMany;
    assert RoomAt(s, RoomOf(s, c));
    QuietGood(s);
    FailTracks(s, c, NOT_HOST, []);
    FailTracks(s, c, NOT_IN_ROOM, []);
    if Hosts(s, c) && s.rooms[RoomOf(s, c)].open != open {
      var r := s.rooms[RoomOf(s, c)];
      AccessCarries(r, open, r.password);
      AnnounceGood(s, r.(open := open), RoomAccessChanged(open, r.password != []));
    }
  }

  lemma PasswordGood(s: Core, c: Id, password: Str)
    requires Inv(s) && c in s.conns
    ensures Good(s, HandleSetRoomPassword(s, c, password))
  {
    hide Fold, FitsAll, Without, RoomOk, Carries, ToMany;
    assert RoomAt(s, RoomOf(s, c));
    QuietGood(s);
    FailTracks(s, c, NOT_HOST, []);
    FailTracks(s, c, NOT_IN_ROOM, []);
    FailTracks(s, c, BAD_PASSWORD, []);
    if Hosts(s, c) && |password| <= MAX_PASSWORD {
      var r := s.rooms[RoomOf(s, c)];
      AccessCarries(r, r.open, password);
      if (r.password != []) != (password != []) {
        AnnounceGood(s, r.(password := password), RoomAccessChanged(r.open, password != []));
      } else if r.password != password {
        PutRoomInv(s, r.(password := password));
        forall x ensures TracksFor(s, HandleSetRoomPassword(s, c, password), x) {
          if x in s.conns { LeadsNone(View(s, x)); }
        }
      }
    }
  }

  lemma JoinGood(s: Core, c: Id, id: Str, password: Str)
    requires Inv(s) && c in s.conns && s.conns[c].started
    ensures Good(s, HandleJoinRoom(s, c, id, password))
  {
    hide Fold, FitsAll, Welcome, ToMany, ToOne;
    FailTracks(s, c, ALREADY_IN_ROOM, RoomOf(s, c));
    FailTracks(s, c, NO_SUCH_ROOM, id);
    FailTracks(s, c, BANNED, id);
    FailTracks(s, c, ROOM_CLOSED, id);
    FailTracks(s, c, BAD_PASSWORD, id);
    if RoomOf(s, c) == [] && id in s.rooms && c !in s.rooms[id].banned && s.rooms[id].open
       && (s.rooms[id].password == [] || password == s.rooms[id].password) {
      JoinInv(s, c, id);
      JoinTracks(s, c, id, password);
    }
  }

  lemma HandleGood(s: Core, c: Id, m: Msg, code: Str)
    requires Inv(s) && Enabled(s, Receive(c, m, code))
    ensures Good(s, Handle(s, c, m, code))
  {
    hide Fold, FitsAll, Inv, Tracks;
    match m {
      case Heartbeat(t) => ReplyTracks(s, c, m);
      case CreateRoom =>
        if RoomOf(s, c) == [] {
          CreateInv(s, c, code);
          CreateTracks(s, c, code);
        } else {
          FailTracks(s, c, ALREADY_IN_ROOM, RoomOf(s, c));
        }
      case JoinRoom(id, password) => JoinGood(s, c, id, password);
      case LeaveRoom =>
        if RoomOf(s, c) == [] { FailTracks(s, c, NOT_IN_ROOM, []); } else { RemoveGood(s, c, PeerLeft(c)); }
      case RoomChat(_, text) => ChatGood(s, c, text);
      case P2PSignal(target, kind, payload) => SignalGood(s, c, target, kind, payload);
      case SetRoomData(key, value) => SetRoomDataGood(s, c, key, value);
      case SetMemberData(key, value) => SetMemberDataGood(s, c, key, value);
      case KickMember(target) => KickGood(s, c, target);
      case BanMember(target) => BanGood(s, c, target);
      case TransferHost(target) => TransferGood(s, c, target);
      case SetRoomJoinable(open) => JoinableGood(s, c, open);
      case SetRoomPassword(password) => PasswordGood(s, c, password);
      case _ => QuietGood(s);
    }
  }

  lemma AcceptGood(s: Core)
    requires Inv(s) && Enabled(s, Accept)
    ensures Good(s, Perform(s, Accept))
    ensures s.nextId !in s.conns && View(Perform(s, Accept).core, s.nextId) == NEW_CACHE
  {
    var t := Perform(s, Accept).core;
    assert ConnAt(s, s.nextId) && RoomAt(s, []);
    forall k ensures RoomAt(t, k) { assert RoomAt(s, k); }
    forall x ensures ConnAt(t, x) { assert ConnAt(s, x); }
  }

  lemma StartGood(s: Core, c: Id)
    requires Inv(s) && Enabled(s, Start(c))
    ensures Good(s, Perform(s, Start(c)))
  {
    hide Fold, FitsAll;
    var e := Perform(s, Start(c));
    assert RoomAt(s, []);
    forall k ensures RoomAt(e.core, k) { assert RoomAt(s, k); }
    forall x ensures ConnAt(e.core, x) { assert ConnAt(s, x); }
    forall x ensures TracksFor(s, e, x) {
      assert ConnAt(s, x) && ConnAt(s, c);
      ForToOne(c, [AssignClientId(c), s.cfg.ice], x);
      if x == c {
        LeadsTwo(View(s, c), AssignClientId(c), s.cfg.ice);
      } else if x in s.conns {
        LeadsNone(View(s, x));
      }
    }
  }

  lemma DisconnectGood(s: Core, c: Id)
    requires Inv(s) && Enabled(s, Disconnect(c))
    ensures Good(s, Perform(s, Disconnect(c)))
  {
    var e := Perform(s, Disconnect(c));
    var gone := Depart(s, c);
    DepartInv(s, c);
    hide Depart;
    forall k ensures RoomAt(e.core, k) { assert RoomAt(gone.core, k) && ConnAt(gone.core, c); }
    forall x ensures ConnAt(e.core, x) { assert ConnAt(gone.core, x); }
    forall x ensures TracksFor(s, e, x) { DepartTracks(s, c, x); }
  }

  /** The server's half of the argument: no step breaks the indexes or a replica. */
  lemma StepGood(s: Core, step: Step)
    requires Inv(s) && Enabled(s, step)
    ensures Good(s, Perform(s, step))
  {
    hide Fold, FitsAll, Inv, Tracks;
    match step {
      case Accept => AcceptGood(s);
      case Start(c) => StartGood(s, c);
      case Receive(c, m, code) => HandleGood(s, c, m, code);
      case Disconnect(c) => DisconnectGood(s, c);
    }
  }

  lemma InitInv(cfg: Config)
    requires cfg.ice.IceServers?
    ensures Inv(Init(cfg))
  {
  }

  lemma NextIdGrows(s: Core, step: Step, c: Id)
    requires Inv(s) && Enabled(s, step)
    ensures Perform(s, step).core.nextId == if step.Accept? then s.nextId + 1 else s.nextId
    ensures Perform(s, step).core.cfg == s.cfg
    ensures c in Perform(s, step).core.conns && !(step.Accept? && c == s.nextId) ==> c in s.conns
  {
    hide Handle, Depart;
  }
}
