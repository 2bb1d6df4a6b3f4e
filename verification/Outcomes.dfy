/**
 Which requests are honoured, and who hears what (Server/src/weyvelength_server.cpp):
 each request has exactly the effect asked for if its sender is entitled to it,
 and otherwise no effect but one error, the first that applies.
 */
module Outcomes {
  import opened Protocol
  import opened Seqs
  import opened Replica
  import opened Rooms
  import opened Replication

  /** Requests made from within a room. */
  predicate InRoom(m: Msg) {
    m.SetRoomData? || m.SetMemberData? || m.KickMember? || m.BanMember? || m.TransferHost?
    || m.SetRoomJoinable? || m.SetRoomPassword? || m.RoomChat?
  }

  /** A write that keeps a map of at most `cap` keys within its limits. */
  predicate Writable(data: map<Str, Str>, cap: nat, key: Str, value: Str) {
    0 < |key| <= MAX_KEY && |value| <= MAX_VALUE && (value == [] || key in data || |data| < cap)
  }

  /** What a member of `r` may ask for; the member list decides who can be evicted or promoted. */
  predicate Entitled(r: Room, c: Id, m: Msg)
    requires InRoom(m)
  {
    match m
    case RoomChat(_, _) => true
    case SetMemberData(key, value) => Writable(DataOf(r.memberData, c), MAX_MEMBER_KEYS, key, value)
    case SetRoomData(key, value) => c == r.host && Writable(r.data, MAX_ROOM_KEYS, key, value)
    case KickMember(x) => c == r.host && x in r.members && x != c
    case BanMember(x) => c == r.host && x in r.members && x != c
    case TransferHost(x) => c == r.host && x in r.members
    case SetRoomJoinable(_) => c == r.host
    case SetRoomPassword(password) => c == r.host && |password| <= MAX_PASSWORD
  }

  function Evicted(r: Room, x: Id): Room {
    r.(members := Without(r.members, x), memberData := r.memberData - {x})
  }

  /** The room as the request wants it; writes are the ones the clients' caches perform. */
  function Wished(r: Room, c: Id, m: Msg): Room {
    match m
    case SetMemberData(key, value) => r.(memberData := SetMemberKey(r.memberData, c, key, value))
    case SetRoomData(key, value) => r.(data := SetKey(r.data, key, value))
    case KickMember(x) => Evicted(r, x)
    case BanMember(x) => Evicted(r, x).(banned := r.banned + [x])
    case TransferHost(x) => r.(host := x)
    case SetRoomJoinable(open) => r.(open := open)
    case SetRoomPassword(password) => r.(password := password)
    case _ => r
  }

  function Notice(due: bool, m: Msg): seq<Msg> {
    if due then [m] else []
  }

  /** What connection `x` is told of an in-room request of `c` that is honoured. */
  function Told(r: Room, c: Id, m: Msg, x: Id): seq<Msg>
    requires InRoom(m)
  {
    var here := x in r.members;
    match m
    case RoomChat(_, text) => Notice(here, RoomChat(c, text))
    case SetMemberData(key, value) => Notice(here && Wished(r, c, m) != r, MemberDataChanged(c, key, value))
    case SetRoomData(key, value) => Notice(here && Wished(r, c, m) != r, RoomDataChanged(key, value))
    case KickMember(y) => Notice(here, if x == y then KickedByHost else PeerLeft(y))
    case BanMember(y) => Notice(here, if x == y then BannedByHost else PeerLeft(y))
    case TransferHost(y) => Notice(here && y != r.host, HostChanged(y))
    case SetRoomJoinable(open) => Notice(here && open != r.open, RoomAccessChanged(open, r.password != []))
    case SetRoomPassword(password) =>
      Notice(here && (password != []) != (r.password != []), RoomAccessChanged(r.open, password != []))
  }

  /** The one error a request earns, if any: the first check that fails, in the order they are made. */
  function Refusal(s: Core, c: Id, m: Msg): (errors: seq<Msg>)
    requires c in s.conns
    ensures |errors| <= 1 && forall i :: 0 <= i < |errors| ==> errors[i].RoomError?
  {
    var k := RoomOf(s, c);
    if m.CreateRoom? then Notice(k != [], RoomError(ALREADY_IN_ROOM, k))
    else if m.LeaveRoom? then Notice(k == [], RoomError(NOT_IN_ROOM, []))
    else if m.JoinRoom? then
      if k != [] then [RoomError(ALREADY_IN_ROOM, k)]
      else if m.room !in s.rooms then [RoomError(NO_SUCH_ROOM, m.room)]
      else
        var r := s.rooms[m.room];
        if c in r.banned then [RoomError(BANNED, m.room)]
        else if !r.open then [RoomError(ROOM_CLOSED, m.room)]
        else Notice(r.password !in [[], m.password], RoomError(BAD_PASSWORD, m.room))
    else if !InRoom(m) then []
    else if k !in s.rooms then [RoomError(NOT_IN_ROOM, [])]
    else
      var r := s.rooms[k];
      if m.RoomChat? then []
      else if m.SetMemberData? then
        Notice(!Writable(DataOf(r.memberData, c), MAX_MEMBER_KEYS, m.key, m.value), RoomError(BAD_ROOM_DATA, m.key))
      else if r.host != c then [RoomError(NOT_HOST, [])]
      else if m.SetRoomData? then
        Notice(!Writable(r.data, MAX_ROOM_KEYS, m.key, m.value), RoomError(BAD_ROOM_DATA, m.key))
      else if m.KickMember? || m.BanMember? then
        Notice(m.id == c || m.id !in r.members, RoomError(NO_SUCH_MEMBER, Digits(m.id)))
      else if m.TransferHost? then Notice(m.id !in r.members, RoomError(NO_SUCH_MEMBER, Digits(m.id)))
      else if m.SetRoomPassword? then Notice(|m.password| > MAX_PASSWORD, RoomError(BAD_PASSWORD, []))
      else []
  }

  /** The number a string of decimal digits denotes. */
  function Value(digits: Str): int {
    if digits == [] then 0 else 10 * Value(digits[..|digits| - 1]) + digits[|digits| - 1] - 48
  }

  /** The id an error quotes is the one that was asked for. */
  lemma {:induction false} DigitsDenote(n: nat)
    ensures Value(Digits(n)) == n
  {
    if n >= 10 {
      DigitsDenote(n / 10);
      assert Digits(n)[..|Digits(n)| - 1] == Digits(n / 10);
    } else {
      assert Digits(n)[..0] == [];
      assert Value([]) == 0;
    }
  }

  /** The answer to one in-room request, in full: who is refused and why, what changes, who is told what. */
  ghost predicate Verdict(s: Core, c: Id, m: Msg, e: Effect)
    requires c in s.conns && InRoom(m)
  {
    var k, refusal := RoomOf(s, c), Refusal(s, c, m);
    && (refusal == [] <==> k in s.rooms && Entitled(s.rooms[k], c, m))
    && if refusal != [] then e == Effect(s, [To(c, refusal[0])])
       else e.core.rooms == s.rooms[k := Wished(s.rooms[k], c, m)]
            && forall x :: For(e.sends, x) == Told(s.rooms[k], c, m, x)
  }

  lemma StillHere(s: Core, k: Str)
    requires k in s.rooms
    ensures s.rooms[k := s.rooms[k]] == s.rooms
  {
  }

  lemma RoomFacts(s: Core, k: Str)
    requires Inv(s) && k in s.rooms
    ensures var r := s.rooms[k];
            k != [] && r.id == k && Distinct(r.members) && r.host in r.members 
            && (forall x :: x in r.banned ==> x !in r.members) && forall x :: x in r.memberData ==> r.memberData[x] != map[]
  {
    assert RoomAt(s, k) && RoomAt(s, []);
  }

  lemma NobodyHears()
    ensures forall x :: For([], x) == []
  {
  }

  lemma MembersHear(s: Core, k: Str, m: Msg)
    requires Inv(s) && k in s.rooms
    ensures forall x :: For(ToMany(s.rooms[k].members, m), x) == Notice(x in s.rooms[k].members, m)
  {
    hide For, ToMany;
    assert RoomAt(s, k);
    forall x ensures For(ToMany(s.rooms[k].members, m), x) == Notice(x in s.rooms[k].members, m) {
      ForToMany(s.rooms[k].members, m, x);
    }
  }

  lemma RoomDataVerdict(s: Core, c: Id, m: Msg)
    requires Inv(s) && c in s.conns && m.SetRoomData?
    ensures Verdict(s, c, m, HandleSetRoomData(s, c, m.key, m.value))
  {
    hide Inv, ToMany, For, Kept;
    var k := RoomOf(s, c);
    NobodyHears();
    if k in s.rooms {
      var r := s.rooms[k];
      RoomFacts(s, k);
      StillHere(s, k);
      assert m.value == [] && m.key !in r.data ==> r.data - {m.key} == r.data;
      assert m.key in r.data && r.data[m.key] == m.value ==> r.data[m.key := m.value] == r.data;
      assert m.value == [] && m.key in r.data ==> m.key !in r.data - {m.key};
      assert m.value != [] && (m.key in r.data ==> r.data[m.key] != m.value) ==> r.data[m.key := m.value] != r.data;
      MembersHear(s, k, RoomDataChanged(m.key, m.value));
    }
  }

  lemma MemberDataSame(md: map<Id, map<Str, Str>>, c: Id, key: Str, value: Str)
    requires forall x :: x in md ==> md[x] != map[]
    requires if value == [] then key !in DataOf(md, c) else key in DataOf(md, c) && DataOf(md, c)[key] == value
    ensures SetMemberKey(md, c, key, value) == md
  {
    if c in md {
      assert value == [] ==> md[c] - {key} == md[c];
      assert value != [] ==> md[c][key := value] == md[c];
    }
  }

  lemma MemberDataVerdict(s: Core, c: Id, m: Msg)
    requires Inv(s) && c in s.conns && m.SetMemberData?
    ensures Verdict(s, c, m, HandleSetMemberData(s, c, m.key, m.value))
  {
    hide Inv, SetMemberKey, HandleSetMemberData, Announce, For, Wished, Told;
    var k := RoomOf(s, c);
    SetMemberDataOutcome(s, c, m.key, m.value);
    if k in s.rooms && Entitled(s.rooms[k], c, m) { MemberWriteHonoured(s, c, m); }
  }

  lemma MemberWriteHonoured(s: Core, c: Id, m: Msg)
    requires Inv(s) && c in s.conns && m.SetMemberData? && RoomOf(s, c) in s.rooms
    requires Entitled(s.rooms[RoomOf(s, c)], c, m)
    ensures var e, k := HandleSetMemberData(s, c, m.key, m.value), RoomOf(s, c);
            && e.core.rooms == s.rooms[k := Wished(s.rooms[k], c, m)]
            && forall x :: For(e.sends, x) == Told(s.rooms[k], c, m, x)
  {
    hide Inv, SetMemberKey, HandleSetMemberData, ToMany, Kept, For;
    var k := RoomOf(s, c);
    var r := s.rooms[k];
    RoomFacts(s, k);
    SetMemberDataOutcome(s, c, m.key, m.value);
    StillHere(s, k);
    NobodyHears();
    MembersHear(s, k, MemberDataChanged(c, m.key, m.value));
    if Announces(DataOf(r.memberData, c), m.key, m.value) {
      MemberKeyChanges(r.memberData, c, m.key, m.value);
    } else {
      MemberDataSame(r.memberData, c, m.key, m.value);
    }
  }

  /** By the index agreement, naming the room in `conns` and being listed are the same. */
  lemma EvictableIsMember(s: Core, k: Str, x: Id)
    requires Inv(s) && k in s.rooms && k != []
    ensures Evictable(s, s.rooms[k], x) <==> x in s.rooms[k].members && x != s.rooms[k].host
  {
    assert RoomAt(s, k) && ConnAt(s, x);
  }

  /** Removing a member who is not the host: the room loses exactly that one, and each member hears of it once. */
  lemma RemoveOutcome(s: Core, k: Str, x: Id, why: Msg)
    requires Inv(s) && k in s.rooms && k != [] && x in s.rooms[k].members && x != s.rooms[k].host
    ensures x in s.conns && Remove(s, x, why).core.rooms == s.rooms[k := Evicted(s.rooms[k], x)]
    ensures forall y :: For(Remove(s, x, why).sends, y)
                     == Notice(y in s.rooms[k].members, if y == x then why else PeerLeft(x))
  {
    hide ToMany, Kept, Without, For, RoomOk, DepartureEvents;
    var r := s.rooms[k];
    assert RoomAt(s, k) && ConnAt(s, x) && RoomAt(s, []);
    RoomFacts(s, k);
    BereftHostStays(r, x);
    hide Inv;
    var gone := DepartureEvents(r, x);
    forall y ensures For([To(x, why)] + gone, y) == Notice(y in r.members, if y == x then why else PeerLeft(x)) {
      ForCons(To(x, why), gone, y);
      ForDeparture(r, x, y);
    }
  }

  lemma EvictVerdict(s: Core, c: Id, m: Msg, code: Str)
    requires Inv(s) && c in s.conns && (m.KickMember? || m.BanMember?)
    ensures Verdict(s, c, m, Handle(s, c, m, code))
  {
    hide Kept, Digits, Remove, For, Wished, Told, Barred;
    var k := RoomOf(s, c);
    if k in s.rooms {
      RoomFacts(s, k);
      EvictableIsMember(s, k, m.id);
      if Entitled(s.rooms[k], c, m) {
        if m.KickMember? { KickHonoured(s, c, m); } else { BanHonoured(s, c, m); }
      }
    } else {
      assert ConnAt(s, c);
    }
    hide Inv;
  }

  lemma KickHonoured(s: Core, c: Id, m: Msg)
    requires Inv(s) && c in s.conns && m.KickMember? && RoomOf(s, c) in s.rooms && Entitled(s.rooms[RoomOf(s, c)], c, m)
    ensures var e, k := HandleKickMember(s, c, m.id), RoomOf(s, c);
            && e.core.rooms == s.rooms[k := Wished(s.rooms[k], c, m)]
            && forall x :: For(e.sends, x) == Told(s.rooms[k], c, m, x)
  {
    hide Kept, Digits, Remove, For, Inv;
    RoomFacts(s, RoomOf(s, c));
    EvictableIsMember(s, RoomOf(s, c), m.id);
    RemoveOutcome(s, RoomOf(s, c), m.id, KickedByHost);
  }

  lemma BanHonoured(s: Core, c: Id, m: Msg)
    requires Inv(s) && c in s.conns && m.BanMember? && RoomOf(s, c) in s.rooms && Entitled(s.rooms[RoomOf(s, c)], c, m)
    ensures var e, k := HandleBanMember(s, c, m.id), RoomOf(s, c);
            && e.core.rooms == s.rooms[k := Wished(s.rooms[k], c, m)]
            && forall x :: For(e.sends, x) == Told(s.rooms[k], c, m, x)
  {
    hide Kept, Digits, Remove, For, Inv, HandleBanMember;
    RoomFacts(s, RoomOf(s, c));
    EvictableIsMember(s, RoomOf(s, c), m.id);
    RemoveOutcome(s, RoomOf(s, c), m.id, BannedByHost);
    BanIsMarkedRemoval(s, c, m.id);
  }

  lemma SettingVerdict(s: Core, c: Id, m: Msg, code: Str)
    requires Inv(s) && c in s.conns && (m.SetRoomJoinable? || m.SetRoomPassword? || m.RoomChat?)
    ensures Verdict(s, c, m, Handle(s, c, m, code))
  {
    hide Inv, ToMany, For, Kept;
    var k := RoomOf(s, c);
    NobodyHears();
    if k in s.rooms {
      var r := s.rooms[k];
      RoomFacts(s, k);
      StillHere(s, k);
      if m.SetRoomJoinable? { MembersHear(s, k, RoomAccessChanged(m.open, r.password != [])); }
      if m.SetRoomPassword? { MembersHear(s, k, RoomAccessChanged(r.open, m.password != [])); }
      if m.RoomChat? { MembersHear(s, k, RoomChat(c, m.text)); }
    }
  }

  lemma TransferVerdict(s: Core, c: Id, m: Msg)
    requires Inv(s) && c in s.conns && m.TransferHost?
    ensures Verdict(s, c, m, HandleTransferHost(s, c, m.id))
  {
    hide Inv, ToMany, For, Kept, Digits;
    var k := RoomOf(s, c);
    NobodyHears();
    if k in s.rooms {
      RoomFacts(s, k);
      StillHere(s, k);
      MembersHear(s, k, HostChanged(m.id));
    }
  }

  /**
   In-room requests: honoured to the letter exactly when the sender is entitled,
   every connection told exactly what it should hear; else refused without
   effect, for the first reason that applies.
   */
  lemma InRoomVerdict(s: Core, c: Id, m: Msg, code: Str)
    requires Inv(s) && c in s.conns && InRoom(m)
    ensures Verdict(s, c, m, Handle(s, c, m, code))
  {
    hide Verdict, Inv, Kept;
    if m.SetRoomData? { RoomDataVerdict(s, c, m); }
    else if m.SetMemberData? { MemberDataVerdict(s, c, m); }
    else if m.KickMember? || m.BanMember? { EvictVerdict(s, c, m, code); }
    else if m.TransferHost? { TransferVerdict(s, c, m); }
    else { SettingVerdict(s, c, m, code); }
  }

  // --------------------------------------------------------------- the doors

  predicate Admits(s: Core, c: Id, k: Str, password: Str)
    requires c in s.conns
  {
    RoomOf(s, c) == [] && k in s.rooms
    && c !in s.rooms[k].banned && s.rooms[k].open && s.rooms[k].password in [[], password]
  }

  /**
   Joining succeeds exactly for the homeless, unbanned bearer of an open room's
   password; the joiner is appended, and its view becomes the room's.
   */
  lemma Admission(s: Core, c: Id, k: Str, password: Str)
    requires Inv(s) && c in s.conns && s.conns[c].started
    ensures var e, refusal := HandleJoinRoom(s, c, k, password), Refusal(s, c, JoinRoom(k, password));
            && (refusal == [] <==> Admits(s, c, k, password))
            && if refusal != [] then e == Effect(s, [To(c, refusal[0])])
               else var r := s.rooms[k].(members := s.rooms[k].members + [c]);
                    e.core.rooms == s.rooms[k := r] && RoomOf(e.core, c) == k && c !in s.rooms[k].members
                    && Fold(View(s, c), For(e.sends, c)) == RoomView(r, c)
  {
    hide Kept, ToMany, ToOne, Welcome, Fold, FitsAll, RoomOk, For;
    assert RoomAt(s, k) && RoomAt(s, []) && ConnAt(s, c);
    if Admits(s, c, k, password) {
      JoinGood(s, c, k, password);
      assert TracksFor(s, HandleJoinRoom(s, c, k, password), c);
    }
    hide Inv;
  }

  /** Whoever is in no room can create one, alone in it and hosting; anyone else is refused. */
  lemma Creation(s: Core, c: Id, code: Str)
    requires Inv(s) && c in s.conns && s.conns[c].started && (RoomOf(s, c) == [] ==> FreshCode(s, code))
    ensures var e := HandleCreateRoom(s, c, code);
            if RoomOf(s, c) != [] then e == Effect(s, [To(c, RoomError(ALREADY_IN_ROOM, RoomOf(s, c)))])
            else var r := Room(code, c, [c], map[], map[], true, [], []);
                 e.core.rooms == s.rooms[code := r] && RoomOf(e.core, c) == code
                 && Fold(View(s, c), For(e.sends, c)) == RoomView(r, c)
  {
    hide Kept, ToOne, Fold, FitsAll, RoomOk, For;
    if RoomOf(s, c) == [] {
      CreateTracks(s, c, code);
      assert TracksFor(s, HandleCreateRoom(s, c, code), c);
    }
    hide Inv;
  }

  /** Asking to leave from nowhere is refused; otherwise the leaver is told first, then departs. */
  lemma Leaving(s: Core, c: Id)
    requires Inv(s) && c in s.conns
    ensures var e := HandleLeaveRoom(s, c);
            if RoomOf(s, c) == [] then e == Effect(s, [To(c, RoomError(NOT_IN_ROOM, []))])
            else e.core == Depart(s, c).core && For(e.sends, c) == [PeerLeft(c)]
  {
    hide Kept, ToMany, DepartureEvents, Without;
    var k := RoomOf(s, c);
    assert ConnAt(s, c) && RoomAt(s, k);
    if k != [] {
      var gone := Depart(s, c).sends;
      ForCons(To(c, PeerLeft(c)), gone, c);
      if Without(s.rooms[k].members, c) != [] { ForDeparture(s.rooms[k], c, c); }
    }
    hide Inv;
  }

  /** Leaving, or losing the connection: the room closes with its last member and otherwise loses only this one. */
  lemma Departure(s: Core, c: Id, k: Str)
    requires Inv(s) && c in s.conns && k == RoomOf(s, c) && k != []
    ensures var t := Depart(s, c).core;
            && RoomOf(t, c) == [] && k in s.rooms
            && (k in t.rooms <==> s.rooms[k].members != [c])
            && (k in t.rooms ==>
                  t.rooms[k] == Evicted(s.rooms[k], c).(host := t.rooms[k].host)
                  && (s.rooms[k].host != c ==> t.rooms[k].host == s.rooms[k].host)
                  && (s.rooms[k].host == c ==> t.rooms[k].host == Without(s.rooms[k].members, c)[0]))
  {
    hide Kept, ToMany;
    assert RoomAt(s, k) && ConnAt(s, c);
    assert RoomOk(s.rooms[k]);
    OnlyMember(s.rooms[k].members, c);
    hide Inv;
  }

  lemma OnlyMember(ms: seq<Id>, c: Id)
    requires Distinct(ms) && c in ms
    ensures Without(ms, c) == [] <==> ms == [c]
  {
    if Without(ms, c) == [] {
      forall x | x in ms ensures x == c { assert x in Without(ms, c) || x == c; }
      if |ms| > 1 { assert false; }
    }
    if ms == [c] { assert ms[1..] == []; }
  }

  // ------------------------------------------------------- who hears what

  /** What a departure of `c` tells another connection. */
  function Farewells(s: Core, c: Id, x: Id): seq<Msg>
    requires c in s.conns
  {
    var k := RoomOf(s, c);
    if k !in s.rooms || x !in s.rooms[k].members || x == c then []
    else [PeerLeft(c)] + Notice(s.rooms[k].host == c, HostChanged(Without(s.rooms[k].members, c)[0]))
  }

  /** Everything `step` queues for connection `x`, in order. */
  function Hears(s: Core, step: Step, x: Id): seq<Msg>
    requires Enabled(s, step)
  {
    match step
    case Accept => []
    case Start(c) => if x == c then [AssignClientId(c), s.cfg.ice] else []
    case Disconnect(c) => Farewells(s, c, x)
    case Receive(c, m, code) =>
      var refusal := Refusal(s, c, m);
      if refusal != [] then (if x == c then refusal else [])
      else if InRoom(m) then Told(s.rooms[RoomOf(s, c)], c, m, x)
      else if m.LeaveRoom? then (if x == c then [PeerLeft(c)] else Farewells(s, c, x))
      else if m.CreateRoom? then (if x == c then [AssignRoomId(code), HostChanged(c)] else [])
      else if m.JoinRoom? then
        (if x == c then Welcome(s.rooms[m.room], m.room) else Notice(x in s.rooms[m.room].members, PeerJoined(c)))
      else if m.P2PSignal? then
        Notice(x == m.id && x != c && RoomOf(s, c) in s.rooms && x in s.rooms[RoomOf(s, c)].members,
               P2PSignal(c, m.kind, m.payload))
      else Notice(m.Heartbeat? && x == c, m)
  }

  lemma ForOne(c: Id, m: Msg, x: Id)
    ensures For([To(c, m)], x) == Notice(x == c, m)
  {
    assert [To(c, m)][1..] == [];
  }

  lemma DepartHeard(s: Core, c: Id, x: Id)
    requires Inv(s) && c in s.conns
    ensures For(Depart(s, c).sends, x) == Farewells(s, c, x)
  {
    hide Kept, For, DepartureEvents, RoomOk;
    var k := RoomOf(s, c);
    assert ConnAt(s, c) && RoomAt(s, k) && RoomAt(s, []);
    NobodyHears();
    if k in s.rooms && Without(s.rooms[k].members, c) != [] {
      RoomFacts(s, k);
      ForDeparture(s.rooms[k], c, x);
    }
    hide Inv;
  }

  lemma LeaveHeard(s: Core, c: Id, x: Id)
    requires Inv(s) && c in s.conns && RoomOf(s, c) != []
    ensures For(HandleLeaveRoom(s, c).sends, x) == if x == c then [PeerLeft(c)] else Farewells(s, c, x)
  {
    hide Kept, For, Depart, Farewells;
    ForCons(To(c, PeerLeft(c)), Depart(s, c).sends, x);
    DepartHeard(s, c, x);
    if x == c { NoFarewellToSelf(s, c); }
    hide Inv;
  }

  lemma NoFarewellToSelf(s: Core, c: Id)
    requires c in s.conns
    ensures Farewells(s, c, c) == []
  {
  }

  lemma JoinHeard(s: Core, c: Id, k: Str, password: Str, x: Id)
    requires Inv(s) && c in s.conns && Admits(s, c, k, password)
    ensures For(HandleJoinRoom(s, c, k, password).sends, x)
         == if x == c then Welcome(s.rooms[k], k) else Notice(x in s.rooms[k].members, PeerJoined(c))
  {
    hide Kept, For, ToMany, ToOne, Welcome, RoomOk;
    assert RoomAt(s, k) && RoomAt(s, []);
    var r := s.rooms[k];
    MembersHear(s, k, PeerJoined(c));
    ForConcat(ToMany(r.members, PeerJoined(c)), ToOne(c, Welcome(r, k)), x);
    ForToOne(c, Welcome(r, k), x);
    hide Inv;
  }

  lemma ReceiveHeard(s: Core, step: Step, x: Id)
    requires Inv(s) && Enabled(s, step) && step.Receive?
    ensures For(Perform(s, step).sends, x) == Hears(s, step, x)
  {
    hide Inv, Kept, For, Told, Wished, Welcome, Farewells, ToOne;
    var c, m := step.c, step.msg;
    NobodyHears();
    var refusal := Refusal(s, c, m);
    if refusal != [] { ForOne(c, refusal[0], x); }
    if InRoom(m) {
      hide Handle, Refusal;
      InRoomVerdict(s, c, m, step.code);
    } else {
      hide Verdict;
      DoorHeard(s, step, x);
    }
  }

  /** Requests made at the door, and what needs no room. */
  lemma DoorHeard(s: Core, step: Step, x: Id)
    requires Inv(s) && Enabled(s, step) && step.Receive? && !InRoom(step.msg)
    ensures For(Perform(s, step).sends, x) == Hears(s, step, x)
  {
    hide Inv, Kept, For, Welcome, Farewells, ToOne;
    var c, m := step.c, step.msg;
    NobodyHears();
    var refusal := Refusal(s, c, m);
    if refusal != [] { ForOne(c, refusal[0], x); }
    if m.LeaveRoom? && refusal == [] {
      hide HandleLeaveRoom;
      LeaveHeard(s, c, x);
    } else if m.CreateRoom? {
      ForToOne(c, [AssignRoomId(step.code), HostChanged(c)], x);
    } else if m.JoinRoom? && refusal == [] {
      hide HandleJoinRoom;
      JoinHeard(s, c, m.room, m.password, x);
    } else if m.P2PSignal? {
      ForOne(m.id, P2PSignal(c, m.kind, m.payload), x);
    } else if m.Heartbeat? {
      ForOne(c, m, x);
    }
  }

  /** Every step queues for every connection exactly what it should hear. */
  lemma HeardExactly(s: Core, step: Step, x: Id)
    requires Inv(s) && Enabled(s, step)
    ensures For(Perform(s, step).sends, x) == Hears(s, step, x)
  {
    hide Depart, For, Farewells, ToOne, Handle;
    match step {
      case Accept => NobodyHears();
      case Start(c) => ForToOne(c, [AssignClientId(c), s.cfg.ice], x);
      case Disconnect(c) => DepartHeard(s, c, x);
      case Receive(_, _, _) => ReceiveHeard(s, step, x);
    }
    hide Inv;
  }

  // -------------------------------------------------- what a message tells

  /** One of the events that describe a room. */
  predicate Narrates(m: Msg) {
    m.AssignRoomId? || m.PeerJoined? || m.HostChanged? || m.RoomAccessChanged? || m.RoomDataChanged? || m.MemberDataChanged?
  }

  ghost predicate NarratesAll(ms: seq<Msg>) {
    forall i :: 0 <= i < |ms| ==> Narrates(ms[i])
  }

  lemma {:induction false} JoinedNarrates(ids: seq<Id>)
    ensures NarratesAll(JoinedEvents(ids))
  {
    if ids != [] { JoinedNarrates(ids[1..]); }
  }

  lemma {:induction false} DataNarrates(data: map<Str, Str>)
    ensures NarratesAll(DataEvents(data))
    decreases |data|
  {
    hide Least;
    if data != map[] { DataNarrates(data - {Least(data.Keys)}); }
  }

  lemma {:induction false} OneMemberNarrates(id: Id, data: map<Str, Str>)
    ensures NarratesAll(OneMemberEvents(id, data))
    decreases |data|
  {
    hide Least;
    if data != map[] { OneMemberNarrates(id, data - {Least(data.Keys)}); }
  }

  lemma {:induction false} MembersNarrate(md: map<Id, map<Str, Str>>)
    ensures NarratesAll(MemberEvents(md))
    decreases |md|
  {
    hide LeastId, OneMemberEvents;
    if md != map[] {
      var id := LeastId(md.Keys);
      OneMemberNarrates(id, md[id]);
      MembersNarrate(md - {id});
    }
  }

  lemma WelcomeNarrates(r: Room, id: Str)
    ensures NarratesAll(Welcome(r, id))
  {
    hide JoinedEvents, DataEvents, MemberEvents;
    JoinedNarrates(r.members);
    DataNarrates(r.data);
    MembersNarrate(r.memberData);
  }

  /** A joiner is told the room's data in ascending key order. */
  lemma {:induction false} DataAscends(data: map<Str, Str>, i: nat, j: nat)
    requires i <= j < |DataEvents(data)|
    ensures var es := DataEvents(data);
            && es[i].RoomDataChanged? && es[j].RoomDataChanged? && Le(es[i].key, es[j].key)
            && es[j].key in data && es[j].value == data[es[j].key]
    decreases |data|
  {
    hide Least;
    var k := Least(data.Keys);
    LeastLeads(data.Keys);
    var rest := data - {k};
    if i > 0 {
      DataAscends(rest, i - 1, j - 1);
    } else if j > 0 {
      DataAscends(rest, j - 1, j - 1);
    } else {
      LeTotal(k, k);
    }
  }

  lemma LeastLeads(keys: set<Str>)
    requires keys != {}
    ensures forall j :: j in keys ==> Le(Least(keys), j)
  {
  }

  lemma {:induction false} OneMemberAscends(id: Id, data: map<Str, Str>, i: nat, j: nat)
    requires i <= j < |OneMemberEvents(id, data)|
    ensures var es := OneMemberEvents(id, data);
            && es[i].MemberDataChanged? && es[j].MemberDataChanged? && es[i].id == es[j].id == id && Le(es[i].key, es[j].key)
            && es[j].key in data && es[j].value == data[es[j].key]
    decreases |data|
  {
    hide Least;
    var k := Least(data.Keys);
    LeastLeads(data.Keys);
    var rest := data - {k};
    if i > 0 {
      OneMemberAscends(id, rest, i - 1, j - 1);
    } else if j > 0 {
      OneMemberAscends(id, rest, j - 1, j - 1);
    } else {
      LeTotal(k, k);
    }
  }

  /** And the members' data in ascending order of member, then of key. */
  lemma {:induction false} MembersAscend(md: map<Id, map<Str, Str>>, i: nat, j: nat)
    requires i <= j < |MemberEvents(md)|
    ensures var es := MemberEvents(md);
            && es[i].MemberDataChanged? && es[j].MemberDataChanged? && es[i].id <= es[j].id
            && (es[i].id == es[j].id ==> Le(es[i].key, es[j].key))
            && es[j].id in md && es[j].key in md[es[j].id] && es[j].value == md[es[j].id][es[j].key]
    decreases |md|
  {
    hide LeastId, OneMemberEvents;
    var id := LeastId(md.Keys);
    LeastIdLeads(md.Keys);
    var n, rest := |OneMemberEvents(id, md[id])|, md - {id};
    if j < n {
      OneMemberAscends(id, md[id], i, j);
    } else if i < n {
      OneMemberAscends(id, md[id], i, i);
      MembersAscend(rest, j - n, j - n);
    } else {
      MembersAscend(rest, i - n, j - n);
    }
  }

  lemma LeastIdLeads(ids: set<Id>)
    requires ids != {}
    ensures forall j :: j in ids ==> LeastId(ids) <= j
  {
  }

  /** Chat, signals, notices, greetings, replies and errors each have one cause. */
  ghost predicate Caused(s: Core, step: Step, x: Id, m: Msg)
    requires Enabled(s, step)
  {
    var asked := if step.Receive? then step.msg else LeaveRoom;
    match m
    case AssignClientId(_) => step == Start(x)
    case IceServers(_, _, _) => step == Start(x)
    case RoomChat(_, _) => step.Receive? && asked.RoomChat?
    case P2PSignal(_, _, _) => step.Receive? && asked.P2PSignal?
    case KickedByHost => step.Receive? && asked == KickMember(x)
    case BannedByHost => step.Receive? && asked == BanMember(x)
    case Heartbeat(_) => step.Receive? && step.c == x && asked == m
    case RoomError(_, _) => step.Receive? && step.c == x && Refusal(s, step.c, asked) == [m]
    case PeerLeft(_) => true
    case _ => Narrates(m)
  }

  lemma HearsCaused(s: Core, step: Step, x: Id, i: nat)
    requires Enabled(s, step) && s.cfg.ice.IceServers? && i < |Hears(s, step, x)|
    ensures Caused(s, step, x, Hears(s, step, x)[i])
  {
    hide Welcome, Digits, Told, Refusal;
    if step.Receive? && Refusal(s, step.c, step.msg) == [] {
      if InRoom(step.msg) {
        HomeKnown(s, step.c, step.msg);
        ToldCaused(s, step, x, i);
      } else if step.msg.JoinRoom? {
        DoorKnown(s, step.c, step.msg);
        WelcomeNarrates(s.rooms[step.msg.room], step.msg.room);
      }
    }
  }

  lemma HomeKnown(s: Core, c: Id, m: Msg)
    requires c in s.conns && InRoom(m) && Refusal(s, c, m) == []
    ensures RoomOf(s, c) in s.rooms
  {
  }

  lemma DoorKnown(s: Core, c: Id, m: Msg)
    requires c in s.conns && m.JoinRoom? && Refusal(s, c, m) == []
    ensures m.room in s.rooms
  {
  }

  lemma ToldCaused(s: Core, step: Step, x: Id, i: nat)
    requires Enabled(s, step) && step.Receive? && InRoom(step.msg) && RoomOf(s, step.c) in s.rooms
    requires i < |Told(s.rooms[RoomOf(s, step.c)], step.c, step.msg, x)|
    ensures Caused(s, step, x, Told(s.rooms[RoomOf(s, step.c)], step.c, step.msg, x)[i])
  {
    hide Refusal, Wished;
  }

  /** Opening and closing sessions, and nothing else, changes who is connected; only a start greets. */
  lemma Sessions(s: Core, step: Step, x: Id)
    requires Inv(s) && Enabled(s, step)
    ensures var t := Perform(s, step).core;
            && t.cfg == s.cfg && t.nextId == s.nextId + (if step.Accept? then 1 else 0)
            && (x in t.conns <==> (x in s.conns && step != Disconnect(x)) || (step.Accept? && x == s.nextId))
            && (x in t.conns ==> (t.conns[x].started <==> step == Start(x) || (x in s.conns && s.conns[x].started)))
  {
    assert ConnAt(s, s.nextId);
    hide Inv;
    match step {
      case Receive(c, m, code) =>
        if x in s.conns { StartedStays(s, c, m, code, x); }
        hide Handle;
      case Disconnect(c) =>
        if x in s.conns { DepartStarted(s, c, x); }
        hide Depart;
      case _ =>
    }
  }

  lemma DepartStarted(s: Core, c: Id, x: Id)
    requires c in s.conns && x in s.conns
    ensures Depart(s, c).core.conns[x].started == s.conns[x].started
  {
  }

  lemma StartedStays(s: Core, c: Id, m: Msg, code: Str, x: Id)
    requires c in s.conns && x in s.conns
    ensures Handle(s, c, m, code).core.conns[x].started == s.conns[x].started
  {
    hide Handle;
    if m.KickMember? || m.BanMember? { EvictStarted(s, c, m, code, x); }
    else if InRoom(m) { SettingsKeepConns(s, c, m, code); }
    else { DoorStarted(s, c, m, code, x); }
  }

  lemma SettingsKeepConns(s: Core, c: Id, m: Msg, code: Str)
    requires c in s.conns && InRoom(m) && !m.KickMember? && !m.BanMember?
    ensures Handle(s, c, m, code).core.conns == s.conns
  {
    hide Digits, ToMany, BadPair, HandleSetMemberData, Kept;
    if m.SetMemberData? { SetMemberDataOutcome(s, c, m.key, m.value); }
  }

  lemma DoorStarted(s: Core, c: Id, m: Msg, code: Str, x: Id)
    requires c in s.conns && x in s.conns && !InRoom(m)
    ensures Handle(s, c, m, code).core.conns[x].started == s.conns[x].started
  {
    hide Depart, Welcome, ToMany, ToOne, Kept;
    DepartStarted(s, c, x);
  }

  lemma EvictStarted(s: Core, c: Id, m: Msg, code: Str, x: Id)
    requires c in s.conns && x in s.conns && (m.KickMember? || m.BanMember?)
    ensures Handle(s, c, m, code).core.conns[x].started == s.conns[x].started
  {
    hide Depart, Digits;
    if m.id in s.conns && RoomOf(s, c) in s.rooms {
      var r := s.rooms[RoomOf(s, c)];
      DepartStarted(s, m.id, x);
      DepartStarted(PutRoom(s, r.(banned := Barred(r, m.id))), m.id, x);
    }
  }
}
