/**
 Who may change what (Server/src/weyvelength_server.cpp): each step touches one
 room, changes it only in ways its sender is entitled to, and speaks only to
 the sender and that room's members.
 */
module Laws {
  import opened Protocol
  import opened Seqs
  import opened Replica
  import opened Rooms
  import opened Replication

  /** The one room a step may touch. */
  function Target(s: Core, step: Step): Str
    requires Enabled(s, step)
  {
    match step
    case Accept => []
    case Start(_) => []
    case Disconnect(c) => RoomOf(s, c)
    case Receive(c, m, code) =>
      if RoomOf(s, c) != [] then RoomOf(s, c)
      else if m.CreateRoom? then code
      else if m.JoinRoom? then m.room
      else []
  }

  predicate FromHost(r: Room, step: Step) {
    step.Receive? && step.c == r.host
  }

  /** Who a step can remove from the room: its sender, or anyone the host evicts. */
  predicate MayRemove(r: Room, step: Step, x: Id) {
    || (step.Disconnect? && step.c == x)
    || (step.Receive? && step.msg.LeaveRoom? && step.c == x)
    || (FromHost(r, step) && x != r.host && (step.msg == KickMember(x) || step.msg == BanMember(x)))
  }

  ghost predicate MembersLaw(r: Room, t: Room, step: Step) {
    || t.members == r.members
    || (step.Receive? && step.msg.JoinRoom? && step.c !in r.members && t.members == r.members + [step.c])
    || (exists x :: x in r.members && MayRemove(r, step, x) && t.members == Without(r.members, x))
  }

  ghost predicate HostLaw(r: Room, t: Room, step: Step) {
    || t.host == r.host
    || (FromHost(r, step) && step.msg == TransferHost(t.host) && t.host in r.members)
    || (r.host !in t.members && t.members != [] && t.host == t.members[0])
  }

  /** The settings only the host may touch; the ban list only grows. */
  ghost predicate SettingsLaw(r: Room, t: Room, step: Step) {
    && (FromHost(r, step)
        || (t.data == r.data && t.open == r.open && t.password == r.password && t.banned == r.banned))
    && r.banned <= t.banned
  }

  /** A member's own data changes only by its own hand, or goes with it. */
  ghost predicate MemberDataLaw(r: Room, t: Room, step: Step) {
    forall x :: x in r.members && x in t.members && DataOf(t.memberData, x) != DataOf(r.memberData, x) ==>
      step.Receive? && step.c == x && step.msg.SetMemberData?
  }

  ghost predicate RoomLaw(r: Room, t: Room, step: Step) {
    t.id == r.id && MembersLaw(r, t, step) && HostLaw(r, t, step)
    && SettingsLaw(r, t, step) && MemberDataLaw(r, t, step)
  }

  /** How the target room may change, appear or vanish. */
  ghost predicate TargetLaw(s: Core, t: Core, step: Step, k: Str) {
    && (k in s.rooms && k in t.rooms ==> RoomLaw(s.rooms[k], t.rooms[k], step))
    && (k !in s.rooms && k in t.rooms ==>
          step.Receive? && step.msg.CreateRoom? && t.rooms[k].members == [step.c] && t.rooms[k].host == step.c)
    && (k in s.rooms && k !in t.rooms ==>
          (step.Disconnect? || (step.Receive? && step.msg.LeaveRoom?)) && s.rooms[k].members == [step.c])
  }

  ghost predicate Elsewhere(s: Core, t: Core, k: Str) {
    forall j :: j != k ==> (j in t.rooms <==> j in s.rooms) && (j in s.rooms ==> t.rooms[j] == s.rooms[j])
  }

  /** Everything queued goes to `c` or to a member of room `k`. */
  ghost predicate Local(s: Core, sends: seq<Send>, c: Id, k: Str) {
    forall i :: 0 <= i < |sends| ==> sends[i].id == c || (k in s.rooms && sends[i].id in s.rooms[k].members)
  }

  ghost predicate Lawful(s: Core, e: Effect, step: Step, k: Str, c: Id) {
    TargetLaw(s, e.core, step, k) && Elsewhere(s, e.core, k) && Local(s, e.sends, c, k)
  }

  lemma {:induction false} LocalToMany(ids: seq<Id>, m: Msg)
    ensures forall i :: 0 <= i < |ToMany(ids, m)| ==> ToMany(ids, m)[i].id in ids
  {
    if ids != [] { LocalToMany(ids[1..], m); }
  }

  lemma {:induction false} LocalToOne(c: Id, ms: seq<Msg>)
    ensures forall i :: 0 <= i < |ToOne(c, ms)| ==> ToOne(c, ms)[i].id == c
  {
    if ms != [] { LocalToOne(c, ms[1..]); }
  }

  /** Refusals and replies change nothing. */
  lemma StillLawful(s: Core, e: Effect, step: Step, k: Str, c: Id)
    requires e.core == s && Local(s, e.sends, c, k)
    ensures Lawful(s, e, step, k, c)
  {
  }

  lemma AnnounceLawful(s: Core, r: Room, m: Msg, step: Step, c: Id)
    requires r.id in s.rooms && r.members == s.rooms[r.id].members && RoomLaw(s.rooms[r.id], r, step)
    ensures Lawful(s, Announce(s, r, m), step, r.id, c)
  {
    LocalToMany(r.members, m);
  }

  lemma LastOne(r: Room, x: Id)
    requires RoomOk(r) && Without(r.members, x) == []
    ensures r.members == [x] && r.host == x
  {
    assert forall y :: y in r.members ==> y == x;
    assert r.members[0] == x;
    assert |r.members| == 1;
  }

  lemma BereftMembers(r: Room, x: Id, step: Step)
    requires x in r.members && MayRemove(r, step, x) && Without(r.members, x) != []
    ensures MembersLaw(r, Bereft(r, x), step)
  {
    hide MayRemove, Without;
  }

  lemma BereftData(r: Room, x: Id, step: Step)
    requires Without(r.members, x) != []
    ensures MemberDataLaw(r, Bereft(r, x), step)
  {
    hide Without;
    assert forall y :: y != x ==> DataOf(r.memberData - {x}, y) == DataOf(r.memberData, y);
    hide DataOf;
  }

  lemma BereftLaw(r: Room, x: Id, step: Step)
    requires x in r.members && MayRemove(r, step, x) && Without(r.members, x) != []
    ensures RoomLaw(r, Bereft(r, x), step)
  {
    hide MembersLaw, MemberDataLaw, MayRemove, Without;
    BereftMembers(r, x, step);
    BereftData(r, x, step);
  }

  lemma DepartureLocal(s: Core, k: Str, x: Id, c: Id)
    requires k in s.rooms && Without(s.rooms[k].members, x) != []
    ensures Local(s, DepartureEvents(s.rooms[k], x), c, k)
  {
    var r := s.rooms[k];
    LocalToMany(Bereft(r, x).members, PeerLeft(x));
    LocalToMany(Bereft(r, x).members, HostChanged(Bereft(r, x).host));
    hide ToMany;
  }

  lemma DepartShape(s: Core, x: Id)
    requires x in s.conns && RoomOf(s, x) in s.rooms && RoomOf(s, x) != []
    ensures var k, e := RoomOf(s, x), Depart(s, x);
            if Without(s.rooms[k].members, x) == [] then e.core.rooms == s.rooms - {k} && e.sends == []
            else e.core.rooms == s.rooms[k := Bereft(s.rooms[k], x)] && e.sends == DepartureEvents(s.rooms[k], x)
  {
    hide Kept;
  }

  /** The common exit path, taken by `x` on behalf of `step`. */
  lemma DepartLawful(s: Core, x: Id, step: Step, c: Id)
    requires Inv(s) && x in s.conns && RoomOf(s, x) in s.rooms
    requires MayRemove(s.rooms[RoomOf(s, x)], step, x)
    ensures Lawful(s, Depart(s, x), step, RoomOf(s, x), c)
  {
    var k := RoomOf(s, x);
    var r := s.rooms[k];
    assert k != [] && x in r.members && RoomOk(r) by { assert RoomAt(s, k) && ConnAt(s, x) && RoomAt(s, []); }
    hide Inv, Depart, RoomLaw, Kept;
    DepartShape(s, x);
    if Without(r.members, x) != [] {
      BereftLaw(r, x, step);
      DepartureLocal(s, k, x, c);
      hide *;
      LawfulPut(s, Depart(s, x), Bereft(r, x), step, k, c);
    } else {
      LastOne(r, x);
      hide RoomOk;
    }
  }

  lemma LawfulPut(s: Core, e: Effect, t: Room, step: Step, k: Str, c: Id)
    requires k in s.rooms && e.core.rooms == s.rooms[k := t] && RoomLaw(s.rooms[k], t, step) && Local(s, e.sends, c, k)
    ensures Lawful(s, e, step, k, c)
  {
    hide RoomLaw, Local;
  }

  lemma RemoveLawful(s: Core, x: Id, why: Msg, step: Step, c: Id)
    requires Inv(s) && x in s.conns && RoomOf(s, x) in s.rooms
    requires MayRemove(s.rooms[RoomOf(s, x)], step, x)
    ensures Lawful(s, Remove(s, x, why), step, RoomOf(s, x), c)
  {
    assert ConnAt(s, x) && RoomAt(s, []);
    DepartLawful(s, x, step, c);
    hide Depart, TargetLaw, Elsewhere;
  }

  lemma CreateLawful(s: Core, step: Step)
    requires Inv(s) && Enabled(s, step) && step.Receive? && step.msg.CreateRoom?
    ensures Lawful(s, Perform(s, step), step, Target(s, step), step.c)
  {
    assert RoomAt(s, []);
    LocalToOne(step.c, [AssignRoomId(step.code), HostChanged(step.c)]);
    hide ToOne, Kept;
  }

  lemma JoinedLaw(r: Room, step: Step)
    requires step.Receive? && step.msg.JoinRoom? && step.c !in r.members
    ensures RoomLaw(r, r.(members := r.members + [step.c]), step)
  {
  }

  lemma JoinLocal(s: Core, k: Str, c: Id)
    requires k in s.rooms
    ensures Local(s, ToMany(s.rooms[k].members, PeerJoined(c)) + ToOne(c, Welcome(s.rooms[k], k)), c, k)
  {
    LocalToMany(s.rooms[k].members, PeerJoined(c));
    LocalToOne(c, Welcome(s.rooms[k], k));
    hide ToMany, ToOne, Welcome;
  }

  lemma JoinLawful(s: Core, step: Step)
    requires Inv(s) && Enabled(s, step) && step.Receive? && step.msg.JoinRoom?
    ensures Lawful(s, Perform(s, step), step, Target(s, step), step.c)
  {
    hide Lawful, RoomLaw, Local, Kept, ToMany, ToOne, Welcome, RoomOk;
    var c, k, id := step.c, Target(s, step), step.msg.room;
    FailLawful(s, step, k, c, ALREADY_IN_ROOM, RoomOf(s, c));
    FailLawful(s, step, k, c, NO_SUCH_ROOM, id);
    FailLawful(s, step, k, c, BANNED, id);
    FailLawful(s, step, k, c, ROOM_CLOSED, id);
    FailLawful(s, step, k, c, BAD_PASSWORD, id);
    if RoomOf(s, c) == [] && id in s.rooms {
      assert c !in s.rooms[id].members by { assert RoomAt(s, id) && RoomAt(s, []); }
      hide Inv, RoomAt;
      JoinedLaw(s.rooms[id], step);
      JoinLocal(s, id, c);
      var e := Perform(s, step);
      if e.core != s { LawfulPut(s, e, s.rooms[id].(members := s.rooms[id].members + [c]), step, id, c); }
    }
  }

  lemma FailLawful(s: Core, step: Step, k: Str, c: Id, code: byte, context: Str)
    ensures Lawful(s, Fail(s, c, code, context), step, k, c) && Lawful(s, Quiet(s), step, k, c)
  {
    StillLawful(s, Fail(s, c, code, context), step, k, c);
    StillLawful(s, Quiet(s), step, k, c);
  }

  /** From within a room, the target is that room; it is filed under its id. */
  lemma HomeTarget(s: Core, step: Step)
    requires Inv(s) && Enabled(s, step) && step.Receive? && RoomOf(s, step.c) in s.rooms
    ensures var k := RoomOf(s, step.c); k != [] && Target(s, step) == k && s.rooms[k].id == k
  {
    assert RoomAt(s, RoomOf(s, step.c)) && RoomAt(s, []);
  }

  lemma KickLawful(s: Core, step: Step)
    requires Inv(s) && Enabled(s, step) && step.Receive? && step.msg.KickMember?
    ensures Lawful(s, Perform(s, step), step, Target(s, step), step.c)
  {
    hide Inv, Kept, Digits, Lawful, Target, Remove;
    var c, x, k := step.c, step.msg.id, Target(s, step);
    FailLawful(s, step, k, c, NOT_HOST, []);
    FailLawful(s, step, k, c, NOT_IN_ROOM, []);
    FailLawful(s, step, k, c, NO_SUCH_MEMBER, Digits(x));
    if Hosts(s, c) {
      HomeTarget(s, step);
      if Evictable(s, s.rooms[k], x) { RemoveLawful(s, x, KickedByHost, step, c); }
    }
  }

  lemma BanLawful(s: Core, step: Step)
    requires Inv(s) && Enabled(s, step) && step.Receive? && step.msg.BanMember?
    ensures Lawful(s, Perform(s, step), step, Target(s, step), step.c)
  {
    hide Inv, Kept, Digits, Lawful, Target, Remove;
    var c, x, k := step.c, step.msg.id, Target(s, step);
    FailLawful(s, step, k, c, NOT_HOST, []);
    FailLawful(s, step, k, c, NOT_IN_ROOM, []);
    FailLawful(s, step, k, c, NO_SUCH_MEMBER, Digits(x));
    if Hosts(s, c) {
      HomeTarget(s, step);
      if Evictable(s, s.rooms[k], x) { MarkedLawful(s, step); }
    }
  }

  lemma MarkedLawful(s: Core, step: Step)
    requires Inv(s) && Enabled(s, step) && step.Receive? && step.msg.BanMember? && Hosts(s, step.c)
    requires Evictable(s, s.rooms[RoomOf(s, step.c)], step.msg.id)
    ensures Lawful(s, HandleBanMember(s, step.c, step.msg.id), step, RoomOf(s, step.c), step.c)
  {
    hide Inv, Kept, Lawful, Target, Remove, RoomLaw;
    var c, x, k := step.c, step.msg.id, RoomOf(s, step.c);
    HomeTarget(s, step);
    var plain, e := Remove(s, x, BannedByHost), HandleBanMember(s, c, x);
    RemoveLawful(s, x, BannedByHost, step, c);
    BanIsMarkedRemoval(s, c, x);
    hide HandleBanMember;
    RemovedLaw(s, step, plain);
    BarredLaw(s.rooms[k], plain.core.rooms[k], step, x);
    MarkLawful(s, plain, e, plain.core.rooms[k].(banned := Barred(s.rooms[k], x)), step, k, c);
  }

  lemma RemovedLaw(s: Core, step: Step, e: Effect)
    requires Enabled(s, step) && step.Receive? && RoomOf(s, step.c) in s.rooms && RoomOf(s, step.c) in e.core.rooms
    requires Lawful(s, e, step, RoomOf(s, step.c), step.c)
    ensures RoomLaw(s.rooms[RoomOf(s, step.c)], e.core.rooms[RoomOf(s, step.c)], step)
  {
    hide RoomLaw;
  }

  lemma MarkLawful(s: Core, plain: Effect, e: Effect, t: Room, step: Step, k: Str, c: Id)
    requires Lawful(s, plain, step, k, c) && k in s.rooms && t.id == k && RoomLaw(s.rooms[k], t, step)
    requires e.core.rooms == plain.core.rooms[k := t] && e.sends == plain.sends
    ensures Lawful(s, e, step, k, c)
  {
    hide RoomLaw, Local;
  }

  lemma BarredLaw(r: Room, t: Room, step: Step, x: Id)
    requires RoomLaw(r, t, step) && FromHost(r, step) && t.banned == r.banned
    ensures RoomLaw(r, t.(banned := Barred(r, x)), step)
  {
  }

  /** What a host may do to its room's data and access settings. */
  lemma HostSets(r: Room, t: Room, step: Step)
    requires FromHost(r, step) && t == r.(data := t.data, open := t.open, password := t.password)
    ensures RoomLaw(r, t, step)
  {
  }

  lemma SetRoomDataLawful(s: Core, step: Step)
    requires Inv(s) && Enabled(s, step) && step.Receive? && step.msg.SetRoomData?
    ensures Lawful(s, Perform(s, step), step, Target(s, step), step.c)
  {
    hide Lawful, Inv, Kept, Target, RoomLaw, Announce;
    var c, k, key, value := step.c, Target(s, step), step.msg.key, step.msg.value;
    FailLawful(s, step, k, c, NOT_HOST, []);
    FailLawful(s, step, k, c, NOT_IN_ROOM, []);
    FailLawful(s, step, k, c, BAD_ROOM_DATA, key);
    if Hosts(s, c) {
      HomeTarget(s, step);
      var r := s.rooms[k];
      HostSets(r, r.(data := r.data - {key}), step);
      HostSets(r, r.(data := r.data[key := value]), step);
      AnnounceLawful(s, r.(data := r.data - {key}), RoomDataChanged(key, value), step, c);
      AnnounceLawful(s, r.(data := r.data[key := value]), RoomDataChanged(key, value), step, c);
    }
  }

  lemma MemberWrites(r: Room, step: Step)
    requires step.Receive? && step.msg.SetMemberData?
    ensures RoomLaw(r, r.(memberData := SetMemberKey(r.memberData, step.c, step.msg.key, step.msg.value)), step)
  {
    var md := SetMemberKey(r.memberData, step.c, step.msg.key, step.msg.value);
    assert forall x :: x != step.c ==> DataOf(md, x) == DataOf(r.memberData, x);
    hide SetMemberKey;
  }

  lemma SetMemberDataLawful(s: Core, step: Step)
    requires Inv(s) && Enabled(s, step) && step.Receive? && step.msg.SetMemberData?
    ensures Lawful(s, Perform(s, step), step, Target(s, step), step.c)
  {
    hide Lawful, Inv, Kept, Target, RoomLaw, Announce, HandleSetMemberData, SetMemberKey;
    var c, k, key, value := step.c, Target(s, step), step.msg.key, step.msg.value;
    FailLawful(s, step, k, c, NOT_IN_ROOM, []);
    FailLawful(s, step, k, c, BAD_ROOM_DATA, key);
    SetMemberDataOutcome(s, c, key, value);
    if RoomOf(s, c) in s.rooms {
      HomeTarget(s, step);
      var r := s.rooms[k];
      MemberWrites(r, step);
      AnnounceLawful(s, r.(memberData := SetMemberKey(r.memberData, c, key, value)), MemberDataChanged(c, key, value), step, c);
    }
  }

  lemma HostGives(r: Room, x: Id, step: Step)
    requires FromHost(r, step) && step.msg == TransferHost(x) && x in r.members
    ensures RoomLaw(r, r.(host := x), step)
  {
  }

  lemma HostSettingLawful(s: Core, step: Step)
    requires Inv(s) && Enabled(s, step) && step.Receive?
    requires step.msg.TransferHost? || step.msg.SetRoomJoinable?
    ensures Lawful(s, Perform(s, step), step, Target(s, step), step.c)
  {
    hide Lawful, Inv, Kept, Target, RoomLaw, Announce, Digits;
    var c, k, m := step.c, Target(s, step), step.msg;
    FailLawful(s, step, k, c, NOT_HOST, []);
    FailLawful(s, step, k, c, NOT_IN_ROOM, []);
    if Hosts(s, c) {
      HomeTarget(s, step);
      var r := s.rooms[k];
      if m.TransferHost? {
        FailLawful(s, step, k, c, NO_SUCH_MEMBER, Digits(m.id));
        if m.id in r.members {
          HostGives(r, m.id, step);
          AnnounceLawful(s, r.(host := m.id), HostChanged(m.id), step, c);
        }
      } else {
        HostSets(r, r.(open := m.open), step);
        AnnounceLawful(s, r.(open := m.open), RoomAccessChanged(m.open, r.password != []), step, c);
      }
    }
  }

  lemma PasswordLawful(s: Core, step: Step)
    requires Inv(s) && Enabled(s, step) && step.Receive? && step.msg.SetRoomPassword?
    ensures Lawful(s, Perform(s, step), step, Target(s, step), step.c)
  {
    hide Lawful, Inv, Kept, Target, RoomLaw, Announce;
    var c, k, password := step.c, Target(s, step), step.msg.password;
    FailLawful(s, step, k, c, NOT_HOST, []);
    FailLawful(s, step, k, c, NOT_IN_ROOM, []);
    FailLawful(s, step, k, c, BAD_PASSWORD, []);
    if Hosts(s, c) {
      HomeTarget(s, step);
      var r := s.rooms[k];
      var t := r.(password := password);
      HostSets(r, t, step);
      AnnounceLawful(s, t, RoomAccessChanged(r.open, password != []), step, c);
      LawfulPut(s, Effect(PutRoom(s, t), []), t, step, k, c);
    }
  }

  lemma ChatterLawful(s: Core, step: Step)
    requires Inv(s) && Enabled(s, step) && step.Receive? && (step.msg.RoomChat? || step.msg.P2PSignal?)
    ensures Lawful(s, Perform(s, step), step, Target(s, step), step.c)
  {
    hide Lawful, Inv, Kept, Target, ToMany;
    if RoomOf(s, step.c) in s.rooms {
      HomeTarget(s, step);
      if step.msg.RoomChat? { LocalToMany(s.rooms[RoomOf(s, step.c)].members, RoomChat(step.c, step.msg.text)); }
    }
    StillLawful(s, Perform(s, step), step, Target(s, step), step.c);
  }

  /** The sender of a step; the newcomer for an accept. */
  function Sender(s: Core, step: Step): Id {
    if step.Accept? then s.nextId else step.c
  }

  /** Every step is lawful: one room, by right, heard only there. */
  lemma StepLawful(s: Core, step: Step)
    requires Inv(s) && Enabled(s, step)
    ensures Lawful(s, Perform(s, step), step, Target(s, step), Sender(s, step))
  {
    hide Lawful, Inv, Perform;
    if !step.Receive? { SessionLawful(s, step); }
    else {
      var m := step.msg;
      if m.CreateRoom? { CreateLawful(s, step); }
      else if m.JoinRoom? { JoinLawful(s, step); }
      else if m.KickMember? { KickLawful(s, step); }
      else if m.BanMember? { BanLawful(s, step); }
      else if m.RoomChat? || m.P2PSignal? { ChatterLawful(s, step); }
      else if m.SetRoomData? { SetRoomDataLawful(s, step); }
      else if m.SetMemberData? { SetMemberDataLawful(s, step); }
      else if m.TransferHost? || m.SetRoomJoinable? { HostSettingLawful(s, step); }
      else if m.SetRoomPassword? { PasswordLawful(s, step); }
      else if m.LeaveRoom? && RoomOf(s, step.c) != [] { LeaveLawful(s, step); }
      else { RestLawful(s, step); }
    }
  }

  lemma SessionLawful(s: Core, step: Step)
    requires Inv(s) && Enabled(s, step) && !step.Receive?
    ensures Lawful(s, Perform(s, step), step, Target(s, step), Sender(s, step))
  {
    hide Depart, RoomLaw;
    match step {
      case Accept => StillRooms(s, step);
      case Start(c) =>
        LocalToOne(c, [AssignClientId(c), s.cfg.ice]);
        StillRooms(s, step);
      case Disconnect(c) =>
        assert ConnAt(s, c) && RoomAt(s, []);
        if RoomOf(s, c) != [] { DepartLawful(s, c, step, c); } else { DepartNowhere(s, c); }
    }
    hide Inv, ToOne;
  }

  lemma DepartNowhere(s: Core, c: Id)
    requires c in s.conns && RoomOf(s, c) == []
    ensures Depart(s, c) == Quiet(s)
  {
  }

  lemma LeaveLawful(s: Core, step: Step)
    requires Inv(s) && Enabled(s, step) && step.Receive? && step.msg.LeaveRoom? && RoomOf(s, step.c) != []
    ensures Lawful(s, Perform(s, step), step, Target(s, step), step.c)
  {
    hide Lawful, Remove;
    assert ConnAt(s, step.c);
    RemoveLawful(s, step.c, PeerLeft(step.c), step, step.c);
    hide Inv;
  }

  lemma StillRooms(s: Core, step: Step)
    requires Inv(s) && Enabled(s, step) && (step.Accept? || step.Start?)
    ensures TargetLaw(s, Perform(s, step).core, step, []) && Elsewhere(s, Perform(s, step).core, [])
  {
    assert RoomAt(s, []);
  }

  lemma RestLawful(s: Core, step: Step)
    requires Inv(s) && Enabled(s, step) && step.Receive? && step.msg != CreateRoom
    requires !step.msg.JoinRoom? && !step.msg.KickMember? && !step.msg.BanMember? && !step.msg.RoomChat?
    requires !step.msg.P2PSignal? && !step.msg.SetRoomData? && !step.msg.SetMemberData?
    requires !step.msg.TransferHost? && !step.msg.SetRoomJoinable? && !step.msg.SetRoomPassword?
    requires step.msg.LeaveRoom? ==> RoomOf(s, step.c) == []
    ensures Lawful(s, Perform(s, step), step, Target(s, step), step.c)
  {
    StillLawful(s, Perform(s, step), step, Target(s, step), step.c);
  }

  lemma {:induction false} LocalFor(s: Core, sends: seq<Send>, c: Id, k: Str, x: Id)
    requires Local(s, sends, c, k) && x != c && !(k in s.rooms && x in s.rooms[k].members)
    ensures For(sends, x) == []
  {
    if sends != [] { LocalFor(s, sends[1..], c, k, x); }
  }

  /** A step leaves every other room, and every outsider's queue, untouched. */
  lemma Isolation(s: Core, step: Step, x: Id, j: Str)
    requires Inv(s) && Enabled(s, step)
    ensures var e, k := Perform(s, step), Target(s, step);
            && (j != k ==> (j in e.core.rooms <==> j in s.rooms) && (j in s.rooms ==> e.core.rooms[j] == s.rooms[j]))
            && (x != Sender(s, step) && !(k in s.rooms && x in s.rooms[k].members) ==> For(e.sends, x) == [])
  {
    hide Perform;
    StepLawful(s, step);
    var k := Target(s, step);
    if x != Sender(s, step) && !(k in s.rooms && x in s.rooms[k].members) {
      LocalFor(s, Perform(s, step).sends, Sender(s, step), k, x);
    }
  }
}
