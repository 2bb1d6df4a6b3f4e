/** No reply outgrows the reader it is meant for, and no metadata message needs a second frame. */
module Sizes {
  import opened Protocol
  import opened Seqs
  import opened Codec
  import opened Framing
  import opened Readers
  import opened Rooms

  /** Bytes of a message body on the wire; the ICE list is measured by its encoding. */
  function WireSize(m: Msg): nat {
    match m
    case Heartbeat(_) => 9
    case AssignClientId(_) => 5
    case AssignRoomId(room) => 5 + |room|
    case CreateRoom => 1
    case JoinRoom(room, password) => 9 + |room| + |password|
    case RoomError(_, context) => 6 + |context|
    case RoomChat(_, text) => 9 + |text|
    case LeaveRoom => 1
    case PeerJoined(_) => 5
    case PeerLeft(_) => 5
    case HostChanged(_) => 5
    case SetRoomData(key, value) => 9 + |key| + |value|
    case RoomDataChanged(key, value) => 9 + |key| + |value|
    case SetMemberData(key, value) => 9 + |key| + |value|
    case MemberDataChanged(_, key, value) => 13 + |key| + |value|
    case KickMember(_) => 5
    case TransferHost(_) => 5
    case SetRoomJoinable(_) => 2
    case SetRoomPassword(password) => 5 + |password|
    case KickedByHost => 1
    case RoomAccessChanged(_, _) => 3
    case BanMember(_) => 5
    case BannedByHost => 1
    case P2PSignal(_, _, payload) => 10 + |payload|
    case IceServers(_, _, _) => |Encode(m)|
  }

  lemma WireSizeIsEncoded(m: Msg)
    ensures |Encode(m)| == WireSize(m)
  {
    EncodedLength(Members(m));
    LengthShort(Members(m));
    hide EncodeFields, FieldsLength, Tag;
  }

  lemma {:induction false} DigitsLength(n: nat, k: nat)
    requires n < Pow10(k) && 0 < k
    ensures |Digits(n)| <= k
    decreases k
  {
    if n >= 10 { DigitsLength(n / 10, k - 1); }
  }

  function Pow10(k: nat): nat {
    if k == 0 then 1 else 10 * Pow10(k - 1)
  }

  lemma IdDigits(id: Id)
    ensures |Digits(id)| <= 10
  {
    assert Pow10(3) == 1000 && Pow10(6) == 1000 * Pow10(3) && Pow10(9) == 1000 * Pow10(6) && Pow10(10) == 10 * Pow10(9);
    DigitsLength(id, 10);
  }

  predicate Small(m: Msg) {
    WireSize(m) <= MAX_REASSEMBLED
  }

  ghost predicate SmallAll(ms: seq<Msg>) {
    forall i :: 0 <= i < |ms| ==> Small(ms[i])
  }

  ghost predicate SmallSends(sends: seq<Send>) {
    forall i :: 0 <= i < |sends| ==> Small(sends[i].msg)
  }

  lemma {:induction false} SmallToMany(ids: seq<Id>, m: Msg)
    requires Small(m)
    ensures SmallSends(ToMany(ids, m))
  {
    hide Small;
    if ids != [] { SmallToMany(ids[1..], m); }
  }

  lemma {:induction false} SmallToOne(c: Id, ms: seq<Msg>)
    requires SmallAll(ms)
    ensures SmallSends(ToOne(c, ms))
  {
    hide Small;
    if ms != [] { SmallToOne(c, ms[1..]); }
  }

  lemma {:induction false} SmallJoined(ids: seq<Id>)
    ensures SmallAll(JoinedEvents(ids))
  {
    if ids != [] { SmallJoined(ids[1..]); }
  }

  lemma {:induction false} SmallData(data: map<Str, Str>, cap: nat)
    requires PairsOk(data, cap)
    ensures SmallAll(DataEvents(data))
    decreases |data|
  {
    hide Least;
    if data != map[] {
      var k := Least(data.Keys);
      assert PairsOk(data - {k}, cap);
      SmallData(data - {k}, cap);
      assert Small(RoomDataChanged(k, data[k]));
    }
  }

  lemma {:induction false} SmallOneMember(id: Id, data: map<Str, Str>, cap: nat)
    requires PairsOk(data, cap)
    ensures SmallAll(OneMemberEvents(id, data))
    decreases |data|
  {
    hide Least;
    if data != map[] {
      var k := Least(data.Keys);
      assert PairsOk(data - {k}, cap);
      SmallOneMember(id, data - {k}, cap);
      assert Small(MemberDataChanged(id, k, data[k]));
    }
  }

  lemma {:induction false} SmallMembers(md: map<Id, map<Str, Str>>)
    requires forall i :: i in md ==> PairsOk(md[i], MAX_MEMBER_KEYS)
    ensures SmallAll(MemberEvents(md))
    decreases |md|
  {
    hide LeastId, OneMemberEvents, Small, PairsOk;
    if md != map[] {
      var id := LeastId(md.Keys);
      SmallOneMember(id, md[id], MAX_MEMBER_KEYS);
      SmallMembers(md - {id});
    }
  }

  lemma SmallHead(r: Room, id: Str)
    requires |id| + 5 <= MAX_REASSEMBLED
    ensures Small(AssignRoomId(id)) && Small(HostChanged(r.host)) && Small(RoomAccessChanged(r.open, r.password != []))
  {
  }

  lemma SmallWelcome(r: Room, id: Str)
    requires RoomOk(r) && |id| + 5 <= MAX_REASSEMBLED
    ensures SmallAll(Welcome(r, id))
  {
    hide JoinedEvents, DataEvents, MemberEvents, PairsOk, Small;
    SmallJoined(r.members);
    SmallData(r.data, MAX_ROOM_KEYS);
    SmallMembers(r.memberData);
    SmallHead(r, id);
    hide RoomOk;
  }

  lemma SmallDepart(s: Core, c: Id)
    requires c in s.conns
    ensures SmallSends(Depart(s, c).sends)
  {
    hide ToMany, Kept, Without, Small;
    var id := RoomOf(s, c);
    if id != [] && id in s.rooms && Without(s.rooms[id].members, c) != [] {
      var left := Bereft(s.rooms[id], c);
      SmallNotices(left, c);
      SmallToMany(left.members, PeerLeft(c));
      SmallToMany(left.members, HostChanged(left.host));
      hide Bereft;
    }
  }

  lemma SmallNotices(r: Room, c: Id)
    ensures Small(PeerLeft(c)) && Small(HostChanged(r.host))
  {
  }

  /** Configurations whose codes and ICE list a reader can accept. */
  predicate ConfigFits(cfg: Config) {
    cfg.codeLength + 6 <= MAX_REASSEMBLED && cfg.ice.IceServers? && Sendable(cfg.ice)
  }

  lemma SmallConcat(a: seq<Send>, b: seq<Send>)
    requires SmallSends(a) && SmallSends(b)
    ensures SmallSends(a + b)
  {
    hide Small;
  }

  lemma SmallReply(s: Core, c: Id, m: Msg)
    requires Small(m)
    ensures SmallSends(Reply(s, c, m).sends)
  {
  }

  lemma RoomFits(s: Core, k: Str)
    requires Inv(s) && k in s.rooms
    ensures RoomOk(s.rooms[k]) && |k| == s.cfg.codeLength
  {
    assert RoomAt(s, k);
  }

  lemma SmallJoin(s: Core, step: Step)
    requires Inv(s) && Enabled(s, step) && ConfigFits(s.cfg) && step.Receive? && step.msg.JoinRoom? && Small(step.msg)
    ensures SmallSends(Perform(s, step).sends)
  {
    hide ToMany, ToOne, Welcome, Kept, Inv, RoomOk, SmallSends;
    var c, m := step.c, step.msg;
    CodeLength(s, RoomOf(s, c), c);
    SmallReply(s, c, RoomError(ALREADY_IN_ROOM, RoomOf(s, c)));
    SmallReply(s, c, RoomError(NO_SUCH_ROOM, m.room));
    SmallReply(s, c, RoomError(BANNED, m.room));
    SmallReply(s, c, RoomError(ROOM_CLOSED, m.room));
    SmallReply(s, c, RoomError(BAD_PASSWORD, m.room));
    if m.room in s.rooms {
      var r := s.rooms[m.room];
      RoomFits(s, m.room);
      SmallWelcome(r, m.room);
      SmallToOne(c, Welcome(r, m.room));
      SmallToMany(r.members, PeerJoined(c));
      SmallConcat(ToMany(r.members, PeerJoined(c)), ToOne(c, Welcome(r, m.room)));
    }
  }

  lemma CodeLength(s: Core, k: Str, c: Id)
    requires Inv(s) && c in s.conns && k == RoomOf(s, c)
    ensures |k| <= s.cfg.codeLength
  {
    assert ConnAt(s, c) && RoomAt(s, k);
  }

  lemma SmallEvict(s: Core, step: Step)
    requires Enabled(s, step) && step.Receive? && (step.msg.KickMember? || step.msg.BanMember?)
    ensures SmallSends(Perform(s, step).sends)
  {
    hide Digits, Depart, Kept;
    var c, x := step.c, step.msg.id;
    IdDigits(x);
    if Hosts(s, c) && x in s.conns {
      SmallDepart(s, x);
      var r := s.rooms[RoomOf(s, c)];
      SmallDepart(PutRoom(s, r.(banned := Barred(r, x))), x);
    }
  }

  /** Announcements of data fit one frame; errors quote no more than was sent. */
  lemma SmallSetData(s: Core, step: Step)
    requires Enabled(s, step) && step.Receive? && (step.msg.SetRoomData? || step.msg.SetMemberData?) && Small(step.msg)
    ensures SmallSends(Perform(s, step).sends)
  {
    hide ToMany, Kept;
    var m := step.msg;
    if RoomOf(s, step.c) in s.rooms && !BadPair(m.key, m.value) {
      SmallToMany(s.rooms[RoomOf(s, step.c)].members, RoomDataChanged(m.key, m.value));
      SmallToMany(s.rooms[RoomOf(s, step.c)].members, MemberDataChanged(step.c, m.key, m.value));
    }
  }

  lemma SmallSetHost(s: Core, step: Step)
    requires Enabled(s, step) && step.Receive?
    requires step.msg.TransferHost? || step.msg.SetRoomJoinable? || step.msg.SetRoomPassword?
    ensures SmallSends(Perform(s, step).sends)
  {
    hide ToMany, Digits, Kept;
    var m := step.msg;
    if m.TransferHost? { IdDigits(m.id); }
    if RoomOf(s, step.c) in s.rooms {
      var r := s.rooms[RoomOf(s, step.c)];
      if m.TransferHost? { SmallToMany(r.members, HostChanged(m.id)); }
      else if m.SetRoomJoinable? { SmallToMany(r.members, RoomAccessChanged(m.open, r.password != [])); }
      else { SmallToMany(r.members, RoomAccessChanged(r.open, m.password != [])); }
    }
  }

  lemma SmallChatter(s: Core, step: Step)
    requires Enabled(s, step) && step.Receive? && Small(step.msg)
    requires step.msg.RoomChat? || step.msg.P2PSignal? || step.msg.Heartbeat?
    ensures SmallSends(Perform(s, step).sends)
  {
    hide ToMany, Kept, Small;
    SmallRelay(step.c, step.msg);
    if step.msg.RoomChat? && RoomOf(s, step.c) in s.rooms {
      SmallToMany(s.rooms[RoomOf(s, step.c)].members, RoomChat(step.c, step.msg.text));
    }
  }

  /** What is passed on is as long as what came in. */
  lemma SmallRelay(c: Id, m: Msg)
    requires Small(m)
    ensures m.RoomChat? ==> Small(RoomChat(c, m.text))
    ensures m.P2PSignal? ==> Small(P2PSignal(c, m.kind, m.payload))
    ensures Small(RoomError(NOT_IN_ROOM, []))
  {
  }

  lemma SmallRest(s: Core, step: Step)
    requires Inv(s) && Enabled(s, step) && ConfigFits(s.cfg)
    requires step.Receive? ==> step.msg.CreateRoom? || step.msg.LeaveRoom?
    ensures SmallSends(Perform(s, step).sends)
  {
    hide ToOne, Depart, Kept, Encode;
    match step {
      case Accept =>
      case Start(c) =>
        WireSizeIsEncoded(s.cfg.ice);
        SmallToOne(c, [AssignClientId(c), s.cfg.ice]);
      case Disconnect(c) => SmallDepart(s, c);
      case Receive(c, m, code) =>
        SmallDepart(s, c);
        CodeLength(s, RoomOf(s, c), c);
        if m.CreateRoom? && RoomOf(s, c) == [] { SmallToOne(c, [AssignRoomId(code), HostChanged(c)]); }
    }
  }

  lemma SmallStep(s: Core, step: Step)
    requires Inv(s) && Enabled(s, step) && ConfigFits(s.cfg) && (step.Receive? ==> Small(step.msg))
    ensures SmallSends(Perform(s, step).sends)
  {
    hide SmallSends, Inv, Small;
    if !step.Receive? || step.msg.CreateRoom? || step.msg.LeaveRoom? { SmallRest(s, step); }
    else if step.msg.JoinRoom? { SmallJoin(s, step); }
    else if step.msg.KickMember? || step.msg.BanMember? { SmallEvict(s, step); }
    else if step.msg.SetRoomData? || step.msg.SetMemberData? { SmallSetData(s, step); }
    else if step.msg.TransferHost? || step.msg.SetRoomJoinable? || step.msg.SetRoomPassword? { SmallSetHost(s, step); }
    else if step.msg.RoomChat? || step.msg.P2PSignal? || step.msg.Heartbeat? { SmallChatter(s, step); }
    else { SmallNothing(s, step); }
  }

  lemma SmallNothing(s: Core, step: Step)
    requires Enabled(s, step) && step.Receive? && Handle(s, step.c, step.msg, step.code) == Quiet(s)
    ensures SmallSends(Perform(s, step).sends)
  {
  }

  /**
   Size closure: answering any input its own reader accepted, the server emits
   only messages a reader accepts.
   */
  lemma SizeClosure(s: Core, step: Step, body: seq<byte>, i: nat)
    requires Inv(s) && Enabled(s, step) && ConfigFits(s.cfg) && i < |Perform(s, step).sends|
    requires step.Receive? ==> |body| <= MAX_REASSEMBLED && Decode(body).Ok? && Decode(body).value == step.msg
    ensures Sendable(Perform(s, step).sends[i].msg)
  {
    hide Perform, Encode, Decode, Inv;
    if step.Receive? {
      DecodedSize(body);
      WireSizeIsEncoded(step.msg);
    }
    SmallStep(s, step);
    WireSizeIsEncoded(Perform(s, step).sends[i].msg);
  }

  /** The largest data message stays within a single frame, its flag clear. */
  lemma DataFitsOneFrame(m: Msg)
    requires m.RoomDataChanged? || m.MemberDataChanged? || m.SetRoomData? || m.SetMemberData?
    requires |m.key| <= MAX_KEY && |m.value| <= MAX_VALUE
    ensures |Encode(m)| <= 13 + MAX_KEY + MAX_VALUE <= MAX_MESSAGE
    ensures Frames(Encode(m)) == EncodeNum(HEADER, |Encode(m)|) + Encode(m)
  {
    hide Encode;
    WireSizeIsEncoded(m);
    ShortFrame(Encode(m));
  }

  /** Longer codes break it: the refusal to a member who creates a room would be too big to read. */
  lemma CodeBoundIsTight(s: Core, c: Id, code: Str)
    requires Inv(s) && c in s.conns && RoomOf(s, c) != []
    ensures var refusal := Handle(s, c, CreateRoom, code).sends;
            |refusal| == 1 && (Sendable(refusal[0].msg) <==> s.cfg.codeLength + 6 <= MAX_REASSEMBLED)
  {
    hide Encode;
    assert ConnAt(s, c) && RoomAt(s, RoomOf(s, c));
    WireSizeIsEncoded(RoomError(ALREADY_IN_ROOM, RoomOf(s, c)));
  }
}
