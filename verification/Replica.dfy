/**
 The client's cached room (Client/src/client.cpp, CacheRoomState and
 ClearRoomState) and the shape of the stream it expects from the server.
 */
module Replica {
  import opened Protocol
  import opened Seqs

  datatype Cache = Cache(
    id: Id, room: Str, host: Id, open: bool, passworded: bool,
    members: seq<Id>, data: map<Str, Str>, memberData: map<Id, map<Str, Str>>)

  const NEW_CACHE := Cache(0, [], 0, true, false, [], map[], map[])

  function Cleared(v: Cache): Cache {
    NEW_CACHE.(id := v.id)
  }

  function SetKey(data: map<Str, Str>, key: Str, value: Str): map<Str, Str> {
    if value == [] then data - {key} else data[key := value]
  }

  /** One key of one member's map; a map that becomes empty is dropped. */
  function SetMemberKey(md: map<Id, map<Str, Str>>, id: Id, key: Str, value: Str): map<Id, map<Str, Str>> {
    if value != [] then md[id := (if id in md then md[id] else map[])[key := value]]
    else if id !in md then md
    else if md[id] - {key} == map[] then md - {id}
    else md[id := md[id] - {key}]
  }

  /** What one carved message does to the cache. */
  function Apply(v: Cache, m: Msg): Cache {
    match m
    case AssignClientId(id) => v.(id := id)
    case AssignRoomId(room) => Cache(v.id, room, 0, true, false, [v.id], map[], map[])
    case PeerJoined(id) => v.(members := v.members + [id])
    case PeerLeft(id) =>
      if id == v.id then Cleared(v)
      else v.(members := Without(v.members, id), memberData := v.memberData - {id})
    case HostChanged(id) => v.(host := id)
    case RoomDataChanged(key, value) => v.(data := SetKey(v.data, key, value))
    case MemberDataChanged(id, key, value) => v.(memberData := SetMemberKey(v.memberData, id, key, value))
    case KickedByHost => Cleared(v)
    case BannedByHost => Cleared(v)
    case RoomAccessChanged(open, passworded) => v.(open := open, passworded := passworded)
    case _ => v
  }

  function Fold(v: Cache, ms: seq<Msg>): Cache
    decreases ms
  {
    if ms == [] then v else Fold(Apply(v, ms[0]), ms[1..])
  }

  lemma {:induction false} FoldConcat(v: Cache, ms: seq<Msg>, ns: seq<Msg>)
    ensures Fold(v, ms + ns) == Fold(Fold(v, ms), ns)
    decreases ms
  {
    hide Apply;
    if ms == [] {
      assert ms + ns == ns;
    } else {
      FoldConcat(Apply(v, ms[0]), ms[1..], ns);
      assert (ms + ns)[1..] == ms[1..] + ns;
    }
  }

  /**
   Which messages may arrive on which cache. Announcements name current
   members, joins name strangers, and a change of host or data really changes
   something. RoomAccessChanged may repeat what the cache holds: a joiner is
   always told, even of an open room without a password.
   */
  predicate Fits(v: Cache, m: Msg) {
    match m
    case Heartbeat(_) => true
    case RoomError(_, _) => true
    case IceServers(_, _, _) => true
    case AssignClientId(id) => v == NEW_CACHE && id != 0
    case AssignRoomId(room) => v.id != 0 && v == Cleared(v) && room != []
    case PeerJoined(id) => v.room != [] && id !in v.members
    case PeerLeft(id) => v.room != [] && id in v.members
    case HostChanged(id) => id in v.members && id != v.host
    case RoomDataChanged(key, value) => v.room != [] && SetKey(v.data, key, value) != v.data
    case MemberDataChanged(id, key, value) =>
      id in v.members && SetMemberKey(v.memberData, id, key, value) != v.memberData
    case RoomChat(from, _) => from in v.members
    case P2PSignal(id, _, _) => id in v.members && id != v.id
    case KickedByHost => v.room != []
    case BannedByHost => v.room != []
    case RoomAccessChanged(_, _) => v.room != []
    case _ => false
  }

  predicate FitsAll(v: Cache, ms: seq<Msg>)
    decreases ms
  {
    ms == [] || (Fits(v, ms[0]) && FitsAll(Apply(v, ms[0]), ms[1..]))
  }

  /** `ms` is a well-formed stream that takes cache `v` exactly to `w`. */
  predicate Leads(v: Cache, ms: seq<Msg>, w: Cache) {
    FitsAll(v, ms) && Fold(v, ms) == w
  }

  lemma {:induction false} LeadsConcat(u: Cache, ms: seq<Msg>, v: Cache, ns: seq<Msg>, w: Cache)
    requires Leads(u, ms, v) && Leads(v, ns, w)
    ensures Leads(u, ms + ns, w)
    decreases ms
  {
    if ms == [] {
      assert ms + ns == ns;
    } else {
      LeadsConcat(Apply(u, ms[0]), ms[1..], v, ns, w);
      assert (ms + ns)[1..] == ms[1..] + ns;
    }
  }

  lemma LeadsNone(v: Cache)
    ensures Leads(v, [], v)
  {
  }

  lemma LeadsOne(v: Cache, m: Msg)
    requires Fits(v, m)
    ensures Leads(v, [m], Apply(v, m))
  {
    assert [m][1..] == [];
  }

  lemma LeadsCons(v: Cache, m: Msg, ms: seq<Msg>, w: Cache)
    requires Fits(v, m) && Leads(Apply(v, m), ms, w)
    ensures Leads(v, [m] + ms, w)
  {
    assert ([m] + ms)[1..] == ms;
  }

  lemma LeadsTwo(v: Cache, m: Msg, n: Msg)
    requires Fits(v, m) && Fits(Apply(v, m), n)
    ensures Leads(v, [m, n], Apply(Apply(v, m), n))
  {
    LeadsOne(v, m);
    LeadsOne(Apply(v, m), n);
    LeadsConcat(v, [m], Apply(v, m), [n], Apply(Apply(v, m), n));
    assert [m] + [n] == [m, n];
  }

  /** Every position of a well-formed stream fits the cache its prefix leaves. */
  lemma {:induction false} FitsAt(v: Cache, ms: seq<Msg>, i: nat)
    requires FitsAll(v, ms) && i < |ms|
    ensures Fits(Fold(v, ms[..i]), ms[i])
    decreases i
  {
    if i > 0 {
      FitsAt(Apply(v, ms[0]), ms[1..], i - 1);
      assert ms[1..][..i - 1] == ms[..i][1..];
    }
  }

  /** The cache is either outside any room or lists itself first, without repeats. */
  ghost predicate CacheOk(v: Cache) {
    && Distinct(v.members)
    && (v.room == [] ==> v == Cleared(v))
    && (v.room != [] ==> v.id != 0 && v.members != [] && v.members[0] == v.id)
    && (forall i :: i in v.memberData ==> i in v.members)
  }

  lemma ApplyKeepsCacheOk(v: Cache, m: Msg)
    requires CacheOk(v) && Fits(v, m)
    ensures CacheOk(Apply(v, m))
  {
    match m {
      case PeerLeft(id) =>
        if id != v.id {
          WithoutDistinct(v.members, id);
          assert v.members == [v.id] + v.members[1..];
          WithoutHead(v.id, v.members[1..], id);
        }
      case _ =>
    }
  }
}
