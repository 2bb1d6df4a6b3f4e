/**
 The body of a message on the wire, as the zpp_bits archives write and read it:
 a one-byte variant index, then the members in declaration order; little-endian
 fixed-width integers, 4-byte lengths before strings and vectors.
 */
module Codec {
  import opened Protocol
  import opened Seqs

  /** A decoder's result: the value and the bytes after it. */
  datatype Parsed<+T> = Bad | Ok(value: T, rest: seq<byte>) {
    function Map<U>(f: T -> U): Parsed<U> {
      if Bad? then Bad else Ok(f(value), rest)
    }
  }

  // --------------------------------------------------------------- integers

  function Pow256(n: nat): nat {
    if n == 0 then 1 else 0x100 * Pow256(n - 1)
  }

  function EncodeNum(n: nat, x: nat): (r: seq<byte>)
    ensures |r| == n
  {
    if n == 0 then [] else [x % 0x100] + EncodeNum(n - 1, x / 0x100)
  }

  function NumOf(bytes: seq<byte>): nat {
    if bytes == [] then 0 else bytes[0] + 0x100 * NumOf(bytes[1..])
  }

  function DecodeNum(n: nat, s: seq<byte>): Parsed<nat> {
    if |s| < n then Bad else Ok(NumOf(s[..n]), s[n..])
  }

  lemma {:induction false} NumOfEncode(n: nat, x: nat)
    requires x < Pow256(n)
    ensures NumOf(EncodeNum(n, x)) == x
  {
    if n > 0 {
      NumOfEncode(n - 1, x / 0x100);
      assert EncodeNum(n, x)[1..] == EncodeNum(n - 1, x / 0x100);
    }
  }

  lemma {:induction false} NumOfBound(bytes: seq<byte>)
    ensures NumOf(bytes) < Pow256(|bytes|)
  {
    if bytes != [] { NumOfBound(bytes[1..]); }
  }

  lemma Widths()
    ensures Pow256(1) == 0x100 && Pow256(2) == 0x1_0000 && Pow256(4) == 0x1_0000_0000
    ensures Pow256(8) == 0x1_0000_0000_0000_0000
  {
    assert Pow256(3) == 0x100_0000 && Pow256(5) == 0x100_0000_0000 && Pow256(6) == 0x1_0000_0000_0000;
    assert Pow256(7) == 0x100_0000_0000_0000;
  }

  lemma NumRoundTrip(n: nat, x: nat, tail: seq<byte>)
    requires x < Pow256(n)
    ensures DecodeNum(n, EncodeNum(n, x) + tail) == Ok(x, tail)
  {
    NumOfEncode(n, x);
    assert (EncodeNum(n, x) + tail)[..n] == EncodeNum(n, x);
    assert (EncodeNum(n, x) + tail)[n..] == tail;
  }

  // ---------------------------------------------------------------- strings

  /** The length is cast to uint32_t: a longer string would lose its high part. */
  function EncodeStr(s: Str): seq<byte> {
    EncodeNum(4, |s| % 0x1_0000_0000) + s
  }

  function DecodeStr(s: seq<byte>): Parsed<Str> {
    var n := DecodeNum(4, s);
    if n.Bad? || |n.rest| < n.value then Bad else Ok(n.rest[..n.value], n.rest[n.value..])
  }

  // ----------------------------------------------------------------- fields

  /** One member of a message struct. */
  datatype Field = Num(width: nat, n: nat) | Text(s: Str)
  datatype Shape = AsNum(width: nat) | AsText

  function EncodeField(f: Field): seq<byte> {
    match f
    case Num(w, n) => EncodeNum(w, n)
    case Text(s) => EncodeStr(s)
  }

  function DecodeField(shape: Shape, s: seq<byte>): Parsed<Field> {
    match shape
    case AsNum(w) => DecodeNum(w, s).Map(n => Num(w, n))
    case AsText => DecodeStr(s).Map(t => Text(t))
  }

  function EncodeFields(fs: seq<Field>): seq<byte> {
    if fs == [] then [] else EncodeField(fs[0]) + EncodeFields(fs[1..])
  }

  function DecodeFields(shapes: seq<Shape>, s: seq<byte>): Parsed<seq<Field>>
    decreases shapes
  {
    if shapes == [] then Ok([], s)
    else
      var f := DecodeField(shapes[0], s);
      if f.Bad? then Bad
      else
        var fs := DecodeFields(shapes[1..], f.rest);
        if fs.Bad? then Bad else Ok([f.value] + fs.value, fs.rest)
  }

  function ShapeOf(f: Field): Shape {
    if f.Num? then AsNum(f.width) else AsText
  }

  function Shapes(fs: seq<Field>): seq<Shape> {
    if fs == [] then [] else [ShapeOf(fs[0])] + Shapes(fs[1..])
  }

  /** The field survives the narrowing casts of the encoder. */
  predicate FieldFits(f: Field) {
    match f
    case Num(w, n) => n < Pow256(w)
    case Text(s) => |s| < 0x1_0000_0000
  }

  predicate FieldsFit(fs: seq<Field>) {
    forall i :: 0 <= i < |fs| ==> FieldFits(fs[i])
  }

  lemma StrRoundTrip(s: Str, tail: seq<byte>)
    requires |s| < 0x1_0000_0000
    ensures DecodeStr(EncodeStr(s) + tail) == Ok(s, tail)
  {
    hide EncodeNum, DecodeNum, Pow256;
    Widths();
    NumRoundTrip(4, |s|, s + tail);
    Assoc(EncodeNum(4, |s|), s, tail);
    assert (s + tail)[..|s|] == s && (s + tail)[|s|..] == tail;
  }

  lemma FieldRoundTrip(f: Field, tail: seq<byte>)
    requires FieldFits(f)
    ensures DecodeField(ShapeOf(f), EncodeField(f) + tail) == Ok(f, tail)
  {
    hide EncodeNum, DecodeNum, Pow256, EncodeStr, DecodeStr;
    match f {
      case Num(w, n) => NumRoundTrip(w, n, tail);
      case Text(s) => StrRoundTrip(s, tail);
    }
  }

  lemma {:induction false} FieldsRoundTrip(fs: seq<Field>, tail: seq<byte>)
    requires FieldsFit(fs)
    ensures DecodeFields(Shapes(fs), EncodeFields(fs) + tail) == Ok(fs, tail)
    decreases fs
  {
    hide DecodeField, EncodeField, FieldFits;
    if fs == [] {
      assert [] + tail == tail;
    } else {
      FieldRoundTrip(fs[0], EncodeFields(fs[1..]) + tail);
      FieldsRoundTrip(fs[1..], tail);
      Assoc(EncodeField(fs[0]), EncodeFields(fs[1..]), tail);
      assert fs == [fs[0]] + fs[1..];
    }
  }

  /** Whatever is decoded has the asked shape, fits, and took exactly its encoded size. */
  lemma FieldSize(shape: Shape, s: seq<byte>)
    ensures DecodeField(shape, s).Ok? ==>
              var f, rest := DecodeField(shape, s).value, DecodeField(shape, s).rest;
              ShapeOf(f) == shape && FieldFits(f) && |EncodeField(f)| + |rest| == |s|
  {
    Widths();
    var n := if shape.AsNum? then shape.width else 4;
    if |s| >= n { NumOfBound(s[..n]); }
  }

  lemma {:induction false} FieldsSize(shapes: seq<Shape>, s: seq<byte>)
    ensures DecodeFields(shapes, s).Ok? ==>
              var fs, rest := DecodeFields(shapes, s).value, DecodeFields(shapes, s).rest;
              Shapes(fs) == shapes && FieldsFit(fs) && |EncodeFields(fs)| + |rest| == |s|
    decreases shapes
  {
    hide DecodeField, EncodeField, FieldFits;
    if shapes != [] {
      FieldSize(shapes[0], s);
      var f := DecodeField(shapes[0], s);
      if f.Ok? {
        FieldsSize(shapes[1..], f.rest);
        var fs := DecodeFields(shapes[1..], f.rest);
        if fs.Ok? {
          assert ([f.value] + fs.value)[1..] == fs.value;
          assert shapes == [shapes[0]] + shapes[1..];
        }
      }
    }
  }

  // ------------------------------------------------------------ turn servers

  function TurnFields(t: TurnServer): seq<Field> {
    [Text(t.host), Num(2, t.port), Text(t.username), Text(t.password)]
  }

  const TURN_SHAPES: seq<Shape> := [AsText, AsNum(2), AsText, AsText]

  function TurnOf(fs: seq<Field>): Parsed<TurnServer> {
    if |fs| == 4 && fs[0].Text? && fs[1].Num? && fs[1].n < 0x1_0000 && fs[2].Text? && fs[3].Text?
    then Ok(TurnServer(fs[0].s, fs[1].n, fs[2].s, fs[3].s), []) else Bad
  }

  function EncodeTurns(ts: seq<TurnServer>): seq<byte> {
    if ts == [] then [] else EncodeFields(TurnFields(ts[0])) + EncodeTurns(ts[1..])
  }

  function DecodeTurns(n: nat, s: seq<byte>): Parsed<seq<TurnServer>> {
    if n == 0 then Ok([], s)
    else
      var fs := DecodeFields(TURN_SHAPES, s);
      if fs.Bad? then Bad
      else
        var t, ts := TurnOf(fs.value), DecodeTurns(n - 1, fs.rest);
        if t.Bad? || ts.Bad? then Bad else Ok([t.value] + ts.value, ts.rest)
  }

  predicate StrFits(s: Str) {
    |s| < 0x1_0000_0000
  }

  predicate TurnFits(t: TurnServer) {
    StrFits(t.host) && StrFits(t.username) && StrFits(t.password)
  }

  lemma TurnRoundTrip(t: TurnServer, tail: seq<byte>)
    requires TurnFits(t)
    ensures DecodeFields(TURN_SHAPES, EncodeFields(TurnFields(t)) + tail) == Ok(TurnFields(t), tail)
  {
    Widths();
    FieldsRoundTrip(TurnFields(t), tail);
    assert Shapes(TurnFields(t)) == TURN_SHAPES by { ShapesOfFour(TurnFields(t)); }
  }

  lemma ShapesOfFour(fs: seq<Field>)
    requires |fs| == 4
    ensures Shapes(fs) == [ShapeOf(fs[0]), ShapeOf(fs[1]), ShapeOf(fs[2]), ShapeOf(fs[3])]
  {
    assert fs[1..][1..] == fs[2..] && fs[2..][1..] == fs[3..] && fs[3..][1..] == [];
    assert Shapes(fs[3..]) == [ShapeOf(fs[3])];
    assert Shapes(fs[2..]) == [ShapeOf(fs[2]), ShapeOf(fs[3])];
    assert Shapes(fs[1..]) == [ShapeOf(fs[1]), ShapeOf(fs[2]), ShapeOf(fs[3])];
  }

  lemma {:induction false} TurnsRoundTrip(ts: seq<TurnServer>, tail: seq<byte>)
    requires forall i :: 0 <= i < |ts| ==> TurnFits(ts[i])
    ensures DecodeTurns(|ts|, EncodeTurns(ts) + tail) == Ok(ts, tail)
    decreases ts
  {
    hide DecodeFields, EncodeFields;
    if ts == [] {
      assert [] + tail == tail;
    } else {
      TurnRoundTrip(ts[0], EncodeTurns(ts[1..]) + tail);
      TurnsRoundTrip(ts[1..], tail);
      Assoc(EncodeFields(TurnFields(ts[0])), EncodeTurns(ts[1..]), tail);
      assert ts == [ts[0]] + ts[1..];
    }
  }

  lemma TurnOfFields(fs: seq<Field>)
    requires Shapes(fs) == TURN_SHAPES && FieldsFit(fs)
    ensures TurnOf(fs).Ok? && TurnFields(TurnOf(fs).value) == fs && TurnFits(TurnOf(fs).value)
  {
    ShapesLength(fs);
    ShapesOfFour(fs);
    Widths();
    assert FieldFits(fs[0]) && FieldFits(fs[1]) && FieldFits(fs[2]) && FieldFits(fs[3]);
    assert fs == [fs[0], fs[1], fs[2], fs[3]];
  }

  lemma EncodeTurnsCons(t: TurnServer, ts: seq<TurnServer>)
    ensures EncodeTurns([t] + ts) == EncodeFields(TurnFields(t)) + EncodeTurns(ts)
  {
    assert ([t] + ts)[1..] == ts;
  }

  lemma NoTurns(s: seq<byte>)
    ensures DecodeTurns(0, s) == Ok([], s) && EncodeTurns([]) == []
  {
  }

  /** One round of the vector loop. */
  lemma DecodeTurnsStep(n: nat, s: seq<byte>)
    requires n > 0
    ensures var fs := DecodeFields(TURN_SHAPES, s);
            DecodeTurns(n, s)
            == if fs.Bad? || TurnOf(fs.value).Bad? || DecodeTurns(n - 1, fs.rest).Bad? then Bad
               else Ok([TurnOf(fs.value).value] + DecodeTurns(n - 1, fs.rest).value, DecodeTurns(n - 1, fs.rest).rest)
  {
    hide DecodeFields, TurnOf;
  }

  lemma {:induction false} TurnsSize(n: nat, s: seq<byte>)
    ensures DecodeTurns(n, s).Ok? ==>
              var ts, rest := DecodeTurns(n, s).value, DecodeTurns(n, s).rest;
              |ts| == n && (forall i :: 0 <= i < |ts| ==> TurnFits(ts[i])) && |EncodeTurns(ts)| + |rest| == |s|
    decreases n
  {
    hide DecodeFields, EncodeFields, FieldsFit, Shapes, EncodeTurns, TurnFits, TurnOf, TurnFields, DecodeTurns;
    if n == 0 {
      NoTurns(s);
    } else {
      FieldsSize(TURN_SHAPES, s);
      DecodeTurnsStep(n, s);
      var fs := DecodeFields(TURN_SHAPES, s);
      if fs.Ok? {
        TurnOfFields(fs.value);
        TurnsSize(n - 1, fs.rest);
        var t, ts := TurnOf(fs.value), DecodeTurns(n - 1, fs.rest);
        if ts.Ok? { EncodeTurnsCons(t.value, ts.value); }
      }
    }
  }

  lemma {:induction false} ShapesLength(fs: seq<Field>)
    ensures |Shapes(fs)| == |fs|
  {
    if fs != [] { ShapesLength(fs[1..]); }
  }

  // --------------------------------------------------------------- messages

  function Bit(b: bool): nat {
    if b then 1 else 0
  }

  /** The variant index. */
  function Tag(m: Msg): (t: byte)
    ensures t < 25
  {
    match m
    case Heartbeat(_) => 0 case AssignClientId(_) => 1 case AssignRoomId(_) => 2 case CreateRoom => 3
    case JoinRoom(_, _) => 4 case RoomError(_, _) => 5 case RoomChat(_, _) => 6 case LeaveRoom => 7
    case PeerJoined(_) => 8 case PeerLeft(_) => 9 case HostChanged(_) => 10 case SetRoomData(_, _) => 11
    case RoomDataChanged(_, _) => 12 case SetMemberData(_, _) => 13 case MemberDataChanged(_, _, _) => 14
    case KickMember(_) => 15 case TransferHost(_) => 16 case SetRoomJoinable(_) => 17
    case SetRoomPassword(_) => 18 case KickedByHost => 19 case RoomAccessChanged(_, _) => 20
    case BanMember(_) => 21 case BannedByHost => 22 case P2PSignal(_, _, _) => 23 case IceServers(_, _, _) => 24
  }

  /** The members of each alternative; the turn vector of IceServers follows its scalars. */
  function Members(m: Msg): seq<Field> {
    match m
    case Heartbeat(t) => [Num(8, t)]
    case AssignClientId(id) => [Num(4, id)]
    case AssignRoomId(room) => [Text(room)]
    case CreateRoom => []
    case JoinRoom(room, password) => [Text(room), Text(password)]
    case RoomError(code, context) => [Num(1, code), Text(context)]
    case RoomChat(from, text) => [Num(4, from), Text(text)]
    case LeaveRoom => []
    case PeerJoined(id) => [Num(4, id)]
    case PeerLeft(id) => [Num(4, id)]
    case HostChanged(id) => [Num(4, id)]
    case SetRoomData(key, value) => [Text(key), Text(value)]
    case RoomDataChanged(key, value) => [Text(key), Text(value)]
    case SetMemberData(key, value) => [Text(key), Text(value)]
    case MemberDataChanged(id, key, value) => [Num(4, id), Text(key), Text(value)]
    case KickMember(id) => [Num(4, id)]
    case TransferHost(id) => [Num(4, id)]
    case SetRoomJoinable(open) => [Num(1, Bit(open))]
    case SetRoomPassword(password) => [Text(password)]
    case KickedByHost => []
    case RoomAccessChanged(open, passworded) => [Num(1, Bit(open)), Num(1, Bit(passworded))]
    case BanMember(id) => [Num(4, id)]
    case BannedByHost => []
    case P2PSignal(id, kind, payload) => [Num(4, id), Num(1, kind), Text(payload)]
    case IceServers(host, port, turn) => [Text(host), Num(2, port), Num(4, |turn| % 0x1_0000_0000)]
  }

  function Turns(m: Msg): seq<TurnServer> {
    if m.IceServers? then m.turn else []
  }

  function Encode(m: Msg): seq<byte> {
    [Tag(m)] + (EncodeFields(Members(m)) + EncodeTurns(Turns(m)))
  }

  /** What the reader expects after variant index `tag`. */
  function Layout(tag: byte): seq<Shape> {
    if tag in {3, 7, 19, 22} then []
    else if tag in {1, 8, 9, 10, 15, 16, 21} then [AsNum(4)]
    else if tag in {2, 18} then [AsText]
    else if tag in {4, 11, 12, 13} then [AsText, AsText]
    else if tag == 0 then [AsNum(8)]
    else if tag == 5 then [AsNum(1), AsText]
    else if tag == 6 then [AsNum(4), AsText]
    else if tag == 14 then [AsNum(4), AsText, AsText]
    else if tag == 17 then [AsNum(1)]
    else if tag == 20 then [AsNum(1), AsNum(1)]
    else if tag == 23 then [AsNum(4), AsNum(1), AsText]
    else [AsText, AsNum(2), AsNum(4)]
  }

  /** A read field as a string or a number; the layout leaves no other case. */
  function TextAt(fs: seq<Field>, i: nat): Str {
    if i < |fs| && fs[i].Text? then fs[i].s else []
  }

  function NumAt(fs: seq<Field>, i: nat): nat {
    if i < |fs| && fs[i].Num? then fs[i].n else 0
  }

  function IdAt(fs: seq<Field>, i: nat): u32 {
    if NumAt(fs, i) < 0x1_0000_0000 then NumAt(fs, i) else 0
  }

  function ByteAt(fs: seq<Field>, i: nat): byte {
    if NumAt(fs, i) < 0x100 then NumAt(fs, i) else 0
  }

  function StampAt(fs: seq<Field>, i: nat): u64 {
    if NumAt(fs, i) < 0x1_0000_0000_0000_0000 then NumAt(fs, i) else 0
  }

  function PortAt(fs: seq<Field>, i: nat): u16 {
    if NumAt(fs, i) < 0x1_0000 then NumAt(fs, i) else 0
  }

  function Build(tag: byte, fs: seq<Field>, turns: seq<TurnServer>): Msg {
    if tag == 0 then Heartbeat(StampAt(fs, 0))
    else if tag == 1 then AssignClientId(IdAt(fs, 0))
    else if tag == 2 then AssignRoomId(TextAt(fs, 0))
    else if tag == 3 then CreateRoom
    else if tag == 4 then JoinRoom(TextAt(fs, 0), TextAt(fs, 1))
    else if tag == 5 then RoomError(ByteAt(fs, 0), TextAt(fs, 1))
    else if tag == 6 then RoomChat(IdAt(fs, 0), TextAt(fs, 1))
    else if tag == 7 then LeaveRoom
    else if tag == 8 then PeerJoined(IdAt(fs, 0))
    else if tag == 9 then PeerLeft(IdAt(fs, 0))
    else if tag == 10 then HostChanged(IdAt(fs, 0))
    else if tag == 11 then SetRoomData(TextAt(fs, 0), TextAt(fs, 1))
    else if tag == 12 then RoomDataChanged(TextAt(fs, 0), TextAt(fs, 1))
    else if tag == 13 then SetMemberData(TextAt(fs, 0), TextAt(fs, 1))
    else if tag == 14 then MemberDataChanged(IdAt(fs, 0), TextAt(fs, 1), TextAt(fs, 2))
    else if tag == 15 then KickMember(IdAt(fs, 0))
    else if tag == 16 then TransferHost(IdAt(fs, 0))
    else if tag == 17 then SetRoomJoinable(NumAt(fs, 0) != 0)
    else if tag == 18 then SetRoomPassword(TextAt(fs, 0))
    else if tag == 19 then KickedByHost
    else if tag == 20 then RoomAccessChanged(NumAt(fs, 0) != 0, NumAt(fs, 1) != 0)
    else if tag == 21 then BanMember(IdAt(fs, 0))
    else if tag == 22 then BannedByHost
    else if tag == 23 then P2PSignal(IdAt(fs, 0), ByteAt(fs, 1), TextAt(fs, 2))
    else IceServers(TextAt(fs, 0), PortAt(fs, 1), turns)
  }

  /** zpp::bits::in: an unknown index is a bad message; trailing bytes are left unread. */
  function Decode(s: seq<byte>): Parsed<Msg> {
    if s == [] || s[0] >= 25 then Bad else DecodeBody(s[0], s[1..])
  }

  function DecodeBody(tag: byte, s: seq<byte>): Parsed<Msg> {
    var fs := DecodeFields(Layout(tag), s);
    if fs.Bad? then Bad
    else DecodeTurns(if tag == 24 then NumAt(fs.value, 2) else 0, fs.rest).Map(ts => Build(tag, fs.value, ts))
  }

  /** Every length survives the cast to uint32_t. */
  predicate Representable(m: Msg) {
    && (forall i :: 0 <= i < |Members(m)| && Members(m)[i].Text? ==> StrFits(Members(m)[i].s))
    && |Turns(m)| < 0x1_0000_0000
    && forall i :: 0 <= i < |Turns(m)| ==> TurnFits(Turns(m)[i])
  }

  lemma MembersFit(m: Msg)
    requires Representable(m)
    ensures FieldsFit(Members(m))
  {
    Widths();
    forall i | 0 <= i < |Members(m)| ensures FieldFits(Members(m)[i]) {
      hide Pow256;
    }
  }

  lemma LayoutMatches(m: Msg)
    ensures Shapes(Members(m)) == Layout(Tag(m))
  {
    var fs := Members(m);
    ShapesShort(fs);
    hide Shapes;
  }

  lemma ShapesShort(fs: seq<Field>)
    ensures |fs| == 0 ==> Shapes(fs) == []
    ensures |fs| == 1 ==> Shapes(fs) == [ShapeOf(fs[0])]
    ensures |fs| == 2 ==> Shapes(fs) == [ShapeOf(fs[0]), ShapeOf(fs[1])]
    ensures |fs| == 3 ==> Shapes(fs) == [ShapeOf(fs[0]), ShapeOf(fs[1]), ShapeOf(fs[2])]
  {
    if |fs| >= 2 {
      assert fs[1..][1..] == fs[2..];
      if |fs| == 3 { assert fs[2..][1..] == []; }
    }
  }

  lemma BuildMembers(m: Msg)
    requires |Turns(m)| < 0x1_0000_0000
    ensures Build(Tag(m), Members(m), Turns(m)) == m
    ensures m.IceServers? ==> NumAt(Members(m), 2) == |Turns(m)|
  {
    if Tag(m) < 12 { BuildEarly(m); } else { BuildLate(m); }
    hide Build;
  }

  lemma BuildEarly(m: Msg)
    requires Tag(m) < 12
    ensures Build(Tag(m), Members(m), Turns(m)) == m
  {
    hide Turns;
  }

  lemma BuildLate(m: Msg)
    requires Tag(m) >= 12
    ensures Build(Tag(m), Members(m), Turns(m)) == m
  {
  }

  lemma BodyRoundTrip(m: Msg, tail: seq<byte>)
    requires Representable(m)
    ensures DecodeBody(Tag(m), EncodeFields(Members(m)) + (EncodeTurns(Turns(m)) + tail)) == Ok(m, tail)
  {
    hide Layout, Build, DecodeFields, EncodeFields, EncodeTurns, Shapes, FieldsFit, Members;
    MembersFit(m);
    LayoutMatches(m);
    BuildMembers(m);
    FieldsRoundTrip(Members(m), EncodeTurns(Turns(m)) + tail);
    TurnsRoundTrip(Turns(m), tail);
    TagOfIce(m);
    hide Tag, Turns;
  }

  lemma TagOfIce(m: Msg)
    ensures Tag(m) == 24 <==> m.IceServers?
    ensures !m.IceServers? ==> Turns(m) == []
  {
  }

  /** Decoding an encoded message, with anything after it, gives it back and stops right behind it. */
  lemma RoundTrip(m: Msg, tail: seq<byte>)
    requires Representable(m)
    ensures Decode(Encode(m) + tail) == Ok(m, tail)
  {
    hide Members, EncodeFields, EncodeTurns, DecodeBody, Turns, Tag, Representable;
    BodyRoundTrip(m, tail);
    BehindTag(Tag(m), EncodeFields(Members(m)), EncodeTurns(Turns(m)), tail);
  }

  lemma BehindTag(t: byte, x: seq<byte>, y: seq<byte>, tail: seq<byte>)
    ensures var all := ([t] + (x + y)) + tail;
            all != [] && all[0] == t && all[1..] == x + (y + tail)
  {
  }

  // ------------------------------------------------------------------ sizes

  function FieldLength(f: Field): nat {
    if f.Num? then f.width else 4 + |f.s|
  }

  function FieldsLength(fs: seq<Field>): nat {
    if fs == [] then 0 else FieldLength(fs[0]) + FieldsLength(fs[1..])
  }

  lemma {:induction false} EncodedLength(fs: seq<Field>)
    ensures |EncodeFields(fs)| == FieldsLength(fs)
  {
    if fs != [] { EncodedLength(fs[1..]); }
  }

  lemma LengthShort(fs: seq<Field>)
    ensures |fs| == 0 ==> FieldsLength(fs) == 0
    ensures |fs| == 1 ==> FieldsLength(fs) == FieldLength(fs[0])
    ensures |fs| == 2 ==> FieldsLength(fs) == FieldLength(fs[0]) + FieldLength(fs[1])
    ensures |fs| == 3 ==> FieldsLength(fs) == FieldLength(fs[0]) + FieldLength(fs[1]) + FieldLength(fs[2])
  {
    if |fs| >= 2 {
      assert fs[1..][1..] == fs[2..];
      if |fs| == 3 { assert fs[2..][1..] == []; }
    }
  }

  /** Same shapes, same texts: what reading back what was built can differ in is the value of a flag byte. */
  ghost predicate Alike(fs: seq<Field>, gs: seq<Field>) {
    |gs| == |fs| <= 3
    && forall i :: 0 <= i < |fs| ==> ShapeOf(gs[i]) == ShapeOf(fs[i]) && (fs[i].Text? ==> gs[i] == fs[i])
  }

  lemma MembersOfBuild(tag: byte, fs: seq<Field>, ts: seq<TurnServer>)
    requires tag < 25 && Shapes(fs) == Layout(tag) && FieldsFit(fs) && (tag == 24 ==> |ts| == NumAt(fs, 2))
    ensures var m := Build(tag, fs, ts);
            Tag(m) == tag && Turns(m) == (if tag == 24 then ts else []) && Alike(fs, Members(m))
  {
    if tag < 12 { EarlyOfBuild(tag, fs, ts); } else { LateOfBuild(tag, fs, ts); }
    hide Build, Layout, Shapes, FieldsFit, Alike;
  }

  lemma EarlyOfBuild(tag: byte, fs: seq<Field>, ts: seq<TurnServer>)
    requires tag < 12 && Shapes(fs) == Layout(tag) && FieldsFit(fs)
    ensures var m := Build(tag, fs, ts); Tag(m) == tag && Turns(m) == [] && Alike(fs, Members(m))
  {
    ShapesLength(fs);
    ShapesShort(fs);
    hide Shapes, FieldsFit, Pow256;
  }

  lemma LateOfBuild(tag: byte, fs: seq<Field>, ts: seq<TurnServer>)
    requires 12 <= tag < 25 && Shapes(fs) == Layout(tag) && FieldsFit(fs) && (tag == 24 ==> |ts| == NumAt(fs, 2))
    ensures var m := Build(tag, fs, ts);
            Tag(m) == tag && Turns(m) == (if tag == 24 then ts else []) && Alike(fs, Members(m))
  {
    ShapesLength(fs);
    ShapesShort(fs);
    hide Shapes, FieldsFit, Pow256;
  }

  lemma SameLength(fs: seq<Field>, gs: seq<Field>)
    requires |fs| == |gs| <= 3
    requires forall i :: 0 <= i < |fs| ==> ShapeOf(gs[i]) == ShapeOf(fs[i]) && (fs[i].Text? ==> gs[i] == fs[i])
    ensures FieldsLength(fs) == FieldsLength(gs)
  {
    LengthShort(fs);
    LengthShort(gs);
    hide FieldsLength;
    assert forall i :: 0 <= i < |fs| ==> FieldLength(fs[i]) == FieldLength(gs[i]);
  }

  /** Whatever decodes is representable, and its encoding is as long as the bytes it was read from. */
  lemma DecodedSize(s: seq<byte>)
    requires Decode(s).Ok?
    ensures Representable(Decode(s).value) && |Encode(Decode(s).value)| + |Decode(s).rest| == |s|
  {
    hide Layout, Build, Members, Tag, DecodeFields, EncodeFields, Shapes, DecodeTurns, EncodeTurns, TurnFits;
    var tag := s[0];
    FieldsSize(Layout(tag), s[1..]);
    var fs := DecodeFields(Layout(tag), s[1..]);
    var n := if tag == 24 then NumAt(fs.value, 2) else 0;
    TurnsSize(n, fs.rest);
    var ts := DecodeTurns(n, fs.rest).value;
    if tag == 24 { CountFits(fs.value); } else { NoTurns(fs.rest); }
    MembersOfBuild(tag, fs.value, ts);
    var m := Build(tag, fs.value, ts);
    SameLength(fs.value, Members(m));
    EncodedLength(fs.value);
    EncodedLength(Members(m));
    forall i | 0 <= i < |Members(m)| && Members(m)[i].Text? ensures StrFits(Members(m)[i].s) {
      assert FieldFits(fs.value[i]);
    }
  }

  lemma CountFits(fs: seq<Field>)
    requires Shapes(fs) == Layout(24) && FieldsFit(fs)
    ensures NumAt(fs, 2) < 0x1_0000_0000
  {
    ShapesLength(fs);
    ShapesShort(fs);
    hide Shapes;
    Widths();
    assert FieldFits(fs[2]);
  }

  /** The round trip holds exactly for the messages whose lengths survive the encoder's casts. */
  lemma RoundTripExactly(m: Msg)
    ensures Decode(Encode(m)) == Ok(m, []) <==> Representable(m)
  {
    hide Encode, Decode, Representable;
    assert Encode(m) + [] == Encode(m);
    if Representable(m) { RoundTrip(m, []); }
    if Decode(Encode(m)) == Ok(m, []) { DecodedSize(Encode(m)); }
  }

  lemma {:induction false} TurnsLength(ts: seq<TurnServer>, i: nat)
    requires i < |ts|
    ensures |EncodeTurns(ts)| >= |ts|
    ensures |ts[i].host| + |ts[i].username| + |ts[i].password| < |EncodeTurns(ts)|
  {
    EncodedLength(TurnFields(ts[0]));
    var fs := TurnFields(ts[0]);
    assert fs[1..][1..] == fs[2..] && fs[2..][1..] == fs[3..] && fs[3..][1..] == [];
    assert FieldsLength(fs) == 14 + |ts[0].host| + |ts[0].username| + |ts[0].password| by {
      assert FieldsLength(fs[3..]) == 4 + |ts[0].password|;
      assert FieldsLength(fs[2..]) == 8 + |ts[0].username| + |ts[0].password|;
    }
    if |ts| > 1 { TurnsLength(ts[1..], if i == 0 then 0 else i - 1); }
  }

  /** No member is longer than the message. */
  lemma MembersLength(m: Msg)
    ensures forall i :: 0 <= i < |Members(m)| && Members(m)[i].Text? ==> |Members(m)[i].s| < |Encode(m)|
    ensures |Turns(m)| < |Encode(m)|
    ensures forall i :: 0 <= i < |Turns(m)| ==>
              var t := Turns(m)[i]; |t.host| + |t.username| + |t.password| < |Encode(m)|
  {
    EncodedLength(Members(m));
    LengthShort(Members(m));
    hide EncodeFields, EncodeTurns, FieldsLength;
    forall i | 0 <= i < |Turns(m)| ensures |Turns(m)| < |Encode(m)|
      && var t := Turns(m)[i]; |t.host| + |t.username| + |t.password| < |Encode(m)|
    {
      TurnsLength(Turns(m), i);
    }
    if |Turns(m)| > 0 { TurnsLength(Turns(m), 0); }
  }

  // ---------------------------------------------------- the layout, in bytes

  /** Integers go out low byte first, strings behind a 4-byte length. */
  lemma IntegerBytes(x: nat, s: Str)
    ensures EncodeNum(1, x) == [x % 0x100]
    ensures EncodeNum(2, x) == [x % 0x100, x / 0x100 % 0x100]
    ensures EncodeNum(4, x) == [x % 0x100, x / 0x100 % 0x100, x / 0x1_0000 % 0x100, x / 0x100_0000 % 0x100]
    ensures EncodeNum(8, x) == EncodeNum(4, x) + EncodeNum(4, x / 0x1_0000_0000)
    ensures EncodeStr(s) == EncodeNum(4, |s| % 0x1_0000_0000) + s
  {
    FourBytes(x);
    FourBytes(x / 0x1_0000_0000);
    EightBytes(x);
    assert EncodeNum(0, x / 0x100) == [] && EncodeNum(0, x / 0x100 / 0x100) == [];
    assert EncodeNum(1, x) == [x % 0x100] && EncodeNum(1, x / 0x100) == [x / 0x100 % 0x100];
  }

  lemma FourBytes(x: nat)
    ensures EncodeNum(4, x) == [x % 0x100, x / 0x100 % 0x100, x / 0x1_0000 % 0x100, x / 0x100_0000 % 0x100]
  {
    var a := x / 0x100;
    var b := a / 0x100;
    var c := b / 0x100;
    assert b == x / 0x1_0000 && c == x / 0x100_0000;
    assert EncodeNum(0, c / 0x100) == [];
    assert EncodeNum(1, c) == [c % 0x100];
    assert EncodeNum(2, b) == [b % 0x100, c % 0x100];
    assert EncodeNum(3, a) == [a % 0x100, b % 0x100, c % 0x100];
  }

  lemma {:induction false} NumSplit(n: nat, k: nat, x: nat)
    ensures EncodeNum(n + k, x) == EncodeNum(n, x) + EncodeNum(k, Shifted(n, x))
  {
    if n > 0 {
      NumSplit(n - 1, k, x / 0x100);
    } else {
      assert EncodeNum(0, x) == [] && [] + EncodeNum(k, x) == EncodeNum(k, x);
    }
  }

  function Shifted(n: nat, x: nat): nat {
    if n == 0 then x else Shifted(n - 1, x / 0x100)
  }

  lemma EightBytes(x: nat)
    ensures EncodeNum(8, x) == EncodeNum(4, x) + EncodeNum(4, x / 0x1_0000_0000)
  {
    NumSplit(4, 4, x);
    var a := x / 0x100;
    var b := a / 0x100;
    var c := b / 0x100;
    assert Shifted(3, a) == Shifted(2, b) == Shifted(1, c) == c / 0x100 == x / 0x1_0000_0000;
    hide EncodeNum;
  }

  lemma FieldsShort(fs: seq<Field>)
    ensures |fs| == 0 ==> EncodeFields(fs) == []
    ensures |fs| == 1 ==> EncodeFields(fs) == EncodeField(fs[0])
    ensures |fs| == 2 ==> EncodeFields(fs) == EncodeField(fs[0]) + EncodeField(fs[1])
    ensures |fs| == 3 ==> EncodeFields(fs) == EncodeField(fs[0]) + EncodeField(fs[1]) + EncodeField(fs[2])
  {
    hide EncodeField;
    if |fs| >= 1 {
      assert EncodeFields([]) == [];
      assert EncodeField(fs[|fs| - 1]) + [] == EncodeField(fs[|fs| - 1]);
      if |fs| == 2 { assert fs[1..][1..] == []; }
      if |fs| == 3 {
        assert fs[1..][1..] == fs[2..] && fs[2..][1..] == [];
        Assoc(EncodeField(fs[0]), EncodeField(fs[1]), EncodeField(fs[2]));
      }
    }
  }

  /** A message is its index in the variant, then its members in declaration order. */
  lemma WireLayout(m: Msg)
    ensures match m
            case Heartbeat(t) => Encode(m) == [0] + EncodeNum(8, t)
            case AssignClientId(id) => Encode(m) == [1] + EncodeNum(4, id)
            case AssignRoomId(room) => Encode(m) == [2] + EncodeStr(room)
            case CreateRoom => Encode(m) == [3]
            case JoinRoom(room, password) => Encode(m) == [4] + (EncodeStr(room) + EncodeStr(password))
            case RoomError(code, context) => Encode(m) == [5] + (EncodeNum(1, code) + EncodeStr(context))
            case RoomChat(from, text) => Encode(m) == [6] + (EncodeNum(4, from) + EncodeStr(text))
            case LeaveRoom => Encode(m) == [7]
            case PeerJoined(id) => Encode(m) == [8] + EncodeNum(4, id)
            case PeerLeft(id) => Encode(m) == [9] + EncodeNum(4, id)
            case HostChanged(id) => Encode(m) == [10] + EncodeNum(4, id)
            case SetRoomData(key, value) => Encode(m) == [11] + (EncodeStr(key) + EncodeStr(value))
            case RoomDataChanged(key, value) => Encode(m) == [12] + (EncodeStr(key) + EncodeStr(value))
            case SetMemberData(key, value) => Encode(m) == [13] + (EncodeStr(key) + EncodeStr(value))
            case MemberDataChanged(id, key, value) =>
              Encode(m) == [14] + (EncodeNum(4, id) + EncodeStr(key) + EncodeStr(value))
            case KickMember(id) => Encode(m) == [15] + EncodeNum(4, id)
            case TransferHost(id) => Encode(m) == [16] + EncodeNum(4, id)
            case SetRoomJoinable(open) => Encode(m) == [17] + EncodeNum(1, if open then 1 else 0)
            case SetRoomPassword(password) => Encode(m) == [18] + EncodeStr(password)
            case KickedByHost => Encode(m) == [19]
            case RoomAccessChanged(open, passworded) =>
              Encode(m) == [20] + (EncodeNum(1, if open then 1 else 0) + EncodeNum(1, if passworded then 1 else 0))
            case BanMember(id) => Encode(m) == [21] + EncodeNum(4, id)
            case BannedByHost => Encode(m) == [22]
            case P2PSignal(id, kind, payload) => Encode(m) == [23] + (EncodeNum(4, id) + EncodeNum(1, kind) + EncodeStr(payload))
            case IceServers(host, port, turn) =>
              Encode(m) == [24] + ((EncodeStr(host) + EncodeNum(2, port) + EncodeNum(4, |turn| % 0x1_0000_0000)) + EncodeTurns(turn))
  {
    hide EncodeFields, EncodeNum, EncodeStr, EncodeTurns;
    FieldsShort(Members(m));
    NoTurnBytes();
    assert EncodeFields(Members(m)) + [] == EncodeFields(Members(m));
  }

  lemma NoTurnBytes()
    ensures EncodeTurns([]) == []
  {
  }

  /** A TURN server: host, port, user name, password. */
  lemma TurnLayout(t: TurnServer, rest: seq<TurnServer>)
    ensures EncodeTurns([t] + rest)
         == (EncodeStr(t.host) + EncodeNum(2, t.port) + (EncodeStr(t.username) + EncodeStr(t.password))) + EncodeTurns(rest)
  {
    hide EncodeNum, EncodeStr;
    EncodeTurnsCons(t, rest);
    var fs := TurnFields(t);
    FieldsShort(fs[2..]);
    assert fs[1..][1..] == fs[2..];
    Assoc(EncodeField(fs[0]), EncodeField(fs[1]), EncodeFields(fs[2..]));
  }
}
