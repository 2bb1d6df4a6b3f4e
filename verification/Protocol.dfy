/**
 The vocabulary of the server connection: machine integers, byte strings, the
 message variant and the size limits (Shared/protocol.h).
 */
module Protocol {

  type byte = n: int | 0 <= n < 0x100
  type u16 = n: int | 0 <= n < 0x1_0000
  type u32 = n: int | 0 <= n < 0x1_0000_0000
  type u64 = n: int | 0 <= n < 0x1_0000_0000_0000_0000

  /** A std::string: any bytes, no encoding implied. */
  type Str = seq<byte>
  /** A connection id; 0 is reserved as "none". */
  type Id = u32

  datatype TurnServer = TurnServer(host: Str, port: u16, username: Str, password: Str)

  /**
   The variant, in wire order. Error codes and signal kinds stay raw bytes:
   the decoder copies whatever byte arrived into the enum.
   */
  datatype Msg =
    | Heartbeat(timestamp: u64)
    | AssignClientId(id: Id)
    | AssignRoomId(room: Str)
    | CreateRoom
    | JoinRoom(room: Str, password: Str)
    | RoomError(code: byte, context: Str)
    | RoomChat(from: Id, text: Str)
    | LeaveRoom
    | PeerJoined(id: Id)
    | PeerLeft(id: Id)
    | HostChanged(id: Id)
    | SetRoomData(key: Str, value: Str)
    | RoomDataChanged(key: Str, value: Str)
    | SetMemberData(key: Str, value: Str)
    | MemberDataChanged(id: Id, key: Str, value: Str)
    | KickMember(id: Id)
    | TransferHost(id: Id)
    | SetRoomJoinable(open: bool)
    | SetRoomPassword(password: Str)
    | KickedByHost
    | RoomAccessChanged(open: bool, passworded: bool)
    | BanMember(id: Id)
    | BannedByHost
    | P2PSignal(id: Id, kind: byte, payload: Str)
    | IceServers(stunHost: Str, stunPort: u16, turn: seq<TurnServer>)

  const ALREADY_IN_ROOM: byte := 0
  const NO_SUCH_ROOM: byte := 1
  const NOT_IN_ROOM: byte := 2
  const NOT_HOST: byte := 3
  const BAD_ROOM_DATA: byte := 4
  const NO_SUCH_MEMBER: byte := 5
  const ROOM_CLOSED: byte := 6
  const BAD_PASSWORD: byte := 7
  const BANNED: byte := 8

  const DESCRIPTION: byte := 0
  const CANDIDATE: byte := 1
  const GATHERING_DONE: byte := 2

  const MAX_P2P_MESSAGE := 1024
  const MAX_MESSAGE := 1024
  const MAX_KEY := 128
  const MAX_VALUE := 512
  const MAX_ROOM_KEYS := 64
  const MAX_MEMBER_KEYS := 16
  const MAX_PASSWORD := 64
}
