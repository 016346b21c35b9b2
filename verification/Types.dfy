/** The values that travel through the server: channel data, subscriptions, frames, hooks. */
module Types {
  type SocketId = string
  type UserId = string
  type InstanceId = string
  type Json = string

  datatype Option<+T> = None | Some(value: T)

  /**
   What the two JSON decoders make of a `channel_data` string: it fills the
   user_id/user_info structure, or it is some other JSON value, or no JSON at all.
   A missing user_info is None.
   */
  datatype ChannelData =
    | Member(text: Json, userId: UserId, userInfo: Option<Json>)
    | OtherJson(value: Json)
    | NotJson(text: string)

  /** The stored string read back as JSON. */
  function AsJson(d: ChannelData): Option<Json> {
    match d
    case Member(text, _, _) => Some(text)
    case OtherJson(value) => Some(value)
    case NotJson(_) => None
  }

  /** A RawMessage that was never set marshals as `null`. */
  function Marshalled(info: Option<Json>): Json {
    if info.Some? then info.value else "null"
  }

  /** The fields of a subscription besides its connection. */
  datatype Sub = Sub(id: UserId, data: Option<Json>)

  /** The subscriptions of one channel, by socket ID. */
  type Roster = map<SocketId, Sub>

  /** Names one call of Publish: a serial number, the channel, the socket to skip ("" for none). */
  datatype Tag = Tag(pid: nat, chan: string, ignore: SocketId)

  /** A frame written to a socket. */
  datatype Msg =
    | Established(socketId: SocketId)
    | Pong
    | Error(code: nat, text: string)
    | Succeeded(chan: string, ids: multiset<UserId>, users: set<UserId>, count: nat)
    | MemberAdded(chan: string, data: ChannelData)
    | MemberRemoved(chan: string, userId: UserId)
    | Event(name: string, chan: string, payload: Json, tag: Tag)

  datatype Hook =
    | Occupied(chan: string)
    | Vacated(chan: string)
    | MemberJoined(chan: string, userId: UserId)
    | MemberLeft(chan: string, userId: UserId)
    | ClientEvent(chan: string, event: string, payload: Json, socketId: SocketId, userId: UserId)

  /** The frames written to each socket, oldest first. */
  type Logs = map<SocketId, seq<Msg>>

  function LogOf(logs: Logs, s: SocketId): seq<Msg> {
    if s in logs then logs[s] else []
  }

  /** One frame to each socket in `to`. */
  function FanOut(logs: Logs, to: set<SocketId>, m: Msg): (r: Logs)
    ensures forall s :: LogOf(r, s) == if s in to then LogOf(logs, s) + [m] else LogOf(logs, s)
  {
    map s | s in logs.Keys + to :: if s in to then LogOf(logs, s) + [m] else LogOf(logs, s)
  }
}
