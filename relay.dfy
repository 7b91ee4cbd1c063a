/**
 * The relay server of server/index.js: a socket.io namespace that forwards
 * canvas, clear, code and chat events without looking at them, and keeps
 * room membership only for the `user-connected` / `user-disconnected`
 * notifications. Payloads are opaque JSON texts.
 */
module Relay {

  type SocketId = string
  type RoomId = string
  type UserId = string
  type Payload = string

  /** The events the server emits to clients. */
  datatype ServerEvent =
    | CanvasData(data: Payload)
    | Clear
    | CodeUpdate(data: Payload)
    | ReceiveMessage(data: Payload)
    | UserConnected(user: UserId)
    | UserDisconnected(user: UserId)

  /** One `emit`: the sockets it reaches and what they receive. */
  datatype Emission = Emission(audience: set<SocketId>, event: ServerEvent)

  /** One `join-room` call, remembered by the disconnect listener it registers. */
  datatype Join = Join(room: RoomId, user: UserId)

  /** The rooms a socket has joined, given the joins it made in order. */
  function JoinedRooms(joins: seq<Join>): (rs: set<RoomId>)
    ensures forall r :: r in rs <==> exists i :: 0 <= i < |joins| && joins[i].room == r
  {
    if joins == [] then {}
    else
      var rest := JoinedRooms(joins[..|joins| - 1]);
      assert forall i :: 0 <= i < |joins| - 1 ==> joins[..|joins| - 1][i] == joins[i];
      rest + {joins[|joins| - 1].room}
  }

  lemma JoinedRoomsSnoc(joins: seq<Join>, j: Join)
    ensures JoinedRooms(joins + [j]) == JoinedRooms(joins) + {j.room}
  {
    assert (joins + [j])[..|joins|] == joins;
  }

  /** The sockets currently in room `r`. */
  function Members(rooms: map<SocketId, set<RoomId>>, r: RoomId): (members: set<SocketId>)
    ensures forall t :: t in members <==> t in rooms && r in rooms[t]
  {
    set s | s in rooms && r in rooms[s]
  }

  /** What the disconnect listeners of `leaver` emit, one per join, in registration order. */
  function DisconnectNotices(joins: seq<Join>, rooms: map<SocketId, set<RoomId>>, leaver: SocketId): (out: seq<Emission>)
    ensures |out| == |joins|
    ensures forall i :: 0 <= i < |joins| ==>
      out[i].event == UserDisconnected(joins[i].user) &&
      (forall t :: t in out[i].audience <==> t in rooms && joins[i].room in rooms[t] && t != leaver)
  {
    if joins == [] then []
    else
      var j := joins[|joins| - 1];
      DisconnectNotices(joins[..|joins| - 1], rooms, leaver) + [Emission(Members(rooms, j.room) - {leaver}, UserDisconnected(j.user))]
  }

  /** The events socket `t` receives from a run of emissions, in order. */
  function Received(out: seq<Emission>, t: SocketId): (evs: seq<ServerEvent>)
    ensures |evs| <= |out|
  {
    if out == [] then []
    else Received(out[..|out| - 1], t) + (if t in out[|out| - 1].audience then [out[|out| - 1].event] else [])
  }

  class RelayServer {
    var connected: set<SocketId>
    /** The adapter's room table: the rooms each connected socket has joined. */
    var rooms: map<SocketId, set<RoomId>>
    /** The `disconnect` listeners of each socket, one per join, in registration order. */
    var hooks: map<SocketId, seq<Join>>
    /** Declared by the server and never written. */
    var users: map<UserId, SocketId>

    ghost predicate Valid()
      reads this
    {
      rooms.Keys == connected && hooks.Keys == connected && users == map[] &&
      forall s :: s in connected ==> rooms[s] == JoinedRooms(hooks[s])
    }

    constructor ()
      ensures Valid() && connected == {}
    {
      connected, rooms, hooks, users := {}, map[], map[], map[];
    }

    /** `io.on("connection")`: a new socket with no rooms and no listeners. */
    method Connect(s: SocketId)
      requires Valid() && s !in connected
      modifies this
      ensures Valid()
      ensures connected == old(connected) + {s}
      ensures rooms == old(rooms)[s := {}] && hooks == old(hooks)[s := []]
    {
      connected := connected + {s};
      rooms := rooms[s := {}];
      hooks := hooks[s := []];
    }

    /** `canvas-data`: the same payload to every other socket, whatever rooms anyone is in. */
    method OnCanvasData(s: SocketId, data: Payload) returns (out: seq<Emission>)
      requires Valid() && s in connected
      ensures |out| == 1 && out[0].event == CanvasData(data)
      ensures forall t :: t in out[0].audience <==> t in connected && t != s
    {
      out := [Emission(connected - {s}, CanvasData(data))];
    }

    /** `clear`: to every connected socket, the sender included. */
    method OnClear(s: SocketId) returns (out: seq<Emission>)
      requires Valid() && s in connected
      ensures |out| == 1 && out[0].event == Clear
      ensures s in out[0].audience
      ensures forall t :: t in out[0].audience <==> t in connected
    {
      out := [Emission(connected, Clear)];
    }

    /** `code-change`: re-emitted as `code-update`, same payload, to every other socket. */
    method OnCodeChange(s: SocketId, data: Payload) returns (out: seq<Emission>)
      requires Valid() && s in connected
      ensures |out| == 1 && out[0].event == CodeUpdate(data)
      ensures forall t :: t in out[0].audience <==> t in connected && t != s
    {
      out := [Emission(connected - {s}, CodeUpdate(data))];
    }

    /** `send-message`: re-emitted as `receive-message`, same payload, to every other socket. */
    method OnSendMessage(s: SocketId, data: Payload) returns (out: seq<Emission>)
      requires Valid() && s in connected
      ensures |out| == 1 && out[0].event == ReceiveMessage(data)
      ensures forall t :: t in out[0].audience <==> t in connected && t != s
    {
      out := [Emission(connected - {s}, ReceiveMessage(data))];
    }

    /**
     * `join-room`: the socket joins `r` on top of its earlier rooms, the other
     * members of `r` hear `user-connected`, and one more disconnect listener
     * is registered for this room and user.
     */
    method OnJoinRoom(s: SocketId, r: RoomId, u: UserId) returns (out: seq<Emission>)
      requires Valid() && s in connected
      modifies this
      ensures Valid()
      ensures connected == old(connected) && users == old(users)
      ensures rooms == old(rooms)[s := old(rooms[s]) + {r}]
      ensures hooks == old(hooks)[s := old(hooks[s]) + [Join(r, u)]]
      ensures |out| == 1 && out[0].event == UserConnected(u)
      ensures forall t :: t in out[0].audience <==> t in connected && r in rooms[t] && t != s
    {
      JoinedRoomsSnoc(hooks[s], Join(r, u));
      rooms := rooms[s := rooms[s] + {r}];
      hooks := hooks[s := hooks[s] + [Join(r, u)]];
      out := [Emission(Members(rooms, r) - {s}, UserConnected(u))];
    }

    /**
     * Connection loss: the socket leaves every room, then each of its
     * disconnect listeners tells the remaining members of its room that the
     * user of that join left.
     */
    method OnDisconnect(s: SocketId) returns (out: seq<Emission>)
      requires Valid() && s in connected
      modifies this
      ensures Valid()
      ensures connected == old(connected) - {s} && users == old(users)
      ensures rooms == old(rooms) - {s} && hooks == old(hooks) - {s}
      ensures out == DisconnectNotices(old(hooks[s]), rooms, s)
    {
      var joins := hooks[s];
      connected := connected - {s};
      rooms := rooms - {s};
      hooks := hooks - {s};
      out := DisconnectNotices(joins, rooms, s);
    }
  }

  /**
   * After a disconnect, a remaining socket hears one `user-disconnected` per
   * join the leaver made into a room it shares, carrying that join's user id;
   * the leaver hears nothing.
   */
  lemma {:induction false} DisconnectReceived(joins: seq<Join>, rooms: map<SocketId, set<RoomId>>, leaver: SocketId, t: SocketId)
    ensures t == leaver ==> Received(DisconnectNotices(joins, rooms, leaver), t) == []
    ensures t != leaver && t in rooms ==>
      Received(DisconnectNotices(joins, rooms, leaver), t) == NoticesFor(joins, rooms[t])
    decreases |joins|
  {
    if joins != [] {
      var init := joins[..|joins| - 1];
      DisconnectReceived(init, rooms, leaver, t);
      var out := DisconnectNotices(joins, rooms, leaver);
      assert out[..|out| - 1] == DisconnectNotices(init, rooms, leaver);
    }
  }

  /** The user ids of the joins into rooms among `rs`, in join order. */
  function NoticesFor(joins: seq<Join>, rs: set<RoomId>): (evs: seq<ServerEvent>)
    ensures |evs| <= |joins|
  {
    if joins == [] then []
    else
      var j := joins[|joins| - 1];
      NoticesFor(joins[..|joins| - 1], rs) + (if j.room in rs then [UserDisconnected(j.user)] else [])
  }
}
