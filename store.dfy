/**
 * The state the matchmaking code reads and writes: the `conversations` node
 * of the realtime database and the browser's session storage. Only the
 * operations the core performs on them are modelled (read a snapshot, write
 * one key, push a child; get and set a session item).
 */
module Store {
  import opened Wrappers
  import opened JsValue

  /** A child key of `conversations` (a push key). */
  type RoomId = string
  /** A participant identity, `agent_` followed by random characters. */
  type AgentId = string

  /** One conversation room as stored under `conversations/{roomId}`.
      `agents` maps identities to `true`, so it is a set of identities;
      `None` is a room with no `agents` child (the database stores no empty
      maps). `isActive`, `viewers` and `messages` are whatever was written. */
  datatype Room = Room(
    createdBy: AgentId,
    isActive: Value,
    agents: Option<set<AgentId>>,
    viewers: Value,
    messages: Value)

  /** `data.agents || {}` seen as a set of identities. */
  function AgentSet(r: Room): set<AgentId> {
    match r.agents
    case Some(a) => a
    case None => {}
  }

  /** How the database answers this session's requests: every request
      succeeds, the snapshot read is rejected, or the write is rejected. */
  datatype Connectivity = Online | ReadFails(message: string) | WriteFails(message: string)

  /** A consistent `conversations` node: `order` lists every room key once,
      in the order a snapshot enumerates the children, and no key is empty. */
  ghost predicate WellFormed(rooms: map<RoomId, Room>, order: seq<RoomId>) {
    && (forall i, j :: 0 <= i < j < |order| ==> order[i] != order[j])
    && (forall k :: k in rooms <==> k in order)
    && "" !in rooms
  }

  /** The snapshot's children as `forEach` visits them: every room exactly
      once, with its key and value, in enumeration order. */
  function Children(rooms: map<RoomId, Room>, order: seq<RoomId>): (c: seq<(RoomId, Room)>)
    requires WellFormed(rooms, order)
    ensures |c| == |order|
    ensures forall i, j :: 0 <= i < j < |c| ==> c[i].0 != c[j].0
    ensures forall k :: k in rooms <==> exists i :: 0 <= i < |c| && c[i].0 == k
    ensures forall i :: 0 <= i < |c| ==> c[i].0 in rooms && c[i].1 == rooms[c[i].0]
    ensures forall i :: 0 <= i < |c| ==> c[i].0 == order[i]
  {
    var c := seq(|order|, i requires 0 <= i < |order| => (order[i], rooms[order[i]]));
    assert forall k :: k in order ==> exists i :: 0 <= i < |c| && c[i].0 == k by {
      forall k | k in order
        ensures exists i :: 0 <= i < |c| && c[i].0 == k
      {
        var i :| 0 <= i < |order| && order[i] == k;
        assert c[i].0 == k;
      }
    }
    c
  }

  /** The `conversations` node of the realtime database. */
  class Conversations {
    var rooms: map<RoomId, Room>
    var order: seq<RoomId>

    ghost predicate Valid()
      reads this
    {
      WellFormed(rooms, order)
    }

    constructor (rooms: map<RoomId, Room>, order: seq<RoomId>)
      requires WellFormed(rooms, order)
      ensures Valid() && this.rooms == rooms && this.order == order
    {
      this.rooms := rooms;
      this.order := order;
    }
  }

  /** The browser's `sessionStorage`: string keys to string values. */
  class SessionStorage {
    var items: map<string, string>

    constructor (items: map<string, string>)
      ensures this.items == items
    {
      this.items := items;
    }

    /** `getItem(key)`: `None` plays the part of `null`. */
    function GetItem(key: string): Option<string>
      reads this
    {
      if key in items then Some(items[key]) else None
    }

    /** `setItem(key, value)` */
    method SetItem(key: string, value: string)
      modifies this
      ensures items == old(items)[key := value]
    {
      items := items[key := value];
    }
  }
}
