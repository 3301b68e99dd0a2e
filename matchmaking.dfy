/**
 * Room matchmaking, the code the two `handleSubmit` handlers of the
 * initialize route share: resolve the session's agent identity, scan the
 * `conversations` snapshot for an open room (active, exactly one agent; the
 * last such room in enumeration order wins), then either add the caller to
 * that room's `agents` or push a fresh room created by the caller.
 */
module Matchmaking {
  import opened Wrappers
  import opened JsValue
  import opened JsString
  import opened Store

  /** Session-storage key of the agent identity. */
  const IdKey := "ai_agent_uid"
  /** Prefix of a generated agent identity. */
  const AgentPrefix := "agent_"

  /** `data.isActive && Object.keys(data.agents || {}).length === 1` */
  predicate IsOpen(r: Room) {
    Truthy(r.isActive) && |AgentSet(r)| == 1
  }

  /** Where `Object.keys(data.agents)` throws: an active room without `agents`. */
  predicate ThrowsOnRead(r: Room) {
    Truthy(r.isActive) && r.agents.None?
  }

  /** How a handler reads a room's `agents`: with the `|| {}` default (the
      page's handler) or without it (the code viewer's handler). */
  datatype AgentsRead = DefaultEmpty | Unguarded

  /** The position of the last open room among the children, -1 if none. */
  function LastOpenIndex(c: seq<(RoomId, Room)>): (i: int)
    ensures -1 <= i < |c|
    ensures i >= 0 ==> IsOpen(c[i].1)
    ensures forall j :: i < j < |c| ==> !IsOpen(c[j].1)
  {
    if c == [] then -1
    else if IsOpen(c[|c| - 1].1) then |c| - 1
    else LastOpenIndex(c[..|c| - 1])
  }

  /** The key the scan settles on ("last match wins"). */
  function LastOpen(c: seq<(RoomId, Room)>): Option<RoomId> {
    var i := LastOpenIndex(c);
    if i < 0 then None else Some(c[i].0)
  }

  /** No room of the store is open. */
  predicate NoOpenRoom(rooms: map<RoomId, Room>) {
    forall k :: k in rooms ==> !IsOpen(rooms[k])
  }

  predicate ScanThrows(c: seq<(RoomId, Room)>, read: AgentsRead) {
    read == Unguarded && exists j :: 0 <= j < |c| && ThrowsOnRead(c[j].1)
  }

  /** The `snapshot.forEach` scan with its mutable `chatRoomId`. */
  method ScanRooms(children: seq<(RoomId, Room)>, read: AgentsRead) returns (r: Completion<Option<RoomId>>)
    ensures r.TypeError? <==> ScanThrows(children, read)
    ensures r.Normal? ==> r.value == LastOpen(children)
  {
    var chatRoomId: Option<RoomId> := None;
    var i := 0;
    while i < |children|
      invariant 0 <= i <= |children|
      invariant chatRoomId == LastOpen(children[..i])
      invariant read == Unguarded ==> forall j :: 0 <= j < i ==> !ThrowsOnRead(children[j].1)
    {
      var (key, data) := children[i];
      if read == Unguarded && ThrowsOnRead(data) {
        return TypeError;
      }
      if IsOpen(data) {
        chatRoomId := Some(key);
      }
      assert children[..i + 1][..i] == children[..i];
      i := i + 1;
    }
    assert children[..i] == children;
    return Normal(chatRoomId);
  }

  /** The room a caller writes when it finds no open room. The `messages: {}`
      it writes is not stored by the database, which keeps no empty maps, so a
      later read would find no `messages` child; nothing in the modelled code
      reads `messages`, so the value written is kept as it is. */
  function NewRoom(uid: AgentId): Room {
    Room(uid, Bool(true), Some({uid}), Num("0"), Obj(map[]))
  }

  /** The write `conversations/{id}/agents/{uid} = true`. */
  function Join(r: Room, uid: AgentId): Room {
    r.(agents := Some(AgentSet(r) + {uid}))
  }

  /** The store after a caller is placed, and the room it is placed in. */
  datatype Placement = Placement(rooms: map<RoomId, Room>, order: seq<RoomId>, roomId: RoomId)

  /** What a successful `handleSubmit` does to the store: join the open room
      the scan chose, or push `freshId` holding a new room. */
  function Place(rooms: map<RoomId, Room>, order: seq<RoomId>, uid: AgentId, freshId: RoomId): Placement
    requires WellFormed(rooms, order) && freshId !in rooms && freshId != ""
  {
    match LastOpen(Children(rooms, order))
    case Some(k) => Placement(rooms[k := Join(rooms[k], uid)], order, k)
    case None => Placement(rooms[freshId := NewRoom(uid)], order + [freshId], freshId)
  }

  /** The route a successful submit pushes, followed by the room id. */
  const ChatRoutePrefix := "/chat/"

  /** What a submit handler shows: the alert and the route pushed, if any. */
  datatype Submitted = Submitted(alert: Option<string>, route: Option<string>)

  /** Why matchmaking stopped without placing the caller. */
  datatype MatchOutcome = Entered(roomId: RoomId) | StoreError(message: string) | ScanError

  /** Scan-then-write against the store, as both handlers do it inside their `try`. */
  method FindOrCreateRoom(store: Conversations, uid: AgentId, freshId: RoomId, read: AgentsRead, net: Connectivity)
    returns (outcome: MatchOutcome)
    requires store.Valid() && freshId !in store.rooms && freshId != ""
    modifies store
    ensures store.Valid()
    ensures net.ReadFails? ==> outcome == StoreError(net.message)
    ensures !net.ReadFails? && ScanThrows(Children(old(store.rooms), old(store.order)), read) ==> outcome == ScanError
    ensures net.WriteFails? && !ScanThrows(Children(old(store.rooms), old(store.order)), read) ==>
              outcome == StoreError(net.message)
    ensures outcome.Entered? <==>
              !net.ReadFails? && !ScanThrows(Children(old(store.rooms), old(store.order)), read) && !net.WriteFails?
    ensures !outcome.Entered? ==> store.rooms == old(store.rooms) && store.order == old(store.order)
    ensures outcome.Entered? ==>
              var p := Place(old(store.rooms), old(store.order), uid, freshId);
              store.rooms == p.rooms && store.order == p.order && outcome.roomId == p.roomId
  {
    if net.ReadFails? {
      return StoreError(net.message);
    }
    var children := Children(store.rooms, store.order);
    var scanned := ScanRooms(children, read);
    if scanned.TypeError? {
      return ScanError;
    }
    var chatRoomId := scanned.value;
    if net.WriteFails? {
      return StoreError(net.message);
    }
    if chatRoomId.Some? && chatRoomId.value != "" {
      var k := chatRoomId.value;
      store.rooms := store.rooms[k := Join(store.rooms[k], uid)];
      outcome := Entered(k);
    } else {
      store.rooms := store.rooms[freshId := NewRoom(uid)];
      store.order := store.order + [freshId];
      outcome := Entered(freshId);
    }
  }

  /** Reuse the session's `ai_agent_uid`, or generate `agent_` + `freshSuffix`
      (the random part) and store it. An empty stored value counts as absent. */
  method ResolveAgentId(session: SessionStorage, freshSuffix: string) returns (uid: AgentId)
    modifies session
    ensures var stored := old(session.GetItem(IdKey));
            if stored.Some? && stored.value != "" then
              uid == stored.value && session.items == old(session.items)
            else
              uid == AgentPrefix + freshSuffix && session.items == old(session.items)[IdKey := uid]
  {
    var stored := session.GetItem(IdKey);
    if stored.Some? && stored.value != "" {
      uid := stored.value;
    } else {
      uid := AgentPrefix + freshSuffix;
      session.SetItem(IdKey, uid);
    }
  }

  /** A generated identity starts with `agent_`. */
  lemma GeneratedIdHasPrefix(freshSuffix: string)
    ensures StartsWith(AgentPrefix + freshSuffix, AgentPrefix)
  {
    assert (AgentPrefix + freshSuffix)[..|AgentPrefix|] == AgentPrefix;
  }

  // ---------------------------------------------------------------------
  // Properties of a placement

  /** The scan picks an open room, and no open room comes after it. */
  lemma LastOpenIsLastMatch(rooms: map<RoomId, Room>, order: seq<RoomId>, k: RoomId)
    requires WellFormed(rooms, order)
    requires LastOpen(Children(rooms, order)) == Some(k)
    ensures k in rooms && IsOpen(rooms[k])
    ensures exists i :: 0 <= i < |order| && order[i] == k && forall j :: i < j < |order| ==> !IsOpen(rooms[order[j]])
  {
    var c := Children(rooms, order);
    var i := LastOpenIndex(c);
    assert forall j :: i < j < |order| ==> !IsOpen(c[j].1);
  }

  /** With no open room the scan finds nothing, and conversely. */
  lemma LastOpenNoneIffNoOpenRoom(rooms: map<RoomId, Room>, order: seq<RoomId>)
    requires WellFormed(rooms, order)
    ensures LastOpen(Children(rooms, order)) == None <==> NoOpenRoom(rooms)
  {
    var c := Children(rooms, order);
    if LastOpen(c) == None {
      forall k | k in rooms ensures !IsOpen(rooms[k]) {
        var i :| 0 <= i < |order| && order[i] == k;
        assert c[i].1 == rooms[k];
      }
    }
  }

  /** The unguarded scan throws exactly when some room of the store is
      active and has no `agents`; the guarded scan never throws. */
  lemma ScanThrowsIffActiveWithoutAgents(rooms: map<RoomId, Room>, order: seq<RoomId>)
    requires WellFormed(rooms, order)
    ensures ScanThrows(Children(rooms, order), Unguarded) <==> exists k :: k in rooms && ThrowsOnRead(rooms[k])
    ensures !ScanThrows(Children(rooms, order), DefaultEmpty)
  {
    var c := Children(rooms, order);
    if exists k :: k in rooms && ThrowsOnRead(rooms[k]) {
      var k :| k in rooms && ThrowsOnRead(rooms[k]);
      var i :| 0 <= i < |order| && order[i] == k;
      assert ThrowsOnRead(c[i].1);
    }
  }

  /** Joining writes only `agents[uid] = true` in the chosen room: the key
      set, the order, every other room and every other field are unchanged. */
  lemma JoinChangesOnlyChosenAgents(rooms: map<RoomId, Room>, order: seq<RoomId>, uid: AgentId, freshId: RoomId)
    requires WellFormed(rooms, order) && freshId !in rooms && freshId != ""
    requires LastOpen(Children(rooms, order)).Some?
    ensures var k := LastOpen(Children(rooms, order)).value;
            var p := Place(rooms, order, uid, freshId);
            && p.roomId == k && k in rooms
            && p.order == order && p.rooms.Keys == rooms.Keys
            && p.rooms[k].agents == Some(AgentSet(rooms[k]) + {uid})
            && p.rooms[k].createdBy == rooms[k].createdBy
            && p.rooms[k].isActive == rooms[k].isActive
            && p.rooms[k].viewers == rooms[k].viewers
            && p.rooms[k].messages == rooms[k].messages
            && (forall k' :: k' in rooms && k' != k ==> p.rooms[k'] == rooms[k'])
  {
    LastOpenIsLastMatch(rooms, order, LastOpen(Children(rooms, order)).value);
  }

  /** A caller that is already the sole agent of the chosen room "joins" it
      again: the store does not change and the room still has one agent. */
  lemma SelfJoinChangesNothing(rooms: map<RoomId, Room>, order: seq<RoomId>, uid: AgentId, freshId: RoomId)
    requires WellFormed(rooms, order) && freshId !in rooms && freshId != ""
    requires var chosen := LastOpen(Children(rooms, order));
             chosen.Some? && AgentSet(rooms[chosen.value]) == {uid}
    ensures var p := Place(rooms, order, uid, freshId);
            p.rooms == rooms && p.order == order && |AgentSet(p.rooms[p.roomId])| == 1
  {
    var k := LastOpen(Children(rooms, order)).value;
    LastOpenIsLastMatch(rooms, order, k);
    assert rooms[k].agents == Some({uid});
    assert AgentSet(rooms[k]) + {uid} == {uid};
    assert Join(rooms[k], uid) == rooms[k];
  }

  /** With no open room a fresh room created by the caller is added and
      every existing room is untouched. */
  lemma CreateAddsFreshRoom(rooms: map<RoomId, Room>, order: seq<RoomId>, uid: AgentId, freshId: RoomId)
    requires WellFormed(rooms, order) && freshId !in rooms && freshId != ""
    requires NoOpenRoom(rooms)
    ensures var p := Place(rooms, order, uid, freshId);
            && p.roomId == freshId
            && p.rooms == rooms[freshId := Room(uid, Bool(true), Some({uid}), Num("0"), Obj(map[]))]
            && p.order == order + [freshId]
            && (forall k :: k in rooms ==> k in p.rooms && p.rooms[k] == rooms[k])
  {
    LastOpenNoneIffNoOpenRoom(rooms, order);
  }

  /** On success the caller is among the agents of the room it is sent to,
      and the store stays well formed. */
  lemma PlacedRoomHoldsCaller(rooms: map<RoomId, Room>, order: seq<RoomId>, uid: AgentId, freshId: RoomId)
    requires WellFormed(rooms, order) && freshId !in rooms && freshId != ""
    ensures var p := Place(rooms, order, uid, freshId);
            p.roomId in p.rooms && uid in AgentSet(p.rooms[p.roomId]) && WellFormed(p.rooms, p.order)
  {
    var p := Place(rooms, order, uid, freshId);
    if LastOpen(Children(rooms, order)).None? {
      forall i, j | 0 <= i < j < |p.order| ensures p.order[i] != p.order[j] {
        if j == |order| {
          assert p.order[i] == order[i] && order[i] in rooms;
        }
      }
    } else {
      LastOpenIsLastMatch(rooms, order, p.roomId);
    }
  }

  /** No room of the store has more than two agents. */
  predicate AtMostTwoAgents(rooms: map<RoomId, Room>) {
    forall k :: k in rooms ==> |AgentSet(rooms[k])| <= 2
  }

  /** Sequential callers never put a third agent into a room: a join only
      happens in a room that has exactly one agent. */
  lemma PlacePreservesAtMostTwo(rooms: map<RoomId, Room>, order: seq<RoomId>, uid: AgentId, freshId: RoomId)
    requires WellFormed(rooms, order) && freshId !in rooms && freshId != ""
    requires AtMostTwoAgents(rooms)
    ensures AtMostTwoAgents(Place(rooms, order, uid, freshId).rooms)
  {
    var p := Place(rooms, order, uid, freshId);
    match LastOpen(Children(rooms, order))
    case Some(k) =>
      LastOpenIsLastMatch(rooms, order, k);
      assert |AgentSet(rooms[k]) + {uid}| <= |AgentSet(rooms[k])| + |{uid}|;
    case None =>
  }

  /** Two sequential callers with distinct identities arriving at a store
      without an open room are paired: the first creates a room, the second
      joins that same room, which then holds exactly the two of them, and
      the store again has no open room. */
  lemma SequentialCallersArePaired(rooms: map<RoomId, Room>, order: seq<RoomId>,
                                   a: AgentId, idA: RoomId, b: AgentId, idB: RoomId)
    requires WellFormed(rooms, order) && NoOpenRoom(rooms)
    requires idA !in rooms && idA != "" && idB !in rooms && idB != "" && idB != idA
    requires a != b
    ensures var p1 := Place(rooms, order, a, idA);
            var p2 := Place(p1.rooms, p1.order, b, idB);
            && p1.roomId == idA && p2.roomId == idA
            && AgentSet(p2.rooms[idA]) == {a, b}
            && p2.rooms[idA].createdBy == a
            && p2.order == order + [idA]
            && NoOpenRoom(p2.rooms)
  {
    CreateAddsFreshRoom(rooms, order, a, idA);
    PlacedRoomHoldsCaller(rooms, order, a, idA);
    var p1 := Place(rooms, order, a, idA);
    var c := Children(p1.rooms, p1.order);
    var i := LastOpenIndex(c);
    assert c[|order|].0 == idA && IsOpen(c[|order|].1);
    assert i == |order|;
    assert LastOpen(c) == Some(idA);
    var p2 := Place(p1.rooms, p1.order, b, idB);
    assert AgentSet(p2.rooms[idA]) == {a, b};
    assert |{a, b}| == 2;
  }
}
