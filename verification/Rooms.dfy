/**
 src/room.rs, one call at a time: the room manager with its three maps updated in place. Every
 method is tied to the function of `RoomIndex` or `Broadcasts` that says what the whole call does.
 */
module Rooms {
  import opened Messages
  import opened Connections
  import opened RoomIndex
  import opened Broadcasts

  datatype RoomError = ConnectionNotFound(id: ConnectionId) | RoomNotFound(room: RoomId)

  class Room {
    const id: RoomId
    var members: set<ConnectionId>

    constructor (id: RoomId)
      ensures this.id == id && members == {}
    {
      this.id, members := id, {};
    }

    method Join(connectionId: ConnectionId)
      modifies this
      ensures members == old(members) + {connectionId}
    {
      members := members + {connectionId};
    }

    method Leave(connectionId: ConnectionId) returns (was: bool)
      modifies this
      ensures members == old(members) - {connectionId}
      ensures was <==> connectionId in old(members)
    {
      was := connectionId in members;
      members := members - {connectionId};
    }
  }

  class RoomManager {
    var rooms: map<RoomId, Room>
    var connectionRooms: map<ConnectionId, set<RoomId>>
    var connections: map<ConnectionId, Connection>

    /** Every entry is filed under its own id, so distinct keys name distinct objects. */
    ghost predicate Valid()
      reads this
    {
      && (forall r :: r in rooms ==> rooms[r].id == r)
      && (forall c :: c in connections ==> connections[c].id == c)
    }

    ghost function View(): Index
      reads this, rooms.Values
    {
      Index(RoomsView(), connectionRooms, connections.Keys)
    }

    ghost function Links(): Links
      reads this`connections, connections.Values
    {
      map c | c in connections :: connections[c].Snapshot()
    }

    constructor ()
      ensures Valid() && View() == EMPTY
    {
      rooms, connectionRooms, connections := map[], map[], map[];
    }

    method RegisterConnection(connection: Connection)
      requires Valid()
      modifies this
      ensures Valid() && View() == AfterRegister(old(View()), connection.id)
      ensures connections == old(connections)[connection.id := connection]
      ensures rooms == old(rooms)
    {
      connections := connections[connection.id := connection];
      connectionRooms := connectionRooms[connection.id := {}];
    }

    /** `remove_if(room_id, |_, room| room.is_empty())`. */
    method RemoveIfEmpty(roomId: RoomId)
      modifies this`rooms
      ensures rooms == if roomId in old(rooms) && old(rooms[roomId].members) == {} then old(rooms) - {roomId}
                       else old(rooms)
    {
      if roomId in rooms && rooms[roomId].members == {} {
        rooms := rooms - {roomId};
      }
    }

    ghost function RoomsView(): map<RoomId, set<ConnectionId>>
      reads this`rooms, rooms.Values
    {
      map r | r in rooms :: rooms[r].members
    }

    /** One round of the loop in `UnregisterConnection`. */
    method LeaveAndRemoveIfEmpty(connectionId: ConnectionId, roomId: RoomId)
      requires Valid()
      modifies this`rooms, rooms.Values
      ensures Valid() && RoomsView() == LeaveAndPrune(old(RoomsView()), connectionId, roomId)
      ensures rooms.Values <= old(rooms.Values)
    {
      if roomId in rooms {
        var _ := rooms[roomId].Leave(connectionId);
      }
      RemoveIfEmpty(roomId);
    }

    /** The loop of `UnregisterConnection`, over the rooms in any order. */
    method LeaveEach(connectionId: ConnectionId, roomIds: set<RoomId>)
      requires Valid()
      modifies this`rooms, rooms.Values
      ensures Valid() && RoomsView() == LeaveAll(old(RoomsView()), connectionId, roomIds)
      ensures rooms.Values <= old(rooms.Values)
    {
      ghost var before := RoomsView();
      var todo := roomIds;
      ghost var left: set<RoomId> := {};
      while todo != {}
        invariant left + todo == roomIds && left !! todo && Valid()
        invariant RoomsView() == LeaveAll(before, connectionId, left)
        invariant rooms.Values <= old(rooms.Values)
        decreases todo
      {
        var roomId :| roomId in todo;
        LeaveAndRemoveIfEmpty(connectionId, roomId);
        LeaveAllNext(before, connectionId, left, roomId);
        left, todo := left + {roomId}, todo - {roomId};
      }
      assert left == roomIds;
    }

    method UnregisterConnection(connectionId: ConnectionId)
      requires Valid()
      modifies this, rooms.Values
      ensures Valid() && View() == AfterUnregister(old(View()), connectionId)
      ensures connections == old(connections) - {connectionId}
      ensures rooms.Values <= old(rooms.Values)
    {
      if connectionId in connectionRooms {
        var roomIds := connectionRooms[connectionId];
        connectionRooms := connectionRooms - {connectionId};
        LeaveEach(connectionId, roomIds);
      } else {
        assert connectionRooms - {connectionId} == connectionRooms;
        NobodyLeaves(RoomsView(), connectionId);
      }
      connections := connections - {connectionId};
    }

    /** Returns the room already there, or a new empty one. */
    method CreateRoom(roomId: RoomId) returns (room: Room)
      requires Valid()
      modifies this`rooms
      ensures Valid() && View() == AfterCreate(old(View()), roomId)
      ensures roomId in rooms && rooms[roomId] == room
      ensures if roomId in old(rooms) then rooms == old(rooms) else fresh(room) && rooms == old(rooms)[roomId := room]
      ensures roomId !in old(rooms) ==> room.members == {}
    {
      if roomId !in rooms {
        var created := new Room(roomId);
        rooms := rooms[roomId := created];
      }
      room := rooms[roomId];
    }

    method DeleteRoom(roomId: RoomId) returns (deleted: bool)
      requires Valid()
      modifies this
      ensures Valid() && View() == AfterDelete(old(View()), roomId)
      ensures deleted <==> roomId in old(rooms)
      ensures connections == old(connections) && rooms == old(rooms) - {roomId}
    {
      if roomId !in rooms {
        return false;
      }
      var room := rooms[roomId];
      rooms := rooms - {roomId};
      var todo := room.members;
      ghost var told: set<ConnectionId> := {};
      while todo != {}
        invariant told + todo == room.members && told !! todo
        invariant rooms == old(rooms) - {roomId} && connections == old(connections)
        invariant connectionRooms.Keys == old(connectionRooms).Keys
        invariant forall c ::
                    c in connectionRooms ==>
                      connectionRooms[c] == if c in told then old(connectionRooms)[c] - {roomId}
                                            else old(connectionRooms)[c]
        decreases todo
      {
        var memberId :| memberId in todo;
        if memberId in connectionRooms {
          connectionRooms := connectionRooms[memberId := connectionRooms[memberId] - {roomId}];
        }
        told, todo := told + {memberId}, todo - {memberId};
      }
      assert told == room.members;
      deleted := true;
    }

    /** `create_room(r)` and then `room.join(c)`. */
    method CreateAndJoin(connectionId: ConnectionId, roomId: RoomId)
      requires Valid()
      modifies this`rooms, rooms.Values
      ensures Valid()
      ensures var there := if roomId in old(rooms) then old(rooms[roomId].members) else {};
              RoomsView() == old(RoomsView())[roomId := there + {connectionId}]
      ensures fresh(rooms.Values - old(rooms.Values))
    {
      var room := CreateRoom(roomId);
      room.Join(connectionId);
    }

    method JoinRoom(connectionId: ConnectionId, roomId: RoomId) returns (r: Result<(), RoomError>)
      requires Valid()
      modifies this, rooms.Values
      ensures Valid() && View() == AfterJoin(old(View()), connectionId, roomId)
      ensures r == if connectionId in old(connections) then Ok(()) else Err(ConnectionNotFound(connectionId))
      ensures connections == old(connections) && fresh(rooms.Values - old(rooms.Values))
    {
      if connectionId !in connections {
        return Err(ConnectionNotFound(connectionId));
      }
      CreateAndJoin(connectionId, roomId);
      if connectionId in connectionRooms {
        connectionRooms := connectionRooms[connectionId := connectionRooms[connectionId] + {roomId}];
      }
      r := Ok(());
    }

    method LeaveRoom(connectionId: ConnectionId, roomId: RoomId) returns (r: Result<(), RoomError>)
      requires Valid()
      modifies this, rooms.Values
      ensures Valid() && View() == AfterLeave(old(View()), connectionId, roomId)
      ensures r == Ok(())
      ensures connections == old(connections) && rooms.Values <= old(rooms.Values)
    {
      if roomId in rooms {
        var _ := rooms[roomId].Leave(connectionId);
      }
      if connectionId in connectionRooms {
        connectionRooms := connectionRooms[connectionId := connectionRooms[connectionId] - {roomId}];
      }
      RemoveIfEmpty(roomId);
      r := Ok(());
    }

    /** One visit: does nothing for an id that is not registered. */
    method SendToOne(memberId: ConnectionId, message: Message) returns (sent: bool)
      requires Valid()
      modifies if memberId in connections then {connections[memberId]} else {}
      ensures Links() == AfterBroadcast(old(Links()), {memberId}, message)
      ensures sent <==> memberId in connections && old(Links())[memberId].Accepts()
    {
      sent := false;
      if memberId in connections {
        var result := connections[memberId].Send(message);
        sent := result.Ok?;
      }
    }

    /** The visiting loop the three broadcasts share; any order of the ids is possible. */
    method SendToEach(ids: set<ConnectionId>, message: Message) returns (sentCount: nat)
      requires Valid()
      modifies connections.Values
      ensures Links() == AfterBroadcast(old(Links()), ids, message)
      ensures sentCount == |Receivers(old(Links()), ids)|
    {
      ghost var before := Links();
      var todo := ids;
      sentCount := 0;
      assert ids - todo == {} && Receivers(before, {}) == {} && AfterBroadcast(before, {}, message) == before;
      while todo != {}
        invariant todo <= ids
        invariant Links() == AfterBroadcast(before, ids - todo, message)
        invariant sentCount == |Receivers(before, ids - todo)|
        decreases todo
      {
        var memberId :| memberId in todo;
        VisitNext(before, ids - todo, memberId, message);
        assert ids - (todo - {memberId}) == ids - todo + {memberId};
        var sent := SendToOne(memberId, message);
        if sent {
          sentCount := sentCount + 1;
        }
        todo := todo - {memberId};
      }
      assert ids - todo == ids;
    }

    method BroadcastToRoom(roomId: RoomId, message: Message) returns (r: Result<nat, RoomError>)
      requires Valid()
      modifies connections.Values
      ensures roomId !in rooms ==> r == Err(RoomNotFound(roomId)) && Links() == old(Links())
      ensures roomId in rooms ==>
                && r == Ok(|Receivers(old(Links()), rooms[roomId].members)|)
                && Links() == AfterBroadcast(old(Links()), rooms[roomId].members, message)
    {
      if roomId !in rooms {
        return Err(RoomNotFound(roomId));
      }
      var sentCount := SendToEach(rooms[roomId].members, message);
      r := Ok(sentCount);
    }

    method BroadcastToRoomExcept(roomId: RoomId, message: Message, exceptId: ConnectionId)
      returns (r: Result<nat, RoomError>)
      requires Valid()
      modifies connections.Values
      ensures roomId !in rooms ==> r == Err(RoomNotFound(roomId)) && Links() == old(Links())
      ensures roomId in rooms ==>
                && r == Ok(|Receivers(old(Links()), rooms[roomId].members - {exceptId})|)
                && Links() == AfterBroadcast(old(Links()), rooms[roomId].members - {exceptId}, message)
    {
      if roomId !in rooms {
        return Err(RoomNotFound(roomId));
      }
      var sentCount := SendToEach(rooms[roomId].members - {exceptId}, message);
      r := Ok(sentCount);
    }

    method BroadcastAll(message: Message) returns (sentCount: nat)
      requires Valid()
      modifies connections.Values
      ensures Links() == AfterBroadcast(old(Links()), connections.Keys, message)
      ensures sentCount == |Receivers(old(Links()), connections.Keys)|
    {
      sentCount := SendToEach(connections.Keys, message);
    }
  }
}
