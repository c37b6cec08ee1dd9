/** The Redis side of the rooms: the cached summaries, the open-room index and the session bindings
    (internal/infrastructure/redis), and what a lifecycle change writes to them
    (internal/application/game/close_room.go). */
module Redis {
  import opened Types
  import opened Game

  /** The listing's read model of a room. */
  datatype Summary = Summary(id: Id, owner: Id, status: RoomStatus, currentRound: int, maxRounds: int,
                             playerCount: nat, maxPlayers: int, createdAt: Time)

  function SummaryOf(room: RoomVal): Summary {
    Summary(room.id, room.row.owner, room.row.status, room.row.currentRound, MAX_ROUNDS, |room.row.seats|, MAX_PLAYERS, room.row.createdAt)
  }

  /** What a listed room says of itself, field by field: the row, and the caps of ten rounds and six players. */
  predicate Describes(s: Summary, id: Id, row: RoomRow) {
    && s.id == id && s.owner == row.owner && s.status == row.status && s.createdAt == row.createdAt
    && s.currentRound == row.currentRound && s.maxRounds == 10
    && s.playerCount == |row.seats| && s.maxPlayers == 6
  }

  lemma SummaryDescribes(room: RoomVal)
    ensures Describes(SummaryOf(room), room.id, room.row)
  {
  }

  /** The keys of the store: one per cached room, the hash of open rooms, one per bound player. */
  datatype Keys = Keys(rooms: map<Id, Summary>, open: map<Id, Summary>, bound: map<Id, Id>)

  const NO_KEYS := Keys(map[], map[], map[])

  function Saved(keys: Keys, s: Summary): Keys {
    keys.(rooms := keys.rooms[s.id := s], open := if s.status == Open then keys.open[s.id := s] else keys.open - {s.id})
  }

  function Evicted(keys: Keys, room: Id): Keys {
    keys.(rooms := keys.rooms - {room}, open := keys.open - {room})
  }

  function Released(keys: Keys, players: set<Id>): Keys {
    keys.(bound := keys.bound - players)
  }

  function Elements(members: seq<Id>): set<Id> {
    set p | p in members
  }

  /** finalizeRoomCache. */
  function Finalized(keys: Keys, s: Summary, closed: bool, members: set<Id>): Keys {
    if closed then Evicted(Released(keys, members), s.id) else Saved(keys, s)
  }

  class RedisStore {
    var rooms: map<Id, Summary>
    var open: map<Id, Summary>
    var bound: map<Id, Id>

    ghost function Model(): Keys
      reads this
    {
      Keys(rooms, open, bound)
    }

    constructor ()
      ensures Model() == NO_KEYS
    {
      rooms, open, bound := map[], map[], map[];
    }

    method SaveRoom(s: Summary)
      modifies this
      ensures Model() == Saved(old(Model()), s)
      ensures rooms == old(rooms)[s.id := s] && bound == old(bound)
      ensures open == if s.status == Open then old(open)[s.id := s] else old(open) - {s.id}
    {
      rooms := rooms[s.id := s];
      if s.status == Open {
        open := open[s.id := s];
      } else {
        open := open - {s.id};
      }
    }

    method RemoveRoom(room: Id)
      modifies this
      ensures Model() == Evicted(old(Model()), room)
      ensures room !in rooms && room !in open && bound == old(bound)
    {
      rooms := rooms - {room};
      open := open - {room};
    }

    /** SET NX: refused when the player is bound anywhere, to the same room included. */
    method BindPlayerToRoom(player: Id, room: Id) returns (taken: bool)
      modifies this
      ensures taken <==> player !in old(bound)
      ensures Model() == if taken then old(Model()).(bound := old(bound)[player := room]) else old(Model())
    {
      if player in bound { return false; }
      bound := bound[player := room];
      return true;
    }

    method ActiveRoom(player: Id) returns (room: Option<Id>)
      ensures room == if player in bound then Some(bound[player]) else None
    {
      if player in bound { return Some(bound[player]); }
      return None;
    }

    method ReleasePlayer(player: Id)
      modifies this
      ensures Model() == Released(old(Model()), {player})
    {
      bound := bound - {player};
    }

    /** The members come in the order in which Players() listed them. */
    method FinalizeRoomCache(s: Summary, closed: bool, members: seq<Id>)
      modifies this
      ensures Model() == Finalized(old(Model()), s, closed, Elements(members))
    {
      if !closed {
        SaveRoom(s);
        return;
      }
      for i := 0 to |members|
        invariant Model() == Released(old(Model()), Elements(members[..i]))
      {
        assert Elements(members[..i + 1]) == Elements(members[..i]) + {members[i]};
        ReleasePlayer(members[i]);
      }
      assert members[..|members|] == members;
      RemoveRoom(s.id);
    }
  }
}
