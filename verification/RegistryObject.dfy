/**
  The registry object over the room objects: the scan that decides whether media is still in
  use, and the removal of a room.
 */
module RegistryObject {
  import opened Options
  import opened PlaybackRoom
  import R = MediaRelease

  /** What a room object holds on to. */
  ghost function ViewOf(room: Room): R.RoomView
    reads room, room.Current()
  {
    R.RoomView(room.queue, if room.playing == null then None else Some(room.playing.trackID))
  }

  class Registry {
    var rooms: map<string, Room>
    var entries: set<string>

    /** No room is registered twice. */
    ghost predicate Valid()
      reads this
    {
      forall a, b :: a in rooms && b in rooms && a != b ==> rooms[a] != rooms[b]
    }

    constructor ()
      ensures Valid() && rooms == map[] && entries == {}
    {
      rooms, entries := map[], {};
    }

    ghost function Views(): map<string, R.RoomView>
      reads `rooms, rooms.Values, set code, o | code in rooms && o in rooms[code].Current() :: o
    {
      map code | code in rooms :: ViewOf(rooms[code])
    }

    ghost function State(): R.Registry
      reads `rooms, `entries, rooms.Values, set code, o | code in rooms && o in rooms[code].Current() :: o
    {
      R.Registry(Views(), entries)
    }

    /** The scan over the registered rooms, in any order. */
    method CleanIfUnused(id: string)
      modifies `entries
      ensures State() == R.CleanIfUnused(old(State()), id)
    {
      ghost var before := State();
      var left := rooms.Keys;
      while left != {}
        modifies {}
        invariant left <= rooms.Keys
        invariant forall code :: code in before.rooms && code !in left ==> !R.References(before.rooms[code], id)
      {
        var code :| code in left;
        var found := rooms[code].ReferencesTrack(id);
        if found {
          assert R.References(before.rooms[code], id);
          assert R.InUse(before, id);
          return;
        }
        left := left - {code};
      }
      assert !R.InUse(before, id);
      entries := entries - {id};
    }

    /** The room's part and the registry's part of the end of a track. */
    method EndTrack(code: string, id: string)
      requires Valid() && code in rooms
      modifies `entries, rooms[code]
      ensures State() == R.EndTrack(old(State()), code, id)
    {
      var room := rooms[code];
      if room.playing == null || room.playing.trackID != id {
        return;
      }
      room.EndTrack(id);
      assert Views() == old(Views())[code := ViewOf(room)];
      CleanIfUnused(id);
    }

    /** Everything the room queues or plays. */
    method Collect(room: Room) returns (ids: set<string>)
      ensures forall x :: x in ids <==> R.References(ViewOf(room), x)
    {
      ids := {};
      var i := 0;
      while i < |room.queue|
        invariant 0 <= i <= |room.queue|
        invariant forall x :: x in ids <==> exists j :: 0 <= j < i && room.queue[j].id == x
      {
        ids := ids + {room.queue[i].id};
        i := i + 1;
      }
      if room.playing != null {
        ids := ids + {room.playing.trackID};
      }
    }

    /** Lets go of the IDs in any order. */
    method CleanAll(ids: set<string>)
      modifies `entries
      ensures Views() == old(Views())
      ensures entries == set x | x in old(entries) && !(x in ids && !R.InUse(old(State()), x))
    {
      ghost var before := State();
      var left := ids;
      while left != {}
        invariant left <= ids
        invariant Views() == before.rooms
        invariant forall x :: x in entries <==> x in before.entries && !(x in ids - left && !R.InUse(before, x))
      {
        var id :| id in left;
        assert R.InUse(State(), id) == R.InUse(before, id);
        CleanIfUnused(id);
        left := left - {id};
      }
    }

    method Remove(code: string)
      requires Valid() && code in rooms
      modifies this, rooms[code]
      ensures Valid() && rooms == old(rooms) - {code}
      ensures State() == R.RemoveRoom(old(State()), code)
    {
      var room := rooms[code];
      rooms := rooms - {code};
      var ids := Collect(room);
      room.CleanupMedia();
      assert Views() == old(Views()) - {code};
      CleanAll(ids);
    }
  }
}
