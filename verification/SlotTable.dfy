/** The record that a session keeps of its streams: a fixed array of slots and a counter, changed in place
    under a lock. Each method is one critical section. */
module SlotTable {
  import opened ByteStrings
  import opened SessionModel
  import opened SessionSlots

  class Slots {
    const streams: array<Option<nat>>
    var streamCount: int

    ghost predicate Valid()
      reads this, streams
    {
      streams.Length == SLOTS && streamCount == Occupied(streams[..])
    }

    constructor ()
      ensures Valid() && fresh(streams)
      ensures streams[..] == seq(SLOTS, _ => None) && streamCount == 0
    {
      streams := new Option<nat>[SLOTS](_ => None);
      streamCount := 0;
      new;
      AllFree(streams[..]);
    }

    /** The first free slot. */
    method NextStreamId() returns (id: nat, ok: bool)
      requires Valid()
      ensures ok <==> FreeSlot(streams[..]) < SLOTS
      ensures ok ==> id == FreeSlot(streams[..])
      ensures ok <==> streamCount < SLOTS
    {
      RefusedIffFull(streams[..]);
      id, ok := 0, false;
      while id < streams.Length
        invariant 0 <= id <= streams.Length
        invariant forall t :: 0 <= t < id ==> streams[t].Some?
      {
        if streams[id] == None {
          assert streams[..][id] == None;
          return id, true;
        }
        id := id + 1;
      }
      assert forall t :: 0 <= t < SLOTS ==> streams[..][t].Some?;
      id := 0;
    }

    /** Opening takes the least free slot, or refuses when there is none. */
    method Open(i: nat) returns (id: nat, ok: bool)
      requires Valid()
      modifies this`streamCount, streams
      ensures Valid()
      ensures ok <==> old(streamCount) < SLOTS
      ensures ok ==> id == FreeSlot(old(streams[..])) < SLOTS && streams[..] == old(streams[..])[id := Some(i)]
      ensures !ok ==> streams[..] == old(streams[..])
      ensures ok ==> forall s: State, body: Body ::
        s.slots == old(streams[..]) && s.streamCount == old(streamCount) && |s.streams| == i ==>
          Opened(s, body).slots == streams[..] && Opened(s, body).streamCount == streamCount
    {
      id, ok := NextStreamId();
      if ok {
        OccupiedUpdate(streams[..], id, Some(i));
        streams[id] := Some(i);
        streamCount := streamCount + 1;
      }
    }

    method ReleaseStream(id: nat)
      requires Valid() && id < SLOTS && streams[id].Some?
      modifies this`streamCount, streams
      ensures Valid()
      ensures streams[..] == old(streams[..])[id := None]
      ensures streamCount == old(streamCount) - 1
    {
      OccupiedUpdate(streams[..], id, None);
      streams[id] := None;
      streamCount := streamCount - 1;
    }

    method GetStream(id: int) returns (stream: Option<nat>)
      requires Valid()
      ensures stream == if 0 <= id < SLOTS then streams[id] else None
    {
      if id < 0 || id >= streams.Length {
        return None;
      }
      stream := streams[id];
    }
  }
}
