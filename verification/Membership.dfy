// Building the next membership step by step (cmd/tincan/encryption.go encryptionManageMode,
// encryption_room_policy.go).
module Membership {
  import opened Text
  import opened Encryption
  import opened Rosters

  lemma KeptStep(kept: seq<Device>, ds: seq<Device>, n: nat, agent: string, all: seq<Device>)
    requires n < |ds| && kept + Dropped(ds[n..], agent) == all
    ensures (if ds[n].agent == agent then kept else kept + [ds[n]]) + Dropped(ds[n + 1..], agent) == all
  {
    assert ds[n..][0] == ds[n] && ds[n..][1..] == ds[n + 1..];
    var rest := Dropped(ds[n + 1..], agent);
    assert [] + rest == rest;
    assert (kept + [ds[n]]) + rest == kept + ([ds[n]] + rest);
  }

  method KeepOthers(ds: seq<Device>, agent: string) returns (kept: seq<Device>)
    ensures kept == Dropped(ds, agent)
  {
    kept := [];
    var n := 0;
    ghost var all := Dropped(ds, agent);
    assert ds[0..] == ds;
    while n < |ds|
      invariant n <= |ds| && kept + Dropped(ds[n..], agent) == all
    {
      KeptStep(kept, ds, n, agent, all);
      if ds[n].agent != agent {
        kept := kept + [ds[n]];
      }
      n := n + 1;
    }
    assert ds[n..] == [] && kept + [] == kept;
  }

  lemma NameStep(kept: seq<string>, names: seq<string>, n: nat, agent: string)
    requires n < |names|
    ensures kept + Without(names[n..], agent)
            == (if names[n] != agent then kept + [names[n]] else kept) + Without(names[n + 1..], agent)
  {
    assert names[n..][0] == names[n] && names[n..][1..] == names[n + 1..];
    var rest := Without(names[n + 1..], agent);
    assert (kept + [names[n]]) + rest == kept + ([names[n]] + rest);
    assert [] + rest == rest;
  }

  lemma ListedStep(kept: seq<string>, names: seq<string>, n: nat, ds: seq<Device>)
    requires n < |names|
    ensures kept + Listed(names[n..], ds)
            == (if Lookup(ds, names[n]).Some? then kept + [names[n]] else kept) + Listed(names[n + 1..], ds)
  {
    assert names[n..][0] == names[n] && names[n..][1..] == names[n + 1..];
    var rest := Listed(names[n + 1..], ds);
    assert (kept + [names[n]]) + rest == kept + ([names[n]] + rest);
    assert [] + rest == rest;
  }

  method KeepNames(names: seq<string>, agent: string) returns (kept: seq<string>)
    ensures kept == Without(names, agent)
  {
    kept := [];
    var n := 0;
    ghost var all := Without(names, agent);
    assert names[0..] == names;
    while n < |names|
      invariant n <= |names| && kept + Without(names[n..], agent) == all
    {
      NameStep(kept, names, n, agent);
      if names[n] != agent {
        kept := kept + [names[n]];
      }
      n := n + 1;
    }
    assert names[n..] == [] && kept + [] == kept;
  }

  method KeepListed(names: seq<string>, ds: seq<Device>) returns (kept: seq<string>)
    ensures kept == Listed(names, ds)
  {
    kept := [];
    var n := 0;
    ghost var all := Listed(names, ds);
    assert names[0..] == names;
    while n < |names|
      invariant n <= |names| && kept + Listed(names[n..], ds) == all
    {
      ListedStep(kept, names, n, ds);
      if Lookup(ds, names[n]).Some? {
        kept := kept + [names[n]];
      }
      n := n + 1;
    }
    assert names[n..] == [] && kept + [] == kept;
  }

  // A revoked agent leaves every room.
  method LeaveRooms(rooms: map<string, seq<string>>, agent: string) returns (out: map<string, seq<string>>)
    ensures out == RoomsWithout(rooms, agent)
  {
    out := map[];
    var left := rooms.Keys;
    while left != {}
      invariant left <= rooms.Keys
      invariant out == RoomsWithout(rooms - left, agent)
      decreases |left|
    {
      var room :| room in left;
      left := left - {room};
      var kept := KeepNames(rooms[room], agent);
      out := out[room := kept];
    }
    assert rooms - left == rooms;
  }

  lemma PolicyStep(rooms: map<string, seq<string>>, left: set<string>, room: string, ds: seq<Device>)
    requires room in left && room in rooms
    ensures PolicyRooms(rooms - (left - {room}), ds)
            == PolicyRooms(rooms - left, ds)[room := SortNames(Listed(rooms[room], ds))]
  {
  }

  method LoadRooms(r: Roster, p: RoomPolicy) returns (out: Roster)
    ensures out == WithPolicy(r, p)
  {
    var rooms: map<string, seq<string>> := map[];
    var left := p.members.Keys;
    while left != {}
      invariant left <= p.members.Keys
      invariant rooms == PolicyRooms(p.members - left, r.members)
      decreases |left|
    {
      var room :| room in left;
      PolicyStep(p.members, left, room, r.members);
      left := left - {room};
      var kept := KeepListed(p.members[room], r.members);
      rooms := rooms[room := SortNames(kept)];
    }
    assert p.members - left == p.members;
    if rooms == map[] {
      assert p.members.Keys == {};
      return r.(roomMembers := None, channels := map[]);
    }
    return r.(roomMembers := Some(rooms), channels := p.channels);
  }

  method Build(me: string, r: Roster, c: Change) returns (out: Option<Roster>)
    ensures out == Changed(me, r, c)
  {
    var next := r.(epoch := r.epoch + 1, previous := HashOf(r));
    match c {
      case Admit(d, room) =>
        next := next.(members := r.members + [d]);
        if r.roomMembers.Some? {
          if !RoomHas(r, room, me) {
            return None;
          }
          var names := SortNames(NamesOf(r.roomMembers.value, room) + [d.agent]);
          next := next.(roomMembers := Some(r.roomMembers.value[room := names]));
        }
      case Revoke(agent) =>
        if agent == me {
          return None;
        }
        var kept := KeepOthers(r.members, agent);
        if |kept| == |r.members| {
          return None;
        }
        next := next.(members := kept);
        if r.roomMembers.Some? {
          var rooms := LeaveRooms(r.roomMembers.value, agent);
          next := next.(roomMembers := Some(rooms));
        }
      case Rotate =>
      case SetRoomMember(room, agent, present) =>
        if r.roomMembers.None? || !RoomHas(r, room, me) || DeviceOf(r, agent).None? || (!present && agent == me) {
          return None;
        }
        var names := KeepNames(NamesOf(r.roomMembers.value, room), agent);
        assert names + [] == names;
        if present {
          names := names + [agent];
        }
        names := SortNames(names);
        next := next.(roomMembers := Some(r.roomMembers.value[room := names]));
      case LoadPolicy(p) =>
        if r.roomMembers.Some? {
          return None;
        }
        next := LoadRooms(next, p);
      case Register(room) =>
        if r.roomMembers.None? || RoomHas(r, room, me) {
          return None;
        }
        next := next.(roomMembers := Some(r.roomMembers.value[room := [me]]));
    }
    return Some(next);
  }
}
