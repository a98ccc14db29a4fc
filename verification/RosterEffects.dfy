// What each change makes of a membership: which devices it lists and who is in which room
// afterwards, and exactly when it is refused (cmd/tincan/encryption.go encryptionManageMode,
// encryption_room_policy.go).
module RosterEffects {
  import opened Text
  import opened Encryption
  import opened Rosters

  // The membership lists this agent in this room.
  ghost predicate InRoom(r: Roster, room: string, agent: string) {
    r.roomMembers.Some? && room in r.roomMembers.value && agent in r.roomMembers.value[room]
  }

  ghost predicate HasDevice(r: Roster, agent: string) {
    exists d :: d in r.members && d.agent == agent
  }

  // A room's own group is for all its devices, a room of a workspace for those it lists.
  lemma RoomHasMeans(r: Roster, room: string, agent: string)
    ensures RoomHas(r, room, agent) <==> if r.room == room then HasDevice(r, agent) else InRoom(r, room, agent)
  {
  }

  function Rooms(r: Roster): set<string> {
    if r.roomMembers.Some? then r.roomMembers.value.Keys else {}
  }

  // Rooms are managed before and after or neither, with the same ones but perhaps this.
  ghost predicate RoomsManaged(r: Roster, n: Roster, more: set<string>) {
    && n.channels == r.channels && (n.roomMembers.Some? <==> r.roomMembers.Some?)
    && (r.roomMembers.Some? ==> Rooms(n) == Rooms(r) + more)
  }

  ghost predicate Follows(me: string, r: Roster, c: Change, n: Roster) {
    match c
    case Admit(d, room) =>
      && multiset(n.members) == multiset(r.members) + multiset{d} && RoomsManaged(r, n, {room})
      && (forall x, a :: InRoom(n, x, a) <==> InRoom(r, x, a) || (r.roomMembers.Some? && x == room && a == d.agent))
    case Revoke(agent) =>
      && (forall d: Device :: multiset(n.members)[d] == if d.agent == agent then 0 else multiset(r.members)[d])
      && RoomsManaged(r, n, {})
      && (forall x, a :: InRoom(n, x, a) <==> InRoom(r, x, a) && a != agent)
    case Rotate => n.members == r.members && n.roomMembers == r.roomMembers && n.channels == r.channels
    case SetRoomMember(room, agent, present) =>
      && n.members == r.members && RoomsManaged(r, n, {room})
      && (forall x, a :: InRoom(n, x, a) <==> if x == room && a == agent then present else InRoom(r, x, a))
    case LoadPolicy(p) =>
      && n.members == r.members && (n.roomMembers.Some? <==> p.members != map[]) && Rooms(n) == p.members.Keys
      && n.channels == (if p.members == map[] then map[] else p.channels)
      && (forall x, a :: InRoom(n, x, a) <==> x in p.members && a in p.members[x] && HasDevice(r, a))
    case Register(room) =>
      && n.members == r.members && RoomsManaged(r, n, {room})
      && (forall x, a :: InRoom(n, x, a) <==> if x == room then a == me else InRoom(r, x, a))
  }

  lemma {:induction false} DroppedCounts(ds: seq<Device>, agent: string, d: Device)
    ensures multiset(Dropped(ds, agent))[d] == if d.agent == agent then 0 else multiset(ds)[d]
  {
    if ds != [] {
      DroppedCounts(ds[1..], agent, d);
      assert ds == [ds[0]] + ds[1..];
    }
  }

  lemma AdmitFollows(me: string, r: Roster, d: Device, room: string)
    requires Changed(me, r, Admit(d, room)).Some?
    ensures Follows(me, r, Admit(d, room), Changed(me, r, Admit(d, room)).value)
  {
    if r.roomMembers.Some? {
      SortNamesMembers(NamesOf(r.roomMembers.value, room) + [d.agent]);
    }
  }

  lemma RevokeFollows(me: string, r: Roster, agent: string)
    requires Changed(me, r, Revoke(agent)).Some?
    ensures Follows(me, r, Revoke(agent), Changed(me, r, Revoke(agent)).value)
  {
    AllDroppedCounts(r.members, agent);
    if r.roomMembers.Some? {
      RoomsLeft(r, agent);
    }
  }

  lemma AllDroppedCounts(ds: seq<Device>, agent: string)
    ensures forall d: Device :: multiset(Dropped(ds, agent))[d] == if d.agent == agent then 0 else multiset(ds)[d]
  {
    forall d: Device ensures multiset(Dropped(ds, agent))[d] == if d.agent == agent then 0 else multiset(ds)[d] {
      DroppedCounts(ds, agent, d);
    }
  }

  lemma RoomsLeft(r: Roster, agent: string)
    requires r.roomMembers.Some?
    ensures var rooms := RoomsWithout(r.roomMembers.value, agent);
            forall x, a :: x in rooms && a in rooms[x] <==> InRoom(r, x, a) && a != agent
  {
  }

  lemma MemberFollows(me: string, r: Roster, room: string, agent: string, present: bool)
    requires Changed(me, r, SetRoomMember(room, agent, present)).Some?
    ensures Follows(me, r, SetRoomMember(room, agent, present), Changed(me, r, SetRoomMember(room, agent, present)).value)
  {
    SortNamesMembers(Without(NamesOf(r.roomMembers.value, room), agent) + if present then [agent] else []);
  }

  lemma PolicyFollows(me: string, r: Roster, p: RoomPolicy)
    requires Changed(me, r, LoadPolicy(p)).Some?
    ensures Follows(me, r, LoadPolicy(p), Changed(me, r, LoadPolicy(p)).value)
  {
    forall x | x in p.members ensures forall a :: a in SortNames(Listed(p.members[x], r.members)) <==> a in p.members[x] && HasDevice(r, a) {
      SortNamesMembers(Listed(p.members[x], r.members));
      forall a ensures Lookup(r.members, a).Some? <==> HasDevice(r, a) {
      }
    }
  }

  // A change does to devices and rooms what it says and nothing else, and extends the chain.
  lemma ChangeEffect(me: string, r: Roster, c: Change)
    requires Changed(me, r, c).Some?
    ensures var n := Changed(me, r, c).value;
            && Follows(me, r, c, n)
            && n == r.(members := n.members, roomMembers := n.roomMembers, channels := n.channels,
                       epoch := r.epoch + 1, previous := HashOf(r))
  {
    match c
    case Admit(d, room) => AdmitFollows(me, r, d, room);
    case Revoke(agent) => RevokeFollows(me, r, agent);
    case Rotate =>
    case SetRoomMember(room, agent, present) => MemberFollows(me, r, room, agent, present);
    case LoadPolicy(p) => PolicyFollows(me, r, p);
    case Register(room) =>
  }

  // When a change is refused.
  lemma ChangeRefused(me: string, r: Roster, c: Change)
    ensures Changed(me, r, c).None? <==>
            match c
            case Admit(_, room) => r.roomMembers.Some? && !RoomHas(r, room, me)
            case Revoke(agent) => agent == me || !HasDevice(r, agent)
            case Rotate => false
            case SetRoomMember(room, agent, present) =>
              r.roomMembers.None? || !RoomHas(r, room, me) || !HasDevice(r, agent) || (!present && agent == me)
            case LoadPolicy(_) => r.roomMembers.Some?
            case Register(room) => r.roomMembers.None? || RoomHas(r, room, me)
  {
    if c.Revoke? {
      DroppedSize(r.members, c.agent);
    }
  }

  lemma {:induction false} DroppedSize(ds: seq<Device>, agent: string)
    ensures |Dropped(ds, agent)| == |ds| <==> forall d <- ds :: d.agent != agent
  {
    if ds != [] {
      DroppedSize(ds[1..], agent);
      assert ds == [ds[0]] + ds[1..];
    }
  }

  ghost predicate InOrder(names: seq<string>) {
    forall i, j :: 0 <= i < j < |names| ==> !Before(names[j], names[i])
  }

  lemma {:induction false} InsertInOrder(names: seq<string>, x: string)
    requires InOrder(names)
    ensures InOrder(InsertName(names, x))
  {
    if names != [] {
      if Before(x, names[0]) {
        forall k | 0 <= k < |names| ensures !Before(names[k], x) {
          if Before(names[k], x) {
            BeforeIsTransitive(names[k], x, names[0]);
            BeforeIsTotal(names[k], names[0]);
          }
        }
      } else {
        InsertInOrder(names[1..], x);
        InsertNameMembers(names[1..], x);
        var rest := InsertName(names[1..], x);
        forall k | 0 <= k < |rest| ensures !Before(rest[k], names[0]) {
          assert rest[k] in rest;
          if rest[k] != x {
            var m :| 0 <= m < |names[1..]| && names[1..][m] == rest[k];
          }
        }
      }
    }
  }

  // The names of a room are kept sorted, which the hash of the membership depends on.
  lemma {:induction false} SortedInOrder(names: seq<string>)
    ensures InOrder(SortNames(names))
  {
    if names != [] {
      SortedInOrder(names[1..]);
      InsertInOrder(SortNames(names[1..]), names[0]);
    }
  }
}
