// The owner's changes to a membership, and what every change keeps
// (internal/e2ee/crypto.go Sign and Verify, cmd/tincan/encryption.go encryptionManageMode,
// encryption_room_policy.go, encryption_history.go rotateMLS).
module Rosters {
  import opened Text
  import opened Encryption

  // ----- Sorting and signing -----

  function InsertDevice(ds: seq<Device>, d: Device): seq<Device> {
    if ds == [] then [d]
    else if Before(d.agent, ds[0].agent) then [d] + ds
    else [ds[0]] + InsertDevice(ds[1..], d)
  }

  function SortDevices(ds: seq<Device>): seq<Device> {
    if ds == [] then [] else InsertDevice(SortDevices(ds[1..]), ds[0])
  }

  function InsertName(names: seq<string>, x: string): seq<string> {
    if names == [] then [x]
    else if Before(x, names[0]) then [x] + names
    else [names[0]] + InsertName(names[1..], x)
  }

  function SortNames(names: seq<string>): seq<string> {
    if names == [] then [] else InsertName(SortNames(names[1..]), names[0])
  }

  function Signed(r: Roster, key: Key): Roster {
    r.(members := SortDevices(r.members), signer := key)
  }

  lemma {:induction false} InsertDeviceMembers(ds: seq<Device>, d: Device)
    ensures multiset(InsertDevice(ds, d)) == multiset(ds) + multiset{d}
    ensures |InsertDevice(ds, d)| == |ds| + 1
  {
    if ds != [] {
      assert ds == [ds[0]] + ds[1..];
      if !Before(d.agent, ds[0].agent) {
        InsertDeviceMembers(ds[1..], d);
      }
    }
  }

  lemma {:induction false} SortDevicesMembers(ds: seq<Device>)
    ensures multiset(SortDevices(ds)) == multiset(ds) && |SortDevices(ds)| == |ds|
  {
    if ds != [] {
      assert ds == [ds[0]] + ds[1..];
      SortDevicesMembers(ds[1..]);
      InsertDeviceMembers(SortDevices(ds[1..]), ds[0]);
    }
  }

  lemma SortDevicesSame(ds: seq<Device>)
    ensures forall d :: d in SortDevices(ds) <==> d in ds
  {
    SortDevicesMembers(ds);
    forall d ensures d in SortDevices(ds) <==> d in ds {
      assert d in SortDevices(ds) <==> d in multiset(SortDevices(ds));
      assert d in ds <==> d in multiset(ds);
    }
  }

  lemma {:induction false} InsertNameMembers(names: seq<string>, x: string)
    ensures forall y :: y in InsertName(names, x) <==> y == x || y in names
  {
    if names != [] && !Before(x, names[0]) {
      InsertNameMembers(names[1..], x);
      assert names == [names[0]] + names[1..];
    }
  }

  lemma {:induction false} SortNamesMembers(names: seq<string>)
    ensures forall y :: y in SortNames(names) <==> y in names
  {
    if names != [] {
      SortNamesMembers(names[1..]);
      InsertNameMembers(SortNames(names[1..]), names[0]);
      assert names == [names[0]] + names[1..];
    }
  }

  ghost predicate AgentsDiffer(ds: seq<Device>) {
    forall i, j :: 0 <= i < j < |ds| ==> ds[i].agent != ds[j].agent
  }

  lemma StrictCons(d: Device, ds: seq<Device>)
    requires Strict(ds) && forall x <- ds :: Before(d.agent, x.agent)
    ensures Strict([d] + ds)
  {
  }

  lemma {:induction false} InsertStrict(ds: seq<Device>, d: Device)
    requires Strict(ds) && forall x <- ds :: x.agent != d.agent
    ensures Strict(InsertDevice(ds, d))
  {
    if ds == [] {
    } else if Before(d.agent, ds[0].agent) {
      forall x | x in ds ensures Before(d.agent, x.agent) {
        var k :| 0 <= k < |ds| && ds[k] == x;
        if k > 0 {
          BeforeIsTransitive(d.agent, ds[0].agent, x.agent);
        }
      }
      StrictCons(d, ds);
    } else {
      BeforeIsTotal(d.agent, ds[0].agent);
      InsertStrict(ds[1..], d);
      InsertDeviceMembers(ds[1..], d);
      var rest := InsertDevice(ds[1..], d);
      forall x | x in rest ensures Before(ds[0].agent, x.agent) {
        assert x in multiset(rest);
        assert x == d || x in ds[1..];
        if x != d {
          var k :| 1 <= k < |ds| && ds[k] == x;
        }
      }
      StrictCons(ds[0], rest);
    }
  }

  // Signing puts any members with different agents into the one order readers accept.
  lemma {:induction false} SortIsStrict(ds: seq<Device>)
    ensures AgentsDiffer(ds) <==> Strict(SortDevices(ds))
  {
    if AgentsDiffer(ds) {
      DifferentSort(ds);
    } else {
      SameAgentStays(ds);
    }
  }

  lemma {:induction false} DifferentSort(ds: seq<Device>)
    requires AgentsDiffer(ds)
    ensures Strict(SortDevices(ds))
  {
    if ds != [] {
      DifferentSort(ds[1..]);
      SortDevicesSame(ds[1..]);
      forall x | x in SortDevices(ds[1..]) ensures x.agent != ds[0].agent {
        var k :| 1 <= k < |ds| && ds[k] == x;
      }
      InsertStrict(SortDevices(ds[1..]), ds[0]);
    }
  }

  lemma SameAgentStays(ds: seq<Device>)
    requires !AgentsDiffer(ds)
    ensures !Strict(SortDevices(ds))
  {
    var i, j :| 0 <= i < j < |ds| && ds[i].agent == ds[j].agent;
    SortDevicesMembers(ds);
    TwoOf(ds, i, j);
    TwoIn(SortDevices(ds), ds[i], ds[j]);
  }

  lemma TwoOf(ds: seq<Device>, i: nat, j: nat)
    requires i < j < |ds|
    ensures multiset{ds[i], ds[j]} <= multiset(ds)
  {
    assert ds == ds[..i] + [ds[i]] + ds[i + 1..j] + [ds[j]] + ds[j + 1..];
  }

  // A strict order has no room for two devices of one agent.
  lemma TwoIn(ds: seq<Device>, a: Device, b: Device)
    requires a.agent == b.agent && multiset{a, b} <= multiset(ds)
    ensures !Strict(ds)
  {
    assert a in multiset(ds);
    var i :| 0 <= i < |ds| && ds[i] == a;
    assert ds == ds[..i] + [a] + ds[i + 1..];
    assert b in multiset(ds[..i]) + multiset(ds[i + 1..]);
    BeforeIsTotal(a.agent, b.agent);
    if b in ds[..i] {
      var j :| 0 <= j < i && ds[j] == b;
      assert !Before(ds[j].agent, ds[i].agent);
    } else {
      assert b in ds[i + 1..];
      var j :| i < j < |ds| && ds[j] == b;
      assert !Before(ds[i].agent, ds[j].agent);
    }
  }

  // ----- Looking up after sorting -----

  lemma {:induction false} LookupUnique(ds: seq<Device>, d: Device)
    requires d in ds && forall x <- ds :: x.agent == d.agent ==> x == d
    ensures Lookup(ds, d.agent) == Some(d)
  {
  }

  lemma StrictIsUnique(ds: seq<Device>, d: Device)
    requires Strict(ds) && d in ds
    ensures forall x <- ds :: x.agent == d.agent ==> x == d
  {
    var i :| 0 <= i < |ds| && ds[i] == d;
    forall x | x in ds && x.agent == d.agent ensures x == d {
      var j :| 0 <= j < |ds| && ds[j] == x;
      BeforeIsTotal(d.agent, x.agent);
    }
  }

  // ----- Changes -----

  // What the relay reports about rooms that existed before encryption managed them.
  datatype RoomPolicy = RoomPolicy(members: map<string, seq<string>>, channels: map<string, string>)

  datatype Change =
    | Admit(device: Device, room: string)
    | Revoke(agent: string)
    | Rotate
    | SetRoomMember(room: string, agent: string, present: bool)
    | LoadPolicy(policy: RoomPolicy)
    | Register(room: string)

  function Without(names: seq<string>, agent: string): (out: seq<string>)
    ensures forall x :: x in out <==> x in names && x != agent
  {
    if names == [] then []
    else (if names[0] == agent then [] else [names[0]]) + Without(names[1..], agent)
  }

  function Listed(names: seq<string>, ds: seq<Device>): (out: seq<string>)
    ensures forall x :: x in out <==> x in names && Lookup(ds, x).Some?
  {
    if names == [] then []
    else (if Lookup(ds, names[0]).Some? then [names[0]] else []) + Listed(names[1..], ds)
  }

  function Dropped(ds: seq<Device>, agent: string): (out: seq<Device>)
    ensures forall d :: d in out <==> d in ds && d.agent != agent
    ensures |out| <= |ds|
  {
    if ds == [] then []
    else (if ds[0].agent == agent then [] else [ds[0]]) + Dropped(ds[1..], agent)
  }

  function NamesOf(rooms: map<string, seq<string>>, room: string): seq<string> {
    if room in rooms then rooms[room] else []
  }

  // loadInitialRoomPolicy: only devices already admitted are kept in a room.
  function WithPolicy(r: Roster, p: RoomPolicy): Roster {
    if p.members == map[] then r.(roomMembers := None, channels := map[])
    else r.(roomMembers := Some(PolicyRooms(p.members, r.members)), channels := p.channels)
  }

  function PolicyRooms(rooms: map<string, seq<string>>, ds: seq<Device>): (out: map<string, seq<string>>)
    ensures out.Keys == rooms.Keys
  {
    map room | room in rooms :: SortNames(Listed(rooms[room], ds))
  }

  function RoomsWithout(rooms: map<string, seq<string>>, agent: string): (out: map<string, seq<string>>)
    ensures out.Keys == rooms.Keys
  {
    map room | room in rooms :: Without(rooms[room], agent)
  }

  // The next membership before it is signed; None when the change is refused.
  function Changed(me: string, r: Roster, c: Change): Option<Roster> {
    var next := r.(epoch := r.epoch + 1, previous := HashOf(r));
    match c
    case Admit(d, room) =>
      if r.roomMembers.None? then Some(next.(members := r.members + [d]))
      else if !RoomHas(r, room, me) then None
      else
        var names := SortNames(NamesOf(r.roomMembers.value, room) + [d.agent]);
        Some(next.(members := r.members + [d], roomMembers := Some(r.roomMembers.value[room := names])))
    case Revoke(agent) =>
      var kept := Dropped(r.members, agent);
      if agent == me || |kept| == |r.members| then None
      else if r.roomMembers.None? then Some(next.(members := kept))
      else Some(next.(members := kept, roomMembers := Some(RoomsWithout(r.roomMembers.value, agent))))
    case Rotate => Some(next)
    case SetRoomMember(room, agent, present) =>
      if r.roomMembers.None? || !RoomHas(r, room, me) || DeviceOf(r, agent).None? || (!present && agent == me) then None
      else
        var names := Without(NamesOf(r.roomMembers.value, room), agent) + if present then [agent] else [];
        Some(next.(roomMembers := Some(r.roomMembers.value[room := SortNames(names)])))
    case LoadPolicy(p) => if r.roomMembers.Some? then None else Some(WithPolicy(next, p))
    case Register(room) =>
      if r.roomMembers.None? || RoomHas(r, room, me) then None
      else Some(next.(roomMembers := Some(r.roomMembers.value[room := [me]])))
  }

  // ----- What every change keeps -----

  // Every room lists members only.
  ghost predicate RoomsOk(r: Roster) {
    r.roomMembers.Some? ==>
      forall room :: room in r.roomMembers.value ==>
        forall agent <- r.roomMembers.value[room] :: exists d :: d in r.members && d.agent == agent
  }

  // A device that is new in every respect the readers check.
  ghost predicate NewDevice(r: Roster, d: Device) {
    && d.agent != "" && |r.members| < MOST_MEMBERS
    && forall x <- r.members :: x.agent != d.agent && (x.recipient != d.recipient || x.key != d.key)
  }

  ghost predicate FingerprintsDiffer(ds: seq<Device>) {
    forall i, j :: 0 <= i < j < |ds| ==> ds[i].recipient != ds[j].recipient || ds[i].key != ds[j].key
  }

  lemma {:induction false} DroppedAgents(ds: seq<Device>, agent: string)
    requires AgentsDiffer(ds)
    ensures AgentsDiffer(Dropped(ds, agent))
  {
    if ds != [] {
      DroppedAgents(ds[1..], agent);
      forall x | x in Dropped(ds[1..], agent) ensures ds[0].agent != x.agent {
        var k :| 1 <= k < |ds| && ds[k] == x;
      }
    }
  }

  lemma {:induction false} DroppedFingerprints(ds: seq<Device>, agent: string)
    requires FingerprintsDiffer(ds)
    ensures FingerprintsDiffer(Dropped(ds, agent))
  {
    if ds != [] {
      DroppedFingerprints(ds[1..], agent);
      forall x | x in Dropped(ds[1..], agent) ensures ds[0].recipient != x.recipient || ds[0].key != x.key {
        var k :| 1 <= k < |ds| && ds[k] == x;
      }
    }
  }

  lemma SortedFingerprints(ds: seq<Device>)
    requires FingerprintsDiffer(ds) && AgentsDiffer(ds)
    ensures FingerprintsDiffer(SortDevices(ds))
  {
    var sorted := SortDevices(ds);
    DifferentSort(ds);
    SortDevicesSame(ds);
    forall i, j | 0 <= i < j < |sorted|
      ensures sorted[i].recipient != sorted[j].recipient || sorted[i].key != sorted[j].key
    {
      BeforeIsTotal(sorted[i].agent, sorted[j].agent);
      assert sorted[i] in ds && sorted[j] in ds;
      var m, n :| 0 <= m < |ds| && ds[m] == sorted[i] && 0 <= n < |ds| && ds[n] == sorted[j];
      assert m != n;
    }
  }

  // What a trusted membership is made of, before and after signing.
  ghost predicate Sound(r: Roster) {
    && r.epoch >= 1 && 0 < |r.members| <= MOST_MEMBERS
    && (forall d <- r.members :: d.agent != "")
    && AgentsDiffer(r.members) && FingerprintsDiffer(r.members)
  }

  lemma SignedIsTrusted(r: Roster, root: Key)
    requires Sound(r)
    ensures Trusted(Signed(r, root), root)
  {
    SortDevicesMembers(r.members);
    SortDevicesSame(r.members);
    DifferentSort(r.members);
    SortedFingerprints(r.members);
  }

  lemma StrictDiffers(ds: seq<Device>)
    requires Strict(ds)
    ensures AgentsDiffer(ds)
  {
    forall i, j | 0 <= i < j < |ds| ensures ds[i].agent != ds[j].agent {
      BeforeIsTotal(ds[i].agent, ds[j].agent);
    }
  }

  lemma TrustedIsSound(r: Roster, root: Key)
    requires Trusted(r, root)
    ensures Sound(r)
  {
    StrictDiffers(r.members);
  }

  lemma AdmitSound(r: Roster, d: Device)
    requires Sound(r) && NewDevice(r, d)
    ensures Sound(r.(members := r.members + [d], epoch := r.epoch + 1))
  {
  }

  lemma AdmitUnsound(r: Roster, d: Device, root: Key)
    requires Trusted(Signed(r.(members := r.members + [d]), root), root)
    ensures NewDevice(r, d)
  {
    var all := r.members + [d];
    var sorted := SortDevices(all);
    SortDevicesMembers(all);
    SortDevicesSame(all);
    SortIsStrict(all);
    assert all[|r.members|] == d;
    assert d in sorted;
    forall x | x in r.members ensures x.agent != d.agent && (x.recipient != d.recipient || x.key != d.key) {
      var i :| 0 <= i < |r.members| && r.members[i] == x;
      assert all[i] == x;
      assert x in sorted;
      var m, n :| 0 <= m < |sorted| && sorted[m] == x && 0 <= n < |sorted| && sorted[n] == d;
    }
  }

  lemma {:induction false} SomethingDropped(ds: seq<Device>, me: string, agent: string)
    requires me != agent && exists d :: d in ds && d.agent == me
    ensures Dropped(ds, agent) != []
  {
    var d :| d in ds && d.agent == me;
    assert d in Dropped(ds, agent);
  }

  // The devices of a changed membership, before it is sorted.
  function MembersAfter(r: Roster, c: Change): seq<Device> {
    match c
    case Admit(d, _) => r.members + [d]
    case Revoke(agent) => Dropped(r.members, agent)
    case _ => r.members
  }

  lemma ChangedShape(me: string, r: Roster, c: Change)
    requires Changed(me, r, c).Some?
    ensures var n := Changed(me, r, c).value;
            && n.members == MembersAfter(r, c) && n.epoch == r.epoch + 1 && n.previous == HashOf(r)
            && n.room == r.room && (c.Revoke? ==> c.agent != me)
  {
  }

  // A change extends the chain by one; readers accept it once the owner has signed it, and an
  // admission exactly when the device is new.
  lemma ChangeExtendsChain(me: string, root: Key, r: Roster, c: Change)
    requires Trusted(r, root) && DeviceOf(r, me).Some? && Changed(me, r, c).Some?
    ensures var n := Signed(Changed(me, r, c).value, root);
            && n.epoch == r.epoch + 1 && n.previous == HashOf(r) && n.room == r.room
            && (Trusted(n, root) <==> (c.Admit? ==> NewDevice(r, c.device)))
  {
    var n := Changed(me, r, c).value;
    TrustedIsSound(r, root);
    ChangedShape(me, r, c);
    match c
    case Admit(d, _) =>
      if NewDevice(r, d) {
        AdmitSound(r, d);
        SignedIsTrusted(n, root);
      } else if Trusted(Signed(n, root), root) {
        AdmitUnsound(n.(members := r.members), d, root);
        assert NewDevice(r, d);
      }
    case Revoke(agent) =>
      DroppedAgents(r.members, agent);
      DroppedFingerprints(r.members, agent);
      SomethingDropped(r.members, me, agent);
      SignedIsTrusted(n, root);
    case _ =>
      SignedIsTrusted(n, root);
  }

  // The owner's own device is never lost or replaced.
  lemma CreatorStays(me: string, root: Key, r: Roster, c: Change)
    requires Trusted(r, root) && DeviceOf(r, me).Some? && Changed(me, r, c).Some?
    requires c.Admit? ==> NewDevice(r, c.device)
    ensures DeviceOf(Signed(Changed(me, r, c).value, root), me) == DeviceOf(r, me)
  {
    var n := Changed(me, r, c).value;
    var d := DeviceOf(r, me).value;
    ChangedShape(me, r, c);
    ChangeExtendsChain(me, root, r, c);
    StrictIsUnique(r.members, d);
    SortDevicesSame(n.members);
    var sorted := SortDevices(n.members);
    StrictIsUnique(sorted, d);
    LookupUnique(sorted, d);
  }

  // Rooms go on listing members only, whatever the relay reported about them.
  lemma RoomsFollow(me: string, root: Key, r: Roster, c: Change)
    requires RoomsOk(r) && DeviceOf(r, me).Some? && Changed(me, r, c).Some?
    ensures RoomsOk(Signed(Changed(me, r, c).value, root))
  {
    var n := Changed(me, r, c).value;
    SortDevicesSame(n.members);
    assert RoomsOk(n) by {
      if n.roomMembers.Some? {
        forall room, agent | room in n.roomMembers.value && agent in n.roomMembers.value[room]
          ensures exists d :: d in n.members && d.agent == agent
        {
          RoomEntry(me, r, c, room, agent);
        }
      }
    }
  }

  lemma RoomEntry(me: string, r: Roster, c: Change, room: string, agent: string)
    requires RoomsOk(r) && DeviceOf(r, me).Some? && Changed(me, r, c).Some?
    requires var n := Changed(me, r, c).value;
             n.roomMembers.Some? && room in n.roomMembers.value && agent in n.roomMembers.value[room]
    ensures exists d :: d in Changed(me, r, c).value.members && d.agent == agent
  {
    var n := Changed(me, r, c).value;
    match c
    case Admit(d, other) =>
      SortNamesMembers(NamesOf(r.roomMembers.value, other) + [d.agent]);
      if agent == d.agent {
        assert d in n.members;
      } else {
        assert agent in NamesOf(r.roomMembers.value, room);
        var x :| x in r.members && x.agent == agent;
        assert x in n.members;
      }
    case Revoke(gone) =>
      var x :| x in r.members && x.agent == agent;
      assert x in n.members;
    case SetRoomMember(other, who, present) =>
      var names := Without(NamesOf(r.roomMembers.value, other), who) + if present then [who] else [];
      SortNamesMembers(names);
      assert DeviceOf(r, who).value in r.members;
    case LoadPolicy(p) =>
      SortNamesMembers(Listed(p.members[room], r.members));
      assert Lookup(r.members, agent).value in r.members;
    case Register(other) =>
      assert DeviceOf(r, me).value in r.members;
    case Rotate =>
  }

  // ----- Two changes in one call -----

  // Setting a room member first loads the policy when rooms were not managed before; the
  // second membership then names the first as its caller holds it, without the commit and
  // the signature that were added to the published copy.
  function MemberChange(me: string, root: Key, r: Roster, p: RoomPolicy, c: Change, commit: Era): (Roster, Option<Roster>)
    requires c.SetRoomMember?
  {
    if r.roomMembers.Some? then (r, Changed(me, r, c))
    else
      var held := Changed(me, r, LoadPolicy(p)).value;
      (Signed(held.(commit := Some(commit)), root), Changed(me, held, c))
  }

  // So the change extends the published chain exactly when rooms were managed already.
  lemma MemberChangeChains(me: string, root: Key, r: Roster, p: RoomPolicy, c: Change, commit: Era)
    requires c.SetRoomMember? && MemberChange(me, root, r, p, c, commit).1.Some?
    requires r.commit != Some(commit)
    ensures var (head, next) := MemberChange(me, root, r, p, c, commit);
            next.value.previous == HashOf(head) <==> r.roomMembers.Some?
  {
    if r.roomMembers.None? {
      var held := Changed(me, r, LoadPolicy(p)).value;
      assert held.commit == r.commit;
      assert Changed(me, held, c).value.previous == HashOf(held);
    }
  }
}
