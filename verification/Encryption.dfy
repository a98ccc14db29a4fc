// Encrypted rooms: signed rosters, envelopes, and the group engine seen as an abstract ratchet
// (internal/e2ee/crypto.go, internal/e2ee/mls.go, crypto/mls/src/main.rs). Keys, signatures,
// hashes and secrets are free terms: equal exactly when they were made from the same things.
module Encryption {
  import opened Text

  type Key = string

  // The secrets of one group epoch: founded by one device, then changed by commits. A commit
  // message is the era it leads to, and so is the welcome sent to a new member.
  datatype Era =
    | Founded(founder: Key, seed: int)
    | Committed(base: Era, author: Key, members: set<Key>, seed: int)

  function Epoch(e: Era): nat {
    if e.Founded? then 0 else Epoch(e.base) + 1
  }

  function Members(e: Era): set<Key> {
    if e.Founded? then {e.founder} else e.members
  }

  datatype Device = Device(agent: string, recipient: string, key: Key)

  // `signer` is the key that signed everything else.
  datatype Roster = Roster(
    room: string, roomMembers: Option<map<string, seq<string>>>, channels: map<string, string>,
    epoch: int, previous: Hash, members: seq<Device>,
    commit: Option<Era>, welcome: Option<Era>, signer: Key)

  datatype Hash = NoHash | HashOf(roster: Roster)

  const MOST_MEMBERS := 256

  predicate Strict(ds: seq<Device>) {
    forall i, j :: 0 <= i < j < |ds| ==> Before(ds[i].agent, ds[j].agent)
  }

  // What every reader of a roster checks.
  predicate Trusted(r: Roster, root: Key) {
    && r.signer == root && r.epoch >= 1 && 0 < |r.members| <= MOST_MEMBERS
    && (forall d <- r.members :: d.agent != "")
    && Strict(r.members)
    && (forall i, j :: 0 <= i < j < |r.members| ==>
          r.members[i].recipient != r.members[j].recipient || r.members[i].key != r.members[j].key)
  }

  function Lookup(ds: seq<Device>, agent: string): (d: Option<Device>)
    ensures d.Some? ==> d.value in ds && d.value.agent == agent
    ensures d.None? ==> forall x <- ds :: x.agent != agent
  {
    if ds == [] then None
    else if ds[0].agent == agent then Some(ds[0])
    else Lookup(ds[1..], agent)
  }

  function DeviceOf(r: Roster, agent: string): Option<Device> {
    Lookup(r.members, agent)
  }

  predicate RoomHas(r: Roster, room: string, agent: string) {
    if r.room == room then DeviceOf(r, agent).Some?
    else r.roomMembers.Some? && room in r.roomMembers.value && agent in r.roomMembers.value[room]
  }

  const ROOM_PREFIX := "ch_room_"

  // The last underscore before position n, or -1.
  function LastUnderscore(s: string, n: nat): (k: int)
    requires n <= |s|
    ensures -1 <= k < n && (k >= 0 ==> s[k] == '_')
    ensures forall j :: k < j < n ==> s[j] != '_'
    decreases n
  {
    if n == 0 then -1 else if s[n - 1] == '_' then n - 1 else LastUnderscore(s, n - 1)
  }

  // New channel identifiers name their room.
  function RoomForChannel(channel: string): string {
    if |channel| < |ROOM_PREFIX| || channel[..|ROOM_PREFIX|] != ROOM_PREFIX then ""
    else
      var tail := channel[|ROOM_PREFIX|..];
      var k := LastUnderscore(tail, |tail|);
      if k < 1 then "" else tail[..k]
  }

  function ChannelRoom(r: Roster, channel: string): string {
    if RoomForChannel(channel) != "" then RoomForChannel(channel)
    else if channel in r.channels then r.channels[channel] else ""
  }

  lemma ChannelNamesRoom(room: string, id: string)
    requires room != "" && '_' !in id
    ensures RoomForChannel(ROOM_PREFIX + room + "_" + id) == room
  {
    var tail := room + "_" + id;
    assert (ROOM_PREFIX + room + "_" + id)[|ROOM_PREFIX|..] == tail;
    assert (ROOM_PREFIX + room + "_" + id)[..|ROOM_PREFIX|] == ROOM_PREFIX;
    assert tail[|room|] == '_';
    forall j | |room| < j < |tail| ensures tail[j] != '_' {
      assert tail[j] == id[j - |room| - 1];
    }
    assert LastUnderscore(tail, |tail|) == |room|;
    assert tail[..|room|] == room;
  }

  // And only such an identifier names it.
  lemma ChannelForm(channel: string, room: string)
    requires room != ""
    ensures RoomForChannel(channel) == room <==> exists id :: '_' !in id && channel == ROOM_PREFIX + room + "_" + id
  {
    if RoomForChannel(channel) == room {
      var tail := channel[|ROOM_PREFIX|..];
      var k := LastUnderscore(tail, |tail|);
      var id := tail[k + 1..];
      forall c | c in id ensures c != '_' {
        var j :| 0 <= j < |id| && id[j] == c;
        assert tail[k + 1 + j] == c;
      }
      assert tail == room + "_" + id;
      assert channel == ROOM_PREFIX + tail;
      assert channel == ROOM_PREFIX + room + "_" + id;
    }
    if id :| '_' !in id && channel == ROOM_PREFIX + room + "_" + id {
      ChannelNamesRoom(room, id);
    }
  }

  // Any other channel is in the room that the membership lists it for.
  lemma OtherChannels(r: Roster, channel: string)
    requires RoomForChannel(channel) == ""
    ensures ChannelRoom(r, channel) == if channel in r.channels then r.channels[channel] else ""
  {
  }

  // ----- Envelopes -----

  // What a capsule is bound to: everything in the envelope but the capsule and the signature.
  // `payload` is the hash of the ciphertext.
  datatype Context = Context(
    room: string, roomGroup: bool, channel: string, sender: string, key: string,
    epoch: int, rosterHash: Hash, payload: int)

  // A message key, alone or encrypted again for the members of one room.
  datatype Box = Plain(secret: int) | Boxed(secret: int, readers: set<string>)

  datatype Capsule = Capsule(era: Era, sender: Key, generation: nat, box: Box, bound: Context)

  datatype Envelope = Envelope(context: Context, capsule: Capsule, signer: Key)

  // The identity of a sealed payload, under which its key is archived.
  datatype Id = Id(sender: string, key: string, payload: int)

  function IdOf(e: Envelope): Id {
    Id(e.context.sender, e.context.key, e.context.payload)
  }

  predicate Verified(e: Envelope, r: Roster) {
    var c := e.context;
    && c.roomGroup == (r.room != "")
    && (r.room != "" ==> c.room == r.room && ChannelRoom(r, c.channel) == r.room)
    && (ChannelRoom(r, c.channel) != "" ==>
          c.room == ChannelRoom(r, c.channel) && RoomHas(r, c.room, c.sender))
    && (c.room != "" ==> ChannelRoom(r, c.channel) == c.room)
    && DeviceOf(r, c.sender).Some?
    && c.epoch == r.epoch && c.rosterHash == HashOf(r)
    && c.channel != "" && 1 <= |c.key| <= 128
    && e.signer == DeviceOf(r, c.sender).value.key
  }

  // ----- The group engine -----

  // How far a receiver follows one sender: the next generation expected, and those opened.
  datatype Ratchet = Ratchet(next: nat, spent: set<nat>)

  const OUT_OF_ORDER := 128
  const MOST_FORWARD := 4096

  predicate Opens(r: Ratchet, n: nat) {
    n !in r.spent && n <= r.next + MOST_FORWARD && r.next <= n + OUT_OF_ORDER
  }

  function Heard(r: Ratchet, n: nat): Ratchet {
    Ratchet(if n >= r.next then n + 1 else r.next, r.spent + {n})
  }

  // The group state of one device. `staged` is a commit of its own, not yet merged.
  datatype Group = Group(era: Era, sent: nat, heard: map<Key, Ratchet>, staged: Option<Era>)

  function Entered(e: Era): Group {
    Group(e, 0, map[], None)
  }

  function Join(me: Key, welcome: Era): Option<Group> {
    if me in Members(welcome) then Some(Entered(welcome)) else None
  }

  function Stage(g: Group, me: Key, members: set<Key>, seed: int): Option<Group> {
    if g.staged.Some? || me !in members then None
    else Some(g.(staged := Some(Committed(g.era, me, members, seed))))
  }

  function Finalize(g: Group): Group {
    if g.staged.Some? then Entered(g.staged.value) else g
  }

  function Discard(g: Group): Group {
    g.(staged := None)
  }

  // Another member's commit. A device cannot process its own, nor one that removes it.
  function Merge(g: Group, me: Key, e: Era): Option<Group> {
    if e.Committed? && e.base == g.era && e.author in Members(g.era) && e.author != me && me in e.members
    then Some(Entered(e)) else None
  }

  function Encrypt(g: Group, me: Key, box: Box, bound: Context): Option<(Group, Capsule)> {
    if g.staged.Some? then None
    else Some((g.(sent := g.sent + 1), Capsule(g.era, me, g.sent, box, bound)))
  }

  function RatchetOf(g: Group, sender: Key): Ratchet {
    if sender in g.heard then g.heard[sender] else Ratchet(0, {})
  }

  function Decrypt(g: Group, me: Key, c: Capsule): Option<Group> {
    if c.era == g.era && c.sender in Members(g.era) && c.sender != me && Opens(RatchetOf(g, c.sender), c.generation)
    then Some(g.(heard := g.heard[c.sender := Heard(RatchetOf(g, c.sender), c.generation)]))
    else None
  }

  // ----- What the ratchet guarantees -----

  function HearAll(r: Ratchet, gens: seq<nat>): Option<Ratchet> {
    if gens == [] then Some(r)
    else
      var before := HearAll(r, gens[..|gens| - 1]);
      var n := gens[|gens| - 1];
      if before.Some? && Opens(before.value, n) then Some(Heard(before.value, n)) else None
  }

  // One more than the largest generation delivered so far.
  function Horizon(gens: seq<nat>): nat {
    if gens == [] then 0
    else
      var before, n := Horizon(gens[..|gens| - 1]), gens[|gens| - 1];
      if n >= before then n + 1 else before
  }

  // Delivery k is no repetition, at most 128 behind the newest before it, and at most 4096 ahead.
  predicate Fits(gens: seq<nat>, k: nat)
    requires k < |gens|
  {
    && gens[k] !in gens[..k]
    && Horizon(gens[..k]) <= gens[k] + OUT_OF_ORDER
    && gens[k] <= Horizon(gens[..k]) + MOST_FORWARD
  }

  lemma FitsInFront(gens: seq<nat>, m: nat, k: nat)
    requires k < m <= |gens|
    ensures Fits(gens, k) == Fits(gens[..m], k)
  {
    assert gens[..m][..k] == gens[..k];
  }

  // Deliveries from one sender in any order all succeed exactly when each of them fits.
  lemma {:induction false} WindowIsExact(gens: seq<nat>)
    ensures HearAll(Ratchet(0, {}), gens).Some? <==> forall k :: 0 <= k < |gens| ==> Fits(gens, k)
    ensures HearAll(Ratchet(0, {}), gens).Some? ==>
              HearAll(Ratchet(0, {}), gens).value == Ratchet(Horizon(gens), set n | n in gens)
  {
    if gens != [] {
      var m := |gens| - 1;
      var front := gens[..m];
      WindowIsExact(front);
      forall k | 0 <= k < m ensures Fits(gens, k) == Fits(front, k) {
        FitsInFront(gens, m, k);
      }
      assert gens == front + [gens[m]];
      assert (set n | n in gens) == (set n | n in front) + {gens[m]};
      var before := HearAll(Ratchet(0, {}), front);
      if before.Some? {
        assert Opens(before.value, gens[m]) <==> Fits(gens, m);
        assert (forall k :: 0 <= k < |gens| ==> Fits(gens, k)) <==> Fits(gens, m);
      } else {
        var k :| 0 <= k < m && !Fits(front, k);
        assert !Fits(gens, k);
      }
    }
  }
}
