// Preparing what a device publishes: sealed messages and staged memberships
// (cmd/tincan/encryption_mls.go sealMLS, changeMLSRoster, ensureMLS; encryption.go cryptoRoster).
module Sealing {
  import opened Text
  import opened Encryption
  import opened Sessions
  import opened Rosters
  import opened Journal

  // ----- The relay's newest membership -----

  // None when the relay shows something older than, or different from, what it showed before.
  function Refreshed(st: Session, r: Roster): Option<Session> {
    if r.room != st.room || !Trusted(r, st.root) then None
    else if st.head.Some? && (r.epoch < st.head.value.epoch || (r.epoch == st.head.value.epoch && r != st.head.value)) then None
    else Some(st.(head := Some(r), active := Some(r)))
  }

  // A session takes the relay's word for the newest membership only if the owner signed it for
  // this room, and never one older than, or different from, what it took before.
  lemma RefreshMeans(st: Session, r: Roster)
    ensures Refreshed(st, r).Some? <==>
            && r.room == st.room && Trusted(r, st.root)
            && (st.head.Some? ==> r.epoch > st.head.value.epoch || r == st.head.value)
    ensures Refreshed(st, r).Some? ==> Refreshed(st, r).value == st.(head := Some(r), active := Some(r)) && r.signer == st.root
  {
  }

  // ----- Messages -----

  function RoomReaders(r: Roster, room: string): set<string> {
    set d <- r.members | r.room == room || RoomHas(r, room, d.agent) :: d.agent
  }

  // The session after sealing and the envelope to post; None when the message is refused.
  function Seal(st: Session, key: string, channel: string, payload: int, secret: int): Option<(Session, Envelope)> {
    if st.active.None? || st.group.None? then None
    else
      var r := st.active.value;
      var room := ChannelRoom(r, channel);
      if room != "" && !RoomHas(r, room, st.me) then None
      else
        var c := Context(room, room != "" && st.room != "", channel, st.me, key, r.epoch, HashOf(r), payload);
        if Nested(c) && RoomReaders(r, room) == {} then None
        else
          var box := if Nested(c) then Boxed(secret, RoomReaders(r, room)) else Plain(secret);
          var out := Encrypt(st.group.value, st.key, box, c);
          if out.None? then None
          else
            var e := Envelope(c, out.value.1, st.key);
            Some((st.(group := Some(out.value.0), consumed := st.consumed + {IdOf(e)},
                      archive := st.archive[IdOf(e) := secret]), e))
  }

  // For whom a message is sealed. In the group of a workspace the key of a message for a room is
  // boxed for exactly the members of that room that have a device; otherwise it is not boxed.
  lemma SealedFor(st: Session, key: string, channel: string, payload: int, secret: int, agent: string)
    requires Seal(st, key, channel, payload, secret).Some?
    ensures var r := st.active.value;
            var e := Seal(st, key, channel, payload, secret).value.1;
            var room := ChannelRoom(r, channel);
            && e.context.channel == channel && e.context.room == room && (room != "" ==> RoomHas(r, room, st.me))
            && (e.context.roomGroup <==> room != "" && st.room != "")
            && if room != "" && st.room == "" then
                 && e.capsule.box.Boxed? && e.capsule.box.secret == secret && e.capsule.box.readers != {}
                 && (agent in e.capsule.box.readers <==>
                       && (exists d :: d in r.members && d.agent == agent)
                       && (r.room == room || (r.roomMembers.Some? && room in r.roomMembers.value && agent in r.roomMembers.value[room])))
               else e.capsule.box == Plain(secret)
  {
    var r := st.active.value;
    var room := ChannelRoom(r, channel);
    if r.room == room {
      forall d | d in r.members ensures RoomHas(r, room, d.agent) {
        assert DeviceOf(r, d.agent).Some?;
      }
    }
  }

  // A session seals exactly when it has a membership and a group without a pending commit, and
  // is in the room it writes to, which has somebody to read it.
  lemma SealsExactly(st: Session, key: string, channel: string, payload: int, secret: int)
    ensures Seal(st, key, channel, payload, secret).Some? <==>
            && st.active.Some? && st.group.Some? && st.group.value.staged.None?
            && var r := st.active.value;
               var room := ChannelRoom(r, channel);
               room == "" || (RoomHas(r, room, st.me)
                              && (st.room == "" ==> exists d :: d in r.members && (r.room == room || RoomHas(r, room, d.agent))))
  {
    if st.active.Some? {
      var r := st.active.value;
      var room := ChannelRoom(r, channel);
      if d :| d in r.members && (r.room == room || RoomHas(r, room, d.agent)) {
        assert d.agent in RoomReaders(r, room);
      } else {
        assert RoomReaders(r, room) == {};
      }
    }
  }

  // Whatever a listed device seals in its place is a proper envelope of the membership it names.
  lemma SealedVerifies(st: Session, key: string, channel: string, payload: int, secret: int)
    requires Seal(st, key, channel, payload, secret).Some?
    requires DeviceOf(st.active.value, st.me).Some? && DeviceOf(st.active.value, st.me).value.key == st.key
    requires st.active.value.room == st.room && (st.room != "" ==> ChannelRoom(st.active.value, channel) == st.room)
    requires channel != "" && 1 <= |key| <= 128
    ensures var e := Seal(st, key, channel, payload, secret).value.1;
            && Verified(e, st.active.value) && e.capsule.bound == e.context && e.capsule.sender == e.signer == st.key
            && IdOf(e) == Id(st.me, key, payload)
  {
  }

  // A message sealed by one member is read by every other member who is in step with the
  // sender and within the ratchet window, and by a room's members only; nobody opens it twice.
  lemma SealedIsReadable(a: Session, b: Session, key: string, channel: string, payload: int, secret: int)
    requires Seal(a, key, channel, payload, secret).Some?
    requires a.active == b.active && IsMember(b) && a.me != b.me && a.key != b.key
    requires b.group.Some? && a.group.value.era == b.group.value.era && a.key in Members(b.group.value.era)
    requires DeviceOf(a.active.value, a.me).Some? && DeviceOf(a.active.value, a.me).value.key == a.key
    requires Opens(RatchetOf(b.group.value, a.key), a.group.value.sent)
    requires Id(a.me, key, payload) !in b.consumed
    ensures var e := Seal(a, key, channel, payload, secret).value.1;
            && Consume(b, e).Used?
            && IdOf(e) in Consume(b, e).st.consumed
            && Decrypt(Consume(b, e).st.group.value, b.key, e.capsule).None?
            && (if Nested(e.context) && !RoomHas(b.active.value, e.context.room, b.me)
                then Consume(b, e).st.archive == b.archive
                else Consume(b, e).st.archive == b.archive[IdOf(e) := secret])
  {
    var e := Seal(a, key, channel, payload, secret).value.1;
    var r := a.active.value;
    if Nested(e.context) && RoomHas(r, e.context.room, b.me) {
      assert DeviceOf(r, b.me).value in r.members;
      assert b.me in e.capsule.box.readers;
    }
  }

  // ----- Memberships -----

  // The engine's members after the change; None when the engine refuses it.
  function EngineMembers(g: Group, r: Roster, c: Change, own: Key): Option<set<Key>> {
    match c
    case Admit(d, _) =>
      if DeviceOf(r, d.agent).Some? || d.key in Members(g.era) then None else Some(Members(g.era) + {d.key})
    case Revoke(agent) =>
      if DeviceOf(r, agent).None? then None
      else
        var gone := DeviceOf(r, agent).value.key;
        if gone !in Members(g.era) || gone == own then None else Some(Members(g.era) - {gone})
    case _ => Some(Members(g.era))
  }

  // The owner prepares a change: the engine stages a commit and the signed membership that
  // carries it is kept until the relay has taken or refused it.
  function StageChange(st: Session, c: Change, seed: int): Option<Session> {
    if st.active.None? || st.group.None? then None
    else
      var next := Changed(st.me, st.active.value, c);
      var members := EngineMembers(st.group.value, st.active.value, c, st.key);
      if next.None? || members.None? then None
      else
        var g := Stage(st.group.value, st.key, members.value, seed);
        if g.None? then None
        else
          var r := Signed(next.value.(commit := g.value.staged, welcome := if c.Admit? then g.value.staged else None), st.key);
          Some(st.(group := g, staged := Some(r)))
  }

  // The first membership of a room: its owner alone.
  function StageFirst(st: Session, recipient: string, seed: int): Option<Session> {
    if st.key != st.root || st.group.Some? then None
    else
      var r := Roster(st.room, None, map[], 1, NoHash, [Device(st.me, recipient, st.key)], None, None, st.key);
      Some(st.(group := Some(Entered(Founded(st.key, seed))), staged := Some(r)))
  }

  // After a refusal that cannot have published the change.
  function Discarded(st: Session): Session {
    st.(group := if st.group.Some? then Some(Discard(st.group.value)) else None, staged := None)
  }
}
