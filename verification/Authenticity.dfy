// Where keys and memberships come from: whatever a device takes from the journal was made by a
// device that the owner's membership lists (cmd/tincan/encryption_mls.go syncMLS, consumeMLSKey;
// internal/e2ee/crypto.go, mls.go).
module Authenticity {
  import opened Text
  import opened Encryption
  import opened Sessions
  import opened Journal

  // The envelope was made under this membership by a device that it lists for the sender.
  ghost predicate MadeUnder(e: Envelope, r: Roster) {
    && e.context.epoch == r.epoch && e.context.rosterHash == HashOf(r)
    && (exists d :: d in r.members && d.agent == e.context.sender && d.key == e.signer)
    && (ChannelRoom(r, e.context.channel) != "" ==>
          e.context.room == ChannelRoom(r, e.context.channel) && RoomHas(r, e.context.room, e.context.sender))
    && e.capsule.sender == e.signer && e.capsule.bound == e.context
    && e.context.channel != "" && 1 <= |e.context.key| <= 128 && e.context.roomGroup == (r.room != "")
  }

  // A session in this state may take the key of the envelope: another member made it in the
  // epoch that its own group is in, and it has not been opened before.
  ghost predicate Genuine(st: Session, e: Envelope) {
    && st.active.Some? && st.active.value.signer == st.root && MadeUnder(e, st.active.value)
    && (exists d :: d in st.active.value.members && d.agent == st.me)
    && e.context.sender != st.me && IdOf(e) !in st.consumed
    && st.group.Some? && e.capsule.era == st.group.value.era && e.signer in Members(st.group.value.era)
    && e.capsule.generation !in RatchetOf(st.group.value, e.signer).spent
  }

  // The key is meant for the session: in the group of a workspace, a message for a room is kept
  // only by members of the room whose device it was boxed for.
  ghost predicate MeantFor(st: Session, e: Envelope, secret: int)
    requires st.active.Some?
  {
    && e.capsule.box.secret == secret
    && if e.context.room != "" && !e.context.roomGroup
       then RoomHas(st.active.value, e.context.room, st.me) && e.capsule.box.Boxed? && st.me in e.capsule.box.readers
       else e.capsule.box.Plain?
  }

  ghost predicate OwnerSigned(st: Session) {
    st.active.Some? ==> st.active.value.signer == st.root
  }

  lemma StepSigned(st: Session, row: Row)
    requires OwnerSigned(st) && RowStep(st, row).Moved?
    ensures OwnerSigned(RowStep(st, row).st)
  {
    if row.RosterRow? {
      EnteredIsOwners(st, row.roster);
    } else {
      MessageFooting(st, row);
    }
  }

  // A membership is entered only if the owner signed it as the successor of the active one;
  // a member merges no commit but the owner's, on top of its own epoch.
  lemma EnteredIsOwners(st: Session, r: Roster)
    requires EnterRoster(st, r).Moved?
    ensures r.signer == st.root && r.room == st.room && EnterRoster(st, r).st.root == st.root
    ensures r.epoch == ActiveEpoch(st) + 1 && (r.epoch > 1 ==> st.active.Some? && r.previous == HashOf(st.active.value))
    ensures EnterRoster(st, r).st.active == Some(r)
    ensures st.mlsEpoch > 0 && st.staged != Some(r) ==>
              && r.commit.Some? && r.commit.value.Committed? && r.commit.value.author == st.root
              && st.group.Some? && r.commit.value.base == st.group.value.era
              && st.root in Members(st.group.value.era) && st.key != st.root && st.key in Members(r.commit.value)
              && EnterRoster(st, r).st.group == Some(Entered(r.commit.value))
    // Nobody is admitted without a welcome made for the key of the device.
    ensures st.mlsEpoch == 0 && st.staged != Some(r) && EnterRoster(st, r).st.mlsEpoch > 0 ==>
              && r.welcome.Some? && st.key in Members(r.welcome.value)
              && EnterRoster(st, r).st.group == Some(Entered(r.welcome.value))
  {
  }

  // A message this device may not read leaves everything as it is but its place in the ratchet
  // of the sender, which is then spent; one that was consumed already not even that.
  lemma OpaqueOnlyTurns(st: Session, seqNo: int, c: Capsule, id: Id)
    requires RowStep(st, OpaqueRow(seqNo, c, id)).Moved?
    ensures var next := RowStep(st, OpaqueRow(seqNo, c, id)).st;
            && next == st.(cursor := seqNo, group := next.group)
            && (IsMember(st) && id !in st.consumed ==>
                  st.group.Some? && next.group.Some? && Decrypt(next.group.value, st.key, c).None?)
            && (!IsMember(st) || id in st.consumed || Decrypt(st.group.value, st.key, c).None? ==> next.group == st.group)
  {
  }

  lemma ConsumeGenuine(st: Session, e: Envelope)
    requires st.active.Some? && OwnerSigned(st) && Verified(e, st.active.value) && IsMember(st)
    requires IdOf(e) !in st.consumed && Consume(st, e).Used?
    ensures Genuine(st, e) && Consume(st, e).st.consumed == st.consumed + {IdOf(e)}
    ensures Consume(st, e).st.archive == st.archive
            || (exists secret :: MeantFor(st, e, secret) && Consume(st, e).st.archive == st.archive[IdOf(e) := secret])
  {
    var r := st.active.value;
    assert DeviceOf(r, st.me).value in r.members && DeviceOf(r, e.context.sender).value in r.members;
    if Consume(st, e).st.archive != st.archive {
      assert MeantFor(st, e, e.capsule.box.secret);
    }
  }

  // What one row can add.
  lemma RowGenuine(st: Session, row: Row, id: Id)
    requires OwnerSigned(st) && RowStep(st, row).Moved?
    ensures var next := RowStep(st, row).st;
            && (id in next.consumed && id !in st.consumed ==>
                  row.EnvelopeRow? && IdOf(row.envelope) == id && Genuine(st, row.envelope))
            && (id in next.archive && (id !in st.archive || next.archive[id] != st.archive[id]) ==>
                  row.EnvelopeRow? && IdOf(row.envelope) == id && Genuine(st, row.envelope)
                  && MeantFor(st, row.envelope, next.archive[id]))
  {
    if row.RosterRow? {
      RosterKeepsKeys(st, row.roster);
    } else if row.EnvelopeRow? && IsMember(st) && IdOf(row.envelope) !in st.consumed && Consume(st, row.envelope).Used? {
      ConsumeGenuine(st, row.envelope);
    }
  }

  lemma RosterKeepsKeys(st: Session, r: Roster)
    requires EnterRoster(st, r).Moved?
    ensures EnterRoster(st, r).st.consumed == st.consumed && EnterRoster(st, r).st.archive == st.archive
  {
  }

  lemma StateAfter(st: Session, rows: seq<Row>, n: nat)
    requires rows != [] && RowStep(st, rows[0]).Moved? && n <= |rows| - 1
    ensures Replay(st, rows[..n + 1]) == Replay(RowStep(st, rows[0]).st, rows[1..][..n])
  {
    assert rows[..n + 1][0] == rows[0] && rows[..n + 1][1..] == rows[1..][..n];
  }

  // Every message a replay consumes was made by another listed device of an owner-signed
  // membership, in the epoch the device was then in.
  lemma {:induction false} ConsumedIsGenuine(st: Session, rows: seq<Row>, id: Id) returns (n: nat)
    requires OwnerSigned(st) && id in Replay(st, rows).st.consumed && id !in st.consumed
    ensures n < |rows| && rows[n].EnvelopeRow? && IdOf(rows[n].envelope) == id
    ensures Genuine(Replay(st, rows[..n]).st, rows[n].envelope)
    decreases |rows|
  {
    var next := RowStep(st, rows[0]).st;
    StepSigned(st, rows[0]);
    RowGenuine(st, rows[0], id);
    if id in next.consumed {
      n := 0;
    } else {
      var m := ConsumedIsGenuine(next, rows[1..], id);
      StateAfter(st, rows, m);
      n := m + 1;
    }
  }

  // And every key it archives was meant for this device.
  lemma {:induction false} ArchivedIsGenuine(st: Session, rows: seq<Row>, id: Id) returns (n: nat)
    requires OwnerSigned(st) && id in Replay(st, rows).st.archive
    requires id !in st.archive || Replay(st, rows).st.archive[id] != st.archive[id]
    ensures n < |rows| && rows[n].EnvelopeRow? && IdOf(rows[n].envelope) == id
    ensures var was := Replay(st, rows[..n]).st;
            Genuine(was, rows[n].envelope) && MeantFor(was, rows[n].envelope, Replay(st, rows).st.archive[id])
    decreases |rows|
  {
    var next, end := RowStep(st, rows[0]).st, Replay(st, rows).st;
    StepSigned(st, rows[0]);
    RowGenuine(st, rows[0], id);
    if id in next.archive && next.archive[id] == end.archive[id] {
      n := 0;
    } else {
      var m := ArchivedIsGenuine(next, rows[1..], id);
      StateAfter(st, rows, m);
      n := m + 1;
    }
  }
}
