// What a membership change that the owner stages does to all devices once it is published:
// members follow it into one new epoch, an admitted device joins there, a revoked one stops
// (cmd/tincan/encryption_mls.go changeMLSRoster, syncMLS; crypto/mls/src/main.rs).
module Admission {
  import opened Text
  import opened Encryption
  import opened Sessions
  import opened Rosters
  import opened Journal
  import opened Sealing
  import opened DeviceStaging

  // The owner's session in step, from which a change can be staged.
  ghost predicate OwnerInStep(st: Session) {
    && st.active.Some? && Standing(st, st.active) && st.staged.None? && st.key == st.root && st.mlsEpoch > 0
    && Trusted(st.active.value, st.root) && st.active.value.room == st.room
    && DeviceOf(st.active.value, st.me).Some? && DeviceOf(st.active.value, st.me).value.key == st.key
  }

  // Another member's session in the same epoch.
  ghost predicate MemberInStep(st: Session, b: Session) {
    && b.root == st.root && b.room == st.room && b.active == st.active && b.mlsEpoch == st.mlsEpoch && b.staged.None?
    && b.group.Some? && st.group.Some? && b.group.value.era == st.group.value.era && b.key != st.key
    && b.active.Some? && DeviceOf(b.active.value, b.me).Some? && DeviceOf(b.active.value, b.me).value.key == b.key
  }

  // A device that follows the memberships and has not been admitted.
  ghost predicate WaitsInStep(st: Session, b: Session) {
    && b.root == st.root && b.room == st.room && b.active == st.active && b.mlsEpoch == 0 && b.staged.None? && b.group.None?
  }

  // What is published for the change.
  function Published(st: Session, c: Change, seed: int): Roster
    requires StageChange(st, c, seed).Some?
  {
    StageChange(st, c, seed).value.staged.value
  }

  lemma PublishedShape(st: Session, c: Change, seed: int)
    requires OwnerInStep(st) && StageChange(st, c, seed).Some?
    ensures st.group.Some? && EngineMembers(st.group.value, st.active.value, c, st.key).Some?
    ensures var r := Published(st, c, seed);
            && r.room == st.room && r.signer == st.root && r.epoch == st.active.value.epoch + 1 == st.mlsEpoch + 1
            && r.previous == HashOf(st.active.value)
            && r.members == SortDevices(MembersAfter(st.active.value, c))
            && r.commit == Some(Committed(st.group.value.era, st.key,
                                          EngineMembers(st.group.value, st.active.value, c, st.key).value, seed))
            && r.welcome == (if c.Admit? then r.commit else None)
  {
    StagedShape(st, c, seed);
    ChangedShape(st.me, st.active.value, c);
  }

  lemma AdmittedIsNew(st: Session, c: Change)
    requires OwnerInStep(st) && st.group.Some? && EngineMembers(st.group.value, st.active.value, c, st.key).Some?
    requires c.Admit? && c.device.agent != "" && |st.active.value.members| < MOST_MEMBERS
    ensures NewDevice(st.active.value, c.device)
  {
    assert At(st, st.active) == st;
    assert MembersMatch(st.group.value.era, st.active.value);
  }

  lemma PublishedTrusted(st: Session, c: Change, seed: int)
    requires OwnerInStep(st) && StageChange(st, c, seed).Some?
    requires c.Admit? ==> c.device.agent != "" && |st.active.value.members| < MOST_MEMBERS
    ensures Trusted(Published(st, c, seed), st.root)
  {
    PublishedShape(st, c, seed);
    StagedShape(st, c, seed);
    if c.Admit? {
      AdmittedIsNew(st, c);
    }
    ChangeExtendsChain(st.me, st.root, st.active.value, c);
    ChangedShape(st.me, st.active.value, c);
    var n := Signed(Changed(st.me, st.active.value, c).value, st.root);
    assert n.members == Published(st, c, seed).members;
  }

  lemma PublishedMembers(st: Session, c: Change, seed: int)
    requires OwnerInStep(st) && StageChange(st, c, seed).Some?
    ensures var r := Published(st, c, seed);
            && r.commit.Some? && MembersMatch(r.commit.value, r)
            && (forall d :: d in r.members <==> d in MembersAfter(st.active.value, c))
  {
    PublishedShape(st, c, seed);
    assert At(st, st.active) == st;
    MembersFit(st.group.value, st.active.value, c, st.key, Published(st, c, seed), seed);
    SortDevicesSame(MembersAfter(st.active.value, c));
  }

  // A device of the new membership that was in the old one is the same device.
  lemma SameDeviceAfter(st: Session, c: Change, seed: int, d: Device, d2: Device)
    requires OwnerInStep(st) && StageChange(st, c, seed).Some?
    requires d in st.active.value.members && d2 in Published(st, c, seed).members && d2.agent == d.agent
    ensures d2 == d
  {
    PublishedShape(st, c, seed);
    PublishedMembers(st, c, seed);
    StrictIsUnique(st.active.value.members, d);
    assert d2 in MembersAfter(st.active.value, c);
  }

  // A member that the new membership lists follows the owner into the new epoch, with the
  // secrets of the published commit.
  lemma MembersFollow(st: Session, c: Change, seed: int, b: Session)
    requires OwnerInStep(st) && StageChange(st, c, seed).Some? && MemberInStep(st, b)
    requires c.Admit? ==> c.device.agent != "" && |st.active.value.members| < MOST_MEMBERS
    requires DeviceOf(Published(st, c, seed), b.me).Some?
    ensures var r := Published(st, c, seed);
            && EnterRoster(b, r).Moved?
            && var next := EnterRoster(b, r).st;
               && next.active == Some(r) && next.mlsEpoch == r.epoch
               && next.group.Some? && Some(next.group.value.era) == r.commit
  {
    var r := Published(st, c, seed);
    PublishedShape(st, c, seed);
    PublishedTrusted(st, c, seed);
    PublishedMembers(st, c, seed);
    SameDeviceAfter(st, c, seed, DeviceOf(b.active.value, b.me).value, DeviceOf(r, b.me).value);
    OwnerIsMember(st);
    assert b.key in Members(r.commit.value);
    Merges(b, r, r.commit.value);
  }

  // A commit of the owner's that fits the group and the membership is merged.
  lemma Merges(b: Session, r: Roster, e: Era)
    requires b.active.Some? && b.mlsEpoch > 0 && b.staged.None? && b.group.Some? && b.room == r.room && Trusted(r, b.root)
    requires r.epoch == b.active.value.epoch + 1 && r.previous == HashOf(b.active.value) && DeviceOf(r, b.me).Some?
    requires r.commit == Some(e) && MembersMatch(e, r)
    requires e.Committed? && e.base == b.group.value.era && e.author == b.root && e.author in Members(e.base)
    requires e.author != b.key && b.key in Members(e)
    ensures EnterRoster(b, r).Moved?
    ensures var next := EnterRoster(b, r).st;
            next.active == Some(r) && next.mlsEpoch == r.epoch && next.group.Some? && Some(next.group.value.era) == r.commit
  {
    assert Merge(b.group.value, b.key, e) == Some(Entered(e));
    assert FollowRoster(b, r) == Now(Entered(e));
  }

  lemma OwnerIsMember(st: Session)
    requires OwnerInStep(st)
    ensures st.group.Some? && st.key in Members(st.group.value.era)
  {
    assert At(st, st.active) == st;
    assert DeviceOf(st.active.value, st.me).value in st.active.value.members;
  }

  // A member that it does not list has been revoked by this change, and stops.
  lemma RevokedStops(st: Session, c: Change, seed: int, b: Session)
    requires OwnerInStep(st) && StageChange(st, c, seed).Some? && MemberInStep(st, b)
    requires DeviceOf(Published(st, c, seed), b.me).None?
    ensures c == Revoke(b.me) && EnterRoster(b, Published(st, c, seed)) == Stopped(Removed)
  {
    var d := DeviceOf(b.active.value, b.me).value;
    PublishedShape(st, c, seed);
    PublishedMembers(st, c, seed);
    assert d !in Published(st, c, seed).members;
    assert d !in MembersAfter(st.active.value, c);
    assert c.Revoke? && c.agent == b.me;
    PublishedTrusted(st, c, seed);
  }

  // And whoever is revoked is not listed.
  lemma RevokedIsGone(st: Session, c: Change, seed: int)
    requires OwnerInStep(st) && StageChange(st, c, seed).Some? && c.Revoke?
    ensures DeviceOf(Published(st, c, seed), c.agent).None?
  {
    PublishedShape(st, c, seed);
    PublishedMembers(st, c, seed);
  }

  // The admitted device joins in the same epoch and with the same secrets.
  lemma AdmittedJoins(st: Session, c: Change, seed: int, b: Session)
    requires OwnerInStep(st) && StageChange(st, c, seed).Some? && WaitsInStep(st, b)
    requires c.Admit? && c.device.agent == b.me != "" && c.device.key == b.key && |st.active.value.members| < MOST_MEMBERS
    ensures var r := Published(st, c, seed);
            && EnterRoster(b, r).Moved?
            && var next := EnterRoster(b, r).st;
               && next.active == Some(r) && next.mlsEpoch == r.epoch
               && next.group.Some? && Some(next.group.value.era) == r.commit
  {
    var r := Published(st, c, seed);
    PublishedShape(st, c, seed);
    PublishedTrusted(st, c, seed);
    PublishedMembers(st, c, seed);
    assert c.device in MembersAfter(st.active.value, c);
    assert c.device in r.members;
    LookupFinds(r.members, b.me);
    assert Join(b.key, r.welcome.value).Some?;
  }

  // Everybody else goes on waiting.
  lemma OthersWait(st: Session, c: Change, seed: int, b: Session)
    requires OwnerInStep(st) && StageChange(st, c, seed).Some? && WaitsInStep(st, b)
    requires c.Admit? ==> c.device.agent != "" && |st.active.value.members| < MOST_MEMBERS
    requires DeviceOf(Published(st, c, seed), b.me).None?
    ensures EnterRoster(b, Published(st, c, seed)) == Moved(b.(active := Some(Published(st, c, seed))))
  {
    PublishedShape(st, c, seed);
    PublishedTrusted(st, c, seed);
  }
}
