// Who can read what a device seals: it takes the newest membership from the relay just before
// it seals, so an envelope may name a membership that its own group has not entered
// (cmd/tincan/encryption.go cryptoSend, cryptoRoster; encryption_mls.go sealMLS).
module Readability {
  import opened Text
  import opened Encryption
  import opened Sessions
  import opened Rosters
  import opened Journal
  import opened Sealing
  import opened DeviceRuns
  import opened DeviceSealing
  import opened DeviceKeys
  import opened DeviceStaging
  import opened DeviceTheorems
  import opened Stranding

  // ----- The session is where the journal is -----

  ghost predicate InPlace(rows: seq<Row>, st: Session) {
    st.active == Synced(rows, st.cursor)
  }

  ghost predicate AllInPlace(w: World) {
    InPlace(w.journal, w.disk) && (w.mem.Some? ==> InPlace(w.journal, w.mem.value.st))
  }

  // The guard, which a session can evaluate before it replaces its active membership: the
  // newest membership has the epoch of the one it holds.
  ghost predicate Guarded(w: World, op: Op)
    requires Enabled(w, op)
  {
    op.Refresh? ==> Head(w.journal).value.epoch == ActiveEpoch(w.mem.value.st)
  }

  // While the device is in place, admitted or still waiting for it, the guard is exact.
  lemma RefreshGuardInPlace(run: Run, k: nat, st: Session)
    requires IsRun(run) && k < |run.worlds| && StateOf(run.worlds[k], st) && Head(run.worlds[k].journal).Some?
    requires Refreshed(st, Head(run.worlds[k].journal).value).Some? && InPlace(run.worlds[k].journal, st)
    ensures var rows := run.worlds[k].journal;
            InPlace(rows, Refreshed(st, Head(rows).value).value) <==> Head(rows).value.epoch == ActiveEpoch(st)
  {
    var rows := run.worlds[k].journal;
    RefreshKeepsPlace(run, k, st);
    RunStages(run, k);
    LinkAt(rows, st.root, st.room, st.cursor);
  }

  lemma RowInPlace(rows: seq<Row>, st: Session)
    requires Increasing(rows) && InPlace(rows, st) && Rest(rows, st.cursor) != []
    requires RowStep(st, Rest(rows, st.cursor)[0]).Moved?
    ensures InPlace(rows, RowStep(st, Rest(rows, st.cursor)[0]).st)
  {
    var row := Rest(rows, st.cursor)[0];
    SyncedAfter(rows, st.cursor);
    if row.RosterRow? {
      RosterMoved(st, row.roster);
    } else {
      MessageFooting(st, row);
    }
  }

  lemma AppendInPlace(w: World, row: Row)
    requires StageInv(w) && AllInPlace(w) && Follows(w.journal, row.seqNo)
    ensures AllInPlace(w.(journal := w.journal + [row]))
  {
    assert Stands(w.journal, w.disk);
    PastAppend(w.journal, row, w.disk.cursor);
    if w.mem.Some? {
      assert Stands(w.journal, w.mem.value.st);
      PastAppend(w.journal, row, w.mem.value.st.cursor);
    }
  }

  lemma RelayInPlace(w: World, op: Op)
    requires StageInv(w) && Enabled(w, op) && AllInPlace(w) && (op.RelayTakes? || op.RelayTakesRoster? || op.RelayBrings?)
    ensures AllInPlace(Next(w, op))
  {
    match op
    case RelayTakes(e, at) => AppendInPlace(w, EnvelopeRow(at, e));
    case RelayTakesRoster(r, at) => AppendInPlace(w, RosterRow(at, r));
    case RelayBrings(row) => AppendInPlace(w, row);
  }

  lemma SyncInPlace(w: World, saved: bool)
    requires StageInv(w) && Enabled(w, SyncRow(saved)) && AllInPlace(w)
    ensures AllInPlace(Next(w, SyncRow(saved)))
  {
    if RowStep(w.mem.value.st, Rest(w.journal, w.mem.value.st.cursor)[0]).Moved? {
      RowInPlace(w.journal, w.mem.value.st);
    }
  }

  lemma HeadInForce(rows: seq<Row>, st: Session)
    requires JournalOk(rows, st.root, st.room) && InPlace(rows, st) && HeadEpoch(rows) == ActiveEpoch(st)
    ensures Head(rows) == Synced(rows, st.cursor)
  {
    LinkAt(rows, st.root, st.room, st.cursor);
    HeadIsSynced(rows, st.cursor);
  }

  lemma RefreshInPlace(w: World)
    requires StageInv(w) && Enabled(w, Refresh) && Guarded(w, Refresh) && AllInPlace(w)
    ensures AllInPlace(Next(w, Refresh))
  {
    HeadInForce(w.journal, w.mem.value.st);
  }

  lemma DraftInPlace(w: World, op: Op)
    requires Enabled(w, op) && AllInPlace(w)
    requires op.SealMessage? || op.SealFile? || op.PrepareFirst? || op.Prepare? || op.OfferRefused?
    ensures AllInPlace(Next(w, op))
  {
    var st, st2 := w.mem.value.st, Next(w, op).mem.value.st;
    assert st2.cursor == st.cursor && st2.active == st.active;
  }

  lemma PlainInPlace(w: World, op: Op)
    requires Enabled(w, op) && AllInPlace(w)
    requires op.Open? || op.Close? || op.Crash? || op.Persist? || op.Retry? || op.Post? || op.Conflict? || op.Offer?
    ensures AllInPlace(Next(w, op))
  {
  }

  lemma StepInPlace(w: World, op: Op)
    requires StageInv(w) && Enabled(w, op) && Guarded(w, op) && AllInPlace(w)
    ensures AllInPlace(Next(w, op))
  {
    if op.RelayTakes? || op.RelayTakesRoster? || op.RelayBrings? {
      RelayInPlace(w, op);
    } else if op.SyncRow? {
      SyncInPlace(w, op.saved);
    } else if op.Refresh? {
      RefreshInPlace(w);
    } else if op.SealMessage? || op.SealFile? || op.PrepareFirst? || op.Prepare? || op.OfferRefused? {
      DraftInPlace(w, op);
    } else {
      PlainInPlace(w, op);
    }
  }

  // A device that always compares first, from its setup on, is always in place: it never runs
  // ahead, and so is never stranded, whether it waits for admission or has been admitted.
  lemma {:induction false} GuardedStaysInPlace(run: Run, k: nat)
    requires IsRun(run) && k < |run.worlds| && forall i :: 0 <= i < k ==> Guarded(run.worlds[i], run.ops[i])
    ensures AllInPlace(run.worlds[k])
  {
    if k == 0 {
      StartsBefore(run.worlds[0].journal);
    } else {
      GuardedStaysInPlace(run, k - 1);
      RunStages(run, k - 1);
      StepInPlace(run.worlds[k - 1], run.ops[k - 1]);
    }
  }

  // ----- A group before admission -----

  // Only a room's owner has a group before its first membership is in force.
  ghost predicate GroupOk(st: Session) {
    st.mlsEpoch == 0 && st.group.Some? ==> st.key == st.root && st.staged.Some? && st.staged.value.epoch == 1
  }

  ghost predicate GroupsOk(w: World) {
    GroupOk(w.disk) && (w.mem.Some? ==> GroupOk(w.mem.value.st))
  }

  lemma RowGroup(st: Session, row: Row)
    requires GroupOk(st) && RowStep(st, row).Moved?
    ensures GroupOk(RowStep(st, row).st)
  {
    if !row.RosterRow? {
      MessageFooting(st, row);
    }
  }

  lemma PreparedGroup(w: World, op: Op)
    requires Enabled(w, op) && GroupsOk(w) && (op.PrepareFirst? || op.Prepare? || op.OfferRefused?)
    ensures GroupsOk(Next(w, op))
  {
  }

  lemma SealedGroup(w: World, op: Op)
    requires Enabled(w, op) && GroupsOk(w) && (op.SealMessage? || op.SealFile?)
    ensures GroupsOk(Next(w, op))
  {
  }

  lemma StepGroups(w: World, op: Op)
    requires Enabled(w, op) && GroupsOk(w)
    ensures GroupsOk(Next(w, op))
  {
    if op.SyncRow? {
      var row := Rest(w.journal, w.mem.value.st.cursor)[0];
      if RowStep(w.mem.value.st, row).Moved? {
        RowGroup(w.mem.value.st, row);
      }
    } else if op.PrepareFirst? || op.Prepare? || op.OfferRefused? {
      PreparedGroup(w, op);
    } else if op.SealMessage? || op.SealFile? {
      SealedGroup(w, op);
    }
  }

  lemma {:induction false} RunGroups(run: Run, k: nat)
    requires IsRun(run) && k < |run.worlds|
    ensures GroupsOk(run.worlds[k])
  {
    if k > 0 {
      RunGroups(run, k - 1);
      StepGroups(run.worlds[k - 1], run.ops[k - 1]);
    }
  }

  // ----- Who reads what was sealed -----

  // A member in step with the membership an envelope names, within the ratchet window, that
  // has not had the message yet.
  ghost predicate Reader(b: Session, e: Envelope) {
    && EpochOk(b) && EraOk(b) && b.mlsEpoch > 0 && Verified(e, b.active.value)
    && b.me != e.context.sender && b.key != e.signer && IdOf(e) !in b.consumed
    && Opens(RatchetOf(b.group.value, e.signer), e.capsule.generation)
  }

  // Whoever follows the journal without a fault is in step with it.
  lemma FollowersInStep(b: Session, rows: seq<Row>)
    requires Newcomer(b) && forall row <- rows :: row.RosterRow? ==> Honest(row.roster)
    ensures EpochOk(Replay(b, rows).st) && EraOk(Replay(b, rows).st)
  {
    EpochKept(b, rows);
  }

  lemma SecondOrLater(b: Session, agent: string)
    requires EpochOk(b) && b.mlsEpoch > 0 && DeviceOf(b.active.value, agent).Some? && agent != b.me
    ensures b.mlsEpoch > 1 && Epoch(b.group.value.era) + 1 == b.active.value.epoch == b.mlsEpoch
  {
    var ds := b.active.value.members;
    assert DeviceOf(b.active.value, agent).value in ds && DeviceOf(b.active.value, b.me).value in ds;
    var i :| 0 <= i < |ds| && ds[i].agent == agent;
    var j :| 0 <= j < |ds| && ds[j].agent == b.me;
    assert |ds| >= 2;
  }

  lemma SealedShape(st: Session, key: string, channel: string, payload: int, secret: int)
    requires Seal(st, key, channel, payload, secret).Some?
    ensures st.active.Some? && st.group.Some?
    ensures var e := Seal(st, key, channel, payload, secret).value.1;
            && e.context.rosterHash == HashOf(st.active.value) && e.context.sender == st.me && e.signer == st.key
            && e.capsule.era == st.group.value.era && e.capsule.generation == st.group.value.sent
            && IdOf(e) == Id(st.me, key, payload)
  {
  }

  // The group that seals is the one of the membership in force.
  lemma ErasAgree(run: Run, k: nat, st: Session, b: Session)
    requires IsRun(run) && k < |run.worlds| && StateOf(run.worlds[k], st) && st.group.Some?
    requires EpochOk(b) && EraOk(b) && b.mlsEpoch > 1 && b.active == st.active
    requires Epoch(b.group.value.era) + 1 == b.active.value.epoch
    ensures st.group.value.era == b.group.value.era <==> InPlace(run.worlds[k].journal, st)
  {
    var y := Synced(run.worlds[k].journal, st.cursor);
    MergedExactly(run, k, st);
    StateStands(run, k, st);
    RunGroups(run, k);
    assert GroupOk(st);
    LinkAt(run.worlds[k].journal, st.root, st.room, st.cursor);
    if st.mlsEpoch == 0 {
      assert NextEra(st).value == st.group.value.era;
    }
  }

  // What a device has sealed, in any state of any run, is read by the members in step with the
  // membership it names if and only if that membership was the one in force for the device
  // itself; otherwise every one of them rejects it.
  lemma ReadableExactly(run: Run, k: nat, st: Session, b: Session, key: string, channel: string, payload: int, secret: int)
    requires IsRun(run) && k < |run.worlds| && StateOf(run.worlds[k], st) && Seal(st, key, channel, payload, secret).Some?
    requires Reader(b, Seal(st, key, channel, payload, secret).value.1)
    ensures var e := Seal(st, key, channel, payload, secret).value.1;
            && (Consume(b, e).Used? <==> InPlace(run.worlds[k].journal, st))
            && (Consume(b, e).Used? || Consume(b, e).Rejection?)
  {
    var e := Seal(st, key, channel, payload, secret).value.1;
    SealedShape(st, key, channel, payload, secret);
    SecondOrLater(b, st.me);
    ErasAgree(run, k, st, b);
    if InPlace(run.worlds[k].journal, st) {
      var d := DeviceOf(b.active.value, st.me).value;
      assert d in b.active.value.members;
      SealedIsReadable(st, b, key, channel, payload, secret);
    }
  }

  // A device that compares before it looks ahead seals nothing that the others cannot read.
  lemma GuardedIsReadable(run: Run, k: nat, b: Session, key: string, channel: string, payload: int, secret: int)
    requires IsRun(run) && k < |run.worlds| && run.worlds[k].mem.Some?
    requires forall i :: 0 <= i < k ==> Guarded(run.worlds[i], run.ops[i])
    requires Seal(run.worlds[k].mem.value.st, key, channel, payload, secret).Some?
    requires Reader(b, Seal(run.worlds[k].mem.value.st, key, channel, payload, secret).value.1)
    ensures Consume(b, Seal(run.worlds[k].mem.value.st, key, channel, payload, secret).value.1).Used?
  {
    GuardedStaysInPlace(run, k);
    ReadableExactly(run, k, run.worlds[k].mem.value.st, b, key, channel, payload, secret);
  }

  // ----- An example -----

  // The member that has looked at the third membership before reading it sends a message.
  const CHANNEL := ROOM_PREFIX + "m" + "_" + "1"
  const CONTEXT := Context("m", true, CHANNEL, "b", "p", 3, HashOf(THIRD), 7)
  const MESSAGE := Envelope(CONTEXT, Capsule(EraOf(2), "x", 0, Plain(9), CONTEXT), "x")

  const SENDING := AHEAD.(group := Some(Entered(EraOf(2)).(sent := 1)), consumed := {IdOf(MESSAGE)},
                          archive := map[IdOf(MESSAGE) := 9], outbox := map["p" := MESSAGE])

  // Its owner, in step with the third membership.
  const OWNING := Session("a", "k", "k", "m", Some(Entered(EraOf(3))), 3, Some(THIRD), None, 3, {}, map[], {}, None, map[])

  function Sending(disk: Session, unsaved: bool, sent: set<Envelope>, rows: seq<Row>): World {
    World(disk, Some(Mem(SENDING, unsaved, false, Some(MESSAGE))), rows, sent, {}, {})
  }

  lemma MessageSealed()
    ensures Seal(AHEAD, "p", CHANNEL, 7, 9) == Some((SENDING.(outbox := map[]), MESSAGE))
    ensures Verified(MESSAGE, THIRD)
  {
    ChannelNamesRoom("m", "1");
    assert Lookup([OWNER, MEMBER][1..], "b") == Some(MEMBER);
    assert DeviceOf(THIRD, "b") == Some(MEMBER);
    assert AHEAD.consumed + {IdOf(MESSAGE)} == {IdOf(MESSAGE)};
    var out := Seal(AHEAD, "p", CHANNEL, 7, 9);
    assert out.Some? && out.value.1.context == CONTEXT;
    assert out.value.1 == MESSAGE;
    assert out.value.0 == SENDING.(outbox := map[]);
  }

  lemma ExtendedSteps(w: World, op: Op, next: World)
    requires (w, op, next) in {
               (Sending(ADMITTED, true, {}, LATE), Persist(true), Sending(SENDING, false, {}, LATE)),
               (Sending(SENDING, false, {}, LATE), Post, Sending(SENDING, false, {MESSAGE}, LATE)),
               (Sending(SENDING, false, {MESSAGE}, LATE), RelayTakes(MESSAGE, 4),
                Sending(SENDING, false, {MESSAGE}, LATE + [EnvelopeRow(4, MESSAGE)]))}
    ensures Enabled(w, op) && Next(w, op) == next
  {
    JournalsChained();
  }

  lemma MessageStep()
    ensures var w := Opened(AHEAD, ADMITTED, LATE, false);
            && Enabled(w, SealMessage("p", CHANNEL, 7, 9))
            && Next(w, SealMessage("p", CHANNEL, 7, 9)) == Sending(ADMITTED, true, {}, LATE)
  {
    MessageSealed();
  }

  function Extended(): Run {
    Run(Example().worlds[..6]
        + [Sending(ADMITTED, true, {}, LATE), Sending(SENDING, false, {}, LATE), Sending(SENDING, false, {MESSAGE}, LATE),
           Sending(SENDING, false, {MESSAGE}, LATE + [EnvelopeRow(4, MESSAGE)])],
        Example().ops[..5] + [SealMessage("p", CHANNEL, 7, 9), Persist(true), Post, RelayTakes(MESSAGE, 4)])
  }

  lemma ExtendedRuns()
    ensures IsRun(Extended())
  {
    ExampleRuns();
    var first, run := Example(), Extended();
    forall k | 0 <= k < 9 ensures Enabled(run.worlds[k], run.ops[k]) && run.worlds[k + 1] == Next(run.worlds[k], run.ops[k]) {
      if k < 5 {
        assert run.worlds[k] == first.worlds[k] && run.ops[k] == first.ops[k] && run.worlds[k + 1] == first.worlds[k + 1];
      } else {
        ExtendedTail(k);
      }
    }
  }

  lemma ExtendedTail(k: nat)
    requires 5 <= k < 9
    ensures var run := Extended();
            Enabled(run.worlds[k], run.ops[k]) && run.worlds[k + 1] == Next(run.worlds[k], run.ops[k])
  {
    var run := Extended();
    if k == 5 {
      MessageStep();
    } else {
      ExtendedSteps(run.worlds[k], run.ops[k], run.worlds[k + 1]);
    }
  }

  lemma OwnerReads()
    ensures Reader(OWNING, MESSAGE)
  {
    RostersTrusted();
    MessageSealed();
    assert DeviceOf(THIRD, "a") == Some(OWNER);
    assert Epoch(EraOf(3)) == 2;
    assert |{"k", "x"}| == 2;
  }

  // The relay takes the message, and no member of its membership reads it: neither the owner
  // nor anyone else.
  lemma UnreadableExample(b: Session)
    ensures IsRun(Extended()) && Published(Extended().worlds[9].journal, MESSAGE)
    ensures Reader(OWNING, MESSAGE)
    ensures Reader(b, MESSAGE) ==> Consume(b, MESSAGE).Rejection?
  {
    ExtendedRuns();
    OwnerReads();
    assert EnvelopeRow(4, MESSAGE) in Extended().worlds[9].journal;
    if Reader(b, MESSAGE) {
      NobodyReads(b);
    }
  }

  lemma NobodyReads(b: Session)
    requires Reader(b, MESSAGE)
    ensures Consume(b, MESSAGE).Rejection?
  {
    MessageSealed();
    ExampleRuns();
    ExamplePlace();
    assert Example().worlds[5] == Opened(AHEAD, ADMITTED, LATE, false);
    ReadableExactly(Example(), 5, AHEAD, b, "p", CHANNEL, 7, 9);
  }
}
