// What the outbox guarantees about idempotency keys: one envelope per key, over any run.
module DeviceKeys {
  import opened Text
  import opened Encryption
  import opened Sessions
  import opened Rosters
  import opened Journal
  import opened Sealing
  import opened DeviceRuns
  import opened DeviceSealing

  lemma {:induction false} LinksAppend(rows: seq<Row>, row: Row)
    ensures Links(rows + [row]) == Links(rows) + if row.RosterRow? then [row.roster] else []
    decreases |rows|
  {
    if rows == [] {
      assert rows + [row] == [row] && [row][1..] == [];
    } else {
      assert (rows + [row])[0] == rows[0] && (rows + [row])[1..] == rows[1..] + [row];
      LinksAppend(rows[1..], row);
    }
  }

  // Published, or still good enough to be published.
  ghost predicate Alive(rows: seq<Row>, e: Envelope) {
    Published(rows, e) || e.context.epoch >= HeadEpoch(rows)
  }

  ghost predicate Keeps(st: Session, e: Envelope) {
    e.context.key in st.outbox && st.outbox[e.context.key] == e
  }

  ghost predicate OwnSignatures(w: World) {
    forall e :: InPool(w, e) ==> e.signer == w.disk.key
  }

  ghost predicate FilesOnce(w: World) {
    forall a, b :: (InPool(w, a) && InPool(w, b) && a.context.key == b.context.key && a.context.key in w.uploads) ==> a == b
  }

  // The outbox still has every message that was posted and may be in the journal.
  ghost predicate OutboxKeeps(w: World) {
    forall e :: (e in w.sent && e.context.key !in w.uploads && Alive(w.journal, e)) ==>
      Keeps(w.disk, e) && (w.mem.Some? ==> Keeps(w.mem.value.st, e))
  }

  ghost predicate ReadyKept(w: World) {
    w.mem.Some? && w.mem.value.ready.Some? && w.mem.value.ready.value.context.key !in w.uploads ==>
      Keeps(w.mem.value.st, w.mem.value.ready.value)
      && (!w.mem.value.unsaved ==> Keeps(w.disk, w.mem.value.ready.value))
  }

  ghost predicate KeyInv(w: World) {
    SealInv(w) && OwnSignatures(w) && FilesOnce(w) && OutboxKeeps(w) && ReadyKept(w)
  }

  lemma BeginningKeys(w: World)
    requires Beginning(w)
    ensures KeyInv(w)
  {
    BeginningSeals(w);
  }

  // Operations that add nothing to the pool.
  lemma PoolShrinks(w: World, w2: World)
    requires OwnSignatures(w) && FilesOnce(w) && w2.uploads == w.uploads && w2.disk.key == w.disk.key
    requires forall e :: InPool(w2, e) ==> InPool(w, e)
    ensures OwnSignatures(w2) && FilesOnce(w2)
  {
  }

  // The session's state changes, its outbox does not.
  lemma SameOutbox(w: World, m2: Mem, saved: bool, disk: Session)
    requires KeyInv(w) && w.mem.Some? && m2.st.outbox == w.mem.value.st.outbox
    requires SameDevice(w.disk, m2.st)
    requires m2.ready.None? || (m2.ready == w.mem.value.ready && (m2.unsaved || !w.mem.value.unsaved || saved))
    requires disk == if saved then m2.st else w.disk
    ensures var w2 := w.(disk := disk, mem := Some(m2));
            OwnSignatures(w2) && FilesOnce(w2) && OutboxKeeps(w2) && ReadyKept(w2)
  {
    PoolShrinks(w, w.(disk := disk, mem := Some(m2)));
  }

  lemma SealKeys(w: World, w2: World, key: string, channel: string, payload: int, secret: int, keep: bool)
    requires KeyInv(w) && Working(w) && Seal(w.mem.value.st, key, channel, payload, secret).Some?
    requires key !in w.uploads
    requires if keep then key !in w.mem.value.st.outbox else forall e :: InPool(w, e) ==> e.context.key != key
    requires w2 == Prepared(w, SealedWith(w.mem.value.st, key, channel, payload, secret, keep),
                            Some(Seal(w.mem.value.st, key, channel, payload, secret).value.1))
                     .(uploads := if keep then w.uploads else w.uploads + {key})
    ensures OwnSignatures(w2) && FilesOnce(w2) && OutboxKeeps(w2) && ReadyKept(w2)
  {
    var st := w.mem.value.st;
    var e := Seal(st, key, channel, payload, secret).value.1;
    SealAdvances(st, key, channel, payload, secret, keep);
    forall x | InPool(w2, x) ensures InPool(w, x) || x == e {
      PoolOfSealed(w, w2, e, x);
    }
    SealOutbox(w, w2, e);
  }

  lemma SealOutbox(w: World, w2: World, e: Envelope)
    requires OutboxKeeps(w) && w.mem.Some? && w2.mem.Some? && w2.mem.value.ready == Some(e)
    requires w2.journal == w.journal && w2.sent == w.sent && w2.disk == w.disk && w2.mem.value.unsaved
    requires || (w2.uploads == w.uploads + {e.context.key} && w2.mem.value.st.outbox == w.mem.value.st.outbox)
             || (w2.uploads == w.uploads && e.context.key !in w.mem.value.st.outbox
                 && w2.mem.value.st.outbox == w.mem.value.st.outbox[e.context.key := e])
    ensures OutboxKeeps(w2) && ReadyKept(w2)
  {
  }

  lemma PoolOfSealed(w: World, w2: World, e: Envelope, x: Envelope)
    requires w.mem.Some? && w2.mem.Some? && w2.disk == w.disk && w2.sent == w.sent && InPool(w2, x)
    requires w2.mem.value.ready == Some(e)
    requires w2.mem.value.st.outbox == w.mem.value.st.outbox
             || w2.mem.value.st.outbox == w.mem.value.st.outbox[e.context.key := e]
    ensures InPool(w, x) || x == e
  {
    var outbox := w2.mem.value.st.outbox;
    if x in outbox.Values {
      var k :| k in outbox && outbox[k] == x;
      assert x == e || (k in w.mem.value.st.outbox && w.mem.value.st.outbox[k] == x);
    }
  }

  lemma RetryKeys(w: World, key: string)
    requires KeyInv(w) && Enabled(w, Retry(key))
    ensures var w2 := Next(w, Retry(key)); OwnSignatures(w2) && FilesOnce(w2) && OutboxKeeps(w2) && ReadyKept(w2)
  {
    assert w.mem.value.st.outbox[key] in w.mem.value.st.outbox.Values;
    assert w.mem.value.st.outbox[key].context.key == key;
    PoolShrinks(w, Next(w, Retry(key)));
  }

  lemma ConflictKeys(w: World, key: string)
    requires KeyInv(w) && Enabled(w, Conflict(key))
    ensures var w2 := Next(w, Conflict(key)); OwnSignatures(w2) && FilesOnce(w2) && OutboxKeeps(w2) && ReadyKept(w2)
  {
    var w2 := Next(w, Conflict(key));
    forall x | InPool(w2, x) ensures InPool(w, x) {
      ConflictPool(w, key, x);
    }
    PoolShrinks(w, w2);
    ConflictOutbox(w, key);
  }

  lemma ConflictOutbox(w: World, key: string)
    requires KeyInv(w) && Enabled(w, Conflict(key))
    ensures OutboxKeeps(Next(w, Conflict(key)))
  {
    var w2 := Next(w, Conflict(key));
    forall e | e in w.sent && e.context.key !in w.uploads && Alive(w.journal, e)
      ensures Keeps(w.disk, e) && Keeps(w2.mem.value.st, e)
    {
      assert Keeps(w.mem.value.st, e);
      assert e.context.key != key;
    }
  }

  lemma ConflictPool(w: World, key: string, x: Envelope)
    requires Enabled(w, Conflict(key)) && InPool(Next(w, Conflict(key)), x)
    ensures InPool(w, x)
  {
    var before, after := w.mem.value.st.outbox, Next(w, Conflict(key)).mem.value.st.outbox;
    if x in after.Values {
      var k :| k in after && after[k] == x;
      assert before[k] == x;
    }
  }

  lemma JournalKeys(w: World, row: Row)
    requires KeyInv(w)
    requires row.EnvelopeRow? ==>
               row.envelope.signer != w.disk.key || row.envelope.context.epoch >= HeadEpoch(w.journal)
    requires row.RosterRow? ==> row.roster.epoch >= HeadEpoch(w.journal)
    ensures var w2 := w.(journal := w.journal + [row]);
            OwnSignatures(w2) && FilesOnce(w2) && OutboxKeeps(w2) && ReadyKept(w2)
  {
    var rows := w.journal + [row];
    PoolShrinks(w, w.(journal := rows));
    LinksAppend(w.journal, row);
    assert HeadEpoch(rows) >= HeadEpoch(w.journal);
    forall e | e in w.sent && Alive(rows, e) ensures Alive(w.journal, e) {
      assert InPool(w, e);
      if Published(rows, e) && !Published(w.journal, e) {
        assert row.EnvelopeRow? && row.envelope == e;
      }
    }
  }

  lemma CloseKeys(w: World, w2: World)
    requires KeyInv(w) && w.mem.Some? && w2.mem.None? && (w2.disk == w.disk || w2.disk == w.mem.value.st)
    requires w2.sent == w.sent && w2.uploads == w.uploads && w2.journal == w.journal
    ensures OwnSignatures(w2) && FilesOnce(w2) && OutboxKeeps(w2) && ReadyKept(w2)
  {
    PoolShrinks(w, w2);
  }

  lemma SyncKeys(w: World, saved: bool)
    requires KeyInv(w) && Enabled(w, SyncRow(saved))
    ensures var w2 := Next(w, SyncRow(saved)); OwnSignatures(w2) && FilesOnce(w2) && OutboxKeeps(w2) && ReadyKept(w2)
  {
    var m, w2 := w.mem.value, Next(w, SyncRow(saved));
    var row := Rest(w.journal, m.st.cursor)[0];
    if RowStep(m.st, row).Moved? {
      RowAdvances(m.st, row);
      SameOutbox(w, w2.mem.value, saved, w2.disk);
    } else {
      SameOutbox(w, w2.mem.value, false, w2.disk);
    }
  }

  lemma PersistKeys(w: World, saved: bool)
    requires KeyInv(w) && Enabled(w, Persist(saved))
    ensures var w2 := Next(w, Persist(saved)); OwnSignatures(w2) && FilesOnce(w2) && OutboxKeeps(w2) && ReadyKept(w2)
  {
    SameOutbox(w, Next(w, Persist(saved)).mem.value, saved, Next(w, Persist(saved)).disk);
  }

  lemma SessionKeys(w: World, op: Op)
    requires KeyInv(w) && Enabled(w, op)
    requires op.Refresh? || op.PrepareFirst? || op.Prepare? || op.OfferRefused?
    ensures var w2 := Next(w, op); OwnSignatures(w2) && FilesOnce(w2) && OutboxKeeps(w2) && ReadyKept(w2)
  {
    var m2 := Next(w, op).mem.value;
    assert m2.st.outbox == w.mem.value.st.outbox && SameDevice(w.mem.value.st, m2.st);
    SameOutbox(w, m2, false, w.disk);
    PoolShrinks(w, Next(w, op));
  }

  lemma PostKeys(w: World)
    requires KeyInv(w) && Enabled(w, Post)
    ensures var w2 := Next(w, Post); OwnSignatures(w2) && FilesOnce(w2) && OutboxKeeps(w2) && ReadyKept(w2)
  {
    PoolShrinks(w, Next(w, Post));
  }

  lemma OpenKeys(w: World)
    requires KeyInv(w) && w.mem.None?
    ensures var w2 := Next(w, Open); OwnSignatures(w2) && FilesOnce(w2) && OutboxKeeps(w2) && ReadyKept(w2)
  {
    PoolShrinks(w, Next(w, Open));
  }

  lemma StepKeys(w: World, op: Op)
    requires KeyInv(w) && Enabled(w, op)
    ensures KeyInv(Next(w, op))
  {
    StepSeals(w, op);
    match op
    case Open => OpenKeys(w);
    case Close(_) => CloseKeys(w, Next(w, op));
    case Crash => CloseKeys(w, Next(w, op));
    case SealMessage(key, channel, payload, secret) => SealKeys(w, Next(w, op), key, channel, payload, secret, true);
    case SealFile(key, channel, payload, secret) => SealKeys(w, Next(w, op), key, channel, payload, secret, false);
    case Retry(key) => RetryKeys(w, key);
    case Post => PostKeys(w);
    case Conflict(key) => ConflictKeys(w, key);
    case Offer => PoolShrinks(w, Next(w, op));
    case RelayTakes(e, at) => JournalKeys(w, EnvelopeRow(at, e));
    case RelayTakesRoster(r, at) => JournalKeys(w, RosterRow(at, r));
    case RelayBrings(row) => JournalKeys(w, row);
    case SyncRow(saved) => SyncKeys(w, saved);
    case Persist(saved) => PersistKeys(w, saved);
    case _ => SessionKeys(w, op);
  }

  // ----- Over whole runs -----

  lemma {:induction false} RunKeys(run: Run, k: nat)
    requires IsRun(run) && k < |run.worlds|
    ensures KeyInv(run.worlds[k])
  {
    if k == 0 {
      BeginningKeys(run.worlds[0]);
    } else {
      RunKeys(run, k - 1);
      StepKeys(run.worlds[k - 1], run.ops[k - 1]);
    }
  }

  // Write-ahead sealing: whatever crashes, saves that fail and answers that are lost, every
  // envelope posted so far is already marked consumed in the saved state, and no two of them
  // have the same place in the ratchet.
  lemma WriteAhead(run: Run, k: nat)
    requires IsRun(run) && k < |run.worlds|
    ensures var w := run.worlds[k];
            && (forall e <- w.sent :: IdOf(e) in w.disk.consumed)
            && (forall a, b :: (a in w.sent && b in w.sent && a.capsule.era == b.capsule.era
                                && a.capsule.generation == b.capsule.generation) ==> a == b)
  {
    RunKeys(run, k);
    var w := run.worlds[k];
    forall a, b | a in w.sent && b in w.sent && a.capsule.era == b.capsule.era
                  && a.capsule.generation == b.capsule.generation
      ensures a == b
    {
      assert SamePlace(a, b) && InPool(w, a) && InPool(w, b);
    }
    forall e | e in w.sent ensures IdOf(e) in w.disk.consumed {
      assert Covers(w.disk, e);
    }
  }

  // So a device is never told that it is stale or cloned because of its own messages, neither
  // in an open session nor when it starts again from the saved state.
  lemma OwnEchoIsHarmless(run: Run, k: nat, row: Row)
    requires IsRun(run) && k < |run.worlds| && row in run.worlds[k].journal
    requires row.EnvelopeRow? && row.envelope.signer == run.worlds[k].disk.key
    ensures var w := run.worlds[k];
            && RowStep(w.disk, row) != Stopped(StaleOrCloned)
            && (w.mem.Some? ==> RowStep(w.mem.value.st, row) != Stopped(StaleOrCloned))
  {
    RunKeys(run, k);
    var w := run.worlds[k];
    assert row.envelope in w.sent;
    assert Covers(w.disk, row.envelope);
    if w.mem.Some? {
      CoversForward(w.disk, w.mem.value.st, row.envelope);
    }
  }

  // However often a message is retried, resealed for a new membership or delivered late, the
  // journal never holds two different envelopes of this device for one idempotency key.
  lemma OneEnvelopePerKey(run: Run, k: nat, a: Row, b: Row)
    requires IsRun(run) && k < |run.worlds| && a in run.worlds[k].journal && b in run.worlds[k].journal
    requires a.EnvelopeRow? && a.envelope.signer == run.worlds[k].disk.key
    requires b.EnvelopeRow? && b.envelope.signer == run.worlds[k].disk.key
    requires a.envelope.context.key == b.envelope.context.key
    ensures a.envelope == b.envelope
  {
    RunKeys(run, k);
    var w := run.worlds[k];
    assert a.envelope in w.sent && b.envelope in w.sent;
    assert Published(w.journal, a.envelope) && Published(w.journal, b.envelope);
    if a.envelope.context.key in w.uploads {
      assert InPool(w, a.envelope) && InPool(w, b.envelope);
    } else {
      assert Keeps(w.disk, a.envelope) && Keeps(w.disk, b.envelope);
    }
  }
}
