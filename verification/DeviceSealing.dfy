// Write-ahead sealing: over any run, nothing is posted before its key and its place in the
// ratchet are saved.
module DeviceSealing {
  import opened Text
  import opened Encryption
  import opened Sessions
  import opened Rosters
  import opened Journal
  import opened Sealing
  import opened DeviceRuns

  // ----- One session -----

  // The group has moved past this capsule's place in the ratchet.
  ghost predicate SpentIn(g: Group, c: Capsule) {
    Epoch(c.era) < Epoch(g.era) || (c.era == g.era && c.generation < g.sent)
  }

  ghost predicate Covers(st: Session, e: Envelope) {
    IdOf(e) in st.consumed && st.group.Some? && SpentIn(st.group.value, e.capsule)
  }

  ghost predicate OutboxOk(st: Session) {
    forall k :: k in st.outbox ==> st.outbox[k].context.key == k && Covers(st, st.outbox[k])
  }

  ghost predicate StagedOk(st: Session) {
    st.group.Some? && st.group.value.staged.Some? ==>
      st.group.value.staged.value.Committed? && st.group.value.staged.value.base == st.group.value.era
  }

  ghost predicate SameDevice(s: Session, t: Session) {
    s.me == t.me && s.key == t.key && s.root == t.root && s.room == t.room
  }

  // Nothing consumed is forgotten, and the ratchet only goes on.
  ghost predicate Forward(s: Session, t: Session) {
    && SameDevice(s, t) && s.consumed <= t.consumed
    && (s.group.Some? ==>
          t.group.Some?
          && (Epoch(s.group.value.era) < Epoch(t.group.value.era)
              || (s.group.value.era == t.group.value.era && s.group.value.sent <= t.group.value.sent)))
  }

  lemma CoversForward(s: Session, t: Session, e: Envelope)
    requires Covers(s, e) && Forward(s, t)
    ensures Covers(t, e)
  {
  }

  lemma ForwardTransitive(a: Session, b: Session, c: Session)
    requires Forward(a, b) && Forward(b, c)
    ensures Forward(a, c)
  {
  }

  lemma OutboxForward(s: Session, t: Session)
    requires OutboxOk(s) && Forward(s, t) && t.outbox == s.outbox
    ensures OutboxOk(t)
  {
    forall k | k in t.outbox ensures Covers(t, t.outbox[k]) {
      CoversForward(s, t, s.outbox[k]);
    }
  }

  // What a session does leaves it sound and ahead of where it was.
  ghost predicate Advances(s: Session, t: Session) {
    Forward(s, t) && StagedOk(t) && OutboxOk(t)
  }

  lemma RosterAdvances(st: Session, r: Roster)
    requires StagedOk(st) && EnterRoster(st, r).Moved?
    ensures Forward(st, EnterRoster(st, r).st) && StagedOk(EnterRoster(st, r).st)
    ensures EnterRoster(st, r).st.outbox == st.outbox
  {
    if DeviceOf(r, st.me).Some? {
      FollowedAdvances(st, r);
    }
  }

  lemma FollowedAdvances(st: Session, r: Roster)
    requires StagedOk(st) && FollowRoster(st, r).Now?
    ensures var next := st.(group := Some(FollowRoster(st, r).group)); Forward(st, next) && StagedOk(next)
  {
  }

  lemma MessageConsumes(st: Session, row: Row)
    requires RowStep(st, row).Moved?
    ensures st.consumed <= RowStep(st, row).st.consumed
  {
    StepConsumes(st, row);
  }

  lemma RowAdvances(st: Session, row: Row)
    requires StagedOk(st) && OutboxOk(st) && RowStep(st, row).Moved?
    ensures Advances(st, RowStep(st, row).st) && RowStep(st, row).st.outbox == st.outbox
  {
    var next := RowStep(st, row).st;
    if row.RosterRow? {
      RosterAdvances(st, row.roster);
    } else {
      MessageFooting(st, row);
      MessageConsumes(st, row);
    }
    OutboxForward(st, next);
  }

  lemma SealAdvances(st: Session, key: string, channel: string, payload: int, secret: int, keep: bool)
    requires StagedOk(st) && OutboxOk(st) && Seal(st, key, channel, payload, secret).Some?
    ensures var e := Seal(st, key, channel, payload, secret).value.1;
            var next := SealedWith(st, key, channel, payload, secret, keep);
            && Advances(st, next) && Covers(next, e)
            && e.context.key == key && e.signer == st.key && st.group.Some?
            && e.capsule.era == st.group.value.era && e.capsule.generation == st.group.value.sent
            && next.outbox == if keep then st.outbox[key := e] else st.outbox
  {
    var (next, e) := Seal(st, key, channel, payload, secret).value;
    assert Forward(st, next);
    OutboxForward(st, next);
    assert Covers(next, e);
  }

  lemma StageAdvances(st: Session, c: Change, seed: int)
    requires StagedOk(st) && OutboxOk(st) && StageChange(st, c, seed).Some?
    ensures Advances(st, StageChange(st, c, seed).value)
  {
    OutboxForward(st, StageChange(st, c, seed).value);
  }

  lemma FirstAdvances(st: Session, recipient: string, seed: int)
    requires StagedOk(st) && OutboxOk(st) && StageFirst(st, recipient, seed).Some?
    ensures Advances(st, StageFirst(st, recipient, seed).value)
  {
    OutboxForward(st, StageFirst(st, recipient, seed).value);
  }

  lemma DiscardAdvances(st: Session)
    requires StagedOk(st) && OutboxOk(st)
    ensures Advances(st, Discarded(st))
  {
    OutboxForward(st, Discarded(st));
  }

  lemma RefreshAdvances(st: Session, r: Roster)
    requires StagedOk(st) && OutboxOk(st) && Refreshed(st, r).Some?
    ensures Advances(st, Refreshed(st, r).value) && Refreshed(st, r).value.outbox == st.outbox
  {
    OutboxForward(st, Refreshed(st, r).value);
  }

  // ----- The invariant -----

  ghost predicate MemOk(w: World) {
    w.mem.Some? ==>
      var m := w.mem.value;
      && Advances(w.disk, m.st)
      && (!m.unsaved ==> forall k :: k in m.st.outbox ==> k in w.disk.outbox && m.st.outbox[k] == w.disk.outbox[k])
      && (m.ready.Some? ==> Covers(m.st, m.ready.value) && (!m.unsaved ==> Covers(w.disk, m.ready.value)))
  }

  ghost predicate SamePlace(a: Envelope, b: Envelope) {
    a.capsule.era == b.capsule.era && a.capsule.generation == b.capsule.generation
  }

  // No two envelopes have the same place in the ratchet.
  ghost predicate Distinct(w: World) {
    forall a, b :: (InPool(w, a) && InPool(w, b) && SamePlace(a, b)) ==> a == b
  }

  ghost predicate WrittenAhead(w: World) {
    forall e :: e in w.sent ==> Covers(w.disk, e)
  }

  // Whatever the journal holds under this device's signature, this device has posted.
  ghost predicate OwnEchoes(w: World) {
    forall row :: row in w.journal && row.EnvelopeRow? && row.envelope.signer == w.disk.key ==> row.envelope in w.sent
  }

  ghost predicate SealInv(w: World) {
    && StagedOk(w.disk) && OutboxOk(w.disk)
    && MemOk(w) && WrittenAhead(w) && Distinct(w) && OwnEchoes(w)
  }

  lemma PoolCovered(w: World, e: Envelope)
    requires SealInv(w) && InPool(w, e)
    ensures w.mem.Some? ==> Covers(w.mem.value.st, e)
    ensures w.mem.None? ==> Covers(w.disk, e)
  {
    if e in w.sent || e in w.disk.outbox.Values {
      assert Covers(w.disk, e) by {
        if e !in w.sent {
          var k :| k in w.disk.outbox && w.disk.outbox[k] == e;
        }
      }
      if w.mem.Some? {
        CoversForward(w.disk, w.mem.value.st, e);
      }
    } else if e in w.mem.value.st.outbox.Values {
      var k :| k in w.mem.value.st.outbox && w.mem.value.st.outbox[k] == e;
    }
  }

  // The pool of w2 has at most one envelope more than that of w, sealed where no other is.
  lemma DistinctGrows(w: World, w2: World, e: Envelope)
    requires SealInv(w) && w.mem.Some? && w.mem.value.st.group.Some?
    requires e.capsule.era == w.mem.value.st.group.value.era && e.capsule.generation == w.mem.value.st.group.value.sent
    requires forall x :: InPool(w2, x) ==> InPool(w, x) || x == e
    ensures Distinct(w2)
  {
    forall x | InPool(w, x) ensures !SamePlace(x, e) && !SamePlace(e, x) {
      PoolCovered(w, x);
    }
  }

  lemma DistinctShrinks(w: World, w2: World)
    requires Distinct(w) && forall x :: InPool(w2, x) ==> InPool(w, x)
    ensures Distinct(w2)
  {
  }

  lemma BeginningSeals(w: World)
    requires Beginning(w)
    ensures SealInv(w)
  {
  }

  // ----- Each operation -----

  // The session's state moves on without anything new to post.
  lemma MemMoves(w: World, st: Session, ready: Option<Envelope>, unsaved: bool, failed: bool)
    requires SealInv(w) && w.mem.Some? && Advances(w.mem.value.st, st)
    requires ready.None? || (ready == w.mem.value.ready && unsaved == w.mem.value.unsaved)
    requires unsaved || !w.mem.value.unsaved
    requires forall k :: k in st.outbox ==> k in w.mem.value.st.outbox && st.outbox[k] == w.mem.value.st.outbox[k]
    ensures SealInv(w.(mem := Some(Mem(st, unsaved, failed, ready))))
  {
    var m := w.mem.value;
    var w2 := w.(mem := Some(Mem(st, unsaved, failed, ready)));
    ForwardTransitive(w.disk, m.st, st);
    if ready.Some? {
      CoversForward(m.st, st, ready.value);
    }
    forall x | InPool(w2, x) ensures InPool(w, x) {
      if x in st.outbox.Values {
        var k :| k in st.outbox && st.outbox[k] == x;
        assert k in m.st.outbox;
      }
    }
    DistinctShrinks(w, w2);
  }

  // The session's state becomes the saved one.
  lemma Saves(w: World, w2: World)
    requires SealInv(w) && w.mem.Some? && w2.disk == w.mem.value.st
    requires w2.sent == w.sent && w2.journal == w.journal
    requires w2.mem.None? || (w2.mem.value.st == w.mem.value.st && w2.mem.value.ready == w.mem.value.ready)
    ensures SealInv(w2)
  {
    var st := w.mem.value.st;
    forall e | e in w2.sent ensures Covers(w2.disk, e) {
      CoversForward(w.disk, st, e);
    }
    DistinctShrinks(w, w2);
  }

  lemma Seals(w: World, w2: World, key: string, channel: string, payload: int, secret: int, keep: bool)
    requires SealInv(w) && Working(w) && Seal(w.mem.value.st, key, channel, payload, secret).Some?
    requires w2.mem == Some(Mem(SealedWith(w.mem.value.st, key, channel, payload, secret, keep), true, false,
                                Some(Seal(w.mem.value.st, key, channel, payload, secret).value.1)))
    requires w2.disk == w.disk && w2.sent == w.sent && w2.journal == w.journal
    ensures SealInv(w2)
  {
    var st := w.mem.value.st;
    var e := Seal(st, key, channel, payload, secret).value.1;
    SealAdvances(st, key, channel, payload, secret, keep);
    var next := w2.mem.value.st;
    ForwardTransitive(w.disk, st, next);
    forall x | InPool(w2, x) ensures InPool(w, x) || x == e {
      if x in next.outbox.Values {
        var k :| k in next.outbox && next.outbox[k] == x;
        assert x == e || (k in st.outbox && st.outbox[k] == x);
      }
    }
    DistinctGrows(w, w2, e);
  }

  lemma Syncs(w: World, saved: bool)
    requires SealInv(w) && Enabled(w, SyncRow(saved))
    ensures SealInv(Next(w, SyncRow(saved)))
  {
    var m := w.mem.value;
    var step := RowStep(m.st, Rest(w.journal, m.st.cursor)[0]);
    if step.Stopped? {
      ForwardHere(m.st);
      MemMoves(w, m.st, m.ready, m.unsaved, true);
    } else {
      RowAdvances(m.st, Rest(w.journal, m.st.cursor)[0]);
      MemMoves(w, step.st, m.ready, false, !saved);
      if saved {
        Saves(w.(mem := Some(m.(st := step.st))), Next(w, SyncRow(saved)));
      }
    }
  }

  lemma ForwardHere(st: Session)
    requires StagedOk(st) && OutboxOk(st)
    ensures Advances(st, st)
  {
  }

  lemma PostSeals(w: World)
    requires SealInv(w) && Enabled(w, Post)
    ensures SealInv(Next(w, Post))
  {
    var w2 := Next(w, Post);
    DistinctShrinks(w, w2);
  }

  lemma RetrySeals(w: World, key: string)
    requires SealInv(w) && Enabled(w, Retry(key))
    ensures SealInv(Next(w, Retry(key)))
  {
    var w2 := Next(w, Retry(key));
    var e := w.mem.value.st.outbox[key];
    assert e in w.mem.value.st.outbox.Values;
    assert key in w.disk.outbox && w.disk.outbox[key] == e;
    DistinctShrinks(w, w2);
  }

  lemma ConflictSeals(w: World, key: string)
    requires SealInv(w) && Enabled(w, Conflict(key))
    ensures SealInv(Next(w, Conflict(key)))
  {
    var st := w.mem.value.st;
    var less := st.(outbox := st.outbox - {key});
    assert OutboxOk(less) by {
      forall k | k in less.outbox ensures less.outbox[k].context.key == k && Covers(less, less.outbox[k]) {
        assert Covers(st, st.outbox[k]);
      }
    }
    MemMoves(w, less, None, false, false);
  }

  lemma JournalSeals(w: World, row: Row)
    requires SealInv(w)
    requires row.EnvelopeRow? && row.envelope.signer == w.disk.key ==> row.envelope in w.sent
    ensures SealInv(w.(journal := w.journal + [row]))
  {
    DistinctShrinks(w, w.(journal := w.journal + [row]));
  }

  lemma OpenSeals(w: World)
    requires SealInv(w) && w.mem.None?
    ensures SealInv(Next(w, Open))
  {
    ForwardHere(w.disk);
    DistinctShrinks(w, Next(w, Open));
  }

  lemma PrepareSeals(w: World, op: Op)
    requires SealInv(w) && Enabled(w, op) && (op.PrepareFirst? || op.Prepare? || op.OfferRefused?)
    ensures SealInv(Next(w, op))
  {
    var m := w.mem.value;
    var st := Next(w, op).mem.value.st;
    match op
    case PrepareFirst(recipient, seed) => FirstAdvances(m.st, recipient, seed);
    case Prepare(change, seed) => StageAdvances(m.st, change, seed);
    case OfferRefused => DiscardAdvances(m.st);
    MemMoves(w, st, None, true, false);
    DistinctShrinks(w, Next(w, op));
  }

  lemma RefreshSeals(w: World)
    requires SealInv(w) && Enabled(w, Refresh)
    ensures SealInv(Next(w, Refresh))
  {
    var m := w.mem.value;
    var st := Refreshed(m.st, Head(w.journal).value);
    if st.Some? {
      RefreshAdvances(m.st, Head(w.journal).value);
      MemMoves(w, st.value, m.ready, m.unsaved, m.failed);
    } else {
      ForwardHere(m.st);
      MemMoves(w, m.st, m.ready, m.unsaved, true);
    }
  }

  lemma PersistSeals(w: World, saved: bool)
    requires SealInv(w) && Enabled(w, Persist(saved))
    ensures SealInv(Next(w, Persist(saved)))
  {
    if saved {
      Saves(w, Next(w, Persist(saved)));
    } else {
      ForwardHere(w.mem.value.st);
      MemMoves(w, w.mem.value.st, w.mem.value.ready, true, true);
    }
  }

  lemma StepSeals(w: World, op: Op)
    requires SealInv(w) && Enabled(w, op)
    ensures SealInv(Next(w, op))
  {
    match op
    case Open => OpenSeals(w);
    case Close(saved) => if saved { Saves(w, Next(w, op)); } else { DistinctShrinks(w, Next(w, op)); }
    case Crash => DistinctShrinks(w, Next(w, op));
    case SyncRow(saved) => Syncs(w, saved);
    case Refresh => RefreshSeals(w);
    case SealMessage(key, channel, payload, secret) => Seals(w, Next(w, op), key, channel, payload, secret, true);
    case SealFile(key, channel, payload, secret) => Seals(w, Next(w, op), key, channel, payload, secret, false);
    case PrepareFirst(_, _) => PrepareSeals(w, op);
    case Prepare(_, _) => PrepareSeals(w, op);
    case Persist(saved) => PersistSeals(w, saved);
    case Retry(key) => RetrySeals(w, key);
    case Post => PostSeals(w);
    case Conflict(key) => ConflictSeals(w, key);
    case Offer => DistinctShrinks(w, Next(w, op));
    case OfferRefused => PrepareSeals(w, op);
    case RelayTakes(e, at) => JournalSeals(w, EnvelopeRow(at, e));
    case RelayTakesRoster(r, at) => JournalSeals(w, RosterRow(at, r));
    case RelayBrings(row) => JournalSeals(w, row);
  }
}
