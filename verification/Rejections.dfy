// Rejected messages and the history archive: one saved file holds the session, the archive and
// the index, and a rejected message is in the latter two only if a backup brought it
// (cmd/tincan/encryption_mls.go syncMLS, consumeMLSKey, sealMLS, openMLSPayload;
// encryption_rejections.go; encryption_history.go restoreHistory).
module Rejections {
  import opened Text
  import opened SearchIndex
  import opened History
  import opened Backup
  import opened Archive
  import opened Encryption
  import opened Sessions
  import opened Sealing
  import Journal
  import Rosters
  import DeviceRuns
  import Stranding

  // The state file of one device.
  datatype State = State(session: Session, store: Store)

  // What changes it. `plain` is the entry that is archived.
  datatype Move =
    | Receive(row: Row, plain: Bytes)
    | SealNew(key: string, channel: string, payload: int, secret: int, keep: bool, message: bool, plain: Bytes)
    | OpenPayload(envelope: Envelope, plain: Bytes)
    | RestoreBackup(backup: map<string, Sealed>, oldKey: Bytes)
    | SearchLog(s: Search, log: seq<Message>)
    | Manage(session: Session)

  // How identities are written in the archive: different ones differently.
  ghost predicate OneToOne(name: Id -> string) {
    forall a, b :: name(a) == name(b) ==> a == b
  }

  function RejectedNames(name: Id -> string, st: Session): set<string> {
    set e <- st.rejected :: name(IdOf(e))
  }

  // Receiving this row archives the key of a message.
  predicate TakesKey(st: Session, row: Row) {
    && row.EnvelopeRow? && st.active.Some? && Verified(row.envelope, st.active.value) && IsMember(st)
    && IdOf(row.envelope) !in st.consumed && Consume(st, row.envelope).Used?
    && !(Nested(row.envelope.context) && !RoomHas(st.active.value, row.envelope.context.room, st.me))
  }

  // Membership changes, refreshed memberships and the outbox.
  predicate LeavesMessages(st: Session, next: Session) {
    next.me == st.me && next.consumed == st.consumed && next.rejected == st.rejected
  }

  ghost predicate Moves(c: Setting, name: Id -> string, x: State, move: Move, y: State)
    requires IsMac(c.mac)
  {
    match move
    case Receive(row, plain) =>
      && RowStep(x.session, row) == Moved(y.session)
      && if TakesKey(x.session, row)
         then Archive.Step(c, x.store, Write(name(IdOf(row.envelope)), true, plain), y.store) && c.parse(plain).value.text.None?
         else y.store == x.store
    case SealNew(key, channel, payload, secret, keep, message, plain) =>
      && Seal(x.session, key, channel, payload, secret).Some?
      && y.session == DeviceRuns.SealedWith(x.session, key, channel, payload, secret, keep)
      && Archive.Step(c, x.store, Write(name(Id(x.session.me, key, payload)), message, plain), y.store)
    case OpenPayload(e, plain) =>
      && y.session == x.session && e !in x.session.rejected && name(IdOf(e)) in x.store.archive
      && Archive.Step(c, x.store, Write(name(IdOf(e)), true, plain), y.store)
    case RestoreBackup(backup, oldKey) =>
      y.session == x.session && Archive.Step(c, x.store, Import(backup, oldKey), y.store)
    case SearchLog(s, log) =>
      && y.session == x.session
      && Archive.Step(c, x.store, SearchFor(s, log, RejectedNames(name, x.session)), y.store)
      // Only what has a key in the archive can be opened.
      && forall m <- log :: s.read(m).Shown? && s.read(m).archives && m.archiveId.Some? ==> m.archiveId.value in x.store.archive
    case Manage(session) => LeavesMessages(x.session, session) && y == State(session, x.store)
  }

  // The history of a state file from its setup. A crash only goes back to the state saved last,
  // of which what was lost since is no part.
  datatype Past = Past(states: seq<State>, moves: seq<Move>)

  ghost predicate IsPast(c: Setting, name: Id -> string, past: Past)
    requires IsMac(c.mac)
  {
    && |past.states| == |past.moves| + 1
    && past.states[0].store.archive == map[] && past.states[0].store.index == map[]
    && past.states[0].session.consumed == {} && past.states[0].session.rejected == {}
    && forall k :: 0 <= k < |past.moves| ==> Moves(c, name, past.states[k], past.moves[k], past.states[k + 1])
  }

  // The journal holds each message once.
  ghost predicate MessagesOnce(past: Past) {
    forall i, j :: 0 <= i < j < |past.moves| && Brings(past.moves[i]) && Brings(past.moves[j]) ==>
      IdOf(past.moves[i].row.envelope) != IdOf(past.moves[j].row.envelope)
  }

  predicate Brings(move: Move) {
    move.Receive? && move.row.EnvelopeRow?
  }

  // What the other operations of a session leave alone.
  lemma ManagedLeave(st: Session, r: Roster, change: Rosters.Change, recipient: string, seed: int, key: string)
    ensures Refreshed(st, r).Some? ==> LeavesMessages(st, Refreshed(st, r).value)
    ensures StageChange(st, change, seed).Some? ==> LeavesMessages(st, StageChange(st, change, seed).value)
    ensures StageFirst(st, recipient, seed).Some? ==> LeavesMessages(st, StageFirst(st, recipient, seed).value)
    ensures LeavesMessages(st, Discarded(st)) && LeavesMessages(st, st.(outbox := st.outbox - {key}))
  {
  }

  lemma {:induction false} PastStoreOk(c: Setting, name: Id -> string, past: Past, k: nat)
    requires IsMac(c.mac) && IsPast(c, name, past) && k < |past.states|
    ensures StoreOk(c, past.states[k].store)
  {
    if k > 0 {
      PastStoreOk(c, name, past, k - 1);
      MoveKeepsStore(c, name, past.states[k - 1], past.moves[k - 1], past.states[k]);
    }
  }

  lemma MoveKeepsStore(c: Setting, name: Id -> string, x: State, move: Move, y: State)
    requires IsMac(c.mac) && StoreOk(c, x.store) && Moves(c, name, x, move, y)
    ensures StoreOk(c, y.store)
  {
    match move
    case Receive(row, plain) =>
      if TakesKey(x.session, row) {
        Archive.StepKeeps(c, x.store, Write(name(IdOf(row.envelope)), true, plain), y.store);
      }
    case SealNew(key, _, payload, _, _, message, plain) =>
      Archive.StepKeeps(c, x.store, Write(name(Id(x.session.me, key, payload)), message, plain), y.store);
    case OpenPayload(e, plain) => Archive.StepKeeps(c, x.store, Write(name(IdOf(e)), true, plain), y.store);
    case RestoreBackup(backup, oldKey) => Archive.StepKeeps(c, x.store, Import(backup, oldKey), y.store);
    case SearchLog(s, log) =>
      Archive.StepKeeps(c, x.store, SearchFor(s, log, RejectedNames(name, x.session)), y.store);
    case Manage(_) =>
  }

  // ----- Where an archived key comes from -----

  // This step restored an entry that was not there.
  predicate Restores(c: Setting, x: State, move: Move, id: string) {
    && move.RestoreBackup? && AllGood(x.store, move.backup, move.oldKey, c.parse)
    && id in move.backup && id !in x.store.archive
  }

  ghost predicate Restored(c: Setting, past: Past, k: nat, id: string)
    requires k < |past.states| == |past.moves| + 1
  {
    exists i :: 0 <= i < k && Restores(c, past.states[i], past.moves[i], id)
  }

  ghost predicate HasConsumed(name: Id -> string, st: Session, id: string) {
    exists x :: x in st.consumed && name(x) == id
  }

  // What a step adds to the archive was consumed in it or restored by it.
  lemma ArchiveGains(c: Setting, name: Id -> string, x: State, move: Move, y: State, id: string)
    requires IsMac(c.mac) && Moves(c, name, x, move, y) && id in y.store.archive
    ensures id in x.store.archive || HasConsumed(name, y.session, id) || Restores(c, x, move, id)
  {
    if move.Receive? {
      if TakesKey(x.session, move.row) {
        KeyConsumes(x.session, move.row);
      }
    } else if move.SealNew? {
      assert Id(x.session.me, move.key, move.payload) in y.session.consumed;
    }
  }

  lemma KeyConsumes(st: Session, row: Row)
    requires RowStep(st, row).Moved? && TakesKey(st, row)
    ensures IdOf(row.envelope) in RowStep(st, row).st.consumed
  {
  }

  lemma ConsumedGrows(c: Setting, name: Id -> string, x: State, move: Move, y: State)
    requires IsMac(c.mac) && Moves(c, name, x, move, y)
    ensures x.session.consumed <= y.session.consumed && x.session.me == y.session.me
  {
    if move.Receive? {
      Journal.StepConsumes(x.session, move.row);
      RowSameAgent(x.session, move.row);
    }
  }

  lemma RowSameAgent(st: Session, row: Row)
    requires RowStep(st, row).Moved?
    ensures RowStep(st, row).st.me == st.me
  {
    if row.RosterRow? {
      Journal.RosterMoved(st, row.roster);
    } else {
      Journal.MessageFooting(st, row);
    }
  }

  lemma ArchiveGrows(c: Setting, name: Id -> string, x: State, move: Move, y: State)
    requires IsMac(c.mac) && Moves(c, name, x, move, y)
    ensures x.store.archive.Keys <= y.store.archive.Keys
  {
  }

  lemma IndexGains(c: Setting, name: Id -> string, x: State, move: Move, y: State, id: string)
    requires IsMac(c.mac) && Moves(c, name, x, move, y) && id in y.store.index
    ensures id in x.store.index || id in y.store.archive
  {
  }

  lemma {:induction false} Origin(c: Setting, name: Id -> string, past: Past, k: nat, id: string)
    requires IsMac(c.mac) && IsPast(c, name, past) && k < |past.states|
    requires id in past.states[k].store.archive || id in past.states[k].store.index
    ensures id in past.states[k].store.archive
    ensures Restored(c, past, k, id) || HasConsumed(name, past.states[k].session, id)
    decreases k
  {
    if k > 0 {
      var x, move, y := past.states[k - 1], past.moves[k - 1], past.states[k];
      ConsumedGrows(c, name, x, move, y);
      ArchiveGrows(c, name, x, move, y);
      if id in y.store.index {
        IndexGains(c, name, x, move, y, id);
      }
      if id in x.store.archive || id in x.store.index {
        Origin(c, name, past, k - 1, id);
      } else {
        ArchiveGains(c, name, x, move, y, id);
      }
    }
  }

  // ----- Rejected messages -----

  ghost predicate Brought(past: Past, k: nat, e: Envelope)
    requires k <= |past.moves|
  {
    exists i :: 0 <= i < k && Brings(past.moves[i]) && past.moves[i].row.envelope == e
  }

  lemma RowRejects(st: Session, row: Row, e: Envelope)
    requires RowStep(st, row).Moved? && e in RowStep(st, row).st.rejected && e !in st.rejected
    ensures row.EnvelopeRow? && row.envelope == e && e.context.sender != st.me && IdOf(e) !in st.consumed
    ensures RowStep(st, row).st.consumed == st.consumed
  {
    if row.EnvelopeRow? {
      EnvelopeRejects(st, row.envelope, e);
    } else if row.RosterRow? {
      RosterLeaves(st, row.roster);
    }
  }

  lemma EnvelopeRejects(st: Session, x: Envelope, e: Envelope)
    requires EnterEnvelope(st, x).Moved? && e in EnterEnvelope(st, x).st.rejected && e !in st.rejected
    ensures x == e && e.context.sender != st.me && IdOf(e) !in st.consumed && EnterEnvelope(st, x).st.consumed == st.consumed
  {
    if IsMember(st) && Consume(st, x).Used? {
      Journal.ConsumeFooting(st, x);
    }
  }

  lemma RosterLeaves(st: Session, r: Roster)
    requires EnterRoster(st, r).Moved?
    ensures LeavesMessages(st, EnterRoster(st, r).st)
  {
  }

  lemma RowConsumes(st: Session, row: Row, id: Id)
    requires RowStep(st, row).Moved? && id in RowStep(st, row).st.consumed && id !in st.consumed
    ensures row.EnvelopeRow? && IdOf(row.envelope) == id
  {
  }

  lemma MoveRejects(c: Setting, name: Id -> string, x: State, move: Move, y: State, e: Envelope)
    requires IsMac(c.mac) && Moves(c, name, x, move, y) && e in y.session.rejected && e !in x.session.rejected
    ensures Brings(move) && move.row.envelope == e && e.context.sender != x.session.me
    ensures IdOf(e) !in y.session.consumed
  {
    if move.Receive? {
      RowRejects(x.session, move.row, e);
    }
  }

  lemma MoveConsumes(c: Setting, name: Id -> string, x: State, move: Move, y: State, id: Id)
    requires IsMac(c.mac) && Moves(c, name, x, move, y) && id in y.session.consumed && id !in x.session.consumed
    ensures id.sender == x.session.me || (Brings(move) && IdOf(move.row.envelope) == id)
  {
    if move.Receive? {
      RowConsumes(x.session, move.row, id);
    }
  }

  lemma NotAgain(past: Past, k: nat, e: Envelope)
    requires MessagesOnce(past) && k < |past.moves| && Brought(past, k, e)
    ensures Brings(past.moves[k]) ==> IdOf(past.moves[k].row.envelope) != IdOf(e)
  {
  }

  // A rejected message was never consumed, neither before nor after.
  lemma {:induction false} RejectedStaysOut(c: Setting, name: Id -> string, past: Past, k: nat, e: Envelope)
    requires IsMac(c.mac) && IsPast(c, name, past) && MessagesOnce(past) && k < |past.states|
    requires e in past.states[k].session.rejected
    ensures e.context.sender != past.states[k].session.me && IdOf(e) !in past.states[k].session.consumed
    ensures Brought(past, k, e)
    decreases k
  {
    if k > 0 {
      var x, move, y := past.states[k - 1], past.moves[k - 1], past.states[k];
      ConsumedGrows(c, name, x, move, y);
      if e in x.session.rejected {
        RejectedStaysOut(c, name, past, k - 1, e);
        NotAgain(past, k - 1, e);
        if IdOf(e) in y.session.consumed {
          MoveConsumes(c, name, x, move, y, IdOf(e));
          assert false;
        }
      } else {
        MoveRejects(c, name, x, move, y, e);
      }
    }
  }

  // So whatever the archive and the index hold for a rejected message came in a backup: its
  // entry was restored, and an index entry is that of the restored text or of the message
  // opened with the restored key.
  lemma RejectedMeansRestored(c: Setting, name: Id -> string, past: Past, k: nat, e: Envelope)
    requires IsMac(c.mac) && OneToOne(name) && IsPast(c, name, past) && MessagesOnce(past) && k < |past.states|
    requires e in past.states[k].session.rejected
    requires var id, store := name(IdOf(e)), past.states[k].store; id in store.archive || id in store.index
    ensures Restored(c, past, k, name(IdOf(e)))
  {
    RejectedStaysOut(c, name, past, k, e);
    Origin(c, name, past, k, name(IdOf(e)));
  }

  // ----- Searching -----

  // On a device that has restored no backup, the index never hides anything.
  lemma ExactWithoutBackup(c: Setting, name: Id -> string, past: Past, k: nat, s: Search, log: seq<Message>,
                           placeholder: Bytes, fits: bool, typed: Bytes)
    requires IsMac(c.mac) && IsLower(c.lower) && OneToOne(name)
    requires IsPast(c, name, past) && MessagesOnce(past) && k < |past.states|
    requires forall i :: 0 <= i < k ==> !past.moves[i].RestoreBackup?
    requires s.index == past.states[k].store.index && s.query == s.lower(typed)
    requires var rejected := RejectedNames(name, past.states[k].session);
             HonestReading(c, s, rejected) && ShowsPlaceholder(s, log, rejected, placeholder, fits)
    requires forall m <- log :: !s.read(m).Unreadable?
    ensures FindsAll(s, log)
  {
    var st := past.states[k].session;
    var rejected := RejectedNames(name, st);
    PastStoreOk(c, name, past, k);
    ExactInStore(c, past.states[k].store, s, log, rejected, placeholder, fits, typed);
    forall m | m in log && IsRejected(m, rejected) ensures m.archiveId.value !in s.index {
      var e :| e in st.rejected && name(IdOf(e)) == m.archiveId.value;
      if m.archiveId.value in s.index {
        RejectedMeansRestored(c, name, past, k, e);
        assert false;
      }
    }
  }

  // ----- An example -----

  // A member is restored a backup with a text of two bytes, then replays its message and
  // rejects it, because its capsule lies too far ahead.
  const CHANNEL := ROOM_PREFIX + "m" + "_" + "1"
  const CONTEXT := Context("m", true, CHANNEL, "a", "p", 2, HashOf(Stranding.SECOND), 7)
  const BAD := Envelope(CONTEXT, Capsule(Stranding.EraOf(2), "k", 5000, Plain(0), CONTEXT), "k")

  const OK: Bytes := [79, 75]
  const KEY: Bytes := [1]
  const OLD_KEY: Bytes := [2]

  // "[Encrypted message rejected]", and a query for "rejected".
  const PLACEHOLDER: Bytes :=
    [91, 69, 110, 99, 114, 121, 112, 116, 101, 100, 32, 109, 101, 115, 115, 97, 103, 101, 32,
     114, 101, 106, 101, 99, 116, 101, 100, 93]
  const QUERY: Bytes := [114, 101, 106, 101, 99, 116, 101, 100]

  const LOWER: Bytes -> Bytes := text => text

  function Here(mac: Mac): Setting {
    Setting(KEY, mac, LOWER, plain => Some(Entry(Some(plain))), id => Some(OK))
  }

  const BEFORE := State(Stranding.ADMITTED, Store("w", map[], map[]))
  const REJECTING := Stranding.ADMITTED.(cursor := 3, rejected := {BAD})

  function WithEntry(id: string, filter: seq<bv8>): Store {
    Store("w", map[id := Sealed(KEY, "w/" + id, OK)], map[id := filter])
  }

  function ExamplePast(id: string, filter: seq<bv8>): Past {
    Past([State(Stranding.NEW, Store("w", map[], map[])), State(Stranding.WATCHING, Store("w", map[], map[])), BEFORE,
          State(Stranding.ADMITTED, WithEntry(id, filter)), State(REJECTING, WithEntry(id, filter))],
         [Receive(RosterRow(1, Stranding.FIRST), []), Receive(RosterRow(2, Stranding.SECOND), []),
          RestoreBackup(map[id := Sealed(OLD_KEY, "w/" + id, OK)], OLD_KEY),
          Receive(EnvelopeRow(3, BAD), [])])
  }

  function ExampleSearch(mac: Mac, id: string, filter: seq<bv8>): Search {
    Search(mac, LOWER, KEY, map[id := filter],
           (m: Message) => if m.archiveId == Some(id) then Shown(PLACEHOLDER, true, false) else BeforeJoining, QUERY)
  }

  ghost predicate FindsNothing(s: Search, log: seq<Message>)
    requires IsMac(s.mac)
  {
    forall limit: nat :: Scan(s, log, limit) == Some([])
  }

  // Two bytes have no trigrams, so their filter lets no longer query through.
  lemma ShortText(mac: Mac, filter: seq<bv8>)
    requires IsMac(mac) && IsIndex(mac, LOWER, KEY, OK, filter)
    ensures !Possible(mac, LOWER, filter, KEY, QUERY)
  {
    var p := Positions(mac, KEY, Trigram(QUERY, 0))[0];
    assert LOWER(QUERY) == QUERY && LOWER(OK) == OK;
    assert p in Positions(mac, KEY, Trigram(QUERY, 0));
    assert Marked(mac, KEY, LOWER(QUERY), Trigrams(LOWER(QUERY)), p);
    assert !Marked(mac, KEY, LOWER(OK), Trigrams(LOWER(OK)), p);
  }

  lemma BadIsRejected()
    ensures RowStep(Stranding.ADMITTED, EnvelopeRow(3, BAD)) == Moved(REJECTING)
    ensures !TakesKey(Stranding.ADMITTED, EnvelopeRow(3, BAD))
  {
    Stranding.RostersTrusted();
    BadIsVerified();
  }

  lemma BadIsVerified()
    ensures Verified(BAD, Stranding.SECOND)
  {
    ChannelNamesRoom("m", "1");
    assert Lookup([Stranding.OWNER, Stranding.MEMBER], "a") == Some(Stranding.OWNER);
  }

  // The search for the placeholder's word misses the rejected message, which shows it.
  lemma MissedExample(mac: Mac, name: Id -> string, id: string, filter: seq<bv8>)
    requires IsMac(mac) && id == name(IdOf(BAD)) && IdOk(id) && IsIndex(mac, LOWER, KEY, OK, filter)
    ensures IsPast(Here(mac), name, ExamplePast(id, filter)) && MessagesOnce(ExamplePast(id, filter))
    ensures ExampleSearch(mac, id, filter).index == ExamplePast(id, filter).states[4].store.index
    ensures HonestReading(Here(mac), ExampleSearch(mac, id, filter), RejectedNames(name, ExamplePast(id, filter).states[4].session))
    ensures AllMatches(ExampleSearch(mac, id, filter), [Message(3, Some(id))]) == [Message(3, Some(id))]
    ensures FindsNothing(ExampleSearch(mac, id, filter), [Message(3, Some(id))])
  {
    ExampleIsPast(mac, name, id, filter);
    ExampleMisses(mac, id, filter, Message(3, Some(id)));
  }

  lemma ExampleIsPast(mac: Mac, name: Id -> string, id: string, filter: seq<bv8>)
    requires IsMac(mac) && IdOk(id) && IsIndex(mac, LOWER, KEY, OK, filter)
    ensures IsPast(Here(mac), name, ExamplePast(id, filter)) && MessagesOnce(ExamplePast(id, filter))
  {
    var past := ExamplePast(id, filter);
    forall k | 0 <= k < 4 ensures Moves(Here(mac), name, past.states[k], past.moves[k], past.states[k + 1]) {
      if k == 2 {
        ExampleRestores(mac, id, filter);
      } else {
        ExampleReceives(Here(mac), name, past.states[k], past.moves[k].row, past.states[k + 1]);
      }
    }
  }

  lemma ExampleReceives(c: Setting, name: Id -> string, x: State, row: Row, y: State)
    requires IsMac(c.mac) && x.store == y.store
    requires (x.session, row, y.session) in {
               (Stranding.NEW, RosterRow(1, Stranding.FIRST), Stranding.WATCHING),
               (Stranding.WATCHING, RosterRow(2, Stranding.SECOND), Stranding.ADMITTED),
               (Stranding.ADMITTED, EnvelopeRow(3, BAD), REJECTING)}
    ensures Moves(c, name, x, Receive(row, []), y)
  {
    BadIsRejected();
    Stranding.RowsEnter();
  }

  lemma ExampleRestores(mac: Mac, id: string, filter: seq<bv8>)
    requires IsMac(mac) && IdOk(id) && IsIndex(mac, LOWER, KEY, OK, filter)
    ensures Archive.Step(Here(mac), BEFORE.store, Import(map[id := Sealed(OLD_KEY, "w/" + id, OK)], OLD_KEY), WithEntry(id, filter))
  {
  }

  lemma ExampleMisses(mac: Mac, id: string, filter: seq<bv8>, m: Message)
    requires IsMac(mac) && m.archiveId == Some(id) && IsIndex(mac, LOWER, KEY, OK, filter)
    ensures AllMatches(ExampleSearch(mac, id, filter), [m]) == [m] && FindsNothing(ExampleSearch(mac, id, filter), [m])
  {
    ShortText(mac, filter);
    PlaceholderHasQuery();
    var s := ExampleSearch(mac, id, filter);
    assert Matches(s, m) && Skipped(s, m);
    assert [m][1..] == [];
    assert AllMatches(s, []) == [] && [m] + [] == [m];
    forall limit: nat ensures Scan(s, [m], limit) == Some([]) {
      assert Scan(s, [], limit) == Some([]);
    }
  }

  lemma PlaceholderHasQuery()
    ensures Contains(LOWER(PLACEHOLDER), QUERY)
  {
    assert LOWER(PLACEHOLDER)[19..27] == QUERY;
    assert SearchIndex.At(LOWER(PLACEHOLDER), 19, QUERY);
  }
}
