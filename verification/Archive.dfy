// The archive of message keys and texts with its search index, over any history of sealing,
// receiving, opening, searching and restoring (cmd/tincan/encryption_mls.go archivePut,
// openMLSPayload; encryption_history.go restoreHistory; encryption.go decryptMessage).
module Archive {
  import opened Text
  import opened SearchIndex
  import opened History
  import opened Backup

  // The setting of one device: its history key, how entries and lower case are read, and the
  // message text that each archive identity stands for. An identity contains the hash of the
  // ciphertext, so it stands for at most one text.
  datatype Setting = Setting(key: Bytes, mac: Mac, lower: Bytes -> Bytes, parse: Reader, text: string -> Option<Bytes>)

  // Plain bytes that may be archived for an identity: an entry, whose text, if it has one, is
  // that of the message.
  ghost predicate Fitting(c: Setting, id: string, plain: Bytes) {
    c.parse(plain).Some? && (c.parse(plain).value.text.Some? ==> c.parse(plain).value.text == c.text(id))
  }

  ghost predicate EntryOk(c: Setting, st: Store, id: string)
    requires id in st.archive
  {
    Opened(st, c.key, id).Some? && Fitting(c, id, Opened(st, c.key, id).value)
  }

  ghost predicate IndexOk(c: Setting, index: map<string, seq<bv8>>)
    requires IsMac(c.mac)
  {
    forall id :: id in index ==> c.text(id).Some? && IsIndex(c.mac, c.lower, c.key, c.text(id).value, index[id])
  }

  ghost predicate StoreOk(c: Setting, st: Store)
    requires IsMac(c.mac)
  {
    (forall id :: id in st.archive ==> EntryOk(c, st, id)) && IndexOk(c, st.index)
  }

  // ----- Operations -----

  // Writes an entry. A message whose entry carries its text is indexed; a bare key is not.
  method ArchivePut(c: Setting, st: Store, id: string, message: bool, plain: Bytes) returns (out: Store)
    requires IsMac(c.mac) && c.parse(plain).Some?
    ensures Put(c, st, id, message, plain, out)
  {
    out := st.(archive := st.archive[id := Sealed(c.key, ContextOf(st, id), plain)]);
    var text := c.parse(plain).value.text;
    if message && text.Some? {
      var filter := HistoryIndex(c.mac, c.lower, c.key, text.value);
      out := out.(index := out.index[id := filter]);
    }
  }

  ghost predicate Put(c: Setting, st: Store, id: string, message: bool, plain: Bytes, out: Store)
    requires IsMac(c.mac) && c.parse(plain).Some?
  {
    var text := c.parse(plain).value.text;
    && out.workspace == st.workspace
    && out.archive == st.archive[id := Sealed(c.key, ContextOf(st, id), plain)]
    && if message && text.Some?
       then id in out.index && out.index == st.index[id := out.index[id]]
            && IsIndex(c.mac, c.lower, c.key, text.value, out.index[id])
       else out.index == st.index
  }

  // Sealing archives key and text, receiving the key alone, opening a message for the first
  // time its text. A search opens messages too: SearchFor is what that adds to the index, and
  // the texts it archives are the Writes of the same messages beside it. `rejected` are
  // the identities of rejected envelopes; the log holds one envelope of each identity.
  datatype Op =
    | Write(id: string, message: bool, plain: Bytes)
    | Import(backup: map<string, Sealed>, oldKey: Bytes)
    | SearchFor(s: Search, log: seq<Message>, rejected: set<string>)

  // What a backup written by this client holds.
  ghost predicate HonestBackup(c: Setting, backup: map<string, Sealed>) {
    forall id :: id in backup ==> Fitting(c, id, backup[id].plain)
  }

  // Reading shows the text its identity stands for, unless the message was rejected, which
  // then shows a placeholder without being opened.
  ghost predicate HonestReading(c: Setting, s: Search, rejected: set<string>) {
    && s.mac == c.mac && s.lower == c.lower && s.key == c.key
    && forall m: Message :: s.read(m).Shown? && m.archiveId.Some? ==>
         if m.archiveId.value in rejected then !s.read(m).archives else c.text(m.archiveId.value) == Some(s.read(m).text)
  }

  ghost predicate Step(c: Setting, st: Store, op: Op, next: Store)
    requires IsMac(c.mac)
  {
    match op
    case Write(id, message, plain) => Fitting(c, id, plain) && Put(c, st, id, message, plain, next)
    case Import(backup, oldKey) =>
      HonestBackup(c, backup)
      && if AllGood(st, backup, oldKey, c.parse)
         then next.workspace == st.workspace && next.archive == st.archive + Imported(st, backup, c.key)
              && Indexed(st, next, backup, c.parse, c.mac, c.lower, c.key)
         else next == st
    case SearchFor(s, log, rejected) =>
      HonestReading(c, s, rejected) && s.index == st.index
      && next == st.(index := next.index) && Learned(s, log, st.index, next.index)
  }

  // ----- What they keep -----

  lemma PutKeeps(c: Setting, st: Store, id: string, message: bool, plain: Bytes, next: Store)
    requires IsMac(c.mac) && StoreOk(c, st) && Fitting(c, id, plain) && Put(c, st, id, message, plain, next)
    ensures StoreOk(c, next)
  {
    forall x | x in next.archive ensures EntryOk(c, next, x) {
      assert x != id ==> EntryOk(c, st, x);
    }
  }

  lemma ImportKeeps(c: Setting, st: Store, backup: map<string, Sealed>, oldKey: Bytes, next: Store)
    requires IsMac(c.mac) && StoreOk(c, st) && HonestBackup(c, backup) && AllGood(st, backup, oldKey, c.parse)
    requires next.workspace == st.workspace && next.archive == st.archive + Imported(st, backup, c.key)
    requires Indexed(st, next, backup, c.parse, c.mac, c.lower, c.key)
    ensures StoreOk(c, next)
  {
    forall x | x in next.archive ensures EntryOk(c, next, x) {
      assert x in st.archive ==> EntryOk(c, st, x);
    }
    forall x | x in next.index
      ensures c.text(x).Some? && IsIndex(c.mac, c.lower, c.key, c.text(x).value, next.index[x])
    {
      if NewText(st, backup, c.parse, x).Some? {
        assert Fitting(c, x, backup[x].plain);
      }
    }
  }

  lemma SearchKeeps(c: Setting, s: Search, log: seq<Message>, rejected: set<string>,
                    before: map<string, seq<bv8>>, after: map<string, seq<bv8>>)
    requires IsMac(c.mac) && IndexOk(c, before) && HonestReading(c, s, rejected) && Learned(s, log, before, after)
    ensures IndexOk(c, after)
  {
    forall id | id in after ensures c.text(id).Some? && IsIndex(c.mac, c.lower, c.key, c.text(id).value, after[id]) {
      if !SameEntry(before, after, id) {
        var m :| m in log && MadeFrom(s, m, id, after[id]);
        assert s.read(m).Shown? && m.archiveId.Some?;
      }
    }
  }

  lemma StepKeeps(c: Setting, st: Store, op: Op, next: Store)
    requires IsMac(c.mac) && StoreOk(c, st) && Step(c, st, op, next)
    ensures StoreOk(c, next)
  {
    match op
    case Write(id, message, plain) => PutKeeps(c, st, id, message, plain, next);
    case Import(backup, oldKey) =>
      if AllGood(st, backup, oldKey, c.parse) {
        ImportKeeps(c, st, backup, oldKey, next);
      }
    case SearchFor(s, log, rejected) =>
      SearchKeeps(c, s, log, rejected, st.index, next.index);
      forall x | x in next.archive ensures EntryOk(c, next, x) {
        assert EntryOk(c, st, x);
      }
  }

  // A history of the store of one device, from its setup.
  datatype Life = Life(stores: seq<Store>, ops: seq<Op>)

  ghost predicate IsLife(c: Setting, life: Life)
    requires IsMac(c.mac)
  {
    && |life.stores| == |life.ops| + 1 && life.stores[0].archive == map[] && life.stores[0].index == map[]
    && forall k :: 0 <= k < |life.ops| ==> Step(c, life.stores[k], life.ops[k], life.stores[k + 1])
  }

  // In every state each entry opens under the history key to a fitting entry, and each index
  // entry is the filter of the text of its message.
  lemma {:induction false} StoreStaysOk(c: Setting, life: Life, k: nat)
    requires IsMac(c.mac) && IsLife(c, life) && k < |life.stores|
    ensures StoreOk(c, life.stores[k])
  {
    if k > 0 {
      StoreStaysOk(c, life, k - 1);
      StepKeeps(c, life.stores[k - 1], life.ops[k - 1], life.stores[k]);
    }
  }

  // In particular of the text that is archived with it, if one is.
  lemma IndexFitsPayload(c: Setting, life: Life, k: nat, id: string)
    requires IsMac(c.mac) && IsLife(c, life) && k < |life.stores|
    requires id in life.stores[k].archive && id in life.stores[k].index
    ensures var plain := Opened(life.stores[k], c.key, id);
            && plain.Some? && c.parse(plain.value).Some?
            && (c.parse(plain.value).value.text.Some? ==>
                  IsIndex(c.mac, c.lower, c.key, c.parse(plain.value).value.text.value, life.stores[k].index[id]))
  {
    StoreStaysOk(c, life, k);
    assert EntryOk(c, life.stores[k], id);
  }

  // Receiving the bare key of a message that a backup had brought with its text keeps the
  // index entry, although the text is no longer archived; it is still the right one.
  lemma BareKeyKeepsIndex(c: Setting, st: Store, id: string, plain: Bytes, next: Store)
    requires IsMac(c.mac) && StoreOk(c, st) && id in st.archive && id in st.index
    requires Fitting(c, id, plain) && c.parse(plain).value.text.None? && Put(c, st, id, true, plain, next)
    ensures c.parse(Opened(next, c.key, id).value).value.text.None?
    ensures id in next.index && c.text(id).Some? && IsIndex(c.mac, c.lower, c.key, c.text(id).value, next.index[id])
  {
    PutKeeps(c, st, id, true, plain, next);
  }

  // ----- Searching -----

  lemma FitsUnlessRejected(c: Setting, s: Search, rejected: set<string>, m: Message)
    requires IsMac(c.mac) && IndexOk(c, s.index) && HonestReading(c, s, rejected)
    requires m.archiveId.Some? && m.archiveId.value in rejected ==> m.archiveId.value !in s.index
    ensures IndexFits(s, m)
  {
    if m.archiveId.Some? && m.archiveId.value in s.index && s.read(m).Shown? {
      assert c.text(m.archiveId.value) == Some(s.read(m).text);
    }
  }

  ghost predicate IsRejected(m: Message, rejected: set<string>) {
    m.archiveId.Some? && m.archiveId.value in rejected
  }

  // All rejected messages show the same placeholder and the same empty metadata.
  ghost predicate ShowsPlaceholder(s: Search, log: seq<Message>, rejected: set<string>, placeholder: Bytes, fits: bool) {
    forall m <- log :: IsRejected(m, rejected) ==> s.read(m) == Shown(placeholder, fits, false)
  }

  // The query is not found in the placeholder, or no index entry of a rejected message stands
  // in its way.
  ghost predicate NothingHidden(s: Search, log: seq<Message>, rejected: set<string>, placeholder: Bytes, fits: bool)
    requires IsMac(s.mac)
  {
    || s.query == [] || !fits || !Contains(s.lower(placeholder), s.query)
    || forall m <- log :: IsRejected(m, rejected) && m.archiveId.value in s.index ==>
         Possible(s.mac, s.lower, s.index[m.archiveId.value], s.key, s.query)
  }

  lemma HiddenMeans(c: Setting, s: Search, log: seq<Message>, rejected: set<string>, placeholder: Bytes, fits: bool, typed: Bytes)
    requires IsMac(c.mac) && IsLower(c.lower) && IndexOk(c, s.index) && HonestReading(c, s, rejected)
    requires s.query == s.lower(typed) && ShowsPlaceholder(s, log, rejected, placeholder, fits)
    ensures NoneHidden(s, log) <==> NothingHidden(s, log, rejected, placeholder, fits)
  {
    forall m | m in log && !(IsRejected(m, rejected) && m.archiveId.value in s.index)
      ensures Matches(s, m) ==> !Skipped(s, m)
    {
      FitsUnlessRejected(c, s, rejected, m);
      SkippedIsNoMatch(s, m, typed);
    }
  }

  // The search returns the first matches of the whole log, whatever the limit.
  ghost predicate FindsAll(s: Search, log: seq<Message>)
    requires IsMac(s.mac)
  {
    forall limit: nat :: Scan(s, log, limit) == Some(First(AllMatches(s, log), limit))
  }

  lemma FindsAllMeans(s: Search, log: seq<Message>)
    requires IsMac(s.mac) && forall m <- log :: !s.read(m).Unreadable?
    ensures FindsAll(s, log) <==> NoneHidden(s, log)
  {
    HiddenExactly(s, log);
    forall limit: nat ensures Scan(s, log, limit) == Some(First(SeenMatches(s, log), limit)) {
      ScanFindsSeen(s, log, limit);
    }
    var n := |AllMatches(s, log)|;
    assert Scan(s, log, n) == Some(SeenMatches(s, log));
    assert First(AllMatches(s, log), n) == AllMatches(s, log);
  }

  // In any store that is in order, an indexed search over messages that can be read or predate
  // joining finds all there is to find if and only if the
  // query is not one for the placeholder or each index entry of a rejected message lets it
  // through. All of this can be asked before anything is read.
  lemma ExactInStore(c: Setting, st: Store, s: Search, log: seq<Message>, rejected: set<string>,
                     placeholder: Bytes, fits: bool, typed: Bytes)
    requires IsMac(c.mac) && IsLower(c.lower) && StoreOk(c, st)
    requires HonestReading(c, s, rejected) && s.index == st.index && s.query == s.lower(typed)
    requires ShowsPlaceholder(s, log, rejected, placeholder, fits) && forall m <- log :: !s.read(m).Unreadable?
    ensures FindsAll(s, log) <==> NothingHidden(s, log, rejected, placeholder, fits)
  {
    HiddenMeans(c, s, log, rejected, placeholder, fits, typed);
    FindsAllMeans(s, log);
  }

  // So it is after any history of the store.
  lemma SearchIsExact(c: Setting, life: Life, k: nat, s: Search, log: seq<Message>, rejected: set<string>,
                      placeholder: Bytes, fits: bool, typed: Bytes)
    requires IsMac(c.mac) && IsLower(c.lower) && IsLife(c, life) && k < |life.stores|
    requires HonestReading(c, s, rejected) && s.index == life.stores[k].index && s.query == s.lower(typed)
    requires ShowsPlaceholder(s, log, rejected, placeholder, fits) && forall m <- log :: !s.read(m).Unreadable?
    ensures FindsAll(s, log) <==> NothingHidden(s, log, rejected, placeholder, fits)
  {
    StoreStaysOk(c, life, k);
    ExactInStore(c, life.stores[k], s, log, rejected, placeholder, fits, typed);
  }
}
