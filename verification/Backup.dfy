// Backing up the history archive and restoring it under another key
// (cmd/tincan/encryption_history.go backupHistory, restoreHistory; encryption_mls.go archivePut).
module Backup {
  import opened Text
  import opened SearchIndex

  // Authenticated encryption: a sealed entry opens under its own key and context only.
  datatype Sealed = Sealed(key: Bytes, context: string, plain: Bytes)

  function OpenLocal(key: Bytes, s: Sealed, context: string): Option<Bytes> {
    if s.key == key && s.context == context then Some(s.plain) else None
  }

  // What the plain bytes of an entry say: None when they are not an entry; the message text
  // when the entry carries a payload that has one.
  datatype Entry = Entry(text: Option<Bytes>)

  type Reader = Bytes -> Option<Entry>

  // The archive of a session and the search index beside it.
  datatype Store = Store(workspace: string, archive: map<string, Sealed>, index: map<string, seq<bv8>>)

  predicate IsHex(c: char) {
    '0' <= c <= '9' || 'a' <= c <= 'f' || 'A' <= c <= 'F'
  }

  // "msg_" and 32 digits, a colon, and 64 digits.
  predicate IdOk(id: string) {
    && |id| == 101 && id[..4] == "msg_" && id[36] == ':'
    && forall n :: 4 <= n < 101 && n != 36 ==> IsHex(id[n])
  }

  // Such an identity is a message identifier and the hash of a ciphertext.
  lemma IdMeans(id: string)
    ensures IdOk(id) <==>
            exists a, b :: |a| == 32 && |b| == 64 && (forall c <- a :: IsHex(c)) && (forall c <- b :: IsHex(c))
                           && id == "msg_" + a + ":" + b
  {
    if IdOk(id) {
      var a, b := id[4..36], id[37..];
      assert id == "msg_" + a + ":" + b;
    }
  }

  function ContextOf(st: Store, id: string): string {
    st.workspace + "/" + id
  }

  // An entry that can be restored.
  predicate Good(st: Store, id: string, s: Sealed, oldKey: Bytes, parse: Reader) {
    IdOk(id) && OpenLocal(oldKey, s, ContextOf(st, id)).Some?
    && parse(OpenLocal(oldKey, s, ContextOf(st, id)).value).Some?
  }

  predicate AllGood(st: Store, backup: map<string, Sealed>, oldKey: Bytes, parse: Reader) {
    forall id :: id in backup ==> Good(st, id, backup[id], oldKey, parse)
  }

  function Imported(st: Store, backup: map<string, Sealed>, newKey: Bytes): map<string, Sealed> {
    map id | id in backup && id !in st.archive :: Sealed(newKey, ContextOf(st, id), backup[id].plain)
  }

  // The message text that an entry adds to the store.
  function NewText(st: Store, backup: map<string, Sealed>, parse: Reader, id: string): Option<Bytes> {
    if id in backup && id !in st.archive && parse(backup[id].plain).Some? then parse(backup[id].plain).value.text
    else None
  }

  // The index gains, for every message text restored, the filter of that text, and nothing else.
  ghost predicate Indexed(before: Store, after: Store, backup: map<string, Sealed>, parse: Reader,
                          mac: Mac, lower: Bytes -> Bytes, key: Bytes)
    requires IsMac(mac)
  {
    forall id ::
      var text := NewText(before, backup, parse, id);
      if text.Some? then id in after.index && IsIndex(mac, lower, key, text.value, after.index[id])
      else if id in before.index then id in after.index && after.index[id] == before.index[id]
      else id !in after.index
  }

  method CheckId(id: string) returns (ok: bool)
    ensures ok == IdOk(id)
  {
    if |id| != 101 || id[..4] != "msg_" || id[36] != ':' {
      return false;
    }
    var n := 4;
    while n < 101
      invariant 4 <= n <= 101
      invariant forall k :: 4 <= k < n && k != 36 ==> IsHex(id[k])
    {
      if n != 36 && !IsHex(id[n]) {
        return false;
      }
      n := n + 1;
    }
    return true;
  }

  lemma ImportOne(st: Store, backup: map<string, Sealed>, left: set<string>, id: string, newKey: Bytes)
    requires id in left && id in backup
    ensures Imported(st, backup - (left - {id}), newKey) ==
            if id in st.archive then Imported(st, backup - left, newKey)
            else Imported(st, backup - left, newKey)[id := Sealed(newKey, ContextOf(st, id), backup[id].plain)]
  {
  }

  method OpenEntry(st: Store, id: string, s: Sealed, oldKey: Bytes, parse: Reader) returns (plain: Option<Bytes>)
    ensures plain == if Good(st, id, s, oldKey, parse) then Some(s.plain) else None
  {
    var named := CheckId(id);
    if !named {
      return None;
    }
    plain := OpenLocal(oldKey, s, ContextOf(st, id));
    if plain.None? || parse(plain.value).None? {
      return None;
    }
  }

  // None when any entry of the backup is damaged; the store is then as before.
  method Restore(st: Store, backup: map<string, Sealed>, oldKey: Bytes, newKey: Bytes, parse: Reader,
                 mac: Mac, lower: Bytes -> Bytes) returns (out: Option<Store>)
    requires IsMac(mac)
    ensures out.Some? <==> AllGood(st, backup, oldKey, parse)
    ensures out.Some? ==>
              && out.value.workspace == st.workspace
              && out.value.archive == st.archive + Imported(st, backup, newKey)
              && Indexed(st, out.value, backup, parse, mac, lower, newKey)
  {
    var imported: map<string, Sealed> := map[];
    var indexes: map<string, seq<bv8>> := map[];
    var left := backup.Keys;
    while left != {}
      invariant left <= backup.Keys
      invariant forall id :: id in backup && id !in left ==> Good(st, id, backup[id], oldKey, parse)
      invariant imported == Imported(st, backup - left, newKey)
      invariant forall id :: id in indexes <==> id !in left && NewText(st, backup, parse, id).Some?
      invariant forall id :: id in indexes ==>
                  IsIndex(mac, lower, newKey, NewText(st, backup, parse, id).value, indexes[id])
      decreases |left|
    {
      var id :| id in left;
      ImportOne(st, backup, left, id, newKey);
      left := left - {id};
      var plain := OpenEntry(st, id, backup[id], oldKey, parse);
      if plain.None? {
        return None;
      }
      if id !in st.archive {
        imported := imported[id := Sealed(newKey, ContextOf(st, id), plain.value)];
        var text := parse(plain.value).value.text;
        if text.Some? {
          var filter := HistoryIndex(mac, lower, newKey, text.value);
          indexes := indexes[id := filter];
        }
      }
    }
    assert backup - left == backup;
    out := Some(st.(archive := st.archive + imported, index := st.index + indexes));
  }

  // What is in a store's archive, as it opens under the store's key.
  function Opened(st: Store, key: Bytes, id: string): Option<Bytes>
    requires id in st.archive
  {
    OpenLocal(key, st.archive[id], ContextOf(st, id))
  }

  // Restoring is a union in which existing entries win; each restored entry opens under the
  // new key to the bytes it had under the old one.
  lemma RestoreIsUnion(st: Store, backup: map<string, Sealed>, oldKey: Bytes, newKey: Bytes, parse: Reader)
    requires AllGood(st, backup, oldKey, parse)
    ensures var out := st.(archive := st.archive + Imported(st, backup, newKey));
            && out.archive.Keys == st.archive.Keys + backup.Keys
            && (forall id :: id in st.archive ==> out.archive[id] == st.archive[id])
            && forall id :: id in backup && id !in st.archive ==>
                 Opened(out, newKey, id) == OpenLocal(oldKey, backup[id], ContextOf(st, id)) != None
  {
    var out := st.(archive := st.archive + Imported(st, backup, newKey));
    assert out.archive.Keys == st.archive.Keys + backup.Keys;
  }

  // A second restore of the same backup finds nothing to do.
  lemma RestoreIdempotent(st: Store, backup: map<string, Sealed>, newKey: Bytes)
    ensures var once := st.(archive := st.archive + Imported(st, backup, newKey));
            once.(archive := once.archive + Imported(once, backup, newKey)) == once
  {
    var once := st.(archive := st.archive + Imported(st, backup, newKey));
    assert Imported(once, backup, newKey) == map[];
    assert once.archive + map[] == once.archive;
  }

  // Two backups may be restored in either order when they agree on what they share.
  lemma RestoresCommute(st: Store, a: map<string, Sealed>, b: map<string, Sealed>, newKey: Bytes)
    requires forall id :: id in a && id in b ==> a[id].plain == b[id].plain
    ensures var x := st.(archive := st.archive + Imported(st, a, newKey));
            var y := st.(archive := st.archive + Imported(st, b, newKey));
            x.archive + Imported(x, b, newKey) == y.archive + Imported(y, a, newKey)
  {
  }

  // A whole archive moves to a fresh device: everything opens there to the same bytes.
  lemma BackupRoundTrip(source: Store, target: Store, oldKey: Bytes, newKey: Bytes, parse: Reader)
    requires target.archive == map[] && target.workspace == source.workspace
    requires forall id :: id in source.archive ==>
               IdOk(id) && Opened(source, oldKey, id).Some? && parse(Opened(source, oldKey, id).value).Some?
    ensures AllGood(target, source.archive, oldKey, parse)
    ensures var out := target.(archive := target.archive + Imported(target, source.archive, newKey));
            && out.archive.Keys == source.archive.Keys
            && forall id :: id in source.archive ==> Opened(out, newKey, id) == Opened(source, oldKey, id)
  {
    RestoreIsUnion(target, source.archive, oldKey, newKey, parse);
  }
}
