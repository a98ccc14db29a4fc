// Searching encrypted history page by page, with and without the index
// (cmd/tincan/encryption.go cryptoHistory).
module History {
  import opened Text
  import opened SearchIndex

  // `archiveId` is None for a plaintext message.
  datatype Message = Message(seqNo: int, archiveId: Option<string>)

  // What decryption makes of a message. A rejected one shows a placeholder text. `archives`
  // when reading it puts its text into the archive, and so into the index.
  datatype Reading = Shown(text: Bytes, metadataFits: bool, archives: bool) | BeforeJoining | Unreadable

  // Everything a search depends on but the log itself, the index as it is at the start. The
  // query is in lower case already.
  datatype Search = Search(
    mac: Mac, lower: Bytes -> Bytes, key: Bytes, index: map<string, seq<bv8>>,
    read: Message -> Reading, query: Bytes)

  const FULL_PAGE := 100
  const DEFAULT_LIMIT := 50
  const MOST_RESULTS := 100

  function Limit(requested: int): (limit: nat)
    ensures limit == if 1 <= requested <= 100 then requested else 50
  {
    if requested <= 0 || requested > MOST_RESULTS then DEFAULT_LIMIT else requested
  }

  // The log is kept newest first.
  ghost predicate NewestFirst(log: seq<Message>) {
    forall i, j :: 0 <= i < j < |log| ==> log[i].seqNo > log[j].seqNo
  }

  function Older(log: seq<Message>, before: Option<int>): (rest: seq<Message>)
    ensures |rest| <= |log|
  {
    if log == [] || before.None? || log[0].seqNo < before.value then log else Older(log[1..], before)
  }

  function Page(log: seq<Message>, before: Option<int>): seq<Message> {
    var rest := Older(log, before);
    if |rest| <= FULL_PAGE then rest else rest[..FULL_PAGE]
  }

  // The index rules a message out without reading it.
  ghost predicate Skipped(s: Search, m: Message)
    requires IsMac(s.mac)
  {
    && s.query != [] && m.archiveId.Some? && m.archiveId.value in s.index
    && !Possible(s.mac, s.lower, s.index[m.archiveId.value], s.key, s.query)
  }

  predicate Matches(s: Search, m: Message) {
    && s.read(m).Shown?
    && (s.query != [] ==> Contains(s.lower(s.read(m).text), s.query))
    && s.read(m).metadataFits
  }

  // The first `limit` messages found, or None when one has to be read that cannot be.
  ghost function Scan(s: Search, log: seq<Message>, limit: nat): Option<seq<Message>>
    requires IsMac(s.mac)
    decreases |log|
  {
    if log == [] || limit == 0 then Some([])
    else if Skipped(s, log[0]) then Scan(s, log[1..], limit)
    else if s.read(log[0]).Unreadable? then None
    else if Matches(s, log[0]) then
      var rest := Scan(s, log[1..], limit - 1);
      if rest.None? then None else Some([log[0]] + rest.value)
    else Scan(s, log[1..], limit)
  }

  lemma {:induction false} OlderAgain(log: seq<Message>, before: Option<int>, n: nat)
    requires NewestFirst(log) && 0 < n <= |Older(log, before)|
    ensures Older(log, Some(Older(log, before)[n - 1].seqNo)) == Older(log, before)[n..]
    ensures before.Some? ==> Older(log, before)[n - 1].seqNo < before.value
    decreases |log|
  {
    if before.None? || log[0].seqNo < before.value {
      DropOlder(log, n);
    } else {
      OlderAgain(log[1..], before, n);
      var rest := Older(log, before);
      OlderMember(log[1..], before, n - 1);
      assert log[0].seqNo > rest[n - 1].seqNo;
    }
  }

  lemma {:induction false} OlderMember(log: seq<Message>, before: Option<int>, n: nat)
    requires n < |Older(log, before)|
    ensures exists k :: 0 <= k < |log| && log[k] == Older(log, before)[n]
    decreases |log|
  {
    if before.None? || log[0].seqNo < before.value {
      assert log[n] == Older(log, before)[n];
    } else {
      OlderMember(log[1..], before, n);
      var k :| 0 <= k < |log[1..]| && log[1..][k] == Older(log[1..], before)[n];
      assert log[k + 1] == Older(log, before)[n];
    }
  }

  lemma {:induction false} DropOlder(log: seq<Message>, n: nat)
    requires NewestFirst(log) && 0 < n <= |log|
    ensures Older(log, Some(log[n - 1].seqNo)) == log[n..]
    decreases |log|
  {
    if n > 1 {
      DropOlder(log[1..], n - 1);
    } else if |log| > 1 {
      assert log[1].seqNo < log[0].seqNo;
      assert log[1..][0] == log[1];
    }
  }

  datatype Outcome = Found(messages: seq<Message>) | CannotRead | CursorStuck

  // ----- An index that grows while it is used -----

  // No two messages are archived under one identity.
  ghost predicate DistinctIds(log: seq<Message>) {
    forall i, j :: 0 <= i < j < |log| && log[i].archiveId.Some? ==> log[i].archiveId != log[j].archiveId
  }

  // The index says about these messages what it said at the start.
  ghost predicate AsAtStart(s: Search, index: map<string, seq<bv8>>, rest: seq<Message>) {
    forall m :: m in rest && m.archiveId.Some? ==> SameEntry(s.index, index, m.archiveId.value)
  }

  ghost predicate SameEntry(a: map<string, seq<bv8>>, b: map<string, seq<bv8>>, id: string) {
    (id in a <==> id in b) && (id in a ==> a[id] == b[id])
  }

  // An entry was there before, or was made from the text that reading a message showed.
  ghost predicate Learned(s: Search, log: seq<Message>, before: map<string, seq<bv8>>, after: map<string, seq<bv8>>)
    requires IsMac(s.mac)
  {
    && before.Keys <= after.Keys
    && forall id :: id in after ==>
         SameEntry(before, after, id) || exists m :: m in log && MadeFrom(s, m, id, after[id])
  }

  ghost predicate MadeFrom(s: Search, m: Message, id: string, filter: seq<bv8>)
    requires IsMac(s.mac)
  {
    m.archiveId == Some(id) && s.read(m).Shown? && s.read(m).archives && IsIndex(s.mac, s.lower, s.key, s.read(m).text, filter)
  }

  lemma LearnedOne(s: Search, log: seq<Message>, before: map<string, seq<bv8>>, mid: map<string, seq<bv8>>,
                   m: Message, filter: seq<bv8>)
    requires IsMac(s.mac) && Learned(s, log, before, mid) && m in log
    requires m.archiveId.Some? && MadeFrom(s, m, m.archiveId.value, filter)
    ensures Learned(s, log, before, mid[m.archiveId.value := filter])
  {
    var after := mid[m.archiveId.value := filter];
    forall id | id in after ensures SameEntry(before, after, id) || exists x :: x in log && MadeFrom(s, x, id, after[id]) {
      if id != m.archiveId.value {
        assert SameEntry(before, mid, id) ==> SameEntry(before, after, id);
      }
    }
  }

  lemma StartTail(s: Search, index: map<string, seq<bv8>>, m: Message, rest: seq<Message>, filter: seq<bv8>)
    requires DistinctIds([m] + rest) && AsAtStart(s, index, [m] + rest)
    ensures AsAtStart(s, index, rest) && DistinctIds(rest)
    ensures m.archiveId.Some? ==> AsAtStart(s, index[m.archiveId.value := filter], rest)
  {
    var all := [m] + rest;
    forall i | 0 <= i < |rest| ensures m.archiveId.Some? ==> rest[i].archiveId != m.archiveId {
      assert all[i + 1] == rest[i] && all[0] == m;
    }
    forall i, j | 0 <= i < j < |rest| && rest[i].archiveId.Some? ensures rest[i].archiveId != rest[j].archiveId {
      assert all[i + 1] == rest[i] && all[j + 1] == rest[j];
    }
    forall x | x in rest && x.archiveId.Some? ensures SameEntry(s.index, index, x.archiveId.value) {
      assert x in all;
    }
  }

  // Reading a message; the index afterwards.
  method Read(s: Search, m: Message, before: map<string, seq<bv8>>) returns (index: map<string, seq<bv8>>)
    requires IsMac(s.mac)
    ensures if s.read(m).Shown? && s.read(m).archives && m.archiveId.Some?
            then m.archiveId.value in index && index == before[m.archiveId.value := index[m.archiveId.value]]
                 && MadeFrom(s, m, m.archiveId.value, index[m.archiveId.value])
            else index == before
  {
    index := before;
    if s.read(m).Shown? && s.read(m).archives && m.archiveId.Some? {
      var filter := HistoryIndex(s.mac, s.lower, s.key, s.read(m).text);
      index := index[m.archiveId.value := filter];
    }
  }

  // Whether the index rules the message out.
  method RulesOut(s: Search, index: map<string, seq<bv8>>, m: Message) returns (skip: bool)
    requires IsMac(s.mac) && (m.archiveId.Some? ==> SameEntry(s.index, index, m.archiveId.value))
    ensures skip == Skipped(s, m)
  {
    skip := false;
    if s.query != [] && m.archiveId.Some? && m.archiveId.value in index {
      var possible := MayMatch(s.mac, s.lower, index[m.archiveId.value], s.key, s.query);
      skip := !possible;
    }
  }

  // One page; `tail` is what the log holds after it.
  method ReadPage(s: Search, page: seq<Message>, before: seq<Message>, limit: nat, known: map<string, seq<bv8>>,
                  ghost tail: seq<Message>, ghost log: seq<Message>)
    returns (found: seq<Message>, readable: bool, index: map<string, seq<bv8>>)
    requires IsMac(s.mac) && |before| < limit && DistinctIds(page + tail) && AsAtStart(s, known, page + tail)
    requires Learned(s, log, s.index, known) && forall m :: m in page ==> m in log
    ensures readable ==> |before| <= |found| <= limit
    ensures Prefixed(before, Scan(s, page + tail, limit - |before|)) ==
            if readable then Prefixed(found, Scan(s, tail, limit - |found|)) else None
    ensures Learned(s, log, s.index, index)
    ensures readable && |found| < limit ==> AsAtStart(s, index, tail) && DistinctIds(tail)
  {
    found, readable, index := before, true, known;
    var k := 0;
    assert page[0..] == page;
    while k < |page|
      invariant k <= |page| && |before| <= |found| < limit
      invariant Prefixed(before, Scan(s, page + tail, limit - |before|))
                == Prefixed(found, Scan(s, page[k..] + tail, limit - |found|))
      invariant DistinctIds(page[k..] + tail) && AsAtStart(s, index, page[k..] + tail)
      invariant Learned(s, log, s.index, index)
    {
      var m := page[k];
      ghost var rest := page[k + 1..] + tail;
      assert page[k..] + tail == [m] + rest;
      assert m in [m] + rest;
      ScanFirst(s, m, rest, limit - |found|);
      k := k + 1;
      var skip := RulesOut(s, index, m);
      StartTail(s, index, m, rest, []);
      if !skip {
        if s.read(m).Unreadable? {
          return found, false, index;
        }
        ghost var unread := index;
        index := Read(s, m, index);
        if index != unread {
          StartTail(s, unread, m, rest, index[m.archiveId.value]);
          LearnedOne(s, log, s.index, unread, m, index[m.archiveId.value]);
        }
        if Matches(s, m) {
          PrefixedSnoc(found, m, Scan(s, rest, limit - |found| - 1));
          found := found + [m];
          if |found| >= limit {
            return;
          }
        }
      }
    }
    assert page[k..] + tail == tail;
  }

  lemma ScanFirst(s: Search, m: Message, rest: seq<Message>, limit: nat)
    requires IsMac(s.mac) && limit > 0
    ensures Scan(s, [m] + rest, limit) ==
            if Skipped(s, m) then Scan(s, rest, limit)
            else if s.read(m).Unreadable? then None
            else if Matches(s, m) then Prefixed([m], Scan(s, rest, limit - 1))
            else Scan(s, rest, limit)
  {
    assert ([m] + rest)[0] == m && ([m] + rest)[1..] == rest;
  }

  lemma {:induction false} OlderParts(log: seq<Message>, before: Option<int>)
    requires DistinctIds(log)
    ensures DistinctIds(Older(log, before)) && forall m :: m in Older(log, before) ==> m in log
    decreases |log|
  {
    if log != [] && !(before.None? || log[0].seqNo < before.value) {
      OlderParts(log[1..], before);
    }
  }

  // Pages of a hundred, newest first, until enough has been found or the log ends. What is
  // read on the way is indexed, and that does not change what the search finds.
  method SearchHistory(s: Search, log: seq<Message>, requested: int, from: Option<int>)
    returns (out: Outcome, index: map<string, seq<bv8>>)
    requires IsMac(s.mac) && NewestFirst(log) && DistinctIds(log)
    ensures var scan := Scan(s, Older(log, from), Limit(requested));
            out == if scan.Some? then Found(scan.value) else CannotRead
    ensures Learned(s, log, s.index, index)
  {
    var limit := Limit(requested);
    var found: seq<Message> := [];
    var before := from;
    index := s.index;
    ghost var all := Scan(s, Older(log, from), limit);
    assert all.Some? ==> [] + all.value == all.value;
    while true
      invariant |found| < limit
      invariant all == Prefixed(found, Scan(s, Older(log, before), limit - |found|))
      invariant AsAtStart(s, index, Older(log, before)) && Learned(s, log, s.index, index)
      decreases |Older(log, before)|
    {
      var page := Page(log, before);
      ghost var tail := Older(log, before)[|page|..];
      assert page + tail == Older(log, before);
      OlderParts(log, before);
      var readable;
      found, readable, index := ReadPage(s, page, found, limit, index, tail, log);
      if !readable {
        return CannotRead, index;
      }
      if |found| >= limit || |page| < FULL_PAGE {
        ScanEnds(s, tail, limit - |found|, found);
        return Found(found), index;
      }
      var last := page[|page| - 1].seqNo;
      OlderAgain(log, before, |page|);
      if before == Some(last) {
        return CursorStuck, index;
      }
      before := Some(last);
    }
  }

  function Prefixed(found: seq<Message>, rest: Option<seq<Message>>): Option<seq<Message>> {
    if rest.None? then None else Some(found + rest.value)
  }

  lemma ScanEnds(s: Search, tail: seq<Message>, limit: nat, found: seq<Message>)
    requires IsMac(s.mac) && (tail == [] || limit == 0)
    ensures Prefixed(found, Scan(s, tail, limit)) == Some(found)
  {
    assert found + [] == found;
  }

  lemma PrefixedSnoc(found: seq<Message>, m: Message, rest: Option<seq<Message>>)
    ensures Prefixed(found, Prefixed([m], rest)) == Prefixed(found + [m], rest)
  {
    if rest.Some? {
      assert found + ([m] + rest.value) == (found + [m]) + rest.value;
    }
  }

  // ----- The index changes nothing -----

  // An index entry belongs to the text that reading the message shows.
  ghost predicate IndexFits(s: Search, m: Message)
    requires IsMac(s.mac)
  {
    m.archiveId.Some? && m.archiveId.value in s.index && s.read(m).Shown? ==>
      |s.index[m.archiveId.value]| != FILTER_BYTES
      || IsIndex(s.mac, s.lower, s.key, s.read(m).text, s.index[m.archiveId.value])
  }

  // All matches, newest first, found by reading every message.
  function AllMatches(s: Search, log: seq<Message>): seq<Message> {
    if log == [] then []
    else (if Matches(s, log[0]) then [log[0]] else []) + AllMatches(s, log[1..])
  }

  // The query stands somewhere in the text.
  ghost predicate Occurs(text: Bytes, query: Bytes) {
    exists before, after :: text == before + query + after
  }

  lemma ContainsMeans(text: Bytes, query: Bytes)
    ensures Contains(text, query) <==> Occurs(text, query)
  {
    if Contains(text, query) {
      var i :| 0 <= i <= |text| - |query| && SearchIndex.At(text, i, query);
      assert text == text[..i] + query + text[i + |query|..];
    }
    if Occurs(text, query) {
      var before, after :| text == before + query + after;
      assert text[|before|..|before| + |query|] == query;
      assert SearchIndex.At(text, |before|, query);
    }
  }

  // A match is a message of the log that shows a text in which the query, in lower case,
  // occurs, and whose metadata fits.
  lemma {:induction false} MatchesMean(s: Search, log: seq<Message>, m: Message)
    ensures m in AllMatches(s, log) <==>
            && m in log && s.read(m).Shown? && s.read(m).metadataFits
            && (s.query == [] || Occurs(s.lower(s.read(m).text), s.query))
  {
    if log != [] {
      MatchesMean(s, log[1..], m);
      assert log == [log[0]] + log[1..];
      if s.read(m).Shown? {
        ContainsMeans(s.lower(s.read(m).text), s.query);
      }
    }
  }

  function First(found: seq<Message>, n: nat): seq<Message> {
    if |found| <= n then found else found[..n]
  }

  lemma SkippedIsNoMatch(s: Search, m: Message, typed: Bytes)
    requires IsMac(s.mac) && IsLower(s.lower) && IndexFits(s, m) && s.query == s.lower(typed)
    ensures Skipped(s, m) ==> !Matches(s, m)
  {
    if Matches(s, m) && s.query != [] && m.archiveId.Some? && m.archiveId.value in s.index {
      if |s.index[m.archiveId.value]| == FILTER_BYTES {
        NeverSkipsAMatch(s.mac, s.lower, s.key, s.read(m).text, s.index[m.archiveId.value], typed);
      }
    }
  }

  // The matches that the index lets through.
  ghost function SeenMatches(s: Search, log: seq<Message>): seq<Message>
    requires IsMac(s.mac)
  {
    if log == [] then []
    else (if Matches(s, log[0]) && !Skipped(s, log[0]) then [log[0]] else []) + SeenMatches(s, log[1..])
  }

  lemma {:induction false} ScanFindsSeen(s: Search, log: seq<Message>, limit: nat)
    requires IsMac(s.mac) && forall m <- log :: !s.read(m).Unreadable?
    ensures Scan(s, log, limit) == Some(First(SeenMatches(s, log), limit))
    decreases |log|
  {
    if log != [] && limit > 0 {
      assert log[0] in log && log == [log[0]] + log[1..];
      ScanFirst(s, log[0], log[1..], limit);
      ScanFindsSeen(s, log[1..], limit);
      ScanFindsSeen(s, log[1..], limit - 1);
      FirstCons(log[0], SeenMatches(s, log[1..]), limit);
    }
  }

  lemma FirstCons(m: Message, found: seq<Message>, n: nat)
    requires n > 0
    ensures First([m] + found, n) == [m] + First(found, n - 1)
    ensures [] + found == found
  {
  }

  ghost predicate NoneHidden(s: Search, log: seq<Message>)
    requires IsMac(s.mac)
  {
    forall m :: m in log && Matches(s, m) ==> !Skipped(s, m)
  }

  lemma NoneHiddenCons(s: Search, m: Message, log: seq<Message>)
    requires IsMac(s.mac)
    ensures NoneHidden(s, [m] + log) <==> NoneHidden(s, log) && (Matches(s, m) ==> !Skipped(s, m))
  {
    forall x ensures x in [m] + log <==> x == m || x in log {
    }
  }

  // The matches that the index lets through are all matches, in order, if and only if it
  // skips none of them.
  lemma {:induction false} HiddenExactly(s: Search, log: seq<Message>)
    requires IsMac(s.mac)
    ensures SeenMatches(s, log) == AllMatches(s, log) <==> NoneHidden(s, log)
    ensures |SeenMatches(s, log)| <= |AllMatches(s, log)|
    decreases |log|
  {
    if log != [] {
      var first, later := log[0], log[1..];
      HiddenExactly(s, later);
      assert log == [first] + later;
      NoneHiddenCons(s, first, later);
      var seen, all := SeenMatches(s, later), AllMatches(s, later);
      if !Matches(s, first) {
        assert [] + seen == seen && [] + all == all;
      } else if Skipped(s, first) {
        assert |AllMatches(s, log)| == 1 + |all| && |SeenMatches(s, log)| == |seen|;
      } else {
        assert ([first] + seen)[1..] == seen && ([first] + all)[1..] == all;
      }
    }
  }

  // Over messages that can be read or predate joining, an indexed search returns exactly the
  // first matches of the whole log; what an index entry must fit is the text that is shown.
  lemma IndexedEqualsPlain(s: Search, log: seq<Message>, limit: nat, typed: Bytes)
    requires IsMac(s.mac) && IsLower(s.lower) && s.query == s.lower(typed)
    requires forall m <- log :: !s.read(m).Unreadable? && IndexFits(s, m)
    ensures Scan(s, log, limit) == Some(First(AllMatches(s, log), limit))
  {
    forall m | m in log ensures Matches(s, m) ==> !Skipped(s, m) {
      SkippedIsNoMatch(s, m, typed);
    }
    HiddenExactly(s, log);
    ScanFindsSeen(s, log, limit);
  }
}
