// The client that keeps the encryption state: it updates the session in place and saves it
// (cmd/tincan/encryption_mls.go, encryption.go cryptoSend).
module Replica {
  import opened Text
  import opened Encryption
  import opened Sessions
  import opened Rosters
  import opened Journal
  import opened Sealing
  import opened DeviceSealing

  const PAGE := 100

  // What the relay returns for one request.
  function Page(rows: seq<Row>, after: int): seq<Row> {
    var rest := Rest(rows, after);
    if |rest| <= PAGE then rest else rest[..PAGE]
  }

  // The relay's answer to a post. A conflict says that nothing was published.
  datatype Answer = Accepted | EpochConflict | NoAnswer

  datatype SendResult = Posted | NotAccepted | RosterRefused | CannotSeal | NotSaved

  datatype OfferAnswer = Taken | Refused | Unknown

  datatype EnsureError =
    RolledBack | NotInitialized | SaveFailed | OfferFailed | SyncFailed(fault: Fault) | Incomplete | NotAMember

  // The relay reports an older epoch than it has shown before.
  predicate Rollback(st: Session, remoteEpoch: int) {
    st.head.Some? && remoteEpoch < st.head.value.epoch
  }

  // What becomes of a message that has to be sealed.
  function Fresh(st: Session, key: string, channel: string, payload: int, secret: int, head: Roster, saved: bool): SendResult {
    if Refreshed(st, head).None? then RosterRefused
    else if Seal(Refreshed(st, head).value, key, channel, payload, secret).None? then CannotSeal
    else if saved then Posted else NotSaved
  }

  // The session that keeps the sealed message.
  function Outboxed(st: Session, key: string, channel: string, payload: int, secret: int, head: Roster): Session
    requires Refreshed(st, head).Some? && Seal(Refreshed(st, head).value, key, channel, payload, secret).Some?
  {
    var (next, e) := Seal(Refreshed(st, head).value, key, channel, payload, secret).value;
    next.(outbox := next.outbox[key := e])
  }

  ghost predicate SentFresh(st: Session, key: string, channel: string, payload: int, secret: int, head: Roster, saved: bool,
                            result: SendResult, next: Session)
  {
    && result == Fresh(st, key, channel, payload, secret, head, saved)
    && (result == Posted || result == NotSaved ==> next == Outboxed(st, key, channel, payload, secret, head))
  }

  lemma WithoutAbsent(st: Session, key: string)
    requires key !in st.outbox
    ensures st.(outbox := st.outbox - {key}) == st
  {
    assert st.outbox - {key} == st.outbox;
  }

  // The session as it reads the journal: a room's owner first founds it if there is none.
  function Begun(st: Session, remoteEpoch: int, recipient: string, seed: int): Option<Session> {
    if st.staged.None? && remoteEpoch == 0 then StageFirst(st, recipient, seed) else Some(st)
  }

  // Everything that a normal return takes.
  ghost predicate Succeeds(st: Session, rows: seq<Row>, remoteEpoch: int, head: Roster, recipient: string, seed: int,
                           offer: OfferAnswer, saved: bool)
  {
    var begun := Begun(st, remoteEpoch, recipient, seed);
    && !Rollback(st, remoteEpoch) && begun.Some? && (st.staged.None? && remoteEpoch == 0 ==> saved)
    && (begun.value.staged.Some? ==> offer == Taken)
    && var out := Replay(begun.value, Rest(rows, begun.value.cursor));
       && out.fault.None? && Refreshed(out.st, head).Some? && out.st.mlsEpoch == head.epoch
       && DeviceOf(head, out.st.me).Some? && DeviceOf(head, out.st.me).value.key == out.st.key
  }

  method CheckMembers(e: Era, r: Roster) returns (ok: bool)
    ensures ok == MembersMatch(e, r)
  {
    if Epoch(e) + 1 != r.epoch || |Members(e)| != |r.members| {
      return false;
    }
    var n := 0;
    while n < |r.members|
      invariant n <= |r.members|
      invariant forall k :: 0 <= k < n ==> r.members[k].key in Members(e)
    {
      if r.members[n].key !in Members(e) {
        assert r.members[n] in r.members;
        return false;
      }
      n := n + 1;
    }
    return true;
  }

  class Client {
    var st: Session
    var disk: Session
    ghost var posted: seq<Envelope>

    constructor (disk: Session)
      ensures st == disk && this.disk == disk && posted == []
    {
      st, this.disk, posted := disk, disk, [];
    }

    // ----- Synchronizing -----

    method TakeRoster(r: Roster) returns (err: Option<Fault>)
      modifies this`st
      ensures match EnterRoster(old(st), r)
              case Moved(next) => err == None && st == next
              case Stopped(why) => err == Some(why) && st == old(st)
    {
      if r.room != st.room {
        return Some(RoomMismatch);
      }
      if !Trusted(r, st.root) {
        return Some(Untrusted);
      }
      if r.epoch != ActiveEpoch(st) + 1 || (r.epoch > 1 && r.previous != HashOf(st.active.value)) {
        return Some(ForkOrGap);
      }
      if DeviceOf(r, st.me).Some? {
        var out: Option<Group>;
        if st.staged == Some(r) {
          out := if st.group.Some? && r.epoch > 1 then Some(Finalize(st.group.value)) else st.group;
        } else if st.mlsEpoch == 0 {
          if r.welcome.None? {
            return Some(WelcomeMissing);
          }
          out := if st.group.Some? then None else Join(st.key, r.welcome.value);
        } else {
          out := if st.group.Some? && r.commit.Some? then Merge(st.group.value, st.key, r.commit.value) else None;
          if out.Some? && r.commit.value.author != st.root {
            return Some(NotTheOwner);
          }
        }
        if out.None? {
          return Some(EngineError);
        }
        var ok := CheckMembers(out.value.era, r);
        if !ok {
          return Some(MembersDiffer);
        }
        st := st.(group := out, mlsEpoch := r.epoch);
        if st.staged == Some(r) {
          st := st.(staged := None);
        }
      } else if st.mlsEpoch > 0 {
        return Some(Removed);
      }
      st := st.(active := Some(r));
      return None;
    }

    method ConsumeKey(e: Envelope) returns (err: Option<Fault>, rejected: bool)
      requires st.active.Some?
      modifies this`st
      ensures match Consume(old(st), e)
              case Used(next) => err == None && !rejected && st == next
              case Rejection => err == None && rejected && st == old(st)
              case Broken(why) => err == Some(why) && st == old(st)
    {
      rejected := false;
      var c, r := e.context, st.active.value;
      if IdOf(e) in st.consumed {
        return None, false;
      }
      if c.sender == st.me {
        return Some(StaleOrCloned), false;
      }
      if st.group.None? {
        return Some(EngineError), false;
      }
      var out := Decrypt(st.group.value, st.key, e.capsule);
      if out.None? {
        return None, true;
      }
      var sender := DeviceOf(r, c.sender);
      if sender.None? || e.capsule.sender != sender.value.key || e.capsule.bound != c {
        return None, true;
      }
      if Nested(c) {
        if !RoomHas(r, c.room, st.me) {
          st := st.(group := out, consumed := st.consumed + {IdOf(e)});
          return None, false;
        }
        if !e.capsule.box.Boxed? || st.me !in e.capsule.box.readers {
          return None, true;
        }
      } else if !e.capsule.box.Plain? {
        return None, true;
      }
      st := st.(archive := st.archive[IdOf(e) := e.capsule.box.secret]);
      st := st.(consumed := st.consumed + {IdOf(e)});
      st := st.(group := out);
      return None, false;
    }

    method TakeRow(row: Row) returns (err: Option<Fault>)
      modifies this`st
      ensures match RowStep(old(st), row)
              case Moved(next) => err == None && st == next
              case Stopped(why) => err == Some(why) && st == old(st)
    {
      if row.seqNo <= st.cursor {
        return Some(NotAdvancing);
      }
      err := None;
      match row {
        case RosterRow(_, r) =>
          err := TakeRoster(r);
          if err.Some? {
            return;
          }
        case OpaqueRow(_, capsule, id) =>
          if IsMember(st) && id !in st.consumed {
            if st.group.None? {
              return Some(EngineError);
            }
            var out := Decrypt(st.group.value, st.key, capsule);
            if out.Some? {
              st := st.(group := out);
            }
          }
        case EnvelopeRow(_, e) =>
          if st.active.None? || !Verified(e, st.active.value) {
            return Some(BadEnvelope);
          }
          if IsMember(st) {
            var rejected;
            err, rejected := ConsumeKey(e);
            if err.Some? {
              return;
            }
            if rejected {
              st := st.(rejected := st.rejected + {e});
            }
          }
        case UnknownRow(_) =>
          return Some(UnknownKind);
      }
      st := st.(cursor := row.seqNo);
    }

    // Page by page, saving after every row: together one replay of everything unread.
    method Sync(rows: seq<Row>) returns (err: Option<Fault>)
      requires Increasing(rows)
      modifies this`st, this`disk
      ensures Replay(old(st), Rest(rows, old(st).cursor)) == Replayed(st, err)
      ensures disk == st || (disk == old(disk) && st == old(st))
    {
      var more := true;
      while more
        invariant Replay(old(st), Rest(rows, old(st).cursor)) == Replay(st, Rest(rows, st.cursor))
        invariant disk == st || (disk == old(disk) && st == old(st))
        invariant !more ==> Rest(rows, st.cursor) == []
        decreases more, |Rest(rows, st.cursor)|
      {
        var page := Page(rows, st.cursor);
        ghost var rest := Rest(rows, st.cursor);
        var k := 0;
        while k < |page|
          invariant k <= |page| <= |rest| && Rest(rows, st.cursor) == rest[k..]
          invariant forall j :: k <= j < |page| ==> page[j] == rest[j]
          invariant Replay(old(st), Rest(rows, old(st).cursor)) == Replay(st, rest[k..])
          invariant disk == st || (disk == old(disk) && st == old(st))
        {
          RestStep(rows, st.cursor);
          assert rest[k..][1..] == rest[k + 1..];
          err := TakeRow(page[k]);
          if err.Some? {
            return;
          }
          disk := st;
          k := k + 1;
        }
        more := |page| == PAGE;
        if !more {
          assert rest[k..] == [];
        }
      }
      return None;
    }

    // ----- Sealing and posting -----

    method SealEnvelope(key: string, channel: string, payload: int, secret: int) returns (e: Option<Envelope>)
      modifies this`st
      ensures var out := Seal(old(st), key, channel, payload, secret);
              if out.None? then e == None && st == old(st) else e == Some(out.value.1) && st == out.value.0
    {
      if st.active.None? || st.group.None? {
        return None;
      }
      var r := st.active.value;
      var c := Context("", false, channel, st.me, key, r.epoch, HashOf(r), payload);
      var box := Plain(secret);
      var room := ChannelRoom(r, channel);
      if room != "" {
        if !RoomHas(r, room, st.me) {
          return None;
        }
        c := c.(room := room);
        if st.room != "" {
          c := c.(roomGroup := true);
        } else {
          if RoomReaders(r, room) == {} {
            return None;
          }
          box := Boxed(secret, RoomReaders(r, room));
        }
      }
      var out := Encrypt(st.group.value, st.key, box, c);
      if out.None? {
        return None;
      }
      e := Some(Envelope(c, out.value.1, st.key));
      st := st.(archive := st.archive[IdOf(e.value) := secret]);
      st := st.(consumed := st.consumed + {IdOf(e.value)});
      st := st.(group := Some(out.value.0));
    }

    // A message whose envelope is kept is posted again unchanged; only after a conflict is it
    // sealed anew. Either way the saved state covers whatever is posted.
    method Send(key: string, channel: string, payload: int, secret: int, head: Roster, saved: bool, answer: Answer)
      returns (result: SendResult)
      requires StagedOk(st) && OutboxOk(st) && Forward(disk, st)
      requires forall k :: k in st.outbox ==> Covers(disk, st.outbox[k])
      modifies this
      ensures StagedOk(st) && OutboxOk(st) && Forward(disk, st) && Forward(old(disk), disk)
      ensures |old(posted)| <= |posted| && posted[..|old(posted)|] == old(posted)
      ensures forall n :: |old(posted)| <= n < |posted| ==> posted[n].context.key == key && Covers(disk, posted[n])
      ensures key in old(st).outbox && answer != EpochConflict ==>
                st == old(st) && disk == old(disk) && posted == old(posted) + [old(st).outbox[key]]
      ensures result == Posted || result == NotSaved ==> key in st.outbox && (result == Posted ==> posted != [])
      ensures result == Posted ==> posted[|posted| - 1] == st.outbox[key]
      ensures var base := old(st).(outbox := old(st).outbox - {key});
              if key in old(st).outbox && answer != EpochConflict
              then result == if answer == Accepted then Posted else NotAccepted
              else SentFresh(base, key, channel, payload, secret, head, saved, result, st)
    {
      if key in st.outbox {
        posted := posted + [st.outbox[key]];
        if answer == Accepted {
          return Posted;
        }
        if answer == NoAnswer {
          return NotAccepted;
        }
        DropKeeps(st, key);
        st := st.(outbox := st.outbox - {key});
      } else {
        WithoutAbsent(st, key);
      }
      result := SealAndPost(key, channel, payload, secret, head, saved);
    }

    method SealAndPost(key: string, channel: string, payload: int, secret: int, head: Roster, saved: bool)
      returns (result: SendResult)
      requires StagedOk(st) && OutboxOk(st) && Forward(disk, st)
      modifies this
      ensures StagedOk(st) && OutboxOk(st) && Forward(disk, st) && Forward(old(disk), disk)
      ensures SentFresh(old(st), key, channel, payload, secret, head, saved, result, st)
      ensures result == Posted || result == NotSaved ==> key in st.outbox
      ensures result == Posted ==> Covers(disk, st.outbox[key]) && posted == old(posted) + [st.outbox[key]]
      ensures result != Posted ==> posted == old(posted) && disk == old(disk)
    {
      var newer := Refreshed(st, head);
      if newer.None? {
        return RosterRefused;
      }
      RefreshAdvances(st, head);
      st := newer.value;
      SealForward(disk, st, key, channel, payload, secret);
      var e := SealEnvelope(key, channel, payload, secret);
      if e.None? {
        return CannotSeal;
      }
      st := st.(outbox := st.outbox[key := e.value]);
      if !saved {
        return NotSaved;
      }
      disk := st;
      posted := posted + [e.value];
      return Posted;
    }

    // ----- Memberships -----

    // The engine stages a commit; the membership that carries it is saved before it is offered.
    method PrepareChange(c: Change, seed: int, saved: bool) returns (ok: bool)
      modifies this`st, this`disk
      ensures var out := StageChange(old(st), c, seed);
              if out.None? then !ok && st == old(st) && disk == old(disk)
              else st == out.value && ok == saved && disk == if saved then st else old(disk)
    {
      if st.active.None? || st.group.None? {
        return false;
      }
      var next := Changed(st.me, st.active.value, c);
      var members := EngineMembers(st.group.value, st.active.value, c, st.key);
      if next.None? || members.None? {
        return false;
      }
      var g := Stage(st.group.value, st.key, members.value, seed);
      if g.None? {
        return false;
      }
      var r := next.value.(commit := g.value.staged, welcome := None);
      if c.Admit? {
        r := r.(welcome := g.value.staged);
      }
      st := st.(group := g);
      st := st.(staged := Some(Signed(r, st.key)));
      if saved {
        disk := st;
      }
      return saved;
    }

    // Offers what is staged, reads the journal to its end and compares with the relay's newest
    // membership. A change refused for good is discarded; an uncertain answer keeps it staged.
    method Ensure(rows: seq<Row>, remoteEpoch: int, head: Roster, recipient: string, seed: int,
                  offer: OfferAnswer, saved: bool) returns (err: Option<EnsureError>)
      requires Increasing(rows)
      modifies this`st, this`disk
      ensures err.None? <==> Succeeds(old(st), rows, remoteEpoch, head, recipient, seed, offer, saved)
      ensures err.None? ==>
                var begun := Begun(old(st), remoteEpoch, recipient, seed);
                && begun.Some? && (begun.value.staged.Some? ==> offer == Taken)
                && var out := Replay(begun.value, Rest(rows, begun.value.cursor));
                   && out.fault.None? && Some(st) == Refreshed(out.st, head)
                   && st.active == Some(head) && st.mlsEpoch == head.epoch
                   && DeviceOf(head, st.me).Some? && DeviceOf(head, st.me).value.key == st.key
      ensures old(st).staged.Some? && offer == Refused && !Rollback(old(st), remoteEpoch) ==>
                err == Some(OfferFailed)
                && st == if old(st).staged.value.epoch > 1 then Discarded(old(st)) else old(st)
      ensures old(st).staged.Some? && offer == Unknown ==> err.Some? && st == old(st)
    {
      if Rollback(st, remoteEpoch) {
        return Some(RolledBack);
      }
      if st.staged.None? && remoteEpoch == 0 {
        var first := StageFirst(st, recipient, seed);
        if first.None? {
          return Some(NotInitialized);
        }
        st := first.value;
        if !saved {
          return Some(SaveFailed);
        }
        disk := st;
      }
      if st.staged.Some? && offer != Taken {
        if offer == Refused && st.staged.value.epoch > 1 {
          st := Discarded(st);
          if saved {
            disk := st;
          }
        }
        return Some(OfferFailed);
      }
      var fault := Sync(rows);
      if fault.Some? {
        return Some(SyncFailed(fault.value));
      }
      var newer := Refreshed(st, head);
      if newer.None? {
        return Some(RolledBack);
      }
      st := newer.value;
      if st.mlsEpoch != head.epoch || st.active != Some(head) {
        return Some(Incomplete);
      }
      var own := DeviceOf(head, st.me);
      if own.None? || own.value.key != st.key {
        return Some(NotAMember);
      }
      return None;
    }
  }

  lemma RestStep(rows: seq<Row>, cursor: int)
    requires Increasing(rows)
    ensures Rest(rows, cursor) != [] ==> Rest(rows, Rest(rows, cursor)[0].seqNo) == Rest(rows, cursor)[1..]
  {
    var rest := Rest(rows, cursor);
    if rest != [] {
      RestIncreasing(rows, cursor);
      RestTwice(rows, cursor, rest[0].seqNo);
      RestAfter(rest, 1);
    }
  }

  lemma DropKeeps(st: Session, key: string)
    requires OutboxOk(st)
    ensures OutboxOk(st.(outbox := st.outbox - {key}))
  {
    var less := st.(outbox := st.outbox - {key});
    forall k | k in less.outbox ensures Covers(less, less.outbox[k]) {
      assert Covers(st, st.outbox[k]);
    }
  }

  lemma SealForward(disk: Session, st: Session, key: string, channel: string, payload: int, secret: int)
    requires StagedOk(st) && OutboxOk(st) && Forward(disk, st)
    ensures Seal(st, key, channel, payload, secret).Some? ==>
              var (next, e) := Seal(st, key, channel, payload, secret).value;
              var kept := next.(outbox := next.outbox[key := e]);
              StagedOk(kept) && OutboxOk(kept) && Forward(disk, kept) && Covers(kept, e) && e.context.key == key
  {
    if Seal(st, key, channel, payload, secret).Some? {
      SealAdvances(st, key, channel, payload, secret, true);
      ForwardTransitive(disk, st, SealedKept(st, key, channel, payload, secret));
    }
  }

  function SealedKept(st: Session, key: string, channel: string, payload: int, secret: int): Session
    requires Seal(st, key, channel, payload, secret).Some?
  {
    var (next, e) := Seal(st, key, channel, payload, secret).value;
    next.(outbox := next.outbox[key := e])
  }
}
