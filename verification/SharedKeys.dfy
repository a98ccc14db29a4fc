// Devices that share a signing key: the one case in which the engine's members are not compared
// exactly, and why an honest owner's rooms never come to it
// (cmd/tincan/encryption_mls.go syncMLS, prepareMLSRoster).
module SharedKeys {
  import opened Text
  import opened Encryption
  import opened Sessions
  import opened Rosters
  import opened Journal
  import opened Sealing
  import opened DeviceRuns
  import opened DeviceSealing
  import opened DeviceKeys
  import opened DeviceStaging
  import opened DeviceTheorems
  import Snapshots

  // Two devices with one signing key pass for two members.
  lemma SharedKeyExample()
    ensures var r := Roster("m", None, map[], 2, NoHash, [Device("a", "r", "k"), Device("b", "s", "k")], None, None, "k");
            var e := Committed(Founded("k", 0), "k", {"k", "z"}, 1);
            && Trusted(r, "k") && MembersMatch(e, r) && !KeysDiffer(r.members)
            && (set d <- r.members :: d.key) == {"k"} != Members(e)
  {
    var ds := [Device("a", "r", "k"), Device("b", "s", "k")];
    assert Before("a", "b");
    assert ds[0].key == ds[1].key && ds[0] in ds;
    assert |{"k", "z"}| == 2 && "z" !in {"k"};
  }

  // A membership that the relay takes from its owner was staged, with keys that differ.
  lemma TakenKeysDiffer(w: World, r: Roster, at: int)
    requires StageInv(w) && Enabled(w, RelayTakesRoster(r, at))
    ensures KeysDiffer(r.members)
  {
    assert w.disk.staged == Some(r);
    assert Stands(w.journal, w.disk);
  }

  lemma JournalStep(w: World, op: Op)
    requires StageInv(w) && Enabled(w, op) && w.disk.key == w.disk.root
    requires forall r <- Links(w.journal) :: KeysDiffer(r.members)
    requires op.RelayTakes? || op.RelayTakesRoster? || op.RelayBrings?
    ensures forall r <- Links(Next(w, op).journal) :: KeysDiffer(r.members)
  {
    match op
    case RelayTakesRoster(r, at) =>
      TakenKeysDiffer(w, r, at);
      LinksAppend(w.journal, RosterRow(at, r));
    case RelayTakes(e, at) => LinksAppend(w.journal, EnvelopeRow(at, e));
    case RelayBrings(row) => LinksAppend(w.journal, row);
  }

  lemma JournalSame(w: World, op: Op)
    requires Enabled(w, op) && !op.RelayTakes? && !op.RelayTakesRoster? && !op.RelayBrings?
    ensures Next(w, op).journal == w.journal
  {
  }

  // In a room whose owner runs this client no two devices ever share a signing key, so there
  // the comparison of members is exact.
  lemma {:induction false} OwnerKeysDiffer(run: Run, k: nat)
    requires IsRun(run) && k < |run.worlds| && run.worlds[0].disk.key == run.worlds[0].disk.root
    ensures forall r <- Links(run.worlds[k].journal) :: KeysDiffer(r.members)
  {
    if k > 0 {
      OwnerKeysDiffer(run, k - 1);
      RunStages(run, k - 1);
      Snapshots.SameKey(run, 0, k - 1);
      var w, op := run.worlds[k - 1], run.ops[k - 1];
      if op.RelayTakes? || op.RelayTakesRoster? || op.RelayBrings? {
        JournalStep(w, op);
      } else {
        JournalSame(w, op);
      }
    }
  }
}
