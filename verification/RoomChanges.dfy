// Setting a member of a room, and what the relay makes of it
// (cmd/tincan/encryption_room_policy.go encryptedRoomMember).
module RoomChanges {
  import opened Text
  import opened Encryption
  import opened Sessions
  import opened Rosters
  import opened DeviceRuns

  // What is offered for a change: signed again with the commit it carries.
  function Offered(r: Roster, commit: Era, root: Key): Roster {
    Signed(r.(commit := Some(commit), welcome := None), root)
  }

  lemma OfferedTrusted(me: string, root: Key, r: Roster, c: Change, commit: Era)
    requires Trusted(r, root) && DeviceOf(r, me).Some? && Changed(me, r, c).Some? && !c.Admit?
    ensures Trusted(Offered(Changed(me, r, c).value, commit, root), root)
  {
    ChangeExtendsChain(me, root, r, c);
    var n := Changed(me, r, c).value;
    assert Offered(n, commit, root).members == Signed(n, root).members;
  }

  // When rooms were not managed before, the policy that is loaded first is published.
  lemma PolicyIsTaken(me: string, root: Key, r: Roster, p: RoomPolicy, commit: Era, rows: seq<Row>)
    requires Trusted(r, root) && DeviceOf(r, me).Some? && r.roomMembers.None? && Head(rows) == Some(r)
    ensures Succeeds(rows, Offered(Changed(me, r, LoadPolicy(p)).value, commit, root), root, r.room)
  {
    OfferedTrusted(me, root, r, LoadPolicy(p), commit);
  }

  // The change itself is then taken by the relay if and only if rooms were managed before:
  // otherwise it names the first membership as its caller holds it, not as it was published.
  lemma MemberChangeTaken(me: string, root: Key, r: Roster, p: RoomPolicy, c: Change, first: Era, second: Era, rows: seq<Row>)
    requires Trusted(r, root) && DeviceOf(r, me).Some? && c.SetRoomMember? && r.commit != Some(first)
    requires MemberChange(me, root, r, p, c, first).1.Some?
    requires Head(rows) == Some(MemberChange(me, root, r, p, c, first).0)
    ensures Succeeds(rows, Offered(MemberChange(me, root, r, p, c, first).1.value, second, root), root, r.room)
            <==> r.roomMembers.Some?
  {
    MemberChangeChains(me, root, r, p, c, first);
    if r.roomMembers.Some? {
      OfferedTrusted(me, root, r, c, second);
    }
  }

  // For instance: an owner and a second device, rooms not managed yet, and a policy that lists
  // the owner in one room.
  const OLD := Roster("", None, map[], 1, NoHash, [Device("a", "ra", "k"), Device("b", "rb", "x")], None, None, "k")
  const POLICY := RoomPolicy(map["rm" := ["a"]], map["ch" := "rm"])
  const ADD := SetRoomMember("rm", "b", true)

  function CommitOf(seed: int): Era {
    Committed(Founded("k", 0), "k", {"k", "x"}, seed)
  }

  // Adding the second device to the room is offered, and refused once the policy is published.
  lemma MemberChangeExample(rows: seq<Row>)
    ensures var (head, next) := MemberChange("a", "k", OLD, POLICY, ADD, CommitOf(1));
            && next.Some?
            && (Head(rows) == Some(OLD) ==> Succeeds(rows, head, "k", ""))
            && (Head(rows) == Some(head) ==> !Succeeds(rows, Offered(next.value, CommitOf(2), "k"), "k", ""))
  {
    ExampleTrusted();
    ExampleRoom();
    var held := Changed("a", OLD, LoadPolicy(POLICY)).value;
    assert RoomHas(held, "rm", "a");
    var (head, next) := MemberChange("a", "k", OLD, POLICY, ADD, CommitOf(1));
    assert next.Some?;
    if Head(rows) == Some(OLD) {
      PolicyIsTaken("a", "k", OLD, POLICY, CommitOf(1), rows);
      assert head == Offered(held, CommitOf(1), "k");
    }
    if Head(rows) == Some(head) {
      MemberChangeTaken("a", "k", OLD, POLICY, ADD, CommitOf(1), CommitOf(2), rows);
    }
  }

  lemma ExampleTrusted()
    ensures Trusted(OLD, "k") && DeviceOf(OLD, "a").Some? && DeviceOf(OLD, "b").Some?
  {
    assert Before("a", "b");
    assert OLD.members[1..] == [Device("b", "rb", "x")];
  }

  lemma ExampleRoom()
    ensures POLICY.members != map[] && PolicyRooms(POLICY.members, OLD.members)["rm"] == ["a"]
  {
    ExampleTrusted();
    assert "rm" in POLICY.members;
    assert Listed(["a"], OLD.members) == ["a"] + Listed([], OLD.members);
    assert SortNames(["a"]) == InsertName(SortNames([]), "a");
  }
}
