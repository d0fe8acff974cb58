/**
 Rack preference of the target choice. The choice is meant to keep the number of distinct racks of a
 partition whenever some under-loaded broker allows it. It does so for every list of under-loaded brokers
 the code can build exactly when the rack given up is shared or no two brokers mislead it. Racks looked up
 by replica never mislead; racks looked up by slot, as written, do.
 */
module RackPreference {
  import opened Rebalance
  import opened Rebalancer

  ghost function RackSet(racks: seq<string>): set<string> {
    set r | r in racks
  }

  function Others(racks: seq<string>, slot: nat): seq<string>
    requires slot < |racks|
  {
    racks[..slot] + racks[slot + 1..]
  }

  /** Replacing the replica in `slot` by one on `rack` does not lower the number of distinct racks. */
  ghost predicate Keeps(racks: seq<string>, slot: nat, rack: string)
    requires slot < |racks|
  {
    |RackSet(racks[slot := rack])| >= |RackSet(racks)|
  }

  /** A broker outside the partition on a rack that is unused or is the one given up. */
  ghost predicate Helps(racks: seq<string>, row: seq<int>, slot: nat, b: BrokerInfo)
    requires slot < |racks|
  {
    b.id !in row && (b.rack !in racks || b.rack == racks[slot])
  }

  /** The choice from `bs`, comparing against `current`, keeps the racks unless no broker helps. */
  ghost predicate Prefers(racks: seq<string>, row: seq<int>, slot: nat, current: seq<string>, bs: seq<BrokerInfo>)
    requires slot < |racks|
  {
    var k := PickTarget(true, bs, row, current, racks[slot]);
    k != -1 && (exists b :: b in bs && Helps(racks, row, slot, b)) ==> Keeps(racks, slot, bs[k].rack)
  }

  // ----- the lists the code builds -----

  /** Under-loaded brokers as the code lists them: numbered from one to `n`, on their racks, least loaded first. */
  ghost predicate UnderLoaded(n: nat, racks: map<int, string>, bs: seq<BrokerInfo>) {
    && (forall b | b in bs :: 1 <= b.id <= n && b.rack == RackOf(racks, b.id) && b.skew < 0)
    && DistinctIds(bs) && SortedBySkew(bs, false)
  }

  /** The second part of the split list is such a list. */
  lemma LeastIsUnderLoaded(c: Config, bs: seq<BrokerInfo>, t: seq<int>, most: seq<BrokerInfo>, least: seq<BrokerInfo>)
    requires Ranked(c, bs, t) && Split(bs, most, least) && DistinctIds(least)
    ensures UnderLoaded(c.n, c.racks, least)
  {
  }

  // ----- when a replacement keeps the racks -----

  lemma AddingToASet(rest: set<string>, r: string)
    ensures |rest + {r}| == |rest| + (if r in rest then 0 else 1)
  {
    if r in rest {
      assert rest + {r} == rest;
    }
  }

  lemma KeepsExactly(racks: seq<string>, slot: nat, rack: string)
    requires slot < |racks|
    ensures Keeps(racks, slot, rack) <==> racks[slot] in Others(racks, slot) || rack !in Others(racks, slot)
  {
    var rest := RackSet(Others(racks, slot));
    var changed := racks[slot := rack];
    assert Others(changed, slot) == Others(racks, slot);
    forall r ensures r in RackSet(racks) <==> r == racks[slot] || r in rest {
      OtherRacks(racks, slot, r);
    }
    forall r ensures r in RackSet(changed) <==> r == rack || r in rest {
      OtherRacks(changed, slot, r);
    }
    assert RackSet(racks) == rest + {racks[slot]} && RackSet(changed) == rest + {rack};
    AddingToASet(rest, racks[slot]);
    AddingToASet(rest, rack);
  }

  lemma OtherRacks(racks: seq<string>, slot: nat, r: string)
    requires slot < |racks|
    ensures r in racks <==> r == racks[slot] || r in Others(racks, slot)
  {
  }

  lemma OtherRackAt(racks: seq<string>, slot: nat, r: string)
    requires slot < |racks|
    ensures r in Others(racks, slot) <==> exists j | 0 <= j < |racks| :: j != slot && racks[j] == r
  {
    var others := Others(racks, slot);
    if r in others {
      var i :| 0 <= i < |others| && others[i] == r;
      var j := if i < slot then i else i + 1;
      assert racks[j] == r;
    }
    if j :| 0 <= j < |racks| && j != slot && racks[j] == r {
      assert others[if j < slot then j else j - 1] == r;
    }
  }

  /** Another replica is on the rack that is given up. */
  predicate Shared(racks: map<int, string>, row: seq<int>, slot: nat)
    requires slot < |row|
  {
    exists j | 0 <= j < |row| :: j != slot && RackOf(racks, row[j]) == RackOf(racks, row[slot])
  }

  lemma SharedIs(racks: map<int, string>, row: seq<int>, slot: nat)
    requires slot < |row|
    ensures var byReplica := RacksByReplica(racks, row);
      Shared(racks, row, slot) <==> byReplica[slot] in Others(byReplica, slot)
  {
    var byReplica := RacksByReplica(racks, row);
    OtherRackAt(byReplica, slot, byReplica[slot]);
    if j :| 0 <= j < |row| && j != slot && RackOf(racks, row[j]) == RackOf(racks, row[slot]) {
      assert byReplica[j] == byReplica[slot];
    }
    if j :| 0 <= j < |row| && j != slot && byReplica[j] == byReplica[slot] {
      assert RackOf(racks, row[j]) == RackOf(racks, row[slot]);
    }
  }

  // ----- when the choice keeps the racks -----

  /**
   Broker `a` is chosen before `b` although `a` gives up a rack and `b` would have kept it: against the racks in
   `current`, `a` looks new, or `b` looks used and is not on the rack given up.
   */
  predicate Misleads(all: seq<string>, row: seq<int>, slot: nat, current: seq<string>, racks: map<int, string>,
                     a: int, b: int)
    requires slot < |all|
  {
    var onA, onB := RackOf(racks, a), RackOf(racks, b);
    && a !in row && b !in row && onA in Others(all, slot) && (onB !in all || onB == all[slot])
    && (onA !in current || (onB in current && onB != all[slot]))
  }

  /** Two of the brokers mislead the choice. */
  predicate Misled(n: nat, all: seq<string>, row: seq<int>, slot: nat, current: seq<string>, racks: map<int, string>)
    requires slot < |all|
  {
    exists a, b | 1 <= a <= n && 1 <= b <= n :: Misleads(all, row, slot, current, racks, a, b)
  }

  /** A choice that gives up a rack was misled. */
  lemma LossMisleads(all: seq<string>, row: seq<int>, slot: nat, current: seq<string>, racks: map<int, string>,
                     bs: seq<BrokerInfo>, b: BrokerInfo)
    requires slot < |all| && all[slot] !in Others(all, slot) && b in bs && Helps(all, row, slot, b)
    requires forall x | x in bs :: x.rack == RackOf(racks, x.id)
    requires var k := PickTarget(true, bs, row, current, all[slot]);
      k != -1 && bs[k].rack in Others(all, slot)
    ensures var k := PickTarget(true, bs, row, current, all[slot]);
      Misleads(all, row, slot, current, racks, bs[k].id, b.id)
  {
    var k := PickTarget(true, bs, row, current, all[slot]);
    assert bs[k] in bs;
    if bs[k].rack in current {
      assert !Admits(Fresh, row, current, all[slot], b);
      assert !Admits(SameRack, row, current, all[slot], b);
    }
  }

  lemma PairIsUnderLoaded(n: nat, racks: map<int, string>, a: int, b: int)
    requires 1 <= a <= n && 1 <= b <= n && a != b
    ensures UnderLoaded(n, racks, [BrokerInfo(a, 0, RackOf(racks, a), -1), BrokerInfo(b, 0, RackOf(racks, b), -1)])
  {
  }

  /** Two misleading brokers, listed in the bad order, make the choice give up a rack. */
  lemma MisleadingPair(all: seq<string>, row: seq<int>, slot: nat, current: seq<string>, racks: map<int, string>,
                       a: int, b: int)
    requires slot < |all| && all[slot] !in Others(all, slot) && Misleads(all, row, slot, current, racks, a, b)
    ensures a != b
    ensures var bs := [BrokerInfo(a, 0, RackOf(racks, a), -1), BrokerInfo(b, 0, RackOf(racks, b), -1)];
      !Prefers(all, row, slot, current, bs)
  {
    var bs := [BrokerInfo(a, 0, RackOf(racks, a), -1), BrokerInfo(b, 0, RackOf(racks, b), -1)];
    OtherRacks(all, slot, bs[0].rack);
    KeepsExactly(all, slot, bs[0].rack);
    assert Helps(all, row, slot, bs[1]);
    assert Admits(if bs[0].rack in current then Any else Fresh, row, current, all[slot], bs[0]);
    assert forall x | x in bs :: x == bs[0] || x == bs[1];
    assert PickTarget(true, bs, row, current, all[slot]) == 0;
  }

  /** The choice keeps the racks on every list the code can build. */
  ghost predicate Protects(n: nat, all: seq<string>, row: seq<int>, slot: nat, current: seq<string>,
                           racks: map<int, string>)
    requires slot < |all|
  {
    forall bs | UnderLoaded(n, racks, bs) :: Prefers(all, row, slot, current, bs)
  }

  lemma MisledFails(n: nat, all: seq<string>, row: seq<int>, slot: nat, current: seq<string>, racks: map<int, string>)
    requires slot < |all| && all[slot] !in Others(all, slot) && Misled(n, all, row, slot, current, racks)
    ensures !Protects(n, all, row, slot, current, racks)
  {
    var a, b :| 1 <= a <= n && 1 <= b <= n && Misleads(all, row, slot, current, racks, a, b);
    MisleadingPair(all, row, slot, current, racks, a, b);
    PairIsUnderLoaded(n, racks, a, b);
  }

  lemma NotMisledPrefers(n: nat, all: seq<string>, row: seq<int>, slot: nat, current: seq<string>,
                         racks: map<int, string>, bs: seq<BrokerInfo>)
    requires slot < |all| && UnderLoaded(n, racks, bs)
    requires all[slot] in Others(all, slot) || !Misled(n, all, row, slot, current, racks)
    ensures Prefers(all, row, slot, current, bs)
  {
    var k := PickTarget(true, bs, row, current, all[slot]);
    if k != -1 && exists b :: b in bs && Helps(all, row, slot, b) {
      var b :| b in bs && Helps(all, row, slot, b);
      KeepsExactly(all, slot, bs[k].rack);
      assert bs[k] in bs;
      if all[slot] !in Others(all, slot) && bs[k].rack in Others(all, slot) {
        LossMisleads(all, row, slot, current, racks, bs, b);
      }
    }
  }

  /** The choice is protected exactly when the rack given up is shared or no two brokers mislead it. */
  lemma PreferenceExactly(n: nat, racks: map<int, string>, row: seq<int>, slot: nat, current: seq<string>)
    requires slot < |row|
    ensures var all := RacksByReplica(racks, row);
      Protects(n, all, row, slot, current, racks)
      <==> Shared(racks, row, slot) || !Misled(n, all, row, slot, current, racks)
  {
    var all := RacksByReplica(racks, row);
    SharedIs(racks, row, slot);
    if Shared(racks, row, slot) || !Misled(n, all, row, slot, current, racks) {
      forall bs | UnderLoaded(n, racks, bs) ensures Prefers(all, row, slot, current, bs) {
        NotMisledPrefers(n, all, row, slot, current, racks, bs);
      }
    } else {
      MisledFails(n, all, row, slot, current, racks);
    }
  }

  /** Racks looked up by replica, as intended, mislead nobody. */
  lemma ByReplicaProtects(n: nat, racks: map<int, string>, row: seq<int>, slot: nat)
    requires slot < |row|
    ensures var all := RacksByReplica(racks, row); Protects(n, all, row, slot, all, racks)
  {
    var all := RacksByReplica(racks, row);
    forall a, b | 1 <= a <= n && 1 <= b <= n ensures !Misleads(all, row, slot, all, racks, a, b) {
      OtherRacks(all, slot, RackOf(racks, a));
    }
    PreferenceExactly(n, racks, row, slot, all);
  }

  /** Racks looked up by slot, as written: the exact condition, checked by looking at pairs of brokers. */
  lemma BySlotProtectsExactly(n: nat, racks: map<int, string>, row: seq<int>, slot: nat)
    requires slot < |row|
    ensures var all, current := RacksByReplica(racks, row), RacksBySlot(racks, row);
      Protects(n, all, row, slot, current, racks)
      <==> Shared(racks, row, slot) || !Misled(n, all, row, slot, current, racks)
  {
    PreferenceExactly(n, racks, row, slot, RacksBySlot(racks, row));
  }

  // ----- clusters with spare brokers -----

  /** A broker outside the partition is on the rack. */
  predicate SpareOn(n: nat, racks: map<int, string>, row: seq<int>, r: string) {
    exists b | 1 <= b <= n :: b !in row && RackOf(racks, b) == r
  }

  /** Every rack of the partition has a broker outside it. */
  predicate Spares(n: nat, racks: map<int, string>, row: seq<int>) {
    forall j | 0 <= j < |row| :: SpareOn(n, racks, row, RackOf(racks, row[j]))
  }

  /** The racks of the other replicas are among those looked up. */
  predicate OthersSeen(all: seq<string>, slot: nat, current: seq<string>)
    requires slot < |all|
  {
    forall r | r in Others(all, slot) :: r in current
  }

  /** No rack that was looked up, with a broker outside the partition on it, is unused. */
  predicate NoStranger(n: nat, all: seq<string>, row: seq<int>, current: seq<string>, racks: map<int, string>) {
    forall r | r in current && SpareOn(n, racks, row, r) :: r in all
  }

  lemma SpareOnReplicaRack(n: nat, racks: map<int, string>, row: seq<int>, r: string) returns (b: int)
    requires Spares(n, racks, row) && r in RacksByReplica(racks, row)
    ensures 1 <= b <= n && b !in row && RackOf(racks, b) == r
  {
    var j :| 0 <= j < |row| && RacksByReplica(racks, row)[j] == r;
    assert SpareOn(n, racks, row, RackOf(racks, row[j]));
    b :| 1 <= b <= n && b !in row && RackOf(racks, b) == r;
  }

  lemma MissedRackMisleads(n: nat, racks: map<int, string>, row: seq<int>, slot: nat, current: seq<string>, r: string)
    requires slot < |row| && Spares(n, racks, row)
    requires r in Others(RacksByReplica(racks, row), slot) && r !in current
    ensures Misled(n, RacksByReplica(racks, row), row, slot, current, racks)
  {
    var all := RacksByReplica(racks, row);
    OtherRacks(all, slot, r);
    var a := SpareOnReplicaRack(n, racks, row, r);
    var b := SpareOnReplicaRack(n, racks, row, all[slot]);
    assert Misleads(all, row, slot, current, racks, a, b);
  }

  lemma StrangerMisleads(n: nat, racks: map<int, string>, row: seq<int>, slot: nat, current: seq<string>, r: string)
    requires slot < |row| && |row| > 1 && Spares(n, racks, row)
    requires r in current && SpareOn(n, racks, row, r) && r !in RacksByReplica(racks, row)
    ensures Misled(n, RacksByReplica(racks, row), row, slot, current, racks)
  {
    var all := RacksByReplica(racks, row);
    var other := Others(all, slot)[0];
    OtherRacks(all, slot, other);
    var a := SpareOnReplicaRack(n, racks, row, other);
    var b :| 1 <= b <= n && b !in row && RackOf(racks, b) == r;
    assert all[slot] in all;
    assert Misleads(all, row, slot, current, racks, a, b);
  }

  lemma SeenIsNotMisled(n: nat, racks: map<int, string>, row: seq<int>, slot: nat, current: seq<string>)
    requires slot < |row|
    requires OthersSeen(RacksByReplica(racks, row), slot, current)
    requires NoStranger(n, RacksByReplica(racks, row), row, current, racks)
    ensures !Misled(n, RacksByReplica(racks, row), row, slot, current, racks)
  {
    var all := RacksByReplica(racks, row);
    forall a, b | 1 <= a <= n && 1 <= b <= n ensures !Misleads(all, row, slot, current, racks, a, b) {
      if Misleads(all, row, slot, current, racks, a, b) {
        assert SpareOn(n, racks, row, RackOf(racks, b));
      }
    }
  }

  /**
   Where every rack of a partition has a broker to spare, the code protects it exactly when the rack given up is
   shared, there is one replica, or the brokers numbered like the slots are on all racks of the other replicas
   and on no unused rack that has a broker to spare.
   */
  lemma SparePartitionsExactly(n: nat, racks: map<int, string>, row: seq<int>, slot: nat)
    requires slot < |row| && Spares(n, racks, row)
    ensures var all, current := RacksByReplica(racks, row), RacksBySlot(racks, row);
      Protects(n, all, row, slot, current, racks)
      <==> || Shared(racks, row, slot) || |row| == 1
           || (OthersSeen(all, slot, current) && NoStranger(n, all, row, current, racks))
  {
    var all, current := RacksByReplica(racks, row), RacksBySlot(racks, row);
    BySlotProtectsExactly(n, racks, row, slot);
    if OthersSeen(all, slot, current) && NoStranger(n, all, row, current, racks) {
      SeenIsNotMisled(n, racks, row, slot, current);
    } else if r :| r in Others(all, slot) && r !in current {
      MissedRackMisleads(n, racks, row, slot, current, r);
    } else if |row| > 1 {
      var r :| r in current && SpareOn(n, racks, row, r) && r !in all;
      StrangerMisleads(n, racks, row, slot, current, r);
    } else {
      assert Others(all, slot) == [];
    }
  }

  /** As written, a rack is given up although broker 5 would have kept it. */
  lemma BySlotLosesARack()
    ensures var racks := map[1 := "a", 2 := "b", 3 := "c", 4 := "c", 5 := "b"];
      var bs := [BrokerInfo(4, 0, "c", -1), BrokerInfo(5, 0, "b", -1)];
      && UnderLoaded(5, racks, bs)
      && !Prefers(RacksByReplica(racks, [2, 3]), [2, 3], 0, RacksBySlot(racks, [2, 3]), bs)
  {
    var racks := map[1 := "a", 2 := "b", 3 := "c", 4 := "c", 5 := "b"];
    var byReplica, bySlot := RacksByReplica(racks, [2, 3]), RacksBySlot(racks, [2, 3]);
    assert byReplica == ["b", "c"] && bySlot == ["", "a"];
    assert Others(byReplica, 0) == ["c"];
    PairIsUnderLoaded(5, racks, 4, 5);
    MisleadingPair(byReplica, [2, 3], 0, bySlot, racks, 4, 5);
  }
}
