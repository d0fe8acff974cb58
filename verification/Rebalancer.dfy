/**
 The rebalancer itself: it sorts the broker list, splits it at the first negative skew, picks a
 source and a target and updates the list and the assignment in place. Its run is proved to be a
 run of the rule in module `Rebalance`.
 */
module Rebalancer {
  import opened Rounding
  import opened Rebalance

  datatype BrokerInfo = BrokerInfo(id: int, count: int, rack: string, skew: int)

  function SumCounts(bs: seq<BrokerInfo>): int {
    if bs == [] then 0 else bs[0].count + SumCounts(bs[1..])
  }

  lemma {:induction false} SumCountsConcat(a: seq<BrokerInfo>, b: seq<BrokerInfo>)
    ensures SumCounts(a + b) == SumCounts(a) + SumCounts(b)
  {
    if a == [] {
      assert a + b == b;
    } else {
      assert (a + b)[1..] == a[1..] + b;
      SumCountsConcat(a[1..], b);
    }
  }

  ghost predicate DistinctIds(bs: seq<BrokerInfo>) {
    forall i, j :: 0 <= i < j < |bs| ==> bs[i].id != bs[j].id
  }

  /** `r` is `bs` in another order (ids are distinct, so equal membership is a permutation). */
  ghost predicate Reordered(bs: seq<BrokerInfo>, r: seq<BrokerInfo>) {
    && |r| == |bs| && DistinctIds(r)
    && (forall b :: b in r <==> b in bs)
    && SumCounts(r) == SumCounts(bs)
  }

  /** The comparison handed to the sort: larger skews first, or smaller ones first. */
  predicate InOrder(a: BrokerInfo, b: BrokerInfo, descending: bool) {
    if descending then a.skew >= b.skew else a.skew <= b.skew
  }

  ghost predicate SortedBySkew(bs: seq<BrokerInfo>, descending: bool) {
    forall i, j :: 0 <= i < j < |bs| ==> InOrder(bs[i], bs[j], descending)
  }

  /** `r` with `b` put in at position `k`. */
  function InsertedAt(r: seq<BrokerInfo>, k: nat, b: BrokerInfo): (q: seq<BrokerInfo>)
    requires k <= |r|
    ensures |q| == |r| + 1 && q[k] == b
    ensures forall i | 0 <= i < k :: q[i] == r[i]
    ensures forall i | k < i < |q| :: q[i] == r[i - 1]
    ensures forall x :: x in q <==> x == b || x in r
  {
    var q := r[..k] + [b] + r[k..];
    assert r == r[..k] + r[k..];
    q
  }

  lemma InsertedSum(r: seq<BrokerInfo>, k: nat, b: BrokerInfo)
    requires k <= |r|
    ensures SumCounts(InsertedAt(r, k, b)) == SumCounts(r) + b.count
    decreases k
  {
    var q := InsertedAt(r, k, b);
    if k == 0 {
      assert q[1..] == r;
    } else {
      assert q[1..] == InsertedAt(r[1..], k - 1, b);
      InsertedSum(r[1..], k - 1, b);
    }
  }

  lemma InsertedDistinct(r: seq<BrokerInfo>, k: nat, b: BrokerInfo)
    requires k <= |r| && DistinctIds(r) && forall x | x in r :: x.id != b.id
    ensures DistinctIds(InsertedAt(r, k, b))
  {
  }

  lemma InsertedSorted(r: seq<BrokerInfo>, k: nat, b: BrokerInfo, descending: bool)
    requires k <= |r| && SortedBySkew(r, descending)
    requires k > 0 ==> InOrder(r[k - 1], b, descending)
    requires forall i | k <= i < |r| :: InOrder(b, r[i], descending)
    ensures SortedBySkew(InsertedAt(r, k, b), descending)
  {
    forall i | 0 <= i < k ensures InOrder(r[i], b, descending) {
      if i < k - 1 {
        assert InOrder(r[i], r[k - 1], descending);
      }
    }
  }

  method Insert(r: seq<BrokerInfo>, b: BrokerInfo, descending: bool) returns (q: seq<BrokerInfo>)
    requires DistinctIds(r) && SortedBySkew(r, descending) && forall x | x in r :: x.id != b.id
    ensures SortedBySkew(q, descending)
    ensures |q| == |r| + 1 && DistinctIds(q) && (forall x :: x in q <==> x == b || x in r)
    ensures SumCounts(q) == SumCounts(r) + b.count
  {
    var k := |r|;
    while k > 0 && !InOrder(r[k - 1], b, descending)
      invariant 0 <= k <= |r|
      invariant forall i | k <= i < |r| :: InOrder(b, r[i], descending)
    {
      k := k - 1;
    }
    q := InsertedAt(r, k, b);
    InsertedSum(r, k, b);
    InsertedDistinct(r, k, b);
    InsertedSorted(r, k, b, descending);
  }

  method SortBySkew(bs: seq<BrokerInfo>, descending: bool) returns (r: seq<BrokerInfo>)
    requires DistinctIds(bs)
    ensures SortedBySkew(r, descending) && Reordered(bs, r)
  {
    r := [];
    for i := 0 to |bs|
      invariant SortedBySkew(r, descending) && Reordered(bs[..i], r)
    {
      assert bs[..i + 1] == bs[..i] + [bs[i]];
      SumCountsConcat(bs[..i], [bs[i]]);
      r := Insert(r, bs[i], descending);
    }
    assert bs[..|bs|] == bs;
  }

  // ----- choosing the source -----

  /** The first over-loaded broker in the partition, with its first slot, or -1. */
  method CalcBrokerWithMostPartitionsToSwap(most: seq<BrokerInfo>, row: seq<int>) returns (k: int, slot: int)
    ensures k == -1 ==> slot == -1 && forall b | b in most :: b.id !in row
    ensures k != -1 ==> 0 <= k < |most| && 0 <= slot < |row| && row[slot] == most[k].id
    ensures k != -1 ==> row[slot] !in row[..slot] && forall j | 0 <= j < k :: most[j].id !in row
  {
    for i := 0 to |most|
      invariant forall j | 0 <= j < i :: most[j].id !in row
    {
      for idx := 0 to |row|
        invariant most[i].id !in row[..idx]
      {
        if most[i].id == row[idx] {
          return i, idx;
        }
      }
    }
    return -1, -1;
  }

  // ----- choosing the target -----

  /** The three passes over the under-loaded brokers. */
  datatype Pass = Fresh | SameRack | Any

  predicate Fits(pass: Pass, current: seq<string>, replaced: string, rack: string) {
    match pass
    case Fresh => rack !in current
    case SameRack => rack == replaced
    case Any => true
  }

  predicate Admits(pass: Pass, row: seq<int>, current: seq<string>, replaced: string, b: BrokerInfo) {
    b.id !in row && Fits(pass, current, replaced, b.rack)
  }

  /** Position of the first broker outside the partition that fits, or -1. */
  function FirstFit(bs: seq<BrokerInfo>, row: seq<int>, pass: Pass, current: seq<string>, replaced: string): (k: int)
    ensures k == -1 ==> forall b | b in bs :: !Admits(pass, row, current, replaced, b)
    ensures k != -1 ==> 0 <= k < |bs| && Admits(pass, row, current, replaced, bs[k])
    ensures k != -1 ==> forall j | 0 <= j < k :: !Admits(pass, row, current, replaced, bs[j])
  {
    if bs == [] then -1
    else if Admits(pass, row, current, replaced, bs[0]) then 0
    else
      var k := FirstFit(bs[1..], row, pass, current, replaced);
      if k == -1 then -1 else k + 1
  }

  function PickTarget(racksEnabled: bool, bs: seq<BrokerInfo>, row: seq<int>, current: seq<string>,
                      replaced: string): (k: int)
    ensures k == -1 || 0 <= k < |bs|
  {
    var unused := if racksEnabled then FirstFit(bs, row, Fresh, current, replaced) else -1;
    if unused != -1 then unused
    else
      var same := if racksEnabled then FirstFit(bs, row, SameRack, current, replaced) else -1;
      if same != -1 then same else FirstFit(bs, row, Any, current, replaced)
  }

  method FindFit(bs: seq<BrokerInfo>, row: seq<int>, pass: Pass, current: seq<string>, replaced: string)
    returns (k: int)
    ensures k == FirstFit(bs, row, pass, current, replaced)
  {
    for i := 0 to |bs|
      invariant forall j | 0 <= j < i :: !Admits(pass, row, current, replaced, bs[j])
    {
      if Admits(pass, row, current, replaced, bs[i]) {
        return i;
      }
    }
    return -1;
  }

  method CalcBrokerWithLeastPartitionsToSwap(c: Config, least: seq<BrokerInfo>, row: seq<int>, source: int)
    returns (k: int)
    ensures k == PickTarget(c.racksEnabled, least, row, RacksBySlot(c.racks, row), RackOf(c.racks, source))
  {
    var current, replaced := RacksBySlot(c.racks, row), RackOf(c.racks, source);
    if c.racksEnabled {
      k := FindFit(least, row, Fresh, current, replaced);
      if k != -1 {
        return;
      }
      k := FindFit(least, row, SameRack, current, replaced);
      if k != -1 {
        return;
      }
    }
    k := FindFit(least, row, Any, current, replaced);
  }

  /** On a list sorted by skew the three passes find the broker of least (rank, skew), or none exists. */
  lemma PickIsBest(c: Config, least: seq<BrokerInfo>, row: seq<int>, source: int, k: int)
    requires SortedBySkew(least, false)
    requires k == PickTarget(c.racksEnabled, least, row, RacksBySlot(c.racks, row), RackOf(c.racks, source))
    ensures k == -1 ==> forall b | b in least :: b.id in row
    ensures k != -1 ==> 0 <= k < |least| && least[k].id !in row
    ensures k != -1 ==> forall b | b in least && b.id !in row ::
      var mine, other := Rank(c, row, source, least[k].rack), Rank(c, row, source, b.rack);
      mine < other || (mine == other && least[k].skew <= b.skew)
  {
    var current, replaced := RacksBySlot(c.racks, row), RackOf(c.racks, source);
    if k != -1 {
      forall b | b in least && b.id !in row
        ensures Rank(c, row, source, least[k].rack) < Rank(c, row, source, b.rack)
             || (Rank(c, row, source, least[k].rack) == Rank(c, row, source, b.rack) && least[k].skew <= b.skew)
      {
        var j :| 0 <= j < |least| && least[j] == b;
        assert !c.racksEnabled || Fits(Fresh, current, replaced, b.rack) == (Rank(c, row, source, b.rack) == 0);
        if k < j {
          assert InOrder(least[k], least[j], false);
        }
      }
    } else {
      forall b | b in least ensures b.id in row {
        assert !Admits(Any, row, current, replaced, b);
      }
    }
  }

  // ----- the list of brokers and the tally it represents -----

  ghost predicate HasId(bs: seq<BrokerInfo>, id: int) {
    exists b :: b in bs && b.id == id
  }

  /** The list holds every tracked broker once, with its rack and its count in `t`. */
  ghost predicate Represents(c: Config, bs: seq<BrokerInfo>, t: seq<int>) {
    && |bs| == |t| == c.n && DistinctIds(bs)
    && (forall b | b in bs :: Tracked(c, b.id) && b.count == t[b.id - 1] && b.rack == RackOf(c.racks, b.id))
    && (forall id | Tracked(c, id) :: HasId(bs, id))
    && SumCounts(bs) == Sum(t)
  }

  lemma ReorderingRepresents(c: Config, bs: seq<BrokerInfo>, r: seq<BrokerInfo>, t: seq<int>)
    requires Represents(c, bs, t) && Reordered(bs, r)
    ensures Represents(c, r, t)
  {
    forall id | Tracked(c, id) ensures HasId(r, id) {
      var b :| b in bs && b.id == id;
      assert b in r;
    }
  }

  /** `r` differs from `bs` in skews only. */
  ghost predicate SameButSkew(bs: seq<BrokerInfo>, r: seq<BrokerInfo>) {
    |r| == |bs| && forall i | 0 <= i < |bs| :: r[i] == bs[i].(skew := r[i].skew)
  }

  lemma {:induction false} SameCounts(bs: seq<BrokerInfo>, r: seq<BrokerInfo>)
    requires SameButSkew(bs, r)
    ensures SumCounts(r) == SumCounts(bs)
  {
    if bs != [] {
      SameCounts(bs[1..], r[1..]);
    }
  }

  lemma SkewsRepresent(c: Config, bs: seq<BrokerInfo>, r: seq<BrokerInfo>, t: seq<int>)
    requires Represents(c, bs, t) && SameButSkew(bs, r)
    ensures Represents(c, r, t)
  {
    SameCounts(bs, r);
    forall id | Tracked(c, id) ensures HasId(r, id) {
      var b :| b in bs && b.id == id;
      var i :| 0 <= i < |bs| && bs[i] == b;
      assert r[i] in r && r[i].id == id;
    }
  }

  /** The list after one replica moved from `source` to `target`. */
  ghost predicate Transferred(bs: seq<BrokerInfo>, r: seq<BrokerInfo>, source: int, target: int) {
    |r| == |bs| && forall i | 0 <= i < |bs| :: r[i] == bs[i].(count := bs[i].count + Change(bs[i].id, source, target))
  }

  function Change(id: int, source: int, target: int): int {
    if id == source then -1 else if id == target then 1 else 0
  }

  /** With distinct ids the total changes by the changes of the ids that are present. */
  lemma {:induction false} TransferSum(bs: seq<BrokerInfo>, r: seq<BrokerInfo>, source: int, target: int)
    requires Transferred(bs, r, source, target) && DistinctIds(bs) && source != target
    ensures SumCounts(r) == SumCounts(bs) - Indicator(HasId(bs, source)) + Indicator(HasId(bs, target))
  {
    if bs != [] {
      TransferSum(bs[1..], r[1..], source, target);
      HasIdSplit(bs, source);
      HasIdSplit(bs, target);
    }
  }

  lemma HasIdSplit(bs: seq<BrokerInfo>, id: int)
    requires bs != [] && DistinctIds(bs)
    ensures HasId(bs, id) <==> bs[0].id == id || HasId(bs[1..], id)
    ensures bs[0].id == id ==> !HasId(bs[1..], id)
  {
    if HasId(bs, id) && bs[0].id != id {
      var b :| b in bs && b.id == id;
      assert b in bs[1..];
    }
    if HasId(bs[1..], id) {
      var b :| b in bs[1..] && b.id == id;
      assert b in bs;
    }
  }

  lemma TransferKeepsIds(c: Config, bs: seq<BrokerInfo>, r: seq<BrokerInfo>, source: int, target: int, id: int)
    requires Transferred(bs, r, source, target) && HasId(bs, id)
    ensures HasId(r, id)
  {
    var b :| b in bs && b.id == id;
    var i :| 0 <= i < |bs| && bs[i] == b;
    assert r[i] in r && r[i].id == id;
  }

  lemma TransferCounts(c: Config, bs: seq<BrokerInfo>, r: seq<BrokerInfo>, t: seq<int>, source: int, target: int,
                       b: BrokerInfo)
    requires Represents(c, bs, t) && Transferred(bs, r, source, target)
    requires Tracked(c, source) && Tracked(c, target) && source != target && b in r
    ensures Tracked(c, b.id) && b.count == Shift(t, source, target)[b.id - 1] && b.rack == RackOf(c.racks, b.id)
  {
    var i :| 0 <= i < |r| && r[i] == b;
    assert bs[i] in bs;
  }

  lemma TransferRepresents(c: Config, bs: seq<BrokerInfo>, r: seq<BrokerInfo>, t: seq<int>, source: int, target: int)
    requires Represents(c, bs, t) && Transferred(bs, r, source, target)
    requires Tracked(c, source) && Tracked(c, target) && t[source - 1] > t[target - 1]
    ensures Represents(c, r, Shift(t, source, target))
  {
    assert HasId(bs, source) && HasId(bs, target);
    TransferSum(bs, r, source, target);
    ShiftKeepsSum(t, source, target);
    forall id | Tracked(c, id) ensures HasId(r, id) {
      TransferKeepsIds(c, bs, r, source, target, id);
    }
    forall b | b in r
      ensures Tracked(c, b.id) && b.count == Shift(t, source, target)[b.id - 1] && b.rack == RackOf(c.racks, b.id)
    {
      TransferCounts(c, bs, r, t, source, target, b);
    }
  }

  // ----- the decision at one partition -----

  /** The list is sorted by descending current skews. */
  ghost predicate Ranked(c: Config, bs: seq<BrokerInfo>, t: seq<int>) {
    && Represents(c, bs, t) && SortedBySkew(bs, true)
    && forall b | b in bs :: b.skew == Skew(c, t, b.id)
  }

  /** The split at the first negative skew: over-loaded brokers in order, under-loaded ones re-sorted. */
  ghost predicate Split(bs: seq<BrokerInfo>, most: seq<BrokerInfo>, least: seq<BrokerInfo>) {
    && SortedBySkew(most, true) && SortedBySkew(least, false)
    && (forall b :: b in most <==> b in bs && b.skew >= 0)
    && (forall b :: b in least <==> b in bs && b.skew < 0)
  }

  lemma SourceIsBest(c: Config, bs: seq<BrokerInfo>, t: seq<int>, most: seq<BrokerInfo>, row: seq<int>, k: nat)
    requires Ranked(c, bs, t) && SortedBySkew(most, true)
    requires forall b :: b in most <==> b in bs && b.skew >= 0
    requires k < |most| && most[k].id in row && forall j | 0 <= j < k :: most[j].id !in row
    ensures BestSource(c, t, row, most[k].id)
  {
    forall o | Over(c, t, row, o) ensures Skew(c, t, o) <= Skew(c, t, most[k].id) {
      var b :| b in bs && b.id == o;
      assert b in most;
      var j :| 0 <= j < |most| && most[j] == b;
      assert j >= k;
      if j > k {
        assert InOrder(most[k], most[j], true);
      }
    }
  }

  lemma NoSource(c: Config, bs: seq<BrokerInfo>, t: seq<int>, row: seq<int>)
    requires Ranked(c, bs, t)
    requires forall b | b in bs && b.skew >= 0 :: b.id !in row
    ensures forall o :: !Over(c, t, row, o)
  {
    forall o | Tracked(c, o) && o in row ensures Skew(c, t, o) < 0 {
      var b :| b in bs && b.id == o;
    }
  }

  lemma NoTarget(c: Config, bs: seq<BrokerInfo>, t: seq<int>, row: seq<int>)
    requires Ranked(c, bs, t)
    requires forall b | b in bs && b.skew < 0 :: b.id in row
    ensures forall e :: !Eligible(c, t, row, e)
  {
    forall e | Tracked(c, e) && e !in row ensures Skew(c, t, e) >= 0 {
      var b :| b in bs && b.id == e;
    }
  }

  lemma TargetIsBest(c: Config, bs: seq<BrokerInfo>, t: seq<int>, least: seq<BrokerInfo>, row: seq<int>, source: int,
                     k: int)
    requires Ranked(c, bs, t) && SortedBySkew(least, false)
    requires forall b :: b in least <==> b in bs && b.skew < 0
    requires k == PickTarget(c.racksEnabled, least, row, RacksBySlot(c.racks, row), RackOf(c.racks, source))
    requires k != -1
    ensures BestTarget(c, t, row, source, least[k].id)
  {
    PickIsBest(c, least, row, source, k);
    assert least[k] in least;
    forall e | Eligible(c, t, row, e)
      ensures var mine := Rank(c, row, source, RackOf(c.racks, least[k].id));
        var other := Rank(c, row, source, RackOf(c.racks, e));
        mine < other || (mine == other && Skew(c, t, least[k].id) <= Skew(c, t, e))
    {
      var b :| b in bs && b.id == e;
      assert b in least;
    }
  }

  lemma SplitAt(bs: seq<BrokerInfo>, k: nat, least: seq<BrokerInfo>)
    requires SortedBySkew(bs, true) && k <= |bs|
    requires forall i | 0 <= i < k :: bs[i].skew >= 0
    requires k < |bs| ==> bs[k].skew < 0
    requires SortedBySkew(least, false) && forall b :: b in least <==> b in bs[k..]
    ensures Split(bs, bs[..k], least)
  {
    forall i | k <= i < |bs| ensures bs[i].skew < 0 {
      if i > k {
        assert InOrder(bs[k], bs[i], true);
      }
    }
  }

  method PrepareBrokersWithMostAndLeastPartitions(bs: seq<BrokerInfo>)
    returns (most: seq<BrokerInfo>, least: seq<BrokerInfo>)
    requires SortedBySkew(bs, true) && DistinctIds(bs)
    ensures Split(bs, most, least) && DistinctIds(least)
  {
    var threshold := 0;
    while threshold < |bs| && bs[threshold].skew >= 0
      invariant threshold <= |bs|
      invariant forall i | 0 <= i < threshold :: bs[i].skew >= 0
    {
      threshold := threshold + 1;
    }
    most := bs[..threshold];
    least := SortBySkew(bs[threshold..], false);
    SplitAt(bs, threshold, least);
  }

  /** The slot and the target to use for one partition, or `None` when there is no source or no target. */
  datatype Decision = None | Swap(slot: nat, target: int)

  ghost predicate Right(c: Config, t: seq<int>, row: seq<int>, d: Decision)
    requires |t| == c.n
  {
    match d
    case None => (forall o :: !Over(c, t, row, o)) || (forall e :: !Eligible(c, t, row, e))
    case Swap(slot, target) =>
      && slot < |row| && row[slot] !in row[..slot]
      && BestSource(c, t, row, row[slot]) && BestTarget(c, t, row, row[slot], target)
  }

  method Decide(c: Config, bs: seq<BrokerInfo>, ghost t: seq<int>, row: seq<int>) returns (d: Decision)
    requires Ranked(c, bs, t)
    ensures Right(c, t, row, d)
  {
    var most, least := PrepareBrokersWithMostAndLeastPartitions(bs);
    var k, slot := CalcBrokerWithMostPartitionsToSwap(most, row);
    if k == -1 {
      NoSource(c, bs, t, row);
      return None;
    }
    SourceIsBest(c, bs, t, most, row, k);
    var j := CalcBrokerWithLeastPartitionsToSwap(c, least, row, row[slot]);
    if j == -1 {
      PickIsBest(c, least, row, row[slot], j);
      NoTarget(c, bs, t, row);
      return None;
    }
    TargetIsBest(c, bs, t, least, row, row[slot], j);
    d := Swap(slot, least[j].id);
  }

  function Apply(c: Config, s: State, p: nat, d: Decision): State
    requires |s.tally| == c.n && p < |s.matrix|
    requires d.Swap? ==> d.slot < |s.matrix[p]| && Tracked(c, s.matrix[p][d.slot]) && Tracked(c, d.target)
  {
    match d
    case None => s
    case Swap(slot, target) => Outcome(c, s, p, slot, target)
  }

  /** Carrying out a right decision is a step of the rule. */
  lemma DecisionIsStep(c: Config, s: State, p: nat, d: Decision)
    requires |s.tally| == c.n && p < |s.matrix| && Right(c, s.tally, s.matrix[p], d)
    ensures Step(c, s, Apply(c, s, p, d), p)
    ensures d.Swap? ==> Downhill(c, s, p, d.slot, d.target)
  {
    match d
    case None =>
    case Swap(slot, target) =>
      assert Over(c, s.tally, s.matrix[p], s.matrix[p][slot]);
      assert Eligible(c, s.tally, s.matrix[p], target);
      assert Choice(c, s, p, slot, target);
      ChoicesGoDownhill(c, s, p, slot, target);
  }

  method TotalCount(bs: seq<BrokerInfo>) returns (sum: int)
    ensures sum == SumCounts(bs)
  {
    sum := 0;
    for i := 0 to |bs|
      invariant sum == SumCounts(bs[..i])
    {
      assert bs[..i + 1] == bs[..i] + [bs[i]];
      SumCountsConcat(bs[..i], [bs[i]]);
      sum := sum + bs[i].count;
    }
    assert bs[..|bs|] == bs;
  }

  method WithSkews(c: Config, bs: seq<BrokerInfo>, sum: int) returns (r: seq<BrokerInfo>)
    ensures SameButSkew(bs, r)
    ensures forall b | b in r :: b.skew == SkewOf(c.fl, b.count, sum, c.n, c.global)
  {
    r := [];
    for i := 0 to |bs|
      invariant |r| == i
      invariant forall j | 0 <= j < i :: r[j] == bs[j].(skew := SkewOf(c.fl, bs[j].count, sum, c.n, c.global))
    {
      r := r + [bs[i].(skew := SkewOf(c.fl, bs[i].count, sum, c.n, c.global))];
    }
  }

  // ----- the run -----

  lemma RunExtends(c: Config, trace: seq<State>, s: State)
    requires Run(c, trace) && Step(c, trace[|trace| - 1], s, |trace| - 1)
    ensures Run(c, trace + [s]) && |s.matrix| == |trace[|trace| - 1].matrix|
  {
    var longer := trace + [s];
    forall p | 0 <= p < |longer| - 1 ensures Step(c, longer[p], longer[p + 1], p) {
      if p < |trace| - 1 {
        assert Step(c, trace[p], trace[p + 1], p);
      }
    }
    StepsGoDownhill(c, trace[|trace| - 1], s, |trace| - 1);
    StepReplacesOne(c, trace[|trace| - 1], s, |trace| - 1);
  }

  class Rebalancer {
    const c: Config
    var brokersInfo: seq<BrokerInfo>
    var newReplicaAssignment: seq<seq<int>>
    ghost var tally: seq<int>

    ghost predicate Valid()
      reads this
    {
      Represents(c, brokersInfo, tally)
    }

    /** The broker list counted from the leaders in the topic metadata. */
    constructor (newBrokersCount: nat, leaders: seq<int>, replicationFactor: nat,
                 racksEnabled: bool, racks: map<int, string>, fl: Float)
      ensures c == Config(newBrokersCount, |leaders|, replicationFactor, racksEnabled, racks, fl)
      ensures Valid() && newReplicaAssignment == []
      ensures tally == seq(newBrokersCount, i => multiset(leaders)[i + 1])
      ensures Between(tally, 0, c.global)
    {
      var cfg := Config(newBrokersCount, |leaders|, replicationFactor, racksEnabled, racks, fl);
      var counts: map<int, int> := map[];
      for i := 0 to |leaders|
        invariant forall id :: CountOf(counts, id) == multiset(leaders[..i])[id]
      {
        assert leaders[..i + 1] == leaders[..i] + [leaders[i]];
        counts := counts[leaders[i] := CountOf(counts, leaders[i]) + 1];
      }
      assert leaders[..|leaders|] == leaders;
      var infos: seq<BrokerInfo> := [];
      ghost var t: seq<int> := [];
      for id := 1 to newBrokersCount + 1
        invariant |infos| == |t| == id - 1
        invariant forall i | 0 <= i < id - 1 ::
          infos[i] == BrokerInfo(i + 1, t[i], RackOf(racks, i + 1), 0) && t[i] == multiset(leaders)[i + 1]
        invariant SumCounts(infos) == Sum(t)
      {
        var info := BrokerInfo(id, CountOf(counts, id), RackOf(racks, id), 0);
        SumCountsConcat(infos, [info]);
        SumAppend(t, info.count);
        infos := infos + [info];
        t := t + [info.count];
      }
      forall id | Tracked(cfg, id) ensures HasId(infos, id) {
        assert infos[id - 1] in infos;
      }
      c := cfg;
      brokersInfo := infos;
      tally := t;
      newReplicaAssignment := [];
    }

    method CalculateBrokersSkew()
      requires Valid()
      modifies `brokersInfo
      ensures Valid() && SameButSkew(old(brokersInfo), brokersInfo)
      ensures forall b | b in brokersInfo :: b.skew == Skew(c, tally, b.id)
    {
      var sum := TotalCount(brokersInfo);
      var r := WithSkews(c, brokersInfo, sum);
      SkewsRepresent(c, brokersInfo, r, tally);
      brokersInfo := r;
    }

    /** Recomputes the skews and sorts the list by them. */
    method RankBrokers()
      requires Valid()
      modifies `brokersInfo
      ensures Ranked(c, brokersInfo, tally)
    {
      CalculateBrokersSkew();
      var sorted := SortBySkew(brokersInfo, true);
      ReorderingRepresents(c, brokersInfo, sorted, tally);
      brokersInfo := sorted;
    }

    method UpdateBrokersInfo(source: int, target: int)
      modifies `brokersInfo
      ensures Transferred(old(brokersInfo), brokersInfo, source, target)
    {
      var bs := brokersInfo;
      var r: seq<BrokerInfo> := [];
      for i := 0 to |bs|
        invariant |r| == i
        invariant forall j | 0 <= j < i :: r[j] == bs[j].(count := bs[j].count + Change(bs[j].id, source, target))
      {
        r := r + [bs[i].(count := bs[i].count + Change(bs[i].id, source, target))];
      }
      brokersInfo := r;
    }

    /** Copies the first `replicationFactor` replicas of every partition. */
    method CopyCurrentReplicaAssignment(replicaAssignment: seq<seq<int>>)
      requires forall p | 0 <= p < |replicaAssignment| :: c.replicationFactor <= |replicaAssignment[p]|
      modifies `newReplicaAssignment
      ensures |newReplicaAssignment| == |replicaAssignment|
      ensures forall p | 0 <= p < |replicaAssignment| ::
        newReplicaAssignment[p] == replicaAssignment[p][..c.replicationFactor]
    {
      newReplicaAssignment := [];
      for p := 0 to |replicaAssignment|
        invariant |newReplicaAssignment| == p
        invariant forall q | 0 <= q < p :: newReplicaAssignment[q] == replicaAssignment[q][..c.replicationFactor]
      {
        newReplicaAssignment := newReplicaAssignment + [replicaAssignment[p][..c.replicationFactor]];
      }
    }

    /** Writes one swap into the assignment and the broker list. */
    method ApplySwap(p: nat, slot: nat, target: int)
      requires Valid() && Downhill(c, State(tally, newReplicaAssignment, 0), p, slot, target)
      modifies `brokersInfo, `newReplicaAssignment, `tally
      ensures Valid()
      ensures newReplicaAssignment == old(newReplicaAssignment)[p := old(newReplicaAssignment)[p][slot := target]]
      ensures tally == Shift(old(tally), old(newReplicaAssignment)[p][slot], target)
    {
      var row := newReplicaAssignment[p];
      ghost var before := brokersInfo;
      newReplicaAssignment := newReplicaAssignment[p := row[slot := target]];
      UpdateBrokersInfo(row[slot], target);
      TransferRepresents(c, before, brokersInfo, tally, row[slot], target);
      tally := Shift(tally, row[slot], target);
    }

    /** Visits partition `p`, as the rule demands. */
    method VisitPartition(p: nat, previous: int) returns (next: int)
      requires Valid() && p < |newReplicaAssignment|
      modifies `brokersInfo, `newReplicaAssignment, `tally
      ensures Valid()
      ensures Step(c, State(old(tally), old(newReplicaAssignment), previous),
                   State(tally, newReplicaAssignment, next), p)
    {
      RankBrokers();
      var row := newReplicaAssignment[p];
      var d := Decide(c, brokersInfo, tally, row);
      ghost var s := State(tally, newReplicaAssignment, previous);
      DecisionIsStep(c, s, p, d);
      if d == None {
        next := previous;
      } else if c.replicationFactor == 1 && previous == d.target {
        next := -1;
      } else {
        next := d.target;
        ApplySwap(p, d.slot, d.target);
      }
      assert State(tally, newReplicaAssignment, next) == Apply(c, s, p, d);
    }

    /** The whole topic: the states before and after each partition form a run of the rule. */
    method ReassignPartitionsForTopic(replicaAssignment: seq<seq<int>>) returns (ghost trace: seq<State>)
      requires Valid()
      requires forall p | 0 <= p < |replicaAssignment| :: c.replicationFactor <= |replicaAssignment[p]|
      modifies this
      ensures Valid()
      ensures Run(c, trace) && |trace| == |replicaAssignment| + 1
      ensures trace[0].tally == old(tally) && |trace[0].matrix| == |replicaAssignment|
      ensures forall p | 0 <= p < |replicaAssignment| ::
        trace[0].matrix[p] == replicaAssignment[p][..c.replicationFactor]
      ensures trace[|replicaAssignment|].tally == tally
      ensures trace[|replicaAssignment|].matrix == newReplicaAssignment
    {
      CopyCurrentReplicaAssignment(replicaAssignment);
      var previous := -1;
      trace := [State(tally, newReplicaAssignment, previous)];
      for p := 0 to |replicaAssignment|
        invariant Valid() && |newReplicaAssignment| == |replicaAssignment|
        invariant Run(c, trace) && |trace| == p + 1
        invariant trace[0].tally == old(tally) && |trace[0].matrix| == |replicaAssignment|
        invariant forall q | 0 <= q < |replicaAssignment| ::
          trace[0].matrix[q] == replicaAssignment[q][..c.replicationFactor]
        invariant trace[p] == State(tally, newReplicaAssignment, previous)
      {
        previous := VisitPartition(p, previous);
        RunExtends(c, trace, State(tally, newReplicaAssignment, previous));
        trace := trace + [State(tally, newReplicaAssignment, previous)];
      }
    }
  }

  function CountOf(counts: map<int, int>, id: int): int {
    if id in counts then counts[id] else 0
  }

  lemma {:induction false} SumAppend(t: seq<int>, x: int)
    ensures Sum(t + [x]) == Sum(t) + x
  {
    if t == [] {
      assert t + [x] == [x];
    } else {
      assert (t + [x])[1..] == t[1..] + [x];
      SumAppend(t[1..], x);
    }
  }
}
