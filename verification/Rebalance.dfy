/**
 The allocation rule of the partition rebalancer: what one pass over the partitions of a
 topic may do to the assignment matrix and to the per-broker tally, and what every run keeps.

 Broker ids are 1..n; `tally[id - 1]` is the tracked count of broker `id`.
 */
module Rebalance {
  import opened Rounding

  /** The inputs one run does not change, and the arithmetic it uses. */
  datatype Config = Config(n: nat, global: nat, replicationFactor: nat,
                           racksEnabled: bool, racks: map<int, string>, fl: Float)

  datatype State = State(tally: seq<int>, matrix: seq<seq<int>>, previous: int)

  // ----- skew -----

  function Average(fl: Float, sum: int, n: nat): real {
    if n == 0 then 0.0 else RoundTo2Decimals(fl, fl(sum as real / n as real))
  }

  function MaxSkew(fl: Float, sum: int, n: nat, global: nat): real {
    var avg := Average(fl, sum, n);
    var room := fl(global as real - avg);
    if room < avg then avg else room
  }

  /** A difference as a percentage of the largest one. */
  function Share(fl: Float, diff: real, max: real): int {
    if diff == 0.0 || max == 0.0 then 0 else Percentage(fl, fl(diff / max))
  }

  /** The rounded percentage by which a count exceeds the rounded average. */
  function SkewOf(fl: Float, count: int, sum: int, n: nat, global: nat): int {
    Share(fl, fl(count as real - Average(fl, sum, n)), MaxSkew(fl, sum, n, global))
  }

  lemma AverageIsAFloat(fl: Float, sum: int, n: nat)
    ensures fl(Average(fl, sum, n)) == Average(fl, sum, n)
  {
    WholeStays(fl, 0);
    if n > 0 {
      KeepsFloats(fl, Round(fl(fl(sum as real / n as real) * 100.0)) as real / 100.0);
    }
  }

  lemma RoomIsNotNegative(fl: Float, avg: real, global: nat)
    requires avg < 0.0
    ensures fl(global as real - avg) >= 0.0
  {
    WholeStays(fl, 0);
    KeepsOrder(fl, 0.0, global as real - avg);
  }

  lemma MaxSkewIsNotNegative(fl: Float, sum: int, n: nat, global: nat)
    ensures MaxSkew(fl, sum, n, global) >= 0.0
  {
    var avg := Average(fl, sum, n);
    if avg < 0.0 {
      RoomIsNotNegative(fl, avg, global);
    }
  }

  lemma ShareIsMonotone(fl: Float, x: real, y: real, max: real)
    requires x <= y && max >= 0.0
    ensures Share(fl, x, max) <= Share(fl, y, max)
  {
    if max > 0.0 {
      SharesAreOrdered(x, y, max);
      KeepsOrder(fl, x / max, y / max);
      PercentageIsMonotone(fl, fl(x / max), fl(y / max));
      ShareOfNothing(fl, max);
    }
  }

  lemma ShareOfNothing(fl: Float, max: real)
    requires max > 0.0
    ensures Percentage(fl, fl(0.0 / max)) == 0
  {
    assert 0.0 / max == 0.0;
    WholeStays(fl, 0);
    PercentageOfWhole(fl, 0);
  }

  lemma ShareIsInside(x: real, max: real)
    requires max > 0.0 && -max <= x <= max
    ensures -1.0 <= x / max <= 1.0
  {
    SharesAreOrdered(x, max, max);
    SharesAreOrdered(-1.0 * max, x, max);
    WholeShare(1.0, max);
    WholeShare(-1.0, max);
  }

  lemma WholeShare(k: real, max: real)
    requires max > 0.0
    ensures k * max / max == k
  {
  }

  lemma SharesAreOrdered(x: real, y: real, max: real)
    requires max > 0.0 && x <= y
    ensures x / max <= y / max
  {
  }

  lemma ShareIsWithin100(fl: Float, x: real, max: real)
    requires max >= 0.0 && -max <= x <= max
    ensures -100 <= Share(fl, x, max) <= 100
  {
    if max > 0.0 {
      ShareIsInside(x, max);
      WholeStays(fl, 1);
      WholeStays(fl, -1);
      KeepsOrder(fl, x / max, 1.0);
      KeepsOrder(fl, -1.0, x / max);
      PercentageIsWithin100(fl, fl(x / max));
    }
  }

  lemma SharesFollowCounts(fl: Float, c: int, d: int, avg: real, max: real)
    requires c <= d && max >= 0.0
    ensures Share(fl, fl(c as real - avg), max) <= Share(fl, fl(d as real - avg), max)
  {
    KeepsOrder(fl, c as real - avg, d as real - avg);
    ShareIsMonotone(fl, fl(c as real - avg), fl(d as real - avg), max);
  }

  /** No rounding of the arithmetic and no truncation reverses the order of the counts. */
  lemma SkewIsMonotone(fl: Float, c: int, d: int, sum: int, n: nat, global: nat)
    requires c <= d
    ensures SkewOf(fl, c, sum, n, global) <= SkewOf(fl, d, sum, n, global)
  {
    MaxSkewIsNotNegative(fl, sum, n, global);
    SharesFollowCounts(fl, c, d, Average(fl, sum, n), MaxSkew(fl, sum, n, global));
  }

  lemma DifferenceIsInside(fl: Float, c: int, avg: real, global: nat)
    requires 0 <= c <= global && fl(avg) == avg
    ensures -avg <= fl(c as real - avg) <= fl(global as real - avg)
  {
    KeepsOrder(fl, c as real - avg, global as real - avg);
    KeepsOrder(fl, -avg, c as real - avg);
    KeepsSigns(fl, avg);
  }

  /** Counts between zero and the global count have skews between -100 and 100. */
  lemma SkewIsAPercentage(fl: Float, c: int, sum: int, n: nat, global: nat)
    requires 0 <= c <= global
    ensures -100 <= SkewOf(fl, c, sum, n, global) <= 100
  {
    var avg, max := Average(fl, sum, n), MaxSkew(fl, sum, n, global);
    MaxSkewIsNotNegative(fl, sum, n, global);
    AverageIsAFloat(fl, sum, n);
    DifferenceIsInside(fl, c, avg, global);
    ShareIsWithin100(fl, fl(c as real - avg), max);
  }

  // ----- tallies -----

  function Sum(t: seq<int>): int {
    if t == [] then 0 else t[0] + Sum(t[1..])
  }

  function Squares(t: seq<int>): seq<int> {
    seq(|t|, i requires 0 <= i < |t| => t[i] * t[i])
  }

  function SumOfSquares(t: seq<int>): int {
    Sum(Squares(t))
  }

  lemma {:induction false} UpdateSum(t: seq<int>, i: nat, x: int)
    requires i < |t|
    ensures Sum(t[i := x]) == Sum(t) - t[i] + x
  {
    if i > 0 {
      assert t[i := x][1..] == t[1..][i - 1 := x];
      UpdateSum(t[1..], i - 1, x);
    } else {
      assert t[i := x][1..] == t[1..];
    }
  }

  lemma {:induction false} UpdateTwice(t: seq<int>, i: nat, x: int, j: nat, y: int)
    requires i < |t| && j < |t| && i != j
    ensures Sum(t[i := x][j := y]) == Sum(t) - t[i] - t[j] + x + y
  {
    UpdateSum(t, i, x);
    UpdateSum(t[i := x], j, y);
  }

  lemma ExchangeShrinksSquares(a: int, b: int) returns (x: int, y: int)
    requires a > b
    ensures x == (a - 1) * (a - 1) && y == (b + 1) * (b + 1)
    ensures x + y <= a * a + b * b
  {
    x, y := (a - 1) * (a - 1), (b + 1) * (b + 1);
  }

  /** How often `id` occurs in the matrix. */
  function Occurrences(m: seq<seq<int>>, id: int): int {
    if m == [] then 0 else multiset(m[0])[id] + Occurrences(m[1..], id)
  }

  lemma {:induction false} UpdateOccurrences(m: seq<seq<int>>, p: nat, row: seq<int>, id: int)
    requires p < |m|
    ensures Occurrences(m[p := row], id) == Occurrences(m, id) - multiset(m[p])[id] + multiset(row)[id]
  {
    if p > 0 {
      assert m[p := row][1..] == m[1..][p - 1 := row];
      UpdateOccurrences(m[1..], p - 1, row, id);
    } else {
      assert m[p := row][1..] == m[1..];
    }
  }

  ghost predicate Distinct(row: seq<int>) {
    forall i, j :: 0 <= i < j < |row| ==> row[i] != row[j]
  }

  lemma DistinctSnoc(row: seq<int>, id: int)
    ensures Distinct(row + [id]) <==> Distinct(row) && id !in row
  {
    var longer := row + [id];
    if Distinct(longer) {
      assert forall i | 0 <= i < |row| :: longer[i] == row[i] && longer[i] != longer[|row|];
    }
  }

  /** Each replica is counted once: a row is distinct exactly when it has as many members as slots. */
  lemma {:induction false} DistinctIsASet(row: seq<int>)
    ensures Distinct(row) <==> |set id | id in row| == |row|
    ensures |set id | id in row| <= |row|
  {
    if row != [] {
      var rest, last := row[..|row| - 1], row[|row| - 1];
      assert row == rest + [last];
      DistinctSnoc(rest, last);
      DistinctIsASet(rest);
      assert (set id | id in row) == (set id | id in rest) + {last};
    }
  }

  /** A broker that no partition has does not occur. */
  lemma {:induction false} AbsentDoesNotOccur(m: seq<seq<int>>, id: int)
    requires forall p | 0 <= p < |m| :: id !in m[p]
    ensures Occurrences(m, id) == 0
  {
    if m != [] {
      AbsentDoesNotOccur(m[1..], id);
    }
  }

  // ----- the rule for one partition -----

  predicate Tracked(c: Config, id: int) {
    1 <= id <= c.n
  }

  function Skew(c: Config, t: seq<int>, id: int): int
    requires |t| == c.n && Tracked(c, id)
  {
    SkewOf(c.fl, t[id - 1], Sum(t), c.n, c.global)
  }

  /** Looking up a missing broker yields the empty rack. */
  function RackOf(racks: map<int, string>, id: int): string {
    if id in racks then racks[id] else ""
  }

  /** The racks of a partition as the code reads them: by slot number instead of by replica. */
  function RacksBySlot(racks: map<int, string>, row: seq<int>): seq<string> {
    seq(|row|, i => RackOf(racks, i))
  }

  /** The racks of a partition as intended. */
  function RacksByReplica(racks: map<int, string>, row: seq<int>): seq<string> {
    seq(|row|, i requires 0 <= i < |row| => RackOf(racks, row[i]))
  }

  /** An over-loaded replica of the partition. */
  predicate Over(c: Config, t: seq<int>, row: seq<int>, id: int)
    requires |t| == c.n
  {
    Tracked(c, id) && id in row && Skew(c, t, id) >= 0
  }

  /** An under-loaded broker that does not hold the partition. */
  predicate Eligible(c: Config, t: seq<int>, row: seq<int>, id: int)
    requires |t| == c.n
  {
    Tracked(c, id) && id !in row && Skew(c, t, id) < 0
  }

  /** Fresh racks first, then the rack of the replaced replica, then any. */
  function Rank(c: Config, row: seq<int>, source: int, rack: string): int {
    if !c.racksEnabled || rack !in RacksBySlot(c.racks, row) then 0
    else if RackOf(c.racks, source) == rack then 1
    else 2
  }

  ghost predicate BestSource(c: Config, t: seq<int>, row: seq<int>, id: int)
    requires |t| == c.n
  {
    Over(c, t, row, id) && forall o | Over(c, t, row, o) :: Skew(c, t, o) <= Skew(c, t, id)
  }

  ghost predicate BestTarget(c: Config, t: seq<int>, row: seq<int>, source: int, id: int)
    requires |t| == c.n
  {
    && Eligible(c, t, row, id)
    && forall e | Eligible(c, t, row, e) ::
      var mine, other := Rank(c, row, source, RackOf(c.racks, id)), Rank(c, row, source, RackOf(c.racks, e));
      mine < other || (mine == other && Skew(c, t, id) <= Skew(c, t, e))
  }

  /** One replica moves from `source` to `target`. */
  function Shift(t: seq<int>, source: int, target: int): seq<int>
    requires 1 <= source <= |t| && 1 <= target <= |t|
  {
    t[target - 1 := t[target - 1] + 1][source - 1 := t[source - 1] - 1]
  }

  function Moved(s: State, p: nat, slot: nat, target: int): State
    requires p < |s.matrix| && slot < |s.matrix[p]|
    requires 1 <= s.matrix[p][slot] <= |s.tally| && 1 <= target <= |s.tally|
  {
    State(Shift(s.tally, s.matrix[p][slot], target),
          s.matrix[p := s.matrix[p][slot := target]], target)
  }

  ghost predicate Choice(c: Config, s: State, p: nat, slot: nat, target: int) {
    && |s.tally| == c.n && p < |s.matrix| && slot < |s.matrix[p]|
    && s.matrix[p][slot] !in s.matrix[p][..slot]
    && BestSource(c, s.tally, s.matrix[p], s.matrix[p][slot])
    && BestTarget(c, s.tally, s.matrix[p], s.matrix[p][slot], target)
  }

  /** With a single replica, two consecutive moves never go to the same broker. */
  function Outcome(c: Config, s: State, p: nat, slot: nat, target: int): State
    requires |s.tally| == c.n && p < |s.matrix| && slot < |s.matrix[p]|
    requires Tracked(c, s.matrix[p][slot]) && Tracked(c, target)
  {
    if c.replicationFactor == 1 && s.previous == target then s.(previous := -1)
    else Moved(s, p, slot, target)
  }

  /** What visiting partition `p` does. */
  ghost predicate Step(c: Config, s: State, s': State, p: nat) {
    && |s.tally| == c.n && p < |s.matrix|
    && var row := s.matrix[p];
    if (exists o :: Over(c, s.tally, row, o)) && (exists e :: Eligible(c, s.tally, row, e))
    then exists slot: nat, target: int :: Choice(c, s, p, slot, target) && s' == Outcome(c, s, p, slot, target)
    else s' == s
  }

  /** A run visits the partitions in order; `trace[p]` is the state before partition `p`. */
  ghost predicate Run(c: Config, trace: seq<State>) {
    && |trace| >= 1
    && trace[0].previous == -1
    && forall p | 0 <= p < |trace| - 1 :: Step(c, trace[p], trace[p + 1], p)
  }

  // ----- what every run keeps -----

  /** The outline of an applied move: from a strictly more loaded broker to a less loaded newcomer. */
  ghost predicate Downhill(c: Config, s: State, p: nat, slot: nat, target: int) {
    && |s.tally| == c.n && p < |s.matrix| && slot < |s.matrix[p]|
    && Tracked(c, s.matrix[p][slot]) && Tracked(c, target) && target !in s.matrix[p]
    && s.tally[s.matrix[p][slot] - 1] > s.tally[target - 1]
  }

  ghost predicate DownhillStep(c: Config, s: State, s': State, p: nat) {
    && |s.tally| == c.n && p < |s.matrix|
    && (|| (s'.tally == s.tally && s'.matrix == s.matrix)
        || exists slot: nat, target: int :: Downhill(c, s, p, slot, target) && s' == Moved(s, p, slot, target))
  }

  ghost predicate DownhillRun(c: Config, trace: seq<State>) {
    forall p | 0 <= p < |trace| - 1 :: DownhillStep(c, trace[p], trace[p + 1], p)
  }

  /** Rounding and truncation never turn a choice into an uphill move. */
  lemma ChoicesGoDownhill(c: Config, s: State, p: nat, slot: nat, target: int)
    requires Choice(c, s, p, slot, target)
    ensures Downhill(c, s, p, slot, target)
  {
    var from, to := s.tally[s.matrix[p][slot] - 1], s.tally[target - 1];
    if from <= to {
      SkewIsMonotone(c.fl, from, to, Sum(s.tally), c.n, c.global);
    }
  }

  lemma StepsGoDownhill(c: Config, s: State, s': State, p: nat)
    requires Step(c, s, s', p)
    ensures DownhillStep(c, s, s', p)
  {
    if s' != s {
      var slot: nat, target: int :| Choice(c, s, p, slot, target) && s' == Outcome(c, s, p, slot, target);
      ChoicesGoDownhill(c, s, p, slot, target);
    }
  }

  lemma RunsGoDownhill(c: Config, trace: seq<State>)
    requires Run(c, trace)
    ensures DownhillRun(c, trace)
  {
    forall p | 0 <= p < |trace| - 1 ensures DownhillStep(c, trace[p], trace[p + 1], p) {
      StepsGoDownhill(c, trace[p], trace[p + 1], p);
    }
  }

  /** All tallies lie between `low` and `high`. */
  ghost predicate Between(t: seq<int>, low: int, high: int) {
    forall i :: 0 <= i < |t| ==> low <= t[i] <= high
  }

  lemma {:induction false} ExchangeKeepsSum(t: seq<int>, i: nat, j: nat)
    requires i < |t| && j < |t| && i != j
    ensures Sum(t[i := t[i] + 1][j := t[j] - 1]) == Sum(t)
  {
    UpdateTwice(t, i, t[i] + 1, j, t[j] - 1);
  }

  lemma {:induction false} ShiftKeepsSum(t: seq<int>, source: int, target: int)
    requires 1 <= source <= |t| && 1 <= target <= |t| && source != target
    ensures Sum(Shift(t, source, target)) == Sum(t)
  {
    ExchangeKeepsSum(t, target - 1, source - 1);
  }

  lemma SquaresOfShift(t: seq<int>, source: int, target: int, y: int, x: int)
    requires 1 <= source <= |t| && 1 <= target <= |t|
    requires y == (t[target - 1] + 1) * (t[target - 1] + 1) && x == (t[source - 1] - 1) * (t[source - 1] - 1)
    ensures Squares(Shift(t, source, target)) == Squares(t)[target - 1 := y][source - 1 := x]
  {
  }

  lemma {:induction false} ShiftShrinksSquares(t: seq<int>, source: int, target: int)
    requires 1 <= source <= |t| && 1 <= target <= |t| && t[source - 1] > t[target - 1]
    ensures SumOfSquares(Shift(t, source, target)) <= SumOfSquares(t)
  {
    var a, b := t[source - 1], t[target - 1];
    var x, y := ExchangeShrinksSquares(a, b);
    SquaresOfShift(t, source, target, y, x);
    UpdateTwice(Squares(t), target - 1, y, source - 1, x);
  }

  lemma ShiftKeepsBounds(t: seq<int>, source: int, target: int, low: int, high: int)
    requires 1 <= source <= |t| && 1 <= target <= |t| && t[source - 1] > t[target - 1]
    requires Between(t, low, high)
    ensures Between(Shift(t, source, target), low, high)
  {
  }

  lemma StepBalances(c: Config, s: State, s': State, p: nat, low: int, high: int)
    requires DownhillStep(c, s, s', p) && Between(s.tally, low, high)
    ensures |s'.tally| == |s.tally|
    ensures Between(s'.tally, low, high)
    ensures Sum(s'.tally) == Sum(s.tally)
    ensures SumOfSquares(s'.tally) <= SumOfSquares(s.tally)
  {
    if s'.tally != s.tally {
      var slot: nat, target: int :| Downhill(c, s, p, slot, target) && s' == Moved(s, p, slot, target);
      ShiftKeepsBounds(s.tally, s.matrix[p][slot], target, low, high);
      ShiftKeepsSum(s.tally, s.matrix[p][slot], target);
      ShiftShrinksSquares(s.tally, s.matrix[p][slot], target);
    }
  }

  lemma {:induction false} DownhillRunBalances(c: Config, trace: seq<State>, i: nat, j: nat, low: int, high: int)
    requires DownhillRun(c, trace) && i <= j < |trace|
    requires Between(trace[i].tally, low, high)
    ensures |trace[j].tally| == |trace[i].tally|
    ensures Between(trace[j].tally, low, high)
    ensures Sum(trace[j].tally) == Sum(trace[i].tally)
    ensures SumOfSquares(trace[j].tally) <= SumOfSquares(trace[i].tally)
    decreases j
  {
    if i < j {
      DownhillRunBalances(c, trace, i, j - 1, low, high);
      StepBalances(c, trace[j - 1], trace[j], j - 1, low, high);
    }
  }

  /**
   Balance never worsens over any stretch of any run: every bound on the tallies stays a bound
   (so the largest never rises, the smallest never falls and none goes negative), the sum of
   squares never rises and the total is conserved.
   */
  lemma BalanceNeverWorsens(c: Config, trace: seq<State>, i: nat, j: nat, low: int, high: int)
    requires Run(c, trace) && i <= j < |trace|
    requires Between(trace[i].tally, low, high)
    ensures |trace[j].tally| == |trace[i].tally|
    ensures Between(trace[j].tally, low, high)
    ensures Sum(trace[j].tally) == Sum(trace[i].tally)
    ensures SumOfSquares(trace[j].tally) <= SumOfSquares(trace[i].tally)
  {
    RunsGoDownhill(c, trace);
    DownhillRunBalances(c, trace, i, j, low, high);
  }

  function Indicator(b: bool): int {
    if b then 1 else 0
  }

  lemma ReplacingChangesCounts(row: seq<int>, slot: nat, target: int, id: int)
    requires slot < |row|
    ensures multiset(row[slot := target])[id]
         == multiset(row)[id] - Indicator(id == row[slot]) + Indicator(id == target)
  {
    assert multiset(row[slot := target]) == multiset(row) - multiset{row[slot]} + multiset{target};
  }

  lemma MoveChangesOccurrences(m: seq<seq<int>>, p: nat, slot: nat, target: int, id: int)
    requires p < |m| && slot < |m[p]|
    ensures Occurrences(m[p := m[p][slot := target]], id)
         == Occurrences(m, id) - Indicator(id == m[p][slot]) + Indicator(id == target)
  {
    UpdateOccurrences(m, p, m[p][slot := target], id);
    ReplacingChangesCounts(m[p], slot, target, id);
  }

  lemma ShiftChangesTally(t: seq<int>, source: int, target: int, id: int)
    requires 1 <= source <= |t| && 1 <= target <= |t| && source != target && 1 <= id <= |t|
    ensures Shift(t, source, target)[id - 1]
         == t[id - 1] - Indicator(id == source) + Indicator(id == target)
  {
  }

  lemma StepAgrees(c: Config, s: State, s': State, p: nat, id: int)
    requires DownhillStep(c, s, s', p) && Tracked(c, id)
    ensures |s'.tally| == c.n
    ensures s'.tally[id - 1] - s.tally[id - 1] == Occurrences(s'.matrix, id) - Occurrences(s.matrix, id)
  {
    if s'.tally != s.tally || s'.matrix != s.matrix {
      var slot: nat, target: int :| Downhill(c, s, p, slot, target) && s' == Moved(s, p, slot, target);
      MoveChangesOccurrences(s.matrix, p, slot, target, id);
      ShiftChangesTally(s.tally, s.matrix[p][slot], target, id);
    }
  }

  lemma {:induction false} DownhillRunAgrees(c: Config, trace: seq<State>, j: nat, id: int)
    requires DownhillRun(c, trace) && j < |trace|
    requires |trace[0].tally| == c.n && Tracked(c, id)
    ensures |trace[j].tally| == c.n
    ensures trace[j].tally[id - 1] - trace[0].tally[id - 1]
         == Occurrences(trace[j].matrix, id) - Occurrences(trace[0].matrix, id)
  {
    if j > 0 {
      DownhillRunAgrees(c, trace, j - 1, id);
      StepAgrees(c, trace[j - 1], trace[j], j - 1, id);
    }
  }

  /** The tracked count of every broker changes exactly as its number of replicas in the matrix. */
  lemma TallyAgreesWithMatrix(c: Config, trace: seq<State>, j: nat, id: int)
    requires Run(c, trace) && j < |trace|
    requires |trace[0].tally| == c.n && Tracked(c, id)
    ensures |trace[j].tally| == c.n
    ensures trace[j].tally[id - 1] - trace[0].tally[id - 1]
         == Occurrences(trace[j].matrix, id) - Occurrences(trace[0].matrix, id)
  {
    RunsGoDownhill(c, trace);
    DownhillRunAgrees(c, trace, j, id);
  }

  /** At most the replica in `slot` is replaced, by the tracked broker `id` that was not in the row. */
  ghost predicate Replaces(c: Config, row: seq<int>, row': seq<int>, slot: nat, id: int) {
    slot < |row| && Tracked(c, id) && id !in row && row' == row[slot := id]
  }

  ghost predicate OneReplaced(c: Config, row: seq<int>, row': seq<int>) {
    row' == row || exists slot: nat, id: int :: Replaces(c, row, row', slot, id)
  }

  lemma StepReplacesOne(c: Config, s: State, s': State, p: nat)
    requires DownhillStep(c, s, s', p)
    ensures |s'.matrix| == |s.matrix|
    ensures forall q | 0 <= q < |s.matrix| && q != p :: s'.matrix[q] == s.matrix[q]
    ensures OneReplaced(c, s.matrix[p], s'.matrix[p])
  {
    if s'.matrix != s.matrix {
      var slot: nat, target: int :| Downhill(c, s, p, slot, target) && s' == Moved(s, p, slot, target);
      assert Replaces(c, s.matrix[p], s'.matrix[p], slot, target);
    }
  }

  lemma {:induction false} RunReplacesOne(c: Config, trace: seq<State>, j: nat, q: nat)
    requires DownhillRun(c, trace) && j < |trace| && q < |trace[0].matrix|
    ensures |trace[j].matrix| == |trace[0].matrix|
    ensures if q < j then OneReplaced(c, trace[0].matrix[q], trace[j].matrix[q])
            else trace[j].matrix[q] == trace[0].matrix[q]
  {
    if j > 0 {
      RunReplacesOne(c, trace, j - 1, q);
      StepReplacesOne(c, trace[j - 1], trace[j], j - 1);
    }
  }

  /**
   Replica sets stay sets: whatever the run, each partition keeps its replica count, stays pairwise
   distinct and differs from the input in at most one slot, whose new id is a tracked broker.
   */
  lemma ReplicaSetsStaySets(c: Config, trace: seq<State>, j: nat, q: nat)
    requires Run(c, trace) && j < |trace| && q < |trace[0].matrix|
    requires Distinct(trace[0].matrix[q])
    ensures |trace[j].matrix| == |trace[0].matrix|
    ensures OneReplaced(c, trace[0].matrix[q], trace[j].matrix[q])
    ensures |trace[j].matrix[q]| == |trace[0].matrix[q]| && Distinct(trace[j].matrix[q])
  {
    RunsGoDownhill(c, trace);
    RunReplacesOne(c, trace, j, q);
  }

  /** From a metadata count every reached tally is in 0..global and every skew is a percentage. */
  lemma SkewsStayPercentages(c: Config, trace: seq<State>, j: nat, id: int)
    requires Run(c, trace) && j < |trace|
    requires |trace[0].tally| == c.n && Between(trace[0].tally, 0, c.global) && Tracked(c, id)
    ensures |trace[j].tally| == c.n && 0 <= trace[j].tally[id - 1] <= c.global
    ensures -100 <= Skew(c, trace[j].tally, id) <= 100
  {
    BalanceNeverWorsens(c, trace, 0, j, 0, c.global);
    SkewIsAPercentage(c.fl, trace[j].tally[id - 1], Sum(trace[j].tally), c.n, c.global);
  }
}
