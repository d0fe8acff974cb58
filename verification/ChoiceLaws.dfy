/**
 The moves of a run in closed form: which replica is given up, which broker takes it, and when a partition
 with a possible move is left alone.
 */
module ChoiceLaws {
  import opened Rebalance
  import opened SkewLaws

  // ----- the choice at one partition -----

  /** A tracked broker outside the partition with a negative skew. */
  ghost predicate Taker(c: Config, t: seq<int>, row: seq<int>, id: int)
    requires |t| == c.n
  {
    1 <= id <= c.n && id !in row && SkewOf(c.fl, t[id - 1], Sum(t), c.n, c.global) < 0
  }

  /** A tracked replica of the partition with a skew that is not negative. */
  ghost predicate Giver(c: Config, t: seq<int>, row: seq<int>, id: int)
    requires |t| == c.n
  {
    1 <= id <= c.n && id in row && SkewOf(c.fl, t[id - 1], Sum(t), c.n, c.global) >= 0
  }

  /** The racks are told apart and none of the brokers numbered like the slots is on this broker's rack. */
  ghost predicate OnNewRack(c: Config, row: seq<int>, id: int) {
    c.racksEnabled && forall i | 0 <= i < |row| :: RackOf(c.racks, i) != RackOf(c.racks, id)
  }

  ghost predicate OnRackOf(c: Config, source: int, id: int) {
    c.racksEnabled && RackOf(c.racks, id) == RackOf(c.racks, source)
  }

  ghost predicate NewRackTaken(c: Config, t: seq<int>, row: seq<int>)
    requires |t| == c.n
  {
    exists e :: Taker(c, t, row, e) && OnNewRack(c, row, e)
  }

  ghost predicate SameRackTaken(c: Config, t: seq<int>, row: seq<int>, source: int)
    requires |t| == c.n
  {
    exists e :: Taker(c, t, row, e) && OnRackOf(c, source, e)
  }

  /** The takers that are looked at: those on a new rack; where there are none, those on the same rack; else all. */
  ghost predicate Considered(c: Config, t: seq<int>, row: seq<int>, source: int, id: int)
    requires |t| == c.n
  {
    && Taker(c, t, row, id)
    && (if NewRackTaken(c, t, row) then OnNewRack(c, row, id)
        else SameRackTaken(c, t, row, source) ==> OnRackOf(c, source, id))
  }

  /** The replica of the largest skew is given up, and the taker of the smallest skew among those considered gets it. */
  ghost predicate Exchanges(c: Config, t: seq<int>, row: seq<int>, source: int, target: int)
    requires |t| == c.n
  {
    && Giver(c, t, row, source) && Considered(c, t, row, source, target)
    && (forall o | Giver(c, t, row, o) ::
          SkewOf(c.fl, t[o - 1], Sum(t), c.n, c.global) <= SkewOf(c.fl, t[source - 1], Sum(t), c.n, c.global))
    && (forall e | Considered(c, t, row, source, e) ::
          SkewOf(c.fl, t[target - 1], Sum(t), c.n, c.global) <= SkewOf(c.fl, t[e - 1], Sum(t), c.n, c.global))
  }

  lemma RankIs(c: Config, row: seq<int>, source: int, id: int)
    ensures var rank := Rank(c, row, source, RackOf(c.racks, id));
      && (rank == 0 <==> !c.racksEnabled || OnNewRack(c, row, id))
      && (rank <= 1 <==> !c.racksEnabled || OnNewRack(c, row, id) || OnRackOf(c, source, id))
      && 0 <= rank <= 2
  {
    var current := RacksBySlot(c.racks, row);
    assert forall i | 0 <= i < |row| :: current[i] == RackOf(c.racks, i);
  }

  /** No taker has a smaller rank. */
  ghost predicate LeastRanked(c: Config, t: seq<int>, row: seq<int>, source: int, id: int)
    requires |t| == c.n
  {
    && Taker(c, t, row, id)
    && forall e | Taker(c, t, row, e) ::
      Rank(c, row, source, RackOf(c.racks, id)) <= Rank(c, row, source, RackOf(c.racks, e))
  }

  lemma ConsideredIsLeastRanked(c: Config, t: seq<int>, row: seq<int>, source: int, id: int)
    requires |t| == c.n
    ensures Considered(c, t, row, source, id) <==> LeastRanked(c, t, row, source, id)
  {
    RankIs(c, row, source, id);
    if Considered(c, t, row, source, id) {
      forall e | Taker(c, t, row, e)
        ensures Rank(c, row, source, RackOf(c.racks, id)) <= Rank(c, row, source, RackOf(c.racks, e))
      {
        RankIs(c, row, source, e);
      }
    }
    if LeastRanked(c, t, row, source, id) {
      if e :| Taker(c, t, row, e) && OnNewRack(c, row, e) {
        RankIs(c, row, source, e);
      } else if e :| Taker(c, t, row, e) && OnRackOf(c, source, e) {
        RankIs(c, row, source, e);
      }
    }
  }

  /** The targets the rule allows are the takers of smallest skew among those of least rank. */
  lemma BestTargetIs(c: Config, t: seq<int>, row: seq<int>, source: int, id: int)
    requires |t| == c.n
    ensures BestTarget(c, t, row, source, id)
         <==> && Considered(c, t, row, source, id)
              && forall e | Considered(c, t, row, source, e) :: Skew(c, t, id) <= Skew(c, t, e)
  {
    ConsideredIsLeastRanked(c, t, row, source, id);
    forall e ensures Considered(c, t, row, source, e) <==> LeastRanked(c, t, row, source, e) {
      ConsideredIsLeastRanked(c, t, row, source, e);
    }
    if LeastRanked(c, t, row, source, id)
       && forall e | Considered(c, t, row, source, e) :: Skew(c, t, id) <= Skew(c, t, e) {
      forall e | Eligible(c, t, row, e)
        ensures var mine, other := Rank(c, row, source, RackOf(c.racks, id)), Rank(c, row, source, RackOf(c.racks, e));
          mine < other || (mine == other && Skew(c, t, id) <= Skew(c, t, e))
      {
        assert Taker(c, t, row, e);
        if Rank(c, row, source, RackOf(c.racks, id)) == Rank(c, row, source, RackOf(c.racks, e)) {
          assert LeastRanked(c, t, row, source, e);
        }
      }
    }
    if BestTarget(c, t, row, source, id) {
      assert Taker(c, t, row, id);
      forall e | Taker(c, t, row, e)
        ensures Rank(c, row, source, RackOf(c.racks, id)) <= Rank(c, row, source, RackOf(c.racks, e))
      {
        assert Eligible(c, t, row, e);
      }
      forall e | Considered(c, t, row, source, e) ensures Skew(c, t, id) <= Skew(c, t, e) {
        assert Eligible(c, t, row, e);
      }
    }
  }

  lemma BestSourceIs(c: Config, t: seq<int>, row: seq<int>, id: int)
    requires |t| == c.n
    ensures BestSource(c, t, row, id)
         <==> Giver(c, t, row, id) && forall o | Giver(c, t, row, o) :: Skew(c, t, o) <= Skew(c, t, id)
  {
    assert forall o :: Giver(c, t, row, o) <==> Over(c, t, row, o);
  }

  /** The choices of the rule are exactly those exchanges, at the first slot of the replica given up. */
  lemma ChoicesExactly(c: Config, s: State, p: nat, slot: nat, target: int)
    requires |s.tally| == c.n && p < |s.matrix| && slot < |s.matrix[p]|
    ensures Choice(c, s, p, slot, target)
         <==> && Exchanges(c, s.tally, s.matrix[p], s.matrix[p][slot], target)
              && s.matrix[p][slot] !in s.matrix[p][..slot]
  {
    BestSourceIs(c, s.tally, s.matrix[p], s.matrix[p][slot]);
    BestTargetIs(c, s.tally, s.matrix[p], s.matrix[p][slot], target);
  }

  /** A replica only ever goes to a broker that is strictly below the average. */
  lemma TakersAreBelowAverage(c: Config, t: seq<int>, row: seq<int>, id: int)
    requires |t| == c.n && Taker(c, t, row, id) && Representable(t[id - 1])
    ensures c.n * t[id - 1] < Sum(t)
  {
    SkewHasTheSign(c.fl, t[id - 1], Sum(t), c.n, c.global);
  }

  // ----- the steps of a run, without the remembered broker -----

  /** Some replica of partition `p` could move. */
  ghost predicate Possible(c: Config, s: State, p: nat) {
    && |s.tally| == c.n && p < |s.matrix|
    && (exists o :: Giver(c, s.tally, s.matrix[p], o)) && (exists e :: Taker(c, s.tally, s.matrix[p], e))
  }

  /** The last partition before `p` with a possible move, or -1. */
  ghost function LastPossible(c: Config, trace: seq<State>, p: nat): (q: int)
    requires p <= |trace|
    ensures -1 <= q < p
  {
    if p == 0 then -1
    else if Possible(c, trace[p - 1], p - 1) then p - 1
    else LastPossible(c, trace, p - 1)
  }

  /** Partition `p` gained the broker between two states. */
  ghost predicate Gains(s: State, s': State, p: nat, id: int) {
    p < |s.matrix| && p < |s'.matrix| && id in s'.matrix[p] && id !in s.matrix[p]
  }

  /** With a single replica: the last possible move before partition `p` went to the same broker. */
  ghost predicate Repeats(c: Config, trace: seq<State>, p: nat, target: int)
    requires p < |trace|
  {
    c.replicationFactor == 1 && WentLast(c, trace, p, target)
  }

  lemma PossibleIs(c: Config, s: State, p: nat)
    requires |s.tally| == c.n && p < |s.matrix|
    ensures Possible(c, s, p)
         <==> (exists o :: Over(c, s.tally, s.matrix[p], o)) && (exists e :: Eligible(c, s.tally, s.matrix[p], e))
  {
    assert forall o :: Giver(c, s.tally, s.matrix[p], o) <==> Over(c, s.tally, s.matrix[p], o);
    assert forall e :: Taker(c, s.tally, s.matrix[p], e) <==> Eligible(c, s.tally, s.matrix[p], e);
  }

  lemma RowGains(row: seq<int>, slot: nat, target: int, id: int)
    requires slot < |row| && target !in row
    ensures id == target <==> id in row[slot := target] && id !in row
  {
    assert row[slot := target][slot] == target;
  }

  lemma OutcomeRemembers(c: Config, s: State, p: nat, slot: nat, target: int, id: int)
    requires Choice(c, s, p, slot, target) && id >= 1
    ensures Outcome(c, s, p, slot, target).previous == id <==> Gains(s, Outcome(c, s, p, slot, target), p, id)
  {
    RowGains(s.matrix[p], slot, target, id);
  }

  /** What is remembered after a step: nothing if the possible move was left out, else who gained a replica. */
  ghost predicate Remembers(c: Config, s: State, s': State, p: nat, id: int) {
    if Possible(c, s, p) then s'.previous == id <==> Gains(s, s', p, id) else s'.previous == s.previous
  }

  lemma StepRemembers(c: Config, s: State, s': State, p: nat, id: int)
    requires Step(c, s, s', p) && id >= 1
    ensures Remembers(c, s, s', p, id)
  {
    PossibleIs(c, s, p);
    if Possible(c, s, p) {
      var slot: nat, target: int :| Choice(c, s, p, slot, target) && s' == Outcome(c, s, p, slot, target);
      OutcomeRemembers(c, s, p, slot, target, id);
    }
  }

  /** The last possible move before partition `p` was made and went to the broker. */
  ghost predicate WentLast(c: Config, trace: seq<State>, p: nat, id: int)
    requires p < |trace|
  {
    var q := LastPossible(c, trace, p);
    q >= 0 && Gains(trace[q], trace[q + 1], q, id)
  }

  lemma {:induction false} MemoryIsTheLastMove(c: Config, trace: seq<State>, p: nat, id: int)
    requires p < |trace| && trace[0].previous == -1 && id >= 1
    requires forall r | 0 <= r < |trace| - 1 :: Remembers(c, trace[r], trace[r + 1], r, id)
    ensures trace[p].previous == id <==> WentLast(c, trace, p, id)
  {
    if p > 0 {
      MemoryIsTheLastMove(c, trace, p - 1, id);
      assert Remembers(c, trace[p - 1], trace[p - 1 + 1], p - 1, id);
    }
  }

  lemma RunRemembers(c: Config, trace: seq<State>, p: nat, id: int)
    requires Run(c, trace) && p < |trace| && id >= 1
    ensures trace[p].previous == id <==> WentLast(c, trace, p, id)
  {
    forall r | 0 <= r < |trace| - 1 ensures Remembers(c, trace[r], trace[r + 1], r, id) {
      StepRemembers(c, trace[r], trace[r + 1], r, id);
    }
    MemoryIsTheLastMove(c, trace, p, id);
  }

  /** One replica of partition `p` goes to the target, and both counts follow. */
  ghost predicate Goes(c: Config, s: State, s': State, p: nat, slot: nat, target: int)
    requires |s.tally| == c.n && p < |s.matrix| && slot < |s.matrix[p]|
  {
    && s'.matrix == s.matrix[p := s.matrix[p][slot := target]] && |s'.tally| == c.n
    && forall i | 0 <= i < c.n ::
      s'.tally[i] == s.tally[i] + Indicator(i + 1 == target) - Indicator(i + 1 == s.matrix[p][slot])
  }

  lemma MoveGoes(c: Config, s: State, p: nat, slot: nat, target: int)
    requires |s.tally| == c.n && p < |s.matrix| && slot < |s.matrix[p]| && s.matrix[p][slot] != target
    requires 1 <= s.matrix[p][slot] <= c.n && 1 <= target <= c.n
    ensures Goes(c, s, Moved(s, p, slot, target), p, slot, target)
  {
  }

  /** A possible move is made, unless it repeats the last possible one of a topic with single replicas. */
  ghost predicate Handles(c: Config, trace: seq<State>, p: nat, slot: nat, target: int)
    requires p < |trace| - 1
  {
    var s, s' := trace[p], trace[p + 1];
    && |s.tally| == c.n && p < |s.matrix| && slot < |s.matrix[p]|
    && Exchanges(c, s.tally, s.matrix[p], s.matrix[p][slot], target)
    && s.matrix[p][slot] !in s.matrix[p][..slot]
    && (if Repeats(c, trace, p, target) then s'.tally == s.tally && s'.matrix == s.matrix
        else Goes(c, s, s', p, slot, target))
  }

  /**
   Every step of every run in closed form: nothing changes where no move is possible; otherwise the replica of the
   largest skew goes to the least loaded broker considered, except that with single replicas no broker is the
   target of two possible moves in a row.
   */
  lemma StepsExactly(c: Config, trace: seq<State>, p: nat)
    requires Run(c, trace) && p < |trace| - 1
    ensures if Possible(c, trace[p], p) then exists slot: nat, target: int :: Handles(c, trace, p, slot, target)
            else trace[p + 1].tally == trace[p].tally && trace[p + 1].matrix == trace[p].matrix
  {
    var s, s' := trace[p], trace[p + 1];
    assert Step(c, s, s', p);
    PossibleIs(c, s, p);
    if Possible(c, s, p) {
      var slot: nat, target: int :| Choice(c, s, p, slot, target) && s' == Outcome(c, s, p, slot, target);
      ChoicesExactly(c, s, p, slot, target);
      RunRemembers(c, trace, p, target);
      MoveGoes(c, s, p, slot, target);
      assert Handles(c, trace, p, slot, target);
    }
  }
}
