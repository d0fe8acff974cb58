/**
 The supervisor of a worker job: it restarts the job with a growing delay and shuts everything down
 after too many failures in a row.
 */
module RestartSupervisor {

  /** One execution of the job: whether it failed, when that was noticed, and the clock right after. */
  datatype Execution = Execution(failed: bool, ended: int, now: int)

  /** The failures counted and the time the counting started. */
  datatype Counter = Counter(fails: int, last: int)

  /** Counting starts anew when the last start is longer ago than the window, with one failure whatever happened. */
  function Next(c: Counter, e: Execution, window: int): Counter {
    if e.ended - c.last > window then Counter(1, e.now)
    else Counter(if e.failed then c.fails + 1 else c.fails, c.last)
  }

  function After(start: int, window: int, es: seq<Execution>): Counter {
    if es == [] then Counter(0, start) else Next(After(start, window, es[..|es| - 1]), es[|es| - 1], window)
  }

  /** The clock does not run backwards. */
  ghost predicate Ordered(start: int, es: seq<Execution>) {
    forall i | 0 <= i < |es| :: ReadBefore(start, es, i) <= es[i].ended <= es[i].now
  }

  /** The time read before execution `i`. */
  ghost function ReadBefore(start: int, es: seq<Execution>, i: nat): int
    requires i <= |es|
  {
    if i == 0 then start else es[i - 1].now
  }

  /** The latest time read. */
  ghost function Clock(start: int, es: seq<Execution>): int {
    if es == [] then start else es[|es| - 1].now
  }

  /** How many executions failed at or after a time. */
  ghost function FailuresSince(es: seq<Execution>, time: int): nat {
    if es == [] then 0
    else
      var e, seen := es[|es| - 1], FailuresSince(es[..|es| - 1], time);
      if e.failed && e.ended >= time then seen + 1 else seen
  }

  lemma OrderedFewer(start: int, es: seq<Execution>)
    requires Ordered(start, es) && es != []
    ensures Ordered(start, es[..|es| - 1])
    ensures Clock(start, es[..|es| - 1]) <= es[|es| - 1].ended <= es[|es| - 1].now
  {
    var fewer := es[..|es| - 1];
    forall i | 0 <= i < |fewer| ensures ReadBefore(start, fewer, i) <= fewer[i].ended <= fewer[i].now {
      assert ReadBefore(start, es, i) <= es[i].ended <= es[i].now;
    }
    assert ReadBefore(start, es, |es| - 1) <= es[|es| - 1].ended;
  }

  lemma {:induction false} LongerAgo(es: seq<Execution>, time: int, earlier: int)
    requires earlier <= time
    ensures FailuresSince(es, time) <= FailuresSince(es, earlier)
  {
    if es != [] {
      LongerAgo(es[..|es| - 1], time, earlier);
    }
  }

  /** They are counted one by one. */
  lemma {:induction false} FailuresAreCounted(es: seq<Execution>, time: int)
    ensures FailuresSince(es, time) == |set i | 0 <= i < |es| && es[i].failed && es[i].ended >= time|
  {
    var all := set i | 0 <= i < |es| && es[i].failed && es[i].ended >= time;
    if es != [] {
      var last := |es| - 1;
      var seen := es[..last];
      FailuresAreCounted(seen, time);
      var before := set i | 0 <= i < |seen| && seen[i].failed && seen[i].ended >= time;
      assert all == if es[last].failed && es[last].ended >= time then before + {last} else before;
    }
  }

  /** All but one of the counted failures happened since counting started, which is no longer ago than the window. */
  lemma {:induction false} CountedAreRecent(start: int, window: int, es: seq<Execution>)
    requires Ordered(start, es) && window >= 0
    ensures var c := After(start, window, es);
      && c.fails <= 1 + FailuresSince(es, c.last) && c.last <= Clock(start, es)
      && (es != [] ==> es[|es| - 1].ended - c.last <= window)
  {
    if es != [] {
      OrderedFewer(start, es);
      CountedAreRecent(start, window, es[..|es| - 1]);
    }
  }

  /** A shutdown means that at least one failure less than the limit happened within the window before it. */
  lemma ShutdownNeedsFailures(start: int, window: int, es: seq<Execution>, limit: int)
    requires Ordered(start, es) && window >= 0 && es != [] && After(start, window, es).fails >= limit
    ensures FailuresSince(es, es[|es| - 1].ended - window) >= limit - 1
  {
    var c := After(start, window, es);
    CountedAreRecent(start, window, es);
    LongerAgo(es, c.last, es[|es| - 1].ended - window);
  }

  ghost predicate NeverFails(es: seq<Execution>) {
    forall i | 0 <= i < |es| :: !es[i].failed
  }

  /** Some execution ended longer after the start than the window. */
  ghost predicate Outlasts(start: int, window: int, es: seq<Execution>) {
    exists i :: 0 <= i < |es| && es[i].ended - start > window
  }

  lemma {:induction false} CleanCount(start: int, window: int, es: seq<Execution>)
    requires NeverFails(es)
    ensures After(start, window, es).fails == if Outlasts(start, window, es) then 1 else 0
    ensures !Outlasts(start, window, es) ==> After(start, window, es).last == start
  {
    if es != [] {
      var seen := es[..|es| - 1];
      CleanCount(start, window, seen);
      if Outlasts(start, window, seen) {
        var i :| 0 <= i < |seen| && seen[i].ended - start > window;
        assert es[i].ended - start > window;
      }
      assert es[|es| - 1].ended - start > window ==> Outlasts(start, window, es);
    }
  }

  /**
   A job that never fails reaches a limit exactly when the limit is no more than zero, or one and the job
   outlasts the window.
   */
  lemma CleanJobsShutDownExactly(start: int, window: int, es: seq<Execution>, limit: int)
    requires NeverFails(es)
    ensures After(start, window, es).fails >= limit <==> limit <= 0 || (limit == 1 && Outlasts(start, window, es))
  {
    CleanCount(start, window, es);
  }

  // ----- exactly which failures count -----

  /** How many executions failed. */
  ghost function Failures(es: seq<Execution>): nat {
    if es == [] then 0 else Failures(es[..|es| - 1]) + (if es[|es| - 1].failed then 1 else 0)
  }

  /** The time of a start of counting: the launch, or the clock right after an execution. */
  ghost function StartTime(start: int, es: seq<Execution>, n: nat): int
    requires n <= |es|
  {
    if n == 0 then start else es[n - 1].now
  }

  /** The number of executions before the last start of counting; only the times decide it. */
  ghost function LastStart(start: int, window: int, es: seq<Execution>): (n: nat)
    ensures n <= |es|
  {
    if es == [] then 0
    else
      var seen := es[..|es| - 1];
      var n := LastStart(start, window, seen);
      if es[|es| - 1].ended - StartTime(start, seen, n) > window then |es| else n
  }

  lemma FailuresSnoc(es: seq<Execution>, n: nat)
    requires n < |es|
    ensures Failures(es[n..]) == Failures(es[n..|es| - 1]) + (if es[|es| - 1].failed then 1 else 0)
  {
    assert es[n..][..|es[n..]| - 1] == es[n..|es| - 1];
  }

  /** The count is the number of failures behind the last start of counting, and one more unless that is the launch. */
  lemma {:induction false} CountsBehindLastStart(start: int, window: int, es: seq<Execution>)
    ensures var n, c := LastStart(start, window, es), After(start, window, es);
      c.fails == Failures(es[n..]) + (if n == 0 then 0 else 1) && c.last == StartTime(start, es, n)
  {
    if es != [] {
      var seen := es[..|es| - 1];
      CountsBehindLastStart(start, window, seen);
      var n := LastStart(start, window, es);
      if n < |es| {
        FailuresSnoc(es, n);
        assert seen[n..] == es[n..|es| - 1];
      } else {
        assert es[n..] == [];
      }
    }
  }

  /** The failures it takes behind a start of counting: the limit, or one less after a new start. */
  ghost predicate Reaches(start: int, window: int, es: seq<Execution>, limit: int) {
    var n := LastStart(start, window, es);
    Failures(es[n..]) >= if n == 0 then limit else limit - 1
  }

  /** A limit is reached exactly when enough failures lie behind the last start of counting. */
  lemma NoticedExactly(start: int, window: int, es: seq<Execution>, limit: int)
    ensures After(start, window, es).fails >= limit <==> Reaches(start, window, es, limit)
  {
    CountsBehindLastStart(start, window, es);
  }

  /** A run shuts down exactly when after some execution enough failures lie behind the last start of counting. */
  lemma ShutsDownExactly(start: int, window: int, es: seq<Execution>, limit: int)
    ensures !Below(start, window, es, limit) <==> exists n :: 0 < n <= |es| && Reaches(start, window, es[..n], limit)
  {
    if !Below(start, window, es, limit) {
      var n :| 0 < n <= |es| && After(start, window, es[..n]).fails >= limit;
      NoticedExactly(start, window, es[..n], limit);
    }
    if n :| 0 < n <= |es| && Reaches(start, window, es[..n], limit) {
      NoticedExactly(start, window, es[..n], limit);
    }
  }

  /** All of the last `k` executions failed. */
  ghost predicate Burst(es: seq<Execution>, k: nat) {
    k <= |es| && forall i | |es| - k <= i < |es| :: es[i].failed
  }

  lemma {:induction false} AllFailed(es: seq<Execution>)
    requires Burst(es, |es|)
    ensures Failures(es) == |es|
  {
    if es != [] {
      AllFailed(es[..|es| - 1]);
    }
  }

  /**
   A burst of as many failures as the limit after a failure-free past is noticed exactly when counting did not
   start anew behind its first failure: a new start right after that failure still leaves enough of them.
   */
  lemma BurstNoticedExactly(start: int, window: int, es: seq<Execution>, limit: nat)
    requires limit >= 1 && Burst(es, limit) && forall i | 0 <= i < |es| - limit :: !es[i].failed
    ensures After(start, window, es).fails >= limit <==> LastStart(start, window, es) <= |es| - limit + 1
  {
    var n, first := LastStart(start, window, es), |es| - limit;
    NoticedExactly(start, window, es, limit);
    if n >= first {
      AllFailed(es[n..]);
    } else {
      FailuresOfBurst(es, n, first);
    }
  }

  lemma {:induction false} FailuresOfBurst(es: seq<Execution>, n: nat, first: nat)
    requires n <= first <= |es| && (forall i | n <= i < first :: !es[i].failed)
    requires forall i | first <= i < |es| :: es[i].failed
    ensures Failures(es[n..]) == |es| - first
    decreases first - n
  {
    if n == first {
      AllFailed(es[n..]);
    } else {
      FailuresOfBurst(es, n + 1, first);
      FirstIsClean(es[n..]);
      assert es[n..][1..] == es[n + 1..];
    }
  }

  lemma {:induction false} FirstIsClean(es: seq<Execution>)
    requires es != [] && !es[0].failed
    ensures Failures(es) == Failures(es[1..])
  {
    if |es| > 1 {
      FirstIsClean(es[..|es| - 1]);
      assert es[..|es| - 1][1..] == es[1..][..|es[1..]| - 1];
    } else {
      assert es[1..] == [] && es[..0] == [];
    }
  }

  /**
   Failures on both sides of a new start of counting are not added up: five failures within the window can go
   unnoticed.
   */
  lemma BurstAcrossARestart(window: int)
    requires window >= 10
    ensures var es := [Execution(true, window - 4, window - 4), Execution(true, window - 3, window - 3),
                       Execution(true, window - 2, window - 2),
                       Execution(true, window - 1, window - 1), Execution(true, window + 1, window + 1)];
      && Ordered(0, es) && FailuresSince(es, es[4].ended - window) == 5
      && forall n | 0 <= n <= 5 :: After(0, window, es[..n]).fails < 5
  {
    var es := [Execution(true, window - 4, window - 4), Execution(true, window - 3, window - 3),
               Execution(true, window - 2, window - 2),
               Execution(true, window - 1, window - 1), Execution(true, window + 1, window + 1)];
    AllCounted(es, 5, 1);
    CountsUp(window, es, 4);
    AfterNext(0, window, es[..4], es[4]);
    assert es[..4] + [es[4]] == es == es[..5];
    forall n | 0 <= n <= 5 ensures After(0, window, es[..n]).fails < 5 {
      if n <= 4 {
        CountsUp(window, es, n);
      }
    }
  }

  lemma {:induction false} AllCounted(es: seq<Execution>, n: nat, time: int)
    requires n <= |es| && forall i | 0 <= i < n :: es[i].failed && es[i].ended >= time
    ensures FailuresSince(es[..n], time) == n
  {
    if n > 0 {
      assert es[..n][..n - 1] == es[..n - 1];
      AllCounted(es, n - 1, time);
    }
  }

  lemma {:induction false} CountsUp(window: int, es: seq<Execution>, n: nat)
    requires n <= |es| && forall i | 0 <= i < n :: es[i].failed && es[i].ended <= window
    ensures After(0, window, es[..n]) == Counter(n, 0)
  {
    if n > 0 {
      assert es[..n][..n - 1] == es[..n - 1];
      CountsUp(window, es, n - 1);
    }
  }

  // ----- delays -----

  const SECOND := 1_000_000_000
  const CAP := 30 * SECOND
  const TWO_63 := 0x8000_0000_0000_0000
  const TWO_64 := 0x1_0000_0000_0000_0000

  function Pow2(k: nat): int {
    if k == 0 then 1 else 2 * Pow2(k - 1)
  }

  /** `time.Second << k` in 64-bit arithmetic. */
  function Shifted(k: nat): int {
    (SECOND * Pow2(k) + TWO_63) % TWO_64 - TWO_63
  }

  lemma {:induction false} Pow2Grows(k: nat, n: nat)
    requires k <= n
    ensures 1 <= Pow2(k) <= Pow2(n)
  {
    if k < n {
      Pow2Grows(k, n - 1);
    } else if k > 0 {
      Pow2Grows(k - 1, k - 1);
    }
  }

  lemma Pow2Values()
    ensures Pow2(8) == 256 && Pow2(16) == 65536 && Pow2(33) == 8_589_934_592 && Pow2(34) == 17_179_869_184
  {
    assert Pow2(4) == 16;
    assert Pow2(8) == 16 * Pow2(4);
    assert Pow2(12) == 16 * Pow2(8);
    assert Pow2(16) == 16 * Pow2(12);
    assert Pow2(20) == 16 * Pow2(16);
    assert Pow2(24) == 16 * Pow2(20);
    assert Pow2(28) == 16 * Pow2(24);
    assert Pow2(32) == 16 * Pow2(28);
    assert Pow2(33) == 2 * Pow2(32);
  }

  /** The shift loses no bit exactly up to thirty-three places. */
  lemma ShiftIsExact(k: nat)
    ensures Shifted(k) == SECOND * Pow2(k) <==> k <= 33
  {
    Pow2Values();
    if k <= 33 {
      Pow2Grows(k, 33);
    } else {
      Pow2Grows(34, k);
    }
  }

  /** The delay before the next start, without jitter. */
  function CappedDelay(fails: int): int {
    var d := Shifted(if fails < 1 then 0 else fails - 1);
    if d > CAP then CAP else d
  }

  lemma DelayInRange(fails: int)
    requires fails <= 34
    ensures SECOND <= CappedDelay(fails) <= CAP
  {
    var k: nat := if fails < 1 then 0 else fails - 1;
    ShiftIsExact(k);
    Pow2Grows(0, k);
  }

  lemma ShiftDoubles(k: nat)
    requires k <= 32
    ensures Shifted(k) > 0 && Shifted(k + 1) == 2 * Shifted(k)
  {
    ShiftIsExact(k);
    ShiftIsExact(k + 1);
    Pow2Grows(0, k);
  }

  /** The delay is one second at first, doubles with every further failure and stops at thirty seconds. */
  lemma DelayDoubles(fails: int)
    requires fails <= 33
    ensures fails <= 1 ==> CappedDelay(fails) == 1_000_000_000
    ensures fails >= 1 ==> var twice := 2 * CappedDelay(fails);
      CappedDelay(fails + 1) == if twice > 30_000_000_000 then 30_000_000_000 else twice
  {
    ShiftIsExact(0);
    if fails >= 1 {
      ShiftDoubles(fails - 1);
    }
  }

  /** Less than a third away from the delay. */
  predicate Jittered(sleep: int, delay: int) {
    delay - delay / 3 < sleep < delay + delay / 3
  }

  lemma JitterStaysNear(sleep: int, delay: int)
    requires delay >= 0 && Jittered(sleep, delay)
    ensures 2 * delay < 3 * sleep < 4 * delay
  {
  }

  /** The delay with jitter; `j` and `less` are the random choices, and there is a choice. */
  method BackoffWithJitter(fails: int, j: int, less: bool) returns (sleep: int)
    requires fails <= 34 && 0 <= j < CappedDelay(fails) / 3
    ensures Jittered(sleep, CappedDelay(fails))
    ensures if less then sleep + j == CappedDelay(fails) else sleep - j == CappedDelay(fails)
  {
    var d := CappedDelay(fails);
    sleep := if less then d - j else d + j;
  }

  /** Any number below the bound. */
  method Random(bound: int) returns (j: int)
    requires bound > 0
    ensures 0 <= j < bound
  {
    j :| 0 <= j < bound;
  }

  // ----- the loop -----

  /** What happens to the job next: the whole service stops, it cannot be built, or it runs and ends. */
  datatype Event = Cancelled | BuildFails | Ends(e: Execution)

  datatype End = Stopped | NotBuilt | ShutDown | Running

  ghost function Executions(events: seq<Event>): seq<Execution> {
    if events == [] then []
    else
      var seen, last := Executions(events[..|events| - 1]), events[|events| - 1];
      if last.Ends? then seen + [last.e] else seen
  }

  lemma ExecutionsNext(events: seq<Event>, n: nat)
    requires n < |events|
    ensures Executions(events[..n + 1])
      == if events[n].Ends? then Executions(events[..n]) + [events[n].e] else Executions(events[..n])
  {
    assert events[..n + 1][..n] == events[..n];
  }

  lemma AfterNext(start: int, window: int, es: seq<Execution>, e: Execution)
    ensures After(start, window, es + [e]) == Next(After(start, window, es), e, window)
  {
    assert (es + [e])[..|es|] == es;
  }

  /** No run so far has reached the limit. */
  ghost predicate Below(start: int, window: int, es: seq<Execution>, limit: int) {
    forall n | 0 < n <= |es| :: After(start, window, es[..n]).fails < limit
  }

  lemma BelowNext(start: int, window: int, es: seq<Execution>, e: Execution, limit: int)
    requires Below(start, window, es, limit)
    ensures Below(start, window, es + [e], limit) <==> After(start, window, es + [e]).fails < limit
  {
    var more := es + [e];
    assert more[..|more|] == more;
    forall n | 0 < n <= |es| ensures more[..n] == es[..n] {
    }
  }

  /** The job was restarted after each delay, which is that of the failures counted then. */
  ghost predicate Slept(start: int, window: int, es: seq<Execution>, delays: seq<int>) {
    && |delays| <= |es|
    && forall i | 0 <= i < |delays| :: Jittered(delays[i], CappedDelay(After(start, window, es[..i + 1]).fails))
  }

  lemma SleptNext(start: int, window: int, es: seq<Execution>, e: Execution, delays: seq<int>)
    requires Slept(start, window, es, delays) && |delays| == |es|
    ensures Slept(start, window, es + [e], delays)
    ensures forall d | Jittered(d, CappedDelay(After(start, window, es + [e]).fails)) ::
      Slept(start, window, es + [e], delays + [d])
  {
    var more := es + [e];
    assert more[..|more|] == more;
    forall n | 0 < n <= |es| ensures more[..n] == es[..n] {
    }
  }

  /** Every delay is between two thirds of a second and forty seconds, and near the one of the failures counted then. */
  lemma DelaysAreBounded(start: int, window: int, es: seq<Execution>, delays: seq<int>, i: nat)
    requires Slept(start, window, es, delays) && i < |delays| && Below(start, window, es, 35)
    ensures 2 * SECOND < 3 * delays[i] < 120 * SECOND
    ensures var delay := CappedDelay(After(start, window, es[..i + 1]).fails); 2 * delay < 3 * delays[i] < 4 * delay
  {
    var fails := After(start, window, es[..i + 1]).fails;
    DelayInRange(fails);
    JitterStaysNear(delays[i], CappedDelay(fails));
  }

  /**
   Runs the job as the events say; `used` events were consumed. The whole is shut down exactly when the
   count after an execution reaches the limit for the first time.
   */
  method LaunchJob(start: int, window: int, limit: int, events: seq<Event>)
    returns (end: End, used: nat, ghost delays: seq<int>)
    requires limit <= 35
    ensures used <= |events|
    ensures end == ShutDown ==> used > 0 && After(start, window, Executions(events[..used])).fails >= limit
    ensures end == ShutDown ==> events[used - 1].Ends? && Executions(events[..used]) != []
    ensures end == ShutDown ==> Below(start, window, Executions(events[..used - 1]), limit)
    ensures end != ShutDown ==> Below(start, window, Executions(events[..used]), limit)
    ensures end == Running ==> used == |events|
    ensures Slept(start, window, Executions(events[..used]), delays)
    ensures |delays| == |Executions(events[..used])| - (if end == ShutDown then 1 else 0)
  {
    var fails, last := 0, start;
    used, delays := 0, [];
    while used < |events|
      invariant used <= |events|
      invariant Counter(fails, last) == After(start, window, Executions(events[..used]))
      invariant Below(start, window, Executions(events[..used]), limit)
      invariant Slept(start, window, Executions(events[..used]), delays) && |delays| == |Executions(events[..used])|
    {
      var event := events[used];
      ghost var es := Executions(events[..used]);
      ExecutionsNext(events, used);
      used := used + 1;
      if event == Cancelled {
        return Stopped, used, delays;
      }
      if event == BuildFails {
        return NotBuilt, used, delays;
      }
      var e := event.e;
      AfterNext(start, window, es, e);
      BelowNext(start, window, es, e, limit);
      SleptNext(start, window, es, e, delays);
      if e.failed {
        fails := fails + 1;
      }
      if e.ended - last > window {
        fails, last := 1, e.now;
      }
      if fails >= limit {
        return ShutDown, used, delays;
      }
      DelayInRange(fails);
      var j := Random(CappedDelay(fails) / 3);
      var less: bool := *;
      var sleep := BackoffWithJitter(fails, j, less);
      delays := delays + [sleep];
    }
    return Running, used, delays;
  }
}
