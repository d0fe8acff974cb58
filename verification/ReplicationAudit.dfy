/**
 The replication audit of a switchover: the messages counted on the active side must show up on the
 standby side, partition by partition, while the audit polls the standby side.
 */
module ReplicationAudit {
  import opened Options
  import opened Text
  import opened Numbers

  // ----- partition keys -----

  /** A topic and a partition in one text. */
  function Key(topic: string, partition: int): string {
    topic + ['-'] + Decimal(partition)
  }

  /** Position of the last dash, or -1. */
  function LastDash(s: string): (i: int)
    ensures -1 <= i < |s|
  {
    if s == "" then -1 else if s[|s| - 1] == '-' then |s| - 1 else LastDash(s[..|s| - 1])
  }

  lemma {:induction false} LastDashAt(a: string, b: string)
    requires Lacks(b, '-')
    ensures LastDash(a + ['-'] + b) == |a|
  {
    var s := a + ['-'] + b;
    if b != "" {
      assert s[|s| - 1] == b[|b| - 1];
      assert s[..|s| - 1] == a + ['-'] + b[..|b| - 1];
      LastDashAt(a, b[..|b| - 1]);
    }
  }

  /** The text before the last dash. */
  function TopicOf(key: string): string
    requires LastDash(key) >= 0
  {
    key[..LastDash(key)]
  }

  /** The topic is recovered from a key exactly when the partition number is not negative, whatever the topic is. */
  lemma TopicIsRecoveredExactly(topic: string, partition: int)
    ensures LastDash(Key(topic, partition)) >= 0
    ensures TopicOf(Key(topic, partition)) == topic <==> partition >= 0
  {
    if partition >= 0 {
      DigitsLackDash(partition);
      LastDashAt(topic, Digits(partition));
    } else {
      DigitsLackDash(-partition);
      assert Key(topic, partition) == (topic + ['-']) + ['-'] + Digits(-partition);
      LastDashAt(topic + ['-'], Digits(-partition));
    }
  }

  /** Keys of real partitions are never confused. */
  lemma KeysAreDifferent(t: string, p: nat, t': string, p': nat)
    requires Key(t, p) == Key(t', p')
    ensures t == t' && p == p'
  {
    TopicIsRecoveredExactly(t, p);
    TopicIsRecoveredExactly(t', p');
    assert Key(t, p)[|t| + 1..] == Digits(p) && Key(t', p')[|t'| + 1..] == Digits(p');
    DigitsDiffer(p, p');
  }

  // ----- counting messages -----

  /** The number of messages between two offsets; negative offsets count as zero. */
  function MessagesCount(latest: int, earliest: int): int {
    if earliest > latest then 0
    else
      var last := if latest < 0 then 0 else latest;
      var first := if earliest < 0 then 0 else earliest;
      last - first
  }

  predicate NotBefore(offset: int, earliest: int) {
    earliest <= offset
  }

  /** The offsets of the messages. */
  ghost function Offsets(latest: int, earliest: int): set<int> {
    set o | 0 <= o < latest && NotBefore(o, earliest)
  }

  /** It is the number of offsets from the earliest up to the latest that are not negative. */
  lemma {:induction false} CountsOffsets(latest: int, earliest: int)
    ensures MessagesCount(latest, earliest) == |Offsets(latest, earliest)|
    decreases latest
  {
    if latest <= 0 || latest <= earliest {
      assert Offsets(latest, earliest) == {};
    } else {
      CountsOffsets(latest - 1, earliest);
      assert Offsets(latest, earliest) == Offsets(latest - 1, earliest) + {latest - 1};
    }
  }

  /** What the standby side answers during one poll; `None` is an error. */
  datatype Client = Client(partitions: string -> Option<seq<nat>>, latest: (string, nat) -> Option<int>,
                           earliest: (string, nat) -> Option<int>)
  {
    predicate Lists(t: string, p: nat) {
      partitions(t).Some? && p in partitions(t).value
    }

    predicate Knows(t: string, p: nat) {
      latest(t, p).Some? && earliest(t, p).Some?
    }

    function Count(t: string, p: nat): int
      requires Knows(t, p)
    {
      MessagesCount(latest(t, p).value, earliest(t, p).value)
    }
  }

  /** The standby side showed at least `n` messages of the partition. */
  ghost predicate Reached(c: Client, key: string, n: int) {
    exists t: string, p: nat :: key == Key(t, p) && c.Lists(t, p) && c.Knows(t, p) && c.Count(t, p) >= n
  }

  /** The counts of partitions that were asked for. */
  ghost predicate Counted(counts: map<string, int>, c: Client, t: string, p: nat) {
    c.Knows(t, p) && Key(t, p) in counts && counts[Key(t, p)] == c.Count(t, p)
  }

  /** Every key of the map is the count of a listed partition of one of the topics. */
  ghost predicate OnlyCounts(counts: map<string, int>, c: Client, topics: seq<string>) {
    forall key | key in counts ::
      exists t: string, p: nat :: key == Key(t, p) && t in topics && c.Lists(t, p) && Counted(counts, c, t, p)
  }

  ghost predicate AllCounted(counts: map<string, int>, c: Client, topics: seq<string>) {
    forall t: string, p: nat | t in topics && c.Lists(t, p) :: Counted(counts, c, t, p)
  }

  /** The standby side lists the partitions of the topic and knows the offsets of all of them. */
  ghost predicate Answers(c: Client, topic: string) {
    c.partitions(topic).Some? && forall p | p in c.partitions(topic).value :: c.Knows(topic, p)
  }

  lemma CountedMore(counts: map<string, int>, c: Client, t: string, p: nat, t': string, p': nat)
    requires c.Knows(t, p)
    ensures Counted(counts[Key(t, p) := c.Count(t, p)], c, t, p)
    ensures Counted(counts, c, t', p') ==> Counted(counts[Key(t, p) := c.Count(t, p)], c, t', p')
  {
    if Key(t, p) == Key(t', p') {
      KeysAreDifferent(t, p, t', p');
    }
  }

  /** Counts the partitions of one topic into the map. */
  method CountTopic(c: Client, topic: string, counts: map<string, int>) returns (r: map<string, int>, ok: bool)
    ensures forall t: string, p: nat | Counted(counts, c, t, p) :: Counted(r, c, t, p)
    ensures ok <==> Answers(c, topic)
    ensures ok ==> forall p | c.Lists(topic, p) :: Counted(r, c, topic, p)
    ensures forall key | key in r ::
      key in counts || exists p: nat :: key == Key(topic, p) && c.Lists(topic, p) && Counted(r, c, topic, p)
  {
    r := counts;
    if c.partitions(topic).None? {
      return r, false;
    }
    var partitions := c.partitions(topic).value;
    for i := 0 to |partitions|
      invariant forall t: string, p: nat | Counted(counts, c, t, p) :: Counted(r, c, t, p)
      invariant forall j | 0 <= j < i :: Counted(r, c, topic, partitions[j])
      invariant forall key | key in r ::
        key in counts || exists p: nat :: key == Key(topic, p) && c.Lists(topic, p) && Counted(r, c, topic, p)
    {
      var p := partitions[i];
      if !c.Knows(topic, p) {
        return r, false;
      }
      ghost var was := r;
      r := r[Key(topic, p) := c.Count(topic, p)];
      forall t: string, q: nat ensures Counted(was, c, t, q) ==> Counted(r, c, t, q) {
        CountedMore(was, c, topic, p, t, q);
      }
      CountedMore(was, c, topic, p, topic, p);
      assert c.Lists(topic, p);
    }
    ok := true;
  }

  /** Counts the messages of all partitions of the topics; an error leaves the rest uncounted. */
  method GetMessagesCount(c: Client, topics: seq<string>) returns (counts: map<string, int>, ok: bool)
    ensures ok <==> forall t | t in topics :: Answers(c, t)
    ensures OnlyCounts(counts, c, topics)
    ensures ok ==> AllCounted(counts, c, topics)
  {
    counts := map[];
    for i := 0 to |topics|
      invariant forall j | 0 <= j < i :: Answers(c, topics[j])
      invariant OnlyCounts(counts, c, topics)
      invariant AllCounted(counts, c, topics[..i])
    {
      ghost var was := counts;
      counts, ok := CountTopic(c, topics[i], counts);
      StillOnlyCounts(was, counts, c, topics, topics[i]);
      if !ok {
        return;
      }
      AllCountedNext(was, counts, c, topics, i);
    }
    assert topics[..|topics|] == topics;
    ok := true;
  }

  lemma AllCountedNext(was: map<string, int>, counts: map<string, int>, c: Client, topics: seq<string>, n: nat)
    requires n < |topics| && AllCounted(was, c, topics[..n])
    requires forall t: string, p: nat | Counted(was, c, t, p) :: Counted(counts, c, t, p)
    requires forall p | c.Lists(topics[n], p) :: Counted(counts, c, topics[n], p)
    ensures AllCounted(counts, c, topics[..n + 1])
  {
    assert topics[..n + 1] == topics[..n] + [topics[n]];
    forall t: string, p: nat | t in topics[..n + 1] && c.Lists(t, p) ensures Counted(counts, c, t, p) {
      if t != topics[n] {
        assert t in topics[..n];
        assert Counted(was, c, t, p);
      }
    }
  }

  lemma StillOnlyCounts(was: map<string, int>, counts: map<string, int>, c: Client, topics: seq<string>, topic: string)
    requires OnlyCounts(was, c, topics) && topic in topics
    requires forall t: string, p: nat | Counted(was, c, t, p) :: Counted(counts, c, t, p)
    requires forall key | key in counts ::
      key in was || exists p: nat :: key == Key(topic, p) && c.Lists(topic, p) && Counted(counts, c, topic, p)
    ensures OnlyCounts(counts, c, topics)
  {
    forall key | key in counts
      ensures exists t: string, p: nat :: key == Key(t, p) && t in topics && c.Lists(t, p) && Counted(counts, c, t, p)
    {
      if key in was {
        var t: string, p: nat :| key == Key(t, p) && t in topics && c.Lists(t, p) && Counted(was, c, t, p);
        assert Counted(counts, c, t, p);
      } else {
        var p: nat :| key == Key(topic, p) && c.Lists(topic, p) && Counted(counts, c, topic, p);
      }
    }
  }

  // ----- flushing out -----

  ghost predicate CaughtUp(standby: map<string, int>, key: string, n: int) {
    key in standby && standby[key] >= n
  }

  /** Keeps the partitions that have not caught up. */
  method FlushOut(active: map<string, int>, standby: map<string, int>) returns (rest: map<string, int>)
    ensures rest == map k | k in active && !CaughtUp(standby, k, active[k]) :: active[k]
  {
    rest := map[];
    var left := active.Keys;
    while left != {}
      invariant left <= active.Keys
      invariant rest == map k | k in active && k !in left && !CaughtUp(standby, k, active[k]) :: active[k]
      decreases |left|
    {
      var k :| k in left;
      left := left - {k};
      if k !in standby {
        rest := rest[k := active[k]];
      } else if active[k] > standby[k] {
        rest := rest[k := active[k]];
      }
    }
  }

  /** Every key names a real partition. */
  ghost predicate PartitionKeys(m: map<string, int>) {
    forall k | k in m :: exists t: string, p: nat :: k == Key(t, p)
  }

  lemma KeyHasATopic(k: string)
    requires exists t: string, p: nat :: k == Key(t, p)
    ensures LastDash(k) >= 0 && forall t: string, p: nat | k == Key(t, p) :: t == TopicOf(k)
  {
    var t: string, p: nat :| k == Key(t, p);
    forall t: string, p: nat | k == Key(t, p) ensures LastDash(k) >= 0 && t == TopicOf(k) {
      TopicIsRecoveredExactly(t, p);
    }
  }

  /** The topics of the partitions, with repetitions, in the order the map is walked. */
  method GetTopicList(m: map<string, int>) returns (topics: seq<string>)
    requires forall k | k in m :: LastDash(k) >= 0
    ensures forall k | k in m :: TopicOf(k) in topics
    ensures forall t | t in topics :: exists k | k in m :: t == TopicOf(k)
    ensures |topics| == |m|
  {
    topics := [];
    var left := m.Keys;
    while left != {}
      invariant left <= m.Keys && |topics| + |left| == |m.Keys|
      invariant forall k | k in m.Keys - left :: TopicOf(k) in topics
      invariant forall t | t in topics :: exists k | k in m :: t == TopicOf(k)
      decreases |left|
    {
      var k :| k in left;
      left := left - {k};
      topics := topics + [TopicOf(k)];
    }
    assert |m.Keys| == |m|;
  }

  // ----- the polling loop -----

  /** The partitions no poll has shown to have caught up. */
  ghost function Pending(active: map<string, int>, polls: seq<Client>): map<string, int> {
    map k | k in active && NeverReached(polls, k, active[k]) :: active[k]
  }

  ghost predicate NeverReached(polls: seq<Client>, key: string, n: int) {
    forall j | 0 <= j < |polls| :: !Reached(polls[j], key, n)
  }

  lemma NeverReachedSnoc(polls: seq<Client>, n: nat, key: string, m: int)
    requires n < |polls|
    ensures NeverReached(polls[..n + 1], key, m) <==> NeverReached(polls[..n], key, m) && !Reached(polls[n], key, m)
  {
    var more, fewer := polls[..n + 1], polls[..n];
    assert forall j | 0 <= j < n :: more[j] == fewer[j];
    assert more[n] == polls[n];
    if NeverReached(more, key, m) {
      forall j | 0 <= j < |fewer| ensures !Reached(fewer[j], key, m) {
        assert !Reached(more[j], key, m);
      }
    }
    if NeverReached(fewer, key, m) && !Reached(polls[n], key, m) {
      forall j | 0 <= j < |more| ensures !Reached(more[j], key, m) {
        assert j < n ==> !Reached(fewer[j], key, m);
      }
    }
  }

  lemma PendingSnoc(active: map<string, int>, polls: seq<Client>, n: nat)
    requires n < |polls|
    ensures Pending(active, polls[..n + 1])
      == map k | k in Pending(active, polls[..n]) && !Reached(polls[n], k, active[k]) :: active[k]
  {
    forall k | k in active
      ensures NeverReached(polls[..n + 1], k, active[k])
        <==> NeverReached(polls[..n], k, active[k]) && !Reached(polls[n], k, active[k])
    {
      NeverReachedSnoc(polls, n, k, active[k]);
    }
  }

  /** With all topics of the pending partitions counted, a count tells what the standby side showed. */
  lemma CountTells(counts: map<string, int>, c: Client, topics: seq<string>, k: string, n: int)
    requires OnlyCounts(counts, c, topics) && AllCounted(counts, c, topics)
    requires (exists t: string, p: nat :: k == Key(t, p)) && LastDash(k) >= 0 && TopicOf(k) in topics
    ensures CaughtUp(counts, k, n) <==> Reached(c, k, n)
  {
    if CaughtUp(counts, k, n) {
      var t: string, p: nat :| k == Key(t, p) && t in topics && c.Lists(t, p) && Counted(counts, c, t, p);
    }
    if Reached(c, k, n) {
      var t: string, p: nat :| k == Key(t, p) && c.Lists(t, p) && c.Knows(t, p) && c.Count(t, p) >= n;
      KeyHasATopic(k);
      assert Counted(counts, c, t, p);
    }
  }

  lemma PartitionKeysHaveTopics(pending: map<string, int>)
    requires PartitionKeys(pending)
    ensures forall k | k in pending :: LastDash(k) >= 0
  {
    forall k | k in pending ensures LastDash(k) >= 0 {
      KeyHasATopic(k);
    }
  }

  lemma CountsTell(counts: map<string, int>, c: Client, topics: seq<string>, pending: map<string, int>)
    requires OnlyCounts(counts, c, topics) && AllCounted(counts, c, topics) && PartitionKeys(pending)
    requires forall k | k in pending :: LastDash(k) >= 0 && TopicOf(k) in topics
    ensures (map k | k in pending && !CaughtUp(counts, k, pending[k]) :: pending[k])
      == (map k | k in pending && !Reached(c, k, pending[k]) :: pending[k])
  {
    forall k | k in pending ensures CaughtUp(counts, k, pending[k]) <==> Reached(c, k, pending[k]) {
      CountTells(counts, c, topics, k, pending[k]);
    }
  }

  /** The standby side answers for the topics of all these partitions. */
  ghost predicate Answered(c: Client, pending: map<string, int>) {
    forall k | k in pending :: LastDash(k) >= 0 && Answers(c, TopicOf(k))
  }

  lemma AnsweredByTopics(c: Client, pending: map<string, int>, topics: seq<string>)
    requires forall k | k in pending :: LastDash(k) >= 0 && TopicOf(k) in topics
    requires forall t | t in topics :: exists k | k in pending :: LastDash(k) >= 0 && t == TopicOf(k)
    ensures Answered(c, pending) <==> forall t | t in topics :: Answers(c, t)
  {
  }

  /** One poll: ask for the pending topics, count, and flush out. */
  method Poll(pending: map<string, int>, c: Client) returns (rest: map<string, int>, ok: bool)
    requires PartitionKeys(pending)
    ensures ok <==> Answered(c, pending)
    ensures rest == if ok then map k | k in pending && !Reached(c, k, pending[k]) :: pending[k] else pending
  {
    PartitionKeysHaveTopics(pending);
    var topics := GetTopicList(pending);
    AnsweredByTopics(c, pending, topics);
    var counts;
    counts, ok := GetMessagesCount(c, topics);
    if !ok {
      return pending, false;
    }
    CountsTell(counts, c, topics, pending);
    rest := FlushOut(pending, counts);
  }

  /** In this round the standby side does not answer for all that is pending. */
  ghost predicate FailsIn(active: map<string, int>, polls: seq<Client>, round: nat)
    requires round < |polls|
  {
    !Answered(polls[round], Pending(active, polls[..round]))
  }

  /** After this many rounds nothing is pending. */
  ghost predicate DoneAfter(active: map<string, int>, polls: seq<Client>, rounds: nat)
    requires rounds <= |polls|
  {
    rounds > 0 && Pending(active, polls[..rounds]) == map[]
  }

  /**
   How the polls end: with an error in the first round that fails, without one after the first round that leaves
   nothing pending, whichever comes first, or because the stop channel is closed after all polls.
   */
  ghost predicate EndsWith(active: map<string, int>, polls: seq<Client>, failed: bool, stopped: bool, rounds: nat) {
    && rounds <= |polls| && !(failed && stopped)
    && (forall r | 0 <= r < rounds :: !FailsIn(active, polls, r))
    && (forall r | 0 <= r < rounds :: !DoneAfter(active, polls, r))
    && (if failed then rounds < |polls| && FailsIn(active, polls, rounds) && !DoneAfter(active, polls, rounds)
        else if stopped then rounds == |polls| && !DoneAfter(active, polls, rounds)
        else DoneAfter(active, polls, rounds))
  }

  /** There is one way to end. */
  lemma EndIsDetermined(active: map<string, int>, polls: seq<Client>, failed: bool, stopped: bool, rounds: nat,
                        failed': bool, stopped': bool, rounds': nat)
    requires EndsWith(active, polls, failed, stopped, rounds) && EndsWith(active, polls, failed', stopped', rounds')
    ensures failed == failed' && stopped == stopped' && rounds == rounds'
  {
  }

  /** No round so far was the last one. */
  ghost predicate GoesOn(active: map<string, int>, polls: seq<Client>, rounds: nat)
    requires rounds <= |polls|
  {
    && (forall r | 0 <= r < rounds :: !FailsIn(active, polls, r))
    && (forall r | 0 <= r <= rounds :: !DoneAfter(active, polls, r))
  }

  lemma RoundEnds(active: map<string, int>, polls: seq<Client>, rounds: nat)
    requires rounds < |polls| && GoesOn(active, polls, rounds)
    ensures FailsIn(active, polls, rounds) ==> EndsWith(active, polls, true, false, rounds)
    ensures !FailsIn(active, polls, rounds) && DoneAfter(active, polls, rounds + 1)
      ==> EndsWith(active, polls, false, false, rounds + 1)
    ensures !FailsIn(active, polls, rounds) && !DoneAfter(active, polls, rounds + 1)
      ==> GoesOn(active, polls, rounds + 1)
  {
  }

  lemma LoopStarts(active: map<string, int>, polls: seq<Client>)
    ensures Pending(active, polls[..0]) == active && GoesOn(active, polls, 0)
  {
  }

  lemma LoopStops(active: map<string, int>, polls: seq<Client>)
    requires GoesOn(active, polls, |polls|)
    ensures EndsWith(active, polls, false, true, |polls|)
  {
  }

  /** The poll of one round. */
  method PollRound(ghost active: map<string, int>, polls: seq<Client>, round: nat, pending: map<string, int>)
    returns (rest: map<string, int>, ok: bool)
    requires round < |polls| && PartitionKeys(pending) && pending == Pending(active, polls[..round])
    ensures ok <==> !FailsIn(active, polls, round)
    ensures PartitionKeys(rest) && rest == Pending(active, if ok then polls[..round + 1] else polls[..round])
  {
    PendingSnoc(active, polls, round);
    rest, ok := Poll(pending, polls[round]);
  }

  /**
   Polls the standby side until nothing is pending. The stop channel is open for as many rounds as
   there are polls and closed afterwards. An error ends the loop; otherwise the result is nil, and
   `stopped` tells whether that was because the channel was closed.
   */
  method WaitUntilActiveMessagesFlushOut(active: map<string, int>, polls: seq<Client>)
    returns (failed: bool, stopped: bool, rounds: nat, pending: map<string, int>)
    requires PartitionKeys(active)
    ensures EndsWith(active, polls, failed, stopped, rounds)
    ensures pending == Pending(active, polls[..rounds])
  {
    pending, rounds := active, 0;
    LoopStarts(active, polls);
    while rounds < |polls|
      invariant rounds <= |polls|
      invariant PartitionKeys(pending) && pending == Pending(active, polls[..rounds])
      invariant GoesOn(active, polls, rounds)
    {
      RoundEnds(active, polls, rounds);
      var ok;
      pending, ok := PollRound(active, polls, rounds, pending);
      if !ok {
        return true, false, rounds, pending;
      }
      rounds := rounds + 1;
      assert DoneAfter(active, polls, rounds) <==> |pending| == 0;
      if |pending| == 0 {
        return false, false, rounds, pending;
      }
    }
    LoopStops(active, polls);
    return false, true, rounds, pending;
  }

  /** A poll showed at least `n` messages of the partition. */
  ghost predicate Observed(polls: seq<Client>, t: string, p: nat, n: int) {
    exists j :: 0 <= j < |polls| && polls[j].Lists(t, p) && polls[j].Knows(t, p) && polls[j].Count(t, p) >= n
  }

  /** What a key says was reached was observed of the partition the key was made for. */
  lemma ReachedWasObserved(polls: seq<Client>, t: string, p: nat, n: int)
    ensures !NeverReached(polls, Key(t, p), n) <==> Observed(polls, t, p, n)
  {
    var k := Key(t, p);
    if !NeverReached(polls, k, n) {
      var j :| 0 <= j < |polls| && Reached(polls[j], k, n);
      var t': string, p': nat :|
        k == Key(t', p') && polls[j].Lists(t', p') && polls[j].Knows(t', p') && polls[j].Count(t', p') >= n;
      KeysAreDifferent(t, p, t', p');
    }
    if Observed(polls, t, p, n) {
      var j :| 0 <= j < |polls| && polls[j].Lists(t, p) && polls[j].Knows(t, p) && polls[j].Count(t, p) >= n;
      assert Reached(polls[j], k, n);
    }
  }

  /**
   The pending partitions are exactly those of the active side that no poll observed caught up; when
   nothing is pending, every partition was seen with at least as many messages as the active side had.
   */
  lemma PendingExactly(active: map<string, int>, polls: seq<Client>, t: string, p: nat)
    requires Key(t, p) in active
    ensures Key(t, p) in Pending(active, polls) <==> !Observed(polls, t, p, active[Key(t, p)])
    ensures Pending(active, polls) == map[] ==> Observed(polls, t, p, active[Key(t, p)])
  {
    ReachedWasObserved(polls, t, p, active[Key(t, p)]);
  }

  /** The partitions that had not caught up at the start. */
  ghost function Behind(active: map<string, int>, standby: map<string, int>): map<string, int> {
    map k | k in active && !(k in standby && standby[k] >= active[k]) :: active[k]
  }

  /** The whole check on the two initial counts: it ends at once if nothing was behind, and else as the polls do. */
  method CheckFullReplication(active: map<string, int>, standby: map<string, int>, polls: seq<Client>)
    returns (failed: bool, stopped: bool, rounds: nat)
    requires PartitionKeys(active)
    ensures var behind := Behind(active, standby);
      if behind == map[] then !failed && !stopped && rounds == 0 else EndsWith(behind, polls, failed, stopped, rounds)
  {
    var rest := FlushOut(active, standby);
    assert rest == Behind(active, standby);
    if |rest| == 0 {
      return false, false, 0;
    }
    var pending;
    failed, stopped, rounds, pending := WaitUntilActiveMessagesFlushOut(rest, polls);
  }

  /** A check that ends without error and in time has seen every partition caught up, at the start or in a poll. */
  lemma SuccessIsFullReplication(active: map<string, int>, standby: map<string, int>, polls: seq<Client>,
                                 rounds: nat, t: string, p: nat)
    requires var behind := Behind(active, standby); behind == map[] || EndsWith(behind, polls, false, false, rounds)
    requires Key(t, p) in active
    ensures CaughtUp(standby, Key(t, p), active[Key(t, p)]) || Observed(polls, t, p, active[Key(t, p)])
  {
    var behind, key := Behind(active, standby), Key(t, p);
    if !CaughtUp(standby, key, active[key]) {
      assert key in behind;
      PendingExactly(behind, polls[..rounds], t, p);
      ObservedEarlier(polls, rounds, t, p, active[key]);
    }
  }

  lemma ObservedEarlier(polls: seq<Client>, rounds: nat, t: string, p: nat, n: int)
    requires rounds <= |polls| && Observed(polls[..rounds], t, p, n)
    ensures Observed(polls, t, p, n)
  {
    var fewer := polls[..rounds];
    var j :| 0 <= j < |fewer| && fewer[j].Lists(t, p) && fewer[j].Knows(t, p) && fewer[j].Count(t, p) >= n;
    assert polls[j] == fewer[j];
  }
}
