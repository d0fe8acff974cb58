/** What one merge does to the topic sets of the flows and to all other properties. */
module TopicLaws {
  import opened Text
  import opened Lines
  import opened Properties
  import opened TopicMerge

  // ----- mapping and selecting lines -----

  lemma {:induction false} SelectMapped(xs: seq<string>, f: string -> string, p: string -> bool, q: string -> bool)
    requires forall i | 0 <= i < |xs| :: p(f(xs[i])) <==> q(xs[i])
    ensures Select(MapLines(f, xs), p) == MapLines(f, Select(xs, q))
  {
    if xs != [] {
      assert p(f(xs[0])) <==> q(xs[0]);
      SelectMapped(xs[1..], f, p, q);
      assert MapLines(f, xs)[1..] == MapLines(f, xs[1..]);
      var rest := Select(xs[1..], q);
      assert ([xs[0]] + rest)[1..] == rest && [] + rest == rest;
    }
  }

  lemma {:induction false} MapLinesAt(f: string -> string, xs: seq<string>, i: nat)
    requires i < |xs|
    ensures |MapLines(f, xs)| == |xs| && MapLines(f, xs)[i] == f(xs[i])
  {
    if i > 0 {
      MapLinesAt(f, xs[1..], i - 1);
    } else if |xs| > 1 {
      MapLinesAt(f, xs[1..], 0);
    }
  }

  lemma {:induction false} MapLinesSame(f: string -> string, xs: seq<string>)
    requires forall i | 0 <= i < |xs| :: f(xs[i]) == xs[i]
    ensures MapLines(f, xs) == xs
  {
    if xs != [] {
      MapLinesSame(f, xs[1..]);
    }
  }

  lemma {:induction false} SelectSame(xs: seq<string>, p: string -> bool, q: string -> bool)
    requires forall i | 0 <= i < |xs| :: p(xs[i]) <==> q(xs[i])
    ensures Select(xs, p) == Select(xs, q)
  {
    if xs != [] {
      assert p(xs[0]) <==> q(xs[0]);
      SelectSame(xs[1..], p, q);
    }
  }

  /** Selecting by a narrower condition selects the same exactly when it drops nothing. */
  lemma NarrowerSelect(xs: seq<string>, p: string -> bool, q: string -> bool)
    requires forall i | 0 <= i < |xs| && p(xs[i]) :: q(xs[i])
    ensures Select(xs, p) == Select(xs, q) <==> forall i | 0 <= i < |xs| && q(xs[i]) :: p(xs[i])
  {
    if Select(xs, p) == Select(xs, q) {
      forall i | 0 <= i < |xs| && q(xs[i]) ensures p(xs[i]) {
        SelectMember(xs, q, xs[i]);
        SelectMember(xs, p, xs[i]);
      }
    }
    if forall i | 0 <= i < |xs| && q(xs[i]) :: p(xs[i]) {
      SelectSame(xs, p, q);
    }
  }

  /** The last line of a wider selection that meets the narrower condition is the last of the narrower one. */
  lemma LastOfNarrower(xs: seq<string>, p: string -> bool, q: string -> bool)
    requires forall i | 0 <= i < |xs| && p(xs[i]) :: q(xs[i])
    requires var wide := Select(xs, q); wide != [] && p(wide[|wide| - 1])
    ensures var wide, narrow := Select(xs, q), Select(xs, p); narrow != [] && narrow[|narrow| - 1] == wide[|wide| - 1]
  {
    var wide := Select(xs, q);
    SelectAgain(xs, p, q);
    assert wide == wide[..|wide| - 1] + [wide[|wide| - 1]];
    SelectSnoc(wide[..|wide| - 1], wide[|wide| - 1], p);
  }

  lemma SelectInserted(xs: seq<string>, n: nat, added: seq<string>, p: string -> bool)
    requires n <= |xs|
    ensures Select(added, p) == [] ==> Select(xs[..n] + added + xs[n..], p) == Select(xs, p)
    ensures Select(xs, p) == [] ==> Select(xs[..n] + added + xs[n..], p) == Select(added, p)
  {
    SelectConcat(xs[..n] + added, xs[n..], p);
    SelectConcat(xs[..n], added, p);
    SelectConcat(xs[..n], xs[n..], p);
    assert xs[..n] + xs[n..] == xs;
  }

  // ----- rows of other keys -----

  lemma RewrittenKey(lines: seq<string>, flow: string, topics: string, line: string, key: string)
    requires Readable(lines) && GoodFlow(flow) && HitBy(lines, flow, line)
    ensures HasKey(key, RewriteBy(lines, flow, topics, line)) ==> key == EnabledKey(flow) || key == TopicsKey(flow)
  {
    KeysAreGood(flow);
    RowReadsBack(EnabledKey(flow), "true");
    RowReadsBack(TopicsKey(flow), MergedText(lines, flow, topics));
  }

  ghost predicate NotOf(key: string, pairs: seq<string>) {
    forall flow | flow in pairs :: key != EnabledKey(flow) && key != TopicsKey(flow)
  }

  function RowMissed(lines: seq<string>, pairs: seq<string>, key: string): string -> bool
    requires Readable(lines)
  {
    line => HasKey(key, line) && !Hit(lines, pairs, line)
  }

  lemma RewrittenRow(lines: seq<string>, pairs: seq<string>, topics: string, key: string, line: string)
    requires Readable(lines) && GoodFlows(pairs) && NotOf(key, pairs)
    ensures HasKey(key, Rewrite(lines, pairs, topics, line)) <==> HasKey(key, line) && !Hit(lines, pairs, line)
    ensures !Hit(lines, pairs, line) ==> Rewrite(lines, pairs, topics, line) == line
  {
    if Hit(lines, pairs, line) {
      var flow :| flow in pairs && HitBy(lines, flow, line);
      GoodFlowsAreSeparate(pairs);
      RewriteHit(lines, pairs, topics, line, flow);
      RewrittenKey(lines, flow, topics, line, key);
    } else {
      RewriteMiss(lines, pairs, topics, line);
    }
  }

  lemma NewLinesOfOthers(lines: seq<string>, pairs: seq<string>, topics: string, key: string)
    requires Readable(lines) && GoodFlows(pairs) && NotOf(key, pairs)
    ensures Rows(NewLines(lines, pairs, topics), key) == []
  {
    var added := NewLines(lines, pairs, topics);
    forall i | 0 <= i < |added| ensures !RowOf(key)(added[i]) {
      var flow := NewLineIs(lines, pairs, topics, i);
      KeysAreGood(flow);
      RowReadsBack(EnabledKey(flow), "true");
      RowReadsBack(TopicsKey(flow), topics);
    }
    SelectNone(added, RowOf(key));
  }

  lemma RowsOfOthers(lines: seq<string>, pairs: seq<string>, topics: string, key: string)
    requires Readable(lines) && GoodFlows(pairs) && NotOf(key, pairs)
    ensures Rows(Merged(lines, pairs, topics), key) == Select(lines, RowMissed(lines, pairs, key))
  {
    var f, p, q := Rewriter(lines, pairs, topics), RowOf(key), RowMissed(lines, pairs, key);
    forall i | 0 <= i < |lines| ensures p(f(lines[i])) <==> q(lines[i]) {
      RewrittenRow(lines, pairs, topics, key, lines[i]);
    }
    SelectMapped(lines, f, p, q);
    SelectedSatisfy(lines, q);
    var missed := Select(lines, q);
    forall i | 0 <= i < |missed| ensures f(missed[i]) == missed[i] {
      RewrittenRow(lines, pairs, topics, key, missed[i]);
    }
    MapLinesSame(f, missed);
    var mapped := MapLines(f, lines);
    NewLinesOfOthers(lines, pairs, topics, key);
    SelectInserted(mapped, BlackListPosition(mapped), NewLines(lines, pairs, topics), p);
  }

  /** The rows of any other key stay exactly when none of them starts with the key of an edited row. */
  lemma OtherRowsStayExactly(lines: seq<string>, pairs: seq<string>, topics: string, key: string)
    requires Readable(lines) && GoodFlows(pairs) && NotOf(key, pairs)
    ensures Rows(Merged(lines, pairs, topics), key) == Rows(lines, key)
      <==> forall i | 0 <= i < |lines| && HasKey(key, lines[i]) :: !Hit(lines, pairs, lines[i])
  {
    RowsOfOthers(lines, pairs, topics, key);
    NarrowerSelect(lines, RowMissed(lines, pairs, key), RowOf(key));
    assert forall i | 0 <= i < |lines| ::
      RowMissed(lines, pairs, key)(lines[i]) <==> HasKey(key, lines[i]) && !Hit(lines, pairs, lines[i]);
    assert forall i | 0 <= i < |lines| :: RowOf(key)(lines[i]) <==> HasKey(key, lines[i]);
  }

  /** No key of the flows `pairs` is the beginning of `key`. */
  ghost predicate ApartFrom(key: string, pairs: seq<string>) {
    forall flow | flow in pairs :: !(EnabledKey(flow) <= key) && !(TopicsKey(flow) <= key)
  }

  /** A key that does not extend a flow's key keeps its rows. */
  lemma ApartKeysStay(lines: seq<string>, pairs: seq<string>, topics: string, key: string)
    requires Readable(lines) && GoodFlows(pairs) && ApartFrom(key, pairs)
    ensures Rows(Merged(lines, pairs, topics), key) == Rows(lines, key)
  {
    forall i | 0 <= i < |lines| && HasKey(key, lines[i]) ensures !Hit(lines, pairs, lines[i]) {
      forall flow | flow in pairs ensures !HitBy(lines, flow, lines[i]) {
        KeysAreGood(flow);
        if EnabledKey(flow) <= lines[i] {
          RowStart(key, lines[i], EnabledKey(flow));
        }
        if TopicsKey(flow) <= lines[i] {
          RowStart(key, lines[i], TopicsKey(flow));
        }
      }
    }
    OtherRowsStayExactly(lines, pairs, topics, key);
  }

  /** A per-flow black list is lost when the topics of its flow are merged. */
  lemma BlackListIsLost(flow: string, x: string, y: string, topics: string)
    requires GoodFlow(flow)
    ensures var key := TopicsKey(flow) + ".blacklist";
      var lines := [Row(TopicsKey(flow), x), Row(key, y)];
      Readable(lines) && Rows(lines, key) != [] && Rows(Merged(lines, [flow], topics), key) != Rows(lines, key)
  {
    var key := TopicsKey(flow) + ".blacklist";
    var lines := [Row(TopicsKey(flow), x), Row(key, y)];
    KeysAreGood(flow);
    RowReadsBack(TopicsKey(flow), x);
    RowReadsBack(key, y);
    SelectMember(lines, RowOf(TopicsKey(flow)), lines[0]);
    SelectMember(lines, RowOf(key), lines[1]);
    assert TopicsKey(flow) <= lines[1];
    assert HitBy(lines, flow, lines[1]);
    assert flow in [flow] && Hit(lines, [flow], lines[1]);
    OtherRowsStayExactly(lines, [flow], topics, key);
  }

  // ----- the result can be read -----

  lemma RewrittenIsReadable(lines: seq<string>, pairs: seq<string>, topics: string, line: string)
    requires Readable(lines) && GoodFlows(pairs) && (IsRow(line) ==> HasEquals(line))
    ensures var r := Rewrite(lines, pairs, topics, line); IsRow(r) ==> HasEquals(r)
  {
    if Hit(lines, pairs, line) {
      var flow :| flow in pairs && HitBy(lines, flow, line);
      GoodFlowsAreSeparate(pairs);
      RewriteHit(lines, pairs, topics, line, flow);
      KeysAreGood(flow);
      RowReadsBack(EnabledKey(flow), "true");
      RowReadsBack(TopicsKey(flow), MergedText(lines, flow, topics));
    } else {
      RewriteMiss(lines, pairs, topics, line);
    }
  }

  lemma NewLinesAreReadable(lines: seq<string>, pairs: seq<string>, topics: string)
    requires Readable(lines) && GoodFlows(pairs)
    ensures Readable(NewLines(lines, pairs, topics))
  {
    var added := NewLines(lines, pairs, topics);
    forall i | 0 <= i < |added| ensures HasEquals(added[i]) {
      var flow := NewLineIs(lines, pairs, topics, i);
      KeysAreGood(flow);
      RowReadsBack(EnabledKey(flow), "true");
      RowReadsBack(TopicsKey(flow), topics);
    }
  }

  lemma ReadableInsert(lines: seq<string>, n: nat, added: seq<string>)
    requires Readable(lines) && Readable(added) && n <= |lines|
    ensures Readable(lines[..n] + added + lines[n..])
  {
  }

  /** A merge leaves a readable text readable. */
  lemma MergedIsReadable(lines: seq<string>, pairs: seq<string>, topics: string)
    requires Readable(lines) && GoodFlows(pairs)
    ensures Readable(Merged(lines, pairs, topics))
  {
    var f := Rewriter(lines, pairs, topics);
    var mapped := MapLines(f, lines);
    forall i | 0 <= i < |mapped| && IsRow(mapped[i]) ensures HasEquals(mapped[i]) {
      MappedIs(f, lines, i);
      RewrittenIsReadable(lines, pairs, topics, lines[i]);
    }
    NewLinesAreReadable(lines, pairs, topics);
    ReadableInsert(mapped, BlackListPosition(mapped), NewLines(lines, pairs, topics));
  }

  // ----- topics of a requested flow -----

  function Touches(key: string): string -> bool {
    line => HasKey(key, line) || key <= line
  }

  lemma TopicsOfLastRow(lines: seq<string>, flow: string, row: string)
    requires Readable(lines) && Rows(lines, TopicsKey(flow)) != []
    requires var rows := Rows(lines, TopicsKey(flow)); rows[|rows| - 1] == row
    ensures HasEquals(row) && TopicSet(lines, flow) == set t | t in ItemsIn(RawOf(row))
  {
    RowsAreReadable(lines, TopicsKey(flow));
    ValueItems(RawOf(row));
  }

  /** A flow without a topics row gets one with the requested topics. */
  lemma NewFlowTopics(lines: seq<string>, pairs: seq<string>, topics: string, flow: string)
    requires Readable(lines) && GoodFlows(pairs) && Lacks(topics, '=') && flow in pairs
    requires Rows(lines, TopicsKey(flow)) == []
    ensures Readable(Merged(lines, pairs, topics))
    ensures TopicSet(Merged(lines, pairs, topics), flow) == Requested(topics)
  {
    var key, f, added := TopicsKey(flow), Rewriter(lines, pairs, topics), NewLines(lines, pairs, topics);
    var mapped, row := MapLines(f, lines), Row(TopicsKey(flow), topics);
    MergedIsReadable(lines, pairs, topics);
    NoRowAppears(lines, pairs, topics, flow);
    SelectInserted(mapped, BlackListPosition(mapped), added, RowOf(key));
    NewTopicsLine(lines, pairs, topics, flow);
    KeysAreGood(flow);
    RowReadsBack(key, topics);
    SelectMember(added, RowOf(key), row);
    OnlyNewRow(lines, pairs, topics, flow);
    var rows := Rows(added, key);
    TopicsOfLastRow(Merged(lines, pairs, topics), flow, rows[|rows| - 1]);
    BlankIsIgnored(topics);
  }

  lemma NoRowAppears(lines: seq<string>, pairs: seq<string>, topics: string, flow: string)
    requires Readable(lines) && GoodFlows(pairs) && flow in pairs && Rows(lines, TopicsKey(flow)) == []
    ensures Rows(MapLines(Rewriter(lines, pairs, topics), lines), TopicsKey(flow)) == []
  {
    var key, f := TopicsKey(flow), Rewriter(lines, pairs, topics);
    var mapped := MapLines(f, lines);
    forall i | 0 <= i < |mapped| ensures !RowOf(key)(mapped[i]) {
      MappedIs(f, lines, i);
      var line := lines[i];
      SelectMember(lines, RowOf(key), line);
      if Hit(lines, pairs, line) {
        var hit :| hit in pairs && HitBy(lines, hit, line);
        GoodFlowsAreSeparate(pairs);
        RewriteHit(lines, pairs, topics, line, hit);
        RewrittenKey(lines, hit, topics, line, key);
        KeyOfOneFlow(flow, hit);
        KeyOfOneFlow(hit, flow);
        NotTheTopicsRow(lines, hit, topics, line, flow);
      } else {
        RewriteMiss(lines, pairs, topics, line);
      }
    }
    SelectNone(mapped, RowOf(key));
  }

  lemma MappedIs(f: string -> string, xs: seq<string>, i: nat)
    requires i < |MapLines(f, xs)|
    ensures i < |xs| && MapLines(f, xs)[i] == f(xs[i])
  {
    if xs != [] {
      MapLinesAt(f, xs, 0);
      MapLinesAt(f, xs, i);
    }
  }

  /** A flow without topics is turned on at most. */
  lemma NotTheTopicsRow(lines: seq<string>, hit: string, topics: string, line: string, flow: string)
    requires Readable(lines) && GoodFlow(hit) && GoodFlow(flow) && HitBy(lines, hit, line) && !KnowsTopics(lines, flow)
    ensures !HasKey(TopicsKey(flow), RewriteBy(lines, hit, topics, line))
  {
    KeysAreGood(hit);
    RowReadsBack(EnabledKey(hit), "true");
    RowReadsBack(TopicsKey(hit), MergedText(lines, hit, topics));
    KeyOfOneFlow(flow, hit);
    KeyOfOneFlow(hit, flow);
  }

  lemma OnlyNewRowAt(lines: seq<string>, pairs: seq<string>, topics: string, flow: string, i: nat)
    requires Readable(lines) && GoodFlows(pairs) && flow in pairs
    requires i < |Rows(NewLines(lines, pairs, topics), TopicsKey(flow))|
    ensures Rows(NewLines(lines, pairs, topics), TopicsKey(flow))[i] == Row(TopicsKey(flow), topics)
    ensures Rows(lines, TopicsKey(flow)) == []
  {
    var key, added := TopicsKey(flow), NewLines(lines, pairs, topics);
    var row := Rows(added, key)[i];
    SelectedSatisfy(added, RowOf(key));
    assert row in added;
    var j :| 0 <= j < |added| && added[j] == row;
    var hit := NewLineIs(lines, pairs, topics, j);
    NewRowOfFlow(hit, flow, topics, row);
  }

  lemma OnlyNewRow(lines: seq<string>, pairs: seq<string>, topics: string, flow: string)
    requires Readable(lines) && GoodFlows(pairs) && flow in pairs
    ensures Rows(NewLines(lines, pairs, topics), TopicsKey(flow)) != [] ==> Rows(lines, TopicsKey(flow)) == []
    ensures var rows := Rows(NewLines(lines, pairs, topics), TopicsKey(flow));
      forall i | 0 <= i < |rows| :: rows[i] == Row(TopicsKey(flow), topics)
  {
    var rows := Rows(NewLines(lines, pairs, topics), TopicsKey(flow));
    if rows != [] {
      OnlyNewRowAt(lines, pairs, topics, flow, 0);
    }
    forall i | 0 <= i < |rows| ensures rows[i] == Row(TopicsKey(flow), topics) {
      OnlyNewRowAt(lines, pairs, topics, flow, i);
    }
  }

  lemma NewRowOfFlow(hit: string, flow: string, topics: string, row: string)
    requires GoodFlow(hit) && GoodFlow(flow) && HasKey(TopicsKey(flow), row)
    ensures row == Row(TopicsKey(hit), topics) ==> hit == flow
    ensures row != Row(EnabledKey(hit), "true")
  {
    KeysAreGood(hit);
    RowReadsBack(EnabledKey(hit), "true");
    RowReadsBack(TopicsKey(hit), topics);
    KeyOfOneFlow(flow, hit);
    KeyOfOneFlow(hit, flow);
  }

  // ----- merging into a known flow -----

  lemma NewLinesOfKnown(lines: seq<string>, pairs: seq<string>, topics: string, flow: string)
    requires Readable(lines) && GoodFlows(pairs) && flow in pairs && Rows(lines, TopicsKey(flow)) != []
    ensures Rows(NewLines(lines, pairs, topics), TopicsKey(flow)) == []
  {
    OnlyNewRow(lines, pairs, topics, flow);
  }

  /** Lines that start with the key become the merged row; other rows of the key stay. */
  lemma TouchedLine(lines: seq<string>, pairs: seq<string>, topics: string, flow: string, line: string)
    requires Readable(lines) && GoodFlows(pairs) && flow in pairs && KnowsTopics(lines, flow)
    ensures HasKey(TopicsKey(flow), Rewrite(lines, pairs, topics, line))
      <==> HasKey(TopicsKey(flow), line) || TopicsKey(flow) <= line
    ensures TopicsKey(flow) <= line
      ==> Rewrite(lines, pairs, topics, line) == Row(TopicsKey(flow), MergedText(lines, flow, topics))
    ensures HasKey(TopicsKey(flow), line) && !(TopicsKey(flow) <= line) ==> Rewrite(lines, pairs, topics, line) == line
  {
    KeysAreGood(flow);
    RowReadsBack(TopicsKey(flow), MergedText(lines, flow, topics));
    if TopicsKey(flow) <= line {
      KeyOfOneFlow(flow, flow);
      LineOfOneFlow(flow, flow, line);
      assert HitBy(lines, flow, line);
      GoodFlowsAreSeparate(pairs);
      RewriteHit(lines, pairs, topics, line, flow);
    } else if Hit(lines, pairs, line) {
      var hit :| hit in pairs && HitBy(lines, hit, line);
      GoodFlowsAreSeparate(pairs);
      RewriteHit(lines, pairs, topics, line, hit);
      HitElsewhere(lines, hit, topics, line, flow);
    } else {
      RewriteMiss(lines, pairs, topics, line);
    }
  }

  /** Another flow's line is no row of this flow, neither before nor after. */
  lemma HitElsewhere(lines: seq<string>, hit: string, topics: string, line: string, flow: string)
    requires Readable(lines) && GoodFlow(hit) && GoodFlow(flow) && HitBy(lines, hit, line) && !(TopicsKey(flow) <= line)
    ensures !HasKey(TopicsKey(flow), line) && !HasKey(TopicsKey(flow), RewriteBy(lines, hit, topics, line))
  {
    KeysAreGood(hit);
    KeyOfOneFlow(hit, flow);
    KeyOfOneFlow(flow, hit);
    if HasKey(TopicsKey(flow), line) {
      if EnabledKey(hit) <= line {
        RowStart(TopicsKey(flow), line, EnabledKey(hit));
      } else {
        RowStart(TopicsKey(flow), line, TopicsKey(hit));
      }
    }
    RowReadsBack(EnabledKey(hit), "true");
    RowReadsBack(TopicsKey(hit), MergedText(lines, hit, topics));
  }

  /** The last line that is a row of the flow's topics or starts like one. */
  function LastTouching(lines: seq<string>, flow: string): string {
    var touching := Select(lines, Touches(TopicsKey(flow)));
    if touching == [] then "" else touching[|touching| - 1]
  }

  lemma RowsOfKnown(lines: seq<string>, pairs: seq<string>, topics: string, flow: string)
    requires Readable(lines) && GoodFlows(pairs) && flow in pairs && KnowsTopics(lines, flow)
    ensures var rows := Rows(Merged(lines, pairs, topics), TopicsKey(flow));
      rows != [] && rows[|rows| - 1] == Rewrite(lines, pairs, topics, LastTouching(lines, flow))
  {
    var key, f := TopicsKey(flow), Rewriter(lines, pairs, topics);
    var mapped := MapLines(f, lines);
    forall i | 0 <= i < |lines| ensures RowOf(key)(f(lines[i])) <==> Touches(key)(lines[i]) {
      TouchedLine(lines, pairs, topics, flow, lines[i]);
    }
    SelectMapped(lines, f, RowOf(key), Touches(key));
    NewLinesOfKnown(lines, pairs, topics, flow);
    SelectInserted(mapped, BlackListPosition(mapped), NewLines(lines, pairs, topics), RowOf(key));
    TouchingExists(lines, key);
    var touching := Select(lines, Touches(key));
    MapLinesAt(f, touching, |touching| - 1);
  }

  lemma TouchingExists(lines: seq<string>, key: string)
    requires Rows(lines, key) != []
    ensures Select(lines, Touches(key)) != []
  {
    SelectedSatisfy(lines, RowOf(key));
    SelectMember(lines, Touches(key), Rows(lines, key)[0]);
  }

  /** An indented last row is missed, and the topics stay as they were. */
  lemma MissedRow(lines: seq<string>, flow: string)
    requires Readable(lines) && Rows(lines, TopicsKey(flow)) != [] && !(TopicsKey(flow) <= LastTouching(lines, flow))
    ensures var rows := Rows(lines, TopicsKey(flow)); rows[|rows| - 1] == LastTouching(lines, flow)
    ensures HasKey(TopicsKey(flow), LastTouching(lines, flow))
  {
    var key := TopicsKey(flow);
    TouchingExists(lines, key);
    SelectedSatisfy(lines, Touches(key));
    LastOfNarrower(lines, RowOf(key), Touches(key));
  }

  lemma UnionOfTopics(lines: seq<string>, flow: string, topics: string)
    requires Readable(lines)
    ensures (set t | t in Merge(Items(lines, TopicsKey(flow)), ItemsIn(topics)))
      == TopicSet(lines, flow) + Requested(topics)
  {
    forall t
      ensures t in Merge(Items(lines, TopicsKey(flow)), ItemsIn(topics))
        <==> t in TopicSet(lines, flow) + Requested(topics)
    {
      MergeIsUnion(Items(lines, TopicsKey(flow)), ItemsIn(topics), t);
    }
  }

  lemma KnownFlowTopics(lines: seq<string>, pairs: seq<string>, topics: string, flow: string)
    requires Readable(lines) && GoodFlows(pairs) && Lacks(topics, '=') && flow in pairs
    requires Rows(lines, TopicsKey(flow)) != []
    ensures Readable(Merged(lines, pairs, topics))
    ensures TopicsKey(flow) <= LastTouching(lines, flow)
      ==> TopicSet(Merged(lines, pairs, topics), flow) == TopicSet(lines, flow) + Requested(topics)
    ensures !(TopicsKey(flow) <= LastTouching(lines, flow))
      ==> TopicSet(Merged(lines, pairs, topics), flow) == TopicSet(lines, flow)
  {
    var last := LastTouching(lines, flow);
    var row := Rewrite(lines, pairs, topics, last);
    MergedIsReadable(lines, pairs, topics);
    RowsOfKnown(lines, pairs, topics, flow);
    TopicsOfLastRow(Merged(lines, pairs, topics), flow, row);
    TouchedLine(lines, pairs, topics, flow, last);
    if TopicsKey(flow) <= last {
      MergedReadsBack(lines, flow, topics);
      UnionOfTopics(lines, flow, topics);
    } else {
      MissedRow(lines, flow);
      TopicsOfLastRow(lines, flow, last);
    }
  }

  // ----- equals signs -----

  lemma {:induction false} PartHas(s: string, at: char, c: char) returns (i: nat)
    requires c in s && c != at
    ensures i < |Split(s, at)| && c in Split(s, at)[i]
    decreases |s|
  {
    var n := IndexOf(s, at);
    IndexOfSpec(s, at);
    if n == |s| || c in s[..n] {
      i := 0;
    } else {
      assert s == s[..n] + [at] + s[n + 1..];
      i := PartHas(s[n + 1..], at, c);
      i := i + 1;
    }
  }

  lemma {:induction false} TrimLeftHas(s: string, c: char)
    requires c in s && c != ' '
    ensures c in TrimLeft(s, SPACE)
  {
    if s[0] == ' ' {
      assert s == [s[0]] + s[1..];
      TrimLeftHas(s[1..], c);
    }
  }

  lemma {:induction false} TrimRightHas(s: string, c: char)
    requires c in s && c != ' '
    ensures c in TrimRight(s, SPACE)
  {
    if s[|s| - 1] == ' ' {
      assert s == s[..|s| - 1] + [s[|s| - 1]];
      TrimRightHas(s[..|s| - 1], c);
    }
  }

  /** Topics with an equals sign ask for a topic that no text can list, because values end at an equals sign. */
  lemma EqualsSignIsNeverListed(lines: seq<string>, flow: string, topics: string)
    requires Readable(lines) && '=' in topics
    ensures !(Requested(topics) <= TopicSet(lines, flow))
  {
    var parts := Split(topics, ',');
    var i := PartHas(topics, ',', '=');
    TrimEachAt(parts, i);
    TrimLeftHas(parts[i], '=');
    TrimRightHas(TrimLeft(parts[i], SPACE), '=');
    var t := ItemsIn(topics)[i];
    assert t in Requested(topics) && '=' in t;
    if Rows(lines, TopicsKey(flow)) != [] {
      ItemsAreWritable(lines, TopicsKey(flow));
    }
  }

  /**
   A merge makes the topic set of a requested flow the union of the old and the requested topics exactly
   when the request has no equals sign and the flow has no topics row yet, its last one is not indented, or
   nothing new is requested.
   */
  lemma TopicsMergeExactly(lines: seq<string>, pairs: seq<string>, topics: string, flow: string)
    requires Readable(lines) && GoodFlows(pairs) && flow in pairs
    ensures Readable(Merged(lines, pairs, topics))
    ensures TopicSet(Merged(lines, pairs, topics), flow) == TopicSet(lines, flow) + Requested(topics)
      <==> Lacks(topics, '=') && (|| Rows(lines, TopicsKey(flow)) == []
                                 || TopicsKey(flow) <= LastTouching(lines, flow)
                                 || Requested(topics) <= TopicSet(lines, flow))
  {
    MergedIsReadable(lines, pairs, topics);
    if '=' in topics {
      EqualsSignIsNeverListed(Merged(lines, pairs, topics), flow, topics);
    } else if Rows(lines, TopicsKey(flow)) == [] {
      NewFlowTopics(lines, pairs, topics, flow);
      assert Items(lines, TopicsKey(flow)) == [];
    } else {
      KnownFlowTopics(lines, pairs, topics, flow);
    }
  }

  /** An indented topics row is missed: a topic it does not list is not added, whatever the flow. */
  lemma IndentedRowIsMissed(flow: string, listed: string, topic: string)
    requires GoodFlow(flow) && Lacks(listed, '=') && Lacks(topic, '=') && topic !in ItemsIn(listed)
    requires Lacks(topic, ',') && Tight(topic, SPACE)
    ensures var lines := [[' '] + Row(TopicsKey(flow), listed)];
      && Readable(lines) && Readable(Merged(lines, [flow], topic))
      && topic in Requested(topic) && topic !in TopicSet(Merged(lines, [flow], topic), flow)
  {
    var key, row := TopicsKey(flow), [' '] + Row(TopicsKey(flow), listed);
    var lines := [row];
    KeysAreGood(flow);
    IndentedRow(key, listed);
    SelectMember(lines, RowOf(key), row);
    TouchingExists(lines, key);
    SelectedSatisfy(lines, Touches(key));
    assert LastTouching(lines, flow) == row;
    assert row[0] == ' ' && key[0] != ' ';
    KnownFlowTopics(lines, [flow], topic, flow);
    SelectedSatisfy(lines, RowOf(key));
    TopicsOfLastRow(lines, flow, row);
    BlankIsIgnored(listed);
    SplitNone(topic, ',');
    TrimTight(topic, SPACE);
    TrimEachOne(topic);
  }

  /** A row is read whether it is indented or not. */
  lemma IndentedRow(key: string, text: string)
    requires GoodKey(key) && Lacks(text, '=')
    ensures var row := [' '] + Row(key, text); HasKey(key, row) && HasEquals(row) && RawOf(row) == [' '] + text
  {
    var row, head := [' '] + Row(key, text), [' '] + (key + [' ']);
    assert row == head + ['='] + ([' '] + text);
    BlanksAround(key);
    SplitHead(head, '=', [' '] + text);
    SplitNone([' '] + text, '=');
  }

  lemma BlanksAround(key: string)
    requires GoodKey(key)
    ensures var head := [' '] + (key + [' ']); Lacks(head, '=') && Trim(head, SPACE) == key
  {
    SpaceInFront(key + [' ']);
    TrimBlankBehind(key);
  }

  /** The topics of a flow that is not requested stay. */
  lemma OtherFlowsStay(lines: seq<string>, pairs: seq<string>, topics: string, flow: string)
    requires Readable(lines) && GoodFlows(pairs) && GoodFlow(flow) && flow !in pairs
    ensures Rows(Merged(lines, pairs, topics), TopicsKey(flow)) == Rows(lines, TopicsKey(flow))
  {
    forall other | other in pairs
      ensures !(EnabledKey(other) <= TopicsKey(flow)) && !(TopicsKey(other) <= TopicsKey(flow))
    {
      KeyOfOneFlow(other, flow);
    }
    ApartKeysStay(lines, pairs, topics, TopicsKey(flow));
  }
}
