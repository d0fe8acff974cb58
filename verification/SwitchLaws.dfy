/** The switch of a flow through merges and transformation updates, told from the stored text. */
module SwitchLaws {
  import opened Options
  import opened Text
  import opened Lines
  import opened Properties
  import opened TopicMerge
  import opened TopicLaws
  import opened TopicRuns
  import opened Transformation
  import opened TransformationLaws

  // ----- selections a merge keeps -----

  /** The line starts with a key of the flow that a merge looks for. */
  predicate Concerns(flow: string, line: string) {
    EnabledKey(flow) <= line || TopicsKey(flow) <= line
  }

  lemma RewriteConcerns(lines: seq<string>, flow: string, topics: string, line: string)
    requires Readable(lines) && HitBy(lines, flow, line)
    ensures Concerns(flow, line) && Concerns(flow, RewriteBy(lines, flow, topics, line))
  {
    assert Row(EnabledKey(flow), "true")[..|EnabledKey(flow)|] == EnabledKey(flow);
    var row := Row(TopicsKey(flow), MergedText(lines, flow, topics));
    assert row[..|TopicsKey(flow)|] == TopicsKey(flow);
  }

  lemma NewLineConcerns(lines: seq<string>, pairs: seq<string>, topics: string, i: nat) returns (flow: string)
    requires Readable(lines) && i < |NewLines(lines, pairs, topics)|
    ensures flow in pairs && Concerns(flow, NewLines(lines, pairs, topics)[i])
    ensures Rows(lines, EnabledKey(flow)) == [] || TopicsKey(flow) <= NewLines(lines, pairs, topics)[i]
  {
    flow := NewLineIs(lines, pairs, topics, i);
    assert Row(EnabledKey(flow), "true")[..|EnabledKey(flow)|] == EnabledKey(flow);
    assert Row(TopicsKey(flow), topics)[..|TopicsKey(flow)|] == TopicsKey(flow);
  }

  /** The flow rewrites no line of the kind, neither before nor after. */
  ghost predicate Spares(lines: seq<string>, flow: string, topics: string, p: string -> bool)
    requires Readable(lines)
  {
    forall line | line in lines && HitBy(lines, flow, line) :: !p(line) && !p(RewriteBy(lines, flow, topics, line))
  }

  lemma SparedLine(lines: seq<string>, pairs: seq<string>, topics: string, p: string -> bool, line: string)
    requires Readable(lines) && GoodFlows(pairs) && line in lines
    requires forall flow | flow in pairs :: Spares(lines, flow, topics, p)
    ensures p(Rewrite(lines, pairs, topics, line)) <==> p(line)
    ensures p(line) ==> Rewrite(lines, pairs, topics, line) == line
  {
    if Hit(lines, pairs, line) {
      var flow :| flow in pairs && HitBy(lines, flow, line);
      GoodFlowsAreSeparate(pairs);
      RewriteHit(lines, pairs, topics, line, flow);
      assert Spares(lines, flow, topics, p);
    } else {
      RewriteMiss(lines, pairs, topics, line);
    }
  }

  /** A merge keeps every selection that its flows spare and that no new line belongs to. */
  lemma MergeKeepsSelection(lines: seq<string>, pairs: seq<string>, topics: string, p: string -> bool)
    requires Readable(lines) && GoodFlows(pairs)
    requires forall flow | flow in pairs :: Spares(lines, flow, topics, p)
    requires forall line | line in NewLines(lines, pairs, topics) :: !p(line)
    ensures Select(Merged(lines, pairs, topics), p) == Select(lines, p)
  {
    var f, added, selected := Rewriter(lines, pairs, topics), NewLines(lines, pairs, topics), Select(lines, p);
    forall i | 0 <= i < |lines| ensures p(f(lines[i])) <==> p(lines[i]) {
      SparedLine(lines, pairs, topics, p, lines[i]);
    }
    SelectMapped(lines, f, p, p);
    SelectedSatisfy(lines, p);
    forall i | 0 <= i < |selected| ensures f(selected[i]) == selected[i] {
      SparedLine(lines, pairs, topics, p, selected[i]);
    }
    MapLinesSame(f, selected);
    SelectNone(added, p);
    var mapped := MapLines(f, lines);
    SelectInserted(mapped, BlackListPosition(mapped), added, p);
  }

  /** A merge keeps every selection of lines that none of its flows concerns. */
  lemma MergeKeepsOthers(lines: seq<string>, pairs: seq<string>, topics: string, p: string -> bool)
    requires Readable(lines) && GoodFlows(pairs)
    requires forall flow, line | flow in pairs && Concerns(flow, line) :: !p(line)
    ensures Select(Merged(lines, pairs, topics), p) == Select(lines, p)
  {
    var added := NewLines(lines, pairs, topics);
    forall flow | flow in pairs ensures Spares(lines, flow, topics, p) {
      forall line | line in lines && HitBy(lines, flow, line)
        ensures !p(line) && !p(RewriteBy(lines, flow, topics, line))
      {
        RewriteConcerns(lines, flow, topics, line);
      }
    }
    forall i | 0 <= i < |added| ensures !p(added[i]) {
      var flow := NewLineConcerns(lines, pairs, topics, i);
    }
    MergeKeepsSelection(lines, pairs, topics, p);
  }

  // ----- transformation lines -----

  function MarkedBy(flow: string): string -> bool {
    line => Mark(flow, Transforms) <= line || Mark(flow, Predicates) <= line
  }

  /** No line starts with two flow properties whose words do not nest. */
  lemma NoCommonLine(flow: string, word: string, other: string, word': string, line: string)
    requires Lacks(flow, '.') && Lacks(other, '.') && !(word <= word') && !(word' <= word)
    ensures !(flow + ['.'] + word <= line && other + ['.'] + word' <= line)
  {
    var a, b := flow + ['.'] + word, other + ['.'] + word';
    if a <= line && b <= line {
      BeginningsNest(a, b, line);
      if a <= b {
        FlowOfKey(flow, other, word, word');
      } else {
        FlowOfKey(other, flow, word', word);
      }
    }
  }

  lemma NounsDiffer(k: Kind)
    ensures !("enabled" <= Noun(k)) && !(Noun(k) <= "enabled") && !("topics" <= Noun(k)) && !(Noun(k) <= "topics")
  {
    assert "transforms"[0] == 't' && "transforms"[1] == 'r' && "predicates"[0] == 'p';
    assert "enabled"[0] == 'e' && "topics"[0] == 't' && "topics"[1] == 'o';
  }

  lemma MarkedIsNotConcerned(flow: string, other: string, k: Kind, line: string)
    requires Lacks(flow, '.') && Lacks(other, '.') && Mark(flow, k) <= line
    ensures !Concerns(other, line)
  {
    assert TopicsKey(other) == other + ['.'] + "topics" && EnabledKey(other) == other + ['.'] + "enabled";
    NounsDiffer(k);
    NoCommonLine(flow, Noun(k), other, "enabled", line);
    NoCommonLine(flow, Noun(k), other, "topics", line);
  }

  /** A merge leaves the transformation lines of every flow alone. */
  lemma MergeKeepsMarked(lines: seq<string>, pairs: seq<string>, topics: string, flow: string)
    requires Readable(lines) && GoodFlows(pairs) && Lacks(flow, '.')
    ensures Select(Merged(lines, pairs, topics), MarkedBy(flow)) == Select(lines, MarkedBy(flow))
  {
    forall other, line | other in pairs && Concerns(other, line) ensures !MarkedBy(flow)(line) {
      if Mark(flow, Transforms) <= line {
        MarkedIsNotConcerned(flow, other, Transforms, line);
      }
      if Mark(flow, Predicates) <= line {
        MarkedIsNotConcerned(flow, other, Predicates, line);
      }
    }
    MergeKeepsOthers(lines, pairs, topics, MarkedBy(flow));
  }

  /** Listed names are among the marked lines. */
  lemma ListedAmongMarked(flow: string, k: Kind, lines: seq<string>)
    ensures Listed(flow, k, lines) == Gather(Select(lines, MarkedBy(flow)), NamesBy(flow, k))
  {
    forall line | !MarkedBy(flow)(line) ensures NamesBy(flow, k)(line) == [] {
      MarkedListOf(flow, k, line);
    }
    GatherOfSelect(lines, MarkedBy(flow), NamesBy(flow, k));
  }

  lemma MergeKeepsListed(lines: seq<string>, pairs: seq<string>, topics: string, flow: string, k: Kind)
    requires Readable(lines) && GoodFlows(pairs) && Lacks(flow, '.')
    ensures Listed(flow, k, Merged(lines, pairs, topics)) == Listed(flow, k, lines)
  {
    MergeKeepsMarked(lines, pairs, topics, flow);
    ListedAmongMarked(flow, k, lines);
    ListedAmongMarked(flow, k, Merged(lines, pairs, topics));
  }

  lemma MergeKeepsMarkedLine(lines: seq<string>, pairs: seq<string>, topics: string, flow: string, line: string)
    requires Readable(lines) && GoodFlows(pairs) && Lacks(flow, '.') && MarkedBy(flow)(line)
    ensures multiset(Merged(lines, pairs, topics))[line] == multiset(lines)[line]
  {
    MergeKeepsMarked(lines, pairs, topics, flow);
    SelectCount(lines, MarkedBy(flow), line);
    SelectCount(Merged(lines, pairs, topics), MarkedBy(flow), line);
  }

  // ----- the switch -----

  /** The only line that a transformation update takes for the switch of an enabled flow. */
  function SwitchRow(flow: string): string {
    Row(EnabledKey(flow), "true")
  }

  lemma SwitchRowIs(flow: string, lines: seq<string>)
    ensures forall line :: IsEnabled(flow, line) <==> line == SwitchRow(flow)
    ensures Enableds(flow, lines) != [] <==> SwitchRow(flow) in lines
  {
    assert SwitchRow(flow) == flow + ".enabled = true";
    SelectMember(lines, EnabledBy(flow), SwitchRow(flow));
    if Enableds(flow, lines) != [] {
      SelectedSatisfy(lines, EnabledBy(flow));
      assert Enableds(flow, lines)[0] == SwitchRow(flow);
    }
  }

  ghost predicate StartsWithSwitch(lines: seq<string>, flow: string) {
    exists line :: line in lines && EnabledKey(flow) <= line
  }

  /**
   After a merge for the flow its switch can be found: the text has none yet, has it as the operator writes it, or
   says false in some row while some line starts with its key.
   */
  ghost predicate Switched(lines: seq<string>, flow: string)
    requires Readable(lines)
  {
    || Lookup(lines, EnabledKey(flow)).None?
    || SwitchRow(flow) in lines
    || (TurnsOn(lines, flow) && StartsWithSwitch(lines, flow))
  }

  lemma {:induction false} NewSwitchLine(lines: seq<string>, pairs: seq<string>, topics: string, flow: string)
    requires Readable(lines) && flow in pairs && Lookup(lines, EnabledKey(flow)).None?
    ensures SwitchRow(flow) in NewLines(lines, pairs, topics)
    decreases |pairs|
  {
    if flow != pairs[|pairs| - 1] {
      NewSwitchLine(lines, pairs[..|pairs| - 1], topics, flow);
    }
  }

  lemma RewrittenIn(lines: seq<string>, pairs: seq<string>, topics: string, line: string)
    requires Readable(lines) && line in lines
    ensures Rewrite(lines, pairs, topics, line) in Merged(lines, pairs, topics)
  {
    var f := Rewriter(lines, pairs, topics);
    var mapped := MapLines(f, lines);
    var i :| 0 <= i < |lines| && lines[i] == line;
    MapLinesAt(f, lines, i);
    InsertedHas(mapped, BlackListPosition(mapped), NewLines(lines, pairs, topics), mapped[i]);
  }

  lemma InsertedHas(xs: seq<string>, n: nat, added: seq<string>, x: string)
    requires n <= |xs|
    ensures x in xs[..n] + added + xs[n..] <==> x in xs || x in added
  {
    assert xs[..n] + xs[n..] == xs;
  }

  lemma MergedHas(lines: seq<string>, pairs: seq<string>, topics: string, line: string) returns (from: string)
    requires Readable(lines) && line in Merged(lines, pairs, topics) && line !in NewLines(lines, pairs, topics)
    ensures from in lines && Rewrite(lines, pairs, topics, from) == line
  {
    var f := Rewriter(lines, pairs, topics);
    var mapped := MapLines(f, lines);
    InsertedHas(mapped, BlackListPosition(mapped), NewLines(lines, pairs, topics), line);
    var i :| 0 <= i < |mapped| && mapped[i] == line;
    MappedIs(f, lines, i);
    from := lines[i];
  }

  lemma SwitchOfOneFlow(flow: string, other: string, text: string)
    requires GoodFlow(flow) && GoodFlow(other)
    ensures SwitchRow(other) == SwitchRow(flow) ==> other == flow
    ensures Row(TopicsKey(other), text) != SwitchRow(flow)
  {
    KeysAreGood(flow);
    KeysAreGood(other);
    RowReadsBack(EnabledKey(flow), "true");
    RowReadsBack(EnabledKey(other), "true");
    RowReadsBack(TopicsKey(other), text);
    KeyOfOneFlow(other, flow);
  }

  /** Lines that start with the key of the switch become the switch row or stay. */
  lemma RewrittenSwitch(lines: seq<string>, pairs: seq<string>, topics: string, flow: string, line: string)
    requires Readable(lines) && GoodFlows(pairs) && flow in pairs && EnabledKey(flow) <= line
    ensures Rewrite(lines, pairs, topics, line) == if TurnsOn(lines, flow) then SwitchRow(flow) else line
  {
    GoodFlowsAreSeparate(pairs);
    if TurnsOn(lines, flow) {
      assert HitBy(lines, flow, line);
      RewriteHit(lines, pairs, topics, line, flow);
    } else {
      forall other | other in pairs ensures !HitBy(lines, other, line) {
        assert ToldApart(flow, other) && ToldApart(other, flow);
        LineOfOneFlow(flow, other, line);
        LineOfOneFlow(other, flow, line);
      }
      RewriteMiss(lines, pairs, topics, line);
    }
  }

  lemma SwitchAppears(lines: seq<string>, pairs: seq<string>, topics: string, flow: string)
    requires Readable(lines) && GoodFlows(pairs) && flow in pairs && Switched(lines, flow)
    ensures SwitchRow(flow) in Merged(lines, pairs, topics)
  {
    var row := SwitchRow(flow);
    if Lookup(lines, EnabledKey(flow)).None? {
      NewSwitchLine(lines, pairs, topics, flow);
      var mapped := MapLines(Rewriter(lines, pairs, topics), lines);
      InsertedHas(mapped, BlackListPosition(mapped), NewLines(lines, pairs, topics), row);
    } else if row in lines {
      assert row[..|EnabledKey(flow)|] == EnabledKey(flow);
      RewrittenSwitch(lines, pairs, topics, flow, row);
      RewrittenIn(lines, pairs, topics, row);
    } else {
      var line :| line in lines && EnabledKey(flow) <= line;
      RewrittenSwitch(lines, pairs, topics, flow, line);
      RewrittenIn(lines, pairs, topics, line);
    }
  }

  lemma SwitchAppearsOnly(lines: seq<string>, pairs: seq<string>, topics: string, flow: string)
    requires Readable(lines) && GoodFlows(pairs) && flow in pairs && SwitchRow(flow) in Merged(lines, pairs, topics)
    ensures Switched(lines, flow)
  {
    var row, added := SwitchRow(flow), NewLines(lines, pairs, topics);
    if row in added {
      var i :| 0 <= i < |added| && added[i] == row;
      var other := NewLineIs(lines, pairs, topics, i);
      SwitchOfOneFlow(flow, other, topics);
    } else {
      var line := MergedHas(lines, pairs, topics, row);
      if Hit(lines, pairs, line) {
        var other :| other in pairs && HitBy(lines, other, line);
        GoodFlowsAreSeparate(pairs);
        RewriteHit(lines, pairs, topics, line, other);
        SwitchOfOneFlow(flow, other, MergedText(lines, other, topics));
      } else {
        RewriteMiss(lines, pairs, topics, line);
      }
    }
  }

  /** Whether an update will find the switch of a requested flow can be told from the stored text. */
  lemma EnabledAfterMergeExactly(lines: seq<string>, pairs: seq<string>, topics: string, flow: string)
    requires Readable(lines) && GoodFlows(pairs) && flow in pairs
    ensures Enableds(flow, Merged(lines, pairs, topics)) != [] <==> Switched(lines, flow)
  {
    SwitchRowIs(flow, Merged(lines, pairs, topics));
    if Switched(lines, flow) {
      SwitchAppears(lines, pairs, topics, flow);
    } else if SwitchRow(flow) in Merged(lines, pairs, topics) {
      SwitchAppearsOnly(lines, pairs, topics, flow);
    }
  }

  // ----- lines about the switch -----

  /** The lines that say something about the switch of the flow, or look as if they did. */
  function AboutSwitch(flow: string): string -> bool {
    Touches(EnabledKey(flow))
  }

  lemma SwitchRowIsAbout(flow: string)
    ensures AboutSwitch(flow)(SwitchRow(flow))
  {
    assert SwitchRow(flow)[..|EnabledKey(flow)|] == EnabledKey(flow);
  }

  /** The lines about the switch decide it. */
  lemma SwitchLinesDecide(lines: seq<string>, other: seq<string>, flow: string)
    requires Readable(lines) && Readable(other) && Select(lines, AboutSwitch(flow)) == Select(other, AboutSwitch(flow))
    ensures Lookup(lines, EnabledKey(flow)) == Lookup(other, EnabledKey(flow))
    ensures Switched(lines, flow) <==> Switched(other, flow)
  {
    var key, p := EnabledKey(flow), AboutSwitch(flow);
    SelectAgain(lines, RowOf(key), p);
    SelectAgain(other, RowOf(key), p);
    SwitchRowIsAbout(flow);
    SelectMember(lines, p, SwitchRow(flow));
    SelectMember(other, p, SwitchRow(flow));
    SameStarts(lines, other, flow);
    SameStarts(other, lines, flow);
  }

  lemma SameStarts(lines: seq<string>, other: seq<string>, flow: string)
    requires Select(lines, AboutSwitch(flow)) == Select(other, AboutSwitch(flow))
    ensures StartsWithSwitch(lines, flow) ==> StartsWithSwitch(other, flow)
  {
    if line :| line in lines && EnabledKey(flow) <= line {
      SelectMember(lines, AboutSwitch(flow), line);
      SelectMember(other, AboutSwitch(flow), line);
    }
  }

  lemma AboutOneSwitch(flow: string, other: string, line: string)
    requires GoodFlow(flow) && GoodFlow(other) && AboutSwitch(flow)(line)
    ensures Concerns(other, line) ==> flow == other && EnabledKey(flow) <= line
  {
    KeysAreGood(other);
    KeyOfOneFlow(flow, other);
    KeyOfOneFlow(other, flow);
    LineOfOneFlow(other, flow, line);
    if HasKey(EnabledKey(flow), line) && EnabledKey(other) <= line {
      RowStart(EnabledKey(flow), line, EnabledKey(other));
    }
    if HasKey(EnabledKey(flow), line) && TopicsKey(other) <= line {
      RowStart(EnabledKey(flow), line, TopicsKey(other));
    }
  }

  lemma MergeOfOthersKeepsSwitch(lines: seq<string>, pairs: seq<string>, topics: string, flow: string)
    requires Readable(lines) && GoodFlows(pairs) && GoodFlow(flow) && flow !in pairs
    ensures Select(Merged(lines, pairs, topics), AboutSwitch(flow)) == Select(lines, AboutSwitch(flow))
  {
    forall other, line | other in pairs && Concerns(other, line) ensures !AboutSwitch(flow)(line) {
      if AboutSwitch(flow)(line) {
        AboutOneSwitch(flow, other, line);
      }
    }
    MergeKeepsOthers(lines, pairs, topics, AboutSwitch(flow));
  }

  lemma RowsAreOfOneFlow(flow: string, other: string, text: string)
    requires GoodFlow(flow) && GoodFlow(other)
    ensures !AboutSwitch(flow)(Row(TopicsKey(other), text))
    ensures flow != other ==> !AboutSwitch(flow)(SwitchRow(other))
  {
    assert Row(TopicsKey(other), text)[..|TopicsKey(other)|] == TopicsKey(other);
    SwitchRowIsAbout(other);
    assert SwitchRow(other)[..|EnabledKey(other)|] == EnabledKey(other);
    KeyOfOneFlow(other, flow);
    LineOfRow(flow, other, Row(TopicsKey(other), text));
    LineOfRow(flow, other, SwitchRow(other));
  }

  lemma LineOfRow(flow: string, other: string, row: string)
    requires GoodFlow(flow) && GoodFlow(other) && Concerns(other, row)
    ensures AboutSwitch(flow)(row) ==> flow == other && EnabledKey(flow) <= row
    ensures TopicsKey(other) <= row ==> !AboutSwitch(flow)(row)
  {
    if AboutSwitch(flow)(row) {
      AboutOneSwitch(flow, other, row);
      KeyOfOneFlow(flow, other);
      KeyOfOneFlow(other, flow);
      LineOfOneFlow(other, flow, row);
    }
  }

  /** A merge that does not find the switch leaves all lines about it. */
  lemma QuietMergeKeepsSwitch(lines: seq<string>, pairs: seq<string>, topics: string, flow: string)
    requires Readable(lines) && GoodFlows(pairs) && flow in pairs && !Switched(lines, flow)
    ensures Select(Merged(lines, pairs, topics), AboutSwitch(flow)) == Select(lines, AboutSwitch(flow))
  {
    var added := NewLines(lines, pairs, topics);
    forall other | other in pairs ensures Spares(lines, other, topics, AboutSwitch(flow)) {
      forall line | line in lines && HitBy(lines, other, line)
        ensures !AboutSwitch(flow)(line) && !AboutSwitch(flow)(RewriteBy(lines, other, topics, line))
      {
        RewriteConcerns(lines, other, topics, line);
        LineOfRow(flow, other, line);
        RowsAreOfOneFlow(flow, other, MergedText(lines, other, topics));
      }
    }
    forall i | 0 <= i < |added| ensures !AboutSwitch(flow)(added[i]) {
      var other := NewLineIs(lines, pairs, topics, i);
      RowsAreOfOneFlow(flow, other, topics);
    }
    MergeKeepsSelection(lines, pairs, topics, AboutSwitch(flow));
  }

  // ----- the switch through updates -----

  lemma AboutIsKept(d: Definition, flow: string, line: string)
    requires GoodFlow(d.flow) && GoodFlow(flow) && AboutSwitch(flow)(line)
    ensures IsKept(d, line)
  {
    MarksAreGood(d.flow);
    MarkedLine(d, line);
    TopicsAreUntouched(flow, d.flow);
    AboutIsNotMarked(flow, d.flow, Transforms, line);
    AboutIsNotMarked(flow, d.flow, Predicates, line);
  }

  lemma AboutIsNotMarked(flow: string, other: string, k: Kind, line: string)
    requires GoodFlow(flow) && GoodFlow(other) && AboutSwitch(flow)(line)
    ensures !(Mark(other, k) <= line)
  {
    if Mark(other, k) <= line {
      MarkedIsNotConcerned(other, flow, k, line);
      MarksAreGood(other);
      TopicsAreUntouched(flow, other);
      RowStart(EnabledKey(flow), line, Mark(other, k));
    }
  }

  lemma BlockIsNotAbout(d: Definition, lines: seq<string>, flow: string)
    requires WellFormed(d) && GoodFlow(d.flow) && GoodFlow(flow)
    ensures Select(BlockFor(d, lines), AboutSwitch(flow)) == []
  {
    var block := BlockFor(d, lines);
    BlockIsDropped(d, lines);
    forall i | 0 <= i < |block| ensures !AboutSwitch(flow)(block[i]) {
      assert !KeptBy(d)(block[i]);
      if AboutSwitch(flow)(block[i]) {
        AboutIsKept(d, flow, block[i]);
      }
    }
    SelectNone(block, AboutSwitch(flow));
  }

  lemma OtherUpdateKeepsSwitch(d: Definition, lines: seq<string>, flow: string)
    requires WellFormed(d) && GoodFlow(d.flow) && GoodFlow(flow) && d.flow != flow
    ensures Select(Update(d, lines), AboutSwitch(flow)) == Select(lines, AboutSwitch(flow))
  {
    forall line | AboutSwitch(flow)(line) ensures KeptBy(d)(line) && !EnabledBy(d.flow)(line) {
      AboutIsKept(d, flow, line);
      if IsEnabled(d.flow, line) {
        MarkedLine(d, line);
        AboutOneSwitch(flow, d.flow, line);
      }
    }
    BlockIsNotAbout(d, lines, flow);
    SelectWeave(lines, KeptBy(d), EnabledBy(d.flow), BlockFor(d, lines), AboutSwitch(flow));
  }

  lemma QuietUpdateKeepsSwitch(d: Definition, lines: seq<string>)
    requires WellFormed(d) && GoodFlow(d.flow) && Enableds(d.flow, lines) == []
    ensures Select(Update(d, lines), AboutSwitch(d.flow)) == Select(lines, AboutSwitch(d.flow))
  {
    forall line | AboutSwitch(d.flow)(line) ensures KeptBy(d)(line) {
      AboutIsKept(d, d.flow, line);
    }
    WithoutStop(lines, KeptBy(d), EnabledBy(d.flow));
    assert Update(d, lines) == Select(lines, KeptBy(d));
    SelectAgain(lines, AboutSwitch(d.flow), KeptBy(d));
  }

  /** The definitions are those of their flows. */
  ghost predicate FlowUpdates(p: seq<string>, f: string -> Option<Definition>) {
    forall x | x in p && f(x).Some? :: WellFormed(f(x).value) && f(x).value.flow == x && GoodFlow(x)
  }

  lemma UpdateKeepsEnableds(d: Definition, lines: seq<string>, flow: string)
    requires WellFormed(d) && GoodFlow(d.flow) && GoodFlow(flow)
    ensures Enableds(flow, Update(d, lines)) == Enableds(flow, lines)
  {
    if d.flow == flow {
      UpdateKeepsParts(d, lines);
    } else {
      OtherFlowsReadTheSame(d, flow, Transforms, lines);
    }
  }

  lemma {:induction false} TransformedKeepsEnableds(lines: seq<string>, p: seq<string>,
                                                    f: string -> Option<Definition>, flow: string)
    requires FlowUpdates(p, f) && GoodFlow(flow)
    ensures Enableds(flow, Transformed(lines, p, f)) == Enableds(flow, lines)
    decreases |p|
  {
    if p != [] {
      var seen, last := p[..|p| - 1], p[|p| - 1];
      TransformedKeepsEnableds(lines, seen, f, flow);
      if f(last).Some? {
        UpdateKeepsEnableds(f(last).value, Transformed(lines, seen, f), flow);
      }
    }
  }

  lemma {:induction false} TransformedKeepsSwitch(lines: seq<string>, p: seq<string>,
                                                  f: string -> Option<Definition>, flow: string)
    requires FlowUpdates(p, f) && GoodFlow(flow) && (flow in p ==> Enableds(flow, lines) == [])
    ensures Select(Transformed(lines, p, f), AboutSwitch(flow)) == Select(lines, AboutSwitch(flow))
    decreases |p|
  {
    if p != [] {
      var seen, last := p[..|p| - 1], p[|p| - 1];
      TransformedKeepsSwitch(lines, seen, f, flow);
      if f(last).Some? {
        var d, before := f(last).value, Transformed(lines, seen, f);
        TransformedKeepsEnableds(lines, seen, f, flow);
        if last == flow {
          QuietUpdateKeepsSwitch(d, before);
        } else {
          OtherUpdateKeepsSwitch(d, before, flow);
        }
      }
    }
  }
}
