/** Everything disaster recovery reads from a printed text after any run of reconciles. */
module MirrorOutcome {
  import opened Options
  import opened Text
  import opened Lines
  import opened Properties
  import opened TopicMerge
  import opened TopicLaws
  import opened TopicRuns
  import opened TopicJoin
  import opened Transformation
  import opened TransformationLaws
  import opened SwitchLaws
  import opened MirrorPrinter
  import opened MirrorReader
  import opened MirrorOrigins
  import opened MirrorKeys
  import opened MirrorRoundTrip
  import opened MirrorReadBack
  import opened MirrorRuns

  // ----- the switch -----

  /** `w` is the only row of the key. */
  ghost predicate SoleRow(lines: seq<string>, key: string, w: string) {
    w in lines && HasKey(key, w) && forall line | line in lines && HasKey(key, line) :: line == w
  }

  function SwitchText(flow: string, on: bool): string {
    Row(EnabledKey(flow), Bool(on))
  }

  lemma SwitchTextReads(flow: string, on: bool)
    requires GoodFlow(flow)
    ensures var w := SwitchText(flow, on);
      && HasKey(EnabledKey(flow), w) && HasEquals(w) && ValueOf(RawOf(w)) == One(Bool(on)) && EnabledKey(flow) <= w
  {
    KeysAreGood(flow);
    RowReadsBack(EnabledKey(flow), Bool(on));
    BoolReadsBack(on);
    assert Lacks(Bool(on), '=');
    SplitNone([' '] + Bool(on), ',');
    SpaceInFront(Bool(on));
  }

  lemma SoleRowIsFound(lines: seq<string>, key: string, w: string)
    requires Readable(lines) && SoleRow(lines, key, w)
    ensures HasEquals(w) && Lookup(lines, key) == Some(ValueOf(RawOf(w)))
  {
    var rows := Rows(lines, key);
    SelectMember(lines, RowOf(key), w);
    SelectedSatisfy(lines, RowOf(key));
    RowsAreReadable(lines, key);
    assert rows[|rows| - 1] in lines && rows[|rows| - 1] == w;
  }

  lemma SoleSwitchTurns(lines: seq<string>, flow: string, on: bool)
    requires Readable(lines) && GoodFlow(flow) && SoleRow(lines, EnabledKey(flow), SwitchText(flow, on))
    ensures TurnsOn(lines, flow) <==> !on
    ensures Switched(lines, flow)
  {
    SoleRowIsFound(lines, EnabledKey(flow), SwitchText(flow, on));
    SwitchTextReads(flow, on);
    assert "true"[0] == 't' && "false"[0] == 'f';
  }

  lemma KeyOfRewritten(lines: seq<string>, flow: string, other: string, topics: string, line: string)
    requires Readable(lines) && GoodFlow(flow) && GoodFlow(other) && HitBy(lines, other, line)
    requires HasKey(EnabledKey(flow), RewriteBy(lines, other, topics, line))
    ensures other == flow && RewriteBy(lines, other, topics, line) == SwitchText(flow, true)
  {
    RewrittenKey(lines, other, topics, line, EnabledKey(flow));
    KeyOfOneFlow(flow, other);
    KeyOfOneFlow(other, flow);
    KeysAreGood(flow);
    RowReadsBack(TopicsKey(flow), MergedText(lines, flow, topics));
  }

  lemma NewSwitchIsFirst(lines: seq<string>, pairs: seq<string>, topics: string, flow: string, line: string)
    requires Readable(lines) && GoodFlows(pairs) && GoodFlow(flow)
    requires line in NewLines(lines, pairs, topics) && HasKey(EnabledKey(flow), line)
    ensures Rows(lines, EnabledKey(flow)) == []
  {
    var added := NewLines(lines, pairs, topics);
    var i :| 0 <= i < |added| && added[i] == line;
    var other := NewLineIs(lines, pairs, topics, i);
    KeysAreGood(other);
    RowReadsBack(EnabledKey(other), "true");
    RowReadsBack(TopicsKey(other), topics);
    KeyOfOneFlow(flow, other);
    KeyOfOneFlow(other, flow);
  }

  lemma MergedSwitchLine(lines: seq<string>, pairs: seq<string>, topics: string, flow: string, on: bool, line: string)
    requires Readable(lines) && GoodFlows(pairs) && GoodFlow(flow)
    requires SoleRow(lines, EnabledKey(flow), SwitchText(flow, on))
    requires line in Merged(lines, pairs, topics) && HasKey(EnabledKey(flow), line)
    ensures line == SwitchText(flow, on || flow in pairs)
  {
    var w := SwitchText(flow, on);
    SoleSwitchTurns(lines, flow, on);
    SwitchTextReads(flow, on);
    if line in NewLines(lines, pairs, topics) {
      NewSwitchIsFirst(lines, pairs, topics, flow, line);
      SelectMember(lines, RowOf(EnabledKey(flow)), w);
      assert false;
    } else {
      var from := MergedHas(lines, pairs, topics, line);
      if Hit(lines, pairs, from) {
        var other :| other in pairs && HitBy(lines, other, from);
        GoodFlowsAreSeparate(pairs);
        RewriteHit(lines, pairs, topics, from, other);
        KeyOfRewritten(lines, flow, other, topics, from);
      } else {
        RewriteMiss(lines, pairs, topics, from);
        assert flow in pairs ==> !HitBy(lines, flow, from);
      }
    }
  }

  lemma MergeTurnsOn(lines: seq<string>, pairs: seq<string>, topics: string, flow: string, on: bool)
    requires Readable(lines) && GoodFlows(pairs) && GoodFlow(flow)
    requires SoleRow(lines, EnabledKey(flow), SwitchText(flow, on))
    ensures SoleRow(Merged(lines, pairs, topics), EnabledKey(flow), SwitchText(flow, on || flow in pairs))
  {
    var merged, w := Merged(lines, pairs, topics), SwitchText(flow, on || flow in pairs);
    SoleSwitchTurns(lines, flow, on);
    SwitchTextReads(flow, on);
    SwitchTextReads(flow, true);
    if flow in pairs {
      SwitchAppears(lines, pairs, topics, flow);
    } else {
      MergeOfOthersKeepsSwitch(lines, pairs, topics, flow);
      SelectMember(lines, AboutSwitch(flow), w);
      SelectMember(merged, AboutSwitch(flow), w);
    }
    forall line | line in merged && HasKey(EnabledKey(flow), line) ensures line == w {
      MergedSwitchLine(lines, pairs, topics, flow, on, line);
    }
  }

  lemma UpdateMember(d: Definition, lines: seq<string>, line: string)
    ensures line in Update(d, lines) <==> (line in lines && IsKept(d, line)) || line in BlockFor(d, lines)
  {
    UpdateBag(d, lines);
    SelectMember(lines, KeptBy(d), line);
    assert line in Update(d, lines) <==> line in multiset(Update(d, lines));
  }

  lemma UpdateKeepsSoleSwitch(d: Definition, lines: seq<string>, flow: string, w: string)
    requires WellFormed(d) && GoodFlow(d.flow) && GoodFlow(flow) && SoleRow(lines, EnabledKey(flow), w)
    ensures SoleRow(Update(d, lines), EnabledKey(flow), w)
  {
    UpdateMember(d, lines, w);
    AboutIsKept(d, flow, w);
    forall line | line in Update(d, lines) && HasKey(EnabledKey(flow), line) ensures line == w {
      UpdateMember(d, lines, line);
      BlockIsNotAbout(d, lines, flow);
      SelectMember(BlockFor(d, lines), AboutSwitch(flow), line);
    }
  }

  lemma {:induction false} TransformedKeepsSoleSwitch(lines: seq<string>, p: seq<string>,
                                                      f: string -> Option<Definition>, flow: string, w: string)
    requires FlowUpdates(p, f) && GoodFlow(flow) && SoleRow(lines, EnabledKey(flow), w)
    ensures SoleRow(Transformed(lines, p, f), EnabledKey(flow), w)
    decreases |p|
  {
    if p != [] {
      var seen, last := p[..|p| - 1], p[|p| - 1];
      TransformedKeepsSoleSwitch(lines, seen, f, flow, w);
      if f(last).Some? {
        UpdateKeepsSoleSwitch(f(last).value, Transformed(lines, seen, f), flow, w);
      }
    }
  }

  /** The resource is about the flow. */
  ghost predicate IsAbout(r: Resource, lines: seq<string>, flow: string)
    requires Readable(lines)
  {
    FlowsIn(r, lines).Some? && flow in FlowsIn(r, lines).value
  }

  lemma ReconcileTurnsOn(lines: seq<string>, r: Resource, flow: string, on: bool)
    requires Sound(lines) && GoodResource(r) && GoodFlow(flow)
    requires SoleRow(lines, EnabledKey(flow), SwitchText(flow, on))
    ensures SoleRow(Reconciled(lines, r), EnabledKey(flow), SwitchText(flow, on || IsAbout(r, lines, flow)))
  {
    if FlowsIn(r, lines).Some? {
      var pairs := FlowsIn(r, lines).value;
      FlowsAreGood(r, lines);
      MergeTurnsOn(lines, pairs, r.topics, flow, on);
      TransformedKeepsSoleSwitch(Merged(lines, pairs, r.topics), pairs, r.define, flow,
                                 SwitchText(flow, on || flow in pairs));
    }
  }

  // ----- rows of topics -----

  /** Every topics row of the flow has one equals sign. */
  ghost predicate PlainTopics(lines: seq<string>, flow: string) {
    forall line | line in lines && HasKey(TopicsKey(flow), line) :: |Split(line, '=')| == 2
  }

  lemma WrittenIsPlain(key: string, text: string)
    requires GoodKey(key) && Lacks(text, '=')
    ensures |Split(Row(key, text), '=')| == 2
  {
    assert Row(key, text) == (key + [' ']) + ['='] + ([' '] + text);
    SplitHead(key + [' '], '=', [' '] + text);
    SplitNone([' '] + text, '=');
  }

  lemma MergedTextIsPlain(lines: seq<string>, flow: string, topics: string)
    requires Readable(lines) && KnowsTopics(lines, flow) && Lacks(topics, '=')
    ensures Lacks(MergedText(lines, flow, topics), '=')
  {
    ItemsAreWritable(lines, TopicsKey(flow));
    ItemsAreClean(topics, '=');
    MergeIsWritable(Items(lines, TopicsKey(flow)), ItemsIn(topics));
    JoinLacks(Merge(Items(lines, TopicsKey(flow)), ItemsIn(topics)), ',', '=');
  }

  lemma MergedTopicsLine(lines: seq<string>, pairs: seq<string>, topics: string, flow: string, line: string)
    requires Readable(lines) && GoodFlows(pairs) && GoodFlow(flow) && Lacks(topics, '=') && PlainTopics(lines, flow)
    requires line in Merged(lines, pairs, topics) && HasKey(TopicsKey(flow), line)
    ensures |Split(line, '=')| == 2
  {
    KeysAreGood(flow);
    if line in NewLines(lines, pairs, topics) {
      var added := NewLines(lines, pairs, topics);
      var i :| 0 <= i < |added| && added[i] == line;
      var other := NewLineIs(lines, pairs, topics, i);
      NewTopicsIsPlain(flow, other, topics, line);
    } else {
      var from := MergedHas(lines, pairs, topics, line);
      if Hit(lines, pairs, from) {
        var other :| other in pairs && HitBy(lines, other, from);
        GoodFlowsAreSeparate(pairs);
        RewriteHit(lines, pairs, topics, from, other);
        RewrittenIsPlain(lines, flow, other, topics, from);
      } else {
        RewriteMiss(lines, pairs, topics, from);
      }
    }
  }

  lemma NewTopicsIsPlain(flow: string, other: string, topics: string, line: string)
    requires GoodFlow(flow) && GoodFlow(other) && Lacks(topics, '=') && HasKey(TopicsKey(flow), line)
    requires line == Row(EnabledKey(other), "true") || line == Row(TopicsKey(other), topics)
    ensures |Split(line, '=')| == 2
  {
    KeysAreGood(other);
    WrittenIsPlain(TopicsKey(other), topics);
    WrittenIsPlain(EnabledKey(other), "true");
  }

  lemma RewrittenIsPlain(lines: seq<string>, flow: string, other: string, topics: string, line: string)
    requires Readable(lines) && GoodFlow(flow) && GoodFlow(other) && Lacks(topics, '=') && HitBy(lines, other, line)
    ensures |Split(RewriteBy(lines, other, topics, line), '=')| == 2
  {
    KeysAreGood(other);
    WrittenIsPlain(EnabledKey(other), "true");
    if KnowsTopics(lines, other) {
      MergedTextIsPlain(lines, other, topics);
      WrittenIsPlain(TopicsKey(other), MergedText(lines, other, topics));
    }
  }

  lemma SameRowsArePlain(lines: seq<string>, other: seq<string>, flow: string)
    requires Rows(lines, TopicsKey(flow)) == Rows(other, TopicsKey(flow)) && PlainTopics(lines, flow)
    ensures PlainTopics(other, flow)
  {
    forall line | line in other && HasKey(TopicsKey(flow), line) ensures |Split(line, '=')| == 2 {
      SelectMember(other, RowOf(TopicsKey(flow)), line);
      SelectMember(lines, RowOf(TopicsKey(flow)), line);
    }
  }

  lemma MergedHasTopics(lines: seq<string>, pairs: seq<string>, topics: string, flow: string)
    requires Readable(lines) && GoodFlows(pairs) && GoodFlow(flow)
    ensures Rows(Merged(lines, pairs, topics), TopicsKey(flow)) != []
      <==> Rows(lines, TopicsKey(flow)) != [] || flow in pairs
  {
    if flow !in pairs {
      OtherFlowsStay(lines, pairs, topics, flow);
    } else if KnowsTopics(lines, flow) {
      RowsOfKnown(lines, pairs, topics, flow);
    } else {
      NewTopicsLine(lines, pairs, topics, flow);
      var mapped, row := MapLines(Rewriter(lines, pairs, topics), lines), Row(TopicsKey(flow), topics);
      InsertedHas(mapped, BlackListPosition(mapped), NewLines(lines, pairs, topics), row);
      KeysAreGood(flow);
      RowReadsBack(TopicsKey(flow), topics);
      SelectMember(Merged(lines, pairs, topics), RowOf(TopicsKey(flow)), row);
    }
  }

  lemma ReconcileKeepsPlainTopics(lines: seq<string>, r: Resource, flow: string)
    requires Sound(lines) && GoodResource(r) && GoodFlow(flow) && PlainTopics(lines, flow)
    ensures PlainTopics(Reconciled(lines, r), flow)
    ensures Rows(Reconciled(lines, r), TopicsKey(flow)) != []
      <==> Rows(lines, TopicsKey(flow)) != [] || IsAbout(r, lines, flow)
  {
    if FlowsIn(r, lines).Some? {
      var pairs := FlowsIn(r, lines).value;
      var merged := Merged(lines, pairs, r.topics);
      FlowsAreGood(r, lines);
      forall line | line in merged && HasKey(TopicsKey(flow), line) ensures |Split(line, '=')| == 2 {
        MergedTopicsLine(lines, pairs, r.topics, flow, line);
      }
      MergedHasTopics(lines, pairs, r.topics, flow);
      forall i | 0 <= i < |pairs| ensures Untouched(TopicsKey(flow), pairs[i]) {
        TopicsAreUntouched(flow, pairs[i]);
      }
      TransformedKeepsRows(merged, pairs, r, TopicsKey(flow));
      SameRowsArePlain(merged, Reconciled(lines, r), flow);
    }
  }

  // ----- rows of the flow's black list -----

  function OwnBlockKey(flow: string): string {
    flow + ['.'] + BlockKey()
  }

  lemma BlockKeyIsNobodys(flow: string, other: string)
    requires GoodFlow(flow) && GoodFlow(other)
    ensures Untouched(OwnBlockKey(flow), other) && OwnBlockKey(flow) != TopicsKey(other)
    ensures OwnBlockKey(flow) != EnabledKey(other)
  {
    var rest := BlockKey();
    assert rest[0] == 't' && rest[1] == 'o';
    assert "transforms"[1] == 'r' && "predicates"[0] == 'p' && "enabled"[0] == 'e';
    assert EnabledKey(other) == other + ['.'] + "enabled" && TopicsKey(other) == other + ['.'] + "topics";
    RestIsNoStart(other, "transforms", flow, rest);
    RestIsNoStart(other, "predicates", flow, rest);
    RestIsNoStart(other, "enabled", flow, rest);
    if OwnBlockKey(flow) == TopicsKey(other) {
      FlowOfKey(flow, other, rest, "topics");
    }
  }

  lemma ReconcileAddsNoBlock(lines: seq<string>, r: Resource, flow: string)
    requires Sound(lines) && GoodResource(r) && GoodFlow(flow) && Rows(lines, OwnBlockKey(flow)) == []
    ensures Rows(Reconciled(lines, r), OwnBlockKey(flow)) == []
  {
    if FlowsIn(r, lines).Some? {
      var pairs, key := FlowsIn(r, lines).value, OwnBlockKey(flow);
      FlowsAreGood(r, lines);
      forall i | 0 <= i < |pairs|
        ensures Untouched(key, pairs[i]) && key != EnabledKey(pairs[i]) && key != TopicsKey(pairs[i])
      {
        BlockKeyIsNobodys(flow, pairs[i]);
      }
      MergeAddsNoRow(lines, pairs, r.topics, key);
      TransformedKeepsRows(Merged(lines, pairs, r.topics), pairs, r, key);
    }
  }

  lemma MergeAddsNoRow(lines: seq<string>, pairs: seq<string>, topics: string, key: string)
    requires Readable(lines) && GoodFlows(pairs) && NotOf(key, pairs) && Rows(lines, key) == []
    ensures Rows(Merged(lines, pairs, topics), key) == []
  {
    RowsOfOthers(lines, pairs, topics, key);
    forall i | 0 <= i < |lines| ensures !RowMissed(lines, pairs, key)(lines[i]) {
      SelectMember(lines, RowOf(key), lines[i]);
    }
    SelectNone(lines, RowMissed(lines, pairs, key));
  }

  // ----- runs -----

  /** What a text says about a flow: its switch, its topics rows and no black list of its own. */
  ghost predicate Says(lines: seq<string>, flow: string, on: bool, listed: bool) {
    && SoleRow(lines, EnabledKey(flow), SwitchText(flow, on)) && PlainTopics(lines, flow)
    && (Rows(lines, TopicsKey(flow)) != [] <==> listed) && Rows(lines, OwnBlockKey(flow)) == []
  }

  ghost predicate AnyAbout(rs: seq<Resource>, lines: seq<string>, flow: string)
    requires Readable(lines)
  {
    exists r :: r in rs && IsAbout(r, lines, flow)
  }

  lemma AnyAboutSnoc(rs: seq<Resource>, lines: seq<string>, flow: string)
    requires Readable(lines) && rs != []
    ensures AnyAbout(rs, lines, flow) <==> AnyAbout(rs[..|rs| - 1], lines, flow) || IsAbout(rs[|rs| - 1], lines, flow)
  {
    assert rs == rs[..|rs| - 1] + [rs[|rs| - 1]];
  }

  lemma ReconcileSays(lines: seq<string>, r: Resource, flow: string, on: bool, listed: bool)
    requires Sound(lines) && GoodResource(r) && GoodFlow(flow) && Says(lines, flow, on, listed)
    ensures Says(Reconciled(lines, r), flow, on || IsAbout(r, lines, flow), listed || IsAbout(r, lines, flow))
  {
    ReconcileTurnsOn(lines, r, flow, on);
    ReconcileKeepsPlainTopics(lines, r, flow);
    ReconcileAddsNoBlock(lines, r, flow);
  }

  lemma {:induction false} RunSays(content: string, rs: seq<Resource>, flow: string, on: bool)
    requires Sound(Split(content, '\n')) && GoodResources(rs) && GoodFlow(flow)
    requires Says(Split(content, '\n'), flow, on, false)
    ensures var asked := AnyAbout(rs, Split(content, '\n'), flow);
      Says(Split(Run(content, rs), '\n'), flow, on || asked, asked)
    decreases |rs|
  {
    if rs != [] {
      var seen, last, lines := rs[..|rs| - 1], rs[|rs| - 1], Split(content, '\n');
      var before, asked := Split(Run(content, seen), '\n'), AnyAbout(seen, lines, flow);
      RunSays(content, seen, flow, on);
      AnyAboutSnoc(rs, lines, flow);
      RunKeepsFlows(content, seen, last);
      ReconciledReadsBack(before, last);
      ReconcileSays(before, last, flow, on || asked, asked);
    }
  }

  // ----- reading the flow -----

  lemma NoRowsNoEntry(lines: seq<string>, key: string)
    requires Rows(lines, key) == []
    ensures NoEntry(lines, key)
  {
    forall line | line in lines ensures !IsEntry(key, line) {
      SelectMember(lines, RowOf(key), line);
    }
  }

  lemma NoEntryNoRows(lines: seq<string>, key: string)
    requires Readable(lines) && NoEntry(lines, key)
    ensures Rows(lines, key) == []
  {
    EntriesAreRows(lines, key);
    SelectNone(lines, EntryOf(key));
  }

  lemma SoleRowIsOnlyEntry(lines: seq<string>, key: string, w: string)
    requires SoleRow(lines, key, w) && HasEquals(w)
    ensures OnlyEntry(lines, key, w)
  {
    EqualsIndex(w);
  }

  lemma OnlyEntryIsSoleRow(lines: seq<string>, key: string, w: string)
    requires Readable(lines) && OnlyEntry(lines, key, w)
    ensures SoleRow(lines, key, w)
  {
    forall line | line in lines && HasKey(key, line) ensures line == w {
      EqualsIndex(line);
    }
  }

  lemma EntriesSay(lines: seq<string>, flow: string, on: bool)
    requires Readable(lines) && OnlyEntry(lines, EnabledKey(flow), SwitchText(flow, on))
    requires NoEntry(lines, TopicsKey(flow)) && NoEntry(lines, OwnBlockKey(flow))
    ensures Says(lines, flow, on, false)
  {
    OnlyEntryIsSoleRow(lines, EnabledKey(flow), SwitchText(flow, on));
    NoEntryNoRows(lines, TopicsKey(flow));
    NoEntryNoRows(lines, OwnBlockKey(flow));
    forall line | line in lines ensures !HasKey(TopicsKey(flow), line) {
      SelectMember(lines, RowOf(TopicsKey(flow)), line);
    }
  }

  lemma NoListsPrinted(s: Spec, flow: string)
    requires Printable(s) && GoodFlow(flow) && '>' in flow
    ensures NoEntry(PrintedLines(s), TopicsKey(flow)) && NoEntry(PrintedLines(s), OwnBlockKey(flow))
  {
    ReadRests();
    assert TopicsKey(flow) == flow + ['.'] + "topics";
    NoFlowList(s, flow, "topics");
    NoFlowList(s, flow, BlockKey());
  }

  /** The printed text says about its flow what the specification says. */
  lemma PrintedSays(s: Spec, source: string)
    requires Printable(s) && s.region in Names(s.clusters) && source in Names(s.clusters) && source != s.region
    ensures Says(PrintedLines(s), FlowName(source, s.region), FlowOn(s), false)
  {
    RegionIsTarget(s);
    NamesAreWords(s, source);
    ArrowIsGood(source, s.region);
    PrintedIsClean(s);
    SwitchEntry(s, source, s.region);
    NoListsPrinted(s, FlowName(source, s.region));
    EntriesSay(PrintedLines(s), FlowName(source, s.region), FlowOn(s));
  }

  lemma SwitchIsRead(lines: seq<string>, props: map<string, string>, source: string, target: string, on: bool)
    requires PropsOf(props, lines) && Word(source) && Word(target)
    requires SoleRow(lines, EnabledKey(FlowName(source, target)), SwitchText(FlowName(source, target), on))
    ensures IsEnabledIn(props, FlowName(source, target)) == on
  {
    var flow, key := FlowName(source, target), EnabledKey(FlowName(source, target));
    ArrowIsGood(source, target);
    SwitchTextReads(flow, on);
    SoleRowIsOnlyEntry(lines, key, SwitchText(flow, on));
    PropOnly(props, lines, key, SwitchText(flow, on));
    KeysAreGood(flow);
    RowEntry(key, Bool(on));
    SwitchIsArrow(source, target);
    BoolReadsBack(on);
  }

  /** Without an own row the general list is read. */
  lemma GeneralIsRead(lines: seq<string>, props: map<string, string>, other: map<string, string>, flow: string,
                      key: string)
    requires PropsOf(props, lines) && Rows(lines, flow + ['.'] + key) == [] && SameProp(other, props, key)
    requires flow + ['.'] + key !in other
    ensures LocalOrGlobal(props, flow, key) == LocalOrGlobal(other, flow, key)
  {
    NoRowsNoEntry(lines, flow + ['.'] + key);
    PropNone(props, lines, flow + ['.'] + key);
    assert flow + "." + key == flow + ['.'] + key;
  }

  lemma PlainValue(line: string)
    requires |Split(line, '=')| == 2
    ensures HasEquals(line) && IndexOf(line, '=') < |line| && FullValue(line) == Trim(RawOf(line), SPACE)
  {
    EqualsIndex(line);
    var rest := line[IndexOf(line, '=') + 1..];
    JoinSplit(rest, '=');
    assert Split(line, '=') == [line[..IndexOf(line, '=')]] + Split(rest, '=');
    assert Split(rest, '=') == [Split(rest, '=')[0]];
  }

  /** The list is read as the topics; a list of nothing but an empty topic is read as empty. */
  ghost predicate ReadAs(list: seq<string>, topics: set<string>) {
    (set t | t in list) == topics || (list == [] && topics == {""})
  }

  lemma ListIsReadAs(raw: string)
    ensures ReadAs(ListOf(Trim(raw, SPACE)), set t | t in ItemsIn(raw))
  {
    ListOfTrimmed(raw);
    if Trim(raw, SPACE) == "" {
      ItemsOfTrimmed(raw);
      SplitNone("", ',');
      TrimEachOne("");
      assert ItemsIn(raw) == [""];
    }
  }

  lemma TopicsIsArrow(source: string, target: string)
    requires Word(source) && Word(target)
    ensures IsArrow(TopicsKey(FlowName(source, target)), ".topics")
  {
    var key, tail := TopicsKey(FlowName(source, target)), [">"][0] + target + ".topics";
    WordIsGood(source);
    assert key == source + ['-'] + tail;
    IndexOfFirst(source, '-', tail);
    assert key[..|source|] == source && key[|source| + 1] == '>';
    assert key[|key| - 7..] == ".topics" && key[|source| + 2..|key| - 7] == target;
  }

  lemma LastRowIsFound(lines: seq<string>, key: string, props: map<string, string>)
    requires Readable(lines) && PropsOf(props, lines) && Rows(lines, key) != []
    ensures var row := Rows(lines, key)[|Rows(lines, key)| - 1];
      IndexOf(row, '=') < |row| && key in props && props[key] == FullValue(row)
  {
    EntriesAreRows(lines, key);
    SelectedSatisfy(lines, EntryOf(key));
    assert Find(lines, key) == if key in props then Some(props[key]) else None;
  }

  lemma OwnTopicsAreRead(props: map<string, string>, source: string, target: string)
    requires Word(source) && Word(target) && TopicsKey(FlowName(source, target)) in props
    ensures var flow := FlowName(source, target);
      LocalOrGlobal(props, flow, "topics") == Some(ListOf(props[TopicsKey(flow)]))
  {
    var flow := FlowName(source, target);
    TopicsIsArrow(source, target);
    assert TopicsKey(flow) == flow + "." + "topics" && "." + "topics" == ".topics";
  }

  /** A topics row of the flow is read as its topics. */
  lemma TopicsRowIsRead(lines: seq<string>, props: map<string, string>, flow: string)
    requires Readable(lines) && PropsOf(props, lines) && PlainTopics(lines, flow) && Rows(lines, TopicsKey(flow)) != []
    ensures TopicsKey(flow) in props && ReadAs(ListOf(props[TopicsKey(flow)]), TopicSet(lines, flow))
  {
    var key, rows := TopicsKey(flow), Rows(lines, TopicsKey(flow));
    var row := rows[|rows| - 1];
    SelectedSatisfy(lines, RowOf(key));
    LastRowIsFound(lines, key, props);
    PlainValue(row);
    TopicsOfLastRow(lines, flow, row);
    ListIsReadAs(RawOf(row));
  }

  // ----- the outcome -----

  lemma GeneralListsAreOfNoFlow()
    ensures NoFlowEdits("topics") && NoFlowEdits(BlockKey())
  {
    DotlessIsOfNoFlow("topics");
    FirstLetters("blacklist");
    RestIsOfNoFlow("topics", "blacklist");
  }

  /** What is read of the flow after the run. */
  ghost predicate FlowOutcome(s: Spec, rs: seq<Resource>, lines: seq<string>, flow: string, reading: Reading)
    requires Readable(lines)
  {
    var asked := AnyAbout(rs, lines, flow);
    && reading.enabled == (FlowOn(s) || asked) && reading.block == ExpectedBlock(s)
    && if !asked then reading.allow == ExpectedAllow(s)
       else reading.allow.Some? && ReadAs(reading.allow.value, AskedBy(rs, lines, flow))
  }

  lemma RunFrom(content: string, rs: seq<Resource>, flow: string, on: bool)
    requires Sound(Split(content, '\n')) && GoodResources(rs) && GoodFlow(flow)
    requires Says(Split(content, '\n'), flow, on, false)
    ensures var lines, now := Split(content, '\n'), Split(Run(content, rs), '\n');
      var asked := AnyAbout(rs, lines, flow);
      Says(now, flow, on || asked, asked) && TopicSet(now, flow) == AskedBy(rs, lines, flow)
  {
    RunSays(content, rs, flow, on);
    RunJoinsTopics(content, rs, flow);
    assert TopicSet(Split(content, '\n'), flow) == {};
  }

  /** The run as lines: what it says of the flow, and which topics. */
  lemma RunOfPrinted(s: Spec, rs: seq<Resource>, source: string)
    requires Printable(s) && |s.clusters| >= 2 && GoodResources(rs)
    requires s.region in Names(s.clusters) && source in Names(s.clusters) && source != s.region
    ensures Sound(Split(Printed(s), '\n')) && Split(Printed(s), '\n') == PrintedLines(s)
    ensures var flow, lines := FlowName(source, s.region), PrintedLines(s); var asked := AnyAbout(rs, lines, flow);
      var now := Split(Run(Printed(s), rs), '\n');
      Says(now, flow, FlowOn(s) || asked, asked) && TopicSet(now, flow) == AskedBy(rs, lines, flow)
  {
    PrintedIsSound(s);
    PrintedSplits(s);
    RegionIsTarget(s);
    NamesAreWords(s, source);
    ArrowIsGood(source, s.region);
    PrintedSays(s, source);
    RunFrom(Printed(s), rs, FlowName(source, s.region), FlowOn(s));
  }

  lemma BlockOutcome(s: Spec, lines: seq<string>, source: string, before: map<string, string>,
                     after: map<string, string>)
    requires Printable(s) && PropsOf(before, PrintedLines(s)) && PropsOf(after, lines) && Word(source) && Word(s.region)
    requires Rows(lines, OwnBlockKey(FlowName(source, s.region))) == [] && SameProp(before, after, BlockKey())
    ensures LocalOrGlobal(after, FlowName(source, s.region), BlockKey()) == ExpectedBlock(s)
  {
    var flow := FlowName(source, s.region);
    BlockProp(s, before, source, s.region);
    ArrowIsGood(source, s.region);
    NoListsPrinted(s, flow);
    PropNone(before, PrintedLines(s), OwnBlockKey(flow));
    GeneralIsRead(lines, after, before, flow, BlockKey());
  }

  lemma TopicsKeyIs(flow: string)
    ensures TopicsKey(flow) == flow + ['.'] + "topics"
  {
  }

  lemma NoTopicsProp(s: Spec, source: string, before: map<string, string>)
    requires Printable(s) && PropsOf(before, PrintedLines(s)) && Word(source) && Word(s.region)
    ensures FlowName(source, s.region) + ['.'] + "topics" !in before
  {
    ArrowIsGood(source, s.region);
    NoListsPrinted(s, FlowName(source, s.region));
    TopicsKeyIs(FlowName(source, s.region));
    PropNone(before, PrintedLines(s), TopicsKey(FlowName(source, s.region)));
  }

  lemma AllowOutcome(s: Spec, lines: seq<string>, source: string, before: map<string, string>,
                     after: map<string, string>)
    requires Printable(s) && PropsOf(before, PrintedLines(s)) && PropsOf(after, lines) && Word(source) && Word(s.region)
    requires Rows(lines, TopicsKey(FlowName(source, s.region))) == [] && SameProp(before, after, "topics")
    ensures LocalOrGlobal(after, FlowName(source, s.region), "topics") == ExpectedAllow(s)
  {
    AllowProp(s, before, source, s.region);
    NoTopicsProp(s, source, before);
    TopicsKeyIs(FlowName(source, s.region));
    GeneralIsRead(lines, after, before, FlowName(source, s.region), "topics");
  }

  /** The flow of the reading, with its source and lists. */
  ghost function FlowReading(props: map<string, string>, flow: string, sides: Reading): Reading {
    sides.(enabled := IsEnabledIn(props, flow), allow := LocalOrGlobal(props, flow, "topics"),
           block := LocalOrGlobal(props, flow, BlockKey()))
  }

  lemma FlowIsReadAfterRun(s: Spec, rs: seq<Resource>, source: string, before: map<string, string>,
                           after: map<string, string>, sides: Reading)
    requires Printable(s) && |s.clusters| >= 2 && GoodResources(rs)
    requires s.region in Names(s.clusters) && source in Names(s.clusters) && source != s.region
    requires (PrintedIsSound(s); PropsOf(after, Split(Run(Printed(s), rs), '\n')))
    requires PropsOf(before, PrintedLines(s)) && SameProp(before, after, "topics")
    requires SameProp(before, after, BlockKey())
    ensures Readable(PrintedLines(s))
    ensures var flow := FlowName(source, s.region);
      FlowOutcome(s, rs, PrintedLines(s), flow, FlowReading(after, flow, sides))
  {
    PrintedIsSound(s);
    RunOfPrinted(s, rs, source);
    RegionIsTarget(s);
    NamesAreWords(s, source);
    var flow, now := FlowName(source, s.region), Split(Run(Printed(s), rs), '\n');
    var asked := AnyAbout(rs, PrintedLines(s), flow);
    SwitchIsRead(now, after, source, s.region, FlowOn(s) || asked);
    BlockOutcome(s, now, source, before, after);
    if asked {
      TopicsRowIsRead(now, after, flow);
      OwnTopicsAreRead(after, source, s.region);
    } else {
      AllowOutcome(s, now, source, before, after);
    }
  }

  lemma ReadIsOfItsFlow(props: map<string, string>)
    requires Read(props).Ok?
    ensures var r := Read(props).reading; r == FlowReading(props, FlowName(r.source, r.target), r)
  {
  }

  lemma ExpectedSource(s: Spec)
    requires Recoverable(s)
    ensures var r := ExpectedReading(s); r.target == s.region && r.source in Names(s.clusters) && r.source != s.region
  {
  }

  lemma ListsStay(s: Spec, rs: seq<Resource>, before: map<string, string>, after: map<string, string>)
    requires Printable(s) && |s.clusters| >= 2 && GoodResources(rs) && PropsOf(before, Split(Printed(s), '\n'))
    requires (PrintedIsSound(s); PropsOf(after, Split(Run(Printed(s), rs), '\n')))
    ensures SameProp(before, after, "topics") && SameProp(before, after, BlockKey())
  {
    PrintedIsSound(s);
    GeneralListsAreOfNoFlow();
    RunKeepsProp(Printed(s), rs, "topics", before, after);
    RunKeepsProp(Printed(s), rs, BlockKey(), before, after);
  }

  /**
   After any run on the printed text disaster recovery can read it exactly when it could at first. It then finds
   the printed target, source, brokers and black list, the flow switched on where it was or where a resource asked
   for it, and the topics that were asked for, or the printed ones where none were.
   */
  lemma RunReadsBack(s: Spec, rs: seq<Resource>, after: map<string, string>)
    requires Printable(s) && |s.clusters| >= 2 && GoodResources(rs)
    requires (PrintedIsSound(s); PropsOf(after, Split(Run(Printed(s), rs), '\n')))
    ensures Read(after).Ok? <==> Recoverable(s)
    ensures Recoverable(s) ==> SameSides(Ok(ExpectedReading(s)), Read(after))
    ensures Readable(PrintedLines(s))
    ensures Recoverable(s) ==> var flow := FlowName(ExpectedReading(s).source, s.region);
      FlowOutcome(s, rs, PrintedLines(s), flow, Read(after).reading)
  {
    PrintedIsSound(s);
    PrintedSplits(s);
    var before := PrintedProps(s);
    RunKeepsSides(Printed(s), rs, before, after);
    ListsStay(s, rs, before, after);
    if Recoverable(s) {
      ExpectedSource(s);
      ReadIsOfItsFlow(after);
      FlowIsReadAfterRun(s, rs, ExpectedReading(s).source, before, after, Read(after).reading);
    }
  }
}
