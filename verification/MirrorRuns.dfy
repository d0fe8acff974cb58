/** The printed properties text is a text the operator can edit, and edits keep what disaster recovery needs. */
module MirrorRuns {
  import opened Options
  import opened Text
  import opened Lines
  import opened Properties
  import opened TopicMerge
  import opened TopicRuns
  import opened TopicJoin
  import opened ResourceText
  import opened MirrorPrinter
  import opened MirrorReader
  import opened MirrorOrigins
  import opened MirrorKeys
  import opened MirrorRoundTrip
  import opened MirrorReadBack
  import opened KmmDrConfig

  // ----- keys that are no rows of a flow -----

  ghost predicate NoFlowKey(key: string) {
    forall flow | GoodFlow(flow) :: key != TopicsKey(flow) && key != EnabledKey(flow)
  }

  lemma UneditedIsNoFlowKey(key: string)
    requires NoFlowEdits(key)
    ensures NoFlowKey(key)
  {
    forall flow | GoodFlow(flow) ensures key != TopicsKey(flow) && key != EnabledKey(flow) {
      assert Untouched(key, flow);
    }
  }

  lemma DottedParts(flow: string, rest: string)
    requires Lacks(flow, '.') && Lacks(rest, '.')
    ensures Split(flow + ['.'] + rest, '.') == [flow, rest]
  {
    SplitHead(flow, '.', rest);
    SplitNone(rest, '.');
  }

  lemma SettingIsNoFlowKey(x: Setting)
    requires SettingWords(x.words)
    ensures NoFlowKey(KeyOfSetting(x))
  {
    var key := KeyOfSetting(x);
    SplitJoin(x.words, '.');
    forall flow | GoodFlow(flow) ensures key != TopicsKey(flow) && key != EnabledKey(flow) {
      assert TopicsKey(flow) == flow + ['.'] + "topics" && EnabledKey(flow) == flow + ['.'] + "enabled";
      DottedParts(flow, "topics");
      DottedParts(flow, "enabled");
    }
  }

  /** A row of a key that belongs to no flow is clean. */
  lemma OtherRowIsClean(key: string, text: string)
    requires GoodKey(key) && Lacks(key, '\n') && Lacks(text, '\n') && NoFlowKey(key)
    ensures CleanLine(Row(key, text))
  {
    var row := Row(key, text);
    RowReadsBack(key, text);
    RowIsOneLine(key, text);
    forall flow | GoodFlow(flow) ensures !HasKey(TopicsKey(flow), row) && !HasKey(EnabledKey(flow), row) {
      assert key != TopicsKey(flow) && key != EnabledKey(flow);
    }
  }

  // ----- every printed line is clean -----

  lemma PlainKeysAreNoFlowKeys()
    ensures NoFlowKey("clusters") && NoFlowKey("topics") && NoFlowKey(TargetKey()) && NoFlowKey(BlockKey())
  {
    DotlessIsOfNoFlow("clusters");
    DotlessIsOfNoFlow("topics");
    FirstLetters("dc");
    RestIsOfNoFlow("target", "dc");
    FirstLetters("blacklist");
    RestIsOfNoFlow("topics", "blacklist");
    UneditedIsNoFlowKey("clusters");
    UneditedIsNoFlowKey("topics");
    UneditedIsNoFlowKey(TargetKey());
    UneditedIsNoFlowKey(BlockKey());
  }

  lemma BrokersAreOfNoFlow(cluster: string)
    requires Lacks(cluster, '.')
    ensures NoFlowEdits(BrokersKey(cluster)) && NoFlowKey(BrokersKey(cluster))
  {
    FirstLetters("bootstrap" + ['.'] + "servers");
    RestIsOfNoFlow(cluster, "bootstrap" + ['.'] + "servers");
    UneditedIsNoFlowKey(BrokersKey(cluster));
  }

  lemma SwitchIsClean(flow: string, on: bool)
    requires GoodFlow(flow)
    ensures CleanLine(Row(EnabledKey(flow), Bool(on)))
  {
    var row := Row(EnabledKey(flow), Bool(on));
    KeysAreGood(flow);
    BoolReadsBack(on);
    assert Lacks(Bool(on), '=');
    RowReadsBack(EnabledKey(flow), Bool(on));
    EnabledRowIsOneLine(flow, on);
    forall other | GoodFlow(other) ensures !HasKey(TopicsKey(other), row) {
      KeyOfOneFlow(other, flow);
    }
  }

  lemma SyncRowIsClean(flow: string, last: string, text: string)
    requires GoodFlow(flow) && GoodKey(SyncKey(flow, last)) && Lacks(last, '\n') && Lacks(text, '\n')
    ensures CleanLine(Row(SyncKey(flow, last), text))
  {
    var rest := "sync.group.offsets." + last;
    assert rest[0] == 's';
    FirstLetters(rest);
    RestIsOfNoFlow(flow, rest);
    UneditedIsNoFlowKey(SyncKey(flow, last));
    assert Lacks("sync.group.offsets.", '\n');
    OtherRowIsClean(SyncKey(flow, last), text);
  }

  lemma SyncLinesAreClean(flow: string)
    requires GoodFlow(flow)
    ensures Clean(SyncLines(flow))
  {
    SyncKeysAreGood(flow);
    SyncRowIsClean(flow, "enabled", "false");
    SyncRowIsClean(flow, "interval.seconds", "5");
  }

  lemma FlowLineIsClean(s: Spec, source: string, target: string, line: string)
    requires Printable(s) && Word(source) && Word(target) && line in FlowLines(s, source, target)
    ensures CleanLine(line)
  {
    var flow := FlowName(source, target);
    ArrowIsGood(source, target);
    FlowLineCases(s, source, target, line);
    if line in TransformLines(s, source, target) {
      TransformLinesAreClean(s, source, target);
    } else if line in SyncLines(flow) {
      SyncLinesAreClean(flow);
    } else {
      SwitchIsClean(flow, FlowOn(s));
    }
  }

  lemma RegionIsClean(s: Spec)
    requires Word(s.region)
    ensures CleanLine(RegionLine(s))
  {
    var line := RegionLine(s);
    WordIsGood(s.region);
    PlainKeysAreOneLine();
    PlainKeysAreNoFlowKeys();
    assert line[|TargetKey()|] == '=';
    EqualsSplits(line);
    forall flow | GoodFlow(flow) ensures !HasKey(TopicsKey(flow), line) && !HasKey(EnabledKey(flow), line) {
      if HasKey(TopicsKey(flow), line) {
        RegionClaims(s, TopicsKey(flow));
      }
      if HasKey(EnabledKey(flow), line) {
        RegionClaims(s, EnabledKey(flow));
      }
    }
  }

  lemma OriginIsClean(s: Spec, o: Origin, line: string)
    requires Printable(s) && From(s, o, line)
    ensures CleanLine(line)
  {
    OriginIsOneLine(s, o, line);
    PlainKeysAreGood();
    PlainKeysAreOneLine();
    PlainKeysAreNoFlowKeys();
    match o
    case Blank =>
    case Clusters =>
      ClustersTextIsOneLine(s);
      OtherRowIsClean("clusters", JoinWide(Names(s.clusters)));
    case Configured(x) =>
      SettingKeyIsGood(x);
      SettingIsNoFlowKey(x);
      OtherRowIsClean(KeyOfSetting(x), x.text);
    case Servers(i) =>
      ServersLineIsClean(s, i);
    case Region => RegionIsClean(s);
    case Topics => OtherRowIsClean("topics", s.topics);
    case Flow(source, target) =>
      NamesAreWords(s, source);
      NamesAreWords(s, target);
      FlowLineIsClean(s, source, target, line);
    case BlackListed =>
      NamesAreAllWords(s);
      BlockedReadBack(Names(s.clusters));
      OtherRowIsClean(BlockKey(), Join(BlockedTopics(Names(s.clusters)), ','));
  }

  lemma ClustersTextIsOneLine(s: Spec)
    requires Printable(s)
    ensures Lacks(JoinWide(Names(s.clusters)), '\n')
  {
    NamesAreAllWords(s);
    if s.clusters != [] {
      WideItems(Names(s.clusters));
    }
  }

  lemma ServersLineIsClean(s: Spec, i: nat)
    requires Printable(s) && i < |s.clusters|
    ensures CleanLine(Row(BrokersKey(Lower(s.clusters[i].name)), s.clusters[i].servers))
  {
    var name := Lower(s.clusters[i].name);
    LowerIsWord(s.clusters[i].name);
    WordIsGood(name);
    BrokersKeyIsGood(name);
    BrokersAreOfNoFlow(name);
    OtherRowIsClean(BrokersKey(name), s.clusters[i].servers);
  }

  // ----- the printed text is sound -----

  lemma EqualsIndex(line: string)
    ensures HasEquals(line) <==> IndexOf(line, '=') < |line|
  {
    IndexOfSpec(line, '=');
  }

  /** Both readers see the same rows in a text without rows that lack an equals sign. */
  lemma {:induction false} EntriesAreRows(lines: seq<string>, key: string)
    requires Readable(lines)
    ensures Select(lines, EntryOf(key)) == Rows(lines, key)
  {
    if lines != [] {
      EqualsIndex(lines[0]);
      EntriesAreRows(lines[1..], key);
    }
  }

  lemma OnlyRow(lines: seq<string>, key: string, w: string)
    requires Readable(lines) && OnlyEntry(lines, key, w)
    ensures HasEquals(w) && Lookup(lines, key) == Some(ValueOf(RawOf(w)))
  {
    EntriesAreRows(lines, key);
    SelectMember(lines, EntryOf(key), w);
    SelectedSatisfy(lines, EntryOf(key));
    RowsAreReadable(lines, key);
    var rows := Rows(lines, key);
    assert rows[|rows| - 1] in lines && rows[|rows| - 1] == w;
  }

  lemma NoRow(lines: seq<string>, key: string)
    requires Readable(lines) && NoEntry(lines, key)
    ensures Lookup(lines, key) == None
  {
    EntriesAreRows(lines, key);
    SelectNone(lines, EntryOf(key));
  }

  lemma {:induction false} WideLacks(names: seq<string>, c: char)
    requires c != ',' && c != ' ' && AllLack(names, c)
    ensures Lacks(JoinWide(names), c)
  {
    if |names| > 1 {
      WideLacks(names[1..], c);
    }
  }

  lemma ManyItems(raw: string)
    requires |ItemsIn(raw)| > 1
    ensures ValueOf(raw) == Many(ItemsIn(raw))
  {
    TrimEachAt(Split(raw, ','), 0);
  }

  /** The list of clusters as the editor reads it. */
  lemma PrintedClusters(s: Spec)
    requires Printable(s) && Readable(PrintedLines(s)) && |s.clusters| >= 2
    ensures Lookup(PrintedLines(s), "clusters") == Some(Many(Names(s.clusters)))
  {
    var names := Names(s.clusters);
    var text := JoinWide(names);
    NamesAreAllWords(s);
    forall i | 0 <= i < |names| ensures Lacks(names[i], '=') {
      WordIsGood(names[i]);
    }
    WideLacks(names, '=');
    WideItems(names);
    ClustersEntry(s);
    OnlyRow(PrintedLines(s), "clusters", Row("clusters", text));
    PlainKeysAreGood();
    RowReadsBack("clusters", text);
    BlankIsIgnored(text);
    ManyItems([' '] + text);
  }

  /** The target as the editor reads it. */
  lemma PrintedTarget(s: Spec)
    requires Printable(s) && Readable(PrintedLines(s))
    ensures Lookup(PrintedLines(s), TargetKey()) == RegionValue(s)
  {
    RegionOnlyEntry(s);
    if s.region == "" {
      NoRow(PrintedLines(s), TargetKey());
    } else {
      OnlyRow(PrintedLines(s), TargetKey(), RegionLine(s));
      WordIsGood(s.region);
      PlainKeysAreGood();
      SplitHead(TargetKey(), '=', s.region);
      SplitNone(s.region, '=');
      SplitNone(s.region, ',');
      TrimTight(s.region, SPACE);
    }
  }

  lemma PrintedIsClean(s: Spec)
    requires Printable(s)
    ensures Clean(PrintedLines(s)) && Readable(PrintedLines(s))
  {
    var lines := PrintedLines(s);
    forall i | 0 <= i < |lines| ensures CleanLine(lines[i]) {
      var o := OriginOf(s, lines[i]);
      OriginIsClean(s, o, lines[i]);
    }
    CleanIsReadable(lines);
  }

  ghost function RegionValue(s: Spec): Option<Value> {
    if s.region == "" then None else Some(One(s.region))
  }

  lemma SpecNamesAreGood(s: Spec)
    requires Printable(s)
    ensures forall n | n in Names(s.clusters) :: GoodFlow(n)
    ensures RegionValue(s).Some? ==> forall n | n in AsItems(RegionValue(s).value) :: GoodFlow(n)
  {
    forall n | n in Names(s.clusters) ensures GoodFlow(n) {
      NamesAreWords(s, n);
      WordIsGood(n);
    }
    if s.region != "" {
      WordIsGood(s.region);
    }
  }

  lemma NamesReadAreGood(s: Spec, lines: seq<string>)
    requires Printable(s) && Readable(lines) && Lookup(lines, "clusters") == Some(Many(Names(s.clusters)))
    requires Lookup(lines, TargetKey()) == RegionValue(s)
    ensures GoodNames(lines)
  {
    SpecNamesAreGood(s);
    assert "target.dc" == TargetKey();
  }

  /** Every printed text with at least two clusters is one the operator can edit. */
  lemma PrintedIsSound(s: Spec)
    requires Printable(s) && |s.clusters| >= 2
    ensures Sound(Split(Printed(s), '\n'))
  {
    PrintedSplits(s);
    PrintedIsClean(s);
    PrintedClusters(s);
    PrintedTarget(s);
    NamesReadAreGood(s, PrintedLines(s));
  }

  // ----- what disaster recovery reads after edits -----

  ghost predicate SameProp(props: map<string, string>, props': map<string, string>, key: string) {
    (key in props <==> key in props') && (key in props ==> props[key] == props'[key])
  }

  lemma SameFound(lines: seq<string>, other: seq<string>, key: string, props: map<string, string>,
                  props': map<string, string>)
    requires Readable(lines) && Readable(other) && Rows(lines, key) == Rows(other, key)
    requires PropsOf(props, lines) && PropsOf(props', other)
    ensures SameProp(props, props', key)
  {
    EntriesAreRows(lines, key);
    EntriesAreRows(other, key);
    assert Find(lines, key) == if key in props then Some(props[key]) else None;
    assert Find(other, key) == if key in props' then Some(props'[key]) else None;
  }

  lemma RunKeepsProp(content: string, rs: seq<Resource>, key: string, before: map<string, string>,
                     after: map<string, string>)
    requires Sound(Split(content, '\n')) && GoodResources(rs) && NoFlowEdits(key)
    requires PropsOf(before, Split(content, '\n')) && PropsOf(after, Split(Run(content, rs), '\n'))
    ensures SameProp(before, after, key)
  {
    RunKeepsRows(content, rs, key);
    SameFound(Split(content, '\n'), Split(Run(content, rs), '\n'), key, before, after);
  }

  lemma RunKeepsBrokers(content: string, rs: seq<Resource>, cluster: string, before: map<string, string>,
                        after: map<string, string>)
    requires Sound(Split(content, '\n')) && GoodResources(rs) && Lacks(cluster, '.')
    requires PropsOf(before, Split(content, '\n')) && PropsOf(after, Split(Run(content, rs), '\n'))
    ensures SameProp(before, after, BrokersKey(cluster))
  {
    BrokersAreOfNoFlow(cluster);
    RunKeepsProp(content, rs, BrokersKey(cluster), before, after);
  }

  /** The names that are read have no dots. */
  ghost predicate Undotted(props: map<string, string>) {
    && ("clusters" in props ==> AllLack(ListOf(props["clusters"]), '.'))
    && (TargetKey() in props ==> Lacks(props[TargetKey()], '.'))
  }

  /** The same error, or the same target, source and brokers. */
  ghost predicate SameSides(a: Result, b: Result) {
    match a
    case Err(e) => b == Err(e)
    case Ok(r) =>
      && b.Ok? && b.reading.target == r.target && b.reading.source == r.source
      && b.reading.targetBrokers == r.targetBrokers && b.reading.sourceBrokers == r.sourceBrokers
  }

  lemma FlowSides(before: map<string, string>, after: map<string, string>, clusters: seq<string>, target: string)
    requires |clusters| == 2 && Brokers(before, target) == Brokers(after, target)
    requires Brokers(before, clusters[0]) == Brokers(after, clusters[0])
    requires Brokers(before, clusters[1]) == Brokers(after, clusters[1])
    ensures SameSides(ReadFlow(before, clusters, target), ReadFlow(after, clusters, target))
  {
  }

  /** The general rows and those of the brokers decide the sides. */
  lemma SidesRead(before: map<string, string>, after: map<string, string>)
    requires Undotted(before) && SameProp(before, after, "clusters") && SameProp(before, after, TargetKey())
    requires forall c | Lacks(c, '.') :: SameProp(before, after, BrokersKey(c))
    ensures SameSides(Read(before), Read(after))
  {
    if "clusters" in before && |ListOf(before["clusters"])| == 2 && SingleValue(before, TargetKey()).Some? {
      var clusters, target := ListOf(before["clusters"]), before[TargetKey()];
      assert SameProp(before, after, BrokersKey(clusters[0])) && SameProp(before, after, BrokersKey(clusters[1]));
      assert SameProp(before, after, BrokersKey(target));
      FlowSides(before, after, clusters, target);
    }
  }

  lemma SideKeysAreOfNoFlow()
    ensures NoFlowEdits("clusters") && NoFlowEdits(TargetKey())
  {
    GeneralKeysAreOfNoFlow();
    assert "target.dc" == TargetKey();
  }

  /**
   Whatever resources are reconciled, disaster recovery reads the same target, source and brokers, or the same
   error.
   */
  lemma RunKeepsSides(content: string, rs: seq<Resource>, before: map<string, string>, after: map<string, string>)
    requires Sound(Split(content, '\n')) && GoodResources(rs) && Undotted(before)
    requires PropsOf(before, Split(content, '\n')) && PropsOf(after, Split(Run(content, rs), '\n'))
    ensures SameSides(Read(before), Read(after))
  {
    SideKeysAreOfNoFlow();
    RunKeepsProp(content, rs, "clusters", before, after);
    RunKeepsProp(content, rs, TargetKey(), before, after);
    forall c | Lacks(c, '.') ensures SameProp(before, after, BrokersKey(c)) {
      RunKeepsBrokers(content, rs, c, before, after);
    }
    SidesRead(before, after);
  }

  lemma {:induction false} PropsExist(lines: seq<string>, n: nat) returns (props: map<string, string>)
    requires n <= |lines|
    ensures PropsOf(props, lines[..n])
  {
    if n == 0 {
      props := map[];
    } else {
      var seen := PropsExist(lines, n - 1);
      PropsNext(seen, lines, n - 1);
      props := WithLine(seen, lines[n - 1]);
    }
  }

  lemma PrintedIsUndotted(s: Spec, props: map<string, string>)
    requires Printable(s) && PropsOf(props, PrintedLines(s))
    ensures Undotted(props)
  {
    ClustersProp(s, props);
    RegionProp(s, props);
    RegionOnlyEntry(s);
    var names := Names(s.clusters);
    forall i | 0 <= i < |names| ensures Lacks(names[i], '.') {
      NamesAreWords(s, names[i]);
      WordIsGood(names[i]);
    }
    if s.region == "" {
      PropNone(props, PrintedLines(s), TargetKey());
    } else {
      PropOnly(props, PrintedLines(s), TargetKey(), RegionLine(s));
      RegionEntry(s);
      WordIsGood(s.region);
    }
  }

  lemma PrintedProps(s: Spec) returns (props: map<string, string>)
    requires Printable(s)
    ensures PropsOf(props, Split(Printed(s), '\n')) && Undotted(props)
    ensures Read(props).Ok? <==> Recoverable(s)
    ensures Recoverable(s) ==> Read(props) == Ok(ExpectedReading(s))
  {
    PrintedSplits(s);
    var lines := PrintedLines(s);
    props := PropsExist(lines, |lines|);
    assert lines[..|lines|] == lines;
    PrintedIsUndotted(s, props);
    ReadsBackExactly(s, props);
  }
}
