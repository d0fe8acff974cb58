/** Reading the printed properties text gives back what was printed, exactly when it can be read. */
module MirrorRoundTrip {
  import opened Options
  import opened Text
  import opened Lines
  import opened Properties
  import opened TopicMerge
  import opened TopicRuns
  import opened MirrorPrinter
  import opened MirrorReader
  import opened MirrorOrigins
  import opened MirrorKeys
  import opened ResourceText
  import Configurator = TransformationConfigurator

  // ----- values -----

  lemma {:induction false} BlankBehind(s: string)
    ensures Trim(s + [' '], SPACE) == Trim(s, SPACE)
  {
    if s == "" {
      assert ([' '])[1..] == "";
      assert s + [' '] == [' '];
    } else if s[0] == ' ' {
      assert (s + [' '])[1..] == s[1..] + [' '];
      BlankBehind(s[1..]);
    } else {
      assert (s + [' '])[..|s|] == s;
    }
  }

  lemma {:induction false} ItemsWithBlankBehind(s: string)
    ensures ItemsIn(s + [' ']) == ItemsIn(s)
    decreases |s|
  {
    var t, i := s + [' '], IndexOf(s, ',');
    IndexOfSpec(s, ',');
    if i == |s| {
      SplitNone(s, ',');
      SplitNone(t, ',');
      BlankBehind(s);
      TrimEachOne(s);
      TrimEachOne(t);
    } else {
      var head, rest := s[..i], s[i + 1..];
      assert s == head + [','] + rest && t == head + [','] + (rest + [' ']);
      SplitHead(head, ',', rest);
      SplitHead(head, ',', rest + [' ']);
      ItemsWithBlankBehind(rest);
      assert ([head] + Split(rest, ','))[1..] == Split(rest, ',');
      assert ([head] + Split(rest + [' '], ','))[1..] == Split(rest + [' '], ',');
    }
  }

  lemma {:induction false} ItemsOfTrimLeft(s: string)
    ensures ItemsIn(TrimLeft(s, SPACE)) == ItemsIn(s)
  {
    if s != "" && s[0] == ' ' {
      assert s == [' '] + s[1..];
      BlankIsIgnored(s[1..]);
      ItemsOfTrimLeft(s[1..]);
    }
  }

  lemma {:induction false} ItemsOfTrimRight(s: string)
    ensures ItemsIn(TrimRight(s, SPACE)) == ItemsIn(s)
  {
    if s != "" && s[|s| - 1] == ' ' {
      assert s == s[..|s| - 1] + [' '];
      ItemsWithBlankBehind(s[..|s| - 1]);
      ItemsOfTrimRight(s[..|s| - 1]);
    }
  }

  /** Outer blanks make no difference to the items of a list. */
  lemma ItemsOfTrimmed(s: string)
    ensures ItemsIn(Trim(s, SPACE)) == ItemsIn(s)
  {
    ItemsOfTrimLeft(s);
    ItemsOfTrimRight(TrimLeft(s, SPACE));
  }

  lemma ItemsCons(head: string, rest: string)
    requires Lacks(head, ',') && Tight(head, SPACE)
    ensures ItemsIn(head + [','] + rest) == [head] + ItemsIn(rest)
  {
    SplitHead(head, ',', rest);
    TrimTight(head, SPACE);
    assert ([head] + Split(rest, ','))[1..] == Split(rest, ',');
  }

  lemma {:induction false} WideItems(names: seq<string>)
    requires names != [] && forall i | 0 <= i < |names| :: Word(names[i])
    ensures ItemsIn(JoinWide(names)) == names && names[0] <= JoinWide(names) && Lacks(JoinWide(names), '\n')
  {
    WordIsGood(names[0]);
    if |names| == 1 {
      SplitNone(names[0], ',');
      TrimTight(names[0], SPACE);
      TrimEachOne(names[0]);
    } else {
      var rest := JoinWide(names[1..]);
      WideItems(names[1..]);
      assert JoinWide(names) == names[0] + [','] + ([' '] + rest);
      ItemsCons(names[0], [' '] + rest);
      BlankIsIgnored(rest);
    }
  }

  /** The printed list of clusters is read back. */
  lemma ClustersReadBack(names: seq<string>)
    requires forall i | 0 <= i < |names| :: Word(names[i])
    ensures ListOf(Trim(JoinWide(names), SPACE)) == names
  {
    var text := JoinWide(names);
    if names == [] {
      assert Trim(text, SPACE) == "";
    } else {
      WideItems(names);
      WordIsGood(names[0]);
      TrimKeeps(text, names[0], SPACE);
      ItemsOfTrimmed(text);
    }
  }

  lemma ListOfTrimmed(text: string)
    ensures ListOf(Trim(text, SPACE)) == if Trim(text, SPACE) == "" then [] else ItemsIn(text)
    ensures ListOf(Trim(text, SPACE)) == [] <==> Trim(text, SPACE) == ""
  {
    ItemsOfTrimmed(text);
    ItemsAreClean(text, ' ');
  }

  lemma BlockedAreClean(names: seq<string>)
    requires forall i | 0 <= i < |names| :: Word(names[i])
    ensures CleanItems(BlockedTopics(names)) && AllLack(BlockedTopics(names), '\n')
  {
    var own := OwnTopics(names);
    forall i | 0 <= i < |own| ensures Lacks(own[i], ',') && Tight(own[i], SPACE) && Lacks(own[i], '\n') {
      WordIsGood(names[i]);
    }
    InternalAreClean();
  }

  lemma InternalAreClean()
    ensures Lacks(".*\\..*-internal", ',') && Tight(".*\\..*-internal", SPACE) && Lacks(".*\\..*-internal", '\n')
    ensures Lacks(".*\\..*\\.internal", ',') && Tight(".*\\..*\\.internal", SPACE) && Lacks(".*\\..*\\.internal", '\n')
    ensures Lacks("__.*", ',') && Tight("__.*", SPACE) && Lacks("__.*", '\n')
  {
  }

  /** The printed black list is read back. */
  lemma BlockedReadBack(names: seq<string>)
    requires forall i | 0 <= i < |names| :: Word(names[i])
    ensures ListOf(Trim(Join(BlockedTopics(names), ','), SPACE)) == BlockedTopics(names)
    ensures Lacks(Join(BlockedTopics(names), ','), '\n')
  {
    var blocked := BlockedTopics(names);
    var text := Join(blocked, ',');
    BlockedAreClean(names);
    JoinLacks(blocked, ',', '\n');
    SplitJoin(blocked, ',');
    TrimEachClean(blocked);
    ListOfTrimmed(text);
    if Trim(text, SPACE) == "" {
      ItemsOfTrimmed(text);
      SplitNone("", ',');
      TrimEachOne("");
    }
  }

  // ----- the text as lines -----

  lemma NamesAreAllWords(s: Spec)
    requires Printable(s)
    ensures forall i | 0 <= i < |Names(s.clusters)| :: Word(Names(s.clusters)[i])
  {
    forall i | 0 <= i < |Names(s.clusters)| ensures Word(Names(s.clusters)[i]) {
      LowerIsWord(s.clusters[i].name);
    }
  }

  lemma RowIsOneLine(key: string, text: string)
    requires Lacks(key, '\n') && Lacks(text, '\n')
    ensures Lacks(Row(key, text), '\n')
  {
  }

  lemma PlainKeysAreOneLine()
    ensures Lacks("clusters", '\n') && Lacks("topics", '\n') && Lacks(TargetKey(), '\n') && Lacks(BlockKey(), '\n')
  {
  }

  lemma TransformLinesAreClean(s: Spec, source: string, target: string)
    requires Printable(s) && Word(source) && Word(target)
    ensures Clean(TransformLines(s, source, target))
  {
    var flow, subst := FlowName(source, target), if KeepsTopicNames(s) then "" else source + ".";
    ArrowIsGood(source, target);
    WordIsGood(source);
    DefinitionsAreWritable(s.transformation, flow, "", subst);
    var d := Configurator.DefinitionOf(s.transformation, flow, "", subst);
    if d.Some? {
      BlockIsClean(d.value, d.value.transforms, d.value.predicates);
    }
  }

  lemma FlowLineIsOneLine(s: Spec, source: string, target: string, line: string)
    requires Printable(s) && Word(source) && Word(target) && line in FlowLines(s, source, target)
    ensures Lacks(line, '\n')
  {
    var flow := FlowName(source, target);
    ArrowIsGood(source, target);
    FlowLineCases(s, source, target, line);
    if line in TransformLines(s, source, target) {
      TransformLinesAreClean(s, source, target);
    } else if line in SyncLines(flow) {
      SyncLinesAreOneLine(flow);
    } else {
      EnabledRowIsOneLine(flow, FlowOn(s));
    }
  }

  lemma EnabledRowIsOneLine(flow: string, on: bool)
    requires Lacks(flow, '\n')
    ensures Lacks(Row(EnabledKey(flow), Bool(on)), '\n')
  {
    RowIsOneLine(EnabledKey(flow), Bool(on));
  }

  lemma FlowLineCases(s: Spec, source: string, target: string, line: string)
    requires line in FlowLines(s, source, target)
    ensures line in TransformLines(s, source, target) || line in SyncLines(FlowName(source, target))
      || line == Row(EnabledKey(FlowName(source, target)), Bool(FlowOn(s)))
  {
  }

  lemma SyncLinesAreOneLine(flow: string)
    requires Lacks(flow, '\n')
    ensures AllLack(SyncLines(flow), '\n')
  {
    assert Lacks("sync.group.offsets.", '\n') && Lacks("enabled", '\n') && Lacks("interval.seconds", '\n');
  }

  lemma OriginIsOneLine(s: Spec, o: Origin, line: string)
    requires Printable(s) && From(s, o, line)
    ensures Lacks(line, '\n')
  {
    PlainKeysAreOneLine();
    NamesAreAllWords(s);
    match o
    case Blank =>
    case Clusters =>
      if s.clusters != [] {
        WideItems(Names(s.clusters));
      }
      RowIsOneLine("clusters", JoinWide(Names(s.clusters)));
    case Configured(x) =>
      SettingKeyIsGood(x);
      RowIsOneLine(KeyOfSetting(x), x.text);
    case Servers(i) =>
      LowerIsWord(s.clusters[i].name);
      BrokersKeyIsGood(Lower(s.clusters[i].name));
      RowIsOneLine(BrokersKey(Lower(s.clusters[i].name)), s.clusters[i].servers);
    case Region => WordIsGood(s.region);
    case Topics => RowIsOneLine("topics", s.topics);
    case Flow(source, target) =>
      NamesAreWords(s, source);
      NamesAreWords(s, target);
      FlowLineIsOneLine(s, source, target, line);
    case BlackListed =>
      BlockedReadBack(Names(s.clusters));
      RowIsOneLine(BlockKey(), Join(BlockedTopics(Names(s.clusters)), ','));
  }

  /** Splitting the printed text gives the printed lines. */
  lemma PrintedSplits(s: Spec)
    requires Printable(s)
    ensures Split(Printed(s), '\n') == PrintedLines(s)
  {
    var lines := PrintedLines(s);
    forall i | 0 <= i < |lines| ensures Lacks(lines[i], '\n') {
      var o := OriginOf(s, lines[i]);
      OriginIsOneLine(s, o, lines[i]);
    }
    assert Header(s)[0] in lines;
    SplitJoin(lines, '\n');
  }

  // ----- the entries of the keys that are read -----

  /** `w` is the only entry of the key. */
  ghost predicate OnlyEntry(lines: seq<string>, key: string, w: string) {
    w in lines && IsEntry(key, w) && forall line | line in lines && IsEntry(key, line) :: line == w
  }

  ghost predicate NoEntry(lines: seq<string>, key: string) {
    forall line | line in lines :: !IsEntry(key, line)
  }

  lemma FindOnly(lines: seq<string>, key: string, w: string)
    requires OnlyEntry(lines, key, w)
    ensures Find(lines, key) == Some(FullValue(w))
  {
    var entries := Select(lines, EntryOf(key));
    SelectMember(lines, EntryOf(key), w);
    SelectedSatisfy(lines, EntryOf(key));
    assert entries[|entries| - 1] in lines;
  }

  lemma FindNone(lines: seq<string>, key: string)
    requires NoEntry(lines, key)
    ensures Find(lines, key) == None
  {
    SelectNone(lines, EntryOf(key));
  }

  /** The lines of every section are printed. */
  lemma InPrinted(s: Spec, line: string)
    requires line in Header(s)
      || line in ClusterSection(s.clusters) || line in RegionSection(s) || line in ReplicationSection(s)
    ensures line in PrintedLines(s)
  {
  }

  lemma ClustersLine(s: Spec, line: string)
    requires Printable(s) && HasOrigin(s, line) && IsEntry("clusters", line)
    ensures line == Row("clusters", JoinWide(Names(s.clusters)))
  {
    PlainNamesDiffer();
    var o :| From(s, o, line);
    EntryClaims(s, o, line, "clusters");
    DotlessClaims(s, o, "clusters");
  }

  lemma ClustersEntry(s: Spec)
    requires Printable(s)
    ensures OnlyEntry(PrintedLines(s), "clusters", Row("clusters", JoinWide(Names(s.clusters))))
  {
    var w := Row("clusters", JoinWide(Names(s.clusters)));
    PlainKeysAreGood();
    RowEntry("clusters", JoinWide(Names(s.clusters)));
    assert w == Header(s)[1];
    InPrinted(s, w);
    PrintedHaveOrigins(s);
    forall line | line in PrintedLines(s) && IsEntry("clusters", line) ensures line == w {
      ClustersLine(s, line);
    }
  }

  lemma PlainNamesDiffer()
    ensures "clusters" != "topics" && Lacks("clusters", '.') && Lacks("topics", '.')
  {
  }

  lemma TopicsLine(s: Spec, line: string)
    requires Printable(s) && HasOrigin(s, line) && IsEntry("topics", line)
    ensures !s.configurator && s.topics != "" && line == Row("topics", s.topics)
  {
    PlainNamesDiffer();
    var o :| From(s, o, line);
    EntryClaims(s, o, line, "topics");
    DotlessClaims(s, o, "topics");
  }

  lemma TopicsEntry(s: Spec)
    requires Printable(s)
    ensures if !s.configurator && s.topics != "" then OnlyEntry(PrintedLines(s), "topics", Row("topics", s.topics))
      else NoEntry(PrintedLines(s), "topics")
  {
    var w := Row("topics", s.topics);
    PlainKeysAreGood();
    PlainNamesDiffer();
    RowEntry("topics", s.topics);
    if !s.configurator && s.topics != "" {
      assert w in TopicsLines(s);
      assert w in Preamble(s);
      assert w in ReplicationSection(s);
    }
    PrintedHaveOrigins(s);
    forall line | line in PrintedLines(s) && IsEntry("topics", line)
      ensures !s.configurator && s.topics != "" && line == w
    {
      TopicsLine(s, line);
    }
  }

  lemma RegionLineIs(s: Spec, line: string)
    requires Printable(s) && HasOrigin(s, line) && IsEntry(TargetKey(), line)
    ensures s.region != "" && line == RegionLine(s)
  {
    ListKeysHaveADot();
    LastPartsOfLists();
    var o :| From(s, o, line);
    EntryClaims(s, o, line, TargetKey());
    ReadClaims(s, o, TargetKey());
  }

  lemma RegionOnlyEntry(s: Spec)
    requires Printable(s)
    ensures if s.region != "" then OnlyEntry(PrintedLines(s), TargetKey(), RegionLine(s))
      else NoEntry(PrintedLines(s), TargetKey())
  {
    if s.region != "" {
      RegionEntry(s);
      assert RegionLine(s) in RegionSection(s);
    }
    PrintedHaveOrigins(s);
    forall line | line in PrintedLines(s) && IsEntry(TargetKey(), line)
      ensures s.region != "" && line == RegionLine(s)
    {
      RegionLineIs(s, line);
    }
  }

  lemma BlackListLine(s: Spec, line: string)
    requires Printable(s) && HasOrigin(s, line) && IsEntry(BlockKey(), line)
    ensures !s.repeated && line == Row(BlockKey(), Join(BlockedTopics(Names(s.clusters)), ','))
  {
    ListKeysHaveADot();
    LastPartsOfLists();
    var o :| From(s, o, line);
    EntryClaims(s, o, line, BlockKey());
    ReadClaims(s, o, BlockKey());
  }

  lemma BlackListEntry(s: Spec)
    requires Printable(s)
    ensures var w := Row(BlockKey(), Join(BlockedTopics(Names(s.clusters)), ','));
      if !s.repeated then OnlyEntry(PrintedLines(s), BlockKey(), w) else NoEntry(PrintedLines(s), BlockKey())
  {
    var w := Row(BlockKey(), Join(BlockedTopics(Names(s.clusters)), ','));
    PlainKeysAreGood();
    RowEntry(BlockKey(), Join(BlockedTopics(Names(s.clusters)), ','));
    if !s.repeated {
      assert w in BlackList(s);
      assert w in ReplicationSection(s);
    }
    PrintedHaveOrigins(s);
    forall line | line in PrintedLines(s) && IsEntry(BlockKey(), line) ensures !s.repeated && line == w {
      BlackListLine(s, line);
    }
  }

  lemma {:induction false} ServersAreListed(clusters: seq<Cluster>, i: nat)
    requires i < |clusters|
    ensures Row(BrokersKey(Lower(clusters[i].name)), clusters[i].servers) in ClusterSection(clusters)
  {
    if i == |clusters| - 1 {
      assert ClusterLines(clusters[i])[1] == Row(BrokersKey(Lower(clusters[i].name)), clusters[i].servers);
    } else {
      ServersAreListed(clusters[..|clusters| - 1], i);
    }
  }

  lemma ServersArePrinted(s: Spec, i: nat)
    requires i < |s.clusters|
    ensures Row(BrokersKey(Lower(s.clusters[i].name)), s.clusters[i].servers) in PrintedLines(s)
  {
    ServersAreListed(s.clusters, i);
    InPrinted(s, Row(BrokersKey(Lower(s.clusters[i].name)), s.clusters[i].servers));
  }

  lemma BrokersKeyNames(a: string, b: string)
    requires BrokersKey(a) == BrokersKey(b)
    ensures a == b
  {
    assert |a| == |b|;
    assert BrokersKey(a)[..|a|] == a && BrokersKey(b)[..|b|] == b;
  }

  /** An entry of a cluster's brokers stands in the lines of a cluster of that name. */
  lemma BrokersLine(s: Spec, cluster: string, line: string) returns (i: nat)
    requires Printable(s) && Word(cluster) && HasOrigin(s, line) && IsEntry(BrokersKey(cluster), line)
    ensures i < |s.clusters| && cluster == Names(s.clusters)[i]
    ensures line == Row(BrokersKey(cluster), s.clusters[i].servers)
  {
    WordIsGood(cluster);
    BrokersKeyHasADot(cluster);
    LastPartOfBrokers(cluster);
    var o :| From(s, o, line);
    EntryClaims(s, o, line, BrokersKey(cluster));
    EndingsDiffer();
    ReadClaims(s, o, BrokersKey(cluster));
    i := o.i;
    BrokersKeyNames(cluster, Lower(s.clusters[i].name));
  }

  lemma BrokersEntryIn(s: Spec, i: nat, lines: seq<string>)
    requires Printable(s) && i < |s.clusters| && forall line | line in lines :: HasOrigin(s, line)
    requires forall j | 0 <= j < |s.clusters| && Names(s.clusters)[j] == Names(s.clusters)[i] :: j == i
    requires Row(BrokersKey(Names(s.clusters)[i]), s.clusters[i].servers) in lines
    ensures var key := BrokersKey(Names(s.clusters)[i]); OnlyEntry(lines, key, Row(key, s.clusters[i].servers))
  {
    var name := Names(s.clusters)[i];
    LowerIsWord(s.clusters[i].name);
    BrokersKeyIsGood(name);
    RowEntry(BrokersKey(name), s.clusters[i].servers);
    forall line | line in lines && IsEntry(BrokersKey(name), line)
      ensures line == Row(BrokersKey(name), s.clusters[i].servers)
    {
      var j := BrokersLine(s, name, line);
    }
  }

  lemma BrokersEntry(s: Spec, i: nat)
    requires Printable(s) && i < |s.clusters|
    requires forall j | 0 <= j < |s.clusters| && Names(s.clusters)[j] == Names(s.clusters)[i] :: j == i
    ensures var key := BrokersKey(Names(s.clusters)[i]);
      OnlyEntry(PrintedLines(s), key, Row(key, s.clusters[i].servers))
  {
    ServersArePrinted(s, i);
    PrintedHaveOrigins(s);
    BrokersEntryIn(s, i, PrintedLines(s));
  }

  lemma NoBrokers(s: Spec, cluster: string)
    requires Printable(s) && Word(cluster) && cluster !in Names(s.clusters)
    ensures NoEntry(PrintedLines(s), BrokersKey(cluster))
  {
    PrintedHaveOrigins(s);
    forall line | line in PrintedLines(s) ensures !IsEntry(BrokersKey(cluster), line) {
      if IsEntry(BrokersKey(cluster), line) {
        var i := BrokersLine(s, cluster, line);
      }
    }
  }
}
