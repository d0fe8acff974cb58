/** The round trip of the Mirror Maker properties text. */
module MirrorReadBack {
  import opened Options
  import opened Text
  import opened Properties
  import opened TopicMerge
  import opened TopicRuns
  import opened Transformation
  import opened MirrorPrinter
  import opened MirrorReader
  import opened MirrorOrigins
  import opened MirrorKeys
  import opened MirrorRoundTrip

  // ----- entries of a flow -----

  /** A property of a flow that disaster recovery reads. */
  ghost predicate ReadRest(rest: string) {
    && !("transforms" <= rest) && !("predicates" <= rest) && !("sync.group.offsets." + "enabled" <= rest)
    && !("sync.group.offsets." + "interval.seconds" <= rest)
  }

  lemma ReadRests()
    ensures ReadRest("enabled") && ReadRest("topics") && ReadRest(BlockKey())
    ensures "enabled" != "topics" && "enabled" != BlockKey()
  {
    assert "enabled"[0] == 'e' && "topics"[0] == 't' && "topics"[1] == 'o' && BlockKey()[0] == 't';
    assert BlockKey()[1] == 'o';
    assert "transforms"[1] == 'r' && "predicates"[0] == 'p';
    assert ("sync.group.offsets." + "enabled")[0] == 's' && ("sync.group.offsets." + "interval.seconds")[0] == 's';
  }

  lemma RestOfFlow(flow: string, rest: string, flow': string, rest': string)
    requires Lacks(flow, '.') && Lacks(flow', '.') && flow' + ['.'] + rest' <= flow + ['.'] + rest
    ensures rest' <= rest
  {
    FlowOfKey(flow', flow, rest', rest);
  }

  /** The only entry among the lines of a flow is its switch. */
  lemma FlowKeyLine(s: Spec, flow: string, rest: string, line: string)
    requires Printable(s) && GoodFlow(flow) && '>' in flow && ReadRest(rest)
    requires HasOrigin(s, line) && IsEntry(flow + ['.'] + rest, line)
    ensures rest == "enabled" && line == Row(EnabledKey(flow), Bool(FlowOn(s)))
  {
    var q := flow + ['.'] + rest;
    var o :| From(s, o, line);
    EntryClaims(s, o, line, q);
    assert '>' in q;
    ArrowClaims(s, o, q);
    NamesAreWords(s, o.source);
    NamesAreWords(s, o.target);
    FlowKeyEntry(s, o.source, o.target, flow, rest, line);
  }

  lemma OtherRests(flow: string, rest: string, other: string)
    requires Lacks(flow, '.') && Lacks(other, '.') && ReadRest(rest)
    ensures var q := flow + ['.'] + rest;
      && !(Mark(other, Transforms) <= q) && !(Mark(other, Predicates) <= q)
      && q != SyncKey(other, "enabled") && q != SyncKey(other, "interval.seconds")
  {
    var q := flow + ['.'] + rest;
    if Mark(other, Transforms) <= q {
      RestOfFlow(flow, rest, other, Noun(Transforms));
    }
    if Mark(other, Predicates) <= q {
      RestOfFlow(flow, rest, other, Noun(Predicates));
    }
    if SyncKey(other, "enabled") <= q {
      RestOfFlow(flow, rest, other, "sync.group.offsets." + "enabled");
    }
    if SyncKey(other, "interval.seconds") <= q {
      RestOfFlow(flow, rest, other, "sync.group.offsets." + "interval.seconds");
    }
  }

  lemma SwitchKeyIs(flow: string, rest: string, other: string)
    requires Lacks(flow, '.') && Lacks(other, '.') && flow + ['.'] + rest == EnabledKey(other)
    ensures flow == other && rest == "enabled"
  {
    assert EnabledKey(other) == other + ['.'] + "enabled";
    FlowOfKey(flow, other, rest, "enabled");
    FlowOfKey(other, flow, "enabled", rest);
  }

  lemma FlowKeyEntry(s: Spec, source: string, target: string, flow: string, rest: string, line: string)
    requires Word(source) && Word(target) && GoodFlow(flow) && ReadRest(rest)
    requires line in FlowLines(s, source, target) && HasKey(flow + ['.'] + rest, line)
    ensures rest == "enabled" && line == Row(EnabledKey(flow), Bool(FlowOn(s)))
  {
    var other := FlowName(source, target);
    ArrowIsGood(source, target);
    FlowEntry(s, source, target, line, flow + ['.'] + rest);
    OtherRests(flow, rest, other);
    SwitchKeyIs(flow, rest, other);
  }

  lemma NoFlowList(s: Spec, flow: string, rest: string)
    requires Printable(s) && GoodFlow(flow) && '>' in flow && ReadRest(rest) && rest != "enabled"
    ensures NoEntry(PrintedLines(s), flow + ['.'] + rest)
  {
    PrintedHaveOrigins(s);
    forall line | line in PrintedLines(s) ensures !IsEntry(flow + ['.'] + rest, line) {
      if IsEntry(flow + ['.'] + rest, line) {
        FlowKeyLine(s, flow, rest, line);
      }
    }
  }

  lemma {:induction false} LineOfTarget(s: Spec, source: string, targets: seq<string>, target: string, line: string)
    requires target in targets && source != target && line in FlowLines(s, source, target)
    ensures line in FlowsOfSource(s, source, targets)
  {
    if target != targets[|targets| - 1] {
      LineOfTarget(s, source, targets[..|targets| - 1], target, line);
    }
  }

  lemma {:induction false} LineOfFlow(s: Spec, sources: seq<string>, targets: seq<string>, source: string,
                                      target: string, line: string)
    requires source in sources && target in targets && source != target && line in FlowLines(s, source, target)
    ensures line in FlowSection(s, sources, targets)
  {
    if source == sources[|sources| - 1] {
      LineOfTarget(s, source, targets, target, line);
    } else {
      LineOfFlow(s, sources[..|sources| - 1], targets, source, target, line);
    }
  }

  lemma SwitchIsPrinted(s: Spec, source: string, target: string)
    requires source in Names(s.clusters) && target in TargetNames(s) && source != target
    ensures Row(EnabledKey(FlowName(source, target)), Bool(FlowOn(s))) in PrintedLines(s)
  {
    var w := Row(EnabledKey(FlowName(source, target)), Bool(FlowOn(s)));
    assert FlowLines(s, source, target)[0] == w;
    LineOfFlow(s, Names(s.clusters), TargetNames(s), source, target, w);
    InReplication(s, w);
    InPrinted(s, w);
  }

  lemma InReplication(s: Spec, line: string)
    requires line in FlowSection(s, Names(s.clusters), TargetNames(s))
    ensures line in ReplicationSection(s)
  {
  }

  lemma SwitchLine(s: Spec, flow: string, line: string)
    requires Printable(s) && GoodFlow(flow) && '>' in flow && HasOrigin(s, line) && IsEntry(EnabledKey(flow), line)
    ensures line == Row(EnabledKey(flow), Bool(FlowOn(s)))
  {
    assert EnabledKey(flow) == flow + ['.'] + "enabled";
    ReadRests();
    FlowKeyLine(s, flow, "enabled", line);
  }

  lemma SwitchEntry(s: Spec, source: string, target: string)
    requires Printable(s) && source in Names(s.clusters) && target in TargetNames(s) && source != target
    ensures var key := EnabledKey(FlowName(source, target)); OnlyEntry(PrintedLines(s), key, Row(key, Bool(FlowOn(s))))
  {
    var flow := FlowName(source, target);
    NamesAreWords(s, source);
    NamesAreWords(s, target);
    ArrowIsGood(source, target);
    KeysAreGood(flow);
    RowEntry(EnabledKey(flow), Bool(FlowOn(s)));
    SwitchIsPrinted(s, source, target);
    PrintedHaveOrigins(s);
    forall line | line in PrintedLines(s) && IsEntry(EnabledKey(flow), line)
      ensures line == Row(EnabledKey(flow), Bool(FlowOn(s)))
    {
      SwitchLine(s, flow, line);
    }
  }

  lemma SwitchIsArrow(source: string, target: string)
    requires Word(source) && Word(target)
    ensures IsArrow(EnabledKey(FlowName(source, target)), ".enabled")
  {
    var key := EnabledKey(FlowName(source, target));
    WordIsGood(source);
    assert key == source + ['-'] + ([">"][0] + target + ".enabled");
    IndexOfFirst(source, '-', [">"][0] + target + ".enabled");
    assert key[..|source|] == source && key[|source| + 1] == '>';
    assert key[|key| - 8..] == ".enabled" && key[|source| + 2..|key| - 8] == target;
  }

  // ----- properties -----

  /** The properties that were read from the lines. */
  ghost predicate PropsOf(props: map<string, string>, lines: seq<string>) {
    forall key :: Find(lines, key) == if key in props then Some(props[key]) else None
  }

  lemma PropOnly(props: map<string, string>, lines: seq<string>, key: string, w: string)
    requires PropsOf(props, lines) && OnlyEntry(lines, key, w)
    ensures key in props && props[key] == FullValue(w)
  {
    FindOnly(lines, key, w);
    assert Find(lines, key) == if key in props then Some(props[key]) else None;
  }

  lemma PropNone(props: map<string, string>, lines: seq<string>, key: string)
    requires PropsOf(props, lines) && NoEntry(lines, key)
    ensures key !in props
  {
    FindNone(lines, key);
  }

  lemma ClustersProp(s: Spec, props: map<string, string>)
    requires Printable(s) && PropsOf(props, PrintedLines(s))
    ensures "clusters" in props && ListOf(props["clusters"]) == Names(s.clusters)
  {
    ClustersEntry(s);
    PropOnly(props, PrintedLines(s), "clusters", Row("clusters", JoinWide(Names(s.clusters))));
    PlainKeysAreGood();
    RowEntry("clusters", JoinWide(Names(s.clusters)));
    NamesAreAllWords(s);
    ClustersReadBack(Names(s.clusters));
  }

  lemma RegionProp(s: Spec, props: map<string, string>)
    requires Printable(s) && PropsOf(props, PrintedLines(s))
    ensures SingleValue(props, TargetKey()) == if s.region == "" then None else Some(s.region)
  {
    RegionOnlyEntry(s);
    if s.region == "" {
      PropNone(props, PrintedLines(s), TargetKey());
    } else {
      PropOnly(props, PrintedLines(s), TargetKey(), RegionLine(s));
      RegionEntry(s);
      WordIsGood(s.region);
    }
  }

  /** The names differ pairwise. */
  ghost predicate Distinct(names: seq<string>) {
    forall i, j | 0 <= i < |names| && 0 <= j < |names| && names[i] == names[j] :: i == j
  }

  lemma BrokersProp(s: Spec, props: map<string, string>, i: nat)
    requires Printable(s) && PropsOf(props, PrintedLines(s)) && i < |s.clusters| && Distinct(Names(s.clusters))
    ensures var servers := s.clusters[i].servers;
      Brokers(props, Names(s.clusters)[i]) == if Trim(servers, SPACE) == "" then [] else ItemsIn(servers)
    ensures Brokers(props, Names(s.clusters)[i]) == [] <==> Trim(s.clusters[i].servers, SPACE) == ""
  {
    var name, servers := Names(s.clusters)[i], s.clusters[i].servers;
    BrokersEntry(s, i);
    PropOnly(props, PrintedLines(s), BrokersKey(name), Row(BrokersKey(name), servers));
    LowerIsWord(s.clusters[i].name);
    BrokersKeyIsGood(name);
    RowEntry(BrokersKey(name), servers);
    ListOfTrimmed(servers);
  }

  lemma NoBrokersProp(s: Spec, props: map<string, string>, cluster: string)
    requires Printable(s) && PropsOf(props, PrintedLines(s)) && Word(cluster) && cluster !in Names(s.clusters)
    ensures Brokers(props, cluster) == []
  {
    NoBrokers(s, cluster);
    PropNone(props, PrintedLines(s), BrokersKey(cluster));
  }

  lemma SwitchProp(s: Spec, props: map<string, string>, source: string, target: string)
    requires Printable(s) && PropsOf(props, PrintedLines(s))
    requires source in Names(s.clusters) && target in TargetNames(s) && source != target
    ensures IsEnabledIn(props, FlowName(source, target)) == FlowOn(s)
  {
    var key := EnabledKey(FlowName(source, target));
    SwitchEntry(s, source, target);
    PropOnly(props, PrintedLines(s), key, Row(key, Bool(FlowOn(s))));
    NamesAreWords(s, source);
    NamesAreWords(s, target);
    ArrowIsGood(source, target);
    KeysAreGood(FlowName(source, target));
    RowEntry(key, Bool(FlowOn(s)));
    SwitchIsArrow(source, target);
    BoolReadsBack(FlowOn(s));
  }

  lemma BoolReadsBack(b: bool)
    ensures Trim(Bool(b), SPACE) == Bool(b) && Lacks(Bool(b), ',') && (Lower(Bool(b)) == "true" <==> b)
  {
    TrimTight(Bool(b), SPACE);
    assert Lower("true") == "true";
    assert Lower("false")[0] == 'f';
  }

  /** The topics that were asked for, if any were. */
  ghost function ExpectedAllow(s: Spec): Option<seq<string>> {
    if s.configurator || s.topics == "" then None
    else if Trim(s.topics, SPACE) == "" then Some([]) else Some(ItemsIn(s.topics))
  }

  /** The topics of the clusters themselves and the internal ones, unless replicated topics are replicated again. */
  ghost function ExpectedBlock(s: Spec): Option<seq<string>> {
    var names := Names(s.clusters);
    if s.repeated then None
    else Some(seq(|names|, i requires 0 <= i < |names| => names[i] + "\\.*")
              + [".*\\..*-internal", ".*\\..*\\.internal", "__.*"])
  }

  lemma AllowProp(s: Spec, props: map<string, string>, source: string, target: string)
    requires Printable(s) && PropsOf(props, PrintedLines(s)) && Word(source) && Word(target)
    ensures LocalOrGlobal(props, FlowName(source, target), "topics") == ExpectedAllow(s)
  {
    var flow := FlowName(source, target);
    ArrowIsGood(source, target);
    ReadRests();
    NoFlowList(s, flow, "topics");
    PropNone(props, PrintedLines(s), flow + ['.'] + "topics");
    TopicsEntry(s);
    if !s.configurator && s.topics != "" {
      PropOnly(props, PrintedLines(s), "topics", Row("topics", s.topics));
      PlainKeysAreGood();
      RowEntry("topics", s.topics);
      ListOfTrimmed(s.topics);
    } else {
      PropNone(props, PrintedLines(s), "topics");
    }
  }

  lemma BlockProp(s: Spec, props: map<string, string>, source: string, target: string)
    requires Printable(s) && PropsOf(props, PrintedLines(s)) && Word(source) && Word(target)
    ensures LocalOrGlobal(props, FlowName(source, target), BlockKey()) == ExpectedBlock(s)
  {
    var flow, text := FlowName(source, target), Join(BlockedTopics(Names(s.clusters)), ',');
    ArrowIsGood(source, target);
    ReadRests();
    NoFlowList(s, flow, BlockKey());
    PropNone(props, PrintedLines(s), flow + ['.'] + BlockKey());
    BlackListEntry(s);
    if !s.repeated {
      PropOnly(props, PrintedLines(s), BlockKey(), Row(BlockKey(), text));
      PlainKeysAreGood();
      RowEntry(BlockKey(), text);
      NamesAreAllWords(s);
      BlockedReadBack(Names(s.clusters));
    } else {
      PropNone(props, PrintedLines(s), BlockKey());
    }
  }

  // ----- the round trip -----

  /** Two clusters with different names and brokers, and a region that names one of them as it is printed. */
  ghost predicate Recoverable(s: Spec) {
    && |s.clusters| == 2 && Names(s.clusters)[0] != Names(s.clusters)[1] && s.region in Names(s.clusters)
    && Trim(s.clusters[0].servers, SPACE) != "" && Trim(s.clusters[1].servers, SPACE) != ""
  }

  ghost function ExpectedReading(s: Spec): Reading
    requires Recoverable(s)
  {
    var names := Names(s.clusters);
    var t := if names[1] == s.region then 1 else 0;
    Reading(s.region, names[1 - t], ItemsIn(s.clusters[t].servers), ItemsIn(s.clusters[1 - t].servers),
            s.dr || s.flowEnabled, ExpectedAllow(s), ExpectedBlock(s))
  }

  lemma RegionIsTarget(s: Spec)
    requires Printable(s) && s.region in Names(s.clusters)
    ensures Word(s.region) && s.region in TargetNames(s)
  {
    NamesAreWords(s, s.region);
    var i :| 0 <= i < |s.clusters| && s.region == Lower(s.clusters[i].name);
    LowerIsWord(s.clusters[i].name);
  }

  lemma UnknownRegionFails(s: Spec, props: map<string, string>)
    requires Printable(s) && PropsOf(props, PrintedLines(s)) && |s.clusters| == 2 && s.region != ""
    requires s.region !in Names(s.clusters)
    ensures ReadFlow(props, Names(s.clusters), s.region).Err?
  {
    NoBrokersProp(s, props, s.region);
  }

  lemma FlowListsRead(s: Spec, props: map<string, string>, source: string)
    requires Printable(s) && PropsOf(props, PrintedLines(s)) && source in Names(s.clusters)
    requires s.region in Names(s.clusters)
    requires source != s.region
    ensures var flow := FlowName(source, s.region);
      && IsEnabledIn(props, flow) == FlowOn(s) && LocalOrGlobal(props, flow, "topics") == ExpectedAllow(s)
      && LocalOrGlobal(props, flow, BlockKey()) == ExpectedBlock(s)
  {
    RegionIsTarget(s);
    NamesAreWords(s, source);
    SwitchProp(s, props, source, s.region);
    AllowProp(s, props, source, s.region);
    BlockProp(s, props, source, s.region);
  }

  ghost function ServersOf(s: Spec, i: nat): seq<string>
    requires i < |s.clusters|
  {
    if Trim(s.clusters[i].servers, SPACE) == "" then [] else ItemsIn(s.clusters[i].servers)
  }

  lemma ExpectedIs(s: Spec, t: nat)
    requires |s.clusters| == 2 && t == (if Names(s.clusters)[1] == s.region then 1 else 0)
    requires s.region in Names(s.clusters)
    requires Names(s.clusters)[0] != Names(s.clusters)[1]
    ensures Names(s.clusters)[t] == s.region
    ensures Recoverable(s) <==> ServersOf(s, t) != [] && ServersOf(s, 1 - t) != []
    ensures Recoverable(s)
      ==> ExpectedReading(s) == Reading(s.region, Names(s.clusters)[1 - t], ServersOf(s, t), ServersOf(s, 1 - t),
                                                             FlowOn(s), ExpectedAllow(s), ExpectedBlock(s))
  {
    ItemsAreClean(s.clusters[0].servers, ' ');
    ItemsAreClean(s.clusters[1].servers, ' ');
  }

  lemma FlowReads(s: Spec, props: map<string, string>)
    requires Printable(s) && PropsOf(props, PrintedLines(s)) && |s.clusters| == 2 && s.region in Names(s.clusters)
    requires Names(s.clusters)[0] != Names(s.clusters)[1]
    ensures var r := ReadFlow(props, Names(s.clusters), s.region);
      if Recoverable(s) then r == Ok(ExpectedReading(s)) else r.Err?
  {
    var names := Names(s.clusters);
    var t := if names[1] == s.region then 1 else 0;
    ExpectedIs(s, t);
    BrokersProp(s, props, t);
    BrokersProp(s, props, 1 - t);
    FlowListsRead(s, props, names[1 - t]);
    assert SourceOf(names, s.region) == names[1 - t];
  }

  /**
   Reading the printed text succeeds exactly when there are two clusters with different names and brokers
   and the region names one of them in lower case; then everything that matters is recovered.
   */
  lemma ReadsBackExactly(s: Spec, props: map<string, string>)
    requires Printable(s) && PropsOf(props, Split(Printed(s), '\n'))
    ensures Read(props).Ok? <==> Recoverable(s)
    ensures Recoverable(s) ==> Read(props) == Ok(ExpectedReading(s))
  {
    PrintedSplits(s);
    ClustersProp(s, props);
    RegionProp(s, props);
    var names := Names(s.clusters);
    if s.region in names {
      NamesAreWords(s, s.region);
    }
    if |names| == 2 && names[0] != names[1] && s.region != "" {
      if s.region in names {
        FlowReads(s, props);
      } else {
        UnknownRegionFails(s, props);
      }
    }
  }

  /** With everything else in order, the text can be read exactly when the region was written in lower case. */
  lemma RegionMustBeLowerCase(s: Spec, props: map<string, string>)
    requires Printable(s) && PropsOf(props, Split(Printed(s), '\n'))
    requires Recoverable(s.(region := Lower(s.region)))
    ensures Read(props).Ok? <==> Lower(s.region) == s.region
  {
    ReadsBackExactly(s, props);
    if s.region in Names(s.clusters) {
      var i :| 0 <= i < |s.clusters| && s.region == Lower(s.clusters[i].name);
      LowerIsWord(s.clusters[i].name);
    }
  }
}
