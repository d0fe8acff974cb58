/** Which printed lines are entries of which key. */
module MirrorKeys {
  import opened Text
  import opened Properties
  import opened TopicMerge
  import opened TopicRuns
  import opened Transformation
  import opened MirrorPrinter
  import opened MirrorReader
  import opened MirrorOrigins
  import Configurator = TransformationConfigurator

  // ----- words and keys -----

  lemma WordIsGood(w: string)
    requires Word(w)
    ensures GoodFlow(w) && Lacks(w, '>') && Lacks(w, '-') && Lacks(w, ',') && Tight(w, SPACE)
  {
  }

  lemma LowerIsWord(w: string)
    requires Word(w)
    ensures Word(Lower(w)) && Lower(Lower(w)) == Lower(w)
  {
  }

  lemma NamesAreWords(s: Spec, name: string)
    requires Printable(s) && (name in Names(s.clusters) || name in TargetNames(s))
    ensures Word(name)
  {
    if name in Names(s.clusters) {
      var i :| 0 <= i < |s.clusters| && name == Lower(s.clusters[i].name);
      LowerIsWord(s.clusters[i].name);
    } else {
      LowerIsWord(s.region);
    }
  }

  /** The part of a key behind its last dot. */
  function LastPart(key: string): string {
    var parts := Split(key, '.');
    parts[|parts| - 1]
  }

  lemma LastPartOf(a: string, b: string)
    ensures LastPart(a + ['.'] + b) == LastPart(b)
  {
    SplitConcat(a, '.', b);
  }

  lemma LastPartAlone(w: string)
    requires Lacks(w, '.')
    ensures LastPart(w) == w
  {
    SplitNone(w, '.');
  }

  lemma LastPartOfBrokers(cluster: string)
    ensures LastPart(BrokersKey(cluster)) == "servers"
  {
    LastPartOf(cluster, "bootstrap" + ['.'] + "servers");
    LastPartOf("bootstrap", "servers");
    LastPartAlone("servers");
  }

  lemma BrokersKeyHasADot(cluster: string)
    ensures '.' in BrokersKey(cluster)
    ensures Lacks(cluster, '>') ==> Lacks(BrokersKey(cluster), '>')
  {
    assert BrokersKey(cluster)[|cluster|] == '.';
  }

  lemma ListKeysHaveADot()
    ensures '.' in TargetKey() && '.' in BlockKey() && Lacks(TargetKey(), '>') && Lacks(BlockKey(), '>')
  {
    assert TargetKey()[6] == '.' && BlockKey()[6] == '.';
  }

  lemma LastPartsOfLists()
    ensures LastPart(TargetKey()) == "dc" && LastPart(BlockKey()) == "blacklist"
  {
    LastPartOf("target", "dc");
    LastPartOf("topics", "blacklist");
    LastPartAlone("dc");
    LastPartAlone("blacklist");
  }

  lemma {:induction false} JoinHas(words: seq<string>, c: char)
    requires |words| >= 2
    ensures c in Join(words, c)
  {
  }

  lemma SettingLacks(x: Setting, c: char)
    requires SettingWords(x.words) && !WordChar(c) && c != '-' && c != '.'
    ensures Lacks(KeyOfSetting(x), c)
  {
    forall i | 0 <= i < |x.words| ensures Lacks(x.words[i], c) {
      assert Simple(x.words[i]);
    }
    JoinLacks(x.words, '.', c);
  }

  lemma SettingEnd(x: Setting)
    requires SettingWords(x.words)
    ensures '.' in KeyOfSetting(x) && !EndsRead(LastPart(KeyOfSetting(x)))
  {
    JoinHas(x.words, '.');
    forall i | 0 <= i < |x.words| ensures Lacks(x.words[i], '.') {
      assert Simple(x.words[i]);
    }
    SplitJoin(x.words, '.');
  }

  lemma SettingKeyIsGood(x: Setting)
    requires SettingWords(x.words)
    ensures GoodKey(KeyOfSetting(x)) && '.' in KeyOfSetting(x) && Lacks(KeyOfSetting(x), '>')
    ensures Lacks(KeyOfSetting(x), '\n') && !EndsRead(LastPart(KeyOfSetting(x)))
  {
    SettingLacks(x, ' ');
    SettingLacks(x, '=');
    SettingLacks(x, '>');
    SettingLacks(x, '\n');
    SettingEnd(x);
    assert Simple(x.words[0]) && KeyOfSetting(x)[0] == x.words[0][0];
  }

  lemma BrokersKeyIsGood(cluster: string)
    requires Word(cluster)
    ensures GoodKey(BrokersKey(cluster)) && Lacks(BrokersKey(cluster), '\n')
  {
    WordIsGood(cluster);
  }

  lemma PlainKeysAreGood()
    ensures GoodKey("clusters") && GoodKey("topics") && GoodKey(BlockKey()) && GoodKey(TargetKey())
  {
  }

  lemma OwnKey(key: string, text: string, q: string)
    requires GoodKey(key) && HasKey(q, Row(key, text))
    ensures q == key
  {
    RowReadsBack(key, text);
  }

  // ----- lines of a flow -----

  lemma ArrowIsGood(source: string, target: string)
    requires Word(source) && Word(target)
    ensures GoodFlow(FlowName(source, target)) && '>' in FlowName(source, target)
  {
    WordIsGood(source);
    WordIsGood(target);
    FlowNameIsGood(source, target);
    assert FlowName(source, target)[|source| + 1] == '>';
  }

  lemma TransformLineIsMarked(s: Spec, source: string, target: string, line: string)
    requires line in TransformLines(s, source, target)
    ensures var flow := FlowName(source, target); Mark(flow, Transforms) <= line || Mark(flow, Predicates) <= line
  {
    var flow, subst := FlowName(source, target), if KeepsTopicNames(s) then "" else source + ".";
    var d := Configurator.DefinitionOf(s.transformation, flow, "", subst).value;
    Configurator.DefinitionsAreWellFormed(s.transformation, d, subst);
    if line in d.config {
      MarkedOwn(d, line);
    } else if line in ListLines(flow, Transforms, d.transforms) {
      MarkedList(flow, line);
    } else {
      MarkedList(flow, line);
    }
  }

  /** An entry of a flow's lines is its switch, a transformation property or a setting of group offsets. */
  lemma FlowEntry(s: Spec, source: string, target: string, line: string, q: string)
    requires Word(source) && Word(target) && line in FlowLines(s, source, target) && HasKey(q, line)
    ensures var flow := FlowName(source, target);
      || (q == EnabledKey(flow) && line == Row(EnabledKey(flow), Bool(FlowOn(s))))
      || Mark(flow, Transforms) <= q || Mark(flow, Predicates) <= q
      || q == SyncKey(flow, "enabled") || q == SyncKey(flow, "interval.seconds")
  {
    var flow := FlowName(source, target);
    ArrowIsGood(source, target);
    KeysAreGood(flow);
    if line == Row(EnabledKey(flow), Bool(FlowOn(s))) {
      OwnKey(EnabledKey(flow), Bool(FlowOn(s)), q);
    } else if line in TransformLines(s, source, target) {
      TransformLineIsMarked(s, source, target, line);
      MarksAreGood(flow);
      if Mark(flow, Transforms) <= line {
        RowStart(q, line, Mark(flow, Transforms));
      } else {
        RowStart(q, line, Mark(flow, Predicates));
      }
    } else {
      SyncEntry(flow, line, q);
    }
  }

  lemma SyncKeysAreGood(flow: string)
    requires GoodFlow(flow)
    ensures GoodKey(SyncKey(flow, "enabled")) && GoodKey(SyncKey(flow, "interval.seconds"))
  {
  }

  lemma SyncEntry(flow: string, line: string, q: string)
    requires GoodFlow(flow) && line in SyncLines(flow) && HasKey(q, line)
    ensures q == SyncKey(flow, "enabled") || q == SyncKey(flow, "interval.seconds")
  {
    SyncKeysAreGood(flow);
    if line == Row(SyncKey(flow, "enabled"), "false") {
      OwnKey(SyncKey(flow, "enabled"), "false", q);
    } else {
      OwnKey(SyncKey(flow, "interval.seconds"), "5", q);
    }
  }

  // ----- who can have an entry of a key -----

  /** What an entry of key `q` from origin `o` tells about `q`. */
  ghost predicate Claims(s: Spec, o: Origin, q: string) {
    match o
    case Blank => false
    case Clusters => q == "clusters"
    case Configured(x) => '.' in q && Lacks(q, '>') && !EndsRead(LastPart(q))
    case Servers(i) => i < |s.clusters| && q == BrokersKey(Lower(s.clusters[i].name))
    case Region => q == TargetKey()
    case Topics => q == "topics"
    case Flow(source, target) => '>' in q && '.' in q
    case BlackListed => q == BlockKey()
  }

  lemma DottedStart(flow: string, rest: string, q: string)
    requires flow + ['.'] + rest <= q && '>' in flow
    ensures '>' in q && '.' in q
  {
    var i :| 0 <= i < |flow| && flow[i] == '>';
    var whole := flow + ['.'] + rest;
    assert whole[i] == '>' && whole[|flow|] == '.';
    assert q[i] == whole[i] && q[|flow|] == whole[|flow|];
  }

  lemma FlowClaims(s: Spec, source: string, target: string, line: string, q: string)
    requires Word(source) && Word(target) && line in FlowLines(s, source, target) && HasKey(q, line)
    ensures '>' in q && '.' in q
  {
    var flow := FlowName(source, target);
    ArrowIsGood(source, target);
    FlowEntry(s, source, target, line, q);
    if q == EnabledKey(flow) {
      assert EnabledKey(flow) == flow + ['.'] + "enabled";
      DottedStart(flow, "enabled", q);
    } else if Mark(flow, Transforms) <= q {
      DottedStart(flow, Noun(Transforms), q);
    } else if Mark(flow, Predicates) <= q {
      DottedStart(flow, Noun(Predicates), q);
    } else if q == SyncKey(flow, "enabled") {
      DottedStart(flow, "sync.group.offsets." + "enabled", q);
    } else {
      DottedStart(flow, "sync.group.offsets." + "interval.seconds", q);
    }
  }

  lemma RegionClaims(s: Spec, q: string)
    requires Word(s.region) && HasKey(q, RegionLine(s))
    ensures q == TargetKey()
  {
    PlainKeysAreGood();
    SplitHead(TargetKey(), '=', s.region);
    TrimTight(TargetKey(), SPACE);
  }

  lemma RegionEntry(s: Spec)
    requires Word(s.region)
    ensures IsEntry(TargetKey(), RegionLine(s)) && FullEntry(RegionLine(s), s.region)
  {
    var key := TargetKey();
    PlainKeysAreGood();
    SplitHead(key, '=', s.region);
    TrimTight(key, SPACE);
    IndexOfFirst(key, '=', s.region);
    assert RegionLine(s)[|key| + 1..] == s.region;
    WordIsGood(s.region);
    TrimTight(s.region, SPACE);
  }

  /** The line has an equals sign with the value behind it. */
  ghost predicate FullEntry(line: string, value: string) {
    IndexOf(line, '=') < |line| && FullValue(line) == value
  }

  lemma RowEntry(key: string, text: string)
    requires GoodKey(key)
    ensures IsEntry(key, Row(key, text)) && FullEntry(Row(key, text), Trim(text, SPACE))
  {
    RowReadsBack(key, text);
    var row := Row(key, text);
    assert row == (key + [' ']) + ['='] + ([' '] + text);
    IndexOfFirst(key + [' '], '=', [' '] + text);
    assert row[|key| + 2..] == [' '] + text;
    SpaceInFront(text);
  }

  lemma EntryClaims(s: Spec, o: Origin, line: string, q: string)
    requires Printable(s) && From(s, o, line) && HasKey(q, line)
    ensures Claims(s, o, q)
  {
    PlainKeysAreGood();
    match o
    case Blank =>
    case Clusters => OwnKey("clusters", JoinWide(Names(s.clusters)), q);
    case Configured(x) =>
      SettingKeyIsGood(x);
      OwnKey(KeyOfSetting(x), x.text, q);
    case Servers(i) =>
      LowerIsWord(s.clusters[i].name);
      BrokersKeyIsGood(Lower(s.clusters[i].name));
      OwnKey(BrokersKey(Lower(s.clusters[i].name)), s.clusters[i].servers, q);
    case Region => RegionClaims(s, q);
    case Topics => OwnKey("topics", s.topics, q);
    case Flow(source, target) =>
      NamesAreWords(s, source);
      NamesAreWords(s, target);
      FlowClaims(s, source, target, line, q);
    case BlackListed => OwnKey(BlockKey(), Join(BlockedTopics(Names(s.clusters)), ','), q);
  }

  lemma BrokersKeys(s: Spec)
    requires Printable(s)
    ensures forall i | 0 <= i < |s.clusters| :: ServersKey(BrokersKey(Lower(s.clusters[i].name)))
  {
    forall i | 0 <= i < |s.clusters| ensures ServersKey(BrokersKey(Lower(s.clusters[i].name))) {
      var name := Lower(s.clusters[i].name);
      LowerIsWord(s.clusters[i].name);
      WordIsGood(name);
      BrokersKeyHasADot(name);
      LastPartOfBrokers(name);
    }
  }

  ghost predicate ServersKey(key: string) {
    '.' in key && Lacks(key, '>') && LastPart(key) == "servers"
  }

  /** A key without a dot belongs to the clusters or the topics. */
  lemma DotlessClaims(s: Spec, o: Origin, q: string)
    requires Printable(s) && Claims(s, o, q) && Lacks(q, '.')
    ensures (o == Clusters && q == "clusters") || (o == Topics && q == "topics")
  {
    ListKeysHaveADot();
    BrokersKeys(s);
  }

  /** A key with an arrow belongs to a flow. */
  lemma ArrowClaims(s: Spec, o: Origin, q: string)
    requires Printable(s) && Claims(s, o, q) && '>' in q
    ensures o.Flow?
  {
    ListKeysHaveADot();
    BrokersKeys(s);
  }

  lemma EndingsDiffer()
    ensures "dc" != "blacklist" && "dc" != "servers" && "blacklist" != "servers"
    ensures '.' !in "clusters" && '.' !in "topics"
  {
    assert "dc"[0] == 'd' && "blacklist"[0] == 'b' && "servers"[0] == 's';
  }

  /** A dotted key without an arrow that ends like a key that is read belongs to no setting. */
  lemma ReadClaims(s: Spec, o: Origin, q: string)
    requires Printable(s) && Claims(s, o, q) && '.' in q && Lacks(q, '>') && EndsRead(LastPart(q))
    ensures LastPart(q) == "dc" ==> o == Region
    ensures LastPart(q) == "blacklist" ==> o == BlackListed
    ensures LastPart(q) == "servers" ==> o.Servers?
  {
    LastPartsOfLists();
    BrokersKeys(s);
    EndingsDiffer();
  }
}
