/** Where each printed line comes from, and which keys it can be an entry of. */
module MirrorOrigins {
  import opened Text
  import opened Numbers
  import opened Properties
  import opened MirrorPrinter
  import opened ResourceText
  import Configurator = TransformationConfigurator

  /** Names are words, and every text that is printed is a single line. */
  ghost predicate Printable(s: Spec) {
    && (forall i | 0 <= i < |s.clusters| :: Word(s.clusters[i].name) && Lacks(s.clusters[i].servers, '\n'))
    && (s.region == "" || Word(s.region)) && Lacks(s.topics, '\n')
    && OneLineRequest(s.transformation)
  }

  predicate Simple(word: string) {
    word != "" && forall i | 0 <= i < |word| :: WordChar(word[i]) || word[i] == '-'
  }

  /** The words of a setting end in none of the ways the keys disaster recovery reads do, and are no row of a flow. */
  ghost predicate SettingWords(words: seq<string>) {
    && |words| >= 2 && (forall i | 0 <= i < |words| :: Simple(words[i]))
    && !EndsRead(words[|words| - 1]) && (|words| == 2 ==> words[1] != "enabled" && words[1] != "topics")
  }

  predicate EndsRead(word: string) {
    word == "dc" || word == "blacklist" || word == "servers"
  }

  ghost predicate SettingOk(x: Setting) {
    SettingWords(x.words) && Lacks(x.text, '\n')
  }

  /** All settings that are printed. */
  function Settings(s: Spec): seq<Setting> {
    FactorSettings(s) + OtherSettings(s) + (if s.dr then RecoverySettings() else [])
    + (if KeepsTopicNames(s) then PolicySettings() else [])
  }

  datatype Origin =
    | Blank
    | Clusters
    | Configured(setting: Setting)
    | Servers(i: nat)
    | Region
    | Topics
    | Flow(source: string, target: string)
    | BlackListed

  ghost predicate From(s: Spec, o: Origin, line: string) {
    match o
    case Blank => !IsRow(line) && Lacks(line, '\n')
    case Clusters => line == Row("clusters", JoinWide(Names(s.clusters)))
    case Configured(x) => x in Settings(s) && SettingOk(x) && line == Row(KeyOfSetting(x), x.text)
    case Servers(i) => i < |s.clusters| && line == Row(BrokersKey(Lower(s.clusters[i].name)), s.clusters[i].servers)
    case Region => s.region != "" && line == RegionLine(s)
    case Topics => !s.configurator && s.topics != "" && line == Row("topics", s.topics)
    case Flow(source, target) =>
      && source in Names(s.clusters) && target in TargetNames(s) && source != target
      && line in FlowLines(s, source, target)
    case BlackListed => !s.repeated && line == Row(BlockKey(), Join(BlockedTopics(Names(s.clusters)), ','))
  }

  // ----- settings -----

  ghost predicate SettingsOk(settings: seq<Setting>) {
    forall i | 0 <= i < |settings| :: SettingOk(settings[i])
  }

  lemma SimpleFactorWords()
    ensures Simple("replication") && Simple("factor") && Simple("storage") && Simple("topic")
    ensures Simple("config") && Simple("offset") && Simple("status") && Simple("heartbeats")
    ensures Simple("checkpoints") && Simple("offset-syncs")
  {
  }

  lemma SimpleOtherWords()
    ensures Simple("refresh") && Simple("topics") && Simple("groups") && Simple("interval") && Simple("seconds")
    ensures Simple("dedicated") && Simple("mode") && Simple("enable") && Simple("internal") && Simple("rest")
    ensures Simple("tasks") && Simple("max") && Simple("acls")
  {
  }

  lemma SimpleFlowWords()
    ensures Simple("sync") && Simple("enabled") && Simple("interval") && Simple("seconds")
    ensures Simple("emit") && Simple("group") && Simple("offsets") && Simple("checkpoints")
  {
  }

  lemma SimplePolicyWords()
    ensures Simple("replication") && Simple("policy") && Simple("class") && Lacks(Configurator.IDENTITY, '\n')
  {
    assert Lacks("io.strimzi.kafka.", '\n') && Lacks("connect.mirror.", '\n');
    assert Lacks("IdentityReplicationPolicy", '\n');
  }

  lemma LastWords()
    ensures !EndsRead("factor") && !EndsRead("seconds") && !EndsRead("rest") && !EndsRead("max")
    ensures !EndsRead("enabled") && !EndsRead("class")
    ensures "factor" != "enabled" && "factor" != "topics" && "max" != "enabled" && "max" != "topics"
  {
    assert "factor"[0] == 'f' && "max"[0] == 'm' && "enabled"[0] == 'e' && "topics"[0] == 't';
    assert "dc"[0] == 'd' && "blacklist"[0] == 'b' && "servers"[0] == 's' && "servers"[2] == 'r' && "seconds"[2] == 'c';
  }

  lemma FactorSettingsOk(s: Spec)
    ensures SettingsOk(FactorSettings(s))
  {
    SimpleFactorWords();
    LastWords();
    DecimalLacks(s.factor, '\n');
  }

  lemma IntervalWords()
    ensures SettingWords(["refresh", "topics", "interval", "seconds"])
    ensures SettingWords(["refresh", "groups", "interval", "seconds"])
  {
    SimpleOtherWords();
    LastWords();
  }

  lemma SwitchWords()
    ensures SettingWords(["dedicated", "mode", "enable", "internal", "rest"])
    ensures SettingWords(["tasks", "max"]) && SettingWords(["sync", "topic", "acls", "enabled"])
  {
    SimpleFactorWords();
    SimpleOtherWords();
    SimpleFlowWords();
    LastWords();
  }

  lemma OtherSettingsOk(s: Spec)
    ensures SettingsOk(OtherSettings(s))
  {
    IntervalWords();
    SwitchWords();
    DecimalLacks(OrElse(s.topicsInterval, 5), '\n');
    DecimalLacks(OrElse(s.groupsInterval, 5), '\n');
    DecimalLacks(OrElse(s.tasksMax, s.replicas), '\n');
  }

  lemma RecoverySettingsOk()
    ensures SettingsOk(RecoverySettings())
  {
    SimpleFlowWords();
    LastWords();
    assert Lacks("true", '\n') && Lacks("5", '\n');
  }

  lemma PolicySettingsOk()
    ensures SettingsOk(PolicySettings())
  {
    SimplePolicyWords();
    LastWords();
  }

  lemma SettingLine(s: Spec, settings: seq<Setting>, line: string) returns (o: Origin)
    requires SettingsOk(settings) && line in AsRows(settings) && forall x | x in settings :: x in Settings(s)
    ensures From(s, o, line)
  {
    var i :| 0 <= i < |settings| && line == Row(KeyOfSetting(settings[i]), settings[i].text);
    o := Configured(settings[i]);
  }

  // ----- sections -----

  lemma CommentIsBlank(s: Spec, text: string)
    requires Lacks(text, '\n')
    ensures From(s, Blank, Comment(text)) && From(s, Blank, "")
  {
  }

  lemma HeaderOrigin(s: Spec, line: string) returns (o: Origin)
    requires line in Header(s)
    ensures From(s, o, line)
  {
    CommentIsBlank(s, "mm2.properties");
    if line in AsRows(FactorSettings(s)) {
      FactorSettingsOk(s);
      o := SettingLine(s, FactorSettings(s), line);
    } else if line in AsRows(OtherSettings(s)) {
      OtherSettingsOk(s);
      o := SettingLine(s, OtherSettings(s), line);
    } else if line == Row("clusters", JoinWide(Names(s.clusters))) {
      o := Clusters;
    } else {
      o := Blank;
    }
  }

  lemma ClusterComment(name: string)
    requires Word(name)
    ensures Lacks("configure [" + Lower(name) + "] cluster", '\n')
  {
    forall i | 0 <= i < |name| ensures Lower(name)[i] != '\n' {
      assert WordChar(name[i]);
    }
  }

  lemma {:induction false} ClusterOrigin(s: Spec, n: nat, line: string) returns (o: Origin)
    requires Printable(s)
    requires n <= |s.clusters| && line in ClusterSection(s.clusters[..n])
    ensures From(s, o, line)
  {
    var seen := s.clusters[..n];
    assert seen[..n - 1] == s.clusters[..n - 1];
    if line in ClusterSection(s.clusters[..n - 1]) {
      o := ClusterOrigin(s, n - 1, line);
    } else {
      assert line in ClusterLines(s.clusters[n - 1]);
      ClusterComment(s.clusters[n - 1].name);
      CommentIsBlank(s, "configure [" + Lower(s.clusters[n - 1].name) + "] cluster");
      var servers := Row(BrokersKey(Lower(s.clusters[n - 1].name)), s.clusters[n - 1].servers);
      o := if line == servers then Servers(n - 1) else Blank;
    }
  }

  lemma FlowNoteIsOneLine()
    ensures Lacks(FlowNote(), '\n')
  {
    assert Lacks("configure a specific ", '\n') && Lacks("source->target ", '\n') && Lacks("replication flow", '\n');
  }

  lemma PreambleOrigin(s: Spec, line: string) returns (o: Origin)
    requires line in Preamble(s)
    ensures From(s, o, line)
  {
    FlowNoteIsOneLine();
    CommentIsBlank(s, FlowNote());
    if s.dr && line in AsRows(RecoverySettings()) {
      RecoverySettingsOk();
      o := SettingLine(s, RecoverySettings(), line);
    } else if KeepsTopicNames(s) && line in AsRows(PolicySettings()) {
      PolicySettingsOk();
      o := SettingLine(s, PolicySettings(), line);
    } else if line in TopicsLines(s) {
      o := Topics;
    } else {
      o := Blank;
    }
  }

  lemma {:induction false} FlowsOfSourceOrigin(s: Spec, source: string, targets: seq<string>, line: string)
    returns (target: string)
    requires line in FlowsOfSource(s, source, targets)
    ensures target in targets && source != target && line in FlowLines(s, source, target)
  {
    var seen, last := targets[..|targets| - 1], targets[|targets| - 1];
    if line in FlowsOfSource(s, source, seen) {
      target := FlowsOfSourceOrigin(s, source, seen, line);
      assert target in seen;
    } else {
      target := last;
    }
  }

  lemma {:induction false} FlowOrigin(s: Spec, sources: seq<string>, targets: seq<string>, line: string)
    returns (source: string, target: string)
    requires line in FlowSection(s, sources, targets)
    ensures source in sources && target in targets && source != target && line in FlowLines(s, source, target)
  {
    var seen, last := sources[..|sources| - 1], sources[|sources| - 1];
    if line in FlowSection(s, seen, targets) {
      source, target := FlowOrigin(s, seen, targets, line);
      assert source in seen;
    } else {
      source := last;
      target := FlowsOfSourceOrigin(s, last, targets, line);
    }
  }

  lemma ReplicationOrigin(s: Spec, line: string) returns (o: Origin)
    requires line in ReplicationSection(s)
    ensures From(s, o, line)
  {
    if line in Preamble(s) {
      o := PreambleOrigin(s, line);
    } else if line in FlowSection(s, Names(s.clusters), TargetNames(s)) {
      var source, target := FlowOrigin(s, Names(s.clusters), TargetNames(s), line);
      o := Flow(source, target);
    } else {
      o := BlackListed;
    }
  }

  /** Every printed line comes from somewhere. */
  lemma OriginOf(s: Spec, line: string) returns (o: Origin)
    requires Printable(s) && line in PrintedLines(s)
    ensures From(s, o, line)
  {
    if line in Header(s) {
      o := HeaderOrigin(s, line);
    } else if line in ClusterSection(s.clusters) {
      assert s.clusters[..|s.clusters|] == s.clusters;
      o := ClusterOrigin(s, |s.clusters|, line);
    } else if line in RegionSection(s) {
      o := Region;
    } else {
      o := ReplicationOrigin(s, line);
    }
  }

  ghost predicate HasOrigin(s: Spec, line: string) {
    exists o :: From(s, o, line)
  }

  lemma PrintedHaveOrigins(s: Spec)
    requires Printable(s)
    ensures forall line | line in PrintedLines(s) :: HasOrigin(s, line)
  {
    forall line | line in PrintedLines(s) ensures HasOrigin(s, line) {
      var o := OriginOf(s, line);
    }
  }
}
