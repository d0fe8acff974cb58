/** The properties text of Mirror Maker, as lines. */
module MirrorPrinter {
  import opened Options
  import opened Text
  import opened Numbers
  import opened Properties
  import opened TopicMerge
  import opened TopicRuns
  import opened Transformation
  import Configurator = TransformationConfigurator

  datatype Cluster = Cluster(name: string, servers: string)

  /** The Mirror Maker section of the service; `dr` says that disaster recovery replicates with Mirror Maker. */
  datatype Spec = Spec(clusters: seq<Cluster>, region: string, factor: int, topicsInterval: Option<int>,
                       groupsInterval: Option<int>, internalRest: Option<bool>, tasksMax: Option<int>, replicas: int,
                       dr: bool, prefixEnabled: bool, configurator: bool, topics: string, flowEnabled: bool,
                       repeated: bool, transformation: Configurator.Request)

  // ----- words -----

  predicate WordChar(c: char) {
    '0' <= c <= '9' || 'a' <= c <= 'z' || 'A' <= c <= 'Z' || c == '_'
  }

  predicate Word(s: string) {
    s != "" && forall i | 0 <= i < |s| :: WordChar(s[i])
  }

  function LowerChar(c: char): char {
    if 'A' <= c <= 'Z' then (c as int + 32) as char else c
  }

  /** `strings.ToLower` on words. */
  function Lower(s: string): string {
    seq(|s|, i requires 0 <= i < |s| => LowerChar(s[i]))
  }

  /** The name of every cluster, in lower case. */
  function Names(clusters: seq<Cluster>): seq<string> {
    seq(|clusters|, i requires 0 <= i < |clusters| => Lower(clusters[i].name))
  }

  // ----- settings -----

  function OrElse<T>(value: Option<T>, default: T): T {
    if value.Some? then value.value else default
  }

  function Bool(b: bool): string {
    if b then "true" else "false"
  }

  function JoinWide(names: seq<string>): string {
    if names == [] then "" else if |names| == 1 then names[0] else names[0] + ", " + JoinWide(names[1..])
  }

  /** A setting whose key is the words with dots between them. */
  datatype Setting = Setting(words: seq<string>, text: string)

  function KeyOfSetting(x: Setting): string {
    Join(x.words, '.')
  }

  function FactorSettings(s: Spec): seq<Setting> {
    var factor := Decimal(s.factor);
    [Setting(["replication", "factor"], factor),
     Setting(["config", "storage", "replication", "factor"], factor),
     Setting(["offset", "storage", "replication", "factor"], factor),
     Setting(["status", "storage", "replication", "factor"], factor),
     Setting(["heartbeats", "topic", "replication", "factor"], factor),
     Setting(["checkpoints", "topic", "replication", "factor"], factor),
     Setting(["offset-syncs", "topic", "replication", "factor"], factor)]
  }

  function OtherSettings(s: Spec): seq<Setting> {
    [Setting(["refresh", "topics", "interval", "seconds"], Decimal(OrElse(s.topicsInterval, 5))),
     Setting(["refresh", "groups", "interval", "seconds"], Decimal(OrElse(s.groupsInterval, 5))),
     Setting(["dedicated", "mode", "enable", "internal", "rest"], Bool(OrElse(s.internalRest, true))),
     Setting(["tasks", "max"], Decimal(OrElse(s.tasksMax, s.replicas))),
     Setting(["sync", "topic", "acls", "enabled"], "false")]
  }

  function RecoverySettings(): seq<Setting> {
    [Setting(["emit", "checkpoints", "enabled"], "true"),
     Setting(["emit", "checkpoints", "interval", "seconds"], "5"),
     Setting(["sync", "group", "offsets", "enabled"], "true"),
     Setting(["sync", "group", "offsets", "interval", "seconds"], "5")]
  }

  predicate KeepsTopicNames(s: Spec) {
    s.dr || !s.prefixEnabled
  }

  function PolicySettings(): seq<Setting> {
    [Setting(["replication", "policy", "class"], Configurator.IDENTITY)]
  }

  function AsRows(settings: seq<Setting>): seq<string> {
    seq(|settings|, i requires 0 <= i < |settings| => Row(KeyOfSetting(settings[i]), settings[i].text))
  }

  function Comment(text: string): string {
    "# " + text
  }

  // ----- sections -----

  function Header(s: Spec): seq<string> {
    [Comment("mm2.properties"), Row("clusters", JoinWide(Names(s.clusters)))]
    + AsRows(FactorSettings(s)) + AsRows(OtherSettings(s)) + [""]
  }

  function BrokersKey(cluster: string): string {
    cluster + ['.'] + ("bootstrap" + ['.'] + "servers")
  }

  function ClusterLines(c: Cluster): seq<string> {
    [Comment("configure [" + Lower(c.name) + "] cluster"), Row(BrokersKey(Lower(c.name)), c.servers), ""]
  }

  function ClusterSection(clusters: seq<Cluster>): seq<string> {
    if clusters == [] then []
    else ClusterSection(clusters[..|clusters| - 1]) + ClusterLines(clusters[|clusters| - 1])
  }

  function TargetKey(): string {
    "target" + ['.'] + "dc"
  }

  function BlockKey(): string {
    "topics" + ['.'] + "blacklist"
  }

  /** The region is printed as it is written, without blanks around the equals sign. */
  function RegionLine(s: Spec): string {
    TargetKey() + ['='] + s.region
  }

  function RegionSection(s: Spec): seq<string> {
    if s.region == "" then [] else [RegionLine(s)]
  }

  function TargetNames(s: Spec): seq<string> {
    if s.region == "" then Names(s.clusters) else [Lower(s.region)]
  }

  predicate FlowOn(s: Spec) {
    s.dr || s.flowEnabled
  }

  /** The transformation lines of one flow; names carry no owner prefix here. */
  ghost function TransformLines(s: Spec, source: string, target: string): seq<string> {
    var subst := if KeepsTopicNames(s) then "" else source + ".";
    match Configurator.DefinitionOf(s.transformation, FlowName(source, target), "", subst)
    case None => []
    case Some(d) => Block(d, d.transforms, d.predicates)
  }

  function SyncKey(flow: string, last: string): string {
    flow + ['.'] + ("sync.group.offsets." + last)
  }

  function SyncLines(flow: string): seq<string> {
    [Row(SyncKey(flow, "enabled"), "false"), Row(SyncKey(flow, "interval.seconds"), "5")]
  }

  ghost function FlowLines(s: Spec, source: string, target: string): seq<string> {
    var flow := FlowName(source, target);
    var transforms := if FlowOn(s) && !s.configurator then TransformLines(s, source, target) else [];
    var sync := if s.dr then [] else SyncLines(flow);
    [Row(EnabledKey(flow), Bool(FlowOn(s)))] + transforms + sync
  }

  ghost function FlowsOfSource(s: Spec, source: string, targets: seq<string>): seq<string> {
    if targets == [] then []
    else
      var seen, last := FlowsOfSource(s, source, targets[..|targets| - 1]), targets[|targets| - 1];
      if source == last then seen else seen + FlowLines(s, source, last)
  }

  ghost function FlowSection(s: Spec, sources: seq<string>, targets: seq<string>): seq<string> {
    if sources == [] then []
    else FlowSection(s, sources[..|sources| - 1], targets) + FlowsOfSource(s, sources[|sources| - 1], targets)
  }

  function OwnTopics(names: seq<string>): seq<string> {
    seq(|names|, i requires 0 <= i < |names| => names[i] + "\\.*")
  }

  function InternalTopics(): seq<string> {
    [".*\\..*-internal", ".*\\..*\\.internal", "__.*"]
  }

  /** Topics of the clusters themselves and internal topics are not replicated. */
  function BlockedTopics(names: seq<string>): seq<string> {
    OwnTopics(names) + InternalTopics()
  }

  function FlowNote(): string {
    "configure a specific " + "source->target " + "replication flow"
  }

  function TopicsLines(s: Spec): seq<string> {
    if !s.configurator && s.topics != "" then [Row("topics", s.topics)] else []
  }

  function Preamble(s: Spec): seq<string> {
    var recovery := if s.dr then RecoverySettings() else [];
    var policy := if KeepsTopicNames(s) then PolicySettings() else [];
    AsRows(recovery) + AsRows(policy) + TopicsLines(s) + ["", Comment(FlowNote())]
  }

  function BlackList(s: Spec): seq<string> {
    if s.repeated then [] else [Row(BlockKey(), Join(BlockedTopics(Names(s.clusters)), ','))]
  }

  ghost function ReplicationSection(s: Spec): seq<string> {
    Preamble(s) + FlowSection(s, Names(s.clusters), TargetNames(s)) + BlackList(s)
  }

  ghost function PrintedLines(s: Spec): seq<string> {
    Header(s) + ClusterSection(s.clusters) + RegionSection(s) + ReplicationSection(s)
  }

  /** The whole text. */
  ghost function Printed(s: Spec): string {
    Join(PrintedLines(s), '\n')
  }
}
