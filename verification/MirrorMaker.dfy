/** The code that prints the Mirror Maker properties. */
module MirrorMaker {
  import opened Text
  import opened Properties
  import opened TopicMerge
  import opened TopicRuns
  import opened MirrorPrinter
  import Configurator = TransformationConfigurator

  /** The transformation lines of one flow. */
  method TransformPart(s: Spec, source: string, target: string) returns (r: seq<string>)
    ensures r == TransformLines(s, source, target)
  {
    var subst := if KeepsTopicNames(s) then "" else source + ".";
    var d := Configurator.GetTransformationDefinition(s.transformation, FlowName(source, target), "", subst);
    r := [];
    if d.Some? {
      Configurator.DefinitionsAreWellFormed(s.transformation, d.value, subst);
      r := Configurator.EnrichWithTransformationProperties([], d.value, [], []);
      assert d.value.transforms + [] == d.value.transforms && d.value.predicates + [] == d.value.predicates;
    }
  }

  /** The lines of one flow. */
  method FlowPart(s: Spec, source: string, target: string) returns (r: seq<string>)
    ensures r == FlowLines(s, source, target)
  {
    var flow := FlowName(source, target);
    var transforms, sync := [], [];
    if FlowOn(s) && !s.configurator {
      transforms := TransformPart(s, source, target);
    }
    if !s.dr {
      sync := SyncLines(flow);
    }
    r := [Row(EnabledKey(flow), Bool(FlowOn(s)))] + transforms + sync;
  }

  lemma FlowsOfSourceNext(s: Spec, source: string, targets: seq<string>, n: nat)
    requires n < |targets|
    ensures FlowsOfSource(s, source, targets[..n + 1])
      == if source == targets[n] then FlowsOfSource(s, source, targets[..n])
      else FlowsOfSource(s, source, targets[..n]) + FlowLines(s, source, targets[n])
  {
    assert targets[..n + 1][..n] == targets[..n];
  }

  /** The lines of all flows from one source. */
  method SourcePart(s: Spec, source: string, targets: seq<string>) returns (r: seq<string>)
    ensures r == FlowsOfSource(s, source, targets)
  {
    r := [];
    for j := 0 to |targets|
      invariant r == FlowsOfSource(s, source, targets[..j])
    {
      FlowsOfSourceNext(s, source, targets, j);
      if source != targets[j] {
        var part := FlowPart(s, source, targets[j]);
        r := r + part;
      }
    }
    assert targets[..|targets|] == targets;
  }

  lemma FlowSectionNext(s: Spec, sources: seq<string>, targets: seq<string>, n: nat)
    requires n < |sources|
    ensures FlowSection(s, sources[..n + 1], targets)
      == FlowSection(s, sources[..n], targets) + FlowsOfSource(s, sources[n], targets)
  {
    assert sources[..n + 1][..n] == sources[..n];
  }

  /** The lines of all flows, and the topics of the sources themselves. */
  method FlowParts(s: Spec, sources: seq<string>, targets: seq<string>)
    returns (flows: seq<string>, prefixes: seq<string>)
    ensures flows == FlowSection(s, sources, targets)
    ensures !s.repeated ==> prefixes == OwnTopics(sources)
  {
    flows, prefixes := [], [];
    for i := 0 to |sources|
      invariant flows == FlowSection(s, sources[..i], targets)
      invariant !s.repeated ==> prefixes == OwnTopics(sources)[..i]
    {
      FlowSectionNext(s, sources, targets, i);
      var part := SourcePart(s, sources[i], targets);
      flows := flows + part;
      if !s.repeated {
        prefixes := prefixes + [sources[i] + "\\.*"];
      }
    }
    assert sources[..|sources|] == sources;
  }

  /** The replication part of the text. */
  method CreateReplicationFlowConfig(s: Spec, sources: seq<string>, targets: seq<string>) returns (lines: seq<string>)
    requires sources == Names(s.clusters) && targets == TargetNames(s)
    ensures lines == ReplicationSection(s)
  {
    var flows, prefixes := FlowParts(s, sources, targets);
    var blackList := [];
    if !s.repeated {
      prefixes := prefixes + InternalTopics();
      blackList := [Row(BlockKey(), Join(prefixes, ','))];
    }
    lines := Preamble(s) + flows + blackList;
  }

  lemma ClusterSectionNext(clusters: seq<Cluster>, n: nat)
    requires n < |clusters|
    ensures ClusterSection(clusters[..n + 1]) == ClusterSection(clusters[..n]) + ClusterLines(clusters[n])
  {
    assert clusters[..n + 1][..n] == clusters[..n];
  }

  method LowerNames(clusters: seq<Cluster>) returns (names: seq<string>)
    ensures names == Names(clusters)
  {
    names := [];
    for i := 0 to |clusters|
      invariant names == Names(clusters)[..i]
    {
      names := names + [Lower(clusters[i].name)];
    }
  }

  method ClusterPart(clusters: seq<Cluster>) returns (lines: seq<string>)
    ensures lines == ClusterSection(clusters)
  {
    lines := [];
    for i := 0 to |clusters|
      invariant lines == ClusterSection(clusters[..i])
    {
      ClusterSectionNext(clusters, i);
      lines := lines + ClusterLines(clusters[i]);
    }
    assert clusters[..|clusters|] == clusters;
  }

  /** The whole text. */
  method GetMirrorMakerProperties(s: Spec) returns (text: string)
    ensures text == Printed(s)
  {
    var names := LowerNames(s.clusters);
    var clusters := ClusterPart(s.clusters);
    var targets := if s.region != "" then [Lower(s.region)] else names;
    var replication := CreateReplicationFlowConfig(s, names, targets);
    text := Join(Header(s) + clusters + RegionSection(s) + replication, '\n');
  }
}
