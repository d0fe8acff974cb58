/** What disaster recovery reads from any properties, written out: every complaint and every part of a reading. */
module ReaderLaws {
  import opened Options
  import opened Text
  import opened Properties
  import opened TopicRuns
  import opened MirrorPrinter
  import opened MirrorReader

  // ----- properties of one flow -----

  /** The characters of words by their ASCII codes: digits, capital letters, the underscore and small letters. */
  lemma WordCharsExactly(c: char)
    ensures var n := c as int;
      WordChar(c) <==> 48 <= n <= 57 || 65 <= n <= 90 || n == 95 || 97 <= n <= 122
  {
  }

  /** The flow's own properties count exactly when both names are made of letters, digits and underscores. */
  lemma ArrowExactly(source: string, target: string, rest: string)
    ensures IsArrow(FlowName(source, target) + "." + rest, "." + rest) <==> AllWord(source) && AllWord(target)
  {
    var suffix := "." + rest;
    assert FlowName(source, target) + "." + rest == source + "->" + target + suffix;
    if Lacks(source, '-') {
      DashBehind(source, target, suffix);
    } else {
      DashInside(source, target, suffix);
    }
  }

  lemma DashBehind(source: string, target: string, suffix: string)
    requires Lacks(source, '-')
    ensures IsArrow(source + "->" + target + suffix, suffix) <==> AllWord(source) && AllWord(target)
  {
    var key := source + "->" + target + suffix;
    assert key == source + ['-'] + (['>'] + target + suffix);
    IndexOfFirst(source, '-', ['>'] + target + suffix);
    assert key[..|source|] == source && key[|source| + 1] == '>';
    assert key[|source| + 2..|key| - |suffix|] == target && key[|key| - |suffix|..] == suffix;
  }

  lemma DashInside(source: string, target: string, suffix: string)
    requires '-' in source
    ensures !AllWord(source) && !IsArrow(source + "->" + target + suffix, suffix)
  {
    var key := source + "->" + target + suffix;
    var i := IndexOf(key, '-');
    var n :| 0 <= n < |source| && source[n] == '-';
    assert key[n] == '-' && key[|source|] == '-';
    IndexOfSpec(key, '-');
    if i + 1 < |source| {
      assert key[i + 2..|key| - |suffix|][|source| - i - 2] == '-';
    }
  }

  /** The value of a property that is a single text. */
  ghost predicate SaysOne(props: map<string, string>, key: string) {
    key in props && Lacks(props[key], ',')
  }

  /** The flow has this property of its own. */
  ghost predicate HasOwn(props: map<string, string>, source: string, target: string, rest: string) {
    FlowName(source, target) + "." + rest in props && AllWord(source) && AllWord(target)
  }

  /** The flow's own list comes first, then the general one; without either there is none. */
  lemma ListsExactly(props: map<string, string>, source: string, target: string, rest: string)
    ensures var found := LocalOrGlobal(props, FlowName(source, target), rest);
      var own := FlowName(source, target) + "." + rest;
      && (HasOwn(props, source, target, rest) ==> found == Some(ListOf(props[own])))
      && (!HasOwn(props, source, target, rest) && rest in props ==> found == Some(ListOf(props[rest])))
      && (!HasOwn(props, source, target, rest) && rest !in props ==> found == None)
  {
    ArrowExactly(source, target, rest);
  }

  /** The flow's own switch comes first, then the general one; without either the flow is on. A list is no switch. */
  lemma SwitchesExactly(props: map<string, string>, source: string, target: string)
    ensures var on, own := IsEnabledIn(props, FlowName(source, target)), FlowName(source, target) + "." + "enabled";
      var mine := HasOwn(props, source, target, "enabled") && Lacks(props[own], ',');
      && (mine ==> (on <==> Lower(props[own]) == "true"))
      && (!mine && SaysOne(props, "enabled") ==> (on <==> Lower(props["enabled"]) == "true"))
      && (!mine && !SaysOne(props, "enabled") ==> on)
  {
    var flow := FlowName(source, target);
    ArrowExactly(source, target, "enabled");
    assert flow + ".enabled" == flow + "." + "enabled";
    assert ".enabled" == "." + "enabled";
  }

  // ----- complaints -----

  ghost predicate TwoClusters(props: map<string, string>) {
    "clusters" in props && |ListOf(props["clusters"])| == 2
  }

  ghost predicate DifferentClusters(props: map<string, string>) {
    TwoClusters(props) && ListOf(props["clusters"])[0] != ListOf(props["clusters"])[1]
  }

  /** The cluster that is not the target; the second one if neither is. */
  ghost predicate IsSource(props: map<string, string>, source: string)
    requires TwoClusters(props) && "target.dc" in props
  {
    var clusters := ListOf(props["clusters"]);
    && source in clusters && (props["target.dc"] == clusters[1] ==> source == clusters[0])
    && (props["target.dc"] != clusters[1] ==> source == clusters[1])
  }

  ghost predicate HasBrokers(props: map<string, string>, cluster: string) {
    var key := cluster + ".bootstrap.servers";
    key in props && props[key] != ""
  }

  lemma KeysAre(cluster: string)
    ensures TargetKey() == "target.dc" && BlockKey() == "topics.blacklist"
    ensures BrokersKey(cluster) == cluster + ".bootstrap.servers"
  {
    assert "bootstrap" + ['.'] + "servers" == "bootstrap.servers";
    assert ['.'] + "bootstrap.servers" == ".bootstrap.servers";
  }

  lemma BrokersExactly(props: map<string, string>, cluster: string)
    ensures HasBrokers(props, cluster) <==> Brokers(props, cluster) != []
    ensures HasBrokers(props, cluster) ==> Brokers(props, cluster) == ItemsIn(props[cluster + ".bootstrap.servers"])
  {
    KeysAre(cluster);
    if BrokersKey(cluster) in props {
      ItemsAreClean(props[BrokersKey(cluster)], ',');
    }
  }

  /** The first complaints are about the clusters and the target. */
  lemma ComplaintsExactly(props: map<string, string>)
    ensures Read(props) == Err(NoClusters) <==> "clusters" !in props
    ensures Read(props) == Err(NotTwoClusters) <==> "clusters" in props && !TwoClusters(props)
    ensures Read(props) == Err(SameClusters) <==> TwoClusters(props) && !DifferentClusters(props)
    ensures Read(props) == Err(NoTarget) <==> DifferentClusters(props) && !SaysOne(props, "target.dc")
  {
    KeysAre("");
  }

  lemma SourceExactly(props: map<string, string>, source: string)
    requires DifferentClusters(props) && SaysOne(props, "target.dc")
    ensures IsSource(props, source) <==> source == SourceOf(ListOf(props["clusters"]), props["target.dc"])
  {
    var clusters := ListOf(props["clusters"]);
    assert clusters[0] in clusters && clusters[1] in clusters;
  }

  /** The reading says exactly what the properties do. */
  ghost predicate Says(props: map<string, string>, r: Reading)
    requires "target.dc" in props && HasBrokers(props, props["target.dc"]) && HasBrokers(props, r.source)
  {
    && r.target == props["target.dc"]
    && r.targetBrokers == ItemsIn(props[r.target + ".bootstrap.servers"])
    && r.sourceBrokers == ItemsIn(props[r.source + ".bootstrap.servers"])
    && r.enabled == IsEnabledIn(props, FlowName(r.source, r.target))
    && r.allow == LocalOrGlobal(props, FlowName(r.source, r.target), "topics")
    && r.block == LocalOrGlobal(props, FlowName(r.source, r.target), "topics.blacklist")
  }

  /** With two clusters and a target, the other complaints are about brokers; without any, all was understood. */
  lemma ReadingExactly(props: map<string, string>, source: string)
    requires DifferentClusters(props) && SaysOne(props, "target.dc") && IsSource(props, source)
    ensures Read(props) == Err(NoTargetBrokers) <==> !HasBrokers(props, props["target.dc"])
    ensures Read(props) == Err(NoSourceBrokers)
         <==> HasBrokers(props, props["target.dc"]) && !HasBrokers(props, source)
    ensures HasBrokers(props, props["target.dc"]) && HasBrokers(props, source)
         ==> Read(props).Ok? && Read(props).reading.source == source && Says(props, Read(props).reading)
  {
    KeysAre("");
    SourceExactly(props, source);
    BrokersExactly(props, props["target.dc"]);
    BrokersExactly(props, source);
  }
}
