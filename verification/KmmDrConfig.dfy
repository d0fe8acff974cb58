/** The code that reads the Mirror Maker properties for disaster recovery. */
module KmmDrConfig {
  import opened Options
  import opened Text
  import opened Lines
  import opened Properties
  import opened TopicRuns
  import opened MirrorPrinter
  import opened MirrorReader
  import opened MirrorReadBack

  // ----- reading rows -----

  lemma FindSnoc(lines: seq<string>, n: nat, key: string)
    requires n < |lines|
    ensures Find(lines[..n + 1], key)
      == if IsEntry(key, lines[n]) then Some(FullValue(lines[n])) else Find(lines[..n], key)
  {
    assert lines[..n + 1] == lines[..n] + [lines[n]];
    SelectSnoc(lines[..n], lines[n], EntryOf(key));
  }

  function WithLine(props: map<string, string>, line: string): map<string, string> {
    if IsRow(line) && IndexOf(line, '=') < |line| then props[KeyOf(line) := FullValue(line)] else props
  }

  lemma PropsNext(props: map<string, string>, lines: seq<string>, n: nat)
    requires n < |lines| && PropsOf(props, lines[..n])
    ensures PropsOf(WithLine(props, lines[n]), lines[..n + 1])
  {
    var next := WithLine(props, lines[n]);
    forall key ensures Find(lines[..n + 1], key) == if key in next then Some(next[key]) else None {
      FindSnoc(lines, n, key);
      assert Find(lines[..n], key) == if key in props then Some(props[key]) else None;
    }
  }

  /** Reads every row with an equals sign; a later row replaces an earlier one. */
  method GetStringProperties(config: string) returns (props: map<string, string>)
    ensures PropsOf(props, Split(config, '\n'))
  {
    var rows := Split(config, '\n');
    props := map[];
    for i := 0 to |rows|
      invariant PropsOf(props, rows[..i])
    {
      PropsNext(props, rows, i);
      if IsRow(rows[i]) && IndexOf(rows[i], '=') < |rows[i]| {
        props := props[KeyOf(rows[i]) := FullValue(rows[i])];
      }
    }
    assert rows[..|rows|] == rows;
  }

  // ----- endings of keys -----

  /** The text that decides which list a key names. */
  ghost predicate Ends(key: string, last: char, before: char) {
    |key| > 1 && key[|key| - 1] == last && key[|key| - 2] == before
  }

  lemma KeyEndings(flow: string, cluster: string)
    ensures Ends(flow + "." + "topics", 's', 'c') && Ends(flow + "." + BlockKey(), 't', 's')
    ensures Ends(BrokersKey(cluster), 's', 'r')
  {
  }

  lemma ArrowEndings(key: string)
    ensures IsArrow(key, "." + "topics") ==> Ends(key, 's', 'c')
    ensures IsArrow(key, "." + BlockKey()) ==> Ends(key, 't', 's')
  {
    if IsArrow(key, "." + "topics") {
      assert key[|key| - 7..] == ".topics";
      assert key[|key| - 1] == key[|key| - 7..][6] && key[|key| - 2] == key[|key| - 7..][5];
    }
    if IsArrow(key, "." + BlockKey()) {
      var suffix := "." + BlockKey();
      assert key[|key| - 1] == key[|key| - |suffix|..][|suffix| - 1];
      assert key[|key| - 2] == key[|key| - |suffix|..][|suffix| - 2];
    }
  }

  lemma ArrowIn(flow: string, source: string, target: string, rest: string)
    requires flow == FlowName(source, target)
    ensures '>' in flow + "." + rest
  {
    assert (flow + "." + rest)[|source| + 1] == '>';
  }

  // ----- the reader -----

  const STRING_KEYS: seq<string> := [TargetKey(), "enabled"]
  const SLICE_KEYS: seq<string> := ["clusters", "topics", BlockKey()]

  predicate IsSwitchKey(key: string) {
    IsArrow(key, ".enabled")
  }

  predicate IsListKey(key: string) {
    IsArrow(key, "." + "topics") || IsArrow(key, "." + BlockKey())
  }

  predicate Single(props: map<string, string>, key: string) {
    key in props && Lacks(props[key], ',')
  }

  lemma PlainKeys()
    ensures TargetKey() in STRING_KEYS && "enabled" in STRING_KEYS
    ensures "clusters" in SLICE_KEYS && "topics" in SLICE_KEYS && BlockKey() in SLICE_KEYS
  {
    assert STRING_KEYS[0] == TargetKey() && STRING_KEYS[1] == "enabled";
    assert SLICE_KEYS[0] == "clusters" && SLICE_KEYS[1] == "topics" && SLICE_KEYS[2] == BlockKey();
  }

  lemma PlainKeysHaveNoArrow(key: string)
    requires key in STRING_KEYS || key in SLICE_KEYS
    ensures '>' !in key
  {
  }

  class Config {
    const properties: map<string, string>
    var stringProperties: map<string, string>
    var sliceProperties: map<string, seq<string>>
    var target: string
    var source: string
    var targetBrokers: seq<string>
    var sourceBrokers: seq<string>
    var replicationEnabled: bool

    constructor (props: map<string, string>)
      ensures properties == props && stringProperties == map[] && sliceProperties == map[]
      ensures target == source == "" && targetBrokers == sourceBrokers == [] && !replicationEnabled
    {
      properties, stringProperties, sliceProperties := props, map[], map[];
      target, source, targetBrokers, sourceBrokers, replicationEnabled := "", "", [], [], false;
    }

    /** What was taken over has the value of the property. */
    ghost predicate Valid()
      reads this`stringProperties, this`sliceProperties
    {
      && (forall k | k in stringProperties :: Single(properties, k) && stringProperties[k] == properties[k])
      && (forall k | k in sliceProperties :: k in properties && sliceProperties[k] == ListOf(properties[k]))
    }

    /** Takes over the given properties that are single values. */
    method EnrichStringProperties(keys: seq<string>)
      requires Valid()
      modifies this`stringProperties
      ensures Valid()
      ensures forall k :: k in stringProperties <==> k in old(stringProperties) || (k in keys && Single(properties, k))
    {
      for i := 0 to |keys|
        invariant Valid()
        invariant forall k ::
          k in stringProperties <==> k in old(stringProperties) || (k in keys[..i] && Single(properties, k))
      {
        assert keys[..i + 1] == keys[..i] + [keys[i]];
        if Single(properties, keys[i]) {
          stringProperties := stringProperties[keys[i] := properties[keys[i]]];
        }
      }
    }

    /** Takes over the given properties as lists. */
    method EnrichSliceProperties(keys: seq<string>)
      requires Valid()
      modifies this`sliceProperties
      ensures Valid()
      ensures forall k :: k in sliceProperties <==> k in old(sliceProperties) || (k in keys && k in properties)
    {
      for i := 0 to |keys|
        invariant Valid()
        invariant forall k :: k in sliceProperties <==> k in old(sliceProperties) || (k in keys[..i] && k in properties)
      {
        assert keys[..i + 1] == keys[..i] + [keys[i]];
        if keys[i] in properties {
          sliceProperties := sliceProperties[keys[i] := ListOf(properties[keys[i]])];
        }
      }
    }

    /** Takes over the switches of flows; the map is walked in any order. */
    method EnrichArrowStringProperties()
      requires Valid()
      modifies this`stringProperties
      ensures Valid()
      ensures forall k ::
        k in stringProperties <==> k in old(stringProperties) || (IsSwitchKey(k) && Single(properties, k))
    {
      var left := properties.Keys;
      while left != {}
        invariant Valid() && left <= properties.Keys
        invariant forall k ::
          k in stringProperties <==>
          k in old(stringProperties) || (k !in left && IsSwitchKey(k) && Single(properties, k))
        decreases |left|
      {
        var key :| key in left;
        left := left - {key};
        if IsSwitchKey(key) && Single(properties, key) {
          stringProperties := stringProperties[key := properties[key]];
        }
      }
    }

    /** Takes over the lists of flows. */
    method EnrichArrowSliceProperties()
      requires Valid()
      modifies this`sliceProperties
      ensures Valid()
      ensures forall k :: k in sliceProperties <==> k in old(sliceProperties) || (k in properties && IsListKey(k))
    {
      var left := properties.Keys;
      while left != {}
        invariant Valid() && left <= properties.Keys
        invariant forall k ::
          k in sliceProperties <==> k in old(sliceProperties) || (k in properties && k !in left && IsListKey(k))
        decreases |left|
      {
        var key :| key in left;
        left := left - {key};
        if IsListKey(key) {
          sliceProperties := sliceProperties[key := ListOf(properties[key])];
        }
      }
    }

    /** Exactly the properties that are looked for were taken over, besides those with the keys `more`. */
    ghost predicate Enriched(more: seq<string>)
      reads this`stringProperties, this`sliceProperties
    {
      && (forall k :: k in stringProperties <==> Single(properties, k) && (k in STRING_KEYS || IsSwitchKey(k)))
      && (forall k :: k in sliceProperties <==> k in properties && (k in SLICE_KEYS || IsListKey(k) || k in more))
    }

    method EnrichInitial()
      requires Valid() && stringProperties == map[] && sliceProperties == map[]
      modifies this`stringProperties, this`sliceProperties
      ensures Valid() && Enriched([])
    {
      EnrichStringProperties(STRING_KEYS);
      EnrichSliceProperties(SLICE_KEYS);
      EnrichArrowStringProperties();
      EnrichArrowSliceProperties();
    }

    /** The last cluster that is not the target. */
    method ResolveSource(clusters: seq<string>)
      requires |clusters| == 2 && clusters[0] != clusters[1]
      modifies this`source
      ensures source == if clusters[1] != target then clusters[1] else clusters[0]
    {
      for i := 0 to |clusters|
        invariant i >= 1 && clusters[i - 1] != target ==> source == clusters[i - 1]
        invariant i == 2 && clusters[1] == target ==> source == clusters[0]
      {
        if clusters[i] != target {
          source := clusters[i];
        }
      }
    }

    lemma ClustersAndTarget()
      requires Valid() && Enriched([])
      ensures "clusters" in sliceProperties <==> "clusters" in properties
      ensures "clusters" in properties ==> sliceProperties["clusters"] == ListOf(properties["clusters"])
      ensures TargetKey() in stringProperties <==> Single(properties, TargetKey())
      ensures TargetKey() in stringProperties ==> stringProperties[TargetKey()] == properties[TargetKey()]
    {
      PlainKeys();
    }

    /** Target and source are known. */
    ghost predicate Located(clusters: seq<string>)
      reads this`target, this`source
    {
      |clusters| == 2 && source == SourceOf(clusters, target)
    }

    /** Checks the clusters and finds target and source. */
    method ValidateClusters() returns (failed: Option<Error>, clusters: seq<string>)
      requires Valid() && Enriched([])
      modifies this`target, this`source
      ensures failed.Some? ==> Read(properties) == Err(failed.value)
      ensures failed.None? ==> Located(clusters) && Read(properties) == ReadFlow(properties, clusters, target)
    {
      ClustersAndTarget();
      if "clusters" !in sliceProperties {
        return Some(NoClusters), [];
      }
      clusters := sliceProperties["clusters"];
      if |clusters| != 2 {
        return Some(NotTwoClusters), clusters;
      }
      if clusters[0] == clusters[1] {
        return Some(SameClusters), clusters;
      }
      if TargetKey() !in stringProperties {
        return Some(NoTarget), clusters;
      }
      target := stringProperties[TargetKey()];
      ResolveSource(clusters);
      return None, clusters;
    }

    ghost function BrokersFailure(): Option<Error>
      reads this`target, this`source
    {
      if Brokers(properties, target) == [] then Some(NoTargetBrokers)
      else if Brokers(properties, source) == [] then Some(NoSourceBrokers)
      else None
    }

    lemma FailureIsRead(clusters: seq<string>)
      requires Located(clusters) && BrokersFailure().Some?
      ensures ReadFlow(properties, clusters, target) == Err(BrokersFailure().value)
    {
    }

    /** Takes over the brokers of both clusters; neither list may be missing or empty. */
    method ResolveBootstrapServers() returns (failed: Option<Error>)
      requires Valid() && Enriched([])
      modifies this`sliceProperties, this`targetBrokers, this`sourceBrokers
      ensures Valid() && Enriched([BrokersKey(target), BrokersKey(source)])
      ensures failed == BrokersFailure()
      ensures failed.None?
        ==> targetBrokers == Brokers(properties, target) && sourceBrokers == Brokers(properties, source)
    {
      EnrichSliceProperties([BrokersKey(target), BrokersKey(source)]);
      assert BrokersKey(target) in [BrokersKey(target), BrokersKey(source)];
      assert BrokersKey(source) in [BrokersKey(target), BrokersKey(source)];
      if BrokersKey(target) !in sliceProperties || |sliceProperties[BrokersKey(target)]| == 0 {
        return Some(NoTargetBrokers);
      }
      if BrokersKey(source) !in sliceProperties || |sliceProperties[BrokersKey(source)]| == 0 {
        return Some(NoSourceBrokers);
      }
      targetBrokers, sourceBrokers := sliceProperties[BrokersKey(target)], sliceProperties[BrokersKey(source)];
      return None;
    }

    /** The value of the flow if it has one, else the general one. */
    function GlobalOrLocalString(key: string): Option<string>
      reads this
    {
      var own := FlowName(source, target) + "." + key;
      if own in stringProperties then Some(stringProperties[own])
      else if key in stringProperties then Some(stringProperties[key]) else None
    }

    function GlobalOrLocalSlice(key: string): Option<seq<string>>
      reads this
    {
      var own := FlowName(source, target) + "." + key;
      if own in sliceProperties then Some(sliceProperties[own])
      else if key in sliceProperties then Some(sliceProperties[key]) else None
    }

    lemma SwitchIsRead()
      requires Valid() && Enriched([BrokersKey(target), BrokersKey(source)])
      ensures var v := GlobalOrLocalString("enabled");
        IsEnabledIn(properties, FlowName(source, target)) == if v.None? then true else Lower(v.value) == "true"
    {
      var own := FlowName(source, target) + "." + "enabled";
      assert own == FlowName(source, target) + ".enabled";
      PlainKeys();
      ArrowIn(FlowName(source, target), source, target, "enabled");
      if own in STRING_KEYS {
        PlainKeysHaveNoArrow(own);
      }
    }

    lemma OwnListIsRead(key: string)
      requires Valid() && Enriched([BrokersKey(target), BrokersKey(source)]) && (key == "topics" || key == BlockKey())
      ensures var own := FlowName(source, target) + "." + key;
        own in sliceProperties <==> own in properties && IsArrow(own, "." + key)
    {
      var flow := FlowName(source, target);
      var own := flow + "." + key;
      KeyEndings(flow, target);
      KeyEndings(flow, source);
      ArrowEndings(own);
      ArrowIn(flow, source, target, key);
      if own in SLICE_KEYS {
        PlainKeysHaveNoArrow(own);
      }
    }

    lemma ListIsRead(key: string)
      requires Valid() && Enriched([BrokersKey(target), BrokersKey(source)]) && (key == "topics" || key == BlockKey())
      ensures GlobalOrLocalSlice(key) == LocalOrGlobal(properties, FlowName(source, target), key)
    {
      PlainKeys();
      OwnListIsRead(key);
    }

    method ResolveReplicationEnable()
      requires Valid() && Enriched([BrokersKey(target), BrokersKey(source)])
      modifies this`replicationEnabled
      ensures replicationEnabled == IsEnabledIn(properties, FlowName(source, target))
    {
      SwitchIsRead();
      var value := GlobalOrLocalString("enabled");
      replicationEnabled := if value.None? then true else Lower(value.value) == "true";
    }

    /** Everything there is to read. */
    ghost function ReadSoFar(): Reading
      reads this
    {
      Reading(target, source, targetBrokers, sourceBrokers, replicationEnabled,
              GlobalOrLocalSlice("topics"), GlobalOrLocalSlice(BlockKey()))
    }

    lemma FlowIsRead(clusters: seq<string>)
      requires Valid() && Enriched([BrokersKey(target), BrokersKey(source)]) && Located(clusters)
      requires BrokersFailure().None?
      requires targetBrokers == Brokers(properties, target) && sourceBrokers == Brokers(properties, source)
      requires replicationEnabled == IsEnabledIn(properties, FlowName(source, target))
      ensures ReadFlow(properties, clusters, target) == Ok(ReadSoFar())
    {
      ListIsRead("topics");
      ListIsRead(BlockKey());
    }

    /** The brokers and the switch of the flow. */
    method ResolveFlow(ghost clusters: seq<string>) returns (failed: Option<Error>)
      requires Valid() && Enriched([]) && Located(clusters)
      modifies this`sliceProperties, this`targetBrokers, this`sourceBrokers, this`replicationEnabled
      ensures ReadFlow(properties, clusters, target) == if failed.Some? then Err(failed.value) else Ok(ReadSoFar())
    {
      failed := ResolveBootstrapServers();
      if failed.Some? {
        FailureIsRead(clusters);
        return;
      }
      ResolveReplicationEnable();
      FlowIsRead(clusters);
    }

    /** The whole enrichment agrees with the reading of the properties. */
    method EnrichProperties() returns (failed: Option<Error>)
      requires stringProperties == map[] && sliceProperties == map[]
      modifies this
      ensures Read(properties) == if failed.Some? then Err(failed.value) else Ok(ReadSoFar())
    {
      EnrichInitial();
      var clusters;
      failed, clusters := ValidateClusters();
      if failed.None? {
        failed := ResolveFlow(clusters);
      }
    }
  }
}
