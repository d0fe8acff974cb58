/** What disaster recovery reads from the properties text of Mirror Maker. */
module MirrorReader {
  import opened Options
  import opened Text
  import opened Lines
  import opened Properties
  import opened TopicRuns
  import opened MirrorPrinter

  /** The text behind the first equals sign, without outer blanks. */
  function FullValue(line: string): string
    requires IndexOf(line, '=') < |line|
  {
    Trim(line[IndexOf(line, '=') + 1..], SPACE)
  }

  predicate IsEntry(key: string, line: string) {
    HasKey(key, line) && IndexOf(line, '=') < |line|
  }

  function EntryOf(key: string): string -> bool {
    line => IsEntry(key, line)
  }

  /** What the lines say about a key; the last entry counts. */
  function Find(lines: seq<string>, key: string): Option<string> {
    var entries := Select(lines, EntryOf(key));
    if entries == [] then None else
      SelectedSatisfy(lines, EntryOf(key));
      Some(FullValue(entries[|entries| - 1]))
  }

  function ListOf(value: string): seq<string> {
    if value == "" then [] else ItemsIn(value)
  }

  /** The key is two words with an arrow between them and the suffix behind them. */
  predicate IsArrow(key: string, suffix: string) {
    var i := IndexOf(key, '-');
    && AllWord(key[..i]) && i + 1 < |key| && key[i + 1] == '>' && i + 2 + |suffix| <= |key|
    && key[|key| - |suffix|..] == suffix && AllWord(key[i + 2..|key| - |suffix|])
  }

  predicate AllWord(s: string) {
    forall i | 0 <= i < |s| :: WordChar(s[i])
  }

  datatype Error = NoClusters | NotTwoClusters | SameClusters | NoTarget | NoTargetBrokers | NoSourceBrokers

  /** What was understood; lists that are not given are `None`. */
  datatype Reading = Reading(target: string, source: string, targetBrokers: seq<string>, sourceBrokers: seq<string>,
                             enabled: bool, allow: Option<seq<string>>, block: Option<seq<string>>)

  datatype Result = Ok(reading: Reading) | Err(error: Error)

  /** The flow's own list if there is one, else the general one. */
  function LocalOrGlobal(props: map<string, string>, flow: string, key: string): Option<seq<string>> {
    var own := flow + "." + key;
    if own in props && IsArrow(own, "." + key) then Some(ListOf(props[own]))
    else if key in props then Some(ListOf(props[key])) else None
  }

  function SingleValue(props: map<string, string>, key: string): Option<string> {
    if key in props && Lacks(props[key], ',') then Some(props[key]) else None
  }

  predicate IsEnabledIn(props: map<string, string>, flow: string) {
    var own, general := SingleValue(props, flow + ".enabled"), SingleValue(props, "enabled");
    if own.Some? && IsArrow(flow + ".enabled", ".enabled") then Lower(own.value) == "true"
    else if general.Some? then Lower(general.value) == "true" else true
  }

  function Brokers(props: map<string, string>, cluster: string): seq<string> {
    if BrokersKey(cluster) in props then ListOf(props[BrokersKey(cluster)]) else []
  }

  function Read(props: map<string, string>): Result {
    if "clusters" !in props then Err(NoClusters)
    else
      var clusters := ListOf(props["clusters"]);
      if |clusters| != 2 then Err(NotTwoClusters)
      else if clusters[0] == clusters[1] then Err(SameClusters)
      else
        var target := SingleValue(props, TargetKey());
        if target.None? then Err(NoTarget) else ReadFlow(props, clusters, target.value)
  }

  /** The last cluster that is not the target. */
  function SourceOf(clusters: seq<string>, target: string): string
    requires |clusters| == 2
  {
    if clusters[1] != target then clusters[1] else clusters[0]
  }

  /** Both clusters need brokers. */
  function Checked(r: Reading): Result {
    if r.targetBrokers == [] then Err(NoTargetBrokers)
    else if r.sourceBrokers == [] then Err(NoSourceBrokers)
    else Ok(r)
  }

  function ReadFlow(props: map<string, string>, clusters: seq<string>, target: string): Result
    requires |clusters| == 2
  {
    var source := SourceOf(clusters, target);
    var flow := FlowName(source, target);
    Checked(Reading(target, source, Brokers(props, target), Brokers(props, source), IsEnabledIn(props, flow),
                    LocalOrGlobal(props, flow, "topics"), LocalOrGlobal(props, flow, BlockKey())))
  }
}
