/** Whole reconciles of custom resources: who replicates where, the merge and the transformation update. */
module TopicRuns {
  import opened Options
  import opened Text
  import opened Lines
  import opened Properties
  import opened TopicMerge
  import opened TopicLaws
  import opened Transformation
  import opened TransformationLaws

  /** A custom resource; `define` gives the transformation definition for a flow, if any. */
  datatype Resource = Resource(topics: string, targetDc: string, sourceDc: string, define: string -> Option<Definition>)

  // ----- targets and sources -----

  /** The targets named in the text, if any are. */
  function TextTargets(lines: seq<string>): Option<seq<string>>
    requires Readable(lines)
  {
    match Lookup(lines, "target.dc")
    case None => None
    case Some(v) => Some(AsItems(v))
  }

  predicate AllIn(names: seq<string>, known: seq<string>) {
    forall n | n in names :: n in known
  }

  /** Named targets must be known; without names those of the text are taken. */
  function Targets(targetDc: string, clusters: seq<string>, inText: Option<seq<string>>): Option<seq<string>> {
    if targetDc == "" then inText
    else
      var named := ItemsIn(targetDc);
      if AllIn(named, if inText.Some? then inText.value else clusters) then Some(named) else None
  }

  /** Named sources must be clusters; without names all clusters that are no targets are taken. */
  function Sources(sourceDc: string, clusters: seq<string>, targets: seq<string>): Option<seq<string>> {
    if sourceDc == "" then Some(Select(clusters, NotIn(targets)))
    else if AllIn(ItemsIn(sourceDc), clusters) then Some(ItemsIn(sourceDc)) else None
  }

  function FlowName(source: string, target: string): string {
    source + "->" + target
  }

  function FlowsFrom(source: string, targets: seq<string>): seq<string> {
    if targets == [] then []
    else
      var seen, last := FlowsFrom(source, targets[..|targets| - 1]), targets[|targets| - 1];
      if source == last then seen else seen + [FlowName(source, last)]
  }

  function DcPairs(sources: seq<string>, targets: seq<string>): seq<string> {
    if sources == [] then []
    else DcPairs(sources[..|sources| - 1], targets) + FlowsFrom(sources[|sources| - 1], targets)
  }

  /** Targets and sources of a resource; `None` is a configuration error. */
  function Recognized(r: Resource, clusters: seq<string>,
                      inText: Option<seq<string>>): Option<(seq<string>, seq<string>)> {
    var targets := Targets(r.targetDc, clusters, inText);
    if targets.None? then None
    else
      var sources := Sources(r.sourceDc, clusters, targets.value);
      if sources.None? then None else Some((targets.value, sources.value))
  }

  /** The flows a resource is about, read from a text with a list of clusters. */
  function FlowsIn(r: Resource, lines: seq<string>): Option<seq<string>>
    requires Readable(lines)
  {
    match Recognized(r, Items(lines, "clusters"), TextTargets(lines))
    case None => None
    case Some((targets, sources)) => Some(DcPairs(sources, targets))
  }

  lemma {:induction false} FlowsFromMember(source: string, targets: seq<string>, flow: string)
    ensures flow in FlowsFrom(source, targets)
      <==> exists t :: t in targets && source != t && flow == FlowName(source, t)
  {
    if targets != [] {
      var seen, last := targets[..|targets| - 1], targets[|targets| - 1];
      FlowsFromMember(source, seen, flow);
      assert targets == seen + [last];
    }
  }

  lemma {:induction false} DcPairsMember(sources: seq<string>, targets: seq<string>, flow: string)
    ensures flow in DcPairs(sources, targets)
      <==> exists s, t :: s in sources && t in targets && s != t && flow == FlowName(s, t)
  {
    if sources != [] {
      var seen, last := sources[..|sources| - 1], sources[|sources| - 1];
      DcPairsMember(seen, targets, flow);
      FlowsFromMember(last, targets, flow);
      assert sources == seen + [last];
    }
  }

  ghost predicate GoodNames(lines: seq<string>)
    requires Readable(lines)
  {
    && (forall n | n in Items(lines, "clusters") :: GoodFlow(n))
    && (forall n | n in Items(lines, "target.dc") :: GoodFlow(n))
  }

  lemma FlowNameIsGood(s: string, t: string)
    requires GoodFlow(s) && GoodFlow(t)
    ensures GoodFlow(FlowName(s, t))
  {
  }

  /** Flows connect two clusters the text knows. */
  lemma FlowsAreGood(r: Resource, lines: seq<string>)
    requires Readable(lines) && GoodNames(lines) && FlowsIn(r, lines).Some?
    ensures GoodFlows(FlowsIn(r, lines).value)
  {
    var clusters, inText := Items(lines, "clusters"), TextTargets(lines);
    var targets := Targets(r.targetDc, clusters, inText).value;
    var sources := Sources(r.sourceDc, clusters, targets).value;
    SelectedSatisfy(clusters, NotIn(targets));
    assert forall t | t in targets :: GoodFlow(t);
    assert forall s | s in sources :: GoodFlow(s);
    var pairs := DcPairs(sources, targets);
    forall i | 0 <= i < |pairs| ensures GoodFlow(pairs[i]) {
      DcPairsMember(sources, targets, pairs[i]);
      var s, t :| s in sources && t in targets && s != t && pairs[i] == FlowName(s, t);
      FlowNameIsGood(s, t);
    }
  }

  // ----- which resources are accepted -----

  lemma GivenTargets(lines: seq<string>)
    requires Readable(lines)
    ensures TextTargets(lines).Some? <==> Rows(lines, "target.dc") != []
    ensures TextTargets(lines).Some? ==> TextTargets(lines).value == Items(lines, "target.dc")
  {
  }

  /**
   A resource is accepted exactly when the text gives targets or the resource names some, every target it names is
   one the text gives, or, if the text gives none, a cluster, and every source it names is a cluster.
   */
  lemma AcceptedExactly(r: Resource, lines: seq<string>)
    requires Readable(lines)
    ensures FlowsIn(r, lines).Some? <==>
      && (r.targetDc == "" ==> Rows(lines, "target.dc") != [])
      && (r.targetDc != "" && Rows(lines, "target.dc") != [] ==>
            forall t | t in ItemsIn(r.targetDc) :: t in Items(lines, "target.dc"))
      && (r.targetDc != "" && Rows(lines, "target.dc") == [] ==>
            forall t | t in ItemsIn(r.targetDc) :: t in Items(lines, "clusters"))
      && (r.sourceDc != "" ==> forall s | s in ItemsIn(r.sourceDc) :: s in Items(lines, "clusters"))
  {
    GivenTargets(lines);
  }

  /** The target is one the resource names, or one the text gives if it names none. */
  ghost predicate IsTarget(r: Resource, lines: seq<string>, t: string)
    requires Readable(lines)
  {
    if r.targetDc == "" then t in Items(lines, "target.dc") else t in ItemsIn(r.targetDc)
  }

  /** The source is one the resource names, or a cluster that is no target if it names none. */
  ghost predicate IsSource(r: Resource, lines: seq<string>, s: string)
    requires Readable(lines)
  {
    if r.sourceDc == "" then s in Items(lines, "clusters") && !IsTarget(r, lines, s) else s in ItemsIn(r.sourceDc)
  }

  lemma SidesAreRecognized(r: Resource, lines: seq<string>, name: string)
    requires Readable(lines) && FlowsIn(r, lines).Some?
    ensures var found := Recognized(r, Items(lines, "clusters"), TextTargets(lines)).value;
      (name in found.0 <==> IsTarget(r, lines, name)) && (name in found.1 <==> IsSource(r, lines, name))
  {
    GivenTargets(lines);
    var clusters := Items(lines, "clusters");
    var targets := Targets(r.targetDc, clusters, TextTargets(lines)).value;
    SelectMember(clusters, NotIn(targets), name);
  }

  /** The flows of an accepted resource lead from each of its sources to each of its targets that differs. */
  lemma FlowsAreExactly(r: Resource, lines: seq<string>, flow: string)
    requires Readable(lines) && FlowsIn(r, lines).Some?
    ensures flow in FlowsIn(r, lines).value
      <==> exists s, t :: IsSource(r, lines, s) && IsTarget(r, lines, t) && s != t && flow == s + "->" + t
  {
    var found := Recognized(r, Items(lines, "clusters"), TextTargets(lines)).value;
    DcPairsMember(found.1, found.0, flow);
    if s, t :| s in found.1 && t in found.0 && s != t && flow == FlowName(s, t) {
      SidesAreRecognized(r, lines, s);
      SidesAreRecognized(r, lines, t);
    }
    if s, t :| IsSource(r, lines, s) && IsTarget(r, lines, t) && s != t && flow == s + "->" + t {
      SidesAreRecognized(r, lines, s);
      SidesAreRecognized(r, lines, t);
      assert flow == FlowName(s, t);
    }
  }

  // ----- one reconcile -----

  /** The transformation updates of all flows, in order. */
  function Transformed(lines: seq<string>, pairs: seq<string>, define: string -> Option<Definition>): seq<string>
    decreases |pairs|
  {
    if pairs == [] then lines
    else
      var done, d := Transformed(lines, pairs[..|pairs| - 1], define), define(pairs[|pairs| - 1]);
      if d.Some? then Update(d.value, done) else done
  }

  /** The text after the reconcile of one resource; on an error it stays. */
  function Reconciled(lines: seq<string>, r: Resource): seq<string>
    requires Readable(lines)
  {
    match FlowsIn(r, lines)
    case None => lines
    case Some(pairs) => Transformed(Merged(lines, pairs, r.topics), pairs, r.define)
  }

  // ----- what keeps a text clean -----

  /** The row can be read, and rows of flows are neither indented nor, when they switch a flow, lists. */
  ghost predicate CleanLine(line: string) {
    && (IsRow(line) ==> HasEquals(line)) && Lacks(line, '\n')
    && (forall flow | GoodFlow(flow) :: HasKey(TopicsKey(flow), line) ==> TopicsKey(flow) <= line)
    && (forall flow | GoodFlow(flow) :: HasKey(EnabledKey(flow), line) ==> HasEquals(line) && Lacks(RawOf(line), ','))
  }

  ghost predicate Clean(lines: seq<string>) {
    forall i | 0 <= i < |lines| :: CleanLine(lines[i])
  }

  lemma CleanIsReadable(lines: seq<string>)
    requires Clean(lines)
    ensures Readable(lines)
  {
  }

  lemma TopicsRowIsClean(flow: string, text: string)
    requires GoodFlow(flow) && Lacks(text, '\n')
    ensures CleanLine(Row(TopicsKey(flow), text))
  {
    var row := Row(TopicsKey(flow), text);
    KeysAreGood(flow);
    RowReadsBack(TopicsKey(flow), text);
    forall other | GoodFlow(other) ensures HasKey(TopicsKey(other), row) ==> other == flow {
      KeyOfOneFlow(other, flow);
    }
    forall other | GoodFlow(other) ensures !HasKey(EnabledKey(other), row) {
      KeyOfOneFlow(other, flow);
    }
  }

  lemma EnabledRowIsClean(flow: string)
    requires GoodFlow(flow)
    ensures CleanLine(Row(EnabledKey(flow), "true"))
  {
    var row := Row(EnabledKey(flow), "true");
    KeysAreGood(flow);
    RowReadsBack(EnabledKey(flow), "true");
    forall other | GoodFlow(other) ensures !HasKey(TopicsKey(other), row) {
      KeyOfOneFlow(other, flow);
    }
  }

  lemma MergedTextIsOneLine(lines: seq<string>, flow: string, topics: string)
    requires Clean(lines) && Readable(lines) && KnowsTopics(lines, flow) && Lacks(topics, '\n')
    ensures Lacks(MergedText(lines, flow, topics), '\n')
  {
    var key := TopicsKey(flow);
    RowsAreReadable(lines, key);
    var row := Rows(lines, key)[|Rows(lines, key)| - 1];
    SelectedSatisfy(lines, RowOf(key));
    assert Lacks(row, '\n');
    PartLacks(row, '=', 1, '\n');
    ValueItems(RawOf(row));
    ItemsAreClean(RawOf(row), '\n');
    ItemsAreClean(topics, '\n');
    SelectedSatisfy(ItemsIn(topics), NotIn(Items(lines, key)));
    JoinLacks(Merge(Items(lines, key), ItemsIn(topics)), ',', '\n');
  }

  lemma RewrittenIsClean(lines: seq<string>, pairs: seq<string>, topics: string, line: string)
    requires Clean(lines) && Readable(lines) && GoodFlows(pairs) && Lacks(topics, '\n') && CleanLine(line)
    ensures CleanLine(Rewrite(lines, pairs, topics, line))
  {
    if Hit(lines, pairs, line) {
      var flow :| flow in pairs && HitBy(lines, flow, line);
      GoodFlowsAreSeparate(pairs);
      RewriteHit(lines, pairs, topics, line, flow);
      EnabledRowIsClean(flow);
      if KnowsTopics(lines, flow) {
        MergedTextIsOneLine(lines, flow, topics);
        TopicsRowIsClean(flow, MergedText(lines, flow, topics));
      }
    } else {
      RewriteMiss(lines, pairs, topics, line);
    }
  }

  lemma NewLineIsClean(lines: seq<string>, pairs: seq<string>, topics: string, i: nat)
    requires Readable(lines) && GoodFlows(pairs) && Lacks(topics, '\n') && i < |NewLines(lines, pairs, topics)|
    ensures CleanLine(NewLines(lines, pairs, topics)[i])
  {
    var flow := NewLineIs(lines, pairs, topics, i);
    EnabledRowIsClean(flow);
    TopicsRowIsClean(flow, topics);
  }

  lemma CleanInsert(lines: seq<string>, n: nat, added: seq<string>)
    requires Clean(lines) && Clean(added) && n <= |lines|
    ensures Clean(lines[..n] + added + lines[n..])
  {
  }

  lemma MergedIsClean(lines: seq<string>, pairs: seq<string>, topics: string)
    requires Clean(lines) && Readable(lines) && GoodFlows(pairs) && Lacks(topics, '\n')
    ensures Clean(Merged(lines, pairs, topics))
  {
    var f, added := Rewriter(lines, pairs, topics), NewLines(lines, pairs, topics);
    var mapped := MapLines(f, lines);
    forall i | 0 <= i < |mapped| ensures CleanLine(mapped[i]) {
      MappedIs(f, lines, i);
      RewrittenIsClean(lines, pairs, topics, lines[i]);
    }
    forall i | 0 <= i < |added| ensures CleanLine(added[i]) {
      NewLineIsClean(lines, pairs, topics, i);
    }
    CleanInsert(mapped, BlackListPosition(mapped), added);
  }

  /** In a clean text the last line that touches a known flow starts with its key. */
  lemma CleanTouching(lines: seq<string>, flow: string)
    requires Clean(lines) && GoodFlow(flow) && Rows(lines, TopicsKey(flow)) != []
    ensures TopicsKey(flow) <= LastTouching(lines, flow)
  {
    TouchingExists(lines, TopicsKey(flow));
    SelectedSatisfy(lines, Touches(TopicsKey(flow)));
    var line := LastTouching(lines, flow);
    assert line in lines && CleanLine(line);
  }

  // ----- the transformation update keeps topics and clusters -----

  function Noun(k: Kind): string {
    match k
    case Transforms => "transforms"
    case Predicates => "predicates"
  }

  function Mark(flow: string, k: Kind): string {
    flow + ['.'] + Noun(k)
  }

  lemma MarkedLine(d: Definition, line: string)
    ensures IsEnabled(d.flow, line) ==> EnabledKey(d.flow) <= line
    ensures !IsKept(d, line) ==> Mark(d.flow, Transforms) <= line || Mark(d.flow, Predicates) <= line
  {
    MarkedOwn(d, line);
    MarkedList(d.flow, line);
    assert IsEnabled(d.flow, line) ==> line[..|EnabledKey(d.flow)|] == EnabledKey(d.flow);
  }

  lemma ListMarkIs(k: Kind)
    ensures ListMark(k) == ['.'] + Noun(k) + " = "
  {
    assert ".transforms = " == ['.'] + "transforms" + " = ";
    assert ".predicates = " == ['.'] + "predicates" + " = ";
  }

  lemma NameMarkIs(k: Kind)
    ensures NameMark(k) == ['.'] + Noun(k) + "."
  {
    assert ".transforms." == ['.'] + "transforms" + ".";
    assert ".predicates." == ['.'] + "predicates" + ".";
  }

  lemma StartOfLine(flow: string, noun: string, tail: string, line: string)
    requires flow + (['.'] + noun + tail) <= line
    ensures flow + ['.'] + noun <= line
  {
    var whole := flow + (['.'] + noun + tail);
    assert whole[..|flow| + 1 + |noun|] == flow + ['.'] + noun;
  }

  lemma MarkedListOf(flow: string, k: Kind, line: string)
    ensures IsList(flow, k, line) ==> Mark(flow, k) <= line
  {
    ListMarkIs(k);
    if IsList(flow, k, line) {
      StartOfLine(flow, Noun(k), " = ", line);
    }
  }

  lemma MarkedList(flow: string, line: string)
    ensures IsList(flow, Transforms, line) ==> Mark(flow, Transforms) <= line
    ensures IsList(flow, Predicates, line) ==> Mark(flow, Predicates) <= line
  {
    MarkedListOf(flow, Transforms, line);
    MarkedListOf(flow, Predicates, line);
  }

  lemma MarkedName(flow: string, k: Kind, prefix: string, line: string)
    requires flow + NameMark(k) + prefix <= line
    ensures Mark(flow, k) <= line
  {
    NameMarkIs(k);
    assert flow + NameMark(k) <= line;
    StartOfLine(flow, Noun(k), ".", line);
  }

  lemma MarkedOwn(d: Definition, line: string)
    ensures IsOwn(d, line) ==> Mark(d.flow, Transforms) <= line || Mark(d.flow, Predicates) <= line
  {
    if d.flow + NameMark(Transforms) + d.prefix <= line {
      MarkedName(d.flow, Transforms, d.prefix, line);
    } else if d.flow + NameMark(Predicates) + d.prefix <= line {
      MarkedName(d.flow, Predicates, d.prefix, line);
    }
  }

  /** No property of the flow that an update writes, drops or looks for starts like `key`. */
  ghost predicate Untouched(key: string, flow: string) {
    !(Mark(flow, Transforms) <= key) && !(Mark(flow, Predicates) <= key) && !(EnabledKey(flow) <= key)
  }

  lemma TopicsAreUntouched(flow: string, other: string)
    requires Lacks(flow, '.') && Lacks(other, '.')
    ensures Untouched(TopicsKey(flow), other)
    ensures !(Mark(other, Transforms) <= EnabledKey(flow)) && !(Mark(other, Predicates) <= EnabledKey(flow))
  {
    assert TopicsKey(flow) == flow + ['.'] + "topics" && EnabledKey(flow) == flow + ['.'] + "enabled";
    KeyOfOneFlow(other, flow);
    NoLongerRest(other, flow, "transforms", "topics");
    NoLongerRest(other, flow, "predicates", "topics");
    NoLongerRest(other, flow, "transforms", "enabled");
    NoLongerRest(other, flow, "predicates", "enabled");
  }

  lemma NoLongerRest(flow: string, flow': string, rest: string, rest': string)
    requires Lacks(flow, '.') && Lacks(flow', '.') && |rest| > |rest'|
    ensures !(flow + ['.'] + rest <= flow' + ['.'] + rest')
  {
    if flow + ['.'] + rest <= flow' + ['.'] + rest' {
      FlowOfKey(flow, flow', rest, rest');
    }
  }

  /** No reconcile writes, drops or looks for rows of the key. */
  ghost predicate NoFlowEdits(key: string) {
    forall flow | GoodFlow(flow) :: Untouched(key, flow) && !(TopicsKey(flow) <= key)
  }

  lemma RestIsNoStart(flow: string, word: string, name: string, rest: string)
    requires Lacks(flow, '.') && Lacks(name, '.') && !(word <= rest)
    ensures !(flow + ['.'] + word <= name + ['.'] + rest)
  {
    if flow + ['.'] + word <= name + ['.'] + rest {
      FlowOfKey(flow, name, word, rest);
    }
  }

  ghost predicate OfNoFlow(rest: string) {
    !("transforms" <= rest) && !("predicates" <= rest) && !("enabled" <= rest) && !("topics" <= rest)
  }

  lemma FirstLetters(rest: string)
    requires rest != "" && rest[0] != 't' && rest[0] != 'e' && (rest[0] == 'p' ==> |rest| > 1 && rest[1] != 'r')
    ensures OfNoFlow(rest)
  {
    assert "transforms"[0] == 't' && "topics"[0] == 't' && "enabled"[0] == 'e';
    assert "predicates"[0] == 'p' && "predicates"[1] == 'r';
  }

  /** What stands behind the first dot of a key tells that it belongs to no flow. */
  lemma RestIsOfNoFlow(name: string, rest: string)
    requires Lacks(name, '.') && OfNoFlow(rest)
    ensures NoFlowEdits(name + ['.'] + rest)
  {
    var key := name + ['.'] + rest;
    forall flow | GoodFlow(flow) ensures Untouched(key, flow) && !(TopicsKey(flow) <= key) {
      assert TopicsKey(flow) == flow + ['.'] + "topics" && EnabledKey(flow) == flow + ['.'] + "enabled";
      RestIsNoStart(flow, "transforms", name, rest);
      RestIsNoStart(flow, "predicates", name, rest);
      RestIsNoStart(flow, "enabled", name, rest);
      RestIsNoStart(flow, "topics", name, rest);
    }
  }

  lemma DotlessIsOfNoFlow(key: string)
    requires Lacks(key, '.')
    ensures NoFlowEdits(key)
  {
    forall flow | GoodFlow(flow) ensures Untouched(key, flow) && !(TopicsKey(flow) <= key) {
      assert TopicsKey(flow) == flow + ['.'] + "topics" && EnabledKey(flow) == flow + ['.'] + "enabled";
      DottedIsNoStart(flow, "transforms", key);
      DottedIsNoStart(flow, "predicates", key);
      DottedIsNoStart(flow, "enabled", key);
      DottedIsNoStart(flow, "topics", key);
    }
  }

  /** The rows that name clusters, targets and the policy belong to no flow. */
  lemma GeneralKeysAreOfNoFlow()
    ensures NoFlowEdits("clusters") && NoFlowEdits("target.dc") && NoFlowEdits("replication.policy.class")
  {
    DotlessIsOfNoFlow("clusters");
    assert "target.dc" == "target" + ['.'] + "dc";
    FirstLetters("dc");
    RestIsOfNoFlow("target", "dc");
    assert "replication.policy.class" == "replication" + ['.'] + "policy.class";
    FirstLetters("policy.class");
    RestIsOfNoFlow("replication", "policy.class");
  }

  lemma DottedIsNoStart(flow: string, rest: string, key: string)
    requires Lacks(key, '.')
    ensures !(flow + ['.'] + rest <= key)
  {
    assert (flow + ['.'] + rest)[|flow|] == '.';
  }

  lemma MarksAreGood(flow: string)
    requires GoodFlow(flow)
    ensures GoodKey(Mark(flow, Transforms)) && GoodKey(Mark(flow, Predicates)) && GoodKey(EnabledKey(flow))
  {
  }

  lemma RowIsKept(d: Definition, key: string, line: string)
    requires GoodFlow(d.flow) && Untouched(key, d.flow) && HasKey(key, line)
    ensures IsKept(d, line) && !IsEnabled(d.flow, line)
  {
    MarksAreGood(d.flow);
    MarkedLine(d, line);
    if EnabledKey(d.flow) <= line {
      RowStart(key, line, EnabledKey(d.flow));
    }
    if Mark(d.flow, Transforms) <= line {
      RowStart(key, line, Mark(d.flow, Transforms));
    }
    if Mark(d.flow, Predicates) <= line {
      RowStart(key, line, Mark(d.flow, Predicates));
    }
  }

  /** The transformation update keeps the rows of every key it is not about. */
  lemma UpdateKeepsRows(d: Definition, lines: seq<string>, key: string)
    requires WellFormed(d) && GoodFlow(d.flow) && Untouched(key, d.flow)
    ensures Rows(Update(d, lines), key) == Rows(lines, key)
  {
    var block := BlockFor(d, lines);
    BlockIsDropped(d, lines);
    forall line | RowOf(key)(line) ensures KeptBy(d)(line) && !EnabledBy(d.flow)(line) {
      RowIsKept(d, key, line);
    }
    forall i | 0 <= i < |block| ensures !RowOf(key)(block[i]) {
      assert !KeptBy(d)(block[i]);
    }
    SelectNone(block, RowOf(key));
    SelectWeave(lines, KeptBy(d), EnabledBy(d.flow), block, RowOf(key));
  }

  // ----- the transformation update keeps the text clean -----

  /** A definition whose lines and names are single lines and whose lines are rows. */
  ghost predicate Writes(d: Definition) {
    && WellFormed(d) && GoodFlow(d.flow)
    && (forall i | 0 <= i < |d.config| :: HasEquals(d.config[i]) && Lacks(d.config[i], '\n'))
    && AllLack(d.transforms, '\n') && AllLack(d.predicates, '\n')
  }

  lemma MarkedIsClean(flow: string, k: Kind, line: string)
    requires GoodFlow(flow) && Mark(flow, k) <= line && HasEquals(line) && Lacks(line, '\n')
    ensures CleanLine(line)
  {
    MarksAreGood(flow);
    forall other | GoodFlow(other) ensures !HasKey(TopicsKey(other), line) && !HasKey(EnabledKey(other), line) {
      TopicsAreUntouched(other, flow);
      if HasKey(TopicsKey(other), line) {
        RowStart(TopicsKey(other), line, Mark(flow, k));
      }
      if HasKey(EnabledKey(other), line) {
        RowStart(EnabledKey(other), line, Mark(flow, k));
      }
    }
  }

  lemma {:induction false} TrimAllLacks(parts: seq<string>, c: char)
    requires AllLack(parts, c)
    ensures AllLack(TrimAll(parts), c)
  {
    if parts != [] {
      TrimSpec(parts[0], WHITE, c);
      TrimAllLacks(parts[1..], c);
    }
  }

  lemma {:induction false} ListedLacks(flow: string, k: Kind, lines: seq<string>, c: char)
    requires AllLack(lines, c)
    ensures AllLack(Listed(flow, k, lines), c)
  {
    if lines != [] {
      ListedLacks(flow, k, lines[1..], c);
      NamesInLack(flow, k, lines[0], c);
    }
  }

  lemma NamesInLack(flow: string, k: Kind, line: string, c: char)
    requires Lacks(line, c)
    ensures AllLack(NamesIn(flow, k, line), c)
  {
    if IsList(flow, k, line) {
      var rest := line[|flow + ListMark(k)|..];
      forall i | 0 <= i < |Split(rest, ',')| ensures Lacks(Split(rest, ',')[i], c) {
        PartLacks(rest, ',', i, c);
      }
      TrimAllLacks(Split(rest, ','), c);
    }
  }

  lemma AllNamesLack(d: Definition, k: Kind, lines: seq<string>, c: char)
    requires AllLack(lines, c) && AllLack(d.Names(k), c)
    ensures AllLack(AllNames(d, k, lines), c)
  {
    ListedLacks(d.flow, k, lines, c);
    SelectedSatisfy(Listed(d.flow, k, lines), ForeignTo(d.prefix));
    var extra := Extra(d, k, lines);
    forall i | 0 <= i < |extra| ensures Lacks(extra[i], c) {
      assert extra[i] in Listed(d.flow, k, lines);
    }
  }

  lemma JoinedNamesLack(names: seq<string>, c: char)
    requires AllLack(names, c) && c != ','
    ensures Lacks(Join(Sort(names), ','), c)
  {
    SortPermutes(names);
    forall i | 0 <= i < |Sort(names)| ensures Lacks(Sort(names)[i], c) {
      assert Sort(names)[i] in multiset(Sort(names));
      assert Sort(names)[i] in names;
    }
    JoinLacks(Sort(names), ',', c);
  }

  lemma RowOfFlow(flow: string, noun: string, text: string)
    ensures Row(flow + ['.'] + noun, text) == flow + (['.'] + noun + " = ") + text
  {
  }

  lemma ListLineIsRow(flow: string, k: Kind, text: string)
    ensures Row(Mark(flow, k), text) == flow + ListMark(k) + text
  {
    ListMarkIs(k);
    RowOfFlow(flow, Noun(k), text);
  }

  lemma MarkRowIsOneLine(flow: string, k: Kind, text: string)
    requires Lacks(flow, '\n') && Lacks(text, '\n')
    ensures Lacks(Row(Mark(flow, k), text), '\n')
  {
  }

  lemma ListLinesAreClean(flow: string, k: Kind, names: seq<string>)
    requires GoodFlow(flow) && AllLack(names, '\n')
    ensures Clean(ListLines(flow, k, names))
  {
    var text := Join(Sort(names), ',');
    JoinedNamesLack(names, '\n');
    ListLineIsRow(flow, k, text);
    MarkRowIsOneLine(flow, k, text);
    MarksAreGood(flow);
    RowReadsBack(Mark(flow, k), text);
    MarkedIsClean(flow, k, ListLine(flow, k, names));
  }

  lemma OwnIsClean(d: Definition, i: nat)
    requires Writes(d) && i < |d.config|
    ensures CleanLine(d.config[i])
  {
    MarkedOwn(d, d.config[i]);
    if Mark(d.flow, Transforms) <= d.config[i] {
      MarkedIsClean(d.flow, Transforms, d.config[i]);
    } else {
      MarkedIsClean(d.flow, Predicates, d.config[i]);
    }
  }

  lemma ConfigIsClean(d: Definition)
    requires Writes(d)
    ensures Clean(d.config)
  {
    forall i | 0 <= i < |d.config| ensures CleanLine(d.config[i]) {
      OwnIsClean(d, i);
    }
  }

  lemma CleanConcat(a: seq<string>, b: seq<string>)
    requires Clean(a) && Clean(b)
    ensures Clean(a + b)
  {
  }

  lemma BlockIsClean(d: Definition, ts: seq<string>, ps: seq<string>)
    requires Writes(d) && AllLack(ts, '\n') && AllLack(ps, '\n')
    ensures Clean(Block(d, ts, ps))
  {
    ConfigIsClean(d);
    ListLinesAreClean(d.flow, Transforms, ts);
    ListLinesAreClean(d.flow, Predicates, ps);
    CleanConcat(d.config, ListLines(d.flow, Transforms, ts));
    CleanConcat(d.config + ListLines(d.flow, Transforms, ts), ListLines(d.flow, Predicates, ps));
  }

  lemma BlockForIsClean(d: Definition, lines: seq<string>)
    requires Writes(d) && Clean(lines)
    ensures Clean(BlockFor(d, lines))
  {
    assert AllLack(lines, '\n');
    AllNamesLack(d, Transforms, lines, '\n');
    AllNamesLack(d, Predicates, lines, '\n');
    BlockIsClean(d, AllNames(d, Transforms, lines), AllNames(d, Predicates, lines));
  }

  lemma UpdateIsClean(d: Definition, lines: seq<string>)
    requires Writes(d) && Clean(lines)
    ensures Clean(Update(d, lines))
  {
    BlockForIsClean(d, lines);
    UpdateBag(d, lines);
    var r := Update(d, lines);
    forall i | 0 <= i < |r| ensures CleanLine(r[i]) {
      assert r[i] in multiset(r);
      assert r[i] in Keep(d, lines) || r[i] in BlockFor(d, lines);
      SelectMember(lines, KeptBy(d), r[i]);
    }
  }
}
