/**
 Merging the topics a custom resource requests into the topic lists of replication flows. The rows of
 a flow are found by the text they start with; values are read by key.
 */
module TopicMerge {
  import opened Options
  import opened Text
  import opened Lines
  import opened Properties

  function TopicsKey(flow: string): string {
    flow + ".topics"
  }

  function EnabledKey(flow: string): string {
    flow + ".enabled"
  }

  /** The name of a flow between word-named clusters. */
  ghost predicate GoodFlow(flow: string) {
    GoodKey(flow) && Lacks(flow, '.') && Lacks(flow, '\n')
  }

  ghost predicate GoodFlows(pairs: seq<string>) {
    forall i | 0 <= i < |pairs| :: GoodFlow(pairs[i])
  }

  /** The topics of a flow as the operator reads them. */
  ghost function TopicSet(lines: seq<string>, flow: string): set<string>
    requires Readable(lines)
  {
    set t | t in Items(lines, TopicsKey(flow))
  }

  ghost function Requested(topics: string): set<string> {
    set t | t in ItemsIn(topics)
  }

  // ----- keys -----

  lemma KeysAreGood(flow: string)
    requires GoodFlow(flow)
    ensures GoodKey(TopicsKey(flow)) && GoodKey(EnabledKey(flow))
  {
  }

  /** A flow property has its first dot behind the flow's name. */
  lemma FlowOfKey(flow: string, flow': string, rest: string, rest': string)
    requires Lacks(flow, '.') && Lacks(flow', '.')
    requires flow + ['.'] + rest <= flow' + ['.'] + rest'
    ensures flow == flow' && rest <= rest'
  {
    var a, b := flow + ['.'] + rest, flow' + ['.'] + rest';
    assert a[|flow|] == '.' == b[|flow|];
    assert b[|flow'|] == '.';
    assert |flow'| < |a| ==> a[|flow'|] == b[|flow'|];
    assert |flow| >= |flow'|;
    assert |flow| <= |flow'|;
    assert a[..|flow|] == flow && b[..|flow|] == flow';
    assert a[|flow| + 1..] == rest && b[|flow| + 1..] == rest';
  }

  /** No key of the first flow starts a key of the second. */
  ghost predicate ToldApart(flow: string, flow': string) {
    && (TopicsKey(flow) <= TopicsKey(flow') ==> flow == flow')
    && (EnabledKey(flow) <= EnabledKey(flow') ==> flow == flow')
    && !(TopicsKey(flow) <= EnabledKey(flow')) && !(EnabledKey(flow) <= TopicsKey(flow'))
  }

  /** No key of a flow starts a key of another, as with names without dots. */
  ghost predicate Separate(pairs: seq<string>) {
    forall f, g | f in pairs && g in pairs :: ToldApart(f, g)
  }

  lemma GoodFlowsAreSeparate(pairs: seq<string>)
    requires GoodFlows(pairs)
    ensures Separate(pairs)
  {
    forall f, g | f in pairs && g in pairs ensures ToldApart(f, g) {
      KeyOfOneFlow(f, g);
    }
  }

  lemma KeyOfOneFlow(flow: string, flow': string)
    requires Lacks(flow, '.') && Lacks(flow', '.')
    ensures ToldApart(flow, flow')
  {
    assert TopicsKey(flow) == flow + ['.'] + "topics" && TopicsKey(flow') == flow' + ['.'] + "topics";
    assert EnabledKey(flow) == flow + ['.'] + "enabled" && EnabledKey(flow') == flow' + ['.'] + "enabled";
    assert "topics"[0] != "enabled"[0];
    if TopicsKey(flow) <= TopicsKey(flow') {
      FlowOfKey(flow, flow', "topics", "topics");
    }
    if EnabledKey(flow) <= EnabledKey(flow') {
      FlowOfKey(flow, flow', "enabled", "enabled");
    }
    if TopicsKey(flow) <= EnabledKey(flow') {
      FlowOfKey(flow, flow', "topics", "enabled");
    }
    if EnabledKey(flow) <= TopicsKey(flow') {
      FlowOfKey(flow, flow', "enabled", "topics");
    }
  }

  /** One line starts with the key of one flow only. */
  lemma LineOfOneFlow(flow: string, flow': string, line: string)
    requires ToldApart(flow, flow') && ToldApart(flow', flow)
    ensures TopicsKey(flow) <= line && TopicsKey(flow') <= line ==> flow == flow'
    ensures EnabledKey(flow) <= line && EnabledKey(flow') <= line ==> flow == flow'
    ensures !(TopicsKey(flow) <= line && EnabledKey(flow') <= line)
  {
    if TopicsKey(flow) <= line && TopicsKey(flow') <= line {
      BeginningsNest(TopicsKey(flow), TopicsKey(flow'), line);
    }
    if EnabledKey(flow) <= line && EnabledKey(flow') <= line {
      BeginningsNest(EnabledKey(flow), EnabledKey(flow'), line);
    }
    if TopicsKey(flow) <= line && EnabledKey(flow') <= line {
      BeginningsNest(TopicsKey(flow), EnabledKey(flow'), line);
    }
  }

  // ----- merging two topic lists -----

  function NotIn(known: seq<string>): string -> bool {
    t => t !in known
  }

  /** Old topics first, then the new ones that are not among them. */
  function Merge(oldTopics: seq<string>, newTopics: seq<string>): seq<string> {
    oldTopics + Select(newTopics, NotIn(oldTopics))
  }

  lemma MergeIsUnion(oldTopics: seq<string>, newTopics: seq<string>, t: string)
    ensures t in Merge(oldTopics, newTopics) <==> t in oldTopics || t in newTopics
  {
    SelectMember(newTopics, NotIn(oldTopics), t);
  }

  /** Every item is clean and has no equals sign. */
  ghost predicate Writable(items: seq<string>) {
    CleanItems(items) && forall i | 0 <= i < |items| :: Lacks(items[i], '=')
  }

  lemma MergeIsWritable(oldTopics: seq<string>, newTopics: seq<string>)
    requires Writable(oldTopics) && Writable(newTopics)
    ensures Writable(Merge(oldTopics, newTopics))
  {
    SelectedSatisfy(newTopics, NotIn(oldTopics));
  }

  lemma ItemsAreWritable(lines: seq<string>, key: string)
    requires Readable(lines) && Rows(lines, key) != []
    ensures Writable(Items(lines, key)) && Items(lines, key) != []
  {
    RowsAreReadable(lines, key);
    var row := Rows(lines, key)[|Rows(lines, key)| - 1];
    SplitLacks(row, '=');
    ValueItems(RawOf(row));
    ItemsAreClean(RawOf(row), '=');
  }

  /** The new text of the topics row of a flow. */
  function MergedText(lines: seq<string>, flow: string, topics: string): string
    requires Readable(lines)
  {
    Join(Merge(Items(lines, TopicsKey(flow)), ItemsIn(topics)), ',')
  }

  lemma MergedReadsBack(lines: seq<string>, flow: string, topics: string)
    requires Readable(lines) && Rows(lines, TopicsKey(flow)) != [] && GoodFlow(flow) && Lacks(topics, '=')
    ensures var row := Row(TopicsKey(flow), MergedText(lines, flow, topics));
      HasEquals(row) && ItemsIn(RawOf(row)) == Merge(Items(lines, TopicsKey(flow)), ItemsIn(topics))
  {
    var merged := Merge(Items(lines, TopicsKey(flow)), ItemsIn(topics));
    ItemsAreWritable(lines, TopicsKey(flow));
    ItemsAreClean(topics, '=');
    MergeIsWritable(Items(lines, TopicsKey(flow)), ItemsIn(topics));
    JoinLacks(merged, ',', '=');
    RowReadsBack(TopicsKey(flow), Join(merged, ','));
    JoinedItems(merged);
  }

  // ----- the edit of one line -----

  predicate TurnsOn(lines: seq<string>, flow: string)
    requires Readable(lines)
  {
    Lookup(lines, EnabledKey(flow)) == Some(One("false"))
  }

  predicate KnowsTopics(lines: seq<string>, flow: string)
    requires Readable(lines)
  {
    Lookup(lines, TopicsKey(flow)).Some?
  }

  /** The flow rewrites the line. */
  predicate HitBy(lines: seq<string>, flow: string, line: string)
    requires Readable(lines)
  {
    (EnabledKey(flow) <= line && TurnsOn(lines, flow)) || (TopicsKey(flow) <= line && KnowsTopics(lines, flow))
  }

  /** The row of the flow the line is replaced by. */
  function RewriteBy(lines: seq<string>, flow: string, topics: string, line: string): string
    requires Readable(lines)
  {
    if EnabledKey(flow) <= line && TurnsOn(lines, flow) then Row(EnabledKey(flow), "true")
    else Row(TopicsKey(flow), MergedText(lines, flow, topics))
  }

  /** The line as the requested flows rewrite it; `lines` is the text the values were read from. */
  function Rewrite(lines: seq<string>, pairs: seq<string>, topics: string, line: string): string
    requires Readable(lines)
    decreases |pairs|
  {
    if pairs == [] then line
    else if HitBy(lines, pairs[|pairs| - 1], line) then RewriteBy(lines, pairs[|pairs| - 1], topics, line)
    else Rewrite(lines, pairs[..|pairs| - 1], topics, line)
  }

  /** The request rewrites the line. */
  predicate Hit(lines: seq<string>, pairs: seq<string>, line: string)
    requires Readable(lines)
  {
    exists flow | flow in pairs :: HitBy(lines, flow, line)
  }

  lemma {:induction false} RewriteMiss(lines: seq<string>, pairs: seq<string>, topics: string, line: string)
    requires Readable(lines) && !Hit(lines, pairs, line)
    ensures Rewrite(lines, pairs, topics, line) == line
    decreases |pairs|
  {
    if pairs != [] {
      assert !HitBy(lines, pairs[|pairs| - 1], line);
      RewriteMiss(lines, pairs[..|pairs| - 1], topics, line);
    }
  }

  lemma FewerAreSeparate(pairs: seq<string>)
    requires pairs != [] && Separate(pairs)
    ensures Separate(pairs[..|pairs| - 1])
  {
    var seen := pairs[..|pairs| - 1];
    forall f, g | f in seen && g in seen ensures ToldApart(f, g) {
      assert f in pairs && g in pairs;
    }
  }

  /** One flow decides how a line is rewritten. */
  lemma {:induction false} RewriteHit(lines: seq<string>, pairs: seq<string>, topics: string, line: string,
                                      flow: string)
    requires Readable(lines) && Separate(pairs) && flow in pairs && HitBy(lines, flow, line)
    ensures Rewrite(lines, pairs, topics, line) == RewriteBy(lines, flow, topics, line)
    decreases |pairs|
  {
    var last := pairs[|pairs| - 1];
    assert ToldApart(flow, last) && ToldApart(last, flow);
    LineOfOneFlow(flow, last, line);
    LineOfOneFlow(last, flow, line);
    if last != flow {
      assert !HitBy(lines, last, line);
      FewerAreSeparate(pairs);
      RewriteHit(lines, pairs[..|pairs| - 1], topics, line, flow);
    }
  }

  // ----- the new lines and their place -----

  /** The rows of flows the text does not know yet. */
  function NewLines(lines: seq<string>, pairs: seq<string>, topics: string): seq<string>
    requires Readable(lines)
    decreases |pairs|
  {
    if pairs == [] then []
    else
      var flow := pairs[|pairs| - 1];
      var known := NewLines(lines, pairs[..|pairs| - 1], topics);
      var enabled := if Lookup(lines, EnabledKey(flow)).None? then [Row(EnabledKey(flow), "true")] else [];
      var listed := if KnowsTopics(lines, flow) then [] else [Row(TopicsKey(flow), topics)];
      known + enabled + listed
  }

  function StartingWith(key: string): string -> bool {
    line => key <= line
  }

  /** The place of the first line of a kind, or the end of the text. */
  function FirstOf(lines: seq<string>, p: string -> bool): (pos: nat)
    ensures pos <= |lines|
  {
    if lines == [] || p(lines[0]) then 0 else 1 + FirstOf(lines[1..], p)
  }

  /** The first line of the black list, or the end of the text. */
  function BlackListPosition(lines: seq<string>): (pos: nat)
    ensures pos <= |lines|
  {
    FirstOf(lines, StartingWith("topics.blacklist"))
  }

  function MapLines(f: string -> string, lines: seq<string>): seq<string> {
    if lines == [] then [] else [f(lines[0])] + MapLines(f, lines[1..])
  }

  function Rewriter(lines: seq<string>, pairs: seq<string>, topics: string): string -> string
    requires Readable(lines)
  {
    line => Rewrite(lines, pairs, topics, line)
  }

  function InsertNew(lines: seq<string>, added: seq<string>): seq<string> {
    lines[..BlackListPosition(lines)] + added + lines[BlackListPosition(lines)..]
  }

  /** The text after the topics of a request were merged into the flows `pairs`. */
  function Merged(lines: seq<string>, pairs: seq<string>, topics: string): seq<string>
    requires Readable(lines)
  {
    InsertNew(MapLines(Rewriter(lines, pairs, topics), lines), NewLines(lines, pairs, topics))
  }

  lemma {:induction false} FirstOfIs(lines: seq<string>, p: string -> bool)
    ensures var pos := FirstOf(lines, p);
      (forall i | 0 <= i < pos :: !p(lines[i])) && (pos < |lines| ==> p(lines[pos]))
  {
    if lines != [] && !p(lines[0]) {
      FirstOfIs(lines[1..], p);
    }
  }

  /** New rows stand right in front of the first line of the black list, or at the end if there is none. */
  lemma NewRowsStandInFront(lines: seq<string>, pairs: seq<string>, topics: string)
    returns (front: seq<string>, back: seq<string>)
    requires Readable(lines)
    ensures Merged(lines, pairs, topics) == front + NewLines(lines, pairs, topics) + back
    ensures front + back == MapLines(Rewriter(lines, pairs, topics), lines)
    ensures forall i | 0 <= i < |front| :: !("topics.blacklist" <= front[i])
    ensures back != [] ==> "topics.blacklist" <= back[0]
  {
    var mapped := MapLines(Rewriter(lines, pairs, topics), lines);
    var pos := BlackListPosition(mapped);
    FirstOfIs(mapped, StartingWith("topics.blacklist"));
    front, back := mapped[..pos], mapped[pos..];
  }

  /** The first new line is a row of a requested flow the text has no such row of. */
  lemma {:induction false} NewLineIs(lines: seq<string>, pairs: seq<string>, topics: string, i: nat)
    returns (flow: string)
    requires Readable(lines) && i < |NewLines(lines, pairs, topics)|
    ensures flow in pairs
    ensures (Rows(lines, EnabledKey(flow)) == [] && NewLines(lines, pairs, topics)[i] == Row(EnabledKey(flow), "true"))
      || (Rows(lines, TopicsKey(flow)) == [] && NewLines(lines, pairs, topics)[i] == Row(TopicsKey(flow), topics))
    decreases |pairs|
  {
    flow := pairs[|pairs| - 1];
    var rest := pairs[..|pairs| - 1];
    if i < |NewLines(lines, rest, topics)| {
      flow := NewLineIs(lines, rest, topics, i);
    }
  }

  lemma {:induction false} NewTopicsLine(lines: seq<string>, pairs: seq<string>, topics: string, flow: string)
    requires Readable(lines) && flow in pairs && !KnowsTopics(lines, flow)
    ensures Row(TopicsKey(flow), topics) in NewLines(lines, pairs, topics)
    decreases |pairs|
  {
    if flow != pairs[|pairs| - 1] {
      NewTopicsLine(lines, pairs[..|pairs| - 1], topics, flow);
    }
  }
}
