/** Topic sets over any sequence of reconciles by any resources. */
module TopicJoin {
  import opened Text
  import opened Properties
  import opened TopicMerge
  import opened TopicLaws
  import opened TopicRuns

  /** The topics are one line without equals signs, and transformation definitions are those of their flow. */
  ghost predicate GoodResource(r: Resource) {
    && Lacks(r.topics, '=') && Lacks(r.topics, '\n')
    && (forall flow | GoodFlow(flow) && r.define(flow).Some? ::
          Writes(r.define(flow).value) && r.define(flow).value.flow == flow)
  }

  /** A clean text with a list of clusters and good names. */
  ghost predicate Sound(lines: seq<string>) {
    && Clean(lines) && Readable(lines) && GoodNames(lines)
    && Lookup(lines, "clusters").Some? && Lookup(lines, "clusters").value.Many?
  }

  // ----- one reconcile -----

  lemma {:induction false} TransformedKeepsRows(lines: seq<string>, pairs: seq<string>, r: Resource, key: string)
    requires GoodResource(r) && GoodFlows(pairs) && forall i | 0 <= i < |pairs| :: Untouched(key, pairs[i])
    ensures Rows(Transformed(lines, pairs, r.define), key) == Rows(lines, key)
    decreases |pairs|
  {
    if pairs != [] {
      var seen, last := pairs[..|pairs| - 1], pairs[|pairs| - 1];
      TransformedKeepsRows(lines, seen, r, key);
      if r.define(last).Some? {
        UpdateKeepsRows(r.define(last).value, Transformed(lines, seen, r.define), key);
      }
    }
  }

  lemma {:induction false} TransformedIsClean(lines: seq<string>, pairs: seq<string>, r: Resource)
    requires GoodResource(r) && GoodFlows(pairs) && Clean(lines)
    ensures Clean(Transformed(lines, pairs, r.define))
    decreases |pairs|
  {
    if pairs != [] {
      var seen, last := pairs[..|pairs| - 1], pairs[|pairs| - 1];
      TransformedIsClean(lines, seen, r);
      if r.define(last).Some? {
        UpdateIsClean(r.define(last).value, Transformed(lines, seen, r.define));
      }
    }
  }

  lemma ReconciledIsClean(lines: seq<string>, r: Resource)
    requires Sound(lines) && GoodResource(r)
    ensures Clean(Reconciled(lines, r)) && Readable(Reconciled(lines, r))
  {
    if FlowsIn(r, lines).Some? {
      var pairs := FlowsIn(r, lines).value;
      FlowsAreGood(r, lines);
      MergedIsClean(lines, pairs, r.topics);
      TransformedIsClean(Merged(lines, pairs, r.topics), pairs, r);
    }
    CleanIsReadable(Reconciled(lines, r));
  }

  /** Rows that belong to no flow stay. */
  lemma ReconciledKeepsRows(lines: seq<string>, r: Resource, key: string)
    requires Sound(lines) && GoodResource(r) && NoFlowEdits(key)
    ensures Rows(Reconciled(lines, r), key) == Rows(lines, key)
  {
    if FlowsIn(r, lines).Some? {
      var pairs := FlowsIn(r, lines).value;
      FlowsAreGood(r, lines);
      ApartKeysStay(lines, pairs, r.topics, key);
      TransformedKeepsRows(Merged(lines, pairs, r.topics), pairs, r, key);
    }
  }

  /** Clusters and targets, and so the flows of every resource, stay. */
  lemma ReconciledIsSound(lines: seq<string>, r: Resource)
    requires Sound(lines) && GoodResource(r)
    ensures Sound(Reconciled(lines, r))
    ensures forall q :: FlowsIn(q, Reconciled(lines, r)) == FlowsIn(q, lines)
  {
    ReconciledIsClean(lines, r);
    GeneralKeysAreOfNoFlow();
    ReconciledKeepsRows(lines, r, "clusters");
    ReconciledKeepsRows(lines, r, "target.dc");
  }

  /** What a resource asks for on a flow. */
  ghost function Asks(r: Resource, lines: seq<string>, flow: string): set<string>
    requires Readable(lines)
  {
    if FlowsIn(r, lines).Some? && flow in FlowsIn(r, lines).value then Requested(r.topics) else {}
  }

  lemma SameTopics(lines: seq<string>, other: seq<string>, flow: string)
    requires Readable(lines) && Readable(other) && Rows(lines, TopicsKey(flow)) == Rows(other, TopicsKey(flow))
    ensures TopicSet(lines, flow) == TopicSet(other, flow)
  {
  }

  lemma MergedTopics(lines: seq<string>, pairs: seq<string>, topics: string, flow: string)
    requires Clean(lines) && Readable(lines) && GoodFlows(pairs) && GoodFlow(flow) && Lacks(topics, '=')
    requires Lacks(topics, '\n')
    ensures Readable(Merged(lines, pairs, topics))
    ensures TopicSet(Merged(lines, pairs, topics), flow)
      == TopicSet(lines, flow) + (if flow in pairs then Requested(topics) else {})
  {
    MergedIsClean(lines, pairs, topics);
    CleanIsReadable(Merged(lines, pairs, topics));
    if flow in pairs {
      if Rows(lines, TopicsKey(flow)) != [] {
        CleanTouching(lines, flow);
      }
      TopicsMergeExactly(lines, pairs, topics, flow);
    } else {
      OtherFlowsStay(lines, pairs, topics, flow);
      SameTopics(lines, Merged(lines, pairs, topics), flow);
    }
  }

  /** One reconcile adds what the resource asks for, and nothing else. */
  lemma ReconcileAddsTopics(lines: seq<string>, r: Resource, flow: string)
    requires Sound(lines) && GoodResource(r) && GoodFlow(flow)
    ensures Readable(Reconciled(lines, r))
    ensures TopicSet(Reconciled(lines, r), flow) == TopicSet(lines, flow) + Asks(r, lines, flow)
  {
    ReconciledIsClean(lines, r);
    if FlowsIn(r, lines).Some? {
      var pairs := FlowsIn(r, lines).value;
      FlowsAreGood(r, lines);
      MergedTopics(lines, pairs, r.topics, flow);
      forall i | 0 <= i < |pairs| ensures Untouched(TopicsKey(flow), pairs[i]) {
        TopicsAreUntouched(flow, pairs[i]);
      }
      TransformedKeepsRows(Merged(lines, pairs, r.topics), pairs, r, TopicsKey(flow));
      SameTopics(Merged(lines, pairs, r.topics), Reconciled(lines, r), flow);
    }
  }

  // ----- runs -----

  ghost predicate GoodResources(rs: seq<Resource>) {
    forall i | 0 <= i < |rs| :: GoodResource(rs[i])
  }

  /** The stored text after each resource was reconciled once, in order. */
  ghost function Run(content: string, rs: seq<Resource>): string
    requires Sound(Split(content, '\n')) && GoodResources(rs)
    ensures Sound(Split(Run(content, rs), '\n'))
    decreases |rs|
  {
    if rs == [] then content
    else
      var before := Split(Run(content, rs[..|rs| - 1]), '\n');
      ReconciledReadsBack(before, rs[|rs| - 1]);
      Join(Reconciled(before, rs[|rs| - 1]), '\n')
  }

  /** Storing the lines and reading them again gives the same lines. */
  lemma ReconciledReadsBack(lines: seq<string>, r: Resource)
    requires Sound(lines) && GoodResource(r)
    ensures Split(Join(Reconciled(lines, r), '\n'), '\n') == Reconciled(lines, r)
    ensures Sound(Reconciled(lines, r))
  {
    ReconciledIsSound(lines, r);
    var after := Reconciled(lines, r);
    assert Rows([], "clusters") == [];
    SplitJoin(after, '\n');
  }

  /** Everything the resources ask for on a flow. */
  ghost function AskedBy(rs: seq<Resource>, lines: seq<string>, flow: string): set<string>
    requires Readable(lines)
    decreases |rs|
  {
    if rs == [] then {} else AskedBy(rs[..|rs| - 1], lines, flow) + Asks(rs[|rs| - 1], lines, flow)
  }

  lemma {:induction false} RunKeepsFlows(content: string, rs: seq<Resource>, q: Resource)
    requires Sound(Split(content, '\n')) && GoodResources(rs)
    ensures FlowsIn(q, Split(Run(content, rs), '\n')) == FlowsIn(q, Split(content, '\n'))
    decreases |rs|
  {
    if rs != [] {
      var seen := rs[..|rs| - 1];
      RunKeepsFlows(content, seen, q);
      ReconciledReadsBack(Split(Run(content, seen), '\n'), rs[|rs| - 1]);
      ReconciledIsSound(Split(Run(content, seen), '\n'), rs[|rs| - 1]);
    }
  }

  /** No run changes a row that belongs to no flow: clusters, targets, brokers and the policy of names stay. */
  lemma {:induction false} RunKeepsRows(content: string, rs: seq<Resource>, key: string)
    requires Sound(Split(content, '\n')) && GoodResources(rs) && NoFlowEdits(key)
    ensures Rows(Split(Run(content, rs), '\n'), key) == Rows(Split(content, '\n'), key)
    decreases |rs|
  {
    if rs != [] {
      var seen, last := rs[..|rs| - 1], rs[|rs| - 1];
      RunKeepsRows(content, seen, key);
      ReconciledReadsBack(Split(Run(content, seen), '\n'), last);
      ReconciledKeepsRows(Split(Run(content, seen), '\n'), last, key);
    }
  }

  /** Over any run the topics of a flow are those it had and those that were asked for. */
  lemma {:induction false} RunJoinsTopics(content: string, rs: seq<Resource>, flow: string)
    requires Sound(Split(content, '\n')) && GoodResources(rs) && GoodFlow(flow)
    ensures TopicSet(Split(Run(content, rs), '\n'), flow)
      == TopicSet(Split(content, '\n'), flow) + AskedBy(rs, Split(content, '\n'), flow)
    decreases |rs|
  {
    if rs != [] {
      var seen, last := rs[..|rs| - 1], rs[|rs| - 1];
      var before := Split(Run(content, seen), '\n');
      RunJoinsTopics(content, seen, flow);
      RunKeepsFlows(content, seen, last);
      ReconciledReadsBack(before, last);
      ReconcileAddsTopics(before, last, flow);
    }
  }

  lemma InSnoc(rs: seq<Resource>, p: Resource -> bool)
    requires rs != []
    ensures var seen, last := rs[..|rs| - 1], rs[|rs| - 1];
      (exists r :: r in rs && p(r)) <==> (exists r :: r in seen && p(r)) || p(last)
  {
    var seen, last := rs[..|rs| - 1], rs[|rs| - 1];
    assert rs == seen + [last];
  }

  lemma {:induction false} AskedByMember(rs: seq<Resource>, lines: seq<string>, flow: string, t: string)
    requires Readable(lines)
    ensures t in AskedBy(rs, lines, flow) <==> exists r :: r in rs && t in Asks(r, lines, flow)
    decreases |rs|
  {
    if rs != [] {
      var seen, last := rs[..|rs| - 1], rs[|rs| - 1];
      AskedByMember(seen, lines, flow, t);
      InSnoc(rs, r => t in Asks(r, lines, flow));
    }
  }

  /** The order and the number of reconciles make no difference to any topic set. */
  lemma OrderAndRepetitionDoNotMatter(content: string, rs: seq<Resource>, rs': seq<Resource>, flow: string)
    requires Sound(Split(content, '\n')) && GoodResources(rs) && GoodResources(rs') && GoodFlow(flow)
    requires forall r :: r in rs <==> r in rs'
    ensures TopicSet(Split(Run(content, rs), '\n'), flow) == TopicSet(Split(Run(content, rs'), '\n'), flow)
  {
    var lines := Split(content, '\n');
    RunJoinsTopics(content, rs, flow);
    RunJoinsTopics(content, rs', flow);
    forall t ensures t in AskedBy(rs, lines, flow) <==> t in AskedBy(rs', lines, flow) {
      AskedByMember(rs, lines, flow, t);
      AskedByMember(rs', lines, flow, t);
    }
  }

  /** Topics are never lost, and every requested topic of a run is there at its end. */
  lemma TopicsOnlyGrow(content: string, rs: seq<Resource>, flow: string, r: Resource)
    requires Sound(Split(content, '\n')) && GoodResources(rs) && GoodFlow(flow) && r in rs
    ensures TopicSet(Split(content, '\n'), flow) <= TopicSet(Split(Run(content, rs), '\n'), flow)
    ensures Asks(r, Split(content, '\n'), flow) <= TopicSet(Split(Run(content, rs), '\n'), flow)
  {
    RunJoinsTopics(content, rs, flow);
    forall t | t in Asks(r, Split(content, '\n'), flow) ensures t in AskedBy(rs, Split(content, '\n'), flow) {
      AskedByMember(rs, Split(content, '\n'), flow, t);
    }
  }
}
