/** What whole reconciles, and any run of them, make of the transformation lines and names of each owner. */
module OwnerRuns {
  import opened Options
  import opened Text
  import opened Lines
  import opened Properties
  import opened TopicMerge
  import opened TopicRuns
  import opened TopicJoin
  import opened Transformation
  import opened TransformationLaws
  import opened OwnerLaws
  import opened SwitchLaws

  // ----- what an update writes for its owner -----

  lemma ListLineIsNotOwn(d: Definition, k: Kind, names: seq<string>, line: string)
    requires IsOwn(d, line)
    ensures line !in ListLines(d.flow, k, names)
  {
    OwnIsDropped(d, line);
  }

  /** An update leaves exactly the owner's lines it was asked for, or none without an enabled line. */
  lemma UpdateWritesLines(d: Definition, lines: seq<string>, line: string)
    requires WellFormed(d) && IsOwn(d, line)
    ensures multiset(Update(d, lines))[line] == if Enableds(d.flow, lines) != [] then multiset(d.config)[line] else 0
  {
    UpdateBag(d, lines);
    OwnIsDropped(d, line);
    SelectCount(lines, KeptBy(d), line);
    ListLineIsNotOwn(d, Transforms, AllNames(d, Transforms, lines), line);
    ListLineIsNotOwn(d, Predicates, AllNames(d, Predicates, lines), line);
  }

  lemma CleanSorted(names: seq<string>)
    requires AllClean(names)
    ensures multiset(Gather(Sort(names), Reader())) == multiset(names)
  {
    SortPermutes(names);
    GatherPermutes(Sort(names), names, Reader());
    ReadClean(names);
  }

  /** An update lists exactly the owner's names it was asked for, or none without an enabled line. */
  lemma UpdateListsNames(d: Definition, k: Kind, lines: seq<string>, n: string)
    requires WellFormed(d) && AllClean(d.Names(k)) && d.prefix <= n
    ensures multiset(Listed(d.flow, k, Update(d, lines)))[n]
      == if Enableds(d.flow, lines) != [] then multiset(d.Names(k))[n] else 0
  {
    ListedAfterUpdate(d, k, lines);
    ExtraIsClean(d, k, lines);
    CleanSorted(AllNames(d, k, lines));
    assert n !in Extra(d, k, lines);
  }

  /** How updates treat a line of a flow: the flow's own sets its count, those of other flows leave it. */
  ghost predicate SetsCount(d: Definition, flow: string, line: string, count: nat) {
    forall lines: seq<string> :: multiset(Update(d, lines))[line]
      == if d.flow != flow then multiset(lines)[line] else if Enableds(flow, lines) != [] then count else 0
  }

  lemma UpdateSetsCount(d: Definition, e: Definition, prefix: string, line: string)
    requires Tidy(d, d.flow, prefix) && Tidy(e, e.flow, prefix) && IsOwn(e, line)
    requires if d.flow == e.flow then d == e else ApartFlows(d.flow, e.flow)
    ensures SetsCount(d, e.flow, line, multiset(e.config)[line])
  {
    forall lines: seq<string> ensures multiset(Update(d, lines))[line]
      == if d.flow != e.flow then multiset(lines)[line]
         else if Enableds(e.flow, lines) != [] then multiset(e.config)[line] else 0
    {
      if d.flow == e.flow {
        UpdateWritesLines(d, lines, line);
      } else {
        OtherOwnersLinesStay(d, e, lines, line);
      }
    }
  }

  lemma {:induction false} TransformedSetsCount(lines: seq<string>, p: seq<string>, f: string -> Option<Definition>,
                                                prefix: string, flow: string, line: string, count: nat)
    requires Owned(f, prefix) && DotFree(p) && Edits(p, f, flow)
    requires forall x | x in p && f(x).Some? :: SetsCount(f(x).value, flow, line, count)
    ensures multiset(Transformed(lines, p, f))[line] == if Enableds(flow, lines) != [] then count else 0
    decreases |p|
  {
    var seen, last := p[..|p| - 1], p[|p| - 1];
    assert p == seen + [last];
    if f(last).Some? {
      assert Tidy(f(last).value, last, prefix) && SetsCount(f(last).value, flow, line, count);
    }
    if last == flow {
      OwnedKeepsEnableds(lines, seen, f, prefix, flow);
    } else {
      TransformedSetsCount(lines, seen, f, prefix, flow, line, count);
    }
  }

  lemma TransformedWritesLines(lines: seq<string>, p: seq<string>, f: string -> Option<Definition>,
                               prefix: string, flow: string, line: string)
    requires Owned(f, prefix) && DotFree(p) && Edits(p, f, flow) && IsOwn(f(flow).value, line)
    ensures multiset(Transformed(lines, p, f))[line]
      == if Enableds(flow, lines) != [] then multiset(f(flow).value.config)[line] else 0
  {
    var e := f(flow).value;
    assert Tidy(e, flow, prefix);
    forall x | x in p && f(x).Some? ensures SetsCount(f(x).value, flow, line, multiset(e.config)[line]) {
      assert Tidy(f(x).value, x, prefix);
      UpdateSetsCount(f(x).value, e, prefix, line);
    }
    TransformedSetsCount(lines, p, f, prefix, flow, line, multiset(e.config)[line]);
  }

  lemma {:induction false} OwnedKeepsEnableds(lines: seq<string>, p: seq<string>, f: string -> Option<Definition>,
                                              prefix: string, flow: string)
    requires Owned(f, prefix) && DotFree(p) && Lacks(flow, '.')
    ensures Enableds(flow, Transformed(lines, p, f)) == Enableds(flow, lines)
    decreases |p|
  {
    if p != [] {
      var seen, last := p[..|p| - 1], p[|p| - 1];
      OwnedKeepsEnableds(lines, seen, f, prefix, flow);
      if f(last).Some? {
        var d, before := f(last).value, Transformed(lines, seen, f);
        assert Tidy(d, last, prefix);
        if last == flow {
          UpdateKeepsParts(d, before);
        } else {
          OtherFlowsReadTheSame(d, flow, Transforms, before);
        }
      }
    }
  }

  lemma {:induction false} TransformedListsNames(lines: seq<string>, p: seq<string>, f: string -> Option<Definition>,
                                                 prefix: string, flow: string, k: Kind, n: string)
    requires Owned(f, prefix) && DotFree(p) && Edits(p, f, flow) && prefix <= n
    ensures multiset(Listed(flow, k, Transformed(lines, p, f)))[n]
      == if Enableds(flow, lines) != [] then multiset(f(flow).value.Names(k))[n] else 0
    decreases |p|
  {
    var seen, last := p[..|p| - 1], p[|p| - 1];
    var before, d := Transformed(lines, seen, f), f(flow).value;
    assert p == seen + [last];
    assert Tidy(d, flow, prefix);
    OwnedKeepsEnableds(lines, seen, f, prefix, flow);
    if last == flow {
      UpdateListsNames(d, k, before, n);
    } else {
      TransformedListsNames(lines, seen, f, prefix, flow, k, n);
      if f(last).Some? {
        assert Tidy(f(last).value, last, prefix);
        OtherFlowsReadTheSame(f(last).value, flow, k, before);
      }
    }
  }

  lemma {:induction false} UneditedFlowStays(lines: seq<string>, p: seq<string>, f: string -> Option<Definition>,
                                             prefix: string, flow: string, k: Kind)
    requires Owned(f, prefix) && DotFree(p) && Lacks(flow, '.') && !Edits(p, f, flow)
    ensures Select(Transformed(lines, p, f), OfFlowBy(flow)) == Select(lines, OfFlowBy(flow))
    ensures Listed(flow, k, Transformed(lines, p, f)) == Listed(flow, k, lines)
    decreases |p|
  {
    if p != [] {
      var seen, last := p[..|p| - 1], p[|p| - 1];
      assert p == seen + [last];
      UneditedFlowStays(lines, seen, f, prefix, flow, k);
      if f(last).Some? {
        assert Tidy(f(last).value, last, prefix);
        OtherFlowsLinesStay(f(last).value, flow, Transformed(lines, seen, f));
        OtherFlowsReadTheSame(f(last).value, flow, k, Transformed(lines, seen, f));
      }
    }
  }

  // ----- one reconcile -----

  /** The reconcile of the resource updates the transformation lines of the flow. */
  ghost predicate Edited(lines: seq<string>, r: Resource, flow: string)
    requires Readable(lines)
  {
    FlowsIn(r, lines).Some? && Edits(FlowsIn(r, lines).value, r.define, flow)
  }

  lemma GoodFlowsAreDotFree(pairs: seq<string>)
    requires GoodFlows(pairs)
    ensures DotFree(pairs)
  {
  }

  lemma OwnIsMarked(d: Definition, line: string)
    requires IsOwn(d, line)
    ensures MarkedBy(d.flow)(line)
  {
    MarkedOwn(d, line);
  }

  /** Text and resource: readable, with good names, and definitions on behalf of one prefix. */
  ghost predicate Reconcilable(lines: seq<string>, r: Resource, prefix: string) {
    Readable(lines) && GoodNames(lines) && Owned(r.define, prefix)
  }

  lemma CountOfUnedited(lines: seq<string>, p: seq<string>, f: string -> Option<Definition>, prefix: string,
                        flow: string, line: string)
    requires Owned(f, prefix) && DotFree(p) && Lacks(flow, '.') && !Edits(p, f, flow) && OfFlow(flow, line)
    ensures multiset(Transformed(lines, p, f))[line] == multiset(lines)[line]
  {
    UneditedFlowStays(lines, p, f, prefix, flow, Transforms);
    SelectCount(lines, OfFlowBy(flow), line);
    SelectCount(Transformed(lines, p, f), OfFlowBy(flow), line);
  }

  /** A reconcile of the owner leaves exactly the lines it asks for, provided the switch can be found. */
  lemma ReconcileWritesLines(lines: seq<string>, r: Resource, prefix: string, flow: string, line: string)
    requires Reconcilable(lines, r, prefix) && GoodFlow(flow) && IsLineOf(flow, prefix, line)
    ensures multiset(Reconciled(lines, r))[line]
      == if !Edited(lines, r, flow) then multiset(lines)[line]
         else if Switched(lines, flow) then multiset(r.define(flow).value.config)[line] else 0
  {
    if FlowsIn(r, lines).Some? {
      var pairs := FlowsIn(r, lines).value;
      var merged, e := Merged(lines, pairs, r.topics), Definition(flow, prefix, [], [], []);
      FlowsAreGood(r, lines);
      GoodFlowsAreDotFree(pairs);
      if Edited(lines, r, flow) {
        assert Tidy(r.define(flow).value, flow, prefix);
        EnabledAfterMergeExactly(lines, pairs, r.topics, flow);
        TransformedWritesLines(merged, pairs, r.define, prefix, flow, line);
      } else {
        OwnIsMarked(e, line);
        MergeKeepsMarkedLine(lines, pairs, r.topics, flow, line);
        OwnLineOfTheFlow(e, line);
        CountOfUnedited(merged, pairs, r.define, prefix, flow, line);
      }
    }
  }

  /** A reconcile of the owner lists exactly the names it asks for, provided the switch can be found. */
  lemma ReconcileListsNames(lines: seq<string>, r: Resource, prefix: string, flow: string, k: Kind, n: string)
    requires Reconcilable(lines, r, prefix) && GoodFlow(flow) && prefix <= n
    ensures multiset(Listed(flow, k, Reconciled(lines, r)))[n]
      == if !Edited(lines, r, flow) then multiset(Listed(flow, k, lines))[n]
         else if Switched(lines, flow) then multiset(r.define(flow).value.Names(k))[n] else 0
  {
    if FlowsIn(r, lines).Some? {
      var pairs := FlowsIn(r, lines).value;
      var merged := Merged(lines, pairs, r.topics);
      FlowsAreGood(r, lines);
      GoodFlowsAreDotFree(pairs);
      MergeKeepsListed(lines, pairs, r.topics, flow, k);
      if Edited(lines, r, flow) {
        EnabledAfterMergeExactly(lines, pairs, r.topics, flow);
        TransformedListsNames(merged, pairs, r.define, prefix, flow, k, n);
      } else {
        UneditedFlowStays(merged, pairs, r.define, prefix, flow, k);
      }
    }
  }

  /** No line of another owner is lost or repeated, whether or not the switch can be found. */
  lemma ReconcileKeepsLines(lines: seq<string>, r: Resource, prefix: string, flow: string, other: string, line: string)
    requires Reconcilable(lines, r, prefix) && GoodFlow(flow) && Apart(prefix, other) && IsLineOf(flow, other, line)
    ensures multiset(Reconciled(lines, r))[line] == multiset(lines)[line]
  {
    if FlowsIn(r, lines).Some? {
      var pairs, e := FlowsIn(r, lines).value, Definition(flow, other, [], [], []);
      FlowsAreGood(r, lines);
      GoodFlowsAreDotFree(pairs);
      OwnIsMarked(e, line);
      MergeKeepsMarkedLine(lines, pairs, r.topics, flow, line);
      OwnedKeepsLines(Merged(lines, pairs, r.topics), pairs, r.define, prefix, e, line);
    }
  }

  lemma ReconcileKeepsCount(lines: seq<string>, r: Resource, prefix: string, flow: string, k: Kind, n: string)
    requires Reconcilable(lines, r, prefix) && GoodFlow(flow) && !(prefix <= n)
    ensures multiset(Listed(flow, k, Reconciled(lines, r)))[n]
      == if Edited(lines, r, flow) && !Switched(lines, flow) then 0 else multiset(Listed(flow, k, lines))[n]
  {
    if FlowsIn(r, lines).Some? {
      var pairs := FlowsIn(r, lines).value;
      FlowsAreGood(r, lines);
      GoodFlowsAreDotFree(pairs);
      MergeKeepsListed(lines, pairs, r.topics, flow, k);
      if Edited(lines, r, flow) {
        EnabledAfterMergeExactly(lines, pairs, r.topics, flow);
      }
      OwnedKeepsNames(Merged(lines, pairs, r.topics), pairs, r.define, prefix, k, flow, n);
    }
  }

  /**
   A name of another owner stays listed, as often as it was, exactly when the flow is not edited, its switch can be
   found in the stored text, or the name was not listed.
   */
  lemma ReconcileKeepsNamesExactly(lines: seq<string>, r: Resource, prefix: string, flow: string, k: Kind, n: string)
    requires Reconcilable(lines, r, prefix) && GoodFlow(flow) && !(prefix <= n)
    ensures multiset(Listed(flow, k, Reconciled(lines, r)))[n] == multiset(Listed(flow, k, lines))[n]
      <==> !Edited(lines, r, flow) || Switched(lines, flow) || n !in Listed(flow, k, lines)
  {
    ReconcileKeepsCount(lines, r, prefix, flow, k, n);
    assert n in Listed(flow, k, lines) <==> multiset(Listed(flow, k, lines))[n] > 0;
  }

  /** The lines a resource asks for are written exactly when the switch can be found in the stored text. */
  lemma RequestIsWrittenExactly(lines: seq<string>, r: Resource, prefix: string, flow: string)
    requires Reconcilable(lines, r, prefix) && GoodFlow(flow) && Edited(lines, r, flow)
    ensures (forall line | line in r.define(flow).value.config :: line in Reconciled(lines, r))
      <==> Switched(lines, flow)
  {
    var d := r.define(flow).value;
    assert Tidy(d, flow, prefix);
    forall line | line in d.config ensures line in Reconciled(lines, r) <==> Switched(lines, flow) {
      ReconcileWritesLines(lines, r, prefix, flow, line);
      assert line in Reconciled(lines, r) <==> multiset(Reconciled(lines, r))[line] > 0;
    }
    assert d.config[0] in d.config;
  }

  // ----- a switch that is not found -----

  lemma SelectThree(a: string, b: string, c: string, p: string -> bool)
    ensures Select([a, b, c], p) == (if p(a) then [a] else []) + (if p(b) then [b] else []) + (if p(c) then [c] else [])
  {
    assert [a, b, c] == [a, b] + [c] && [a, b] == [a] + [b] && [a] == [] + [a];
    SelectSnoc([a, b], c, p);
    SelectSnoc([a], b, p);
    SelectSnoc([], a, p);
  }

  /** The line is a row of the key. */
  ghost predicate IsRowOf(line: string, key: string) {
    HasEquals(line) && forall q :: HasKey(q, line) <==> q == key
  }

  lemma ThreeRows(a: string, b: string, c: string, ka: string, kb: string, kc: string, q: string)
    requires IsRowOf(a, ka) && IsRowOf(b, kb) && IsRowOf(c, kc) && ka != kb && kb != kc && kc != ka
    requires q != ka && q != kb && q != kc
    ensures var lines := [a, b, c];
      && Readable(lines) && Lookup(lines, ka) == Some(ValueOf(RawOf(a))) && Lookup(lines, kb) == Some(ValueOf(RawOf(b)))
      && Lookup(lines, q) == None
  {
    SelectThree(a, b, c, RowOf(ka));
    SelectThree(a, b, c, RowOf(kb));
    SelectThree(a, b, c, RowOf(q));
  }

  /** A text with two clusters, a switch written without blanks and a list with the name of somebody. */
  function TightText(s: string, t: string, name: string): seq<string> {
    [Row("clusters", Join([s, t], ',')), EnabledKey(FlowName(s, t)) + ['='] + "true",
     Row(Mark(FlowName(s, t), Transforms), name)]
  }

  lemma TightSwitchReads(flow: string)
    requires GoodFlow(flow)
    ensures var row := EnabledKey(flow) + ['='] + "true";
      IsRowOf(row, EnabledKey(flow)) && ValueOf(RawOf(row)) == One("true")
  {
    var row, key := EnabledKey(flow) + ['='] + "true", EnabledKey(flow);
    KeysAreGood(flow);
    assert row[0] == key[0];
    SplitHead(key, '=', "true");
    SplitNone("true", '=');
    SplitNone("true", ',');
    TrimTight(key, SPACE);
    TrimTight("true", SPACE);
  }

  lemma ClustersRowReads(s: string, t: string)
    requires GoodFlow(s) && GoodFlow(t) && Lacks(s, ',') && Lacks(t, ',')
    ensures var row := Row("clusters", Join([s, t], ','));
      IsRowOf(row, "clusters") && AsItems(ValueOf(RawOf(row))) == [s, t]
  {
    var text := Join([s, t], ',');
    assert CleanItems([s, t]);
    JoinLacks([s, t], ',', '=');
    RowReadsBack("clusters", text);
    JoinedItems([s, t]);
    ValueItems([' '] + text);
  }

  lemma ListRowReads(flow: string, name: string)
    requires GoodFlow(flow) && CleanName(name)
    ensures var row := Row(Mark(flow, Transforms), name);
      IsRowOf(row, Mark(flow, Transforms)) && NamesIn(flow, Transforms, row) == [name]
  {
    MarksAreGood(flow);
    RowReadsBack(Mark(flow, Transforms), name);
    ListLineIsRow(flow, Transforms, name);
    var row := Row(Mark(flow, Transforms), name);
    assert row[|flow + ListMark(Transforms)|..] == name;
    SplitNone(name, ',');
    TrimTight(name, WHITE);
    assert TrimAll([name]) == [Trim(name, WHITE)];
  }

  lemma TightKeysDiffer(flow: string)
    requires GoodFlow(flow)
    ensures EnabledKey(flow) != "clusters" && Mark(flow, Transforms) != "clusters"
    ensures EnabledKey(flow) != "target.dc" && Mark(flow, Transforms) != "target.dc" && "clusters" != "target.dc"
    ensures EnabledKey(flow) != Mark(flow, Transforms)
  {
    GeneralKeysAreOfNoFlow();
    assert Untouched("clusters", flow) && Untouched("target.dc", flow);
    TopicsAreUntouched(flow, flow);
  }

  lemma TightTextReads(s: string, t: string, name: string)
    requires GoodFlow(s) && GoodFlow(t) && Lacks(s, ',') && Lacks(t, ',') && CleanName(name)
    ensures var lines, flow := TightText(s, t, name), FlowName(s, t);
      && Readable(lines) && Items(lines, "clusters") == [s, t] && Lookup(lines, "target.dc") == None
      && Lookup(lines, EnabledKey(flow)) == Some(One("true"))
  {
    var lines, flow := TightText(s, t, name), FlowName(s, t);
    FlowNameIsGood(s, t);
    TightSwitchReads(flow);
    ClustersRowReads(s, t);
    ListRowReads(flow, name);
    TightKeysDiffer(flow);
    ThreeRows(lines[0], lines[1], lines[2], "clusters", EnabledKey(flow), Mark(flow, Transforms), "target.dc");
  }

  lemma TightTextLists(s: string, t: string, name: string)
    requires GoodFlow(s) && GoodFlow(t) && Lacks(s, ',') && Lacks(t, ',') && CleanName(name)
    ensures Listed(FlowName(s, t), Transforms, TightText(s, t, name)) == [name]
  {
    var lines, flow := TightText(s, t, name), FlowName(s, t);
    FlowNameIsGood(s, t);
    ListRowReads(flow, name);
    TightIsUnmarked(s, t, lines[0], "clusters");
    TightIsUnmarked(s, t, lines[1], EnabledKey(flow));
    assert lines == [lines[0]] + [lines[1]] + [lines[2]];
    GatherConcat([lines[0]] + [lines[1]], [lines[2]], NamesBy(flow, Transforms));
    GatherConcat([lines[0]], [lines[1]], NamesBy(flow, Transforms));
    GatherOne(lines[0], NamesBy(flow, Transforms));
    GatherOne(lines[1], NamesBy(flow, Transforms));
    GatherOne(lines[2], NamesBy(flow, Transforms));
  }

  lemma TightIsUnmarked(s: string, t: string, line: string, key: string)
    requires GoodFlow(s) && GoodFlow(t) && Lacks(s, ',') && Lacks(t, ',')
    requires var flow := FlowName(s, t);
      || (key == "clusters" && line == Row("clusters", Join([s, t], ',')))
      || (key == EnabledKey(flow) && line == EnabledKey(flow) + ['='] + "true")
    ensures NamesIn(FlowName(s, t), Transforms, line) == []
  {
    var flow := FlowName(s, t);
    FlowNameIsGood(s, t);
    TightSwitchReads(flow);
    ClustersRowReads(s, t);
    GeneralKeysAreOfNoFlow();
    TopicsAreUntouched(flow, flow);
    MarksAreGood(flow);
    MarkedListOf(flow, Transforms, line);
    if Mark(flow, Transforms) <= line {
      RowStart(key, line, Mark(flow, Transforms));
    }
  }

  lemma TightTextHasNoSwitchRow(s: string, t: string, name: string)
    requires GoodFlow(s) && GoodFlow(t) && Lacks(s, ',') && Lacks(t, ',') && CleanName(name)
    ensures SwitchRow(FlowName(s, t)) !in TightText(s, t, name)
  {
    var lines, flow := TightText(s, t, name), FlowName(s, t);
    FlowNameIsGood(s, t);
    KeysAreGood(flow);
    RowReadsBack(EnabledKey(flow), "true");
    ClustersRowReads(s, t);
    ListRowReads(flow, name);
    TightKeysDiffer(flow);
    assert lines[1][|EnabledKey(flow)|] == '=' && SwitchRow(flow)[|EnabledKey(flow)|] == ' ';
  }

  lemma SetIsNotSwitched(lines: seq<string>, flow: string)
    requires Readable(lines) && Lookup(lines, EnabledKey(flow)) == Some(One("true")) && SwitchRow(flow) !in lines
    ensures !Switched(lines, flow)
  {
    assert "true"[0] == 't' && "false"[0] == 'f';
  }

  lemma NamedPair(r: Resource, s: string, t: string)
    requires GoodFlow(s) && GoodFlow(t) && s != t && Lacks(s, ',') && Lacks(t, ',')
    requires r.sourceDc == s && r.targetDc == t
    ensures Recognized(r, [s, t], None) == Some(([t], [s]))
  {
    NamedAlone(s);
    NamedAlone(t);
  }

  lemma OnePair(s: string, t: string)
    requires s != t
    ensures DcPairs([s], [t]) == [FlowName(s, t)]
  {
    assert [s][..0] == [] && [t][..0] == [];
    assert FlowsFrom(s, [t]) == [FlowName(s, t)];
  }

  lemma TightFlows(s: string, t: string, name: string, r: Resource)
    requires GoodFlow(s) && GoodFlow(t) && s != t && Lacks(s, ',') && Lacks(t, ',') && CleanName(name)
    requires r.sourceDc == s && r.targetDc == t
    ensures Readable(TightText(s, t, name)) && FlowsIn(r, TightText(s, t, name)) == Some([FlowName(s, t)])
  {
    TightTextReads(s, t, name);
    NamedPair(r, s, t);
    OnePair(s, t);
  }

  lemma NamedAlone(name: string)
    requires GoodFlow(name) && Lacks(name, ',')
    ensures ItemsIn(name) == [name]
  {
    SplitNone(name, ',');
    TrimTight(name, SPACE);
    TrimEachOne(name);
  }

  lemma UnfoundSwitchLosesNames(lines: seq<string>, flow: string, name: string, r: Resource, prefix: string)
    requires Reconcilable(lines, r, prefix) && GoodFlow(flow) && Edited(lines, r, flow) && !Switched(lines, flow)
    requires !(prefix <= name)
    ensures name !in Listed(flow, Transforms, Reconciled(lines, r))
    ensures forall line | line in r.define(flow).value.config :: line !in Reconciled(lines, r)
  {
    ReconcileKeepsCount(lines, r, prefix, flow, Transforms, name);
    assert Tidy(r.define(flow).value, flow, prefix);
    forall line | line in r.define(flow).value.config ensures line !in Reconciled(lines, r) {
      ReconcileWritesLines(lines, r, prefix, flow, line);
    }
  }

  /** The resource replicates between the clusters of the text, with transformations. */
  ghost predicate Replicates(r: Resource, s: string, t: string, prefix: string) {
    r.sourceDc == s && r.targetDc == t && Owned(r.define, prefix) && r.define(FlowName(s, t)).Some?
  }

  lemma TightIsReconcilable(s: string, t: string, name: string, r: Resource, prefix: string)
    requires GoodFlow(s) && GoodFlow(t) && Lacks(s, ',') && Lacks(t, ',') && CleanName(name)
    requires Owned(r.define, prefix)
    ensures Reconcilable(TightText(s, t, name), r, prefix)
  {
    TightTextReads(s, t, name);
  }

  lemma TightIsUnfound(s: string, t: string, name: string, r: Resource, prefix: string)
    requires GoodFlow(s) && GoodFlow(t) && s != t && Lacks(s, ',') && Lacks(t, ',') && CleanName(name)
    requires Replicates(r, s, t, prefix)
    ensures var lines, flow := TightText(s, t, name), FlowName(s, t);
      Readable(lines) && Edited(lines, r, flow) && !Switched(lines, flow)
  {
    TightTextReads(s, t, name);
    TightTextHasNoSwitchRow(s, t, name);
    SetIsNotSwitched(TightText(s, t, name), FlowName(s, t));
    TightFlows(s, t, name, r);
  }

  /**
   A stored switch without blanks around its equals sign is not found: the reconcile drops the names of everybody
   from the lists and writes nothing of what was asked for.
   */
  lemma TightSwitchLosesNames(s: string, t: string, name: string, r: Resource, prefix: string)
    requires GoodFlow(s) && GoodFlow(t) && s != t && Lacks(s, ',') && Lacks(t, ',') && CleanName(name)
    requires Replicates(r, s, t, prefix) && !(prefix <= name)
    ensures var lines, flow := TightText(s, t, name), FlowName(s, t);
      && Reconcilable(lines, r, prefix) && name in Listed(flow, Transforms, lines)
      && name !in Listed(flow, Transforms, Reconciled(lines, r))
      && forall line | line in r.define(flow).value.config :: line !in Reconciled(lines, r)
  {
    var lines, flow := TightText(s, t, name), FlowName(s, t);
    TightIsReconcilable(s, t, name, r, prefix);
    TightIsUnfound(s, t, name, r, prefix);
    TightTextLists(s, t, name);
    FlowNameIsGood(s, t);
    UnfoundSwitchLosesNames(lines, flow, name, r, prefix);
  }

  // ----- runs -----

  lemma GoodResourceUpdates(r: Resource, pairs: seq<string>)
    requires GoodResource(r) && GoodFlows(pairs)
    ensures FlowUpdates(pairs, r.define)
  {
  }

  /** Whether the switch of a flow can be found never changes. */
  lemma ReconcileKeepsSwitch(lines: seq<string>, r: Resource, flow: string)
    requires Sound(lines) && GoodResource(r) && GoodFlow(flow)
    ensures Readable(Reconciled(lines, r))
    ensures Switched(Reconciled(lines, r), flow) <==> Switched(lines, flow)
  {
    ReconciledIsClean(lines, r);
    if FlowsIn(r, lines).Some? {
      var pairs := FlowsIn(r, lines).value;
      var merged := Merged(lines, pairs, r.topics);
      FlowsAreGood(r, lines);
      GoodResourceUpdates(r, pairs);
      if flow in pairs && Switched(lines, flow) {
        SwitchAppears(lines, pairs, r.topics, flow);
        TransformedKeepsEnableds(merged, pairs, r.define, flow);
        SwitchRowIs(flow, merged);
        SwitchRowIs(flow, Reconciled(lines, r));
      } else {
        if flow in pairs {
          EnabledAfterMergeExactly(lines, pairs, r.topics, flow);
          QuietMergeKeepsSwitch(lines, pairs, r.topics, flow);
        } else {
          MergeOfOthersKeepsSwitch(lines, pairs, r.topics, flow);
        }
        TransformedKeepsSwitch(merged, pairs, r.define, flow);
        SwitchLinesDecide(lines, Reconciled(lines, r), flow);
      }
    }
  }

  lemma {:induction false} RunKeepsSwitch(content: string, rs: seq<Resource>, flow: string)
    requires Sound(Split(content, '\n')) && GoodResources(rs) && GoodFlow(flow)
    ensures Switched(Split(Run(content, rs), '\n'), flow) <==> Switched(Split(content, '\n'), flow)
    decreases |rs|
  {
    if rs != [] {
      var seen, last := rs[..|rs| - 1], rs[|rs| - 1];
      var before := Split(Run(content, seen), '\n');
      RunKeepsSwitch(content, seen, flow);
      ReconciledReadsBack(before, last);
      ReconcileKeepsSwitch(before, last, flow);
    }
  }

  /** A resource with the prefix of its owner. */
  datatype Claim = Claim(resource: Resource, prefix: string)

  ghost function Resources(cs: seq<Claim>): seq<Resource> {
    seq(|cs|, i requires 0 <= i < |cs| => cs[i].resource)
  }

  /** Good resources, each on behalf of an owner that is the one with prefix `q` or apart from it. */
  ghost predicate GoodClaims(cs: seq<Claim>, q: string) {
    forall i | 0 <= i < |cs| ::
      && GoodResource(cs[i].resource) && Owned(cs[i].resource.define, cs[i].prefix)
      && (cs[i].prefix == q || Apart(cs[i].prefix, q))
  }

  /** What the owner asked for last on the flow; flows are read from the first text. */
  ghost function Wanted(cs: seq<Claim>, lines: seq<string>, q: string, flow: string): Option<Definition>
    requires Readable(lines)
    decreases |cs|
  {
    if cs == [] then None
    else
      var seen, c := Wanted(cs[..|cs| - 1], lines, q, flow), cs[|cs| - 1];
      if Asks(lines, c, q, flow) then c.resource.define(flow) else seen
  }

  /** Some claim updates the flow. */
  ghost predicate AnyEdited(cs: seq<Claim>, lines: seq<string>, flow: string)
    requires Readable(lines)
    decreases |cs|
  {
    cs != [] && (AnyEdited(cs[..|cs| - 1], lines, flow) || Edited(lines, cs[|cs| - 1].resource, flow))
  }

  lemma ClaimsBefore(cs: seq<Claim>, q: string)
    requires cs != [] && GoodClaims(cs, q)
    ensures var seen, last := cs[..|cs| - 1], cs[|cs| - 1];
      && GoodClaims(seen, q) && GoodResources(Resources(cs)) && GoodResources(Resources(seen))
      && GoodResource(last.resource) && Owned(last.resource.define, last.prefix)
      && (last.prefix == q || Apart(last.prefix, q))
      && Resources(cs)[..|cs| - 1] == Resources(seen) && Resources(cs)[|cs| - 1] == last.resource
  {
  }

  lemma GoodClaimsAreGood(cs: seq<Claim>, q: string)
    requires GoodClaims(cs, q)
    ensures GoodResources(Resources(cs))
  {
  }

  /** A reconcile leads from a text to the next one, and both tell of the flow what the first text tells. */
  ghost predicate Follows(lines: seq<string>, before: seq<string>, now: seq<string>, r: Resource, flow: string) {
    && Readable(lines) && Readable(before) && GoodNames(before) && now == Reconciled(before, r)
    && (Edited(before, r, flow) <==> Edited(lines, r, flow)) && (Switched(before, flow) <==> Switched(lines, flow))
  }

  /** The last step of a run, in terms of the first text. */
  lemma LastStep(content: string, rs: seq<Resource>, flow: string)
    requires Sound(Split(content, '\n')) && GoodResources(rs) && rs != [] && GoodFlow(flow)
    ensures Follows(Split(content, '\n'), Split(Run(content, rs[..|rs| - 1]), '\n'), Split(Run(content, rs), '\n'),
                    rs[|rs| - 1], flow)
  {
    var seen, last := rs[..|rs| - 1], rs[|rs| - 1];
    ReconciledReadsBack(Split(Run(content, seen), '\n'), last);
    RunKeepsFlows(content, seen, last);
    RunKeepsSwitch(content, seen, flow);
  }

  /** How often a line of the owner is there after it was asked for last, or from the start. */
  ghost function LineCount(wanted: Option<Definition>, switched: bool, line: string, was: nat): nat {
    if wanted.None? then was else if switched then multiset(wanted.value.config)[line] else 0
  }

  /** The claim is the owner's and updates the flow. */
  ghost predicate Asks(lines: seq<string>, c: Claim, q: string, flow: string)
    requires Readable(lines)
  {
    c.prefix == q && Edited(lines, c.resource, flow)
  }

  lemma ClaimWritesLines(lines: seq<string>, before: seq<string>, now: seq<string>, c: Claim, q: string, flow: string,
                         line: string, wanted: Option<Definition>, was: nat)
    requires Follows(lines, before, now, c.resource, flow) && Owned(c.resource.define, c.prefix) && GoodFlow(flow)
    requires IsLineOf(flow, q, line) && (c.prefix == q || Apart(c.prefix, q))
    requires multiset(before)[line] == LineCount(wanted, Switched(lines, flow), line, was)
    ensures multiset(now)[line] == LineCount(if Asks(lines, c, q, flow) then c.resource.define(flow) else wanted,
                                             Switched(lines, flow), line, was)
  {
    if c.prefix == q {
      ReconcileWritesLines(before, c.resource, q, flow, line);
    } else {
      ReconcileKeepsLines(before, c.resource, c.prefix, flow, q, line);
    }
  }

  /**
   After any run the lines of every owner on every flow are those of its last request there, if the switch of the
   flow can be found, and none if it cannot; without a request they are those of the first text.
   */
  lemma {:induction false} RunWritesLines(content: string, cs: seq<Claim>, q: string, flow: string, line: string)
    requires Sound(Split(content, '\n')) && GoodClaims(cs, q) && GoodFlow(flow) && IsLineOf(flow, q, line)
    ensures GoodResources(Resources(cs))
    ensures var lines := Split(content, '\n');
      multiset(Split(Run(content, Resources(cs)), '\n'))[line]
      == LineCount(Wanted(cs, lines, q, flow), Switched(lines, flow), line, multiset(lines)[line])
    decreases |cs|
  {
    GoodClaimsAreGood(cs, q);
    if cs != [] {
      var seen, lines := cs[..|cs| - 1], Split(content, '\n');
      ClaimsBefore(cs, q);
      RunWritesLines(content, seen, q, flow, line);
      LastStep(content, Resources(cs), flow);
      ClaimWritesLines(lines, Split(Run(content, Resources(seen)), '\n'), Split(Run(content, Resources(cs)), '\n'),
                       cs[|cs| - 1], q, flow, line, Wanted(seen, lines, q, flow), multiset(lines)[line]);
    }
  }

  ghost function NameCount(wanted: Option<Definition>, k: Kind, n: string, was: nat): nat {
    if wanted.None? then was else multiset(wanted.value.Names(k))[n]
  }

  /** How often a name of the owner is listed: by its last request, or, with no switch found, until anybody asks. */
  ghost function ListedCount(wanted: Option<Definition>, switched: bool, edited: bool, k: Kind, n: string,
                             was: nat): nat {
    if switched then NameCount(wanted, k, n, was) else if edited then 0 else was
  }

  lemma ClaimListsNames(lines: seq<string>, before: seq<string>, now: seq<string>, c: Claim, q: string, flow: string,
                        k: Kind, n: string, wanted: Option<Definition>, edited: bool, was: nat)
    requires Follows(lines, before, now, c.resource, flow) && Owned(c.resource.define, c.prefix) && GoodFlow(flow)
    requires q <= n && (c.prefix == q || Apart(c.prefix, q))
    requires multiset(Listed(flow, k, before))[n] == ListedCount(wanted, Switched(lines, flow), edited, k, n, was)
    ensures multiset(Listed(flow, k, now))[n]
      == ListedCount(if Asks(lines, c, q, flow) then c.resource.define(flow) else wanted, Switched(lines, flow),
                     edited || Edited(lines, c.resource, flow), k, n, was)
  {
    if c.prefix == q {
      ReconcileListsNames(before, c.resource, q, flow, k, n);
    } else {
      ApartFromExtensions(q, c.prefix, n);
      ReconcileKeepsCount(before, c.resource, c.prefix, flow, k, n);
    }
  }

  /**
   After any run the listed names of every owner on a flow whose switch can be found are those of its last request
   there; where it cannot be found, the first request of anybody empties the lists.
   */
  lemma {:induction false} RunListsNames(content: string, cs: seq<Claim>, q: string, flow: string, k: Kind, n: string)
    requires Sound(Split(content, '\n')) && GoodClaims(cs, q) && GoodFlow(flow) && q <= n
    ensures GoodResources(Resources(cs))
    ensures var lines := Split(content, '\n');
      multiset(Listed(flow, k, Split(Run(content, Resources(cs)), '\n')))[n]
      == ListedCount(Wanted(cs, lines, q, flow), Switched(lines, flow), AnyEdited(cs, lines, flow), k, n,
                     multiset(Listed(flow, k, lines))[n])
    decreases |cs|
  {
    GoodClaimsAreGood(cs, q);
    if cs != [] {
      var seen, lines := cs[..|cs| - 1], Split(content, '\n');
      ClaimsBefore(cs, q);
      RunListsNames(content, seen, q, flow, k, n);
      LastStep(content, Resources(cs), flow);
      ClaimListsNames(lines, Split(Run(content, Resources(seen)), '\n'), Split(Run(content, Resources(cs)), '\n'),
                      cs[|cs| - 1], q, flow, k, n, Wanted(seen, lines, q, flow), AnyEdited(seen, lines, flow),
                      multiset(Listed(flow, k, lines))[n]);
    }
  }

  // ----- owners -----

  /** A custom resource of an owner. */
  datatype Custom = Custom(owner: Owner, topics: string, targetDc: string, sourceDc: string)

  ghost function ClaimOf(c: Custom): Claim {
    Claim(Resource(c.topics, c.targetDc, c.sourceDc, DefinitionsBy(c.owner)), Prefix(c.owner))
  }

  ghost function ClaimsOf(cs: seq<Custom>): seq<Claim> {
    seq(|cs|, i requires 0 <= i < |cs| => ClaimOf(cs[i]))
  }

  ghost predicate GoodCustoms(cs: seq<Custom>) {
    forall i | 0 <= i < |cs| :: GoodOwner(cs[i].owner) && GoodResource(ClaimOf(cs[i]).resource)
  }

  lemma CustomsAreGoodClaims(cs: seq<Custom>, o: Owner)
    requires GoodCustoms(cs) && GoodOwner(o)
    ensures GoodClaims(ClaimsOf(cs), Prefix(o))
  {
    forall i | 0 <= i < |cs|
      ensures Owned(ClaimOf(cs[i]).resource.define, Prefix(cs[i].owner))
      ensures Prefix(cs[i].owner) == Prefix(o) || Apart(Prefix(cs[i].owner), Prefix(o))
    {
      OwnersAreOwned(cs[i].owner);
      OwnersAreApart(cs[i].owner.name, cs[i].owner.namespace, o.name, o.namespace);
    }
  }

  /**
   Whatever custom resources are reconciled, in whatever order and however often, the transformation lines and
   names of an owner on a flow whose switch can be found are those of its last request there.
   */
  lemma RunIsAsRequested(content: string, cs: seq<Custom>, o: Owner, flow: string, line: string, k: Kind, n: string)
    requires Sound(Split(content, '\n')) && GoodCustoms(cs) && GoodOwner(o) && GoodFlow(flow)
    requires IsLineOf(flow, Prefix(o), line) && Prefix(o) <= n && Switched(Split(content, '\n'), flow)
    ensures GoodResources(Resources(ClaimsOf(cs)))
    ensures var lines, now := Split(content, '\n'), Split(Run(content, Resources(ClaimsOf(cs))), '\n');
      var wanted := Wanted(ClaimsOf(cs), lines, Prefix(o), flow);
      && multiset(now)[line] == LineCount(wanted, true, line, multiset(lines)[line])
      && multiset(Listed(flow, k, now))[n] == NameCount(wanted, k, n, multiset(Listed(flow, k, lines))[n])
  {
    CustomsAreGoodClaims(cs, o);
    RunWritesLines(content, ClaimsOf(cs), Prefix(o), flow, line);
    RunListsNames(content, ClaimsOf(cs), Prefix(o), flow, k, n);
  }
}
