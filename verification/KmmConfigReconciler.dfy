/** The code that merges a resource's topics into the stored properties text. */
module KmmConfigReconciler {
  import opened Options
  import opened Text
  import opened Lines
  import opened Slices
  import opened Properties
  import opened TopicMerge
  import opened TopicRuns
  import opened TopicJoin
  import opened Transformation
  import Configurator = TransformationConfigurator

  // ----- targets and sources -----

  /** What is reported about a resource that cannot be reconciled. */
  datatype Complaint = NoTarget | UnknownTarget(name: string) | UnknownSource(name: string)

  /** The name is unknown, and those in front of it are not. */
  ghost predicate FirstUnknown(names: seq<string>, known: seq<string>, name: string) {
    exists i | 0 <= i < |names| :: names[i] == name && name !in known && AllIn(names[..i], known)
  }

  /** Looks for the first unknown name. */
  method FindUnknown(names: seq<string>, known: seq<string>) returns (unknown: Option<string>)
    ensures unknown.None? <==> AllIn(names, known)
    ensures unknown.Some? ==> FirstUnknown(names, known, unknown.value)
  {
    for i := 0 to |names|
      invariant AllIn(names[..i], known)
    {
      if names[i] !in known {
        return Some(names[i]);
      }
    }
    return None;
  }

  /** The clusters that are no targets, in order. */
  method OtherClusters(clusters: seq<string>, targets: seq<string>) returns (sources: seq<string>)
    ensures sources == Select(clusters, NotIn(targets))
  {
    sources := [];
    for i := 0 to |clusters|
      invariant sources == Select(clusters[..i], NotIn(targets))
    {
      assert clusters[..i + 1] == clusters[..i] + [clusters[i]];
      SelectSnoc(clusters[..i], clusters[i], NotIn(targets));
      if clusters[i] !in targets {
        sources := sources + [clusters[i]];
      }
    }
    assert clusters[..|clusters|] == clusters;
  }

  /** The complaint names what is wrong: targets are looked at before sources, and names in their order. */
  ghost predicate Justified(c: Complaint, r: Resource, clusters: seq<string>, inText: Option<seq<string>>) {
    match c
    case NoTarget => r.targetDc == "" && inText.None?
    case UnknownTarget(name) =>
      r.targetDc != "" && FirstUnknown(ItemsIn(r.targetDc), if inText.Some? then inText.value else clusters, name)
    case UnknownSource(name) =>
      && Targets(r.targetDc, clusters, inText).Some?
      && r.sourceDc != "" && FirstUnknown(ItemsIn(r.sourceDc), clusters, name)
  }

  lemma FirstUnknownIsOne(names: seq<string>, known: seq<string>, name: string, other: string)
    requires FirstUnknown(names, known, name) && FirstUnknown(names, known, other)
    ensures name == other && !AllIn(names, known)
  {
    var i :| 0 <= i < |names| && names[i] == name && name !in known && AllIn(names[..i], known);
    var j :| 0 <= j < |names| && names[j] == other && other !in known && AllIn(names[..j], known);
    KnownInFront(names, known, i);
    KnownInFront(names, known, j);
  }

  lemma KnownInFront(names: seq<string>, known: seq<string>, i: nat)
    requires i <= |names| && AllIn(names[..i], known)
    ensures forall k | 0 <= k < i :: names[k] in known
  {
    forall k | 0 <= k < i ensures names[k] in known {
      assert names[..i][k] in names[..i];
    }
  }

  /** What is reported is determined: at most one complaint is justified, and none about an accepted resource. */
  lemma ComplaintIsDetermined(c: Complaint, d: Complaint, r: Resource, clusters: seq<string>,
                              inText: Option<seq<string>>)
    requires Justified(c, r, clusters, inText) && Justified(d, r, clusters, inText)
    ensures c == d && Recognized(r, clusters, inText) == None
  {
    var known := if inText.Some? then inText.value else clusters;
    if c.UnknownTarget? {
      FirstUnknownIsOne(ItemsIn(r.targetDc), known, c.name, if d.UnknownTarget? then d.name else c.name);
    } else if c.UnknownSource? {
      FirstUnknownIsOne(ItemsIn(r.sourceDc), clusters, c.name, if d.UnknownSource? then d.name else c.name);
      if d.UnknownTarget? {
        FirstUnknownIsOne(ItemsIn(r.targetDc), known, d.name, d.name);
      }
    }
  }

  /** Resolves targets and sources of a resource, or reports a configuration error. */
  method RecognizeTargetAndSourceDc(targetDc: string, sourceDc: string, clusters: seq<string>,
                                    inText: Option<seq<string>>, ghost r: Resource)
    returns (found: Option<(seq<string>, seq<string>)>, complaint: Option<Complaint>)
    requires targetDc == r.targetDc && sourceDc == r.sourceDc
    ensures found == Recognized(r, clusters, inText)
    ensures complaint.None? <==> found.Some?
    ensures complaint.Some? ==> Justified(complaint.value, r, clusters, inText)
  {
    var targets;
    if targetDc != "" {
      targets := ItemsIn(targetDc);
      var unknown := FindUnknown(targets, if inText.Some? then inText.value else clusters);
      if unknown.Some? {
        return None, Some(UnknownTarget(unknown.value));
      }
    } else if inText.Some? {
      targets := inText.value;
    } else {
      return None, Some(NoTarget);
    }
    if sourceDc != "" {
      var unknown := FindUnknown(ItemsIn(sourceDc), clusters);
      if unknown.Some? {
        return None, Some(UnknownSource(unknown.value));
      }
      return Some((targets, ItemsIn(sourceDc))), None;
    }
    var sources := OtherClusters(clusters, targets);
    return Some((targets, sources)), None;
  }

  lemma FlowsFromSnoc(source: string, targets: seq<string>, n: nat)
    requires n < |targets|
    ensures FlowsFrom(source, targets[..n + 1])
      == if source == targets[n] then FlowsFrom(source, targets[..n])
         else FlowsFrom(source, targets[..n]) + [FlowName(source, targets[n])]
  {
    assert targets[..n + 1][..n] == targets[..n];
  }

  lemma DcPairsSnoc(sources: seq<string>, targets: seq<string>, n: nat)
    requires n < |sources|
    ensures DcPairs(sources[..n + 1], targets) == DcPairs(sources[..n], targets) + FlowsFrom(sources[n], targets)
  {
    assert sources[..n + 1][..n] == sources[..n];
  }

  /** Every source with every other target. */
  method GetDcPairs(targets: seq<string>, sources: seq<string>) returns (pairs: seq<string>)
    ensures pairs == DcPairs(sources, targets)
  {
    pairs := [];
    for i := 0 to |sources|
      invariant pairs == DcPairs(sources[..i], targets)
    {
      ghost var before := pairs;
      for j := 0 to |targets|
        invariant pairs == before + FlowsFrom(sources[i], targets[..j])
      {
        FlowsFromSnoc(sources[i], targets, j);
        if sources[i] != targets[j] {
          pairs := pairs + [FlowName(sources[i], targets[j])];
        }
      }
      assert targets[..|targets|] == targets;
      DcPairsSnoc(sources, targets, i);
    }
    assert sources[..|sources|] == sources;
  }

  // ----- what has to change -----

  /** Old topics first, then the new ones that are not among the old. */
  method MergeTopics(oldTopics: seq<string>, newTopics: seq<string>) returns (text: string)
    ensures text == Join(Merge(oldTopics, newTopics), ',')
  {
    var topics := oldTopics;
    for i := 0 to |newTopics|
      invariant topics == oldTopics + Select(newTopics[..i], NotIn(oldTopics))
    {
      assert newTopics[..i + 1] == newTopics[..i] + [newTopics[i]];
      SelectSnoc(newTopics[..i], newTopics[i], NotIn(oldTopics));
      if newTopics[i] !in oldTopics {
        topics := topics + [newTopics[i]];
      }
    }
    assert newTopics[..|newTopics|] == newTopics;
    text := Join(topics, ',');
  }

  /** The rows that switch a flow on. */
  function TurnOnKeys(lines: seq<string>, pairs: seq<string>): seq<string>
    requires Readable(lines)
    decreases |pairs|
  {
    if pairs == [] then []
    else
      var seen, flow := TurnOnKeys(lines, pairs[..|pairs| - 1]), pairs[|pairs| - 1];
      if TurnsOn(lines, flow) then seen + [EnabledKey(flow)] else seen
  }

  /** The new texts of known topics rows. */
  function TopicUpdates(lines: seq<string>, pairs: seq<string>, topics: string): map<string, string>
    requires Readable(lines)
    decreases |pairs|
  {
    if pairs == [] then map[]
    else
      var seen, flow := TopicUpdates(lines, pairs[..|pairs| - 1], topics), pairs[|pairs| - 1];
      if KnowsTopics(lines, flow) then seen[TopicsKey(flow) := MergedText(lines, flow, topics)] else seen
  }

  /** The properties that were read from `lines`. */
  ghost predicate ReadFrom(props: map<string, Value>, lines: seq<string>)
    requires Readable(lines)
  {
    forall key :: Lookup(lines, key) == if key in props then Some(props[key]) else None
  }

  /** No flow is switched by a list; reading one panics. */
  ghost predicate Switchable(props: map<string, Value>, pairs: seq<string>) {
    forall i | 0 <= i < |pairs| && EnabledKey(pairs[i]) in props :: props[EnabledKey(pairs[i])].One?
  }

  /** What the flows looked at so far need. */
  ghost predicate Planned(lines: seq<string>, pairs: seq<string>, topics: string,
                          turnOn: seq<string>, updates: map<string, string>, added: seq<string>)
    requires Readable(lines)
  {
    && turnOn == TurnOnKeys(lines, pairs) && updates == TopicUpdates(lines, pairs, topics)
    && added == NewLines(lines, pairs, topics)
  }

  lemma PlannedNext(lines: seq<string>, pairs: seq<string>, topics: string, n: nat,
                    turnOn: seq<string>, updates: map<string, string>, added: seq<string>)
    requires Readable(lines) && n < |pairs| && Planned(lines, pairs[..n], topics, turnOn, updates, added)
    ensures var flow := pairs[n];
      Planned(lines, pairs[..n + 1], topics,
              if TurnsOn(lines, flow) then turnOn + [EnabledKey(flow)] else turnOn,
              if KnowsTopics(lines, flow) then updates[TopicsKey(flow) := MergedText(lines, flow, topics)] else updates,
              added + NewRows(lines, flow, topics))
  {
    assert pairs[..n + 1][..n] == pairs[..n];
  }

  /** The rows one flow has not got yet. */
  function NewRows(lines: seq<string>, flow: string, topics: string): seq<string>
    requires Readable(lines)
  {
    (if Lookup(lines, EnabledKey(flow)).None? then [Row(EnabledKey(flow), "true")] else [])
    + (if KnowsTopics(lines, flow) then [] else [Row(TopicsKey(flow), topics)])
  }

  /** What one flow needs: to be switched on, a new topics text, and rows it has not got yet. */
  method PlanFlow(ghost lines: seq<string>, props: map<string, Value>, flow: string, topics: string)
    returns (on: bool, merged: Option<string>, added: seq<string>)
    requires Readable(lines) && ReadFrom(props, lines) && (EnabledKey(flow) in props ==> props[EnabledKey(flow)].One?)
    ensures on == TurnsOn(lines, flow)
    ensures merged == if KnowsTopics(lines, flow) then Some(MergedText(lines, flow, topics)) else None
    ensures added == NewRows(lines, flow, topics)
  {
    var enabled, listed := EnabledKey(flow), TopicsKey(flow);
    on, merged, added := false, None, [];
    assert Lookup(lines, enabled) == if enabled in props then Some(props[enabled]) else None;
    assert Lookup(lines, listed) == if listed in props then Some(props[listed]) else None;
    if enabled in props {
      on := props[enabled].text == "false";
    } else {
      added := [Row(enabled, "true")];
    }
    if listed in props {
      var text := MergeTopics(AsItems(props[listed]), ItemsIn(topics));
      merged := Some(text);
    } else {
      added := added + [Row(listed, topics)];
    }
  }

  /** Finds out which rows to switch on, which topics rows to rewrite and which rows to add. */
  method GetUpdatedContent(ghost lines: seq<string>, props: map<string, Value>, pairs: seq<string>, topics: string)
    returns (turnOn: seq<string>, updates: map<string, string>, content: string)
    requires Readable(lines) && ReadFrom(props, lines) && Switchable(props, pairs)
    ensures turnOn == TurnOnKeys(lines, pairs) && updates == TopicUpdates(lines, pairs, topics)
    ensures content == Join(NewLines(lines, pairs, topics), '\n')
  {
    var newLines := [];
    turnOn, updates := [], map[];
    for i := 0 to |pairs|
      invariant Planned(lines, pairs[..i], topics, turnOn, updates, newLines)
    {
      PlannedNext(lines, pairs, topics, i, turnOn, updates, newLines);
      var on, merged, added := PlanFlow(lines, props, pairs[i], topics);
      if on {
        turnOn := turnOn + [EnabledKey(pairs[i])];
      }
      if merged.Some? {
        updates := updates[TopicsKey(pairs[i]) := merged.value];
      }
      newLines := newLines + added;
    }
    assert pairs[..|pairs|] == pairs;
    content := Join(newLines, '\n');
  }

  // ----- editing in place -----

  function Replaced(key: string, text: string, line: string): string {
    if key <= line then Row(key, text) else line
  }

  /** Replaces every line that starts with the key. */
  method ReplaceRows(s: Slice<string>, key: string, text: string)
    requires Window(s)
    modifies s.a
    ensures |Content(s)| == |old(Content(s))|
    ensures forall j | 0 <= j < |Content(s)| :: Content(s)[j] == Replaced(key, text, old(Content(s))[j])
  {
    ghost var was := Content(s);
    for i := 0 to s.hi - s.lo
      invariant |Content(s)| == |was|
      invariant forall j | 0 <= j < i :: Content(s)[j] == Replaced(key, text, was[j])
      invariant forall j | i <= j < |was| :: Content(s)[j] == was[j]
    {
      var line := Get(s, i);
      if key <= line {
        Put(s, i, Row(key, text));
      }
    }
  }

  /** A line after the rows of all keys were replaced one after the other. */
  function Pass(keys: seq<string>, text: string -> string, line: string): string
    decreases |keys|
  {
    if keys == [] then line
    else
      var last := keys[|keys| - 1];
      Replaced(last, text(last), Pass(keys[..|keys| - 1], text, line))
  }

  ghost predicate Passed(now: seq<string>, was: seq<string>, keys: seq<string>, text: string -> string) {
    |now| == |was| && forall j | 0 <= j < |was| :: now[j] == Pass(keys, text, was[j])
  }

  method SetEnabledReplication(keys: seq<string>, s: Slice<string>)
    requires Window(s)
    modifies s.a
    ensures Passed(Content(s), old(Content(s)), keys, key => "true")
  {
    ghost var was := Content(s);
    for i := 0 to |keys|
      invariant Passed(Content(s), was, keys[..i], key => "true")
    {
      ghost var then' := Content(s);
      ReplaceRows(s, keys[i], "true");
      assert keys[..i + 1] == keys[..i] + [keys[i]];
    }
    assert keys[..|keys|] == keys;
  }

  function TextIn(updates: map<string, string>): string -> string {
    key => if key in updates then updates[key] else ""
  }

  /** The keys are walked in any order. */
  method UpdateTopics(updates: map<string, string>, s: Slice<string>) returns (ghost order: seq<string>)
    requires Window(s)
    modifies s.a
    ensures forall key :: key in order <==> key in updates
    ensures Passed(Content(s), old(Content(s)), order, TextIn(updates))
  {
    ghost var was := Content(s);
    order := [];
    var left := updates.Keys;
    while left != {}
      invariant left <= updates.Keys && forall key :: key in order <==> key in updates.Keys - left
      invariant Passed(Content(s), was, order, TextIn(updates))
      decreases |left|
    {
      var key :| key in left;
      ghost var then' := Content(s);
      ReplaceRows(s, key, updates[key]);
      left := left - {key};
      order := order + [key];
    }
  }

  lemma {:induction false} FirstFound(lines: seq<string>, p: string -> bool, i: nat)
    requires i <= |lines| && (forall j | 0 <= j < i :: !p(lines[j])) && (i < |lines| ==> p(lines[i]))
    ensures FirstOf(lines, p) == i
  {
    if i > 0 {
      FirstFound(lines[1..], p, i - 1);
    }
  }

  /** Adds new rows in front of the black list, or at the end. */
  method SetNewProperties(content: string, s: Slice<string>) returns (r: Slice<string>)
    requires Window(s)
    modifies s.a
    ensures Window(r) && Content(r) == InsertNew(old(Content(s)), Split(content, '\n'))
  {
    ghost var lines := Content(s);
    var pos, exists' := 0, false;
    while pos < s.hi - s.lo && !exists'
      invariant pos <= s.hi - s.lo && Content(s) == lines
      invariant forall j | 0 <= j < pos :: !("topics.blacklist" <= lines[j])
      invariant exists' ==> pos < |lines| && "topics.blacklist" <= lines[pos]
      decreases s.hi - s.lo - pos, !exists'
    {
      var line := Get(s, pos);
      if "topics.blacklist" <= line {
        exists' := true;
      } else {
        pos := pos + 1;
      }
    }
    FirstFound(lines, StartingWith("topics.blacklist"), pos);
    var added := FromSeq(Split(content, '\n'));
    if exists' {
      r := SpliceCopying(s, pos, added);
    } else {
      r := Append(s, added);
      assert lines[..pos] == lines && lines[pos..] == [];
    }
  }

  // ----- the edit is the merge -----

  /** No key is a beginning of another one, so no line starts with two of them. */
  ghost predicate PrefixFree(keys: seq<string>) {
    forall a, b | a in keys && b in keys && a <= b :: a == b
  }

  ghost predicate StartsWithNone(line: string, keys: seq<string>) {
    forall k | k in keys :: !(k <= line)
  }

  lemma StartsWithKey(key: string, text: string)
    ensures key <= Row(key, text)
  {
    assert Row(key, text)[..|key|] == key;
  }

  lemma FewerKeys(keys: seq<string>, line: string)
    requires keys != []
    ensures forall k | k in keys[..|keys| - 1] :: k in keys
    ensures StartsWithNone(line, keys) ==> StartsWithNone(line, keys[..|keys| - 1])
    ensures PrefixFree(keys) ==> PrefixFree(keys[..|keys| - 1])
  {
    var seen := keys[..|keys| - 1];
    forall k | k in seen ensures k in keys {
    }
    if StartsWithNone(line, keys) {
      forall k | k in seen ensures !(k <= line) {
        assert k in keys;
      }
    }
    if PrefixFree(keys) {
      forall a, b | a in seen && b in seen && a <= b ensures a == b {
        assert a in keys && b in keys;
      }
    }
  }

  lemma {:induction false} PassMiss(keys: seq<string>, text: string -> string, line: string)
    requires StartsWithNone(line, keys)
    ensures Pass(keys, text, line) == line
    decreases |keys|
  {
    if keys != [] {
      assert keys[|keys| - 1] in keys;
      FewerKeys(keys, line);
      PassMiss(keys[..|keys| - 1], text, line);
    }
  }

  /** The one key a line starts with decides. */
  lemma {:induction false} PassHit(keys: seq<string>, text: string -> string, line: string, key: string)
    requires PrefixFree(keys) && key in keys && key <= line
    ensures Pass(keys, text, line) == Row(key, text(key))
    decreases |keys|
  {
    var seen, last := keys[..|keys| - 1], keys[|keys| - 1];
    assert keys == seen + [last];
    assert last in keys;
    FewerKeys(keys, line);
    StartsWithKey(key, text(key));
    if key in seen {
      PassHit(seen, text, line, key);
      if last <= Row(key, text(key)) {
        BeginningsNest(key, last, Row(key, text(key)));
      }
    } else {
      forall k | k in seen ensures !(k <= line) {
        assert k in keys;
        if k <= line {
          BeginningsNest(k, key, line);
        }
      }
      PassMiss(seen, text, line);
    }
  }

  lemma {:induction false} TurnOnMember(lines: seq<string>, pairs: seq<string>, key: string)
    requires Readable(lines)
    ensures key in TurnOnKeys(lines, pairs)
      <==> exists flow :: flow in pairs && TurnsOn(lines, flow) && key == EnabledKey(flow)
    decreases |pairs|
  {
    if pairs != [] {
      var seen, last := pairs[..|pairs| - 1], pairs[|pairs| - 1];
      assert pairs == seen + [last];
      TurnOnMember(lines, seen, key);
    }
  }

  lemma {:induction false} UpdatesMember(lines: seq<string>, pairs: seq<string>, topics: string, key: string)
    requires Readable(lines)
    ensures key in TopicUpdates(lines, pairs, topics)
      <==> exists flow :: flow in pairs && KnowsTopics(lines, flow) && key == TopicsKey(flow)
    decreases |pairs|
  {
    if pairs != [] {
      var seen, last := pairs[..|pairs| - 1], pairs[|pairs| - 1];
      assert pairs == seen + [last];
      UpdatesMember(lines, seen, topics, key);
    }
  }

  lemma {:induction false} UpdateOf(lines: seq<string>, pairs: seq<string>, topics: string, flow: string)
    requires Readable(lines) && Separate(pairs) && flow in pairs && KnowsTopics(lines, flow)
    ensures TopicsKey(flow) in TopicUpdates(lines, pairs, topics)
    ensures TopicUpdates(lines, pairs, topics)[TopicsKey(flow)] == MergedText(lines, flow, topics)
    decreases |pairs|
  {
    var seen, last := pairs[..|pairs| - 1], pairs[|pairs| - 1];
    assert pairs == seen + [last];
    assert ToldApart(flow, last);
    if flow != last {
      FewerAreSeparate(pairs);
      UpdateOf(lines, seen, topics, flow);
    }
  }

  lemma TurnOnIsPrefixFree(lines: seq<string>, pairs: seq<string>)
    requires Readable(lines) && Separate(pairs)
    ensures PrefixFree(TurnOnKeys(lines, pairs))
  {
    var keys := TurnOnKeys(lines, pairs);
    forall a, b | a in keys && b in keys && a <= b ensures a == b {
      TurnOnMember(lines, pairs, a);
      TurnOnMember(lines, pairs, b);
      var f, g :| f in pairs && g in pairs && a == EnabledKey(f) && b == EnabledKey(g);
      assert ToldApart(f, g);
    }
  }

  lemma UpdatesArePrefixFree(lines: seq<string>, pairs: seq<string>, topics: string, order: seq<string>)
    requires Readable(lines) && Separate(pairs)
    requires forall key :: key in order <==> key in TopicUpdates(lines, pairs, topics)
    ensures PrefixFree(order)
  {
    forall a, b | a in order && b in order && a <= b ensures a == b {
      UpdatesMember(lines, pairs, topics, a);
      UpdatesMember(lines, pairs, topics, b);
      var f, g :| f in pairs && g in pairs && a == TopicsKey(f) && b == TopicsKey(g);
      assert ToldApart(f, g);
    }
  }

  /** The first pass turns the flow of a line on. */
  lemma EnabledPass(lines: seq<string>, pairs: seq<string>, line: string)
    requires Readable(lines) && Separate(pairs)
    ensures forall flow | flow in pairs && EnabledKey(flow) <= line && TurnsOn(lines, flow) ::
      Pass(TurnOnKeys(lines, pairs), key => "true", line) == Row(EnabledKey(flow), "true")
    ensures (forall flow | flow in pairs :: !(EnabledKey(flow) <= line && TurnsOn(lines, flow)))
      ==> Pass(TurnOnKeys(lines, pairs), key => "true", line) == line
  {
    var keys := TurnOnKeys(lines, pairs);
    TurnOnIsPrefixFree(lines, pairs);
    forall flow | flow in pairs && EnabledKey(flow) <= line && TurnsOn(lines, flow)
      ensures Pass(keys, key => "true", line) == Row(EnabledKey(flow), "true")
    {
      TurnOnMember(lines, pairs, EnabledKey(flow));
      PassHit(keys, key => "true", line, EnabledKey(flow));
    }
    if forall flow | flow in pairs :: !(EnabledKey(flow) <= line && TurnsOn(lines, flow)) {
      forall k | k in keys ensures !(k <= line) {
        TurnOnMember(lines, pairs, k);
      }
      PassMiss(keys, key => "true", line);
    }
  }

  /** The second pass writes the topics of the flow of a line. */
  lemma TopicsPass(lines: seq<string>, pairs: seq<string>, topics: string, order: seq<string>, line: string)
    requires Readable(lines) && Separate(pairs)
    requires forall key :: key in order <==> key in TopicUpdates(lines, pairs, topics)
    ensures forall flow | flow in pairs && TopicsKey(flow) <= line && KnowsTopics(lines, flow) ::
      Pass(order, TextIn(TopicUpdates(lines, pairs, topics)), line)
        == Row(TopicsKey(flow), MergedText(lines, flow, topics))
    ensures (forall flow | flow in pairs :: !(TopicsKey(flow) <= line && KnowsTopics(lines, flow)))
      ==> Pass(order, TextIn(TopicUpdates(lines, pairs, topics)), line) == line
  {
    var text := TextIn(TopicUpdates(lines, pairs, topics));
    UpdatesArePrefixFree(lines, pairs, topics, order);
    forall flow | flow in pairs && TopicsKey(flow) <= line && KnowsTopics(lines, flow)
      ensures Pass(order, text, line) == Row(TopicsKey(flow), MergedText(lines, flow, topics))
    {
      UpdateOf(lines, pairs, topics, flow);
      PassHit(order, text, line, TopicsKey(flow));
    }
    if forall flow | flow in pairs :: !(TopicsKey(flow) <= line && KnowsTopics(lines, flow)) {
      forall k | k in order ensures !(k <= line) {
        UpdatesMember(lines, pairs, topics, k);
      }
      PassMiss(order, text, line);
    }
  }

  /** Both passes together rewrite a line as the merge does. */
  lemma PassesRewrite(lines: seq<string>, pairs: seq<string>, topics: string, order: seq<string>, line: string)
    requires Readable(lines) && Separate(pairs)
    requires forall key :: key in order <==> key in TopicUpdates(lines, pairs, topics)
    ensures Pass(order, TextIn(TopicUpdates(lines, pairs, topics)), Pass(TurnOnKeys(lines, pairs), key => "true", line))
      == Rewrite(lines, pairs, topics, line)
  {
    var once := Pass(TurnOnKeys(lines, pairs), key => "true", line);
    EnabledPass(lines, pairs, line);
    TopicsPass(lines, pairs, topics, order, once);
    if flow :| flow in pairs && EnabledKey(flow) <= line && TurnsOn(lines, flow) {
      assert HitBy(lines, flow, line);
      RewriteHit(lines, pairs, topics, line, flow);
      SwitchedLine(flow, pairs);
    } else if flow :| flow in pairs && TopicsKey(flow) <= line && KnowsTopics(lines, flow) {
      assert HitBy(lines, flow, line);
      RewriteHit(lines, pairs, topics, line, flow);
      assert ToldApart(flow, flow);
      LineOfOneFlow(flow, flow, line);
    } else {
      RewriteMiss(lines, pairs, topics, line);
    }
  }

  /** A switch is no topics row. */
  lemma SwitchedLine(flow: string, pairs: seq<string>)
    requires flow in pairs && Separate(pairs)
    ensures forall other | other in pairs :: !(TopicsKey(other) <= Row(EnabledKey(flow), "true"))
  {
    StartsWithKey(EnabledKey(flow), "true");
    forall other | other in pairs ensures !(TopicsKey(other) <= Row(EnabledKey(flow), "true")) {
      assert ToldApart(flow, other) && ToldApart(other, flow);
      LineOfOneFlow(other, flow, Row(EnabledKey(flow), "true"));
    }
  }

  lemma {:induction false} MapLinesAre(f: string -> string, xs: seq<string>, ys: seq<string>)
    requires |xs| == |ys| && forall i | 0 <= i < |xs| :: ys[i] == f(xs[i])
    ensures MapLines(f, xs) == ys
  {
    if xs != [] {
      MapLinesAre(f, xs[1..], ys[1..]);
    }
  }

  lemma EditsRewrite(lines: seq<string>, pairs: seq<string>, topics: string, order: seq<string>, once: seq<string>,
                     twice: seq<string>)
    requires Readable(lines) && Separate(pairs)
    requires forall key :: key in order <==> key in TopicUpdates(lines, pairs, topics)
    requires Passed(once, lines, TurnOnKeys(lines, pairs), key => "true")
    requires Passed(twice, once, order, TextIn(TopicUpdates(lines, pairs, topics)))
    ensures twice == MapLines(Rewriter(lines, pairs, topics), lines)
  {
    forall i | 0 <= i < |lines| ensures twice[i] == Rewriter(lines, pairs, topics)(lines[i]) {
      PassesRewrite(lines, pairs, topics, order, lines[i]);
    }
    MapLinesAre(Rewriter(lines, pairs, topics), lines, twice);
  }

  lemma FlowRowsAreOneLine(flow: string, topics: string)
    requires Lacks(flow, '\n') && Lacks(topics, '\n')
    ensures Lacks(Row(EnabledKey(flow), "true"), '\n') && Lacks(Row(TopicsKey(flow), topics), '\n')
  {
  }

  /** The new rows survive being joined and split again; no rows give an empty text. */
  lemma NewLinesReadBack(lines: seq<string>, pairs: seq<string>, topics: string)
    requires Readable(lines) && AllLack(pairs, '\n') && Lacks(topics, '\n')
    ensures var added := NewLines(lines, pairs, topics);
      if added == [] then Join(added, '\n') == ""
      else Join(added, '\n') != "" && Split(Join(added, '\n'), '\n') == added
  {
    var added := NewLines(lines, pairs, topics);
    if added != [] {
      forall i | 0 <= i < |added| ensures Lacks(added[i], '\n') {
        var flow := NewLineIs(lines, pairs, topics, i);
        FlowRowsAreOneLine(flow, topics);
      }
      SplitJoin(added, '\n');
      var flow := NewLineIs(lines, pairs, topics, 0);
      assert added[0] != "";
    }
  }

  /** The edited lines, with the new rows inserted if there are any, are the merged text. */
  lemma EditsMerge(lines: seq<string>, pairs: seq<string>, topics: string, order: seq<string>, once: seq<string>,
                   twice: seq<string>)
    requires Readable(lines) && Separate(pairs) && AllLack(pairs, '\n') && Lacks(topics, '\n')
    requires forall key :: key in order <==> key in TopicUpdates(lines, pairs, topics)
    requires Passed(once, lines, TurnOnKeys(lines, pairs), key => "true")
    requires Passed(twice, once, order, TextIn(TopicUpdates(lines, pairs, topics)))
    ensures var content := Join(NewLines(lines, pairs, topics), '\n');
      Merged(lines, pairs, topics) == if content == "" then twice else InsertNew(twice, Split(content, '\n'))
  {
    EditsRewrite(lines, pairs, topics, order, once, twice);
    NewLinesReadBack(lines, pairs, topics);
    NothingInserted(twice);
  }

  lemma NothingInserted(lines: seq<string>)
    ensures InsertNew(lines, []) == lines
  {
  }

  /** Edits the lines of the stored text in place. */
  method SetUpdatedContent(ghost pairs: seq<string>, ghost topics: string, turnOn: seq<string>,
                           updates: map<string, string>, content: string, stored: string)
    returns (r: seq<string>)
    requires Readable(Split(stored, '\n')) && Separate(pairs) && AllLack(pairs, '\n') && Lacks(topics, '\n')
    requires turnOn == TurnOnKeys(Split(stored, '\n'), pairs)
    requires updates == TopicUpdates(Split(stored, '\n'), pairs, topics)
    requires content == Join(NewLines(Split(stored, '\n'), pairs, topics), '\n')
    ensures r == Merged(Split(stored, '\n'), pairs, topics)
  {
    ghost var lines := Split(stored, '\n');
    var s := FromSeq(Split(stored, '\n'));
    SetEnabledReplication(turnOn, s);
    ghost var once := Content(s);
    ghost var order := UpdateTopics(updates, s);
    EditsMerge(lines, pairs, topics, order, once, Content(s));
    if content != "" {
      s := SetNewProperties(content, s);
    }
    r := s.a[s.lo..s.hi];
  }

  // ----- the whole reconcile -----

  lemma {:induction false} TransformedConcat(lines: seq<string>, a: seq<string>, b: seq<string>,
                                             define: string -> Option<Definition>)
    ensures Transformed(lines, a + b, define) == Transformed(Transformed(lines, a, define), b, define)
    decreases |b|
  {
    if b == [] {
      assert a + b == a;
    } else {
      assert (a + b)[..|a + b| - 1] == a + b[..|b| - 1];
      TransformedConcat(lines, a, b[..|b| - 1], define);
    }
  }

  /** `define` gives what the transformation section of the resource means for each flow. */
  ghost predicate Defines(define: string -> Option<Definition>, request: Configurator.Request, prefix: string,
                          identity: bool, sources: seq<string>, targets: seq<string>) {
    forall s, t | s in sources && t in targets :: define(FlowName(s, t))
      == Configurator.DefinitionOf(request, FlowName(s, t), prefix, if identity then "" else s + ".")
  }

  /** Updates the transformation properties of every flow. */
  method TransformFlows(lines: seq<string>, request: Configurator.Request, prefix: string, identity: bool,
                        sources: seq<string>, targets: seq<string>, ghost define: string -> Option<Definition>)
    returns (r: seq<string>)
    requires Defines(define, request, prefix, identity, sources, targets)
    ensures r == Transformed(lines, DcPairs(sources, targets), define)
  {
    r := lines;
    for i := 0 to |sources|
      invariant r == Transformed(lines, DcPairs(sources[..i], targets), define)
    {
      ghost var before := r;
      for j := 0 to |targets|
        invariant r == Transformed(before, FlowsFrom(sources[i], targets[..j]), define)
      {
        FlowsFromSnoc(sources[i], targets, j);
        if sources[i] != targets[j] {
          var flow := FlowName(sources[i], targets[j]);
          TransformedConcat(before, FlowsFrom(sources[i], targets[..j]), [flow], define);
          assert [flow][..0] == [];
          var subst := if identity then "" else sources[i] + ".";
          r := Configurator.UpdateTransformationProperties(request, r, flow, prefix, subst);
        }
      }
      assert targets[..|targets|] == targets;
      DcPairsSnoc(sources, targets, i);
      TransformedConcat(lines, DcPairs(sources[..i], targets), FlowsFrom(sources[i], targets), define);
    }
    assert sources[..|sources|] == sources;
  }

  /** Topics keep their names on the other side. */
  predicate KeepsNames(lines: seq<string>)
    requires Readable(lines)
  {
    Lookup(lines, Configurator.POLICY) == Some(One(Configurator.IDENTITY))
  }

  ghost function KnownNames(lines: seq<string>): seq<string>
    requires Readable(lines)
  {
    Items(lines, "clusters") + Items(lines, "target.dc")
  }

  /** Recognized sources and targets are known to the text. */
  lemma RecognizedAreKnown(lines: seq<string>, r: Resource)
    requires Readable(lines)
    ensures var found := Recognized(r, Items(lines, "clusters"), TextTargets(lines));
      found.Some? ==> AllIn(found.value.0, KnownNames(lines)) && AllIn(found.value.1, KnownNames(lines))
  {
    var clusters := Items(lines, "clusters");
    var targets := Targets(r.targetDc, clusters, TextTargets(lines));
    if targets.Some? {
      SelectedSatisfy(clusters, NotIn(targets.value));
    }
  }

  /**
   Texts the reconcile does not panic on: rows have equals signs, the clusters are a list and no flow of the
   resource is switched by one. Flows that start each other's rows are not covered.
   */
  ghost predicate Handles(lines: seq<string>, r: Resource) {
    && Readable(lines) && Lookup(lines, "clusters").Some? && Lookup(lines, "clusters").value.Many?
    && (FlowsIn(r, lines).Some? ==> HandlesFlows(lines, FlowsIn(r, lines).value))
  }

  ghost predicate HandlesFlows(lines: seq<string>, pairs: seq<string>)
    requires Readable(lines)
  {
    && Separate(pairs) && AllLack(pairs, '\n')
    && forall i | 0 <= i < |pairs| ::
         Lookup(lines, EnabledKey(pairs[i])).Some? ==> Lookup(lines, EnabledKey(pairs[i])).value.One?
  }

  /** A clean text switches no flow by a list. */
  lemma CleanIsSwitchable(lines: seq<string>, flow: string)
    requires Clean(lines) && Readable(lines) && GoodFlow(flow) && Lookup(lines, EnabledKey(flow)).Some?
    ensures Lookup(lines, EnabledKey(flow)).value.One?
  {
    var key := EnabledKey(flow);
    RowsAreReadable(lines, key);
    SelectedSatisfy(lines, RowOf(key));
    var row := Rows(lines, key)[|Rows(lines, key)| - 1];
    assert row in lines && CleanLine(row) && HasKey(key, row);
    SplitNone(RawOf(row), ',');
  }

  /** Texts of runs can be handled. */
  lemma SoundIsHandled(lines: seq<string>, r: Resource)
    requires Sound(lines)
    ensures Handles(lines, r)
  {
    if FlowsIn(r, lines).Some? {
      var pairs := FlowsIn(r, lines).value;
      FlowsAreGood(r, lines);
      GoodFlowsAreSeparate(pairs);
      forall i | 0 <= i < |pairs| && Lookup(lines, EnabledKey(pairs[i])).Some?
        ensures Lookup(lines, EnabledKey(pairs[i])).value.One?
      {
        CleanIsSwitchable(lines, pairs[i]);
      }
    }
  }

  lemma HandledIsSwitchable(lines: seq<string>, props: map<string, Value>, pairs: seq<string>)
    requires Readable(lines) && HandlesFlows(lines, pairs) && ReadFrom(props, lines)
    ensures Switchable(props, pairs)
  {
    forall i | 0 <= i < |pairs| && EnabledKey(pairs[i]) in props ensures props[EnabledKey(pairs[i])].One? {
      KeyRead(props, lines, EnabledKey(pairs[i]));
    }
  }

  lemma KeyRead(props: map<string, Value>, lines: seq<string>, key: string)
    requires Readable(lines) && ReadFrom(props, lines)
    ensures Lookup(lines, key) == if key in props then Some(props[key]) else None
    ensures Items(lines, key) == if key in props then AsItems(props[key]) else []
  {
  }

  lemma ClustersRead(props: map<string, Value>, lines: seq<string>, r: Resource)
    requires Handles(lines, r) && ReadFrom(props, lines)
    ensures "clusters" in props && props["clusters"].Many? && Items(lines, "clusters") == props["clusters"].items
    ensures TextTargets(lines) == if "target.dc" in props then Some(AsItems(props["target.dc"])) else None
  {
    KeyRead(props, lines, "clusters");
    KeyRead(props, lines, "target.dc");
  }

  /** The complaint is justified by what the text says. */
  ghost predicate Refuses(lines: seq<string>, r: Resource, c: Complaint) {
    Readable(lines) && Justified(c, r, Items(lines, "clusters"), TextTargets(lines))
  }

  /** Reads the text and resolves the flows of a resource. */
  method ReadFlows(stored: string, targetDc: string, sourceDc: string, ghost r: Resource)
    returns (props: map<string, Value>, found: Option<(seq<string>, seq<string>)>, complaint: Option<Complaint>)
    requires Handles(Split(stored, '\n'), r) && targetDc == r.targetDc && sourceDc == r.sourceDc
    ensures ReadFrom(props, Split(stored, '\n'))
    ensures found == Recognized(r, Items(Split(stored, '\n'), "clusters"), TextTargets(Split(stored, '\n')))
    ensures complaint.None? <==> found.Some?
    ensures complaint.Some? ==> Refuses(Split(stored, '\n'), r, complaint.value)
  {
    props := GetProperties(stored);
    ClustersRead(props, Split(stored, '\n'), r);
    var inText := if "target.dc" in props then Some(AsItems(props["target.dc"])) else None;
    found, complaint := RecognizeTargetAndSourceDc(targetDc, sourceDc, props["clusters"].items, inText, r);
  }

  /** One reconcile of a resource against the stored text; on a configuration error the text stays. */
  method UpdateKmmConfigMap(stored: string, topics: string, targetDc: string, sourceDc: string,
                            request: Configurator.Request, prefix: string, ghost r: Resource)
    returns (complaint: Option<Complaint>, result: string)
    requires Handles(Split(stored, '\n'), r) && Lacks(topics, '\n')
    requires topics == r.topics && targetDc == r.targetDc && sourceDc == r.sourceDc
    requires var lines := Split(stored, '\n');
      Defines(r.define, request, prefix, KeepsNames(lines), KnownNames(lines), KnownNames(lines))
    ensures complaint.None? <==> FlowsIn(r, Split(stored, '\n')).Some?
    ensures complaint.Some? ==> Refuses(Split(stored, '\n'), r, complaint.value)
    ensures result == Join(Reconciled(Split(stored, '\n'), r), '\n')
  {
    ghost var lines := Split(stored, '\n');
    var props, found, refused := ReadFlows(stored, targetDc, sourceDc, r);
    RecognizedAreKnown(lines, r);
    if found == None {
      JoinSplit(stored, '\n');
      return refused, stored;
    }
    var (targets, sources) := found.value;
    var pairs := GetDcPairs(targets, sources);
    HandledIsSwitchable(lines, props, pairs);
    var turnOn, updates, content := GetUpdatedContent(lines, props, pairs, topics);
    var merged := SetUpdatedContent(pairs, topics, turnOn, updates, content, stored);
    var identity := Configurator.POLICY in props && props[Configurator.POLICY] == One(Configurator.IDENTITY);
    KeyRead(props, lines, Configurator.POLICY);
    var transformed := TransformFlows(merged, request, prefix, identity, sources, targets, r.define);
    return None, Join(transformed, '\n');
  }

  // ----- runs -----

  lemma SameRowsSay(lines: seq<string>, other: seq<string>, key: string)
    requires Readable(lines) && Readable(other) && Rows(lines, key) == Rows(other, key)
    ensures Lookup(lines, key) == Lookup(other, key) && Items(lines, key) == Items(other, key)
  {
  }

  lemma KnownNamesStay(lines: seq<string>, other: seq<string>)
    requires Readable(lines) && Readable(other) && Rows(lines, Configurator.POLICY) == Rows(other, Configurator.POLICY)
    requires Rows(lines, "clusters") == Rows(other, "clusters") && Rows(lines, "target.dc") == Rows(other, "target.dc")
    ensures KeepsNames(lines) == KeepsNames(other) && KnownNames(lines) == KnownNames(other)
  {
    SameRowsSay(lines, other, Configurator.POLICY);
    SameRowsSay(lines, other, "clusters");
    SameRowsSay(lines, other, "target.dc");
  }

  lemma RunKeepsNames(content: string, rs: seq<Resource>)
    requires Sound(Split(content, '\n')) && GoodResources(rs)
    ensures var was, now := Split(content, '\n'), Split(Run(content, rs), '\n');
      KeepsNames(now) == KeepsNames(was) && KnownNames(now) == KnownNames(was)
  {
    GeneralKeysAreOfNoFlow();
    RunKeepsRows(content, rs, "clusters");
    RunKeepsRows(content, rs, "target.dc");
    RunKeepsRows(content, rs, Configurator.POLICY);
    KnownNamesStay(Split(Run(content, rs), '\n'), Split(content, '\n'));
  }

  /**
   What a resource means for each flow, and that the text can be handled, stays over any run: the reconcile
   can be repeated, and a run of the code is a run of `Reconciled`.
   */
  lemma RunsCanContinue(content: string, rs: seq<Resource>, r: Resource, request: Configurator.Request, prefix: string)
    requires Sound(Split(content, '\n')) && GoodResources(rs)
    requires var was := Split(content, '\n');
      Defines(r.define, request, prefix, KeepsNames(was), KnownNames(was), KnownNames(was))
    ensures var now := Split(Run(content, rs), '\n');
      Handles(now, r) && Defines(r.define, request, prefix, KeepsNames(now), KnownNames(now), KnownNames(now))
  {
    RunKeepsNames(content, rs);
    SoundIsHandled(Split(Run(content, rs), '\n'), r);
  }
}
