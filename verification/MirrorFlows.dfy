/** What the printed text says about every flow: which are printed, whether they are on, and their transformations. */
module MirrorFlows {
  import opened Options
  import opened Text
  import opened Properties
  import opened TopicMerge
  import opened TopicRuns
  import opened Transformation
  import opened MirrorPrinter
  import opened MirrorReader
  import opened MirrorOrigins
  import opened MirrorKeys
  import opened MirrorRoundTrip
  import opened MirrorReadBack
  import Configurator = TransformationConfigurator

  /** Every capital letter becomes its small one. */
  lemma CapitalsBecomeSmall(i: nat)
    requires i < 26
    ensures LowerChar("ABCDEFGHIJKLMNOPQRSTUVWXYZ"[i]) == "abcdefghijklmnopqrstuvwxyz"[i]
  {
  }

  /** Everything else stays. */
  lemma OnlyCapitalsChange(w: string, i: nat)
    requires i < |w|
    ensures |Lower(w)| == |w| && (if 'A' <= w[i] <= 'Z' then Lower(w)[i] == LowerChar(w[i]) else Lower(w)[i] == w[i])
  {
  }

  /** Between two clusters, towards the region if there is one. */
  ghost predicate Flowing(s: Spec, source: string, target: string) {
    && source in Names(s.clusters) && source != target
    && (if s.region == "" then target in Names(s.clusters) else target == Lower(s.region))
  }

  // ----- lines of a flow -----

  lemma ArrowDecides(a: string, b: string, c: string, d: string)
    requires Lacks(a, '-') && Lacks(c, '-') && FlowName(a, b) == FlowName(c, d)
    ensures a == c && b == d
  {
    var x, y := FlowName(a, b), FlowName(c, d);
    assert x == a + ['-'] + (['>'] + b) && y == c + ['-'] + (['>'] + d);
    IndexOfFirst(a, '-', ['>'] + b);
    IndexOfFirst(c, '-', ['>'] + d);
    assert x[..|a|] == a && y[..|c|] == c && x[|a| + 2..] == b && y[|c| + 2..] == d;
  }

  lemma FlowKeyStart(s: Spec, source: string, target: string, line: string, q: string)
    requires Word(source) && Word(target) && line in FlowLines(s, source, target) && HasKey(q, line)
    ensures FlowName(source, target) + ['.'] <= q
  {
    var flow := FlowName(source, target);
    FlowEntry(s, source, target, line, q);
    assert EnabledKey(flow) == flow + ['.'] + "enabled";
    assert flow + ['.'] <= Mark(flow, Transforms) && flow + ['.'] <= Mark(flow, Predicates);
    assert flow + ['.'] <= SyncKey(flow, "enabled") && flow + ['.'] <= SyncKey(flow, "interval.seconds");
  }

  /** A row under a flow's name is one of the lines of that flow. */
  lemma FlowRowIs(s: Spec, source: string, target: string, line: string, q: string)
    requires Printable(s) && Word(source) && Word(target) && line in PrintedLines(s) && HasKey(q, line)
    requires FlowName(source, target) + ['.'] <= q
    ensures Flowing(s, source, target) && line in FlowLines(s, source, target)
  {
    var flow := FlowName(source, target);
    var o := OriginOf(s, line);
    EntryClaims(s, o, line, q);
    ArrowIsGood(source, target);
    DottedStart(flow, "", q);
    ArrowClaims(s, o, q);
    NamesAreWords(s, o.source);
    NamesAreWords(s, o.target);
    ArrowIsGood(o.source, o.target);
    FlowKeyStart(s, o.source, o.target, line, q);
    DotDecides(flow, FlowName(o.source, o.target), q);
    WordIsGood(source);
    WordIsGood(o.source);
    ArrowDecides(source, target, o.source, o.target);
  }

  lemma FlowLineIsPrinted(s: Spec, source: string, target: string, line: string)
    requires Flowing(s, source, target) && line in FlowLines(s, source, target)
    ensures line in PrintedLines(s)
  {
    LineOfFlow(s, Names(s.clusters), TargetNames(s), source, target, line);
    InReplication(s, line);
    InPrinted(s, line);
  }

  // ----- the switch and the group offsets -----

  lemma NoEntryElsewhere(s: Spec, source: string, target: string, rest: string)
    requires Printable(s) && Word(source) && Word(target) && !Flowing(s, source, target)
    ensures Find(PrintedLines(s), FlowName(source, target) + ['.'] + rest) == None
  {
    var key := FlowName(source, target) + ['.'] + rest;
    forall line | line in PrintedLines(s) ensures !IsEntry(key, line) {
      if IsEntry(key, line) {
        FlowRowIs(s, source, target, line, key);
      }
    }
    FindNone(PrintedLines(s), key);
  }

  /** Exactly the flows between clusters, towards the region, are printed, on for disaster recovery or if asked for. */
  lemma SwitchExactly(s: Spec, source: string, target: string)
    requires Printable(s) && Word(source) && Word(target)
    ensures Find(PrintedLines(s), FlowName(source, target) + ['.'] + "enabled")
         == if !Flowing(s, source, target) then None
            else Some(if s.dr || s.flowEnabled then "true" else "false")
  {
    var key := FlowName(source, target) + ['.'] + "enabled";
    assert key == EnabledKey(FlowName(source, target));
    if Flowing(s, source, target) {
      SwitchEntry(s, source, target);
      ArrowIsGood(source, target);
      KeysAreGood(FlowName(source, target));
      RowEntry(key, Bool(FlowOn(s)));
      BoolReadsBack(FlowOn(s));
      FindOnly(PrintedLines(s), key, Row(key, Bool(FlowOn(s))));
    } else {
      NoEntryElsewhere(s, source, target, "enabled");
    }
  }

  /** The two settings of group offsets that a flow has of its own, with their texts. */
  ghost predicate SyncSetting(last: string, text: string) {
    (last == "enabled" && text == "false") || (last == "interval.seconds" && text == "5")
  }

  lemma SyncIsNothingElse(flow: string, last: string)
    ensures SyncKey(flow, last) != EnabledKey(flow)
    ensures !(Mark(flow, Transforms) <= SyncKey(flow, last)) && !(Mark(flow, Predicates) <= SyncKey(flow, last))
  {
    assert SyncKey(flow, last)[|flow| + 1] == 's' && EnabledKey(flow)[|flow| + 1] == 'e';
    assert Mark(flow, Transforms)[|flow| + 1] == 't' && Mark(flow, Predicates)[|flow| + 1] == 'p';
  }

  lemma SyncLineIs(flow: string, line: string, last: string, text: string)
    requires GoodFlow(flow) && SyncSetting(last, text) && line in SyncLines(flow) && HasKey(SyncKey(flow, last), line)
    ensures line == Row(SyncKey(flow, last), text)
  {
    SyncKeysAreGood(flow);
    assert |SyncKey(flow, "enabled")| != |SyncKey(flow, "interval.seconds")|;
    if line == Row(SyncKey(flow, "enabled"), "false") {
      OwnKey(SyncKey(flow, "enabled"), "false", SyncKey(flow, last));
    } else {
      OwnKey(SyncKey(flow, "interval.seconds"), "5", SyncKey(flow, last));
    }
  }

  lemma SyncLinesAreThere(s: Spec, source: string, target: string, line: string)
    requires line in FlowLines(s, source, target)
    ensures line == Row(EnabledKey(FlowName(source, target)), Bool(FlowOn(s)))
      || line in TransformLines(s, source, target) || (!s.dr && line in SyncLines(FlowName(source, target)))
  {
  }

  lemma SyncRowIs(s: Spec, source: string, target: string, line: string, last: string, text: string)
    requires Word(source) && Word(target) && SyncSetting(last, text)
    requires line in FlowLines(s, source, target) && HasKey(SyncKey(FlowName(source, target), last), line)
    ensures !s.dr && line == Row(SyncKey(FlowName(source, target), last), text)
  {
    var flow := FlowName(source, target);
    ArrowIsGood(source, target);
    KeysAreGood(flow);
    MarksAreGood(flow);
    SyncIsNothingElse(flow, last);
    SyncLinesAreThere(s, source, target, line);
    if line == Row(EnabledKey(flow), Bool(FlowOn(s))) {
      OwnKey(EnabledKey(flow), Bool(FlowOn(s)), SyncKey(flow, last));
    } else if line in TransformLines(s, source, target) {
      TransformLineIsMarked(s, source, target, line);
      var k := if Mark(flow, Transforms) <= line then Transforms else Predicates;
      RowStart(SyncKey(flow, last), line, Mark(flow, k));
    } else {
      SyncLineIs(flow, line, last, text);
    }
  }

  lemma SyncRowIsPrinted(s: Spec, source: string, target: string, last: string, text: string)
    requires !s.dr && SyncSetting(last, text) && Flowing(s, source, target)
    ensures Row(SyncKey(FlowName(source, target), last), text) in PrintedLines(s)
  {
    var row := Row(SyncKey(FlowName(source, target), last), text);
    assert row in SyncLines(FlowName(source, target));
    FlowLineIsPrinted(s, source, target, row);
  }

  lemma SyncEntryIs(s: Spec, source: string, target: string, last: string, text: string, line: string)
    requires Printable(s) && Word(source) && Word(target) && SyncSetting(last, text)
    requires line in PrintedLines(s) && IsEntry(SyncKey(FlowName(source, target), last), line)
    ensures Flowing(s, source, target) && !s.dr && line == Row(SyncKey(FlowName(source, target), last), text)
  {
    var flow := FlowName(source, target);
    assert flow + ['.'] <= SyncKey(flow, last);
    FlowRowIs(s, source, target, line, SyncKey(flow, last));
    SyncRowIs(s, source, target, line, last, text);
  }

  /** Group offsets are synchronised per flow only by disaster recovery: without it, each flow turns that off. */
  lemma SyncExactly(s: Spec, source: string, target: string, last: string, text: string)
    requires Printable(s) && Word(source) && Word(target) && SyncSetting(last, text)
    ensures Find(PrintedLines(s), SyncKey(FlowName(source, target), last))
         == if Flowing(s, source, target) && !s.dr then Some(text) else None
  {
    var flow := FlowName(source, target);
    var key := SyncKey(flow, last);
    ArrowIsGood(source, target);
    SyncKeysAreGood(flow);
    forall line | line in PrintedLines(s) && IsEntry(key, line)
      ensures Flowing(s, source, target) && !s.dr && line == Row(key, text)
    {
      SyncEntryIs(s, source, target, last, text, line);
    }
    if Flowing(s, source, target) && !s.dr {
      SyncRowIsPrinted(s, source, target, last, text);
      RowEntry(key, text);
      TrimTight(text, SPACE);
      FindOnly(PrintedLines(s), key, Row(key, text));
    } else {
      FindNone(PrintedLines(s), key);
    }
  }

  // ----- transformations -----

  /** What the flow is to contain; the prefix that is filled in is empty where topics keep their names. */
  ghost function FlowDefinition(s: Spec, source: string, target: string): Option<Definition> {
    Configurator.DefinitionOf(s.transformation, source + "->" + target, "",
                              if s.dr || !s.prefixEnabled then "" else source + ".")
  }

  lemma TransformLinesAre(s: Spec, source: string, target: string)
    ensures var d := FlowDefinition(s, source, target);
      TransformLines(s, source, target)
      == if d.None? then [] else Block(d.value, d.value.transforms, d.value.predicates)
  {
  }

  lemma MarkedIsTransform(s: Spec, source: string, target: string, line: string, k: Kind)
    requires Word(source) && Word(target) && Mark(FlowName(source, target), k) <= line
    requires line in FlowLines(s, source, target)
    ensures (s.dr || s.flowEnabled) && !s.configurator && line in TransformLines(s, source, target)
  {
    var flow := FlowName(source, target);
    var row := Row(EnabledKey(flow), Bool(FlowOn(s)));
    assert row[|flow| + 1] == 'e' && Mark(flow, k)[|flow| + 1] == (if k == Transforms then 't' else 'p');
    if line in SyncLines(flow) {
      SyncLetter(flow, line);
    }
  }

  lemma SyncLetter(flow: string, line: string)
    requires line in SyncLines(flow)
    ensures |line| > |flow| + 1 && line[|flow| + 1] == 's'
  {
  }

  lemma MarkedIsRow(flow: string, k: Kind, line: string)
    requires GoodFlow(flow) && Mark(flow, k) <= line
    ensures HasKey(KeyOf(line), line) && flow + ['.'] <= KeyOf(line)
  {
    MarksAreGood(flow);
    assert line[0] == Mark(flow, k)[0];
    RowStart(KeyOf(line), line, Mark(flow, k));
    assert flow + ['.'] <= Mark(flow, k);
  }

  /**
   The transformation lines of a flow are those of its definition, printed exactly where the flow is on and the
   configurator does not take care of them.
   */
  lemma TransformsExactly(s: Spec, source: string, target: string, k: Kind, line: string)
    requires Printable(s) && Word(source) && Word(target) && Mark(FlowName(source, target), k) <= line
    ensures var d := FlowDefinition(s, source, target);
      line in PrintedLines(s)
      <==> && Flowing(s, source, target) && (s.dr || s.flowEnabled) && !s.configurator
           && d.Some? && line in Block(d.value, d.value.transforms, d.value.predicates)
  {
    ArrowIsGood(source, target);
    MarkedIsRow(FlowName(source, target), k, line);
    TransformLinesAre(s, source, target);
    if line in PrintedLines(s) {
      FlowRowIs(s, source, target, line, KeyOf(line));
      MarkedIsTransform(s, source, target, line, k);
    }
    if Flowing(s, source, target) && FlowOn(s) && !s.configurator && line in TransformLines(s, source, target) {
      FlowLineIsPrinted(s, source, target, line);
    }
  }
}
