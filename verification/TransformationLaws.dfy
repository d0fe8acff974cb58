/** Idempotence, frame, isolation, commutation and closure of the transformation update. */
module TransformationLaws {
  import opened Text
  import opened Lines
  import opened Transformation

  // ----- definitions -----

  ghost predicate HasTypeLine(lines: seq<string>, flow: string, k: Kind, name: string) {
    exists line :: line in lines && flow + NameMark(k) + (name + ".type = ") <= line
  }

  ghost predicate AllStartWith(names: seq<string>, prefix: string) {
    forall i | 0 <= i < |names| :: prefix <= names[i]
  }

  /** What `getTransformationDefinition` delivers. */
  ghost predicate WellFormed(d: Definition) {
    && d.config != [] && (forall i | 0 <= i < |d.config| :: IsOwn(d, d.config[i]))
    && AllStartWith(d.transforms, d.prefix) && AllStartWith(d.predicates, d.prefix)
  }

  lemma OwnIsDropped(d: Definition, line: string)
    requires IsOwn(d, line)
    ensures !IsKept(d, line) && !IsEnabled(d.flow, line)
    ensures !IsList(d.flow, Transforms, line) && !IsList(d.flow, Predicates, line)
  {
    if d.flow + NameMark(Transforms) + d.prefix <= line {
      NameLinesAreNoLists(d.flow, Transforms, d.prefix, line);
    } else {
      NameLinesAreNoLists(d.flow, Predicates, d.prefix, line);
    }
  }

  lemma ListLinesAreDropped(d: Definition, k: Kind, names: seq<string>)
    ensures Dropped(ListLines(d.flow, k, names), KeptBy(d), EnabledBy(d.flow))
  {
    var line := ListLine(d.flow, k, names);
    assert IsList(d.flow, k, line);
    ListKindsDiffer(d.flow, line);
  }

  lemma ConfigIsDropped(d: Definition)
    requires WellFormed(d)
    ensures Dropped(d.config, KeptBy(d), EnabledBy(d.flow))
  {
    forall i | 0 <= i < |d.config| ensures !IsKept(d, d.config[i]) && !IsEnabled(d.flow, d.config[i]) {
      OwnIsDropped(d, d.config[i]);
    }
  }

  lemma BlockIsDropped(d: Definition, lines: seq<string>)
    requires WellFormed(d)
    ensures Dropped(BlockFor(d, lines), KeptBy(d), EnabledBy(d.flow))
  {
    var kept, stop := KeptBy(d), EnabledBy(d.flow);
    var ts, ps := AllNames(d, Transforms, lines), AllNames(d, Predicates, lines);
    ConfigIsDropped(d);
    ListLinesAreDropped(d, Transforms, ts);
    ListLinesAreDropped(d, Predicates, ps);
  }

  lemma StopsAreKept(d: Definition)
    ensures forall line | EnabledBy(d.flow)(line) :: KeptBy(d)(line)
  {
    forall line | EnabledBy(d.flow)(line) ensures KeptBy(d)(line) {
      EnabledIsKept(d, line);
    }
  }

  // ----- reading names back -----

  /** A name written into a list and read back; with a comma it falls apart. */
  function Reader(): string -> seq<string> {
    name => TrimAll(Split(name, ','))
  }

  lemma {:induction false} TrimAllConcat(a: seq<string>, b: seq<string>)
    ensures TrimAll(a + b) == TrimAll(a) + TrimAll(b)
  {
    if a == [] {
      assert a + b == b;
    } else {
      assert (a + b)[1..] == a[1..] + b;
      TrimAllConcat(a[1..], b);
    }
  }

  lemma {:induction false} ReadJoined(names: seq<string>)
    requires names != []
    ensures TrimAll(Split(Join(names, ','), ',')) == Gather(names, Reader())
  {
    if |names| == 1 {
      assert Gather(names[1..], Reader()) == [];
    } else {
      ReadJoined(names[1..]);
      SplitConcat(names[0], ',', Join(names[1..], ','));
      TrimAllConcat(Split(names[0], ','), Split(Join(names[1..], ','), ','));
    }
  }

  /** A name without commas that needs no trimming. */
  ghost predicate CleanName(name: string) {
    Lacks(name, ',') && Tight(name, WHITE)
  }

  ghost predicate AllClean(names: seq<string>) {
    forall i | 0 <= i < |names| :: CleanName(names[i])
  }

  lemma CleanReadsBack(name: string)
    requires CleanName(name)
    ensures Reader()(name) == [name]
  {
    SplitNone(name, ',');
    TrimTight(name, WHITE);
    assert TrimAll([name]) == [Trim(name, WHITE)];
  }

  lemma ReadClean(names: seq<string>)
    requires AllClean(names)
    ensures Gather(names, Reader()) == names
  {
    forall i | 0 <= i < |names| ensures Reader()(names[i]) == [names[i]] {
      CleanReadsBack(names[i]);
    }
    GatherSelf(names, Reader());
  }

  lemma {:induction false} TrimAllIsClean(parts: seq<string>)
    requires AllLack(parts, ',')
    ensures AllClean(TrimAll(parts))
  {
    if parts != [] {
      TrimSpec(parts[0], WHITE, ',');
      TrimAllIsClean(parts[1..]);
    }
  }

  lemma NamesInIsClean(flow: string, k: Kind, line: string)
    ensures AllClean(NamesIn(flow, k, line))
  {
    if IsList(flow, k, line) {
      var text := line[|flow + ListMark(k)|..];
      SplitLacks(text, ',');
      TrimAllIsClean(Split(text, ','));
    }
  }

  lemma {:induction false} ListedIsClean(flow: string, k: Kind, lines: seq<string>)
    ensures AllClean(Listed(flow, k, lines))
  {
    if lines != [] {
      NamesInIsClean(flow, k, lines[0]);
      ListedIsClean(flow, k, lines[1..]);
      assert Listed(flow, k, lines) == NamesIn(flow, k, lines[0]) + Listed(flow, k, lines[1..]);
    }
  }

  lemma ExtraIsClean(d: Definition, k: Kind, lines: seq<string>)
    ensures AllClean(Extra(d, k, lines))
    ensures forall i | 0 <= i < |Extra(d, k, lines)| :: !(d.prefix <= Extra(d, k, lines)[i])
  {
    ListedIsClean(d.flow, k, lines);
    SelectedSatisfy(Listed(d.flow, k, lines), ForeignTo(d.prefix));
    var extra, listed := Extra(d, k, lines), Listed(d.flow, k, lines);
    forall i | 0 <= i < |extra| ensures CleanName(extra[i]) {
      var j :| 0 <= j < |listed| && listed[j] == extra[i];
    }
  }

  // ----- the names listed after an update -----

  lemma SortKeepsSize(names: seq<string>)
    ensures |Sort(names)| == |names|
  {
    SortPermutes(names);
    assert |multiset(Sort(names))| == |multiset(names)|;
  }

  lemma NamesInListLine(flow: string, k: Kind, j: Kind, names: seq<string>)
    requires names != []
    ensures NamesIn(flow, k, ListLine(flow, j, names)) == if j == k then Gather(Sort(names), Reader()) else []
  {
    var line := ListLine(flow, j, names);
    SortKeepsSize(names);
    assert IsList(flow, j, line);
    ListKindsDiffer(flow, line);
    assert line[|flow + ListMark(j)|..] == Join(Sort(names), ',');
    ReadJoined(Sort(names));
  }

  lemma ListedInListLines(flow: string, k: Kind, j: Kind, names: seq<string>)
    ensures Listed(flow, k, ListLines(flow, j, names)) == if j == k then Gather(Sort(names), Reader()) else []
  {
    if names != [] {
      NamesInListLine(flow, k, j, names);
      GatherOne(ListLine(flow, j, names), NamesBy(flow, k));
    }
  }

  lemma ListedInBlock(d: Definition, k: Kind, transforms: seq<string>, predicates: seq<string>)
    requires WellFormed(d)
    ensures Listed(d.flow, k, Block(d, transforms, predicates))
         == Gather(Sort(if k == Transforms then transforms else predicates), Reader())
  {
    forall i | 0 <= i < |d.config| ensures NamesBy(d.flow, k)(d.config[i]) == [] {
      OwnIsDropped(d, d.config[i]);
    }
    GatherNone(d.config, NamesBy(d.flow, k));
    var tl, pl := ListLines(d.flow, Transforms, transforms), ListLines(d.flow, Predicates, predicates);
    GatherConcat(d.config + tl, pl, NamesBy(d.flow, k));
    GatherConcat(d.config, tl, NamesBy(d.flow, k));
    ListedInListLines(d.flow, k, Transforms, transforms);
    ListedInListLines(d.flow, k, Predicates, predicates);
  }

  lemma KeptListNothing(d: Definition, k: Kind, xs: seq<string>)
    requires forall i | 0 <= i < |xs| :: IsKept(d, xs[i])
    ensures Listed(d.flow, k, xs) == []
  {
    GatherNone(xs, NamesBy(d.flow, k));
  }

  lemma ListedInWeave(d: Definition, k: Kind, lines: seq<string>, block: seq<string>)
    ensures Listed(d.flow, k, Weave(lines, KeptBy(d), EnabledBy(d.flow), block)) == Listed(d.flow, k, block)
  {
    var kept, stop := KeptBy(d), EnabledBy(d.flow);
    var before, stops, after := Before(lines, kept, stop), Select(lines, stop), After(lines, kept, stop);
    PartsArePlain(lines, kept, stop);
    SelectedSatisfy(lines, stop);
    StopsAreKept(d);
    KeptListNothing(d, k, before);
    KeptListNothing(d, k, stops);
    KeptListNothing(d, k, after);
    GatherConcat(before, stops + (block + after), NamesBy(d.flow, k));
    GatherConcat(stops, block + after, NamesBy(d.flow, k));
    GatherConcat(block, after, NamesBy(d.flow, k));
  }

  lemma ListedAfterUpdate(d: Definition, k: Kind, lines: seq<string>)
    requires WellFormed(d)
    ensures Listed(d.flow, k, Update(d, lines))
         == if Enableds(d.flow, lines) == [] then [] else Gather(Sort(AllNames(d, k, lines)), Reader())
  {
    ListedInWeave(d, k, lines, BlockFor(d, lines));
    if Enableds(d.flow, lines) != [] {
      ListedInBlock(d, k, AllNames(d, Transforms, lines), AllNames(d, Predicates, lines));
    }
  }

  /** The names of nobody's that the owner's names turn into when read back. */
  function Leak(names: seq<string>, prefix: string): seq<string> {
    Select(Gather(names, Reader()), ForeignTo(prefix))
  }

  /** What another observer with prefix `q` reads as foreign after an update. */
  lemma ForeignAfterUpdate(d: Definition, k: Kind, lines: seq<string>, q: string)
    requires WellFormed(d) && Enableds(d.flow, lines) != []
    ensures multiset(Select(Listed(d.flow, k, Update(d, lines)), ForeignTo(q)))
         == multiset(Leak(d.Names(k), q)) + multiset(Select(Extra(d, k, lines), ForeignTo(q)))
  {
    var names, extra := AllNames(d, k, lines), Extra(d, k, lines);
    ListedAfterUpdate(d, k, lines);
    SortPermutes(names);
    GatherPermutes(Sort(names), names, Reader());
    SelectPermutes(Gather(Sort(names), Reader()), Gather(names, Reader()), ForeignTo(q));
    GatherConcat(d.Names(k), extra, Reader());
    ExtraIsClean(d, k, lines);
    ReadClean(extra);
    SelectConcat(Gather(d.Names(k), Reader()), extra, ForeignTo(q));
  }

  /** With an enabled line, the foreign names afterwards are those before plus what the owner's names leak. */
  lemma ExtraAfterUpdate(d: Definition, k: Kind, lines: seq<string>)
    requires WellFormed(d) && Enableds(d.flow, lines) != []
    ensures multiset(Extra(d, k, Update(d, lines)))
         == multiset(Leak(d.Names(k), d.prefix)) + multiset(Extra(d, k, lines))
  {
    ForeignAfterUpdate(d, k, lines, d.prefix);
    ExtraIsClean(d, k, lines);
    SelectAll(Extra(d, k, lines), ForeignTo(d.prefix));
  }

  // ----- idempotence -----

  /** No name of the owner falls apart into names of somebody else when read back. */
  predicate NoLeak(d: Definition) {
    Leak(d.transforms, d.prefix) == [] && Leak(d.predicates, d.prefix) == []
  }

  lemma ListLinesAreCanonical(flow: string, k: Kind, a: seq<string>, b: seq<string>)
    requires multiset(a) == multiset(b)
    ensures ListLines(flow, k, a) == ListLines(flow, k, b)
  {
    SortIsCanonical(a, b);
    assert |a| == |multiset(a)| && |b| == |multiset(b)|;
  }

  lemma SameBlock(d: Definition, t: seq<string>, p: seq<string>, t': seq<string>, p': seq<string>)
    requires multiset(t) == multiset(t') && multiset(p) == multiset(p')
    ensures Block(d, t, p) == Block(d, t', p')
  {
    ListLinesAreCanonical(d.flow, Transforms, t, t');
    ListLinesAreCanonical(d.flow, Predicates, p, p');
  }

  lemma NamesStay(d: Definition, k: Kind, lines: seq<string>)
    requires WellFormed(d) && NoLeak(d) && Enableds(d.flow, lines) != []
    ensures multiset(AllNames(d, k, Update(d, lines))) == multiset(AllNames(d, k, lines))
  {
    ExtraAfterUpdate(d, k, lines);
    assert Leak(d.Names(k), d.prefix) == [];
  }

  lemma UpdateKeepsParts(d: Definition, lines: seq<string>)
    requires WellFormed(d)
    ensures var kept, stop := KeptBy(d), EnabledBy(d.flow); var r := Update(d, lines);
      && Before(r, kept, stop) == Before(lines, kept, stop) && After(r, kept, stop) == After(lines, kept, stop)
      && Select(r, stop) == Select(lines, stop)
  {
    var kept, stop := KeptBy(d), EnabledBy(d.flow);
    if Enableds(d.flow, lines) != [] {
      BlockIsDropped(d, lines);
      WeaveKeepsParts(lines, kept, stop, BlockFor(d, lines));
    } else {
      var before := Before(lines, kept, stop);
      WithoutStop(lines, kept, stop);
      PartsArePlain(lines, kept, stop);
      assert Update(d, lines) == before;
      SelectNone(before, stop);
      WithoutStop(before, kept, stop);
      RestOfPlain(before, kept, stop);
    }
  }

  /** Updating twice is updating once, exactly when there is no enabled line or the owner's names do not leak. */
  lemma IdempotentExactly(d: Definition, lines: seq<string>)
    requires WellFormed(d)
    ensures Update(d, Update(d, lines)) == Update(d, lines) <==> Enableds(d.flow, lines) == [] || NoLeak(d)
  {
    var once := Update(d, lines);
    UpdateKeepsParts(d, lines);
    if Enableds(d.flow, lines) != [] {
      if NoLeak(d) {
        NamesStay(d, Transforms, lines);
        NamesStay(d, Predicates, lines);
        SameBlock(d, AllNames(d, Transforms, once), AllNames(d, Predicates, once),
                  AllNames(d, Transforms, lines), AllNames(d, Predicates, lines));
      }
      if Update(d, once) == once {
        FixpointDoesNotLeak(d, Transforms, once);
        FixpointDoesNotLeak(d, Predicates, once);
      }
    }
  }

  lemma FixpointDoesNotLeak(d: Definition, k: Kind, once: seq<string>)
    requires WellFormed(d) && Enableds(d.flow, once) != [] && Update(d, once) == once
    ensures Leak(d.Names(k), d.prefix) == []
  {
    ExtraAfterUpdate(d, k, once);
    assert |multiset(Leak(d.Names(k), d.prefix))| == 0;
  }

  /** An owner prefix starts with no blank, contains none and ends in an underscore. */
  ghost predicate GoodPrefix(p: string) {
    p != "" && p[0] !in WHITE && Lacks(p, ' ') && p[|p| - 1] == '_'
  }

  lemma CommaFreeReadsOwn(name: string, prefix: string)
    requires GoodPrefix(prefix) && prefix <= name && Lacks(name, ',')
    ensures Reader()(name) == [Trim(name, WHITE)] && prefix <= Trim(name, WHITE)
  {
    TrimKeeps(name, prefix, WHITE);
    SplitNone(name, ',');
    assert TrimAll([name]) == [Trim(name, WHITE)];
  }

  /** Names without commas do not leak. */
  lemma {:induction false} CommaFreeNamesDoNotLeak(names: seq<string>, prefix: string)
    requires GoodPrefix(prefix) && AllStartWith(names, prefix)
    requires forall i | 0 <= i < |names| :: Lacks(names[i], ',')
    ensures Leak(names, prefix) == []
  {
    if names != [] {
      CommaFreeReadsOwn(names[0], prefix);
      CommaFreeNamesDoNotLeak(names[1..], prefix);
      SelectConcat([Trim(names[0], WHITE)], Gather(names[1..], Reader()), ForeignTo(prefix));
      SelectNone([Trim(names[0], WHITE)], ForeignTo(prefix));
    }
  }

  lemma CommaNameFallsApart(prefix: string, a: string, b: string)
    requires Lacks(prefix + a, ',') && Lacks(b, ',')
    ensures Reader()(prefix + a + [','] + b) == [Trim(prefix + a, WHITE), Trim(b, WHITE)]
  {
    SplitHead(prefix + a, ',', b);
    SplitNone(b, ',');
    assert [prefix + a, b] == [prefix + a] + [b];
    TrimAllConcat([prefix + a], [b]);
    assert TrimAll([prefix + a]) == [Trim(prefix + a, WHITE)] && TrimAll([b]) == [Trim(b, WHITE)];
  }

  lemma GatherHas(xs: seq<string>, f: string -> seq<string>, x: string, y: string)
    requires x in xs && y in f(x)
    ensures y in Gather(xs, f)
  {
    var i :| 0 <= i < |xs| && xs[i] == x;
    GatherWithout(xs, i, f);
    assert y in multiset(f(x)) && y in multiset(Gather(xs, f));
  }

  /**
   A name with a comma whose second part is not the owner's makes every update of an enabled flow change the
   text again.
   */
  lemma CommaNameIsNotIdempotent(d: Definition, lines: seq<string>, a: string, b: string)
    requires WellFormed(d) && Enableds(d.flow, lines) != [] && d.prefix + a + [','] + b in d.transforms
    requires Lacks(d.prefix + a, ',') && Lacks(b, ',') && !(d.prefix <= Trim(b, WHITE))
    ensures Update(d, Update(d, lines)) != Update(d, lines)
  {
    var name := d.prefix + a + [','] + b;
    CommaNameFallsApart(d.prefix, a, b);
    GatherHas(d.transforms, Reader(), name, Trim(b, WHITE));
    SelectMember(Gather(d.transforms, Reader()), ForeignTo(d.prefix), Trim(b, WHITE));
    IdempotentExactly(d, lines);
  }

  // ----- frame -----

  /** Every line that is neither a list line nor one of the owner's. */
  function Keep(d: Definition, lines: seq<string>): seq<string> {
    Select(lines, KeptBy(d))
  }

  /**
   With one enabled line, every kept line survives in order and the block of the owner stands
   directly after the enabled line.
   */
  lemma UpdateHasATightFrame(d: Definition, lines: seq<string>) returns (i: nat)
    requires |Enableds(d.flow, lines)| == 1
    ensures i < |Keep(d, lines)| && IsEnabled(d.flow, Keep(d, lines)[i])
    ensures Update(d, lines) == Keep(d, lines)[..i + 1] + (BlockFor(d, lines) + Keep(d, lines)[i + 1..])
  {
    var kept, stop := KeptBy(d), EnabledBy(d.flow);
    StopsAreKept(d);
    SingleStop(lines, kept, stop);
    SelectedSatisfy(lines, stop);
    i := SpliceIn(Before(lines, kept, stop), Select(lines, stop), BlockFor(d, lines), After(lines, kept, stop),
                  Keep(d, lines));
  }

  lemma SpliceIn(before: seq<string>, stops: seq<string>, block: seq<string>, after: seq<string>, whole: seq<string>)
    returns (i: nat)
    requires |stops| == 1 && whole == before + (stops + after)
    ensures i < |whole| && whole[i] == stops[0]
    ensures before + (stops + (block + after)) == whole[..i + 1] + (block + whole[i + 1..])
  {
    i := |before|;
    assert whole[..i + 1] == before + stops && whole[i + 1..] == after;
  }

  /** Whatever the number of enabled lines, the result is the kept lines and the block, in some order. */
  lemma UpdateBag(d: Definition, lines: seq<string>)
    ensures multiset(Update(d, lines)) == multiset(Keep(d, lines)) + multiset(BlockFor(d, lines))
  {
    StopsAreKept(d);
    WeaveBag(lines, KeptBy(d), EnabledBy(d.flow), BlockFor(d, lines));
  }

  // ----- isolation -----

  /** Neither prefix is a beginning of the other. */
  ghost predicate Apart(p: string, q: string) {
    !(p <= q) && !(q <= p)
  }

  lemma ApartFromExtensions(p: string, q: string, s: string)
    requires Apart(p, q) && p <= s
    ensures !(q <= s)
  {
    if q <= s {
      BeginningsNest(p, q, s);
    }
  }

  lemma UnderOneMark(mark: string, p: string, q: string)
    requires mark + p <= mark + q
    ensures p <= q
  {
    assert forall i | 0 <= i < |p| :: p[i] == (mark + p)[|mark| + i] == (mark + q)[|mark| + i] == q[i];
  }

  lemma MarkedBeginningsNest(mark: string, p: string, q: string, line: string)
    requires mark + p <= line && mark + q <= line
    ensures p <= q || q <= p
  {
    BeginningsNest(mark + p, mark + q, line);
    if mark + p <= mark + q {
      UnderOneMark(mark, p, q);
    } else {
      UnderOneMark(mark, q, p);
    }
  }

  lemma NameLineOfOther(d: Definition, k: Kind, q: string, line: string)
    requires Apart(d.prefix, q) && d.flow + NameMark(k) + q <= line
    ensures !IsOwn(d, line)
  {
    var mark := d.flow + NameMark(k);
    if mark + d.prefix <= line {
      MarkedBeginningsNest(mark, q, d.prefix, line);
    }
    assert mark <= line;
    assert line[|d.flow| + 1] == if k == Transforms then 't' else 'p';
  }

  lemma OtherOwnersLineIsKept(d: Definition, e: Definition, line: string)
    requires d.flow == e.flow && Apart(d.prefix, e.prefix) && IsOwn(e, line)
    ensures IsKept(d, line) && !IsEnabled(d.flow, line)
  {
    OwnIsDropped(e, line);
    if d.flow + NameMark(Transforms) + e.prefix <= line {
      NameLineOfOther(d, Transforms, e.prefix, line);
    } else {
      NameLineOfOther(d, Predicates, e.prefix, line);
    }
  }

  // ----- other flows -----

  /** The line belongs to the flow. */
  predicate OfFlow(flow: string, line: string) {
    flow + ['.'] <= line
  }

  function OfFlowBy(flow: string): string -> bool {
    line => OfFlow(flow, line)
  }

  lemma StartsWithDot(flow: string, mark: string, line: string)
    requires mark != "" && mark[0] == '.' && flow + mark <= line
    ensures OfFlow(flow, line)
  {
    assert (flow + mark)[..|flow| + 1] == flow + ['.'];
  }

  /** Every line an update looks for, drops or writes belongs to its flow. */
  lemma LinesOfTheFlow(d: Definition, line: string)
    ensures IsEnabled(d.flow, line) || !IsKept(d, line) ==> OfFlow(d.flow, line)
  {
    if IsEnabled(d.flow, line) {
      StartsWithDot(d.flow, ".enabled = true", line);
    }
    if IsList(d.flow, Transforms, line) {
      StartsWithDot(d.flow, ListMark(Transforms), line);
    }
    if IsList(d.flow, Predicates, line) {
      StartsWithDot(d.flow, ListMark(Predicates), line);
    }
    if IsOwn(d, line) {
      OwnLineOfTheFlow(d, line);
    }
  }

  lemma OwnLineOfTheFlow(d: Definition, line: string)
    requires IsOwn(d, line)
    ensures OfFlow(d.flow, line)
  {
    if d.flow + NameMark(Transforms) + d.prefix <= line {
      assert d.flow + NameMark(Transforms) <= line;
      StartsWithDot(d.flow, NameMark(Transforms), line);
    } else {
      assert d.flow + NameMark(Predicates) <= line;
      StartsWithDot(d.flow, NameMark(Predicates), line);
    }
  }

  /** Two different flows between clusters whose names have no dot. */
  ghost predicate ApartFlows(f: string, g: string) {
    f != g && Lacks(f, '.') && Lacks(g, '.')
  }

  lemma OtherFlowsLineIsKept(d: Definition, g: string, line: string)
    requires ApartFlows(d.flow, g) && OfFlow(g, line)
    ensures IsKept(d, line) && !IsEnabled(d.flow, line)
  {
    LinesOfTheFlow(d, line);
    if OfFlow(d.flow, line) {
      DotDecides(d.flow, g, line);
    }
  }

  lemma BlockIsOfTheFlow(d: Definition, lines: seq<string>, line: string)
    requires WellFormed(d) && line in BlockFor(d, lines)
    ensures OfFlow(d.flow, line)
  {
    BlockIsDropped(d, lines);
    var block := BlockFor(d, lines);
    var i :| 0 <= i < |block| && block[i] == line;
    assert !KeptBy(d)(block[i]);
    LinesOfTheFlow(d, line);
  }

  /** An update keeps the lines of every other flow, in order. */
  lemma OtherFlowsLinesStay(d: Definition, g: string, lines: seq<string>)
    requires WellFormed(d) && ApartFlows(d.flow, g)
    ensures Select(Update(d, lines), OfFlowBy(g)) == Select(lines, OfFlowBy(g))
  {
    var block := BlockFor(d, lines);
    forall line | OfFlowBy(g)(line) ensures KeptBy(d)(line) && !EnabledBy(d.flow)(line) {
      OtherFlowsLineIsKept(d, g, line);
    }
    forall i | 0 <= i < |block| ensures !OfFlowBy(g)(block[i]) {
      BlockIsOfTheFlow(d, lines, block[i]);
      if OfFlow(g, block[i]) {
        DotDecides(d.flow, g, block[i]);
      }
    }
    SelectNone(block, OfFlowBy(g));
    SelectWeave(lines, KeptBy(d), EnabledBy(d.flow), block, OfFlowBy(g));
  }

  /** Enabled and list lines of a flow are among its lines. */
  lemma ReadsItsFlow(flow: string, k: Kind, lines: seq<string>)
    ensures Enableds(flow, lines) == Select(Select(lines, OfFlowBy(flow)), EnabledBy(flow))
    ensures Listed(flow, k, lines) == Gather(Select(lines, OfFlowBy(flow)), NamesBy(flow, k))
  {
    forall line | EnabledBy(flow)(line) ensures OfFlowBy(flow)(line) {
      StartsWithDot(flow, ".enabled = true", line);
    }
    forall line | !OfFlowBy(flow)(line) ensures NamesBy(flow, k)(line) == [] {
      if IsList(flow, k, line) {
        StartsWithDot(flow, ListMark(k), line);
      }
    }
    SelectAgain(lines, EnabledBy(flow), OfFlowBy(flow));
    GatherOfSelect(lines, OfFlowBy(flow), NamesBy(flow, k));
  }

  /** An update leaves the enabled lines and the listed names of every other flow alone. */
  lemma OtherFlowsReadTheSame(d: Definition, g: string, k: Kind, lines: seq<string>)
    requires WellFormed(d) && ApartFlows(d.flow, g)
    ensures Enableds(g, Update(d, lines)) == Enableds(g, lines)
    ensures Listed(g, k, Update(d, lines)) == Listed(g, k, lines)
  {
    ReadsItsFlow(g, k, lines);
    ReadsItsFlow(g, k, Update(d, lines));
    OtherFlowsLinesStay(d, g, lines);
  }

  /** Lines drawn from plain lines and the block of another flow are plain. */
  lemma DrawnArePlain(d: Definition, e: Definition, lines: seq<string>, r: seq<string>, a: seq<string>, b: seq<string>)
    requires WellFormed(e) && ApartFlows(d.flow, e.flow) && DrawnFrom(r, a, b, BlockFor(e, lines))
    requires Plain(a, KeptBy(d), EnabledBy(d.flow)) && Plain(b, KeptBy(d), EnabledBy(d.flow))
    ensures Plain(r, KeptBy(d), EnabledBy(d.flow))
  {
    forall i | 0 <= i < |r| ensures KeptBy(d)(r[i]) && !EnabledBy(d.flow)(r[i]) {
      if r[i] in BlockFor(e, lines) {
        BlockIsOfTheFlow(e, lines, r[i]);
        OtherFlowsLineIsKept(d, e.flow, r[i]);
      }
    }
  }

  /** The lines of a flow an update looks for or writes are kept by updates of other flows. */
  lemma TightIsPlain(d: Definition, e: Definition, lines: seq<string>)
    requires WellFormed(d) && ApartFlows(d.flow, e.flow)
    ensures Plain(Enableds(d.flow, lines) + BlockFor(d, lines), KeptBy(e), EnabledBy(e.flow))
  {
    var tight := Enableds(d.flow, lines) + BlockFor(d, lines);
    SelectedSatisfy(lines, EnabledBy(d.flow));
    forall i | 0 <= i < |tight| ensures KeptBy(e)(tight[i]) && !EnabledBy(e.flow)(tight[i]) {
      if i < |Enableds(d.flow, lines)| {
        LinesOfTheFlow(d, tight[i]);
      } else {
        BlockIsOfTheFlow(d, lines, tight[i]);
      }
      OtherFlowsLineIsKept(e, d.flow, tight[i]);
    }
  }

  lemma SameBlockAfterOtherFlow(d: Definition, e: Definition, lines: seq<string>)
    requires WellFormed(e) && ApartFlows(d.flow, e.flow)
    ensures Enableds(d.flow, Update(e, lines)) == Enableds(d.flow, lines)
    ensures BlockFor(d, Update(e, lines)) == BlockFor(d, lines)
  {
    OtherFlowsReadTheSame(e, d.flow, Transforms, lines);
    OtherFlowsReadTheSame(e, d.flow, Predicates, lines);
  }

  /** A settled text is its parts, and the update of another flow edits around the tight piece. */
  lemma EditedAround(d: Definition, e: Definition, lines: seq<string>, before: seq<string>, tight: seq<string>,
                     after: seq<string>) returns (before': seq<string>, after': seq<string>)
    requires WellFormed(e) && ApartFlows(d.flow, e.flow) && lines == before + (tight + after)
    requires Plain(tight, KeptBy(e), EnabledBy(e.flow))
    requires Plain(before, KeptBy(d), EnabledBy(d.flow)) && Plain(after, KeptBy(d), EnabledBy(d.flow))
    ensures Update(e, lines) == before' + (tight + after')
    ensures Plain(before', KeptBy(d), EnabledBy(d.flow)) && Plain(after', KeptBy(d), EnabledBy(d.flow))
  {
    before', after' := WeaveAround(before, tight, after, KeptBy(e), EnabledBy(e.flow), BlockFor(e, lines));
    DrawnArePlain(d, e, lines, before', before, after);
    DrawnArePlain(d, e, lines, after', before, after);
  }

  /** A text that an update leaves as it is stays so when another flow is updated, to the line. */
  lemma OtherFlowsLeaveItSettled(d: Definition, e: Definition, lines: seq<string>)
    requires WellFormed(d) && WellFormed(e) && ApartFlows(d.flow, e.flow) && Update(d, lines) == lines
    ensures Update(d, Update(e, lines)) == Update(e, lines)
  {
    WovenIsItsParts(lines, KeptBy(d), EnabledBy(d.flow), BlockFor(d, lines));
    TightIsPlain(d, e, lines);
    var before, after := EditedAround(d, e, lines, Before(lines, KeptBy(d), EnabledBy(d.flow)),
                                      Enableds(d.flow, lines) + BlockFor(d, lines),
                                      After(lines, KeptBy(d), EnabledBy(d.flow)));
    SettledAgain(d, lines, Update(e, lines), before, after);
    SameBlockAfterOtherFlow(d, e, lines);
  }

  lemma SettledAgain(d: Definition, lines: seq<string>, r: seq<string>, before: seq<string>, after: seq<string>)
    requires WellFormed(d) && r == before + (Enableds(d.flow, lines) + BlockFor(d, lines) + after)
    requires Plain(before, KeptBy(d), EnabledBy(d.flow)) && Plain(after, KeptBy(d), EnabledBy(d.flow))
    ensures Weave(r, KeptBy(d), EnabledBy(d.flow), BlockFor(d, lines)) == r
  {
    SelectedSatisfy(lines, EnabledBy(d.flow));
    BlockIsDropped(d, lines);
    SettledParts(before, Enableds(d.flow, lines), BlockFor(d, lines), after, KeptBy(d), EnabledBy(d.flow));
  }

  lemma SettledParts(before: seq<string>, stops: seq<string>, block: seq<string>, after: seq<string>,
                     kept: string -> bool, stop: string -> bool)
    requires Plain(before, kept, stop) && Plain(after, kept, stop) && Dropped(block, kept, stop)
    requires Stops(stops, stop) && (stops == [] ==> block == [])
    ensures var r := before + (stops + block + after); Weave(r, kept, stop, block) == r
  {
    var r := before + (stops + block + after);
    if stops == [] {
      assert r == before + after;
      PlainStays(r, kept, stop);
    } else {
      assert r == before + (stops + (block + after));
      WovenParts(before, stops, block, after, kept, stop);
    }
  }

  /** The lines of `e` are out of reach for `d`: another flow, or another owner of the same flow. */
  ghost predicate OutOfReach(d: Definition, e: Definition) {
    if d.flow == e.flow then Apart(d.prefix, e.prefix) else ApartFlows(d.flow, e.flow)
  }

  /** One owner's update keeps every line of another owner on any flow, as often as it was there. */
  lemma OtherOwnersLinesStay(d: Definition, e: Definition, lines: seq<string>, line: string)
    requires WellFormed(d) && OutOfReach(d, e) && IsOwn(e, line)
    ensures multiset(Update(d, lines))[line] == multiset(lines)[line]
  {
    if d.flow == e.flow {
      OtherOwnersLineIsKept(d, e, line);
    } else {
      OwnLineOfTheFlow(e, line);
      OtherFlowsLineIsKept(d, e.flow, line);
    }
    SelectCount(lines, KeptBy(d), line);
    UpdateBag(d, lines);
    BlockIsDropped(d, lines);
    assert line !in BlockFor(d, lines);
  }

  /**
   The names of other owners stay in the lists, each as often as before, exactly when the flow has
   its enabled line; without it the list lines are dropped with every name in them.
   */
  lemma ForeignNamesStayExactly(d: Definition, k: Kind, lines: seq<string>, n: string)
    requires WellFormed(d) && NoLeak(d) && !(d.prefix <= n)
    ensures multiset(Listed(d.flow, k, Update(d, lines)))[n] == multiset(Listed(d.flow, k, lines))[n]
        <==> Enableds(d.flow, lines) != [] || n !in Listed(d.flow, k, lines)
  {
    SelectCount(Listed(d.flow, k, lines), ForeignTo(d.prefix), n);
    SelectCount(Listed(d.flow, k, Update(d, lines)), ForeignTo(d.prefix), n);
    if Enableds(d.flow, lines) != [] {
      ExtraAfterUpdate(d, k, lines);
    } else {
      ListedAfterUpdate(d, k, lines);
    }
  }

  // ----- commutation -----

  /** Two owners of one flow whose names read back as they are. */
  ghost predicate Independent(d: Definition, e: Definition) {
    && WellFormed(d) && WellFormed(e) && d.flow == e.flow && Apart(d.prefix, e.prefix)
    && AllClean(d.transforms) && AllClean(d.predicates) && AllClean(e.transforms) && AllClean(e.predicates)
  }

  lemma NamesOfOthersAreForeign(names: seq<string>, p: string, q: string)
    requires AllStartWith(names, p) && Apart(p, q) && AllClean(names)
    ensures Leak(names, q) == names
  {
    ReadClean(names);
    forall i | 0 <= i < |names| ensures ForeignTo(q)(names[i]) {
      ApartFromExtensions(p, q, names[i]);
    }
    SelectAll(names, ForeignTo(q));
  }

  /** The listed names that belong to neither of two owners. */
  function Neither(flow: string, k: Kind, lines: seq<string>, p: string, q: string): seq<string> {
    Select(Select(Listed(flow, k, lines), ForeignTo(p)), ForeignTo(q))
  }

  /** The names `e` lists after `d`: its own, those of `d`, and those of neither. */
  lemma NamesAfterBoth(d: Definition, e: Definition, k: Kind, lines: seq<string>)
    requires Independent(d, e) && Enableds(d.flow, lines) != []
    ensures multiset(AllNames(e, k, Update(d, lines)))
         == multiset(e.Names(k)) + multiset(d.Names(k)) + multiset(Neither(d.flow, k, lines, d.prefix, e.prefix))
  {
    ForeignAfterUpdate(d, k, lines, e.prefix);
    NamesOfOthersAreForeign(d.Names(k), d.prefix, e.prefix);
  }

  lemma Rearranged(x: seq<string>, y: seq<string>, a: seq<string>, b: seq<string>, c: seq<string>)
    requires multiset(x) == multiset(a) + multiset(b) + multiset(c)
    requires multiset(y) == multiset(b) + multiset(a) + multiset(c)
    ensures multiset(x) == multiset(y)
  {
  }

  lemma SameNames(d: Definition, e: Definition, k: Kind, lines: seq<string>)
    requires Independent(d, e) && Enableds(d.flow, lines) != []
    ensures multiset(AllNames(e, k, Update(d, lines))) == multiset(AllNames(d, k, Update(e, lines)))
  {
    NamesAfterBoth(d, e, k, lines);
    NamesAfterBoth(e, d, k, lines);
    SelectsCommute(Listed(d.flow, k, lines), ForeignTo(d.prefix), ForeignTo(e.prefix));
    Rearranged(AllNames(e, k, Update(d, lines)), AllNames(d, k, Update(e, lines)),
               e.Names(k), d.Names(k), Neither(d.flow, k, lines, d.prefix, e.prefix));
  }

  lemma ConfigIsKept(d: Definition, e: Definition)
    requires WellFormed(d) && d.flow == e.flow && Apart(d.prefix, e.prefix)
    ensures Keep(e, d.config) == d.config
  {
    forall i | 0 <= i < |d.config| ensures KeptBy(e)(d.config[i]) {
      OtherOwnersLineIsKept(e, d, d.config[i]);
    }
    SelectAll(d.config, KeptBy(e));
  }

  lemma KeepOfBlock(d: Definition, e: Definition, ts: seq<string>, ps: seq<string>)
    requires WellFormed(d) && d.flow == e.flow && Apart(d.prefix, e.prefix)
    ensures Keep(e, Block(d, ts, ps)) == d.config
  {
    ConfigIsKept(d, e);
    ListLinesAreDropped(e, Transforms, ts);
    ListLinesAreDropped(e, Predicates, ps);
    var tl, pl := ListLines(d.flow, Transforms, ts), ListLines(d.flow, Predicates, ps);
    SelectConcat(d.config + tl, pl, KeptBy(e));
    SelectConcat(d.config, tl, KeptBy(e));
    SelectNone(tl, KeptBy(e));
    SelectNone(pl, KeptBy(e));
  }

  /** What `e` keeps of the text after `d`. */
  lemma KeepAfterUpdate(d: Definition, e: Definition, lines: seq<string>)
    requires Independent(d, e) && Enableds(d.flow, lines) != []
    ensures multiset(Keep(e, Update(d, lines))) == multiset(Keep(e, Keep(d, lines))) + multiset(d.config)
  {
    var block := BlockFor(d, lines);
    UpdateBag(d, lines);
    SelectPermutes(Update(d, lines), Keep(d, lines) + block, KeptBy(e));
    SelectConcat(Keep(d, lines), block, KeptBy(e));
    KeepOfBlock(d, e, AllNames(d, Transforms, lines), AllNames(d, Predicates, lines));
  }

  lemma BlockBag(d: Definition, ts: seq<string>, ps: seq<string>)
    ensures multiset(Block(d, ts, ps)) == multiset(d.config)
      + multiset(ListLines(d.flow, Transforms, ts)) + multiset(ListLines(d.flow, Predicates, ps))
  {
  }

  /** The whole text after `d` and then `e`. */
  lemma BothBag(d: Definition, e: Definition, lines: seq<string>)
    requires Independent(d, e) && Enableds(d.flow, lines) != []
    ensures var once := Update(d, lines);
      multiset(Update(e, once)) == multiset(Keep(e, Keep(d, lines))) + multiset(d.config) + multiset(e.config)
        + multiset(ListLines(d.flow, Transforms, AllNames(e, Transforms, once)))
        + multiset(ListLines(d.flow, Predicates, AllNames(e, Predicates, once)))
  {
    var once := Update(d, lines);
    UpdateKeepsParts(d, lines);
    UpdateBag(e, once);
    KeepAfterUpdate(d, e, lines);
    BlockBag(e, AllNames(e, Transforms, once), AllNames(e, Predicates, once));
  }

  lemma SameListLines(d: Definition, e: Definition, k: Kind, lines: seq<string>)
    requires Independent(d, e) && Enableds(d.flow, lines) != []
    ensures ListLines(d.flow, k, AllNames(e, k, Update(d, lines)))
      == ListLines(d.flow, k, AllNames(d, k, Update(e, lines)))
  {
    SameNames(d, e, k, lines);
    ListLinesAreCanonical(d.flow, k, AllNames(e, k, Update(d, lines)), AllNames(d, k, Update(e, lines)));
  }

  lemma RearrangedLines(x: seq<string>, y: seq<string>, kept: seq<string>, a: seq<string>, b: seq<string>,
                        ts: seq<string>, ps: seq<string>)
    requires multiset(x) == multiset(kept) + multiset(a) + multiset(b) + multiset(ts) + multiset(ps)
    requires multiset(y) == multiset(kept) + multiset(b) + multiset(a) + multiset(ts) + multiset(ps)
    ensures multiset(x) == multiset(y)
  {
  }

  lemma EnabledFlowCommutes(d: Definition, e: Definition, lines: seq<string>)
    requires Independent(d, e) && Enableds(d.flow, lines) != []
    ensures multiset(Update(e, Update(d, lines))) == multiset(Update(d, Update(e, lines)))
  {
    var x, y := Update(d, lines), Update(e, lines);
    BothBag(d, e, lines);
    BothBag(e, d, lines);
    SelectsCommute(lines, KeptBy(d), KeptBy(e));
    SameListLines(d, e, Transforms, lines);
    SameListLines(d, e, Predicates, lines);
    RearrangedLines(Update(e, x), Update(d, y), Keep(e, Keep(d, lines)), d.config, e.config,
                    ListLines(d.flow, Transforms, AllNames(e, Transforms, x)),
                    ListLines(d.flow, Predicates, AllNames(e, Predicates, x)));
  }

  /** Without an enabled line both updates only drop lines. */
  lemma BothOnlyDrop(d: Definition, e: Definition, lines: seq<string>)
    requires WellFormed(d) && d.flow == e.flow && Enableds(d.flow, lines) == []
    ensures multiset(Update(e, Update(d, lines))) == multiset(Keep(e, Keep(d, lines)))
  {
    UpdateKeepsParts(d, lines);
    UpdateBag(d, lines);
    UpdateBag(e, Update(d, lines));
    SelectPermutes(Update(d, lines), Keep(d, lines), KeptBy(e));
  }

  lemma BlockOfOtherFlowIsKept(d: Definition, e: Definition, lines: seq<string>)
    requires WellFormed(d) && ApartFlows(d.flow, e.flow)
    ensures Keep(e, BlockFor(d, lines)) == BlockFor(d, lines)
  {
    var block := BlockFor(d, lines);
    forall i | 0 <= i < |block| ensures KeptBy(e)(block[i]) {
      BlockIsOfTheFlow(d, lines, block[i]);
      OtherFlowsLineIsKept(e, d.flow, block[i]);
    }
    SelectAll(block, KeptBy(e));
  }

  /** The whole text after updates of two different flows: each adds the block it adds alone. */
  lemma TwoFlowsBag(d: Definition, e: Definition, lines: seq<string>)
    requires WellFormed(d) && ApartFlows(d.flow, e.flow)
    ensures multiset(Update(e, Update(d, lines)))
         == multiset(Keep(e, Keep(d, lines))) + multiset(BlockFor(d, lines)) + multiset(BlockFor(e, lines))
  {
    var once, block := Update(d, lines), BlockFor(d, lines);
    UpdateBag(d, lines);
    UpdateBag(e, once);
    OtherFlowsReadTheSame(d, e.flow, Transforms, lines);
    OtherFlowsReadTheSame(d, e.flow, Predicates, lines);
    assert BlockFor(e, once) == BlockFor(e, lines);
    SelectPermutes(once, Keep(d, lines) + block, KeptBy(e));
    SelectConcat(Keep(d, lines), block, KeptBy(e));
    BlockOfOtherFlowIsKept(d, e, lines);
  }

  lemma FlowsCommute(d: Definition, e: Definition, lines: seq<string>)
    requires WellFormed(d) && WellFormed(e) && ApartFlows(d.flow, e.flow)
    ensures multiset(Update(e, Update(d, lines))) == multiset(Update(d, Update(e, lines)))
  {
    var x, y := Update(e, Update(d, lines)), Update(d, Update(e, lines));
    TwoFlowsBag(d, e, lines);
    TwoFlowsBag(e, d, lines);
    SelectsCommute(lines, KeptBy(d), KeptBy(e));
    SameParts(x, y, Keep(e, Keep(d, lines)), BlockFor(d, lines), BlockFor(e, lines));
  }

  lemma SameParts(x: seq<string>, y: seq<string>, kept: seq<string>, a: seq<string>, b: seq<string>)
    requires multiset(x) == multiset(kept) + multiset(a) + multiset(b)
    requires multiset(y) == multiset(kept) + multiset(b) + multiset(a)
    ensures multiset(x) == multiset(y)
  {
  }

  lemma DisabledFlowCommutes(d: Definition, e: Definition, lines: seq<string>)
    requires WellFormed(d) && WellFormed(e) && d.flow == e.flow && Enableds(d.flow, lines) == []
    ensures multiset(Update(e, Update(d, lines))) == multiset(Update(d, Update(e, lines)))
  {
    BothOnlyDrop(d, e, lines);
    BothOnlyDrop(e, d, lines);
    SelectsCommute(lines, KeptBy(d), KeptBy(e));
  }

  /** Two updates that do not disturb one another: of different flows, or of independent owners of one flow. */
  ghost predicate Compatible(d: Definition, e: Definition) {
    && WellFormed(d) && WellFormed(e)
    && if d.flow == e.flow then d == e || Independent(d, e) else ApartFlows(d.flow, e.flow)
  }

  /** Updates may be applied in either order: the resulting lines are the same up to order. */
  lemma UpdatesCommute(d: Definition, e: Definition, lines: seq<string>)
    requires Compatible(d, e)
    ensures multiset(Update(e, Update(d, lines))) == multiset(Update(d, Update(e, lines)))
  {
    if d.flow != e.flow {
      FlowsCommute(d, e, lines);
    } else if d != e {
      if Enableds(d.flow, lines) == [] {
        DisabledFlowCommutes(d, e, lines);
      } else {
        EnabledFlowCommutes(d, e, lines);
      }
    }
  }

  /** An update depends on the lines only up to their order, if the order of its result does not matter. */
  lemma UpdateRespectsBags(d: Definition, lines: seq<string>, other: seq<string>)
    requires multiset(lines) == multiset(other)
    ensures multiset(Update(d, lines)) == multiset(Update(d, other))
  {
    UpdateBag(d, lines);
    UpdateBag(d, other);
    SelectPermutes(lines, other, KeptBy(d));
    SelectPermutes(lines, other, EnabledBy(d.flow));
    SameExtra(d, Transforms, lines, other);
    SameExtra(d, Predicates, lines, other);
    SameBlock(d, AllNames(d, Transforms, lines), AllNames(d, Predicates, lines),
              AllNames(d, Transforms, other), AllNames(d, Predicates, other));
    assert |Enableds(d.flow, lines)| == |multiset(Enableds(d.flow, lines))|;
    assert |Enableds(d.flow, other)| == |multiset(Enableds(d.flow, other))|;
  }

  lemma SameExtra(d: Definition, k: Kind, lines: seq<string>, other: seq<string>)
    requires multiset(lines) == multiset(other)
    ensures multiset(AllNames(d, k, lines)) == multiset(AllNames(d, k, other))
  {
    GatherPermutes(lines, other, NamesBy(d.flow, k));
    SelectPermutes(Listed(d.flow, k, lines), Listed(d.flow, k, other), ForeignTo(d.prefix));
  }

  // ----- referential closure -----

  /** Every listed name has its type line. */
  ghost predicate Closed(flow: string, k: Kind, lines: seq<string>) {
    forall n | n in Listed(flow, k, lines) :: HasTypeLine(lines, flow, k, n)
  }

  /** The owner's prefix cannot reach into the `.type` part of another owner's line. */
  lemma PrefixStaysInName(p: string, n: string, text: string)
    requires GoodPrefix(p) && p <= text && n + ".type = " <= text
    ensures p <= n
  {
    assert forall i | 0 <= i < |p| :: p[i] in p && p[i] == text[i];
    assert forall i | 0 <= i < 8 :: text[|n| + i] == ".type = "[i];
    assert text[|n| + 5] == ' ';
    assert |p| <= |n| + 5;
    assert text[|n|] == '.' && text[|n| + 1] == 't' && text[|n| + 2] == 'y' && text[|n| + 3] == 'p';
    assert text[|n| + 4] == 'e';
    assert |p| <= |n|;
    assert forall i | 0 <= i < |n| :: n[i] == text[i];
  }

  lemma Behind(mark: string, rest: string, line: string)
    requires mark + rest <= line
    ensures mark <= line && rest <= line[|mark|..]
  {
    assert forall i | 0 <= i < |mark| :: mark[i] == (mark + rest)[i] == line[i];
    assert forall i | 0 <= i < |rest| :: rest[i] == (mark + rest)[|mark| + i] == line[|mark| + i];
  }

  lemma TypeLineIsForeign(d: Definition, k: Kind, n: string, line: string)
    requires GoodPrefix(d.prefix) && d.flow + NameMark(k) + (n + ".type = ") <= line
    ensures d.flow + NameMark(k) + d.prefix <= line ==> d.prefix <= n
  {
    var mark := d.flow + NameMark(k);
    Behind(mark, n + ".type = ", line);
    if mark + d.prefix <= line {
      Behind(mark, d.prefix, line);
      PrefixStaysInName(d.prefix, n, line[|mark|..]);
    }
  }

  /** A line belongs to a transform or to a predicate. */
  lemma OneKind(flow: string, line: string, p: string, q: string)
    ensures !(flow + NameMark(Transforms) + p <= line && flow + NameMark(Predicates) + q <= line)
  {
    var t, r := flow + NameMark(Transforms) + p, flow + NameMark(Predicates) + q;
    assert t[|flow| + 1] == 't' && r[|flow| + 1] == 'p';
  }

  lemma TypeLineIsKept(d: Definition, k: Kind, n: string, line: string)
    requires GoodPrefix(d.prefix) && !(d.prefix <= n) && d.flow + NameMark(k) + (n + ".type = ") <= line
    ensures IsKept(d, line)
  {
    TypeLineIsForeign(d, k, n, line);
    NameLinesAreNoLists(d.flow, k, n + ".type = ", line);
    if k == Transforms {
      OneKind(d.flow, line, n + ".type = ", d.prefix);
    } else {
      OneKind(d.flow, line, d.prefix, n + ".type = ");
    }
  }

  lemma ReadBackNames(names: seq<string>, n: string)
    requires AllClean(names) && n in Gather(Sort(names), Reader())
    ensures n in names
  {
    SortPermutes(names);
    GatherPermutes(Sort(names), names, Reader());
    assert n in multiset(Gather(Sort(names), Reader()));
    ReadClean(names);
    assert n in multiset(names);
  }

  lemma NamesReadBack(d: Definition, k: Kind, lines: seq<string>, n: string)
    requires WellFormed(d) && AllClean(d.Names(k)) && n in Listed(d.flow, k, Update(d, lines))
    ensures Enableds(d.flow, lines) != [] && (n in d.Names(k) || n in Extra(d, k, lines))
  {
    ListedAfterUpdate(d, k, lines);
    ExtraIsClean(d, k, lines);
    ReadBackNames(AllNames(d, k, lines), n);
  }

  lemma LineOfUpdate(d: Definition, lines: seq<string>, line: string)
    requires line in BlockFor(d, lines) || (line in lines && IsKept(d, line))
    ensures line in Update(d, lines)
  {
    UpdateBag(d, lines);
    SelectMember(lines, KeptBy(d), line);
    assert line in multiset(Update(d, lines));
  }

  lemma OwnTypeLineStays(d: Definition, k: Kind, lines: seq<string>, n: string)
    requires Enableds(d.flow, lines) != [] && HasTypeLine(d.config, d.flow, k, n)
    ensures HasTypeLine(Update(d, lines), d.flow, k, n)
  {
    var line :| line in d.config && d.flow + NameMark(k) + (n + ".type = ") <= line;
    LineOfUpdate(d, lines, line);
  }

  lemma ForeignTypeLineStays(d: Definition, k: Kind, lines: seq<string>, n: string)
    requires GoodPrefix(d.prefix) && !(d.prefix <= n) && HasTypeLine(lines, d.flow, k, n)
    ensures HasTypeLine(Update(d, lines), d.flow, k, n)
  {
    var line :| line in lines && d.flow + NameMark(k) + (n + ".type = ") <= line;
    TypeLineIsKept(d, k, n, line);
    LineOfUpdate(d, lines, line);
  }

  /** If every listed name has its type line before an update, every listed name has it afterwards. */
  lemma UpdateKeepsClosure(d: Definition, k: Kind, lines: seq<string>)
    requires WellFormed(d) && GoodPrefix(d.prefix) && AllClean(d.Names(k))
    requires forall n | n in d.Names(k) :: HasTypeLine(d.config, d.flow, k, n)
    requires Closed(d.flow, k, lines)
    ensures Closed(d.flow, k, Update(d, lines))
  {
    forall n | n in Listed(d.flow, k, Update(d, lines)) ensures HasTypeLine(Update(d, lines), d.flow, k, n) {
      NamesReadBack(d, k, lines, n);
      if n in d.Names(k) {
        OwnTypeLineStays(d, k, lines, n);
      } else {
        SelectMember(Listed(d.flow, k, lines), ForeignTo(d.prefix), n);
        ForeignTypeLineStays(d, k, lines, n);
      }
    }
  }

  // ----- owner prefixes -----

  /** `name_namespace_` */
  function OwnerPrefix(name: string, namespace: string): string {
    name + "_" + namespace + "_"
  }

  /** Host-name syntax: not empty, no underscore, no comma and no blank. */
  ghost predicate HostName(s: string) {
    s != "" && Lacks(s, '_') && Lacks(s, ',') && forall c | c in s :: c !in WHITE
  }

  lemma OwnerPrefixIsGood(name: string, namespace: string)
    requires HostName(name) && HostName(namespace)
    ensures GoodPrefix(OwnerPrefix(name, namespace)) && Lacks(OwnerPrefix(name, namespace), ',')
    ensures Tight(OwnerPrefix(name, namespace), WHITE)
  {
    assert OwnerPrefix(name, namespace)[0] == name[0];
  }

  /** The first two parts between underscores determine the owner. */
  lemma OwnerPrefixDecides(name: string, namespace: string, rest: string)
    requires Lacks(name, '_') && Lacks(namespace, '_')
    ensures Split(OwnerPrefix(name, namespace) + rest, '_') == [name, namespace] + Split(rest, '_')
  {
    assert OwnerPrefix(name, namespace) + rest == name + ['_'] + (namespace + ['_'] + rest);
    SplitHead(name, '_', namespace + ['_'] + rest);
    SplitHead(namespace, '_', rest);
  }

  lemma PrefixNamesTheOwner(name: string, namespace: string, name': string, namespace': string)
    requires Lacks(name, '_') && Lacks(namespace, '_') && Lacks(name', '_') && Lacks(namespace', '_')
    requires OwnerPrefix(name, namespace) <= OwnerPrefix(name', namespace')
    ensures name == name' && namespace == namespace'
  {
    var p, q := OwnerPrefix(name, namespace), OwnerPrefix(name', namespace');
    assert p + q[|p|..] == q && q + "" == q;
    OwnerPrefixDecides(name, namespace, q[|p|..]);
    OwnerPrefixDecides(name', namespace', "");
    assert name == Split(q, '_')[0] && namespace == Split(q, '_')[1];
  }

  /** Prefixes of different owners are never beginnings of one another. */
  lemma OwnersAreApart(name: string, namespace: string, name': string, namespace': string)
    requires Lacks(name, '_') && Lacks(namespace, '_') && Lacks(name', '_') && Lacks(namespace', '_')
    ensures (name == name' && namespace == namespace')
      || Apart(OwnerPrefix(name, namespace), OwnerPrefix(name', namespace'))
  {
    if OwnerPrefix(name, namespace) <= OwnerPrefix(name', namespace') {
      PrefixNamesTheOwner(name, namespace, name', namespace');
    } else if OwnerPrefix(name', namespace') <= OwnerPrefix(name, namespace) {
      PrefixNamesTheOwner(name', namespace', name, namespace);
    }
  }
}
