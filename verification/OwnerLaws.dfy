/** What the transformation updates of whole reconciles, over all flows of their owners, do to one another. */
module OwnerLaws {
  import opened Options
  import opened Text
  import opened Transformation
  import opened TransformationLaws
  import opened TransformationConfigurator
  import opened TopicRuns

  // ----- updates of many flows -----

  ghost predicate AllCompatible(p: seq<string>, f: string -> Option<Definition>, e: Definition) {
    forall x | x in p && f(x).Some? :: Compatible(f(x).value, e)
  }

  /** One more update may come before or after the updates of a list of flows. */
  lemma {:induction false} UpdateMovesInFront(lines: seq<string>, p: seq<string>, f: string -> Option<Definition>,
                                              e: Definition)
    requires AllCompatible(p, f, e)
    ensures multiset(Update(e, Transformed(lines, p, f))) == multiset(Transformed(Update(e, lines), p, f))
    decreases |p|
  {
    if p != [] {
      var seen, last := p[..|p| - 1], p[|p| - 1];
      assert AllCompatible(seen, f, e);
      UpdateMovesInFront(lines, seen, f, e);
      if f(last).Some? {
        assert last in p;
        var d, before := f(last).value, Transformed(lines, seen, f);
        UpdatesCommute(d, e, before);
        UpdateRespectsBags(d, Update(e, before), Transformed(Update(e, lines), seen, f));
      }
    }
  }

  /** Two lists of updates that do not disturb one another may be applied in either order. */
  lemma {:induction false} TransformedCommutes(lines: seq<string>, p: seq<string>, f: string -> Option<Definition>,
                                               q: seq<string>, g: string -> Option<Definition>)
    requires forall y | y in q && g(y).Some? :: AllCompatible(p, f, g(y).value)
    ensures multiset(Transformed(Transformed(lines, p, f), q, g))
      == multiset(Transformed(Transformed(lines, q, g), p, f))
    decreases |q|
  {
    if q != [] {
      var seen, last := q[..|q| - 1], q[|q| - 1];
      TransformedCommutes(lines, p, f, seen, g);
      if g(last).Some? {
        assert last in q;
        var e, one, two := g(last).value, Transformed(Transformed(lines, p, f), seen, g), Transformed(lines, seen, g);
        UpdateRespectsBags(e, one, Transformed(two, p, f));
        UpdateMovesInFront(two, p, f, e);
      }
    }
  }

  /** The updates are those of their flows, and each leaves a text that it has updated. */
  ghost predicate SettlingUpdates(p: seq<string>, f: string -> Option<Definition>) {
    forall x | x in p && f(x).Some? :: var d := f(x).value; WellFormed(d) && NoLeak(d) && d.flow == x && Lacks(x, '.')
  }

  lemma SettlingFewer(p: seq<string>, f: string -> Option<Definition>)
    requires p != [] && SettlingUpdates(p, f)
    ensures SettlingUpdates(p[..|p| - 1], f)
  {
  }

  /** After the updates of all flows each of them would change nothing. */
  lemma {:induction false} TransformedIsSettled(lines: seq<string>, p: seq<string>, f: string -> Option<Definition>,
                                                x: string)
    requires SettlingUpdates(p, f) && x in p && f(x).Some?
    ensures Update(f(x).value, Transformed(lines, p, f)) == Transformed(lines, p, f)
    decreases |p|
  {
    var seen, last := p[..|p| - 1], p[|p| - 1];
    var before, d := Transformed(lines, seen, f), f(x).value;
    SettlingFewer(p, f);
    assert p == seen + [last];
    if x != last {
      TransformedIsSettled(lines, seen, f, x);
      if f(last).Some? {
        OtherFlowsLeaveItSettled(d, f(last).value, before);
      }
    } else {
      IdempotentExactly(d, before);
    }
  }

  lemma {:induction false} SettledStaysThroughout(lines: seq<string>, p: seq<string>, f: string -> Option<Definition>)
    requires forall x | x in p && f(x).Some? :: Update(f(x).value, lines) == lines
    ensures Transformed(lines, p, f) == lines
    decreases |p|
  {
    if p != [] {
      SettledStaysThroughout(lines, p[..|p| - 1], f);
    }
  }

  /** Updating all flows twice is updating them once, to the line. */
  lemma TransformedIsIdempotent(lines: seq<string>, p: seq<string>, f: string -> Option<Definition>)
    requires SettlingUpdates(p, f)
    ensures Transformed(Transformed(lines, p, f), p, f) == Transformed(lines, p, f)
  {
    forall x | x in p && f(x).Some? ensures Update(f(x).value, Transformed(lines, p, f)) == Transformed(lines, p, f) {
      TransformedIsSettled(lines, p, f, x);
    }
    SettledStaysThroughout(Transformed(lines, p, f), p, f);
  }

  /** Every line out of reach of all updates stays, as often as it was there. */
  lemma {:induction false} TransformedKeepsLines(lines: seq<string>, p: seq<string>, f: string -> Option<Definition>,
                                                 e: Definition, line: string)
    requires IsOwn(e, line)
    requires forall x | x in p && f(x).Some? :: WellFormed(f(x).value) && OutOfReach(f(x).value, e)
    ensures multiset(Transformed(lines, p, f))[line] == multiset(lines)[line]
    decreases |p|
  {
    if p != [] {
      var seen, last := p[..|p| - 1], p[|p| - 1];
      TransformedKeepsLines(lines, seen, f, e, line);
      if f(last).Some? {
        assert last in p;
        OtherOwnersLinesStay(f(last).value, e, Transformed(lines, seen, f), line);
      }
    }
  }

  // ----- listed names -----

  /** The updates are those of their flows, on behalf of an owner whose names do not leak and do not include `n`. */
  ghost predicate ForeignUpdates(p: seq<string>, f: string -> Option<Definition>, n: string) {
    forall x | x in p && f(x).Some? :: var d := f(x).value;
      WellFormed(d) && NoLeak(d) && d.flow == x && Lacks(x, '.') && !(d.prefix <= n)
  }

  ghost predicate Edits(p: seq<string>, f: string -> Option<Definition>, flow: string) {
    flow in p && f(flow).Some?
  }

  lemma UpdateKeepsCount(d: Definition, k: Kind, lines: seq<string>, flow: string, n: string)
    requires WellFormed(d) && NoLeak(d) && Lacks(d.flow, '.') && Lacks(flow, '.') && !(d.prefix <= n)
    ensures Enableds(flow, Update(d, lines)) == Enableds(flow, lines)
    ensures multiset(Listed(flow, k, Update(d, lines)))[n]
         == if flow == d.flow && Enableds(flow, lines) == [] then 0 else multiset(Listed(flow, k, lines))[n]
  {
    if flow == d.flow {
      UpdateKeepsParts(d, lines);
      ForeignNamesStayExactly(d, k, lines, n);
      ListedAfterUpdate(d, k, lines);
    } else {
      OtherFlowsReadTheSame(d, flow, k, lines);
    }
  }

  /**
   A foreign name stays listed on every flow, except that a flow that is edited without an enabled line loses
   its lists.
   */
  lemma {:induction false} TransformedKeepsNames(lines: seq<string>, p: seq<string>, f: string -> Option<Definition>,
                                                 k: Kind, flow: string, n: string)
    requires ForeignUpdates(p, f, n) && Lacks(flow, '.')
    ensures Enableds(flow, Transformed(lines, p, f)) == Enableds(flow, lines)
    ensures multiset(Listed(flow, k, Transformed(lines, p, f)))[n]
         == if Edits(p, f, flow) && Enableds(flow, lines) == [] then 0 else multiset(Listed(flow, k, lines))[n]
    decreases |p|
  {
    if p != [] {
      var seen, last := p[..|p| - 1], p[|p| - 1];
      assert p == seen + [last];
      TransformedKeepsNames(lines, seen, f, k, flow, n);
      if f(last).Some? {
        UpdateKeepsCount(f(last).value, k, Transformed(lines, seen, f), flow, n);
      }
    }
  }

  // ----- updates on behalf of one prefix -----

  /** A definition for a flow with the prefix: own lines only, and clean names that do not leak. */
  ghost predicate Tidy(d: Definition, flow: string, prefix: string) {
    && WellFormed(d) && d.flow == flow && d.prefix == prefix && NoLeak(d)
    && AllClean(d.transforms) && AllClean(d.predicates)
  }

  ghost predicate Owned(f: string -> Option<Definition>, prefix: string) {
    forall x | f(x).Some? :: Tidy(f(x).value, x, prefix)
  }

  ghost predicate DotFree(p: seq<string>) {
    forall x | x in p :: Lacks(x, '.')
  }

  lemma ApartAreCompatible(d: Definition, x: string, prefix: string, e: Definition, y: string, other: string)
    requires Tidy(d, x, prefix) && Tidy(e, y, other) && Lacks(x, '.') && Lacks(y, '.') && Apart(prefix, other)
    ensures Compatible(d, e)
  {
  }

  lemma ApartAllCompatible(p: seq<string>, f: string -> Option<Definition>, prefix: string, e: Definition, y: string,
                           other: string)
    requires Owned(f, prefix) && Tidy(e, y, other) && DotFree(p) && Lacks(y, '.') && Apart(prefix, other)
    ensures AllCompatible(p, f, e)
  {
    forall x | x in p && f(x).Some? ensures Compatible(f(x).value, e) {
      ApartAreCompatible(f(x).value, x, prefix, e, y, other);
    }
  }

  lemma OwnedCommute(lines: seq<string>, p: seq<string>, f: string -> Option<Definition>, prefix: string,
                     q: seq<string>, g: string -> Option<Definition>, other: string)
    requires Owned(f, prefix) && Owned(g, other) && Apart(prefix, other) && DotFree(p) && DotFree(q)
    ensures multiset(Transformed(Transformed(lines, p, f), q, g))
      == multiset(Transformed(Transformed(lines, q, g), p, f))
  {
    forall y | y in q && g(y).Some? ensures AllCompatible(p, f, g(y).value) {
      ApartAllCompatible(p, f, prefix, g(y).value, y, other);
    }
    TransformedCommutes(lines, p, f, q, g);
  }

  lemma OwnedIsIdempotent(lines: seq<string>, p: seq<string>, f: string -> Option<Definition>, prefix: string)
    requires Owned(f, prefix) && DotFree(p)
    ensures Transformed(Transformed(lines, p, f), p, f) == Transformed(lines, p, f)
  {
    forall x | x in p && f(x).Some?
      ensures var d := f(x).value; WellFormed(d) && NoLeak(d) && d.flow == x && Lacks(x, '.')
    {
      assert Tidy(f(x).value, x, prefix);
    }
    TransformedIsIdempotent(lines, p, f);
  }

  lemma OwnedKeepsLines(lines: seq<string>, p: seq<string>, f: string -> Option<Definition>, prefix: string,
                        e: Definition, line: string)
    requires Owned(f, prefix) && DotFree(p) && Lacks(e.flow, '.') && Apart(prefix, e.prefix) && IsOwn(e, line)
    ensures multiset(Transformed(lines, p, f))[line] == multiset(lines)[line]
  {
    forall x | x in p && f(x).Some? ensures WellFormed(f(x).value) && OutOfReach(f(x).value, e) {
      assert Tidy(f(x).value, x, prefix);
    }
    TransformedKeepsLines(lines, p, f, e, line);
  }

  lemma OwnedKeepsNames(lines: seq<string>, p: seq<string>, f: string -> Option<Definition>, prefix: string,
                        k: Kind, flow: string, n: string)
    requires Owned(f, prefix) && DotFree(p) && Lacks(flow, '.') && !(prefix <= n)
    ensures multiset(Listed(flow, k, Transformed(lines, p, f)))[n]
         == if Edits(p, f, flow) && Enableds(flow, lines) == [] then 0 else multiset(Listed(flow, k, lines))[n]
  {
    forall x | x in p && f(x).Some?
      ensures var d := f(x).value; WellFormed(d) && NoLeak(d) && d.flow == x && Lacks(x, '.') && !(d.prefix <= n)
    {
      assert Tidy(f(x).value, x, prefix);
    }
    TransformedKeepsNames(lines, p, f, k, flow, n);
  }

  // ----- owners -----

  /** A custom resource with a transformation section; `subst` is the replication prefix of each flow. */
  datatype Owner = Owner(name: string, namespace: string, request: Request, subst: string -> string)

  ghost function Prefix(o: Owner): string {
    OwnerPrefix(o.name, o.namespace)
  }

  ghost function DefinitionsBy(o: Owner): string -> Option<Definition> {
    flow => DefinitionOf(o.request, flow, Prefix(o), o.subst(flow))
  }

  /** A name without commas that ends in no blank. */
  ghost predicate PlainName(name: string) {
    Lacks(name, ',') && (name == "" || name[|name| - 1] !in WHITE)
  }

  /** Kubernetes names, and plain names of transforms and predicates. */
  ghost predicate GoodOwner(o: Owner) {
    && HostName(o.name) && HostName(o.namespace)
    && (forall i | 0 <= i < |o.request.transforms| :: PlainName(o.request.transforms[i].name))
    && (forall i | 0 <= i < |o.request.guards| :: PlainName(o.request.guards[i].name))
  }

  ghost predicate DifferentOwners(o: Owner, o': Owner) {
    o.name != o'.name || o.namespace != o'.namespace
  }

  lemma FullNameIsClean(prefix: string, name: string)
    requires GoodPrefix(prefix) && Lacks(prefix, ',') && Tight(prefix, WHITE) && PlainName(name)
    ensures CleanName(prefix + name)
  {
    var full := prefix + name;
    assert full[0] == prefix[0];
    assert full[|full| - 1] == if name == "" then prefix[|prefix| - 1] else name[|name| - 1];
  }

  ghost predicate AllPlain(names: seq<string>) {
    forall i | 0 <= i < |names| :: PlainName(names[i])
  }

  /** Plain names behind an owner's prefix are clean and do not leak. */
  lemma FullNamesAreClean(prefix: string, names: seq<string>, full: seq<string>)
    requires GoodPrefix(prefix) && Lacks(prefix, ',') && Tight(prefix, WHITE) && AllPlain(names)
    requires Prefixed(full, prefix, names)
    ensures AllClean(full) && Leak(full, prefix) == []
  {
    forall i | 0 <= i < |full| ensures CleanName(full[i]) && prefix <= full[i] {
      FullNameIsClean(prefix, names[i]);
    }
    CommaFreeNamesDoNotLeak(full, prefix);
  }

  /** The names are the plain ones with the prefix in front. */
  ghost predicate Prefixed(full: seq<string>, prefix: string, plain: seq<string>) {
    |full| == |plain| && forall i | 0 <= i < |plain| :: full[i] == prefix + plain[i]
  }

  ghost function TransformNames(request: Request): seq<string> {
    seq(|request.transforms|, i requires 0 <= i < |request.transforms| => request.transforms[i].name)
  }

  ghost function GuardNames(request: Request): seq<string> {
    seq(|request.guards|, i requires 0 <= i < |request.guards| => request.guards[i].name)
  }

  lemma DefinedNames(request: Request, flow: string, prefix: string, subst: string)
    requires DefinitionOf(request, flow, prefix, subst).Some?
    ensures var d := DefinitionOf(request, flow, prefix, subst).value;
      && d.flow == flow && d.prefix == prefix
      && Prefixed(d.transforms, prefix, TransformNames(request)) && Prefixed(d.predicates, prefix, GuardNames(request))
  {
  }

  lemma TidyByNames(d: Definition, prefix: string, ts: seq<string>, gs: seq<string>)
    requires WellFormed(d) && d.prefix == prefix
    requires Prefixed(d.transforms, prefix, ts) && Prefixed(d.predicates, prefix, gs)
    requires GoodPrefix(prefix) && Lacks(prefix, ',') && Tight(prefix, WHITE) && AllPlain(ts) && AllPlain(gs)
    ensures Tidy(d, d.flow, prefix)
  {
    FullNamesAreClean(prefix, ts, d.transforms);
    FullNamesAreClean(prefix, gs, d.predicates);
  }

  /** The definition of a good owner for a flow is tidy. */
  lemma OwnersDefinition(o: Owner, flow: string)
    requires GoodOwner(o) && DefinitionsBy(o)(flow).Some?
    ensures Tidy(DefinitionsBy(o)(flow).value, flow, Prefix(o))
  {
    assert DefinitionsBy(o)(flow) == DefinitionOf(o.request, flow, Prefix(o), o.subst(flow));
    DefinedNames(o.request, flow, Prefix(o), o.subst(flow));
    var d := DefinitionOf(o.request, flow, Prefix(o), o.subst(flow)).value;
    DefinitionsAreWellFormed(o.request, d, o.subst(flow));
    OwnerPrefixIsGood(o.name, o.namespace);
    TidyByNames(d, Prefix(o), TransformNames(o.request), GuardNames(o.request));
  }

  lemma OwnersAreOwned(o: Owner)
    requires GoodOwner(o)
    ensures Owned(DefinitionsBy(o), Prefix(o))
  {
    forall x | DefinitionsBy(o)(x).Some? ensures Tidy(DefinitionsBy(o)(x).value, x, Prefix(o)) {
      OwnersDefinition(o, x);
    }
  }

  /** Two different owners may update any flows in either order: the resulting lines are the same up to order. */
  lemma OwnersCommute(o: Owner, o': Owner, lines: seq<string>, p: seq<string>, q: seq<string>)
    requires GoodOwner(o) && GoodOwner(o') && DifferentOwners(o, o') && DotFree(p) && DotFree(q)
    ensures multiset(Transformed(Transformed(lines, p, DefinitionsBy(o)), q, DefinitionsBy(o')))
         == multiset(Transformed(Transformed(lines, q, DefinitionsBy(o')), p, DefinitionsBy(o)))
  {
    OwnersAreOwned(o);
    OwnersAreOwned(o');
    OwnersAreApart(o.name, o.namespace, o'.name, o'.namespace);
    OwnedCommute(lines, p, DefinitionsBy(o), Prefix(o), q, DefinitionsBy(o'), Prefix(o'));
  }

  /** A second update of an owner over all its flows changes nothing. */
  lemma OwnerIsIdempotent(o: Owner, lines: seq<string>, p: seq<string>)
    requires GoodOwner(o) && DotFree(p)
    ensures var once := Transformed(lines, p, DefinitionsBy(o)); Transformed(once, p, DefinitionsBy(o)) == once
  {
    OwnersAreOwned(o);
    OwnedIsIdempotent(lines, p, DefinitionsBy(o), Prefix(o));
  }

  /** The line is a property of an owner on a flow. */
  predicate IsLineOf(flow: string, prefix: string, line: string) {
    flow + NameMark(Transforms) + prefix <= line || flow + NameMark(Predicates) + prefix <= line
  }

  /** No property line of another owner on any flow is lost or repeated. */
  lemma OwnersKeepLines(o: Owner, o': Owner, lines: seq<string>, p: seq<string>, flow: string, line: string)
    requires GoodOwner(o) && GoodOwner(o') && DifferentOwners(o, o') && DotFree(p)
    requires Lacks(flow, '.') && IsLineOf(flow, Prefix(o'), line)
    ensures multiset(Transformed(lines, p, DefinitionsBy(o)))[line] == multiset(lines)[line]
  {
    OwnersAreOwned(o);
    OwnersAreApart(o.name, o.namespace, o'.name, o'.namespace);
    OwnedKeepsLines(lines, p, DefinitionsBy(o), Prefix(o), Definition(flow, Prefix(o'), [], [], []), line);
  }

  /**
   A name of another owner stays listed on a flow, as often as it was, exactly when the flow has an enabled
   line, is not edited, or did not list the name.
   */
  lemma OwnersKeepNamesExactly(o: Owner, o': Owner, lines: seq<string>, p: seq<string>, k: Kind, flow: string,
                               n: string)
    requires GoodOwner(o) && GoodOwner(o') && DifferentOwners(o, o') && DotFree(p)
    requires Lacks(flow, '.') && Prefix(o') <= n
    ensures multiset(Listed(flow, k, Transformed(lines, p, DefinitionsBy(o))))[n] == multiset(Listed(flow, k, lines))[n]
      <==> Enableds(flow, lines) != [] || !Edits(p, DefinitionsBy(o), flow) || n !in Listed(flow, k, lines)
  {
    OwnersAreOwned(o);
    OwnersAreApart(o.name, o.namespace, o'.name, o'.namespace);
    ApartFromExtensions(Prefix(o'), Prefix(o), n);
    OwnedKeepsNames(lines, p, DefinitionsBy(o), Prefix(o), k, flow, n);
  }

  lemma OneFlowTransformed(lines: seq<string>, flow: string, f: string -> Option<Definition>)
    requires f(flow).Some?
    ensures Transformed(lines, [flow], f) == Update(f(flow).value, lines)
  {
    assert [flow][..0] == [];
  }

  lemma RequestedNameIsWritten(o: Owner, i: nat, flow: string)
    requires i < |o.request.transforms|
    ensures DefinitionsBy(o)(flow).Some?
    ensures var d := DefinitionsBy(o)(flow).value;
      && WellFormed(d) && d.flow == flow && d.prefix == Prefix(o)
      && Prefix(o) + o.request.transforms[i].name in d.transforms
  {
    assert DefinitionsBy(o)(flow) == DefinitionOf(o.request, flow, Prefix(o), o.subst(flow));
    var d := DefinitionsBy(o)(flow).value;
    DefinitionsAreWellFormed(o.request, d, o.subst(flow));
    assert d.transforms[i] == Prefix(o) + o.request.transforms[i].name;
  }

  lemma CommaNameParts(prefix: string, a: string, b: string)
    requires Lacks(prefix, ',') && Lacks(a, ',')
    ensures prefix + (a + [','] + b) == prefix + a + [','] + b && Lacks(prefix + a, ',')
  {
  }

  lemma CommaDefinitionIsNotIdempotent(f: string -> Option<Definition>, d: Definition, a: string, b: string,
                                       lines: seq<string>)
    requires f(d.flow) == Some(d) && WellFormed(d) && Enableds(d.flow, lines) != []
    requires d.prefix + a + [','] + b in d.transforms
    requires Lacks(d.prefix + a, ',') && Lacks(b, ',') && !(d.prefix <= Trim(b, WHITE))
    ensures var once := Transformed(lines, [d.flow], f); Transformed(once, [d.flow], f) != once
  {
    CommaNameIsNotIdempotent(d, lines, a, b);
    OneFlowTransformed(lines, d.flow, f);
    OneFlowTransformed(Update(d, lines), d.flow, f);
  }

  /** A request with a transform named `a,b` is not idempotent on any enabled flow. */
  lemma CommaRequestIsNotIdempotent(o: Owner, i: nat, a: string, b: string, flow: string, lines: seq<string>)
    requires HostName(o.name) && HostName(o.namespace) && i < |o.request.transforms|
    requires o.request.transforms[i].name == a + [','] + b && Lacks(a, ',') && Lacks(b, ',')
    requires !(Prefix(o) <= Trim(b, WHITE)) && Enableds(flow, lines) != []
    ensures var once := Transformed(lines, [flow], DefinitionsBy(o));
      Transformed(once, [flow], DefinitionsBy(o)) != once
  {
    RequestedNameIsWritten(o, i, flow);
    OwnerPrefixIsGood(o.name, o.namespace);
    CommaNameParts(Prefix(o), a, b);
    CommaDefinitionIsNotIdempotent(DefinitionsBy(o), DefinitionsBy(o)(flow).value, a, b, lines);
  }
}
