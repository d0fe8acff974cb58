/** Requests without line breaks render to definitions that keep a properties text clean. */
module ResourceText {
  import opened Text
  import opened Lines
  import opened Properties
  import opened TopicMerge
  import opened TopicRuns
  import opened TopicJoin
  import opened Transformation
  import opened TransformationConfigurator

  ghost predicate OneLineParams(params: map<string, string>) {
    forall key | key in params :: Lacks(key, '\n') && Lacks(params[key], '\n')
  }

  /** No text of the transformation section has a line break. */
  ghost predicate OneLineRequest(request: Request) {
    && (forall i | 0 <= i < |request.transforms| :: var t := request.transforms[i];
          Lacks(t.name, '\n') && Lacks(t.typeName, '\n') && Lacks(t.guard, '\n') && OneLineParams(t.params))
    && (forall i | 0 <= i < |request.guards| :: var g := request.guards[i];
          Lacks(g.name, '\n') && Lacks(g.typeName, '\n') && OneLineParams(g.params))
  }

  ghost predicate OneLineProps(props: seq<(string, string)>) {
    forall i | 0 <= i < |props| :: Lacks(props[i].0, '\n') && Lacks(props[i].1, '\n')
  }

  ghost predicate OneLineEntry(e: Entry) {
    Lacks(e.name, '\n') && OneLineProps(e.props)
  }

  ghost predicate OneLineEntries(es: seq<Entry>) {
    forall i | 0 <= i < |es| :: OneLineEntry(es[i])
  }

  lemma {:induction false} ReplaceAllLacks(s: string, pattern: string, subst: string, c: char)
    requires pattern != "" && Lacks(s, c) && Lacks(subst, c)
    ensures Lacks(ReplaceAll(s, pattern, subst), c)
    decreases |s|
  {
    if s != "" {
      if pattern <= s {
        ReplaceAllLacks(s[|pattern|..], pattern, subst, c);
      } else {
        ReplaceAllLacks(s[1..], pattern, subst, c);
      }
    }
  }

  lemma ParamsAreOneLine(params: map<string, string>, subst: string)
    requires OneLineParams(params) && Lacks(subst, '\n')
    ensures OneLineProps(SortedParams(params, subst))
  {
    var listed := Listing(params.Keys);
    var keys := Sort(listed);
    SortPermutes(listed);
    forall i | 0 <= i < |keys|
      ensures Lacks(Param(params, keys[i], subst).0, '\n') && Lacks(Param(params, keys[i], subst).1, '\n')
    {
      assert keys[i] in multiset(keys);
      assert keys[i] in params;
      ReplaceAllLacks(params[keys[i]], VARIABLE, subst, '\n');
    }
  }

  lemma FixedIsOneLine(prefix: string, t: Transform)
    requires Lacks(prefix, '\n') && Lacks(t.typeName, '\n') && Lacks(t.guard, '\n')
    ensures OneLineProps(Fixed(prefix, t))
  {
  }

  lemma EntriesAreOneLine(request: Request, prefix: string, subst: string)
    requires OneLineRequest(request) && Lacks(prefix, '\n') && Lacks(subst, '\n')
    ensures OneLineEntries(TransformEntries(prefix, request.transforms, subst))
    ensures OneLineEntries(GuardEntries(prefix, request.guards, subst))
  {
    forall i | 0 <= i < |request.transforms|
      ensures OneLineEntry(TransformEntry(prefix, request.transforms[i], subst))
    {
      FixedIsOneLine(prefix, request.transforms[i]);
      ParamsAreOneLine(request.transforms[i].params, subst);
    }
    forall i | 0 <= i < |request.guards| ensures OneLineEntry(GuardEntry(prefix, request.guards[i], subst)) {
      ParamsAreOneLine(request.guards[i].params, subst);
    }
  }

  lemma EqualsSplits(s: string)
    requires '=' in s
    ensures HasEquals(s)
  {
    IndexOfSpec(s, '=');
  }

  lemma LineIsRow(mark: string, prop: (string, string))
    requires Lacks(mark, '\n') && Lacks(prop.0, '\n') && Lacks(prop.1, '\n')
    ensures HasEquals(Line(mark, prop)) && Lacks(Line(mark, prop), '\n')
  {
    var line := Line(mark, prop);
    assert line[|mark| + 1 + |prop.0| + 1] == '=';
    EqualsSplits(line);
  }

  lemma MarkIsOneLine(flow: string, k: Kind, name: string)
    requires Lacks(flow, '\n') && Lacks(name, '\n')
    ensures Lacks(flow + NameMark(k) + name, '\n')
  {
  }

  lemma RenderedLineIsRow(flow: string, k: Kind, es: seq<Entry>, line: string)
    requires Lacks(flow, '\n') && OneLineEntries(es) && line in Flatten(es, Renderer(flow, k))
    ensures HasEquals(line) && Lacks(line, '\n')
  {
    FlattenMember(es, Renderer(flow, k), line);
    var i :| 0 <= i < |es| && line in Renderer(flow, k)(es[i]);
    var j :| 0 <= j < |es[i].props| && line == Line(flow + NameMark(k) + es[i].name, es[i].props[j]);
    assert OneLineEntry(es[i]);
    MarkIsOneLine(flow, k, es[i].name);
    LineIsRow(flow + NameMark(k) + es[i].name, es[i].props[j]);
  }

  lemma RenderedWrites(flow: string, prefix: string, ts: seq<Entry>, gs: seq<Entry>)
    requires GoodFlow(flow) && OneLineEntries(ts) && OneLineEntries(gs)
    ensures var d := Rendered(flow, prefix, ts, gs);
      (forall i | 0 <= i < |d.config| :: HasEquals(d.config[i]) && Lacks(d.config[i], '\n'))
      && AllLack(d.transforms, '\n') && AllLack(d.predicates, '\n')
  {
    var d := Rendered(flow, prefix, ts, gs);
    forall i | 0 <= i < |d.config| ensures HasEquals(d.config[i]) && Lacks(d.config[i], '\n') {
      if d.config[i] in Flatten(ts, Renderer(flow, Transforms)) {
        RenderedLineIsRow(flow, Transforms, ts, d.config[i]);
      } else {
        RenderedLineIsRow(flow, Predicates, gs, d.config[i]);
      }
    }
    forall i | 0 <= i < |ts| ensures Lacks(ts[i].name, '\n') {
      assert OneLineEntry(ts[i]);
    }
    forall i | 0 <= i < |gs| ensures Lacks(gs[i].name, '\n') {
      assert OneLineEntry(gs[i]);
    }
  }

  /** What a request without line breaks means for a flow can be written into a clean text. */
  lemma DefinitionsAreWritable(request: Request, flow: string, prefix: string, subst: string)
    requires OneLineRequest(request) && GoodFlow(flow) && Lacks(prefix, '\n') && Lacks(subst, '\n')
    ensures var d := DefinitionOf(request, flow, prefix, subst); d.Some? ==> Writes(d.value) && d.value.flow == flow
  {
    if request.transforms != [] {
      var d := DefinitionOf(request, flow, prefix, subst).value;
      DefinitionsAreWellFormed(request, d, subst);
      EntriesAreOneLine(request, prefix, subst);
      RenderedWrites(flow, prefix, TransformEntries(prefix, request.transforms, subst),
                     GuardEntries(prefix, request.guards, subst));
    }
  }

  /** A custom resource whose texts have no line breaks, and whose topics have no equals sign, is a good resource. */
  lemma RequestsAreGoodResources(r: Resource, request: Request, prefix: string)
    requires OneLineRequest(request) && Lacks(prefix, '\n') && Lacks(r.topics, '=') && Lacks(r.topics, '\n')
    requires forall flow | GoodFlow(flow) ::
      exists subst :: Lacks(subst, '\n') && r.define(flow) == DefinitionOf(request, flow, prefix, subst)
    ensures GoodResource(r)
  {
    forall flow | GoodFlow(flow) && r.define(flow).Some?
      ensures Writes(r.define(flow).value) && r.define(flow).value.flow == flow
    {
      var subst :| Lacks(subst, '\n') && r.define(flow) == DefinitionOf(request, flow, prefix, subst);
      DefinitionsAreWritable(request, flow, prefix, subst);
    }
  }
}
