/**
 What a definition contains, read back from its lines: every property of every transform and predicate of the
 request, written out, and nothing else.
 */
module DefinitionLaws {
  import opened Options
  import opened Text
  import opened Lines
  import opened Transformation
  import opened TransformationConfigurator
  import opened OwnerLaws

  // ----- filling in the replication prefix -----

  predicate OccursAt(s: string, pattern: string, i: nat) {
    i <= |s| && pattern <= s[i..]
  }

  lemma OccursLater(s: string, pattern: string, i: nat)
    requires s != ""
    ensures OccursAt(s[1..], pattern, i) <==> OccursAt(s, pattern, i + 1)
  {
    if i < |s| {
      assert s[1..][i..] == s[i + 1..];
    }
  }

  /** A text without the pattern stays. */
  lemma {:induction false} NothingToReplace(s: string, pattern: string, subst: string)
    requires pattern != "" && forall i: nat :: !OccursAt(s, pattern, i)
    ensures ReplaceAll(s, pattern, subst) == s
  {
    if s != "" {
      assert !OccursAt(s, pattern, 0);
      forall i: nat ensures !OccursAt(s[1..], pattern, i) {
        OccursLater(s, pattern, i);
      }
      NothingToReplace(s[1..], pattern, subst);
    }
  }

  lemma Prepend(s: string, i: nat, subst: string, rest: string)
    requires 0 < i <= |s|
    ensures [s[0]] + (s[1..][..i - 1] + subst + rest) == s[..i] + subst + rest
  {
    assert [s[0]] + s[1..][..i - 1] == s[..i];
  }

  /** The first occurrence is replaced, and the text behind it is treated alike. */
  lemma {:induction false} FirstIsReplaced(s: string, pattern: string, subst: string, i: nat)
    requires pattern != "" && OccursAt(s, pattern, i) && forall j: nat | j < i :: !OccursAt(s, pattern, j)
    ensures ReplaceAll(s, pattern, subst) == s[..i] + subst + ReplaceAll(s[i..][|pattern|..], pattern, subst)
    decreases i
  {
    if i == 0 {
      assert s[0..] == s && s[..0] == "";
    } else {
      assert !OccursAt(s, pattern, 0);
      OccursLater(s, pattern, i - 1);
      forall j: nat | j < i - 1 ensures !OccursAt(s[1..], pattern, j) {
        OccursLater(s, pattern, j);
      }
      FirstIsReplaced(s[1..], pattern, subst, i - 1);
      assert s[1..][i - 1..] == s[i..];
      Prepend(s, i, subst, ReplaceAll(s[i..][|pattern|..], pattern, subst));
    }
  }

  // ----- properties of one transform or predicate -----

  /** The property is one of the transform's: its type, its guard under the owner's prefix, its switch, a parameter. */
  ghost predicate TransformHas(prefix: string, t: Transform, subst: string, key: string, value: string) {
    || (key == "type" && value == t.typeName)
    || (key == "predicate" && t.guard != "" && value == prefix + t.guard)
    || (key == "negate" && t.negate == Some(true) && value == "true")
    || (key == "negate" && t.negate == Some(false) && value == "false")
    || ParamIs(t.params, subst, key, value)
  }

  /** The property is one of the predicate's: its type or a parameter. */
  ghost predicate GuardHas(g: Guard, subst: string, key: string, value: string) {
    (key == "type" && value == g.typeName) || ParamIs(g.params, subst, key, value)
  }

  ghost predicate ParamIs(params: map<string, string>, subst: string, key: string, value: string) {
    key in params && value == ReplaceAll(params[key], "${replication_prefix}", subst)
  }

  lemma KeysListed(params: map<string, string>, key: string)
    ensures var keys := Sort(Listing(params.Keys));
      multiset(keys) == multiset(params.Keys) && (key in keys <==> key in params)
  {
    var listed := Listing(params.Keys);
    SortPermutes(listed);
    assert key in Sort(listed) <==> key in multiset(Sort(listed));
  }

  lemma ParamsExactly(params: map<string, string>, subst: string, key: string, value: string)
    ensures (key, value) in SortedParams(params, subst) <==> ParamIs(params, subst, key, value)
  {
    var keys := Sort(Listing(params.Keys));
    KeysListed(params, key);
    if (key, value) in SortedParams(params, subst) {
      var i :| 0 <= i < |keys| && Param(params, keys[i], subst) == (key, value);
      assert keys[i] in keys;
    }
    if ParamIs(params, subst, key, value) {
      var i :| 0 <= i < |keys| && keys[i] == key;
      assert SortedParams(params, subst)[i] == (key, value);
    }
  }

  lemma TransformExactly(prefix: string, t: Transform, subst: string, key: string, value: string)
    ensures (key, value) in TransformEntry(prefix, t, subst).props <==> TransformHas(prefix, t, subst, key, value)
  {
    ParamsExactly(t.params, subst, key, value);
  }

  lemma GuardExactly(prefix: string, g: Guard, subst: string, key: string, value: string)
    ensures (key, value) in GuardEntry(prefix, g, subst).props <==> GuardHas(g, subst, key, value)
  {
    ParamsExactly(g.params, subst, key, value);
  }

  // ----- lines -----

  /** A property line of a transform or predicate, written out. */
  function PropertyLine(flow: string, section: string, name: string, key: string, value: string): string {
    flow + section + name + "." + key + " = " + value
  }

  function Section(k: Kind): string {
    if k == Transforms then ".transforms." else ".predicates."
  }

  lemma LineIs(flow: string, k: Kind, name: string, key: string, value: string)
    ensures Line(flow + NameMark(k) + name, (key, value)) == PropertyLine(flow, Section(k), name, key, value)
  {
  }

  lemma EntryLines(flow: string, k: Kind, e: Entry, line: string)
    ensures line in LinesOf(flow, k, e)
         <==> exists key, value :: (key, value) in e.props && line == PropertyLine(flow, Section(k), e.name, key, value)
  {
    if line in LinesOf(flow, k, e) {
      var i :| 0 <= i < |e.props| && line == Line(flow + NameMark(k) + e.name, e.props[i]);
      LineIs(flow, k, e.name, e.props[i].0, e.props[i].1);
      assert (e.props[i].0, e.props[i].1) in e.props;
    }
    if key, value :| (key, value) in e.props && line == PropertyLine(flow, Section(k), e.name, key, value) {
      var i :| 0 <= i < |e.props| && e.props[i] == (key, value);
      LineIs(flow, k, e.name, key, value);
      assert LinesOf(flow, k, e)[i] == line;
    }
  }

  /** The line writes a property of a transform of the request. */
  ghost predicate WritesTransform(request: Request, flow: string, prefix: string, subst: string, line: string) {
    exists t, key, value :: t in request.transforms && TransformHas(prefix, t, subst, key, value)
      && line == PropertyLine(flow, ".transforms.", prefix + t.name, key, value)
  }

  /** The line writes a property of a predicate of the request. */
  ghost predicate WritesGuard(request: Request, flow: string, prefix: string, subst: string, line: string) {
    exists g, key, value :: g in request.guards && GuardHas(g, subst, key, value)
      && line == PropertyLine(flow, ".predicates.", prefix + g.name, key, value)
  }

  lemma TransformLinesExactly(request: Request, flow: string, prefix: string, subst: string, line: string)
    ensures line in Flatten(TransformEntries(prefix, request.transforms, subst), Renderer(flow, Transforms))
         <==> WritesTransform(request, flow, prefix, subst, line)
  {
    var ts := request.transforms;
    var es := TransformEntries(prefix, ts, subst);
    FlattenMember(es, Renderer(flow, Transforms), line);
    if i :| 0 <= i < |es| && line in Renderer(flow, Transforms)(es[i]) {
      EntryLines(flow, Transforms, es[i], line);
      var key, value :| (key, value) in es[i].props
                     && line == PropertyLine(flow, Section(Transforms), es[i].name, key, value);
      TransformExactly(prefix, ts[i], subst, key, value);
      assert ts[i] in ts;
    }
    if t, key, value :|
      t in ts && TransformHas(prefix, t, subst, key, value)
      && line == PropertyLine(flow, ".transforms.", prefix + t.name, key, value) {
      var i :| 0 <= i < |ts| && ts[i] == t;
      TransformExactly(prefix, t, subst, key, value);
      EntryLines(flow, Transforms, es[i], line);
      assert line in Renderer(flow, Transforms)(es[i]);
    }
  }

  lemma GuardLinesExactly(request: Request, flow: string, prefix: string, subst: string, line: string)
    ensures line in Flatten(GuardEntries(prefix, request.guards, subst), Renderer(flow, Predicates))
         <==> WritesGuard(request, flow, prefix, subst, line)
  {
    var gs := request.guards;
    var es := GuardEntries(prefix, gs, subst);
    FlattenMember(es, Renderer(flow, Predicates), line);
    if i :| 0 <= i < |es| && line in Renderer(flow, Predicates)(es[i]) {
      EntryLines(flow, Predicates, es[i], line);
      var key, value :| (key, value) in es[i].props
                     && line == PropertyLine(flow, Section(Predicates), es[i].name, key, value);
      GuardExactly(prefix, gs[i], subst, key, value);
      assert gs[i] in gs;
    }
    if g, key, value :|
      g in gs && GuardHas(g, subst, key, value)
      && line == PropertyLine(flow, ".predicates.", prefix + g.name, key, value) {
      var i :| 0 <= i < |gs| && gs[i] == g;
      GuardExactly(prefix, g, subst, key, value);
      EntryLines(flow, Predicates, es[i], line);
      assert line in Renderer(flow, Predicates)(es[i]);
    }
  }

  /** A definition contains the properties of the request, written out, and no other line. */
  lemma LinesExactly(request: Request, d: Definition, subst: string, line: string)
    requires DefinitionOf(request, d.flow, d.prefix, subst) == Some(d)
    ensures line in d.config
         <==> || WritesTransform(request, d.flow, d.prefix, subst, line)
              || WritesGuard(request, d.flow, d.prefix, subst, line)
  {
    TransformLinesExactly(request, d.flow, d.prefix, subst, line);
    GuardLinesExactly(request, d.flow, d.prefix, subst, line);
  }

  // ----- references -----

  lemma PrefixCancels(prefix: string, a: string, b: string)
    ensures prefix + a == prefix + b <==> a == b
  {
    assert (prefix + a)[|prefix|..] == a && (prefix + b)[|prefix|..] == b;
  }

  lemma FullNameListed(prefix: string, names: seq<string>, full: seq<string>, name: string)
    requires |full| == |names| && forall i | 0 <= i < |names| :: full[i] == prefix + names[i]
    ensures prefix + name in full <==> name in names
  {
    forall i | 0 <= i < |names| ensures full[i] == prefix + name <==> names[i] == name {
      PrefixCancels(prefix, names[i], name);
    }
  }

  /** A name is listed exactly when the request has it. */
  lemma ListedExactly(request: Request, d: Definition, subst: string, name: string)
    requires DefinitionOf(request, d.flow, d.prefix, subst) == Some(d)
    ensures d.prefix + name in d.transforms <==> name in TransformNames(request)
    ensures d.prefix + name in d.predicates <==> name in GuardNames(request)
  {
    DefinedNames(request, d.flow, d.prefix, subst);
    FullNameListed(d.prefix, TransformNames(request), d.transforms, name);
    FullNameListed(d.prefix, GuardNames(request), d.predicates, name);
  }

  /** A guarded transform refers to a predicate that is listed and defined, if the request has one of that name. */
  lemma ReferencesAreDefined(request: Request, d: Definition, subst: string, t: Transform, g: Guard)
    requires DefinitionOf(request, d.flow, d.prefix, subst) == Some(d)
    requires t in request.transforms && g in request.guards && t.guard != "" && g.name == t.guard
    ensures PropertyLine(d.flow, ".transforms.", d.prefix + t.name, "predicate", d.prefix + t.guard) in d.config
    ensures d.prefix + t.guard in d.predicates
    ensures PropertyLine(d.flow, ".predicates.", d.prefix + t.guard, "type", g.typeName) in d.config
  {
    PropertyIsWritten(request, d, subst, t, "predicate", d.prefix + t.guard);
    TypeIsWritten(request, d, subst, g);
    GuardIsNamed(request, g);
    ListedExactly(request, d, subst, g.name);
  }

  lemma PropertyIsWritten(request: Request, d: Definition, subst: string, t: Transform, key: string, value: string)
    requires DefinitionOf(request, d.flow, d.prefix, subst) == Some(d)
    requires t in request.transforms && TransformHas(d.prefix, t, subst, key, value)
    ensures PropertyLine(d.flow, ".transforms.", d.prefix + t.name, key, value) in d.config
  {
    LinesExactly(request, d, subst, PropertyLine(d.flow, ".transforms.", d.prefix + t.name, key, value));
  }

  lemma TypeIsWritten(request: Request, d: Definition, subst: string, g: Guard)
    requires DefinitionOf(request, d.flow, d.prefix, subst) == Some(d) && g in request.guards
    ensures PropertyLine(d.flow, ".predicates.", d.prefix + g.name, "type", g.typeName) in d.config
  {
    assert GuardHas(g, subst, "type", g.typeName);
    LinesExactly(request, d, subst, PropertyLine(d.flow, ".predicates.", d.prefix + g.name, "type", g.typeName));
  }

  lemma GuardIsNamed(request: Request, g: Guard)
    requires g in request.guards
    ensures g.name in GuardNames(request)
  {
    var i :| 0 <= i < |request.guards| && request.guards[i] == g;
    assert GuardNames(request)[i] == g.name;
  }
}
