/** The lines of a definition under one key: which they are, how many and in which order. */
module DefinitionReadBack {
  import opened Options
  import opened Text
  import opened Lines
  import opened Transformation
  import opened TransformationConfigurator
  import opened OwnerLaws
  import opened DefinitionLaws

  function Starting(start: string): string -> bool {
    line => start <= line
  }

  // ----- the properties of an entry under one key -----

  type Prop = (string, string)

  function WithKey(props: seq<Prop>, key: string): seq<Prop> {
    if props == [] then []
    else if props[0].0 == key then [props[0]] + WithKey(props[1..], key)
    else WithKey(props[1..], key)
  }

  lemma {:induction false} WithKeyConcat(a: seq<Prop>, b: seq<Prop>, key: string)
    ensures WithKey(a + b, key) == WithKey(a, key) + WithKey(b, key)
  {
    if a == [] {
      assert a + b == b;
    } else {
      assert (a + b)[1..] == a[1..] + b;
      WithKeyConcat(a[1..], b, key);
    }
  }

  lemma WithKeyOne(p: Prop, key: string)
    ensures WithKey([p], key) == if p.0 == key then [p] else []
  {
    assert [p][1..] == [];
  }

  ghost predicate Once(keys: seq<string>) {
    forall i, j | 0 <= i < j < |keys| :: keys[i] != keys[j]
  }

  lemma {:induction false} WithKeyParams(params: map<string, string>, keys: seq<string>, subst: string, key: string)
    requires Once(keys)
    ensures WithKey(Params(params, keys, subst), key) == if key in keys then [Param(params, key, subst)] else []
  {
    if keys != [] {
      assert Params(params, keys, subst)[1..] == Params(params, keys[1..], subst);
      WithKeyParams(params, keys[1..], subst, key);
    }
  }

  lemma SetIsOnce(keys: seq<string>, s: set<string>)
    requires multiset(keys) == multiset(s)
    ensures Once(keys)
  {
    forall i, j | 0 <= i < j < |keys| ensures keys[i] != keys[j] {
      assert keys == keys[..j] + [keys[j]] + keys[j + 1..];
      assert keys[i] == keys[..j][i];
      assert multiset(keys)[keys[j]] == 1 + multiset(keys[..j])[keys[j]] + multiset(keys[j + 1..])[keys[j]];
    }
  }

  /** The parameter of that key, if there is one. */
  function ParamProps(params: map<string, string>, subst: string, key: string): seq<Prop> {
    if key in params then [(key, ReplaceAll(params[key], "${replication_prefix}", subst))] else []
  }

  lemma ParamsWithKey(params: map<string, string>, subst: string, key: string)
    ensures WithKey(SortedParams(params, subst), key) == ParamProps(params, subst, key)
  {
    var keys := Sort(Listing(params.Keys));
    KeysListed(params, key);
    SetIsOnce(keys, params.Keys);
    WithKeyParams(params, keys, subst, key);
  }

  /** The type, the guard or the switch of a transform, if that is the key. */
  function FixedProps(prefix: string, t: Transform, key: string): seq<Prop> {
    (if key == "type" then [("type", t.typeName)] else [])
    + (if key == "predicate" && t.guard != "" then [("predicate", prefix + t.guard)] else [])
    + (if key == "negate" && t.negate == Some(true) then [("negate", "true")] else [])
    + (if key == "negate" && t.negate == Some(false) then [("negate", "false")] else [])
  }

  function TransformProps(prefix: string, t: Transform, subst: string, key: string): seq<Prop> {
    FixedProps(prefix, t, key) + ParamProps(t.params, subst, key)
  }

  function GuardProps(g: Guard, subst: string, key: string): seq<Prop> {
    (if key == "type" then [("type", g.typeName)] else []) + ParamProps(g.params, subst, key)
  }

  lemma FixedWithKey(prefix: string, t: Transform, key: string)
    ensures WithKey(Fixed(prefix, t), key) == FixedProps(prefix, t, key)
  {
    var reference := if t.guard == "" then [] else [("predicate", prefix + t.guard)];
    var negation := if t.negate == None then [] else [("negate", if t.negate.value then "true" else "false")];
    WithKeyConcat([("type", t.typeName)] + reference, negation, key);
    WithKeyConcat([("type", t.typeName)], reference, key);
    WithKeyOne(("type", t.typeName), key);
    WithKeyOne(("predicate", prefix + t.guard), key);
    WithKeyOne(("negate", "true"), key);
    WithKeyOne(("negate", "false"), key);
  }

  lemma TransformWithKey(prefix: string, t: Transform, subst: string, key: string)
    ensures WithKey(TransformEntry(prefix, t, subst).props, key) == TransformProps(prefix, t, subst, key)
  {
    WithKeyConcat(Fixed(prefix, t), SortedParams(t.params, subst), key);
    FixedWithKey(prefix, t, key);
    ParamsWithKey(t.params, subst, key);
  }

  lemma GuardWithKey(prefix: string, g: Guard, subst: string, key: string)
    ensures WithKey(GuardEntry(prefix, g, subst).props, key) == GuardProps(g, subst, key)
  {
    WithKeyConcat([("type", g.typeName)], SortedParams(g.params, subst), key);
    WithKeyOne(("type", g.typeName), key);
    ParamsWithKey(g.params, subst, key);
  }

  // ----- the lines of an entry under one key -----

  function PropLines(flow: string, section: string, name: string, props: seq<Prop>): seq<string> {
    seq(|props|, i requires 0 <= i < |props| => PropertyLine(flow, section, name, props[i].0, props[i].1))
  }

  /** What every line of that key starts with. */
  function KeyStart(flow: string, section: string, name: string, key: string): string {
    flow + section + name + "." + key + " = "
  }

  ghost predicate KeysLack(props: seq<Prop>, c: char) {
    forall i | 0 <= i < |props| :: Lacks(props[i].0, c)
  }

  lemma BlankDecides(a: string, b: string, line: string)
    requires Lacks(a, ' ') && Lacks(b, ' ') && a + [' '] <= line && b + [' '] <= line
    ensures a == b
  {
    assert line == a + [' '] + line[|a| + 1..] && line == b + [' '] + line[|b| + 1..];
    IndexOfFirst(a, ' ', line[|a| + 1..]);
    IndexOfFirst(b, ' ', line[|b| + 1..]);
    assert line[..|a|] == a && line[..|b|] == b;
  }

  lemma BeginningCancels(mark: string, a: string, b: string)
    ensures mark + a <= mark + b <==> a <= b
  {
    if mark + a <= mark + b {
      assert forall i | 0 <= i < |a| :: a[i] == (mark + a)[|mark| + i] == (mark + b)[|mark| + i] == b[i];
    }
    if a <= b {
      assert mark + b == mark + a + b[|a|..];
    }
  }

  lemma KeyDecides(a: string, b: string, value: string)
    requires Lacks(a, ' ') && Lacks(b, ' ')
    ensures a + " = " <= b + " = " + value <==> a == b
  {
    if a + " = " <= b + " = " + value {
      assert a + [' '] <= a + " = " && b + [' '] <= b + " = " + value;
      BlankDecides(a, b, b + " = " + value);
    }
  }

  lemma StartDecides(flow: string, section: string, name: string, key: string, p: Prop)
    requires Lacks(key, ' ') && Lacks(p.0, ' ')
    ensures KeyStart(flow, section, name, key) <= PropertyLine(flow, section, name, p.0, p.1) <==> p.0 == key
  {
    var mark := flow + section + name + ".";
    KeyDecides(key, p.0, p.1);
    BeginningCancels(mark, key + " = ", p.0 + " = " + p.1);
    assert mark + key + " = " == mark + (key + " = ");
    assert mark + p.0 + " = " + p.1 == mark + (p.0 + " = " + p.1);
  }

  lemma {:induction false} SelectedProps(flow: string, section: string, name: string, props: seq<Prop>, key: string)
    requires Lacks(key, ' ') && KeysLack(props, ' ')
    ensures Select(PropLines(flow, section, name, props), Starting(KeyStart(flow, section, name, key)))
         == PropLines(flow, section, name, WithKey(props, key))
  {
    if props != [] {
      var lines := PropLines(flow, section, name, props);
      assert lines[1..] == PropLines(flow, section, name, props[1..]);
      SelectedProps(flow, section, name, props[1..], key);
      StartDecides(flow, section, name, key, props[0]);
    }
  }

  lemma LinesAreProps(flow: string, k: Kind, e: Entry)
    ensures LinesOf(flow, k, e) == PropLines(flow, Section(k), e.name, e.props)
  {
    forall i | 0 <= i < |e.props|
      ensures LinesOf(flow, k, e)[i] == PropLines(flow, Section(k), e.name, e.props)[i]
    {
      LineIs(flow, k, e.name, e.props[i].0, e.props[i].1);
    }
  }

  // ----- other entries -----

  lemma OtherName(flow: string, section: string, prefix: string, name: string, other: string, key: string, p: Prop)
    requires Lacks(name, '.') && Lacks(other, '.') && name != other
    ensures !(KeyStart(flow, section, prefix + name, key) <= PropertyLine(flow, section, prefix + other, p.0, p.1))
  {
    var mark := flow + section + prefix;
    var a, b := name + ['.'] + (key + " = "), other + ['.'] + (p.0 + " = " + p.1);
    assert KeyStart(flow, section, prefix + name, key) == mark + a;
    assert PropertyLine(flow, section, prefix + other, p.0, p.1) == mark + b;
    BeginningCancels(mark, a, b);
    if a <= b {
      assert name + ['.'] <= a && other + ['.'] <= b;
      DotDecides(name, other, b);
    }
  }

  lemma OtherSection(flow: string, k: Kind, name: string, key: string, other: string, p: Prop)
    ensures var there := if k == Transforms then Predicates else Transforms;
      !(KeyStart(flow, Section(k), name, key) <= PropertyLine(flow, Section(there), other, p.0, p.1))
  {
    var there := if k == Transforms then Predicates else Transforms;
    assert KeyStart(flow, Section(k), name, key)[|flow| + 1] == (if k == Transforms then 't' else 'p');
    assert PropertyLine(flow, Section(there), other, p.0, p.1)[|flow| + 1] == (if k == Transforms then 'p' else 't');
  }

  lemma {:induction false} FlattenNone<T>(xs: seq<T>, f: T -> seq<string>, p: string -> bool)
    requires forall i | 0 <= i < |xs| :: Select(f(xs[i]), p) == []
    ensures Select(Flatten(xs, f), p) == []
  {
    if xs != [] {
      SelectConcat(f(xs[0]), Flatten(xs[1..], f), p);
      assert forall i | 0 <= i < |xs[1..]| :: xs[1..][i] == xs[i + 1];
      FlattenNone(xs[1..], f, p);
    }
  }

  lemma {:induction false} FlattenOne<T>(xs: seq<T>, f: T -> seq<string>, p: string -> bool, n: nat)
    requires n < |xs| && forall i | 0 <= i < |xs| && i != n :: Select(f(xs[i]), p) == []
    ensures Select(Flatten(xs, f), p) == Select(f(xs[n]), p)
  {
    SelectConcat(f(xs[0]), Flatten(xs[1..], f), p);
    assert forall i | 0 <= i < |xs[1..]| :: xs[1..][i] == xs[i + 1];
    if n == 0 {
      FlattenNone(xs[1..], f, p);
    } else {
      FlattenOne(xs[1..], f, p, n - 1);
    }
  }

  lemma EntrySelected(flow: string, k: Kind, e: Entry, key: string)
    requires Lacks(key, ' ') && KeysLack(e.props, ' ')
    ensures Select(LinesOf(flow, k, e), Starting(KeyStart(flow, Section(k), e.name, key)))
         == PropLines(flow, Section(k), e.name, WithKey(e.props, key))
  {
    LinesAreProps(flow, k, e);
    SelectedProps(flow, Section(k), e.name, e.props, key);
  }

  lemma OtherEntry(flow: string, k: Kind, prefix: string, name: string, other: string, props: seq<Prop>, key: string)
    requires Lacks(name, '.') && Lacks(other, '.') && name != other
    ensures Select(LinesOf(flow, k, Entry(prefix + other, props)),
                   Starting(KeyStart(flow, Section(k), prefix + name, key))) == []
  {
    var e := Entry(prefix + other, props);
    var start := Starting(KeyStart(flow, Section(k), prefix + name, key));
    LinesAreProps(flow, k, e);
    forall i | 0 <= i < |props| ensures !start(LinesOf(flow, k, e)[i]) {
      OtherName(flow, Section(k), prefix, name, other, key, props[i]);
    }
    SelectNone(LinesOf(flow, k, e), start);
  }

  lemma EntryElsewhere(flow: string, k: Kind, there: Kind, name: string, key: string, e: Entry)
    requires k != there
    ensures Select(LinesOf(flow, there, e), Starting(KeyStart(flow, Section(k), name, key))) == []
  {
    var start := Starting(KeyStart(flow, Section(k), name, key));
    LinesAreProps(flow, there, e);
    forall i | 0 <= i < |e.props| ensures !start(LinesOf(flow, there, e)[i]) {
      OtherSection(flow, k, name, key, e.name, e.props[i]);
    }
    SelectNone(LinesOf(flow, there, e), start);
  }

  lemma ElsewhereNone(flow: string, k: Kind, there: Kind, name: string, key: string, es: seq<Entry>)
    requires k != there
    ensures Select(Flatten(es, Renderer(flow, there)), Starting(KeyStart(flow, Section(k), name, key))) == []
  {
    var start := Starting(KeyStart(flow, Section(k), name, key));
    forall i | 0 <= i < |es| ensures Select(Renderer(flow, there)(es[i]), start) == [] {
      EntryElsewhere(flow, k, there, name, key, es[i]);
    }
    FlattenNone(es, Renderer(flow, there), start);
  }

  /** Of entries with different names without dots, only the one of that name has lines under it. */
  lemma OneEntrySelected(flow: string, k: Kind, prefix: string, names: seq<string>, es: seq<Entry>, n: nat, key: string)
    requires |es| == |names| && n < |es| && Once(names) && (forall i | 0 <= i < |names| :: Lacks(names[i], '.'))
    requires forall i | 0 <= i < |es| :: es[i].name == prefix + names[i]
    requires Lacks(key, ' ') && KeysLack(es[n].props, ' ')
    ensures Select(Flatten(es, Renderer(flow, k)), Starting(KeyStart(flow, Section(k), prefix + names[n], key)))
         == PropLines(flow, Section(k), prefix + names[n], WithKey(es[n].props, key))
  {
    var start := Starting(KeyStart(flow, Section(k), prefix + names[n], key));
    forall i | 0 <= i < |es| && i != n ensures Select(Renderer(flow, k)(es[i]), start) == [] {
      assert names[i] != names[n];
      OtherEntry(flow, k, prefix, names[n], names[i], es[i].props, key);
    }
    FlattenOne(es, Renderer(flow, k), start, n);
    EntrySelected(flow, k, es[n], key);
  }

  // ----- reading a definition back -----

  ghost predicate KeysAreWords(params: map<string, string>) {
    forall key | key in params :: Lacks(key, ' ')
  }

  lemma ParamKeysAreWords(params: map<string, string>, subst: string)
    requires KeysAreWords(params)
    ensures KeysLack(SortedParams(params, subst), ' ')
  {
    var keys := Sort(Listing(params.Keys));
    forall i | 0 <= i < |keys| ensures Lacks(keys[i], ' ') {
      KeysListed(params, keys[i]);
    }
  }

  /** Different names without dots. */
  ghost predicate Separate(names: seq<string>) {
    Once(names) && forall i | 0 <= i < |names| :: Lacks(names[i], '.')
  }

  lemma RenderedSelected(flow: string, prefix: string, k: Kind, names: seq<string>, ts: seq<Entry>, gs: seq<Entry>,
                         n: nat, key: string)
    requires var es := if k == Transforms then ts else gs;
      && |es| == |names| && n < |es| && Separate(names) && (forall i | 0 <= i < |es| :: es[i].name == prefix + names[i])
      && Lacks(key, ' ') && KeysLack(es[n].props, ' ')
    ensures var es := if k == Transforms then ts else gs;
      Select(Rendered(flow, prefix, ts, gs).config, Starting(KeyStart(flow, Section(k), prefix + names[n], key)))
      == PropLines(flow, Section(k), prefix + names[n], WithKey(es[n].props, key))
  {
    var start := Starting(KeyStart(flow, Section(k), prefix + names[n], key));
    SelectConcat(Flatten(ts, Renderer(flow, Transforms)), Flatten(gs, Renderer(flow, Predicates)), start);
    if k == Transforms {
      OneEntrySelected(flow, k, prefix, names, ts, n, key);
      ElsewhereNone(flow, k, Predicates, prefix + names[n], key, gs);
    } else {
      OneEntrySelected(flow, k, prefix, names, gs, n, key);
      ElsewhereNone(flow, k, Transforms, prefix + names[n], key, ts);
    }
  }

  /** The properties of the transform or predicate number `n`. */
  ghost function PropsOf(request: Request, k: Kind, prefix: string, subst: string, n: nat): seq<Prop>
    requires n < if k == Transforms then |request.transforms| else |request.guards|
  {
    if k == Transforms then TransformEntry(prefix, request.transforms[n], subst).props
    else GuardEntry(prefix, request.guards[n], subst).props
  }

  ghost function NamesOf(request: Request, k: Kind): seq<string> {
    if k == Transforms then TransformNames(request) else GuardNames(request)
  }

  lemma DefinitionSelected(request: Request, d: Definition, subst: string, k: Kind, n: nat, key: string)
    requires DefinitionOf(request, d.flow, d.prefix, subst) == Some(d) && n < |NamesOf(request, k)|
    requires Separate(NamesOf(request, k)) && Lacks(key, ' ') && KeysLack(PropsOf(request, k, d.prefix, subst, n), ' ')
    ensures var name := d.prefix + NamesOf(request, k)[n];
      Select(d.config, Starting(KeyStart(d.flow, Section(k), name, key)))
      == PropLines(d.flow, Section(k), name, WithKey(PropsOf(request, k, d.prefix, subst, n), key))
  {
    RenderedSelected(d.flow, d.prefix, k, NamesOf(request, k), TransformEntries(d.prefix, request.transforms, subst),
                     GuardEntries(d.prefix, request.guards, subst), n, key);
  }

  /**
   The lines under a key of a transform: its type, `predicate` exactly if it is guarded, `negate` exactly if it has
   the switch, and each parameter once with the prefix filled in.
   */
  lemma TransformReadsBack(request: Request, d: Definition, subst: string, n: nat, key: string)
    requires DefinitionOf(request, d.flow, d.prefix, subst) == Some(d) && n < |request.transforms|
    requires Separate(TransformNames(request)) && KeysAreWords(request.transforms[n].params) && Lacks(key, ' ')
    ensures var t := request.transforms[n];
      Select(d.config, Starting(KeyStart(d.flow, ".transforms.", d.prefix + t.name, key)))
      == PropLines(d.flow, ".transforms.", d.prefix + t.name, TransformProps(d.prefix, t, subst, key))
  {
    ParamKeysAreWords(request.transforms[n].params, subst);
    DefinitionSelected(request, d, subst, Transforms, n, key);
    TransformWithKey(d.prefix, request.transforms[n], subst, key);
  }

  /** The lines under a key of a predicate: its type, and each parameter once with the prefix filled in. */
  lemma GuardReadsBack(request: Request, d: Definition, subst: string, n: nat, key: string)
    requires DefinitionOf(request, d.flow, d.prefix, subst) == Some(d) && n < |request.guards|
    requires Separate(GuardNames(request)) && KeysAreWords(request.guards[n].params) && Lacks(key, ' ')
    ensures var g := request.guards[n];
      Select(d.config, Starting(KeyStart(d.flow, ".predicates.", d.prefix + g.name, key)))
      == PropLines(d.flow, ".predicates.", d.prefix + g.name, GuardProps(g, subst, key))
  {
    ParamKeysAreWords(request.guards[n].params, subst);
    DefinitionSelected(request, d, subst, Predicates, n, key);
    GuardWithKey(d.prefix, request.guards[n], subst, key);
  }

  /** A guarded transform has exactly one reference, under the owner's prefix; one without a guard has none. */
  lemma ReferenceIsTheOnlyOne(request: Request, d: Definition, subst: string, n: nat)
    requires DefinitionOf(request, d.flow, d.prefix, subst) == Some(d) && n < |request.transforms|
    requires Separate(TransformNames(request)) && KeysAreWords(request.transforms[n].params)
    requires "predicate" !in request.transforms[n].params
    ensures var t := request.transforms[n];
      Select(d.config, Starting(KeyStart(d.flow, ".transforms.", d.prefix + t.name, "predicate")))
      == if t.guard == "" then []
         else [PropertyLine(d.flow, ".transforms.", d.prefix + t.name, "predicate", d.prefix + t.guard)]
  {
    TransformReadsBack(request, d, subst, n, "predicate");
  }
}
