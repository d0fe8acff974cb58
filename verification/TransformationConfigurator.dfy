/** The code that builds an owner's definition and edits the lines of a flow with it. */
module TransformationConfigurator {
  import opened Options
  import opened Text
  import opened Lines
  import opened Transformation
  import opened TransformationLaws

  datatype Transform = Transform(name: string, typeName: string, guard: string,
                                 negate: Option<bool>, params: map<string, string>)

  datatype Guard = Guard(name: string, typeName: string, params: map<string, string>)

  /** The transformation section of a custom resource; guards are its predicates. */
  datatype Request = Request(transforms: seq<Transform>, guards: seq<Guard>)

  const POLICY := "replication.policy.class"
  const IDENTITY := "io.strimzi.kafka." + "connect.mirror." + "IdentityReplicationPolicy"

  const VARIABLE := "${replication_prefix}"

  /** `strings.ReplaceAll` for a non-empty pattern. */
  function ReplaceAll(s: string, pattern: string, subst: string): string
    requires pattern != ""
    decreases |s|
  {
    if s == "" then ""
    else if pattern <= s then subst + ReplaceAll(s[|pattern|..], pattern, subst)
    else [s[0]] + ReplaceAll(s[1..], pattern, subst)
  }

  // ----- the properties of one transform or predicate -----

  /** A transform or predicate under its full name, with its properties in the order they are written. */
  datatype Entry = Entry(name: string, props: seq<(string, string)>)

  ghost function Listing(s: set<string>): (r: seq<string>)
    ensures multiset(r) == multiset(s)
  {
    if s == {} then [] else
      var x :| x in s;
      assert s == (s - {x}) + {x};
      [x] + Listing(s - {x})
  }

  /** The parameters under the given keys, with the replication prefix filled in. */
  function Params(params: map<string, string>, keys: seq<string>, subst: string): seq<(string, string)> {
    seq(|keys|, i requires 0 <= i < |keys| => Param(params, keys[i], subst))
  }

  function Param(params: map<string, string>, key: string, subst: string): (string, string) {
    (key, if key in params then ReplaceAll(params[key], VARIABLE, subst) else "")
  }

  /** All parameters, in key order. */
  ghost function SortedParams(params: map<string, string>, subst: string): seq<(string, string)> {
    Params(params, Sort(Listing(params.Keys)), subst)
  }

  function Fixed(prefix: string, t: Transform): seq<(string, string)> {
    [("type", t.typeName)]
    + (if t.guard == "" then [] else [("predicate", prefix + t.guard)])
    + (if t.negate == None then [] else [("negate", if t.negate.value then "true" else "false")])
  }

  ghost function TransformEntry(prefix: string, t: Transform, subst: string): Entry {
    Entry(prefix + t.name, Fixed(prefix, t) + SortedParams(t.params, subst))
  }

  ghost function GuardEntry(prefix: string, g: Guard, subst: string): Entry {
    Entry(prefix + g.name, [("type", g.typeName)] + SortedParams(g.params, subst))
  }

  ghost function TransformEntries(prefix: string, ts: seq<Transform>, subst: string): seq<Entry> {
    seq(|ts|, i requires 0 <= i < |ts| => TransformEntry(prefix, ts[i], subst))
  }

  ghost function GuardEntries(prefix: string, gs: seq<Guard>, subst: string): seq<Entry> {
    seq(|gs|, i requires 0 <= i < |gs| => GuardEntry(prefix, gs[i], subst))
  }

  // ----- rendering -----

  function Line(mark: string, prop: (string, string)): string {
    mark + ("." + prop.0 + " = " + prop.1)
  }

  function LinesOf(flow: string, k: Kind, e: Entry): seq<string> {
    seq(|e.props|, i requires 0 <= i < |e.props| => Line(flow + NameMark(k) + e.name, e.props[i]))
  }

  function Renderer(flow: string, k: Kind): Entry -> seq<string> {
    (e: Entry) => LinesOf(flow, k, e)
  }

  function EntryNames(es: seq<Entry>): seq<string> {
    seq(|es|, i requires 0 <= i < |es| => es[i].name)
  }

  function Rendered(flow: string, prefix: string, ts: seq<Entry>, gs: seq<Entry>): Definition {
    Definition(flow, prefix, Flatten(ts, Renderer(flow, Transforms)) + Flatten(gs, Renderer(flow, Predicates)),
               EntryNames(ts), EntryNames(gs))
  }

  /** What a request means for a flow; a request without transforms asks for nothing. */
  ghost function DefinitionOf(request: Request, flow: string, prefix: string, subst: string): Option<Definition> {
    if request.transforms == [] then None
    else Some(Rendered(flow, prefix, TransformEntries(prefix, request.transforms, subst),
                       GuardEntries(prefix, request.guards, subst)))
  }

  // ----- the definition is well formed -----

  /** The entry belongs to the owner and has a type first. */
  ghost predicate Typed(e: Entry, prefix: string) {
    prefix <= e.name && e.props != [] && e.props[0].0 == "type"
  }

  ghost predicate AllTyped(es: seq<Entry>, prefix: string) {
    forall i | 0 <= i < |es| :: Typed(es[i], prefix)
  }

  lemma LineIsOwned(flow: string, k: Kind, prefix: string, name: string, prop: (string, string))
    requires prefix <= name
    ensures flow + NameMark(k) + prefix <= Line(flow + NameMark(k) + name, prop)
  {
    var mark := flow + NameMark(k);
    assert mark + name == mark + prefix + name[|prefix|..];
    assert mark + prefix <= mark + name;
  }

  lemma RenderedLineIsOwned(flow: string, k: Kind, prefix: string, es: seq<Entry>, line: string)
    requires AllTyped(es, prefix) && line in Flatten(es, Renderer(flow, k))
    ensures flow + NameMark(k) + prefix <= line
  {
    FlattenMember(es, Renderer(flow, k), line);
    var i :| 0 <= i < |es| && line in Renderer(flow, k)(es[i]);
    var j :| 0 <= j < |es[i].props| && line == Line(flow + NameMark(k) + es[i].name, es[i].props[j]);
    LineIsOwned(flow, k, prefix, es[i].name, es[i].props[j]);
  }

  lemma TypeLineIsOne(mark: string, name: string, prop: (string, string))
    requires prop.0 == "type"
    ensures mark + (name + ".type = ") <= Line(mark + name, prop)
  {
    assert "." + prop.0 + " = " == ".type = ";
    assert Line(mark + name, prop) == mark + (name + ".type = ") + prop.1;
  }

  lemma RenderedHasTypeLine(flow: string, k: Kind, prefix: string, es: seq<Entry>, i: nat)
    requires AllTyped(es, prefix) && i < |es|
    ensures HasTypeLine(Flatten(es, Renderer(flow, k)), flow, k, es[i].name)
  {
    var line := Line(flow + NameMark(k) + es[i].name, es[i].props[0]);
    assert LinesOf(flow, k, es[i])[0] == line;
    FlattenMember(es, Renderer(flow, k), line);
    TypeLineIsOne(flow + NameMark(k), es[i].name, es[i].props[0]);
  }

  lemma TypeLineInConcat(a: seq<string>, b: seq<string>, flow: string, k: Kind, n: string)
    requires HasTypeLine(a, flow, k, n) || HasTypeLine(b, flow, k, n)
    ensures HasTypeLine(a + b, flow, k, n)
  {
    var line :| (line in a || line in b) && flow + NameMark(k) + (n + ".type = ") <= line;
    assert line in a + b;
  }

  lemma RenderedIsWellFormed(flow: string, prefix: string, ts: seq<Entry>, gs: seq<Entry>)
    requires ts != [] && AllTyped(ts, prefix) && AllTyped(gs, prefix)
    ensures var d := Rendered(flow, prefix, ts, gs);
      WellFormed(d) && forall k: Kind, n | n in d.Names(k) :: HasTypeLine(d.config, flow, k, n)
  {
    var d := Rendered(flow, prefix, ts, gs);
    var a, b := Flatten(ts, Renderer(flow, Transforms)), Flatten(gs, Renderer(flow, Predicates));
    forall i | 0 <= i < |d.config| ensures IsOwn(d, d.config[i]) {
      if d.config[i] in a {
        RenderedLineIsOwned(flow, Transforms, prefix, ts, d.config[i]);
      } else {
        RenderedLineIsOwned(flow, Predicates, prefix, gs, d.config[i]);
      }
    }
    forall k: Kind, n | n in d.Names(k) ensures HasTypeLine(d.config, flow, k, n) {
      var i :| 0 <= i < |d.Names(k)| && d.Names(k)[i] == n;
      RenderedHasTypeLine(flow, k, prefix, if k == Transforms then ts else gs, i);
      TypeLineInConcat(a, b, flow, k, n);
    }
    assert d.transforms[0] in d.Names(Transforms);
  }

  lemma EntriesAreTyped(request: Request, prefix: string, subst: string)
    ensures AllTyped(TransformEntries(prefix, request.transforms, subst), prefix)
    ensures AllTyped(GuardEntries(prefix, request.guards, subst), prefix)
  {
  }

  /** Every definition built from a request satisfies what the laws of the update ask for. */
  lemma DefinitionsAreWellFormed(request: Request, d: Definition, subst: string)
    requires DefinitionOf(request, d.flow, d.prefix, subst) == Some(d)
    ensures WellFormed(d) && forall k: Kind, n | n in d.Names(k) :: HasTypeLine(d.config, d.flow, k, n)
  {
    EntriesAreTyped(request, d.prefix, subst);
    RenderedIsWellFormed(d.flow, d.prefix, TransformEntries(d.prefix, request.transforms, subst),
                         GuardEntries(d.prefix, request.guards, subst));
  }

  // ----- building the definition -----

  method ListKeys(params: map<string, string>) returns (keys: seq<string>)
    ensures multiset(keys) == multiset(params.Keys)
  {
    keys := [];
    var left := params.Keys;
    while left != {}
      invariant left <= params.Keys
      invariant multiset(keys) + multiset(left) == multiset(params.Keys)
      decreases |left|
    {
      var key :| key in left;
      assert left == (left - {key}) + {key};
      keys := keys + [key];
      left := left - {key};
    }
  }

  lemma KeysInOrder(params: map<string, string>, keys: seq<string>)
    requires multiset(keys) == multiset(params.Keys)
    ensures Sort(keys) == Sort(Listing(params.Keys))
  {
    SortIsCanonical(keys, Listing(params.Keys));
  }

  method ListParams(params: map<string, string>, keys: seq<string>, subst: string) returns (r: seq<(string, string)>)
    ensures r == Params(params, keys, subst)
  {
    r := [];
    for i := 0 to |keys|
      invariant |r| == i && forall j | 0 <= j < i :: r[j] == Param(params, keys[j], subst)
    {
      r := r + [Param(params, keys[i], subst)];
    }
  }

  /** The parameters, keys in order. */
  method AddParams(props: seq<(string, string)>, params: map<string, string>, subst: string)
    returns (r: seq<(string, string)>)
    ensures r == props + SortedParams(params, subst)
  {
    var keys := ListKeys(params);
    KeysInOrder(params, keys);
    var listed := ListParams(params, Sort(keys), subst);
    r := props + listed;
  }

  method BuildTransforms(prefix: string, ts: seq<Transform>, subst: string) returns (es: seq<Entry>)
    ensures es == TransformEntries(prefix, ts, subst)
  {
    es := [];
    for i := 0 to |ts|
      invariant |es| == i && forall j | 0 <= j < i :: es[j] == TransformEntry(prefix, ts[j], subst)
    {
      var props := AddParams(Fixed(prefix, ts[i]), ts[i].params, subst);
      es := es + [Entry(prefix + ts[i].name, props)];
    }
  }

  method BuildGuards(prefix: string, gs: seq<Guard>, subst: string) returns (es: seq<Entry>)
    ensures es == GuardEntries(prefix, gs, subst)
  {
    es := [];
    for i := 0 to |gs|
      invariant |es| == i && forall j | 0 <= j < i :: es[j] == GuardEntry(prefix, gs[j], subst)
    {
      var props := AddParams([("type", gs[i].typeName)], gs[i].params, subst);
      es := es + [Entry(prefix + gs[i].name, props)];
    }
  }

  method GetTransformationDefinition(request: Request, flow: string, prefix: string, subst: string)
    returns (d: Option<Definition>)
    ensures d == DefinitionOf(request, flow, prefix, subst)
  {
    if request.transforms == [] {
      return None;
    }
    var transforms := BuildTransforms(prefix, request.transforms, subst);
    var guards := BuildGuards(prefix, request.guards, subst);
    d := Some(Rendered(flow, prefix, transforms, guards));
  }

  // ----- editing the lines -----

  lemma TrimAllSnoc(parts: seq<string>, part: string)
    ensures TrimAll(parts + [part]) == TrimAll(parts) + [Trim(part, WHITE)]
  {
    TrimAllConcat(parts, [part]);
    assert [part][1..] == [];
  }

  /** The foreign names in a list line. */
  method GetFilteredNames(flow: string, k: Kind, prefix: string, line: string) returns (names: seq<string>)
    requires IsList(flow, k, line)
    ensures names == Select(NamesIn(flow, k, line), ForeignTo(prefix))
  {
    var parts := Split(line[|flow + ListMark(k)|..], ',');
    names := [];
    for i := 0 to |parts|
      invariant names == Select(TrimAll(parts[..i]), ForeignTo(prefix))
    {
      var name := Trim(parts[i], WHITE);
      TrimAllSnoc(parts[..i], parts[i]);
      SelectSnoc(TrimAll(parts[..i]), name, ForeignTo(prefix));
      assert parts[..i + 1] == parts[..i] + [parts[i]];
      if !(prefix <= name) {
        names := names + [name];
      }
    }
    assert parts[..|parts|] == parts;
  }

  /** Appends the block of the owner; a definition without properties adds nothing. */
  method EnrichWithTransformationProperties(lines: seq<string>, d: Definition, xt: seq<string>, xp: seq<string>)
    returns (r: seq<string>)
    ensures r == if d.config == [] then lines else lines + Block(d, d.transforms + xt, d.predicates + xp)
  {
    if d.config == [] {
      return lines;
    }
    r := lines + d.config;
    var transforms, predicates := d.transforms + xt, d.predicates + xp;
    if |transforms| > 0 {
      r := r + [ListLine(d.flow, Transforms, transforms)];
    }
    if |predicates| > 0 {
      r := r + [ListLine(d.flow, Predicates, predicates)];
    }
  }

  /** The foreign names a line leaves behind when it is dropped. */
  function FilteredBy(d: Definition, k: Kind): string -> seq<string> {
    line => Select(NamesIn(d.flow, k, line), ForeignTo(d.prefix))
  }

  ghost function ScanOf(d: Definition, lines: seq<string>): Scan {
    ScanAll(lines, KeptBy(d), EnabledBy(d.flow), FilteredBy(d, Transforms), FilteredBy(d, Predicates))
  }

  method ScanLine(d: Definition, line: string, s: Scan) returns (t: Scan)
    ensures t == ScanStep(s, line, KeptBy(d), EnabledBy(d.flow), FilteredBy(d, Transforms), FilteredBy(d, Predicates))
  {
    ListKindsDiffer(d.flow, line);
    if d.flow <= line {
      if IsEnabled(d.flow, line) {
        return s.(before := s.before + [line], found := true);
      } else if IsList(d.flow, Transforms, line) {
        var names := GetFilteredNames(d.flow, Transforms, d.prefix, line);
        return s.(xs := s.xs + names);
      } else if IsList(d.flow, Predicates, line) {
        var names := GetFilteredNames(d.flow, Predicates, d.prefix, line);
        return s.(ys := s.ys + names);
      } else if IsOwn(d, line) {
        return s;
      }
    }
    t := if s.found then s.(after := s.after + [line]) else s.(before := s.before + [line]);
  }

  method ScanLines(d: Definition, lines: seq<string>) returns (s: Scan)
    ensures s == ScanOf(d, lines)
  {
    s := Scan([], [], [], [], false);
    for i := 0 to |lines|
      invariant s == ScanOf(d, lines[..i])
    {
      assert lines[..i + 1][..i] == lines[..i];
      s := ScanLine(d, lines[i], s);
    }
    assert lines[..|lines|] == lines;
  }

  lemma DroppedLinesCarryNames(d: Definition, k: Kind)
    ensures NamesInDropped(KeptBy(d), EnabledBy(d.flow), FilteredBy(d, k))
  {
    StopsAreKept(d);
  }

  lemma ScannedNames(d: Definition, lines: seq<string>)
    ensures ScanOf(d, lines).xs == Extra(d, Transforms, lines) && ScanOf(d, lines).ys == Extra(d, Predicates, lines)
  {
    DroppedLinesCarryNames(d, Transforms);
    DroppedLinesCarryNames(d, Predicates);
    ScanNames(lines, KeptBy(d), EnabledBy(d.flow), FilteredBy(d, Transforms), FilteredBy(d, Predicates));
    GatherSelected(lines, NamesBy(d.flow, Transforms), ForeignTo(d.prefix), FilteredBy(d, Transforms));
    GatherSelected(lines, NamesBy(d.flow, Predicates), ForeignTo(d.prefix), FilteredBy(d, Predicates));
  }

  lemma ScannedUpdate(d: Definition, lines: seq<string>)
    ensures var s := ScanOf(d, lines);
      && BlockFor(d, lines) == (if s.found then Block(d, d.transforms + s.xs, d.predicates + s.ys) else [])
      && Update(d, lines) == s.before + BlockFor(d, lines) + s.after
  {
    ScannedNames(d, lines);
    ScanParts(lines, KeptBy(d), EnabledBy(d.flow), FilteredBy(d, Transforms), FilteredBy(d, Predicates));
    ScanWeaves(lines, KeptBy(d), EnabledBy(d.flow), FilteredBy(d, Transforms), FilteredBy(d, Predicates),
               BlockFor(d, lines));
  }

  method Assemble(d: Definition, s: Scan) returns (r: seq<string>)
    ensures var block := Block(d, d.transforms + s.xs, d.predicates + s.ys);
      r == s.before + (if s.found && d.config != [] then block else []) + s.after
  {
    r := s.before;
    if s.found {
      r := EnrichWithTransformationProperties(r, d, s.xs, s.ys);
    }
    r := r + s.after;
  }

  /** Edits the lines of one flow: the whole loop computes `Update`. */
  method UpdateTransformationProperties(request: Request, lines: seq<string>, flow: string, prefix: string,
                                        subst: string)
    returns (r: seq<string>)
    ensures var d := DefinitionOf(request, flow, prefix, subst);
      r == if d.Some? then Update(d.value, lines) else lines
  {
    var definition := GetTransformationDefinition(request, flow, prefix, subst);
    if definition == None {
      return lines;
    }
    var d := definition.value;
    DefinitionsAreWellFormed(request, d, subst);
    var s := ScanLines(d, lines);
    ScannedUpdate(d, lines);
    r := Assemble(d, s);
  }
}
