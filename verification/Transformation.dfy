/**
 The update of the transformation properties of one replication flow on behalf of one owner, as a
 function on the lines of the properties text. Many owners share the lines of a flow and the two
 lines that list the names of all transforms and predicates.
 */
module Transformation {
  import opened Text
  import opened Lines

  datatype Kind = Transforms | Predicates

  function ListMark(k: Kind): string {
    match k
    case Transforms => ".transforms = "
    case Predicates => ".predicates = "
  }

  function NameMark(k: Kind): string {
    match k
    case Transforms => ".transforms."
    case Predicates => ".predicates."
  }

  /** What an owner wants a flow to contain; every name starts with the owner's prefix. */
  datatype Definition = Definition(flow: string, prefix: string, config: seq<string>,
                                   transforms: seq<string>, predicates: seq<string>)
  {
    function Names(k: Kind): seq<string> {
      match k
      case Transforms => transforms
      case Predicates => predicates
    }
  }

  // ----- kinds of lines -----

  predicate IsEnabled(flow: string, line: string) {
    line == flow + ".enabled = true"
  }

  predicate IsList(flow: string, k: Kind, line: string) {
    flow + ListMark(k) <= line
  }

  predicate IsOwn(d: Definition, line: string) {
    d.flow + NameMark(Transforms) + d.prefix <= line || d.flow + NameMark(Predicates) + d.prefix <= line
  }

  /** The line is neither a list line nor one of the owner's. */
  predicate IsKept(d: Definition, line: string) {
    !IsList(d.flow, Transforms, line) && !IsList(d.flow, Predicates, line) && !IsOwn(d, line)
  }

  lemma NameLinesAreNoLists(flow: string, k: Kind, name: string, line: string)
    requires flow + NameMark(k) + name <= line
    ensures flow + NameMark(k) <= line
    ensures !IsEnabled(flow, line) && !IsList(flow, Transforms, line) && !IsList(flow, Predicates, line)
  {
    var mark := flow + NameMark(k);
    assert mark <= line;
    assert line[|flow| + 1] == (if k == Transforms then 't' else 'p') && line[|flow| + 11] == '.';
  }

  lemma EnabledIsKept(d: Definition, line: string)
    requires IsEnabled(d.flow, line)
    ensures IsKept(d, line)
  {
    assert line[|d.flow| + 1] == 'e';
  }

  lemma ListKindsDiffer(flow: string, line: string)
    ensures !(IsList(flow, Transforms, line) && IsList(flow, Predicates, line))
    ensures IsEnabled(flow, line) ==> !IsList(flow, Transforms, line) && !IsList(flow, Predicates, line)
  {
    assert IsList(flow, Transforms, line) ==> line[|flow| + 1] == 't';
    assert IsList(flow, Predicates, line) ==> line[|flow| + 1] == 'p';
    assert IsEnabled(flow, line) ==> line[|flow| + 1] == 'e';
  }

  // ----- names in list lines -----

  function TrimAll(parts: seq<string>): seq<string> {
    if parts == [] then [] else [Trim(parts[0], WHITE)] + TrimAll(parts[1..])
  }

  /** The names a list line contains; other lines contain none. */
  function NamesIn(flow: string, k: Kind, line: string): seq<string> {
    if IsList(flow, k, line) then TrimAll(Split(line[|flow + ListMark(k)|..], ',')) else []
  }

  function NamesBy(flow: string, k: Kind): string -> seq<string> {
    line => NamesIn(flow, k, line)
  }

  function ForeignTo(prefix: string): string -> bool {
    name => !(prefix <= name)
  }

  /** All names listed in a text. */
  function Listed(flow: string, k: Kind, lines: seq<string>): seq<string> {
    Gather(lines, NamesBy(flow, k))
  }

  /** The listed names of other owners. */
  function Extra(d: Definition, k: Kind, lines: seq<string>): seq<string> {
    Select(Listed(d.flow, k, lines), ForeignTo(d.prefix))
  }

  // ----- the update -----

  function KeptBy(d: Definition): string -> bool {
    line => IsKept(d, line)
  }

  function EnabledBy(flow: string): string -> bool {
    line => IsEnabled(flow, line)
  }

  function Enableds(flow: string, lines: seq<string>): seq<string> {
    Select(lines, EnabledBy(flow))
  }

  function ListLine(flow: string, k: Kind, names: seq<string>): string {
    flow + ListMark(k) + Join(Sort(names), ',')
  }

  function ListLines(flow: string, k: Kind, names: seq<string>): seq<string> {
    if names == [] then [] else [ListLine(flow, k, names)]
  }

  /** All names in the list of kind `k` after an update. */
  function AllNames(d: Definition, k: Kind, lines: seq<string>): seq<string> {
    d.Names(k) + Extra(d, k, lines)
  }

  /** The lines of the owner, followed by the two lists. */
  function Block(d: Definition, transforms: seq<string>, predicates: seq<string>): seq<string> {
    d.config + ListLines(d.flow, Transforms, transforms) + ListLines(d.flow, Predicates, predicates)
  }

  function BlockFor(d: Definition, lines: seq<string>): seq<string> {
    if Enableds(d.flow, lines) == [] then []
    else Block(d, AllNames(d, Transforms, lines), AllNames(d, Predicates, lines))
  }

  function Update(d: Definition, lines: seq<string>): seq<string> {
    Weave(lines, KeptBy(d), EnabledBy(d.flow), BlockFor(d, lines))
  }
}
