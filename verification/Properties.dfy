/** Reading a properties text line by line: the last row of a key decides its value. */
module Properties {
  import opened Options
  import opened Text
  import opened Lines

  /** A value without a comma is one text, otherwise a list; blanks around every item are cut. */
  datatype Value = One(text: string) | Many(items: seq<string>)

  /** Blank lines and comments are skipped. */
  predicate IsRow(line: string) {
    line != "" && line[0] != '#'
  }

  function KeyOf(line: string): string {
    Trim(Split(line, '=')[0], SPACE)
  }

  predicate HasEquals(line: string) {
    |Split(line, '=')| > 1
  }

  /** The text between the first and the second equals sign. */
  function RawOf(line: string): string
    requires HasEquals(line)
  {
    Split(line, '=')[1]
  }

  function TrimEach(parts: seq<string>): seq<string> {
    if parts == [] then [] else [Trim(parts[0], SPACE)] + TrimEach(parts[1..])
  }

  /** The items of a comma separated text. */
  function ItemsIn(raw: string): seq<string> {
    TrimEach(Split(raw, ','))
  }

  function ValueOf(raw: string): Value {
    if |Split(raw, ',')| == 1 then One(Trim(raw, SPACE)) else Many(ItemsIn(raw))
  }

  /** A value as a list. */
  function AsItems(v: Value): seq<string> {
    match v
    case One(text) => [text]
    case Many(items) => items
  }

  predicate HasKey(key: string, line: string) {
    IsRow(line) && KeyOf(line) == key
  }

  function RowOf(key: string): string -> bool {
    line => HasKey(key, line)
  }

  function Rows(lines: seq<string>, key: string): seq<string> {
    Select(lines, RowOf(key))
  }

  /** Every row has an equals sign; reading a row without one panics. */
  ghost predicate Readable(lines: seq<string>) {
    forall i | 0 <= i < |lines| && IsRow(lines[i]) :: HasEquals(lines[i])
  }

  lemma RowsAreReadable(lines: seq<string>, key: string)
    requires Readable(lines)
    ensures forall i | 0 <= i < |Rows(lines, key)| :: HasEquals(Rows(lines, key)[i]) && HasKey(key, Rows(lines, key)[i])
  {
    SelectedSatisfy(lines, RowOf(key));
  }

  /** What the text says about a key. */
  function Lookup(lines: seq<string>, key: string): Option<Value>
    requires Readable(lines)
  {
    var rows := Rows(lines, key);
    if rows == [] then None else
      RowsAreReadable(lines, key);
      Some(ValueOf(RawOf(rows[|rows| - 1])))
  }

  /** The items of a key; none if there is no row. */
  function Items(lines: seq<string>, key: string): seq<string>
    requires Readable(lines)
  {
    match Lookup(lines, key)
    case None => []
    case Some(v) => AsItems(v)
  }

  lemma {:induction false} TrimEachAt(parts: seq<string>, i: nat)
    requires i < |parts|
    ensures |TrimEach(parts)| == |parts| && TrimEach(parts)[i] == Trim(parts[i], SPACE)
  {
    if i > 0 {
      TrimEachAt(parts[1..], i - 1);
    } else if |parts| > 1 {
      TrimEachAt(parts[1..], 0);
    }
  }

  lemma TrimEachOne(part: string)
    ensures TrimEach([part]) == [Trim(part, SPACE)]
  {
    assert [part][1..] == [];
  }

  lemma ValueItems(raw: string)
    ensures AsItems(ValueOf(raw)) == ItemsIn(raw)
  {
    var parts := Split(raw, ',');
    if |parts| == 1 {
      JoinSplit(raw, ',');
      assert parts == [raw];
      TrimEachOne(raw);
    }
  }

  // ----- reading written rows back -----

  lemma SpaceInFront(s: string)
    ensures Trim([' '] + s, SPACE) == Trim(s, SPACE)
  {
    assert ([' '] + s)[1..] == s;
  }

  /** A blank behind the equals sign makes no difference. */
  lemma BlankIsIgnored(raw: string)
    ensures ItemsIn([' '] + raw) == ItemsIn(raw)
  {
    var s, i := [' '] + raw, IndexOf(raw, ',');
    assert s[1..] == raw;
    assert IndexOf(s, ',') == i + 1;
    if i == |raw| {
      SpaceInFront(raw);
      TrimEachOne(raw);
      TrimEachOne(s);
    } else {
      assert s[..i + 1] == [' '] + raw[..i] && s[i + 2..] == raw[i + 1..];
      SpaceInFront(raw[..i]);
      var rest := Split(raw[i + 1..], ',');
      assert ([s[..i + 1]] + rest)[1..] == rest && ([raw[..i]] + rest)[1..] == rest;
    }
  }

  /** Items without commas and outer blanks. */
  ghost predicate CleanItems(items: seq<string>) {
    forall i | 0 <= i < |items| :: Lacks(items[i], ',') && Tight(items[i], SPACE)
  }

  lemma ItemsAreClean(raw: string, c: char)
    ensures CleanItems(ItemsIn(raw)) && ItemsIn(raw) != []
    ensures Lacks(raw, c) ==> forall i | 0 <= i < |ItemsIn(raw)| :: Lacks(ItemsIn(raw)[i], c)
  {
    var parts := Split(raw, ',');
    SplitLacks(raw, ',');
    TrimEachAt(parts, 0);
    forall i | 0 <= i < |ItemsIn(raw)|
      ensures Lacks(ItemsIn(raw)[i], ',') && Tight(ItemsIn(raw)[i], SPACE)
      ensures (Lacks(raw, c) ==> Lacks(ItemsIn(raw)[i], c))
    {
      TrimEachAt(parts, i);
      TrimSpec(parts[i], SPACE, ',');
      TrimSpec(parts[i], SPACE, c);
      if Lacks(raw, c) {
        PartLacks(raw, ',', i, c);
      }
    }
  }

  lemma {:induction false} PartLacks(s: string, at: char, i: nat, c: char)
    requires Lacks(s, c) && i < |Split(s, at)|
    ensures Lacks(Split(s, at)[i], c)
    decreases |s|
  {
    var n := IndexOf(s, at);
    if n < |s| && i > 0 {
      PartLacks(s[n + 1..], at, i - 1, c);
    }
  }

  lemma {:induction false} TrimEachClean(items: seq<string>)
    requires CleanItems(items)
    ensures TrimEach(items) == items
  {
    if items != [] {
      TrimTight(items[0], SPACE);
      TrimEachClean(items[1..]);
    }
  }

  /** Clean items that were joined are read back. */
  lemma JoinedItems(items: seq<string>)
    requires items != [] && CleanItems(items)
    ensures ItemsIn([' '] + Join(items, ',')) == items
  {
    BlankIsIgnored(Join(items, ','));
    SplitJoin(items, ',');
    TrimEachClean(items);
  }

  /** A row as the operator writes it. */
  function Row(key: string, text: string): string {
    key + " = " + text
  }

  /** A key that can be written and read back. */
  ghost predicate GoodKey(key: string) {
    key != "" && key[0] != '#' && Lacks(key, ' ') && Lacks(key, '=')
  }

  lemma TrimBlankBehind(key: string)
    requires Lacks(key, ' ')
    ensures Trim(key + [' '], SPACE) == key
  {
    if key == "" {
      assert ([' '])[1..] == "";
      assert key + [' '] == [' '];
    } else {
      assert key[0] in key && key[|key| - 1] in key;
      assert (key + [' '])[..|key|] == key;
      assert TrimRight(key, SPACE) == key;
    }
  }

  lemma RowReadsBack(key: string, text: string)
    requires GoodKey(key)
    ensures HasKey(key, Row(key, text)) && HasEquals(Row(key, text)) && key <= Row(key, text)
    ensures Lacks(text, '=') ==> RawOf(Row(key, text)) == [' '] + text
  {
    var row := Row(key, text);
    assert row == (key + [' ']) + ['='] + ([' '] + text);
    SplitHead(key + [' '], '=', [' '] + text);
    TrimBlankBehind(key);
    if Lacks(text, '=') {
      SplitNone([' '] + text, '=');
    }
    assert row[..|key|] == key;
  }

  /** A row that starts with `k` has a key that starts with `k`. */
  lemma RowStart(key: string, line: string, k: string)
    requires HasKey(key, line) && k <= line && k != "" && Lacks(k, ' ') && Lacks(k, '=')
    ensures k <= key
  {
    var i := IndexOf(line, '=');
    IndexOfSpec(line, '=');
    assert line[0] == k[0];
    assert |k| <= i;
    var head := line[..i];
    assert Split(line, '=')[0] == head;
    assert k <= head;
    TrimKeeps(head, k, SPACE);
  }

  // ----- the reader -----

  lemma RowsSnoc(lines: seq<string>, n: nat, key: string)
    requires n < |lines|
    ensures Rows(lines[..n + 1], key) == Rows(lines[..n], key) + (if HasKey(key, lines[n]) then [lines[n]] else [])
  {
    assert lines[..n + 1] == lines[..n] + [lines[n]];
    SelectSnoc(lines[..n], lines[n], RowOf(key));
  }

  lemma LookupSnoc(lines: seq<string>, n: nat, key: string)
    requires n < |lines| && Readable(lines)
    ensures Lookup(lines[..n + 1], key)
      == if HasKey(key, lines[n]) then Some(ValueOf(RawOf(lines[n]))) else Lookup(lines[..n], key)
  {
    RowsSnoc(lines, n, key);
  }

  ghost predicate Agrees(props: map<string, Value>, lines: seq<string>, n: nat)
    requires n <= |lines| && Readable(lines)
  {
    forall key :: Lookup(lines[..n], key) == if key in props then Some(props[key]) else None
  }

  lemma AgreesNext(props: map<string, Value>, lines: seq<string>, n: nat)
    requires n < |lines| && Readable(lines) && Agrees(props, lines, n)
    ensures var line := lines[n];
      Agrees(if IsRow(line) then props[KeyOf(line) := ValueOf(RawOf(line))] else props, lines, n + 1)
  {
    var line := lines[n];
    var next := if IsRow(line) then props[KeyOf(line) := ValueOf(RawOf(line))] else props;
    forall key ensures Lookup(lines[..n + 1], key) == if key in next then Some(next[key]) else None {
      LookupSnoc(lines, n, key);
      assert Lookup(lines[..n], key) == if key in props then Some(props[key]) else None;
    }
  }

  /** Reads all properties; a later row replaces an earlier one with the same key. */
  method GetProperties(content: string) returns (props: map<string, Value>)
    requires Readable(Split(content, '\n'))
    ensures forall key :: key in props <==> Rows(Split(content, '\n'), key) != []
    ensures forall key | key in props :: Lookup(Split(content, '\n'), key) == Some(props[key])
  {
    var rows := Split(content, '\n');
    props := map[];
    for i := 0 to |rows|
      invariant Agrees(props, rows, i)
    {
      AgreesNext(props, rows, i);
      if IsRow(rows[i]) {
        props := props[KeyOf(rows[i]) := ValueOf(RawOf(rows[i]))];
      }
    }
    assert rows[..|rows|] == rows;
  }
}
