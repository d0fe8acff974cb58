/** The string operations the operator takes from Go's `strings` and `sort` packages. */
module Text {

  predicate Lacks(s: string, c: char) {
    c !in s
  }

  /** Position of the first `c`, or the length of `s`. */
  function IndexOf(s: string, c: char): (i: nat)
    ensures i <= |s|
  {
    if s == "" || s[0] == c then 0 else 1 + IndexOf(s[1..], c)
  }

  lemma {:induction false} IndexOfSpec(s: string, c: char)
    ensures var i := IndexOf(s, c); Lacks(s[..i], c) && (i < |s| ==> s[i] == c)
    ensures IndexOf(s, c) == |s| <==> Lacks(s, c)
  {
    if s != "" && s[0] != c {
      IndexOfSpec(s[1..], c);
      var i := IndexOf(s[1..], c);
      assert s[..i + 1] == [s[0]] + s[1..][..i];
      assert s == [s[0]] + s[1..];
    }
  }

  lemma {:induction false} IndexOfFirst(a: string, c: char, b: string)
    requires Lacks(a, c)
    ensures IndexOf(a + [c] + b, c) == |a|
  {
    if a != "" {
      assert (a + [c] + b)[1..] == a[1..] + [c] + b;
      IndexOfFirst(a[1..], c, b);
    }
  }

  /** `strings.Split` with a one-character separator. */
  function Split(s: string, c: char): (parts: seq<string>)
    ensures parts != []
    decreases |s|
  {
    var i := IndexOf(s, c);
    if i == |s| then [s] else [s[..i]] + Split(s[i + 1..], c)
  }

  /** `strings.Join` with a one-character separator. */
  function Join(parts: seq<string>, c: char): string {
    if parts == [] then "" else if |parts| == 1 then parts[0] else parts[0] + [c] + Join(parts[1..], c)
  }

  ghost predicate AllLack(parts: seq<string>, c: char) {
    forall i | 0 <= i < |parts| :: Lacks(parts[i], c)
  }

  lemma {:induction false} SplitLacks(s: string, c: char)
    ensures AllLack(Split(s, c), c)
    decreases |s|
  {
    var i := IndexOf(s, c);
    IndexOfSpec(s, c);
    if i < |s| {
      SplitLacks(s[i + 1..], c);
    }
  }

  lemma SplitNone(s: string, c: char)
    requires Lacks(s, c)
    ensures Split(s, c) == [s]
  {
    IndexOfSpec(s, c);
  }

  lemma SplitHead(a: string, c: char, b: string)
    requires Lacks(a, c)
    ensures Split(a + [c] + b, c) == [a] + Split(b, c)
  {
    IndexOfFirst(a, c, b);
    var s := a + [c] + b;
    assert s[..|a|] == a && s[|a| + 1..] == b;
  }

  /** Splitting undoes joining when no part contains the separator. */
  lemma {:induction false} SplitJoin(parts: seq<string>, c: char)
    requires parts != [] && AllLack(parts, c)
    ensures Split(Join(parts, c), c) == parts
  {
    if |parts| == 1 {
      SplitNone(parts[0], c);
    } else {
      SplitHead(parts[0], c, Join(parts[1..], c));
      SplitJoin(parts[1..], c);
    }
  }

  lemma JoinCons(part: string, parts: seq<string>, c: char)
    requires parts != []
    ensures Join([part] + parts, c) == part + [c] + Join(parts, c)
  {
    assert ([part] + parts)[1..] == parts;
  }

  /** Joining undoes splitting. */
  lemma {:induction false} JoinSplit(s: string, c: char)
    ensures Join(Split(s, c), c) == s
    decreases |s|
  {
    var i := IndexOf(s, c);
    IndexOfSpec(s, c);
    if i < |s| {
      JoinSplit(s[i + 1..], c);
      JoinCons(s[..i], Split(s[i + 1..], c), c);
      assert s == s[..i] + [c] + s[i + 1..];
    }
  }

  lemma {:induction false} JoinConcat(a: seq<string>, b: seq<string>, c: char)
    requires a != [] && b != []
    ensures Join(a + b, c) == Join(a, c) + [c] + Join(b, c)
  {
    if |a| == 1 {
      JoinCons(a[0], b, c);
      assert a == [a[0]];
    } else {
      JoinConcat(a[1..], b, c);
      assert a + b == [a[0]] + (a[1..] + b);
      JoinCons(a[0], a[1..] + b, c);
    }
  }

  lemma {:induction false} JoinLacks(parts: seq<string>, at: char, c: char)
    requires c != at && AllLack(parts, c)
    ensures Lacks(Join(parts, at), c)
  {
    if |parts| > 1 {
      JoinLacks(parts[1..], at, c);
    }
  }

  lemma SplitConcat(a: string, c: char, b: string)
    ensures Split(a + [c] + b, c) == Split(a, c) + Split(b, c)
  {
    JoinSplit(a, c);
    JoinSplit(b, c);
    JoinConcat(Split(a, c), Split(b, c), c);
    SplitLacks(a, c);
    SplitLacks(b, c);
    SplitJoin(Split(a, c) + Split(b, c), c);
  }

  /** Two beginnings of one text nest. */
  lemma BeginningsNest(p: string, q: string, s: string)
    requires p <= s && q <= s
    ensures p <= q || q <= p
  {
    if |p| <= |q| {
      assert forall i | 0 <= i < |p| :: p[i] == s[i] == q[i];
    } else {
      assert forall i | 0 <= i < |q| :: q[i] == s[i] == p[i];
    }
  }

  /** The text before the first dot of a line is determined. */
  lemma DotDecides(a: string, b: string, line: string)
    requires Lacks(a, '.') && Lacks(b, '.') && a + ['.'] <= line && b + ['.'] <= line
    ensures a == b
  {
    assert line == a + ['.'] + line[|a| + 1..] && line == b + ['.'] + line[|b| + 1..];
    IndexOfFirst(a, '.', line[|a| + 1..]);
    IndexOfFirst(b, '.', line[|b| + 1..]);
    assert line[..|a|] == a && line[..|b|] == b;
  }

  // ----- trimming -----

  function TrimLeft(s: string, cut: set<char>): string {
    if s == "" || s[0] !in cut then s else TrimLeft(s[1..], cut)
  }

  function TrimRight(s: string, cut: set<char>): string {
    if s == "" || s[|s| - 1] !in cut then s else TrimRight(s[..|s| - 1], cut)
  }

  /** `strings.Trim`. */
  function Trim(s: string, cut: set<char>): string {
    TrimRight(TrimLeft(s, cut), cut)
  }

  /** Nothing to trim at either end. */
  predicate Tight(s: string, cut: set<char>) {
    s == "" || (s[0] !in cut && s[|s| - 1] !in cut)
  }

  lemma TrimTight(s: string, cut: set<char>)
    requires Tight(s, cut)
    ensures Trim(s, cut) == s
  {
  }

  lemma {:induction false} TrimLeftSpec(s: string, cut: set<char>, c: char)
    ensures var r := TrimLeft(s, cut); (r == "" || r[0] !in cut) && (Lacks(s, c) ==> Lacks(r, c))
  {
    if s != "" && s[0] in cut {
      TrimLeftSpec(s[1..], cut, c);
    }
  }

  lemma {:induction false} TrimRightSpec(s: string, cut: set<char>, c: char)
    ensures var r := TrimRight(s, cut); r <= s && (r == "" || r[|r| - 1] !in cut) && (Lacks(s, c) ==> Lacks(r, c))
  {
    if s != "" && s[|s| - 1] in cut {
      TrimRightSpec(s[..|s| - 1], cut, c);
    }
  }

  /** A trimmed string is tight and gained no character. */
  lemma TrimSpec(s: string, cut: set<char>, c: char)
    ensures Tight(Trim(s, cut), cut)
    ensures Lacks(s, c) ==> Lacks(Trim(s, cut), c)
  {
    TrimLeftSpec(s, cut, c);
    TrimRightSpec(TrimLeft(s, cut), cut, c);
  }

  /** Trimming on the right keeps a beginning that ends in a character that stays. */
  lemma {:induction false} TrimRightKeeps(s: string, p: string, cut: set<char>)
    requires p <= s && p != "" && p[|p| - 1] !in cut
    ensures p <= TrimRight(s, cut)
  {
    if s[|s| - 1] in cut {
      assert |p| < |s|;
      TrimRightKeeps(s[..|s| - 1], p, cut);
    }
  }

  lemma TrimKeeps(s: string, p: string, cut: set<char>)
    requires p <= s && p != "" && p[0] !in cut && p[|p| - 1] !in cut
    ensures p <= Trim(s, cut)
  {
    TrimRightKeeps(s, p, cut);
  }

  const SPACE: set<char> := {' '}

  /** The characters `strings.TrimSpace` removes. */
  const WHITE: set<char> := {' ', '\t', '\n', '\r', '\U{000B}', '\U{000C}', '\U{0085}', '\U{00A0}', '\U{1680}',
    '\U{2000}', '\U{2001}', '\U{2002}', '\U{2003}', '\U{2004}', '\U{2005}', '\U{2006}', '\U{2007}', '\U{2008}',
    '\U{2009}', '\U{200A}', '\U{2028}', '\U{2029}', '\U{202F}', '\U{205F}', '\U{3000}'}

  // ----- sorting -----

  predicate AtMost(a: string, b: string) {
    a == "" || (b != "" && (a[0] < b[0] || (a[0] == b[0] && AtMost(a[1..], b[1..]))))
  }

  lemma {:induction false} AtMostTotal(a: string, b: string)
    ensures AtMost(a, b) || AtMost(b, a)
  {
    if a != "" && b != "" && a[0] == b[0] {
      AtMostTotal(a[1..], b[1..]);
    }
  }

  lemma {:induction false} AtMostAntisymmetric(a: string, b: string)
    requires AtMost(a, b) && AtMost(b, a)
    ensures a == b
  {
    if a != "" && b != "" && a[0] == b[0] {
      AtMostAntisymmetric(a[1..], b[1..]);
      assert a == [a[0]] + a[1..] && b == [b[0]] + b[1..];
    }
  }

  lemma {:induction false} AtMostTransitive(a: string, b: string, c: string)
    requires AtMost(a, b) && AtMost(b, c)
    ensures AtMost(a, c)
  {
    if a != "" && a[0] == b[0] && b[0] == c[0] {
      AtMostTransitive(a[1..], b[1..], c[1..]);
    }
  }

  /** The texts agree up to a place, and the first has the smaller character there. */
  ghost predicate SmallerAt(a: string, b: string, i: nat) {
    i < |a| && i < |b| && a[..i] == b[..i] && a[i] < b[i]
  }

  lemma SmallerBehind(a: string, b: string, i: nat)
    requires a != "" && b != "" && a[0] == b[0]
    ensures SmallerAt(a, b, i + 1) <==> SmallerAt(a[1..], b[1..], i)
  {
    if i + 1 < |a| && i + 1 < |b| {
      assert a[..i + 1] == [a[0]] + a[1..][..i] && b[..i + 1] == [b[0]] + b[1..][..i];
    }
  }

  lemma BeginsBehind(a: string, b: string)
    requires a != "" && b != "" && a[0] == b[0]
    ensures a <= b <==> a[1..] <= b[1..]
  {
    assert a == [a[0]] + a[1..] && b == [b[0]] + b[1..];
  }

  /** The order is the lexicographic one. */
  lemma {:induction false} AtMostIs(a: string, b: string)
    ensures AtMost(a, b) <==> a <= b || exists i: nat :: SmallerAt(a, b, i)
  {
    if a != "" && b != "" {
      if a[0] == b[0] {
        AtMostIs(a[1..], b[1..]);
        BeginsBehind(a, b);
        if i: nat :| SmallerAt(a, b, i) {
          SmallerBehind(a, b, i - 1);
        }
        if i: nat :| SmallerAt(a[1..], b[1..], i) {
          SmallerBehind(a, b, i);
        }
      } else if a[0] < b[0] {
        assert SmallerAt(a, b, 0);
      } else {
        forall i: nat ensures !SmallerAt(a, b, i) {
          if 0 < i < |a| && i < |b| {
            assert a[..i][0] == a[0] && b[..i][0] == b[0];
          }
        }
      }
    }
  }

  function Insert(x: string, xs: seq<string>): seq<string> {
    if xs == [] then [x]
    else if AtMost(x, xs[0]) then [x] + xs
    else [xs[0]] + Insert(x, xs[1..])
  }

  /** `sort.Strings`. */
  function Sort(xs: seq<string>): seq<string> {
    if xs == [] then [] else Insert(xs[0], Sort(xs[1..]))
  }

  lemma {:induction false} InsertAdds(x: string, xs: seq<string>)
    ensures multiset(Insert(x, xs)) == multiset(xs) + multiset{x}
  {
    if xs != [] && !AtMost(x, xs[0]) {
      InsertAdds(x, xs[1..]);
      assert xs == [xs[0]] + xs[1..];
    }
  }

  lemma {:induction false} SortPermutes(xs: seq<string>)
    ensures multiset(Sort(xs)) == multiset(xs)
  {
    if xs != [] {
      SortPermutes(xs[1..]);
      InsertAdds(xs[0], Sort(xs[1..]));
      assert xs == [xs[0]] + xs[1..];
    }
  }

  ghost predicate Ordered(xs: seq<string>) {
    forall i, j | 0 <= i < j < |xs| :: AtMost(xs[i], xs[j])
  }

  lemma {:induction false} InsertIsOrdered(x: string, xs: seq<string>)
    requires Ordered(xs)
    ensures Ordered(Insert(x, xs))
  {
    if xs != [] {
      if AtMost(x, xs[0]) {
        forall j | 0 < j < |xs| ensures AtMost(x, xs[j]) {
          AtMostTransitive(x, xs[0], xs[j]);
        }
      } else {
        AtMostTotal(x, xs[0]);
        InsertIsOrdered(x, xs[1..]);
        var rest := Insert(x, xs[1..]);
        forall j | 0 <= j < |rest| ensures AtMost(xs[0], rest[j]) {
          InsertAdds(x, xs[1..]);
          assert rest[j] in multiset(rest);
        }
      }
    }
  }

  /** Sorted texts are in order, and the same ones as before. */
  lemma {:induction false} SortIsOrdered(xs: seq<string>)
    ensures Ordered(Sort(xs)) && multiset(Sort(xs)) == multiset(xs)
  {
    SortPermutes(xs);
    if xs != [] {
      SortIsOrdered(xs[1..]);
      InsertIsOrdered(xs[0], Sort(xs[1..]));
    }
  }

  lemma {:induction false} InsertCommutes(x: string, y: string, xs: seq<string>)
    ensures Insert(x, Insert(y, xs)) == Insert(y, Insert(x, xs))
  {
    AtMostTotal(x, y);
    if AtMost(x, y) && AtMost(y, x) {
      AtMostAntisymmetric(x, y);
    } else if xs != [] {
      if AtMost(x, xs[0]) && AtMost(y, x) {
        AtMostTransitive(y, x, xs[0]);
      }
      if AtMost(y, xs[0]) && AtMost(x, y) {
        AtMostTransitive(x, y, xs[0]);
      }
      if !AtMost(x, xs[0]) && !AtMost(y, xs[0]) {
        InsertCommutes(x, y, xs[1..]);
      }
    }
  }

  function Without<T>(xs: seq<T>, i: nat): seq<T>
    requires i < |xs|
  {
    xs[..i] + xs[i + 1..]
  }

  lemma {:induction false} SortMovesToFront(xs: seq<string>, i: nat)
    requires i < |xs|
    ensures Sort(xs) == Insert(xs[i], Sort(Without(xs, i)))
  {
    if i == 0 {
      assert Without(xs, 0) == xs[1..];
    } else {
      SortMovesToFront(xs[1..], i - 1);
      assert Without(xs, i)[0] == xs[0];
      assert Without(xs, i)[1..] == Without(xs[1..], i - 1);
      InsertCommutes(xs[0], xs[i], Sort(Without(xs[1..], i - 1)));
    }
  }

  lemma SameAfterRemoval(a: seq<string>, b: seq<string>, i: nat)
    requires a != [] && multiset(a) == multiset(b) && i < |b| && b[i] == a[0]
    ensures multiset(a[1..]) == multiset(Without(b, i))
  {
    assert a == [a[0]] + a[1..];
    assert b == b[..i] + ([b[i]] + b[i + 1..]);
    assert multiset(b) - multiset{b[i]} == multiset(Without(b, i));
    assert multiset(a) - multiset{a[0]} == multiset(a[1..]);
  }

  /** Sorting depends on the multiset of its input only. */
  lemma {:induction false} SortIsCanonical(a: seq<string>, b: seq<string>)
    requires multiset(a) == multiset(b)
    ensures Sort(a) == Sort(b)
  {
    if a == [] {
      assert |multiset(b)| == 0;
    } else {
      assert a[0] in multiset(b);
      var i :| 0 <= i < |b| && b[i] == a[0];
      SortMovesToFront(b, i);
      SameAfterRemoval(a, b, i);
      SortIsCanonical(a[1..], Without(b, i));
    }
  }
}
