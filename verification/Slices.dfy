/**
 Go slices: windows on shared backing arrays. `append` writes in place while there is spare capacity
 and copies to a new array otherwise, so a splice built from appends must not read what it overwrites.
 */
module Slices {

  datatype Slice<T> = Slice(a: array<T>, lo: nat, hi: nat)

  ghost predicate Window<T>(s: Slice<T>) {
    s.lo <= s.hi <= s.a.Length
  }

  ghost function Content<T>(s: Slice<T>): seq<T>
    requires Window(s)
    reads s.a
  {
    s.a[s.lo..s.hi]
  }

  /** Copies `vals` into `a` from index `at` on and touches nothing else. */
  method Write<T>(a: array<T>, at: nat, vals: seq<T>)
    requires at + |vals| <= a.Length
    modifies a
    ensures forall i | 0 <= i < |vals| :: a[at + i] == vals[i]
    ensures forall i | 0 <= i < a.Length && !(at <= i < at + |vals|) :: a[i] == old(a[i])
  {
    for k := 0 to |vals|
      invariant forall i | 0 <= i < k :: a[at + i] == vals[i]
      invariant forall i | 0 <= i < a.Length && !(at <= i < at + k) :: a[i] == old(a[i])
    {
      a[at + k] := vals[k];
    }
  }

  /** `s[i]` */
  method Get<T>(s: Slice<T>, i: nat) returns (x: T)
    requires Window(s) && i < s.hi - s.lo
    ensures x == Content(s)[i]
  {
    x := s.a[s.lo + i];
  }

  /** `s[i] = x` */
  method Put<T>(s: Slice<T>, i: nat, x: T)
    requires Window(s) && i < s.hi - s.lo
    modifies s.a
    ensures Content(s) == old(Content(s))[i := x]
  {
    s.a[s.lo + i] := x;
  }

  /** A slice of its own with the given elements. */
  method FromSeq<T(0)>(vals: seq<T>) returns (s: Slice<T>)
    ensures fresh(s.a) && Window(s) && Content(s) == vals
  {
    var a := new T[|vals|];
    Write(a, 0, vals);
    s := Slice(a, 0, |vals|);
    assert a[..] == vals;
  }

  /** `append(s, t...)`: in place exactly if the capacity suffices; a new array may be larger than needed. */
  method Append<T(0)>(s: Slice<T>, t: Slice<T>) returns (r: Slice<T>)
    requires Window(s) && Window(t)
    modifies s.a
    ensures Window(r) && Content(r) == old(Content(s)) + old(Content(t))
    ensures r.a == s.a <==> s.hi + (t.hi - t.lo) <= s.a.Length
    ensures r.a != s.a ==> fresh(r.a) && s.a[..] == old(s.a[..])
    ensures r.a == s.a ==> r.lo == s.lo && s.a[..s.hi] == old(s.a[..s.hi])
    ensures r.a == s.a ==> forall j | r.hi <= j < s.a.Length :: s.a[j] == old(s.a[j])
  {
    var vals := t.a[t.lo..t.hi];
    if s.hi + |vals| <= s.a.Length {
      Write(s.a, s.hi, vals);
      r := Slice(s.a, s.lo, s.hi + |vals|);
      assert s.a[s.hi..s.hi + |vals|] == vals;
    } else {
      var mine := s.a[s.lo..s.hi];
      var spare: nat :| spare >= 0;
      var b := new T[|mine| + |vals| + spare];
      Write(b, 0, mine + vals);
      assert b[..|mine| + |vals|] == mine + vals;
      r := Slice(b, 0, |mine| + |vals|);
    }
  }

  /** Inserting with the tail copied aside first: `before`, `new`, `after`, whatever the capacity. */
  method SpliceCopying<T(0)>(s: Slice<T>, pos: nat, inserted: Slice<T>) returns (r: Slice<T>)
    requires Window(s) && Window(inserted) && pos <= s.hi - s.lo && inserted.a != s.a
    modifies s.a
    ensures Window(r)
    ensures Content(r) == old(Content(s))[..pos] + old(Content(inserted)) + old(Content(s))[pos..]
  {
    var none := new T[0];
    ghost var all := Content(s);
    assert s.a[s.lo + pos..s.hi] == all[pos..] && s.a[s.lo..s.lo + pos] == all[..pos];
    var after := Append(Slice(none, 0, 0), Slice(s.a, s.lo + pos, s.hi));
    assert Content(after) == all[pos..] && after.a != s.a;
    var before := Append(Slice(s.a, s.lo, s.lo + pos), inserted);
    assert Content(before) == all[..pos] + old(Content(inserted));
    r := Append(before, after);
  }

  /** Inserting with the tail appended to the new elements first. */
  method SpliceNested<T(0)>(s: Slice<T>, pos: nat, inserted: Slice<T>) returns (r: Slice<T>)
    requires Window(s) && Window(inserted) && pos <= s.hi - s.lo && inserted.a != s.a
    modifies s.a, inserted.a
    ensures Window(r)
    ensures Content(r) == old(Content(s))[..pos] + old(Content(inserted)) + old(Content(s))[pos..]
  {
    var tail := Append(inserted, Slice(s.a, s.lo + pos, s.hi));
    r := Append(Slice(s.a, s.lo, s.lo + pos), tail);
  }

  /** Removes element `i` by shifting the rest down and blanking the last place. */
  method RemoveAt<T>(s: Slice<T>, i: nat, blank: T) returns (r: Slice<T>)
    requires Window(s) && i < s.hi - s.lo
    modifies s.a
    ensures r == Slice(s.a, s.lo, s.hi - 1)
    ensures Content(r) == old(Content(s))[..i] + old(Content(s))[i + 1..]
    ensures s.a[s.hi - 1] == blank
    ensures forall j | 0 <= j < s.lo || s.hi <= j < s.a.Length :: s.a[j] == old(s.a[j])
  {
    var rest := s.a[s.lo + i + 1..s.hi];
    Write(s.a, s.lo + i, rest);
    s.a[s.hi - 1] := blank;
    r := Slice(s.a, s.lo, s.hi - 1);
    assert Content(r)[i..] == rest;
    assert Content(r)[..i] == old(Content(s))[..i];
  }
}
