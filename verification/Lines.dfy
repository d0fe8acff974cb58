/** Selecting and gathering over lists of strings, and weaving a block into a list of lines. */
module Lines {
  import opened Text

  function Select(xs: seq<string>, p: string -> bool): seq<string> {
    if xs == [] then [] else (if p(xs[0]) then [xs[0]] else []) + Select(xs[1..], p)
  }

  function Gather(xs: seq<string>, f: string -> seq<string>): seq<string> {
    if xs == [] then [] else f(xs[0]) + Gather(xs[1..], f)
  }

  lemma {:induction false} SelectConcat(a: seq<string>, b: seq<string>, p: string -> bool)
    ensures Select(a + b, p) == Select(a, p) + Select(b, p)
  {
    if a == [] {
      assert a + b == b;
    } else {
      assert (a + b)[1..] == a[1..] + b;
      SelectConcat(a[1..], b, p);
    }
  }

  lemma {:induction false} SelectAll(xs: seq<string>, p: string -> bool)
    requires forall i | 0 <= i < |xs| :: p(xs[i])
    ensures Select(xs, p) == xs
  {
    if xs != [] {
      SelectAll(xs[1..], p);
    }
  }

  lemma {:induction false} SelectNone(xs: seq<string>, p: string -> bool)
    requires forall i | 0 <= i < |xs| :: !p(xs[i])
    ensures Select(xs, p) == []
  {
    if xs != [] {
      SelectNone(xs[1..], p);
    }
  }

  lemma {:induction false} SelectCount(xs: seq<string>, p: string -> bool, x: string)
    ensures multiset(Select(xs, p))[x] == if p(x) then multiset(xs)[x] else 0
  {
    if xs != [] {
      SelectCount(xs[1..], p, x);
      assert xs == [xs[0]] + xs[1..];
    }
  }

  lemma SelectMember(xs: seq<string>, p: string -> bool, x: string)
    ensures x in Select(xs, p) <==> x in xs && p(x)
  {
    SelectCount(xs, p, x);
    assert x in Select(xs, p) <==> x in multiset(Select(xs, p));
    assert x in xs <==> x in multiset(xs);
  }

  lemma SelectedSatisfy(xs: seq<string>, p: string -> bool)
    ensures forall i | 0 <= i < |Select(xs, p)| :: p(Select(xs, p)[i]) && Select(xs, p)[i] in xs
  {
    forall i | 0 <= i < |Select(xs, p)| ensures p(Select(xs, p)[i]) && Select(xs, p)[i] in xs {
      SelectMember(xs, p, Select(xs, p)[i]);
    }
  }

  lemma SelectPermutes(a: seq<string>, b: seq<string>, p: string -> bool)
    requires multiset(a) == multiset(b)
    ensures multiset(Select(a, p)) == multiset(Select(b, p))
  {
    forall x ensures multiset(Select(a, p))[x] == multiset(Select(b, p))[x] {
      SelectCount(a, p, x);
      SelectCount(b, p, x);
    }
  }

  lemma {:induction false} SelectsCommute(xs: seq<string>, p: string -> bool, q: string -> bool)
    ensures Select(Select(xs, p), q) == Select(Select(xs, q), p)
  {
    if xs != [] {
      SelectsCommute(xs[1..], p, q);
      SelectConcat(if p(xs[0]) then [xs[0]] else [], Select(xs[1..], p), q);
      SelectConcat(if q(xs[0]) then [xs[0]] else [], Select(xs[1..], q), p);
    }
  }

  /** Selecting by a narrower condition from a wider selection loses nothing. */
  lemma {:induction false} SelectAgain(xs: seq<string>, p: string -> bool, q: string -> bool)
    requires forall i | 0 <= i < |xs| && p(xs[i]) :: q(xs[i])
    ensures Select(Select(xs, q), p) == Select(xs, p)
  {
    if xs != [] {
      SelectAgain(xs[1..], p, q);
      SelectConcat(if q(xs[0]) then [xs[0]] else [], Select(xs[1..], q), p);
    }
  }

  lemma {:induction false} GatherConcat(a: seq<string>, b: seq<string>, f: string -> seq<string>)
    ensures Gather(a + b, f) == Gather(a, f) + Gather(b, f)
  {
    if a == [] {
      assert a + b == b;
    } else {
      assert (a + b)[1..] == a[1..] + b;
      GatherConcat(a[1..], b, f);
    }
  }

  lemma {:induction false} GatherNone(xs: seq<string>, f: string -> seq<string>)
    requires forall i | 0 <= i < |xs| :: f(xs[i]) == []
    ensures Gather(xs, f) == []
  {
    if xs != [] {
      GatherNone(xs[1..], f);
    }
  }

  lemma {:induction false} GatherSelf(xs: seq<string>, f: string -> seq<string>)
    requires forall i | 0 <= i < |xs| :: f(xs[i]) == [xs[i]]
    ensures Gather(xs, f) == xs
  {
    if xs != [] {
      GatherSelf(xs[1..], f);
    }
  }

  /** Lines that contribute nothing may be left out. */
  lemma {:induction false} GatherOfSelect(xs: seq<string>, p: string -> bool, f: string -> seq<string>)
    requires forall x | !p(x) :: f(x) == []
    ensures Gather(Select(xs, p), f) == Gather(xs, f)
  {
    if xs != [] {
      GatherOfSelect(xs[1..], p, f);
      var rest := Select(xs[1..], p);
      assert ([xs[0]] + rest)[1..] == rest && [] + rest == rest;
    }
  }

  lemma GatherOne(x: string, f: string -> seq<string>)
    ensures Gather([x], f) == f(x)
  {
    assert [x][1..] == [];
  }

  lemma {:induction false} GatherAround(a: seq<string>, x: string, b: seq<string>, f: string -> seq<string>)
    ensures Gather(a + ([x] + b), f) == Gather(a, f) + (f(x) + Gather(b, f))
  {
    GatherConcat(a, [x] + b, f);
    assert ([x] + b)[1..] == b;
  }

  lemma MiddleToFront(a: seq<string>, m: seq<string>, b: seq<string>)
    ensures multiset(a + (m + b)) == multiset(m) + multiset(a + b)
  {
  }

  lemma {:induction false} GatherMiddle(a: seq<string>, x: string, b: seq<string>, f: string -> seq<string>)
    ensures multiset(Gather(a + ([x] + b), f)) == multiset(f(x)) + multiset(Gather(a + b, f))
  {
    GatherAround(a, x, b, f);
    GatherConcat(a, b, f);
    MiddleToFront(Gather(a, f), f(x), Gather(b, f));
  }

  lemma AroundOne(xs: seq<string>, i: nat)
    requires i < |xs|
    ensures xs == xs[..i] + ([xs[i]] + xs[i + 1..]) && Without(xs, i) == xs[..i] + xs[i + 1..]
  {
  }

  lemma {:induction false} GatherWithout(xs: seq<string>, i: nat, f: string -> seq<string>)
    requires i < |xs|
    ensures multiset(Gather(xs, f)) == multiset(f(xs[i])) + multiset(Gather(Without(xs, i), f))
  {
    AroundOne(xs, i);
    GatherMiddle(xs[..i], xs[i], xs[i + 1..], f);
  }

  lemma {:induction false} GatherPermutes(a: seq<string>, b: seq<string>, f: string -> seq<string>)
    requires multiset(a) == multiset(b)
    ensures multiset(Gather(a, f)) == multiset(Gather(b, f))
  {
    if a == [] {
      assert |multiset(b)| == 0;
    } else {
      assert a[0] in multiset(b);
      var i :| 0 <= i < |b| && b[i] == a[0];
      SameAfterRemoval(a, b, i);
      assert Without(a, 0) == a[1..];
      GatherWithout(a, 0, f);
      GatherWithout(b, i, f);
      GatherPermutes(a[1..], Without(b, i), f);
    }
  }

  /** The lines all entries of a list contribute. */
  function Flatten<T>(xs: seq<T>, f: T -> seq<string>): seq<string> {
    if xs == [] then [] else f(xs[0]) + Flatten(xs[1..], f)
  }

  lemma {:induction false} FlattenMember<T>(xs: seq<T>, f: T -> seq<string>, line: string)
    ensures line in Flatten(xs, f) <==> exists i :: 0 <= i < |xs| && line in f(xs[i])
  {
    if xs != [] {
      FlattenMember(xs[1..], f, line);
      if i :| 0 <= i < |xs[1..]| && line in f(xs[1..][i]) {
        assert line in f(xs[i + 1]);
      }
      if i :| 0 <= i < |xs| && line in f(xs[i]) {
        assert i == 0 || line in f(xs[1..][i - 1]);
      }
    }
  }

  lemma SelectSnoc(xs: seq<string>, x: string, p: string -> bool)
    ensures Select(xs + [x], p) == Select(xs, p) + (if p(x) then [x] else [])
  {
    SelectConcat(xs, [x], p);
    assert [x][1..] == [];
  }

  lemma GatherSnoc(xs: seq<string>, x: string, f: string -> seq<string>)
    ensures Gather(xs + [x], f) == Gather(xs, f) + f(x)
  {
    GatherConcat(xs, [x], f);
    GatherOne(x, f);
  }

  // ----- weaving -----

  /** Kept lines that are not stops. */
  function Rest(xs: seq<string>, kept: string -> bool, stop: string -> bool): seq<string> {
    if xs == [] then [] else (if kept(xs[0]) && !stop(xs[0]) then [xs[0]] else []) + Rest(xs[1..], kept, stop)
  }

  /** Kept lines before the first stop. */
  function Before(xs: seq<string>, kept: string -> bool, stop: string -> bool): seq<string> {
    if xs == [] || stop(xs[0]) then []
    else (if kept(xs[0]) then [xs[0]] else []) + Before(xs[1..], kept, stop)
  }

  /** Kept lines after the first stop that are not stops themselves. */
  function After(xs: seq<string>, kept: string -> bool, stop: string -> bool): seq<string> {
    if xs == [] then [] else if stop(xs[0]) then Rest(xs[1..], kept, stop) else After(xs[1..], kept, stop)
  }

  /** The kept lines with the stops gathered at the first one and `block` behind them. */
  function Weave(xs: seq<string>, kept: string -> bool, stop: string -> bool, block: seq<string>): seq<string> {
    Before(xs, kept, stop) + (Select(xs, stop) + (block + After(xs, kept, stop)))
  }

  ghost predicate Plain(xs: seq<string>, kept: string -> bool, stop: string -> bool) {
    forall i | 0 <= i < |xs| :: kept(xs[i]) && !stop(xs[i])
  }

  ghost predicate Dropped(xs: seq<string>, kept: string -> bool, stop: string -> bool) {
    forall i | 0 <= i < |xs| :: !kept(xs[i]) && !stop(xs[i])
  }

  ghost predicate Stops(xs: seq<string>, stop: string -> bool) {
    forall i | 0 <= i < |xs| :: stop(xs[i])
  }

  lemma {:induction false} RestConcat(a: seq<string>, b: seq<string>, kept: string -> bool, stop: string -> bool)
    ensures Rest(a + b, kept, stop) == Rest(a, kept, stop) + Rest(b, kept, stop)
  {
    if a == [] {
      assert a + b == b;
    } else {
      assert (a + b)[1..] == a[1..] + b;
      RestConcat(a[1..], b, kept, stop);
    }
  }

  /** Reading one more line: what it adds depends on whether a stop was seen. */
  lemma {:induction false} SnocBeforeStop(xs: seq<string>, x: string, kept: string -> bool, stop: string -> bool)
    requires Select(xs, stop) == []
    ensures Before(xs + [x], kept, stop) == Before(xs, kept, stop) + (if kept(x) && !stop(x) then [x] else [])
    ensures After(xs + [x], kept, stop) == []
  {
    if xs == [] {
      assert xs + [x] == [x];
    } else {
      assert (xs + [x])[1..] == xs[1..] + [x];
      SnocBeforeStop(xs[1..], x, kept, stop);
    }
  }

  lemma {:induction false} SnocAfterStop(xs: seq<string>, x: string, kept: string -> bool, stop: string -> bool)
    requires Select(xs, stop) != []
    ensures Before(xs + [x], kept, stop) == Before(xs, kept, stop)
    ensures After(xs + [x], kept, stop) == After(xs, kept, stop) + (if kept(x) && !stop(x) then [x] else [])
  {
    assert (xs + [x])[1..] == xs[1..] + [x];
    if stop(xs[0]) {
      RestConcat(xs[1..], [x], kept, stop);
      assert [x][1..] == [];
    } else {
      SnocAfterStop(xs[1..], x, kept, stop);
    }
  }

  lemma {:induction false} RestOfPlain(xs: seq<string>, kept: string -> bool, stop: string -> bool)
    requires Plain(xs, kept, stop)
    ensures Rest(xs, kept, stop) == xs
  {
    if xs != [] {
      RestOfPlain(xs[1..], kept, stop);
    }
  }

  lemma {:induction false} RestOfOthers(xs: seq<string>, kept: string -> bool, stop: string -> bool)
    requires Dropped(xs, kept, stop) || Stops(xs, stop)
    ensures Rest(xs, kept, stop) == []
  {
    if xs != [] {
      RestOfOthers(xs[1..], kept, stop);
    }
  }

  lemma {:induction false} PlainThen(xs: seq<string>, tail: seq<string>, kept: string -> bool, stop: string -> bool)
    requires Plain(xs, kept, stop)
    ensures Before(xs + tail, kept, stop) == xs + Before(tail, kept, stop)
    ensures After(xs + tail, kept, stop) == After(tail, kept, stop)
  {
    if xs == [] {
      assert xs + tail == tail;
    } else {
      assert (xs + tail)[1..] == xs[1..] + tail;
      PlainThen(xs[1..], tail, kept, stop);
    }
  }

  lemma {:induction false} PartsArePlain(xs: seq<string>, kept: string -> bool, stop: string -> bool)
    ensures Plain(Rest(xs, kept, stop), kept, stop)
    ensures Plain(Before(xs, kept, stop), kept, stop)
    ensures Plain(After(xs, kept, stop), kept, stop)
  {
    if xs != [] {
      PartsArePlain(xs[1..], kept, stop);
    }
  }

  /** Without a stop, nothing comes after it and all that is kept comes before it. */
  lemma {:induction false} WithoutStop(xs: seq<string>, kept: string -> bool, stop: string -> bool)
    requires Select(xs, stop) == []
    ensures After(xs, kept, stop) == []
    ensures Select(xs, kept) == Before(xs, kept, stop) == Rest(xs, kept, stop)
  {
    if xs != [] {
      WithoutStop(xs[1..], kept, stop);
    }
  }

  /** The parts of a woven text. */
  lemma {:induction false} WovenParts(before: seq<string>, stops: seq<string>, block: seq<string>, after: seq<string>,
                   kept: string -> bool, stop: string -> bool)
    requires Plain(before, kept, stop) && Plain(after, kept, stop) && Stops(stops, stop) && stops != []
    requires Dropped(block, kept, stop)
    ensures var r := before + (stops + (block + after));
      Before(r, kept, stop) == before && After(r, kept, stop) == after && Select(r, stop) == stops
  {
    PlainThen(before, stops + (block + after), kept, stop);
    StopsThen(stops, block + after, kept, stop);
    RestConcat(block, after, kept, stop);
    RestOfOthers(block, kept, stop);
    RestOfPlain(after, kept, stop);
    SelectConcat(before, stops + (block + after), stop);
    SelectConcat(stops, block + after, stop);
    SelectConcat(block, after, stop);
    SelectNone(before, stop);
    SelectAll(stops, stop);
    SelectNone(block, stop);
    SelectNone(after, stop);
  }

  /** Weaving a dropped block keeps all parts around it. */
  lemma {:induction false} WeaveKeepsParts(xs: seq<string>, kept: string -> bool, stop: string -> bool,
                                           block: seq<string>)
    requires Select(xs, stop) != [] && Dropped(block, kept, stop)
    ensures var r := Weave(xs, kept, stop, block);
      && Before(r, kept, stop) == Before(xs, kept, stop) && After(r, kept, stop) == After(xs, kept, stop)
      && Select(r, stop) == Select(xs, stop)
  {
    PartsArePlain(xs, kept, stop);
    SelectedSatisfy(xs, stop);
    WovenParts(Before(xs, kept, stop), Select(xs, stop), block, After(xs, kept, stop), kept, stop);
  }

  lemma StopsThen(stops: seq<string>, tail: seq<string>, kept: string -> bool, stop: string -> bool)
    requires Stops(stops, stop) && stops != []
    ensures Before(stops + tail, kept, stop) == []
    ensures After(stops + tail, kept, stop) == Rest(tail, kept, stop)
  {
    assert (stops + tail)[1..] == stops[1..] + tail;
    RestConcat(stops[1..], tail, kept, stop);
    RestOfOthers(stops[1..], kept, stop);
  }

  lemma {:induction false} StopHere(xs: seq<string>, kept: string -> bool, stop: string -> bool)
    requires xs != [] && stop(xs[0]) && kept(xs[0]) && Select(xs[1..], stop) == []
    ensures Select(xs, kept) == Before(xs, kept, stop) + (Select(xs, stop) + After(xs, kept, stop))
  {
    WithoutStop(xs[1..], kept, stop);
    assert Select(xs, stop) == [xs[0]] && Select(xs, kept) == [xs[0]] + Select(xs[1..], kept);
  }

  lemma {:induction false} StopLater(xs: seq<string>, kept: string -> bool, stop: string -> bool, tail: seq<string>)
    requires xs != [] && !stop(xs[0]) && Select(xs[1..], kept) == Before(xs[1..], kept, stop) + tail
    ensures Select(xs, kept) == Before(xs, kept, stop) + tail
  {
    MoveLeft([], if kept(xs[0]) then [xs[0]] else [], Before(xs[1..], kept, stop), tail);
  }

  /** With a single stop, the kept lines are the parts around the block in order. */
  lemma {:induction false} SingleStop(xs: seq<string>, kept: string -> bool, stop: string -> bool)
    requires |Select(xs, stop)| == 1 && forall x | stop(x) :: kept(x)
    ensures Select(xs, kept) == Before(xs, kept, stop) + (Select(xs, stop) + After(xs, kept, stop))
  {
    if stop(xs[0]) {
      assert |Select(xs, stop)| == 1 + |Select(xs[1..], stop)|;
      StopHere(xs, kept, stop);
    } else {
      assert Select(xs, stop) == Select(xs[1..], stop);
      SingleStop(xs[1..], kept, stop);
      StopLater(xs, kept, stop, Select(xs, stop) + After(xs, kept, stop));
    }
  }

  lemma {:induction false} RestBag(xs: seq<string>, kept: string -> bool, stop: string -> bool)
    requires forall x | stop(x) :: kept(x)
    ensures multiset(Rest(xs, kept, stop)) + multiset(Select(xs, stop)) == multiset(Select(xs, kept))
  {
    if xs != [] {
      RestBag(xs[1..], kept, stop);
    }
  }

  lemma {:induction false} PartsBag(xs: seq<string>, kept: string -> bool, stop: string -> bool)
    requires forall x | stop(x) :: kept(x)
    ensures multiset(Before(xs, kept, stop)) + multiset(Select(xs, stop)) + multiset(After(xs, kept, stop))
         == multiset(Select(xs, kept))
  {
    if xs != [] {
      if stop(xs[0]) {
        RestBag(xs[1..], kept, stop);
      } else {
        PartsBag(xs[1..], kept, stop);
      }
    }
  }

  /** However many stops there are, weaving yields the kept lines and the block in some order. */
  lemma {:induction false} WeaveBag(xs: seq<string>, kept: string -> bool, stop: string -> bool, block: seq<string>)
    requires forall x | stop(x) :: kept(x)
    ensures multiset(Weave(xs, kept, stop, block)) == multiset(Select(xs, kept)) + multiset(block)
  {
    PartsBag(xs, kept, stop);
  }

  lemma {:induction false} SelectRest(xs: seq<string>, kept: string -> bool, stop: string -> bool, p: string -> bool)
    requires forall x | p(x) :: kept(x) && !stop(x)
    ensures Select(Rest(xs, kept, stop), p) == Select(xs, p)
  {
    if xs != [] {
      SelectRest(xs[1..], kept, stop, p);
      SelectConcat(if kept(xs[0]) && !stop(xs[0]) then [xs[0]] else [], Rest(xs[1..], kept, stop), p);
    }
  }

  lemma {:induction false} SelectParts(xs: seq<string>, kept: string -> bool, stop: string -> bool, p: string -> bool)
    requires forall x | p(x) :: kept(x) && !stop(x)
    ensures Select(Before(xs, kept, stop), p) + Select(After(xs, kept, stop), p) == Select(xs, p)
  {
    if xs != [] {
      if stop(xs[0]) {
        SelectRest(xs[1..], kept, stop, p);
      } else {
        SelectParts(xs[1..], kept, stop, p);
        SelectConcat(if kept(xs[0]) then [xs[0]] else [], Before(xs[1..], kept, stop), p);
      }
    }
  }

  /** Lines that are neither dropped nor stops keep their order. */
  lemma {:induction false} SelectWeave(xs: seq<string>, kept: string -> bool, stop: string -> bool, block: seq<string>,
                                       p: string -> bool)
    requires (forall x | p(x) :: kept(x) && !stop(x)) && Select(block, p) == []
    ensures Select(Weave(xs, kept, stop, block), p) == Select(xs, p)
  {
    var before, stops, after := Before(xs, kept, stop), Select(xs, stop), After(xs, kept, stop);
    SelectConcat(before, stops + (block + after), p);
    SelectConcat(stops, block + after, p);
    SelectConcat(block, after, p);
    SelectedSatisfy(xs, stop);
    SelectNone(stops, p);
    SelectParts(xs, kept, stop, p);
  }

  lemma WovenIsItsParts(xs: seq<string>, kept: string -> bool, stop: string -> bool, block: seq<string>)
    requires Weave(xs, kept, stop, block) == xs
    ensures Plain(Before(xs, kept, stop), kept, stop) && Plain(After(xs, kept, stop), kept, stop)
    ensures xs == Before(xs, kept, stop) + (Select(xs, stop) + block + After(xs, kept, stop))
  {
    PartsArePlain(xs, kept, stop);
    MoveLeft([], Select(xs, stop), block, After(xs, kept, stop));
  }

  lemma PlainStays(xs: seq<string>, kept: string -> bool, stop: string -> bool)
    requires Plain(xs, kept, stop)
    ensures Weave(xs, kept, stop, []) == xs
  {
    SelectNone(xs, stop);
    WithoutStop(xs, kept, stop);
    SelectAll(xs, kept);
  }

  lemma {:induction false} StopThen(a: seq<string>, b: seq<string>, kept: string -> bool, stop: string -> bool)
    requires Select(a, stop) != []
    ensures Before(a + b, kept, stop) == Before(a, kept, stop)
    ensures After(a + b, kept, stop) == After(a, kept, stop) + Rest(b, kept, stop)
  {
    assert (a + b)[1..] == a[1..] + b;
    if stop(a[0]) {
      RestConcat(a[1..], b, kept, stop);
    } else {
      StopThen(a[1..], b, kept, stop);
    }
  }

  lemma {:induction false} NoStopThen(a: seq<string>, b: seq<string>, kept: string -> bool, stop: string -> bool)
    requires Select(a, stop) == []
    ensures Before(a + b, kept, stop) == Rest(a, kept, stop) + Before(b, kept, stop)
    ensures After(a + b, kept, stop) == After(b, kept, stop)
  {
    if a == [] {
      assert a + b == b;
    } else {
      assert (a + b)[1..] == a[1..] + b;
      assert !stop(a[0]) && Select(a[1..], stop) == [];
      NoStopThen(a[1..], b, kept, stop);
      var first := if kept(a[0]) then [a[0]] else [];
      assert Before(a + b, kept, stop) == first + Before(a[1..] + b, kept, stop);
      MoveLeft([], first, Rest(a[1..], kept, stop), Before(b, kept, stop));
    }
  }

  /** Every line is one of `xs`, of `ys` or of `zs`. */
  ghost predicate DrawnFrom(r: seq<string>, xs: seq<string>, ys: seq<string>, zs: seq<string>) {
    forall i | 0 <= i < |r| :: r[i] in xs || r[i] in ys || r[i] in zs
  }

  lemma {:induction false} PartIsDrawn(xs: seq<string>, kept: string -> bool, stop: string -> bool, x: string)
    requires x in Rest(xs, kept, stop) || x in Before(xs, kept, stop) || x in After(xs, kept, stop)
    ensures x in xs
  {
    if x != xs[0] {
      PartIsDrawn(xs[1..], kept, stop, x);
    }
  }

  lemma PartsAreDrawn(xs: seq<string>, kept: string -> bool, stop: string -> bool)
    ensures forall x | x in Rest(xs, kept, stop) :: x in xs
    ensures forall x | x in Before(xs, kept, stop) || x in After(xs, kept, stop) :: x in xs
  {
    forall x | x in Rest(xs, kept, stop) || x in Before(xs, kept, stop) || x in After(xs, kept, stop) ensures x in xs {
      PartIsDrawn(xs, kept, stop, x);
    }
  }

  lemma {:induction false} StopsAround(a: seq<string>, tight: seq<string>, b: seq<string>, kept: string -> bool,
                                       stop: string -> bool)
    requires Plain(tight, kept, stop)
    ensures Select(a + (tight + b), stop) == Select(a, stop) + Select(b, stop)
  {
    SelectConcat(a, tight + b, stop);
    SelectConcat(tight, b, stop);
    SelectNone(tight, stop);
  }

  lemma {:induction false} PartsBehind(a: seq<string>, tight: seq<string>, b: seq<string>, kept: string -> bool,
                                       stop: string -> bool)
    requires Plain(tight, kept, stop) && Select(a, stop) == []
    ensures Before(a + (tight + b), kept, stop) == Rest(a, kept, stop) + (tight + Before(b, kept, stop))
    ensures After(a + (tight + b), kept, stop) == After(b, kept, stop)
  {
    NoStopThen(a, tight + b, kept, stop);
    PlainThen(tight, b, kept, stop);
  }

  lemma {:induction false} PartsInFront(a: seq<string>, tight: seq<string>, b: seq<string>, kept: string -> bool,
                                        stop: string -> bool)
    requires Plain(tight, kept, stop) && Select(a, stop) != []
    ensures Before(a + (tight + b), kept, stop) == Before(a, kept, stop)
    ensures After(a + (tight + b), kept, stop) == After(a, kept, stop) + (tight + Rest(b, kept, stop))
  {
    StopThen(a, tight + b, kept, stop);
    RestConcat(tight, b, kept, stop);
    RestOfPlain(tight, kept, stop);
  }

  lemma {:induction false} WeaveBehind(a: seq<string>, tight: seq<string>, b: seq<string>, kept: string -> bool,
                                       stop: string -> bool,
                    block: seq<string>)
    requires Plain(tight, kept, stop) && Select(a, stop) == []
    ensures Weave(a + (tight + b), kept, stop, block)
      == Rest(a, kept, stop) + (tight + Weave(b, kept, stop, block))
  {
    StopsAround(a, tight, b, kept, stop);
    PartsBehind(a, tight, b, kept, stop);
    assert [] + Select(b, stop) == Select(b, stop);
    MoveLeft(Rest(a, kept, stop), tight, Before(b, kept, stop), Select(b, stop) + (block + After(b, kept, stop)));
  }

  /** What stands in front of a tight piece when a stop does. */
  function Front(a: seq<string>, b: seq<string>, kept: string -> bool, stop: string -> bool,
                 block: seq<string>): seq<string> {
    Before(a, kept, stop) + (Select(a, stop) + Select(b, stop) + (block + After(a, kept, stop)))
  }

  lemma {:induction false} WeaveInFront(a: seq<string>, tight: seq<string>, b: seq<string>, kept: string -> bool,
                                        stop: string -> bool,
                     block: seq<string>)
    requires Plain(tight, kept, stop) && Select(a, stop) != []
    ensures Weave(a + (tight + b), kept, stop, block)
      == Front(a, b, kept, stop, block) + (tight + Rest(b, kept, stop))
  {
    StopsAround(a, tight, b, kept, stop);
    PartsInFront(a, tight, b, kept, stop);
    MoveRight(Before(a, kept, stop), Select(a, stop) + Select(b, stop), block, After(a, kept, stop),
              tight + Rest(b, kept, stop));
  }

  /** Weaving around a tight piece, all of which it keeps, puts nothing into it. */
  lemma {:induction false} WeaveAround(a: seq<string>, tight: seq<string>, b: seq<string>, kept: string -> bool,
                                       stop: string -> bool,
                    block: seq<string>) returns (a': seq<string>, b': seq<string>)
    requires Plain(tight, kept, stop)
    ensures Weave(a + (tight + b), kept, stop, block) == a' + (tight + b')
    ensures DrawnFrom(a', a, b, block) && DrawnFrom(b', a, b, block)
  {
    PartsAreDrawn(a, kept, stop);
    PartsAreDrawn(b, kept, stop);
    SelectedSatisfy(a, stop);
    SelectedSatisfy(b, stop);
    if Select(a, stop) == [] {
      WeaveBehind(a, tight, b, kept, stop, block);
      a', b' := Rest(a, kept, stop), Weave(b, kept, stop, block);
    } else {
      WeaveInFront(a, tight, b, kept, stop, block);
      a', b' := Front(a, b, kept, stop, block), Rest(b, kept, stop);
    }
  }

  lemma MoveLeft(a: seq<string>, t: seq<string>, b: seq<string>, c: seq<string>)
    ensures a + (t + b) + c == a + (t + (b + c))
  {
  }

  lemma MoveRight(a: seq<string>, s: seq<string>, block: seq<string>, b: seq<string>, t: seq<string>)
    ensures a + (s + (block + (b + t))) == a + (s + (block + b)) + t
  {
  }

  // ----- the scan that weaves -----

  /** What a scan has collected: the lines before and after the block, and two lists of names. */
  datatype Scan = Scan(before: seq<string>, after: seq<string>, xs: seq<string>, ys: seq<string>, found: bool)

  /** A stop moves to the front part, a kept line to the current part, and a dropped line leaves its names. */
  function ScanStep(s: Scan, x: string, kept: string -> bool, stop: string -> bool,
                    f: string -> seq<string>, g: string -> seq<string>): Scan {
    if stop(x) then s.(before := s.before + [x], found := true)
    else if !kept(x) then s.(xs := s.xs + f(x), ys := s.ys + g(x))
    else if s.found then s.(after := s.after + [x])
    else s.(before := s.before + [x])
  }

  function ScanAll(lines: seq<string>, kept: string -> bool, stop: string -> bool,
                   f: string -> seq<string>, g: string -> seq<string>): Scan {
    if lines == [] then Scan([], [], [], [], false)
    else ScanStep(ScanAll(lines[..|lines| - 1], kept, stop, f, g), lines[|lines| - 1], kept, stop, f, g)
  }

  /** Only dropped lines carry names. */
  ghost predicate NamesInDropped(kept: string -> bool, stop: string -> bool, f: string -> seq<string>) {
    forall x | stop(x) || kept(x) :: f(x) == []
  }

  lemma {:induction false} ScanNames(lines: seq<string>, kept: string -> bool, stop: string -> bool,
                                     f: string -> seq<string>, g: string -> seq<string>)
    requires NamesInDropped(kept, stop, f) && NamesInDropped(kept, stop, g)
    ensures ScanAll(lines, kept, stop, f, g).xs == Gather(lines, f)
    ensures ScanAll(lines, kept, stop, f, g).ys == Gather(lines, g)
  {
    if lines != [] {
      var seen, x := lines[..|lines| - 1], lines[|lines| - 1];
      ScanNames(seen, kept, stop, f, g);
      GatherSnoc(seen, x, f);
      GatherSnoc(seen, x, g);
      assert lines == seen + [x];
    }
  }

  lemma {:induction false} ScanParts(lines: seq<string>, kept: string -> bool, stop: string -> bool,
                                     f: string -> seq<string>, g: string -> seq<string>)
    ensures var s := ScanAll(lines, kept, stop, f, g);
      && s.found == (Select(lines, stop) != [])
      && s.before == Before(lines, kept, stop) + Select(lines, stop) && s.after == After(lines, kept, stop)
  {
    if lines != [] {
      var seen, x := lines[..|lines| - 1], lines[|lines| - 1];
      ScanParts(seen, kept, stop, f, g);
      SelectSnoc(seen, x, stop);
      if Select(seen, stop) == [] {
        SnocBeforeStop(seen, x, kept, stop);
        WithoutStop(seen, kept, stop);
      } else {
        SnocAfterStop(seen, x, kept, stop);
      }
      assert lines == seen + [x];
    }
  }

  /** The scanned parts around a block are the woven text. */
  lemma ScanWeaves(lines: seq<string>, kept: string -> bool, stop: string -> bool,
                   f: string -> seq<string>, g: string -> seq<string>, block: seq<string>)
    ensures var s := ScanAll(lines, kept, stop, f, g);
      Weave(lines, kept, stop, block) == s.before + block + s.after
  {
    ScanParts(lines, kept, stop, f, g);
  }

  lemma {:induction false} GatherSelected(xs: seq<string>, f: string -> seq<string>, p: string -> bool,
                                          g: string -> seq<string>)
    requires forall x :: g(x) == Select(f(x), p)
    ensures Gather(xs, g) == Select(Gather(xs, f), p)
  {
    if xs != [] {
      GatherSelected(xs[1..], f, p, g);
      SelectConcat(f(xs[0]), Gather(xs[1..], f), p);
    }
  }
}
