/** The in-place editing of the AKHQ mapping list on a Go slice. */
module AkhqReconciler {
  import opened Text
  import opened Slices
  import opened AkhqMapping

  const BLANK := Mapping("", "", "", "", "", "")

  lemma ScanNext(list: seq<Mapping>, n: nat, cfg: map<string, Config>, owner: string)
    requires n < |list|
    ensures Scan(list[..n + 1], cfg, owner) == Visit(Scan(list[..n], cfg, owner), owner, list[n])
  {
    assert list[..n + 1][..n] == list[..n];
  }

  /** One entry of the scan: `i` entries are kept, the entry at `i` is looked at. */
  method VisitInPlace(s: Slice<Mapping>, i: nat, m: Mapping, pending: map<string, Config>, files: map<string, string>,
                      insertPosition: nat, owner: string, ghost p: Pass, ghost rest: seq<Mapping>)
    returns (s': Slice<Mapping>, i': nat, pending': map<string, Config>, files': map<string, string>,
             insertPosition': nat)
    requires Window(s) && |p.kept| == i && Content(s) == p.kept + [m] + rest
    requires pending == p.pending && files == p.files
    modifies s.a
    ensures s'.a == s.a && s'.lo == s.lo && Window(s')
    ensures var p' := Visit(p, owner, m);
      && Content(s') == p'.kept + rest && i' == |p'.kept| && pending' == p'.pending && files' == p'.files
      && insertPosition' == if m.name == owner then p'.pos else insertPosition
  {
    s', i', pending', files', insertPosition' := s, i + 1, pending, files, insertPosition;
    if m.name == owner {
      if m.regex in pending {
        var c := pending[m.regex];
        var x := m.(keyType := c.keyType, valueType := c.messageType);
        Put(s, i, x);
        files' := files[ShortName(m.file) := c.descriptor];
        pending' := pending - {c.regex};
      } else {
        s' := RemoveAt(s, i, BLANK);
        i' := i;
        files' := files[ShortName(m.file) := ""];
      }
      insertPosition' := i';
    }
  }

  /** The scan so far, with `rest` still to look at. */
  ghost predicate Scanned(p: Pass, rest: seq<Mapping>, list: seq<Mapping>, cfg: map<string, Config>, owner: string) {
    |rest| <= |list| && rest == list[|list| - |rest|..] && p == Scan(list[..|list| - |rest|], cfg, owner)
  }

  lemma ScannedNext(p: Pass, rest: seq<Mapping>, list: seq<Mapping>, cfg: map<string, Config>, owner: string)
    requires Scanned(p, rest, list, cfg, owner) && rest != []
    ensures Scanned(Visit(p, owner, rest[0]), rest[1..], list, cfg, owner)
  {
    ScanNext(list, |list| - |rest|, cfg, owner);
  }

  lemma ScannedAll(p: Pass, rest: seq<Mapping>, list: seq<Mapping>, cfg: map<string, Config>, owner: string)
    requires Scanned(p, rest, list, cfg, owner) && rest == []
    ensures p == Scan(list, cfg, owner)
    ensures -1 <= p.pos <= |p.kept| && (p.pos == -1 ==> |p.kept| == |list|)
  {
    assert list[..|list|] == list;
  }

  lemma HeadOf(kept: seq<Mapping>, rest: seq<Mapping>)
    requires rest != []
    ensures kept + rest == kept + [rest[0]] + rest[1..] && (kept + rest)[|kept|] == rest[0]
  {
  }

  /** Scans the list in place: entries no longer requested are cut out while iterating. */
  method ScanInPlace(existing: Slice<Mapping>, cfg: map<string, Config>, owner: string)
    returns (s: Slice<Mapping>, pending: map<string, Config>, insertPosition: nat, files: map<string, string>)
    requires Window(existing)
    modifies existing.a
    ensures s.a == existing.a && Window(s)
    ensures var p := Scan(old(Content(existing)), cfg, owner);
      Content(s) == p.kept && pending == p.pending && insertPosition == InsertPosition(p) && files == p.files
  {
    ghost var list := Content(existing);
    ghost var p, rest := Pass([], cfg, -1, map[]), list;
    s, pending, insertPosition, files := existing, cfg, existing.hi - existing.lo, map[];
    var i := 0;
    while i < s.hi - s.lo
      invariant s.a == existing.a && s.lo == existing.lo && Window(s)
      invariant Scanned(p, rest, list, cfg, owner)
      invariant |p.kept| == i && Content(s) == p.kept + rest
      invariant pending == p.pending && files == p.files
      invariant insertPosition == if p.pos == -1 then |list| else p.pos
      decreases |rest|
    {
      assert rest != [] by { assert |Content(s)| == s.hi - s.lo; }
      ScannedNext(p, rest, list, cfg, owner);
      HeadOf(p.kept, rest);
      var m := Get(s, i);
      s, i, pending, files, insertPosition :=
        VisitInPlace(s, i, m, pending, files, insertPosition, owner, p, rest[1..]);
      p, rest := Visit(p, owner, m), rest[1..];
    }
    assert rest == [] by { assert |Content(s)| == s.hi - s.lo; }
    ScannedAll(p, rest, list, cfg, owner);
  }

  /** `order` and the keys `left` over make up `all`. */
  ghost predicate Walked(order: seq<string>, left: set<string>, all: set<string>) {
    left <= all && multiset(order) + multiset(left) == multiset(all)
  }

  lemma WalkedNext(order: seq<string>, left: set<string>, all: set<string>, r: string)
    requires Walked(order, left, all) && r in left
    ensures Walked(order + [r], left - {r}, all)
  {
    assert left == (left - {r}) + {r};
    assert multiset(left) == multiset(left - {r}) + multiset{r};
  }

  /** Creates the entries that are still missing, in the order the map is walked. */
  method CreateMissing(pending: map<string, Config>, owner: string, hash: string -> string,
                       scanned: map<string, string>)
    returns (toInsert: seq<Mapping>, files: map<string, string>, ghost order: seq<string>)
    ensures Lists(order, pending)
    ensures toInsert == Inserted(order, pending, owner, hash)
    ensures files == InsertedFiles(scanned, order, pending, owner, hash)
  {
    toInsert, files, order := [], scanned, [];
    var left := pending.Keys;
    while left != {}
      invariant Walked(order, left, pending.Keys)
      invariant toInsert == Inserted(order, pending, owner, hash)
      invariant files == InsertedFiles(scanned, order, pending, owner, hash)
      decreases |left|
    {
      var r :| r in left;
      var c := pending[r];
      WalkedNext(order, left, pending.Keys, r);
      left := left - {r};
      order := order + [r];
      toInsert := toInsert + [Created(owner, c, hash)];
      files := files[FileName(owner, hash(c.regex)) := c.descriptor];
    }
  }

  /** The whole update of one owner. */
  method FullUpdateDeserializationConfig(existing: Slice<Mapping>, cfg: map<string, Config>, owner: string,
                                         hash: string -> string)
    returns (r: Slice<Mapping>, files: map<string, string>, ghost order: seq<string>)
    requires Window(existing)
    modifies existing.a
    ensures Window(r)
    ensures var p := Scan(old(Content(existing)), cfg, owner);
      Lists(order, p.pending) && files == InsertedFiles(p.files, order, p.pending, owner, hash)
    ensures Content(r) == Updated(old(Content(existing)), cfg, owner, hash, order)
  {
    var s, pending, insertPosition, scanned := ScanInPlace(existing, cfg, owner);
    var toInsert;
    toInsert, files, order := CreateMissing(pending, owner, hash, scanned);
    var inserted := FromSeq(toInsert);
    r := SpliceNested(s, insertPosition, inserted);
  }

  /** The removal so far, with `rest` still to look at. */
  ghost predicate Removed(kept: seq<Mapping>, deleted: map<string, string>, rest: seq<Mapping>, list: seq<Mapping>,
                          owner: string)
    requires HasFolder(list, owner)
  {
    && |rest| <= |list| && rest == list[|list| - |rest|..]
    && kept == Others(list[..|list| - |rest|], owner) && deleted == RemovedFiles(list[..|list| - |rest|], owner)
  }

  lemma RemovedNext(kept: seq<Mapping>, deleted: map<string, string>, rest: seq<Mapping>, list: seq<Mapping>,
                    owner: string)
    requires HasFolder(list, owner) && Removed(kept, deleted, rest, list, owner) && rest != []
    ensures rest[0].name == owner && rest[0].file != "" ==> |Split(rest[0].file, '/')| > 1
    ensures rest[0].name == owner ==> Removed(kept, Forget(deleted, rest[0]), rest[1..], list, owner)
    ensures rest[0].name != owner ==> Removed(kept + [rest[0]], deleted, rest[1..], list, owner)
  {
    var n := |list| - |rest|;
    assert list[..n + 1][..n] == list[..n];
  }

  lemma RemovedAll(kept: seq<Mapping>, deleted: map<string, string>, rest: seq<Mapping>, list: seq<Mapping>,
                   owner: string)
    requires HasFolder(list, owner) && Removed(kept, deleted, rest, list, owner) && rest == []
    ensures kept == Others(list, owner) && deleted == RemovedFiles(list, owner)
  {
    assert list[..|list|] == list;
  }

  /** Cuts the entry behind `kept` out of the list. */
  method CutOut(s: Slice<Mapping>, i: nat, ghost m: Mapping, ghost kept: seq<Mapping>, ghost rest: seq<Mapping>)
    returns (r: Slice<Mapping>)
    requires Window(s) && |kept| == i && Content(s) == kept + [m] + rest
    modifies s.a
    ensures r.a == s.a && r.lo == s.lo && Window(r) && Content(r) == kept + rest
  {
    r := RemoveAt(s, i, BLANK);
  }

  /** Removes every entry of the owner; descriptor paths of the owner have a folder. */
  method DeleteDeserializationConfig(existing: Slice<Mapping>, owner: string)
    returns (r: Slice<Mapping>, deleted: map<string, string>)
    requires Window(existing) && HasFolder(Content(existing), owner)
    modifies existing.a
    ensures Window(r) && Content(r) == Others(old(Content(existing)), owner)
    ensures deleted == RemovedFiles(old(Content(existing)), owner)
  {
    ghost var list, kept, rest := Content(existing), [], Content(existing);
    r, deleted := existing, map[];
    var i := 0;
    while i < r.hi - r.lo
      invariant r.a == existing.a && r.lo == existing.lo && Window(r)
      invariant Removed(kept, deleted, rest, list, owner)
      invariant |kept| == i && Content(r) == kept + rest
      decreases |rest|
    {
      assert rest != [] by { assert |Content(r)| == r.hi - r.lo; }
      RemovedNext(kept, deleted, rest, list, owner);
      HeadOf(kept, rest);
      var m := Get(r, i);
      if m.name == owner {
        deleted := Forget(deleted, m);
        r := CutOut(r, i, m, kept, rest[1..]);
      } else {
        kept := kept + [m];
        i := i + 1;
      }
      rest := rest[1..];
    }
    assert rest == [] by { assert |Content(r)| == r.hi - r.lo; }
    RemovedAll(kept, deleted, rest, list, owner);
  }
}
