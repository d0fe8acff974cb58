/**
 The AKHQ topic mapping list, shared by many custom resources. An update for one owner rewrites the
 owner's entries, drops those no longer requested and inserts the rest behind the owner's last place.
 */
module AkhqMapping {
  import opened Text

  datatype Mapping = Mapping(regex: string, name: string, file: string, base64: string,
                             keyType: string, valueType: string)

  datatype Config = Config(regex: string, keyType: string, messageType: string, descriptor: string)

  /** Requests are indexed by their regular expression. */
  ghost predicate Keyed(cfg: map<string, Config>) {
    forall r | r in cfg :: cfg[r].regex == r
  }

  /** The part of the descriptor path behind the folder. */
  function ShortName(file: string): string {
    var parts := Split(file, '/');
    if |parts| == 2 then parts[1] else parts[0]
  }

  function FileName(owner: string, hash: string): string {
    owner + "-" + hash
  }

  // ----- the scan -----

  /** What the scan has done: the list so far, the requests not met yet, the insert position and the files to write. */
  datatype Pass = Pass(kept: seq<Mapping>, pending: map<string, Config>, pos: int, files: map<string, string>)

  function Visit(p: Pass, owner: string, m: Mapping): Pass {
    if m.name != owner then p.(kept := p.kept + [m])
    else if m.regex in p.pending then
      var c := p.pending[m.regex];
      Pass(p.kept + [m.(keyType := c.keyType, valueType := c.messageType)], p.pending - {c.regex},
           |p.kept| + 1, p.files[ShortName(m.file) := c.descriptor])
    else p.(pos := |p.kept|, files := p.files[ShortName(m.file) := ""])
  }

  function Scan(list: seq<Mapping>, cfg: map<string, Config>, owner: string): (p: Pass)
    ensures -1 <= p.pos <= |p.kept| && (p.pos == -1 ==> |p.kept| == |list|)
  {
    if list == [] then Pass([], cfg, -1, map[])
    else Visit(Scan(list[..|list| - 1], cfg, owner), owner, list[|list| - 1])
  }

  /** Without any entry of the owner, new entries go to the end. */
  function InsertPosition(p: Pass): (pos: nat)
    requires -1 <= p.pos <= |p.kept|
    ensures pos <= |p.kept|
  {
    if p.pos == -1 then |p.kept| else p.pos
  }

  function Created(owner: string, c: Config, hash: string -> string): Mapping {
    Mapping(c.regex, owner, "descs/" + FileName(owner, hash(c.regex)), "", c.keyType, c.messageType)
  }

  /** The pending requests in the order the map is walked. */
  ghost predicate Lists(order: seq<string>, pending: map<string, Config>) {
    multiset(order) == multiset(pending.Keys)
  }

  function Inserted(order: seq<string>, pending: map<string, Config>, owner: string,
                    hash: string -> string): seq<Mapping> {
    if order == [] then []
    else
      var r, seen := order[|order| - 1], Inserted(order[..|order| - 1], pending, owner, hash);
      if r in pending then seen + [Created(owner, pending[r], hash)] else seen
  }

  function Updated(list: seq<Mapping>, cfg: map<string, Config>, owner: string, hash: string -> string,
                   order: seq<string>): seq<Mapping> {
    var p := Scan(list, cfg, owner);
    p.kept[..InsertPosition(p)] + Inserted(order, p.pending, owner, hash) + p.kept[InsertPosition(p)..]
  }

  // ----- counting -----

  /** The entries of everybody else, in order. */
  function Others(list: seq<Mapping>, owner: string): seq<Mapping> {
    if list == [] then []
    else
      var m, seen := list[|list| - 1], Others(list[..|list| - 1], owner);
      if m.name == owner then seen else seen + [m]
  }

  /** How many entries the owner has for a regular expression. */
  function CountOwn(list: seq<Mapping>, owner: string, r: string): nat {
    if list == [] then 0
    else
      var m := list[|list| - 1];
      CountOwn(list[..|list| - 1], owner, r) + (if m.name == owner && m.regex == r then 1 else 0)
  }

  lemma {:induction false} OthersConcat(a: seq<Mapping>, b: seq<Mapping>, owner: string)
    ensures Others(a + b, owner) == Others(a, owner) + Others(b, owner)
  {
    if b == [] {
      assert a + b == a;
    } else {
      assert (a + b)[..|a + b| - 1] == a + b[..|b| - 1];
      OthersConcat(a, b[..|b| - 1], owner);
    }
  }

  lemma {:induction false} CountConcat(a: seq<Mapping>, b: seq<Mapping>, owner: string, r: string)
    ensures CountOwn(a + b, owner, r) == CountOwn(a, owner, r) + CountOwn(b, owner, r)
  {
    if b == [] {
      assert a + b == a;
    } else {
      assert (a + b)[..|a + b| - 1] == a + b[..|b| - 1];
      CountConcat(a, b[..|b| - 1], owner, r);
    }
  }

  /** The owner's entry `m` shows what was requested. */
  ghost predicate Shows(m: Mapping, cfg: map<string, Config>) {
    m.regex in cfg && m.keyType == cfg[m.regex].keyType && m.valueType == cfg[m.regex].messageType
  }

  ghost predicate AllShow(list: seq<Mapping>, cfg: map<string, Config>, owner: string) {
    forall i | 0 <= i < |list| && list[i].name == owner :: Shows(list[i], cfg)
  }

  // ----- what the scan keeps -----

  lemma {:induction false} ScanKeepsOthers(list: seq<Mapping>, cfg: map<string, Config>, owner: string)
    ensures Others(Scan(list, cfg, owner).kept, owner) == Others(list, owner)
  {
    if list != [] {
      ScanKeepsOthers(list[..|list| - 1], cfg, owner);
    }
  }

  /** A request is still pending exactly when the owner has no entry for it yet. */
  lemma {:induction false} ScanPending(list: seq<Mapping>, cfg: map<string, Config>, owner: string)
    requires Keyed(cfg)
    ensures var p := Scan(list, cfg, owner);
      forall r ::
        && (r in p.pending <==> r in cfg && CountOwn(list, owner, r) == 0)
        && (r in p.pending ==> p.pending[r] == cfg[r])
  {
    if list != [] {
      ScanPending(list[..|list| - 1], cfg, owner);
    }
  }

  lemma {:induction false} ScanShows(list: seq<Mapping>, cfg: map<string, Config>, owner: string)
    requires Keyed(cfg)
    ensures AllShow(Scan(list, cfg, owner).kept, cfg, owner)
  {
    if list != [] {
      ScanShows(list[..|list| - 1], cfg, owner);
      ScanPending(list[..|list| - 1], cfg, owner);
    }
  }

  /** Of the owner's entries exactly one stays per requested expression, and none otherwise. */
  lemma {:induction false} ScanCounts(list: seq<Mapping>, cfg: map<string, Config>, owner: string, r: string)
    requires Keyed(cfg)
    ensures CountOwn(Scan(list, cfg, owner).kept, owner, r) == if r in cfg && CountOwn(list, owner, r) > 0 then 1 else 0
  {
    if list != [] {
      ScanCounts(list[..|list| - 1], cfg, owner, r);
      ScanPending(list[..|list| - 1], cfg, owner);
    }
  }

  // ----- the inserted entries -----

  lemma {:induction false} InsertedAreOwn(order: seq<string>, pending: map<string, Config>, owner: string,
                                          hash: string -> string)
    ensures Others(Inserted(order, pending, owner, hash), owner) == []
  {
    if order != [] {
      InsertedAreOwn(order[..|order| - 1], pending, owner, hash);
      var r := order[|order| - 1];
      if r in pending {
        OthersConcat(Inserted(order[..|order| - 1], pending, owner, hash), [Created(owner, pending[r], hash)], owner);
      }
    }
  }

  lemma {:induction false} InsertedShow(order: seq<string>, pending: map<string, Config>, cfg: map<string, Config>,
                                        owner: string, hash: string -> string)
    requires Keyed(cfg) && forall r | r in pending :: r in cfg && pending[r] == cfg[r]
    ensures AllShow(Inserted(order, pending, owner, hash), cfg, owner)
  {
    if order != [] {
      InsertedShow(order[..|order| - 1], pending, cfg, owner, hash);
    }
  }

  lemma OccursSnoc(order: seq<string>, r: string)
    requires order != []
    ensures multiset(order)[r] == multiset(order[..|order| - 1])[r] + (if order[|order| - 1] == r then 1 else 0)
  {
    assert order == order[..|order| - 1] + [order[|order| - 1]];
  }

  lemma {:induction false} InsertedCounts(order: seq<string>, pending: map<string, Config>, owner: string,
                                          hash: string -> string, r: string)
    requires Keyed(pending)
    ensures CountOwn(Inserted(order, pending, owner, hash), owner, r) == if r in pending then multiset(order)[r] else 0
  {
    if order != [] {
      var seen, last := order[..|order| - 1], order[|order| - 1];
      InsertedCounts(seen, pending, owner, hash, r);
      OccursSnoc(order, r);
      if last in pending {
        CountConcat(Inserted(seen, pending, owner, hash), [Created(owner, pending[last], hash)], owner, r);
      }
    }
  }

  // ----- theorems -----

  lemma {:induction false} SplitOthers(kept: seq<Mapping>, pos: nat, inserted: seq<Mapping>, owner: string)
    requires pos <= |kept| && Others(inserted, owner) == []
    ensures Others(kept[..pos] + inserted + kept[pos..], owner) == Others(kept, owner)
  {
    OthersConcat(kept[..pos] + inserted, kept[pos..], owner);
    OthersConcat(kept[..pos], inserted, owner);
    OthersConcat(kept[..pos], kept[pos..], owner);
    assert kept[..pos] + kept[pos..] == kept;
  }

  lemma {:induction false} SplitCounts(kept: seq<Mapping>, pos: nat, inserted: seq<Mapping>, owner: string, r: string)
    requires pos <= |kept|
    ensures CountOwn(kept[..pos] + inserted + kept[pos..], owner, r)
      == CountOwn(kept, owner, r) + CountOwn(inserted, owner, r)
  {
    CountConcat(kept[..pos] + inserted, kept[pos..], owner, r);
    CountConcat(kept[..pos], inserted, owner, r);
    CountConcat(kept[..pos], kept[pos..], owner, r);
    assert kept[..pos] + kept[pos..] == kept;
  }

  /** Entries of other owners keep their content and order; so deleting after an update is deleting alone. */
  lemma UpdateKeepsOthers(list: seq<Mapping>, cfg: map<string, Config>, owner: string, hash: string -> string,
                          order: seq<string>)
    ensures Others(Updated(list, cfg, owner, hash, order), owner) == Others(list, owner)
  {
    var p := Scan(list, cfg, owner);
    ScanKeepsOthers(list, cfg, owner);
    InsertedAreOwn(order, p.pending, owner, hash);
    SplitOthers(p.kept, InsertPosition(p), Inserted(order, p.pending, owner, hash), owner);
  }

  /** The owner has exactly one entry per requested expression and no other. */
  ghost predicate OncePerRequest(list: seq<Mapping>, cfg: map<string, Config>, owner: string) {
    forall r :: CountOwn(list, owner, r) == if r in cfg then 1 else 0
  }

  lemma UpdatedCounts(list: seq<Mapping>, cfg: map<string, Config>, owner: string, hash: string -> string,
                      order: seq<string>, r: string)
    requires Keyed(cfg) && Lists(order, Scan(list, cfg, owner).pending)
    ensures CountOwn(Updated(list, cfg, owner, hash, order), owner, r) == if r in cfg then 1 else 0
  {
    var p := Scan(list, cfg, owner);
    ScanPending(list, cfg, owner);
    ScanCounts(list, cfg, owner, r);
    InsertedCounts(order, p.pending, owner, hash, r);
    SplitCounts(p.kept, InsertPosition(p), Inserted(order, p.pending, owner, hash), owner, r);
  }

  lemma UpdatedShows(list: seq<Mapping>, cfg: map<string, Config>, owner: string, hash: string -> string,
                     order: seq<string>)
    requires Keyed(cfg)
    ensures AllShow(Updated(list, cfg, owner, hash, order), cfg, owner)
  {
    ScanPending(list, cfg, owner);
    ScanShows(list, cfg, owner);
    InsertedShow(order, Scan(list, cfg, owner).pending, cfg, owner, hash);
  }

  /** The owner ends with exactly one entry per requested expression, showing the requested types, and no other. */
  lemma UpdateIsExact(list: seq<Mapping>, cfg: map<string, Config>, owner: string, hash: string -> string,
                      order: seq<string>)
    requires Keyed(cfg) && Lists(order, Scan(list, cfg, owner).pending)
    ensures OncePerRequest(Updated(list, cfg, owner, hash, order), cfg, owner)
    ensures AllShow(Updated(list, cfg, owner, hash, order), cfg, owner)
  {
    forall r ensures CountOwn(Updated(list, cfg, owner, hash, order), owner, r) == if r in cfg then 1 else 0 {
      UpdatedCounts(list, cfg, owner, hash, order, r);
    }
    UpdatedShows(list, cfg, owner, hash, order);
  }

  ghost predicate AtMostOnce(list: seq<Mapping>, owner: string) {
    forall r :: CountOwn(list, owner, r) <= 1
  }

  lemma AtMostOnceLast(list: seq<Mapping>, owner: string)
    requires list != [] && AtMostOnce(list, owner)
    ensures AtMostOnce(list[..|list| - 1], owner)
    ensures var m := list[|list| - 1]; m.name == owner ==> CountOwn(list[..|list| - 1], owner, m.regex) == 0
  {
    var seen := list[..|list| - 1];
    forall r ensures CountOwn(seen, owner, r) <= 1 {
      assert CountOwn(list, owner, r) <= 1;
    }
    assert CountOwn(list, owner, list[|list| - 1].regex) <= 1;
  }

  /** A list that already shows each request at most once is left as it is. */
  lemma {:induction false} ScanOfSettled(list: seq<Mapping>, cfg: map<string, Config>, owner: string)
    requires Keyed(cfg) && AllShow(list, cfg, owner) && AtMostOnce(list, owner)
    ensures Scan(list, cfg, owner).kept == list
  {
    if list != [] {
      var seen, m := list[..|list| - 1], list[|list| - 1];
      AtMostOnceLast(list, owner);
      ScanOfSettled(seen, cfg, owner);
      ScanPending(seen, cfg, owner);
      assert m.name == owner ==> Shows(m, cfg);
      assert list == seen + [m];
    }
  }

  lemma NothingPending(list: seq<Mapping>, cfg: map<string, Config>, owner: string, order: seq<string>)
    requires Keyed(cfg) && OncePerRequest(list, cfg, owner) && Lists(order, Scan(list, cfg, owner).pending)
    ensures order == []
  {
    ScanPending(list, cfg, owner);
    forall r | r in cfg ensures r !in Scan(list, cfg, owner).pending {
      assert CountOwn(list, owner, r) == 1;
    }
    assert Scan(list, cfg, owner).pending.Keys == {};
    assert |multiset(order)| == 0;
  }

  /** A second identical update changes nothing, in whatever order the maps are walked. */
  lemma UpdateIsIdempotent(list: seq<Mapping>, cfg: map<string, Config>, owner: string, hash: string -> string,
                           order: seq<string>, order': seq<string>)
    requires Keyed(cfg) && Lists(order, Scan(list, cfg, owner).pending)
    requires var once := Updated(list, cfg, owner, hash, order); Lists(order', Scan(once, cfg, owner).pending)
    ensures var once := Updated(list, cfg, owner, hash, order);
      Updated(once, cfg, owner, hash, order') == once
  {
    UpdateIsExact(list, cfg, owner, hash, order);
    SettledStays(Updated(list, cfg, owner, hash, order), cfg, owner, hash, order');
  }

  lemma NothingSpliced(list: seq<Mapping>, pos: nat)
    requires pos <= |list|
    ensures list[..pos] + [] + list[pos..] == list
  {
  }

  lemma OnceIsAtMostOnce(list: seq<Mapping>, cfg: map<string, Config>, owner: string)
    requires OncePerRequest(list, cfg, owner)
    ensures AtMostOnce(list, owner)
  {
  }

  lemma SettledStays(list: seq<Mapping>, cfg: map<string, Config>, owner: string, hash: string -> string,
                     order: seq<string>)
    requires Keyed(cfg) && AllShow(list, cfg, owner) && OncePerRequest(list, cfg, owner)
    requires Lists(order, Scan(list, cfg, owner).pending)
    ensures Updated(list, cfg, owner, hash, order) == list
  {
    NothingPending(list, cfg, owner, order);
    OnceIsAtMostOnce(list, cfg, owner);
    ScanOfSettled(list, cfg, owner);
    NothingSpliced(list, InsertPosition(Scan(list, cfg, owner)));
  }

  // ----- the place of new entries -----

  /** The place behind the owner's last entry, if it has one. */
  ghost function LastPlace(list: seq<Mapping>, owner: string): int {
    if list == [] then -1
    else if list[|list| - 1].name == owner then |list| else LastPlace(list[..|list| - 1], owner)
  }

  lemma {:induction false} LastPlaceIs(list: seq<Mapping>, owner: string)
    ensures var k := LastPlace(list, owner);
      && (k == -1 ==> forall i | 0 <= i < |list| :: list[i].name != owner)
      && (k != -1 ==> 0 < k <= |list| && list[k - 1].name == owner)
      && forall i | 0 <= i < |list| && i >= k :: list[i].name != owner
  {
    if list != [] {
      LastPlaceIs(list[..|list| - 1], owner);
    }
  }

  lemma ScanSnoc(p: Pass, owner: string, m: Mapping)
    requires -1 <= p.pos <= |p.kept|
    ensures m.name == owner ==> Visit(p, owner, m).pos == |Visit(p, owner, m).kept|
    ensures m.name != owner ==> Visit(p, owner, m).pos == p.pos && Visit(p, owner, m).kept == p.kept + [m]
    ensures m.name != owner && p.pos != -1 ==> Visit(p, owner, m).kept[p.pos..] == p.kept[p.pos..] + [m]
  {
  }

  /** What the scan leaves behind the insert position is what stood behind the owner's last entry. */
  lemma {:induction false} ScanTail(list: seq<Mapping>, cfg: map<string, Config>, owner: string)
    ensures var p, k := Scan(list, cfg, owner), LastPlace(list, owner);
      && (p.pos == -1 <==> k == -1) && k <= |list| && (k != -1 ==> k >= 0 && p.kept[p.pos..] == list[k..])
  {
    if list != [] {
      var seen, m := list[..|list| - 1], list[|list| - 1];
      ScanTail(seen, cfg, owner);
      ScanSnoc(Scan(seen, cfg, owner), owner, m);
      var k := LastPlace(list, owner);
      assert m.name != owner && k != -1 ==> list[k..] == seen[k..] + [m];
    }
  }

  lemma {:induction false} SameFront(a: seq<Mapping>, b: seq<Mapping>, tail: seq<Mapping>, owner: string)
    requires Others(a + tail, owner) == Others(b + tail, owner)
    ensures Others(a, owner) == Others(b, owner)
  {
    OthersConcat(a, tail, owner);
    OthersConcat(b, tail, owner);
    var x, y, t := Others(a, owner), Others(b, owner), Others(tail, owner);
    assert (x + t)[..|x|] == x && (y + t)[..|y|] == y;
  }

  /** The place behind the owner's last entry, or the end of the list if it has none. */
  ghost predicate BehindOwn(list: seq<Mapping>, owner: string, k: nat) {
    && k <= |list| && (forall i | k <= i < |list| :: list[i].name != owner)
    && ((k > 0 && list[k - 1].name == owner) || (k == |list| && forall i | 0 <= i < |list| :: list[i].name != owner))
  }

  lemma {:induction false} KeptBehindOwn(list: seq<Mapping>, cfg: map<string, Config>, owner: string) returns (k: nat)
    ensures BehindOwn(list, owner, k)
    ensures var p := Scan(list, cfg, owner); p.kept[InsertPosition(p)..] == list[k..]
  {
    ScanTail(list, cfg, owner);
    LastPlaceIs(list, owner);
    k := if LastPlace(list, owner) == -1 then |list| else LastPlace(list, owner);
  }

  lemma {:induction false} FrontOthers(list: seq<Mapping>, kept: seq<Mapping>, at: nat, k: nat, owner: string)
    requires at <= |kept| && k <= |list| && kept[at..] == list[k..] && Others(kept, owner) == Others(list, owner)
    ensures Others(kept[..at], owner) == Others(list[..k], owner)
  {
    assert kept == kept[..at] + list[k..] && list == list[..k] + list[k..];
    SameFront(kept[..at], list[..k], list[k..], owner);
  }

  /** New entries stand directly behind the owner's last place, or at the end if it had none. */
  lemma {:induction false} NewEntriesFollowOwn(list: seq<Mapping>, cfg: map<string, Config>, owner: string,
                                               hash: string -> string, order: seq<string>)
    returns (k: nat, front: seq<Mapping>)
    ensures BehindOwn(list, owner, k) && Others(front, owner) == Others(list[..k], owner)
    ensures Updated(list, cfg, owner, hash, order)
      == front + Inserted(order, Scan(list, cfg, owner).pending, owner, hash) + list[k..]
  {
    var p := Scan(list, cfg, owner);
    k := KeptBehindOwn(list, cfg, owner);
    ScanKeepsOthers(list, cfg, owner);
    front := p.kept[..InsertPosition(p)];
    FrontOthers(list, p.kept, InsertPosition(p), k, owner);
  }

  // ----- the files to write -----

  ghost predicate Injective(hash: string -> string) {
    forall r, r' :: hash(r) == hash(r') ==> r == r'
  }

  /** The owner's entries point at the file named after their expression. */
  ghost predicate Canonical(list: seq<Mapping>, owner: string, hash: string -> string) {
    forall i | 0 <= i < |list| && list[i].name == owner ::
      ShortName(list[i].file) == FileName(owner, hash(list[i].regex))
  }

  /** Created entries point at the file named after their expression. */
  lemma CreatedIsCanonical(owner: string, c: Config, hash: string -> string)
    requires Lacks(owner, '/') && Lacks(hash(c.regex), '/')
    ensures ShortName(Created(owner, c, hash).file) == FileName(owner, hash(c.regex))
  {
    var name := FileName(owner, hash(c.regex));
    assert "descs/" + name == "descs" + ['/'] + name;
    SplitHead("descs", '/', name);
    SplitNone(name, '/');
  }

  lemma FileNamesDiffer(owner: string, h: string, h': string)
    requires FileName(owner, h) == FileName(owner, h')
    ensures h == h'
  {
    assert FileName(owner, h)[|owner| + 1..] == h;
    assert FileName(owner, h')[|owner| + 1..] == h';
  }

  /** The file of an expression after the scan, by the number of entries the owner had for it. */
  lemma {:induction false} ScanFiles(list: seq<Mapping>, cfg: map<string, Config>, owner: string,
                                     hash: string -> string, r: string)
    requires Keyed(cfg) && Injective(hash) && Canonical(list, owner, hash)
    ensures var files, f, n := Scan(list, cfg, owner).files, FileName(owner, hash(r)), CountOwn(list, owner, r);
      && (f in files <==> n > 0)
      && (n > 0 ==> files[f] == if n == 1 && r in cfg then cfg[r].descriptor else "")
  {
    if list != [] {
      var seen, m := list[..|list| - 1], list[|list| - 1];
      ScanFiles(seen, cfg, owner, hash, r);
      ScanPending(seen, cfg, owner);
      if m.name == owner && ShortName(m.file) == FileName(owner, hash(r)) {
        FileNamesDiffer(owner, hash(m.regex), hash(r));
      }
    }
  }

  /** Adds the files of the inserted entries. */
  function InsertedFiles(files: map<string, string>, order: seq<string>, pending: map<string, Config>, owner: string,
                         hash: string -> string): map<string, string> {
    if order == [] then files
    else
      var rest := InsertedFiles(files, order[..|order| - 1], pending, owner, hash);
      var r := order[|order| - 1];
      if r in pending then rest[FileName(owner, hash(pending[r].regex)) := pending[r].descriptor] else rest
  }

  lemma {:induction false} InsertedFilesAre(files: map<string, string>, order: seq<string>,
                                            pending: map<string, Config>, owner: string, hash: string -> string,
                                            r: string)
    requires Keyed(pending) && Injective(hash)
    ensures var all, f := InsertedFiles(files, order, pending, owner, hash), FileName(owner, hash(r));
      if r in order && r in pending then f in all && all[f] == pending[r].descriptor
      else (f in all <==> f in files) && (f in files ==> all[f] == files[f])
  {
    if order != [] {
      var seen, last := order[..|order| - 1], order[|order| - 1];
      InsertedFilesAre(files, seen, pending, owner, hash, r);
      assert order == seen + [last];
      if FileName(owner, hash(last)) == FileName(owner, hash(r)) {
        FileNamesDiffer(owner, hash(last), hash(r));
      }
    }
  }

  /**
   The descriptor of a requested expression is written exactly when the owner had at most one entry for
   it or the descriptor is empty; a duplicate entry blanks the file again.
   */
  lemma DescriptorsWrittenExactly(list: seq<Mapping>, cfg: map<string, Config>, owner: string, hash: string -> string,
                                  order: seq<string>, r: string)
    requires Keyed(cfg) && Injective(hash) && Canonical(list, owner, hash)
    requires Lists(order, Scan(list, cfg, owner).pending)
    requires r in cfg
    ensures var p := Scan(list, cfg, owner);
      var all, f := InsertedFiles(p.files, order, p.pending, owner, hash), FileName(owner, hash(r));
      f in all && (all[f] == cfg[r].descriptor <==> CountOwn(list, owner, r) <= 1 || cfg[r].descriptor == "")
  {
    var p := Scan(list, cfg, owner);
    ScanFiles(list, cfg, owner, hash, r);
    ScanPending(list, cfg, owner);
    InsertedFilesAre(p.files, order, p.pending, owner, hash, r);
    assert r in order <==> r in multiset(order);
  }

  lemma CountTwice(m: Mapping)
    ensures CountOwn([m, m], m.name, m.regex) == 2
  {
    assert [m, m][..1] == [m];
    assert CountOwn([m], m.name, m.regex) == 1 by { assert [m][..0] == []; }
  }

  /** With two entries for one expression the update blanks the descriptor it has just written. */
  lemma DuplicateBlanksDescriptor(owner: string, hash: string -> string, c: Config, order: seq<string>)
    requires Lacks(owner, '/') && Lacks(hash(c.regex), '/') && c.descriptor != "" && Injective(hash)
    requires var m := Created(owner, c, hash); Lists(order, Scan([m, m], map[c.regex := c], owner).pending)
    ensures var m := Created(owner, c, hash);
      var p, f := Scan([m, m], map[c.regex := c], owner), FileName(owner, hash(c.regex));
      var all := InsertedFiles(p.files, order, p.pending, owner, hash);
      f in all && all[f] != c.descriptor
  {
    var m := Created(owner, c, hash);
    CreatedIsCanonical(owner, c, hash);
    CountTwice(m);
    DescriptorsWrittenExactly([m, m], map[c.regex := c], owner, hash, order, c.regex);
  }

  // ----- removal -----

  /** Notes the descriptor file of a removed entry; its path has a folder. */
  function Forget(deleted: map<string, string>, m: Mapping): map<string, string>
    requires m.file != "" ==> |Split(m.file, '/')| > 1
  {
    if m.file != "" then deleted[Split(m.file, '/')[1] := ""] else deleted
  }

  ghost predicate HasFolder(list: seq<Mapping>, owner: string) {
    forall i | 0 <= i < |list| && list[i].name == owner && list[i].file != "" :: |Split(list[i].file, '/')| > 1
  }

  /** The descriptor files of the removed entries. */
  ghost function RemovedFiles(list: seq<Mapping>, owner: string): map<string, string>
    requires HasFolder(list, owner)
  {
    if list == [] then map[]
    else
      var m, seen := list[|list| - 1], RemovedFiles(list[..|list| - 1], owner);
      if m.name == owner then Forget(seen, m) else seen
  }

  /** Exactly the files of the owner's entries are noted, each to be blanked. */
  lemma {:induction false} RemovedFilesAre(list: seq<Mapping>, owner: string, f: string)
    requires HasFolder(list, owner)
    ensures f in RemovedFiles(list, owner)
      <==> exists i | 0 <= i < |list| :: list[i].name == owner && list[i].file != "" && Split(list[i].file, '/')[1] == f
    ensures f in RemovedFiles(list, owner) ==> RemovedFiles(list, owner)[f] == ""
  {
    if list != [] {
      RemovedFilesAre(list[..|list| - 1], owner, f);
    }
  }
}
