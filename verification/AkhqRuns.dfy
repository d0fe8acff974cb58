/** The mapping list and the descriptor files over any run of updates and removals by any owners. */
module AkhqRuns {
  import opened Options
  import opened Text
  import opened AkhqMapping

  // ----- what an update keeps of the descriptor paths -----

  /** A fact about the owner, the expression and the descriptor path of an entry. */
  type Path = (string, string, string) -> bool

  ghost predicate AllPaths(list: seq<Mapping>, good: Path) {
    forall i | 0 <= i < |list| :: good(list[i].name, list[i].regex, list[i].file)
  }

  lemma {:induction false} ScanKeepsPaths(list: seq<Mapping>, cfg: map<string, Config>, owner: string, good: Path)
    requires AllPaths(list, good)
    ensures AllPaths(Scan(list, cfg, owner).kept, good)
  {
    if list != [] {
      ScanKeepsPaths(list[..|list| - 1], cfg, owner, good);
    }
  }

  lemma {:induction false} InsertedPaths(order: seq<string>, pending: map<string, Config>, owner: string,
                                         hash: string -> string, good: Path)
    requires forall c: Config :: good(owner, c.regex, Created(owner, c, hash).file)
    ensures AllPaths(Inserted(order, pending, owner, hash), good)
  {
    if order != [] {
      InsertedPaths(order[..|order| - 1], pending, owner, hash, good);
    }
  }

  lemma UpdatedKeepsPaths(list: seq<Mapping>, cfg: map<string, Config>, owner: string, hash: string -> string,
                          order: seq<string>, good: Path)
    requires AllPaths(list, good) && forall c: Config :: good(owner, c.regex, Created(owner, c, hash).file)
    ensures AllPaths(Updated(list, cfg, owner, hash, order), good)
  {
    ScanKeepsPaths(list, cfg, owner, good);
    InsertedPaths(order, Scan(list, cfg, owner).pending, owner, hash, good);
  }

  /** Hash values are digits of a hexadecimal number. */
  ghost predicate Hex(hash: string -> string) {
    forall r :: Lacks(hash(r), '/') && Lacks(hash(r), '-')
  }

  /** An update of any owner leaves the entries of every owner pointing at the files of their expressions. */
  lemma UpdatedIsCanonical(list: seq<Mapping>, cfg: map<string, Config>, owner: string, hash: string -> string,
                           order: seq<string>, other: string)
    requires Canonical(list, other, hash) && Lacks(owner, '/') && Hex(hash)
    ensures Canonical(Updated(list, cfg, owner, hash, order), other, hash)
  {
    var good: Path := (n, r, f) => n == other ==> ShortName(f) == FileName(other, hash(r));
    forall c: Config ensures good(owner, c.regex, Created(owner, c, hash).file) {
      CreatedIsCanonical(owner, c, hash);
    }
    UpdatedKeepsPaths(list, cfg, owner, hash, order, good);
  }

  lemma CreatedHasFolder(owner: string, c: Config, hash: string -> string)
    ensures |Split(Created(owner, c, hash).file, '/')| > 1
  {
    var name := FileName(owner, hash(c.regex));
    assert "descs/" + name == "descs" + ['/'] + name;
    SplitHead("descs", '/', name);
  }

  /** An update leaves every owner removable. */
  lemma UpdatedHasFolder(list: seq<Mapping>, cfg: map<string, Config>, owner: string, hash: string -> string,
                         order: seq<string>, other: string)
    requires HasFolder(list, other)
    ensures HasFolder(Updated(list, cfg, owner, hash, order), other)
  {
    var good: Path := (n, r, f) => n == other && f != "" ==> |Split(f, '/')| > 1;
    forall c: Config ensures good(owner, c.regex, Created(owner, c, hash).file) {
      CreatedHasFolder(owner, c, hash);
    }
    UpdatedKeepsPaths(list, cfg, owner, hash, order, good);
  }

  /** Removing an owner after an update is removing it alone, and it is possible whenever it was. */
  lemma RemovalUndoesUpdate(list: seq<Mapping>, cfg: map<string, Config>, owner: string, hash: string -> string,
                            order: seq<string>)
    requires HasFolder(list, owner)
    ensures var after := Updated(list, cfg, owner, hash, order);
      HasFolder(after, owner) && Others(after, owner) == Others(list, owner)
  {
    UpdatedHasFolder(list, cfg, owner, hash, order, owner);
    UpdateKeepsOthers(list, cfg, owner, hash, order);
  }

  // ----- one step -----

  /** The mapping list and the content of the descriptor files. */
  datatype State = State(list: seq<Mapping>, stored: map<string, string>)

  /** A step is done, or it broke off before the list was stored, after these files had been handled. */
  datatype Fate = Done | Broke(files: set<string>)

  datatype Op = Apply(owner: string, cfg: map<string, Config>, fate: Fate) | Remove(owner: string, fate: Fate)

  predicate Handled(fate: Fate, f: string) {
    fate.Done? || f in fate.files
  }

  /** The files an update writes. */
  ghost function FilesToWrite(list: seq<Mapping>, owner: string, cfg: map<string, Config>, hash: string -> string,
                              order: seq<string>): map<string, string> {
    var p := Scan(list, cfg, owner);
    InsertedFiles(p.files, order, p.pending, owner, hash)
  }

  ghost function Part(files: map<string, string>, fate: Fate): map<string, string> {
    map f | f in files && Handled(fate, f) :: files[f]
  }

  ghost function Applied(s: State, owner: string, cfg: map<string, Config>, hash: string -> string,
                         order: seq<string>, fate: Fate): State {
    State(if fate.Done? then Updated(s.list, cfg, owner, hash, order) else s.list,
          s.stored + Part(FilesToWrite(s.list, owner, cfg, hash, order), fate))
  }

  ghost function Removal(s: State, owner: string, fate: Fate): State
    requires HasFolder(s.list, owner)
  {
    State(if fate.Done? then Others(s.list, owner) else s.list,
          s.stored - set f | f in RemovedFiles(s.list, owner) && Handled(fate, f))
  }

  /** A step; the maps may be walked in any order. */
  ghost predicate Step(s: State, op: Op, s': State, hash: string -> string) {
    match op
    case Apply(owner, cfg, fate) =>
      && Keyed(cfg)
      && exists order ::
           Lists(order, Scan(s.list, cfg, owner).pending) && s' == Applied(s, owner, cfg, hash, order, fate)
    case Remove(owner, fate) => HasFolder(s.list, owner) && s' == Removal(s, owner, fate)
  }

  /** A run from the empty list. */
  ghost predicate History(states: seq<State>, ops: seq<Op>, hash: string -> string) {
    && |states| == |ops| + 1 && states[0] == State([], map[])
    && forall i | 0 <= i < |ops| :: Step(states[i], ops[i], states[i + 1], hash)
  }

  /** What an owner asked for last, and was done. */
  ghost function Wanted(ops: seq<Op>, owner: string): map<string, Config> {
    if ops == [] then map[]
    else Next(ops[|ops| - 1], owner, Wanted(ops[..|ops| - 1], owner))
  }

  ghost function Next(op: Op, owner: string, before: map<string, Config>): map<string, Config> {
    if op.owner != owner || op.fate.Broke? then before else if op.Apply? then op.cfg else map[]
  }

  // ----- the list -----

  /** The owner has one entry per wanted expression, showing the wanted types, and no other. */
  ghost predicate Settled(list: seq<Mapping>, wanted: map<string, Config>, owner: string) {
    OncePerRequest(list, wanted, owner) && AllShow(list, wanted, owner)
  }

  lemma {:induction false} CountOfOthers(list: seq<Mapping>, p: string, q: string, r: string)
    ensures CountOwn(Others(list, p), q, r) == if p == q then 0 else CountOwn(list, q, r)
  {
    if list != [] {
      CountOfOthers(list[..|list| - 1], p, q, r);
    }
  }

  lemma {:induction false} ShownByOthers(list: seq<Mapping>, p: string, q: string, wanted: map<string, Config>)
    requires p != q
    ensures AllShow(Others(list, p), wanted, q) <==> AllShow(list, wanted, q)
  {
    if list != [] {
      var seen, m := list[..|list| - 1], list[|list| - 1];
      assert list == seen + [m];
      ShownByOthers(seen, p, q, wanted);
      ShowSnoc(seen, m, wanted, q);
      ShowSnoc(Others(seen, p), m, wanted, q);
    }
  }

  lemma ShowSnoc(list: seq<Mapping>, m: Mapping, wanted: map<string, Config>, q: string)
    ensures AllShow(list + [m], wanted, q) <==> AllShow(list, wanted, q) && (m.name == q ==> Shows(m, wanted))
  {
    var all := list + [m];
    assert all[|list|] == m;
    assert forall i | 0 <= i < |list| :: all[i] == list[i];
  }

  /** Whoever shares the entries of everybody but `p` is settled alike. */
  lemma SettledByOthers(list: seq<Mapping>, list': seq<Mapping>, p: string, q: string, wanted: map<string, Config>)
    requires p != q && Others(list, p) == Others(list', p) && Settled(list, wanted, q)
    ensures Settled(list', wanted, q)
  {
    ShownByOthers(list, p, q, wanted);
    ShownByOthers(list', p, q, wanted);
    forall r ensures CountOwn(list', q, r) == if r in wanted then 1 else 0 {
      CountOfOthers(list, p, q, r);
      CountOfOthers(list', p, q, r);
    }
  }

  lemma {:induction false} OthersTwice(list: seq<Mapping>, p: string)
    ensures Others(Others(list, p), p) == Others(list, p)
  {
    if list != [] {
      OthersTwice(list[..|list| - 1], p);
    }
  }

  lemma {:induction false} NoneOwn(list: seq<Mapping>, p: string)
    ensures forall i | 0 <= i < |Others(list, p)| :: Others(list, p)[i].name != p
  {
    if list != [] {
      NoneOwn(list[..|list| - 1], p);
    }
  }

  lemma RemovedIsSettled(list: seq<Mapping>, p: string)
    ensures Settled(Others(list, p), map[], p)
  {
    NoneOwn(list, p);
    forall r ensures CountOwn(Others(list, p), p, r) == 0 {
      CountOfOthers(list, p, p, r);
    }
  }

  /** One step of any owner keeps every owner settled. */
  lemma StepSettles(s: State, op: Op, s': State, hash: string -> string, wanted: map<string, Config>, q: string)
    requires Step(s, op, s', hash) && Settled(s.list, wanted, q)
    ensures Settled(s'.list, Next(op, q, wanted), q)
  {
    match op
    case Apply(owner, cfg, fate) =>
      var order :| Lists(order, Scan(s.list, cfg, owner).pending) && s' == Applied(s, owner, cfg, hash, order, fate);
      if fate.Done? && owner == q {
        UpdateIsExact(s.list, cfg, q, hash, order);
      } else if fate.Done? {
        UpdateKeepsOthers(s.list, cfg, owner, hash, order);
        SettledByOthers(s.list, s'.list, owner, q, wanted);
      }
    case Remove(owner, fate) =>
      if fate.Done? && owner == q {
        RemovedIsSettled(s.list, q);
      } else if fate.Done? {
        OthersTwice(s.list, owner);
        SettledByOthers(s.list, s'.list, owner, q, wanted);
      }
  }

  // ----- the paths -----

  /** Every entry has the path the code writes. */
  ghost predicate Placed(list: seq<Mapping>, hash: string -> string) {
    AllPaths(list, (n, r, f) => f == "descs/" + FileName(n, hash(r)))
  }

  lemma {:induction false} OthersKeepPaths(list: seq<Mapping>, p: string, good: Path)
    requires AllPaths(list, good)
    ensures AllPaths(Others(list, p), good)
  {
    if list != [] {
      OthersKeepPaths(list[..|list| - 1], p, good);
    }
  }

  lemma StepPlaces(s: State, op: Op, s': State, hash: string -> string)
    requires Step(s, op, s', hash) && Placed(s.list, hash)
    ensures Placed(s'.list, hash)
  {
    var good: Path := (n, r, f) => f == "descs/" + FileName(n, hash(r));
    match op
    case Apply(owner, cfg, fate) =>
      var order :| Lists(order, Scan(s.list, cfg, owner).pending) && s' == Applied(s, owner, cfg, hash, order, fate);
      UpdatedKeepsPaths(s.list, cfg, owner, hash, order, good);
      assert AllPaths(s'.list, good);
    case Remove(owner, fate) =>
      OthersKeepPaths(s.list, owner, good);
      assert AllPaths(s'.list, good);
  }

  /** A placed path has two parts, the second being the name of the file. */
  lemma PlacedParts(owner: string, hash: string -> string, r: string)
    requires Lacks(owner, '/') && Hex(hash)
    ensures var f := "descs/" + FileName(owner, hash(r));
      f != "" && Split(f, '/') == ["descs", FileName(owner, hash(r))] && ShortName(f) == FileName(owner, hash(r))
  {
    var name := FileName(owner, hash(r));
    assert "descs/" + name == "descs" + ['/'] + name;
    SplitHead("descs", '/', name);
    SplitNone(name, '/');
  }

  lemma PlacedIsCanonical(list: seq<Mapping>, owner: string, hash: string -> string)
    requires Placed(list, hash) && Lacks(owner, '/') && Hex(hash)
    ensures Canonical(list, owner, hash) && HasFolder(list, owner)
  {
    forall i | 0 <= i < |list| && list[i].name == owner
      ensures ShortName(list[i].file) == FileName(owner, hash(list[i].regex)) && |Split(list[i].file, '/')| > 1
    {
      PlacedParts(owner, hash, list[i].regex);
    }
  }

  // ----- the files -----

  /** The content of the file of an expression, if there is one. */
  ghost function FileOf(stored: map<string, string>, owner: string, hash: string -> string, r: string): Option<string> {
    var f := FileName(owner, hash(r));
    if f in stored then Some(stored[f]) else None
  }

  /** An update writes the file of a requested expression, and blanks that of one it drops. */
  lemma FileToWrite(list: seq<Mapping>, owner: string, cfg: map<string, Config>, hash: string -> string,
                    order: seq<string>, wanted: map<string, Config>, r: string)
    requires Keyed(cfg) && Lists(order, Scan(list, cfg, owner).pending) && Injective(hash)
    requires Canonical(list, owner, hash) && OncePerRequest(list, wanted, owner)
    ensures FileOf(FilesToWrite(list, owner, cfg, hash, order), owner, hash, r)
      == if r in cfg then Some(cfg[r].descriptor) else if r in wanted then Some("") else None
  {
    var p := Scan(list, cfg, owner);
    assert CountOwn(list, owner, r) == if r in wanted then 1 else 0;
    ScanFiles(list, cfg, owner, hash, r);
    ScanPending(list, cfg, owner);
    InsertedFilesAre(p.files, order, p.pending, owner, hash, r);
    assert r in order <==> r in multiset(order);
  }

  /** Two owners never share a file. */
  lemma OwnersFilesDiffer(p: string, h: string, q: string, h': string)
    requires Lacks(h, '-') && Lacks(h', '-') && FileName(p, h) == FileName(q, h')
    ensures p == q && h == h'
  {
    var f := FileName(p, h);
    assert f[|p|] == '-' && f[|q|] == '-';
    assert |p| == |q|;
    assert p == f[..|p|] && q == f[..|q|];
    assert h == f[|p| + 1..] && h' == f[|q| + 1..];
  }

  /** The name is that of no file of the owner. */
  ghost predicate NotOf(f: string, owner: string, hash: string -> string) {
    forall r :: f != FileName(owner, hash(r))
  }

  lemma {:induction false} ScanWritesOwn(list: seq<Mapping>, cfg: map<string, Config>, owner: string,
                                         hash: string -> string, f: string)
    requires Canonical(list, owner, hash) && NotOf(f, owner, hash)
    ensures f !in Scan(list, cfg, owner).files
  {
    if list != [] {
      ScanWritesOwn(list[..|list| - 1], cfg, owner, hash, f);
    }
  }

  lemma {:induction false} InsertWritesOwn(files: map<string, string>, order: seq<string>, pending: map<string, Config>,
                                           owner: string, hash: string -> string, f: string)
    requires f !in files && NotOf(f, owner, hash)
    ensures f !in InsertedFiles(files, order, pending, owner, hash)
  {
    if order != [] {
      InsertWritesOwn(files, order[..|order| - 1], pending, owner, hash, f);
    }
  }

  lemma OtherFileStays(list: seq<Mapping>, owner: string, cfg: map<string, Config>, hash: string -> string,
                       order: seq<string>, f: string)
    requires Canonical(list, owner, hash) && NotOf(f, owner, hash)
    ensures f !in FilesToWrite(list, owner, cfg, hash, order)
  {
    var p := Scan(list, cfg, owner);
    ScanWritesOwn(list, cfg, owner, hash, f);
    InsertWritesOwn(p.files, order, p.pending, owner, hash, f);
  }

  /** A file is removed with its owner exactly when the owner has an entry for it. */
  lemma RemovedExactly(list: seq<Mapping>, owner: string, hash: string -> string, f: string)
    requires Placed(list, hash) && Lacks(owner, '/') && Hex(hash) && HasFolder(list, owner)
    ensures f in RemovedFiles(list, owner)
      <==> exists i | 0 <= i < |list| :: list[i].name == owner && f == FileName(owner, hash(list[i].regex))
  {
    RemovedFilesAre(list, owner, f);
    forall i | 0 <= i < |list| && list[i].name == owner
      ensures list[i].file != "" && |Split(list[i].file, '/')| > 1
      ensures Split(list[i].file, '/')[1] == FileName(owner, hash(list[i].regex))
    {
      PlacedParts(owner, hash, list[i].regex);
    }
  }

  lemma {:induction false} CountedEntry(list: seq<Mapping>, owner: string, r: string) returns (i: nat)
    requires CountOwn(list, owner, r) > 0
    ensures i < |list| && list[i].name == owner && list[i].regex == r
  {
    var m := list[|list| - 1];
    if m.name == owner && m.regex == r {
      i := |list| - 1;
    } else {
      i := CountedEntry(list[..|list| - 1], owner, r);
    }
  }

  lemma OwnFileRemoved(list: seq<Mapping>, owner: string, hash: string -> string, wanted: map<string, Config>,
                       r: string)
    requires Placed(list, hash) && Lacks(owner, '/') && Hex(hash) && HasFolder(list, owner) && Injective(hash)
    requires OncePerRequest(list, wanted, owner)
    ensures FileName(owner, hash(r)) in RemovedFiles(list, owner) <==> r in wanted
  {
    var f := FileName(owner, hash(r));
    RemovedExactly(list, owner, hash, f);
    assert CountOwn(list, owner, r) == if r in wanted then 1 else 0;
    if r in wanted {
      var i := CountedEntry(list, owner, r);
    } else if i :| 0 <= i < |list| && list[i].name == owner && f == FileName(owner, hash(list[i].regex)) {
      FileNamesDiffer(owner, hash(list[i].regex), hash(r));
      EntryIsCounted(list, owner, i);
    }
  }

  lemma {:induction false} EntryIsCounted(list: seq<Mapping>, owner: string, i: nat)
    requires i < |list| && list[i].name == owner
    ensures CountOwn(list, owner, list[i].regex) > 0
  {
    if i < |list| - 1 {
      EntryIsCounted(list[..|list| - 1], owner, i);
    }
  }

  lemma OtherFilesAreNot(p: string, q: string, hash: string -> string, r: string)
    requires p != q && Hex(hash)
    ensures NotOf(FileName(q, hash(r)), p, hash)
  {
    forall x ensures FileName(q, hash(r)) != FileName(p, hash(x)) {
      if FileName(q, hash(r)) == FileName(p, hash(x)) {
        OwnersFilesDiffer(q, hash(r), p, hash(x));
      }
    }
  }

  /** The file of an expression after a step, by what was wanted and by its content before. */
  ghost function FileNext(op: Op, owner: string, hash: string -> string, r: string, wanted: map<string, Config>,
                          was: Option<string>): Option<string> {
    if op.owner != owner || !Handled(op.fate, FileName(owner, hash(r))) then was
    else if op.Apply? && r in op.cfg then Some(op.cfg[r].descriptor)
    else if r !in wanted then was
    else if op.Apply? then Some("") else None
  }

  lemma PartStored(stored: map<string, string>, files: map<string, string>, fate: Fate, owner: string,
                   hash: string -> string, r: string)
    ensures FileOf(stored + Part(files, fate), owner, hash, r)
      == if Handled(fate, FileName(owner, hash(r))) && FileOf(files, owner, hash, r).Some?
         then FileOf(files, owner, hash, r) else FileOf(stored, owner, hash, r)
  {
  }

  lemma OwnApplyWrites(s: State, cfg: map<string, Config>, q: string, hash: string -> string, order: seq<string>,
                       fate: Fate, wanted: map<string, Config>, r: string)
    requires Keyed(cfg) && Lists(order, Scan(s.list, cfg, q).pending) && Injective(hash)
    requires Canonical(s.list, q, hash) && OncePerRequest(s.list, wanted, q)
    ensures FileOf(Applied(s, q, cfg, hash, order, fate).stored, q, hash, r)
      == FileNext(Apply(q, cfg, fate), q, hash, r, wanted, FileOf(s.stored, q, hash, r))
  {
    FileToWrite(s.list, q, cfg, hash, order, wanted, r);
    PartStored(s.stored, FilesToWrite(s.list, q, cfg, hash, order), fate, q, hash, r);
  }

  lemma OtherApplyWrites(s: State, cfg: map<string, Config>, owner: string, hash: string -> string, order: seq<string>,
                         fate: Fate, q: string, r: string)
    requires Canonical(s.list, owner, hash) && Hex(hash) && owner != q
    ensures FileOf(Applied(s, owner, cfg, hash, order, fate).stored, q, hash, r) == FileOf(s.stored, q, hash, r)
  {
    OtherFilesAreNot(owner, q, hash, r);
    OtherFileStays(s.list, owner, cfg, hash, order, FileName(q, hash(r)));
    PartStored(s.stored, FilesToWrite(s.list, owner, cfg, hash, order), fate, q, hash, r);
  }

  lemma RemoveWrites(s: State, owner: string, hash: string -> string, fate: Fate, wanted: map<string, Config>,
                     q: string, r: string)
    requires Placed(s.list, hash) && Lacks(owner, '/') && Hex(hash) && HasFolder(s.list, owner) && Injective(hash)
    requires OncePerRequest(s.list, wanted, q)
    ensures FileOf(Removal(s, owner, fate).stored, q, hash, r)
      == FileNext(Remove(owner, fate), q, hash, r, wanted, FileOf(s.stored, q, hash, r))
  {
    if owner == q {
      OwnFileRemoved(s.list, q, hash, wanted, r);
    } else {
      OtherFilesAreNot(owner, q, hash, r);
      RemovedExactly(s.list, owner, hash, FileName(q, hash(r)));
    }
  }

  /** One step, whether it is done or breaks off, sets the file of every owner and expression as it says. */
  lemma StepWrites(s: State, op: Op, s': State, hash: string -> string, wanted: map<string, Config>, q: string,
                   r: string)
    requires Step(s, op, s', hash) && Placed(s.list, hash) && Hex(hash) && Injective(hash) && Lacks(op.owner, '/')
    requires OncePerRequest(s.list, wanted, q)
    ensures FileOf(s'.stored, q, hash, r) == FileNext(op, q, hash, r, wanted, FileOf(s.stored, q, hash, r))
  {
    match op
    case Apply(owner, cfg, fate) =>
      PlacedIsCanonical(s.list, owner, hash);
      var order :| Lists(order, Scan(s.list, cfg, owner).pending) && s' == Applied(s, owner, cfg, hash, order, fate);
      if owner == q {
        OwnApplyWrites(s, cfg, q, hash, order, fate, wanted, r);
      } else {
        OtherApplyWrites(s, cfg, owner, hash, order, fate, q, r);
      }
    case Remove(owner, fate) => RemoveWrites(s, owner, hash, fate, wanted, q, r);
  }

  // ----- runs -----

  ghost predicate GoodOps(ops: seq<Op>) {
    forall i | 0 <= i < |ops| :: Lacks(ops[i].owner, '/')
  }

  /** The content of the file of an expression, told from the operations alone. */
  ghost function Expected(ops: seq<Op>, owner: string, hash: string -> string, r: string): Option<string> {
    if ops == [] then None
    else
      var seen := ops[..|ops| - 1];
      FileNext(ops[|ops| - 1], owner, hash, r, Wanted(seen, owner), Expected(seen, owner, hash, r))
  }

  /** Entries and paths are what their owners asked for last, and files what the operations say. */
  ghost predicate AsWanted(s: State, ops: seq<Op>, hash: string -> string) {
    && Placed(s.list, hash)
    && (forall q :: Settled(s.list, Wanted(ops, q), q))
    && (forall q, r :: FileOf(s.stored, q, hash, r) == Expected(ops, q, hash, r))
  }

  lemma StepIsAsWanted(s: State, ops: seq<Op>, op: Op, s': State, hash: string -> string)
    requires AsWanted(s, ops, hash) && Step(s, op, s', hash) && Hex(hash) && Injective(hash) && Lacks(op.owner, '/')
    ensures AsWanted(s', ops + [op], hash)
  {
    assert (ops + [op])[..|ops|] == ops;
    StepPlaces(s, op, s', hash);
    forall q ensures Settled(s'.list, Wanted(ops + [op], q), q) {
      assert Settled(s.list, Wanted(ops, q), q);
      StepSettles(s, op, s', hash, Wanted(ops, q), q);
    }
    forall q, r ensures FileOf(s'.stored, q, hash, r) == Expected(ops + [op], q, hash, r) {
      assert Settled(s.list, Wanted(ops, q), q) && FileOf(s.stored, q, hash, r) == Expected(ops, q, hash, r);
      StepWrites(s, op, s', hash, Wanted(ops, q), q, r);
    }
  }

  lemma EmptyIsAsWanted(hash: string -> string)
    ensures AsWanted(State([], map[]), [], hash)
  {
  }

  lemma AsWantedNext(states: seq<State>, ops: seq<Op>, hash: string -> string, n: nat)
    requires History(states, ops, hash) && GoodOps(ops) && Hex(hash) && Injective(hash) && n < |ops|
    requires AsWanted(states[n], ops[..n], hash)
    ensures AsWanted(states[n + 1], ops[..n + 1], hash)
  {
    assert Lacks(ops[n].owner, '/') && Step(states[n], ops[n], states[n + 1], hash);
    StepIsAsWanted(states[n], ops[..n], ops[n], states[n + 1], hash);
    assert ops[..n + 1] == ops[..n] + [ops[n]];
  }

  /**
   At every moment, in whatever order owners update and remove and whichever steps break off: every owner has one
   entry per expression of the last request that was done and no other, and every file has the content the
   operations say.
   */
  lemma {:induction false} RunIsAsWanted(states: seq<State>, ops: seq<Op>, hash: string -> string, n: nat)
    requires History(states, ops, hash) && GoodOps(ops) && Hex(hash) && Injective(hash) && n <= |ops|
    ensures AsWanted(states[n], ops[..n], hash)
  {
    if n == 0 {
      EmptyIsAsWanted(hash);
    } else {
      RunIsAsWanted(states, ops, hash, n - 1);
      AsWantedNext(states, ops, hash, n - 1);
    }
  }

  /** In every reached list an owner can be removed, has at most one entry per expression and no misplaced file. */
  lemma ReachedListsAreOrderly(states: seq<State>, ops: seq<Op>, hash: string -> string, n: nat, owner: string)
    requires History(states, ops, hash) && GoodOps(ops) && Hex(hash) && Injective(hash) && n <= |ops|
    requires Lacks(owner, '/')
    ensures var list := states[n].list;
      HasFolder(list, owner) && Canonical(list, owner, hash) && AtMostOnce(list, owner)
  {
    RunIsAsWanted(states, ops, hash, n);
    PlacedIsCanonical(states[n].list, owner, hash);
    OnceIsAtMostOnce(states[n].list, Wanted(ops[..n], owner), owner);
  }

  // ----- files and what is wanted -----

  /** The content is the wanted descriptor; where none is wanted the file is blank or missing. */
  ghost predicate Fits(content: Option<string>, wanted: map<string, Config>, r: string) {
    if r in wanted then content == Some(wanted[r].descriptor) else content == None || content == Some("")
  }

  /** The last step of the owner, if there was one, was done. */
  ghost predicate LastWasDone(ops: seq<Op>, owner: string) {
    if ops == [] then true
    else if ops[|ops| - 1].owner == owner then ops[|ops| - 1].fate.Done?
    else LastWasDone(ops[..|ops| - 1], owner)
  }

  /** The last step that handled the file of an expression. */
  ghost function LastTouch(ops: seq<Op>, owner: string, hash: string -> string, r: string): Option<Op> {
    if ops == [] then None
    else
      var seen, op := ops[..|ops| - 1], ops[|ops| - 1];
      if op.owner == owner && Handled(op.fate, FileName(owner, hash(r)))
         && ((op.Apply? && r in op.cfg) || r in Wanted(seen, owner))
      then Some(op) else LastTouch(seen, owner, hash, r)
  }

  /** The last step that handled the file wrote a descriptor and broke off, and the expression is not wanted. */
  ghost predicate Orphaned(ops: seq<Op>, owner: string, hash: string -> string, r: string) {
    var touch := LastTouch(ops, owner, hash, r);
    && r !in Wanted(ops, owner) && touch.Some? && touch.value.fate.Broke?
    && touch.value.Apply? && r in touch.value.cfg && touch.value.cfg[r].descriptor != ""
  }

  /** The last step that handled a file decides its content. */
  lemma {:induction false} TouchDecides(ops: seq<Op>, owner: string, hash: string -> string, r: string)
    ensures Expected(ops, owner, hash, r) == match LastTouch(ops, owner, hash, r)
      case None => None
      case Some(op) => if op.Remove? then None else if r in op.cfg then Some(op.cfg[r].descriptor) else Some("")
  {
    if ops != [] {
      TouchDecides(ops[..|ops| - 1], owner, hash, r);
    }
  }

  /** Descriptors of expressions that are not wanted were written by steps that broke off. */
  lemma {:induction false} StrayTouchBroke(ops: seq<Op>, owner: string, hash: string -> string, r: string)
    requires r !in Wanted(ops, owner) && LastTouch(ops, owner, hash, r).Some?
    requires var op := LastTouch(ops, owner, hash, r).value; op.Apply? && r in op.cfg
    ensures LastTouch(ops, owner, hash, r).value.fate.Broke?
  {
    var seen, op := ops[..|ops| - 1], ops[|ops| - 1];
    if LastTouch(ops, owner, hash, r) == LastTouch(seen, owner, hash, r) && r !in Wanted(seen, owner) {
      StrayTouchBroke(seen, owner, hash, r);
    }
  }

  lemma {:induction false} WantedIsWritten(ops: seq<Op>, owner: string, hash: string -> string, r: string)
    requires LastWasDone(ops, owner) && r in Wanted(ops, owner)
    ensures Expected(ops, owner, hash, r) == Some(Wanted(ops, owner)[r].descriptor)
  {
    if ops[|ops| - 1].owner != owner {
      WantedIsWritten(ops[..|ops| - 1], owner, hash, r);
    }
  }

  /** When the last step of an owner was done, its files are as wanted except for exactly the orphaned ones. */
  lemma FilesFitExactly(ops: seq<Op>, owner: string, hash: string -> string, r: string)
    requires LastWasDone(ops, owner)
    ensures Fits(Expected(ops, owner, hash, r), Wanted(ops, owner), r) <==> !Orphaned(ops, owner, hash, r)
  {
    TouchDecides(ops, owner, hash, r);
    var touch := LastTouch(ops, owner, hash, r);
    if r in Wanted(ops, owner) {
      WantedIsWritten(ops, owner, hash, r);
    } else if touch.Some? && touch.value.Apply? && r in touch.value.cfg {
      StrayTouchBroke(ops, owner, hash, r);
    }
  }

  ghost predicate NeverBroke(ops: seq<Op>, owner: string) {
    forall i | 0 <= i < |ops| && ops[i].owner == owner :: ops[i].fate.Done?
  }

  /** Without broken steps all files are as wanted. */
  lemma {:induction false} UnbrokenFilesFit(ops: seq<Op>, owner: string, hash: string -> string, r: string)
    requires NeverBroke(ops, owner)
    ensures Fits(Expected(ops, owner, hash, r), Wanted(ops, owner), r)
  {
    if ops != [] {
      UnbrokenFilesFit(ops[..|ops| - 1], owner, hash, r);
    }
  }

  /** A first request that breaks off when its file is written, and a second one without the expression. */
  lemma BrokenRequestLeavesOrphan(owner: string, hash: string -> string, c: Config, files: set<string>)
    requires FileName(owner, hash(c.regex)) in files && c.descriptor != ""
    ensures var ops := [Apply(owner, map[c.regex := c], Broke(files)), Apply(owner, map[], Done)];
      LastWasDone(ops, owner) && Orphaned(ops, owner, hash, c.regex)
  {
    var first, second := Apply(owner, map[c.regex := c], Broke(files)), Apply(owner, map[], Done);
    FirstStep(first, owner, hash, c.regex);
    var ops := [first, second];
    assert ops[..|ops| - 1] == [first];
  }

  lemma FirstStep(op: Op, owner: string, hash: string -> string, r: string)
    requires op.owner == owner && op.Apply? && r in op.cfg && op.fate.Broke?
    requires FileName(owner, hash(r)) in op.fate.files
    ensures Wanted([op], owner) == map[] && LastTouch([op], owner, hash, r) == Some(op)
  {
    var ops := [op];
    assert ops[..|ops| - 1] == [];
  }

  ghost predicate NeverAsks(ops: seq<Op>, owner: string, r: string) {
    forall i | 0 <= i < |ops| && ops[i].owner == owner && ops[i].Apply? :: r !in ops[i].cfg
  }

  /** An orphan stays for good unless its owner asks for the expression again; not even a removal takes it away. */
  lemma {:induction false} OrphansStay(ops: seq<Op>, more: seq<Op>, owner: string, hash: string -> string, r: string)
    requires Orphaned(ops, owner, hash, r) && NeverAsks(more, owner, r)
    ensures Orphaned(ops + more, owner, hash, r)
    ensures Expected(ops + more, owner, hash, r) == Expected(ops, owner, hash, r)
    decreases |more|
  {
    if more == [] {
      assert ops + more == ops;
    } else {
      var fewer := more[..|more| - 1];
      assert (ops + more)[..|ops + more| - 1] == ops + fewer;
      OrphansStay(ops, fewer, owner, hash, r);
    }
  }

  // ----- names of owners -----

  function FullName(name: string, namespace: string): string {
    name + ['-'] + namespace
  }

  /** Resources `n-t` in `s` and `n` in `t-s` are one owner. */
  lemma ResourcesShareAnOwner(n: string, t: string, s: string)
    ensures FullName(n + ['-'] + t, s) == FullName(n, t + ['-'] + s)
  {
    assert FullName(n + ['-'] + t, s) == n + ['-'] + t + ['-'] + s;
  }

  /** Different resources are one owner exactly when a dash moves part of one name into the other's namespace. */
  lemma SameOwnerExactly(n: string, s: string, n': string, s': string)
    requires |n| <= |n'|
    ensures FullName(n, s) == FullName(n', s')
      <==> (n == n' && s == s') || exists t :: n' == n + ['-'] + t && s == t + ['-'] + s'
  {
    var f, f' := FullName(n, s), FullName(n', s');
    if f == f' && |n| < |n'| {
      var t := n'[|n| + 1..];
      assert f[|n|] == '-' && f'[..|n'|] == n';
      assert n' == n + ['-'] + t;
      assert s == f[|n| + 1..];
      assert s == t + ['-'] + s';
    } else if f == f' {
      assert n == f[..|n|] && n' == f'[..|n|];
      assert s == f[|n| + 1..] && s' == f'[|n| + 1..];
    }
  }
}
