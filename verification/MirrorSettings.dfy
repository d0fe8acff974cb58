/** What the printed text says about every setting, and which policy the operator reads from it. */
module MirrorSettings {
  import opened Options
  import opened Text
  import opened Numbers
  import opened Properties
  import opened TopicRuns
  import opened TopicJoin
  import opened MirrorPrinter
  import opened MirrorReader
  import opened MirrorOrigins
  import opened MirrorKeys
  import opened MirrorRoundTrip
  import opened MirrorRuns
  import opened KmmConfigReconciler
  import Configurator = TransformationConfigurator

  // ----- the table -----

  function Number(value: Option<int>, default: int): string {
    match value
    case None => Decimal(default)
    case Some(n) => Decimal(n)
  }

  /** The words of the keys of all settings that can be printed. */
  function AllWords(): seq<seq<string>> {
    [["replication", "factor"],
     ["config", "storage", "replication", "factor"],
     ["offset", "storage", "replication", "factor"],
     ["status", "storage", "replication", "factor"],
     ["heartbeats", "topic", "replication", "factor"],
     ["checkpoints", "topic", "replication", "factor"],
     ["offset-syncs", "topic", "replication", "factor"],
     ["refresh", "topics", "interval", "seconds"],
     ["refresh", "groups", "interval", "seconds"],
     ["dedicated", "mode", "enable", "internal", "rest"],
     ["tasks", "max"],
     ["sync", "topic", "acls", "enabled"],
     ["emit", "checkpoints", "enabled"],
     ["emit", "checkpoints", "interval", "seconds"],
     ["sync", "group", "offsets", "enabled"],
     ["sync", "group", "offsets", "interval", "seconds"],
     ["replication", "policy", "class"]]
  }

  /** The text of each of them, or `None` where it is left out. */
  function Wanted(s: Spec, n: nat): Option<string>
    requires n < 17
  {
    if n < 7 then Some(Decimal(s.factor))
    else if n == 7 then Some(Number(s.topicsInterval, 5))
    else if n == 8 then Some(Number(s.groupsInterval, 5))
    else if n == 9 then Some(if s.internalRest == Some(false) then "false" else "true")
    else if n == 10 then Some(Number(s.tasksMax, s.replicas))
    else if n == 11 then Some("false")
    else if n == 12 || n == 14 then if s.dr then Some("true") else None
    else if n == 13 || n == 15 then if s.dr then Some("5") else None
    else if s.dr || !s.prefixEnabled then Some("io.strimzi.kafka.connect.mirror.IdentityReplicationPolicy")
    else None
  }

  /** The place of a key in the table. */
  function Place(words: seq<string>): nat
    requires |words| >= 2 && words[0] != "" && words[1] != ""
  {
    var first, second := words[0][0], words[1][0];
    if |words| == 2 then if first == 'r' then 0 else 10
    else if |words| == 3 then if first == 'e' then 12 else 16
    else if |words| == 5 then if first == 'd' then 9 else 15
    else if first == 'c' then if |words[0]| == 6 then 1 else 5
    else if first == 'o' then if |words[0]| == 6 then 2 else 6
    else if first == 's' then if |words[0]| == 6 then 3 else if second == 't' then 11 else 14
    else if first == 'h' then 4
    else if first == 'r' then if second == 't' then 7 else 8
    else 13
  }

  lemma FirstPlaces(n: nat)
    requires n < 9
    ensures var words := AllWords()[n]; |words| >= 2 && words[0] != "" && words[1] != "" && Place(words) == n
  {
  }

  lemma LastPlaces(n: nat)
    requires 9 <= n < 17
    ensures var words := AllWords()[n]; |words| >= 2 && words[0] != "" && words[1] != "" && Place(words) == n
  {
  }

  /** The table has every key once. */
  lemma KeysAreDifferent(m: nat, n: nat)
    requires m < 17 && n < 17 && AllWords()[m] == AllWords()[n]
    ensures m == n
  {
    if m < 9 {
      FirstPlaces(m);
    } else {
      LastPlaces(m);
    }
    if n < 9 {
      FirstPlaces(n);
    } else {
      LastPlaces(n);
    }
  }

  // ----- the printed settings are those of the table -----

  /** The setting is the one at place `n` of the table. */
  ghost predicate IsAt(s: Spec, x: Setting, n: nat) {
    n < 17 && x.words == AllWords()[n] && Wanted(s, n) == Some(x.text)
  }

  lemma FactorsAt(s: Spec, i: nat)
    requires i < 7
    ensures IsAt(s, FactorSettings(s)[i], i)
  {
  }

  lemma OthersAt(s: Spec, i: nat)
    requires i < 5
    ensures IsAt(s, OtherSettings(s)[i], 7 + i)
  {
  }

  lemma RecoveryAt(s: Spec, i: nat)
    requires s.dr && i < 4
    ensures IsAt(s, RecoverySettings()[i], 12 + i)
  {
  }

  lemma IdentityIs()
    ensures Configurator.IDENTITY == "io.strimzi.kafka.connect.mirror.IdentityReplicationPolicy"
  {
    assert "io.strimzi.kafka." + "connect.mirror." == "io.strimzi.kafka.connect.mirror.";
  }

  lemma PolicyAt(s: Spec)
    requires s.dr || !s.prefixEnabled
    ensures KeepsTopicNames(s) && IsAt(s, PolicySettings()[0], 16)
  {
    IdentityIs();
  }

  lemma PlaceOf(s: Spec, x: Setting) returns (n: nat)
    requires x in Settings(s)
    ensures IsAt(s, x, n)
  {
    if x in FactorSettings(s) {
      n :| n < 7 && FactorSettings(s)[n] == x;
      FactorsAt(s, n);
    } else if x in OtherSettings(s) {
      var i: nat :| i < 5 && OtherSettings(s)[i] == x;
      OthersAt(s, i);
      n := 7 + i;
    } else if s.dr && x in RecoverySettings() {
      var i: nat :| i < 4 && RecoverySettings()[i] == x;
      RecoveryAt(s, i);
      n := 12 + i;
    } else {
      PolicyAt(s);
      n := 16;
    }
  }

  lemma SettingAt(s: Spec, n: nat) returns (x: Setting)
    requires n < 17 && Wanted(s, n).Some?
    ensures x in Settings(s) && IsAt(s, x, n)
  {
    if n < 7 {
      x := FactorSettings(s)[n];
      FactorsAt(s, n);
    } else if n < 12 {
      x := OtherSettings(s)[n - 7];
      OthersAt(s, n - 7);
    } else {
      x := OptionalAt(s, n);
    }
  }

  lemma OptionalAt(s: Spec, n: nat) returns (x: Setting)
    requires 12 <= n < 17 && Wanted(s, n).Some?
    ensures x in Settings(s) && IsAt(s, x, n)
  {
    if n < 16 {
      x := RecoverySettings()[n - 12];
      RecoveryAt(s, n - 12);
    } else {
      x := PolicySettings()[0];
      PolicyAt(s);
    }
  }

  // ----- reading them back -----

  /** A dotted key of no flow that is not one of the lists of disaster recovery. */
  ghost predicate SettingKey(key: string) {
    '.' in key && Lacks(key, '>') && !EndsRead(LastPart(key))
  }

  /** Only settings have entries of such a key. */
  lemma SettingEntryIs(s: Spec, key: string, line: string) returns (x: Setting)
    requires Printable(s) && SettingKey(key) && HasOrigin(s, line) && IsEntry(key, line)
    ensures x in Settings(s) && SettingOk(x) && KeyOfSetting(x) == key && line == Row(key, x.text)
  {
    var o :| From(s, o, line);
    EntryClaims(s, o, line, key);
    LastPartsOfLists();
    BrokersKeys(s);
    EndingsDiffer();
    x := o.setting;
    SettingKeyIsGood(x);
    OwnKey(KeyOfSetting(x), x.text, key);
  }

  lemma SettingsArePrinted(s: Spec, x: Setting)
    requires x in Settings(s)
    ensures Row(KeyOfSetting(x), x.text) in PrintedLines(s)
  {
    var line := Row(KeyOfSetting(x), x.text);
    if x in FactorSettings(s) {
      RowIsListed(FactorSettings(s), x);
      assert line in Header(s);
    } else if x in OtherSettings(s) {
      RowIsListed(OtherSettings(s), x);
      assert line in Header(s);
    } else {
      RecoveryIsPrinted(s, x);
    }
    InPrinted(s, line);
  }

  lemma RecoveryIsPrinted(s: Spec, x: Setting)
    requires (s.dr && x in RecoverySettings()) || (KeepsTopicNames(s) && x in PolicySettings())
    ensures Row(KeyOfSetting(x), x.text) in ReplicationSection(s)
  {
    var line := Row(KeyOfSetting(x), x.text);
    if s.dr && x in RecoverySettings() {
      RowIsListed(RecoverySettings(), x);
    } else {
      RowIsListed(PolicySettings(), x);
    }
    assert line in Preamble(s);
  }

  lemma RowIsListed(settings: seq<Setting>, x: Setting)
    requires x in settings
    ensures Row(KeyOfSetting(x), x.text) in AsRows(settings)
  {
    var i :| 0 <= i < |settings| && settings[i] == x;
    assert AsRows(settings)[i] == Row(KeyOfSetting(x), x.text);
  }

  lemma SettingsAreOk(s: Spec, x: Setting)
    requires x in Settings(s)
    ensures SettingOk(x)
  {
    FactorSettingsOk(s);
    OtherSettingsOk(s);
    RecoverySettingsOk();
    PolicySettingsOk();
  }

  /** The key at place `n` of the table. */
  function KeyAt(n: nat): string
    requires n < 17
  {
    Join(AllWords()[n], '.')
  }

  lemma KeyDecidesPlace(s: Spec, x: Setting, y: Setting, m: nat, n: nat)
    requires SettingOk(x) && SettingOk(y) && IsAt(s, x, m) && IsAt(s, y, n) && KeyOfSetting(x) == KeyOfSetting(y)
    ensures m == n && x == y
  {
    SplitJoin(x.words, '.');
    SplitJoin(y.words, '.');
    KeysAreDifferent(m, n);
  }

  /** A setting that is wanted is the only entry of its key. */
  lemma WantedEntry(s: Spec, x: Setting, n: nat)
    requires Printable(s) && x in Settings(s) && IsAt(s, x, n)
    ensures SettingKey(KeyAt(n)) && OnlyEntry(PrintedLines(s), KeyAt(n), Row(KeyAt(n), x.text))
  {
    SettingsAreOk(s, x);
    SettingKeyIsGood(x);
    RowEntry(KeyAt(n), x.text);
    SettingsArePrinted(s, x);
    PrintedHaveOrigins(s);
    forall line | line in PrintedLines(s) && IsEntry(KeyAt(n), line) ensures line == Row(KeyAt(n), x.text) {
      var y := SettingEntryIs(s, KeyAt(n), line);
      var m := PlaceOf(s, y);
      KeyDecidesPlace(s, x, y, n, m);
    }
  }

  lemma OptionalWords(n: nat)
    requires 12 <= n < 17
    ensures SettingWords(AllWords()[n])
  {
    if n < 16 {
      RecoverySettingsOk();
      assert SettingOk(RecoverySettings()[n - 12]);
    } else {
      PolicySettingsOk();
      assert SettingOk(PolicySettings()[0]);
    }
  }

  lemma NoSettingEntry(s: Spec, key: string)
    requires Printable(s) && SettingKey(key) && forall x | x in Settings(s) :: KeyOfSetting(x) != key
    ensures NoEntry(PrintedLines(s), key)
  {
    PrintedHaveOrigins(s);
    forall line | line in PrintedLines(s) ensures !IsEntry(key, line) {
      if IsEntry(key, line) {
        var x := SettingEntryIs(s, key, line);
      }
    }
  }

  /** A setting that is left out has no entry. */
  lemma UnwantedEntry(s: Spec, n: nat)
    requires Printable(s) && n < 17 && Wanted(s, n) == None
    ensures NoEntry(PrintedLines(s), KeyAt(n))
  {
    OptionalWords(n);
    var words := AllWords()[n];
    SettingKeyIsGood(Setting(words, ""));
    forall x | x in Settings(s) ensures KeyOfSetting(x) != KeyAt(n) {
      var m := PlaceOf(s, x);
      SettingsAreOk(s, x);
      if KeyOfSetting(x) == KeyAt(n) {
        SplitJoin(x.words, '.');
        SplitJoin(words, '.');
        KeysAreDifferent(m, n);
      }
    }
    NoSettingEntry(s, KeyAt(n));
  }

  // ----- values -----

  ghost predicate PlainText(text: string) {
    Lacks(text, ',') && Lacks(text, '=') && Tight(text, SPACE)
  }

  lemma DecimalIsPlain(n: int)
    ensures PlainText(Decimal(n))
  {
    DecimalLacks(n, ',');
    DecimalLacks(n, '=');
    DecimalLacks(n, ' ');
  }

  lemma PolicyLacks(c: char)
    requires c == ',' || c == '='
    ensures Lacks(Configurator.IDENTITY, c)
  {
    assert Lacks("io.strimzi.kafka.", c) && Lacks("connect.mirror.", c) && Lacks("IdentityReplicationPolicy", c);
  }

  lemma PolicyIsPlain()
    ensures PlainText("io.strimzi.kafka.connect.mirror.IdentityReplicationPolicy")
  {
    PolicyLacks(',');
    PolicyLacks('=');
    IdentityIs();
  }

  lemma WantedIsPlain(s: Spec, n: nat)
    requires n < 17 && Wanted(s, n).Some?
    ensures PlainText(Wanted(s, n).value)
  {
    if n < 7 {
      DecimalIsPlain(s.factor);
    } else if n == 7 {
      DecimalIsPlain(if s.topicsInterval.Some? then s.topicsInterval.value else 5);
    } else if n == 8 {
      DecimalIsPlain(if s.groupsInterval.Some? then s.groupsInterval.value else 5);
    } else if n == 10 {
      DecimalIsPlain(if s.tasksMax.Some? then s.tasksMax.value else s.replicas);
    } else if n == 16 {
      PolicyIsPlain();
    }
  }

  lemma PlainRow(key: string, text: string)
    requires GoodKey(key) && PlainText(text)
    ensures HasEquals(Row(key, text)) && ValueOf(RawOf(Row(key, text))) == One(text)
    ensures FullEntry(Row(key, text), text)
  {
    RowReadsBack(key, text);
    RowEntry(key, text);
    SpaceInFront(text);
    TrimTight(text, SPACE);
    assert Lacks([' '] + text, ',');
    SplitNone([' '] + text, ',');
  }

  /**
   Both readers of the printed text, disaster recovery and the editor, find exactly the settings of the table: the
   recovery settings if and only if disaster recovery is on, and the policy that keeps topic names if and only if
   disaster recovery is on or the replication prefix is off.
   */
  lemma SettingsExactly(s: Spec, n: nat)
    requires Printable(s) && n < 17
    ensures Find(PrintedLines(s), KeyAt(n)) == Wanted(s, n)
    ensures Readable(PrintedLines(s))
    ensures Lookup(PrintedLines(s), KeyAt(n))
         == (match Wanted(s, n) case None => None case Some(text) => Some(One(text)))
  {
    PrintedIsClean(s);
    if Wanted(s, n).Some? {
      var x := SettingAt(s, n);
      WantedEntry(s, x, n);
      SettingsAreOk(s, x);
      SettingKeyIsGood(x);
      WantedIsPlain(s, n);
      PlainRow(KeyAt(n), x.text);
      FindOnly(PrintedLines(s), KeyAt(n), Row(KeyAt(n), x.text));
      OnlyRow(PrintedLines(s), KeyAt(n), Row(KeyAt(n), x.text));
    } else {
      UnwantedEntry(s, n);
      FindNone(PrintedLines(s), KeyAt(n));
      NoRow(PrintedLines(s), KeyAt(n));
    }
  }

  /** No other key of this kind has an entry. */
  lemma NothingElseIsSet(s: Spec, key: string)
    requires Printable(s) && SettingKey(key) && forall n: nat | n < 17 :: KeyAt(n) != key
    ensures Find(PrintedLines(s), key) == None
  {
    forall x | x in Settings(s) ensures KeyOfSetting(x) != key {
      var n := PlaceOf(s, x);
      assert KeyAt(n) != key;
    }
    NoSettingEntry(s, key);
    FindNone(PrintedLines(s), key);
  }

  // ----- the policy -----

  lemma PolicyKey()
    ensures KeyAt(16) == Configurator.POLICY
  {
    var words := AllWords()[16];
    assert words[1..] == ["policy", "class"] && words[1..][1..] == ["class"];
  }

  lemma PolicyAtItsPlace(s: Spec)
    ensures Wanted(s, 16) == if s.dr || !s.prefixEnabled then Some(Configurator.IDENTITY) else None
  {
    IdentityIs();
  }

  /** The editor sees the policy that keeps topic names exactly with disaster recovery or without the prefix. */
  lemma PolicyExactly(s: Spec, lines: seq<string>)
    requires Printable(s) && lines == PrintedLines(s)
    ensures Readable(lines)
    ensures Lookup(lines, Configurator.POLICY)
         == if s.dr || !s.prefixEnabled then Some(One(Configurator.IDENTITY)) else None
    ensures KeepsNames(lines) <==> s.dr || !s.prefixEnabled
  {
    SettingsExactly(s, 16);
    PolicyKey();
    PolicyAtItsPlace(s);
  }

  /** So do all reconciles of custom resources that follow. */
  lemma PolicyAfterRun(s: Spec, rs: seq<Resource>)
    requires Printable(s) && |s.clusters| >= 2 && GoodResources(rs)
    ensures (PrintedIsSound(s); KeepsNames(Split(Run(Printed(s), rs), '\n'))) <==> s.dr || !s.prefixEnabled
  {
    PrintedIsSound(s);
    PrintedSplits(s);
    PolicyExactly(s, PrintedLines(s));
    RunKeepsNames(Printed(s), rs);
  }
}
