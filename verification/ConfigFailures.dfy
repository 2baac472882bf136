/** Valid configurations that saving loses, and files of the first generation that are refused. */
module ConfigFailures {
  import opened Basics
  import opened ConfigText
  import opened ConfigValue
  import opened ConfigGrammar
  import opened ConfigSchema
  import opened ConfigRules
  import opened ConfigRoundTrip
  import opened ConfigDefaults
  import ConfigQuote

  // ---------- a comma in a peer's endpoint ----------

  /** The defaults of a hub with one peer. */
  function HubWith(endpoint: string): Config {
    Defaults()[("runtime", "role") := Text("hub")][("multi_host", "peers") := Peers([Peer("peer", endpoint)])]
  }

  lemma RoleAndPeersAre(i: nat, j: nat)
    requires i < |SCHEMA| && j < |SCHEMA[i].rows|
    ensures var n := (SCHEMA[i].name, SCHEMA[i].rows[j].key);
            && (n == ("runtime", "role") <==> i == 0 && j == 0)
            && (n == ("multi_host", "peers") <==> i == 6 && j == 1)
  {
    SchemaWellFormed();
    var s := SCHEMA[i];
    if s.name == "runtime" {
      assert SCHEMA[0].name == "runtime";
    } else if s.name == "multi_host" {
      assert SCHEMA[6].name == "multi_host";
      assert i == 6 && (j == 0 || j == 1);
      assert "enabled"[0] == 'e' && "peers"[0] == 'p';
    }
  }

  ghost predicate MostlyDefault(d: Config) {
    forall i, j :: 0 <= i < |SCHEMA| && 0 <= j < |SCHEMA[i].rows| && !RoleOrPeers(i, j) ==> IsDefault(d, i, j)
  }

  lemma HubHoldsDefaults(endpoint: string)
    ensures MostlyDefault(HubWith(endpoint)) && WellTyped(HubWith(endpoint))
  {
    var d := HubWith(endpoint);
    forall i, j | 0 <= i < |SCHEMA| && 0 <= j < |SCHEMA[i].rows|
      ensures !RoleOrPeers(i, j) ==> IsDefault(d, i, j)
      ensures var n := (SCHEMA[i].name, SCHEMA[i].rows[j].key); n in d && Typed(SCHEMA[i].rows[j].kind, d[n])
    {
      RoleAndPeersAre(i, j);
      DefaultAt(i, j);
      DefaultKinds(i, j);
    }
  }

  lemma HubIsValid(k: Checks, endpoint: string)
    requires k.zone("Asia/Shanghai") && k.probe("1.1.1.1:443") && k.peer(Trim(endpoint)).Some?
    ensures WellTyped(HubWith(endpoint)) && Valid(k, HubWith(endpoint))
  {
    var d := HubWith(endpoint);
    HubHoldsDefaults(endpoint);
    assert TextAt(d, "runtime", "role") == "hub";
    assert PeersAt(d) == [Peer("peer", endpoint)];
    assert HostIdOk("peer");
    MostDefaultsValid(k, d);
  }

  /**
   Wherever the address library accepts any endpoint with a comma in it, there is a valid configuration that
   does not survive saving and loading.
   */
  lemma CommaEndpointLost(k: Checks, printable: ConfigQuote.Printable, endpoint: string)
    requires ConfigQuote.Sane(printable) && k.zone("Asia/Shanghai") && k.probe("1.1.1.1:443")
    requires ',' in endpoint && k.peer(Trim(endpoint)).Some?
    ensures var c := HubWith(endpoint);
            && WellTyped(c) && Valid(k, c) && Ready(SCHEMA, c)
            && Loaded(k, Render(SCHEMA, c, printable)) != Ok(Canonical(SCHEMA, c, Defaults()))
  {
    var c := HubWith(endpoint);
    HubIsValid(k, endpoint);
    assert PeersAt(c)[0].endpoint == endpoint;
    SaveThenLoadIff(k, c, printable);
  }

  // ---------- files of the first generation ----------

  function LegacyLines(hour: nat, minute: nat, interval: nat): seq<string>
    requires hour < 24 && minute < 60
  {
    [HeadLine(AGENT_QUOTA), [' ', ' '] + "start_at" + [':', ' '] + Clock(hour, minute),
     [' ', ' '] + "interval_hours" + [':', ' '] + Itoa(interval)]
  }

  function LegacyConfig(hour: nat, minute: nat, interval: nat): Config
    requires hour < 24 && minute < 60
  {
    Defaults()[("agent_quota", "start_at") := Text(Clock(hour, minute))][("agent_quota", "interval_hours") := Num(interval)]
  }

  lemma RetiredKinds()
    ensures KindOf(SCHEMA, "agent_quota", "start_at") == Some(Plain)
    ensures KindOf(SCHEMA, "agent_quota", "interval_hours") == Some(Whole)
  {
    SchemaWellFormed();
    assert SCHEMA[12].name == "agent_quota" && FindSection(SCHEMA, "agent_quota") == 12;
    assert SectionOk(SCHEMA[12]);
    var rows := AllRows(SCHEMA[12]);
    assert rows[5] == Row("interval_hours", Whole) && rows[6] == Row("start_at", Plain);
    assert FindRow(rows, "interval_hours") == 5 && FindRow(rows, "start_at") == 6;
  }

  lemma LegacyWords()
    ensures Word("start_at") && Word("interval_hours") && "start_at" != "interval_hours"
  {
  }

  lemma ClockReads(hour: nat, minute: nat)
    requires hour < 24 && minute < 60
    ensures var s := Clock(hour, minute); Tight(s) && s != "" && s[|s| - 1] != ':' && '\n' !in s && Unwrapped(s) == Some(s)
  {
  }

  lemma NumberReads(n: nat)
    requires n <= 24
    ensures var s := Itoa(n); Tight(s) && s != "" && s[|s| - 1] != ':' && '\n' !in s && Unwrapped(s) == Some(s) && Atoi(s) == Some(n)
  {
    AtoiOfItoa(n);
    var s := Itoa(n);
    assert s[0] in s && s[|s| - 1] in s;
  }

  lemma StartReads(st: Loader, hour: nat, minute: nat)
    requires hour < 24 && minute < 60 && st.section == "agent_quota" && st.seen == {}
    ensures var line := [' ', ' '] + "start_at" + [':', ' '] + Clock(hour, minute);
            ReadLine(SCHEMA, st, line)
            == Ok(Loader("agent_quota", {("agent_quota", "start_at")}, st.cfg[("agent_quota", "start_at") := Text(Clock(hour, minute))]))
  {
    LegacyWords();
    RetiredKinds();
    ClockReads(hour, minute);
    ReadPairLine(SCHEMA, st, "start_at", Clock(hour, minute));
    assert st.seen + {("agent_quota", "start_at")} == {("agent_quota", "start_at")};
  }

  lemma IntervalReads(st: Loader, n: nat)
    requires n <= 24 && st.section == "agent_quota" && st.seen == {("agent_quota", "start_at")}
    ensures var line := [' ', ' '] + "interval_hours" + [':', ' '] + Itoa(n);
            var r := ReadLine(SCHEMA, st, line);
            r.Ok? && r.value.cfg == st.cfg[("agent_quota", "interval_hours") := Num(n)]
  {
    LegacyWords();
    RetiredKinds();
    NumberReads(n);
    ReadPairLine(SCHEMA, st, "interval_hours", Itoa(n));
  }

  lemma BlankLineReads(st: Loader)
    ensures ReadLine(SCHEMA, st, "") == Ok(st)
  {
  }

  lemma LegacyLinesUnbroken(hour: nat, minute: nat, interval: nat)
    requires hour < 24 && minute < 60 && interval <= 24
    ensures forall l :: l in LegacyLines(hour, minute, interval) ==> '\n' !in l
  {
    SchemaWellFormed();
    WordShape("agent_quota");
    LegacyWords();
    WordShape("start_at");
    WordShape("interval_hours");
    ClockReads(hour, minute);
    NumberReads(interval);
  }

  lemma LegacyTextParses(hour: nat, minute: nat, interval: nat)
    requires hour < 24 && minute < 60 && interval <= 24
    ensures Parsed(SCHEMA, Defaults(), FileOf(LegacyLines(hour, minute, interval))) == Ok(LegacyConfig(hour, minute, interval))
  {
    var lines, st := LegacyLines(hour, minute, interval), Loader("", {}, Defaults());
    LegacyLinesUnbroken(hour, minute, interval);
    LinesOfFile(lines);
    SchemaWellFormed();
    assert SCHEMA[12] == AGENT_QUOTA && SectionOk(SCHEMA[12]);
    ReadHead(SCHEMA, st, 12);
    var inside := st.(section := "agent_quota");
    StartReads(inside, hour, minute);
    var started := ReadLine(SCHEMA, inside, lines[1]).value;
    IntervalReads(started, interval);
    var ended := ReadLine(SCHEMA, started, lines[2]).value;
    BlankLineReads(ended);
    FourLines(st, inside, started, ended, lines + [""]);
  }

  lemma FourLines(a: Loader, b: Loader, c: Loader, d: Loader, lines: seq<string>)
    requires |lines| == 4 && ReadLine(SCHEMA, a, lines[0]) == Ok(b) && ReadLine(SCHEMA, b, lines[1]) == Ok(c)
    requires ReadLine(SCHEMA, c, lines[2]) == Ok(d) && ReadLine(SCHEMA, d, lines[3]) == Ok(d)
    ensures Read(SCHEMA, a, lines) == Ok(d)
  {
    ReadHeadFirst(SCHEMA, a, lines, 0);
    ReadHeadFirst(SCHEMA, b, lines, 1);
    ReadHeadFirst(SCHEMA, c, lines, 2);
    ReadHeadFirst(SCHEMA, d, lines, 3);
    assert lines[0..] == lines && lines[4..] == [];
  }

  lemma LegacyHoldsDefaults(hour: nat, minute: nat, interval: nat)
    requires hour < 24 && minute < 60
    ensures var c := LegacyConfig(hour, minute, interval);
            && MostlyDefault(c) && TextAt(c, "runtime", "role") == "node" && PeersAt(c) == []
            && NamesAt(c, "agent_quota", "schedules") == []
  {
    var c := LegacyConfig(hour, minute, interval);
    RetiredIsNotWritten(("agent_quota", "interval_hours"), 0);
    RetiredIsNotWritten(("agent_quota", "start_at"), 1);
    forall i, j | 0 <= i < |SCHEMA| && 0 <= j < |SCHEMA[i].rows| ensures IsDefault(c, i, j) {
      DefaultAt(i, j);
    }
    assert IsDefault(c, 0, 0) && IsDefault(c, 6, 1) && IsDefault(c, 12, 4);
    assert SCHEMA[0].rows[0].key == "role" && SCHEMA[6].rows[1].key == "peers" && SCHEMA[12].rows[4].key == "schedules";
  }

  /**
   The file that gives a start and an interval and nothing else is refused exactly when they make more than
   twelve times, and loads as migrated otherwise.
   */
  lemma LegacyTextLoadsIff(k: Checks, hour: nat, minute: nat, interval: nat)
    requires k.zone("Asia/Shanghai") && k.probe("1.1.1.1:443") && hour < 24 && minute < 60 && 1 <= interval <= 24
    ensures Loaded(k, FileOf(LegacyLines(hour, minute, interval)))
         == if hour + 12 * interval < 24 then Err(Invalid) else Ok(Migrated(LegacyConfig(hour, minute, interval)))
  {
    LegacyTextParses(hour, minute, interval);
    LegacySettings(k, hour, minute, interval);
    LegacyStart(hour, minute);
    LegacyFileLoadsIff(k, FileOf(LegacyLines(hour, minute, interval)), LegacyConfig(hour, minute, interval));
  }

  lemma LegacySettings(k: Checks, hour: nat, minute: nat, interval: nat)
    requires k.zone("Asia/Shanghai") && k.probe("1.1.1.1:443") && hour < 24 && minute < 60
    ensures var c := LegacyConfig(hour, minute, interval);
            && SectionsOk(k, c) && SettingsOk(k, c) && NamesAt(c, "agent_quota", "schedules") == []
            && TextAt(c, "agent_quota", "start_at") == Clock(hour, minute) && NumAt(c, "agent_quota", "interval_hours") == interval
  {
    LegacyHoldsDefaults(hour, minute, interval);
    LegacyValues(hour, minute, interval);
    ValidParts(k, LegacyConfig(hour, minute, interval));
  }

  lemma ValidParts(k: Checks, c: Config)
    requires k.zone("Asia/Shanghai") && k.probe("1.1.1.1:443") && MostlyDefault(c)
    requires TextAt(c, "runtime", "role") == "node" && PeersAt(c) == []
    ensures SectionsOk(k, c) && SettingsOk(k, c)
  {
    MostDefaultsValid(k, c);
  }

  lemma LegacyValues(hour: nat, minute: nat, interval: nat)
    requires hour < 24 && minute < 60
    ensures var c := LegacyConfig(hour, minute, interval);
            TextAt(c, "agent_quota", "start_at") == Clock(hour, minute) && NumAt(c, "agent_quota", "interval_hours") == interval
  {
    LegacyWords();
  }

  lemma LegacyStart(hour: nat, minute: nat)
    requires hour < 24 && minute < 60
    ensures var s := Clock(hour, minute); StrictClock(s) && Atoi(Split(s, ':')[0]) == Some(hour)
  {
    ClockIsClock(hour, minute);
    SplitFirst(TwoDigits(hour), ':', TwoDigits(minute));
    TwoDigitsNumber(hour);
  }

  lemma HourlyLines()
    ensures LegacyLines(0, 0, 1) == ["agent_quota:", "  start_at: 00:00", "  interval_hours: 1"]
  {
    assert HeadLine(AGENT_QUOTA) == "agent_quota:";
    StartLine();
    IntervalLine();
  }

  lemma StartLine()
    ensures [' ', ' '] + "start_at" + [':', ' '] + Clock(0, 0) == "  start_at: 00:00"
  {
    assert Clock(0, 0) == "00:00";
  }

  lemma IntervalLine()
    ensures [' ', ' '] + "interval_hours" + [':', ' '] + Itoa(1) == "  interval_hours: 1"
  {
    assert Itoa(1) == "1";
  }

  /** Every hour from midnight is too often. */
  lemma HourlyFromMidnightRefused(k: Checks)
    requires k.zone("Asia/Shanghai") && k.probe("1.1.1.1:443")
    ensures Loaded(k, FileOf(["agent_quota:", "  start_at: 00:00", "  interval_hours: 1"])) == Err(Invalid)
  {
    LegacyTextLoadsIff(k, 0, 0, 1);
    HourlyLines();
  }
}
