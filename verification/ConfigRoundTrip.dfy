/** Saving a configuration and loading it again: when it comes back, and as what. */
module ConfigRoundTrip {
  import opened Basics
  import opened ConfigText
  import opened ConfigValue
  import opened ConfigGrammar
  import opened ConfigSchema
  import opened ConfigRules
  import ConfigQuote

  // ---------- saving and loading ----------

  /** Load: parse on top of the defaults, migrate, validate. */
  function Loaded(k: Checks, text: string): Outcome<Config> {
    var parsed := Parsed(SCHEMA, Defaults(), text);
    if parsed.Err? then parsed
    else if Valid(k, Migrated(parsed.value)) then Ok(Migrated(parsed.value))
    else Err(Invalid)
  }

  /** A retired key is none of the written ones. */
  lemma RetiredIsNotWritten(n: Name, r: nat)
    requires r < 2 && n == ("agent_quota", AGENT_QUOTA.retired[r].key)
    ensures forall i, j :: 0 <= i < |SCHEMA| && 0 <= j < |SCHEMA[i].rows| ==> n != (SCHEMA[i].name, SCHEMA[i].rows[j].key)
  {
    SchemaWellFormed();
    forall i, j | 0 <= i < |SCHEMA| && 0 <= j < |SCHEMA[i].rows| ensures n != (SCHEMA[i].name, SCHEMA[i].rows[j].key) {
      if i < 12 {
        assert SCHEMA[i].name != SCHEMA[12].name;
      } else {
        assert i == 12 && SectionOk(SCHEMA[12]);
        var all := AllRows(SCHEMA[12]);
        assert all[j] == SCHEMA[12].rows[j] && all[5 + r] == AGENT_QUOTA.retired[r] && j < 5;
      }
    }
  }

  /** What is read back from a rendered file has nothing to migrate. */
  lemma RereadNeedsNoMigration(c: Config, printable: ConfigQuote.Printable)
    requires Ready(SCHEMA, c) && RereadAll(SCHEMA, c, Defaults(), printable).Some?
    ensures var p := RereadAll(SCHEMA, c, Defaults(), printable).value; Migrated(p) == p
  {
    var base := Defaults();
    var n := ("agent_quota", "start_at");
    SchemaWellFormed();
    RetiredIsNotWritten(n, 1);
    RereadElsewhere(SCHEMA, c, base, printable, n);
    DefaultStart();
    assert Trim("") == "";
  }

  /** What loading a rendered file comes to. */
  lemma LoadedRendered(k: Checks, c: Config, printable: ConfigQuote.Printable)
    requires ConfigQuote.Sane(printable) && Ready(SCHEMA, c)
    ensures var p := RereadAll(SCHEMA, c, Defaults(), printable);
            Loaded(k, Render(SCHEMA, c, printable))
            == if p.None? then Err(BadValue) else if Valid(k, p.value) then Ok(p.value) else Err(Invalid)
  {
    SchemaWellFormed();
    RenderedRereads(SCHEMA, c, Defaults(), printable);
    if RereadAll(SCHEMA, c, Defaults(), printable).Some? {
      RereadNeedsNoMigration(c, printable);
    }
  }

  lemma InseparablePeers(c: Config, printable: ConfigQuote.Printable)
    requires ConfigQuote.Sane(printable) && WellTyped(c) && Ready(SCHEMA, c) && !Separable(c)
    requires forall p :: p in PeersAt(c) ==> Solid(p.expectedHostId)
    requires RereadAll(SCHEMA, c, Defaults(), printable).Some?
    ensures |PeersAt(RereadAll(SCHEMA, c, Defaults(), printable).value)| != |PeersAt(c)|
  {
    SchemaWellFormed();
    RereadAt(SCHEMA, c, Defaults(), printable, 6, 1);
    var n := (SCHEMA[6].name, SCHEMA[6].rows[1].key);
    assert n == ("multi_host", "peers") && Typed(PeerList, c[n]);
    assert exists q :: q in PeersAt(c) && !EndpointFits(q.endpoint);
    PeersLost(PeersAt(c), printable);
  }

  /** Peers that are not separable come back as another number of peers, or not at all. */
  lemma InseparableLoses(k: Checks, c: Config, printable: ConfigQuote.Printable)
    requires ConfigQuote.Sane(printable) && WellTyped(c) && Ready(SCHEMA, c) && Valid(k, c) && !Separable(c)
    ensures var r := Loaded(k, Render(SCHEMA, c, printable)); r.Err? || |PeersAt(r.value)| != |PeersAt(c)|
  {
    LoadedRendered(k, c, printable);
    PeersSolid(k, c);
    if RereadAll(SCHEMA, c, Defaults(), printable).Some? {
      InseparablePeers(c, printable);
    }
  }

  lemma SeparableLoads(k: Checks, c: Config, printable: ConfigQuote.Printable)
    requires ConfigQuote.Sane(printable) && WellTyped(c) && Ready(SCHEMA, c) && Valid(k, c) && Separable(c)
    ensures Loaded(k, Render(SCHEMA, c, printable)) == Ok(Canonical(SCHEMA, c, Defaults()))
  {
    LoadedRendered(k, c, printable);
    forall i, j | 0 <= i < |SCHEMA| && 0 <= j < |SCHEMA[i].rows|
      ensures RowRecovers(SCHEMA[i].name, SCHEMA[i].rows[j], c, printable)
    {
      ValidRecovers(k, c, printable, i, j);
    }
    AllRecover(SCHEMA, c, Defaults(), printable);
    CanonicalIsValid(k, c, Defaults());
  }

  lemma CanonicalPeers(c: Config, base: Config)
    requires WellTyped(c) && Ready(SCHEMA, c)
    ensures PeersAt(Canonical(SCHEMA, c, base)) == Mapped(PeersAt(c), CanonPeer)
  {
    CanonicalIsCanonised(c, base);
    var n := (SCHEMA[6].name, SCHEMA[6].rows[1].key);
    assert n == ("multi_host", "peers") && n in c && Canonical(SCHEMA, c, base)[n] == Canon(PeerList, c[n]);
  }

  /**
   Saving a valid configuration and loading the file gives its canonical form exactly when no peer's
   endpoint is blank or holds a comma.
   */
  lemma SaveThenLoadIff(k: Checks, c: Config, printable: ConfigQuote.Printable)
    requires ConfigQuote.Sane(printable) && WellTyped(c) && Valid(k, c)
    ensures Ready(SCHEMA, c)
    ensures Loaded(k, Render(SCHEMA, c, printable)) == Ok(Canonical(SCHEMA, c, Defaults())) <==> Separable(c)
  {
    TypedIsReady(c);
    if Separable(c) {
      SeparableLoads(k, c, printable);
    } else {
      InseparableLoses(k, c, printable);
      CanonicalPeers(c, Defaults());
    }
  }

  /** After one save and load, further ones change nothing. */
  lemma SecondSaveIsExact(k: Checks, c: Config, printable: ConfigQuote.Printable)
    requires ConfigQuote.Sane(printable) && WellTyped(c) && Valid(k, c) && Separable(c)
    ensures Ready(SCHEMA, c)
    ensures var d := Canonical(SCHEMA, c, Defaults());
            Ready(SCHEMA, d) && Loaded(k, Render(SCHEMA, d, printable)) == Ok(d)
  {
    TypedIsReady(c);
    var base := Defaults();
    var d := Canonical(SCHEMA, c, base);
    CanonicalIsValid(k, c, base);
    TypedIsReady(d);
    assert Separable(d) by {
      CanonicalPeers(c, base);
      forall i | 0 <= i < |PeersAt(d)| ensures EndpointFits(PeersAt(d)[i].endpoint) {
        TrimIsTight(PeersAt(c)[i].endpoint);
        TrimTwice(PeersAt(c)[i].endpoint);
      }
    }
    SeparableLoads(k, d, printable);
    SchemaWellFormed();
    CanonicalTwice(SCHEMA, c, base);
  }

  // ---------- the exact round trip ----------

  /** All keys of the configuration record are there, the retired ones included. */
  ghost predicate Complete(c: Config) {
    && WellTyped(c) && c.Keys == Defaults().Keys
    && ("agent_quota", "interval_hours") in c && c[("agent_quota", "interval_hours")].Num?
    && ("agent_quota", "start_at") in c && c[("agent_quota", "start_at")].Text?
  }

  /** Nothing in the configuration is padded, capitalised or retired where loading would change it. */
  predicate Neat(c: Config) {
    && Tight(TextAt(c, "server", "timezone"))
    && LowerTrim(TextAt(c, "agent_quota", "provider")) == TextAt(c, "agent_quota", "provider")
    && (forall i :: 0 <= i < |PeersAt(c)| ==> Tight(PeersAt(c)[i].endpoint))
    && (forall i :: 0 <= i < |NodesAt(c)| ==>
          Tight(NodesAt(c)[i].displayName) && LowerTrim(NodesAt(c)[i].accent) == NodesAt(c)[i].accent)
    && (forall i :: 0 <= i < |NamesAt(c, "agent_quota", "schedules")| ==> Tight(NamesAt(c, "agent_quota", "schedules")[i]))
    && NumAt(c, "agent_quota", "interval_hours") == 0 && TextAt(c, "agent_quota", "start_at") == ""
  }

  lemma AdjustedRows(i: nat, j: nat)
    requires i < |SCHEMA| && j < |SCHEMA[i].rows|
    ensures var kind, n := SCHEMA[i].rows[j].kind, (SCHEMA[i].name, SCHEMA[i].rows[j].key);
            && (kind == Trimmed ==> n == ("server", "timezone"))
            && (kind == Lowered ==> n in {("runtime", "role"), ("operator", "diagnostics_min_level"), ("agent_quota", "provider")})
  {
  }

  /** In a neat, valid configuration no written value is changed by loading. */
  lemma NeatIsFixed(k: Checks, c: Config, i: nat, j: nat)
    requires WellTyped(c) && Valid(k, c) && Neat(c) && i < |SCHEMA| && j < |SCHEMA[i].rows|
    ensures var n := (SCHEMA[i].name, SCHEMA[i].rows[j].key); n in c && Typed(SCHEMA[i].rows[j].kind, c[n])
    ensures var n := (SCHEMA[i].name, SCHEMA[i].rows[j].key); Canon(SCHEMA[i].rows[j].kind, c[n]) == c[n]
  {
    var kind, n := SCHEMA[i].rows[j].kind, (SCHEMA[i].name, SCHEMA[i].rows[j].key);
    assert n in c && Typed(kind, c[n]);
    AdjustedRows(i, j);
    ListRows(i, j);
    match kind
    case Trimmed => TrimTight(TextAt(c, "server", "timezone"));
    case Lowered => LoweredFixed(k, c, n);
    case PeerList => PeersFixed(PeersAt(c));
    case NodeList => NodesFixed(NodesAt(c));
    case NameList => NamesFixed(k, c, n);
    case _ =>
  }

  lemma LoweredFixed(k: Checks, c: Config, n: Name)
    requires Valid(k, c) && Neat(c) && n in c && c[n].Text?
    requires n in {("runtime", "role"), ("operator", "diagnostics_min_level"), ("agent_quota", "provider")}
    ensures LowerTrim(c[n].text) == c[n].text
  {
    RolesUnchanged();
    LevelsUnchanged();
  }

  lemma PeersFixed(peers: seq<Peer>)
    requires forall i :: 0 <= i < |peers| ==> Tight(peers[i].endpoint)
    ensures Mapped(peers, CanonPeer) == peers
  {
    forall i | 0 <= i < |peers| ensures CanonPeer(peers[i]) == peers[i] {
      TrimTight(peers[i].endpoint);
    }
  }

  lemma NodesFixed(nodes: seq<Node>)
    requires forall i :: 0 <= i < |nodes| ==> Tight(nodes[i].displayName) && LowerTrim(nodes[i].accent) == nodes[i].accent
    ensures Mapped(nodes, CanonNode) == nodes
  {
    forall i | 0 <= i < |nodes| ensures CanonNode(nodes[i]) == nodes[i] {
      TrimTight(nodes[i].displayName);
    }
  }

  lemma NamesFixed(k: Checks, c: Config, n: Name)
    requires Valid(k, c) && Neat(c) && n in c && c[n].Names?
    requires n == ("nodes", "disabled") || n == ("agent_quota", "schedules")
    ensures TrimAll(c[n].names) == c[n].names
  {
    if n == ("nodes", "disabled") {
      DisabledStay(NodesAt(c), NamesAt(c, "nodes", "disabled"));
    } else {
      var times := NamesAt(c, "agent_quota", "schedules");
      forall i | 0 <= i < |times| ensures Trim(times[i]) == times[i] {
        TrimTight(times[i]);
      }
    }
  }

  lemma NeatAt(k: Checks, c: Config, i: nat, j: nat)
    requires Complete(c) && Ready(SCHEMA, c) && Valid(k, c) && Neat(c) && i < |SCHEMA| && j < |SCHEMA[i].rows|
    ensures var n, d := (SCHEMA[i].name, SCHEMA[i].rows[j].key), Canonical(SCHEMA, c, Defaults());
            n in d && n in c && d[n] == c[n]
  {
    SchemaWellFormed();
    CanonicalAt(SCHEMA, c, Defaults(), i, j);
    NeatIsFixed(k, c, i, j);
  }

  lemma NeatIsCanonical(k: Checks, c: Config)
    requires Complete(c) && Ready(SCHEMA, c) && Valid(k, c) && Neat(c)
    ensures Canonical(SCHEMA, c, Defaults()) == c
  {
    var d := Canonical(SCHEMA, c, Defaults());
    forall n: Name ensures (n in d <==> n in c) && (n in c ==> d[n] == c[n]) {
      if i, j :| 0 <= i < |SCHEMA| && 0 <= j < |SCHEMA[i].rows| && n == (SCHEMA[i].name, SCHEMA[i].rows[j].key) {
        NeatAt(k, c, i, j);
      } else {
        NeatElsewhere(c, n);
      }
    }
    SameMap(d, c);
  }

  lemma SameMap(c: Config, d: Config)
    requires forall n: Name :: (n in c <==> n in d) && (n in d ==> c[n] == d[n])
    ensures c == d
  {
  }

  lemma NeatElsewhere(c: Config, n: Name)
    requires Complete(c) && Ready(SCHEMA, c) && Neat(c)
    requires forall i, j :: 0 <= i < |SCHEMA| && 0 <= j < |SCHEMA[i].rows| ==> n != (SCHEMA[i].name, SCHEMA[i].rows[j].key)
    ensures var d := Canonical(SCHEMA, c, Defaults()); (n in d <==> n in c) && (n in c ==> d[n] == c[n])
  {
    SchemaWellFormed();
    CanonicalElsewhere(SCHEMA, c, Defaults(), n);
    assert n in Defaults() <==> n in c;
    if n in Defaults() {
      UnwrittenDefaults(n);
    }
  }

  lemma CanonicalIsNeat(c: Config)
    requires Complete(c) && Ready(SCHEMA, c) && Canonical(SCHEMA, c, Defaults()) == c
    ensures Neat(c)
  {
    var base := Defaults();
    CanonicalIsCanonised(c, base);
    Adjusted(c, c, 1, 2, "server", "timezone", Trimmed);
    TrimIsTight(TextAt(c, "server", "timezone"));
    Adjusted(c, c, 12, 1, "agent_quota", "provider", Lowered);
    CanonicalPeers(c, base);
    forall i | 0 <= i < |PeersAt(c)| ensures Tight(PeersAt(c)[i].endpoint) {
      assert PeersAt(c)[i] == CanonPeer(PeersAt(c)[i]);
      TrimIsTight(PeersAt(c)[i].endpoint);
    }
    NodesCanonised(c, c);
    forall i | 0 <= i < |NodesAt(c)|
      ensures Tight(NodesAt(c)[i].displayName) && LowerTrim(NodesAt(c)[i].accent) == NodesAt(c)[i].accent
    {
      assert NodesAt(c)[i] == CanonNode(NodesAt(c)[i]);
      TrimIsTight(NodesAt(c)[i].displayName);
    }
    TimesCanonised(c, c);
    var times := NamesAt(c, "agent_quota", "schedules");
    forall i | 0 <= i < |times| ensures Tight(times[i]) {
      assert times[i] == TrimAll(times)[i];
      TrimIsTight(times[i]);
    }
    RetiredKept(c, base);
  }

  lemma NodesCanonised(c: Config, d: Config)
    requires Canonised(c, d)
    ensures NodesAt(d) == Mapped(NodesAt(c), CanonNode)
  {
    var n := (SCHEMA[7].name, SCHEMA[7].rows[0].key);
    assert n == ("nodes", "registered") && n in c && n in d && d[n] == Canon(NodeList, c[n]);
  }

  lemma RetiredKept(c: Config, base: Config)
    requires Ready(SCHEMA, c) && base == Defaults()
    ensures NumAt(Canonical(SCHEMA, c, base), "agent_quota", "interval_hours") == 0
    ensures TextAt(Canonical(SCHEMA, c, base), "agent_quota", "start_at") == ""
  {
    SchemaWellFormed();
    RetiredIsNotWritten(("agent_quota", "interval_hours"), 0);
    RetiredIsNotWritten(("agent_quota", "start_at"), 1);
    CanonicalElsewhere(SCHEMA, c, base, ("agent_quota", "interval_hours"));
    CanonicalElsewhere(SCHEMA, c, base, ("agent_quota", "start_at"));
    RetiredDefaults();
  }

  /** A valid configuration is loaded back unchanged exactly when it is neat and its peers are separable. */
  lemma ExactRoundTripIff(k: Checks, c: Config, printable: ConfigQuote.Printable)
    requires ConfigQuote.Sane(printable) && Complete(c) && Valid(k, c)
    ensures Ready(SCHEMA, c)
    ensures Loaded(k, Render(SCHEMA, c, printable)) == Ok(c) <==> Separable(c) && Neat(c)
  {
    TypedIsReady(c);
    if !Separable(c) {
      InseparableLoses(k, c, printable);
    } else if Neat(c) {
      NeatComesBack(k, c, printable);
    } else if Loaded(k, Render(SCHEMA, c, printable)) == Ok(c) {
      ExactIsNeat(k, c, printable);
    }
  }

  lemma NeatComesBack(k: Checks, c: Config, printable: ConfigQuote.Printable)
    requires ConfigQuote.Sane(printable) && Complete(c) && Valid(k, c) && Ready(SCHEMA, c) && Separable(c) && Neat(c)
    ensures Loaded(k, Render(SCHEMA, c, printable)) == Ok(c)
  {
    SeparableLoads(k, c, printable);
    NeatIsCanonical(k, c);
  }

  lemma ExactIsNeat(k: Checks, c: Config, printable: ConfigQuote.Printable)
    requires ConfigQuote.Sane(printable) && Complete(c) && Valid(k, c) && Ready(SCHEMA, c) && Separable(c)
    requires Loaded(k, Render(SCHEMA, c, printable)) == Ok(c)
    ensures Neat(c)
  {
    SeparableLoads(k, c, printable);
    CanonicalIsNeat(c);
  }

  // ---------- one key changed ----------

  /** The two configurations differ at most in `n`. */
  ghost predicate SameBut(c: Config, d: Config, n: Name) {
    forall m: Name :: m != n ==> (m in c <==> m in d) && (m in c ==> c[m] == d[m])
  }

  /** What the rules read of a section other than the changed one is the same. */
  lemma OtherSection(c: Config, d: Config, n: Name, section: string, key: string)
    requires SameBut(c, d, n) && section != n.0
    ensures TextAt(c, section, key) == TextAt(d, section, key) && NumAt(c, section, key) == NumAt(d, section, key)
    ensures FlagAt(c, section, key) == FlagAt(d, section, key) && NamesAt(c, section, key) == NamesAt(d, section, key)
  {
    assert (section, key) != n;
  }

  lemma CoreAside(k: Checks, c: Config, d: Config, n: Name)
    requires SameBut(c, d, n) && n.0 != "runtime"
    ensures IsHub(c) == IsHub(d)
    ensures n.0 != "server" ==> CoreOk(k, c) == CoreOk(k, d)
  {
    OtherSection(c, d, n, "runtime", "role");
    if n.0 != "server" {
      OtherSection(c, d, n, "server", "host");
      OtherSection(c, d, n, "server", "port");
      OtherSection(c, d, n, "server", "timezone");
    }
  }

  lemma DisplayAside(c: Config, d: Config, n: Name)
    requires SameBut(c, d, n) && n.0 != "display"
    ensures DisplayOk(c) == DisplayOk(d)
  {
    OtherSection(c, d, n, "display", "dashboard_refresh_seconds");
    OtherSection(c, d, n, "display", "pad_path");
    OtherSection(c, d, n, "display", "kindle_right_path");
    OtherSection(c, d, n, "display", "kindle_left_path");
  }

  lemma NodeRoleAside(k: Checks, c: Config, d: Config, n: Name)
    requires SameBut(c, d, n) && n.0 !in {"host", "display", "agent", "network"} && IsHub(c) == IsHub(d)
    ensures NodeRoleOk(k, c) == NodeRoleOk(k, d)
  {
    OtherSection(c, d, n, "host", "id");
    OtherSection(c, d, n, "display", "kindle_refresh_seconds");
    OtherSection(c, d, n, "display", "complete_high_visibility_seconds");
    OtherSection(c, d, n, "display", "complete_retention_seconds");
    OtherSection(c, d, n, "agent", "stale_after_seconds");
    OtherSection(c, d, n, "network", "probe_address");
    OtherSection(c, d, n, "network", "probe_timeout_milliseconds");
  }

  lemma ListsAside(k: Checks, c: Config, d: Config, n: Name)
    requires SameBut(c, d, n) && n.0 !in {"multi_host", "nodes"} && IsHub(c) == IsHub(d)
    ensures MultiHostOk(k, c) == MultiHostOk(k, d) && RegistryOk(c) == RegistryOk(d)
  {
    OtherSection(c, d, n, "multi_host", "enabled");
    OtherSection(c, d, n, "nodes", "disabled");
    assert n != ("multi_host", "peers") && n != ("nodes", "registered");
  }

  lemma UplinkAside(k: Checks, c: Config, d: Config, n: Name)
    requires SameBut(c, d, n) && n.0 !in {"uplink", "host"} && IsHub(c) == IsHub(d)
    ensures UplinkOk(k, c) == UplinkOk(k, d)
  {
    OtherSection(c, d, n, "host", "id");
    OtherSection(c, d, n, "uplink", "enabled");
    OtherSection(c, d, n, "uplink", "endpoint");
    OtherSection(c, d, n, "uplink", "node_id");
    OtherSection(c, d, n, "uplink", "token");
  }

  lemma ConsoleAside(c: Config, d: Config, n: Name)
    requires SameBut(c, d, n) && n.0 !in {"admin", "operator"} && IsHub(c) == IsHub(d)
    ensures AdminOk(c) == AdminOk(d) && OperatorOk(c) == OperatorOk(d)
  {
    OtherSection(c, d, n, "admin", "enabled");
    OtherSection(c, d, n, "admin", "token_file");
    OtherSection(c, d, n, "admin", "password_file");
    OtherSection(c, d, n, "operator", "console_refresh_seconds");
    OtherSection(c, d, n, "operator", "diagnostics_min_level");
    OtherSection(c, d, n, "operator", "diagnostics_capacity");
  }

  lemma TimesAside(k: Checks, c: Config, d: Config)
    requires SameBut(c, d, ("agent_quota", "schedules"))
    ensures SectionsOk(k, c) == SectionsOk(k, d) && IsHub(c) == IsHub(d)
  {
    var n := ("agent_quota", "schedules");
    assert |n.0| == 11;
    CoreAside(k, c, d, n);
    DisplayAside(c, d, n);
    NodeRoleAside(k, c, d, n);
    ListsAside(k, c, d, n);
    UplinkAside(k, c, d, n);
    ConsoleAside(c, d, n);
  }

  lemma SettingsAside(k: Checks, c: Config, d: Config)
    requires SameBut(c, d, ("agent_quota", "schedules")) && IsHub(c) == IsHub(d)
    ensures SettingsOk(k, c) == SettingsOk(k, d)
  {
  }

  /**
   Loading a file of the first generation, with a start and an interval and no times: given that all its
   other settings are valid, it is refused exactly when the migration yields more than twelve times.
   */
  lemma LegacyFileLoadsIff(k: Checks, text: string, c: Config)
    requires Parsed(SCHEMA, Defaults(), text) == Ok(c) && SectionsOk(k, c) && SettingsOk(k, c)
    requires NamesAt(c, "agent_quota", "schedules") == [] && StrictClock(TextAt(c, "agent_quota", "start_at"))
    requires 1 <= NumAt(c, "agent_quota", "interval_hours") <= 24
    ensures var hour := Atoi(Split(TextAt(c, "agent_quota", "start_at"), ':')[0]).value;
            Loaded(k, text)
            == if hour + 12 * NumAt(c, "agent_quota", "interval_hours") < 24 then Err(Invalid) else Ok(Migrated(c))
  {
    var hour, minute, interval := MigrationGives(c);
    MigrationAcceptedIff(hour, minute, interval);
    MigratedValidIff(k, c, Migrated(c));
  }

  /** The migration at work. */
  lemma MigrationGives(c: Config) returns (hour: nat, minute: nat, interval: nat)
    requires NamesAt(c, "agent_quota", "schedules") == [] && StrictClock(TextAt(c, "agent_quota", "start_at"))
    requires 1 <= NumAt(c, "agent_quota", "interval_hours") <= 24
    ensures hour < 24 && minute < 60 && interval == NumAt(c, "agent_quota", "interval_hours")
    ensures hour == Atoi(Split(TextAt(c, "agent_quota", "start_at"), ':')[0]).value
    ensures SameBut(c, Migrated(c), ("agent_quota", "schedules"))
    ensures NamesAt(Migrated(c), "agent_quota", "schedules") == Slots(hour, minute, interval) != []
  {
    var start := TextAt(c, "agent_quota", "start_at");
    StrictIsNotBlank(start);
    var parts := Split(start, ':');
    hour, minute, interval := Atoi(parts[0]).value, Atoi(parts[1]).value, NumAt(c, "agent_quota", "interval_hours");
    assert |SlotHours(hour, interval)| > 0;
  }

  lemma StrictIsNotBlank(s: string)
    requires StrictClock(s)
    ensures Trim(s) != ""
  {
    var parts := Split(s, ':');
    JoinOfSplit(s, ':');
    assert parts[1..] == [parts[1]];
    assert s == parts[0] + [':'] + parts[1];
    TrimKeeps(s, ':');
  }

  /** The migrated configuration is valid exactly when its times are. */
  lemma MigratedValidIff(k: Checks, c: Config, m: Config)
    requires SectionsOk(k, c) && SettingsOk(k, c)
    requires SameBut(c, m, ("agent_quota", "schedules")) && NamesAt(m, "agent_quota", "schedules") != []
    ensures Valid(k, m) <==> SchedulesOk(NamesAt(m, "agent_quota", "schedules"))
  {
    TimesAside(k, c, m);
    SettingsAside(k, c, m);
  }

  lemma ZoneAside(k: Checks, c: Config, d: Config)
    requires SameBut(c, d, ("server", "timezone")) && Valid(k, c)
    requires Trim(TextAt(d, "server", "timezone")) == Trim(TextAt(c, "server", "timezone"))
    ensures Valid(k, d)
  {
    ZoneInCore(k, c, d);
    ZoneElsewhere(k, c, d);
  }

  lemma ZoneInCore(k: Checks, c: Config, d: Config)
    requires SameBut(c, d, ("server", "timezone")) && CoreOk(k, c)
    requires Trim(TextAt(d, "server", "timezone")) == Trim(TextAt(c, "server", "timezone"))
    ensures CoreOk(k, d) && IsHub(c) == IsHub(d)
  {
    var n := ("server", "timezone");
    OtherSection(c, d, n, "runtime", "role");
    assert n != ("server", "host") && n != ("server", "port");
  }

  lemma ZoneElsewhere(k: Checks, c: Config, d: Config)
    requires SameBut(c, d, ("server", "timezone")) && IsHub(c) == IsHub(d)
    ensures DisplayOk(c) == DisplayOk(d) && NodeRoleOk(k, c) == NodeRoleOk(k, d)
    ensures MultiHostOk(k, c) == MultiHostOk(k, d) && RegistryOk(c) == RegistryOk(d) && UplinkOk(k, c) == UplinkOk(k, d)
    ensures AdminOk(c) == AdminOk(d) && OperatorOk(c) == OperatorOk(d) && ActivationOk(k, c) == ActivationOk(k, d)
  {
    var n := ("server", "timezone");
    assert |n.0| == 6 && n.0[0] == 's' && "uplink"[0] == 'u';
    DisplayAside(c, d, n);
    NodeRoleAside(k, c, d, n);
    ListsAside(k, c, d, n);
    UplinkAside(k, c, d, n);
    ConsoleAside(c, d, n);
    ActivationAside(k, c, d, n);
  }

  lemma ActivationAside(k: Checks, c: Config, d: Config, n: Name)
    requires SameBut(c, d, n) && n.0 != "agent_quota" && IsHub(c) == IsHub(d)
    ensures ActivationOk(k, c) == ActivationOk(k, d)
  {
    OtherSection(c, d, n, "agent_quota", "enabled");
    OtherSection(c, d, n, "agent_quota", "provider");
    OtherSection(c, d, n, "agent_quota", "endpoint");
    OtherSection(c, d, n, "agent_quota", "model");
    OtherSection(c, d, n, "agent_quota", "schedules");
  }

  lemma PaddedIsComplete(c: Config, zone: string)
    requires Complete(c)
    ensures Complete(c[("server", "timezone") := Text(zone)])
  {
    var n := ("server", "timezone");
    assert RowIs(1, 2, "server", "timezone", Trimmed);
    assert n in c;
    var d := c[n := Text(zone)];
    assert d.Keys == c.Keys;
    forall i, j | 0 <= i < |SCHEMA| && 0 <= j < |SCHEMA[i].rows|
      ensures var m := (SCHEMA[i].name, SCHEMA[i].rows[j].key); m in d && Typed(SCHEMA[i].rows[j].kind, d[m])
    {
      TimezoneKind(i, j);
    }
  }

  lemma TimezoneKind(i: nat, j: nat)
    requires i < |SCHEMA| && j < |SCHEMA[i].rows|
    ensures (SCHEMA[i].name, SCHEMA[i].rows[j].key) == ("server", "timezone") ==> SCHEMA[i].rows[j].kind == Trimmed
  {
    SchemaWellFormed();
    if SCHEMA[i].name == "server" {
      assert SCHEMA[1].name == "server";
      assert i == 1;
    }
  }

  /** The configuration with a space before its time zone. */
  function Padded(c: Config): Config {
    c[("server", "timezone") := Text([' '] + TextAt(c, "server", "timezone"))]
  }

  lemma PaddedIsValid(k: Checks, c: Config)
    requires Complete(c) && Valid(k, c)
    ensures Complete(Padded(c)) && Valid(k, Padded(c)) && !Neat(Padded(c))
  {
    PaddedIsComplete(c, [' '] + TextAt(c, "server", "timezone"));
    PaddedZone(c, Padded(c));
    ZoneAside(k, c, Padded(c));
  }

  lemma PaddedZone(c: Config, d: Config)
    requires d == Padded(c)
    ensures SameBut(c, d, ("server", "timezone")) && !Tight(TextAt(d, "server", "timezone"))
    ensures Trim(TextAt(d, "server", "timezone")) == Trim(TextAt(c, "server", "timezone"))
  {
    var zone := TextAt(c, "server", "timezone");
    var padded := [' '] + zone;
    assert TextAt(d, "server", "timezone") == padded && padded[0] == ' ';
    TrimDropFirst(padded);
    assert padded[1..] == zone;
  }

  /** A padded time zone is valid, and does not come back as it was. */
  lemma PaddedZoneChanges(k: Checks, c: Config, printable: ConfigQuote.Printable)
    requires ConfigQuote.Sane(printable) && Complete(c) && Valid(k, c)
    ensures Complete(Padded(c)) && Valid(k, Padded(c)) && Ready(SCHEMA, Padded(c))
    ensures Loaded(k, Render(SCHEMA, Padded(c), printable)) != Ok(Padded(c))
  {
    PaddedIsValid(k, c);
    ExactRoundTripIff(k, Padded(c), printable);
  }
}
