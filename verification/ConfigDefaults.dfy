/** Which numbers may replace those of the default configuration; the defaults are themselves valid. */
module ConfigDefaults {
  import opened Basics
  import opened ConfigText
  import opened ConfigValue
  import opened ConfigGrammar
  import opened ConfigSchema
  import opened ConfigRules

  /** Every written key but the role, the peers and the numbers has its default. */
  ghost predicate HoldsDefaults(d: Config) {
    forall i, j :: 0 <= i < |SCHEMA| && 0 <= j < |SCHEMA[i].rows| && !Open(i, j) ==> IsDefault(d, i, j)
  }

  predicate Open(i: nat, j: nat)
    requires i < |SCHEMA| && j < |SCHEMA[i].rows|
  {
    (i == 0 && j == 0) || (i == 6 && j == 1) || SCHEMA[i].rows[j].kind == Whole
  }

  predicate IsDefault(d: Config, i: nat, j: nat)
    requires i < |SCHEMA| && j < |SCHEMA[i].rows|
  {
    var n := (SCHEMA[i].name, SCHEMA[i].rows[j].key);
    i < |DEFAULTS| && j < |DEFAULTS[i]| && n in d && d[n] == DEFAULTS[i][j]
  }

  lemma Default(d: Config, i: nat, j: nat, section: string, key: string, v: Value)
    requires HoldsDefaults(d) && i < |SCHEMA| && j < |SCHEMA[i].rows| && !Open(i, j)
    requires SCHEMA[i].name == section && SCHEMA[i].rows[j].key == key
    requires i < |DEFAULTS| && j < |DEFAULTS[i]| && DEFAULTS[i][j] == v
    ensures (section, key) in d && d[(section, key)] == v
  {
    assert IsDefault(d, i, j);
  }

  lemma DefaultServer(d: Config)
    requires HoldsDefaults(d)
    ensures Trim(TextAt(d, "server", "host")) == "127.0.0.1"
  {
    Default(d, 1, 0, "server", "host", Text("127.0.0.1"));
    TrimTight("127.0.0.1");
  }

  lemma DefaultZone(d: Config)
    requires HoldsDefaults(d)
    ensures Trim(TextAt(d, "server", "timezone")) == "Asia/Shanghai"
  {
    Default(d, 1, 2, "server", "timezone", Text("Asia/Shanghai"));
    TrimTight("Asia/Shanghai");
  }

  lemma DefaultCore(k: Checks, d: Config)
    requires HoldsDefaults(d) && k.zone("Asia/Shanghai") && TextAt(d, "runtime", "role") in {"node", "hub"}
    ensures CoreOk(k, d) <==> 1 <= NumAt(d, "server", "port") <= 65535
  {
    DefaultServer(d);
    DefaultZone(d);
  }

  lemma Unreserved(p: string)
    requires |p| > 1 && p[1] !in {'a', 's', 'h'}
    ensures !("/admin" <= p) && !("/api" <= p) && !("/assets" <= p) && p != "/health" && !("/settings" <= p)
  {
    assert "/admin"[1] == 'a' && "/api"[1] == 'a' && "/assets"[1] == 'a' && "/health"[1] == 'h' && "/settings"[1] == 's';
  }

  lemma DisplayPathOk()
    ensures PathOk("/display") && Trim("/display") == "/display"
  {
    Unreserved("/display");
    TrimTight("/display");
  }

  lemma RightPathOk()
    ensures PathOk("/kindle/R") && Trim("/kindle/R") == "/kindle/R"
  {
    Unreserved("/kindle/R");
    TrimTight("/kindle/R");
  }

  lemma LeftPathOk()
    ensures PathOk("/kindle/L") && Trim("/kindle/L") == "/kindle/L"
  {
    Unreserved("/kindle/L");
    TrimTight("/kindle/L");
  }

  /** Paths of which neither begins like the other. */
  lemma PathsPart(a: string, b: string, i: nat)
    requires i < |a| && i < |b| && a[i] != b[i]
    ensures PathsApart(a, b)
  {
  }

  lemma DefaultDisplay(d: Config)
    requires HoldsDefaults(d)
    ensures DisplayOk(d) <==> 1 <= NumAt(d, "display", "dashboard_refresh_seconds") <= 2
  {
    DefaultPaths(d);
    DisplayPathOk();
    RightPathOk();
    LeftPathOk();
    PathsPart("/display", "/kindle/R", 1);
    PathsPart("/display", "/kindle/L", 1);
    PathsPart("/kindle/R", "/kindle/L", 8);
  }

  lemma DefaultPaths(d: Config)
    requires HoldsDefaults(d)
    ensures TextAt(d, "display", "pad_path") == "/display"
    ensures TextAt(d, "display", "kindle_right_path") == "/kindle/R"
    ensures TextAt(d, "display", "kindle_left_path") == "/kindle/L"
  {
    Default(d, 3, 4, "display", "pad_path", Text("/display"));
    Default(d, 3, 5, "display", "kindle_right_path", Text("/kindle/R"));
    Default(d, 3, 6, "display", "kindle_left_path", Text("/kindle/L"));
  }

  /** The numbers that matter to a node only. */
  predicate NodeNumbersOk(d: Config) {
    && NumAt(d, "display", "kindle_refresh_seconds") > 0
    && 0 <= NumAt(d, "display", "complete_high_visibility_seconds") <= NumAt(d, "display", "complete_retention_seconds")
    && NumAt(d, "agent", "stale_after_seconds") > 0
    && 1 <= NumAt(d, "network", "probe_timeout_milliseconds") <= 60000
  }

  lemma DefaultNodeRole(k: Checks, d: Config)
    requires HoldsDefaults(d) && k.probe("1.1.1.1:443")
    ensures NodeRoleOk(k, d) <==> IsHub(d) || NodeNumbersOk(d)
  {
    Default(d, 2, 0, "host", "id", Text("local"));
    Default(d, 5, 0, "network", "probe_address", Text("1.1.1.1:443"));
    TrimTight("local");
    TrimTight("1.1.1.1:443");
  }

  lemma DefaultLists(k: Checks, d: Config)
    requires HoldsDefaults(d) && (!IsHub(d) ==> PeersAt(d) == []) && PeersOk(k, PeersAt(d))
    ensures MultiHostOk(k, d) && RegistryOk(d)
  {
    Default(d, 6, 0, "multi_host", "enabled", Flag(false));
    Default(d, 7, 0, "nodes", "registered", Nodes([]));
    Default(d, 7, 1, "nodes", "disabled", Names([]));
  }

  lemma DefaultUplink(k: Checks, d: Config)
    requires HoldsDefaults(d)
    ensures UplinkOk(k, d)
  {
    Default(d, 8, 0, "uplink", "enabled", Flag(false));
    Default(d, 8, 1, "uplink", "endpoint", Text(""));
    Default(d, 8, 2, "uplink", "node_id", Text(""));
    Default(d, 8, 3, "uplink", "token", Text(""));
  }

  lemma DefaultConsole(k: Checks, d: Config)
    requires HoldsDefaults(d)
    ensures AdminOk(d) && ActivationOk(k, d)
    ensures OperatorOk(d) <==> 5 <= NumAt(d, "operator", "console_refresh_seconds") <= 60
                               && 50 <= NumAt(d, "operator", "diagnostics_capacity") <= 500
  {
    Default(d, 9, 0, "admin", "enabled", Flag(false));
    Default(d, 10, 1, "operator", "diagnostics_min_level", Text("info"));
    Default(d, 12, 0, "agent_quota", "enabled", Flag(false));
    Default(d, 12, 4, "agent_quota", "schedules", Names([]));
  }

  /** The numbers as the rules want them. */
  predicate NumbersOk(d: Config) {
    && 1 <= NumAt(d, "server", "port") <= 65535
    && 1 <= NumAt(d, "display", "dashboard_refresh_seconds") <= 2
    && 5 <= NumAt(d, "operator", "console_refresh_seconds") <= 60
    && 50 <= NumAt(d, "operator", "diagnostics_capacity") <= 500
    && (IsHub(d) || NodeNumbersOk(d))
  }

  /** A configuration that is the default one but for its role, its peers and its numbers is valid exactly with such numbers. */
  lemma NumbersAcceptedIff(k: Checks, d: Config)
    requires k.zone("Asia/Shanghai") && k.probe("1.1.1.1:443") && HoldsDefaults(d)
    requires TextAt(d, "runtime", "role") in {"node", "hub"} && (!IsHub(d) ==> PeersAt(d) == []) && PeersOk(k, PeersAt(d))
    ensures Valid(k, d) <==> NumbersOk(d)
  {
    DefaultCore(k, d);
    DefaultDisplay(d);
    DefaultNodeRole(k, d);
    DefaultLists(k, d);
    DefaultUplink(k, d);
    DefaultConsole(k, d);
  }

  /** The default numbers are in range. */
  lemma DefaultNumbers(d: Config)
    requires forall i, j :: 0 <= i < |SCHEMA| && 0 <= j < |SCHEMA[i].rows| && SCHEMA[i].rows[j].kind == Whole ==> IsDefault(d, i, j)
    ensures NumbersOk(d)
  {
    DefaultNumber(d, 1, 1, "server", "port", 8787);
    DefaultNumber(d, 3, 0, "display", "dashboard_refresh_seconds", 2);
    DefaultNumber(d, 3, 1, "display", "kindle_refresh_seconds", 20);
    DefaultNumber(d, 3, 2, "display", "complete_high_visibility_seconds", 600);
    DefaultNumber(d, 3, 3, "display", "complete_retention_seconds", 1800);
    DefaultNumber(d, 4, 0, "agent", "stale_after_seconds", 900);
    DefaultNumber(d, 5, 1, "network", "probe_timeout_milliseconds", 1500);
    DefaultNumber(d, 10, 0, "operator", "console_refresh_seconds", 10);
    DefaultNumber(d, 10, 2, "operator", "diagnostics_capacity", 200);
  }

  lemma DefaultNumber(d: Config, i: nat, j: nat, section: string, key: string, n: int)
    requires i < |SCHEMA| && j < |SCHEMA[i].rows| && IsDefault(d, i, j) && DEFAULTS[i][j] == Num(n)
    requires SCHEMA[i].name == section && SCHEMA[i].rows[j].key == key
    ensures NumAt(d, section, key) == n
  {
  }

  lemma MostDefaultsValid(k: Checks, d: Config)
    requires k.zone("Asia/Shanghai") && k.probe("1.1.1.1:443")
    requires forall i, j :: 0 <= i < |SCHEMA| && 0 <= j < |SCHEMA[i].rows| && !RoleOrPeers(i, j) ==> IsDefault(d, i, j)
    requires TextAt(d, "runtime", "role") in {"node", "hub"} && (!IsHub(d) ==> PeersAt(d) == []) && PeersOk(k, PeersAt(d))
    ensures Valid(k, d)
  {
    DefaultNumbers(d);
    NumbersAcceptedIff(k, d);
  }

  predicate RoleOrPeers(i: nat, j: nat) {
    (i == 0 && j == 0) || (i == 6 && j == 1)
  }

  lemma RoleAndPeers()
    ensures TextAt(Defaults(), "runtime", "role") == "node" && PeersAt(Defaults()) == []
  {
    DefaultAt(0, 0);
    DefaultAt(6, 1);
    assert SCHEMA[0].rows[0].key == "role" && SCHEMA[6].rows[1].key == "peers";
  }

  lemma DefaultsHold()
    ensures forall i, j :: 0 <= i < |SCHEMA| && 0 <= j < |SCHEMA[i].rows| ==> IsDefault(Defaults(), i, j)
  {
    forall i, j | 0 <= i < |SCHEMA| && 0 <= j < |SCHEMA[i].rows| ensures IsDefault(Defaults(), i, j) {
      DefaultAt(i, j);
    }
  }

  /** The defaults are a valid configuration wherever their time zone and probe address are. */
  lemma DefaultsAreValid(k: Checks)
    requires k.zone("Asia/Shanghai") && k.probe("1.1.1.1:443")
    ensures WellTyped(Defaults()) && Valid(k, Defaults())
  {
    DefaultsHold();
    DefaultsWellTyped();
    RoleAndPeers();
    MostDefaultsValid(k, Defaults());
  }
}
