/** The sections and keys of the DevBoard configuration, and their defaults. */
module ConfigSchema {
  import opened Basics
  import opened ConfigText
  import opened ConfigValue
  import opened ConfigGrammar

  // ---------- schema and defaults ----------

  const RUNTIME := Section("runtime", [Row("role", Lowered)], [])
  const SERVER := Section("server", [Row("host", Plain), Row("port", Whole), Row("timezone", Trimmed)], [])
  const HOST := Section("host", [Row("id", Plain), Row("display_name", Plain)], [])
  const DISPLAY := Section("display",
    [Row("dashboard_refresh_seconds", Whole), Row("kindle_refresh_seconds", Whole),
     Row("complete_high_visibility_seconds", Whole), Row("complete_retention_seconds", Whole),
     Row("pad_path", Plain), Row("kindle_right_path", Plain), Row("kindle_left_path", Plain)], [])
  const AGENT := Section("agent", [Row("stale_after_seconds", Whole)], [])
  const NETWORK := Section("network", [Row("probe_address", Plain), Row("probe_timeout_milliseconds", Whole)], [])
  const MULTI_HOST := Section("multi_host", [Row("enabled", Boolean), Row("peers", PeerList)], [])
  const NODES := Section("nodes", [Row("registered", NodeList), Row("disabled", NameList)], [])
  const UPLINK := Section("uplink",
    [Row("enabled", Boolean), Row("endpoint", Plain), Row("node_id", Plain), Row("token", Plain)], [])
  const ADMIN := Section("admin", [Row("enabled", Boolean), Row("token_file", Plain), Row("password_file", Plain)], [])
  const OPERATOR := Section("operator",
    [Row("console_refresh_seconds", Whole), Row("diagnostics_min_level", Lowered), Row("diagnostics_capacity", Whole)], [])
  const QUOTA := Section("quota", [Row("identity_key_file", Plain), Row("account_aliases", Plain)], [])
  const AGENT_QUOTA := Section("agent_quota",
    [Row("enabled", Boolean), Row("provider", Lowered), Row("endpoint", Plain), Row("model", Plain), Row("schedules", NameList)],
    [Row("interval_hours", Whole), Row("start_at", Plain)])

  const SCHEMA: Schema := [RUNTIME, SERVER, HOST, DISPLAY, AGENT, NETWORK, MULTI_HOST, NODES, UPLINK, ADMIN, OPERATOR,
                           QUOTA, AGENT_QUOTA]

  /** Default values, row by row; the retired keys of a section come last. */
  const DEFAULTS: seq<seq<Value>> :=
    [[Text("node")],
     [Text("127.0.0.1"), Num(8787), Text("Asia/Shanghai")],
     [Text("local"), Text("Local Mac")],
     [Num(2), Num(20), Num(600), Num(1800), Text("/display"), Text("/kindle/R"), Text("/kindle/L")],
     [Num(900)],
     [Text("1.1.1.1:443"), Num(1500)],
     [Flag(false), Peers([])],
     [Nodes([]), Names([])],
     [Flag(false), Text(""), Text(""), Text("")],
     [Flag(false), Text(""), Text("")],
     [Num(10), Text("info"), Num(200)],
     [Text(""), Text("")],
     [Flag(false), Text("glm"), Text("https://open.bigmodel.cn/api/paas/v4/chat/completions"), Text(""), Names([]),
      Num(0), Text("")]]

  predicate Tabulated(schema: Schema, values: seq<seq<Value>>) {
    |values| == |schema| && forall i :: 0 <= i < |schema| ==> |values[i]| == |AllRows(schema[i])|
  }

  function AssignRows(section: string, rows: seq<Row>, values: seq<Value>, into: Config): Config
    requires |values| == |rows|
  {
    if rows == [] then into
    else
      var n := |rows| - 1;
      AssignRows(section, rows[..n], values[..n], into)[(section, rows[n].key) := values[n]]
  }

  function Assigned(schema: Schema, values: seq<seq<Value>>): Config
    requires Tabulated(schema, values)
  {
    if schema == [] then map[]
    else
      var n := |schema| - 1;
      AssignRows(schema[n].name, AllRows(schema[n]), values[n], Assigned(schema[..n], values[..n]))
  }

  function Defaults(): Config {
    Assigned(SCHEMA, DEFAULTS)
  }

  lemma {:induction false} AssignRowsAt(section: string, rows: seq<Row>, values: seq<Value>, into: Config, j: nat)
    requires |values| == |rows| && j < |rows|
    requires forall a, b :: 0 <= a < b < |rows| ==> rows[a].key != rows[b].key
    ensures var out := AssignRows(section, rows, values, into);
            (section, rows[j].key) in out && out[(section, rows[j].key)] == values[j]
  {
    var n := |rows| - 1;
    if j < n {
      AssignRowsAt(section, rows[..n], values[..n], into, j);
    }
  }

  lemma {:induction false} AssignRowsElsewhere(section: string, rows: seq<Row>, values: seq<Value>, into: Config, n: Name)
    requires |values| == |rows| && n.0 != section && n in into
    ensures var out := AssignRows(section, rows, values, into); n in out && out[n] == into[n]
  {
    if rows != [] {
      AssignRowsElsewhere(section, rows[..|rows| - 1], values[..|rows| - 1], into, n);
    }
  }

  /** Each key holds the value tabulated for it. */
  lemma {:induction false} AssignedAt(schema: Schema, values: seq<seq<Value>>, i: nat, j: nat)
    requires WellFormed(schema) && Tabulated(schema, values) && i < |schema| && j < |AllRows(schema[i])|
    ensures var n := (schema[i].name, AllRows(schema[i])[j].key);
            n in Assigned(schema, values) && Assigned(schema, values)[n] == values[i][j]
    decreases |schema|
  {
    var n := |schema| - 1;
    var rows := AllRows(schema[n]);
    if i < n {
      AssignedAt(schema[..n], values[..n], i, j);
      AssignRowsElsewhere(schema[n].name, rows, values[n], Assigned(schema[..n], values[..n]),
                          (schema[i].name, AllRows(schema[i])[j].key));
    } else {
      assert Unambiguous(schema[n]);
      AssignRowsAt(schema[n].name, rows, values[n], Assigned(schema[..n], values[..n]), j);
    }
  }

  function TextAt(c: Config, section: string, key: string): string {
    if (section, key) in c && c[(section, key)].Text? then c[(section, key)].text else ""
  }

  function NumAt(c: Config, section: string, key: string): int {
    if (section, key) in c && c[(section, key)].Num? then c[(section, key)].n else 0
  }

  predicate FlagAt(c: Config, section: string, key: string) {
    (section, key) in c && c[(section, key)].Flag? && c[(section, key)].b
  }

  function PeersAt(c: Config): seq<Peer> {
    var n := ("multi_host", "peers");
    if n in c && c[n].Peers? then c[n].peers else []
  }

  function NodesAt(c: Config): seq<Node> {
    var n := ("nodes", "registered");
    if n in c && c[n].Nodes? then c[n].nodes else []
  }

  function NamesAt(c: Config, section: string, key: string): seq<string> {
    if (section, key) in c && c[(section, key)].Names? then c[(section, key)].names else []
  }

  /** Every written key holds a value of its kind. */
  ghost predicate WellTyped(c: Config) {
    forall i, j :: 0 <= i < |SCHEMA| && 0 <= j < |SCHEMA[i].rows| ==>
                     (SCHEMA[i].name, SCHEMA[i].rows[j].key) in c
                     && Typed(SCHEMA[i].rows[j].kind, c[(SCHEMA[i].name, SCHEMA[i].rows[j].key)])
  }

  // ---------- the schema is well formed ----------

  /** Lengths and first characters already tell these words apart. */
  predicate Apart(s: string, t: string) {
    |s| != |t| || (|s| >= 2 && (s[0] != t[0] || s[1] != t[1]))
  }

  lemma RuntimeWorded()
    ensures Worded(RUNTIME)
  {
  }

  lemma AgentWorded()
    ensures Worded(AGENT)
  {
  }

  lemma HostWorded()
    ensures Worded(HOST)
  {
  }

  lemma ServerWorded()
    ensures Worded(SERVER)
  {
  }

  lemma RefreshWords()
    ensures Word("dashboard_refresh_seconds") && Word("kindle_refresh_seconds")
  {
  }

  lemma VisibilityWord()
    ensures Word("complete_high_visibility_seconds")
  {
  }

  lemma RetentionWord()
    ensures Word("complete_retention_seconds")
  {
  }

  lemma PathWords()
    ensures Word("pad_path") && Word("kindle_right_path") && Word("kindle_left_path")
  {
  }

  lemma DisplayWorded()
    ensures Worded(DISPLAY)
  {
    RefreshWords();
    VisibilityWord();
    RetentionWord();
    PathWords();
  }

  lemma ProbeWord()
    ensures Word("probe_timeout_milliseconds")
  {
  }

  lemma NetworkWorded()
    ensures Worded(NETWORK)
  {
    ProbeWord();
    assert Word("probe_address");
  }

  lemma HubWorded()
    ensures Worded(MULTI_HOST) && Worded(NODES)
  {
  }

  lemma UplinkWorded()
    ensures Worded(UPLINK)
  {
  }

  lemma AdminWorded()
    ensures Worded(ADMIN)
  {
  }

  lemma DiagnosticsWords()
    ensures Word("diagnostics_min_level") && Word("diagnostics_capacity")
  {
  }

  lemma OperatorWorded()
    ensures Worded(OPERATOR)
  {
    DiagnosticsWords();
    assert Word("console_refresh_seconds");
  }

  lemma QuotaWorded()
    ensures Worded(QUOTA)
  {
  }

  lemma ActivationWorded()
    ensures Worded(AGENT_QUOTA)
  {
  }

  lemma FirstUnambiguous()
    ensures Unambiguous(RUNTIME) && Unambiguous(SERVER) && Unambiguous(HOST)
  {
  }

  lemma DisplayUnambiguous()
    ensures Unambiguous(DISPLAY)
  {
  }

  lemma MiddleUnambiguous()
    ensures Unambiguous(AGENT) && Unambiguous(NETWORK) && Unambiguous(MULTI_HOST) && Unambiguous(NODES) && Unambiguous(UPLINK)
  {
  }

  lemma LastUnambiguous()
    ensures Unambiguous(ADMIN) && Unambiguous(OPERATOR) && Unambiguous(QUOTA) && Unambiguous(AGENT_QUOTA)
  {
  }

  lemma SchemaSectionsOk()
    ensures forall i :: 0 <= i < |SCHEMA| ==> SectionOk(SCHEMA[i])
  {
    RuntimeWorded();
    AgentWorded();
    HostWorded();
    ServerWorded();
    DisplayWorded();
    NetworkWorded();
    HubWorded();
    UplinkWorded();
    AdminWorded();
    OperatorWorded();
    QuotaWorded();
    ActivationWorded();
    FirstUnambiguous();
    DisplayUnambiguous();
    MiddleUnambiguous();
    LastUnambiguous();
  }

  lemma SchemaWellFormed()
    ensures WellFormed(SCHEMA)
  {
    SchemaSectionsOk();
    forall i, k | 0 <= i < k < |SCHEMA| ensures SCHEMA[i].name != SCHEMA[k].name {
      assert Apart(SCHEMA[i].name, SCHEMA[k].name);
    }
  }

  lemma DefaultsTabulated()
    ensures Tabulated(SCHEMA, DEFAULTS)
  {
  }

  /** The default of a written key. */
  lemma DefaultAt(i: nat, j: nat)
    requires i < |SCHEMA| && j < |SCHEMA[i].rows|
    ensures |DEFAULTS| == |SCHEMA| && j < |DEFAULTS[i]|
    ensures var n := (SCHEMA[i].name, SCHEMA[i].rows[j].key); n in Defaults() && Defaults()[n] == DEFAULTS[i][j]
  {
    SchemaWellFormed();
    DefaultsTabulated();
    assert AllRows(SCHEMA[i])[j] == SCHEMA[i].rows[j];
    AssignedAt(SCHEMA, DEFAULTS, i, j);
  }

  lemma DefaultStart()
    ensures TextAt(Defaults(), "agent_quota", "start_at") == ""
  {
    SchemaWellFormed();
    DefaultsTabulated();
    AssignedAt(SCHEMA, DEFAULTS, 12, 6);
  }

  predicate SuitedTo(s: Section, values: seq<Value>) {
    |s.rows| <= |values| && forall j :: 0 <= j < |s.rows| ==> Typed(s.rows[j].kind, values[j])
  }

  lemma FirstDefaultsSuit()
    ensures SuitedTo(RUNTIME, DEFAULTS[0]) && SuitedTo(SERVER, DEFAULTS[1]) && SuitedTo(HOST, DEFAULTS[2])
    ensures SuitedTo(DISPLAY, DEFAULTS[3]) && SuitedTo(AGENT, DEFAULTS[4]) && SuitedTo(NETWORK, DEFAULTS[5])
  {
  }

  lemma LastDefaultsSuit()
    ensures SuitedTo(MULTI_HOST, DEFAULTS[6]) && SuitedTo(NODES, DEFAULTS[7]) && SuitedTo(UPLINK, DEFAULTS[8])
    ensures SuitedTo(ADMIN, DEFAULTS[9]) && SuitedTo(OPERATOR, DEFAULTS[10]) && SuitedTo(QUOTA, DEFAULTS[11])
    ensures SuitedTo(AGENT_QUOTA, DEFAULTS[12])
  {
  }

  lemma DefaultKinds(i: nat, j: nat)
    requires i < |SCHEMA| && j < |SCHEMA[i].rows| && |DEFAULTS| == |SCHEMA|
    ensures j < |DEFAULTS[i]| && Typed(SCHEMA[i].rows[j].kind, DEFAULTS[i][j])
  {
    FirstDefaultsSuit();
    LastDefaultsSuit();
    assert SuitedTo(SCHEMA[i], DEFAULTS[i]);
  }

  lemma DefaultsWellTyped()
    ensures WellTyped(Defaults())
  {
    forall i, j | 0 <= i < |SCHEMA| && 0 <= j < |SCHEMA[i].rows|
      ensures var n := (SCHEMA[i].name, SCHEMA[i].rows[j].key);
              n in Defaults() && Typed(SCHEMA[i].rows[j].kind, Defaults()[n])
    {
      DefaultAt(i, j);
      DefaultKinds(i, j);
    }
  }

  lemma RetiredDefaults()
    ensures ("agent_quota", "interval_hours") in Defaults() && Defaults()[("agent_quota", "interval_hours")] == Num(0)
    ensures ("agent_quota", "start_at") in Defaults() && Defaults()[("agent_quota", "start_at")] == Text("")
  {
    SchemaWellFormed();
    DefaultsTabulated();
    AssignedAt(SCHEMA, DEFAULTS, 12, 5);
    AssignedAt(SCHEMA, DEFAULTS, 12, 6);
  }

  lemma {:induction false} AssignRowsNames(section: string, rows: seq<Row>, values: seq<Value>, into: Config, n: Name)
    requires |values| == |rows| && n in AssignRows(section, rows, values, into)
    ensures n in into || exists j :: 0 <= j < |rows| && n == (section, rows[j].key)
  {
    if rows != [] && n != (section, rows[|rows| - 1].key) {
      AssignRowsNames(section, rows[..|rows| - 1], values[..|rows| - 1], into, n);
    }
  }

  /** Only keys of the schema are assigned. */
  lemma {:induction false} AssignedNames(schema: Schema, values: seq<seq<Value>>, n: Name)
    requires Tabulated(schema, values) && n in Assigned(schema, values)
    ensures exists i, j :: 0 <= i < |schema| && 0 <= j < |AllRows(schema[i])| && n == (schema[i].name, AllRows(schema[i])[j].key)
    decreases |schema|
  {
    var last := |schema| - 1;
    var s := schema[last];
    AssignRowsNames(s.name, AllRows(s), values[last], Assigned(schema[..last], values[..last]), n);
    if n in Assigned(schema[..last], values[..last]) {
      AssignedNames(schema[..last], values[..last], n);
      var i, j :| 0 <= i < last && 0 <= j < |AllRows(schema[..last][i])|
                  && n == (schema[..last][i].name, AllRows(schema[..last][i])[j].key);
      assert schema[..last][i] == schema[i];
    }
  }

  /** A key of the defaults that is not written is one of the two retired ones. */
  lemma UnwrittenDefaults(n: Name)
    requires n in Defaults()
    requires forall i, j :: 0 <= i < |SCHEMA| && 0 <= j < |SCHEMA[i].rows| ==> n != (SCHEMA[i].name, SCHEMA[i].rows[j].key)
    ensures (n == ("agent_quota", "interval_hours") && Defaults()[n] == Num(0))
         || (n == ("agent_quota", "start_at") && Defaults()[n] == Text(""))
  {
    DefaultsTabulated();
    RetiredDefaults();
    AssignedNames(SCHEMA, DEFAULTS, n);
    var i, j :| 0 <= i < |SCHEMA| && 0 <= j < |AllRows(SCHEMA[i])| && n == (SCHEMA[i].name, AllRows(SCHEMA[i])[j].key);
    if j >= |SCHEMA[i].rows| {
      RetiredRows(i, j);
    }
  }

  lemma RetiredRows(i: nat, j: nat)
    requires i < |SCHEMA| && |SCHEMA[i].rows| <= j < |AllRows(SCHEMA[i])|
    ensures SCHEMA[i].name == "agent_quota" && AllRows(SCHEMA[i])[j].key in {"interval_hours", "start_at"}
  {
    assert AllRows(SCHEMA[i])[j] == SCHEMA[i].retired[j - |SCHEMA[i].rows|];
  }
}
