/** The rules a configuration must meet, and what saving and loading do to one that meets them. */
module ConfigRules {
  import opened Basics
  import opened ConfigText
  import opened ConfigValue
  import opened ConfigGrammar
  import opened ConfigSchema
  import ConfigQuote

  /** Library validators: zone names, probe addresses, peer endpoints (giving their normal form) and URLs. */
  datatype Checks = Checks(zone: string -> bool, probe: string -> bool, peer: string -> Option<string>,
                           uplinkUrl: string -> bool, activationUrl: string -> bool)

  // ---------- the rules ----------

  predicate HostIdOk(id: string) {
    1 <= |id| <= 64 && forall i :: 0 <= i < |id| ==> Alphanumeric(id[i]) || id[i] in {'.', '_', '-'}
  }

  predicate Alphanumeric(c: char) {
    'a' <= c <= 'z' || 'A' <= c <= 'Z' || '0' <= c <= '9'
  }

  predicate TokenOk(t: string) {
    32 <= |t| <= 128 && forall i :: 0 <= i < |t| ==> Alphanumeric(t[i]) || t[i] in {'.', '_', '~', '+', '-'}
  }

  /** Length in UTF-8. */
  function Bytes(s: string): nat {
    if s == "" then 0
    else
      var n := s[0] as int;
      (if n < 0x80 then 1 else if n < 0x800 then 2 else if n < 0x10000 then 3 else 4) + Bytes(s[1..])
  }

  predicate DisplayNameOk(s: string) {
    Bytes(s) <= 64 && forall i :: 0 <= i < |s| ==> s[i] >= ' ' && s[i] as int != 0x7f && s[i] != '=' && s[i] != ','
  }

  predicate AccentOk(s: string) {
    LowerTrim(s) in {"", "blue", "cyan", "violet", "amber", "green"}
  }

  predicate ClockOk(s: string) {
    var parts := Split(s, ':');
    && |parts| == 2 && |parts[0]| == 2 && |parts[1]| == 2
    && Atoi(parts[0]).Some? && Atoi(parts[1]).Some?
    && 0 <= Atoi(parts[0]).value < 24 && 0 <= Atoi(parts[1]).value < 60
  }

  predicate PathOk(p: string) {
    && p != "" && |p| <= 96 && p[0] == '/' && p != "/" && p[|p| - 1] != '/'
    && (forall i :: 0 <= i < |p| - 1 ==> !(p[i] == '/' && p[i + 1] == '/'))
    && !("/admin" <= p) && !("/api" <= p) && !("/assets" <= p) && p != "/health" && !("/settings" <= p)
    && (forall i :: 0 <= i < |p| ==> Alphanumeric(p[i]) || p[i] in {'/', '-', '_'})
  }

  predicate PathsApart(a: string, b: string) {
    a != b && !(b + "/" <= a) && !(a + "/" <= b)
  }

  predicate CoreOk(k: Checks, c: Config) {
    && TextAt(c, "runtime", "role") in {"node", "hub"}
    && Trim(TextAt(c, "server", "host")) != "" && 1 <= NumAt(c, "server", "port") <= 65535
    && k.zone(Trim(TextAt(c, "server", "timezone")))
  }

  predicate DisplayOk(c: Config) {
    var pad := Trim(TextAt(c, "display", "pad_path"));
    var right, left := Trim(TextAt(c, "display", "kindle_right_path")), Trim(TextAt(c, "display", "kindle_left_path"));
    && 1 <= NumAt(c, "display", "dashboard_refresh_seconds") <= 2
    && PathOk(pad) && PathOk(right) && PathOk(left)
    && PathsApart(pad, right) && PathsApart(pad, left) && PathsApart(right, left)
  }

  predicate IsHub(c: Config) {
    TextAt(c, "runtime", "role") == "hub"
  }

  predicate NodeRoleOk(k: Checks, c: Config) {
    !IsHub(c) ==>
      && Trim(TextAt(c, "host", "id")) != "" && NumAt(c, "display", "kindle_refresh_seconds") > 0
      && 0 <= NumAt(c, "display", "complete_high_visibility_seconds") <= NumAt(c, "display", "complete_retention_seconds")
      && NumAt(c, "agent", "stale_after_seconds") > 0
      && k.probe(Trim(TextAt(c, "network", "probe_address")))
      && 0 < NumAt(c, "network", "probe_timeout_milliseconds") <= 60000
  }

  predicate PeersOk(k: Checks, peers: seq<Peer>) {
    && (forall i :: 0 <= i < |peers| ==> HostIdOk(peers[i].expectedHostId) && k.peer(Trim(peers[i].endpoint)).Some?)
    && (forall i, j :: 0 <= i < j < |peers| ==>
          && peers[i].expectedHostId != peers[j].expectedHostId
          && k.peer(Trim(peers[i].endpoint)) != k.peer(Trim(peers[j].endpoint)))
  }

  predicate MultiHostOk(k: Checks, c: Config) {
    !FlagAt(c, "multi_host", "enabled") && (!IsHub(c) ==> PeersAt(c) == []) && PeersOk(k, PeersAt(c))
  }

  predicate NodesOk(nodes: seq<Node>) {
    && (forall i :: 0 <= i < |nodes| ==>
          && HostIdOk(nodes[i].nodeId) && DisplayNameOk(nodes[i].displayName)
          && AccentOk(nodes[i].accent) && TokenOk(nodes[i].token))
    && (forall i, j :: 0 <= i < j < |nodes| ==> nodes[i].nodeId != nodes[j].nodeId && nodes[i].token != nodes[j].token)
  }

  predicate Registered(nodes: seq<Node>, id: string) {
    exists j :: 0 <= j < |nodes| && nodes[j].nodeId == id
  }

  predicate DisabledOk(nodes: seq<Node>, ids: seq<string>) {
    && (forall i :: 0 <= i < |ids| ==> Registered(nodes, ids[i]))
    && (forall i, j :: 0 <= i < j < |ids| ==> ids[i] != ids[j])
  }

  predicate RegistryOk(c: Config) {
    && (NodesAt(c) != [] || NamesAt(c, "nodes", "disabled") != [] ==> IsHub(c))
    && NodesOk(NodesAt(c)) && DisabledOk(NodesAt(c), NamesAt(c, "nodes", "disabled"))
  }

  predicate UplinkOk(k: Checks, c: Config) {
    var enabled := FlagAt(c, "uplink", "enabled");
    var endpoint, node, token := TextAt(c, "uplink", "endpoint"), TextAt(c, "uplink", "node_id"), TextAt(c, "uplink", "token");
    && (enabled || endpoint != "" || node != "" || token != "" ==> !IsHub(c))
    && (enabled ==> k.uplinkUrl(Trim(endpoint)) && HostIdOk(node) && node == TextAt(c, "host", "id") && TokenOk(token))
  }

  predicate AdminOk(c: Config) {
    var token, password := Trim(TextAt(c, "admin", "token_file")), Trim(TextAt(c, "admin", "password_file"));
    FlagAt(c, "admin", "enabled") ==>
      IsHub(c) && token != "" && token[0] == '/' && (password == "" || password[0] == '/')
  }

  predicate OperatorOk(c: Config) {
    && 5 <= NumAt(c, "operator", "console_refresh_seconds") <= 60
    && TextAt(c, "operator", "diagnostics_min_level") in {"info", "warn", "error"}
    && 50 <= NumAt(c, "operator", "diagnostics_capacity") <= 500
  }

  predicate SchedulesOk(times: seq<string>) {
    && |times| <= 12
    && (forall i :: 0 <= i < |times| ==> ClockOk(Trim(times[i])))
    && (forall i, j :: 0 <= i < j < |times| ==> Trim(times[i]) != Trim(times[j]))
  }

  predicate ActivationOk(k: Checks, c: Config) {
    var times := NamesAt(c, "agent_quota", "schedules");
    SchedulesOk(times) && SettingsOk(k, c) && (FlagAt(c, "agent_quota", "enabled") ==> times != [])
  }

  /** The activation rules that do not concern the times. */
  predicate SettingsOk(k: Checks, c: Config) {
    var model := TextAt(c, "agent_quota", "model");
    FlagAt(c, "agent_quota", "enabled") ==>
      && IsHub(c) && TextAt(c, "agent_quota", "provider") == "glm"
      && k.activationUrl(Trim(TextAt(c, "agent_quota", "endpoint")))
      && Trim(model) != "" && Bytes(model) <= 128
  }

  /** All the rules about sections other than the activation's. */
  predicate SectionsOk(k: Checks, c: Config) {
    && CoreOk(k, c) && DisplayOk(c) && NodeRoleOk(k, c) && MultiHostOk(k, c) && RegistryOk(c)
    && UplinkOk(k, c) && AdminOk(c) && OperatorOk(c)
  }

  predicate Valid(k: Checks, c: Config) {
    SectionsOk(k, c) && ActivationOk(k, c)
  }

  /** What a valid configuration says about the two roles: each has its own sections, and the hub's are empty at a node. */
  lemma RolesAreSeparate(k: Checks, c: Config)
    requires Valid(k, c)
    ensures var role := TextAt(c, "runtime", "role");
            && (role == "node" || role == "hub") && !FlagAt(c, "multi_host", "enabled")
            && (role == "node" ==>
                  && PeersAt(c) == [] && NodesAt(c) == [] && NamesAt(c, "nodes", "disabled") == []
                  && !FlagAt(c, "admin", "enabled") && !FlagAt(c, "agent_quota", "enabled") && Trim(TextAt(c, "host", "id")) != "")
            && (role == "hub" ==>
                  && !FlagAt(c, "uplink", "enabled") && TextAt(c, "uplink", "endpoint") == "" && TextAt(c, "uplink", "token") == "")
            && (FlagAt(c, "uplink", "enabled") ==> TextAt(c, "uplink", "node_id") == TextAt(c, "host", "id"))
            && (FlagAt(c, "agent_quota", "enabled") ==>
                  1 <= |NamesAt(c, "agent_quota", "schedules")| <= 12 && TextAt(c, "agent_quota", "provider") == "glm")
  {
  }

  // ---------- a valid configuration can be written ----------

  lemma ListRows(i: nat, j: nat)
    requires i < |SCHEMA| && j < |SCHEMA[i].rows|
    ensures var kind, n := SCHEMA[i].rows[j].kind, (SCHEMA[i].name, SCHEMA[i].rows[j].key);
            && (kind == PeerList ==> n == ("multi_host", "peers"))
            && (kind == NodeList ==> n == ("nodes", "registered"))
            && (kind == NameList ==> n == ("nodes", "disabled") || n == ("agent_quota", "schedules"))
  {
  }

  lemma HostIdSolid(id: string)
    requires HostIdOk(id)
    ensures Solid(id)
  {
  }

  lemma NodeCanBeWritten(n: Node)
    requires HostIdOk(n.nodeId) && DisplayNameOk(n.displayName) && AccentOk(n.accent) && TokenOk(n.token)
    ensures NodeFits(n)
  {
    HostIdSolid(n.nodeId);
  }

  lemma TimeCanBeWritten(s: string)
    requires ClockOk(Trim(s))
    ensures NameFits(s)
  {
    var t := Trim(s);
    var parts := Split(t, ':');
    JoinOfSplit(t, ':');
    assert parts[1..] == [parts[1]];
    assert t == parts[0] + [':'] + parts[1];
    AtoiCharacters(parts[0]);
    AtoiCharacters(parts[1]);
    if ',' in s {
      TrimKeeps(s, ',');
    }
  }

  lemma IdCanBeWritten(id: string)
    requires HostIdOk(id)
    ensures NameFits(id)
  {
    HostIdSolid(id);
    TrimTight(id);
  }

  /** No peer's endpoint is blank or holds the list separator. */
  predicate Separable(c: Config) {
    forall i :: 0 <= i < |PeersAt(c)| ==> EndpointFits(PeersAt(c)[i].endpoint)
  }

  lemma PeersSolid(k: Checks, c: Config)
    requires Valid(k, c)
    ensures forall p :: p in PeersAt(c) ==> Solid(p.expectedHostId)
  {
    forall p | p in PeersAt(c) ensures Solid(p.expectedHostId) {
      HostIdSolid(p.expectedHostId);
    }
  }

  lemma ListsFit(k: Checks, c: Config)
    requires Valid(k, c)
    ensures forall n :: n in NodesAt(c) ==> NodeFits(n)
    ensures forall s :: s in NamesAt(c, "nodes", "disabled") ==> NameFits(s)
    ensures forall s :: s in NamesAt(c, "agent_quota", "schedules") ==> NameFits(s)
  {
    forall n | n in NodesAt(c) ensures NodeFits(n) {
      NodeCanBeWritten(n);
    }
    var ids := NamesAt(c, "nodes", "disabled");
    forall s | s in ids ensures NameFits(s) {
      var i :| 0 <= i < |ids| && ids[i] == s;
      var j :| 0 <= j < |NodesAt(c)| && NodesAt(c)[j].nodeId == ids[i];
      IdCanBeWritten(s);
    }
    forall s | s in NamesAt(c, "agent_quota", "schedules") ensures NameFits(s) {
      TimeCanBeWritten(s);
    }
  }

  lemma ValueFits(k: Checks, c: Config, kind: Kind, n: Name)
    requires Separable(c) && Valid(k, c) && n in c && Typed(kind, c[n])
    requires kind == PeerList ==> n == ("multi_host", "peers")
    requires kind == NodeList ==> n == ("nodes", "registered")
    requires kind == NameList ==> n == ("nodes", "disabled") || n == ("agent_quota", "schedules")
    ensures Fits(kind, c[n])
  {
    ListsFit(k, c);
    PeersSolid(k, c);
  }

  lemma TypedIsReady(c: Config)
    requires WellTyped(c)
    ensures Ready(SCHEMA, c)
  {
    forall i, j | 0 <= i < |SCHEMA| && 0 <= j < |SCHEMA[i].rows|
      ensures RowReady(SCHEMA[i].name, SCHEMA[i].rows[j], c)
    {
    }
  }

  /** A valid configuration with separable peers holds no value that its separators could be mistaken in. */
  lemma ValidRecovers(k: Checks, c: Config, printable: ConfigQuote.Printable, i: nat, j: nat)
    requires Separable(c) && WellTyped(c) && Valid(k, c) && ConfigQuote.Sane(printable)
    requires i < |SCHEMA| && j < |SCHEMA[i].rows| && RowReady(SCHEMA[i].name, SCHEMA[i].rows[j], c)
    ensures RowRecovers(SCHEMA[i].name, SCHEMA[i].rows[j], c, printable)
  {
    ListRows(i, j);
    var kind, n := SCHEMA[i].rows[j].kind, (SCHEMA[i].name, SCHEMA[i].rows[j].key);
    ValueFits(k, c, kind, n);
    ValueRoundTrip(kind, c[n], printable);
  }

  // ---------- the canonical form is valid ----------

  /** `d` holds the canonical form of every value `c` writes. */
  ghost predicate Canonised(c: Config, d: Config) {
    && WellTyped(c)
    && forall i, j :: 0 <= i < |SCHEMA| && 0 <= j < |SCHEMA[i].rows| ==>
                        var n := (SCHEMA[i].name, SCHEMA[i].rows[j].key);
                        n in d && d[n] == Canon(SCHEMA[i].rows[j].kind, c[n])
  }

  lemma CanonicalIsCanonised(c: Config, base: Config)
    requires WellTyped(c) && Ready(SCHEMA, c)
    ensures Canonised(c, Canonical(SCHEMA, c, base))
  {
    SchemaWellFormed();
    forall i, j | 0 <= i < |SCHEMA| && 0 <= j < |SCHEMA[i].rows|
      ensures var n := (SCHEMA[i].name, SCHEMA[i].rows[j].key); var d := Canonical(SCHEMA, c, base);
              n in d && d[n] == Canon(SCHEMA[i].rows[j].kind, c[n])
    {
      CanonicalAt(SCHEMA, c, base, i, j);
    }
  }

  predicate RowIs(i: nat, j: nat, section: string, key: string, kind: Kind) {
    && i < |SCHEMA| && j < |SCHEMA[i].rows|
    && SCHEMA[i].name == section && SCHEMA[i].rows[j] == Row(key, kind)
  }

  /** Plain texts, numbers and flags are what they were. */
  lemma Same(c: Config, d: Config, i: nat, j: nat, section: string, key: string, kind: Kind)
    requires Canonised(c, d) && RowIs(i, j, section, key, kind) && kind in {Plain, Whole, Boolean}
    ensures TextAt(d, section, key) == TextAt(c, section, key)
    ensures NumAt(d, section, key) == NumAt(c, section, key)
    ensures FlagAt(d, section, key) == FlagAt(c, section, key)
  {
    var n := (SCHEMA[i].name, SCHEMA[i].rows[j].key);
    assert d[n] == c[n];
  }

  lemma Adjusted(c: Config, d: Config, i: nat, j: nat, section: string, key: string, kind: Kind)
    requires Canonised(c, d) && RowIs(i, j, section, key, kind) && kind in {Trimmed, Lowered}
    ensures TextAt(d, section, key)
         == if kind == Trimmed then Trim(TextAt(c, section, key)) else LowerTrim(TextAt(c, section, key))
  {
    var n := (SCHEMA[i].name, SCHEMA[i].rows[j].key);
    assert n in d && d[n] == Canon(kind, c[n]);
  }

  lemma TrimTwice(s: string)
    ensures Trim(Trim(s)) == Trim(s)
  {
    TrimIsTight(s);
    TrimTight(Trim(s));
  }

  lemma RolesUnchanged()
    ensures LowerTrim("node") == "node" && LowerTrim("hub") == "hub"
  {
  }

  lemma ProviderUnchanged()
    ensures LowerTrim("glm") == "glm"
  {
  }

  lemma LevelsUnchanged()
    ensures LowerTrim("info") == "info" && LowerTrim("warn") == "warn" && LowerTrim("error") == "error"
  {
  }

  lemma RoleStays(c: Config, d: Config)
    requires Canonised(c, d) && TextAt(c, "runtime", "role") in {"node", "hub"}
    ensures TextAt(d, "runtime", "role") == TextAt(c, "runtime", "role")
  {
    Adjusted(c, d, 0, 0, "runtime", "role", Lowered);
    RolesUnchanged();
  }

  lemma CoreStays(k: Checks, c: Config, d: Config)
    requires Canonised(c, d) && CoreOk(k, c)
    ensures CoreOk(k, d) && IsHub(d) == IsHub(c)
  {
    RoleStays(c, d);
    Same(c, d, 1, 0, "server", "host", Plain);
    Same(c, d, 1, 1, "server", "port", Whole);
    Adjusted(c, d, 1, 2, "server", "timezone", Trimmed);
    TrimTwice(TextAt(c, "server", "timezone"));
  }

  lemma PathsStay(c: Config, d: Config)
    requires Canonised(c, d)
    ensures TextAt(d, "display", "pad_path") == TextAt(c, "display", "pad_path")
    ensures TextAt(d, "display", "kindle_right_path") == TextAt(c, "display", "kindle_right_path")
    ensures TextAt(d, "display", "kindle_left_path") == TextAt(c, "display", "kindle_left_path")
  {
    Same(c, d, 3, 4, "display", "pad_path", Plain);
    Same(c, d, 3, 5, "display", "kindle_right_path", Plain);
    Same(c, d, 3, 6, "display", "kindle_left_path", Plain);
  }

  lemma DisplayStays(c: Config, d: Config)
    requires Canonised(c, d) && DisplayOk(c)
    ensures DisplayOk(d)
  {
    PathsStay(c, d);
    Same(c, d, 3, 0, "display", "dashboard_refresh_seconds", Whole);
  }

  lemma TimingStays(c: Config, d: Config)
    requires Canonised(c, d)
    ensures NumAt(d, "display", "kindle_refresh_seconds") == NumAt(c, "display", "kindle_refresh_seconds")
    ensures NumAt(d, "display", "complete_high_visibility_seconds") == NumAt(c, "display", "complete_high_visibility_seconds")
    ensures NumAt(d, "display", "complete_retention_seconds") == NumAt(c, "display", "complete_retention_seconds")
  {
    Same(c, d, 3, 1, "display", "kindle_refresh_seconds", Whole);
    Same(c, d, 3, 2, "display", "complete_high_visibility_seconds", Whole);
    Same(c, d, 3, 3, "display", "complete_retention_seconds", Whole);
  }

  lemma ProbeStays(c: Config, d: Config)
    requires Canonised(c, d)
    ensures NumAt(d, "agent", "stale_after_seconds") == NumAt(c, "agent", "stale_after_seconds")
    ensures TextAt(d, "network", "probe_address") == TextAt(c, "network", "probe_address")
    ensures NumAt(d, "network", "probe_timeout_milliseconds") == NumAt(c, "network", "probe_timeout_milliseconds")
  {
    Same(c, d, 4, 0, "agent", "stale_after_seconds", Whole);
    Same(c, d, 5, 0, "network", "probe_address", Plain);
    Same(c, d, 5, 1, "network", "probe_timeout_milliseconds", Whole);
  }

  lemma NodeRoleStays(k: Checks, c: Config, d: Config)
    requires Canonised(c, d) && NodeRoleOk(k, c) && IsHub(d) == IsHub(c)
    ensures NodeRoleOk(k, d)
  {
    Same(c, d, 2, 0, "host", "id", Plain);
    TimingStays(c, d);
    ProbeStays(c, d);
  }

  lemma PeersStay(k: Checks, peers: seq<Peer>)
    requires PeersOk(k, peers)
    ensures PeersOk(k, Mapped(peers, CanonPeer))
  {
    var out := Mapped(peers, CanonPeer);
    forall i | 0 <= i < |peers|
      ensures Trim(out[i].endpoint) == Trim(peers[i].endpoint) && out[i].expectedHostId == peers[i].expectedHostId
    {
      TrimTwice(peers[i].endpoint);
    }
  }

  lemma MultiHostStays(k: Checks, c: Config, d: Config)
    requires Canonised(c, d) && MultiHostOk(k, c) && IsHub(d) == IsHub(c)
    ensures MultiHostOk(k, d)
  {
    Same(c, d, 6, 0, "multi_host", "enabled", Boolean);
    var n := (SCHEMA[6].name, SCHEMA[6].rows[1].key);
    assert n == ("multi_host", "peers") && n in c && n in d && d[n] == Canon(PeerList, c[n]);
    PeersStay(k, PeersAt(c));
  }

  lemma {:induction false} BytesOfPart(s: string, from: nat, to: nat)
    requires from <= to <= |s|
    ensures Bytes(s[from..to]) <= Bytes(s)
    decreases |s|
  {
    if from > 0 {
      BytesOfPart(s[1..], from - 1, to - 1);
      assert s[1..][from - 1..to - 1] == s[from..to];
    } else if to > 0 {
      BytesOfPart(s[1..], 0, to - 1);
      assert s[..to][1..] == s[1..][..to - 1];
      assert s[from..to] == s[..to] && s[1..][0..to - 1] == s[1..][..to - 1];
    }
  }

  lemma NameStays(s: string)
    requires DisplayNameOk(s)
    ensures DisplayNameOk(Trim(s))
  {
    TrimLeftStart(s);
    var t := TrimLeft(s);
    TrimRightTight(t);
    var from := |s| - |t|;
    assert Trim(s) == s[from..from + |Trim(s)|];
    BytesOfPart(s, from, from + |Trim(s)|);
  }

  lemma NodesStay(nodes: seq<Node>)
    requires NodesOk(nodes)
    ensures NodesOk(Mapped(nodes, CanonNode))
  {
    var out := Mapped(nodes, CanonNode);
    forall i | 0 <= i < |nodes|
      ensures out[i].nodeId == nodes[i].nodeId && out[i].token == nodes[i].token
      ensures DisplayNameOk(out[i].displayName) && AccentOk(out[i].accent)
    {
      NameStays(nodes[i].displayName);
      LowerTrimStable(nodes[i].accent);
    }
  }

  lemma DisabledStay(nodes: seq<Node>, ids: seq<string>)
    requires NodesOk(nodes) && DisabledOk(nodes, ids)
    ensures TrimAll(ids) == ids && DisabledOk(Mapped(nodes, CanonNode), ids)
  {
    var out := Mapped(nodes, CanonNode);
    forall i | 0 <= i < |ids| ensures Trim(ids[i]) == ids[i] && Registered(out, ids[i]) {
      var j :| 0 <= j < |nodes| && nodes[j].nodeId == ids[i];
      HostIdSolid(ids[i]);
      TrimTight(ids[i]);
      assert out[j] == CanonNode(nodes[j]);
    }
  }

  lemma RegistryStays(c: Config, d: Config)
    requires Canonised(c, d) && RegistryOk(c) && IsHub(d) == IsHub(c)
    ensures RegistryOk(d)
  {
    var n, m := (SCHEMA[7].name, SCHEMA[7].rows[0].key), (SCHEMA[7].name, SCHEMA[7].rows[1].key);
    assert n == ("nodes", "registered") && n in c && n in d && d[n] == Canon(NodeList, c[n]);
    assert m == ("nodes", "disabled") && m in c && m in d && d[m] == Canon(NameList, c[m]);
    NodesStay(NodesAt(c));
    DisabledStay(NodesAt(c), NamesAt(c, "nodes", "disabled"));
  }

  lemma UplinkStays(k: Checks, c: Config, d: Config)
    requires Canonised(c, d) && UplinkOk(k, c) && IsHub(d) == IsHub(c)
    ensures UplinkOk(k, d)
  {
    Same(c, d, 2, 0, "host", "id", Plain);
    Same(c, d, 8, 0, "uplink", "enabled", Boolean);
    Same(c, d, 8, 1, "uplink", "endpoint", Plain);
    Same(c, d, 8, 2, "uplink", "node_id", Plain);
    Same(c, d, 8, 3, "uplink", "token", Plain);
  }

  lemma ConsoleStays(c: Config, d: Config)
    requires Canonised(c, d) && AdminOk(c) && OperatorOk(c) && IsHub(d) == IsHub(c)
    ensures AdminOk(d) && OperatorOk(d)
  {
    Same(c, d, 9, 0, "admin", "enabled", Boolean);
    Same(c, d, 9, 1, "admin", "token_file", Plain);
    Same(c, d, 9, 2, "admin", "password_file", Plain);
    Same(c, d, 10, 0, "operator", "console_refresh_seconds", Whole);
    Adjusted(c, d, 10, 1, "operator", "diagnostics_min_level", Lowered);
    LevelsUnchanged();
    Same(c, d, 10, 2, "operator", "diagnostics_capacity", Whole);
  }

  lemma SchedulesStay(times: seq<string>)
    requires SchedulesOk(times)
    ensures SchedulesOk(TrimAll(times))
  {
    forall i | 0 <= i < |times| ensures Trim(TrimAll(times)[i]) == Trim(times[i]) {
      TrimTwice(times[i]);
    }
  }

  lemma TimesCanonised(c: Config, d: Config)
    requires Canonised(c, d)
    ensures NamesAt(d, "agent_quota", "schedules") == TrimAll(NamesAt(c, "agent_quota", "schedules"))
  {
    var n := (SCHEMA[12].name, SCHEMA[12].rows[4].key);
    assert n == ("agent_quota", "schedules") && n in c && n in d && d[n] == Canon(NameList, c[n]);
  }

  lemma ProviderStays(c: Config, d: Config)
    requires Canonised(c, d) && TextAt(c, "agent_quota", "provider") == "glm"
    ensures TextAt(d, "agent_quota", "provider") == "glm"
  {
    Adjusted(c, d, 12, 1, "agent_quota", "provider", Lowered);
    ProviderUnchanged();
  }

  lemma ActivationTextsStay(c: Config, d: Config)
    requires Canonised(c, d)
    ensures FlagAt(d, "agent_quota", "enabled") == FlagAt(c, "agent_quota", "enabled")
    ensures TextAt(d, "agent_quota", "endpoint") == TextAt(c, "agent_quota", "endpoint")
    ensures TextAt(d, "agent_quota", "model") == TextAt(c, "agent_quota", "model")
  {
    Same(c, d, 12, 0, "agent_quota", "enabled", Boolean);
    Same(c, d, 12, 2, "agent_quota", "endpoint", Plain);
    Same(c, d, 12, 3, "agent_quota", "model", Plain);
  }

  lemma ActivationStays(k: Checks, c: Config, d: Config)
    requires Canonised(c, d) && ActivationOk(k, c) && IsHub(d) == IsHub(c)
    ensures ActivationOk(k, d)
  {
    ActivationTextsStay(c, d);
    if TextAt(c, "agent_quota", "provider") == "glm" {
      ProviderStays(c, d);
    }
    TimesCanonised(c, d);
    SchedulesStay(NamesAt(c, "agent_quota", "schedules"));
  }

  /** The canonical form of a valid configuration is valid. */
  lemma CanonicalIsValid(k: Checks, c: Config, base: Config)
    requires WellTyped(c) && Ready(SCHEMA, c) && Valid(k, c)
    ensures Valid(k, Canonical(SCHEMA, c, base)) && WellTyped(Canonical(SCHEMA, c, base))
  {
    var d := Canonical(SCHEMA, c, base);
    CanonicalIsCanonised(c, base);
    CoreStays(k, c, d);
    DisplayStays(c, d);
    NodeRoleStays(k, c, d);
    MultiHostStays(k, c, d);
    RegistryStays(c, d);
    UplinkStays(k, c, d);
    ConsoleStays(c, d);
    ActivationStays(k, c, d);
    forall i, j | 0 <= i < |SCHEMA| && 0 <= j < |SCHEMA[i].rows|
      ensures var n := (SCHEMA[i].name, SCHEMA[i].rows[j].key); n in d && Typed(SCHEMA[i].rows[j].kind, d[n])
    {
      CanonIdempotent(SCHEMA[i].rows[j].kind, c[(SCHEMA[i].name, SCHEMA[i].rows[j].key)]);
    }
  }

  // ---------- the legacy interval ----------

  function TwoDigits(n: nat): string
    requires n < 100
  {
    [DigitOf(n / 10), DigitOf(n % 10)]
  }

  function Clock(hour: nat, minute: nat): string
    requires hour < 24 && minute < 60
  {
    TwoDigits(hour) + [':'] + TwoDigits(minute)
  }

  /** Every `interval` hours from `hour` until midnight. */
  function SlotHours(hour: nat, interval: nat): (hours: seq<nat>)
    requires interval > 0
    ensures forall i :: 0 <= i < |hours| ==> hour <= hours[i] < 24
    ensures forall i, j :: 0 <= i < j < |hours| ==> hours[i] < hours[j]
    decreases 24 - hour
  {
    if hour >= 24 then [] else [hour] + SlotHours(hour + interval, interval)
  }

  function Slots(hour: nat, minute: nat, interval: nat): seq<string>
    requires minute < 60 && interval > 0
  {
    var hours := SlotHours(hour, interval);
    seq(|hours|, i requires 0 <= i < |hours| => Clock(hours[i], minute))
  }

  /** A clock time written with digits only. */
  predicate StrictClock(s: string) {
    ClockOk(s) && forall i :: 0 <= i < |s| ==> s[i] != '+' && s[i] != '-'
  }

  /** First-generation settings become explicit slots, once, when no slots are given. */
  function Migrated(c: Config): Config {
    var start, interval := TextAt(c, "agent_quota", "start_at"), NumAt(c, "agent_quota", "interval_hours");
    if NamesAt(c, "agent_quota", "schedules") != [] || Trim(start) == "" || interval < 1 || interval > 24
       || !StrictClock(start) then c
    else
      var parts := Split(start, ':');
      c[("agent_quota", "schedules") := Names(Slots(Atoi(parts[0]).value, Atoi(parts[1]).value, interval))]
  }

  lemma TwoDigitsNumber(n: nat)
    requires n < 100
    ensures Atoi(TwoDigits(n)) == Some(n)
  {
    var s := TwoDigits(n);
    assert AllDigits(s);
    assert s[..1] == [DigitOf(n / 10)] && s[..1][..0] == "";
    assert Number(s[..1]) == n / 10;
  }

  lemma ClockIsClock(hour: nat, minute: nat)
    requires hour < 24 && minute < 60
    ensures var s := Clock(hour, minute); ClockOk(Trim(s)) && Trim(s) == s && s[..2] == TwoDigits(hour)
  {
    var h, m := TwoDigits(hour), TwoDigits(minute);
    var s := Clock(hour, minute);
    SplitFirst(h, ':', m);
    SplitPlain(m, ':');
    TwoDigitsNumber(hour);
    TwoDigitsNumber(minute);
    TrimTight(s);
  }

  lemma {:induction false} SlotCount(hour: nat, interval: nat, n: nat)
    requires interval > 0
    ensures |SlotHours(hour, interval)| > n <==> hour + n * interval < 24
    decreases n
  {
    if hour < 24 && n > 0 {
      SlotCount(hour + interval, interval, n - 1);
      assert hour + interval + (n - 1) * interval == hour + n * interval;
    }
  }

  lemma ClocksApart(a: nat, b: nat, minute: nat)
    requires a < 24 && b < 24 && minute < 60 && a != b
    ensures Trim(Clock(a, minute)) != Trim(Clock(b, minute))
  {
    ClockIsClock(a, minute);
    ClockIsClock(b, minute);
    TwoDigitsNumber(a);
    TwoDigitsNumber(b);
  }

  /** Migration yields acceptable slots exactly when twelve intervals reach past midnight. */
  lemma MigrationAcceptedIff(hour: nat, minute: nat, interval: nat)
    requires minute < 60 && interval > 0
    ensures SchedulesOk(Slots(hour, minute, interval)) <==> hour + 12 * interval >= 24
  {
    var hours := SlotHours(hour, interval);
    var slots := Slots(hour, minute, interval);
    SlotCount(hour, interval, 12);
    forall i | 0 <= i < |slots| ensures ClockOk(Trim(slots[i])) {
      ClockIsClock(hours[i], minute);
    }
    forall i, j | 0 <= i < j < |slots| ensures Trim(slots[i]) != Trim(slots[j]) {
      ClocksApart(hours[i], hours[j], minute);
    }
  }
}
