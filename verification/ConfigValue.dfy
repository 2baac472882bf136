/** The values a configuration key can hold, how each is written, and how it is read back. */
module ConfigValue {
  import opened Basics
  import opened ConfigText
  import opened ConfigQuote

  datatype Peer = Peer(expectedHostId: string, endpoint: string)

  datatype Node = Node(nodeId: string, displayName: string, token: string, accent: string)

  datatype Value =
    | Text(text: string)
    | Num(n: int)
    | Flag(b: bool)
    | Peers(peers: seq<Peer>)
    | Nodes(nodes: seq<Node>)
    | Names(names: seq<string>)

  /** What the loader does with a key: some texts are trimmed or lower-cased on the way in. */
  datatype Kind = Plain | Trimmed | Lowered | Whole | Boolean | PeerList | NodeList | NameList

  predicate Typed(kind: Kind, v: Value) {
    match kind
    case Plain => v.Text?
    case Trimmed => v.Text?
    case Lowered => v.Text?
    case Whole => v.Num? && MIN_INT <= v.n <= MAX_INT
    case Boolean => v.Flag?
    case PeerList => v.Peers?
    case NodeList => v.Nodes?
    case NameList => v.Names?
  }

  // ---------- writing ----------

  function PeerEntry(p: Peer): string {
    p.expectedHostId + ['='] + p.endpoint
  }

  function NodeEntry(n: Node): string {
    n.nodeId + ['='] + n.displayName + ['='] + n.token
    + if Trim(n.accent) != "" then ['='] + LowerTrim(n.accent) else ""
  }

  function Mapped<T, U>(s: seq<T>, f: T -> U): (r: seq<U>)
    ensures |r| == |s| && forall i :: 0 <= i < |s| ==> r[i] == f(s[i])
  {
    seq(|s|, i requires 0 <= i < |s| => f(s[i]))
  }

  function Listed(entries: seq<string>): string {
    if entries == [] then "" else Join(entries, ',')
  }

  function Written(kind: Kind, v: Value, printable: Printable): string
    requires Typed(kind, v)
  {
    match v
    case Text(s) => Quote(s, printable)
    case Num(n) => Itoa(n)
    case Flag(b) => FormatBool(b)
    case Peers(peers) => Quote(Listed(Mapped(peers, PeerEntry)), printable)
    case Nodes(nodes) => Quote(Listed(Mapped(nodes, NodeEntry)), printable)
    case Names(names) => Quote(Listed(names), printable)
  }

  // ---------- reading ----------

  /** A value as it stands on its line: quoted either way, or bare. */
  function Unwrapped(v: string): Option<string> {
    if |v| >= 2 && v[0] == '"' && v[|v| - 1] == '"' then Unquote(v)
    else if |v| >= 2 && v[0] == '\'' && v[|v| - 1] == '\'' then Some(v[1..|v| - 1])
    else Some(v)
  }

  function All<T>(parts: seq<string>, f: string -> Option<T>): Option<seq<T>> {
    if parts == [] then Some([])
    else
      var first, rest := f(parts[0]), All(parts[1..], f);
      if first.None? || rest.None? then None else Some([first.value] + rest.value)
  }

  function ParseList<T>(text: string, entry: string -> Option<T>): Option<seq<T>> {
    if Trim(text) == "" then Some([]) else All(TrimAll(Split(Trim(text), ',')), entry)
  }

  function ParsePeer(part: string): Option<Peer> {
    var i := IndexOf(part, '=');
    if i == |part| || Trim(part[..i]) == "" || Trim(part[i + 1..]) == "" then None
    else Some(Peer(Trim(part[..i]), Trim(part[i + 1..])))
  }

  function ParseNode(part: string): Option<Node> {
    var f := Split(part, '=');
    if |f| != 3 && |f| != 4 then None
    else
      var n := Node(Trim(f[0]), Trim(f[1]), f[2], if |f| == 4 then Trim(f[3]) else "");
      if n.nodeId == "" || n.token == "" then None else Some(n)
  }

  function ParseName(part: string): Option<string> {
    if part == "" then None else Some(part)
  }

  function Parse(kind: Kind, text: string): Option<Value> {
    match kind
    case Plain => Some(Text(text))
    case Trimmed => Some(Text(Trim(text)))
    case Lowered => Some(Text(LowerTrim(text)))
    case Whole => var n := Atoi(text); if n.Some? then Some(Num(n.value)) else None
    case Boolean => var b := ParseBool(text); if b.Some? then Some(Flag(b.value)) else None
    case PeerList => var l := ParseList(text, ParsePeer); if l.Some? then Some(Peers(l.value)) else None
    case NodeList => var l := ParseList(text, ParseNode); if l.Some? then Some(Nodes(l.value)) else None
    case NameList => var l := ParseList(text, ParseName); if l.Some? then Some(Names(l.value)) else None
  }

  // ---------- canonical form ----------

  function CanonPeer(p: Peer): Peer {
    p.(endpoint := Trim(p.endpoint))
  }

  function CanonNode(n: Node): Node {
    n.(displayName := Trim(n.displayName), accent := LowerTrim(n.accent))
  }

  function Canon(kind: Kind, v: Value): Value
    requires Typed(kind, v)
  {
    match kind
    case Trimmed => Text(Trim(v.text))
    case Lowered => Text(LowerTrim(v.text))
    case PeerList => Peers(Mapped(v.peers, CanonPeer))
    case NodeList => Nodes(Mapped(v.nodes, CanonNode))
    case NameList => Names(TrimAll(v.names))
    case _ => v
  }

  /** Canonicalising twice changes nothing more. */
  lemma CanonIdempotent(kind: Kind, v: Value)
    requires Typed(kind, v)
    ensures Typed(kind, Canon(kind, v)) && Canon(kind, Canon(kind, v)) == Canon(kind, v)
  {
    forall s ensures Trim(Trim(s)) == Trim(s) {
      TrimIsTight(s);
      TrimTight(Trim(s));
    }
    forall s ensures LowerTrim(LowerTrim(s)) == LowerTrim(s) {
      LowerTrimStable(s);
    }
    match kind
    case PeerList =>
      var once := Mapped(v.peers, CanonPeer);
      assert Mapped(once, CanonPeer) == once;
    case NodeList =>
      var once := Mapped(v.nodes, CanonNode);
      assert Mapped(once, CanonNode) == once;
    case NameList =>
      assert TrimAll(TrimAll(v.names)) == TrimAll(v.names);
    case _ =>
  }

  // ---------- what survives the separators ----------

  predicate Free(s: string) {
    ',' !in s && '=' !in s
  }

  predicate Solid(s: string) {
    s != "" && Tight(s) && Free(s)
  }

  /** An equals sign is harmless: an entry is cut at its first one, and that ends the host id. */
  predicate EndpointFits(s: string) {
    ',' !in s && Trim(s) != ""
  }

  predicate PeerFits(p: Peer) {
    Solid(p.expectedHostId) && EndpointFits(p.endpoint)
  }

  predicate NodeFits(n: Node) {
    Solid(n.nodeId) && Free(n.displayName) && Solid(n.token) && Free(LowerTrim(n.accent))
  }

  predicate NameFits(s: string) {
    ',' !in s && Trim(s) != ""
  }

  /** The value can be written without its separators being taken for structure. */
  predicate Fits(kind: Kind, v: Value) {
    && Typed(kind, v)
    && match v
       case Peers(peers) => forall p :: p in peers ==> PeerFits(p)
       case Nodes(nodes) => forall n :: n in nodes ==> NodeFits(n)
       case Names(names) => forall s :: s in names ==> NameFits(s)
       case _ => true
  }

  lemma {:induction false} AllSucceed<T>(parts: seq<string>, f: string -> Option<T>, vals: seq<T>)
    requires |parts| == |vals| && forall i :: 0 <= i < |parts| ==> f(parts[i]) == Some(vals[i])
    ensures All(parts, f) == Some(vals)
  {
    if parts != [] {
      AllSucceed(parts[1..], f, vals[1..]);
      assert vals == [vals[0]] + vals[1..];
    }
  }

  lemma ListRoundTrip<T>(entries: seq<string>, f: string -> Option<T>, vals: seq<T>)
    requires |entries| == |vals|
    requires forall i :: 0 <= i < |entries| ==>
               ',' !in entries[i] && Trim(entries[i]) != "" && f(Trim(entries[i])) == Some(vals[i])
    ensures ParseList(Listed(entries), f) == Some(vals)
  {
    if entries != [] {
      var text := Listed(entries);
      SplitOfJoin(entries, ',');
      SplitTrim(text, ',');
      var parts := TrimAll(Split(Trim(text), ','));
      assert parts == TrimAll(entries);
      assert parts[0] == Trim(entries[0]);
      if Trim(text) == "" {
        NothingInside();
      }
      AllSucceed(parts, f, vals);
    }
  }

  lemma NothingInside()
    ensures TrimAll(Split("", ','))[0] == ""
  {
  }

  lemma PeerRoundTrip(p: Peer)
    requires PeerFits(p)
    ensures var e := Trim(PeerEntry(p)); e != "" && ParsePeer(e) == Some(CanonPeer(p))
    ensures ',' !in PeerEntry(p)
  {
    var id, right := p.expectedHostId, TrimRight(p.endpoint);
    var e := id + ['='] + right;
    assert PeerEntry(p) == (id + ['=']) + p.endpoint;
    TrimRightBehind(id + ['='], p.endpoint);
    assert Trim(PeerEntry(p)) == e;
    IndexAfter(id, '=', right);
    assert e[..|id|] == id && e[|id| + 1..] == right;
    TrimTight(id);
    TrimOfTrimRight(p.endpoint);
  }

  lemma NodeFields(n: Node)
    requires NodeFits(n)
    ensures Split(NodeEntry(n), '=')
         == [n.nodeId, n.displayName, n.token] + if Trim(n.accent) != "" then [LowerTrim(n.accent)] else []
  {
    var accent := LowerTrim(n.accent);
    var tail := if Trim(n.accent) != "" then ['='] + accent else "";
    var rest := n.token + tail;
    assert NodeEntry(n) == n.nodeId + ['='] + (n.displayName + ['='] + rest);
    SplitFirst(n.nodeId, '=', n.displayName + ['='] + rest);
    SplitFirst(n.displayName, '=', rest);
    if Trim(n.accent) != "" {
      assert rest == n.token + ['='] + accent;
      SplitFirst(n.token, '=', accent);
      SplitPlain(accent, '=');
    } else {
      assert rest == n.token;
      SplitPlain(n.token, '=');
    }
  }

  lemma NodeRoundTrip(n: Node)
    requires NodeFits(n)
    ensures var e := Trim(NodeEntry(n)); e != "" && ParseNode(e) == Some(CanonNode(n))
    ensures ',' !in NodeEntry(n)
  {
    var e := NodeEntry(n);
    LowerTrimStable(n.accent);
    assert e[0] == n.nodeId[0];
    assert e[|e| - 1] == if Trim(n.accent) != "" then LowerTrim(n.accent)[|LowerTrim(n.accent)| - 1] else n.token[|n.token| - 1];
    TrimTight(e);
    NodeFields(n);
    TrimTight(n.nodeId);
    TrimTight(LowerTrim(n.accent));
    if Trim(n.accent) == "" {
      assert LowerTrim(n.accent) == "";
    }
  }

  lemma UnwrapQuoted(s: string, printable: Printable)
    requires ConfigQuote.Sane(printable)
    ensures Unwrapped(Quote(s, printable)) == Some(s)
  {
    UnquoteOfQuote(s, printable);
  }

  lemma NumberAndFlagRoundTrip(kind: Kind, v: Value, printable: Printable)
    requires kind in {Whole, Boolean} && Typed(kind, v)
    ensures Unwrapped(Written(kind, v, printable)) == Some(Written(kind, v, printable))
    ensures Parse(kind, Written(kind, v, printable)) == Some(v)
  {
    if kind == Whole {
      AtoiOfItoa(v.n);
      assert Itoa(v.n)[0] in Itoa(v.n);
    }
  }

  /** What is read back from a written value. */
  function Reread(kind: Kind, v: Value, printable: Printable): Option<Value>
    requires Typed(kind, v)
  {
    var t := Unwrapped(Written(kind, v, printable));
    if t.None? then None else Parse(kind, t.value)
  }

  lemma WrittenUnwraps(kind: Kind, v: Value, printable: Printable)
    requires ConfigQuote.Sane(printable) && Typed(kind, v)
    ensures Unwrapped(Written(kind, v, printable)).Some?
  {
    match v
    case Num(_) => NumberAndFlagRoundTrip(kind, v, printable);
    case Flag(_) => NumberAndFlagRoundTrip(kind, v, printable);
    case Text(s) => UnwrapQuoted(s, printable);
    case Peers(peers) => UnwrapQuoted(Listed(Mapped(peers, PeerEntry)), printable);
    case Nodes(nodes) => UnwrapQuoted(Listed(Mapped(nodes, NodeEntry)), printable);
    case Names(names) => UnwrapQuoted(Listed(names), printable);
  }

  /** What is read back from a written value is its canonical form. */
  lemma ValueRoundTrip(kind: Kind, v: Value, printable: Printable)
    requires ConfigQuote.Sane(printable) && Fits(kind, v)
    ensures Reread(kind, v, printable) == Some(Canon(kind, v))
  {
    match v
    case Text(s) => UnwrapQuoted(s, printable);
    case Num(_) => NumberAndFlagRoundTrip(kind, v, printable);
    case Flag(_) => NumberAndFlagRoundTrip(kind, v, printable);
    case Peers(peers) =>
      UnwrapQuoted(Listed(Mapped(peers, PeerEntry)), printable);
      forall i | 0 <= i < |peers|
        ensures var e := PeerEntry(peers[i]); ',' !in e && Trim(e) != "" && ParsePeer(Trim(e)) == Some(CanonPeer(peers[i]))
      {
        PeerRoundTrip(peers[i]);
      }
      ListRoundTrip(Mapped(peers, PeerEntry), ParsePeer, Mapped(peers, CanonPeer));
    case Nodes(nodes) =>
      UnwrapQuoted(Listed(Mapped(nodes, NodeEntry)), printable);
      forall i | 0 <= i < |nodes|
        ensures var e := NodeEntry(nodes[i]); ',' !in e && Trim(e) != "" && ParseNode(Trim(e)) == Some(CanonNode(nodes[i]))
      {
        NodeRoundTrip(nodes[i]);
      }
      ListRoundTrip(Mapped(nodes, NodeEntry), ParseNode, Mapped(nodes, CanonNode));
    case Names(names) =>
      UnwrapQuoted(Listed(names), printable);
      forall i | 0 <= i < |names| ensures NameFits(names[i]) && ParseName(Trim(names[i])) == Some(TrimAll(names)[i]) {
        assert names[i] in names;
      }
      ListRoundTrip(names, ParseName, TrimAll(names));
  }

  // ---------- when a list of peers does not come back ----------

  lemma {:induction false} AllCounts<T>(parts: seq<string>, f: string -> Option<T>)
    ensures All(parts, f).Some? ==> |All(parts, f).value| == |parts|
    ensures (exists p :: p in parts && f(p).None?) ==> All(parts, f).None?
  {
    if parts != [] {
      AllCounts(parts[1..], f);
      assert parts == [parts[0]] + parts[1..];
    }
  }

  lemma BlankEndpointFails(p: Peer)
    requires Solid(p.expectedHostId) && Trim(p.endpoint) == ""
    ensures ParsePeer(Trim(PeerEntry(p))).None?
  {
    var id, right := p.expectedHostId, TrimRight(p.endpoint);
    assert PeerEntry(p) == (id + ['=']) + p.endpoint;
    TrimRightBehind(id + ['='], p.endpoint);
    var e := id + ['='] + right;
    assert Trim(PeerEntry(p)) == e;
    IndexAfter(id, '=', right);
    assert e[|id| + 1..] == right;
    TrimOfTrimRight(p.endpoint);
  }

  /** A list that parses has as many entries as its text has parts; blank text has none. */
  lemma ListCounts<T>(text: string, f: string -> Option<T>)
    ensures ParseList(text, f).Some? ==> |ParseList(text, f).value| == if Trim(text) == "" then 0 else |Split(text, ',')|
  {
    SplitTrim(text, ',');
    var parts := TrimAll(Split(Trim(text), ','));
    assert |parts| == |TrimAll(Split(text, ','))|;
    AllCounts(parts, f);
  }

  lemma CommaLosesPeers(peers: seq<Peer>, at: nat)
    requires at < |peers| && ',' in peers[at].endpoint
    ensures var r := ParseList(Listed(Mapped(peers, PeerEntry)), ParsePeer); r.None? || |r.value| != |peers|
  {
    var entries := Mapped(peers, PeerEntry);
    assert ',' in PeerEntry(peers[at]);
    assert entries[at] == PeerEntry(peers[at]) && entries[at] in entries;
    SplitCount(entries, ',');
    ListCounts(Listed(entries), ParsePeer);
  }

  lemma PartsOfClean(entries: seq<string>, at: nat)
    requires at < |entries| && Trim(entries[at]) != "" && forall e :: e in entries ==> ',' !in e
    ensures TrimAll(Split(Trim(Listed(entries)), ',')) == TrimAll(entries) && Trim(Listed(entries)) != ""
  {
    var text := Listed(entries);
    SplitOfJoin(entries, ',');
    SplitTrim(text, ',');
    if Trim(text) == "" {
      NothingInside();
    }
  }

  lemma BlankLosesPeers(peers: seq<Peer>, at: nat)
    requires at < |peers| && Trim(peers[at].endpoint) == ""
    requires forall p :: p in peers ==> Solid(p.expectedHostId) && ',' !in p.endpoint
    ensures ParseList(Listed(Mapped(peers, PeerEntry)), ParsePeer).None?
  {
    var entries := Mapped(peers, PeerEntry);
    var bad := peers[at];
    assert bad in peers;
    assert forall e :: e in entries ==> ',' !in e by {
      forall i | 0 <= i < |entries| ensures ',' !in entries[i] {
        assert peers[i] in peers;
      }
    }
    TrimKeeps(PeerEntry(bad), '=');
    PartsOfClean(entries, at);
    BlankEndpointFails(bad);
    var parts := TrimAll(entries);
    assert parts[at] == Trim(PeerEntry(bad)) && parts[at] in parts;
    AllCounts(parts, ParsePeer);
  }

  /** Peers with a comma or nothing in an endpoint read back as another number of peers, or not at all. */
  lemma PeersLost(peers: seq<Peer>, printable: Printable)
    requires ConfigQuote.Sane(printable) && forall p :: p in peers ==> Solid(p.expectedHostId)
    requires exists p :: p in peers && !EndpointFits(p.endpoint)
    ensures var r := Reread(PeerList, Peers(peers), printable); r.None? || |r.value.peers| != |peers|
  {
    var text := Listed(Mapped(peers, PeerEntry));
    UnwrapQuoted(text, printable);
    assert Reread(PeerList, Peers(peers), printable) == Parse(PeerList, text);
    PeersTextLost(peers);
  }

  lemma PeersTextLost(peers: seq<Peer>)
    requires forall p :: p in peers ==> Solid(p.expectedHostId)
    requires exists p :: p in peers && !EndpointFits(p.endpoint)
    ensures var r := ParseList(Listed(Mapped(peers, PeerEntry)), ParsePeer); r.None? || |r.value| != |peers|
  {
    var bad :| bad in peers && !EndpointFits(bad.endpoint);
    if p :| p in peers && ',' in p.endpoint {
      var i :| 0 <= i < |peers| && peers[i] == p;
      CommaLosesPeers(peers, i);
    } else {
      var i :| 0 <= i < |peers| && peers[i] == bad;
      BlankLosesPeers(peers, i);
    }
  }

  predicate Lineable(t: string) {
    t != "" && Tight(t) && '\n' !in t && t[|t| - 1] != ':'
  }

  lemma QuotedIsLineable(s: string, printable: Printable)
    requires ConfigQuote.Sane(printable)
    ensures Lineable(Quote(s, printable))
  {
    UnquoteOfQuote(s, printable);
    var q := Quote(s, printable);
    assert q[0] == '"' && q[|q| - 1] == '"';
  }

  lemma NumberIsLineable(n: int)
    requires MIN_INT <= n <= MAX_INT
    ensures Lineable(Itoa(n))
  {
    AtoiOfItoa(n);
    var t := Itoa(n);
    assert t[0] in t && t[|t| - 1] in t;
  }

  /** A written value fills the rest of one line and does not look like the start of a section. */
  lemma WrittenShape(kind: Kind, v: Value, printable: Printable)
    requires ConfigQuote.Sane(printable) && Typed(kind, v)
    ensures Lineable(Written(kind, v, printable))
  {
    match v
    case Num(n) => NumberIsLineable(n);
    case Flag(_) =>
    case Text(s) => QuotedIsLineable(s, printable);
    case Peers(peers) => QuotedIsLineable(Listed(Mapped(peers, PeerEntry)), printable);
    case Nodes(nodes) => QuotedIsLineable(Listed(Mapped(nodes, NodeEntry)), printable);
    case Names(names) => QuotedIsLineable(Listed(names), printable);
  }
}
