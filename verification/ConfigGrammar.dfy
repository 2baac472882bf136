/** The configuration file line by line: the strict loader, the renderer, and the trip from one to the other. */
module ConfigGrammar {
  import opened Basics
  import opened ConfigText
  import opened ConfigValue
  import ConfigQuote

  datatype Row = Row(key: string, kind: Kind)

  /** `retired` keys are still understood but no longer written. */
  datatype Section = Section(name: string, rows: seq<Row>, retired: seq<Row>)

  type Schema = seq<Section>

  /** A key qualified by its section. */
  type Name = (string, string)

  type Config = map<Name, Value>

  datatype Fault = NoColon | UnknownSection | NoSection | DuplicateKey | BadQuoting | UnknownKey | BadValue | Invalid

  datatype Outcome<T> = Ok(value: T) | Err(fault: Fault)

  function FindSection(schema: Schema, name: string): (i: nat)
    ensures i <= |schema| && (i < |schema| ==> schema[i].name == name)
    ensures forall k :: 0 <= k < i ==> schema[k].name != name
  {
    if schema == [] || schema[0].name == name then 0 else 1 + FindSection(schema[1..], name)
  }

  function FindRow(rows: seq<Row>, key: string): (i: nat)
    ensures i <= |rows| && (i < |rows| ==> rows[i].key == key)
    ensures forall k :: 0 <= k < i ==> rows[k].key != key
  {
    if rows == [] || rows[0].key == key then 0 else 1 + FindRow(rows[1..], key)
  }

  function AllRows(s: Section): seq<Row> {
    s.rows + s.retired
  }

  function KindOf(schema: Schema, section: string, key: string): Option<Kind> {
    var i := FindSection(schema, section);
    if i == |schema| then None
    else
      var rows := AllRows(schema[i]);
      var j := FindRow(rows, key);
      if j == |rows| then None else Some(rows[j].kind)
  }

  // ---------- loading ----------

  datatype Loader = Loader(section: string, seen: set<Name>, cfg: Config)

  function ReadLine(schema: Schema, st: Loader, line: string): Outcome<Loader> {
    var raw := Trim(line);
    if raw == "" || raw[0] == '#' then Ok(st)
    else if ':' !in raw then Err(NoColon)
    else if raw[|raw| - 1] == ':' then
      var name := raw[..|raw| - 1];
      if FindSection(schema, name) == |schema| then Err(UnknownSection) else Ok(st.(section := name))
    else
      var i := IndexOf(raw, ':');
      ReadPair(schema, st, Trim(raw[..i]), Trim(raw[i + 1..]))
  }

  function ReadPair(schema: Schema, st: Loader, key: string, value: string): Outcome<Loader> {
    var name := (st.section, key);
    if st.section == "" then Err(NoSection)
    else if name in st.seen then Err(DuplicateKey)
    else
      var text := Unwrapped(value);
      if text.None? then Err(BadQuoting)
      else
        var kind := KindOf(schema, st.section, key);
        if kind.None? then Err(UnknownKey)
        else
          var v := Parse(kind.value, text.value);
          if v.None? then Err(BadValue) else Ok(Loader(st.section, st.seen + {name}, st.cfg[name := v.value]))
  }

  function Read(schema: Schema, st: Loader, lines: seq<string>): Outcome<Loader>
    decreases |lines|
  {
    if lines == [] then Ok(st)
    else
      var next := ReadLine(schema, st, lines[0]);
      if next.Err? then next else Read(schema, next.value, lines[1..])
  }

  function Parsed(schema: Schema, base: Config, text: string): Outcome<Config> {
    var r := Read(schema, Loader("", {}, base), Split(text, '\n'));
    if r.Ok? then Ok(r.value.cfg) else Err(r.fault)
  }

  /** The loop over the lines of the file, on top of the defaults. */
  method Load(schema: Schema, base: Config, text: string) returns (r: Outcome<Config>)
    ensures r == Parsed(schema, base, text)
  {
    var st := Loader("", {}, base);
    var lines := Split(text, '\n');
    for n := 0 to |lines|
      invariant Read(schema, st, lines[n..]) == Read(schema, Loader("", {}, base), lines)
    {
      ReadHeadFirst(schema, st, lines, n);
      var next := LoadLine(schema, st, lines[n]);
      if next.Err? {
        return Err(next.fault);
      }
      st := next.value;
    }
    return Ok(st.cfg);
  }

  method LoadLine(schema: Schema, st: Loader, line: string) returns (r: Outcome<Loader>)
    ensures r == ReadLine(schema, st, line)
  {
    var raw := Trim(line);
    if raw == "" || raw[0] == '#' {
      return Ok(st);
    }
    if ':' !in raw {
      return Err(NoColon);
    }
    if raw[|raw| - 1] == ':' {
      var section := raw[..|raw| - 1];
      if FindSection(schema, section) == |schema| {
        return Err(UnknownSection);
      }
      return Ok(st.(section := section));
    }
    var i := IndexOf(raw, ':');
    var key, value := Trim(raw[..i]), Trim(raw[i + 1..]);
    if st.section == "" {
      return Err(NoSection);
    }
    if (st.section, key) in st.seen {
      return Err(DuplicateKey);
    }
    var parsed := Unwrapped(value);
    if parsed.None? {
      return Err(BadQuoting);
    }
    var kind := KindOf(schema, st.section, key);
    if kind.None? {
      return Err(UnknownKey);
    }
    var v := Parse(kind.value, parsed.value);
    if v.None? {
      return Err(BadValue);
    }
    return Ok(Loader(st.section, st.seen + {(st.section, key)}, st.cfg[(st.section, key) := v.value]));
  }

  lemma ReadHeadFirst(schema: Schema, st: Loader, lines: seq<string>, n: nat)
    requires n < |lines|
    ensures Read(schema, st, lines[n..])
         == (var next := ReadLine(schema, st, lines[n]); if next.Err? then next else Read(schema, next.value, lines[n + 1..]))
  {
    assert lines[n..][0] == lines[n] && lines[n..][1..] == lines[n + 1..];
  }

  // ---------- rendering ----------

  /** Every written key is present and holds a value of its kind. */
  predicate Ready(schema: Schema, cfg: Config) {
    forall i, j :: 0 <= i < |schema| && 0 <= j < |schema[i].rows| ==> RowReady(schema[i].name, schema[i].rows[j], cfg)
  }

  predicate RowReady(section: string, row: Row, cfg: Config) {
    (section, row.key) in cfg && Typed(row.kind, cfg[(section, row.key)])
  }

  function HeadLine(s: Section): string {
    s.name + [':']
  }

  function RowLine(section: string, row: Row, cfg: Config, printable: ConfigQuote.Printable): string
    requires RowReady(section, row, cfg)
  {
    [' ', ' '] + row.key + [':', ' '] + Written(row.kind, cfg[(section, row.key)], printable)
  }

  function RowLines(section: string, rows: seq<Row>, cfg: Config, printable: ConfigQuote.Printable): seq<string>
    requires forall j :: 0 <= j < |rows| ==> RowReady(section, rows[j], cfg)
  {
    if rows == [] then [] else [RowLine(section, rows[0], cfg, printable)] + RowLines(section, rows[1..], cfg, printable)
  }

  function Lines(schema: Schema, cfg: Config, printable: ConfigQuote.Printable): seq<string>
    requires Ready(schema, cfg)
  {
    if schema == [] then []
    else
      [HeadLine(schema[0])] + RowLines(schema[0].name, schema[0].rows, cfg, printable) + Lines(schema[1..], cfg, printable)
  }

  function Render(schema: Schema, cfg: Config, printable: ConfigQuote.Printable): string
    requires Ready(schema, cfg)
  {
    FileOf(Lines(schema, cfg, printable))
  }

  // ---------- the canonical configuration ----------

  function CanonRows(section: string, rows: seq<Row>, cfg: Config, into: Config): Config
    requires forall j :: 0 <= j < |rows| ==> RowReady(section, rows[j], cfg)
  {
    if rows == [] then into
    else
      var name := (section, rows[0].key);
      assert RowReady(section, rows[0], cfg);
      CanonRows(section, rows[1..], cfg, into[name := Canon(rows[0].kind, cfg[name])])
  }

  /** `base` with every written key set to the canonical form of its value in `cfg`. */
  function Canonical(schema: Schema, cfg: Config, base: Config): Config
    requires Ready(schema, cfg)
  {
    if schema == [] then base
    else Canonical(schema[1..], cfg, CanonRows(schema[0].name, schema[0].rows, cfg, base))
  }

  // ---------- what is read back ----------

  function RereadRows(section: string, rows: seq<Row>, cfg: Config, into: Config, printable: ConfigQuote.Printable): Option<Config>
    requires forall j :: 0 <= j < |rows| ==> RowReady(section, rows[j], cfg)
  {
    if rows == [] then Some(into)
    else
      var name := (section, rows[0].key);
      assert RowReady(section, rows[0], cfg);
      var v := Reread(rows[0].kind, cfg[name], printable);
      if v.None? then None else RereadRows(section, rows[1..], cfg, into[name := v.value], printable)
  }

  /** `base` with every written key set to what its written value reads back as, if all of them do. */
  function RereadAll(schema: Schema, cfg: Config, base: Config, printable: ConfigQuote.Printable): Option<Config>
    requires Ready(schema, cfg)
  {
    if schema == [] then Some(base)
    else
      var first := RereadRows(schema[0].name, schema[0].rows, cfg, base, printable);
      if first.None? then None else RereadAll(schema[1..], cfg, first.value, printable)
  }

  ghost predicate RowRecovers(section: string, row: Row, cfg: Config, printable: ConfigQuote.Printable)
    requires RowReady(section, row, cfg)
  {
    Reread(row.kind, cfg[(section, row.key)], printable) == Some(Canon(row.kind, cfg[(section, row.key)]))
  }

  // ---------- well-formed schemas ----------

  /** Section and key names are made of lower-case letters and underscores. */
  predicate Letter(c: char) {
    'a' <= c <= 'z' || c == '_'
  }

  predicate Word(s: string) {
    s != "" && forall i :: 0 <= i < |s| ==> Letter(s[i])
  }

  lemma WordShape(s: string)
    requires Word(s)
    ensures Tight(s) && ':' !in s && '\n' !in s && s[0] != '#'
  {
  }

  ghost predicate Worded(s: Section) {
    Word(s.name) && forall j :: 0 <= j < |s.rows| ==> Word(s.rows[j].key)
  }

  ghost predicate Unambiguous(s: Section) {
    forall j, k :: 0 <= j < k < |AllRows(s)| ==> AllRows(s)[j].key != AllRows(s)[k].key
  }

  ghost predicate SectionOk(s: Section) {
    Worded(s) && Unambiguous(s)
  }

  ghost predicate WellFormed(schema: Schema) {
    && (forall i :: 0 <= i < |schema| ==> SectionOk(schema[i]))
    && (forall i, k :: 0 <= i < k < |schema| ==> schema[i].name != schema[k].name)
  }

  // ---------- the round trip ----------

  lemma ReadHead(schema: Schema, st: Loader, i: nat)
    requires i < |schema| && Word(schema[i].name)
    ensures ReadLine(schema, st, HeadLine(schema[i])) == Ok(st.(section := schema[i].name))
    ensures '\n' !in HeadLine(schema[i])
  {
    var line := HeadLine(schema[i]);
    WordShape(schema[i].name);
    TrimTight(line);
    assert line[..|line| - 1] == schema[i].name;
    assert line[|line| - 1] == ':';
  }

  /** An indented pair, trimmed. */
  lemma PairTrims(key: string, text: string)
    requires Word(key) && text != "" && Tight(text)
    ensures Trim([' ', ' '] + key + [':', ' '] + text) == key + [':'] + ([' '] + text)
  {
    WordShape(key);
    var raw := key + [':'] + ([' '] + text);
    var line := [' '] + ([' '] + raw);
    assert [' ', ' '] + key + [':', ' '] + text == line;
    TrimDropFirst(line);
    assert line[1..] == [' '] + raw;
    TrimDropFirst([' '] + raw);
    assert ([' '] + raw)[1..] == raw;
    assert raw[0] == key[0] && raw[|raw| - 1] == text[|text| - 1];
    TrimTight(raw);
  }

  /** A trimmed pair splits at its first colon. */
  lemma PairSplits(key: string, text: string)
    requires Word(key) && text != "" && Tight(text)
    ensures var raw := key + [':'] + ([' '] + text);
            && IndexOf(raw, ':') == |key| && Trim(raw[..|key|]) == key && Trim(raw[|key| + 1..]) == text
  {
    WordShape(key);
    var rest := [' '] + text;
    var raw := key + [':'] + rest;
    IndexAfter(key, ':', rest);
    assert raw[..|key|] == key && raw[|key| + 1..] == rest;
    TrimTight(key);
    TrimDropFirst(rest);
    assert rest[1..] == text;
    TrimTight(text);
  }

  lemma RowLineUnbroken(section: string, row: Row, cfg: Config, printable: ConfigQuote.Printable)
    requires ConfigQuote.Sane(printable) && RowReady(section, row, cfg) && Word(row.key)
    ensures '\n' !in RowLine(section, row, cfg, printable)
  {
    WordShape(row.key);
    WrittenShape(row.kind, cfg[(section, row.key)], printable);
  }

  lemma ReadPairLine(schema: Schema, st: Loader, key: string, text: string)
    requires Word(key) && text != "" && Tight(text) && text[|text| - 1] != ':'
    ensures ReadLine(schema, st, [' ', ' '] + key + [':', ' '] + text) == ReadPair(schema, st, key, text)
  {
    WordShape(key);
    PairTrims(key, text);
    PairSplits(key, text);
    var raw := key + [':'] + ([' '] + text);
    assert raw[0] == key[0] && raw[|key|] == ':' && raw[|raw| - 1] == text[|text| - 1];
  }

  lemma ReadRow(schema: Schema, st: Loader, row: Row, cfg: Config, printable: ConfigQuote.Printable)
    requires ConfigQuote.Sane(printable) && RowReady(st.section, row, cfg) && Word(row.key)
    requires st.section != "" && (st.section, row.key) !in st.seen
    requires KindOf(schema, st.section, row.key) == Some(row.kind)
    ensures var name := (st.section, row.key);
            var v := Reread(row.kind, cfg[name], printable);
            ReadLine(schema, st, RowLine(st.section, row, cfg, printable))
            == if v.None? then Err(BadValue) else Ok(Loader(st.section, st.seen + {name}, st.cfg[name := v.value]))
  {
    var v := cfg[(st.section, row.key)];
    WrittenShape(row.kind, v, printable);
    ReadPairLine(schema, st, row.key, Written(row.kind, v, printable));
    WrittenUnwraps(row.kind, v, printable);
  }

  lemma KindFound(schema: Schema, i: nat, j: nat)
    requires WellFormed(schema) && i < |schema| && j < |schema[i].rows|
    ensures KindOf(schema, schema[i].name, schema[i].rows[j].key) == Some(schema[i].rows[j].kind)
  {
    var s := schema[i];
    assert FindSection(schema, s.name) == i;
    assert AllRows(s)[j] == s.rows[j];
    assert FindRow(AllRows(s), s.rows[j].key) == j;
  }

  /** The rows of one section, from row `j` on. */
  lemma {:induction false} ReadRows(schema: Schema, st: Loader, i: nat, j: nat, cfg: Config,
                                    printable: ConfigQuote.Printable) returns (end: Loader)
    requires ConfigQuote.Sane(printable) && WellFormed(schema) && Ready(schema, cfg)
    requires i < |schema| && j <= |schema[i].rows| && st.section == schema[i].name
    requires forall k :: j <= k < |schema[i].rows| ==> (st.section, schema[i].rows[k].key) !in st.seen
    ensures var c := RereadRows(st.section, schema[i].rows[j..], cfg, st.cfg, printable);
            && Read(schema, st, RowLines(st.section, schema[i].rows[j..], cfg, printable))
               == (if c.None? then Err(BadValue) else Ok(end))
            && (c.Some? ==> end.cfg == c.value)
    ensures forall n :: n in end.seen ==> n in st.seen || n.0 == st.section
    decreases |schema[i].rows| - j
  {
    end := st;
    var rows := schema[i].rows;
    if j < |rows| {
      var row, name := rows[j], (st.section, rows[j].key);
      assert rows[j..][0] == row && rows[j..][1..] == rows[j + 1..];
      KindFound(schema, i, j);
      ReadRow(schema, st, row, cfg, printable);
      var v := Reread(row.kind, cfg[name], printable);
      if v.Some? {
        var next := Loader(st.section, st.seen + {name}, st.cfg[name := v.value]);
        forall k | j + 1 <= k < |rows| ensures (st.section, rows[k].key) !in next.seen {
          KeysApart(schema, i, j, k);
        }
        end := ReadRows(schema, next, i, j + 1, cfg, printable);
      }
    }
  }

  lemma KeysApart(schema: Schema, i: nat, j: nat, k: nat)
    requires WellFormed(schema) && i < |schema| && j < k < |schema[i].rows|
    ensures schema[i].rows[j].key != schema[i].rows[k].key
  {
    var all := AllRows(schema[i]);
    assert all[j] == schema[i].rows[j] && all[k] == schema[i].rows[k];
  }

  lemma {:induction false} ReadConcat(schema: Schema, st: Loader, a: seq<string>, b: seq<string>)
    ensures var first := Read(schema, st, a);
            Read(schema, st, a + b) == if first.Err? then first else Read(schema, first.value, b)
    decreases |a|
  {
    if a == [] {
      assert a + b == b;
    } else {
      var next := ReadLine(schema, st, a[0]);
      assert (a + b)[1..] == a[1..] + b;
      if next.Ok? {
        ReadConcat(schema, next.value, a[1..], b);
      }
    }
  }

  /** The sections from number `i` on. */
  lemma {:induction false} ReadSections(schema: Schema, st: Loader, i: nat, cfg: Config,
                                        printable: ConfigQuote.Printable) returns (end: Loader)
    requires ConfigQuote.Sane(printable) && WellFormed(schema) && Ready(schema, cfg) && i <= |schema|
    requires forall n, k :: n in st.seen && i <= k < |schema| ==> n.0 != schema[k].name
    ensures var c := RereadAll(schema[i..], cfg, st.cfg, printable);
            && Read(schema, st, Lines(schema[i..], cfg, printable)) == (if c.None? then Err(BadValue) else Ok(end))
            && (c.Some? ==> end.cfg == c.value)
    decreases |schema| - i
  {
    if i == |schema| {
      return st;
    }
    var s := schema[i];
    assert schema[i..][0] == s && schema[i..][1..] == schema[i + 1..];
    ReadHead(schema, st, i);
    var inside := st.(section := s.name);
    var after := ReadRows(schema, inside, i, 0, cfg, printable);
    assert s.rows[0..] == s.rows;
    var head, rows, rest := [HeadLine(s)], RowLines(s.name, s.rows, cfg, printable), Lines(schema[i + 1..], cfg, printable);
    ReadOne(schema, st, HeadLine(s), inside);
    ReadConcat(schema, st, head, rows);
    ReadConcat(schema, st, head + rows, rest);
    if RereadRows(s.name, s.rows, cfg, st.cfg, printable).Some? {
      end := ReadSections(schema, after, i + 1, cfg, printable);
    } else {
      end := st;
    }
  }

  lemma ReadOne(schema: Schema, st: Loader, line: string, next: Loader)
    requires ReadLine(schema, st, line) == Ok(next)
    ensures Read(schema, st, [line]) == Ok(next)
  {
    assert [line][1..] == [];
  }

  lemma {:induction false} LinesUnbroken(schema: Schema, cfg: Config, printable: ConfigQuote.Printable)
    requires ConfigQuote.Sane(printable) && Ready(schema, cfg) && forall i :: 0 <= i < |schema| ==> SectionOk(schema[i])
    ensures forall l :: l in Lines(schema, cfg, printable) ==> '\n' !in l
  {
    if schema != [] {
      LinesUnbroken(schema[1..], cfg, printable);
      RowsUnbroken(schema[0].name, schema[0].rows, cfg, printable);
    }
  }

  lemma {:induction false} RowsUnbroken(section: string, rows: seq<Row>, cfg: Config, printable: ConfigQuote.Printable)
    requires ConfigQuote.Sane(printable)
    requires forall j :: 0 <= j < |rows| ==> RowReady(section, rows[j], cfg) && Word(rows[j].key)
    ensures forall l :: l in RowLines(section, rows, cfg, printable) ==> '\n' !in l
  {
    if rows != [] {
      RowLineUnbroken(section, rows[0], cfg, printable);
      RowsUnbroken(section, rows[1..], cfg, printable);
    }
  }

  /** Parsing a rendered configuration gives what its values read back as, one by one. */
  lemma RenderedRereads(schema: Schema, cfg: Config, base: Config, printable: ConfigQuote.Printable)
    requires ConfigQuote.Sane(printable) && WellFormed(schema) && Ready(schema, cfg)
    ensures var c := RereadAll(schema, cfg, base, printable);
            Parsed(schema, base, Render(schema, cfg, printable)) == if c.None? then Err(BadValue) else Ok(c.value)
  {
    var lines := Lines(schema, cfg, printable);
    LinesUnbroken(schema, cfg, printable);
    LinesOfFile(lines);
    assert schema[0..] == schema;
    var end := ReadSections(schema, Loader("", {}, base), 0, cfg, printable);
    assert ReadLine(schema, end, "") == Ok(end);
    ReadOne(schema, end, "", end);
    ReadConcat(schema, Loader("", {}, base), lines, [""]);
  }

  lemma {:induction false} RowsRecover(section: string, rows: seq<Row>, cfg: Config, into: Config, printable: ConfigQuote.Printable)
    requires forall j :: 0 <= j < |rows| ==> RowReady(section, rows[j], cfg) && RowRecovers(section, rows[j], cfg, printable)
    ensures RereadRows(section, rows, cfg, into, printable) == Some(CanonRows(section, rows, cfg, into))
  {
    if rows != [] {
      assert RowRecovers(section, rows[0], cfg, printable);
      var name := (section, rows[0].key);
      RowsRecover(section, rows[1..], cfg, into[name := Canon(rows[0].kind, cfg[name])], printable);
    }
  }

  lemma {:induction false} AllRecover(schema: Schema, cfg: Config, base: Config, printable: ConfigQuote.Printable)
    requires Ready(schema, cfg)
    requires forall i, j :: 0 <= i < |schema| && 0 <= j < |schema[i].rows| ==>
               RowRecovers(schema[i].name, schema[i].rows[j], cfg, printable)
    ensures RereadAll(schema, cfg, base, printable) == Some(Canonical(schema, cfg, base))
  {
    if schema != [] {
      var s := schema[0];
      RowsRecover(s.name, s.rows, cfg, base, printable);
      AllRecover(schema[1..], cfg, CanonRows(s.name, s.rows, cfg, base), printable);
    }
  }

  lemma {:induction false} RereadRowsAt(section: string, rows: seq<Row>, cfg: Config, into: Config,
                                        printable: ConfigQuote.Printable, n: Name)
    requires forall j :: 0 <= j < |rows| ==> RowReady(section, rows[j], cfg)
    requires forall j, k :: 0 <= j < k < |rows| ==> rows[j].key != rows[k].key
    requires RereadRows(section, rows, cfg, into, printable).Some?
    ensures var out := RereadRows(section, rows, cfg, into, printable).value;
            && (forall j :: 0 <= j < |rows| && n == (section, rows[j].key) ==>
                              n in out && Reread(rows[j].kind, cfg[n], printable) == Some(out[n]))
            && ((forall j :: 0 <= j < |rows| ==> n != (section, rows[j].key)) ==>
                  (n in out <==> n in into) && (n in into ==> out[n] == into[n]))
  {
    if rows != [] {
      var name := (section, rows[0].key);
      var tail := rows[1..];
      assert forall j :: 0 <= j < |tail| ==> tail[j] == rows[j + 1];
      assert RowReady(section, rows[0], cfg);
      RereadRowsAt(section, tail, cfg, into[name := Reread(rows[0].kind, cfg[name], printable).value], printable, n);
    }
  }

  lemma DistinctRows(schema: Schema, i: nat)
    requires WellFormed(schema) && i < |schema|
    ensures forall a, b :: 0 <= a < b < |schema[i].rows| ==> schema[i].rows[a].key != schema[i].rows[b].key
  {
    forall a, b | 0 <= a < b < |schema[i].rows| ensures schema[i].rows[a].key != schema[i].rows[b].key {
      KeysApart(schema, i, a, b);
    }
  }

  /** A written key holds what its value reads back as. */
  lemma {:induction false} RereadAt(schema: Schema, cfg: Config, base: Config, printable: ConfigQuote.Printable, i: nat, j: nat)
    requires WellFormed(schema) && Ready(schema, cfg) && i < |schema| && j < |schema[i].rows|
    requires RereadAll(schema, cfg, base, printable).Some?
    ensures var n, out := (schema[i].name, schema[i].rows[j].key), RereadAll(schema, cfg, base, printable).value;
            n in out && Reread(schema[i].rows[j].kind, cfg[n], printable) == Some(out[n])
    decreases |schema|
  {
    var s := schema[0];
    var n := (schema[i].name, schema[i].rows[j].key);
    var into := RereadRows(s.name, s.rows, cfg, base, printable).value;
    var tail := schema[1..];
    assert forall k :: 0 <= k < |tail| ==> tail[k] == schema[k + 1];
    if i > 0 {
      RereadAt(tail, cfg, into, printable, i - 1, j);
    } else {
      DistinctRows(schema, 0);
      RereadRowsAt(s.name, s.rows, cfg, base, printable, n);
      RereadElsewhere(tail, cfg, into, printable, n);
    }
  }

  /** A key that is not written keeps its default. */
  lemma {:induction false} RereadElsewhere(schema: Schema, cfg: Config, base: Config, printable: ConfigQuote.Printable, n: Name)
    requires WellFormed(schema) && Ready(schema, cfg) && RereadAll(schema, cfg, base, printable).Some?
    requires forall i, j :: 0 <= i < |schema| && 0 <= j < |schema[i].rows| ==> n != (schema[i].name, schema[i].rows[j].key)
    ensures var out := RereadAll(schema, cfg, base, printable).value;
            (n in out <==> n in base) && (n in base ==> out[n] == base[n])
    decreases |schema|
  {
    if schema != [] {
      var s := schema[0];
      var tail := schema[1..];
      assert forall k :: 0 <= k < |tail| ==> tail[k] == schema[k + 1];
      DistinctRows(schema, 0);
      RereadRowsAt(s.name, s.rows, cfg, base, printable, n);
      RereadElsewhere(tail, cfg, RereadRows(s.name, s.rows, cfg, base, printable).value, printable, n);
    }
  }

  /** For any well-formed schema: the canonical form is what comes back exactly when each value's is. */
  lemma CanonicalComesBackIff(schema: Schema, cfg: Config, base: Config, printable: ConfigQuote.Printable)
    requires ConfigQuote.Sane(printable) && WellFormed(schema) && Ready(schema, cfg)
    ensures Parsed(schema, base, Render(schema, cfg, printable)) == Ok(Canonical(schema, cfg, base))
       <==> forall i, j :: 0 <= i < |schema| && 0 <= j < |schema[i].rows| ==>
                             RowRecovers(schema[i].name, schema[i].rows[j], cfg, printable)
  {
    RenderedRereads(schema, cfg, base, printable);
    var c := RereadAll(schema, cfg, base, printable);
    if c == Some(Canonical(schema, cfg, base)) {
      forall i, j | 0 <= i < |schema| && 0 <= j < |schema[i].rows|
        ensures RowRecovers(schema[i].name, schema[i].rows[j], cfg, printable)
      {
        RereadAt(schema, cfg, base, printable, i, j);
        CanonicalAt(schema, cfg, base, i, j);
      }
    }
    if forall i, j :: 0 <= i < |schema| && 0 <= j < |schema[i].rows| ==>
                        RowRecovers(schema[i].name, schema[i].rows[j], cfg, printable) {
      AllRecover(schema, cfg, base, printable);
    }
  }

  // ---------- what the canonical form holds ----------

  lemma {:induction false} CanonRowsAt(section: string, rows: seq<Row>, cfg: Config, into: Config, n: Name)
    requires forall j :: 0 <= j < |rows| ==> RowReady(section, rows[j], cfg)
    requires forall j, k :: 0 <= j < k < |rows| ==> rows[j].key != rows[k].key
    ensures var out := CanonRows(section, rows, cfg, into);
            && (forall j :: 0 <= j < |rows| && n == (section, rows[j].key) ==>
                              n in out && out[n] == Canon(rows[j].kind, cfg[n]))
            && ((forall j :: 0 <= j < |rows| ==> n != (section, rows[j].key)) ==>
                  (n in out <==> n in into) && (n in into ==> out[n] == into[n]))
  {
    if rows != [] {
      var name := (section, rows[0].key);
      var tail := rows[1..];
      assert forall j :: 0 <= j < |tail| ==> tail[j] == rows[j + 1];
      CanonRowsAt(section, tail, cfg, into[name := Canon(rows[0].kind, cfg[name])], n);
    }
  }

  /** A written key holds the canonical form of its value. */
  lemma {:induction false} CanonicalAt(schema: Schema, cfg: Config, base: Config, i: nat, j: nat)
    requires WellFormed(schema) && Ready(schema, cfg) && i < |schema| && j < |schema[i].rows|
    ensures var n := (schema[i].name, schema[i].rows[j].key);
            n in Canonical(schema, cfg, base) && Canonical(schema, cfg, base)[n] == Canon(schema[i].rows[j].kind, cfg[n])
    decreases |schema|
  {
    var s := schema[0];
    var n := (schema[i].name, schema[i].rows[j].key);
    var into := CanonRows(s.name, s.rows, cfg, base);
    var tail := schema[1..];
    assert forall k :: 0 <= k < |tail| ==> tail[k] == schema[k + 1];
    if i > 0 {
      CanonicalAt(tail, cfg, into, i - 1, j);
    } else {
      DistinctRows(schema, 0);
      CanonRowsAt(s.name, s.rows, cfg, base, n);
      CanonicalElsewhere(tail, cfg, into, n);
    }
  }

  /** A key that is not written keeps its default. */
  lemma {:induction false} CanonicalElsewhere(schema: Schema, cfg: Config, base: Config, n: Name)
    requires WellFormed(schema) && Ready(schema, cfg)
    requires forall i, j :: 0 <= i < |schema| && 0 <= j < |schema[i].rows| ==> n != (schema[i].name, schema[i].rows[j].key)
    ensures var out := Canonical(schema, cfg, base); (n in out <==> n in base) && (n in base ==> out[n] == base[n])
    decreases |schema|
  {
    if schema != [] {
      var s := schema[0];
      var tail := schema[1..];
      assert forall k :: 0 <= k < |tail| ==> tail[k] == schema[k + 1];
      DistinctRows(schema, 0);
      CanonRowsAt(s.name, s.rows, cfg, base, n);
      CanonicalElsewhere(tail, cfg, CanonRows(s.name, s.rows, cfg, base), n);
    }
  }

  lemma CanonicalTwiceAt(schema: Schema, cfg: Config, base: Config, n: Name)
    requires WellFormed(schema) && Ready(schema, cfg) && Ready(schema, Canonical(schema, cfg, base))
    ensures var once := Canonical(schema, cfg, base);
            var twice := Canonical(schema, once, base);
            (n in twice <==> n in once) && (n in once ==> twice[n] == once[n])
  {
    var once := Canonical(schema, cfg, base);
    if i, j :| 0 <= i < |schema| && 0 <= j < |schema[i].rows| && n == (schema[i].name, schema[i].rows[j].key) {
      CanonicalAt(schema, cfg, base, i, j);
      CanonicalAt(schema, once, base, i, j);
      assert RowReady(schema[i].name, schema[i].rows[j], cfg);
      CanonIdempotent(schema[i].rows[j].kind, cfg[n]);
    } else {
      CanonicalElsewhere(schema, cfg, base, n);
      CanonicalElsewhere(schema, once, base, n);
    }
  }

  /** Canonicalising a canonical configuration changes nothing. */
  lemma CanonicalTwice(schema: Schema, cfg: Config, base: Config)
    requires WellFormed(schema) && Ready(schema, cfg) && Ready(schema, Canonical(schema, cfg, base))
    ensures Canonical(schema, Canonical(schema, cfg, base), base) == Canonical(schema, cfg, base)
  {
    var once := Canonical(schema, cfg, base);
    var twice := Canonical(schema, once, base);
    forall n ensures (n in twice <==> n in once) && (n in once ==> twice[n] == once[n]) {
      CanonicalTwiceAt(schema, cfg, base, n);
    }
  }
}
