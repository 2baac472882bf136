/**
 Which files the loader accepts and what it reads from them, line by line of the file as it stands: without the
 loader's running section and its set of keys seen so far.
 */
module ConfigAnswers {
  import opened Basics
  import opened ConfigText
  import opened ConfigValue
  import opened ConfigGrammar

  // ---------- lines ----------

  predicate Idle(line: string) {
    Trim(line) == "" || Trim(line)[0] == '#'
  }

  predicate Header(line: string) {
    !Idle(line) && Trim(line)[|Trim(line)| - 1] == ':'
  }

  function HeaderName(line: string): string
    requires Header(line)
  {
    Trim(line)[..|Trim(line)| - 1]
  }

  /** A line that assigns: it has a colon, and not at its end. */
  predicate Pair(line: string) {
    !Idle(line) && !Header(line) && ':' in Trim(line)
  }

  function KeyText(line: string): string
    requires Pair(line)
  {
    Trim(Trim(line)[..IndexOf(Trim(line), ':')])
  }

  function ValueText(line: string): string
    requires Pair(line)
  {
    Trim(Trim(line)[IndexOf(Trim(line), ':') + 1..])
  }

  /** The section line `n` is in: that of the nearest header above it. */
  function SectionAt(lines: seq<string>, n: nat): string
    requires n <= |lines|
  {
    if n == 0 then "" else if Header(lines[n - 1]) then HeaderName(lines[n - 1]) else SectionAt(lines, n - 1)
  }

  /** Line `n` assigns to this name. */
  predicate Assigns(lines: seq<string>, n: nat, name: Name)
    requires n < |lines|
  {
    Pair(lines[n]) && name == (SectionAt(lines, n), KeyText(lines[n]))
  }

  ghost predicate AssignedBefore(lines: seq<string>, n: nat, name: Name)
    requires n <= |lines|
  {
    exists k :: 0 <= k < n && Assigns(lines, k, name)
  }

  function ReadValue(schema: Schema, section: string, key: string, text: string): Option<Value> {
    var t, kind := Unwrapped(text), KindOf(schema, section, key);
    if t.None? || kind.None? then None else Parse(kind.value, t.value)
  }

  ghost predicate KnownSection(schema: Schema, name: string) {
    exists i :: 0 <= i < |schema| && schema[i].name == name
  }

  /** Line `n` is in order: idle, a known header, or the only assignment of a known key of its section, to a proper value. */
  ghost predicate Fits(schema: Schema, lines: seq<string>, n: nat)
    requires n < |lines|
  {
    var line := lines[n];
    || Idle(line)
    || (Header(line) && KnownSection(schema, HeaderName(line)))
    || (Pair(line) && SectionAt(lines, n) != ""
        && !AssignedBefore(lines, n, (SectionAt(lines, n), KeyText(line)))
        && ReadValue(schema, SectionAt(lines, n), KeyText(line), ValueText(line)).Some?)
  }

  /** What is wrong with line `n`. */
  ghost predicate FaultAt(f: Fault, schema: Schema, lines: seq<string>, n: nat)
    requires n < |lines|
  {
    var line := lines[n];
    !Idle(line) &&
    match f
    case NoColon => ':' !in Trim(line)
    case UnknownSection => Header(line) && !KnownSection(schema, HeaderName(line))
    case NoSection => Pair(line) && SectionAt(lines, n) == ""
    case DuplicateKey => Pair(line) && AssignedBefore(lines, n, (SectionAt(lines, n), KeyText(line)))
    case BadQuoting => Pair(line) && Unwrapped(ValueText(line)).None?
    case UnknownKey => Pair(line) && KindOf(schema, SectionAt(lines, n), KeyText(line)).None?
    case BadValue => Pair(line) && ReadValue(schema, SectionAt(lines, n), KeyText(line), ValueText(line)).None?
    case Invalid => false
  }

  // ---------- the loader, from the front of the file ----------

  ghost predicate KeysHeld(lines: seq<string>, n: nat, seen: set<Name>)
    requires n <= |lines|
  {
    forall name: Name :: name in seen <==> AssignedBefore(lines, n, name)
  }

  ghost predicate DefaultsHeld(base: Config, lines: seq<string>, n: nat, cfg: Config)
    requires n <= |lines|
  {
    forall name: Name :: !AssignedBefore(lines, n, name) ==>
      (name in cfg <==> name in base) && (name in base ==> cfg[name] == base[name])
  }

  ghost predicate ValueHeld(schema: Schema, line: string, name: Name, cfg: Config)
    requires Pair(line)
  {
    name in cfg && Some(cfg[name]) == ReadValue(schema, name.0, name.1, ValueText(line))
  }

  ghost predicate ValuesHeld(schema: Schema, lines: seq<string>, n: nat, cfg: Config)
    requires n <= |lines|
  {
    forall k :: 0 <= k < n && Pair(lines[k]) ==> ValueHeld(schema, lines[k], (SectionAt(lines, k), KeyText(lines[k])), cfg)
  }

  /** What the loader holds after the first `n` lines. */
  ghost predicate Holds(schema: Schema, base: Config, lines: seq<string>, n: nat, st: Loader)
    requires n <= |lines|
  {
    && st.section == SectionAt(lines, n) && KeysHeld(lines, n, st.seen)
    && DefaultsHeld(base, lines, n, st.cfg) && ValuesHeld(schema, lines, n, st.cfg)
  }

  lemma SectionKnown(schema: Schema, name: string)
    ensures KnownSection(schema, name) <==> FindSection(schema, name) < |schema|
  {
  }

  lemma AssignedOneMore(lines: seq<string>, n: nat, name: Name)
    requires n < |lines|
    ensures AssignedBefore(lines, n + 1, name) <==> AssignedBefore(lines, n, name) || Assigns(lines, n, name)
  {
  }

  lemma AssignedNoMore(lines: seq<string>, n: nat)
    requires n < |lines| && !Pair(lines[n])
    ensures forall name: Name :: AssignedBefore(lines, n + 1, name) <==> AssignedBefore(lines, n, name)
  {
    forall name: Name ensures AssignedBefore(lines, n + 1, name) <==> AssignedBefore(lines, n, name) {
      AssignedOneMore(lines, n, name);
    }
  }

  lemma SameHeld(base: Config, lines: seq<string>, n: nat, seen: set<Name>, cfg: Config)
    requires n < |lines| && !Pair(lines[n]) && KeysHeld(lines, n, seen) && DefaultsHeld(base, lines, n, cfg)
    ensures KeysHeld(lines, n + 1, seen) && DefaultsHeld(base, lines, n + 1, cfg)
  {
    AssignedNoMore(lines, n);
  }

  lemma SameValues(schema: Schema, lines: seq<string>, n: nat, cfg: Config)
    requires n < |lines| && !Pair(lines[n]) && ValuesHeld(schema, lines, n, cfg)
    ensures ValuesHeld(schema, lines, n + 1, cfg)
  {
  }

  /** A line that assigns nothing leaves all but the section as it was. */
  lemma NothingAssigned(schema: Schema, base: Config, lines: seq<string>, n: nat, st: Loader)
    requires n < |lines| && Holds(schema, base, lines, n, st) && !Pair(lines[n])
    ensures Holds(schema, base, lines, n + 1, st.(section := SectionAt(lines, n + 1)))
  {
    SameHeld(base, lines, n, st.seen, st.cfg);
    SameValues(schema, lines, n, st.cfg);
  }

  lemma IdleLine(schema: Schema, base: Config, lines: seq<string>, n: nat, st: Loader)
    requires n < |lines| && Holds(schema, base, lines, n, st) && Idle(lines[n])
    ensures ReadLine(schema, st, lines[n]) == Ok(st) && Holds(schema, base, lines, n + 1, st)
  {
    NothingAssigned(schema, base, lines, n, st);
  }

  lemma HeaderReads(schema: Schema, st: Loader, line: string)
    requires Header(line)
    ensures ReadLine(schema, st, line)
         == if KnownSection(schema, HeaderName(line)) then Ok(st.(section := HeaderName(line))) else Err(UnknownSection)
  {
    SectionKnown(schema, HeaderName(line));
    assert Trim(line)[|Trim(line)| - 1] in Trim(line);
  }

  lemma HeaderLine(schema: Schema, base: Config, lines: seq<string>, n: nat, st: Loader)
    requires n < |lines| && Holds(schema, base, lines, n, st) && Header(lines[n])
    ensures var r := ReadLine(schema, st, lines[n]);
            if KnownSection(schema, HeaderName(lines[n]))
            then r.Ok? && Holds(schema, base, lines, n + 1, r.value) else r == Err(UnknownSection)
  {
    HeaderReads(schema, st, lines[n]);
    NothingAssigned(schema, base, lines, n, st);
  }

  lemma PairLine(schema: Schema, base: Config, lines: seq<string>, n: nat, st: Loader)
    requires n < |lines| && Holds(schema, base, lines, n, st) && Pair(lines[n])
    ensures var r := ReadLine(schema, st, lines[n]);
            if Fits(schema, lines, n) then r.Ok? && Holds(schema, base, lines, n + 1, r.value)
            else r.Err? && FaultAt(r.fault, schema, lines, n)
  {
    var name, text := (SectionAt(lines, n), KeyText(lines[n])), ValueText(lines[n]);
    var r := ReadLine(schema, st, lines[n]);
    assert r == ReadPair(schema, st, name.1, text);
    if Fits(schema, lines, n) {
      assert r.Ok? && r.value == Loader(st.section, st.seen + {name}, st.cfg[name := ReadValue(schema, name.0, name.1, text).value]);
      PairHolds(schema, base, lines, n, st, r.value);
    }
  }

  lemma PairHolds(schema: Schema, base: Config, lines: seq<string>, n: nat, st: Loader, next: Loader)
    requires n < |lines| && Holds(schema, base, lines, n, st) && Pair(lines[n])
    requires var name := (SectionAt(lines, n), KeyText(lines[n]));
             var v := ReadValue(schema, name.0, name.1, ValueText(lines[n]));
             v.Some? && !AssignedBefore(lines, n, name) && next == Loader(st.section, st.seen + {name}, st.cfg[name := v.value])
    ensures Holds(schema, base, lines, n + 1, next)
  {
    var name := (SectionAt(lines, n), KeyText(lines[n]));
    OneMoreKey(base, lines, n, st.seen, st.cfg, next.cfg[name]);
    EarlierValuesHeld(schema, lines, n, st.cfg, next.cfg, name);
    OneMoreValue(schema, lines, n, next.cfg);
  }

  lemma OneMoreKey(base: Config, lines: seq<string>, n: nat, seen: set<Name>, cfg: Config, v: Value)
    requires n < |lines| && Pair(lines[n]) && KeysHeld(lines, n, seen) && DefaultsHeld(base, lines, n, cfg)
    ensures var name := (SectionAt(lines, n), KeyText(lines[n]));
            KeysHeld(lines, n + 1, seen + {name}) && DefaultsHeld(base, lines, n + 1, cfg[name := v])
  {
    var name := (SectionAt(lines, n), KeyText(lines[n]));
    forall x: Name ensures AssignedBefore(lines, n + 1, x) <==> AssignedBefore(lines, n, x) || x == name {
      AssignedOneMore(lines, n, x);
    }
  }

  lemma OneMoreValue(schema: Schema, lines: seq<string>, n: nat, cfg: Config)
    requires n < |lines| && Pair(lines[n]) && ValuesHeld(schema, lines, n, cfg)
    requires ValueHeld(schema, lines[n], (SectionAt(lines, n), KeyText(lines[n])), cfg)
    ensures ValuesHeld(schema, lines, n + 1, cfg)
  {
  }

  /** The name being new, the earlier lines keep their values. */
  lemma EarlierValuesHeld(schema: Schema, lines: seq<string>, n: nat, cfg: Config, next: Config, name: Name)
    requires n <= |lines| && ValuesHeld(schema, lines, n, cfg) && !AssignedBefore(lines, n, name)
    requires forall x: Name :: x != name && x in cfg ==> x in next && next[x] == cfg[x]
    ensures ValuesHeld(schema, lines, n, next)
  {
    forall k | 0 <= k < n && Pair(lines[k]) ensures ValueHeld(schema, lines[k], (SectionAt(lines, k), KeyText(lines[k])), next) {
      assert Assigns(lines, k, (SectionAt(lines, k), KeyText(lines[k])));
      assert ValueHeld(schema, lines[k], (SectionAt(lines, k), KeyText(lines[k])), cfg);
    }
  }

  lemma OneLine(schema: Schema, base: Config, lines: seq<string>, n: nat, st: Loader)
    requires n < |lines| && Holds(schema, base, lines, n, st)
    ensures var r := ReadLine(schema, st, lines[n]);
            if Fits(schema, lines, n) then r.Ok? && Holds(schema, base, lines, n + 1, r.value)
            else r.Err? && FaultAt(r.fault, schema, lines, n)
  {
    if Idle(lines[n]) {
      IdleLine(schema, base, lines, n, st);
    } else if Header(lines[n]) {
      HeaderLine(schema, base, lines, n, st);
    } else if Pair(lines[n]) {
      PairLine(schema, base, lines, n, st);
    }
  }

  ghost predicate FirstFault(f: Fault, schema: Schema, lines: seq<string>, n: nat)
    requires n < |lines|
  {
    AllFit(schema, lines, n) && !Fits(schema, lines, n) && FaultAt(f, schema, lines, n)
  }

  ghost predicate AllFit(schema: Schema, lines: seq<string>, n: nat)
    requires n <= |lines|
  {
    forall k :: 0 <= k < n ==> Fits(schema, lines, k)
  }

  /** Reading the rest from line `n` on, given what the lines before it left. */
  lemma {:induction false} ReadRest(schema: Schema, base: Config, lines: seq<string>, n: nat, st: Loader)
    requires n <= |lines| && Holds(schema, base, lines, n, st) && AllFit(schema, lines, n)
    ensures var r := Read(schema, st, lines[n..]);
            && (r.Ok? <==> AllFit(schema, lines, |lines|))
            && (r.Ok? ==> Holds(schema, base, lines, |lines|, r.value))
            && (r.Err? ==> exists k :: 0 <= k < |lines| && FirstFault(r.fault, schema, lines, k))
    decreases |lines| - n
  {
    if n == |lines| {
      assert lines[n..] == [];
    } else {
      ReadHeadFirst(schema, st, lines, n);
      OneLine(schema, base, lines, n, st);
      var next := ReadLine(schema, st, lines[n]);
      if next.Ok? {
        ReadRest(schema, base, lines, n + 1, next.value);
      } else {
        assert FirstFault(next.fault, schema, lines, n);
      }
    }
  }

  /**
   A file is accepted exactly when each of its lines is in order: no unknown section or key, no key given twice in its
   section, no assignment outside a section and no value that cannot be read. Then every assigned key has the value of
   its line and every other one its default; otherwise the fault reported is that of the first line that is not.
   */
  lemma LoadsIff(schema: Schema, base: Config, text: string)
    ensures var lines, r := Split(text, '\n'), Parsed(schema, base, text);
            && (r.Ok? <==> AllFit(schema, lines, |lines|))
            && (r.Err? ==> exists k :: 0 <= k < |lines| && FirstFault(r.fault, schema, lines, k))
            && (r.Ok? ==> ValuesHeld(schema, lines, |lines|, r.value) && DefaultsHeld(base, lines, |lines|, r.value))
  {
    var lines, st := Split(text, '\n'), Loader("", {}, base);
    assert lines[0..] == lines;
    ReadRest(schema, base, lines, 0, st);
  }
}
