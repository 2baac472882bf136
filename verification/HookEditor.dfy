/** Editing a provider's hook file: our own handlers come and go, everybody else's stay as they are. */
module HookEditor {
  import opened Basics

  datatype Value = Text(text: string) | List(items: seq<Value>) | Other(id: int)

  type Handler = map<string, Value>

  /** A hook group; `extra` holds its fields besides the handler list. */
  datatype Group = Group(handlers: seq<Handler>, extra: map<string, Value>)

  type Hooks = map<string, seq<Group>>

  datatype Spec = Spec(events: seq<string>, command: string, args: seq<string>, legacyCommands: seq<string>)

  function Texts(args: seq<string>): seq<Value> {
    seq(|args|, i requires 0 <= i < |args| => Text(args[i]))
  }

  predicate Says(h: Handler, field: string, text: string) {
    field in h && h[field] == Text(text)
  }

  predicate IsOwned(spec: Spec, h: Handler) {
    && Says(h, "type", "command") && Says(h, "command", spec.command)
    && if spec.args == [] then |h| == 2
       else |h| == 3 && "args" in h && h["args"] == List(Texts(spec.args))
  }

  predicate IsLegacy(spec: Spec, h: Handler) {
    Says(h, "type", "command") && |h| == 2 && "command" in h && h["command"].Text? && h["command"].text in spec.legacyCommands
  }

  function OwnedHandler(spec: Spec): Handler {
    var plain: Handler := map["type" := Text("command"), "command" := Text(spec.command)];
    if spec.args == [] then plain else plain["args" := List(Texts(spec.args))]
  }

  lemma OwnedHandlerIsOwned(spec: Spec)
    ensures IsOwned(spec, OwnedHandler(spec))
  {
    var plain: Handler := map["type" := Text("command"), "command" := Text(spec.command)];
    assert plain.Keys == {"type", "command"} && |plain.Keys| == 2;
    var full := plain["args" := List(Texts(spec.args))];
    assert full.Keys == plain.Keys + {"args"} && |full.Keys| == 3;
  }

  lemma TwoFields(h: Handler, a: string, x: Value, b: string, y: Value)
    requires |h| == 2 && a != b && a in h && h[a] == x && b in h && h[b] == y
    ensures h == map[a := x, b := y]
  {
    var rest := h.Keys - {a, b};
    assert h.Keys == rest + {a} + {b};
    assert |rest| == 0;
  }

  lemma ThreeFields(h: Handler, a: string, x: Value, b: string, y: Value, c: string, z: Value)
    requires |h| == 3 && a != b && b != c && a != c && a in h && h[a] == x && b in h && h[b] == y && c in h && h[c] == z
    ensures h == map[a := x, b := y, c := z]
  {
    var rest := h.Keys - {a, b, c};
    assert h.Keys == rest + {a} + {b} + {c};
    assert |rest| == 0;
  }

  /** One handler is ours: type, command and, if there are any, arguments, and nothing else. */
  lemma OwnedIff(spec: Spec, h: Handler)
    ensures IsOwned(spec, h)
            <==> h == if spec.args == [] then map["type" := Text("command"), "command" := Text(spec.command)]
                      else map["type" := Text("command"), "command" := Text(spec.command), "args" := List(Texts(spec.args))]
  {
    OwnedHandlerIsOwned(spec);
    assert "type" != "command" && "args" != "type" && "args" != "command" by {
      assert |"type"| == 4 && |"command"| == 7 && "args"[0] == 'a' && "type"[0] == 't';
    }
    if IsOwned(spec, h) {
      if spec.args == [] {
        TwoFields(h, "type", Text("command"), "command", Text(spec.command));
      } else {
        ThreeFields(h, "type", Text("command"), "command", Text(spec.command), "args", List(Texts(spec.args)));
      }
    } else {
      assert h != OwnedHandler(spec);
    }
  }

  /** Legacy handlers hold a legacy command and nothing else. */
  lemma LegacyIff(spec: Spec, h: Handler)
    ensures IsLegacy(spec, h)
            <==> exists c :: c in spec.legacyCommands && h == map["type" := Text("command"), "command" := Text(c)]
  {
    assert |"type"| == 4 && |"command"| == 7;
    if IsLegacy(spec, h) {
      TwoFields(h, "type", Text("command"), "command", h["command"]);
      assert h["command"].text in spec.legacyCommands;
    }
    if c :| c in spec.legacyCommands && h == map["type" := Text("command"), "command" := Text(c)] {
      assert h.Keys == {"type", "command"} && |h.Keys| == 2;
    }
  }

  /** The current command is not also listed as a legacy one. */
  predicate Separated(spec: Spec) {
    spec.args != [] || spec.command !in spec.legacyCommands
  }

  lemma OwnedIsNotLegacyIff(spec: Spec)
    ensures Separated(spec) <==> forall h :: IsOwned(spec, h) ==> !IsLegacy(spec, h)
  {
    OwnedHandlerIsOwned(spec);
    if !Separated(spec) {
      assert IsLegacy(spec, OwnedHandler(spec));
    }
  }

  // ---------- the two providers ----------

  function ShellEscaped(s: string): string {
    if s == "" then "" else (if s[0] == '\'' then "'\\''" else [s[0]]) + ShellEscaped(s[1..])
  }

  const CODEX_EVENTS := ["UserPromptSubmit", "PreToolUse", "PermissionRequest", "PostToolUse", "Stop", "SessionEnd"]
  const CLAUDE_EVENTS := ["UserPromptSubmit", "PreToolUse", "PermissionRequest", "PostToolUse", "PostToolUseFailure",
                          "PermissionDenied", "Notification", "Stop", "StopFailure", "SessionEnd", "Elicitation",
                          "ElicitationResult"]

  function CodexSpec(binary: string, legacyBinary: string): Spec {
    Spec(CODEX_EVENTS, "'" + ShellEscaped(binary) + "'" + " agent-hook codex", [], [legacyBinary + " agent-hook codex"])
  }

  function ClaudeSpec(binary: string, legacyBinary: string): Spec {
    Spec(CLAUDE_EVENTS, binary, ["agent-hook", "claude-code"], [legacyBinary + " agent-hook claude-code"])
  }

  /** Both providers' definitions qualify, whatever the install path. */
  lemma ProvidersSeparated(binary: string, legacyBinary: string)
    requires legacyBinary != "" && legacyBinary[0] != '\''
    ensures Separated(CodexSpec(binary, legacyBinary)) && Separated(ClaudeSpec(binary, legacyBinary))
  {
    assert CodexSpec(binary, legacyBinary).command[0] == '\'';
    assert (legacyBinary + " agent-hook codex")[0] == legacyBinary[0];
  }

  // ---------- what the edits do, as functions ----------

  function Unmatched(m: Handler -> bool): Handler -> bool {
    (h: Handler) => !m(h)
  }

  /** A group emptied by the removal disappears when it held nothing but its handlers. */
  function CleanGroup(g: Group, m: Handler -> bool): seq<Group> {
    var rest := Keep(g.handlers, Unmatched(m));
    if rest == [] && g.handlers != [] && g.extra == map[] then [] else [g.(handlers := rest)]
  }

  function CleanGroups(gs: seq<Group>, m: Handler -> bool): seq<Group> {
    if gs == [] then [] else CleanGroups(gs[..|gs| - 1], m) + CleanGroup(gs[|gs| - 1], m)
  }

  function Cleaned(hooks: Hooks, m: Handler -> bool): Hooks {
    map e | e in hooks :: CleanGroups(hooks[e], m)
  }

  function GroupsOf(hooks: Hooks, event: string): seq<Group> {
    if event in hooks then hooks[event] else []
  }

  function HandlersOf(gs: seq<Group>): seq<Handler> {
    if gs == [] then [] else HandlersOf(gs[..|gs| - 1]) + gs[|gs| - 1].handlers
  }

  predicate HasOwned(spec: Spec, gs: seq<Group>) {
    exists h :: h in HandlersOf(gs) && IsOwned(spec, h)
  }

  function WithOwned(hooks: Hooks, spec: Spec, event: string): Hooks {
    var gs := GroupsOf(hooks, event);
    if HasOwned(spec, gs) then hooks else hooks[event := gs + [Group([OwnedHandler(spec)], map[])]]
  }

  function AllOwned(hooks: Hooks, spec: Spec, events: seq<string>): Hooks {
    if events == [] then hooks else WithOwned(AllOwned(hooks, spec, events[..|events| - 1]), spec, events[|events| - 1])
  }

  function Owned(spec: Spec): Handler -> bool {
    (h: Handler) => IsOwned(spec, h)
  }

  function Legacy(spec: Spec): Handler -> bool {
    (h: Handler) => IsLegacy(spec, h)
  }

  function Foreign(spec: Spec): Handler -> bool {
    (h: Handler) => !IsOwned(spec, h) && !IsLegacy(spec, h)
  }

  function Install(spec: Spec, hooks: Hooks): Hooks {
    AllOwned(Cleaned(hooks, Legacy(spec)), spec, spec.events)
  }

  function Remove(spec: Spec, hooks: Hooks): Hooks {
    Cleaned(Cleaned(hooks, Owned(spec)), Legacy(spec))
  }

  // ---------- filtering ----------

  lemma {:induction false} KeepConcat(a: seq<Handler>, b: seq<Handler>, p: Handler -> bool)
    ensures Keep(a + b, p) == Keep(a, p) + Keep(b, p)
  {
    if b == [] {
      assert a + b == a;
    } else {
      var front, last := b[..|b| - 1], b[|b| - 1];
      KeepConcat(a, front, p);
      assert (a + b)[..|a + b| - 1] == a + front;
    }
  }

  /** A stronger filter absorbs a weaker one applied before it. */
  lemma {:induction false} KeepKeep(s: seq<Handler>, p: Handler -> bool, q: Handler -> bool)
    requires forall h :: p(h) ==> q(h)
    ensures Keep(Keep(s, q), p) == Keep(s, p)
  {
    if s != [] {
      var front, last := s[..|s| - 1], s[|s| - 1];
      KeepKeep(front, p, q);
      KeepConcat(Keep(front, q), if q(last) then [last] else [], p);
      assert forall x: Handler :: [x][..0] == [];
    }
  }

  lemma {:induction false} HandlersConcat(a: seq<Group>, b: seq<Group>)
    ensures HandlersOf(a + b) == HandlersOf(a) + HandlersOf(b)
  {
    if b == [] {
      assert a + b == a;
    } else {
      var front, last := b[..|b| - 1], b[|b| - 1];
      HandlersConcat(a, front);
      assert (a + b)[..|a + b| - 1] == a + front && (a + b)[|a + b| - 1] == last;
      assert HandlersOf(a + b) == HandlersOf(a) + HandlersOf(front) + last.handlers;
    }
  }

  lemma HandlersOfOne(g: Group)
    ensures HandlersOf([g]) == g.handlers
  {
    assert [g][..0] == [];
  }

  /** Removal takes out exactly the matching handlers and keeps the others in sequence. */
  lemma {:induction false} CleanGroupsFilters(gs: seq<Group>, m: Handler -> bool)
    ensures HandlersOf(CleanGroups(gs, m)) == Keep(HandlersOf(gs), Unmatched(m))
  {
    if gs != [] {
      var front, g := gs[..|gs| - 1], gs[|gs| - 1];
      CleanGroupsFilters(front, m);
      KeepConcat(HandlersOf(front), g.handlers, Unmatched(m));
      HandlersConcat(CleanGroups(front, m), CleanGroup(g, m));
      HandlersOfOne(g.(handlers := Keep(g.handlers, Unmatched(m))));
    }
  }

  lemma {:induction false} CleanGroupsConcat(a: seq<Group>, b: seq<Group>, m: Handler -> bool)
    ensures CleanGroups(a + b, m) == CleanGroups(a, m) + CleanGroups(b, m)
  {
    if b == [] {
      assert a + b == a;
    } else {
      var front, g := b[..|b| - 1], b[|b| - 1];
      calc {
        CleanGroups(a + b, m);
        { assert a + b == (a + front) + [g]; CleanGroupsGrow(a + front, g, m); }
        CleanGroups(a + front, m) + CleanGroup(g, m);
        { CleanGroupsConcat(a, front, m); }
        CleanGroups(a, m) + CleanGroups(front, m) + CleanGroup(g, m);
        { assert b == front + [g]; CleanGroupsGrow(front, g, m); }
        CleanGroups(a, m) + CleanGroups(b, m);
      }
    }
  }

  /**
   A removal treats each group by itself: one that held nothing but matching handlers goes, any other one stays where
   it is, with its other fields and without them.
   */
  lemma GroupGoesIff(a: seq<Group>, g: Group, b: seq<Group>, m: Handler -> bool)
    ensures CleanGroups(a + [g] + b, m)
         == CleanGroups(a, m)
            + (if g.handlers != [] && g.extra == map[] && (forall h :: h in g.handlers ==> m(h)) then []
               else [Group(Keep(g.handlers, Unmatched(m)), g.extra)])
            + CleanGroups(b, m)
  {
    CleanGroupsConcat(a + [g], b, m);
    CleanGroupsGrow(a, g, m);
    var rest := Keep(g.handlers, Unmatched(m));
    KeepMembers(g.handlers, Unmatched(m));
    assert rest == [] <==> forall h :: h in g.handlers ==> m(h) by {
      if rest != [] {
        assert rest[0] in rest;
      }
      if h :| h in g.handlers && !m(h) {
        assert h in rest;
      }
    }
  }

  ghost predicate Clear(handlers: seq<Handler>, m: Handler -> bool) {
    forall h :: h in handlers ==> !m(h)
  }

  lemma CleanGroupIdle(g: Group, m: Handler -> bool)
    requires Clear(g.handlers, m)
    ensures CleanGroup(g, m) == [g]
  {
    KeepEverything(g.handlers, Unmatched(m));
  }

  lemma CleanGroupsGrow(front: seq<Group>, g: Group, m: Handler -> bool)
    ensures CleanGroups(front + [g], m) == CleanGroups(front, m) + CleanGroup(g, m)
  {
    assert (front + [g])[..|front|] == front;
  }

  lemma {:induction false} QuietGroups(gs: seq<Group>, n: nat, m: Handler -> bool)
    requires n <= |gs| && forall i :: 0 <= i < n ==> Clear(gs[i].handlers, m)
    ensures CleanGroups(gs[..n], m) == gs[..n]
  {
    if n > 0 {
      var front, g := gs[..n - 1], gs[n - 1];
      assert gs[..n] == front + [g];
      calc {
        CleanGroups(front + [g], m);
        { CleanGroupsGrow(front, g, m); }
        CleanGroups(front, m) + CleanGroup(g, m);
        { QuietGroups(gs, n - 1, m); }
        front + CleanGroup(g, m);
        { CleanGroupIdle(g, m); }
        front + [g];
      }
    }
  }

  lemma CleanGroupsIdle(gs: seq<Group>, m: Handler -> bool)
    requires Clear(HandlersOf(gs), m)
    ensures CleanGroups(gs, m) == gs
  {
    forall i | 0 <= i < |gs| ensures Clear(gs[i].handlers, m) {
      forall h | h in gs[i].handlers ensures !m(h) {
        InGroup(gs, i, h);
      }
    }
    QuietGroups(gs, |gs|, m);
    assert gs[..|gs|] == gs;
  }

  /** After a removal nothing matches. */
  lemma CleanedIsClean(hooks: Hooks, m: Handler -> bool, event: string, h: Handler)
    requires h in HandlersOf(GroupsOf(Cleaned(hooks, m), event))
    ensures !m(h) && h in HandlersOf(GroupsOf(hooks, event))
  {
    if event in hooks {
      CleanGroupsFilters(hooks[event], m);
      KeepMembers(HandlersOf(hooks[event]), Unmatched(m));
    }
  }

  lemma CleanedIdle(hooks: Hooks, m: Handler -> bool)
    requires forall e, h :: e in hooks && h in HandlersOf(hooks[e]) ==> !m(h)
    ensures Cleaned(hooks, m) == hooks
  {
    forall e | e in hooks ensures CleanGroups(hooks[e], m) == hooks[e] {
      CleanGroupsIdle(hooks[e], m);
    }
  }

  // ---------- foreign handlers ----------

  ghost function ForeignAt(spec: Spec, hooks: Hooks, event: string): seq<Handler> {
    Keep(HandlersOf(GroupsOf(hooks, event)), Foreign(spec))
  }

  lemma CleanedKeepsForeign(spec: Spec, hooks: Hooks, m: Handler -> bool, event: string)
    requires forall h :: m(h) ==> !Foreign(spec)(h)
    ensures ForeignAt(spec, Cleaned(hooks, m), event) == ForeignAt(spec, hooks, event)
  {
    if event in hooks {
      CleanGroupsFilters(hooks[event], m);
      KeepKeep(HandlersOf(hooks[event]), Foreign(spec), Unmatched(m));
    }
  }

  lemma AppendedHandlers(spec: Spec, gs: seq<Group>)
    ensures HandlersOf(gs + [Group([OwnedHandler(spec)], map[])]) == HandlersOf(gs) + [OwnedHandler(spec)]
  {
    var g := Group([OwnedHandler(spec)], map[]);
    HandlersConcat(gs, [g]);
    HandlersOfOne(g);
  }

  lemma WithOwnedKeepsForeign(spec: Spec, hooks: Hooks, added: string, event: string)
    ensures ForeignAt(spec, WithOwned(hooks, spec, added), event) == ForeignAt(spec, hooks, event)
  {
    var gs := GroupsOf(hooks, added);
    if event == added && !HasOwned(spec, gs) {
      AppendedHandlers(spec, gs);
      OwnedHandlerIsOwned(spec);
      KeepConcat(HandlersOf(gs), [OwnedHandler(spec)], Foreign(spec));
      assert [OwnedHandler(spec)][..0] == [];
      assert Keep([OwnedHandler(spec)], Foreign(spec)) == [];
    }
  }

  lemma {:induction false} AllOwnedKeepsForeign(spec: Spec, hooks: Hooks, events: seq<string>, event: string)
    ensures ForeignAt(spec, AllOwned(hooks, spec, events), event) == ForeignAt(spec, hooks, event)
  {
    if events != [] {
      var front := events[..|events| - 1];
      AllOwnedKeepsForeign(spec, hooks, front, event);
      WithOwnedKeepsForeign(spec, AllOwned(hooks, spec, front), events[|events| - 1], event);
    }
  }

  /** Installing and removing leave each event's sequence of foreign handlers exactly as it was. */
  lemma ForeignPreserved(spec: Spec, hooks: Hooks, event: string)
    ensures ForeignAt(spec, Install(spec, hooks), event) == ForeignAt(spec, hooks, event)
    ensures ForeignAt(spec, Remove(spec, hooks), event) == ForeignAt(spec, hooks, event)
  {
    CleanedKeepsForeign(spec, hooks, Legacy(spec), event);
    AllOwnedKeepsForeign(spec, Cleaned(hooks, Legacy(spec)), spec.events, event);
    CleanedKeepsForeign(spec, hooks, Owned(spec), event);
    CleanedKeepsForeign(spec, Cleaned(hooks, Owned(spec)), Legacy(spec), event);
  }

  // ---------- foreign fields ----------

  /** The extra fields of the groups that have any, in sequence. */
  function Extras(gs: seq<Group>): seq<map<string, Value>> {
    if gs == [] then []
    else Extras(gs[..|gs| - 1]) + if gs[|gs| - 1].extra != map[] then [gs[|gs| - 1].extra] else []
  }

  lemma ExtrasAppend(gs: seq<Group>, tail: seq<Group>)
    requires |tail| <= 1
    ensures Extras(gs + tail) == Extras(gs) + if tail != [] && tail[0].extra != map[] then [tail[0].extra] else []
  {
    if tail == [] {
      assert gs + tail == gs;
    } else {
      assert (gs + tail)[..|gs|] == gs;
    }
  }

  lemma {:induction false} CleanKeepsExtras(gs: seq<Group>, m: Handler -> bool)
    ensures Extras(CleanGroups(gs, m)) == Extras(gs)
  {
    if gs != [] {
      var front, g := gs[..|gs| - 1], gs[|gs| - 1];
      CleanKeepsExtras(front, m);
      ExtrasAppend(CleanGroups(front, m), CleanGroup(g, m));
    }
  }

  lemma {:induction false} AllOwnedKeepsExtras(spec: Spec, hooks: Hooks, events: seq<string>, event: string)
    ensures Extras(GroupsOf(AllOwned(hooks, spec, events), event)) == Extras(GroupsOf(hooks, event))
  {
    if events != [] {
      var front := events[..|events| - 1];
      AllOwnedKeepsExtras(spec, hooks, front, event);
      ExtrasAppend(GroupsOf(AllOwned(hooks, spec, front), event), [Group([OwnedHandler(spec)], map[])]);
    }
  }

  /** No group that carries other fields, such as a matcher, is dropped or altered in them. */
  lemma ExtrasPreserved(spec: Spec, hooks: Hooks, event: string)
    ensures Extras(GroupsOf(Install(spec, hooks), event)) == Extras(GroupsOf(hooks, event))
    ensures Extras(GroupsOf(Remove(spec, hooks), event)) == Extras(GroupsOf(hooks, event))
  {
    var gs := GroupsOf(hooks, event);
    AllOwnedKeepsExtras(spec, Cleaned(hooks, Legacy(spec)), spec.events, event);
    if event in hooks {
      CleanKeepsExtras(gs, Legacy(spec));
      CleanKeepsExtras(gs, Owned(spec));
      CleanKeepsExtras(CleanGroups(gs, Owned(spec)), Legacy(spec));
    }
  }

  // ---------- what an install achieves ----------

  lemma WithOwnedGives(spec: Spec, hooks: Hooks, event: string)
    ensures HasOwned(spec, GroupsOf(WithOwned(hooks, spec, event), event))
  {
    var gs := GroupsOf(hooks, event);
    if !HasOwned(spec, gs) {
      AppendedHandlers(spec, gs);
      OwnedHandlerIsOwned(spec);
      assert OwnedHandler(spec) in HandlersOf(gs) + [OwnedHandler(spec)];
    }
  }

  lemma {:induction false} AllOwnedGives(spec: Spec, hooks: Hooks, events: seq<string>, event: string)
    requires event in events || HasOwned(spec, GroupsOf(hooks, event))
    ensures HasOwned(spec, GroupsOf(AllOwned(hooks, spec, events), event))
  {
    if events != [] {
      var front, last := events[..|events| - 1], events[|events| - 1];
      if event == last {
        WithOwnedGives(spec, AllOwned(hooks, spec, front), event);
      } else {
        AllOwnedGives(spec, hooks, front, event);
      }
    }
  }

  /** Installing adds no handler but our own. */
  lemma {:induction false} AllOwnedAddsOwned(spec: Spec, hooks: Hooks, events: seq<string>, event: string, h: Handler)
    requires h in HandlersOf(GroupsOf(AllOwned(hooks, spec, events), event))
    ensures h in HandlersOf(GroupsOf(hooks, event)) || h == OwnedHandler(spec)
  {
    if events != [] {
      var front := events[..|events| - 1];
      AppendedHandlers(spec, GroupsOf(AllOwned(hooks, spec, front), event));
      if h in HandlersOf(GroupsOf(AllOwned(hooks, spec, front), event)) {
        AllOwnedAddsOwned(spec, hooks, front, event, h);
      }
    }
  }

  ghost predicate Configured(spec: Spec, hooks: Hooks) {
    && (forall e :: e in spec.events ==> HasOwned(spec, GroupsOf(hooks, e)))
    && (forall e, h :: e in hooks && h in HandlersOf(hooks[e]) ==> !IsLegacy(spec, h))
  }

  /** After an install every required event is served and no legacy handler is left. */
  lemma InstallConfigures(spec: Spec, hooks: Hooks)
    requires Separated(spec)
    ensures Configured(spec, Install(spec, hooks))
  {
    var clean := Cleaned(hooks, Legacy(spec));
    var next := Install(spec, hooks);
    forall e | e in spec.events ensures HasOwned(spec, GroupsOf(next, e)) {
      AllOwnedGives(spec, clean, spec.events, e);
    }
    forall e, h | e in next && h in HandlersOf(next[e]) ensures !IsLegacy(spec, h) {
      AllOwnedAddsOwned(spec, clean, spec.events, e, h);
      OwnedHandlerIsOwned(spec);
      OwnedIsNotLegacyIff(spec);
      if h in HandlersOf(GroupsOf(clean, e)) {
        CleanedIsClean(hooks, Legacy(spec), e, h);
      }
    }
  }

  /** The condition is needed as soon as some event is required. */
  lemma InstallConfiguresIff(spec: Spec, hooks: Hooks)
    requires spec.events != []
    ensures Separated(spec) <==> Configured(spec, Install(spec, hooks))
  {
    var next := Install(spec, hooks);
    if Separated(spec) {
      InstallConfigures(spec, hooks);
    } else {
      var e := spec.events[0];
      AllOwnedGives(spec, Cleaned(hooks, Legacy(spec)), spec.events, e);
      var h :| h in HandlersOf(GroupsOf(next, e)) && IsOwned(spec, h);
      assert e in next && IsLegacy(spec, h);
    }
  }

  /** Our own group, for an event without a handler of ours. */
  function OwnGroup(spec: Spec, gs: seq<Group>): seq<Group> {
    if HasOwned(spec, gs) then [] else [Group([OwnedHandler(spec)], map[])]
  }

  lemma OwnGroupServes(spec: Spec, gs: seq<Group>)
    ensures HasOwned(spec, gs + OwnGroup(spec, gs))
  {
    OwnedHandlerIsOwned(spec);
    AppendedHandlers(spec, gs);
    if HasOwned(spec, gs) {
      assert gs + OwnGroup(spec, gs) == gs;
    } else {
      var all := HandlersOf(gs) + [OwnedHandler(spec)];
      assert all[|all| - 1] == OwnedHandler(spec);
    }
  }

  lemma WithOwnedPlaces(spec: Spec, hooks: Hooks, added: string, event: string)
    ensures var gs := GroupsOf(hooks, event);
            GroupsOf(WithOwned(hooks, spec, added), event) == if event == added then gs + OwnGroup(spec, gs) else gs
  {
  }

  lemma {:induction false} AllOwnedPlaces(spec: Spec, hooks: Hooks, events: seq<string>, event: string)
    ensures var gs := GroupsOf(hooks, event);
            GroupsOf(AllOwned(hooks, spec, events), event) == if event in events then gs + OwnGroup(spec, gs) else gs
  {
    if events != [] {
      var front, last, gs := events[..|events| - 1], events[|events| - 1], GroupsOf(hooks, event);
      assert events == front + [last];
      AllOwnedPlaces(spec, hooks, front, event);
      WithOwnedPlaces(spec, AllOwned(hooks, spec, front), last, event);
      OwnGroupServes(spec, gs);
    }
  }

  /**
   What an install leaves of an event: its groups without legacy handlers, and behind them, if the event is a required
   one that none of ours serves yet, a group of its own with our handler.
   */
  lemma InstallPlaces(spec: Spec, hooks: Hooks, event: string)
    ensures var gs := if event in hooks then CleanGroups(hooks[event], Legacy(spec)) else [];
            GroupsOf(Install(spec, hooks), event)
            == if event in spec.events && !(exists h :: h in HandlersOf(gs) && IsOwned(spec, h))
               then gs + [Group([OwnedHandler(spec)], map[])] else gs
  {
    AllOwnedPlaces(spec, Cleaned(hooks, Legacy(spec)), spec.events, event);
  }

  lemma {:induction false} AllOwnedIdle(spec: Spec, hooks: Hooks, events: seq<string>)
    requires forall e :: e in events ==> HasOwned(spec, GroupsOf(hooks, e))
    ensures AllOwned(hooks, spec, events) == hooks
  {
    if events != [] {
      var front := events[..|events| - 1];
      assert events == front + [events[|events| - 1]];
      AllOwnedIdle(spec, hooks, front);
    }
  }

  /** A configured file is left alone, so a second install changes nothing. */
  lemma InstallIdempotent(spec: Spec, hooks: Hooks)
    requires Separated(spec)
    ensures Install(spec, Install(spec, hooks)) == Install(spec, hooks)
  {
    var once := Install(spec, hooks);
    InstallConfigures(spec, hooks);
    CleanedIdle(once, Legacy(spec));
    AllOwnedIdle(spec, once, spec.events);
  }

  // ---------- what a removal achieves ----------

  /** After a removal no handler of ours is left, current or legacy. */
  lemma RemoveLeavesNone(spec: Spec, hooks: Hooks, event: string, h: Handler)
    requires h in HandlersOf(GroupsOf(Remove(spec, hooks), event))
    ensures !IsOwned(spec, h) && !IsLegacy(spec, h)
  {
    var first := Cleaned(hooks, Owned(spec));
    CleanedIsClean(first, Legacy(spec), event, h);
    CleanedIsClean(hooks, Owned(spec), event, h);
  }

  ghost predicate Untouched(spec: Spec, hooks: Hooks) {
    forall e, h :: e in hooks && h in HandlersOf(hooks[e]) ==> !IsOwned(spec, h) && !IsLegacy(spec, h)
  }

  /** A file that never held a handler of ours, with its required events present. */
  function WithEvents(hooks: Hooks, events: seq<string>): Hooks {
    map e | e in hooks.Keys + (set x | x in events) :: GroupsOf(hooks, e)
  }

  lemma CleanOfAppended(spec: Spec, gs: seq<Group>)
    requires forall h :: h in HandlersOf(gs) ==> !IsOwned(spec, h)
    ensures CleanGroups(gs + [Group([OwnedHandler(spec)], map[])], Owned(spec)) == gs
  {
    var g := Group([OwnedHandler(spec)], map[]);
    assert (gs + [g])[..|gs|] == gs;
    CleanGroupsIdle(gs, Owned(spec));
    OwnedHandlerIsOwned(spec);
    assert g.handlers[..0] == [];
    assert Keep(g.handlers, Unmatched(Owned(spec))) == [];
  }

  lemma {:induction false} AllOwnedOnUntouched(spec: Spec, hooks: Hooks, events: seq<string>, event: string)
    requires Untouched(spec, hooks)
    ensures var next := AllOwned(hooks, spec, events);
            && (event in next <==> event in hooks || event in events)
            && GroupsOf(next, event)
               == GroupsOf(hooks, event) + if event in events then [Group([OwnedHandler(spec)], map[])] else []
  {
    if events != [] {
      var front, last := events[..|events| - 1], events[|events| - 1];
      assert events == front + [last];
      AllOwnedOnUntouched(spec, hooks, front, event);
      var gs := GroupsOf(hooks, event);
      assert !HasOwned(spec, gs);
      if event == last {
        assert gs + [] == gs;
        WithOwnedGives(spec, AllOwned(hooks, spec, front[..]), event);
        if event in front {
          AllOwnedGives(spec, hooks, front, event);
        }
      }
    }
  }

  lemma RoundTripAt(spec: Spec, hooks: Hooks, e: string)
    requires Untouched(spec, hooks)
    ensures var next := AllOwned(hooks, spec, spec.events);
            && (e in next <==> e in WithEvents(hooks, spec.events))
            && (e in next ==> CleanGroups(next[e], Owned(spec)) == GroupsOf(hooks, e))
  {
    AllOwnedOnUntouched(spec, hooks, spec.events, e);
    var gs := GroupsOf(hooks, e);
    if e in spec.events {
      CleanOfAppended(spec, gs);
    } else {
      assert gs + [] == gs;
      CleanGroupsIdle(gs, Owned(spec));
    }
  }

  /**
   Round trip: installing into a file without our handlers and removing again restores every group of every
   event; all that stays behind is an empty list for a required event the file did not mention.
   */
  lemma RemoveUndoesInstall(spec: Spec, hooks: Hooks)
    requires Untouched(spec, hooks)
    ensures Remove(spec, Install(spec, hooks)) == WithEvents(hooks, spec.events)
  {
    CleanedIdle(hooks, Legacy(spec));
    var next := Install(spec, hooks);
    var goal := WithEvents(hooks, spec.events);
    assert Cleaned(next, Owned(spec)) == goal by {
      forall e ensures (e in next <==> e in goal) && (e in next ==> CleanGroups(next[e], Owned(spec)) == goal[e]) {
        RoundTripAt(spec, hooks, e);
      }
    }
    assert Cleaned(goal, Legacy(spec)) == goal by {
      assert forall e :: e in goal ==> goal[e] == GroupsOf(hooks, e);
      CleanedIdle(goal, Legacy(spec));
    }
  }

  // ---------- the editor ----------

  ghost predicate Occurs(gs: seq<Group>, m: Handler -> bool) {
    exists h :: h in HandlersOf(gs) && m(h)
  }

  ghost predicate OccursIn(hooks: Hooks, m: Handler -> bool) {
    exists e :: e in hooks && Occurs(hooks[e], m)
  }

  ghost predicate Incomplete(spec: Spec, hooks: Hooks) {
    exists e :: e in spec.events && !Served(spec, hooks, e)
  }

  ghost predicate PartlyCleaned(was: Hooks, now: Hooks, todo: set<string>, m: Handler -> bool) {
    && now.Keys == was.Keys
    && forall e :: e in was ==> now[e] == if e in todo then was[e] else CleanGroups(was[e], m)
  }

  lemma OneMoreCleaned(was: Hooks, now: Hooks, todo: set<string>, event: string, m: Handler -> bool)
    requires PartlyCleaned(was, now, todo, m) && event in todo && event in was
    ensures now[event] == was[event]
    ensures PartlyCleaned(was, now[event := CleanGroups(now[event], m)], todo - {event}, m)
  {
  }

  lemma AllCleaned(was: Hooks, now: Hooks, m: Handler -> bool)
    requires PartlyCleaned(was, now, {}, m)
    ensures now == Cleaned(was, m)
  {
  }

  lemma AllOwnedGrows(hooks: Hooks, spec: Spec, i: nat)
    requires i < |spec.events|
    ensures AllOwned(hooks, spec, spec.events[..i + 1])
         == WithOwned(AllOwned(hooks, spec, spec.events[..i]), spec, spec.events[i])
  {
    assert spec.events[..i + 1][..i] == spec.events[..i];
  }

  ghost predicate Served(spec: Spec, hooks: Hooks, event: string) {
    HasOwned(spec, GroupsOf(hooks, event))
  }

  ghost predicate MissingAmong(spec: Spec, hooks: Hooks, n: nat)
    requires n <= |spec.events|
  {
    n > 0 && (MissingAmong(spec, hooks, n - 1) || !Served(spec, hooks, spec.events[n - 1]))
  }

  lemma {:induction false} MissingSomewhere(spec: Spec, hooks: Hooks, n: nat)
    requires n <= |spec.events|
    ensures MissingAmong(spec, hooks, n) <==> exists j :: 0 <= j < n && !Served(spec, hooks, spec.events[j])
    ensures n == |spec.events| ==> (MissingAmong(spec, hooks, n) <==> Incomplete(spec, hooks))
  {
    if n > 0 {
      MissingSomewhere(spec, hooks, n - 1);
    }
    if n == |spec.events| && Incomplete(spec, hooks) {
      var e :| e in spec.events && !Served(spec, hooks, e);
      var j :| 0 <= j < n && spec.events[j] == e;
    }
  }

  class HookFile {
    var hooks: Hooks

    constructor (hooks: Hooks)
      ensures this.hooks == hooks
    {
      this.hooks := hooks;
    }

    /** Take out every matching handler, event by event in whatever order the file's map gives. */
    method RemoveMatching(m: Handler -> bool) returns (removed: nat)
      modifies this
      ensures hooks == Cleaned(old(hooks), m)
      ensures removed > 0 <==> OccursIn(old(hooks), m)
    {
      removed := 0;
      var todo := hooks.Keys;
      ghost var was := hooks;
      while todo != {}
        invariant todo <= was.Keys && PartlyCleaned(was, hooks, todo, m)
        invariant removed > 0 ==> OccursIn(was, m)
        invariant removed == 0 ==> forall e :: e in was && e !in todo ==> !Occurs(was[e], m)
        decreases todo
      {
        var event :| event in todo;
        OneMoreCleaned(was, hooks, todo, event, m);
        var count := RemoveAt(event, m);
        removed := removed + count;
        todo := todo - {event};
      }
      AllCleaned(was, hooks, m);
    }

    method RemoveAt(event: string, m: Handler -> bool) returns (count: nat)
      requires event in hooks
      modifies this
      ensures hooks == old(hooks)[event := CleanGroups(old(hooks)[event], m)]
      ensures count > 0 <==> Occurs(old(hooks)[event], m)
    {
      var next;
      next, count := CleanEvent(hooks[event], m);
      if count > 0 {
        hooks := hooks[event := next];
      }
    }

    method InstallOwned(spec: Spec) returns (changed: bool)
      modifies this
      ensures hooks == AllOwned(old(hooks), spec, spec.events)
      ensures changed <==> Incomplete(spec, old(hooks))
    {
      changed := false;
      ghost var was := hooks;
      for i := 0 to |spec.events|
        invariant hooks == AllOwned(was, spec, spec.events[..i])
        invariant !changed ==> hooks == was
        invariant changed <==> MissingAmong(spec, was, i)
      {
        AllOwnedGrows(was, spec, i);
        var added := InstallAt(spec, spec.events[i]);
        changed := changed || added;
      }
      assert spec.events[..|spec.events|] == spec.events;
      MissingSomewhere(spec, was, |spec.events|);
    }

    method InstallAt(spec: Spec, event: string) returns (added: bool)
      modifies this
      ensures hooks == WithOwned(old(hooks), spec, event)
      ensures added <==> !Served(spec, old(hooks), event)
      ensures !added ==> hooks == old(hooks)
    {
      var groups := GroupsOf(hooks, event);
      var found := EventHasOwned(spec, groups);
      if !found {
        hooks := hooks[event := groups + [Group([OwnedHandler(spec)], map[])]];
      }
      return !found;
    }

    /** `write` says whether the file has to be written back. */
    method RunInstall(spec: Spec, existed: bool) returns (write: bool)
      modifies this
      ensures hooks == Install(spec, old(hooks))
      ensures write <==> !existed || OccursIn(old(hooks), Legacy(spec)) || Incomplete(spec, Cleaned(old(hooks), Legacy(spec)))
    {
      var legacy := RemoveMatching(Legacy(spec));
      var changed := InstallOwned(spec);
      write := changed || legacy > 0 || !existed;
    }

    method RunRemove(spec: Spec) returns (write: bool)
      modifies this
      ensures hooks == Remove(spec, old(hooks))
      ensures write <==> OccursIn(old(hooks), Owned(spec)) || OccursIn(Cleaned(old(hooks), Owned(spec)), Legacy(spec))
    {
      var owned := RemoveMatching(Owned(spec));
      var legacy := RemoveMatching(Legacy(spec));
      write := owned > 0 || legacy > 0;
    }
  }

  lemma OccursGrows(groups: seq<Group>, i: nat, m: Handler -> bool)
    requires i < |groups|
    ensures Occurs(groups[..i + 1], m) <==> Occurs(groups[..i], m) || exists h :: h in groups[i].handlers && m(h)
  {
    assert groups[..i + 1][..i] == groups[..i];
    assert HandlersOf(groups[..i + 1]) == HandlersOf(groups[..i]) + groups[i].handlers;
  }

  method CleanEvent(groups: seq<Group>, m: Handler -> bool) returns (next: seq<Group>, count: nat)
    ensures next == CleanGroups(groups, m)
    ensures count == 0 ==> next == groups
    ensures count > 0 <==> Occurs(groups, m)
  {
    next, count := [], 0;
    for i := 0 to |groups|
      invariant next == CleanGroups(groups[..i], m)
      invariant count > 0 <==> Occurs(groups[..i], m)
    {
      assert groups[..i + 1][..i] == groups[..i];
      OccursGrows(groups, i, m);
      var part, dropped := CleanOne(groups[i], m);
      next := next + part;
      count := count + dropped;
    }
    assert groups[..|groups|] == groups;
    if count == 0 {
      CleanGroupsIdle(groups, m);
    }
  }

  method CleanOne(g: Group, m: Handler -> bool) returns (part: seq<Group>, dropped: nat)
    ensures part == CleanGroup(g, m)
    ensures dropped > 0 <==> exists h :: h in g.handlers && m(h)
  {
    var rest: seq<Handler>;
    rest, dropped := CleanHandlers(g.handlers, m);
    if rest == [] && g.handlers != [] && g.extra == map[] {
      return [], dropped;
    }
    return [g.(handlers := rest)], dropped;
  }

  method CleanHandlers(handlers: seq<Handler>, m: Handler -> bool) returns (rest: seq<Handler>, dropped: nat)
    ensures rest == Keep(handlers, Unmatched(m)) && dropped + |rest| == |handlers|
    ensures dropped == 0 ==> rest == handlers
    ensures dropped > 0 <==> exists h :: h in handlers && m(h)
  {
    rest, dropped := [], 0;
    for i := 0 to |handlers|
      invariant rest == Keep(handlers[..i], Unmatched(m)) && dropped + |rest| == i
      invariant dropped == 0 ==> rest == handlers[..i]
      invariant dropped > 0 <==> exists h :: h in handlers[..i] && m(h)
    {
      assert handlers[..i + 1] == handlers[..i] + [handlers[i]];
      assert handlers[..i + 1][..i] == handlers[..i];
      if m(handlers[i]) {
        dropped := dropped + 1;
      } else {
        rest := rest + [handlers[i]];
      }
    }
    assert handlers[..|handlers|] == handlers;
  }

  method EventHasOwned(spec: Spec, groups: seq<Group>) returns (found: bool)
    ensures found <==> HasOwned(spec, groups)
  {
    for i := 0 to |groups|
      invariant !HasOwned(spec, groups[..i])
    {
      assert groups[..i + 1][..i] == groups[..i];
      var handlers := groups[i].handlers;
      for k := 0 to |handlers|
        invariant forall j :: 0 <= j < k ==> !IsOwned(spec, handlers[j])
      {
        if IsOwned(spec, handlers[k]) {
          InGroup(groups, i, handlers[k]);
          return true;
        }
      }
    }
    assert groups[..|groups|] == groups;
    return false;
  }

  lemma {:induction false} InGroup(groups: seq<Group>, i: nat, h: Handler)
    requires i < |groups| && h in groups[i].handlers
    ensures h in HandlersOf(groups)
  {
    if i < |groups| - 1 {
      InGroup(groups[..|groups| - 1], i, h);
    }
  }
}
