/** Every reducer step keeps the agreement: events, display acknowledgements and maintenance. */
module ReducerSteps {
  import opened Basics
  import opened PublicModel
  import opened AgentModel
  import opened AlertBook
  import opened TaskCards
  import opened Lifecycle
  import opened LifecycleInvariant
  import opened ReducerModel

  // ---------- changes to the card list ----------

  /** Marks such as `readAt` take no part in the agreement. */
  lemma RemarkedCards(root: Root, tasks: seq<Task>, sessions: Sessions)
    requires Consistent(root, sessions) && |tasks| == |root.tasks|
    requires forall n :: 0 <= n < |tasks| ==>
               && tasks[n].key == root.tasks[n].key
               && tasks[n].lifecycle == root.tasks[n].lifecycle
               && tasks[n].attention == root.tasks[n].attention
    ensures Consistent(root.(tasks := tasks), sessions)
  {
    forall i, n | 0 <= i < |root.agents| && 0 <= n < |tasks| && SessionOf(tasks[n]) == root.agents[i].key
      ensures CardOk(tasks[n], sessions[root.agents[i].key], root.agents[i].cur)
    {
      assert SessionOf(root.tasks[n]) == root.agents[i].key;
    }
  }

  lemma FewerCards(root: Root, p: Task -> bool, sessions: Sessions)
    requires Consistent(root, sessions)
    ensures Consistent(root.(tasks := Keep(root.tasks, p)), sessions)
  {
    var tasks := Keep(root.tasks, p);
    KeepMembers(root.tasks, p);
    KeepDistinct(root.tasks, p, (t: Task) => t.key);
    forall n | 0 <= n < |tasks| ensures exists k :: 0 <= k < |root.tasks| && tasks[n] == root.tasks[k] {
      assert tasks[n] in tasks;
    }
  }

  lemma OneMoreCard(root: Root, t: Task, sessions: Sessions, i: nat)
    requires Consistent(root, sessions) && i < |root.agents| && SessionOf(t) == root.agents[i].key
    requires CardOk(t, sessions[SessionOf(t)], root.agents[i].cur)
    requires forall n :: 0 <= n < |root.tasks| ==> root.tasks[n].key != t.key
    ensures Consistent(root.(tasks := root.tasks + [t]), sessions)
  {
  }

  // ---------- opening a turn ----------

  /** Every live card is for its session's current turn. */
  lemma LiveCardIsCurrent(root: Root, sessions: Sessions, j: nat)
    requires Consistent(root, sessions) && j < |root.tasks|
    ensures var key := SessionOf(root.tasks[j]);
            key in sessions && (Terminal(root.tasks[j].lifecycle) || root.tasks[j].key.turn == sessions[key].current)
  {
    var i := FindAgent(root.agents, SessionOf(root.tasks[j]));
    FindAgentIn(root.agents, SessionOf(root.tasks[j]));
    assert CardOk(root.tasks[j], sessions[root.agents[i].key], root.agents[i].cur);
  }

  /** A prompt that opens a named turn finds no card for it. */
  lemma NewTurnHasNoCard(root: Root, sessions: Sessions, e: Event)
    requires Consistent(root, sessions) && KeyOf(e) in sessions
    requires !HistoricalReplay(root, sessions[KeyOf(e)], e) && Opens(sessions[KeyOf(e)], e) && !Blank(e.turn.value)
    ensures FindTask(root.tasks, TaskKey(e.provider, e.session, e.turn.value)) == |root.tasks|
  {
    var j := FindTask(root.tasks, TaskKey(e.provider, e.session, e.turn.value));
    if j < |root.tasks| {
      LiveCardIsCurrent(root, sessions, j);
    }
  }

  /** A session that has only terminal cards can be given a new turn. */
  lemma AgentReopened(root: Root, sessions: Sessions, i: nat, m: Meta, cur: CurrentTurn, at: Time)
    requires Consistent(root, sessions) && i < |root.agents|
    requires TurnOk(cur, m, {})
    requires forall n :: 0 <= n < |root.tasks| && SessionOf(root.tasks[n]) == root.agents[i].key ==>
               Terminal(root.tasks[n].lifecycle) && root.tasks[n].key.turn != cur.turn
    ensures Consistent(root.(agents := root.agents[i := root.agents[i].(cur := cur)],
                             alerts := ResolveAll(root.alerts, root.agents[i].key, at)),
                       sessions[root.agents[i].key := m])
  {
    var key := root.agents[i].key;
    ResolveAllEdits(root.alerts, key, cur.turn, at);
    var next := root.(agents := root.agents[i := root.agents[i].(cur := cur)], alerts := ResolveAll(root.alerts, key, at));
    LocalUpdate(root, next, sessions, i, m);
  }

  /** A new agent in a new turn, as far as agents and alerts go. */
  lemma AgentAddedSteers(root: Root, sessions: Sessions, key: SessionKey, m: Meta, cur: CurrentTurn, at: Time)
    requires AgentsOk(root, sessions) && Unique(root.alerts) && key !in AgentKeys(root.agents) && TurnOk(cur, m, {})
    ensures var next := root.(agents := root.agents + [Agent(key, cur)], alerts := ResolveAll(root.alerts, key, at));
            && AgentsOk(next, sessions[key := m]) && Unique(next.alerts) && SameElsewhere(root.alerts, next.alerts, key)
            && AgentKeys(next.agents) == AgentKeys(root.agents) + {key}
  {
    ResolveAllEdits(root.alerts, key, cur.turn, at);
    var next := root.(agents := root.agents + [Agent(key, cur)], alerts := ResolveAll(root.alerts, key, at));
    assert next.agents[|root.agents|].key == key;
    assert forall n :: 0 <= n < |root.agents| ==> next.agents[n] == root.agents[n];
  }

  lemma AgentAdded(root: Root, sessions: Sessions, key: SessionKey, m: Meta, cur: CurrentTurn, at: Time)
    requires Consistent(root, sessions) && key !in AgentKeys(root.agents) && TurnOk(cur, m, {})
    ensures Consistent(root.(agents := root.agents + [Agent(key, cur)], alerts := ResolveAll(root.alerts, key, at)),
                       sessions[key := m])
  {
    AgentAddedSteers(root, sessions, key, m, cur, at);
    var next := root.(agents := root.agents + [Agent(key, cur)], alerts := ResolveAll(root.alerts, key, at));
    forall i, n | 0 <= i < |next.agents| && 0 <= n < |next.tasks| && SessionOf(next.tasks[n]) == next.agents[i].key
      ensures CardOk(next.tasks[n], sessions[key := m][next.agents[i].key], next.agents[i].cur)
    {
      assert SessionOf(root.tasks[n]) in AgentKeys(root.agents);
      assert i < |root.agents|;
    }
  }

  /** Once the abandoned cards are gone, a turn without a card meets only finished ones. */
  lemma StandingCards(tasks: seq<Task>, kept: seq<Task>, e: Event, turn: string)
    requires kept == Keep(tasks, Standing(KeyOf(e), turn))
    requires forall n :: 0 <= n < |tasks| ==> tasks[n].key != TaskKey(e.provider, e.session, turn)
    ensures forall n :: 0 <= n < |kept| ==> kept[n].key != TaskKey(e.provider, e.session, turn)
    ensures forall n :: 0 <= n < |kept| && SessionOf(kept[n]) == KeyOf(e) ==>
              Terminal(kept[n].lifecycle) && kept[n].key.turn != turn
  {
    KeepMembers(tasks, Standing(KeyOf(e), turn));
    forall n | 0 <= n < |kept|
      ensures kept[n].key != TaskKey(e.provider, e.session, turn)
      ensures SessionOf(kept[n]) == KeyOf(e) ==> Terminal(kept[n].lifecycle) && kept[n].key.turn != turn
    {
      assert kept[n] in kept;
    }
  }

  lemma OpenedKeeps(cfg: Config, root: Root, sessions: Sessions, e: Event)
    requires Consistent(root, sessions) && KeyOf(e) in sessions && WellFormed(e)
    requires Opens(sessions[KeyOf(e)], e)
    requires FindTask(root.tasks, TaskKey(e.provider, e.session, e.turn.value)) == |root.tasks|
    ensures Consistent(OpenedRoot(root, e, e.turn.value),
                       sessions[KeyOf(e) := OpenedMeta(cfg, sessions[KeyOf(e)], e, e.turn.value)])
  {
    var key, turn := KeyOf(e), e.turn.value;
    var m := OpenedMeta(cfg, sessions[key], e, turn);
    var swept := root.(tasks := Keep(root.tasks, Standing(key, turn)));
    FewerCards(root, Standing(key, turn), sessions);
    StandingCards(root.tasks, swept.tasks, e, turn);
    WithTurnKeeps(swept, sessions, e, m);
    OneMoreCard(WithTurn(swept, e, turn), NewTask(e, turn), sessions[key := m], FindAgent(root.agents, key));
    TargetsAside(WithTurn(swept, e, turn).(tasks := swept.tasks + [NewTask(e, turn)]), OpenedRoot(root, e, turn), sessions[key := m]);
  }

  lemma TargetsAside(a: Root, b: Root, sessions: Sessions)
    requires Consistent(a, sessions) && b == a.(targets := b.targets)
    ensures Consistent(b, sessions)
  {
  }

  lemma WithTurnKeeps(root: Root, sessions: Sessions, e: Event, m: Meta)
    requires Consistent(root, sessions) && e.turn.Some? && e.turn.value != "" && e.at != 0
    requires m.current == e.turn.value && m.latestTurn == e.at
    requires forall n :: 0 <= n < |root.tasks| && SessionOf(root.tasks[n]) == KeyOf(e) ==>
               Terminal(root.tasks[n].lifecycle) && root.tasks[n].key.turn != e.turn.value
    ensures Consistent(WithTurn(root, e, e.turn.value), sessions[KeyOf(e) := m])
  {
    var i := FindAgent(root.agents, KeyOf(e));
    var cur := OpenedTurn(e, e.turn.value);
    FindAgentIn(root.agents, KeyOf(e));
    assert TurnOk(cur, m, {});
    if i < |root.agents| {
      AgentReopened(root, sessions, i, m, cur, e.at);
    } else {
      AgentAdded(root, sessions, KeyOf(e), m, cur, e.at);
    }
  }

  // ---------- events ----------

  lemma PromptKeeps(cfg: Config, root: Root, sessions: Sessions, e: Event)
    requires Consistent(root, sessions) && KeyOf(e) in sessions && WellFormed(e) && e.typ == UserPromptSubmit
    requires e.turn.Some? && e.turn.value != "" ==> !Blank(e.turn.value)
    ensures var r := Reduce(cfg, root, sessions[KeyOf(e)], e);
            Consistent(r.root, sessions[KeyOf(e) := r.meta])
  {
    var m := sessions[KeyOf(e)];
    assert sessions[KeyOf(e) := m] == sessions;
    if !HistoricalReplay(root, m, e) && e.turn.Some? && e.turn.value != "" {
      var read := root.(tasks := AcknowledgeTerminal(root.tasks, KeyOf(e), e.at));
      RemarkedCards(root, read.tasks, sessions);
      if Opens(m, e) {
        NewTurnHasNoCard(root, sessions, e);
        OpenedKeeps(cfg, read, sessions, e);
      }
    }
  }

  lemma ReduceKeeps(cfg: Config, root: Root, sessions: Sessions, e: Event)
    requires Consistent(root, sessions) && KeyOf(e) in sessions && WellFormed(e)
    requires e.typ == UserPromptSubmit && e.turn.Some? && e.turn.value != "" ==> !Blank(e.turn.value)
    ensures var r := Reduce(cfg, root, sessions[KeyOf(e)], e);
            Consistent(r.root, sessions[KeyOf(e) := r.meta])
  {
    var key := KeyOf(e);
    var m := sessions[key];
    assert sessions[key := m] == sessions;
    var i := FindAgent(root.agents, key);
    FindAgentIn(root.agents, key);
    if e.typ == UserPromptSubmit {
      PromptKeeps(cfg, root, sessions, e);
    } else if i < |root.agents| {
      AgentEventKeeps(cfg, root, sessions, e, i);
    } else {
      OrphanEvent(cfg, root, m, e);
      SessionTouched(root, sessions, key, Reduce(cfg, root, m, e).meta);
    }
  }

  lemma SessionTouched(root: Root, sessions: Sessions, key: SessionKey, m: Meta)
    requires Consistent(root, sessions) && key !in AgentKeys(root.agents) && m.current == ""
    ensures Consistent(root, sessions[key := m])
  {
    forall i | 0 <= i < |root.agents| ensures root.agents[i].key != key {
    }
  }

  /** An event of a session that has no agent yet moves at most its session clock. */
  lemma OrphanEvent(cfg: Config, root: Root, m: Meta, e: Event)
    requires e.typ != UserPromptSubmit && m.current == "" && FindAgent(root.agents, KeyOf(e)) == |root.agents|
    ensures var r := Reduce(cfg, root, m, e);
            r.root == root && r.meta.current == ""
  {
  }

  lemma AgentEventKeeps(cfg: Config, root: Root, sessions: Sessions, e: Event, i: nat)
    requires Consistent(root, sessions) && KeyOf(e) in sessions && WellFormed(e) && e.typ != UserPromptSubmit
    requires i == FindAgent(root.agents, KeyOf(e)) < |root.agents|
    ensures var r := Reduce(cfg, root, sessions[KeyOf(e)], e);
            Consistent(r.root, sessions[KeyOf(e) := r.meta])
  {
    var m := sessions[KeyOf(e)];
    var r := Reduce(cfg, root, m, e);
    LocalView(root, sessions, i);
    if r.root != root || r.meta != m {
      AgentEventLocal(cfg, root, i, m, e);
      LocalUpdate(root, r.root, sessions, i, r.meta);
    } else {
      assert sessions[KeyOf(e) := m] == sessions;
    }
  }

  lemma AgentEventLocal(cfg: Config, root: Root, i: nat, m: Meta, e: Event)
    requires Local(root, i, m) && WellFormed(e) && e.typ != UserPromptSubmit && i == FindAgent(root.agents, KeyOf(e))
    requires Reduce(cfg, root, m, e) != Reduced(root, m, true)
    ensures var r := Reduce(cfg, root, m, e);
            Confined(root, r.root, i) && Local(r.root, i, r.meta)
  {
    if e.typ == SessionEnd {
      EndedLocal(root, i, m, e);
    } else if e.turn.None? || e.turn.value == "" {
      UnattributedLocal(root, i, m, e);
    } else if DegradedStop(e) {
      DegradedStopLocal(cfg, root, i, m, e);
    } else {
      TurnEventLocal(cfg, root, i, m, e);
    }
  }

  // ---------- maintenance ----------

  lemma MarkAgentKeeps(cfg: Config, root: Root, sessions: Sessions, i: nat, now: Time)
    requires Consistent(root, sessions) && i < |root.agents|
    ensures Consistent(MarkAgent(cfg, root, i, now), sessions)
  {
    var a := root.agents[i];
    if Overdue(cfg, a.cur, now) {
      var m := sessions[a.key];
      LocalView(root, sessions, i);
      MarkAgentLocal(cfg, root, i, m, now);
      LocalUpdate(root, MarkAgent(cfg, root, i, now), sessions, i, m);
      assert sessions[a.key := m] == sessions;
    }
  }

  lemma AttentionGoesStale(cfg: Config, alerts: seq<Alert>, key: SessionKey, turn: string, now: Time)
    requires Unique(alerts) && AllFor(alerts, key, turn)
    ensures Edits(alerts, Upsert(Resolve(alerts, AlertAttention, key, Some(turn), now), AlertStale, key, Some(turn), now,
                                 None, Some(now + cfg.staleRetention)),
                  key, turn, Flags(alerts, key) - {AlertAttention} + {AlertStale})
  {
    ResolveEdits(alerts, AlertAttention, key, turn, Some(turn), now);
    UpsertEdits(Resolve(alerts, AlertAttention, key, Some(turn), now), AlertStale, key, turn, now,
                None, Some(now + cfg.staleRetention));
  }

  lemma MarkAgentSteers(cfg: Config, root: Root, i: nat, m: Meta, now: Time)
    requires LocalTurn(root, i, m) && Overdue(cfg, root.agents[i].cur, now)
    ensures var next := MarkAgent(cfg, root, i, now); Steered(root, next, i) && LocalTurn(next, i, m)
  {
    var a := root.agents[i];
    if a.cur.activity == ActivityAttention {
      AttentionGoesStale(cfg, root.alerts, a.key, a.cur.turn, now);
    } else {
      UpsertEdits(root.alerts, AlertStale, a.key, a.cur.turn, now, None, Some(now + cfg.staleRetention));
    }
  }

  lemma MarkAgentLocal(cfg: Config, root: Root, i: nat, m: Meta, now: Time)
    requires Local(root, i, m) && Overdue(cfg, root.agents[i].cur, now)
    ensures var next := MarkAgent(cfg, root, i, now);
            Confined(root, next, i) && Local(next, i, m)
  {
    MarkAgentSteers(cfg, root, i, m, now);
    var a, next := root.agents[i], MarkAgent(cfg, root, i, now);
    forall n | 0 <= n < |next.tasks| && SessionOf(next.tasks[n]) == a.key ensures CardOk(next.tasks[n], m, next.agents[i].cur) {
      assert CardOk(root.tasks[n], m, a.cur);
    }
  }

  lemma MarkAgentsKeep(cfg: Config, root: Root, sessions: Sessions, n: nat, now: Time)
    requires Consistent(root, sessions) && n <= |root.agents|
    ensures Consistent(MarkAgents(cfg, root, n, now), sessions)
  {
    forall r: Root, i: nat | Consistent(r, sessions) && i < |r.agents| ensures Consistent(MarkAgent(cfg, r, i, now), sessions) {
      MarkAgentKeeps(cfg, r, sessions, i, now);
    }
    MarkAgentsInvariant(cfg, root, n, now, (r: Root) => Consistent(r, sessions));
  }

  /** Sweeping alerts drops inactive ones and expired notices, never an attention or an error. */
  lemma SweptAlertFlags(alerts: seq<Alert>, now: Time, key: SessionKey)
    ensures var f, g := Flags(alerts, key), Flags(Keep(alerts, Lasting(now)), key);
            g <= f && (AlertAttention in f ==> AlertAttention in g) && (AlertError in f ==> AlertError in g)
    ensures forall turn :: AllFor(alerts, key, turn) ==> AllFor(Keep(alerts, Lasting(now)), key, turn)
  {
    var kept := Keep(alerts, Lasting(now));
    KeepMembers(alerts, Lasting(now));
    forall t | t in Flags(kept, key) ensures t in Flags(alerts, key) {
      var i :| 0 <= i < |kept| && kept[i].active && kept[i].key == key && kept[i].typ == t;
      assert kept[i] in kept;
      var j :| 0 <= j < |alerts| && alerts[j] == kept[i];
    }
    forall t | t in Flags(alerts, key) && t in {AlertAttention, AlertError} ensures t in Flags(kept, key) {
      var i :| 0 <= i < |alerts| && alerts[i].active && alerts[i].key == key && alerts[i].typ == t;
      assert alerts[i] in kept;
      var j :| 0 <= j < |kept| && kept[j] == alerts[i];
    }
    forall turn | AllFor(alerts, key, turn) ensures AllFor(kept, key, turn) {
      forall i | 0 <= i < |kept| && kept[i].active && kept[i].key == key ensures kept[i].turn == Some(turn) {
        assert kept[i] in kept;
      }
    }
  }

  /** Sweeping alerts, as far as agents and alerts go. */
  lemma SweptAlertsAgree(root: Root, sessions: Sessions, now: Time)
    requires AgentsOk(root, sessions) && Unique(root.alerts)
    ensures var alerts := Keep(root.alerts, Lasting(now));
            && AgentsOk(root.(alerts := alerts), sessions) && Unique(alerts)
            && (forall k: SessionKey :: Flags(alerts, k) <= Flags(root.alerts, k))
  {
    var alerts := Keep(root.alerts, Lasting(now));
    forall k: SessionKey
      ensures Flags(alerts, k) <= Flags(root.alerts, k)
      ensures AlertAttention in Flags(root.alerts, k) ==> AlertAttention in Flags(alerts, k)
      ensures AlertError in Flags(root.alerts, k) ==> AlertError in Flags(alerts, k)
      ensures forall turn :: AllFor(root.alerts, k, turn) ==> AllFor(alerts, k, turn)
    {
      SweptAlertFlags(root.alerts, now, k);
    }
    KeepDistinct(root.alerts, Lasting(now), (l: Alert) => (l.typ, l.key, l.turn));
    assert Unique(alerts) by {
      var name := (l: Alert) => (l.typ, l.key, l.turn);
      assert forall i, j :: 0 <= i < j < |alerts| ==> name(alerts[i]) != name(alerts[j]);
    }
  }

  lemma SweptAlertsKeep(root: Root, sessions: Sessions, now: Time)
    requires Consistent(root, sessions)
    ensures Consistent(root.(alerts := Keep(root.alerts, Lasting(now))), sessions)
  {
    SweptAlertsAgree(root, sessions, now);
  }

  lemma MaintainedKeeps(cfg: Config, root: Root, sessions: Sessions, now: Time)
    requires Consistent(root, sessions)
    ensures Consistent(Tended(cfg, root, now), sessions)
  {
    var marked := MarkAgents(cfg, root, |root.agents|, now);
    MarkAgentsKeep(cfg, root, sessions, |root.agents|, now);
    SweptAlertsKeep(marked, sessions, now);
    FewerCards(marked.(alerts := Keep(marked.alerts, Lasting(now))), Kept(cfg, now), sessions);
  }
}
