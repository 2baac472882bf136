/**
 Agents and alerts agree in every run that evicts no session, whatever the turns are called: where cards
 may be duplicated by blank turn ids, the agreement rests on the instants of the cards' attention alone.
 */
module ReducerViews {
  import opened Basics
  import opened PublicModel
  import opened AgentModel
  import opened AlertBook
  import opened TaskCards
  import opened Lifecycle
  import opened LifecycleInvariant
  import opened ReducerModel
  import opened ReducerSteps
  import opened ReducerRuns

  /** A card's attention is no later than its session's clock, nor, in the current turn, than the turn's. */
  ghost predicate Dated(t: Task, m: Meta) {
    t.attention.Some? ==>
      t.attention.value.at <= m.latestSession && (t.key.turn == m.current ==> t.attention.value.at <= m.latestTurn)
  }

  ghost predicate CardDated(t: Task, agents: seq<Agent>, sessions: Sessions) {
    SessionOf(t) in AgentKeys(agents) && SessionOf(t) in sessions && Dated(t, sessions[SessionOf(t)])
  }

  ghost predicate Calm(root: Root, sessions: Sessions) {
    && AgentsOk(root, sessions)
    && Unique(root.alerts)
    && (forall k: SessionKey :: k !in AgentKeys(root.agents) ==> Flags(root.alerts, k) == {})
    && (forall k :: k in sessions && sessions[k].current != "" ==> k in AgentKeys(root.agents))
    && (forall t :: t in root.tasks ==> CardDated(t, root.agents, sessions))
  }

  /** Changes to one session's agent, alerts and cards. */
  lemma CalmUpdate(root: Root, next: Root, sessions: Sessions, i: nat, m: Meta)
    requires Calm(root, sessions) && Steered(root, next, i) && LocalTurn(next, i, m)
    requires forall t :: t in next.tasks ==> if SessionOf(t) == root.agents[i].key then Dated(t, m) else t in root.tasks
    ensures Calm(next, sessions[root.agents[i].key := m])
  {
    SameAgentKeys(root, next, i);
    LocalUpdateAgents(root, next, sessions, i, m);
    var key := root.agents[i].key;
    assert key in AgentKeys(root.agents);
    forall t | t in next.tasks ensures CardDated(t, next.agents, sessions[key := m]) {
      if SessionOf(t) != key {
        assert CardDated(t, root.agents, sessions);
      }
    }
  }

  /** Cards that only lost something, marks aside. */
  lemma CalmCards(root: Root, tasks: seq<Task>, sessions: Sessions)
    requires Calm(root, sessions)
    requires forall t :: t in tasks ==>
               exists u :: u in root.tasks && t.key == u.key && (t.attention == u.attention || t.attention.None?)
    ensures Calm(root.(tasks := tasks), sessions)
  {
    forall t | t in tasks ensures CardDated(t, root.agents, sessions) {
      var u :| u in root.tasks && t.key == u.key && (t.attention == u.attention || t.attention.None?);
      assert CardDated(u, root.agents, sessions);
    }
  }

  lemma CalmIndexed(root: Root, tasks: seq<Task>, sessions: Sessions)
    requires Calm(root, sessions) && |tasks| == |root.tasks|
    requires forall n :: 0 <= n < |tasks| ==>
               tasks[n].key == root.tasks[n].key && (tasks[n].attention == root.tasks[n].attention || tasks[n].attention.None?)
    ensures Calm(root.(tasks := tasks), sessions)
  {
    forall t | t in tasks
      ensures exists u :: u in root.tasks && t.key == u.key && (t.attention == u.attention || t.attention.None?)
    {
      var n :| 0 <= n < |tasks| && tasks[n] == t;
      assert root.tasks[n] in root.tasks;
    }
    CalmCards(root, tasks, sessions);
  }

  lemma CalmFiltered(root: Root, p: Task -> bool, sessions: Sessions)
    requires Calm(root, sessions)
    ensures Calm(root.(tasks := Keep(root.tasks, p)), sessions)
  {
    KeepMembers(root.tasks, p);
    CalmCards(root, Keep(root.tasks, p), sessions);
  }

  lemma CalmTouched(root: Root, sessions: Sessions, key: SessionKey, m: Meta)
    requires Calm(root, sessions) && key !in AgentKeys(root.agents) && m.current == ""
    ensures Calm(root, sessions[key := m])
  {
    forall i | 0 <= i < |root.agents| ensures root.agents[i].key != key {
    }
    forall t | t in root.tasks ensures CardDated(t, root.agents, sessions[key := m]) {
      assert CardDated(t, root.agents, sessions);
    }
  }

  // ---------- events of a running session ----------

  /** No card of the session keeps a progress event from clearing its attention. */
  lemma NeverSticky(root: Root, m: Meta, e: Event)
    requires forall t :: t in root.tasks && SessionOf(t) == KeyOf(e) ==> Dated(t, m)
    requires e.typ in PROGRESS + {ElicitationResult} && e.at >= m.latestTurn
    ensures !Sticky(root.tasks, FindTask(root.tasks, TaskKey(e.provider, e.session, m.current)), e)
  {
    var j := FindTask(root.tasks, TaskKey(e.provider, e.session, m.current));
    if j < |root.tasks| {
      var t := root.tasks[j];
      assert t in root.tasks && SessionOf(t) == KeyOf(e) && Dated(t, m);
    }
  }

  /** What an edit of card `j`, and of marks elsewhere, leaves to show. */
  lemma EditedCards(root: Root, next: seq<Task>, key: SessionKey, m: Meta, after: Meta, j: nat)
    requires |next| == |root.tasks| && after.current == m.current
    requires m.latestTurn <= after.latestTurn && m.latestSession <= after.latestSession
    requires forall t :: t in root.tasks && SessionOf(t) == key ==> Dated(t, m)
    requires forall n :: 0 <= n < |next| ==> next[n].key == root.tasks[n].key
    requires forall n :: 0 <= n < |next| && n != j ==> next[n].attention == root.tasks[n].attention
    requires forall n :: 0 <= n < |next| && SessionOf(root.tasks[n]) != key ==> next[n] == root.tasks[n]
    requires j < |next| ==> Dated(next[j], after)
    ensures forall t :: t in next ==> if SessionOf(t) == key then Dated(t, after) else t in root.tasks
  {
    forall t | t in next ensures if SessionOf(t) == key then Dated(t, after) else t in root.tasks {
      var n :| 0 <= n < |next| && next[n] == t;
      var u := root.tasks[n];
      assert u in root.tasks && SessionOf(u) == SessionOf(t);
      if SessionOf(t) == key && n != j {
        assert Dated(u, m);
      }
    }
  }

  lemma TurnEventDated(cfg: Config, root: Root, i: nat, m: Meta, e: Event)
    requires LocalTurn(root, i, m) && WellFormed(e) && i == FindAgent(root.agents, KeyOf(e))
    requires e.typ !in {UserPromptSubmit, SessionEnd} && m.terminal != m.current && e.at >= m.latestTurn
    requires forall t :: t in root.tasks && SessionOf(t) == KeyOf(e) ==> Dated(t, m)
    ensures var r := TurnEvent(cfg, root, m, e, m.current);
            && Steered(root, r.root, i) && LocalTurn(r.root, i, r.meta)
            && forall t :: t in r.root.tasks ==> if SessionOf(t) == KeyOf(e) then Dated(t, r.meta) else t in root.tasks
  {
    if e.typ in PROGRESS + {ElicitationResult} {
      NeverSticky(root, m, e);
    }
    TurnEventSteers(cfg, root, i, m, e);
    var r := TurnEvent(cfg, root, m, e, m.current);
    TurnCardsDated(root, m, e, r.root.agents[i].cur);
    EditedCards(root, r.root.tasks, KeyOf(e), m, r.meta, FindTask(root.tasks, TaskKey(e.provider, e.session, m.current)));
  }

  lemma TurnEventCalm(cfg: Config, root: Root, sessions: Sessions, i: nat, e: Event)
    requires Calm(root, sessions) && WellFormed(e) && i == FindAgent(root.agents, KeyOf(e)) < |root.agents|
    requires KeyOf(e) in sessions && e.typ !in {UserPromptSubmit, SessionEnd}
    requires sessions[KeyOf(e)].terminal != sessions[KeyOf(e)].current && e.at >= sessions[KeyOf(e)].latestTurn
    ensures var m := sessions[KeyOf(e)];
            var r := TurnEvent(cfg, root, m, e, m.current);
            Calm(r.root, sessions[KeyOf(e) := r.meta])
  {
    var m := sessions[KeyOf(e)];
    SessionDated(root, sessions, KeyOf(e));
    TurnEventDated(cfg, root, i, m, e);
    var r := TurnEvent(cfg, root, m, e, m.current);
    CalmUpdate(root, r.root, sessions, i, r.meta);
  }

  lemma SessionDated(root: Root, sessions: Sessions, key: SessionKey)
    requires Calm(root, sessions) && key in sessions
    ensures forall t :: t in root.tasks && SessionOf(t) == key ==> Dated(t, sessions[key])
  {
    forall t | t in root.tasks && SessionOf(t) == key ensures Dated(t, sessions[key]) {
      assert CardDated(t, root.agents, sessions);
    }
  }

  lemma TurnCardsDated(root: Root, m: Meta, e: Event, cur: CurrentTurn)
    requires forall t :: t in root.tasks && SessionOf(t) == KeyOf(e) ==> Dated(t, m)
    requires e.at >= m.latestTurn
    ensures var j := FindTask(root.tasks, TaskKey(e.provider, e.session, m.current));
            var tasks := TurnCards(root.tasks, j, cur, e, m.current);
            && (forall n :: 0 <= n < |tasks| ==> tasks[n].key == root.tasks[n].key)
            && (forall n :: 0 <= n < |tasks| && n != j ==> tasks[n].attention == root.tasks[n].attention)
            && (forall n :: 0 <= n < |tasks| && SessionOf(root.tasks[n]) != KeyOf(e) ==> tasks[n] == root.tasks[n])
            && (j < |tasks| ==> Dated(tasks[j], Heard(m, e)))
  {
    var j := FindTask(root.tasks, TaskKey(e.provider, e.session, m.current));
    if j < |root.tasks| {
      assert root.tasks[j] in root.tasks && SessionOf(root.tasks[j]) == KeyOf(e);
    }
  }

  lemma OtherEventCalm(cfg: Config, root: Root, sessions: Sessions, i: nat, e: Event)
    requires Calm(root, sessions) && WellFormed(e) && e.at > 0 && e.typ != UserPromptSubmit
    requires i == FindAgent(root.agents, KeyOf(e)) < |root.agents| && KeyOf(e) in sessions
    ensures var r := Reduce(cfg, root, sessions[KeyOf(e)], e);
            Calm(r.root, sessions[KeyOf(e) := r.meta])
  {
    var key, m := KeyOf(e), sessions[KeyOf(e)];
    var r := Reduce(cfg, root, m, e);
    assert LocalTurn(root, i, m);
    SessionDated(root, sessions, key);
    if r == Reduced(root, m, true) {
      assert sessions[key := m] == sessions;
    } else if e.typ == SessionEnd {
      EndedCalm(root, sessions, i, e);
    } else if e.turn.None? || e.turn.value == "" {
      UnattributedSteers(root, i, m, e);
      CalmUpdate(root, r.root, sessions, i, m);
    } else if DegradedStop(e) {
      DegradedCalm(cfg, root, sessions, i, e);
    } else {
      TurnEventCalm(cfg, root, sessions, i, e);
    }
  }

  lemma EndedCalm(root: Root, sessions: Sessions, i: nat, e: Event)
    requires Calm(root, sessions) && i == FindAgent(root.agents, KeyOf(e)) < |root.agents| && KeyOf(e) in sessions
    requires e.at > 0 && (sessions[KeyOf(e)].latestSession != 0 ==> e.at >= sessions[KeyOf(e)].latestSession)
    ensures var r := Ended(root, sessions[KeyOf(e)], e); Calm(r.root, sessions[KeyOf(e) := r.meta])
  {
    var key, m := KeyOf(e), sessions[KeyOf(e)];
    SessionDated(root, sessions, key);
    EndedSteers(root, i, m, e);
    var r := Ended(root, m, e);
    EditedCards(root, r.root.tasks, key, m, r.meta, FindTask(root.tasks, TaskKey(e.provider, e.session, m.current)));
    CalmUpdate(root, r.root, sessions, i, r.meta);
  }

  lemma DegradedCalm(cfg: Config, root: Root, sessions: Sessions, i: nat, e: Event)
    requires Calm(root, sessions) && i == FindAgent(root.agents, KeyOf(e)) < |root.agents| && KeyOf(e) in sessions
    requires DegradedStop(e) && e.at >= sessions[KeyOf(e)].latestTurn && e.at != 0
    requires root.agents[i].cur.activity != ActivityError
    ensures var m := sessions[KeyOf(e)];
            var r := DegradedStopped(cfg, root, m, e, m.current); Calm(r.root, sessions[KeyOf(e) := r.meta])
  {
    var key, m := KeyOf(e), sessions[KeyOf(e)];
    SessionDated(root, sessions, key);
    DegradedStopSteers(cfg, root, i, m, e);
    var r := DegradedStopped(cfg, root, m, e, m.current);
    EditedCards(root, r.root.tasks, key, m, r.meta, FindTask(root.tasks, TaskKey(e.provider, e.session, m.current)));
    CalmUpdate(root, r.root, sessions, i, r.meta);
  }

  // ---------- prompts ----------

  /** Any turn may be opened, one that has cards already included. */
  lemma OpenedCalm(cfg: Config, root: Root, sessions: Sessions, e: Event)
    requires Calm(root, sessions) && KeyOf(e) in sessions && WellFormed(e) && e.at > 0 && Opens(sessions[KeyOf(e)], e)
    ensures Calm(OpenedRoot(root, e, e.turn.value),
                 sessions[KeyOf(e) := OpenedMeta(cfg, sessions[KeyOf(e)], e, e.turn.value)])
  {
    var key, turn := KeyOf(e), e.turn.value;
    var m := OpenedMeta(cfg, sessions[key], e, turn);
    var swept := root.(tasks := Keep(root.tasks, Standing(key, turn)));
    CalmFiltered(root, Standing(key, turn), sessions);
    var next := OpenedRoot(root, e, turn);
    var i := FindAgent(root.agents, key);
    FindAgentIn(root.agents, key);
    OpenedDated(swept, sessions, e, m);
    if i < |root.agents| {
      ResolveAllEdits(root.alerts, key, turn, e.at);
      assert Steered(swept, next, i) && LocalTurn(next, i, m);
      CalmUpdate(swept, next, sessions, i, m);
    } else {
      AgentAddedSteers(swept, sessions, key, m, OpenedTurn(e, turn), e.at);
      CalmAdded(swept, next, sessions, key, m);
    }
  }

  /** The guard on a prompt's instant puts it after every attention of its session. */
  lemma OpenedDated(root: Root, sessions: Sessions, e: Event, m: Meta)
    requires Calm(root, sessions) && KeyOf(e) in sessions && e.at > 0 && Opens(sessions[KeyOf(e)], e)
    requires m.latestTurn == e.at && m.latestSession >= e.at
    ensures forall t :: t in root.tasks + [NewTask(e, e.turn.value)] ==>
              if SessionOf(t) == KeyOf(e) then Dated(t, m) else t in root.tasks
  {
    var key := KeyOf(e);
    forall t | t in root.tasks && SessionOf(t) == key ensures Dated(t, m) {
      assert CardDated(t, root.agents, sessions);
      var i := FindAgent(root.agents, key);
      FindAgentIn(root.agents, key);
      assert sessions[key].current != "";
    }
  }

  lemma CalmAdded(root: Root, next: Root, sessions: Sessions, key: SessionKey, m: Meta)
    requires Calm(root, sessions) && key !in AgentKeys(root.agents)
    requires AgentsOk(next, sessions[key := m]) && Unique(next.alerts) && SameElsewhere(root.alerts, next.alerts, key)
    requires AgentKeys(next.agents) == AgentKeys(root.agents) + {key}
    requires forall t :: t in next.tasks ==> if SessionOf(t) == key then Dated(t, m) else t in root.tasks
    ensures Calm(next, sessions[key := m])
  {
    forall t | t in next.tasks ensures CardDated(t, next.agents, sessions[key := m]) {
      if SessionOf(t) != key {
        assert CardDated(t, root.agents, sessions);
      }
    }
  }

  lemma PromptCalm(cfg: Config, root: Root, sessions: Sessions, e: Event)
    requires Calm(root, sessions) && KeyOf(e) in sessions && WellFormed(e) && e.at > 0 && e.typ == UserPromptSubmit
    ensures var r := Reduce(cfg, root, sessions[KeyOf(e)], e);
            Calm(r.root, sessions[KeyOf(e) := r.meta])
  {
    var m := sessions[KeyOf(e)];
    assert sessions[KeyOf(e) := m] == sessions;
    if !HistoricalReplay(root, m, e) && e.turn.Some? && e.turn.value != "" {
      var read := root.(tasks := AcknowledgeTerminal(root.tasks, KeyOf(e), e.at));
      CalmIndexed(root, read.tasks, sessions);
      if Opens(m, e) {
        OpenedCalm(cfg, read, sessions, e);
      }
    }
  }

  lemma ReduceCalm(cfg: Config, root: Root, sessions: Sessions, e: Event)
    requires Calm(root, sessions) && KeyOf(e) in sessions && WellFormed(e) && e.at > 0
    ensures var r := Reduce(cfg, root, sessions[KeyOf(e)], e);
            Calm(r.root, sessions[KeyOf(e) := r.meta])
  {
    var key, i := KeyOf(e), FindAgent(root.agents, KeyOf(e));
    FindAgentIn(root.agents, key);
    if e.typ == UserPromptSubmit {
      PromptCalm(cfg, root, sessions, e);
    } else if i < |root.agents| {
      OtherEventCalm(cfg, root, sessions, i, e);
    } else {
      OrphanEvent(cfg, root, sessions[key], e);
      CalmTouched(root, sessions, key, Reduce(cfg, root, sessions[key], e).meta);
    }
  }

  // ---------- maintenance ----------

  lemma MarkAgentCalm(cfg: Config, root: Root, sessions: Sessions, i: nat, now: Time)
    requires Calm(root, sessions) && i < |root.agents|
    ensures Calm(MarkAgent(cfg, root, i, now), sessions)
  {
    var key := root.agents[i].key;
    if Overdue(cfg, root.agents[i].cur, now) {
      var m, next := sessions[key], MarkAgent(cfg, root, i, now);
      MarkAgentSteers(cfg, root, i, m, now);
      SessionDated(root, sessions, key);
      forall t | t in next.tasks ensures if SessionOf(t) == key then Dated(t, m) else t in root.tasks {
        var n :| 0 <= n < |next.tasks| && next.tasks[n] == t;
        assert root.tasks[n] in root.tasks;
      }
      CalmUpdate(root, next, sessions, i, m);
      assert sessions[key := m] == sessions;
    }
  }

  lemma MarkAgentsCalm(cfg: Config, root: Root, sessions: Sessions, n: nat, now: Time)
    requires Calm(root, sessions) && n <= |root.agents|
    ensures Calm(MarkAgents(cfg, root, n, now), sessions)
  {
    forall r: Root, i: nat | Calm(r, sessions) && i < |r.agents| ensures Calm(MarkAgent(cfg, r, i, now), sessions) {
      MarkAgentCalm(cfg, r, sessions, i, now);
    }
    MarkAgentsInvariant(cfg, root, n, now, (r: Root) => Calm(r, sessions));
  }

  lemma SweptAlertsCalm(root: Root, sessions: Sessions, now: Time)
    requires Calm(root, sessions)
    ensures Calm(root.(alerts := Keep(root.alerts, Lasting(now))), sessions)
  {
    SweptAlertsAgree(root, sessions, now);
    var next := root.(alerts := Keep(root.alerts, Lasting(now)));
    forall t | t in next.tasks ensures CardDated(t, next.agents, sessions) {
      assert CardDated(t, root.agents, sessions);
    }
  }

  lemma TendedCalm(cfg: Config, root: Root, sessions: Sessions, now: Time)
    requires Calm(root, sessions)
    ensures Calm(Tended(cfg, root, now), sessions)
  {
    var marked := MarkAgents(cfg, root, |root.agents|, now);
    MarkAgentsCalm(cfg, root, sessions, |root.agents|, now);
    SweptAlertsCalm(marked, sessions, now);
    CalmFiltered(marked.(alerts := Keep(marked.alerts, Lasting(now))), Kept(cfg, now), sessions);
  }

  // ---------- runs ----------

  /** The input evicts no session and carries an instant after the zero time; turns may have any name. */
  predicate Ordinary(cfg: Config, b: Book, i: Input) {
    i.Submit? ==> !Evicts(cfg, b, i.event) && i.event.at > 0
  }

  ghost predicate OrdinaryRun(tr: Trace) {
    Behaviour(tr) && forall k :: 0 <= k < |tr.inputs| ==> Ordinary(tr.cfg, tr.books[k], tr.inputs[k])
  }

  lemma SubmitCalm(cfg: Config, b: Book, e: Event)
    requires Calm(b.root, b.sessions) && Ordinary(cfg, b, Submit(e)) && WellFormed(e) && e.id !in b.seen
    ensures Calm(Submitted(cfg, b, e).root, Submitted(cfg, b, e).sessions)
  {
    var key := KeyOf(e);
    SubmitPlain(cfg, b, e);
    var sessions := b.sessions[key := MetaFor(b, key)];
    if key in b.sessions {
      assert sessions == b.sessions;
    } else {
      CalmTouched(b.root, b.sessions, key, NEW_META);
    }
    ReduceCalm(cfg, b.root, sessions, e);
    var r := Reduce(cfg, b.root, MetaFor(b, key), e);
    assert sessions[key := r.meta] == b.sessions[key := r.meta];
    RefusedChangesNothing(cfg, b.root, MetaFor(b, key), e);
  }

  lemma RefusedChangesNothing(cfg: Config, root: Root, m: Meta, e: Event)
    ensures !Reduce(cfg, root, m, e).ok ==> Reduce(cfg, root, m, e).root == root
  {
  }

  lemma StepCalm(cfg: Config, b: Book, i: Input)
    requires Calm(b.root, b.sessions) && Ordinary(cfg, b, i)
    ensures Calm(Step(cfg, b, i).root, Step(cfg, b, i).sessions)
  {
    match i
    case Submit(e) =>
      if WellFormed(e) && e.id !in b.seen {
        SubmitCalm(cfg, b, e);
      }
    case Acknowledge(id, target, at) => CalmIndexed(b.root, Acknowledged(b.root, id, target, at).tasks, b.sessions);
    case Maintain(now) => TendedCalm(cfg, b.root, b.sessions, now);
  }

  lemma {:induction false} AlwaysCalm(tr: Trace, k: nat)
    requires OrdinaryRun(tr) && k < |tr.books|
    ensures Calm(tr.books[k].root, tr.books[k].sessions)
  {
    if k > 0 {
      AlwaysCalm(tr, k - 1);
      assert Ordinary(tr.cfg, tr.books[k - 1], tr.inputs[k - 1]);
      StepCalm(tr.cfg, tr.books[k - 1], tr.inputs[k - 1]);
    }
  }

  /** The agreement of agents and alerts, in every run without evictions and with any turn names. */
  lemma ViewsAgreeWithAnyTurnNames(tr: Trace, k: nat)
    requires OrdinaryRun(tr) && k < |tr.books|
    ensures Agreeing(tr.books[k].root)
  {
    AlwaysCalm(tr, k);
    AgreementShows(tr.books[k].root, tr.books[k].sessions);
  }
}
