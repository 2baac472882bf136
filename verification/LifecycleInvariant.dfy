/**
 The agreement between the three views of a turn (agent, card, alerts) and the session metadata, and
 the proof that every event keeps it as long as the session's metadata is still held.
 */
module LifecycleInvariant {
  import opened Basics
  import opened PublicModel
  import opened AgentModel
  import opened AlertBook
  import opened TaskCards
  import opened Lifecycle

  ghost function AgentKeys(agents: seq<Agent>): set<SessionKey> {
    set i | 0 <= i < |agents| :: agents[i].key
  }

  /** The agent's turn agrees with its alerts and with the session metadata. */
  ghost predicate TurnOk(cur: CurrentTurn, m: Meta, flags: set<AlertType>) {
    && cur.turn != "" && cur.turn == m.current && m.latestTurn != 0
    && (cur.activity in {ActivityWorking, ActivityAttention} ==> cur.outcome == OutcomeNone)
    && (cur.activity == ActivityError ==> cur.outcome == OutcomeFailed)
    && (cur.outcome != OutcomeNone ==> m.terminal == m.current)
    && (AlertAttention in flags <==> cur.activity == ActivityAttention)
    && (AlertError in flags <==> cur.outcome == OutcomeFailed)
    && (AlertComplete in flags ==> cur.outcome == OutcomeCompleted)
    && (AlertStale in flags ==> cur.freshness == FreshnessStale)
  }

  /** A card of an earlier turn is terminal; the card of the current turn agrees with the agent. */
  ghost predicate CardOk(t: Task, m: Meta, cur: CurrentTurn) {
    if t.key.turn != m.current then Terminal(t.lifecycle)
    else
      && (t.lifecycle == Complete <==> cur.outcome == OutcomeCompleted)
      && (t.lifecycle == Error <==> cur.outcome == OutcomeFailed)
      && (t.attention.Some? ==> t.attention.value.at <= m.latestTurn)
      && (cur.outcome == OutcomeNone ==>
            && (t.lifecycle == Attention <==> cur.activity == ActivityAttention)
            && (t.attention.Some? <==> cur.activity == ActivityAttention))
  }

  ghost predicate AgentsOk(root: Root, sessions: Sessions) {
    && (forall i, j :: 0 <= i < j < |root.agents| ==> root.agents[i].key != root.agents[j].key)
    && (forall i :: 0 <= i < |root.agents| ==>
          var k := root.agents[i].key;
          && k in sessions
          && TurnOk(root.agents[i].cur, sessions[k], Flags(root.alerts, k))
          && AllFor(root.alerts, k, root.agents[i].cur.turn))
  }

  ghost predicate CardsOk(root: Root, sessions: Sessions) {
    && (forall i, j :: 0 <= i < j < |root.tasks| ==> root.tasks[i].key != root.tasks[j].key)
    && (forall j :: 0 <= j < |root.tasks| ==> SessionOf(root.tasks[j]) in AgentKeys(root.agents))
    && (forall i, j :: 0 <= i < |root.agents| && 0 <= j < |root.tasks| && SessionOf(root.tasks[j]) == root.agents[i].key ==>
          root.agents[i].key in sessions && CardOk(root.tasks[j], sessions[root.agents[i].key], root.agents[i].cur))
  }

  ghost predicate Consistent(root: Root, sessions: Sessions) {
    && AgentsOk(root, sessions)
    && CardsOk(root, sessions)
    && Unique(root.alerts)
    && (forall k: SessionKey :: k !in AgentKeys(root.agents) ==> Flags(root.alerts, k) == {})
    && (forall k :: k in sessions && sessions[k].current != "" ==> k in AgentKeys(root.agents))
  }

  // ---------- one session at a time ----------

  ghost predicate DistinctCards(tasks: seq<Task>) {
    forall i, j :: 0 <= i < j < |tasks| ==> tasks[i].key != tasks[j].key
  }

  /** The agreement of agent `i` with its alerts and its session's metadata. */
  ghost predicate LocalTurn(root: Root, i: nat, m: Meta) {
    && i < |root.agents|
    && TurnOk(root.agents[i].cur, m, Flags(root.alerts, root.agents[i].key))
    && AllFor(root.alerts, root.agents[i].key, root.agents[i].cur.turn)
    && Unique(root.alerts)
  }

  /** The agreement seen from one session: agent `i`, its alerts and its cards. */
  ghost predicate Local(root: Root, i: nat, m: Meta) {
    && LocalTurn(root, i, m)
    && DistinctCards(root.tasks)
    && (forall n :: 0 <= n < |root.tasks| && SessionOf(root.tasks[n]) == root.agents[i].key ==>
          CardOk(root.tasks[n], m, root.agents[i].cur))
  }

  /** Of the agents and alerts, only the turn of agent `i` and its alerts moved. */
  ghost predicate Steered(root: Root, next: Root, i: nat) {
    && i < |root.agents| == |next.agents|
    && next.agents == root.agents[i := root.agents[i].(cur := next.agents[i].cur)]
    && SameElsewhere(root.alerts, next.alerts, root.agents[i].key)
  }

  /** Only the turn of agent `i`, its alerts and its session's cards moved, and no card changed its key. */
  ghost predicate Confined(root: Root, next: Root, i: nat) {
    && Steered(root, next, i)
    && |next.tasks| == |root.tasks|
    && (forall n :: 0 <= n < |root.tasks| ==> next.tasks[n].key == root.tasks[n].key)
    && (forall n :: 0 <= n < |root.tasks| && SessionOf(root.tasks[n]) != root.agents[i].key ==> next.tasks[n] == root.tasks[n])
  }

  lemma LocalView(root: Root, sessions: Sessions, i: nat)
    requires Consistent(root, sessions) && i < |root.agents|
    ensures Local(root, i, sessions[root.agents[i].key])
  {
    forall n | 0 <= n < |root.tasks| && SessionOf(root.tasks[n]) == root.agents[i].key
      ensures CardOk(root.tasks[n], sessions[root.agents[i].key], root.agents[i].cur)
    {
    }
  }

  lemma SameAgentKeys(root: Root, next: Root, i: nat)
    requires Steered(root, next, i)
    ensures AgentKeys(next.agents) == AgentKeys(root.agents)
    ensures forall n :: 0 <= n < |next.agents| ==> next.agents[n].key == root.agents[n].key
  {
    assert forall n :: 0 <= n < |next.agents| ==> next.agents[n].key == root.agents[n].key;
  }

  lemma LocalUpdateAgents(root: Root, next: Root, sessions: Sessions, i: nat, m: Meta)
    requires AgentsOk(root, sessions) && Steered(root, next, i) && LocalTurn(next, i, m)
    ensures AgentsOk(next, sessions[root.agents[i].key := m])
  {
    SameAgentKeys(root, next, i);
    var after := sessions[root.agents[i].key := m];
    forall n | 0 <= n < |next.agents|
      ensures next.agents[n].key in after
      ensures TurnOk(next.agents[n].cur, after[next.agents[n].key], Flags(next.alerts, next.agents[n].key))
      ensures AllFor(next.alerts, next.agents[n].key, next.agents[n].cur.turn)
    {
      assert root.agents[n].key in sessions;
    }
  }

  lemma LocalUpdateCards(root: Root, next: Root, sessions: Sessions, i: nat, m: Meta)
    requires AgentsOk(root, sessions) && CardsOk(root, sessions) && Confined(root, next, i) && Local(next, i, m)
    ensures CardsOk(next, sessions[root.agents[i].key := m])
  {
    SameAgentKeys(root, next, i);
    var after := sessions[root.agents[i].key := m];
    forall n, j | 0 <= n < |next.agents| && 0 <= j < |next.tasks| && SessionOf(next.tasks[j]) == next.agents[n].key
      ensures next.agents[n].key in after && CardOk(next.tasks[j], after[next.agents[n].key], next.agents[n].cur)
    {
      assert SessionOf(root.tasks[j]) == root.agents[n].key;
    }
  }

  /** A confined change that keeps the session's own agreement keeps everybody's. */
  lemma LocalUpdate(root: Root, next: Root, sessions: Sessions, i: nat, m: Meta)
    requires Consistent(root, sessions) && Confined(root, next, i) && Local(next, i, m)
    ensures Consistent(next, sessions[root.agents[i].key := m])
  {
    var key := root.agents[i].key;
    SameAgentKeys(root, next, i);
    LocalUpdateAgents(root, next, sessions, i, m);
    LocalUpdateCards(root, next, sessions, i, m);
  }

  // ---------- effects ----------

  lemma WorkingOk(x: Effect, key: SessionKey, at: Time)
    requires Unique(x.alerts) && x.cur.turn != "" && AllFor(x.alerts, key, x.cur.turn)
    ensures Edits(x.alerts, ToWorking(x, key, at).alerts, key, x.cur.turn, {})
  {
    var t := Some(x.cur.turn);
    var cleared := Resolve(Resolve(Resolve(x.alerts, AlertAttention, key, t, at), AlertStale, key, t, at), AlertComplete, key, t, at);
    ThreeResolved(x.alerts, AlertAttention, AlertStale, AlertComplete, key, t.value, at);
    ResolveEdits(cleared, AlertError, key, t.value, t, at);
    assert Flags(x.alerts, key) - {AlertAttention, AlertStale, AlertComplete} - {AlertError} == {};
    EditsTrans(x.alerts, cleared, ToWorking(x, key, at).alerts, key, t.value, Flags(cleared, key), {});
  }

  lemma AttentionOk(x: Effect, key: SessionKey, at: Time)
    requires Unique(x.alerts) && x.cur.turn != "" && AllFor(x.alerts, key, x.cur.turn) && x.cur.outcome == OutcomeNone
    ensures Edits(x.alerts, ToAttention(x, key, at).alerts, key, x.cur.turn,
                  Flags(x.alerts, key) - {AlertStale} + {AlertAttention})
  {
    var t := x.cur.turn;
    ResolveEdits(x.alerts, AlertStale, key, t, Some(t), at);
    UpsertEdits(Resolve(x.alerts, AlertStale, key, Some(t), at), AlertAttention, key, t, at, None, None);
  }

  lemma ThreeResolved(alerts: seq<Alert>, a: AlertType, b: AlertType, c: AlertType, key: SessionKey, turn: string, at: Time)
    requires Unique(alerts) && AllFor(alerts, key, turn)
    ensures Edits(alerts,
                  Resolve(Resolve(Resolve(alerts, a, key, Some(turn), at), b, key, Some(turn), at), c, key, Some(turn), at),
                  key, turn, Flags(alerts, key) - {a, b, c})
  {
    var a1 := Resolve(alerts, a, key, Some(turn), at);
    var a2 := Resolve(a1, b, key, Some(turn), at);
    var a3 := Resolve(a2, c, key, Some(turn), at);
    ResolveEdits(alerts, a, key, turn, Some(turn), at);
    ResolveEdits(a1, b, key, turn, Some(turn), at);
    ResolveEdits(a2, c, key, turn, Some(turn), at);
    EditsTrans(alerts, a1, a2, key, turn, Flags(a1, key), Flags(a2, key));
    EditsTrans(alerts, a2, a3, key, turn, Flags(a2, key), Flags(a3, key));
    assert Flags(alerts, key) - {a} - {b} - {c} == Flags(alerts, key) - {a, b, c};
  }

  lemma CompleteOk(cfg: Config, x: Effect, key: SessionKey, at: Time)
    requires Unique(x.alerts) && x.cur.turn != "" && AllFor(x.alerts, key, x.cur.turn)
    ensures Edits(x.alerts, ToComplete(cfg, x, key, at).alerts, key, x.cur.turn, {AlertComplete})
  {
    var t := Some(x.cur.turn);
    var cleared := Resolve(Resolve(Resolve(x.alerts, AlertAttention, key, t, at), AlertStale, key, t, at), AlertError, key, t, at);
    ThreeResolved(x.alerts, AlertAttention, AlertStale, AlertError, key, t.value, at);
    UpsertEdits(cleared, AlertComplete, key, t.value, at, Some(at + cfg.highVisibility), Some(at + cfg.completeRetention));
    assert Flags(x.alerts, key) - {AlertAttention, AlertStale, AlertError} + {AlertComplete} == {AlertComplete};
    EditsTrans(x.alerts, cleared, ToComplete(cfg, x, key, at).alerts, key, t.value, Flags(cleared, key), {AlertComplete});
  }

  lemma ErrorOk(x: Effect, key: SessionKey, at: Time)
    requires Unique(x.alerts) && x.cur.turn != "" && AllFor(x.alerts, key, x.cur.turn)
    ensures Edits(x.alerts, ToError(x, key, at).alerts, key, x.cur.turn, {AlertError})
  {
    var t := Some(x.cur.turn);
    var cleared := Resolve(Resolve(Resolve(x.alerts, AlertAttention, key, t, at), AlertStale, key, t, at), AlertComplete, key, t, at);
    ThreeResolved(x.alerts, AlertAttention, AlertStale, AlertComplete, key, t.value, at);
    UpsertEdits(cleared, AlertError, key, t.value, at, None, None);
    assert Flags(x.alerts, key) - {AlertAttention, AlertStale, AlertComplete} + {AlertError} == {AlertError};
    EditsTrans(x.alerts, cleared, ToError(x, key, at).alerts, key, t.value, Flags(cleared, key), {AlertError});
  }

  /** Resolving attention and staleness, for the current turn or for all of them. */
  lemma QuietOk(alerts: seq<Alert>, key: SessionKey, turn: string, arg: Option<string>, at: Time)
    requires Unique(alerts) && AllFor(alerts, key, turn) && (arg == None || arg == Some(turn))
    ensures Edits(alerts, Resolve(Resolve(alerts, AlertAttention, key, arg, at), AlertStale, key, arg, at), key, turn,
                  Flags(alerts, key) - {AlertAttention, AlertStale})
  {
    ResolveEdits(alerts, AlertAttention, key, turn, arg, at);
    ResolveEdits(Resolve(alerts, AlertAttention, key, arg, at), AlertStale, key, turn, arg, at);
    assert Flags(alerts, key) - {AlertAttention} - {AlertStale} == Flags(alerts, key) - {AlertAttention, AlertStale};
  }

  /** The metadata after an event of the running turn. */
  function Heard(m: Meta, e: Event): Meta {
    var seen := m.(latestTurn := e.at, latestSession := Max(m.latestSession, e.at));
    if Stopped(e) || e.typ == StopFailure then seen.(terminal := m.current) else seen
  }

  /** The effect fits the session's metadata after it, and touches no other agent's alerts. */
  ghost predicate Fits(x: Effect, y: Effect, key: SessionKey, after: Meta) {
    && y.cur.turn == x.cur.turn
    && Edits(x.alerts, y.alerts, key, x.cur.turn, Flags(y.alerts, key))
    && TurnOk(y.cur, after, Flags(y.alerts, key))
  }

  lemma MoveFits(cfg: Config, x: Effect, key: SessionKey, m: Meta, after: Meta, motion: Motion, at: Time)
    requires Unique(x.alerts) && AllFor(x.alerts, key, x.cur.turn) && TurnOk(x.cur, m, Flags(x.alerts, key))
    requires m.terminal != m.current && after.current == m.current && after.latestTurn != 0
    requires motion in {GoComplete, GoError} ==> after.terminal == after.current
    requires motion != GoRefresh
    ensures Fits(x, Move(cfg, x, key, motion, at), key, after)
  {
    match motion
    case GoWorking => WorkingOk(x, key, at);
    case GoAttention => AttentionOk(x, key, at);
    case GoComplete => CompleteOk(cfg, x, key, at);
    case GoError => ErrorOk(x, key, at);
    case GoIdle => QuietOk(x.alerts, key, x.cur.turn, Some(x.cur.turn), at);
    case GoNowhere =>
  }

  lemma FindAgentIn(agents: seq<Agent>, key: SessionKey)
    ensures key in AgentKeys(agents) <==> FindAgent(agents, key) < |agents|
  {
  }

  // ---------- events ----------

  /** Only one card can be for a given turn, so every other card of the session is for another turn. */
  lemma OtherTurn(tasks: seq<Task>, n: nat, j: nat, turn: string)
    requires n < |tasks| && n != j && DistinctCards(tasks)
    requires j == FindTask(tasks, TaskKey(tasks[n].key.provider, tasks[n].key.session, turn))
    ensures tasks[n].key.turn != turn
  {
  }

  /** The card of the running turn may change in any way that fits; the others keep their lifecycle. */
  lemma CardsFollow(root: Root, i: nat, m: Meta, tasks: seq<Task>, after: Meta, cur: CurrentTurn)
    requires Local(root, i, m) && |tasks| == |root.tasks| && after.current == m.current
    requires forall n :: 0 <= n < |tasks| ==> tasks[n].key == root.tasks[n].key
    requires var j := FindTask(root.tasks, TaskKey(root.agents[i].key.provider, root.agents[i].key.session, m.current));
             && (j < |tasks| ==> CardOk(tasks[j], after, cur))
             && (forall n :: 0 <= n < |tasks| && n != j ==> tasks[n].lifecycle == root.tasks[n].lifecycle)
    ensures forall n :: 0 <= n < |tasks| && SessionOf(tasks[n]) == root.agents[i].key ==> CardOk(tasks[n], after, cur)
  {
    var j := FindTask(root.tasks, TaskKey(root.agents[i].key.provider, root.agents[i].key.session, m.current));
    forall n | 0 <= n < |tasks| && SessionOf(tasks[n]) == root.agents[i].key && n != j ensures CardOk(tasks[n], after, cur) {
      assert CardOk(root.tasks[n], m, root.agents[i].cur);
      OtherTurn(root.tasks, n, j, m.current);
    }
  }

  /** In an agreeing state the branch that keeps an uncleared attention is never taken. */
  lemma StickyUnreachable(root: Root, i: nat, m: Meta, e: Event)
    requires Local(root, i, m) && root.agents[i].key == KeyOf(e)
    requires e.typ in PROGRESS + {ElicitationResult} && e.at >= m.latestTurn
    ensures !Sticky(root.tasks, FindTask(root.tasks, TaskKey(e.provider, e.session, m.current)), e)
  {
    var j := FindTask(root.tasks, TaskKey(e.provider, e.session, m.current));
    if j < |root.tasks| {
      assert CardOk(root.tasks[j], m, root.agents[i].cur);
    }
  }

  /** As far as attention goes, the agent answered the event: a turn that goes on waits exactly when it was asked to. */
  predicate Answers(was: CurrentTurn, cur: CurrentTurn, e: Event) {
    cur.outcome == OutcomeNone ==>
      if AttentionFor(e).Some? then cur.activity == ActivityAttention
      else if e.typ == Notification && e.notification.None? then cur.activity == was.activity && was.outcome == OutcomeNone
      else cur.activity != ActivityAttention
  }

  lemma MoveAnswers(cfg: Config, x: Effect, e: Event, sticky: bool)
    requires WellFormed(e) && e.typ !in {UserPromptSubmit, SessionEnd} && MotionOf(e, sticky) != GoRefresh
    ensures Answers(x.cur, Move(cfg, x, KeyOf(e), MotionOf(e, sticky), e.at).cur, e)
  {
  }

  lemma CardAfterOk(t: Task, m: Meta, was: CurrentTurn, cur: CurrentTurn, e: Event)
    requires CardOk(t, m, was) && Answers(was, cur, e) && e.at >= m.latestTurn && e.typ !in {UserPromptSubmit, SessionEnd}
    requires t.key.turn == m.current
    requires cur.activity == ActivityError ==> cur.outcome == OutcomeFailed
    ensures CardOk(CardAfter(t, cur, e), Heard(m, e), cur)
  {
  }

  lemma TurnCardsOk(root: Root, i: nat, m: Meta, e: Event, cur: CurrentTurn)
    requires Local(root, i, m) && root.agents[i].key == KeyOf(e) && e.at >= m.latestTurn
    requires Answers(root.agents[i].cur, cur, e) && e.typ !in {UserPromptSubmit, SessionEnd}
    requires cur.activity == ActivityError ==> cur.outcome == OutcomeFailed
    ensures var j := FindTask(root.tasks, TaskKey(e.provider, e.session, m.current));
            var tasks := TurnCards(root.tasks, j, cur, e, m.current);
            && (forall n :: 0 <= n < |tasks| ==> tasks[n].key == root.tasks[n].key)
            && (forall n :: 0 <= n < |tasks| && SessionOf(root.tasks[n]) != KeyOf(e) ==> tasks[n] == root.tasks[n])
            && (forall n :: 0 <= n < |tasks| && n != j ==> tasks[n].lifecycle == root.tasks[n].lifecycle)
            && (j < |tasks| ==> CardOk(tasks[j], Heard(m, e), cur))
  {
    var j := FindTask(root.tasks, TaskKey(e.provider, e.session, m.current));
    if j < |root.tasks| {
      assert CardOk(root.tasks[j], m, root.agents[i].cur);
      var moved := if Stopped(e) then Supersede(root.tasks, KeyOf(e), m.current, e.at) else root.tasks;
      CardAfterOk(moved[j], m, root.agents[i].cur, cur, e);
    }
  }

  /** An event of the running turn, as far as agent and alerts go. */
  lemma TurnEventSteers(cfg: Config, root: Root, i: nat, m: Meta, e: Event)
    requires LocalTurn(root, i, m) && WellFormed(e) && i == FindAgent(root.agents, KeyOf(e))
    requires e.typ !in {UserPromptSubmit, SessionEnd} && m.terminal != m.current && e.at >= m.latestTurn
    requires var sticky := Sticky(root.tasks, FindTask(root.tasks, TaskKey(e.provider, e.session, m.current)), e);
             MotionOf(e, sticky) != GoRefresh
    ensures var r := TurnEvent(cfg, root, m, e, m.current);
            && r.ok && r.meta == Heard(m, e)
            && Steered(root, r.root, i) && LocalTurn(r.root, i, r.meta)
            && (r.root.agents[i].cur.activity == ActivityError ==> r.root.agents[i].cur.outcome == OutcomeFailed)
            && Answers(root.agents[i].cur, r.root.agents[i].cur, e)
            && r.root.tasks == TurnCards(root.tasks, FindTask(root.tasks, TaskKey(e.provider, e.session, m.current)),
                                         r.root.agents[i].cur, e, m.current)
  {
    var j := FindTask(root.tasks, TaskKey(e.provider, e.session, m.current));
    var x := Effect(root.agents[i].cur, root.alerts);
    MoveFits(cfg, x, KeyOf(e), m, Heard(m, e), MotionOf(e, Sticky(root.tasks, j, e)), e.at);
    MoveAnswers(cfg, x, e, Sticky(root.tasks, j, e));
  }

  lemma TurnEventLocal(cfg: Config, root: Root, i: nat, m: Meta, e: Event)
    requires Local(root, i, m) && WellFormed(e) && i == FindAgent(root.agents, KeyOf(e))
    requires e.typ !in {UserPromptSubmit, SessionEnd} && m.terminal != m.current
    requires e.at >= m.latestTurn
    ensures var r := TurnEvent(cfg, root, m, e, m.current);
            Confined(root, r.root, i) && Local(r.root, i, r.meta) && r.meta == Heard(m, e)
  {
    if e.typ in PROGRESS + {ElicitationResult} {
      StickyUnreachable(root, i, m, e);
    }
    TurnEventSteers(cfg, root, i, m, e);
    var r := TurnEvent(cfg, root, m, e, m.current);
    TurnCardsOk(root, i, m, e, r.root.agents[i].cur);
    CardsFollow(root, i, m, r.root.tasks, Heard(m, e), r.root.agents[i].cur);
  }

  lemma DegradedStopSteers(cfg: Config, root: Root, i: nat, m: Meta, e: Event)
    requires LocalTurn(root, i, m) && i == FindAgent(root.agents, KeyOf(e))
    requires DegradedStop(e) && e.at >= m.latestTurn && e.at != 0 && root.agents[i].cur.activity != ActivityError
    ensures var r := DegradedStopped(cfg, root, m, e, m.current);
            Steered(root, r.root, i) && LocalTurn(r.root, i, r.meta)
  {
    CompleteOk(cfg, Effect(root.agents[i].cur, root.alerts), KeyOf(e), e.at);
  }

  lemma DegradedStopLocal(cfg: Config, root: Root, i: nat, m: Meta, e: Event)
    requires Local(root, i, m) && WellFormed(e) && i == FindAgent(root.agents, KeyOf(e))
    requires DegradedStop(e) && e.at >= m.latestTurn && root.agents[i].cur.activity != ActivityError
    ensures var r := DegradedStopped(cfg, root, m, e, m.current);
            Confined(root, r.root, i) && Local(r.root, i, r.meta)
  {
    DegradedStopSteers(cfg, root, i, m, e);
    var r := DegradedStopped(cfg, root, m, e, m.current);
    CardsFollow(root, i, m, r.root.tasks, r.meta, r.root.agents[i].cur);
  }

  lemma UnattributedSteers(root: Root, i: nat, m: Meta, e: Event)
    requires LocalTurn(root, i, m) && i == FindAgent(root.agents, KeyOf(e))
    requires root.agents[i].cur.activity in {ActivityWorking, ActivityAttention}
    ensures Steered(root, Unattributed(root, e), i) && LocalTurn(Unattributed(root, e), i, m)
  {
    UpsertEdits(root.alerts, AlertStale, KeyOf(e), root.agents[i].cur.turn, e.at, None, None);
  }

  lemma UnattributedLocal(root: Root, i: nat, m: Meta, e: Event)
    requires Local(root, i, m) && i == FindAgent(root.agents, KeyOf(e))
    requires root.agents[i].cur.activity in {ActivityWorking, ActivityAttention}
    ensures Confined(root, Unattributed(root, e), i) && Local(Unattributed(root, e), i, m)
  {
    UnattributedSteers(root, i, m, e);
    var next := Unattributed(root, e);
    forall n | 0 <= n < |root.tasks| && SessionOf(root.tasks[n]) == KeyOf(e) ensures CardOk(root.tasks[n], m, next.agents[i].cur) {
      assert CardOk(root.tasks[n], m, root.agents[i].cur);
    }
  }

  lemma EndedSteers(root: Root, i: nat, m: Meta, e: Event)
    requires LocalTurn(root, i, m) && i == FindAgent(root.agents, KeyOf(e))
    ensures var r := Ended(root, m, e); Steered(root, r.root, i) && LocalTurn(r.root, i, r.meta)
  {
    QuietOk(root.alerts, KeyOf(e), root.agents[i].cur.turn, None, e.at);
  }

  lemma EndedLocal(root: Root, i: nat, m: Meta, e: Event)
    requires Local(root, i, m) && i == FindAgent(root.agents, KeyOf(e))
    ensures var r := Ended(root, m, e);
            Confined(root, r.root, i) && Local(r.root, i, r.meta)
  {
    EndedSteers(root, i, m, e);
    var r := Ended(root, m, e);
    var j := FindTask(root.tasks, TaskKey(e.provider, e.session, m.current));
    if j < |root.tasks| {
      assert CardOk(root.tasks[j], m, root.agents[i].cur);
    }
    CardsFollow(root, i, m, r.root.tasks, r.meta, EndedTurn(root.agents[i].cur, e.at));
  }
}
