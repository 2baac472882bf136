/**
 What becomes of finished cards, over every run: evictions and white-space turns included. The laws are about
 cards whose turn is not white space; for the others they fail.
 */
module ReducerFinality {
  import opened Basics
  import opened PublicModel
  import opened AgentModel
  import opened AlertBook
  import opened TaskCards
  import opened Lifecycle
  import opened ReducerModel
  import opened ReducerRuns

  // ---------- a step card by card, from any state ----------

  /** A stop that is allowed to recover earlier errors of its session. */
  predicate Recovers(i: Input, t: Task) {
    && i.Submit? && Stopped(i.event) && !DegradedStop(i.event)
    && KeyOf(i.event) == SessionOf(t) && i.event.turn.Some? && i.event.turn.value != t.key.turn
  }

  /** Read and recovery marks are set once and never moved, and recovery needs its stop. */
  predicate Marks(i: Input, t: Task, u: Task) {
    && u.key == t.key
    && (t.readAt.Some? ==> u.readAt == t.readAt)
    && (u.supersededAt != t.supersededAt ==>
          t.supersededAt.None? && t.lifecycle == Error && Recovers(i, t) && u.supersededAt == Some(i.event.at))
  }

  predicate Newborn(t: Task) {
    t.lifecycle == Working && t.readAt.None? && t.supersededAt.None?
  }

  /** The cards of an event card by card, before any is dropped and the new one is added. */
  function MovedByEvent(cfg: Config, root: Root, m: Meta, e: Event): seq<Task> {
    if e.typ == UserPromptSubmit then
      if HistoricalReplay(root, m, e) || e.turn.None? || e.turn.value == "" then root.tasks
      else AcknowledgeTerminal(root.tasks, KeyOf(e), e.at)
    else Reduce(cfg, root, m, e).root.tasks
  }

  function Moved(cfg: Config, b: Book, i: Input): seq<Task> {
    match i
    case Submit(e) =>
      if WellFormed(e) && e.id !in b.seen then MovedByEvent(cfg, b.root, MetaFor(b, KeyOf(e)), e) else b.root.tasks
    case Acknowledge(id, target, at) => Acknowledged(b.root, id, target, at).tasks
    case Maintain(now) =>
      if MaintenanceNeeded(cfg, b.root, now) then MarkAgents(cfg, b.root, |b.root.agents|, now).tasks else b.root.tasks
  }

  ghost predicate Marked(i: Input, tasks: seq<Task>, moved: seq<Task>) {
    |moved| == |tasks| && forall n :: 0 <= n < |tasks| ==> Marks(i, tasks[n], moved[n])
  }

  lemma TurnCardsMark(tasks: seq<Task>, j: nat, cur: CurrentTurn, e: Event, turn: string)
    requires e.turn == Some(turn) && !DegradedStop(e) && (j < |tasks| ==> tasks[j].key.turn == turn)
    ensures Marked(Submit(e), tasks, TurnCards(tasks, j, cur, e, turn))
  {
  }

  lemma TurnEventMarks(cfg: Config, root: Root, m: Meta, e: Event, turn: string)
    requires e.turn == Some(turn) && !DegradedStop(e)
    ensures Marked(Submit(e), root.tasks, TurnEvent(cfg, root, m, e, turn).root.tasks)
  {
    var i := FindAgent(root.agents, KeyOf(e));
    if i < |root.agents| {
      var j := FindTask(root.tasks, TaskKey(e.provider, e.session, turn));
      var x := Move(cfg, Effect(root.agents[i].cur, root.alerts), KeyOf(e), MotionOf(e, Sticky(root.tasks, j, e)), e.at);
      TurnCardsMark(root.tasks, j, x.cur, e, turn);
    }
  }

  lemma DegradedStopMarks(cfg: Config, root: Root, m: Meta, e: Event, turn: string)
    ensures Marked(Submit(e), root.tasks, DegradedStopped(cfg, root, m, e, turn).root.tasks)
  {
  }

  lemma EndedMarks(root: Root, m: Meta, e: Event)
    ensures Marked(Submit(e), root.tasks, Ended(root, m, e).root.tasks)
  {
  }

  lemma EventMarks(cfg: Config, root: Root, m: Meta, e: Event)
    ensures Marked(Submit(e), root.tasks, MovedByEvent(cfg, root, m, e))
  {
    if e.typ == SessionEnd {
      EndedMarks(root, m, e);
    } else if e.typ != UserPromptSubmit && e.turn.Some? && e.turn.value != "" {
      if DegradedStop(e) {
        DegradedStopMarks(cfg, root, m, e, e.turn.value);
      } else {
        TurnEventMarks(cfg, root, m, e, e.turn.value);
      }
    }
  }

  lemma MaintenanceMarks(cfg: Config, root: Root, n: nat, now: Time)
    requires n <= |root.agents|
    ensures Marked(Maintain(now), root.tasks, MarkAgents(cfg, root, n, now).tasks)
  {
    MarkAgentsInvariant(cfg, root, n, now, (r: Root) => Marked(Maintain(now), root.tasks, r.tasks));
  }

  lemma StepMarks(cfg: Config, b: Book, i: Input)
    ensures Marked(i, b.root.tasks, Moved(cfg, b, i))
  {
    match i
    case Submit(e) => EventMarks(cfg, b.root, MetaFor(b, KeyOf(e)), e);
    case Acknowledge(_, _, _) =>
    case Maintain(now) => MaintenanceMarks(cfg, b.root, |b.root.agents|, now);
  }

  /** After an event, of the cards so moved all that are finished are there, and besides them at most a new one. */
  lemma EventCards(cfg: Config, root: Root, m: Meta, e: Event)
    ensures var r, moved := Reduce(cfg, root, m, e), MovedByEvent(cfg, root, m, e);
            && (forall u :: u in r.root.tasks ==> u in moved || Newborn(u))
            && (forall u :: u in moved && Terminal(u.lifecycle) ==> u in r.root.tasks)
  {
    if e.typ == UserPromptSubmit && !HistoricalReplay(root, m, e) && Opens(m, e) {
      OpeningCards(cfg, root, m, e);
      KeepMembers(AcknowledgeTerminal(root.tasks, KeyOf(e), e.at), Standing(KeyOf(e), e.turn.value));
    }
  }

  /** Every card after a step is a card from before it, or new. */
  lemma CardsComeFromBefore(cfg: Config, b: Book, i: Input, u: Task)
    requires u in Step(cfg, b, i).root.tasks
    ensures u in Moved(cfg, b, i) || Newborn(u)
  {
    match i
    case Submit(e) =>
      EventCards(cfg, b.root, MetaFor(b, KeyOf(e)), e);
    case Acknowledge(_, _, _) =>
    case Maintain(now) => KeepMembers(MarkAgents(cfg, b.root, |b.root.agents|, now).tasks, Kept(cfg, now));
  }

  /**
   From any state whatever: a recovery mark was there before, or is set now, on an unmarked error, by a full
   stop of another turn of its session.
   */
  lemma RecoveryNeedsAStop(cfg: Config, b: Book, i: Input, u: Task)
    requires u in Step(cfg, b, i).root.tasks && u.supersededAt.Some?
    ensures exists t :: t in b.root.tasks && Marks(i, t, u)
  {
    CardsComeFromBefore(cfg, b, i, u);
    StepMarks(cfg, b, i);
    var n :| 0 <= n < |Moved(cfg, b, i)| && Moved(cfg, b, i)[n] == u;
    assert b.root.tasks[n] in b.root.tasks;
  }

  /** A delivery nobody has seen, or an error nothing has recovered. */
  predicate Protected(t: Task) {
    Terminal(t.lifecycle) && (t.readAt.None? || (t.lifecycle == Error && t.supersededAt.None?))
  }

  ghost predicate SameOrStale(now: Time, tasks: seq<Task>, moved: seq<Task>) {
    |moved| == |tasks|
    && forall n :: 0 <= n < |tasks| ==> moved[n] == tasks[n] || (moved[n].lifecycle == Working && moved[n].updatedAt == now)
  }

  lemma MaintenanceAtMostMarksStale(cfg: Config, root: Root, n: nat, now: Time)
    requires n <= |root.agents|
    ensures SameOrStale(now, root.tasks, MarkAgents(cfg, root, n, now).tasks)
  {
    MarkAgentsInvariant(cfg, root, n, now, (r: Root) => SameOrStale(now, root.tasks, r.tasks));
  }

  /** Only a prompt drops cards, and it changes no lifecycle. */
  lemma EventKeepsEnds(cfg: Config, root: Root, m: Meta, e: Event)
    ensures var moved := MovedByEvent(cfg, root, m, e);
            if e.typ == UserPromptSubmit
            then |moved| == |root.tasks| && forall n :: 0 <= n < |moved| ==> moved[n].lifecycle == root.tasks[n].lifecycle
            else moved == Reduce(cfg, root, m, e).root.tasks
  {
  }

  /** From any state whatever, no step drops an unread delivery or an unrecovered error. */
  lemma ProtectedStays(cfg: Config, b: Book, i: Input, n: nat)
    requires Usable(cfg) && n < |b.root.tasks| && Protected(b.root.tasks[n])
    ensures n < |Moved(cfg, b, i)| && Moved(cfg, b, i)[n] in Step(cfg, b, i).root.tasks
  {
    StepMarks(cfg, b, i);
    assert Moved(cfg, b, i)[n] in Moved(cfg, b, i);
    match i
    case Submit(e) =>
      EventCards(cfg, b.root, MetaFor(b, KeyOf(e)), e);
      EventKeepsEnds(cfg, b.root, MetaFor(b, KeyOf(e)), e);
    case Acknowledge(_, _, _) =>
    case Maintain(now) => TendingKeeps(cfg, b.root, now, n);
  }

  lemma TendingKeeps(cfg: Config, root: Root, now: Time, n: nat)
    requires Usable(cfg) && n < |root.tasks| && Protected(root.tasks[n])
    ensures var moved := MarkAgents(cfg, root, |root.agents|, now).tasks;
            n < |moved| && moved[n] in Maintained(cfg, root, now).tasks
  {
    var moved := MarkAgents(cfg, root, |root.agents|, now).tasks;
    MaintenanceAtMostMarksStale(cfg, root, |root.agents|, now);
    KeepMembers(moved, Kept(cfg, now));
    assert moved[n] in moved && !Disposable(cfg, moved[n], now);
  }

  // ---------- the invariant ----------

  function CurOf(agents: seq<Agent>, k: SessionKey): Option<CurrentTurn> {
    var i := FindAgent(agents, k);
    if i < |agents| then Some(agents[i].cur) else None
  }

  function CardKey(k: SessionKey, turn: string): TaskKey {
    TaskKey(k.provider, k.session, turn)
  }

  /** A finished card of a turn that has a proper name. */
  predicate Finished(t: Task, key: TaskKey) {
    t.key == key && !Blank(key.turn) && Terminal(t.lifecycle)
  }

  ghost predicate NoneFinished(tasks: seq<Task>, key: TaskKey) {
    forall t :: t in tasks ==> !Finished(t, key)
  }

  predicate Unfinished(x: Task, y: Task) {
    x.key == y.key && !Blank(y.key.turn) ==> !Terminal(y.lifecycle)
  }

  /** Where a turn has several cards, only the first may be finished. */
  ghost predicate OnlyFirst(tasks: seq<Task>) {
    forall i, j :: 0 <= i < j < |tasks| ==> Unfinished(tasks[i], tasks[j])
  }

  predicate Reflects(cur: CurrentTurn, l: TaskLifecycle) {
    && cur.activity !in {ActivityWorking, ActivityAttention}
    && (l == Complete ==> cur.outcome == OutcomeCompleted) && (l == Error ==> cur.outcome == OutcomeFailed)
  }

  /** A finished card of an agent's turn shows the agent's outcome, and the agent is not at work. */
  ghost predicate Mirrored(root: Root, k: SessionKey) {
    var cur := CurOf(root.agents, k);
    cur.Some? ==> forall t :: t in root.tasks && Finished(t, CardKey(k, cur.value.turn)) ==> Reflects(cur.value, t.lifecycle)
  }

  /** The session's agent is on its turn, and without a terminal mark neither agent nor card is finished. */
  ghost predicate OnTurn(root: Root, k: SessionKey, m: Meta) {
    var cur := CurOf(root.agents, k);
    && cur.Some? && cur.value.turn == m.current
    && (m.terminal != m.current ==>
          cur.value.outcome == OutcomeNone && cur.value.activity != ActivityError && NoneFinished(root.tasks, CardKey(k, m.current)))
  }

  ghost predicate AgentsApart(agents: seq<Agent>) {
    forall i, j :: 0 <= i < j < |agents| ==> agents[i].key != agents[j].key
  }

  ghost predicate Settled(root: Root, sessions: Sessions) {
    && AgentsApart(root.agents) && OnlyFirst(root.tasks)
    && (forall k: SessionKey :: Mirrored(root, k))
    && (forall k :: k in sessions && sessions[k].current != "" ==> OnTurn(root, k, sessions[k]))
  }

  /** A change of one session's agent and cards. */
  lemma SettledUpdate(root: Root, next: Root, sessions: Sessions, key: SessionKey, m: Meta)
    requires Settled(root, sessions) && AgentsApart(next.agents) && OnlyFirst(next.tasks)
    requires forall k: SessionKey :: k != key ==> CurOf(next.agents, k) == CurOf(root.agents, k)
    requires forall t :: t in next.tasks && SessionOf(t) != key ==> t in root.tasks
    requires Mirrored(next, key) && (m.current != "" ==> OnTurn(next, key, m))
    ensures Settled(next, sessions[key := m])
  {
    forall k: SessionKey ensures Mirrored(next, k) {
      if k != key {
        assert Mirrored(root, k);
      }
    }
    var after := sessions[key := m];
    forall k | k in after && after[k].current != "" ensures OnTurn(next, k, after[k]) {
      if k != key {
        assert OnTurn(root, k, sessions[k]);
      }
    }
  }

  lemma SettledFewer(root: Root, sessions: Sessions, fewer: Sessions)
    requires Settled(root, sessions) && forall k :: k in fewer ==> k in sessions && fewer[k] == sessions[k]
    ensures Settled(root, fewer)
  {
  }

  /** Marks such as `readAt` take no part in it. */
  lemma SettledRemarked(root: Root, tasks: seq<Task>, sessions: Sessions)
    requires Settled(root, sessions) && |tasks| == |root.tasks|
    requires forall n :: 0 <= n < |tasks| ==> tasks[n].key == root.tasks[n].key && tasks[n].lifecycle == root.tasks[n].lifecycle
    ensures Settled(root.(tasks := tasks), sessions)
  {
    var next := root.(tasks := tasks);
    forall i, j | 0 <= i < j < |tasks| ensures Unfinished(tasks[i], tasks[j]) {
      assert Unfinished(root.tasks[i], root.tasks[j]);
    }
    SettledCards(root, next, sessions);
  }

  /** Fewer cards, or the same ones under other marks. */
  lemma SettledCards(root: Root, next: Root, sessions: Sessions)
    requires Settled(root, sessions) && next.agents == root.agents && OnlyFirst(next.tasks)
    requires forall t :: t in next.tasks ==> exists v :: v in root.tasks && v.key == t.key && v.lifecycle == t.lifecycle
    ensures Settled(next, sessions)
  {
    forall k: SessionKey ensures Mirrored(next, k) {
      assert Mirrored(root, k);
    }
    forall k | k in sessions && sessions[k].current != "" ensures OnTurn(next, k, sessions[k]) {
      assert OnTurn(root, k, sessions[k]);
    }
  }

  lemma SettledFiltered(root: Root, p: Task -> bool, sessions: Sessions)
    requires Settled(root, sessions)
    ensures Settled(root.(tasks := Keep(root.tasks, p)), sessions)
  {
    KeepMembers(root.tasks, p);
    KeepPairwise(root.tasks, p, (x: Task, y: Task) => Unfinished(x, y));
    SettledCards(root, root.(tasks := Keep(root.tasks, p)), sessions);
  }

  // ---------- cards that keep their end ----------

  /** Finished cards keep their lifecycle, and only the first card of a turn may become finished. */
  ghost predicate Steady(tasks: seq<Task>, moved: seq<Task>) {
    |moved| == |tasks|
    && forall n :: 0 <= n < |tasks| ==> moved[n].key == tasks[n].key && (!Blank(tasks[n].key.turn) ==> SteadyAt(tasks, moved, n))
  }

  predicate SteadyAt(tasks: seq<Task>, moved: seq<Task>, n: nat)
    requires n < |tasks| == |moved|
  {
    if Terminal(tasks[n].lifecycle) then moved[n].lifecycle == tasks[n].lifecycle
    else Terminal(moved[n].lifecycle) ==> FindTask(tasks, tasks[n].key) == n
  }

  lemma SteadyOnlyFirst(tasks: seq<Task>, moved: seq<Task>)
    requires OnlyFirst(tasks) && Steady(tasks, moved)
    ensures OnlyFirst(moved)
  {
    forall i, j | 0 <= i < j < |moved| ensures Unfinished(moved[i], moved[j]) {
      assert Unfinished(tasks[i], tasks[j]);
      if moved[i].key == moved[j].key && !Blank(moved[j].key.turn) {
        assert SteadyAt(tasks, moved, j);
      }
    }
  }

  /** An unfinished first card means that no card of the turn is finished. */
  lemma FirstDecides(tasks: seq<Task>, key: TaskKey)
    requires OnlyFirst(tasks)
    requires var j := FindTask(tasks, key); j < |tasks| ==> !Terminal(tasks[j].lifecycle)
    ensures NoneFinished(tasks, key)
  {
    var j := FindTask(tasks, key);
    forall t | t in tasks ensures !Finished(t, key) {
      var n :| 0 <= n < |tasks| && tasks[n] == t;
      if j < n {
        assert Unfinished(tasks[j], tasks[n]);
      }
    }
  }

  lemma CurOfUpdated(agents: seq<Agent>, key: SessionKey, cur: CurrentTurn)
    requires FindAgent(agents, key) < |agents|
    ensures var i := FindAgent(agents, key);
            var next := agents[i := agents[i].(cur := cur)];
            && CurOf(next, key) == Some(cur)
            && (forall k: SessionKey :: k != key ==> CurOf(next, k) == CurOf(agents, k))
            && (AgentsApart(agents) ==> AgentsApart(next))
  {
    var i := FindAgent(agents, key);
    var next := agents[i := agents[i].(cur := cur)];
    assert forall n :: 0 <= n < |agents| ==> next[n].key == agents[n].key;
    forall k: SessionKey ensures FindAgent(next, k) == FindAgent(agents, k) {
      SameFind(agents, next, k);
    }
  }

  lemma SameFind(a: seq<Agent>, b: seq<Agent>, k: SessionKey)
    requires |a| == |b| && forall n :: 0 <= n < |a| ==> a[n].key == b[n].key
    ensures FindAgent(a, k) == FindAgent(b, k)
  {
  }

  lemma FindAppended(agents: seq<Agent>, a: Agent, k: SessionKey)
    requires a.key != k || FindAgent(agents, k) == |agents|
    ensures var i := FindAgent(agents + [a], k);
            i == if a.key == k || FindAgent(agents, k) < |agents| then FindAgent(agents, k) else |agents| + 1
  {
    var next := agents + [a];
    var i, j := FindAgent(agents, k), FindAgent(next, k);
    assert forall n :: 0 <= n < |agents| ==> next[n] == agents[n];
    assert next[|agents|] == a;
    assert i < |agents| ==> next[i].key == k;
  }

  lemma CurOfAppended(agents: seq<Agent>, key: SessionKey, cur: CurrentTurn)
    requires FindAgent(agents, key) == |agents|
    ensures var next := agents + [Agent(key, cur)];
            && CurOf(next, key) == Some(cur)
            && (forall k: SessionKey :: k != key ==> CurOf(next, k) == CurOf(agents, k))
            && (AgentsApart(agents) ==> AgentsApart(next))
  {
    var next := agents + [Agent(key, cur)];
    FindAppended(agents, Agent(key, cur), key);
    forall k: SessionKey | k != key ensures CurOf(next, k) == CurOf(agents, k) {
      FindAppended(agents, Agent(key, cur), k);
    }
  }

  // ---------- one session's events ----------

  /** What a change of the session's agent and of its cards, card by card, must establish. */
  lemma SettledEvent(root: Root, next: Root, sessions: Sessions, key: SessionKey, cur: CurrentTurn, m: Meta)
    requires Settled(root, sessions) && FindAgent(root.agents, key) < |root.agents|
    requires var i := FindAgent(root.agents, key); next.agents == root.agents[i := root.agents[i].(cur := cur)]
    requires Steady(root.tasks, next.tasks)
    requires forall n :: 0 <= n < |root.tasks| && SessionOf(root.tasks[n]) != key ==> next.tasks[n] == root.tasks[n]
    requires forall t :: t in next.tasks && Finished(t, CardKey(key, cur.turn)) ==> Reflects(cur, t.lifecycle)
    requires m.current != "" ==>
               && cur.turn == m.current
               && (m.terminal != m.current ==>
                     cur.outcome == OutcomeNone && cur.activity != ActivityError && NoneFinished(next.tasks, CardKey(key, m.current)))
    ensures Settled(next, sessions[key := m])
  {
    CurOfUpdated(root.agents, key, cur);
    SteadyOnlyFirst(root.tasks, next.tasks);
    forall t | t in next.tasks && SessionOf(t) != key ensures t in root.tasks {
      var n :| 0 <= n < |next.tasks| && next.tasks[n] == t;
      assert root.tasks[n] in root.tasks;
    }
    SettledUpdate(root, next, sessions, key, m);
  }

  /** A finished card of a turn is its first card. */
  lemma FinishedIsFirst(tasks: seq<Task>, key: TaskKey, t: Task)
    requires OnlyFirst(tasks) && t in tasks && Finished(t, key)
    ensures var j := FindTask(tasks, key); j < |tasks| && tasks[j] == t
  {
    var n :| 0 <= n < |tasks| && tasks[n] == t;
    assert forall j :: 0 <= j < n ==> Unfinished(tasks[j], tasks[n]);
  }

  /** Where an event of an unfinished turn leaves its agent, and a card that follows the agent. */
  lemma MotionEnds(cfg: Config, x: Effect, e: Event, sticky: bool, t: Task)
    requires x.cur.outcome == OutcomeNone && x.cur.activity != ActivityError
    requires WellFormed(e) && e.typ !in {UserPromptSubmit, SessionEnd}
    ensures var cur := Move(cfg, x, KeyOf(e), MotionOf(e, sticky), e.at).cur;
            && cur.turn == x.cur.turn
            && (Stopped(e) || e.typ == StopFailure || (cur.outcome == OutcomeNone && cur.activity != ActivityError))
            && (Terminal(CardAfter(t, cur, e).lifecycle) ==>
                  (Stopped(e) || e.typ == StopFailure) && Reflects(cur, CardAfter(t, cur, e).lifecycle))
  {
  }

  /** An edit of the first card of a turn, and of marks on the session's other cards. */
  ghost predicate Edited(tasks: seq<Task>, next: seq<Task>, key: TaskKey) {
    var j := FindTask(tasks, key);
    && |next| == |tasks|
    && (forall n :: 0 <= n < |tasks| ==> next[n].key == tasks[n].key)
    && (forall n :: 0 <= n < |tasks| && n != j ==> next[n].lifecycle == tasks[n].lifecycle)
    && (forall n :: 0 <= n < |tasks| && SessionOf(tasks[n]) != SessionKey(key.provider, key.session) ==> next[n] == tasks[n])
  }

  lemma TurnCardsEdit(tasks: seq<Task>, cur: CurrentTurn, e: Event, turn: string)
    ensures var j := FindTask(tasks, CardKey(KeyOf(e), turn));
            Edited(tasks, TurnCards(tasks, j, cur, e, turn), CardKey(KeyOf(e), turn))
  {
  }

  lemma FinishedAfterEdit(tasks: seq<Task>, next: seq<Task>, key: TaskKey, t: Task)
    requires OnlyFirst(next) && Edited(tasks, next, key) && t in next && Finished(t, key)
    ensures var j := FindTask(tasks, key); j < |tasks| && next[j] == t
  {
    FinishedIsFirst(next, key, t);
    SameFindTask(tasks, next, key);
  }

  /** The turn's first card may change freely as long as no card of the turn is finished. */
  lemma OpenCardEdited(tasks: seq<Task>, next: seq<Task>, key: TaskKey)
    requires Edited(tasks, next, key) && NoneFinished(tasks, key)
    ensures Steady(tasks, next)
  {
    var j := FindTask(tasks, key);
    assert j < |tasks| ==> tasks[j] in tasks;
  }

  /** An edit that leaves the turn with the given agent and mark. */
  lemma SettledEdit(root: Root, next: Root, sessions: Sessions, key: SessionKey, cur: CurrentTurn, m: Meta)
    requires Settled(root, sessions) && FindAgent(root.agents, key) < |root.agents|
    requires var i := FindAgent(root.agents, key); next.agents == root.agents[i := root.agents[i].(cur := cur)]
    requires cur.turn == m.current && Edited(root.tasks, next.tasks, CardKey(key, m.current)) && Steady(root.tasks, next.tasks)
    requires m.terminal != m.current ==> cur.outcome == OutcomeNone && cur.activity != ActivityError
    requires var j := FindTask(root.tasks, CardKey(key, m.current));
             j < |root.tasks| && Terminal(next.tasks[j].lifecycle) && !Blank(m.current) ==>
               m.terminal == m.current && Reflects(cur, next.tasks[j].lifecycle)
    ensures Settled(next, sessions[key := m])
  {
    SteadyOnlyFirst(root.tasks, next.tasks);
    forall t | t in next.tasks && Finished(t, CardKey(key, m.current)) ensures Reflects(cur, t.lifecycle) && m.terminal == m.current {
      FinishedAfterEdit(root.tasks, next.tasks, CardKey(key, m.current), t);
    }
    SettledEvent(root, next, sessions, key, cur, m);
  }

  /** What an event makes of the root and the session's metadata keeps all in order. */
  ghost predicate Keeps(root: Root, sessions: Sessions, key: SessionKey, next: Root, m: Meta) {
    Settled(next, sessions[key := m]) && Steady(root.tasks, next.tasks)
  }

  lemma NothingKeeps(root: Root, sessions: Sessions, key: SessionKey)
    requires Settled(root, sessions) && key in sessions
    ensures Keeps(root, sessions, key, root, sessions[key])
  {
    assert sessions[key := sessions[key]] == sessions;
  }

  lemma TurnEventKeeps(cfg: Config, root: Root, sessions: Sessions, e: Event)
    requires Settled(root, sessions) && KeyOf(e) in sessions && WellFormed(e) && e.typ !in {UserPromptSubmit, SessionEnd}
    requires e.turn.Some? && e.turn.value != "" && e.turn.value != sessions[KeyOf(e)].terminal && !DegradedStop(e)
    ensures var r := TurnEvent(cfg, root, sessions[KeyOf(e)], e, e.turn.value);
            Keeps(root, sessions, KeyOf(e), r.root, r.meta)
  {
    var key, turn, m := KeyOf(e), e.turn.value, sessions[KeyOf(e)];
    if turn != m.current || (m.latestTurn != 0 && e.at < m.latestTurn) {
      NothingKeeps(root, sessions, key);
    } else {
      assert OnTurn(root, key, m);
      TurnEventEnds(cfg, root, m, e);
      var r := TurnEvent(cfg, root, m, e, turn);
      OpenCardEdited(root.tasks, r.root.tasks, CardKey(key, turn));
      SettledEdit(root, r.root, sessions, key, r.root.agents[FindAgent(root.agents, key)].cur, r.meta);
    }
  }

  lemma TurnEventEnds(cfg: Config, root: Root, m: Meta, e: Event)
    requires OnTurn(root, KeyOf(e), m) && m.current != "" && m.terminal != m.current && !(m.latestTurn != 0 && e.at < m.latestTurn)
    requires WellFormed(e) && e.typ !in {UserPromptSubmit, SessionEnd}
    ensures var r := TurnEvent(cfg, root, m, e, m.current);
            var i, j := FindAgent(root.agents, KeyOf(e)), FindTask(root.tasks, CardKey(KeyOf(e), m.current));
            && |r.root.agents| == |root.agents| && r.meta.current == m.current
            && r.root.agents == root.agents[i := root.agents[i].(cur := r.root.agents[i].cur)]
            && r.root.agents[i].cur.turn == m.current
            && (r.meta.terminal != m.current ==>
                  r.root.agents[i].cur.outcome == OutcomeNone && r.root.agents[i].cur.activity != ActivityError)
            && Edited(root.tasks, r.root.tasks, CardKey(KeyOf(e), m.current))
            && (j < |root.tasks| && Terminal(r.root.tasks[j].lifecycle) ==>
                  r.meta.terminal == m.current && Reflects(r.root.agents[i].cur, r.root.tasks[j].lifecycle))
  {
    var key, turn := KeyOf(e), m.current;
    var i, j := FindAgent(root.agents, key), FindTask(root.tasks, CardKey(key, turn));
    var x, sticky := Effect(root.agents[i].cur, root.alerts), Sticky(root.tasks, j, e);
    var cur := Move(cfg, x, key, MotionOf(e, sticky), e.at).cur;
    var r := TurnEvent(cfg, root, m, e, turn);
    assert r.root.agents == root.agents[i := root.agents[i].(cur := cur)];
    assert r.root.tasks == TurnCards(root.tasks, j, cur, e, turn);
    assert r.meta.current == turn && (r.meta.terminal == turn <==> Stopped(e) || e.typ == StopFailure);
    TurnCardsEdit(root.tasks, cur, e, turn);
    if j < |root.tasks| {
      var t := root.tasks[j];
      assert r.root.tasks[j] == CardAfter(t, cur, e);
      MotionEnds(cfg, x, e, sticky, t);
    } else {
      MotionEnds(cfg, x, e, sticky, NewTask(e, turn));
    }
  }

  lemma SameFindTask(a: seq<Task>, b: seq<Task>, key: TaskKey)
    requires |a| == |b| && forall n :: 0 <= n < |a| ==> a[n].key == b[n].key
    ensures FindTask(a, key) == FindTask(b, key)
  {
  }

  lemma DegradedStopEdits(cfg: Config, root: Root, m: Meta, e: Event, turn: string)
    ensures Edited(root.tasks, DegradedStopped(cfg, root, m, e, turn).root.tasks, CardKey(KeyOf(e), turn))
  {
  }

  lemma DegradedStopKeeps(cfg: Config, root: Root, sessions: Sessions, e: Event)
    requires Settled(root, sessions) && KeyOf(e) in sessions && e.typ == Stop
    requires e.turn.Some? && e.turn.value != "" && e.turn.value != sessions[KeyOf(e)].terminal
    ensures var r := DegradedStopped(cfg, root, sessions[KeyOf(e)], e, e.turn.value);
            Keeps(root, sessions, KeyOf(e), r.root, r.meta)
  {
    var key, turn, m := KeyOf(e), e.turn.value, sessions[KeyOf(e)];
    if turn != m.current || (m.latestTurn != 0 && e.at < m.latestTurn) {
      NothingKeeps(root, sessions, key);
    } else {
      assert OnTurn(root, key, m);
      var r := DegradedStopped(cfg, root, m, e, turn);
      var cur := r.root.agents[FindAgent(root.agents, key)].cur;
      assert cur.turn == turn && cur.outcome == OutcomeCompleted && cur.activity == ActivityIdle;
      DegradedStopEdits(cfg, root, m, e, turn);
      OpenCardEdited(root.tasks, r.root.tasks, CardKey(key, turn));
      SettledEdit(root, r.root, sessions, key, cur, r.meta);
    }
  }

  lemma EndedCardKeepsEnd(t: Task, cur: CurrentTurn, at: Time)
    requires cur.activity == ActivityIdle
    ensures var u := EndedCard(t, cur, at);
            && u.key == t.key
            && (Terminal(u.lifecycle) ==> cur.outcome != OutcomeNone && Reflects(cur, u.lifecycle))
            && (Terminal(t.lifecycle) && Reflects(cur, t.lifecycle) ==> u.lifecycle == t.lifecycle)
  {
  }

  lemma EndedKeeps(root: Root, sessions: Sessions, e: Event)
    requires Settled(root, sessions) && KeyOf(e) in sessions
    ensures var r := Ended(root, sessions[KeyOf(e)], e);
            Keeps(root, sessions, KeyOf(e), r.root, r.meta)
  {
    var key, m := KeyOf(e), sessions[KeyOf(e)];
    var r := Ended(root, m, e);
    var i := FindAgent(root.agents, key);
    assert m.current != "" ==> OnTurn(root, key, m);
    if i == |root.agents| {
      AgentlessKeeps(root, sessions, key, r.meta);
    } else {
      var cur := EndedTurn(root.agents[i].cur, e.at);
      assert Mirrored(root, key);
      if m.current == "" {
        SettledEvent(root, r.root, sessions, key, cur, r.meta);
      } else {
        EndedCards(root, m, e, cur);
        SettledEdit(root, r.root, sessions, key, cur, r.meta);
      }
    }
  }

  lemma AgentlessKeeps(root: Root, sessions: Sessions, key: SessionKey, m: Meta)
    requires Settled(root, sessions) && m.current == ""
    ensures Keeps(root, sessions, key, root, m)
  {
    assert Mirrored(root, key);
    SettledUpdate(root, root, sessions, key, m);
  }

  /** A session end keeps the lifecycle of a finished card of the running turn. */
  lemma EndedCards(root: Root, m: Meta, e: Event, cur: CurrentTurn)
    requires m.current != "" && OnTurn(root, KeyOf(e), m) && Mirrored(root, KeyOf(e))
    requires cur == EndedTurn(root.agents[FindAgent(root.agents, KeyOf(e))].cur, e.at)
    ensures var next := Ended(root, m, e).root.tasks;
            var j := FindTask(root.tasks, CardKey(KeyOf(e), m.current));
            && Edited(root.tasks, next, CardKey(KeyOf(e), m.current)) && Steady(root.tasks, next)
            && (j < |root.tasks| && Terminal(next[j].lifecycle) ==> m.terminal == m.current && Reflects(cur, next[j].lifecycle))
  {
    var j := FindTask(root.tasks, CardKey(KeyOf(e), m.current));
    if j < |root.tasks| {
      var t := root.tasks[j];
      assert t in root.tasks;
      assert Finished(t, t.key) ==> Reflects(cur, t.lifecycle);
      EndedCardKeepsEnd(t, cur, e.at);
    }
  }

  lemma UnattributedKeeps(root: Root, sessions: Sessions, e: Event)
    requires Settled(root, sessions) && KeyOf(e) in sessions
    ensures Keeps(root, sessions, KeyOf(e), Unattributed(root, e), sessions[KeyOf(e)])
  {
    var key, m, next := KeyOf(e), sessions[KeyOf(e)], Unattributed(root, e);
    var i := FindAgent(root.agents, key);
    if i < |root.agents| && root.agents[i].cur.activity in {ActivityWorking, ActivityAttention} {
      assert Mirrored(root, key) && (m.current != "" ==> OnTurn(root, key, m));
      SettledEvent(root, next, sessions, key, root.agents[i].cur.(freshness := FreshnessStale), m);
    } else {
      NothingKeeps(root, sessions, key);
    }
  }

  // ---------- prompts ----------

  lemma NoFinishedCardYet(root: Root, m: Meta, e: Event)
    requires OnlyFirst(root.tasks) && !HistoricalReplay(root, m, e) && e.turn.Some?
    ensures NoneFinished(root.tasks, CardKey(KeyOf(e), e.turn.value))
  {
    if !Blank(e.turn.value) {
      FirstDecides(root.tasks, CardKey(KeyOf(e), e.turn.value));
    }
  }

  /** A read mark is all that a prompt puts on the cards that are there. */
  lemma ReadSettled(root: Root, sessions: Sessions, e: Event)
    requires Settled(root, sessions)
    ensures var read := AcknowledgeTerminal(root.tasks, KeyOf(e), e.at);
            Settled(root.(tasks := read), sessions) && Steady(root.tasks, read)
  {
    SettledRemarked(root, AcknowledgeTerminal(root.tasks, KeyOf(e), e.at), sessions);
  }

  /** The session's agent after the opening; the others are as they were. */
  lemma OpenedAgents(root: Root, e: Event, turn: string)
    ensures var agents := OpenedRoot(root, e, turn).agents;
            && CurOf(agents, KeyOf(e)) == Some(OpenedTurn(e, turn))
            && (forall k: SessionKey :: k != KeyOf(e) ==> CurOf(agents, k) == CurOf(root.agents, k))
            && (AgentsApart(root.agents) ==> AgentsApart(agents))
  {
    if FindAgent(root.agents, KeyOf(e)) < |root.agents| {
      CurOfUpdated(root.agents, KeyOf(e), OpenedTurn(e, turn));
    } else {
      CurOfAppended(root.agents, KeyOf(e), OpenedTurn(e, turn));
    }
  }

  lemma OpenedSettled(cfg: Config, root: Root, sessions: Sessions, m: Meta, e: Event)
    requires Settled(root, sessions) && e.turn.Some? && NoneFinished(root.tasks, CardKey(KeyOf(e), e.turn.value))
    ensures Settled(OpenedRoot(root, e, e.turn.value), sessions[KeyOf(e) := OpenedMeta(cfg, m, e, e.turn.value)])
  {
    var key, turn := KeyOf(e), e.turn.value;
    var swept, next := root.(tasks := Keep(root.tasks, Standing(key, turn))), OpenedRoot(root, e, turn);
    SettledFiltered(root, Standing(key, turn), sessions);
    KeepMembers(root.tasks, Standing(key, turn));
    OpenedAgents(root, e, turn);
    UnfinishedAppended(swept.tasks, NewTask(e, turn));
    assert NoneFinished(next.tasks, CardKey(key, turn));
    SettledUpdate(swept, next, sessions, key, OpenedMeta(cfg, m, e, turn));
  }

  lemma UnfinishedAppended(tasks: seq<Task>, t: Task)
    requires OnlyFirst(tasks) && !Terminal(t.lifecycle)
    ensures OnlyFirst(tasks + [t])
  {
  }

  lemma PromptSettled(cfg: Config, root: Root, sessions: Sessions, e: Event)
    requires Settled(root, sessions) && KeyOf(e) in sessions && e.typ == UserPromptSubmit
    ensures var r := Reduce(cfg, root, sessions[KeyOf(e)], e); Settled(r.root, sessions[KeyOf(e) := r.meta])
    ensures Steady(root.tasks, MovedByEvent(cfg, root, sessions[KeyOf(e)], e))
  {
    var key, m := KeyOf(e), sessions[KeyOf(e)];
    NothingKeeps(root, sessions, key);
    if !HistoricalReplay(root, m, e) && e.turn.Some? && e.turn.value != "" {
      ReadSettled(root, sessions, e);
      if Opens(m, e) {
        NoFinishedCardYet(root, m, e);
        var read := root.(tasks := AcknowledgeTerminal(root.tasks, key, e.at));
        SameUnderMarks(root.tasks, read.tasks, CardKey(key, e.turn.value));
        OpenedSettled(cfg, read, sessions, m, e);
      }
    }
  }

  lemma SameUnderMarks(tasks: seq<Task>, read: seq<Task>, key: TaskKey)
    requires NoneFinished(tasks, key) && |read| == |tasks|
    requires forall n :: 0 <= n < |tasks| ==> read[n].key == tasks[n].key && read[n].lifecycle == tasks[n].lifecycle
    ensures NoneFinished(read, key)
  {
    forall t | t in read ensures !Finished(t, key) {
      var n :| 0 <= n < |read| && read[n] == t;
      assert tasks[n] in tasks && !Finished(tasks[n], key);
    }
  }

  /** Every event keeps everything in order, and no finished card changes its lifecycle. */
  lemma ReduceSettled(cfg: Config, root: Root, sessions: Sessions, e: Event)
    requires Settled(root, sessions) && KeyOf(e) in sessions && WellFormed(e)
    ensures var r := Reduce(cfg, root, sessions[KeyOf(e)], e); Settled(r.root, sessions[KeyOf(e) := r.meta])
    ensures Steady(root.tasks, MovedByEvent(cfg, root, sessions[KeyOf(e)], e))
  {
    var m := sessions[KeyOf(e)];
    NothingKeeps(root, sessions, KeyOf(e));
    if e.typ == UserPromptSubmit {
      PromptSettled(cfg, root, sessions, e);
    } else if e.typ == SessionEnd {
      EndedKeeps(root, sessions, e);
    } else if e.turn.None? || e.turn.value == "" {
      UnattributedKeeps(root, sessions, e);
    } else if e.turn.value != m.terminal {
      if DegradedStop(e) {
        DegradedStopKeeps(cfg, root, sessions, e);
      } else {
        TurnEventKeeps(cfg, root, sessions, e);
      }
    }
  }

  // ---------- maintenance ----------

  /** An agent that went stale was at work, so no card of its turn was finished. */
  lemma MarkAgentSettled(cfg: Config, root: Root, sessions: Sessions, i: nat, now: Time)
    requires Settled(root, sessions) && i < |root.agents|
    ensures Settled(MarkAgent(cfg, root, i, now), sessions)
    ensures forall n :: 0 <= n < |root.tasks| && Terminal(root.tasks[n].lifecycle) && !Blank(root.tasks[n].key.turn) ==>
              MarkAgent(cfg, root, i, now).tasks[n] == root.tasks[n]
  {
    var a, next := root.agents[i], MarkAgent(cfg, root, i, now);
    if Overdue(cfg, a.cur, now) {
      assert FindAgent(root.agents, a.key) == i;
      assert Mirrored(root, a.key);
      assert forall n :: 0 <= n < |root.tasks| && Terminal(root.tasks[n].lifecycle) && !Blank(root.tasks[n].key.turn) ==>
          root.tasks[n] in root.tasks && root.tasks[n].key != CardKey(a.key, a.cur.turn);
      StaleCardsSettled(root, next, sessions, i, now);
    }
  }

  lemma StaleCardsSettled(root: Root, next: Root, sessions: Sessions, i: nat, now: Time)
    requires Settled(root, sessions) && i < |root.agents| && FindAgent(root.agents, root.agents[i].key) == i
    requires root.agents[i].cur.activity in {ActivityWorking, ActivityAttention}
    requires next.agents == root.agents[i := root.agents[i].(cur := StaleTurn(root.agents[i].cur))]
    requires next.tasks == StaleCards(root.tasks, CardKey(root.agents[i].key, root.agents[i].cur.turn), now)
    requires forall n :: 0 <= n < |root.tasks| && Terminal(root.tasks[n].lifecycle) && !Blank(root.tasks[n].key.turn) ==>
               next.tasks[n] == root.tasks[n]
    ensures Settled(next, sessions)
  {
    var key, cur := root.agents[i].key, root.agents[i].cur;
    assert Steady(root.tasks, next.tasks);
    assert forall t :: t in next.tasks && t.key == CardKey(key, cur.turn) ==> t.lifecycle == Working;
    if key in sessions {
      var m := sessions[key];
      assert m.current != "" ==> OnTurn(root, key, m);
      SettledEvent(root, next, sessions, key, StaleTurn(cur), m);
      assert sessions[key := m] == sessions;
    } else {
      SettledEvent(root, next, sessions, key, StaleTurn(cur), NEW_META);
      SettledFewer(next, sessions[key := NEW_META], sessions);
    }
  }

  ghost predicate FinishedKept(tasks: seq<Task>, moved: seq<Task>) {
    && |moved| == |tasks|
    && forall n :: 0 <= n < |tasks| && Terminal(tasks[n].lifecycle) && !Blank(tasks[n].key.turn) ==> moved[n] == tasks[n]
  }

  lemma MarkAgentsSettled(cfg: Config, root: Root, sessions: Sessions, n: nat, now: Time)
    requires Settled(root, sessions) && n <= |root.agents|
    ensures var r := MarkAgents(cfg, root, n, now); Settled(r, sessions) && FinishedKept(root.tasks, r.tasks)
  {
    forall r: Root, i: nat | Settled(r, sessions) && FinishedKept(root.tasks, r.tasks) && i < |r.agents|
      ensures Settled(MarkAgent(cfg, r, i, now), sessions) && FinishedKept(root.tasks, MarkAgent(cfg, r, i, now).tasks)
    {
      MarkAgentSettled(cfg, r, sessions, i, now);
    }
    MarkAgentsInvariant(cfg, root, n, now, (r: Root) => Settled(r, sessions) && FinishedKept(root.tasks, r.tasks));
  }

  lemma TendedSettled(cfg: Config, root: Root, sessions: Sessions, now: Time)
    requires Settled(root, sessions)
    ensures Settled(Tended(cfg, root, now), sessions)
  {
    var marked := MarkAgents(cfg, root, |root.agents|, now);
    MarkAgentsSettled(cfg, root, sessions, |root.agents|, now);
    SettledFiltered(marked, Kept(cfg, now), sessions);
    AlertsAside(marked.(tasks := Keep(marked.tasks, Kept(cfg, now))), Swept(cfg, marked, now), sessions);
  }

  lemma AlertsAside(a: Root, b: Root, sessions: Sessions)
    requires Settled(a, sessions) && b == a.(alerts := b.alerts)
    ensures Settled(b, sessions)
  {
    forall k: SessionKey ensures Mirrored(b, k) {
      assert Mirrored(a, k);
    }
    forall k | k in sessions && sessions[k].current != "" ensures OnTurn(b, k, sessions[k]) {
      assert OnTurn(a, k, sessions[k]);
    }
  }

  // ---------- steps and runs ----------

  lemma {:induction false} EvictionShrinks(t: Table, max: nat)
    ensures forall k :: k in Evict(t, max).sessions ==> k in t.sessions && Evict(t, max).sessions[k] == t.sessions[k]
    decreases |t.order|
  {
    if |t.order| > max {
      EvictionShrinks(Table(t.sessions - {t.order[0]}, t.order[1..]), max);
    }
  }

  ghost predicate Orderly(b: Book) {
    Settled(b.root, b.sessions)
  }

  /** Evicting a session's metadata does no harm: it only leaves fewer sessions to be right about. */
  lemma SubmitOrderly(cfg: Config, b: Book, e: Event)
    requires Orderly(b) && WellFormed(e) && e.id !in b.seen
    ensures Orderly(Submitted(cfg, b, e)) && Steady(b.root.tasks, MovedByEvent(cfg, b.root, MetaFor(b, KeyOf(e)), e))
  {
    var key := KeyOf(e);
    var grown := b.sessions[key := MetaFor(b, key)];
    if key in b.sessions {
      assert grown == b.sessions;
    } else {
      AgentlessKeeps(b.root, b.sessions, key, NEW_META);
    }
    var t := Enrolled(cfg, Table(b.sessions, b.order), key);
    EvictionShrinks(Table(b.sessions[key := NEW_META], b.order + [key]), cfg.maxSessions);
    assert forall k :: k in t.sessions ==> k in grown && t.sessions[k] == grown[k];
    ReduceSettled(cfg, b.root, grown, e);
    var r := Reduce(cfg, b.root, MetaFor(b, key), e);
    SettledFewer(b.root, grown, t.sessions);
    SettledFewer(r.root, grown[key := r.meta], Submitted(cfg, b, e).sessions);
  }

  lemma AcknowledgedOrderly(root: Root, sessions: Sessions, id: TaskId, target: SessionKey, at: Time)
    requires Settled(root, sessions)
    ensures var next := Acknowledged(root, id, target, at); Settled(next, sessions) && Steady(root.tasks, next.tasks)
  {
    SettledRemarked(root, Acknowledged(root, id, target, at).tasks, sessions);
  }

  lemma StepOrderly(cfg: Config, b: Book, i: Input)
    requires Orderly(b)
    ensures Orderly(Step(cfg, b, i)) && Steady(b.root.tasks, Moved(cfg, b, i))
  {
    match i
    case Submit(e) =>
      if WellFormed(e) && e.id !in b.seen {
        SubmitOrderly(cfg, b, e);
      }
    case Acknowledge(id, target, at) => AcknowledgedOrderly(b.root, b.sessions, id, target, at);
    case Maintain(now) =>
      TendedSettled(cfg, b.root, b.sessions, now);
      MarkAgentsSettled(cfg, b.root, b.sessions, |b.root.agents|, now);
      MaintenanceAtMostMarksStale(cfg, b.root, |b.root.agents|, now);
      MaintenanceMarks(cfg, b.root, |b.root.agents|, now);
  }

  lemma EmptyOrderly()
    ensures Orderly(EMPTY_BOOK)
  {
  }

  /** What holds at first and is carried over by each step holds throughout. */
  lemma {:induction false} Carried(books: seq<Book>, inputs: seq<Input>, next: (Book, Input) -> Book, holds: Book -> bool, k: nat)
    requires k < |books| == |inputs| + 1 && holds(books[0])
    requires forall n :: 0 <= n < |inputs| ==> books[n + 1] == next(books[n], inputs[n])
    requires forall b: Book, i: Input :: holds(b) ==> holds(next(b, i))
    ensures holds(books[k])
  {
    if k > 0 {
      Carried(books, inputs, next, holds, k - 1);
    }
  }

  lemma AlwaysOrderly(tr: Trace, k: nat)
    requires Behaviour(tr) && k < |tr.books|
    ensures Orderly(tr.books[k])
  {
    EmptyOrderly();
    var next, holds := (b: Book, i: Input) => Step(tr.cfg, b, i), (b: Book) => Orderly(b);
    forall b: Book, i: Input | holds(b) ensures holds(next(b, i)) {
      StepOrderly(tr.cfg, b, i);
    }
    Carried(tr.books, tr.inputs, next, holds, k);
  }

  /** There is a finished card with this key. */
  predicate HasFinished(b: Book, key: TaskKey) {
    FindTerminal(b.root.tasks, key) < |b.root.tasks|
  }

  function FinishedCard(b: Book, key: TaskKey): Task
    requires HasFinished(b, key)
  {
    b.root.tasks[FindTerminal(b.root.tasks, key)]
  }

  /** It is the only one. */
  lemma FinishedIsUnique(b: Book, key: TaskKey, t: Task)
    requires Orderly(b) && t in b.root.tasks && Finished(t, key)
    ensures HasFinished(b, key) && FinishedCard(b, key) == t
  {
    var n :| 0 <= n < |b.root.tasks| && b.root.tasks[n] == t;
    var j := FindTerminal(b.root.tasks, key);
    assert j <= n;
    assert j < n ==> Unfinished(b.root.tasks[j], b.root.tasks[n]);
  }

  /** The step is a maintenance pass, and the finished card's time is up. */
  predicate Expires(cfg: Config, b: Book, i: Input, key: TaskKey) {
    HasFinished(b, key) && i.Maintain? && Disposable(cfg, FinishedCard(b, key), i.now)
  }

  /** From any orderly state a finished card leaves exactly when it expires; until then only its marks may change. */
  lemma StepKeepsEnd(cfg: Config, b: Book, i: Input, key: TaskKey)
    requires Orderly(b) && !Blank(key.turn) && HasFinished(b, key)
    ensures HasFinished(Step(cfg, b, i), key) <==> !Expires(cfg, b, i, key)
    ensures !Expires(cfg, b, i, key) ==>
              var t, u := FinishedCard(b, key), FinishedCard(Step(cfg, b, i), key);
              u.lifecycle == t.lifecycle && Marks(i, t, u)
  {
    if Expires(cfg, b, i, key) {
      ExpiredLeaves(cfg, b, i.now, key);
    } else {
      var n, moved := FindTerminal(b.root.tasks, key), Moved(cfg, b, i);
      EndedStays(cfg, b, i, n);
      StepMarks(cfg, b, i);
      StepOrderly(cfg, b, i);
      FinishedIsUnique(Step(cfg, b, i), key, moved[n]);
    }
  }

  lemma EndedStays(cfg: Config, b: Book, i: Input, n: nat)
    requires Orderly(b) && n < |b.root.tasks| && Terminal(b.root.tasks[n].lifecycle) && !Blank(b.root.tasks[n].key.turn)
    requires i.Maintain? ==> !Disposable(cfg, b.root.tasks[n], i.now)
    ensures n < |Moved(cfg, b, i)| && Moved(cfg, b, i)[n].lifecycle == b.root.tasks[n].lifecycle
    ensures Moved(cfg, b, i)[n] in Step(cfg, b, i).root.tasks
  {
    StepOrderly(cfg, b, i);
    assert SteadyAt(b.root.tasks, Moved(cfg, b, i), n);
    assert Moved(cfg, b, i)[n] in Moved(cfg, b, i);
    match i
    case Submit(e) => EventCards(cfg, b.root, MetaFor(b, KeyOf(e)), e);
    case Acknowledge(_, _, _) =>
    case Maintain(now) =>
      MarkAgentsSettled(cfg, b.root, b.sessions, |b.root.agents|, now);
      KeepMembers(MarkAgents(cfg, b.root, |b.root.agents|, now).tasks, Kept(cfg, now));
  }

  lemma ExpiredLeaves(cfg: Config, b: Book, now: Time, key: TaskKey)
    requires Orderly(b) && !Blank(key.turn) && Expires(cfg, b, Maintain(now), key)
    ensures !HasFinished(Step(cfg, b, Maintain(now)), key)
  {
    var i, after, j := Maintain(now), Step(cfg, b, Maintain(now)), FindTerminal(b.root.tasks, key);
    var moved := MarkAgents(cfg, b.root, |b.root.agents|, now).tasks;
    StepOrderly(cfg, b, i);
    assert MaintenanceNeeded(cfg, b.root, now) && Moved(cfg, b, i) == moved;
    MarkAgentsSettled(cfg, b.root, b.sessions, |b.root.agents|, now);
    KeepMembers(moved, Kept(cfg, now));
    if HasFinished(after, key) {
      var u := FinishedCard(after, key);
      assert u in after.root.tasks;
      var n :| 0 <= n < |moved| && moved[n] == u;
      EndedBefore(b.root.tasks, moved, n, j);
      assert false;
    }
  }

  lemma EndedBefore(tasks: seq<Task>, moved: seq<Task>, n: nat, j: nat)
    requires OnlyFirst(tasks) && Steady(tasks, moved) && n < |tasks| && j < |tasks|
    requires Terminal(moved[n].lifecycle) && Finished(tasks[j], moved[n].key)
    ensures n == j && moved[n].lifecycle == tasks[n].lifecycle
  {
    assert SteadyAt(tasks, moved, n);
    assert tasks[n].key == tasks[j].key;
  }

  lemma StepKeepsProtected(cfg: Config, b: Book, i: Input, t: Task)
    requires Usable(cfg) && Orderly(b) && t in b.root.tasks && Protected(t) && !Blank(t.key.turn)
    ensures exists u :: u in Step(cfg, b, i).root.tasks && Marks(i, t, u) && u.lifecycle == t.lifecycle
  {
    var n :| 0 <= n < |b.root.tasks| && b.root.tasks[n] == t;
    ProtectedStays(cfg, b, i, n);
    StepMarks(cfg, b, i);
    StepOrderly(cfg, b, i);
    assert SteadyAt(b.root.tasks, Moved(cfg, b, i), n);
  }

  /** In every run, no step takes an unread delivery or an unrecovered error away, or changes what it says. */
  lemma ProtectedCardSurvives(tr: Trace, k: nat, t: Task)
    requires Behaviour(tr) && k < |tr.inputs| && t in tr.books[k].root.tasks && Protected(t) && !Blank(t.key.turn)
    ensures exists u :: u in tr.books[k + 1].root.tasks && Marks(tr.inputs[k], t, u) && u.lifecycle == t.lifecycle
  {
    AlwaysOrderly(tr, k);
    StepKeepsProtected(tr.cfg, tr.books[k], tr.inputs[k], t);
  }

  /** The finished card of `b` is in `c`, saying the same and bearing the same marks. */
  predicate StillThere(b: Book, c: Book, key: TaskKey) {
    && HasFinished(b, key) && HasFinished(c, key)
    && var t, u := FinishedCard(b, key), FinishedCard(c, key);
       && u.lifecycle == t.lifecycle
       && (t.readAt.Some? ==> u.readAt == t.readAt)
       && (t.supersededAt.Some? ==> u.supersededAt == t.supersededAt)
  }

  /** From `b` to `c`, a finished card stays as it is or expires. */
  predicate KeepsEnd(cfg: Config, b: Book, i: Input, c: Book, key: TaskKey) {
    HasFinished(b, key) ==> StillThere(b, c, key) || Expires(cfg, b, i, key)
  }

  lemma EachStepKeeps(tr: Trace, k: nat, key: TaskKey)
    requires Behaviour(tr) && k < |tr.inputs| && !Blank(key.turn)
    ensures KeepsEnd(tr.cfg, tr.books[k], tr.inputs[k], tr.books[k + 1], key)
  {
    AlwaysOrderly(tr, k);
    OneStepKeeps(tr.cfg, tr.books[k], tr.inputs[k], key);
  }

  lemma OneStepKeeps(cfg: Config, b: Book, i: Input, key: TaskKey)
    requires Orderly(b) && !Blank(key.turn)
    ensures KeepsEnd(cfg, b, i, Step(cfg, b, i), key)
  {
    if HasFinished(b, key) {
      StepKeepsEnd(cfg, b, i, key);
    }
  }

  /** Somewhere from `i` on and before `j` the card was still there, and expired. */
  ghost predicate Expired(cfg: Config, books: seq<Book>, inputs: seq<Input>, i: nat, j: nat, key: TaskKey)
    requires i <= j <= |inputs| < |books|
  {
    exists k :: i <= k < j && StillThere(books[i], books[k], key) && Expires(cfg, books[k], inputs[k], key)
  }

  lemma {:induction false} ThereUntilExpiry(cfg: Config, books: seq<Book>, inputs: seq<Input>, i: nat, j: nat, key: TaskKey)
    requires i <= j <= |inputs| < |books| && HasFinished(books[i], key)
    requires forall k :: i <= k < j ==> KeepsEnd(cfg, books[k], inputs[k], books[k + 1], key)
    ensures StillThere(books[i], books[j], key) || Expired(cfg, books, inputs, i, j, key)
  {
    if i < j {
      ThereUntilExpiry(cfg, books, inputs, i, j - 1, key);
      assert KeepsEnd(cfg, books[j - 1], inputs[j - 1], books[j - 1 + 1], key);
    }
  }

  /**
   In every run: once complete or failed, read or not, a turn's card is there with its lifecycle, its read mark and
   its recovery mark, until a maintenance pass finds its time up. Nothing puts it back to work.
   */
  lemma TerminalIsFinal(tr: Trace, i: nat, j: nat, key: TaskKey)
    requires Behaviour(tr) && i <= j < |tr.books| && !Blank(key.turn) && HasFinished(tr.books[i], key)
    ensures || StillThere(tr.books[i], tr.books[j], key)
            || (exists k :: i <= k < j && StillThere(tr.books[i], tr.books[k], key)
                            && Expires(tr.cfg, tr.books[k], tr.inputs[k], key))
  {
    forall k | i <= k < j ensures KeepsEnd(tr.cfg, tr.books[k], tr.inputs[k], tr.books[k + 1], key) {
      EachStepKeeps(tr, k, key);
    }
    ThereUntilExpiry(tr.cfg, tr.books, tr.inputs, i, j, key);
  }

  /** The card of `b` is read in `c` and, if it is an error, recovered. */
  predicate Seen(b: Book, c: Book, key: TaskKey) {
    StillThere(b, c, key) && var u := FinishedCard(c, key); u.readAt.Some? && (u.lifecycle == Error ==> u.supersededAt.Some?)
  }

  /** In every run: a finished card is still there, saying the same, or was read and, if it failed, recovered. */
  lemma DeliveredUntilSeen(tr: Trace, i: nat, j: nat, key: TaskKey)
    requires Behaviour(tr) && i <= j < |tr.books| && !Blank(key.turn) && HasFinished(tr.books[i], key)
    ensures StillThere(tr.books[i], tr.books[j], key) || exists k :: i <= k < j && Seen(tr.books[i], tr.books[k], key)
  {
    TerminalIsFinal(tr, i, j, key);
    if k :| i <= k < j && StillThere(tr.books[i], tr.books[k], key) && Expires(tr.cfg, tr.books[k], tr.inputs[k], key) {
      assert Seen(tr.books[i], tr.books[k], key);
    }
  }

  /** In every run, from any card with a recovery mark: the stop that set it. */
  lemma {:induction false} RecoveredByAStop(tr: Trace, k: nat, u: Task)
    requires Behaviour(tr) && k < |tr.books| && u in tr.books[k].root.tasks && u.supersededAt.Some?
    ensures exists p :: 0 <= p < k && Recovers(tr.inputs[p], u) && u.supersededAt == Some(tr.inputs[p].event.at)
  {
    if k > 0 {
      RecoveryNeedsAStop(tr.cfg, tr.books[k - 1], tr.inputs[k - 1], u);
      var t :| t in tr.books[k - 1].root.tasks && Marks(tr.inputs[k - 1], t, u);
      if t.supersededAt == u.supersededAt {
        RecoveredByAStop(tr, k - 1, t);
      } else {
        assert Recovers(tr.inputs[k - 1], u);
      }
    }
  }

  // ---------- where finality ends ----------

  /** There is a finished card with this key, whatever the turn is called. */
  ghost predicate Retained(tasks: seq<Task>, key: TaskKey) {
    exists t :: t in tasks && t.key == key && Terminal(t.lifecycle)
  }

  /** The session's running turn has no terminal mark, and yet a finished card: its next events rewrite that card. */
  ghost predicate Exposed(root: Root, k: SessionKey, m: Meta) {
    m.current != "" && m.terminal != m.current && Retained(root.tasks, CardKey(k, m.current))
  }

  /** A prompt that opens a turn exposes a finished card exactly when the turn is white space and has one. */
  lemma OpeningExposesIff(cfg: Config, root: Root, m: Meta, e: Event)
    requires OnlyFirst(root.tasks) && e.typ == UserPromptSubmit && !HistoricalReplay(root, m, e) && Opens(m, e)
    ensures var r := Reduce(cfg, root, m, e);
            Exposed(r.root, KeyOf(e), r.meta) <==> Blank(e.turn.value) && Retained(root.tasks, CardKey(KeyOf(e), e.turn.value))
  {
    var key, turn := CardKey(KeyOf(e), e.turn.value), e.turn.value;
    OpeningCards(cfg, root, m, e);
    OpeningRetains(root.tasks, AcknowledgeTerminal(root.tasks, KeyOf(e), e.at), KeyOf(e), turn, NewTask(e, turn));
    assert Reduce(cfg, root, m, e).meta == OpenedMeta(cfg, m, e, turn);
    if !Blank(turn) {
      NoFinishedCardYet(root, m, e);
      assert forall t :: t in root.tasks ==> !Finished(t, key);
    }
  }

  lemma OpeningRetains(tasks: seq<Task>, read: seq<Task>, k: SessionKey, turn: string, last: Task)
    requires |read| == |tasks| && !Terminal(last.lifecycle)
    requires forall n :: 0 <= n < |tasks| ==> read[n].key == tasks[n].key && read[n].lifecycle == tasks[n].lifecycle
    ensures Retained(Keep(read, Standing(k, turn)) + [last], CardKey(k, turn)) <==> Retained(tasks, CardKey(k, turn))
  {
    var kept := Keep(read, Standing(k, turn));
    KeepMembers(read, Standing(k, turn));
    if t :| t in tasks && t.key == CardKey(k, turn) && Terminal(t.lifecycle) {
      var n :| 0 <= n < |tasks| && tasks[n] == t;
      assert read[n] in kept + [last];
    }
    if t :| t in kept + [last] && t.key == CardKey(k, turn) && Terminal(t.lifecycle) {
      var n :| 0 <= n < |read| && read[n] == t;
      assert tasks[n] in tasks;
    }
  }

  /** In every run, only turns named by white space are ever exposed. */
  lemma OnlyBlankExposed(tr: Trace, k: nat, key: SessionKey)
    requires Behaviour(tr) && k < |tr.books| && key in tr.books[k].sessions
    requires Exposed(tr.books[k].root, key, tr.books[k].sessions[key])
    ensures Blank(tr.books[k].sessions[key].current)
  {
    AlwaysOrderly(tr, k);
    var b := tr.books[k];
    var m := b.sessions[key];
    assert OnTurn(b.root, key, m);
    var t :| t in b.root.tasks && t.key == CardKey(key, m.current) && Terminal(t.lifecycle);
    assert !Finished(t, CardKey(key, m.current));
  }
}
