/**
 What the reducer must do with an input, in terms of the input's own fields and of what can be seen in the state
 before and after it.
 */
module ReducerAnswers {
  import opened Basics
  import opened PublicModel
  import opened AgentModel
  import opened AlertBook
  import opened TaskCards
  import opened Lifecycle
  import opened LifecycleInvariant
  import opened ReducerModel
  import opened ReducerSteps
  import opened ReducerRuns

  // ---------- a card shows what its agent is doing ----------

  /**
   In every regular run: the card of an agent's turn is complete or failed exactly when the turn is; until then it
   calls for attention exactly when the agent waits for the user, and otherwise it is at work.
   */
  lemma CardShowsAgent(tr: Trace, k: nat, i: nat, n: nat)
    requires RegularRun(tr) && k < |tr.books|
    requires i < |tr.books[k].root.agents| && n < |tr.books[k].root.tasks|
    requires var a := tr.books[k].root.agents[i];
             tr.books[k].root.tasks[n].key == TaskKey(a.key.provider, a.key.session, a.cur.turn)
    ensures var cur, t := tr.books[k].root.agents[i].cur, tr.books[k].root.tasks[n];
            && (cur.outcome == OutcomeCompleted <==> t.lifecycle == Complete)
            && (cur.outcome == OutcomeFailed <==> t.lifecycle == Error)
            && (cur.outcome == OutcomeNone && cur.activity == ActivityAttention <==> t.lifecycle == Attention)
            && (cur.outcome == OutcomeNone && cur.activity in {ActivityWorking, ActivityIdle} <==> t.lifecycle == Working)
            && (t.lifecycle == Attention ==> t.attention.Some?) && (t.lifecycle == Working ==> t.attention.None?)
  {
    AlwaysSane(tr, k);
    var b := tr.books[k];
    assert CardOk(b.root.tasks[n], b.sessions[b.root.agents[i].key], b.root.agents[i].cur);
  }

  // ---------- events of the running turn ----------

  /** The event asks the user for something; in a mode where nobody can be asked, Codex's permission requests do not. */
  predicate AsksUser(e: Event) {
    || e.typ == AskUserQuestion || e.typ == Elicitation
    || (e.typ == PermissionRequest && (e.provider == Claude || !e.silent))
    || (e.typ == Notification && e.notification.Some? && e.notification.value != IdlePrompt)
  }

  /** A Claude stop that gives both counts, one of them positive. */
  predicate OwesWork(e: Event) {
    && e.typ == Stop && e.provider == Claude && e.background.Some? && e.crons.Some?
    && (e.background.value > 0 || e.crons.value > 0)
  }

  predicate Works(e: Event) {
    || e.typ in {PreToolUse, PostToolUse, PostToolUseFailure, PermissionDenied, SubagentStart, SubagentStop,
                 TaskCreated, TaskCompleted, ElicitationResult}
    || (e.typ == PermissionRequest && e.provider == Codex && e.silent)
    || OwesWork(e)
  }

  predicate Finishes(e: Event) {
    e.typ == Stop && !OwesWork(e)
  }

  predicate Fails(e: Event) {
    e.typ == StopFailure
  }

  predicate Rests(e: Event) {
    e.typ == Notification && e.notification == Some(IdlePrompt)
  }

  predicate SaysNothing(e: Event) {
    e.typ == Notification && e.notification.None?
  }

  /** What the card is said to wait for. */
  predicate Expected(e: Event, kind: AttentionKind) {
    && (e.typ == PermissionRequest ==> kind == ApprovalNeeded) && (e.typ == AskUserQuestion ==> kind == QuestionWaiting)
    && (e.typ == Elicitation ==> kind == ElicitationWaiting) && (e.typ == Notification ==> kind == ProviderActionRequired)
  }

  /** What the user has to see to after a failure. */
  predicate FailureShown(a: Option<TaskAttention>, e: Event) {
    && (e.error in {Some(AuthenticationFailed), Some(OrgNotAllowed)} ==> a == Some(TaskAttention(AuthenticationRequired, e.at)))
    && (e.error == Some(BillingError) ==> a == Some(TaskAttention(BillingRequired, e.at)))
    && (e.error == Some(RateLimit) ==> a == Some(TaskAttention(RateLimited, e.at)))
    && (e.error in {None, Some(OtherError)} ==> a.None?)
  }

  /** The event is for the running, unfinished turn of agent `i`, whose card is number `n`, and it is not an old one. */
  ghost predicate Hears(root: Root, m: Meta, e: Event, i: nat, n: nat) {
    && WellFormed(e) && e.typ !in {UserPromptSubmit, SessionEnd}
    && i < |root.agents| && root.agents[i].key == KeyOf(e)
    && n < |root.tasks| && root.tasks[n].key == TaskKey(e.provider, e.session, m.current)
    && e.turn == Some(m.current) && m.terminal != m.current && m.endedAt == 0 && e.at >= m.latestTurn
  }

  ghost predicate TurnAnswered(was: CurrentTurn, cur: CurrentTurn, e: Event) {
    && (AsksUser(e) ==> cur.activity == ActivityAttention && cur.outcome == OutcomeNone)
    && (Works(e) ==> cur.activity == ActivityWorking && cur.outcome == OutcomeNone)
    && (Rests(e) ==> cur.activity == ActivityIdle && cur.outcome == OutcomeNone)
    && (Finishes(e) ==> cur.activity == ActivityIdle && cur.outcome == OutcomeCompleted && cur.completedAt == Some(e.at))
    && (Fails(e) ==> cur.activity == ActivityError && cur.outcome == OutcomeFailed)
    && (if SaysNothing(e) then cur == was else cur.freshness == FreshnessFresh && cur.updatedAt == e.at)
    && cur.turn == was.turn && cur.startedAt == was.startedAt
  }

  ghost predicate CardAnswered(was: Task, t: Task, e: Event) {
    && (AsksUser(e) ==> t.lifecycle == Attention && t.attention.Some? && t.attention.value.at == e.at
                        && Expected(e, t.attention.value.kind))
    && (Works(e) || Rests(e) ==> t.lifecycle == Working && t.attention.None?)
    && (Finishes(e) ==> t.lifecycle == Complete && t.attention.None?)
    && (Fails(e) ==> t.lifecycle == Error && FailureShown(t.attention, e))
    && (SaysNothing(e) ==> t.lifecycle == was.lifecycle && t.attention == was.attention)
    && t.readAt == was.readAt && t.supersededAt == was.supersededAt && t.startedAt == was.startedAt && t.updatedAt == e.at
  }

  /** A full stop, other than Claude's without its counts, recovers the session's earlier errors. */
  predicate Recovered(t: Task, u: Task, e: Event) {
    if && e.typ == Stop && !OwesWork(e) && !(e.provider == Claude && (e.background.None? || e.crons.None?))
       && t.key.provider == e.provider && t.key.session == e.session && t.lifecycle == Error && t.supersededAt.None?
    then u == t.(supersededAt := Some(e.at))
    else u == t
  }

  ghost predicate Answered(root: Root, next: Root, e: Event, i: nat, n: nat) {
    && i < |root.agents| == |next.agents| && n < |root.tasks| == |next.tasks|
    && TurnAnswered(root.agents[i].cur, next.agents[i].cur, e)
    && CardAnswered(root.tasks[n], next.tasks[n], e)
    && (forall k :: 0 <= k < |root.agents| && k != i ==> next.agents[k] == root.agents[k])
    && (forall k :: 0 <= k < |root.tasks| && k != n ==> Recovered(root.tasks[k], next.tasks[k], e))
  }

  /** What the session remembers of the event; a finished turn is marked as over. */
  predicate Noticed(m: Meta, after: Meta, e: Event) {
    && after.current == m.current && after.endedAt == m.endedAt && after.oldTurns == m.oldTurns && after.latestTurn == e.at
    && after.terminal == (if Finishes(e) || Fails(e) then m.current else m.terminal)
    && (if e.typ == Stop && e.provider == Claude && (e.background.None? || e.crons.None?)
        then after.latestSession == m.latestSession else after.latestSession == Max(m.latestSession, e.at))
  }

  /** Each event of a running turn is of exactly one of these kinds. */
  lemma KindsAreExhaustive(e: Event)
    requires WellFormed(e) && e.typ !in {UserPromptSubmit, SessionEnd}
    ensures AsksUser(e) || Works(e) || Rests(e) || Finishes(e) || Fails(e) || SaysNothing(e)
  {
  }

  lemma MotionAnswers(cfg: Config, x: Effect, e: Event)
    requires WellFormed(e) && e.typ !in {UserPromptSubmit, SessionEnd} && x.cur.outcome == OutcomeNone
    requires !(e.typ == Stop && e.provider == Claude && (e.background.None? || e.crons.None?))
    ensures TurnAnswered(x.cur, Move(cfg, x, KeyOf(e), MotionOf(e, false), e.at).cur, e)
  {
  }

  lemma CardAnswers(t: Task, was: CurrentTurn, cur: CurrentTurn, m: Meta, e: Event)
    requires WellFormed(e) && e.typ !in {UserPromptSubmit, SessionEnd} && TurnAnswered(was, cur, e)
    requires t.key.turn == m.current && CardOk(t, m, was) && was.outcome == OutcomeNone && e.at >= m.latestTurn
    requires was.activity != ActivityError
    ensures CardAnswered(t, CardAfter(t, cur, e), e)
  {
  }

  lemma TurnEventAnswers(cfg: Config, root: Root, i: nat, m: Meta, e: Event, n: nat)
    requires Local(root, i, m) && Hears(root, m, e, i, n) && i == FindAgent(root.agents, KeyOf(e))
    requires !(e.typ == Stop && e.provider == Claude && (e.background.None? || e.crons.None?))
    ensures Answered(root, TurnEvent(cfg, root, m, e, m.current).root, e, i, n)
  {
    var key := TaskKey(e.provider, e.session, m.current);
    assert FindTask(root.tasks, key) == n;
    if e.typ in PROGRESS + {ElicitationResult} {
      StickyUnreachable(root, i, m, e);
    }
    var x := Effect(root.agents[i].cur, root.alerts);
    assert CardOk(root.tasks[n], m, x.cur);
    assert MotionOf(e, Sticky(root.tasks, n, e)) == MotionOf(e, false);
    MotionAnswers(cfg, x, e);
    var cur := Move(cfg, x, KeyOf(e), MotionOf(e, false), e.at).cur;
    CardAnswers(root.tasks[n], x.cur, cur, m, e);
    CardsAnswer(root.tasks, n, cur, e, m.current);
  }

  lemma CardsAnswer(tasks: seq<Task>, n: nat, cur: CurrentTurn, e: Event, turn: string)
    requires n < |tasks| && DistinctCards(tasks) && tasks[n].key == TaskKey(e.provider, e.session, turn)
    requires !(e.typ == Stop && e.provider == Claude && (e.background.None? || e.crons.None?))
    ensures var next := TurnCards(tasks, n, cur, e, turn);
            && next[n] == CardAfter(tasks[n], cur, e)
            && (forall k :: 0 <= k < |tasks| && k != n ==> Recovered(tasks[k], next[k], e))
  {
    forall k | 0 <= k < |tasks| && k != n ensures SessionOf(tasks[k]) == KeyOf(e) ==> tasks[k].key.turn != turn {
      assert k < n ==> tasks[k].key != tasks[n].key;
      assert n < k ==> tasks[n].key != tasks[k].key;
    }
  }

  lemma DegradedStopAnswers(cfg: Config, root: Root, i: nat, m: Meta, e: Event, n: nat)
    requires Local(root, i, m) && Hears(root, m, e, i, n) && i == FindAgent(root.agents, KeyOf(e))
    requires e.typ == Stop && e.provider == Claude && (e.background.None? || e.crons.None?)
    ensures Answered(root, DegradedStopped(cfg, root, m, e, m.current).root, e, i, n)
  {
    var key := TaskKey(e.provider, e.session, m.current);
    assert FindTask(root.tasks, key) == n;
    assert CardOk(root.tasks[n], m, root.agents[i].cur);
  }

  lemma Settles(b: Book, e: Event, i: nat, n: nat)
    requires Sane(b) && KeyOf(e) in b.sessions && Hears(b.root, b.sessions[KeyOf(e)], e, i, n)
    ensures Local(b.root, i, b.sessions[KeyOf(e)]) && FindAgent(b.root.agents, KeyOf(e)) == i
    ensures b.sessions[KeyOf(e)].current != ""
  {
    LocalView(b.root, b.sessions, i);
    assert FindAgent(b.root.agents, KeyOf(e)) <= i;
  }

  lemma SaneAnswers(cfg: Config, b: Book, e: Event, i: nat, n: nat)
    requires Sane(b) && KeyOf(e) in b.sessions && e.id !in b.seen && Hears(b.root, b.sessions[KeyOf(e)], e, i, n)
    ensures Answered(b.root, Step(cfg, b, Submit(e)).root, e, i, n)
    ensures Noticed(b.sessions[KeyOf(e)], MetaFor(Step(cfg, b, Submit(e)), KeyOf(e)), e)
  {
    ReduceAnswers(cfg, b, e, i, n);
    KnownSessionStep(cfg, b, e);
  }

  lemma KnownSessionStep(cfg: Config, b: Book, e: Event)
    requires KeyOf(e) in b.sessions && WellFormed(e) && e.id !in b.seen && Reduce(cfg, b.root, b.sessions[KeyOf(e)], e).ok
    ensures var r, c := Reduce(cfg, b.root, b.sessions[KeyOf(e)], e), Step(cfg, b, Submit(e));
            c.root == r.root && MetaFor(c, KeyOf(e)) == r.meta
  {
    SubmitPlain(cfg, b, e);
  }

  lemma ReduceAnswers(cfg: Config, b: Book, e: Event, i: nat, n: nat)
    requires Sane(b) && KeyOf(e) in b.sessions && Hears(b.root, b.sessions[KeyOf(e)], e, i, n)
    ensures var r := Reduce(cfg, b.root, b.sessions[KeyOf(e)], e); r.ok && Answered(b.root, r.root, e, i, n)
  {
    var m := b.sessions[KeyOf(e)];
    Settles(b, e, i, n);
    if e.typ == Stop && e.provider == Claude && (e.background.None? || e.crons.None?) {
      DegradedStopAnswers(cfg, b.root, i, m, e, n);
      assert Reduce(cfg, b.root, m, e) == DegradedStopped(cfg, b.root, m, e, m.current);
    } else {
      TurnEventAnswers(cfg, b.root, i, m, e, n);
      assert Reduce(cfg, b.root, m, e) == TurnEvent(cfg, b.root, m, e, m.current);
    }
  }

  /**
   In every regular run, what an event of the running turn does: requests for the user raise attention, tool use and
   stops that owe work put the turn back to work, other stops complete it and failures fail it. Nothing else moves,
   but for the earlier errors that a full stop recovers.
   */
  lemma EventIsAnswered(tr: Trace, k: nat, i: nat, n: nat)
    requires RegularRun(tr) && k < |tr.inputs| && tr.inputs[k].Submit?
    requires var b, e := tr.books[k], tr.inputs[k].event;
             KeyOf(e) in b.sessions && e.id !in b.seen && Hears(b.root, b.sessions[KeyOf(e)], e, i, n)
    ensures Answered(tr.books[k].root, tr.books[k + 1].root, tr.inputs[k].event, i, n)
    ensures var e := tr.inputs[k].event; Noticed(tr.books[k].sessions[KeyOf(e)], MetaFor(tr.books[k + 1], KeyOf(e)), e)
  {
    AlwaysSane(tr, k);
    SaneAnswers(tr.cfg, tr.books[k], tr.inputs[k].event, i, n);
  }

  // ---------- events that are not for the running turn ----------

  /** From any state: an event of a turn that is over, not running, or already further on changes nothing. */
  lemma LateEventIgnored(cfg: Config, b: Book, e: Event)
    requires e.typ !in {UserPromptSubmit, SessionEnd} && e.turn.Some? && e.turn.value != ""
    requires var m := MetaFor(b, KeyOf(e));
             || m.current != e.turn.value || m.terminal == e.turn.value || m.endedAt != 0
             || (m.latestTurn != 0 && e.at < m.latestTurn)
    ensures Step(cfg, b, Submit(e)).root == b.root
  {
  }

  /** From any state: an event that names no turn moves no card, and at most makes its busy agent look stale. */
  lemma UnnamedEventMarksStale(cfg: Config, b: Book, e: Event, i: nat)
    requires WellFormed(e) && e.id !in b.seen && e.typ !in {UserPromptSubmit, SessionEnd} && e.turn.None?
    requires i < |b.root.agents| && b.root.agents[i].key == KeyOf(e)
    requires forall k :: 0 <= k < i ==> b.root.agents[k].key != KeyOf(e)
    ensures var next, cur := Step(cfg, b, Submit(e)).root, b.root.agents[i].cur;
            && next.tasks == b.root.tasks && |next.agents| == |b.root.agents|
            && (forall k :: 0 <= k < |next.agents| && k != i ==> next.agents[k] == b.root.agents[k])
            && next.agents[i].cur == if cur.activity in {ActivityWorking, ActivityAttention} then cur.(freshness := FreshnessStale) else cur
  {
    assert FindAgent(b.root.agents, KeyOf(e)) == i;
  }

  // ---------- the end of a session ----------

  ghost predicate EndAnswered(root: Root, next: Root, m: Meta, e: Event, i: nat) {
    && i < |root.agents| == |next.agents| && |root.tasks| == |next.tasks|
    && next.agents[i].cur == root.agents[i].cur.(activity := ActivityIdle, freshness := FreshnessFresh, updatedAt := e.at)
    && (forall k :: 0 <= k < |root.agents| && k != i ==> next.agents[k] == root.agents[k])
    && (forall n :: 0 <= n < |root.tasks| ==>
          if root.tasks[n].key != TaskKey(e.provider, e.session, m.current) then next.tasks[n] == root.tasks[n]
          else if Terminal(root.tasks[n].lifecycle) then next.tasks[n].lifecycle == root.tasks[n].lifecycle
          else next.tasks[n] == root.tasks[n].(lifecycle := Working, attention := None, freshness := FreshnessStale, updatedAt := e.at))
  }

  lemma EndedAnswers(root: Root, i: nat, m: Meta, e: Event)
    requires Local(root, i, m) && i == FindAgent(root.agents, KeyOf(e))
    ensures EndAnswered(root, Ended(root, m, e).root, m, e, i)
  {
    var key := TaskKey(e.provider, e.session, m.current);
    var j := FindTask(root.tasks, key);
    if j < |root.tasks| {
      assert CardOk(root.tasks[j], m, root.agents[i].cur);
    }
    assert forall n :: 0 <= n < |root.tasks| && root.tasks[n].key == key ==> n == j;
  }

  /**
   In every regular run a session end, unless an event of the session from after it has come already, leaves the agent
   idle; an unfinished card of its turn looks stale, and no later event of the turn moves it (`LateEventIgnored`).
   */
  lemma SessionEndIsAnswered(tr: Trace, k: nat, i: nat)
    requires RegularRun(tr) && k < |tr.inputs| && tr.inputs[k].Submit?
    requires var b, e := tr.books[k], tr.inputs[k].event;
             && WellFormed(e) && e.id !in b.seen && e.typ == SessionEnd
             && i < |b.root.agents| && b.root.agents[i].key == KeyOf(e)
    ensures var b, e, c := tr.books[k], tr.inputs[k].event, tr.books[k + 1];
            && KeyOf(e) in b.sessions && KeyOf(e) in c.sessions
            && var m := b.sessions[KeyOf(e)];
               if m.latestSession != 0 && e.at < m.latestSession then c.root == b.root
               else EndAnswered(b.root, c.root, m, e, i) && c.sessions[KeyOf(e)].endedAt == e.at
  {
    AlwaysSane(tr, k);
    var b, e := tr.books[k], tr.inputs[k].event;
    SubmitPlain(tr.cfg, b, e);
    LocalView(b.root, b.sessions, i);
    assert FindAgent(b.root.agents, KeyOf(e)) <= i;
    EndedAnswers(b.root, i, b.sessions[KeyOf(e)], e);
  }

  // ---------- prompts ----------

  /** The card as a prompt of session `k` leaves it: whatever was delivered there is read. */
  function Noted(t: Task, k: SessionKey, at: Time): Task {
    if t.key.provider == k.provider && t.key.session == k.session && t.lifecycle in {Complete, Error} && t.readAt.None?
    then t.(readAt := Some(at)) else t
  }

  /** The turn has ended before, as far as anything remembers. */
  ghost predicate Known(root: Root, m: Meta, e: Event, turn: string) {
    || m.terminal == turn || (m.current == turn && m.endedAt != 0)
    || exists t :: t in root.tasks && t.key == TaskKey(e.provider, e.session, turn) && t.lifecycle in {Complete, Error}
  }

  /** The turn was left behind or is running, or the session has moved on since the prompt. */
  predicate Passed(m: Meta, e: Event, turn: string) {
    turn in m.oldTurns || m.current == turn || (m.current != "" && m.latestSession != 0 && e.at < m.latestSession)
  }

  ghost predicate TurnOpened(root: Root, next: Root, e: Event, turn: string) {
    var k, card := KeyOf(e), Task(TaskKey(e.provider, e.session, turn), Working, FreshnessFresh, e.at, e.at, None, None, None);
    && Agent(k, CurrentTurn(turn, ActivityWorking, OutcomeNone, FreshnessFresh, e.at, None, e.at)) in next.agents
    && (forall a :: a in root.agents && a.key != k ==> a in next.agents)
    && card in next.tasks
    && (forall u :: u in next.tasks ==> u == card || exists t :: t in root.tasks && u == Noted(t, k, e.at))
    && (forall t :: t in root.tasks ==> (Noted(t, k, e.at) in next.tasks <==> SessionOf(t) != k || t.lifecycle in {Complete, Error}))
    && (forall l :: l in next.alerts && l.key == k ==> !l.active)
    && k in next.targets
  }

  ghost predicate PromptAnswered(root: Root, m: Meta, next: Root, e: Event, turn: string) {
    if Known(root, m, e, turn) then next == root
    else if Passed(m, e, turn) then
      && next == root.(tasks := next.tasks) && |next.tasks| == |root.tasks|
      && (forall n :: 0 <= n < |root.tasks| ==> next.tasks[n] == Noted(root.tasks[n], KeyOf(e), e.at))
    else TurnOpened(root, next, e, turn)
  }

  lemma KnownIsReplay(root: Root, m: Meta, e: Event)
    requires DistinctCards(root.tasks) && e.turn.Some? && !Blank(e.turn.value)
    ensures HistoricalReplay(root, m, e) <==> Known(root, m, e, e.turn.value)
  {
    var key := TaskKey(e.provider, e.session, e.turn.value);
    var j := FindTask(root.tasks, key);
    assert j < |root.tasks| ==> root.tasks[j] in root.tasks;
    assert forall n :: 0 <= n < |root.tasks| && root.tasks[n].key == key ==> n == j;
  }

  lemma OpenedAnswers(root: Root, e: Event, turn: string)
    requires forall t :: t in root.tasks ==> t.key != TaskKey(e.provider, e.session, turn)
    ensures var read := root.(tasks := AcknowledgeTerminal(root.tasks, KeyOf(e), e.at));
            TurnOpened(root, OpenedRoot(read, e, turn), e, turn)
  {
    var k := KeyOf(e);
    var read := AcknowledgeTerminal(root.tasks, k, e.at);
    var next := OpenedRoot(root.(tasks := read), e, turn);
    var kept := Keep(read, Standing(k, turn));
    assert next.tasks == kept + [NewTask(e, turn)];
    OpenedAgentsAnswer(root.agents, next.agents, e, turn);
    OpenedCardsAnswer(root.tasks, read, e, turn);
  }

  lemma OpenedAgentsAnswer(agents: seq<Agent>, next: seq<Agent>, e: Event, turn: string)
    requires var i := FindAgent(agents, KeyOf(e));
             next == if i < |agents| then agents[i := agents[i].(cur := OpenedTurn(e, turn))]
                     else agents + [Agent(KeyOf(e), OpenedTurn(e, turn))]
    ensures Agent(KeyOf(e), CurrentTurn(turn, ActivityWorking, OutcomeNone, FreshnessFresh, e.at, None, e.at)) in next
    ensures forall a :: a in agents && a.key != KeyOf(e) ==> a in next
  {
    var i := FindAgent(agents, KeyOf(e));
    assert next[i] == Agent(KeyOf(e), OpenedTurn(e, turn));
    forall a | a in agents && a.key != KeyOf(e) ensures a in next {
      var n :| 0 <= n < |agents| && agents[n] == a;
      assert next[n] == a;
    }
  }

  lemma ReadIsNoted(tasks: seq<Task>, read: seq<Task>, k: SessionKey, at: Time)
    requires read == AcknowledgeTerminal(tasks, k, at)
    ensures forall u :: u in read <==> exists t :: t in tasks && u == Noted(t, k, at)
  {
    assert forall n :: 0 <= n < |tasks| ==> read[n] == Noted(tasks[n], k, at);
    forall u | u in read ensures exists t :: t in tasks && u == Noted(t, k, at) {
      var n :| 0 <= n < |read| && read[n] == u;
      assert tasks[n] in tasks;
    }
    forall t | t in tasks ensures Noted(t, k, at) in read {
      var n :| 0 <= n < |tasks| && tasks[n] == t;
      assert read[n] in read;
    }
  }

  lemma OpenedCardsAnswer(tasks: seq<Task>, read: seq<Task>, e: Event, turn: string)
    requires read == AcknowledgeTerminal(tasks, KeyOf(e), e.at)
    requires forall t :: t in tasks ==> t.key != TaskKey(e.provider, e.session, turn)
    ensures var k, card, next := KeyOf(e), NewTask(e, turn), Keep(read, Standing(KeyOf(e), turn)) + [NewTask(e, turn)];
            && card in next
            && (forall u :: u in next ==> u == card || exists t :: t in tasks && u == Noted(t, k, e.at))
            && (forall t :: t in tasks ==> (Noted(t, k, e.at) in next <==> SessionOf(t) != k || t.lifecycle in {Complete, Error}))
  {
    var k := KeyOf(e);
    ReadIsNoted(tasks, read, k, e.at);
    KeepMembers(read, Standing(k, turn));
    forall t | t in tasks ensures Noted(t, k, e.at) in read && Noted(t, k, e.at).key == t.key {
    }
  }

  lemma SanePromptAnswers(cfg: Config, b: Book, e: Event)
    requires Sane(b) && WellFormed(e) && e.id !in b.seen && e.typ == UserPromptSubmit && !Evicts(cfg, b, e)
    requires e.turn.Some? && !Blank(e.turn.value)
    ensures PromptAnswered(b.root, MetaFor(b, KeyOf(e)), Step(cfg, b, Submit(e)).root, e, e.turn.value)
  {
    SubmitPlain(cfg, b, e);
    PromptReduces(cfg, b, e);
  }

  lemma PromptReduces(cfg: Config, b: Book, e: Event)
    requires Sane(b) && WellFormed(e) && e.typ == UserPromptSubmit && e.turn.Some? && !Blank(e.turn.value)
    ensures var r := Reduce(cfg, b.root, MetaFor(b, KeyOf(e)), e);
            r.ok && PromptAnswered(b.root, MetaFor(b, KeyOf(e)), r.root, e, e.turn.value)
  {
    var m := MetaFor(b, KeyOf(e));
    KnownIsReplay(b.root, m, e);
    if !HistoricalReplay(b.root, m, e) {
      if Opens(m, e) {
        OpeningReduces(cfg, b, m, e);
      } else {
        PassedReduces(cfg, b.root, m, e);
      }
    }
  }

  lemma PassedReduces(cfg: Config, root: Root, m: Meta, e: Event)
    requires e.typ == UserPromptSubmit && e.turn.Some? && e.turn.value != "" && !HistoricalReplay(root, m, e) && !Opens(m, e)
    ensures var r := Reduce(cfg, root, m, e);
            && r.ok && Passed(m, e, e.turn.value) && r.root == root.(tasks := r.root.tasks) && |r.root.tasks| == |root.tasks|
            && forall n :: 0 <= n < |root.tasks| ==> r.root.tasks[n] == Noted(root.tasks[n], KeyOf(e), e.at)
  {
  }

  lemma OpeningReduces(cfg: Config, b: Book, m: Meta, e: Event)
    requires Sane(b) && m == MetaFor(b, KeyOf(e)) && e.typ == UserPromptSubmit && e.turn.Some? && !Blank(e.turn.value)
    requires !HistoricalReplay(b.root, m, e) && Opens(m, e)
    ensures var r := Reduce(cfg, b.root, m, e);
            r.ok && !Passed(m, e, e.turn.value) && TurnOpened(b.root, r.root, e, e.turn.value)
  {
    NoCardYet(b, e);
    OpenedAnswers(b.root, e, e.turn.value);
  }

  lemma NoCardYet(b: Book, e: Event)
    requires Sane(b) && e.turn.Some? && !Blank(e.turn.value)
    requires var m := MetaFor(b, KeyOf(e)); !HistoricalReplay(b.root, m, e) && Opens(m, e)
    ensures forall t :: t in b.root.tasks ==> t.key != TaskKey(e.provider, e.session, e.turn.value)
  {
    var key := TaskKey(e.provider, e.session, e.turn.value);
    var j := FindTask(b.root.tasks, key);
    if j < |b.root.tasks| {
      LiveCardIsCurrent(b.root, b.sessions, j);
    }
    forall t | t in b.root.tasks ensures t.key != key {
      var n :| 0 <= n < |b.root.tasks| && b.root.tasks[n] == t;
    }
  }

  /** The session has moved on to the turn, and remembers as many of the turns it left as it may. */
  ghost predicate MovedOn(cfg: Config, m: Meta, after: Meta, e: Event, turn: string) {
    && after.current == turn && after.terminal == "" && after.endedAt == 0 && after.startedAt == e.at
    && after.latestTurn == e.at && after.latestSession == Max(m.latestSession, e.at)
    && (m.current == "" ==> after.oldTurns == m.oldTurns)
    && (m.current != "" ==> IsTail(after.oldTurns, m.oldTurns + [m.current], cfg.maxOldTurns))
  }

  /** The end of `all`, as much of it as fits. */
  predicate IsTail(tail: seq<string>, all: seq<string>, most: nat) {
    |tail| <= |all| && tail == all[|all| - |tail|..] && (|tail| == most || (|tail| == |all| && |tail| < most))
  }

  lemma OpeningMovesOn(cfg: Config, root: Root, m: Meta, e: Event)
    requires Usable(cfg) && e.typ == UserPromptSubmit && !HistoricalReplay(root, m, e) && Opens(m, e)
    ensures MovedOn(cfg, m, Reduce(cfg, root, m, e).meta, e, e.turn.value)
  {
  }

  /** From any agreeing state: opening a turn moves the session on, anything else leaves it where it was. */
  lemma PromptMovesOn(cfg: Config, b: Book, e: Event)
    requires Usable(cfg) && Sane(b) && WellFormed(e) && e.id !in b.seen && e.typ == UserPromptSubmit && !Evicts(cfg, b, e)
    requires e.turn.Some? && !Blank(e.turn.value)
    ensures var m, after, turn := MetaFor(b, KeyOf(e)), MetaFor(Step(cfg, b, Submit(e)), KeyOf(e)), e.turn.value;
            if Known(b.root, m, e, turn) || Passed(m, e, turn) then after == m else MovedOn(cfg, m, after, e, turn)
  {
    var m := MetaFor(b, KeyOf(e));
    SubmitPlain(cfg, b, e);
    KnownIsReplay(b.root, m, e);
    if !HistoricalReplay(b.root, m, e) && Opens(m, e) {
      OpeningMovesOn(cfg, b.root, m, e);
    }
  }

  /**
   In every regular run: a prompt of a turn that ended before changes nothing; of a turn that runs or was left behind
   it reads what was delivered; and any other one opens its turn, with a working agent, a new card, no alerts, the
   session's finished cards read and its unfinished ones gone.
   */
  lemma PromptIsAnswered(tr: Trace, k: nat)
    requires RegularRun(tr) && k < |tr.inputs| && tr.inputs[k].Submit?
    requires var b, e := tr.books[k], tr.inputs[k].event;
             WellFormed(e) && e.id !in b.seen && e.typ == UserPromptSubmit && e.turn.Some? && e.turn.value != ""
    ensures var b, e := tr.books[k], tr.inputs[k].event;
            PromptAnswered(b.root, MetaFor(b, KeyOf(e)), tr.books[k + 1].root, e, e.turn.value)
  {
    AlwaysSane(tr, k);
    assert Regular(tr.cfg, tr.books[k], tr.inputs[k]);
    SanePromptAnswers(tr.cfg, tr.books[k], tr.inputs[k].event);
  }

  // ---------- maintenance ----------

  predicate Late(cfg: Config, cur: CurrentTurn, now: Time) {
    && cur.activity in {ActivityWorking, ActivityAttention} && cur.freshness == FreshnessFresh
    && cur.updatedAt != 0 && now - cur.updatedAt > cfg.staleAfter
  }

  function Neglected(t: Task, now: Time): Task {
    t.(lifecycle := Working, attention := None, freshness := FreshnessStale, updatedAt := now)
  }

  /** The card is for the turn of one of the first `n` agents, and that one is late. */
  ghost predicate OfLateTurn(cfg: Config, agents: seq<Agent>, n: nat, t: Task, now: Time)
    requires n <= |agents|
  {
    exists i :: 0 <= i < n && Late(cfg, agents[i].cur, now)
                && t.key == TaskKey(agents[i].key.provider, agents[i].key.session, agents[i].cur.turn)
  }

  ghost predicate LateAgent(cfg: Config, agents: seq<Agent>, n: nat, k: SessionKey, now: Time)
    requires n <= |agents|
  {
    exists i :: 0 <= i < n && Late(cfg, agents[i].cur, now) && agents[i].key == k
  }

  predicate StaleNotice(cfg: Config, l: Alert, a: Agent, now: Time) {
    && l.active && l.typ == AlertStale && l.key == a.key && l.turn == TurnPtr(a.cur.turn)
    && l.retainUntil == Some(now + cfg.staleRetention)
  }

  /** Once the first `n` agents have been looked at. */
  ghost predicate AgentsMarked(cfg: Config, root: Root, r: Root, n: nat, now: Time)
    requires n <= |root.agents|
  {
    && |r.agents| == |root.agents|
    && forall i :: 0 <= i < |root.agents| ==>
         var a := root.agents[i];
         r.agents[i] == if i < n && Late(cfg, a.cur, now) then a.(cur := a.cur.(activity := ActivityWorking, freshness := FreshnessStale))
                        else a
  }

  ghost predicate CardsMarked(cfg: Config, root: Root, r: Root, n: nat, now: Time)
    requires n <= |root.agents|
  {
    && |r.tasks| == |root.tasks|
    && forall k :: 0 <= k < |root.tasks| ==>
         r.tasks[k] == if OfLateTurn(cfg, root.agents, n, root.tasks[k], now) then Neglected(root.tasks[k], now) else root.tasks[k]
  }

  ghost predicate AlertsMarked(cfg: Config, root: Root, r: Root, n: nat, now: Time)
    requires n <= |root.agents|
  {
    && (forall i :: 0 <= i < n && Late(cfg, root.agents[i].cur, now) ==>
          exists l :: l in r.alerts && StaleNotice(cfg, l, root.agents[i], now))
    && (forall l :: l in root.alerts && (l.typ in {AlertError, AlertComplete} || !LateAgent(cfg, root.agents, n, l.key, now)) ==>
          l in r.alerts)
  }

  /** Making an agent stale leaves errors, completions and other agents' alerts alone, and raises its notice. */
  lemma StaleAlertsRaise(cfg: Config, alerts: seq<Alert>, a: Agent, now: Time)
    ensures var next := StaleAlerts(cfg, alerts, a.key, a.cur, now);
            && (exists l :: l in next && StaleNotice(cfg, l, a, now))
            && (forall l :: l in alerts && (l.key != a.key || l.typ in {AlertError, AlertComplete}) ==> l in next)
  {
    var turn := TurnPtr(a.cur.turn);
    var quiet := if a.cur.activity == ActivityAttention then Resolve(alerts, AlertAttention, a.key, turn, now) else alerts;
    var next := StaleAlerts(cfg, alerts, a.key, a.cur, now);
    var f := FindAlert(quiet, AlertStale, a.key, turn);
    assert next[f] in next && StaleNotice(cfg, next[f], a, now);
    forall l | l in alerts && (l.key != a.key || l.typ in {AlertError, AlertComplete}) ensures l in next {
      var n :| 0 <= n < |alerts| && alerts[n] == l;
      assert quiet[n] == l && next[n] == l;
    }
  }

  lemma MarkAgentMarks(cfg: Config, root: Root, r: Root, n: nat, now: Time)
    requires n < |root.agents| && AgentsMarked(cfg, root, r, n, now) && CardsMarked(cfg, root, r, n, now)
    ensures AgentsMarked(cfg, root, MarkAgent(cfg, r, n, now), n + 1, now)
    ensures CardsMarked(cfg, root, MarkAgent(cfg, r, n, now), n + 1, now)
  {
    var a, next := root.agents[n], MarkAgent(cfg, r, n, now);
    assert r.agents[n] == a;
    forall k | 0 <= k < |root.tasks|
      ensures next.tasks[k] == if OfLateTurn(cfg, root.agents, n + 1, root.tasks[k], now) then Neglected(root.tasks[k], now) else root.tasks[k]
    {
      assert OfLateTurn(cfg, root.agents, n + 1, root.tasks[k], now)
          <==> OfLateTurn(cfg, root.agents, n, root.tasks[k], now)
               || (Late(cfg, a.cur, now) && root.tasks[k].key == TaskKey(a.key.provider, a.key.session, a.cur.turn));
    }
  }

  lemma MarkAgentRaises(cfg: Config, root: Root, r: Root, n: nat, now: Time)
    requires n < |root.agents| && |r.agents| == |root.agents| && r.agents[n] == root.agents[n]
    requires AlertsMarked(cfg, root, r, n, now)
    requires forall i :: 0 <= i < n ==> root.agents[i].key != root.agents[n].key
    ensures AlertsMarked(cfg, root, MarkAgent(cfg, r, n, now), n + 1, now)
  {
    var a, next := root.agents[n], MarkAgent(cfg, r, n, now);
    if Late(cfg, a.cur, now) {
      StaleAlertsRaise(cfg, r.alerts, a, now);
      assert next.alerts == StaleAlerts(cfg, r.alerts, a.key, a.cur, now);
    }
    forall i | 0 <= i < n + 1 && Late(cfg, root.agents[i].cur, now)
      ensures exists l :: l in next.alerts && StaleNotice(cfg, l, root.agents[i], now)
    {
      if i < n {
        var l :| l in r.alerts && StaleNotice(cfg, l, root.agents[i], now);
        assert l in next.alerts;
      }
    }
    forall l | l in root.alerts && (l.typ in {AlertError, AlertComplete} || !LateAgent(cfg, root.agents, n + 1, l.key, now))
      ensures l in next.alerts
    {
      assert LateAgent(cfg, root.agents, n, l.key, now) ==> LateAgent(cfg, root.agents, n + 1, l.key, now);
      assert l in r.alerts;
    }
  }

  ghost predicate AllMarked(cfg: Config, root: Root, r: Root, n: nat, now: Time)
    requires n <= |root.agents|
  {
    AgentsMarked(cfg, root, r, n, now) && CardsMarked(cfg, root, r, n, now) && AlertsMarked(cfg, root, r, n, now)
  }

  lemma OneMoreMarked(cfg: Config, root: Root, r: Root, n: nat, now: Time)
    requires n < |root.agents| && AllMarked(cfg, root, r, n, now)
    requires forall i :: 0 <= i < n ==> root.agents[i].key != root.agents[n].key
    ensures AllMarked(cfg, root, MarkAgent(cfg, r, n, now), n + 1, now)
  {
    MarkAgentMarks(cfg, root, r, n, now);
    MarkAgentRaises(cfg, root, r, n, now);
  }

  lemma NoneMarked(cfg: Config, root: Root, now: Time)
    ensures AllMarked(cfg, root, root, 0, now)
  {
  }

  /** What each marking carries one agent further holds of all of them in the end. */
  lemma {:induction false} MarkingCarries(cfg: Config, root: Root, n: nat, now: Time, holds: (Root, nat) -> bool)
    requires n <= |root.agents| && holds(root, 0)
    requires forall r: Root, k: nat :: holds(r, k) && k < |root.agents| && k < |r.agents| ==> holds(MarkAgent(cfg, r, k, now), k + 1)
    ensures holds(MarkAgents(cfg, root, n, now), n)
  {
    if n > 0 {
      MarkingCarries(cfg, root, n - 1, now, holds);
    }
  }

  lemma MarkingMarks(cfg: Config, root: Root, now: Time)
    requires forall i, j :: 0 <= i < j < |root.agents| ==> root.agents[i].key != root.agents[j].key
    ensures AllMarked(cfg, root, MarkAgents(cfg, root, |root.agents|, now), |root.agents|, now)
  {
    NoneMarked(cfg, root, now);
    var holds := (r: Root, k: nat) => k <= |root.agents| && AllMarked(cfg, root, r, k, now);
    forall r: Root, k: nat | holds(r, k) && k < |root.agents| && k < |r.agents| ensures holds(MarkAgent(cfg, r, k, now), k + 1) {
      OneMoreMarked(cfg, root, r, k, now);
    }
    MarkingCarries(cfg, root, |root.agents|, now, holds);
  }

  /** The card's time is up. */
  predicate Outdated(cfg: Config, t: Task, now: Time) {
    match t.lifecycle
    case Complete => t.readAt.Some? && now >= t.readAt.value + cfg.completeRetention
    case Error => t.readAt.Some? && t.supersededAt.Some? && now >= t.readAt.value + cfg.completeRetention
    case Working => t.freshness == FreshnessStale && t.updatedAt != 0 && now >= t.updatedAt + cfg.staleRetention
    case Attention => false
  }

  predicate Lapsed(l: Alert, now: Time) {
    !l.active || (l.typ in {AlertComplete, AlertStale} && l.retainUntil.Some? && now >= l.retainUntil.value)
  }

  ghost predicate PassAnswered(cfg: Config, root: Root, next: Root, now: Time) {
    var n := |root.agents|;
    && AgentsMarked(cfg, root, next, n, now)
    && (forall t :: t in root.tasks ==>
          if OfLateTurn(cfg, root.agents, n, t, now) then Neglected(t, now) in next.tasks
          else t in next.tasks <==> !Outdated(cfg, t, now))
    && (forall u :: u in next.tasks ==> exists t :: t in root.tasks && u in {t, Neglected(t, now)})
    && (forall l :: l in next.alerts ==> !Lapsed(l, now))
    && (forall l :: l in root.alerts && (l.typ in {AlertError, AlertComplete} || !LateAgent(cfg, root.agents, n, l.key, now)) ==>
          (l in next.alerts <==> !Lapsed(l, now)))
    && (forall a :: a in root.agents && Late(cfg, a.cur, now) ==> exists l :: l in next.alerts && StaleNotice(cfg, l, a, now))
  }

  lemma SweepAnswers(cfg: Config, root: Root, r: Root, now: Time)
    requires Usable(cfg) && CardsMarked(cfg, root, r, |root.agents|, now)
    ensures var n, next := |root.agents|, Keep(r.tasks, Kept(cfg, now));
            && (forall t :: t in root.tasks ==>
                  if OfLateTurn(cfg, root.agents, n, t, now) then Neglected(t, now) in next
                  else t in next <==> !Outdated(cfg, t, now))
            && (forall u :: u in next ==> exists t :: t in root.tasks && u in {t, Neglected(t, now)})
  {
    var n, next := |root.agents|, Keep(r.tasks, Kept(cfg, now));
    KeepMembers(r.tasks, Kept(cfg, now));
    forall t | t in root.tasks
      ensures if OfLateTurn(cfg, root.agents, n, t, now) then Neglected(t, now) in next else t in next <==> !Outdated(cfg, t, now)
    {
      var k :| 0 <= k < |root.tasks| && root.tasks[k] == t;
      assert r.tasks[k] in r.tasks;
    }
    forall u | u in next ensures exists t :: t in root.tasks && u in {t, Neglected(t, now)} {
      var k :| 0 <= k < |r.tasks| && r.tasks[k] == u;
      assert root.tasks[k] in root.tasks;
    }
  }

  lemma SweepLowers(cfg: Config, root: Root, r: Root, now: Time)
    requires Usable(cfg) && AlertsMarked(cfg, root, r, |root.agents|, now)
    ensures var n, next := |root.agents|, Keep(r.alerts, Lasting(now));
            && (forall l :: l in next ==> !Lapsed(l, now))
            && (forall l :: l in root.alerts && (l.typ in {AlertError, AlertComplete} || !LateAgent(cfg, root.agents, n, l.key, now)) ==>
                  (l in next <==> !Lapsed(l, now)))
            && (forall a :: a in root.agents && Late(cfg, a.cur, now) ==> exists l :: l in next && StaleNotice(cfg, l, a, now))
  {
    KeepMembers(r.alerts, Lasting(now));
    forall a | a in root.agents && Late(cfg, a.cur, now)
      ensures exists l :: l in Keep(r.alerts, Lasting(now)) && StaleNotice(cfg, l, a, now)
    {
      var i :| 0 <= i < |root.agents| && root.agents[i] == a;
      var l :| l in r.alerts && StaleNotice(cfg, l, root.agents[i], now);
      assert l in Keep(r.alerts, Lasting(now));
    }
  }

  /**
   In every regular run, what a maintenance pass does: a busy agent not heard of for too long looks stale, with its
   card and a notice that lasts; cards go exactly when their time is up, and so do notices.
   */
  lemma PassIsAnswered(tr: Trace, k: nat)
    requires RegularRun(tr) && k < |tr.inputs| && tr.inputs[k].Maintain?
    ensures PassAnswered(tr.cfg, tr.books[k].root, tr.books[k + 1].root, tr.inputs[k].now)
  {
    AlwaysSane(tr, k);
    SanePassAnswers(tr.cfg, tr.books[k], tr.inputs[k].now);
    assert tr.books[k + 1] == Step(tr.cfg, tr.books[k], Maintain(tr.inputs[k].now));
  }

  lemma SanePassAnswers(cfg: Config, b: Book, now: Time)
    requires Usable(cfg) && Sane(b)
    ensures PassAnswered(cfg, b.root, Step(cfg, b, Maintain(now)).root, now)
  {
    TendingAnswers(cfg, b.root, now);
  }

  lemma TendingAnswers(cfg: Config, root: Root, now: Time)
    requires Usable(cfg) && forall i, j :: 0 <= i < j < |root.agents| ==> root.agents[i].key != root.agents[j].key
    ensures PassAnswered(cfg, root, Tended(cfg, root, now), now)
  {
    var r := MarkAgents(cfg, root, |root.agents|, now);
    MaintenanceGuardExact(cfg, root, now);
    MarkingMarks(cfg, root, now);
    SweepAnswers(cfg, root, r, now);
    SweepLowers(cfg, root, r, now);
  }

  // ---------- acknowledgements from a display ----------

  /** From any state: a display's acknowledgement reads the finished card it names, once, and nothing else. */
  lemma AcknowledgementIsAnswered(cfg: Config, b: Book, id: TaskId, target: SessionKey, at: Time, n: nat)
    requires n < |b.root.tasks| && id == OpaqueId(b.root.tasks[n].key) && b.root.tasks[n].lifecycle in {Complete, Error}
    requires forall k :: 0 <= k < n ==> b.root.tasks[k].key != id.key || b.root.tasks[k].lifecycle !in {Complete, Error}
    ensures var next, t := Step(cfg, b, Acknowledge(id, target, at)).root, b.root.tasks[n];
            && next == b.root.(tasks := next.tasks) && |next.tasks| == |b.root.tasks|
            && (forall k :: 0 <= k < |next.tasks| && k != n ==> next.tasks[k] == b.root.tasks[k])
            && next.tasks[n] == if at != 0 && target in b.root.targets && target == SessionOf(t) && t.readAt.None?
                                then t.(readAt := Some(at)) else t
  {
    assert FindTerminal(b.root.tasks, id.key) == n;
  }

  // ---------- events delivered again ----------

  /** The replay memory lists the ids it holds, oldest first. */
  ghost predicate Listed(seen: set<string>, order: seq<string>) {
    Distinct(order) && forall id :: id in seen <==> id in order
  }

  /** `id` is among the last `d + 1` ids remembered. */
  ghost predicate Within(order: seq<string>, id: string, d: nat) {
    exists p :: 0 <= p < |order| && order[p] == id && |order| - 1 - p <= d
  }

  lemma {:induction false} ForgetListed(m: Memory, max: nat)
    requires Listed(m.seen, m.order)
    ensures var r := Forget(m, max);
            Listed(r.seen, r.order) && r.order == if |m.order| > max then m.order[|m.order| - max..] else m.order
    decreases |m.order|
  {
    if |m.order| > max {
      var next := Memory(m.seen - {m.order[0]}, m.order[1..]);
      forall id ensures id in next.seen <==> id in next.order {
        if id in next.order {
          var p :| 0 <= p < |next.order| && next.order[p] == id;
          assert m.order[p + 1] == id;
        }
      }
      ForgetListed(next, max);
    }
  }

  lemma RememberedListed(cfg: Config, m: Memory, id: string)
    requires Listed(m.seen, m.order) && id !in m.seen
    ensures var all, r := m.order + [id], Remembered(cfg, m, id);
            && Listed(r.seen, r.order)
            && r.order == if |all| > cfg.maxSeen then all[|all| - cfg.maxSeen..] else all
  {
    ForgetListed(Memory(m.seen + {id}, m.order + [id]), cfg.maxSeen);
  }

  /** Another event can push an id at most one place further back. */
  lemma WithinOneMore(cfg: Config, m: Memory, id: string, x: string, d: nat)
    requires Listed(m.seen, m.order) && x !in m.seen && Within(m.order, id, d) && d + 1 < cfg.maxSeen
    ensures Within(Remembered(cfg, m, x).order, id, d + 1)
  {
    RememberedListed(cfg, m, x);
    var all, order := m.order + [x], Remembered(cfg, m, x).order;
    var p :| 0 <= p < |m.order| && m.order[p] == id && |m.order| - 1 - p <= d;
    assert all[p] == id;
    assert order[p - (|all| - |order|)] == id;
  }

  ghost predicate Remembers(b: Book, id: string, d: nat) {
    Listed(b.seen, b.seenOrder) && Within(b.seenOrder, id, d)
  }

  lemma MemoryStep(cfg: Config, b: Book, i: Input)
    ensures var c := Step(cfg, b, i);
            || (c.seen == b.seen && c.seenOrder == b.seenOrder)
            || (i.Submit? && i.event.id !in b.seen
                && Memory(c.seen, c.seenOrder) == Remembered(cfg, Memory(b.seen, b.seenOrder), i.event.id))
  {
  }

  lemma StepRemembers(cfg: Config, b: Book, i: Input, id: string, d: nat)
    requires Remembers(b, id, d) && d + 1 < cfg.maxSeen
    ensures Remembers(Step(cfg, b, i), id, d + 1)
  {
    MemoryStep(cfg, b, i);
    var c := Step(cfg, b, i);
    if c.seen == b.seen && c.seenOrder == b.seenOrder {
      assert Within(c.seenOrder, id, d + 1);
    } else {
      RememberedListed(cfg, Memory(b.seen, b.seenOrder), i.event.id);
      WithinOneMore(cfg, Memory(b.seen, b.seenOrder), id, i.event.id, d);
    }
  }

  lemma StepListed(cfg: Config, b: Book, i: Input)
    requires Listed(b.seen, b.seenOrder)
    ensures Listed(Step(cfg, b, i).seen, Step(cfg, b, i).seenOrder)
  {
    MemoryStep(cfg, b, i);
    if i.Submit? && i.event.id !in b.seen {
      RememberedListed(cfg, Memory(b.seen, b.seenOrder), i.event.id);
    }
  }

  lemma {:induction false} AlwaysListed(tr: Trace, k: nat)
    requires Behaviour(tr) && k < |tr.books|
    ensures Listed(tr.books[k].seen, tr.books[k].seenOrder)
  {
    if k > 0 {
      AlwaysListed(tr, k - 1);
      StepListed(tr.cfg, tr.books[k - 1], tr.inputs[k - 1]);
    }
  }

  /** An event that was taken in: everything but a prompt without a turn. */
  predicate TakenIn(b: Book, e: Event) {
    WellFormed(e) && e.id !in b.seen && !(e.typ == UserPromptSubmit && (e.turn.None? || e.turn.value == ""))
  }

  lemma TakenInIsRemembered(cfg: Config, b: Book, e: Event)
    requires Usable(cfg) && Listed(b.seen, b.seenOrder) && TakenIn(b, e)
    ensures Remembers(Step(cfg, b, Submit(e)), e.id, 0)
  {
    RememberedListed(cfg, Memory(b.seen, b.seenOrder), e.id);
    var all, c := b.seenOrder + [e.id], Step(cfg, b, Submit(e));
    assert Memory(c.seen, c.seenOrder) == Remembered(cfg, Memory(b.seen, b.seenOrder), e.id);
    assert c.seenOrder[|c.seenOrder| - 1] == all[|all| - 1];
  }

  lemma {:induction false} StillRemembered(tr: Trace, i: nat, j: nat, id: string)
    requires Behaviour(tr) && i < j < |tr.books| && j - i <= tr.cfg.maxSeen && Remembers(tr.books[i + 1], id, 0)
    ensures Remembers(tr.books[j], id, j - i - 1)
  {
    if i + 1 < j {
      StillRemembered(tr, i, j - 1, id);
      StepRemembers(tr.cfg, tr.books[j - 1], tr.inputs[j - 1], id, j - i - 2);
    }
  }

  /** In every run: an event that was taken in may come again within the replay memory's length; it changes nothing. */
  lemma RepeatIsInert(tr: Trace, i: nat, j: nat)
    requires Behaviour(tr) && i < j < |tr.inputs| && j - i <= tr.cfg.maxSeen
    requires tr.inputs[i].Submit? && TakenIn(tr.books[i], tr.inputs[i].event)
    requires tr.inputs[j].Submit? && tr.inputs[j].event.id == tr.inputs[i].event.id
    ensures tr.books[j + 1] == tr.books[j]
  {
    AlwaysListed(tr, i);
    TakenInIsRemembered(tr.cfg, tr.books[i], tr.inputs[i].event);
    assert tr.books[i + 1] == Step(tr.cfg, tr.books[i], Submit(tr.inputs[i].event));
    StillRemembered(tr, i, j, tr.inputs[i].event.id);
    SeenIsIgnored(tr.cfg, tr.books[j], tr.inputs[j].event, j - i - 1);
  }

  lemma SeenIsIgnored(cfg: Config, b: Book, e: Event, d: nat)
    requires Remembers(b, e.id, d)
    ensures Step(cfg, b, Submit(e)) == b
  {
  }

  // ---------- notices ----------

  /** The notice of a finished turn, with how long it stays prominent and how long it stays at all. */
  predicate CompletionNotice(cfg: Config, l: Alert, e: Event, turn: string) {
    && l.active && l.typ == AlertComplete && l.key == KeyOf(e) && l.turn == Some(turn)
    && l.highUntil == Some(e.at + cfg.highVisibility) && l.retainUntil == Some(e.at + cfg.completeRetention)
  }

  lemma CompletionRaises(cfg: Config, x: Effect, e: Event)
    requires x.cur.turn != ""
    ensures exists l :: l in ToComplete(cfg, x, KeyOf(e), e.at).alerts && CompletionNotice(cfg, l, e, x.cur.turn)
  {
    var key, t := KeyOf(e), Some(x.cur.turn);
    var quiet := Resolve(Resolve(Resolve(x.alerts, AlertAttention, key, t, e.at), AlertStale, key, t, e.at), AlertError, key, t, e.at);
    var f := FindAlert(quiet, AlertComplete, key, t);
    var next := ToComplete(cfg, x, key, e.at).alerts;
    assert next == Upsert(quiet, AlertComplete, key, t, e.at, Some(e.at + cfg.highVisibility), Some(e.at + cfg.completeRetention));
    assert next[f] in next && CompletionNotice(cfg, next[f], e, x.cur.turn);
  }

  lemma FinishingCompletes(cfg: Config, root: Root, i: nat, m: Meta, e: Event)
    requires i < |root.agents| && i == FindAgent(root.agents, KeyOf(e)) && Finishes(e) && WellFormed(e)
    requires root.agents[i].cur.turn == m.current && root.agents[i].cur.activity != ActivityError && m.current != ""
    requires e.turn == Some(m.current) && m.terminal != m.current && m.endedAt == 0 && e.at >= m.latestTurn
    ensures var r := Reduce(cfg, root, m, e);
            r.ok && r.root.alerts == ToComplete(cfg, Effect(root.agents[i].cur, root.alerts), KeyOf(e), e.at).alerts
  {
  }

  lemma ReduceNotices(cfg: Config, b: Book, e: Event, i: nat, n: nat)
    requires Sane(b) && KeyOf(e) in b.sessions && Hears(b.root, b.sessions[KeyOf(e)], e, i, n) && Finishes(e)
    ensures var r := Reduce(cfg, b.root, b.sessions[KeyOf(e)], e);
            r.ok && exists l :: l in r.root.alerts && CompletionNotice(cfg, l, e, e.turn.value)
  {
    Settles(b, e, i, n);
    NoticeAfter(cfg, b.root, i, b.sessions[KeyOf(e)], e, n);
  }

  lemma NoticeAfter(cfg: Config, root: Root, i: nat, m: Meta, e: Event, n: nat)
    requires LocalTurn(root, i, m) && i == FindAgent(root.agents, KeyOf(e)) && Hears(root, m, e, i, n) && Finishes(e)
    ensures var r := Reduce(cfg, root, m, e);
            r.ok && exists l :: l in r.root.alerts && CompletionNotice(cfg, l, e, e.turn.value)
  {
    FinishingCompletes(cfg, root, i, m, e);
    CompletionRaises(cfg, Effect(root.agents[i].cur, root.alerts), e);
  }

  /** In every regular run the stop that completes a turn also raises its notice. */
  lemma CompletionIsNoticed(tr: Trace, k: nat, i: nat, n: nat)
    requires RegularRun(tr) && k < |tr.inputs| && tr.inputs[k].Submit?
    requires var b, e := tr.books[k], tr.inputs[k].event;
             KeyOf(e) in b.sessions && e.id !in b.seen && Hears(b.root, b.sessions[KeyOf(e)], e, i, n) && Finishes(e)
    ensures var e := tr.inputs[k].event;
            exists l :: l in tr.books[k + 1].root.alerts && CompletionNotice(tr.cfg, l, e, e.turn.value)
  {
    AlwaysSane(tr, k);
    SubmitPlain(tr.cfg, tr.books[k], tr.inputs[k].event);
    ReduceNotices(tr.cfg, tr.books[k], tr.inputs[k].event, i, n);
  }
}
