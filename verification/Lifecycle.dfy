/** The lifecycle reducer as a function: what one hook event does to agents, cards, alerts and metadata. */
module Lifecycle {
  import opened Basics
  import opened PublicModel
  import opened AgentModel
  import opened AlertBook
  import opened TaskCards

  /** Index of the first agent with this key, or the length of the list. */
  function FindAgent(agents: seq<Agent>, key: SessionKey): (i: nat)
    ensures i <= |agents|
    ensures i < |agents| ==> agents[i].key == key
    ensures forall k :: 0 <= k < i ==> agents[k].key != key
  {
    if agents == [] || agents[0].key == key then 0
    else
      var j := FindAgent(agents[1..], key);
      assert forall k :: 0 < k < 1 + j ==> agents[k] == agents[1..][k - 1];
      1 + j
  }

  // ---------- effects on the agent's turn and its alerts ----------

  datatype Effect = Effect(cur: CurrentTurn, alerts: seq<Alert>)

  function ToWorking(x: Effect, key: SessionKey, at: Time): Effect {
    var turn := TurnPtr(x.cur.turn);
    var a1 := Resolve(x.alerts, AlertAttention, key, turn, at);
    var a2 := Resolve(a1, AlertStale, key, turn, at);
    var a3 := Resolve(a2, AlertComplete, key, turn, at);
    Effect(x.cur.(activity := ActivityWorking, freshness := FreshnessFresh, updatedAt := at, outcome := OutcomeNone,
                  completedAt := if x.cur.outcome != OutcomeNone then None else x.cur.completedAt),
           Resolve(a3, AlertError, key, turn, at))
  }

  /** The branch for an attention that the event may not clear; it leaves the alerts alone. */
  function ToRefreshedAttention(x: Effect, at: Time): Effect {
    x.(cur := x.cur.(activity := ActivityAttention, freshness := FreshnessFresh, updatedAt := at))
  }

  function ToAttention(x: Effect, key: SessionKey, at: Time): Effect {
    var turn := TurnPtr(x.cur.turn);
    var cleared :=
      if x.cur.outcome != OutcomeNone then
        Effect(x.cur.(outcome := OutcomeNone, completedAt := None),
               Resolve(Resolve(x.alerts, AlertComplete, key, turn, at), AlertError, key, turn, at))
      else x;
    Effect(cleared.cur.(activity := ActivityAttention, freshness := FreshnessFresh, updatedAt := at),
           Upsert(Resolve(cleared.alerts, AlertStale, key, turn, at), AlertAttention, key, turn, at, None, None))
  }

  function ToComplete(cfg: Config, x: Effect, key: SessionKey, at: Time): Effect {
    var turn := TurnPtr(x.cur.turn);
    var a1 := Resolve(x.alerts, AlertAttention, key, turn, at);
    var a2 := Resolve(a1, AlertStale, key, turn, at);
    var a3 := Resolve(a2, AlertError, key, turn, at);
    Effect(x.cur.(activity := ActivityIdle, outcome := OutcomeCompleted, freshness := FreshnessFresh,
                  completedAt := Some(at), updatedAt := at),
           Upsert(a3, AlertComplete, key, turn, at, Some(at + cfg.highVisibility), Some(at + cfg.completeRetention)))
  }

  function ToError(x: Effect, key: SessionKey, at: Time): Effect {
    var turn := TurnPtr(x.cur.turn);
    var a1 := Resolve(x.alerts, AlertAttention, key, turn, at);
    var a2 := Resolve(a1, AlertStale, key, turn, at);
    var a3 := Resolve(a2, AlertComplete, key, turn, at);
    Effect(x.cur.(activity := ActivityError, outcome := OutcomeFailed, freshness := FreshnessFresh,
                  completedAt := None, updatedAt := at),
           Upsert(a3, AlertError, key, turn, at, None, None))
  }

  function ToIdle(x: Effect, key: SessionKey, at: Time): Effect {
    var turn := TurnPtr(x.cur.turn);
    Effect(x.cur.(activity := ActivityIdle, freshness := FreshnessFresh, updatedAt := at),
           Resolve(Resolve(x.alerts, AlertAttention, key, turn, at), AlertStale, key, turn, at))
  }

  /** A Claude stop that still owns background work or scheduled jobs. */
  predicate StillWorking(e: Event) {
    && e.typ == Stop && e.provider == Claude
    && ((e.background.Some? && e.background.value > 0) || (e.crons.Some? && e.crons.value > 0))
  }

  /** Where an event of the running turn takes the agent. */
  datatype Motion = GoWorking | GoRefresh | GoAttention | GoComplete | GoError | GoIdle | GoNowhere

  function MotionOf(e: Event, sticky: bool): Motion {
    match e.typ
    case AskUserQuestion => GoAttention
    case Elicitation => GoAttention
    case PermissionRequest => if AttentionFor(e).Some? then GoAttention else GoWorking
    case Notification =>
      (match e.notification
       case None => GoNowhere
       case Some(IdlePrompt) => GoIdle
       case Some(_) => GoAttention)
    case Stop => if StillWorking(e) then GoWorking else GoComplete
    case StopFailure => if e.provider == Claude then GoError else GoNowhere
    case UserPromptSubmit => GoNowhere
    case SessionEnd => GoNowhere
    case _ => if sticky then GoRefresh else GoWorking
  }

  function Move(cfg: Config, x: Effect, key: SessionKey, motion: Motion, at: Time): Effect {
    match motion
    case GoWorking => ToWorking(x, key, at)
    case GoRefresh => ToRefreshedAttention(x, at)
    case GoAttention => ToAttention(x, key, at)
    case GoComplete => ToComplete(cfg, x, key, at)
    case GoError => ToError(x, key, at)
    case GoIdle => ToIdle(x, key, at)
    case GoNowhere => x
  }

  // ---------- effects on the cards ----------

  predicate AwaitsRead(t: Task, key: SessionKey) {
    SessionOf(t) == key && t.readAt.None? && Terminal(t.lifecycle)
  }

  function AcknowledgeTerminal(tasks: seq<Task>, key: SessionKey, at: Time): (r: seq<Task>)
    ensures |r| == |tasks|
  {
    seq(|tasks|, i requires 0 <= i < |tasks| =>
      if AwaitsRead(tasks[i], key) then tasks[i].(readAt := Some(at)) else tasks[i])
  }

  predicate Supersedable(t: Task, key: SessionKey, turn: string) {
    SessionOf(t) == key && t.key.turn != turn && t.lifecycle == Error && t.supersededAt.None?
  }

  function Supersede(tasks: seq<Task>, key: SessionKey, turn: string, at: Time): (r: seq<Task>)
    ensures |r| == |tasks|
  {
    seq(|tasks|, i requires 0 <= i < |tasks| =>
      if Supersedable(tasks[i], key, turn) then tasks[i].(supersededAt := Some(at)) else tasks[i])
  }

  predicate Abandoned(t: Task, key: SessionKey, turn: string) {
    SessionOf(t) == key && t.key.turn != turn && !Terminal(t.lifecycle)
  }

  function Standing(key: SessionKey, turn: string): Task -> bool {
    t => !Abandoned(t, key, turn)
  }

  /** Card `i` after an event that left the agent at `cur`. */
  function CardAfter(t: Task, cur: CurrentTurn, e: Event): Task {
    if StillWorking(e) then Synced(t.(attention := None), cur, e.at)
    else
      var next := AfterEvent(t, cur, e);
      if e.typ == Stop && cur.outcome == OutcomeCompleted then next.(attention := None) else next
  }

  /** A stop that ends its turn. */
  predicate Stopped(e: Event) {
    e.typ == Stop && !StillWorking(e)
  }

  /** The cards after an event of the running turn, whose own card is number `j`. */
  function TurnCards(tasks: seq<Task>, j: nat, cur: CurrentTurn, e: Event, turn: string): (r: seq<Task>)
    ensures |r| == |tasks|
  {
    var moved := if Stopped(e) then Supersede(tasks, KeyOf(e), turn, e.at) else tasks;
    if j < |moved| then moved[j := CardAfter(moved[j], cur, e)] else moved
  }

  // ---------- one event ----------

  datatype Reduced = Reduced(root: Root, meta: Meta, ok: bool)

  predicate HistoricalReplay(root: Root, m: Meta, e: Event) {
    && e.turn.Some? && !Blank(e.turn.value)
    && (|| m.terminal == e.turn.value
        || (m.current == e.turn.value && m.endedAt != 0)
        || (var i := FindTask(root.tasks, TaskKey(e.provider, e.session, e.turn.value));
            i < |root.tasks| && Terminal(root.tasks[i].lifecycle)))
  }

  /** The prompt opens a new turn, given that it is not a replay. */
  predicate Opens(m: Meta, e: Event) {
    && e.turn.Some? && e.turn.value != "" && e.turn.value !in m.oldTurns && m.current != e.turn.value
    && !(m.current != "" && m.latestSession != 0 && e.at < m.latestSession)
  }

  /** The turn left behind joins the bounded list of old turns. */
  function PastTurns(cfg: Config, m: Meta): seq<string> {
    if m.current == "" then m.oldTurns
    else
      var past := m.oldTurns + [m.current];
      if |past| > cfg.maxOldTurns then past[|past| - cfg.maxOldTurns..] else past
  }

  function OpenedMeta(cfg: Config, m: Meta, e: Event, turn: string): Meta {
    Meta(turn, "", e.at, e.at, Max(m.latestSession, e.at), 0, PastTurns(cfg, m))
  }

  function OpenedTurn(e: Event, turn: string): CurrentTurn {
    CurrentTurn(turn, ActivityWorking, OutcomeNone, FreshnessFresh, e.at, None, e.at)
  }

  /** The session's agent starts the turn, and whatever was raised for it is resolved. */
  function WithTurn(root: Root, e: Event, turn: string): Root {
    var key := KeyOf(e);
    var i := FindAgent(root.agents, key);
    root.(agents := if i < |root.agents| then root.agents[i := root.agents[i].(cur := OpenedTurn(e, turn))]
                    else root.agents + [Agent(key, OpenedTurn(e, turn))],
          alerts := ResolveAll(root.alerts, key, e.at))
  }

  function OpenedRoot(root: Root, e: Event, turn: string): Root {
    var key := KeyOf(e);
    var swept := root.(tasks := Keep(root.tasks, Standing(key, turn)));
    WithTurn(swept, e, turn).(tasks := swept.tasks + [NewTask(e, turn)],
                              targets := if key in root.targets then root.targets else root.targets + [key])
  }

  function Prompted(cfg: Config, root: Root, m: Meta, e: Event): Reduced {
    if e.turn.None? || e.turn.value == "" then Reduced(root, m, false)
    else
      var read := root.(tasks := AcknowledgeTerminal(root.tasks, KeyOf(e), e.at));
      if Opens(m, e) then Reduced(OpenedRoot(read, e, e.turn.value), OpenedMeta(cfg, m, e, e.turn.value), true)
      else Reduced(read, m, true)
  }

  function EndedTurn(cur: CurrentTurn, at: Time): CurrentTurn {
    cur.(activity := ActivityIdle, freshness := FreshnessFresh, updatedAt := at)
  }

  function EndedCard(t: Task, cur: CurrentTurn, at: Time): Task {
    var next := Synced(t.(attention := None), cur, at);
    if cur.outcome == OutcomeNone then next.(freshness := FreshnessStale, lifecycle := Working) else next
  }

  function Ended(root: Root, m: Meta, e: Event): Reduced {
    var key := KeyOf(e);
    var next := m.(latestSession := e.at, endedAt := e.at);
    var i := FindAgent(root.agents, key);
    if i == |root.agents| then Reduced(root, next, true)
    else
      var cur := EndedTurn(root.agents[i].cur, e.at);
      var j := FindTask(root.tasks, TaskKey(e.provider, e.session, m.current));
      Reduced(root.(agents := root.agents[i := root.agents[i].(cur := cur)],
                    alerts := Resolve(Resolve(root.alerts, AlertAttention, key, None, e.at), AlertStale, key, None, e.at),
                    tasks := if m.current != "" && j < |root.tasks|
                             then root.tasks[j := EndedCard(root.tasks[j], cur, e.at)] else root.tasks),
              next, true)
  }

  /** An event that names no turn can only make a busy agent look stale. */
  function Unattributed(root: Root, e: Event): Root {
    var key := KeyOf(e);
    var i := FindAgent(root.agents, key);
    if i < |root.agents| && root.agents[i].cur.activity in {ActivityWorking, ActivityAttention} then
      root.(agents := root.agents[i := root.agents[i].(cur := root.agents[i].cur.(freshness := FreshnessStale))],
            alerts := Upsert(root.alerts, AlertStale, key, TurnPtr(root.agents[i].cur.turn), e.at, None, None))
    else root
  }

  /** Claude's stop without the optional background-work fields. */
  predicate DegradedStop(e: Event) {
    e.provider == Claude && e.typ == Stop && (e.background.None? || e.crons.None?)
  }

  function DegradedStopped(cfg: Config, root: Root, m: Meta, e: Event, turn: string): Reduced {
    var key := KeyOf(e);
    var i := FindAgent(root.agents, key);
    if m.current != turn || (m.latestTurn != 0 && e.at < m.latestTurn) then Reduced(root, m, true)
    else if i < |root.agents| && root.agents[i].cur.turn == turn && root.agents[i].cur.activity != ActivityError then
      var x := ToComplete(cfg, Effect(root.agents[i].cur, root.alerts), key, e.at);
      var j := FindTask(root.tasks, TaskKey(e.provider, e.session, turn));
      Reduced(root.(agents := root.agents[i := root.agents[i].(cur := x.cur)], alerts := x.alerts,
                    tasks := if j < |root.tasks|
                             then root.tasks[j := AfterEvent(root.tasks[j], x.cur, e).(attention := None, updatedAt := e.at)]
                             else root.tasks),
              m.(latestTurn := e.at, terminal := turn), true)
    else Reduced(root, m, true)
  }

  predicate Sticky(tasks: seq<Task>, j: nat, e: Event) {
    j < |tasks| && tasks[j].attention.Some? && !CanClear(tasks[j].attention.value, e)
  }

  function TurnEvent(cfg: Config, root: Root, m: Meta, e: Event, turn: string): Reduced {
    if m.current == "" || turn != m.current || (m.latestTurn != 0 && e.at < m.latestTurn) then Reduced(root, m, true)
    else
      var seen := m.(latestTurn := e.at, latestSession := Max(m.latestSession, e.at));
      var key := KeyOf(e);
      var i := FindAgent(root.agents, key);
      if i == |root.agents| then Reduced(root, seen, true)
      else
        var j := FindTask(root.tasks, TaskKey(e.provider, e.session, turn));
        var x := Move(cfg, Effect(root.agents[i].cur, root.alerts), key, MotionOf(e, Sticky(root.tasks, j, e)), e.at);
        Reduced(root.(agents := root.agents[i := root.agents[i].(cur := x.cur)], alerts := x.alerts,
                      tasks := TurnCards(root.tasks, j, x.cur, e, turn)),
                if Stopped(e) || e.typ == StopFailure then seen.(terminal := turn) else seen, true)
  }

  function Reduce(cfg: Config, root: Root, m: Meta, e: Event): Reduced {
    if e.typ == SessionEnd then
      if m.latestSession != 0 && e.at < m.latestSession then Reduced(root, m, true) else Ended(root, m, e)
    else if e.typ == UserPromptSubmit then
      if HistoricalReplay(root, m, e) then Reduced(root, m, true) else Prompted(cfg, root, m, e)
    else if m.endedAt != 0 && e.turn == Some(m.current) then Reduced(root, m, true)
    else if e.turn.None? || e.turn.value == "" then Reduced(Unattributed(root, e), m, true)
    else if m.terminal != "" && e.turn.value == m.terminal then Reduced(root, m, true)
    else if DegradedStop(e) then DegradedStopped(cfg, root, m, e, e.turn.value)
    else TurnEvent(cfg, root, m, e, e.turn.value)
  }
}
