/** The reducer object: the in-place edits of the source, each proved to be the step the model describes. */
module AgentReducer {
  import opened Basics
  import opened PublicModel
  import opened AgentModel
  import opened AlertBook
  import opened TaskCards
  import opened Lifecycle
  import opened ReducerModel

  class Reducer {
    const cfg: Config
    var agents: seq<Agent>
    var tasks: seq<Task>
    var alerts: seq<Alert>
    var targets: seq<SessionKey>
    var sessions: Sessions
    var order: seq<SessionKey>
    var seen: set<string>
    var seenOrder: seq<string>

    function Shared(): Root
      reads this
    {
      Root(agents, tasks, alerts, targets)
    }

    function View(): Book
      reads this
    {
      Book(Shared(), sessions, order, seen, seenOrder)
    }

    constructor (cfg: Config)
      ensures this.cfg == cfg && View() == EMPTY_BOOK
    {
      this.cfg := cfg;
      agents, tasks, alerts, targets := [], [], [], [];
      sessions, order, seen, seenOrder := map[], [], {}, [];
    }

    // ---------- alerts ----------

    method UpsertAlert(typ: AlertType, key: SessionKey, turn: Option<string>, at: Time, high: Option<Time>, retain: Option<Time>)
      modifies this`alerts
      ensures alerts == Upsert(old(alerts), typ, key, turn, at, high, retain)
    {
      for i := 0 to |alerts|
        invariant alerts == old(alerts)
        invariant forall k :: 0 <= k < i ==> !Names(alerts[k], typ, key, turn)
      {
        if Names(alerts[i], typ, key, turn) {
          var l := alerts[i].(active := true, updatedAt := at);
          if high.Some? {
            l := l.(highUntil := high);
          }
          if retain.Some? {
            l := l.(retainUntil := retain);
          }
          alerts := alerts[i := l];
          return;
        }
      }
      alerts := alerts + [Alert(typ, key, turn, true, at, at, high, retain)];
    }

    method ResolveAlert(typ: AlertType, key: SessionKey, turn: Option<string>, at: Time)
      modifies this`alerts
      ensures alerts == Resolve(old(alerts), typ, key, turn, at)
    {
      for i := 0 to |alerts|
        invariant |alerts| == |old(alerts)|
        invariant forall k :: 0 <= k < i ==> alerts[k] == Resolve(old(alerts), typ, key, turn, at)[k]
        invariant forall k :: i <= k < |alerts| ==> alerts[k] == old(alerts)[k]
      {
        if alerts[i].active && alerts[i].typ == typ && alerts[i].key == key && (turn.None? || alerts[i].turn == turn) {
          alerts := alerts[i := alerts[i].(active := false, updatedAt := at)];
        }
      }
    }

    method ResolveAllAgentAlerts(key: SessionKey, at: Time)
      modifies this`alerts
      ensures alerts == ResolveAll(old(alerts), key, at)
    {
      for i := 0 to |alerts|
        invariant |alerts| == |old(alerts)|
        invariant forall k :: 0 <= k < i ==> alerts[k] == ResolveAll(old(alerts), key, at)[k]
        invariant forall k :: i <= k < |alerts| ==> alerts[k] == old(alerts)[k]
      {
        if alerts[i].key == key && alerts[i].active {
          alerts := alerts[i := alerts[i].(active := false, updatedAt := at)];
        }
      }
    }

    // ---------- moving an agent ----------

    /** Agent `i` now holds turn `x.cur`, and the alert list is `x.alerts`. */
    twostate predicate Moved(i: nat, x: Effect)
      requires i < |old(agents)|
      reads this
    {
      agents == old(agents)[i := old(agents)[i].(cur := x.cur)] && alerts == x.alerts
    }

    method SetTurn(i: nat, cur: CurrentTurn)
      requires i < |agents|
      modifies this`agents
      ensures agents == old(agents)[i := old(agents)[i].(cur := cur)]
    {
      agents := agents[i := agents[i].(cur := cur)];
    }

    method ApplyWorking(i: nat, at: Time)
      requires i < |agents|
      modifies this`agents, this`alerts
      ensures Moved(i, ToWorking(Effect(old(agents)[i].cur, old(alerts)), old(agents)[i].key, at))
    {
      var key, cur := agents[i].key, agents[i].cur;
      var turn := TurnPtr(cur.turn);
      cur := cur.(activity := ActivityWorking, freshness := FreshnessFresh, updatedAt := at);
      if cur.outcome != OutcomeNone {
        cur := cur.(outcome := OutcomeNone, completedAt := None);
      }
      SetTurn(i, cur);
      ResolveAlert(AlertAttention, key, turn, at);
      ResolveAlert(AlertStale, key, turn, at);
      ResolveAlert(AlertComplete, key, turn, at);
      ResolveAlert(AlertError, key, turn, at);
    }

    method RefreshAttentionActivity(i: nat, at: Time)
      requires i < |agents|
      modifies this`agents
      ensures Moved(i, ToRefreshedAttention(Effect(old(agents)[i].cur, old(alerts)), at))
    {
      SetTurn(i, agents[i].cur.(activity := ActivityAttention, freshness := FreshnessFresh, updatedAt := at));
    }

    method ApplyAttention(i: nat, at: Time)
      requires i < |agents|
      modifies this`agents, this`alerts
      ensures Moved(i, ToAttention(Effect(old(agents)[i].cur, old(alerts)), old(agents)[i].key, at))
    {
      var key, cur := agents[i].key, agents[i].cur;
      var turn := TurnPtr(cur.turn);
      if cur.outcome != OutcomeNone {
        cur := cur.(outcome := OutcomeNone, completedAt := None);
        ResolveAlert(AlertComplete, key, turn, at);
        ResolveAlert(AlertError, key, turn, at);
      }
      SetTurn(i, cur.(activity := ActivityAttention, freshness := FreshnessFresh, updatedAt := at));
      ResolveAlert(AlertStale, key, turn, at);
      UpsertAlert(AlertAttention, key, turn, at, None, None);
    }

    method ApplyComplete(i: nat, at: Time)
      requires i < |agents|
      modifies this`agents, this`alerts
      ensures Moved(i, ToComplete(cfg, Effect(old(agents)[i].cur, old(alerts)), old(agents)[i].key, at))
    {
      var key, cur := agents[i].key, agents[i].cur;
      var turn := TurnPtr(cur.turn);
      SetTurn(i, cur.(activity := ActivityIdle, outcome := OutcomeCompleted, freshness := FreshnessFresh,
                      completedAt := Some(at), updatedAt := at));
      ResolveAlert(AlertAttention, key, turn, at);
      ResolveAlert(AlertStale, key, turn, at);
      ResolveAlert(AlertError, key, turn, at);
      UpsertAlert(AlertComplete, key, turn, at, Some(at + cfg.highVisibility), Some(at + cfg.completeRetention));
    }

    method ApplyError(i: nat, at: Time)
      requires i < |agents|
      modifies this`agents, this`alerts
      ensures Moved(i, ToError(Effect(old(agents)[i].cur, old(alerts)), old(agents)[i].key, at))
    {
      var key, cur := agents[i].key, agents[i].cur;
      var turn := TurnPtr(cur.turn);
      SetTurn(i, cur.(activity := ActivityError, outcome := OutcomeFailed, freshness := FreshnessFresh,
                      completedAt := None, updatedAt := at));
      ResolveAlert(AlertAttention, key, turn, at);
      ResolveAlert(AlertStale, key, turn, at);
      ResolveAlert(AlertComplete, key, turn, at);
      UpsertAlert(AlertError, key, turn, at, None, None);
    }

    method ApplyNotification(i: nat, e: Event)
      requires i < |agents| && e.typ == Notification
      modifies this`agents, this`alerts
      ensures Moved(i, Move(cfg, Effect(old(agents)[i].cur, old(alerts)), old(agents)[i].key, MotionOf(e, false), e.at))
    {
      match e.notification
      case None =>
      case Some(IdlePrompt) =>
        var key, cur := agents[i].key, agents[i].cur;
        SetTurn(i, cur.(activity := ActivityIdle, freshness := FreshnessFresh, updatedAt := e.at));
        ResolveAlert(AlertAttention, key, TurnPtr(cur.turn), e.at);
        ResolveAlert(AlertStale, key, TurnPtr(cur.turn), e.at);
      case Some(_) => ApplyAttention(i, e.at);
    }

    // ---------- cards ----------

    method AcknowledgeTerminalTasks(key: SessionKey, at: Time)
      modifies this`tasks
      ensures tasks == AcknowledgeTerminal(old(tasks), key, at)
    {
      for i := 0 to |tasks|
        invariant |tasks| == |old(tasks)|
        invariant forall k :: 0 <= k < i ==> tasks[k] == AcknowledgeTerminal(old(tasks), key, at)[k]
        invariant forall k :: i <= k < |tasks| ==> tasks[k] == old(tasks)[k]
      {
        if SessionOf(tasks[i]) == key && tasks[i].readAt.None? && Terminal(tasks[i].lifecycle) {
          tasks := tasks[i := tasks[i].(readAt := Some(at))];
        }
      }
    }

    method SupersedePriorTurnErrors(key: SessionKey, turn: string, at: Time)
      modifies this`tasks
      ensures tasks == Supersede(old(tasks), key, turn, at)
    {
      for i := 0 to |tasks|
        invariant |tasks| == |old(tasks)|
        invariant forall k :: 0 <= k < i ==> tasks[k] == Supersede(old(tasks), key, turn, at)[k]
        invariant forall k :: i <= k < |tasks| ==> tasks[k] == old(tasks)[k]
      {
        if SessionOf(tasks[i]) == key && tasks[i].key.turn != turn && tasks[i].lifecycle == Error && tasks[i].supersededAt.None? {
          tasks := tasks[i := tasks[i].(supersededAt := Some(at))];
        }
      }
    }

    method DropAbandonedTasks(key: SessionKey, turn: string)
      modifies this`tasks
      ensures tasks == Keep(old(tasks), Standing(key, turn))
    {
      var out: seq<Task> := [];
      for i := 0 to |tasks|
        invariant out == Keep(tasks[..i], Standing(key, turn))
      {
        assert tasks[..i + 1][..i] == tasks[..i];
        var t := tasks[i];
        if !(SessionOf(t) == key && t.key.turn != turn && !Terminal(t.lifecycle)) {
          out := out + [t];
        }
      }
      assert tasks[..|tasks|] == tasks;
      tasks := out;
    }

    // ---------- events ----------

    /** Open a turn; the only refusal is a prompt that names none. */
    method BeginTurn(m: Meta, e: Event) returns (next: Meta, ok: bool)
      modifies this`agents, this`tasks, this`alerts, this`targets
      ensures ok <==> e.turn.Some? && e.turn.value != ""
      ensures if ok && Opens(m, e)
              then Shared() == OpenedRoot(old(Shared()), e, e.turn.value) && next == OpenedMeta(cfg, m, e, e.turn.value)
              else Shared() == old(Shared()) && next == m
    {
      next := m;
      if e.turn.None? || e.turn.value == "" {
        return next, false;
      }
      ok := true;
      var turn := e.turn.value;
      if turn in m.oldTurns || m.current == turn {
        return;
      }
      if m.current != "" && m.latestSession != 0 && e.at < m.latestSession {
        return;
      }
      if m.current != "" {
        next := next.(oldTurns := next.oldTurns + [m.current]);
        if |next.oldTurns| > cfg.maxOldTurns {
          next := next.(oldTurns := next.oldTurns[|next.oldTurns| - cfg.maxOldTurns..]);
        }
      }
      next := next.(current := turn, terminal := "", startedAt := e.at, endedAt := 0, latestTurn := e.at);
      if e.at > next.latestSession {
        next := next.(latestSession := e.at);
      }
      StartTurn(e, turn);
    }

    method StartTurn(e: Event, turn: string)
      modifies this`agents, this`tasks, this`alerts, this`targets
      ensures Shared() == OpenedRoot(old(Shared()), e, turn)
    {
      var key := KeyOf(e);
      var i := LocateAgent(key);
      if i == |agents| {
        agents := agents + [Agent(key, OpenedTurn(e, turn))];
      } else {
        SetTurn(i, OpenedTurn(e, turn));
      }
      if key !in targets {
        targets := targets + [key];
      }
      ResolveAllAgentAlerts(key, e.at);
      DropAbandonedTasks(key, turn);
      tasks := tasks + [NewTask(e, turn)];
    }

    method LocateAgent(key: SessionKey) returns (i: nat)
      ensures i == FindAgent(agents, key)
    {
      i := 0;
      while i < |agents| && agents[i].key != key
        invariant i <= |agents| && forall k :: 0 <= k < i ==> agents[k].key != key
      {
        i := i + 1;
      }
    }

    method LocateTask(key: TaskKey) returns (j: nat)
      ensures j == FindTask(tasks, key)
    {
      j := 0;
      while j < |tasks| && tasks[j].key != key
        invariant j <= |tasks| && forall k :: 0 <= k < j ==> tasks[k].key != key
      {
        j := j + 1;
      }
    }

    method EndSession(m: Meta, e: Event) returns (next: Meta)
      modifies this`agents, this`tasks, this`alerts
      ensures Reduced(Shared(), next, true) == Ended(old(Shared()), m, e)
    {
      next := m.(latestSession := e.at, endedAt := e.at);
      var key := KeyOf(e);
      var i := LocateAgent(key);
      if i == |agents| {
        return;
      }
      SetTurn(i, agents[i].cur.(activity := ActivityIdle, freshness := FreshnessFresh, updatedAt := e.at));
      ResolveAlert(AlertAttention, key, None, e.at);
      ResolveAlert(AlertStale, key, None, e.at);
      if m.current != "" {
        var j := LocateTask(TaskKey(e.provider, e.session, m.current));
        if j < |tasks| {
          var t := Synced(tasks[j].(attention := None), agents[i].cur, e.at);
          if agents[i].cur.outcome == OutcomeNone {
            t := t.(freshness := FreshnessStale, lifecycle := Working);
          }
          tasks := tasks[j := t];
        }
      }
    }

    method MarkUnattributed(e: Event)
      modifies this`agents, this`alerts
      ensures Shared() == Unattributed(old(Shared()), e)
    {
      var i := LocateAgent(KeyOf(e));
      if i < |agents| && agents[i].cur.activity != ActivityIdle && agents[i].cur.activity != ActivityError {
        SetTurn(i, agents[i].cur.(freshness := FreshnessStale));
        UpsertAlert(AlertStale, agents[i].key, TurnPtr(agents[i].cur.turn), e.at, None, None);
      }
    }

    method StopDegraded(m: Meta, e: Event, turn: string) returns (next: Meta)
      modifies this`agents, this`tasks, this`alerts
      ensures Reduced(Shared(), next, true) == DegradedStopped(cfg, old(Shared()), m, e, turn)
    {
      next := m;
      if m.current != turn || (m.latestTurn != 0 && e.at < m.latestTurn) {
        return;
      }
      var i := LocateAgent(KeyOf(e));
      if i < |agents| && agents[i].cur.turn == turn && agents[i].cur.activity != ActivityError {
        ApplyComplete(i, e.at);
        var j := LocateTask(TaskKey(e.provider, e.session, turn));
        if j < |tasks| {
          tasks := tasks[j := AfterEvent(tasks[j], agents[i].cur, e).(attention := None, updatedAt := e.at)];
        }
        next := next.(latestTurn := e.at, terminal := turn);
      }
    }

    /** Move agent `i` as the event says. */
    method MoveAgent(i: nat, e: Event, sticky: bool)
      requires i < |agents|
      modifies this`agents, this`alerts
      ensures Moved(i, Move(cfg, Effect(old(agents)[i].cur, old(alerts)), old(agents)[i].key, MotionOf(e, sticky), e.at))
    {
      match e.typ
      case AskUserQuestion => ApplyAttention(i, e.at);
      case Elicitation => ApplyAttention(i, e.at);
      case PermissionRequest =>
        if AttentionFor(e).Some? { ApplyAttention(i, e.at); } else { ApplyWorking(i, e.at); }
      case Notification => ApplyNotification(i, e);
      case Stop =>
        if StillWorking(e) { ApplyWorking(i, e.at); } else { ApplyComplete(i, e.at); }
      case StopFailure =>
        if e.provider == Claude { ApplyError(i, e.at); }
      case UserPromptSubmit =>
      case SessionEnd =>
      case _ =>
        if sticky { RefreshAttentionActivity(i, e.at); } else { ApplyWorking(i, e.at); }
    }

    method ReduceTurnEvent(m: Meta, e: Event, turn: string) returns (next: Meta)
      modifies this`agents, this`tasks, this`alerts
      ensures Reduced(Shared(), next, true) == TurnEvent(cfg, old(Shared()), m, e, turn)
    {
      next := m;
      if m.current == "" || turn != m.current || (m.latestTurn != 0 && e.at < m.latestTurn) {
        return;
      }
      next := next.(latestTurn := e.at);
      if e.at > next.latestSession {
        next := next.(latestSession := e.at);
      }
      var i := LocateAgent(KeyOf(e));
      if i == |agents| {
        return;
      }
      var j := LocateTask(TaskKey(e.provider, e.session, turn));
      var sticky := j < |tasks| && tasks[j].attention.Some? && !CanClear(tasks[j].attention.value, e);
      MoveAgent(i, e, sticky);
      if Stopped(e) {
        next := next.(terminal := turn);
        SupersedePriorTurnErrors(KeyOf(e), turn, e.at);
      } else if e.typ == StopFailure {
        next := next.(terminal := turn);
      }
      if j < |tasks| {
        tasks := tasks[j := CardAfter(tasks[j], agents[i].cur, e)];
      }
    }

    /** One event against the session metadata `m`; a refusal may leave edits behind for the caller to undo. */
    method ReduceEvent(m: Meta, e: Event) returns (next: Meta, ok: bool)
      modifies this`agents, this`tasks, this`alerts, this`targets
      ensures ok ==> Reduced(Shared(), next, true) == Reduce(cfg, old(Shared()), m, e)
      ensures !ok ==> Reduce(cfg, old(Shared()), m, e) == Reduced(old(Shared()), m, false) && next == m
    {
      next, ok := m, true;
      if e.typ == SessionEnd && m.latestSession != 0 && e.at < m.latestSession {
        return;
      }
      if e.typ == UserPromptSubmit && HistoricalReplay(Shared(), m, e) {
        return;
      }
      if e.typ != UserPromptSubmit && e.typ != SessionEnd && m.endedAt != 0 && e.turn == Some(m.current) {
        return;
      }
      if e.typ == UserPromptSubmit {
        AcknowledgeTerminalTasks(KeyOf(e), e.at);
        next, ok := BeginTurn(m, e);
        return;
      }
      if e.typ == SessionEnd {
        next := EndSession(m, e);
        return;
      }
      if e.turn.None? || e.turn.value == "" {
        MarkUnattributed(e);
        return;
      }
      if m.terminal != "" && e.turn.value == m.terminal {
        return;
      }
      if DegradedStop(e) {
        next := StopDegraded(m, e, e.turn.value);
        return;
      }
      next := ReduceTurnEvent(m, e, e.turn.value);
    }

    /** Reduce the event in one update of the shared state, which a refusal leaves as it was. */
    method UpdateShared(m: Meta, e: Event) returns (next: Meta, ok: bool)
      modifies this`agents, this`tasks, this`alerts, this`targets
      ensures var r := Reduce(cfg, old(Shared()), m, e);
              ok == r.ok && next == r.meta && Shared() == if ok then r.root else old(Shared())
    {
      var before := Shared();
      next, ok := ReduceEvent(m, e);
      if !ok {
        agents, tasks, alerts, targets := before.agents, before.tasks, before.alerts, before.targets;
      }
    }

    /** Take in one hook event: validate, drop replays, find or enrol the session, reduce, commit, remember. */
    method Submit(e: Event) returns (ok: bool)
      requires Usable(cfg)
      modifies this
      ensures View() == Submitted(cfg, old(View()), e)
      ensures !ok ==> Shared() == old(Shared())
    {
      if !WellFormed(e) {
        return false;
      }
      if e.id in seen {
        return true;
      }
      var key := KeyOf(e);
      if key !in sessions {
        Enrol(key);
      }
      var m := if key in sessions then sessions[key] else NEW_META;
      var next: Meta;
      next, ok := UpdateShared(m, e);
      if !ok {
        return;
      }
      if key in sessions {
        sessions := sessions[key := next];
      }
      RememberEventId(e.id);
    }

    method Enrol(key: SessionKey)
      requires key !in sessions
      modifies this`sessions, this`order
      ensures Table(sessions, order) == Enrolled(cfg, Table(old(sessions), old(order)), key)
      ensures key in sessions ==> sessions[key] == NEW_META
    {
      sessions := sessions[key := NEW_META];
      order := order + [key];
      ghost var grown := Table(sessions, order);
      while |order| > cfg.maxSessions
        invariant Evict(Table(sessions, order), cfg.maxSessions) == Evict(grown, cfg.maxSessions)
        invariant key in sessions ==> sessions[key] == NEW_META
        decreases |order|
      {
        var oldest := order[0];
        order := order[1..];
        sessions := sessions - {oldest};
      }
    }

    method RememberEventId(id: string)
      modifies this`seen, this`seenOrder
      ensures Memory(seen, seenOrder) == Remembered(cfg, Memory(old(seen), old(seenOrder)), id)
    {
      seen := seen + {id};
      seenOrder := seenOrder + [id];
      ghost var grown := Memory(seen, seenOrder);
      while |seenOrder| > cfg.maxSeen
        invariant Forget(Memory(seen, seenOrder), cfg.maxSeen) == Forget(grown, cfg.maxSeen)
        decreases |seenOrder|
      {
        var oldest := seenOrder[0];
        seenOrder := seenOrder[1..];
        seen := seen - {oldest};
      }
    }

    // ---------- acknowledgement and maintenance ----------

    /** Mark a terminal card as read; the first read instant wins. */
    method AcknowledgeTask(id: TaskId, target: SessionKey, at: Time) returns (ok: bool)
      modifies this`tasks
      ensures Shared() == Acknowledged(old(Shared()), id, target, at)
      ensures ok <==> CanAck(old(Shared()), id, target, at) && FindTerminal(old(tasks), id.key) < |tasks|
    {
      if !CanAck(Shared(), id, target, at) {
        return false;
      }
      for i := 0 to |tasks|
        invariant tasks == old(tasks)
        invariant forall k :: 0 <= k < i ==> !(tasks[k].key == id.key && Terminal(tasks[k].lifecycle))
      {
        if tasks[i].key == id.key && Terminal(tasks[i].lifecycle) {
          if tasks[i].readAt.None? {
            tasks := tasks[i := tasks[i].(readAt := Some(at))];
          }
          return true;
        }
      }
      return false;
    }

    method NeedsMaintenance(now: Time) returns (needed: bool)
      ensures needed <==> MaintenanceNeeded(cfg, Shared(), now)
    {
      for i := 0 to |agents|
        invariant forall k :: 0 <= k < i ==> !Overdue(cfg, agents[k].cur, now)
      {
        if Overdue(cfg, agents[i].cur, now) {
          return true;
        }
      }
      for i := 0 to |alerts|
        invariant forall k :: 0 <= k < i ==> alerts[k].active && !Expired(alerts[k], now)
      {
        if !alerts[i].active || Expired(alerts[i], now) {
          return true;
        }
      }
      for i := 0 to |tasks|
        invariant forall k :: 0 <= k < i ==> !Disposable(cfg, tasks[k], now)
      {
        if Disposable(cfg, tasks[i], now) {
          return true;
        }
      }
      return false;
    }

    method MarkStale(i: nat, now: Time)
      requires i < |agents|
      modifies this`agents, this`tasks, this`alerts
      ensures Shared() == MarkAgent(cfg, old(Shared()), i, now)
    {
      var key, cur := agents[i].key, agents[i].cur;
      if !Overdue(cfg, cur, now) {
        return;
      }
      var stale := cur.(freshness := FreshnessStale);
      if cur.activity == ActivityAttention {
        stale := stale.(activity := ActivityWorking);
        ResolveAlert(AlertAttention, key, TurnPtr(cur.turn), now);
      }
      SetTurn(i, stale);
      UpsertAlert(AlertStale, key, TurnPtr(cur.turn), now, None, Some(now + cfg.staleRetention));
      var card := TaskKey(key.provider, key.session, cur.turn);
      for j := 0 to |tasks|
        modifies this`tasks
        invariant |tasks| == |old(tasks)|
        invariant forall k :: 0 <= k < j ==> tasks[k] == StaleCards(old(tasks), card, now)[k]
        invariant forall k :: j <= k < |tasks| ==> tasks[k] == old(tasks)[k]
      {
        if tasks[j].key == card {
          tasks := tasks[j := tasks[j].(freshness := FreshnessStale, lifecycle := Working, attention := None, updatedAt := now)];
        }
      }
      assert tasks == StaleCards(old(tasks), card, now);
    }

    method Sweep(now: Time)
      modifies this`tasks, this`alerts
      ensures Shared() == Swept(cfg, old(Shared()), now)
    {
      var keptAlerts: seq<Alert> := [];
      for i := 0 to |alerts|
        invariant keptAlerts == Keep(alerts[..i], Lasting(now))
      {
        assert alerts[..i + 1][..i] == alerts[..i];
        if alerts[i].active && !Expired(alerts[i], now) {
          keptAlerts := keptAlerts + [alerts[i]];
        }
      }
      assert alerts[..|alerts|] == alerts;
      var keptTasks: seq<Task> := [];
      for i := 0 to |tasks|
        invariant keptTasks == Keep(tasks[..i], Kept(cfg, now))
      {
        assert tasks[..i + 1][..i] == tasks[..i];
        if !Disposable(cfg, tasks[i], now) {
          keptTasks := keptTasks + [tasks[i]];
        }
      }
      assert tasks[..|tasks|] == tasks;
      alerts, tasks := keptAlerts, keptTasks;
    }

    /** One maintenance pass: the body runs only when the guard asks for it. */
    method Maintenance(now: Time)
      modifies this`agents, this`tasks, this`alerts
      ensures Shared() == Tended(cfg, old(Shared()), now)
    {
      var needed := NeedsMaintenance(now);
      if !needed {
        return;
      }
      for i := 0 to |agents|
        invariant |agents| == |old(agents)|
        invariant Shared() == MarkAgents(cfg, old(Shared()), i, now)
      {
        MarkStale(i, now);
      }
      Sweep(now);
    }
  }
}
