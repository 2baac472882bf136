/** The reducer's whole state: the shared root, the bounded session table and the bounded replay memory. */
module ReducerModel {
  import opened Basics
  import opened PublicModel
  import opened AgentModel
  import opened AlertBook
  import opened TaskCards
  import opened Lifecycle

  datatype Book = Book(root: Root, sessions: Sessions, order: seq<SessionKey>, seen: set<string>, seenOrder: seq<string>)

  const EMPTY_BOOK := Book(Root([], [], [], []), map[], [], {}, [])

  // ---------- submitting an event ----------

  datatype Table = Table(sessions: Sessions, order: seq<SessionKey>)

  /** Forget the oldest sessions until the table fits. */
  function Evict(t: Table, max: nat): Table
    decreases |t.order|
  {
    if |t.order| <= max then t
    else Evict(Table(t.sessions - {t.order[0]}, t.order[1..]), max)
  }

  function Enrolled(cfg: Config, t: Table, key: SessionKey): Table {
    if key in t.sessions then t
    else Evict(Table(t.sessions[key := NEW_META], t.order + [key]), cfg.maxSessions)
  }

  datatype Memory = Memory(seen: set<string>, order: seq<string>)

  function Forget(m: Memory, max: nat): Memory
    decreases |m.order|
  {
    if |m.order| <= max then m else Forget(Memory(m.seen - {m.order[0]}, m.order[1..]), max)
  }

  function Remembered(cfg: Config, m: Memory, id: string): Memory {
    Forget(Memory(m.seen + {id}, m.order + [id]), cfg.maxSeen)
  }

  /** Submitting `e` pushes some session's metadata out of the table. */
  predicate Evicts(cfg: Config, b: Book, e: Event) {
    WellFormed(e) && e.id !in b.seen && KeyOf(e) !in b.sessions && |b.order| >= cfg.maxSessions
  }

  function MetaFor(b: Book, key: SessionKey): Meta {
    if key in b.sessions then b.sessions[key] else NEW_META
  }

  /** A refused event changes at most the session table. */
  function Submitted(cfg: Config, b: Book, e: Event): Book {
    if !WellFormed(e) || e.id in b.seen then b
    else
      var key := KeyOf(e);
      var t := Enrolled(cfg, Table(b.sessions, b.order), key);
      var r := Reduce(cfg, b.root, MetaFor(b, key), e);
      var sessions := if key in t.sessions then t.sessions[key := r.meta] else t.sessions;
      if !r.ok then Book(b.root, t.sessions, t.order, b.seen, b.seenOrder)
      else
        var mem := Remembered(cfg, Memory(b.seen, b.seenOrder), e.id);
        Book(r.root, sessions, t.order, mem.seen, mem.order)
  }

  // ---------- acknowledging a card from a display ----------

  predicate CanAck(root: Root, id: TaskId, target: SessionKey, at: Time) {
    id != EmptyId && at != 0 && target in root.targets && target == SessionKey(id.key.provider, id.key.session)
  }

  /** Index of the first terminal card with this key, or the length of the list. */
  function FindTerminal(tasks: seq<Task>, key: TaskKey): (i: nat)
    ensures i <= |tasks|
    ensures i < |tasks| ==> tasks[i].key == key && Terminal(tasks[i].lifecycle)
    ensures forall k :: 0 <= k < i ==> !(tasks[k].key == key && Terminal(tasks[k].lifecycle))
  {
    if tasks == [] || (tasks[0].key == key && Terminal(tasks[0].lifecycle)) then 0
    else
      var j := FindTerminal(tasks[1..], key);
      assert forall k :: 0 < k < 1 + j ==> tasks[k] == tasks[1..][k - 1];
      1 + j
  }

  function Acknowledged(root: Root, id: TaskId, target: SessionKey, at: Time): Root {
    if !CanAck(root, id, target, at) then root
    else
      var i := FindTerminal(root.tasks, id.key);
      if i < |root.tasks| && root.tasks[i].readAt.None?
      then root.(tasks := root.tasks[i := root.tasks[i].(readAt := Some(at))])
      else root
  }

  // ---------- maintenance ----------

  predicate Overdue(cfg: Config, cur: CurrentTurn, now: Time) {
    && cur.activity in {ActivityWorking, ActivityAttention} && cur.freshness == FreshnessFresh
    && cur.updatedAt != 0 && now - cur.updatedAt > cfg.staleAfter
  }

  function StaleCards(tasks: seq<Task>, key: TaskKey, now: Time): (r: seq<Task>)
    ensures |r| == |tasks|
  {
    seq(|tasks|, i requires 0 <= i < |tasks| =>
      if tasks[i].key == key
      then tasks[i].(freshness := FreshnessStale, lifecycle := Working, attention := None, updatedAt := now)
      else tasks[i])
  }

  function StaleTurn(cur: CurrentTurn): CurrentTurn {
    cur.(freshness := FreshnessStale, activity := ActivityWorking)
  }

  function StaleAlerts(cfg: Config, alerts: seq<Alert>, key: SessionKey, cur: CurrentTurn, now: Time): seq<Alert> {
    var turn := TurnPtr(cur.turn);
    Upsert(if cur.activity == ActivityAttention then Resolve(alerts, AlertAttention, key, turn, now) else alerts,
           AlertStale, key, turn, now, None, Some(now + cfg.staleRetention))
  }

  function MarkAgent(cfg: Config, root: Root, i: nat, now: Time): (r: Root)
    requires i < |root.agents|
    ensures |r.agents| == |root.agents|
  {
    var a := root.agents[i];
    if Overdue(cfg, a.cur, now) then
      root.(agents := root.agents[i := a.(cur := StaleTurn(a.cur))],
            alerts := StaleAlerts(cfg, root.alerts, a.key, a.cur, now),
            tasks := StaleCards(root.tasks, TaskKey(a.key.provider, a.key.session, a.cur.turn), now))
    else root
  }

  /** The root once the first `n` agents have been looked at. */
  function MarkAgents(cfg: Config, root: Root, n: nat, now: Time): (r: Root)
    requires n <= |root.agents|
    ensures |r.agents| == |root.agents|
  {
    if n == 0 then root else MarkAgent(cfg, MarkAgents(cfg, root, n - 1, now), n - 1, now)
  }

  /** What every single marking keeps, marking all agents keeps. */
  lemma {:induction false} MarkAgentsInvariant(cfg: Config, root: Root, n: nat, now: Time, keeps: Root -> bool)
    requires n <= |root.agents| && keeps(root)
    requires forall r: Root, i: nat :: keeps(r) && i < |r.agents| ==> keeps(MarkAgent(cfg, r, i, now))
    ensures keeps(MarkAgents(cfg, root, n, now))
  {
    if n > 0 {
      MarkAgentsInvariant(cfg, root, n - 1, now, keeps);
    }
  }

  predicate Expired(l: Alert, now: Time) {
    l.typ in {AlertComplete, AlertStale} && l.retainUntil.Some? && now >= l.retainUntil.value
  }

  function Lasting(now: Time): Alert -> bool {
    (l: Alert) => l.active && !Expired(l, now)
  }

  predicate Disposable(cfg: Config, t: Task, now: Time) {
    || (t.lifecycle == Complete && t.readAt.Some? && now >= t.readAt.value + cfg.completeRetention)
    || (t.lifecycle == Error && t.readAt.Some? && t.supersededAt.Some? && now >= t.readAt.value + cfg.completeRetention)
    || (t.lifecycle == Working && t.freshness == FreshnessStale && t.updatedAt != 0 && now >= t.updatedAt + cfg.staleRetention)
  }

  function Kept(cfg: Config, now: Time): Task -> bool {
    (t: Task) => !Disposable(cfg, t, now)
  }

  function Swept(cfg: Config, root: Root, now: Time): Root {
    root.(alerts := Keep(root.alerts, Lasting(now)), tasks := Keep(root.tasks, Kept(cfg, now)))
  }

  /** The body of a maintenance pass, run or not. */
  function Maintained(cfg: Config, root: Root, now: Time): Root {
    Swept(cfg, MarkAgents(cfg, root, |root.agents|, now), now)
  }

  /** The guard that decides whether the body runs. */
  predicate MaintenanceNeeded(cfg: Config, root: Root, now: Time) {
    || (exists i :: 0 <= i < |root.agents| && Overdue(cfg, root.agents[i].cur, now))
    || (exists i :: 0 <= i < |root.alerts| && (!root.alerts[i].active || Expired(root.alerts[i], now)))
    || (exists i :: 0 <= i < |root.tasks| && Disposable(cfg, root.tasks[i], now))
  }

  function Tended(cfg: Config, root: Root, now: Time): Root {
    if MaintenanceNeeded(cfg, root, now) then Maintained(cfg, root, now) else root
  }

  // ---------- the guard is exact ----------

  lemma {:induction false} MarkAgentsOverdue(cfg: Config, root: Root, n: nat, now: Time)
    requires n <= |root.agents|
    ensures var r := MarkAgents(cfg, root, n, now);
            && (forall i :: 0 <= i < n ==> !Overdue(cfg, r.agents[i].cur, now))
            && (forall i :: n <= i < |root.agents| ==> r.agents[i] == root.agents[i])
            && (forall i :: 0 <= i < n && Overdue(cfg, root.agents[i].cur, now) ==> r.agents[i] != root.agents[i])
            && ((forall i :: 0 <= i < n ==> !Overdue(cfg, root.agents[i].cur, now)) ==> r == root)
  {
    if n > 0 {
      MarkAgentsOverdue(cfg, root, n - 1, now);
    }
  }

  lemma QuietPassChangesNothing(cfg: Config, root: Root, now: Time)
    requires !MaintenanceNeeded(cfg, root, now)
    ensures Maintained(cfg, root, now) == root
  {
    MarkAgentsOverdue(cfg, root, |root.agents|, now);
    KeepEverything(root.alerts, Lasting(now));
    KeepEverything(root.tasks, Kept(cfg, now));
  }

  lemma NeededPassChanges(cfg: Config, root: Root, now: Time)
    requires MaintenanceNeeded(cfg, root, now)
    ensures Maintained(cfg, root, now) != root
  {
    MarkAgentsOverdue(cfg, root, |root.agents|, now);
    if i :| 0 <= i < |root.agents| && Overdue(cfg, root.agents[i].cur, now) {
      assert Maintained(cfg, root, now).agents[i] != root.agents[i];
    } else if i :| 0 <= i < |root.alerts| && (!root.alerts[i].active || Expired(root.alerts[i], now)) {
      KeepMembers(root.alerts, Lasting(now));
      assert root.alerts[i] in root.alerts && root.alerts[i] !in Maintained(cfg, root, now).alerts;
    } else {
      var i :| 0 <= i < |root.tasks| && Disposable(cfg, root.tasks[i], now);
      KeepMembers(root.tasks, Kept(cfg, now));
      assert root.tasks[i] in root.tasks && root.tasks[i] !in Maintained(cfg, root, now).tasks;
    }
  }

  lemma PassSettles(cfg: Config, root: Root, now: Time)
    ensures !MaintenanceNeeded(cfg, Maintained(cfg, root, now), now)
  {
    var marked := MarkAgents(cfg, root, |root.agents|, now);
    var swept := Maintained(cfg, root, now);
    MarkAgentsOverdue(cfg, root, |root.agents|, now);
    KeepMembers(marked.alerts, Lasting(now));
    KeepMembers(marked.tasks, Kept(cfg, now));
    forall i | 0 <= i < |swept.alerts| ensures swept.alerts[i].active && !Expired(swept.alerts[i], now) {
      assert swept.alerts[i] in swept.alerts;
    }
    forall i | 0 <= i < |swept.tasks| ensures !Disposable(cfg, swept.tasks[i], now) {
      assert swept.tasks[i] in swept.tasks;
    }
  }

  /**
   A pass whose guard is false would change nothing, one whose guard is true changes something, and
   right after a pass the guard is false.
   */
  lemma MaintenanceGuardExact(cfg: Config, root: Root, now: Time)
    ensures MaintenanceNeeded(cfg, root, now) <==> Maintained(cfg, root, now) != root
    ensures Tended(cfg, root, now) == Maintained(cfg, root, now)
    ensures !MaintenanceNeeded(cfg, Tended(cfg, root, now), now)
  {
    PassSettles(cfg, root, now);
    if MaintenanceNeeded(cfg, root, now) {
      NeededPassChanges(cfg, root, now);
    } else {
      QuietPassChangesNothing(cfg, root, now);
    }
  }
}
