/**
 The hub's in-memory node store: ordering and idempotency rules for incoming snapshots, the
 acknowledgement overlay that hides clicked cards, and the per-host view a dashboard read gives.
 */
module HubStore {
  import opened Basics
  import opened PublicModel

  const ADMISSION_WINDOW: Time := 30 * SECOND
  const ONLINE_WINDOW: Time := 5 * SECOND
  const STALE_WINDOW: Time := 30 * SECOND
  const RETENTION_WINDOW: Time := 30 * MINUTE

  datatype Ingest = Ingest(session: string, sequence: nat, digest: Digest, generatedAt: Time)

  datatype Record = Record(state: Option<PublicState>, lastReceivedAt: Option<Time>,
                           ingest: Option<Ingest>, retired: set<string>)

  const EMPTY_RECORD := Record(None, None, None, {})

  datatype Verdict =
    | Accepted
    | Duplicate
    | TupleMismatch
    | LowerSequence
    | RetiredSession
    | SessionRegression
    | StaleAdmission
    | NodeMissing

  function IngestOf(p: Envelope): Ingest {
    Ingest(p.session, p.sequence, Sha256(p), p.state.generatedAt)
  }

  /** The rule that decides what happens to packet `p` received at hub instant `at`. */
  function Judge(r: Record, p: Envelope, at: Time): Verdict {
    match r.ingest
    case None => JudgeAge(p, at)
    case Some(ing) =>
      if p.session == ing.session then
        if p.sequence == ing.sequence then
          if Sha256(p) == ing.digest then Duplicate else TupleMismatch
        else if p.sequence < ing.sequence then LowerSequence
        else JudgeAge(p, at)
      else if p.session in r.retired then RetiredSession
      else if p.state.generatedAt < ing.generatedAt then SessionRegression
      else JudgeAge(p, at)
  }

  function JudgeAge(p: Envelope, at: Time): Verdict {
    if at - p.state.generatedAt > ADMISSION_WINDOW then StaleAdmission else Accepted
  }

  /** The record after packet `p` was judged; every refusal leaves it untouched. */
  function Commit(r: Record, p: Envelope, at: Time): Record {
    match Judge(r, p, at)
    case Accepted =>
      Record(Some(p.state), Some(at), Some(IngestOf(p)),
             if r.ingest.Some? && r.ingest.value.session != p.session
             then r.retired + {r.ingest.value.session} else r.retired)
    case Duplicate =>
      if at - p.state.generatedAt <= ADMISSION_WINDOW then r.(lastReceivedAt := Some(at)) else r
    case _ => r
  }

  // ---------- acknowledgement overlay ----------

  type Acks = map<TaskId, Time>

  function AcksOf(acks: map<string, Acks>, host: string): Acks {
    if host in acks then acks[host] else map[]
  }

  function TaskIds(tasks: seq<PublicTask>): set<TaskId> {
    set t | t in tasks :: t.id
  }

  /** What survives of the overlay once the host's state holds exactly `tasks`. */
  function Pruned(acks: map<string, Acks>, host: string, tasks: seq<PublicTask>): map<string, Acks> {
    if host in acks then
      acks[host := map id | id in acks[host] && id in TaskIds(tasks) :: acks[host][id]]
    else acks
  }

  predicate Markable(t: PublicTask, target: string, id: TaskId) {
    t.id == id && Terminal(t.lifecycle) && t.navigation == Some(target)
  }

  predicate CanMark(h: Hub, host: string, target: string, id: TaskId, at: Time) {
    && host != "" && target != "" && id != EmptyId && at != 0
    && host in h.records && h.records[host].state.Some?
    && exists t :: t in h.records[host].state.value.tasks && Markable(t, target, id)
  }

  function Overlaid(t: PublicTask, acks: Acks): PublicTask {
    if t.id in acks then t.(unread := false) else t
  }

  // ---------- read side ----------

  datatype Connection = Online | Stale | Offline

  function ConnectionStatus(last: Option<Time>, now: Time): Connection {
    match last
    case None => Offline
    case Some(at) =>
      if now - at <= ONLINE_WINDOW then Online
      else if now - at <= STALE_WINDOW then Stale
      else Offline
  }

  /** One configured host on the dashboard; `isFresh` is meaningful only when a state is shown. */
  datatype HostView = HostView(host: string, status: Connection, state: Option<PublicState>, isFresh: bool)

  predicate Retained(r: Record, now: Time) {
    r.state.Some? && r.lastReceivedAt.Some? && now - r.lastReceivedAt.value <= RETENTION_WINDOW
  }

  function ViewHost(h: Hub, host: string, now: Time): HostView
    requires host in h.records
  {
    var r := h.records[host];
    var status := ConnectionStatus(r.lastReceivedAt, now);
    if Retained(r, now) then
      var acks := AcksOf(h.readAcks, host);
      var tasks := r.state.value.tasks;
      var shown := r.state.value.(tasks := seq(|tasks|, i requires 0 <= i < |tasks| => Overlaid(tasks[i], acks)));
      HostView(host, status, Some(shown), status == Online)
    else
      HostView(host, status, None, false)
  }

  // ---------- the store as a value, and its steps ----------

  datatype Hub = Hub(records: map<string, Record>, readAcks: map<string, Acks>)

  function Applied(h: Hub, node: string, p: Envelope, at: Time): Hub {
    if node !in h.records then h
    else
      Hub(h.records[node := Commit(h.records[node], p, at)],
          if Judge(h.records[node], p, at) == Accepted then Pruned(h.readAcks, node, p.state.tasks) else h.readAcks)
  }

  function Marked(h: Hub, host: string, target: string, id: TaskId, at: Time): Hub {
    if CanMark(h, host, target, id, at)
    then h.(readAcks := h.readAcks[host := AcksOf(h.readAcks, host)[id := at]])
    else h
  }

  class NodeStateStore {
    const order: seq<string>
    var records: map<string, Record>
    var readAcks: map<string, Acks>

    ghost predicate Valid()
      reads this
    {
      forall id :: id in order ==> id in records
    }

    function View(): Hub
      reads this
    {
      Hub(records, readAcks)
    }

    constructor (order: seq<string>)
      ensures Valid() && this.order == order && readAcks == map[]
      ensures records == map id | id in order :: EMPTY_RECORD
    {
      this.order := order;
      records := map id | id in order :: EMPTY_RECORD;
      readAcks := map[];
    }

    /** Judge one validated snapshot and commit it. */
    method Apply(node: string, snap: Envelope, digest: Digest, receivedAt: Time) returns (v: Verdict)
      requires Valid() && digest == Sha256(snap)
      modifies this`records, this`readAcks
      ensures Valid()
      ensures v == if node in old(records) then Judge(old(records)[node], snap, receivedAt) else NodeMissing
      ensures View() == Applied(old(View()), node, snap, receivedAt)
    {
      if node !in records {
        return NodeMissing;
      }
      var rec := records[node];
      var generatedAt := snap.state.generatedAt;
      if rec.ingest.Some? && snap.session == rec.ingest.value.session && snap.sequence == rec.ingest.value.sequence {
        if digest == rec.ingest.value.digest {
          if receivedAt - generatedAt <= ADMISSION_WINDOW {
            records := records[node := rec.(lastReceivedAt := Some(receivedAt))];
          } else {
            assert records == records[node := rec];
          }
          return Duplicate;
        }
        assert records == records[node := rec];
        return TupleMismatch;
      }
      if rec.ingest.Some? {
        assert records == records[node := rec];
        if snap.session == rec.ingest.value.session {
          if snap.sequence < rec.ingest.value.sequence {
            return LowerSequence;
          }
        } else {
          if snap.session in rec.retired {
            return RetiredSession;
          }
          if generatedAt < rec.ingest.value.generatedAt {
            return SessionRegression;
          }
        }
      }
      if receivedAt - generatedAt > ADMISSION_WINDOW {
        assert records == records[node := rec];
        return StaleAdmission;
      }
      if rec.ingest.Some? && snap.session != rec.ingest.value.session {
        rec := rec.(retired := rec.retired + {rec.ingest.value.session});
      }
      rec := rec.(state := Some(snap.state));
      PruneReadAcks(node, snap.state.tasks);
      rec := rec.(lastReceivedAt := Some(receivedAt));
      rec := rec.(ingest := Some(Ingest(snap.session, snap.sequence, digest, generatedAt)));
      records := records[node := rec];
      return Accepted;
    }

    method PruneReadAcks(host: string, tasks: seq<PublicTask>)
      modifies this`readAcks
      ensures readAcks == Pruned(old(readAcks), host, tasks)
    {
      if host !in readAcks {
        return;
      }
      var present: set<TaskId> := {};
      for i := 0 to |tasks|
        invariant present == TaskIds(tasks[..i])
      {
        assert tasks[..i + 1] == tasks[..i] + [tasks[i]];
        present := present + {tasks[i].id};
      }
      assert tasks[..|tasks|] == tasks;
      var acks := readAcks[host];
      var todo := acks.Keys;
      while todo != {}
        invariant todo <= readAcks[host].Keys
        invariant acks == map id | id in readAcks[host] && (id in todo || id in present) :: readAcks[host][id]
        decreases todo
      {
        var id :| id in todo;
        if id !in present {
          acks := acks - {id};
        }
        todo := todo - {id};
      }
      assert acks == map id | id in readAcks[host] && id in TaskIds(tasks) :: readAcks[host][id];
      readAcks := readAcks[host := acks];
    }

    /** Hide one terminal card the operator opened. */
    method MarkTaskRead(host: string, target: string, id: TaskId, at: Time) returns (ok: bool)
      requires Valid()
      modifies this`readAcks
      ensures Valid()
      ensures ok <==> CanMark(old(View()), host, target, id, at)
      ensures View() == Marked(old(View()), host, target, id, at)
    {
      if host == "" || target == "" || id == EmptyId || at == 0 {
        return false;
      }
      if host !in records || records[host].state.None? {
        return false;
      }
      var tasks := records[host].state.value.tasks;
      for i := 0 to |tasks|
        invariant forall k :: 0 <= k < i ==> !Markable(tasks[k], target, id)
      {
        if Markable(tasks[i], target, id) {
          assert tasks[i] in tasks;
          readAcks := readAcks[host := AcksOf(readAcks, host)[id := at]];
          return true;
        }
      }
      return false;
    }

    /** The host list of one dashboard read, in registry order. */
    method Dashboard(now: Time) returns (hosts: seq<HostView>)
      requires Valid()
      ensures |hosts| == |order|
      ensures forall k :: 0 <= k < |order| ==> hosts[k] == ViewHost(View(), order[k], now)
    {
      hosts := [];
      for n := 0 to |order|
        invariant |hosts| == n
        invariant forall k :: 0 <= k < n ==> hosts[k] == ViewHost(View(), order[k], now)
      {
        var id := order[n];
        var rec := records[id];
        var status := ConnectionStatus(rec.lastReceivedAt, now);
        var view := HostView(id, status, None, false);
        if Retained(rec, now) {
          var shown := ApplyReadAcks(id, rec.state.value);
          view := HostView(id, status, Some(shown), status == Online);
          assert shown.tasks == ViewHost(View(), id, now).state.value.tasks;
        }
        hosts := hosts + [view];
      }
    }

    method ApplyReadAcks(host: string, pub: PublicState) returns (shown: PublicState)
      ensures shown == pub.(tasks := shown.tasks) && |shown.tasks| == |pub.tasks|
      ensures forall k :: 0 <= k < |pub.tasks| ==> shown.tasks[k] == Overlaid(pub.tasks[k], AcksOf(readAcks, host))
    {
      var acks := AcksOf(readAcks, host);
      var tasks := pub.tasks;
      for i := 0 to |tasks|
        invariant |tasks| == |pub.tasks|
        invariant forall k :: 0 <= k < i ==> tasks[k] == Overlaid(pub.tasks[k], acks)
        invariant forall k :: i <= k < |tasks| ==> tasks[k] == pub.tasks[k]
      {
        if tasks[i].id in acks {
          tasks := tasks[i := tasks[i].(unread := false)];
        }
      }
      shown := pub.(tasks := tasks);
    }
  }
}
