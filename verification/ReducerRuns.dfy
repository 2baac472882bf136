/** Whole runs of the reducer: any interleaving of events, display acknowledgements and maintenance. */
module ReducerRuns {
  import opened Basics
  import opened PublicModel
  import opened AgentModel
  import opened AlertBook
  import opened TaskCards
  import opened Lifecycle
  import opened LifecycleInvariant
  import opened ReducerModel
  import opened ReducerSteps

  datatype Input =
    | Submit(event: Event)
    | Acknowledge(id: TaskId, target: SessionKey, at: Time)
    | Maintain(now: Time)

  function Step(cfg: Config, b: Book, i: Input): Book {
    match i
    case Submit(e) => Submitted(cfg, b, e)
    case Acknowledge(id, target, at) => b.(root := Acknowledged(b.root, id, target, at))
    case Maintain(now) => b.(root := Tended(cfg, b.root, now))
  }

  /** The input pushes no session out of the table and opens no turn named by white space alone. */
  predicate Regular(cfg: Config, b: Book, i: Input) {
    i.Submit? ==>
      && !Evicts(cfg, b, i.event)
      && (i.event.typ == UserPromptSubmit && i.event.turn.Some? && i.event.turn.value != "" ==> !Blank(i.event.turn.value))
  }

  datatype Trace = Trace(cfg: Config, books: seq<Book>, inputs: seq<Input>)

  ghost predicate Behaviour(tr: Trace) {
    && Usable(tr.cfg)
    && |tr.books| == |tr.inputs| + 1
    && tr.books[0] == EMPTY_BOOK
    && forall k :: 0 <= k < |tr.inputs| ==> tr.books[k + 1] == Step(tr.cfg, tr.books[k], tr.inputs[k])
  }

  ghost predicate RegularRun(tr: Trace) {
    Behaviour(tr) && forall k :: 0 <= k < |tr.inputs| ==> Regular(tr.cfg, tr.books[k], tr.inputs[k])
  }

  ghost predicate Sane(b: Book) {
    Consistent(b.root, b.sessions)
  }

  // ---------- the agreement holds throughout ----------

  /** Without an eviction, the event is reduced against the session's own metadata. */
  lemma SubmitPlain(cfg: Config, b: Book, e: Event)
    requires WellFormed(e) && e.id !in b.seen && !Evicts(cfg, b, e)
    ensures var r := Reduce(cfg, b.root, MetaFor(b, KeyOf(e)), e);
            var after := Submitted(cfg, b, e);
            && after.root == (if r.ok then r.root else b.root)
            && after.sessions == b.sessions[KeyOf(e) := r.meta]
  {
    var r := Reduce(cfg, b.root, MetaFor(b, KeyOf(e)), e);
    assert !r.ok ==> r.meta == MetaFor(b, KeyOf(e));
    if KeyOf(e) in b.sessions {
      assert !r.ok ==> b.sessions == b.sessions[KeyOf(e) := r.meta];
    }
  }

  lemma StepKeepsSane(cfg: Config, b: Book, i: Input)
    requires Sane(b) && Regular(cfg, b, i)
    ensures Sane(Step(cfg, b, i))
  {
    match i
    case Submit(e) =>
      if WellFormed(e) && e.id !in b.seen {
        SubmitKeepsSane(cfg, b, e);
      }
    case Acknowledge(id, target, at) => RemarkedCards(b.root, Acknowledged(b.root, id, target, at).tasks, b.sessions);
    case Maintain(now) => MaintainedKeeps(cfg, b.root, b.sessions, now);
  }

  lemma SubmitKeepsSane(cfg: Config, b: Book, e: Event)
    requires Sane(b) && Regular(cfg, b, Submit(e)) && WellFormed(e) && e.id !in b.seen
    ensures Sane(Submitted(cfg, b, e))
  {
    var key := KeyOf(e);
    SubmitPlain(cfg, b, e);
    var sessions := b.sessions[key := MetaFor(b, key)];
    if key in b.sessions {
      assert sessions == b.sessions;
    } else {
      SessionTouched(b.root, b.sessions, key, NEW_META);
    }
    ReduceKeeps(cfg, b.root, sessions, e);
    assert sessions[key := Reduce(cfg, b.root, sessions[key], e).meta]
        == b.sessions[key := Reduce(cfg, b.root, sessions[key], e).meta];
  }

  lemma {:induction false} AlwaysSane(tr: Trace, k: nat)
    requires RegularRun(tr) && k < |tr.books|
    ensures Sane(tr.books[k])
  {
    if k > 0 {
      AlwaysSane(tr, k - 1);
      StepKeepsSane(tr.cfg, tr.books[k - 1], tr.inputs[k - 1]);
    }
  }

  ghost predicate Active(alerts: seq<Alert>, typ: AlertType, key: SessionKey) {
    exists l :: l in alerts && l.active && l.typ == typ && l.key == key
  }

  /**
   At most one alert per (type, agent, turn); every active alert is for its agent's current turn; attention
   is active exactly when the activity is attention, error exactly when the outcome is failed; an active
   completion or staleness notice implies that outcome or freshness.
   */
  ghost predicate Agreeing(root: Root) {
    && Unique(root.alerts)
    && (forall l :: l in root.alerts && l.active ==>
          exists a :: a in root.agents && a.key == l.key && l.turn == Some(a.cur.turn))
    && (forall a :: a in root.agents ==>
          && (Active(root.alerts, AlertAttention, a.key) <==> a.cur.activity == ActivityAttention)
          && (Active(root.alerts, AlertError, a.key) <==> a.cur.outcome == OutcomeFailed)
          && (Active(root.alerts, AlertComplete, a.key) ==> a.cur.outcome == OutcomeCompleted)
          && (Active(root.alerts, AlertStale, a.key) ==> a.cur.freshness == FreshnessStale))
  }

  lemma ActiveIsFlag(alerts: seq<Alert>, typ: AlertType, key: SessionKey)
    ensures Active(alerts, typ, key) <==> typ in Flags(alerts, key)
  {
    if typ in Flags(alerts, key) {
      var i :| 0 <= i < |alerts| && alerts[i].active && alerts[i].key == key && alerts[i].typ == typ;
      assert alerts[i] in alerts;
    }
  }

  lemma AgreementShows(root: Root, sessions: Sessions)
    requires AgentsOk(root, sessions) && Unique(root.alerts)
    requires forall k: SessionKey :: k !in AgentKeys(root.agents) ==> Flags(root.alerts, k) == {}
    ensures Agreeing(root)
  {
    forall l | l in root.alerts && l.active
      ensures exists a :: a in root.agents && a.key == l.key && l.turn == Some(a.cur.turn)
    {
      assert l.typ in Flags(root.alerts, l.key);
      var i :| 0 <= i < |root.agents| && root.agents[i].key == l.key;
      assert root.agents[i] in root.agents;
    }
    forall a, typ ensures Active(root.alerts, typ, a) <==> typ in Flags(root.alerts, a) {
      ActiveIsFlag(root.alerts, typ, a);
    }
  }

  /** In every reachable state agents and alerts agree. */
  lemma ViewsAgree(tr: Trace, k: nat)
    requires RegularRun(tr) && k < |tr.books|
    ensures Agreeing(tr.books[k].root)
  {
    AlwaysSane(tr, k);
    AgreementShows(tr.books[k].root, tr.books[k].sessions);
  }

  /** In every reachable state cards and agents have unique keys, and a session has at most one live card. */
  lemma CardsAndAgentsUnique(tr: Trace, k: nat)
    requires RegularRun(tr) && k < |tr.books|
    ensures var root := tr.books[k].root;
            && DistinctCards(root.tasks)
            && (forall i, j :: 0 <= i < j < |root.agents| ==> root.agents[i].key != root.agents[j].key)
            && (forall i, j :: 0 <= i < j < |root.tasks| && SessionOf(root.tasks[i]) == SessionOf(root.tasks[j]) ==>
                  Terminal(root.tasks[i].lifecycle) || Terminal(root.tasks[j].lifecycle))
  {
    AlwaysSane(tr, k);
    var b := tr.books[k];
    forall i, j | 0 <= i < j < |b.root.tasks| && SessionOf(b.root.tasks[i]) == SessionOf(b.root.tasks[j])
      ensures Terminal(b.root.tasks[i].lifecycle) || Terminal(b.root.tasks[j].lifecycle)
    {
      LiveCardIsCurrent(b.root, b.sessions, i);
      LiveCardIsCurrent(b.root, b.sessions, j);
    }
  }

  /** What opening a turn does to the cards. */
  lemma OpeningCards(cfg: Config, root: Root, m: Meta, e: Event)
    requires e.typ == UserPromptSubmit && !HistoricalReplay(root, m, e) && Opens(m, e)
    ensures Reduce(cfg, root, m, e).root.tasks
         == Keep(AcknowledgeTerminal(root.tasks, KeyOf(e), e.at), Standing(KeyOf(e), e.turn.value)) + [NewTask(e, e.turn.value)]
  {
  }
}
