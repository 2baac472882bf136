/** Where the reducer's card identity stops holding, and exactly when. */
module ReducerLimits {
  import opened Basics
  import opened PublicModel
  import opened AgentModel
  import opened AlertBook
  import opened TaskCards
  import opened Lifecycle
  import opened LifecycleInvariant
  import opened ReducerModel
  import opened ReducerRuns

  lemma AppendedDistinctIff(tasks: seq<Task>, p: Task -> bool, t: Task)
    requires DistinctCards(tasks) && forall x :: x in tasks && x.key == t.key ==> p(x)
    ensures DistinctCards(Keep(tasks, p) + [t]) <==> forall n :: 0 <= n < |tasks| ==> tasks[n].key != t.key
  {
    var kept := Keep(tasks, p);
    KeepMembers(tasks, p);
    KeepDistinct(tasks, p, (x: Task) => x.key);
    if j :| 0 <= j < |tasks| && tasks[j].key == t.key {
      assert tasks[j] in kept;
      var n :| 0 <= n < |kept| && kept[n] == tasks[j];
      assert (kept + [t])[n].key == (kept + [t])[|kept|].key;
    } else {
      forall n | 0 <= n < |kept| ensures kept[n].key != t.key {
        assert kept[n] in kept;
      }
    }
  }

  /** A prompt that opens a turn leaves card keys unique exactly when no card of that turn is retained. */
  lemma OpeningKeepsCardsDistinctIff(cfg: Config, root: Root, m: Meta, e: Event)
    requires DistinctCards(root.tasks) && e.typ == UserPromptSubmit
    requires !HistoricalReplay(root, m, e) && Opens(m, e)
    ensures DistinctCards(Reduce(cfg, root, m, e).root.tasks)
            <==> FindTask(root.tasks, TaskKey(e.provider, e.session, e.turn.value)) == |root.tasks|
  {
    var read := AcknowledgeTerminal(root.tasks, KeyOf(e), e.at);
    AppendedDistinctIff(read, Standing(KeyOf(e), e.turn.value), NewTask(e, e.turn.value));
    assert forall n :: 0 <= n < |read| ==> read[n].key == root.tasks[n].key;
    assert Reduce(cfg, root, m, e).root.tasks
        == Keep(read, Standing(KeyOf(e), e.turn.value)) + [NewTask(e, e.turn.value)];
  }

  lemma NotBlank(s: string)
    requires |s| > 0 && !IsSpace(s[0])
    ensures !Blank(s)
  {
  }

  function Prompt(id: string, session: string, turn: string, at: Time): Event {
    Event(id, Codex, session, Some(turn), UserPromptSubmit, at, false, None, None, None, None)
  }

  /** A new session that finds the table full costs the oldest session its metadata. */
  lemma EvictionForgets(cfg: Config, b: Book, e: Event)
    requires Usable(cfg) && Evicts(cfg, b, e) && |b.order| == cfg.maxSessions
    requires KeyOf(e) !in b.order
    ensures b.order[0] !in Submitted(cfg, b, e).sessions
    ensures Submitted(cfg, b, e).order == b.order[1..] + [KeyOf(e)]
  {
    var key := KeyOf(e);
    var grown := Table(b.sessions[key := NEW_META], b.order + [key]);
    assert grown.order[1..] == b.order[1..] + [key];
    assert Evict(grown, cfg.maxSessions) == Evict(Table(grown.sessions - {b.order[0]}, grown.order[1..]), cfg.maxSessions);
  }

  /** Once its metadata is forgotten, a repeated prompt of a still-working turn adds a second card for it. */
  lemma ForgottenTurnReopens(cfg: Config, b: Book, e: Event)
    requires WellFormed(e) && e.id !in b.seen && KeyOf(e) !in b.sessions
    requires e.typ == UserPromptSubmit && e.turn.Some? && e.turn.value != "" && DistinctCards(b.root.tasks)
    requires var j := FindTask(b.root.tasks, TaskKey(e.provider, e.session, e.turn.value));
             j < |b.root.tasks| && !Terminal(b.root.tasks[j].lifecycle)
    ensures !DistinctCards(Submitted(cfg, b, e).root.tasks)
  {
    OpeningKeepsCardsDistinctIff(cfg, b.root, NEW_META, e);
    assert Submitted(cfg, b, e).root == Reduce(cfg, b.root, NEW_META, e).root;
  }
}
