/**
 Runs, for every configuration, that end with two cards for one turn: one in which a session's metadata is evicted,
 and one without any eviction in which a turn is named by white space. The second goes on to lose an error that
 nothing recovered.
 */
module ReducerBreaks {
  import opened Basics
  import opened PublicModel
  import opened AgentModel
  import opened TaskCards
  import opened Lifecycle
  import opened LifecycleInvariant
  import opened ReducerModel
  import opened ReducerRuns
  import opened ReducerLimits
  import opened ReducerFinality

  // ---------- runs from the empty state ----------

  function RunOf(cfg: Config, inputs: seq<Input>): Book {
    if inputs == [] then EMPTY_BOOK else Step(cfg, RunOf(cfg, inputs[..|inputs| - 1]), inputs[|inputs| - 1])
  }

  function TraceOf(cfg: Config, inputs: seq<Input>): Trace {
    Trace(cfg, seq(|inputs| + 1, k requires 0 <= k <= |inputs| => RunOf(cfg, inputs[..k])), inputs)
  }

  lemma TraceBehaves(cfg: Config, inputs: seq<Input>)
    requires Usable(cfg)
    ensures Behaviour(TraceOf(cfg, inputs)) && TraceOf(cfg, inputs).books[|inputs|] == RunOf(cfg, inputs)
  {
    var tr := TraceOf(cfg, inputs);
    forall k | 0 <= k < |inputs| ensures tr.books[k + 1] == Step(cfg, tr.books[k], inputs[k]) {
      NextBook(cfg, inputs, k);
    }
    assert tr.books[0] == RunOf(cfg, inputs[..0]) && inputs[..0] == [] && inputs[..|inputs|] == inputs;
  }

  lemma NextBook(cfg: Config, inputs: seq<Input>, k: nat)
    requires k < |inputs|
    ensures RunOf(cfg, inputs[..k + 1]) == Step(cfg, RunOf(cfg, inputs[..k]), inputs[k])
  {
    assert inputs[..k + 1] == inputs[..k] + [inputs[k]];
    RunSnoc(cfg, inputs[..k], inputs[k]);
  }

  /** What holds after the first inputs and is carried over by each further one holds after all of them. */
  lemma {:induction false} RunInvariant(cfg: Config, first: seq<Input>, more: seq<Input>, n: nat, holds: (Book, nat) -> bool)
    requires n <= |more| && holds(RunOf(cfg, first), 0)
    requires forall b: Book, k: nat :: k < |more| && holds(b, k) ==> holds(Step(cfg, b, more[k]), k + 1)
    ensures holds(RunOf(cfg, first + more[..n]), n)
  {
    if n == 0 {
      assert first + more[..0] == first;
    } else {
      RunInvariant(cfg, first, more, n - 1, holds);
      RunTake(cfg, first, more, n);
    }
  }

  lemma RunTake(cfg: Config, first: seq<Input>, more: seq<Input>, n: nat)
    requires 0 < n <= |more|
    ensures RunOf(cfg, first + more[..n]) == Step(cfg, RunOf(cfg, first + more[..n - 1]), more[n - 1])
  {
    var front := first + more[..n - 1];
    assert first + more[..n] == front + [more[n - 1]];
    RunSnoc(cfg, front, more[n - 1]);
  }

  lemma RunSnoc(cfg: Config, inputs: seq<Input>, i: Input)
    ensures RunOf(cfg, inputs + [i]) == Step(cfg, RunOf(cfg, inputs), i)
  {
    assert (inputs + [i])[..|inputs|] == inputs;
  }

  /** Distinct names, as many as needed. */
  function Tag(i: nat): string {
    seq(i + 1, k requires 0 <= k <= i => 'x')
  }

  lemma TagsDiffer(i: nat, j: nat)
    ensures Tag(i) == Tag(j) ==> i == j
    ensures !Blank(Tag(i)) && Tag(i) != "" && Tag(i) != " "
  {
    assert |Tag(i)| == i + 1 && |Tag(j)| == j + 1;
    assert Tag(i)[0] == 'x';
    NotBlank(Tag(i));
  }

  lemma {:induction false} ForgetsOnly(m: Memory, max: nat)
    ensures Forget(m, max).seen <= m.seen
    decreases |m.order|
  {
    if |m.order| > max {
      ForgetsOnly(Memory(m.seen - {m.order[0]}, m.order[1..]), max);
    }
  }

  // ---------- eviction ----------

  function Newcomer(i: nat): Event {
    Prompt(Tag(i), Tag(i), "t", i + 1)
  }

  function KeyAt(i: nat): SessionKey {
    SessionKey(Codex, Tag(i))
  }

  function KeysFrom(a: nat, b: nat): seq<SessionKey>
    requires a <= b
  {
    seq(b - a, k requires 0 <= k < b - a => KeyAt(a + k))
  }

  lemma KeyOutside(a: nat, b: nat, n: nat)
    requires a <= b && !(a <= n < b)
    ensures KeyAt(n) !in KeysFrom(a, b)
  {
    forall j | 0 <= j < b - a ensures KeysFrom(a, b)[j] != KeyAt(n) {
      assert KeysFrom(a, b)[j] == KeyAt(a + j);
      TagsDiffer(a + j, n);
    }
  }

  function Newcomers(n: nat): seq<Input> {
    seq(n, i requires 0 <= i < n => Submit(Newcomer(i)))
  }

  /** After `n` sessions prompted once each: the youngest sessions are in the table, all cards are there. */
  ghost predicate Crowded(cfg: Config, b: Book, n: nat) {
    && (forall i: nat :: i >= n ==> Tag(i) !in b.seen)
    && b.order == KeysFrom(Max(0, n - cfg.maxSessions), n)
    && (forall k :: k in b.sessions ==> k in b.order)
    && DistinctCards(b.root.tasks)
    && (forall t :: t in b.root.tasks ==> exists i: nat :: i < n && t.key == TaskKey(Codex, Tag(i), "t"))
    && (n > 0 ==> LiveCard(b.root.tasks, TaskKey(Codex, Tag(0), "t")))
  }

  ghost predicate LiveCard(tasks: seq<Task>, key: TaskKey) {
    exists t :: t in tasks && t.key == key && !Terminal(t.lifecycle)
  }

  /** Enrolling one more session keeps the youngest ones. */
  lemma EnrolKeepsYoungest(cfg: Config, sessions: Sessions, n: nat)
    requires Usable(cfg) && KeyAt(n) !in sessions
    requires forall k :: k in sessions ==> k in KeysFrom(Max(0, n - cfg.maxSessions), n)
    ensures var t := Enrolled(cfg, Table(sessions, KeysFrom(Max(0, n - cfg.maxSessions), n)), KeyAt(n));
            && t.order == KeysFrom(Max(0, n + 1 - cfg.maxSessions), n + 1)
            && KeyAt(n) in t.sessions
            && (forall k :: k in t.sessions ==> k in t.order)
  {
    var low, key := Max(0, n - cfg.maxSessions), KeyAt(n);
    var order := KeysFrom(low, n);
    var grown := Table(sessions[key := NEW_META], order + [key]);
    assert grown.order == KeysFrom(low, n + 1);
    assert key == grown.order[|order|];
    forall k | k in sessions ensures k in grown.order {
      var j :| 0 <= j < |order| && order[j] == k;
      assert grown.order[j] == k;
    }
    if n >= cfg.maxSessions {
      var rest := grown.order[1..];
      assert rest == KeysFrom(low + 1, n + 1);
      var after := Table(grown.sessions - {grown.order[0]}, rest);
      assert Evict(grown, cfg.maxSessions) == Evict(after, cfg.maxSessions) == after;
      TagsDiffer(low, n);
      assert grown.order[0] == KeyAt(low) != key;
      assert key == rest[|rest| - 1];
      forall k | k in after.sessions ensures k in rest {
        var j :| 0 <= j < |grown.order| && grown.order[j] == k;
        assert rest[j - 1] == k;
      }
    }
  }

  /** A session without cards adds one and leaves the others alone. */
  lemma FirstPromptCards(cfg: Config, root: Root, e: Event)
    requires e.typ == UserPromptSubmit && e.turn.Some? && e.turn.value != ""
    requires forall t :: t in root.tasks ==> SessionOf(t) != KeyOf(e)
    ensures var r := Reduce(cfg, root, NEW_META, e); r.ok && r.root.tasks == root.tasks + [NewTask(e, e.turn.value)]
  {
    var turn := e.turn.value;
    forall j | 0 <= j < |root.tasks| ensures root.tasks[j].key != TaskKey(e.provider, e.session, turn) {
      var t := root.tasks[j];
      assert t in root.tasks && SessionOf(t) != KeyOf(e);
    }
    OpeningCards(cfg, root, NEW_META, e);
    var read := AcknowledgeTerminal(root.tasks, KeyOf(e), e.at);
    forall i | 0 <= i < |root.tasks| ensures read[i] == root.tasks[i] {
      assert root.tasks[i] in root.tasks;
    }
    assert read == root.tasks;
    KeepEverything(root.tasks, Standing(KeyOf(e), turn));
  }

  lemma CrowdedStep(cfg: Config, b: Book, n: nat)
    requires Usable(cfg) && Crowded(cfg, b, n)
    ensures Crowded(cfg, Step(cfg, b, Submit(Newcomer(n))), n + 1)
  {
    var e, key := Newcomer(n), KeyAt(n);
    TagsDiffer(n, n);
    assert KeyOf(e) == key && WellFormed(e);
    KeyOutside(Max(0, n - cfg.maxSessions), n, n);
    assert key !in b.sessions;
    EnrolKeepsYoungest(cfg, b.sessions, n);
    forall t | t in b.root.tasks ensures SessionOf(t) != key && t.key != NewTask(e, "t").key {
      var i: nat :| i < n && t.key == TaskKey(Codex, Tag(i), "t");
      TagsDiffer(i, n);
    }
    FirstPromptCards(cfg, b.root, e);
    ForgetsOnly(Memory(b.seen + {e.id}, b.seenOrder + [e.id]), cfg.maxSeen);
    var after := Step(cfg, b, Submit(e));
    assert after.root.tasks == b.root.tasks + [NewTask(e, "t")];
    CrowdedRest(cfg, b, after, n);
  }

  lemma CrowdedRest(cfg: Config, b: Book, after: Book, n: nat)
    requires Crowded(cfg, b, n) && after.root.tasks == b.root.tasks + [NewTask(Newcomer(n), "t")]
    requires after.seen <= b.seen + {Tag(n)}
    requires forall t :: t in b.root.tasks ==> t.key != NewTask(Newcomer(n), "t").key
    ensures forall i: nat :: i >= n + 1 ==> Tag(i) !in after.seen
    ensures DistinctCards(after.root.tasks) && LiveCard(after.root.tasks, TaskKey(Codex, Tag(0), "t"))
    ensures forall t :: t in after.root.tasks ==> exists i: nat :: i < n + 1 && t.key == TaskKey(Codex, Tag(i), "t")
  {
    forall i: nat | i >= n + 1 ensures Tag(i) !in after.seen {
      TagsDiffer(i, n);
    }
    var e := Newcomer(n);
    assert NewTask(e, "t") in after.root.tasks;
    forall t | t in after.root.tasks ensures exists i: nat :: i < n + 1 && t.key == TaskKey(Codex, Tag(i), "t") {
      if t in b.root.tasks {
        var i: nat :| i < n && t.key == TaskKey(Codex, Tag(i), "t");
      } else {
        assert t.key == TaskKey(Codex, Tag(n), "t");
      }
    }
    if n > 0 {
      var t :| t in b.root.tasks && t.key == TaskKey(Codex, Tag(0), "t") && !Terminal(t.lifecycle);
      assert t in after.root.tasks;
    }
  }

  lemma NewcomersCrowd(cfg: Config, n: nat)
    requires Usable(cfg)
    ensures Crowded(cfg, RunOf(cfg, Newcomers(n)), n)
  {
    assert KeysFrom(0, 0) == [];
    var inputs := Newcomers(n);
    forall b: Book, k: nat | k < n && Crowded(cfg, b, k) ensures Crowded(cfg, Step(cfg, b, inputs[k]), k + 1) {
      CrowdedStep(cfg, b, k);
    }
    RunInvariant(cfg, [], inputs, n, (b: Book, k: nat) => Crowded(cfg, b, k));
    assert [] + inputs[..n] == inputs;
  }

  /** One session more than the table holds, then the first one's prompt again. */
  function EvictionRun(cfg: Config): seq<Input> {
    var n := cfg.maxSessions + 1;
    Newcomers(n) + [Submit(Prompt(Tag(n), Tag(0), "t", n + 1))]
  }

  /** For every configuration: a run in which an eviction ends in two cards for one working turn. */
  lemma EvictionDuplicatesCard(cfg: Config)
    requires Usable(cfg)
    ensures Behaviour(TraceOf(cfg, EvictionRun(cfg)))
    ensures !DistinctCards(RunOf(cfg, EvictionRun(cfg)).root.tasks)
  {
    TraceBehaves(cfg, EvictionRun(cfg));
    var n := cfg.maxSessions + 1;
    NewcomersCrowd(cfg, n);
    var e := Prompt(Tag(n), Tag(0), "t", n + 1);
    EvictedReopens(cfg, RunOf(cfg, Newcomers(n)), e);
    RunSnoc(cfg, Newcomers(n), Submit(e));
  }

  lemma EvictedReopens(cfg: Config, b: Book, e: Event)
    requires Usable(cfg) && Crowded(cfg, b, cfg.maxSessions + 1)
    requires e == Prompt(Tag(cfg.maxSessions + 1), Tag(0), "t", cfg.maxSessions + 1 + 1)
    ensures !DistinctCards(Step(cfg, b, Submit(e)).root.tasks)
  {
    var n := cfg.maxSessions + 1;
    TagsDiffer(n, n);
    TagsDiffer(0, 0);
    KeyOutside(1, n, 0);
    assert KeyOf(e) == KeyAt(0) && KeyOf(e) !in b.sessions;
    LiveCardFound(b.root.tasks, TaskKey(Codex, Tag(0), "t"));
    ForgottenTurnReopens(cfg, b, e);
  }

  lemma LiveCardFound(tasks: seq<Task>, key: TaskKey)
    requires DistinctCards(tasks) && LiveCard(tasks, key)
    ensures var j := FindTask(tasks, key); j < |tasks| && !Terminal(tasks[j].lifecycle)
  {
    var t :| t in tasks && t.key == key && !Terminal(t.lifecycle);
    var i :| 0 <= i < |tasks| && tasks[i] == t;
  }

  // ---------- a turn named by white space ----------

  const BLANK := " "
  const HOME := SessionKey(Claude, "s")
  const BLANK_CARD := TaskKey(Claude, "s", BLANK)

  /** The blank turn first, then as many others as asked for. */
  function TurnName(n: nat): string {
    if n == 0 then BLANK else Tag(n)
  }

  function TurnNames(n: nat): seq<string> {
    seq(n, k requires 0 <= k < n => TurnName(k))
  }

  function Recent(s: seq<string>, max: nat): seq<string> {
    if |s| > max then s[|s| - max..] else s
  }

  /** Prompt number `i` of the run. */
  function Ask(i: nat, turn: string): Event {
    Event(Tag(i), Claude, "s", Some(turn), UserPromptSubmit, i + 1, false, None, None, None, None)
  }

  function Opening(n: nat): Event {
    Ask(n + 1, TurnName(n))
  }

  function FirstPrompt(): Event {
    Ask(0, BLANK)
  }

  function FirstFailure(): Event {
    Event(Tag(1), Claude, "s", Some(BLANK), StopFailure, 2, false, None, None, None, None)
  }

  /** The blank turn is opened and fails, then `n` other turns are opened. */
  function Turns(n: nat): seq<Input> {
    FirstTwo() + OtherTurns(n)
  }

  function FirstTwo(): seq<Input> {
    [Submit(FirstPrompt()), Submit(FirstFailure())]
  }

  function OtherTurns(n: nat): seq<Input> {
    seq(n, k requires 0 <= k < n => Submit(Opening(k + 1)))
  }

  /** The ids of events from number `k` on have not been seen. */
  ghost predicate Fresh(seen: set<string>, k: nat) {
    forall i: nat :: i >= k ==> Tag(i) !in seen
  }

  /** After `n` further turns: the blank turn's card is finished and kept, the old turns are the most recent ones. */
  ghost predicate Turned(cfg: Config, b: Book, n: nat) {
    && Fresh(b.seen, n + 2)
    && HOME in b.sessions
    && Placed(cfg, b.sessions[HOME], n)
    && DistinctCards(b.root.tasks) && Retains(b.root.tasks, n)
  }

  predicate Placed(cfg: Config, m: Meta, n: nat) {
    && m.current == TurnName(n) && m.terminal in {"", BLANK} && m.endedAt == 0
    && m.oldTurns == Recent(TurnNames(n), cfg.maxOldTurns) && m.latestSession <= n + 2
  }

  lemma NamesDiffer(i: nat, j: nat)
    ensures TurnName(i) == TurnName(j) ==> i == j
    ensures TurnName(i) != "" && (i > 0 ==> !Blank(TurnName(i)) && TurnName(i) != BLANK)
  {
    TagsDiffer(i, j);
    TagsDiffer(j, i);
  }

  lemma RecentGrows(s: seq<string>, x: string, max: nat)
    ensures Recent(Recent(s, max) + [x], max) == Recent(s + [x], max)
  {
  }

  lemma NotAmong(n: nat, max: nat, k: nat)
    requires k >= n
    ensures TurnName(k) !in Recent(TurnNames(n), max)
  {
    var names := TurnNames(n);
    forall i | 0 <= i < n ensures names[i] != TurnName(k) {
      NamesDiffer(i, k);
    }
  }

  lemma PlacedOpens(cfg: Config, m: Meta, n: nat)
    requires Placed(cfg, m, n)
    ensures Opens(m, Opening(n + 1))
  {
    NotAmong(n, cfg.maxOldTurns, n + 1);
    NamesDiffer(n + 1, n);
  }

  lemma PlacedStep(cfg: Config, m: Meta, n: nat)
    requires Usable(cfg) && Placed(cfg, m, n)
    ensures Placed(cfg, OpenedMeta(cfg, m, Opening(n + 1), TurnName(n + 1)), n + 1)
  {
    NamesDiffer(n, n);
    PastGrows(cfg, m, n);
  }

  lemma PastGrows(cfg: Config, m: Meta, n: nat)
    requires m.current == TurnName(n) != "" && m.oldTurns == Recent(TurnNames(n), cfg.maxOldTurns)
    ensures PastTurns(cfg, m) == Recent(TurnNames(n + 1), cfg.maxOldTurns)
  {
    RecentGrows(TurnNames(n), TurnName(n), cfg.maxOldTurns);
    assert TurnNames(n + 1) == TurnNames(n) + [TurnName(n)];
  }

  /** An error of the blank turn that nothing has recovered. */
  predicate Unrecovered(t: Task) {
    t.key == BLANK_CARD && t.lifecycle == Error && t.supersededAt.None?
  }

  /** The finished card of the blank turn is there, and the session's cards are for turns up to number `n`. */
  ghost predicate Retains(tasks: seq<Task>, n: nat) {
    && (exists t :: t in tasks && Unrecovered(t))
    && (forall t :: t in tasks && SessionOf(t) == HOME ==> exists k: nat :: k <= n && t.key.turn == TurnName(k))
  }

  lemma FinishedCardStays(tasks: seq<Task>, read: seq<Task>, turn: string, last: Task)
    requires |read| == |tasks|
    requires forall i :: 0 <= i < |tasks| ==> read[i] == tasks[i].(readAt := read[i].readAt)
    requires exists t :: t in tasks && Unrecovered(t)
    ensures exists t :: t in Keep(read, Standing(HOME, turn)) + [last] && Unrecovered(t)
  {
    KeepMembers(read, Standing(HOME, turn));
    var done :| done in tasks && Unrecovered(done);
    var at :| 0 <= at < |tasks| && tasks[at] == done;
    assert read[at] in read && read[at] in Keep(read, Standing(HOME, turn)) + [last] && Unrecovered(read[at]);
  }

  lemma TurnsStayNamed(tasks: seq<Task>, read: seq<Task>, n: nat, last: Task)
    requires |read| == |tasks| && last.key.turn == TurnName(n + 1)
    requires forall i :: 0 <= i < |tasks| ==> read[i].key == tasks[i].key
    requires forall t :: t in tasks && SessionOf(t) == HOME ==> exists k: nat :: k <= n && t.key.turn == TurnName(k)
    ensures forall t :: t in Keep(read, Standing(HOME, TurnName(n + 1))) + [last] && SessionOf(t) == HOME ==>
              exists k: nat :: k <= n + 1 && t.key.turn == TurnName(k)
  {
    var kept := Keep(read, Standing(HOME, TurnName(n + 1)));
    KeepMembers(read, Standing(HOME, TurnName(n + 1)));
    forall t | t in kept + [last] && SessionOf(t) == HOME ensures exists k: nat :: k <= n + 1 && t.key.turn == TurnName(k) {
      if t in kept {
        TurnStaysNamed(tasks, read, n, t);
      }
    }
  }

  lemma TurnStaysNamed(tasks: seq<Task>, read: seq<Task>, n: nat, t: Task)
    requires |read| == |tasks| && t in read && SessionOf(t) == HOME
    requires forall i :: 0 <= i < |tasks| ==> read[i].key == tasks[i].key
    requires forall u :: u in tasks && SessionOf(u) == HOME ==> exists k: nat :: k <= n && u.key.turn == TurnName(k)
    ensures exists k: nat :: k <= n + 1 && t.key.turn == TurnName(k)
  {
    var i :| 0 <= i < |read| && read[i] == t;
    assert tasks[i] in tasks && SessionOf(tasks[i]) == HOME;
    var k: nat :| k <= n && tasks[i].key.turn == TurnName(k);
  }

  /** Opening another turn keeps the finished blank card. */
  lemma CardsAfterOpening(tasks: seq<Task>, n: nat)
    requires Retains(tasks, n)
    ensures var e, turn := Opening(n + 1), TurnName(n + 1);
            Retains(Keep(AcknowledgeTerminal(tasks, HOME, e.at), Standing(HOME, turn)) + [NewTask(e, turn)], n + 1)
  {
    var e, turn := Opening(n + 1), TurnName(n + 1);
    var read := AcknowledgeTerminal(tasks, HOME, e.at);
    FinishedCardStays(tasks, read, turn, NewTask(e, turn));
    TurnsStayNamed(tasks, read, n, NewTask(e, turn));
  }

  lemma OpeningKeepsBlank(cfg: Config, root: Root, m: Meta, n: nat)
    requires Usable(cfg) && Placed(cfg, m, n) && DistinctCards(root.tasks) && Retains(root.tasks, n)
    ensures var r := Reduce(cfg, root, m, Opening(n + 1));
            && r.ok && r.meta == OpenedMeta(cfg, m, Opening(n + 1), TurnName(n + 1))
            && DistinctCards(r.root.tasks) && Retains(r.root.tasks, n + 1)
  {
    var e := Opening(n + 1);
    AnotherOpens(cfg, root, m, n);
    OpeningKeepsCardsDistinctIff(cfg, root, m, e);
    OpeningCards(cfg, root, m, e);
    CardsAfterOpening(root.tasks, n);
  }

  lemma AnotherOpens(cfg: Config, root: Root, m: Meta, n: nat)
    requires Usable(cfg) && Placed(cfg, m, n) && Retains(root.tasks, n)
    ensures var e := Opening(n + 1);
            && e.typ == UserPromptSubmit && !HistoricalReplay(root, m, e) && Opens(m, e)
            && FindTask(root.tasks, TaskKey(Claude, "s", TurnName(n + 1))) == |root.tasks|
            && Reduce(cfg, root, m, e).ok && Reduce(cfg, root, m, e).meta == OpenedMeta(cfg, m, e, TurnName(n + 1))
  {
    PlacedOpens(cfg, m, n);
    NoCardYet(root.tasks, n);
    NotAReplay(root, m, n, cfg);
    PromptOpens(cfg, root, m, Opening(n + 1));
  }

  lemma NotAReplay(root: Root, m: Meta, n: nat, cfg: Config)
    requires Placed(cfg, m, n) && FindTask(root.tasks, TaskKey(Claude, "s", TurnName(n + 1))) == |root.tasks|
    ensures !HistoricalReplay(root, m, Opening(n + 1))
  {
    NamesDiffer(n + 1, n);
  }

  lemma PromptOpens(cfg: Config, root: Root, m: Meta, e: Event)
    requires e.typ == UserPromptSubmit && !HistoricalReplay(root, m, e) && Opens(m, e)
    ensures Reduce(cfg, root, m, e).ok && Reduce(cfg, root, m, e).meta == OpenedMeta(cfg, m, e, e.turn.value)
  {
  }

  lemma NoCardYet(tasks: seq<Task>, n: nat)
    requires forall t :: t in tasks && SessionOf(t) == HOME ==> exists k: nat :: k <= n && t.key.turn == TurnName(k)
    ensures FindTask(tasks, TaskKey(Claude, "s", TurnName(n + 1))) == |tasks|
  {
    forall j | 0 <= j < |tasks| ensures tasks[j].key != TaskKey(Claude, "s", TurnName(n + 1)) {
      assert tasks[j] in tasks;
      if SessionOf(tasks[j]) == HOME {
        var k: nat :| k <= n && tasks[j].key.turn == TurnName(k);
        NamesDiffer(k, n + 1);
      }
    }
  }

  /** Submitting the session's event number `k`. */
  lemma HomeStep(cfg: Config, b: Book, e: Event, k: nat)
    requires HOME in b.sessions && WellFormed(e) && KeyOf(e) == HOME && e.id == Tag(k)
    requires Fresh(b.seen, k) && Reduce(cfg, b.root, b.sessions[HOME], e).ok
    ensures var r, after := Reduce(cfg, b.root, b.sessions[HOME], e), Step(cfg, b, Submit(e));
            && after.root == r.root && HOME in after.sessions && after.sessions[HOME] == r.meta
            && Fresh(after.seen, k + 1)
  {
    ForgetsOnly(Memory(b.seen + {e.id}, b.seenOrder + [e.id]), cfg.maxSeen);
    var after := Step(cfg, b, Submit(e));
    forall i: nat | i >= k + 1 ensures Tag(i) !in after.seen {
      TagsDiffer(i, k);
    }
  }

  lemma AskIsWellFormed(i: nat, turn: string)
    ensures WellFormed(Ask(i, turn)) && KeyOf(Ask(i, turn)) == HOME
  {
    TagsDiffer(i, i);
    NotBlank("s");
  }

  lemma OpeningReduces(cfg: Config, root: Root, m: Meta, n: nat)
    requires Usable(cfg) && Placed(cfg, m, n) && DistinctCards(root.tasks) && Retains(root.tasks, n)
    ensures var r := Reduce(cfg, root, m, Opening(n + 1));
            r.ok && Placed(cfg, r.meta, n + 1) && DistinctCards(r.root.tasks) && Retains(r.root.tasks, n + 1)
  {
    OpeningKeepsBlank(cfg, root, m, n);
    PlacedStep(cfg, m, n);
  }

  lemma TurnedStep(cfg: Config, b: Book, n: nat)
    requires Usable(cfg) && Turned(cfg, b, n)
    ensures Turned(cfg, Step(cfg, b, Submit(Opening(n + 1))), n + 1)
  {
    AskIsWellFormed(n + 2, TurnName(n + 1));
    OpeningReduces(cfg, b.root, b.sessions[HOME], n);
    HomeStep(cfg, b, Opening(n + 1), n + 2);
  }

  /** The state after the first prompt, in any configuration. */
  ghost predicate Started(cfg: Config, b: Book) {
    && b.seen <= {Tag(0)} && HOME in b.sessions
    && b.sessions[HOME] == OpenedMeta(cfg, NEW_META, FirstPrompt(), BLANK)
    && b.root.tasks == [NewTask(FirstPrompt(), BLANK)]
    && b.root.agents == [Agent(HOME, OpenedTurn(FirstPrompt(), BLANK))]
  }

  lemma BlankStarts(cfg: Config)
    requires Usable(cfg)
    ensures Started(cfg, Step(cfg, EMPTY_BOOK, Submit(FirstPrompt())))
  {
    var e := FirstPrompt();
    TagsDiffer(0, 0);
    NotBlank("s");
    assert WellFormed(e) && KeyOf(e) == HOME;
    FirstPromptCards(cfg, EMPTY_BOOK.root, e);
    assert [] + [HOME] == [HOME];
    assert Enrolled(cfg, Table(map[], []), HOME) == Table(map[HOME := NEW_META], [HOME]);
    ForgetsOnly(Memory({} + {e.id}, [] + [e.id]), cfg.maxSeen);
    var r := Reduce(cfg, EMPTY_BOOK.root, NEW_META, e);
    assert !HistoricalReplay(EMPTY_BOOK.root, NEW_META, e) && Opens(NEW_META, e);
    assert r.meta == OpenedMeta(cfg, NEW_META, e, BLANK);
    assert r.root.agents == [Agent(HOME, OpenedTurn(e, BLANK))];
  }

  /** The failure finishes the blank turn's card. */
  lemma BlankFailureReduces(cfg: Config, root: Root)
    requires root.tasks == [NewTask(FirstPrompt(), BLANK)] && root.agents == [Agent(HOME, OpenedTurn(FirstPrompt(), BLANK))]
    ensures var m := OpenedMeta(cfg, NEW_META, FirstPrompt(), BLANK);
            var r := Reduce(cfg, root, m, FirstFailure());
            && r.ok && Placed(cfg, r.meta, 0)
            && |r.root.tasks| == 1 && r.root.tasks[0].key == BLANK_CARD && Unrecovered(r.root.tasks[0])
  {
    var e, m := FirstFailure(), OpenedMeta(cfg, NEW_META, FirstPrompt(), BLANK);
    assert FindAgent(root.agents, HOME) == 0 && FindTask(root.tasks, BLANK_CARD) == 0;
    assert Reduce(cfg, root, m, e) == TurnEvent(cfg, root, m, e, BLANK);
    assert TurnNames(0) == [] && TurnName(0) == BLANK;
  }

  lemma BlankFails(cfg: Config, b: Book)
    requires Usable(cfg) && Started(cfg, b)
    ensures Turned(cfg, Step(cfg, b, Submit(FirstFailure())), 0)
  {
    var e := FirstFailure();
    TagsDiffer(1, 0);
    NotBlank("s");
    assert WellFormed(e) && KeyOf(e) == HOME && e.id !in b.seen;
    BlankFailureReduces(cfg, b.root);
    ForgetsOnly(Memory(b.seen + {e.id}, b.seenOrder + [e.id]), cfg.maxSeen);
    var after := Step(cfg, b, Submit(e));
    assert after.root.tasks[0] in after.root.tasks;
    assert TurnName(0) == BLANK;
    forall i: nat | i >= 2 ensures Tag(i) !in after.seen {
      TagsDiffer(i, 0);
      TagsDiffer(i, 1);
    }
  }

  lemma BlankTurnFinishes(cfg: Config)
    requires Usable(cfg)
    ensures Started(cfg, RunOf(cfg, FirstTwo()[..1])) && Turned(cfg, RunOf(cfg, FirstTwo()), 0)
  {
    var i0, i1 := Submit(FirstPrompt()), Submit(FirstFailure());
    assert FirstTwo()[..1] == [] + [i0] && FirstTwo() == FirstTwo()[..1] + [i1];
    RunSnoc(cfg, [], i0);
    RunSnoc(cfg, FirstTwo()[..1], i1);
    BlankStarts(cfg);
    BlankFails(cfg, RunOf(cfg, FirstTwo()[..1]));
  }

  lemma TurnsTurn(cfg: Config, n: nat, k: nat)
    requires Usable(cfg) && k <= n
    ensures Turned(cfg, RunOf(cfg, FirstTwo() + OtherTurns(n)[..k]), k)
  {
    BlankTurnFinishes(cfg);
    forall b: Book, j: nat | Turned(cfg, b, j) ensures Turned(cfg, Step(cfg, b, Submit(Opening(j + 1))), j + 1) {
      TurnedStep(cfg, b, j);
    }
    TurnsCarry(cfg, n, k, (b: Book, j: nat) => Turned(cfg, b, j));
  }

  lemma TurnsCarry(cfg: Config, n: nat, k: nat, holds: (Book, nat) -> bool)
    requires k <= n && holds(RunOf(cfg, FirstTwo()), 0)
    requires forall b: Book, j: nat :: holds(b, j) ==> holds(Step(cfg, b, Submit(Opening(j + 1))), j + 1)
    ensures holds(RunOf(cfg, FirstTwo() + OtherTurns(n)[..k]), k)
  {
    RunInvariant(cfg, FirstTwo(), OtherTurns(n), k, holds);
  }

  /** One turn more than the list of old turns holds, then a prompt of the blank turn again. */
  function BlankRun(cfg: Config): seq<Input> {
    var n := cfg.maxOldTurns + 1;
    Turns(n) + [Submit(Ask(n + 2, BLANK))]
  }

  /** For every configuration: a run of one session, without any eviction, that ends in two cards for one turn. */
  lemma BlankTurnDuplicatesCard(cfg: Config)
    requires Usable(cfg)
    ensures Behaviour(TraceOf(cfg, BlankRun(cfg)))
    ensures !DistinctCards(RunOf(cfg, BlankRun(cfg)).root.tasks)
  {
    TraceBehaves(cfg, BlankRun(cfg));
    var n := cfg.maxOldTurns + 1;
    TurnsTurn(cfg, n, n);
    assert FirstTwo() + OtherTurns(n)[..n] == Turns(n);
    var e := Ask(n + 2, BLANK);
    BlankReopens(cfg, RunOf(cfg, Turns(n)), e, n);
    RunSnoc(cfg, Turns(n), Submit(e));
  }

  lemma BlankForgotten(cfg: Config, m: Meta, n: nat)
    requires n == cfg.maxOldTurns + 1 && Placed(cfg, m, n)
    ensures BLANK !in m.oldTurns && m.current != BLANK
  {
    var names := TurnNames(n);
    forall i | 1 <= i < n ensures names[i] != BLANK {
      NamesDiffer(i, 0);
    }
    assert m.oldTurns == names[1..];
    NamesDiffer(n, 0);
  }

  lemma BlankReopens(cfg: Config, b: Book, e: Event, n: nat)
    requires Usable(cfg) && n == cfg.maxOldTurns + 1 && Turned(cfg, b, n) && e == Ask(n + 2, BLANK)
    ensures !DistinctCards(Step(cfg, b, Submit(e)).root.tasks)
  {
    var m := b.sessions[HOME];
    TagsDiffer(n + 2, 0);
    NotBlank("s");
    BlankForgotten(cfg, m, n);
    assert WellFormed(e) && KeyOf(e) == HOME && Opens(m, e);
    assert Blank(BLANK) && !HistoricalReplay(b.root, m, e);
    FinishedCardFound(b.root.tasks, n);
    OpeningKeepsCardsDistinctIff(cfg, b.root, m, e);
    assert Step(cfg, b, Submit(e)).root == Reduce(cfg, b.root, m, e).root;
  }

  lemma FinishedCardFound(tasks: seq<Task>, n: nat)
    requires Retains(tasks, n)
    ensures FindTask(tasks, BLANK_CARD) < |tasks|
  {
    var done :| done in tasks && Unrecovered(done);
    var at :| 0 <= at < |tasks| && tasks[at] == done;
    assert FindTask(tasks, BLANK_CARD) <= at;
  }

  /** That run evicts nobody: its one session enters an empty table. */
  lemma BlankRunEvictsNobody(cfg: Config, k: nat)
    requires Usable(cfg) && k < |BlankRun(cfg)|
    ensures !Evicts(cfg, TraceOf(cfg, BlankRun(cfg)).books[k], BlankRun(cfg)[k].event)
  {
    var run, n := BlankRun(cfg), cfg.maxOldTurns + 1;
    assert KeyOf(run[k].event) == HOME;
    if k == 0 {
      assert run[..0] == [];
    } else if k == 1 {
      assert run[..1] == FirstTwo()[..1];
      BlankTurnFinishes(cfg);
    } else {
      assert run[..k] == FirstTwo() + OtherTurns(n)[..k - 2];
      TurnsTurn(cfg, n, k - 2);
    }
  }

  // ---------- an error that nothing recovered is lost ----------

  function ToolUse(n: nat): Event {
    Event(Tag(n + 3), Claude, "s", Some(BLANK), PreToolUse, n + 4, false, None, None, None, None)
  }

  function LastPrompt(n: nat): Event {
    Ask(n + 4, TurnName(n + 1))
  }

  /** Of the blank turn's cards only the first may be finished. */
  ghost predicate OthersLive(tasks: seq<Task>) {
    forall i, j :: 0 <= i < j < |tasks| ==> LiveAfter(tasks[i], tasks[j])
  }

  predicate LiveAfter(x: Task, y: Task) {
    x.key == BLANK_CARD && y.key == BLANK_CARD ==> !Terminal(y.lifecycle)
  }

  ghost predicate Named(tasks: seq<Task>, n: nat) {
    forall t :: t in tasks && SessionOf(t) == HOME ==> exists k: nat :: k <= n && t.key.turn == TurnName(k)
  }

  /** The metadata of the reopened turn, `n + 1` turns after the start. */
  predicate Back(cfg: Config, m: Meta, n: nat) {
    && m.current == BLANK && m.terminal == "" && m.endedAt == 0
    && m.oldTurns == Recent(TurnNames(n + 1), cfg.maxOldTurns)
  }

  /** The error is still there, and the blank turn is running without a terminal mark. */
  ghost predicate Reopened(cfg: Config, b: Book, n: nat) {
    && Fresh(b.seen, n + 3)
    && HOME in b.sessions && Back(cfg, b.sessions[HOME], n)
    && b.sessions[HOME].latestTurn <= n + 3 && b.sessions[HOME].latestSession <= n + 3
    && CurOf(b.root.agents, HOME) == Some(OpenedTurn(Ask(n + 2, BLANK), BLANK))
    && (exists t :: t in b.root.tasks && Unrecovered(t))
    && OthersLive(b.root.tasks) && Named(b.root.tasks, n)
  }

  lemma BlankStaysNamed(tasks: seq<Task>, read: seq<Task>, n: nat, last: Task)
    requires |read| == |tasks| && last.key.turn == BLANK && Named(tasks, n)
    requires forall i :: 0 <= i < |tasks| ==> read[i].key == tasks[i].key
    ensures Named(Keep(read, Standing(HOME, BLANK)) + [last], n)
  {
    var kept := Keep(read, Standing(HOME, BLANK));
    KeepMembers(read, Standing(HOME, BLANK));
    forall t | t in kept + [last] && SessionOf(t) == HOME ensures exists k: nat :: k <= n && t.key.turn == TurnName(k) {
      if t in kept {
        var i :| 0 <= i < |read| && read[i] == t;
        assert tasks[i] in tasks && SessionOf(tasks[i]) == HOME;
      } else {
        assert t.key.turn == TurnName(0);
      }
    }
  }

  lemma OneFinishedStays(read: seq<Task>, last: Task)
    requires DistinctCards(read) && !Terminal(last.lifecycle)
    ensures OthersLive(Keep(read, Standing(HOME, BLANK)) + [last])
  {
    assert forall i, j :: 0 <= i < j < |read| ==> LiveAfter(read[i], read[j]);
    KeepPairwise(read, Standing(HOME, BLANK), (x: Task, y: Task) => LiveAfter(x, y));
  }

  lemma ReopenedCards(tasks: seq<Task>, n: nat)
    requires DistinctCards(tasks) && Retains(tasks, n)
    ensures var e := Ask(n + 2, BLANK);
            var next := Keep(AcknowledgeTerminal(tasks, HOME, e.at), Standing(HOME, BLANK)) + [NewTask(e, BLANK)];
            (exists t :: t in next && Unrecovered(t)) && OthersLive(next) && Named(next, n)
  {
    var e := Ask(n + 2, BLANK);
    var read := AcknowledgeTerminal(tasks, HOME, e.at);
    FinishedCardStays(tasks, read, BLANK, NewTask(e, BLANK));
    BlankStaysNamed(tasks, read, n, NewTask(e, BLANK));
    OneFinishedStays(read, NewTask(e, BLANK));
  }

  lemma ReopenReduces(cfg: Config, root: Root, m: Meta, n: nat)
    requires n == cfg.maxOldTurns + 1 && Placed(cfg, m, n) && DistinctCards(root.tasks) && Retains(root.tasks, n)
    ensures var r := Reduce(cfg, root, m, Ask(n + 2, BLANK));
            && r.ok && Back(cfg, r.meta, n) && r.meta.latestTurn == n + 3 && r.meta.latestSession <= n + 3
            && CurOf(r.root.agents, HOME) == Some(OpenedTurn(Ask(n + 2, BLANK), BLANK))
            && (exists t :: t in r.root.tasks && Unrecovered(t))
            && OthersLive(r.root.tasks) && Named(r.root.tasks, n)
  {
    var e := Ask(n + 2, BLANK);
    BlankOpens(cfg, root, m, n);
    OpeningCards(cfg, root, m, e);
    ReopenedCards(root.tasks, n);
    OpenedAgents(root.(tasks := AcknowledgeTerminal(root.tasks, HOME, e.at)), e, BLANK);
  }

  lemma BlankOpens(cfg: Config, root: Root, m: Meta, n: nat)
    requires n == cfg.maxOldTurns + 1 && Placed(cfg, m, n)
    ensures var e := Ask(n + 2, BLANK);
            && KeyOf(e) == HOME && e.typ == UserPromptSubmit && Opens(m, e) && !HistoricalReplay(root, m, e)
            && Back(cfg, OpenedMeta(cfg, m, e, BLANK), n) && m.latestSession <= n + 3
  {
    BlankForgotten(cfg, m, n);
    NamesDiffer(n, n);
    PastGrows(cfg, m, n);
  }

  lemma ReopenStep(cfg: Config, b: Book, n: nat)
    requires Usable(cfg) && n == cfg.maxOldTurns + 1 && Turned(cfg, b, n)
    ensures Reopened(cfg, Step(cfg, b, Submit(Ask(n + 2, BLANK))), n)
  {
    AskIsWellFormed(n + 2, BLANK);
    ReopenReduces(cfg, b.root, b.sessions[HOME], n);
    HomeStep(cfg, b, Ask(n + 2, BLANK), n + 2);
  }

  /** The tool use has put the failed card back to work. */
  ghost predicate Rewritten(cfg: Config, b: Book, n: nat) {
    && Fresh(b.seen, n + 4)
    && HOME in b.sessions && Back(cfg, b.sessions[HOME], n) && b.sessions[HOME].latestSession <= n + 4
    && PutBack(b.root.tasks) && Named(b.root.tasks, n)
  }

  /** The blank turn has cards, and none of them is finished. */
  ghost predicate PutBack(tasks: seq<Task>) {
    && (exists t :: t in tasks && t.key == BLANK_CARD)
    && (forall t :: t in tasks && t.key == BLANK_CARD ==> !Terminal(t.lifecycle))
  }

  lemma ToolUseReduces(cfg: Config, root: Root, m: Meta, n: nat)
    requires Back(cfg, m, n) && m.latestTurn <= n + 3 && CurOf(root.agents, HOME) == Some(OpenedTurn(Ask(n + 2, BLANK), BLANK))
    ensures var r := Reduce(cfg, root, m, ToolUse(n));
            && r.ok && Back(cfg, r.meta, n) && r.meta.latestSession == Max(m.latestSession, n + 4)
            && |r.root.tasks| == |root.tasks|
            && (forall i :: 0 <= i < |root.tasks| ==> r.root.tasks[i].key == root.tasks[i].key)
            && (forall i :: 0 <= i < |root.tasks| && i != FindTask(root.tasks, BLANK_CARD) ==> r.root.tasks[i] == root.tasks[i])
            && (var j := FindTask(root.tasks, BLANK_CARD); j < |root.tasks| ==> !Terminal(r.root.tasks[j].lifecycle))
  {
    var e := ToolUse(n);
    assert KeyOf(e) == HOME && TaskKey(e.provider, e.session, BLANK) == BLANK_CARD;
    assert Reduce(cfg, root, m, e) == TurnEvent(cfg, root, m, e, BLANK);
  }

  lemma FirstIsRewritten(tasks: seq<Task>, next: seq<Task>, n: nat)
    requires OthersLive(tasks) && Named(tasks, n) && |next| == |tasks| && (exists t :: t in tasks && Unrecovered(t))
    requires forall i :: 0 <= i < |tasks| ==> next[i].key == tasks[i].key
    requires var j := FindTask(tasks, BLANK_CARD);
             && (forall i :: 0 <= i < |tasks| && i != j ==> next[i] == tasks[i])
             && (j < |tasks| ==> !Terminal(next[j].lifecycle))
    ensures PutBack(next) && Named(next, n)
  {
    SameNames(tasks, next, n);
    var j, done := FindTask(tasks, BLANK_CARD), (var t :| t in tasks && Unrecovered(t); t);
    var at :| 0 <= at < |tasks| && tasks[at] == done;
    assert next[at] in next;
    forall t | t in next && t.key == BLANK_CARD ensures !Terminal(t.lifecycle) {
      var i :| 0 <= i < |next| && next[i] == t;
      assert j <= i;
      assert j < i ==> LiveAfter(tasks[j], tasks[i]);
    }
  }

  lemma SameNames(tasks: seq<Task>, next: seq<Task>, n: nat)
    requires Named(tasks, n) && |next| == |tasks| && forall i :: 0 <= i < |tasks| ==> next[i].key == tasks[i].key
    ensures Named(next, n)
  {
    forall t | t in next && SessionOf(t) == HOME ensures exists k: nat :: k <= n && t.key.turn == TurnName(k) {
      var i :| 0 <= i < |next| && next[i] == t;
      assert tasks[i] in tasks && SessionOf(tasks[i]) == HOME;
    }
  }

  lemma RewriteReduces(cfg: Config, root: Root, m: Meta, n: nat)
    requires Back(cfg, m, n) && m.latestTurn <= n + 3 && m.latestSession <= n + 3
    requires CurOf(root.agents, HOME) == Some(OpenedTurn(Ask(n + 2, BLANK), BLANK))
    requires OthersLive(root.tasks) && Named(root.tasks, n) && (exists t :: t in root.tasks && Unrecovered(t))
    ensures var r := Reduce(cfg, root, m, ToolUse(n));
            && r.ok && Back(cfg, r.meta, n) && r.meta.latestSession <= n + 4 && PutBack(r.root.tasks) && Named(r.root.tasks, n)
  {
    ToolUseReduces(cfg, root, m, n);
    FirstIsRewritten(root.tasks, Reduce(cfg, root, m, ToolUse(n)).root.tasks, n);
  }

  lemma ToolUseIsWellFormed(n: nat)
    ensures WellFormed(ToolUse(n)) && KeyOf(ToolUse(n)) == HOME
  {
    TagsDiffer(n + 3, 0);
    NotBlank("s");
  }

  lemma RewriteStep(cfg: Config, b: Book, n: nat)
    requires Usable(cfg) && Reopened(cfg, b, n)
    ensures Rewritten(cfg, Step(cfg, b, Submit(ToolUse(n))), n)
  {
    ToolUseIsWellFormed(n);
    RewriteReduces(cfg, b.root, b.sessions[HOME], n);
    HomeStep(cfg, b, ToolUse(n), n + 3);
  }

  lemma LastPromptOpens(cfg: Config, root: Root, m: Meta, n: nat)
    requires Back(cfg, m, n) && m.latestSession <= n + 4 && Named(root.tasks, n)
    ensures !HistoricalReplay(root, m, LastPrompt(n)) && Opens(m, LastPrompt(n))
  {
    var e := LastPrompt(n);
    NotAmong(n + 1, cfg.maxOldTurns, n + 1);
    NamesDiffer(n + 1, 0);
    var j := FindTask(root.tasks, TaskKey(Claude, "s", TurnName(n + 1)));
    if j < |root.tasks| {
      var t := root.tasks[j];
      assert t in root.tasks && SessionOf(t) == HOME;
      var k: nat :| k <= n && t.key.turn == TurnName(k);
      NamesDiffer(n + 1, k);
      assert false;
    }
  }

  ghost predicate Gone(tasks: seq<Task>) {
    forall t :: t in tasks ==> t.key != BLANK_CARD
  }

  /** The next prompt drops it as abandoned. */
  lemma LossStep(cfg: Config, b: Book, n: nat)
    requires Usable(cfg) && Rewritten(cfg, b, n)
    ensures Gone(Step(cfg, b, Submit(LastPrompt(n))).root.tasks)
  {
    var m, e := b.sessions[HOME], LastPrompt(n);
    TagsDiffer(n + 4, 0);
    NotBlank("s");
    assert WellFormed(e) && KeyOf(e) == HOME && e.id !in b.seen;
    LastPromptOpens(cfg, b.root, m, n);
    OpeningCards(cfg, b.root, m, e);
    NamesDiffer(n + 1, 0);
    AbandonedCardsGo(b.root.tasks, e, TurnName(n + 1));
    assert Step(cfg, b, Submit(e)).root == Reduce(cfg, b.root, m, e).root;
  }

  lemma AbandonedCardsGo(tasks: seq<Task>, e: Event, turn: string)
    requires KeyOf(e) == HOME && turn != BLANK && forall t :: t in tasks && t.key == BLANK_CARD ==> !Terminal(t.lifecycle)
    ensures forall t :: t in Keep(AcknowledgeTerminal(tasks, HOME, e.at), Standing(HOME, turn)) + [NewTask(e, turn)] ==>
              t.key != BLANK_CARD
  {
    var read := AcknowledgeTerminal(tasks, HOME, e.at);
    KeepMembers(read, Standing(HOME, turn));
    forall t | t in read && t.key == BLANK_CARD ensures Abandoned(t, HOME, turn) {
      var i :| 0 <= i < |read| && read[i] == t;
      assert tasks[i] in tasks;
    }
  }

  lemma ReopenedAfterTurns(cfg: Config)
    requires Usable(cfg)
    ensures Reopened(cfg, RunOf(cfg, BlankRun(cfg)), cfg.maxOldTurns + 1)
  {
    var n := cfg.maxOldTurns + 1;
    TurnsTurn(cfg, n, n);
    assert FirstTwo() + OtherTurns(n)[..n] == Turns(n);
    ReopenStep(cfg, RunOf(cfg, Turns(n)), n);
    RunSnoc(cfg, Turns(n), Submit(Ask(n + 2, BLANK)));
  }

  /** Events of one session only, none of them a stop, and none that evicts a session. */
  ghost predicate Quiet(cfg: Config, run: seq<Input>) {
    forall k :: 0 <= k < |run| ==>
      && run[k].Submit? && KeyOf(run[k].event) == HOME && run[k].event.typ != Stop
      && !Evicts(cfg, RunOf(cfg, run[..k]), run[k].event)
  }

  lemma QuietMore(cfg: Config, run: seq<Input>, e: Event)
    requires Quiet(cfg, run) && HOME in RunOf(cfg, run).sessions && KeyOf(e) == HOME && e.typ != Stop
    ensures Quiet(cfg, run + [Submit(e)])
  {
    var more := run + [Submit(e)];
    assert more[..|run|] == run;
    forall k | 0 <= k < |run| ensures more[k] == run[k] && more[..k] == run[..k] {
    }
  }

  lemma BlankRunEvent(cfg: Config, k: nat)
    requires k < |BlankRun(cfg)|
    ensures var i := BlankRun(cfg)[k]; i.Submit? && KeyOf(i.event) == HOME && i.event.typ != Stop
  {
  }

  lemma BlankRunIsQuiet(cfg: Config)
    requires Usable(cfg)
    ensures Quiet(cfg, BlankRun(cfg))
  {
    var run := BlankRun(cfg);
    forall k | 0 <= k < |run|
      ensures run[k].Submit? && KeyOf(run[k].event) == HOME && run[k].event.typ != Stop
      ensures !Evicts(cfg, RunOf(cfg, run[..k]), run[k].event)
    {
      BlankRunEvent(cfg, k);
      BlankRunEvictsNobody(cfg, k);
    }
  }

  lemma ReopenedRun(cfg: Config) returns (run: seq<Input>)
    requires Usable(cfg)
    ensures Reopened(cfg, RunOf(cfg, run), cfg.maxOldTurns + 1) && Quiet(cfg, run)
  {
    run := BlankRun(cfg);
    ReopenedAfterTurns(cfg);
    BlankRunIsQuiet(cfg);
  }

  lemma RewrittenAfter(cfg: Config, inputs: seq<Input>, n: nat)
    requires Usable(cfg) && Reopened(cfg, RunOf(cfg, inputs), n)
    ensures Rewritten(cfg, RunOf(cfg, inputs + [Submit(ToolUse(n))]), n)
  {
    RewriteStep(cfg, RunOf(cfg, inputs), n);
    RunSnoc(cfg, inputs, Submit(ToolUse(n)));
  }

  lemma LossAfter(cfg: Config, inputs: seq<Input>, n: nat)
    requires Usable(cfg) && Rewritten(cfg, RunOf(cfg, inputs), n)
    ensures Gone(RunOf(cfg, inputs + [Submit(LastPrompt(n))]).root.tasks)
  {
    LossStep(cfg, RunOf(cfg, inputs), n);
    RunSnoc(cfg, inputs, Submit(LastPrompt(n)));
  }

  /** An error nobody recovered, then its turn's cards all back at work, then no card of it at all. */
  ghost predicate ErrorVanishes(before: Book, between: Book, after: Book) {
    && (exists t :: t in before.root.tasks && Unrecovered(t))
    && PutBack(between.root.tasks)
    && Gone(after.root.tasks)
  }

  /** The reopened blank turn uses a tool, and then another turn begins. */
  lemma ErrorVanishesAfter(cfg: Config, front: seq<Input>, n: nat) returns (run: seq<Input>)
    requires Usable(cfg) && Reopened(cfg, RunOf(cfg, front), n) && Quiet(cfg, front)
    ensures |run| == |front| + 2 && Quiet(cfg, run)
    ensures ErrorVanishes(RunOf(cfg, run[..|run| - 2]), RunOf(cfg, run[..|run| - 1]), RunOf(cfg, run))
  {
    var between := front + [Submit(ToolUse(n))];
    run := between + [Submit(LastPrompt(n))];
    RewrittenAfter(cfg, front, n);
    LossAfter(cfg, between, n);
    ToolUseIsWellFormed(n);
    AskIsWellFormed(n + 4, TurnName(n + 1));
    QuietMore(cfg, front, ToolUse(n));
    QuietMore(cfg, between, LastPrompt(n));
    assert run[..|run| - 2] == front && run[..|run| - 1] == between;
  }

  /**
   For every configuration: a run without any stop or eviction in which an error of a turn named by white space is
   put back to work by the last input but one and dropped by the last. The turn fails and is left, one turn more
   than the list of old turns holds is opened, the first one is prompted again and uses a tool, and another begins.
   */
  lemma UnrecoveredErrorLost(cfg: Config) returns (run: seq<Input>)
    requires Usable(cfg)
    ensures |run| >= 2 && Quiet(cfg, run)
    ensures var tr := TraceOf(cfg, run);
            Behaviour(tr) && ErrorVanishes(tr.books[|run| - 2], tr.books[|run| - 1], tr.books[|run|])
  {
    var front := ReopenedRun(cfg);
    run := ErrorVanishesAfter(cfg, front, cfg.maxOldTurns + 1);
    TraceBehaves(cfg, run);
  }
}
