/** The hub's per-node queues of navigation actions: enqueued by a display, polled and acknowledged by the node. */
module Navigation {
  import opened Basics
  import opened PublicModel
  import opened HubStore
  import AgentModel
  import ReducerModel

  const MAX_QUEUED := 32

  datatype Action = Action(id: string, targetId: string, task: TaskId, action: NavigationAction, issuedAt: Time)

  datatype Result = Result(ok: bool, message: string)

  datatype Refusal = HostUnavailable | NoState | NotEnabled | TargetUnavailable | TaskUnavailable | QueueFull

  datatype Enqueued = Queued(item: Action) | Refused(why: Refusal)

  type Queues = map<string, seq<Action>>

  function QueueOf(queues: Queues, node: string): seq<Action> {
    if node in queues then queues[node] else []
  }

  /** A display's request; `id` is the random identifier the hub draws for it. */
  datatype Request = Request(host: string, targetId: string, task: TaskId, action: NavigationAction, now: Time, id: string)

  function ItemOf(r: Request): Action {
    Action(r.id, r.targetId, r.task, r.action, r.now)
  }

  function FindTarget(targets: seq<PublicTarget>, id: string): (i: nat)
    ensures i <= |targets|
    ensures i < |targets| ==> targets[i].targetId == id
    ensures forall k :: 0 <= k < i ==> targets[k].targetId != id
  {
    if targets == [] || targets[0].targetId == id then 0 else 1 + FindTarget(targets[1..], id)
  }

  predicate Offers(t: PublicTask, id: TaskId, target: string) {
    t.id == id && t.navigation == Some(target)
  }

  /** The reason to turn a request down, if there is one, given the node's record and queue length. */
  function Objection(enabled: bool, rec: Option<Record>, queued: nat, r: Request): Option<Refusal> {
    if !enabled then Some(HostUnavailable)
    else if rec.None? || rec.value.state.None? then Some(NoState)
    else
      var pub := rec.value.state.value;
      var i := FindTarget(pub.targets, r.targetId);
      if !pub.safeNavigation then Some(NotEnabled)
      else if i == |pub.targets| || r.action !in pub.targets[i].actions then Some(TargetUnavailable)
      else if r.task != EmptyId && !(exists t :: t in pub.tasks && Offers(t, r.task, r.targetId)) then Some(TaskUnavailable)
      else if queued >= MAX_QUEUED then Some(QueueFull)
      else None
  }

  // ---------- which requests are taken ----------

  /** The target the display names, as the node published it, offers the action. */
  ghost predicate TargetOffers(pub: PublicState, r: Request) {
    exists i :: 0 <= i < |pub.targets| && pub.targets[i].targetId == r.targetId && r.action in pub.targets[i].actions
                && forall k :: 0 <= k < i ==> pub.targets[k].targetId != r.targetId
  }

  ghost predicate TaskLeadsThere(pub: PublicState, r: Request) {
    r.task == EmptyId || exists t :: t in pub.tasks && t.id == r.task && t.navigation == Some(r.targetId)
  }

  /** What each refusal says; a request with none of these faults is taken. */
  ghost predicate RefusedFor(why: Refusal, enabled: bool, rec: Option<Record>, queued: nat, r: Request) {
    match why
    case HostUnavailable => !enabled
    case NoState => enabled && (rec.None? || rec.value.state.None?)
    case NotEnabled => enabled && rec.Some? && rec.value.state.Some? && !rec.value.state.value.safeNavigation
    case TargetUnavailable =>
      enabled && rec.Some? && rec.value.state.Some? && rec.value.state.value.safeNavigation
      && !TargetOffers(rec.value.state.value, r)
    case TaskUnavailable =>
      enabled && rec.Some? && rec.value.state.Some? && rec.value.state.value.safeNavigation
      && TargetOffers(rec.value.state.value, r) && !TaskLeadsThere(rec.value.state.value, r)
    case QueueFull =>
      enabled && rec.Some? && rec.value.state.Some? && rec.value.state.value.safeNavigation
      && TargetOffers(rec.value.state.value, r) && TaskLeadsThere(rec.value.state.value, r) && queued >= 32
  }

  ghost predicate Taken(enabled: bool, rec: Option<Record>, queued: nat, r: Request) {
    && enabled && rec.Some? && rec.value.state.Some? && rec.value.state.value.safeNavigation
    && TargetOffers(rec.value.state.value, r) && TaskLeadsThere(rec.value.state.value, r) && queued < 32
  }

  lemma TargetFound(pub: PublicState, r: Request)
    ensures var i := FindTarget(pub.targets, r.targetId);
            i < |pub.targets| && r.action in pub.targets[i].actions <==> TargetOffers(pub, r)
  {
    var i := FindTarget(pub.targets, r.targetId);
    forall k | 0 <= k < |pub.targets| && pub.targets[k].targetId == r.targetId
                && forall n :: 0 <= n < k ==> pub.targets[n].targetId != r.targetId
      ensures k == i
    {
    }
  }

  lemma ObjectionMeans(enabled: bool, rec: Option<Record>, queued: nat, r: Request)
    ensures var o := Objection(enabled, rec, queued, r);
            if o.Some? then RefusedFor(o.value, enabled, rec, queued, r) else Taken(enabled, rec, queued, r)
  {
    if rec.Some? && rec.value.state.Some? {
      var pub := rec.value.state.value;
      TargetFound(pub, r);
      assert (exists t :: t in pub.tasks && Offers(t, r.task, r.targetId))
          <==> (exists t :: t in pub.tasks && t.id == r.task && t.navigation == Some(r.targetId)) by {
        assert forall t :: Offers(t, r.task, r.targetId) <==> t.id == r.task && t.navigation == Some(r.targetId);
      }
    }
  }

  /** Position of the first queued action with this id, or the length. */
  function FindAction(queue: seq<Action>, id: string): (i: nat)
    ensures i <= |queue|
    ensures i < |queue| ==> queue[i].id == id
    ensures forall k :: 0 <= k < i ==> queue[k].id != id
  {
    if queue == [] || queue[0].id == id then 0 else 1 + FindAction(queue[1..], id)
  }

  function Without(queue: seq<Action>, id: string): seq<Action> {
    var i := FindAction(queue, id);
    if i == |queue| then queue else queue[..i] + queue[i + 1..]
  }

  class ActionQueue {
    var byNode: Queues
    var results: map<string, Result>

    constructor ()
      ensures byNode == map[] && results == map[]
    {
      byNode := map[];
      results := map[];
    }

    method EnqueueForTask(enabled: bool, rec: Option<Record>, r: Request) returns (e: Enqueued)
      modifies this`byNode
      ensures var objection := Objection(enabled, rec, |QueueOf(old(byNode), r.host)|, r);
              && e == (if objection.Some? then Refused(objection.value) else Queued(ItemOf(r)))
              && byNode == if objection.Some? then old(byNode)
                           else old(byNode)[r.host := QueueOf(old(byNode), r.host) + [ItemOf(r)]]
      ensures e.Queued? <==> Taken(enabled, rec, |QueueOf(old(byNode), r.host)|, r)
      ensures e.Refused? ==> RefusedFor(e.why, enabled, rec, |QueueOf(old(byNode), r.host)|, r)
    {
      ObjectionMeans(enabled, rec, |QueueOf(byNode, r.host)|, r);
      if !enabled {
        return Refused(HostUnavailable);
      }
      if rec.None? || rec.value.state.None? {
        return Refused(NoState);
      }
      var pub := rec.value.state.value;
      if !pub.safeNavigation {
        return Refused(NotEnabled);
      }
      var i := 0;
      while i < |pub.targets| && pub.targets[i].targetId != r.targetId
        invariant 0 <= i <= |pub.targets|
        invariant forall k :: 0 <= k < i ==> pub.targets[k].targetId != r.targetId
      {
        i := i + 1;
      }
      assert i == FindTarget(pub.targets, r.targetId);
      if i == |pub.targets| || r.action !in pub.targets[i].actions {
        return Refused(TargetUnavailable);
      }
      if r.task != EmptyId {
        var validTask := false;
        for k := 0 to |pub.tasks|
          invariant validTask <==> exists t :: t in pub.tasks[..k] && Offers(t, r.task, r.targetId)
        {
          assert pub.tasks[..k + 1] == pub.tasks[..k] + [pub.tasks[k]];
          if Offers(pub.tasks[k], r.task, r.targetId) {
            validTask := true;
          }
        }
        assert pub.tasks[..|pub.tasks|] == pub.tasks;
        if !validTask {
          return Refused(TaskUnavailable);
        }
      }
      var queue := QueueOf(byNode, r.host);
      if |queue| >= MAX_QUEUED {
        return Refused(QueueFull);
      }
      byNode := byNode[r.host := queue + [ItemOf(r)]];
      return Queued(ItemOf(r));
    }

    /** Remove one action of this node; another node's action with the same id is out of reach. */
    method AckItem(node: string, id: string, result: Result) returns (item: Option<Action>)
      modifies this
      ensures var queue := QueueOf(old(byNode), node);
              var i := FindAction(queue, id);
              if i == |queue| then item == None && byNode == old(byNode) && results == old(results)
              else item == Some(queue[i]) && byNode == old(byNode)[node := Without(queue, id)]
                   && results == old(results)[id := result]
    {
      var queue := QueueOf(byNode, node);
      for i := 0 to |queue|
        invariant forall k :: 0 <= k < i ==> queue[k].id != id
        invariant byNode == old(byNode) && results == old(results)
      {
        if queue[i].id == id {
          assert i == FindAction(queue, id);
          byNode := byNode[node := queue[..i] + queue[i + 1..]];
          results := results[id := result];
          return Some(queue[i]);
        }
      }
      return None;
    }
  }

  // ---------- runs ----------

  /** `asked` and `answered` list, per node, every action queued and every action consumed. */
  datatype Desk = Desk(queues: Queues, asked: Queues, answered: Queues)

  datatype Input = Ask(enabled: bool, rec: Option<Record>, request: Request) | Answer(node: string, id: string)

  function Step(d: Desk, i: Input): Desk {
    match i
    case Ask(enabled, rec, r) =>
      if Objection(enabled, rec, |QueueOf(d.queues, r.host)|, r).Some? then d
      else
        d.(queues := d.queues[r.host := QueueOf(d.queues, r.host) + [ItemOf(r)]],
           asked := d.asked[r.host := QueueOf(d.asked, r.host) + [ItemOf(r)]])
    case Answer(node, id) =>
      var queue := QueueOf(d.queues, node);
      var k := FindAction(queue, id);
      if k == |queue| then d
      else
        d.(queues := d.queues[node := Without(queue, id)],
           answered := d.answered[node := QueueOf(d.answered, node) + [queue[k]]])
  }

  function Run(inputs: seq<Input>): Desk {
    if inputs == [] then Desk(map[], map[], map[]) else Step(Run(inputs[..|inputs| - 1]), inputs[|inputs| - 1])
  }

  /** At every step: a request joins the end of its node's queue exactly when it has no fault, and changes nothing otherwise. */
  lemma AskQueuesIff(d: Desk, i: Input, node: string)
    requires i.Ask?
    ensures var r, queue := i.request, QueueOf(d.queues, node);
            QueueOf(Step(d, i).queues, node)
            == if node == r.host && Taken(i.enabled, i.rec, |queue|, r)
               then queue + [Action(r.id, r.targetId, r.task, r.action, r.now)] else queue
  {
    ObjectionMeans(i.enabled, i.rec, |QueueOf(d.queues, i.request.host)|, i.request);
  }

  /** And an answer takes out the first queued action of that id, if there is one. */
  lemma AnswerTakesOut(d: Desk, i: Input, k: nat)
    requires i.Answer?
    requires var queue := QueueOf(d.queues, i.node);
             k <= |queue| && (k < |queue| ==> queue[k].id == i.id) && forall n :: 0 <= n < k ==> queue[n].id != i.id
    ensures var queue, done := QueueOf(d.queues, i.node), QueueOf(d.answered, i.node);
            if k == |queue| then Step(d, i) == d
            else QueueOf(Step(d, i).queues, i.node) == queue[..k] + queue[k + 1..]
                 && QueueOf(Step(d, i).answered, i.node) == done + [queue[k]]
  {
    FoundAt(QueueOf(d.queues, i.node), i.id, k);
  }

  ghost predicate Conserved(d: Desk, node: string) {
    && |QueueOf(d.queues, node)| <= MAX_QUEUED
    && multiset(QueueOf(d.asked, node)) == multiset(QueueOf(d.queues, node)) + multiset(QueueOf(d.answered, node))
  }

  lemma SpliceOut(s: seq<Action>, i: nat)
    requires i < |s|
    ensures multiset(s) == multiset(s[..i] + s[i + 1..]) + multiset{s[i]}
  {
    assert s == s[..i] + ([s[i]] + s[i + 1..]);
  }

  lemma AskConserves(d: Desk, i: Input, node: string)
    requires i.Ask? && Conserved(d, node)
    ensures Conserved(Step(d, i), node)
  {
    var e, r := Step(d, i), i.request;
    if e != d && r.host == node {
      assert QueueOf(e.queues, node) == QueueOf(d.queues, node) + [ItemOf(r)];
      assert QueueOf(e.asked, node) == QueueOf(d.asked, node) + [ItemOf(r)];
    }
  }

  lemma AnswerConserves(d: Desk, i: Input, node: string)
    requires i.Answer? && Conserved(d, node)
    ensures Conserved(Step(d, i), node)
  {
    var queue, done := QueueOf(d.queues, node), QueueOf(d.answered, node);
    var k := FindAction(queue, i.id);
    if i.node == node && k < |queue| {
      var e := Step(d, i);
      assert QueueOf(e.answered, node) == done + [queue[k]];
      assert QueueOf(e.queues, node) == queue[..k] + queue[k + 1..];
      SpliceOut(queue, k);
    }
  }

  /** In every run, each node's queued actions are the pending ones and the consumed ones, nothing else. */
  lemma {:induction false} ActionsConserved(inputs: seq<Input>, node: string)
    ensures Conserved(Run(inputs), node)
  {
    if inputs != [] {
      ActionsConserved(inputs[..|inputs| - 1], node);
      var d, i := Run(inputs[..|inputs| - 1]), inputs[|inputs| - 1];
      match i
      case Ask(_, _, _) => AskConserves(d, i, node);
      case Answer(_, _) => AnswerConserves(d, i, node);
    }
  }

  /** Steps of one node leave every other node's queue alone. */
  lemma OtherNodesUntouched(d: Desk, i: Input, node: string)
    requires match i case Ask(_, _, r) => r.host != node case Answer(other, _) => other != node
    ensures QueueOf(Step(d, i).queues, node) == QueueOf(d.queues, node)
    ensures QueueOf(Step(d, i).answered, node) == QueueOf(d.answered, node)
  {
  }

  // ---------- order, when identifiers do not repeat ----------

  ghost predicate UniqueIds(actions: seq<Action>) {
    forall i, j :: 0 <= i < j < |actions| ==> actions[i].id != actions[j].id
  }

  function AnsweredIds(d: Desk, node: string): set<string> {
    set a | a in QueueOf(d.answered, node) :: a.id
  }

  function Unanswered(ids: set<string>): Action -> bool {
    (a: Action) => a.id !in ids
  }

  ghost predicate OrderKept(d: Desk, node: string) {
    && QueueOf(d.queues, node) == Keep(QueueOf(d.asked, node), Unanswered(AnsweredIds(d, node)))
    && (forall a :: a in QueueOf(d.answered, node) ==> a in QueueOf(d.asked, node))
  }

  lemma FoundAt(queue: seq<Action>, id: string, i: nat)
    requires i <= |queue| && (forall k :: 0 <= k < i ==> queue[k].id != id) && (i < |queue| ==> queue[i].id == id)
    ensures FindAction(queue, id) == i
  {
  }

  lemma SpliceAppended(queue: seq<Action>, last: Action, i: nat)
    requires i < |queue|
    ensures (queue + [last])[..i] + (queue + [last])[i + 1..] == queue[..i] + queue[i + 1..] + [last]
  {
  }

  lemma SpliceLast(queue: seq<Action>, last: Action)
    ensures (queue + [last])[..|queue|] + (queue + [last])[|queue| + 1..] == queue
  {
  }

  /** Taking out the first match, wherever it is known to be. */
  lemma WithoutAt(queue: seq<Action>, id: string, i: nat)
    requires i <= |queue| && (forall k :: 0 <= k < i ==> queue[k].id != id) && (i < |queue| ==> queue[i].id == id)
    ensures Without(queue, id) == if i == |queue| then queue else queue[..i] + queue[i + 1..]
  {
    FoundAt(queue, id, i);
  }

  /** Taking an action out, in terms of the list without its last element. */
  lemma WithoutLast(queue: seq<Action>, last: Action, id: string)
    requires last.id == id ==> FindAction(queue, id) == |queue|
    ensures Without(queue + [last], id) == if last.id == id then queue else Without(queue, id) + [last]
  {
    var all, i := queue + [last], FindAction(queue, id);
    WithoutAt(queue, id, i);
    WithoutAt(all, id, if i == |queue| && last.id != id then |all| else i);
    if i < |queue| {
      SpliceAppended(queue, last, i);
    } else if last.id == id {
      SpliceLast(queue, last);
    }
  }

  lemma WithoutStep(kept: seq<Action>, last: Action, answered: bool, id: string)
    requires !answered && last.id == id ==> forall k :: 0 <= k < |kept| ==> kept[k].id != id
    ensures Without(if answered then kept else kept + [last], id)
         == Without(kept, id) + if answered || last.id == id then [] else [last]
  {
    if answered {
      assert Without(kept, id) + [] == Without(kept, id);
    } else {
      if last.id == id {
        FoundAt(kept, id, |kept|);
      }
      WithoutLast(kept, last, id);
    }
  }

  lemma {:induction false} KeepWithout(actions: seq<Action>, ids: set<string>, id: string)
    requires UniqueIds(actions)
    ensures Keep(actions, Unanswered(ids + {id})) == Without(Keep(actions, Unanswered(ids)), id)
  {
    if actions != [] {
      var front, last := actions[..|actions| - 1], actions[|actions| - 1];
      assert actions == front + [last];
      NotFound(actions, ids);
      calc {
        Keep(actions, Unanswered(ids + {id}));
        { KeepStep(front, last, ids + {id}); }
        Keep(front, Unanswered(ids + {id})) + if last.id in ids || last.id == id then [] else [last];
        { KeepWithout(front, ids, id); }
        Without(Keep(front, Unanswered(ids)), id) + if last.id in ids || last.id == id then [] else [last];
        { WithoutStep(Keep(front, Unanswered(ids)), last, last.id in ids, id); }
        Without(if last.id in ids then Keep(front, Unanswered(ids)) else Keep(front, Unanswered(ids)) + [last], id);
        { KeepStep(front, last, ids); }
        Without(Keep(actions, Unanswered(ids)), id);
      }
    }
  }

  lemma KeepStep(front: seq<Action>, last: Action, ids: set<string>)
    ensures Keep(front + [last], Unanswered(ids)) == if last.id in ids then Keep(front, Unanswered(ids)) else Keep(front, Unanswered(ids)) + [last]
  {
    assert (front + [last])[..|front|] == front;
  }

  lemma NotFound(actions: seq<Action>, ids: set<string>)
    requires actions != [] && UniqueIds(actions)
    ensures var front, last := actions[..|actions| - 1], actions[|actions| - 1];
            forall k :: 0 <= k < |Keep(front, Unanswered(ids))| ==> Keep(front, Unanswered(ids))[k].id != last.id
  {
    var front := actions[..|actions| - 1];
    KeepMembers(front, Unanswered(ids));
  }

  /** An identifier drawn for the first time was never answered. */
  lemma NewIdUnanswered(d: Desk, node: string, item: Action)
    requires OrderKept(d, node) && UniqueIds(QueueOf(d.asked, node) + [item])
    ensures item.id !in AnsweredIds(d, node)
  {
    var asked := QueueOf(d.asked, node);
    var all := asked + [item];
    forall a | a in QueueOf(d.answered, node) ensures a.id != item.id {
      var k :| 0 <= k < |asked| && asked[k] == a;
      assert all[k] == a && all[|asked|] == item;
    }
  }

  lemma AskKeepsOrder(d: Desk, i: Input, node: string)
    requires i.Ask? && OrderKept(d, node) && UniqueIds(QueueOf(Step(d, i).asked, node))
    ensures OrderKept(Step(d, i), node)
  {
    var e := Step(d, i);
    var asked := QueueOf(d.asked, node);
    if QueueOf(e.asked, node) != asked {
      var item := ItemOf(i.request);
      assert QueueOf(e.asked, node) == asked + [item] && (asked + [item])[..|asked|] == asked;
      NewIdUnanswered(d, node, item);
    }
  }

  lemma AnswerKeepsOrder(d: Desk, i: Input, node: string)
    requires i.Answer? && OrderKept(d, node) && UniqueIds(QueueOf(d.asked, node))
    ensures OrderKept(Step(d, i), node)
  {
    var queue, done := QueueOf(d.queues, node), QueueOf(d.answered, node);
    var k := FindAction(queue, i.id);
    if i.node == node && k < |queue| {
      var e := Step(d, i);
      var ids := AnsweredIds(d, node);
      assert QueueOf(e.answered, node) == done + [queue[k]];
      assert AnsweredIds(e, node) == ids + {i.id};
      KeepWithout(QueueOf(d.asked, node), ids, i.id);
      assert queue[k] in QueueOf(d.asked, node) by {
        KeepMembers(QueueOf(d.asked, node), Unanswered(ids));
      }
    }
  }

  lemma AskedGrows(d: Desk, i: Input, node: string)
    ensures var now := QueueOf(d.asked, node);
            |now| <= |QueueOf(Step(d, i).asked, node)| && QueueOf(Step(d, i).asked, node)[..|now|] == now
  {
  }

  /**
   When the drawn identifiers of a node never repeat, what it polls is what was queued for it and not yet
   acknowledged, in the order it was queued.
   */
  lemma {:induction false} PendingInOrder(inputs: seq<Input>, node: string)
    requires UniqueIds(QueueOf(Run(inputs).asked, node))
    ensures OrderKept(Run(inputs), node)
  {
    if inputs != [] {
      var d, i := Run(inputs[..|inputs| - 1]), inputs[|inputs| - 1];
      AskedGrows(d, i, node);
      var before, after := QueueOf(d.asked, node), QueueOf(Step(d, i).asked, node);
      assert forall k :: 0 <= k < |before| ==> before[k] == after[k];
      PendingInOrder(inputs[..|inputs| - 1], node);
      match i
      case Ask(_, _, _) => AskKeepsOrder(d, i, node);
      case Answer(_, _) => AnswerKeepsOrder(d, i, node);
    }
  }

  // ---------- executing an action twice ----------

  /** A lost acknowledgement makes the node execute the action again; the first read time stands. */
  lemma RepeatedExecution(root: AgentModel.Root, id: TaskId, target: AgentModel.SessionKey, first: Time, again: Time)
    ensures var once := ReducerModel.Acknowledged(root, id, target, first);
            first != 0 ==> ReducerModel.Acknowledged(once, id, target, again) == once
  {
    if ReducerModel.CanAck(root, id, target, first) {
      var i := ReducerModel.FindTerminal(root.tasks, id.key);
      var once := ReducerModel.Acknowledged(root, id, target, first);
      assert forall k :: 0 <= k < |root.tasks| ==> once.tasks[k].key == root.tasks[k].key && once.tasks[k].lifecycle == root.tasks[k].lifecycle;
      assert ReducerModel.FindTerminal(once.tasks, id.key) == i;
    }
  }
}
