/**
 The way of a click: from a card the node publishes, by way of the hub's queue, back to the card that is then read.
 */
module ClickThrough {
  import opened Basics
  import opened PublicModel
  import opened AgentModel
  import opened AlertBook
  import opened TaskCards
  import opened Lifecycle
  import opened ReducerModel
  import opened ReducerRuns
  import opened Projection
  import ReducerAnswers
  import HubStore
  import Navigation

  // ---------- what is published ----------

  /** A card is published under its own id, as unread exactly while it is finished and unread, and with a way to its session. */
  lemma CardIsPublished(root: Root, s: Surroundings, now: Time, n: nat)
    requires n < |root.tasks|
    ensures var pub, t := Project(root, s, now), root.tasks[n];
            && |pub.tasks| == |root.tasks| && |pub.targets| == |root.targets| && pub.safeNavigation == s.safeNavigation
            && pub.tasks[n].id == OpaqueId(t.key) && pub.tasks[n].lifecycle == t.lifecycle
            && (pub.tasks[n].unread <==> t.lifecycle in {Complete, Error} && t.readAt.None?)
            && (pub.tasks[n].navigation.Some? <==> s.safeNavigation && SessionKey(t.key.provider, t.key.session) in root.targets)
            && (pub.tasks[n].navigation.Some? ==>
                  exists i :: 0 <= i < |root.targets| && root.targets[i] == SessionKey(t.key.provider, t.key.session)
                              && pub.targets[i] == PublicTarget(pub.tasks[n].navigation.value, [FocusAgent]))
  {
    var k := SessionOf(root.tasks[n]);
    if k in root.targets {
      var i :| 0 <= i < |root.targets| && root.targets[i] == k;
      assert Project(root, s, now).targets[i] == PublicTarget(TargetId(k), [FocusAgent]);
    }
  }

  // ---------- every card has its session's target ----------

  ghost predicate Led(root: Root) {
    forall t :: t in root.tasks ==> SessionOf(t) in root.targets
  }

  lemma LedByIndex(root: Root, next: Root)
    requires Led(root) && next.targets == root.targets && |next.tasks| == |root.tasks|
    requires forall n :: 0 <= n < |root.tasks| ==> next.tasks[n].key == root.tasks[n].key
    ensures Led(next)
  {
    forall t | t in next.tasks ensures SessionOf(t) in next.targets {
      var n :| 0 <= n < |next.tasks| && next.tasks[n] == t;
      assert root.tasks[n] in root.tasks;
    }
  }

  lemma LedFiltered(root: Root, next: Root, p: Task -> bool)
    requires Led(root) && next.targets == root.targets && next.tasks == Keep(root.tasks, p)
    ensures Led(next)
  {
    KeepMembers(root.tasks, p);
  }

  lemma TurnEventLeads(cfg: Config, root: Root, m: Meta, e: Event, turn: string)
    requires Led(root)
    ensures Led(TurnEvent(cfg, root, m, e, turn).root)
  {
    var next := TurnEvent(cfg, root, m, e, turn).root;
    if next != root {
      LedByIndex(root, next);
    }
  }

  lemma PromptLeads(cfg: Config, root: Root, m: Meta, e: Event)
    requires Led(root) && e.typ == UserPromptSubmit
    ensures Led(Reduce(cfg, root, m, e).root)
  {
    var read := root.(tasks := AcknowledgeTerminal(root.tasks, KeyOf(e), e.at));
    LedByIndex(root, read);
    if !HistoricalReplay(root, m, e) && Opens(m, e) {
      OpeningCards(cfg, root, m, e);
      KeepMembers(read.tasks, Standing(KeyOf(e), e.turn.value));
    }
  }

  lemma ReduceLeads(cfg: Config, root: Root, m: Meta, e: Event)
    requires Led(root)
    ensures Led(Reduce(cfg, root, m, e).root)
  {
    if e.typ == UserPromptSubmit {
      PromptLeads(cfg, root, m, e);
    } else if e.typ == SessionEnd {
      LedByIndex(root, Ended(root, m, e).root);
    } else if e.turn.Some? && e.turn.value != "" {
      if DegradedStop(e) {
        LedByIndex(root, DegradedStopped(cfg, root, m, e, e.turn.value).root);
      } else {
        TurnEventLeads(cfg, root, m, e, e.turn.value);
      }
    }
  }

  lemma MarkingLeads(cfg: Config, root: Root, now: Time)
    requires Led(root)
    ensures Led(MarkAgents(cfg, root, |root.agents|, now))
  {
    forall r: Root, i: nat | Led(r) && i < |r.agents| ensures Led(MarkAgent(cfg, r, i, now)) {
      LedByIndex(r, MarkAgent(cfg, r, i, now));
    }
    MarkAgentsInvariant(cfg, root, |root.agents|, now, (r: Root) => Led(r));
  }

  lemma StepLeads(cfg: Config, b: Book, i: Input)
    requires Led(b.root)
    ensures Led(Step(cfg, b, i).root)
  {
    match i
    case Submit(e) => ReduceLeads(cfg, b.root, MetaFor(b, KeyOf(e)), e);
    case Acknowledge(id, target, at) => LedByIndex(b.root, Acknowledged(b.root, id, target, at));
    case Maintain(now) =>
      MarkingLeads(cfg, b.root, now);
      LedFiltered(MarkAgents(cfg, b.root, |b.root.agents|, now), Maintained(cfg, b.root, now), Kept(cfg, now));
  }

  /** In every run, every card's session has a registered target. */
  lemma {:induction false} EveryCardIsLed(tr: Trace, k: nat)
    requires Behaviour(tr) && k < |tr.books|
    ensures Led(tr.books[k].root)
  {
    if k > 0 {
      EveryCardIsLed(tr, k - 1);
      StepLeads(tr.cfg, tr.books[k - 1], tr.inputs[k - 1]);
    }
  }

  // ---------- the click ----------

  /** The request a display makes for the published card `n`. */
  function Click(pub: PublicState, n: nat, host: string, now: Time, id: string): Navigation.Request
    requires n < |pub.tasks| && pub.tasks[n].navigation.Some?
  {
    Navigation.Request(host, pub.tasks[n].navigation.value, pub.tasks[n].id, FocusAgent, now, id)
  }

  /** The first published target of this id offers to focus the agent, as they all do. */
  lemma PublishedTargetOffers(root: Root, s: Surroundings, at: Time, i: nat, r: Navigation.Request)
    requires i < |root.targets| && r.targetId == TargetId(root.targets[i]) && r.action == FocusAgent
    ensures Navigation.TargetOffers(Project(root, s, at), r)
  {
    var pub := Project(root, s, at);
    var f := Navigation.FindTarget(pub.targets, r.targetId);
    assert pub.targets[i].targetId == r.targetId;
    assert f <= i;
    assert pub.targets[f] == PublicTarget(TargetId(root.targets[f]), [FocusAgent]);
  }

  /**
   In every run: every card of a node that allows navigation is published with a way to its session, and the hub takes
   a click on it for as long as the node has fewer than 32 actions waiting.
   */
  lemma ClickIsTaken(tr: Trace, k: nat, s: Surroundings, at: Time, n: nat, rec: HubStore.Record, queued: nat,
                     host: string, now: Time, id: string)
    requires Behaviour(tr) && k < |tr.books| && s.safeNavigation && n < |tr.books[k].root.tasks| && queued < 32
    requires rec.state == Some(Project(tr.books[k].root, s, at))
    ensures var pub := rec.state.value;
            && n < |pub.tasks| && pub.tasks[n].navigation.Some?
            && Navigation.Objection(true, Some(rec), queued, Click(pub, n, host, now, id)).None?
  {
    var root := tr.books[k].root;
    EveryCardIsLed(tr, k);
    assert root.tasks[n] in root.tasks;
    CardIsPublished(root, s, at, n);
    var pub := rec.state.value;
    var r := Click(pub, n, host, now, id);
    var i :| 0 <= i < |root.targets| && root.targets[i] == SessionOf(root.tasks[n]);
    PublishedTargetOffers(root, s, at, i, r);
    assert pub.tasks[n] in pub.tasks;
    Navigation.ObjectionMeans(true, Some(rec), queued, r);
  }

  /** In every run: once the node executes the click, the finished card it was for is published as read. */
  lemma ClickReads(tr: Trace, k: nat, s: Surroundings, at: Time, when: Time, n: nat)
    requires Behaviour(tr) && k < |tr.books| && n < |tr.books[k].root.tasks| && when != 0
    requires var t := tr.books[k].root.tasks[n];
             t.lifecycle in {Complete, Error}
             && forall j :: 0 <= j < n ==> tr.books[k].root.tasks[j].key != t.key || tr.books[k].root.tasks[j].lifecycle !in {Complete, Error}
    ensures var b := tr.books[k];
            var t := b.root.tasks[n];
            var next := Step(tr.cfg, b, Acknowledge(OpaqueId(t.key), SessionOf(t), when)).root;
            && n < |next.tasks| && next.tasks[n].key == t.key && next.tasks[n].lifecycle == t.lifecycle
            && !Project(next, s, at).tasks[n].unread
  {
    EveryCardIsLed(tr, k);
    var b := tr.books[k];
    var t := b.root.tasks[n];
    assert t in b.root.tasks;
    ReducerAnswers.AcknowledgementIsAnswered(tr.cfg, b, OpaqueId(t.key), SessionOf(t), when, n);
    var next := Step(tr.cfg, b, Acknowledge(OpaqueId(t.key), SessionOf(t), when)).root;
    CardIsPublished(next, s, at, n);
  }
}
