/** From the reducer's root to the published state, and on through the hub's identity checks. */
module Projection {
  import opened Basics
  import opened PublicModel
  import opened AgentModel
  import opened LifecycleInvariant
  import opened ReducerModel
  import opened ReducerRuns
  import HubValidation
  import Uplink

  /** The opaque id of a session's navigation target, taken to be injective. */
  function TargetId(k: SessionKey): string {
    "target-agent-" + AgentId(k)
  }

  function ProjectTask(t: Task, targets: seq<SessionKey>, safeNavigation: bool): PublicTask {
    PublicTask(OpaqueId(t.key), t.lifecycle, Terminal(t.lifecycle) && t.readAt.None?,
               if safeNavigation && SessionOf(t) in targets then Some(TargetId(SessionOf(t))) else None)
  }

  /** What the projector takes from elsewhere: host identity, capability, quota and the opaque rest. */
  datatype Surroundings = Surroundings(hostId: string, safeNavigation: bool, quota: seq<PublicQuota>, rest: int)

  function Project(root: Root, s: Surroundings, now: Time): PublicState {
    PublicState(1, "public", now, s.hostId,
                seq(|root.agents|, i requires 0 <= i < |root.agents| => AgentId(root.agents[i].key)),
                seq(|root.tasks|, i requires 0 <= i < |root.tasks| => ProjectTask(root.tasks[i], root.targets, s.safeNavigation)),
                s.quota,
                seq(|root.targets|, i requires 0 <= i < |root.targets| => PublicTarget(TargetId(root.targets[i]), [FocusAgent])),
                s.safeNavigation, s.rest)
  }

  method ProjectPublic(root: Root, s: Surroundings, now: Time) returns (pub: PublicState)
    ensures pub == Project(root, s, now)
  {
    var targets: seq<PublicTarget> := [];
    for i := 0 to |root.targets|
      invariant targets == Project(root, s, now).targets[..i]
    {
      targets := targets + [PublicTarget(TargetId(root.targets[i]), [FocusAgent])];
    }
    var agents: seq<string> := [];
    for i := 0 to |root.agents|
      invariant agents == Project(root, s, now).agents[..i]
    {
      agents := agents + [AgentId(root.agents[i].key)];
    }
    var tasks: seq<PublicTask> := [];
    for i := 0 to |root.tasks|
      invariant tasks == Project(root, s, now).tasks[..i]
    {
      var t := root.tasks[i];
      var shown := PublicTask(OpaqueId(t.key), t.lifecycle, Terminal(t.lifecycle) && t.readAt.None?, None);
      if s.safeNavigation {
        for j := 0 to |root.targets|
          invariant shown.navigation == if SessionOf(t) in root.targets[..j] then Some(TargetId(SessionOf(t))) else None
          invariant shown == PublicTask(OpaqueId(t.key), t.lifecycle, Terminal(t.lifecycle) && t.readAt.None?, shown.navigation)
        {
          if root.targets[j] == SessionOf(t) {
            shown := shown.(navigation := Some(TargetId(root.targets[j])));
          }
        }
        assert root.targets[..|root.targets|] == root.targets;
      }
      tasks := tasks + [shown];
    }
    pub := PublicState(1, "public", now, s.hostId, agents, tasks, s.quota, targets, s.safeNavigation, s.rest);
  }

  /**
   Every snapshot a node can build from a reachable state passes the hub's envelope, id-uniqueness and
   host-binding checks, and is refused exactly when it was stamped too far ahead of the hub's clock.
   */
  lemma ReachableSnapshotsAreWellFormed(tr: Trace, k: nat, s: Surroundings, session: string, sequence: nat,
                                        at: Time, hubNow: Time)
    requires RegularRun(tr) && k < |tr.books|
    requires HubValidation.ValidNodeId(s.hostId) && HubValidation.ValidSessionId(session) && sequence >= 1 && at != 0
    ensures var built := Uplink.Build(s.hostId, session, sequence, Project(tr.books[k].root, s, at), at);
            && built.Some?
            && HubValidation.ValidateEnvelope(built.value).None?
            && HubValidation.ValidateNested(built.value, hubNow)
               == if at > hubNow + HubValidation.FUTURE_TOLERANCE then Some(HubValidation.StateFutureTimestamp) else None
  {
    CardsAndAgentsUnique(tr, k);
    var root := tr.books[k].root;
    CleanProjection(root, s, at);
  }

  lemma CleanProjection(root: Root, s: Surroundings, at: Time)
    requires DistinctCards(root.tasks)
    requires forall i, j :: 0 <= i < j < |root.agents| ==> root.agents[i].key != root.agents[j].key
    ensures HubValidation.CleanIds(HubValidation.TaskIdSeq(Project(root, s, at).tasks), EmptyId)
    ensures HubValidation.CleanIds(Project(root, s, at).agents, "")
  {
    var ids := Project(root, s, at).agents;
    forall i, j | 0 <= i < j < |ids| ensures ids[i] != ids[j] {
      if ids[i] == ids[j] {
        AgentIdInjective(root.agents[i].key, root.agents[j].key);
      }
    }
  }
}
