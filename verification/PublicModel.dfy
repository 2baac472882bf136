/** The sanitised state a node publishes, and the envelope that carries it to the hub. */
module PublicModel {
  import opened Basics

  datatype Provider = Codex | Claude

  datatype TaskLifecycle = Working | Attention | Error | Complete

  predicate Terminal(l: TaskLifecycle) {
    l == Complete || l == Error
  }

  datatype TaskKey = TaskKey(provider: Provider, session: string, turn: string)

  /** A task id is a hash of the task's key, taken to be injective; `EmptyId` is the empty string. */
  datatype TaskId = EmptyId | OpaqueId(key: TaskKey)

  datatype SourceStatus = Available | Degraded | Unavailable

  datatype NavigationAction = FocusApp | FocusAgent | FocusProject | OpenProject

  datatype PublicTask = PublicTask(id: TaskId, lifecycle: TaskLifecycle, unread: bool, navigation: Option<string>)

  datatype PublicQuota = PublicQuota(provider: string, accountKey: string, displayLabel: string,
                                     sampledAt: Option<Time>, status: SourceStatus, observedBy: string)

  datatype PublicTarget = PublicTarget(targetId: string, actions: seq<NavigationAction>)

  /** `rest` stands for the sections no rule here looks into (metrics, projects, alerts, source health). */
  datatype PublicState = PublicState(schemaVersion: int, stateKind: string, generatedAt: Time, hostId: string,
                                     agents: seq<string>, tasks: seq<PublicTask>, quota: seq<PublicQuota>,
                                     targets: seq<PublicTarget>, safeNavigation: bool, rest: int)

  datatype Envelope = Envelope(schemaVersion: int, stateKind: string, nodeId: string, session: string,
                               sequence: nat, sentAt: Time, state: PublicState)

  /** SHA-256 of the encoded envelope, taken to be injective. */
  datatype Digest = Sha256(of: Envelope)
}
