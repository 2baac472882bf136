/** Entities of the agent lifecycle reducer: hook events, agents, task cards, alerts and session metadata. */
module AgentModel {
  import opened Basics
  import opened PublicModel

  datatype EventType =
    | UserPromptSubmit | PreToolUse | AskUserQuestion | PermissionRequest | PostToolUse | PostToolUseFailure
    | PermissionDenied | Notification | SubagentStart | SubagentStop | TaskCreated | TaskCompleted
    | Stop | StopFailure | SessionEnd | Elicitation | ElicitationResult

  datatype NotificationType = PermissionPrompt | ElicitationDialog | ElicitationUrlDialog | IdlePrompt

  datatype ErrorType = AuthenticationFailed | OrgNotAllowed | BillingError | RateLimit | OtherError

  /** `silent` says that the permission mode is one of the non-interactive ones. */
  datatype Event = Event(id: string, provider: Provider, session: string, turn: Option<string>, typ: EventType,
                         at: Time, silent: bool, notification: Option<NotificationType>, error: Option<ErrorType>,
                         background: Option<int>, crons: Option<int>)

  const CODEX_UNSUPPORTED: set<EventType> :=
    {PostToolUseFailure, PermissionDenied, Notification, TaskCreated, TaskCompleted, StopFailure,
     Elicitation, ElicitationResult, AskUserQuestion}

  predicate WellFormed(e: Event) {
    && !Blank(e.id) && !Blank(e.session) && e.at != 0
    && (e.provider == Codex ==> e.typ !in CODEX_UNSUPPORTED)
  }

  datatype Activity = ActivityIdle | ActivityWorking | ActivityAttention | ActivityError
  datatype Outcome = OutcomeNone | OutcomeCompleted | OutcomeFailed
  datatype Freshness = FreshnessFresh | FreshnessStale
  datatype AlertType = AlertAttention | AlertError | AlertComplete | AlertStale

  datatype SessionKey = SessionKey(provider: Provider, session: string)

  datatype CurrentTurn = CurrentTurn(turn: string, activity: Activity, outcome: Outcome, freshness: Freshness,
                                     startedAt: Time, completedAt: Option<Time>, updatedAt: Time)

  datatype Agent = Agent(key: SessionKey, cur: CurrentTurn)

  datatype AttentionKind =
    | ApprovalNeeded | QuestionWaiting | ElicitationWaiting | ProviderActionRequired
    | AuthenticationRequired | BillingRequired | RateLimited

  datatype TaskAttention = TaskAttention(kind: AttentionKind, at: Time)

  datatype Task = Task(key: TaskKey, lifecycle: TaskLifecycle, freshness: Freshness, startedAt: Time, updatedAt: Time,
                       attention: Option<TaskAttention>, readAt: Option<Time>, supersededAt: Option<Time>)

  datatype Alert = Alert(typ: AlertType, key: SessionKey, turn: Option<string>, active: bool,
                         createdAt: Time, updatedAt: Time, highUntil: Option<Time>, retainUntil: Option<Time>)

  /** Agent navigation targets are named by their session; `targets` lists the registered ones. */
  datatype Root = Root(agents: seq<Agent>, tasks: seq<Task>, alerts: seq<Alert>, targets: seq<SessionKey>)

  datatype Meta = Meta(current: string, terminal: string, startedAt: Time, latestTurn: Time, latestSession: Time,
                       endedAt: Time, oldTurns: seq<string>)

  type Sessions = map<SessionKey, Meta>

  const NEW_META := Meta("", "", 0, 0, 0, 0, [])

  datatype Config = Config(staleAfter: Time, staleRetention: Time, highVisibility: Time, completeRetention: Time,
                           maxSeen: nat, maxOldTurns: nat, maxSessions: nat)

  /** The bounds the constructor enforces on its configuration. */
  predicate Usable(c: Config) {
    && c.staleAfter > 0 && c.staleRetention > 0 && c.highVisibility >= 0 && c.completeRetention > 0
    && c.maxSeen > 0 && c.maxOldTurns > 0 && c.maxSessions > 0
  }

  function KeyOf(e: Event): SessionKey {
    SessionKey(e.provider, e.session)
  }

  function SessionOf(t: Task): SessionKey {
    SessionKey(t.key.provider, t.key.session)
  }

  function TurnPtr(turn: string): Option<string> {
    if turn == "" then None else Some(turn)
  }

  /** The text id of an agent: provider name, a colon, the session id. */
  function AgentId(k: SessionKey): string {
    (match k.provider case Codex => "codex" case Claude => "claude-code") + ":" + k.session
  }

  /** Agent ids separate sessions, so looking agents up by key is looking them up by id. */
  lemma AgentIdInjective(a: SessionKey, b: SessionKey)
    requires AgentId(a) == AgentId(b)
    ensures a == b
  {
    assert AgentId(a)[1] == if a.provider == Codex then 'o' else 'l';
    assert AgentId(b)[1] == if b.provider == Codex then 'o' else 'l';
    var n := if a.provider == Codex then 6 else 12;
    assert AgentId(a)[n..] == a.session && AgentId(b)[n..] == b.session;
  }
}
