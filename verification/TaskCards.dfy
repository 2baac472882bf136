/** How one task card follows the events and the agent of its turn. */
module TaskCards {
  import opened Basics
  import opened PublicModel
  import opened AgentModel

  /** Index of the first card with this key, or the length of the list. */
  function FindTask(tasks: seq<Task>, key: TaskKey): (i: nat)
    ensures i <= |tasks|
    ensures i < |tasks| ==> tasks[i].key == key
    ensures forall k :: 0 <= k < i ==> tasks[k].key != key
  {
    if tasks == [] || tasks[0].key == key then 0
    else
      var j := FindTask(tasks[1..], key);
      assert forall k :: 0 < k < 1 + j ==> tasks[k] == tasks[1..][k - 1];
      1 + j
  }

  function NewTask(e: Event, turn: string): Task {
    Task(TaskKey(e.provider, e.session, turn), Working, FreshnessFresh, e.at, e.at, None, None, None)
  }

  /** Codex reports permission requests even in modes where nobody can be asked. */
  predicate NeedsNoConfirmation(e: Event) {
    e.provider == Codex && e.typ == PermissionRequest && e.silent
  }

  /** The attention an event puts on the card of its turn. */
  function AttentionFor(e: Event): Option<TaskAttention> {
    match e.typ
    case PermissionRequest => if NeedsNoConfirmation(e) then None else Some(TaskAttention(ApprovalNeeded, e.at))
    case AskUserQuestion => Some(TaskAttention(QuestionWaiting, e.at))
    case Elicitation => Some(TaskAttention(ElicitationWaiting, e.at))
    case Notification =>
      if e.notification.None? || e.notification == Some(IdlePrompt) then None
      else Some(TaskAttention(ProviderActionRequired, e.at))
    case StopFailure =>
      (match e.error
       case Some(AuthenticationFailed) => Some(TaskAttention(AuthenticationRequired, e.at))
       case Some(OrgNotAllowed) => Some(TaskAttention(AuthenticationRequired, e.at))
       case Some(BillingError) => Some(TaskAttention(BillingRequired, e.at))
       case Some(RateLimit) => Some(TaskAttention(RateLimited, e.at))
       case _ => None)
    case _ => None
  }

  const PROGRESS: set<EventType> :=
    {PreToolUse, PostToolUse, PostToolUseFailure, PermissionDenied, SubagentStart, SubagentStop, TaskCreated, TaskCompleted}

  predicate CanClear(a: TaskAttention, e: Event) {
    && e.at >= a.at
    && (|| NeedsNoConfirmation(e)
        || e.typ in {ElicitationResult, Stop, SessionEnd, StopFailure}
        || (e.typ == Notification && e.notification == Some(IdlePrompt))
        || e.typ in PROGRESS)
  }

  /** The card takes its lifecycle from the agent's turn. */
  function Synced(t: Task, cur: CurrentTurn, at: Time): Task {
    t.(freshness := cur.freshness, updatedAt := at,
       lifecycle := if cur.activity == ActivityError || cur.outcome == OutcomeFailed then Error
                    else if cur.outcome == OutcomeCompleted then Complete
                    else if t.attention.Some? || cur.activity == ActivityAttention then Attention
                    else Working)
  }

  function NextAttention(a: Option<TaskAttention>, e: Event): Option<TaskAttention> {
    if AttentionFor(e).Some? then AttentionFor(e)
    else if a.Some? && CanClear(a.value, e) then None
    else a
  }

  function AfterEvent(t: Task, cur: CurrentTurn, e: Event): Task {
    Synced(t.(attention := NextAttention(t.attention, e)), cur, e.at)
  }
}
