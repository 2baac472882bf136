/** The checks a snapshot must pass before the hub's ordering rules look at it. */
module HubValidation {
  import opened Basics
  import opened PublicModel

  const FUTURE_TOLERANCE: Time := 2 * MINUTE

  datatype Rejection =
    | EnvelopeSchemaVersion | EnvelopeStateKind | EnvelopeNodeId | EnvelopeSessionId | EnvelopeSequence | EnvelopeSentAt
    | StateSchemaVersion | StateStateKind | StateHostId | StateGeneratedAt | StateTaskIds | StateAgentIds
    | IdentityBinding | SentAtMismatch | StateFutureTimestamp

  predicate NodeIdChar(c: char) {
    'a' <= c <= 'z' || 'A' <= c <= 'Z' || '0' <= c <= '9' || c in {'.', '_', '-'}
  }

  predicate ValidNodeId(id: string) {
    1 <= |id| <= 64 && forall i :: 0 <= i < |id| ==> NodeIdChar(id[i])
  }

  predicate ValidSessionId(id: string) {
    |id| == 32 && forall i :: 0 <= i < |id| ==> '0' <= id[i] <= '9' || 'a' <= id[i] <= 'f'
  }

  /** No id is empty and none occurs twice. */
  ghost predicate CleanIds<T(!new)>(ids: seq<T>, empty: T) {
    empty !in ids && Distinct(ids)
  }

  function TaskIdSeq(tasks: seq<PublicTask>): (ids: seq<TaskId>)
    ensures |ids| == |tasks|
  {
    seq(|tasks|, i requires 0 <= i < |tasks| => tasks[i].id)
  }

  function ValidateEnvelope(snap: Envelope): Option<Rejection> {
    if snap.schemaVersion != 1 then Some(EnvelopeSchemaVersion)
    else if snap.stateKind != "nodeSnapshot" then Some(EnvelopeStateKind)
    else if !ValidNodeId(snap.nodeId) then Some(EnvelopeNodeId)
    else if !ValidSessionId(snap.session) then Some(EnvelopeSessionId)
    else if snap.sequence < 1 then Some(EnvelopeSequence)
    else if snap.sentAt == 0 then Some(EnvelopeSentAt)
    else None
  }

  ghost function ValidateNested(snap: Envelope, now: Time): Option<Rejection> {
    var pub := snap.state;
    if pub.schemaVersion != 1 then Some(StateSchemaVersion)
    else if pub.stateKind != "public" then Some(StateStateKind)
    else if !ValidNodeId(pub.hostId) then Some(StateHostId)
    else if pub.generatedAt == 0 then Some(StateGeneratedAt)
    else if !CleanIds(TaskIdSeq(pub.tasks), EmptyId) then Some(StateTaskIds)
    else if !CleanIds(pub.agents, "") then Some(StateAgentIds)
    else if pub.hostId != snap.nodeId then Some(IdentityBinding)
    else if snap.sentAt != pub.generatedAt then Some(SentAtMismatch)
    else if pub.generatedAt > now + FUTURE_TOLERANCE then Some(StateFutureTimestamp)
    else None
  }

  // ---------- what passes, and what a rejection says ----------

  ghost predicate NoneTwice<T(!new)>(ids: seq<T>, empty: T) {
    (forall i :: 0 <= i < |ids| ==> ids[i] != empty) && (forall i, j :: 0 <= i < j < |ids| ==> ids[i] != ids[j])
  }

  /** The nested state is the node's own, stamped like its envelope, not from the future, and names nothing twice. */
  ghost predicate Passes(snap: Envelope, now: Time) {
    var pub := snap.state;
    && pub.schemaVersion == 1 && pub.stateKind == "public"
    && pub.hostId == snap.nodeId && ValidNodeId(snap.nodeId)
    && pub.generatedAt == snap.sentAt != 0 && pub.generatedAt - now <= 2 * MINUTE
    && NoneTwice(TaskIdSeq(pub.tasks), EmptyId) && NoneTwice(pub.agents, "")
  }

  ghost predicate RejectedFor(why: Rejection, snap: Envelope, now: Time) {
    var pub := snap.state;
    match why
    case StateSchemaVersion => pub.schemaVersion != 1
    case StateStateKind => pub.stateKind != "public"
    case StateHostId => !ValidNodeId(pub.hostId)
    case StateGeneratedAt => pub.generatedAt == 0
    case StateTaskIds => !NoneTwice(TaskIdSeq(pub.tasks), EmptyId)
    case StateAgentIds => !NoneTwice(pub.agents, "")
    case IdentityBinding => pub.hostId != snap.nodeId
    case SentAtMismatch => snap.sentAt != pub.generatedAt
    case StateFutureTimestamp => pub.generatedAt - now > 2 * MINUTE
    case _ => false
  }

  lemma NestedMeans(snap: Envelope, now: Time)
    ensures ValidateNested(snap, now).None? <==> Passes(snap, now)
    ensures ValidateNested(snap, now).Some? ==> RejectedFor(ValidateNested(snap, now).value, snap, now)
  {
    var ids, agents := TaskIdSeq(snap.state.tasks), snap.state.agents;
    assert CleanIds(ids, EmptyId) <==> NoneTwice(ids, EmptyId);
    assert CleanIds(agents, "") <==> NoneTwice(agents, "");
  }

  /** The envelope itself: version and kind, ids of the right shape, a sequence from 1 on and an instant. */
  lemma EnvelopeMeans(snap: Envelope)
    ensures ValidateEnvelope(snap).None?
            <==> && snap.schemaVersion == 1 && snap.stateKind == "nodeSnapshot" && ValidNodeId(snap.nodeId)
                 && ValidSessionId(snap.session) && snap.sequence >= 1 && snap.sentAt != 0
  {
  }

  /** One pass with a set of the ids seen so far. */
  method DuplicateOrEmpty<T(==, !new)>(ids: seq<T>, empty: T) returns (bad: bool)
    ensures bad <==> !CleanIds(ids, empty)
  {
    var seen: set<T> := {};
    for i := 0 to |ids|
      invariant seen == set k | 0 <= k < i :: ids[k]
      invariant empty !in seen
      invariant forall a, b :: 0 <= a < b < i ==> ids[a] != ids[b]
    {
      if ids[i] == empty {
        return true;
      }
      if ids[i] in seen {
        var k :| 0 <= k < i && ids[k] == ids[i];
        return true;
      }
      seen := seen + {ids[i]};
    }
    return false;
  }

  method ValidateNestedState(snap: Envelope, now: Time) returns (r: Option<Rejection>)
    ensures r == ValidateNested(snap, now)
    ensures r.None? <==> Passes(snap, now)
    ensures r.Some? ==> RejectedFor(r.value, snap, now)
  {
    NestedMeans(snap, now);
    var pub := snap.state;
    if pub.schemaVersion != 1 {
      return Some(StateSchemaVersion);
    }
    if pub.stateKind != "public" {
      return Some(StateStateKind);
    }
    if !ValidNodeId(pub.hostId) {
      return Some(StateHostId);
    }
    if pub.generatedAt == 0 {
      return Some(StateGeneratedAt);
    }
    var badTasks := DuplicateOrEmpty(TaskIdSeq(pub.tasks), EmptyId);
    if badTasks {
      return Some(StateTaskIds);
    }
    var badAgents := DuplicateOrEmpty(pub.agents, "");
    if badAgents {
      return Some(StateAgentIds);
    }
    if pub.hostId != snap.nodeId {
      return Some(IdentityBinding);
    }
    if snap.sentAt != pub.generatedAt {
      return Some(SentAtMismatch);
    }
    if pub.generatedAt > now + FUTURE_TOLERANCE {
      return Some(StateFutureTimestamp);
    }
    return None;
  }
}
