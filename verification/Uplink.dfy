/**
 The node's one-in-flight uplink scheduler. One loop owns all sending: heartbeats, change-driven sends,
 exact retries under backoff, slow holds and session resynchronisation.
 */
module Uplink {
  import opened Basics
  import opened PublicModel

  const SLOW_RETRY: Time := 30 * SECOND
  const ADMISSION_WINDOW: Time := 30 * SECOND
  const BACKOFF: seq<Time> := [1 * SECOND, 2 * SECOND, 4 * SECOND, 8 * SECOND, 15 * SECOND]

  datatype Reply = Ok | Transient | Auth | Payload | Conflict

  /** `sequence` is the last ISSUED one; `accepted` is the content digest the hub last acknowledged. */
  datatype Sched = Sched(session: string, sequence: nat, pending: Option<Envelope>, accepted: Option<PublicState>,
                         transients: nat, retryAt: Time, eligibleAt: Time,
                         conflictMode: bool, resyncOwed: bool, newerStateOwed: bool)

  function NewSession(session: string): Sched {
    Sched(session, 0, None, None, 0, 0, 0, false, false, false)
  }

  /** What one send cycle reads from the outside: three clock readings, the public state and the reply. */
  datatype Cycle = Cycle(checkedAt: Time, builtAt: Time, repliedAt: Time, pub: PublicState, reply: Reply)

  datatype Wake = Changed | Ticked

  /** What one turn of the loop reads from the outside; `entropy` is None when no session id can be made. */
  datatype Turn = Turn(wake: Wake, topAt: Time, owedAt: Time, wakeAt: Time, resyncAt: Time,
                       owedView: PublicState, wakeView: PublicState, entropy: Option<string>, cycle: Cycle)

  datatype Outcome = Outcome(next: Sched, sent: Option<Envelope>)

  /** The content digest leaves the projection instant out. */
  function Content(pub: PublicState): PublicState {
    pub.(generatedAt := 0)
  }

  function Build(nodeId: string, session: string, sequence: nat, pub: PublicState, at: Time): Option<Envelope> {
    if pub.hostId != nodeId then None
    else Some(Envelope(1, "nodeSnapshot", nodeId, session, sequence, at, pub.(generatedAt := at)))
  }

  predicate PendingFresh(env: Envelope, now: Time) {
    env.sentAt + ADMISSION_WINDOW > now
  }

  function BackoffDelay(transients: nat): Time {
    var n := if transients < 1 then 1 else if transients > |BACKOFF| then |BACKOFF| else transients;
    BACKOFF[n - 1]
  }

  function DropExpired(st: Sched, now: Time): Sched {
    if st.pending.Some? && !PendingFresh(st.pending.value, now) then st.(pending := None) else st
  }

  /** Choose the envelope to send: the retained one, or a new one under the next sequence. */
  function Prepare(nodeId: string, st: Sched, c: Cycle): Sched {
    var kept := DropExpired(st, c.checkedAt);
    if kept.pending.Some? then kept
    else
      match Build(nodeId, kept.session, kept.sequence + 1, c.pub, c.builtAt)
      case None => kept
      case Some(env) => kept.(sequence := env.sequence, pending := Some(env))
  }

  function Settle(st: Sched, env: Envelope, reply: Reply, at: Time): Sched {
    match reply
    case Ok =>
      st.(accepted := Some(Content(env.state)), pending := None, transients := 0,
          conflictMode := false, resyncOwed := false, eligibleAt := 0)
    case Transient =>
      st.(transients := st.transients + 1, retryAt := at + BackoffDelay(st.transients + 1))
    case Auth =>
      st.(pending := None, transients := 0, eligibleAt := at + SLOW_RETRY)
    case Payload =>
      st.(pending := None, transients := 0)
    case Conflict =>
      var dropped := st.(pending := None, transients := 0);
      if st.conflictMode then dropped.(eligibleAt := at + SLOW_RETRY)
      else dropped.(conflictMode := true, resyncOwed := true)
  }

  function Attempted(nodeId: string, st: Sched, c: Cycle): Outcome {
    var ready := Prepare(nodeId, st, c);
    match ready.pending
    case None => Outcome(ready, None)
    case Some(env) => Outcome(Settle(ready, env, c.reply, c.repliedAt), Some(env))
  }

  function Rekeyed(st: Sched, session: string): Sched {
    st.(session := session, sequence := 0)
  }

  function Held(st: Sched, at: Time): Sched {
    st.(eligibleAt := at + SLOW_RETRY)
  }

  predicate NewerThanAccepted(st: Sched, pub: PublicState) {
    st.accepted.None? || Content(pub) != st.accepted.value
  }

  /** A turn either stays quiet or runs one send cycle from `base`. */
  datatype Decision = Quiet(next: Sched) | Send(base: Sched)

  function OnWake(st: Sched, t: Turn): Decision {
    if st.pending.Some? then
      var owed := if t.wake == Changed then st.(newerStateOwed := true) else st;
      if t.wakeAt >= st.retryAt then Send(owed) else Quiet(owed)
    else if t.wakeAt < st.eligibleAt then Quiet(st)
    else
      match t.wake
      case Changed => if NewerThanAccepted(st, t.wakeView) then Send(st) else Quiet(st)
      case Ticked =>
        if !st.conflictMode then Send(st)
        else
          match t.entropy
          case None => Quiet(Held(st, t.resyncAt))
          case Some(id) => Send(Rekeyed(st, id))
  }

  /** One turn of the loop, from its two guards at the top to the wake-up it serves. */
  function Decide(st: Sched, t: Turn): Decision {
    if st.resyncOwed && t.topAt >= st.eligibleAt then
      match t.entropy
      case None => Quiet(Held(st, t.resyncAt))
      case Some(id) => Send(Rekeyed(st, id).(resyncOwed := false))
    else if st.pending.None? && st.newerStateOwed && t.owedAt >= st.eligibleAt then
      var settled := st.(newerStateOwed := false);
      if NewerThanAccepted(settled, t.owedView) then Send(settled) else OnWake(settled, t)
    else OnWake(st, t)
  }

  function Decided(nodeId: string, d: Decision, c: Cycle): Outcome {
    match d
    case Quiet(next) => Outcome(next, None)
    case Send(base) => Attempted(nodeId, base, c)
  }

  function LoopTurn(nodeId: string, st: Sched, t: Turn): Outcome {
    Decided(nodeId, Decide(st, t), t.cycle)
  }

  // ---------- when a turn sends, what, and what the reply comes to ----------

  /** The state has something to say that the hub has not acknowledged. */
  predicate Differs(st: Sched, pub: PublicState) {
    st.accepted.None? || pub.(generatedAt := 0) != st.accepted.value
  }

  predicate ResyncDue(st: Sched, t: Turn) {
    st.resyncOwed && t.topAt >= st.eligibleAt
  }

  predicate OwedDue(st: Sched, t: Turn) {
    st.pending.None? && st.newerStateOwed && t.owedAt >= st.eligibleAt && Differs(st, t.owedView)
  }

  /** Something is to be sent in this turn. */
  predicate Due(st: Sched, t: Turn) {
    if ResyncDue(st, t) then t.entropy.Some?
    else
      || OwedDue(st, t)
      || (st.pending.Some? && t.wakeAt >= st.retryAt)
      || (st.pending.None? && t.wakeAt >= st.eligibleAt && t.wake == Changed && Differs(st, t.wakeView))
      || (st.pending.None? && t.wakeAt >= st.eligibleAt && t.wake == Ticked && (st.conflictMode ==> t.entropy.Some?))
  }

  /** The envelope sent last is still to be delivered, and young enough. */
  predicate Retains(st: Sched, t: Turn) {
    st.pending.Some? && st.pending.value.sentAt + 30 * SECOND > t.cycle.checkedAt
  }

  /** The turn, if it sends, sends under a new session. */
  predicate Resyncs(st: Sched, t: Turn) {
    ResyncDue(st, t) || (st.pending.None? && !OwedDue(st, t) && t.wake == Ticked && st.conflictMode)
  }

  /** A retained envelope goes out as it is; a new one is the node's state now, under the next sequence. */
  predicate Sends(nodeId: string, st: Sched, t: Turn, env: Envelope) {
    if Retains(st, t) then env == st.pending.value
    else
      && env.nodeId == nodeId && env.sentAt == t.cycle.builtAt && env.state == t.cycle.pub.(generatedAt := t.cycle.builtAt)
      && env.schemaVersion == 1 && env.stateKind == "nodeSnapshot"
      && (if Resyncs(st, t) then t.entropy == Some(env.session) && env.sequence == 1
          else env.session == st.session && env.sequence == st.sequence + 1)
  }

  /** How long to wait after so many transient failures in a row. */
  predicate Waits(failures: nat, delay: Time) {
    && (failures == 1 ==> delay == 1 * SECOND) && (failures == 2 ==> delay == 2 * SECOND)
    && (failures == 3 ==> delay == 4 * SECOND) && (failures == 4 ==> delay == 8 * SECOND)
    && (failures >= 5 ==> delay == 15 * SECOND)
  }

  predicate ReplyTaken(st: Sched, next: Sched, env: Envelope, c: Cycle) {
    && (c.reply == Ok ==>
          && next.pending.None? && next.accepted == Some(env.state.(generatedAt := 0)) && next.transients == 0
          && !next.conflictMode && !next.resyncOwed && next.eligibleAt == 0)
    && (c.reply == Transient ==>
          && next.pending == Some(env) && next.transients == st.transients + 1
          && Waits(next.transients, next.retryAt - c.repliedAt))
    && (c.reply in {Auth, Payload, Conflict} ==> next.pending.None? && next.transients == 0)
    && (c.reply == Auth || (c.reply == Conflict && st.conflictMode) ==> next.eligibleAt == c.repliedAt + 30 * SECOND)
    && (c.reply == Conflict ==> next.conflictMode && (!st.conflictMode ==> next.resyncOwed))
    && (c.reply != Ok ==> next.accepted == st.accepted)
  }

  lemma DueDecides(st: Sched, t: Turn)
    ensures Decide(st, t).Send? <==> Due(st, t)
    ensures Decide(st, t).Send? ==>
              var base := Decide(st, t).base;
              && base == st.(session := base.session, sequence := base.sequence, resyncOwed := base.resyncOwed,
                             newerStateOwed := base.newerStateOwed)
              && (if Resyncs(st, t) then t.entropy == Some(base.session) && base.sequence == 0
                  else base.session == st.session && base.sequence == st.sequence)
  {
  }

  lemma BackoffWaits(failures: nat)
    ensures Waits(failures, BackoffDelay(failures))
  {
  }

  lemma SettleTakes(st: Sched, env: Envelope, c: Cycle)
    requires st.pending == Some(env)
    ensures ReplyTaken(st, Settle(st, env, c.reply, c.repliedAt), env, c)
  {
    BackoffWaits(st.transients + 1);
  }

  lemma AttemptSends(nodeId: string, base: Sched, c: Cycle)
    ensures var o, kept := Attempted(nodeId, base, c), base.pending.Some? && base.pending.value.sentAt + 30 * SECOND > c.checkedAt;
            && (o.sent.Some? <==> kept || c.pub.hostId == nodeId)
            && (o.sent.Some? ==>
                  && ReplyTaken(base, o.next, o.sent.value, c)
                  && o.sent.value == if kept then base.pending.value
                                     else Envelope(1, "nodeSnapshot", nodeId, base.session, base.sequence + 1, c.builtAt,
                                                   c.pub.(generatedAt := c.builtAt)))
  {
    var ready := Prepare(nodeId, base, c);
    if ready.pending.Some? {
      SettleTakes(ready, ready.pending.value, c);
    }
  }

  /** A turn sends exactly when something is due and an envelope is at hand or can be built. */
  lemma SendsIff(nodeId: string, st: Sched, t: Turn)
    ensures var o := LoopTurn(nodeId, st, t);
            && (o.sent.Some? <==> Due(st, t) && (Retains(st, t) || t.cycle.pub.hostId == nodeId))
            && (o.sent.Some? ==> Sends(nodeId, st, t, o.sent.value) && ReplyTaken(st, o.next, o.sent.value, t.cycle))
  {
    DueDecides(st, t);
    if Decide(st, t).Send? {
      AttemptSends(nodeId, Decide(st, t).base, t.cycle);
    }
  }

  lemma AttemptKeepsOwed(nodeId: string, base: Sched, c: Cycle)
    ensures Attempted(nodeId, base, c).next.newerStateOwed == base.newerStateOwed
  {
  }

  lemma DecideOwes(st: Sched, t: Turn)
    requires !ResyncDue(st, t)
    ensures var owed := (st.pending.Some? && t.wake == Changed)
                        || (st.newerStateOwed && !(st.pending.None? && t.owedAt >= st.eligibleAt));
            match Decide(st, t)
            case Quiet(next) => next.newerStateOwed == owed
            case Send(base) => base.newerStateOwed == owed
  {
  }

  /** A change heard while an envelope is under way is remembered as owed, until it is looked at again. */
  lemma ChangeIsRemembered(nodeId: string, st: Sched, t: Turn)
    requires !ResyncDue(st, t)
    ensures LoopTurn(nodeId, st, t).next.newerStateOwed
            <==> (st.pending.Some? && t.wake == Changed)
                 || (st.newerStateOwed && !(st.pending.None? && t.owedAt >= st.eligibleAt))
  {
    DecideOwes(st, t);
    if Decide(st, t).Send? {
      AttemptKeepsOwed(nodeId, Decide(st, t).base, t.cycle);
    }
  }

  /** When a new session is due and no id can be made, the node holds for 30 seconds and asks again. */
  lemma NoIdHolds(nodeId: string, st: Sched, t: Turn)
    requires ResyncDue(st, t) && t.entropy.None?
    ensures var next := LoopTurn(nodeId, st, t).next; next == st.(eligibleAt := t.resyncAt + 30 * SECOND)
  {
  }

  class Scheduler {
    const nodeId: string
    var session: string
    var sequence: nat
    var pending: Option<Envelope>
    var accepted: Option<PublicState>
    var transients: nat
    var retryAt: Time
    var eligibleAt: Time
    var conflictMode: bool
    var resyncOwed: bool
    var newerStateOwed: bool

    function View(): Sched
      reads this
    {
      Sched(session, sequence, pending, accepted, transients, retryAt, eligibleAt,
            conflictMode, resyncOwed, newerStateOwed)
    }

    constructor (nodeId: string, session: string)
      ensures this.nodeId == nodeId && View() == NewSession(session)
    {
      this.nodeId := nodeId;
      this.session, sequence, pending, accepted := session, 0, None, None;
      transients, retryAt, eligibleAt := 0, 0, 0;
      conflictMode, resyncOwed, newerStateOwed := false, false, false;
    }

    /** One send cycle: retry the retained envelope or issue a new one, then apply the reply. */
    method Attempt(c: Cycle) returns (sent: Option<Envelope>)
      modifies this
      ensures Outcome(View(), sent) == Attempted(nodeId, old(View()), c)
    {
      if pending.Some? && !PendingFresh(pending.value, c.checkedAt) {
        pending := None;
      }
      if pending.None? {
        var built := Build(nodeId, session, sequence + 1, c.pub, c.builtAt);
        if built.None? {
          return None;
        }
        sequence := built.value.sequence;
        pending := built;
      }
      var env := pending.value;
      sent := Some(env);
      ApplyReply(env, c.reply, c.repliedAt);
    }

    method ApplyReply(env: Envelope, reply: Reply, at: Time)
      modifies this
      ensures View() == Settle(old(View()), env, reply, at)
    {
      match reply
      case Ok =>
        accepted := Some(Content(env.state));
        pending := None;
        transients := 0;
        conflictMode := false;
        resyncOwed := false;
        eligibleAt := 0;
      case Transient =>
        transients := transients + 1;
        retryAt := at + BackoffDelay(transients);
      case Auth =>
        pending := None;
        transients := 0;
        eligibleAt := at + SLOW_RETRY;
      case Payload =>
        pending := None;
        transients := 0;
      case Conflict =>
        pending := None;
        transients := 0;
        if !conflictMode {
          conflictMode := true;
          resyncOwed := true;
        } else {
          eligibleAt := at + SLOW_RETRY;
        }
    }

    /** Take a new session identity, or hold when none can be generated. */
    method Resync(entropy: Option<string>, at: Time) returns (ok: bool)
      modifies this
      ensures ok == entropy.Some?
      ensures View() == if ok then Rekeyed(old(View()), entropy.value) else Held(old(View()), at)
    {
      if entropy.None? {
        eligibleAt := at + SLOW_RETRY;
        return false;
      }
      session := entropy.value;
      sequence := 0;
      return true;
    }

    /** One turn of `Run`'s loop. */
    method RunTurn(t: Turn) returns (sent: Option<Envelope>)
      modifies this
      ensures Outcome(View(), sent) == LoopTurn(nodeId, old(View()), t)
      ensures sent.Some? <==> Due(old(View()), t) && (Retains(old(View()), t) || t.cycle.pub.hostId == nodeId)
      ensures sent.Some? ==> Sends(nodeId, old(View()), t, sent.value) && ReplyTaken(old(View()), View(), sent.value, t.cycle)
    {
      SendsIff(nodeId, View(), t);
      if resyncOwed && t.topAt >= eligibleAt {
        var ok := Resync(t.entropy, t.resyncAt);
        if !ok {
          return None;
        }
        resyncOwed := false;
        sent := Attempt(t.cycle);
        return;
      }
      if pending.None? && newerStateOwed && t.owedAt >= eligibleAt {
        newerStateOwed := false;
        if accepted.None? || Content(t.owedView) != accepted.value {
          sent := Attempt(t.cycle);
          return;
        }
      }
      sent := Serve(t);
    }

    /** The wake-up that ends a turn. */
    method Serve(t: Turn) returns (sent: Option<Envelope>)
      modifies this
      ensures Outcome(View(), sent) == Decided(nodeId, OnWake(old(View()), t), t.cycle)
    {
      match t.wake
      case Changed =>
        if pending.Some? {
          newerStateOwed := true;
          if t.wakeAt >= retryAt {
            sent := Attempt(t.cycle);
            return;
          }
          return None;
        }
        if t.wakeAt < eligibleAt {
          return None;
        }
        if accepted.Some? && Content(t.wakeView) == accepted.value {
          return None;
        }
        sent := Attempt(t.cycle);
      case Ticked =>
        if pending.Some? {
          if t.wakeAt >= retryAt {
            sent := Attempt(t.cycle);
            return;
          }
          return None;
        }
        if t.wakeAt < eligibleAt {
          return None;
        }
        if conflictMode {
          var ok := Resync(t.entropy, t.resyncAt);
          if !ok {
            return None;
          }
        }
        sent := Attempt(t.cycle);
    }
  }
}
