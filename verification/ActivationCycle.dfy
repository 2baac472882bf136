/** One scheduled activation: requests and retries around one slot, inside a one-minute window. */
module ActivationCycle {
  import opened Basics

  const CONFIRMATION_WINDOW: Time := 60 * SECOND
  const RETRY_INTERVAL: Time := 30 * SECOND
  const RESET_MARGIN: Time := 500 * MILLISECOND
  const LATE_MARGIN: Time := 200 * MILLISECOND

  /** The smallest distance a future reset time puts between two requests. */
  const RESET_GAP: Time := RESET_MARGIN + 1

  const MOST_REQUESTS := 121

  datatype Outcome = Verified | FiveHourQuota | TransientLimited | OtherQuota | Failed

  datatype Result = Result(success: bool, outcome: Outcome, providerCode: string, resetAt: Option<Time>)

  /** What the world does around one request: its result and duration, and how the wait after it ends. */
  datatype Answer = Answer(result: Result, took: nat, cancelled: bool, oversleep: nat)

  predicate Retryable(r: Result, deadline: Time, now: Time) {
    now < deadline &&
    match r.outcome
    case FiveHourQuota => true
    case TransientLimited => true
    case OtherQuota => r.providerCode == "1308" && r.resetAt.Some? && r.resetAt.value <= deadline
    case _ => false
  }

  /** When request number `attempt` goes out. */
  function NextRetry(r: Result, anchor: Time, now: Time, attempt: nat): Time {
    var target := anchor + Max(1, attempt - 1) * RETRY_INTERVAL;
    if r.resetAt.Some? && r.resetAt.value > now then r.resetAt.value + RESET_MARGIN
    else if target > now then target
    else now + LATE_MARGIN
  }

  /** A request as sent and answered. */
  datatype Sent = Sent(at: Time, done: Time, result: Result)

  predicate SawFiveHour(log: seq<Sent>) {
    exists s :: s in log && s.result.outcome == FiveHourQuota
  }

  /** Whether the requests made so far are followed by another one. */
  predicate GoesOn(anchor: Time, log: seq<Sent>, cancelled: bool)
    requires log != []
  {
    var s := log[|log| - 1];
    var deadline := anchor + CONFIRMATION_WINDOW;
    && !s.result.success
    && Retryable(s.result, deadline, s.done)
    && (NextRetry(s.result, anchor, s.done, |log| + 1) <= deadline || SawFiveHour(log))
    && !cancelled
  }

  ghost predicate Answered(s: Sent, a: Answer) {
    s.done == s.at + a.took && s.result == a.result
  }

  /** The log is a legal beginning of a cycle: every request but the first has its reason and its time. */
  ghost predicate Underway(anchor: Time, started: Time, world: nat -> Answer, log: seq<Sent>) {
    && log != [] && log[0].at == started
    && (forall i {:trigger log[i]} :: 0 <= i < |log| ==> Answered(log[i], world(i)))
    && (forall i :: 0 < i < |log| ==> FollowsOn(anchor, world, log, i))
  }

  /** Request number `i` has its reason in the ones before it, and goes out at its time. */
  ghost predicate FollowsOn(anchor: Time, world: nat -> Answer, log: seq<Sent>, i: nat)
    requires 0 < i < |log|
  {
    && GoesOn(anchor, log[..i], world(i - 1).cancelled)
    && log[i].at == NextRetry(log[i - 1].result, anchor, log[i - 1].done, i + 1) + world(i - 1).oversleep
  }

  /** A whole cycle: it begins legally and does not go on. */
  ghost predicate IsCycle(anchor: Time, started: Time, world: nat -> Answer, log: seq<Sent>) {
    Underway(anchor, started, world, log) && !GoesOn(anchor, log, world(|log| - 1).cancelled)
  }

  // ---------- how far apart requests are ----------

  /** What one more request costs, in terms of the instant the last answer came. */
  lemma Spacing(anchor: Time, started: Time, world: nat -> Answer, log: seq<Sent>, i: nat)
    requires Underway(anchor, started, world, log) && 0 < i < |log|
    ensures log[i - 1].done < anchor + CONFIRMATION_WINDOW
    ensures log[i].done >= log[i - 1].done + RESET_GAP
         || (i == 1 && log[i].done >= anchor + RETRY_INTERVAL)
         || log[i].done >= anchor + CONFIRMATION_WINDOW
    ensures log[i - 1].result.resetAt.None? && i >= 2 ==> log[i].done >= anchor + CONFIRMATION_WINDOW
  {
    assert Answered(log[i], world(i));
    assert FollowsOn(anchor, world, log, i);
    assert log[..i][i - 1] == log[i - 1];
  }

  /** The i-th answer comes at least i gaps after the slot, until the window has closed. */
  lemma {:induction false} Progress(anchor: Time, started: Time, world: nat -> Answer, log: seq<Sent>, i: nat)
    requires anchor <= started && Underway(anchor, started, world, log) && i < |log|
    ensures log[i].done >= anchor + i * RESET_GAP || log[i].done >= anchor + CONFIRMATION_WINDOW
  {
    if i == 0 {
      assert Answered(log[0], world(0));
    } else {
      Progress(anchor, started, world, log, i - 1);
      Spacing(anchor, started, world, log, i);
    }
  }

  lemma Continued(anchor: Time, started: Time, world: nat -> Answer, log: seq<Sent>, i: nat)
    requires Underway(anchor, started, world, log) && 0 < i < |log|
    ensures GoesOn(anchor, log[..i], world(i - 1).cancelled)
    ensures !log[i - 1].result.success && log[i - 1].done < anchor + CONFIRMATION_WINDOW
  {
    assert FollowsOn(anchor, world, log, i);
    assert log[..i][i - 1] == log[i - 1];
  }

  /** No cycle sends more than 121 requests, whatever the provider answers. */
  lemma Bounded(anchor: Time, started: Time, world: nat -> Answer, log: seq<Sent>)
    requires anchor <= started && Underway(anchor, started, world, log)
    ensures |log| <= MOST_REQUESTS
  {
    if |log| > MOST_REQUESTS {
      Progress(anchor, started, world, log, MOST_REQUESTS - 1);
      Spacing(anchor, started, world, log, MOST_REQUESTS);
    }
  }

  /** Without reset times three requests are the most. */
  lemma BoundedWithoutResets(anchor: Time, started: Time, world: nat -> Answer, log: seq<Sent>)
    requires Underway(anchor, started, world, log)
    requires forall i {:trigger log[i]} :: 0 <= i < |log| ==> log[i].result.resetAt.None?
    ensures |log| <= 3
  {
    if |log| > 3 {
      Spacing(anchor, started, world, log, 2);
      Spacing(anchor, started, world, log, 3);
    }
  }

  /** A verified success is the last request of its cycle. */
  lemma NothingAfterSuccess(anchor: Time, started: Time, world: nat -> Answer, log: seq<Sent>, i: nat)
    requires Underway(anchor, started, world, log) && i < |log| && log[i].result.success
    ensures i == |log| - 1
  {
    if i + 1 < |log| {
      Continued(anchor, started, world, log, i + 1);
    }
  }

  /** After the window has closed no further request is sent. */
  lemma NothingAfterWindow(anchor: Time, started: Time, world: nat -> Answer, log: seq<Sent>, i: nat)
    requires Underway(anchor, started, world, log) && i < |log| && log[i].done >= anchor + CONFIRMATION_WINDOW
    ensures i == |log| - 1
  {
    if i + 1 < |log| {
      Continued(anchor, started, world, log, i + 1);
    }
  }

  /** What happens is determined by the answers: two cycles in the same world send the same requests. */
  lemma {:induction false} Determined(anchor: Time, started: Time, world: nat -> Answer, a: seq<Sent>, b: seq<Sent>, n: nat)
    requires Underway(anchor, started, world, a) && Underway(anchor, started, world, b) && n <= |a| && n <= |b|
    ensures a[..n] == b[..n] && (n == |a| ==> b[..n] == a)
  {
    if n > 0 {
      Determined(anchor, started, world, a, b, n - 1);
      var i := n - 1;
      assert Answered(a[i], world(i)) && Answered(b[i], world(i));
      if i > 0 {
        assert FollowsOn(anchor, world, a, i) && FollowsOn(anchor, world, b, i);
        assert a[..i] == b[..i];
        assert a[i - 1] == a[..i][i - 1] && b[i - 1] == b[..i][i - 1];
      }
      assert a[..n] == a[..i] + [a[i]] && b[..n] == b[..i] + [b[i]];
    }
  }

  lemma NotLonger(anchor: Time, started: Time, world: nat -> Answer, a: seq<Sent>, b: seq<Sent>)
    requires IsCycle(anchor, started, world, a) && IsCycle(anchor, started, world, b)
    ensures |b| <= |a|
  {
    if |a| < |b| {
      Continued(anchor, started, world, b, |a|);
      Determined(anchor, started, world, a, b, |a|);
    }
  }

  lemma SameCycle(anchor: Time, started: Time, world: nat -> Answer, a: seq<Sent>, b: seq<Sent>)
    requires IsCycle(anchor, started, world, a) && IsCycle(anchor, started, world, b)
    ensures a == b
  {
    NotLonger(anchor, started, world, a, b);
    NotLonger(anchor, started, world, b, a);
    Determined(anchor, started, world, a, b, |a|);
    assert b[..|b|] == b;
  }

  // ---------- when a request is followed by another, and when that one goes out ----------

  /** The provider ran into a limit that may be over within the window. */
  predicate MayPass(r: Result, anchor: Time) {
    || r.outcome == FiveHourQuota || r.outcome == TransientLimited
    || (r.outcome == OtherQuota && r.providerCode == "1308" && r.resetAt.Some? && r.resetAt.value <= anchor + 60 * SECOND)
  }

  /** Half a second after a future reset; else at the slot's next half minute, or in a fifth of a second if that is past. */
  predicate NextAt(r: Result, anchor: Time, now: Time, i: nat, at: Time) {
    if r.resetAt.Some? && r.resetAt.value > now then at == r.resetAt.value + 500 * MILLISECOND
    else if anchor + (i + 1) * (30 * SECOND) > now then at == anchor + (i + 1) * (30 * SECOND)
    else at == now + 200 * MILLISECOND
  }

  ghost predicate LimitSeen(log: seq<Sent>, i: nat)
    requires i < |log|
  {
    exists j :: 0 <= j <= i && log[j].result.outcome == FiveHourQuota
  }

  /** Why and when request `i` is followed by another, given that the next one would go out at `at`. */
  ghost predicate IsFollowed(anchor: Time, world: nat -> Answer, log: seq<Sent>, i: nat, at: Time)
    requires i < |log|
  {
    && !log[i].result.success && log[i].done < anchor + 60 * SECOND && MayPass(log[i].result, anchor)
    && (at <= anchor + 60 * SECOND || LimitSeen(log, i))
    && !world(i).cancelled
  }

  lemma SawSoFar(log: seq<Sent>, i: nat)
    requires i < |log|
    ensures SawFiveHour(log[..i + 1]) <==> LimitSeen(log, i)
  {
    if LimitSeen(log, i) {
      var j :| 0 <= j <= i && log[j].result.outcome == FiveHourQuota;
      assert log[..i + 1][j] == log[j];
    }
  }

  lemma GoesOnIff(anchor: Time, world: nat -> Answer, log: seq<Sent>, i: nat, at: Time)
    requires i < |log| && NextAt(log[i].result, anchor, log[i].done, i, at)
    ensures GoesOn(anchor, log[..i + 1], world(i).cancelled) <==> IsFollowed(anchor, world, log, i, at)
    ensures NextRetry(log[i].result, anchor, log[i].done, i + 2) == at
  {
    SawSoFar(log, i);
    assert log[..i + 1][i] == log[i];
  }

  /**
   In a cycle a request is followed by another exactly when it failed inside the window on a limit that may pass, the
   next one still falls into the window or a five-hour limit was seen, and nobody cancelled; and then it goes out then.
   */
  lemma FollowedIff(anchor: Time, started: Time, world: nat -> Answer, log: seq<Sent>, i: nat, at: Time)
    requires IsCycle(anchor, started, world, log) && i < |log| && NextAt(log[i].result, anchor, log[i].done, i, at)
    ensures i + 1 < |log| <==> IsFollowed(anchor, world, log, i, at)
    ensures i + 1 < |log| ==> log[i + 1].at == at + world(i).oversleep
  {
    GoesOnIff(anchor, world, log, i, at);
    if i + 1 < |log| {
      assert FollowsOn(anchor, world, log, i + 1);
    } else {
      assert log[..i + 1] == log;
    }
  }

  // ---------- the bound is met ----------

  /** A provider that always names a reset one nanosecond ahead. */
  function Teaser(anchor: Time): nat -> Answer {
    (i: nat) => Answer(Teased(anchor, i), 0, false, 0)
  }

  function Teased(anchor: Time, i: nat): Result {
    Result(false, FiveHourQuota, "", Some(anchor + i * RESET_GAP + 1))
  }

  function TeasedLog(anchor: Time, n: nat): seq<Sent> {
    seq(n, i requires 0 <= i < n => Sent(anchor + i * RESET_GAP, anchor + i * RESET_GAP, Teased(anchor, i)))
  }

  /** Against that provider the cycle really sends 121 requests. */
  lemma BoundIsMet(anchor: Time)
    ensures IsCycle(anchor, anchor, Teaser(anchor), TeasedLog(anchor, MOST_REQUESTS))
    ensures |TeasedLog(anchor, MOST_REQUESTS)| == MOST_REQUESTS
  {
    var log := TeasedLog(anchor, MOST_REQUESTS);
    forall i | 0 < i <= |log| ensures GoesOn(anchor, log[..i], false) <==> i < |log| {
      var s := log[i - 1];
      assert s == log[..i][i - 1] && s in log[..i] && s.result.outcome == FiveHourQuota;
      assert s.done == anchor + (i - 1) * RESET_GAP;
    }
    assert log[..|log|] == log;
    forall i | 0 < i < |log| ensures log[i].at == NextRetry(log[i - 1].result, anchor, log[i - 1].done, i + 1) {
      assert log[i - 1].done == anchor + (i - 1) * RESET_GAP && log[i].at == anchor + i * RESET_GAP;
    }
    var world := Teaser(anchor);
    forall i | 0 < i < |log| ensures FollowsOn(anchor, world, log, i) {
      assert world(i - 1) == Answer(Teased(anchor, i - 1), 0, false, 0);
    }
    forall i {:trigger log[i]} | 0 <= i < |log| ensures Answered(log[i], world(i)) {
      assert world(i) == Answer(Teased(anchor, i), 0, false, 0);
    }
    assert log[0].at == anchor;
  }

  /**
   The retry loop. `world` answers each request; the loop needs no further bound, and its log is the one
   cycle that world allows.
   */
  method RunScheduledCycle(anchor: Time, started: Time, world: nat -> Answer) returns (log: seq<Sent>)
    requires anchor <= started
    ensures IsCycle(anchor, started, world, log)
  {
    var deadline := anchor + CONFIRMATION_WINDOW;
    var sawFiveHourQuota := false;
    var attempt := 1;
    var clock := started;
    log := [];
    while true
      invariant attempt == |log| + 1 && sawFiveHourQuota == SawFiveHour(log)
      invariant log == [] ==> clock == started
      invariant log != [] ==> Underway(anchor, started, world, log)
      invariant log != [] ==> GoesOn(anchor, log, world(|log| - 1).cancelled)
      invariant log != [] ==> clock == NextRetry(log[|log| - 1].result, anchor, log[|log| - 1].done, |log| + 1)
                                       + world(|log| - 1).oversleep
      decreases MOST_REQUESTS - |log|
    {
      var answer := world(|log|);
      var now := clock + answer.took;
      var result := answer.result;
      ghost var before := log;
      log := log + [Sent(clock, now, result)];
      Extend(anchor, started, world, before, log);
      Bounded(anchor, started, world, log);
      if result.outcome == FiveHourQuota {
        sawFiveHourQuota := true;
      }
      SawMore(before, log);
      if result.success {
        return;
      } else if !Retryable(result, deadline, now) {
        return;
      }
      attempt := attempt + 1;
      var next := NextRetry(result, anchor, now, attempt);
      if next > deadline && !sawFiveHourQuota {
        return;
      }
      if answer.cancelled {
        return;
      }
      clock := Max(now, next) + answer.oversleep;
    }
  }

  lemma SawMore(before: seq<Sent>, log: seq<Sent>)
    requires log != [] && before == log[..|log| - 1]
    ensures SawFiveHour(log) <==> SawFiveHour(before) || log[|log| - 1].result.outcome == FiveHourQuota
  {
    assert log == before + [log[|log| - 1]];
  }

  /** One more request is legal when the ones before it go on to it. */
  lemma Extend(anchor: Time, started: Time, world: nat -> Answer, before: seq<Sent>, log: seq<Sent>)
    requires log != [] && before == log[..|log| - 1]
    requires Answered(log[|log| - 1], world(|log| - 1))
    requires before == [] ==> log[0].at == started
    requires before != [] ==> Underway(anchor, started, world, before) && FollowsOn(anchor, world, log, |before|)
    ensures Underway(anchor, started, world, log)
  {
    forall i | 0 < i < |log| ensures FollowsOn(anchor, world, log, i) {
      if i < |before| {
        EarlierFollows(anchor, world, before, log, i);
      }
    }
    forall i | 0 <= i < |log| ensures Answered(log[i], world(i)) {
      if i < |before| {
        assert log[i] == before[i];
      }
    }
  }

  lemma EarlierFollows(anchor: Time, world: nat -> Answer, before: seq<Sent>, log: seq<Sent>, i: nat)
    requires 0 < i < |before| <= |log| && before == log[..|before|] && FollowsOn(anchor, world, before, i)
    ensures FollowsOn(anchor, world, log, i)
  {
    assert log[..i] == before[..i];
    assert log[i] == before[i] && log[i - 1] == before[i - 1];
  }
}
