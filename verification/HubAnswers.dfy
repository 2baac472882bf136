/**
 What the hub must do with a packet and with a dashboard read, in terms of the packets delivered so far: which ones
 were accepted, in what order, and when the host was last heard from.
 */
module HubAnswers {
  import opened Basics
  import opened PublicModel
  import opened HubStore
  import opened HubHistory

  // ---------- packets ----------

  ghost predicate SameTuple(e: Envelope, p: Envelope) {
    e.session == p.session && e.sequence == p.sequence
  }

  ghost predicate NewSession(log: seq<Envelope>, session: string) {
    forall k :: 0 <= k < |log| ==> log[k].session != session
  }

  /** The packet goes on from the newest accepted one: later in its session, or first of a session never seen, and not older. */
  ghost predicate GoesOn(log: seq<Envelope>, p: Envelope) {
    log == [] ||
    var newest := log[|log| - 1];
    if p.session == newest.session then newest.sequence < p.sequence
    else NewSession(log, p.session) && newest.state.generatedAt <= p.state.generatedAt
  }

  predicate Young(p: Envelope, at: Time) {
    at - p.state.generatedAt <= 30 * SECOND
  }

  /** What the hub answers, rule by rule; no answer is left open. */
  ghost predicate Means(v: Verdict, log: seq<Envelope>, p: Envelope, at: Time) {
    match v
    case Accepted => GoesOn(log, p) && Young(p, at)
    case StaleAdmission => GoesOn(log, p) && !Young(p, at)
    case Duplicate => log != [] && p == log[|log| - 1]
    case TupleMismatch => log != [] && SameTuple(log[|log| - 1], p) && p != log[|log| - 1]
    case LowerSequence => log != [] && p.session == log[|log| - 1].session && p.sequence < log[|log| - 1].sequence
    case RetiredSession => log != [] && p.session != log[|log| - 1].session && !NewSession(log, p.session)
    case SessionRegression =>
      log != [] && NewSession(log, p.session) && p.state.generatedAt < log[|log| - 1].state.generatedAt
    case NodeMissing => false
  }

  lemma VerdictOf(l: Logged, p: Envelope, at: Time)
    requires Faithful(l)
    ensures Means(Judge(l.rec, p, at), l.log, p, at)
  {
    RetiredIff(l, p.session);
  }

  /** After any arrivals, the hub's answer to one more packet means what it says. */
  lemma VerdictMeans(arrivals: seq<Arrival>, p: Envelope, at: Time)
    ensures Means(Judge(Replay(arrivals).rec, p, at), Replay(arrivals).log, p, at)
  {
    ReplayFaithful(arrivals);
    VerdictOf(Replay(arrivals), p, at);
  }

  lemma RetiredIff(l: Logged, session: string)
    requires Faithful(l)
    ensures l.log != [] && session != l.log[|l.log| - 1].session ==> (session in l.rec.retired <==> !NewSession(l.log, session))
  {
  }

  lemma ReplayMore(arrivals: seq<Arrival>, a: Arrival)
    ensures Replay(arrivals + [a]) == Receive(Replay(arrivals), a)
  {
    assert (arrivals + [a])[..|arrivals|] == arrivals;
  }

  /** What a packet makes of a record and its log. */
  ghost predicate Taken(before: Logged, p: Envelope, at: Time, after: Logged) {
    if GoesOn(before.log, p) && Young(p, at) then
      && after.log == before.log + [p]
      && after.rec.state == Some(p.state) && after.rec.lastReceivedAt == Some(at)
    else if before.log != [] && p == before.log[|before.log| - 1] && Young(p, at) then
      after == before.(rec := before.rec.(lastReceivedAt := Some(at)))
    else after == before
  }

  lemma PacketIsTaken(l: Logged, p: Envelope, at: Time)
    requires Faithful(l)
    ensures Taken(l, p, at, Receive(l, Arrival(p, at)))
  {
    VerdictOf(l, p, at);
  }

  /**
   After any arrivals, what one more packet does. One that goes on from the newest and is young enough becomes the
   newest, with its state and the instant of its receipt; the newest one again, as long as it is young, only refreshes
   that instant; and anything else changes nothing at all.
   */
  lemma PacketIsAnswered(arrivals: seq<Arrival>, p: Envelope, at: Time)
    ensures Taken(Replay(arrivals), p, at, Replay(arrivals + [Arrival(p, at)]))
  {
    ReplayMore(arrivals, Arrival(p, at));
    ReplayFaithful(arrivals);
    PacketIsTaken(Replay(arrivals), p, at);
  }

  /** Redelivering the newest accepted packet at most 30 s after its generation is a sign of life; later it is nothing. */
  lemma RedeliveryRefreshes(arrivals: seq<Arrival>, at: Time)
    requires Replay(arrivals).log != []
    ensures var before := Replay(arrivals);
            var p := before.log[|before.log| - 1];
            var after := Replay(arrivals + [Arrival(p, at)]);
            && after.log == before.log
            && after.rec == if at - p.state.generatedAt <= 30 * SECOND then before.rec.(lastReceivedAt := Some(at)) else before.rec
  {
    var l := Replay(arrivals);
    PacketIsAnswered(arrivals, l.log[|l.log| - 1], at);
  }

  // ---------- when a host was last heard from ----------

  /** The last arrival that was accepted, or that repeated the newest accepted packet while it was young. */
  ghost function LastHeard(arrivals: seq<Arrival>): Option<Time> {
    if arrivals == [] then None
    else
      var front, a := arrivals[..|arrivals| - 1], arrivals[|arrivals| - 1];
      var log := Replay(front).log;
      if Young(a.packet, a.at) && (GoesOn(log, a.packet) || (log != [] && a.packet == log[|log| - 1])) then Some(a.at)
      else LastHeard(front)
  }

  lemma {:induction false} HeardIsRecorded(arrivals: seq<Arrival>)
    ensures Replay(arrivals).rec.lastReceivedAt == LastHeard(arrivals)
  {
    if arrivals != [] {
      var front, a := arrivals[..|arrivals| - 1], arrivals[|arrivals| - 1];
      assert arrivals == front + [a];
      HeardIsRecorded(front);
      PacketIsAnswered(front, a.packet, a.at);
    }
  }

  // ---------- the dashboard ----------

  /** A card as shown: as it was published, but read once the operator has acknowledged it. */
  predicate ShownCard(h: Hub, host: string, t: PublicTask, shown: PublicTask) {
    shown == t.(unread := t.unread && !Acknowledged(h, host, t.id))
  }

  ghost predicate ShownState(h: Hub, host: string, published: PublicState, shown: PublicState) {
    && shown == published.(tasks := shown.tasks) && |shown.tasks| == |published.tasks|
    && forall i :: 0 <= i < |shown.tasks| ==> ShownCard(h, host, published.tasks[i], shown.tasks[i])
  }

  /** What a read at `now` must show of a host last heard from at `heard`, with `log` accepted from it. */
  ghost predicate ShownAs(h: Hub, host: string, log: seq<Envelope>, heard: Option<Time>, now: Time, v: HostView) {
    && v.host == host
    && (v.status == Online <==> heard.Some? && now - heard.value <= 5 * SECOND)
    && (v.status == Stale <==> heard.Some? && 5 * SECOND < now - heard.value <= 30 * SECOND)
    && (v.status == Offline <==> heard.None? || now - heard.value > 30 * SECOND)
    && (v.state.Some? <==> heard.Some? && now - heard.value <= 30 * MINUTE)
    && (v.isFresh <==> v.state.Some? && v.status == Online)
    && (v.state.Some? ==> log != [] && ShownState(h, host, log[|log| - 1].state, v.state.value))
  }

  /**
   After any run: a host is online for 5 s after it was last heard from, stale for 30 s, offline later; its newest
   accepted state is shown for 30 minutes, and as fresh while it is online.
   */
  lemma DashboardShows(order: seq<string>, inputs: seq<HubInput>, host: string, now: Time)
    requires host in order
    ensures host in HubRun(Boot(order), inputs).records
    ensures var h, arrivals := HubRun(Boot(order), inputs), ArrivalsFor(inputs, host);
            ShownAs(h, host, Replay(arrivals).log, LastHeard(arrivals), now, ViewHost(h, host, now))
  {
    HostIsolation(order, inputs, host);
    ReplayFaithful(ArrivalsFor(inputs, host));
    HeardIsRecorded(ArrivalsFor(inputs, host));
  }

  /** A packet that is accepted, and read at most 5 s after its receipt, is online and fresh on the dashboard. */
  lemma AcceptedIsShown(order: seq<string>, inputs: seq<HubInput>, host: string, p: Envelope, at: Time, now: Time)
    requires host in order && now - at <= 5 * SECOND && Young(p, at)
    requires GoesOn(Replay(ArrivalsFor(inputs, host)).log, p)
    ensures var h := HubRun(Boot(order), inputs + [Deliver(host, p, at)]);
            && host in h.records
            && var v := ViewHost(h, host, now);
               v.status == Online && v.isFresh && v.state.Some? && ShownState(h, host, p.state, v.state.value)
  {
    var all, last := inputs + [Deliver(host, p, at)], Deliver(host, p, at);
    assert all[..|inputs|] == inputs && all[|all| - 1] == last;
    assert ArrivalsFor(all, host) == ArrivalsFor(inputs, host) + [Arrival(p, at)];
    var arrivals := ArrivalsFor(inputs, host) + [Arrival(p, at)];
    assert arrivals[..|arrivals| - 1] == ArrivalsFor(inputs, host);
    PacketIsAnswered(ArrivalsFor(inputs, host), p, at);
    DashboardShows(order, all, host, now);
  }

  // ---------- the operator's acknowledgements ----------

  /** The card is there, finished, and leads to the target. */
  ghost predicate OnShow(h: Hub, host: string, target: string, id: TaskId) {
    && host in h.records && h.records[host].state.Some?
    && exists t :: t in h.records[host].state.value.tasks && t.id == id && t.lifecycle in {Complete, Error}
                   && t.navigation == Some(target)
  }

  /** An acknowledgement is taken exactly when it names a finished card on show by its target; no other card is touched. */
  lemma AcknowledgementIsTaken(h: Hub, host: string, target: string, id: TaskId, at: Time, other: string, x: TaskId)
    ensures var next := HubStep(h, MarkRead(host, target, id, at));
            && next.records == h.records
            && (Acknowledged(next, other, x) <==>
                  || Acknowledged(h, other, x)
                  || (other == host && x == id && host != "" && target != "" && id != EmptyId && at != 0
                      && OnShow(h, host, target, id)))
  {
    assert CanMark(h, host, target, id, at)
        <==> host != "" && target != "" && id != EmptyId && at != 0 && OnShow(h, host, target, id) by {
      if OnShow(h, host, target, id) {
        var t :| t in h.records[host].state.value.tasks && t.id == id && t.lifecycle in {Complete, Error}
                 && t.navigation == Some(target);
        assert Markable(t, target, id);
      }
    }
  }
}
