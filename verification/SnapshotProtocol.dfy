/**
 Node and hub joined by a network that may drop, delay, duplicate and reorder: every envelope ever sent
 stays deliverable, any number of times, in any order, at any later instant, or never. Replies are
 arbitrary too, so the node may see a failure for a packet the hub accepted, and the other way round.
 */
module SnapshotProtocol {
  import opened Basics
  import opened PublicModel
  import opened HubStore
  import opened HubHistory
  import opened Uplink
  import HubValidation

  /**
   `used` holds every session id generated so far, `refused` the sessions whose latest reply was a
   conflict, `last` the node's latest clock reading.
   */
  datatype System = System(running: bool, node: Sched, used: set<string>, sent: set<Envelope>,
                           refused: set<string>, last: Time, hub: Logged)

  datatype Input =
    | Start(session: string, first: Cycle)   // the node process (re)starts and sends at once
    | Loop(turn: Turn)
    | Arrive(packet: Envelope, at: Time)

  datatype Trace = Trace(nodeId: string, states: seq<System>, inputs: seq<Input>)

  const INITIAL := System(false, NewSession(""), {}, {}, {}, 0, Logged(EMPTY_RECORD, []))

  function Refused(refused: set<string>, sent: Option<Envelope>, reply: Reply): set<string> {
    match sent
    case None => refused
    case Some(env) => if reply == Conflict then refused + {env.session} else refused - {env.session}
  }

  function Recorded(s: System, o: Outcome, c: Cycle): System {
    s.(running := true, node := o.next, used := s.used + {o.next.session},
       sent := s.sent + (if o.sent.Some? then {o.sent.value} else {}),
       refused := Refused(s.refused, o.sent, c.reply), last := c.repliedAt)
  }

  function Step(nodeId: string, s: System, i: Input): System {
    match i
    case Start(session, c) => Recorded(s, Attempted(nodeId, NewSession(session), c), c)
    case Loop(t) => Recorded(s, LoopTurn(nodeId, s.node, t), t.cycle)
    case Arrive(p, at) => s.(hub := Receive(s.hub, Arrival(p, at)))
  }

  /** Session ids are new, and the network delivers only what was sent; clocks are free. */
  ghost predicate Enabled(s: System, i: Input) {
    match i
    case Start(session, _) => session !in s.used
    case Loop(t) => s.running && (t.entropy.Some? ==> t.entropy.value !in s.used)
    case Arrive(p, _) => p in s.sent
  }

  ghost predicate Behaviour(tr: Trace) {
    && |tr.states| == |tr.inputs| + 1
    && tr.states[0] == INITIAL
    && forall k :: 0 <= k < |tr.inputs| ==>
         Enabled(tr.states[k], tr.inputs[k]) && tr.states[k + 1] == Step(tr.nodeId, tr.states[k], tr.inputs[k])
  }

  // ---------- what the node keeps ----------

  /** A (session, sequence) pair names one envelope. */
  ghost predicate Numbered(sent: set<Envelope>) {
    forall e, f :: e in sent && f in sent && e.session == f.session && e.sequence == f.sequence ==> e == f
  }

  ghost predicate Issued(st: Sched, used: set<string>, sent: set<Envelope>) {
    && Numbered(sent)
    && (forall e :: e in sent ==> e.session in used)
    && (forall e :: e in sent && e.session == st.session ==> e.sequence <= st.sequence)
    && (st.pending.Some? ==> st.pending.value in sent)
  }

  lemma SettleKeepsNumbers(st: Sched, env: Envelope, reply: Reply, at: Time)
    ensures var next := Settle(st, env, reply, at);
            && next.session == st.session && next.sequence == st.sequence
            && (next.pending == st.pending || next.pending.None?)
  {
  }

  lemma AttemptKeepsIssued(nodeId: string, st: Sched, c: Cycle, used: set<string>, sent: set<Envelope>)
    requires Issued(st, used, sent) && st.session in used
    ensures var o := Attempted(nodeId, st, c);
            && o.next.session == st.session
            && Issued(o.next, used, sent + (if o.sent.Some? then {o.sent.value} else {}))
  {
    var ready := Prepare(nodeId, st, c);
    if ready.pending.Some? {
      SettleKeepsNumbers(ready, ready.pending.value, c.reply, c.repliedAt);
    }
  }

  ghost predicate Sound(s: System) {
    && (s.running ==> s.node.session in s.used)
    && Issued(s.node, s.used, s.sent)
    && Faithful(s.hub)
    && (forall k :: 0 <= k < |s.hub.log| ==> s.hub.log[k] in s.sent)
  }

  lemma DecideKeepsNumbers(st: Sched, t: Turn)
    ensures match Decide(st, t)
            case Quiet(next) => next.session == st.session && next.sequence == st.sequence && next.pending == st.pending
            case Send(base) =>
              && base.pending == st.pending
              && (|| (base.session == st.session && base.sequence == st.sequence)
                  || (t.entropy == Some(base.session) && base.sequence == 0))
  {
  }

  lemma LoopKeepsIssued(nodeId: string, s: System, t: Turn)
    requires Sound(s) && Enabled(s, Loop(t))
    ensures var o := LoopTurn(nodeId, s.node, t);
            Issued(o.next, s.used + {o.next.session}, s.sent + (if o.sent.Some? then {o.sent.value} else {}))
  {
    DecideKeepsNumbers(s.node, t);
    match Decide(s.node, t)
    case Quiet(next) =>
      assert s.used + {next.session} == s.used;
    case Send(base) =>
      AttemptKeepsIssued(nodeId, base, t.cycle, s.used + {base.session}, s.sent);
  }

  lemma StepKeepsSound(nodeId: string, s: System, i: Input)
    requires Sound(s) && Enabled(s, i)
    ensures Sound(Step(nodeId, s, i))
  {
    match i
    case Start(session, c) =>
      AttemptKeepsIssued(nodeId, NewSession(session), c, s.used + {session}, s.sent);
    case Loop(t) =>
      LoopKeepsIssued(nodeId, s, t);
    case Arrive(p, at) =>
      ReceiveKeepsFaithful(s.hub, Arrival(p, at));
  }

  lemma {:induction false} AlwaysSound(tr: Trace, k: nat)
    requires Behaviour(tr) && k < |tr.states|
    ensures Sound(tr.states[k])
  {
    if k > 0 {
      AlwaysSound(tr, k - 1);
      StepKeepsSound(tr.nodeId, tr.states[k - 1], tr.inputs[k - 1]);
    }
  }

  // ---------- safety over whole runs ----------

  /** In every run, at every point, two sent envelopes with the same session and sequence are equal. */
  lemma {:induction false} TupleNamesEnvelope(tr: Trace, k: nat, e: Envelope, f: Envelope)
    requires Behaviour(tr) && k < |tr.states|
    requires e in tr.states[k].sent && f in tr.states[k].sent
    requires e.session == f.session && e.sequence == f.sequence
    ensures e == f
  {
    AlwaysSound(tr, k);
  }

  /** The hub never answers an honest node with `tuple_mismatch`. */
  lemma {:induction false} MismatchUnreachable(tr: Trace, k: nat)
    requires Behaviour(tr) && k < |tr.inputs| && tr.inputs[k].Arrive?
    ensures Judge(tr.states[k].hub.rec, tr.inputs[k].packet, tr.inputs[k].at) != TupleMismatch
  {
    AlwaysSound(tr, k);
    var s, p := tr.states[k], tr.inputs[k].packet;
    if s.hub.log != [] {
      var last := s.hub.log[|s.hub.log| - 1];
      assert last in s.sent && p in s.sent;
    }
  }

  // ---------- generation instants ----------

  /** The session a turn sends under, if it sends. */
  function SessionUsed(s: System, i: Input): string {
    match i
    case Start(session, _) => session
    case Loop(t) => (match Decide(s.node, t) case Quiet(_) => s.node.session case Send(base) => base.session)
    case Arrive(_, _) => s.node.session
  }

  /** The clock has not gone back since the newest envelope of the session this input sends under. */
  ghost predicate SessionClock(s: System, i: Input) {
    i.Loop? ==> forall e :: e in s.sent && e.session == SessionUsed(s, i) ==> e.state.generatedAt <= i.turn.cycle.builtAt
  }

  /** The node clock does not run backwards within one session; across sessions it may. */
  ghost predicate SessionClocks(tr: Trace) {
    |tr.inputs| < |tr.states| && forall k :: 0 <= k < |tr.inputs| ==> SessionClock(tr.states[k], tr.inputs[k])
  }

  /** Within a session later sequences carry later instants. */
  ghost predicate Timed(sent: set<Envelope>) {
    forall e, f :: e in sent && f in sent && e.session == f.session && e.sequence < f.sequence ==>
      e.state.generatedAt <= f.state.generatedAt
  }

  lemma AttemptKeepsTimed(nodeId: string, st: Sched, c: Cycle, used: set<string>, sent: set<Envelope>)
    requires Issued(st, used, sent) && Timed(sent)
    requires forall e :: e in sent && e.session == st.session ==> e.state.generatedAt <= c.builtAt
    ensures var o := Attempted(nodeId, st, c); Timed(sent + (if o.sent.Some? then {o.sent.value} else {}))
  {
  }

  lemma StepKeepsTimed(nodeId: string, s: System, i: Input)
    requires Sound(s) && Enabled(s, i) && SessionClock(s, i) && Timed(s.sent)
    ensures Timed(Step(nodeId, s, i).sent)
  {
    match i
    case Start(session, c) => AttemptKeepsTimed(nodeId, NewSession(session), c, s.used + {session}, s.sent);
    case Loop(t) =>
      DecideKeepsNumbers(s.node, t);
      var d := Decide(s.node, t);
      if d.Send? {
        AttemptKeepsTimed(nodeId, d.base, t.cycle, s.used + {d.base.session}, s.sent);
      }
    case Arrive(_, _) =>
  }

  lemma {:induction false} AlwaysTimed(tr: Trace, k: nat)
    requires Behaviour(tr) && SessionClocks(tr) && k < |tr.states|
    ensures Timed(tr.states[k].sent)
  {
    if k > 0 {
      AlwaysTimed(tr, k - 1);
      AlwaysSound(tr, k - 1);
      assert Enabled(tr.states[k - 1], tr.inputs[k - 1]) && SessionClock(tr.states[k - 1], tr.inputs[k - 1]);
      StepKeepsTimed(tr.nodeId, tr.states[k - 1], tr.inputs[k - 1]);
    }
  }

  ghost predicate NoOlder(a: Record, b: Record) {
    && (a.state.Some? ==> b.state.Some? && a.state.value.generatedAt <= b.state.value.generatedAt)
    && (a.ingest.Some? ==> b.ingest.Some? && a.ingest.value.generatedAt <= b.ingest.value.generatedAt)
  }

  lemma StepNeverRegresses(nodeId: string, s: System, i: Input)
    requires Sound(s) && Enabled(s, i) && Timed(s.sent)
    ensures NoOlder(s.hub.rec, Step(nodeId, s, i).hub.rec)
  {
    if i.Arrive? && s.hub.log != [] {
      var last := s.hub.log[|s.hub.log| - 1];
      assert last in s.sent && i.packet in s.sent;
    }
  }

  /** Over every interleaving, the generation instant of the accepted state never decreases. */
  lemma {:induction false} GenerationNeverDecreases(tr: Trace, i: nat, j: nat)
    requires Behaviour(tr) && SessionClocks(tr) && i <= j < |tr.states|
    ensures NoOlder(tr.states[i].hub.rec, tr.states[j].hub.rec)
  {
    if i < j {
      GenerationNeverDecreases(tr, i, j - 1);
      AlwaysSound(tr, j - 1);
      AlwaysTimed(tr, j - 1);
      StepNeverRegresses(tr.nodeId, tr.states[j - 1], tr.inputs[j - 1]);
    }
  }

  // ---------- why the clock must not go back within a session ----------

  /** Two envelopes of one session whose instants go against their sequence. */
  ghost predicate Inverted(sent: set<Envelope>, e: Envelope, f: Envelope) {
    e in sent && f in sent && e.session == f.session && e.sequence < f.sequence && f.state.generatedAt < e.state.generatedAt
  }

  /** `e` is the newest accepted envelope, or one the hub would accept next if it arrived in time. */
  ghost predicate StillOpen(log: seq<Envelope>, e: Envelope) {
    log == [] ||
    var newest := log[|log| - 1];
    if e.session == newest.session then newest.sequence <= e.sequence
    else newest.state.generatedAt <= e.state.generatedAt && forall k :: 0 <= k < |log| ==> log[k].session != e.session
  }

  /** An inverted pair whose first half is still open. */
  ghost predicate OpenInversion(sent: set<Envelope>, log: seq<Envelope>) {
    exists e, f :: Inverted(sent, e, f) && StillOpen(log, e)
  }

  /**
   At any point of any behaviour, with hub clocks that read anything: the network can make the accepted instant go
   back exactly when an inverted pair was sent that is still open.
   */
  lemma RegressionPossibleIff(tr: Trace, k: nat)
    requires Behaviour(tr) && k < |tr.states|
    ensures var now := tr.states[k];
            (exists more: seq<Arrival> :: Regresses(now, more)) <==> OpenInversion(now.sent, now.hub.log)
  {
    var now := tr.states[k];
    AlwaysSound(tr, k);
    if OpenInversion(now.sent, now.hub.log) {
      var e, f :| Inverted(now.sent, e, f) && StillOpen(now.hub.log, e);
      var more := InversionRegresses(now, e, f, f.state.generatedAt);
    } else {
      forall more: seq<Arrival> ensures !Regresses(now, more) {
        if Regresses(now, more) {
          var n, e := RegressionEndsInversion(now, more);
          assert false;
        }
      }
    }
  }

  // ---------- with a hub clock that does not run backwards ----------

  const SET_BACK: Time := HubStore.ADMISSION_WINDOW + HubValidation.FUTURE_TOLERANCE

  /** From `clock` on the hub's clock never decreases, and every packet has passed its test for the future. */
  ghost predicate InTime(clock: Time, more: seq<Arrival>) {
    && (forall i :: 0 <= i < |more| ==>
          clock <= more[i].at && more[i].packet.state.generatedAt <= more[i].at + HubValidation.FUTURE_TOLERANCE)
    && (forall i, j :: 0 <= i < j < |more| ==> more[i].at <= more[j].at)
  }

  /** The second half can still be admitted, by a clock that was not too early for the first. */
  ghost predicate Timely(log: seq<Envelope>, clock: Time, e: Envelope, f: Envelope) {
    && clock <= f.state.generatedAt + HubStore.ADMISSION_WINDOW
    && (IsNewest(log, e) || e.state.generatedAt <= f.state.generatedAt + SET_BACK)
  }

  ghost predicate IsNewest(log: seq<Envelope>, e: Envelope) {
    log != [] && log[|log| - 1] == e
  }

  ghost predicate TimelyInversion(sent: set<Envelope>, log: seq<Envelope>, clock: Time) {
    exists e, f :: Inverted(sent, e, f) && StillOpen(log, e) && Timely(log, clock, e, f)
  }

  /** The same with hub clocks that never run backwards: exactly when such a pair is not yet too old either. */
  lemma RegressionInTimeIff(tr: Trace, k: nat, clock: Time)
    requires Behaviour(tr) && k < |tr.states|
    ensures var now := tr.states[k];
            (exists more: seq<Arrival> :: InTime(clock, more) && Regresses(now, more))
            <==> TimelyInversion(now.sent, now.hub.log, clock)
  {
    var now := tr.states[k];
    AlwaysSound(tr, k);
    if TimelyInversion(now.sent, now.hub.log, clock) {
      TimelyRegresses(now, clock);
    } else {
      forall more: seq<Arrival> | InTime(clock, more) ensures !Regresses(now, more) {
        if Regresses(now, more) {
          RegressionInTime(now, more, clock);
          assert false;
        }
      }
    }
  }

  lemma TimelyRegresses(s: System, clock: Time)
    requires Sound(s) && TimelyInversion(s.sent, s.hub.log, clock)
    ensures exists more: seq<Arrival> :: InTime(clock, more) && Regresses(s, more)
  {
    var e, f :| Inverted(s.sent, e, f) && StillOpen(s.hub.log, e) && Timely(s.hub.log, clock, e, f);
    var tolerance := HubValidation.FUTURE_TOLERANCE;
    var at := Max(clock, (if IsNewest(s.hub.log, e) then f else e).state.generatedAt - tolerance);
    var more := InversionRegresses(s, e, f, at);
    assert InTime(clock, more);
  }

  lemma RegressionInTime(s: System, more: seq<Arrival>, clock: Time)
    requires Sound(s) && InTime(clock, more) && Regresses(s, more)
    ensures TimelyInversion(s.sent, s.hub.log, clock)
  {
    var n, e := RegressionEndsInversion(s, more);
    if !IsNewest(s.hub.log, e) {
      var m := NewestCameLast(s.hub, more[..n]);
      assert more[m].at <= more[n].at;
    }
    assert Timely(s.hub.log, clock, e, more[n].packet);
  }

  /** The accepted instant is at most the tolerance ahead of the hub's clock. */
  predicate NotAhead(r: Record, clock: Time) {
    r.ingest.Some? ==> r.ingest.value.generatedAt <= clock + HubValidation.FUTURE_TOLERANCE
  }

  lemma {:induction false} StaysNotAhead(l: Logged, clock: Time, more: seq<Arrival>, later: Time)
    requires InTime(clock, more) && NotAhead(l.rec, clock) && clock <= later && forall a :: a in more ==> a.at <= later
    ensures NotAhead(Took(l, more).rec, later)
  {
    if more != [] {
      var front, last := more[..|more| - 1], more[|more| - 1];
      assert last in more && forall a :: a in front ==> a in more;
      StaysNotAhead(l, clock, front, later);
    }
  }

  /** Where the accepted instant may be found, given that it once was at `once`. */
  predicate SetBackAtMost(once: Option<Ingest>, now: Option<Ingest>) {
    once.Some? ==> now.Some? && once.value.generatedAt <= now.value.generatedAt + SET_BACK
  }

  lemma OneMoreSetsBack(l: Logged, a: Arrival, once: Record)
    requires SetBackAtMost(once.ingest, l.rec.ingest) && NotAhead(once, a.at)
    ensures SetBackAtMost(once.ingest, Receive(l, a).rec.ingest)
  {
  }

  /**
   Whatever arrives in time, and however often the accepted instant is set back meanwhile: it is never more than
   two and a half minutes behind where it once was.
   */
  lemma {:induction false} SetBackIsBounded(l: Logged, clock: Time, more: seq<Arrival>, i: nat)
    requires InTime(clock, more) && NotAhead(l.rec, clock) && i <= |more|
    ensures SetBackAtMost(Took(l, more[..i]).rec.ingest, Took(l, more).rec.ingest)
  {
    if i == |more| {
      assert more[..i] == more;
    } else {
      var front, last := more[..|more| - 1], more[|more| - 1];
      assert front[..i] == more[..i];
      SetBackIsBounded(l, clock, front, i);
      NotAheadWhen(l, clock, more, i, last.at);
      OneMoreSetsBack(Took(l, front), last, Took(l, more[..i]).rec);
    }
  }

  lemma NotAheadWhen(l: Logged, clock: Time, more: seq<Arrival>, i: nat, later: Time)
    requires InTime(clock, more) && NotAhead(l.rec, clock) && i < |more| && more[|more| - 1].at == later
    ensures NotAhead(Took(l, more[..i]).rec, later)
  {
    forall a | a in more[..i] ensures a.at <= later {
      var k :| 0 <= k < i && more[k] == a;
    }
    StaysNotAhead(l, clock, more[..i], later);
  }

  // ---------- deliveries ----------

  /** Deliveries of sent envelopes after which a further one moves the accepted instant back. */
  ghost predicate Regresses(s: System, more: seq<Arrival>) {
    (forall a :: a in more ==> a.packet in s.sent) && EndsBack(s.hub, more)
  }

  ghost predicate EndsBack(l: Logged, more: seq<Arrival>) {
    more != [] && !NoOlder(Took(l, more[..|more| - 1]).rec, Took(l, more).rec)
  }

  function Took(l: Logged, more: seq<Arrival>): Logged {
    if more == [] then l else Receive(Took(l, more[..|more| - 1]), more[|more| - 1])
  }

  lemma TookOne(l: Logged, a: Arrival)
    ensures Took(l, [a]) == Receive(l, a)
  {
    assert [a][..0] == [];
  }

  lemma TookTwo(l: Logged, a: Arrival, b: Arrival)
    ensures Took(l, [a, b]) == Receive(Receive(l, a), b)
  {
    assert [a, b][..1] == [a];
    TookOne(l, a);
  }

  lemma NewestRegresses(s: System, e: Envelope, f: Envelope, at: Time)
    requires Sound(s) && Inverted(s.sent, e, f) && IsNewest(s.hub.log, e) && at <= f.state.generatedAt + HubStore.ADMISSION_WINDOW
    ensures Regresses(s, [Arrival(f, at)])
  {
    TookOne(s.hub, Arrival(f, at));
    assert [Arrival(f, at)][..0] == [];
  }

  /** Delivering the first half, unless it is the newest already, and then the second, both at one instant. */
  lemma InversionRegresses(s: System, e: Envelope, f: Envelope, at: Time) returns (more: seq<Arrival>)
    requires Sound(s) && Inverted(s.sent, e, f) && StillOpen(s.hub.log, e) && at <= f.state.generatedAt + HubStore.ADMISSION_WINDOW
    ensures more == (if IsNewest(s.hub.log, e) then [Arrival(f, at)] else [Arrival(e, at), Arrival(f, at)])
    ensures Regresses(s, more)
  {
    if IsNewest(s.hub.log, e) {
      more := [Arrival(f, at)];
      NewestRegresses(s, e, f, at);
    } else {
      more := [Arrival(e, at), Arrival(f, at)];
      OtherThanNewest(s, e);
      OpenIsAccepted(s.hub, e, at);
      PairRegresses(s, e, f, at);
    }
  }

  lemma OtherThanNewest(s: System, e: Envelope)
    requires Sound(s) && e in s.sent && !IsNewest(s.hub.log, e)
    ensures s.hub.log != [] ==> var newest := s.hub.log[|s.hub.log| - 1]; newest.session != e.session || newest.sequence != e.sequence
  {
    assert s.hub.log != [] ==> s.hub.log[|s.hub.log| - 1] in s.sent;
  }

  lemma PairRegresses(s: System, e: Envelope, f: Envelope, at: Time)
    requires Inverted(s.sent, e, f) && Judge(s.hub.rec, e, at) == Accepted && at <= f.state.generatedAt + HubStore.ADMISSION_WINDOW
    ensures Regresses(s, [Arrival(e, at), Arrival(f, at)])
  {
    var first, second := Arrival(e, at), Arrival(f, at);
    assert Judge(Receive(s.hub, first).rec, f, at) == Accepted;
    assert [first, second][..1] == [first];
    TookOne(s.hub, first);
    TookTwo(s.hub, first, second);
  }

  lemma OpenIsAccepted(l: Logged, e: Envelope, at: Time)
    requires Faithful(l) && StillOpen(l.log, e) && at <= e.state.generatedAt + HubStore.ADMISSION_WINDOW
    requires l.log != [] ==> var newest := l.log[|l.log| - 1]; newest.session != e.session || newest.sequence != e.sequence
    ensures Judge(l.rec, e, at) == Accepted
  {
  }

  lemma {:induction false} TookSound(s: System, more: seq<Arrival>)
    requires Sound(s) && forall a :: a in more ==> a.packet in s.sent
    ensures Sound(s.(hub := Took(s.hub, more)))
  {
    if more != [] {
      var front, last := more[..|more| - 1], more[|more| - 1];
      assert forall a :: a in front ==> a in more;
      TookSound(s, front);
      assert last in more;
      StepKeepsSound("", s.(hub := Took(s.hub, front)), Arrive(last.packet, last.at));
    }
  }

  /** The log went on from `was` with instants that did not go back, so its newest envelope was open then. */
  ghost predicate WentOn(was: seq<Envelope>, log: seq<Envelope>) {
    && was <= log
    && (log != [] ==> StillOpen(was, log[|log| - 1]))
    && (was != [] ==> was[|was| - 1].state.generatedAt <= log[|log| - 1].state.generatedAt)
  }

  lemma AcceptedGoesOn(was: seq<Envelope>, l: Logged, a: Arrival)
    requires Faithful(l) && WentOn(was, l.log) && NoOlder(l.rec, Receive(l, a).rec)
    ensures WentOn(was, Receive(l, a).log)
  {
    if Judge(l.rec, a.packet, a.at) == Accepted && was != [] {
      assert l.log[|was| - 1] == was[|was| - 1];
      assert (l.log + [a.packet])[|l.log|] == a.packet;
    }
  }

  lemma FurtherOn(s: System, more: seq<Arrival>)
    requires Sound(s) && more != [] && !EndsBack(s.hub, more) && forall a :: a in more ==> a.packet in s.sent
    requires WentOn(s.hub.log, Took(s.hub, more[..|more| - 1]).log)
    ensures WentOn(s.hub.log, Took(s.hub, more).log)
  {
    var front := more[..|more| - 1];
    assert forall a :: a in front ==> a in more;
    TookSound(s, front);
    AcceptedGoesOn(s.hub.log, Took(s.hub, front), more[|more| - 1]);
  }

  /** Where a list first fails, if what holds of a beginning holds of the next one that does not fail. */
  lemma {:induction false} FirstFailure(more: seq<Arrival>, k: nat, holds: seq<Arrival> -> bool, fails: seq<Arrival> -> bool)
    returns (n: nat)
    requires k <= |more| && holds(more[..k]) && (k > 0 ==> !fails(more[..k]))
    requires forall j :: k <= j < |more| && holds(more[..j]) && !fails(more[..j + 1]) ==> holds(more[..j + 1])
    ensures n <= |more| && holds(more[..n])
    ensures if n < |more| then fails(more[..n + 1]) else n > 0 ==> !fails(more[..n])
    decreases |more| - k
  {
    n := k;
    if k < |more| && !fails(more[..k + 1]) {
      n := FirstFailure(more, k + 1, holds, fails);
    }
  }

  /** The first delivery that moves the instant back; until then the log only went on. */
  lemma FirstRegression(s: System, more: seq<Arrival>) returns (n: nat)
    requires Sound(s) && forall a :: a in more ==> a.packet in s.sent
    ensures n <= |more| && WentOn(s.hub.log, Took(s.hub, more[..n]).log)
    ensures if n < |more| then EndsBack(s.hub, more[..n + 1]) else !EndsBack(s.hub, more)
  {
    var holds, fails := (m: seq<Arrival>) => WentOn(s.hub.log, Took(s.hub, m).log), (m: seq<Arrival>) => EndsBack(s.hub, m);
    forall j | 0 <= j < |more| && holds(more[..j]) && !fails(more[..j + 1]) ensures holds(more[..j + 1]) {
      assert more[..j + 1][..j] == more[..j];
      FurtherOn(s, more[..j + 1]);
    }
    assert more[..0] == [] && more[..|more|] == more;
    n := FirstFailure(more, 0, holds, fails);
  }

  /** The first delivery that moves the instant back ends an inverted pair that was open to begin with. */
  lemma RegressionEndsInversion(s: System, more: seq<Arrival>) returns (n: nat, e: Envelope)
    requires Sound(s) && Regresses(s, more)
    ensures n < |more| && Inverted(s.sent, e, more[n].packet) && StillOpen(s.hub.log, e)
    ensures IsNewest(Took(s.hub, more[..n]).log, e) && more[n].at <= more[n].packet.state.generatedAt + HubStore.ADMISSION_WINDOW
  {
    n := FirstRegression(s, more);
    var front := more[..n];
    assert more[n] in more && forall a :: a in front ==> a in more;
    TookSound(s, front);
    assert more[..n + 1][..n] == front && more[..n + 1][n] == more[n];
    e := RegressionIsInversion(s.(hub := Took(s.hub, front)), more[n]);
  }

  /** A delivery that moves the instant back ends an inverted pair that begins with the newest envelope. */
  lemma RegressionIsInversion(s: System, a: Arrival) returns (newest: Envelope)
    requires Sound(s) && a.packet in s.sent && !NoOlder(s.hub.rec, Receive(s.hub, a).rec)
    ensures IsNewest(s.hub.log, newest) && Inverted(s.sent, newest, a.packet)
    ensures a.at <= a.packet.state.generatedAt + HubStore.ADMISSION_WINDOW
  {
    newest := s.hub.log[|s.hub.log| - 1];
    assert newest in s.sent;
  }

  /** A newest envelope that was not the newest before came with one of the deliveries. */
  lemma {:induction false} NewestCameLast(l: Logged, more: seq<Arrival>) returns (m: nat)
    requires Took(l, more).log != [] && !IsNewest(l.log, Took(l, more).log[|Took(l, more).log| - 1])
    ensures m < |more| && IsNewest(Took(l, more).log, more[m].packet)
  {
    var front, last := more[..|more| - 1], more[|more| - 1];
    if Judge(Took(l, front).rec, last.packet, last.at) == Accepted {
      return |more| - 1;
    }
    m := NewestCameLast(l, front);
  }

  // ---------- send discipline ----------

  ghost predicate ReadInOrder(last: Time, t: Turn) {
    0 <= last <= t.topAt <= t.owedAt <= t.wakeAt <= t.resyncAt
      <= t.cycle.checkedAt <= t.cycle.builtAt <= t.cycle.repliedAt
  }

  /** The node clock never runs backwards and session ids can always be generated. */
  ghost predicate Steady(s: System, i: Input) {
    match i
    case Start(_, c) => 0 <= s.last <= c.checkedAt <= c.builtAt <= c.repliedAt
    case Loop(t) => ReadInOrder(s.last, t) && t.entropy.Some?
    case Arrive(_, _) => true
  }

  ghost predicate SteadyRun(tr: Trace) {
    Behaviour(tr) && forall k :: 0 <= k < |tr.inputs| ==> Steady(tr.states[k], tr.inputs[k])
  }

  ghost predicate Disciplined(s: System) {
    && 0 <= s.last
    && (s.node.pending.Some? ==> s.node.eligibleAt <= s.last)
    && (s.node.resyncOwed ==> s.node.conflictMode && s.node.pending.None? && s.node.eligibleAt <= s.last)
  }

  lemma AttemptKeepsDisciplined(nodeId: string, base: Sched, c: Cycle)
    requires 0 <= c.repliedAt && base.eligibleAt <= c.repliedAt && !base.resyncOwed
    ensures var next := Attempted(nodeId, base, c).next;
            && (next.pending.Some? ==> next.eligibleAt <= c.repliedAt)
            && (next.resyncOwed ==> next.conflictMode && next.pending.None? && next.eligibleAt <= c.repliedAt)
  {
    var ready := Prepare(nodeId, base, c);
    assert ready.eligibleAt == base.eligibleAt && !ready.resyncOwed;
  }

  lemma StepKeepsDisciplined(nodeId: string, s: System, i: Input)
    requires Disciplined(s) && Enabled(s, i) && Steady(s, i)
    ensures Disciplined(Step(nodeId, s, i))
  {
    match i
    case Start(session, c) => AttemptKeepsDisciplined(nodeId, NewSession(session), c);
    case Loop(t) =>
      var d := Decide(s.node, t);
      if d.Send? {
        AttemptKeepsDisciplined(nodeId, d.base, t.cycle);
      }
    case Arrive(_, _) =>
  }

  lemma {:induction false} AlwaysDisciplined(tr: Trace, k: nat)
    requires SteadyRun(tr) && k < |tr.states|
    ensures Disciplined(tr.states[k])
  {
    if k > 0 {
      AlwaysDisciplined(tr, k - 1);
      StepKeepsDisciplined(tr.nodeId, tr.states[k - 1], tr.inputs[k - 1]);
    }
  }

  function SentBy(nodeId: string, s: System, t: Turn): Option<Envelope> {
    LoopTurn(nodeId, s.node, t).sent
  }

  /**
   In every steady run, whatever a turn sends goes out no earlier than the hold; a retained envelope
   goes out unchanged and no earlier than its backoff instant, unless it left the admission window, and
   then it is replaced under the next sequence of the same session.
   */
  lemma {:induction false} SendDiscipline(tr: Trace, k: nat)
    requires SteadyRun(tr) && k < |tr.inputs| && tr.inputs[k].Loop?
    requires SentBy(tr.nodeId, tr.states[k], tr.inputs[k].turn).Some?
    ensures var s, c := tr.states[k], tr.inputs[k].turn.cycle;
            var env := SentBy(tr.nodeId, s, tr.inputs[k].turn).value;
            && s.node.eligibleAt <= c.checkedAt
            && (s.node.pending.Some? ==>
                  && s.node.retryAt <= c.checkedAt
                  && (if PendingFresh(s.node.pending.value, c.checkedAt) then env == s.node.pending.value
                      else env.session == s.node.session && env.sequence == s.node.sequence + 1))
  {
    AlwaysDisciplined(tr, k);
    assert Steady(tr.states[k], tr.inputs[k]);
  }

  /** Input `i` sends something and the reply is a conflict, the first one since the last success. */
  predicate FirstConflict(tr: Trace, i: nat)
    requires i < |tr.inputs| < |tr.states|
  {
    match tr.inputs[i]
    case Start(_, c) => c.pub.hostId == tr.nodeId && c.reply == Conflict
    case Loop(t) => SentBy(tr.nodeId, tr.states[i], t).Some? && t.cycle.reply == Conflict && !tr.states[i].node.conflictMode
    case Arrive(_, _) => false
  }

  lemma {:induction false} NodeWaits(tr: Trace, i: nat, j: nat)
    requires Behaviour(tr) && i <= j < |tr.states| && forall k :: i <= k < j ==> tr.inputs[k].Arrive?
    ensures tr.states[j].node == tr.states[i].node
  {
    if i < j {
      NodeWaits(tr, i, j - 1);
      assert tr.states[j] == Step(tr.nodeId, tr.states[j - 1], tr.inputs[j - 1]);
    }
  }

  lemma TurnOwesResync(nodeId: string, st: Sched, t: Turn)
    ensures var o := LoopTurn(nodeId, st, t);
            var first := o.sent.Some? && t.cycle.reply == Conflict && !st.conflictMode;
            (first ==> o.next.resyncOwed) && (o.next.resyncOwed && !st.resyncOwed ==> first)
  {
    var d := Decide(st, t);
    assert d.Send? ==> d.base.conflictMode == st.conflictMode;
    assert d.Send? ==> Prepare(nodeId, d.base, t.cycle).conflictMode == st.conflictMode;
  }

  /** A first conflict makes a resync owed, and nothing else does. */
  lemma ResyncOwedIffFirstConflict(tr: Trace, i: nat)
    requires Behaviour(tr) && i < |tr.inputs| && !tr.inputs[i].Arrive?
    ensures FirstConflict(tr, i) ==> tr.states[i + 1].node.resyncOwed
    ensures tr.states[i + 1].node.resyncOwed && (tr.inputs[i].Loop? ==> !tr.states[i].node.resyncOwed) ==> FirstConflict(tr, i)
  {
    assert tr.states[i + 1] == Step(tr.nodeId, tr.states[i], tr.inputs[i]);
    if tr.inputs[i].Loop? {
      TurnOwesResync(tr.nodeId, tr.states[i].node, tr.inputs[i].turn);
    }
  }

  /** What a turn of an owed resync does. */
  ghost predicate OpensNewSession(nodeId: string, s: System, t: Turn) {
    var next := LoopTurn(nodeId, s.node, t).next;
    var sent := SentBy(nodeId, s, t);
    && t.entropy == Some(next.session) && next.session !in s.used
    && (forall e :: e in s.sent ==> e.session != next.session)
    && (sent.Some? ==> sent.value.session == next.session && sent.value.sequence == 1)
    && (sent.None? <==> t.cycle.pub.hostId != nodeId)
  }

  lemma OwedResyncOpens(nodeId: string, s: System, t: Turn)
    requires Sound(s) && Disciplined(s) && s.node.resyncOwed && Enabled(s, Loop(t)) && Steady(s, Loop(t))
    ensures OpensNewSession(nodeId, s, t)
  {
    assert Decide(s.node, t) == Send(Rekeyed(s.node, t.entropy.value).(resyncOwed := false));
  }

  /**
   In every steady run a first conflict, at start-up or later, is followed by a never-used session: the
   next turn of the loop takes one and, if it can build a snapshot at all, sends sequence 1 under it.
   */
  lemma {:induction false} FirstConflictOpensNewSession(tr: Trace, i: nat, j: nat)
    requires SteadyRun(tr) && i < j < |tr.inputs| && FirstConflict(tr, i) && tr.inputs[j].Loop?
    requires forall k :: i < k < j ==> tr.inputs[k].Arrive?
    ensures OpensNewSession(tr.nodeId, tr.states[j], tr.inputs[j].turn)
  {
    ResyncOwedIffFirstConflict(tr, i);
    NodeWaits(tr, i + 1, j);
    AlwaysDisciplined(tr, j);
    AlwaysSound(tr, j);
    assert Steady(tr.states[j], tr.inputs[j]) && Enabled(tr.states[j], tr.inputs[j]);
    OwedResyncOpens(tr.nodeId, tr.states[j], tr.inputs[j].turn);
  }

  ghost predicate HoldActive(s: System, until: Time) {
    s.node.eligibleAt >= until || s.last >= until
  }

  lemma TurnKeepsHold(nodeId: string, s: System, t: Turn, until: Time)
    requires Disciplined(s) && Enabled(s, Loop(t)) && Steady(s, Loop(t)) && HoldActive(s, until)
    ensures HoldActive(Step(nodeId, s, Loop(t)), until)
    ensures SentBy(nodeId, s, t).Some? ==> t.cycle.checkedAt >= until
  {
  }

  lemma StepKeepsHold(nodeId: string, s: System, i: Input, until: Time)
    requires Disciplined(s) && Enabled(s, i) && Steady(s, i) && HoldActive(s, until) && !i.Start?
    ensures HoldActive(Step(nodeId, s, i), until)
  {
    if i.Loop? {
      TurnKeepsHold(nodeId, s, i.turn, until);
    }
  }

  lemma {:induction false} HoldPersists(tr: Trace, i: nat, j: nat, until: Time)
    requires SteadyRun(tr) && i <= j < |tr.states| && HoldActive(tr.states[i], until)
    requires forall k :: i <= k < j ==> !tr.inputs[k].Start?
    ensures HoldActive(tr.states[j], until)
  {
    if i < j {
      HoldPersists(tr, i, j - 1, until);
      AlwaysDisciplined(tr, j - 1);
      assert Steady(tr.states[j - 1], tr.inputs[j - 1]) && Enabled(tr.states[j - 1], tr.inputs[j - 1]);
      StepKeepsHold(tr.nodeId, tr.states[j - 1], tr.inputs[j - 1], until);
    }
  }

  /** The reply to input `i` puts the node on a slow hold. */
  predicate SetsHold(tr: Trace, i: nat)
    requires i < |tr.inputs| < |tr.states|
  {
    match tr.inputs[i]
    case Start(_, c) => c.pub.hostId == tr.nodeId && c.reply == Auth
    case Loop(t) =>
      SentBy(tr.nodeId, tr.states[i], t).Some?
      && (t.cycle.reply == Auth || (t.cycle.reply == Conflict && tr.states[i].node.conflictMode))
    case Arrive(_, _) => false
  }

  function RepliedAt(i: Input): Time {
    match i
    case Start(_, c) => c.repliedAt
    case Loop(t) => t.cycle.repliedAt
    case Arrive(_, at) => at
  }

  lemma HoldSet(tr: Trace, i: nat)
    requires Behaviour(tr) && i < |tr.inputs| && SetsHold(tr, i)
    ensures tr.states[i + 1].node.eligibleAt == RepliedAt(tr.inputs[i]) + SLOW_RETRY
  {
    assert tr.states[i + 1] == Step(tr.nodeId, tr.states[i], tr.inputs[i]);
    if tr.inputs[i].Loop? {
      var st, t := tr.states[i].node, tr.inputs[i].turn;
      var d := Decide(st, t);
      assert d.Send? && d.base.conflictMode == st.conflictMode;
      assert Prepare(tr.nodeId, d.base, t.cycle).conflictMode == st.conflictMode;
    }
  }

  /**
   After a 401/403, at start-up or later, or a 409 while already in conflict, no turn of the same process
   sends anything before the slow interval has passed.
   */
  lemma {:induction false} HoldRespected(tr: Trace, i: nat, j: nat)
    requires SteadyRun(tr) && i < j < |tr.inputs| && SetsHold(tr, i) && tr.inputs[j].Loop?
    requires forall k :: i < k <= j ==> !tr.inputs[k].Start?
    requires SentBy(tr.nodeId, tr.states[j], tr.inputs[j].turn).Some?
    ensures tr.inputs[j].turn.cycle.checkedAt >= RepliedAt(tr.inputs[i]) + SLOW_RETRY
  {
    var until := RepliedAt(tr.inputs[i]) + SLOW_RETRY;
    HoldSet(tr, i);
    HoldPersists(tr, i + 1, j, until);
    AlwaysDisciplined(tr, j);
    assert Steady(tr.states[j], tr.inputs[j]) && Enabled(tr.states[j], tr.inputs[j]);
    TurnKeepsHold(tr.nodeId, tr.states[j], tr.inputs[j].turn, until);
  }

  // ---------- where the comments promise more than the code does ----------

  /** A refused session that is still the node's own comes with conflict mode, and nothing pending belongs to one. */
  ghost predicate Wary(s: System) {
    && (s.running ==> s.node.session in s.used) && s.refused <= s.used
    && (s.running && s.node.session in s.refused ==> s.node.conflictMode && s.node.pending.None?)
    && (s.node.pending.Some? ==> s.node.pending.value.session !in s.refused)
  }

  lemma AttemptKeepsWary(nodeId: string, base: Sched, c: Cycle, refused: set<string>)
    requires base.session in refused ==> base.conflictMode && base.pending.None?
    requires base.pending.Some? ==> base.pending.value.session !in refused
    ensures var o := Attempted(nodeId, base, c);
            var after := Refused(refused, o.sent, c.reply);
            && (o.next.session in after ==> o.next.conflictMode && o.next.pending.None?)
            && (o.next.pending.Some? ==> o.next.pending.value.session !in after)
            && (o.sent.Some? ==> o.sent.value.session == base.session || base.pending == o.sent)
  {
    var ready := Prepare(nodeId, base, c);
    assert ready.session == base.session && ready.conflictMode == base.conflictMode;
  }

  lemma DecideKeepsWary(s: System, t: Turn)
    requires Wary(s) && Enabled(s, Loop(t)) && Decide(s.node, t).Send?
    ensures var base := Decide(s.node, t).base;
            && (base.session in s.refused ==> base.conflictMode && base.pending.None?)
            && (base.pending.Some? ==> base.pending.value.session !in s.refused)
  {
    DecideKeepsNumbers(s.node, t);
  }

  lemma StepKeepsWary(nodeId: string, s: System, i: Input)
    requires Wary(s) && Sound(s) && Enabled(s, i)
    ensures Wary(Step(nodeId, s, i))
  {
    match i
    case Start(session, c) => AttemptKeepsWary(nodeId, NewSession(session), c, s.refused);
    case Loop(t) =>
      var d := Decide(s.node, t);
      DecideKeepsNumbers(s.node, t);
      if d.Send? {
        DecideKeepsWary(s, t);
        AttemptKeepsWary(nodeId, d.base, t.cycle, s.refused);
        AttemptKeepsIssued(nodeId, d.base, t.cycle, s.used + {d.base.session}, s.sent);
      }
    case Arrive(_, _) =>
  }

  lemma {:induction false} AlwaysWary(tr: Trace, k: nat)
    requires Behaviour(tr) && k < |tr.states|
    ensures Wary(tr.states[k])
  {
    if k > 0 {
      AlwaysWary(tr, k - 1);
      AlwaysSound(tr, k - 1);
      StepKeepsWary(tr.nodeId, tr.states[k - 1], tr.inputs[k - 1]);
    }
  }

  /** A change of state that the owed-state guard or a change wake answers with an ordinary send. */
  predicate OrdinarySend(st: Sched, t: Turn) {
    || (st.newerStateOwed && t.owedAt >= st.eligibleAt && NewerThanAccepted(st, t.owedView))
    || (t.wake == Changed && t.wakeAt >= st.eligibleAt && NewerThanAccepted(st, t.wakeView))
  }

  /**
   "A conflicted session is never reused" is broken by a turn, in any run whatever, exactly when the node's
   session was refused, the loop top does not resynchronise, and a change of state is answered with an
   ordinary send.
   */
  lemma ConflictedSessionReusedIff(tr: Trace, k: nat)
    requires Behaviour(tr) && k < |tr.inputs| && tr.inputs[k].Loop?
    ensures var s, t := tr.states[k], tr.inputs[k].turn;
            var sent := SentBy(tr.nodeId, s, t);
            (sent.Some? && sent.value.session in s.refused)
            <==> s.node.session in s.refused && t.cycle.pub.hostId == tr.nodeId
                 && !(s.node.resyncOwed && t.topAt >= s.node.eligibleAt) && OrdinarySend(s.node, t)
  {
    AlwaysWary(tr, k);
    var s, t := tr.states[k], tr.inputs[k].turn;
    assert Enabled(s, Loop(t));
    var d := Decide(s.node, t);
    if d.Send? {
      AttemptKeepsWary(tr.nodeId, d.base, t.cycle, s.refused);
    }
  }

  function Beat(wake: Wake, at: Time, wakeAt: Time, pub: PublicState, entropy: Option<string>, reply: Reply): Input {
    Loop(Turn(wake, at, at, wakeAt, wakeAt, pub, pub, entropy, Cycle(wakeAt, wakeAt, wakeAt, pub, reply)))
  }

  /** It happens without entropy: conflict, no new id, hold, then a state change just after the hold. */
  lemma ConflictedSessionReused(nodeId: string, pub: PublicState, newId: string)
    requires pub.hostId == nodeId && newId != "old"
    ensures exists tr: Trace ::
              && Behaviour(tr) && tr.nodeId == nodeId && |tr.inputs| == 3 && tr.inputs[2].Loop?
              && SentBy(nodeId, tr.states[2], tr.inputs[2].turn).Some?
              && SentBy(nodeId, tr.states[2], tr.inputs[2].turn).value.session in tr.states[2].refused
              && tr.states[2].node.resyncOwed
  {
    var i0 := Start("old", Cycle(SECOND, SECOND, SECOND, pub, Conflict));
    var i1 := Beat(Ticked, 2 * SECOND, 2 * SECOND, pub, None, Ok);
    var i2 := Beat(Changed, 3 * SECOND, 40 * SECOND, pub, Some(newId), Ok);
    var s1 := Step(nodeId, INITIAL, i0);
    var s2 := Step(nodeId, s1, i1);
    var s3 := Step(nodeId, s2, i2);
    assert s1.node.resyncOwed && s1.node.eligibleAt == 0 && s1.refused == {"old"};
    assert s2.node.eligibleAt == 32 * SECOND && s2.node.accepted.None? && s2.node.session == "old";
    var tr := Trace(nodeId, [INITIAL, s1, s2, s3], [i0, i1, i2]);
    assert Behaviour(tr);
  }

  /** It happens in a steady run too: the new session is refused as well, and a change follows the hold. */
  lemma RepeatedConflictReused(nodeId: string, pub: PublicState, second: string, third: string)
    requires pub.hostId == nodeId && second != "first" && third !in {"first", second}
    ensures exists tr: Trace ::
              && SteadyRun(tr) && tr.nodeId == nodeId && |tr.inputs| == 3 && tr.inputs[2].Loop?
              && SentBy(nodeId, tr.states[2], tr.inputs[2].turn).Some?
              && SentBy(nodeId, tr.states[2], tr.inputs[2].turn).value.session in tr.states[2].refused
              && !tr.states[2].node.resyncOwed
  {
    var i0 := Start("first", Cycle(SECOND, SECOND, SECOND, pub, Conflict));
    var i1 := Beat(Ticked, 2 * SECOND, 2 * SECOND, pub, Some(second), Conflict);
    var i2 := Beat(Changed, 40 * SECOND, 40 * SECOND, pub, Some(third), Ok);
    var s1 := Step(nodeId, INITIAL, i0);
    var s2 := Step(nodeId, s1, i1);
    var s3 := Step(nodeId, s2, i2);
    assert s1.node.resyncOwed && s1.node.conflictMode && s1.node.eligibleAt == 0;
    assert s2.node.session == second && s2.node.eligibleAt == 32 * SECOND && s2.node.accepted.None? && second in s2.refused;
    var tr := Trace(nodeId, [INITIAL, s1, s2, s3], [i0, i1, i2]);
    assert Behaviour(tr);
    assert forall k :: 0 <= k < 3 ==> Steady(tr.states[k], tr.inputs[k]);
  }
}
