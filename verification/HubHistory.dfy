/**
 Whole runs of the hub store. Packets are arbitrary here: they may be forged, replayed, reordered or
 duplicated, and the operator may acknowledge cards at any point in between.
 */
module HubHistory {
  import opened Basics
  import opened PublicModel
  import opened HubStore

  datatype Arrival = Arrival(packet: Envelope, at: Time)

  /** A node record together with the packets it accepted, oldest first. */
  datatype Logged = Logged(rec: Record, log: seq<Envelope>)

  function Receive(l: Logged, a: Arrival): Logged {
    Logged(Commit(l.rec, a.packet, a.at),
           if Judge(l.rec, a.packet, a.at) == Accepted then l.log + [a.packet] else l.log)
  }

  function Replay(arrivals: seq<Arrival>): Logged {
    if arrivals == [] then Logged(EMPTY_RECORD, [])
    else Receive(Replay(arrivals[..|arrivals| - 1]), arrivals[|arrivals| - 1])
  }

  /** Within a session sequences rise strictly, and a session's packets form one contiguous block. */
  ghost predicate Ordered(log: seq<Envelope>) {
    forall i, j :: 0 <= i < j < |log| && log[i].session == log[j].session ==>
      && log[i].sequence < log[j].sequence
      && forall k :: i <= k <= j ==> log[k].session == log[i].session
  }

  /** The record holds the newest accepted packet, and has retired every session before its own. */
  ghost predicate Faithful(l: Logged) {
    && Ordered(l.log)
    && (l.log == [] ==> l.rec == EMPTY_RECORD)
    && (l.log != [] ==>
          var last := l.log[|l.log| - 1];
          && l.rec.state == Some(last.state)
          && l.rec.ingest == Some(IngestOf(last))
          && l.rec.lastReceivedAt.Some?
          && l.rec.lastReceivedAt.value - last.state.generatedAt <= ADMISSION_WINDOW
          && last.session !in l.rec.retired
          && (forall k :: 0 <= k < |l.log| && l.log[k].session != last.session ==> l.log[k].session in l.rec.retired)
          && (forall s :: s in l.rec.retired ==> exists k :: 0 <= k < |l.log| && l.log[k].session == s))
  }

  lemma {:induction false} ReceiveKeepsFaithful(l: Logged, a: Arrival)
    requires Faithful(l)
    ensures Faithful(Receive(l, a))
  {
    if Judge(l.rec, a.packet, a.at) == Accepted {
      var log := l.log + [a.packet];
      var n := |l.log|;
      forall i, j | 0 <= i < j < |log| && log[i].session == log[j].session
        ensures log[i].sequence < log[j].sequence && forall k :: i <= k <= j ==> log[k].session == log[i].session
      {
        if j < n {
          assert l.log[i].session == l.log[j].session;
        } else {
          assert l.log[i].session == l.log[n - 1].session;
          if i < n - 1 {
            assert l.log[i].sequence < l.log[n - 1].sequence;
          }
        }
      }
      var retired := Receive(l, a).rec.retired;
      forall s | s in retired ensures exists k :: 0 <= k < |log| && log[k].session == s {
        if s in l.rec.retired {
          var k :| 0 <= k < |l.log| && l.log[k].session == s;
          assert log[k].session == s;
        } else {
          assert log[n - 1].session == s;
        }
      }
    }
  }

  lemma {:induction false} ReplayFaithful(arrivals: seq<Arrival>)
    ensures Faithful(Replay(arrivals))
  {
    if arrivals != [] {
      ReplayFaithful(arrivals[..|arrivals| - 1]);
      ReceiveKeepsFaithful(Replay(arrivals[..|arrivals| - 1]), arrivals[|arrivals| - 1]);
    }
  }

  /** Over every run, accepted (session, sequence) tuples are pairwise distinct and come in ordered blocks. */
  lemma {:induction false} AcceptedTuples(arrivals: seq<Arrival>)
    ensures Ordered(Replay(arrivals).log)
    ensures forall i, j :: 0 <= i < j < |Replay(arrivals).log| ==>
              (Replay(arrivals).log[i].session, Replay(arrivals).log[i].sequence)
              != (Replay(arrivals).log[j].session, Replay(arrivals).log[j].sequence)
  {
    ReplayFaithful(arrivals);
  }

  /**
   After any run, a packet accepted earlier in it can arrive again at any instant without touching the
   state, the ordering metadata or the retired set. Only the newest one may refresh liveness, and only
   inside its admission window.
   */
  lemma {:induction false} RedeliveryIsInert(arrivals: seq<Arrival>, p: Envelope, at: Time)
    requires p in Replay(arrivals).log
    ensures var before := Replay(arrivals);
            var after := Replay(arrivals + [Arrival(p, at)]);
            && after.log == before.log
            && after.rec == before.rec.(lastReceivedAt := after.rec.lastReceivedAt)
            && (after.rec.lastReceivedAt != before.rec.lastReceivedAt ==>
                  && p == before.log[|before.log| - 1]
                  && after.rec.lastReceivedAt == Some(at)
                  && at - p.state.generatedAt <= ADMISSION_WINDOW)
  {
    ReplayFaithful(arrivals);
    var l := Replay(arrivals);
    var k :| 0 <= k < |l.log| && l.log[k] == p;
    var n := |l.log|;
    assert (arrivals + [Arrival(p, at)])[..|arrivals|] == arrivals;
    if k < n - 1 && p.session == l.log[n - 1].session {
      assert l.log[k].sequence < l.log[n - 1].sequence;
    }
  }

  // ---------- runs of the whole store ----------

  datatype HubInput =
    | Deliver(node: string, packet: Envelope, at: Time)
    | MarkRead(host: string, target: string, id: TaskId, when: Time)

  function HubStep(h: Hub, i: HubInput): Hub {
    match i
    case Deliver(node, p, at) => Applied(h, node, p, at)
    case MarkRead(host, target, id, at) => Marked(h, host, target, id, at)
  }

  function HubRun(h: Hub, inputs: seq<HubInput>): Hub {
    if inputs == [] then h
    else HubStep(HubRun(h, inputs[..|inputs| - 1]), inputs[|inputs| - 1])
  }

  function Boot(order: seq<string>): Hub {
    Hub(map id | id in order :: EMPTY_RECORD, map[])
  }

  function ArrivalsFor(inputs: seq<HubInput>, host: string): seq<Arrival> {
    if inputs == [] then []
    else
      var last := inputs[|inputs| - 1];
      ArrivalsFor(inputs[..|inputs| - 1], host)
      + if last.Deliver? && last.node == host then [Arrival(last.packet, last.at)] else []
  }

  /** Hosts do not interfere: a host's record depends only on the packets delivered for that host. */
  lemma {:induction false} HostIsolation(order: seq<string>, inputs: seq<HubInput>, host: string)
    requires host in order
    ensures host in HubRun(Boot(order), inputs).records
    ensures HubRun(Boot(order), inputs).records[host] == Replay(ArrivalsFor(inputs, host)).rec
  {
    if inputs != [] {
      var front, last := inputs[..|inputs| - 1], inputs[|inputs| - 1];
      HostIsolation(order, front, host);
      if last.Deliver? && last.node == host {
        var a := Arrival(last.packet, last.at);
        assert (ArrivalsFor(front, host) + [a])[..|ArrivalsFor(front, host)|] == ArrivalsFor(front, host);
      } else {
        assert ArrivalsFor(inputs, host) == ArrivalsFor(front, host);
      }
    }
  }

  /**
   After any run, whatever a dashboard read shows as fresh was generated at most 35 s before the read,
   and whatever it shows at all at most 30 min 30 s before it, retried duplicates included.
   */
  lemma {:induction false} FreshnessBound(order: seq<string>, inputs: seq<HubInput>, host: string, now: Time)
    requires host in order
    ensures host in HubRun(Boot(order), inputs).records
    ensures var v := ViewHost(HubRun(Boot(order), inputs), host, now);
            && (v.isFresh ==> v.state.Some? && now - v.state.value.generatedAt <= 35 * SECOND)
            && (v.state.Some? ==> now - v.state.value.generatedAt <= 30 * MINUTE + 30 * SECOND)
  {
    HostIsolation(order, inputs, host);
    ReplayFaithful(ArrivalsFor(inputs, host));
  }

  /** Input `i` makes the hub accept, for `host`, a snapshot without the task. */
  predicate Omits(h: Hub, i: HubInput, host: string, id: TaskId) {
    && i.Deliver? && i.node == host && host in h.records
    && Judge(h.records[host], i.packet, i.at) == Accepted
    && id !in TaskIds(i.packet.state.tasks)
  }

  predicate Acknowledged(h: Hub, host: string, id: TaskId) {
    id in AcksOf(h.readAcks, host)
  }

  lemma {:induction false} OverlayStep(h: Hub, i: HubInput, host: string, id: TaskId)
    requires Acknowledged(h, host, id)
    ensures Acknowledged(HubStep(h, i), host, id) <==> !Omits(h, i, host, id)
  {
    if i.Deliver? && i.node == host && host in h.records && Judge(h.records[host], i.packet, i.at) == Accepted {
      assert AcksOf(HubStep(h, i).readAcks, host)
          == map x | x in h.readAcks[host] && x in TaskIds(i.packet.state.tasks) :: h.readAcks[host][x];
    }
  }

  /** An acknowledged card stays acknowledged, and shown as read, through any run that never omits it. */
  lemma {:induction false} OverlayPersists(h: Hub, inputs: seq<HubInput>, host: string, id: TaskId, now: Time)
    requires Acknowledged(h, host, id)
    requires forall k :: 0 <= k < |inputs| ==> !Omits(HubRun(h, inputs[..k]), inputs[k], host, id)
    ensures var end := HubRun(h, inputs);
            && Acknowledged(end, host, id)
            && (host in end.records && ViewHost(end, host, now).state.Some? ==>
                  forall t :: t in ViewHost(end, host, now).state.value.tasks && t.id == id ==> !t.unread)
  {
    if inputs != [] {
      var n := |inputs| - 1;
      var front := inputs[..n];
      assert forall k :: 0 <= k < n ==> front[..k] == inputs[..k];
      OverlayPersists(h, front, host, id, now);
      OverlayStep(HubRun(h, front), inputs[n], host, id);
    }
  }
}
