/** What a node has sent, the hub takes: the path of a new snapshot from the turn that is due to the hub's record. */
module SnapshotAnswers {
  import opened Basics
  import opened PublicModel
  import opened HubStore
  import opened HubHistory
  import opened Uplink
  import opened SnapshotProtocol
  import HubAnswers

  /** The turn is due and builds a new envelope. */
  predicate SendsNew(nodeId: string, s: System, i: Input) {
    i.Loop? && Due(s.node, i.turn) && !Retains(s.node, i.turn) && i.turn.cycle.pub.hostId == nodeId
  }

  /** The hub knows the node's session as its newest, or not at all and nothing younger. */
  ghost predicate Awaits(log: seq<Envelope>, env: Envelope) {
    log == [] ||
    var newest := log[|log| - 1];
    newest.session == env.session || (HubAnswers.NewSession(log, env.session) && newest.state.generatedAt <= env.state.generatedAt)
  }

  /** A new envelope is later in its session than everything the hub has from that session. */
  lemma NewEnvelopeGoesOn(nodeId: string, s: System, i: Input, env: Envelope)
    requires Sound(s) && Enabled(s, i) && SendsNew(nodeId, s, i) && Sends(nodeId, s.node, i.turn, env) && Awaits(s.hub.log, env)
    ensures HubAnswers.GoesOn(s.hub.log, env)
  {
    if s.hub.log != [] {
      var newest := s.hub.log[|s.hub.log| - 1];
      assert newest in s.sent;
      DueDecides(s.node, i.turn);
    }
  }

  /**
   In every behaviour: a turn that is due sends what the node's state is then, and when that arrives next, at most 30 s
   later by the hub's clock, at a hub that awaits it, it becomes the hub's state and a sign of life.
   */
  lemma DueSnapshotIsTaken(tr: Trace, k: nat, at: Time)
    requires Behaviour(tr) && k + 1 < |tr.inputs| && SendsNew(tr.nodeId, tr.states[k], tr.inputs[k])
    requires var sent := LoopTurn(tr.nodeId, tr.states[k].node, tr.inputs[k].turn).sent;
             sent.Some? ==> tr.inputs[k + 1] == Arrive(sent.value, at) && Awaits(tr.states[k].hub.log, sent.value)
    requires at - tr.inputs[k].turn.cycle.builtAt <= 30 * SECOND
    ensures var t, hub := tr.inputs[k].turn, tr.states[k + 2].hub;
            && |hub.log| == |tr.states[k].hub.log| + 1
            && hub.rec.state == Some(t.cycle.pub.(generatedAt := t.cycle.builtAt)) && hub.rec.lastReceivedAt == Some(at)
  {
    var s, i := tr.states[k], tr.inputs[k];
    AlwaysSound(tr, k);
    SendsIff(tr.nodeId, s.node, i.turn);
    var env := LoopTurn(tr.nodeId, s.node, i.turn).sent.value;
    NewEnvelopeGoesOn(tr.nodeId, s, i, env);
    HubAnswers.PacketIsTaken(s.hub, env, at);
    assert tr.states[k + 1].hub == s.hub && tr.states[k + 2].hub == Receive(s.hub, Arrival(env, at)) by {
      assert tr.states[k + 1] == Step(tr.nodeId, s, i) && tr.states[k + 1 + 1] == Step(tr.nodeId, tr.states[k + 1], tr.inputs[k + 1]);
    }
  }
}
