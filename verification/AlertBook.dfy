/**
 The alert list. `Flags` is the abstraction the lifecycle proofs work with: the set of alert types that
 are active for one agent.
 */
module AlertBook {
  import opened Basics
  import opened PublicModel
  import opened AgentModel

  predicate Names(l: Alert, typ: AlertType, key: SessionKey, turn: Option<string>) {
    l.typ == typ && l.key == key && l.turn == turn
  }

  /** Index of the first alert with this name, or the length of the list. */
  function FindAlert(alerts: seq<Alert>, typ: AlertType, key: SessionKey, turn: Option<string>): (i: nat)
    ensures i <= |alerts|
    ensures i < |alerts| ==> Names(alerts[i], typ, key, turn)
    ensures forall k :: 0 <= k < i ==> !Names(alerts[k], typ, key, turn)
  {
    if alerts == [] || Names(alerts[0], typ, key, turn) then 0
    else
      var j := FindAlert(alerts[1..], typ, key, turn);
      assert forall k :: 0 < k < 1 + j ==> alerts[k] == alerts[1..][k - 1];
      1 + j
  }

  function Raised(l: Alert, at: Time, high: Option<Time>, retain: Option<Time>): Alert {
    l.(active := true, updatedAt := at,
       highUntil := if high.Some? then high else l.highUntil,
       retainUntil := if retain.Some? then retain else l.retainUntil)
  }

  /** Reactivate the alert with this name, or append it. */
  function Upsert(alerts: seq<Alert>, typ: AlertType, key: SessionKey, turn: Option<string>, at: Time,
                  high: Option<Time>, retain: Option<Time>): seq<Alert>
  {
    var i := FindAlert(alerts, typ, key, turn);
    if i < |alerts| then alerts[i := Raised(alerts[i], at, high, retain)]
    else alerts + [Alert(typ, key, turn, true, at, at, high, retain)]
  }

  /** A missing `turn` resolves the type for every turn. */
  predicate Resolves(l: Alert, typ: AlertType, key: SessionKey, turn: Option<string>) {
    l.active && l.typ == typ && l.key == key && (turn.Some? ==> l.turn == turn)
  }

  function Lowered(l: Alert, at: Time): Alert {
    l.(active := false, updatedAt := at)
  }

  function Resolve(alerts: seq<Alert>, typ: AlertType, key: SessionKey, turn: Option<string>, at: Time): (r: seq<Alert>)
    ensures |r| == |alerts|
  {
    seq(|alerts|, i requires 0 <= i < |alerts| =>
      if Resolves(alerts[i], typ, key, turn) then Lowered(alerts[i], at) else alerts[i])
  }

  function ResolveAll(alerts: seq<Alert>, key: SessionKey, at: Time): (r: seq<Alert>)
    ensures |r| == |alerts|
  {
    seq(|alerts|, i requires 0 <= i < |alerts| =>
      if alerts[i].active && alerts[i].key == key then Lowered(alerts[i], at) else alerts[i])
  }

  // ---------- the abstraction ----------

  ghost function Flags(alerts: seq<Alert>, key: SessionKey): set<AlertType> {
    set i | 0 <= i < |alerts| && alerts[i].active && alerts[i].key == key :: alerts[i].typ
  }

  /** At most one alert per (type, agent, turn). */
  ghost predicate Unique(alerts: seq<Alert>) {
    forall i, j :: 0 <= i < j < |alerts| ==> !Names(alerts[j], alerts[i].typ, alerts[i].key, alerts[i].turn)
  }

  /** Every active alert of the agent is for turn `turn`. */
  ghost predicate AllFor(alerts: seq<Alert>, key: SessionKey, turn: string) {
    forall i :: 0 <= i < |alerts| && alerts[i].active && alerts[i].key == key ==> alerts[i].turn == Some(turn)
  }

  /** Other agents' alerts did not move. */
  ghost predicate SameElsewhere(before: seq<Alert>, after: seq<Alert>, key: SessionKey) {
    forall k: SessionKey :: k != key ==>
      Flags(after, k) == Flags(before, k) && (forall turn :: AllFor(before, k, turn) ==> AllFor(after, k, turn))
  }

  /** What an edit of one agent's alerts must establish. */
  ghost predicate Edits(before: seq<Alert>, after: seq<Alert>, key: SessionKey, turn: string, flags: set<AlertType>) {
    && Unique(after)
    && SameElsewhere(before, after, key)
    && AllFor(after, key, turn)
    && Flags(after, key) == flags
  }

  /** An in-place rewrite that keeps names keeps uniqueness; what it does to the flags is seen index by index. */
  lemma FlagsByIndex(before: seq<Alert>, after: seq<Alert>, k: SessionKey)
    requires |after| == |before|
    requires forall i :: 0 <= i < |before| ==> after[i].key == before[i].key && after[i].typ == before[i].typ
    requires forall i :: 0 <= i < |before| && before[i].key == k ==> after[i].active == before[i].active
    ensures Flags(after, k) == Flags(before, k)
  {
    forall t | t in Flags(before, k) ensures t in Flags(after, k) {
      var i :| 0 <= i < |before| && before[i].active && before[i].key == k && before[i].typ == t;
      assert after[i].active && after[i].key == k && after[i].typ == t;
    }
    forall t | t in Flags(after, k) ensures t in Flags(before, k) {
      var i :| 0 <= i < |after| && after[i].active && after[i].key == k && after[i].typ == t;
      assert before[i].active && before[i].key == k && before[i].typ == t;
    }
  }

  lemma LoweringKeepsElsewhere(before: seq<Alert>, after: seq<Alert>, key: SessionKey, at: Time)
    requires |after| == |before|
    requires forall i :: 0 <= i < |before| ==>
               after[i] == before[i] || (before[i].key == key && after[i] == Lowered(before[i], at))
    ensures SameElsewhere(before, after, key)
    ensures Unique(before) ==> Unique(after)
  {
    forall k: SessionKey | k != key
      ensures Flags(after, k) == Flags(before, k)
      ensures forall turn :: AllFor(before, k, turn) ==> AllFor(after, k, turn)
    {
      FlagsByIndex(before, after, k);
      forall turn | AllFor(before, k, turn) ensures AllFor(after, k, turn) {
        assert forall i :: 0 <= i < |after| && after[i].active && after[i].key == k ==> after[i] == before[i];
      }
    }
  }

  lemma ResolveEdits(alerts: seq<Alert>, typ: AlertType, key: SessionKey, turn: string, arg: Option<string>, at: Time)
    requires Unique(alerts) && AllFor(alerts, key, turn) && (arg == None || arg == Some(turn))
    ensures Edits(alerts, Resolve(alerts, typ, key, arg, at), key, turn, Flags(alerts, key) - {typ})
  {
    var after := Resolve(alerts, typ, key, arg, at);
    LoweringKeepsElsewhere(alerts, after, key, at);
    forall t | t in Flags(alerts, key) - {typ} ensures t in Flags(after, key) {
      var i :| 0 <= i < |alerts| && alerts[i].active && alerts[i].key == key && alerts[i].typ == t;
      assert after[i] == alerts[i];
    }
    forall t | t in Flags(after, key) ensures t in Flags(alerts, key) - {typ} {
      var i :| 0 <= i < |after| && after[i].active && after[i].key == key && after[i].typ == t;
      assert after[i] == alerts[i] && alerts[i].turn == Some(turn);
    }
  }

  lemma ResolveAllEdits(alerts: seq<Alert>, key: SessionKey, turn: string, at: Time)
    requires Unique(alerts)
    ensures Edits(alerts, ResolveAll(alerts, key, at), key, turn, {})
  {
    var after := ResolveAll(alerts, key, at);
    LoweringKeepsElsewhere(alerts, after, key, at);
    assert forall i :: 0 <= i < |after| ==> !(after[i].active && after[i].key == key);
    assert Flags(after, key) == {};
  }

  lemma UpsertEdits(alerts: seq<Alert>, typ: AlertType, key: SessionKey, turn: string, at: Time,
                    high: Option<Time>, retain: Option<Time>)
    requires Unique(alerts) && AllFor(alerts, key, turn)
    ensures Edits(alerts, Upsert(alerts, typ, key, Some(turn), at, high, retain), key, turn, Flags(alerts, key) + {typ})
  {
    var after := Upsert(alerts, typ, key, Some(turn), at, high, retain);
    var n := FindAlert(alerts, typ, key, Some(turn));
    assert after[n].active && after[n].key == key && after[n].typ == typ;
    assert forall i :: 0 <= i < |alerts| && i != n ==> after[i] == alerts[i];
    forall k: SessionKey, t | t in Flags(alerts, k) ensures t in Flags(after, k) {
      var i :| 0 <= i < |alerts| && alerts[i].active && alerts[i].key == k && alerts[i].typ == t;
      assert after[i].active && after[i].key == k && after[i].typ == t;
    }
    forall k: SessionKey, t | t in Flags(after, k) && !(k == key && t == typ) ensures t in Flags(alerts, k) {
      var i :| 0 <= i < |after| && after[i].active && after[i].key == k && after[i].typ == t;
      assert i != n && after[i] == alerts[i];
    }
    assert Flags(after, key) == Flags(alerts, key) + {typ};
    forall k: SessionKey | k != key ensures Flags(after, k) == Flags(alerts, k) {}
  }

  lemma EditsTrans(a: seq<Alert>, b: seq<Alert>, c: seq<Alert>, key: SessionKey, turn: string,
                   f: set<AlertType>, g: set<AlertType>)
    requires Edits(a, b, key, turn, f) && Edits(b, c, key, turn, g)
    ensures Edits(a, c, key, turn, g)
  {
  }
}
