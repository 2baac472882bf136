/** The node's state store: commits advance a revision and leave at most one pending wake for the uplink. */
module StateStore {
  import opened Basics
  import opened AgentModel
  import opened ReducerModel

  class Store {
    var state: Root
    var revision: nat
    var wake: bool

    constructor (initial: Root)
      ensures state == initial && revision == 0 && !wake
    {
      state := initial;
      revision := 0;
      wake := false;
    }

    function View(): Shelf
      reads this
    {
      Shelf(state, revision, wake)
    }

    /** Commit the result of a mutation; `None` is one that failed, which leaves no trace. */
    method Update(change: Root -> Option<Root>) returns (ok: bool)
      modifies this
      ensures ok == change(old(state)).Some?
      ensures View() == Updated(old(View()), change)
    {
      var next := change(state);
      if next.None? {
        return false;
      }
      state := next.value;
      NotifyChanged();
      return true;
    }

    method UpdateIf(needed: Root -> bool, change: Root -> Option<Root>) returns (ok: bool)
      modifies this
      ensures ok == (needed(old(state)) ==> change(old(state)).Some?)
      ensures View() == if needed(old(state)) then Updated(old(View()), change) else old(View())
    {
      if !needed(state) {
        return true;
      }
      ok := Update(change);
    }

    method NotifyChanged()
      modifies this`revision, this`wake
      ensures revision == old(revision) + 1 && wake
    {
      revision := revision + 1;
      wake := true;
    }

    /** The consumer takes the pending wake, if there is one. */
    method TakeWake() returns (woken: bool)
      modifies this`wake
      ensures !wake && woken == old(wake)
    {
      woken := wake;
      wake := false;
    }
  }

  // ---------- no change goes unnoticed ----------

  datatype Shelf = Shelf(state: Root, revision: nat, wake: bool)

  function Updated(s: Shelf, change: Root -> Option<Root>): Shelf {
    var next := change(s.state);
    if next.Some? then Shelf(next.value, s.revision + 1, true) else s
  }

  /** A store and its consumer, who remembers whether it was woken since it last read, and what it read. */
  datatype Pair = Pair(shelf: Shelf, woken: bool, read: Root, readRevision: nat)

  datatype Input =
    | Write(needed: Root -> bool, change: Root -> Option<Root>)
    | Take   // the consumer takes the pending wake
    | Look   // the consumer reads the state, at whatever point after taking the wake

  function Step(p: Pair, i: Input): Pair {
    match i
    case Write(needed, change) => if needed(p.shelf.state) then p.(shelf := Updated(p.shelf, change)) else p
    case Take => p.(shelf := p.shelf.(wake := false), woken := p.woken || p.shelf.wake)
    case Look => Pair(p.shelf, false, p.shelf.state, p.shelf.revision)
  }

  function Run(initial: Root, inputs: seq<Input>): Pair {
    if inputs == [] then Pair(Shelf(initial, 0, false), false, initial, 0)
    else Step(Run(initial, inputs[..|inputs| - 1]), inputs[|inputs| - 1])
  }

  /**
   However bursts collapse and however late the consumer reads: when no wake is pending and none was taken
   without a read after it, the consumer has read the latest commit.
   */
  lemma {:induction false} NoLostWake(initial: Root, inputs: seq<Input>)
    ensures var p := Run(initial, inputs);
            && p.readRevision <= p.shelf.revision
            && (p.readRevision < p.shelf.revision ==> p.shelf.wake || p.woken)
            && (!p.shelf.wake && !p.woken ==> p.read == p.shelf.state && p.readRevision == p.shelf.revision)
  {
    if inputs != [] {
      NoLostWake(initial, inputs[..|inputs| - 1]);
    }
  }

  // ---------- maintenance through the store ----------

  function NeedsMaintenance(cfg: Config, now: Time): Root -> bool {
    (root: Root) => MaintenanceNeeded(cfg, root, now)
  }

  function Maintain(cfg: Config, now: Time): Root -> Option<Root> {
    (root: Root) => Some(Maintained(cfg, root, now))
  }

  /** A maintenance tick is a commit, and wakes the uplink, exactly when it changes something. */
  lemma MaintenanceWakesIffChanged(cfg: Config, now: Time, p: Pair)
    ensures var q := Step(p, Write(NeedsMaintenance(cfg, now), Maintain(cfg, now)));
            && (q.shelf.revision == p.shelf.revision + 1 <==> Maintained(cfg, p.shelf.state, now) != p.shelf.state)
            && q.shelf.state == Maintained(cfg, p.shelf.state, now)
            && Step(q, Write(NeedsMaintenance(cfg, now), Maintain(cfg, now))) == q
  {
    MaintenanceGuardExact(cfg, p.shelf.state, now);
  }
}
