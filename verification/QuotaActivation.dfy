/**
 The quota activator: daily slots are claimed, run at most one at a time, and recorded in a bounded
 ledger that survives configuration reloads.
 */
module QuotaActivation {
  import opened Basics
  import opened ConfigText

  /**
   A slot is one minute of one day in the activator's fixed-offset zone, counted from an epoch. Its text
   key is the date followed by the clock time, so keys sort the way slots do.
   */
  type Slot = int

  const MINUTES_PER_DAY := 1440
  const GRACE: Time := 2 * MINUTE
  const LEDGER_LIMIT := 32

  function Anchor(s: Slot): Time {
    s * MINUTE
  }

  /** A daily schedule entry: a minute of the day, or text that does not parse as a clock time. */
  datatype Schedule = Clock(minute: nat) | Unparseable

  function DigitValue(c: char): nat
    requires IsDigit(c)
  {
    c as int - '0' as int
  }

  /** A clock time as the time library reads it: one or two digits, a colon, two digits, and nothing else. */
  function ParseClock(s: string): Option<nat> {
    if s == "" || !IsDigit(s[0]) then None
    else
      var two := |s| > 1 && IsDigit(s[1]);
      var hour := if two then 10 * DigitValue(s[0]) + DigitValue(s[1]) else DigitValue(s[0]);
      var rest := if two then s[2..] else s[1..];
      if hour >= 24 || |rest| != 3 || rest[0] != ':' || !IsDigit(rest[1]) || !IsDigit(rest[2]) then None
      else
        var minute := 10 * DigitValue(rest[1]) + DigitValue(rest[2]);
        if minute < 60 then Some(60 * hour + minute) else None
  }

  /** What the activator makes of a configured time. */
  function ScheduleOf(text: string): (s: Schedule)
    ensures s.Clock? ==> s.minute < MINUTES_PER_DAY
  {
    match ParseClock(Trim(text))
    case None => Unparseable
    case Some(minute) => Clock(minute)
  }

  function SchedulesOf(texts: seq<string>): seq<Schedule> {
    seq(|texts|, i requires 0 <= i < |texts| => ScheduleOf(texts[i]))
  }

  /** The newest instant of the entry that is not in the future: today's, or else yesterday's. */
  function LatestDue(now: Time, minute: nat): Slot {
    var today := now / (MINUTES_PER_DAY * MINUTE);
    var s := today * MINUTES_PER_DAY + minute;
    if Anchor(s) <= now then s else s - MINUTES_PER_DAY
  }

  /** The due slot lies within the last day, so it is the only slot of its entry that can be due. */
  lemma LatestDueIsLatest(now: Time, minute: nat)
    requires minute < MINUTES_PER_DAY
    ensures Anchor(LatestDue(now, minute)) <= now < Anchor(LatestDue(now, minute) + MINUTES_PER_DAY)
  {
    var day := MINUTES_PER_DAY * MINUTE;
    var today := now / day;
    assert now == today * day + now % day;
    assert Anchor(today * MINUTES_PER_DAY + minute) == today * day + minute * MINUTE;
  }

  /** `slot` is the newest one of the entry's daily slots that is not in the future. */
  predicate NewestDue(now: Time, minute: nat, slot: Slot) {
    slot % 1440 == minute && slot * (60 * SECOND) <= now < (slot + 1440) * (60 * SECOND)
  }

  lemma LatestIsNewestDue(now: Time, minute: nat, slot: Slot)
    requires minute < 1440
    ensures NewestDue(now, minute, slot) <==> slot == LatestDue(now, minute)
  {
    LatestDueIsLatest(now, minute);
    var latest := LatestDue(now, minute);
    assert latest % 1440 == minute;
    if NewestDue(now, minute, slot) {
      assert (slot - latest) % 1440 == 0 && -1440 < slot - latest < 1440;
    }
  }

  // ---------- claim, finish, release ----------

  datatype Engine = Engine(activeCycle: bool, activeAnchor: Option<Slot>, fired: set<Slot>)

  datatype Claim = Claimed | Busy | AlreadyFired

  function ClaimOf(e: Engine, key: Slot): Claim {
    if e.activeCycle then Busy else if key in e.fired then AlreadyFired else Claimed
  }

  function AfterClaim(e: Engine, key: Slot): Engine {
    if ClaimOf(e, key) == Claimed then e.(activeCycle := true, activeAnchor := Some(key)) else e
  }

  function AfterFinish(e: Engine, key: Slot): Engine {
    if e.activeAnchor == Some(key) then Engine(false, None, e.fired + {key}) else e
  }

  function AfterRelease(e: Engine, key: Slot): Engine {
    if e.activeAnchor == Some(key) then e.(activeCycle := false, activeAnchor := None) else e
  }

  datatype Considered = Considered(engine: Engine, started: Option<Slot>)

  /** One schedule entry of a tick. The claim comes before the grace check. */
  function Consider(e: Engine, now: Time, s: Schedule): Considered {
    match s
    case Unparseable => Considered(e, None)
    case Clock(minute) =>
      var key := LatestDue(now, minute);
      if ClaimOf(e, key) != Claimed then Considered(e, None)
      else if now - Anchor(key) > GRACE then Considered(AfterRelease(AfterClaim(e, key), key), None)
      else Considered(AfterClaim(e, key), Some(key))
  }

  /** The entries from number `i` on; a started cycle ends the tick. */
  function TickFrom(e: Engine, now: Time, schedules: seq<Schedule>, i: nat): Considered
    requires i <= |schedules|
    decreases |schedules| - i
  {
    if i == |schedules| then Considered(e, None)
    else
      var c := Consider(e, now, schedules[i]);
      if c.started.Some? then c else TickFrom(c.engine, now, schedules, i + 1)
  }

  // ---------- what a tick must start ----------

  /** The entry's newest due slot is at most two minutes old and not in the ledger. */
  predicate CanStart(now: Time, fired: set<Slot>, s: Schedule, slot: Slot) {
    s.Clock? && NewestDue(now, s.minute, slot) && now - slot * (60 * SECOND) <= 120 * SECOND && slot !in fired
  }

  ghost predicate Startable(now: Time, fired: set<Slot>, s: Schedule) {
    exists slot :: CanStart(now, fired, s, slot)
  }

  ghost predicate Minutes(schedules: seq<Schedule>) {
    forall s :: s in schedules && s.Clock? ==> s.minute < 1440
  }

  /** A busy runtime starts nothing; an idle one starts the first entry that can be started, if there is one. */
  ghost predicate StartsFirst(now: Time, e: Engine, schedules: seq<Schedule>, from: nat, started: Option<Slot>)
    requires from <= |schedules|
  {
    match started
    case None => e.activeCycle || forall i :: from <= i < |schedules| ==> !Startable(now, e.fired, schedules[i])
    case Some(slot) =>
      && !e.activeCycle
      && exists i :: from <= i < |schedules| && CanStart(now, e.fired, schedules[i], slot)
                     && forall k :: from <= k < i ==> !Startable(now, e.fired, schedules[k])
  }

  lemma ConsiderStarts(e: Engine, now: Time, s: Schedule)
    requires s.Clock? ==> s.minute < 1440
    ensures var c := Consider(e, now, s);
            && (c.started.Some? <==> !e.activeCycle && Startable(now, e.fired, s))
            && (c.started.Some? ==> CanStart(now, e.fired, s, c.started.value)
                                    && c.engine == Engine(true, c.started, e.fired))
            && (c.started.None? ==> c.engine.activeCycle == e.activeCycle && c.engine.fired == e.fired)
            && (c.started.None? && (e.activeCycle || e.activeAnchor.None?) ==> c.engine == e)
  {
    if s.Clock? {
      var latest := LatestDue(now, s.minute);
      forall slot ensures NewestDue(now, s.minute, slot) <==> slot == latest {
        LatestIsNewestDue(now, s.minute, slot);
      }
      assert Startable(now, e.fired, s) <==> CanStart(now, e.fired, s, latest);
    }
  }

  lemma {:induction false} TickStartsFirst(e: Engine, now: Time, schedules: seq<Schedule>, i: nat)
    requires i <= |schedules| && Minutes(schedules)
    ensures StartsFirst(now, e, schedules, i, TickFrom(e, now, schedules, i).started)
    ensures TickFrom(e, now, schedules, i).started.Some? ==>
              TickFrom(e, now, schedules, i).engine == Engine(true, TickFrom(e, now, schedules, i).started, e.fired)
    ensures TickFrom(e, now, schedules, i).started.None? && (e.activeCycle || e.activeAnchor.None?) ==>
              TickFrom(e, now, schedules, i).engine == e
    decreases |schedules| - i
  {
    if i < |schedules| {
      assert schedules[i] in schedules;
      ConsiderStarts(e, now, schedules[i]);
      var c := Consider(e, now, schedules[i]);
      if c.started.None? {
        TickStartsFirst(c.engine, now, schedules, i + 1);
      }
    }
  }

  // ---------- the ledger ----------

  ghost function Above(fired: set<Slot>, key: Slot): set<Slot> {
    set x | x in fired && x > key
  }

  /** The greatest `LEDGER_LIMIT` keys: those with fewer than that many above them. */
  ghost function Newest(fired: set<Slot>): set<Slot> {
    set key | key in fired && |Above(fired, key)| < LEDGER_LIMIT
  }

  ghost predicate Ascending(keys: seq<Slot>) {
    forall i, j :: 0 <= i < j < |keys| ==> keys[i] < keys[j]
  }

  ghost function Members(keys: seq<Slot>): set<Slot> {
    set i | 0 <= i < |keys| :: keys[i]
  }

  lemma {:induction false} MembersCount(keys: seq<Slot>)
    requires Ascending(keys)
    ensures |Members(keys)| == |keys|
  {
    if keys != [] {
      var front, last := keys[..|keys| - 1], keys[|keys| - 1];
      MembersCount(front);
      assert Members(keys) == Members(front) + {last};
      assert last !in Members(front);
    }
  }

  /** In an ascending list, exactly the later positions are above. */
  lemma AboveCount(keys: seq<Slot>, i: nat)
    requires Ascending(keys) && i < |keys|
    ensures |Above(Members(keys), keys[i])| == |keys| - 1 - i
  {
    var tail := keys[i + 1..];
    MembersCount(tail);
    forall x | x in Above(Members(keys), keys[i]) ensures x in Members(tail) {
      var j :| 0 <= j < |keys| && keys[j] == x;
      assert tail[j - i - 1] == x;
    }
    assert Above(Members(keys), keys[i]) == Members(tail);
  }

  lemma {:induction false} BoundedSetSize(s: set<int>, low: int, high: int)
    requires low <= high && forall x :: x in s ==> low < x <= high
    ensures |s| <= high - low
    decreases high - low
  {
    if low == high {
      assert forall x :: x !in s;
    } else {
      var rest := s - {high};
      BoundedSetSize(rest, low, high - 1);
      assert s <= rest + {high};
    }
  }

  /** A forgotten slot is at least 32 minutes old: 32 distinct later slots had already come due. */
  lemma ForgottenIsOld(fired: set<Slot>, key: Slot, now: Time)
    requires key in fired && key !in Newest(fired)
    requires forall x :: x in fired ==> Anchor(x) <= now
    ensures Anchor(key + LEDGER_LIMIT) <= now
  {
    var s := Above(fired, key);
    var high := now / MINUTE;
    forall x | x in s ensures key < x <= high {
      assert Anchor(x) <= now;
    }
    assert Anchor(key) <= now;
    BoundedSetSize(s, key, high);
  }

  class Runtime {
    const schedules: seq<Schedule>
    var activeCycle: bool
    var activeAnchor: Option<Slot>
    var firedAnchors: set<Slot>

    function View(): Engine
      reads this
    {
      Engine(activeCycle, activeAnchor, firedAnchors)
    }

    constructor (schedules: seq<Schedule>, fired: seq<Slot>)
      ensures this.schedules == schedules
      ensures View() == Engine(false, None, Members(fired))
    {
      this.schedules := schedules;
      activeCycle := false;
      activeAnchor := None;
      firedAnchors := set i | 0 <= i < |fired| :: fired[i];
    }

    method ClaimCycle(key: Slot) returns (c: Claim)
      modifies this
      ensures c == ClaimOf(old(View()), key) && View() == AfterClaim(old(View()), key)
    {
      if activeCycle {
        return Busy;
      }
      if key in firedAnchors {
        return AlreadyFired;
      }
      activeCycle := true;
      activeAnchor := Some(key);
      return Claimed;
    }

    method FinishCycle(key: Slot)
      modifies this
      ensures View() == AfterFinish(old(View()), key)
    {
      if activeAnchor == Some(key) {
        firedAnchors := firedAnchors + {key};
        activeCycle := false;
        activeAnchor := None;
      }
    }

    method ReleaseCycle(key: Slot)
      modifies this
      ensures View() == AfterRelease(old(View()), key)
    {
      if activeAnchor == Some(key) {
        activeCycle := false;
        activeAnchor := None;
      }
    }

    /** One heartbeat; `started` is the slot whose cycle it launches. */
    method Tick(now: Time) returns (started: Option<Slot>)
      modifies this
      ensures Considered(View(), started) == TickFrom(old(View()), now, schedules, 0)
      ensures Minutes(schedules) ==> StartsFirst(now, old(View()), schedules, 0, started)
      ensures Minutes(schedules) && started.Some? ==> View() == Engine(true, started, old(firedAnchors))
    {
      if Minutes(schedules) {
        TickStartsFirst(View(), now, schedules, 0);
      }
      var i := 0;
      while i < |schedules|
        invariant i <= |schedules|
        invariant TickFrom(View(), now, schedules, i) == TickFrom(old(View()), now, schedules, 0)
      {
        var schedule := schedules[i];
        i := i + 1;
        if schedule.Clock? {
          var key := LatestDue(now, schedule.minute);
          var claim := ClaimCycle(key);
          if claim == Claimed {
            if now - Anchor(key) <= GRACE {
              return Some(key);
            }
            ReleaseCycle(key);
          }
        }
      }
      return None;
    }

    /** The ledger carried to the next runtime: the newest keys, oldest first. */
    method FiredAnchorKeys() returns (keys: seq<Slot>)
      ensures Ascending(keys) && |keys| <= LEDGER_LIMIT
      ensures Members(keys) == Newest(firedAnchors)
    {
      var rest := firedAnchors;
      var all: seq<Slot> := [];
      while rest != {}
        invariant rest <= firedAnchors && Members(all) == firedAnchors - rest
        invariant Ascending(all)
        invariant forall x, i :: x in rest && 0 <= i < |all| ==> all[i] < x
        decreases rest
      {
        var least := Least(rest);
        ghost var before := all;
        all := all + [least];
        assert Members(all) == Members(before) + {least} by {
          assert all[|before|] == least;
          assert forall i :: 0 <= i < |before| ==> all[i] == before[i];
        }
        rest := rest - {least};
      }
      assert Members(all) == firedAnchors;
      keys := all;
      if |all| > LEDGER_LIMIT {
        keys := all[|all| - LEDGER_LIMIT..];
      }
      assert keys == all[Max(0, |all| - LEDGER_LIMIT)..];
      NewestIsTail(all, Max(0, |all| - LEDGER_LIMIT));
    }
  }

  lemma SomeMember(s: set<int>)
    ensures s == {} || exists x :: x in s
  {
    if forall x :: x !in s {
      assert s == {};
    }
  }

  method Least(s: set<int>) returns (m: int)
    requires s != {}
    ensures m in s && forall x :: x in s ==> m <= x
  {
    SomeMember(s);
    m :| m in s;
    var todo := s - {m};
    while todo != {}
      invariant m in s && todo <= s
      invariant forall x :: x in s && x !in todo ==> m <= x
      decreases todo
    {
      SomeMember(todo);
      var x :| x in todo;
      if x < m {
        m := x;
      }
      todo := todo - {x};
    }
  }

  /** Position decides membership in the carried ledger. */
  lemma NewestByPosition(all: seq<Slot>, i: nat)
    requires Ascending(all) && i < |all|
    ensures all[i] in Newest(Members(all)) <==> |all| - 1 - i < LEDGER_LIMIT
  {
    AboveCount(all, i);
  }

  lemma TailIsNewest(all: seq<Slot>, skip: nat, x: Slot)
    requires Ascending(all) && skip == Max(0, |all| - LEDGER_LIMIT) && x in Members(all[skip..])
    ensures x in Newest(Members(all))
  {
    var k :| 0 <= k < |all[skip..]| && all[skip..][k] == x;
    NewestByPosition(all, skip + k);
  }

  lemma NewestInTail(all: seq<Slot>, skip: nat, x: Slot)
    requires Ascending(all) && skip == Max(0, |all| - LEDGER_LIMIT) && x in Newest(Members(all))
    ensures x in Members(all[skip..])
  {
    var i :| 0 <= i < |all| && all[i] == x;
    NewestByPosition(all, i);
    assert all[skip..][i - skip] == x;
  }

  lemma NewestIsTail(all: seq<Slot>, skip: nat)
    requires Ascending(all) && skip == Max(0, |all| - LEDGER_LIMIT)
    ensures Ascending(all[skip..]) && Members(all[skip..]) == Newest(Members(all))
  {
    forall x ensures x in Members(all[skip..]) <==> x in Newest(Members(all)) {
      if x in Members(all[skip..]) {
        TailIsNewest(all, skip, x);
      } else if x in Newest(Members(all)) {
        NewestInTail(all, skip, x);
      }
    }
  }

  // ---------- reload ----------

  /** Closing a runtime stops its ticks and waits for the launched cycle, which then finishes. */
  function Closed(e: Engine): Engine {
    if e.activeAnchor.Some? then AfterFinish(e, e.activeAnchor.value) else e
  }

  /** What a reload compares: the zone, the configured times, and the other activation settings. */
  datatype Settings = Settings(zone: string, schedules: seq<string>, rest: int)

  /** The worker that owns the runtime across configuration changes; `settings` belong to the runtime. */
  class Activator {
    var runtime: Runtime?
    var settings: Settings
    var fired: seq<Slot>

    constructor (restored: seq<Slot>)
      ensures runtime == null && fired == restored
    {
      runtime := null;
      settings := Settings("", [], 0);
      fired := restored;
    }

    /** Apply a configuration read; `None` is one that fails to load, to validate, or is not a hub's. */
    method Reload(read: Option<Settings>) returns (replaced: bool)
      modifies this, runtime
      ensures replaced <==> read.Some? && (old(runtime) == null || old(settings) != read.value)
      ensures !replaced ==> runtime == old(runtime) && fired == old(fired) && settings == old(settings)
      ensures !replaced && runtime != null ==> runtime.View() == old(runtime.View())
      ensures replaced ==> runtime != null && fresh(runtime) && settings == read.value
      ensures replaced ==> runtime.schedules == SchedulesOf(read.value.schedules)
      ensures replaced ==> runtime.View() == Engine(false, None, Members(fired))
      ensures replaced && old(runtime) == null ==> fired == old(fired)
      ensures replaced && old(runtime) != null ==>
                |fired| <= LEDGER_LIMIT && Members(fired) == Newest(Closed(old(runtime.View())).fired)
    {
      if read.None? || (runtime != null && settings == read.value) {
        return false;
      }
      if runtime != null {
        if runtime.activeAnchor.Some? {
          runtime.FinishCycle(runtime.activeAnchor.value);
        }
        fired := runtime.FiredAnchorKeys();
      }
      settings := read.value;
      runtime := new Runtime(SchedulesOf(settings.schedules), fired);
      return true;
    }
  }

  // ---------- runs ----------

  /** `running` holds the launched cycles that have not returned, `runs` every cycle ever launched. */
  datatype Plant = Plant(engine: Engine, running: seq<Slot>, runs: seq<Slot>, clock: Time)

  datatype Input =
    | Look(now: Time, schedule: Schedule)   // one entry of one tick, under any configuration
    | Return(which: nat)                    // a launched cycle returns and is finished
    | Reload                                // close, wait for the launched cycle, carry the ledger over

  function Launch(p: Plant, c: Considered, now: Time): Plant {
    match c.started
    case None => p.(engine := c.engine, clock := now)
    case Some(key) => Plant(c.engine, p.running + [key], p.runs + [key], now)
  }

  function Returned(p: Plant, which: nat): Plant
    requires which < |p.running|
  {
    p.(engine := AfterFinish(p.engine, p.running[which]), running := p.running[..which] + p.running[which + 1..])
  }

  function Drained(p: Plant): Plant
    decreases |p.running|
  {
    if p.running == [] then p else Drained(Returned(p, 0))
  }

  ghost function Step(p: Plant, i: Input): Plant {
    match i
    case Look(now, s) => Launch(p, Consider(p.engine, now, s), now)
    case Return(which) => if which < |p.running| then Returned(p, which) else p
    case Reload => var q := Drained(p); q.(engine := Engine(false, None, Newest(q.engine.fired)))
  }

  predicate Enabled(p: Plant, i: Input) {
    i.Look? ==> p.clock <= i.now && (i.schedule.Clock? ==> i.schedule.minute < MINUTES_PER_DAY)
  }

  ghost function Run(p: Plant, inputs: seq<Input>): Plant {
    if inputs == [] then p else Step(Run(p, inputs[..|inputs| - 1]), inputs[|inputs| - 1])
  }

  ghost predicate Legal(p: Plant, inputs: seq<Input>) {
    forall k :: 0 <= k < |inputs| ==> Enabled(Run(p, inputs[..k]), inputs[k])
  }

  /** A launched slot is still running, is in the ledger, or can no longer be started. */
  ghost predicate Accounted(p: Plant, key: Slot) {
    key in p.engine.fired || p.engine.activeAnchor == Some(key) || p.clock > Anchor(key) + GRACE
  }

  ghost predicate Orderly(p: Plant) {
    && |p.running| <= 1
    && p.engine.activeCycle == (p.running != [])
    && p.engine.activeAnchor == (if p.running == [] then None else Some(p.running[0]))
    && (forall key :: key in p.engine.fired ==> Anchor(key) <= p.clock)
    && (forall key :: key in p.running ==> Anchor(key) <= p.clock)
    && (forall i :: 0 <= i < |p.runs| ==> Accounted(p, p.runs[i]))
    && Distinct(p.runs)
  }

  lemma LookKeepsOrderly(p: Plant, now: Time, s: Schedule)
    requires Orderly(p) && Enabled(p, Look(now, s))
    ensures Orderly(Step(p, Look(now, s)))
  {
    if s.Clock? {
      LatestDueIsLatest(now, s.minute);
    }
  }

  lemma ReturnKeepsOrderly(p: Plant, which: nat)
    requires Orderly(p) && which < |p.running|
    ensures Orderly(Returned(p, which)) && Returned(p, which).running == []
    ensures Returned(p, which).clock == p.clock && Returned(p, which).runs == p.runs
  {
  }

  /** Closing waits for the cycle in flight, which is recorded before the ledger is read. */
  lemma DrainedIsIdle(p: Plant)
    requires Orderly(p)
    ensures Orderly(Drained(p)) && Drained(p).running == [] && p.engine.fired <= Drained(p).engine.fired
    ensures Drained(p).clock == p.clock && Drained(p).runs == p.runs
    ensures Drained(p).engine == Closed(p.engine)
  {
    if p.running != [] {
      ReturnKeepsOrderly(p, 0);
      assert Drained(Returned(p, 0)) == Returned(p, 0);
    }
  }

  lemma StepKeepsOrderly(p: Plant, i: Input)
    requires Orderly(p) && Enabled(p, i)
    ensures Orderly(Step(p, i))
  {
    match i
    case Look(now, s) => LookKeepsOrderly(p, now, s);
    case Return(which) => if which < |p.running| { ReturnKeepsOrderly(p, which); }
    case Reload =>
      DrainedIsIdle(p);
      var q := Drained(p);
      forall n | 0 <= n < |q.runs| ensures Accounted(Step(p, Reload), q.runs[n]) {
        var key := q.runs[n];
        if key in q.engine.fired && key !in Newest(q.engine.fired) {
          ForgottenIsOld(q.engine.fired, key, q.clock);
        }
      }
  }

  lemma {:induction false} AlwaysOrderly(p: Plant, inputs: seq<Input>)
    requires Orderly(p) && Legal(p, inputs)
    ensures Orderly(Run(p, inputs))
  {
    if inputs != [] {
      var n := |inputs| - 1;
      var front := inputs[..n];
      assert forall k :: 0 <= k < n ==> front[..k] == inputs[..k];
      AlwaysOrderly(p, front);
      assert Enabled(Run(p, inputs[..n]), inputs[n]);
      StepKeepsOrderly(Run(p, front), inputs[n]);
    }
  }

  /**
   Over every run of ticks, completions and reloads from an idle start with any restored ledger of past
   slots: at most one cycle runs at a time and no slot is ever launched twice.
   */
  lemma NoSlotRunsTwice(ledger: set<Slot>, clock: Time, inputs: seq<Input>)
    requires forall key :: key in ledger ==> Anchor(key) <= clock
    requires Legal(Plant(Engine(false, None, ledger), [], [], clock), inputs)
    ensures var end := Run(Plant(Engine(false, None, ledger), [], [], clock), inputs);
            |end.running| <= 1 && Distinct(end.runs)
  {
    AlwaysOrderly(Plant(Engine(false, None, ledger), [], [], clock), inputs);
  }

  lemma ReloadKeepsLedger(q: Plant, key: Slot)
    requires Orderly(q) && key in q.engine.fired
    ensures key in Step(q, Reload).engine.fired || q.clock > Anchor(key) + GRACE
    ensures Step(q, Reload).clock == q.clock
  {
    DrainedIsIdle(q);
    var fired := Drained(q).engine.fired;
    if key !in Newest(fired) {
      ForgottenIsOld(fired, key, q.clock);
    }
  }

  lemma ClockGoesOn(q: Plant, i: Input)
    requires Orderly(q) && Enabled(q, i)
    ensures Step(q, i).clock >= q.clock
    ensures !i.Reload? ==> q.engine.fired <= Step(q, i).engine.fired
  {
    if i.Reload? {
      DrainedIsIdle(q);
    }
  }

  /** Nor is a slot of the restored ledger launched again while it is still within its grace window. */
  lemma {:induction false} LedgerNotForgottenInGrace(p: Plant, inputs: seq<Input>, key: Slot)
    requires Orderly(p) && Legal(p, inputs) && key in p.engine.fired
    ensures var end := Run(p, inputs); key in end.engine.fired || end.clock > Anchor(key) + GRACE
  {
    if inputs != [] {
      var n := |inputs| - 1;
      var front := inputs[..n];
      assert forall k :: 0 <= k < n ==> front[..k] == inputs[..k];
      LedgerNotForgottenInGrace(p, front, key);
      AlwaysOrderly(p, front);
      assert Enabled(Run(p, inputs[..n]), inputs[n]);
      var q := Run(p, front);
      ClockGoesOn(q, inputs[n]);
      if inputs[n].Reload? && key in q.engine.fired {
        ReloadKeepsLedger(q, key);
      }
    }
  }

  // ---------- what runs must start, record and carry over ----------

  function IdleStart(ledger: set<Slot>, clock: Time): Plant {
    Plant(Engine(false, None, ledger), [], [], clock)
  }

  /**
   After any legal run: an idle activator that looks at an entry launches its newest due slot exactly when that is at
   most two minutes old and not recorded.
   */
  lemma IdleLookLaunchesIff(ledger: set<Slot>, clock: Time, inputs: seq<Input>, now: Time, minute: nat, slot: Slot)
    requires forall key :: key in ledger ==> Anchor(key) <= clock
    requires Legal(IdleStart(ledger, clock), inputs) && minute < 1440 && NewestDue(now, minute, slot)
    requires var p := Run(IdleStart(ledger, clock), inputs); p.running == [] && p.clock <= now
    ensures var p := Run(IdleStart(ledger, clock), inputs);
            var q := Step(p, Look(now, Clock(minute)));
            if now - slot * (60 * SECOND) <= 120 * SECOND && slot !in p.engine.fired
            then q.runs == p.runs + [slot] && q.running == [slot]
            else q.runs == p.runs && q.running == []
  {
    var p := Run(IdleStart(ledger, clock), inputs);
    AlwaysOrderly(IdleStart(ledger, clock), inputs);
    ConsiderStarts(p.engine, now, Clock(minute));
    LatestIsNewestDue(now, minute, slot);
    if Startable(now, p.engine.fired, Clock(minute)) {
      var other :| CanStart(now, p.engine.fired, Clock(minute), other);
      LatestIsNewestDue(now, minute, other);
    } else {
      assert !CanStart(now, p.engine.fired, Clock(minute), slot);
    }
  }

  /** After any legal run: the slot whose cycle returns is recorded, and the activator is idle again. */
  lemma ReturnIsRecorded(ledger: set<Slot>, clock: Time, inputs: seq<Input>)
    requires forall key :: key in ledger ==> Anchor(key) <= clock
    requires Legal(IdleStart(ledger, clock), inputs) && Run(IdleStart(ledger, clock), inputs).running != []
    ensures var p := Run(IdleStart(ledger, clock), inputs);
            var q := Step(p, Return(0));
            && q.running == [] && q.engine == Engine(false, None, p.engine.fired + {p.running[0]}) && q.runs == p.runs
  {
    AlwaysOrderly(IdleStart(ledger, clock), inputs);
  }

  /** After any legal run: a reload records the cycle it waited for, and carries the newest 32 slots over. */
  lemma ReloadCarriesOver(ledger: set<Slot>, clock: Time, inputs: seq<Input>, key: Slot)
    requires forall key :: key in ledger ==> Anchor(key) <= clock
    requires Legal(IdleStart(ledger, clock), inputs)
    ensures var p := Run(IdleStart(ledger, clock), inputs);
            var q, all := Step(p, Reload), p.engine.fired + set i | 0 <= i < |p.running| :: p.running[i];
            && q.running == [] && !q.engine.activeCycle
            && (key in q.engine.fired <==> key in all && |set x | x in all && x > key| < 32)
  {
    var p := Run(IdleStart(ledger, clock), inputs);
    AlwaysOrderly(IdleStart(ledger, clock), inputs);
    DrainedIsIdle(p);
    var all := p.engine.fired + set i | 0 <= i < |p.running| :: p.running[i];
    assert Closed(p.engine).fired == all;
    assert Above(all, key) == set x | x in all && x > key;
  }

  // ---------- a tick is such a run ----------

  /**
   The heartbeat of the runtime, at an instant not before the last one, is a legal run of single looks that stops
   at the first launch; what it launches is running afterwards.
   */
  lemma {:induction false} TickIsLooks(p: Plant, now: Time, schedules: seq<Schedule>, i: nat) returns (inputs: seq<Input>)
    requires i <= |schedules| && p.clock <= now
    requires forall s :: s in schedules && s.Clock? ==> s.minute < MINUTES_PER_DAY
    ensures forall k :: 0 <= k < |inputs| ==> exists s :: s in schedules && inputs[k] == Look(now, s)
    ensures Legal(p, inputs)
    ensures var t := TickFrom(p.engine, now, schedules, i);
            var launched := if t.started.Some? then [t.started.value] else [];
            var end := Run(p, inputs);
            end.engine == t.engine && end.running == p.running + launched && end.runs == p.runs + launched
    decreases |schedules| - i
  {
    if i == |schedules| {
      return [];
    }
    var look := Look(now, schedules[i]);
    var q := Step(p, look);
    OneInput(p, look);
    if Consider(p.engine, now, schedules[i]).started.Some? {
      return [look];
    }
    var rest := TickIsLooks(q, now, schedules, i + 1);
    RunAppend(p, [look], rest);
    LegalAppend(p, [look], rest);
    return [look] + rest;
  }

  lemma OneInput(p: Plant, i: Input)
    requires Enabled(p, i)
    ensures Run(p, [i]) == Step(p, i) && Legal(p, [i])
  {
    assert [i][..0] == [];
  }

  lemma LegalAppend(p: Plant, a: seq<Input>, b: seq<Input>)
    requires Legal(p, a) && Legal(Run(p, a), b)
    ensures Legal(p, a + b)
  {
    forall k | 0 <= k < |a + b| ensures Enabled(Run(p, (a + b)[..k]), (a + b)[k]) {
      if k < |a| {
        assert (a + b)[..k] == a[..k];
      } else {
        assert (a + b)[..k] == a + b[..k - |a|];
        RunAppend(p, a, b[..k - |a|]);
      }
    }
  }

  lemma {:induction false} RunAppend(p: Plant, a: seq<Input>, b: seq<Input>)
    ensures Run(p, a + b) == Run(Run(p, a), b)
  {
    if b == [] {
      assert a + b == a;
    } else {
      RunAppend(p, a, b[..|b| - 1]);
      assert (a + b)[..|a + b| - 1] == a + b[..|b| - 1];
    }
  }
}
