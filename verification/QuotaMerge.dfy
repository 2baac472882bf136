/** The hub's global quota list: every host's observations merged to one entry per account. */
module QuotaMerge {
  import opened Basics
  import opened PublicModel
  import opened HubStore

  /** Observations without an account key are never merged: they are told apart by host and position. */
  datatype Key = Account(provider: string, account: string) | Legacy(provider: string, host: string, index: nat)

  /** What is merged: a report under its key, and whether the host that made it is online. */
  datatype Observation = Observation(key: Key, quota: PublicQuota, online: bool)

  function KeyOf(q: PublicQuota, host: string, index: nat): Key {
    if q.accountKey == "" then Legacy(q.provider, host, index) else Account(q.provider, q.accountKey)
  }

  /** What a host that is not online reports counts as degraded at best, and at worst. */
  function Observed(h: HostView, q: PublicQuota, index: nat): Observation {
    Observation(KeyOf(q, h.host, index), if h.status == Online then q else q.(status := Degraded), h.status == Online)
  }

  function ReportedBy(h: HostView): seq<Observation> {
    if h.state.None? then []
    else
      var quota := h.state.value.quota;
      seq(|quota|, i requires 0 <= i < |quota| => Observed(h, quota[i], i))
  }

  function Observations(hosts: seq<HostView>): seq<Observation> {
    if hosts == [] then [] else Observations(hosts[..|hosts| - 1]) + ReportedBy(hosts[|hosts| - 1])
  }

  // ---------- preference ----------

  function Rank(s: SourceStatus): nat {
    match s
    case Available => 0
    case Degraded => 1
    case Unavailable => 2
  }

  predicate Preferred(candidate: PublicQuota, current: PublicQuota) {
    if Rank(candidate.status) != Rank(current.status) then Rank(candidate.status) < Rank(current.status)
    else if candidate.sampledAt.Some? && current.sampledAt.Some? && candidate.sampledAt != current.sampledAt
    then candidate.sampledAt.value > current.sampledAt.value
    else Less(candidate.observedBy, current.observedBy)
  }

  /** All that preference looks at. */
  datatype Merit = Merit(status: SourceStatus, sampledAt: Option<Time>, observedBy: string)

  function MeritOf(q: PublicQuota): Merit {
    Merit(q.status, q.sampledAt, q.observedBy)
  }

  lemma PreferenceIsStrict(a: PublicQuota, b: PublicQuota)
    ensures !(Preferred(a, b) && Preferred(b, a))
    ensures MeritOf(a) == MeritOf(b) ==> !Preferred(a, b)
    ensures a.sampledAt.Some? && b.sampledAt.Some? ==>
              Preferred(a, b) || Preferred(b, a) || MeritOf(a) == MeritOf(b)
  {
    LessTotal(a.observedBy, b.observedBy);
  }

  /** Preference composes on sampled observations. */
  lemma PreferenceComposes(a: PublicQuota, b: PublicQuota, c: PublicQuota)
    requires a.sampledAt.Some? && b.sampledAt.Some? && c.sampledAt.Some?
    requires Preferred(a, b) && Preferred(b, c)
    ensures Preferred(a, c)
  {
    if Less(a.observedBy, b.observedBy) && Less(b.observedBy, c.observedBy) {
      LessTransitive(a.observedBy, b.observedBy, c.observedBy);
    }
  }

  /** Without sample times it can run in a circle. */
  lemma PreferenceCycles()
    returns (a: PublicQuota, b: PublicQuota, c: PublicQuota)
    ensures Preferred(a, b) && Preferred(b, c) && Preferred(c, a)
    ensures a.status == b.status == c.status
  {
    a := PublicQuota("codex", "k", "", Some(2), Available, "c");
    b := PublicQuota("codex", "k", "", Some(1), Available, "a");
    c := PublicQuota("codex", "k", "", None, Available, "b");
  }

  // ---------- merging ----------

  /** Position of the entry for `key`, or the length when there is none. */
  function Find(out: seq<Observation>, key: Key): (i: nat)
    ensures i <= |out|
    ensures i < |out| ==> out[i].key == key
    ensures forall k :: 0 <= k < i ==> out[k].key != key
  {
    if out == [] || out[0].key == key then 0 else 1 + Find(out[1..], key)
  }

  /** One more observation: it opens an entry, replaces a less preferred one, or is dropped. */
  function Absorb(out: seq<Observation>, o: Observation): seq<Observation> {
    var i := Find(out, o.key);
    if i == |out| then out + [o]
    else if Preferred(o.quota, out[i].quota) then out[i := o]
    else out
  }

  function Merged(obs: seq<Observation>): seq<Observation> {
    if obs == [] then [] else Absorb(Merged(obs[..|obs| - 1]), obs[|obs| - 1])
  }

  /** The observation that holds its entry after all of `obs` competed for it, in order. */
  function Champion(obs: seq<Observation>): Observation
    requires obs != []
  {
    var last := obs[|obs| - 1];
    if |obs| == 1 then last
    else
      var held := Champion(obs[..|obs| - 1]);
      if Preferred(last.quota, held.quota) then last else held
  }

  function Competing(key: Key): Observation -> bool {
    (o: Observation) => o.key == key
  }

  function Competitors(obs: seq<Observation>, key: Key): seq<Observation> {
    Keep(obs, Competing(key))
  }

  ghost predicate OneEntryPerKey(out: seq<Observation>) {
    forall i, j :: 0 <= i < j < |out| ==> out[i].key != out[j].key
  }

  ghost predicate HasKey(obs: seq<Observation>, key: Key) {
    exists o :: o in obs && o.key == key
  }

  /** The list holds exactly one entry for each key observed, and it is that key's champion. */
  ghost predicate Represents(out: seq<Observation>, obs: seq<Observation>) {
    && OneEntryPerKey(out)
    && (forall key :: HasKey(out, key) <==> HasKey(obs, key))
    && (forall e :: e in out ==> Competitors(obs, e.key) != [] && e == Champion(Competitors(obs, e.key)))
  }

  lemma {:induction false} ChampionCompetes(obs: seq<Observation>)
    requires obs != []
    ensures Champion(obs) in obs
  {
    if |obs| > 1 {
      ChampionCompetes(obs[..|obs| - 1]);
    }
  }

  lemma CompetitorsGrow(obs: seq<Observation>, o: Observation, key: Key)
    ensures Competitors(obs + [o], key) == Competitors(obs, key) + if key == o.key then [o] else []
  {
    assert (obs + [o])[..|obs|] == obs;
  }

  lemma ChampionGrows(c: seq<Observation>, o: Observation)
    ensures Champion(c + [o]) == if c != [] && !Preferred(o.quota, Champion(c).quota) then Champion(c) else o
  {
    assert (c + [o])[..|c|] == c;
  }

  lemma {:induction false} NoCompetitors(obs: seq<Observation>, key: Key)
    requires !HasKey(obs, key)
    ensures Competitors(obs, key) == []
  {
    if obs != [] {
      var front, last := obs[..|obs| - 1], obs[|obs| - 1];
      assert obs == front + [last] && last in obs;
      NoCompetitors(front, key);
      CompetitorsGrow(front, last, key);
    }
  }

  lemma EntryIsChampion(out: seq<Observation>, obs: seq<Observation>, o: Observation, j: nat)
    requires Represents(out, obs) && j < |Absorb(out, o)|
    ensures var e := Absorb(out, o)[j];
            Competitors(obs + [o], e.key) != [] && e == Champion(Competitors(obs + [o], e.key))
  {
    var e, i := Absorb(out, o)[j], Find(out, o.key);
    CompetitorsGrow(obs, o, e.key);
    if e.key != o.key {
      assert out[j] == e && e in out;
      assert Competitors(obs + [o], e.key) == Competitors(obs, e.key);
    } else {
      assert j == i;
      ChampionGrows(Competitors(obs, o.key), o);
      if i < |out| {
        assert out[i] in out;
      } else {
        assert !HasKey(out, o.key);
        NoCompetitors(obs, o.key);
      }
    }
  }

  lemma AbsorbRepresents(out: seq<Observation>, obs: seq<Observation>, o: Observation)
    requires Represents(out, obs)
    ensures Represents(Absorb(out, o), obs + [o])
  {
    var next, all := Absorb(out, o), obs + [o];
    forall e | e in next ensures Competitors(all, e.key) != [] && e == Champion(Competitors(all, e.key)) {
      var j :| 0 <= j < |next| && next[j] == e;
      EntryIsChampion(out, obs, o, j);
    }
    SameKeys(out, obs, o);
  }

  lemma SameKeys(out: seq<Observation>, obs: seq<Observation>, o: Observation)
    requires forall key :: HasKey(out, key) <==> HasKey(obs, key)
    ensures forall key :: HasKey(Absorb(out, o), key) <==> HasKey(obs + [o], key)
  {
    var next := Absorb(out, o);
    var i := Find(out, o.key);
    assert next[i].key == o.key;
    forall key ensures HasKey(next, key) <==> HasKey(out, key) || key == o.key {
      if HasKey(next, key) && key != o.key {
        var j :| 0 <= j < |next| && next[j].key == key;
        assert next[j] == out[j];
      }
      if HasKey(out, key) {
        var j :| 0 <= j < |out| && out[j].key == key;
        assert next[j].key == key;
      }
    }
    assert o in obs + [o];
  }

  /** One entry per key, and each is the one left standing among its competitors. */
  lemma {:induction false} MergedRepresents(obs: seq<Observation>)
    ensures Represents(Merged(obs), obs)
  {
    if obs != [] {
      var front, last := obs[..|obs| - 1], obs[|obs| - 1];
      MergedRepresents(front);
      AbsorbRepresents(Merged(front), front, last);
      assert obs == front + [last];
    }
  }

  // ---------- who is left standing ----------

  ghost predicate Sampled(obs: seq<Observation>) {
    forall o :: o in obs ==> o.quota.sampledAt.Some?
  }

  /** `w` beats, or has the same merit as, everyone. */
  ghost predicate Dominant(w: Observation, obs: seq<Observation>) {
    forall o :: o in obs ==> MeritOf(o.quota) == MeritOf(w.quota) || Preferred(w.quota, o.quota)
  }

  /** Among sampled observations the champion dominates. */
  lemma {:induction false} ChampionDominates(obs: seq<Observation>)
    requires obs != [] && Sampled(obs)
    ensures Champion(obs) in obs && Dominant(Champion(obs), obs)
  {
    ChampionCompetes(obs);
    if |obs| > 1 {
      var front, last := obs[..|obs| - 1], obs[|obs| - 1];
      assert obs == front + [last];
      ChampionDominates(front);
      var held := Champion(front);
      PreferenceIsStrict(last.quota, held.quota);
      if Preferred(last.quota, held.quota) {
        forall o | o in front ensures Preferred(last.quota, o.quota) {
          if Preferred(held.quota, o.quota) {
            PreferenceComposes(last.quota, held.quota, o.quota);
          }
        }
      }
    }
  }

  /** A dominant observation, or one of equal merit, is left standing in any order. */
  lemma {:induction false} DominantPrevails(w: Observation, obs: seq<Observation>)
    requires obs != [] && Dominant(w, obs) && exists o :: o in obs && MeritOf(o.quota) == MeritOf(w.quota)
    ensures MeritOf(Champion(obs).quota) == MeritOf(w.quota)
  {
    var front, last := obs[..|obs| - 1], obs[|obs| - 1];
    assert obs == front + [last];
    if front != [] {
      var held := Champion(front);
      ChampionCompetes(front);
      PreferenceIsStrict(last.quota, held.quota);
      if exists o :: o in front && MeritOf(o.quota) == MeritOf(w.quota) {
        DominantPrevails(w, front);
        PreferenceIsStrict(last.quota, w.quota);
      }
    }
  }

  ghost predicate SameOutcome(obs: seq<Observation>)
    requires obs != []
  {
    forall other :: multiset(other) == multiset(obs) && other != [] ==>
                      MeritOf(Champion(other).quota) == MeritOf(Champion(obs).quota)
  }

  function WithMerit(m: Merit): Observation -> bool {
    (o: Observation) => MeritOf(o.quota) == m
  }

  function WithoutMerit(m: Merit): Observation -> bool {
    (o: Observation) => MeritOf(o.quota) != m
  }

  lemma {:induction false} Partition(obs: seq<Observation>, m: Merit)
    ensures multiset(Keep(obs, WithMerit(m)) + Keep(obs, WithoutMerit(m))) == multiset(obs)
  {
    if obs != [] {
      var front, last := obs[..|obs| - 1], obs[|obs| - 1];
      Partition(front, m);
      assert obs == front + [last];
    }
  }

  /** Once someone of another merit holds the entry against all of merit `m`, nobody of merit `m` gets it. */
  lemma {:induction false} Usurped(o: Observation, ms: seq<Observation>, rest: seq<Observation>, m: Merit)
    requires MeritOf(o.quota) != m
    requires forall x :: x in ms ==> MeritOf(x.quota) == m && !Preferred(x.quota, o.quota)
    requires forall x :: x in rest ==> MeritOf(x.quota) != m
    ensures MeritOf(Champion([o] + ms + rest).quota) != m
    ensures rest == [] ==> Champion([o] + ms + rest) == o
    decreases |ms| + |rest|
  {
    var all := [o] + ms + rest;
    if rest != [] {
      var front := rest[..|rest| - 1];
      assert all[..|all| - 1] == [o] + ms + front;
      assert rest == front + [rest[|rest| - 1]];
      Usurped(o, ms, front, m);
    } else if ms != [] {
      var front := ms[..|ms| - 1];
      assert all[..|all| - 1] == [o] + front + [];
      assert ms == front + [ms[|ms| - 1]];
      Usurped(o, front, [], m);
    }
  }

  lemma MovedFirst(obs: seq<Observation>, at: nat, others: seq<Observation>, tail: seq<Observation>)
    requires at < |obs| && others == obs[..at] + obs[at + 1..] && multiset(tail) == multiset(others)
    ensures multiset([obs[at]] + tail) == multiset(obs)
  {
    assert obs == obs[..at] + [obs[at]] + obs[at + 1..];
  }

  lemma Rival(obs: seq<Observation>, w: Observation) returns (at: nat)
    requires !Dominant(w, obs)
    ensures at < |obs| && MeritOf(obs[at].quota) != MeritOf(w.quota) && !Preferred(w.quota, obs[at].quota)
  {
    var o :| o in obs && MeritOf(o.quota) != MeritOf(w.quota) && !Preferred(w.quota, o.quota);
    at :| 0 <= at < |obs| && obs[at] == o;
  }

  /** Having the same merit means having the same prospects. */
  lemma MeritDecides(a: PublicQuota, b: PublicQuota, c: PublicQuota)
    requires MeritOf(a) == MeritOf(b)
    ensures Preferred(a, c) <==> Preferred(b, c)
  {
  }

  /** Starting with the rival, then everyone of the winner's merit, ends with someone else. */
  lemma RivalFirst(obs: seq<Observation>, w: Observation, at: nat) returns (other: seq<Observation>)
    requires at < |obs| && MeritOf(obs[at].quota) != MeritOf(w.quota) && !Preferred(w.quota, obs[at].quota)
    ensures multiset(other) == multiset(obs) && other != []
    ensures MeritOf(Champion(other).quota) != MeritOf(w.quota)
  {
    var o, m := obs[at], MeritOf(w.quota);
    var others := obs[..at] + obs[at + 1..];
    var ms, rest := Keep(others, WithMerit(m)), Keep(others, WithoutMerit(m));
    assert forall x :: x in ms ==> MeritOf(x.quota) == m && !Preferred(x.quota, o.quota) by {
      KeepMembers(others, WithMerit(m));
      forall x | x in ms ensures !Preferred(x.quota, o.quota) {
        MeritDecides(x.quota, w.quota, o.quota);
      }
    }
    assert forall x :: x in rest ==> MeritOf(x.quota) != m by {
      KeepMembers(others, WithoutMerit(m));
    }
    Usurped(o, ms, rest, m);
    other := [o] + ms + rest;
    assert other == [o] + (ms + rest);
    Partition(others, m);
    MovedFirst(obs, at, others, ms + rest);
  }

  /** Without a dominant observation, some order of the same observations ends differently. */
  lemma OtherOutcome(obs: seq<Observation>) returns (other: seq<Observation>)
    requires obs != [] && !exists w :: w in obs && Dominant(w, obs)
    ensures multiset(other) == multiset(obs) && other != []
    ensures MeritOf(Champion(other).quota) != MeritOf(Champion(obs).quota)
  {
    ChampionCompetes(obs);
    var at := Rival(obs, Champion(obs));
    other := RivalFirst(obs, Champion(obs), at);
  }

  /** The winner is the same in every order exactly when the observations have a dominant one. */
  lemma OrderIrrelevantIff(obs: seq<Observation>)
    requires obs != []
    ensures SameOutcome(obs) <==> exists w :: w in obs && Dominant(w, obs)
  {
    if w :| w in obs && Dominant(w, obs) {
      forall other | multiset(other) == multiset(obs) && other != []
        ensures MeritOf(Champion(other).quota) == MeritOf(Champion(obs).quota)
      {
        assert w in multiset(other);
        assert forall o :: o in other ==> o in multiset(obs);
        DominantPrevails(w, other);
        DominantPrevails(w, obs);
      }
    } else {
      var other := OtherOutcome(obs);
    }
  }

  // ---------- what the whole list says ----------

  lemma {:induction false} ObservationsComeFromHosts(hosts: seq<HostView>, o: Observation)
    requires o in Observations(hosts)
    ensures exists h, i :: h in hosts && h.state.Some? && 0 <= i < |h.state.value.quota|
                           && o == Observed(h, h.state.value.quota[i], i)
  {
    var front, last := hosts[..|hosts| - 1], hosts[|hosts| - 1];
    if o in Observations(front) {
      ObservationsComeFromHosts(front, o);
      var h, i :| h in front && h.state.Some? && 0 <= i < |h.state.value.quota|
                  && o == Observed(h, h.state.value.quota[i], i);
      assert h in hosts;
    } else {
      var i :| 0 <= i < |ReportedBy(last)| && ReportedBy(last)[i] == o;
      assert last in hosts;
    }
  }

  /** An entry is shown as available only when an online host reported exactly that. */
  lemma AvailableIsReported(hosts: seq<HostView>, list: seq<Observation>, e: Observation)
    requires Represents(list, Observations(hosts)) && e in list && e.quota.status == Available
    ensures exists h :: h in hosts && h.status == Online && h.state.Some? && e.quota in h.state.value.quota
  {
    var obs := Observations(hosts);
    ChampionCompetes(Competitors(obs, e.key));
    KeepMembers(obs, Competing(e.key));
    ObservationsComeFromHosts(hosts, e);
    var h, i :| h in hosts && h.state.Some? && 0 <= i < |h.state.value.quota|
                && e == Observed(h, h.state.value.quota[i], i);
    assert h.status == Online;
  }

  /** With sample times everywhere, every entry beats or equals each observation of its key. */
  lemma EntriesAreBest(hosts: seq<HostView>, list: seq<Observation>, e: Observation)
    requires Represents(list, Observations(hosts)) && e in list && Sampled(Observations(hosts))
    ensures e in Observations(hosts)
    ensures forall o :: o in Observations(hosts) && o.key == e.key ==>
                          MeritOf(o.quota) == MeritOf(e.quota) || Preferred(e.quota, o.quota)
  {
    var obs := Observations(hosts);
    KeepMembers(obs, Competing(e.key));
    ChampionDominates(Competitors(obs, e.key));
  }

  lemma {:induction false} ReportsAreObserved(hosts: seq<HostView>, h: HostView)
    requires h in hosts
    ensures forall o :: o in ReportedBy(h) ==> o in Observations(hosts)
  {
    var front, last := hosts[..|hosts| - 1], hosts[|hosts| - 1];
    assert hosts == front + [last];
    if h != last {
      ReportsAreObserved(front, h);
    }
  }

  lemma SameObservations(a: seq<HostView>, b: seq<HostView>, o: Observation)
    requires multiset(a) == multiset(b) && o in Observations(a)
    ensures o in Observations(b)
  {
    ObservationsComeFromHosts(a, o);
    var h, i :| h in a && h.state.Some? && 0 <= i < |h.state.value.quota|
                && o == Observed(h, h.state.value.quota[i], i);
    assert h in multiset(b);
    assert ReportedBy(h)[i] == o;
    ReportsAreObserved(b, h);
  }

  /** Reordering the hosts changes neither the keys shown nor the merit of any entry. */
  lemma HostOrderIrrelevant(a: seq<HostView>, b: seq<HostView>, listA: seq<Observation>, listB: seq<Observation>,
                            e: Observation)
    requires multiset(a) == multiset(b) && Sampled(Observations(a))
    requires Represents(listA, Observations(a)) && Represents(listB, Observations(b)) && e in listA
    ensures exists f :: f in listB && f.key == e.key && MeritOf(f.quota) == MeritOf(e.quota)
  {
    forall o | o in Observations(b) ensures o.quota.sampledAt.Some? {
      SameObservations(b, a, o);
    }
    EntriesAreBest(a, listA, e);
    SameObservations(a, b, e);
    assert HasKey(listB, e.key);
    var f :| f in listB && f.key == e.key;
    EntriesAreBest(b, listB, f);
    SameObservations(b, a, f);
    PreferenceIsStrict(e.quota, f.quota);
  }

  // ---------- retained reports against fresh ones ----------

  /** However a report of an online host and a retained one meet, the online one is left standing. */
  ghost predicate Unshaken(current: PublicQuota) {
    forall q: PublicQuota, key: Key ::
      var kept, retained := Observation(key, current, true), Observation(key, q.(status := Degraded), false);
      Champion([kept, retained]) == kept && Champion([retained, kept]) == kept
  }

  lemma ChampionOfTwo(a: Observation, b: Observation)
    ensures Champion([a, b]) == if Preferred(b.quota, a.quota) then b else a
  {
    assert [a, b][..1] == [a];
  }

  /** Only an available report is safe from every retained one, in both orders. */
  lemma UnshakenIff(current: PublicQuota)
    ensures Unshaken(current) <==> current.status == Available
  {
    if current.status == Available {
      forall q: PublicQuota, key: Key
        ensures var kept, retained := Observation(key, current, true), Observation(key, q.(status := Degraded), false);
                Champion([kept, retained]) == kept && Champion([retained, kept]) == kept
      {
        var kept, retained := Observation(key, current, true), Observation(key, q.(status := Degraded), false);
        ChampionOfTwo(kept, retained);
        ChampionOfTwo(retained, kept);
      }
    } else {
      var q, key := current.(status := Degraded), Account("", "");
      var kept, retained := Observation(key, current, true), Observation(key, q.(status := Degraded), false);
      ChampionOfTwo(retained, kept);
      PreferenceIsStrict(current, q);
      assert Champion([retained, kept]) == retained;
    }
  }

  /** No competitor ranks above the champion, sampled or not. */
  lemma {:induction false} ChampionRanksFirst(obs: seq<Observation>)
    requires obs != []
    ensures forall o :: o in obs ==> Rank(Champion(obs).quota.status) <= Rank(o.quota.status)
  {
    if |obs| > 1 {
      ChampionRanksFirst(obs[..|obs| - 1]);
      assert obs == obs[..|obs| - 1] + [obs[|obs| - 1]];
    }
  }

  /** Only online reports can be available, and a retained one is always degraded. */
  lemma ProvenanceOfStatus(hosts: seq<HostView>, o: Observation)
    requires o in Observations(hosts)
    ensures !o.online ==> o.quota.status == Degraded
  {
    ObservationsComeFromHosts(hosts, o);
  }

  /** On the whole list: an entry some online host reports available comes from an online host. */
  lemma AvailableReportPrevails(hosts: seq<HostView>, list: seq<Observation>, e: Observation, o: Observation)
    requires Represents(list, Observations(hosts)) && e in list
    requires o in Observations(hosts) && o.key == e.key && o.quota.status == Available
    ensures e.online && e.quota.status == Available
  {
    var obs := Observations(hosts);
    var c := Competitors(obs, e.key);
    KeepMembers(obs, Competing(e.key));
    ChampionRanksFirst(c);
    ChampionCompetes(c);
    ProvenanceOfStatus(hosts, e);
  }

  /** And where online hosts report nothing better than unavailable, a retained report takes the entry. */
  lemma RetainedReportPrevails(hosts: seq<HostView>, list: seq<Observation>, e: Observation, r: Observation)
    requires Represents(list, Observations(hosts)) && e in list
    requires r in Observations(hosts) && r.key == e.key && !r.online
    requires forall o :: o in Observations(hosts) && o.key == e.key && o.online ==> o.quota.status == Unavailable
    ensures !e.online
  {
    var obs := Observations(hosts);
    var c := Competitors(obs, e.key);
    KeepMembers(obs, Competing(e.key));
    ChampionRanksFirst(c);
    ChampionCompetes(c);
    ProvenanceOfStatus(hosts, r);
  }

  /** Among sampled observations the champion is the first of the best. */
  lemma {:induction false} ChampionIsFirst(obs: seq<Observation>) returns (p: nat)
    requires obs != [] && Sampled(obs)
    ensures p < |obs| && Champion(obs) == obs[p]
    ensures forall j :: 0 <= j < p ==> Preferred(obs[p].quota, obs[j].quota)
  {
    if |obs| == 1 {
      return 0;
    }
    var front, last := obs[..|obs| - 1], obs[|obs| - 1];
    assert obs == front + [last];
    p := ChampionIsFirst(front);
    ChampionDominates(front);
    if Preferred(last.quota, front[p].quota) {
      forall j | 0 <= j < |front| ensures Preferred(last.quota, obs[j].quota) {
        assert front[j] in front && front[p] in front;
        if Preferred(front[p].quota, front[j].quota) {
          PreferenceComposes(last.quota, front[p].quota, front[j].quota);
        }
      }
      p := |obs| - 1;
    }
  }

  /** `r` beats every online competitor, or equals it and was observed before it. */
  ghost predicate Displaces(c: seq<Observation>, i: nat)
    requires i < |c|
  {
    !c[i].online && forall j :: 0 <= j < |c| && c[j].online ==>
                      Preferred(c[i].quota, c[j].quota) || (i < j && MeritOf(c[i].quota) == MeritOf(c[j].quota))
  }

  ghost predicate Displaced(c: seq<Observation>) {
    exists i :: 0 <= i < |c| && Displaces(c, i)
  }

  /** Observation `p` takes the entry from whoever holds it then, and nobody after it takes it again. */
  ghost predicate Holds(c: seq<Observation>, p: nat) {
    && p < |c|
    && (p == 0 || Preferred(c[p].quota, Champion(c[..p]).quota))
    && forall j :: p < j < |c| ==> !Preferred(c[j].quota, c[p].quota)
  }

  /** Whether sampled or not: the champion is the one that takes the entry and keeps it. */
  lemma {:induction false} ChampionHolds(c: seq<Observation>, p: nat)
    requires Holds(c, p)
    ensures Champion(c) == c[p]
  {
    var front := c[..|c| - 1];
    if p < |front| {
      assert front[..p] == c[..p];
      ChampionHolds(front, p);
    }
  }

  lemma {:induction false} SomeoneHolds(c: seq<Observation>) returns (p: nat)
    requires c != []
    ensures Holds(c, p)
  {
    p := |c| - 1;
    if |c| > 1 && !Preferred(c[p].quota, Champion(c[..p]).quota) {
      var front := c[..p];
      p := SomeoneHolds(front);
      ChampionHolds(front, p);
      assert front[..p] == c[..p];
    }
  }

  ghost predicate RetainedHolds(c: seq<Observation>) {
    exists p: nat :: Holds(c, p) && !c[p].online
  }

  /** Exactly when the list shows a retained report under a key, sample times or not. */
  lemma RetainedReportShownIff(hosts: seq<HostView>, list: seq<Observation>, e: Observation)
    requires Represents(list, Observations(hosts)) && e in list
    ensures !e.online <==> RetainedHolds(Competitors(Observations(hosts), e.key))
  {
    var c := Competitors(Observations(hosts), e.key);
    var p := SomeoneHolds(c);
    ChampionHolds(c, p);
    forall i: nat | Holds(c, i) ensures c[i] == e {
      ChampionHolds(c, i);
    }
  }

  /** With sample times everywhere no look at earlier champions is needed. */
  lemma SampledRetainedShownIff(hosts: seq<HostView>, list: seq<Observation>, e: Observation)
    requires Represents(list, Observations(hosts)) && e in list && Sampled(Observations(hosts))
    ensures !e.online <==> Displaced(Competitors(Observations(hosts), e.key))
  {
    var obs := Observations(hosts);
    var c := Competitors(obs, e.key);
    KeepMembers(obs, Competing(e.key));
    var p := ChampionIsFirst(c);
    ChampionDominates(c);
    if !e.online {
      forall j | 0 <= j < |c| && c[j].online
        ensures Preferred(c[p].quota, c[j].quota) || (p < j && MeritOf(c[p].quota) == MeritOf(c[j].quota))
      {
        assert c[j] in c;
      }
      assert Displaces(c, p);
    } else if i :| 0 <= i < |c| && Displaces(c, i) {
      assert c[i] in c;
      PreferenceIsStrict(c[i].quota, c[p].quota);
      PreferenceIsStrict(c[p].quota, c[i].quota);
      assert false;
    }
  }

  // ---------- the entries in plain terms ----------

  /** The other status is not better, in the order available, degraded, unavailable. */
  predicate NotBettered(s: SourceStatus, other: SourceStatus) {
    (other == Available ==> s == Available) && (other == Degraded ==> s != Unavailable)
  }

  /** Among reports of its status it was sampled last, and among those of its instant its observer comes first. */
  predicate LatestOf(e: PublicQuota, o: PublicQuota)
    requires e.sampledAt.Some? && o.sampledAt.Some?
  {
    o.status == e.status ==>
      && o.sampledAt.value <= e.sampledAt.value
      && (o.sampledAt == e.sampledAt ==> !Less(o.observedBy, e.observedBy))
  }

  /** Every entry was observed and no report of its key betters its status; with sample times it is the latest. */
  ghost predicate Best(list: seq<Observation>, obs: seq<Observation>) {
    && (forall e :: e in list ==> e in obs)
    && (forall e, o :: e in list && o in obs && o.key == e.key ==> NotBettered(e.quota.status, o.quota.status))
    && (Sampled(obs) ==> forall e, o :: e in list && o in obs && o.key == e.key ==> LatestOf(e.quota, o.quota))
  }

  lemma PreferenceReads(a: PublicQuota, b: PublicQuota)
    requires a.sampledAt.Some? && b.sampledAt.Some? && (Preferred(a, b) || MeritOf(a) == MeritOf(b))
    ensures LatestOf(a, b)
  {
    LessTotal(a.observedBy, b.observedBy);
  }

  lemma EntryIsBest(list: seq<Observation>, obs: seq<Observation>, e: Observation)
    requires Represents(list, obs) && e in list
    ensures e in obs
    ensures forall o :: o in obs && o.key == e.key ==> NotBettered(e.quota.status, o.quota.status)
    ensures Sampled(obs) ==> forall o :: o in obs && o.key == e.key ==> LatestOf(e.quota, o.quota)
  {
    var c := Competitors(obs, e.key);
    KeepMembers(obs, Competing(e.key));
    ChampionCompetes(c);
    ChampionRanksFirst(c);
    if Sampled(obs) {
      ChampionDominates(c);
      forall o | o in obs && o.key == e.key ensures LatestOf(e.quota, o.quota) {
        PreferenceReads(e.quota, o.quota);
      }
    }
  }

  lemma EntriesAreTheBest(list: seq<Observation>, obs: seq<Observation>)
    requires Represents(list, obs)
    ensures Best(list, obs)
  {
    forall e | e in list
      ensures e in obs && (forall o :: o in obs && o.key == e.key ==> NotBettered(e.quota.status, o.quota.status))
      ensures Sampled(obs) ==> forall o :: o in obs && o.key == e.key ==> LatestOf(e.quota, o.quota)
    {
      EntryIsBest(list, obs, e);
    }
  }

  /** Of two reports of one key the second is shown exactly when it is better by status, instant and observer, in that order. */
  lemma SecondReportIff(a: Observation, b: Observation)
    requires a.key == b.key
    ensures Merged([a, b])
         == if || (a.quota.status != b.quota.status && NotBettered(b.quota.status, a.quota.status))
               || (a.quota.status == b.quota.status
                   && if a.quota.sampledAt.Some? && b.quota.sampledAt.Some? && a.quota.sampledAt != b.quota.sampledAt
                      then a.quota.sampledAt.value < b.quota.sampledAt.value
                      else Less(b.quota.observedBy, a.quota.observedBy))
            then [b] else [a]
  {
    assert [a, b][..1] == [a] && [a][..0] == [];
    assert Merged([a]) == [a];
  }

  /** What a host contributes, as it is listed. */
  function Listed(h: HostView, q: PublicQuota): PublicQuota {
    if h.status == Online then q else q.(status := Degraded)
  }

  lemma {:induction false} ReportIsObserved(hosts: seq<HostView>, h: HostView, i: nat)
    requires h in hosts && h.state.Some? && i < |h.state.value.quota|
    ensures Observed(h, h.state.value.quota[i], i) in Observations(hosts)
  {
    ReportsAreObserved(hosts, h);
    assert ReportedBy(h)[i] == Observed(h, h.state.value.quota[i], i);
  }

  /** Two entries for one named account are one entry. */
  lemma AccountsAppearOnce(hosts: seq<HostView>, list: seq<Observation>, i: nat, j: nat)
    requires Represents(list, Observations(hosts)) && i < |list| && j < |list|
    requires list[i].quota.accountKey == list[j].quota.accountKey != "" && list[i].quota.provider == list[j].quota.provider
    ensures i == j
  {
    EntryIsBest(list, Observations(hosts), list[i]);
    EntryIsBest(list, Observations(hosts), list[j]);
    ObservationsComeFromHosts(hosts, list[i]);
    ObservationsComeFromHosts(hosts, list[j]);
    assert list[i].key == list[j].key;
  }

  /** Every named account some host reports has an entry. */
  lemma AccountsAppear(hosts: seq<HostView>, list: seq<Observation>, h: HostView, i: nat)
    requires Represents(list, Observations(hosts)) && h in hosts && h.state.Some? && i < |h.state.value.quota|
    requires h.state.value.quota[i].accountKey != ""
    ensures exists e :: e in list && e.quota.accountKey == h.state.value.quota[i].accountKey
                        && e.quota.provider == h.state.value.quota[i].provider
  {
    var o := Observed(h, h.state.value.quota[i], i);
    ReportIsObserved(hosts, h, i);
    assert HasKey(list, o.key);
    var e :| e in list && e.key == o.key;
    EntryIsBest(list, Observations(hosts), e);
    ObservationsComeFromHosts(hosts, e);
  }

  /** A report without an account is never merged with another: it is listed as it is, degraded unless its host is online. */
  lemma UnnamedReportsAppear(hosts: seq<HostView>, list: seq<Observation>, h: HostView, i: nat)
    requires Represents(list, Observations(hosts)) && h in hosts && h.state.Some? && i < |h.state.value.quota|
    requires h.state.value.quota[i].accountKey == ""
    requires forall g :: g in hosts && g.host == h.host ==> g == h
    ensures exists e :: e in list && e.quota == Listed(h, h.state.value.quota[i])
  {
    var o := Observed(h, h.state.value.quota[i], i);
    ReportIsObserved(hosts, h, i);
    assert HasKey(list, o.key);
    var e :| e in list && e.key == o.key;
    EntryIsBest(list, Observations(hosts), e);
    ObservationsComeFromHosts(hosts, e);
  }

  // ---------- presentation order ----------

  predicate ShownBefore(a: PublicQuota, b: PublicQuota) {
    if a.provider != b.provider then Less(a.provider, b.provider)
    else if a.displayLabel != b.displayLabel then Less(a.displayLabel, b.displayLabel)
    else Less(a.accountKey, b.accountKey)
  }

  lemma ShownBeforeOrder(a: PublicQuota, b: PublicQuota, c: PublicQuota)
    ensures !(ShownBefore(a, b) && ShownBefore(b, a))
    ensures ShownBefore(a, b) && !ShownBefore(c, b) ==> ShownBefore(a, c)
  {
    LessTotal(a.provider, b.provider);
    LessTotal(a.displayLabel, b.displayLabel);
    LessTotal(a.accountKey, b.accountKey);
    LessOrder(a.provider, b.provider, c.provider);
    LessOrder(a.displayLabel, b.displayLabel, c.displayLabel);
    LessOrder(a.accountKey, b.accountKey, c.accountKey);
  }

  lemma LessOrder(a: string, b: string, c: string)
    ensures Less(a, b) && !Less(c, b) ==> Less(a, c)
    ensures Less(a, b) && Less(b, c) ==> Less(a, c)
    ensures b == c || Less(b, c) || Less(c, b)
  {
    LessTotal(b, c);
    if Less(a, b) && Less(b, c) {
      LessTransitive(a, b, c);
    }
  }

  /** Into its place, after everything it does not strictly precede. */
  function Insert(sorted: seq<Observation>, o: Observation): seq<Observation> {
    if sorted == [] || !ShownBefore(o.quota, sorted[|sorted| - 1].quota) then sorted + [o]
    else Insert(sorted[..|sorted| - 1], o) + [sorted[|sorted| - 1]]
  }

  function StableSort(s: seq<Observation>): seq<Observation> {
    if s == [] then [] else Insert(StableSort(s[..|s| - 1]), s[|s| - 1])
  }

  ghost predicate InOrder(s: seq<Observation>) {
    forall i, j :: 0 <= i < j < |s| ==> !ShownBefore(s[j].quota, s[i].quota)
  }

  lemma {:induction false} InsertSorts(s: seq<Observation>, o: Observation)
    requires InOrder(s)
    ensures InOrder(Insert(s, o)) && multiset(Insert(s, o)) == multiset(s) + multiset{o}
  {
    if s != [] {
      var front, last := s[..|s| - 1], s[|s| - 1];
      assert s == front + [last];
      if ShownBefore(o.quota, last.quota) {
        InsertSorts(front, o);
        var r := Insert(front, o);
        forall i | 0 <= i < |r| ensures !ShownBefore(last.quota, r[i].quota) {
          assert r[i] in multiset(front) + multiset{o};
          ShownBeforeOrder(o.quota, last.quota, o.quota);
        }
      } else {
        forall i | 0 <= i < |s| ensures !ShownBefore(o.quota, s[i].quota) {
          ShownBeforeOrder(o.quota, s[i].quota, last.quota);
        }
      }
    }
  }

  lemma {:induction false} SortSorts(s: seq<Observation>)
    ensures InOrder(StableSort(s)) && multiset(StableSort(s)) == multiset(s)
  {
    if s != [] {
      SortSorts(s[..|s| - 1]);
      InsertSorts(StableSort(s[..|s| - 1]), s[|s| - 1]);
      assert s == s[..|s| - 1] + [s[|s| - 1]];
    }
  }

  lemma {:induction false} OnceEach(s: seq<Observation>, x: Observation)
    requires OneEntryPerKey(s)
    ensures multiset(s)[x] <= 1
  {
    if s != [] {
      var front, last := s[..|s| - 1], s[|s| - 1];
      OnceEach(front, x);
      assert s == front + [last];
      assert last !in front;
      assert multiset(s) == multiset(front) + multiset{last};
      assert last !in multiset(front);
    }
  }

  lemma TwiceAtLeast(s: seq<Observation>, i: nat, j: nat)
    requires i < j < |s| && s[i] == s[j]
    ensures multiset(s)[s[i]] >= 2
  {
    var left, right := s[..j], s[j..];
    assert s == left + right && left[i] == s[i] && right[0] == s[i];
    assert s[i] in multiset(left) && s[i] in multiset(right);
    assert multiset(s) == multiset(left) + multiset(right);
  }

  /** Rearranging a list that represents the observations leaves one that does. */
  lemma RearrangedRepresents(a: seq<Observation>, b: seq<Observation>, obs: seq<Observation>)
    requires Represents(a, obs) && multiset(a) == multiset(b)
    ensures Represents(b, obs)
  {
    assert forall e :: e in b <==> e in multiset(a);
    assert forall e :: e in b <==> e in a;
    forall i, j | 0 <= i < j < |b| ensures b[i].key != b[j].key {
      if b[i].key == b[j].key {
        assert b[i] in a && b[j] in a;
        OnceEach(a, b[i]);
        TwiceAtLeast(b, i, j);
      }
    }
  }

  function Alike(x: PublicQuota): Observation -> bool {
    (o: Observation) => !ShownBefore(o.quota, x) && !ShownBefore(x, o.quota)
  }

  lemma {:induction false} InsertIsStable(s: seq<Observation>, o: Observation, x: PublicQuota)
    ensures Keep(Insert(s, o), Alike(x)) == Keep(s + [o], Alike(x))
  {
    assert (s + [o])[..|s|] == s;
    if s != [] && ShownBefore(o.quota, s[|s| - 1].quota) {
      var front, last := s[..|s| - 1], s[|s| - 1];
      InsertIsStable(front, o, x);
      var r := Insert(front, o);
      assert (r + [last])[..|r|] == r && (front + [o])[..|front|] == front;
      ShownBeforeOrder(o.quota, last.quota, x);
      ShownBeforeOrder(x, last.quota, o.quota);
    }
  }

  /** Entries the order does not tell apart keep the order in which they were first seen. */
  lemma {:induction false} SortIsStable(s: seq<Observation>, x: PublicQuota)
    ensures Keep(StableSort(s), Alike(x)) == Keep(s, Alike(x))
  {
    if s != [] {
      var front, last := s[..|s| - 1], s[|s| - 1];
      var r := StableSort(front);
      SortIsStable(front, x);
      InsertIsStable(r, last, x);
      assert (r + [last])[..|r|] == r;
    }
  }

  // ---------- the loop ----------

  ghost predicate Indexed(seen: map<Key, nat>, out: seq<Observation>) {
    && (forall i :: 0 <= i < |out| ==> out[i].key in seen && seen[out[i].key] == i)
    && (forall k :: k in seen ==> seen[k] < |out| && out[seen[k]].key == k)
  }

  lemma IndexFinds(seen: map<Key, nat>, out: seq<Observation>, key: Key)
    requires Indexed(seen, out)
    ensures Find(out, key) == if key in seen then seen[key] else |out|
  {
  }

  lemma MergedGrows(hosts: seq<HostView>, n: nat, index: nat)
    requires n < |hosts| && index < |ReportedBy(hosts[n])|
    ensures var base, reported := Observations(hosts[..n]), ReportedBy(hosts[n]);
            Merged(base + reported[..index + 1]) == Absorb(Merged(base + reported[..index]), reported[index])
  {
    var base, reported := Observations(hosts[..n]), ReportedBy(hosts[n]);
    var before, after := base + reported[..index], base + reported[..index + 1];
    assert after == before + [reported[index]] && after[..|after| - 1] == before;
  }

  lemma ObservationsGrow(hosts: seq<HostView>, n: nat)
    requires n < |hosts|
    ensures var base, reported := Observations(hosts[..n]), ReportedBy(hosts[n]);
            base == base + reported[..0] && Observations(hosts[..n + 1]) == base + reported[..|reported|]
  {
    assert hosts[..n + 1][..n] == hosts[..n];
    var reported := ReportedBy(hosts[n]);
    assert reported[..|reported|] == reported;
  }

  /** Listed by provider, then by label, then by account. */
  predicate ComesFirst(a: PublicQuota, b: PublicQuota) {
    && !Less(b.provider, a.provider)
    && (a.provider == b.provider ==>
          && !Less(b.displayLabel, a.displayLabel)
          && (a.displayLabel == b.displayLabel ==> !Less(b.accountKey, a.accountKey)))
  }

  lemma OrderReads(list: seq<Observation>)
    requires InOrder(list)
    ensures forall i, j :: 0 <= i < j < |list| ==> ComesFirst(list[i].quota, list[j].quota)
  {
    forall i, j | 0 <= i < j < |list| ensures ComesFirst(list[i].quota, list[j].quota) {
      LessTotal(list[i].quota.provider, list[j].quota.provider);
      LessTotal(list[i].quota.displayLabel, list[j].quota.displayLabel);
      LessTotal(list[i].quota.accountKey, list[j].quota.accountKey);
    }
  }

  /** The global list: the merged entries in presentation order. */
  method DedupeQuota(hosts: seq<HostView>) returns (list: seq<Observation>)
    ensures list == StableSort(Merged(Observations(hosts)))
    ensures InOrder(list) && Represents(list, Observations(hosts)) && Best(list, Observations(hosts))
    ensures forall i, j :: 0 <= i < j < |list| ==> ComesFirst(list[i].quota, list[j].quota)
  {
    var out := MergeReports(hosts);
    list := StableSort(out);
    SortSorts(out);
    MergedRepresents(Observations(hosts));
    RearrangedRepresents(out, list, Observations(hosts));
    EntriesAreTheBest(list, Observations(hosts));
    OrderReads(list);
  }

  /** One pass over all reports, with an index of the entries so far. */
  method MergeReports(hosts: seq<HostView>) returns (out: seq<Observation>)
    ensures out == Merged(Observations(hosts))
  {
    out := [];
    var seen: map<Key, nat> := map[];
    for n := 0 to |hosts|
      invariant out == Merged(Observations(hosts[..n]))
      invariant Indexed(seen, out)
    {
      out, seen := MergeHost(hosts, n, out, seen);
    }
    assert hosts[..|hosts|] == hosts;
  }

  method MergeHost(hosts: seq<HostView>, n: nat, entries: seq<Observation>, index: map<Key, nat>)
    returns (out: seq<Observation>, seen: map<Key, nat>)
    requires n < |hosts| && entries == Merged(Observations(hosts[..n])) && Indexed(index, entries)
    ensures out == Merged(Observations(hosts[..n + 1])) && Indexed(seen, out)
  {
    out, seen := entries, index;
    var host := hosts[n];
    ObservationsGrow(hosts, n);
    var quotas := if host.state.Some? then host.state.value.quota else [];
    for i := 0 to |quotas|
      invariant out == Merged(Observations(hosts[..n]) + ReportedBy(host)[..i])
      invariant Indexed(seen, out)
    {
      var quota := quotas[i];
      if host.status != Online {
        quota := quota.(status := Degraded);
      }
      var key := KeyOf(quota, host.host, i);
      assert Observation(key, quota, host.status == Online) == ReportedBy(host)[i];
      MergedGrows(hosts, n, i);
      out, seen := AbsorbIndexed(out, seen, Observation(key, quota, host.status == Online));
    }
  }

  method AbsorbIndexed(entries: seq<Observation>, index: map<Key, nat>, o: Observation)
    returns (out: seq<Observation>, seen: map<Key, nat>)
    requires Indexed(index, entries)
    ensures out == Absorb(entries, o) && Indexed(seen, out)
  {
    out, seen := entries, index;
    IndexFinds(seen, out, o.key);
    if o.key in seen {
      var existing := seen[o.key];
      if Preferred(o.quota, out[existing].quota) {
        out := out[existing := o];
      }
    } else {
      seen := seen[o.key := |out|];
      out := out + [o];
    }
  }
}
