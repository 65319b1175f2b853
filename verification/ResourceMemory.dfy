/** How much GPU memory to ask for, and the history it is learned from
    (maze/core/resource_history.py: `ResourceHistoryStore`;
    maze/core/resource_policy.py: `recommend_resources`, `model_memory_mib`).

    The store keeps a summary, not the observations.  Profiles are keyed by the digest
    of a context; the file keeps them sorted by key, and a new one is appended.  The
    margins are exact rationals with the ceiling taken. */
module ResourceMemory {
  import opened Options

  const MIB: nat := 1048576
  const MAX_PROFILES: nat := 1024
  const MAX_OBSERVATION_IDS: nat := 8192

  type Key = nat    // a context's digest, ordered as its hex digits

  datatype Scope = TaskScope | InstanceScope

  /** `base` is the digest of the same context without its features. */
  datatype Context = Context(scope: Scope, hasFeatures: bool, key: Key, base: Key)

  /** One call of `record`; an empty id is none.  `required` is the bound a failed
      attempt reported, `peak` the measured peak if there is one. */
  datatype Observation = Observation(
    id: string,
    context: Option<Context>,
    success: bool,
    peak: Option<nat>,
    measured: Scope,
    required: nat,
    loading: bool,
    time: real)

  datatype Profile = Profile(samples: nat, peak: nat, bound: nat, last: real)

  datatype History = History(profiles: map<Key, Profile>, ids: seq<string>)

  const FRESH := History(map[], [])
  const NEW_PROFILE := Profile(0, 0, 0, 0.0)

  // ----- recording ----------------------------------------------------------

  predicate CountsAsSuccess(o: Observation) {
    o.context.Some? && o.success && o.peak.Some? && o.measured == o.context.value.scope
  }

  predicate CountsAsFailure(o: Observation) {
    && o.context.Some? && !o.success && o.required > 0
    && (o.context.value.scope.TaskScope? || o.context.value.hasFeatures || o.loading)
  }

  function NatMax(a: nat, b: nat): nat { if a >= b then a else b }

  function Learn(p: Profile, o: Observation): Profile {
    Profile(if CountsAsSuccess(o) then p.samples + 1 else p.samples,
            if CountsAsSuccess(o) then NatMax(p.peak, o.peak.value) else p.peak,
            if CountsAsFailure(o) then NatMax(p.bound, o.required) else p.bound,
            o.time)
  }

  /** `a` comes no later than `b` when the eviction looks for the oldest profile: by
      time, then in file order with the new key last. */
  predicate NoYounger(ps: map<Key, Profile>, added: Key, a: Key, b: Key)
    requires a in ps && b in ps
  {
    || ps[a].last < ps[b].last
    || (ps[a].last == ps[b].last && (b == added || (a != added && a <= b)))
  }

  ghost predicate IsOldest(ps: map<Key, Profile>, added: Key, keys: set<Key>, k: Key)
    requires keys <= ps.Keys
  {
    k in keys && forall other <- keys :: NoYounger(ps, added, k, other)
  }

  lemma {:induction false} OldestExists(ps: map<Key, Profile>, added: Key, keys: set<Key>)
    requires keys != {} && keys <= ps.Keys
    ensures exists k :: IsOldest(ps, added, keys, k)
    decreases |keys|
  {
    var x :| x in keys;
    var rest := keys - {x};
    assert forall y <- keys :: y == x || y in rest;
    if rest == {} {
      assert IsOldest(ps, added, keys, x);
    } else {
      OldestExists(ps, added, rest);
      var y :| IsOldest(ps, added, rest, y);
      assert IsOldest(ps, added, keys, if NoYounger(ps, added, y, x) then y else x);
    }
  }

  ghost function Victim(ps: map<Key, Profile>, added: Key): (k: Key)
    requires ps != map[]
    ensures IsOldest(ps, added, ps.Keys, k)
  {
    OldestExists(ps, added, ps.Keys);
    var k :| IsOldest(ps, added, ps.Keys, k);
    k
  }

  function WithObservation(ps: map<Key, Profile>, o: Observation): map<Key, Profile>
    requires o.context.Some?
  {
    var key := o.context.value.key;
    ps[key := Learn(if key in ps then ps[key] else NEW_PROFILE, o)]
  }

  /** The profile that a recording pushes out. */
  ghost function Evicts(h: History, o: Observation): Option<Key> {
    if IsRepeat(h, o) || o.context.None? then None
    else
      var ps := WithObservation(h.profiles, o);
      if |ps| > MAX_PROFILES then Some(Victim(ps, o.context.value.key)) else None
  }

  predicate IsRepeat(h: History, o: Observation) {
    o.id != "" && o.id in h.ids
  }

  function Trimmed(ids: seq<string>): seq<string> {
    if |ids| > MAX_OBSERVATION_IDS then ids[|ids| - MAX_OBSERVATION_IDS..] else ids
  }

  function IdsAfter(h: History, o: Observation): seq<string> {
    if o.id == "" then h.ids else Trimmed(h.ids + [o.id])
  }

  ghost function ProfilesAfter(h: History, o: Observation): map<Key, Profile> {
    if o.context.None? then h.profiles
    else
      var ps := WithObservation(h.profiles, o);
      if Evicts(h, o).Some? then ps - {Evicts(h, o).value} else ps
  }

  /** `record`, seen by the profiles. */
  ghost function Recorded(h: History, o: Observation): History {
    if IsRepeat(h, o) then h else History(ProfilesAfter(h, o), IdsAfter(h, o))
  }

  /** The store after a log of observations. */
  ghost function After(log: seq<Observation>): History {
    if log == [] then FRESH else Recorded(After(log[..|log| - 1]), log[|log| - 1])
  }

  // ----- the log it must agree with -----------------------------------------

  /** The observations a profile stands for: those recorded for its key since it was
      last pushed out. */
  ghost function Since(log: seq<Observation>, key: Key): seq<Observation> {
    if log == [] then []
    else
      var before, h, o := Since(log[..|log| - 1], key), After(log[..|log| - 1]), log[|log| - 1];
      if IsRepeat(h, o) then before
      else if Evicts(h, o) == Some(key) then []
      else if o.context.Some? && o.context.value.key == key then before + [o]
      else before
  }

  function Samples(os: seq<Observation>): nat {
    if os == [] then 0
    else Samples(os[..|os| - 1]) + if CountsAsSuccess(os[|os| - 1]) then 1 else 0
  }

  function Peak(os: seq<Observation>): nat {
    if os == [] then 0
    else if CountsAsSuccess(os[|os| - 1]) then NatMax(Peak(os[..|os| - 1]), os[|os| - 1].peak.value)
    else Peak(os[..|os| - 1])
  }

  function Bound(os: seq<Observation>): nat {
    if os == [] then 0
    else if CountsAsFailure(os[|os| - 1]) then NatMax(Bound(os[..|os| - 1]), os[|os| - 1].required)
    else Bound(os[..|os| - 1])
  }

  function Summary(os: seq<Observation>): Profile {
    if os == [] then NEW_PROFILE else Profile(Samples(os), Peak(os), Bound(os), os[|os| - 1].time)
  }

  lemma LearnSummary(os: seq<Observation>, o: Observation)
    ensures Learn(Summary(os), o) == Summary(os + [o])
  {
    assert (os + [o])[..|os|] == os;
  }

  ghost predicate Agrees(h: History, log: seq<Observation>, key: Key) {
    && (key in h.profiles <==> Since(log, key) != [])
    && (key in h.profiles ==> h.profiles[key] == Summary(Since(log, key)))
  }

  predicate IsFor(o: Observation, key: Key) {
    o.context.Some? && o.context.value.key == key
  }

  /** One key's profile after a recording. */
  lemma ProfileAfter(h: History, o: Observation, key: Key)
    ensures key in ProfilesAfter(h, o) <==> Evicts(h, o) != Some(key) && (key in h.profiles || IsFor(o, key))
    ensures key in ProfilesAfter(h, o) ==>
              ProfilesAfter(h, o)[key]
              == if IsFor(o, key) then Learn(if key in h.profiles then h.profiles[key] else NEW_PROFILE, o)
                 else h.profiles[key]
  {
    hide Learn, Victim, IsRepeat;
  }

  lemma SinceAfter(front: seq<Observation>, o: Observation, key: Key)
    requires !IsRepeat(After(front), o)
    ensures Since(front + [o], key)
            == if Evicts(After(front), o) == Some(key) then []
               else if IsFor(o, key) then Since(front, key) + [o] else Since(front, key)
  {
    assert (front + [o])[..|front|] == front;
    hide Evicts, After, IsRepeat;
  }

  lemma RecordedAgrees(front: seq<Observation>, o: Observation, key: Key)
    requires Agrees(After(front), front, key) && !IsRepeat(After(front), o)
    ensures Agrees(Recorded(After(front), o), front + [o], key)
  {
    LearnSummary(Since(front, key), o);
    ProfileAfter(After(front), o, key);
    SinceAfter(front, o, key);
    assert Since(front, key) == [] ==> Summary(Since(front, key)) == NEW_PROFILE;
    hide Summary, Since, After, Learn, IsRepeat, Evicts, ProfilesAfter, IsFor;
  }

  /** The summary is always that of the recorded observations since the last eviction. */
  lemma {:induction false} SummaryAgreesWithTheLog(log: seq<Observation>, key: Key)
    ensures Agrees(After(log), log, key)
  {
    if log != [] {
      var front, o := log[..|log| - 1], log[|log| - 1];
      SummaryAgreesWithTheLog(front, key);
      assert log == front + [o];
      if !IsRepeat(After(front), o) { RecordedAgrees(front, o, key); }
      hide Recorded, Summary;
    }
  }

  // ----- the order of the log does not matter -------------------------------

  ghost predicate NeverEvicted(log: seq<Observation>, key: Key) {
    log == [] ||
    (NeverEvicted(log[..|log| - 1], key) && Evicts(After(log[..|log| - 1]), log[|log| - 1]) != Some(key))
  }

  /** The ids that were given, in order. */
  function Ids(os: seq<Observation>): seq<string> {
    if os == [] then []
    else if os[|os| - 1].id == "" then Ids(os[..|os| - 1])
    else Ids(os[..|os| - 1]) + [os[|os| - 1].id]
  }

  /** The observations that count: those whose id is not among the last ones that
      counted.  One attempt may report twice under one id, at another time and even with
      another status; what came first stands. */
  function FirstSeen(log: seq<Observation>): seq<Observation> {
    if log == [] then []
    else
      var before, o := FirstSeen(log[..|log| - 1]), log[|log| - 1];
      if o.id != "" && o.id in Trimmed(Ids(before)) then before else before + [o]
  }

  lemma TrimmedAgain(ids: seq<string>, id: string)
    ensures Trimmed(Trimmed(ids) + [id]) == Trimmed(ids + [id])
  {
  }

  lemma FirstSeenGrows(front: seq<Observation>, o: Observation)
    ensures FirstSeen(front + [o])
            == if o.id != "" && o.id in Trimmed(Ids(FirstSeen(front))) then FirstSeen(front) else FirstSeen(front) + [o]
  {
    assert (front + [o])[..|front|] == front;
  }

  lemma IdsGrow(os: seq<Observation>, o: Observation)
    ensures Ids(os + [o]) == if o.id == "" then Ids(os) else Ids(os) + [o.id]
  {
    assert (os + [o])[..|os|] == os;
  }

  /** The store's window holds the last ids that counted, so it ignores exactly the rest. */
  lemma {:induction false} WindowHoldsTheLastIds(log: seq<Observation>)
    ensures After(log).ids == Trimmed(Ids(FirstSeen(log)))
  {
    if log != [] {
      var front, o := log[..|log| - 1], log[|log| - 1];
      assert log == front + [o];
      WindowHoldsTheLastIds(front);
      FirstSeenGrows(front, o);
      IdsGrow(FirstSeen(front), o);
      TrimmedAgain(Ids(FirstSeen(front)), o.id);
      hide FirstSeen, Ids, Trimmed, ProfilesAfter;
    }
  }

  lemma {:induction false} EveryIdCounts(log: seq<Observation>, o: Observation)
    requires o in log
    ensures exists first <- FirstSeen(log) :: first == o || (first.id == o.id && o.id != "")
    decreases |log|
  {
    var front, last := log[..|log| - 1], log[|log| - 1];
    assert log == front + [last];
    FirstSeenGrows(front, last);
    if o in front {
      EveryIdCounts(front, o);
      var first :| first in FirstSeen(front) && (first == o || (first.id == o.id && o.id != ""));
      assert first in FirstSeen(log);
    } else if o.id != "" && o.id in Trimmed(Ids(FirstSeen(front))) {
      IdHasOwner(FirstSeen(front), o.id);
    } else {
      assert o in FirstSeen(log);
    }
  }

  lemma {:induction false} IdHasOwner(os: seq<Observation>, id: string)
    requires id in Ids(os)
    ensures exists o <- os :: o.id == id
    decreases |os|
  {
    var front, o := os[..|os| - 1], os[|os| - 1];
    assert os == front + [o];
    if o.id != id {
      IdHasOwner(front, id);
      var owner :| owner in front && owner.id == id;
      assert owner in os;
    } else {
      assert o in os;
    }
  }

  lemma {:induction false} FirstSeenIsFromTheLog(log: seq<Observation>, o: Observation)
    requires o in FirstSeen(log)
    ensures o in log
    decreases |log|
  {
    var front, last := log[..|log| - 1], log[|log| - 1];
    assert log == front + [last];
    if o in FirstSeen(front) { FirstSeenIsFromTheLog(front, o); }
  }

  predicate PeakCounts(o: Observation, key: Key) {
    CountsAsSuccess(o) && o.context.value.key == key
  }

  predicate BoundCounts(o: Observation, key: Key) {
    CountsAsFailure(o) && o.context.value.key == key
  }

  /** `n` is the largest of the eligible peaks, or 0 when there are none. */
  ghost predicate IsLargestPeak(log: seq<Observation>, key: Key, n: nat) {
    && (forall o <- log :: PeakCounts(o, key) ==> o.peak.value <= n)
    && (n > 0 ==> exists o <- log :: PeakCounts(o, key) && o.peak.value == n)
  }

  ghost predicate IsLargestBound(log: seq<Observation>, key: Key, n: nat) {
    && (forall o <- log :: BoundCounts(o, key) ==> o.required <= n)
    && (n > 0 ==> exists o <- log :: BoundCounts(o, key) && o.required == n)
  }

  lemma PeakGrows(log: seq<Observation>, key: Key, n: nat, o: Observation)
    requires IsLargestPeak(log, key, n)
    ensures IsLargestPeak(log + [o], key, if PeakCounts(o, key) then NatMax(n, o.peak.value) else n)
  {
    assert o in log + [o] && forall x <- log :: x in log + [o];
    assert forall x <- log + [o] :: x in log || x == o;
  }

  lemma BoundGrows(log: seq<Observation>, key: Key, n: nat, o: Observation)
    requires IsLargestBound(log, key, n)
    ensures IsLargestBound(log + [o], key, if BoundCounts(o, key) then NatMax(n, o.required) else n)
  {
    assert o in log + [o] && forall x <- log :: x in log + [o];
    assert forall x <- log + [o] :: x in log || x == o;
  }

  lemma SinceGrows(front: seq<Observation>, o: Observation, key: Key)
    requires !IsRepeat(After(front), o) && Evicts(After(front), o) != Some(key)
    ensures var os := Since(front, key); var more := Since(front + [o], key);
            && Peak(more) == (if PeakCounts(o, key) then NatMax(Peak(os), o.peak.value) else Peak(os))
            && Bound(more) == (if BoundCounts(o, key) then NatMax(Bound(os), o.required) else Bound(os))
  {
    assert (front + [o])[..|front|] == front;
    var os := Since(front, key);
    assert (os + [o])[..|os|] == os;
  }

  /** While a profile is never pushed out, its peak and its bound are those of all the
      observations that count in the whole log. */
  lemma {:induction false} SummaryIsTheMaximum(log: seq<Observation>, key: Key)
    requires NeverEvicted(log, key)
    ensures IsLargestPeak(FirstSeen(log), key, Peak(Since(log, key)))
    ensures IsLargestBound(FirstSeen(log), key, Bound(Since(log, key)))
  {
    if log != [] {
      var front, o := log[..|log| - 1], log[|log| - 1];
      assert log == front + [o];
      SummaryIsTheMaximum(front, key);
      WindowHoldsTheLastIds(front);
      FirstSeenGrows(front, o);
      if !IsRepeat(After(front), o) {
        PeakGrows(FirstSeen(front), key, Peak(Since(front, key)), o);
        BoundGrows(FirstSeen(front), key, Bound(Since(front, key)), o);
        SinceGrows(front, o, key);
        hide Since;
      }
      hide Peak, Bound, After, Evicts, Trimmed, Ids, FirstSeen, CountsAsSuccess, CountsAsFailure;
      hide IsLargestPeak, IsLargestBound;
    }
  }

  /** An observation without the time it was recorded at, which no maximum depends on. */
  function Timeless(o: Observation): Observation {
    o.(time := 0.0)
  }

  ghost function Lessons(log: seq<Observation>): set<Observation> {
    set o <- FirstSeen(log) :: Timeless(o)
  }

  lemma LargestBelow(log: seq<Observation>, other: seq<Observation>, key: Key, n: nat, m: nat)
    requires IsLargestPeak(log, key, n) && IsLargestPeak(other, key, m)
    requires forall o <- log :: exists twin <- other :: Timeless(twin) == Timeless(o)
    ensures n <= m
  {
    if n > 0 {
      var o :| o in log && PeakCounts(o, key) && o.peak.value == n;
      var twin :| twin in other && Timeless(twin) == Timeless(o);
      assert Timeless(twin).peak == twin.peak && PeakCounts(twin, key);
    }
  }

  lemma LargestBoundBelow(log: seq<Observation>, other: seq<Observation>, key: Key, n: nat, m: nat)
    requires IsLargestBound(log, key, n) && IsLargestBound(other, key, m)
    requires forall o <- log :: exists twin <- other :: Timeless(twin) == Timeless(o)
    ensures n <= m
  {
    if n > 0 {
      var o :| o in log && BoundCounts(o, key) && o.required == n;
      var twin :| twin in other && Timeless(twin) == Timeless(o);
      assert Timeless(twin).required == twin.required && BoundCounts(twin, key);
    }
  }

  lemma HasTwins(a: seq<Observation>, b: seq<Observation>)
    requires Lessons(a) == Lessons(b)
    ensures forall o <- FirstSeen(a) :: exists twin <- FirstSeen(b) :: Timeless(twin) == Timeless(o)
  {
    forall o <- FirstSeen(a) ensures exists twin <- FirstSeen(b) :: Timeless(twin) == Timeless(o) {
      assert Timeless(o) in Lessons(a);
      assert Timeless(o) in Lessons(b);
    }
  }

  lemma TeachesNoMore(a: seq<Observation>, b: seq<Observation>, key: Key)
    requires NeverEvicted(a, key) && NeverEvicted(b, key) && Lessons(a) == Lessons(b)
    ensures Peak(Since(a, key)) <= Peak(Since(b, key)) && Bound(Since(a, key)) <= Bound(Since(b, key))
  {
    hide Peak, Bound, Since, FirstSeen, IsLargestPeak, IsLargestBound, Timeless, NeverEvicted;
    SummaryIsTheMaximum(a, key);
    SummaryIsTheMaximum(b, key);
    HasTwins(a, b);
    hide Lessons;
    LargestBelow(FirstSeen(a), FirstSeen(b), key, Peak(Since(a, key)), Peak(Since(b, key)));
    LargestBoundBelow(FirstSeen(a), FirstSeen(b), key, Bound(Since(a, key)), Bound(Since(b, key)));
  }

  /** Two logs in which the same observations count, in whatever order and at whatever
      times, teach the same peak and the same bound. */
  lemma {:induction false} OrderDoesNotMatter(a: seq<Observation>, b: seq<Observation>, key: Key)
    requires NeverEvicted(a, key) && NeverEvicted(b, key) && Lessons(a) == Lessons(b)
    ensures Peak(Since(a, key)) == Peak(Since(b, key)) && Bound(Since(a, key)) == Bound(Since(b, key))
  {
    TeachesNoMore(a, b, key);
    TeachesNoMore(b, a, key);
    hide Peak, Bound, Since, Lessons, NeverEvicted;
  }

  /** When a repeated id only repeats its observation at another time, repeats teach
      nothing: the lessons are all the observations of the log. */
  lemma {:induction false} RepeatsTeachNothing(log: seq<Observation>)
    requires forall a <- log, b <- log :: a.id == b.id && a.id != "" ==> Timeless(a) == Timeless(b)
    ensures Lessons(log) == set o <- log :: Timeless(o)
  {
    forall o <- log ensures Timeless(o) in Lessons(log) {
      EveryIdCounts(log, o);
      var first :| first in FirstSeen(log) && (first == o || (first.id == o.id && o.id != ""));
      FirstSeenIsFromTheLog(log, first);
      assert Timeless(first) in Lessons(log);
    }
    forall o <- FirstSeen(log) ensures o in log { FirstSeenIsFromTheLog(log, o); }
  }

  // ----- eviction -----------------------------------------------------------

  lemma {:induction false} ProfilesAreBounded(log: seq<Observation>)
    ensures |After(log).profiles| <= MAX_PROFILES
  {
    if log != [] {
      var h, o := After(log[..|log| - 1]), log[|log| - 1];
      ProfilesAreBounded(log[..|log| - 1]);
      if o.context.Some? && !IsRepeat(h, o) {
        var ps, key := WithObservation(h.profiles, o), o.context.value.key;
        assert ps.Keys == h.profiles.Keys + {key};
        if Evicts(h, o).Some? {
          assert (ps - {Evicts(h, o).value}).Keys == ps.Keys - {Evicts(h, o).value};
        }
      }
    }
  }

  /** The profile just recorded is pushed out exactly when it is one too many and the
      clock puts it strictly before every other profile; so never while recordings reach
      the lock in the order of their clock readings, which are taken before it. */
  lemma JustRecordedIsVictimIff(h: History, o: Observation)
    requires o.context.Some? && |h.profiles| <= MAX_PROFILES
    ensures var key := o.context.value.key;
            Evicts(h, o) == Some(key) <==>
              && !IsRepeat(h, o) && |h.profiles| == MAX_PROFILES && key !in h.profiles
              && forall k <- h.profiles :: o.time < h.profiles[k].last
  {
    var key := o.context.value.key;
    var ps := WithObservation(h.profiles, o);
    assert ps.Keys == h.profiles.Keys + {key};
    assert ps[key].last == o.time;
    assert forall k <- h.profiles :: k != key ==> ps[k] == h.profiles[k];
    hide WithObservation, IsRepeat;
    if key in h.profiles {
      assert ps.Keys == h.profiles.Keys;
    } else {
      assert |ps| == |h.profiles| + 1;
      if Evicts(h, o).Some? && h.profiles != map[] {
        var victim := Victim(ps, key);
        if victim == key {
          forall k <- h.profiles ensures o.time < h.profiles[k].last { assert NoYounger(ps, key, key, k); }
        } else {
          assert NoYounger(ps, key, victim, key);
        }
      }
    }
  }

  /** What goes when there is one profile too many: one observed least recently, of those
      the first in file order, where the new one is last. */
  lemma EvictionIs(h: History, o: Observation, k: Key)
    requires o.context.Some? && !IsRepeat(h, o) && |h.profiles| <= MAX_PROFILES
    requires Evicts(h, o) == Some(k)
    ensures var ps := WithObservation(h.profiles, o);
            && |h.profiles| == MAX_PROFILES && o.context.value.key !in h.profiles && k in ps
            && forall other <- ps ::
                 && ps[k].last <= ps[other].last
                 && (ps[k].last == ps[other].last && other != k ==>
                       other == o.context.value.key || (k != o.context.value.key && k < other))
  {
    var ps := WithObservation(h.profiles, o);
    var added := o.context.value.key;
    assert ps.Keys == h.profiles.Keys + {added};
    forall other <- ps ensures NoYounger(ps, added, k, other) {}
  }

  // ----- the recommendation -------------------------------------------------

  function CeilDiv(a: nat, b: nat): nat
    requires b > 0
  {
    (a + b - 1) / b
  }

  /** A measured peak with its margin, in MiB. */
  function Scaled(peak: nat): nat {
    CeilDiv(peak * 115, 100 * MIB)
  }

  /** A model's declared estimates, under the four names they go by, and the bytes of
      its weights; 0 where nothing is given. */
  datatype Anchor = Anchor(gpuMem: nat, gpuMemMb: nat, gpuMemoryMb: nat, memoryMb: nat, weightBytes: nat)

  /** What the weights take when loaded, in MiB. */
  function Loaded(weightBytes: nat): nat {
    CeilDiv(weightBytes * 12, 10 * MIB)
  }

  /** `model_memory_mib`. */
  function Estimate(a: Anchor): nat {
    NatMax(NatMax(NatMax(a.gpuMem, a.gpuMemMb), NatMax(a.gpuMemoryMb, a.memoryMb)), Loaded(a.weightBytes))
  }

  datatype Learned = Learned(peak: nat, bound: nat, samples: nat)

  function OfProfile(h: History, key: Key): Learned {
    if key in h.profiles then Learned(h.profiles[key].peak, h.profiles[key].bound, h.profiles[key].samples)
    else Learned(0, 0, 0)
  }

  /** `lookup`: an instance's context with features also knows what its base knows. */
  function Lookup(h: History, c: Context): Learned {
    var own := OfProfile(h, c.key);
    if c.scope.InstanceScope? && c.hasFeatures then
      var base := OfProfile(h, c.base);
      Learned(NatMax(own.peak, base.peak), NatMax(own.bound, base.bound), own.samples + base.samples)
    else own
  }

  datatype Failure = Failure(peak: nat, inUse: nat, needed: nat)

  function Reanchored(declared: nat, amount: nat, f: Failure): nat {
    var held := if f.inUse > 0 then f.inUse else f.peak;
    NatMax(NatMax(amount, Scaled(held + f.needed)), NatMax(CeilDiv(declared * 125, 100), declared + 256))
  }

  datatype Decision = LimitExceeded | Decided(amount: nat)

  function Largest(declared: nat, estimate: nat, learned: Learned): nat {
    NatMax(NatMax(declared, estimate), NatMax(Scaled(learned.peak), learned.bound))
  }

  /** `recommend_resources`; a limit of 0 is none. */
  function Recommend(declared: nat, model: Anchor, learned: Learned, failure: Option<Failure>, limit: nat): Decision {
    var amount := Largest(declared, Estimate(model), learned);
    var anchored := if failure.Some? then Reanchored(declared, amount, failure.value) else amount;
    if limit > 0 && anchored > limit then LimitExceeded else Decided(anchored)
  }

  lemma ScaledMonotone(a: nat, b: nat)
    requires a <= b
    ensures Scaled(a) <= Scaled(b)
  {
    assert a * 115 + (100 * MIB - 1) <= b * 115 + (100 * MIB - 1);
  }

  /** The keys whose observations count for a context. */
  function KeysFor(c: Context): set<Key> {
    if c.scope.InstanceScope? && c.hasFeatures then {c.key, c.base} else {c.key}
  }

  /** The least whole amount that is no less than `num` times what is given, over `den`. */
  predicate IsRoundedUp(n: nat, given: nat, num: nat, den: nat) {
    n * den >= given * num && (n > 0 ==> (n - 1) * den < given * num)
  }

  /** A peak with 15 percent more, in whole MiB. */
  predicate IsWithMargin(n: nat, peak: nat) {
    IsRoundedUp(n, peak, 115, 104857600)
  }

  /** The weights of a model with 20 percent more, in whole MiB. */
  predicate IsLoadedWeight(n: nat, bytes: nat) {
    IsRoundedUp(n, bytes, 12, 10485760)
  }

  /** What an amount may be: the declared one, one of the model's estimates, its loaded
      weights, a peak with its margin, or a bound; and after a failure, what was held and
      what was asked for beside it with the margin, a quarter more than declared, or 256
      more. */
  ghost predicate IsCandidate(
    log: seq<Observation>, c: Context, declared: nat, model: Anchor, failure: Option<Failure>, n: nat)
  {
    || n == declared || FromModel(model, n)
    || (exists o <- FirstSeen(log) :: TeachesPeak(o, c) && IsWithMargin(n, o.peak.value))
    || (exists o <- FirstSeen(log) :: TeachesBound(o, c) && o.required == n)
    || (failure.Some? && FromFailure(declared, failure.value, n))
  }

  predicate FromModel(model: Anchor, n: nat) {
    || n in [model.gpuMem, model.gpuMemMb, model.gpuMemoryMb, model.memoryMb]
    || IsLoadedWeight(n, model.weightBytes)
  }

  predicate FromFailure(declared: nat, f: Failure, n: nat) {
    || (f.inUse > 0 && IsWithMargin(n, f.inUse + f.needed))
    || (f.inUse == 0 && IsWithMargin(n, f.peak + f.needed))
    || IsRoundedUp(n, declared, 125, 100)
    || n == declared + 256
  }

  /** The observation is about this context, or about the same instance without features. */
  predicate IsAbout(o: Observation, c: Context) {
    && o.context.Some?
    && (o.context.value.key == c.key || (c.scope.InstanceScope? && c.hasFeatures && o.context.value.key == c.base))
  }

  /** A success measured where the context is. */
  predicate TeachesPeak(o: Observation, c: Context) {
    IsAbout(o, c) && o.success && o.peak.Some? && o.measured == o.context.value.scope
  }

  /** A failure that reports what it would have needed; of an instance without features only
      while loading. */
  predicate TeachesBound(o: Observation, c: Context) {
    && IsAbout(o, c) && !o.success && o.required > 0
    && (o.context.value.scope.TaskScope? || o.context.value.hasFeatures || o.loading)
  }

  lemma TeachingIs(o: Observation, c: Context)
    ensures TeachesPeak(o, c) <==> CountsAsSuccess(o) && o.context.value.key in KeysFor(c)
    ensures TeachesBound(o, c) <==> CountsAsFailure(o) && o.context.value.key in KeysFor(c)
  {
  }

  lemma CeilDivIs(a: nat, b: nat)
    requires b > 0
    ensures CeilDiv(a, b) * b >= a && (CeilDiv(a, b) > 0 ==> (CeilDiv(a, b) - 1) * b < a)
  {
    var q := CeilDiv(a, b);
    assert (a + b - 1) == q * b + (a + b - 1) % b;
  }

  lemma TimesGrows(a: nat, b: nat, den: nat)
    ensures a <= b ==> a * den <= b * den
  {
  }

  lemma NoneLess(n: nat, m: nat, amount: nat, den: nat)
    requires n * den >= amount && (m > 0 ==> (m - 1) * den < amount)
    ensures m <= n
  {
    if m > 0 { TimesGrows(n, m - 1, den); }
  }

  lemma RoundedUpIsUnique(n: nat, m: nat, given: nat, num: nat, den: nat)
    requires den > 0 && IsRoundedUp(n, given, num, den) && IsRoundedUp(m, given, num, den)
    ensures n == m
  {
    NoneLess(n, m, given * num, den);
    NoneLess(m, n, given * num, den);
  }

  lemma RoundedUpIs(given: nat, num: nat, den: nat, n: nat)
    requires den > 0
    ensures IsRoundedUp(n, given, num, den) <==> n == CeilDiv(given * num, den)
  {
    CeilDivIs(given * num, den);
    assert IsRoundedUp(CeilDiv(given * num, den), given, num, den);
    if IsRoundedUp(n, given, num, den) { RoundedUpIsUnique(n, CeilDiv(given * num, den), given, num, den); }
  }

  lemma MarginIs(peak: nat, n: nat)
    ensures IsWithMargin(n, peak) <==> n == Scaled(peak)
  {
    RoundedUpIs(peak, 115, 104857600, n);
  }

  lemma LoadedIs(bytes: nat, n: nat)
    ensures IsLoadedWeight(n, bytes) <==> n == Loaded(bytes)
  {
    RoundedUpIs(bytes, 12, 10485760, n);
  }

  ghost predicate NeverForgotten(log: seq<Observation>, c: Context) {
    forall k <- KeysFor(c) :: NeverEvicted(log, k)
  }

  lemma EstimateIsTheLargest(model: Anchor)
    ensures FromModel(model, Estimate(model))
    ensures forall n: nat :: FromModel(model, n) ==> n <= Estimate(model)
  {
    forall n: nat ensures IsLoadedWeight(n, model.weightBytes) <==> n == Loaded(model.weightBytes) {
      LoadedIs(model.weightBytes, n);
    }
    hide Loaded, IsLoadedWeight;
  }

  /** What a key's profile says is the largest of its eligible observations. */
  lemma LearnedIsLargest(log: seq<Observation>, key: Key)
    requires NeverEvicted(log, key)
    ensures IsLargestPeak(FirstSeen(log), key, OfProfile(After(log), key).peak)
    ensures IsLargestBound(FirstSeen(log), key, OfProfile(After(log), key).bound)
  {
    SummaryAgreesWithTheLog(log, key);
    SummaryIsTheMaximum(log, key);
  }

  lemma PeakIsCovered(log: seq<Observation>, c: Context, o: Observation)
    requires NeverForgotten(log, c) && o in FirstSeen(log) && TeachesPeak(o, c)
    ensures o.peak.value <= Lookup(After(log), c).peak
  {
    TeachingIs(o, c);
    LearnedIsLargest(log, o.context.value.key);
    hide NeverEvicted, OfProfile, After, FirstSeen, TeachesPeak, TeachesBound;
  }

  lemma BoundIsCovered(log: seq<Observation>, c: Context, o: Observation)
    requires NeverForgotten(log, c) && o in FirstSeen(log) && TeachesBound(o, c)
    ensures o.required <= Lookup(After(log), c).bound
  {
    TeachingIs(o, c);
    LearnedIsLargest(log, o.context.value.key);
    hide NeverEvicted, OfProfile, After, FirstSeen, TeachesPeak, TeachesBound;
  }

  /** The looked-up peak and bound come from the log. */
  lemma LookupIsCandidate(log: seq<Observation>, c: Context)
    requires NeverForgotten(log, c)
    ensures var l := Lookup(After(log), c);
            && (l.peak > 0 ==> exists o <- FirstSeen(log) :: TeachesPeak(o, c) && o.peak.value == l.peak)
            && (l.bound > 0 ==> exists o <- FirstSeen(log) :: TeachesBound(o, c) && o.required == l.bound)
  {
    forall k <- KeysFor(c)
      ensures IsLargestPeak(FirstSeen(log), k, OfProfile(After(log), k).peak)
      ensures IsLargestBound(FirstSeen(log), k, OfProfile(After(log), k).bound)
    {
      LearnedIsLargest(log, k);
    }
    forall o: Observation
      ensures TeachesPeak(o, c) <==> CountsAsSuccess(o) && o.context.value.key in KeysFor(c)
      ensures TeachesBound(o, c) <==> CountsAsFailure(o) && o.context.value.key in KeysFor(c)
    {
      TeachingIs(o, c);
    }
    hide NeverEvicted, OfProfile, After, FirstSeen, TeachesPeak, TeachesBound;
  }

  /** The recommended amount before the limit. */
  function Amount(declared: nat, model: Anchor, learned: Learned, failure: Option<Failure>): nat {
    var amount := Largest(declared, Estimate(model), learned);
    if failure.Some? then Reanchored(declared, amount, failure.value) else amount
  }

  lemma FailureIs(declared: nat, f: Failure, amount: nat)
    ensures forall n: nat :: FromFailure(declared, f, n) ==> n <= Reanchored(declared, amount, f)
    ensures Reanchored(declared, amount, f) == amount || FromFailure(declared, f, Reanchored(declared, amount, f))
    ensures amount <= Reanchored(declared, amount, f)
  {
    var held := if f.inUse > 0 then f.inUse else f.peak;
    forall n: nat
      ensures IsWithMargin(n, held + f.needed) <==> n == Scaled(held + f.needed)
      ensures IsRoundedUp(n, declared, 125, 100) <==> n == CeilDiv(declared * 125, 100)
    {
      MarginIs(held + f.needed, n);
      RoundedUpIs(declared, 125, 100, n);
    }
    hide IsWithMargin, IsRoundedUp, Scaled, CeilDiv;
  }

  lemma CandidateIsCovered(
    log: seq<Observation>, c: Context, declared: nat, model: Anchor, failure: Option<Failure>, n: nat)
    requires NeverForgotten(log, c) && IsCandidate(log, c, declared, model, failure, n)
    ensures n <= Amount(declared, model, Lookup(After(log), c), failure)
  {
    var l := Lookup(After(log), c);
    EstimateIsTheLargest(model);
    if failure.Some? { FailureIs(declared, failure.value, Largest(declared, Estimate(model), l)); }
    hide NeverForgotten, Lookup, After, KeysFor, Scaled, FirstSeen, Estimate, FromModel, FromFailure, Reanchored;
    if n != declared && !FromModel(model, n) && !(failure.Some? && FromFailure(declared, failure.value, n)) {
      if o :| o in FirstSeen(log) && TeachesPeak(o, c) && IsWithMargin(n, o.peak.value) {
        PeakIsCovered(log, c, o);
        MarginIs(o.peak.value, n);
        ScaledMonotone(o.peak.value, l.peak);
      } else {
        var o :| o in FirstSeen(log) && TeachesBound(o, c) && o.required == n;
        BoundIsCovered(log, c, o);
      }
    }
  }

  lemma NoPeakNoAmount(peak: nat)
    ensures peak == 0 ==> Scaled(peak) == 0
  {
  }

  lemma AmountIsCandidate(
    log: seq<Observation>, c: Context, declared: nat, model: Anchor, failure: Option<Failure>)
    requires NeverForgotten(log, c)
    ensures IsCandidate(log, c, declared, model, failure, Amount(declared, model, Lookup(After(log), c), failure))
  {
    var l := Lookup(After(log), c);
    var amount := Largest(declared, Estimate(model), l);
    LookupIsCandidate(log, c);
    EstimateIsTheLargest(model);
    if failure.Some? { FailureIs(declared, failure.value, amount); }
    NoPeakNoAmount(l.peak);
    MarginIs(l.peak, Scaled(l.peak));
    hide After, FirstSeen, NeverForgotten, Lookup, KeysFor, Scaled, FromModel, Estimate, TeachesPeak, TeachesBound;
    hide IsWithMargin, FromFailure, Reanchored;
    assert IsCandidate(log, c, declared, model, failure, amount);
  }

  /** Without eviction, the recommended amount is the maximum over the declared amount, the
      model's estimates and loaded weights, the peaks with their margin and the bounds of the
      observations that count for the context and its base, and what the failure to react
      to asks for; only a limit below that stops it. */
  lemma RecommendsTheMaximum(
    log: seq<Observation>, c: Context, declared: nat, model: Anchor, failure: Option<Failure>, limit: nat)
    requires NeverForgotten(log, c)
    ensures exists amount: nat ::
              && IsCandidate(log, c, declared, model, failure, amount)
              && (forall n: nat :: IsCandidate(log, c, declared, model, failure, n) ==> n <= amount)
              && Recommend(declared, model, Lookup(After(log), c), failure, limit)
                 == if 0 < limit < amount then LimitExceeded else Decided(amount)
  {
    var amount := Amount(declared, model, Lookup(After(log), c), failure);
    AmountIsCandidate(log, c, declared, model, failure);
    forall n: nat | IsCandidate(log, c, declared, model, failure, n) ensures n <= amount {
      CandidateIsCovered(log, c, declared, model, failure, n);
    }
    hide After, NeverForgotten, Lookup, Estimate, Reanchored, IsCandidate, Largest;
  }

  // ----- re-anchoring after an out-of-memory failure ------------------------

  datatype Retry = Retry(model: Anchor, learned: Learned, failure: Failure)

  /** Each request is the recommendation made from the one before it and its failure. */
  predicate IsChain(requests: seq<nat>, retries: seq<Retry>, limit: nat) {
    && |requests| == |retries| + 1
    && forall i :: 0 <= i < |retries| ==>
         Recommend(requests[i], retries[i].model, retries[i].learned, Some(retries[i].failure), limit)
         == Decided(requests[i + 1])
  }

  lemma {:induction false} ChainClimbs(requests: seq<nat>, retries: seq<Retry>, limit: nat, n: nat)
    requires IsChain(requests, retries, limit) && n < |requests|
    ensures requests[n] >= requests[0] + 256 * n
    ensures n > 0 && limit > 0 ==> requests[n] <= limit
  {
    if n > 0 {
      ChainClimbs(requests, retries, limit, n - 1);
      var r := retries[n - 1];
      assert Recommend(requests[n - 1], r.model, r.learned, Some(r.failure), limit) == Decided(requests[n - 1 + 1]);
    }
  }

  /** Under a limit a task is retried with more memory a bounded number of times. */
  lemma RetriesAreBounded(requests: seq<nat>, retries: seq<Retry>, limit: nat)
    requires limit > 0 && IsChain(requests, retries, limit) && retries != []
    ensures requests[0] < limit && |retries| <= (limit - requests[0]) / 256
  {
    ChainClimbs(requests, retries, limit, |retries|);
  }

  // ----- the store ----------------------------------------------------------

  class ResourceHistoryStore {
    var profiles: map<Key, Profile>
    var observationIds: seq<string>

    ghost function State(): History
      reads this
    {
      History(profiles, observationIds)
    }

    constructor ()
      ensures State() == FRESH
    {
      profiles, observationIds := map[], [];
    }

    /** The first of the least recently observed profiles in file order. */
    method Oldest(added: Key) returns (oldest: Key)
      requires profiles != map[]
      ensures oldest == Victim(profiles, added)
    {
      oldest :| oldest in profiles;
      var rest := profiles.Keys - {oldest};
      while rest != {}
        invariant rest <= profiles.Keys && oldest in profiles.Keys - rest
        invariant IsOldest(profiles, added, profiles.Keys - rest, oldest)
        decreases |rest|
      {
        var k :| k in rest;
        if profiles[k].last < profiles[oldest].last
           || (profiles[k].last == profiles[oldest].last && (oldest == added || (k != added && k <= oldest))) {
          OldestIsReplaced(profiles, added, profiles.Keys - rest, oldest, k);
          oldest := k;
        }
        rest := rest - {k};
      }
      assert profiles.Keys - {} == profiles.Keys;
      OldestIsUnique(profiles, added, profiles.Keys, oldest, Victim(profiles, added));
    }

    /** The profile part of `record`. */
    method UpdateProfile(o: Observation)
      requires o.context.Some?
      modifies this`profiles
      ensures profiles == WithObservation(old(profiles), o)
    {
      var key := o.context.value.key;
      var p := if key in profiles then profiles[key] else NEW_PROFILE;
      var samples, peak, bound := p.samples, p.peak, p.bound;
      if o.success && o.peak.Some? && o.measured == o.context.value.scope {
        samples := samples + 1;
        if o.peak.value > peak { peak := o.peak.value; }
      }
      if !o.success && o.required > 0
         && (o.context.value.scope.TaskScope? || o.context.value.hasFeatures || o.loading) {
        if o.required > bound { bound := o.required; }
      }
      profiles := profiles[key := Profile(samples, peak, bound, o.time)];
    }

    method Record(o: Observation) returns (recorded: bool)
      modifies this
      ensures State() == Recorded(old(State()), o)
      ensures recorded <==> !IsRepeat(old(State()), o)
    {
      if o.id != "" && o.id in observationIds { return false; }
      if o.context.Some? {
        UpdateProfile(o);
        if |profiles| > MAX_PROFILES {
          var oldest := Oldest(o.context.value.key);
          profiles := profiles - {oldest};
        }
      }
      if o.id != "" {
        observationIds := observationIds + [o.id];
        if |observationIds| > MAX_OBSERVATION_IDS {
          observationIds := observationIds[|observationIds| - MAX_OBSERVATION_IDS..];
        }
      }
      return true;
    }
  }

  lemma OldestIsReplaced(ps: map<Key, Profile>, added: Key, keys: set<Key>, was: Key, k: Key)
    requires keys <= ps.Keys && k in ps && IsOldest(ps, added, keys, was) && NoYounger(ps, added, k, was)
    ensures IsOldest(ps, added, keys + {k}, k)
  {
    forall other <- keys ensures NoYounger(ps, added, k, other) {
      assert NoYounger(ps, added, was, other);
    }
  }

  lemma OldestIsUnique(ps: map<Key, Profile>, added: Key, keys: set<Key>, a: Key, b: Key)
    requires keys <= ps.Keys && IsOldest(ps, added, keys, a) && IsOldest(ps, added, keys, b)
    ensures a == b
  {
    assert NoYounger(ps, added, a, b) && NoYounger(ps, added, b, a);
  }

  /** The local amount grows from one source to the next. */
  method RecommendResources(declared: nat, model: Anchor, learned: Learned, failure: Option<Failure>, limit: nat)
    returns (decision: Decision)
    ensures decision == Recommend(declared, model, learned, failure, limit)
  {
    hide Scaled, CeilDiv, Estimate;
    var amount := declared;
    var estimate := Estimate(model);
    if estimate > amount { amount := estimate; }
    var observed := Scaled(learned.peak);
    if observed > amount { amount := observed; }
    if learned.bound > amount { amount := learned.bound; }
    if failure.Some? {
      var f := failure.value;
      var held := if f.inUse > 0 then f.inUse else f.peak;
      var grown := CeilDiv(declared * 125, 100);
      if Scaled(held + f.needed) > amount { amount := Scaled(held + f.needed); }
      if grown > amount { amount := grown; }
      if declared + 256 > amount { amount := declared + 256; }
    }
    if limit > 0 && amount > limit { return LimitExceeded; }
    return Decided(amount);
  }
}
