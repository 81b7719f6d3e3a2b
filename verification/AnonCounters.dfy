/** The anonymous-traffic counters: increments buffered in Redis and drained into the database
    by concurrent flushers, as a state machine over the flush's own steps. */
module AnonCounters {

  datatype Counter = Counter(metric: string, dim: string)

  type Counts = map<Counter, nat>

  function Get(m: Counts, k: Counter): nat {
    if k in m then m[k] else 0
  }

  /** Where one flush stands. `touched` records the counters incremented since its swap. */
  datatype Flush =
    | Idle
    | Listed(members: set<Counter>)
    | Swapped(counts: Counts, touched: set<Counter>)
    | Stored(keys: set<Counter>, touched: set<Counter>)
  {
    function InFlight(k: Counter): nat {
      if Swapped? then Get(counts, k) else 0
    }

    /** The counters this flush will delete. */
    function Holds(): set<Counter> {
      match this
      case Swapped(c, _) => c.Keys
      case Stored(ks, _) => ks
      case _ => {}
    }

    function Touch(k: Counter): Flush {
      match this
      case Swapped(c, t) => Swapped(c, t + {k})
      case Stored(ks, t) => Stored(ks, t + {k})
      case _ => this
    }
  }

  /** Redis counters and index, database counts, flushers, and the history of what was recorded and lost. */
  datatype State = State(
    redis: Counts,
    index: set<Counter>,
    db: Counts,
    flushers: seq<Flush>,
    recorded: Counts,
    lost: Counts)

  datatype Event =
    | Increment(k: Counter)
    | List(i: nat)
    | Swap(i: nat)
    | Store(i: nat)
    | Clean(i: nat)
    | Crash(i: nat)

  function AddAll(m: Counts, more: Counts): Counts {
    map k | k in m.Keys + more.Keys :: Get(m, k) + Get(more, k)
  }

  function TouchAll(fs: seq<Flush>, k: Counter): (r: seq<Flush>)
    ensures |r| == |fs|
  {
    seq(|fs|, i requires 0 <= i < |fs| => fs[i].Touch(k))
  }

  function Step(s: State, e: Event): State {
    match e
    case Increment(k) =>
      s.(redis := s.redis[k := Get(s.redis, k) + 1],
         index := s.index + {k},
         flushers := TouchAll(s.flushers, k),
         recorded := s.recorded[k := Get(s.recorded, k) + 1])
    case List(i) =>
      if i < |s.flushers| && s.flushers[i].Idle? && s.index != {}
      then s.(flushers := s.flushers[i := Listed(s.index)]) else s
    case Swap(i) =>
      if i < |s.flushers| && s.flushers[i].Listed? then
        var m := s.flushers[i].members;
        s.(redis := s.redis + (map k | k in m :: 0),
           flushers := s.flushers[i := Swapped(map k | k in m :: Get(s.redis, k), {})])
      else s
    case Store(i) =>
      if i < |s.flushers| && s.flushers[i].Swapped? then
        var f := s.flushers[i];
        s.(db := AddAll(s.db, f.counts), flushers := s.flushers[i := Stored(f.counts.Keys, f.touched)])
      else s
    case Clean(i) =>
      if i < |s.flushers| && s.flushers[i].Stored? then
        var ks := s.flushers[i].keys;
        s.(redis := s.redis - ks, index := {},
           lost := AddAll(s.lost, map k | k in ks :: Get(s.redis, k)),
           flushers := s.flushers[i := Idle])
      else s
    case Crash(i) =>
      if i < |s.flushers| then
        var f := s.flushers[i];
        s.(lost := AddAll(s.lost, if f.Swapped? then f.counts else map[]), flushers := s.flushers[i := Idle])
      else s
  }

  function Run(s: State, es: seq<Event>): State {
    if es == [] then s else Step(Run(s, es[..|es| - 1]), es[|es| - 1])
  }

  predicate Initial(s: State) {
    && s.redis == map[] && s.index == {} && s.db == map[] && s.recorded == map[] && s.lost == map[]
    && forall i :: 0 <= i < |s.flushers| ==> s.flushers[i] == Idle
  }

  // ----- Conservation -----

  function SumInFlight(fs: seq<Flush>, k: Counter): nat {
    if fs == [] then 0 else SumInFlight(fs[..|fs| - 1], k) + fs[|fs| - 1].InFlight(k)
  }

  lemma {:induction false} SumInFlightUpdate(fs: seq<Flush>, i: nat, f: Flush, k: Counter)
    requires i < |fs|
    ensures SumInFlight(fs[i := f], k) == SumInFlight(fs, k) - fs[i].InFlight(k) + f.InFlight(k)
  {
    var n := |fs| - 1;
    if i == n {
      assert fs[i := f][..n] == fs[..n];
    } else {
      SumInFlightUpdate(fs[..n], i, f, k);
      assert fs[i := f][..n] == fs[..n][i := f];
    }
  }

  lemma {:induction false} TouchKeepsInFlight(fs: seq<Flush>, touched: Counter, k: Counter)
    ensures SumInFlight(TouchAll(fs, touched), k) == SumInFlight(fs, k)
  {
    if fs != [] {
      var n := |fs| - 1;
      TouchKeepsInFlight(fs[..n], touched, k);
      assert TouchAll(fs, touched)[..n] == TouchAll(fs[..n], touched);
    }
  }

  /** Every recorded increment of a counter is in exactly one place. */
  predicate Conserved(s: State, k: Counter) {
    Get(s.recorded, k) == Get(s.db, k) + Get(s.redis, k) + SumInFlight(s.flushers, k) + Get(s.lost, k)
  }

  /** A flusher's step moves its own counts and no others. */
  lemma MovedConserves(s: State, t: State, i: nat, k: Counter)
    requires Conserved(s, k) && i < |s.flushers|
    requires |t.flushers| == |s.flushers| && t.flushers == s.flushers[i := t.flushers[i]]
    requires t.recorded == s.recorded
    requires Get(t.db, k) + Get(t.redis, k) + t.flushers[i].InFlight(k) + Get(t.lost, k)
          == Get(s.db, k) + Get(s.redis, k) + s.flushers[i].InFlight(k) + Get(s.lost, k)
    ensures Conserved(t, k)
  {
    SumInFlightUpdate(s.flushers, i, t.flushers[i], k);
  }

  lemma ListOrSwapConserves(s: State, e: Event, k: Counter)
    requires Conserved(s, k) && (e.List? || e.Swap?)
    ensures Conserved(Step(s, e), k)
  {
    if Step(s, e) != s {
      MovedConserves(s, Step(s, e), e.i, k);
    }
  }

  lemma StoreConserves(s: State, e: Event, k: Counter)
    requires Conserved(s, k) && e.Store?
    ensures Conserved(Step(s, e), k)
  {
    if Step(s, e) != s {
      MovedConserves(s, Step(s, e), e.i, k);
    }
  }

  lemma CleanConserves(s: State, e: Event, k: Counter)
    requires Conserved(s, k) && e.Clean?
    ensures Conserved(Step(s, e), k)
  {
    if Step(s, e) != s {
      MovedConserves(s, Step(s, e), e.i, k);
    }
  }

  lemma CrashConserves(s: State, e: Event, k: Counter)
    requires Conserved(s, k) && e.Crash?
    ensures Conserved(Step(s, e), k)
  {
    if e.i < |s.flushers| {
      MovedConserves(s, Step(s, e), e.i, k);
    }
  }

  lemma StepConserves(s: State, e: Event, k: Counter)
    requires Conserved(s, k)
    ensures Conserved(Step(s, e), k)
  {
    match e
    case Increment(touched) => TouchKeepsInFlight(s.flushers, touched, k);
    case List(_) => ListOrSwapConserves(s, e, k);
    case Swap(_) => ListOrSwapConserves(s, e, k);
    case Store(_) => StoreConserves(s, e, k);
    case Clean(_) => CleanConserves(s, e, k);
    case Crash(_) => CrashConserves(s, e, k);
  }

  lemma {:induction false} InitialConserved(s: State, fs: seq<Flush>, k: Counter)
    requires forall i :: 0 <= i < |fs| ==> fs[i] == Idle
    ensures SumInFlight(fs, k) == 0
  {
    if fs != [] {
      InitialConserved(s, fs[..|fs| - 1], k);
    }
  }

  /** No double counting: over every interleaving of increments, flushes and crashes, the database and
      Redis together never show more than was recorded, and every missing increment is accounted for. */
  lemma {:induction false} NeverOvercounts(s: State, es: seq<Event>, k: Counter)
    requires Initial(s)
    ensures Conserved(Run(s, es), k)
    ensures Get(Run(s, es).db, k) + Get(Run(s, es).redis, k) <= Get(Run(s, es).recorded, k)
  {
    if es == [] {
      InitialConserved(s, s.flushers, k);
    } else {
      NeverOvercounts(s, es[..|es| - 1], k);
      StepConserves(Run(s, es[..|es| - 1]), es[|es| - 1], k);
    }
  }

  // ----- When nothing is lost -----

  /** A counter a flush is about to delete is zero unless it was incremented after the swap. */
  predicate TouchedSound(s: State) {
    forall i, k :: 0 <= i < |s.flushers| && k in s.flushers[i].Holds() && Get(s.redis, k) > 0
      ==> k in Touched(s.flushers[i])
  }

  function Touched(f: Flush): set<Counter> {
    match f
    case Swapped(_, t) => t
    case Stored(_, t) => t
    case _ => {}
  }

  lemma StepKeepsTouchedSound(s: State, e: Event)
    requires TouchedSound(s)
    ensures TouchedSound(Step(s, e))
  {
    var t := Step(s, e);
    if e.Increment? {
      IncrementKeepsTouched(s, e.k);
    } else {
      forall i, k | 0 <= i < |t.flushers| && k in t.flushers[i].Holds() && Get(t.redis, k) > 0
        ensures k in Touched(t.flushers[i])
      {
        assert Get(s.redis, k) > 0;
        if i != e.i {
          assert t.flushers[i] == s.flushers[i];
        } else {
          assert k in s.flushers[i].Holds();
        }
      }
    }
  }

  lemma IncrementKeepsTouched(s: State, j: Counter)
    requires TouchedSound(s)
    ensures TouchedSound(Step(s, Increment(j)))
  {
    var t := Step(s, Increment(j));
    forall i, k | 0 <= i < |t.flushers| && k in t.flushers[i].Holds() && Get(t.redis, k) > 0
      ensures k in Touched(t.flushers[i])
    {
      assert t.flushers[i] == s.flushers[i].Touch(j);
      TouchAdds(s.flushers[i], j);
      assert k == j || Get(s.redis, k) > 0;
    }
  }

  lemma TouchAdds(f: Flush, j: Counter)
    ensures f.Touch(j).Holds() == f.Holds()
    ensures f.Holds() != {} ==> Touched(f.Touch(j)) == Touched(f) + {j}
  {
  }

  /** A step is quiet unless it deletes a counter incremented since its flush's swap, or drops counts in flight. */
  predicate Quiet(s: State, e: Event) {
    && (e.Clean? && e.i < |s.flushers| && s.flushers[e.i].Stored? ==> s.flushers[e.i].touched !! s.flushers[e.i].keys)
    && (e.Crash? && e.i < |s.flushers| ==> !s.flushers[e.i].Swapped?)
  }

  predicate QuietRun(s: State, es: seq<Event>) {
    es == [] || (QuietRun(s, es[..|es| - 1]) && Quiet(Run(s, es[..|es| - 1]), es[|es| - 1]))
  }

  lemma QuietStepLosesNothing(s: State, e: Event, k: Counter)
    requires TouchedSound(s) && Quiet(s, e)
    ensures Get(Step(s, e).lost, k) == Get(s.lost, k)
  {
    if e.Clean? && e.i < |s.flushers| && s.flushers[e.i].Stored? && k in s.flushers[e.i].keys {
      assert k in s.flushers[e.i].Holds();
      assert Get(s.redis, k) == 0;
    }
  }

  /** Exact counting: when no increment falls between a flush's swap and its clean-up, and none crashes
      with counts in hand, every recorded increment is in the database, in Redis or in flight. */
  lemma {:induction false} QuietRunLosesNothing(s: State, es: seq<Event>, k: Counter)
    requires Initial(s) && QuietRun(s, es)
    ensures TouchedSound(Run(s, es)) && Get(Run(s, es).lost, k) == 0
    ensures var t := Run(s, es);
      Get(t.recorded, k) == Get(t.db, k) + Get(t.redis, k) + SumInFlight(t.flushers, k)
  {
    NeverOvercounts(s, es, k);
    if es != [] {
      var before := Run(s, es[..|es| - 1]);
      QuietRunLosesNothing(s, es[..|es| - 1], k);
      StepKeepsTouchedSound(before, es[|es| - 1]);
      QuietStepLosesNothing(before, es[|es| - 1], k);
    }
  }

  /** A flusher at work holds at least one counter. */
  predicate HoldsSome(f: Flush) {
    match f
    case Idle => true
    case Listed(m) => m != {}
    case Swapped(c, _) => c.Keys != {}
    case Stored(ks, _) => ks != {}
  }

  lemma StepHoldsSome(s: State, e: Event, i: nat)
    requires i < |s.flushers| && HoldsSome(s.flushers[i])
    ensures |Step(s, e).flushers| == |s.flushers| && HoldsSome(Step(s, e).flushers[i])
  {
    if e.Swap? && e.i == i && s.flushers[i].Listed? {
      var k :| k in s.flushers[i].members;
      assert k in Step(s, e).flushers[i].counts.Keys;
    }
  }

  /** Over every run, a flush that found nothing indexed does nothing: only one with counters of its own ever
      deletes the index. */
  lemma {:induction false} FlushesHoldSome(s: State, es: seq<Event>, i: nat)
    requires Initial(s) && i < |s.flushers|
    ensures |Run(s, es).flushers| == |s.flushers| && HoldsSome(Run(s, es).flushers[i])
  {
    if es != [] {
      FlushesHoldSome(s, es[..|es| - 1], i);
      StepHoldsSome(Run(s, es[..|es| - 1]), es[|es| - 1], i);
    }
  }

  /** A crash frees its flusher, leaves Redis, index and database as they were, and loses exactly what it held. */
  lemma CrashLosesWhatItHeld(s: State, i: nat, k: Counter)
    requires i < |s.flushers|
    ensures var t := Step(s, Crash(i));
      && t.flushers == s.flushers[i := Idle] && t.redis == s.redis && t.index == s.index && t.db == s.db
      && Get(t.lost, k) == Get(s.lost, k) + s.flushers[i].InFlight(k)
  {
  }

  /** An increment between swap and clean-up is lost: it is neither in the database nor in Redis. */
  lemma LateIncrementIsLost(k: Counter)
    ensures var s := Step(Step(Step(Step(Step(Step(
        State(map[], {}, map[], [Idle], map[], map[]),
        Increment(k)), List(0)), Swap(0)), Increment(k)), Store(0)), Clean(0));
      Get(s.recorded, k) == 2 && Get(s.db, k) == 1 && Get(s.redis, k) == 0 && Get(s.lost, k) == 1
  {
    var s0 := State(map[], {}, map[], [Idle], map[], map[]);
    var s1 := Step(s0, Increment(k));
    assert s1.flushers == [Idle] && Get(s1.redis, k) == 1;
    var s2 := Step(s1, List(0));
    assert s1.index == {k} && s2.flushers == [Listed({k})];
    var s3 := Step(s2, Swap(0));
    assert s3.flushers[0].counts == map[k := 1] && Get(s3.redis, k) == 0;
    var s4 := Step(s3, Increment(k));
    assert s4.flushers == [Swapped(map[k := 1], {k})] && Get(s4.redis, k) == 1;
    var s5 := Step(s4, Store(0));
    assert map[k := 1].Keys == {k};
    assert s5.flushers == [Stored({k}, {k})] && Get(s5.db, k) == 1;
    var s6 := Step(s5, Clean(0));
    assert k in s5.flushers[0].keys;
  }

  // ----- Counters left without an index entry -----

  /** Counts sit in Redis that no index entry leads to. */
  predicate Stranded(s: State, k: Counter) {
    Get(s.redis, k) > 0 && k !in s.index
  }

  /** Deleting the whole index strands exactly the counters that still hold counts and were not among those
      the flush swapped: in particular any first incremented after it listed the index. A stranded counter is
      found again only by its next increment, or by a flush that had listed it before. */
  lemma StrandedExactly(s: State, e: Event, k: Counter)
    ensures Stranded(Step(s, e), k) <==>
      if e.Increment? then Stranded(s, k) && k != e.k
      else if e.i >= |s.flushers| then Stranded(s, k)
      else if e.Swap? && s.flushers[e.i].Listed? then Stranded(s, k) && k !in s.flushers[e.i].members
      else if e.Clean? && s.flushers[e.i].Stored? then Get(s.redis, k) > 0 && k !in s.flushers[e.i].keys
      else Stranded(s, k)
  {
  }

  /** Neither the index nor any flusher knows of the counter. */
  predicate Unmentioned(s: State, k: Counter) {
    k !in s.index && forall i :: 0 <= i < |s.flushers| ==> !Mentions(s.flushers[i], k)
  }

  predicate Mentions(f: Flush, k: Counter) {
    match f
    case Idle => false
    case Listed(m) => k in m
    case Swapped(c, _) => k in c
    case Stored(ks, _) => k in ks
  }

  lemma UnmentionedStep(s: State, e: Event, k: Counter)
    requires Unmentioned(s, k) && e != Increment(k)
    ensures var t := Step(s, e); Unmentioned(t, k) && Get(t.redis, k) == Get(s.redis, k) && Get(t.db, k) == Get(s.db, k)
  {
    if e.Increment? {
      UnmentionedIncrement(s, e.k, k);
    } else if e.i < |s.flushers| {
      assert !Mentions(s.flushers[e.i], k);
      UnmentionedFlush(s, e, k);
    }
  }

  lemma UnmentionedIncrement(s: State, j: Counter, k: Counter)
    requires Unmentioned(s, k) && j != k
    ensures var t := Step(s, Increment(j));
      Unmentioned(t, k) && Get(t.redis, k) == Get(s.redis, k) && Get(t.db, k) == Get(s.db, k)
  {
    var t := Step(s, Increment(j));
    forall i | 0 <= i < |t.flushers| ensures !Mentions(t.flushers[i], k) {
      assert !Mentions(s.flushers[i], k) && t.flushers[i] == s.flushers[i].Touch(j);
    }
  }

  /** A flusher's step only moves counters it holds, and learns only of indexed ones. */
  lemma UnmentionedFlush(s: State, e: Event, k: Counter)
    requires Unmentioned(s, k) && !e.Increment? && e.i < |s.flushers| && !Mentions(s.flushers[e.i], k)
    ensures var t := Step(s, e); Unmentioned(t, k) && Get(t.redis, k) == Get(s.redis, k) && Get(t.db, k) == Get(s.db, k)
  {
    var t := Step(s, e);
    forall i | 0 <= i < |t.flushers| ensures !Mentions(t.flushers[i], k) {
      if i != e.i {
        assert t.flushers[i] == s.flushers[i];
      }
    }
  }

  /** A stranded counter that no flusher holds is never flushed, by any run that does not increment it again. */
  lemma {:induction false} StrandedNeverFlushed(s: State, es: seq<Event>, k: Counter)
    requires Unmentioned(s, k) && forall i :: 0 <= i < |es| ==> es[i] != Increment(k)
    ensures var t := Run(s, es); Unmentioned(t, k) && Get(t.redis, k) == Get(s.redis, k) && Get(t.db, k) == Get(s.db, k)
  {
    if es != [] {
      StrandedNeverFlushed(s, es[..|es| - 1], k);
      UnmentionedStep(Run(s, es[..|es| - 1]), es[|es| - 1], k);
    }
  }

  /** Such a counter arises when it is first incremented between a flush's listing and its clean-up. */
  lemma FirstIncrementIsStranded(j: Counter, k: Counter)
    requires j != k
    ensures var s := Step(Step(Step(Step(Step(Step(
        State(map[], {}, map[], [Idle], map[], map[]),
        Increment(k)), List(0)), Increment(j)), Swap(0)), Store(0)), Clean(0));
      Stranded(s, j) && Unmentioned(s, j) && Get(s.redis, j) == 1
  {
    var s1 := Step(State(map[], {}, map[], [Idle], map[], map[]), Increment(k));
    assert s1.flushers == [Idle] && s1.index == {k};
    var s2 := Step(s1, List(0));
    assert s2.flushers == [Listed({k})];
    var s3 := Step(s2, Increment(j));
    assert s3.flushers == [Listed({k})] && Get(s3.redis, j) == 1;
    var s4 := Step(s3, Swap(0));
    assert s4.flushers[0].counts.Keys == {k} && Get(s4.redis, j) == 1;
    var s5 := Step(s4, Store(0));
    assert s5.flushers[0].keys == {k};
  }

  // ----- The two sides as the program runs them -----

  function Occurrences(ks: seq<Counter>, k: Counter): nat {
    if ks == [] then 0 else Occurrences(ks[..|ks| - 1], k) + if ks[|ks| - 1] == k then 1 else 0
  }

  /** Redis and the database seen by one process with nothing in between. */
  class CounterStore {
    var redis: Counts
    var index: set<Counter>
    var db: Counts

    constructor ()
      ensures redis == map[] && index == {} && db == map[]
    {
      redis, index, db := map[], {}, map[];
    }

    method IncrRedis(increments: seq<Counter>)
      modifies this`redis, this`index
      ensures forall k :: Get(redis, k) == Get(old(redis), k) + Occurrences(increments, k)
      ensures index == old(index) + set k | k in increments
    {
      for i := 0 to |increments|
        invariant forall k :: Get(redis, k) == Get(old(redis), k) + Occurrences(increments[..i], k)
        invariant index == old(index) + set k | k in increments[..i]
      {
        var k := increments[i];
        assert increments[..i + 1][..i] == increments[..i];
        redis := redis[k := Get(redis, k) + 1];
        index := index + {k};
      }
      assert increments[..|increments|] == increments;
    }

    /** Adds positive counts to the database rows. */
    method UpsertCounts(counts: Counts)
      modifies this`db
      ensures forall k :: Get(db, k) == Get(old(db), k) + Get(counts, k)
    {
      var left := counts.Keys;
      while left != {}
        invariant left <= counts.Keys
        invariant forall k :: Get(db, k) == Get(old(db), k) + if k in left then 0 else Get(counts, k)
        decreases |left|
      {
        var k :| k in left;
        if counts[k] > 0 {
          db := db[k := Get(db, k) + counts[k]];
        }
        left := left - {k};
      }
    }

    /** Swaps every indexed counter to zero, keeping the counts that were there. */
    method SwapOut() returns (counts: Counts)
      modifies this`redis
      ensures counts.Keys == set k | k in index && Get(old(redis), k) > 0
      ensures forall k :: Get(counts, k) == if k in index then Get(old(redis), k) else 0
      ensures forall k :: Get(redis, k) == if k in index then 0 else Get(old(redis), k)
    {
      counts := map[];
      var left := index;
      while left != {}
        invariant left <= index && forall k :: k in counts <==> k in index && k !in left && Get(old(redis), k) > 0
        invariant forall k :: Get(counts, k) == if k in index && k !in left then Get(old(redis), k) else 0
        invariant forall k :: Get(redis, k) == if k in index && k !in left then 0 else Get(old(redis), k)
        decreases |left|
      {
        var k :| k in left;
        if Get(redis, k) > 0 {
          counts := counts[k := Get(redis, k)];
        }
        redis := redis[k := 0];
        left := left - {k};
      }
    }

    /** A flush nobody interrupts moves every indexed count to the database, loses none, and reports how many
        counters had one. */
    method FlushAnonToDb() returns (flushed: nat)
      modifies this
      ensures forall k :: Get(db, k) + Get(redis, k) == Get(old(db), k) + Get(old(redis), k)
      ensures forall k :: k in old(index) ==> Get(redis, k) == 0
      ensures index == {} && flushed == |set k | k in old(index) && Get(old(redis), k) > 0|
    {
      if index == {} {
        return 0;
      }
      var counts := SwapOut();
      UpsertCounts(counts);
      redis, index := redis - index, {};
      flushed := |counts|;
    }
  }

  // ----- Index members -----

  /** Position of the first separator, or the length of the text. */
  function FirstBar(s: string): (k: nat)
    ensures k <= |s|
    ensures forall i :: 0 <= i < k ==> s[i] != '|'
    ensures k < |s| ==> s[k] == '|'
  {
    if s == [] || s[0] == '|' then 0 else 1 + FirstBar(s[1..])
  }

  /** The text before and after the first separator. */
  function Partition(s: string): (string, string) {
    var k := FirstBar(s);
    if k < |s| then (s[..k], s[k + 1..]) else (s, "")
  }

  function Member(k: Counter): string {
    k.metric + "|" + k.dim
  }

  lemma FirstBarIs(s: string, n: nat)
    requires n < |s| && s[n] == '|' && forall i :: 0 <= i < n ==> s[i] != '|'
    ensures FirstBar(s) == n
  {
  }

  /** An index member parses back to the counter it was written for exactly when the metric has no separator. */
  lemma MemberParsesBack(k: Counter)
    ensures Partition(Member(k)) == (k.metric, k.dim) <==> '|' !in k.metric
  {
    var s, n := Member(k), |k.metric|;
    assert s[n] == '|';
    assert s[..n] == k.metric && s[n + 1..] == k.dim;
    if '|' !in k.metric {
      forall i | 0 <= i < n ensures s[i] != '|' {
        assert s[i] == k.metric[i];
      }
      FirstBarIs(s, n);
    } else {
      var i :| 0 <= i < n && k.metric[i] == '|';
      assert s[i] == '|';
      assert |s[..FirstBar(s)]| < n;
    }
  }
}
