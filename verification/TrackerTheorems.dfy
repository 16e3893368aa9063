/** What the tracker protocol guarantees over whole runs, and where it does not. */
module TrackerTheorems {
  import opened Common
  import opened TrackerProtocol
  import opened TrackerInvariant

  /** State `s` is reached by some interleaving of any number of goroutines. */
  ghost predicate Reachable(s: State) {
    exists run :: Exec(INIT, run) == Some(s)
  }

  lemma ReachableInv(s: State)
    requires Reachable(s)
    ensures Inv(s)
  {
    var run :| Exec(INIT, run) == Some(s);
    InitInv();
    RunInv(INIT, run);
  }

  lemma ReachableTyped(s: State, g: Gid)
    requires Reachable(s)
    ensures TypedPc(s.sh, g, PcOf(s, g))
  {
    ReachableInv(s);
  }

  // ------------------------------------------------------------------ the keyed mutex

  predicate Inside(s: State, g: Gid, k: ObjectKey) {
    RegionOf(PcOf(s, g)) == Some(k)
  }

  /**
    A key is in the lock set exactly when some goroutine is inside a locked region for it, and never are
    two goroutines inside, although Unlock does not check who calls it.
   */
  lemma MutualExclusion(s: State, k: ObjectKey)
    requires Reachable(s)
    ensures k in s.sh.locks <==> exists g :: Inside(s, g, k)
    ensures forall g, h :: Inside(s, g, k) && Inside(s, h, k) ==> g == h
  {
    ReachableInv(s);
    var v := ViewsOf(s);
    if k in s.sh.locks {
      assert v(s.sh.holder[k]).region == Some(k);
      assert Inside(s, s.sh.holder[k], k);
    }
    forall g | Inside(s, g, k) ensures Holds(s.sh, k, g) {
      assert v(g).region == Some(k);
    }
  }

  /** How many more steps of its own a goroutine can take inside its region. */
  function StepsLeft(pc: Pc): nat {
    match pc
    case LoadAgain(_, _) => 6
    case Creating(_, _) => 5
    case Syncing(_, _, _) => 4
    case KeyGen(_, _, _) => 3
    case Storing(_, _, _) => 2
    case Unlocking(_, _, _) => 1
    case WatchChecking(_, _, _) => 4
    case WatchCalling(_, _, _) => 3
    case WatchInserting(_, _, _) => 2
    case WatchUnlocking(_, _, _, _) => 1
    case CheckUnlocking(_) => 1
    case _ => 0
  }

  /** The outcome that every step inside a region can have, whatever the others do. */
  function SomeOutcome(pc: Pc): Action {
    if pc.Creating? then CreateFails
    else if pc.Syncing? then SyncFails
    else if pc.KeyGen? then KeyFails
    else if pc.WatchCalling? then WatchFails
    else Advance
  }

  lemma RegionEnabled(s: State, g: Gid)
    requires RegionOf(PcOf(s, g)).Some? && TypedPc(s.sh, g, PcOf(s, g))
    ensures Next(s, Go(g, SomeOutcome(PcOf(s, g)))).Some?
  {
  }

  /** Whoever is inside a region can always take a step: the lock is never held up by others. */
  lemma RegionNeverBlocks(s: State, g: Gid, k: ObjectKey)
    requires Reachable(s) && Inside(s, g, k)
    ensures Next(s, Go(g, SomeOutcome(PcOf(s, g)))).Some?
  {
    ReachableTyped(s, g);
    RegionEnabled(s, g);
  }

  lemma WatchRegionStep(s: State, g: Gid, a: Action)
    requires RegionOf(PcOf(s, g)).Some? && TypedPc(s.sh, g, PcOf(s, g)) && Next(s, Go(g, a)).Some?
    requires Watching(PcOf(s, g)) || PcOf(s, g).CheckUnlocking?
    ensures var s' := Next(s, Go(g, a)).value; var k := PcOf(s, g).k;
            if StepsLeft(PcOf(s, g)) == 1 then !Inside(s', g, k) && k !in s'.sh.locks
            else Inside(s', g, k) && StepsLeft(PcOf(s', g)) < StepsLeft(PcOf(s, g))
  {
  }

  lemma GetRegionStep(s: State, g: Gid, a: Action)
    requires RegionOf(PcOf(s, g)).Some? && TypedPc(s.sh, g, PcOf(s, g)) && Next(s, Go(g, a)).Some?
    requires Getting(PcOf(s, g)) || Building(PcOf(s, g))
    ensures var s' := Next(s, Go(g, a)).value; var k := PcOf(s, g).k;
            if StepsLeft(PcOf(s, g)) == 1 then !Inside(s', g, k) && k !in s'.sh.locks
            else Inside(s', g, k) && StepsLeft(PcOf(s', g)) < StepsLeft(PcOf(s, g))
  {
  }

  lemma RegionStep(s: State, g: Gid, a: Action)
    requires RegionOf(PcOf(s, g)).Some? && TypedPc(s.sh, g, PcOf(s, g)) && Next(s, Go(g, a)).Some?
    ensures var s' := Next(s, Go(g, a)).value; var k := PcOf(s, g).k;
            if StepsLeft(PcOf(s, g)) == 1 then !Inside(s', g, k) && k !in s'.sh.locks
            else Inside(s', g, k) && StepsLeft(PcOf(s', g)) < StepsLeft(PcOf(s, g))
  {
    if Getting(PcOf(s, g)) || Building(PcOf(s, g)) {
      GetRegionStep(s, g, a);
    } else {
      WatchRegionStep(s, g, a);
    }
  }

  /** Each of its own steps, at most six, brings it nearer the exit, and the last one frees the key. */
  lemma RegionIsLeft(s: State, g: Gid, k: ObjectKey, a: Action)
    requires Reachable(s) && Inside(s, g, k) && Next(s, Go(g, a)).Some?
    ensures 1 <= StepsLeft(PcOf(s, g)) <= 6
    ensures var s' := Next(s, Go(g, a)).value;
            if StepsLeft(PcOf(s, g)) == 1 then !Inside(s', g, k) && k !in s'.sh.locks
            else Inside(s', g, k) && StepsLeft(PcOf(s', g)) < StepsLeft(PcOf(s, g))
  {
    ReachableTyped(s, g);
    RegionStep(s, g, a);
  }

  /** A checker that is started was not there before, so it is in no region. */
  lemma StartedIsOutside(s: State, g: Gid, a: Action)
    requires Inv(s) && MoveOf(s.sh, g, PcOf(s, g), a).Some?
    ensures var e := MoveOf(s.sh, g, PcOf(s, g), a).value.effect;
            e.StartChecker? ==> RegionOf(PcOf(s, Checker(e.c))) == None
  {
    var e := MoveOf(s.sh, g, PcOf(s, g), a).value.effect;
    if e.StartChecker? {
      AllowedMove(s.sh, g, PcOf(s, g), a);
      assert ViewsOf(s)(g).builds == Unchecked(e.c);
      assert ViewsOf(s)(Checker(e.c)) == ABSENT;
    }
  }

  /** Nobody else's step moves it. */
  lemma RegionUndisturbed(s: State, g: Gid, k: ObjectKey, step: Step)
    requires Reachable(s) && Inside(s, g, k) && Next(s, step).Some? && (step.Go? ==> step.g != g)
    ensures PcOf(Next(s, step).value, g) == PcOf(s, g)
  {
    if step.Go? {
      ReachableInv(s);
      StartedIsOutside(s, step.g, step.a);
    }
  }

  // ------------------------------------------------------------------ lifetimes of caches

  /** The caches of cluster `k` that were started and not stopped. */
  function Live(s: State, k: ObjectKey): set<nat> {
    set c | c in s.sh.caches && s.sh.caches[c] == k && c !in s.sh.stopped
  }

  /** Those left behind when key generation failed after the cache was started. */
  function Leaked(s: State, k: ObjectKey): set<nat> {
    set c | c in s.sh.caches && s.sh.caches[c] == k && c in s.sh.leaked
  }

  /** The cache of the stored accessor, or the one being built under the cluster lock. */
  function Current(s: State, k: ObjectKey): set<nat> {
    if k in s.sh.accessors then {s.sh.accessors[k]}
    else if k in s.sh.holder then
      (var x := ViewOf(PcOf(s, s.sh.holder[k])); if x.builds.NoBuild? then {} else {x.builds.c})
    else {}
  }

  lemma LiveIsAccounted(s: State, k: ObjectKey, c: nat)
    requires Inv(s) && c in Live(s, k) && c !in s.sh.leaked
    ensures c in Current(s, k)
  {
    if c !in s.sh.stored {
      var v := ViewsOf(s);
      assert Unclaimed(s.sh, c);
      assert BuildsCache(v(s.sh.holder[k]), c);
      assert Coherent(s.sh, v(s.sh.holder[k]));
      assert v(s.sh.holder[k]).creates == Some(k);
    }
  }

  lemma CurrentIsLive(s: State, k: ObjectKey, c: nat)
    requires Inv(s) && c in Current(s, k)
    ensures c in Live(s, k) && c !in s.sh.leaked
  {
    if k !in s.sh.accessors {
      var v := ViewsOf(s);
      assert v(s.sh.holder[k]).region == Some(k);
      assert Coherent(s.sh, v(s.sh.holder[k]));
      assert Unclaimed(s.sh, c);
    }
  }

  /**
    Every live cache of a cluster is its current one or a leaked one, never both; the current one is at
    most one; so the number of live caches is exactly the number of leaks plus one if there is a current
    cache. A stored accessor's cache is live.
   */
  lemma LiveCaches(s: State, k: ObjectKey)
    requires Reachable(s)
    ensures Live(s, k) == Leaked(s, k) + Current(s, k)
    ensures Leaked(s, k) !! Current(s, k)
    ensures |Live(s, k)| == |Leaked(s, k)| + |Current(s, k)| && |Current(s, k)| <= 1
    ensures k in s.sh.accessors ==> s.sh.accessors[k] in Live(s, k)
    ensures |Live(s, k)| <= 1 <==> |Leaked(s, k)| == 0 || (|Leaked(s, k)| == 1 && Current(s, k) == {})
  {
    ReachableInv(s);
    forall c | c in Live(s, k) ensures c in Leaked(s, k) + Current(s, k) {
      if c !in s.sh.leaked {
        LiveIsAccounted(s, k, c);
      }
    }
    forall c | c in Current(s, k) ensures c in Live(s, k) && c !in Leaked(s, k) {
      CurrentIsLive(s, k, c);
    }
  }

  /** storeAccessor never overwrites an entry, although deleteAccessor ignores the cluster lock. */
  lemma StoreNeverOverwrites(s: State, g: Gid)
    requires Reachable(s) && PcOf(s, g).Storing?
    ensures PcOf(s, g).k !in s.sh.accessors
  {
    ReachableInv(s);
    assert ViewsOf(s)(g).creates == Some(PcOf(s, g).k);
  }

  /** The step is a failed key generation for cluster `k`. */
  predicate FailsFor(s: State, step: Step, k: ObjectKey) {
    step.Go? && step.a.KeyFails? && PcOf(s, step.g).KeyGen? && PcOf(s, step.g).k == k
  }

  /** The step starts a cache for cluster `k`. */
  predicate StartsFor(s: State, step: Step, k: ObjectKey) {
    step.Go? && step.a.CacheStarts? && PcOf(s, step.g).Creating? && PcOf(s, step.g).k == k
  }

  /** How many steps of a run are failed key generations for cluster `k`. */
  function KeyFailures(run: seq<Step>, k: ObjectKey): nat {
    if run == [] then 0
    else
      KeyFailures(run[..|run| - 1], k) +
      match Exec(INIT, run[..|run| - 1])
      case None => 0
      case Some(s) => if FailsFor(s, run[|run| - 1], k) then 1 else 0
  }

  /** Only who builds an accessor starts or gives up a cache. */
  lemma OthersKeep(sh: Shared, g: Gid, pc: Pc, a: Action)
    requires MoveOf(sh, g, pc, a).Some? && !Building(pc)
    ensures !MoveOf(sh, g, pc, a).value.effect.GiveUp? && !MoveOf(sh, g, pc, a).value.effect.StartCache?
  {
  }

  /** Why a cache is given up. */
  lemma WhyGiveUp(sh: Shared, g: Gid, pc: Pc, a: Action)
    requires MoveOf(sh, g, pc, a).Some?
    ensures MoveOf(sh, g, pc, a).value.effect.GiveUp? <==> pc.KeyGen? && a.KeyFails?
    ensures pc.KeyGen? && a.KeyFails? ==> MoveOf(sh, g, pc, a).value.effect == GiveUp(pc.c)
  {
    if !Building(pc) {
      OthersKeep(sh, g, pc, a);
    }
  }

  /** What a step does to the leaked caches, and that it moves no cache to another cluster. */
  lemma LeakEffect(s: State, g: Gid, e: Effect)
    requires e.StartCache? ==> e.c !in s.sh.caches
    ensures Do(s.sh, g, e).leaked == s.sh.leaked + if e.GiveUp? then {e.c} else {}
    ensures forall c :: c in s.sh.caches ==> c in Do(s.sh, g, e).caches && Do(s.sh, g, e).caches[c] == s.sh.caches[c]
  {
  }

  /** A goroutine whose key generation fails is building a cache of its cluster that is not leaked yet. */
  lemma KeyGenBuilds(s: State, g: Gid)
    requires Inv(s) && PcOf(s, g).KeyGen?
    ensures Belongs(s.sh, PcOf(s, g).c, PcOf(s, g).k) && PcOf(s, g).c !in s.sh.leaked
  {
    assert TypedPc(s.sh, g, PcOf(s, g));
    assert ViewsOf(s)(g).builds == Checked(PcOf(s, g).c);
    assert Unclaimed(s.sh, PcOf(s, g).c);
  }

  /** Leaked caches stay with their cluster; the new one, if any, is one of its own. */
  lemma LeakedWith(s: State, s': State, k: ObjectKey, more: set<nat>)
    requires forall c :: c in s.sh.leaked ==> c in s.sh.caches
    requires forall c :: c in s.sh.caches ==> c in s'.sh.caches && s'.sh.caches[c] == s.sh.caches[c]
    requires s'.sh.leaked == s.sh.leaked + more && more <= s.sh.caches.Keys && more !! s.sh.leaked
    requires forall c, d :: c in more && d in more ==> c == d
    ensures |Leaked(s', k)| == |Leaked(s, k)| + if exists c :: c in more && s.sh.caches[c] == k then 1 else 0
  {
    if c :| c in more && s.sh.caches[c] == k {
      assert more == {c};
      assert Leaked(s', k) == Leaked(s, k) + {c};
    } else {
      assert Leaked(s', k) == Leaked(s, k);
    }
  }

  lemma LeaksOwned(s: State)
    requires Inv(s)
    ensures forall c :: c in s.sh.leaked ==> c in s.sh.caches
  {
  }

  lemma WhyStart(sh: Shared, g: Gid, pc: Pc, a: Action)
    requires MoveOf(sh, g, pc, a).Some?
    ensures var e := MoveOf(sh, g, pc, a).value.effect;
            e.StartCache? ==> pc.Creating? && a.CacheStarts? && e.k == pc.k && e.c !in sh.caches
  {
  }

  lemma LeakMove(s: State, g: Gid, a: Action, k: ObjectKey)
    requires Next(s, Go(g, a)).Some? && forall c :: c in s.sh.leaked ==> c in s.sh.caches
    requires var pc := PcOf(s, g); pc.KeyGen? ==> Belongs(s.sh, pc.c, pc.k) && pc.c !in s.sh.leaked
    ensures var s' := Next(s, Go(g, a)).value;
            |Leaked(s', k)| == |Leaked(s, k)| + if FailsFor(s, Go(g, a), k) then 1 else 0
  {
    var pc := PcOf(s, g);
    var e := MoveOf(s.sh, g, pc, a).value.effect;
    WhyGiveUp(s.sh, g, pc, a);
    WhyStart(s.sh, g, pc, a);
    LeakEffect(s, g, e);
    LeakedWith(s, Next(s, Go(g, a)).value, k, if e.GiveUp? then {e.c} else {});
  }

  lemma LeakGo(s: State, g: Gid, a: Action, k: ObjectKey)
    requires Inv(s) && Next(s, Go(g, a)).Some?
    ensures var s' := Next(s, Go(g, a)).value;
            |Leaked(s', k)| == |Leaked(s, k)| + if FailsFor(s, Go(g, a), k) then 1 else 0
  {
    LeaksOwned(s);
    if PcOf(s, g).KeyGen? {
      KeyGenBuilds(s, g);
    }
    LeakMove(s, g, a, k);
  }

  /** Each failed key generation of a cluster leaks exactly one of its caches, and nothing else leaks any. */
  lemma {:induction false} LeaksAreKeyFailures(run: seq<Step>, k: ObjectKey)
    requires Exec(INIT, run).Some?
    ensures |Leaked(Exec(INIT, run).value, k)| == KeyFailures(run, k)
  {
    if run == [] {
    } else {
      var front, last := run[..|run| - 1], run[|run| - 1];
      LeaksAreKeyFailures(front, k);
      InitInv();
      RunInv(INIT, front);
      if last.Go? {
        LeakGo(Exec(INIT, front).value, last.g, last.a, k);
      }
    }
  }

  /** After any run a cluster has one live cache per failed key generation of its own, and its current one. */
  lemma LiveCacheCount(run: seq<Step>, k: ObjectKey)
    requires Exec(INIT, run).Some?
    ensures var s := Exec(INIT, run).value;
      && |Live(s, k)| == KeyFailures(run, k) + |Current(s, k)|
      && (|Live(s, k)| <= 1 <==> KeyFailures(run, k) == 0 || (KeyFailures(run, k) == 1 && Current(s, k) == {}))
  {
    LeaksAreKeyFailures(run, k);
    LiveCaches(Exec(INIT, run).value, k);
  }

  /** The state before step `n` of a run. */
  function Before(run: seq<Step>, n: nat): State {
    var m := Exec(INIT, if n <= |run| then run[..n] else run);
    if m.Some? then m.value else INIT
  }

  /** Step `n` of the run is a failed key generation for the cluster. */
  predicate FailsAt(run: seq<Step>, k: ObjectKey, n: nat) {
    n < |run| && FailsFor(Before(run, n), run[n], k)
  }

  /** Step `n` of the run starts a cache for the cluster. */
  predicate StartsAt(run: seq<Step>, k: ObjectKey, n: nat) {
    n < |run| && StartsFor(Before(run, n), run[n], k)
  }

  function LiveAt(run: seq<Step>, k: ObjectKey, n: nat): nat {
    |Live(Before(run, n), k)|
  }

  lemma {:induction false} PrefixRuns(run: seq<Step>, n: nat)
    requires Exec(INIT, run).Some? && n <= |run|
    ensures Exec(INIT, run[..n]).Some?
    decreases |run|
  {
    if n == |run| {
      assert run[..n] == run;
    } else {
      PrefixRuns(run[..|run| - 1], n);
      assert run[..|run| - 1][..n] == run[..n];
    }
  }

  lemma StepOfRun(run: seq<Step>, n: nat)
    requires Exec(INIT, run).Some? && n < |run|
    ensures Exec(INIT, run[..n]) == Some(Before(run, n)) && Exec(INIT, run[..n + 1]) == Some(Before(run, n + 1))
    ensures Next(Before(run, n), run[n]) == Some(Before(run, n + 1))
  {
    PrefixRuns(run, n);
    PrefixRuns(run, n + 1);
    assert run[..n + 1][..n] == run[..n];
  }

  function FailuresBefore(run: seq<Step>, k: ObjectKey, n: nat): nat {
    KeyFailures(if n <= |run| then run[..n] else run, k)
  }

  lemma FailuresStep(run: seq<Step>, k: ObjectKey, n: nat)
    requires Exec(INIT, run).Some? && n < |run|
    ensures FailuresBefore(run, k, n + 1) == FailuresBefore(run, k, n) + if FailsAt(run, k, n) then 1 else 0
  {
    StepOfRun(run, n);
    assert run[..n + 1][..n] == run[..n];
  }

  function CurrentAt(run: seq<Step>, k: ObjectKey, n: nat): nat {
    |Current(Before(run, n), k)|
  }

  lemma LiveSum(run: seq<Step>, k: ObjectKey, n: nat)
    requires Exec(INIT, run).Some? && n <= |run|
    ensures LiveAt(run, k, n) == FailuresBefore(run, k, n) + CurrentAt(run, k, n) && CurrentAt(run, k, n) <= 1
  {
    PrefixRuns(run, n);
    LiveCacheCount(run[..n], k);
    LiveCaches(Before(run, n), k);
  }

  lemma StartHolds(s: State, g: Gid, k: ObjectKey)
    requires Reachable(s) && PcOf(s, g).Creating? && PcOf(s, g).k == k
    ensures Holds(s.sh, k, g) && k !in s.sh.accessors
  {
    ReachableInv(s);
    assert ViewsOf(s)(g).region == Some(k) && ViewsOf(s)(g).creates == Some(k);
  }

  lemma CurrentWhileSyncing(s: State, g: Gid, k: ObjectKey)
    requires Holds(s.sh, k, g) && k !in s.sh.accessors && PcOf(s, g).Syncing?
    ensures |Current(s, k)| == 1
  {
  }

  lemma StartIsCurrent(s: State, step: Step, k: ObjectKey)
    requires Reachable(s) && Next(s, step).Some? && StartsFor(s, step, k)
    ensures |Current(Next(s, step).value, k)| == 1
  {
    StartHolds(s, step.g, k);
    NextMoves(s, step.g, step.a);
    CurrentWhileSyncing(Next(s, step).value, step.g, k);
  }

  lemma StartAdds(run: seq<Step>, k: ObjectKey, n: nat)
    requires Exec(INIT, run).Some? && StartsAt(run, k, n)
    ensures CurrentAt(run, k, n + 1) == 1
  {
    StepOfRun(run, n);
    StartIsCurrent(Before(run, n), run[n], k);
  }

  lemma LiveEffect(sh: Shared, g: Gid, e: Effect)
    ensures sh.stopped <= Do(sh, g, e).stopped
    ensures Do(sh, g, e).caches == if e.StartCache? then sh.caches[e.c := e.k] else sh.caches
  {
  }

  lemma Smaller(a: set<nat>, b: set<nat>)
    requires a <= b
    ensures |a| <= |b|
  {
    assert b == a + (b - a);
  }

  /** Only the start of a cache adds a live cache. */
  lemma OnlyStartsAdd(s: State, step: Step, k: ObjectKey)
    requires Next(s, step).Some? && !StartsFor(s, step, k)
    ensures |Live(Next(s, step).value, k)| <= |Live(s, k)|
  {
    if step.Go? {
      WhyStart(s.sh, step.g, PcOf(s, step.g), step.a);
      LiveEffect(s.sh, step.g, MoveOf(s.sh, step.g, PcOf(s, step.g), step.a).value.effect);
    }
    Smaller(Live(Next(s, step).value, k), Live(s, k));
  }

  lemma OthersAddNone(run: seq<Step>, k: ObjectKey, n: nat)
    requires Exec(INIT, run).Some? && n < |run| && !StartsAt(run, k, n)
    ensures LiveAt(run, k, n + 1) <= LiveAt(run, k, n)
  {
    StepOfRun(run, n);
    OnlyStartsAdd(Before(run, n), run[n], k);
  }

  /** The numbers of live caches, failures and current caches of a cluster before each step, and the steps. */
  datatype Ledger = Ledger(
    live: nat -> nat,
    failures: nat -> nat,
    current: nat -> nat,
    fails: nat -> bool,
    starts: nat -> bool)

  ghost predicate Balanced(l: Ledger, n: nat) {
    l.live(n) == l.failures(n) + l.current(n) && l.current(n) <= 1
  }

  ghost predicate Booked(l: Ledger, n: nat) {
    && l.failures(n + 1) == l.failures(n) + (if l.fails(n) then 1 else 0)
    && (if l.starts(n) then l.current(n + 1) == 1 else l.live(n + 1) <= l.live(n))
    && !(l.fails(n) && l.starts(n))
  }

  ghost predicate Accounts(l: Ledger, n: nat) {
    && l.failures(0) == 0
    && (forall m: nat :: m <= n ==> Balanced(l, m))
    && (forall m: nat :: m < n ==> Booked(l, m))
  }

  /** A failure among the first steps is counted, and only a failure is. */
  lemma {:induction false} Counted(l: Ledger, n: nat)
    requires Accounts(l, n)
    ensures l.failures(n) >= 1 <==> exists i: nat :: i < n && l.fails(i)
  {
    if n == 0 {
    } else {
      Counted(l, n - 1);
      assert Booked(l, n - 1);
    }
  }

  lemma {:induction false} OneUntil(l: Ledger, n: nat)
    requires Accounts(l, n)
    requires forall i: nat, j: nat :: i < j < n && l.fails(i) ==> !l.starts(j)
    ensures l.live(n) <= 1
  {
    Counted(l, n);
    assert Balanced(l, n);
    if l.failures(n) >= 1 {
      OneUntil(l, n - 1);
      var i: nat :| i < n && l.fails(i);
      assert Booked(l, n - 1);
    }
  }

  lemma OneThroughoutIff(l: Ledger, n: nat)
    requires Accounts(l, n)
    ensures (forall m: nat :: m <= n ==> l.live(m) <= 1)
       <==> (forall i: nat, j: nat :: i < j < n && l.fails(i) ==> !l.starts(j))
  {
    if i: nat, j: nat :| i < j < n && l.fails(i) && l.starts(j) {
      Counted(l, j + 1);
      assert Booked(l, j) && Balanced(l, j + 1);
    } else {
      forall m: nat | m <= n ensures l.live(m) <= 1 {
        OneUntil(l, m);
      }
    }
  }

  function LedgerOf(run: seq<Step>, k: ObjectKey): Ledger {
    Ledger((n: nat) => LiveAt(run, k, n), (n: nat) => FailuresBefore(run, k, n), (n: nat) => CurrentAt(run, k, n),
           (n: nat) => FailsAt(run, k, n), (n: nat) => StartsAt(run, k, n))
  }

  lemma RunBooked(run: seq<Step>, k: ObjectKey, n: nat)
    requires Exec(INIT, run).Some? && n < |run|
    ensures Booked(LedgerOf(run, k), n)
  {
    FailuresStep(run, k, n);
    if StartsAt(run, k, n) {
      StartAdds(run, k, n);
    } else {
      OthersAddNone(run, k, n);
    }
  }

  lemma RunBalanced(run: seq<Step>, k: ObjectKey, n: nat)
    requires Exec(INIT, run).Some? && n <= |run|
    ensures Balanced(LedgerOf(run, k), n)
  {
    LiveSum(run, k, n);
  }

  lemma RunAccounts(run: seq<Step>, k: ObjectKey)
    requires Exec(INIT, run).Some?
    ensures Accounts(LedgerOf(run, k), |run|)
  {
    var l := LedgerOf(run, k);
    forall m: nat | m <= |run| ensures Balanced(l, m) {
      RunBalanced(run, k, m);
    }
    forall m: nat | m < |run| ensures Booked(l, m) {
      RunBooked(run, k, m);
    }
    assert l.failures(0) == 0;
  }

  /**
    At every moment of a run a cluster has at most one live cache, whatever happens to other clusters, if and
    only if no cache is started for it after one of its key generations has failed.
   */
  lemma AtMostOneLiveCacheIff(run: seq<Step>, k: ObjectKey)
    requires Exec(INIT, run).Some?
    ensures (forall n: nat :: n <= |run| ==> LiveAt(run, k, n) <= 1)
       <==> (forall i: nat, j: nat :: i < j < |run| && FailsAt(run, k, i) ==> !StartsAt(run, k, j))
  {
    var l := LedgerOf(run, k);
    RunAccounts(run, k);
    OneThroughoutIff(l, |run|);
    assert forall n: nat :: l.live(n) == LiveAt(run, k, n);
    assert forall n: nat :: l.fails(n) == FailsAt(run, k, n) && l.starts(n) == StartsAt(run, k, n);
  }

  lemma LeakStep(s: State, step: Step)
    requires Next(s, step).Some?
    ensures s.sh.leaked <= Next(s, step).value.sh.leaked
  {
  }

  /** A leaked cache is never stopped, whatever happens afterwards. */
  lemma {:induction false} LeakIsForever(s: State, more: seq<Step>, c: nat)
    requires Inv(s) && Exec(s, more).Some? && c in s.sh.leaked
    ensures c in Exec(s, more).value.sh.leaked
    ensures c in Exec(s, more).value.sh.caches && c in Live(Exec(s, more).value, Exec(s, more).value.sh.caches[c])
  {
    RunInv(s, more);
    if more == [] {
    } else {
      LeakIsForever(s, more[..|more| - 1], c);
      LeakStep(Exec(s, more[..|more| - 1]).value, more[|more| - 1]);
    }
  }

  // ------------------------------------------------------------------ health checkers

  /** The accessor of cache `c` is in the map. */
  predicate Stored(s: State, c: nat) {
    InMap(s.sh, c)
  }

  /** The checker of `c` is polling, or about to run its final deleteAccessor. */
  predicate CheckerAlive(s: State, c: nat) {
    !PcOf(s, Checker(c)).Idle? && !PcOf(s, Checker(c)).Exited?
  }

  /**
    A stored accessor has a live health checker exactly when that checker had not already run its last
    deleteAccessor before the accessor was stored.
   */
  lemma StoredHasChecker(s: State, c: nat)
    requires Reachable(s) && Stored(s, c)
    ensures CheckerAlive(s, c) <==> c !in s.sh.early
  {
    ReachableInv(s);
    var v := ViewsOf(s);
    assert s.sh.accessors[s.sh.caches[c]] == c;
    assert !v(Checker(c)).stage.Unborn?;
    assert c in s.sh.early ==> v(Checker(c)).stage.Finished?;
    assert v(Checker(c)).stage.Finished? ==> c in s.sh.early;
  }

  predicate ExitsEarly(s: State, c: nat) {
    PcOf(s, Checker(c)).FinalDeleting? && c !in s.sh.stored
  }

  /** Step `n` of the run is the last deleteAccessor of the checker of `c`, and `c` has not been stored yet. */
  predicate ExitsEarlyAt(run: seq<Step>, c: nat, n: nat) {
    n < |run| && run[n] == Go(Checker(c), Advance) && ExitsEarly(Before(run, n), c)
  }

  lemma WhyExit(sh: Shared, g: Gid, pc: Pc, a: Action)
    requires MoveOf(sh, g, pc, a).Some? && MoveOf(sh, g, pc, a).value.effect.ExitDeleting?
    ensures pc.FinalDeleting? && g.Checker? && a.Advance?
  {
    if Getting(pc) {
    } else if Building(pc) {
    } else if Watching(pc) {
    }
  }

  lemma EarlyStep(s: State, step: Step, c: nat)
    requires Next(s, step).Some?
    ensures c in Next(s, step).value.sh.early
       <==> c in s.sh.early || (step == Go(Checker(c), Advance) && ExitsEarly(s, c))
  {
    if step.Go? && MoveOf(s.sh, step.g, PcOf(s, step.g), step.a).value.effect.ExitDeleting? {
      WhyExit(s.sh, step.g, PcOf(s, step.g), step.a);
    }
  }

  ghost predicate Latches(flag: nat -> bool, event: nat -> bool, n: nat) {
    flag(n + 1) <==> flag(n) || event(n)
  }

  /** A flag that only events set says whether there has been one. */
  lemma {:induction false} Latched(flag: nat -> bool, event: nat -> bool, n: nat)
    requires !flag(0) && forall m: nat :: m < n ==> Latches(flag, event, m)
    ensures flag(n) <==> exists i: nat :: i < n && event(i)
  {
    if n == 0 {
    } else {
      Latched(flag, event, n - 1);
      assert Latches(flag, event, n - 1);
    }
  }

  lemma EarlyLatches(run: seq<Step>, c: nat, n: nat)
    requires Exec(INIT, run).Some? && n < |run|
    ensures Latches((m: nat) => c in Before(run, m).sh.early, (m: nat) => ExitsEarlyAt(run, c, m), n)
  {
    StepOfRun(run, n);
    EarlyStep(Before(run, n), run[n], c);
  }

  lemma EarlyBefore(run: seq<Step>, c: nat)
    requires Exec(INIT, run).Some?
    ensures c in Exec(INIT, run).value.sh.early <==> exists i: nat :: i < |run| && ExitsEarlyAt(run, c, i)
  {
    var flag, event := (m: nat) => c in Before(run, m).sh.early, (m: nat) => ExitsEarlyAt(run, c, m);
    forall m: nat | m < |run| ensures Latches(flag, event, m) {
      EarlyLatches(run, c, m);
    }
    Latched(flag, event, |run|);
    assert run[..|run|] == run;
    assert forall i: nat :: event(i) == ExitsEarlyAt(run, c, i);
  }

  /** So, in terms of what happened: a stored accessor has a checker unless that checker's last step came first. */
  lemma CheckedIff(run: seq<Step>, c: nat)
    requires Exec(INIT, run).Some? && Stored(Exec(INIT, run).value, c)
    ensures CheckerAlive(Exec(INIT, run).value, c) <==> forall n: nat :: !ExitsEarlyAt(run, c, n)
  {
    StoredHasChecker(Exec(INIT, run).value, c);
    EarlyBefore(run, c);
  }

  /** The accessor of `c` is no longer being created. */
  predicate Settled(s: State, c: nat) {
    c in s.sh.stored || c in s.sh.leaked
  }

  /**
    The hypothesis under which that never happens to the accessor of `c`: while it is being created, its checker
    is not told that the Cluster is gone, and the context its cache was started with is not cancelled. Whatever
    happens to other accessors does not matter.
   */
  predicate CalmStep(s: State, step: Step, c: nat) {
    step == Go(Checker(c), ClusterGone) || step == ParentCancelled(c) ==> Settled(s, c)
  }

  predicate CalmRun(run: seq<Step>, c: nat) {
    run == [] ||
    (CalmRun(run[..|run| - 1], c) &&
     match Exec(INIT, run[..|run| - 1])
     case None => true
     case Some(s) => CalmStep(s, run[|run| - 1], c))
  }

  predicate CalmInv(s: State, c: nat) {
    && (c in s.sh.cancelled ==> Settled(s, c) || c in s.sh.stopped)
    && (PcOf(s, Checker(c)).FinalDeleting? ==> Settled(s, c))
    && (c in s.sh.early ==> c in s.sh.leaked)
  }

  /** How a checker comes to its final deleteAccessor. */
  lemma WhyFinal(sh: Shared, g: Gid, pc: Pc, a: Action)
    requires MoveOf(sh, g, pc, a).Some? && MoveOf(sh, g, pc, a).value.pc.FinalDeleting?
    ensures g.Checker?
    ensures || pc.Probing? || pc.CheckUnlocking?
            || (pc.Polling? && (a.ClusterGone? || (a.ContextDone? && g.cache in sh.cancelled)))
  {
  }

  /** What an effect can do to the sets the hypothesis is about. */
  lemma SetsGrow(sh: Shared, g: Gid, e: Effect, c: nat)
    requires e.ExitDeleting? ==> g.Checker?
    ensures var sh' := Do(sh, g, e);
      && sh.stored <= sh'.stored && sh.leaked <= sh'.leaked && sh.stopped <= sh'.stopped
      && (c in sh'.cancelled ==> c in sh.cancelled || c in sh'.stopped)
      && (c in sh'.early ==> c in sh.early || (e.ExitDeleting? && g == Checker(c) && c !in sh.stored))
  {
  }

  lemma CalmEffects(s: State, g: Gid, m: Move, c: nat)
    requires CalmInv(s, c) && (m.effect.ExitDeleting? ==> g.Checker? && PcOf(s, g).FinalDeleting?)
    ensures var sh' := Do(s.sh, g, m.effect);
      && (c in sh'.cancelled ==> c in sh'.stored || c in sh'.leaked || c in sh'.stopped)
      && (c in sh'.early ==> c in sh'.leaked)
      && s.sh.stored <= sh'.stored && s.sh.leaked <= sh'.leaked
  {
    SetsGrow(s.sh, g, m.effect, c);
  }

  lemma CalmFinal(s: State, c: nat, a: Action)
    requires Inv(s) && CalmInv(s, c) && Next(s, Go(Checker(c), a)).Some? && CalmStep(s, Go(Checker(c), a), c)
    requires MoveOf(s.sh, Checker(c), PcOf(s, Checker(c)), a).value.pc.FinalDeleting?
    ensures Settled(s, c)
  {
    WhyFinal(s.sh, Checker(c), PcOf(s, Checker(c)), a);
    var v := ViewsOf(s);
    assert v(Checker(c)).stage.Confirmed? ==> Settled(s, c);
    assert !v(Checker(c)).stage.Unborn? && c in s.sh.stopped ==> c in s.sh.stored;
  }

  lemma CalmMoved(s: State, s': State, g: Gid, m: Move, c: nat)
    requires CalmInv(s, c) && Moved(s, s', g, m)
    requires g == Checker(c) && m.pc.FinalDeleting? ==> Settled(s, c)
    requires m.effect.StartChecker? ==> g.Caller?
    requires c in s'.sh.cancelled ==> Settled(s', c) || c in s'.sh.stopped
    requires c in s'.sh.early ==> c in s'.sh.leaked
    requires s.sh.stored <= s'.sh.stored && s.sh.leaked <= s'.sh.leaked
    ensures CalmInv(s', c)
  {
  }

  lemma CalmGo(s: State, g: Gid, a: Action, c: nat)
    requires Inv(s) && CalmInv(s, c) && Next(s, Go(g, a)).Some? && CalmStep(s, Go(g, a), c)
    ensures CalmInv(Next(s, Go(g, a)).value, c)
  {
    var m := MoveOf(s.sh, g, PcOf(s, g), a).value;
    AllowedMove(s.sh, g, PcOf(s, g), a);
    if m.effect.ExitDeleting? {
      WhyExit(s.sh, g, PcOf(s, g), a);
    }
    NextMoves(s, g, a);
    CalmEffects(s, g, m, c);
    if g == Checker(c) && m.pc.FinalDeleting? {
      CalmFinal(s, c, a);
    }
    CalmMoved(s, Next(s, Go(g, a)).value, g, m, c);
  }

  lemma CalmNext(s: State, step: Step, c: nat)
    requires Inv(s) && CalmInv(s, c) && Next(s, step).Some? && CalmStep(s, step, c)
    ensures CalmInv(Next(s, step).value, c)
  {
    match step {
      case Go(g, a) => CalmGo(s, g, a, c);
      case ParentCancelled(_) =>
    }
  }

  lemma {:induction false} CalmRuns(run: seq<Step>, c: nat)
    requires Exec(INIT, run).Some? && CalmRun(run, c)
    ensures CalmInv(Exec(INIT, run).value, c)
  {
    if run == [] {
    } else {
      var front := run[..|run| - 1];
      CalmRuns(front, c);
      InitInv();
      RunInv(INIT, front);
      CalmNext(Exec(INIT, front).value, run[|run| - 1], c);
    }
  }

  lemma StoredNotLeaked(s: State, c: nat)
    requires Reachable(s) && Stored(s, c)
    ensures c !in s.sh.leaked
  {
    ReachableInv(s);
    assert s.sh.accessors[s.sh.caches[c]] == c;
  }

  /**
    If the checker of an accessor being created is not told that its Cluster is gone and its parent context is
    not cancelled during creation, then in every reachable state in which it is in the map it has its own health
    checker, polling or about to delete it, despite the gap between the checker's look at the map and its
    TryLock.
   */
  lemma EveryAccessorIsChecked(run: seq<Step>, c: nat)
    requires Exec(INIT, run).Some? && CalmRun(run, c) && Stored(Exec(INIT, run).value, c)
    ensures CheckerAlive(Exec(INIT, run).value, c)
  {
    var s := Exec(INIT, run).value;
    CalmRuns(run, c);
    StoredNotLeaked(s, c);
    StoredHasChecker(s, c);
  }

  // ------------------------------------------------------------------ the hypotheses are needed

  /** A run goes on with a step of goroutine `g`, which is the move `m`. */
  lemma Extend(run: seq<Step>, s: State, g: Gid, a: Action, m: Move) returns (run': seq<Step>, s': State)
    requires Exec(INIT, run) == Some(s) && MoveOf(s.sh, g, PcOf(s, g), a) == Some(m)
    ensures Exec(INIT, run') == Some(s') && Moved(s, s', g, m)
  {
    run' := run + [Go(g, a)];
    s' := Next(s, Go(g, a)).value;
    assert run'[..|run'| - 1] == run;
    NextMoves(s, g, a);
  }

  /** A goroutine on its own finds that a cluster has no accessor. */
  lemma Look(run: seq<Step>, s: State, n: nat, k: ObjectKey) returns (run': seq<Step>, s': State)
    requires Exec(INIT, run) == Some(s) && PcOf(s, Caller(n)) == Idle && k !in s.sh.accessors
    ensures Exec(INIT, run') == Some(s') && PcOf(s', Caller(n)) == Locking(k, Return) && s'.sh == s.sh
    ensures PcOf(s', Checker(0)) == PcOf(s, Checker(0))
  {
    run', s' := Extend(run, s, Caller(n), CallGet(k), Move(LoadFirst(k, Return), Nothing, None));
    run', s' := Extend(run', s', Caller(n), Advance, Move(Locking(k, Return), Nothing, None));
  }

  /** It takes the lock. */
  lemma Take(run: seq<Step>, s: State, n: nat, k: ObjectKey) returns (run': seq<Step>, s': State)
    requires Exec(INIT, run) == Some(s) && PcOf(s, Caller(n)) == Locking(k, Return)
    requires k !in s.sh.locks && k !in s.sh.accessors
    ensures Exec(INIT, run') == Some(s') && PcOf(s', Caller(n)) == Creating(k, Return)
    ensures s'.sh == Do(s.sh, Caller(n), Lock(k)) && PcOf(s', Checker(0)) == PcOf(s, Checker(0))
  {
    run', s' := Extend(run, s, Caller(n), Advance, Move(LoadAgain(k, Return), Lock(k), None));
    run', s' := Extend(run', s', Caller(n), Advance, Move(Creating(k, Return), Nothing, None));
  }

  lemma TakeFirst(k: ObjectKey) returns (run: seq<Step>, s: State)
    ensures Exec(INIT, run) == Some(s) && PcOf(s, Caller(0)) == Creating(k, Return)
    ensures s.sh == INIT.sh.(locks := {k}, holder := map[k := Caller(0)])
  {
    run, s := Look([], INIT, 0, k);
    run, s := Take(run, s, 0, k);
  }

  /** It starts a cache. */
  lemma StartFirst(k: ObjectKey) returns (run: seq<Step>, s: State)
    ensures Exec(INIT, run) == Some(s) && PcOf(s, Caller(0)) == Syncing(k, Return, 0)
    ensures s.sh == INIT.sh.(locks := {k}, holder := map[k := Caller(0)], caches := map[0 := k])
  {
    run, s := TakeFirst(k);
    run, s := Extend(run, s, Caller(0), CacheStarts(0), Move(Syncing(k, Return, 0), StartCache(0, k), None));
  }

  /** Then it brings the cache up to the start of its checker. */
  lemma BuildFirst(k: ObjectKey) returns (run: seq<Step>, s: State)
    ensures Exec(INIT, run) == Some(s)
    ensures PcOf(s, Checker(0)) == Polling(k, 0) && PcOf(s, Caller(0)) == KeyGen(k, Return, 0)
    ensures s.sh == INIT.sh.(locks := {k}, holder := map[k := Caller(0)], caches := map[0 := k])
  {
    run, s := StartFirst(k);
    run, s := Extend(run, s, Caller(0), SyncSucceeds, Move(KeyGen(k, Return, 0), StartChecker(0, k), None));
  }

  lemma ToldGone(k: ObjectKey) returns (run: seq<Step>, s: State)
    ensures Exec(INIT, run) == Some(s)
    ensures PcOf(s, Checker(0)) == FinalDeleting(k) && PcOf(s, Caller(0)) == KeyGen(k, Return, 0)
    ensures s.sh.caches == map[0 := k] && s.sh.accessors == map[]
  {
    run, s := BuildFirst(k);
    run, s := Extend(run, s, Checker(0), ClusterGone, Move(FinalDeleting(k), Nothing, None));
  }

  lemma ExitEarly(k: ObjectKey) returns (run: seq<Step>, s: State)
    ensures Exec(INIT, run) == Some(s)
    ensures PcOf(s, Checker(0)) == Exited(k) && PcOf(s, Caller(0)) == KeyGen(k, Return, 0)
    ensures s.sh.caches == map[0 := k] && s.sh.accessors == map[]
  {
    run, s := ToldGone(k);
    assert Delete(s.sh, k) == s.sh;
    run, s := Extend(run, s, Checker(0), Advance, Move(Exited(k), ExitDeleting(k), None));
  }

  lemma KeyLate(k: ObjectKey) returns (run: seq<Step>, s: State)
    ensures Exec(INIT, run) == Some(s)
    ensures PcOf(s, Checker(0)) == Exited(k) && PcOf(s, Caller(0)) == Storing(k, Return, 0)
    ensures s.sh.caches == map[0 := k] && s.sh.accessors == map[]
  {
    run, s := ExitEarly(k);
    run, s := Extend(run, s, Caller(0), KeySucceeds, Move(Storing(k, Return, 0), Nothing, None));
  }

  lemma StoreLate(k: ObjectKey) returns (run: seq<Step>, s: State)
    ensures Exec(INIT, run) == Some(s)
    ensures PcOf(s, Checker(0)) == Exited(k) && s.sh.caches == map[0 := k] && s.sh.accessors == map[k := 0]
  {
    run, s := KeyLate(k);
    run, s := Extend(run, s, Caller(0), Advance, Move(Unlocking(k, Return, Some(0)), StoreAccessor(k, 0), None));
  }

  /**
    The checker starts before the accessor is stored. If it is told in between that the Cluster is gone,
    its last deleteAccessor finds nothing to delete, and the accessor stored afterwards has no checker.
   */
  lemma UncheckedAccessor(k: ObjectKey)
    ensures exists s :: Reachable(s) && Stored(s, 0) && s.sh.caches[0] == k && !CheckerAlive(s, 0)
  {
    var run, s := StoreLate(k);
    assert Reachable(s);
  }

  lemma FailKey(k: ObjectKey) returns (run: seq<Step>, s: State)
    ensures Exec(INIT, run) == Some(s) && PcOf(s, Caller(0)) == Unlocking(k, Return, None)
    ensures s.sh.caches == map[0 := k] && s.sh.stopped == {} && s.sh.accessors == map[] && s.sh.locks == {k}
  {
    run, s := BuildFirst(k);
    run, s := Extend(run, s, Caller(0), KeyFails, Move(Unlocking(k, Return, None), GiveUp(0), None));
  }

  lemma LeakFirst(k: ObjectKey) returns (run: seq<Step>, s: State)
    ensures Exec(INIT, run) == Some(s) && PcOf(s, Caller(0)) == Idle
    ensures s.sh.caches == map[0 := k] && s.sh.stopped == {} && s.sh.accessors == map[] && s.sh.locks == {}
  {
    run, s := FailKey(k);
    run, s := Extend(run, s, Caller(0), Advance, Move(Idle, Unlock(k), Some(GetFailed)));
  }

  lemma StartSecond(k: ObjectKey) returns (run: seq<Step>, s: State)
    ensures Exec(INIT, run) == Some(s) && s.sh.caches == map[0 := k, 1 := k] && s.sh.stopped == {}
  {
    run, s := LeakFirst(k);
    run, s := Look(run, s, 0, k);
    run, s := Take(run, s, 0, k);
    run, s := Extend(run, s, Caller(0), CacheStarts(1), Move(Syncing(k, Return, 1), StartCache(1, k), None));
  }

  /** A failed key generation and a second attempt leave the cluster with two live caches. */
  lemma TwoLiveCaches(k: ObjectKey)
    ensures exists s :: Reachable(s) && |Live(s, k)| == 2
  {
    var run, s := StartSecond(k);
    assert Live(s, k) == {0, 1};
    assert Reachable(s);
  }

  // ------------------------------------------------------------------ watches

  /**
    Over any run the underlying Watch call succeeds at most once per accessor and name, and while the
    cluster is not locked the name is recorded exactly when the call has succeeded.
   */
  lemma WatchOnce(s: State, c: nat, name: string)
    requires Reachable(s) && c in s.sh.caches
    ensures s.sh.established[(c, name)] <= 1
    ensures (c, name) in s.sh.watches ==> s.sh.established[(c, name)] == 1
    ensures s.sh.caches[c] !in s.sh.locks ==> ((c, name) in s.sh.watches <==> s.sh.established[(c, name)] == 1)
  {
    ReachableInv(s);
    var w := (c, name);
    assert w in s.sh.watches ==> w in s.sh.established;
    assert w in s.sh.established && w !in s.sh.watches ==> s.sh.caches[c] in s.sh.holder;
  }

  lemma WatchFound(s: State, g: Gid) returns (s': State)
    requires PcOf(s, g).WatchLocking? && PcOf(s, g).k !in s.sh.locks
    requires (PcOf(s, g).c, PcOf(s, g).name) !in s.sh.watches
    ensures Next(s, Go(g, Advance)) == Some(s') && Next(s', Go(g, Advance)).Some?
    ensures var pc := PcOf(s, g); PcOf(Next(s', Go(g, Advance)).value, g) == WatchCalling(pc.k, pc.name, pc.c)
  {
    s' := Next(s, Go(g, Advance)).value;
  }

  lemma ExecFour(s: State, a: Step, s1: State, b: Step, s2: State, c: Step, s3: State, d: Step)
    requires Next(s, a) == Some(s1) && Next(s1, b) == Some(s2) && Next(s2, c) == Some(s3)
    ensures Exec(s, [a, b, c, d]) == Next(s3, d)
  {
    assert [a, b, c, d][..3] == [a, b, c];
    assert [a, b, c][..2] == [a, b];
    assert [a, b][..1] == [a];
    assert [a][..0] == [];
    assert Exec(s, [a]) == Some(s1);
    assert Exec(s, [a, b]) == Some(s2);
    assert Exec(s, [a, b, c]) == Some(s3);
  }

  /** A watch that is not recorded, for instance after a failed attempt, is attempted by the next caller. */
  lemma WatchRetried(s: State, g: Gid, k: ObjectKey, name: string)
    requires Reachable(s) && g.Caller? && PcOf(s, g).Idle? && name != ""
    requires k in s.sh.accessors && k !in s.sh.locks && (s.sh.accessors[k], name) !in s.sh.watches
    ensures var again := [Go(g, CallWatch(k, name)), Go(g, Advance), Go(g, Advance), Go(g, Advance)];
            && Exec(s, again).Some?
            && PcOf(Exec(s, again).value, g) == WatchCalling(k, name, s.sh.accessors[k])
  {
    var c := s.sh.accessors[k];
    var s1 := Next(s, Go(g, CallWatch(k, name))).value;
    assert PcOf(s1, g) == LoadFirst(k, Watch(name)) && s1.sh == s.sh;
    var s2 := Next(s1, Go(g, Advance)).value;
    assert PcOf(s2, g) == WatchLocking(k, name, c) && s2.sh == s.sh;
    var s3 := WatchFound(s2, g);
    ExecFour(s, Go(g, CallWatch(k, name)), s1, Go(g, Advance), s2, Go(g, Advance), s3, Go(g, Advance));
  }
}
