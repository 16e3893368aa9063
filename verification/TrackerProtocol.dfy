/**
  ClusterCacheTracker as a concurrent protocol
  (cluster-api/controllers/remote/cluster_cache_tracker.go).

  Any number of goroutines run getClusterAccessor, Watch, deleteAccessor and the per-accessor health
  checkers. A step of the protocol is one critical section (of clusterAccessorsLock, of the keyed mutex,
  of a cache's own mutex) or one foreign call, with its outcome carried by the step's label.
 */
module TrackerProtocol {
  import opened Common
  import HealthCheck

  /** The checker of a cache is named after it: newClusterAccessor starts one per cache. */
  datatype Gid = Caller(n: nat) | Checker(cache: nat)

  /** What a caller of getClusterAccessor does with the accessor. */
  datatype Purpose = Return | Watch(name: string)

  /** Program counters; the comment gives the source line a goroutine is about to execute. */
  datatype Pc =
    | Idle
    // getClusterAccessor
    | LoadFirst(k: ObjectKey, use: Purpose)                     // 295
    | Locking(k: ObjectKey, use: Purpose)                       // 303
    | LoadAgain(k: ObjectKey, use: Purpose)                     // 310
    | Creating(k: ObjectKey, use: Purpose)                      // 316, up to 537
    | Syncing(k: ObjectKey, use: Purpose, c: nat)               // 542
    | KeyGen(k: ObjectKey, use: Purpose, c: nat)                // 395
    | Storing(k: ObjectKey, use: Purpose, c: nat)               // 322
    | Unlocking(k: ObjectKey, use: Purpose, res: Option<nat>)   // 306, the deferred Unlock
    // Watch
    | WatchLocking(k: ObjectKey, name: string, c: nat)          // 624
    | WatchChecking(k: ObjectKey, name: string, c: nat)         // 630
    | WatchCalling(k: ObjectKey, name: string, c: nat)          // 637
    | WatchInserting(k: ObjectKey, name: string, c: nat)        // 641
    | WatchUnlocking(k: ObjectKey, name: string, c: nat, ok: bool)   // 628, the deferred Unlock
    // healthCheckCluster
    | Polling(k: ObjectKey, count: int)                         // 683
    | CheckLoading(k: ObjectKey, count: int)                    // 697
    | CheckLocking(k: ObjectKey, count: int)                    // 700
    | CheckUnlocking(k: ObjectKey)                              // 704
    | Probing(k: ObjectKey, count: int)                         // 712
    | FinalDeleting(k: ObjectKey)                               // 745
    | Exited(k: ObjectKey)
    // ClusterCacheReconciler
    | Deleting(k: ObjectKey)                                    // 76 of cluster_cache_reconciler.go

  /**
    What goroutines share, then five history variables that no step reads: who took each lock (the mutex
    itself does not know), the Watcher.Watch calls that succeeded, the caches whose accessor was stored, the
    caches given up by a failed key generation, and the caches whose checker ran its last deleteAccessor
    before their accessor was stored.
   */
  datatype Shared = Shared(
    locks: set<ObjectKey>,
    accessors: map<ObjectKey, nat>,      // an accessor is named after its cache
    caches: map<nat, ObjectKey>,         // every cache ever started, with its cluster
    stopped: set<nat>,
    cancelled: set<nat>,                 // caches whose context is done
    watches: set<(nat, string)>,         // the `watches` sets of all accessors
    holder: map<ObjectKey, Gid>,
    established: multiset<(nat, string)>,
    stored: set<nat>,
    leaked: set<nat>,
    early: set<nat>)

  /** What a call returns: GetClient and its like an accessor or an error, Watch nil or an error. */
  datatype Answer = GetFailed | Accessor(c: nat) | WatchNil | WatchError

  /**
    What a goroutine has met in its latest call, at its own steps: the accessor at the first and at the second
    load, whether the cluster lock was taken, whether a creation step failed, the accessor in the map right after
    its own store; and for Watch whether the lock was taken, and whether Watcher.Watch failed.
   */
  datatype Visit = Visit(
    call: Action,
    first: Option<nat>,
    locked: bool,
    second: Option<nat>,
    failed: bool,
    stored: Option<nat>,
    taken: bool,
    refused: bool)

  /** Two more histories that no step reads: the latest visit of each goroutine, and what it returned. */
  datatype State = State(pcs: map<Gid, Pc>, sh: Shared, visits: map<Gid, Visit>, answers: map<Gid, Answer>)

  datatype Action =
    | CallGet(key: ObjectKey)
    | CallWatch(key: ObjectKey, watch: string)
    | CallDelete(key: ObjectKey)        // the reconciler saw the Cluster gone
    | Advance                           // the next step has only one outcome
    | CreateFails | CacheStarts(id: nat)
    | SyncFails | SyncSucceeds
    | KeyFails | KeySucceeds
    | WatchFails | WatchSucceeds
    | ClusterGone | ClusterNotReady | ClusterReady
    | Probe(result: HealthCheck.Poll)
    | ContextDone

  datatype Step = Go(g: Gid, a: Action) | ParentCancelled(cache: nat)

  const INIT := State(map[], Shared({}, map[], map[], {}, {}, {}, map[], multiset{}, {}, {}, {}), map[], map[])

  function PcOf(s: State, g: Gid): Pc {
    if g in s.pcs then s.pcs[g] else Idle
  }

  /** What one step does to the shared state. */
  datatype Effect =
    | Nothing
    | Lock(k: ObjectKey)                    // a TryLock that found the key free
    | Unlock(k: ObjectKey)
    | StartCache(c: nat, k: ObjectKey)
    | StopCache(c: nat)
    | StartChecker(c: nat, k: ObjectKey)    // go t.healthCheckCluster(...)
    | GiveUp(c: nat)                        // return without stopping the cache
    | StoreAccessor(k: ObjectKey, c: nat)
    | DeleteAccessor(k: ObjectKey)
    | ExitDeleting(k: ObjectKey)            // a checker's last deleteAccessor
    | WatchEstablished(w: (nat, string))
    | WatchRecorded(w: (nat, string))

  /** stoppableCache.Stop: mark the cache and cancel its context. */
  function Stop(sh: Shared, c: nat): Shared {
    sh.(stopped := sh.stopped + {c}, cancelled := sh.cancelled + {c})
  }

  /** deleteAccessor, one critical section. */
  function Delete(sh: Shared, k: ObjectKey): Shared {
    if k in sh.accessors then Stop(sh, sh.accessors[k]).(accessors := sh.accessors - {k}) else sh
  }

  /** The shared state after goroutine `g` has effect `e`. Unlock deletes the key whoever calls it. */
  function Do(sh: Shared, g: Gid, e: Effect): Shared {
    match e
    case Nothing => sh
    case Lock(k) => sh.(locks := sh.locks + {k}, holder := sh.holder[k := g])
    case Unlock(k) => sh.(locks := sh.locks - {k}, holder := sh.holder - {k})
    case StartCache(c, k) => sh.(caches := sh.caches[c := k])
    case StopCache(c) => Stop(sh, c)
    case StartChecker(_, _) => sh
    case GiveUp(c) => sh.(leaked := sh.leaked + {c})
    case StoreAccessor(k, c) => sh.(accessors := sh.accessors[k := c], stored := sh.stored + {c})
    case DeleteAccessor(k) => Delete(sh, k)
    case ExitDeleting(k) =>
      if g.Checker? && g.cache !in sh.stored then Delete(sh, k).(early := sh.early + {g.cache}) else Delete(sh, k)
    case WatchEstablished(w) => sh.(established := sh.established + multiset{w})
    case WatchRecorded(w) => sh.(watches := sh.watches + {w})
  }

  /** A goroutine's own part of a step: where it goes, what it does on the way, and what it returns, if it does. */
  datatype Move = Move(pc: Pc, effect: Effect, answer: Option<Answer>)

  function Goto(pc: Pc, effect: Effect := Nothing): Option<Move> {
    Some(Move(pc, effect, None))
  }

  function Finish(answer: Answer, effect: Effect := Nothing): Option<Move> {
    Some(Move(Idle, effect, Some(answer)))
  }

  /** Where getClusterAccessor leads with an accessor, and without one. */
  function Deliver(k: ObjectKey, use: Purpose, c: nat, effect: Effect := Nothing): Option<Move> {
    match use
    case Return => Finish(Accessor(c), effect)
    case Watch(name) => Goto(WatchLocking(k, name, c), effect)
  }

  function Refuse(use: Purpose, effect: Effect := Nothing): Option<Move> {
    Finish(if use.Return? then GetFailed else WatchError, effect)
  }

  function Begin(g: Gid, a: Action): Option<Move> {
    if !g.Caller? then None else
    match a
    case CallGet(k) => Goto(LoadFirst(k, Return))
    case CallWatch(k, name) => if name == "" then Finish(WatchError) else Goto(LoadFirst(k, Watch(name)))
    case CallDelete(k) => Goto(Deleting(k))
    case _ => None
  }

  function GetMove(sh: Shared, pc: Pc, a: Action): Option<Move> {
    match pc
    case LoadFirst(k, use) =>
      if !a.Advance? then None
      else if k in sh.accessors then Deliver(k, use, sh.accessors[k])
      else Goto(Locking(k, use))
    case Locking(k, use) =>
      if !a.Advance? then None
      else if k in sh.locks then Refuse(use)
      else Goto(LoadAgain(k, use), Lock(k))
    case LoadAgain(k, use) =>
      if !a.Advance? then None
      else Goto(if k in sh.accessors then Unlocking(k, use, Some(sh.accessors[k])) else Creating(k, use))
    case Unlocking(k, use, res) =>
      if !a.Advance? then None
      else if res.Some? then Deliver(k, use, res.value, Unlock(k))
      else Refuse(use, Unlock(k))
    case _ => None
  }

  function CreateMove(sh: Shared, pc: Pc, a: Action): Option<Move> {
    match pc
    case Creating(k, use) =>
      (match a
       case CreateFails => Goto(Unlocking(k, use, None))
       case CacheStarts(c) =>
         if c in sh.caches then None else Goto(Syncing(k, use, c), StartCache(c, k))
       case _ => None)
    case Syncing(k, use, c) =>
      (match a
       case SyncFails => Goto(Unlocking(k, use, None), StopCache(c))
       case SyncSucceeds => Goto(KeyGen(k, use, c), StartChecker(c, k))
       case _ => None)
    case KeyGen(k, use, c) =>
      (match a
       case KeyFails => Goto(Unlocking(k, use, None), GiveUp(c))
       case KeySucceeds => Goto(Storing(k, use, c))
       case _ => None)
    case Storing(k, use, c) =>
      if !a.Advance? then None
      else Goto(Unlocking(k, use, Some(c)), StoreAccessor(k, c))
    case _ => None
  }

  function WatchMove(sh: Shared, pc: Pc, a: Action): Option<Move> {
    match pc
    case WatchLocking(k, name, c) =>
      if !a.Advance? then None
      else if k in sh.locks then Finish(WatchError)
      else Goto(WatchChecking(k, name, c), Lock(k))
    case WatchChecking(k, name, c) =>
      if !a.Advance? then None
      else Goto(if (c, name) in sh.watches then WatchUnlocking(k, name, c, true) else WatchCalling(k, name, c))
    case WatchCalling(k, name, c) =>
      (match a
       case WatchFails => Goto(WatchUnlocking(k, name, c, false))
       case WatchSucceeds => Goto(WatchInserting(k, name, c), WatchEstablished((c, name)))
       case _ => None)
    case WatchInserting(k, name, c) =>
      if !a.Advance? then None else Goto(WatchUnlocking(k, name, c, true), WatchRecorded((c, name)))
    case WatchUnlocking(k, _, _, ok) =>
      if !a.Advance? then None else Finish(if ok then WatchNil else WatchError, Unlock(k))
    case _ => None
  }

  /** Where a poll that reached the probe leads. */
  function AfterProbe(k: ObjectKey, count: int, p: HealthCheck.Poll): Pc {
    var count' := HealthCheck.CountAfter(count, p);
    if HealthCheck.Outcome(count', p, HealthCheck.DEFAULT_UNHEALTHY_THRESHOLD) == HealthCheck.KEEP_POLLING
    then Polling(k, count') else FinalDeleting(k)
  }

  /** The moves of a health checker. */
  function CheckMove(sh: Shared, g: Gid, pc: Pc, a: Action): Option<Move>
    requires g.Checker?
  {
    match pc
    case Polling(k, count) =>
      (match a
       case ContextDone => if g.cache in sh.cancelled then Goto(FinalDeleting(k)) else None
       case ClusterGone => Goto(FinalDeleting(k))
       case ClusterNotReady => Goto(pc)
       case ClusterReady => Goto(CheckLoading(k, count))
       case _ => None)
    case CheckLoading(k, count) =>
      if !a.Advance? then None
      else Goto(if k in sh.accessors then Probing(k, count) else CheckLocking(k, count))
    case CheckLocking(k, count) =>
      if !a.Advance? then None
      else if k in sh.locks then Goto(Polling(k, count))
      else Goto(CheckUnlocking(k), Lock(k))
    case CheckUnlocking(k) =>
      if !a.Advance? then None else Goto(FinalDeleting(k), Unlock(k))
    case Probing(k, count) =>
      if a.Probe? && (a.result.ProbeOk? || a.result.ProbeError? || a.result.ProbeUnauthorized?)
      then Goto(AfterProbe(k, count, a.result)) else None
    case FinalDeleting(k) =>
      if !a.Advance? then None else Goto(Exited(k), ExitDeleting(k))
    case _ => None
  }

  /** ClusterCacheReconciler once it has seen the Cluster gone. */
  function ReconcilerMove(pc: Pc, a: Action): Option<Move> {
    match pc
    case Deleting(k) => if !a.Advance? then None else Goto(Idle, DeleteAccessor(k))
    case _ => None
  }

  predicate Getting(pc: Pc) {
    pc.LoadFirst? || pc.Locking? || pc.LoadAgain? || pc.Unlocking?
  }

  predicate Building(pc: Pc) {
    pc.Creating? || pc.Syncing? || pc.KeyGen? || pc.Storing?
  }

  predicate Watching(pc: Pc) {
    pc.WatchLocking? || pc.WatchChecking? || pc.WatchCalling? || pc.WatchInserting? || pc.WatchUnlocking?
  }

  function MoveOf(sh: Shared, g: Gid, pc: Pc, a: Action): Option<Move> {
    if pc.Idle? then Begin(g, a)
    else if Getting(pc) then GetMove(sh, pc, a)
    else if Building(pc) then CreateMove(sh, pc, a)
    else if Watching(pc) then WatchMove(sh, pc, a)
    else if pc.Deleting? then ReconcilerMove(pc, a)
    else if g.Checker? then CheckMove(sh, g, pc, a)
    else None
  }

  function Lookup(sh: Shared, k: ObjectKey): Option<nat> {
    if k in sh.accessors then Some(sh.accessors[k]) else None
  }

  function NewVisit(a: Action): Visit {
    Visit(a, None, false, None, false, None, false, false)
  }

  function VisitOf(s: State, g: Gid): Visit {
    if g in s.visits then s.visits[g] else NewVisit(Advance)
  }

  /** What goroutine `g` meets at its step from `s` with outcome `a` to shared state `sh'`. */
  function Observe(s: State, g: Gid, a: Action, sh': Shared): Visit {
    var v := VisitOf(s, g);
    match PcOf(s, g)
    case Idle => NewVisit(a)
    case LoadFirst(k, _) => v.(first := Lookup(s.sh, k))
    case Locking(k, _) => v.(locked := k in s.sh.locks)
    case LoadAgain(k, _) => v.(second := Lookup(s.sh, k))
    case Creating(_, _) => v.(failed := a.CreateFails?)
    case Syncing(_, _, _) => v.(failed := a.SyncFails?)
    case KeyGen(_, _, _) => v.(failed := a.KeyFails?)
    case Storing(k, _, _) => v.(stored := Lookup(sh', k))
    case WatchLocking(k, _, _) => v.(taken := k in s.sh.locks)
    case WatchCalling(_, _, _) => v.(refused := a.WatchFails?)
    case _ => v
  }

  /** Starting a call forgets the answer to the one before. */
  function AnswersAfter(s: State, g: Gid, answer: Option<Answer>): map<Gid, Answer> {
    var answers := if PcOf(s, g).Idle? then s.answers - {g} else s.answers;
    if answer.Some? then answers[g := answer.value] else answers
  }

  /** One step of the protocol; None when the step is not possible. */
  function Next(s: State, step: Step): Option<State> {
    match step
    case ParentCancelled(c) =>
      if c in s.sh.caches then Some(s.(sh := s.sh.(cancelled := s.sh.cancelled + {c}))) else None
    case Go(g, a) =>
      match MoveOf(s.sh, g, PcOf(s, g), a)
      case None => None
      case Some(Move(pc, e, answer)) =>
        var pcs := if e.StartChecker? then s.pcs[Checker(e.c) := Polling(e.k, 0)] else s.pcs;
        var sh' := Do(s.sh, g, e);
        Some(State(pcs[g := pc], sh', s.visits[g := Observe(s, g, a, sh')], AnswersAfter(s, g, answer)))
  }

  /** The state a run leads to; None if one of its steps is not possible. */
  function Exec(s: State, run: seq<Step>): Option<State> {
    if run == [] then Some(s)
    else match Exec(s, run[..|run| - 1])
      case None => None
      case Some(m) => Next(m, run[|run| - 1])
  }
}
