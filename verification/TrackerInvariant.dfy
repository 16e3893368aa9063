/**
  The inductive invariant of the tracker protocol.

  The invariant looks at a goroutine only through a small view of its program counter: the locked region
  it is in, the accessor it is creating, the cache it is building, the watch it is adding, and, for a
  health checker, how far it has come.
 */
module TrackerInvariant {
  import opened Common
  import opened TrackerProtocol

  /** A cache under construction, before and after its checker has been started. */
  datatype Build = NoBuild | Unchecked(c: nat) | Checked(c: nat)

  datatype Adding = NoWatch | Calling(w: (nat, string)) | Inserting(w: (nat, string))

  /** Confirmed: the checker has seen an accessor, or has taken the free lock after seeing none. */
  datatype Stage = Unborn | Running | Confirmed | Finished

  datatype View = View(region: Option<ObjectKey>, creates: Option<ObjectKey>, builds: Build, adds: Adding, stage: Stage)

  /** The key whose region, from a successful TryLock to its Unlock, the goroutine is in. */
  function RegionOf(pc: Pc): Option<ObjectKey> {
    if pc.LoadAgain? || pc.Creating? || pc.Syncing? || pc.KeyGen? || pc.Storing? || pc.Unlocking?
       || pc.WatchChecking? || pc.WatchCalling? || pc.WatchInserting? || pc.WatchUnlocking? || pc.CheckUnlocking?
    then Some(pc.k) else None
  }

  predicate CheckerPc(pc: Pc) {
    pc.Polling? || pc.CheckLoading? || pc.CheckLocking? || pc.CheckUnlocking? || pc.Probing? || pc.FinalDeleting?
    || pc.Exited?
  }

  function ViewOf(pc: Pc): View {
    View(
      RegionOf(pc),
      if pc.Creating? || pc.Syncing? || pc.KeyGen? || pc.Storing? then Some(pc.k) else None,
      if pc.Syncing? then Unchecked(pc.c) else if pc.KeyGen? || pc.Storing? then Checked(pc.c) else NoBuild,
      if pc.WatchCalling? then Calling((pc.c, pc.name))
      else if pc.WatchInserting? then Inserting((pc.c, pc.name)) else NoWatch,
      if pc.Exited? then Finished
      else if pc.Probing? || pc.CheckUnlocking? then Confirmed
      else if CheckerPc(pc) then Running else Unborn)
  }

  type Views = Gid -> View

  function ViewsOf(s: State): Views {
    (g: Gid) => ViewOf(PcOf(s, g))
  }

  // ------------------------------------------------------------------ typing of program counters

  /** The cache whose accessor the goroutine holds or is making. */
  function Mentions(pc: Pc): Option<nat> {
    if pc.Syncing? || pc.KeyGen? || pc.Storing? || pc.WatchLocking? || pc.WatchChecking? || pc.WatchCalling?
       || pc.WatchInserting?
    then Some(pc.c) else if pc.Unlocking? then pc.res else None
  }

  predicate Belongs(sh: Shared, c: nat, k: ObjectKey) {
    c in sh.caches && sh.caches[c] == k
  }

  /** A program counter fits its goroutine, and the cache it mentions is one of its cluster. */
  predicate TypedPc(sh: Shared, g: Gid, pc: Pc) {
    && (!pc.Idle? ==> (CheckerPc(pc) <==> g.Checker?))
    && (CheckerPc(pc) && g.Checker? ==> Belongs(sh, g.cache, pc.k))
    && (Mentions(pc).Some? ==> Belongs(sh, Mentions(pc).value, pc.k))
  }

  ghost predicate TypedPcs(s: State) {
    forall g {:trigger PcOf(s, g)} :: TypedPc(s.sh, g, PcOf(s, g))
  }

  // ------------------------------------------------------------------ the invariant on views

  ghost predicate AccessorsBelong(sh: Shared) {
    forall k :: k in sh.accessors ==> Belongs(sh, sh.accessors[k], k)
  }

  ghost predicate TypedShared(sh: Shared) {
    && AccessorsBelong(sh)
    && sh.stopped <= sh.cancelled
    && (forall c :: c in sh.cancelled || c in sh.stored || c in sh.leaked ==> c in sh.caches)
  }

  /** What a goroutine is doing agrees with the region it is in. */
  predicate Coherent(sh: Shared, x: View) {
    && (x.creates.Some? ==> x.region == x.creates)
    && (!x.builds.NoBuild? ==> x.builds.c in sh.caches && x.creates == Some(sh.caches[x.builds.c]))
    && (!x.adds.NoWatch? ==> x.adds.w.0 in sh.caches && x.region == Some(sh.caches[x.adds.w.0]))
  }

  predicate Holds(sh: Shared, k: ObjectKey, g: Gid) {
    k in sh.holder && sh.holder[k] == g
  }

  /** The keyed mutex holds a key exactly while one goroutine is inside a region for it. */
  ghost predicate Mutex(v: Views, sh: Shared) {
    && sh.locks == sh.holder.Keys
    && (forall k :: k in sh.holder ==> v(sh.holder[k]).region == Some(k))
    && (forall g :: v(g).region.Some? ==> Holds(sh, v(g).region.value, g))
  }

  predicate Unclaimed(sh: Shared, c: nat) {
    c !in sh.stored && c !in sh.stopped && c !in sh.leaked
  }

  predicate InMap(sh: Shared, c: nat) {
    c in sh.caches && sh.caches[c] in sh.accessors && sh.accessors[sh.caches[c]] == c
  }

  predicate BuildsCache(x: View, c: nat) {
    !x.builds.NoBuild? && x.builds.c == c
  }

  /** The accessor map, builders and failed key generations lay claim to different caches. */
  ghost predicate Claims(v: Views, sh: Shared) {
    && (forall k :: k in sh.accessors ==> sh.accessors[k] in sh.stored && sh.accessors[k] !in sh.stopped)
    && (forall g :: v(g).creates.Some? ==> v(g).creates.value !in sh.accessors)
    && (forall g :: !v(g).builds.NoBuild? ==> Unclaimed(sh, v(g).builds.c))
    && sh.leaked !! sh.stored
    && sh.leaked !! sh.stopped
  }

  /** Nobody but these accounts for a live cache. */
  ghost predicate Accounted(v: Views, sh: Shared) {
    && (forall c :: c in sh.caches && Unclaimed(sh, c) ==>
          sh.caches[c] in sh.holder && BuildsCache(v(sh.holder[sh.caches[c]]), c))
    && (forall c :: c in sh.stored && c !in sh.stopped ==> InMap(sh, c))
  }

  ghost predicate Lifetimes(v: Views, sh: Shared) {
    Claims(v, sh) && Accounted(v, sh)
  }

  /** Who has a health checker. */
  ghost predicate CheckersStart(v: Views, sh: Shared) {
    && (forall c :: c in sh.stored || c in sh.leaked ==> !v(Checker(c)).stage.Unborn?)
    && (forall g :: !v(g).builds.NoBuild? ==> (v(g).builds.Unchecked? <==> v(Checker(v(g).builds.c)).stage.Unborn?))
    && (forall c :: v(Checker(c)).stage.Confirmed? ==> c in sh.stored || c in sh.leaked)
  }

  /** How far it can have come. */
  ghost predicate CheckersEnd(v: Views, sh: Shared) {
    && (forall c :: !v(Checker(c)).stage.Unborn? && c in sh.stopped ==> c in sh.stored)
    && (forall c :: c in sh.early ==> v(Checker(c)).stage.Finished?)
    && (forall c :: v(Checker(c)).stage.Finished? && c !in sh.stopped ==> c in sh.early)
  }

  ghost predicate Checkers(v: Views, sh: Shared) {
    CheckersStart(v, sh) && CheckersEnd(v, sh)
  }

  /** `watches` records the calls that succeeded, up to the one being recorded. */
  ghost predicate Watches(v: Views, sh: Shared) {
    && (forall w :: w in sh.watches ==> w in sh.established)
    && (forall w :: sh.established[w] <= 1)
    && (forall w :: w in sh.established && w !in sh.watches ==>
          w.0 in sh.caches && sh.caches[w.0] in sh.holder && v(sh.holder[sh.caches[w.0]]).adds == Inserting(w))
    && (forall g :: v(g).adds.Calling? ==> v(g).adds.w !in sh.watches)
    && (forall g :: v(g).adds.Inserting? ==> v(g).adds.w in sh.established)
  }

  const ABSENT := View(None, None, NoBuild, NoWatch, Unborn)

  predicate Bystander(x: View) {
    x.creates == None && x.builds == NoBuild && x.adds == NoWatch
  }

  /** A checker exists only for a cache, and only looks after locks. */
  predicate CheckerView(sh: Shared, c: nat, x: View) {
    Bystander(x) && if x.stage.Unborn? then x == ABSENT else c in sh.caches
  }

  ghost predicate Types(v: Views, sh: Shared) {
    && TypedShared(sh)
    && (forall g {:trigger v(g)} :: Coherent(sh, v(g)))
    && (forall c {:trigger v(Checker(c))} :: CheckerView(sh, c, v(Checker(c))))
  }

  ghost predicate ViewInv(v: Views, sh: Shared) {
    Types(v, sh) && Mutex(v, sh) && Lifetimes(v, sh) && Checkers(v, sh) && Watches(v, sh)
  }

  ghost predicate Inv(s: State) {
    TypedPcs(s) && ViewInv(ViewsOf(s), s.sh)
  }

  lemma InitInv()
    ensures Inv(INIT)
  {
    var v := ViewsOf(INIT);
    assert forall g {:trigger v(g)} :: v(g) == ABSENT;
  }

  // ------------------------------------------------------------------ effects of a move on a view

  predicate SameStage(x: View, y: View) {
    x.stage == y.stage || (x.stage.Confirmed? && y.stage.Running?)
  }

  /** A checker comes to know that its cache is no longer being built. */
  predicate Confirms(g: Gid, x: View, y: View) {
    g.Checker? && y.stage.Confirmed? && (x.stage.Running? || x.stage.Confirmed?)
  }

  /** A goroutine `g` seen as `x` in `sh` may become `y` with effect `e`. */
  predicate Allowed(sh: Shared, g: Gid, x: View, y: View, e: Effect) {
    match e
    case Nothing =>
      && y.region == x.region
      && x.builds == y.builds && !x.builds.Unchecked?
      && (y.creates.Some? ==> y.creates == x.creates || y.creates.value !in sh.accessors)
      && !x.adds.Inserting? && !y.adds.Inserting? && (y.adds.Calling? ==> y.adds.w !in sh.watches)
      && (SameStage(x, y) || (Confirms(g, x, y) && g.cache in sh.caches && sh.caches[g.cache] in sh.accessors))
    case Lock(k) =>
      && x.region == None && y.region == Some(k) && k !in sh.locks
      && Bystander(x) && Bystander(y)
      && (SameStage(x, y) || (Confirms(g, x, y) && Belongs(sh, g.cache, k)))
    case Unlock(k) =>
      && x.region == Some(k) && y.region == None && Bystander(x) && Bystander(y) && SameStage(x, y)
    case StartCache(c, k) =>
      && y == x.(builds := Unchecked(c)) && c !in sh.caches
      && x.builds == NoBuild && x.creates == Some(k) && x.adds == NoWatch && g.Caller?
    case StopCache(c) =>
      && x.builds == Unchecked(c) && y.region == x.region && x.adds == NoWatch && Bystander(y) && x.stage == y.stage
    case StartChecker(c, k) =>
      && x.builds == Unchecked(c) && y == x.(builds := Checked(c)) && x.creates == Some(k) && x.adds == NoWatch
      && g.Caller?
    case GiveUp(c) =>
      && x.builds == Checked(c) && y.region == x.region && x.adds == NoWatch && Bystander(y) && x.stage == y.stage
    case StoreAccessor(k, c) =>
      && x.builds == Checked(c) && y.region == x.region && x.adds == NoWatch && Bystander(y) && x.stage == y.stage
      && x.creates == Some(k)
    case DeleteAccessor(k) =>
      && Bystander(x) && Bystander(y) && x.region == None && y.region == None && x.stage == y.stage
    case ExitDeleting(k) =>
      && Bystander(x) && Bystander(y) && x.region == None && y.region == None
      && x.stage.Running? && y.stage.Finished? && g.Checker? && Belongs(sh, g.cache, k)
    case WatchEstablished(w) =>
      && x.adds == Calling(w) && y == x.(adds := Inserting(w)) && x.builds == NoBuild && x.creates == None
    case WatchRecorded(w) =>
      && x.adds == Inserting(w) && y == x.(adds := NoWatch) && x.builds == NoBuild && x.creates == None
  }

  const NEW_CHECKER := View(None, None, NoBuild, NoWatch, Running)

  /** A step of goroutine `g` on views: only `g` and a checker it starts move. */
  ghost predicate ViewStep(v: Views, sh: Shared, v': Views, g: Gid, e: Effect) {
    && Allowed(sh, g, v(g), v'(g), e)
    && (e.StartChecker? ==> v'(Checker(e.c)) == NEW_CHECKER)
    && (forall h {:trigger v'(h)} :: h != g && !(e.StartChecker? && h == Checker(e.c)) ==> v'(h) == v(h))
  }

  lemma KeepsTypedShared(sh: Shared, g: Gid, x: View, y: View, e: Effect)
    requires TypedShared(sh) && Coherent(sh, x) && Allowed(sh, g, x, y, e)
    ensures TypedShared(Do(sh, g, e))
  {
  }

  lemma CachesStay(sh: Shared, g: Gid, x: View, y: View, e: Effect)
    requires Allowed(sh, g, x, y, e)
    ensures forall c :: c in sh.caches ==> c in Do(sh, g, e).caches && Do(sh, g, e).caches[c] == sh.caches[c]
  {
  }

  lemma KeepsTypes(v: Views, sh: Shared, v': Views, g: Gid, e: Effect)
    requires Types(v, sh) && ViewStep(v, sh, v', g, e) && Coherent(Do(sh, g, e), v'(g))
    requires g.Checker? ==> CheckerView(Do(sh, g, e), g.cache, v'(g))
    ensures Types(v', Do(sh, g, e))
  {
    KeepsTypedShared(sh, g, v(g), v'(g), e);
    CachesStay(sh, g, v(g), v'(g), e);
    forall h {:trigger v'(h)} | h != g && !(e.StartChecker? && h == Checker(e.c))
      ensures Coherent(Do(sh, g, e), v'(h))
    {
      assert Coherent(sh, v(h));
    }
    forall c {:trigger v'(Checker(c))} | Checker(c) != g ensures CheckerView(Do(sh, g, e), c, v'(Checker(c))) {
      assert CheckerView(sh, c, v(Checker(c)));
    }
  }

  lemma MutexLocking(v: Views, sh: Shared, v': Views, g: Gid, e: Effect)
    requires e.Lock? || e.Unlock?
    requires Types(v, sh) && Mutex(v, sh) && ViewStep(v, sh, v', g, e)
    ensures Mutex(v', Do(sh, g, e))
  {
  }

  lemma RegionsStay(v: Views, sh: Shared, v': Views, g: Gid, e: Effect)
    requires !e.Lock? && !e.Unlock?
    requires Types(v, sh) && Checkers(v, sh) && ViewStep(v, sh, v', g, e)
    ensures forall h {:trigger v'(h)} :: v'(h).region == v(h).region
  {
  }

  lemma LocksStay(sh: Shared, g: Gid, e: Effect)
    requires !e.Lock? && !e.Unlock?
    ensures Do(sh, g, e).locks == sh.locks && Do(sh, g, e).holder == sh.holder
  {
  }

  lemma MutexSame(v: Views, sh: Shared, v': Views, sh': Shared)
    requires Mutex(v, sh) && sh'.locks == sh.locks && sh'.holder == sh.holder
    requires forall h {:trigger v'(h)} :: v'(h).region == v(h).region
    ensures Mutex(v', sh')
  {
  }

  lemma MutexOtherwise(v: Views, sh: Shared, v': Views, g: Gid, e: Effect)
    requires !e.Lock? && !e.Unlock?
    requires Types(v, sh) && Mutex(v, sh) && Checkers(v, sh) && ViewStep(v, sh, v', g, e)
    ensures Mutex(v', Do(sh, g, e))
  {
    RegionsStay(v, sh, v', g, e);
    LocksStay(sh, g, e);
    MutexSame(v, sh, v', Do(sh, g, e));
  }

  lemma LifetimesLocking(v: Views, sh: Shared, v': Views, g: Gid, e: Effect)
    requires e.Lock? || e.Unlock?
    requires Types(v, sh) && Mutex(v, sh) && Lifetimes(v, sh) && ViewStep(v, sh, v', g, e)
    ensures Lifetimes(v', Do(sh, g, e))
  {
  }

  lemma LifetimesNeutral(v: Views, sh: Shared, v': Views, g: Gid, e: Effect)
    requires e.Nothing? || e.StartChecker? || e.WatchEstablished? || e.WatchRecorded?
    requires Types(v, sh) && Mutex(v, sh) && Lifetimes(v, sh) && ViewStep(v, sh, v', g, e)
    ensures Lifetimes(v', Do(sh, g, e))
  {
  }

  lemma LifetimesBuilding(v: Views, sh: Shared, v': Views, g: Gid, e: Effect)
    requires e.StartCache? || e.StopCache? || e.GiveUp? || e.StoreAccessor?
    requires Types(v, sh) && Mutex(v, sh) && Lifetimes(v, sh) && ViewStep(v, sh, v', g, e)
    ensures Lifetimes(v', Do(sh, g, e))
  {
  }

  lemma LifetimesDeleting(v: Views, sh: Shared, v': Views, g: Gid, e: Effect)
    requires e.DeleteAccessor?
    requires Types(v, sh) && Mutex(v, sh) && Lifetimes(v, sh) && ViewStep(v, sh, v', g, e)
    ensures Lifetimes(v', Do(sh, g, e))
  {
  }

  lemma ClaimsExiting(v: Views, sh: Shared, v': Views, g: Gid, e: Effect)
    requires e.ExitDeleting?
    requires Types(v, sh) && Mutex(v, sh) && Lifetimes(v, sh) && ViewStep(v, sh, v', g, e)
    ensures Claims(v', Do(sh, g, e))
  {
  }

  lemma AccountedExiting(v: Views, sh: Shared, v': Views, g: Gid, e: Effect)
    requires e.ExitDeleting?
    requires Types(v, sh) && Mutex(v, sh) && Lifetimes(v, sh) && ViewStep(v, sh, v', g, e)
    ensures Accounted(v', Do(sh, g, e))
  {
  }

  lemma LifetimesExiting(v: Views, sh: Shared, v': Views, g: Gid, e: Effect)
    requires e.ExitDeleting?
    requires Types(v, sh) && Mutex(v, sh) && Lifetimes(v, sh) && ViewStep(v, sh, v', g, e)
    ensures Lifetimes(v', Do(sh, g, e))
  {
    ClaimsExiting(v, sh, v', g, e);
    AccountedExiting(v, sh, v', g, e);
  }

  lemma CheckersStartNeutral(v: Views, sh: Shared, v': Views, g: Gid, e: Effect)
    requires e.Nothing? || e.Lock? || e.Unlock? || e.WatchEstablished? || e.WatchRecorded?
    requires Types(v, sh) && Mutex(v, sh) && Lifetimes(v, sh) && Checkers(v, sh) && ViewStep(v, sh, v', g, e)
    ensures CheckersStart(v', Do(sh, g, e))
  {
  }

  lemma CheckersEndNeutral(v: Views, sh: Shared, v': Views, g: Gid, e: Effect)
    requires e.Nothing? || e.Lock? || e.Unlock? || e.WatchEstablished? || e.WatchRecorded?
    requires Types(v, sh) && Mutex(v, sh) && Lifetimes(v, sh) && Checkers(v, sh) && ViewStep(v, sh, v', g, e)
    ensures CheckersEnd(v', Do(sh, g, e))
  {
  }

  lemma CheckersNeutral(v: Views, sh: Shared, v': Views, g: Gid, e: Effect)
    requires e.Nothing? || e.Lock? || e.Unlock? || e.WatchEstablished? || e.WatchRecorded?
    requires Types(v, sh) && Mutex(v, sh) && Lifetimes(v, sh) && Checkers(v, sh) && ViewStep(v, sh, v', g, e)
    ensures Checkers(v', Do(sh, g, e))
  {
    CheckersStartNeutral(v, sh, v', g, e);
    CheckersEndNeutral(v, sh, v', g, e);
  }

  lemma CheckersBuilding(v: Views, sh: Shared, v': Views, g: Gid, e: Effect)
    requires e.StartCache? || e.StopCache? || e.StartChecker?
    requires Types(v, sh) && Mutex(v, sh) && Lifetimes(v, sh) && Checkers(v, sh) && ViewStep(v, sh, v', g, e)
    ensures Checkers(v', Do(sh, g, e))
  {
  }

  lemma CheckersReleasing(v: Views, sh: Shared, v': Views, g: Gid, e: Effect)
    requires e.GiveUp? || e.StoreAccessor?
    requires Types(v, sh) && Mutex(v, sh) && Lifetimes(v, sh) && Checkers(v, sh) && ViewStep(v, sh, v', g, e)
    ensures Checkers(v', Do(sh, g, e))
  {
  }

  lemma CheckersDeleting(v: Views, sh: Shared, v': Views, g: Gid, e: Effect)
    requires e.DeleteAccessor?
    requires Types(v, sh) && Mutex(v, sh) && Lifetimes(v, sh) && Checkers(v, sh) && ViewStep(v, sh, v', g, e)
    ensures Checkers(v', Do(sh, g, e))
  {
  }

  lemma CheckersStartExiting(v: Views, sh: Shared, v': Views, g: Gid, e: Effect)
    requires e.ExitDeleting?
    requires Types(v, sh) && Mutex(v, sh) && Lifetimes(v, sh) && Checkers(v, sh) && ViewStep(v, sh, v', g, e)
    ensures CheckersStart(v', Do(sh, g, e))
  {
  }

  /** What a checker's last deleteAccessor does to the sets of caches. */
  lemma ExitStops(sh: Shared, g: Gid, e: Effect)
    requires e.ExitDeleting? && g.Checker?
    ensures var sh' := Do(sh, g, e);
      && sh'.stored == sh.stored && sh.stopped <= sh'.stopped
      && (forall c :: c in sh'.stopped && c !in sh.stopped ==> e.k in sh.accessors && c == sh.accessors[e.k])
      && sh'.early == sh.early + if g.cache in sh.stored then {} else {g.cache}
  {
  }

  lemma CheckersEndExiting(v: Views, sh: Shared, v': Views, g: Gid, e: Effect)
    requires e.ExitDeleting?
    requires Types(v, sh) && Mutex(v, sh) && Lifetimes(v, sh) && Checkers(v, sh) && ViewStep(v, sh, v', g, e)
    ensures CheckersEnd(v', Do(sh, g, e))
  {
    ExitStops(sh, g, e);
  }

  lemma CheckersExiting(v: Views, sh: Shared, v': Views, g: Gid, e: Effect)
    requires e.ExitDeleting?
    requires Types(v, sh) && Mutex(v, sh) && Lifetimes(v, sh) && Checkers(v, sh) && ViewStep(v, sh, v', g, e)
    ensures Checkers(v', Do(sh, g, e))
  {
    CheckersStartExiting(v, sh, v', g, e);
    CheckersEndExiting(v, sh, v', g, e);
  }

  lemma WatchesLocking(v: Views, sh: Shared, v': Views, g: Gid, e: Effect)
    requires e.Lock? || e.Unlock?
    requires Types(v, sh) && Mutex(v, sh) && Watches(v, sh) && ViewStep(v, sh, v', g, e)
    ensures Watches(v', Do(sh, g, e))
  {
  }

  lemma WatchesEstablishing(v: Views, sh: Shared, v': Views, g: Gid, e: Effect)
    requires e.WatchEstablished?
    requires Types(v, sh) && Mutex(v, sh) && Watches(v, sh) && ViewStep(v, sh, v', g, e)
    ensures Watches(v', Do(sh, g, e))
  {
  }

  lemma WatchesRecording(v: Views, sh: Shared, v': Views, g: Gid, e: Effect)
    requires e.WatchRecorded?
    requires Types(v, sh) && Mutex(v, sh) && Watches(v, sh) && ViewStep(v, sh, v', g, e)
    ensures Watches(v', Do(sh, g, e))
  {
  }

  lemma WatchesNeutral(v: Views, sh: Shared, v': Views, g: Gid, e: Effect)
    requires e.Nothing?
    requires Types(v, sh) && Mutex(v, sh) && Watches(v, sh) && ViewStep(v, sh, v', g, e)
    ensures Watches(v', Do(sh, g, e))
  {
  }

  /** An effect that has nothing to do with watches. */
  predicate WatchFree(e: Effect) {
    !e.Nothing? && !e.Lock? && !e.Unlock? && !e.WatchEstablished? && !e.WatchRecorded?
  }

  lemma AddsStay(v: Views, sh: Shared, v': Views, g: Gid, e: Effect)
    requires WatchFree(e) && Types(v, sh) && ViewStep(v, sh, v', g, e)
    ensures forall h {:trigger v'(h)} :: v'(h).adds == v(h).adds
  {
  }

  lemma WatchSetsStay(sh: Shared, g: Gid, e: Effect)
    requires WatchFree(e)
    ensures Do(sh, g, e).watches == sh.watches && Do(sh, g, e).established == sh.established
    ensures Do(sh, g, e).holder == sh.holder
  {
  }

  lemma WatchesUntouched(v: Views, sh: Shared, v': Views, sh': Shared)
    requires Watches(v, sh) && forall h {:trigger v'(h)} :: v'(h).adds == v(h).adds
    requires sh'.watches == sh.watches && sh'.established == sh.established && sh'.holder == sh.holder
    requires forall c :: c in sh.caches ==> c in sh'.caches && sh'.caches[c] == sh.caches[c]
    ensures Watches(v', sh')
  {
  }

  lemma WatchesOtherwise(v: Views, sh: Shared, v': Views, g: Gid, e: Effect)
    requires WatchFree(e) && Types(v, sh) && Watches(v, sh) && ViewStep(v, sh, v', g, e)
    ensures Watches(v', Do(sh, g, e))
  {
    AddsStay(v, sh, v', g, e);
    WatchSetsStay(sh, g, e);
    CachesStay(sh, g, v(g), v'(g), e);
    WatchesUntouched(v, sh, v', Do(sh, g, e));
  }

  lemma KeepsViewInv(v: Views, sh: Shared, v': Views, g: Gid, e: Effect)
    requires ViewInv(v, sh) && ViewStep(v, sh, v', g, e) && Coherent(Do(sh, g, e), v'(g))
    requires g.Checker? ==> CheckerView(Do(sh, g, e), g.cache, v'(g))
    ensures ViewInv(v', Do(sh, g, e))
  {
    KeepsTypes(v, sh, v', g, e);
    if e.Lock? || e.Unlock? {
      MutexLocking(v, sh, v', g, e);
      LifetimesLocking(v, sh, v', g, e);
      CheckersNeutral(v, sh, v', g, e);
      WatchesLocking(v, sh, v', g, e);
    } else {
      MutexOtherwise(v, sh, v', g, e);
      if e.Nothing? || e.WatchEstablished? || e.WatchRecorded? {
        if e.Nothing? {
          WatchesNeutral(v, sh, v', g, e);
        } else if e.WatchEstablished? {
          WatchesEstablishing(v, sh, v', g, e);
        } else {
          WatchesRecording(v, sh, v', g, e);
        }
        LifetimesNeutral(v, sh, v', g, e);
        CheckersNeutral(v, sh, v', g, e);
      } else if e.DeleteAccessor? {
        LifetimesDeleting(v, sh, v', g, e);
        CheckersDeleting(v, sh, v', g, e);
        WatchesOtherwise(v, sh, v', g, e);
      } else if e.ExitDeleting? {
        LifetimesExiting(v, sh, v', g, e);
        CheckersExiting(v, sh, v', g, e);
        WatchesOtherwise(v, sh, v', g, e);
      } else {
        if e.StartChecker? {
          LifetimesNeutral(v, sh, v', g, e);
        } else {
          LifetimesBuilding(v, sh, v', g, e);
        }
        if e.GiveUp? || e.StoreAccessor? {
          CheckersReleasing(v, sh, v', g, e);
        } else {
          CheckersBuilding(v, sh, v', g, e);
        }
        WatchesOtherwise(v, sh, v', g, e);
      }
    }
  }

  // ------------------------------------------------------------------ the protocol's moves are allowed

  predicate TypedNext(sh: Shared, g: Gid, m: Move) {
    TypedPc(if m.effect.StartCache? then Do(sh, g, m.effect) else sh, g, m.pc)
  }

  lemma AllowedGet(sh: Shared, g: Gid, pc: Pc, a: Action)
    requires Getting(pc) && GetMove(sh, pc, a).Some? && TypedPc(sh, g, pc)
    ensures var m := GetMove(sh, pc, a).value; Allowed(sh, g, ViewOf(pc), ViewOf(m.pc), m.effect)
  {
  }

  lemma TypedGet(sh: Shared, g: Gid, pc: Pc, a: Action)
    requires Getting(pc) && GetMove(sh, pc, a).Some? && TypedPc(sh, g, pc) && AccessorsBelong(sh)
    ensures TypedNext(sh, g, GetMove(sh, pc, a).value)
  {
  }

  lemma AllowedCreate(sh: Shared, g: Gid, pc: Pc, a: Action)
    requires Building(pc) && CreateMove(sh, pc, a).Some? && TypedPc(sh, g, pc)
    ensures var m := CreateMove(sh, pc, a).value; Allowed(sh, g, ViewOf(pc), ViewOf(m.pc), m.effect)
  {
  }

  lemma TypedCreate(sh: Shared, g: Gid, pc: Pc, a: Action)
    requires Building(pc) && CreateMove(sh, pc, a).Some? && TypedPc(sh, g, pc) && AccessorsBelong(sh)
    ensures TypedNext(sh, g, CreateMove(sh, pc, a).value)
  {
  }

  lemma AllowedWatch(sh: Shared, g: Gid, pc: Pc, a: Action)
    requires Watching(pc) && WatchMove(sh, pc, a).Some? && TypedPc(sh, g, pc)
    ensures var m := WatchMove(sh, pc, a).value; Allowed(sh, g, ViewOf(pc), ViewOf(m.pc), m.effect)
  {
  }

  lemma TypedWatch(sh: Shared, g: Gid, pc: Pc, a: Action)
    requires Watching(pc) && WatchMove(sh, pc, a).Some? && TypedPc(sh, g, pc) && AccessorsBelong(sh)
    ensures TypedNext(sh, g, WatchMove(sh, pc, a).value)
  {
  }

  lemma AllowedCheck(sh: Shared, g: Gid, pc: Pc, a: Action)
    requires g.Checker? && CheckMove(sh, g, pc, a).Some? && TypedPc(sh, g, pc)
    ensures var m := CheckMove(sh, g, pc, a).value; Allowed(sh, g, ViewOf(pc), ViewOf(m.pc), m.effect)
  {
  }

  lemma TypedCheck(sh: Shared, g: Gid, pc: Pc, a: Action)
    requires g.Checker? && CheckMove(sh, g, pc, a).Some? && TypedPc(sh, g, pc) && AccessorsBelong(sh)
    ensures TypedNext(sh, g, CheckMove(sh, g, pc, a).value)
  {
  }

  lemma AllowedMove(sh: Shared, g: Gid, pc: Pc, a: Action)
    requires MoveOf(sh, g, pc, a).Some? && TypedPc(sh, g, pc) && AccessorsBelong(sh)
    ensures var m := MoveOf(sh, g, pc, a).value;
            Allowed(sh, g, ViewOf(pc), ViewOf(m.pc), m.effect) && TypedNext(sh, g, m)
  {
    if Getting(pc) {
      AllowedGet(sh, g, pc, a);
      TypedGet(sh, g, pc, a);
    } else if Building(pc) {
      AllowedCreate(sh, g, pc, a);
      TypedCreate(sh, g, pc, a);
    } else if Watching(pc) {
      AllowedWatch(sh, g, pc, a);
      TypedWatch(sh, g, pc, a);
    } else if CheckerPc(pc) {
      AllowedCheck(sh, g, pc, a);
      TypedCheck(sh, g, pc, a);
    }
  }

  lemma TypedViews(sh: Shared, g: Gid, pc: Pc)
    requires TypedPc(sh, g, pc)
    ensures Coherent(sh, ViewOf(pc))
    ensures g.Checker? ==> CheckerView(sh, g.cache, ViewOf(pc))
  {
  }

  /** Belonging is kept by every effect that does not restart a known cache. */
  lemma TypedKept(sh: Shared, g: Gid, e: Effect, h: Gid, pc: Pc)
    requires TypedPc(sh, h, pc) && (e.StartCache? ==> e.c !in sh.caches)
    ensures TypedPc(Do(sh, g, e), h, pc)
  {
  }

  /** State `s'` is what move `m` of `g` makes of `s`. */
  ghost predicate Moved(s: State, s': State, g: Gid, m: Move) {
    && s'.sh == Do(s.sh, g, m.effect)
    && PcOf(s', g) == m.pc
    && (m.effect.StartChecker? ==> g.Caller? ==> PcOf(s', Checker(m.effect.c)) == Polling(m.effect.k, 0))
    && (forall h {:trigger PcOf(s', h)} ::
          h != g && !(m.effect.StartChecker? && h == Checker(m.effect.c)) ==> PcOf(s', h) == PcOf(s, h))
  }

  lemma NextMoves(s: State, g: Gid, a: Action)
    requires Next(s, Go(g, a)).Some?
    ensures Moved(s, Next(s, Go(g, a)).value, g, MoveOf(s.sh, g, PcOf(s, g), a).value)
  {
  }

  lemma GoTyped(s: State, s': State, g: Gid, m: Move)
    requires TypedPcs(s) && Moved(s, s', g, m) && TypedNext(s.sh, g, m)
    requires Allowed(s.sh, g, ViewOf(PcOf(s, g)), ViewOf(m.pc), m.effect)
    ensures TypedPcs(s')
  {
    assert TypedPc(s.sh, g, PcOf(s, g));
    forall h ensures TypedPc(s'.sh, h, PcOf(s', h)) {
      if h == g {
        if !m.effect.StartCache? {
          TypedKept(s.sh, g, m.effect, g, m.pc);
        }
      } else if m.effect.StartChecker? && h == Checker(m.effect.c) {
        TypedKept(s.sh, g, m.effect, h, Polling(m.effect.k, 0));
      } else {
        TypedKept(s.sh, g, m.effect, h, PcOf(s, h));
      }
    }
  }

  lemma MovedViews(s: State, s': State, g: Gid, m: Move)
    requires Moved(s, s', g, m) && Allowed(s.sh, g, ViewOf(PcOf(s, g)), ViewOf(m.pc), m.effect)
    ensures ViewStep(ViewsOf(s), s.sh, ViewsOf(s'), g, m.effect)
  {
  }

  lemma GoViews(s: State, s': State, g: Gid, m: Move)
    requires Inv(s) && TypedPcs(s') && Moved(s, s', g, m)
    requires Allowed(s.sh, g, ViewOf(PcOf(s, g)), ViewOf(m.pc), m.effect)
    ensures ViewInv(ViewsOf(s'), s'.sh)
  {
    assert TypedPc(s'.sh, g, PcOf(s', g));
    TypedViews(s'.sh, g, m.pc);
    MovedViews(s, s', g, m);
    KeepsViewInv(ViewsOf(s), s.sh, ViewsOf(s'), g, m.effect);
  }

  /** A step of one goroutine keeps the invariant. */
  lemma GoInv(s: State, g: Gid, a: Action)
    requires Inv(s) && Next(s, Go(g, a)).Some?
    ensures Inv(Next(s, Go(g, a)).value)
  {
    var s' := Next(s, Go(g, a)).value;
    var m := MoveOf(s.sh, g, PcOf(s, g), a).value;
    AllowedMove(s.sh, g, PcOf(s, g), a);
    NextMoves(s, g, a);
    GoTyped(s, s', g, m);
    GoViews(s, s', g, m);
  }

  lemma CancelKeepsLifetimes(v: Views, sh: Shared, v': Views, c: nat)
    requires ViewInv(v, sh) && c in sh.caches && forall h {:trigger v'(h)} :: v'(h) == v(h)
    ensures var sh' := sh.(cancelled := sh.cancelled + {c}); Types(v', sh') && Mutex(v', sh') && Lifetimes(v', sh')
  {
  }

  lemma CancelKeeps(v: Views, sh: Shared, v': Views, c: nat)
    requires ViewInv(v, sh) && c in sh.caches && forall h {:trigger v'(h)} :: v'(h) == v(h)
    ensures ViewInv(v', sh.(cancelled := sh.cancelled + {c}))
  {
    CancelKeepsLifetimes(v, sh, v', c);
  }

  lemma ParentCancelledInv(s: State, c: nat)
    requires Inv(s) && c in s.sh.caches
    ensures Inv(Next(s, ParentCancelled(c)).value)
  {
    var s' := Next(s, ParentCancelled(c)).value;
    assert forall h {:trigger PcOf(s', h)} :: PcOf(s', h) == PcOf(s, h);
    CancelKeeps(ViewsOf(s), s.sh, ViewsOf(s'), c);
    forall h ensures TypedPc(s'.sh, h, PcOf(s', h)) {
      assert TypedPc(s.sh, h, PcOf(s, h));
    }
  }

  lemma StepInv(s: State, step: Step)
    requires Inv(s) && Next(s, step).Some?
    ensures Inv(Next(s, step).value)
  {
    match step {
      case Go(g, a) => GoInv(s, g, a);
      case ParentCancelled(c) => ParentCancelledInv(s, c);
    }
  }

  /** The invariant is kept along every run, of any length and any interleaving. */
  lemma {:induction false} RunInv(s: State, run: seq<Step>)
    requires Inv(s) && Exec(s, run).Some?
    ensures Inv(Exec(s, run).value)
  {
    if run == [] {
    } else {
      RunInv(s, run[..|run| - 1]);
      StepInv(Exec(s, run[..|run| - 1]).value, run[|run| - 1]);
    }
  }
}
