/**
  The critical sections of the tracker, as the objects the code updates in place
  (cluster-api/controllers/remote: keyedmutex.go, stoppable_cache.go, cluster_cache_tracker.go).

  Each method is one atomic step; `Represents` ties the objects to the shared state of the protocol, and
  each contract says that the section does to it what the protocol's effect does.
 */
module Remote {
  import opened Common
  import opened TrackerProtocol

  class KeyedMutex {
    var locks: set<ObjectKey>

    constructor ()
      ensures locks == {}
    {
      locks := {};
    }

    method TryLock(key: ObjectKey) returns (ok: bool)
      modifies this
      ensures ok <==> key !in old(locks)
      ensures locks == old(locks) + {key}
    {
      if key in locks {
        return false;
      }
      locks := locks + {key};
      return true;
    }

    method Unlock(key: ObjectKey)
      modifies this
      ensures locks == old(locks) - {key}
    {
      locks := locks - {key};
    }
  }

  class StoppableCache {
    const id: nat
    var stopped: bool
    var cancelCalls: nat   // how often cancelFunc has been called

    /** The cancel function is called exactly once, when the cache is first stopped. */
    predicate Valid()
      reads this
    {
      cancelCalls == if stopped then 1 else 0
    }

    constructor (id: nat)
      ensures this.id == id && !stopped && Valid()
    {
      this.id := id;
      stopped := false;
      cancelCalls := 0;
    }

    method Stop()
      requires Valid()
      modifies this
      ensures stopped && Valid()
    {
      if stopped {
        return;
      }
      stopped := true;
      cancelCalls := cancelCalls + 1;
    }
  }

  class ClusterCacheTracker {
    var accessors: map<ObjectKey, StoppableCache>
    const clusterLock: KeyedMutex
    ghost var caches: set<StoppableCache>   // every cache ever started

    /** The objects hold what the protocol's shared state says. */
    ghost predicate Represents(sh: Shared)
      reads this, clusterLock, caches
    {
      && clusterLock.locks == sh.locks
      && accessors.Keys == sh.accessors.Keys
      && (forall k :: k in accessors ==> accessors[k] in caches && accessors[k].id == sh.accessors[k])
      && (forall c :: c in caches ==> c.Valid() && (c.stopped <==> c.id in sh.stopped))
      && (forall c, d :: c in caches && d in caches && c.id == d.id ==> c == d)
    }

    constructor ()
      ensures Represents(INIT.sh)
    {
      accessors := map[];
      clusterLock := new KeyedMutex();
      caches := {};
    }

    method LoadAccessor(cluster: ObjectKey, ghost sh: Shared) returns (accessor: StoppableCache?, ok: bool)
      requires Represents(sh)
      ensures ok <==> cluster in sh.accessors
      ensures ok ==> accessor != null && accessor in caches && accessor.id == sh.accessors[cluster]
    {
      if cluster in accessors {
        return accessors[cluster], true;
      }
      return null, false;
    }

    method LockCluster(cluster: ObjectKey, ghost g: Gid, ghost sh: Shared) returns (ok: bool)
      requires Represents(sh)
      modifies clusterLock
      ensures ok <==> cluster !in sh.locks
      ensures Represents(if ok then Do(sh, g, Lock(cluster)) else sh)
    {
      ok := clusterLock.TryLock(cluster);
    }

    method UnlockCluster(cluster: ObjectKey, ghost g: Gid, ghost sh: Shared)
      requires Represents(sh)
      modifies clusterLock
      ensures Represents(Do(sh, g, Unlock(cluster)))
    {
      clusterLock.Unlock(cluster);
    }

    /** createCachedClient up to `go cache.Start(cacheCtx)`. */
    method StartNewCache(cluster: ObjectKey, id: nat, ghost g: Gid, ghost sh: Shared) returns (cache: StoppableCache)
      requires Represents(sh) && id !in sh.stopped
      requires forall c :: c in caches ==> c.id != id
      modifies this`caches
      ensures fresh(cache) && cache.id == id && caches == old(caches) + {cache}
      ensures Represents(Do(sh, g, StartCache(id, cluster)))
    {
      cache := new StoppableCache(id);
      caches := caches + {cache};
    }

    method Store(cluster: ObjectKey, accessor: StoppableCache, ghost g: Gid, ghost sh: Shared)
      requires Represents(sh) && accessor in caches
      modifies this`accessors
      ensures Represents(Do(sh, g, StoreAccessor(cluster, accessor.id)))
    {
      accessors := accessors[cluster := accessor];
    }

    method DeleteClusterAccessor(cluster: ObjectKey, ghost g: Gid, ghost sh: Shared)
      requires Represents(sh)
      modifies this`accessors, caches
      ensures Represents(Do(sh, g, DeleteAccessor(cluster)))
      ensures forall c :: c in caches && (cluster in old(accessors) ==> c != old(accessors[cluster])) ==> unchanged(c)
    {
      if cluster !in accessors {
        return;
      }
      var a := accessors[cluster];
      a.Stop();
      accessors := accessors - {cluster};
    }
  }
}
