/**
  The ssh key pair of a cluster: generated by the cluster controller, kept in a secret, read by every machine
  (cluster-api-provider-kubevirt/pkg/ssh/cluster_node_ssh_keys.go and the end of reconcileNormal in
  cluster-api-provider-kubevirt/controllers/kubevirtcluster_controller.go).

  Reads go through a cache that may lag behind, so the model keeps every version of the secret and of the
  record of its name in the KubevirtCluster, and a read may see any of them.
 */
module SshKeys {
  import opened Common

  type Data = map<string, string>

  datatype KeyPair = KeyPair(pub: string, key: string)

  /** All versions of the secret (None: not there), of "its name is recorded", and all pairs ever generated. */
  datatype World = World(secrets: seq<Option<Data>>, recorded: seq<bool>, generated: seq<KeyPair>)

  datatype Write = Rejected | Lost | Done

  /**
    What the surroundings do to one cluster pass: the versions its reads see (None: the read fails), the pair
    the generator gives, whether labels or owners of the secret need an update, the fate of the write
    (rejected, applied with a lost answer, applied) and of the final patch of the KubevirtCluster.
   */
  datatype Env = Env(cluster: nat, check: Option<nat>, generate: Option<KeyPair>, read: Option<nat>,
                     metaChanged: bool, write: Write, patched: bool)

  function ReadAt<T>(versions: seq<T>, i: nat): T
    requires versions != []
  {
    if i < |versions| then versions[i] else versions[|versions| - 1]
  }

  ghost predicate Started(w: World) {
    w.secrets != [] && w.recorded != []
  }

  function GetSecret(w: World, cluster: nat, read: Option<nat>): Option<Data>
    requires Started(w)
  {
    if !ReadAt(w.recorded, cluster) || read.None? then None else ReadAt(w.secrets, read.value)
  }

  predicate HasKeys(s: Option<Data>) {
    s.Some? && "pub" in s.value && "key" in s.value
  }

  /** What the secret becomes when the pair is put into it: an existing key is never replaced. */
  function Written(s: Option<Data>, p: KeyPair): Option<Data> {
    var d := if s.Some? then s.value else map[];
    Some(if "key" in d then d else d["pub" := p.pub]["key" := p.key])
  }

  /**
    CreateOrUpdate: creating fails when the secret exists, an update fails when the version read is not the
    latest, and an object that needs no change is not sent.
   */
  function CreateOrUpdate(secrets: seq<Option<Data>>, env: Env, p: KeyPair): (seq<Option<Data>>, bool)
    requires secrets != []
  {
    if env.read.None? then (secrets, false) else
    var seen := ReadAt(secrets, env.read.value);
    var stale := if seen.None? then secrets[|secrets| - 1].Some? else env.read.value < |secrets| - 1;
    if seen.Some? && Written(seen, p) == seen && !env.metaChanged then (secrets, true)
    else if stale || env.write.Rejected? then (secrets, false)
    else (secrets + [Written(seen, p)], env.write.Done?)
  }

  function ClusterPass(w: World, env: Env): (w': World)
    requires Started(w)
    ensures Started(w')
  {
    if HasKeys(GetSecret(w, env.cluster, env.check)) || env.generate.None? then w else
    var (secrets, ok) := CreateOrUpdate(w.secrets, env, env.generate.value);
    World(secrets, if ok && env.patched then w.recorded + [true] else w.recorded, w.generated + [env.generate.value])
  }

  function Run(w: World, passes: seq<Env>): (w': World)
    requires Started(w)
    ensures Started(w')
  {
    if passes == [] then w else ClusterPass(Run(w, passes[..|passes| - 1]), passes[|passes| - 1])
  }

  datatype Fetch = Fetched(pair: KeyPair) | Failed | Panicked

  /** A machine fetching the keys reads the secret twice; when only the second read fails it dereferences nil. */
  function FetchKeys(w: World, cluster: nat, check: Option<nat>, read: Option<nat>): Fetch
    requires Started(w)
  {
    if !HasKeys(GetSecret(w, cluster, check)) then Failed else
    var s := GetSecret(w, cluster, read);
    if s.None? then Panicked
    else if !HasKeys(s) then Failed
    else Fetched(KeyPair(s.value["pub"], s.value["key"]))
  }

  // ------------------------------------------------------------------ the code

  class Client {
    var world: World

    constructor (w: World)
      ensures world == w
    {
      world := w;
    }
  }

  class ClusterNodeSshKeys {
    const client: Client
    var publicKey: Option<string>
    var privateKey: Option<string>

    constructor (client: Client)
      ensures this.client == client && publicKey == None && privateKey == None
    {
      this.client := client;
      publicKey, privateKey := None, None;
    }

    method GenerateNewKeys(pair: Option<KeyPair>) returns (ok: bool)
      modifies this, client
      ensures ok <==> pair.Some?
      ensures !ok ==> unchanged(this) && unchanged(client)
      ensures ok ==> publicKey == Some(pair.value.pub) && privateKey == Some(pair.value.key)
      ensures ok ==> client.world == old(client.world).(generated := old(client.world.generated) + [pair.value])
    {
      ok := pair.Some?;
      if ok {
        publicKey, privateKey := Some(pair.value.pub), Some(pair.value.key);
        client.world := client.world.(generated := client.world.generated + [pair.value]);
      }
    }

    method PersistKeysToSecret(env: Env) returns (ok: bool)
      requires Started(client.world)
      modifies client
      ensures publicKey.None? || privateKey.None? ==> !ok && unchanged(client)
      ensures publicKey.Some? && privateKey.Some? ==>
        var pair := KeyPair(publicKey.value, privateKey.value);
        var (secrets, done) := CreateOrUpdate(old(client.world.secrets), env, pair);
        ok == done && client.world == old(client.world).(secrets := secrets)
    {
      if publicKey.None? || privateKey.None? {
        return false;
      }
      if env.read.None? {
        return false;
      }
      var current := client.world.secrets;
      var seen := ReadAt(current, env.read.value);
      var data: Data := if seen.Some? then seen.value else map[];
      if "key" !in data {
        data := data["pub" := publicKey.value];
        data := data["key" := privateKey.value];
      }
      if seen.Some? && data == seen.value && !env.metaChanged {
        return true;
      }
      if seen.None? {
        if current[|current| - 1].Some? {
          return false;
        }
      } else if env.read.value < |current| - 1 {
        return false;
      }
      if env.write.Rejected? {
        return false;
      }
      client.world := client.world.(secrets := current + [Some(data)]);
      ok := env.write.Done?;
    }

    method GetKeysDataSecret(cluster: nat, read: Option<nat>) returns (s: Option<Data>)
      requires Started(client.world)
      ensures s == GetSecret(client.world, cluster, read)
    {
      if !ReadAt(client.world.recorded, cluster) {
        return None;
      }
      if read.None? {
        return None;
      }
      s := ReadAt(client.world.secrets, read.value);
    }

    method IsPersistedToSecret(cluster: nat, read: Option<nat>) returns (persisted: bool)
      requires Started(client.world)
      ensures persisted == HasKeys(GetSecret(client.world, cluster, read))
    {
      var s := GetKeysDataSecret(cluster, read);
      persisted := s.Some? && "pub" in s.value && "key" in s.value;
    }

    method FetchPersistedKeysFromSecret(cluster: nat, check: Option<nat>, read: Option<nat>) returns (fetch: Fetch)
      requires Started(client.world)
      modifies this
      ensures fetch == FetchKeys(client.world, cluster, check, read)
      ensures fetch.Fetched? ==> publicKey == Some(fetch.pair.pub) && privateKey == Some(fetch.pair.key)
      ensures !fetch.Fetched? ==> privateKey == old(privateKey)
    {
      var persisted := IsPersistedToSecret(cluster, check);
      if !persisted {
        return Failed;
      }
      var s := GetKeysDataSecret(cluster, read);
      if s.None? {
        return Panicked;
      }
      if "pub" !in s.value {
        return Failed;
      }
      publicKey := Some(s.value["pub"]);
      if "key" !in s.value {
        return Failed;
      }
      privateKey := Some(s.value["key"]);
      fetch := Fetched(KeyPair(s.value["pub"], s.value["key"]));
    }
  }

  /** The ssh part of the KubevirtCluster controller's reconcileNormal, and the patch at the end of the pass. */
  method ReconcileSshKeys(client: Client, env: Env)
    requires Started(client.world)
    modifies client
    ensures client.world == ClusterPass(old(client.world), env)
  {
    var keys := new ClusterNodeSshKeys(client);
    var persisted := keys.IsPersistedToSecret(env.cluster, env.check);
    if !persisted {
      var generated := keys.GenerateNewKeys(env.generate);
      if !generated {
        return;
      }
      var ok := keys.PersistKeysToSecret(env);
      if ok && env.patched {
        client.world := client.world.(recorded := client.world.recorded + [true]);
      }
    }
  }

  // ------------------------------------------------------------------ what every run keeps

  ghost predicate WrittenFrom(w: World, i: nat)
    requires 0 < i < |w.secrets|
  {
    exists k :: 0 <= k < |w.generated| && w.secrets[i] == Written(w.secrets[i - 1], w.generated[k])
  }

  /** Each version of the secret came from the one before it by writing a generated pair. */
  ghost predicate Chain(w: World) {
    Started(w) && forall i :: 0 < i < |w.secrets| ==> WrittenFrom(w, i)
  }

  lemma PassKeepsChain(w: World, env: Env)
    requires Chain(w)
    ensures Chain(ClusterPass(w, env))
    ensures w.secrets <= ClusterPass(w, env).secrets
  {
    var w' := ClusterPass(w, env);
    if w'.generated != w.generated {
      assert w'.generated[|w.generated|] == env.generate.value;
      forall i | 0 < i < |w'.secrets| ensures WrittenFrom(w', i) {
        if i < |w.secrets| {
          assert WrittenFrom(w, i);
          var k :| 0 <= k < |w.generated| && w.secrets[i] == Written(w.secrets[i - 1], w.generated[k]);
          assert w'.generated[k] == w.generated[k];
        }
      }
    }
  }

  lemma {:induction false} RunKeepsChain(w: World, passes: seq<Env>)
    requires Chain(w)
    ensures Chain(Run(w, passes))
    ensures w.secrets <= Run(w, passes).secrets
  {
    if passes == [] {
    } else {
      RunKeepsChain(w, passes[..|passes| - 1]);
      PassKeepsChain(Run(w, passes[..|passes| - 1]), passes[|passes| - 1]);
    }
  }

  /** Once a version has the key, every later version is that version. */
  lemma {:induction false} KeyIsFinal(w: World, i: nat, j: nat)
    requires Chain(w)
    requires i <= j < |w.secrets|
    requires w.secrets[i].Some? && "key" in w.secrets[i].value
    ensures w.secrets[j] == w.secrets[i]
    decreases j
  {
    if i == j {
    } else {
      KeyIsFinal(w, i, j - 1);
      assert WrittenFrom(w, j);
    }
  }

  /** A version whose key was not there from the start holds both halves of one generated pair. */
  lemma {:induction false} KeyIsGenerated(w: World, i: nat)
    requires Chain(w)
    requires i < |w.secrets| && w.secrets[i].Some? && "key" in w.secrets[i].value
    requires w.secrets[0].None? || "key" !in w.secrets[0].value
    ensures HasKeys(w.secrets[i])
    ensures KeyPair(w.secrets[i].value["pub"], w.secrets[i].value["key"]) in w.generated
  {
    assert WrittenFrom(w, i);
    var before := w.secrets[i - 1];
    if before.Some? && "key" in before.value {
      KeyIsGenerated(w, i - 1);
    }
  }

  function Start(secret: Option<Data>): World {
    World([secret], [false], [])
  }

  /**
    Any two machine fetches that succeed, at any two moments of any run, through any stale reads, give the same
    pair; and the pair is one that was generated, unless the secret came with a key of its own.
   */
  lemma AllFetchesAgree(secret: Option<Data>, passes: seq<Env>, more: seq<Env>,
                        cluster: nat, check: Option<nat>, read: Option<nat>,
                        cluster': nat, check': Option<nat>, read': Option<nat>)
    requires FetchKeys(Run(Start(secret), passes), cluster, check, read).Fetched?
    requires FetchKeys(Run(Run(Start(secret), passes), more), cluster', check', read').Fetched?
    ensures FetchKeys(Run(Start(secret), passes), cluster, check, read) ==
            FetchKeys(Run(Run(Start(secret), passes), more), cluster', check', read')
    ensures secret.None? || "key" !in secret.value ==>
            FetchKeys(Run(Start(secret), passes), cluster, check, read).pair in Run(Start(secret), passes).generated
  {
    var w := Run(Start(secret), passes);
    var w' := Run(w, more);
    RunKeepsChain(Start(secret), passes);
    RunKeepsChain(w, more);
    var i := if read.value < |w.secrets| then read.value else |w.secrets| - 1;
    var j := if read'.value < |w'.secrets| then read'.value else |w'.secrets| - 1;
    assert w.secrets[i] == w'.secrets[i];
    if i <= j {
      KeyIsFinal(w', i, j);
    } else {
      KeyIsFinal(w', j, i);
    }
    if secret.None? || "key" !in secret.value {
      KeyIsGenerated(w, i);
    }
  }

  /**
    After any sequence of passes, a fetch whose check has seen the keys panics exactly when its second read fails,
    or goes back to a version from before the secret; a second read that does not go back delivers the keys.
   */
  lemma FetchPanicsIff(secret: Option<Data>, passes: seq<Env>, cluster: nat, check: nat, read: Option<nat>)
    requires HasKeys(GetSecret(Run(Start(secret), passes), cluster, Some(check)))
    ensures var w := Run(Start(secret), passes); var fetch := FetchKeys(w, cluster, Some(check), read);
      && (fetch.Panicked? <==> read.None? || (read.value < check && ReadAt(w.secrets, read.value).None?))
      && (read.Some? && read.value >= check ==> fetch.Fetched?)
  {
    var w := Run(Start(secret), passes);
    RunKeepsChain(Start(secret), passes);
    if read.Some? && read.value >= check {
      var last := |w.secrets| - 1;
      KeyIsFinal(w, if check < last then check else last, if read.value < last then read.value else last);
    }
  }

  // ------------------------------------------------------------------ when machines ever get keys

  /** A pass in which nothing fails and every read is current. */
  function GoodPass(w: World, p: KeyPair): Env {
    Env(|w.recorded|, Some(|w.secrets|), Some(p), Some(|w.secrets|), false, Done, true)
  }

  predicate Stuck(s: Option<Data>) {
    s.Some? && "key" in s.value && "pub" !in s.value
  }

  /** From any state of a run, one good pass makes the keys available to every machine that reads currently. */
  lemma GoodPassDelivers(w: World, p: KeyPair)
    requires Started(w)
    requires !Stuck(w.secrets[|w.secrets| - 1])
    ensures var w' := ClusterPass(w, GoodPass(w, p));
            && FetchKeys(w', |w'.recorded|, Some(|w'.secrets|), Some(|w'.secrets|)).Fetched?
            && ClusterPass(w', GoodPass(w', p)) == w'
  {
    var w' := ClusterPass(w, GoodPass(w, p));
    assert ReadAt(w'.recorded, |w'.recorded|);
    assert HasKeys(ReadAt(w'.secrets, |w'.secrets|));
  }

  /** A secret that came with a key but no public key is never repaired, however many pairs are generated. */
  lemma {:induction false} StuckStays(secret: Option<Data>, passes: seq<Env>, i: nat)
    requires Stuck(secret)
    requires i < |Run(Start(secret), passes).secrets|
    ensures Run(Start(secret), passes).secrets[i] == secret
  {
    RunKeepsChain(Start(secret), passes);
    KeyIsFinal(Run(Start(secret), passes), 0, i);
  }

  /** One good pass and a failing second read are enough for a panic. */
  lemma FetchPanics(secret: Option<Data>)
    requires !Stuck(secret)
    ensures exists passes, cluster: nat, check: nat ::
      FetchKeys(Run(Start(secret), passes), cluster, Some(check), None).Panicked?
  {
    var w := Start(secret);
    var p := KeyPair("", "");
    GoodPassDelivers(w, p);
    var passes := [GoodPass(w, p)];
    assert passes[..0] == [];
    assert Run(w, []) == w;
    var w' := Run(w, passes);
    assert w' == ClusterPass(w, GoodPass(w, p));
    assert FetchKeys(w', |w'.recorded|, Some(|w'.secrets|), None).Panicked?;
  }

  ghost predicate FetchSucceeds(secret: Option<Data>, passes: seq<Env>) {
    exists cluster: nat, check, read {:trigger FetchKeys(Run(Start(secret), passes), cluster, check, read)} ::
      FetchKeys(Run(Start(secret), passes), cluster, check, read).Fetched?
  }

  lemma NeverFetched(secret: Option<Data>, passes: seq<Env>, cluster: nat, check: Option<nat>, read: Option<nat>)
    requires Stuck(secret)
    ensures FetchKeys(Run(Start(secret), passes), cluster, check, read).Failed?
  {
    if check.Some? {
      var w := Run(Start(secret), passes);
      StuckStays(secret, passes, if check.value < |w.secrets| then check.value else |w.secrets| - 1);
    }
  }

  /** Some run ends with machines fetching keys, exactly when the secret did not start with half a pair. */
  lemma FetchableIff(secret: Option<Data>)
    ensures (exists passes :: FetchSucceeds(secret, passes)) <==> !Stuck(secret)
  {
    if !Stuck(secret) {
      var w := Start(secret);
      var p := KeyPair("", "");
      GoodPassDelivers(w, p);
      var passes := [GoodPass(w, p)];
      assert passes[..0] == [];
      assert Run(w, []) == w;
      assert Run(w, passes) == ClusterPass(w, GoodPass(w, p));
      assert FetchSucceeds(secret, passes);
    } else {
      forall passes ensures !FetchSucceeds(secret, passes) {
        forall cluster: nat, check, read
          ensures !FetchKeys(Run(Start(secret), passes), cluster, check, read).Fetched?
        {
          NeverFetched(secret, passes, cluster, check, read);
        }
      }
    }
  }

  /** A recorded name is the name of a secret that is there. */
  ghost predicate RecordedIsThere(w: World) {
    Started(w) && ((exists i :: 0 <= i < |w.recorded| && w.recorded[i]) ==> w.secrets[|w.secrets| - 1].Some?)
  }

  /** A secret that is there stays there. */
  lemma {:induction false} SomeStays(w: World, i: nat, j: nat)
    requires Chain(w) && i <= j < |w.secrets|
    ensures w.secrets[i].Some? ==> w.secrets[j].Some?
    decreases j
  {
    if i == j {
    } else {
      SomeStays(w, i, j - 1);
      assert WrittenFrom(w, j);
    }
  }

  lemma PassKeepsRecord(w: World, env: Env)
    requires RecordedIsThere(w) && Chain(w)
    ensures RecordedIsThere(ClusterPass(w, env))
  {
    var w' := ClusterPass(w, env);
    if w'.recorded == w.recorded {
      assert w'.secrets == w.secrets || w'.secrets[|w'.secrets| - 1].Some?;
    } else {
      var seen := ReadAt(w.secrets, env.read.value);
      var i := if env.read.value < |w.secrets| then env.read.value else |w.secrets| - 1;
      SomeStays(w, i, |w.secrets| - 1);
    }
  }

  /** Over any sequence of passes the name of the secret is only recorded once the secret is there. */
  lemma {:induction false} RecordedMeansSecret(secret: Option<Data>, passes: seq<Env>)
    ensures RecordedIsThere(Run(Start(secret), passes))
  {
    if passes == [] {
    } else {
      var front := passes[..|passes| - 1];
      RecordedMeansSecret(secret, front);
      RunKeepsChain(Start(secret), front);
      PassKeepsRecord(Run(Start(secret), front), passes[|passes| - 1]);
    }
  }

  /**
    Putting the keys into the secret succeeds exactly when the secret can be read and either needs no change, or is
    written, from a current read, with an answer that arrives.
   */
  lemma PersistsIff(secrets: seq<Option<Data>>, env: Env, p: KeyPair)
    requires secrets != []
    ensures CreateOrUpdate(secrets, env, p).1 <==>
      env.read.Some? &&
      var seen := ReadAt(secrets, env.read.value);
      || (seen.Some? && "key" in seen.value && !env.metaChanged)
      || (env.write.Done? && if seen.None? then secrets[|secrets| - 1].None? else env.read.value >= |secrets| - 1)
  {
    var seen := ReadAt(secrets, if env.read.Some? then env.read.value else 0);
    if seen.Some? && "key" !in seen.value {
      assert "key" in Written(seen, p).value;
    }
  }

  /** A pass records the name exactly when it had to persist keys, persisted them, and its patch went through. */
  lemma RecordsIff(w: World, env: Env)
    requires Started(w)
    ensures ClusterPass(w, env).recorded != w.recorded <==>
      && !HasKeys(GetSecret(w, env.cluster, env.check)) && env.generate.Some? && env.patched
      && CreateOrUpdate(w.secrets, env, env.generate.value).1
  {
    assert |w.recorded + [true]| == |w.recorded| + 1;
  }
}
