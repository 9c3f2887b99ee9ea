/**
 The state-changing part of the node-container reconciler
 (provision/kubernetes/nodecontainer.go): reading the existing DaemonSet, the placement-only
 rewrite, the loops that parse the environment and the binds, the in-place extension of the
 configured binds, and the final create or update; then the pass over every cluster.

 The Kubernetes API is a `KubeApi` object holding one `Cluster` value per cluster client:
 the DaemonSets of its namespace by name, the log of writes issued to it, and the names on
 which a read, an update or a create fails there (a stand-in for whatever the API server
 decides). A `clusterClient` is an index into that sequence. Errors are wrapped with
 `errors.WithStack`, which keeps nil as nil; they are modelled unwrapped.

 Assumption: `forEachCluster` is not part of this model. `ForEachCluster` below reports "no
 cluster" when there is none and otherwise visits the clusters in order, stopping at the
 first error.

 `DeployNodeContainer` hands the one configuration object to every pass, so a pass starts
 from the binds the earlier passes left in it: `Chained` names those configurations, and
 `Visited` says which clusters the loop reached and what it left in each. The corrected
 `DeployNodeContainerFixed` makes every pass from the caller's configuration.
*/
module NodeContainerDeploy {
  import opened Options
  import opened GoStrings
  import opened NodeContainer

  datatype Error =
    | GetFailed(name: string)
    | UpdateFailed(name: string)
    | CreateFailed(name: string)
    | NoCluster

  datatype Write = Updated(ds: DaemonSet) | Created(ds: DaemonSet)

  /** What one cluster client sees and has been sent. */
  datatype Cluster = Cluster(
    namespace: string,
    daemonSets: map<string, DaemonSet>,
    writes: seq<Write>,
    getFails: set<string>,
    updateFails: set<string>,
    createFails: set<string>)

  /** What reading DaemonSet `name` returns; a failing read is any error but not-found. */
  function LookupIn(c: Cluster, name: string): Lookup
  {
    if name in c.getFails then LookupFailed
    else if name in c.daemonSets then Found(c.daemonSets[name])
    else NotFound
  }

  /** The writes an action issues: at most one. */
  function WritesOf(a: Action): (w: seq<Write>)
    ensures |w| <= 1
    ensures w == [] <==> a.Abort? || a.Skip?
  {
    match a
    case UpdateWith(ds) => [Updated(ds)]
    case CreateWith(ds) => [Created(ds)]
    case _ => []
  }

  /** The cluster after the action: its write logged, and stored when it succeeds. */
  function Apply(c: Cluster, a: Action): Cluster
  {
    match a
    case UpdateWith(ds) =>
      c.(writes := c.writes + [Updated(ds)],
         daemonSets := if ds.name in c.updateFails then c.daemonSets else c.daemonSets[ds.name := ds])
    case CreateWith(ds) =>
      c.(writes := c.writes + [Created(ds)],
         daemonSets := if ds.name in c.createFails then c.daemonSets else c.daemonSets[ds.name := ds])
    case _ => c
  }

  /** The error a pass returns after the action; `name` is the DaemonSet it read. */
  function ErrorOf(c: Cluster, a: Action, name: string): Option<Error>
  {
    match a
    case Abort => Some(GetFailed(name))
    case Skip => None
    case UpdateWith(ds) => if ds.name in c.updateFails then Some(UpdateFailed(ds.name)) else None
    case CreateWith(ds) => if ds.name in c.createFails then Some(CreateFailed(ds.name)) else None
  }

  /** What one pass with these inputs decides on cluster `c`. */
  function Plan(c: Cluster, placementOnly: bool, t: Target, cfg: ContainerConfig): Action
  {
    Decide(LookupIn(c, t.dsName), placementOnly, t, c.namespace, cfg)
  }

  /** The cluster after that pass. */
  function Pass(c: Cluster, placementOnly: bool, t: Target, cfg: ContainerConfig): Cluster
  {
    Apply(c, Plan(c, placementOnly, t, cfg))
  }

  /** The error that pass returns. */
  function Outcome(c: Cluster, placementOnly: bool, t: Target, cfg: ContainerConfig): Option<Error>
  {
    ErrorOf(c, Plan(c, placementOnly, t, cfg), t.dsName)
  }

  /** An action logs exactly its own write and stores only what succeeded: an action that
      returns no error leaves the DaemonSet it wrote in place, one that fails changes no
      DaemonSet. */
  lemma ApplyEffect(c: Cluster, a: Action, name: string)
    ensures Apply(c, a).writes == c.writes + WritesOf(a)
    ensures ErrorOf(c, a, name).None? && (a.UpdateWith? || a.CreateWith?) ==>
              Apply(c, a).daemonSets == c.daemonSets[a.ds.name := a.ds]
    ensures ErrorOf(c, a, name).Some? ==> Apply(c, a).daemonSets == c.daemonSets
  {
  }

  class KubeApi {
    var clusters: seq<Cluster>

    constructor (clusters: seq<Cluster>)
      ensures this.clusters == clusters
    {
      this.clusters := clusters;
    }

    /** `DaemonSets(namespace).Get(name)` through the client of cluster `c`. */
    method Get(c: nat, name: string) returns (l: Lookup)
      requires c < |clusters|
      ensures l == LookupIn(clusters[c], name)
    {
      var cl := clusters[c];
      if name in cl.getFails {
        l := LookupFailed;
      } else if name in cl.daemonSets {
        l := Found(cl.daemonSets[name]);
      } else {
        l := NotFound;
      }
    }

    /** `DaemonSets(namespace).Update(ds)` through the client of cluster `c`. */
    method Update(c: nat, ds: DaemonSet) returns (err: Option<Error>)
      requires c < |clusters|
      modifies this
      ensures clusters == old(clusters)[c := Apply(old(clusters)[c], UpdateWith(ds))]
      ensures err == ErrorOf(old(clusters)[c], UpdateWith(ds), ds.name)
    {
      var cl := clusters[c];
      if ds.name in cl.updateFails {
        err := Some(UpdateFailed(ds.name));
        cl := cl.(writes := cl.writes + [Updated(ds)]);
      } else {
        err := None;
        cl := cl.(writes := cl.writes + [Updated(ds)], daemonSets := cl.daemonSets[ds.name := ds]);
      }
      clusters := clusters[c := cl];
    }

    /** `DaemonSets(namespace).Create(ds)` through the client of cluster `c`. */
    method Create(c: nat, ds: DaemonSet) returns (err: Option<Error>)
      requires c < |clusters|
      modifies this
      ensures clusters == old(clusters)[c := Apply(old(clusters)[c], CreateWith(ds))]
      ensures err == ErrorOf(old(clusters)[c], CreateWith(ds), ds.name)
    {
      var cl := clusters[c];
      if ds.name in cl.createFails {
        err := Some(CreateFailed(ds.name));
        cl := cl.(writes := cl.writes + [Created(ds)]);
      } else {
        err := None;
        cl := cl.(writes := cl.writes + [Created(ds)], daemonSets := cl.daemonSets[ds.name := ds]);
      }
      clusters := clusters[c := cl];
    }
  }

  /** `nodecontainer.NodeContainerConfig`, of which the reconciler changes only the binds. */
  class NodeContainerConfig {
    const name: string
    const image: string
    const entrypoint: seq<string>
    const cmd: seq<string>
    const env: seq<string>
    const workingDir: string
    const tty: bool
    var binds: seq<string>
    const privileged: bool
    const restartPolicyName: string
    const networkMode: string

    constructor (c: ContainerConfig)
      ensures Value() == c
    {
      name, image, entrypoint, cmd, env := c.name, c.image, c.entrypoint, c.cmd, c.env;
      workingDir, tty, binds, privileged := c.workingDir, c.tty, c.binds, c.privileged;
      restartPolicyName, networkMode := c.restartPolicyName, c.networkMode;
    }

    function Value(): ContainerConfig
      reads this
    {
      ContainerConfig(name, image, entrypoint, cmd, env, workingDir, tty, binds, privileged,
                      restartPolicyName, networkMode)
    }
  }

  /** The environment, filled in entry by entry into a buffer of `|env|` variables. */
  method BuildEnvVars(env: seq<string>) returns (vars: seq<EnvVar>)
    ensures vars == EnvVars(env)
  {
    var buffer := new EnvVar[|env|](_ => EnvVar("", ""));
    for i := 0 to |env|
      invariant forall k :: 0 <= k < i ==> buffer[k] == ParseEnvVar(env[k])
    {
      var parts := SplitN(env[i], '=', 2);
      var value := "";
      if |parts| > 1 {
        value := parts[1];
      }
      var v := EnvVar(parts[0], value);
      assert v == ParseEnvVar(env[i]);
      buffer[i] := v;
    }
    vars := buffer[..];
  }

  /** One volume and one mount per bind, appended in order. */
  method BuildVolumes(binds: seq<string>) returns (volumes: seq<Volume>, mounts: seq<VolumeMount>)
    ensures volumes == Volumes(binds) && mounts == Mounts(binds)
  {
    volumes, mounts := [], [];
    for i := 0 to |binds|
      invariant volumes == Volumes(binds)[..i]
      invariant mounts == Mounts(binds)[..i]
    {
      var parts := SplitN(binds[i], ':', 3);
      var vol := Volume(VolumeName(i), parts[0]);
      var mount := VolumeMount(vol.name, "", false);
      if |parts| > 1 {
        mount := mount.(mountPath := parts[1]);
      }
      if |parts| > 2 {
        mount := mount.(readOnly := parts[2] == "ro");
      }
      assert BindMount(vol, mount) == ParseBind(i, binds[i]);
      VolumesStep(binds, i);
      volumes := volumes + [vol];
      mounts := mounts + [mount];
    }
    assert Volumes(binds)[..|binds|] == Volumes(binds);
    assert Mounts(binds)[..|binds|] == Mounts(binds);
  }

  /** The start of a pass: read the existing DaemonSet, stop on a read error, and handle a
      placement-only pass over an existing object. `done` says whether the pass is over. */
  method ReadAndPlace(api: KubeApi, c: nat, t: Target, placementOnly: bool, ghost cfg: ContainerConfig)
    returns (l: Lookup, done: bool, err: Option<Error>)
    requires c < |api.clusters|
    modifies api
    ensures l == LookupIn(old(api.clusters)[c], t.dsName)
    ensures done <==> !BuildsFull(l, placementOnly)
    ensures done ==> api.clusters == old(api.clusters)[c := Pass(old(api.clusters)[c], placementOnly, t, cfg)]
    ensures done ==> err == Outcome(old(api.clusters)[c], placementOnly, t, cfg)
    ensures !done ==> api.clusters == old(api.clusters)
  {
    l := api.Get(c, t.dsName);
    if l.LookupFailed? {
      return l, true, Some(GetFailed(t.dsName));
    }
    var p := PlacementFor(t.poolLabel, t.filter);
    if l.Found? && placementOnly {
      if PlacementOf(l.ds) == p {
        return l, true, None;
      }
      err := api.Update(c, WithPlacement(l.ds, p));
      return l, true, err;
    }
    return l, false, None;
  }

  /** The end of a full pass: build the DaemonSet from `cfg` with the given binds, then
      update it if it existed and create it otherwise. */
  method WriteFull(api: KubeApi, c: nat, l: Lookup, t: Target, cfg: ContainerConfig, binds: seq<string>)
    returns (err: Option<Error>)
    requires c < |api.clusters| && BuildsFull(l, false)
    modifies api
    ensures var cl := old(api.clusters)[c];
            var ds := AssembleDaemonSet(t, cl.namespace, cfg, EnvVars(cfg.env), Volumes(binds), Mounts(binds));
            var a := if l.Found? then UpdateWith(ds) else CreateWith(ds);
            && api.clusters == old(api.clusters)[c := Apply(cl, a)]
            && err == ErrorOf(cl, a, ds.name)
  {
    var env := BuildEnvVars(cfg.env);
    var volumes, mounts := BuildVolumes(binds);
    var ds := AssembleDaemonSet(t, api.clusters[c].namespace, cfg, env, volumes, mounts);
    if l.Found? {
      err := api.Update(c, ds);
    } else {
      err := api.Create(c, ds);
    }
  }

  /** `deployNodeContainerForCluster` as written: for the big-sibling container the extra
      binds are appended to the caller's configuration itself, so they stay there. */
  method DeployNodeContainerForCluster(api: KubeApi, c: nat, config: NodeContainerConfig, t: Target, placementOnly: bool)
    returns (err: Option<Error>)
    requires c < |api.clusters|
    modifies api, config
    ensures api.clusters == old(api.clusters)[c := Pass(old(api.clusters)[c], placementOnly, t, old(config.Value()))]
    ensures err == Outcome(old(api.clusters)[c], placementOnly, t, old(config.Value()))
    ensures config.Value() == NextConfig(old(api.clusters)[c], placementOnly, t, old(config.Value()))
  {
    var cfg := config.Value();
    var l, done;
    l, done, err := ReadAndPlace(api, c, t, placementOnly, cfg);
    if done {
      return;
    }
    if config.name == BigSiblingName {
      config.binds := config.binds + BigSiblingBinds;
    }
    err := WriteFull(api, c, l, t, cfg, config.binds);
  }

  /** The evidently intended reconciler: the extra binds go to a local copy and the caller's
      configuration is left alone. */
  method DeployNodeContainerForClusterFixed(api: KubeApi, c: nat, config: NodeContainerConfig, t: Target, placementOnly: bool)
    returns (err: Option<Error>)
    requires c < |api.clusters|
    modifies api
    ensures api.clusters == old(api.clusters)[c := Pass(old(api.clusters)[c], placementOnly, t, config.Value())]
    ensures err == Outcome(old(api.clusters)[c], placementOnly, t, config.Value())
  {
    var l, done;
    l, done, err := ReadAndPlace(api, c, t, placementOnly, config.Value());
    if done {
      return;
    }
    var binds := config.binds;
    if config.name == BigSiblingName {
      binds := binds + BigSiblingBinds;
    }
    err := WriteFull(api, c, l, t, config.Value(), binds);
  }

  // ---------------------------------------------------------------------------
  // The pass over every cluster
  // ---------------------------------------------------------------------------

  /** The clusters each pass over `cs` would leave, pass `j` made from `cfgs[j]`. */
  function Passes(cs: seq<Cluster>, placementOnly: bool, t: Target, cfgs: seq<ContainerConfig>): (rs: seq<Cluster>)
    requires |cs| <= |cfgs|
    ensures |rs| == |cs|
  {
    seq(|cs|, j requires 0 <= j < |cs| => Pass(cs[j], placementOnly, t, cfgs[j]))
  }

  /** The errors those passes would return. */
  function Outcomes(cs: seq<Cluster>, placementOnly: bool, t: Target, cfgs: seq<ContainerConfig>): (outs: seq<Option<Error>>)
    requires |cs| <= |cfgs|
    ensures |outs| == |cs|
  {
    seq(|cs|, j requires 0 <= j < |cs| => Outcome(cs[j], placementOnly, t, cfgs[j]))
  }

  /** The clusters once the first `n` passes are made: `rs[j]` for those, `cs[j]` after. */
  function PassFirst(cs: seq<Cluster>, n: nat, rs: seq<Cluster>): seq<Cluster>
    requires n <= |cs| == |rs|
  {
    seq(|cs|, j requires 0 <= j < |cs| => if j < n then rs[j] else cs[j])
  }

  /** None of the first `n` errors is set. */
  ghost predicate NoneFailed(outs: seq<Option<Error>>, n: nat)
    requires n <= |outs|
  {
    forall j :: 0 <= j < n ==> outs[j].None?
  }

  /** After `n` passes over `cs`, stopping at the first error `e`, with per-pass results
      `rs`, errors `outs` and configurations `cfgs`: the clusters are `now` and the
      configuration is `cfg`; the passes before the last one succeeded, and `e` is the
      last one's error. */
  ghost predicate Visited(cs: seq<Cluster>, n: nat, rs: seq<Cluster>, outs: seq<Option<Error>>,
                          cfgs: seq<ContainerConfig>, now: seq<Cluster>, cfg: ContainerConfig, e: Option<Error>)
  {
    n <= |cs| == |rs| == |outs| && n < |cfgs|
    && now == PassFirst(cs, n, rs)
    && cfg == cfgs[n]
    && (e.None? ==> NoneFailed(outs, n))
    && (e.Some? ==> 0 < n && NoneFailed(outs, n - 1) && e == outs[n - 1])
  }

  /** One more pass, over cluster `i`, from the state the first `i` passes left. */
  lemma PassStep(c0: seq<Cluster>, i: nat, rs: seq<Cluster>, before: seq<Cluster>, after: seq<Cluster>)
    requires i < |c0| == |rs| && before == PassFirst(c0, i, rs)
    requires after == before[i := rs[i]]
    ensures after == PassFirst(c0, i + 1, rs)
  {
  }

  /** The configuration the as-written pass over cluster `c` leaves to the next one: a full
      build of the big-sibling container keeps the extra binds in it. */
  function NextConfig(c: Cluster, placementOnly: bool, t: Target, cfg: ContainerConfig): ContainerConfig
  {
    if BuildsFull(LookupIn(c, t.dsName), placementOnly) then cfg.(binds := BindsFor(cfg.name, cfg.binds))
    else cfg
  }

  /** `cfgs` are the configurations the as-written passes over `cs` are made from: entry `j`
      is the one cluster `j` is handed, which the pass before it left, and the last entry is
      the one left to the caller. */
  ghost predicate Chained(cs: seq<Cluster>, placementOnly: bool, t: Target, cfgs: seq<ContainerConfig>)
  {
    |cfgs| == |cs| + 1
    && forall j {:trigger NextConfig(cs[j], placementOnly, t, cfgs[j])} :: 0 <= j < |cs| ==>
         cfgs[j + 1] == NextConfig(cs[j], placementOnly, t, cfgs[j])
  }

  /** There are such configurations from every starting one. */
  lemma {:induction false} ChainFrom(cs: seq<Cluster>, placementOnly: bool, t: Target, cfg: ContainerConfig)
    returns (cfgs: seq<ContainerConfig>)
    ensures Chained(cs, placementOnly, t, cfgs) && cfgs[0] == cfg
    decreases |cs|
  {
    if |cs| == 0 {
      cfgs := [cfg];
    } else {
      var rest := ChainFrom(cs[1..], placementOnly, t, NextConfig(cs[0], placementOnly, t, cfg));
      cfgs := [cfg] + rest;
      forall j | 0 <= j < |cs|
        ensures cfgs[j + 1] == NextConfig(cs[j], placementOnly, t, cfgs[j])
      {
        if j > 0 {
          assert cs[1..][j - 1] == cs[j];
        }
      }
    }
  }

  /** Two chains from the same configuration agree up to entry `k`. */
  lemma {:induction false} ChainsAgree(cs: seq<Cluster>, placementOnly: bool, t: Target,
                                      a: seq<ContainerConfig>, b: seq<ContainerConfig>, k: nat)
    requires Chained(cs, placementOnly, t, a) && Chained(cs, placementOnly, t, b) && a[0] == b[0]
    requires k <= |cs|
    ensures a[k] == b[k]
  {
    if k > 0 {
      ChainsAgree(cs, placementOnly, t, a, b, k - 1);
      assert a[k] == NextConfig(cs[k - 1], placementOnly, t, a[k - 1]);
      assert b[k] == NextConfig(cs[k - 1], placementOnly, t, b[k - 1]);
    }
  }

  /** ... so the starting configuration determines them all. */
  lemma ChainUnique(cs: seq<Cluster>, placementOnly: bool, t: Target, a: seq<ContainerConfig>, b: seq<ContainerConfig>)
    requires Chained(cs, placementOnly, t, a) && Chained(cs, placementOnly, t, b) && a[0] == b[0]
    ensures a == b
  {
    forall k | 0 <= k < |a|
      ensures a[k] == b[k]
    {
      ChainsAgree(cs, placementOnly, t, a, b, k);
    }
  }

  /** One step of the as-written loop: the pass over cluster `i`, which finds the first `i`
      clusters passed without error, each from the configuration the passes before it left. */
  method NextCluster(api: KubeApi, config: NodeContainerConfig, i: nat, t: Target, placementOnly: bool,
                     ghost c0: seq<Cluster>, ghost cfgs: seq<ContainerConfig>)
    returns (e: Option<Error>)
    requires i < |c0| == |api.clusters| && Chained(c0, placementOnly, t, cfgs)
    requires Visited(c0, i, Passes(c0, placementOnly, t, cfgs), Outcomes(c0, placementOnly, t, cfgs), cfgs,
                     api.clusters, config.Value(), None)
    modifies api, config
    ensures Visited(c0, i + 1, Passes(c0, placementOnly, t, cfgs), Outcomes(c0, placementOnly, t, cfgs), cfgs,
                    api.clusters, config.Value(), e)
  {
    ghost var rs := Passes(c0, placementOnly, t, cfgs);
    ghost var before := api.clusters;
    assert before[i] == c0[i];
    e := DeployNodeContainerForCluster(api, i, config, t, placementOnly);
    PassStep(c0, i, rs, before, api.clusters);
    assert cfgs[i + 1] == NextConfig(c0[i], placementOnly, t, cfgs[i]);
  }

  /** The corrected passes are all made from the one configuration. */
  function SameConfig(cfg: ContainerConfig, n: nat): seq<ContainerConfig>
  {
    seq(n, _ => cfg)
  }

  /** How many of the first `n` passes build a full DaemonSet. */
  function FullPasses(cs: seq<Cluster>, n: nat, placementOnly: bool, t: Target): nat
    requires n <= |cs|
  {
    if n == 0 then 0
    else FullPasses(cs, n - 1, placementOnly, t) + (if BuildsFull(LookupIn(cs[n - 1], t.dsName), placementOnly) then 1 else 0)
  }

  /** `k` copies of `s`, one after another. */
  function Repeat<T>(s: seq<T>, k: nat): seq<T>
  {
    if k == 0 then [] else Repeat(s, k - 1) + s
  }

  /** Appending one more copy. */
  lemma RepeatOneMore<T>(a: seq<T>, s: seq<T>, k: nat)
    ensures a + Repeat(s, k) + s == a + Repeat(s, k + 1)
  {
    assert Repeat(s, k + 1) == Repeat(s, k) + s;
  }

  /** The configuration after `k` full passes of the big-sibling container. */
  function WithExtraBinds(cfg: ContainerConfig, k: nat): ContainerConfig
  {
    cfg.(binds := if cfg.name == BigSiblingName then cfg.binds + Repeat(BigSiblingBinds, k) else cfg.binds)
  }

  /** One more pass adds one more copy of the extra binds exactly when it builds in full. */
  lemma WithExtraBindsStep(c: Cluster, placementOnly: bool, t: Target, cfg: ContainerConfig, k: nat)
    ensures NextConfig(c, placementOnly, t, WithExtraBinds(cfg, k))
         == WithExtraBinds(cfg, k + if BuildsFull(LookupIn(c, t.dsName), placementOnly) then 1 else 0)
  {
    RepeatOneMore(cfg.binds, BigSiblingBinds, k);
  }

  /** After `n` as-written passes the configuration has the extra binds once per full pass
      made so far, for the big-sibling container, and is otherwise unchanged. */
  lemma {:induction false} ChainBinds(cs: seq<Cluster>, placementOnly: bool, t: Target, cfgs: seq<ContainerConfig>, n: nat)
    requires Chained(cs, placementOnly, t, cfgs) && n <= |cs|
    ensures cfgs[n] == WithExtraBinds(cfgs[0], FullPasses(cs, n, placementOnly, t))
  {
    if n > 0 {
      ChainBinds(cs, placementOnly, t, cfgs, n - 1);
      assert cfgs[n] == NextConfig(cs[n - 1], placementOnly, t, cfgs[n - 1]);
      WithExtraBindsStep(cs[n - 1], placementOnly, t, cfgs[0], FullPasses(cs, n - 1, placementOnly, t));
    } else {
      assert Repeat(BigSiblingBinds, 0) == [];
    }
  }

  /** Two full as-written passes of the big-sibling container: the second cluster's
      DaemonSet carries the extra binds twice, so `/var/log` is mounted at two volumes. */
  lemma SecondClusterMountsLogTwice(cs: seq<Cluster>, t: Target, cfgs: seq<ContainerConfig>)
    requires 2 <= |cs| && Chained(cs, false, t, cfgs) && cfgs[0].name == BigSiblingName
    requires !LookupIn(cs[0], t.dsName).LookupFailed? && !LookupIn(cs[1], t.dsName).LookupFailed?
    ensures var w := Pass(cs[1], false, t, cfgs[1]).writes;
            var n := |cfgs[0].binds|;
            && |w| == |cs[1].writes| + 1
            && |w[|w| - 1].ds.template.spec.containers| == 1
            && var mounts := w[|w| - 1].ds.template.spec.containers[0].volumeMounts;
               && |mounts| == n + 6
               && mounts[n].mountPath == "/var/log"
               && mounts[n + 3].mountPath == "/var/log"
  {
    var cfg1 := cfgs[1];
    assert cfg1 == NextConfig(cs[0], false, t, cfgs[0]);
    assert BuildsFull(LookupIn(cs[0], t.dsName), false);
    assert cfg1 == cfgs[0].(binds := BindsFor(BigSiblingName, cfgs[0].binds));
    var a := Plan(cs[1], false, t, cfg1);
    ApplyEffect(cs[1], a, t.dsName);
    assert a.ds == FullDaemonSet(t, cs[1].namespace, cfg1);
    RepeatedBigSiblingBindsDuplicateMount(cfgs[0].binds);
  }

  /** The visit of every cluster in order, stopping at the first error (the assumed
      behaviour of `forEachCluster`), with the per-cluster pass as written: "no cluster"
      when there is none; otherwise `reached` passes, each made from the configuration the
      passes before it left, and the error of the last one. */
  method ForEachCluster(api: KubeApi, config: NodeContainerConfig, t: Target, placementOnly: bool)
    returns (e: Option<Error>, ghost reached: nat, ghost cfgs: seq<ContainerConfig>)
    modifies api, config
    ensures Chained(old(api.clusters), placementOnly, t, cfgs) && cfgs[0] == old(config.Value())
    ensures e == Some(NoCluster) <==> |old(api.clusters)| == 0
    ensures e.None? ==> reached == |old(api.clusters)|
    ensures |old(api.clusters)| == 0 ==>
              reached == 0 && api.clusters == old(api.clusters) && config.Value() == old(config.Value())
    ensures 0 < |old(api.clusters)| ==>
              Visited(old(api.clusters), reached, Passes(old(api.clusters), placementOnly, t, cfgs),
                      Outcomes(old(api.clusters), placementOnly, t, cfgs), cfgs, api.clusters, config.Value(), e)
  {
    ghost var c0 := api.clusters;
    cfgs := ChainFrom(c0, placementOnly, t, config.Value());
    if |api.clusters| == 0 {
      return Some(NoCluster), 0, cfgs;
    }
    e := None;
    var i := 0;
    assert api.clusters == PassFirst(c0, 0, Passes(c0, placementOnly, t, cfgs));
    while i < |api.clusters| && e.None?
      invariant i <= |c0| == |api.clusters|
      invariant Visited(c0, i, Passes(c0, placementOnly, t, cfgs), Outcomes(c0, placementOnly, t, cfgs), cfgs,
                        api.clusters, config.Value(), e)
      invariant e != Some(NoCluster)
    {
      e := NextCluster(api, config, i, t, placementOnly, c0, cfgs);
      i := i + 1;
    }
    reached := i;
  }

  /** `DeployNodeContainer`: the visit with the per-cluster pass as written, where having no
      cluster at all is success. Every visited cluster gets the pass its own state calls
      for, made from the configuration the earlier passes left, and the others are left
      alone; the caller's configuration ends as the last pass left it. */
  method DeployNodeContainer(api: KubeApi, config: NodeContainerConfig, t: Target, placementOnly: bool)
    returns (err: Option<Error>, ghost reached: nat, ghost cfgs: seq<ContainerConfig>)
    modifies api, config
    ensures Chained(old(api.clusters), placementOnly, t, cfgs) && cfgs[0] == old(config.Value())
    ensures err.None? ==> reached == |old(api.clusters)|
    ensures Visited(old(api.clusters), reached, Passes(old(api.clusters), placementOnly, t, cfgs),
                    Outcomes(old(api.clusters), placementOnly, t, cfgs), cfgs, api.clusters, config.Value(), err)
  {
    var e;
    e, reached, cfgs := ForEachCluster(api, config, t, placementOnly);
    err := NoClusterIsSuccess(e, NoCluster);
    if |old(api.clusters)| == 0 {
      assert api.clusters == PassFirst(old(api.clusters), 0, Passes(old(api.clusters), placementOnly, t, cfgs));
    }
  }

  lemma VisitedLength(cs: seq<Cluster>, n: nat, rs: seq<Cluster>, outs: seq<Option<Error>>,
                      cfgs: seq<ContainerConfig>, now: seq<Cluster>, cfg: ContainerConfig, e: Option<Error>)
    requires Visited(cs, n, rs, outs, cfgs, now, cfg, e)
    ensures |now| == |cs|
  { }

  /** Once the first cluster's pass succeeded, the loop went on to the second one. */
  lemma VisitedSecond(cs: seq<Cluster>, n: nat, rs: seq<Cluster>, outs: seq<Option<Error>>,
                      cfgs: seq<ContainerConfig>, now: seq<Cluster>, cfg: ContainerConfig, e: Option<Error>)
    requires Visited(cs, n, rs, outs, cfgs, now, cfg, e) && 2 <= |cs|
    requires outs[0].None? && (e.None? ==> n == |cs|)
    ensures now[1] == rs[1]
  {
    if e.Some? {
      assert n != 1;
    }
  }

  /** What the loop's bookkeeping says about the second cluster once the first pass
      succeeded: it was visited, so its state is its own pass from the grown configuration. */
  lemma SecondClusterAfterLoop(c0: seq<Cluster>, t: Target, cfgs: seq<ContainerConfig>, reached: nat,
                               now: seq<Cluster>, cfg: ContainerConfig, e: Option<Error>)
    requires 2 <= |c0| && Chained(c0, false, t, cfgs) && cfgs[0].name == BigSiblingName
    requires !LookupIn(c0[0], t.dsName).LookupFailed? && !LookupIn(c0[1], t.dsName).LookupFailed?
    requires e.None? ==> reached == |c0|
    requires Visited(c0, reached, Passes(c0, false, t, cfgs), Outcomes(c0, false, t, cfgs), cfgs, now, cfg, e)
    ensures |now| == |c0|
    ensures Outcome(c0[0], false, t, cfgs[0]).None? ==>
              var w := now[1].writes;
              var n := |cfgs[0].binds|;
              && |w| == |c0[1].writes| + 1
              && |w[|w| - 1].ds.template.spec.containers| == 1
              && var mounts := w[|w| - 1].ds.template.spec.containers[0].volumeMounts;
                 && |mounts| == n + 6
                 && mounts[n].mountPath == "/var/log"
                 && mounts[n + 3].mountPath == "/var/log"
  {
    var rs, outs := Passes(c0, false, t, cfgs), Outcomes(c0, false, t, cfgs);
    VisitedLength(c0, reached, rs, outs, cfgs, now, cfg, e);
    if Outcome(c0[0], false, t, cfgs[0]).None? {
      assert outs[0].None?;
      VisitedSecond(c0, reached, rs, outs, cfgs, now, cfg, e);
      assert rs[1] == Pass(c0[1], false, t, cfgs[1]);
      SecondClusterMountsLogTwice(c0, t, cfgs);
    }
  }

  /** `DeployNodeContainer` as written, over clusters whose first two both get a full pass of
      the big-sibling container: when the first pass succeeds, the second cluster's
      DaemonSet mounts `/var/log` twice. */
  method TwoClustersAsWritten(api: KubeApi, config: NodeContainerConfig, t: Target)
    returns (err: Option<Error>)
    requires 2 <= |api.clusters| && config.name == BigSiblingName
    requires !LookupIn(api.clusters[0], t.dsName).LookupFailed?
    requires !LookupIn(api.clusters[1], t.dsName).LookupFailed?
    modifies api, config
    ensures |api.clusters| == |old(api.clusters)|
    ensures Outcome(old(api.clusters)[0], false, t, old(config.Value())).None? ==>
              var w := api.clusters[1].writes;
              var n := |old(config.binds)|;
              && |w| == |old(api.clusters[1].writes)| + 1
              && |w[|w| - 1].ds.template.spec.containers| == 1
              && var mounts := w[|w| - 1].ds.template.spec.containers[0].volumeMounts;
                 && |mounts| == n + 6
                 && mounts[n].mountPath == "/var/log"
                 && mounts[n + 3].mountPath == "/var/log"
  {
    ghost var c0 := api.clusters;
    ghost var reached, cfgs;
    err, reached, cfgs := DeployNodeContainer(api, config, t, false);
    SecondClusterAfterLoop(c0, t, cfgs, reached, api.clusters, config.Value(), err);
  }

  /** One step of the corrected loop, always from the caller's configuration. */
  method NextClusterFixed(api: KubeApi, config: NodeContainerConfig, i: nat, t: Target, placementOnly: bool,
                          ghost c0: seq<Cluster>, ghost cfgs: seq<ContainerConfig>)
    returns (e: Option<Error>)
    requires i < |c0| == |api.clusters| && cfgs == SameConfig(config.Value(), |c0| + 1)
    requires Visited(c0, i, Passes(c0, placementOnly, t, cfgs), Outcomes(c0, placementOnly, t, cfgs), cfgs,
                     api.clusters, config.Value(), None)
    modifies api
    ensures Visited(c0, i + 1, Passes(c0, placementOnly, t, cfgs), Outcomes(c0, placementOnly, t, cfgs), cfgs,
                    api.clusters, config.Value(), e)
  {
    ghost var before := api.clusters;
    assert before[i] == c0[i] && cfgs[i] == config.Value() && cfgs[i + 1] == config.Value();
    e := DeployNodeContainerForClusterFixed(api, i, config, t, placementOnly);
    PassStep(c0, i, Passes(c0, placementOnly, t, cfgs), before, api.clusters);
  }

  /** The corrected visit: the same loop over `DeployNodeContainerForClusterFixed`, so every
      pass is made from the caller's unchanged configuration. */
  method ForEachClusterFixed(api: KubeApi, config: NodeContainerConfig, t: Target, placementOnly: bool)
    returns (e: Option<Error>, ghost reached: nat)
    modifies api
    ensures e == Some(NoCluster) <==> |old(api.clusters)| == 0
    ensures e.None? ==> reached == |old(api.clusters)|
    ensures |old(api.clusters)| == 0 ==> reached == 0 && api.clusters == old(api.clusters)
    ensures 0 < |old(api.clusters)| ==>
              var cfgs := SameConfig(config.Value(), |old(api.clusters)| + 1);
              Visited(old(api.clusters), reached, Passes(old(api.clusters), placementOnly, t, cfgs),
                      Outcomes(old(api.clusters), placementOnly, t, cfgs), cfgs, api.clusters, config.Value(), e)
  {
    ghost var cfg := config.Value();
    ghost var c0 := api.clusters;
    ghost var cfgs := SameConfig(cfg, |c0| + 1);
    ghost var rs, outs := Passes(c0, placementOnly, t, cfgs), Outcomes(c0, placementOnly, t, cfgs);
    if |api.clusters| == 0 {
      return Some(NoCluster), 0;
    }
    e := None;
    var i := 0;
    assert api.clusters == PassFirst(c0, 0, rs);
    while i < |api.clusters| && e.None?
      invariant i <= |c0| == |api.clusters|
      invariant Visited(c0, i, rs, outs, cfgs, api.clusters, cfg, e)
      invariant e != Some(NoCluster)
    {
      e := NextClusterFixed(api, config, i, t, placementOnly, c0, cfgs);
      i := i + 1;
    }
    reached := i;
  }

  /** The corrected `DeployNodeContainer`: every visited cluster gets the pass its own state
      calls for, always from the same configuration, which is left alone. */
  method DeployNodeContainerFixed(api: KubeApi, config: NodeContainerConfig, t: Target, placementOnly: bool)
    returns (err: Option<Error>, ghost reached: nat)
    modifies api
    ensures err.None? ==> reached == |old(api.clusters)|
    ensures var cfgs := SameConfig(config.Value(), |old(api.clusters)| + 1);
            Visited(old(api.clusters), reached, Passes(old(api.clusters), placementOnly, t, cfgs),
                    Outcomes(old(api.clusters), placementOnly, t, cfgs), cfgs, api.clusters, config.Value(), err)
  {
    var e;
    e, reached := ForEachClusterFixed(api, config, t, placementOnly);
    err := NoClusterIsSuccess(e, NoCluster);
    if |old(api.clusters)| == 0 {
      var cfgs := SameConfig(config.Value(), 1);
      assert api.clusters == PassFirst(old(api.clusters), 0, Passes(old(api.clusters), placementOnly, t, cfgs));
    }
  }
}
