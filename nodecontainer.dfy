/**
 The value-level part of tsuru's Kubernetes node-container reconciler
 (provision/kubernetes/nodecontainer.go): the DaemonSet fields the reconciler reads or
 writes, the pool selector and affinity it derives from a pool filter, the annotation that
 carries the serialized affinity, the `KEY=VALUE` and `src:dst[:mode]` parsers, the docker-to-
 Kubernetes restart-policy and security mappings, and the create / update / skip decision.

 Values the reconciler obtains from code outside this model (the DaemonSet name, the node-
 container labels and selector, the pool label key, the image name) are inputs here.
*/
module NodeContainer {
  import opened Options
  import opened GoStrings
  import opened Json
  import opened Seqs

  /** The pod-template annotation the affinity is mirrored into. */
  const AffinityAnnotationKey: string := "scheduler.alpha.kubernetes.io/affinity"
  /** `nodecontainer.BsDefaultName`, the built-in big-sibling node container. */
  const BigSiblingName: string := "big-sibling"
  /** The names docker gives the on-failure and never restart policies. */
  const OnFailureName: string := "on-failure"
  const NeverName: string := "no"
  const AlwaysName: string := "always"
  const RollingUpdateType: string := "RollingUpdate"
  const MaxUnavailable: string := "20%"
  const HostNetworkMode: string := "host"

  /** The host directories every big-sibling container mounts besides its own binds. */
  const BigSiblingBinds: seq<string> := [
    "/var/log:/var/log:rw",
    "/var/lib/docker/containers:/var/lib/docker/containers:ro",
    "/mnt/sda1/var/lib/docker/containers:/mnt/sda1/var/lib/docker/containers:ro"
  ]

  // ---------------------------------------------------------------------------
  // Kubernetes objects, restricted to the fields the reconciler touches
  // ---------------------------------------------------------------------------

  datatype Operator = In | NotIn

  datatype Requirement = Requirement(key: string, operator: Operator, values: seq<string>)

  datatype Term = Term(matchExpressions: seq<Requirement>)

  datatype NodeSelector = NodeSelector(terms: seq<Term>)

  /** `required` is `RequiredDuringSchedulingIgnoredDuringExecution`; `None` is Go's nil. */
  datatype NodeAffinity = NodeAffinity(required: Option<NodeSelector>)

  datatype Affinity = Affinity(nodeAffinity: Option<NodeAffinity>)

  datatype EnvVar = EnvVar(name: string, value: string)

  datatype Volume = Volume(name: string, hostPath: string)

  datatype VolumeMount = VolumeMount(name: string, mountPath: string, readOnly: bool)

  datatype SecurityContext = SecurityContext(privileged: Option<bool>)

  datatype RestartPolicy = Always | OnFailure | Never

  datatype Container = Container(
    name: string,
    image: string,
    command: seq<string>,
    args: seq<string>,
    env: seq<EnvVar>,
    workingDir: string,
    tty: bool,
    volumeMounts: seq<VolumeMount>,
    securityContext: Option<SecurityContext>)

  datatype PodSpec = PodSpec(
    affinity: Option<Affinity>,
    volumes: seq<Volume>,
    restartPolicy: RestartPolicy,
    hostNetwork: bool,
    containers: seq<Container>)

  datatype PodTemplate = PodTemplate(
    labels: map<string, string>,
    annotations: map<string, string>,
    spec: PodSpec)

  datatype UpdateStrategy = UpdateStrategy(strategyType: string, maxUnavailable: string)

  datatype DaemonSet = DaemonSet(
    name: string,
    namespace: string,
    selector: map<string, string>,
    updateStrategy: UpdateStrategy,
    template: PodTemplate)

  // ---------------------------------------------------------------------------
  // Inputs
  // ---------------------------------------------------------------------------

  /** `servicecommon.PoolFilter`: the pools a node container runs on. */
  datatype PoolFilter = PoolFilter(included: seq<string>, excluded: seq<string>)

  /** The node-container configuration (`Config` and `HostConfig`) as a value. */
  datatype ContainerConfig = ContainerConfig(
    name: string,
    image: string,
    entrypoint: seq<string>,
    cmd: seq<string>,
    env: seq<string>,
    workingDir: string,
    tty: bool,
    binds: seq<string>,
    privileged: bool,
    restartPolicyName: string,
    networkMode: string)

  /** Where a DaemonSet goes: its name, the pool label key, the pool filter and the labels
      computed for the node container (all produced by code outside this model). */
  datatype Target = Target(
    dsName: string,
    poolLabel: string,
    filter: PoolFilter,
    labels: map<string, string>,
    selector: map<string, string>)

  // ---------------------------------------------------------------------------
  // Pool selection
  // ---------------------------------------------------------------------------

  /** The node-selector requirement on the pool label: exclusion wins over inclusion. */
  function SelectorRequirement(poolLabel: string, filter: PoolFilter): Requirement
  {
    if |filter.excluded| > 0 then Requirement(poolLabel, NotIn, filter.excluded)
    else Requirement(poolLabel, In, filter.included)
  }

  function AffinityFor(r: Requirement): Affinity
  {
    Affinity(Some(NodeAffinity(Some(NodeSelector([Term([r])])))))
  }

  /** The two fields a placement-only pass manages. */
  datatype Placement = Placement(annotations: map<string, string>, affinity: Option<Affinity>)

  /** The annotations and affinity derived from a pool filter: none at all when the selector
      has no values, otherwise the affinity and one annotation holding its encoding. */
  function PlacementFor(poolLabel: string, filter: PoolFilter): (p: Placement)
    ensures p.affinity.Some? <==> |SelectorRequirement(poolLabel, filter).values| != 0
    ensures p.affinity.Some? ==>
              p.affinity.value == AffinityFor(SelectorRequirement(poolLabel, filter))
              && p.annotations.Keys == {AffinityAnnotationKey}
              && p.annotations[AffinityAnnotationKey] == Marshal(p.affinity.value)
    ensures p.affinity.None? ==> p.annotations == map[]
  {
    var req := SelectorRequirement(poolLabel, filter);
    if |req.values| != 0 then
      var aff := AffinityFor(req);
      Placement(map[AffinityAnnotationKey := Marshal(aff)], Some(aff))
    else
      Placement(map[], None)
  }

  /** Kubernetes' reading of one requirement against a node's labels. */
  predicate RequirementAdmits(r: Requirement, labels: map<string, string>)
  {
    match r.operator
    case In => r.key in labels && labels[r.key] in r.values
    case NotIn => r.key !in labels || labels[r.key] !in r.values
  }

  /** A term admits a node when all its requirements do. */
  predicate TermAdmits(t: Term, labels: map<string, string>)
  {
    forall i :: 0 <= i < |t.matchExpressions| ==> RequirementAdmits(t.matchExpressions[i], labels)
  }

  /** Required node affinity admits a node when one of its terms does; missing affinity
      admits every node. */
  predicate AffinityAdmits(a: Option<Affinity>, labels: map<string, string>)
  {
    if a.None? || a.value.nodeAffinity.None? || a.value.nodeAffinity.value.required.None? then true
    else
      var terms := a.value.nodeAffinity.value.required.value.terms;
      exists i :: 0 <= i < |terms| && TermAdmits(terms[i], labels)
  }

  /** What a pool filter means for a node in `pool` (`None`: the node has no pool label):
      a non-empty exclusion list keeps every pool but those, else a non-empty inclusion
      list keeps only those, else every node is kept. */
  predicate FilterAdmits(f: PoolFilter, pool: Option<string>)
  {
    if |f.excluded| > 0 then pool.None? || pool.value !in f.excluded
    else if |f.included| > 0 then pool.Some? && pool.value in f.included
    else true
  }

  function PoolOf(poolLabel: string, labels: map<string, string>): Option<string>
  {
    if poolLabel in labels then Some(labels[poolLabel]) else None
  }

  /** The derived affinity lets the scheduler place the container on exactly the nodes
      whose pool the filter keeps. */
  lemma PlacementAdmitsFilteredPools(poolLabel: string, filter: PoolFilter, labels: map<string, string>)
    ensures AffinityAdmits(PlacementFor(poolLabel, filter).affinity, labels)
        <==> FilterAdmits(filter, PoolOf(poolLabel, labels))
  {
    var req := SelectorRequirement(poolLabel, filter);
    var p := PlacementFor(poolLabel, filter);
    if p.affinity.Some? {
      var t := Term([req]);
      assert TermAdmits(t, labels) <==> RequirementAdmits(req, labels) by {
        assert t.matchExpressions[0] == req;
      }
      assert p.affinity.value.nodeAffinity.value.required.value.terms[0] == t;
    }
  }

  // ---------------------------------------------------------------------------
  // The affinity as JSON (the field names and omissions of the Kubernetes types)
  // ---------------------------------------------------------------------------

  function OperatorName(o: Operator): string
  {
    match o
    case In => "In"
    case NotIn => "NotIn"
  }

  function StringsJson(vs: seq<string>): seq<Json>
  {
    seq(|vs|, i requires 0 <= i < |vs| => JStr(vs[i]))
  }

  /** `values` is omitted when empty. */
  function RequirementJson(r: Requirement): Json
  {
    JObj([Field("key", JStr(r.key)), Field("operator", JStr(OperatorName(r.operator)))]
         + (if r.values == [] then [] else [Field("values", JArr(StringsJson(r.values)))]))
  }

  function TermJson(t: Term): Json
  {
    var rs := t.matchExpressions;
    JObj([Field("matchExpressions", JArr(seq(|rs|, i requires 0 <= i < |rs| => RequirementJson(rs[i]))))])
  }

  function NodeSelectorJson(s: NodeSelector): Json
  {
    JObj([Field("nodeSelectorTerms", JArr(seq(|s.terms|, i requires 0 <= i < |s.terms| => TermJson(s.terms[i]))))])
  }

  /** A nil field is omitted. */
  function NodeAffinityJson(n: NodeAffinity): Json
  {
    JObj(if n.required.None? then []
         else [Field("requiredDuringSchedulingIgnoredDuringExecution", NodeSelectorJson(n.required.value))])
  }

  function AffinityJson(a: Affinity): Json
  {
    JObj(if a.nodeAffinity.None? then [] else [Field("nodeAffinity", NodeAffinityJson(a.nodeAffinity.value))])
  }

  /** `json.Marshal` of an affinity. */
  function Marshal(a: Affinity): string
  {
    Ser(AffinityJson(a))
  }

  // Reading the JSON back: each function undoes the matching one above.

  function StringOf(j: Json): string { if j.JStr? then j.s else "" }

  function ItemsOf(j: Json): seq<Json> { if j.JArr? then j.items else [] }

  function FieldsOf(j: Json): seq<Field> { if j.JObj? then j.fields else [] }

  function OperatorOf(s: string): Operator { if s == "NotIn" then NotIn else In }

  function StringsOf(js: seq<Json>): seq<string>
  {
    seq(|js|, i requires 0 <= i < |js| => StringOf(js[i]))
  }

  function RequirementOf(j: Json): Requirement
  {
    var fs := FieldsOf(j);
    if |fs| < 2 then Requirement("", In, [])
    else
      Requirement(StringOf(fs[0].value), OperatorOf(StringOf(fs[1].value)),
                  if |fs| < 3 then [] else StringsOf(ItemsOf(fs[2].value)))
  }

  function TermOf(j: Json): Term
  {
    var fs := FieldsOf(j);
    if fs == [] then Term([])
    else
      var items := ItemsOf(fs[0].value);
      Term(seq(|items|, i requires 0 <= i < |items| => RequirementOf(items[i])))
  }

  function NodeSelectorOf(j: Json): NodeSelector
  {
    var fs := FieldsOf(j);
    if fs == [] then NodeSelector([])
    else
      var items := ItemsOf(fs[0].value);
      NodeSelector(seq(|items|, i requires 0 <= i < |items| => TermOf(items[i])))
  }

  function NodeAffinityOf(j: Json): NodeAffinity
  {
    var fs := FieldsOf(j);
    if fs == [] then NodeAffinity(None) else NodeAffinity(Some(NodeSelectorOf(fs[0].value)))
  }

  function AffinityOf(j: Json): Affinity
  {
    var fs := FieldsOf(j);
    if fs == [] then Affinity(None) else Affinity(Some(NodeAffinityOf(fs[0].value)))
  }

  lemma RequirementRoundTrip(r: Requirement)
    ensures RequirementOf(RequirementJson(r)) == r
  {
    if r.values != [] {
      assert StringsOf(StringsJson(r.values)) == r.values;
    }
  }

  lemma TermRoundTrip(t: Term)
    ensures TermOf(TermJson(t)) == t
  {
    var rs := t.matchExpressions;
    var items := seq(|rs|, i requires 0 <= i < |rs| => RequirementJson(rs[i]));
    forall i | 0 <= i < |rs|
      ensures RequirementOf(items[i]) == rs[i]
    {
      RequirementRoundTrip(rs[i]);
    }
  }

  lemma NodeSelectorRoundTrip(s: NodeSelector)
    ensures NodeSelectorOf(NodeSelectorJson(s)) == s
  {
    var items := seq(|s.terms|, i requires 0 <= i < |s.terms| => TermJson(s.terms[i]));
    forall i | 0 <= i < |s.terms|
      ensures TermOf(items[i]) == s.terms[i]
    {
      TermRoundTrip(s.terms[i]);
    }
  }

  /** Decoding the encoding of an affinity gives it back. */
  lemma AffinityRoundTrip(a: Affinity)
    ensures AffinityOf(AffinityJson(a)) == a
  {
    if a.nodeAffinity.Some? && a.nodeAffinity.value.required.Some? {
      NodeSelectorRoundTrip(a.nodeAffinity.value.required.value);
    }
  }

  /** Different affinities serialize differently. */
  lemma MarshalInjective(a: Affinity, b: Affinity)
    requires Marshal(a) == Marshal(b)
    ensures a == b
  {
    SerInjective(AffinityJson(a), AffinityJson(b));
    AffinityRoundTrip(a);
    AffinityRoundTrip(b);
  }

  /** The annotation alone determines the placement: two filters whose annotations agree
      yield the same affinity. */
  lemma AnnotationDeterminesPlacement(l1: string, f1: PoolFilter, l2: string, f2: PoolFilter)
    requires PlacementFor(l1, f1).annotations == PlacementFor(l2, f2).annotations
    ensures PlacementFor(l1, f1) == PlacementFor(l2, f2)
  {
    var p1, p2 := PlacementFor(l1, f1), PlacementFor(l2, f2);
    if p1.affinity.Some? && p2.affinity.Some? {
      MarshalInjective(p1.affinity.value, p2.affinity.value);
    }
  }

  // ---------------------------------------------------------------------------
  // Environment variables: `KEY=VALUE`
  // ---------------------------------------------------------------------------

  /** One entry split at its first `=`. */
  function ParseEnvVar(v: string): EnvVar
  {
    var parts := SplitN(v, '=', 2);
    EnvVar(parts[0], if |parts| > 1 then parts[1] else "")
  }

  /** The name is everything before the first `=` and the value everything after it; an
      entry without `=` is all name, with an empty value. */
  lemma ParseEnvVarShape(v: string)
    ensures '=' !in ParseEnvVar(v).name
    ensures '=' !in v ==> ParseEnvVar(v) == EnvVar(v, "")
    ensures '=' in v ==> v == ParseEnvVar(v).name + "=" + ParseEnvVar(v).value
  {
    SplitTwo(v, '=');
  }

  function FormatEnvVar(e: EnvVar): string
  {
    e.name + "=" + e.value
  }

  /** Parsing undoes formatting whenever the name has no `=`: the value may hold any. */
  lemma EnvVarRoundTrip(e: EnvVar)
    requires '=' !in e.name
    ensures ParseEnvVar(FormatEnvVar(e)) == e
  {
    var v := FormatEnvVar(e);
    var d := ParseEnvVar(v);
    ParseEnvVarShape(v);
    assert v[|e.name|] == '=';
    FirstSeparatorUnique(d.name, d.value, e.name, e.value, '=');
  }

  /** The environment of the container, entry by entry. */
  function EnvVars(env: seq<string>): seq<EnvVar>
  {
    seq(|env|, i requires 0 <= i < |env| => ParseEnvVar(env[i]))
  }

  // ---------------------------------------------------------------------------
  // Binds: `src:dst[:mode]`
  // ---------------------------------------------------------------------------

  /** `fmt.Sprintf("volume-%d", i)` */
  function VolumeName(i: nat): string
  {
    "volume-" + Itoa(i)
  }

  lemma VolumeNameInjective(i: nat, j: nat)
    requires VolumeName(i) == VolumeName(j)
    ensures i == j
  {
    assert Itoa(i) == VolumeName(i)[7..];
    assert Itoa(j) == VolumeName(j)[7..];
    ItoaInjective(i, j);
  }

  datatype BindMount = BindMount(volume: Volume, mount: VolumeMount)

  /** Bind number `i`: a host-path volume named `volume-i` and its mount. */
  function ParseBind(i: nat, b: string): BindMount
  {
    var parts := SplitN(b, ':', 3);
    var name := VolumeName(i);
    BindMount(Volume(name, parts[0]),
              VolumeMount(name, if |parts| > 1 then parts[1] else "",
                          if |parts| > 2 then parts[2] == "ro" else false))
  }

  /** `src`: the whole string is the host path; nothing is mounted read-only. */
  lemma ParseBindSource(i: nat, src: string)
    requires ':' !in src
    ensures ParseBind(i, src) == BindMount(Volume(VolumeName(i), src), VolumeMount(VolumeName(i), "", false))
  {
    SplitNWithout(src, ':', 3);
  }

  /** `src:dst`: a writable mount of `src` at `dst`. */
  lemma ParseBindPair(i: nat, src: string, dst: string)
    requires ':' !in src && ':' !in dst
    ensures ParseBind(i, src + ":" + dst)
         == BindMount(Volume(VolumeName(i), src), VolumeMount(VolumeName(i), dst, false))
  {
    SplitNAfter(src, ':', dst, 3);
    SplitNWithout(dst, ':', 2);
  }

  /** `src:dst:mode`: read-only exactly when the mode (everything after the second colon)
      is `ro`. */
  lemma ParseBindMode(i: nat, src: string, dst: string, mode: string)
    requires ':' !in src && ':' !in dst
    ensures ParseBind(i, src + ":" + dst + ":" + mode)
         == BindMount(Volume(VolumeName(i), src), VolumeMount(VolumeName(i), dst, mode == "ro"))
  {
    assert src + ":" + dst + ":" + mode == src + [':'] + (dst + [':'] + mode);
    SplitNAfter(src, ':', dst + [':'] + mode, 3);
    SplitNAfter(dst, ':', mode, 2);
  }

  /** `b` is `src`, `src:dst` or `src:dst:mode` for the parsed host path `src` and mount
      path `dst`, neither holding a colon, with read-only meaning a mode of `ro`. */
  ghost predicate BindShaped(b: string, bm: BindMount)
  {
    var src, dst := bm.volume.hostPath, bm.mount.mountPath;
    && ':' !in src && ':' !in dst
    && (|| (b == src && dst == "" && !bm.mount.readOnly)
        || (b == src + ":" + dst && !bm.mount.readOnly)
        || (exists mode :: b == src + ":" + dst + ":" + mode && bm.mount.readOnly == (mode == "ro")))
  }

  /** Every bind string has one of the three shapes above. */
  lemma ParseBindShape(i: nat, b: string)
    ensures BindShaped(b, ParseBind(i, b))
  {
    var parts := SplitN(b, ':', 3);
    SplitNJoin(b, ':', 3);
    if |parts| > 1 {
      SplitNPieces(b, ':', 3, 0);
    }
    if |parts| > 2 {
      SplitNPieces(b, ':', 3, 1);
      assert Join(parts, ':') == parts[0] + [':'] + (parts[1] + [':'] + parts[2]);
      assert b == parts[0] + ":" + parts[1] + ":" + parts[2];
    } else if |parts| == 2 {
      assert Join(parts, ':') == parts[0] + [':'] + parts[1];
    } else {
      SplitNWithoutConverse(b, parts);
    }
  }

  lemma SplitNWithoutConverse(b: string, parts: seq<string>)
    requires parts == SplitN(b, ':', 3) && |parts| == 1
    ensures ':' !in parts[0]
  {
  }

  /** The volumes of the DaemonSet, bind by bind. */
  function Volumes(binds: seq<string>): seq<Volume>
  {
    seq(|binds|, i requires 0 <= i < |binds| => ParseBind(i, binds[i]).volume)
  }

  /** The container's mounts, bind by bind. */
  function Mounts(binds: seq<string>): seq<VolumeMount>
  {
    seq(|binds|, i requires 0 <= i < |binds| => ParseBind(i, binds[i]).mount)
  }

  /** Parsing one more bind extends the volumes and the mounts by its own. */
  lemma VolumesStep(binds: seq<string>, i: nat)
    requires i < |binds|
    ensures Volumes(binds)[..i + 1] == Volumes(binds)[..i] + [ParseBind(i, binds[i]).volume]
    ensures Mounts(binds)[..i + 1] == Mounts(binds)[..i] + [ParseBind(i, binds[i]).mount]
  {
    TakeOneMore(Volumes(binds), i);
    TakeOneMore(Mounts(binds), i);
  }

  /** Volumes have distinct names, and the mount at each position names the volume there. */
  lemma VolumesPaired(binds: seq<string>)
    ensures |Volumes(binds)| == |Mounts(binds)| == |binds|
    ensures forall i :: 0 <= i < |binds| ==> Mounts(binds)[i].name == Volumes(binds)[i].name
    ensures forall i, j :: 0 <= i < j < |binds| ==> Volumes(binds)[i].name != Volumes(binds)[j].name
  {
    forall i, j | 0 <= i < j < |binds|
      ensures Volumes(binds)[i].name != Volumes(binds)[j].name
    {
      if VolumeName(i) == VolumeName(j) {
        VolumeNameInjective(i, j);
      }
    }
  }

  /** The binds a container is deployed with: the big-sibling container gets its extra host
      directories after the configured ones. */
  function BindsFor(name: string, binds: seq<string>): seq<string>
  {
    if name == BigSiblingName then binds + BigSiblingBinds else binds
  }

  /** The first extra bind mounts `/var/log` writable. */
  lemma LogBindParsed(i: nat)
    ensures ParseBind(i, BigSiblingBinds[0]).mount == VolumeMount(VolumeName(i), "/var/log", false)
  {
    assert BigSiblingBinds[0] == "/var/log" + ":" + "/var/log" + ":" + "rw";
    ParseBindMode(i, "/var/log", "/var/log", "rw");
  }

  /** When the extra binds are added to a bind list that already holds them, `/var/log` is
      mounted twice, at two different volumes: the Pod is rejected by Kubernetes, whose
      mount paths must be unique within a container. */
  lemma RepeatedBigSiblingBindsDuplicateMount(binds: seq<string>)
    ensures var twice := BindsFor(BigSiblingName, BindsFor(BigSiblingName, binds));
            var n := |binds|;
            |twice| == n + 6
            && Mounts(twice)[n].mountPath == "/var/log"
            && Mounts(twice)[n + 3].mountPath == "/var/log"
  {
    var twice := BindsFor(BigSiblingName, BindsFor(BigSiblingName, binds));
    var n := |binds|;
    assert twice == binds + BigSiblingBinds + BigSiblingBinds;
    assert twice[n] == BigSiblingBinds[0];
    assert twice[n + 3] == BigSiblingBinds[0];
    LogBindParsed(n);
    LogBindParsed(n + 3);
  }

  // ---------------------------------------------------------------------------
  // Restart policy, privileges, host network
  // ---------------------------------------------------------------------------

  /** The docker restart-policy name mapped to Kubernetes; unknown names mean Always. */
  function RestartPolicyFor(name: string): RestartPolicy
  {
    if name == OnFailureName then OnFailure
    else if name == NeverName then Never
    else Always
  }

  /** The docker name of each Kubernetes policy. */
  function DockerRestartName(p: RestartPolicy): string
  {
    match p
    case Always => AlwaysName
    case OnFailure => OnFailureName
    case Never => NeverName
  }

  lemma RestartPolicyMapping(name: string)
    ensures RestartPolicyFor(name) == OnFailure <==> name == OnFailureName
    ensures RestartPolicyFor(name) == Never <==> name == NeverName
    ensures RestartPolicyFor(name) == Always <==> name != OnFailureName && name != NeverName
    ensures RestartPolicyFor(DockerRestartName(RestartPolicyFor(name))) == RestartPolicyFor(name)
  {
  }

  /** A security context only for privileged containers, and then with Privileged set. */
  function SecurityContextFor(privileged: bool): (c: Option<SecurityContext>)
    ensures c.Some? <==> privileged
    ensures c.Some? ==> c.value.privileged == Some(true)
  {
    if privileged then Some(SecurityContext(Some(true))) else None
  }

  // ---------------------------------------------------------------------------
  // The DaemonSet
  // ---------------------------------------------------------------------------

  /** The DaemonSet assembled from already parsed environment, volumes and mounts. */
  function AssembleDaemonSet(t: Target, namespace: string, cfg: ContainerConfig, env: seq<EnvVar>,
                             volumes: seq<Volume>, mounts: seq<VolumeMount>): DaemonSet
  {
    var p := PlacementFor(t.poolLabel, t.filter);
    DaemonSet(
      t.dsName, namespace, t.selector,
      UpdateStrategy(RollingUpdateType, MaxUnavailable),
      PodTemplate(
        t.labels, p.annotations,
        PodSpec(p.affinity, volumes, RestartPolicyFor(cfg.restartPolicyName),
                cfg.networkMode == HostNetworkMode,
                [Container(cfg.name, cfg.image, cfg.entrypoint, cfg.cmd, env, cfg.workingDir,
                           cfg.tty, mounts, SecurityContextFor(cfg.privileged))])))
  }

  /** The full DaemonSet a non-placement pass writes. */
  function FullDaemonSet(t: Target, namespace: string, cfg: ContainerConfig): (ds: DaemonSet)
    ensures PlacementOf(ds) == PlacementFor(t.poolLabel, t.filter)
    ensures |ds.template.spec.containers| == 1
    ensures ds.template.spec.containers[0].env == EnvVars(cfg.env)
    ensures ds.template.spec.volumes == Volumes(BindsFor(cfg.name, cfg.binds))
    ensures ds.template.spec.containers[0].volumeMounts == Mounts(BindsFor(cfg.name, cfg.binds))
  {
    var binds := BindsFor(cfg.name, cfg.binds);
    AssembleDaemonSet(t, namespace, cfg, EnvVars(cfg.env), Volumes(binds), Mounts(binds))
  }

  /** The rest of the full DaemonSet: named and labelled from the target, rolled out at most
      a fifth of the nodes at a time, and running one container made from `cfg`. */
  lemma FullDaemonSetFields(t: Target, namespace: string, cfg: ContainerConfig)
    ensures var ds := FullDaemonSet(t, namespace, cfg);
            && ds.name == t.dsName && ds.namespace == namespace
            && ds.selector == t.selector && ds.template.labels == t.labels
            && ds.updateStrategy == UpdateStrategy("RollingUpdate", "20%")
            && (cfg.restartPolicyName == "on-failure" ==> ds.template.spec.restartPolicy == OnFailure)
            && (cfg.restartPolicyName == "no" ==> ds.template.spec.restartPolicy == Never)
            && (cfg.restartPolicyName !in {"on-failure", "no"} ==> ds.template.spec.restartPolicy == Always)
            && (ds.template.spec.hostNetwork <==> cfg.networkMode == "host")
            && var c := ds.template.spec.containers[0];
               && c.name == cfg.name && c.image == cfg.image
               && c.command == cfg.entrypoint && c.args == cfg.cmd
               && c.workingDir == cfg.workingDir && c.tty == cfg.tty
               && (c.securityContext.Some? <==> cfg.privileged)
               && (cfg.privileged ==> c.securityContext.value.privileged == Some(true))
  {
  }

  function PlacementOf(ds: DaemonSet): Placement
  {
    Placement(ds.template.annotations, ds.template.spec.affinity)
  }

  /** The DaemonSet with its template annotations and affinity replaced. */
  function WithPlacement(ds: DaemonSet, p: Placement): DaemonSet
  {
    ds.(template := ds.template.(annotations := p.annotations,
                                  spec := ds.template.spec.(affinity := p.affinity)))
  }

  /** Replacing the placement sets it, and changes nothing else: putting the old placement
      back restores the object. */
  lemma WithPlacementOnlyPlacement(ds: DaemonSet, p: Placement)
    ensures PlacementOf(WithPlacement(ds, p)) == p
    ensures WithPlacement(WithPlacement(ds, p), PlacementOf(ds)) == ds
    ensures WithPlacement(ds, PlacementOf(ds)) == ds
  {
  }

  // ---------------------------------------------------------------------------
  // What one pass over a cluster does
  // ---------------------------------------------------------------------------

  /** The result of reading the existing DaemonSet. */
  datatype Lookup = Found(ds: DaemonSet) | NotFound | LookupFailed

  /** The write a pass issues, if any; `Abort` stops the pass with the read error. */
  datatype Action = Abort | Skip | UpdateWith(ds: DaemonSet) | CreateWith(ds: DaemonSet)

  /** Whether the pass goes beyond placement and builds a whole DaemonSet. */
  predicate BuildsFull(l: Lookup, placementOnly: bool)
  {
    l.NotFound? || (l.Found? && !placementOnly)
  }

  function Decide(l: Lookup, placementOnly: bool, t: Target, namespace: string, cfg: ContainerConfig): (a: Action)
    ensures a.Abort? <==> l.LookupFailed?
    ensures a.CreateWith? <==> l.NotFound?
    ensures BuildsFull(l, placementOnly) ==>
              (a.UpdateWith? || a.CreateWith?) && a.ds == FullDaemonSet(t, namespace, cfg)
    ensures l.Found? && placementOnly ==>
              (a.Skip? <==> PlacementOf(l.ds) == PlacementFor(t.poolLabel, t.filter))
    ensures l.Found? && placementOnly && !a.Skip? ==>
              a == UpdateWith(WithPlacement(l.ds, PlacementFor(t.poolLabel, t.filter)))
  {
    match l
    case LookupFailed => Abort
    case Found(current) =>
      if placementOnly then
        var p := PlacementFor(t.poolLabel, t.filter);
        if PlacementOf(current) == p then Skip else UpdateWith(WithPlacement(current, p))
      else UpdateWith(FullDaemonSet(t, namespace, cfg))
    case NotFound => CreateWith(FullDaemonSet(t, namespace, cfg))
  }

  /** A placement-only pass over what a previous pass wrote issues no further write: over
      a full DaemonSet built for the same filter, or over the object it just updated. */
  lemma PlacementConverges(l: Lookup, placementOnly: bool, t: Target, namespace: string, cfg: ContainerConfig)
    requires !l.LookupFailed?
    ensures var a := Decide(l, placementOnly, t, namespace, cfg);
            (a.UpdateWith? || a.CreateWith?) ==>
              Decide(Found(a.ds), true, t, namespace, cfg) == Skip
  {
    var a := Decide(l, placementOnly, t, namespace, cfg);
    var p := PlacementFor(t.poolLabel, t.filter);
    if a.UpdateWith? && l.Found? && placementOnly {
      WithPlacementOnlyPlacement(l.ds, p);
    }
  }

  /** A placement-only update rewrites exactly the two placement fields of the object read. */
  lemma PlacementUpdateKeepsTheRest(current: DaemonSet, t: Target, namespace: string, cfg: ContainerConfig)
    requires Decide(Found(current), true, t, namespace, cfg).UpdateWith?
    ensures var ds := Decide(Found(current), true, t, namespace, cfg).ds;
            PlacementOf(ds) == PlacementFor(t.poolLabel, t.filter) != PlacementOf(current)
            && WithPlacement(ds, PlacementOf(current)) == current
  {
    WithPlacementOnlyPlacement(current, PlacementFor(t.poolLabel, t.filter));
  }

  /** `DeployNodeContainer` turns "no cluster" into success and passes anything else on. */
  function NoClusterIsSuccess<E(==)>(err: Option<E>, noCluster: E): (r: Option<E>)
    ensures r.None? <==> err.None? || err == Some(noCluster)
    ensures err != Some(noCluster) ==> r == err
  {
    if err == Some(noCluster) then None else err
  }
}
