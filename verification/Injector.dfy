/** The webhook that adds the runtime sidecar to a pod, editing the decoded pod in place. */
module Injector {
  import opened Types
  import opened Selector

  datatype VolumeMount = VolumeMount(name: string, mountPath: string)

  datatype VolumeSource =
    EmptyDir | HostPathDirectory(path: string) | DownwardAnnotations | OtherSource(text: string)

  datatype Volume = Volume(name: string, source: VolumeSource)

  datatype EnvVar = Value(name: string, value: string) | FieldRef(name: string, fieldPath: string)

  datatype Container =
    Container(name: string, image: string, args: seq<string>, mounts: seq<VolumeMount>, env: seq<EnvVar>)

  datatype AffinityTerm = AffinityTerm(weight: int, matchLabels: map<string, string>, topologyKey: string)

  datatype PodAffinity = PodAffinity(required: seq<AffinityTerm>, preferred: seq<AffinityTerm>)

  /** The node and anti affinities are carried along as text. */
  datatype Affinity = Affinity(podAffinity: Option<PodAffinity>, others: string)

  datatype PodTemplate =
    PodTemplate(name: string, namespace: string, labels: map<string, string>, annotations: map<string, string>,
                initContainers: seq<Container>, containers: seq<Container>, volumes: seq<Volume>,
                affinity: Option<Affinity>)

  datatype Config =
    Config(runtimeImage: string, hostPath: string, dataPathPrefix: string, enableAffinity: bool, runtimeServerPort: nat)

  const SIDECAR_CONTAINER_NAME := "kuda-runtime"

  const AFFINITY_TOPOLOGY_KEY := "kubernetes.io/hostname"

  const VOLUME_NAME_SHARE_DATA := "share-data"

  const VOLUME_NAME_HOST_DATA := "host-data"

  const VOLUME_NAME_POD_DATA := "pod-data"

  // ---------- What injection makes of a pod ----------

  function Sidecar(cfg: Config, mainContainer: string): Container {
    Container(SIDECAR_CONTAINER_NAME, cfg.runtimeImage,
              ["--download-root-dir=" + cfg.hostPath, "--local-root-dir=" + cfg.dataPathPrefix,
               "--notice-server-port=" + Decimal(cfg.runtimeServerPort)],
              [VolumeMount(VOLUME_NAME_POD_DATA, "/etc/podinfo")],
              [FieldRef("KUDA_DATASET_NAME", "metadata.annotations['kuda.io/dataset']"),
               FieldRef("KUDA_DATASET_NAMESPACE", "metadata.namespace"), FieldRef("MY_POD_NAME", "metadata.name"),
               Value("MAIN_CONTAINER_NAME", mainContainer)])
  }

  function InjectedVolumes(cfg: Config): seq<Volume> {
    [Volume(VOLUME_NAME_SHARE_DATA, EmptyDir), Volume(VOLUME_NAME_HOST_DATA, HostPathDirectory(cfg.hostPath)),
     Volume(VOLUME_NAME_POD_DATA, DownwardAnnotations)]
  }

  function InjectedMounts(cfg: Config): seq<VolumeMount> {
    [VolumeMount(VOLUME_NAME_SHARE_DATA, cfg.dataPathPrefix), VolumeMount(VOLUME_NAME_HOST_DATA, cfg.hostPath)]
  }

  function Mounting(cfg: Config, c: Container): Container {
    c.(mounts := c.mounts + InjectedMounts(cfg))
  }

  function MountingAll(cfg: Config, cs: seq<Container>): seq<Container> {
    seq(|cs|, i requires 0 <= i < |cs| => Mounting(cfg, cs[i]))
  }

  function Preferring(cfg: Config, affinity: Option<Affinity>, selector: map<string, string>): Option<Affinity> {
    if !cfg.enableAffinity then affinity
    else
      var a := if affinity.Some? then affinity.value else Affinity(None, "");
      var pa := if a.podAffinity.Some? then a.podAffinity.value else PodAffinity([], []);
      Some(a.(podAffinity :=
                Some(pa.(preferred := pa.preferred + [AffinityTerm(1, selector, AFFINITY_TOPOLOGY_KEY)]))))
  }

  function Mutated(cfg: Config, p: PodTemplate, ds: DataSet): PodTemplate
    requires p.containers != []
  {
    p.(containers := MountingAll(cfg, p.containers + [Sidecar(cfg, p.containers[0].name)]),
       volumes := p.volumes + InjectedVolumes(cfg),
       affinity := Preferring(cfg, p.affinity, ds.selector),
       annotations := p.annotations[KUDA_KEY_DATASET := ds.name])
  }

  // ---------- The injector ----------

  class PodObject {
    var name: string
    var namespace: string
    var labels: map<string, string>
    var annotations: map<string, string>
    var initContainers: seq<Container>
    var containers: seq<Container>
    var volumes: seq<Volume>
    var affinity: Option<Affinity>

    function Value(): PodTemplate
      reads this
    {
      PodTemplate(name, namespace, labels, annotations, initContainers, containers, volumes, affinity)
    }
  }

  /** Panicked: the first container of a pod without containers is asked for. */
  datatype Response = Patched | Errored(code: int) | Panicked

  function Admitted(cfg: Config, p: PodTemplate, listing: Option<seq<DataSet>>): (Response, PodTemplate) {
    if KUDA_KEY_DATASET in p.annotations then (Patched, p)
    else if listing.None? then (Errored(500), p)
    else
      var ds := FirstSelecting(p.labels, listing.value);
      if ds.None? then (Patched, p)
      else if p.containers == [] then (Panicked, p)
      else (Patched, Mutated(cfg, p, ds.value))
  }

  class PodInjector {
    const config: Config

    constructor (config: Config)
      ensures this.config == config
    {
      this.config := config;
    }

    method PatchSidecar(pod: PodObject)
      requires pod.containers != []
      modifies pod`containers
      ensures pod.containers == old(pod.containers) + [Sidecar(config, old(pod.containers)[0].name)]
    {
      var sidecar := Sidecar(config, pod.containers[0].name);
      pod.containers := pod.containers + [sidecar];
    }

    method PatchVolumes(pod: PodObject)
      modifies pod`volumes, pod`containers
      ensures pod.volumes == old(pod.volumes) + InjectedVolumes(config)
      ensures pod.containers == MountingAll(config, old(pod.containers))
    {
      pod.volumes := pod.volumes + InjectedVolumes(config);

      for i := 0 to |pod.containers|
        invariant pod.volumes == old(pod.volumes) + InjectedVolumes(config)
        invariant |pod.containers| == |old(pod.containers)|
        invariant forall k :: 0 <= k < i ==> pod.containers[k] == Mounting(config, old(pod.containers)[k])
        invariant forall k :: i <= k < |pod.containers| ==> pod.containers[k] == old(pod.containers)[k]
      {
        var c := pod.containers[i];
        pod.containers := pod.containers[i := c.(mounts := c.mounts + InjectedMounts(config))];
      }
    }

    method PatchAffinity(pod: PodObject, workloadSelector: map<string, string>)
      modifies pod`affinity
      ensures pod.affinity == Preferring(config, old(pod.affinity), workloadSelector)
    {
      if !config.enableAffinity { return; }
      var wpat := AffinityTerm(1, workloadSelector, AFFINITY_TOPOLOGY_KEY);
      if pod.affinity == None {
        pod.affinity := Some(Affinity(None, ""));
      }
      if pod.affinity.value.podAffinity == None {
        pod.affinity := Some(pod.affinity.value.(podAffinity := Some(PodAffinity([], []))));
      }
      var pa := pod.affinity.value.podAffinity.value;
      pod.affinity := Some(pod.affinity.value.(podAffinity := Some(pa.(preferred := pa.preferred + [wpat]))));
    }

    method PatchAnnotations(pod: PodObject, datasetName: string)
      modifies pod`annotations
      ensures pod.annotations == old(pod.annotations)[KUDA_KEY_DATASET := datasetName]
    {
      pod.annotations := pod.annotations[KUDA_KEY_DATASET := datasetName];
    }

    method MutatePod(pod: PodObject, dataset: DataSet)
      requires pod.containers != []
      modifies pod
      ensures pod.Value() == Mutated(config, old(pod.Value()), dataset)
    {
      PatchSidecar(pod);
      PatchVolumes(pod);
      PatchAffinity(pod, dataset.selector);
      PatchAnnotations(pod, dataset.name);
    }

    /** The decision; None stands for a failed list call. */
    method Handle(pod: PodObject, listing: Option<seq<DataSet>>) returns (response: Response)
      modifies pod
      ensures (response, pod.Value()) == Admitted(config, old(pod.Value()), listing)
    {
      if KUDA_KEY_DATASET !in pod.annotations {
        if listing == None { return Errored(500); }
        var ds := FindDataSetForPod(pod.labels, listing.value);
        if ds != None {
          if pod.containers == [] { return Panicked; }
          MutatePod(pod, ds.value);
        }
      }
      response := Patched;
    }
  }

  // ---------- References ----------

  predicate UniqueVolumes(volumes: seq<Volume>) {
    forall i, j :: 0 <= i < j < |volumes| ==> volumes[i].name != volumes[j].name
  }

  predicate Reserved(name: string) {
    name == VOLUME_NAME_SHARE_DATA || name == VOLUME_NAME_HOST_DATA || name == VOLUME_NAME_POD_DATA
  }

  predicate Resolves(m: VolumeMount, volumes: seq<Volume>) {
    exists i :: 0 <= i < |volumes| && volumes[i].name == m.name
  }

  predicate MountsResolve(cs: seq<Container>, volumes: seq<Volume>) {
    forall i, j :: 0 <= i < |cs| && 0 <= j < |cs[i].mounts| ==> Resolves(cs[i].mounts[j], volumes)
  }

  /** Every mount of every container, init containers too, names exactly one volume. */
  predicate ValidReferences(p: PodTemplate) {
    UniqueVolumes(p.volumes) && MountsResolve(p.containers, p.volumes) && MountsResolve(p.initContainers, p.volumes)
  }

  lemma ReservedNamesDiffer()
    ensures VOLUME_NAME_SHARE_DATA != VOLUME_NAME_HOST_DATA
    ensures VOLUME_NAME_SHARE_DATA != VOLUME_NAME_POD_DATA
    ensures VOLUME_NAME_HOST_DATA != VOLUME_NAME_POD_DATA
  {
    assert |VOLUME_NAME_SHARE_DATA| != |VOLUME_NAME_HOST_DATA|;
    assert |VOLUME_NAME_SHARE_DATA| != |VOLUME_NAME_POD_DATA|;
    assert |VOLUME_NAME_HOST_DATA| != |VOLUME_NAME_POD_DATA|;
  }

  lemma VolumesStayUniqueIff(cfg: Config, volumes: seq<Volume>)
    ensures UniqueVolumes(volumes + InjectedVolumes(cfg)) <==>
              UniqueVolumes(volumes) && forall i :: 0 <= i < |volumes| ==> !Reserved(volumes[i].name)
  {
    var all, n, added := volumes + InjectedVolumes(cfg), |volumes|, InjectedVolumes(cfg);
    ReservedNamesDiffer();
    assert all[n] == added[0] && all[n + 1] == added[1] && all[n + 2] == added[2];
    assert forall i :: 0 <= i < n ==> all[i] == volumes[i];
  }

  lemma ResolvesAfterIff(cfg: Config, m: VolumeMount, volumes: seq<Volume>)
    ensures Resolves(m, volumes + InjectedVolumes(cfg)) <==> Resolves(m, volumes) || Reserved(m.name)
  {
    var all, n, added := volumes + InjectedVolumes(cfg), |volumes|, InjectedVolumes(cfg);
    assert all[n] == added[0] && all[n + 1] == added[1] && all[n + 2] == added[2];
    assert forall i :: 0 <= i < n ==> all[i] == volumes[i];
  }

  predicate MountsResolveOrReserved(cs: seq<Container>, volumes: seq<Volume>) {
    forall i, j :: 0 <= i < |cs| && 0 <= j < |cs[i].mounts| ==>
      Resolves(cs[i].mounts[j], volumes) || Reserved(cs[i].mounts[j].name)
  }

  lemma ContainersResolveIff(cfg: Config, cs: seq<Container>, main: string, volumes: seq<Volume>)
    ensures MountsResolve(MountingAll(cfg, cs + [Sidecar(cfg, main)]), volumes + InjectedVolumes(cfg))
       <==> MountsResolveOrReserved(cs, volumes)
  {
    var all, vs := cs + [Sidecar(cfg, main)], volumes + InjectedVolumes(cfg);
    var after := MountingAll(cfg, all);
    forall m: VolumeMount | Reserved(m.name)
      ensures Resolves(m, vs)
    {
      ResolvesAfterIff(cfg, m, volumes);
    }
    forall i, j | 0 <= i < |cs| && 0 <= j < |cs[i].mounts|
      ensures after[i].mounts[j] == cs[i].mounts[j]
      ensures Resolves(after[i].mounts[j], vs) <==> Resolves(cs[i].mounts[j], volumes) || Reserved(cs[i].mounts[j].name)
    {
      ResolvesAfterIff(cfg, cs[i].mounts[j], volumes);
    }
    forall i, j | 0 <= i < |after| && 0 <= j < |after[i].mounts|
      ensures (i < |cs| && j < |cs[i].mounts|) || Reserved(after[i].mounts[j].name)
    {
      var k := j - |all[i].mounts|;
      assert k >= 0 ==> after[i].mounts[j] == InjectedMounts(cfg)[k];
      assert i == |cs| ==> all[i] == Sidecar(cfg, main);
    }
  }

  lemma InitContainersResolveIff(cfg: Config, cs: seq<Container>, volumes: seq<Volume>)
    ensures MountsResolve(cs, volumes + InjectedVolumes(cfg)) <==> MountsResolveOrReserved(cs, volumes)
  {
    forall m: VolumeMount
      ensures Resolves(m, volumes + InjectedVolumes(cfg)) <==> Resolves(m, volumes) || Reserved(m.name)
    {
      ResolvesAfterIff(cfg, m, volumes);
    }
  }

  /** After injection every mount, the sidecar's included, names exactly one volume, exactly if that held before, but
      for mounts of the reserved volumes, and no volume had a reserved name. */
  lemma InjectionKeepsReferencesIff(cfg: Config, p: PodTemplate, ds: DataSet)
    requires p.containers != []
    ensures ValidReferences(Mutated(cfg, p, ds)) <==>
              && UniqueVolumes(p.volumes) && (forall i :: 0 <= i < |p.volumes| ==> !Reserved(p.volumes[i].name))
              && MountsResolveOrReserved(p.containers, p.volumes)
              && MountsResolveOrReserved(p.initContainers, p.volumes)
    ensures ValidReferences(p) && (forall i :: 0 <= i < |p.volumes| ==> !Reserved(p.volumes[i].name)) ==>
              ValidReferences(Mutated(cfg, p, ds))
  {
    VolumesStayUniqueIff(cfg, p.volumes);
    ContainersResolveIff(cfg, p.containers, p.containers[0].name, p.volumes);
    InitContainersResolveIff(cfg, p.initContainers, p.volumes);
  }

  /** What the pod had stays where it was: containers and volumes are prefixes, each container gains the share and
      host mounts at the end and nothing else, and only the dataset annotation moves. */
  lemma InjectionOnlyAdds(cfg: Config, p: PodTemplate, ds: DataSet)
    requires p.containers != []
    ensures var q := Mutated(cfg, p, ds);
            && p.volumes <= q.volumes && |q.volumes| == |p.volumes| + 3
            && |q.containers| == |p.containers| + 1 && q.containers[|p.containers|].name == SIDECAR_CONTAINER_NAME
            && (forall i :: 0 <= i < |p.containers| ==>
                  && p.containers[i].mounts <= q.containers[i].mounts
                  && q.containers[i].mounts[|p.containers[i].mounts|..] == InjectedMounts(cfg)
                  && q.containers[i].(mounts := p.containers[i].mounts) == p.containers[i])
            && q.initContainers == p.initContainers && q.labels == p.labels
            && q.name == p.name && q.namespace == p.namespace
            && q.annotations - {KUDA_KEY_DATASET} == p.annotations - {KUDA_KEY_DATASET}
  {
  }

  /** What is added, by name.  Every container, the sidecar included, ends with the share mount at the data path and the
      host mount at the host path; the pod ends with the three volumes they and the sidecar need. */
  lemma InjectionAdds(cfg: Config, p: PodTemplate, ds: DataSet)
    requires p.containers != []
    ensures var q, n := Mutated(cfg, p, ds), |p.volumes|;
            && (forall i :: 0 <= i < |q.containers| ==>
                  var mounts := q.containers[i].mounts;
                  && |mounts| >= 2
                  && mounts[|mounts| - 2] == VolumeMount("share-data", cfg.dataPathPrefix)
                  && mounts[|mounts| - 1] == VolumeMount("host-data", cfg.hostPath))
            && |q.volumes| == n + 3
            && q.volumes[n] == Volume("share-data", EmptyDir)
            && q.volumes[n + 1] == Volume("host-data", HostPathDirectory(cfg.hostPath))
            && q.volumes[n + 2] == Volume("pod-data", DownwardAnnotations)
            && "kuda.io/dataset" in q.annotations && q.annotations["kuda.io/dataset"] == ds.name
  {
    var q := Mutated(cfg, p, ds);
    forall i | 0 <= i < |q.containers|
      ensures var mounts := q.containers[i].mounts;
              && |mounts| >= 2
              && mounts[|mounts| - 2] == VolumeMount("share-data", cfg.dataPathPrefix)
              && mounts[|mounts| - 1] == VolumeMount("host-data", cfg.hostPath)
    {
      assert q.containers[i].mounts[|q.containers[i].mounts| - 2..] == InjectedMounts(cfg);
    }
  }

  /** The sidecar comes last, runs the configured image over the configured directories, is told the DataSet, the pod
      and the first container, and reads the pod's annotations. */
  lemma SidecarIs(cfg: Config, p: PodTemplate, ds: DataSet)
    requires p.containers != []
    ensures var q := Mutated(cfg, p, ds);
            && |q.containers| == |p.containers| + 1
            && var c := q.containers[|p.containers|];
               && c.name == "kuda-runtime" && c.image == cfg.runtimeImage
               && |c.mounts| == 3 && c.mounts[0] == VolumeMount("pod-data", "/etc/podinfo")
               && |c.args| == 3
               && c.args[0] == "--download-root-dir=" + cfg.hostPath
               && c.args[1] == "--local-root-dir=" + cfg.dataPathPrefix
               && c.args[2] == "--notice-server-port=" + Decimal(cfg.runtimeServerPort)
               && |c.env| == 4
               && c.env[0] == FieldRef("KUDA_DATASET_NAME", "metadata.annotations['kuda.io/dataset']")
               && c.env[1] == FieldRef("KUDA_DATASET_NAMESPACE", "metadata.namespace")
               && c.env[2] == FieldRef("MY_POD_NAME", "metadata.name")
               && c.env[3] == EnvVar.Value("MAIN_CONTAINER_NAME", p.containers[0].name)
  {
    assert (Sidecar(cfg, p.containers[0].name).mounts + InjectedMounts(cfg))[0]
        == Sidecar(cfg, p.containers[0].name).mounts[0];
  }

  function RequiredTerms(affinity: Option<Affinity>): seq<AffinityTerm> {
    if affinity.Some? && affinity.value.podAffinity.Some? then affinity.value.podAffinity.value.required else []
  }

  function PreferredTerms(affinity: Option<Affinity>): seq<AffinityTerm> {
    if affinity.Some? && affinity.value.podAffinity.Some? then affinity.value.podAffinity.value.preferred else []
  }

  /** Affinity: nothing if it is switched off, otherwise one more preferred term, of weight 1, for the nodes of the pods
      that the DataSet selects; all other terms stay. */
  lemma AffinityAdds(cfg: Config, p: PodTemplate, ds: DataSet)
    requires p.containers != []
    ensures var before, after := p.affinity, Mutated(cfg, p, ds).affinity;
            if !cfg.enableAffinity then after == before
            else
              && RequiredTerms(after) == RequiredTerms(before)
              && |PreferredTerms(after)| == |PreferredTerms(before)| + 1
              && PreferredTerms(before) <= PreferredTerms(after)
              && PreferredTerms(after)[|PreferredTerms(before)|]
                 == AffinityTerm(1, ds.selector, "kubernetes.io/hostname")
              && after.Some? && after.value.others == (if before.Some? then before.value.others else "")
  {}

  /** The answers.  A pod that names a DataSet passes as it is; for any other the list is read, and a failure of that is
      answered with 500; a pod that no DataSet selects passes as it is; only what remains is injected, and for that the
      pod must have a container. */
  lemma AdmissionSays(cfg: Config, p: PodTemplate, listing: Option<seq<DataSet>>)
    ensures var (response, q) := Admitted(cfg, p, listing);
            var named := "kuda.io/dataset" in p.annotations;
            var selected := listing.Some? && exists ds :: ds in listing.value && Included(p.labels, ds.selector);
            && response == (if !named && listing.None? then Errored(500)
                            else if !named && selected && p.containers == [] then Panicked
                            else Patched)
            && (q == p <==> named || !selected || p.containers == [])
  {
    if listing.Some? {
      FirstSelectingIs(p.labels, listing.value);
    }
  }

  // ---------- Admission again and again ----------

  /** Admission handles its own output without changing it; after an injection, whatever DataSets there are then. */
  lemma AdmissionIsIdempotent(cfg: Config, p: PodTemplate, listing: Option<seq<DataSet>>, later: Option<seq<DataSet>>)
    ensures var (response, q) := Admitted(cfg, p, listing);
            && Admitted(cfg, q, listing).1 == q
            && (q != p ==> Admitted(cfg, q, later) == (Patched, q))
            && (response.Panicked? <==> p.containers == [] && KUDA_KEY_DATASET !in p.annotations && listing.Some?
                                        && FirstSelecting(p.labels, listing.value).Some?)
  {
  }

  /** Any number of admissions, against whatever lists there are at the time. */
  function AdmittedAll(cfg: Config, p: PodTemplate, listings: seq<Option<seq<DataSet>>>): PodTemplate
    decreases |listings|
  {
    if listings == [] then p else AdmittedAll(cfg, Admitted(cfg, p, listings[0]).1, listings[1..])
  }

  function Sidecars(cs: seq<Container>): nat {
    if cs == [] then 0
    else Sidecars(cs[..|cs| - 1]) + (if cs[|cs| - 1].name == SIDECAR_CONTAINER_NAME then 1 else 0)
  }

  lemma {:induction false} SidecarsOfMounting(cfg: Config, cs: seq<Container>)
    ensures Sidecars(MountingAll(cfg, cs)) == Sidecars(cs)
  {
    if cs != [] {
      SidecarsOfMounting(cfg, cs[..|cs| - 1]);
      assert MountingAll(cfg, cs)[..|cs| - 1] == MountingAll(cfg, cs[..|cs| - 1]);
    }
  }

  /** The DataSet a pod gets: from the first list, among those that could be read, that has one for it. */
  function FirstFound(labels: map<string, string>, listings: seq<Option<seq<DataSet>>>): Option<DataSet> {
    if listings == [] then None
    else if listings[0].Some? && FirstSelecting(labels, listings[0].value).Some? then
      FirstSelecting(labels, listings[0].value)
    else FirstFound(labels, listings[1..])
  }

  lemma {:induction false} AnnotatedStays(cfg: Config, p: PodTemplate, listings: seq<Option<seq<DataSet>>>)
    requires KUDA_KEY_DATASET in p.annotations
    ensures AdmittedAll(cfg, p, listings) == p
    decreases |listings|
  {
    if listings != [] {
      AnnotatedStays(cfg, p, listings[1..]);
    }
  }

  /** However often a pod is admitted, it is injected at most once, by the first list that has a DataSet for it. */
  lemma {:induction false} InjectedAtMostOnce(cfg: Config, p: PodTemplate, listings: seq<Option<seq<DataSet>>>)
    ensures AdmittedAll(cfg, p, listings) ==
              if KUDA_KEY_DATASET in p.annotations || p.containers == [] || FirstFound(p.labels, listings).None? then p
              else Mutated(cfg, p, FirstFound(p.labels, listings).value)
    decreases |listings|
  {
    if KUDA_KEY_DATASET in p.annotations {
      AnnotatedStays(cfg, p, listings);
    } else if listings != [] {
      var q := Admitted(cfg, p, listings[0]).1;
      if listings[0].None? || p.containers == [] || FirstSelecting(p.labels, listings[0].value).None? {
        InjectedAtMostOnce(cfg, p, listings[1..]);
      } else {
        AnnotatedStays(cfg, q, listings[1..]);
      }
    }
  }

  /** ... so it never gets a second sidecar. */
  lemma AtMostOneSidecar(cfg: Config, p: PodTemplate, listings: seq<Option<seq<DataSet>>>)
    ensures var q := AdmittedAll(cfg, p, listings);
            Sidecars(q.containers) == Sidecars(p.containers) + (if q == p then 0 else 1)
  {
    InjectedAtMostOnce(cfg, p, listings);
    if AdmittedAll(cfg, p, listings) != p {
      var cs := p.containers + [Sidecar(cfg, p.containers[0].name)];
      SidecarsOfMounting(cfg, cs);
      assert cs[..|cs| - 1] == p.containers;
    }
  }
}
