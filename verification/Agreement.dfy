/** The webhook and the DataSet reconciler look at the same pods. */
module Agreement {
  import opened Types
  import opened Names
  import opened Sync
  import opened Selector
  import opened Injector

  datatype Request = Request(name: string, namespace: string)

  /** The DataSet an injected pod names; an empty name counts as none. */
  function DataSetForPod(p: PodTemplate): Option<string> {
    if KUDA_KEY_DATASET in p.annotations && p.annotations[KUDA_KEY_DATASET] != "" then
      Some(p.annotations[KUDA_KEY_DATASET])
    else None
  }

  /** The requests an event on a pod leads to. */
  function RequestsFor(p: PodTemplate): seq<Request> {
    var ds := DataSetForPod(p);
    if ds.Some? then [Request(ds.value, p.namespace)] else []
  }

  /** Only a pod that names a DataSet asks for anything. */
  lemma PlainPodAsksNothing(p: PodTemplate)
    ensures RequestsFor(p) == [] <==>
              "kuda.io/dataset" !in p.annotations || p.annotations["kuda.io/dataset"] == ""
    ensures RequestsFor(p) != [] ==> RequestsFor(p) == [Request(p.annotations["kuda.io/dataset"], p.namespace)]
  {}

  /** What the reconciler lists for a DataSet: the pods of its namespace that its selector matches. */
  predicate PodList(pods: seq<string>, cluster: map<string, PodTemplate>, ds: DataSet) {
    && (forall p :: p in pods ==> p in cluster)
    && (forall p :: p in cluster ==>
          (p in pods <==> cluster[p].namespace == ds.namespace && Included(cluster[p].labels, ds.selector)))
  }

  /** A pod the webhook has injected asks for a reconcile of the first DataSet of its namespace that selects it. */
  lemma InjectedPodAsks(cfg: Config, p: PodTemplate, list: seq<DataSet>) returns (ds: DataSet)
    requires forall d :: d in list ==> d.name != "" && d.namespace == p.namespace
    requires Admitted(cfg, p, Some(list)).1 != p
    ensures Some(ds) == FirstSelecting(p.labels, list) && ds in list && Included(p.labels, ds.selector)
    ensures RequestsFor(Admitted(cfg, p, Some(list)).1) == [Request(ds.name, p.namespace)]
  {
    FirstSelectingIs(p.labels, list);
    ds := FirstSelecting(p.labels, list).value;
  }

  /** ... whose pod list has it, under the name it is stored with, for as long as its labels and the selector stay, so
      that a pass that is done leaves it a Data of its own, unless the name is taken by the Data of another pod.  The
      name may be generated after admission. */
  lemma InjectedPodGetsData(cfg: Config, p: PodTemplate, list: seq<DataSet>, cluster: map<string, PodTemplate>,
                            stored: string, ds: DataSet, pods: seq<string>, datas: Datas)
    requires forall d :: d in list ==> d.name != "" && d.namespace == p.namespace
    requires Admitted(cfg, p, Some(list)).1 != p
    requires RequestsFor(Admitted(cfg, p, Some(list)).1) == [Request(ds.name, ds.namespace)]
    requires FirstSelecting(p.labels, list).Some? && FirstSelecting(p.labels, list).value.selector == ds.selector
    requires stored in cluster && cluster[stored].labels == p.labels && cluster[stored].namespace == p.namespace
    requires PodList(pods, cluster, ds) && DistinctSuffixes(pods) && NamedAfterPods(ds, datas)
    ensures stored in pods
    ensures var name := DataNameByPod(ds.name, stored);
            name !in datas || IsDataOf(ds, stored, datas, name) ==>
              IsDataOf(ds, stored, Target(ds, pods, datas), name)
              && HasTemplate(Target(ds, pods, datas)[name].spec, ds.template)
  {
    var first := InjectedPodAsks(cfg, p, list);
    assert ds.namespace == p.namespace;
    var k :| 0 <= k < |pods| && pods[k] == stored;
    MirrorOfPod(ds, pods, datas, stored);
  }
}
