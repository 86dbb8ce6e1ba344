/** A namespace with its DataSets, Data, pods and role bindings, and the passes of both reconcilers over it,
    each taken whole: nobody interrupts it and no call fails. */
module World {
  import opened Types
  import opened Names
  import opened DataPass
  import opened Sync
  import opened Selector

  datatype World =
    World(datasets: map<string, DataSet>, datas: Datas, pods: map<string, Pod>, bindings: set<string>)

  datatype PassId = OfDataSet(dataSet: string) | OfData(data: string, now: nat)

  function Owner(d: Data): string {
    Lookup(d.labels, KUDA_KEY_DATASET)
  }

  function Selected(w: World, d: string): set<string>
    requires d in w.datasets
  {
    set p | p in w.pods && Included(w.pods[p].labels, w.datasets[d].selector)
  }

  /** A list call returns the selected pods in some order; module Sync shows that it does not matter which. */
  ghost function InSomeOrder(names: set<string>): (list: seq<string>)
    ensures forall p :: p in list <==> p in names
    ensures forall i, j :: 0 <= i < j < |list| ==> list[i] != list[j]
  {
    if names == {} then []
    else
      var p :| p in names;
      [p] + InSomeOrder(names - {p})
  }

  ghost function PodsOf(w: World, d: string): seq<string>
    requires d in w.datasets
  {
    InSomeOrder(Selected(w, d))
  }

  ghost function DataSetPass(w: World, d: string): World {
    if d !in w.datasets then w
    else
      var ds, pods := w.datasets[d], PodsOf(w, d);
      w.(datas := Target(ds, pods, w.datas),
         datasets := w.datasets[d := ds.(status := TargetStatus(ds, pods, w.datas))])
  }

  function PodOf(w: World, d: Data): Option<Pod> {
    if PodNameOf(d) in w.pods then Some(w.pods[PodNameOf(d)]) else None
  }

  /** The namespace with what a pass for a Data leaves behind. */
  function Applied(w: World, n: string, r: Result): World
    requires n in w.datas
  {
    w.(datas := if r.data.Some? then w.datas[n := r.data.value] else w.datas - {n},
       pods := if r.pod.Some? then w.pods[PodNameOf(w.datas[n]) := r.pod.value] else w.pods,
       bindings := r.bindings)
  }

  function DataPassOf(digest: DataSpec -> string, w: World, n: string, now: nat): World {
    if n !in w.datas then w
    else Applied(w, n, PassResult(digest, w.datas[n], PodOf(w, w.datas[n]), w.bindings, now))
  }

  ghost function Do(digest: DataSpec -> string, w: World, pass: PassId): World {
    match pass
    case OfDataSet(d) => DataSetPass(w, d)
    case OfData(n, now) => DataPassOf(digest, w, n, now)
  }

  // ---------- Well-formed namespaces ----------

  /** A Data is named after its DataSet and pod, and if it is marked, it waits on some finalizer. */
  predicate DataShape(d: Data, n: string) {
    && d.name == n && KUDA_KEY_DATASET in d.labels
    && HasSuffix(PodNameOf(d)) && n == DataNameByPod(Owner(d), PodNameOf(d))
    && (d.deleted ==> d.finalizers != {})
  }

  /** No other DataSet selects the pod of the Data; its own may have ceased to. */
  predicate Placed(w: World, d: Data) {
    forall e :: e in w.datasets && PodNameOf(d) in Selected(w, e) ==> e == Owner(d)
  }

  predicate DataOk(w: World, n: string)
    requires n in w.datas
  {
    DataShape(w.datas[n], n) && Placed(w, w.datas[n])
  }

  predicate Distinct(pods: set<string>) {
    && (forall p :: p in pods ==> HasSuffix(p))
    && (forall p, q :: (p in pods && q in pods && p != q && HasSuffix(p) && HasSuffix(q)) ==>
          PodSuffix(p) != PodSuffix(q))
  }

  /** Every pod is selected by at most one DataSet, and the pods of a DataSet have distinct suffixes. */
  ghost predicate PodsOk(w: World) {
    && (forall d :: d in w.datasets ==> w.datasets[d].name == d)
    && (forall d :: d in w.datasets ==> Distinct(Selected(w, d)))
    && (forall d, e, p :: d in w.datasets && e in w.datasets && p in Selected(w, d) && p in Selected(w, e) ==> d == e)
  }

  predicate SamePod(w: World, m: string, n: string)
    requires m in w.datas && n in w.datas
  {
    PodNameOf(w.datas[m]) == PodNameOf(w.datas[n]) && PodNameOf(w.datas[m]) in w.pods
  }

  /** No two Data are for the same existing pod. */
  ghost predicate OneDataPerPod(w: World) {
    forall m, n :: m in w.datas && n in w.datas && SamePod(w, m, n) ==> m == n
  }

  ghost predicate WellFormed(w: World) {
    && PodsOk(w)
    && (forall n :: n in w.datas ==> DataOk(w, n))
    && OneDataPerPod(w)
  }

  /** What passes never touch: the pods with their labels and accounts, and all of a DataSet but its status. */
  ghost predicate SameShape(w: World, v: World) {
    && w.pods.Keys == v.pods.Keys
    && (forall p :: p in w.pods && p in v.pods ==>
          w.pods[p].labels == v.pods[p].labels && w.pods[p].serviceAccount == v.pods[p].serviceAccount)
    && w.datasets.Keys == v.datasets.Keys
    && (forall d :: d in w.datasets && d in v.datasets ==>
          w.datasets[d].(status := v.datasets[d].status) == v.datasets[d])
  }

  lemma PassKeepsShape(digest: DataSpec -> string, w: World, pass: PassId)
    ensures SameShape(w, Do(digest, w, pass))
  {}

  lemma ShapeKeepsSelected(w: World, v: World, d: string)
    requires SameShape(w, v) && d in w.datasets
    ensures Selected(v, d) == Selected(w, d)
  {}

  lemma ShapeKeepsPodsOk(w: World, v: World)
    requires SameShape(w, v) && PodsOk(w)
    ensures PodsOk(v)
  {
    forall d | d in w.datasets
      ensures Selected(v, d) == Selected(w, d)
    {
      ShapeKeepsSelected(w, v, d);
    }
  }

  lemma PodListOk(w: World, d: string)
    requires PodsOk(w) && d in w.datasets
    ensures DistinctSuffixes(PodsOf(w, d))
  {
    var pods := PodsOf(w, d);
    assert forall i :: 0 <= i < |pods| ==> pods[i] in pods;
  }

  /** No pass of a DataSet meets a name it cannot handle, so that without failures it is done. */
  lemma PassGoesThrough(w: World, d: string)
    requires WellFormed(w) && d in w.datasets
    ensures NamesOk(w.datasets[d], PodsOf(w, d), w.datas)
  {
    PodListOk(w, d);
    forall n | n in w.datas
      ensures KUDA_KEY_DATASET in w.datas[n].labels && HasSuffix(PodNameOf(w.datas[n]))
      ensures n == DataNameByPod(w.datas[n].labels[KUDA_KEY_DATASET], PodNameOf(w.datas[n]))
    {
      assert DataOk(w, n);
    }
    NoCollision(w.datasets[d], PodsOf(w, d), w.datas);
  }

  /** A Data's name says which DataSet and which pod it is for. */
  lemma NameTellsOwner(w: World, n: string, d: string, pod: string)
    requires WellFormed(w) && n in w.datas && HasSuffix(pod) && n == DataNameByPod(d, pod)
    ensures Owner(w.datas[n]) == d && BelongsTo(w.datas[n], d) && PodSuffix(PodNameOf(w.datas[n])) == PodSuffix(pod)
  {
    assert DataOk(w, n);
    SuffixesDecode(Owner(w.datas[n]), PodNameOf(w.datas[n]), d, pod);
  }

  /** Two Data for a pod that some DataSet selects have the same name, hence are one. */
  lemma SelectedPodTellsName(w: World, m: string, n: string, e: string)
    requires m in w.datas && n in w.datas && DataOk(w, m) && DataOk(w, n)
    requires PodNameOf(w.datas[m]) == PodNameOf(w.datas[n])
    requires e in w.datasets && PodNameOf(w.datas[m]) in Selected(w, e)
    ensures m == n
  {}

  lemma EntryKeepsShape(ds: DataSet, pods: seq<string>, n: string, before: Option<Data>)
    requires before.Some? ==> DataShape(before.value, n)
    ensures var after := Entry(ds, pods, n, before);
            after.Some? ==>
              && DataShape(after.value, n)
              && (before.Some? ==> after.value.labels == before.value.labels)
              && (before.None? ==> Owner(after.value) == ds.name && PodNameOf(after.value) in pods)
  {
    NamedByNames(ds, pods, n);
    if NamedBy(ds, pods, n).Some? {
      LabelsOfNew(ds, NamedBy(ds, pods, n).value);
    }
  }

  lemma ShapeKeepsPlaced(w: World, v: World, d: Data, d': Data)
    requires SameShape(w, v) && Placed(w, d) && d'.labels == d.labels
    ensures Placed(v, d')
  {
    forall e | e in w.datasets
      ensures Selected(v, e) == Selected(w, e)
    {
      ShapeKeepsSelected(w, v, e);
    }
  }

  lemma TargetKeepsShape(ds: DataSet, pods: seq<string>, datas: Datas, n: string)
    requires n in datas ==> DataShape(datas[n], n)
    requires n in Target(ds, pods, datas)
    ensures var d := Target(ds, pods, datas)[n];
            && DataShape(d, n)
            && (n in datas ==> d.labels == datas[n].labels)
            && (n !in datas ==> Owner(d) == ds.name && PodNameOf(d) in pods)
  {
    TargetFind(ds, pods, datas, n);
    EntryKeepsShape(ds, pods, n, Find(datas, n));
  }

  lemma NewIsPlaced(w: World, v: World, d: string, created: Data)
    requires PodsOk(w) && SameShape(w, v) && d in w.datasets
    requires Owner(created) == d && PodNameOf(created) in Selected(w, d)
    ensures Placed(v, created)
  {
    forall e | e in w.datasets
      ensures Selected(v, e) == Selected(w, e)
    {
      ShapeKeepsSelected(w, v, e);
    }
  }

  lemma DataSetPassKeepsDatas(w: World, d: string, n: string)
    requires WellFormed(w) && d in w.datasets && n in DataSetPass(w, d).datas
    ensures DataOk(DataSetPass(w, d), n)
  {
    var w' := DataSetPass(w, d);
    assert n in w.datas ==> DataOk(w, n);
    TargetKeepsShape(w.datasets[d], PodsOf(w, d), w.datas, n);
    PassKeepsShape(_ => "", w, OfDataSet(d));
    if n in w.datas {
      ShapeKeepsPlaced(w, w', w.datas[n], w'.datas[n]);
    } else {
      NewIsPlaced(w, w', d, w'.datas[n]);
    }
  }

  lemma ResultKeepsShape(digest: DataSpec -> string, d: Data, pod: Option<Pod>, bindings: set<string>, now: nat,
                         n: string)
    requires DataShape(d, n)
    ensures var r := PassResult(digest, d, pod, bindings, now);
            && (r.data.Some? ==> DataShape(r.data.value, n) && r.data.value.labels == d.labels)
            && r.pod.Some? == pod.Some?
            && (pod.Some? ==> r.pod.value.labels == pod.value.labels
                              && r.pod.value.serviceAccount == pod.value.serviceAccount)
  {}

  lemma AppliedKeepsDatas(w: World, n: string, r: Result, m: string)
    requires WellFormed(w) && n in w.datas && SameShape(w, Applied(w, n, r))
    requires r.data.Some? ==> DataShape(r.data.value, n) && r.data.value.labels == w.datas[n].labels
    requires m in Applied(w, n, r).datas
    ensures DataOk(Applied(w, n, r), m)
  {
    assert DataOk(w, m);
    ShapeKeepsPlaced(w, Applied(w, n, r), w.datas[m], Applied(w, n, r).datas[m]);
  }

  lemma DataPassKeepsDatas(digest: DataSpec -> string, w: World, n: string, now: nat, m: string)
    requires WellFormed(w) && n in w.datas && m in DataPassOf(digest, w, n, now).datas
    ensures DataOk(DataPassOf(digest, w, n, now), m)
  {
    var d := w.datas[n];
    assert DataOk(w, n);
    ResultKeepsShape(digest, d, PodOf(w, d), w.bindings, now, n);
    PassKeepsShape(digest, w, OfData(n, now));
    AppliedKeepsDatas(w, n, PassResult(digest, d, PodOf(w, d), w.bindings, now), m);
  }

  /** The Data a pass leaves were there, with the same labels, or are for a pod their DataSet selects. */
  lemma PassKeepsLabels(digest: DataSpec -> string, w: World, pass: PassId, n: string)
    requires WellFormed(w) && n in Do(digest, w, pass).datas
    ensures var d := Do(digest, w, pass).datas[n];
            (n in w.datas && d.labels == w.datas[n].labels)
            || (Owner(d) in w.datasets && PodNameOf(d) in Selected(w, Owner(d)))
  {
    match pass
    case OfDataSet(d) =>
      if d in w.datasets {
        assert n in w.datas ==> DataOk(w, n);
        TargetKeepsShape(w.datasets[d], PodsOf(w, d), w.datas, n);
        if n !in w.datas { assert PodNameOf(Do(digest, w, pass).datas[n]) in PodsOf(w, d); }
      }
    case OfData(m, now) =>
      if m in w.datas {
        assert DataOk(w, m);
        ResultKeepsShape(digest, w.datas[m], PodOf(w, w.datas[m]), w.bindings, now, m);
      }
  }

  lemma PassKeepsOnePerPod(digest: DataSpec -> string, w: World, pass: PassId, m: string, n: string)
    requires WellFormed(w)
    requires var v := Do(digest, w, pass);
             m in v.datas && n in v.datas && DataOk(v, m) && DataOk(v, n) && SamePod(v, m, n)
    ensures m == n
  {
    var v := Do(digest, w, pass);
    PassKeepsShape(digest, w, pass);
    PassKeepsLabels(digest, w, pass, m);
    PassKeepsLabels(digest, w, pass, n);
    if m in w.datas && n in w.datas && v.datas[m].labels == w.datas[m].labels
       && v.datas[n].labels == w.datas[n].labels {
      assert SamePod(w, m, n);
    } else {
      ShapeKeepsSelected(w, v, Owner(v.datas[m]));
      SelectedPodTellsName(v, m, n, Owner(v.datas[m]));
    }
  }

  lemma PassKeepsWellFormed(digest: DataSpec -> string, w: World, pass: PassId)
    requires WellFormed(w)
    ensures WellFormed(Do(digest, w, pass))
  {
    var v := Do(digest, w, pass);
    PassKeepsShape(digest, w, pass);
    ShapeKeepsPodsOk(w, v);
    forall n | n in v.datas
      ensures DataOk(v, n)
    {
      match pass
      case OfDataSet(d) => if d in w.datasets { DataSetPassKeepsDatas(w, d, n); }
      case OfData(m, now) => if m in w.datas { DataPassKeepsDatas(digest, w, m, now, n); }
    }
    forall m, n | m in v.datas && n in v.datas && SamePod(v, m, n)
      ensures m == n
    {
      PassKeepsOnePerPod(digest, w, pass, m, n);
    }
  }
}
