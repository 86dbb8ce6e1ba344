/** The DataSet reconciler as it is written, against an API server that refuses every call once its budget is
    spent: a pass may be cut off before any call.  The name index has one cell for each list entry, as the code
    intends; module NameIndex has the loop as Go 1.16 runs it. */
module DataSetReconciler {
  import opened Types
  import opened Names
  import opened Numbers
  import opened Sync

  function View(datas: map<string, Stored<Data>>): Datas {
    map n | n in datas :: datas[n].obj
  }

  datatype Error = NoError | ErrAlreadyExists | ErrNotFound | ErrOther

  /** How a pass ends; Crashed stands for a panic. */
  datatype Outcome = Done | Aborted | Crashed

  class IndexEntry {
    var data: Stored<Data>

    constructor (data: Stored<Data>)
      ensures this.data == data
    {
      this.data := data;
    }
  }

  class Api {
    var datas: map<string, Stored<Data>>
    var clock: nat
    var status: DataSetStatus  // of the DataSet at hand
    var budget: nat

    constructor (datas: map<string, Stored<Data>>, clock: nat, status: DataSetStatus, budget: nat)
      ensures this.datas == datas && this.clock == clock && this.status == status && this.budget == budget
    {
      this.datas, this.clock, this.status, this.budget := datas, clock, status, budget;
    }

    method Create(data: Data) returns (err: Error)
      modifies `datas, `clock, `budget
      ensures old(budget) == 0 ==> err == ErrOther && budget == 0
      ensures old(budget) > 0 ==> budget == old(budget) - 1
                                  && err == if data.name in old(datas) then ErrAlreadyExists else NoError
      ensures datas == if err == NoError then old(datas)[data.name := Stored(old(clock), data)] else old(datas)
    {
      if budget == 0 { return ErrOther; }
      budget := budget - 1;
      if data.name in datas { return ErrAlreadyExists; }
      datas, clock := datas[data.name := Stored(clock, data)], clock + 1;
      err := NoError;
    }

    /** Refuses stale objects; the caller's copy gets the stored version. */
    method Update(entry: IndexEntry) returns (err: Error)
      requires entry.data.obj.name in datas && datas[entry.data.obj.name].version == entry.data.version
      requires !entry.data.obj.deleted || entry.data.obj.finalizers != {}
      modifies `datas, `clock, `budget, entry
      ensures old(budget) == 0 ==> err == ErrOther && budget == 0
      ensures old(budget) > 0 ==> err == NoError && budget == old(budget) - 1
      ensures err == NoError ==> entry.data.obj == old(entry.data.obj)
                                 && datas == old(datas)[entry.data.obj.name := entry.data]
      ensures err != NoError ==> datas == old(datas) && entry.data == old(entry.data)
    {
      if budget == 0 { return ErrOther; }
      budget := budget - 1;
      entry.data := entry.data.(version := clock);
      datas, clock := datas[entry.data.obj.name := entry.data], clock + 1;
      err := NoError;
    }

    method Delete(name: string) returns (err: Error)
      modifies `datas, `clock, `budget
      ensures old(budget) == 0 ==> err == ErrOther && budget == 0
      ensures old(budget) > 0 ==> budget == old(budget) - 1
                                  && err == if name in old(datas) then NoError else ErrNotFound
      ensures forall n :: Find(View(datas), n) ==
                if n == name && err == NoError then Deleted(old(datas)[name].obj) else Find(View(old(datas)), n)
    {
      if budget == 0 { return ErrOther; }
      budget := budget - 1;
      if name !in datas { return ErrNotFound; }
      var d := datas[name].obj;
      if d.finalizers == {} {
        datas := datas - {name};
      } else if !d.deleted {
        datas, clock := datas[name := Stored(clock, d.(deleted := true))], clock + 1;
      } else {
        assert d.(deleted := true) == d;
      }
      err := NoError;
    }

    method UpdateDataSetStatus(newStatus: DataSetStatus) returns (err: Error)
      modifies `status, `budget
      ensures old(budget) == 0 ==> err == ErrOther && budget == 0 && status == old(status)
      ensures old(budget) > 0 ==> err == NoError && budget == old(budget) - 1 && status == newStatus
    {
      if budget == 0 { return ErrOther; }
      budget := budget - 1;
      status := newStatus;
      err := NoError;
    }
  }

  // ---------- Lists ----------

  predicate DistinctNames(list: seq<Stored<Data>>) {
    forall i, j :: 0 <= i < j < |list| ==> list[i].obj.name != list[j].obj.name
  }

  ghost predicate Listed(list: seq<Stored<Data>>, name: string) {
    exists i :: 0 <= i < |list| && list[i].obj.name == name
  }

  ghost predicate CopiesStored(d: Data, view: Datas, dsName: string) {
    d.name in view && BelongsTo(d, dsName) && view[d.name] == d.(spec := view[d.name].spec)
  }

  /** The in-memory list and the store hold the same Data of the DataSet, but for the specs and versions the
      update phase writes. */
  ghost predicate Mirrors(list: seq<Stored<Data>>, view: Datas, dsName: string) {
    && DistinctNames(list)
    && (forall i :: 0 <= i < |list| ==> CopiesStored(list[i].obj, view, dsName))
    && (forall n :: n in view && BelongsTo(view[n], dsName) ==> Listed(list, n))
  }

  /** A list just read from the store. */
  ghost predicate FreshList(list: seq<Stored<Data>>, datas: map<string, Stored<Data>>, dsName: string) {
    && Mirrors(list, View(datas), dsName)
    && forall i :: 0 <= i < |list| ==> list[i].obj.name in datas && datas[list[i].obj.name] == list[i]
  }

  /** Objects are stored under their name, and a marked object waits for some finalizer. */
  predicate ValidStore(datas: Datas) {
    forall n :: n in datas ==> datas[n].name == n && (datas[n].deleted ==> datas[n].finalizers != {})
  }

  lemma ListedNext(list: seq<Stored<Data>>, d: Stored<Data>)
    ensures forall m :: Listed(list + [d], m) <==> Listed(list, m) || m == d.obj.name
  {
    var longer := list + [d];
    assert longer[|list|] == d && forall i :: 0 <= i < |list| ==> longer[i] == list[i];
    forall m
      ensures Listed(longer, m) <==> Listed(list, m) || m == d.obj.name
    {
      if i :| 0 <= i < |list| && list[i].obj.name == m {
        assert longer[i].obj.name == m;
      }
    }
  }

  // ---------- The index ----------

  /** One cell for each entry, as the code intends. */
  method ConvertDataListToMap(list: seq<Stored<Data>>) returns (dataMap: map<string, IndexEntry>)
    requires DistinctNames(list)
    ensures forall n :: n in dataMap <==> Listed(list, n)
    ensures forall i :: 0 <= i < |list| ==> list[i].obj.name in dataMap && dataMap[list[i].obj.name].data == list[i]
    ensures forall m, n :: m in dataMap && n in dataMap && m != n ==> dataMap[m] != dataMap[n]
    ensures forall n :: n in dataMap ==> fresh(dataMap[n])
  {
    dataMap := map[];
    for i := 0 to |list|
      invariant forall n :: n in dataMap <==> Listed(list[..i], n)
      invariant forall k :: 0 <= k < i ==> list[k].obj.name in dataMap && dataMap[list[k].obj.name].data == list[k]
      invariant forall m, n :: m in dataMap && n in dataMap && m != n ==> dataMap[m] != dataMap[n]
      invariant forall n :: n in dataMap ==> fresh(dataMap[n])
    {
      var entry := new IndexEntry(list[i]);
      dataMap := dataMap[list[i].obj.name := entry];
      assert list[..i + 1] == list[..i] + [list[i]];
      ListedNext(list[..i], list[i]);
    }
    assert list[..|list|] == list;
  }

  // ---------- The update phase ----------

  /** Writes the template's spec unless the Data has it already. */
  method UpdateDataResource(api: Api, ds: DataSet, entry: IndexEntry) returns (out: Outcome)
    requires ValidStore(View(api.datas))
    requires entry.data.obj.name in api.datas && api.datas[entry.data.obj.name] == entry.data
    modifies api`datas, api`clock, api`budget, entry
    ensures out == Crashed <==> !HasSuffix(PodNameOf(old(entry.data.obj)))
    ensures out == Crashed <==>
              "kuda.io/pod" !in old(entry.data.obj.labels) || '-' !in old(entry.data.obj.labels["kuda.io/pod"])
    ensures out == Done ==>
              && entry.data.obj == old(entry.data.obj).(spec := SpecOf(ds.template))
              && HasTemplate(entry.data.obj.spec, ds.template)
              && api.datas == old(api.datas)[entry.data.obj.name := entry.data]
    ensures out != Done ==> api.datas == old(api.datas) && entry.data == old(entry.data)
    ensures HasTemplate(old(entry.data.obj.spec), ds.template) ==>
              out != Aborted && api.datas == old(api.datas) && api.budget == old(api.budget)
    ensures old(api.budget) > 0 ==> out != Aborted && api.budget >= old(api.budget) - 1
  {
    var podName := PodNameOf(entry.data.obj);
    SpecOfIff(entry.data.obj.spec, ds.template);
    HasSuffixIffDash(podName);
    if !HasSuffix(podName) { return Crashed; }
    var dataNew := NewDataResource(ds, podName);
    assert entry.data.obj.name in View(api.datas);
    if entry.data.obj.spec != dataNew.spec {
      var seen := entry.data;
      entry.data := seen.(obj := seen.obj.(spec := dataNew.spec));
      var err := api.Update(entry);
      if err != NoError {
        entry.data := seen;
        return Aborted;
      }
    }
    out := Done;
  }

  /** None stands for the nil that is returned when the name is taken. */
  method CreateDataResource(api: Api, ds: DataSet, podName: string) returns (out: Outcome, data: Option<Stored<Data>>)
    requires HasSuffix(podName)
    modifies api`datas, api`clock, api`budget
    ensures var created := NewDataResource(ds, podName);
            && (data.Some? ==> out == Done && created.name !in old(api.datas) && data.value.obj == created
                               && IsCreated(created, ds, podName)
                               && api.datas == old(api.datas)[created.name := data.value])
            && (data.None? ==> api.datas == old(api.datas))
            && (out == Done && data.None? ==> created.name in old(api.datas))
    ensures out != Crashed
    ensures old(api.budget) > 0 ==> out == Done && api.budget == old(api.budget) - 1
  {
    var created := NewDataResource(ds, podName);
    var err := api.Create(created);
    if err == ErrAlreadyExists { return Done, None; }
    if err != NoError { return Aborted, None; }
    return Done, Some(api.datas[created.name]);
  }

  /** The index during the update phase: the cells of the Data there were when the list was read. */
  ghost predicate IndexPart(dataMap: map<string, IndexEntry>, before: Datas, datas: map<string, Stored<Data>>,
                            dsName: string)
    reads dataMap.Values
  {
    && (forall n :: n in dataMap ==> n in datas && dataMap[n].data == datas[n] && BelongsTo(datas[n].obj, dsName))
    && (forall n :: n in dataMap <==> n in before && BelongsTo(before[n], dsName))
    && (forall m, n :: m in dataMap && n in dataMap && m != n ==> dataMap[m] != dataMap[n])
  }

  lemma ViewUpdate(datas: map<string, Stored<Data>>, name: string, data: Stored<Data>)
    ensures View(datas[name := data]) == View(datas)[name := data.obj]
  {}

  /** One listed pod.  Dereferencing the nil of CreateDataResource crashes the pass. */
  method SyncPod(api: Api, ds: DataSet, pod: string, dataMap: map<string, IndexEntry>, items: seq<Stored<Data>>,
                 ghost before: Datas)
    returns (out: Outcome, items': seq<Stored<Data>>)
    requires ValidStore(View(api.datas)) && IndexPart(dataMap, before, api.datas, ds.name)
    modifies api`datas, api`clock, api`budget, dataMap.Values
    ensures out == Done ==>
              && IndexPart(dataMap, before, api.datas, ds.name) && HasSuffix(pod)
              && var name, view := DataNameByPod(ds.name, pod), View(old(api.datas));
                 if name in dataMap then
                   && items' == items && name in view && HasSuffix(PodNameOf(view[name]))
                   && View(api.datas) == view[name := view[name].(spec := SpecOf(ds.template))]
                 else
                   && name !in view && |items'| == |items| + 1
                   && items' == items + [items'[|items|]] && items'[|items|].obj == NewDataResource(ds, pod)
                   && View(api.datas) == view[name := NewDataResource(ds, pod)]
    ensures out != Done ==> api.datas == old(api.datas)
    ensures out == Crashed ==>
              HasSuffix(pod) ==>
                var name, view := DataNameByPod(ds.name, pod), View(old(api.datas));
                name in view && (name in dataMap ==> !HasSuffix(PodNameOf(view[name])))
    ensures old(api.budget) > 0 ==> out != Aborted && api.budget >= old(api.budget) - 1
  {
    items' := items;
    if !HasSuffix(pod) { return Crashed, items; }
    var dataName := DataNameByPod(ds.name, pod);
    if dataName in dataMap {
      assert dataName in View(api.datas);
      out := UpdateDataResource(api, ds, dataMap[dataName]);
      ViewUpdate(old(api.datas), dataName, dataMap[dataName].data);
      return;
    }
    var data;
    out, data := CreateDataResource(api, ds, pod);
    if out != Done { return; }
    if data.None? { return Crashed, items; }
    items' := items + [data.value];
    ViewUpdate(old(api.datas), dataName, data.value);
  }

  lemma UpdatedNext(ds: DataSet, pods: seq<string>, i: nat, n: string, before: Option<Data>)
    requires i < |pods|
    ensures var soFar := Updated(ds, pods[..i], n, before);
            Updated(ds, pods[..i + 1], n, before) ==
              if !IsNameFor(ds, pods[i], n) then soFar
              else if soFar.None? then Some(NewDataResource(ds, pods[i]))
              else if BelongsTo(soFar.value, ds.name) then Some(soFar.value.(spec := SpecOf(ds.template)))
              else soFar
  {
    assert pods[..i + 1] == pods[..i] + [pods[i]];
    NamedByConcat(ds, pods[..i], [pods[i]], n);
    NamedByNames(ds, pods[..i], n);
    assert NamedBy(ds, [pods[i]], n) == if IsNameFor(ds, pods[i], n) then Some(pods[i]) else None;
    if NamedBy(ds, pods[..i], n).Some? {
      LabelsOfNew(ds, NamedBy(ds, pods[..i], n).value);
    }
  }

  lemma MirrorsSpecs(items: seq<Stored<Data>>, before: Datas, after: Datas, dsName: string, name: string,
                     spec: DataSpec)
    requires Mirrors(items, before, dsName)
    requires name in before && after == before[name := before[name].(spec := spec)]
    ensures Mirrors(items, after, dsName)
  {
    forall i | 0 <= i < |items|
      ensures CopiesStored(items[i].obj, after, dsName)
    {
      assert CopiesStored(items[i].obj, before, dsName);
    }
    forall n | n in after && BelongsTo(after[n], dsName)
      ensures Listed(items, n)
    {
      assert n in before && BelongsTo(before[n], dsName);
    }
  }

  lemma MirrorsCreated(items: seq<Stored<Data>>, before: Datas, after: Datas, dsName: string, created: Stored<Data>)
    requires Mirrors(items, before, dsName)
    requires created.obj.name !in before && BelongsTo(created.obj, dsName)
    requires after == before[created.obj.name := created.obj]
    ensures Mirrors(items + [created], after, dsName)
  {
    var items' := items + [created];
    forall i | 0 <= i < |items|
      ensures CopiesStored(items[i].obj, after, dsName) && items[i].obj.name != created.obj.name
    {
      assert CopiesStored(items[i].obj, before, dsName);
    }
    forall n | n in after && BelongsTo(after[n], dsName)
      ensures Listed(items', n)
    {
      if n == created.obj.name {
        assert items'[|items|].obj.name == n;
      } else {
        var i :| 0 <= i < |items| && items[i].obj.name == n;
        assert items'[i].obj.name == n;
      }
    }
  }

  lemma NamesOkNext(ds: DataSet, pods: seq<string>, i: nat, before: Datas)
    requires i < |pods| && NamesOk(ds, pods[..i], before)
    ensures NamesOk(ds, pods[..i + 1], before) <==> NameOk(ds, before, pods[i]) && NotTwice(ds, pods, i, before)
  {
    var longer := pods[..i + 1];
    assert longer[i] == pods[i] && longer[..i] == pods[..i];
    forall k | 0 <= k < i
      ensures longer[k] == pods[..i][k] && longer[..k] == pods[..i][..k]
    {}
  }

  ghost predicate UpdatedBy(ds: DataSet, pods: seq<string>, before: Datas, after: Datas) {
    forall n :: Find(after, n) == Updated(ds, pods, n, Find(before, n))
  }

  /** The names a store has after some pods, for the next one: taken exactly as SyncPod sees it. */
  lemma NameSeen(ds: DataSet, pods: seq<string>, i: nat, before: Datas, after: Datas)
    requires i < |pods| && HasSuffix(pods[i]) && UpdatedBy(ds, pods[..i], before, after)
    requires NamesOk(ds, pods[..i], before)
    ensures var n := DataNameByPod(ds.name, pods[i]);
            && (n in after <==> n in before || NamedBy(ds, pods[..i], n).Some?)
            && (n in before ==> n in after && after[n].labels == before[n].labels)
  {
    var n := DataNameByPod(ds.name, pods[i]);
    assert Find(after, n) == Updated(ds, pods[..i], n, Find(before, n));
  }

  /** Where the update phase is after the first pods. */
  ghost predicate PhaseAt(ds: DataSet, pods: seq<string>, i: nat, before: Datas, view: Datas, items: seq<Stored<Data>>)
    requires i <= |pods|
  {
    && UpdatedBy(ds, pods[..i], before, view) && ValidStore(view)
    && Mirrors(items, view, ds.name)
    && NamesOk(ds, pods[..i], before)
  }

  lemma PodSynced(ds: DataSet, pods: seq<string>, i: nat, before: Datas, view: Datas, after: Datas)
    requires i < |pods| && HasSuffix(pods[i]) && UpdatedBy(ds, pods[..i], before, view)
    requires var n := DataNameByPod(ds.name, pods[i]);
             || (n in view && BelongsTo(view[n], ds.name) && after == view[n := view[n].(spec := SpecOf(ds.template))])
             || (n !in view && after == view[n := NewDataResource(ds, pods[i])])
    ensures UpdatedBy(ds, pods[..i + 1], before, after)
  {
    forall n
      ensures Find(after, n) == Updated(ds, pods[..i + 1], n, Find(before, n))
    {
      assert Find(view, n) == Updated(ds, pods[..i], n, Find(before, n));
      UpdatedNext(ds, pods, i, n, Find(before, n));
    }
  }

  lemma PhaseUpdated(ds: DataSet, pods: seq<string>, i: nat, before: Datas, view: Datas, items: seq<Stored<Data>>)
    requires i < |pods| && PhaseAt(ds, pods, i, before, view, items) && HasSuffix(pods[i])
    requires var name := DataNameByPod(ds.name, pods[i]);
             name in before && BelongsTo(before[name], ds.name) && name in view && HasSuffix(PodNameOf(view[name]))
    ensures var name := DataNameByPod(ds.name, pods[i]);
            PhaseAt(ds, pods, i + 1, before, view[name := view[name].(spec := SpecOf(ds.template))], items)
  {
    var name := DataNameByPod(ds.name, pods[i]);
    var after := view[name := view[name].(spec := SpecOf(ds.template))];
    NameSeen(ds, pods, i, before, view);
    NamesOkNext(ds, pods, i, before);
    PodSynced(ds, pods, i, before, view, after);
    MirrorsSpecs(items, view, after, ds.name, name, SpecOf(ds.template));
  }

  lemma PhaseCreated(ds: DataSet, pods: seq<string>, i: nat, before: Datas, view: Datas, items: seq<Stored<Data>>,
                     created: Stored<Data>)
    requires i < |pods| && PhaseAt(ds, pods, i, before, view, items) && HasSuffix(pods[i])
    requires created.obj == NewDataResource(ds, pods[i]) && created.obj.name !in view
    ensures PhaseAt(ds, pods, i + 1, before, view[created.obj.name := created.obj], items + [created])
  {
    NameSeen(ds, pods, i, before, view);
    NamesOkNext(ds, pods, i, before);
    LabelsOfNew(ds, pods[i]);
    PodSynced(ds, pods, i, before, view, view[created.obj.name := created.obj]);
    MirrorsCreated(items, view, view[created.obj.name := created.obj], ds.name, created);
  }

  lemma PhaseCrashed(ds: DataSet, pods: seq<string>, i: nat, before: Datas, view: Datas, items: seq<Stored<Data>>)
    requires i < |pods| && PhaseAt(ds, pods, i, before, view, items)
    requires HasSuffix(pods[i]) ==>
               var name := DataNameByPod(ds.name, pods[i]);
               && name in view
               && (name in before && BelongsTo(before[name], ds.name) ==> !HasSuffix(PodNameOf(view[name])))
    ensures !NamesOk(ds, pods, before)
  {
    if HasSuffix(pods[i]) {
      NameSeen(ds, pods, i, before, view);
    }
  }

  /** The listed pods in order: after each of them the store is what the update phase makes of the pods so far. */
  method UpdatePhase(api: Api, ds: DataSet, pods: seq<string>, dataMap: map<string, IndexEntry>,
                     list: seq<Stored<Data>>)
    returns (out: Outcome, items: seq<Stored<Data>>, ghost done: nat)
    requires ValidStore(View(api.datas)) && Mirrors(list, View(api.datas), ds.name)
    requires IndexPart(dataMap, View(api.datas), api.datas, ds.name)
    modifies api`datas, api`clock, api`budget, dataMap.Values
    ensures done <= |pods| && UpdatedBy(ds, pods[..done], View(old(api.datas)), View(api.datas))
    ensures ValidStore(View(api.datas))
    ensures out == Done ==> done == |pods| && Mirrors(items, View(api.datas), ds.name)
                            && |items| <= |list| + |pods| && NamesOk(ds, pods, View(old(api.datas)))
    ensures out == Crashed ==> !NamesOk(ds, pods, View(old(api.datas)))
    ensures old(api.budget) >= |pods| ==> out != Aborted && api.budget >= old(api.budget) - |pods|
  {
    items, done := list, 0;
    ghost var before := View(api.datas);
    for i := 0 to |pods|
      invariant done == i && |items| <= |list| + i
      invariant PhaseAt(ds, pods, i, before, View(api.datas), items)
      invariant IndexPart(dataMap, before, api.datas, ds.name)
      invariant old(api.budget) >= |pods| ==> api.budget >= old(api.budget) - i
    {
      ghost var view, soFar := View(api.datas), items;
      out, items := SyncPod(api, ds, pods[i], dataMap, items, before);
      if out != Done {
        if out == Crashed { PhaseCrashed(ds, pods, i, before, view, soFar); }
        return;
      }
      if DataNameByPod(ds.name, pods[i]) in dataMap {
        PhaseUpdated(ds, pods, i, before, view, soFar);
      } else {
        PhaseCreated(ds, pods, i, before, view, soFar, items[|soFar|]);
      }
      done := i + 1;
    }
    assert pods[..|pods|] == pods;
    out := Done;
  }

  // ---------- The prune phase ----------

  /** Only the keys of the pod map are used. */
  method ConvertPodListToMap(pods: seq<string>) returns (podMap: set<string>)
    ensures forall p :: p in podMap <==> p in pods
  {
    podMap := {};
    for i := 0 to |pods|
      invariant forall p :: p in podMap <==> p in pods[..i]
    {
      podMap := podMap + {pods[i]};
    }
    assert pods[..|pods|] == pods;
  }

  /** The first entries of the list are pruned, the rest of the store is as before. */
  ghost predicate PrunedUpTo(ds: DataSet, pods: seq<string>, items: seq<Stored<Data>>, before: Datas, after: Datas) {
    forall n :: Find(after, n) == if Listed(items, n) then Pruned(ds, pods, Find(before, n)) else Find(before, n)
  }

  lemma PruneNext(ds: DataSet, pods: seq<string>, items: seq<Stored<Data>>, i: nat, before: Datas, mid: Datas,
                  after: Datas)
    requires i < |items| && Mirrors(items, before, ds.name) && PrunedUpTo(ds, pods, items[..i], before, mid)
    requires var name := items[i].obj.name;
             forall n :: Find(after, n) == if n == name then Pruned(ds, pods, Find(mid, n)) else Find(mid, n)
    ensures PrunedUpTo(ds, pods, items[..i + 1], before, after)
  {
    var name := items[i].obj.name;
    forall n
      ensures Listed(items[..i + 1], n) <==> Listed(items[..i], n) || n == name
    {
      if Listed(items[..i], n) {
        var k :| 0 <= k < i && items[..i][k].obj.name == n;
        assert items[..i + 1][k].obj.name == n;
      }
      if n == name { assert items[..i + 1][i].obj.name == n; }
      if Listed(items[..i + 1], n) {
        var k :| 0 <= k < i + 1 && items[..i + 1][k].obj.name == n;
        assert k < i ==> items[..i][k].obj.name == n;
      }
    }
    assert !Listed(items[..i], name);
    forall n
      ensures Find(after, n) == if Listed(items[..i + 1], n) then Pruned(ds, pods, Find(before, n)) else Find(before, n)
    {
      assert Find(mid, n) == if Listed(items[..i], n) then Pruned(ds, pods, Find(before, n)) else Find(before, n);
    }
  }

  function Filter(items: seq<Stored<Data>>, keep: Data -> bool): seq<Stored<Data>> {
    if items == [] then []
    else
      var last := items[|items| - 1];
      Filter(items[..|items| - 1], keep) + (if keep(last.obj) then [last] else [])
  }

  function PodListed(pods: seq<string>): Data -> bool {
    (d: Data) => PodNameOf(d) in pods
  }

  function AllArrived(total: nat): Data -> bool {
    (d: Data) => d.status.success == total
  }

  /** What the prune loop keeps of the entries it has seen. */
  function Survivors(items: seq<Stored<Data>>, pods: seq<string>): seq<Stored<Data>> {
    Filter(items, PodListed(pods))
  }

  function Arrived(items: seq<Stored<Data>>, total: nat): seq<Stored<Data>> {
    Filter(items, AllArrived(total))
  }

  lemma StillThere(ds: DataSet, pods: seq<string>, items: seq<Stored<Data>>, i: nat, before: Datas, mid: Datas)
    requires i < |items| && DistinctNames(items) && PrunedUpTo(ds, pods, items[..i], before, mid)
    ensures Find(mid, items[i].obj.name) == Find(before, items[i].obj.name)
  {
    assert !Listed(items[..i], items[i].obj.name);
  }

  method PruneDataResources(api: Api, ds: DataSet, ghost pods: seq<string>, podMap: set<string>,
                            dataList: seq<Stored<Data>>)
    returns (out: Outcome, items: seq<Stored<Data>>, ghost done: nat)
    requires Mirrors(dataList, View(api.datas), ds.name)
    requires forall p :: p in podMap <==> p in pods
    modifies api`datas, api`clock, api`budget
    ensures out != Crashed && done <= |dataList|
    ensures PrunedUpTo(ds, pods, dataList[..done], View(old(api.datas)), View(api.datas))
    ensures out == Done ==> done == |dataList| && items == Survivors(dataList, pods)
    ensures old(api.budget) >= |dataList| ==> out == Done && api.budget >= old(api.budget) - |dataList|
  {
    ghost var before := View(api.datas);
    items, done := [], 0;
    for i := 0 to |dataList|
      invariant done == i && items == Survivors(dataList[..i], pods)
      invariant PrunedUpTo(ds, pods, dataList[..i], before, View(api.datas))
      invariant old(api.budget) >= |dataList| ==> api.budget >= old(api.budget) - i
    {
      var data := dataList[i];
      assert dataList[..i + 1][..i] == dataList[..i];
      assert CopiesStored(data.obj, before, ds.name);
      ghost var mid := View(api.datas);
      StillThere(ds, pods, dataList, i, before, mid);
      if PodNameOf(data.obj) in podMap {
        items := items + [data];
      } else {
        var err := api.Delete(data.obj.name);
        if err != NoError && err != ErrNotFound {
          SameFinds(mid, View(api.datas));
          return Aborted, items, i;
        }
      }
      PruneNext(ds, pods, dataList, i, before, mid, View(api.datas));
      done := i + 1;
    }
    assert dataList[..|dataList|] == dataList;
    out := Done;
  }

  // ---------- The status ----------

  function NamesOf(items: seq<Stored<Data>>): set<string> {
    set i | 0 <= i < |items| :: items[i].obj.name
  }

  lemma {:induction false} CountNames(items: seq<Stored<Data>>)
    requires DistinctNames(items)
    ensures |NamesOf(items)| == |items|
  {
    if items != [] {
      var front, last := items[..|items| - 1], items[|items| - 1].obj.name;
      CountNames(front);
      assert NamesOf(items) == NamesOf(front) + {last} by {
        forall n | n in NamesOf(items)
          ensures n in NamesOf(front) + {last}
        {
          var i :| 0 <= i < |items| && items[i].obj.name == n;
          assert i < |front| ==> front[i].obj.name == n;
        }
        forall n | n in NamesOf(front)
          ensures n in NamesOf(items)
        {
          var i :| 0 <= i < |front| && front[i].obj.name == n;
          assert items[i].obj.name == n;
        }
        assert items[|items| - 1].obj.name == last;
      }
      assert last !in NamesOf(front);
    }
  }

  lemma {:induction false} FilterAre(items: seq<Stored<Data>>, keep: Data -> bool)
    ensures forall s :: s in Filter(items, keep) <==> s in items && keep(s.obj)
  {
    if items != [] {
      FilterAre(items[..|items| - 1], keep);
      assert items == items[..|items| - 1] + [items[|items| - 1]];
    }
  }

  lemma {:induction false} FilterDistinct(items: seq<Stored<Data>>, keep: Data -> bool)
    requires DistinctNames(items)
    ensures DistinctNames(Filter(items, keep))
  {
    if items != [] {
      var front, last := items[..|items| - 1], items[|items| - 1];
      FilterDistinct(front, keep);
      FilterAre(front, keep);
      var kept := Filter(front, keep);
      forall k | 0 <= k < |kept|
        ensures kept[k].obj.name != last.obj.name
      {
        assert kept[k] in front;
      }
    }
  }

  lemma NamesIn(items: seq<Stored<Data>>, n: string)
    ensures n in NamesOf(items) <==> exists s :: s in items && s.obj.name == n
  {
    if n in NamesOf(items) {
      var i :| 0 <= i < |items| && items[i].obj.name == n;
      assert items[i] in items;
    }
  }

  lemma KeptIsStored(ds: DataSet, pods: seq<string>, items: seq<Stored<Data>>, mid: Datas, after: Datas,
                     s: Stored<Data>)
    requires Mirrors(items, mid, ds.name) && PrunedUpTo(ds, pods, items, mid, after)
    requires s in items && PodNameOf(s.obj) in pods
    ensures s.obj.name in KeptNames(ds, pods, after) && after[s.obj.name].status == s.obj.status
  {
    var i :| 0 <= i < |items| && items[i] == s;
    assert CopiesStored(items[i].obj, mid, ds.name);
    var n := s.obj.name;
    assert Listed(items, n);
    assert Find(after, n) == Pruned(ds, pods, Find(mid, n));
  }

  lemma StoredIsKept(ds: DataSet, pods: seq<string>, items: seq<Stored<Data>>, mid: Datas, after: Datas, n: string)
    returns (s: Stored<Data>)
    requires Mirrors(items, mid, ds.name) && PrunedUpTo(ds, pods, items, mid, after)
    requires n in KeptNames(ds, pods, after)
    ensures s in items && s.obj.name == n && PodNameOf(s.obj) in pods && s.obj.status == after[n].status
  {
    assert Find(after, n) == if Listed(items, n) then Pruned(ds, pods, Find(mid, n)) else Find(mid, n);
    assert n in mid && BelongsTo(mid[n], ds.name) && PodNameOf(mid[n]) in pods;
    var i :| 0 <= i < |items| && items[i].obj.name == n;
    assert CopiesStored(items[i].obj, mid, ds.name);
    s := items[i];
  }

  lemma KeptAreStored(ds: DataSet, pods: seq<string>, items: seq<Stored<Data>>, mid: Datas, after: Datas, n: string)
    requires Mirrors(items, mid, ds.name) && PrunedUpTo(ds, pods, items, mid, after)
    ensures n in NamesOf(Survivors(items, pods)) <==> n in KeptNames(ds, pods, after)
  {
    NamesIn(Survivors(items, pods), n);
    FilterAre(items, PodListed(pods));
    if n in NamesOf(Survivors(items, pods)) {
      var s :| s in Survivors(items, pods) && s.obj.name == n;
      KeptIsStored(ds, pods, items, mid, after, s);
    }
    if n in KeptNames(ds, pods, after) {
      var s := StoredIsKept(ds, pods, items, mid, after, n);
    }
  }

  /** The in-memory list after a pass stands for the kept Data in the store. */
  lemma ListIsKept(ds: DataSet, pods: seq<string>, items: seq<Stored<Data>>, mid: Datas, after: Datas)
    requires Mirrors(items, mid, ds.name) && PrunedUpTo(ds, pods, items, mid, after)
    ensures |Survivors(items, pods)| == |KeptNames(ds, pods, after)|
  {
    FilterDistinct(items, PodListed(pods));
    CountNames(Survivors(items, pods));
    forall n
      ensures n in NamesOf(Survivors(items, pods)) <==> n in KeptNames(ds, pods, after)
    {
      KeptAreStored(ds, pods, items, mid, after, n);
    }
    assert NamesOf(Survivors(items, pods)) == KeptNames(ds, pods, after);
  }

  lemma ArrivedAreStored(ds: DataSet, pods: seq<string>, items: seq<Stored<Data>>, mid: Datas, after: Datas, n: string)
    requires Mirrors(items, mid, ds.name) && PrunedUpTo(ds, pods, items, mid, after)
    ensures n in NamesOf(Arrived(Survivors(items, pods), |ds.template.dataItems.Elems()|))
       <==> n in SuccessNames(ds, pods, after)
  {
    var kept, total := Survivors(items, pods), |ds.template.dataItems.Elems()|;
    NamesIn(Arrived(kept, total), n);
    FilterAre(items, PodListed(pods));
    FilterAre(kept, AllArrived(total));
    if n in NamesOf(Arrived(kept, total)) {
      var s :| s in Arrived(kept, total) && s.obj.name == n;
      KeptIsStored(ds, pods, items, mid, after, s);
    }
    if n in SuccessNames(ds, pods, after) {
      var s := StoredIsKept(ds, pods, items, mid, after, n);
    }
  }

  /** The success counters of the in-memory list stand for those of the kept Data in the store. */
  lemma ListArrived(ds: DataSet, pods: seq<string>, items: seq<Stored<Data>>, mid: Datas, after: Datas)
    requires Mirrors(items, mid, ds.name) && PrunedUpTo(ds, pods, items, mid, after)
    ensures |Arrived(Survivors(items, pods), |ds.template.dataItems.Elems()|)| == |SuccessNames(ds, pods, after)|
  {
    var kept, total := Survivors(items, pods), |ds.template.dataItems.Elems()|;
    FilterDistinct(items, PodListed(pods));
    FilterDistinct(kept, AllArrived(total));
    CountNames(Arrived(kept, total));
    forall n
      ensures n in NamesOf(Arrived(kept, total)) <==> n in SuccessNames(ds, pods, after)
    {
      ArrivedAreStored(ds, pods, items, mid, after, n);
    }
    assert NamesOf(Arrived(kept, total)) == SuccessNames(ds, pods, after);
  }

  /** Counts the entries, and those whose success counter is the number of the template's items. */
  method CountStatus(ds: DataSet, items: seq<Stored<Data>>) returns (status: DataSetStatus)
    ensures var total := |ds.template.dataItems.Elems()|;
            status == DataSetStatus(total, |items|, |Arrived(items, total)|, Ready(|Arrived(items, total)|, |items|))
    ensures Shows(status.ready, status.successReplicas, status.replicas)
  {
    var total := |ds.template.dataItems.Elems()|;
    var success := 0;
    for i := 0 to |items|
      invariant success == |Arrived(items[..i], total)|
    {
      assert items[..i + 1][..i] == items[..i];
      if items[i].obj.status.success == total {
        success := success + 1;
      }
    }
    assert items[..|items|] == items;
    status := DataSetStatus(total, |items|, success, Ready(success, |items|));
    ReadyReads(success, |items|);
  }

  // ---------- The pass ----------

  lemma UpdatedIsBetween(ds: DataSet, pods: seq<string>, k: nat, before: Datas, after: Datas)
    requires k <= |pods| && UpdatedBy(ds, pods[..k], before, after)
    ensures Between(ds, pods, before, after)
  {
    forall n
      ensures Reached(ds, pods, n, Find(before, n), Find(after, n))
    {
      assert pods == pods[..k] + pods[k..];
      NamedByConcat(ds, pods[..k], pods[k..], n);
      assert Find(after, n) == Updated(ds, pods[..k], n, Find(before, n));
    }
  }

  lemma PrunedIsBetween(ds: DataSet, pods: seq<string>, items: seq<Stored<Data>>, before: Datas, mid: Datas,
                        after: Datas)
    requires UpdatedBy(ds, pods, before, mid) && PrunedUpTo(ds, pods, items, mid, after)
    ensures Between(ds, pods, before, after)
  {
    forall n
      ensures Reached(ds, pods, n, Find(before, n), Find(after, n))
    {
      assert Find(mid, n) == Updated(ds, pods, n, Find(before, n));
    }
  }

  lemma PrunedIsTarget(ds: DataSet, pods: seq<string>, items: seq<Stored<Data>>, before: Datas, mid: Datas,
                       after: Datas)
    requires UpdatedBy(ds, pods, before, mid) && PrunedUpTo(ds, pods, items, mid, after)
    requires Mirrors(items, mid, ds.name)
    ensures after == Target(ds, pods, before)
  {
    forall n
      ensures Find(after, n) == Find(Target(ds, pods, before), n)
    {
      TargetFind(ds, pods, before, n);
      assert Find(mid, n) == Updated(ds, pods, n, Find(before, n));
      assert Find(after, n) == if Listed(items, n) then Pruned(ds, pods, Find(mid, n)) else Find(mid, n);
      if !Listed(items, n) && n in mid {
        assert !BelongsTo(mid[n], ds.name);
      }
    }
    SameFinds(after, Target(ds, pods, before));
  }

  /** Writes the counted status, unless the DataSet has it already. */
  method UpdateDataSetStatus(api: Api, ds: DataSet, items: seq<Stored<Data>>) returns (out: Outcome)
    modifies api`status, api`budget
    ensures out != Crashed
    ensures var total := |ds.template.dataItems.Elems()|;
            var arrived := |Arrived(items, total)|;
            var counted := DataSetStatus(total, |items|, arrived, Ready(arrived, |items|));
            && (out == Done ==> api.status == if counted == ds.status then old(api.status) else counted)
            && (out != Done ==> api.status == old(api.status))
            && (counted == ds.status ==> out == Done && api.budget == old(api.budget))
    ensures old(api.budget) > 0 ==> out == Done
  {
    var newStatus := CountStatus(ds, items);
    if newStatus != ds.status {
      var err := api.UpdateDataSetStatus(newStatus);
      if err != NoError { return Aborted; }
    }
    out := Done;
  }

  /** The prune phase and the status, after the update phase. */
  method Conclude(api: Api, ds: DataSet, pods: seq<string>, podMap: set<string>, dataList: seq<Stored<Data>>,
                  ghost before: Datas)
    returns (out: Outcome)
    requires UpdatedBy(ds, pods, before, View(api.datas)) && Mirrors(dataList, View(api.datas), ds.name)
    requires forall p :: p in podMap <==> p in pods
    modifies api
    ensures out != Crashed
    ensures out == Done ==> View(api.datas) == Target(ds, pods, before)
                            && (ds.status == old(api.status) ==> api.status == TargetStatus(ds, pods, before))
    ensures out != Done ==> api.status == old(api.status)
    ensures Between(ds, pods, before, View(api.datas))
    ensures old(api.budget) > |dataList| ==> out == Done
  {
    ghost var mid, k := View(api.datas), 0;
    var items;
    out, items, k := PruneDataResources(api, ds, pods, podMap, dataList);
    PrunedIsBetween(ds, pods, dataList[..k], before, mid, View(api.datas));
    if out != Done { return; }
    assert dataList[..|dataList|] == dataList;
    PrunedIsTarget(ds, pods, dataList, before, mid, View(api.datas));
    ListIsKept(ds, pods, dataList, mid, View(api.datas));
    ListArrived(ds, pods, dataList, mid, View(api.datas));

    out := UpdateDataSetStatus(api, ds, items);
  }

  lemma FreshIndex(dataMap: map<string, IndexEntry>, list: seq<Stored<Data>>, datas: map<string, Stored<Data>>,
                   dsName: string)
    requires FreshList(list, datas, dsName)
    requires forall n :: n in dataMap <==> Listed(list, n)
    requires forall i :: 0 <= i < |list| ==> list[i].obj.name in dataMap && dataMap[list[i].obj.name].data == list[i]
    requires forall m, n :: m in dataMap && n in dataMap && m != n ==> dataMap[m] != dataMap[n]
    ensures IndexPart(dataMap, View(datas), datas, dsName)
  {
    forall n | n in dataMap
      ensures n in datas && dataMap[n].data == datas[n] && BelongsTo(datas[n].obj, dsName)
    {
      var i :| 0 <= i < |list| && list[i].obj.name == n;
      assert CopiesStored(list[i].obj, View(datas), dsName);
    }
    assert forall n :: n in View(datas) && BelongsTo(View(datas)[n], dsName) ==> Listed(list, n);
  }

  /** A pass on a fresh list.  Done: the store and the DataSet status are as the target says.  However it ends,
      every name is between what it was and what it was to become, so that a later pass can take over; and given
      budget enough, the pass is done exactly if the names are in order. */
  method SyncDataSet(api: Api, ds: DataSet, pods: seq<string>, list: seq<Stored<Data>>) returns (out: Outcome)
    requires ValidStore(View(api.datas)) && FreshList(list, api.datas, ds.name)
    modifies api
    ensures out == Done ==> View(api.datas) == Target(ds, pods, View(old(api.datas)))
                            && (ds.status == old(api.status) ==>
                                  api.status == TargetStatus(ds, pods, View(old(api.datas))))
    ensures out != Done ==> api.status == old(api.status)
    ensures Between(ds, pods, View(old(api.datas)), View(api.datas))
    ensures out == Done ==> NamesOk(ds, pods, View(old(api.datas)))
    ensures out == Crashed ==> !NamesOk(ds, pods, View(old(api.datas)))
    ensures old(api.budget) > 2 * |pods| + |list| ==>
              (out == Done <==> NamesOk(ds, pods, View(old(api.datas))))
  {
    ghost var before, k := View(api.datas), 0;
    var podMap := ConvertPodListToMap(pods);
    var dataMap := ConvertDataListToMap(list);
    FreshIndex(dataMap, list, api.datas, ds.name);
    var items;
    out, items, k := UpdatePhase(api, ds, pods, dataMap, list);
    UpdatedIsBetween(ds, pods, k, before, View(api.datas));
    if out != Done { return; }
    assert pods[..|pods|] == pods;
    out := Conclude(api, ds, pods, podMap, items, before);
  }

  lemma FreshListIs(list: seq<Stored<Data>>, datas: map<string, Stored<Data>>, dsName: string)
    requires FreshList(list, datas, dsName)
    ensures forall s :: s in list <==> exists n :: n in datas && datas[n] == s && IsOf(s.obj, dsName)
  {
    forall s | s in list
      ensures exists n :: n in datas && datas[n] == s && IsOf(s.obj, dsName)
    {
      var i :| 0 <= i < |list| && list[i] == s;
      assert CopiesStored(list[i].obj, View(datas), dsName);
    }
    forall n | n in datas && IsOf(datas[n].obj, dsName)
      ensures datas[n] in list
    {
      assert n in View(datas) && BelongsTo(View(datas)[n], dsName);
      var i :| 0 <= i < |list| && list[i].obj.name == n;
      assert datas[list[i].obj.name] == list[i];
    }
  }

  /** While a list is read: some of the DataSet's Data are in it, the rest of them are still to come. */
  ghost predicate ListedSoFar(list: seq<Stored<Data>>, datas: map<string, Stored<Data>>, dsName: string,
                              rest: set<string>)
  {
    && DistinctNames(list)
    && (forall i :: 0 <= i < |list| ==>
          var n := list[i].obj.name;
          n in datas && datas[n] == list[i] && BelongsTo(list[i].obj, dsName) && n !in rest)
    && (forall n :: n in rest ==> n in datas && BelongsTo(datas[n].obj, dsName))
    && (forall n :: n in datas && BelongsTo(datas[n].obj, dsName) ==> n in rest || Listed(list, n))
  }

  lemma OneMoreListed(list: seq<Stored<Data>>, datas: map<string, Stored<Data>>, dsName: string, rest: set<string>,
                      n: string)
    requires ListedSoFar(list, datas, dsName, rest) && n in rest && datas[n].obj.name == n
    ensures ListedSoFar(list + [datas[n]], datas, dsName, rest - {n})
  {
    ListedNext(list, datas[n]);
  }

  lemma AllListed(list: seq<Stored<Data>>, datas: map<string, Stored<Data>>, dsName: string)
    requires ListedSoFar(list, datas, dsName, {})
    ensures FreshList(list, datas, dsName)
  {
    forall i | 0 <= i < |list|
      ensures CopiesStored(list[i].obj, View(datas), dsName)
    {
      assert list[i].obj == View(datas)[list[i].obj.name];
    }
  }

  /** List with the label selector of the DataSet. */
  method ListData(api: Api, dsName: string) returns (list: seq<Stored<Data>>)
    requires ValidStore(View(api.datas))
    ensures FreshList(list, api.datas, dsName) && |list| <= |api.datas|
    ensures forall s :: s in list <==> exists n :: n in api.datas && api.datas[n] == s && IsOf(s.obj, dsName)
  {
    var rest := set n | n in api.datas && BelongsTo(api.datas[n].obj, dsName);
    list := [];
    SubsetSize(rest, api.datas.Keys);
    while rest != {}
      invariant ListedSoFar(list, api.datas, dsName, rest)
      invariant |list| + |rest| <= |api.datas|
      decreases rest
    {
      var n :| n in rest;
      assert n in View(api.datas);
      OneMoreListed(list, api.datas, dsName, rest, n);
      list := list + [api.datas[n]];
      rest := rest - {n};
    }
    AllListed(list, api.datas, dsName);
    FreshListIs(list, api.datas, dsName);
  }

  lemma BetweenIsValid(ds: DataSet, pods: seq<string>, before: Datas, after: Datas)
    requires ValidStore(before) && Between(ds, pods, before, after)
    ensures ValidStore(after)
  {
    forall n | n in after
      ensures after[n].name == n && (after[n].deleted ==> after[n].finalizers != {})
    {
      assert Reached(ds, pods, n, Find(before, n), Find(after, n));
      NamedByNames(ds, pods, n);
    }
  }

  /** One reconcile request; the names of the pods the selector matches are an input. */
  method Reconcile(api: Api, ds: DataSet, pods: seq<string>) returns (out: Outcome)
    requires ValidStore(View(api.datas)) && ds.status == api.status
    modifies api
    ensures ValidStore(View(api.datas))
    ensures out == Done ==> View(api.datas) == Target(ds, pods, View(old(api.datas)))
                            && api.status == TargetStatus(ds, pods, View(old(api.datas)))
    ensures Between(ds, pods, View(old(api.datas)), View(api.datas))
    ensures out == Crashed ==> !NamesOk(ds, pods, View(old(api.datas)))
    ensures old(api.budget) > 2 * |pods| + |old(api.datas)| ==>
              (out == Done <==> NamesOk(ds, pods, View(old(api.datas))))
  {
    var list := ListData(api, ds.name);
    out := SyncDataSet(api, ds, pods, list);
    BetweenIsValid(ds, pods, View(old(api.datas)), View(api.datas));
  }

  /** A pass cut off at any call, and a pass after it: together they make what one pass makes, and the second does
      not crash. */
  method ReconcileAgain(api: Api, ds: DataSet, pods: seq<string>, later: nat) returns (out: Outcome)
    requires ValidStore(View(api.datas)) && ds.status == api.status
    requires NamesOk(ds, pods, View(api.datas)) && NothingBlocks(ds, pods, View(api.datas))
    modifies api
    ensures out != Crashed
    ensures out == Done ==> View(api.datas) == Target(ds, pods, View(old(api.datas)))
                            && api.status == TargetStatus(ds, pods, View(old(api.datas)))
  {
    ghost var before := View(api.datas);
    out := Reconcile(api, ds, pods);
    RestartCanRun(ds, pods, before, View(api.datas));
    RestartGivesSame(ds, pods, before, View(api.datas));
    var ds' := ds.(status := api.status);
    StatusIsIrrelevant(ds, pods, View(api.datas), api.status);
    api.budget := later;
    out := Reconcile(api, ds', pods);
  }
}
