/** The name index as Go 1.16 builds it: the loop has one variable, and every entry of the map points to it. */
module NameIndex {
  import opened Types
  import opened Names
  import opened Sync
  import opened DataSetReconciler

  /** What a Go variable of the type holds before anything is assigned to it. */
  const ZERO_DATA := Stored(0, Data("", map[], {}, false, DataSpec(NilSlice, None, None), EMPTY_STATUS))

  /** Every entry aliases the one loop variable, which ends up with the last item: looking a name up finds the item of
      that name, as a linear search would, only for the last one. */
  method ConvertDataListToMapLiterally(list: seq<Stored<Data>>)
    returns (dataMap: map<string, IndexEntry>, loopVar: IndexEntry)
    ensures fresh(loopVar) && loopVar.data == if list == [] then ZERO_DATA else list[|list| - 1]
    ensures forall n :: n in dataMap ==> dataMap[n] == loopVar
    ensures forall n :: n in dataMap <==> Listed(list, n)
    ensures DistinctNames(list) ==>
              forall i :: 0 <= i < |list| ==>
                list[i].obj.name in dataMap && (dataMap[list[i].obj.name].data == list[i] <==> i == |list| - 1)
  {
    loopVar := new IndexEntry(ZERO_DATA);
    dataMap := map[];
    for i := 0 to |list|
      invariant loopVar.data == if i == 0 then ZERO_DATA else list[i - 1]
      invariant forall n :: n in dataMap ==> dataMap[n] == loopVar
      invariant forall n :: n in dataMap <==> exists k :: 0 <= k < i && list[k].obj.name == n
    {
      loopVar.data := list[i];
      dataMap := dataMap[loopVar.data.obj.name := loopVar];
    }
    forall i | 0 <= i < |list| && DistinctNames(list)
      ensures list[i].obj.name in dataMap && (list[i] == list[|list| - 1] <==> i == |list| - 1)
    {
      assert list[i].obj.name == list[|list| - 1].obj.name ==> i == |list| - 1;
    }
  }

  // ---------- The update phase on that index ----------

  /** Some listed pod's Data is listed. */
  predicate Hit(ds: DataSet, pods: seq<string>, listed: set<string>) {
    exists i :: 0 <= i < |pods| && HasSuffix(pods[i]) && DataNameByPod(ds.name, pods[i]) in listed
  }

  function LiterallyUpdated(ds: DataSet, pods: seq<string>, listed: set<string>, last: string, n: string,
                            before: Option<Data>): Option<Data>
  {
    match before
    case None => Updated(ds, pods, n, None)
    case Some(d) => if n == last && Hit(ds, pods, listed) then Some(d.(spec := SpecOf(ds.template))) else before
  }

  ghost predicate LiterallyUpdatedBy(ds: DataSet, pods: seq<string>, listed: set<string>, last: string, before: Datas,
                                     after: Datas)
  {
    forall n :: Find(after, n) == LiterallyUpdated(ds, pods, listed, last, n, Find(before, n))
  }

  lemma HitNext(ds: DataSet, pods: seq<string>, i: nat, listed: set<string>)
    requires i < |pods| && HasSuffix(pods[i])
    ensures Hit(ds, pods[..i + 1], listed) <==>
              Hit(ds, pods[..i], listed) || DataNameByPod(ds.name, pods[i]) in listed
  {
    var longer := pods[..i + 1];
    assert longer[i] == pods[i] && forall k :: 0 <= k < i ==> longer[k] == pods[..i][k];
  }

  lemma LiteralNext(ds: DataSet, pods: seq<string>, i: nat, listed: set<string>, last: string, before: Datas,
                    mid: Datas, after: Datas)
    requires i < |pods| && HasSuffix(pods[i]) && listed <= before.Keys
    requires LiterallyUpdatedBy(ds, pods[..i], listed, last, before, mid)
    requires var name := DataNameByPod(ds.name, pods[i]);
             if name in listed then
               last in mid && after == mid[last := mid[last].(spec := SpecOf(ds.template))]
             else name !in mid && after == mid[name := NewDataResource(ds, pods[i])]
    ensures LiterallyUpdatedBy(ds, pods[..i + 1], listed, last, before, after)
  {
    var name := DataNameByPod(ds.name, pods[i]);
    HitNext(ds, pods, i, listed);
    forall n
      ensures Find(after, n) == LiterallyUpdated(ds, pods[..i + 1], listed, last, n, Find(before, n))
    {
      assert Find(mid, n) == LiterallyUpdated(ds, pods[..i], listed, last, n, Find(before, n));
      UpdatedNext(ds, pods, i, n, None);
      if n == name && n !in listed {
        assert Updated(ds, pods[..i], n, None).None?;
      }
    }
  }

  /** When the phase can deal with a pod: a hit asks for the pod name on the last item, whichever item was meant, and
      a miss for a free name. */
  predicate LiteralNameOk(ds: DataSet, listed: set<string>, last: string, datas: Datas, pod: string) {
    && HasSuffix(pod)
    && if DataNameByPod(ds.name, pod) in listed then last in datas && HasSuffix(PodNameOf(datas[last]))
       else DataNameByPod(ds.name, pod) !in datas
  }

  predicate LiterallyNotTwice(ds: DataSet, pods: seq<string>, i: nat, listed: set<string>)
    requires i < |pods| && HasSuffix(pods[i])
  {
    var n := DataNameByPod(ds.name, pods[i]);
    n in listed || NamedBy(ds, pods[..i], n).None?
  }

  ghost predicate LiteralNamesOk(ds: DataSet, pods: seq<string>, listed: set<string>, last: string, datas: Datas) {
    forall i :: 0 <= i < |pods| ==>
      LiteralNameOk(ds, listed, last, datas, pods[i]) && LiterallyNotTwice(ds, pods, i, listed)
  }

  lemma LiteralNamesOkNext(ds: DataSet, pods: seq<string>, i: nat, listed: set<string>, last: string, datas: Datas)
    requires i < |pods| && LiteralNamesOk(ds, pods[..i], listed, last, datas)
    ensures LiteralNamesOk(ds, pods[..i + 1], listed, last, datas)
       <==> LiteralNameOk(ds, listed, last, datas, pods[i]) && LiterallyNotTwice(ds, pods, i, listed)
  {
    var longer := pods[..i + 1];
    assert longer[i] == pods[i] && longer[..i] == pods[..i];
    forall k | 0 <= k < i
      ensures longer[k] == pods[..i][k] && longer[..k] == pods[..i][..k]
    {}
  }

  /** One listed pod on that index: the update goes to the one cell, whichever name was looked up. */
  method LiteralSyncPod(api: Api, ds: DataSet, pod: string, dataMap: map<string, IndexEntry>, loopVar: IndexEntry)
    returns (out: Outcome)
    requires ValidStore(View(api.datas))
    requires forall n :: n in dataMap ==> dataMap[n] == loopVar
    requires dataMap != map[] ==>
               loopVar.data.obj.name in api.datas && api.datas[loopVar.data.obj.name] == loopVar.data
    modifies api`datas, api`clock, api`budget, loopVar
    ensures loopVar.data.obj.name == old(loopVar.data.obj.name)
    ensures loopVar.data.obj.labels == old(loopVar.data.obj.labels)
    ensures dataMap != map[] ==>
              loopVar.data.obj.name in api.datas && api.datas[loopVar.data.obj.name] == loopVar.data
    ensures out != Done ==> api.datas == old(api.datas)
    ensures out == Done ==>
              HasSuffix(pod) &&
              var name, last, mid := DataNameByPod(ds.name, pod), loopVar.data.obj.name, View(old(api.datas));
              if name in dataMap then
                && last in mid && HasSuffix(PodNameOf(mid[last]))
                && View(api.datas) == mid[last := mid[last].(spec := SpecOf(ds.template))]
              else name !in mid && View(api.datas) == mid[name := NewDataResource(ds, pod)]
    ensures out == Crashed ==>
              HasSuffix(pod) ==>
                var name, mid := DataNameByPod(ds.name, pod), View(old(api.datas));
                if name in dataMap then !HasSuffix(PodNameOf(loopVar.data.obj)) else name in mid
    ensures old(api.budget) > 0 ==> out != Aborted && api.budget >= old(api.budget) - 1
  {
    if !HasSuffix(pod) { return Crashed; }
    var dataName := DataNameByPod(ds.name, pod);
    if dataName in dataMap {
      out := UpdateDataResource(api, ds, dataMap[dataName]);
      ViewUpdate(old(api.datas), loopVar.data.obj.name, loopVar.data);
      return;
    }
    var data;
    out, data := CreateDataResource(api, ds, pod);
    if out != Done { return; }
    if data.None? { return Crashed; }
    ViewUpdate(old(api.datas), dataName, data.value);
  }

  /** Where the phase is after the first pods. */
  ghost predicate LiteralPhaseAt(ds: DataSet, pods: seq<string>, i: nat, listed: set<string>, last: string,
                                 before: Datas, view: Datas)
    requires i <= |pods|
  {
    && LiterallyUpdatedBy(ds, pods[..i], listed, last, before, view)
    && LiteralNamesOk(ds, pods[..i], listed, last, before)
  }

  /** The name of a pod is taken exactly if it was, or an earlier pod has it. */
  lemma LiteralNameSeen(ds: DataSet, pods: seq<string>, i: nat, listed: set<string>, last: string, before: Datas,
                        view: Datas)
    requires i < |pods| && HasSuffix(pods[i]) && LiteralPhaseAt(ds, pods, i, listed, last, before, view)
    ensures var n := DataNameByPod(ds.name, pods[i]);
            n in view <==> n in before || NamedBy(ds, pods[..i], n).Some?
  {
    var n := DataNameByPod(ds.name, pods[i]);
    assert Find(view, n) == LiterallyUpdated(ds, pods[..i], listed, last, n, Find(before, n));
  }

  lemma LiteralPhaseNext(ds: DataSet, pods: seq<string>, i: nat, listed: set<string>, last: string, before: Datas,
                         view: Datas, after: Datas)
    requires i < |pods| && HasSuffix(pods[i]) && LiteralPhaseAt(ds, pods, i, listed, last, before, view)
    requires listed <= before.Keys && (listed != {} ==> last in before)
    requires var name := DataNameByPod(ds.name, pods[i]);
             if name in listed then
               && last in view && HasSuffix(PodNameOf(before[last]))
               && after == view[last := view[last].(spec := SpecOf(ds.template))]
             else name !in view && after == view[name := NewDataResource(ds, pods[i])]
    ensures LiteralPhaseAt(ds, pods, i + 1, listed, last, before, after)
  {
    LiteralNameSeen(ds, pods, i, listed, last, before, view);
    LiteralNamesOkNext(ds, pods, i, listed, last, before);
    LiteralNext(ds, pods, i, listed, last, before, view, after);
  }

  lemma LiteralPhaseCrashed(ds: DataSet, pods: seq<string>, i: nat, listed: set<string>, last: string, before: Datas,
                            view: Datas)
    requires i < |pods| && LiteralPhaseAt(ds, pods, i, listed, last, before, view)
    requires HasSuffix(pods[i]) ==>
               var name := DataNameByPod(ds.name, pods[i]);
               if name in listed then last in before && !HasSuffix(PodNameOf(before[last])) else name in view
    ensures !LiteralNamesOk(ds, pods, listed, last, before)
  {
    if HasSuffix(pods[i]) {
      LiteralNameSeen(ds, pods, i, listed, last, before, view);
    }
  }

  predicate OthersAreAsBefore(before: Datas, after: Datas, last: string) {
    forall n :: n in before && n != last ==> n in after && after[n] == before[n]
  }

  lemma OthersStay(ds: DataSet, pods: seq<string>, listed: set<string>, last: string, before: Datas, after: Datas)
    requires LiterallyUpdatedBy(ds, pods, listed, last, before, after)
    ensures OthersAreAsBefore(before, after, last)
  {
    forall n | n in before && n != last
      ensures n in after && after[n] == before[n]
    {
      assert Find(after, n) == LiterallyUpdated(ds, pods, listed, last, n, Find(before, n));
    }
  }

  /** Whatever the listed pods are, and however the phase ends, of the Data there were at most the last listed one is
      written, and that one gets the template's spec.  Given calls enough, the phase is done exactly if it can deal
      with every name. */
  method LiteralUpdatePhase(api: Api, ds: DataSet, pods: seq<string>, dataMap: map<string, IndexEntry>,
                            loopVar: IndexEntry, ghost listed: set<string>)
    returns (out: Outcome)
    requires ValidStore(View(api.datas))
    requires forall n :: n in dataMap <==> n in listed
    requires forall n :: n in dataMap ==> dataMap[n] == loopVar
    requires listed <= api.datas.Keys
    requires dataMap != map[] ==>
               loopVar.data.obj.name in api.datas && api.datas[loopVar.data.obj.name] == loopVar.data
    modifies api`datas, api`clock, api`budget, loopVar
    ensures loopVar.data.obj.name == old(loopVar.data.obj.name)
    ensures OthersAreAsBefore(View(old(api.datas)), View(api.datas), loopVar.data.obj.name)
    ensures out == Done ==>
              && LiterallyUpdatedBy(ds, pods, listed, loopVar.data.obj.name, View(old(api.datas)), View(api.datas))
              && LiteralNamesOk(ds, pods, listed, loopVar.data.obj.name, View(old(api.datas)))
    ensures out == Crashed ==> !LiteralNamesOk(ds, pods, listed, loopVar.data.obj.name, View(old(api.datas)))
    ensures old(api.budget) >= |pods| ==> out != Aborted
  {
    ghost var before, last, labels := View(api.datas), loopVar.data.obj.name, loopVar.data.obj.labels;
    for i := 0 to |pods|
      invariant ValidStore(View(api.datas)) && loopVar.data.obj.name == last && loopVar.data.obj.labels == labels
      invariant dataMap != map[] ==> last in api.datas && api.datas[last] == loopVar.data
      invariant LiteralPhaseAt(ds, pods, i, listed, last, before, View(api.datas))
      invariant old(api.budget) >= |pods| ==> api.budget >= old(api.budget) - i
    {
      ghost var mid := View(api.datas);
      OthersStay(ds, pods[..i], listed, last, before, mid);
      out := LiteralSyncPod(api, ds, pods[i], dataMap, loopVar);
      if out != Done {
        if out == Crashed { LiteralPhaseCrashed(ds, pods, i, listed, last, before, mid); }
        return;
      }
      LiteralPhaseNext(ds, pods, i, listed, last, before, mid, View(api.datas));
    }
    assert pods[..|pods|] == pods;
    OthersStay(ds, pods, listed, last, before, View(api.datas));
    out := Done;
  }

  /** What makes the aliased index harmless: every wanted Data but the last has the template's spec already, and if a
      lookup hits at all, the last one's pod name has a dash, and it is wanted itself or up to date. */
  ghost predicate AliasingIsHarmless(ds: DataSet, pods: seq<string>, listed: set<string>, last: string, datas: Datas)
  {
    && (forall n :: n in listed && n != last && NamedBy(ds, pods, n).Some? ==>
          n in datas && datas[n].spec == SpecOf(ds.template))
    && (Hit(ds, pods, listed) ==>
          && last in datas && HasSuffix(PodNameOf(datas[last]))
          && (NamedBy(ds, pods, last).Some? || datas[last].spec == SpecOf(ds.template)))
  }

  lemma LiteralNamesIff(ds: DataSet, pods: seq<string>, listed: set<string>, last: string, datas: Datas)
    requires listed != {} ==> last in listed
    requires forall n :: n in listed <==> n in datas && BelongsTo(datas[n], ds.name)
    requires NamesOk(ds, pods, datas)
    ensures LiteralNamesOk(ds, pods, listed, last, datas)
       <==> (Hit(ds, pods, listed) ==> HasSuffix(PodNameOf(datas[last])))
  {
    forall i | 0 <= i < |pods|
      ensures HasSuffix(pods[i]) && LiterallyNotTwice(ds, pods, i, listed)
      ensures DataNameByPod(ds.name, pods[i]) in datas <==> DataNameByPod(ds.name, pods[i]) in listed
    {
      assert NameOk(ds, datas, pods[i]) && NotTwice(ds, pods, i, datas);
    }
    if Hit(ds, pods, listed) {
      var i :| 0 <= i < |pods| && HasSuffix(pods[i]) && DataNameByPod(ds.name, pods[i]) in listed;
      assert LiteralNamesOk(ds, pods, listed, last, datas) ==> LiteralNameOk(ds, listed, last, datas, pods[i]);
    }
  }

  lemma WantedIsHit(ds: DataSet, pods: seq<string>, listed: set<string>, n: string)
    requires n in listed && NamedBy(ds, pods, n).Some?
    ensures Hit(ds, pods, listed)
  {
    NamedByNames(ds, pods, n);
    var i :| 0 <= i < |pods| && pods[i] == NamedBy(ds, pods, n).value;
  }

  /** Exactly then the phase on the aliased index, too, can deal with every name, and does what the code intends. */
  lemma LiteralIsIntendedIff(ds: DataSet, pods: seq<string>, listed: set<string>, last: string, datas: Datas)
    requires listed != {} ==> last in listed
    requires forall n :: n in listed <==> n in datas && BelongsTo(datas[n], ds.name)
    requires NamesOk(ds, pods, datas)
    ensures && LiteralNamesOk(ds, pods, listed, last, datas)
            && (forall n :: LiterallyUpdated(ds, pods, listed, last, n, Find(datas, n))
                            == Updated(ds, pods, n, Find(datas, n)))
       <==> AliasingIsHarmless(ds, pods, listed, last, datas)
  {
    LiteralNamesIff(ds, pods, listed, last, datas);
    forall n
      ensures LiterallyUpdated(ds, pods, listed, last, n, Find(datas, n)) == Updated(ds, pods, n, Find(datas, n))
         <==> && (n in listed && n != last && NamedBy(ds, pods, n).Some? ==> datas[n].spec == SpecOf(ds.template))
              && (listed != {} && n == last ==>
                    NamedBy(ds, pods, last).Some? || datas[last].spec == SpecOf(ds.template) || !Hit(ds, pods, listed))
    {
      if n in listed && NamedBy(ds, pods, n).Some? { WantedIsHit(ds, pods, listed, n); }
      assert n in listed ==> datas[n] == datas[n].(spec := datas[n].spec);
    }
  }

  function LastName(list: seq<Stored<Data>>): string {
    if list == [] then ZERO_DATA.obj.name else list[|list| - 1].obj.name
  }

  lemma ListedNames(list: seq<Stored<Data>>, view: Datas, dsName: string)
    requires Mirrors(list, view, dsName)
    ensures forall n :: n in NamesOf(list) <==> Listed(list, n)
    ensures forall n :: n in NamesOf(list) <==> n in view && BelongsTo(view[n], dsName)
    ensures list != [] ==> list[|list| - 1].obj.name in NamesOf(list)
  {
    forall n | Listed(list, n)
      ensures n in view && BelongsTo(view[n], dsName)
    {
      var i :| 0 <= i < |list| && list[i].obj.name == n;
      assert CopiesStored(list[i].obj, view, dsName);
    }
  }

  lemma SameUpdates(ds: DataSet, pods: seq<string>, listed: set<string>, last: string, before: Datas, after: Datas)
    requires LiterallyUpdatedBy(ds, pods, listed, last, before, after)
    ensures UpdatedBy(ds, pods, before, after) <==>
              forall n :: LiterallyUpdated(ds, pods, listed, last, n, Find(before, n))
                          == Updated(ds, pods, n, Find(before, n))
  {
    forall n
      ensures Find(after, n) == LiterallyUpdated(ds, pods, listed, last, n, Find(before, n))
    {}
  }

  /** The phase itself, from the list on and with calls enough, where the intended phase is done: it is done too, with
      the same result, exactly if the aliasing is harmless. */
  method LiteralPhase(api: Api, ds: DataSet, pods: seq<string>, list: seq<Stored<Data>>) returns (out: Outcome)
    requires ValidStore(View(api.datas)) && FreshList(list, api.datas, ds.name) && api.budget >= |pods|
    requires NamesOk(ds, pods, View(api.datas))
    modifies api`datas, api`clock, api`budget
    ensures out == Done && UpdatedBy(ds, pods, View(old(api.datas)), View(api.datas)) <==>
              AliasingIsHarmless(ds, pods, NamesOf(list), LastName(list), View(old(api.datas)))
  {
    ghost var before, listed := View(api.datas), NamesOf(list);
    var dataMap, loopVar := ConvertDataListToMapLiterally(list);
    ghost var last := loopVar.data.obj.name;
    ListedNames(list, before, ds.name);
    out := LiteralUpdatePhase(api, ds, pods, dataMap, loopVar, listed);
    LiteralIsIntendedIff(ds, pods, listed, last, before);
    if out == Done {
      SameUpdates(ds, pods, listed, last, before, View(api.datas));
    }
  }
}
