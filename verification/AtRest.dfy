/** Where the passes come to rest: every selected pod has its own Data, delivered as the template says. */
module AtRest {
  import opened Types
  import opened Status
  import opened Names
  import opened Numbers
  import opened Server
  import opened DataPass
  import opened Sync
  import opened World
  import opened Convergence

  // ---------- Digests are faithful ----------

  predicate HasItsPod(w: World, n: string)
    requires n in w.datas
  {
    Owner(w.datas[n]) in w.datasets && PodNameOf(w.datas[n]) in Selected(w, Owner(w.datas[n]))
  }

  predicate DigestTells(digest: DataSpec -> string, w: World, n: string)
    requires n in w.datas
  {
    var d := w.datas[n];
    HasItsPod(w, n) && DigestOf(w.pods[PodNameOf(d)]) == Some(digest(d.spec)) ==>
      Aligned(d.status.items.Elems(), d.spec.dataItems.Elems())
  }

  /** A Data whose spec may become the template: it has it, or its items are aligned with it and the next pass can
      go through, so that it resets the items only together with the digest. */
  predicate ReadyFor(w: World, ds: DataSet, p: string, d: Data)
    requires p in w.pods
  {
    d.spec == SpecOf(ds.template)
    || (Aligned(d.status.items.Elems(), ds.template.dataItems.Elems())
        && BindingName(w.pods[p].serviceAccount) in w.bindings)
  }

  predicate HasOwnData(w: World, d: string, p: string) {
    HasSuffix(p) && DataNameByPod(d, p) in w.datas && PodNameOf(w.datas[DataNameByPod(d, p)]) == p
  }

  predicate TemplateIsNew(digest: DataSpec -> string, w: World, d: string, p: string)
    requires d in w.datasets && p in w.pods
  {
    DigestOf(w.pods[p]) == Some(digest(SpecOf(w.datasets[d].template))) ==>
      HasOwnData(w, d, p) && ReadyFor(w, w.datasets[d], p, w.datas[DataNameByPod(d, p)])
  }

  /** A digest on a selected pod that matches its Data's spec tells that the items are aligned, and so does one that
      matches the template, for the day the Data gets it. */
  ghost predicate Faithful(digest: DataSpec -> string, w: World) {
    && (forall n :: n in w.datas ==> DigestTells(digest, w, n))
    && (forall d, p :: d in w.datasets && p in Selected(w, d) ==> TemplateIsNew(digest, w, d, p))
  }

  lemma EntryKeepsStatus(ds: DataSet, pods: seq<string>, n: string, d: Data)
    requires Entry(ds, pods, n, Some(d)).Some?
    ensures var after := Entry(ds, pods, n, Some(d)).value;
            && after.status == d.status && after.labels == d.labels
            && (after.spec == d.spec || (BelongsTo(d, ds.name) && after.spec == SpecOf(ds.template)))
  {}

  lemma WrittenTells(digest: DataSpec -> string, w: World, d: string, n: string, after: Data)
    requires WellFormed(w) && Faithful(digest, w) && d in w.datasets && n in w.datas
    requires after.status == w.datas[n].status && after.labels == w.datas[n].labels
    requires after.spec == w.datas[n].spec
             || (BelongsTo(w.datas[n], d) && after.spec == SpecOf(w.datasets[d].template))
    ensures DigestTells(digest, w.(datas := w.datas[n := after]), n)
  {
    assert DigestTells(digest, w, n) && DataOk(w, n);
    if after.spec != w.datas[n].spec && PodNameOf(after) in Selected(w, d) {
      assert TemplateIsNew(digest, w, d, PodNameOf(after));
    }
  }

  lemma CreatedTells(digest: DataSpec -> string, w: World, d: string, n: string, p: string)
    requires WellFormed(w) && Faithful(digest, w) && d in w.datasets && n !in w.datas
    requires p in Selected(w, d) && HasSuffix(p) && n == DataNameByPod(d, p)
    ensures DigestTells(digest, w.(datas := w.datas[n := NewDataResource(w.datasets[d], p)]), n)
  {
    LabelsOfNew(w.datasets[d], p);
    assert TemplateIsNew(digest, w, d, p);
  }

  lemma DataSetPassTells(digest: DataSpec -> string, w: World, d: string, w': World, n: string)
    requires WellFormed(w) && Faithful(digest, w) && d in w.datasets && DataSetPassed(w, d, w')
    requires n in w'.datas
    ensures DigestTells(digest, w', n)
  {
    var ds, pods := w.datasets[d], PodsOf(w, d);
    assert Find(w'.datas, n) == Entry(ds, pods, n, Find(w.datas, n));
    if n in w.datas {
      EntryKeepsStatus(ds, pods, n, w.datas[n]);
      WrittenTells(digest, w, d, n, w'.datas[n]);
    } else {
      NamedByNames(ds, pods, n);
      var p := NamedBy(ds, pods, n).value;
      LabelsOfNew(ds, p);
      assert p in Selected(w, d);
      CreatedTells(digest, w, d, n, p);
    }
  }

  /** A pass leaves a Data of another DataSet as it is, and of one for a listed pod all but the spec. */
  lemma EntryOfOwn(ds: DataSet, pods: seq<string>, n: string, d: Data)
    requires BelongsTo(d, ds.name) ==> PodNameOf(d) in pods
    ensures var after := Entry(ds, pods, n, Some(d));
            && after.Some? && after.value.status == d.status && after.value.labels == d.labels
            && (after.value.spec == d.spec || (BelongsTo(d, ds.name) && after.value.spec == SpecOf(ds.template)))
  {}

  lemma WriteKeepsReady(w: World, e: string, v: World, p: string, before: Data, after: Data)
    requires e in w.datasets && e in v.datasets && v.datasets[e].template == w.datasets[e].template
    requires p in w.pods && v.pods == w.pods && v.bindings == w.bindings && ReadyFor(w, w.datasets[e], p, before)
    requires after.status == before.status
    requires after.spec == before.spec || after.spec == SpecOf(w.datasets[e].template)
    ensures ReadyFor(v, v.datasets[e], p, after)
  {}

  lemma DataSetPassIsNew(digest: DataSpec -> string, w: World, d: string, w': World, e: string, p: string)
    requires WellFormed(w) && Faithful(digest, w) && d in w.datasets && DataSetPassed(w, d, w')
    requires e in w.datasets && p in Selected(w, e)
    ensures TemplateIsNew(digest, w', e, p)
  {
    assert TemplateIsNew(digest, w, e, p);
    if DigestOf(w.pods[p]) == Some(digest(SpecOf(w.datasets[e].template))) {
      var ds, pods, n := w.datasets[d], PodsOf(w, d), DataNameByPod(e, p);
      assert Find(w'.datas, n) == Entry(ds, pods, n, Find(w.datas, n));
      NameTellsOwner(w, n, e, p);
      assert e == d ==> p in pods;
      EntryOfOwn(ds, pods, n, w.datas[n]);
      WriteKeepsReady(w, e, w', p, w.datas[n], w'.datas[n]);
    }
  }

  lemma ResultTells(digest: DataSpec -> string, d: Data, pod: Pod, bindings: set<string>, now: nat)
    requires DigestOf(pod) == Some(digest(d.spec)) ==>
               Aligned(d.status.items.Elems(), d.spec.dataItems.Elems())
    ensures var r := PassResult(digest, d, Some(pod), bindings, now);
            r.data.Some? ==>
              && r.data.value.spec == d.spec
              && (DigestOf(r.pod.value) == Some(digest(d.spec)) ==>
                    Aligned(r.data.value.status.items.Elems(), d.spec.dataItems.Elems()))
  {
    ResetIsRecounted(d.spec, now);
  }

  lemma OwnTells(digest: DataSpec -> string, w: World, n: string, now: nat)
    requires WellFormed(w) && n in w.datas && DigestTells(digest, w, n)
    requires n in DataPassOf(digest, w, n, now).datas && SameShape(w, DataPassOf(digest, w, n, now))
    ensures DigestTells(digest, DataPassOf(digest, w, n, now), n)
  {
    var d, v := w.datas[n], DataPassOf(digest, w, n, now);
    assert DataOk(w, n);
    ResultKeepsShape(digest, d, PodOf(w, d), w.bindings, now, n);
    if Owner(d) in w.datasets { ShapeKeepsSelected(w, v, Owner(d)); }
    if HasItsPod(w, n) {
      ResultTells(digest, d, w.pods[PodNameOf(d)], w.bindings, now);
    }
  }

  lemma DataPassTells(digest: DataSpec -> string, w: World, n: string, now: nat, m: string)
    requires WellFormed(w) && Faithful(digest, w) && n in w.datas
    requires m in DataPassOf(digest, w, n, now).datas
    ensures DigestTells(digest, DataPassOf(digest, w, n, now), m)
  {
    assert DigestTells(digest, w, m);
    PassKeepsShape(digest, w, OfData(n, now));
    if m == n {
      OwnTells(digest, w, n, now);
    } else {
      DataPassElsewhere(digest, w, n, now, m);
      if Owner(w.datas[m]) in w.datasets {
        ShapeKeepsSelected(w, DataPassOf(digest, w, n, now), Owner(w.datas[m]));
      }
    }
  }

  /** A pass leaves on the pod its own digest, or none, or, if it could not go on, what was there; and a digest only
      with its Data. */
  lemma ResultIsNew(digest: DataSpec -> string, d: Data, pod: Pod, bindings: set<string>, now: nat)
    requires Kept(d).Some?
    ensures var r := PassResult(digest, d, Some(pod), bindings, now);
            && r.pod.Some?
            && (DigestOf(r.pod.value) == Some(digest(d.spec)) || DigestOf(r.pod.value) == None
                || (DigestOf(r.pod.value) == DigestOf(pod)))
            && (DigestOf(r.pod.value).Some? ==>
                  r.data.Some? && r.data.value.spec == d.spec && r.data.value.labels == d.labels)
  {}

  lemma OwnIsNew(digest: DataSpec -> string, w: World, n: string, now: nat, e: string, p: string)
    requires Injective(digest)
    requires WellFormed(w) && n in w.datas && p == PodNameOf(w.datas[n])
    requires e in w.datasets && p in Selected(w, e) && TemplateIsNew(digest, w, e, p)
    ensures TemplateIsNew(digest, DataPassOf(digest, w, n, now), e, p)
  {
    assert DataOk(w, n);
    assert Owner(w.datas[n]) == e && n == DataNameByPod(e, p);
    ResultIsNew(digest, w.datas[n], w.pods[p], w.bindings, now);
  }

  lemma DataPassIsNew(digest: DataSpec -> string, w: World, n: string, now: nat, e: string, p: string)
    requires Injective(digest)
    requires WellFormed(w) && Faithful(digest, w) && n in w.datas
    requires e in w.datasets && p in Selected(w, e)
    ensures TemplateIsNew(digest, DataPassOf(digest, w, n, now), e, p)
  {
    var w', d := DataPassOf(digest, w, n, now), w.datas[n];
    assert TemplateIsNew(digest, w, e, p) && DataOk(w, n);
    if p == PodNameOf(d) {
      OwnIsNew(digest, w, n, now, e, p);
    } else {
      assert w'.pods[p] == w.pods[p];
      if DigestOf(w.pods[p]) == Some(digest(SpecOf(w.datasets[e].template))) {
        DataPassElsewhere(digest, w, n, now, DataNameByPod(e, p));
      }
    }
  }

  lemma PassKeepsFaithful(digest: DataSpec -> string, w: World, pass: PassId)
    requires Injective(digest)
    requires WellFormed(w) && Faithful(digest, w)
    ensures Faithful(digest, Do(digest, w, pass))
  {
    var w' := Do(digest, w, pass);
    PassKeepsShape(digest, w, pass);
    forall n | n in w'.datas
      ensures DigestTells(digest, w', n)
    {
      match pass
      case OfDataSet(d) =>
        if d in w.datasets { DataSetPassIs(w, d); DataSetPassTells(digest, w, d, w', n); }
      case OfData(m, now) => if m in w.datas { DataPassTells(digest, w, m, now, n); }
    }
    forall e, p | e in w'.datasets && p in Selected(w', e)
      ensures TemplateIsNew(digest, w', e, p)
    {
      ShapeKeepsSelected(w, w', e);
      match pass
      case OfDataSet(d) =>
        if d in w.datasets { DataSetPassIs(w, d); DataSetPassIsNew(digest, w, d, w', e, p); }
      case OfData(m, now) => if m in w.datas { DataPassIsNew(digest, w, m, now, e, p); }
    }
  }

  lemma {:induction false} AfterFaithful(digest: DataSpec -> string, w: World, schedule: nat -> PassId, steps: nat)
    requires Injective(digest)
    requires WellFormed(w) && Faithful(digest, w)
    ensures Faithful(digest, After(digest, w, schedule, steps))
  {
    if steps > 0 {
      AfterFaithful(digest, w, schedule, steps - 1);
      AfterWellFormed(digest, w, schedule, steps - 1);
      PassKeepsFaithful(digest, After(digest, w, schedule, steps - 1), schedule(steps - 1));
    }
  }

  // ---------- At rest ----------

  ghost predicate DataRests(digest: DataSpec -> string, w: World, n: string) {
    exists now: nat :: DataPassOf(digest, w, n, now) == w
  }

  /** No pass has anything to do. */
  ghost predicate NothingToDo(digest: DataSpec -> string, w: World) {
    && (forall d :: d in w.datasets ==> DataSetPass(w, d) == w)
    && (forall n :: n in w.datas ==> DataRests(digest, w, n))
  }

  /** The Data is marked, the reconciler is done with it, and it is left to the owners of its other finalizers. */
  predicate Waits(d: Data) {
    d.deleted && DATA_FINALIZER !in d.finalizers
  }

  /** The Data is live and kept, its role binding exists, its pod carries its digest, and its counters count. */
  predicate Delivered(digest: DataSpec -> string, w: World, n: string)
    requires n in w.datas
  {
    var d := w.datas[n];
    && PodNameOf(d) in w.pods && !d.deleted && DATA_FINALIZER in d.finalizers
    && DigestOf(w.pods[PodNameOf(d)]) == Some(digest(d.spec))
    && BindingName(w.pods[PodNameOf(d)].serviceAccount) in w.bindings
    && LatestStatus(d.spec, d.status) == d.status
  }

  predicate HasItsData(w: World, d: string, p: string)
    requires d in w.datasets
  {
    Served(w, d, p)
    && (PodNameOf(w.datas[DataNameByPod(d, p)]) == p || Waits(w.datas[DataNameByPod(d, p)]))
  }

  ghost predicate Reported(w: World, d: string)
    requires d in w.datasets
  {
    w.datasets[d].status == StatusOf(w.datasets[d], PodsOf(w, d), w.datas)
  }

  /** Every selected pod has its one Data with the template's spec, a DataSet has no others but those that wait, and the
      DataSets report them. */
  ghost predicate Converged(digest: DataSpec -> string, w: World) {
    && (forall n :: n in w.datas && Owner(w.datas[n]) in w.datasets ==>
          Waits(w.datas[n]) || (Delivered(digest, w, n) && HasItsPod(w, n)))
    && (forall d, p :: d in w.datasets && p in Selected(w, d) ==> HasItsData(w, d, p))
    && (forall d :: d in w.datasets ==> Reported(w, d))
  }

  lemma RestingResult(digest: DataSpec -> string, w: World, n: string, now: nat)
    requires n in w.datas && DataPassOf(digest, w, n, now) == w
    ensures PassResult(digest, w.datas[n], PodOf(w, w.datas[n]), w.bindings, now).data == Some(w.datas[n])
    ensures PassResult(digest, w.datas[n], PodOf(w, w.datas[n]), w.bindings, now).bindings == w.bindings
    ensures PodOf(w, w.datas[n]).Some? ==>
              PassResult(digest, w.datas[n], PodOf(w, w.datas[n]), w.bindings, now).pod == PodOf(w, w.datas[n])
  {
    var d := w.datas[n];
    var r := PassResult(digest, d, PodOf(w, d), w.bindings, now);
    var w' := DataPassOf(digest, w, n, now);
    assert n in w'.datas;
    assert r.data.Some? && w'.datas[n] == r.data.value;
    if PodOf(w, d).Some? {
      assert w'.pods[PodNameOf(d)] == r.pod.value;
    }
  }

  lemma RestingIsReleased(digest: DataSpec -> string, d: Data, bindings: set<string>, now: nat)
    requires PassResult(digest, d, None, bindings, now).data == Some(d)
    ensures DATA_FINALIZER !in d.finalizers
  {
    assert Kept(d.(finalizers := d.finalizers - {DATA_FINALIZER})) == Some(d);
  }

  lemma EntryOfOrphan(ds: DataSet, pods: seq<string>, n: string, d: Data)
    requires BelongsTo(d, ds.name) && PodNameOf(d) !in pods
    ensures Entry(ds, pods, n, Some(d)).Some? ==> Entry(ds, pods, n, Some(d)).value.deleted
  {}

  lemma NoOrphanRests(w: World, n: string)
    requires WellFormed(w) && n in w.datas
    requires Owner(w.datas[n]) in w.datasets && DataSetPassed(w, Owner(w.datas[n]), w)
    ensures w.datas[n].deleted || HasItsPod(w, n)
  {
    var d, e := w.datas[n], Owner(w.datas[n]);
    assert DataOk(w, n);
    assert Find(w.datas, n) == Entry(w.datasets[e], PodsOf(w, e), n, Find(w.datas, n));
    if PodNameOf(d) !in PodsOf(w, e) {
      EntryOfOrphan(w.datasets[e], PodsOf(w, e), n, d);
    }
  }

  lemma RestingDelivers(digest: DataSpec -> string, d: Data, pod: Pod, bindings: set<string>, now: nat)
    requires DATA_FINALIZER in d.finalizers || !d.deleted
    requires var r := PassResult(digest, d, Some(pod), bindings, now);
             r.data == Some(d) && r.pod == Some(pod) && r.bindings == bindings
    ensures !d.deleted && DATA_FINALIZER in d.finalizers && BindingName(pod.serviceAccount) in bindings
    ensures DigestOf(pod) == Some(digest(d.spec)) && LatestStatus(d.spec, d.status) == d.status
  {
    var r := PassResult(digest, d, Some(pod), bindings, now);
    assert BindingName(pod.serviceAccount) in r.bindings;
    if !d.deleted {
      assert DATA_FINALIZER in r.data.value.finalizers;
      assert r.pod.value == Tagged(pod, digest(d.spec));
    }
  }

  /** At rest, a Data of a DataSet is live and its pod selected, unless it waits. */
  lemma RestsSelected(digest: DataSpec -> string, w: World, n: string)
    requires WellFormed(w) && NothingToDo(digest, w) && n in w.datas
    requires Owner(w.datas[n]) in w.datasets && !Waits(w.datas[n])
    ensures !w.datas[n].deleted && HasItsPod(w, n)
  {
    var d := w.datas[n];
    assert DataOk(w, n) && DataRests(digest, w, n);
    var now: nat :| DataPassOf(digest, w, n, now) == w;
    RestingResult(digest, w, n, now);
    if PodNameOf(d) !in w.pods {
      RestingIsReleased(digest, d, w.bindings, now);
    } else {
      RestingDelivers(digest, d, w.pods[PodNameOf(d)], w.bindings, now);
    }
    DataSetPassIs(w, Owner(d));
    NoOrphanRests(w, n);
  }

  lemma RestingIsDelivered(digest: DataSpec -> string, w: World, n: string)
    requires WellFormed(w) && NothingToDo(digest, w) && n in w.datas
    requires Owner(w.datas[n]) in w.datasets && !Waits(w.datas[n])
    ensures Delivered(digest, w, n) && HasItsPod(w, n)
  {
    var d := w.datas[n];
    RestsSelected(digest, w, n);
    assert DataOk(w, n) && DataRests(digest, w, n);
    var now: nat :| DataPassOf(digest, w, n, now) == w;
    RestingResult(digest, w, n, now);
    RestingDelivers(digest, d, w.pods[PodNameOf(d)], w.bindings, now);
  }

  /** A name that a pass leaves as it is, although a listed pod's Data is to have it, holds the template's spec. */
  lemma EntryOfNamed(ds: DataSet, pods: seq<string>, n: string, p: string, before: Option<Data>)
    requires NamedBy(ds, pods, n) == Some(p) && p in pods && HasSuffix(p) && Entry(ds, pods, n, before) == before
    ensures before.Some? && (BelongsTo(before.value, ds.name) ==> before.value.spec == SpecOf(ds.template))
  {
    LabelsOfNew(ds, p);
  }

  /** A Data that has the name of a selected pod's Data and whose pod is selected is for that pod. */
  lemma NamedPod(w: World, n: string, d: string, p: string)
    requires WellFormed(w) && n in w.datas && d in w.datasets && p in Selected(w, d)
    requires HasSuffix(p) && n == DataNameByPod(d, p) && PodNameOf(w.datas[n]) in Selected(w, d)
    ensures BelongsTo(w.datas[n], d) && PodNameOf(w.datas[n]) == p
  {
    NameTellsOwner(w, n, d, p);
    assert DataOk(w, n);
  }

  lemma RestingIsServed(digest: DataSpec -> string, w: World, d: string, p: string)
    requires WellFormed(w) && NothingToDo(digest, w) && d in w.datasets && p in Selected(w, d)
    ensures HasItsData(w, d, p)
  {
    var ds, pods, n := w.datasets[d], PodsOf(w, d), DataNameByPod(d, p);
    DataSetPassIs(w, d);
    assert Find(w.datas, n) == Entry(ds, pods, n, Find(w.datas, n));
    PodListOk(w, d);
    NamedOnlyBy(ds, pods, p);
    EntryOfNamed(ds, pods, n, p, Find(w.datas, n));
    NameTellsOwner(w, n, d, p);
    if !Waits(w.datas[n]) {
      RestsSelected(digest, w, n);
      NamedPod(w, n, d, p);
    }
  }

  lemma RestingIsReported(digest: DataSpec -> string, w: World, d: string)
    requires NothingToDo(digest, w) && d in w.datasets
    ensures Reported(w, d)
  {
    DataSetPassIs(w, d);
    assert Target(w.datasets[d], PodsOf(w, d), w.datas) == DataSetPass(w, d).datas;
  }

  lemma RestingIsConverged(digest: DataSpec -> string, w: World)
    requires WellFormed(w) && NothingToDo(digest, w)
    ensures Converged(digest, w)
  {
    forall n | n in w.datas && Owner(w.datas[n]) in w.datasets && !Waits(w.datas[n])
      ensures Delivered(digest, w, n) && HasItsPod(w, n)
    {
      RestingIsDelivered(digest, w, n);
    }
    forall d, p | d in w.datasets && p in Selected(w, d)
      ensures HasItsData(w, d, p)
    {
      RestingIsServed(digest, w, d, p);
    }
    forall d | d in w.datasets
      ensures Reported(w, d)
    {
      RestingIsReported(digest, w, d);
    }
  }

  /** The Data of each selected pod has the template's items, lifecycle and sources. */
  lemma ConvergedHasTemplate(digest: DataSpec -> string, w: World, d: string, p: string)
    requires WellFormed(w) && Converged(digest, w) && d in w.datasets && p in Selected(w, d)
    ensures HasSuffix(p) && DataNameByPod(d, p) in w.datas
    ensures HasTemplate(w.datas[DataNameByPod(d, p)].spec, w.datasets[d].template)
  {
    assert HasItsData(w, d, p);
  }

  /** What is delivered to the pods is what the Data ask for: their items are those of their specs, in order. */
  predicate AllAligned(w: World) {
    forall n :: n in w.datas && Owner(w.datas[n]) in w.datasets && !Waits(w.datas[n]) ==>
      Aligned(w.datas[n].status.items.Elems(), w.datas[n].spec.dataItems.Elems())
  }

  lemma FaithfulIsAligned(digest: DataSpec -> string, w: World)
    requires Faithful(digest, w) && Converged(digest, w)
    ensures AllAligned(w)
  {
    forall n | n in w.datas && Owner(w.datas[n]) in w.datasets && !Waits(w.datas[n])
      ensures Aligned(w.datas[n].status.items.Elems(), w.datas[n].spec.dataItems.Elems())
    {
      assert Delivered(digest, w, n) && HasItsPod(w, n) && DigestTells(digest, w, n);
    }
  }

  // ---------- Fair schedules ----------

  ghost predicate DataSetTurnFrom(schedule: nat -> PassId, d: string, k: nat) {
    exists m: nat :: m >= k && schedule(m) == OfDataSet(d)
  }

  ghost predicate DataTurnFrom(digest: DataSpec -> string, w: World, schedule: nat -> PassId, n: string, k: nat) {
    exists m: nat :: m >= k && ((schedule(m).OfData? && schedule(m).data == n)
                                || n !in After(digest, w, schedule, m).datas)
  }

  /** Every DataSet gets its turn again and again, and so does every Data for as long as it is stored. */
  ghost predicate Fair(digest: DataSpec -> string, w: World, schedule: nat -> PassId) {
    && (forall d, k: nat :: d in w.datasets ==> DataSetTurnFrom(schedule, d, k))
    && (forall n, k: nat :: DataTurnFrom(digest, w, schedule, n, k))
  }

  lemma {:induction false} AfterKeepsDataSets(digest: DataSpec -> string, w: World, schedule: nat -> PassId, steps: nat)
    ensures After(digest, w, schedule, steps).datasets.Keys == w.datasets.Keys
  {
    if steps > 0 {
      AfterKeepsDataSets(digest, w, schedule, steps - 1);
      PassKeepsShape(digest, After(digest, w, schedule, steps - 1), schedule(steps - 1));
    }
  }

  lemma NothingMoves(digest: DataSpec -> string, w: World, schedule: nat -> PassId, n: nat, m: nat)
    requires RestsFrom(digest, w, schedule, n) && m >= n
    ensures After(digest, w, schedule, m) == After(digest, w, schedule, n)
    ensures Do(digest, After(digest, w, schedule, n), schedule(m)) == After(digest, w, schedule, n)
  {
    assert After(digest, w, schedule, m + 1) == Do(digest, After(digest, w, schedule, m), schedule(m));
  }

  lemma TurnRests(digest: DataSpec -> string, w: World, schedule: nat -> PassId, n: nat, name: string)
    requires Fair(digest, w, schedule) && RestsFrom(digest, w, schedule, n)
    requires name in After(digest, w, schedule, n).datas
    ensures DataRests(digest, After(digest, w, schedule, n), name)
  {
    assert DataTurnFrom(digest, w, schedule, name, n);
    var m: nat :| m >= n && ((schedule(m).OfData? && schedule(m).data == name)
                             || name !in After(digest, w, schedule, m).datas);
    NothingMoves(digest, w, schedule, n, m);
    assert DataPassOf(digest, After(digest, w, schedule, n), name, schedule(m).now) == After(digest, w, schedule, n);
  }

  lemma FairRests(digest: DataSpec -> string, w: World, schedule: nat -> PassId, n: nat)
    requires Fair(digest, w, schedule) && RestsFrom(digest, w, schedule, n)
    ensures NothingToDo(digest, After(digest, w, schedule, n))
  {
    var v := After(digest, w, schedule, n);
    AfterKeepsDataSets(digest, w, schedule, n);
    forall d | d in v.datasets
      ensures DataSetPass(v, d) == v
    {
      assert DataSetTurnFrom(schedule, d, n);
      var m: nat :| m >= n && schedule(m) == OfDataSet(d);
      NothingMoves(digest, w, schedule, n, m);
    }
    forall name | name in v.datas
      ensures DataRests(digest, v, name)
    {
      TurnRests(digest, w, schedule, n, name);
    }
  }

  // ---------- Convergence ----------

  /** Nobody but the reconciler has put finalizers on the Data. */
  predicate OwnFinalizers(w: World) {
    forall n :: n in w.datas ==> w.datas[n].finalizers <= {DATA_FINALIZER}
  }

  lemma PassKeepsOwnFinalizers(digest: DataSpec -> string, w: World, pass: PassId)
    requires OwnFinalizers(w)
    ensures OwnFinalizers(Do(digest, w, pass))
  {
    forall n | n in Do(digest, w, pass).datas
      ensures Do(digest, w, pass).datas[n].finalizers <= {DATA_FINALIZER}
    {
      if pass.OfDataSet? && pass.dataSet in w.datasets {
        TargetFind(w.datasets[pass.dataSet], PodsOf(w, pass.dataSet), w.datas, n);
      }
    }
  }

  lemma {:induction false} AfterKeepsOwnFinalizers(digest: DataSpec -> string, w: World, schedule: nat -> PassId,
                                                   steps: nat)
    requires OwnFinalizers(w)
    ensures OwnFinalizers(After(digest, w, schedule, steps))
  {
    if steps > 0 {
      AfterKeepsOwnFinalizers(digest, w, schedule, steps - 1);
      PassKeepsOwnFinalizers(digest, After(digest, w, schedule, steps - 1), schedule(steps - 1));
    }
  }

  ghost predicate NoneWaits(w: World) {
    forall n :: n in w.datas ==> !Waits(w.datas[n])
  }

  lemma OwnFinalizersNeverWait(w: World)
    requires WellFormed(w) && OwnFinalizers(w)
    ensures NoneWaits(w)
  {
    forall n | n in w.datas
      ensures !Waits(w.datas[n])
    {
      assert DataOk(w, n);
    }
  }

  /** Convergence: with pods and templates fixed and no failures, every fair schedule of the two reconcilers comes to
      rest, where every selected pod has exactly its Data, with the template's spec, counters that count its items,
      digest, role binding and finalizer, and the DataSets report them.  Data that others still hold by their
      finalizers wait, and may keep a name from its pod; without such finalizers none does.  And if the digests told
      the truth at the start, the items are those of the spec in the end. */
  lemma Converges(digest: DataSpec -> string, w: World, schedule: nat -> PassId) returns (n: nat)
    requires WellFormed(w) && Fair(digest, w, schedule)
    ensures RestsFrom(digest, w, schedule, n)
    ensures Converged(digest, After(digest, w, schedule, n))
    ensures OwnFinalizers(w) ==> NoneWaits(After(digest, w, schedule, n))
    ensures Injective(digest) && Faithful(digest, w) ==> AllAligned(After(digest, w, schedule, n))
  {
    n := ComesToRest(digest, w, schedule);
    AfterWellFormed(digest, w, schedule, n);
    FairRests(digest, w, schedule, n);
    RestingIsConverged(digest, After(digest, w, schedule, n));
    if OwnFinalizers(w) {
      AfterKeepsOwnFinalizers(digest, w, schedule, n);
      OwnFinalizersNeverWait(After(digest, w, schedule, n));
    }
    if Injective(digest) && Faithful(digest, w) {
      AfterFaithful(digest, w, schedule, n);
      FaithfulIsAligned(digest, After(digest, w, schedule, n));
    }
  }

  /** The Data of a DataSet's pods all of whose items have arrived. */
  ghost function ArrivedNames(w: World, d: string): set<string>
    requires d in w.datasets
  {
    set n | n in WantedNames(w.datasets[d], PodsOf(w, d)) && n in w.datas
            && AllIn(w.datas[n].status.items.Elems(), Success)
  }

  function NamesFor(d: string, pods: set<string>): set<string> {
    set p | p in pods && HasSuffix(p) :: DataNameByPod(d, p)
  }

  lemma OneNameLess(d: string, pods: set<string>, p: string)
    requires Distinct(pods) && p in pods
    ensures HasSuffix(p) && DataNameByPod(d, p) !in NamesFor(d, pods - {p})
    ensures NamesFor(d, pods) == NamesFor(d, pods - {p}) + {DataNameByPod(d, p)}
  {
    forall q | q in pods - {p} && HasSuffix(q)
      ensures DataNameByPod(d, q) != DataNameByPod(d, p)
    {
      SuffixesDecode(d, q, d, p);
    }
  }

  /** Pods with distinct suffixes have distinct Data names. */
  lemma {:induction false} DistinctNames(d: string, pods: set<string>)
    requires Distinct(pods)
    ensures |NamesFor(d, pods)| == |pods|
    decreases pods
  {
    if pods == {} {
      assert NamesFor(d, pods) == {};
    } else {
      var p :| p in pods;
      DistinctNames(d, pods - {p});
      OneNameLess(d, pods, p);
    }
  }

  lemma WantedPerPod(w: World, d: string)
    requires PodsOk(w) && d in w.datasets
    ensures |WantedNames(w.datasets[d], PodsOf(w, d))| == |Selected(w, d)|
  {
    DistinctNames(d, Selected(w, d));
    assert WantedNames(w.datasets[d], PodsOf(w, d)) == NamesFor(d, Selected(w, d));
  }

  lemma KeptIsSelected(digest: DataSpec -> string, w: World, d: string, n: string)
    requires WellFormed(w) && Converged(digest, w) && NoneWaits(w) && d in w.datasets
    ensures n in KeptNames(w.datasets[d], PodsOf(w, d), w.datas) <==> n in WantedNames(w.datasets[d], PodsOf(w, d))
  {
    if n in KeptNames(w.datasets[d], PodsOf(w, d), w.datas) {
      assert DataOk(w, n) && HasItsPod(w, n);
      assert n == DataNameByPod(d, PodNameOf(w.datas[n]));
    }
    if n in WantedNames(w.datasets[d], PodsOf(w, d)) {
      var p :| p in Selected(w, d) && HasSuffix(p) && DataNameByPod(d, p) == n;
      assert HasItsData(w, d, p);
      NameTellsOwner(w, n, d, p);
    }
  }

  lemma KeptAreSelected(digest: DataSpec -> string, w: World, d: string)
    requires WellFormed(w) && Converged(digest, w) && NoneWaits(w) && d in w.datasets
    ensures KeptNames(w.datasets[d], PodsOf(w, d), w.datas) == WantedNames(w.datasets[d], PodsOf(w, d))
  {
    forall n
      ensures n in KeptNames(w.datasets[d], PodsOf(w, d), w.datas) <==> n in WantedNames(w.datasets[d], PodsOf(w, d))
    {
      KeptIsSelected(digest, w, d, n);
    }
  }

  lemma KeptHasSpec(digest: DataSpec -> string, w: World, d: string, n: string)
    requires WellFormed(w) && Converged(digest, w) && NoneWaits(w) && AllAligned(w) && d in w.datasets
    requires n in KeptNames(w.datasets[d], PodsOf(w, d), w.datas)
    ensures IsCounted(w.datas[n], w.datasets[d])
  {
    assert DataOk(w, n) && HasItsPod(w, n) && Delivered(digest, w, n) && !Waits(w.datas[n]);
    assert HasItsData(w, d, PodNameOf(w.datas[n]));
  }

  lemma SuccessIsArrived(digest: DataSpec -> string, w: World, d: string)
    requires WellFormed(w) && Converged(digest, w) && NoneWaits(w) && AllAligned(w) && d in w.datasets
    requires KeptNames(w.datasets[d], PodsOf(w, d), w.datas) == WantedNames(w.datasets[d], PodsOf(w, d))
    ensures SuccessNames(w.datasets[d], PodsOf(w, d), w.datas) == ArrivedNames(w, d)
  {
    var ds, pods := w.datasets[d], PodsOf(w, d);
    forall n | n in KeptNames(ds, pods, w.datas)
      ensures IsCounted(w.datas[n], ds)
    {
      KeptHasSpec(digest, w, d, n);
    }
    SuccessIsAllItems(ds, pods, w.datas);
  }

  /** Where the passes have converged, the DataSet counts its pods, and, if the items are those of the specs, those
      pods all of whose items have arrived. */
  lemma ConvergedCounts(digest: DataSpec -> string, w: World, d: string)
    requires WellFormed(w) && Converged(digest, w) && NoneWaits(w) && d in w.datasets
    ensures var status := w.datasets[d].status;
            && status.dataItems == |w.datasets[d].template.dataItems.Elems()|
            && status.replicas == |Selected(w, d)| && status.successReplicas <= status.replicas
            && Shows(status.ready, status.successReplicas, status.replicas)
            && (AllAligned(w) ==> status.successReplicas == |ArrivedNames(w, d)|)
  {
    var ds, pods := w.datasets[d], PodsOf(w, d);
    KeptAreSelected(digest, w, d);
    WantedPerPod(w, d);
    assert Reported(w, d);
    SubsetSize(SuccessNames(ds, pods, w.datas), KeptNames(ds, pods, w.datas));
    ReadyReads(|SuccessNames(ds, pods, w.datas)|, |KeptNames(ds, pods, w.datas)|);
    if AllAligned(w) {
      SuccessIsArrived(digest, w, d);
    }
  }
}
