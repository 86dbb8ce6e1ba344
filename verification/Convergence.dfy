/** With pods and templates fixed and no failures, the passes of the two reconcilers come to rest in any order,
    and at rest every pod has its Data. */
module Convergence {
  import opened Types
  import opened Status
  import opened Names
  import opened Server
  import opened DataPass
  import opened Sync
  import opened World

  // ---------- What is left to do ----------

  /** A live Data that its DataSet would not have: the pod is gone, or no longer selected. */
  predicate IsOrphan(w: World, d: Data) {
    !d.deleted && Owner(d) in w.datasets && PodNameOf(d) !in Selected(w, Owner(d))
  }

  ghost function Orphans(w: World): set<string> {
    set n | n in w.datas && IsOrphan(w, w.datas[n])
  }

  ghost function Leaving(w: World): set<string> {
    set n | n in w.datas && DATA_FINALIZER in w.datas[n].finalizers
            && (w.datas[n].deleted || PodNameOf(w.datas[n]) !in w.pods)
  }

  predicate Served(w: World, d: string, p: string)
    requires d in w.datasets
  {
    HasSuffix(p) && DataNameByPod(d, p) in w.datas
    && w.datas[DataNameByPod(d, p)].spec == SpecOf(w.datasets[d].template)
  }

  ghost predicate Unserved(w: World, p: string) {
    exists d :: d in w.datasets && p in Selected(w, d) && !Served(w, d, p)
  }

  ghost function Unmet(w: World): set<string> {
    set p | p in w.pods && Unserved(w, p)
  }

  ghost function Unbound(w: World): set<string> {
    set p | p in w.pods && BindingName(w.pods[p].serviceAccount) !in w.bindings
  }

  ghost function Undigested(digest: DataSpec -> string, w: World): set<string> {
    set n | n in w.datas && PodNameOf(w.datas[n]) in w.pods
            && DigestOf(w.pods[PodNameOf(w.datas[n])]) != Some(digest(w.datas[n].spec))
  }

  ghost function FinalizerMissing(w: World): set<string> {
    set n | n in w.datas && PodNameOf(w.datas[n]) in w.pods && !w.datas[n].deleted
            && DATA_FINALIZER !in w.datas[n].finalizers
  }

  ghost function Uncounted(w: World): set<string> {
    set n | n in w.datas && PodNameOf(w.datas[n]) in w.pods
            && LatestStatus(w.datas[n].spec, w.datas[n].status) != w.datas[n].status
  }

  ghost function Unreported(w: World): set<string> {
    set d | d in w.datasets && w.datasets[d].status != TargetStatus(w.datasets[d], PodsOf(w, d), w.datas)
  }

  /** What is left to do, the most urgent first. */
  datatype Todo =
    Todo(orphans: set<string>, leaving: set<string>, unmet: set<string>, unbound: set<string>, undigested: set<string>,
         unfinalized: set<string>, uncounted: set<string>, unreported: set<string>)

  ghost function TodoOf(digest: DataSpec -> string, w: World): Todo {
    Todo(Orphans(w), Leaving(w), Unmet(w), Unbound(w), Undigested(digest, w), FinalizerMissing(w), Uncounted(w),
         Unreported(w))
  }

  /** Something got less, and nothing more urgent grew. */
  predicate Less(a: Todo, b: Todo) {
    a.orphans < b.orphans || (a.orphans <= b.orphans && (
    a.leaving < b.leaving || (a.leaving <= b.leaving && (
    a.unmet < b.unmet || (a.unmet <= b.unmet && (
    a.unbound < b.unbound || (a.unbound <= b.unbound && (
    a.undigested < b.undigested || (a.undigested <= b.undigested && (
    a.unfinalized < b.unfinalized || (a.unfinalized <= b.unfinalized && (
    a.uncounted < b.uncounted || (a.uncounted <= b.uncounted &&
    a.unreported < b.unreported)))))))))))))
  }

  // ---------- DataSet passes ----------

  /** A DataSet pass, name by name. */
  ghost predicate DataSetPassed(w: World, d: string, w': World)
    requires d in w.datasets
  {
    && w'.pods == w.pods && w'.bindings == w.bindings
    && d in w'.datasets && w'.datasets == w.datasets[d := w.datasets[d].(status := w'.datasets[d].status)]
    && forall n :: Find(w'.datas, n) == Entry(w.datasets[d], PodsOf(w, d), n, Find(w.datas, n))
  }

  lemma DataSetPassIs(w: World, d: string)
    requires d in w.datasets
    ensures DataSetPassed(w, d, DataSetPass(w, d))
    ensures DataSetPass(w, d).datasets[d].status == TargetStatus(w.datasets[d], PodsOf(w, d), w.datas)
  {
    forall n
      ensures Find(DataSetPass(w, d).datas, n) == Entry(w.datasets[d], PodsOf(w, d), n, Find(w.datas, n))
    {
      TargetFind(w.datasets[d], PodsOf(w, d), w.datas, n);
    }
  }

  lemma PassedKeepsSelected(w: World, d: string, w': World, e: string)
    requires d in w.datasets && DataSetPassed(w, d, w') && e in w.datasets
    ensures Selected(w', e) == Selected(w, e) && PodsOf(w', e) == PodsOf(w, e)
  {}

  lemma OrphansFall(w: World, d: string, w': World, n: string)
    requires WellFormed(w) && d in w.datasets && DataSetPassed(w, d, w')
    requires n in Orphans(w')
    ensures n in Orphans(w) && !BelongsTo(w.datas[n], d)
  {
    var ds, pods := w.datasets[d], PodsOf(w, d);
    assert Find(w'.datas, n) == Entry(ds, pods, n, Find(w.datas, n));
    assert n in w.datas ==> DataOk(w, n);
    EntryKeepsShape(ds, pods, n, Find(w.datas, n));
  }

  /** No live Data of the DataSet is an orphan. */
  ghost predicate NoOrphan(w: World, d: string) {
    forall n :: n in Orphans(w) ==> !BelongsTo(w.datas[n], d)
  }

  /** ... so that a pass only writes specs and creates. */
  lemma EntryIsUpdated(w: World, d: string, n: string)
    requires WellFormed(w) && d in w.datasets && NoOrphan(w, d)
    ensures Entry(w.datasets[d], PodsOf(w, d), n, Find(w.datas, n))
         == Updated(w.datasets[d], PodsOf(w, d), n, Find(w.datas, n))
  {
    var ds, pods := w.datasets[d], PodsOf(w, d);
    NamedByNames(ds, pods, n);
    if NamedBy(ds, pods, n).Some? {
      LabelsOfNew(ds, NamedBy(ds, pods, n).value);
    }
    if n in w.datas {
      assert DataOk(w, n);
    }
  }

  lemma LeavingStays(w: World, d: string, w': World, n: string)
    requires WellFormed(w) && d in w.datasets && DataSetPassed(w, d, w') && NoOrphan(w, d)
    requires n in Leaving(w')
    ensures n in Leaving(w)
  {
    assert Find(w'.datas, n) == Entry(w.datasets[d], PodsOf(w, d), n, Find(w.datas, n));
    EntryIsUpdated(w, d, n);
  }

  lemma PassServes(w: World, d: string, w': World, p: string)
    requires WellFormed(w) && d in w.datasets && DataSetPassed(w, d, w') && NoOrphan(w, d)
    requires p in Selected(w, d)
    ensures Served(w', d, p)
  {
    var ds, pods, n := w.datasets[d], PodsOf(w, d), DataNameByPod(d, p);
    PodListOk(w, d);
    NamedOnlyBy(ds, pods, p);
    assert Find(w'.datas, n) == Entry(ds, pods, n, Find(w.datas, n));
    EntryIsUpdated(w, d, n);
    if n in w.datas {
      NameTellsOwner(w, n, d, p);
    }
  }

  lemma OthersServed(w: World, d: string, w': World, e: string, p: string)
    requires WellFormed(w) && d in w.datasets && DataSetPassed(w, d, w')
    requires e in w.datasets && e != d && Served(w, e, p)
    ensures Served(w', e, p)
  {
    var n := DataNameByPod(e, p);
    assert Find(w'.datas, n) == Entry(w.datasets[d], PodsOf(w, d), n, Find(w.datas, n));
    NameTellsOwner(w, n, e, p);
  }

  lemma UnmetFalls(w: World, d: string, w': World, p: string)
    requires WellFormed(w) && d in w.datasets && DataSetPassed(w, d, w') && NoOrphan(w, d)
    requires p in Unmet(w')
    ensures p in Unmet(w) && p !in Selected(w, d)
  {
    var e :| e in w'.datasets && p in Selected(w', e) && !Served(w', e, p);
    PassedKeepsSelected(w, d, w', e);
    if e == d {
      PassServes(w, d, w', p);
    } else if Served(w, e, p) {
      OthersServed(w, d, w', e, p);
    }
    if p in Selected(w, d) {
      PassServes(w, d, w', p);
    }
  }

  /** With every pod served and no orphan there is nothing to write but the status. */
  lemma NothingToWrite(w: World, d: string, w': World)
    requires WellFormed(w) && d in w.datasets && DataSetPassed(w, d, w') && NoOrphan(w, d)
    requires forall p :: p in Selected(w, d) ==> Served(w, d, p)
    ensures w'.datas == w.datas
  {
    var ds, pods := w.datasets[d], PodsOf(w, d);
    forall n
      ensures Find(w'.datas, n) == Find(w.datas, n)
    {
      assert Find(w'.datas, n) == Entry(ds, pods, n, Find(w.datas, n));
      EntryIsUpdated(w, d, n);
      NamedByNames(ds, pods, n);
      if NamedBy(ds, pods, n).Some? {
        assert Served(w, d, NamedBy(ds, pods, n).value);
      }
    }
    SameFinds(w'.datas, w.datas);
  }

  lemma SameUnmet(w: World, d: string, w': World)
    requires d in w.datasets && DataSetPassed(w, d, w') && w'.datas == w.datas
    ensures Unmet(w') == Unmet(w)
  {
    forall p | p in w.pods
      ensures Unserved(w', p) <==> Unserved(w, p)
    {
      forall e | e in w.datasets
        ensures p in Selected(w', e) && !Served(w', e, p) <==> p in Selected(w, e) && !Served(w, e, p)
      {
        PassedKeepsSelected(w, d, w', e);
      }
    }
  }

  lemma SameOrphans(w: World, d: string, w': World)
    requires d in w.datasets && DataSetPassed(w, d, w') && w'.datas == w.datas
    ensures Orphans(w') == Orphans(w)
  {
    forall n | n in w.datas
      ensures IsOrphan(w', w.datas[n]) <==> IsOrphan(w, w.datas[n])
    {
      if Owner(w.datas[n]) in w.datasets { PassedKeepsSelected(w, d, w', Owner(w.datas[n])); }
    }
  }

  lemma SameButReports(digest: DataSpec -> string, w: World, w': World)
    requires w'.datas == w.datas && w'.pods == w.pods && w'.bindings == w.bindings && Orphans(w') == Orphans(w)
    ensures TodoOf(digest, w') == TodoOf(digest, w).(unmet := Unmet(w'), unreported := Unreported(w'))
  {}

  lemma ReportedFalls(w: World, d: string, w': World)
    requires d in w.datasets && DataSetPassed(w, d, w') && w'.datas == w.datas
    requires w'.datasets[d].status == TargetStatus(w.datasets[d], PodsOf(w, d), w.datas) != w.datasets[d].status
    ensures Unreported(w') < Unreported(w)
  {
    forall e | e in w.datasets
      ensures e in Unreported(w') <==> e in Unreported(w) && e != d
    {
      PassedKeepsSelected(w, d, w', e);
      if e == d {
        StatusIsIrrelevant(w.datasets[d], PodsOf(w, d), w.datas, w'.datasets[d].status);
      }
    }
    assert d in Unreported(w) && d !in Unreported(w');
  }

  lemma ServedIsLess(w: World, d: string, w': World)
    requires WellFormed(w) && d in w.datasets && DataSetPassed(w, d, w') && NoOrphan(w, d)
    requires exists p :: p in Selected(w, d) && !Served(w, d, p)
    ensures Unmet(w') < Unmet(w)
  {
    forall p | p in Unmet(w')
      ensures p in Unmet(w) && p !in Selected(w, d)
    {
      UnmetFalls(w, d, w', p);
    }
    var p :| p in Selected(w, d) && !Served(w, d, p);
    assert Unserved(w, p) && p in Unmet(w) && p !in Unmet(w');
  }

  lemma ReportLowers(digest: DataSpec -> string, w: World, d: string, w': World)
    requires WellFormed(w) && d in w.datasets && DataSetPassed(w, d, w') && w' != w && NoOrphan(w, d)
    requires w'.datasets[d].status == TargetStatus(w.datasets[d], PodsOf(w, d), w.datas)
    requires forall p :: p in Selected(w, d) ==> Served(w, d, p)
    ensures Less(TodoOf(digest, w'), TodoOf(digest, w))
  {
    NothingToWrite(w, d, w');
    SameUnmet(w, d, w');
    SameOrphans(w, d, w');
    SameButReports(digest, w, w');
    ReportedFalls(w, d, w');
  }

  lemma DataSetPassLowers(digest: DataSpec -> string, w: World, d: string, w': World)
    requires WellFormed(w) && d in w.datasets && DataSetPassed(w, d, w') && w' != w
    requires w'.datasets[d].status == TargetStatus(w.datasets[d], PodsOf(w, d), w.datas)
    ensures Less(TodoOf(digest, w'), TodoOf(digest, w))
  {
    forall n | n in Orphans(w')
      ensures n in Orphans(w) && !BelongsTo(w.datas[n], d)
    {
      OrphansFall(w, d, w', n);
    }
    if !NoOrphan(w, d) {
      var n :| n in Orphans(w) && BelongsTo(w.datas[n], d);
      assert n !in Orphans(w');
    } else {
      forall n | n in Leaving(w') ensures n in Leaving(w) { LeavingStays(w, d, w', n); }
      if exists p :: p in Selected(w, d) && !Served(w, d, p) {
        ServedIsLess(w, d, w');
      } else {
        ReportLowers(digest, w, d, w');
      }
    }
  }

  // ---------- Data passes ----------

  /** A pass for an existing Data, in the terms of its result. */
  lemma DataPassElsewhere(digest: DataSpec -> string, w: World, n: string, now: nat, m: string)
    requires WellFormed(w) && n in w.datas && m != n
    ensures var w' := DataPassOf(digest, w, n, now);
            && (m in w'.datas <==> m in w.datas) && (m in w.datas ==> w'.datas[m] == w.datas[m])
            && w'.pods.Keys == w.pods.Keys && w.bindings <= w'.bindings
            && (m in w.datas && PodNameOf(w.datas[m]) in w.pods ==>
                  w'.pods[PodNameOf(w.datas[m])] == w.pods[PodNameOf(w.datas[m])])
  {
    if m in w.datas && PodNameOf(w.datas[m]) == PodNameOf(w.datas[n]) && PodNameOf(w.datas[n]) in w.pods {
      assert SamePod(w, m, n);
    }
  }

  /** A pass that takes a marked or orphaned Data further out of the store. */
  lemma ReleaseLowers(digest: DataSpec -> string, w: World, n: string, now: nat)
    requires WellFormed(w) && n in Leaving(w)
    requires var pod := PodOf(w, w.datas[n]);
             pod.Some? ==> BindingName(pod.value.serviceAccount) in w.bindings
    ensures Less(TodoOf(digest, DataPassOf(digest, w, n, now)), TodoOf(digest, w))
  {
    var w' := DataPassOf(digest, w, n, now);
    assert DataOk(w, n);
    forall m | m in Orphans(w') ensures m in Orphans(w) { if m != n { DataPassElsewhere(digest, w, n, now, m); } }
    forall m | m in Leaving(w')
      ensures m in Leaving(w) && m != n
    {
      if m != n { DataPassElsewhere(digest, w, n, now, m); }
    }
    assert n !in Leaving(w');
  }

  lemma BoundFalls(w: World, w': World, p: string)
    requires p in w.pods && w'.pods == w.pods && BindingName(w.pods[p].serviceAccount) !in w.bindings
    requires w'.bindings == w.bindings + {BindingName(w.pods[p].serviceAccount)}
    ensures Unbound(w') < Unbound(w)
  {
    assert p in Unbound(w) && p !in Unbound(w');
  }

  lemma SpecKeepsUnmet(w: World, n: string, w': World)
    requires n in w.datas && n in w'.datas && w'.datas == w.datas[n := w'.datas[n]]
    requires w'.datas[n].spec == w.datas[n].spec
    requires w'.datasets == w.datasets && SameShape(w, w')
    ensures Unmet(w') == Unmet(w)
  {
    forall p | p in w.pods
      ensures Unserved(w', p) <==> Unserved(w, p)
    {
      forall e | e in w.datasets
        ensures p in Selected(w', e) && !Served(w', e, p) <==> p in Selected(w, e) && !Served(w, e, p)
      {
        ShapeKeepsSelected(w, w', e);
      }
    }
  }

  /** When a pass leaves the specs and marks of all Data, the more urgent part of the list is as it was. */
  lemma SpecsKept(w: World, n: string, w': World)
    requires n in w.datas && n in w'.datas && w'.datas == w.datas[n := w'.datas[n]]
    requires w'.datas[n].spec == w.datas[n].spec && w'.datas[n].labels == w.datas[n].labels
    requires w'.datas[n].deleted == w.datas[n].deleted
    requires w'.datas[n].finalizers == w.datas[n].finalizers
             || (!w.datas[n].deleted && PodNameOf(w.datas[n]) in w.pods)
    requires w'.datasets == w.datasets && SameShape(w, w')
    ensures Orphans(w') == Orphans(w) && Leaving(w') == Leaving(w) && Unmet(w') == Unmet(w)
  {
    forall m | m in w.datas
      ensures IsOrphan(w', w'.datas[m]) <==> IsOrphan(w, w.datas[m])
    {
      if Owner(w.datas[m]) in w.datasets { ShapeKeepsSelected(w, w', Owner(w.datas[m])); }
    }
    SpecKeepsUnmet(w, n, w');
  }

  lemma BindingLowers(digest: DataSpec -> string, w: World, n: string, now: nat)
    requires WellFormed(w) && n in w.datas
    requires var pod := PodOf(w, w.datas[n]);
             pod.Some? && BindingName(pod.value.serviceAccount) !in w.bindings
    ensures Less(TodoOf(digest, DataPassOf(digest, w, n, now)), TodoOf(digest, w))
  {
    var d, p := w.datas[n], PodNameOf(w.datas[n]);
    var written := d.(status := StatusAfter(digest, d, w.pods[p], now));
    var w' := Applied(w, n, Result(Some(written), Some(w.pods[p]), w.bindings + {BindingName(w.pods[p].serviceAccount)},
                                   false));
    assert DataPassOf(digest, w, n, now) == w';
    PassKeepsShape(digest, w, OfData(n, now));
    SpecsKept(w, n, w');
    BoundFalls(w, w', p);
  }

  /** Live, or marked and waiting for others only: a pass does not take the Data out of the store. */
  predicate StaysWithPod(d: Data) {
    !d.deleted || DATA_FINALIZER !in d.finalizers
  }

  /** What a pass makes of such a Data whose role binding exists. */
  lemma PassSettles(digest: DataSpec -> string, d: Data, pod: Pod, bindings: set<string>, now: nat)
    requires StaysWithPod(d) && BindingName(pod.serviceAccount) in bindings
    ensures var r := PassResult(digest, d, Some(pod), bindings, now);
            && r.data.Some? && r.pod.Some? && r.bindings == bindings
            && r.data.value.spec == d.spec && r.data.value.labels == d.labels && r.data.value.deleted == d.deleted
            && (if d.deleted then r.data.value.finalizers == d.finalizers
                else DATA_FINALIZER in r.data.value.finalizers)
            && LatestStatus(d.spec, r.data.value.status) == r.data.value.status
            && DigestOf(r.pod.value) == Some(digest(d.spec))
            && r.pod.value.labels == pod.labels && r.pod.value.serviceAccount == pod.serviceAccount
  {
    ResetIsRecounted(d.spec, now);
    RecountIdempotent(d.spec, d.status);
  }

  lemma UrgentKept(digest: DataSpec -> string, w: World, n: string, now: nat)
    requires WellFormed(w) && n in w.datas && StaysWithPod(w.datas[n])
    requires var pod := PodOf(w, w.datas[n]);
             pod.Some? && BindingName(pod.value.serviceAccount) in w.bindings
    ensures var w' := DataPassOf(digest, w, n, now);
            Orphans(w') == Orphans(w) && Leaving(w') == Leaving(w) && Unmet(w') == Unmet(w) && Unbound(w') == Unbound(w)
  {
    var w' := DataPassOf(digest, w, n, now);
    PassKeepsShape(digest, w, OfData(n, now));
    PassSettles(digest, w.datas[n], w.pods[PodNameOf(w.datas[n])], w.bindings, now);
    SpecsKept(w, n, w');
  }

  /** A pass for one Data leaves nothing to do for the others, and takes nothing off them. */
  lemma NotElsewhere(digest: DataSpec -> string, w: World, n: string, now: nat, m: string)
    requires WellFormed(w) && n in w.datas && m != n
    ensures var w' := DataPassOf(digest, w, n, now);
            && (m in Undigested(digest, w') <==> m in Undigested(digest, w))
            && (m in FinalizerMissing(w') <==> m in FinalizerMissing(w))
            && (m in Uncounted(w') <==> m in Uncounted(w))
  {
    DataPassElsewhere(digest, w, n, now, m);
  }

  lemma NothingSettles(digest: DataSpec -> string, d: Data, pod: Pod, bindings: set<string>, now: nat)
    requires StaysWithPod(d) && BindingName(pod.serviceAccount) in bindings
    requires DigestOf(pod) == Some(digest(d.spec)) && (d.deleted || DATA_FINALIZER in d.finalizers)
    requires LatestStatus(d.spec, d.status) == d.status
    ensures PassResult(digest, d, Some(pod), bindings, now) == Result(Some(d), Some(pod), bindings, true)
  {
    assert DATA_FINALIZER in d.finalizers ==> d.finalizers + {DATA_FINALIZER} == d.finalizers;
    assert Tagged(pod, digest(d.spec)).annotations == pod.annotations;
  }

  lemma SettledHere(digest: DataSpec -> string, w: World, n: string, now: nat)
    requires WellFormed(w) && n in w.datas && StaysWithPod(w.datas[n])
    requires var pod := PodOf(w, w.datas[n]);
             pod.Some? && BindingName(pod.value.serviceAccount) in w.bindings
    ensures var w' := DataPassOf(digest, w, n, now);
            && n !in Undigested(digest, w') && n !in FinalizerMissing(w') && n !in Uncounted(w')
            && (n in Undigested(digest, w) || n in FinalizerMissing(w) || n in Uncounted(w) || w' == w)
  {
    var d, pod := w.datas[n], w.pods[PodNameOf(w.datas[n])];
    PassSettles(digest, d, pod, w.bindings, now);
    if n !in Undigested(digest, w) && n !in FinalizerMissing(w) && n !in Uncounted(w) {
      NothingSettles(digest, d, pod, w.bindings, now);
      assert w.datas[n := d] == w.datas && w.pods[PodNameOf(d) := pod] == w.pods;
    }
  }

  lemma SettledLowers(digest: DataSpec -> string, w: World, n: string, now: nat)
    requires WellFormed(w) && n in w.datas && StaysWithPod(w.datas[n])
    requires var pod := PodOf(w, w.datas[n]);
             pod.Some? && BindingName(pod.value.serviceAccount) in w.bindings
    requires DataPassOf(digest, w, n, now) != w
    ensures Less(TodoOf(digest, DataPassOf(digest, w, n, now)), TodoOf(digest, w))
  {
    var w' := DataPassOf(digest, w, n, now);
    UrgentKept(digest, w, n, now);
    forall m | m != n
      ensures m in Undigested(digest, w') <==> m in Undigested(digest, w)
      ensures m in FinalizerMissing(w') <==> m in FinalizerMissing(w)
      ensures m in Uncounted(w') <==> m in Uncounted(w)
    {
      NotElsewhere(digest, w, n, now, m);
    }
    SettledHere(digest, w, n, now);
  }

  lemma ReleasedStays(digest: DataSpec -> string, w: World, n: string, now: nat)
    requires WellFormed(w) && n in w.datas && PodOf(w, w.datas[n]).None? && DATA_FINALIZER !in w.datas[n].finalizers
    ensures DataPassOf(digest, w, n, now) == w
  {
    var d := w.datas[n];
    assert DataOk(w, n);
    assert d.finalizers - {DATA_FINALIZER} == d.finalizers;
    assert w.datas[n := d] == w.datas;
  }

  lemma DataPassLowers(digest: DataSpec -> string, w: World, n: string, now: nat)
    requires WellFormed(w) && DataPassOf(digest, w, n, now) != w
    ensures Less(TodoOf(digest, DataPassOf(digest, w, n, now)), TodoOf(digest, w))
  {
    var d := w.datas[n];
    assert DataOk(w, n);
    if PodOf(w, d).None? {
      if DATA_FINALIZER in d.finalizers {
        ReleaseLowers(digest, w, n, now);
      } else {
        ReleasedStays(digest, w, n, now);
      }
    } else if BindingName(PodOf(w, d).value.serviceAccount) !in w.bindings {
      BindingLowers(digest, w, n, now);
    } else if !StaysWithPod(d) {
      ReleaseLowers(digest, w, n, now);
    } else {
      SettledLowers(digest, w, n, now);
    }
  }

  /** Every pass leaves the namespace as it is, or less to do. */
  lemma PassLowers(digest: DataSpec -> string, w: World, pass: PassId)
    requires WellFormed(w)
    ensures Do(digest, w, pass) == w || Less(TodoOf(digest, Do(digest, w, pass)), TodoOf(digest, w))
  {
    if Do(digest, w, pass) != w {
      match pass
      case OfDataSet(d) =>
        DataSetPassIs(w, d);
        DataSetPassLowers(digest, w, d, DataSetPass(w, d));
      case OfData(n, now) =>
        DataPassLowers(digest, w, n, now);
    }
  }

  // ---------- Any order of passes ----------

  /** The namespace after the first passes of an endless schedule. */
  ghost function After(digest: DataSpec -> string, w: World, schedule: nat -> PassId, steps: nat): World {
    if steps == 0 then w
    else Do(digest, After(digest, w, schedule, steps - 1), schedule(steps - 1))
  }

  lemma {:induction false} AfterWellFormed(digest: DataSpec -> string, w: World, schedule: nat -> PassId, steps: nat)
    requires WellFormed(w)
    ensures WellFormed(After(digest, w, schedule, steps))
  {
    if steps > 0 {
      AfterWellFormed(digest, w, schedule, steps - 1);
      PassKeepsWellFormed(digest, After(digest, w, schedule, steps - 1), schedule(steps - 1));
    }
  }

  ghost predicate RestsFrom(digest: DataSpec -> string, w: World, schedule: nat -> PassId, n: nat) {
    forall m: nat :: m >= n ==> After(digest, w, schedule, m) == After(digest, w, schedule, n)
  }

  // ---------- A measure that falls with every change ----------

  ghost predicate SmallerSizes(a: Todo, b: Todo) {
    |a.orphans| < |b.orphans| || (|a.orphans| == |b.orphans| && (
    |a.leaving| < |b.leaving| || (|a.leaving| == |b.leaving| && (
    |a.unmet| < |b.unmet| || (|a.unmet| == |b.unmet| && (
    |a.unbound| < |b.unbound| || (|a.unbound| == |b.unbound| && (
    |a.undigested| < |b.undigested| || (|a.undigested| == |b.undigested| && (
    |a.unfinalized| < |b.unfinalized| || (|a.unfinalized| == |b.unfinalized| && (
    |a.uncounted| < |b.uncounted| || (|a.uncounted| == |b.uncounted| &&
    |a.unreported| < |b.unreported|)))))))))))))
  }

  lemma SubsetCases(a: set<string>, b: set<string>)
    ensures a < b ==> |a| < |b|
    ensures a <= b ==> |a| < |b| || a == b
  {
    if a <= b {
      SubsetSize(a, b);
    }
  }

  lemma LessDecreases(a: Todo, b: Todo)
    requires Less(a, b)
    ensures SmallerSizes(a, b)
  {
    SubsetCases(a.orphans, b.orphans);
    SubsetCases(a.leaving, b.leaving);
    SubsetCases(a.unmet, b.unmet);
    SubsetCases(a.unbound, b.unbound);
    SubsetCases(a.undigested, b.undigested);
    SubsetCases(a.unfinalized, b.unfinalized);
    SubsetCases(a.uncounted, b.uncounted);
    SubsetCases(a.unreported, b.unreported);
  }

  lemma {:induction false} FirstChange<T>(f: nat -> T, k: nat, m: nat) returns (j: nat)
    requires k <= m && f(m) != f(k)
    ensures k <= j < m && f(j) == f(k) && f(j + 1) != f(j)
    decreases m
  {
    if f(m - 1) == f(k) {
      j := m - 1;
    } else {
      j := FirstChange(f, k, m - 1);
    }
  }

  ghost predicate StillFrom<T(!new)>(f: nat -> T, n: nat) {
    forall m: nat :: m >= n ==> f(m) == f(n)
  }

  ghost predicate FallsAt<T>(f: nat -> T, todo: T -> Todo, i: nat) {
    f(i + 1) == f(i) || SmallerSizes(todo(f(i + 1)), todo(f(i)))
  }

  /** A sequence whose measure falls with every change is still from some point on. */
  lemma {:induction false} BecomesStill<T(!new)>(f: nat -> T, todo: T -> Todo, k: nat) returns (n: nat)
    requires forall i: nat :: FallsAt(f, todo, i)
    ensures StillFrom(f, n)
    decreases |todo(f(k)).orphans|, |todo(f(k)).leaving|, |todo(f(k)).unmet|, |todo(f(k)).unbound|,
              |todo(f(k)).undigested|, |todo(f(k)).unfinalized|, |todo(f(k)).uncounted|, |todo(f(k)).unreported|
  {
    if StillFrom(f, k) {
      n := k;
    } else {
      var m: nat :| m >= k && f(m) != f(k);
      var j := FirstChange(f, k, m);
      assert FallsAt(f, todo, j);
      n := BecomesStill(f, todo, j + 1);
    }
  }

  lemma ScheduleFalls(digest: DataSpec -> string, w: World, schedule: nat -> PassId, i: nat)
    requires WellFormed(w)
    ensures var v, v' := After(digest, w, schedule, i), After(digest, w, schedule, i + 1);
            v' == v || SmallerSizes(TodoOf(digest, v'), TodoOf(digest, v))
  {
    var v := After(digest, w, schedule, i);
    AfterWellFormed(digest, w, schedule, i);
    PassLowers(digest, v, schedule(i));
    if Do(digest, v, schedule(i)) != v {
      LessDecreases(TodoOf(digest, Do(digest, v, schedule(i))), TodoOf(digest, v));
    }
  }

  /** In whatever order the passes come, from some point on they change nothing any more. */
  lemma ComesToRest(digest: DataSpec -> string, w: World, schedule: nat -> PassId) returns (n: nat)
    requires WellFormed(w)
    ensures RestsFrom(digest, w, schedule, n)
  {
    var f := (i: nat) => After(digest, w, schedule, i);
    var todo := (v: World) => TodoOf(digest, v);
    forall i: nat
      ensures FallsAt(f, todo, i)
    {
      ScheduleFalls(digest, w, schedule, i);
    }
    n := BecomesStill(f, todo, 0);
    assert forall m: nat :: f(m) == After(digest, w, schedule, m);
  }
}
