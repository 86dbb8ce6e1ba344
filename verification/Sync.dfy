/** What one pass of the DataSet reconciler makes of the Data objects of a namespace, name by name, and the
    laws of that: it is a set synchroniser that can be repeated and restarted, and that keeps to its own. */
module Sync {
  import opened Types
  import opened Status
  import opened Names
  import opened Numbers

  type Datas = map<string, Data>

  function Find(datas: Datas, name: string): Option<Data> {
    if name in datas then Some(datas[name]) else None
  }

  function SpecOf(template: DataTemplateSpec): DataSpec {
    DataSpec(template.dataItems, template.lifecycle, template.dataSources)
  }

  /** The spec is the template's, field by field. */
  predicate HasTemplate(spec: DataSpec, template: DataTemplateSpec) {
    && spec.dataItems == template.dataItems && spec.lifecycle == template.lifecycle
    && spec.dataSources == template.dataSources
  }

  lemma SpecOfIff(spec: DataSpec, template: DataTemplateSpec)
    ensures spec == SpecOf(template) <==> HasTemplate(spec, template)
  {}

  /** The label values of a Data, as the API has them. */
  predicate IsOf(d: Data, dataSet: string) {
    "kuda.io/dataset" in d.labels && d.labels["kuda.io/dataset"] == dataSet
  }

  predicate IsForOneOf(d: Data, pods: seq<string>) {
    (if "kuda.io/pod" in d.labels then d.labels["kuda.io/pod"] else "") in pods
  }

  /** A Data as it is created: named and labelled for its pod, with the template's spec and nothing else. */
  predicate IsCreated(d: Data, ds: DataSet, podName: string) {
    && HasSuffix(podName) && d.name == DataNameByPod(ds.name, podName)
    && d.labels == map["kuda.io/dataset" := ds.name, "kuda.io/pod" := podName]
    && HasTemplate(d.spec, ds.template)
    && d.finalizers == {} && !d.deleted
    && d.status == DataStatus(NilSlice, 0, 0, 0, 0, 0, "")
  }

  function NewDataResource(ds: DataSet, podName: string): Data
    requires HasSuffix(podName)
  {
    Data(DataNameByPod(ds.name, podName), map[KUDA_KEY_DATASET := ds.name, KUDA_KEY_POD := podName], {}, false,
         SpecOf(ds.template), EMPTY_STATUS)
  }

  predicate IsNameFor(ds: DataSet, podName: string, name: string) {
    HasSuffix(podName) && DataNameByPod(ds.name, podName) == name
  }

  /** The first listed pod whose Data is to have the name. */
  function NamedBy(ds: DataSet, pods: seq<string>, name: string): Option<string> {
    if pods == [] then None
    else if IsNameFor(ds, pods[0], name) then Some(pods[0])
    else NamedBy(ds, pods[1..], name)
  }

  lemma {:induction false} NamedByNames(ds: DataSet, pods: seq<string>, name: string)
    ensures NamedBy(ds, pods, name).Some? ==>
              NamedBy(ds, pods, name).value in pods && IsNameFor(ds, NamedBy(ds, pods, name).value, name)
    ensures NamedBy(ds, pods, name).None? ==> forall p :: p in pods ==> !IsNameFor(ds, p, name)
  {
    if pods != [] {
      NamedByNames(ds, pods[1..], name);
    }
  }

  // ---------- One name ----------

  function Updated(ds: DataSet, pods: seq<string>, name: string, before: Option<Data>): Option<Data> {
    var pod := NamedBy(ds, pods, name);
    if pod.None? then before
    else
      match before
      case None => NamedByNames(ds, pods, name); Some(NewDataResource(ds, pod.value))
      case Some(d) => if BelongsTo(d, ds.name) then Some(d.(spec := SpecOf(ds.template))) else before
  }

  function Deleted(d: Data): Option<Data> {
    if d.finalizers == {} then None else Some(d.(deleted := true))
  }

  function Pruned(ds: DataSet, pods: seq<string>, before: Option<Data>): Option<Data> {
    match before
    case None => None
    case Some(d) => if !BelongsTo(d, ds.name) || PodNameOf(d) in pods then before else Deleted(d)
  }

  function Entry(ds: DataSet, pods: seq<string>, name: string, before: Option<Data>): Option<Data> {
    Pruned(ds, pods, Updated(ds, pods, name, before))
  }

  // ---------- All names ----------

  function WantedNames(ds: DataSet, pods: seq<string>): set<string> {
    set p | p in pods && HasSuffix(p) :: DataNameByPod(ds.name, p)
  }

  function Target(ds: DataSet, pods: seq<string>, datas: Datas): Datas {
    map n | n in datas.Keys + WantedNames(ds, pods) && Entry(ds, pods, n, Find(datas, n)).Some?
      :: Entry(ds, pods, n, Find(datas, n)).value
  }

  /** The Data an in-memory list still holds after a pass: those whose pod is listed. */
  function KeptNames(ds: DataSet, pods: seq<string>, datas: Datas): set<string> {
    set n | n in datas && BelongsTo(datas[n], ds.name) && PodNameOf(datas[n]) in pods
  }

  function SuccessNames(ds: DataSet, pods: seq<string>, datas: Datas): set<string> {
    set n | n in KeptNames(ds, pods, datas) && datas[n].status.success == |ds.template.dataItems.Elems()|
  }

  function StatusOf(ds: DataSet, pods: seq<string>, datas: Datas): DataSetStatus {
    var kept, success := |KeptNames(ds, pods, datas)|, |SuccessNames(ds, pods, datas)|;
    DataSetStatus(|ds.template.dataItems.Elems()|, kept, success, Ready(success, kept))
  }

  function TargetStatus(ds: DataSet, pods: seq<string>, datas: Datas): DataSetStatus {
    StatusOf(ds, pods, Target(ds, pods, datas))
  }

  predicate Reached(ds: DataSet, pods: seq<string>, n: string, before: Option<Data>, after: Option<Data>) {
    after == before || after == Updated(ds, pods, n, before) || after == Entry(ds, pods, n, before)
  }

  /** Each name is as it was, or as the update phase leaves it, or as the pass leaves it. */
  ghost predicate Between(ds: DataSet, pods: seq<string>, before: Datas, after: Datas) {
    forall n :: Reached(ds, pods, n, Find(before, n), Find(after, n))
  }

  /** A name that is not stored yet is wanted by no earlier pod. */
  predicate NotTwice(ds: DataSet, pods: seq<string>, i: nat, datas: Datas)
    requires i < |pods| && HasSuffix(pods[i])
  {
    var n := DataNameByPod(ds.name, pods[i]);
    n in datas || NamedBy(ds, pods[..i], n).None?
  }

  predicate NameOk(ds: DataSet, datas: Datas, pod: string) {
    && HasSuffix(pod)
    && var n := DataNameByPod(ds.name, pod);
       n in datas ==> BelongsTo(datas[n], ds.name) && HasSuffix(PodNameOf(datas[n]))
  }

  /** When a pass can go through: every pod name, and the pod name on every Data it looks up, has a dash, and no
      name it is going to create is taken. */
  ghost predicate NamesOk(ds: DataSet, pods: seq<string>, datas: Datas) {
    forall i :: 0 <= i < |pods| ==> NameOk(ds, datas, pods[i]) && NotTwice(ds, pods, i, datas)
  }

  // ---------- Lookup of names ----------

  lemma {:induction false} NamedByConcat(ds: DataSet, a: seq<string>, b: seq<string>, name: string)
    ensures NamedBy(ds, a + b, name)
         == if NamedBy(ds, a, name).Some? then NamedBy(ds, a, name) else NamedBy(ds, b, name)
  {
    if a == [] {
      assert a + b == b;
    } else {
      assert (a + b)[1..] == a[1..] + b;
      NamedByConcat(ds, a[1..], b, name);
    }
  }

  lemma LabelsOfNew(ds: DataSet, podName: string)
    requires HasSuffix(podName)
    ensures BelongsTo(NewDataResource(ds, podName), ds.name) && PodNameOf(NewDataResource(ds, podName)) == podName
  {
    assert |KUDA_KEY_POD| != |KUDA_KEY_DATASET|;
  }

  lemma TargetFind(ds: DataSet, pods: seq<string>, datas: Datas, n: string)
    ensures Find(Target(ds, pods, datas), n) == Entry(ds, pods, n, Find(datas, n))
  {
    NamedByNames(ds, pods, n);
  }

  lemma SameFinds(a: Datas, b: Datas)
    requires forall n :: Find(a, n) == Find(b, n)
    ensures a == b
  {
    forall n
      ensures n in a <==> n in b
      ensures n in a ==> a[n] == b[n]
    {
      assert Find(a, n) == Find(b, n);
    }
  }

  // ---------- Repeating and restarting ----------

  /** The one thing that cannot be repeated: a Data of an absent pod that has the name of a listed pod's Data, and
      no finalizer to wait for, is deleted by one pass and created anew by the next. */
  predicate Blocks(ds: DataSet, pods: seq<string>, name: string, before: Option<Data>) {
    && before.Some? && BelongsTo(before.value, ds.name) && PodNameOf(before.value) !in pods
    && before.value.finalizers == {} && NamedBy(ds, pods, name).Some?
  }

  ghost predicate NothingBlocks(ds: DataSet, pods: seq<string>, datas: Datas) {
    forall n :: !Blocks(ds, pods, n, Find(datas, n))
  }

  lemma EntryOfReached(ds: DataSet, pods: seq<string>, n: string, before: Option<Data>, after: Option<Data>)
    requires Reached(ds, pods, n, before, after) && !Blocks(ds, pods, n, before)
    ensures Entry(ds, pods, n, after) == Entry(ds, pods, n, before)
    ensures !Blocks(ds, pods, n, after)
  {
    NamedByNames(ds, pods, n);
    if NamedBy(ds, pods, n).Some? {
      LabelsOfNew(ds, NamedBy(ds, pods, n).value);
    }
  }

  lemma EntryOfBlocked(ds: DataSet, pods: seq<string>, n: string, before: Option<Data>)
    requires Blocks(ds, pods, n, before)
    ensures Entry(ds, pods, n, before) == None && Entry(ds, pods, n, None).Some?
  {
    NamedByNames(ds, pods, n);
    LabelsOfNew(ds, NamedBy(ds, pods, n).value);
  }

  /** Restartability: whatever an aborted pass has and has not done, a full pass from there ends in the same
      store and the same DataSet status as a full pass from the start. */
  lemma RestartGivesSame(ds: DataSet, pods: seq<string>, before: Datas, after: Datas)
    requires NothingBlocks(ds, pods, before)
    requires Between(ds, pods, before, after)
    ensures Target(ds, pods, after) == Target(ds, pods, before)
    ensures TargetStatus(ds, pods, after) == TargetStatus(ds, pods, before)
    ensures NothingBlocks(ds, pods, after)
  {
    forall n
      ensures Find(Target(ds, pods, after), n) == Find(Target(ds, pods, before), n)
      ensures !Blocks(ds, pods, n, Find(after, n))
    {
      TargetFind(ds, pods, after, n);
      TargetFind(ds, pods, before, n);
      assert !Blocks(ds, pods, n, Find(before, n));
      assert Reached(ds, pods, n, Find(before, n), Find(after, n));
      EntryOfReached(ds, pods, n, Find(before, n), Find(after, n));
    }
    SameFinds(Target(ds, pods, after), Target(ds, pods, before));
  }

  /** ... and the full pass can still go through. */
  lemma RestartCanRun(ds: DataSet, pods: seq<string>, before: Datas, after: Datas)
    requires NamesOk(ds, pods, before) && NothingBlocks(ds, pods, before)
    requires Between(ds, pods, before, after)
    ensures NamesOk(ds, pods, after)
  {
    forall i | 0 <= i < |pods|
      ensures NameOk(ds, after, pods[i])
      ensures DataNameByPod(ds.name, pods[i]) in before ==> DataNameByPod(ds.name, pods[i]) in after
    {
      assert NameOk(ds, before, pods[i]);
      var n := DataNameByPod(ds.name, pods[i]);
      assert Reached(ds, pods, n, Find(before, n), Find(after, n));
      assert !Blocks(ds, pods, n, Find(before, n));
      NamedByNames(ds, pods, n);
      assert IsNameFor(ds, pods[i], n);
      LabelsOfNew(ds, NamedBy(ds, pods, n).value);
    }
  }

  lemma TargetIsBetween(ds: DataSet, pods: seq<string>, datas: Datas)
    ensures Between(ds, pods, datas, Target(ds, pods, datas))
  {
    forall n
      ensures Reached(ds, pods, n, Find(datas, n), Find(Target(ds, pods, datas), n))
    {
      TargetFind(ds, pods, datas, n);
    }
  }

  /** Idempotence, and exactly when: a second pass changes nothing unless some deleted Data blocked the name of a
      listed pod.  Data that still wait on finalizers do not matter. */
  lemma RepeatGivesSameIff(ds: DataSet, pods: seq<string>, datas: Datas)
    ensures Target(ds, pods, Target(ds, pods, datas)) == Target(ds, pods, datas) <==> NothingBlocks(ds, pods, datas)
    ensures NothingBlocks(ds, pods, datas) ==>
              TargetStatus(ds, pods, Target(ds, pods, datas)) == TargetStatus(ds, pods, datas)
  {
    var once := Target(ds, pods, datas);
    if NothingBlocks(ds, pods, datas) {
      TargetIsBetween(ds, pods, datas);
      RestartGivesSame(ds, pods, datas, once);
    } else {
      var n :| Blocks(ds, pods, n, Find(datas, n));
      TargetFind(ds, pods, datas, n);
      TargetFind(ds, pods, once, n);
      EntryOfBlocked(ds, pods, n, Find(datas, n));
    }
  }

  ghost predicate RestartIsSame(ds: DataSet, pods: seq<string>, before: Datas, after: Datas) {
    && Target(ds, pods, after) == Target(ds, pods, before)
    && TargetStatus(ds, pods, after) == TargetStatus(ds, pods, before)
    && (NamesOk(ds, pods, before) ==> NamesOk(ds, pods, after))
  }

  /** The condition of RestartGivesSame is the right one: from every store between, a full pass ends in the same store
      and the same status, and goes through if it did before, exactly if nothing blocks.  If something does, it fails
      on the store that a finished pass leaves. */
  lemma RestartGivesSameIff(ds: DataSet, pods: seq<string>, before: Datas)
    ensures (forall after | Between(ds, pods, before, after) :: RestartIsSame(ds, pods, before, after))
       <==> NothingBlocks(ds, pods, before)
    ensures RestartIsSame(ds, pods, before, Target(ds, pods, before)) <==> NothingBlocks(ds, pods, before)
  {
    TargetIsBetween(ds, pods, before);
    if NothingBlocks(ds, pods, before) {
      forall after | Between(ds, pods, before, after)
        ensures RestartIsSame(ds, pods, before, after)
      {
        if NamesOk(ds, pods, before) { RestartCanRun(ds, pods, before, after); }
        RestartGivesSame(ds, pods, before, after);
      }
    } else {
      RepeatGivesSameIff(ds, pods, before);
    }
  }

  // ---------- The order of the list ----------

  predicate DistinctSuffixes(pods: seq<string>) {
    && (forall i :: 0 <= i < |pods| ==> HasSuffix(pods[i]))
    && (forall i, j :: 0 <= i < |pods| && 0 <= j < |pods| && HasSuffix(pods[i]) && HasSuffix(pods[j]) && i != j
          ==> PodSuffix(pods[i]) != PodSuffix(pods[j]))
  }

  lemma NamedByOrder(ds: DataSet, a: seq<string>, b: seq<string>, n: string)
    requires DistinctSuffixes(a) && forall p :: p in a <==> p in b
    ensures NamedBy(ds, a, n) == NamedBy(ds, b, n)
  {
    NamedByNames(ds, a, n);
    NamedByNames(ds, b, n);
    if NamedBy(ds, a, n).Some? && NamedBy(ds, b, n).Some? {
      var p, q := NamedBy(ds, a, n).value, NamedBy(ds, b, n).value;
      SuffixesDecode(ds.name, p, ds.name, q);
      var i :| 0 <= i < |a| && a[i] == p;
      var j :| 0 <= j < |a| && a[j] == q;
    }
  }

  lemma SameTarget(ds: DataSet, a: seq<string>, b: seq<string>, datas: Datas)
    requires DistinctSuffixes(a) && forall p :: p in a <==> p in b
    ensures Target(ds, a, datas) == Target(ds, b, datas)
  {
    forall n
      ensures Find(Target(ds, a, datas), n) == Find(Target(ds, b, datas), n)
    {
      TargetFind(ds, a, datas, n);
      TargetFind(ds, b, datas, n);
      NamedByOrder(ds, a, b, n);
    }
    SameFinds(Target(ds, a, datas), Target(ds, b, datas));
  }

  lemma KeptInAnyOrder(ds: DataSet, a: seq<string>, b: seq<string>, datas: Datas)
    requires forall p :: p in a <==> p in b
    ensures StatusOf(ds, a, datas) == StatusOf(ds, b, datas)
  {
    assert KeptNames(ds, a, datas) == KeptNames(ds, b, datas);
    assert SuccessNames(ds, a, datas) == SuccessNames(ds, b, datas);
  }

  /** With distinct suffixes the order in which the pods are listed does not matter. */
  lemma OrderDoesNotMatter(ds: DataSet, a: seq<string>, b: seq<string>, datas: Datas)
    requires DistinctSuffixes(a) && forall p :: p in a <==> p in b
    ensures Target(ds, a, datas) == Target(ds, b, datas) && TargetStatus(ds, a, datas) == TargetStatus(ds, b, datas)
  {
    SameTarget(ds, a, b, datas);
    KeptInAnyOrder(ds, a, b, Target(ds, a, datas));
  }

  // ---------- The stored DataSet status is no input ----------

  lemma {:induction false} NamedByIgnoresStatus(ds: DataSet, pods: seq<string>, n: string, status: DataSetStatus)
    ensures NamedBy(ds.(status := status), pods, n) == NamedBy(ds, pods, n)
  {
    if pods != [] {
      NamedByIgnoresStatus(ds, pods[1..], n, status);
    }
  }

  lemma NamesIgnoreStatus(ds: DataSet, pods: seq<string>, datas: Datas, status: DataSetStatus)
    ensures NamesOk(ds.(status := status), pods, datas) <==> NamesOk(ds, pods, datas)
  {
    var ds' := ds.(status := status);
    forall i | 0 <= i < |pods|
      ensures NameOk(ds', datas, pods[i]) == NameOk(ds, datas, pods[i])
      ensures HasSuffix(pods[i]) ==> NotTwice(ds', pods, i, datas) == NotTwice(ds, pods, i, datas)
    {
      if HasSuffix(pods[i]) {
        NamedByIgnoresStatus(ds, pods[..i], DataNameByPod(ds.name, pods[i]), status);
      }
    }
  }

  lemma StatusIsIrrelevant(ds: DataSet, pods: seq<string>, datas: Datas, status: DataSetStatus)
    ensures var ds' := ds.(status := status);
            && Target(ds', pods, datas) == Target(ds, pods, datas)
            && TargetStatus(ds', pods, datas) == TargetStatus(ds, pods, datas)
            && (NamesOk(ds', pods, datas) <==> NamesOk(ds, pods, datas))
  {
    var ds' := ds.(status := status);
    forall n
      ensures Find(Target(ds', pods, datas), n) == Find(Target(ds, pods, datas), n)
    {
      TargetFind(ds', pods, datas, n);
      TargetFind(ds, pods, datas, n);
      NamedByIgnoresStatus(ds, pods, n, status);
    }
    SameFinds(Target(ds', pods, datas), Target(ds, pods, datas));
    assert KeptNames(ds', pods, Target(ds, pods, datas)) == KeptNames(ds, pods, Target(ds, pods, datas));
    assert SuccessNames(ds', pods, Target(ds, pods, datas)) == SuccessNames(ds, pods, Target(ds, pods, datas));
    NamesIgnoreStatus(ds, pods, datas, status);
  }

  // ---------- Mirror and frame ----------

  /** The Data of a DataSet are named after the pod they are labelled with. */
  predicate NamedAfterPods(ds: DataSet, datas: Datas) {
    forall n :: n in datas && BelongsTo(datas[n], ds.name) ==> IsNameFor(ds, PodNameOf(datas[n]), n)
  }

  /** Every Data of the namespace is named by the scheme, after its own DataSet and pod. */
  predicate NamedByScheme(datas: Datas) {
    forall n :: n in datas ==>
      KUDA_KEY_DATASET in datas[n].labels && HasSuffix(PodNameOf(datas[n]))
      && n == DataNameByPod(datas[n].labels[KUDA_KEY_DATASET], PodNameOf(datas[n]))
  }

  /** No collision: with distinct suffixes, in a namespace in which every Data follows the scheme, no pass finds a
      name it creates taken, even if DataSet names contain dashes. */
  lemma NoCollision(ds: DataSet, pods: seq<string>, datas: Datas)
    requires DistinctSuffixes(pods) && NamedByScheme(datas)
    ensures NamesOk(ds, pods, datas)
  {
    forall i | 0 <= i < |pods|
      ensures NameOk(ds, datas, pods[i])
    {
      var n := DataNameByPod(ds.name, pods[i]);
      if n in datas {
        SuffixesDecode(ds.name, pods[i], datas[n].labels[KUDA_KEY_DATASET], PodNameOf(datas[n]));
      }
    }
    forall i | 0 <= i < |pods|
      ensures NotTwice(ds, pods, i, datas)
    {
      NamedByNames(ds, pods[..i], DataNameByPod(ds.name, pods[i]));
      if p :| p in pods[..i] && IsNameFor(ds, p, DataNameByPod(ds.name, pods[i])) {
        var j :| 0 <= j < i && pods[j] == p;
        SuffixesDecode(ds.name, p, ds.name, pods[i]);
        assert false;
      }
    }
  }

  /** Frame: the Data of other DataSets stay, and every new Data is the DataSet's own. */
  lemma OthersUntouched(ds: DataSet, pods: seq<string>, datas: Datas, n: string)
    ensures n in datas && !BelongsTo(datas[n], ds.name) ==> Find(Target(ds, pods, datas), n) == Some(datas[n])
    ensures n !in datas && n in Target(ds, pods, datas) ==> BelongsTo(Target(ds, pods, datas)[n], ds.name)
  {
    TargetFind(ds, pods, datas, n);
    NamedByNames(ds, pods, n);
    if NamedBy(ds, pods, n).Some? {
      LabelsOfNew(ds, NamedBy(ds, pods, n).value);
    }
  }

  predicate IsDataOf(ds: DataSet, pod: string, datas: Datas, n: string) {
    n in datas && BelongsTo(datas[n], ds.name) && PodNameOf(datas[n]) == pod
  }

  /** What a pass leaves for a listed pod: a Data it has updated, or created for that pod. */
  lemma EntryOfListed(ds: DataSet, pods: seq<string>, n: string, before: Option<Data>)
    requires var after := Entry(ds, pods, n, before);
             after.Some? && BelongsTo(after.value, ds.name) && PodNameOf(after.value) in pods
    ensures var after := Entry(ds, pods, n, before).value;
            && (before.None? ==> NamedBy(ds, pods, n) == Some(PodNameOf(after)) && IsNameFor(ds, PodNameOf(after), n))
            && (before.Some? ==> after.labels == before.value.labels)
            && (NamedBy(ds, pods, n).Some? ==> after.spec == SpecOf(ds.template))
  {
    NamedByNames(ds, pods, n);
    if NamedBy(ds, pods, n).Some? {
      LabelsOfNew(ds, NamedBy(ds, pods, n).value);
    }
  }

  lemma DataOfPod(ds: DataSet, pods: seq<string>, datas: Datas, pod: string, n: string)
    requires DistinctSuffixes(pods) && NamedAfterPods(ds, datas) && pod in pods
    requires IsDataOf(ds, pod, Target(ds, pods, datas), n)
    ensures n == DataNameByPod(ds.name, pod) && Target(ds, pods, datas)[n].spec == SpecOf(ds.template)
  {
    TargetFind(ds, pods, datas, n);
    EntryOfListed(ds, pods, n, Find(datas, n));
    if n in datas {
      assert IsNameFor(ds, pod, n);
      NamedByNames(ds, pods, n);
    }
  }

  lemma NamedOnlyBy(ds: DataSet, pods: seq<string>, pod: string)
    requires DistinctSuffixes(pods) && pod in pods
    ensures NamedBy(ds, pods, DataNameByPod(ds.name, pod)) == Some(pod)
  {
    var name := DataNameByPod(ds.name, pod);
    NamedByNames(ds, pods, name);
    assert IsNameFor(ds, pod, name);
    var other := NamedBy(ds, pods, name).value;
    SuffixesDecode(ds.name, pod, ds.name, other);
    var i :| 0 <= i < |pods| && pods[i] == pod;
    var j :| 0 <= j < |pods| && pods[j] == other;
  }

  /** Mirror, for one listed pod: after a pass its Data, if there is one, is the only one, has the pod's name and
      the template's spec; and there is one exactly unless the name was taken by a Data of another pod. */
  lemma MirrorOfPod(ds: DataSet, pods: seq<string>, datas: Datas, pod: string)
    requires DistinctSuffixes(pods) && NamedAfterPods(ds, datas) && pod in pods
    ensures var after, name := Target(ds, pods, datas), DataNameByPod(ds.name, pod);
            && (forall n :: IsDataOf(ds, pod, after, n) ==> n == name && HasTemplate(after[n].spec, ds.template))
            && (IsDataOf(ds, pod, after, name) <==> name !in datas || IsDataOf(ds, pod, datas, name))
  {
    var after, name := Target(ds, pods, datas), DataNameByPod(ds.name, pod);
    NamedOnlyBy(ds, pods, pod);
    TargetFind(ds, pods, datas, name);
    LabelsOfNew(ds, pod);
    forall n | IsDataOf(ds, pod, after, n)
      ensures n == name && HasTemplate(after[n].spec, ds.template)
    {
      DataOfPod(ds, pods, datas, pod, n);
    }
  }

  /** What a pass leaves of a Data whose pod is not listed. */
  lemma EntryOfAbsent(ds: DataSet, pods: seq<string>, n: string, before: Option<Data>)
    requires var after := Entry(ds, pods, n, before);
             after.Some? && BelongsTo(after.value, ds.name) && PodNameOf(after.value) !in pods
    ensures var after := Entry(ds, pods, n, before).value;
            before.Some? && after.deleted && after.finalizers != {} && after.finalizers == before.value.finalizers
  {
    NamedByNames(ds, pods, n);
    if NamedBy(ds, pods, n).Some? {
      LabelsOfNew(ds, NamedBy(ds, pods, n).value);
    }
  }

  /** Mirror, for the rest: a Data of the DataSet whose pod is not listed is gone after a pass, or marked and
      waiting for its finalizers. */
  lemma MirrorOfAbsent(ds: DataSet, pods: seq<string>, datas: Datas, n: string)
    requires var after := Target(ds, pods, datas);
             n in after && BelongsTo(after[n], ds.name) && PodNameOf(after[n]) !in pods
    ensures Target(ds, pods, datas)[n].deleted && Target(ds, pods, datas)[n].finalizers != {}
    ensures n in datas && Target(ds, pods, datas)[n].finalizers == datas[n].finalizers
  {
    TargetFind(ds, pods, datas, n);
    EntryOfAbsent(ds, pods, n, Find(datas, n));
  }

  /** What a pass leaves under one name, in full.  What there was keeps everything but the mark and the spec: it is
      marked, or gone if nothing holds it, exactly if it is the DataSet's and its pod is not listed, and its spec is as
      it was or the template's.  What there was not is created for a listed pod. */
  lemma WhatStays(ds: DataSet, pods: seq<string>, datas: Datas, n: string)
    ensures var after := Target(ds, pods, datas);
            && (n in datas ==>
                  var before, absent := datas[n], IsOf(datas[n], ds.name) && !IsForOneOf(datas[n], pods);
                  && (n in after <==> !absent || before.finalizers != {})
                  && (n in after ==>
                        && after[n].name == before.name && after[n].labels == before.labels
                        && after[n].finalizers == before.finalizers && after[n].status == before.status
                        && (after[n].deleted <==> before.deleted || absent)
                        && (after[n].spec == before.spec
                            || (IsOf(before, ds.name) && HasTemplate(after[n].spec, ds.template)))))
            && (n !in datas && n in after ==> exists p :: p in pods && IsCreated(after[n], ds, p) && after[n].name == n)
  {
    TargetFind(ds, pods, datas, n);
    NamedByNames(ds, pods, n);
    if n !in datas && n in Target(ds, pods, datas) {
      LabelsOfNew(ds, NamedBy(ds, pods, n).value);
      assert IsCreated(Target(ds, pods, datas)[n], ds, NamedBy(ds, pods, n).value);
    }
  }

  /** The whole mirror: if moreover no Data of an absent pod has a listed pod's name, then listed pods and kept
      Data correspond one to one by the naming scheme. */
  lemma Mirror(ds: DataSet, pods: seq<string>, datas: Datas)
    requires DistinctSuffixes(pods) && NamedByScheme(datas)
    requires forall n :: n in datas && BelongsTo(datas[n], ds.name) && NamedBy(ds, pods, n).Some? ==>
               PodNameOf(datas[n]) in pods
    ensures KeptNames(ds, pods, Target(ds, pods, datas)) == WantedNames(ds, pods)
  {
    var after := Target(ds, pods, datas);
    forall pod | pod in pods
      ensures IsDataOf(ds, pod, after, DataNameByPod(ds.name, pod))
    {
      var name := DataNameByPod(ds.name, pod);
      MirrorOfPod(ds, pods, datas, pod);
      NamedOnlyBy(ds, pods, pod);
      if name in datas {
        var d := datas[name];
        SuffixesDecode(ds.name, pod, d.labels[KUDA_KEY_DATASET], PodNameOf(d));
        NamedOnlyBy(ds, pods, PodNameOf(d));
      }
    }
    forall n | n in KeptNames(ds, pods, after)
      ensures n in WantedNames(ds, pods)
    {
      MirrorOfPod(ds, pods, datas, PodNameOf(after[n]));
    }
  }

  // ---------- The success count ----------

  /** The DataSet status counts the Data for listed pods, and those whose success counter is the number of the
      template's items. */
  lemma StatusSays(ds: DataSet, pods: seq<string>, datas: Datas)
    ensures var s, total := TargetStatus(ds, pods, datas), |ds.template.dataItems.Elems()|;
            var after := Target(ds, pods, datas);
            var kept := set n | n in after && IsOf(after[n], ds.name) && IsForOneOf(after[n], pods);
            && s.dataItems == total && s.replicas == |kept|
            && s.successReplicas == |set n | n in kept && after[n].status.success == total|
            && Shows(s.ready, s.successReplicas, s.replicas)
  {
    var after, total := Target(ds, pods, datas), |ds.template.dataItems.Elems()|;
    var kept := set n | n in after && IsOf(after[n], ds.name) && IsForOneOf(after[n], pods);
    assert KeptNames(ds, pods, after) == kept;
    assert SuccessNames(ds, pods, after) == set n | n in kept && after[n].status.success == total;
    ReadyReads(|SuccessNames(ds, pods, after)|, |kept|);
  }

  predicate IsCounted(d: Data, ds: DataSet) {
    && d.spec == SpecOf(ds.template)
    && Aligned(d.status.items.Elems(), d.spec.dataItems.Elems())
    && d.status.success == LatestStatus(d.spec, d.status).success
  }

  lemma SubsetSize<T>(a: set<T>, b: set<T>)
    requires a <= b
    ensures |a| <= |b|
    ensures a < b ==> |a| < |b|
  {
    assert b == a + (b - a);
    assert |b| == |a| + |b - a|;
  }

  /** When every kept Data has the template's spec, its items aligned with it and its success counter recounted,
      SuccessReplicas counts the Data whose items have all arrived. */
  lemma SuccessIsAllItems(ds: DataSet, pods: seq<string>, datas: Datas)
    requires forall n :: n in KeptNames(ds, pods, datas) ==> IsCounted(datas[n], ds)
    ensures SuccessNames(ds, pods, datas)
         == set n | n in KeptNames(ds, pods, datas) && AllIn(datas[n].status.items.Elems(), Success)
    ensures var s := StatusOf(ds, pods, datas); 0 <= s.successReplicas <= s.replicas
  {
    forall n | n in KeptNames(ds, pods, datas)
      ensures n in SuccessNames(ds, pods, datas) <==> AllIn(datas[n].status.items.Elems(), Success)
    {
      CountFull(datas[n].status.items.Elems(), Success);
    }
    SubsetSize(SuccessNames(ds, pods, datas), KeptNames(ds, pods, datas));
  }
}
