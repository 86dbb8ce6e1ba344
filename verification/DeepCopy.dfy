/** The generated deep copies of Data, on the heap: a Go struct is a value here, a pointer is a Ref, and a slice an
    array.  A footprint is a set of objects; a struct is in a footprint if every mutable object that can be reached
    from it is.  Each copy comes with a footprint of new objects. */
module DeepCopy {
  import opened Types

  class Ref<T> {
    var val: T

    constructor (val: T)
      ensures this.val == val
    {
      this.val := val;
    }
  }

  datatype HandlerStruct = HandlerStruct(exec: Ref?<ExecAction>, httpGet: Ref?<HTTPGetAction>)

  datatype LifecycleStruct = LifecycleStruct(preDownload: Ref?<HandlerStruct>, postDownload: Ref?<HandlerStruct>)

  datatype ItemStruct =
    ItemStruct(name: string, namespace: string, remotePath: string, localPath: string, version: string,
               dataSourceType: string, lifecycle: Ref?<LifecycleStruct>)

  datatype HdfsStruct = HdfsStruct(addresses: array?<string>, userName: string)

  datatype SourcesStruct = SourcesStruct(hdfs: Ref?<HdfsStruct>, alluxio: Ref?<AlluxioDataSource>)

  datatype SpecStruct =
    SpecStruct(dataItems: array?<ItemStruct>, lifecycle: Ref?<LifecycleStruct>, dataSources: Ref?<SourcesStruct>)

  datatype StatusStruct =
    StatusStruct(items: array?<ItemStatus>, dataItems: nat, success: nat, waiting: nat, downloading: nat, failed: nat,
                 ready: string)

  datatype DataStruct =
    DataStruct(name: string, labels: map<string, string>, finalizers: set<string>, deleted: bool, spec: SpecStruct,
               status: StatusStruct)

  // ---------- Footprints and values ----------

  ghost predicate RefIn<T>(p: Ref?<T>, fp: set<object>) {
    p != null ==> p in fp
  }

  ghost function ValueOf<T>(p: Ref?<T>, fp: set<object>): Option<T>
    requires RefIn(p, fp)
    reads fp
  {
    if p == null then None else Some(p.val)
  }

  ghost function SliceOf<T>(a: array?<T>, fp: set<object>): Slice<T>
    requires a != null ==> a in fp
    reads fp
  {
    if a == null then NilSlice else Slice(a[..])
  }

  ghost predicate HandlerIn(h: HandlerStruct, fp: set<object>) {
    RefIn(h.exec, fp) && RefIn(h.httpGet, fp)
  }

  ghost function HandlerValue(h: HandlerStruct, fp: set<object>): LifecycleHandler
    requires HandlerIn(h, fp)
    reads fp
  {
    LifecycleHandler(ValueOf(h.exec, fp), ValueOf(h.httpGet, fp))
  }

  ghost predicate HandlerRefIn(p: Ref?<HandlerStruct>, fp: set<object>)
    reads fp
  {
    p != null ==> p in fp && HandlerIn(p.val, fp)
  }

  ghost function HandlerRefValue(p: Ref?<HandlerStruct>, fp: set<object>): Option<LifecycleHandler>
    requires HandlerRefIn(p, fp)
    reads fp
  {
    if p == null then None else Some(HandlerValue(p.val, fp))
  }

  ghost predicate LifecycleRefIn(p: Ref?<LifecycleStruct>, fp: set<object>)
    reads fp
  {
    p != null ==> p in fp && HandlerRefIn(p.val.preDownload, fp) && HandlerRefIn(p.val.postDownload, fp)
  }

  ghost function LifecycleRefValue(p: Ref?<LifecycleStruct>, fp: set<object>): Option<Lifecycle>
    requires LifecycleRefIn(p, fp)
    reads fp
  {
    if p == null then None
    else Some(Lifecycle(HandlerRefValue(p.val.preDownload, fp), HandlerRefValue(p.val.postDownload, fp)))
  }

  ghost predicate ItemIn(x: ItemStruct, fp: set<object>)
    reads fp
  {
    LifecycleRefIn(x.lifecycle, fp)
  }

  ghost function ItemValue(x: ItemStruct, fp: set<object>): DataItem
    requires ItemIn(x, fp)
    reads fp
  {
    DataItem(x.name, x.namespace, x.remotePath, x.localPath, x.version, x.dataSourceType,
             LifecycleRefValue(x.lifecycle, fp))
  }

  ghost predicate AllItemsIn(xs: seq<ItemStruct>, fp: set<object>)
    reads fp
  {
    forall i :: 0 <= i < |xs| ==> ItemIn(xs[i], fp)
  }

  ghost function ItemValues(xs: seq<ItemStruct>, fp: set<object>): (vs: seq<DataItem>)
    requires AllItemsIn(xs, fp)
    reads fp
    ensures |vs| == |xs| && forall i :: 0 <= i < |xs| ==> vs[i] == ItemValue(xs[i], fp)
  {
    if xs == [] then []
    else
      assert AllItemsIn(xs[..|xs| - 1], fp);
      ItemValues(xs[..|xs| - 1], fp) + [ItemValue(xs[|xs| - 1], fp)]
  }

  ghost predicate HdfsRefIn(p: Ref?<HdfsStruct>, fp: set<object>)
    reads fp
  {
    p != null ==> p in fp && (p.val.addresses != null ==> p.val.addresses in fp)
  }

  ghost function HdfsRefValue(p: Ref?<HdfsStruct>, fp: set<object>): Option<HdfsDataSource>
    requires HdfsRefIn(p, fp)
    reads fp
  {
    if p == null then None else Some(HdfsDataSource(SliceOf(p.val.addresses, fp), p.val.userName))
  }

  ghost predicate SourcesRefIn(p: Ref?<SourcesStruct>, fp: set<object>)
    reads fp
  {
    p != null ==> p in fp && HdfsRefIn(p.val.hdfs, fp) && RefIn(p.val.alluxio, fp)
  }

  ghost function SourcesRefValue(p: Ref?<SourcesStruct>, fp: set<object>): Option<DataSources>
    requires SourcesRefIn(p, fp)
    reads fp
  {
    if p == null then None else Some(DataSources(HdfsRefValue(p.val.hdfs, fp), ValueOf(p.val.alluxio, fp)))
  }

  ghost predicate StatusIn(s: StatusStruct, fp: set<object>) {
    s.items != null ==> s.items in fp
  }

  ghost function StatusValue(s: StatusStruct, fp: set<object>): DataStatus
    requires StatusIn(s, fp)
    reads fp
  {
    DataStatus(SliceOf(s.items, fp), s.dataItems, s.success, s.waiting, s.downloading, s.failed, s.ready)
  }

  // ---------- A larger footprint changes nothing ----------

  lemma LifecycleWiden(p: Ref?<LifecycleStruct>, small: set<object>, large: set<object>)
    requires small <= large && LifecycleRefIn(p, small)
    ensures LifecycleRefIn(p, large) && LifecycleRefValue(p, large) == LifecycleRefValue(p, small)
  {}

  lemma SourcesWiden(p: Ref?<SourcesStruct>, small: set<object>, large: set<object>)
    requires small <= large && SourcesRefIn(p, small)
    ensures SourcesRefIn(p, large) && SourcesRefValue(p, large) == SourcesRefValue(p, small)
  {}

  lemma ItemsWiden(xs: seq<ItemStruct>, small: set<object>, large: set<object>)
    requires small <= large && AllItemsIn(xs, small)
    ensures AllItemsIn(xs, large) && ItemValues(xs, large) == ItemValues(xs, small)
  {
    forall i | 0 <= i < |xs|
      ensures ItemIn(xs[i], large) && ItemValue(xs[i], large) == ItemValue(xs[i], small)
    {
      LifecycleWiden(xs[i].lifecycle, small, large);
    }
  }

  // ---------- The copies ----------

  method CopyHandler(source: Ref?<HandlerStruct>, ghost fp: set<object>)
    returns (out: Ref?<HandlerStruct>, ghost fp': set<object>)
    requires HandlerRefIn(source, fp)
    ensures fresh(fp') && HandlerRefIn(out, fp') && HandlerRefValue(out, fp') == HandlerRefValue(source, fp)
  {
    fp' := {};
    if source == null { return null, {}; }
    var h := source.val;
    if source.val.exec != null {
      var exec := new Ref(source.val.exec.val);
      h := h.(exec := exec);
      fp' := fp' + {exec};
    }
    if source.val.httpGet != null {
      var httpGet := new Ref(source.val.httpGet.val);
      h := h.(httpGet := httpGet);
      fp' := fp' + {httpGet};
    }
    out := new Ref(h);
    fp' := fp' + {out};
  }

  method CopyLifecycle(source: Ref?<LifecycleStruct>, ghost fp: set<object>)
    returns (out: Ref?<LifecycleStruct>, ghost fp': set<object>)
    requires LifecycleRefIn(source, fp)
    ensures fresh(fp') && LifecycleRefIn(out, fp') && LifecycleRefValue(out, fp') == LifecycleRefValue(source, fp)
  {
    if source == null { return null, {}; }
    var pre, fpPre := CopyHandler(source.val.preDownload, fp);
    var post, fpPost := CopyHandler(source.val.postDownload, fp);
    out := new Ref(LifecycleStruct(pre, post));
    fp' := fpPre + fpPost + {out};
  }

  method CopyItem(source: ItemStruct, ghost fp: set<object>) returns (out: ItemStruct, ghost fp': set<object>)
    requires ItemIn(source, fp)
    ensures fresh(fp') && ItemIn(out, fp') && ItemValue(out, fp') == ItemValue(source, fp)
  {
    out, fp' := source, {};
    if source.lifecycle != null {
      var lifecycle;
      lifecycle, fp' := CopyLifecycle(source.lifecycle, fp);
      out := out.(lifecycle := lifecycle);
    }
  }

  ghost predicate AreItems(xs: seq<ItemStruct>, fp: set<object>, values: seq<DataItem>)
    reads fp
  {
    AllItemsIn(xs, fp) && ItemValues(xs, fp) == values
  }

  ghost predicate IsItem(x: ItemStruct, fp: set<object>, value: DataItem)
    reads fp
  {
    ItemIn(x, fp) && ItemValue(x, fp) == value
  }

  lemma OneMoreItem(xs: seq<ItemStruct>, parts: set<object>, values: seq<DataItem>, x: ItemStruct, more: set<object>,
                    value: DataItem)
    requires AreItems(xs, parts, values) && IsItem(x, more, value)
    ensures AreItems(xs + [x], parts + more, values + [value])
  {
    ItemsWiden(xs, parts, parts + more);
    LifecycleWiden(x.lifecycle, more, parts + more);
    assert (xs + [x])[..|xs|] == xs;
  }

  lemma ItemOf(xs: seq<ItemStruct>, fp: set<object>, values: seq<DataItem>, i: nat)
    requires AreItems(xs, fp, values) && i < |xs|
    ensures |values| == |xs| && IsItem(xs[i], fp, values[i])
  {}

  /** One round of the loop: an item is copied into its slot. */
  method FillItem(x: ItemStruct, copy: array<ItemStruct>, i: nat, ghost fp: set<object>,
                  ghost values: seq<DataItem>, ghost parts: set<object>)
    returns (ghost parts': set<object>)
    requires |values| == copy.Length && i < copy.Length && IsItem(x, fp, values[i])
    requires copy !in parts && AreItems(copy[..i], parts, values[..i])
    modifies copy
    ensures fresh(parts' - parts) && AreItems(copy[..i + 1], parts', values[..i + 1])
  {
    ghost var done := copy[..i];
    var item, more := CopyItem(x, fp);
    copy[i] := item;
    parts' := parts + more;
    assert AreItems(done, parts, values[..i]);
    assert IsItem(item, more, values[i]);
    OneMoreItem(done, parts, values[..i], item, more, values[i]);
    assert copy[..i + 1] == done + [item];
    assert values[..i + 1] == values[..i] + [values[i]];
  }

  ghost predicate IsItems(a: array?<ItemStruct>, fp: set<object>, value: Slice<DataItem>)
    reads fp
  {
    if a == null then value == NilSlice
    else a in fp && value.Slice? && AreItems(a[..], fp, value.elems)
  }

  method FillItems(source: array<ItemStruct>, copy: array<ItemStruct>, ghost fp: set<object>,
                   ghost values: seq<DataItem>)
    returns (ghost parts: set<object>)
    requires AreItems(source[..], fp, values) && copy.Length == source.Length == |values|
    requires copy !in fp && copy != source
    modifies copy
    ensures fresh(parts) && AreItems(copy[..], parts, values)
  {
    parts := {};
    ghost var xs := source[..];
    for i := 0 to source.Length
      invariant fresh(parts) && source[..] == xs
      invariant AreItems(xs, fp, values)
      invariant AreItems(copy[..i], parts, values[..i])
    {
      ItemOf(xs, fp, values, i);
      parts := FillItem(source[i], copy, i, fp, values, parts);
    }
    assert copy[..copy.Length] == copy[..];
    assert values[..source.Length] == values;
  }

  method CopyItems(source: array?<ItemStruct>, ghost fp: set<object>, ghost value: Slice<DataItem>)
    returns (out: array?<ItemStruct>, ghost fp': set<object>)
    requires IsItems(source, fp, value)
    ensures fresh(fp') && IsItems(out, fp', value)
  {
    if source == null { return null, {}; }
    assert |value.elems| == source.Length;
    var copy := new ItemStruct[source.Length];
    ghost var parts := FillItems(source, copy, fp, value.elems);
    fp' := parts + {copy};
    ItemsWiden(copy[..], parts, fp');
    out := copy;
  }

  method CopySlice<T(0)>(source: array?<T>, ghost fp: set<object>) returns (out: array?<T>, ghost fp': set<object>)
    requires source != null ==> source in fp
    ensures fresh(fp') && (out != null ==> out in fp') && SliceOf(out, fp') == SliceOf(source, fp)
  {
    if source == null { return null, {}; }
    var copy := new T[source.Length];
    for i := 0 to source.Length
      invariant copy[..i] == source[..i]
    {
      copy[i] := source[i];
    }
    out, fp' := copy, {copy};
  }

  method CopyHdfs(source: Ref?<HdfsStruct>, ghost fp: set<object>)
    returns (out: Ref?<HdfsStruct>, ghost fp': set<object>)
    requires HdfsRefIn(source, fp)
    ensures fresh(fp') && HdfsRefIn(out, fp') && HdfsRefValue(out, fp') == HdfsRefValue(source, fp)
  {
    if source == null { return null, {}; }
    var addresses;
    addresses, fp' := CopySlice(source.val.addresses, fp);
    out := new Ref(source.val.(addresses := addresses));
    fp' := fp' + {out};
  }

  method CopySources(source: Ref?<SourcesStruct>, ghost fp: set<object>)
    returns (out: Ref?<SourcesStruct>, ghost fp': set<object>)
    requires SourcesRefIn(source, fp)
    ensures fresh(fp') && SourcesRefIn(out, fp') && SourcesRefValue(out, fp') == SourcesRefValue(source, fp)
  {
    if source == null { return null, {}; }
    var hdfs;
    hdfs, fp' := CopyHdfs(source.val.hdfs, fp);
    var sources := source.val.(hdfs := hdfs);
    if source.val.alluxio != null {
      var alluxio := new Ref(source.val.alluxio.val);
      sources := sources.(alluxio := alluxio);
      fp' := fp' + {alluxio};
    }
    out := new Ref(sources);
    fp' := fp' + {out};
  }

  ghost predicate IsLifecycle(p: Ref?<LifecycleStruct>, fp: set<object>, value: Option<Lifecycle>)
    reads fp
  {
    LifecycleRefIn(p, fp) && LifecycleRefValue(p, fp) == value
  }

  ghost predicate IsSources(p: Ref?<SourcesStruct>, fp: set<object>, value: Option<DataSources>)
    reads fp
  {
    SourcesRefIn(p, fp) && SourcesRefValue(p, fp) == value
  }

  ghost predicate IsSpec(s: SpecStruct, fp: set<object>, value: DataSpec)
    reads fp
  {
    && IsItems(s.dataItems, fp, value.dataItems) && IsLifecycle(s.lifecycle, fp, value.lifecycle)
    && IsSources(s.dataSources, fp, value.dataSources)
  }

  lemma SpecOfParts(s: SpecStruct, fp1: set<object>, fp2: set<object>, fp3: set<object>, value: DataSpec)
    requires IsItems(s.dataItems, fp1, value.dataItems)
    requires IsLifecycle(s.lifecycle, fp2, value.lifecycle)
    requires IsSources(s.dataSources, fp3, value.dataSources)
    ensures IsSpec(s, fp1 + fp2 + fp3, value)
  {
    var fp := fp1 + fp2 + fp3;
    if s.dataItems != null { ItemsWiden(s.dataItems[..], fp1, fp); }
    LifecycleWiden(s.lifecycle, fp2, fp);
    SourcesWiden(s.dataSources, fp3, fp);
  }

  method CopyPointers(source: SpecStruct, ghost fp: set<object>, ghost lifecycleValue: Option<Lifecycle>,
                      ghost sourcesValue: Option<DataSources>)
    returns (lifecycle: Ref?<LifecycleStruct>, sources: Ref?<SourcesStruct>, ghost fp1: set<object>,
             ghost fp2: set<object>)
    requires IsLifecycle(source.lifecycle, fp, lifecycleValue) && IsSources(source.dataSources, fp, sourcesValue)
    ensures fresh(fp1) && IsLifecycle(lifecycle, fp1, lifecycleValue)
    ensures fresh(fp2) && IsSources(sources, fp2, sourcesValue)
  {
    lifecycle, fp1 := CopyLifecycle(source.lifecycle, fp);
    sources, fp2 := CopySources(source.dataSources, fp);
  }

  method CopySpec(source: SpecStruct, ghost fp: set<object>, ghost value: DataSpec)
    returns (out: SpecStruct, ghost fp': set<object>)
    requires IsSpec(source, fp, value)
    ensures fresh(fp') && IsSpec(out, fp', value)
  {
    var items, fp1 := CopyItems(source.dataItems, fp, value.dataItems);
    var lifecycle, sources, fp2, fp3 := CopyPointers(source, fp, value.lifecycle, value.dataSources);
    out := SpecStruct(items, lifecycle, sources);
    fp' := fp1 + fp2 + fp3;
    SpecOfParts(out, fp1, fp2, fp3, value);
  }

  method CopyStatus(source: StatusStruct, ghost fp: set<object>) returns (out: StatusStruct, ghost fp': set<object>)
    requires StatusIn(source, fp)
    ensures fresh(fp') && StatusIn(out, fp') && StatusValue(out, fp') == StatusValue(source, fp)
  {
    var items;
    items, fp' := CopySlice(source.items, fp);
    out := source.(items := items);
  }

  /** The item list on its own is copied without a guard: nil comes out empty. */
  method CopyItemsStatus(source: array?<ItemStatus>) returns (out: array<ItemStatus>)
    ensures fresh(out) && out[..] == if source == null then [] else source[..]
  {
    var n := if source == null then 0 else source.Length;
    out := new ItemStatus[n];
    for i := 0 to n
      invariant out[..i] == if source == null then [] else source[..i]
    {
      out[i] := source[i];
    }
  }

  ghost predicate IsStatus(s: StatusStruct, fp: set<object>, value: DataStatus)
    reads fp
  {
    StatusIn(s, fp) && StatusValue(s, fp) == value
  }

  ghost predicate IsData(d: DataStruct, fp: set<object>, value: Data)
    reads fp
  {
    && value == Data(d.name, d.labels, d.finalizers, d.deleted, value.spec, value.status)
    && IsSpec(d.spec, fp, value.spec) && IsStatus(d.status, fp, value.status)
  }

  lemma SpecWiden(s: SpecStruct, small: set<object>, large: set<object>, value: DataSpec)
    requires small <= large && IsSpec(s, small, value)
    ensures IsSpec(s, large, value)
  {
    if s.dataItems != null { ItemsWiden(s.dataItems[..], small, large); }
    LifecycleWiden(s.lifecycle, small, large);
    SourcesWiden(s.dataSources, small, large);
  }

  /** The fields of a Data: those without pointers are assigned, the others copied in depth. */
  method CopyDataStruct(source: DataStruct, ghost fp: set<object>, ghost value: Data)
    returns (out: DataStruct, ghost fp': set<object>)
    requires IsData(source, fp, value)
    ensures fresh(fp') && IsData(out, fp', value)
  {
    var spec, fp1 := CopySpec(source.spec, fp, value.spec);
    var status, fp2 := CopyStatus(source.status, fp);
    out := source.(spec := spec, status := status);
    fp' := fp1 + fp2;
    assert IsSpec(spec, fp1, value.spec);
    SpecWiden(spec, fp1, fp', value.spec);
  }

  method NewData(d: DataStruct, ghost fp: set<object>, ghost value: Data) returns (out: Ref<DataStruct>)
    requires IsData(d, fp, value)
    ensures fresh(out) && IsData(out.val, fp + {out}, value)
  {
    out := new Ref(d);
    assert IsSpec(d.spec, fp, value.spec);
    SpecWiden(d.spec, fp, fp + {out}, value.spec);
  }

  /** The copy of a Data has the same value, nil and empty slices told apart; every mutable object that can be reached
      from it is new, so it shares none with the original; and the original stays as it was. */
  method CopyData(source: Ref?<DataStruct>, ghost fp: set<object>, ghost value: Data)
    returns (out: Ref?<DataStruct>, ghost fp': set<object>)
    requires source != null ==> source in fp && IsData(source.val, fp, value)
    ensures (out == null) == (source == null)
    ensures fresh(fp') && fp' !! fp
    ensures source != null ==> out in fp' && IsData(out.val, fp', value)
    ensures unchanged(fp)
  {
    if source == null { return null, {}; }
    var copy, parts := CopyDataStruct(source.val, fp, value);
    out := NewData(copy, parts, value);
    fp' := parts + {out};
  }
}
