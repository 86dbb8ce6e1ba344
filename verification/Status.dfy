/** Status of a Data object: the reset written for a new spec, the recount of the item phases,
    and the merge patch that stores a recount. */
module Status {
  import opened Types
  import opened Numbers

  // ---------- Items and counters ----------

  function Count(items: seq<ItemStatus>, phase: Phase): nat {
    if items == [] then 0
    else Count(items[..|items| - 1], phase) + (if items[|items| - 1].phase == phase then 1 else 0)
  }

  function DefaultItem(item: DataItem, now: nat): ItemStatus {
    ItemStatus(item.name, item.namespace, item.version, Waiting, now, "")
  }

  function DefaultItems(items: seq<DataItem>, now: nat): seq<ItemStatus> {
    seq(|items|, i requires 0 <= i < |items| => DefaultItem(items[i], now))
  }

  function DefaultStatus(spec: DataSpec, now: nat): DataStatus {
    var n := |spec.dataItems.Elems()|;
    DataStatus(Slice(DefaultItems(spec.dataItems.Elems(), now)), n, 0, n, 0, 0, "0/" + Decimal(n))
  }

  function LatestStatus(spec: DataSpec, status: DataStatus): DataStatus {
    var items := status.items.Elems();
    var n := |spec.dataItems.Elems()|;
    DataStatus(status.items, n, Count(items, Success), Count(items, Waiting), Count(items, Downloading),
               Count(items, Failed), Ready(Count(items, Success), n))
  }

  predicate SameKey(item: ItemStatus, wanted: DataItem) {
    item.name == wanted.name && item.namespace == wanted.namespace && item.version == wanted.version
  }

  /** The status lists exactly the items of the spec, in order, by name, namespace and version. */
  predicate Aligned(items: seq<ItemStatus>, wanted: seq<DataItem>) {
    |items| == |wanted| && forall i :: 0 <= i < |items| ==> SameKey(items[i], wanted[i])
  }

  predicate AllIn(items: seq<ItemStatus>, phase: Phase) {
    forall i :: 0 <= i < |items| ==> items[i].phase == phase
  }

  // ---------- What the fields say ----------

  /** Each counter is the number of the items in its own phase. */
  predicate CountsPhases(s: DataStatus, items: seq<ItemStatus>) {
    && s.waiting == |set i | 0 <= i < |items| && items[i].phase == Waiting|
    && s.downloading == |set i | 0 <= i < |items| && items[i].phase == Downloading|
    && s.success == |set i | 0 <= i < |items| && items[i].phase == Success|
    && s.failed == |set i | 0 <= i < |items| && items[i].phase == Failed|
  }

  /** The items stay, the counters count them, and the column "ready" shows how many of the spec's have arrived. */
  predicate IsRecount(s: DataStatus, spec: DataSpec, before: DataStatus) {
    && s.items == before.items && s.dataItems == |spec.dataItems.Elems()|
    && CountsPhases(s, before.items.Elems())
    && Shows(s.ready, s.success, s.dataItems)
  }

  /** One item for each of the spec's, in order, waiting since now without a message; none has arrived. */
  predicate IsDefault(s: DataStatus, spec: DataSpec, now: nat) {
    var wanted := spec.dataItems.Elems();
    && s.items.Slice? && |s.items.elems| == |wanted| == s.dataItems == s.waiting
    && (forall i :: 0 <= i < |wanted| ==>
          && s.items.elems[i].name == wanted[i].name && s.items.elems[i].namespace == wanted[i].namespace
          && s.items.elems[i].version == wanted[i].version && s.items.elems[i].phase == Waiting
          && s.items.elems[i].startTime == now && s.items.elems[i].message == "")
    && s.success == 0 && s.downloading == 0 && s.failed == 0
    && Shows(s.ready, 0, |wanted|)
  }

  lemma PositionsOf(items: seq<ItemStatus>, front: seq<ItemStatus>, last: ItemStatus, phase: Phase)
    requires items == front + [last]
    ensures (set i | 0 <= i < |items| && items[i].phase == phase)
         == (set i | 0 <= i < |front| && front[i].phase == phase) + (if last.phase == phase then {|front|} else {})
  {
    assert forall i :: 0 <= i < |front| ==> front[i] == items[i];
  }

  lemma {:induction false} CountIsSize(items: seq<ItemStatus>, phase: Phase)
    ensures Count(items, phase) == |set i | 0 <= i < |items| && items[i].phase == phase|
  {
    if items != [] {
      var front, last := items[..|items| - 1], items[|items| - 1];
      PositionsOf(items, front, last, phase);
      CountIsSize(front, phase);
    }
  }

  lemma RecountFields(spec: DataSpec, before: DataStatus)
    ensures IsRecount(LatestStatus(spec, before), spec, before)
  {
    var items := before.items.Elems();
    CountIsSize(items, Waiting);
    CountIsSize(items, Downloading);
    CountIsSize(items, Success);
    CountIsSize(items, Failed);
    ReadyReads(Count(items, Success), |spec.dataItems.Elems()|);
  }

  lemma DefaultFields(spec: DataSpec, now: nat)
    ensures IsDefault(DefaultStatus(spec, now), spec, now)
  {
    var n := |spec.dataItems.Elems()|;
    ReadyReads(0, n);
    assert Ready(0, n) == "0/" + Decimal(n);
  }

  // ---------- The loops ----------

  method GenDefaultStatus(spec: DataSpec, now: nat) returns (status: DataStatus)
    ensures status == DefaultStatus(spec, now) && IsDefault(status, spec, now)
  {
    var wanted := spec.dataItems.Elems();
    var items: seq<ItemStatus> := [];
    for i := 0 to |wanted|
      invariant items == DefaultItems(wanted, now)[..i]
    {
      items := items + [ItemStatus(wanted[i].name, wanted[i].namespace, wanted[i].version, Waiting, now, "")];
    }
    assert items == DefaultItems(wanted, now);
    status := DataStatus(Slice(items), |wanted|, 0, |wanted|, 0, 0, "0/" + Decimal(|wanted|));
    DefaultFields(spec, now);
  }

  method GenLatestStatus(spec: DataSpec, before: DataStatus) returns (status: DataStatus)
    ensures status == LatestStatus(spec, before) && IsRecount(status, spec, before)
  {
    var n := |spec.dataItems.Elems()|;
    status := DataStatus(before.items, n, 0, 0, 0, 0, "");
    var items := before.items.Elems();
    for i := 0 to |items|
      invariant status.items == before.items && status.dataItems == n && status.ready == ""
      invariant status.success == Count(items[..i], Success)
      invariant status.waiting == Count(items[..i], Waiting)
      invariant status.downloading == Count(items[..i], Downloading)
      invariant status.failed == Count(items[..i], Failed)
    {
      assert items[..i + 1][..i] == items[..i];
      match items[i].phase {
        case Waiting => status := status.(waiting := status.waiting + 1);
        case Success => status := status.(success := status.success + 1);
        case Downloading => status := status.(downloading := status.downloading + 1);
        case Failed => status := status.(failed := status.failed + 1);
        case Unknown(_) =>
      }
    }
    assert items[..|items|] == items;
    status := status.(ready := Ready(status.success, n));
    RecountFields(spec, before);
  }

  lemma {:induction false} CountConcat(a: seq<ItemStatus>, b: seq<ItemStatus>, phase: Phase)
    ensures Count(a + b, phase) == Count(a, phase) + Count(b, phase)
  {
    if b == [] {
      assert a + b == a;
    } else {
      CountConcat(a, b[..|b| - 1], phase);
      assert (a + b)[..|a + b| - 1] == a + b[..|b| - 1];
    }
  }

  /** All the items are in a phase exactly when its counter is the number of items. */
  lemma {:induction false} CountFull(items: seq<ItemStatus>, phase: Phase)
    ensures Count(items, phase) <= |items|
    ensures Count(items, phase) == |items| <==> AllIn(items, phase)
  {
    if items != [] {
      var front := items[..|items| - 1];
      CountFull(front, phase);
      if AllIn(front, phase) && items[|items| - 1].phase == phase {
        assert forall i :: 0 <= i < |items| ==> items[i] == if i < |front| then front[i] else items[|items| - 1];
      }
      if AllIn(items, phase) {
        assert forall i :: 0 <= i < |front| ==> front[i] == items[i];
      }
    }
  }

  lemma {:induction false} CountNone(items: seq<ItemStatus>, phase: Phase)
    requires forall i :: 0 <= i < |items| ==> items[i].phase != phase
    ensures Count(items, phase) == 0
  {
    if items != [] {
      CountNone(items[..|items| - 1], phase);
    }
  }

  predicate Known(phase: Phase) {
    !phase.Unknown?
  }

  function Strangers(items: seq<ItemStatus>): nat {
    if items == [] then 0
    else Strangers(items[..|items| - 1]) + (if Known(items[|items| - 1].phase) then 0 else 1)
  }

  /** The four counters partition the items: what they miss is exactly the items in another phase. */
  lemma {:induction false} CountersPartition(items: seq<ItemStatus>)
    ensures Count(items, Waiting) + Count(items, Downloading) + Count(items, Success) + Count(items, Failed)
            + Strangers(items) == |items|
    ensures Strangers(items) == 0 <==> forall i :: 0 <= i < |items| ==> Known(items[i].phase)
  {
    if items != [] {
      var front, last := items[..|items| - 1], items[|items| - 1];
      CountersPartition(front);
      assert forall i :: 0 <= i < |items| ==> items[i] == if i < |front| then front[i] else last;
      assert forall i :: 0 <= i < |front| ==> front[i] == items[i];
    }
  }

  lemma CountWithout(b: seq<ItemStatus>, k: nat, phase: Phase)
    requires k < |b|
    ensures Count(b, phase) == Count(b[..k] + b[k + 1..], phase) + Count([b[k]], phase)
    ensures multiset(b[..k] + b[k + 1..]) == multiset(b) - multiset{b[k]}
  {
    assert b == b[..k] + ([b[k]] + b[k + 1..]);
    CountConcat(b[..k], [b[k]] + b[k + 1..], phase);
    CountConcat([b[k]], b[k + 1..], phase);
    CountConcat(b[..k], b[k + 1..], phase);
  }

  lemma {:induction false} CountPermutation(a: seq<ItemStatus>, b: seq<ItemStatus>, phase: Phase)
    requires multiset(a) == multiset(b)
    ensures Count(a, phase) == Count(b, phase)
  {
    if a == [] {
      assert |multiset(b)| == 0;
    } else {
      assert a[0] in multiset(b);
      var k :| 0 <= k < |b| && b[k] == a[0];
      CountWithout(a, 0, phase);
      CountWithout(b, k, phase);
      assert a[..0] + a[0 + 1..] == a[1..];
      CountPermutation(a[1..], b[..k] + b[k + 1..], phase);
    }
  }

  /** Reordering the status items changes nothing but their order in a recount. */
  lemma RecountIgnoresOrder(spec: DataSpec, a: DataStatus, b: DataStatus)
    requires multiset(a.items.Elems()) == multiset(b.items.Elems())
    ensures LatestStatus(spec, a).(items := b.items) == LatestStatus(spec, b)
  {
    forall phase {
      CountPermutation(a.items.Elems(), b.items.Elems(), phase);
    }
  }

  /** A reset is a fixpoint of the recount: it lists the spec's items, all waiting, and the recount
      of those items gives the reset back. */
  lemma ResetIsRecounted(spec: DataSpec, now: nat)
    ensures LatestStatus(spec, DefaultStatus(spec, now)) == DefaultStatus(spec, now)
    ensures Aligned(DefaultStatus(spec, now).items.Elems(), spec.dataItems.Elems())
    ensures AllIn(DefaultStatus(spec, now).items.Elems(), Waiting)
  {
    var items := DefaultItems(spec.dataItems.Elems(), now);
    CountFull(items, Waiting);
    CountNone(items, Success);
    CountNone(items, Downloading);
    CountNone(items, Failed);
    assert Ready(0, |items|) == "0/" + Decimal(|items|);
  }

  /** A recount keeps the items, and recounting again changes nothing. */
  lemma RecountIdempotent(spec: DataSpec, status: DataStatus)
    ensures LatestStatus(spec, status).items == status.items
    ensures LatestStatus(spec, LatestStatus(spec, status)) == LatestStatus(spec, status)
  {}

  // ---------- Storing a recount: JSON merge patch, RFC 7396 ----------

  datatype Json = JNull | JNumber(n: int) | JString(s: string) | JArray(items: seq<ItemStatus>)

  /** The members of a marshalled status, one for each field. */
  datatype Member =
    | ItemsMember | DataItemsMember | SuccessMember | WaitingMember | DownloadingMember | FailedMember | ReadyMember

  type JObject = map<Member, Json>

  function ItemsJson(items: Slice<ItemStatus>): Json {
    if items.NilSlice? then JNull else JArray(items.elems)
  }

  function ToJson(s: DataStatus): JObject {
    map[ItemsMember := ItemsJson(s.items), DataItemsMember := JNumber(s.dataItems), SuccessMember := JNumber(s.success),
        WaitingMember := JNumber(s.waiting), DownloadingMember := JNumber(s.downloading),
        FailedMember := JNumber(s.failed), ReadyMember := JString(s.ready)]
  }

  /** The patch that turns one document into another: changed and new members, and null for lost ones. */
  function CreatePatch(before: JObject, after: JObject): JObject {
    map k | k in before.Keys + after.Keys && !(k in before && k in after && before[k] == after[k])
      :: if k in after then after[k] else JNull
  }

  /** Section 2 of RFC 7396 on members that are not objects: null removes, anything else replaces. */
  function MergePatch(target: JObject, patch: JObject): JObject {
    map k | k in target.Keys + patch.Keys && !(k in patch && patch[k] == JNull)
      :: if k in patch then patch[k] else target[k]
  }

  /** The same on the fields of a status: a field moves exactly when the patch mentions it. */
  function Merged(stored: DataStatus, before: DataStatus, after: DataStatus): DataStatus {
    DataStatus(if before.items == after.items then stored.items else after.items,
               if before.dataItems == after.dataItems then stored.dataItems else after.dataItems,
               if before.success == after.success then stored.success else after.success,
               if before.waiting == after.waiting then stored.waiting else after.waiting,
               if before.downloading == after.downloading then stored.downloading else after.downloading,
               if before.failed == after.failed then stored.failed else after.failed,
               if before.ready == after.ready then stored.ready else after.ready)
  }

  lemma HasMember(s: DataStatus, k: Member)
    ensures k in ToJson(s)
  {}

  /** Patching a document with the difference of two others, on a member they all have. */
  lemma PatchedDocument(stored: JObject, before: JObject, after: JObject, k: Member)
    requires k in stored && k in before && k in after && (before[k] != after[k] ==> after[k] != JNull)
    ensures var patch := CreatePatch(before, after);
            && (k in patch <==> before[k] != after[k])
            && k in MergePatch(stored, patch)
            && MergePatch(stored, patch)[k] == if before[k] == after[k] then stored[k] else after[k]
  {}

  /** One member of a patched status: if the patch has it, it is set, otherwise it stays as stored. */
  lemma PatchedMember(stored: DataStatus, before: DataStatus, after: DataStatus, k: Member)
    requires k in ToJson(before) && k in ToJson(after) && k in ToJson(stored)
    requires k in ToJson(Merged(stored, before, after))
    requires k == ItemsMember ==> before.items == after.items
    ensures var patch := CreatePatch(ToJson(before), ToJson(after));
            var result := MergePatch(ToJson(stored), patch);
            && (k in patch <==> ToJson(before)[k] != ToJson(after)[k])
            && k in result && result[k] == ToJson(Merged(stored, before, after))[k]
  {
    assert k != ItemsMember ==> ToJson(after)[k] != JNull;
    PatchedDocument(ToJson(stored), ToJson(before), ToJson(after), k);
  }

  /** The same on the fields. */
  lemma RecountPatchKeepsItems(stored: DataStatus, spec: DataSpec, snapshot: DataStatus)
    ensures Merged(stored, snapshot, LatestStatus(spec, snapshot)).items == stored.items
    ensures Merged(snapshot, snapshot, LatestStatus(spec, snapshot)) == LatestStatus(spec, snapshot)
  {}

  /** Patch non-interference.  The patch of a recount never mentions the item list: merged into any stored status, it is
      the field-wise merge and keeps the stored items, whatever the runtime has put there meanwhile; merged into its
      own base, it gives the recount, whose counters count the stored items. */
  lemma PatchOfRecount(stored: DataStatus, spec: DataSpec, snapshot: DataStatus)
    ensures var patch := CreatePatch(ToJson(snapshot), ToJson(LatestStatus(spec, snapshot)));
            && ItemsMember !in patch
            && MergePatch(ToJson(stored), patch) == ToJson(Merged(stored, snapshot, LatestStatus(spec, snapshot)))
            && Merged(stored, snapshot, LatestStatus(spec, snapshot)).items == stored.items
            && (stored == snapshot ==> MergePatch(ToJson(stored), patch) == ToJson(LatestStatus(spec, stored)))
            && LatestStatus(spec, LatestStatus(spec, stored)) == LatestStatus(spec, stored)
  {
    var after := LatestStatus(spec, snapshot);
    var patch := CreatePatch(ToJson(snapshot), ToJson(after));
    var result, wanted := MergePatch(ToJson(stored), patch), ToJson(Merged(stored, snapshot, after));
    forall k: Member
      ensures k in result && k in wanted && result[k] == wanted[k]
    {
      HasMember(stored, k);
      HasMember(snapshot, k);
      HasMember(after, k);
      HasMember(Merged(stored, snapshot, after), k);
      PatchedMember(stored, snapshot, after, k);
    }
    PatchedMember(stored, snapshot, after, ItemsMember);
    RecountPatchKeepsItems(stored, spec, snapshot);
    RecountIdempotent(spec, stored);
  }
}
