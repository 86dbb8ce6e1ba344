/** The DataSet reconciler among the others of module Protocol: what its passes write to one Data, whole or cut off,
    is a run of the machine, and when that run is allowed. */
module Composition {
  import opened Types
  import opened Status
  import opened Server
  import opened Protocol
  import opened DataPass
  import opened Sync

  /** The update phase on one name. */
  function UpdateActions(ds: DataSet, pods: seq<string>, n: string, before: Option<Data>): seq<Action> {
    var pod := NamedBy(ds, pods, n);
    if pod.None? then []
    else
      match before
      case None =>
        NamedByNames(ds, pods, n);
        [Action.Create(n, NewDataResource(ds, pod.value).labels, SpecOf(ds.template))]
      case Some(d) =>
        if BelongsTo(d, ds.name) && d.spec != SpecOf(ds.template) then [Rollout(SpecOf(ds.template))] else []
  }

  /** The prune phase. */
  function PruneActions(ds: DataSet, pods: seq<string>, before: Option<Data>): seq<Action> {
    if before.Some? && BelongsTo(before.value, ds.name) && PodNameOf(before.value) !in pods then [Delete] else []
  }

  function PassActions(ds: DataSet, pods: seq<string>, n: string, before: Option<Data>): seq<Action> {
    UpdateActions(ds, pods, n, before) + PruneActions(ds, pods, Updated(ds, pods, n, before))
  }

  predicate Stores(c: Cell, d: Option<Data>) {
    ObjOf(c.data) == d && (d.Some? ==> Kept(d.value).Some?)
  }

  lemma UpdateIsRun(digest: DataSpec -> string, st: State, ds: DataSet, pods: seq<string>, n: string)
    requires Stores(st.cell, ObjOf(st.cell.data))
    ensures var end := Run(digest, st, UpdateActions(ds, pods, n, ObjOf(st.cell.data)));
            && Stores(end.cell, Updated(ds, pods, n, ObjOf(st.cell.data)))
            && end.pass == st.pass && end.cell.pod == st.cell.pod
  {
    var actions := UpdateActions(ds, pods, n, ObjOf(st.cell.data));
    NamedByNames(ds, pods, n);
    if actions == [] {
      assert Run(digest, st, []) == st;
    } else {
      OneAction(digest, st, actions[0]);
      assert actions == [actions[0]];
    }
  }

  lemma PruneIsRun(digest: DataSpec -> string, st: State, ds: DataSet, pods: seq<string>)
    requires Stores(st.cell, ObjOf(st.cell.data))
    ensures var end := Run(digest, st, PruneActions(ds, pods, ObjOf(st.cell.data)));
            Stores(end.cell, Pruned(ds, pods, ObjOf(st.cell.data)))
  {
    var actions := PruneActions(ds, pods, ObjOf(st.cell.data));
    if actions == [] {
      assert Run(digest, st, []) == st;
    } else {
      OneAction(digest, st, Delete);
    }
  }

  /** What a pass leaves of one Data, wherever it is cut off, is what some first part of its actions leaves. */
  lemma PassIsRun(digest: DataSpec -> string, st: State, ds: DataSet, pods: seq<string>, n: string, after: Option<Data>)
    returns (k: nat)
    requires Stores(st.cell, ObjOf(st.cell.data)) && Reached(ds, pods, n, ObjOf(st.cell.data), after)
    ensures var actions := PassActions(ds, pods, n, ObjOf(st.cell.data));
            k <= |actions| && Stores(Run(digest, st, actions[..k]).cell, after)
  {
    var before := ObjOf(st.cell.data);
    var update, prune := UpdateActions(ds, pods, n, before), PruneActions(ds, pods, Updated(ds, pods, n, before));
    var actions := PassActions(ds, pods, n, before);
    UpdateIsRun(digest, st, ds, pods, n);
    PruneIsRun(digest, Run(digest, st, update), ds, pods);
    RunConcat(digest, st, update, prune);
    assert actions[..0] == [] && actions[..|update|] == update && actions[..|actions|] == actions;
    k := if after == before then 0 else if after == Updated(ds, pods, n, before) then |update| else |actions|;
  }

  /** The pass writes no spec whose digest the pod carries although the items are not that spec's, and deletes no Data
      without finalizers before it may leave. */
  predicate MayPass(digest: DataSpec -> string, st: State, ds: DataSet, pods: seq<string>, n: string) {
    st.cell.data.Some? && BelongsTo(st.cell.data.value.obj, ds.name) ==>
      var d := st.cell.data.value.obj;
      && (NamedBy(ds, pods, n).Some? && d.spec != SpecOf(ds.template)
          && PodDigest(st.cell) == Some(digest(SpecOf(ds.template))) ==>
            Aligned(d.status.items.Elems(), ds.template.dataItems.Elems()))
      && (PodNameOf(d) !in pods && d.finalizers == {} ==> MayLeave(st))
  }

  /** That is exactly when its actions are allowed. */
  lemma PassIsAllowedIff(digest: DataSpec -> string, st: State, ds: DataSet, pods: seq<string>, n: string)
    requires Stores(st.cell, ObjOf(st.cell.data))
    ensures AllowedRun(digest, st, PassActions(ds, pods, n, ObjOf(st.cell.data))) <==> MayPass(digest, st, ds, pods, n)
  {
    var before := ObjOf(st.cell.data);
    var update, prune := UpdateActions(ds, pods, n, before), PruneActions(ds, pods, Updated(ds, pods, n, before));
    NamedByNames(ds, pods, n);
    if NamedBy(ds, pods, n).Some? { LabelsOfNew(ds, NamedBy(ds, pods, n).value); }
    UpdateIsRun(digest, st, ds, pods, n);
    RunConcat(digest, st, update, prune);
    if update != [] { OneAction(digest, st, update[0]); }
    if prune != [] { OneAction(digest, Run(digest, st, update), Delete); }
  }

  /** A pass of the DataSet reconciler, cut off anywhere, in the middle of a pass of the Data reconciler: under that
      condition the invariant of the protocol holds for what it leaves. */
  lemma DataSetPassKeepsInv(digest: DataSpec -> string, st: State, ds: DataSet, pods: seq<string>, n: string,
                            after: Option<Data>)
    returns (k: nat)
    requires Injective(digest) && Inv(digest, st) && MayPass(digest, st, ds, pods, n)
    requires Reached(ds, pods, n, ObjOf(st.cell.data), after)
    ensures k <= |PassActions(ds, pods, n, ObjOf(st.cell.data))|
    ensures var end := Run(digest, st, PassActions(ds, pods, n, ObjOf(st.cell.data))[..k]);
            Inv(digest, end) && Stores(end.cell, after)
  {
    var actions := PassActions(ds, pods, n, ObjOf(st.cell.data));
    k := PassIsRun(digest, st, ds, pods, n, after);
    PassIsAllowedIff(digest, st, ds, pods, n);
    assert actions == actions[..k] + actions[k..];
    RunConcat(digest, st, actions[..k], actions[k..]);
    RunKeepsInv(digest, st, actions[..k]);
  }
}
