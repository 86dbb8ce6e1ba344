/** From the states of the protocol to the passes over a namespace: where every selected pod is in a state that allowed
    runs reach, digests are faithful. */
module FaithfulStates {
  import opened Types
  import opened Names
  import opened Server
  import opened Protocol
  import opened DataPass
  import opened Sync
  import opened World
  import opened AtRest

  /** What the cell of a selected pod holds: the pod, its own Data if it has one, and the role bindings. */
  predicate Shows(w: World, d: string, p: string, c: Cell)
    requires p in w.pods
  {
    && ObjOf(c.pod) == Some(w.pods[p]) && c.bindings == w.bindings
    && ObjOf(c.data) == if HasOwnData(w, d, p) then Some(w.datas[DataNameByPod(d, p)]) else None
  }

  /** The protocol has come to this state, the DataSet reconciler may write its template, and if that changes the spec,
      the role binding has not been taken away. */
  ghost predicate IsStateOf(digest: DataSpec -> string, w: World, d: string, p: string, st: State)
    requires d in w.datasets && p in w.pods
  {
    var template := SpecOf(w.datasets[d].template);
    && Inv(digest, st) && Shows(w, d, p, st.cell) && Allowed(digest, st, Rollout(template))
    && (st.cell.data.Some? && st.cell.data.value.obj.spec != template ==>
          BindingName(w.pods[p].serviceAccount) in w.bindings)
  }

  lemma StateIsFaithful(digest: DataSpec -> string, w: World, d: string, p: string, st: State)
    requires d in w.datasets && p in w.pods && IsStateOf(digest, w, d, p, st)
    ensures TemplateIsNew(digest, w, d, p)
    ensures HasOwnData(w, d, p) ==> DigestTells(digest, w, DataNameByPod(d, p))
  {}

  lemma StatesAreFaithful(digest: DataSpec -> string, w: World, states: map<(string, string), State>)
    requires WellFormed(w)
    requires forall d, p :: d in w.datasets && p in Selected(w, d) ==>
               (d, p) in states && IsStateOf(digest, w, d, p, states[(d, p)])
    ensures Faithful(digest, w)
  {
    forall d, p | d in w.datasets && p in Selected(w, d)
      ensures TemplateIsNew(digest, w, d, p)
    {
      StateIsFaithful(digest, w, d, p, states[(d, p)]);
    }
    forall n | n in w.datas
      ensures DigestTells(digest, w, n)
    {
      assert DataOk(w, n);
      if HasItsPod(w, n) {
        var d, p := Owner(w.datas[n]), PodNameOf(w.datas[n]);
        StateIsFaithful(digest, w, d, p, states[(d, p)]);
      }
    }
  }
}
