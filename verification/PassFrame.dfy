/** What a pass of the Data reconciler changes in the stored objects, and what it leaves alone, field by field: for
    every single call, interrupted or not, and for a whole pass. */
module PassFrame {
  import opened Types
  import opened Status
  import opened Server
  import opened Protocol
  import opened DataPass

  /** Everything about the pod but its digest. */
  ghost predicate KeepsPod(before: Pod, after: Pod) {
    && after.labels == before.labels && after.serviceAccount == before.serviceAccount
    && forall k: string :: k != "kuda.io/data-digest" ==>
         && (k in after.annotations <==> k in before.annotations)
         && (k in before.annotations ==> after.annotations[k] == before.annotations[k])
  }

  /** Everything about the Data but its status and the reconciler's finalizer. */
  predicate KeepsData(before: Data, after: Data) {
    && after.name == before.name && after.labels == before.labels && after.spec == before.spec
    && after.deleted == before.deleted
    && after.finalizers - {"kuda.io/finalizer"} == before.finalizers - {"kuda.io/finalizer"}
  }

  ghost predicate KeepsPodOf(before: Cell, after: Cell) {
    && (after.pod.Some? <==> before.pod.Some?)
    && (before.pod.Some? ==> KeepsPod(before.pod.value.obj, after.pod.value.obj))
  }

  predicate KeepsDataOf(before: Cell, after: Cell) {
    && (after.data.Some? ==> before.data.Some? && KeepsData(before.data.value.obj, after.data.value.obj))
    && (before.data.Some? && after.data.None? ==>
          before.data.value.obj.deleted && before.data.value.obj.finalizers <= {"kuda.io/finalizer"})
  }

  // ---------- Single calls ----------

  lemma CallKeepsPod(digest: DataSpec -> string, c: Cell, pass: Pass, now: nat)
    requires StoreInv(digest, c) && PassInv(digest, c, pass)
    ensures KeepsPodOf(c, Perform(digest, c, pass, now).0)
  {}

  lemma CallKeepsData(digest: DataSpec -> string, c: Cell, pass: Pass, now: nat)
    requires StoreInv(digest, c) && PassInv(digest, c, pass)
    ensures KeepsDataOf(c, Perform(digest, c, pass, now).0)
  {}

  /** Frame: no call of a pass creates or removes a pod, or changes anything about it but the digest; none creates a
      Data, or changes anything about it but the status and the reconciler's own finalizer; none takes a Data out of
      the store that is live or held by others; and the one binding a pass creates is that of the pod's account. */
  lemma CallFrame(digest: DataSpec -> string, c: Cell, pass: Pass, now: nat)
    requires StoreInv(digest, c) && PassInv(digest, c, pass)
    ensures var c' := Perform(digest, c, pass, now).0;
            && KeepsPodOf(c, c') && KeepsDataOf(c, c')
            && c'.bindings == c.bindings
                              + (if pass.CreateBinding? then {BindingName(pass.pod.obj.serviceAccount)} else {})
  {
    CallKeepsPod(digest, c, pass, now);
    CallKeepsData(digest, c, pass, now);
  }

  /** The same for a call of a run, whether it is served, refused or its reply is lost. */
  lemma TurnFrame(digest: DataSpec -> string, st: State, a: Action)
    requires CoreInv(digest, st) && (a.Go? || a.Lose? || a.Reject?)
    ensures KeepsPodOf(st.cell, Step(digest, st, a).cell) && KeepsDataOf(st.cell, Step(digest, st, a).cell)
    ensures a.Reject? ==> Step(digest, st, a).cell == st.cell
    ensures !a.Go? ==> Step(digest, st, a).pass == Finished(false)
  {
    if !a.Reject? {
      CallFrame(digest, st.cell, st.pass, a.now);
    }
  }

  /** An Update is refused without effect, and ends the pass with an error, if its object has changed since it was read
      or is gone. */
  lemma StaleDataIsRefused(digest: DataSpec -> string, c: Cell, pass: Pass, now: nat)
    requires pass.ReleaseOrphan? || pass.RemoveFinalizer? || pass.AddFinalizer?
             || (pass.WriteStatus? && DigestOf(pass.pod.obj) != Some(pass.tag))
    requires c.data.None? || c.data.value.version != pass.inst.version
    ensures Perform(digest, c, pass, now) == (c, Finished(false))
  {}

  lemma StalePodIsRefused(digest: DataSpec -> string, c: Cell, pass: Pass, now: nat)
    requires pass.WriteDigest? || pass.ClearDigest?
    requires c.pod.Some? && c.pod.value.version != pass.pod.version
    ensures Perform(digest, c, pass, now) == (c, Finished(false))
  {}

  /** A pod that is gone meanwhile fails the write of its digest, but is no obstacle on the deletion path. */
  lemma GonePod(digest: DataSpec -> string, c: Cell, pass: Pass, now: nat)
    requires (pass.WriteDigest? || pass.ClearDigest?) && c.pod.None?
    ensures Perform(digest, c, pass, now)
         == (c, if pass.ClearDigest? then RemoveFinalizer(pass.inst) else Finished(false))
  {}

  /** A Patch of the status is never refused while there is a Data, whatever its version. */
  lemma PatchGoesThrough(digest: DataSpec -> string, c: Cell, pass: Pass, now: nat)
    requires pass.WriteStatus? && DigestOf(pass.pod.obj) == Some(pass.tag)
    requires c.data.Some? && Kept(c.data.value.obj).Some?
    ensures var (c', pass') := Perform(digest, c, pass, now);
            && c'.data.Some? && pass' == FetchBinding(c'.data.value, pass.pod, pass.tag)
            && c'.data.value.obj.status.items == c.data.value.obj.status.items
  {
    RecountPatchKeepsItems(c.data.value.obj.status, pass.inst.obj.spec, pass.inst.obj.status);
  }

  predicate HasDigest(pod: Pod, tag: string) {
    "kuda.io/data-digest" in pod.annotations && pod.annotations["kuda.io/data-digest"] == tag
  }

  /** After the role binding was found: the digest is written exactly if the copy of the pod has not got it. */
  lemma NoNeedlessDigest(digest: DataSpec -> string, c: Cell, pass: Pass, now: nat)
    requires pass.FetchBinding? && BindingName(pass.pod.obj.serviceAccount) in c.bindings
    ensures var (c', pass') := Perform(digest, c, pass, now);
            c' == c && (pass'.WriteDigest? <==> !HasDigest(pass.pod.obj, pass.tag))
  {}

  /** ... and after that, a live Data that has the finalizer, and a marked one that has lost it, need no more calls. */
  lemma NoNeedlessFinalizer(digest: DataSpec -> string, c: Cell, pass: Pass, now: nat)
    requires pass.FetchBinding? && BindingName(pass.pod.obj.serviceAccount) in c.bindings
    requires HasDigest(pass.pod.obj, pass.tag)
    ensures Perform(digest, c, pass, now).1.Finished? <==>
              (pass.inst.obj.deleted <==> "kuda.io/finalizer" !in pass.inst.obj.finalizers)
  {}

  // ---------- A whole pass ----------

  /** The status a pass stores: the recount if the pod carried the digest of the spec, the reset otherwise. */
  predicate StatusStored(digest: DataSpec -> string, after: Data, before: Data, pod: Pod, now: nat) {
    if HasDigest(pod, digest(before.spec)) then IsRecount(after.status, before.spec, before.status)
    else IsDefault(after.status, before.spec, now)
  }

  /** Without a pod: the finalizer goes, and with it a marked Data that nobody else holds. */
  lemma PassWithoutPod(digest: DataSpec -> string, c: Cell, now: nat)
    requires c.data.Some? && Kept(c.data.value.obj).Some? && c.pod.None?
    ensures var before, (c', pass) := c.data.value.obj, WholePass(digest, c, now);
            && pass == Finished(true) && c'.pod.None? && c'.bindings == c.bindings
            && (c'.data.None? <==> before.deleted && before.finalizers <= {"kuda.io/finalizer"})
            && (c'.data.Some? ==>
                  var after := c'.data.value.obj;
                  && KeepsData(before, after) && after.status == before.status
                  && "kuda.io/finalizer" !in after.finalizers)
  {
    WholePassResult(digest, c, now);
  }

  /** Without the role binding: it is created, the status is stored, and the pass fails there. */
  lemma PassWithoutBinding(digest: DataSpec -> string, c: Cell, now: nat)
    requires c.data.Some? && Kept(c.data.value.obj).Some? && c.pod.Some?
    requires BindingName(c.pod.value.obj.serviceAccount) !in c.bindings
    ensures var before, pod, (c', pass) := c.data.value.obj, c.pod.value.obj, WholePass(digest, c, now);
            && pass == Finished(false) && c'.bindings == c.bindings + {BindingName(pod.serviceAccount)}
            && ObjOf(c'.pod) == Some(pod) && c'.data.Some?
            && var after := c'.data.value.obj;
               && KeepsData(before, after) && after.finalizers == before.finalizers
               && StatusStored(digest, after, before, pod, now)
  {
    WholePassResult(digest, c, now);
    DefaultFields(c.data.value.obj.spec, now);
    RecountFields(c.data.value.obj.spec, c.data.value.obj.status);
  }

  /** Otherwise the pass goes through.  A live Data gets its digest on the pod, the finalizer and its status.  Of a
      marked one that has the finalizer, digest and finalizer go, and with them the Data if nobody else holds it; one
      that has lost it keeps its other finalizers and gets the digest again. */
  lemma PassGoesOn(digest: DataSpec -> string, c: Cell, now: nat)
    requires c.data.Some? && Kept(c.data.value.obj).Some? && c.pod.Some?
    requires BindingName(c.pod.value.obj.serviceAccount) in c.bindings
    ensures var before, pod, (c', pass) := c.data.value.obj, c.pod.value.obj, WholePass(digest, c, now);
            var clears := before.deleted && "kuda.io/finalizer" in before.finalizers;
            && pass == Finished(true) && c'.bindings == c.bindings && c'.pod.Some? && KeepsPod(pod, c'.pod.value.obj)
            && (if clears then "kuda.io/data-digest" !in c'.pod.value.obj.annotations
                else HasDigest(c'.pod.value.obj, digest(before.spec)))
            && (c'.data.None? <==> clears && before.finalizers == {"kuda.io/finalizer"})
            && (c'.data.Some? ==>
                  var after := c'.data.value.obj;
                  && KeepsData(before, after) && StatusStored(digest, after, before, pod, now)
                  && ("kuda.io/finalizer" in after.finalizers <==> !before.deleted))
  {
    WholePassResult(digest, c, now);
    DefaultFields(c.data.value.obj.spec, now);
    RecountFields(c.data.value.obj.spec, c.data.value.obj.status);
  }

  /** A pass for a Data that is gone does nothing and reports no error. */
  lemma PassWithoutData(digest: DataSpec -> string, c: Cell, now: nat)
    requires c.data.None?
    ensures WholePass(digest, c, now) == (c, Finished(true))
  {
    SettleStep(digest, c, Idle, now);
  }
}
