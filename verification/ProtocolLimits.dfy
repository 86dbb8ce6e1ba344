/** How far the promises of the Data reconciler reach: each thing the other writers are held to is needed,
    and what goes wrong without it. */
module ProtocolLimits {
  import opened Types
  import opened Status
  import opened Server
  import opened Protocol
  import opened DataPass

  /** Safe now and after every further run in which the others keep to what is asked of them. */
  ghost predicate AlwaysSafe(digest: DataSpec -> string, st: State) {
    forall actions | AllowedRun(digest, st, actions) :: Safe(digest, Run(digest, st, actions).cell)
  }

  lemma CoreIsAlwaysSafe(digest: DataSpec -> string, st: State)
    requires Injective(digest) && CoreInv(digest, st)
    ensures AlwaysSafe(digest, st)
  {
    forall actions | AllowedRun(digest, st, actions)
      ensures Safe(digest, Run(digest, st, actions).cell)
    {
      RunKeepsCore(digest, st, actions);
    }
  }

  lemma AlwaysSafeNow(digest: DataSpec -> string, st: State)
    requires AlwaysSafe(digest, st)
    ensures Safe(digest, st.cell)
  {
    assert AllowedRun(digest, st, []) && Run(digest, st, []) == st;
  }

  lemma AlwaysSafeAfter(digest: DataSpec -> string, st: State, actions: seq<Action>)
    requires AlwaysSafe(digest, st) && AllowedRun(digest, st, actions)
    ensures AlwaysSafe(digest, Run(digest, st, actions))
  {
    var next := Run(digest, st, actions);
    forall more | AllowedRun(digest, next, more)
      ensures Safe(digest, Run(digest, next, more).cell)
    {
      RunConcat(digest, st, actions, more);
    }
  }

  lemma AlwaysSafeNext(digest: DataSpec -> string, st: State, a: Action)
    requires AlwaysSafe(digest, st) && Allowed(digest, st, a)
    ensures AlwaysSafe(digest, Step(digest, st, a))
  {
    OneAction(digest, st, a);
    AlwaysSafeAfter(digest, st, [a]);
  }

  /** At any point of any pass, a spec may be written and nothing can ever go wrong, exactly if the pod does not carry
      that spec's digest or the stored items are that spec's. */
  lemma RolloutIsSafeIff(digest: DataSpec -> string, st: State, spec: DataSpec)
    requires Injective(digest) && CoreInv(digest, st)
    requires st.cell.data.Some?
    ensures AlwaysSafe(digest, Step(digest, st, Rollout(spec)))
       <==> PodDigest(st.cell) != Some(digest(spec))
            || Aligned(st.cell.data.value.obj.status.items.Elems(), spec.dataItems.Elems())
  {
    var after := Step(digest, st, Rollout(spec));
    if Allowed(digest, st, Rollout(spec)) {
      StepKeepsCore(digest, st, Rollout(spec));
      CoreIsAlwaysSafe(digest, after);
    } else if AlwaysSafe(digest, after) {
      AlwaysSafeNow(digest, after);
    }
  }

  // ---------- Specs that never recur ----------

  ghost predicate Digested(digest: DataSpec -> string, past: set<DataSpec>, tag: string) {
    exists s :: s in past && digest(s) == tag
  }

  /** Every digest on the pod, or about to be written to it, is that of a spec the Data has had. */
  ghost predicate PastInv(digest: DataSpec -> string, st: State) {
    st.cell.data.Some? ==>
      && st.cell.data.value.obj.spec in st.past
      && (PodDigest(st.cell).Some? ==> Digested(digest, st.past, PodDigest(st.cell).value))
      && (DigestComing(st.cell, st.pass) ==> Digested(digest, st.past, st.pass.tag))
  }

  lemma CallKeepsSpec(digest: DataSpec -> string, c: Cell, pass: Pass, now: nat)
    requires StoreInv(digest, c) && PassInv(digest, c, pass)
    ensures var c' := Perform(digest, c, pass, now).0;
            c'.data.Some? ==> c.data.Some? && c'.data.value.obj.spec == c.data.value.obj.spec
  {}

  lemma CallWritesItsDigest(digest: DataSpec -> string, c: Cell, pass: Pass, now: nat)
    requires StoreInv(digest, c) && PassInv(digest, c, pass)
    ensures var c' := Perform(digest, c, pass, now).0;
            PodDigest(c').Some? && PodDigest(c') != PodDigest(c) ==>
              DigestComing(c, pass) && PodDigest(c') == Some(pass.tag)
  {}

  lemma CallPreparesItsDigest(digest: DataSpec -> string, c: Cell, pass: Pass, now: nat)
    requires StoreInv(digest, c) && PassInv(digest, c, pass)
    ensures var (c', pass') := Perform(digest, c, pass, now);
            DigestComing(c', pass') ==>
              || (DigestComing(c, pass) && pass'.tag == pass.tag)
              || (c.data.Some? && pass'.tag == digest(c.data.value.obj.spec))
  {}

  lemma PassKeepsPast(digest: DataSpec -> string, st: State, now: nat)
    requires Inv(digest, st) && PastInv(digest, st)
    ensures PastInv(digest, Step(digest, st, Go(now)))
  {
    CallKeepsSpec(digest, st.cell, st.pass, now);
    CallWritesItsDigest(digest, st.cell, st.pass, now);
    CallPreparesItsDigest(digest, st.cell, st.pass, now);
  }

  lemma LostCallKeepsPast(digest: DataSpec -> string, st: State, now: nat)
    requires Inv(digest, st) && PastInv(digest, st)
    ensures PastInv(digest, Step(digest, st, Lose(now)))
  {
    PassKeepsPast(digest, st, now);
  }

  lemma StepKeepsPast(digest: DataSpec -> string, st: State, a: Action)
    requires Inv(digest, st) && PastInv(digest, st) && Allowed(digest, st, a)
    ensures PastInv(digest, Step(digest, st, a))
  {
    match a
    case Go(now) => PassKeepsPast(digest, st, now);
    case Lose(now) => LostCallKeepsPast(digest, st, now);
    case Rollout(spec) =>
      forall tag | Digested(digest, st.past, tag)
        ensures Digested(digest, st.past + {spec}, tag)
      {
        var s :| s in st.past && digest(s) == tag;
        assert s in st.past + {spec};
      }
    case _ =>
  }

  /** The stricter discipline: no spec is written a second time in one life of the Data. */
  predicate NoRecurrence(digest: DataSpec -> string, st: State, a: Action) {
    if a.Rollout? then st.cell.data.Some? ==> a.spec !in st.past || a.spec == st.cell.data.value.obj.spec
    else Allowed(digest, st, a)
  }

  predicate NoRecurrenceRun(digest: DataSpec -> string, st: State, actions: seq<Action>)
    decreases |actions|
  {
    actions != [] ==>
      NoRecurrence(digest, st, actions[0]) && NoRecurrenceRun(digest, Step(digest, st, actions[0]), actions[1..])
  }

  /** If no spec recurs, then the DataSet reconciler never writes back a spec the pod still carries. */
  lemma {:induction false} NoRecurrenceIsAllowed(digest: DataSpec -> string, st: State, actions: seq<Action>)
    requires Injective(digest)
    requires Inv(digest, st) && PastInv(digest, st) && NoRecurrenceRun(digest, st, actions)
    ensures AllowedRun(digest, st, actions)
    decreases |actions|
  {
    if actions != [] {
      StepKeepsInv(digest, st, actions[0]);
      StepKeepsPast(digest, st, actions[0]);
      NoRecurrenceIsAllowed(digest, Step(digest, st, actions[0]), actions[1..]);
    }
  }

  /** Alignment again, for runs in which no spec value recurs in one Data's life. */
  lemma AlignedIfNoSpecRecurs(digest: DataSpec -> string, st: State, actions: seq<Action>, k: nat)
    requires Injective(digest)
    requires Initial(st) && NoRecurrenceRun(digest, st, actions) && k <= |actions|
    ensures Safe(digest, Run(digest, st, actions[..k]).cell)
  {
    InitialInv(digest, st);
    NoRecurrenceIsAllowed(digest, st, actions);
    DigestImpliesAligned(digest, st, actions, k);
  }

  // ---------- Taking a Data out of the store ----------

  predicate FirstIsReset(digest: DataSpec -> string, st: State, a: Action) {
    st.unwritten && st.cell.data.Some? && !Step(digest, st, a).unwritten ==> IsReset(Step(digest, st, a).cell)
  }

  /** Whenever after this a Data gets its first status, that is a reset. */
  ghost predicate AlwaysReset(digest: DataSpec -> string, st: State) {
    forall actions, a | AllowedRun(digest, st, actions) && Allowed(digest, Run(digest, st, actions), a) ::
      FirstIsReset(digest, Run(digest, st, actions), a)
  }

  lemma InvIsAlwaysReset(digest: DataSpec -> string, st: State)
    requires Injective(digest) && Inv(digest, st)
    ensures AlwaysReset(digest, st)
  {
    forall actions, a | AllowedRun(digest, st, actions) && Allowed(digest, Run(digest, st, actions), a)
      ensures FirstIsReset(digest, Run(digest, st, actions), a)
    {
      RunKeepsInv(digest, st, actions);
      var now := Run(digest, st, actions);
      if now.unwritten && now.cell.data.Some? && !Step(digest, now, a).unwritten {
        UnwrittenStatusCall(digest, now, a);
      }
    }
  }

  lemma AlwaysResetNow(digest: DataSpec -> string, st: State, a: Action)
    requires AlwaysReset(digest, st) && Allowed(digest, st, a)
    ensures FirstIsReset(digest, st, a)
  {
    assert AllowedRun(digest, st, []) && Run(digest, st, []) == st;
  }

  lemma AlwaysResetAfter(digest: DataSpec -> string, st: State, actions: seq<Action>)
    requires AlwaysReset(digest, st) && AllowedRun(digest, st, actions)
    ensures AlwaysReset(digest, Run(digest, st, actions))
  {
    var next := Run(digest, st, actions);
    forall more, a | AllowedRun(digest, next, more) && Allowed(digest, Run(digest, next, more), a)
      ensures FirstIsReset(digest, Run(digest, next, more), a)
    {
      RunConcat(digest, st, actions, more);
    }
  }

  lemma AlwaysResetNext(digest: DataSpec -> string, st: State, a: Action)
    requires AlwaysReset(digest, st) && Allowed(digest, st, a)
    ensures AlwaysReset(digest, Step(digest, st, a))
  {
    OneAction(digest, st, a);
    AlwaysResetAfter(digest, st, [a]);
  }

  /** What another writer does to a Data other than writing its spec or status. */
  predicate OfTheMark(a: Action) {
    a.Delete? || a.ForeignFinalizers?
  }

  lemma RemovalKeepsCore(digest: DataSpec -> string, st: State, a: Action)
    requires CoreInv(digest, st) && OfTheMark(a) && Removes(st.cell, a)
    requires LeavesNoItems(digest, st.cell, st.pass)
    ensures CoreInv(digest, Step(digest, st, a))
  {}

  /** A digest that is left on the pod is taken for a reset by the next Data that has its spec. */
  lemma DigestLeftIsUnsafe(digest: DataSpec -> string, st: State, s: DataSpec)
    requires AlwaysSafe(digest, st) && st.cell.data.None? && s.dataItems.Elems() != []
    ensures PodDigest(st.cell) != Some(digest(s))
  {
    AlwaysSafeNext(digest, st, Create("", map[], s));
    AlwaysSafeNow(digest, Step(digest, st, Create("", map[], s)));
  }

  /** What a pass does, with nobody in its way but for the role binding, until its digest is on the pod. */
  function DigestActions(pass: Pass): seq<Action> {
    if pass.FetchBinding? then [Bind({BindingName(pass.pod.obj.serviceAccount)}), Go(0), Go(0)] else [Go(0)]
  }

  lemma DigestArrives(digest: DataSpec -> string, st: State)
    requires st.cell.data.None? && DigestComing(st.cell, st.pass)
    ensures AllowedRun(digest, st, DigestActions(st.pass))
    ensures var end := Run(digest, st, DigestActions(st.pass)).cell;
            end.data.None? && PodDigest(end) == Some(st.pass.tag)
  {
    if st.pass.FetchBinding? {
      var bind := Bind({BindingName(st.pass.pod.obj.serviceAccount)});
      var bound := Step(digest, st, bind);
      var due := Step(digest, bound, Go(0));
      assert [bind, Go(0), Go(0)][1..] == [Go(0), Go(0)] && [Go(0), Go(0)][1..] == [Go(0)];
      OneAction(digest, due, Go(0));
    } else {
      OneAction(digest, st, Go(0));
    }
  }

  /** At any point of any pass, a Data may be taken out of the store by somebody else, and items and digest agree ever
      after, exactly if the digest on the pod, and the one the pass is about to write, are of specs without items. */
  lemma RemovalIsSafeIff(digest: DataSpec -> string, st: State, a: Action)
    requires Injective(digest) && CoreInv(digest, st)
    requires OfTheMark(a) && Removes(st.cell, a)
    ensures AlwaysSafe(digest, Step(digest, st, a)) <==> LeavesNoItems(digest, st.cell, st.pass)
  {
    var after := Step(digest, st, a);
    if LeavesNoItems(digest, st.cell, st.pass) {
      RemovalKeepsCore(digest, st, a);
      CoreIsAlwaysSafe(digest, after);
    } else if AlwaysSafe(digest, after) {
      if s :| PodDigest(st.cell) == Some(digest(s)) && s.dataItems.Elems() != [] {
        DigestLeftIsUnsafe(digest, after, s);
      } else {
        var s :| digest(s) == st.pass.tag && s.dataItems.Elems() != [];
        DigestArrives(digest, after);
        AlwaysSafeAfter(digest, after, DigestActions(st.pass));
        DigestLeftIsUnsafe(digest, Run(digest, after, DigestActions(st.pass)), s);
      }
    }
  }

  const SOME_ITEMS := DataSpec(Slice([DataItem("", "", "", "", "", "", None)]), None, None)

  /** A digest that is left on the pod, even of a spec without items, makes the pass over the next Data patch; a spec
      written meanwhile then gets a status that is no reset. */
  lemma DigestLeftSkipsReset(digest: DataSpec -> string, st: State, s: DataSpec)
    requires Injective(digest)
    requires st.cell.data.None? && PodDigest(st.cell) == Some(digest(s)) && s.dataItems.Elems() == []
    ensures !AlwaysReset(digest, st)
  {
    var create := Create("", map[], s);
    var started := Step(digest, Step(digest, st, create), Reject);
    var fetched := Step(digest, started, Go(0));
    var due := Step(digest, fetched, Go(0));
    assert due.cell == started.cell && due.unwritten;
    assert due.pass == WriteStatus(due.cell.data.value, due.cell.pod.value, digest(s));
    var rolled := Step(digest, due, Rollout(SOME_ITEMS));
    assert !FirstIsReset(digest, rolled, Go(0));
    if AlwaysReset(digest, st) {
      AlwaysResetNext(digest, st, create);
      AlwaysResetNext(digest, Step(digest, st, create), Reject);
      AlwaysResetNext(digest, started, Go(0));
      AlwaysResetNext(digest, fetched, Go(0));
      AlwaysResetNext(digest, due, Rollout(SOME_ITEMS));
      AlwaysResetNow(digest, rolled, Go(0));
    }
  }

  lemma PatchSkipsReset(digest: DataSpec -> string, st: State)
    requires st.cell.data.None? && PatchComing(st.pass)
    ensures !AlwaysReset(digest, st)
  {
    var created := Step(digest, st, Create("", map[], SOME_ITEMS));
    assert !FirstIsReset(digest, created, Go(0));
    if AlwaysReset(digest, st) {
      AlwaysResetNext(digest, st, Create("", map[], SOME_ITEMS));
      AlwaysResetNow(digest, created, Go(0));
    }
  }

  /** ... and the first status of every later Data is a reset too, exactly if there is no such digest at all and the
      pass is not about to patch: what is asked of the others is neither too much nor too little. */
  lemma RemovalIsHarmlessIff(digest: DataSpec -> string, st: State, a: Action)
    requires Injective(digest) && Inv(digest, st) && PastInv(digest, st)
    requires OfTheMark(a) && Removes(st.cell, a)
    ensures AlwaysSafe(digest, Step(digest, st, a)) && AlwaysReset(digest, Step(digest, st, a)) <==> MayLeave(st)
    ensures Allowed(digest, st, a) <==> MayLeave(st)
  {
    RemovalIsSafeIff(digest, st, a);
    var after := Step(digest, st, a);
    if MayLeave(st) {
      StepKeepsInv(digest, st, a);
      InvIsAlwaysReset(digest, after);
    } else if AlwaysSafe(digest, after) && AlwaysReset(digest, after) {
      if PatchComing(st.pass) {
        PatchSkipsReset(digest, after);
      } else if PodDigest(st.cell).Some? {
        var s :| s in st.past && digest(s) == PodDigest(st.cell).value;
        DigestLeftSkipsReset(digest, after, s);
      } else {
        DigestArrives(digest, after);
        AlwaysResetAfter(digest, after, DigestActions(st.pass));
        DigestLeftSkipsReset(digest, Run(digest, after, DigestActions(st.pass)), st.pass.inst.obj.spec);
      }
    }
  }

  /** In particular: a Data whose finalizer is not stored yet may be deleted ... */
  lemma EarlyDeleteIsSafeIff(digest: DataSpec -> string, st: State)
    requires Injective(digest) && CoreInv(digest, st)
    requires st.cell.data.Some? && st.cell.data.value.obj.finalizers == {}
    ensures AlwaysSafe(digest, Step(digest, st, Delete)) <==> LeavesNoItems(digest, st.cell, st.pass)
  {
    RemovalIsSafeIff(digest, st, Delete);
  }

  /** ... and the last finalizer may be taken off a marked Data that has lost the reconciler's. */
  lemma LastFinalizerIsSafeIff(digest: DataSpec -> string, st: State)
    requires Injective(digest) && CoreInv(digest, st)
    requires st.cell.data.Some? && st.cell.data.value.obj.deleted
    requires DATA_FINALIZER !in st.cell.data.value.obj.finalizers
    ensures AlwaysSafe(digest, Step(digest, st, ForeignFinalizers({}))) <==> LeavesNoItems(digest, st.cell, st.pass)
  {
    assert st.cell.data.value.obj.finalizers * {DATA_FINALIZER} + ({} - {DATA_FINALIZER}) == {};
    RemovalIsSafeIff(digest, st, ForeignFinalizers({}));
  }

  // ---------- What happens otherwise ----------

  /** A pass stores the reset for a new spec and is cut off before it writes the digest; when the old spec
      then comes back, the pod still carries its digest while the items are those of the other spec. */
  lemma WriteBackBreaksAlignment(digest: DataSpec -> string, st: State, first: DataSpec, second: DataSpec)
    requires Injective(digest) && first != second
    requires Inv(digest, st) && Resting(st.pass) && st.cell.data.Some? && st.cell.pod.Some?
    requires st.cell.data.value.obj.spec == first && PodDigest(st.cell) == Some(digest(first))
    requires !Aligned(DefaultItems(second.dataItems.Elems(), 0), first.dataItems.Elems())
    ensures var rolled := Step(digest, st, Rollout(second));
            var reset := Step(digest, Step(digest, Step(digest, rolled, Go(0)), Go(0)), Go(0));
            var aborted := Step(digest, reset, Reject);
            !Safe(digest, Step(digest, aborted, Rollout(first)).cell)
  {
    var rolled := Step(digest, st, Rollout(second));
    var fetched := Step(digest, Step(digest, rolled, Go(0)), Go(0));
    assert fetched.pass == WriteStatus(rolled.cell.data.value, st.cell.pod.value, digest(second));
    assert fetched.cell == rolled.cell;
    assert rolled.cell.data.value.obj.spec == second && Kept(rolled.cell.data.value.obj).Some?;
    StatusCallAlone(digest, rolled.cell, 0);
  }

  /** A marked Data that waits on somebody else's finalizer, after its own was removed: the next pass writes the
      digest again and has nothing that takes it away.  When the Data leaves the store the digest stays on the
      pod, and a Data created again with the same spec is never reset. */
  lemma ForeignFinalizerLeavesDigest(digest: DataSpec -> string, c: Cell, now: nat)
    requires c.data.Some? && c.pod.Some?
    requires var d := c.data.value.obj;
             d.deleted && d.finalizers != {} && DATA_FINALIZER !in d.finalizers && d.spec.dataItems.Elems() != []
    requires PodDigest(c).None?
    requires BindingName(c.pod.value.obj.serviceAccount) in c.bindings
    ensures var spec := c.data.value.obj.spec;
            var gone := Outside(WholePass(digest, c, now).0, ForeignFinalizers({}));
            && gone.data.None? && PodDigest(gone) == Some(digest(spec))
            && !Safe(digest, Outside(gone, Create("", map[], spec)))
  {
    WholePassResult(digest, c, now);
  }
}
