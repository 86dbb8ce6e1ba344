/** The Data reconciler as a machine of single API calls, interleaved with everybody else who writes
    the Data or its pod.  A pass keeps the copies it has read; any call may be rejected, or take effect
    although the pass only sees an error. */
module Protocol {
  import opened Types
  import opened Status
  import opened Server

  /** The next call of a pass, with its local copies and the digest it computed. */
  datatype Pass =
    | Idle
    | FetchPod(inst: Stored<Data>)
    | ReleaseOrphan(inst: Stored<Data>)
    | WriteStatus(inst: Stored<Data>, pod: Stored<Pod>, tag: string)
    | FetchBinding(inst: Stored<Data>, pod: Stored<Pod>, tag: string)
    | CreateBinding(inst: Stored<Data>, pod: Stored<Pod>, tag: string)
    | WriteDigest(inst: Stored<Data>, pod: Stored<Pod>, tag: string)
    | ClearDigest(inst: Stored<Data>, pod: Stored<Pod>)
    | RemoveFinalizer(inst: Stored<Data>)
    | AddFinalizer(inst: Stored<Data>)
    | Finished(ok: bool)

  /** `unwritten` and `past` record the life of the stored Data: whether no status of the reconciler has
      been stored yet, and the specs it has had. */
  datatype State = State(cell: Cell, pass: Pass, unwritten: bool, past: set<DataSpec>)

  datatype Action =
    | Go(now: nat)                       // the pass makes its next call
    | Reject                             // ... which fails without effect
    | Lose(now: nat)                     // ... which takes effect, but reports an error
    | Create(name: string, labels: map<string, string>, spec: DataSpec)
    | Rollout(spec: DataSpec)
    | Delete
    | Progress(status: DataStatus)       // the runtime reports
    | StartPod(pod: Pod)
    | StopPod
    | TouchPod(pod: Pod)
    | Bind(bindings: set<string>)
    | ForeignFinalizers(names: set<string>)   // the finalizers other than the reconciler's

  predicate Resting(pass: Pass) {
    pass.Idle? || pass.Finished?
  }

  // ---------- One pass ----------

  function WithDigest(pod: Stored<Pod>, tag: string): Stored<Pod> {
    pod.(obj := Tagged(pod.obj, tag))
  }

  function WithoutDigest(pod: Stored<Pod>): Stored<Pod> {
    pod.(obj := Untagged(pod.obj))
  }

  function WithStatus(inst: Stored<Data>, status: DataStatus): Stored<Data> {
    inst.(obj := inst.obj.(status := status))
  }

  function WithFinalizers(inst: Stored<Data>, finalizers: set<string>): Stored<Data> {
    inst.(obj := inst.obj.(finalizers := finalizers))
  }

  function Unfinalized(inst: Stored<Data>): Stored<Data> {
    WithFinalizers(inst, inst.obj.finalizers - {DATA_FINALIZER})
  }

  function Finalized(inst: Stored<Data>): Stored<Data> {
    WithFinalizers(inst, inst.obj.finalizers + {DATA_FINALIZER})
  }

  function AfterDigest(inst: Stored<Data>, pod: Stored<Pod>): Pass {
    if inst.obj.deleted then
      if DATA_FINALIZER in inst.obj.finalizers then ClearDigest(inst, pod) else Finished(true)
    else if DATA_FINALIZER in inst.obj.finalizers then Finished(true)
    else AddFinalizer(inst)
  }

  function AfterBinding(inst: Stored<Data>, pod: Stored<Pod>, tag: string): Pass {
    if DigestOf(pod.obj) == Some(tag) then AfterDigest(inst, pod) else WriteDigest(inst, pod, tag)
  }

  function StatusCall(c: Cell, inst: Stored<Data>, pod: Stored<Pod>, tag: string, now: nat)
    : (Cell, Reply<Stored<Data>>)
  {
    if DigestOf(pod.obj) == Some(tag) then
      PatchStatus(c, inst.obj.status, LatestStatus(inst.obj.spec, inst.obj.status))
    else
      UpdateStatus(c, WithStatus(inst, DefaultStatus(inst.obj.spec, now)))
  }

  function Fetch(c: Cell): (Cell, Pass) {
    (c, if c.data.None? then Finished(true) else FetchPod(c.data.value))
  }

  /** The next call of the pass, and where the pass goes from its reply. */
  function Perform(digest: DataSpec -> string, c: Cell, pass: Pass, now: nat): (Cell, Pass) {
    match pass
    case Idle => Fetch(c)
    case Finished(_) => Fetch(c)
    case FetchPod(inst) =>
      if c.pod.None? then (c, ReleaseOrphan(inst))
      else (c, WriteStatus(inst, c.pod.value, digest(inst.obj.spec)))
    case ReleaseOrphan(inst) =>
      var (c', reply) := UpdateData(c, Unfinalized(inst));
      (c', Finished(reply.Ok?))
    case WriteStatus(inst, pod, tag) =>
      var (c', reply) := StatusCall(c, inst, pod, tag, now);
      (c', if reply.Ok? then FetchBinding(reply.obj, pod, tag) else Finished(false))
    case FetchBinding(inst, pod, tag) =>
      if BindingName(pod.obj.serviceAccount) in c.bindings then (c, AfterBinding(inst, pod, tag))
      else (c, CreateBinding(inst, pod, tag))
    case CreateBinding(_, pod, _) =>
      // the NotFound of the Get is returned even when the Create succeeds
      (c.(bindings := c.bindings + {BindingName(pod.obj.serviceAccount)}), Finished(false))
    case WriteDigest(inst, pod, tag) =>
      var (c', reply) := UpdatePod(c, WithDigest(pod, tag));
      (c', if reply.Ok? then AfterDigest(inst, reply.obj) else Finished(false))
    case ClearDigest(inst, pod) =>
      var (c', reply) := UpdatePod(c, WithoutDigest(pod));
      (c', if reply.Conflict? then Finished(false) else RemoveFinalizer(inst))
    case RemoveFinalizer(inst) =>
      var (c', reply) := UpdateData(c, Unfinalized(inst));
      (c', Finished(reply.Ok?))
    case AddFinalizer(inst) =>
      var (c', reply) := UpdateData(c, Finalized(inst));
      (c', Finished(reply.Ok?))
  }

  // ---------- Everybody else ----------

  function NewData(name: string, labels: map<string, string>, spec: DataSpec): Data {
    Data(name, labels, {}, false, spec, EMPTY_STATUS)
  }

  function Outside(c: Cell, a: Action): Cell {
    match a
    case Create(name, labels, spec) =>
      if c.data.Some? then c
      else c.(data := Some(Stored(c.clock, NewData(name, labels, spec))), clock := c.clock + 1)
    case Rollout(spec) => if c.data.None? then c else PutData(c, c.data.value.obj.(spec := spec))
    case Delete => DeleteData(c)
    case Progress(status) => if c.data.None? then c else PutData(c, c.data.value.obj.(status := status))
    case StartPod(pod) =>
      if c.pod.Some? then c else c.(pod := Some(Stored(c.clock, pod)), clock := c.clock + 1)
    case StopPod => c.(pod := None)
    case TouchPod(pod) => if c.pod.None? then c else PutPod(c, pod)
    case Bind(bindings) => c.(bindings := bindings)
    case ForeignFinalizers(names) =>
      if c.data.None? then c
      else
        var own := c.data.value.obj.finalizers * {DATA_FINALIZER};
        PutData(c, c.data.value.obj.(finalizers := own + (names - {DATA_FINALIZER})))
    case _ => c
  }

  // ---------- Runs ----------

  predicate StoresStatus(digest: DataSpec -> string, st: State, now: nat) {
    st.pass.WriteStatus? && Perform(digest, st.cell, st.pass, now).1.FetchBinding?
  }

  function Step(digest: DataSpec -> string, st: State, a: Action): State {
    match a
    case Go(now) =>
      var (c, pass) := Perform(digest, st.cell, st.pass, now);
      st.(cell := c, pass := pass, unwritten := st.unwritten && !StoresStatus(digest, st, now))
    case Lose(now) =>
      var (c, _) := Perform(digest, st.cell, st.pass, now);
      st.(cell := c, pass := Finished(false), unwritten := st.unwritten && !StoresStatus(digest, st, now))
    case Reject => st.(pass := Finished(false))
    case Create(_, _, spec) =>
      if st.cell.data.Some? then st else st.(cell := Outside(st.cell, a), unwritten := true, past := {spec})
    case Rollout(spec) => st.(cell := Outside(st.cell, a), past := st.past + {spec})
    case _ => st.(cell := Outside(st.cell, a))
  }

  function Run(digest: DataSpec -> string, st: State, actions: seq<Action>): State
    decreases |actions|
  {
    if actions == [] then st else Run(digest, Step(digest, st, actions[0]), actions[1..])
  }

  /** The pass has stored a reset and is going to write its digest on the pod it has a current copy of. */
  predicate DigestComing(c: Cell, pass: Pass) {
    match pass
    case FetchBinding(_, pod, tag) => DigestOf(pod.obj) != Some(tag) && c.pod == Some(pod)
    case WriteDigest(_, pod, _) => c.pod == Some(pod)
    case _ => false
  }

  /** The pass is going to patch the status without checking versions, so that a Data created meanwhile would get a
      recount before its reset. */
  predicate PatchComing(pass: Pass) {
    pass.WriteStatus? && DigestOf(pass.pod.obj) == Some(pass.tag)
  }

  function PodDigest(c: Cell): Option<string> {
    if c.pod.None? then None else DigestOf(c.pod.value.obj)
  }

  /** Nothing of the Data is on the pod, or on its way to the pod or to a Data created anew. */
  predicate MayLeave(st: State) {
    PodDigest(st.cell).None? && !DigestComing(st.cell, st.pass) && !PatchComing(st.pass)
  }

  predicate Removes(c: Cell, a: Action) {
    c.data.Some? && Outside(c, a).data.None?
  }

  predicate SameItems(before: seq<ItemStatus>, after: seq<ItemStatus>) {
    |before| == |after|
    && forall i :: 0 <= i < |before| ==>
         before[i].name == after[i].name && before[i].namespace == after[i].namespace
         && before[i].version == after[i].version
  }

  /** What the other writers are held to, each checked on the state they act on:
      the DataSet reconciler writes no spec whose digest the pod carries although the items are not that spec's;
      a Data is not taken out of the store, by deleting it without finalizers or by taking the last finalizer
      off a marked one, before it may leave; the runtime keeps the list of items; a pod starts without a digest
      and only the reconciler changes it. */
  predicate Allowed(digest: DataSpec -> string, st: State, a: Action) {
    var c := st.cell;
    match a
    case Rollout(spec) =>
      c.data.Some? && PodDigest(c) == Some(digest(spec)) ==>
        Aligned(c.data.value.obj.status.items.Elems(), spec.dataItems.Elems())
    case Delete => Removes(c, a) ==> MayLeave(st)
    case ForeignFinalizers(_) => Removes(c, a) ==> MayLeave(st)
    case Progress(status) => c.data.Some? ==> SameItems(c.data.value.obj.status.items.Elems(), status.items.Elems())
    case StartPod(pod) => DigestOf(pod).None?
    case TouchPod(pod) => c.pod.Some? ==> DigestOf(pod) == PodDigest(c)
    case _ => true
  }

  predicate AllowedRun(digest: DataSpec -> string, st: State, actions: seq<Action>)
    decreases |actions|
  {
    actions != [] ==> Allowed(digest, st, actions[0]) && AllowedRun(digest, Step(digest, st, actions[0]), actions[1..])
  }

  predicate Initial(st: State) {
    && st.pass == Idle
    && st.cell.data.None?
    && PodDigest(st.cell).None?
    && (st.cell.pod.Some? ==> st.cell.pod.value.version < st.cell.clock)
  }

  /** If the pod says that the status was reset for the Data's spec, then the status lists that spec's items. */
  predicate Safe(digest: DataSpec -> string, c: Cell) {
    c.data.Some? && PodDigest(c) == Some(digest(c.data.value.obj.spec)) ==>
      Aligned(c.data.value.obj.status.items.Elems(), c.data.value.obj.spec.dataItems.Elems())
  }

  /** The status lists the items of the spec, all waiting. */
  predicate IsReset(c: Cell) {
    && c.data.Some?
    && Aligned(c.data.value.obj.status.items.Elems(), c.data.value.obj.spec.dataItems.Elems())
    && AllIn(c.data.value.obj.status.items.Elems(), Waiting)
  }

  // ---------- The invariant ----------

  predicate CopyOf<T(==)>(copy: Stored<T>, stored: Option<Stored<T>>, clock: nat) {
    copy.version < clock && (stored.Some? && stored.value.version == copy.version ==> stored.value == copy)
  }

  predicate StoreInv(digest: DataSpec -> string, c: Cell) {
    && (c.data.Some? ==>
          && c.data.value.version < c.clock
          && (c.data.value.obj.deleted ==> c.data.value.obj.finalizers != {}))
    && (c.pod.Some? ==> c.pod.value.version < c.clock)
    && Safe(digest, c)
  }

  /** No spec with items has the digest: taken for a reset, it does no harm. */
  ghost predicate NoItems(digest: DataSpec -> string, tag: string) {
    forall s :: digest(s) == tag ==> s.dataItems.Elems() == []
  }

  /** Whatever digest is on the pod, or on its way there, is of a spec without items. */
  ghost predicate LeavesNoItems(digest: DataSpec -> string, c: Cell, pass: Pass) {
    && (PodDigest(c).Some? ==> NoItems(digest, PodDigest(c).value))
    && (DigestComing(c, pass) ==> NoItems(digest, pass.tag))
  }

  predicate Copies(c: Cell, inst: Stored<Data>, pod: Stored<Pod>) {
    CopyOf(inst, c.data, c.clock) && CopyOf(pod, c.pod, c.clock)
  }

  /** A pass that is going to write its digest has stored the reset, and no one else resets the items. */
  predicate ResetDone(digest: DataSpec -> string, c: Cell, inst: Stored<Data>, tag: string) {
    && tag == digest(inst.obj.spec)
    && (c.data.Some? ==> Aligned(c.data.value.obj.status.items.Elems(), inst.obj.spec.dataItems.Elems()))
  }

  /** What the pass has read, and what it has achieved by the time it makes the next call. */
  ghost predicate PassInv(digest: DataSpec -> string, c: Cell, pass: Pass) {
    && (c.data.None? ==> LeavesNoItems(digest, c, pass))
    && match pass
       case Idle => true
       case Finished(_) => true
       case FetchPod(inst) => CopyOf(inst, c.data, c.clock)
       case ReleaseOrphan(inst) => CopyOf(inst, c.data, c.clock) && PodDigest(c).None?
       case WriteStatus(inst, pod, tag) => Copies(c, inst, pod) && tag == digest(inst.obj.spec)
       case FetchBinding(inst, pod, tag) =>
         Copies(c, inst, pod) && (DigestComing(c, pass) ==> ResetDone(digest, c, inst, tag))
       case CreateBinding(_, _, _) => true
       case WriteDigest(inst, pod, tag) =>
         Copies(c, inst, pod) && (DigestComing(c, pass) ==> ResetDone(digest, c, inst, tag))
         && DigestOf(pod.obj) != Some(tag)
       case ClearDigest(inst, pod) => Copies(c, inst, pod)
       case RemoveFinalizer(inst) => CopyOf(inst, c.data, c.clock) && PodDigest(c).None?
       case AddFinalizer(inst) => CopyOf(inst, c.data, c.clock)
  }

  /** What alignment and cleanup rest on. */
  ghost predicate CoreInv(digest: DataSpec -> string, st: State) {
    StoreInv(digest, st.cell) && PassInv(digest, st.cell, st.pass)
  }

  /** Until its first status is stored, and before it is there, a Data finds nothing of an earlier one. */
  predicate UnwrittenInv(st: State) {
    st.cell.data.None? || st.unwritten ==> MayLeave(st)
  }

  ghost predicate Inv(digest: DataSpec -> string, st: State) {
    CoreInv(digest, st) && UnwrittenInv(st)
  }

  lemma PerformKeepsStore(digest: DataSpec -> string, c: Cell, pass: Pass, now: nat)
    requires Injective(digest)
    requires StoreInv(digest, c) && PassInv(digest, c, pass)
    ensures StoreInv(digest, Perform(digest, c, pass, now).0)
  {
    match pass
    case WriteStatus(inst, pod, tag) =>
      ResetIsRecounted(inst.obj.spec, now);
    case _ =>
  }

  lemma StatusCallKeepsPass(digest: DataSpec -> string, c: Cell, inst: Stored<Data>, pod: Stored<Pod>, tag: string,
                            now: nat)
    requires StoreInv(digest, c) && PassInv(digest, c, WriteStatus(inst, pod, tag))
    ensures var (c', reply) := StatusCall(c, inst, pod, tag, now);
            && c'.data.Some? == c.data.Some? && c'.pod == c.pod
            && (reply.Ok? ==> PassInv(digest, c', FetchBinding(reply.obj, pod, tag)))
  {
    ResetIsRecounted(inst.obj.spec, now);
  }

  lemma AfterDigestInv(digest: DataSpec -> string, c: Cell, inst: Stored<Data>, pod: Stored<Pod>)
    requires Copies(c, inst, pod) && (c.data.None? && PodDigest(c).Some? ==> NoItems(digest, PodDigest(c).value))
    ensures PassInv(digest, c, AfterDigest(inst, pod))
  {}

  lemma DigestCallKeepsPass(digest: DataSpec -> string, c: Cell, inst: Stored<Data>, pod: Stored<Pod>)
    requires StoreInv(digest, c) && Copies(c, inst, pod)
    ensures forall obj {:trigger UpdatePod(c, pod.(obj := obj))} ::
              var (c', reply) := UpdatePod(c, pod.(obj := obj));
              && c'.data == c.data && c'.clock >= c.clock
              && (reply.Ok? ==> Copies(c', inst, reply.obj) && c'.pod.Some? && c'.pod.value.obj == obj)
              && (reply.NotFound? ==> c'.pod.None?)
  {}

  lemma WriteDigestKeepsPass(digest: DataSpec -> string, c: Cell, pass: Pass, now: nat)
    requires StoreInv(digest, c) && PassInv(digest, c, pass) && pass.WriteDigest?
    ensures var (c', pass') := Perform(digest, c, pass, now);
            PassInv(digest, c', pass') && PassInv(digest, c', Finished(false))
  {
    DigestCallKeepsPass(digest, c, pass.inst, pass.pod);
    var (c', reply) := UpdatePod(c, WithDigest(pass.pod, pass.tag));
    if reply.Ok? {
      AfterDigestInv(digest, c', pass.inst, reply.obj);
    }
  }

  lemma PerformKeepsPass(digest: DataSpec -> string, c: Cell, pass: Pass, now: nat)
    requires Injective(digest)
    requires StoreInv(digest, c) && PassInv(digest, c, pass)
    ensures var (c', pass') := Perform(digest, c, pass, now);
            && PassInv(digest, c', pass')
            && PassInv(digest, c', Finished(false))
  {
    match pass
    case WriteStatus(inst, pod, tag) =>
      StatusCallKeepsPass(digest, c, inst, pod, tag, now);
    case FetchBinding(inst, pod, tag) =>
      AfterDigestInv(digest, c, inst, pod);
    case WriteDigest(inst, pod, tag) =>
      WriteDigestKeepsPass(digest, c, pass, now);
    case ClearDigest(inst, pod) =>
      DigestCallKeepsPass(digest, c, inst, pod);
    case _ =>
  }

  lemma PerformKeepsUnwritten(digest: DataSpec -> string, st: State, now: nat)
    requires Inv(digest, st)
    ensures UnwrittenInv(Step(digest, st, Go(now))) && UnwrittenInv(Step(digest, st, Lose(now)))
  {
  }

  lemma OutsideKeepsStore(digest: DataSpec -> string, st: State, a: Action)
    requires CoreInv(digest, st) && Allowed(digest, st, a)
    requires !a.Go? && !a.Lose? && !a.Reject?
    ensures StoreInv(digest, Outside(st.cell, a))
  {
  }

  lemma OutsideKeepsPass(digest: DataSpec -> string, st: State, a: Action)
    requires CoreInv(digest, st) && Allowed(digest, st, a)
    requires !a.Go? && !a.Lose? && !a.Reject?
    ensures PassInv(digest, Outside(st.cell, a), st.pass)
  {
  }

  lemma StepKeepsCore(digest: DataSpec -> string, st: State, a: Action)
    requires Injective(digest)
    requires CoreInv(digest, st) && Allowed(digest, st, a)
    ensures CoreInv(digest, Step(digest, st, a))
  {
    match a
    case Go(now) =>
      PerformKeepsStore(digest, st.cell, st.pass, now);
      PerformKeepsPass(digest, st.cell, st.pass, now);
    case Lose(now) =>
      PerformKeepsStore(digest, st.cell, st.pass, now);
      PerformKeepsPass(digest, st.cell, st.pass, now);
    case Reject =>
    case _ =>
      OutsideKeepsStore(digest, st, a);
      OutsideKeepsPass(digest, st, a);
  }

  lemma StepKeepsUnwritten(digest: DataSpec -> string, st: State, a: Action)
    requires Inv(digest, st) && Allowed(digest, st, a)
    ensures UnwrittenInv(Step(digest, st, a))
  {
    match a
    case Go(now) => PerformKeepsUnwritten(digest, st, now);
    case Lose(now) => PerformKeepsUnwritten(digest, st, now);
    case _ =>
  }

  lemma StepKeepsInv(digest: DataSpec -> string, st: State, a: Action)
    requires Injective(digest)
    requires Inv(digest, st) && Allowed(digest, st, a)
    ensures Inv(digest, Step(digest, st, a))
  {
    StepKeepsCore(digest, st, a);
    StepKeepsUnwritten(digest, st, a);
  }

  // ---------- Whole runs ----------

  lemma InitialInv(digest: DataSpec -> string, st: State)
    requires Initial(st)
    ensures Inv(digest, st)
  {}

  lemma {:induction false} RunKeepsInv(digest: DataSpec -> string, st: State, actions: seq<Action>)
    requires Injective(digest)
    requires Inv(digest, st) && AllowedRun(digest, st, actions)
    ensures Inv(digest, Run(digest, st, actions))
    decreases |actions|
  {
    if actions != [] {
      StepKeepsInv(digest, st, actions[0]);
      RunKeepsInv(digest, Step(digest, st, actions[0]), actions[1..]);
    }
  }

  lemma {:induction false} RunKeepsCore(digest: DataSpec -> string, st: State, actions: seq<Action>)
    requires Injective(digest)
    requires CoreInv(digest, st) && AllowedRun(digest, st, actions)
    ensures CoreInv(digest, Run(digest, st, actions))
    decreases |actions|
  {
    if actions != [] {
      StepKeepsCore(digest, st, actions[0]);
      RunKeepsCore(digest, Step(digest, st, actions[0]), actions[1..]);
    }
  }

  lemma {:induction false} RunConcat(digest: DataSpec -> string, st: State, a: seq<Action>, b: seq<Action>)
    ensures Run(digest, st, a + b) == Run(digest, Run(digest, st, a), b)
    ensures AllowedRun(digest, st, a + b) <==> AllowedRun(digest, st, a) && AllowedRun(digest, Run(digest, st, a), b)
    decreases |a|
  {
    if a == [] {
      assert a + b == b;
    } else {
      assert (a + b)[1..] == a[1..] + b;
      RunConcat(digest, Step(digest, st, a[0]), a[1..], b);
    }
  }

  lemma OneAction(digest: DataSpec -> string, st: State, a: Action)
    ensures Run(digest, st, [a]) == Step(digest, st, a)
    ensures AllowedRun(digest, st, [a]) <==> Allowed(digest, st, a)
  {
    assert [a][1..] == [];
    assert Run(digest, Step(digest, st, a), []) == Step(digest, st, a);
    assert AllowedRun(digest, Step(digest, st, a), []);
  }

  lemma ReachableInv(digest: DataSpec -> string, st: State, actions: seq<Action>, k: nat)
    requires Injective(digest)
    requires Initial(st) && AllowedRun(digest, st, actions) && k <= |actions|
    ensures Inv(digest, Run(digest, st, actions[..k]))
    ensures AllowedRun(digest, Run(digest, st, actions[..k]), actions[k..])
  {
    InitialInv(digest, st);
    assert actions == actions[..k] + actions[k..];
    RunConcat(digest, st, actions[..k], actions[k..]);
    RunKeepsInv(digest, st, actions[..k]);
  }

  /** Alignment: in every state of every run, if the pod carries the digest of the Data's spec, then the
      status lists exactly that spec's items, in order, by name, namespace and version. */
  lemma DigestImpliesAligned(digest: DataSpec -> string, st: State, actions: seq<Action>, k: nat)
    requires Injective(digest)
    requires Initial(st) && AllowedRun(digest, st, actions) && k <= |actions|
    ensures Safe(digest, Run(digest, st, actions[..k]).cell)
  {
    ReachableInv(digest, st, actions, k);
  }

  /** Cleanup: whichever step of a run takes the Data out of the store, aborted or restarted passes before it
      or not, leaves no digest behind: the pod is gone or carries none. */
  lemma DataLeavesNoDigest(digest: DataSpec -> string, st: State, actions: seq<Action>, k: nat)
    requires Injective(digest)
    requires Initial(st) && AllowedRun(digest, st, actions) && k < |actions|
    requires Run(digest, st, actions[..k]).cell.data.Some? && Run(digest, st, actions[..k + 1]).cell.data.None?
    ensures PodDigest(Run(digest, st, actions[..k + 1]).cell).None?
  {
    ReachableInv(digest, st, actions, k + 1);
  }

  lemma UnwrittenStatusCall(digest: DataSpec -> string, st: State, a: Action)
    requires Inv(digest, st) && st.unwritten && !Step(digest, st, a).unwritten
    ensures IsReset(Step(digest, st, a).cell)
  {
    var now := if a.Go? || a.Lose? then a.now else 0;
    var inst := st.pass.inst;
    ResetIsRecounted(inst.obj.spec, now);
  }

  /** Therefore the first status the reconciler stores for a Data, created for the first time or again, lists the
      items of its spec, all waiting. */
  lemma FirstStatusIsReset(digest: DataSpec -> string, st: State, actions: seq<Action>, k: nat)
    requires Injective(digest)
    requires Initial(st) && AllowedRun(digest, st, actions) && k < |actions|
    requires Run(digest, st, actions[..k]).unwritten && !Run(digest, st, actions[..k + 1]).unwritten
    ensures IsReset(Run(digest, st, actions[..k + 1]).cell)
  {
    ReachableInv(digest, st, actions, k);
    var before := Run(digest, st, actions[..k]);
    assert actions[..k + 1] == actions[..k] + [actions[k]];
    RunConcat(digest, st, actions[..k], [actions[k]]);
    assert Run(digest, before, [actions[k]]) == Step(digest, before, actions[k]);
    UnwrittenStatusCall(digest, before, actions[k]);
  }
}
