/** One whole pass of the Data reconciler that nobody interrupts: what it leaves behind. */
module DataPass {
  import opened Types
  import opened Status
  import opened Server
  import opened Protocol

  /** How many calls a pass can still make. */
  function CallsLeft(pass: Pass): nat {
    match pass
    case Idle => 7
    case FetchPod(_) => 6
    case WriteStatus(_, _, _) => 5
    case FetchBinding(_, _, _) => 4
    case WriteDigest(_, _, _) => 3
    case ClearDigest(_, _) => 2
    case ReleaseOrphan(_) => 1
    case CreateBinding(_, _, _) => 1
    case RemoveFinalizer(_) => 1
    case AddFinalizer(_) => 1
    case Finished(_) => 0
  }

  lemma PassMovesOn(digest: DataSpec -> string, c: Cell, pass: Pass, now: nat)
    requires !pass.Finished?
    ensures CallsLeft(Perform(digest, c, pass, now).1) < CallsLeft(pass)
  {}

  /** The calls of a pass, one after the other, to its end. */
  function Settle(digest: DataSpec -> string, c: Cell, pass: Pass, now: nat): (r: (Cell, Pass))
    ensures r.1.Finished?
    decreases CallsLeft(pass)
  {
    if pass.Finished? then (c, pass)
    else
      var (c', pass') := Perform(digest, c, pass, now);
      PassMovesOn(digest, c, pass, now);
      Settle(digest, c', pass', now)
  }

  function WholePass(digest: DataSpec -> string, c: Cell, now: nat): (Cell, Pass) {
    Settle(digest, c, Idle, now)
  }

  // ---------- The result, on the objects ----------

  datatype Result = Result(data: Option<Data>, pod: Option<Pod>, bindings: set<string>, ok: bool)

  function ObjOf<T>(s: Option<Stored<T>>): Option<T> {
    if s.Some? then Some(s.value.obj) else None
  }

  /** A marked Data without finalizers is not stored. */
  function Kept(d: Data): Option<Data> {
    if d.deleted && d.finalizers == {} then None else Some(d)
  }

  function StatusAfter(digest: DataSpec -> string, d: Data, pod: Pod, now: nat): DataStatus {
    if DigestOf(pod) == Some(digest(d.spec)) then LatestStatus(d.spec, d.status) else DefaultStatus(d.spec, now)
  }

  function PassResult(digest: DataSpec -> string, d: Data, pod: Option<Pod>, bindings: set<string>, now: nat)
    : Result
  {
    if pod.None? then
      Result(Kept(d.(finalizers := d.finalizers - {DATA_FINALIZER})), None, bindings, true)
    else
      var p, written := pod.value, d.(status := StatusAfter(digest, d, pod.value, now));
      var binding := BindingName(p.serviceAccount);
      if binding !in bindings then Result(Some(written), pod, bindings + {binding}, false)
      else if !d.deleted then
        Result(Some(written.(finalizers := d.finalizers + {DATA_FINALIZER})), Some(Tagged(p, digest(d.spec))), bindings,
               true)
      else if DATA_FINALIZER in d.finalizers then
        Result(Kept(written.(finalizers := d.finalizers - {DATA_FINALIZER})), Some(Untagged(p)), bindings, true)
      else Result(Some(written), Some(Tagged(p, digest(d.spec))), bindings, true)
  }

  predicate Matches(r: (Cell, Pass), want: Result) {
    && ObjOf(r.0.data) == want.data && ObjOf(r.0.pod) == want.pod && r.0.bindings == want.bindings
    && r.1 == Finished(want.ok)
  }

  lemma SettleStep(digest: DataSpec -> string, c: Cell, pass: Pass, now: nat)
    requires !pass.Finished?
    ensures var (c', pass') := Perform(digest, c, pass, now);
            Settle(digest, c, pass, now) == Settle(digest, c', pass', now)
  {}

  lemma FromFinalizers(digest: DataSpec -> string, c: Cell, now: nat, tag: string)
    requires c.data.Some? && c.pod.Some? && Kept(c.data.value.obj).Some?
    requires DigestOf(c.pod.value.obj) == Some(tag)
    ensures var d, p := c.data.value.obj, c.pod.value.obj;
            var r := Settle(digest, c, AfterDigest(c.data.value, c.pod.value), now);
            Matches(r, if !d.deleted then
                         Result(Some(d.(finalizers := d.finalizers + {DATA_FINALIZER})), Some(p), c.bindings, true)
                       else if DATA_FINALIZER in d.finalizers then
                         Result(Kept(d.(finalizers := d.finalizers - {DATA_FINALIZER})), Some(Untagged(p)), c.bindings,
                                true)
                       else Result(Some(d), Some(p), c.bindings, true))
  {
    var d := c.data.value.obj;
    var pass := AfterDigest(c.data.value, c.pod.value);
    if !d.deleted && DATA_FINALIZER in d.finalizers {
      assert d.finalizers + {DATA_FINALIZER} == d.finalizers;
    }
    if !pass.Finished? {
      SettleStep(digest, c, pass, now);
    }
    if pass.ClearDigest? {
      var (c', pass') := Perform(digest, c, pass, now);
      assert pass' == RemoveFinalizer(c.data.value);
      assert c'.data == c.data && ObjOf(c'.pod) == Some(Untagged(c.pod.value.obj));
      SettleStep(digest, c', pass', now);
    }
  }

  lemma FromBinding(digest: DataSpec -> string, c: Cell, now: nat, tag: string)
    requires c.data.Some? && c.pod.Some? && Kept(c.data.value.obj).Some?
    requires BindingName(c.pod.value.obj.serviceAccount) in c.bindings
    ensures var d, p := c.data.value.obj, c.pod.value.obj;
            var r := Settle(digest, c, FetchBinding(c.data.value, c.pod.value, tag), now);
            Matches(r, if !d.deleted then
                         Result(Some(d.(finalizers := d.finalizers + {DATA_FINALIZER})), Some(Tagged(p, tag)),
                                c.bindings, true)
                       else if DATA_FINALIZER in d.finalizers then
                         Result(Kept(d.(finalizers := d.finalizers - {DATA_FINALIZER})), Some(Untagged(p)), c.bindings,
                                true)
                       else Result(Some(d), Some(Tagged(p, tag)), c.bindings, true))
  {
    var p := c.pod.value.obj;
    SettleStep(digest, c, FetchBinding(c.data.value, c.pod.value, tag), now);
    if DigestOf(p) == Some(tag) {
      assert p.annotations[KUDA_KEY_DIGEST := tag] == p.annotations;
      FromFinalizers(digest, c, now, tag);
    } else {
      var pass := WriteDigest(c.data.value, c.pod.value, tag);
      SettleStep(digest, c, pass, now);
      var (c', pass') := Perform(digest, c, pass, now);
      assert c'.data == c.data && ObjOf(c'.pod) == Some(Tagged(p, tag));
      assert pass' == AfterDigest(c'.data.value, c'.pod.value);
      assert Untagged(Tagged(p, tag)) == Untagged(p);
      FromFinalizers(digest, c', now, tag);
    }
  }

  lemma StatusCallAlone(digest: DataSpec -> string, c: Cell, now: nat)
    requires c.data.Some? && c.pod.Some? && Kept(c.data.value.obj).Some?
    ensures var d, p := c.data.value, c.pod.value;
            var (c', reply) := StatusCall(c, d, p, digest(d.obj.spec), now);
            && c'.data.Some? && c'.pod == c.pod && c'.bindings == c.bindings && reply == Ok(c'.data.value)
            && c'.data.value.obj == d.obj.(status := StatusAfter(digest, d.obj, p.obj, now))
  {
    RecountPatchKeepsItems(c.data.value.obj.status, c.data.value.obj.spec, c.data.value.obj.status);
  }

  /** An uninterrupted pass, call by call, comes to what PassResult says in one go; in particular it fails
      exactly when it had to create the role binding, and then neither digest nor finalizer are stored. */
  lemma WholePassResult(digest: DataSpec -> string, c: Cell, now: nat)
    requires c.data.Some? && Kept(c.data.value.obj).Some?
    ensures Matches(WholePass(digest, c, now),
                    PassResult(digest, c.data.value.obj, ObjOf(c.pod), c.bindings, now))
  {
    var d := c.data.value;
    SettleStep(digest, c, Idle, now);
    SettleStep(digest, c, FetchPod(d), now);
    if c.pod.None? {
      SettleStep(digest, c, ReleaseOrphan(d), now);
    } else {
      var p, tag := c.pod.value, digest(d.obj.spec);
      SettleStep(digest, c, WriteStatus(d, p, tag), now);
      StatusCallAlone(digest, c, now);
      var (c1, _) := StatusCall(c, d, p, tag, now);
      if BindingName(p.obj.serviceAccount) in c.bindings {
        FromBinding(digest, c1, now, tag);
      } else {
        SettleStep(digest, c1, FetchBinding(c1.data.value, p, tag), now);
        SettleStep(digest, c1, CreateBinding(c1.data.value, p, tag), now);
      }
    }
  }

  // ---------- A second pass ----------

  /** What passes work towards: a live Data is bound, digested, finalized and counted; a marked one is gone, or has
      lost the reconciler's finalizer and waits on others; without a pod the finalizer is gone. */
  predicate Settled(digest: DataSpec -> string, c: Cell) {
    c.data.Some? ==>
      var d := c.data.value.obj;
      if c.pod.None? then DATA_FINALIZER !in d.finalizers
      else
        var p := c.pod.value.obj;
        && BindingName(p.serviceAccount) in c.bindings
        && DigestOf(p) == Some(digest(d.spec)) && LatestStatus(d.spec, d.status) == d.status
        && (DATA_FINALIZER in d.finalizers <==> !d.deleted)
  }

  /** One more pass settles the Data, unless it takes the reconciler's finalizer off and leaves others. */
  lemma ResultSettles(digest: DataSpec -> string, c: Cell, now: nat)
    requires c.data.Some? && Kept(c.data.value.obj).Some?
    requires c.pod.Some? ==> BindingName(c.pod.value.obj.serviceAccount) in c.bindings
    requires var d := c.data.value.obj;
             d.deleted && DATA_FINALIZER in d.finalizers && c.pod.Some? ==> d.finalizers == {DATA_FINALIZER}
    ensures Settled(digest, WholePass(digest, c, now).0)
  {
    WholePassResult(digest, c, now);
    ResetIsRecounted(c.data.value.obj.spec, now);
  }

  /** Two passes that nobody interrupts are enough, whatever the state: the first may have to create the role
      binding, the second does the rest. */
  lemma TwoPassesSettle(digest: DataSpec -> string, c: Cell, first: nat, second: nat)
    requires c.data.Some? && Kept(c.data.value.obj).Some? && c.data.value.obj.finalizers <= {DATA_FINALIZER}
    ensures Settled(digest, WholePass(digest, WholePass(digest, c, first).0, second).0)
  {
    WholePassResult(digest, c, first);
    var mid := WholePass(digest, c, first).0;
    if mid.data.Some? {
      ResultSettles(digest, mid, second);
    } else {
      SettleStep(digest, mid, Idle, second);
    }
  }

  /** With the finalizers of others on the Data it takes at most one pass more. */
  lemma ThreePassesSettle(digest: DataSpec -> string, c: Cell, first: nat, second: nat, third: nat)
    requires c.data.Some? && Kept(c.data.value.obj).Some?
    ensures Settled(digest, WholePass(digest, WholePass(digest, WholePass(digest, c, first).0, second).0, third).0)
  {
    WholePassResult(digest, c, first);
    var mid := WholePass(digest, c, first).0;
    if mid.data.Some? {
      WholePassResult(digest, mid, second);
      var last := WholePass(digest, mid, second).0;
      if last.data.Some? {
        ResultSettles(digest, last, third);
      } else {
        SettleStep(digest, last, Idle, third);
      }
    } else {
      SettleStep(digest, mid, Idle, second);
      SettleStep(digest, mid, Idle, third);
    }
  }

  /** ... and a pass over a settled Data changes nothing in the store, not even a version. */
  lemma SettledStays(digest: DataSpec -> string, c: Cell, now: nat)
    requires Settled(digest, c) && (c.data.Some? ==> Kept(c.data.value.obj).Some?)
    ensures WholePass(digest, c, now) == (c, Finished(true))
  {
    SettleStep(digest, c, Idle, now);
    if c.data.Some? {
      var d, fin := c.data.value, c.data.value.obj.finalizers;
      SettleStep(digest, c, FetchPod(d), now);
      if c.pod.None? {
        assert fin - {DATA_FINALIZER} == fin;
        SettleStep(digest, c, ReleaseOrphan(d), now);
      } else {
        var p, tag := c.pod.value, digest(d.obj.spec);
        SettleStep(digest, c, WriteStatus(d, p, tag), now);
        SettleStep(digest, c, FetchBinding(d, p, tag), now);
      }
    }
  }

  // ---------- A pass as a run ----------

  function Repeat(a: Action, n: nat): seq<Action> {
    if n == 0 then [] else [a] + Repeat(a, n - 1)
  }

  /** The same pass as a run of the machine: at most seven calls. */
  lemma {:induction false} SettleIsRun(digest: DataSpec -> string, st: State, now: nat) returns (n: nat)
    requires !st.pass.Finished?
    ensures n <= CallsLeft(st.pass)
    ensures var (c, pass) := Settle(digest, st.cell, st.pass, now);
            var end := Run(digest, st, Repeat(Go(now), n));
            end.cell == c && end.pass == pass
    decreases CallsLeft(st.pass)
  {
    var next := Step(digest, st, Go(now));
    SettleStep(digest, st.cell, st.pass, now);
    PassMovesOn(digest, st.cell, st.pass, now);
    if next.pass.Finished? {
      n := 1;
      assert Repeat(Go(now), 0) == [] && Repeat(Go(now), 1) == [Go(now)] + [];
      assert Run(digest, st, [Go(now)]) == Run(digest, next, [Go(now)][1..]);
    } else {
      var m := SettleIsRun(digest, next, now);
      n := m + 1;
      assert Repeat(Go(now), n)[1..] == Repeat(Go(now), m);
    }
  }

  // ---------- A run, and then quiet passes ----------

  lemma {:induction false} CallsAreAllowed(digest: DataSpec -> string, st: State, now: nat, n: nat)
    ensures AllowedRun(digest, st, Repeat(Go(now), n))
    decreases n
  {
    if n > 0 {
      assert Repeat(Go(now), n)[1..] == Repeat(Go(now), n - 1);
      CallsAreAllowed(digest, Step(digest, st, Go(now)), now, n - 1);
    }
  }

  lemma WholePassKeepsInv(digest: DataSpec -> string, st: State, now: nat) returns (end: State)
    requires Injective(digest) && Inv(digest, st) && Resting(st.pass)
    ensures Inv(digest, end) && Resting(end.pass) && end.cell == WholePass(digest, st.cell, now).0
  {
    var start := st.(pass := Idle);
    var n := SettleIsRun(digest, start, now);
    CallsAreAllowed(digest, start, now, n);
    RunKeepsInv(digest, start, Repeat(Go(now), n));
    end := Run(digest, start, Repeat(Go(now), n));
  }

  lemma ThreePassesFromInv(digest: DataSpec -> string, st: State, first: nat, second: nat, third: nat)
    requires Injective(digest) && Inv(digest, st) && Resting(st.pass)
    ensures var end := WholePass(digest, WholePass(digest, WholePass(digest, st.cell, first).0, second).0, third).0;
            Settled(digest, end) && Safe(digest, end)
  {
    var one := WholePassKeepsInv(digest, st, first);
    var two := WholePassKeepsInv(digest, one, second);
    var three := WholePassKeepsInv(digest, two, third);
    if st.cell.data.Some? {
      ThreePassesSettle(digest, st.cell, first, second, third);
    } else {
      SettleStep(digest, st.cell, Idle, first);
      SettleStep(digest, st.cell, Idle, second);
      SettleStep(digest, st.cell, Idle, third);
    }
  }

  /** Recovery: after any run, with whatever failures and interruptions, that ends between passes, three passes that
      nobody interrupts leave the Data settled; and if it and its pod are still there, it lists exactly the items of
      its spec, in order. */
  lemma RunThenThreePasses(digest: DataSpec -> string, st: State, actions: seq<Action>, first: nat, second: nat,
                           third: nat)
    requires Injective(digest)
    requires Initial(st) && AllowedRun(digest, st, actions) && Resting(Run(digest, st, actions).pass)
    ensures var c := Run(digest, st, actions).cell;
            var end := WholePass(digest, WholePass(digest, WholePass(digest, c, first).0, second).0, third).0;
            && Settled(digest, end)
            && (end.data.Some? && end.pod.Some? ==>
                  var d := end.data.value.obj;
                  Aligned(d.status.items.Elems(), d.spec.dataItems.Elems()))
  {
    InitialInv(digest, st);
    RunKeepsInv(digest, st, actions);
    ThreePassesFromInv(digest, Run(digest, st, actions), first, second, third);
  }
}
