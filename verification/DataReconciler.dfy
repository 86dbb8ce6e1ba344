/** The Data reconciler as it is written, on objects it edits in place, against a client that lets others in
    before each call and may refuse the call or lose its reply.  Every pass is a run of the machine in
    module Protocol, under the schedule the client plays. */
module DataReconciler {
  import opened Types
  import opened Status
  import opened Server
  import opened Protocol
  import opened DataPass

  class DataObject {
    var version: nat
    var name: string
    var labels: map<string, string>
    var finalizers: set<string>
    var deleted: bool
    var spec: DataSpec
    var status: DataStatus

    function Value(): Stored<Data>
      reads this
    {
      Stored(version, Data(name, labels, finalizers, deleted, spec, status))
    }

    constructor ()
      ensures fresh(this)
    {
      version, name, labels, finalizers, deleted := 0, "", map[], {}, false;
      spec, status := DataSpec(NilSlice, None, None), EMPTY_STATUS;
    }

    method Assign(d: Stored<Data>)
      modifies this
      ensures Value() == d
    {
      version, name, labels, finalizers := d.version, d.obj.name, d.obj.labels, d.obj.finalizers;
      deleted, spec, status := d.obj.deleted, d.obj.spec, d.obj.status;
    }
  }

  class PodObject {
    var version: nat
    var labels: map<string, string>
    var annotations: map<string, string>
    var serviceAccount: string

    function Value(): Stored<Pod>
      reads this
    {
      Stored(version, Pod(labels, annotations, serviceAccount))
    }

    constructor ()
      ensures fresh(this)
    {
      version, labels, annotations, serviceAccount := 0, map[], map[], "";
    }

    method Assign(p: Stored<Pod>)
      modifies this
      ensures Value() == p
    {
      version, labels, annotations, serviceAccount := p.version, p.obj.labels, p.obj.annotations, p.obj.serviceAccount;
    }
  }

  datatype Error = NoError | ErrNotFound | ErrOther

  datatype Fate = Served | Refused | Lost

  /** What happens around one call: what the others do first, and what becomes of the call. */
  datatype Turn = Turn(before: seq<Action>, fate: Fate, now: nat)

  predicate ByOthers(a: Action) {
    !a.Go? && !a.Reject? && !a.Lose?
  }

  predicate ValidScript(script: seq<Turn>) {
    forall i, j :: 0 <= i < |script| && 0 <= j < |script[i].before| ==> ByOthers(script[i].before[j])
  }

  function CallOf(t: Turn): Action {
    match t.fate
    case Served => Go(t.now)
    case Refused => Reject
    case Lost => Lose(t.now)
  }

  const QUIET := Turn([], Served, 0)

  function TurnAt(script: seq<Turn>, k: nat): Turn {
    if k < |script| then script[k] else QUIET
  }

  /** The actions of the first turns of a script; when the script is over, nobody interferes. */
  function Played(script: seq<Turn>, turns: nat): seq<Action> {
    if turns == 0 then []
    else Played(script, turns - 1) + TurnAt(script, turns - 1).before + [CallOf(TurnAt(script, turns - 1))]
  }

  lemma {:induction false} OthersKeepPass(digest: DataSpec -> string, st: State, actions: seq<Action>)
    requires forall i :: 0 <= i < |actions| ==> ByOthers(actions[i])
    ensures Run(digest, st, actions).pass == st.pass
    decreases |actions|
  {
    if actions != [] {
      OthersKeepPass(digest, Step(digest, st, actions[0]), actions[1..]);
    }
  }

  /** The script from a turn on. */
  function From(script: seq<Turn>, turn: nat): seq<Turn> {
    if turn <= |script| then script[turn..] else []
  }

  ghost function StateAfter(digest: DataSpec -> string, origin: State, script: seq<Turn>, turns: nat): State {
    Run(digest, origin, Played(script, turns))
  }

  /** The turns make part of one pass: it is not over before the last of them. */
  ghost predicate OnePass(digest: DataSpec -> string, origin: State, script: seq<Turn>, turns: nat) {
    forall k: nat :: 0 < k < turns ==> !StateAfter(digest, origin, script, k).pass.Finished?
  }

  lemma OneMoreTurn(digest: DataSpec -> string, origin: State, script: seq<Turn>, turns: nat)
    ensures var t := TurnAt(script, turns);
            var before := StateAfter(digest, origin, script, turns);
            StateAfter(digest, origin, script, turns + 1) == Step(digest, Run(digest, before, t.before), CallOf(t))
  {
    var t := TurnAt(script, turns);
    var before := StateAfter(digest, origin, script, turns);
    RunConcat(digest, origin, Played(script, turns), t.before);
    RunConcat(digest, origin, Played(script, turns) + t.before, [CallOf(t)]);
    var mid := Run(digest, before, t.before);
    assert Run(digest, mid, [CallOf(t)]) == Step(digest, mid, CallOf(t));
  }

  lemma OneMoreAction(digest: DataSpec -> string, st: State, actions: seq<Action>, i: nat)
    requires i < |actions| && ByOthers(actions[i])
    ensures Run(digest, st, actions[..i + 1]).cell == Outside(Run(digest, st, actions[..i]).cell, actions[i])
  {
    assert actions[..i + 1] == actions[..i] + [actions[i]];
    RunConcat(digest, st, actions[..i], [actions[i]]);
    var now := Run(digest, st, actions[..i]);
    assert Run(digest, now, [actions[i]]) == Step(digest, now, actions[i]);
  }

  /** A turn in which the pass writes the status: what the call does, and where the pass goes. */
  lemma StatusTurn(digest: DataSpec -> string, mid: State, base: Stored<Data>, pod: Stored<Pod>, tag: string, t: Turn)
    requires mid.pass == WriteStatus(base, pod, tag)
    ensures var (c, reply) := StatusCall(mid.cell, base, pod, tag, t.now);
            var next := Step(digest, mid, CallOf(t));
            && next.cell == (if t.fate == Refused then mid.cell else c)
            && next.pass == if t.fate == Served && reply.Ok? then FetchBinding(reply.obj, pod, tag) else Finished(false)
  {}

  /** The object a pass is about to send in an Update of the Data. */
  ghost predicate UpdateDue(pass: Pass, inst: Stored<Data>) {
    match pass
    case ReleaseOrphan(i) => inst == Unfinalized(i)
    case RemoveFinalizer(i) => inst == Unfinalized(i)
    case AddFinalizer(i) => inst == Finalized(i)
    case _ => false
  }

  /** A turn in which the pass updates the Data, which ends it. */
  lemma DataTurn(digest: DataSpec -> string, mid: State, inst: Stored<Data>, t: Turn)
    requires UpdateDue(mid.pass, inst)
    ensures var (c, reply) := Server.UpdateData(mid.cell, inst);
            var next := Step(digest, mid, CallOf(t));
            && next.cell == (if t.fate == Refused then mid.cell else c)
            && next.pass == Finished(t.fate == Served && reply.Ok?)
  {}

  /** The object a pass is about to send in an Update of the pod. */
  ghost predicate PodUpdateDue(pass: Pass, inst: Stored<Data>, pod: Stored<Pod>) {
    match pass
    case WriteDigest(i, p, tag) => i == inst && pod == WithDigest(p, tag)
    case ClearDigest(i, p) => i == inst && pod == WithoutDigest(p)
    case _ => false
  }

  /** A turn in which the pass updates the pod. */
  lemma PodTurn(digest: DataSpec -> string, mid: State, inst: Stored<Data>, pod: Stored<Pod>, t: Turn)
    requires PodUpdateDue(mid.pass, inst, pod)
    ensures var (c, reply) := Server.UpdatePod(mid.cell, pod);
            var next := Step(digest, mid, CallOf(t));
            && next.cell == (if t.fate == Refused then mid.cell else c)
            && next.pass == if t.fate != Served then Finished(false)
                            else if reply.Ok? && mid.pass.WriteDigest? then AfterDigest(inst, reply.obj)
                            else if !reply.Conflict? && mid.pass.ClearDigest? then RemoveFinalizer(inst)
                            else Finished(false)
  {}

  class Client {
    const digest: DataSpec -> string
    const script: seq<Turn>
    var turn: nat
    var cell: Cell
    // The machine this client plays, from the state the current pass began in
    ghost var machine: State
    ghost var origin: State
    ghost var firstTurn: nat

    ghost predicate History()
      reads `turn, `machine, `origin, `firstTurn
    {
      && ValidScript(script)
      && firstTurn <= turn
      && machine == StateAfter(digest, origin, From(script, firstTurn), turn - firstTurn)
      && OnePass(digest, origin, From(script, firstTurn), turn - firstTurn)
    }

    ghost predicate Valid()
      reads this
    {
      History() && machine.cell == cell
    }

    constructor (digest: DataSpec -> string, script: seq<Turn>, st: State)
      requires ValidScript(script)
      ensures Valid() && machine == st && this.digest == digest && this.script == script && turn == 0
    {
      this.digest, this.script, this.turn, this.cell := digest, script, 0, st.cell;
      machine, origin, firstTurn := st, st, 0;
    }

    /** The others act, then it is the caller's turn to act as the machine has. */
    method NextTurn() returns (t: Turn, ghost mid: State)
      requires Valid() && (machine.pass.Finished? ==> turn == firstTurn)
      modifies this
      ensures History() && unchanged(`origin) && unchanged(`firstTurn)
      ensures mid.cell == cell && mid.pass == old(machine.pass)
      ensures machine == Step(digest, mid, CallOf(t)) && t == TurnAt(script, old(turn)) && turn == old(turn) + 1
    {
      t := TurnAt(script, turn);
      OthersAct(t.before);
      mid := Run(digest, machine, t.before);
      OthersKeepPass(digest, machine, t.before);
      assert TurnAt(From(script, firstTurn), turn - firstTurn) == t;
      OneMoreTurn(digest, origin, From(script, firstTurn), turn - firstTurn);
      machine := Step(digest, mid, CallOf(t));
      turn := turn + 1;
    }

    method OthersAct(actions: seq<Action>)
      requires machine.cell == cell && forall i :: 0 <= i < |actions| ==> ByOthers(actions[i])
      modifies `cell
      ensures cell == Run(digest, machine, actions).cell
    {
      for i := 0 to |actions|
        invariant cell == Run(digest, machine, actions[..i]).cell
      {
        OneMoreAction(digest, machine, actions, i);
        cell := Outside(cell, actions[i]);
      }
      assert actions[..|actions|] == actions;
    }

    /** metav1.Now, read just before a call. */
    method Now() returns (now: nat)
      ensures now == TurnAt(script, turn).now
    {
      now := TurnAt(script, turn).now;
    }

    method GetData(inst: DataObject) returns (err: Error)
      requires Valid() && Resting(machine.pass) && turn == firstTurn
      modifies this, inst
      ensures Valid() && unchanged(`origin) && unchanged(`firstTurn) && turn > old(turn)
      ensures machine.pass == match err
                              case NoError => FetchPod(inst.Value())
                              case ErrNotFound => Finished(true)
                              case ErrOther => Finished(false)
    {
      var t, mid := NextTurn();
      if t.fate != Served { return ErrOther; }
      if cell.data.None? { return ErrNotFound; }
      inst.Assign(cell.data.value);
      err := NoError;
    }

    method GetPod(ghost inst: DataObject, pod: PodObject) returns (err: Error)
      requires Valid() && machine.pass == FetchPod(inst.Value())
      modifies this, pod
      ensures Valid() && unchanged(`origin) && unchanged(`firstTurn) && turn > old(turn)
      ensures machine.pass == match err
                              case NoError => WriteStatus(inst.Value(), pod.Value(), digest(inst.spec))
                              case ErrNotFound => ReleaseOrphan(inst.Value())
                              case ErrOther => Finished(false)
    {
      var t, mid := NextTurn();
      if t.fate != Served { return ErrOther; }
      if cell.pod.None? { return ErrNotFound; }
      pod.Assign(cell.pod.value);
      err := NoError;
    }

    method UpdateData(inst: DataObject) returns (err: Error)
      requires Valid() && UpdateDue(machine.pass, inst.Value())
      modifies this, inst
      ensures Valid() && unchanged(`origin) && unchanged(`firstTurn) && turn > old(turn)
      ensures machine.pass == Finished(err == NoError)
    {
      var t, mid := NextTurn();
      DataTurn(digest, mid, inst.Value(), t);
      if t.fate == Refused { return ErrOther; }
      var (c, reply) := Server.UpdateData(cell, inst.Value());
      cell := c;
      if t.fate == Lost { return ErrOther; }
      err := ErrorOf(reply);
      if reply.Ok? { inst.Assign(reply.obj); }
    }

    static function ErrorOf<T>(reply: Reply<T>): Error {
      match reply
      case Ok(_) => NoError
      case NotFound => ErrNotFound
      case Conflict => ErrOther
    }

    method UpdateStatus(inst: DataObject, ghost base: Stored<Data>, ghost pod: PodObject, ghost tag: string)
      returns (err: Error)
      requires Valid() && machine.pass == WriteStatus(base, pod.Value(), tag) && DigestOf(pod.Value().obj) != Some(tag)
      requires inst.Value() == WithStatus(base, DefaultStatus(base.obj.spec, TurnAt(script, turn).now))
      modifies this, inst
      ensures Valid() && unchanged(`origin) && unchanged(`firstTurn) && turn > old(turn)
      ensures machine.pass == if err == NoError then FetchBinding(inst.Value(), old(pod.Value()), tag)
                              else Finished(false)
    {
      ghost var podValue := pod.Value();
      var t, mid := NextTurn();
      StatusTurn(digest, mid, base, podValue, tag, t);
      if t.fate == Refused { return ErrOther; }
      var (c, reply) := Server.UpdateStatus(cell, inst.Value());
      cell := c;
      if t.fate == Lost { return ErrOther; }
      err := ErrorOf(reply);
      if reply.Ok? { inst.Assign(reply.obj); }
    }

    method PatchStatus(inst: DataObject, base: Stored<Data>, ghost pod: PodObject, ghost tag: string)
      returns (err: Error)
      requires Valid() && machine.pass == WriteStatus(base, pod.Value(), tag) && DigestOf(pod.Value().obj) == Some(tag)
      requires inst.Value() == WithStatus(base, LatestStatus(base.obj.spec, base.obj.status))
      modifies this, inst
      ensures Valid() && unchanged(`origin) && unchanged(`firstTurn) && turn > old(turn)
      ensures machine.pass == if err == NoError then FetchBinding(inst.Value(), old(pod.Value()), tag)
                              else Finished(false)
    {
      ghost var podValue := pod.Value();
      var t, mid := NextTurn();
      StatusTurn(digest, mid, base, podValue, tag, t);
      if t.fate == Refused { return ErrOther; }
      var (c, reply) := Server.PatchStatus(cell, base.obj.status, inst.status);
      assert (c, reply) == StatusCall(cell, base, podValue, tag, t.now);
      cell := c;
      if t.fate == Lost { return ErrOther; }
      err := ErrorOf(reply);
      if reply.Ok? { inst.Assign(reply.obj); }
    }

    method GetBinding(name: string) returns (err: Error)
      requires Valid() && machine.pass.FetchBinding? && name == BindingName(machine.pass.pod.obj.serviceAccount)
      modifies this
      ensures Valid() && unchanged(`origin) && unchanged(`firstTurn) && turn > old(turn)
      ensures old(machine.pass).FetchBinding?
      ensures var before := old(machine.pass);
              machine.pass == match err
                              case NoError => AfterBinding(before.inst, before.pod, before.tag)
                              case ErrNotFound => Pass.CreateBinding(before.inst, before.pod, before.tag)
                              case ErrOther => Finished(false)
    {
      var t, mid := NextTurn();
      if t.fate != Served { return ErrOther; }
      err := if name in cell.bindings then NoError else ErrNotFound;
    }

    method CreateBinding(name: string) returns (err: Error)
      requires Valid() && machine.pass.CreateBinding? && name == BindingName(machine.pass.pod.obj.serviceAccount)
      modifies this
      ensures Valid() && unchanged(`origin) && unchanged(`firstTurn) && turn > old(turn)
      ensures machine.pass == Finished(false)
    {
      var t, mid := NextTurn();
      if t.fate == Refused { return ErrOther; }
      var taken := name in cell.bindings;
      cell := cell.(bindings := cell.bindings + {name});
      err := if t.fate == Lost || taken then ErrOther else NoError;
    }

    method UpdatePod(ghost inst: DataObject, pod: PodObject) returns (err: Error)
      requires Valid() && PodUpdateDue(machine.pass, inst.Value(), pod.Value())
      modifies this, pod
      ensures Valid() && unchanged(`origin) && unchanged(`firstTurn) && turn > old(turn)
      ensures old(machine.pass).WriteDigest? ==>
                machine.pass == if err == NoError then AfterDigest(old(inst.Value()), pod.Value()) else Finished(false)
      ensures old(machine.pass).ClearDigest? ==>
                machine.pass == if err != ErrOther then RemoveFinalizer(old(inst.Value())) else Finished(false)
    {
      ghost var instValue := inst.Value();
      var t, mid := NextTurn();
      PodTurn(digest, mid, instValue, pod.Value(), t);
      if t.fate == Refused { return ErrOther; }
      var (c, reply) := Server.UpdatePod(cell, pod.Value());
      cell := c;
      if t.fate == Lost { return ErrOther; }
      err := ErrorOf(reply);
      if reply.Ok? { pod.Assign(reply.obj); }
    }
  }

  /** The end of syncData: the finalizer is stored, or the deletion path clears digest and finalizer. */
  method SyncFinalizer(c: Client, inst: DataObject, pod: PodObject) returns (ok: bool)
    requires c.Valid() && c.machine.pass == AfterDigest(inst.Value(), pod.Value())
    modifies c, inst, pod
    ensures c.Valid() && c.origin == old(c.origin) && c.firstTurn == old(c.firstTurn) && c.turn >= old(c.turn)
    ensures c.machine.pass == Finished(ok)
  {
    var err;
    if inst.deleted {
      if DATA_FINALIZER in inst.finalizers {
        pod.annotations := pod.annotations - {KUDA_KEY_DIGEST};
        err := c.UpdatePod(inst, pod);
        if err == ErrOther { return false; }

        inst.finalizers := inst.finalizers - {DATA_FINALIZER};
        err := c.UpdateData(inst);
        return err == NoError;
      }
      return true;
    }
    if DATA_FINALIZER !in inst.finalizers {
      inst.finalizers := inst.finalizers + {DATA_FINALIZER};
      err := c.UpdateData(inst);
      return err == NoError;
    }
    return true;
  }

  method UpdateDataStatus(c: Client, inst: DataObject, pod: PodObject, dataTag: string) returns (ok: bool)
    requires c.Valid() && c.machine.pass == WriteStatus(inst.Value(), pod.Value(), dataTag)
    modifies c, inst
    ensures c.Valid() && c.origin == old(c.origin) && c.firstTurn == old(c.firstTurn) && c.turn >= old(c.turn)
    ensures c.machine.pass == if ok then FetchBinding(inst.Value(), pod.Value(), dataTag) else Finished(false)
  {
    var diff := false;
    var newStatus := GenLatestStatus(inst.spec, inst.status);
    if KUDA_KEY_DIGEST !in pod.annotations || pod.annotations[KUDA_KEY_DIGEST] != dataTag {
      var now := c.Now();
      newStatus := GenDefaultStatus(inst.spec, now);
      diff := true;
    }

    // The source compares a pointer with a struct here, so it always goes on to write.
    var base := inst.Value();
    inst.status := newStatus;
    var err;
    if diff {
      err := c.UpdateStatus(inst, base, pod, dataTag);
    } else {
      err := c.PatchStatus(inst, base, pod, dataTag);
    }
    ok := err == NoError;
  }

  method UpdateRoleBinding(c: Client, inst: DataObject, pod: PodObject, ghost dataTag: string) returns (ok: bool)
    requires c.Valid() && c.machine.pass == FetchBinding(inst.Value(), pod.Value(), dataTag)
    modifies c
    ensures c.Valid() && c.origin == old(c.origin) && c.firstTurn == old(c.firstTurn) && c.turn >= old(c.turn)
    ensures c.machine.pass == if ok then AfterBinding(inst.Value(), pod.Value(), dataTag) else Finished(false)
  {
    var name := BindingName(pod.serviceAccount);
    var err := c.GetBinding(name);
    if err != NoError {
      if err == ErrNotFound {
        var createErr := c.CreateBinding(name);
        if createErr != NoError { return false; }
      }
      // the error of the Get, also after the Create went well
      return false;
    }
    return true;
  }

  method UpdatePodAnnotations(c: Client, inst: DataObject, pod: PodObject, dataTag: string) returns (ok: bool)
    requires c.Valid() && c.machine.pass == AfterBinding(inst.Value(), pod.Value(), dataTag)
    modifies c, pod
    ensures c.Valid() && c.origin == old(c.origin) && c.firstTurn == old(c.firstTurn) && c.turn >= old(c.turn)
    ensures c.machine.pass == if ok then AfterDigest(inst.Value(), pod.Value()) else Finished(false)
  {
    if KUDA_KEY_DIGEST !in pod.annotations || pod.annotations[KUDA_KEY_DIGEST] != dataTag {
      pod.annotations := pod.annotations[KUDA_KEY_DIGEST := dataTag];
      var err := c.UpdatePod(inst, pod);
      if err != NoError { return false; }
    }
    return true;
  }

  method SyncData(c: Client, inst: DataObject, pod: PodObject) returns (ok: bool)
    requires c.Valid() && c.machine.pass == WriteStatus(inst.Value(), pod.Value(), c.digest(inst.spec))
    modifies c, inst, pod
    ensures c.Valid() && c.origin == old(c.origin) && c.firstTurn == old(c.firstTurn) && c.turn >= old(c.turn)
    ensures c.machine.pass == Finished(ok)
  {
    var dataTag := c.digest(inst.spec);

    ok := UpdateDataStatus(c, inst, pod, dataTag);
    if !ok { return; }
    ok := UpdateRoleBinding(c, inst, pod, dataTag);
    if !ok { return; }
    ok := UpdatePodAnnotations(c, inst, pod, dataTag);
    if !ok { return; }
    ok := SyncFinalizer(c, inst, pod);
  }

  /** A pass, for the one Data and pod of the client: it goes through the machine's calls, in the machine's
      order, from the start of a pass to its end, and reports what the machine reports.  Valid says that the turns
      since the origin are one pass, so it stops where the pass is over for the first time. */
  method Reconcile(c: Client) returns (ok: bool)
    requires c.Valid() && Resting(c.machine.pass)
    modifies c
    ensures c.Valid() && c.origin == old(c.machine) && c.firstTurn == old(c.turn) < c.turn
    ensures OnePass(c.digest, old(c.machine), From(c.script, old(c.turn)), c.turn - old(c.turn))
    ensures c.machine.pass == Finished(ok)
  {
    c.origin, c.firstTurn := c.machine, c.turn;
    var inst := new DataObject();
    var err := c.GetData(inst);
    if err != NoError { return err == ErrNotFound; }

    var pod := new PodObject();
    err := c.GetPod(inst, pod);
    if err == ErrNotFound {
      inst.finalizers := inst.finalizers - {DATA_FINALIZER};
      err := c.UpdateData(inst);
      return err == NoError;
    }
    if err != NoError { return false; }
    ok := SyncData(c, inst, pod);
  }

  predicate Alone(script: seq<Turn>, now: nat) {
    forall k: nat :: k < 7 ==> TurnAt(script, k) == Turn([], Served, now)
  }

  lemma {:induction false} TurnsSettle(digest: DataSpec -> string, origin: State, script: seq<Turn>, turns: nat,
                                       now: nat)
    requires Resting(origin.pass) && Alone(script, now) && turns > 0 && OnePass(digest, origin, script, turns)
    ensures var st := StateAfter(digest, origin, script, turns);
            && turns + CallsLeft(st.pass) <= 7
            && Settle(digest, st.cell, st.pass, now) == WholePass(digest, origin.cell, now)
  {
    OneMoreTurn(digest, origin, script, turns - 1);
    var before := StateAfter(digest, origin, script, turns - 1);
    if turns == 1 {
      assert before == origin;
      SettleStep(digest, origin.cell, Idle, now);
    } else {
      TurnsSettle(digest, origin, script, turns - 1, now);
      PassMovesOn(digest, before.cell, before.pass, now);
      SettleStep(digest, before.cell, before.pass, now);
    }
    var t := TurnAt(script, turns - 1);
    assert t == Turn([], Served, now) && Run(digest, before, t.before) == before;
  }

  /** A pass that nobody interrupts, as the code makes it, leaves what the machine's whole pass leaves; that is the
      closed result on which the passes over a whole namespace rest. */
  method ReconcileAlone(c: Client, ghost now: nat) returns (ok: bool)
    requires c.Valid() && Resting(c.machine.pass) && Alone(From(c.script, c.turn), now)
    modifies c
    ensures c.Valid() && (c.cell, Finished(ok)) == WholePass(c.digest, old(c.cell), now)
    ensures var before := old(c.cell);
            before.data.Some? && Kept(before.data.value.obj).Some? ==>
              Matches((c.cell, Finished(ok)),
                      PassResult(c.digest, before.data.value.obj, ObjOf(before.pod), before.bindings, now))
  {
    ghost var start, turn, cell := c.machine, c.turn, c.cell;
    ok := Reconcile(c);
    TurnsSettle(c.digest, start, From(c.script, turn), c.turn - turn, now);
    if cell.data.Some? && Kept(cell.data.value.obj).Some? {
      WholePassResult(c.digest, cell, now);
    }
  }

  /** The guarantees of the machine are those of the code: if the others do what they may while it lasts, a pass
      that starts with the invariant ends with it, whatever becomes of its calls. */
  method ReconcileSafely(c: Client) returns (ok: bool)
    requires c.Valid() && Resting(c.machine.pass)
    requires Injective(c.digest) && Inv(c.digest, c.machine)
    requires forall turns: nat :: OnePass(c.digest, c.machine, From(c.script, c.turn), turns) ==>
               AllowedRun(c.digest, c.machine, Played(From(c.script, c.turn), turns))
    modifies c
    ensures c.Valid() && Inv(c.digest, c.machine) && c.machine.pass == Finished(ok)
    ensures Safe(c.digest, c.cell)
  {
    ghost var start, turn := c.machine, c.turn;
    ok := Reconcile(c);
    RunKeepsInv(c.digest, start, Played(From(c.script, turn), c.turn - turn));
  }
}
