/** The API server, reduced to what concerns one Data and the pod it is for: versions, finalizers, deletion
    marks and the status subresource.  Each function is one call. */
module Server {
  import opened Types
  import opened Status

  datatype Cell =
    Cell(data: Option<Stored<Data>>, pod: Option<Stored<Pod>>, bindings: set<string>, clock: nat)

  datatype Reply<+T> = Ok(obj: T) | NotFound | Conflict

  /** Storing an object; a write that changes nothing keeps the version, and a marked object whose last
      finalizer goes leaves the store. */
  function PutData(c: Cell, obj: Data): Cell
    requires c.data.Some?
  {
    if obj == c.data.value.obj then c
    else if obj.deleted && obj.finalizers == {} then c.(data := None)
    else c.(data := Some(Stored(c.clock, obj)), clock := c.clock + 1)
  }

  function PutPod(c: Cell, obj: Pod): Cell
    requires c.pod.Some?
  {
    if obj == c.pod.value.obj then c else c.(pod := Some(Stored(c.clock, obj)), clock := c.clock + 1)
  }

  function CheckVersion<T>(stored: Option<Stored<T>>, version: nat): Reply<T> {
    if stored.None? then NotFound
    else if stored.value.version != version then Conflict
    else Ok(stored.value.obj)
  }

  /** Update of the main resource: the status and the deletion mark stay as stored. */
  function UpdateData(c: Cell, inst: Stored<Data>): (r: (Cell, Reply<Stored<Data>>)) {
    var check := CheckVersion(c.data, inst.version);
    if !check.Ok? then (c, if check.NotFound? then NotFound else Conflict)
    else
      var obj := inst.obj.(status := check.obj.status, deleted := check.obj.deleted);
      var c' := PutData(c, obj);
      (c', Ok(if c'.data.Some? then c'.data.value else inst.(obj := obj)))
  }

  /** Update of the status subresource: everything but the status stays as stored. */
  function UpdateStatus(c: Cell, inst: Stored<Data>): (r: (Cell, Reply<Stored<Data>>)) {
    var check := CheckVersion(c.data, inst.version);
    if !check.Ok? then (c, if check.NotFound? then NotFound else Conflict)
    else
      var c' := PutData(c, check.obj.(status := inst.obj.status));
      (c', Ok(if c'.data.Some? then c'.data.value else inst))
  }

  /** Merge patch of the status subresource: no version is checked. */
  function PatchStatus(c: Cell, before: DataStatus, after: DataStatus): (r: (Cell, Reply<Stored<Data>>)) {
    if c.data.None? then (c, NotFound)
    else
      var obj := c.data.value.obj;
      var c' := PutData(c, obj.(status := Merged(obj.status, before, after)));
      (c', if c'.data.Some? then Ok(c'.data.value) else NotFound)
  }

  function UpdatePod(c: Cell, pod: Stored<Pod>): (r: (Cell, Reply<Stored<Pod>>)) {
    var check := CheckVersion(c.pod, pod.version);
    if !check.Ok? then (c, if check.NotFound? then NotFound else Conflict)
    else
      var c' := PutPod(c, pod.obj);
      (c', Ok(c'.pod.value))
  }

  /** Delete: gone at once without finalizers, marked otherwise. */
  function DeleteData(c: Cell): Cell {
    if c.data.None? then c
    else if c.data.value.obj.finalizers == {} then c.(data := None)
    else PutData(c, c.data.value.obj.(deleted := true))
  }

  const RUNTIME_ROLE_BINDING := "kuda-runtime-rolebinding"

  function BindingName(serviceAccount: string): string {
    serviceAccount + "-" + RUNTIME_ROLE_BINDING
  }

  /** The binding is named after the service account, and different accounts have different bindings. */
  lemma BindingNameIs(a: string, b: string)
    ensures BindingName(a) == a + "-" + "kuda-runtime-rolebinding"
    ensures BindingName(a) == BindingName(b) <==> a == b
  {
    assert a == BindingName(a)[..|a|] && b == BindingName(b)[..|b|];
  }
}
