/** The API objects of the operator, as values.  A Go slice keeps the difference between nil
    and empty, because reflect.DeepEqual and the generated deep copies tell them apart. */
module Types {

  datatype Option<+T> = None | Some(value: T)

  datatype Slice<+T> = NilSlice | Slice(elems: seq<T>) {
    /** What a range loop over the slice visits. */
    function Elems(): seq<T> {
      match this
      case NilSlice => []
      case Slice(elems) => elems
    }
  }

  // Label and annotation keys
  const KUDA_KEY_POD := "kuda.io/pod"
  const KUDA_KEY_DATASET := "kuda.io/dataset"
  const KUDA_KEY_DIGEST := "kuda.io/data-digest"

  const DATA_FINALIZER := "kuda.io/finalizer"

  datatype ExecAction = ExecAction(command: Slice<string>)

  datatype HTTPHeader = HTTPHeader(name: string, value: string)

  datatype HTTPGetAction =
    HTTPGetAction(path: string, port: string, host: string, scheme: string, httpHeaders: Slice<HTTPHeader>)

  datatype LifecycleHandler = LifecycleHandler(exec: Option<ExecAction>, httpGet: Option<HTTPGetAction>)

  datatype Lifecycle = Lifecycle(preDownload: Option<LifecycleHandler>, postDownload: Option<LifecycleHandler>)

  datatype HdfsDataSource = HdfsDataSource(addresses: Slice<string>, userName: string)

  datatype AlluxioDataSource = AlluxioDataSource(host: string, port: int, timeout: int)

  datatype DataSources = DataSources(hdfs: Option<HdfsDataSource>, alluxio: Option<AlluxioDataSource>)

  datatype DataItem =
    DataItem(name: string, namespace: string, remotePath: string, localPath: string, version: string,
             dataSourceType: string, lifecycle: Option<Lifecycle>)

  datatype DataSpec =
    DataSpec(dataItems: Slice<DataItem>, lifecycle: Option<Lifecycle>, dataSources: Option<DataSources>)

  /** A phase is a string in the API; the counters know four of them. */
  datatype Phase = Waiting | Downloading | Success | Failed | Unknown(text: string)

  datatype ItemStatus =
    ItemStatus(name: string, namespace: string, version: string, phase: Phase, startTime: nat, message: string)

  datatype DataStatus =
    DataStatus(items: Slice<ItemStatus>, dataItems: nat, success: nat, waiting: nat, downloading: nat,
               failed: nat, ready: string)

  const EMPTY_STATUS := DataStatus(NilSlice, 0, 0, 0, 0, 0, "")

  datatype Data =
    Data(name: string, labels: map<string, string>, finalizers: set<string>, deleted: bool, spec: DataSpec,
         status: DataStatus)

  datatype DataSetStatus = DataSetStatus(dataItems: nat, replicas: nat, successReplicas: nat, ready: string)

  datatype DataTemplateSpec =
    DataTemplateSpec(dataItems: Slice<DataItem>, lifecycle: Option<Lifecycle>, dataSources: Option<DataSources>)

  datatype DataSet =
    DataSet(name: string, namespace: string, template: DataTemplateSpec, selector: map<string, string>,
            status: DataSetStatus)

  /** The part of a pod the two controllers read and write. */
  datatype Pod = Pod(labels: map<string, string>, annotations: map<string, string>, serviceAccount: string)

  /** An object in the API server, with the version an Update must name. */
  datatype Stored<+T> = Stored(version: nat, obj: T)

  /** Reading a missing key of a Go string map gives the empty string. */
  function Lookup(m: map<string, string>, key: string): string {
    if key in m then m[key] else ""
  }

  function PodNameOf(d: Data): string {
    Lookup(d.labels, KUDA_KEY_POD)
  }

  /** What the label selector {kuda.io/dataset: name} of a list call accepts. */
  predicate BelongsTo(d: Data, dataSet: string) {
    KUDA_KEY_DATASET in d.labels && d.labels[KUDA_KEY_DATASET] == dataSet
  }

  function DigestOf(p: Pod): Option<string> {
    if KUDA_KEY_DIGEST in p.annotations then Some(p.annotations[KUDA_KEY_DIGEST]) else None
  }

  function Tagged(pod: Pod, tag: string): Pod {
    pod.(annotations := pod.annotations[KUDA_KEY_DIGEST := tag])
  }

  function Untagged(pod: Pod): Pod {
    pod.(annotations := pod.annotations - {KUDA_KEY_DIGEST})
  }

  ghost predicate Injective(digest: DataSpec -> string) {
    forall s, t :: digest(s) == digest(t) ==> s == t
  }

  /** Decimal notation, as the verb %d prints it. */
  function Decimal(n: nat): string {
    if n < 10 then [('0' as int + n) as char] else Decimal(n / 10) + Decimal(n % 10)
  }

  function Ready(done: nat, total: nat): string {
    Decimal(done) + "/" + Decimal(total)
  }
}
