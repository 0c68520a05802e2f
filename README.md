# paasPod pod service: a Dafny model

The model covers the pod service of paasPod. Each pod is one workload, recorded in two systems that share no transaction:

- a relational store, with three tables: Pod, PodEnv and PodPort;
- a Kubernetes cluster, which holds one Deployment per pod name and namespace.

It contains three parts.

- **The desired-state translator** (`PodTranslator`). It turns a `PodInfo` request into the Deployment that `SetDeployment` builds.
  - The protocol and the image pull-policy are closed enums with a fallback for unknown values.
  - Ports and environment variables are mapped element by element, in order.
  - Each port is named `"port-"` followed by its decimal number (`Decimal`).
  - Resource requests equal the limits.
  - The predicate `Translates(info, d)` states the whole result field by field. A request determines its deployment uniquely.
- **The reconciliation sequence** (`Cluster`, `PodService`, `PodHandler`). It fixes which orchestrator and store calls are made, in what order, after which earlier outcomes, and what stays unchanged when a step fails.
  - Every external call goes through one environment (`Remote.Env`). The environment logs the call and asks a fixed fault oracle whether the call fails.
  - Outcomes that depend on state are decided by the gateway and the store on top of the oracle. A `Get`, `Update` or `Delete` of a missing deployment fails, a `Create` of an existing one fails, and a lookup of a missing id fails.
  - The contracts of the service and handler methods state the exact call log, the returned error and the new state of both systems, for every combination of earlier outcomes.
- **The store** (`PodRepository`). `DeletePodByID` is modelled statement by statement:
  - `Begin`;
  - three deletes, issued on the database handle rather than on the transaction, each filtering on the row's own `id`;
  - a `Rollback` and an early return after the first failing delete;
  - `Commit` at the end.

  The function `DeleteSpec` gives the outcome of one call: the call trace, the error, the tables and the transaction status. Lemmas about `DeleteSpec` state the ordering, rollback, commit and "other ids untouched" properties. The other store operations are modelled only as the store's contract.

The documented contract of the service (the behaviour its description promises to callers) differs from the code in a few places. The model follows the code:

- **The delete is not all-or-nothing.** The documented contract calls the three-table delete all-or-nothing. In the code, the deletes run on the plain database handle, so a rollback is not shown to restore rows. `LaterFailureKeepsEarlierDeletes` states that a failing PodEnv delete leaves the Pod row removed.
- **Rollback errors are ignored.** The documented contract escalates a failing rollback as an error. The code discards the error of `tx.Rollback()` and returns the delete's error (`Rollback`).
- **The store's update error is discarded.** The handler's `UpdatePod` returns nil even when the store write fails.
- **Port names need not be unique.** Ports are named after their number only, so two request ports with the same number and different protocols get the same name. `SameNumberSharesName` shows this for 53/TCP and 53/UDP, which both become "port-53". `PortNamesDistinct` gives uniqueness only across distinct numbers.
- **Owned rows can survive a delete.** The documented contract says a delete removes the pod's owned port and environment rows. The code deletes the PodEnv and PodPort rows whose own `id` equals the pod's id, not the rows whose owner key does. `OwnedRowsWithOtherIdsSurvive` states that owned rows with other ids remain.

## Model

| member | source | states |
|---|---|---|
| PodTranslator.GetProtocol | domain/service/pod_service.go:170-181 | The result is always TCP, UDP or SCTP. Those three values pass through unchanged; every other string becomes TCP. |
| PodTranslator.GetImagePullPolicy | domain/service/pod_service.go:207-218 | The result is always Always, Never or IfNotPresent. Those three values pass through unchanged; every other string becomes Always. |
| PodTranslator.GetContainerPort | domain/service/pod_service.go:160-169 | One container port per request port, same length and order. Entry k has the request's number, the name "port-" plus that number, and the protocol mapped by GetProtocol. |
| PodTranslator.PortNameInjective | domain/service/pod_service.go:163 | Two port numbers with the same synthesized name are equal. |
| PodTranslator.PortNamesDistinct | domain/service/pod_service.go:160-169 | In a translated deployment, every port's name is derived from its own number, and ports with distinct numbers have distinct names. |
| PodTranslator.SameNumberSharesName | domain/service/pod_service.go:160-169 | A request with ports 53/TCP and 53/UDP translates to two container ports both named "port-53", with protocols TCP and UDP. |
| PodTranslator.GetEnv | domain/service/pod_service.go:182-191 | One environment variable per request entry, same length and order. Entry k has the entry's key and value and no value reference. |
| PodTranslator.GetResources | domain/service/pod_service.go:192-205 | Requests equal limits, and both hold exactly cpu and memory, taken from the request's cpu and memory maxima. |
| PodTranslator.RequestsEqualLimits | domain/service/pod_service.go:192-205 | The container of a translated deployment has requests equal to limits, with exactly the keys cpu and memory. |
| PodTranslator.TranslationIsUnique | domain/service/pod_service.go:109-159 | Two deployments that both translate the same request are equal: the translation is deterministic. |
| PodTranslator.SelectorMatchesTemplate | domain/service/pod_service.go:115-143 | Every selector label occurs in the pod template with the same value. The deployment label, the selector and the name all carry the pod name. The single container is named after the pod. The namespace is the request's. |
| PodService.PodService.SetDeployment | domain/service/pod_service.go:109-159 | The `deployment` field is overwritten with the translation of the request. No other field changes. |
| Decimal.DigitChar | domain/service/pod_service.go:163 | The character is a digit whose value is the given number. |
| Decimal.FormatNatDigits | domain/service/pod_service.go:163 | The decimal rendering of a natural number is non-empty and made of digits. |
| Decimal.ParseFormatNat | domain/service/pod_service.go:163 | Parsing the decimal rendering of a natural number gives the number back. |
| Decimal.ParseFormatInt | domain/service/pod_service.go:163 | The rendering of any integer is well formed for the parser and parses back to that integer. |
| Decimal.FormatIntInjective | domain/service/pod_service.go:163 | Distinct integers render to distinct decimal strings. |
| Cluster.CreateNeverOverwrites | domain/service/pod_service.go:61 | A create never replaces an existing deployment. It succeeds exactly when the call does not fault and the key is absent. A successful create stores the given deployment, and no other key changes. |
| Cluster.UpdateNeverCreates | domain/service/pod_service.go:93 | An update of an absent key fails and changes nothing. An update never changes the set of keys, and no other key's deployment changes. |
| Cluster.DeleteOnlyOwnKey | domain/service/pod_service.go:74 | A successful delete had the key and removes it. A failed delete changes nothing. No other key changes. |
| Cluster.Cluster.Get | domain/service/pod_service.go:60 | One Get call is logged. The result is the oracle's fault, or the stored deployment, or not found. |
| Cluster.Cluster.Create | domain/service/pod_service.go:61 | One Create call is logged. The error and the new deployments are those of CreateError and Created. |
| Cluster.Cluster.Update | domain/service/pod_service.go:93 | One Update call is logged. The error and the new deployments are those of UpdateError and Updated. |
| Cluster.Cluster.Delete | domain/service/pod_service.go:74 | One Delete call is logged. The error and the new deployments are those of DeleteError and Deleted. |
| PodService.PodService.CreateToK8s | domain/service/pod_service.go:58-71 | The request is translated first. If the Get finds the deployment, the result is "already exists", only the Get is logged and the cluster is unchanged. Otherwise Create is called with the deployment just built, and its error is returned. The store is never touched. |
| PodService.PodService.UpdateToK8s | domain/service/pod_service.go:87-100 | The request is translated first. If the Get fails for any reason, the result is "does not exist", Update is never called and the cluster is unchanged. Otherwise Update is called with the fresh deployment, and its error is returned. |
| PodService.PodService.DeleteFromK8s | domain/service/pod_service.go:73-85 | The orchestrator delete of the pod's namespace and name comes first. If it fails, its error is returned, the store is unchanged and no store call is made. Otherwise the store delete of the pod's id follows exactly as DeleteSpec describes, and its error is returned. |
| PodService.PodService.AddPod | domain/service/pod_service.go:38-40 | Passes through to the store's CreatePod: the same call, error and new store state. |
| PodService.PodService.DeletePod | domain/service/pod_service.go:42-44 | Passes through to the store's DeletePodByID: trace, error, tables and transaction status as DeleteSpec describes. |
| PodService.PodService.UpdatePod | domain/service/pod_service.go:46-48 | Passes through to the store's UpdatePod: the same call, error and new store state. |
| PodService.PodService.FindPodByID | domain/service/pod_service.go:50-52 | Passes through to the store's FindPodByID. A found pod carries the requested id. |
| PodService.PodService.FindAllPod | domain/service/pod_service.go:54-56 | Passes through to the store's FindAll: the error, or a listing of every stored pod exactly once. |
| PodHandler.PodHandler.AddPod | handler/pod_handler.go:31-52 | If the conversion fails, no call is made and nothing changes, not even the service's deployment. If CreateToK8s fails, its error is returned and no store record is created. If the store create fails after the orchestrator create succeeded, the store error is returned and the new deployment stays in place, so there is no compensation. A successful store create adds the pod under a fresh id and changes no other table and not the transaction status. |
| PodHandler.PodHandler.DeletePod | handler/pod_handler.go:54-66 | The record is looked up by id first. If the lookup fails, its error is returned and neither system changes. Otherwise DeleteFromK8s runs on the record found, whose id is the requested one, and the next id stays. |
| PodHandler.PodHandler.UpdatePod | handler/pod_handler.go:68-88 | UpdateToK8s runs first; if it fails, the store is neither read nor written. Otherwise the record with id `info.id` is read, overlaid with the request and written back. The store's own error is discarded, so a failed write still gives no error. A successful write replaces only that record; the other tables, the next id and the transaction status stay. |
| PodHandler.PodHandler.FindAllPod | handler/pod_handler.go:90-107 | A listing error is returned as it is. Otherwise every stored pod is listed once and converted in order, stopping at the first failed conversion with its error. |
| PodHandler.PodHandler.ConvertAll | handler/pod_handler.go:97-105 | The result is the element-wise conversion of the listing, same length and order, or the error of the first element whose conversion fails after all earlier ones succeeded. |
| PodRepository.PodRepository.FindPodByID | domain/repository/pod_repository.go:33-36 | One lookup call is logged. The result is the call's fault, or the pod stored under the id (carrying that id), or not found. |
| PodRepository.PodRepository.CreatePod | domain/repository/pod_repository.go:38-40 | One create call is logged. On a fault nothing changes. Otherwise the pod is stored under a fresh id and the other tables are unchanged. Each pod stays stored under its own id. |
| PodRepository.PodRepository.UpdatePod | domain/repository/pod_repository.go:72-74 | One update call is logged. On a fault nothing changes. Otherwise the record under the pod's id is replaced if one exists, and nothing else changes. |
| PodRepository.PodRepository.FindAll | domain/repository/pod_repository.go:77-79 | One listing call is logged. The result is the call's fault, or every stored pod exactly once, each as it is stored. |
| PodRepository.PodRepository.Rollback | domain/repository/pod_repository.go:54-66 | The Rollback call is logged and the transaction is marked rolled back. Its own error is discarded, and the tables are unchanged. |
| PodRepository.PodRepository.DeleteRows | domain/repository/pod_repository.go:54-66 | One delete, filtered on `id = i`, is issued on the database handle. If it fails, Rollback follows and the tables are unchanged. Otherwise the row keyed `i` leaves exactly that one table. |
| PodRepository.PodRepository.DeletePodByID | domain/repository/pod_repository.go:42-69 | The calls made, the error returned, the three tables and the transaction status left are exactly those of DeleteSpec. The store stays consistent. |
| PodRepository.BeginFailureDeletesNothing | domain/repository/pod_repository.go:43-51 | If Begin fails, its error is returned, only Begin is called and no table changes. |
| PodRepository.DeletesInFixedOrder | domain/repository/pod_repository.go:54-67 | Deletes come right after Begin, in the order Pod, PodEnv, PodPort. Each filters on `id = i` and runs on the database handle. |
| PodRepository.FirstFailureRollsBack | domain/repository/pod_repository.go:54-66 | After the first failing delete n: the trace is Begin, deletes 0..n, then Rollback. That delete's error is returned, no later delete is issued and Commit is never called. |
| PodRepository.CommitOnlyAfterAllDeletes | domain/repository/pod_repository.go:68 | Commit is called if and only if Begin and all three deletes succeeded, and its error is then the result. |
| PodRepository.DeleteKeepsOtherIds | domain/repository/pod_repository.go:54-64 | Whatever the outcome, rows keyed by any id other than `i` are unchanged in all three tables. |
| PodRepository.SuccessRemovesAllRows | domain/repository/pod_repository.go:54-68 | On success no row keyed `i` remains in any of the three tables, and the transaction is committed. |
| PodRepository.OwnedRowsWithOtherIdsSurvive | domain/repository/pod_repository.go:59-64 | Environment and port rows owned by pod `i` that carry an id other than `i` are not removed, even by a fully successful delete. |
| PodRepository.LaterFailureKeepsEarlierDeletes | domain/repository/pod_repository.go:54-62 | If the PodEnv delete fails after the Pod delete succeeded, an error is returned and the Pod row stays removed, while the PodEnv and PodPort tables are unchanged. |

## Left out

- Float formatting and quantity parsing in `getResources` (`strconv.FormatFloat`, `resource.MustParse`): the `float32` cpu and memory maxima are reals in the model, and a quantity is an opaque wrapper around such a real. The panic of `resource.MustParse` on the renderings of non-finite maxima ("NaN", "+Inf", "-Inf") is left out. In the source, `SetDeployment`, and so every operation that calls it, is therefore not total.
- Integer widths: ids, port numbers and replicas are unbounded integers. The `int32`/`int64` ranges and the `int64(...)` widening of the port number are not modelled.
- gorm semantics of `Preload`, `First`, `Create`, `Find` and `Model().Update()` are not modelled. The store is three maps keyed by each row's id behind a fault oracle. `CreatePod` writes only the Pod row, and `UpdatePod` replaces the whole record rather than only its non-zero fields.
- PodRepository.PodRepository.CreatePod: the id it returns is not modelled, because Go leaves unspecified whether `pod.ID` is read before or after `Create` runs. The model assigns the next free id, and the callers do not return an id.
- PodRepository.PodRepository.FindAll: the order of the listing is left open, because the query has no ORDER BY. The contract states only that every stored pod is listed exactly once. The model also assumes that the returned `podAll` is read after `Find` has filled it. Go leaves this order unspecified, as for `CreatePod`'s id. Under the other reading the result is an empty listing with no error.
- Whether a rollback undoes deletes that were issued on the database handle rather than on the transaction depends on the gorm driver. The model records the rollback as a status and does not restore rows.
- The deferred `recover()`/`Rollback` in `DeletePodByID`: Go panics have no counterpart in the model.
- `common.SwapTo`, a reflection-based copy: it is an abstract, possibly failing conversion supplied with the handler.
- Response construction in the handler: `rsp` and `allPods` are nil named results that are dereferenced after `AddPod`'s store create and inside `FindAllPod`'s loop. The handlers are modelled up to their service and store calls.
- The handler's `FindPodByID`: it passes the nil `rsp` as the target of `SwapTo`, so its result depends on that call's handling of a nil target.
- Logging (`common.Info`, `common.Error`), `context.TODO()`, `InitTable`, `NewPodService`, `NewPodRepository` and `mustEmbedUnimplementedPodServer`: none reaches the modelled state.
- The text of the orchestrator's and the store's own errors: they are abstract values chosen by the fault oracle. The two messages the service builds itself are the constructors `PodAlreadyExists` and `PodDoesNotExist`.
- Concurrent requests: the model treats one request at a time. The code has no locking, so races between its existence check and its create are out of scope.
