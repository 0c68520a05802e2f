/** The two external systems seen from the service: every call to the orchestrator or
    to the database is appended to a shared call log, and whether it fails is decided by
    a fixed oracle. The oracle stands for transport, authorization and database faults;
    outcomes that depend on the stored state (not found, already exists) are modelled by
    the gateway and the repository on top of it. */
module Remote {

  import opened Wrappers
  import K8sApi
  import PodModel

  /** The errors the core produces or passes on. */
  datatype Error =
    | PodAlreadyExists(podName: string)                          // CreateToK8s: "Pod <name> 已经存在"
    | PodDoesNotExist(podName: string)                           // UpdateToK8s: "Pod <name> 不存在请先创建"
    | DeploymentNotFound(namespace: string, name: string)        // orchestrator: no such deployment
    | DeploymentAlreadyExists(namespace: string, name: string)   // orchestrator: name taken
    | RecordNotFound(id: int)                                    // store: no row with this id
    | Failure(reason: string)                                    // any other fault of a call

  /** The three tables of the store. */
  datatype Table = PodTable | PodEnvTable | PodPortTable

  /** The handle a statement is issued on: the plain database handle or the transaction. */
  datatype Conn = OnDB | OnTx

  /** One call to an external system. */
  datatype Call =
    | K8sGet(namespace: string, name: string)
    | K8sCreate(namespace: string, deployment: K8sApi.Deployment)
    | K8sUpdate(namespace: string, deployment: K8sApi.Deployment)
    | K8sDelete(namespace: string, name: string)
    | DbFind(id: int)
    | DbCreate(pod: PodModel.Pod)
    | DbUpdate(pod: PodModel.Pod)
    | DbFindAll
    | TxBegin
    | DbDelete(table: Table, id: int, conn: Conn)
    | TxRollback
    | TxCommit

  /** The environment: the log of calls made so far and the fault oracle. */
  class Env {
    var calls: seq<Call>
    const fault: Call -> Option<Error>

    constructor (fault: Call -> Option<Error>)
      ensures calls == [] && this.fault == fault
    {
      this.fault := fault;
      calls := [];
    }

    /** Makes call `c`: it is logged, and its fault (if any) is returned. */
    method Issue(c: Call) returns (outcome: Option<Error>)
      modifies this
      ensures calls == old(calls) + [c]
      ensures outcome == fault(c)
    {
      calls := calls + [c];
      outcome := fault(c);
    }
  }
}
