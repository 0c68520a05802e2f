/** The records of the relational store (package model): a pod row owns port rows
    and environment rows, each row with its own `ID` and its owner's `PodID`. */
module PodModel {

  datatype PodPort = PodPort(id: int, podID: int, containerPort: int, protocol: string)

  datatype PodEnv = PodEnv(id: int, podID: int, envKey: string, envValue: string)

  /** `model.Pod`, as `FindPodByID` returns it with its ports and environment preloaded. */
  datatype Pod = Pod(
    id: int,
    podName: string,
    podNamespace: string,
    podImage: string,
    podReplicas: int,
    podCpuMax: real,
    podMemoryMax: real,
    podPullPolicy: string,
    podPort: seq<PodPort>,
    podEnv: seq<PodEnv>)

  /** `&model.Pod{}`: the zero record a conversion writes into. */
  const EmptyPod := Pod(0, "", "", "", 0, 0.0, 0.0, "", [], [])
}
