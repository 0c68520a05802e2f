/** The request messages of the pod service (package proto). Only the fields that
    the service and the handler read are modelled. */
module Proto {

  /** One port of a request: `ContainerPort` is an int32 of the message. */
  datatype PodPort = PodPort(containerPort: int, protocol: string)

  /** One environment binding of a request. */
  datatype PodEnv = PodEnv(envKey: string, envValue: string)

  /** `proto.PodInfo`: the workload as it arrives in a request. The cpu and memory
      maxima are float32 numbers in the message; the model keeps them as reals. */
  datatype PodInfo = PodInfo(
    id: int,
    podName: string,
    podNamespace: string,
    podImage: string,
    podReplicas: int,
    podCpuMax: real,
    podMemoryMax: real,
    podPullPolicy: string,
    podPort: seq<PodPort>,
    podEnv: seq<PodEnv>)

  /** `&proto.PodInfo{}`: the zero message a conversion writes into. */
  const EmptyPodInfo := PodInfo(0, "", "", "", 0, 0.0, 0.0, "", [], [])
}
