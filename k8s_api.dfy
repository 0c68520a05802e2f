/** The part of the orchestrator's API types (apps/v1 Deployment, core/v1 container)
    that the translator fills in. Unset fields of the Go structs are left out. */
module K8sApi {

  import opened Wrappers

  datatype TypeMeta = TypeMeta(kind: string, apiVersion: string)

  datatype ObjectMeta = ObjectMeta(name: string, namespace: string, labels: map<string, string>)

  /** A label selector with `MatchExpressions` nil: only `MatchLabels` remains. */
  datatype LabelSelector = LabelSelector(matchLabels: map<string, string>)

  datatype ContainerPort = ContainerPort(name: string, containerPort: int, protocol: string)

  /** A reference to a value held elsewhere (config map, secret, field); never produced. */
  datatype EnvVarSource = EnvVarSource(reference: string)

  datatype EnvVar = EnvVar(name: string, value: string, valueFrom: Option<EnvVarSource>)

  /** `resource.MustParse(strconv.FormatFloat(x, 'f', 6, 64))`, kept as the number it was
      made from: formatting and parsing of quantities is not part of this model. */
  datatype Quantity = Quantity(amount: real)

  datatype ResourceRequirements = ResourceRequirements(
    limits: map<string, Quantity>,
    requests: map<string, Quantity>)

  datatype Container = Container(
    name: string,
    image: string,
    ports: seq<ContainerPort>,
    env: seq<EnvVar>,
    resources: ResourceRequirements,
    imagePullPolicy: string)

  /** A pod template: its metadata holds only labels. */
  datatype PodTemplateSpec = PodTemplateSpec(metadata: ObjectMeta, containers: seq<Container>)

  datatype DeploymentSpec = DeploymentSpec(
    replicas: int,
    selector: LabelSelector,
    template: PodTemplateSpec,
    minReadySeconds: int,
    paused: bool)

  datatype Deployment = Deployment(typeMeta: TypeMeta, metadata: ObjectMeta, spec: DeploymentSpec)

  /** `&v1.Deployment{}`: the value the service holds before its first translation. */
  const EmptyDeployment := Deployment(
    TypeMeta("", ""),
    ObjectMeta("", "", map[]),
    DeploymentSpec(0, LabelSelector(map[]), PodTemplateSpec(ObjectMeta("", "", map[]), []), 0, false))
}
