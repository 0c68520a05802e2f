/** The desired-state translator of the pod service: from a `PodInfo` request to the
    Deployment the orchestrator is asked to hold. Closed enums with a fallback, ports and
    environment mapped element by element, requests equal to limits. */
module PodTranslator {

  import opened Wrappers
  import opened K8sApi
  import Proto
  import Decimal

  /** The label that ties the deployment, its selector and its pod template together. */
  const AppLabel := "app-name"

  /** `getProtocol`: TCP, UDP and SCTP pass through; anything else becomes TCP. */
  function GetProtocol(protocol: string): (r: string)
    ensures r in {"TCP", "UDP", "SCTP"}
    ensures protocol in {"TCP", "UDP", "SCTP"} ==> r == protocol
    ensures protocol !in {"TCP", "UDP", "SCTP"} ==> r == "TCP"
  {
    match protocol
    case "TCP" => "TCP"
    case "UDP" => "UDP"
    case "SCTP" => "SCTP"
    case _ => "TCP"
  }

  /** `getImagePullPolicy`: Always, Never and IfNotPresent pass through; anything else
      becomes Always. */
  function GetImagePullPolicy(info: Proto.PodInfo): (r: string)
    ensures r in {"Always", "Never", "IfNotPresent"}
    ensures info.podPullPolicy in {"Always", "Never", "IfNotPresent"} ==> r == info.podPullPolicy
    ensures info.podPullPolicy !in {"Always", "Never", "IfNotPresent"} ==> r == "Always"
  {
    match info.podPullPolicy
    case "Always" => "Always"
    case "Never" => "Never"
    case "IfNotPresent" => "IfNotPresent"
    case _ => "Always"
  }

  /** The synthesized name of a container port: "port-" and its decimal number. */
  function PortName(containerPort: int): (name: string) {
    "port-" + Decimal.FormatInt(containerPort)
  }

  /** Distinct port numbers get distinct names. */
  lemma PortNameInjective(a: int, b: int)
    ensures PortName(a) == PortName(b) ==> a == b
  {
    if PortName(a) == PortName(b) {
      assert Decimal.FormatInt(a) == PortName(a)[5..];
      assert Decimal.FormatInt(b) == PortName(b)[5..];
      Decimal.FormatIntInjective(a, b);
    }
  }

  /** Container port `k` is request port `k` with its synthesized name and its
      protocol passed through `GetProtocol`. */
  ghost predicate PortsTranslate(ports: seq<Proto.PodPort>, cps: seq<ContainerPort>) {
    && |cps| == |ports|
    && forall k :: 0 <= k < |ports| ==>
         cps[k] == ContainerPort(PortName(ports[k].containerPort), ports[k].containerPort, GetProtocol(ports[k].protocol))
  }

  /** Variable `k` binds request key `k` to its value, with no value reference. */
  ghost predicate EnvTranslates(env: seq<Proto.PodEnv>, vars: seq<EnvVar>) {
    && |vars| == |env|
    && forall k :: 0 <= k < |env| ==> vars[k] == EnvVar(env[k].envKey, env[k].envValue, None)
  }

  /** `getContainerPort`: one container port per request port, in order. */
  method GetContainerPort(info: Proto.PodInfo) returns (containerPort: seq<ContainerPort>)
    ensures PortsTranslate(info.podPort, containerPort)
  {
    containerPort := [];
    for k := 0 to |info.podPort|
      invariant PortsTranslate(info.podPort[..k], containerPort)
    {
      var v := info.podPort[k];
      containerPort := containerPort + [ContainerPort(PortName(v.containerPort), v.containerPort, GetProtocol(v.protocol))];
    }
    assert info.podPort[..|info.podPort|] == info.podPort;
  }

  /** `getEnv`: one plain binding per request variable, in order. */
  method GetEnv(info: Proto.PodInfo) returns (envVar: seq<EnvVar>)
    ensures EnvTranslates(info.podEnv, envVar)
  {
    envVar := [];
    for k := 0 to |info.podEnv|
      invariant EnvTranslates(info.podEnv[..k], envVar)
    {
      var v := info.podEnv[k];
      envVar := envVar + [EnvVar(v.envKey, v.envValue, None)];
    }
    assert info.podEnv[..|info.podEnv|] == info.podEnv;
  }

  /** `getResources`: the requests are the limits, and both hold exactly cpu and memory,
      taken from the request's maxima. */
  function GetResources(info: Proto.PodInfo): (source: ResourceRequirements)
    ensures source.requests == source.limits
    ensures source.limits.Keys == {"cpu", "memory"}
    ensures source.limits["cpu"] == Quantity(info.podCpuMax)
    ensures source.limits["memory"] == Quantity(info.podMemoryMax)
  {
    var limits := map["cpu" := Quantity(info.podCpuMax), "memory" := Quantity(info.podMemoryMax)];
    var requests := map["cpu" := Quantity(info.podCpuMax), "memory" := Quantity(info.podMemoryMax)];
    ResourceRequirements(limits, requests)
  }

  /** What `SetDeployment` builds from a request, field by field. */
  ghost predicate Translates(info: Proto.PodInfo, d: Deployment) {
    && d.typeMeta == TypeMeta("deployment", "v1")
    && d.metadata == ObjectMeta(info.podName, info.podNamespace, map[AppLabel := info.podName, "author" := "Caplost"])
    && d.spec.replicas == info.podReplicas
    && d.spec.selector == LabelSelector(map[AppLabel := info.podName])
    && d.spec.template.metadata == ObjectMeta("", "", map[AppLabel := info.podName])
    && d.spec.minReadySeconds == 0
    && !d.spec.paused
    && |d.spec.template.containers| == 1
    && var c := d.spec.template.containers[0];
       && c.name == info.podName
       && c.image == info.podImage
       && PortsTranslate(info.podPort, c.ports)
       && EnvTranslates(info.podEnv, c.env)
       && c.resources == GetResources(info)
       && c.imagePullPolicy == GetImagePullPolicy(info)
  }

  /** The translation is deterministic: a request determines its deployment. */
  lemma TranslationIsUnique(info: Proto.PodInfo, d1: Deployment, d2: Deployment)
    requires Translates(info, d1) && Translates(info, d2)
    ensures d1 == d2
  {
    var c1, c2 := d1.spec.template.containers[0], d2.spec.template.containers[0];
    assert c1.ports == c2.ports;
    assert c1.env == c2.env;
    assert c1 == c2;
    assert d1.spec.template.containers == [c1];
    assert d2.spec.template.containers == [c2];
  }

  /** The selector matches the pod template, and the deployment, its metadata and its
      single container all carry the request's name. */
  lemma SelectorMatchesTemplate(info: Proto.PodInfo, d: Deployment)
    requires Translates(info, d)
    ensures forall l :: l in d.spec.selector.matchLabels ==>
      l in d.spec.template.metadata.labels && d.spec.template.metadata.labels[l] == d.spec.selector.matchLabels[l]
    ensures d.metadata.labels[AppLabel] == d.spec.selector.matchLabels[AppLabel] == info.podName
    ensures d.metadata.name == d.spec.template.containers[0].name == info.podName
    ensures d.metadata.namespace == info.podNamespace
  {
  }

  /** Within the single container, ports with distinct numbers have distinct names, and
      every name is derived from its own port's number. */
  lemma PortNamesDistinct(info: Proto.PodInfo, d: Deployment)
    requires Translates(info, d)
    ensures var ps := d.spec.template.containers[0].ports;
      && (forall k :: 0 <= k < |ps| ==> ps[k].name == PortName(ps[k].containerPort))
      && (forall j, k :: 0 <= j < |ps| && 0 <= k < |ps| && ps[j].containerPort != ps[k].containerPort ==>
            ps[j].name != ps[k].name)
  {
    var ps := d.spec.template.containers[0].ports;
    forall j, k | 0 <= j < |ps| && 0 <= k < |ps| && ps[j].containerPort != ps[k].containerPort
      ensures ps[j].name != ps[k].name
    {
      PortNameInjective(ps[j].containerPort, ps[k].containerPort);
    }
  }

  /** Port names are unique only per number: a request with 53/TCP and 53/UDP gets two
      container ports named "port-53", with different protocols. */
  lemma SameNumberSharesName(info: Proto.PodInfo, d: Deployment)
    requires Translates(info, d)
    requires info.podPort == [Proto.PodPort(53, "TCP"), Proto.PodPort(53, "UDP")]
    ensures var ps := d.spec.template.containers[0].ports;
      && |ps| == 2
      && ps[0].name == ps[1].name == "port-53"
      && ps[0].protocol == "TCP" && ps[1].protocol == "UDP"
  {
    var ps := d.spec.template.containers[0].ports;
    assert ps[0] == ContainerPort(PortName(53), 53, GetProtocol("TCP"));
    assert ps[1] == ContainerPort(PortName(53), 53, GetProtocol("UDP"));
    assert Decimal.FormatNat(53) == Decimal.FormatNat(5) + [Decimal.DigitChar(3)];
  }

  /** The resource requests of the container equal its limits. */
  lemma RequestsEqualLimits(info: Proto.PodInfo, d: Deployment)
    requires Translates(info, d)
    ensures var r := d.spec.template.containers[0].resources;
      r.requests == r.limits && r.limits.Keys == {"cpu", "memory"}
  {
  }
}
