/** The request handler (`PodHandler`): converts requests to store records with an
    abstract, possibly failing conversion (`common.SwapTo`) and orders the service's
    orchestrator and store steps, returning at the first error. */
module PodHandler {

  import opened Wrappers
  import opened Remote
  import opened PodModel
  import opened PodTranslator
  import Proto
  import C = Cluster
  import R = PodRepository
  import S = PodService

  /** `common.SwapTo(src, dst)`, a field-by-name copy that can fail: `onto(info, pod)`
      writes a request over a record, `toInfo(pod, info)` a record over a message. */
  datatype Converter = Converter(
    onto: (Proto.PodInfo, Pod) -> Result<Pod, Error>,
    toInfo: (Pod, Proto.PodInfo) -> Result<Proto.PodInfo, Error>)

  /** `infos` is `all` converted element by element in order, or the error of the first
      element whose conversion fails. */
  ghost predicate ConvertsInOrder(swap: Converter, all: seq<Pod>, r: Result<seq<Proto.PodInfo>, Error>) {
    match r
    case Ok(infos) =>
      && |infos| == |all|
      && forall k :: 0 <= k < |all| ==> swap.toInfo(all[k], Proto.EmptyPodInfo) == Ok(infos[k])
    case Err(e) =>
      exists n :: 0 <= n < |all| &&
        (forall k :: 0 <= k < n ==> swap.toInfo(all[k], Proto.EmptyPodInfo).Ok?) &&
        swap.toInfo(all[n], Proto.EmptyPodInfo) == Err(e)
  }

  class PodHandler {
    const service: S.PodService
    const swap: Converter
    const env: Env

    ghost predicate Valid()
      reads service.repo
    {
      service.Valid() && service.env == env
    }

    constructor (service: S.PodService, swap: Converter)
      requires service.Valid()
      ensures Valid() && this.service == service && this.swap == swap
    {
      this.service := service;
      this.swap := swap;
      this.env := service.env;
    }

    /** `AddPod`: convert the request; create the deployment; only if that succeeded,
        create the store record. A failing store create leaves the deployment in place. */
    method AddPod(info: Proto.PodInfo) returns (err: Option<Error>)
      requires Valid()
      modifies service, service.cluster, service.repo, env
      ensures Valid()
      ensures var conv := swap.onto(info, EmptyPod);
        var ns, name := info.podNamespace, info.podName;
        var get := K8sGet(ns, name);
        var d := service.deployment;
        if conv.Err? then
          && err == Some(conv.error)
          && env.calls == old(env.calls)
          && unchanged(service) && unchanged(service.cluster) && unchanged(service.repo)
        else if env.fault(get).None? && C.Key(ns, name) in old(service.cluster.deployments) then
          && err == Some(PodAlreadyExists(name))
          && env.calls == old(env.calls) + [get]
          && unchanged(service.cluster) && unchanged(service.repo)
        else
          && Translates(info, d)
          && service.cluster.deployments == C.Created(old(service.cluster.deployments), ns, d, env.fault)
          && var createErr := C.CreateError(old(service.cluster.deployments), ns, d, env.fault);
             if createErr.Some? then
               && err == createErr
               && env.calls == old(env.calls) + [get, K8sCreate(ns, d)]
               && unchanged(service.repo)
             else
               && env.calls == old(env.calls) + [get, K8sCreate(ns, d), DbCreate(conv.value)]
               && C.Key(ns, name) in service.cluster.deployments
               && err == env.fault(DbCreate(conv.value))
               && (err.Some? ==> unchanged(service.repo))
               && (err.None? ==>
                     && service.repo.pods == old(service.repo.pods)[old(service.repo.nextID) := conv.value.(id := old(service.repo.nextID))]
                     && service.repo.nextID == old(service.repo.nextID) + 1
                     && service.repo.podEnvs == old(service.repo.podEnvs)
                     && service.repo.podPorts == old(service.repo.podPorts)
                     && service.repo.tx == old(service.repo.tx))
    {
      var conv := swap.onto(info, EmptyPod);
      if conv.Err? {
        return Some(conv.error);
      }
      err := service.CreateToK8s(info);
      if err.Some? {
        return;
      }
      err := service.AddPod(conv.value);
    }

    /** `DeletePod`: look the record up by id; only if found, delete the deployment and
        then the record. */
    method DeletePod(id: int) returns (err: Option<Error>)
      requires Valid()
      modifies service.cluster, service.repo, env
      ensures Valid()
      ensures var found := R.FindResult(old(service.repo.pods), id, env.fault);
        if found.Err? then
          && err == Some(found.error)
          && env.calls == old(env.calls) + [DbFind(id)]
          && unchanged(service.cluster) && unchanged(service.repo)
        else
          var pod := found.value;
          var del := K8sDelete(pod.podNamespace, pod.podName);
          var orchestratorErr := C.DeleteError(old(service.cluster.deployments), pod.podNamespace, pod.podName, env.fault);
          && pod.id == id
          && service.cluster.deployments == C.Deleted(old(service.cluster.deployments), pod.podNamespace, pod.podName, env.fault)
          && if orchestratorErr.Some? then
               && err == orchestratorErr
               && env.calls == old(env.calls) + [DbFind(id), del]
               && unchanged(service.repo)
             else
               && var o := R.DeleteSpec(old(service.repo.State()), old(service.repo.tx), id, env.fault);
                  && env.calls == old(env.calls) + [DbFind(id), del] + o.trace
                  && err == o.err
                  && service.repo.State() == o.tables && service.repo.tx == o.tx
                  && service.repo.nextID == old(service.repo.nextID)
    {
      var found := service.FindPodByID(id);
      if found.Err? {
        return Some(found.error);
      }
      err := service.DeleteFromK8s(found.value);
    }

    /** `UpdatePod`: update the deployment first; only if that succeeded, read the record
        by `info.id`, write the request over it and store it. The store's own error is
        discarded. */
    method UpdatePod(info: Proto.PodInfo) returns (err: Option<Error>)
      requires Valid()
      modifies service, service.cluster, service.repo, env
      ensures Valid()
      ensures Translates(info, service.deployment)
      ensures var ns, name := info.podNamespace, info.podName;
        var get := K8sGet(ns, name);
        var d := service.deployment;
        if env.fault(get).Some? || C.Key(ns, name) !in old(service.cluster.deployments) then
          && err == Some(PodDoesNotExist(name))
          && env.calls == old(env.calls) + [get]
          && unchanged(service.cluster) && unchanged(service.repo)
        else
          && service.cluster.deployments == C.Updated(old(service.cluster.deployments), ns, d, env.fault)
          && var updateErr := C.UpdateError(old(service.cluster.deployments), ns, d, env.fault);
             var calls0 := old(env.calls) + [get, K8sUpdate(ns, d)];
             if updateErr.Some? then
               err == updateErr && env.calls == calls0 && unchanged(service.repo)
             else
               var found := R.FindResult(old(service.repo.pods), info.id, env.fault);
               if found.Err? then
                 err == Some(found.error) && env.calls == calls0 + [DbFind(info.id)] && unchanged(service.repo)
               else
                 var merged := swap.onto(info, found.value);
                 if merged.Err? then
                   err == Some(merged.error) && env.calls == calls0 + [DbFind(info.id)] && unchanged(service.repo)
                 else
                   && err == None
                   && env.calls == calls0 + [DbFind(info.id), DbUpdate(merged.value)]
                   && (env.fault(DbUpdate(merged.value)).Some? ==> unchanged(service.repo))
                   && (env.fault(DbUpdate(merged.value)).None? ==>
                         && service.repo.pods ==
                              (if merged.value.id in old(service.repo.pods) then old(service.repo.pods)[merged.value.id := merged.value]
                               else old(service.repo.pods))
                         && service.repo.nextID == old(service.repo.nextID)
                         && service.repo.podEnvs == old(service.repo.podEnvs)
                         && service.repo.podPorts == old(service.repo.podPorts)
                         && service.repo.tx == old(service.repo.tx))
    {
      err := service.UpdateToK8s(info);
      if err.Some? {
        return;
      }
      var found := service.FindPodByID(info.id);
      if found.Err? {
        return Some(found.error);
      }
      var merged := swap.onto(info, found.value);
      if merged.Err? {
        return Some(merged.error);
      }
      var ignored := service.UpdatePod(merged.value);
      err := None;
    }

    /** `FindAllPod`: list the store, then convert every record in order. */
    method FindAllPod() returns (r: Result<seq<Proto.PodInfo>, Error>, ghost listed: seq<Pod>)
      requires Valid()
      modifies env
      ensures env.calls == old(env.calls) + [DbFindAll]
      ensures env.fault(DbFindAll).Some? ==> r == Err(env.fault(DbFindAll).value)
      ensures env.fault(DbFindAll).None? ==>
        R.IsListing(listed, service.repo.pods) && ConvertsInOrder(swap, listed, r)
    {
      var all := service.FindAllPod();
      if all.Err? {
        return Err(all.error), [];
      }
      listed := all.value;
      r := ConvertAll(all.value);
    }

    /** The conversion loop of `FindAllPod`: stops at the first failing conversion. */
    method ConvertAll(all: seq<Pod>) returns (r: Result<seq<Proto.PodInfo>, Error>)
      ensures ConvertsInOrder(swap, all, r)
    {
      var infos: seq<Proto.PodInfo> := [];
      for k := 0 to |all|
        invariant |infos| == k
        invariant forall j :: 0 <= j < k ==> swap.toInfo(all[j], Proto.EmptyPodInfo) == Ok(infos[j])
      {
        var podInfo := swap.toInfo(all[k], Proto.EmptyPodInfo);
        if podInfo.Err? {
          return Err(podInfo.error);
        }
        infos := infos + [podInfo.value];
      }
      r := Ok(infos);
    }
  }
}
