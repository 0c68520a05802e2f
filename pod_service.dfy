/** The reconciliation service (`PodService`): it keeps the last translated deployment,
    talks to the orchestrator through the cluster gateway and to the store through the
    repository, and decides the order of those calls for create, update and delete. */
module PodService {

  import opened Wrappers
  import opened K8sApi
  import opened Remote
  import opened PodModel
  import opened PodTranslator
  import Proto
  import C = Cluster
  import R = PodRepository

  class PodService {
    const repo: R.PodRepository
    const cluster: C.Cluster
    const env: Env
    /** The deployment built by the last `SetDeployment`. */
    var deployment: Deployment

    /** Both collaborators log to the same environment, and the store is consistent. */
    ghost predicate Valid()
      reads repo
    {
      && repo.env == env
      && cluster.env == env
      && repo.Valid()
    }

    /** `NewPodService`. */
    constructor (repo: R.PodRepository, cluster: C.Cluster)
      requires repo.env == cluster.env && repo.Valid()
      ensures Valid()
      ensures this.repo == repo && this.cluster == cluster && deployment == EmptyDeployment
    {
      this.repo := repo;
      this.cluster := cluster;
      this.env := repo.env;
      deployment := EmptyDeployment;
    }

    /** `AddPod`: the store's create. */
    method AddPod(pod: Pod) returns (err: Option<Error>)
      requires Valid()
      modifies repo, env
      ensures Valid()
      ensures env.calls == old(env.calls) + [DbCreate(pod)]
      ensures err == env.fault(DbCreate(pod))
      ensures err.Some? ==> unchanged(repo)
      ensures err.None? ==>
        && repo.pods == old(repo.pods)[old(repo.nextID) := pod.(id := old(repo.nextID))]
        && repo.nextID == old(repo.nextID) + 1
        && repo.podEnvs == old(repo.podEnvs) && repo.podPorts == old(repo.podPorts) && repo.tx == old(repo.tx)
    {
      err := repo.CreatePod(pod);
    }

    /** `DeletePod`: the store's transactional delete. */
    method DeletePod(i: int) returns (err: Option<Error>)
      requires Valid()
      modifies repo, env
      ensures Valid()
      ensures var o := R.DeleteSpec(old(repo.State()), old(repo.tx), i, env.fault);
        env.calls == old(env.calls) + o.trace && err == o.err && repo.State() == o.tables && repo.tx == o.tx
      ensures repo.nextID == old(repo.nextID)
    {
      err := repo.DeletePodByID(i);
    }

    /** `UpdatePod`: the store's update. */
    method UpdatePod(pod: Pod) returns (err: Option<Error>)
      requires Valid()
      modifies repo, env
      ensures Valid()
      ensures env.calls == old(env.calls) + [DbUpdate(pod)]
      ensures err == env.fault(DbUpdate(pod))
      ensures err.Some? ==> unchanged(repo)
      ensures err.None? ==>
        && repo.pods == (if pod.id in old(repo.pods) then old(repo.pods)[pod.id := pod] else old(repo.pods))
        && repo.nextID == old(repo.nextID) && repo.podEnvs == old(repo.podEnvs)
        && repo.podPorts == old(repo.podPorts) && repo.tx == old(repo.tx)
    {
      err := repo.UpdatePod(pod);
    }

    /** `FindPodByID`: the store's lookup. */
    method FindPodByID(i: int) returns (r: Result<Pod, Error>)
      requires Valid()
      modifies env
      ensures env.calls == old(env.calls) + [DbFind(i)]
      ensures r == R.FindResult(repo.pods, i, env.fault)
      ensures r.Ok? ==> r.value.id == i
    {
      r := repo.FindPodByID(i);
    }

    /** `FindAllPod`: the store's listing. */
    method FindAllPod() returns (r: Result<seq<Pod>, Error>)
      requires Valid()
      modifies env
      ensures env.calls == old(env.calls) + [DbFindAll]
      ensures env.fault(DbFindAll).Some? ==> r == Err(env.fault(DbFindAll).value)
      ensures env.fault(DbFindAll).None? ==> r.Ok? && R.IsListing(r.value, repo.pods)
    {
      r := repo.FindAll();
    }

    /** `SetDeployment`: translates the request and keeps the result in `deployment`. */
    method SetDeployment(info: Proto.PodInfo)
      modifies this`deployment
      ensures Translates(info, deployment)
    {
      var ports := GetContainerPort(info);
      var envVars := GetEnv(info);
      var container := Container(info.podName, info.podImage, ports, envVars, GetResources(info), GetImagePullPolicy(info));
      deployment := Deployment(
        TypeMeta("deployment", "v1"),
        ObjectMeta(info.podName, info.podNamespace, map[AppLabel := info.podName, "author" := "Caplost"]),
        DeploymentSpec(
          info.podReplicas,
          LabelSelector(map[AppLabel := info.podName]),
          PodTemplateSpec(ObjectMeta("", "", map[AppLabel := info.podName]), [container]),
          0,
          false));
    }

    /** `CreateToK8s`: translate, then create only if the Get found no deployment. The
        store is not touched. */
    method CreateToK8s(info: Proto.PodInfo) returns (err: Option<Error>)
      requires Valid()
      modifies this`deployment, cluster, env
      ensures Valid()
      ensures Translates(info, deployment)
      ensures var get := K8sGet(info.podNamespace, info.podName);
        if env.fault(get).None? && C.Key(info.podNamespace, info.podName) in old(cluster.deployments) then
          && err == Some(PodAlreadyExists(info.podName))
          && env.calls == old(env.calls) + [get]
          && unchanged(cluster)
        else
          && env.calls == old(env.calls) + [get, K8sCreate(info.podNamespace, deployment)]
          && err == C.CreateError(old(cluster.deployments), info.podNamespace, deployment, env.fault)
          && cluster.deployments == C.Created(old(cluster.deployments), info.podNamespace, deployment, env.fault)
    {
      SetDeployment(info);
      var got := cluster.Get(info.podNamespace, info.podName);
      if got.Err? {
        err := cluster.Create(info.podNamespace, deployment);
        return;
      }
      err := Some(PodAlreadyExists(info.podName));
    }

    /** `DeleteFromK8s`: delete the deployment, and only if that succeeded delete the
        pod's rows from the store. */
    method DeleteFromK8s(pod: Pod) returns (err: Option<Error>)
      requires Valid()
      modifies cluster, repo, env
      ensures Valid()
      ensures cluster.deployments == C.Deleted(old(cluster.deployments), pod.podNamespace, pod.podName, env.fault)
      ensures var del := K8sDelete(pod.podNamespace, pod.podName);
        var orchestratorErr := C.DeleteError(old(cluster.deployments), pod.podNamespace, pod.podName, env.fault);
        if orchestratorErr.Some? then
          && err == orchestratorErr
          && env.calls == old(env.calls) + [del]
          && unchanged(repo)
        else
          && (var o := R.DeleteSpec(old(repo.State()), old(repo.tx), pod.id, env.fault);
             env.calls == old(env.calls) + [del] + o.trace && err == o.err && repo.State() == o.tables && repo.tx == o.tx)
          && repo.nextID == old(repo.nextID)
    {
      err := cluster.Delete(pod.podNamespace, pod.podName);
      if err.Some? {
        return;
      }
      err := repo.DeletePodByID(pod.id);
    }

    /** `UpdateToK8s`: translate, then update only if the Get found the deployment. The
        store is not touched. */
    method UpdateToK8s(info: Proto.PodInfo) returns (err: Option<Error>)
      requires Valid()
      modifies this`deployment, cluster, env
      ensures Valid()
      ensures Translates(info, deployment)
      ensures var get := K8sGet(info.podNamespace, info.podName);
        if env.fault(get).Some? || C.Key(info.podNamespace, info.podName) !in old(cluster.deployments) then
          && err == Some(PodDoesNotExist(info.podName))
          && env.calls == old(env.calls) + [get]
          && unchanged(cluster)
        else
          && env.calls == old(env.calls) + [get, K8sUpdate(info.podNamespace, deployment)]
          && err == C.UpdateError(old(cluster.deployments), info.podNamespace, deployment, env.fault)
          && cluster.deployments == C.Updated(old(cluster.deployments), info.podNamespace, deployment, env.fault)
    {
      SetDeployment(info);
      var got := cluster.Get(info.podNamespace, info.podName);
      if got.Err? {
        return Some(PodDoesNotExist(info.podName));
      }
      err := cluster.Update(info.podNamespace, deployment);
    }
  }
}
