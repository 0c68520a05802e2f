/** The orchestrator gateway: `Deployments(namespace).Get/Create/Update/Delete` of the
    cluster client, over a map from (namespace, name) to the deployment stored there.
    A call fails with the oracle's fault when it has one; otherwise Get, Update and
    Delete fail on a missing deployment and Create fails on an existing one. */
module Cluster {

  import opened Wrappers
  import opened K8sApi
  import opened Remote

  datatype Key = Key(namespace: string, name: string)

  type Deployments = map<Key, Deployment>

  function KeyOf(namespace: string, d: Deployment): (k: Key) {
    Key(namespace, d.metadata.name)
  }

  function GetResult(deps: Deployments, namespace: string, name: string, fault: Call -> Option<Error>): (r: Result<Deployment, Error>) {
    match fault(K8sGet(namespace, name))
    case Some(e) => Err(e)
    case None =>
      if Key(namespace, name) in deps then Ok(deps[Key(namespace, name)])
      else Err(DeploymentNotFound(namespace, name))
  }

  function CreateError(deps: Deployments, namespace: string, d: Deployment, fault: Call -> Option<Error>): (err: Option<Error>) {
    if fault(K8sCreate(namespace, d)).Some? then fault(K8sCreate(namespace, d))
    else if KeyOf(namespace, d) in deps then Some(DeploymentAlreadyExists(namespace, d.metadata.name))
    else None
  }

  function Created(deps: Deployments, namespace: string, d: Deployment, fault: Call -> Option<Error>): (deps': Deployments) {
    if CreateError(deps, namespace, d, fault).None? then deps[KeyOf(namespace, d) := d] else deps
  }

  function UpdateError(deps: Deployments, namespace: string, d: Deployment, fault: Call -> Option<Error>): (err: Option<Error>) {
    if fault(K8sUpdate(namespace, d)).Some? then fault(K8sUpdate(namespace, d))
    else if KeyOf(namespace, d) !in deps then Some(DeploymentNotFound(namespace, d.metadata.name))
    else None
  }

  function Updated(deps: Deployments, namespace: string, d: Deployment, fault: Call -> Option<Error>): (deps': Deployments) {
    if UpdateError(deps, namespace, d, fault).None? then deps[KeyOf(namespace, d) := d] else deps
  }

  function DeleteError(deps: Deployments, namespace: string, name: string, fault: Call -> Option<Error>): (err: Option<Error>) {
    if fault(K8sDelete(namespace, name)).Some? then fault(K8sDelete(namespace, name))
    else if Key(namespace, name) !in deps then Some(DeploymentNotFound(namespace, name))
    else None
  }

  function Deleted(deps: Deployments, namespace: string, name: string, fault: Call -> Option<Error>): (deps': Deployments) {
    if DeleteError(deps, namespace, name, fault).None? then deps - {Key(namespace, name)} else deps
  }

  /** Create never replaces a deployment that is already there, and a successful create
      stores exactly the deployment it was given; no other key changes. */
  lemma CreateNeverOverwrites(deps: Deployments, namespace: string, d: Deployment, fault: Call -> Option<Error>)
    ensures KeyOf(namespace, d) in deps ==>
      CreateError(deps, namespace, d, fault).Some? && Created(deps, namespace, d, fault) == deps
    ensures CreateError(deps, namespace, d, fault).None? <==>
      fault(K8sCreate(namespace, d)).None? && KeyOf(namespace, d) !in deps
    ensures CreateError(deps, namespace, d, fault).None? ==>
      Created(deps, namespace, d, fault)[KeyOf(namespace, d)] == d
    ensures Created(deps, namespace, d, fault) - {KeyOf(namespace, d)} == deps - {KeyOf(namespace, d)}
  {
  }

  /** Update never brings a deployment into existence; no other key changes. */
  lemma UpdateNeverCreates(deps: Deployments, namespace: string, d: Deployment, fault: Call -> Option<Error>)
    ensures KeyOf(namespace, d) !in deps ==>
      UpdateError(deps, namespace, d, fault).Some? && Updated(deps, namespace, d, fault) == deps
    ensures Updated(deps, namespace, d, fault).Keys == deps.Keys
    ensures Updated(deps, namespace, d, fault) - {KeyOf(namespace, d)} == deps - {KeyOf(namespace, d)}
  {
  }

  /** Delete removes at most its own key. */
  lemma DeleteOnlyOwnKey(deps: Deployments, namespace: string, name: string, fault: Call -> Option<Error>)
    ensures DeleteError(deps, namespace, name, fault).None? ==>
      Key(namespace, name) in deps && Key(namespace, name) !in Deleted(deps, namespace, name, fault)
    ensures DeleteError(deps, namespace, name, fault).Some? ==> Deleted(deps, namespace, name, fault) == deps
    ensures Deleted(deps, namespace, name, fault) - {Key(namespace, name)} == deps - {Key(namespace, name)}
  {
  }

  /** The cluster client with the deployments the orchestrator holds. */
  class Cluster {
    var deployments: Deployments
    const env: Env

    constructor (env: Env, deployments: Deployments)
      ensures this.env == env && this.deployments == deployments
    {
      this.env := env;
      this.deployments := deployments;
    }

    method Get(namespace: string, name: string) returns (r: Result<Deployment, Error>)
      modifies env
      ensures env.calls == old(env.calls) + [K8sGet(namespace, name)]
      ensures r == GetResult(deployments, namespace, name, env.fault)
    {
      var fault := env.Issue(K8sGet(namespace, name));
      if fault.Some? {
        return Err(fault.value);
      }
      if Key(namespace, name) in deployments {
        r := Ok(deployments[Key(namespace, name)]);
      } else {
        r := Err(DeploymentNotFound(namespace, name));
      }
    }

    method Create(namespace: string, d: Deployment) returns (err: Option<Error>)
      modifies this, env
      ensures env.calls == old(env.calls) + [K8sCreate(namespace, d)]
      ensures err == CreateError(old(deployments), namespace, d, env.fault)
      ensures deployments == Created(old(deployments), namespace, d, env.fault)
    {
      err := env.Issue(K8sCreate(namespace, d));
      if err.Some? {
        return;
      }
      if KeyOf(namespace, d) in deployments {
        return Some(DeploymentAlreadyExists(namespace, d.metadata.name));
      }
      deployments := deployments[KeyOf(namespace, d) := d];
    }

    method Update(namespace: string, d: Deployment) returns (err: Option<Error>)
      modifies this, env
      ensures env.calls == old(env.calls) + [K8sUpdate(namespace, d)]
      ensures err == UpdateError(old(deployments), namespace, d, env.fault)
      ensures deployments == Updated(old(deployments), namespace, d, env.fault)
    {
      err := env.Issue(K8sUpdate(namespace, d));
      if err.Some? {
        return;
      }
      if KeyOf(namespace, d) !in deployments {
        return Some(DeploymentNotFound(namespace, d.metadata.name));
      }
      deployments := deployments[KeyOf(namespace, d) := d];
    }

    method Delete(namespace: string, name: string) returns (err: Option<Error>)
      modifies this, env
      ensures env.calls == old(env.calls) + [K8sDelete(namespace, name)]
      ensures err == DeleteError(old(deployments), namespace, name, env.fault)
      ensures deployments == Deleted(old(deployments), namespace, name, env.fault)
    {
      err := env.Issue(K8sDelete(namespace, name));
      if err.Some? {
        return;
      }
      if Key(namespace, name) !in deployments {
        return Some(DeploymentNotFound(namespace, name));
      }
      deployments := deployments - {Key(namespace, name)};
    }
  }
}
