/**
 * The broker's common service: it owns the dedicated-VM table and the
 * service-instance table and runs assignment, deprovisioning and the
 * instance-record operations against them.
 *
 * The remote directory and orchestrator are not called: each operation takes
 * the replies they give. Every store write and every remote request is
 * recorded in one ghost trace, in the order the broker makes them.
 */
module Broker {
  import opened Entities
  import opened VmRepository
  import opened Directory
  import opened Allocation

  class ApiGatewayCommonService {
    const deploymentName: string
    const serviceAdmin: string
    const scimPaths: ScimPaths

    /** The dedicated-VM table, in the order the store returns its rows. */
    var vms: seq<DedicatedVM>
    /** The service-instance table, keyed by service-instance id. */
    var instances: map<string, ServiceInstanceRow>

    /** The store writes and remote requests made so far, in order. */
    ghost var effects: seq<Effect>

    constructor (deploymentName: string, serviceAdmin: string, scimPaths: ScimPaths,
                 vms: seq<DedicatedVM>, instances: map<string, ServiceInstanceRow>)
      ensures this.deploymentName == deploymentName && this.serviceAdmin == serviceAdmin
      ensures this.scimPaths == scimPaths
      ensures this.vms == vms && this.instances == instances
      ensures effects == []
    {
      this.deploymentName := deploymentName;
      this.serviceAdmin := serviceAdmin;
      this.scimPaths := scimPaths;
      this.vms := vms;
      this.instances := instances;
      effects := [];
    }

    /** The stored instance with its dashboard URL, or nothing for an unknown id. */
    function GetServiceInstance(serviceInstanceId: string): (r: Option<ServiceInstance>)
      reads this
      ensures r.Some? <==> serviceInstanceId in instances
      ensures r.Some? ==> r.value.serviceInstanceId == serviceInstanceId
                          && ToRow(r.value) == instances[serviceInstanceId]
    {
      if serviceInstanceId in instances then
        Some(ToServiceInstance(serviceInstanceId, instances[serviceInstanceId]))
      else
        None
    }

    /**
     * Some stored instance of the organization, without its dashboard URL,
     * or nothing when the organization has none.
     */
    method FindByOrgGuid(orgGuid: string) returns (r: Option<ServiceInstance>)
      ensures r.None? <==> forall id :: id in instances ==> instances[id].organizationGuid != orgGuid
      ensures r.Some? ==>
        && r.value.serviceInstanceId in instances
        && r.value.organizationGuid == orgGuid
        && r.value.dashboardUrl.None?
        && ToRow(r.value) == instances[r.value.serviceInstanceId].(dashboardUrl := None)
    {
      if id :| id in instances && instances[id].organizationGuid == orgGuid {
        r := Some(ToServiceInstance(id, instances[id].(dashboardUrl := None)));
      } else {
        r := None;
      }
    }

    /** Records a new instance; reading it back gives the same instance. */
    method CreateServiceInstance(serviceInstance: ServiceInstance)
      modifies this
      ensures instances == old(instances)[serviceInstance.serviceInstanceId := ToRow(serviceInstance)]
      ensures GetServiceInstance(serviceInstance.serviceInstanceId) == Some(serviceInstance)
      ensures vms == old(vms)
      ensures effects == old(effects) + [SaveInstance(serviceInstance.serviceInstanceId, ToRow(serviceInstance))]
    {
      instances := instances[serviceInstance.serviceInstanceId := ToRow(serviceInstance)];
      effects := effects + [SaveInstance(serviceInstance.serviceInstanceId, ToRow(serviceInstance))];
    }

    /**
     * The directory steps of an assignment on the VM at `ip`: the admin-group
     * search, the user creation and the grant, each run only when the one
     * before succeeded. Their requests are traced in order; the first failure
     * is returned.
     */
    method CallDirectory(ip: string, password: Option<string>, replies: DirectoryReplies)
      returns (failure: Option<Failure>)
      modifies this
      ensures var provision := ProvisionServiceAdmin(scimPaths, serviceAdmin, ip, password, replies);
        && effects == old(effects) + DirectoryEffects(provision.sent)
        && (failure.Some? <==> provision.result.Err?)
        && (failure.Some? ==> failure.value == provision.result.error)
      ensures vms == old(vms) && instances == old(instances)
    {
      failure := None;
      var groups := GetGroups(scimPaths, ip, replies.groupSearch);
      effects := effects + DirectoryEffects(groups.sent);
      if groups.result.Err? {
        failure := Some(groups.result.error);
        return;
      }
      var user := CreateUser(scimPaths, serviceAdmin, ip, password, replies.userCreate);
      effects := effects + DirectoryEffects(user.sent);
      DirectoryEffectsAppend(groups.sent, user.sent);
      if user.result.Err? {
        failure := Some(user.result.error);
        return;
      }
      var grant := RegAdmin(scimPaths, serviceAdmin, ip, groups.result.value, user.result.value,
                            replies.groupPatch, replies.userDelete);
      effects := effects + DirectoryEffects(grant.sent);
      DirectoryEffectsAppend(groups.sent + user.sent, grant.sent);
      if grant.result.Err? {
        failure := Some(grant.result.error);
      }
    }

    /**
     * Assigns a waiting VM to the instance and returns its dashboard URL.
     * The reservation is saved before the directory is called; when a
     * directory step fails the VM is put back and the error is returned.
     */
    method ServiceAssignment(serviceInstanceId: string, password: Option<string>, replies: DirectoryReplies)
      returns (r: Result<string>)
      modifies this
      ensures var run := Assign(old(vms), serviceInstanceId, password, scimPaths, serviceAdmin, replies);
        && vms == run.rows
        && effects == old(effects) + AssignEffects(old(vms), serviceInstanceId, password, scimPaths, serviceAdmin, replies)
        && r == run.result
      ensures old(PoolInvariant(vms)) ==> PoolInvariant(vms)
      ensures r.Err? && old(PoolInvariant(vms)) ==> vms == old(vms)
      ensures instances == old(instances)
    {
      ghost var before := vms;
      ghost var start := effects;
      var found := FindFirstByAssignment(vms, WaitingForAssignment);
      if found.None? {
        r := Err(NoAvailableVM);
        return;
      }
      var i := found.value;
      var vm := Reserve(vms[i], serviceInstanceId);
      vms := vms[i := vm];
      effects := effects + [SaveVm(i, vm)];

      var failure := CallDirectory(vm.ip, password, replies);
      if failure.Some? {
        vm := Release(vm);
        vms := vms[i := vm];
        effects := effects + [SaveVm(i, vm)];
        r := Err(failure.value);
      } else {
        r := Ok(vm.dashboardUrl);
      }
    }

    /** Moves the VM of the instance to waiting-for-recreate and returns it. */
    method DeprovisionVM(serviceInstanceId: string) returns (r: Result<DedicatedVM>)
      modifies this
      ensures var run := Allocation.DeprovisionVM(old(vms), serviceInstanceId);
        vms == run.rows && r == run.result
      ensures instances == old(instances)
      ensures effects == old(effects) + ReleaseEffects(old(vms), serviceInstanceId)
    {
      var found := FindFirstByInstance(vms, serviceInstanceId);
      if found.None? {
        r := Err(NoProvisionedVM);
        return;
      }
      var i := found.value;
      var vm := MarkForRecreate(vms[i]);
      vms := vms[i := vm];
      effects := effects + [SaveVm(i, vm)];
      r := Ok(vm);
    }

    /**
     * Drops the instance record, releases its VM and asks the orchestrator to
     * recreate that VM; a refusal or exception of the orchestrator is reported
     * as a failure and nothing is undone.
     */
    method ProcDeProvisioning(serviceInstanceId: string, reply: OrchestratorReply) returns (r: Result<()>)
      modifies this
      ensures var run := Deprovision(old(vms), old(instances), serviceInstanceId, deploymentName, reply);
        && vms == run.rows
        && instances == run.instances
        && effects == old(effects) + DeprovisionEffects(old(vms), serviceInstanceId, deploymentName)
        && r == run.result
      ensures serviceInstanceId !in instances
    {
      instances := instances - {serviceInstanceId};
      effects := effects + [DeleteInstance(serviceInstanceId)];
      var released := DeprovisionVM(serviceInstanceId);
      if released.Err? {
        r := Err(released.error);
        return;
      }
      var vm := released.value;
      effects := effects + [OrchestratorCall(UpdateInstanceState(deploymentName, vm.vmName, vm.vmId, Recreate))];
      match reply
      case Returned(accepted) =>
        r := if accepted then Ok(()) else Err(RecreateFailed);
      case Raised =>
        r := Err(RecreateFailed);
    }
  }
}
