/**
 * The values the dedicated-VM broker keeps in its two stores: pooled VM rows,
 * service-instance rows, the broker-facing service instance, and the errors
 * its operations raise.
 */
module Entities {

  datatype Option<+T> = None | Some(value: T)

  /** The failures the broker raises (each is a ServiceException in the source). */
  datatype Failure =
    | NoAvailableVM      // no pooled VM waits for assignment
    | NoProvisionedVM    // no pooled VM is provisioned for the instance
    | GroupLookupFailed  // the admin-group search failed or found nothing
    | UserCreateFailed   // the service-admin user could not be created
    | GroupGrantFailed   // the user could not be added to the admin group
    | UserDeleteFailed   // the clean-up deletion of that user failed
    | RecreateFailed     // the orchestrator did not recreate the VM

  datatype Result<+T> = Ok(value: T) | Err(error: Failure)

  /** The assignment status of a pooled VM. */
  datatype Assignment = WaitingForAssignment | Assigned | WaitingForRecreate

  /**
   * One row of the dedicated-VM table. `provisionedTime` is an opaque
   * timestamp; the broker only ever clears it.
   */
  datatype DedicatedVM = DedicatedVM(
    ip: string,
    vmName: string,
    vmId: string,
    dashboardUrl: string,
    assignment: Assignment,
    provisionedServiceInstanceId: Option<string>,
    provisionedTime: Option<int>)

  /** The pool's consistency rule: a VM carries an instance id exactly when it is assigned. */
  predicate Consistent(vm: DedicatedVM) {
    vm.provisionedServiceInstanceId.Some? <==> vm.assignment == Assigned
  }

  /** Two rows describe the same machine: the fields the broker never writes agree. */
  predicate SameMachine(a: DedicatedVM, b: DedicatedVM) {
    && a.ip == b.ip
    && a.vmName == b.vmName
    && a.vmId == b.vmId
    && a.dashboardUrl == b.dashboardUrl
  }

  /** The reservation step of an assignment: status and instance id are set together. */
  function Reserve(vm: DedicatedVM, serviceInstanceId: string): (r: DedicatedVM)
    ensures Consistent(r) && SameMachine(vm, r)
    ensures r.assignment == Assigned && r.provisionedServiceInstanceId == Some(serviceInstanceId)
    ensures r.provisionedTime == vm.provisionedTime
  {
    vm.(assignment := Assigned, provisionedServiceInstanceId := Some(serviceInstanceId))
  }

  /** The compensation of a failed assignment: back to waiting, with no instance id. */
  function Release(vm: DedicatedVM): (r: DedicatedVM)
    ensures Consistent(r) && SameMachine(vm, r)
    ensures r.assignment == WaitingForAssignment && r.provisionedTime == vm.provisionedTime
    ensures vm.assignment == WaitingForAssignment && Consistent(vm) ==> r == vm
  {
    vm.(assignment := WaitingForAssignment, provisionedServiceInstanceId := None)
  }

  /** The deprovisioning step: the VM waits to be recreated, with no instance and no time. */
  function MarkForRecreate(vm: DedicatedVM): (r: DedicatedVM)
    ensures Consistent(r) && SameMachine(vm, r)
    ensures r.assignment == WaitingForRecreate
    ensures r.provisionedServiceInstanceId.None? && r.provisionedTime.None?
  {
    vm.(assignment := WaitingForRecreate, provisionedServiceInstanceId := None, provisionedTime := None)
  }

  /** What the broker protocol calls a service instance. */
  datatype ServiceInstance = ServiceInstance(
    serviceInstanceId: string,
    serviceDefinitionId: string,
    planId: string,
    organizationGuid: string,
    spaceGuid: string,
    dashboardUrl: Option<string>)

  /** One row of the service-instance table; its key is the service-instance id. */
  datatype ServiceInstanceRow = ServiceInstanceRow(
    serviceId: string,
    planId: string,
    organizationGuid: string,
    spaceGuid: string,
    dashboardUrl: Option<string>)

  /** The broker-protocol view of a stored row, dashboard URL included. */
  function ToServiceInstance(id: string, row: ServiceInstanceRow): ServiceInstance {
    ServiceInstance(id, row.serviceId, row.planId, row.organizationGuid, row.spaceGuid, row.dashboardUrl)
  }

  /** The row that records a service instance: every field but the id, which is the key. */
  function ToRow(si: ServiceInstance): (r: ServiceInstanceRow)
    ensures ToServiceInstance(si.serviceInstanceId, r) == si
  {
    ServiceInstanceRow(si.serviceDefinitionId, si.planId, si.organizationGuid, si.spaceGuid, si.dashboardUrl)
  }
}
