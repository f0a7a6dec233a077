# Dedicated-VM pool allocation of the API-gateway service broker

This project models the allocation core of the API-gateway service broker. The
broker hands out dedicated VMs from a pre-provisioned pool to service instances.
On each VM it creates an administrative user through the VM's SCIM directory.
When an instance is deleted, it sends the VM back to the BOSH director to be
recreated.

The core is the class `ApiGatewayCommonService`. It holds two tables:

- the dedicated-VM table. Each row has an ip, a VM name and id, a dashboard URL,
  an assignment status, the id of the service instance it serves and a
  provisioned time;
- the service-instance table, keyed by service-instance id.

Files:

- `entities.dfy` (module `Entities`): the rows, the broker-protocol service
  instance, the failures, and the three row transitions. `Reserve` is the
  assignment, `Release` the compensation and `MarkForRecreate` the
  deprovisioning. Each transition sets the status and the instance id together.
- `vm_repository.dfy` (module `VmRepository`): the two derived queries of the
  VM repository and the pool's invariants. The table is a sequence of rows in
  the order the store returns them, so "first" means the least index.
- `directory.dfy` (module `Directory`): the SCIM client. It covers the
  admin-group search, user creation, the group grant with its clean-up
  deletion, and user deletion.
- `allocation.dfy` (module `Allocation`): assignment and deprovisioning as
  functions of the table contents, with the lemmas that state what they
  guarantee.
- `broker.dfy` (module `Broker`): the class `ApiGatewayCommonService`. Its
  methods update the two tables in place. `ServiceAssignment`, `DeprovisionVM`
  and `ProcDeProvisioning` are proved to do exactly what `Allocation.Assign`,
  `Allocation.DeprovisionVM` and `Allocation.Deprovision` describe, writes and
  requests in order included. The instance-record methods are specified
  directly against the service-instance table.
- `lifecycle.dfy` (module `Lifecycle`): properties of the VM table over any
  sequence of assignments and deprovisionings.

Remote calls are not made. Each operation takes the replies the directory
(`DirectoryReplies`) or the BOSH director (`OrchestratorReply`) would give.
Every table write (`SaveVm`, `SaveInstance`, `DeleteInstance`) and every
remote request (`DirectoryCall`, `OrchestratorCall`) is recorded, in the order
the broker makes it, in one ghost trace of the class (`effects`). So the model
states, for example, that the reservation is saved before the first directory
request and the hand-back save comes after the clean-up deletion.

Behaviour of the code that the model keeps as written:

- When the group grant fails, `regAdmin` calls `deleteUser` (line 311) before
  it throws the grant error (line 312). If that deletion throws, `deleteUser`
  raises its own exception (line 329), which leaves `regAdmin` before line 312
  is reached. So the caller sees the deletion error, not the grant error. See
  `Directory.RegAdmin` and `Directory.GrantFailureDeletesCreatedUser`.
- The select of a waiting VM (line 108) and the save of the reservation (line
  113) are two separate repository calls. Nothing locks the row between them.
- `serviceAssignment` selects by status only (line 108). It never asks whether
  the instance already holds a VM, so a second assignment of the same
  instance gives it a second VM (`Allocation.RepeatedAssignDoublesUp`). Every
  instance holds at most one VM only when callers never assign an instance
  twice (`Allocation.AssignKeepsUniqueness`, `Lifecycle.ReplayKeepsUniqueness`).
- Assignment sets only the status and the instance id (lines 111-112), never
  the provisioned time. Deprovisioning clears the time (line 203).

## Model

| member | source | states |
|---|---|---|
| `Entities.Reserve` | src/main/java/org/servicebroker/apigateway/service/impl/ApiGatewayCommonService.java:111-112 | The reserved VM is assigned to exactly that instance and is consistent. Its machine fields and provisioned time are kept. |
| `Entities.Release` | src/main/java/org/servicebroker/apigateway/service/impl/ApiGatewayCommonService.java:130-131 | The released VM waits for assignment with no instance id. A VM that was consistent and waiting comes back unchanged. |
| `Entities.MarkForRecreate` | src/main/java/org/servicebroker/apigateway/service/impl/ApiGatewayCommonService.java:201-203 | The VM waits for recreation with no instance id and no provisioned time, and keeps its machine fields. |
| `Entities.ToRow` | src/main/java/org/servicebroker/apigateway/service/impl/ApiGatewayCommonService.java:144-153 | The stored row, read back under the instance id, gives the same service instance. |
| `VmRepository.FindFirstByAssignment` | src/main/java/org/servicebroker/apigateway/repository/JpaDedicatedVMRepository.java:13 | It returns the least index whose row has the status, or nothing when no row has it. |
| `VmRepository.FindFirstByInstance` | src/main/java/org/servicebroker/apigateway/repository/JpaDedicatedVMRepository.java:15 | It returns the least index whose row is provisioned for the instance, or nothing when none is. |
| `Directory.GetGroups` | src/main/java/org/servicebroker/apigateway/service/impl/ApiGatewayCommonService.java:219-237 | It sends one GET to the admin-group search URL. It succeeds exactly when the reply lists at least one resource, and then yields the first id. Otherwise it fails with the lookup error. |
| `Directory.CreateUser` | src/main/java/org/servicebroker/apigateway/service/impl/ApiGatewayCommonService.java:247-269 | It sends one POST of the service-admin name and the password to the users URL. It yields the returned id, or fails with the creation error. |
| `Directory.DeleteUser` | src/main/java/org/servicebroker/apigateway/service/impl/ApiGatewayCommonService.java:317-331 | It sends one DELETE to that user's URL, and fails with the deletion error when the call throws. |
| `Directory.UserUrlInjective` | src/main/java/org/servicebroker/apigateway/service/impl/ApiGatewayCommonService.java:321 | Two user URLs of one directory are equal only for the same user id, so a DELETE names exactly one user. |
| `Directory.GroupUrlInjective` | src/main/java/org/servicebroker/apigateway/service/impl/ApiGatewayCommonService.java:282 | Two group URLs of one directory are equal only for the same group id, so a PATCH names exactly one group. |
| `Directory.RegAdmin` | src/main/java/org/servicebroker/apigateway/service/impl/ApiGatewayCommonService.java:279-315 | It first sends the PATCH adding the service admin with that user id to that group. It succeeds iff the PATCH succeeds. Otherwise it sends one DELETE of that user next, and fails with the deletion error if the deletion throws, else with the grant error. |
| `Directory.ProvisionServiceAdmin` | src/main/java/org/servicebroker/apigateway/service/impl/ApiGatewayCommonService.java:119-128 | The search is always the first request and at most four are sent. Provisioning succeeds iff all three steps succeed. It then sent exactly the search, the creation and a PATCH granting the found group to the created user, in that order. |
| `Directory.LookupFailureStopsEarly` | src/main/java/org/servicebroker/apigateway/service/impl/ApiGatewayCommonService.java:226-235 | A throwing search, or an empty resource list, fails with the lookup error after the single search request. |
| `Directory.CreateFailureStopsEarly` | src/main/java/org/servicebroker/apigateway/service/impl/ApiGatewayCommonService.java:121-124 | A failed creation stops after the search and the POST. The group is never touched. |
| `Directory.GrantFailureDeletesCreatedUser` | src/main/java/org/servicebroker/apigateway/service/impl/ApiGatewayCommonService.java:305-313 | A failed PATCH is followed by exactly one DELETE of the created user's id. The error is the grant error, or the deletion error when the deletion fails too. |
| `Directory.DeletionTargetsCreatedUser` | src/main/java/org/servicebroker/apigateway/service/impl/ApiGatewayCommonService.java:308-313 | A DELETE is only ever the fourth request, and it targets the id returned by user creation. |
| `Allocation.Assign` | src/main/java/org/servicebroker/apigateway/service/impl/ApiGatewayCommonService.java:105-137 | The table keeps its rows and machines. The result is no-available-VM exactly when no row waits for assignment, and exactly then no directory request is sent. |
| `Allocation.AssignWithoutWaitingVM` | src/main/java/org/servicebroker/apigateway/service/impl/ApiGatewayCommonService.java:108-116 | With no waiting VM, the assignment fails with no-available-VM. No row changes, nothing is saved and no directory request is sent. |
| `Allocation.AssignTouchesFirstWaitingVM` | src/main/java/org/servicebroker/apigateway/service/impl/ApiGatewayCommonService.java:108-113 | An assignment changes at most one row: the first one waiting for assignment. That row keeps its machine fields. |
| `Allocation.AssignSuccess` | src/main/java/org/servicebroker/apigateway/service/impl/ApiGatewayCommonService.java:105-136 | On success, the first waiting VM, and no other row, becomes `Reserve` of itself: assigned to the instance, with machine fields and provisioned time kept. Its dashboard URL is returned. The three directory requests went to that VM's ip, carrying the returned group and user ids. |
| `Allocation.AssignFailureRestoresPool` | src/main/java/org/servicebroker/apigateway/service/impl/ApiGatewayCommonService.java:129-134 | On a consistent pool, every failed assignment leaves the table exactly as before. |
| `Allocation.AssignEffectsOrder` | src/main/java/org/servicebroker/apigateway/service/impl/ApiGatewayCommonService.java:110-134 | The reservation save comes first, then the directory requests in the order sent. On failure a last save hands the VM back, after every directory request including the clean-up DELETE. The last save of the row is the row the table ends with. |
| `Allocation.AssignFailureReportsFailingStep` | src/main/java/org/servicebroker/apigateway/service/impl/ApiGatewayCommonService.java:114-136 | The assignment's result as a table of the replies: no-available-VM, lookup, creation, grant or deletion error, or the VM's dashboard URL. |
| `Allocation.AssignKeepsInvariant` | src/main/java/org/servicebroker/apigateway/service/impl/ApiGatewayCommonService.java:110-134 | An assignment keeps "instance id set iff assigned" on every row. |
| `Allocation.AssignKeepsUniqueness` | src/main/java/org/servicebroker/apigateway/service/impl/ApiGatewayCommonService.java:110-113 | Assigning an instance that holds no VM keeps every instance on at most one VM. |
| `Allocation.RepeatedAssignDoublesUp` | src/main/java/org/servicebroker/apigateway/service/impl/ApiGatewayCommonService.java:108-113 | Two successful assignments of one instance on a two-VM pool leave it holding both VMs. |
| `Allocation.DeprovisionVM` | src/main/java/org/servicebroker/apigateway/service/impl/ApiGatewayCommonService.java:197-209 | The table keeps its row count. It succeeds iff some VM is provisioned for the instance. Then the first such row, and no other, becomes `MarkForRecreate` of itself: waiting for recreation, id and time cleared. The released VM is returned. Otherwise it fails with no-provisioned-VM and changes nothing. |
| `Allocation.Deprovision` | src/main/java/org/servicebroker/apigateway/service/impl/ApiGatewayCommonService.java:163-188 | The record is dropped in every case. One recreate request is sent iff a VM was provisioned for the instance. Success needs the orchestrator to return true. The error is recreate-failed when a VM was found, else no-provisioned-VM. |
| `Allocation.DeprovisionWithoutVM` | src/main/java/org/servicebroker/apigateway/service/impl/ApiGatewayCommonService.java:163-169 | With no VM for the instance, the record is still dropped. The table is unchanged, the orchestrator is not called, the deletion is the only write, and the result is no-provisioned-VM. |
| `Allocation.DeprovisionReleasesVM` | src/main/java/org/servicebroker/apigateway/service/impl/ApiGatewayCommonService.java:163-188 | The record is dropped. The first VM provisioned for the instance, and only it, becomes `MarkForRecreate` of itself: waiting for recreation with id and time cleared, whatever the orchestrator answers. Exactly one recreate request names that VM. The result is success iff the orchestrator returns true. |
| `Allocation.DeprovisionEffectsOrder` | src/main/java/org/servicebroker/apigateway/service/impl/ApiGatewayCommonService.java:163-188 | The record deletion comes first, then the save of the released VM, then the recreate request. The saved row is the row the table ends with. |
| `Allocation.DeprovisionFreesInstance` | src/main/java/org/servicebroker/apigateway/service/impl/ApiGatewayCommonService.java:197-205 | On a pool where instances hold one VM each, the instance holds no VM afterwards. |
| `Allocation.DeprovisionKeepsInvariant` | src/main/java/org/servicebroker/apigateway/service/impl/ApiGatewayCommonService.java:200-205 | Deprovisioning keeps "instance id set iff assigned" on every row. |
| `Allocation.DeprovisionKeepsUniqueness` | src/main/java/org/servicebroker/apigateway/service/impl/ApiGatewayCommonService.java:198-204 | Deprovisioning keeps every instance on at most one VM. |
| `Allocation.GrantFailureScenario` | src/main/java/org/servicebroker/apigateway/service/impl/ApiGatewayCommonService.java:119-134 | For a one-VM pool whose grant fails: save the reservation, search, create, PATCH group g1, DELETE user u1, then save the VM back as it was. The pool is restored and the result is the grant error. |
| `Allocation.AssignThenDeprovisionScenario` | src/main/java/org/servicebroker/apigateway/service/impl/ApiGatewayCommonService.java:163-188 | The VM is assigned, then deprovisioned with a refusing orchestrator. It ends waiting for recreation, the record is gone, one recreate request was sent, and the result is recreate-failed. |
| `Lifecycle.StepFacts` | src/main/java/org/servicebroker/apigateway/service/impl/ApiGatewayCommonService.java:105-209 | One assignment or deprovisioning keeps the row count and machines, keeps the invariant, and never takes a VM out of waiting-for-recreate. |
| `Lifecycle.ReplayFacts` | src/main/java/org/servicebroker/apigateway/service/impl/ApiGatewayCommonService.java:105-209 | The same holds over any sequence of operations. No VM is ever added, removed or brought back from waiting-for-recreate. |
| `Lifecycle.ReplayKeepsUniqueness` | src/main/java/org/servicebroker/apigateway/service/impl/ApiGatewayCommonService.java:105-209 | Over any sequence whose assignments are for instances holding no VM, every instance holds at most one VM. |
| `Broker.ApiGatewayCommonService.constructor` | src/main/java/org/servicebroker/apigateway/service/impl/ApiGatewayCommonService.java:34-50 | The service starts with the given configuration, tables and an empty trace. |
| `Broker.ApiGatewayCommonService.GetServiceInstance` | src/main/java/org/servicebroker/apigateway/service/impl/ApiGatewayCommonService.java:58-72 | A known id gives the instance with that id and all stored fields, dashboard URL included. An unknown id gives nothing. |
| `Broker.ApiGatewayCommonService.FindByOrgGuid` | src/main/java/org/servicebroker/apigateway/service/impl/ApiGatewayCommonService.java:80-96 | It gives nothing iff no record has the organization. Otherwise it gives a stored record of that organization, without its dashboard URL. |
| `Broker.ApiGatewayCommonService.CreateServiceInstance` | src/main/java/org/servicebroker/apigateway/service/impl/ApiGatewayCommonService.java:144-155 | It stores the row under the instance id and traces that one save. The VM table is unchanged. Reading it back gives the same instance. |
| `Broker.ApiGatewayCommonService.CallDirectory` | src/main/java/org/servicebroker/apigateway/service/impl/ApiGatewayCommonService.java:119-128 | The three directory steps run one after another, each only after the one before succeeded. The trace grows by exactly the requests of `Directory.ProvisionServiceAdmin`, and the first failure is returned. No table changes. |
| `Broker.ApiGatewayCommonService.ServiceAssignment` | src/main/java/org/servicebroker/apigateway/service/impl/ApiGatewayCommonService.java:105-137 | The new VM table and the result are those of `Allocation.Assign`. The trace grows by `Allocation.AssignEffects`, so saves and requests happen in that order. The invariant is kept, and a failure on a consistent pool leaves the table unchanged. |
| `Broker.ApiGatewayCommonService.DeprovisionVM` | src/main/java/org/servicebroker/apigateway/service/impl/ApiGatewayCommonService.java:197-209 | The new VM table and the result are those of `Allocation.DeprovisionVM`. The trace grows by the one release save, if any. The instance table is unchanged. |
| `Broker.ApiGatewayCommonService.ProcDeProvisioning` | src/main/java/org/servicebroker/apigateway/service/impl/ApiGatewayCommonService.java:163-188 | Both tables and the result are those of `Allocation.Deprovision`. The trace grows by `Allocation.DeprovisionEffects`: deletion, release save, recreate request. The record is gone in every case. |

## Left out

- HTTP mechanics are left out: `RestTemplate`, the Gson payload building and the Base64 basic-auth header (`restCommonHeaders`, lines 333-344). So are the `admin` and `adminPassword` settings, which serve only that header. A request is kept as its method, URL and payload fields.
- The `URLDecoder` applied to the group-search URL (line 228) is not modelled. The recorded URL is the undecoded one.
- A response whose "id" field is missing is not modelled. In the source it yields a null group or user id without an error. Ids here are strings. A missing body or a missing "Resources" list counts as a thrown call.
- Exception message texts and log output are left out. Failures are told apart by kind only.
- `Constants` is not part of this model. The status codes become the `Assignment` enum, the recreate job state becomes `JobState.Recreate`, and the SCIM path suffixes are the `ScimPaths` parameter.
- The entity classes `JpaDedicatedVM` and `JpaServiceInstance` are not part of this model. A VM row is a value and "save" rewrites its row. Entity object identity and the entity's primary key are not modelled.
- Failures of the stores themselves (a `save` or `delete` that throws) are not modelled. In particular, line 166 calls `delete` with an id, the Spring Data 1.x `CrudRepository.delete(ID)` form, which throws `EmptyResultDataAccessException` when no record has that id. So in the source, deprovisioning an unknown instance stops at line 166, before any VM is released and before the orchestrator is called. In the model, deleting a missing id removes nothing and deprovisioning goes on to release the VM.
- `BoshDirector.updateInstanceState` is a foreign call. Its outcome is the `OrchestratorReply` parameter: true, false, or an exception.
- Concurrent calls are not modelled, including the unlocked select-then-save of an assignment.
- The waiting-for-recreate to waiting-for-assignment transition is not modelled: this code has none.
- `Broker.ApiGatewayCommonService.ServiceAssignment` (and `Allocation.Assign`): starts from the password already read. Line 107 reads it as `(String) request.getParameters().get(...)` before the VM table is read at line 108. That line throws `NullPointerException` when the request has no parameters map, and `ClassCastException` when the value is not a string. In both cases the source fails before any VM is reserved. The model has no such failure. A missing key gives a null password, which the model passes in as `None`.
- `Broker.ApiGatewayCommonService.FindByOrgGuid`: returns some record of the organization rather than the store's first one.
- `ApiGatewayBroker` (application start-up and TLS wiring), the `org.paasta` repository interface (no methods) and the test request fixture hold no allocation logic and are not modelled.
