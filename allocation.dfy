/**
 * The allocation coordinator as functions of the stores' contents: what an
 * assignment and a deprovisioning do to the dedicated-VM table, which remote
 * requests they send, in which order they write and call, and what they
 * return. The broker's assignment and deprovisioning methods are proved to
 * behave exactly like these functions; the lemmas below state what the
 * coordinator guarantees.
 */
module Allocation {
  import opened Entities
  import opened VmRepository
  import opened Directory

  /** The orchestrator's job state the broker asks for. */
  datatype JobState = Recreate

  /** The one orchestrator request: change the state of one VM of a deployment. */
  datatype OrchestratorRequest = UpdateInstanceState(deploymentName: string, vmName: string, vmId: string, state: JobState)

  /** What the orchestrator gives back: whether it accepted the change, or an exception. */
  datatype OrchestratorReply = Returned(accepted: bool) | Raised

  /** One write to a store or one remote request of a broker operation. */
  datatype Effect =
    | SaveVm(index: nat, row: DedicatedVM)
    | SaveInstance(serviceInstanceId: string, record: ServiceInstanceRow)
    | DeleteInstance(serviceInstanceId: string)
    | DirectoryCall(sentToDirectory: Request)
    | OrchestratorCall(sentToOrchestrator: OrchestratorRequest)

  /** Directory requests as effects, in the order they were sent. */
  function DirectoryEffects(sent: seq<Request>): seq<Effect>
  {
    if sent == [] then [] else [DirectoryCall(sent[0])] + DirectoryEffects(sent[1..])
  }

  /** The k-th traced effect is the k-th request sent, and nothing else is traced. */
  lemma {:induction false} DirectoryEffectsAt(sent: seq<Request>)
    ensures |DirectoryEffects(sent)| == |sent|
    ensures forall k :: 0 <= k < |sent| ==> DirectoryEffects(sent)[k] == DirectoryCall(sent[k])
    decreases |sent|
  {
    if sent != [] {
      DirectoryEffectsAt(sent[1..]);
    }
  }

  /** Requests sent one batch after another are traced one batch after another. */
  lemma {:induction false} DirectoryEffectsAppend(a: seq<Request>, b: seq<Request>)
    ensures DirectoryEffects(a + b) == DirectoryEffects(a) + DirectoryEffects(b)
    decreases |a|
  {
    if a == [] {
      assert a + b == b;
    } else {
      assert (a + b)[1..] == a[1..] + b;
      DirectoryEffectsAppend(a[1..], b);
    }
  }

  /** The effect of one assignment. */
  datatype AssignRun = AssignRun(rows: seq<DedicatedVM>, sent: seq<Request>, result: Result<string>)

  /**
   * An assignment: reserve the first waiting VM, provision the service admin
   * on its directory, and on any directory failure put the VM back.
   */
  function Assign(rows: seq<DedicatedVM>, serviceInstanceId: string, password: Option<string>,
                  paths: ScimPaths, serviceAdmin: string, replies: DirectoryReplies): (r: AssignRun)
    ensures |r.rows| == |rows| && forall j :: 0 <= j < |rows| ==> SameMachine(rows[j], r.rows[j])
    ensures r.result == Err(NoAvailableVM) <==> forall j :: 0 <= j < |rows| ==> rows[j].assignment != WaitingForAssignment
    ensures r.sent == [] <==> r.result == Err(NoAvailableVM)
  {
    match FindFirstByAssignment(rows, WaitingForAssignment)
    case None => AssignRun(rows, [], Err(NoAvailableVM))
    case Some(i) =>
      var reserved := Reserve(rows[i], serviceInstanceId);
      var provision := ProvisionServiceAdmin(paths, serviceAdmin, reserved.ip, password, replies);
      if provision.result.Ok? then AssignRun(rows[i := reserved], provision.sent, Ok(reserved.dashboardUrl))
      else AssignRun(rows[i := Release(reserved)], provision.sent, Err(provision.result.error))
  }

  /**
   * The writes and requests of an assignment in the order the broker makes
   * them: the reservation save, the directory requests, and on failure the
   * save that hands the VM back.
   */
  function AssignEffects(rows: seq<DedicatedVM>, serviceInstanceId: string, password: Option<string>,
                         paths: ScimPaths, serviceAdmin: string, replies: DirectoryReplies): seq<Effect>
  {
    match FindFirstByAssignment(rows, WaitingForAssignment)
    case None => []
    case Some(i) =>
      var reserved := Reserve(rows[i], serviceInstanceId);
      var provision := ProvisionServiceAdmin(paths, serviceAdmin, reserved.ip, password, replies);
      [SaveVm(i, reserved)] + DirectoryEffects(provision.sent)
        + (if provision.result.Ok? then [] else [SaveVm(i, Release(reserved))])
  }

  /** The effect of releasing the VM of a service instance. */
  datatype ReleaseRun = ReleaseRun(rows: seq<DedicatedVM>, result: Result<DedicatedVM>)

  /** Moves the first VM provisioned for the instance to waiting-for-recreate. */
  function DeprovisionVM(rows: seq<DedicatedVM>, serviceInstanceId: string): (r: ReleaseRun)
    ensures |r.rows| == |rows|
    ensures r.result.Ok? <==> Holds(rows, serviceInstanceId)
    ensures r.result.Err? ==> r.result.error == NoProvisionedVM && r.rows == rows
    ensures r.result.Ok? ==> r.result.value.assignment == WaitingForRecreate && Consistent(r.result.value)
                             && r.result.value in r.rows
    ensures r.result.Ok? ==>
      exists i :: 0 <= i < |rows| && rows[i].provisionedServiceInstanceId == Some(serviceInstanceId)
        && (forall j :: 0 <= j < i ==> rows[j].provisionedServiceInstanceId != Some(serviceInstanceId))
        && OnlyRowChanged(rows, r.rows, i)
        && r.rows[i] == MarkForRecreate(rows[i])
        && r.result.value == r.rows[i]
  {
    match FindFirstByInstance(rows, serviceInstanceId)
    case None => ReleaseRun(rows, Err(NoProvisionedVM))
    case Some(i) =>
      var released := MarkForRecreate(rows[i]);
      assert rows[i := released][i] == released;
      ReleaseRun(rows[i := released], Ok(released))
  }

  /** The one save of a release, if there is a VM to release. */
  function ReleaseEffects(rows: seq<DedicatedVM>, serviceInstanceId: string): seq<Effect>
  {
    match FindFirstByInstance(rows, serviceInstanceId)
    case None => []
    case Some(i) => [SaveVm(i, MarkForRecreate(rows[i]))]
  }

  /** The effect of one deprovisioning. */
  datatype DeprovisionRun = DeprovisionRun(
    rows: seq<DedicatedVM>,
    instances: map<string, ServiceInstanceRow>,
    sent: seq<OrchestratorRequest>,
    result: Result<()>)

  /**
   * A deprovisioning: drop the instance record, release its VM, and ask the
   * orchestrator to recreate that VM. Nothing is undone when a later step fails.
   */
  function Deprovision(rows: seq<DedicatedVM>, instances: map<string, ServiceInstanceRow>,
                       serviceInstanceId: string, deploymentName: string, reply: OrchestratorReply): (r: DeprovisionRun)
    ensures r.instances == instances - {serviceInstanceId}
    ensures |r.sent| == (if Holds(rows, serviceInstanceId) then 1 else 0)
    ensures r.result.Ok? ==> reply == Returned(true)
    ensures r.result.Err? ==>
      r.result.error == (if Holds(rows, serviceInstanceId) then RecreateFailed else NoProvisionedVM)
  {
    var remaining := instances - {serviceInstanceId};
    var release := DeprovisionVM(rows, serviceInstanceId);
    match release.result
    case Err(e) => DeprovisionRun(release.rows, remaining, [], Err(e))
    case Ok(vm) =>
      var request := UpdateInstanceState(deploymentName, vm.vmName, vm.vmId, Recreate);
      DeprovisionRun(release.rows, remaining, [request],
                     if reply == Returned(true) then Ok(()) else Err(RecreateFailed))
  }

  /**
   * The writes and requests of a deprovisioning in the order the broker
   * makes them: the record deletion, the release save, the recreate request.
   */
  function DeprovisionEffects(rows: seq<DedicatedVM>, serviceInstanceId: string, deploymentName: string): seq<Effect>
  {
    var release := DeprovisionVM(rows, serviceInstanceId);
    [DeleteInstance(serviceInstanceId)] + ReleaseEffects(rows, serviceInstanceId)
      + match release.result
        case Err(_) => []
        case Ok(vm) => [OrchestratorCall(UpdateInstanceState(deploymentName, vm.vmName, vm.vmId, Recreate))]
  }

  // ---------------------------------------------------------------------------
  // Assignment

  /** With no waiting VM, an assignment fails and changes nothing and calls nobody. */
  lemma AssignWithoutWaitingVM(rows: seq<DedicatedVM>, serviceInstanceId: string, password: Option<string>,
                               paths: ScimPaths, serviceAdmin: string, replies: DirectoryReplies)
    requires forall j :: 0 <= j < |rows| ==> rows[j].assignment != WaitingForAssignment
    ensures Assign(rows, serviceInstanceId, password, paths, serviceAdmin, replies) == AssignRun(rows, [], Err(NoAvailableVM))
    ensures AssignEffects(rows, serviceInstanceId, password, paths, serviceAdmin, replies) == []
  {
  }

  /**
   * An assignment touches one row at most, and only a row that was waiting for
   * assignment: the first such row. Its machine fields are kept.
   */
  lemma AssignTouchesFirstWaitingVM(rows: seq<DedicatedVM>, serviceInstanceId: string, password: Option<string>,
                                    paths: ScimPaths, serviceAdmin: string, replies: DirectoryReplies)
    ensures var run := Assign(rows, serviceInstanceId, password, paths, serviceAdmin, replies);
      run.rows == rows ||
      exists i :: 0 <= i < |rows| && OnlyRowChanged(rows, run.rows, i)
                  && rows[i].assignment == WaitingForAssignment
                  && forall j :: 0 <= j < i ==> rows[j].assignment != WaitingForAssignment
  {
  }

  /**
   * A successful assignment leaves the first waiting VM, and only it,
   * assigned to the instance with its provisioned time kept, returns that
   * VM's dashboard URL, and sent the group search, the
   * user creation and the grant of the found group to the created user, in
   * this order, to that VM's directory.
   */
  lemma AssignSuccess(rows: seq<DedicatedVM>, serviceInstanceId: string, password: Option<string>,
                      paths: ScimPaths, serviceAdmin: string, replies: DirectoryReplies)
    requires Assign(rows, serviceInstanceId, password, paths, serviceAdmin, replies).result.Ok?
    ensures var run := Assign(rows, serviceInstanceId, password, paths, serviceAdmin, replies);
      exists i :: 0 <= i < |rows| && OnlyRowChanged(rows, run.rows, i)
        && rows[i].assignment == WaitingForAssignment
        && (forall j :: 0 <= j < i ==> rows[j].assignment != WaitingForAssignment)
        && run.rows[i] == Reserve(rows[i], serviceInstanceId)
        && run.rows[i].provisionedTime == rows[i].provisionedTime
        && run.rows[i].assignment == Assigned
        && run.rows[i].provisionedServiceInstanceId == Some(serviceInstanceId)
        && run.result.value == rows[i].dashboardUrl
        && replies.groupSearch.Answered? && |replies.groupSearch.body| > 0
        && replies.userCreate.Answered? && replies.groupPatch.Answered?
        && run.sent == [
             Request(Get, GroupSearchUrl(paths, rows[i].ip), NoBody),
             Request(Post, UsersUrl(paths, rows[i].ip), NewUser(serviceAdmin, password)),
             Request(Patch, GroupUrl(paths, rows[i].ip, replies.groupSearch.body[0]),
                     AddMember(serviceAdmin, replies.userCreate.body))]
  {
  }

  /**
   * A failed assignment hands the reserved VM back: on a consistent pool the
   * table is exactly as before, whichever directory step failed.
   */
  lemma AssignFailureRestoresPool(rows: seq<DedicatedVM>, serviceInstanceId: string, password: Option<string>,
                                  paths: ScimPaths, serviceAdmin: string, replies: DirectoryReplies)
    requires PoolInvariant(rows)
    requires Assign(rows, serviceInstanceId, password, paths, serviceAdmin, replies).result.Err?
    ensures Assign(rows, serviceInstanceId, password, paths, serviceAdmin, replies).rows == rows
  {
  }

  /**
   * With no waiting VM an assignment fails with its own error. Every
   * directory failure after the reservation is reported with the failing
   * step's own error, except that a failing clean-up deletion replaces the
   * grant error.
   */
  lemma AssignFailureReportsFailingStep(rows: seq<DedicatedVM>, serviceInstanceId: string, password: Option<string>,
                                        paths: ScimPaths, serviceAdmin: string, replies: DirectoryReplies)
    ensures var run := Assign(rows, serviceInstanceId, password, paths, serviceAdmin, replies);
      run.result ==
        if FindFirstByAssignment(rows, WaitingForAssignment).None? then Err(NoAvailableVM)
        else if replies.groupSearch.Threw? || replies.groupSearch.body == [] then Err(GroupLookupFailed)
        else if replies.userCreate.Threw? then Err(UserCreateFailed)
        else if replies.groupPatch.Threw? then
          (if replies.userDelete.Threw? then Err(UserDeleteFailed) else Err(GroupGrantFailed))
        else Ok(rows[FindFirstByAssignment(rows, WaitingForAssignment).value].dashboardUrl)
  {
  }

  /**
   * The order of an assignment's writes and requests: the reservation is
   * saved before the directory is called, the directory requests follow in
   * the order they were sent, and on failure the VM is handed back by a last
   * save after every directory request, the clean-up deletion included.
   * The last save of the row is the row the table ends with.
   */
  lemma AssignEffectsOrder(rows: seq<DedicatedVM>, serviceInstanceId: string, password: Option<string>,
                           paths: ScimPaths, serviceAdmin: string, replies: DirectoryReplies, i: nat)
    requires FindFirstByAssignment(rows, WaitingForAssignment) == Some(i)
    ensures var run := Assign(rows, serviceInstanceId, password, paths, serviceAdmin, replies);
      var t := AssignEffects(rows, serviceInstanceId, password, paths, serviceAdmin, replies);
      && |t| == 1 + |run.sent| + (if run.result.Ok? then 0 else 1)
      && t[0] == SaveVm(i, Reserve(rows[i], serviceInstanceId))
      && (forall k :: 0 <= k < |run.sent| ==> t[1 + k] == DirectoryCall(run.sent[k]))
      && (run.result.Ok? ==> run.rows[i] == t[0].row)
      && (run.result.Err? ==> t[|t| - 1] == SaveVm(i, run.rows[i]) && run.rows[i] == Release(t[0].row))
  {
    var reserved := Reserve(rows[i], serviceInstanceId);
    DirectoryEffectsAt(ProvisionServiceAdmin(paths, serviceAdmin, reserved.ip, password, replies).sent);
  }

  /** An assignment keeps the pool consistent: status and instance id change together. */
  lemma AssignKeepsInvariant(rows: seq<DedicatedVM>, serviceInstanceId: string, password: Option<string>,
                             paths: ScimPaths, serviceAdmin: string, replies: DirectoryReplies)
    requires PoolInvariant(rows)
    ensures PoolInvariant(Assign(rows, serviceInstanceId, password, paths, serviceAdmin, replies).rows)
  {
  }

  /**
   * An assignment for an instance that holds no VM yet keeps every instance
   * on at most one VM. (The broker does not check this itself: a second
   * assignment for a held instance would give it a second VM.)
   */
  lemma AssignKeepsUniqueness(rows: seq<DedicatedVM>, serviceInstanceId: string, password: Option<string>,
                              paths: ScimPaths, serviceAdmin: string, replies: DirectoryReplies)
    requires UniquelyAssigned(rows) && !Holds(rows, serviceInstanceId)
    ensures UniquelyAssigned(Assign(rows, serviceInstanceId, password, paths, serviceAdmin, replies).rows)
  {
  }

  /** Without that check the pool can end with one instance on two VMs. */
  lemma RepeatedAssignDoublesUp(paths: ScimPaths, serviceAdmin: string, password: Option<string>,
                                replies: DirectoryReplies)
    requires replies.groupSearch == Answered(["g1"]) && replies.userCreate == Answered("u1")
    requires replies.groupPatch.Answered?
    ensures var vm := DedicatedVM("10.0.0.5", "vm-1", "id-1", "https://dash/v1", WaitingForAssignment, None, None);
      var first := Assign([vm, vm], "svc-1", password, paths, serviceAdmin, replies);
      var second := Assign(first.rows, "svc-1", password, paths, serviceAdmin, replies);
      second.result.Ok? && !UniquelyAssigned(second.rows)
  {
    var vm := DedicatedVM("10.0.0.5", "vm-1", "id-1", "https://dash/v1", WaitingForAssignment, None, None);
    var first := Assign([vm, vm], "svc-1", password, paths, serviceAdmin, replies);
    assert FindFirstByAssignment([vm, vm], WaitingForAssignment) == Some(0);
    assert FindFirstByAssignment(first.rows, WaitingForAssignment) == Some(1);
    var second := Assign(first.rows, "svc-1", password, paths, serviceAdmin, replies);
    assert second.rows[0].provisionedServiceInstanceId == second.rows[1].provisionedServiceInstanceId;
  }

  // ---------------------------------------------------------------------------
  // Deprovisioning

  /**
   * Deprovisioning always drops the instance record. Without a VM provisioned
   * for the instance it fails, leaves the table and calls no orchestrator.
   */
  lemma DeprovisionWithoutVM(rows: seq<DedicatedVM>, instances: map<string, ServiceInstanceRow>,
                             serviceInstanceId: string, deploymentName: string, reply: OrchestratorReply)
    requires !Holds(rows, serviceInstanceId)
    ensures Deprovision(rows, instances, serviceInstanceId, deploymentName, reply)
         == DeprovisionRun(rows, instances - {serviceInstanceId}, [], Err(NoProvisionedVM))
    ensures DeprovisionEffects(rows, serviceInstanceId, deploymentName) == [DeleteInstance(serviceInstanceId)]
  {
  }

  /**
   * With a VM provisioned for the instance, deprovisioning drops the record,
   * leaves that VM waiting to be recreated with no instance and no time
   * whatever the orchestrator answers, and asks the orchestrator exactly once
   * to recreate that VM of the deployment. It succeeds only if the
   * orchestrator answers true.
   */
  lemma DeprovisionReleasesVM(rows: seq<DedicatedVM>, instances: map<string, ServiceInstanceRow>,
                              serviceInstanceId: string, deploymentName: string, reply: OrchestratorReply)
    requires Holds(rows, serviceInstanceId)
    ensures var run := Deprovision(rows, instances, serviceInstanceId, deploymentName, reply);
      && run.instances == instances - {serviceInstanceId}
      && (run.result.Ok? <==> reply == Returned(true))
      && (run.result.Err? ==> run.result.error == RecreateFailed)
      && exists i :: 0 <= i < |rows| && OnlyRowChanged(rows, run.rows, i)
           && rows[i].provisionedServiceInstanceId == Some(serviceInstanceId)
           && (forall j :: 0 <= j < i ==> rows[j].provisionedServiceInstanceId != Some(serviceInstanceId))
           && run.rows[i] == MarkForRecreate(rows[i])
           && run.rows[i].assignment == WaitingForRecreate
           && run.rows[i].provisionedServiceInstanceId.None?
           && run.rows[i].provisionedTime.None?
           && run.sent == [UpdateInstanceState(deploymentName, rows[i].vmName, rows[i].vmId, Recreate)]
  {
  }

  /**
   * The order of a deprovisioning's writes and requests: the instance record
   * is deleted first, then the released VM is saved, then the orchestrator is
   * asked to recreate it; the saved row is the row the table ends with.
   */
  lemma DeprovisionEffectsOrder(rows: seq<DedicatedVM>, instances: map<string, ServiceInstanceRow>,
                                serviceInstanceId: string, deploymentName: string, reply: OrchestratorReply, i: nat)
    requires FindFirstByInstance(rows, serviceInstanceId) == Some(i)
    ensures var run := Deprovision(rows, instances, serviceInstanceId, deploymentName, reply);
      DeprovisionEffects(rows, serviceInstanceId, deploymentName)
        == [DeleteInstance(serviceInstanceId), SaveVm(i, run.rows[i]), OrchestratorCall(run.sent[0])]
  {
  }

  /** On a pool where instances hold one VM each, deprovisioning leaves the instance holding none. */
  lemma DeprovisionFreesInstance(rows: seq<DedicatedVM>, instances: map<string, ServiceInstanceRow>,
                                 serviceInstanceId: string, deploymentName: string, reply: OrchestratorReply)
    requires UniquelyAssigned(rows)
    ensures !Holds(Deprovision(rows, instances, serviceInstanceId, deploymentName, reply).rows, serviceInstanceId)
  {
  }

  /** Deprovisioning keeps the pool consistent. */
  lemma DeprovisionKeepsInvariant(rows: seq<DedicatedVM>, instances: map<string, ServiceInstanceRow>,
                                  serviceInstanceId: string, deploymentName: string, reply: OrchestratorReply)
    requires PoolInvariant(rows)
    ensures PoolInvariant(Deprovision(rows, instances, serviceInstanceId, deploymentName, reply).rows)
  {
  }

  /** Deprovisioning keeps every instance on at most one VM. */
  lemma DeprovisionKeepsUniqueness(rows: seq<DedicatedVM>, serviceInstanceId: string)
    requires UniquelyAssigned(rows)
    ensures UniquelyAssigned(DeprovisionVM(rows, serviceInstanceId).rows)
  {
  }

  // ---------------------------------------------------------------------------
  // One pool, end to end

  const V1 := DedicatedVM("10.0.0.5", "vm-1", "id-1", "https://dash/v1", WaitingForAssignment, None, None)

  /** A grant failure on the one waiting VM: the created user is deleted, then the VM is handed back. */
  lemma GrantFailureScenario(paths: ScimPaths, serviceAdmin: string)
    ensures var replies := DirectoryReplies(Answered(["g1"]), Answered("u1"), Threw, Answered(()));
      var sent := [Request(Get, GroupSearchUrl(paths, "10.0.0.5"), NoBody),
                   Request(Post, UsersUrl(paths, "10.0.0.5"), NewUser(serviceAdmin, Some("pw"))),
                   Request(Patch, GroupUrl(paths, "10.0.0.5", "g1"), AddMember(serviceAdmin, "u1")),
                   Request(Delete, UserUrl(paths, "10.0.0.5", "u1"), NoBody)];
      && Assign([V1], "svc-1", Some("pw"), paths, serviceAdmin, replies) == AssignRun([V1], sent, Err(GroupGrantFailed))
      && AssignEffects([V1], "svc-1", Some("pw"), paths, serviceAdmin, replies)
         == [SaveVm(0, V1.(assignment := Assigned, provisionedServiceInstanceId := Some("svc-1"))),
             DirectoryCall(sent[0]), DirectoryCall(sent[1]), DirectoryCall(sent[2]), DirectoryCall(sent[3]),
             SaveVm(0, V1)]
  {
    var replies := DirectoryReplies(Answered(["g1"]), Answered("u1"), Threw, Answered(()));
    DirectoryEffectsAt(Assign([V1], "svc-1", Some("pw"), paths, serviceAdmin, replies).sent);
  }

  /** Assigning and then deprovisioning with a refusing orchestrator leaves the VM waiting to be recreated. */
  lemma AssignThenDeprovisionScenario(paths: ScimPaths, serviceAdmin: string, record: ServiceInstanceRow)
    ensures var replies := DirectoryReplies(Answered(["g1"]), Answered("u1"), Answered(()), Threw);
      var placed := Assign([V1], "svc-1", Some("pw"), paths, serviceAdmin, replies);
      var gone := Deprovision(placed.rows, map["svc-1" := record], "svc-1", "dep-A", Returned(false));
      && placed.result == Ok("https://dash/v1")
      && placed.rows == [V1.(assignment := Assigned, provisionedServiceInstanceId := Some("svc-1"))]
      && gone == DeprovisionRun([V1.(assignment := WaitingForRecreate)], map[],
                                [UpdateInstanceState("dep-A", "vm-1", "id-1", Recreate)], Err(RecreateFailed))
  {
  }
}
