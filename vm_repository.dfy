/**
 * The dedicated-VM table and its two derived queries. The table is a sequence
 * of rows in the order the store returns them, so "first" means the least
 * index; saving an entity that was read from the table rewrites its row.
 */
module VmRepository {
  import opened Entities

  /** The first row with the given assignment status, if any. */
  function FindFirstByAssignment(rows: seq<DedicatedVM>, status: Assignment): (r: Option<nat>)
    ensures r.Some? ==> r.value < |rows| && rows[r.value].assignment == status
    ensures r.Some? ==> forall j :: 0 <= j < r.value ==> rows[j].assignment != status
    ensures r.None? ==> forall j :: 0 <= j < |rows| ==> rows[j].assignment != status
  {
    if |rows| == 0 then None
    else if rows[0].assignment == status then Some(0)
    else
      match FindFirstByAssignment(rows[1..], status)
      case None => None
      case Some(k) => Some(k + 1)
  }

  /** The first row provisioned for the given service instance, if any. */
  function FindFirstByInstance(rows: seq<DedicatedVM>, serviceInstanceId: string): (r: Option<nat>)
    ensures r.Some? ==> r.value < |rows| && rows[r.value].provisionedServiceInstanceId == Some(serviceInstanceId)
    ensures r.Some? ==> forall j :: 0 <= j < r.value ==> rows[j].provisionedServiceInstanceId != Some(serviceInstanceId)
    ensures r.None? ==> forall j :: 0 <= j < |rows| ==> rows[j].provisionedServiceInstanceId != Some(serviceInstanceId)
  {
    if |rows| == 0 then None
    else if rows[0].provisionedServiceInstanceId == Some(serviceInstanceId) then Some(0)
    else
      match FindFirstByInstance(rows[1..], serviceInstanceId)
      case None => None
      case Some(k) => Some(k + 1)
  }

  /** Every row obeys the status/instance-id rule. */
  predicate PoolInvariant(rows: seq<DedicatedVM>) {
    forall i :: 0 <= i < |rows| ==> Consistent(rows[i])
  }

  /** No service instance holds two VMs. */
  predicate UniquelyAssigned(rows: seq<DedicatedVM>) {
    forall i, j ::
      0 <= i < |rows| && 0 <= j < |rows| && i != j && rows[i].provisionedServiceInstanceId.Some? ==>
        rows[i].provisionedServiceInstanceId != rows[j].provisionedServiceInstanceId
  }

  /** Some row is provisioned for the given service instance. */
  predicate Holds(rows: seq<DedicatedVM>, serviceInstanceId: string) {
    exists i :: 0 <= i < |rows| && rows[i].provisionedServiceInstanceId == Some(serviceInstanceId)
  }

  /** `after` differs from `before` at most in row `i`, and keeps every machine. */
  predicate OnlyRowChanged(before: seq<DedicatedVM>, after: seq<DedicatedVM>, i: nat) {
    && |after| == |before|
    && i < |before|
    && SameMachine(before[i], after[i])
    && forall j :: 0 <= j < |before| && j != i ==> after[j] == before[j]
  }
}
