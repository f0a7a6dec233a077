/**
 * What holds of the dedicated-VM table over any run of the broker: a
 * sequence of assignments and deprovisionings, each with whatever replies
 * the remote systems give.
 */
module Lifecycle {
  import opened Entities
  import opened VmRepository
  import opened Directory
  import opened Allocation

  /** One broker operation that touches the dedicated-VM table, with its remote replies. */
  datatype PoolEvent =
    | AssignEvent(serviceInstanceId: string, password: Option<string>, replies: DirectoryReplies)
    | DeprovisionEvent(serviceInstanceId: string)

  /** The table after one event. (The orchestrator's reply does not affect the table.) */
  function Step(rows: seq<DedicatedVM>, paths: ScimPaths, serviceAdmin: string, event: PoolEvent): seq<DedicatedVM>
  {
    match event
    case AssignEvent(id, password, replies) => Assign(rows, id, password, paths, serviceAdmin, replies).rows
    case DeprovisionEvent(id) => DeprovisionVM(rows, id).rows
  }

  /** The table after a sequence of events, applied in order. */
  function Replay(rows: seq<DedicatedVM>, paths: ScimPaths, serviceAdmin: string, events: seq<PoolEvent>): seq<DedicatedVM>
    decreases |events|
  {
    if events == [] then rows
    else Replay(Step(rows, paths, serviceAdmin, events[0]), paths, serviceAdmin, events[1..])
  }

  /** Every step keeps the rows, their machines and their consistency, and never leaves waiting-for-recreate. */
  lemma StepFacts(rows: seq<DedicatedVM>, paths: ScimPaths, serviceAdmin: string, event: PoolEvent)
    ensures var after := Step(rows, paths, serviceAdmin, event);
      && |after| == |rows|
      && (forall i :: 0 <= i < |rows| ==> SameMachine(rows[i], after[i]))
      && (forall i :: 0 <= i < |rows| && rows[i].assignment == WaitingForRecreate ==>
            after[i].assignment == WaitingForRecreate)
      && (PoolInvariant(rows) ==> PoolInvariant(after))
  {
  }

  /**
   * Over any run, no VM is added or removed, no machine field changes, the
   * pool stays consistent, and a VM waiting to be recreated stays so: the
   * broker itself never brings it back into the pool.
   */
  lemma {:induction false} ReplayFacts(rows: seq<DedicatedVM>, paths: ScimPaths, serviceAdmin: string,
                                       events: seq<PoolEvent>)
    ensures var after := Replay(rows, paths, serviceAdmin, events);
      && |after| == |rows|
      && (forall i :: 0 <= i < |rows| ==> SameMachine(rows[i], after[i]))
      && (forall i :: 0 <= i < |rows| && rows[i].assignment == WaitingForRecreate ==>
            after[i].assignment == WaitingForRecreate)
      && (PoolInvariant(rows) ==> PoolInvariant(after))
    decreases |events|
  {
    if events != [] {
      var next := Step(rows, paths, serviceAdmin, events[0]);
      StepFacts(rows, paths, serviceAdmin, events[0]);
      ReplayFacts(next, paths, serviceAdmin, events[1..]);
    }
  }

  /** Every assignment of the run is for an instance that holds no VM at that point. */
  predicate FreshAssignments(rows: seq<DedicatedVM>, paths: ScimPaths, serviceAdmin: string, events: seq<PoolEvent>)
    decreases |events|
  {
    events != [] ==>
      && (events[0].AssignEvent? ==> !Holds(rows, events[0].serviceInstanceId))
      && FreshAssignments(Step(rows, paths, serviceAdmin, events[0]), paths, serviceAdmin, events[1..])
  }

  /** A run whose assignments are for fresh instances keeps every instance on at most one VM. */
  lemma {:induction false} ReplayKeepsUniqueness(rows: seq<DedicatedVM>, paths: ScimPaths, serviceAdmin: string,
                                                 events: seq<PoolEvent>)
    requires UniquelyAssigned(rows) && FreshAssignments(rows, paths, serviceAdmin, events)
    ensures UniquelyAssigned(Replay(rows, paths, serviceAdmin, events))
    decreases |events|
  {
    if events != [] {
      var next := Step(rows, paths, serviceAdmin, events[0]);
      match events[0] {
        case AssignEvent(id, password, replies) =>
          AssignKeepsUniqueness(rows, id, password, paths, serviceAdmin, replies);
        case DeprovisionEvent(id) =>
          DeprovisionKeepsUniqueness(rows, id);
      }
      ReplayKeepsUniqueness(next, paths, serviceAdmin, events[1..]);
    }
  }
}
