/**
 * getReadyContainers and getTotalRestarts: the two loops over a pod's
 * container statuses behind its READY and RESTARTS columns.
 */
module Containers {
  import opened GoTypes

  /** The two fields of a container status the monitor reads. */
  datatype ContainerStatus = ContainerStatus(ready: bool, restartCount: int32)

  /** The number of statuses whose container is ready. */
  function CountReady(statuses: seq<ContainerStatus>): (n: nat)
    ensures n <= |statuses|
  {
    if statuses == [] then 0
    else (if statuses[0].ready then 1 else 0) + CountReady(statuses[1..])
  }

  /**
   * The sum of the restart counts, as an unbounded integer; each count is
   * an int32, so the sum stays within |statuses| times the int32 range.
   */
  function SumRestarts(statuses: seq<ContainerStatus>): (total: int)
    ensures -0x8000_0000 * |statuses| <= total <= 0x7fff_ffff * |statuses|
  {
    if statuses == [] then 0
    else statuses[0].restartCount as int + SumRestarts(statuses[1..])
  }

  /** Appending a status adds one to the ready count exactly when it is ready. */
  lemma {:induction false} CountReadyAppend(statuses: seq<ContainerStatus>, s: ContainerStatus)
    ensures CountReady(statuses + [s]) == CountReady(statuses) + (if s.ready then 1 else 0)
    decreases |statuses|
  {
    if statuses != [] {
      assert (statuses + [s])[1..] == statuses[1..] + [s];
      CountReadyAppend(statuses[1..], s);
    }
  }

  /** Appending a status adds exactly its restart count. */
  lemma {:induction false} SumRestartsAppend(statuses: seq<ContainerStatus>, s: ContainerStatus)
    ensures SumRestarts(statuses + [s]) == SumRestarts(statuses) + s.restartCount as int
    decreases |statuses|
  {
    if statuses != [] {
      assert (statuses + [s])[1..] == statuses[1..] + [s];
      SumRestartsAppend(statuses[1..], s);
    }
  }

  /** The positions of the ready containers. */
  function ReadyPositions(statuses: seq<ContainerStatus>): set<nat>
  {
    set i: nat | i < |statuses| && statuses[i].ready
  }

  /** The ready count is the number of positions whose status says ready. */
  lemma {:induction false} CountReadyCountsReadyPositions(statuses: seq<ContainerStatus>)
    ensures CountReady(statuses) == |ReadyPositions(statuses)|
    decreases |statuses|
  {
    if statuses != [] {
      var n := |statuses| - 1;
      var init, last := statuses[..n], statuses[n];
      assert statuses == init + [last];
      CountReadyCountsReadyPositions(init);
      CountReadyAppend(init, last);
      if last.ready {
        assert ReadyPositions(statuses) == ReadyPositions(init) + {n};
      } else {
        assert ReadyPositions(statuses) == ReadyPositions(init);
      }
    }
  }

  /** With no negative counts (the API never reports one), the total bounds every count. */
  lemma {:induction false} RestartsBoundEachCount(statuses: seq<ContainerStatus>, i: nat)
    requires forall k :: 0 <= k < |statuses| ==> statuses[k].restartCount >= 0
    requires i < |statuses|
    ensures 0 <= statuses[i].restartCount as int <= SumRestarts(statuses)
    decreases |statuses|
  {
    if i > 0 {
      RestartsBoundEachCount(statuses[1..], i - 1);
    } else if |statuses| > 1 {
      RestartsBoundEachCount(statuses[1..], 0);
    }
  }

  method GetReadyContainers(statuses: seq<ContainerStatus>) returns (ready: int)
    ensures ready == CountReady(statuses)
  {
    ready := 0;
    for i := 0 to |statuses|
      invariant ready == CountReady(statuses[..i])
    {
      assert statuses[..i + 1] == statuses[..i] + [statuses[i]];
      CountReadyAppend(statuses[..i], statuses[i]);
      if statuses[i].ready {
        ready := ready + 1;
      }
    }
    assert statuses[..|statuses|] == statuses;
  }

  method GetTotalRestarts(statuses: seq<ContainerStatus>) returns (restarts: int)
    ensures restarts == SumRestarts(statuses)
  {
    restarts := 0;
    for i := 0 to |statuses|
      invariant restarts == SumRestarts(statuses[..i])
    {
      assert statuses[..i + 1] == statuses[..i] + [statuses[i]];
      SumRestartsAppend(statuses[..i], statuses[i]);
      restarts := restarts + statuses[i].restartCount as int;
    }
    assert statuses[..|statuses|] == statuses;
  }
}
