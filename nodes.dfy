/**
 * The two derived columns of a node: STATUS, from the first condition of
 * type "Ready", and ROLES, from the node's labels.
 */
module Nodes {

  /** One entry of a node's status conditions. */
  datatype Condition = Condition(condType: string, status: string)

  const Ready: string := "Ready"
  const NotReady: string := "NotReady"

  /**
   * STATUS: decided by the first condition of type "Ready" alone; a node
   * that reports none is shown as Ready.
   */
  function NodeStatus(conditions: seq<Condition>): (status: string)
    ensures status == Ready || status == NotReady
  {
    if conditions == [] then Ready
    else if conditions[0].condType == "Ready" then
      (if conditions[0].status != "True" then NotReady else Ready)
    else NodeStatus(conditions[1..])
  }

  /** Condition i is the first one of type "Ready". */
  predicate FirstReadyAt(conditions: seq<Condition>, i: int) {
    && 0 <= i < |conditions|
    && conditions[i].condType == "Ready"
    && forall j :: 0 <= j < i ==> conditions[j].condType != "Ready"
  }

  /** NotReady exactly when the first "Ready" condition has a status other than "True". */
  lemma {:induction false} NotReadyIffFirstReadyConditionNotTrue(conditions: seq<Condition>)
    ensures NodeStatus(conditions) == NotReady
            <==> exists i :: FirstReadyAt(conditions, i) && conditions[i].status != "True"
    decreases |conditions|
  {
    if conditions != [] {
      if conditions[0].condType == "Ready" {
        if conditions[0].status != "True" {
          assert FirstReadyAt(conditions, 0);
        } else {
          forall i | FirstReadyAt(conditions, i) ensures i == 0 {
          }
        }
      } else {
        var tail := conditions[1..];
        NotReadyIffFirstReadyConditionNotTrue(tail);
        forall i ensures FirstReadyAt(conditions, i) <==> i >= 1 && FirstReadyAt(tail, i - 1) {
          if i >= 1 && FirstReadyAt(tail, i - 1) {
            forall j | 0 <= j < i ensures conditions[j].condType != "Ready" {
              if j > 0 { assert conditions[j] == tail[j - 1]; }
            }
          }
          if FirstReadyAt(conditions, i) {
            forall j | 0 <= j < i - 1 ensures tail[j].condType != "Ready" {
              assert tail[j] == conditions[j + 1];
            }
          }
        }
        if NodeStatus(conditions) == NotReady {
          var i :| FirstReadyAt(tail, i) && tail[i].status != "True";
          assert FirstReadyAt(conditions, i + 1);
        }
      }
    }
  }

  /** Conditions after the first "Ready" one are never looked at. */
  lemma {:induction false} LaterConditionsIgnored(conditions: seq<Condition>, later: seq<Condition>)
    requires exists i :: 0 <= i < |conditions| && conditions[i].condType == "Ready"
    ensures NodeStatus(conditions + later) == NodeStatus(conditions)
    decreases |conditions|
  {
    assert (conditions + later)[0] == conditions[0];
    if conditions[0].condType != "Ready" {
      var i :| 0 <= i < |conditions| && conditions[i].condType == "Ready";
      assert conditions[1..][i - 1] == conditions[i];
      assert (conditions + later)[1..] == conditions[1..] + later;
      LaterConditionsIgnored(conditions[1..], later);
    }
  }

  /** The loop over the conditions that breaks at the first "Ready" one. */
  method ScanNodeStatus(conditions: seq<Condition>) returns (status: string)
    ensures status == NodeStatus(conditions)
  {
    status := Ready;
    for i := 0 to |conditions|
      invariant status == Ready
      invariant NodeStatus(conditions[i..]) == NodeStatus(conditions)
    {
      assert conditions[i..][0] == conditions[i];
      if conditions[i].condType == "Ready" {
        if conditions[i].status != "True" {
          status := NotReady;
        }
        break;
      }
      assert conditions[i..][1..] == conditions[i + 1..];
    }
  }

  const RoleLabel: string := "kubernetes.io/role"
  const MasterLabel: string := "node-role.kubernetes.io/master"
  const ControlPlaneLabel: string := "node-role.kubernetes.io/control-plane"

  /** The label is present with the value "true". */
  predicate FlagSet(labels: map<string, string>, key: string) {
    key in labels && labels[key] == "true"
  }

  /**
   * ROLES, first match wins: the value of the role label whenever it is
   * present (even empty), then "master", then "control-plane", else "<none>".
   */
  function Roles(labels: map<string, string>): (roles: string)
    ensures RoleLabel in labels ==> roles == labels[RoleLabel]
    ensures RoleLabel !in labels && FlagSet(labels, MasterLabel) ==> roles == "master"
    ensures (RoleLabel !in labels && !FlagSet(labels, MasterLabel)
             && FlagSet(labels, ControlPlaneLabel)) ==> roles == "control-plane"
    ensures (RoleLabel !in labels && !FlagSet(labels, MasterLabel)
             && !FlagSet(labels, ControlPlaneLabel)) ==> roles == "<none>"
  {
    if RoleLabel in labels then labels[RoleLabel]
    else if FlagSet(labels, MasterLabel) then "master"
    else if FlagSet(labels, ControlPlaneLabel) then "control-plane"
    else "<none>"
  }

  /** The role label wins over the master and control-plane labels. */
  lemma ExplicitRoleWins(labels: map<string, string>)
    requires labels == map[RoleLabel := "worker", MasterLabel := "true"]
    ensures Roles(labels) == "worker"
  {
  }
}
