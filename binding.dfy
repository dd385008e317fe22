/** The parameter-binding plan of prepareAndBind: which value is bound where.
    mysqli binds every value as a string ('s'); PDO binds the value at
    0-based index k at 1-based position k + 1. */
module Binding {
  import opened Php

  datatype Binding =
    | Position(index: nat, value: Value)   // PDOStatement::bindValue(index, value)
    | Typed(types: string, value: Value)   // mysqli_stmt::bind_param(types, value)

  /** The binding made for the parameter at 0-based index k. */
  function BindingFor(dbType: string, k: nat, value: Value): Binding {
    if dbType == "mysql" then Typed("s", value) else Position(k + 1, value)
  }

  /** The whole plan for a list of parameters, in their order. */
  function Plan(dbType: string, params: seq<Value>): seq<Binding> {
    seq(|params|, k requires 0 <= k < |params| => BindingFor(dbType, k, params[k]))
  }

  /** The values a plan binds, in the order it binds them. */
  function BoundValues(plan: seq<Binding>): seq<Value> {
    seq(|plan|, k requires 0 <= k < |plan| => plan[k].value)
  }

  /** The loops of prepareAndBind: one binding per parameter, in parameter order,
      dispatched once on the database type. */
  method BindParams(dbType: string, params: seq<Value>) returns (plan: seq<Binding>)
    ensures plan == Plan(dbType, params)
  {
    plan := [];
    if dbType == "mysql" {
      for k := 0 to |params|
        invariant |plan| == k
        invariant forall j :: 0 <= j < k ==> plan[j] == Typed("s", params[j])
      {
        plan := plan + [Typed("s", params[k])];
      }
    } else {
      for k := 0 to |params|
        invariant |plan| == k
        invariant forall j :: 0 <= j < k ==> plan[j] == Position(j + 1, params[j])
      {
        plan := plan + [Position(k + 1, params[k])];
      }
    }
  }

  /** Every parameter is bound, and the bound values are the parameters in their order. */
  lemma PlanBindsParamsInOrder(dbType: string, params: seq<Value>)
    ensures |Plan(dbType, params)| == |params|
    ensures BoundValues(Plan(dbType, params)) == params
  {
  }

  /** On mysqli every value is bound with the string type 's'. */
  lemma MysqlBindsStrings(params: seq<Value>)
    ensures forall k :: 0 <= k < |params| ==> Plan("mysql", params)[k] == Typed("s", params[k])
  {
  }

  /** Some binding of the plan targets the 1-based position p. */
  predicate BindsPosition(plan: seq<Binding>, p: nat) {
    exists k :: 0 <= k < |plan| && plan[k].Position? && plan[k].index == p
  }

  /** On PDO the positions 1..n are each bound exactly once. */
  lemma PdoPositionsBoundOnce(dbType: string, params: seq<Value>)
    requires dbType != "mysql"
    ensures forall k :: 0 <= k < |params| ==> Plan(dbType, params)[k].Position?
    ensures forall k :: 0 <= k < |params| ==> 1 <= Plan(dbType, params)[k].index <= |params|
    ensures forall j, k :: 0 <= j < |params| && 0 <= k < |params| && Plan(dbType, params)[j].index == Plan(dbType, params)[k].index ==> j == k
    ensures forall p: nat :: 1 <= p <= |params| ==> BindsPosition(Plan(dbType, params), p)
  {
    var plan := Plan(dbType, params);
    forall p: nat | 1 <= p <= |params|
      ensures BindsPosition(plan, p)
    {
      assert plan[p - 1].index == p;
    }
  }
}
