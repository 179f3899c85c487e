/** A store query: the query text, its named parameters (an
    insertion-ordered dictionary, or `None`) and the cross-partition flag. */
module Queries {
  import opened Base
  import opened Text
  import opened Dicts
  import opened Json

  datatype Query = Query(queryStr: string, whereParams: Option<Dict>, enableCrossPartitionQuery: bool)

  /** One `{"name": k, "value": v}` entry handed to the store. */
  datatype Param = Param(name: string, value: Value)

  const QueryStrMissing := ValueError("'queryStr' must be defined.")

  /** `Query(queryStr, whereParams=None, enableCrossPartitionQuery=True)`:
      `None` or whitespace-only query text raises `ValueError`; `""` is
      accepted, since `"".isspace()` is false. */
  function NewQuery(queryStr: Option<string>, whereParams: Option<Dict> := None,
                    enableCrossPartitionQuery: bool := true): (r: Result<Query>)
    ensures r.Failure? <==> queryStr.None? || IsSpace(queryStr.value)
    ensures r.Failure? ==> r.error == QueryStrMissing
    ensures r.Success? ==>
      r.value.queryStr == queryStr.value && r.value.whereParams == whereParams &&
      r.value.enableCrossPartitionQuery == enableCrossPartitionQuery
  {
    if queryStr.None? || IsSpace(queryStr.value) then Failure(QueryStrMissing)
    else Success(Query(queryStr.value, whereParams, enableCrossPartitionQuery))
  }

  /** True when the query has at least one parameter. */
  predicate HasParams(q: Query) {
    q.whereParams.Some? && |q.whereParams.value| > 0
  }

  function Names(ps: seq<Param>): (ns: seq<string>)
    ensures |ns| == |ps|
  {
    seq(|ps|, i requires 0 <= i < |ps| => ps[i].name)
  }

  /** What `build_where_params` returns: `None` without parameters, else one
      entry per key in insertion order, carrying the value stored under it. */
  function WhereParamList(q: Query): (r: Option<seq<Param>>)
    ensures r.None? <==> !HasParams(q)
    ensures r.Some? ==> Names(r.value) == Keys(q.whereParams.value)
    ensures r.Some? ==> forall i :: 0 <= i < |r.value| ==> Get(q.whereParams.value, r.value[i].name) == Some(r.value[i].value)
  {
    if !HasParams(q) then None
    else
      var wp := q.whereParams.value;
      Some(seq(|wp|, i requires 0 <= i < |wp| => Param(wp[i].0, wp[i].1)))
  }

  /** `build_where_params`: walks the keys in order and appends one entry per
      key, looking its value up in the dictionary. The query is a value, so
      it is left as it was. */
  method BuildWhereParams(q: Query) returns (r: Option<seq<Param>>)
    ensures r == WhereParamList(q)
  {
    if q.whereParams.None? || |q.whereParams.value| == 0 {
      return None;
    }
    var wp := q.whereParams.value;
    var keys := Keys(wp);
    var paramList: seq<Param> := [];
    var i := 0;
    while i < |keys|
      invariant 0 <= i <= |keys|
      invariant |paramList| == i
      invariant forall j :: 0 <= j < i ==> paramList[j] == Param(wp[j].0, wp[j].1)
    {
      var k := keys[i];
      var v := Get(wp, k);
      paramList := paramList + [Param(k, v.value)];
      i := i + 1;
    }
    assert paramList == WhereParamList(q).value;
    return Some(paramList);
  }

  /** Python's rendering of a boolean. */
  function BoolText(b: bool): string {
    if b then "True" else "False"
  }

  /** `__str__`: the parameters appear as `"Not defined."` when there are
      none and as their JSON text otherwise; rendering raises `TypeError`
      when a parameter value is not JSON serialisable. */
  function Describe(q: Query): (r: Result<string>)
    ensures !HasParams(q) ==> r.Success?
    ensures r.Success? <==> !HasParams(q) || Serialisable(q.whereParams.value)
    ensures r.Success? ==> exists shown ::
      r.value == "'queryStr': '" + q.queryStr + "' | 'whereParams': '" + shown +
                 "' | 'enableCrossPartitionQuery': " + BoolText(q.enableCrossPartitionQuery) &&
      (if HasParams(q) then Success(shown) == DumpsDict(q.whereParams.value) else shown == "Not defined.")
  {
    var shown :- if HasParams(q) then DumpsDict(q.whereParams.value) else Success("Not defined.");
    Success("'queryStr': '" + q.queryStr + "' | 'whereParams': '" + shown +
            "' | 'enableCrossPartitionQuery': " + BoolText(q.enableCrossPartitionQuery))
  }
}
