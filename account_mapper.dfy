/** Mapping stored account documents (decoded JSON objects) to the wire
    model `AccountModel`. */
module AccountMapper {
  import opened Base
  import opened Dicts

  /** The wire model: five attributes, each holding whatever the payload had. */
  datatype AccountModel = AccountModel(accountId: Value, accountName: Value, accountType: Value,
                                       accountInstitution: Value, balance: Value)

  /** `AccountModel()`: every attribute `None` except the balance `"0.00"`. */
  const EmptyAccountModel := AccountModel(Null, Null, Null, Null, Str("0.00"))

  const PayloadMissing := TypeError("Cannot map empty JSON payload to model.")
  const PayloadsMissing := TypeError("The payload must be defined and not empty.")

  /** The payload has every key the mapper reads. */
  predicate HasAllKeys(payload: Dict) {
    "account_id" in Keys(payload) && "account_name" in Keys(payload) && "account_type" in Keys(payload) &&
    "account_institution" in Keys(payload) && "balance" in Keys(payload)
  }

  /** `payload[k]`: the value, or `KeyError`. */
  function Lookup(payload: Dict, k: string): (r: Result<Value>)
    ensures r.Success? <==> k in Keys(payload)
    ensures r.Success? ==> Get(payload, k) == Some(r.value)
    ensures r.Failure? ==> r.error == KeyError(k)
  {
    match Get(payload, k)
    case Some(v) => Success(v)
    case None => Failure(KeyError(k))
  }

  /** What `map_to_account_api_model` returns or raises: `None` raises
      `TypeError`; otherwise the five attributes are copied, and the first
      missing key (in the order above) raises `KeyError`. */
  function AccountModelOf(payload: Option<Dict>): (r: Result<AccountModel>)
    ensures payload.None? ==> r == Failure(PayloadMissing)
    ensures payload.Some? ==> (r.Success? <==> HasAllKeys(payload.value))
    ensures r.Success? ==>
      Get(payload.value, "account_id") == Some(r.value.accountId) &&
      Get(payload.value, "account_name") == Some(r.value.accountName) &&
      Get(payload.value, "account_type") == Some(r.value.accountType) &&
      Get(payload.value, "account_institution") == Some(r.value.accountInstitution) &&
      Get(payload.value, "balance") == Some(r.value.balance)
  {
    if payload.None? then Failure(PayloadMissing)
    else
      var p := payload.value;
      var accountId :- Lookup(p, "account_id");
      var accountName :- Lookup(p, "account_name");
      var accountType :- Lookup(p, "account_type");
      var accountInstitution :- Lookup(p, "account_institution");
      var balance :- Lookup(p, "balance");
      Success(AccountModel(accountId, accountName, accountType, accountInstitution, balance))
  }

  /** The keys are read in the order account id, name, type, institution,
      balance, and the first one missing is the one reported. */
  lemma FirstMissingKeyReported(payload: Dict)
    ensures "account_id" !in Keys(payload) ==> AccountModelOf(Some(payload)) == Failure(KeyError("account_id"))
    ensures "account_id" in Keys(payload) && "account_name" !in Keys(payload) ==>
      AccountModelOf(Some(payload)) == Failure(KeyError("account_name"))
    ensures ("account_id" in Keys(payload) && "account_name" in Keys(payload) &&
             "account_type" !in Keys(payload)) ==> AccountModelOf(Some(payload)) == Failure(KeyError("account_type"))
    ensures ("account_id" in Keys(payload) && "account_name" in Keys(payload) &&
             "account_type" in Keys(payload) && "account_institution" !in Keys(payload)) ==>
      AccountModelOf(Some(payload)) == Failure(KeyError("account_institution"))
    ensures ("account_id" in Keys(payload) && "account_name" in Keys(payload) &&
             "account_type" in Keys(payload) && "account_institution" in Keys(payload) &&
             "balance" !in Keys(payload)) ==> AccountModelOf(Some(payload)) == Failure(KeyError("balance"))
  {
  }

  /** `map_to_account_api_model`: starts from an empty `AccountModel` and
      fills it attribute by attribute from the payload. */
  method MapToAccountApiModel(payload: Option<Dict>) returns (r: Result<AccountModel>)
    ensures r == AccountModelOf(payload)
  {
    if payload.None? {
      return Failure(PayloadMissing);
    }
    var p := payload.value;
    var account := EmptyAccountModel;
    var v := Lookup(p, "account_id");
    if v.Failure? { return Failure(v.error); }
    account := account.(accountId := v.value);
    v := Lookup(p, "account_name");
    if v.Failure? { return Failure(v.error); }
    account := account.(accountName := v.value);
    v := Lookup(p, "account_type");
    if v.Failure? { return Failure(v.error); }
    account := account.(accountType := v.value);
    v := Lookup(p, "account_institution");
    if v.Failure? { return Failure(v.error); }
    account := account.(accountInstitution := v.value);
    v := Lookup(p, "balance");
    if v.Failure? { return Failure(v.error); }
    account := account.(balance := v.value);
    return Success(account);
  }

  /** True when `f` succeeds on every element. */
  ghost predicate AllMap<P, M>(f: P -> Result<M>, ps: seq<P>) {
    forall i :: 0 <= i < |ps| ==> f(ps[i]).Success?
  }

  /** Mapping a list in order with `f`: the results, or the exception of the
      first element on which `f` fails. */
  function MapEach<P, M>(f: P -> Result<M>, ps: seq<P>): Result<seq<M>>
  {
    if ps == [] then Success([])
    else
      var init :- MapEach(f, ps[..|ps| - 1]);
      var last :- f(ps[|ps| - 1]);
      Success(init + [last])
  }

  /** The list maps exactly when every element maps. */
  lemma {:induction false} MapEachSucceedsIffAllMap<P, M>(f: P -> Result<M>, ps: seq<P>)
    ensures MapEach(f, ps).Success? <==> AllMap(f, ps)
  {
    if ps != [] {
      var init := ps[..|ps| - 1];
      MapEachSucceedsIffAllMap(f, init);
      if AllMap(f, ps) {
        forall i | 0 <= i < |init|
          ensures f(init[i]).Success?
        {
          assert init[i] == ps[i];
        }
      } else {
        var k :| 0 <= k < |ps| && f(ps[k]).Failure?;
        if k < |init| {
          assert init[k] == ps[k];
          assert !AllMap(f, init);
        } else {
          assert k == |ps| - 1;
        }
      }
    }
  }

  /** A successful mapping has the input's length, and element i is the
      result of `f` on element i. */
  lemma {:induction false} MapEachPreservesOrder<P, M>(f: P -> Result<M>, ps: seq<P>)
    ensures MapEach(f, ps).Success? ==>
      |MapEach(f, ps).value| == |ps| && forall i :: 0 <= i < |ps| ==> f(ps[i]) == Success(MapEach(f, ps).value[i])
  {
    if ps != [] && MapEach(f, ps).Success? {
      var init := ps[..|ps| - 1];
      MapEachPreservesOrder(f, init);
      var results := MapEach(f, ps).value;
      var initResults := MapEach(f, init).value;
      assert results == initResults + [f(ps[|ps| - 1]).value];
      forall i | 0 <= i < |ps|
        ensures f(ps[i]) == Success(results[i])
      {
        if i < |init| {
          assert init[i] == ps[i];
          assert results[i] == initResults[i];
        }
      }
    }
  }

  /** A failed mapping reports the exception of the first element that does
      not map. */
  lemma {:induction false} MapEachFailsAtFirst<P, M>(f: P -> Result<M>, ps: seq<P>)
    ensures MapEach(f, ps).Failure? ==>
      exists i :: 0 <= i < |ps| && f(ps[i]) == Failure(MapEach(f, ps).error) &&
                  forall j :: 0 <= j < i ==> f(ps[j]).Success?
  {
    if ps != [] && MapEach(f, ps).Failure? {
      var init := ps[..|ps| - 1];
      if MapEach(f, init).Failure? {
        MapEachFailsAtFirst(f, init);
        var i :| 0 <= i < |init| && f(init[i]) == Failure(MapEach(f, init).error) &&
                 forall j :: 0 <= j < i ==> f(init[j]).Success?;
        assert init[i] == ps[i];
        forall j | 0 <= j < i
          ensures f(ps[j]).Success?
        {
          assert init[j] == ps[j];
        }
      } else {
        MapEachSucceedsIffAllMap(f, init);
        forall j | 0 <= j < |init|
          ensures f(ps[j]).Success?
        {
          assert init[j] == ps[j];
        }
        assert f(ps[|ps| - 1]) == Failure(MapEach(f, ps).error);
      }
    }
  }

  /** Once a prefix fails to map, the whole list fails with the same
      exception. */
  lemma {:induction false} FailureSticks<P, M>(f: P -> Result<M>, ps: seq<P>, n: nat)
    requires n <= |ps|
    requires MapEach(f, ps[..n]).Failure?
    ensures MapEach(f, ps) == MapEach(f, ps[..n])
    decreases |ps| - n
  {
    if n == |ps| {
      assert ps[..n] == ps;
    } else {
      assert ps[..n + 1][..n] == ps[..n];
      FailureSticks(f, ps, n + 1);
    }
  }

  /** `map_to_account_api_models`: `None` or an empty list raises
      `TypeError`; otherwise each payload is mapped in order, and the first
      one that fails makes the whole call fail with its exception, so no
      partial list is ever returned. */
  method MapToAccountApiModels(payloads: Option<seq<Option<Dict>>>) returns (r: Result<seq<AccountModel>>)
    ensures payloads.None? || payloads.value == [] ==> r == Failure(PayloadsMissing)
    ensures payloads.Some? && payloads.value != [] ==> r == MapEach(AccountModelOf, payloads.value)
    ensures r.Success? ==>
      |r.value| == |payloads.value| &&
      forall i :: 0 <= i < |payloads.value| ==> AccountModelOf(payloads.value[i]) == Success(r.value[i])
  {
    if payloads.None? || |payloads.value| == 0 {
      return Failure(PayloadsMissing);
    }
    var ps := payloads.value;
    var accounts: seq<AccountModel> := [];
    var i := 0;
    while i < |ps|
      invariant 0 <= i <= |ps|
      invariant MapEach(AccountModelOf, ps[..i]) == Success(accounts)
    {
      var account := MapToAccountApiModel(ps[i]);
      assert ps[..i + 1][..i] == ps[..i];
      if account.Failure? {
        FailureSticks(AccountModelOf, ps, i + 1);
        return Failure(account.error);
      }
      accounts := accounts + [account.value];
      i := i + 1;
    }
    assert ps[..i] == ps;
    MapEachPreservesOrder(AccountModelOf, ps);
    return Success(accounts);
  }
}
