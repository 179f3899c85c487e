/** The stored account record: its field checks, run in a fixed order, and
    the id derived from `account_id`. */
module Accounts {
  import opened Base
  import opened Text
  import opened Entities

  const CollectionName := "account"

  /** `Decimal("0.00")`, the default balance. */
  const DefaultBalance := Decimal(0, -2)

  const AccountIdMissing := ValueError("'account_id' must be defined.")
  const AccountNameMissing := ValueError("'account_name' must be defined.")
  const AccountTypeMissing := ValueError("'account_type' must be defined.")
  const AccountInstitutionMissing := ValueError("'account_institution' must be defined.")
  const BalanceMissing := TypeError("'balance' must be defined.")

  /** The test `(not s or s.isspace()) and s != ""` used for the optional
      text fields: true for `None` and for whitespace-only text, false for
      `""` and for any text with a visible character. */
  predicate RejectedText(s: Option<string>) {
    (s.None? || s.value == "" || IsSpace(s.value)) && s != Some("")
  }

  /** `__validate_account_id`. */
  function ValidateAccountId(accountId: Option<string>): (r: Check)
    ensures r.Fail? <==> IsBlank(accountId)
    ensures r.Fail? ==> r.error == AccountIdMissing
  {
    if IsBlank(accountId) then Fail(AccountIdMissing) else Pass
  }

  /** `__validate_params`: the checks in the order account_id, name, type,
      institution, balance; the first that fails decides the exception. */
  function ValidateParams(accountId: Option<string>, accountName: Option<string>, accountType: Option<string>,
                          accountInstitution: Option<string>, balance: Option<Decimal>): (r: Check)
    ensures r.Pass? <==>
      !IsBlank(accountId) && accountName.Some? && !IsSpace(accountName.value) &&
      accountType.Some? && !IsSpace(accountType.value) &&
      accountInstitution.Some? && !IsSpace(accountInstitution.value) && balance.Some?
    ensures IsBlank(accountId) ==> r == Fail(AccountIdMissing)
    ensures !IsBlank(accountId) && RejectedText(accountName) ==> r == Fail(AccountNameMissing)
    ensures !IsBlank(accountId) && !RejectedText(accountName) && RejectedText(accountType) ==> r == Fail(AccountTypeMissing)
    ensures (!IsBlank(accountId) && !RejectedText(accountName) && !RejectedText(accountType) &&
             RejectedText(accountInstitution)) ==> r == Fail(AccountInstitutionMissing)
    ensures (!IsBlank(accountId) && !RejectedText(accountName) && !RejectedText(accountType) &&
             !RejectedText(accountInstitution) && balance.None?) ==> r == Fail(BalanceMissing)
  {
    var idCheck := ValidateAccountId(accountId);
    if idCheck.Fail? then idCheck
    else if RejectedText(accountName) then Fail(AccountNameMissing)
    else if RejectedText(accountType) then Fail(AccountTypeMissing)
    else if RejectedText(accountInstitution) then Fail(AccountInstitutionMissing)
    else if balance == None then Fail(BalanceMissing)
    else Pass
  }

  /** The empty string passes every optional text check. */
  lemma EmptyTextAccepted(accountId: string, balance: Decimal)
    requires !IsBlank(Some(accountId))
    ensures ValidateParams(Some(accountId), Some(""), Some(""), Some(""), Some(balance)) == Pass
  {
  }

  /** An id that is already normalised is only prefixed. */
  lemma DeriveIdOfNormalised(collectionName: string, x: string)
    requires x != [] && WhitespaceFree(x) && LowerCase(x)
    ensures DeriveId(collectionName, Some(x)) == Success(collectionName + "::" + x)
  {
    assert !IsWhitespace(x[0]);
    RemoveWhitespaceOfFree(x);
    ToLowerOfLower(x);
  }

  /** The derived id of the account the mapper tests build:
      `account_id` `"some_id"` gives `"account::some_id"`. */
  lemma SomeIdExample()
    ensures DeriveId(CollectionName, Some("some_id")) == Success("account::some_id")
  {
    var x := "some_id";
    assert WhitespaceFree(x) && LowerCase(x) by {
      forall i | 0 <= i < |x| ensures !IsWhitespace(x[i]) && !('A' <= x[i] <= 'Z') {
      }
    }
    DeriveIdOfNormalised(CollectionName, x);
    assert CollectionName + "::" + x == "account::some_id";
  }

  /** An account record. Dafny classes have no inheritance, so the `Entity`
      part (which holds `id`) is a field. */
  class Account {
    const entity: Entity
    var accountId: string
    var accountName: string
    var accountType: string
    var accountInstitution: string
    var balance: Decimal

    constructor Init(entity: Entity, accountId: string, accountName: string, accountType: string,
                     accountInstitution: string, balance: Decimal)
      ensures this.entity == entity && this.accountId == accountId && this.accountName == accountName
      ensures this.accountType == accountType && this.accountInstitution == accountInstitution
      ensures this.balance == balance
    {
      this.entity := entity;
      this.accountId := accountId;
      this.accountName := accountName;
      this.accountType := accountType;
      this.accountInstitution := accountInstitution;
      this.balance := balance;
    }

    /** `Account(...)`: validates, derives `id` from `account_id` and keeps
        every other argument exactly as given. */
    static method New(accountId: Option<string>, accountName: Option<string> := Some(""),
                      accountType: Option<string> := Some(""), accountInstitution: Option<string> := Some(""),
                      balance: Option<Decimal> := Some(DefaultBalance))
      returns (r: Result<Account>)
      ensures var check := ValidateParams(accountId, accountName, accountType, accountInstitution, balance);
        (r.Failure? <==> check.Fail?) && (r.Failure? ==> r.error == check.error)
      ensures r.Success? ==>
        fresh(r.value) && fresh(r.value.entity) &&
        r.value.entity.collectionName == CollectionName &&
        Success(r.value.entity.id) == DeriveId(CollectionName, accountId) &&
        r.value.accountId == accountId.value && r.value.accountName == accountName.value &&
        r.value.accountType == accountType.value && r.value.accountInstitution == accountInstitution.value &&
        r.value.balance == balance.value
    {
      var entity := new Entity(CollectionName);
      var check := ValidateParams(accountId, accountName, accountType, accountInstitution, balance);
      if check.Fail? {
        return Failure(check.error);
      }
      var id := entity.CreateId(accountId);
      entity.id := id.value;
      var account := new Account.Init(entity, accountId.value, accountName.value, accountType.value,
                                      accountInstitution.value, balance.value);
      return Success(account);
    }
  }
}
