/** The GET /accounts parameter checks and the query they lead to. Both
    functions are modelled as written; where the code does not do what its
    messages, tests or evident intent say, a corrected twin sits beside the
    as-written one and lemmas show the difference. */
module AccountsRouter {
  import opened Base
  import opened Text
  import opened Dicts
  import opened Queries

  /** Largest page size; the settings class defines no such field, so the
      value is taken from the message "between 1 to 100 inclusive". */
  const MaxPageSize: nat := 100

  /** Name of the accounts container; the settings class defines no such
      field, so any fixed name stands for it. */
  const AccountsContainerId: string := "accounts"

  const IdInvalid := InvalidParameterError("id is invalid (did you pass only spaces?).")
  const AccountIdInvalid := InvalidParameterError("account_id is invalid (did you pass only spaces?).")
  const AccountNameInvalid := InvalidParameterError("account_name is invalid (did you pass only spaces?).")
  const AccountTypeInvalid := InvalidParameterError("account_type is invalid (did you pass only spaces?).")
  const AccountInstitutionInvalid := InvalidParameterError("account_institution is invalid (did you pass only spaces?).")
  const BalanceInvalid := InvalidParameterError("balance must be defined as a monetary value with exactly 2 decimal places. Example: '1000.00'.")
  const PageInvalid := InvalidParameterError("page must be greater than 1.")
  const ResultsPerPageInvalid := InvalidParameterError("results_per_page must be between 1 to 100 inclusive.")
  const BalanceIsNone := AttributeError("'NoneType' object has no attribute 'as_tuple'")

  /** The first check that fails, or the second when the first passes. */
  function AndThen(first: Check, second: Check): Check {
    if first.Fail? then first else second
  }

  // ---------------------------------------------------------------------------
  // __validate_get_accounts_param

  /** The four whitespace checks that work as intended. */
  function ValidateSearchText(id: string, accountId: string, accountName: string, accountType: string): (r: Check)
    ensures r.Pass? <==> !IsSpace(id) && !IsSpace(accountId) && !IsSpace(accountName) && !IsSpace(accountType)
    ensures IsSpace(id) ==> r == Fail(IdInvalid)
    ensures !IsSpace(id) && IsSpace(accountId) ==> r == Fail(AccountIdInvalid)
    ensures !IsSpace(id) && !IsSpace(accountId) && IsSpace(accountName) ==> r == Fail(AccountNameInvalid)
    ensures (!IsSpace(id) && !IsSpace(accountId) && !IsSpace(accountName) && IsSpace(accountType)) ==>
      r == Fail(AccountTypeInvalid)
  {
    if IsSpace(id) then Fail(IdInvalid)
    else if IsSpace(accountId) then Fail(AccountIdInvalid)
    else if IsSpace(accountName) then Fail(AccountNameInvalid)
    else if IsSpace(accountType) then Fail(AccountTypeInvalid)
    else Pass
  }

  /** `if account_institution.isspace:` tests the bound method object, which
      is always truthy, so this check raises whatever the text is. */
  function InstitutionCheckAsWritten(accountInstitution: string): (r: Check)
    ensures r == Fail(AccountInstitutionInvalid)
  {
    var boundMethodIsTruthy := true;
    if boundMethodIsTruthy then Fail(AccountInstitutionInvalid) else Pass
  }

  /** `if balance.as_tuple().exponent != 2:` accepts only exponent +2, and a
      missing balance (`None`, the handler's default) has no `as_tuple`. */
  function BalanceCheckAsWritten(balance: Option<Decimal>): (r: Check)
    ensures r.Pass? <==> balance.Some? && balance.value.exponent == 2
    ensures balance.None? ==> r == Fail(BalanceIsNone)
    ensures balance.Some? && balance.value.exponent != 2 ==> r == Fail(BalanceInvalid)
  {
    if balance.None? then Fail(BalanceIsNone)
    else if balance.value.exponent != 2 then Fail(BalanceInvalid)
    else Pass
  }

  /** The page and page-size range checks. */
  function ValidatePaging(page: int, resultsPerPage: int): (r: Check)
    ensures r.Pass? <==> page > 0 && 1 <= resultsPerPage <= MaxPageSize
    ensures page <= 0 ==> r == Fail(PageInvalid)
    ensures page > 0 && !(1 <= resultsPerPage <= MaxPageSize) ==> r == Fail(ResultsPerPageInvalid)
  {
    if page <= 0 then Fail(PageInvalid)
    else if resultsPerPage <= 0 || resultsPerPage > MaxPageSize then Fail(ResultsPerPageInvalid)
    else Pass
  }

  /** `__validate_get_accounts_param` as written. */
  function ValidateGetAccountsParam(id: string, accountId: string, accountName: string, accountType: string,
                                    accountInstitution: string, balance: Option<Decimal>,
                                    page: int, resultsPerPage: int): Check
  {
    AndThen(ValidateSearchText(id, accountId, accountName, accountType),
      AndThen(InstitutionCheckAsWritten(accountInstitution),
        AndThen(BalanceCheckAsWritten(balance), ValidatePaging(page, resultsPerPage))))
  }

  /** As written, no call gets past the institution check: a whitespace-only
      id, account_id, name or type is reported first, and otherwise the
      institution message is raised, whatever the institution, balance and
      paging are. */
  lemma ValidateGetAccountsParamAlwaysRaises(id: string, accountId: string, accountName: string, accountType: string,
                                             accountInstitution: string, balance: Option<Decimal>,
                                             page: int, resultsPerPage: int)
    ensures var r := ValidateGetAccountsParam(id, accountId, accountName, accountType, accountInstitution,
                                              balance, page, resultsPerPage);
      r.Fail? && r.error.InvalidParameterError? &&
      r == AndThen(ValidateSearchText(id, accountId, accountName, accountType), Fail(AccountInstitutionInvalid))
  {
  }

  /** As written, the documented example balance `"1000.00"` (exponent -2)
      is rejected, and exponent +2 (`Decimal("1E+2")`, that is 100) passes. */
  lemma BalanceCheckAsWrittenRejectsTwoPlaces()
    ensures BalanceCheckAsWritten(Some(Decimal(100000, -2))) == Fail(BalanceInvalid)
    ensures BalanceCheckAsWritten(Some(Decimal(1, 2))) == Pass
  {
  }

  /** The institution check as intended: `account_institution.isspace()`. */
  function InstitutionCheck(accountInstitution: string): (r: Check)
    ensures r.Pass? <==> !IsSpace(accountInstitution)
    ensures r.Fail? ==> r == Fail(AccountInstitutionInvalid)
  {
    if IsSpace(accountInstitution) then Fail(AccountInstitutionInvalid) else Pass
  }

  /** The balance check as intended: no balance filter, or exactly two
      fractional digits (exponent -2). */
  function BalanceCheck(balance: Option<Decimal>): (r: Check)
    ensures r.Pass? <==> balance.None? || balance.value.exponent == -2
    ensures r.Fail? ==> r == Fail(BalanceInvalid)
  {
    if balance.Some? && balance.value.exponent != -2 then Fail(BalanceInvalid) else Pass
  }

  /** `__validate_get_accounts_param` with lines 94 and 97 corrected. */
  function ValidateGetAccountsParamFixed(id: string, accountId: string, accountName: string, accountType: string,
                                         accountInstitution: string, balance: Option<Decimal>,
                                         page: int, resultsPerPage: int): (r: Check)
    ensures r.Pass? <==>
      !IsSpace(id) && !IsSpace(accountId) && !IsSpace(accountName) && !IsSpace(accountType) &&
      !IsSpace(accountInstitution) && (balance.None? || balance.value.exponent == -2) &&
      page > 0 && 1 <= resultsPerPage <= MaxPageSize
    ensures r.Fail? ==> r.error.InvalidParameterError?
  {
    AndThen(ValidateSearchText(id, accountId, accountName, accountType),
      AndThen(InstitutionCheck(accountInstitution),
        AndThen(BalanceCheck(balance), ValidatePaging(page, resultsPerPage))))
  }

  /** With the corrections, the documented request shape passes: empty
      filters, balance `"1000.00"`, page 1, ten per page. */
  lemma FixedValidatorAcceptsExample()
    ensures ValidateGetAccountsParamFixed("", "", "", "", "", Some(Decimal(100000, -2)), 1, 10) == Pass
    ensures ValidateGetAccountsParamFixed("", "", "", "", "", Some(Decimal(10000, -1)), 1, 10) == Fail(BalanceInvalid)
  {
  }

  // ---------------------------------------------------------------------------
  // __build_get_query

  /** The offset as written: `page * MAX_PAGE_SIZE` past the first page. */
  function OffsetAsWritten(page: int): (o: int)
    ensures o >= 0
    ensures page <= 1 ==> o == 0
  {
    if page > 1 then page * MaxPageSize else 0
  }

  /** As written, page 2 starts `2 * MAX_PAGE_SIZE` rows in, so with any
      valid page size the rows between the end of page 1 and the start of
      page 2 are never returned. */
  lemma OffsetAsWrittenSkipsRows(resultsPerPage: int)
    requires 1 <= resultsPerPage <= MaxPageSize
    ensures OffsetAsWritten(1) + resultsPerPage < OffsetAsWritten(2)
  {
  }

  /** The offset as intended: the rows of the earlier pages. */
  function Offset(page: int, resultsPerPage: int): (o: int)
    requires resultsPerPage >= 1
    ensures o >= 0
    ensures page <= 1 ==> o == 0
  {
    if page > 1 then (page - 1) * resultsPerPage else 0
  }

  /** Corrected pages are contiguous: each starts where the previous ends. */
  lemma OffsetPagesAreContiguous(page: int, resultsPerPage: int)
    requires page >= 1 && resultsPerPage >= 1
    ensures Offset(page + 1, resultsPerPage) == Offset(page, resultsPerPage) + resultsPerPage
  {
  }

  /** The text appended after the predicate: `" LIMIT {1} OFFSET {2}"`. */
  function Paging(limit: int, offset: int): string {
    " LIMIT " + IntToString(limit) + " OFFSET " + IntToString(offset)
  }

  /** `"SELECT * FROM {0} WHERE ".format(ACCOUNTS_CONTAINER_ID)`. */
  function SelectPrefix(): string {
    "SELECT * FROM " + AccountsContainerId + " WHERE "
  }

  /** The placeholders the two lookups declare. */
  const IdPlaceholder := "@id"
  const AccountIdPlaceholder := "@account_id"

  /** `"{0}.id=@id".format(ACCOUNTS_CONTAINER_ID)`. */
  function IdPredicate(): string {
    AccountsContainerId + ".id=" + IdPlaceholder
  }

  /** `"{0}.account_id=@id".format(ACCOUNTS_CONTAINER_ID)`, the text the
      source stores as the value of `@account_id`. */
  function AccountIdParamText(): string {
    AccountsContainerId + ".account_id=" + IdPlaceholder
  }

  /** The predicate the `account_id` lookup evidently means. */
  function AccountIdPredicate(): string {
    AccountsContainerId + ".account_id=" + AccountIdPlaceholder
  }

  /** `needle` starts at position `i` of `hay`. */
  predicate OccursAt(needle: string, hay: string, i: int) {
    0 <= i <= |hay| - |needle| && hay[i..i + |needle|] == needle
  }

  /** `needle` occurs in `hay` as a contiguous piece. */
  ghost predicate Occurs(needle: string, hay: string) {
    exists i :: OccursAt(needle, hay, i)
  }

  /** Every placeholder of the query is mentioned in its text. */
  ghost predicate ReferencesAllPlaceholders(q: Query) {
    q.whereParams.Some? ==> forall k :: k in Keys(q.whereParams.value) ==> Occurs(k, q.queryStr)
  }

  /** The dictionary `where_params` starts from, as written: `dict(str, any)`
      passes two positional arguments to `dict`, which raises `TypeError`. */
  function WhereParamsInitAsWritten(): (r: Result<Dict>)
    ensures r.Failure? && r.error.TypeError?
  {
    Failure(TypeError("dict expected at most 1 argument, got 2"))
  }

  /** `__build_get_query` exactly as written: it raises at line 109, before
      any query is built, whatever the arguments. */
  function BuildGetQueryAsWritten(id: string, accountId: string, accountName: string, accountType: string,
                                  accountInstitution: string, balance: Option<Decimal>,
                                  page: int, resultsPerPage: int): (r: Result<Option<Query>>)
    ensures r.Failure? && r.error == TypeError("dict expected at most 1 argument, got 2")
  {
    Failure(WhereParamsInitAsWritten().error)
  }

  /** `__build_get_query` with `where_params` starting empty and everything
      else as written: a non-empty `id` wins; otherwise a non-empty
      `account_id` is pasted into the query text while its parameter holds
      a fixed text; with neither, control falls off the end and no query is
      built. The other filters are never used. */
  method BuildGetQuery(id: string, accountId: string, accountName: string, accountType: string,
                       accountInstitution: string, balance: Option<Decimal>,
                       page: int, resultsPerPage: int) returns (r: Option<Query>)
    ensures id != "" ==>
      r == Some(Query(SelectPrefix() + (IdPredicate() + Paging(resultsPerPage, OffsetAsWritten(page))),
                      Some([(IdPlaceholder, Str(id))]), true))
    ensures id == "" && accountId != "" ==>
      r == Some(Query(SelectPrefix() + (accountId + Paging(resultsPerPage, OffsetAsWritten(page))),
                      Some([(AccountIdPlaceholder, Str(AccountIdParamText()))]), true))
    ensures id == "" && accountId == "" ==> r == None
  {
    var queryStr := SelectPrefix();
    var whereParams: Dict := [];
    var limit := resultsPerPage;
    var offset := OffsetAsWritten(page);
    if id != "" {
      var idParam := IdPredicate();
      queryStr := queryStr + (idParam + Paging(limit, offset));
      whereParams := Set(whereParams, IdPlaceholder, Str(id));
      SingleParamQuery(idParam + Paging(limit, offset), IdPlaceholder, Str(id));
      var q := NewQuery(Some(queryStr), Some(whereParams));
      return Some(q.value);
    }
    if accountId != "" {
      var accountIdParam := AccountIdParamText();
      queryStr := queryStr + (accountId + Paging(limit, offset));
      whereParams := Set(whereParams, AccountIdPlaceholder, Str(accountIdParam));
      SingleParamQuery(accountId + Paging(limit, offset), AccountIdPlaceholder, Str(accountIdParam));
      var q := NewQuery(Some(queryStr), Some(whereParams));
      return Some(q.value);
    }
    return None;
  }

  /** Any query text the builders assemble starts with `SELECT`, so it is
      never whitespace-only and `Query(...)` accepts it. */
  lemma SelectTextAccepted(tail: string, whereParams: Dict)
    ensures NewQuery(Some(SelectPrefix() + tail), Some(whereParams)) ==
            Success(Query(SelectPrefix() + tail, Some(whereParams), true))
  {
    assert (SelectPrefix() + tail)[0] == 'S';
  }

  /** The query built from the select prefix and one parameter. */
  lemma SingleParamQuery(tail: string, k: string, v: Value)
    ensures NewQuery(Some(SelectPrefix() + tail), Some(Set([], k, v))) ==
            Success(Query(SelectPrefix() + tail, Some([(k, v)]), true))
  {
    SetIntoEmpty(k, v);
    SelectTextAccepted(tail, [(k, v)]);
  }

  /** A key set in an empty dictionary is its only entry. */
  lemma SetIntoEmpty(k: string, v: Value)
    ensures Set([], k, v) == [(k, v)]
  {
  }

  /** A piece placed between two texts occurs in the whole. */
  lemma OccursInMiddle(head: string, needle: string, tail: string)
    ensures Occurs(needle, head + needle + tail)
  {
    var text := head + needle + tail;
    assert text[|head|..|head| + |needle|] == needle;
    assert OccursAt(needle, text, |head|);
  }

  /** Nothing starting with `@` occurs in a text without `@`. */
  lemma NoOccurrenceWithoutAt(needle: string, hay: string)
    requires |needle| > 0 && needle[0] == '@' && '@' !in hay
    ensures !Occurs(needle, hay)
  {
    forall i ensures !OccursAt(needle, hay, i) {
      if 0 <= i <= |hay| - |needle| {
        assert hay[i..i + |needle|][0] == hay[i];
      }
    }
  }

  /** A text without `@` pasted between two others without `@` occurs in
      the result, and no `@account_id` placeholder does. */
  lemma PastedTextLeavesPlaceholderUnbound(head: string, pasted: string, tail: string, value: string)
    requires '@' !in head && '@' !in pasted && '@' !in tail
    ensures var q := Query(head + (pasted + tail), Some([(AccountIdPlaceholder, Str(value))]), true);
      Occurs(pasted, q.queryStr) && !ReferencesAllPlaceholders(q)
  {
    var text := head + (pasted + tail);
    assert Occurs(pasted, text) by {
      OccursInMiddle(head, pasted, tail);
      assert text == head + pasted + tail;
    }
    assert !Occurs(AccountIdPlaceholder, text) by {
      NoAtInConcat(head, pasted, tail);
      NoOccurrenceWithoutAt(AccountIdPlaceholder, text);
    }
    assert Keys([(AccountIdPlaceholder, Str(value))]) == [AccountIdPlaceholder];
  }

  /** Three texts without `@` put together hold no `@`. */
  lemma NoAtInConcat(a: string, b: string, c: string)
    requires '@' !in a && '@' !in b && '@' !in c
    ensures '@' !in a + (b + c)
  {
    assert '@' !in b + c;
  }

  /** Equal texts with equal heads have equal tails. */
  lemma CancelHead(head: string, x: string, y: string)
    requires head + x == head + y
    ensures x == y
  {
    assert x == (head + x)[|head|..];
    assert y == (head + y)[|head|..];
  }

  /** The rendering of an integer holds no `@`. */
  lemma IntToStringHasNoAt(n: int)
    ensures '@' !in IntToString(n)
  {
    var s := IntToString(n);
    forall i | 0 <= i < |s| ensures s[i] != '@' {
      if n < 0 && i > 0 {
        assert s[i] == NatToString(-n)[i - 1];
      }
    }
  }

  /** The fixed pieces of the query text hold no `@`. */
  lemma FixedTextsHaveNoAt(limit: int, offset: int)
    ensures '@' !in SelectPrefix()
    ensures '@' !in Paging(limit, offset)
  {
    IntToStringHasNoAt(limit);
    IntToStringHasNoAt(offset);
  }

  /** The `@id` placeholder of an id lookup is referenced by its text. */
  lemma IdQueryReferencesPlaceholder(id: string, limit: int, offset: int)
    ensures ReferencesAllPlaceholders(Query(SelectPrefix() + (IdPredicate() + Paging(limit, offset)),
                                            Some([(IdPlaceholder, Str(id))]), true))
  {
    var head := SelectPrefix() + (AccountsContainerId + ".id=");
    assert SelectPrefix() + (IdPredicate() + Paging(limit, offset)) == head + IdPlaceholder + Paging(limit, offset);
    OccursInMiddle(head, IdPlaceholder, Paging(limit, offset));
    assert Keys([(IdPlaceholder, Str(id))]) == [IdPlaceholder];
  }

  /** As written, the `account_id` lookup pastes the caller's text into the
      query, and when that text has no `@` the `@account_id` placeholder it
      declares is referenced nowhere. */
  lemma AccountIdQueryAsWrittenIsUnbound(accountId: string, limit: int, offset: int)
    requires '@' !in accountId
    ensures var q := Query(SelectPrefix() + (accountId + Paging(limit, offset)),
                           Some([(AccountIdPlaceholder, Str(AccountIdParamText()))]), true);
      Occurs(accountId, q.queryStr) && !ReferencesAllPlaceholders(q)
  {
    FixedTextsHaveNoAt(limit, offset);
    PastedTextLeavesPlaceholderUnbound(SelectPrefix(), accountId, Paging(limit, offset), AccountIdParamText());
  }

  /** `__build_get_query` as intended: the offset counts the rows of the
      earlier pages, and `account_id` is bound to the placeholder its
      predicate uses instead of being pasted into the query text. */
  method BuildGetQueryFixed(id: string, accountId: string, accountName: string, accountType: string,
                            accountInstitution: string, balance: Option<Decimal>,
                            page: int, resultsPerPage: int) returns (r: Option<Query>)
    requires resultsPerPage >= 1
    ensures id != "" ==>
      r == Some(Query(SelectPrefix() + (IdPredicate() + Paging(resultsPerPage, Offset(page, resultsPerPage))),
                      Some([(IdPlaceholder, Str(id))]), true))
    ensures id == "" && accountId != "" ==>
      r == Some(Query(SelectPrefix() + (AccountIdPredicate() + Paging(resultsPerPage, Offset(page, resultsPerPage))),
                      Some([(AccountIdPlaceholder, Str(accountId))]), true))
    ensures id == "" && accountId == "" ==> r == None
  {
    var queryStr := SelectPrefix();
    var whereParams: Dict := [];
    var limit := resultsPerPage;
    var offset := Offset(page, resultsPerPage);
    if id != "" {
      var idParam := IdPredicate();
      queryStr := queryStr + (idParam + Paging(limit, offset));
      whereParams := Set(whereParams, IdPlaceholder, Str(id));
      SingleParamQuery(idParam + Paging(limit, offset), IdPlaceholder, Str(id));
      var q := NewQuery(Some(queryStr), Some(whereParams));
      return Some(q.value);
    }
    if accountId != "" {
      var accountIdParam := AccountIdPredicate();
      queryStr := queryStr + (accountIdParam + Paging(limit, offset));
      whereParams := Set(whereParams, AccountIdPlaceholder, Str(accountId));
      SingleParamQuery(accountIdParam + Paging(limit, offset), AccountIdPlaceholder, Str(accountId));
      var q := NewQuery(Some(queryStr), Some(whereParams));
      return Some(q.value);
    }
    return None;
  }

  /** In the corrected `account_id` lookup the placeholder is referenced, and
      the query text is the same whatever `account_id` the caller passes. */
  lemma AccountIdQueryFixedIsBound(accountId: string, limit: int, offset: int)
    ensures ReferencesAllPlaceholders(Query(SelectPrefix() + (AccountIdPredicate() + Paging(limit, offset)),
                                            Some([(AccountIdPlaceholder, Str(accountId))]), true))
  {
    var head := SelectPrefix() + (AccountsContainerId + ".account_id=");
    assert SelectPrefix() + (AccountIdPredicate() + Paging(limit, offset)) == head + AccountIdPlaceholder + Paging(limit, offset);
    OccursInMiddle(head, AccountIdPlaceholder, Paging(limit, offset));
    assert Keys([(AccountIdPlaceholder, Str(accountId))]) == [AccountIdPlaceholder];
  }

  /** With the corrected offset, different pages give different query texts. */
  lemma FixedPagesGiveDistinctQueries(head: string, page1: int, page2: int, resultsPerPage: int)
    requires page1 >= 1 && page2 >= 1 && page1 != page2 && resultsPerPage >= 1
    ensures head + Paging(resultsPerPage, Offset(page1, resultsPerPage)) !=
            head + Paging(resultsPerPage, Offset(page2, resultsPerPage))
  {
    var o1 := Offset(page1, resultsPerPage);
    var o2 := Offset(page2, resultsPerPage);
    var h := head + " LIMIT " + IntToString(resultsPerPage) + " OFFSET ";
    assert head + Paging(resultsPerPage, o1) == h + IntToString(o1);
    assert head + Paging(resultsPerPage, o2) == h + IntToString(o2);
    if h + IntToString(o1) == h + IntToString(o2) {
      CancelHead(h, IntToString(o1), IntToString(o2));
      IntToStringInjective(o1, o2);
      OffsetInjective(page1, page2, resultsPerPage);
    }
  }

  /** Distinct pages have distinct corrected offsets. */
  lemma OffsetInjective(page1: int, page2: int, resultsPerPage: int)
    requires page1 >= 1 && page2 >= 1 && resultsPerPage >= 1
    requires Offset(page1, resultsPerPage) == Offset(page2, resultsPerPage)
    ensures page1 == page2
  {
  }
}
