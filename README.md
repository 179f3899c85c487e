# my-finance-advisor-banking-api — a verified model of the core

This project models the core of a small FastAPI banking service in Dafny:

- the data entities (`Entity`, `Account`, `User`) and how an entity id is derived;
- the Cosmos DB query object (`Query`) and the database service (`DbService`: connect, get, query, upsert, delete);
- the JWT helper (`TokenHelper`) and the `authorize_access` dependency;
- the accounts router's parameter validator and query builder;
- the mappers from JSON payloads to `AccountModel` and `ApiResult`.

Python's exceptions become a `Result`/`Check` failure carrying an `Error` value with the exception's class and message.
`None` arguments become `Option`.
Dictionaries are modelled as ordered sequences of key/value pairs with distinct keys (module `Dicts`).
`json.dumps` is modelled for the flat values the service stores (module `Json`).
A `Decimal` is modelled by the two parts of `as_tuple()` that matter, its coefficient and exponent.

Modules follow the source files:

| module | models |
|---|---|
| `Entities` | `src/data_models/Entity.py` |
| `Accounts` | `src/data_models/Account.py` |
| `Users` | `src/data_models/User.py` |
| `Queries` | `src/db_service/Query.py` |
| `DbServices` | `src/db_service/DbService.py` |
| `TokenHelpers` | `src/token_helper/TokenHelper.py` |
| `Authorize` | `src/libs/utils/authorize.py` |
| `AccountsRouter` | `src/routers/accounts.py` (validator and query builder) |
| `AccountMapper` | `src/libs/api_model_mappers/account_mapper.py` |
| `ApiResults` | `src/libs/api_model_mappers/api_result_mapper.py`, `src/libs/api_models/ApiResult.py` |
| `Base`, `Text`, `Dicts`, `Json` | Python built-ins the core relies on: exceptions, `str.isspace`/`split`/`join`/`lower`, `str(int)`, `dict`, `json.dumps` |

`Entity`, `Account`, `User` and `DbService` are classes, because the source assigns their fields in place.
Dafny classes have no inheritance, so `Account` and `User` hold their `Entity` part as a field.
`Query`, `TokenHelper` and `ApiResult` are datatypes, because their fields are never changed after construction.
`AccountModel` is a datatype too. `map_to_account_api_model` assigns the five fields of a fresh `AccountModel()` one by one (`src/libs/api_model_mappers/account_mapper.py:37-41`); `AccountMapper.MapToAccountApiModel` renders each assignment as a datatype update, in the same order.
Loops in the source stay loops:
- `build_where_params` is `Queries.BuildWhereParams`;
- the plural account mapper is `AccountMapper.MapToAccountApiModels`.

Each of these, and `MapToAccountApiModel`, is proved against a specification function.

Things outside the program are parameters:
- Cosmos DB's stored items are the `items` map of `DbService`;
- the query engine is a function parameter `Engine`;
- `jwt.encode`/`jwt.decode` are function parameters `Encoder`/`Decoder`;
- the current time is an integer `now` in seconds;
- the `Authorization` header is an `Option<string>`.

Points of the code's behaviour that the model keeps as written:
- The page offset is `page * MAX_PAGE_SIZE` for `page > 1`, and 0 otherwise (`src/routers/accounts.py:112-116`).
- A blank id makes `create_id` raise `ValueError` (`src/data_models/Entity.py:51-52`).
- An unknown user makes `authorize_access` answer 500, although its docstring promises 403 (`src/libs/utils/authorize.py:47-49`). The 403 it raises is caught by its own `except Exception` (`src/libs/utils/authorize.py:73-83`).

Two constants are used by `src/routers/accounts.py` but are not defined in the configuration file, so the model fixes them:
- `MAX_PAGE_SIZE` is 100, from the message "between 1 to 100 inclusive";
- `ACCOUNTS_CONTAINER_ID` is the fixed name `"accounts"`.

## Model

| member | source | states |
|---|---|---|
| Entities.DeriveId | src/data_models/Entity.py:51-55 | fails with `ValueError("identifier must be defined.")` exactly when the id is `None`, empty or whitespace-only; otherwise the id is the collection name, `::`, and the id with all whitespace removed and lower-cased |
| Text.JoinSplit | src/data_models/Entity.py:54 | `"".join(s.split())` equals `s` with every whitespace character removed |
| Entities.DeriveIdShape | src/data_models/Entity.py:54-55 | a derived id starts with `<collection>::` and its suffix is non-empty, whitespace-free and lower-case |
| Entities.DeriveIdIdempotent | src/data_models/Entity.py:54-55 | deriving an id again from the suffix of a derived id gives the same id |
| Entities.DeriveIdIgnoresWhitespace | src/data_models/Entity.py:54 | inserting whitespace anywhere in the raw id does not change the derived id |
| Entities.DeriveIdIgnoresCase | src/data_models/Entity.py:55 | two raw ids equal up to ASCII case give the same derived id |
| Entities.BlankIffNothingLeft | src/data_models/Entity.py:51-54 | the id is rejected exactly when removing its whitespace leaves nothing |
| Entities.Entity.constructor | src/data_models/Entity.py:17-23 | a new entity has an empty id, timestamp 0, and the source's placeholder metadata fields (three of them are 1-tuples because of trailing commas) |
| Entities.Entity.CreateId | src/data_models/Entity.py:26-57 | returns `DeriveId` of the argument; on success `id` is the new id; on failure `id` is unchanged |
| Accounts.ValidateAccountId | src/data_models/Account.py:53-55 | fails with `ValueError("'account_id' must be defined.")` exactly when `account_id` is `None`, empty or whitespace-only |
| Accounts.ValidateParams | src/data_models/Account.py:58-71 | passes exactly when `account_id` is not blank, name, type and institution are present and not whitespace-only, and balance is present; otherwise gives the first failing check's error in source order |
| Accounts.EmptyTextAccepted | src/data_models/Account.py:61-68 | empty name, type and institution (the constructor's defaults) are accepted, since only whitespace-only text is rejected |
| Accounts.DeriveIdOfNormalised | src/data_models/Entity.py:54-55 | an already-normalised id is only prefixed with `<collection>::` |
| Accounts.SomeIdExample | src/data_models/Account.py:45 | the account built from `"some_id"` gets id `"account::some_id"` |
| Accounts.Account.New | src/data_models/Account.py:11-50 | fails exactly when `ValidateParams` fails, with its error; on success gives a fresh account whose id is `DeriveId("account", account_id)` and whose fields are the arguments |
| Users.NewUserId | src/data_models/User.py:28-33 | the password is checked before the user name; a blank password gives `ValueError("password must be defined.")`, then a blank user gives the entity's `ValueError`; otherwise the id is `user::` plus the normalised user name |
| Users.User.New | src/data_models/User.py:10-35 | fails exactly when `NewUserId` fails, with its error; on success the user's id is `NewUserId` and its fields are the arguments |
| Queries.NewQuery | src/db_service/Query.py:8-36 | fails with `ValueError("'queryStr' must be defined.")` exactly when the text is `None` or whitespace-only; an empty text is accepted; otherwise stores the arguments |
| Queries.WhereParamList | src/db_service/Query.py:39-55 | `None` exactly when there are no parameters or an empty dict; otherwise one `{name, value}` entry per key, in key order, each value the dict's value for that name |
| Queries.BuildWhereParams | src/db_service/Query.py:48-55 | the loop builds exactly `WhereParamList` |
| Queries.Describe | src/db_service/Query.py:58-64 | parameters show as `Not defined.` when absent or empty, otherwise as their JSON text; rendering fails exactly when a parameter value is not JSON-serialisable |
| Json.DumpsDict | src/db_service/DbService.py:148 | `json.dumps` of a dict succeeds exactly when every value is serialisable; the text is printable ASCII and enclosed in braces |
| Json.DumpsList | src/db_service/DbService.py:212 | `json.dumps` of a list of dicts succeeds exactly when every dict is serialisable; the text is printable ASCII and enclosed in brackets |
| DbServices.ValidateDbOptions | src/db_service/DbService.py:337-351 | `None` options give `TypeError`; then endpoint, key, database id and container id are checked in that order, each failing when empty, `None` or whitespace-only; passes exactly when all four are set |
| DbServices.ValidateIdAndPartitionKey | src/db_service/DbService.py:355-360 | fails with `ValueError("id must be defined.")` when the id is blank, then with `ValueError("partitionKey must be defined.")` when the partition key is blank; passes exactly when neither is blank |
| DbServices.DbService.constructor | src/db_service/DbService.py:30-40 | stores the options; client, database and container start unset |
| DbServices.DbService.Connect | src/db_service/DbService.py:43-96 | the result is the options validation; on failure nothing changes; on success client, database and container are set and the service is connected |
| DbServices.GetResult | src/db_service/DbService.py:99-158 | validation errors first; unconnected raises `AttributeError` on `read_item`; `None` exactly when valid, connected and no item has that id and partition key; for a stored item, its JSON, or the `json.dumps` error when the item cannot be serialised |
| DbServices.DbService.Get | src/db_service/DbService.py:99-158 | returns `GetResult` of the service's state |
| DbServices.QueryResult | src/db_service/DbService.py:161-224 | `None` query gives `TypeError`; failing to render the parameters for the log propagates; unconnected raises `AttributeError` on `query_items`; `None` exactly when the engine returns no rows; non-empty rows give their JSON text, or the `json.dumps` error when a row is not serialisable |
| DbServices.QueryReturnsRows | src/db_service/DbService.py:211-216 | for every store and engine, a query whose parameters render and whose non-empty rows are serialisable is answered with the rows' JSON text |
| DbServices.EmptyParamsLikeNone | src/db_service/DbService.py:200-209 | a query with an empty parameter dict behaves exactly like one with no parameters |
| DbServices.DbService.Query | src/db_service/DbService.py:161-224 | returns `QueryResult` of the service's state |
| DbServices.KeyOf | src/db_service/DbService.py:264-266 | an item can be stored exactly when it has a string `id` and a partition key; the key is made of the two |
| DbServices.UpsertResult | src/db_service/DbService.py:227-277 | `None` gives `TypeError("The item must be defined.")`; an item that is not serialisable fails at the logged `json.dumps`; unconnected raises `AttributeError` on `upsert_item`; an item without a usable key is refused; succeeds exactly when none of these applies, returning the item as JSON |
| DbServices.DbService.Upsert | src/db_service/DbService.py:227-277 | the result is `UpsertResult` of the service's state, so a serialisable item with a usable key on a connected service is always stored; `None` gives `TypeError("The item must be defined.")`; on success the store maps the item's key to the item and nothing else changes, and the result is the item as JSON; on failure the store is unchanged |
| DbServices.DeleteResult | src/db_service/DbService.py:280-329 | validation errors first; unconnected raises `AttributeError` on `delete_item`; not found exactly when the key is absent; succeeds exactly when valid, connected and the key is present |
| DbServices.DbService.Delete | src/db_service/DbService.py:280-329 | the result is `DeleteResult` of the store before the call, so a present key on a connected service is always deleted; validation errors first; unconnected raises `AttributeError`; not found exactly when valid, connected and the key is absent; on success exactly that key is removed, and a later get returns `None`; on failure the store is unchanged |
| DbServices.GetAfterUpsert | src/db_service/DbService.py:143-150 | after storing an item, getting it by its key returns that item as JSON (or the validation error for a blank key) |
| DbServices.GetAfterDelete | src/db_service/DbService.py:143-154 | after a delete, getting the deleted key gives `None` and every other key reads as before |
| TokenHelpers.NewTokenHelper | src/token_helper/TokenHelper.py:13-40 | a `None` or whitespace-only secret key, then algorithm, is rejected with its `ValueError`; an empty one is accepted; otherwise stores the arguments |
| TokenHelpers.Claims | src/token_helper/TokenHelper.py:71-82 | without expiry the claims are the data; with expiry `exp` is `now` plus the configured minutes, added at the end if new; every other claim is unchanged |
| TokenHelpers.CreateAccessToken | src/token_helper/TokenHelper.py:43-97 | `None` data raises `AttributeError` on `copy`; otherwise the result is the encoder applied to `Claims` with the helper's key and algorithm |
| TokenHelpers.DecodeAccessToken | src/token_helper/TokenHelper.py:99-158 | decoder errors propagate; succeeds exactly when `sub` is a string that is not whitespace-only (an empty one passes), returning it; a missing, `None` or whitespace-only `sub` raises `CredentialNotInJwtError`; any other non-string `sub` raises `AttributeError` naming its type and `isspace` |
| TokenHelpers.SubjectRoundTrip | src/token_helper/TokenHelper.py:71-138 | a token created from data whose `sub` is a usable string decodes back to that subject, when decoding inverts encoding |
| Authorize.UserLookup | src/libs/utils/authorize.py:69-73 | the lookup key is the id of `User(subject, "_")` with the subject as partition key; it exists exactly when the subject is not blank, and then passes the database's key validation |
| Authorize.AuthorizeTry | src/libs/utils/authorize.py:57-79 | a missing header raises `KeyError`, a header with fewer than two words raises `IndexError`; success means the token decodes to a subject whose user is stored; an unknown user raises `HTTPException(403)` |
| Authorize.AuthorizeAccess | src/libs/utils/authorize.py:57-83 | succeeds exactly when the body succeeds, with the same subject; every failure becomes `HTTPException(500, "Authorization token cannot be processed.")` |
| Authorize.UnknownUserGets500 | src/libs/utils/authorize.py:73-83 | for a valid token of an unknown user, the body raises 403 but the caller sees 500, never 403 |
| Authorize.AuthorizeAccessFixed | src/libs/utils/authorize.py:73-83 | as `AuthorizeAccess`, but the 403 passes through unchanged and every other failure is 500 |
| Authorize.UnknownUserGets403Fixed | src/libs/utils/authorize.py:73-75 | with the 403 passed through, a valid token of an unknown user gets 403 |
| Authorize.KnownUserAdmitted | src/libs/utils/authorize.py:60-79 | a valid token whose user is stored is admitted, returning the token's subject |
| AccountsRouter.ValidateSearchText | src/routers/accounts.py:82-92 | passes exactly when none of id, account_id, account_name, account_type is whitespace-only; otherwise gives the first failing field's `InvalidParameterError` |
| AccountsRouter.InstitutionCheckAsWritten | src/routers/accounts.py:94-95 | as written the check always fails, because it tests the bound method `isspace`, which is always truthy |
| AccountsRouter.BalanceCheckAsWritten | src/routers/accounts.py:97-98 | passes exactly when the exponent is 2; a `None` balance raises `AttributeError` on `as_tuple` |
| AccountsRouter.ValidatePaging | src/routers/accounts.py:100-104 | passes exactly when page is positive and results per page is between 1 and 100; page is checked first |
| AccountsRouter.ValidateGetAccountsParamAlwaysRaises | src/routers/accounts.py:81-104 | the validator as written rejects every input: the first whitespace error if any, otherwise the institution error |
| AccountsRouter.BalanceCheckAsWrittenRejectsTwoPlaces | src/routers/accounts.py:97-98 | `Decimal("1000.00")` (exponent -2) is rejected while `Decimal("1E+2")` (exponent 2) passes |
| AccountsRouter.InstitutionCheck | src/routers/accounts.py:94-95 | corrected: fails exactly when the institution is whitespace-only |
| AccountsRouter.BalanceCheck | src/routers/accounts.py:97-98 | corrected: passes exactly when the balance is absent or has two decimal places (exponent -2) |
| AccountsRouter.ValidateGetAccountsParamFixed | src/routers/accounts.py:81-104 | corrected validator: passes exactly when no text is whitespace-only, the balance has two places or is absent, and the paging is in range; every failure is an `InvalidParameterError` |
| AccountsRouter.FixedValidatorAcceptsExample | src/routers/accounts.py:97-98 | the corrected validator accepts the message's own example `1000.00` and rejects `1000.0` |
| AccountsRouter.OffsetAsWritten | src/routers/accounts.py:112-116 | the offset is never negative and is 0 for pages up to 1 |
| AccountsRouter.OffsetAsWrittenSkipsRows | src/routers/accounts.py:113 | as written, page 2 starts more than a page after page 1 starts, so rows between them are never returned |
| AccountsRouter.Offset | src/routers/accounts.py:112-116 | corrected offset: never negative, 0 for the first page |
| AccountsRouter.OffsetPagesAreContiguous | src/routers/accounts.py:113 | with the corrected offset, each page starts exactly where the previous one ends |
| AccountsRouter.OffsetInjective | src/routers/accounts.py:113 | with the corrected offset, distinct pages have distinct offsets |
| AccountsRouter.FixedPagesGiveDistinctQueries | src/routers/accounts.py:120 | with the corrected offset, distinct pages give distinct query texts |
| AccountsRouter.WhereParamsInitAsWritten | src/routers/accounts.py:109 | `dict(str, any)` raises `TypeError` |
| AccountsRouter.BuildGetQueryAsWritten | src/routers/accounts.py:107-130 | as written, building any query raises that `TypeError` before any branch runs |
| AccountsRouter.BuildGetQuery | src/routers/accounts.py:107-130 | with line 109 read as an empty dict: an `id` gives the `id=@id` query bound to the id; otherwise an `account_id` is pasted into the text and `@account_id` is bound to the predicate text; with neither the result is `None` |
| AccountsRouter.IdQueryReferencesPlaceholder | src/routers/accounts.py:119-121 | the `id` query mentions every placeholder it binds |
| AccountsRouter.AccountIdQueryAsWrittenIsUnbound | src/routers/accounts.py:126-128 | the `account_id` query contains the raw account id and never mentions its bound placeholder `@account_id` |
| AccountsRouter.BuildGetQueryFixed | src/routers/accounts.py:107-130 | corrected builder: contiguous offsets, and the `account_id` query uses `account_id=@account_id` bound to the account id |
| AccountsRouter.AccountIdQueryFixedIsBound | src/routers/accounts.py:126-128 | the corrected `account_id` query mentions every placeholder it binds |
| AccountMapper.Lookup | src/libs/api_model_mappers/account_mapper.py:35-41 | `payload[k]` gives the value stored under `k`, or `KeyError(k)` exactly when the key is absent |
| AccountMapper.AccountModelOf | src/libs/api_model_mappers/account_mapper.py:5-49 | `None` payload gives `TypeError("Cannot map empty JSON payload to model.")`; succeeds exactly when all five keys are present, each field being the payload's value for its key |
| AccountMapper.FirstMissingKeyReported | src/libs/api_model_mappers/account_mapper.py:35-41 | a payload missing keys fails with `KeyError` of the first missing key in the order id, name, type, institution, balance |
| AccountMapper.MapToAccountApiModel | src/libs/api_model_mappers/account_mapper.py:27-45 | filling the model field by field gives exactly `AccountModelOf` |
| AccountMapper.MapEachSucceedsIffAllMap | src/libs/api_model_mappers/account_mapper.py:76-81 | mapping a list succeeds exactly when every element maps |
| AccountMapper.MapEachPreservesOrder | src/libs/api_model_mappers/account_mapper.py:76-81 | a successful mapping has one model per payload, in order, each the payload's own mapping |
| AccountMapper.MapEachFailsAtFirst | src/libs/api_model_mappers/account_mapper.py:76-81 | a failed mapping reports the error of the first payload that fails; all before it map |
| AccountMapper.FailureSticks | src/libs/api_model_mappers/account_mapper.py:76-81 | once a prefix fails, the rest of the list does not change the error |
| AccountMapper.MapToAccountApiModels | src/libs/api_model_mappers/account_mapper.py:52-85 | `None` or empty list gives `TypeError("The payload must be defined and not empty.")`; otherwise the loop gives the per-payload mapping, and on success one model per payload in order |
| ApiResults.NewApiResult | src/libs/api_models/ApiResult.py:10-24 | stores content and page; `results` is stored as the 1-tuple `(results,)`, not as the number |
| ApiResults.DefaultApiResult | src/libs/api_models/ApiResult.py:10-24 | the defaults are an empty list, the 1-tuple `(0,)` and page 0 |
| ApiResults.NewApiResultFixed | src/libs/api_models/ApiResult.py:22-24 | corrected: stores content, the number of results and page |
| ApiResults.MapToApiResult | src/libs/api_model_mappers/api_result_mapper.py:5-41 | `None` content gives `ValueError`, then `None` results and `None` page give their `TypeError`s, in that order; otherwise the `ApiResult` built from the arguments |
| ApiResults.MapToApiResultCountIsTuple | src/libs/api_models/ApiResult.py:23 | mapping `("some_content", 1, 1)` stores results as `(1,)`, not `1` as the mapper test expects; the corrected constructor stores `1` |
| ApiResults.EmptyContentAccepted | src/libs/api_model_mappers/api_result_mapper.py:27-28 | empty content is accepted despite the message "must be defined and not empty", since only `None` is rejected |

## Left out

- The router's only handler, `get` (`src/routers/accounts.py:43-78`), is not modelled. As written, its first log line formats ten placeholders from nine arguments (lines 55-56), which raises `IndexError`, and the `except` at lines 75-76 turns that into the answer `""` for every request.
- `map_to_account_data_model` is not part of this model.
- `JwtBearer`, `dependencies`, `config`, `main` and the documentation strings are not part of this model.
- Logging is left out, except two `json.dumps` calls made for log lines, because they can raise:
  - the query parameters in `query` (`src/db_service/DbService.py:197-198`), modelled through `Queries.Describe`;
  - the item in `upsert` (`src/db_service/DbService.py:264`), modelled through the `DumpsDict` failure in `DbServices.UpsertResult`.
- The Cosmos DB SDK is abstract: `items` stands for the container's contents and `Engine` for its query evaluation.
  - Failures of client, database or container creation, and SDK errors other than not-found, are not modelled.
  - The not-found and bad-request messages are stand-ins.
  - Upsert returns the given item rather than the SDK's stored copy, which has extra system fields.
- `jwt.encode`, `jwt.decode` and `datetime.utcnow()` are parameters. The separate `except` arms for the decoder's error classes only re-raise, so they are one error path.
- Text is ASCII: `isspace`, `split` and `lower` are modelled on ASCII characters only.
- `Decimal` is reduced to the two parts of `as_tuple()` the code reads.
- JSON values are flat (no nested lists or objects); `datetime` and `Decimal` values are not serialisable, as with `json.dumps`.
- The `__str__` methods of `Account` and `User` only format text for logs and are not modelled; `Query.__str__` is, because its `json.dumps` can raise.
- `Entity` inheritance is modelled as composition: `Account` and `User` hold an `Entity`.
- `create_access_token` copies the caller's dict before adding `exp`. Dicts are values here, so the caller's dict is unchanged by construction.
- The shared mutable default `list()` of `ApiResult.__init__` is not modelled; `DefaultApiResult` gives a fresh empty list.
- AccountsRouter.ValidateGetAccountsParam: the function itself carries no `ensures`; `ValidateGetAccountsParamAlwaysRaises` states its behaviour.
- AccountsRouter.BuildGetQueryFixed: corrects the offset and the `account_id` binding only. It keeps the source's `LIMIT n OFFSET m` clause order (`src/routers/accounts.py:120,127`), and Cosmos DB's SQL grammar writes `OFFSET m LIMIT n`. Whether the store accepts the text is outside the model.
- ApiResults.MapToApiResult: models the mapper as written, so it builds the 1-tuple count; the corrected `NewApiResultFixed` is not wired into it.

## Findings

| source | as written | input that shows it | evidently intended | confidence | as-written member | corrected member |
|---|---|---|---|---|---|---|
| src/routers/accounts.py:94 | `account_institution.isspace` without a call is always truthy, so the validator always raises | any input that passes the four checks before it, e.g. all empty strings | reject only whitespace-only institutions | high, not executed | AccountsRouter.ValidateGetAccountsParamAlwaysRaises | AccountsRouter.ValidateGetAccountsParamFixed |
| src/routers/accounts.py:97 | requires exponent `2`, which `Decimal("1000.00")` (exponent -2) fails | `Decimal("1000.00")` rejected; `Decimal("1E+2")` accepted | exactly two decimal places, i.e. exponent -2 | high, not executed | AccountsRouter.BalanceCheckAsWrittenRejectsTwoPlaces | AccountsRouter.FixedValidatorAcceptsExample |
| src/routers/accounts.py:109 | `dict(str, any)` raises `TypeError` | any call of the builder | an empty dict of parameters | high, not executed | AccountsRouter.BuildGetQueryAsWritten | AccountsRouter.BuildGetQuery |
| src/routers/accounts.py:113 | offset is `page * MAX_PAGE_SIZE` | page 2 with 10 results per page starts at row 200, skipping rows 10-199 | `(page - 1) * results_per_page` | high, not executed | AccountsRouter.OffsetAsWrittenSkipsRows | AccountsRouter.OffsetPagesAreContiguous |
| src/routers/accounts.py:126-128 | the raw `account_id` is pasted into the query text and `@account_id` is bound to the predicate text, which the query never mentions | `account_id = "abc"` gives `SELECT * FROM accounts WHERE abc LIMIT ...` | predicate `account_id=@account_id` with `@account_id` bound to the account id | high, not executed | AccountsRouter.AccountIdQueryAsWrittenIsUnbound | AccountsRouter.AccountIdQueryFixedIsBound |
| src/libs/api_models/ApiResult.py:23 | trailing comma stores `results` as the 1-tuple `(results,)` | `map_to_api_result("some_content", 1, 1).results == (1,)` | the number `1` | high, not executed | ApiResults.MapToApiResultCountIsTuple | ApiResults.NewApiResultFixed |
| src/libs/utils/authorize.py:81-83 | `except Exception` also catches the 403 raised at line 75 and turns it into 500 | a valid token for a user not in the database | answer 403 "Unauthorized." | high, not executed | Authorize.UnknownUserGets500 | Authorize.UnknownUserGets403Fixed |
