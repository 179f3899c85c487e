/** The response envelope and the mapper that builds it. */
module ApiResults {
  import opened Base

  /** What the `results` attribute holds: the constructor's trailing comma
      turns the count into a one-element tuple. */
  datatype Count = Scalar(n: int) | Tuple(items: seq<int>)

  /** The envelope: content, result count, page. */
  datatype ApiResult<C> = ApiResult(content: C, results: Count, page: int)

  /** `ApiResult(content, results, page)` as written: no checks; `content`
      and `page` are stored as given, `results` as the tuple `(results,)`. */
  function NewApiResult<C>(content: C, results: int, page: int): (r: ApiResult<C>)
    ensures r.content == content && r.page == page
    ensures r.results == Tuple([results]) && r.results != Scalar(results)
  {
    ApiResult(content, Tuple([results]), page)
  }

  /** `ApiResult()`: empty content list, count 0, page 0 (the count again
      wrapped in a tuple). */
  function DefaultApiResult<X>(): (r: ApiResult<seq<X>>)
    ensures r.content == [] && r.results == Tuple([0]) && r.page == 0
  {
    NewApiResult([], 0, 0)
  }

  /** The constructor as intended: the count stored as the number itself. */
  function NewApiResultFixed<C>(content: C, results: int, page: int): (r: ApiResult<C>)
    ensures r.content == content && r.results == Scalar(results) && r.page == page
  {
    ApiResult(content, Scalar(results), page)
  }

  const ContentMissing := ValueError("'content' must be defined and not empty.")
  const ResultsMissing := TypeError("'results' must be defined.")
  const PageMissing := TypeError("'page' must be defined.")

  /** `map_to_api_result`: only `None` is rejected, checked in the order
      content, results, page; empty content passes. */
  function MapToApiResult<C>(content: Option<C>, results: Option<int>, page: Option<int>): (r: Result<ApiResult<C>>)
    ensures r.Success? <==> content.Some? && results.Some? && page.Some?
    ensures content.None? ==> r == Failure(ContentMissing)
    ensures content.Some? && results.None? ==> r == Failure(ResultsMissing)
    ensures content.Some? && results.Some? && page.None? ==> r == Failure(PageMissing)
    ensures r.Success? ==> r.value == NewApiResult(content.value, results.value, page.value)
  {
    if content.None? then Failure(ContentMissing)
    else if results.None? then Failure(ResultsMissing)
    else if page.None? then Failure(PageMissing)
    else Success(NewApiResult(content.value, results.value, page.value))
  }

  /** The mapper's test expects `results == 1` after
      `map_to_api_result("some_content", 1, 1)`; as written the attribute
      holds `(1,)`, while the corrected constructor stores `1`. */
  lemma MapToApiResultCountIsTuple()
    ensures var r := MapToApiResult(Some("some_content"), Some(1), Some(1));
      r.Success? && r.value.content == "some_content" && r.value.page == 1 &&
      r.value.results == Tuple([1]) && r.value.results != Scalar(1)
    ensures NewApiResultFixed("some_content", 1, 1).results == Scalar(1)
  {
  }

  /** Empty content is accepted despite the "not empty" message. */
  lemma EmptyContentAccepted<X>(results: int, page: int)
    ensures MapToApiResult<seq<X>>(Some([]), Some(results), Some(page)).Success?
  {
  }
}
