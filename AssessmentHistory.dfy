/** The assessment history list: paging and the colour of each entry. */
module AssessmentHistory {
  import opened Wrappers
  import opened Json
  import AssessmentResult

  const PageSize: int := 20

  /** `payload?.total || 0`, for numeric totals. */
  function TotalOf(payload: Json): (total: int)
    ensures !Get(payload, "total").JNum? ==> total == 0
    ensures Get(payload, "total").JNum? ==> total == Get(payload, "total").n
  {
    match Get(payload, "total")
    case JNum(n) => n
    case _ => 0
  }

  /** `getNextPageParam`: the total is read from `lastPage.data` (both arms
      of the payload test pick it); another page follows while the pages
      loaded so far hold fewer than `total` items. */
  function NextPageParam(lastPage: Json, pageCount: nat): (next: Option<nat>)
    ensures next.Some? <==> pageCount * PageSize < TotalOf(Get(lastPage, "data"))
    ensures next.Some? ==> next.value == pageCount + 1
  {
    var businessData := Get(lastPage, "data");
    var currentTotal := pageCount * PageSize;
    var totalCount := TotalOf(businessData);
    if currentTotal < totalCount then Some(pageCount + 1) else None
  }

  /** Without a total there is never another page. */
  lemma NoTotalNoNextPage(lastPage: Json, pageCount: nat)
    requires !HasKey(Get(lastPage, "data"), "total")
    ensures NextPageParam(lastPage, pageCount).None?
  {
  }

  /** The pages stop exactly when the loaded pages cover the total. */
  lemma {:induction false} PagesCoverTotal(lastPage: Json, pageCount: nat)
    requires NextPageParam(lastPage, pageCount).None?
    ensures TotalOf(Get(lastPage, "data")) <= pageCount * PageSize
  {
  }

  /** `getLevelColor(level, score)`: bands on the score alone. */
  function GetLevelColor(level: string, score: int): (color: string)
    ensures color == AssessmentResult.ResultFor(score).color
  {
    if score <= 4 then "#4ADE80"
    else if score <= 9 then "#FACC15"
    else if score <= 14 then "#FB923C"
    else if score <= 19 then "#F87171"
    else "#EF4444"
  }

  /** The stored level never affects the colour. */
  lemma ColorIgnoresLevel(l1: string, l2: string, score: int)
    ensures GetLevelColor(l1, score) == GetLevelColor(l2, score)
  {
  }

  /** `onEndReached`: fetch only when there is a next page and no fetch of
      one is already running. */
  function ShouldFetchNextPage(hasNextPage: bool, isFetchingNextPage: bool): (fetch: bool)
    ensures fetch <==> hasNextPage && !isFetchingNextPage
  {
    hasNextPage && !isFetchingNextPage
  }
}
