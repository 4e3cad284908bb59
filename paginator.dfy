/**
 * `DefaultDataPaginator` (trunk): a cursor over one of Redmine's list resources. It keeps a fixed
 * start index and page size, a retrieval index that moves with every page, and the total count the
 * server declared with the last page (`Long.MIN_VALUE` until the first page arrives). Fetching a
 * page is the connector's `getRedmineObject`, a parameter here.
 */
module Paginator {
  import opened Wrappers
  import opened JavaLang
  import opened Errors
  import opened Utilities

  /** `Long.MIN_VALUE`, the stored total before the first page. */
  const UNKNOWN_TOTAL: Int64 := LONG_MIN

  const CONTAINER_NULL := "BDO Container type must not be null while initializing Data Paginator"
  const URL_UNQUALIFIED := "Request URL must be a qualified string while initializing Data Paginator"
  const START_NEGATIVE := "Start record Index must be equal to or greater than zero while initializing Data Paginator"
  const PAGE_SIZE_NEGATIVE := "Page size must be equal to or greater than zero while initializing Data Paginator"
  const TOTAL_UNKNOWN := "Total Record count can be retrieved only after first call for records. It is not initialized before that. Hence first, fetch at least one page of records and then ask for Total Record Count"

  /** The container classes the connector hands to its paginators. */
  datatype ContainerType = ProjectsContainer | IssuesContainer

  /** A decoded `RedmineBDOContainer`: the total the server declares and the page's list, which
      is null when the response holds none. */
  datatype Container<T> = Container(totalCount: Int64, objects: Option<seq<T>>)

  /** `getRedmineObject(url, containerType)`: the response decoded into a container (`None` for
      null), or the exception raised on the way. */
  type Fetch<T> = (string, ContainerType) -> Result<Option<Container<T>>, Exception>

  /** The fields fixed at construction that a page request uses. */
  datatype Settings = Settings(containerType: ContainerType, requestURL: string, pageSize: Int32)

  /** The fields `nextPageRecords` updates. */
  datatype Cursor = Cursor(index: Int64, total: Int64)

  /** One check of `validate`: a failing check replaces whatever an earlier check recorded. */
  function Check(recorded: Option<string>, fails: bool, message: string): Option<string>
  {
    if fails then Some(message) else recorded
  }

  /** `validate`: the four checks in source order, then a throw of what is recorded. */
  function Validate(containerType: Option<ContainerType>, requestURL: Option<string>,
                    startRecordIndex: Int64, pageSize: Int32): Outcome<Exception>
  {
    var recorded := Check(Check(Check(Check(None,
                      containerType.None?, CONTAINER_NULL),
                      !IsQualifiedString(requestURL), URL_UNQUALIFIED),
                      startRecordIndex < 0, START_NEGATIVE),
                      pageSize < 0, PAGE_SIZE_NEGATIVE);
    if recorded.Some? then Fail(RCRuntime(ILLEGAL_ARGUMENT, recorded, None)) else Pass
  }

  /** Construction fails exactly when one of the four checks does, always with `ILLEGAL_ARGUMENT`;
      when several fail, the exception is the one of the last failing check. Page size 0 and page
      sizes above 100 pass. */
  lemma LastFailingCheckWins(containerType: Option<ContainerType>, requestURL: Option<string>,
                             startRecordIndex: Int64, pageSize: Int32)
    ensures Validate(containerType, requestURL, startRecordIndex, pageSize).Pass?
            <==> containerType.Some? && IsQualifiedString(requestURL) && startRecordIndex >= 0 && pageSize >= 0
    ensures Validate(containerType, requestURL, startRecordIndex, pageSize).Fail? ==>
              Validate(containerType, requestURL, startRecordIndex, pageSize).error.RCRuntime? &&
              Validate(containerType, requestURL, startRecordIndex, pageSize).error.code == ILLEGAL_ARGUMENT
    ensures pageSize < 0 ==>
              Validate(containerType, requestURL, startRecordIndex, pageSize).error.rcMessage == Some(PAGE_SIZE_NEGATIVE)
    ensures pageSize >= 0 && startRecordIndex < 0 ==>
              Validate(containerType, requestURL, startRecordIndex, pageSize).error.rcMessage == Some(START_NEGATIVE)
    ensures pageSize >= 0 && startRecordIndex >= 0 && !IsQualifiedString(requestURL) ==>
              Validate(containerType, requestURL, startRecordIndex, pageSize).error.rcMessage == Some(URL_UNQUALIFIED)
    ensures pageSize >= 0 && startRecordIndex >= 0 && IsQualifiedString(requestURL) && containerType.None? ==>
              Validate(containerType, requestURL, startRecordIndex, pageSize).error.rcMessage == Some(CONTAINER_NULL)
  {
  }

  const OFFSET_PARAMETER := "?offset="
  const LIMIT_PARAMETER := "&limit="

  /** `prepareRequestURL`. */
  function PrepareRequestURL(requestURL: string, index: Int64, pageSize: Int32): string
  {
    requestURL + OFFSET_PARAMETER + IntToString(index) + LIMIT_PARAMETER + IntToString(pageSize)
  }

  const ALREADY_RETURNED := "Total Records are already returned. Please use 'hasMoreRecords()' method before calling next page records. recordIndexToStartRetrieval["
  const TOTAL_FIELD := "] totalRecordCount["
  const WRONG_SIZE := "size of list of objects returned is not correct. size["

  function AlreadyReturned(c: Cursor): string
  {
    ALREADY_RETURNED + IntToString(c.index) + TOTAL_FIELD + IntToString(c.total) + CLOSE
  }

  function WrongSize(size: nat): string
  {
    WRONG_SIZE + IntToString(size) + CLOSE
  }

  /** `getTotalRecordsCount`. */
  function TotalRecordsCount(c: Cursor): Result<Int64, Exception>
  {
    if c.total == UNKNOWN_TOTAL then Failure(RC(ILLEGAL_STATE, Some(TOTAL_UNKNOWN), None)) else Success(c.total)
  }

  /** `hasMoreRecords`: the pending count `total - index` in 64-bit arithmetic, where the sentinel
      stands for "not yet known". */
  function HasMore(c: Cursor): (r: bool)
    ensures c.total == UNKNOWN_TOTAL ==> r
    ensures c.total != UNKNOWN_TOTAL && 0 <= c.index && 0 <= c.total ==> (r <==> c.index < c.total)
  {
    var pending := if c.total != UNKNOWN_TOTAL then WrapLong(c.total - c.index) else c.total;
    pending == UNKNOWN_TOTAL || pending > 0
  }

  /** The guard of `nextPageRecords`: the total is known and the index has reached it. */
  predicate Exhausted(c: Cursor)
  {
    c.total != UNKNOWN_TOTAL && c.index >= c.total
  }

  /** `nextPageRecords`: the new cursor and the result. A null list sets the total to 0 and is
      returned as null; a list longer than the page size is refused; any other list moves the
      index on by its length and stores the declared total. */
  function NextPage<T>(s: Settings, c: Cursor, fetch: Fetch<T>): (Cursor, Result<Option<seq<T>>, Exception>)
  {
    if Exhausted(c) then (c, Failure(RC(ILLEGAL_STATE, Some(AlreadyReturned(c)), None)))
    else
      var fetched := fetch(PrepareRequestURL(s.requestURL, c.index, s.pageSize), s.containerType);
      if fetched.Failure? then (c, Failure(fetched.error))
      else if fetched.value.None? then (c, Failure(NullPointer))
      else Apply(s, c, fetched.value.value)
  }

  /** What `nextPageRecords` does with the container it fetched. */
  function Apply<T>(s: Settings, c: Cursor, container: Container<T>): (Cursor, Result<Option<seq<T>>, Exception>)
  {
    match container.objects
    case None => (c.(total := 0), Success(None))
    case Some(page) =>
      if |page| > s.pageSize then (c, Failure(RC(ILLEGAL_STATE, Some(WrongSize(|page|)), None)))
      else (Cursor(WrapLong(c.index + |page|), container.totalCount), Success(Some(page)))
  }

  /** The records a `nextPageRecords` result hands over. */
  function Delivered<T>(r: Result<Option<seq<T>>, Exception>): seq<T>
  {
    if r.Success? && r.value.Some? then r.value.value else []
  }

  /** `getAllRecords` from cursor `c` with the records `acc` gathered so far: pages are
      concatenated while `hasMoreRecords` holds; a null page makes `addAll` throw. `fuel` bounds
      the number of pages, since a server may never declare the end (`None` when it runs out). */
  function AllRecords<T>(s: Settings, c: Cursor, fetch: Fetch<T>, acc: seq<T>, fuel: nat)
    : Option<Result<seq<T>, Exception>>
    decreases fuel
  {
    if !HasMore(c) then Some(Success(acc))
    else if fuel == 0 then None
    else
      var (next, page) := NextPage(s, c, fetch);
      if page.Failure? then Some(Failure(page.error))
      else if page.value.None? then Some(Failure(NullPointer))
      else AllRecords(s, next, fetch, acc + page.value.value, fuel - 1)
  }

  /** `(a mod 2^64) + b mod 2^64` is `a + b mod 2^64`. */
  lemma WrapLongAdd(a: int, b: int)
    ensures WrapLong(WrapLong(a) + b) == WrapLong(a + b)
  {
    var x := a - LONG_MIN;
    var q := x / LONG_RANGE;
    assert x == q * LONG_RANGE + x % LONG_RANGE;
    assert WrapLong(a) + b - LONG_MIN == x % LONG_RANGE + b;
    assert a + b - LONG_MIN == (x % LONG_RANGE + b) + q * LONG_RANGE;
    ModShift(x % LONG_RANGE + b, q);
  }

  const LONG_RANGE := 0x1_0000_0000_0000_0000

  lemma ModShift(y: int, q: int)
    ensures (y + q * LONG_RANGE) % LONG_RANGE == y % LONG_RANGE
  {
    var d := y / LONG_RANGE;
    assert y == d * LONG_RANGE + y % LONG_RANGE;
    assert y + q * LONG_RANGE == (d + q) * LONG_RANGE + y % LONG_RANGE;
  }

  class DefaultDataPaginator<T> {
    const containerType: ContainerType
    const requestURL: string
    const startRecordIndex: Int64
    const pageSize: Int32
    var recordIndexToStartRetrieval: Int64
    var totalRecordCount: Int64
    /** Every record `nextPageRecords` has returned so far, in order. */
    ghost var returned: seq<T>

    /** The retrieval index is the start index moved on by the records returned (in 64-bit
        arithmetic). */
    ghost predicate Valid()
      reads this
    {
      recordIndexToStartRetrieval == WrapLong(startRecordIndex + |returned|)
    }

    function Config(): Settings
    {
      Settings(containerType, requestURL, pageSize)
    }

    function State(): Cursor
      reads this
    {
      Cursor(recordIndexToStartRetrieval, totalRecordCount)
    }

    /** The field assignments of the four-argument constructor. */
    constructor Init(containerType: ContainerType, requestURL: string, startRecordIndex: Int64, pageSize: Int32)
      ensures this.containerType == containerType && this.requestURL == requestURL
      ensures this.startRecordIndex == startRecordIndex && this.pageSize == pageSize
      ensures State() == Cursor(startRecordIndex, UNKNOWN_TOTAL) && returned == []
      ensures Valid()
    {
      this.containerType := containerType;
      this.requestURL := requestURL;
      this.startRecordIndex := startRecordIndex;
      recordIndexToStartRetrieval := startRecordIndex;
      this.pageSize := pageSize;
      totalRecordCount := UNKNOWN_TOTAL;
      returned := [];
    }

    /** `DefaultDataPaginator(type, url, start, pageSize)`: the fields, then `validate`. */
    static method Create(containerType: Option<ContainerType>, requestURL: Option<string>,
                         startRecordIndex: Int64, pageSize: Int32)
      returns (r: Result<DefaultDataPaginator<T>, Exception>)
      ensures r.Success? <==> Validate(containerType, requestURL, startRecordIndex, pageSize).Pass?
      ensures r.Failure? ==> r.error == Validate(containerType, requestURL, startRecordIndex, pageSize).error
      ensures r.Success? ==> fresh(r.value) && r.value.Valid() && r.value.returned == []
      ensures r.Success? ==> r.value.Config() == Settings(containerType.value, requestURL.value, pageSize)
      ensures r.Success? ==> r.value.startRecordIndex == startRecordIndex
      ensures r.Success? ==> r.value.State() == Cursor(startRecordIndex, UNKNOWN_TOTAL)
    {
      var outcome := Validate(containerType, requestURL, startRecordIndex, pageSize);
      if outcome.Fail? {
        return Failure(outcome.error);
      }
      var p := new DefaultDataPaginator.Init(containerType.value, requestURL.value, startRecordIndex, pageSize);
      r := Success(p);
    }

    /** `DefaultDataPaginator(type, url)`: start 0 and page size 0. */
    static method CreateDefault(containerType: Option<ContainerType>, requestURL: Option<string>)
      returns (r: Result<DefaultDataPaginator<T>, Exception>)
      ensures r.Success? <==> Validate(containerType, requestURL, 0, 0).Pass?
      ensures r.Failure? ==> r.error == Validate(containerType, requestURL, 0, 0).error
      ensures r.Success? ==> fresh(r.value) && r.value.Valid() && r.value.returned == []
      ensures r.Success? ==> r.value.Config() == Settings(containerType.value, requestURL.value, 0)
      ensures r.Success? ==> r.value.startRecordIndex == 0 && r.value.State() == Cursor(0, UNKNOWN_TOTAL)
    {
      r := Create(containerType, requestURL, 0, 0);
    }

    /** `DefaultDataPaginator(type, url, pageSize)`: start 0. */
    static method CreateWithPageSize(containerType: Option<ContainerType>, requestURL: Option<string>, pageSize: Int32)
      returns (r: Result<DefaultDataPaginator<T>, Exception>)
      ensures r.Success? <==> Validate(containerType, requestURL, 0, pageSize).Pass?
      ensures r.Failure? ==> r.error == Validate(containerType, requestURL, 0, pageSize).error
      ensures r.Success? ==> fresh(r.value) && r.value.Valid() && r.value.returned == []
      ensures r.Success? ==> r.value.Config() == Settings(containerType.value, requestURL.value, pageSize)
      ensures r.Success? ==> r.value.startRecordIndex == 0 && r.value.State() == Cursor(0, UNKNOWN_TOTAL)
    {
      r := Create(containerType, requestURL, 0, pageSize);
    }

    /** `getTotalRecordsCount`. */
    function GetTotalRecordsCount(): Result<Int64, Exception>
      reads this
    {
      TotalRecordsCount(State())
    }

    /** `hasMoreRecords`; it changes nothing. */
    function HasMoreRecords(): bool
      reads this
    {
      HasMore(State())
    }

    /** `nextPageRecords`. */
    method NextPageRecords(fetch: Fetch<T>) returns (r: Result<Option<seq<T>>, Exception>)
      requires Valid()
      modifies this
      ensures Valid()
      ensures (State(), r) == NextPage(Config(), old(State()), fetch)
      ensures returned == old(returned) + Delivered(r)
    {
      if totalRecordCount != UNKNOWN_TOTAL && recordIndexToStartRetrieval >= totalRecordCount {
        return Failure(RC(ILLEGAL_STATE, Some(AlreadyReturned(State())), None));
      }
      var fetched := fetch(PrepareRequestURL(requestURL, recordIndexToStartRetrieval, pageSize), containerType);
      if fetched.Failure? {
        return Failure(fetched.error);
      }
      if fetched.value.None? {
        return Failure(NullPointer);
      }
      var container := fetched.value.value;
      var objectsToReturn := container.objects;
      if objectsToReturn.None? {
        totalRecordCount := 0;
        return Success(None);
      }
      if |objectsToReturn.value| > pageSize {
        return Failure(RC(ILLEGAL_STATE, Some(WrongSize(|objectsToReturn.value|)), None));
      }
      Advance(objectsToReturn.value, container.totalCount);
      r := Success(objectsToReturn);
    }

    /** The bookkeeping of an accepted page: the index moves on by the page's length (in 64-bit
        arithmetic) and the declared total replaces the stored one. */
    method Advance(page: seq<T>, totalCount: Int64)
      requires Valid()
      modifies this
      ensures Valid()
      ensures State() == Cursor(WrapLong(old(recordIndexToStartRetrieval) + |page|), totalCount)
      ensures returned == old(returned) + page
    {
      WrapLongAdd(startRecordIndex + |returned|, |page|);
      recordIndexToStartRetrieval := WrapLong(recordIndexToStartRetrieval + |page|);
      totalRecordCount := totalCount;
      returned := returned + page;
    }

    /** `getAllRecords`. It never looks at this paginator: it drains `issuePaginator`, the one
        `RedmineConnector.getSharedInstance().getIssues()` returns (a new issues paginator from
        record 0, 25 records per page), and concatenates its pages. */
    method GetAllRecords(issuePaginator: DefaultDataPaginator<T>, fetch: Fetch<T>, fuel: nat)
      returns (r: Option<Result<seq<T>, Exception>>)
      requires issuePaginator != this
      requires issuePaginator.Config().containerType == IssuesContainer && issuePaginator.Config().pageSize == 25
      requires issuePaginator.startRecordIndex == 0 && issuePaginator.returned == []
      requires issuePaginator.State() == Cursor(0, UNKNOWN_TOTAL)
      requires issuePaginator.Valid()
      modifies issuePaginator
      ensures returned == old(returned) && State() == old(State())
      ensures issuePaginator.Valid()
      ensures r == AllRecords(issuePaginator.Config(), Cursor(0, UNKNOWN_TOTAL), fetch, [], fuel)
      ensures r == AllRecords(issuePaginator.Config(), old(issuePaginator.State()), fetch, [], fuel)
      ensures r.Some? && r.value.Success? ==>
                issuePaginator.returned == old(issuePaginator.returned) + r.value.value &&
                !issuePaginator.HasMoreRecords()
    {
      ghost var settings := issuePaginator.Config();
      ghost var start := issuePaginator.State();
      ghost var earlier := issuePaginator.returned;
      var bdos: seq<T> := [];
      var left := fuel;
      while issuePaginator.HasMoreRecords()
        invariant issuePaginator.Valid()
        invariant AllRecords(settings, start, fetch, [], fuel) == AllRecords(settings, issuePaginator.State(), fetch, bdos, left)
        invariant issuePaginator.returned == earlier + bdos
        decreases left
      {
        ghost var before := issuePaginator.State();
        if left == 0 {
          AllRecordsStops(settings, before, fetch, bdos, left);
          return None;
        }
        var issues := issuePaginator.NextPageRecords(fetch);
        if issues.Failure? || issues.value.None? {
          AllRecordsStops(settings, before, fetch, bdos, left);
          return Some(Failure(if issues.Failure? then issues.error else NullPointer));
        }
        AllRecordsStep(settings, before, fetch, bdos, left, issuePaginator.State(), issues.value.value);
        assert Delivered(issues) == issues.value.value;
        AppendAssoc(earlier, bdos, issues.value.value);
        bdos := bdos + issues.value.value;
        left := left - 1;
      }
      r := Some(Success(bdos));
    }
  }

  /** Once the total is known and reached, `nextPageRecords` throws `ILLEGAL_STATE`, leaves the
      cursor as it was, and does not fetch: the result is the same whatever the server answers. */
  lemma NextPageExhausted<T>(s: Settings, c: Cursor, fetch: Fetch<T>, other: Fetch<T>)
    requires Exhausted(c)
    ensures NextPage(s, c, fetch) == NextPage(s, c, other)
    ensures NextPage(s, c, fetch) == (c, Failure(RC(ILLEGAL_STATE, Some(AlreadyReturned(c)), None)))
  {
  }

  /** Otherwise the page requested is the one at `offset = index` with `limit = pageSize`: two
      servers that agree on that request give the same outcome. */
  lemma NextPageRequest<T>(s: Settings, c: Cursor, fetch: Fetch<T>, other: Fetch<T>)
    requires !Exhausted(c)
    requires other(PrepareRequestURL(s.requestURL, c.index, s.pageSize), s.containerType)
             == fetch(PrepareRequestURL(s.requestURL, c.index, s.pageSize), s.containerType)
    ensures NextPage(s, c, fetch) == NextPage(s, c, other)
  {
  }

  /** The three outcomes of a fetched container. */
  lemma NextPageOutcomes<T>(s: Settings, c: Cursor, fetch: Fetch<T>, container: Container<T>)
    requires !Exhausted(c)
    requires fetch(PrepareRequestURL(s.requestURL, c.index, s.pageSize), s.containerType) == Success(Some(container))
    ensures container.objects.None? ==> NextPage(s, c, fetch) == (Cursor(c.index, 0), Success(None))
    ensures container.objects.Some? && |container.objects.value| > s.pageSize ==>
              NextPage(s, c, fetch).0 == c &&
              NextPage(s, c, fetch).1 == Failure(RC(ILLEGAL_STATE, Some(WrongSize(|container.objects.value|)), None))
    ensures container.objects.Some? && |container.objects.value| <= s.pageSize ==>
              NextPage(s, c, fetch).1 == Success(container.objects) &&
              NextPage(s, c, fetch).0.total == container.totalCount &&
              NextPage(s, c, fetch).0.index == WrapLong(c.index + |container.objects.value|)
  {
  }

  /** Away from 64-bit overflow, the index grows by exactly the number of records handed over
      (not by the page size), so it never decreases; every failure leaves the cursor alone. */
  lemma NextPageIndex<T>(s: Settings, c: Cursor, fetch: Fetch<T>)
    requires c.index + s.pageSize <= LONG_MAX
    ensures NextPage(s, c, fetch).0.index == c.index + |Delivered(NextPage(s, c, fetch).1)|
    ensures NextPage(s, c, fetch).0.index >= c.index
    ensures NextPage(s, c, fetch).1.Failure? ==> NextPage(s, c, fetch).0 == c
  {
  }

  /** `getTotalRecordsCount` throws `ILLEGAL_STATE` until a total is stored, then returns it. */
  lemma TotalRecordsCountMeaning(c: Cursor)
    ensures TotalRecordsCount(c).Failure? <==> c.total == UNKNOWN_TOTAL
    ensures TotalRecordsCount(c).Failure? ==> TotalRecordsCount(c).error.RC? && TotalRecordsCount(c).error.code == ILLEGAL_STATE
    ensures TotalRecordsCount(c).Success? ==> TotalRecordsCount(c).value == c.total
  {
  }

  /** One turn of the `getAllRecords` loop that received a page. */
  lemma AllRecordsStep<T>(s: Settings, c: Cursor, fetch: Fetch<T>, acc: seq<T>, fuel: nat, next: Cursor, page: seq<T>)
    requires HasMore(c) && fuel > 0 && NextPage(s, c, fetch) == (next, Success(Some(page)))
    ensures AllRecords(s, c, fetch, acc, fuel) == AllRecords(s, next, fetch, acc + page, fuel - 1)
  {
  }

  /** The turns of the `getAllRecords` loop that end it early: no fuel left, an exception, or a
      null page. */
  lemma AllRecordsStops<T>(s: Settings, c: Cursor, fetch: Fetch<T>, acc: seq<T>, fuel: nat)
    requires HasMore(c)
    ensures fuel == 0 ==> AllRecords(s, c, fetch, acc, fuel) == None
    ensures fuel > 0 && NextPage(s, c, fetch).1.Failure? ==>
              AllRecords(s, c, fetch, acc, fuel) == Some(Failure(NextPage(s, c, fetch).1.error))
    ensures fuel > 0 && NextPage(s, c, fetch).1.Success? && NextPage(s, c, fetch).1.value.None? ==>
              AllRecords(s, c, fetch, acc, fuel) == Some(Failure(NullPointer))
  {
  }

  /** The records gathered so far head the result of `getAllRecords`. */
  lemma {:induction false} AllRecordsExtends<T>(s: Settings, c: Cursor, fetch: Fetch<T>, acc: seq<T>, fuel: nat)
    requires AllRecords(s, c, fetch, acc, fuel).Some? && AllRecords(s, c, fetch, acc, fuel).value.Success?
    ensures acc <= AllRecords(s, c, fetch, acc, fuel).value.value
    decreases fuel
  {
    if HasMore(c) {
      var (next, page) := NextPage(s, c, fetch);
      AllRecordsExtends(s, next, fetch, acc + page.value.value, fuel - 1);
    }
  }

  /** More fuel does not change a result reached with less. */
  lemma {:induction false} AllRecordsFuel<T>(s: Settings, c: Cursor, fetch: Fetch<T>, acc: seq<T>, fuel: nat, more: nat)
    requires AllRecords(s, c, fetch, acc, fuel).Some?
    requires fuel <= more
    ensures AllRecords(s, c, fetch, acc, more) == AllRecords(s, c, fetch, acc, fuel)
    decreases fuel
  {
    if HasMore(c) {
      var (next, page) := NextPage(s, c, fetch);
      if page.Success? && page.value.Some? {
        AllRecordsFuel(s, next, fetch, acc + page.value.value, fuel - 1, more - 1);
      }
    }
  }
}
