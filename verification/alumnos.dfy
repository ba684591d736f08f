/** The paged, sortable, searchable student list of the "Alumnos" page
    (src/pages/AlumnosPage.jsx): the sort-toggle rule, the request derived from
    the page state, the page count, the pager buttons, the column-header
    indicator, the error message, and the page state as an object. */
module Alumnos {
  import opened Common

  const ItemsPerPage: nat := 10
  const InitialSortColumn := "lastname"
  const LoadErrorFallback := "Error al cargar los datos de alumnos."

  /** The sortable columns of the table, in header order. */
  const Columns: seq<string> := ["id", "firstname", "lastname", "email"]

  datatype SortDir = Asc | Desc

  datatype Alumno = Alumno(id: int, firstname: string, lastname: string, email: string)

  /** The `/alumnos/` response body; the two chart series are not modelled. */
  datatype AlumnosData = AlumnosData(kpis: seq<Kpi>, students: seq<Alumno>, total: nat)

  const EmptyData := AlumnosData([], [], 0)

  /** The state the fetch depends on: `currentPage`, `sortBy`, `sortDir` and the
      debounced search term, the dependency list of `fetchData`. */
  datatype ListQuery = ListQuery(page: int, sortBy: string, sortDir: SortDir, search: string)

  const InitialQuery := ListQuery(1, InitialSortColumn, Asc, "")

  /** The query parameters of `GET /alumnos/`. */
  datatype Request = Request(skip: int, limit: nat, sortBy: string, sortDir: SortDir, search: Option<string>)

  // ---------------------------------------------------------------- sorting

  /** Direction after a click on `column` while the table is sorted by `sortBy`/`sortDir`. */
  function NextSortDir(sortBy: string, sortDir: SortDir, column: string): (d: SortDir)
    ensures d == Desc <==> sortBy == column && sortDir == Asc
  {
    if sortBy == column && sortDir == Asc then Desc else Asc
  }

  /** `handleSort`: sort by the clicked column and go back to the first page. */
  function Sort(q: ListQuery, column: string): (r: ListQuery)
    ensures r.sortBy == column && r.page == 1 && r.search == q.search
    ensures r.sortDir == Desc <==> q.sortBy == column && q.sortDir == Asc
  {
    ListQuery(1, column, NextSortDir(q.sortBy, q.sortDir, column), q.search)
  }

  /** Clicking the active column twice restores its direction; the page stays reset. */
  lemma SortTwiceOnActiveColumn(q: ListQuery)
    ensures Sort(Sort(q, q.sortBy), q.sortBy) == q.(page := 1)
  {
  }

  /** A click on another column sorts ascending, whatever the current direction. */
  lemma SortOtherColumnAscends(q: ListQuery, column: string)
    requires column != q.sortBy
    ensures Sort(q, column).sortDir == Asc
  {
  }

  // ---------------------------------------------------------------- request

  /** The parameters `fetchData` sends for a query. */
  function RequestFor(q: ListQuery): (r: Request)
    ensures r.limit == ItemsPerPage
    ensures r.skip == (q.page - 1) * ItemsPerPage
    ensures r.sortBy == q.sortBy && r.sortDir == q.sortDir
    ensures r.search.Some? <==> q.search != ""
    ensures r.search.Some? ==> r.search.value == q.search
  {
    Request((q.page - 1) * ItemsPerPage, ItemsPerPage, q.sortBy, q.sortDir,
            if q.search != "" then Some(q.search) else None)
  }

  /** `Math.ceil(total / ITEMS_PER_PAGE)`: the least number of pages that holds
      `total` rows, which is 0 for an empty result. */
  function TotalPages(total: nat): (n: nat)
    ensures n * ItemsPerPage >= total
    ensures n > 0 ==> (n - 1) * ItemsPerPage < total
    ensures total == 0 <==> n == 0
  {
    (total + ItemsPerPage - 1) / ItemsPerPage
  }

  /** Consecutive pages ask for adjacent windows of the result set. */
  lemma PagesAreAdjacent(q: ListQuery)
    ensures RequestFor(q.(page := q.page + 1)).skip == RequestFor(q).skip + RequestFor(q).limit
  {
  }

  /** Every page from 1 to the page count starts inside the result set. */
  lemma {:induction false} ReachablePageStartsInResults(q: ListQuery, total: nat)
    requires 1 <= q.page <= TotalPages(total)
    ensures 0 <= RequestFor(q).skip < total
  {
    var n := TotalPages(total);
    assert (q.page - 1) * ItemsPerPage <= (n - 1) * ItemsPerPage;
  }

  /** 23 students make 3 pages, and the third asks for rows 20 to 29. */
  lemma ThirdOfThreePages()
    ensures TotalPages(23) == 3
    ensures RequestFor(ListQuery(3, InitialSortColumn, Asc, "")).skip == 20
    ensures RequestFor(ListQuery(3, InitialSortColumn, Asc, "")).limit == 10
  {
  }

  // ---------------------------------------------------------------- pager

  /** `disabled` of "Anterior". */
  function PreviousDisabled(page: int, loading: bool): (disabled: bool)
    ensures loading ==> disabled
    ensures page >= 1 ==> (!disabled <==> !loading && page - 1 >= 1)
  {
    page == 1 || loading
  }

  /** `disabled` of "Siguiente". */
  function NextDisabled(page: int, totalPages: nat, loading: bool): (disabled: bool)
    ensures loading ==> disabled
    ensures !disabled <==> !loading && page + 1 <= totalPages
  {
    page >= totalPages || loading
  }

  /** A click on "Anterior": a disabled button does nothing, an enabled one maps
      `p` to `max(1, p - 1)`. */
  function PressPrevious(q: ListQuery, loading: bool): (r: ListQuery)
    ensures r == q.(page := r.page)
    ensures PreviousDisabled(q.page, loading) ==> r == q
    ensures !PreviousDisabled(q.page, loading) ==> r.page == Max(1, q.page - 1)
    ensures q.page >= 1 ==> r.page >= 1
    ensures q.page >= 1 && !PreviousDisabled(q.page, loading) ==> r.page == q.page - 1
  {
    if PreviousDisabled(q.page, loading) then q else q.(page := Max(1, q.page - 1))
  }

  /** A click on "Siguiente" with `total` rows known: a disabled button does
      nothing, an enabled one maps `p` to `min(totalPages, p + 1)`. */
  function PressNext(q: ListQuery, loading: bool, total: nat): (r: ListQuery)
    ensures r == q.(page := r.page)
    ensures NextDisabled(q.page, TotalPages(total), loading) ==> r == q
    ensures !NextDisabled(q.page, TotalPages(total), loading) ==>
              r.page == Min(TotalPages(total), q.page + 1)
    ensures q.page >= 1 ==> r.page >= 1
    ensures !NextDisabled(q.page, TotalPages(total), loading) ==>
              r.page == q.page + 1 && r.page <= TotalPages(total)
  {
    var n := TotalPages(total);
    if NextDisabled(q.page, n, loading) then q else q.(page := Min(n, q.page + 1))
  }

  /** The user actions that change the query. */
  datatype ListEvent =
    | PreviousClicked(loading: bool)
    | NextClicked(loading: bool, total: nat)
    | HeaderClicked(column: string)
    | SearchSettled(term: string)

  function Apply(q: ListQuery, e: ListEvent): (r: ListQuery)
    ensures q.page >= 1 ==> r.page >= 1
  {
    match e
    case PreviousClicked(loading) => PressPrevious(q, loading)
    case NextClicked(loading, total) => PressNext(q, loading, total)
    case HeaderClicked(column) => Sort(q, column)
    case SearchSettled(term) => q.(search := term)
  }

  function Replay(q: ListQuery, events: seq<ListEvent>): ListQuery
    decreases |events|
  {
    if events == [] then q else Replay(Apply(q, events[0]), events[1..])
  }

  /** However the user clicks, the current page never drops below 1. */
  lemma {:induction false} ReplayKeepsPagePositive(q: ListQuery, events: seq<ListEvent>)
    requires q.page >= 1
    ensures Replay(q, events).page >= 1
    decreases |events|
  {
    if events != [] {
      ReplayKeepsPagePositive(Apply(q, events[0]), events[1..]);
    }
  }

  /** Typing into the search box changes nothing the fetch depends on until
      the term settles: a settled term keeps page and sort. */
  lemma SettledSearchKeepsPageAndSort(q: ListQuery, term: string)
    ensures Apply(q, SearchSettled(term)) == q.(search := term)
    ensures RequestFor(Apply(q, SearchSettled(term))).skip == RequestFor(q).skip
  {
  }

  // ---------------------------------------------------------------- header

  datatype Chevron = Up | Down

  /** The indicator `SortableHeader` draws next to the title of `columnId`. */
  function Indicator(sortBy: string, sortDir: SortDir, columnId: string): (c: Option<Chevron>)
    ensures c.Some? <==> sortBy == columnId
    ensures c == Some(Up) <==> sortBy == columnId && sortDir == Asc
    ensures c == Some(Down) <==> sortBy == columnId && sortDir == Desc
  {
    if sortBy == columnId then Some(if sortDir == Asc then Up else Down) else None
  }

  /** The number of headers in `columns` that draw an indicator. */
  function IndicatorCount(sortBy: string, sortDir: SortDir, columns: seq<string>): nat
    decreases |columns|
  {
    if columns == [] then 0
    else (if Indicator(sortBy, sortDir, columns[0]).Some? then 1 else 0)
         + IndicatorCount(sortBy, sortDir, columns[1..])
  }

  predicate Distinct(columns: seq<string>) {
    forall i, j :: 0 <= i < j < |columns| ==> columns[i] != columns[j]
  }

  /** Among distinct headers exactly the active column, if present, shows an indicator. */
  lemma {:induction false} IndicatorCountIsMembership(sortBy: string, sortDir: SortDir, columns: seq<string>)
    requires Distinct(columns)
    ensures IndicatorCount(sortBy, sortDir, columns) == if sortBy in columns then 1 else 0
    decreases |columns|
  {
    if columns != [] {
      var tail := columns[1..];
      assert Distinct(tail) by {
        forall i, j | 0 <= i < j < |tail| ensures tail[i] != tail[j] {
          assert tail[i] == columns[i + 1] && tail[j] == columns[j + 1];
        }
      }
      IndicatorCountIsMembership(sortBy, sortDir, tail);
      assert columns[0] !in tail by {
        forall k | 0 <= k < |tail| ensures tail[k] != columns[0] {
          assert tail[k] == columns[k + 1];
        }
      }
      assert sortBy in columns <==> sortBy == columns[0] || sortBy in tail by {
        assert columns == [columns[0]] + tail;
      }
    }
  }

  /** The student table's four headers show one indicator when sorted by one of them. */
  lemma TableShowsOneIndicator(sortBy: string, sortDir: SortDir)
    requires sortBy in Columns
    ensures IndicatorCount(sortBy, sortDir, Columns) == 1
  {
    IndicatorCountIsMembership(sortBy, sortDir, Columns);
  }

  // ---------------------------------------------------------------- view

  /** The message `fetchData` stores when the request fails. */
  function ErrorMessage(detail: Option<string>): (msg: string)
    ensures msg != ""
    ensures Truthy(detail) ==> msg == detail.value
    ensures !Truthy(detail) ==> msg == LoadErrorFallback
  {
    DetailOr(detail, LoadErrorFallback)
  }

  datatype Screen = LoadingScreen | ErrorScreen(message: string) | Dashboard

  /** What the page renders: the loading text while nothing has loaded yet,
      the error text after a failure, the dashboard otherwise. */
  function ScreenFor(loading: bool, data: AlumnosData, error: string): (s: Screen)
    ensures s == LoadingScreen <==> loading && |data.kpis| == 0
    ensures s.ErrorScreen? <==> !(loading && |data.kpis| == 0) && error != ""
    ensures s.ErrorScreen? ==> s.message == error
  {
    if loading && |data.kpis| == 0 then LoadingScreen
    else if error != "" then ErrorScreen(error)
    else Dashboard
  }

  /** Once a failed fetch has finished, the page shows an error, never a stale table. */
  lemma FailedFetchShowsError(data: AlumnosData, detail: Option<string>)
    ensures ScreenFor(false, data, ErrorMessage(detail)) == ErrorScreen(ErrorMessage(detail))
  {
  }

  // ---------------------------------------------------------------- state

  /** The state of one mounted `AlumnosPage`. */
  class AlumnosController {
    var currentPage: int
    var searchTerm: string
    var debouncedSearch: string
    var sortBy: string
    var sortDir: SortDir
    var pageData: AlumnosData
    var loading: bool
    var error: string

    /** The page is always a real page number. */
    ghost predicate Valid()
      reads this
    {
      currentPage >= 1
    }

    function Query(): ListQuery
      reads this
    {
      ListQuery(currentPage, sortBy, sortDir, debouncedSearch)
    }

    function TotalPagesShown(): nat
      reads this
    {
      TotalPages(pageData.total)
    }

    function CurrentScreen(): Screen
      reads this
    {
      ScreenFor(loading, pageData, error)
    }

    constructor ()
      ensures Valid()
      ensures Query() == InitialQuery && searchTerm == ""
      ensures pageData == EmptyData && loading && error == ""
    {
      currentPage := 1;
      searchTerm := "";
      debouncedSearch := "";
      sortBy := InitialSortColumn;
      sortDir := Asc;
      pageData := EmptyData;
      loading := true;
      error := "";
    }

    /** The search box's `onChange`: the raw term changes, the query does not. */
    method SetSearchTerm(text: string)
      requires Valid()
      modifies this`searchTerm
      ensures Valid() && searchTerm == text
      ensures Query() == old(Query())
    {
      searchTerm := text;
    }

    /** The debounce timer fires with the term typed last. */
    method SettleSearch()
      requires Valid()
      modifies this`debouncedSearch
      ensures Valid()
      ensures Query() == Apply(old(Query()), SearchSettled(searchTerm))
    {
      debouncedSearch := searchTerm;
    }

    /** `handleSort(column)`. */
    method HandleSort(column: string)
      requires Valid()
      modifies this`sortBy, this`sortDir, this`currentPage
      ensures Valid()
      ensures Query() == Apply(old(Query()), HeaderClicked(column))
    {
      var newSortDir := NextSortDir(sortBy, sortDir, column);
      sortBy := column;
      sortDir := newSortDir;
      currentPage := 1;
    }

    /** A click on "Anterior". */
    method ClickPrevious()
      requires Valid()
      modifies this`currentPage
      ensures Valid()
      ensures Query() == Apply(old(Query()), PreviousClicked(loading))
    {
      if !PreviousDisabled(currentPage, loading) {
        currentPage := Max(1, currentPage - 1);
      }
    }

    /** A click on "Siguiente". */
    method ClickNext()
      requires Valid()
      modifies this`currentPage
      ensures Valid()
      ensures Query() == Apply(old(Query()), NextClicked(loading, pageData.total))
      ensures old(currentPage) != currentPage ==> currentPage <= TotalPagesShown()
    {
      var totalPages := TotalPages(pageData.total);
      if !NextDisabled(currentPage, totalPages, loading) {
        currentPage := Min(totalPages, currentPage + 1);
      }
    }

    /** The start of `fetchData`: show loading, clear the error, send the request. */
    method StartFetch() returns (req: Request)
      requires Valid()
      modifies this`loading, this`error
      ensures Valid() && loading && error == ""
      ensures req == RequestFor(Query())
    {
      loading := true;
      error := "";
      req := RequestFor(Query());
    }

    /** The end of `fetchData`: replace the data wholesale or record the error;
        loading ends either way. */
    method FinishFetch(response: Response<AlumnosData>)
      requires Valid()
      modifies this`pageData, this`error, this`loading
      ensures Valid() && !loading
      ensures response.Ok? ==> pageData == response.data && error == old(error)
      ensures response.Failed? ==> pageData == old(pageData) && error == ErrorMessage(response.detail)
    {
      match response {
        case Ok(data) =>
          pageData := data;
        case Failed(detail) =>
          error := ErrorMessage(detail);
      }
      loading := false;
    }
  }
}
