/** The Users view: a paginated user directory, fetched one page at a time,
    with Previous and Next buttons. */
module Users {
  import opened Outcomes

  datatype User = User(id: int, email: string, firstName: string, lastName: string, avatar: string)

  /** The decoded body of a successful page request. */
  datatype UsersResponse = UsersResponse(page: int, perPage: int, total: int, totalPages: int, data: seq<User>)

  /** The message stored when the response is not ok. */
  const FetchFailed: string := "Failed to fetch users"

  function Max(a: int, b: int): int { if a < b then b else a }
  function Min(a: int, b: int): int { if a < b then a else b }

  /** The page `handlePreviousPage` moves to: one back, clamped at 1; below
      page 1 it does nothing. */
  function PreviousPage(currentPage: int): (p: int)
    ensures currentPage >= 1 ==> p == Max(1, currentPage - 1)
    ensures currentPage < 1 ==> p == currentPage
    ensures p == currentPage <==> currentPage <= 1
  {
    if currentPage > 1 then currentPage - 1 else currentPage
  }

  /** The page `handleNextPage` moves to: one on, clamped at the last page;
      at or beyond the last page it does nothing. */
  function NextPage(currentPage: int, totalPages: int): (p: int)
    ensures currentPage <= totalPages ==> p == Min(totalPages, currentPage + 1)
    ensures currentPage > totalPages ==> p == currentPage
    ensures p == currentPage <==> currentPage >= totalPages
  {
    if currentPage < totalPages then currentPage + 1 else currentPage
  }

  /** Previous is disabled on page 1 and while loading. */
  predicate PreviousDisabled(currentPage: int, loading: bool)
  {
    currentPage == 1 || loading
  }

  /** Next is disabled on the page equal to the page count and while loading. */
  predicate NextDisabled(currentPage: int, totalPages: int, loading: bool)
  {
    currentPage == totalPages || loading
  }

  /** Within 1..totalPages and not loading, a button is enabled exactly when
      its handler moves the page. */
  lemma EnabledIffHandlerMoves(currentPage: int, totalPages: int)
    requires 1 <= currentPage <= totalPages
    ensures !PreviousDisabled(currentPage, false) <==> PreviousPage(currentPage) != currentPage
    ensures !NextDisabled(currentPage, totalPages, false) <==> NextPage(currentPage, totalPages) != currentPage
  {
  }

  /** With a page count of 0 (the initial value, or an empty directory), the
      Next button on page 1 is enabled once loading ends, yet its handler
      does nothing. */
  lemma NextEnabledButInertWithoutPages()
    ensures !NextDisabled(1, 0, false) && NextPage(1, 0) == 1
  {
  }

  /** The view's state cells (the mobile flag only picks cards or a table,
      and is not part of this state). */
  datatype UsersState = UsersState(
    users: seq<User>,
    loading: bool,
    error: string,
    currentPage: int,
    totalPages: int)

  /** The state before the first render. */
  const Initial: UsersState := UsersState([], true, "", 1, 0)

  /** The current page lies in 1..totalPages. */
  predicate PageInRange(s: UsersState)
  {
    1 <= s.currentPage <= s.totalPages
  }

  /** The start of `fetchUsers`: loading on, error cleared, nothing else changes. */
  function AfterFetchStart(s: UsersState): (t: UsersState)
    ensures t.loading && t.error == ""
    ensures t.(loading := s.loading, error := s.error) == s
  {
    s.(loading := true, error := "")
  }

  /** The end of `fetchUsers`: an ok response replaces the users together
      with the page and the page count; a failure records its message and
      leaves all three alone; loading is off in every case. */
  function AfterFetchEnd(s: UsersState, outcome: FetchOutcome<UsersResponse>): (t: UsersState)
    ensures !t.loading
    ensures outcome.Ok? ==> t.users == outcome.payload.data && t.totalPages == outcome.payload.totalPages
                            && t.currentPage == outcome.payload.page && t.error == s.error
    ensures outcome.NotOk? ==> t.error == FetchFailed
    ensures outcome.Thrown? ==> t.error == NetworkError
    ensures !outcome.Ok? ==> t.users == s.users && t.currentPage == s.currentPage
                             && t.totalPages == s.totalPages
  {
    match outcome
    case Ok(data) =>
      s.(users := data.data, totalPages := data.totalPages, currentPage := data.page, loading := false)
    case NotOk => s.(error := FetchFailed, loading := false)
    case Thrown => s.(error := NetworkError, loading := false)
  }

  /** A whole `fetchUsers`. */
  function AfterFetch(s: UsersState, outcome: FetchOutcome<UsersResponse>): (t: UsersState)
    ensures !t.loading
    ensures outcome.Ok? <==> t.error == ""
    ensures outcome.Ok? ==> t.users == outcome.payload.data && t.totalPages == outcome.payload.totalPages
                            && t.currentPage == outcome.payload.page
    ensures !outcome.Ok? ==> t.users == s.users && t.currentPage == s.currentPage
                             && t.totalPages == s.totalPages
  {
    AfterFetchEnd(AfterFetchStart(s), outcome)
  }

  /** `handlePreviousPage` changes only the current page, and keeps it in range. */
  function AfterPreviousPage(s: UsersState): (t: UsersState)
    ensures t.(currentPage := s.currentPage) == s
    ensures s.currentPage > 1 ==> t.currentPage == s.currentPage - 1
    ensures s.currentPage <= 1 ==> t == s
    ensures PageInRange(s) ==> PageInRange(t)
  {
    s.(currentPage := PreviousPage(s.currentPage))
  }

  /** `handleNextPage` changes only the current page, and keeps it in range;
      with no pages it is a no-op. */
  function AfterNextPage(s: UsersState): (t: UsersState)
    ensures t.(currentPage := s.currentPage) == s
    ensures s.currentPage < s.totalPages ==> t.currentPage == s.currentPage + 1
    ensures s.currentPage >= s.totalPages ==> t == s
    ensures PageInRange(s) ==> PageInRange(t)
  {
    s.(currentPage := NextPage(s.currentPage, s.totalPages))
  }

  /** The page range is not an invariant of the view: it does not hold
      initially, and an ok fetch stores whatever page the body names. */
  lemma RangeNotKeptByFetch(s: UsersState)
    requires PageInRange(s)
    ensures !PageInRange(Initial)
    ensures !PageInRange(AfterFetch(s, Ok(UsersResponse(5, 6, 7, 2, []))))
  {
  }

  /** What the view renders. */
  datatype UsersView =
    | Spinner
    | ErrorAlert(message: string)
    | Directory(users: seq<User>, currentPage: int, totalPages: int,
                previousDisabled: bool, nextDisabled: bool)

  /** The spinner shows only while loading with no users yet; otherwise a
      non-empty error replaces the page; otherwise the directory is listed
      with its page label and button states. */
  function Render(s: UsersState): (v: UsersView)
    ensures v.Spinner? <==> s.loading && s.users == []
    ensures v.ErrorAlert? <==> !(s.loading && s.users == []) && s.error != ""
    ensures v.ErrorAlert? ==> v.message == s.error
    ensures v.Directory? ==> v.users == s.users && v.currentPage == s.currentPage
                             && v.totalPages == s.totalPages
                             && v.previousDisabled == PreviousDisabled(s.currentPage, s.loading)
                             && v.nextDisabled == NextDisabled(s.currentPage, s.totalPages, s.loading)
  {
    if s.loading && |s.users| == 0 then Spinner
    else if s.error != "" then ErrorAlert(s.error)
    else Directory(s.users, s.currentPage, s.totalPages,
                   PreviousDisabled(s.currentPage, s.loading),
                   NextDisabled(s.currentPage, s.totalPages, s.loading))
  }

  /** Re-fetching while users are listed keeps the list on screen with both
      buttons disabled, instead of the spinner. */
  lemma RefetchKeepsDirectory(s: UsersState)
    requires s.users != []
    ensures Render(AfterFetchStart(s))
            == Directory(s.users, s.currentPage, s.totalPages, true, true)
  {
  }

  /** A failed fetch hides the whole directory behind its message. */
  lemma FailedFetchShowsAlert(s: UsersState, outcome: FetchOutcome<UsersResponse>)
    requires !outcome.Ok?
    ensures Render(AfterFetch(s, outcome))
            == ErrorAlert(if outcome.NotOk? then FetchFailed else NetworkError)
  {
  }

  /** A first page of one user out of two pages is listed with Previous
      disabled and Next enabled. */
  lemma FirstPageExample(u: User)
    ensures Render(AfterFetch(Initial, Ok(UsersResponse(1, 6, 7, 2, [u]))))
            == Directory([u], 1, 2, true, false)
  {
  }

  /** The page component: its state cells are the fields. */
  class UsersPage {
    var users: seq<User>
    var loading: bool
    var error: string
    var currentPage: int
    var totalPages: int

    function State(): UsersState
      reads this
    {
      UsersState(users, loading, error, currentPage, totalPages)
    }

    constructor ()
      ensures State() == Initial
    {
      users, loading, error := [], true, "";
      currentPage, totalPages := 1, 0;
    }

    /** The try block's first two statements. */
    method FetchStart()
      modifies this
      ensures State() == AfterFetchStart(old(State()))
    {
      loading := true;
      error := "";
    }

    /** The rest of the try block, the catch and the finally, for one outcome. */
    method FetchEnd(outcome: FetchOutcome<UsersResponse>)
      modifies this
      ensures State() == AfterFetchEnd(old(State()), outcome)
    {
      match outcome {
        case Ok(data) =>
          users := data.data;
          totalPages := data.totalPages;
          currentPage := data.page;
        case NotOk =>
          error := FetchFailed;
        case Thrown =>
          error := NetworkError;
      }
      loading := false;
    }

    /** `fetchUsers`, run on mount and whenever `currentPage` changes. */
    method FetchUsers(outcome: FetchOutcome<UsersResponse>)
      modifies this
      ensures State() == AfterFetch(old(State()), outcome)
    {
      FetchStart();
      FetchEnd(outcome);
    }

    method HandlePreviousPage()
      modifies this
      ensures State() == AfterPreviousPage(old(State()))
    {
      if currentPage > 1 {
        currentPage := currentPage - 1;
      }
    }

    method HandleNextPage()
      modifies this
      ensures State() == AfterNextPage(old(State()))
    {
      if currentPage < totalPages {
        currentPage := currentPage + 1;
      }
    }
  }
}
