/** The Posts view: fetches the posts once, keeps the first twenty, and
    derives the visible list from a case-insensitive search on the title. */
module Posts {
  import opened Outcomes
  import opened JsString

  datatype Post = Post(id: int, title: string, body: string, userId: int)

  /** How many of the fetched posts the view keeps. */
  const DisplayLimit: nat := 20

  /** The message stored when the response is not ok. */
  const FetchFailed: string := "Failed to fetch posts"

  /** `data.slice(0, 20)`: the first posts of the response, in order. */
  function FirstPosts(data: seq<Post>): (r: seq<Post>)
    ensures |r| == if |data| < DisplayLimit then |data| else DisplayLimit
    ensures r <= data
  {
    if |data| <= DisplayLimit then data else data[..DisplayLimit]
  }

  /** The filter's test: the lower-cased title contains the lower-cased,
      untrimmed search term. */
  predicate TitleMatches(p: Post, searchTerm: string)
  {
    Includes(ToLowerCase(p.title), ToLowerCase(searchTerm))
  }

  /** The title test ignores ASCII case, in the title and in the term. */
  lemma TitleMatchesIgnoresCase(p: Post, q: Post, searchTerm: string, other: string)
    requires |p.title| == |q.title|
    requires forall i :: 0 <= i < |p.title| ==> LowerChar(p.title[i]) == LowerChar(q.title[i])
    requires |searchTerm| == |other|
    requires forall i :: 0 <= i < |searchTerm| ==> LowerChar(searchTerm[i]) == LowerChar(other[i])
    ensures TitleMatches(p, searchTerm) == TitleMatches(q, other)
  {
    SameLowerCase(p.title, q.title);
    SameLowerCase(searchTerm, other);
  }

  /** `posts.filter(post => TitleMatches(post, searchTerm))`. */
  function KeepMatching(posts: seq<Post>, searchTerm: string): (r: seq<Post>)
    ensures |r| <= |posts|
  {
    if posts == [] then []
    else if TitleMatches(posts[0], searchTerm) then [posts[0]] + KeepMatching(posts[1..], searchTerm)
    else KeepMatching(posts[1..], searchTerm)
  }

  /** What the search effect stores in `filteredPosts`: every post when the
      trimmed term is empty, otherwise the posts whose title matches. */
  function SearchResults(posts: seq<Post>, searchTerm: string): (r: seq<Post>)
    ensures IsBlank(searchTerm) ==> r == posts
    ensures |r| <= |posts|
  {
    if Trim(searchTerm) == "" then posts else KeepMatching(posts, searchTerm)
  }

  /** `a` is `b` with some elements left out, the others kept in order. */
  ghost predicate IsSubsequence<T>(a: seq<T>, b: seq<T>)
    decreases |b|
  {
    a == [] || (b != [] && ((a[0] == b[0] && IsSubsequence(a[1..], b[1..])) || IsSubsequence(a, b[1..])))
  }

  lemma {:induction false} KeepMatchingIsSubsequence(posts: seq<Post>, searchTerm: string)
    ensures IsSubsequence(KeepMatching(posts, searchTerm), posts)
    decreases |posts|
  {
    if posts != [] {
      var rest := KeepMatching(posts[1..], searchTerm);
      KeepMatchingIsSubsequence(posts[1..], searchTerm);
      if TitleMatches(posts[0], searchTerm) {
        assert ([posts[0]] + rest)[1..] == rest;
      }
    }
  }

  /** A post is kept exactly when it is one of `posts` and its title matches,
      and then as many times as it occurs in `posts`. */
  lemma {:induction false} KeepMatchingMembership(posts: seq<Post>, searchTerm: string, p: Post)
    ensures p in KeepMatching(posts, searchTerm) <==> p in posts && TitleMatches(p, searchTerm)
    ensures multiset(KeepMatching(posts, searchTerm))[p]
            == if TitleMatches(p, searchTerm) then multiset(posts)[p] else 0
    decreases |posts|
  {
    if posts != [] {
      KeepMatchingMembership(posts[1..], searchTerm, p);
      assert posts == [posts[0]] + posts[1..];
      assert multiset(posts) == multiset([posts[0]]) + multiset(posts[1..]);
    }
  }

  /** The search result keeps the posts' order, a post is in it exactly
      when it is one of `posts` and the term is blank or its title matches,
      and then as many times as it occurs in `posts`. */
  lemma SearchResultsSpec(posts: seq<Post>, searchTerm: string, p: Post)
    ensures IsSubsequence(SearchResults(posts, searchTerm), posts)
    ensures (p in SearchResults(posts, searchTerm))
              <==> (p in posts && (IsBlank(searchTerm) || TitleMatches(p, searchTerm)))
    ensures multiset(SearchResults(posts, searchTerm))[p]
            == if IsBlank(searchTerm) || TitleMatches(p, searchTerm) then multiset(posts)[p] else 0
  {
    if IsBlank(searchTerm) {
      SubsequenceOfItself(posts);
    } else {
      KeepMatchingIsSubsequence(posts, searchTerm);
      KeepMatchingMembership(posts, searchTerm, p);
    }
  }

  lemma {:induction false} SubsequenceOfItself<T>(s: seq<T>)
    ensures IsSubsequence(s, s)
    decreases |s|
  {
    if s != [] {
      SubsequenceOfItself(s[1..]);
    }
  }

  /** Filtering the already filtered posts again changes nothing. */
  lemma {:induction false} KeepMatchingIdempotent(posts: seq<Post>, searchTerm: string)
    ensures KeepMatching(KeepMatching(posts, searchTerm), searchTerm) == KeepMatching(posts, searchTerm)
    decreases |posts|
  {
    if posts != [] {
      KeepMatchingIdempotent(posts[1..], searchTerm);
      var rest := KeepMatching(posts[1..], searchTerm);
      if TitleMatches(posts[0], searchTerm) {
        assert ([posts[0]] + rest)[1..] == rest;
      }
    }
  }

  lemma SearchResultsIdempotent(posts: seq<Post>, searchTerm: string)
    ensures SearchResults(SearchResults(posts, searchTerm), searchTerm) == SearchResults(posts, searchTerm)
  {
    if !IsBlank(searchTerm) {
      KeepMatchingIdempotent(posts, searchTerm);
    }
  }

  /** The search "foo" against posts titled "Foo bar" and "baz" keeps only
      the first. */
  lemma SearchFooExample(a: Post, b: Post)
    requires a.title == "Foo bar" && b.title == "baz"
    ensures SearchResults([a, b], "foo") == [a]
  {
    assert !IsBlank("foo") by { assert "foo"[0] == 'f'; }
    assert ToLowerCase("foo") == "foo";
    assert ToLowerCase(a.title) == "foo bar";
    assert "foo bar"[..3] == "foo";
    assert TitleMatches(a, "foo");
    assert ToLowerCase(b.title) == "baz";
    assert !Includes("baz", "foo") by {
      assert "baz"[..3][0] == 'b';
      assert "baz"[1..] == "az" && !StartsWith("az", "foo");
      assert "az"[1..] == "z" && !StartsWith("z", "foo");
      assert "z"[1..] == "" && !StartsWith("", "foo");
    }
    assert !TitleMatches(b, "foo");
    assert [a, b][1..] == [b];
    assert [b][1..] == [];
    assert KeepMatching([b], "foo") == [];
  }

  /** The view's state cells. */
  datatype PostsState = PostsState(
    posts: seq<Post>,
    filteredPosts: seq<Post>,
    loading: bool,
    error: string,
    searchTerm: string)

  /** The state before the first render: no posts, loading, no error, no search. */
  const Initial: PostsState := PostsState([], [], true, "", "")

  /** The start of the fetch: loading on, error cleared, nothing else changes. */
  function AfterFetchStart(s: PostsState): (t: PostsState)
    ensures t.loading && t.error == ""
    ensures t.(loading := s.loading, error := s.error) == s
  {
    s.(loading := true, error := "")
  }

  /** The end of the fetch, for each outcome; loading is off whatever happened. */
  function AfterFetchEnd(s: PostsState, outcome: FetchOutcome<seq<Post>>): (t: PostsState)
    ensures !t.loading && t.searchTerm == s.searchTerm
    ensures outcome.Ok? ==> t.posts == FirstPosts(outcome.payload) && t.filteredPosts == t.posts
                            && t.error == s.error
    ensures outcome.NotOk? ==> t.error == FetchFailed
    ensures outcome.Thrown? ==> t.error == NetworkError
    ensures !outcome.Ok? ==> t.posts == s.posts && t.filteredPosts == s.filteredPosts
  {
    match outcome
    case Ok(data) =>
      var first := FirstPosts(data);
      s.(posts := first, filteredPosts := first, loading := false)
    case NotOk => s.(error := FetchFailed, loading := false)
    case Thrown => s.(error := NetworkError, loading := false)
  }

  /** A whole fetch: on success the first twenty posts are stored and shown
      with no error; on failure the posts are kept and the error says why. */
  function AfterFetch(s: PostsState, outcome: FetchOutcome<seq<Post>>): (t: PostsState)
    ensures !t.loading && t.searchTerm == s.searchTerm
    ensures outcome.Ok? ==> t.error == "" && t.posts == FirstPosts(outcome.payload)
                            && t.filteredPosts == t.posts
    ensures !outcome.Ok? ==> t.error != "" && t.posts == s.posts && t.filteredPosts == s.filteredPosts
  {
    AfterFetchEnd(AfterFetchStart(s), outcome)
  }

  /** The search box's change handler stores the term as typed. */
  function AfterSearchChange(s: PostsState, searchTerm: string): (t: PostsState)
    ensures t.searchTerm == searchTerm && t.(searchTerm := s.searchTerm) == s
  {
    s.(searchTerm := searchTerm)
  }

  /** The search effect recomputes `filteredPosts` and changes nothing else. */
  function AfterSearchEffect(s: PostsState): (t: PostsState)
    ensures t.posts == s.posts && t.(filteredPosts := s.filteredPosts) == s
    ensures IsBlank(s.searchTerm) ==> t.filteredPosts == s.posts
    ensures |t.filteredPosts| <= |t.posts|
  {
    s.(filteredPosts := SearchResults(s.posts, s.searchTerm))
  }

  /** The visible list is the search result of the stored posts. */
  ghost predicate Consistent(s: PostsState)
  {
    s.filteredPosts == SearchResults(s.posts, s.searchTerm)
  }

  /** The effect makes the state consistent, and running it again is a no-op. */
  lemma SearchEffectSettles(s: PostsState)
    ensures Consistent(AfterSearchEffect(s))
    ensures AfterSearchEffect(AfterSearchEffect(s)) == AfterSearchEffect(s)
  {
  }

  /** A successful fetch with a blank search term leaves a consistent state,
      so the search effect that the new posts trigger changes nothing. */
  lemma OkFetchIsConsistent(s: PostsState, data: seq<Post>)
    requires IsBlank(s.searchTerm)
    ensures Consistent(AfterFetch(s, Ok(data)))
    ensures AfterSearchEffect(AfterFetch(s, Ok(data))) == AfterFetch(s, Ok(data))
  {
  }

  /** What the view renders. */
  datatype PostsView =
    | Spinner
    | ErrorAlert(message: string)
    | PostList(shown: seq<Post>, total: nat, noMatchNotice: bool)

  /** The spinner wins over the error, the error over the list; the list shows
      `filteredPosts`, the count of `posts`, and the "no posts found" notice
      when nothing is shown and the raw search term is not empty. */
  function Render(s: PostsState): (v: PostsView)
    ensures v.Spinner? <==> s.loading
    ensures v.ErrorAlert? <==> !s.loading && s.error != ""
    ensures v.ErrorAlert? ==> v.message == s.error
    ensures v.PostList? ==> v.shown == s.filteredPosts && v.total == |s.posts|
                            && (v.noMatchNotice <==> s.filteredPosts == [] && s.searchTerm != "")
  {
    if s.loading then Spinner
    else if s.error != "" then ErrorAlert(s.error)
    else PostList(s.filteredPosts, |s.posts|, |s.filteredPosts| == 0 && s.searchTerm != "")
  }

  /** After any fetch the spinner is gone: a failure shows its message, a
      success lists the first twenty posts. */
  lemma FetchOutcomeIsRendered(s: PostsState, outcome: FetchOutcome<seq<Post>>)
    ensures outcome.Thrown? ==> Render(AfterFetch(s, outcome)) == ErrorAlert(NetworkError)
    ensures outcome.NotOk? ==> Render(AfterFetch(s, outcome)) == ErrorAlert(FetchFailed)
    ensures outcome.Ok? ==> Render(AfterFetch(s, outcome)).PostList?
                            && Render(AfterFetch(s, outcome)).shown == FirstPosts(outcome.payload)
  {
  }

  /** The page component: its state cells are the fields. */
  class PostsPage {
    var posts: seq<Post>
    var filteredPosts: seq<Post>
    var loading: bool
    var error: string
    var searchTerm: string

    function State(): PostsState
      reads this
    {
      PostsState(posts, filteredPosts, loading, error, searchTerm)
    }

    constructor ()
      ensures State() == Initial
    {
      posts, filteredPosts := [], [];
      loading, error, searchTerm := true, "", "";
    }

    /** The try block's first two statements. */
    method FetchStart()
      modifies this
      ensures State() == AfterFetchStart(old(State()))
    {
      loading := true;
      error := "";
    }

    /** The rest of the try block, the catch and the finally, for one outcome. */
    method FetchEnd(outcome: FetchOutcome<seq<Post>>)
      modifies this
      ensures State() == AfterFetchEnd(old(State()), outcome)
    {
      match outcome {
        case Ok(data) =>
          var first20Posts := FirstPosts(data);
          posts := first20Posts;
          filteredPosts := first20Posts;
        case NotOk =>
          error := FetchFailed;
        case Thrown =>
          error := NetworkError;
      }
      loading := false;
    }

    /** `fetchPosts`, run once when the view mounts. */
    method FetchPosts(outcome: FetchOutcome<seq<Post>>)
      modifies this
      ensures State() == AfterFetch(old(State()), outcome)
    {
      FetchStart();
      FetchEnd(outcome);
    }

    /** The search box's `onChange`. */
    method HandleSearchChange(value: string)
      modifies this
      ensures State() == AfterSearchChange(old(State()), value)
    {
      searchTerm := value;
    }

    /** The effect that runs whenever `searchTerm` or `posts` changes. */
    method SearchEffect()
      modifies this
      ensures State() == AfterSearchEffect(old(State()))
    {
      if Trim(searchTerm) == "" {
        filteredPosts := posts;
      } else {
        filteredPosts := KeepMatching(posts, searchTerm);
      }
    }
  }
}
