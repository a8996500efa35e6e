/**
 * The front page's post list (frontend/src/main.js): each load fetches one page of posts for a
 * search text, an offset and a sort code, clears the list when the offset is 0, appends the posts
 * in the order they came, and offers a "Load more" button for the next page when the page was full.
 * The server's answer to each fetch is an input of the method that handles it.
 */
module Feed {
  import opened Util
  import opened Models
  import opened Tables
  import opened Http
  import opened PostsApi
  import opened Header

  /** The number of posts that makes a page full. The client never sends `amount`, so the server's default applies. */
  const PageSize: nat := 10

  /** The request a "Load more" button repeats. `sort` is None when the dropdown's value had no number. */
  datatype Cursor = Cursor(search: string, offset: int, sort: Option<int>)

  /** The text a sort code takes in the URL; an unmapped dropdown value is written as `undefined`. */
  function SortParam(sort: Option<int>): string
  {
    if sort.Some? then IntToString(sort.value) else "undefined"
  }

  /** The query parameters of the posts request, in order: `search` only for a non-empty text, then offset and sort. */
  function QueryParams(search: string, offset: int, sort: Option<int>): (r: seq<(string, string)>)
    ensures (exists i :: 0 <= i < |r| && r[i].0 == "search") <==> search != ""
    ensures search != "" ==> r[0] == ("search", search)
    ensures |r| >= 2 && r[|r| - 2] == ("offset", IntToString(offset)) && r[|r| - 1] == ("sort", SortParam(sort))
  {
    var tail := [("offset", IntToString(offset)), ("sort", SortParam(sort))];
    assert "offset" != "search" by { assert "offset"[0] != "search"[0]; }
    assert forall i :: 0 <= i < |tail| ==> tail[i].0 != "search";
    var r := if search != "" then [("search", search)] + tail else tail;
    assert search != "" ==> r[0].0 == "search";
    r
  }

  /** The values of the sort dropdown. */
  function SortName(s: SortType): string
  {
    match s
    case Recommended => "recommended"
    case New => "new"
    case Popular => "popular"
    case Controversial => "controversial"
  }

  /** `sortTypeToInt`: the code of a dropdown value; any other value has none. */
  function SortValue(value: string): (code: Option<int>)
    ensures code.Some? ==> 0 <= code.value < 4
  {
    if value == "recommended" then Some(0)
    else if value == "new" then Some(1)
    else if value == "popular" then Some(2)
    else if value == "controversial" then Some(3)
    else None
  }

  /** The client's numbering of the dropdown agrees with the server's sort types in both directions. */
  lemma SortMappingMatchesServer(s: SortType)
    ensures SortValue(SortName(s)) == Some(SortCode(s))
    ensures SortTypeOf(SortValue(SortName(s)).value) == Some(s)
  {
    assert |"recommended"| == 11 && |"new"| == 3 && |"popular"| == 7 && |"controversial"| == 13;
  }

  /**
   * The server fills in what the client leaves out: for a client request with a known sort, the
   * page size is 10, the size that makes the client offer "Load more".
   */
  lemma ServerPageIsClientPage(search: string, offset: int, s: SortType)
    ensures ListQueryOf(if search == "" then None else Some(search), None, Some(offset), Some(SortCode(s)))
         == Done(ListQuery(if search == "" then None else Some(search), PageSize, offset, s))
  {
  }

  /** The list after one load: cleared first when the offset is 0, then the page appended. */
  function AfterLoad(entries: seq<Post>, offset: int, posts: seq<Post>): (r: seq<Post>)
    ensures offset == 0 ==> r == posts
    ensures offset != 0 ==> |r| == |entries| + |posts| && r[..|entries|] == entries
    ensures |r| >= |posts| && r[|r| - |posts|..] == posts
  {
    (if offset == 0 then [] else entries) + posts
  }

  /**
   * The list after clicking through `pages` loads of a server whose answers are consecutive pages
   * of `rows`, starting from offset 0.
   */
  function Scrolled(rows: seq<Post>, pages: nat): seq<Post>
    requires pages >= 1
  {
    if pages == 1 then AfterLoad([], 0, Page(rows, PageSize, 0))
    else AfterLoad(Scrolled(rows, pages - 1), PageSize * (pages - 1), Page(rows, PageSize, PageSize * (pages - 1)))
  }

  /** A page starting where a first page of `m` rows ends extends it. */
  lemma PageExtend<T>(rows: seq<T>, m: nat, n: nat)
    ensures Page(rows, m, 0) + Page(rows, n, m) == Page(rows, m + n, 0)
  {
    if m + n <= |rows| {
      assert rows[..m] + rows[m..m + n] == rows[..m + n];
    } else if m <= |rows| {
      assert rows[..m] + rows[m..] == rows;
    }
  }

  /** Scrolling shows exactly the first `pages` pages of the server's list, in order, without gaps or repeats. */
  lemma {:induction false} ScrolledIsPrefix(rows: seq<Post>, pages: nat)
    requires pages >= 1
    ensures Scrolled(rows, pages) == Page(rows, PageSize * pages, 0)
  {
    if pages > 1 {
      ScrolledIsPrefix(rows, pages - 1);
      PageExtend(rows, PageSize * (pages - 1), PageSize);
    }
  }

  /** When a load brings back fewer than ten posts, the button is gone and the whole list is shown. */
  lemma NoLoadMoreMeansAllShown(rows: seq<Post>, pages: nat)
    requires pages >= 1
    requires |Page(rows, PageSize, PageSize * (pages - 1))| != PageSize
    ensures Scrolled(rows, pages) == rows
  {
    ScrolledIsPrefix(rows, pages);
    PageExtend(rows, PageSize * (pages - 1), PageSize);
  }

  /**
   * How many posts `updatePostList` renders before `getUserDetails` throws: the posts are rendered
   * one by one, and the first author whose lookup answer holds no user object ends the load.
   */
  function UntilLookupFails(posts: seq<Post>, authorReply: int -> Reply<(string, string)>): (n: nat)
    ensures n <= |posts|
    ensures forall k :: 0 <= k < n ==> UserDetails(authorReply(posts[k].authorId)).Some?
    ensures n < |posts| ==> UserDetails(authorReply(posts[n].authorId)).None?
  {
    if posts == [] || UserDetails(authorReply(posts[0].authorId)).None? then 0
    else 1 + UntilLookupFails(posts[1..], authorReply)
  }

  /**
   * The "Load more" button after a load for `c` that brought back `pageLength` posts: when every
   * author was found, a button for the next page exactly when the page was full; when a lookup
   * threw, the old button stays unless clearing the list for offset 0 removed it.
   */
  function ButtonAfterLoad(button: Option<Cursor>, c: Cursor, pageLength: nat, completed: bool): (b: Option<Cursor>)
    ensures completed ==> (b.Some? <==> pageLength == PageSize)
    ensures b.Some? && completed ==> b.value == c.(offset := c.offset + PageSize)
    ensures !completed ==> b == (if c.offset == 0 then None else button)
  {
    if !completed then (if c.offset == 0 then None else button)
    else if pageLength == PageSize then Some(Cursor(c.search, c.offset + PageSize, c.sort))
    else None
  }

  /**
   * Without a token, `/users/id/<id>/` refuses every request, so the first lookup throws and a first
   * load shows no posts at all, whatever the server listed.
   */
  lemma RefusedLookupsShowNothing(entries: seq<Post>, posts: seq<Post>, authorReply: int -> Reply<(string, string)>)
    requires posts != []
    requires forall id :: authorReply(id).Fail?
    ensures UntilLookupFails(posts, authorReply) == 0
    ensures AfterLoad(entries, 0, posts[..UntilLookupFails(posts, authorReply)]) == []
    ensures ButtonAfterLoad(None, Cursor("", 0, Some(0)), |posts|, UntilLookupFails(posts, authorReply) == |posts|) == None
  {
    assert UserDetails(authorReply(posts[0].authorId)).None?;
  }

  /** When every author is found, a load renders the whole page and sets the button by the page-full rule. */
  lemma {:induction false} FoundAuthorsShowWholePage(posts: seq<Post>, authorReply: int -> Reply<(string, string)>)
    requires forall k :: 0 <= k < |posts| ==> authorReply(posts[k].authorId).Done?
    ensures UntilLookupFails(posts, authorReply) == |posts|
  {
    if posts != [] {
      assert UserDetails(authorReply(posts[0].authorId)).Some?;
      FoundAuthorsShowWholePage(posts[1..], authorReply);
    }
  }

  /** The rendered post list and its "Load more" button. */
  class PostList {
    /** The posts shown, in display order. */
    var entries: seq<Post>
    /** The "Load more" button, if present, with the request it repeats. */
    var loadMore: Option<Cursor>

    constructor ()
      ensures entries == [] && loadMore.None?
    {
      entries := [];
      loadMore := None;
    }

    /**
     * `loadPosts` with the server's answer `posts` and the answers `authorReply` to the author
     * lookups: returns the query it sent; clears the list, and with it any button, for offset 0;
     * appends the posts in order until an author lookup throws; and when all were rendered drops
     * the old button and adds one for the next page exactly when ten posts came back.
     */
    method LoadPosts(search: string, offset: int, sort: Option<int>, posts: seq<Post>,
                     authorReply: int -> Reply<(string, string)>) returns (query: seq<(string, string)>)
      modifies this
      ensures query == QueryParams(search, offset, sort)
      ensures entries == AfterLoad(old(entries), offset, posts[..UntilLookupFails(posts, authorReply)])
      ensures loadMore == ButtonAfterLoad(old(loadMore), Cursor(search, offset, sort), |posts|,
                                          UntilLookupFails(posts, authorReply) == |posts|)
    {
      query := QueryParams(search, offset, sort);
      if offset == 0 {
        entries := [];
        loadMore := None;
      }
      ghost var start := entries;
      var i := 0;
      while i < |posts|
        invariant 0 <= i <= |posts|
        invariant entries == start + posts[..i]
        invariant forall k :: 0 <= k < i ==> UserDetails(authorReply(posts[k].authorId)).Some?
        invariant loadMore == (if offset == 0 then None else old(loadMore))
      {
        var details := UserDetails(authorReply(posts[i].authorId));
        if details.None? {
          return;
        }
        entries := entries + [posts[i]];
        assert posts[..i + 1] == posts[..i] + [posts[i]];
        i := i + 1;
      }
      assert posts[..i] == posts;
      loadMore := None;
      if |posts| == PageSize {
        loadMore := Some(Cursor(search, offset + PageSize, sort));
      }
    }

    /** A click on "Load more" repeats the stored request one page further; without the button nothing happens. */
    method ClickLoadMore(posts: seq<Post>, authorReply: int -> Reply<(string, string)>)
      returns (query: Option<seq<(string, string)>>)
      modifies this
      ensures old(loadMore).None? ==> query.None? && entries == old(entries) && loadMore == old(loadMore)
      ensures old(loadMore).Some? ==>
        var c := old(loadMore).value;
        query == Some(QueryParams(c.search, c.offset, c.sort))
        && entries == AfterLoad(old(entries), c.offset, posts[..UntilLookupFails(posts, authorReply)])
        && loadMore == ButtonAfterLoad(old(loadMore), c, |posts|, UntilLookupFails(posts, authorReply) == |posts|)
    {
      match loadMore
      case None => query := None;
      case Some(c) =>
        var q := LoadPosts(c.search, c.offset, c.sort, posts, authorReply);
        query := Some(q);
    }

    /** `searchBarPressed`: Enter reloads from offset 0 with the text in the search bar and sort code 0. */
    method SearchBarPressed(key: string, searchText: string, posts: seq<Post>, authorReply: int -> Reply<(string, string)>)
      returns (query: Option<seq<(string, string)>>)
      modifies this
      ensures key != "Enter" ==> query.None? && entries == old(entries) && loadMore == old(loadMore)
      ensures key == "Enter" ==> query == Some(QueryParams(searchText, 0, Some(0)))
      ensures key == "Enter" ==> entries == posts[..UntilLookupFails(posts, authorReply)]
      ensures key == "Enter" ==>
        loadMore == ButtonAfterLoad(old(loadMore), Cursor(searchText, 0, Some(0)), |posts|,
                                    UntilLookupFails(posts, authorReply) == |posts|)
    {
      if key == "Enter" {
        var q := LoadPosts(searchText, 0, Some(0), posts, authorReply);
        query := Some(q);
      } else {
        query := None;
      }
    }

    /** `sortingChanged`: reloads from offset 0 with the new sort and the text still in the search bar. */
    method SortingChanged(value: string, searchText: string, posts: seq<Post>, authorReply: int -> Reply<(string, string)>)
      returns (query: seq<(string, string)>)
      modifies this
      ensures query == QueryParams(searchText, 0, SortValue(value))
      ensures entries == posts[..UntilLookupFails(posts, authorReply)]
      ensures loadMore == ButtonAfterLoad(old(loadMore), Cursor(searchText, 0, SortValue(value)), |posts|,
                                          UntilLookupFails(posts, authorReply) == |posts|)
    {
      query := LoadPosts(searchText, 0, SortValue(value), posts, authorReply);
    }
  }
}
