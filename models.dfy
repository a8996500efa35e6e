/**
 * The record shapes the store hands back (backend/db_service/models.py) and the sort types of the
 * post list, numbered as the client numbers them.
 */
module Models {
  import opened Util

  /** A row of the `users` table. The role column starts as "user". */
  datatype User = User(userId: int, username: string, email: string, password: string, registrationDate: int, role: string)

  /** A row of the `posts` table. */
  datatype Post = Post(postId: int, authorId: int, title: string, content: string, creationDate: string)

  /** A row of the `comments` table. */
  datatype Comment = Comment(commentId: int, postId: int, authorId: int, content: string, creationDate: string)

  /** The orderings `get_posts` offers. */
  datatype SortType = Recommended | New | Popular | Controversial

  /** The number of each sort type on the wire. */
  function SortCode(s: SortType): (code: nat)
    ensures code < 4
  {
    match s
    case Recommended => 0
    case New => 1
    case Popular => 2
    case Controversial => 3
  }

  /** The sort type a query parameter names; anything but 0..3 is rejected. */
  function SortTypeOf(code: int): (s: Option<SortType>)
    ensures s.Some? <==> 0 <= code < 4
  {
    if code == 0 then Some(Recommended)
    else if code == 1 then Some(New)
    else if code == 2 then Some(Popular)
    else if code == 3 then Some(Controversial)
    else None
  }

  /** Codes and sort types correspond one to one. */
  lemma SortCodeRoundTrip(s: SortType, code: int)
    ensures SortTypeOf(SortCode(s)) == Some(s)
    ensures SortTypeOf(code).Some? ==> SortCode(SortTypeOf(code).value) == code
  {
  }
}
