/**
 * The post endpoints (backend/api/endpoints/posts.py): each handler's existence, login and
 * author-or-privileged checks, the status code each failed check raises, and the store change a
 * passing request makes. `currentUserId` is what the token dependency produced; the tags of a new
 * post, which an NLP library extracts, arrive as an input; so does each row's creation time.
 */
module PostsApi {
  import opened Util
  import opened Models
  import opened Tables
  import opened Database
  import opened Http

  /** The query of `GET /posts/` once the defaults are filled in. */
  datatype ListQuery = ListQuery(search: Option<string>, amount: int, offset: int, sort: SortType)

  /**
   * The query parameters of `get_posts`: a missing one takes its default (no search, 10 posts,
   * offset 0, RECOMMENDED); a sort code that names no sort type is refused with 422.
   */
  function ListQueryOf(search: Option<string>, amount: Option<int>, offset: Option<int>, sort: Option<int>)
    : (r: Reply<ListQuery>)
    ensures r.Fail? <==> sort.Some? && SortTypeOf(sort.value).None?
    ensures r.Fail? ==> r.status == Unprocessable
    ensures r.Done? ==> r.body.search == search
    ensures r.Done? ==> r.body.amount == (if amount.None? then 10 else amount.value)
    ensures r.Done? ==> r.body.offset == (if offset.None? then 0 else offset.value)
    ensures r.Done? && sort.None? ==> r.body.sort == Recommended
    ensures r.Done? && sort.Some? ==> SortCode(r.body.sort) == sort.value
  {
    var sortType := if sort.None? then Some(Recommended) else SortTypeOf(sort.value);
    match sortType
    case None => Fail(Unprocessable)
    case Some(s) =>
      Done(ListQuery(search, if amount.None? then 10 else amount.value, if offset.None? then 0 else offset.value, s))
  }

  /**
   * `get_posts`. `order(s)` is the post table in the order sort type `s` gives it, which the store
   * computes with SQL this model does not interpret.
   */
  function GetPosts(db: Store, search: Option<string>, amount: Option<int>, offset: Option<int>, sort: Option<int>,
                    order: SortType -> seq<Post>): (r: Reply<seq<Post>>)
    reads db
    requires forall s :: multiset(order(s)) == multiset(db.posts) && OrderedFor(s, order(s), db.votes)
    ensures r.Fail? <==> sort.Some? && SortTypeOf(sort.value).None?
    ensures r.Done? && amount.None? ==> |r.body| <= 10
    ensures r.Done? && amount.Some? && amount.value >= 0 ==> |r.body| <= amount.value
    ensures r.Done? ==> forall p :: p in r.body ==> p in db.posts
    ensures r.Done? && search.Some? && search.value != "" ==>
      forall p :: p in r.body ==> PostMatches(p, search.value)
    ensures r.Done? ==> OrderedFor(if sort.None? then Recommended else SortTypeOf(sort.value).value, r.body, db.votes)
  {
    match ListQueryOf(search, amount, offset, sort)
    case Fail(status) => Fail(status)
    case Done(q) =>
      assert sort.Some? ==> SortTypeOf(sort.value) == Some(q.sort);
      Done(db.GetPosts(q.sort, order(q.sort), q.search, q.amount, q.offset))
  }

  /** With no parameters at all the list is the first ten posts in recommended order. */
  lemma DefaultListing(db: Store, order: SortType -> seq<Post>)
    requires forall s :: multiset(order(s)) == multiset(db.posts) && OrderedFor(s, order(s), db.votes)
    ensures GetPosts(db, None, None, None, None, order).Done?
    ensures GetPosts(db, None, None, None, None, order).body
         == order(Recommended)[..if |order(Recommended)| < 10 then |order(Recommended)| else 10]
  {
  }

  /** `get_post_by_id`: the post, or 404. */
  function GetPostById(db: Store, postId: int): (r: Reply<Post>)
    reads db
    ensures r.Fail? <==> forall p :: p in db.posts ==> p.postId != postId
    ensures r.Fail? ==> r.status == NotFound
    ensures r.Done? ==> r.body in db.posts && r.body.postId == postId
  {
    match db.PostById(postId)
    case None => Fail(NotFound)
    case Some(p) => Done(p)
  }

  /** `get_comment_by_id`: 404 when the comment is missing or belongs to another post. */
  function GetCommentById(db: Store, postId: int, commentId: int): (r: Reply<Comment>)
    reads db
    ensures r.Fail? <==> db.CommentById(commentId).None? || db.CommentById(commentId).value.postId != postId
    ensures r.Fail? ==> r.status == NotFound
    ensures r.Done? ==> r.body in db.comments && r.body.commentId == commentId && r.body.postId == postId
  {
    match db.CommentById(commentId)
    case None => Fail(NotFound)
    case Some(c) => if c.postId != postId then Fail(NotFound) else Done(c)
  }

  /**
   * `create_post`: the post is stored under the caller's id and its tag links become the distinct
   * names of `tags`, in the order `unique` in which the store's set yields them; the reply is the
   * new post's id. The 500 branch for a missing id cannot be taken, since every insert yields a
   * positive id.
   */
  method CreatePost(db: Store, currentUserId: int, title: string, content: string, now: string, tags: seq<string>,
                    unique: seq<string>) returns (r: Reply<int>)
    requires db.Valid()
    requires forall x :: x in unique <==> x in tags
    requires forall i, j :: 0 <= i < j < |unique| ==> unique[i] != unique[j]
    modifies db`posts, db`tags, db`postTags, db`nextId
    ensures db.Valid()
    ensures r.Done? && r.body > 0
    ensures db.posts == old(db.posts) + [Post(r.body, currentUserId, title, content, now)]
    ensures db.PostById(r.body) == Some(Post(r.body, currentUserId, title, content, now))
    ensures db.TagsOfPost(r.body) == unique
    ensures forall q :: q != r.body ==> db.TagsOfPost(q) == old(db.TagsOfPost(q))
  {
    var postId := db.CreatePost(currentUserId, title, content, now);
    if postId == 0 {
      return Fail(ServerError);
    }
    var changed := db.UpdateTagsOfPost(postId, tags, unique);
    r := Done(postId);
  }

  /** `create_comment`: 404 unless the post exists and the caller's id is truthy; then one comment is added. */
  method CreateComment(db: Store, postId: int, currentUserId: int, content: string, now: string)
    returns (r: Reply<string>)
    requires db.Valid()
    modifies db`comments, db`nextId
    ensures db.Valid()
    ensures r.Fail? <==> db.PostById(postId).None? || currentUserId == 0
    ensures r.Fail? ==> r.status == NotFound && db.comments == old(db.comments) && db.nextId == old(db.nextId)
    ensures r.Done? ==> r.body == content
    ensures r.Done? ==> db.comments == old(db.comments) + [Comment(old(db.nextId), postId, currentUserId, content, now)]
  {
    if db.PostById(postId).None? || currentUserId == 0 {
      return Fail(NotFound);
    }
    var commentId := db.CreateComment(postId, currentUserId, content, now);
    r := Done(content);
  }

  /**
   * `vote_post`: 401 for a falsy caller id; otherwise the vote is cast with the store's toggle rule
   * (the same value again withdraws it) and echoed. Nobody else's vote changes.
   */
  method VotePost(db: Store, postId: int, vote: int, currentUserId: int) returns (r: Reply<int>)
    requires db.Valid()
    modifies db`votes, db`nextId
    ensures db.Valid()
    ensures currentUserId == 0 ==> r == Fail(Unauthorized) && db.votes == old(db.votes)
    ensures currentUserId != 0 ==> r == Done(vote)
    ensures currentUserId != 0 ==>
      db.VoteOfUser(postId, currentUserId)
      == if VoteRow(old(db.votes), currentUserId, postId).Some? && old(db.VoteOfUser(postId, currentUserId)) == vote
         then 0 else vote
    ensures forall u, p :: u != currentUserId || p != postId ==> db.VoteOfUser(p, u) == old(db.VoteOfUser(p, u))
  {
    if currentUserId == 0 {
      return Fail(Unauthorized);
    }
    ghost var before := db.votes;
    var newId := db.CreateVotePost(currentUserId, postId, vote);
    VoteAfterCast(before, currentUserId, postId, vote, old(db.nextId));
    forall u, p | u != currentUserId || p != postId
      ensures VoteOf(db.votes, u, p) == VoteOf(before, u, p)
    {
      CastVoteOthersUnchanged(before, currentUserId, postId, vote, old(db.nextId), u, p);
    }
    r := Done(vote);
  }

  /** The rule both post writers apply: the author, or a privileged caller. */
  function MayChangePost(db: Store, authorId: int, currentUserId: int): (b: bool)
    reads db
    ensures b <==> currentUserId == authorId || db.RoleById(currentUserId) in {Some("admin"), Some("moderator")}
  {
    currentUserId == authorId || db.IsPrivileged(currentUserId)
  }

  /**
   * `update_post_content`: reading the author of a missing post raises, which answers 500; a caller
   * who is neither the author nor privileged gets 403 and the post is untouched; otherwise only
   * this post's content changes and the new content is echoed.
   */
  method UpdatePostContent(db: Store, postId: int, newContent: string, currentUserId: int) returns (r: Reply<string>)
    requires db.Valid()
    modifies db`posts
    ensures db.Valid()
    ensures old(db.PostById(postId)).None? ==> r == Fail(ServerError) && db.posts == old(db.posts)
    ensures old(db.PostById(postId)).Some? && !MayChangePost(db, old(db.PostById(postId)).value.authorId, currentUserId)
      ==> r == Fail(Forbidden) && db.posts == old(db.posts)
    ensures r.Done? <==>
      old(db.PostById(postId)).Some? && MayChangePost(db, old(db.PostById(postId)).value.authorId, currentUserId)
    ensures r.Done? ==> r.body == newContent
    ensures r.Done? ==> db.PostById(postId) == Some(old(db.PostById(postId)).value.(content := newContent))
    ensures forall other :: other != postId ==> db.PostById(other) == old(db.PostById(other))
  {
    var post := db.PostById(postId);
    if post.None? {
      return Fail(ServerError);
    }
    if !MayChangePost(db, post.value.authorId, currentUserId) {
      return Fail(Forbidden);
    }
    var updated := db.UpdatePostContent(postId, newContent);
    r := Done(newContent);
  }

  /**
   * `delete_post_with_comments`: the same 500 and 403 answers; a permitted call removes the post and
   * every comment on it, and keeps every other post and comment.
   */
  method DeletePost(db: Store, postId: int, currentUserId: int) returns (r: Reply<()>)
    requires db.Valid()
    modifies db`posts, db`comments
    ensures db.Valid()
    ensures old(db.PostById(postId)).None? ==> r == Fail(ServerError)
    ensures old(db.PostById(postId)).Some? && !MayChangePost(db, old(db.PostById(postId)).value.authorId, currentUserId)
      ==> r == Fail(Forbidden)
    ensures r.Fail? ==> db.posts == old(db.posts) && db.comments == old(db.comments)
    ensures r.Done? <==>
      old(db.PostById(postId)).Some? && MayChangePost(db, old(db.PostById(postId)).value.authorId, currentUserId)
    ensures r.Done? ==> db.PostById(postId).None? && db.CommentsOfPost(postId) == []
    ensures r.Done? ==> forall p :: p in db.posts <==> p in old(db.posts) && p.postId != postId
    ensures r.Done? ==> forall c :: c in db.comments <==> c in old(db.comments) && c.postId != postId
  {
    var post := db.PostById(postId);
    if post.None? {
      return Fail(ServerError);
    }
    if !MayChangePost(db, post.value.authorId, currentUserId) {
      return Fail(Forbidden);
    }
    var deleted := db.DeletePostWithComments(postId);
    r := Done(());
  }
}
