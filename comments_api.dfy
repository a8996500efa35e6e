/**
 * The comment endpoints (backend/api/endpoints/comments.py): edit and delete are open to the
 * comment's author and to privileged users (admins and moderators), and refused with 403 to anyone
 * else. A missing comment has no author, so only a privileged caller passes, and then the store
 * call finds no row to change.
 */
module CommentsApi {
  import opened Util
  import opened Models
  import opened Database
  import opened Http

  /** The guard of both handlers: the caller wrote the comment, or is privileged. */
  function MayChangeComment(db: Store, commentId: int, currentUserId: int): (b: bool)
    reads db
    ensures b <==> (db.CommentById(commentId).Some? && db.CommentById(commentId).value.authorId == currentUserId)
                   || db.RoleById(currentUserId) in {Some("admin"), Some("moderator")}
  {
    db.AuthorIdOfComment(commentId) == Some(currentUserId) || db.IsPrivileged(currentUserId)
  }

  /** A caller who neither wrote the comment nor holds a privileged role may not change it. */
  lemma OthersMayNotChange(db: Store, commentId: int, currentUserId: int)
    requires db.CommentById(commentId).Some? && db.CommentById(commentId).value.authorId != currentUserId
    requires db.RoleById(currentUserId) !in {Some("admin"), Some("moderator")}
    ensures !MayChangeComment(db, commentId, currentUserId)
  {
  }

  /**
   * `update_comment`: 403 and no change unless the guard holds; otherwise only this comment's
   * content is replaced, and the new content is echoed.
   */
  method UpdateComment(db: Store, commentId: int, newContent: string, currentUserId: int) returns (r: Reply<string>)
    requires db.Valid()
    modifies db`comments
    ensures db.Valid()
    ensures r.Fail? <==> !old(MayChangeComment(db, commentId, currentUserId))
    ensures r.Fail? ==> r.status == Forbidden && db.comments == old(db.comments)
    ensures r.Done? ==> r.body == newContent
    ensures r.Done? && old(db.CommentById(commentId)).Some? ==>
      db.CommentById(commentId) == Some(old(db.CommentById(commentId)).value.(content := newContent))
    ensures forall other :: other != commentId ==> db.CommentById(other) == old(db.CommentById(other))
  {
    if !MayChangeComment(db, commentId, currentUserId) {
      return Fail(Forbidden);
    }
    var updated := db.UpdateCommentContent(commentId, newContent);
    r := Done(newContent);
  }

  /** `delete_comment_by_id`: 403 and no change unless the guard holds; otherwise only this comment is removed. */
  method DeleteComment(db: Store, commentId: int, currentUserId: int) returns (r: Reply<()>)
    requires db.Valid()
    modifies db`comments
    ensures db.Valid()
    ensures r.Fail? <==> !old(MayChangeComment(db, commentId, currentUserId))
    ensures r.Fail? ==> r.status == Forbidden && db.comments == old(db.comments)
    ensures r.Done? ==> db.CommentById(commentId).None?
    ensures r.Done? ==> forall c :: c in db.comments <==> c in old(db.comments) && c.commentId != commentId
  {
    if !MayChangeComment(db, commentId, currentUserId) {
      return Fail(Forbidden);
    }
    var deleted := db.DeleteComment(commentId);
    r := Done(());
  }
}
