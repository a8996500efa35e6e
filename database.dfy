/**
 * The forum's SQLite store (backend/db_service/database.py) as one object whose fields are its tables.
 * Each table is a sequence of rows in rowid order, so a `fetchone` is the first matching row; every
 * INSERT draws its id from one counter, `nextId`, instead of SQLite's per-table rowids.
 */
module Database {
  import opened Util
  import opened Models
  import opened Tables

  /** `VALID_ROLES`: the roles `update_role` accepts. */
  const ValidRoles: seq<string> := ["user", "moderator", "admin"]

  /**
   * The errors a store operation ends with: `ValueError("Invalid role")`, which `update_role` raises
   * itself, and SQLite's "database is locked", raised when a second connection tries to write while
   * an open one holds the write lock and the busy timeout runs out.
   */
  datatype StoreError = InvalidRole | DatabaseLocked

  function UserIdIs(userId: int): User -> bool { (u: User) => u.userId == userId }
  function UsernameIs(username: string): User -> bool { (u: User) => u.username == username }
  function PostIdIs(postId: int): Post -> bool { (p: Post) => p.postId == postId }
  function NotPostId(postId: int): Post -> bool { (p: Post) => p.postId != postId }
  function CommentIdIs(commentId: int): Comment -> bool { (c: Comment) => c.commentId == commentId }
  function NotCommentId(commentId: int): Comment -> bool { (c: Comment) => c.commentId != commentId }
  function CommentOfPost(postId: int): Comment -> bool { (c: Comment) => c.postId == postId }
  function NotCommentOfPost(postId: int): Comment -> bool { (c: Comment) => c.postId != postId }
  function ChatIdIs(chatId: int): Chat -> bool { (c: Chat) => c.chatId == chatId }
  function MessageOfChat(chatId: int): ChatMessage -> bool { (m: ChatMessage) => m.chatId == chatId }

  /** `UPDATE users SET role = ? WHERE user_id = ?` on one row. */
  function SetRole(userId: int, role: string): User -> User
  {
    (u: User) => if u.userId == userId then u.(role := role) else u
  }

  /** `UPDATE posts SET content = ? WHERE post_id = ?` on one row. */
  function SetPostContent(postId: int, content: string): Post -> Post
  {
    (p: Post) => if p.postId == postId then p.(content := content) else p
  }

  /** `UPDATE comments SET content = ? WHERE comment_id = ?` on one row. */
  function SetCommentContent(commentId: int, content: string): Comment -> Comment
  {
    (c: Comment) => if c.commentId == commentId then c.(content := content) else c
  }

  class Store {
    var users: seq<User>
    var posts: seq<Post>
    var comments: seq<Comment>
    var votes: seq<Vote>
    var tags: seq<Tag>
    var postTags: seq<PostTag>
    var chats: seq<Chat>
    var messages: seq<ChatMessage>
    /** The id the next INSERT receives; every stored id is positive and below it. */
    var nextId: int

    /** Ids are positive and fresh ids unused; one vote per user and post; tag names and ids unique; links resolve. */
    ghost predicate Valid()
      reads this
    {
      && 0 < nextId
      && (forall u :: u in users ==> 0 < u.userId < nextId)
      && (forall p :: p in posts ==> 0 < p.postId < nextId)
      && (forall c :: c in comments ==> 0 < c.commentId < nextId)
      && (forall v :: v in votes ==> 0 < v.voteId < nextId)
      && (forall t :: t in tags ==> 0 < t.tagId < nextId)
      && (forall c :: c in chats ==> 0 < c.chatId < nextId)
      && (forall m :: m in messages ==> 0 < m.msgId < nextId)
      && OneVotePerUser(votes)
      && UniqueTagNames(tags) && UniqueTagIds(tags)
      && LinksResolve(tags, postTags)
    }

    /** An empty database. */
    constructor ()
      ensures Valid()
      ensures users == [] && posts == [] && comments == [] && votes == []
      ensures tags == [] && postTags == [] && chats == [] && messages == [] && nextId == 1
    {
      users, posts, comments, votes := [], [], [], [];
      tags, postTags, chats, messages := [], [], [], [];
      nextId := 1;
    }

    // ---------------------------------------------------------------- existence checks and reads

    /** `get_user_by_id`: the user row, or None. */
    function UserById(userId: int): (r: Option<User>)
      reads this
      ensures r.Some? ==> r.value in users && r.value.userId == userId
      ensures r.None? <==> forall u :: u in users ==> u.userId != userId
    {
      First(users, UserIdIs(userId))
    }

    /** `check_user_exists`: whether `get_user_by_id` finds a row. */
    function UserExists(userId: int): (b: bool)
      reads this
      ensures b <==> UserById(userId).Some?
    {
      exists u :: u in users && u.userId == userId
    }

    /** `username_exists`: whether a lookup by that name finds a row. */
    function UsernameExists(username: string): (b: bool)
      reads this
      ensures b <==> First(users, UsernameIs(username)).Some?
    {
      exists u :: u in users && u.username == username
    }

    /** `email_exists`: an empty table holds no address; `CreateUser` makes its address exist. */
    function EmailExists(email: string): (b: bool)
      reads this
      ensures b ==> users != []
      ensures b <==> First(users, (u: User) => u.email == email).Some?
    {
      exists u :: u in users && u.email == email
    }

    /** `get_role_by_id`: the role of the user with that id, or None. */
    function RoleById(userId: int): (r: Option<string>)
      reads this
      ensures r.Some? <==> UserExists(userId)
      ensures r.Some? ==> r == Some(UserById(userId).value.role)
    {
      match UserById(userId)
      case None => None
      case Some(u) => Some(u.role)
    }

    /** `get_username_by_id`: the username of the user with that id, or None. */
    function UsernameById(userId: int): (r: Option<string>)
      reads this
      ensures r.Some? <==> UserExists(userId)
      ensures r.Some? ==> exists u :: u in users && u.userId == userId && u.username == r.value
    {
      match UserById(userId)
      case None => None
      case Some(u) => Some(u.username)
    }

    /** `get_role_of_user_by_name`: the role of the first user with that name, or None. */
    function RoleOfUserByName(username: string): (r: Option<string>)
      reads this
      ensures r.Some? <==> UsernameExists(username)
      ensures r.Some? ==> exists u :: u in users && u.username == username && u.role == r.value
    {
      match First(users, UsernameIs(username))
      case None => None
      case Some(u) => Some(u.role)
    }

    /** `is_privileged`: the user's role is "admin" or "moderator"; an unknown user is not privileged. */
    function IsPrivileged(userId: int): (b: bool)
      reads this
      ensures b ==> UserExists(userId)
      ensures b <==> UserById(userId).Some? && UserById(userId).value.role in {"admin", "moderator"}
    {
      RoleById(userId) == Some("admin") || RoleById(userId) == Some("moderator")
    }

    /** `get_post_by_id`. */
    function PostById(postId: int): (r: Option<Post>)
      reads this
      ensures r.Some? ==> r.value in posts && r.value.postId == postId
      ensures r.None? <==> forall p :: p in posts ==> p.postId != postId
    {
      First(posts, PostIdIs(postId))
    }

    /** `get_comment_by_id`. */
    function CommentById(commentId: int): (r: Option<Comment>)
      reads this
      ensures r.Some? ==> r.value in comments && r.value.commentId == commentId
      ensures r.None? <==> forall c :: c in comments ==> c.commentId != commentId
    {
      First(comments, CommentIdIs(commentId))
    }

    /** `get_author_id_of_comment`: the author of the comment, or None when there is no such comment. */
    function AuthorIdOfComment(commentId: int): (r: Option<int>)
      reads this
      ensures r.Some? <==> CommentById(commentId).Some?
      ensures r.Some? ==> r.value == CommentById(commentId).value.authorId
    {
      match CommentById(commentId)
      case None => None
      case Some(c) => Some(c.authorId)
    }

    /** `get_comments_of_post`: the post's comments in insertion order. */
    function CommentsOfPost(postId: int): (r: seq<Comment>)
      reads this
      ensures forall c :: c in r <==> c in comments && c.postId == postId
    {
      Filter(comments, CommentOfPost(postId))
    }

    /** `get_chat_by_id`. */
    function ChatById(chatId: int): (r: Option<Chat>)
      reads this
      ensures r.Some? ==> r.value in chats && r.value.chatId == chatId
      ensures r.None? <==> forall c :: c in chats ==> c.chatId != chatId
    {
      First(chats, ChatIdIs(chatId))
    }

    /** `get_messages_of_chat`: the chat's messages in insertion order. */
    function MessagesOfChat(chatId: int): (r: seq<ChatMessage>)
      reads this
      ensures forall m :: m in r <==> m in messages && m.chatId == chatId
    {
      Filter(messages, MessageOfChat(chatId))
    }

    /** `check_chat_exists`: a chat with both users, whichever of them asks. */
    function ChatExistsBetween(user1: int, user2: int): (b: bool)
      reads this
      ensures b <==> ChatExists(chats, user2, user1)
      ensures b ==> exists c :: c in chats && c.user1 in {user1, user2} && c.user2 in {user1, user2}
    {
      ChatExists(chats, user1, user2)
    }

    /** `get_tags_of_post`. */
    function TagsOfPost(postId: int): seq<string>
      reads this
    {
      TagNamesOfPost(tags, postTags, postId)
    }

    /**
     * What `get_tags_of_post` lists: nothing for a post without links, and otherwise only names of
     * stored tags that one of the post's links points to, each such name at least once.
     */
    lemma TagsOfPostAreLinkedTags(postId: int)
      ensures (forall l :: l in postTags ==> l.postId != postId) ==> TagsOfPost(postId) == []
      ensures forall name :: name in TagsOfPost(postId) ==>
        exists l :: l in postTags && l.postId == postId && TagWithId(tags, l.tagId).Some? && TagWithId(tags, l.tagId).value.name == name
      ensures forall name :: name in TagsOfPost(postId) ==> exists t :: t in tags && t.name == name
      ensures forall l :: l in postTags && l.postId == postId && TagWithId(tags, l.tagId).Some? ==>
        TagWithId(tags, l.tagId).value.name in TagsOfPost(postId)
    {
      TagNamesAreLinkNames(tags, postTags, postId);
      if forall l :: l in postTags ==> l.postId != postId {
        TagNamesWithoutLinks(tags, postTags, postId);
      }
    }

    /** `get_vote_of_user`: 0 when the user has no vote row on the post, else the value of one of their rows. */
    function VoteOfUser(postId: int, userId: int): (r: int)
      reads this
      ensures (forall v :: v in votes ==> !IsVoteOf(v, userId, postId)) ==> r == 0
      ensures r != 0 ==> exists v :: v in votes && IsVoteOf(v, userId, postId) && v.value == r
    {
      VoteOf(votes, userId, postId)
    }

    /** `get_votes_of_post`: None (SQL NULL) when nobody voted on the post, else the sum of its votes. */
    function VotesOfPostId(postId: int): (r: Option<int>)
      reads this
      ensures r.None? <==> forall v :: v in votes ==> v.postId != postId
      ensures r.Some? ==> r.value == VoteTotal(votes, postId)
    {
      VotesOfPost(votes, postId)
    }

    /**
     * `get_posts`, given the stored posts in an order the ORDER BY clause of `sort` may return: posts
     * matching a non-empty search text, from `offset` on, at most `amount` of them, in that order;
     * without a limit or offset every matching post is listed.
     */
    function GetPosts(sort: SortType, ordered: seq<Post>, search: Option<string>, amount: int, offset: int): (r: seq<Post>)
      reads this
      requires multiset(ordered) == multiset(posts) && OrderedFor(sort, ordered, votes)
      ensures amount >= 0 ==> |r| <= amount
      ensures forall p :: p in r ==> p in posts
      ensures search.Some? && search.value != "" ==> forall p :: p in r ==> PostMatches(p, search.value)
      ensures OrderedFor(sort, r, votes)
      ensures amount < 0 && offset <= 0 ==>
        forall p :: p in posts && (search.None? || search.value == "" || PostMatches(p, search.value)) ==> p in r
    {
      ListPostsMatch(ordered, search, amount, offset);
      ListPostsOrdered(sort, ordered, votes, search, amount, offset);
      SameMembers(ordered, posts);
      if amount < 0 && offset <= 0 then
        ListPostsUnpaged(ordered, search, amount, offset);
        ListPosts(ordered, search, amount, offset)
      else
        ListPosts(ordered, search, amount, offset)
    }

    // ---------------------------------------------------------------- inserts

    /** `create_user`: a new row with the default role "user"; returns its id. */
    method CreateUser(username: string, email: string, password: string, registrationDate: int) returns (userId: int)
      requires Valid()
      modifies this`users, this`nextId
      ensures Valid()
      ensures userId == old(nextId) && nextId == old(nextId) + 1
      ensures users == old(users) + [User(userId, username, email, password, registrationDate, "user")]
      ensures UserById(userId) == Some(User(userId, username, email, password, registrationDate, "user"))
      ensures UsernameExists(username) && EmailExists(email)
    {
      userId := nextId;
      FirstAppend(users, User(userId, username, email, password, registrationDate, "user"), UserIdIs(userId));
      users := users + [User(userId, username, email, password, registrationDate, "user")];
      nextId := nextId + 1;
    }

    /** `create_post`: a new post by the author; returns its id. */
    method CreatePost(authorId: int, title: string, content: string, creationDate: string) returns (postId: int)
      requires Valid()
      modifies this`posts, this`nextId
      ensures Valid()
      ensures postId == old(nextId) && nextId == old(nextId) + 1 && postId > 0
      ensures posts == old(posts) + [Post(postId, authorId, title, content, creationDate)]
      ensures PostById(postId) == Some(Post(postId, authorId, title, content, creationDate))
    {
      postId := nextId;
      FirstAppend(posts, Post(postId, authorId, title, content, creationDate), PostIdIs(postId));
      posts := posts + [Post(postId, authorId, title, content, creationDate)];
      nextId := nextId + 1;
    }

    /** `create_comment`: a new comment on the post; returns its id. */
    method CreateComment(postId: int, authorId: int, content: string, creationDate: string) returns (commentId: int)
      requires Valid()
      modifies this`comments, this`nextId
      ensures Valid()
      ensures commentId == old(nextId) && nextId == old(nextId) + 1
      ensures comments == old(comments) + [Comment(commentId, postId, authorId, content, creationDate)]
    {
      commentId := nextId;
      comments := comments + [Comment(commentId, postId, authorId, content, creationDate)];
      nextId := nextId + 1;
    }

    /** `create_chat_msg`: a new message in the chat; returns its id. */
    method CreateChatMsg(chatId: int, userId: int, message: string) returns (msgId: int)
      requires Valid()
      modifies this`messages, this`nextId
      ensures Valid()
      ensures msgId == old(nextId) && nextId == old(nextId) + 1
      ensures messages == old(messages) + [ChatMessage(msgId, chatId, userId, message)]
    {
      msgId := nextId;
      messages := messages + [ChatMessage(msgId, chatId, userId, message)];
      nextId := nextId + 1;
    }

    /** `create_chat`: a new chat between the two users; returns its id. */
    method CreateChat(user1: int, user2: int) returns (chatId: int)
      requires Valid()
      modifies this`chats, this`nextId
      ensures Valid()
      ensures chatId == old(nextId) && nextId == old(nextId) + 1
      ensures chats == old(chats) + [Chat(chatId, user1, user2)]
      ensures ChatExistsBetween(user1, user2) && ChatExistsBetween(user2, user1)
    {
      chatId := nextId;
      chats := chats + [Chat(chatId, user1, user2)];
      nextId := nextId + 1;
      assert Chat(chatId, user1, user2) in chats;
    }

    /**
     * `create_vote_post`: the vote table becomes `CastVote` of the old one, with a first vote inserted
     * under the next fresh id, which is returned; toggling off and changing a vote return None.
     */
    method CreateVotePost(userId: int, postId: int, value: int) returns (newId: Option<int>)
      requires Valid()
      modifies this`votes, this`nextId
      ensures Valid()
      ensures VoteResult(votes, newId) == CastVote(old(votes), userId, postId, value, old(nextId))
      ensures nextId == if newId.Some? then old(nextId) + 1 else old(nextId)
    {
      CastVoteKeepsOneVote(votes, userId, postId, value, nextId);
      var row := VoteRow(votes, userId, postId);
      if row.Some? {
        if row.value.value == value {
          votes := Filter(votes, NotVoteBy(userId, postId));
        } else {
          votes := MapSeq(votes, SetVote(userId, postId, value));
        }
        newId := None;
      } else {
        votes := votes + [Vote(nextId, userId, postId, value)];
        newId := Some(nextId);
        nextId := nextId + 1;
      }
    }

    /**
     * `create_tag`: get-or-create. The tag table becomes `GetOrCreateTag` of the old one; afterwards the
     * name is stored under the returned id.
     */
    method CreateTag(name: string) returns (tagId: int)
      requires Valid()
      modifies this`tags, this`nextId
      ensures Valid()
      ensures TagResult(tags, tagId) == GetOrCreateTag(old(tags), name, old(nextId))
      ensures nextId == if tags == old(tags) then old(nextId) else old(nextId) + 1
      ensures TagNamed(tags, name) == Some(Tag(tagId, name))
      ensures old(tags) <= tags
      ensures old(TagNamed(tags, name)).Some? ==> tags == old(tags)
      ensures forall q :: TagsOfPost(q) == old(TagsOfPost(q))
    {
      GetOrCreateTagFinds(tags, name, nextId);
      var existing := TagNamed(tags, name);
      if existing.Some? {
        tagId := existing.value.tagId;
        return;
      }
      tagId := nextId;
      AppendTagKeepsUnique(tags, Tag(tagId, name));
      NewTagsKeepLinks(tags, [Tag(tagId, name)], postTags);
      tags := tags + [Tag(tagId, name)];
      nextId := nextId + 1;
    }

    // ---------------------------------------------------------------- updates

    /**
     * `add_tag_to_post`: gets or creates the tag, then inserts one link from the post to it; the insert
     * always reports a row. The post gains the name at the end of its tags; no other post changes.
     */
    method AddTagToPost(postId: int, name: string) returns (added: bool)
      requires Valid()
      modifies this`tags, this`postTags, this`nextId
      ensures Valid()
      ensures added
      ensures old(tags) <= tags
      ensures TagNamed(tags, name).Some?
      ensures postTags == old(postTags) + [PostTag(postId, TagNamed(tags, name).value.tagId)]
      ensures forall q :: TagsOfPost(q) == old(TagsOfPost(q)) + (if q == postId then [name] else [])
      ensures TagsOfPost(postId) == old(TagsOfPost(postId)) + [name]
      ensures Filter(postTags, NotOfPost(postId)) == Filter(old(postTags), NotOfPost(postId))
      ensures old(TagNamed(tags, name)).Some? ==> tags == old(tags) && nextId == old(nextId)
    {
      var tagId := CreateTag(name);
      LinkStoredTag(postId, Tag(tagId, name));
      added := true;
    }

    /** `INSERT INTO post_tags`: the link of the post to a stored tag, whose name joins the post's tags. */
    method LinkStoredTag(postId: int, t: Tag)
      requires Valid() && t in tags
      modifies this`postTags
      ensures Valid()
      ensures postTags == old(postTags) + [PostTag(postId, t.tagId)]
      ensures forall q :: TagsOfPost(q) == old(TagsOfPost(q)) + (if q == postId then [t.name] else [])
      ensures Filter(postTags, NotOfPost(postId)) == Filter(old(postTags), NotOfPost(postId))
    {
      FilterAppend(postTags, [PostTag(postId, t.tagId)], NotOfPost(postId));
      assert tags + [] == tags;
      LinkAddsName(tags, [], postTags, postId, t);
      postTags := postTags + [PostTag(postId, t.tagId)];
    }

    /** `DELETE FROM post_tags WHERE post_id = ?`, the first statement of `update_tags_of_post`. */
    method DeleteLinksOfPost(postId: int) returns (deleted: bool)
      requires Valid()
      modifies this`postTags
      ensures Valid()
      ensures postTags == Filter(old(postTags), NotOfPost(postId))
      ensures TagsOfPost(postId) == []
      ensures forall q :: q != postId ==> TagsOfPost(q) == old(TagsOfPost(q))
      ensures deleted <==> exists l :: l in old(postTags) && l.postId == postId
    {
      deleted := exists l | l in postTags :: l.postId == postId;
      ghost var oldLinks := postTags;
      postTags := Filter(postTags, NotOfPost(postId));
      assert LinksResolve(tags, postTags) by {
        assert forall l :: l in postTags ==> l in oldLinks;
      }
      TagNamesWithoutLinks(tags, postTags, postId);
      forall q | q != postId
        ensures TagNamesOfPost(tags, postTags, q) == TagNamesOfPost(tags, oldLinks, q)
      {
        TagNamesOtherPost(tags, oldLinks, postId, q);
      }
    }

    /**
     * The loop of `update_tags_of_post`: one `add_tag_to_post` step per name, in order. The post's tags
     * grow by exactly these names; other posts keep theirs.
     */
    method AddTagsToPost(postId: int, names: seq<string>)
      requires Valid()
      modifies this`tags, this`postTags, this`nextId
      ensures Valid()
      ensures TagsOfPost(postId) == old(TagsOfPost(postId)) + names
      ensures forall q :: q != postId ==> TagsOfPost(q) == old(TagsOfPost(q))
      ensures Filter(postTags, NotOfPost(postId)) == Filter(old(postTags), NotOfPost(postId))
      ensures old(tags) <= tags
    {
      var i := 0;
      while i < |names|
        invariant 0 <= i <= |names|
        invariant Valid()
        invariant TagsOfPost(postId) == old(TagsOfPost(postId)) + names[..i]
        invariant Filter(postTags, NotOfPost(postId)) == Filter(old(postTags), NotOfPost(postId))
        invariant old(tags) <= tags
      {
        ghost var namesBefore := TagsOfPost(postId);
        var _ := AddTagToPost(postId, names[i]);
        assert TagsOfPost(postId) == namesBefore + [names[i]];
        AppendTakeSnoc(old(TagsOfPost(postId)), names, i);
        i := i + 1;
      }
      assert names[..i] == names;
      assert tags == old(tags) + tags[|old(tags)|..];
      OtherPostsKeepTags(old(tags), tags[|old(tags)|..], old(postTags), postTags, postId);
    }

    /**
     * `update_tags_of_post`: the post's links are deleted, then one link is inserted per distinct new tag
     * name (each tag got or created). `unique` is the order in which `set(new_tags)` yields the names,
     * which Python leaves to string hashing. Returns the last statement's row count > 0: an insert when
     * there was a tag, else the delete.
     */
    method UpdateTagsOfPost(postId: int, newTags: seq<string>, unique: seq<string>) returns (changed: bool)
      requires Valid()
      requires forall x :: x in unique <==> x in newTags
      requires forall i, j :: 0 <= i < j < |unique| ==> unique[i] != unique[j]
      modifies this`tags, this`postTags, this`nextId
      ensures Valid()
      ensures TagsOfPost(postId) == unique
      ensures Filter(postTags, NotOfPost(postId)) == Filter(old(postTags), NotOfPost(postId))
      ensures forall q :: q != postId ==> TagsOfPost(q) == old(TagsOfPost(q))
      ensures old(tags) <= tags
      ensures changed <==> newTags != [] || exists l :: l in old(postTags) && l.postId == postId
    {
      ghost var oldLinks := postTags;
      var deleted := DeleteLinksOfPost(postId);
      FilterTwice(oldLinks, NotOfPost(postId));
      AddTagsToPost(postId, unique);
      SameMembersEmpty(unique, newTags);
      changed := |unique| > 0 || deleted;
    }

    /**
     * `update_tags_of_post` as written: its connection's DELETE opens a write transaction, so when
     * `create_tag`, on a connection of its own, has to insert a name that is not stored yet, that
     * insert waits for the write lock until the busy timeout and fails with "database is locked". The
     * error ends the loop and leaves the outer block, whose exit still commits: the post keeps only
     * the links of the names before the first new one, and no tag is created.
     */
    method UpdateTagsOfPostAsWritten(postId: int, newTags: seq<string>, unique: seq<string>)
      returns (r: Result<bool, StoreError>)
      requires Valid()
      requires forall x :: x in unique <==> x in newTags
      requires forall i, j :: 0 <= i < j < |unique| ==> unique[i] != unique[j]
      modifies this`tags, this`postTags, this`nextId
      ensures Valid()
      ensures tags == old(tags) && nextId == old(nextId)
      ensures TagsOfPost(postId) == unique[..StoredLead(unique, old(tags))]
      ensures forall q :: q != postId ==> TagsOfPost(q) == old(TagsOfPost(q))
      ensures r.Err? <==> StoredLead(unique, old(tags)) < |unique|
      ensures r.Err? ==> r.error == DatabaseLocked
      ensures r.Ok? ==> (r.value <==> newTags != [] || exists l :: l in old(postTags) && l.postId == postId)
    {
      var deleted := DeleteLinksOfPost(postId);
      FilterTwice(old(postTags), NotOfPost(postId));
      var linked := LinkStoredLead(postId, unique);
      assert tags == old(tags) + [];
      OtherPostsKeepTags(old(tags), [], old(postTags), postTags, postId);
      if linked < |unique| {
        return Err(DatabaseLocked);
      }
      assert unique[..linked] == unique;
      SameMembersEmpty(unique, newTags);
      r := Ok(|unique| > 0 || deleted);
    }

    /**
     * The loop of `update_tags_of_post` as written, on a post without links: each name already stored
     * is linked, and the loop stops at the first name `create_tag` would have to insert. Returns how
     * many names were linked.
     */
    method LinkStoredLead(postId: int, unique: seq<string>) returns (linked: nat)
      requires Valid() && TagsOfPost(postId) == []
      modifies this`tags, this`postTags, this`nextId
      ensures Valid()
      ensures tags == old(tags) && nextId == old(nextId)
      ensures linked == StoredLead(unique, tags)
      ensures TagsOfPost(postId) == unique[..linked]
      ensures Filter(postTags, NotOfPost(postId)) == Filter(old(postTags), NotOfPost(postId))
    {
      ghost var lead := StoredLead(unique, tags);
      linked := 0;
      while linked < |unique| && TagNamed(tags, unique[linked]).Some?
        invariant 0 <= linked <= lead
        invariant Valid()
        invariant tags == old(tags) && nextId == old(nextId)
        invariant TagsOfPost(postId) == unique[..linked]
        invariant Filter(postTags, NotOfPost(postId)) == Filter(old(postTags), NotOfPost(postId))
      {
        assert linked < lead;
        var _ := AddTagToPost(postId, unique[linked]);
        TakeSnoc(unique, linked);
        linked := linked + 1;
      }
    }

    /** `update_role`: rejects a role outside `VALID_ROLES`; otherwise sets that user's role and reports whether a row matched. */
    method UpdateRole(userId: int, newRole: string) returns (r: Result<bool, StoreError>)
      requires Valid()
      modifies this`users
      ensures Valid()
      ensures newRole !in ValidRoles ==> r == Err(InvalidRole) && users == old(users)
      ensures newRole in ValidRoles ==> r == Ok(old(UserExists(userId))) && users == MapSeq(old(users), SetRole(userId, newRole))
      ensures newRole in ValidRoles && old(UserExists(userId)) ==> RoleById(userId) == Some(newRole)
      ensures forall other :: other != userId ==> RoleById(other) == old(RoleById(other))
    {
      if newRole !in ValidRoles {
        return Err(InvalidRole);
      }
      var matched := exists u | u in users :: u.userId == userId;
      forall other
        ensures First(MapSeq(users, SetRole(userId, newRole)), UserIdIs(other))
          == if First(users, UserIdIs(other)).Some? then Some(SetRole(userId, newRole)(First(users, UserIdIs(other)).value)) else None
      {
        FirstMapSeq(users, SetRole(userId, newRole), UserIdIs(other));
      }
      users := MapSeq(users, SetRole(userId, newRole));
      r := Ok(matched);
    }

    /** `update_post_content`: sets that post's content; reports whether a row matched. */
    method UpdatePostContent(postId: int, newContent: string) returns (updated: bool)
      requires Valid()
      modifies this`posts
      ensures Valid()
      ensures posts == MapSeq(old(posts), SetPostContent(postId, newContent))
      ensures updated <==> old(PostById(postId)).Some?
      ensures updated ==> PostById(postId) == Some(old(PostById(postId)).value.(content := newContent))
      ensures forall other :: other != postId ==> PostById(other) == old(PostById(other))
    {
      updated := PostById(postId).Some?;
      forall q
        ensures First(MapSeq(posts, SetPostContent(postId, newContent)), PostIdIs(q))
          == if First(posts, PostIdIs(q)).Some? then Some(SetPostContent(postId, newContent)(First(posts, PostIdIs(q)).value)) else None
      {
        FirstMapSeq(posts, SetPostContent(postId, newContent), PostIdIs(q));
      }
      posts := MapSeq(posts, SetPostContent(postId, newContent));
    }

    /** `update_comment_content`: sets that comment's content; reports whether a row matched. */
    method UpdateCommentContent(commentId: int, newContent: string) returns (updated: bool)
      requires Valid()
      modifies this`comments
      ensures Valid()
      ensures comments == MapSeq(old(comments), SetCommentContent(commentId, newContent))
      ensures updated <==> old(CommentById(commentId)).Some?
      ensures updated ==> CommentById(commentId) == Some(old(CommentById(commentId)).value.(content := newContent))
      ensures forall other :: other != commentId ==> CommentById(other) == old(CommentById(other))
    {
      updated := CommentById(commentId).Some?;
      forall q
        ensures First(MapSeq(comments, SetCommentContent(commentId, newContent)), CommentIdIs(q))
          == if First(comments, CommentIdIs(q)).Some?
             then Some(SetCommentContent(commentId, newContent)(First(comments, CommentIdIs(q)).value)) else None
      {
        FirstMapSeq(comments, SetCommentContent(commentId, newContent), CommentIdIs(q));
      }
      comments := MapSeq(comments, SetCommentContent(commentId, newContent));
    }

    // ---------------------------------------------------------------- deletes

    /**
     * `delete_post_with_comments`: removes the post and every comment on it; votes and tag links stay.
     * Returns whether the comment delete, the last statement, removed a row.
     */
    method DeletePostWithComments(postId: int) returns (deleted: bool)
      requires Valid()
      modifies this`posts, this`comments
      ensures Valid()
      ensures posts == Filter(old(posts), NotPostId(postId))
      ensures comments == Filter(old(comments), NotCommentOfPost(postId))
      ensures PostById(postId).None? && CommentsOfPost(postId) == []
      ensures forall p :: p in posts <==> p in old(posts) && p.postId != postId
      ensures forall c :: c in comments <==> c in old(comments) && c.postId != postId
      ensures deleted <==> exists c :: c in old(comments) && c.postId == postId
    {
      deleted := exists c | c in comments :: c.postId == postId;
      posts := Filter(posts, NotPostId(postId));
      comments := Filter(comments, NotCommentOfPost(postId));
      FilterNone(comments, CommentOfPost(postId));
    }

    /** `delete_comment`: removes the comment; reports whether a row was removed. */
    method DeleteComment(commentId: int) returns (deleted: bool)
      requires Valid()
      modifies this`comments
      ensures Valid()
      ensures comments == Filter(old(comments), NotCommentId(commentId))
      ensures CommentById(commentId).None?
      ensures forall c :: c in comments <==> c in old(comments) && c.commentId != commentId
      ensures deleted <==> old(CommentById(commentId)).Some?
    {
      deleted := CommentById(commentId).Some?;
      comments := Filter(comments, NotCommentId(commentId));
    }
  }
}
