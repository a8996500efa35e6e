/**
 * The rows of the vote, tag, link and chat tables of backend/db_service/database.py, and the pure
 * meaning of the statements run on them: what each query returns and what each write leaves behind.
 * The `Database.Store` class performs these writes in place.
 */
module Tables {
  import opened Util
  import opened Models

  /** A row of `posts_votes`. */
  datatype Vote = Vote(voteId: int, userId: int, postId: int, value: int)

  /** A row of `tags`. */
  datatype Tag = Tag(tagId: int, name: string)

  /** A row of `post_tags`, linking a post to a tag. */
  datatype PostTag = PostTag(postId: int, tagId: int)

  /** A row of `chats`. */
  datatype Chat = Chat(chatId: int, user1: int, user2: int)

  /** A row of `chat_messages`. */
  datatype ChatMessage = ChatMessage(msgId: int, chatId: int, sentBy: int, message: string)

  // ------------------------------------------------------------------ votes

  /** `WHERE user_id = ? AND post_id = ?` on the vote table. */
  predicate IsVoteOf(v: Vote, userId: int, postId: int)
  {
    v.userId == userId && v.postId == postId
  }

  function VoteBy(userId: int, postId: int): Vote -> bool
  {
    (v: Vote) => IsVoteOf(v, userId, postId)
  }

  function NotVoteBy(userId: int, postId: int): Vote -> bool
  {
    (v: Vote) => !IsVoteOf(v, userId, postId)
  }

  /** `UPDATE posts_votes SET vote = ?` applied to the rows of one user and post. */
  function SetVote(userId: int, postId: int, value: int): Vote -> Vote
  {
    (v: Vote) => if IsVoteOf(v, userId, postId) then v.(value := value) else v
  }

  /** The first vote row of a user on a post, as `fetchone` returns it. */
  function VoteRow(votes: seq<Vote>, userId: int, postId: int): Option<Vote>
  {
    First(votes, VoteBy(userId, postId))
  }

  /** `get_vote_of_user`: the stored vote, or 0 when the user has not voted. */
  function VoteOf(votes: seq<Vote>, userId: int, postId: int): (v: int)
    ensures VoteRow(votes, userId, postId).None? ==> v == 0
    ensures VoteRow(votes, userId, postId).Some? ==> v == VoteRow(votes, userId, postId).value.value
  {
    match VoteRow(votes, userId, postId)
    case None => 0
    case Some(row) => row.value
  }

  /** How many vote rows a user has on a post. */
  function CountVotes(votes: seq<Vote>, userId: int, postId: int): nat
  {
    if votes == [] then 0
    else (if IsVoteOf(votes[0], userId, postId) then 1 else 0) + CountVotes(votes[1..], userId, postId)
  }

  /** The sum of a user's vote rows on a post. */
  function UserVoteSum(votes: seq<Vote>, userId: int, postId: int): int
  {
    if votes == [] then 0
    else (if IsVoteOf(votes[0], userId, postId) then votes[0].value else 0) + UserVoteSum(votes[1..], userId, postId)
  }

  /** `SUM(vote) ... WHERE post_id = ?`, counting no rows as 0. */
  function VoteTotal(votes: seq<Vote>, postId: int): int
  {
    if votes == [] then 0
    else (if votes[0].postId == postId then votes[0].value else 0) + VoteTotal(votes[1..], postId)
  }

  /** At most one vote row per (user, post). */
  ghost predicate OneVotePerUser(votes: seq<Vote>)
  {
    forall userId, postId :: CountVotes(votes, userId, postId) <= 1
  }

  /** `get_votes_of_post`: SQL's SUM is NULL (None) over no rows, the sum of the values otherwise. */
  function VotesOfPost(votes: seq<Vote>, postId: int): (r: Option<int>)
    ensures r.None? <==> forall v :: v in votes ==> v.postId != postId
    ensures r.Some? ==> r.value == VoteTotal(votes, postId)
  {
    if exists v :: v in votes && v.postId == postId then Some(VoteTotal(votes, postId)) else None
  }

  /** The vote table after `create_vote_post`, and the id it returns (None for the toggle and update paths). */
  datatype VoteResult = VoteResult(votes: seq<Vote>, newId: Option<int>)

  /**
   * `create_vote_post`: a first vote inserts a row under `freshId`; casting the stored value again deletes
   * the user's rows on that post; casting another value overwrites them.
   */
  function CastVote(votes: seq<Vote>, userId: int, postId: int, value: int, freshId: int): (r: VoteResult)
    ensures r.newId.Some? <==> VoteRow(votes, userId, postId).None?
    ensures r.newId.Some? ==> r.newId.value == freshId && r.votes == votes + [Vote(freshId, userId, postId, value)]
  {
    match VoteRow(votes, userId, postId)
    case Some(row) =>
      if row.value == value then VoteResult(Filter(votes, NotVoteBy(userId, postId)), None)
      else VoteResult(MapSeq(votes, SetVote(userId, postId, value)), None)
    case None => VoteResult(votes + [Vote(freshId, userId, postId, value)], Some(freshId))
  }

  lemma {:induction false} CountZeroIffNoRow(votes: seq<Vote>, userId: int, postId: int)
    ensures CountVotes(votes, userId, postId) == 0 <==> VoteRow(votes, userId, postId).None?
  {
    if votes != [] {
      CountZeroIffNoRow(votes[1..], userId, postId);
    }
  }

  lemma {:induction false} CountAfterDelete(votes: seq<Vote>, userId: int, postId: int, u: int, p: int)
    ensures CountVotes(Filter(votes, NotVoteBy(userId, postId)), u, p)
      == if u == userId && p == postId then 0 else CountVotes(votes, u, p)
  {
    if votes != [] {
      CountAfterDelete(votes[1..], userId, postId, u, p);
    }
  }

  lemma {:induction false} CountAfterUpdate(votes: seq<Vote>, userId: int, postId: int, value: int, u: int, p: int)
    ensures CountVotes(MapSeq(votes, SetVote(userId, postId, value)), u, p) == CountVotes(votes, u, p)
  {
    if votes != [] {
      MapSeqCons(votes, SetVote(userId, postId, value));
      CountAfterUpdate(votes[1..], userId, postId, value, u, p);
    }
  }

  lemma {:induction false} CountAfterInsert(votes: seq<Vote>, v: Vote, u: int, p: int)
    ensures CountVotes(votes + [v], u, p) == CountVotes(votes, u, p) + (if IsVoteOf(v, u, p) then 1 else 0)
  {
    if votes != [] {
      assert (votes + [v])[1..] == votes[1..] + [v];
      CountAfterInsert(votes[1..], v, u, p);
    }
  }

  /** Every path of `create_vote_post` leaves at most one vote per user and post. */
  lemma CastVoteKeepsOneVote(votes: seq<Vote>, userId: int, postId: int, value: int, freshId: int)
    requires OneVotePerUser(votes)
    ensures OneVotePerUser(CastVote(votes, userId, postId, value, freshId).votes)
  {
    var r := CastVote(votes, userId, postId, value, freshId);
    forall u, p
      ensures CountVotes(r.votes, u, p) <= 1
    {
      match VoteRow(votes, userId, postId)
      case Some(row) =>
        if row.value == value {
          CountAfterDelete(votes, userId, postId, u, p);
        } else {
          CountAfterUpdate(votes, userId, postId, value, u, p);
        }
      case None =>
        CountZeroIffNoRow(votes, userId, postId);
        CountAfterInsert(votes, Vote(freshId, userId, postId, value), u, p);
    }
  }

  /**
   * After a cast the user's vote on the post is 0 when the same value was stored before (toggled off)
   * and the cast value otherwise.
   */
  lemma VoteAfterCast(votes: seq<Vote>, userId: int, postId: int, value: int, freshId: int)
    ensures VoteOf(CastVote(votes, userId, postId, value, freshId).votes, userId, postId)
      == if VoteRow(votes, userId, postId).Some? && VoteOf(votes, userId, postId) == value then 0 else value
  {
    var r := CastVote(votes, userId, postId, value, freshId);
    match VoteRow(votes, userId, postId)
    case Some(row) =>
      if row.value == value {
        assert VoteRow(r.votes, userId, postId).None?;
      } else {
        var i :| 0 <= i < |votes| && votes[i] == row;
        assert IsVoteOf(r.votes[i], userId, postId);
        assert r.votes[i] in r.votes;
      }
    case None =>
      FirstAppend(votes, Vote(freshId, userId, postId, value), VoteBy(userId, postId));
  }

  /** A cast changes no other user's vote and no vote on another post. */
  lemma CastVoteOthersUnchanged(votes: seq<Vote>, userId: int, postId: int, value: int, freshId: int, u: int, p: int)
    requires u != userId || p != postId
    ensures VoteOf(CastVote(votes, userId, postId, value, freshId).votes, u, p) == VoteOf(votes, u, p)
  {
    match VoteRow(votes, userId, postId)
    case Some(row) =>
      if row.value == value {
        FirstFilter(votes, NotVoteBy(userId, postId), VoteBy(u, p));
      } else {
        FirstMapSeq(votes, SetVote(userId, postId, value), VoteBy(u, p));
      }
    case None =>
      FirstAppend(votes, Vote(freshId, userId, postId, value), VoteBy(u, p));
  }

  /** Voting the same value twice, starting without a vote, leaves the table as it was. */
  lemma VoteTwiceUndoes(votes: seq<Vote>, userId: int, postId: int, value: int, freshId: int, freshId2: int)
    requires VoteRow(votes, userId, postId).None?
    ensures CastVote(CastVote(votes, userId, postId, value, freshId).votes, userId, postId, value, freshId2).votes == votes
  {
    var v := Vote(freshId, userId, postId, value);
    FirstAppend(votes, v, VoteBy(userId, postId));
    FilterAppend(votes, [v], NotVoteBy(userId, postId));
    FilterAll(votes, NotVoteBy(userId, postId));
  }

  lemma {:induction false} OneRowSumIsVote(votes: seq<Vote>, userId: int, postId: int)
    requires CountVotes(votes, userId, postId) <= 1
    ensures UserVoteSum(votes, userId, postId) == VoteOf(votes, userId, postId)
  {
    if votes != [] {
      OneRowSumIsVote(votes[1..], userId, postId);
      if IsVoteOf(votes[0], userId, postId) {
        CountZeroIffNoRow(votes[1..], userId, postId);
        assert UserVoteSum(votes[1..], userId, postId) == 0;
      }
    }
  }

  lemma {:induction false} TotalAfterDelete(votes: seq<Vote>, userId: int, postId: int, q: int)
    ensures VoteTotal(Filter(votes, NotVoteBy(userId, postId)), q)
      == VoteTotal(votes, q) - (if q == postId then UserVoteSum(votes, userId, postId) else 0)
  {
    if votes != [] {
      TotalAfterDelete(votes[1..], userId, postId, q);
    }
  }

  lemma {:induction false} TotalAfterUpdate(votes: seq<Vote>, userId: int, postId: int, value: int, q: int)
    ensures VoteTotal(MapSeq(votes, SetVote(userId, postId, value)), q)
      == VoteTotal(votes, q)
         + (if q == postId then value * CountVotes(votes, userId, postId) - UserVoteSum(votes, userId, postId) else 0)
  {
    if votes != [] {
      MapSeqCons(votes, SetVote(userId, postId, value));
      TotalAfterUpdate(votes[1..], userId, postId, value, q);
    }
  }

  lemma {:induction false} TotalAfterInsert(votes: seq<Vote>, v: Vote, q: int)
    ensures VoteTotal(votes + [v], q) == VoteTotal(votes, q) + (if v.postId == q then v.value else 0)
  {
    if votes != [] {
      assert (votes + [v])[1..] == votes[1..] + [v];
      TotalAfterInsert(votes[1..], v, q);
    }
  }

  /**
   * With one vote per user and post, a cast moves the post's total by exactly the change of that user's
   * vote, and leaves every other post's total alone.
   */
  lemma CastVoteTotal(votes: seq<Vote>, userId: int, postId: int, value: int, freshId: int, q: int)
    requires OneVotePerUser(votes)
    ensures VoteTotal(CastVote(votes, userId, postId, value, freshId).votes, q)
      == VoteTotal(votes, q)
         + (if q == postId
            then VoteOf(CastVote(votes, userId, postId, value, freshId).votes, userId, postId) - VoteOf(votes, userId, postId)
            else 0)
  {
    var r := CastVote(votes, userId, postId, value, freshId);
    VoteAfterCast(votes, userId, postId, value, freshId);
    assert CountVotes(votes, userId, postId) <= 1;
    OneRowSumIsVote(votes, userId, postId);
    CountZeroIffNoRow(votes, userId, postId);
    match VoteRow(votes, userId, postId)
    case Some(row) =>
      if row.value == value {
        TotalAfterDelete(votes, userId, postId, q);
      } else {
        TotalAfterUpdate(votes, userId, postId, value, q);
      }
    case None =>
      TotalAfterInsert(votes, Vote(freshId, userId, postId, value), q);
  }

  // ------------------------------------------------------------------ tags

  function Named(name: string): Tag -> bool
  {
    (t: Tag) => t.name == name
  }

  function WithId(tagId: int): Tag -> bool
  {
    (t: Tag) => t.tagId == tagId
  }

  /** `SELECT tag_id FROM tags WHERE tag_name = ?`, first match. */
  function TagNamed(tags: seq<Tag>, name: string): Option<Tag>
  {
    First(tags, Named(name))
  }

  /** The tag row a link's `tag_id` joins to. */
  function TagWithId(tags: seq<Tag>, tagId: int): Option<Tag>
  {
    First(tags, WithId(tagId))
  }

  ghost predicate UniqueTagNames(tags: seq<Tag>)
  {
    forall i, j :: 0 <= i < j < |tags| ==> tags[i].name != tags[j].name
  }

  ghost predicate UniqueTagIds(tags: seq<Tag>)
  {
    forall i, j :: 0 <= i < j < |tags| ==> tags[i].tagId != tags[j].tagId
  }

  /** Every link joins to a tag row. */
  ghost predicate LinksResolve(tags: seq<Tag>, links: seq<PostTag>)
  {
    forall l :: l in links ==> TagWithId(tags, l.tagId).Some?
  }

  /** The tag table after `create_tag`, and the id it returns. */
  datatype TagResult = TagResult(tags: seq<Tag>, tagId: int)

  /** `create_tag`: the id of the tag with that name, inserting it under `freshId` when there is none. */
  function GetOrCreateTag(tags: seq<Tag>, name: string, freshId: int): (r: TagResult)
    ensures TagNamed(tags, name).Some? ==> r == TagResult(tags, TagNamed(tags, name).value.tagId)
    ensures TagNamed(tags, name).None? ==> r == TagResult(tags + [Tag(freshId, name)], freshId)
  {
    match TagNamed(tags, name)
    case Some(t) => TagResult(tags, t.tagId)
    case None => TagResult(tags + [Tag(freshId, name)], freshId)
  }

  /** Afterwards the name is stored under the returned id, and earlier rows are untouched. */
  lemma GetOrCreateTagFinds(tags: seq<Tag>, name: string, freshId: int)
    ensures TagNamed(GetOrCreateTag(tags, name, freshId).tags, name)
      == Some(Tag(GetOrCreateTag(tags, name, freshId).tagId, name))
    ensures tags <= GetOrCreateTag(tags, name, freshId).tags
  {
    if TagNamed(tags, name).None? {
      FirstAppend(tags, Tag(freshId, name), Named(name));
    }
  }

  /** `create_tag` twice with one name returns the same id and adds no second row. */
  lemma GetOrCreateTagIdempotent(tags: seq<Tag>, name: string, freshId: int, freshId2: int)
    ensures var r := GetOrCreateTag(tags, name, freshId);
      GetOrCreateTag(r.tags, name, freshId2) == r
  {
    GetOrCreateTagFinds(tags, name, freshId);
  }

  /** How many of `names`, from the front, are already stored as tags. */
  function StoredLead(names: seq<string>, tags: seq<Tag>): (n: nat)
    ensures n <= |names|
    ensures forall k :: 0 <= k < n ==> TagNamed(tags, names[k]).Some?
    ensures n < |names| ==> TagNamed(tags, names[n]).None?
  {
    if names == [] || TagNamed(tags, names[0]).None? then 0 else 1 + StoredLead(names[1..], tags)
  }

  /** A tag among rows with distinct ids is the one its id joins to. */
  lemma {:induction false} TagWithIdOfMember(tags: seq<Tag>, t: Tag)
    requires UniqueTagIds(tags) && t in tags
    ensures TagWithId(tags, t.tagId) == Some(t)
  {
    var r := TagWithId(tags, t.tagId).value;
    var i :| 0 <= i < |tags| && tags[i] == t;
    var j :| 0 <= j < |tags| && tags[j] == r;
    assert i == j;
  }

  /** Inserting a tag row keeps names and ids distinct when its name and id are new. */
  lemma AppendTagKeepsUnique(tags: seq<Tag>, t: Tag)
    requires UniqueTagNames(tags) && UniqueTagIds(tags)
    requires TagNamed(tags, t.name).None?
    requires forall u :: u in tags ==> u.tagId != t.tagId
    ensures UniqueTagNames(tags + [t]) && UniqueTagIds(tags + [t])
  {
    forall i, j | 0 <= i < j < |tags + [t]|
      ensures (tags + [t])[i].name != (tags + [t])[j].name && (tags + [t])[i].tagId != (tags + [t])[j].tagId
    {
      if j == |tags| {
        assert tags[i] in tags;
      }
    }
  }

  /** A link's tag stays the same when tag rows are appended after it. */
  lemma {:induction false} TagWithIdGrows(tags: seq<Tag>, more: seq<Tag>, tagId: int)
    requires TagWithId(tags, tagId).Some?
    ensures TagWithId(tags + more, tagId) == TagWithId(tags, tagId)
  {
    if tags[0].tagId != tagId {
      assert (tags + more)[1..] == tags[1..] + more;
      TagWithIdGrows(tags[1..], more, tagId);
    }
  }

  // ------------------------------------------------------------------ post-tag links

  function NotOfPost(postId: int): PostTag -> bool
  {
    (l: PostTag) => l.postId != postId
  }

  /** The name one link contributes to a post's tags: none unless it is the post's and joins to a tag. */
  function LinkEntry(tags: seq<Tag>, l: PostTag, postId: int): seq<string>
  {
    if l.postId == postId && TagWithId(tags, l.tagId).Some? then [TagWithId(tags, l.tagId).value.name] else []
  }

  /**
   * `get_tags_of_post`: the names of the post's tags, one per link that joins to a tag row, in link order.
   */
  function TagNamesOfPost(tags: seq<Tag>, links: seq<PostTag>, postId: int): (names: seq<string>)
    ensures |names| <= |links|
  {
    if links == [] then []
    else
      var l := links[|links| - 1];
      TagNamesOfPost(tags, links[..|links| - 1], postId) + LinkEntry(tags, l, postId)
  }

  /** Link `l` is one of the post's links and joins to a stored tag called `name`. */
  predicate LinkNamed(tags: seq<Tag>, l: PostTag, postId: int, name: string)
  {
    l.postId == postId && TagWithId(tags, l.tagId).Some? && TagWithId(tags, l.tagId).value.name == name
  }

  /**
   * The listed names are exactly the names of the stored tags that the post's links point to: each
   * listed name comes from one of them, and each of them is listed.
   */
  lemma {:induction false} TagNamesAreLinkNames(tags: seq<Tag>, links: seq<PostTag>, postId: int)
    ensures forall k :: 0 <= k < |TagNamesOfPost(tags, links, postId)| ==>
      exists l :: LinkNamed(tags, l, postId, TagNamesOfPost(tags, links, postId)[k]) && l in links
    ensures forall l :: l in links && l.postId == postId && TagWithId(tags, l.tagId).Some? ==>
      TagWithId(tags, l.tagId).value.name in TagNamesOfPost(tags, links, postId)
  {
    if links != [] {
      var l := links[|links| - 1];
      var init := links[..|links| - 1];
      TagNamesAreLinkNames(tags, init, postId);
      assert forall x :: x in init ==> x in links;
      assert forall x :: x in links ==> x in init || x == l;
      var front := TagNamesOfPost(tags, init, postId);
      var names := TagNamesOfPost(tags, links, postId);
      assert names == front + LinkEntry(tags, l, postId);
      forall k | 0 <= k < |names|
        ensures exists m :: LinkNamed(tags, m, postId, names[k]) && m in links
      {
        if k < |front| {
          assert names[k] == front[k];
          var m :| LinkNamed(tags, m, postId, front[k]) && m in init;
          assert m in links;
        } else {
          assert LinkNamed(tags, l, postId, names[k]) && l in links;
        }
      }
    } else {
      assert TagNamesOfPost(tags, links, postId) == [];
    }
  }

  lemma TagNamesAppend(tags: seq<Tag>, links: seq<PostTag>, l: PostTag, postId: int)
    ensures TagNamesOfPost(tags, links + [l], postId)
      == TagNamesOfPost(tags, links, postId) + LinkEntry(tags, l, postId)
  {
    assert (links + [l])[..|links|] == links;
  }

  lemma {:induction false} TagNamesPrepend(tags: seq<Tag>, l: PostTag, links: seq<PostTag>, postId: int)
    ensures TagNamesOfPost(tags, [l] + links, postId) == LinkEntry(tags, l, postId) + TagNamesOfPost(tags, links, postId)
  {
    if links != [] {
      var init := links[..|links| - 1];
      assert ([l] + links)[..|links|] == [l] + init;
      TagNamesPrepend(tags, l, init, postId);
    }
  }

  /** A post without links has no tags. */
  lemma {:induction false} TagNamesWithoutLinks(tags: seq<Tag>, links: seq<PostTag>, postId: int)
    requires forall l :: l in links ==> l.postId != postId
    ensures TagNamesOfPost(tags, links, postId) == []
  {
    if links != [] {
      assert forall l :: l in links[..|links| - 1] ==> l in links;
      TagNamesWithoutLinks(tags, links[..|links| - 1], postId);
    }
  }

  /** Appending tag rows does not change the tags of resolved links. */
  lemma {:induction false} TagNamesGrow(tags: seq<Tag>, more: seq<Tag>, links: seq<PostTag>, postId: int)
    requires LinksResolve(tags, links)
    ensures TagNamesOfPost(tags + more, links, postId) == TagNamesOfPost(tags, links, postId)
  {
    if links != [] {
      var l := links[|links| - 1];
      assert l in links;
      TagWithIdGrows(tags, more, l.tagId);
      assert LinksResolve(tags, links[..|links| - 1]) by {
        assert forall k :: k in links[..|links| - 1] ==> k in links;
      }
      TagNamesGrow(tags, more, links[..|links| - 1], postId);
    }
  }

  /** Linking a post to a stored tag, possibly just inserted, adds that tag's name to the post's tags only. */
  lemma LinkAddsName(tags: seq<Tag>, more: seq<Tag>, links: seq<PostTag>, postId: int, t: Tag)
    requires LinksResolve(tags, links) && UniqueTagIds(tags + more) && t in tags + more
    ensures TagWithId(tags + more, t.tagId) == Some(t)
    ensures LinksResolve(tags + more, links + [PostTag(postId, t.tagId)])
    ensures forall q ::
      TagNamesOfPost(tags + more, links + [PostTag(postId, t.tagId)], q)
        == TagNamesOfPost(tags, links, q) + (if q == postId then [t.name] else [])
  {
    TagWithIdOfMember(tags + more, t);
    forall l | l in links + [PostTag(postId, t.tagId)]
      ensures TagWithId(tags + more, l.tagId).Some?
    {
      if l in links {
        TagWithIdGrows(tags, more, l.tagId);
      }
    }
    forall q
      ensures TagNamesOfPost(tags + more, links + [PostTag(postId, t.tagId)], q)
        == TagNamesOfPost(tags, links, q) + (if q == postId then [t.name] else [])
    {
      TagNamesGrow(tags, more, links, q);
      TagNamesAppend(tags + more, links, PostTag(postId, t.tagId), q);
    }
  }

  /** Removing one post's links leaves every other post's tags as they were. */
  lemma {:induction false} TagNamesOtherPost(tags: seq<Tag>, links: seq<PostTag>, postId: int, q: int)
    requires q != postId
    ensures TagNamesOfPost(tags, Filter(links, NotOfPost(postId)), q) == TagNamesOfPost(tags, links, q)
  {
    if links != [] {
      var rest := Filter(links[1..], NotOfPost(postId));
      assert links == [links[0]] + links[1..];
      TagNamesPrepend(tags, links[0], links[1..], q);
      TagNamesOtherPost(tags, links[1..], postId, q);
      if links[0].postId != postId {
        TagNamesPrepend(tags, links[0], rest, q);
      }
    }
  }

  /** Tags added at the end keep every link resolving, and every post's tags as they were. */
  lemma NewTagsKeepLinks(tags: seq<Tag>, more: seq<Tag>, links: seq<PostTag>)
    requires LinksResolve(tags, links)
    ensures LinksResolve(tags + more, links)
    ensures forall q :: TagNamesOfPost(tags + more, links, q) == TagNamesOfPost(tags, links, q)
  {
    forall l | l in links
      ensures TagWithId(tags + more, l.tagId).Some?
    {
      TagWithIdGrows(tags, more, l.tagId);
    }
    forall q
      ensures TagNamesOfPost(tags + more, links, q) == TagNamesOfPost(tags, links, q)
    {
      TagNamesGrow(tags, more, links, q);
    }
  }

  /**
   * Links added or removed for one post only, and tags added at the end, leave every other post's tags
   * as they were.
   */
  lemma OtherPostsKeepTags(tags: seq<Tag>, more: seq<Tag>, links: seq<PostTag>, newLinks: seq<PostTag>, postId: int)
    requires LinksResolve(tags, links)
    requires Filter(newLinks, NotOfPost(postId)) == Filter(links, NotOfPost(postId))
    ensures forall q :: q != postId ==> TagNamesOfPost(tags + more, newLinks, q) == TagNamesOfPost(tags, links, q)
  {
    forall q | q != postId
      ensures TagNamesOfPost(tags + more, newLinks, q) == TagNamesOfPost(tags, links, q)
    {
      TagNamesOtherPost(tags + more, newLinks, postId, q);
      TagNamesOtherPost(tags + more, links, postId, q);
      TagNamesGrow(tags, more, links, q);
    }
  }

  // ------------------------------------------------------------------ chats

  /** `check_chat_exists`: a chat between the two users, in either seat order. */
  function ChatExists(chats: seq<Chat>, user1: int, user2: int): (b: bool)
    ensures b <==> exists c :: c in chats && {c.user1, c.user2} == {user1, user2}
  {
    assert forall c: Chat :: {c.user1, c.user2} == {user1, user2} ==>
      (c.user1 == user1 && c.user2 == user2) || (c.user1 == user2 && c.user2 == user1) by {
      forall c: Chat | {c.user1, c.user2} == {user1, user2}
        ensures (c.user1 == user1 && c.user2 == user2) || (c.user1 == user2 && c.user2 == user1)
      {
        assert c.user1 in {user1, user2} && c.user2 in {user1, user2};
        assert user1 in {c.user1, c.user2} && user2 in {c.user1, c.user2};
      }
    }
    exists c :: c in chats && ((c.user1 == user1 && c.user2 == user2) || (c.user1 == user2 && c.user2 == user1))
  }

  /** The check does not depend on which user asks. */
  lemma ChatExistsSymmetric(chats: seq<Chat>, user1: int, user2: int)
    ensures ChatExists(chats, user1, user2) <==> ChatExists(chats, user2, user1)
  {
  }

  // ------------------------------------------------------------------ post listing

  /** ASCII lower case, as SQLite's LOWER and LIKE treat letters. */
  function LowerAscii(s: string): (r: string)
    ensures |r| == |s|
    ensures forall i :: 0 <= i < |s| ==> r[i] == (if 'A' <= s[i] <= 'Z' then (s[i] as int + 32) as char else s[i])
  {
    seq(|s|, i requires 0 <= i < |s| => if 'A' <= s[i] <= 'Z' then (s[i] as int + 32) as char else s[i])
  }

  /** The number of spaces `s` starts with. */
  function LeadingSpaces(s: string): (n: nat)
    ensures n <= |s|
    ensures forall i :: 0 <= i < n ==> s[i] == ' '
    ensures n < |s| ==> s[n] != ' '
  {
    if s == [] || s[0] != ' ' then 0 else 1 + LeadingSpaces(s[1..])
  }

  /** `s` without its trailing spaces: a prefix of it, followed in it by spaces only. */
  function TrailingTrimmed(s: string): (r: string)
    ensures r <= s
    ensures forall i :: |r| <= i < |s| ==> s[i] == ' '
    ensures r != [] ==> r[|r| - 1] != ' '
  {
    if s == [] || s[|s| - 1] != ' ' then s else TrailingTrimmed(s[..|s| - 1])
  }

  /**
   * SQLite's one-argument TRIM: spaces removed from both ends. The result is the part of `s` after
   * its leading spaces, followed in `s` by spaces only, and neither starts nor ends with a space.
   */
  function TrimSpaces(s: string): (r: string)
    ensures LeadingSpaces(s) + |r| <= |s| && r == s[LeadingSpaces(s)..LeadingSpaces(s) + |r|]
    ensures forall i :: LeadingSpaces(s) + |r| <= i < |s| ==> s[i] == ' '
    ensures r != [] ==> r[0] != ' ' && r[|r| - 1] != ' '
    ensures s != [] && s[0] != ' ' && s[|s| - 1] != ' ' ==> r == s
  {
    var n := LeadingSpaces(s);
    var r := TrailingTrimmed(s[n..]);
    assert forall i :: n + |r| <= i < |s| ==> s[i] == ' ' by {
      forall i | n + |r| <= i < |s|
        ensures s[i] == ' '
      {
        assert s[i] == s[n..][i - n];
      }
    }
    assert r != [] ==> r[0] == s[n];
    r
  }

  /** `part` occurs in `s` starting at index `i`. */
  predicate OccursAt(s: string, part: string, i: int)
  {
    0 <= i && i + |part| <= |s| && s[i..i + |part|] == part
  }

  predicate Contains(s: string, part: string)
  {
    exists i | 0 <= i <= |s| :: OccursAt(s, part, i)
  }

  /**
   * `LOWER(TRIM(field)) LIKE '%search%'`, treating the search text literally: the empty text matches
   * every field, a matching text is no longer than the trimmed field, and a trimmed field matches
   * its own text in any letter case.
   */
  function FieldMatches(field: string, search: string): (b: bool)
    ensures search == [] ==> b
    ensures b ==> |search| <= |TrimSpaces(field)|
    ensures LowerAscii(search) == LowerAscii(TrimSpaces(field)) ==> b
  {
    var text := LowerAscii(TrimSpaces(field));
    assert OccursAt(text, LowerAscii(search), 0) <== search == [] || LowerAscii(search) == text by {
      if search == [] {
        assert text[0..0] == [];
      } else if LowerAscii(search) == text {
        assert text[0..|text|] == text;
      }
    }
    Contains(text, LowerAscii(search))
  }

  predicate PostMatches(p: Post, search: string)
  {
    FieldMatches(p.title, search) || FieldMatches(p.content, search)
  }

  function MatchesSearch(search: string): Post -> bool
  {
    (p: Post) => PostMatches(p, search)
  }

  /**
   * `LIMIT amount OFFSET offset`: a negative limit is no limit and a negative offset counts as 0. The
   * page holds the rows from position `offset` on, in order, as many as the limit allows.
   */
  function Page<T>(rows: seq<T>, amount: int, offset: int): (r: seq<T>)
    ensures amount >= 0 ==> |r| <= amount
    ensures amount < 0 && offset <= 0 ==> r == rows
    ensures 0 <= offset <= |rows| ==> r <= rows[offset..]
    ensures offset >= |rows| ==> r == []
    ensures var start := if offset < 0 then 0 else offset;
      start < |rows| ==> |r| == (if amount < 0 || amount > |rows| - start then |rows| - start else amount)
    ensures var start := if offset < 0 then 0 else offset;
      forall i :: 0 <= i < |r| ==> start + i < |rows| && r[i] == rows[start + i]
  {
    var start := if offset < 0 then 0 else if offset > |rows| then |rows| else offset;
    var end := if amount < 0 || start + amount > |rows| then |rows| else start + amount;
    rows[start..end]
  }

  /** A page keeps the order of the rows it is cut from. */
  lemma PagePairwise<T>(rows: seq<T>, amount: int, offset: int, before: (T, T) -> bool)
    requires Pairwise(rows, before)
    ensures Pairwise(Page(rows, amount, offset), before)
  {
    var r := Page(rows, amount, offset);
    var start := if offset < 0 then 0 else offset;
    forall i, j | 0 <= i < j < |r|
      ensures before(r[i], r[j])
    {
      assert r[i] == rows[start + i] && r[j] == rows[start + j];
    }
  }

  /** Two consecutive pages of one size make one page of twice the size. */
  lemma PagesTile<T>(rows: seq<T>, amount: nat, offset: nat)
    ensures Page(rows, amount, offset) + Page(rows, amount, offset + amount) == Page(rows, 2 * amount, offset)
  {
  }

  /** A page shorter than asked is the last one: the next page is empty. */
  lemma ShortPageIsLast<T>(rows: seq<T>, amount: nat, offset: nat)
    requires |Page(rows, amount, offset)| < amount
    ensures Page(rows, amount, offset + amount) == []
  {
  }

  /** `a` sorts no later than `b` in SQLite's BINARY collation: code point by code point, a prefix first. */
  predicate TextAtMost(a: string, b: string)
  {
    a == [] || (b != [] && (a[0] < b[0] || (a[0] == b[0] && TextAtMost(a[1..], b[1..]))))
  }

  /** The collation orders any two texts, and only equal texts both ways. */
  lemma {:induction false} TextAtMostTotal(a: string, b: string)
    ensures TextAtMost(a, b) || TextAtMost(b, a)
    ensures TextAtMost(a, b) && TextAtMost(b, a) ==> a == b
  {
    if a != [] && b != [] && a[0] == b[0] {
      TextAtMostTotal(a[1..], b[1..]);
      if TextAtMost(a, b) && TextAtMost(b, a) {
        assert a == [a[0]] + a[1..] && b == [b[0]] + b[1..];
      }
    }
  }

  /** `x` sorts no later than `y` for a vote sum, where SQLite puts NULL below every number. */
  predicate SumAtMost(x: Option<int>, y: Option<int>)
  {
    x.None? || (y.Some? && x.value <= y.value)
  }

  /**
   * The order `get_posts` puts `a` before `b` in: newer creation date first for NEW, higher vote sum
   * first for POPULAR, lower first for CONTROVERSIAL; RANDOM() admits any order for RECOMMENDED.
   */
  function ListedBefore(sort: SortType, votes: seq<Vote>): (Post, Post) -> bool
  {
    match sort
    case New => (a: Post, b: Post) => TextAtMost(b.creationDate, a.creationDate)
    case Popular => (a: Post, b: Post) => SumAtMost(VotesOfPost(votes, b.postId), VotesOfPost(votes, a.postId))
    case Controversial => (a: Post, b: Post) => SumAtMost(VotesOfPost(votes, a.postId), VotesOfPost(votes, b.postId))
    case Recommended => (a: Post, b: Post) => true
  }

  /** `ordered` is in an order the ORDER BY clause of `sort` may return. */
  predicate OrderedFor(sort: SortType, ordered: seq<Post>, votes: seq<Vote>)
  {
    Pairwise(ordered, ListedBefore(sort, votes))
  }

  /** `get_posts`, given the rows in the order the chosen ORDER BY puts them. */
  function ListPosts(ordered: seq<Post>, search: Option<string>, amount: int, offset: int): (r: seq<Post>)
    ensures amount >= 0 ==> |r| <= amount
    ensures forall p :: p in r ==> p in ordered
  {
    var rows := if search.Some? && search.value != "" then Filter(ordered, MatchesSearch(search.value)) else ordered;
    Page(rows, amount, offset)
  }

  /** Every listed post is a stored post, and with a search text each matches it in title or content. */
  lemma ListPostsMatch(ordered: seq<Post>, search: Option<string>, amount: int, offset: int)
    ensures forall p :: p in ListPosts(ordered, search, amount, offset) ==> p in ordered
    ensures search.Some? && search.value != "" ==>
      forall p :: p in ListPosts(ordered, search, amount, offset) ==> PostMatches(p, search.value)
  {
    var rows := if search.Some? && search.value != "" then Filter(ordered, MatchesSearch(search.value)) else ordered;
    var r := ListPosts(ordered, search, amount, offset);
    assert forall p :: p in r ==> p in rows;
  }

  /** Without a limit or offset, a search lists every stored post that matches it. */
  lemma ListPostsFindsMatches(ordered: seq<Post>, search: string, p: Post)
    requires search != "" && p in ordered && PostMatches(p, search)
    ensures p in ListPosts(ordered, Some(search), -1, 0)
  {
  }

  /** Without a limit or offset, every row that the search admits is listed. */
  lemma ListPostsUnpaged(ordered: seq<Post>, search: Option<string>, amount: int, offset: int)
    requires amount < 0 && offset <= 0
    ensures forall p :: p in ordered && (search.None? || search.value == "" || PostMatches(p, search.value)) ==>
      p in ListPosts(ordered, search, amount, offset)
  {
  }

  /** The listing keeps the order of the sorted rows: searching and paging drop rows but never reorder them. */
  lemma ListPostsOrdered(sort: SortType, ordered: seq<Post>, votes: seq<Vote>, search: Option<string>, amount: int, offset: int)
    requires OrderedFor(sort, ordered, votes)
    ensures OrderedFor(sort, ListPosts(ordered, search, amount, offset), votes)
  {
    var rows := if search.Some? && search.value != "" then Filter(ordered, MatchesSearch(search.value)) else ordered;
    if search.Some? && search.value != "" {
      FilterPairwise(ordered, MatchesSearch(search.value), ListedBefore(sort, votes));
    }
    PagePairwise(rows, amount, offset, ListedBefore(sort, votes));
  }

  /** With no search text and no limit or offset, every stored post is listed. */
  lemma ListPostsAll(ordered: seq<Post>, search: Option<string>)
    requires search.None? || search.value == ""
    ensures ListPosts(ordered, search, -1, 0) == ordered
  {
  }
}
