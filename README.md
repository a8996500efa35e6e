# Forum: capability gating, store, endpoints and client views in Dafny

This project models the core of a small forum. The backend is a FastAPI service over a SQLite store.
The frontend is a set of plain JavaScript pages. The model covers five parts.

- **Capability gating** (`Roles`). This is the client's role-to-permission table and its role colours.
  It also decides which user-management and content-management buttons a viewer is offered. Both
  decisions are evaluated as JavaScript evaluates them: a role with no entry in the table throws,
  and a property name every object inherits, such as "constructor", reads as a role without
  permissions.
- **The store** (`Tables`, `Database`). The SQLite tables are sequences of rows in rowid order,
  held in the class `Database.Store`. Each query is a pure function over the rows. Each write is a
  method that changes only the tables it names. The methods keep one invariant: ids are positive and
  fresh, each user has at most one vote per post, tag names and ids are unique, and every tag link
  resolves. Writes are proved against specification functions: `CastVote` for voting,
  `GetOrCreateTag` for tags, `TagNamesOfPost` for the post-tag join.
- **Signup validation** (`Signup`). These are the three `SignupData` field validators, the 422 error
  list Pydantic builds from them, and the signup page's table of German translations.
- **Endpoint decisions** (`Http`, `PostsApi`, `CommentsApi`, `ChatsApi`, `UsersApi`). Each handler's
  existence, login and author-or-privileged checks are modelled, with the status code each failing
  check raises and the store change a passing request makes.
- **Client view state** (`Feed`, `PostPage`, `CommentView`, `ChatPage`, `SignupPage`, `Header`,
  `JsText`). Each page's state is a class whose fields are the elements the script changes. The
  server's answers are inputs of the methods that handle them.

The clock, the token decoder, the NLP tagger and the backend's answers seen by the browser are all
parameters. `now` is a row's creation time. `currentUserId` is the id the token dependency produced.
`tags` are the tagger's output. `backendRole`, `authorReply`, `usernameOf`, `status` and `posts` are
the server's answers; a lookup whose answer holds no user is None or a failed reply.

## Model

| member | source | states |
|---|---|---|
| Models.SortCode | frontend/src/main.js:108-113 | each sort type has a code below 4 |
| Models.SortTypeOf | backend/api/endpoints/posts.py:33 | a sort query parameter names a sort type exactly when it is 0..3 |
| Models.SortCodeRoundTrip | frontend/src/main.js:108-113 | codes and sort types correspond one to one, in both directions |
| Tables.VoteOf | backend/db_service/database.py:258-267 | a user's vote on a post is 0 without a row, otherwise the stored value |
| Tables.VotesOfPost | backend/db_service/database.py:251-255 | the post total is None (SQL NULL) exactly when the post has no vote rows, otherwise the sum of its votes |
| Tables.CastVote | backend/db_service/database.py:82-102 | a fresh id is returned exactly when the user had no vote on the post, and then exactly that vote row is appended |
| Tables.CastVoteKeepsOneVote | backend/db_service/database.py:82-102 | voting keeps at most one vote row per user and post |
| Tables.VoteAfterCast | backend/db_service/database.py:89-102 | after voting, the user's vote is the new value, or 0 when it repeated the stored value |
| Tables.CastVoteOthersUnchanged | backend/db_service/database.py:82-102 | no other user's vote and no other post's vote changes |
| Tables.VoteTwiceUndoes | backend/db_service/database.py:89-93 | the same first vote cast twice leaves the vote table as it was |
| Tables.CastVoteTotal | backend/db_service/database.py:82-102 | the post's total moves by exactly the change of that user's vote; other posts' totals stay |
| Tables.GetOrCreateTag | backend/db_service/database.py:105-117 | an existing name returns its id and adds nothing; a new name is appended under the fresh id |
| Tables.GetOrCreateTagFinds | backend/db_service/database.py:105-117 | afterwards the name is stored under the returned id, and earlier rows are kept |
| Tables.GetOrCreateTagIdempotent | backend/db_service/database.py:105-117 | creating the same tag twice returns the same id and adds no second row |
| Tables.StoredLead | backend/db_service/database.py:366-367 | how many of the names, from the front, are already stored tags: all of those are, and the next one is not |
| Tables.TagNamesOfPost | backend/db_service/database.py:225-232 | there is at most one name per link |
| Tables.TagNamesAreLinkNames | backend/db_service/database.py:225-232 | every listed name is the name of the stored tag one of the post's links points to, and every such tag is listed |
| Tables.ChatExistsSymmetric | backend/db_service/database.py:51-55 | the chat-exists check gives the same answer in either user order |
| Tables.ChatExists | backend/db_service/database.py:51-55 | a chat exists exactly when some chat seats the same two users, in either order |
| Tables.TrimSpaces | backend/db_service/database.py:203 | SQL TRIM gives the text after the leading spaces, followed in it by spaces only, with no space at either end |
| Tables.FieldMatches | backend/db_service/database.py:203 | the empty search matches every field; a match is no longer than the trimmed field; a trimmed field matches its own text in any letter case |
| Tables.Page | backend/db_service/database.py:215-216 | the rows from position OFFSET on (a negative offset as 0), in order, as many as LIMIT allows (a negative limit as none) |
| Tables.PagesTile | backend/db_service/database.py:215-216 | two consecutive pages of one size make one page of twice the size |
| Tables.ShortPageIsLast | backend/db_service/database.py:215-216 | after a page shorter than the limit, the next page is empty |
| Tables.ListPosts | backend/db_service/database.py:198-222 | at most `amount` posts, each of them a stored post |
| Tables.ListPostsMatch | backend/db_service/database.py:202-204 | every listed post is stored, and with a search text it matches in title or content |
| Tables.ListPostsFindsMatches | backend/db_service/database.py:202-204 | without a limit or offset every stored post matching the search is listed |
| Tables.TextAtMostTotal | backend/db_service/database.py:206-207 | the text order of creation dates orders any two dates, and only equal ones both ways |
| Tables.ListPostsOrdered | backend/db_service/database.py:205-216 | searching and paging keep the order the sort's ORDER BY gives |
| Tables.ListPostsAll | backend/db_service/database.py:198-222 | with no search, no limit and offset 0, every post is listed in the given order |
| Database.Store.UserById | backend/db_service/database.py:144-153 | the user row with that id, None exactly when there is none |
| Database.Store.UserExists | backend/db_service/database.py:58-62 | a user exists exactly when the lookup by id finds a row |
| Database.Store.UsernameExists | backend/db_service/database.py:37-41 | a name exists exactly when a lookup by that name finds a row |
| Database.Store.EmailExists | backend/db_service/database.py:44-48 | an address exists exactly when some user row holds it; an empty table holds none |
| Database.Store.RoleById | backend/api/endpoints/utility.py:54 | the role of the user with that id, present exactly when the user exists |
| Database.Store.UsernameById | backend/api/endpoints/users.py:52 | the username of the user with that id, present exactly when the user exists |
| Database.Store.RoleOfUserByName | backend/api/endpoints/users.py:72 | the role of a user with that name, present exactly when the name exists |
| Database.Store.IsPrivileged | backend/api/endpoints/auth.py:31-44 | privileged exactly when the user exists and their role is "admin" or "moderator" |
| Database.Store.PostById | backend/db_service/database.py:185-195 | the post row with that id, None exactly when there is none |
| Database.Store.CommentById | backend/db_service/database.py:269-279 | the comment row with that id, None exactly when there is none |
| Database.Store.AuthorIdOfComment | backend/api/endpoints/comments.py:35 | the comment's author, None exactly when the comment is missing |
| Database.Store.CommentsOfPost | backend/db_service/database.py:281-287 | exactly the stored comments of the post |
| Database.Store.ChatById | backend/db_service/database.py:290-294 | the chat row with that id, None exactly when there is none |
| Database.Store.MessagesOfChat | backend/db_service/database.py:304-308 | exactly the stored messages of the chat |
| Database.Store.ChatExistsBetween | backend/db_service/database.py:51-55 | the same answer whichever of the two users asks |
| Database.Store.TagsOfPostAreLinkedTags | backend/db_service/database.py:225-232 | a post without links has no tags; every listed name is a stored tag one of the post's links points to, and each such tag is listed |
| Database.Store.VoteOfUser | backend/db_service/database.py:258-267 | 0 when the user has no vote row on the post, otherwise the value of one of their rows |
| Database.Store.VotesOfPostId | backend/db_service/database.py:251-255 | None (SQL NULL) exactly when nobody voted on the post, otherwise the sum of its votes |
| Database.Store.GetPosts | backend/db_service/database.py:198-222 | at most `amount` stored posts, each matching a non-empty search, in the order of the sort's ORDER BY; without limit or offset every matching post |
| Database.Store.CreateUser | backend/db_service/database.py:68-72 | appends one user with role "user" under a fresh id, returns the id, finds that user by it, and afterwards the name and the address exist |
| Database.Store.CreatePost | backend/db_service/database.py:75-79 | appends one post under a fresh positive id, and finds that post by it |
| Database.Store.CreateComment | backend/db_service/database.py:120-124 | appends one comment under a fresh id |
| Database.Store.CreateChatMsg | backend/db_service/database.py:127-131 | appends one message under a fresh id |
| Database.Store.CreateChat | backend/db_service/database.py:134-138 | appends one chat; afterwards a chat exists between the two users in both orders |
| Database.Store.CreateVotePost | backend/db_service/database.py:82-102 | the vote table and the returned id are those of `CastVote`; the id counter moves only on insert |
| Database.Store.CreateTag | backend/db_service/database.py:105-117 | the tag table and the id are those of `GetOrCreateTag`; the name is stored under the id; a name already stored leaves the table as it was |
| Database.Store.AddTagToPost | backend/db_service/database.py:373-378 | the post's tags gain the name at the end; every other post's tags stay; a name already stored creates no tag |
| Database.Store.DeleteLinksOfPost | backend/db_service/database.py:361-362 | the post has no tags afterwards; other posts keep theirs; reports whether a link was removed |
| Database.Store.LinkStoredTag | backend/db_service/database.py:375-377 | the new link points the post at a stored tag; that tag's name is appended to the post's tags and no other post's tags change |
| Database.Store.AddTagsToPost | backend/db_service/database.py:366-368 | the post's tags grow by exactly the given names in order; other posts keep theirs |
| Database.Store.UpdateTagsOfPost | backend/db_service/database.py:357-370 | the post's tags become the distinct new names; other posts keep theirs; the result is the last statement's row count |
| Database.Store.UpdateTagsOfPostAsWritten | backend/db_service/database.py:357-370 | as written: fails with "database is locked" exactly when a new name is not stored yet; no tag is created and the post keeps only the names before the first new one |
| Database.Store.LinkStoredLead | backend/db_service/database.py:366-368 | as written, on a post with no links: the loop links the names already stored, in order, and stops at the first name not yet stored; the tag table is unchanged |
| Database.Store.UpdateRole | backend/db_service/database.py:333-340 | a role outside the valid three is refused with no change; otherwise only that user's role changes |
| Database.Store.UpdatePostContent | backend/db_service/database.py:350-354 | only that post's content changes; reports whether it existed |
| Database.Store.UpdateCommentContent | backend/db_service/database.py:388-392 | only that comment's content changes; reports whether it existed |
| Database.Store.DeletePostWithComments | backend/db_service/database.py:398-406 | removes the post and exactly its comments; reports whether a comment was removed |
| Database.Store.DeleteComment | backend/db_service/database.py:409-413 | removes exactly that comment; reports whether it existed |
| Roles.ParseRole | frontend/src/utilities/roleUtilities.js:10-76 | a role string names a table entry exactly when it is one of the five role names |
| Roles.LookupRole | frontend/src/utilities/roleUtilities.js:10-76 | `roles[role]` is defined exactly for a known role, giving its entry, and for an inherited property name, giving no permission |
| Roles.RolesTableTotal | frontend/src/utilities/roleUtilities.js:10-76 | the table answers exactly for admin, moderator, user, guest and banned, and for the names every object inherits |
| Roles.NoRoleDemotesAdminOrEditsContent | frontend/src/utilities/roleUtilities.js:10-76 | no role may demote an admin or edit content |
| Roles.PrivilegedPermissions | frontend/src/utilities/roleUtilities.js:10-76 | only admins promote to admin; only admins and moderators ban and delete; all but guest and banned create |
| Roles.GetRoleColor | frontend/src/utilities/roleUtilities.js:79-109 | admin is red, moderator green and user blue; other roles have no colour |
| Roles.GetRole | frontend/src/utilities/roleUtilities.js:90-100 | a falsy id is "guest" without a request; any other id is asked of the backend |
| Roles.ResolveRole | frontend/src/utilities/roleUtilities.js:90-100 | "guest" for a falsy id without a request; otherwise the backend's role, or an error exactly when its answer holds no user |
| Roles.ResolveRoles | frontend/src/scripts/post.js:48-49 | both roles when both lookups succeed; otherwise the first lookup's error |
| Roles.NewControl | frontend/src/utilities/roleUtilities.js:215-225 | a created button carries its German caption, and only the submit button starts hidden |
| Roles.UserActions | frontend/src/utilities/roleUtilities.js:117-183 | throws exactly when the manager role has no table entry; otherwise offers user-management actions only |
| Roles.ContentActions | frontend/src/utilities/roleUtilities.js:192-242 | throws exactly for a non-author whose role has no table entry; otherwise offers content actions only |
| Roles.InheritedNameOffersNothing | frontend/src/utilities/roleUtilities.js:138-242 | a manager role that is an inherited property name offers no button and does not throw |
| Roles.DemoteAdminNeverOffered | frontend/src/utilities/roleUtilities.js:168-173 | a demote-admin button is never offered |
| Roles.BanAndPromoteOnlyForUsers | frontend/src/utilities/roleUtilities.js:140-159 | ban and promote-to-moderator only for a target "user"; promote-to-admin exactly for an admin over a user or moderator |
| Roles.EditOfferedIffAuthor | frontend/src/utilities/roleUtilities.js:215-226 | edit and submit are offered exactly to the author |
| Roles.DeleteRule | frontend/src/utilities/roleUtilities.js:228-233 | delete is offered to the author, an admin, or a moderator when the author's role is neither "admin" nor "mod" |
| Roles.ModeratorContentUnprotected | frontend/src/utilities/roleUtilities.js:228 | a moderator who is not the author is offered exactly delete on content of every author role except "admin" and "mod", so also on another moderator's, and nothing on an admin's |
| Roles.ClickToggle | frontend/src/utilities/roleUtilities.js:135-136 | the "..." button flips whether the actions are shown and changes nothing else |
| Roles.GetUserManagementButtons | frontend/src/utilities/roleUtilities.js:117-183 | throws exactly when `UserActions` does; otherwise a well-formed group holding exactly those actions |
| Roles.UserButtons | frontend/src/utilities/roleUtilities.js:138-181 | the chosen buttons in script order, hidden, with the toggle exactly when a button exists |
| Roles.GetContentManagementButtons | frontend/src/utilities/roleUtilities.js:192-242 | throws exactly when `ContentActions` does; otherwise a well-formed group holding exactly those actions |
| Signup.ValidateUsername | backend/api/endpoints/schemas.py:27-43 | not alphanumeric is refused first, then a taken name; otherwise the value passes unchanged |
| Signup.ValidateEmail | backend/api/endpoints/schemas.py:45-60 | a taken address is refused; otherwise the value passes unchanged |
| Signup.ValidatePassword | backend/api/endpoints/schemas.py:62-85 | fewer than 8 characters first, then a missing character class; otherwise the value passes unchanged |
| Signup.EmptyUsernameRejected | backend/api/endpoints/schemas.py:39-40 | the empty username is not alphanumeric |
| Signup.ShortPasswordMessage | backend/api/endpoints/schemas.py:75-76 | a short password gets the length message whatever it contains |
| Signup.StrongPasswordAccepted | backend/api/endpoints/schemas.py:75-85 | any password of at least 8 characters with an upper-case letter, a lower-case letter, a digit and a listed special character is accepted unchanged |
| Signup.StrongPasswordExtended | backend/api/endpoints/schemas.py:75-85 | appending characters to an accepted password keeps it accepted |
| Signup.SignupErrors | backend/api/endpoints/schemas.py:19-85 | the error list is empty exactly when all fields pass; a bad username is reported first |
| Signup.Translate | frontend/src/scripts/signup.js:38-68 | a known message becomes its German text; any other message is shown as it is |
| Signup.TranslationsDistinct | frontend/src/scripts/signup.js:40-62 | the six case labels differ, so each message matches at most one |
| Signup.EveryValidatorMessageTranslated | frontend/src/scripts/signup.js:40-62 | every message a validator raises has a German text |
| Http.CurrentUserId | backend/api/endpoints/utility.py:61-81 | a token without a truthy user id is refused with 401; otherwise the handler gets that id |
| PostsApi.ListQueryOf | backend/api/endpoints/posts.py:28-34 | missing parameters default to no search, 10, 0 and RECOMMENDED; an unknown sort is 422 |
| PostsApi.GetPosts | backend/api/endpoints/posts.py:28-48 | 422 exactly for an unknown sort; otherwise at most the asked number of stored, matching posts, in the order of the requested sort |
| PostsApi.DefaultListing | backend/api/endpoints/posts.py:29-33 | with no parameters the answer is the first ten posts in recommended order |
| PostsApi.GetPostById | backend/api/endpoints/posts.py:51-68 | the post, or 404 exactly when it is missing |
| PostsApi.GetCommentById | backend/api/endpoints/posts.py:134-151 | 404 when the comment is missing or belongs to another post; otherwise the comment |
| PostsApi.CreatePost | backend/api/endpoints/posts.py:155-176 | stores the post under the caller and links exactly the distinct tags; replies with the new id |
| PostsApi.CreateComment | backend/api/endpoints/posts.py:179-199 | 404 exactly for a missing post or falsy caller; otherwise one comment is added |
| PostsApi.VotePost | backend/api/endpoints/posts.py:202-224 | 401 for a falsy caller; otherwise the toggle rule sets the caller's vote and nobody else's changes |
| PostsApi.UpdatePostContent | backend/api/endpoints/posts.py:228-252 | 500 for a missing post; 403 unless author or privileged; otherwise only this post's content changes |
| PostsApi.DeletePost | backend/api/endpoints/posts.py:256-278 | 500 for a missing post; 403 unless author or privileged; otherwise the post and its comments go |
| PostsApi.MayChangePost | backend/api/endpoints/posts.py:246-248 | the author or a caller whose role is admin or moderator may change a post; nobody else |
| CommentsApi.OthersMayNotChange | backend/api/endpoints/comments.py:37 | someone who neither wrote the comment nor is privileged fails the guard |
| CommentsApi.UpdateComment | backend/api/endpoints/comments.py:19-41 | 403 exactly when the guard fails, with no change; otherwise only this comment's content changes |
| CommentsApi.DeleteComment | backend/api/endpoints/comments.py:45-65 | 403 exactly when the guard fails, with no change; otherwise only this comment is removed |
| CommentsApi.MayChangeComment | backend/api/endpoints/comments.py:35-37 | the comment's author or a caller whose role is admin or moderator passes; nobody else |
| ChatsApi.GetChatById | backend/api/endpoints/chats.py:29-46 | the chat, or 404 exactly when it is missing |
| ChatsApi.CreateChat | backend/api/endpoints/chats.py:65-90 | 400 for an existing chat in either order, before 404 for an unknown user; otherwise one chat is added |
| ChatsApi.SecondChatRefused | backend/api/endpoints/chats.py:81-83 | once a chat is added, the existence check holds for both orders |
| ChatsApi.CreateChatMessage | backend/api/endpoints/chats.py:93-108 | the message is appended to its chat unchecked, and the request is echoed |
| UsersApi.GetUserByIdAsWritten | backend/api/endpoints/users.py:13-37 | 404 for an unknown user; the own record is returned; any other request gets 500 |
| UsersApi.AdminReadRefusedAsWritten | backend/api/endpoints/users.py:33-35 | as written, an admin reading another user gets 500, where the intended handler returns the record |
| UsersApi.GetUserById | backend/api/endpoints/users.py:13-37 | 404 for an unknown user; 403 exactly for a caller who is neither the user nor an admin |
| UsersApi.SelfOrAdminReads | backend/api/endpoints/users.py:33-35 | a record is read exactly by its owner or an admin |
| UsersApi.AsWrittenDiffersOnlyForAdmins | backend/api/endpoints/users.py:33-35 | the two versions differ only where the intended one refuses with 403 or the caller is an admin |
| UsersApi.GetUsernameById | backend/api/endpoints/users.py:40-57 | the username, or 404 exactly when the user is unknown |
| UsersApi.GetRoleOfUserByName | backend/api/endpoints/users.py:60-77 | the role, or 404 exactly when the name is unknown |
| UsersApi.GetRoleById | backend/api/endpoints/users.py:80-97 | looks the role up by the username parameter, with 404 exactly when the name is unknown |
| UsersApi.RoleByIdIgnoresId | backend/api/endpoints/users.py:80-97 | the id in the path does not change the answer |
| UsersApi.CreateUser | backend/api/endpoints/users.py:117-135 | 422 with the validators' errors, with no change; otherwise the user is stored with role "user" |
| Feed.QueryParams | frontend/src/main.js:56-59 | search is sent exactly for a non-empty text, and offset and sort always come last |
| Feed.SortValue | frontend/src/main.js:107-115 | a dropdown value maps to a code 0..3 or to nothing |
| Feed.SortMappingMatchesServer | frontend/src/main.js:108-113 | the client's numbering of the dropdown is the server's numbering of the sort types |
| Feed.ServerPageIsClientPage | backend/api/endpoints/posts.py:29-33 | the server's default page size is the 10 at which the client offers "Load more" |
| Feed.AfterLoad | frontend/src/main.js:73-76 | a load at offset 0 shows just the page; otherwise the old list stays in front of it |
| Feed.UntilLookupFails | frontend/src/main.js:27-44 | the posts rendered are those before the first whose author lookup holds no user |
| Feed.ButtonAfterLoad | frontend/src/main.js:73-89 | after a complete load a button for the next page exactly when ten posts came; after a throw the old button stays unless offset 0 cleared it |
| Feed.RefusedLookupsShowNothing | frontend/src/main.js:35-38 | as written, with every author lookup refused, a first load shows no post and no button |
| Feed.FoundAuthorsShowWholePage | frontend/src/main.js:35-43 | when every author is found, the whole page is rendered |
| Feed.ScrolledIsPrefix | frontend/src/main.js:73-89 | after n loads the list is exactly the server's first n pages, without gaps or repeats |
| Feed.NoLoadMoreMeansAllShown | frontend/src/main.js:83-89 | once a page comes back short, the whole server list is shown |
| Feed.PostList.LoadPosts | frontend/src/main.js:53-90 | sends the query; clears the list and its button for offset 0; appends the posts in order up to the first author lookup that throws; after a complete load offers "Load more" exactly after ten |
| Feed.PostList.ClickLoadMore | frontend/src/main.js:85-88 | "Load more" repeats the stored request one page further, leaving the list and button of that load; without the button nothing happens |
| Feed.PostList.SearchBarPressed | frontend/src/main.js:97-102 | Enter reloads from offset 0 with the search text and sort 0, showing the posts up to the first failed author lookup; other keys do nothing |
| Feed.PostList.SortingChanged | frontend/src/main.js:107-118 | reloads from offset 0 with the new sort code and the current search text, showing the posts up to the first failed author lookup |
| JsText.Lead | frontend/src/scripts/post.js:161 | the white space that `parseInt` skips before the number |
| JsText.TrimStart | frontend/src/scripts/post.js:161 | leading white space is gone, and text that starts with another character is kept |
| JsText.Trim | frontend/src/scripts/chat.js:76 | white space is removed at both ends and nowhere else |
| JsText.TrimIdempotent | frontend/src/scripts/chat.js:76 | trimming trimmed text changes nothing |
| JsText.BlankTrimsToEmpty | frontend/src/scripts/chat.js:76 | a message of white space alone is sent empty |
| PostPage.DigitRun | frontend/src/scripts/post.js:161 | `parseInt` reads the longest run of leading digits |
| PostPage.ParseInt | frontend/src/scripts/post.js:161 | white space alone is NaN, and a negative value needs a leading minus sign |
| PostPage.PostIdFromUrl | frontend/src/scripts/post.js:154-168 | a missing or empty id parameter gives no post id |
| PostPage.PostIdOfLink | frontend/src/scripts/post.js:154-168 | an id up to 2^53 - 1 that a post link carries in decimal is read back as the same id |
| PostPage.ParseIntPrefix | frontend/src/scripts/post.js:161-164 | digits worth at most 2^53 - 1 followed by a non-digit read as the digits alone |
| PostPage.NoLeadingDigitIsNaN | frontend/src/scripts/post.js:164 | an id starting with neither white space, a sign nor a digit gives no post id |
| PostPage.ShownCountIsTotal | frontend/src/scripts/post.js:133-136 | the shown count is the sum of the post's votes, 0 when there are none |
| PostPage.ToggleEditView | frontend/src/scripts/post.js:203-226 | the flag flips, content and editor swap with it, and the editor holds the stored content |
| PostPage.ToggleTwiceRestores | frontend/src/scripts/post.js:203-226 | two toggles restore the view, and a cancelled draft is gone |
| PostPage.PostView.ConfigureUIElements | frontend/src/scripts/post.js:18-62 | form and vote buttons for a logged-in user and the editor for the author; a failed role lookup throws before the content buttons; otherwise they appear with edit exactly for the author |
| PostPage.PostView.ClickEdit | frontend/src/scripts/post.js:58-59 | a click on the edit button, which exists only with its handler, toggles the edit view |
| PostPage.PostView.DisplayVotes | frontend/src/scripts/post.js:126-148 | shows the total with NULL as 0 and highlights the button of the user's own vote |
| PostPage.PostView.DisplayTags | frontend/src/scripts/post.js:93-118 | no tags hides the area; otherwise one element per tag in order |
| CommentView.HandlerOf | frontend/src/utilities/commentUtilities.js:117-152 | user-management buttons act on the comment's author, and the content buttons on the comment |
| CommentView.NextFlag | frontend/src/utilities/commentUtilities.js:159-179 | only the string "false" turns into "true" |
| CommentView.Toggle | frontend/src/utilities/commentUtilities.js:159-179 | after a toggle the displays agree with the flag and the editor holds the comment's text |
| CommentView.ToggleTwiceRestores | frontend/src/utilities/commentUtilities.js:159-179 | two toggles restore a coherent state, whatever was typed in between |
| CommentView.OpenShowsStoredText | frontend/src/utilities/commentUtilities.js:159-179 | opening the editor shows the stored text, not an earlier draft |
| CommentView.CommentElement.constructor | frontend/src/utilities/commentUtilities.js:56-108 | date, author name, coloured role, content and hidden editor, in that order, not editing |
| CommentView.CommentElement.Bind | frontend/src/utilities/commentUtilities.js:136-151 | every button of a group gets its handler (`HandlerOf`), and the new handler map is the old one overridden on exactly the group's actions |
| CommentView.CommentElement.InsertButtons | frontend/src/utilities/commentUtilities.js:117-152 | a failed role lookup throws with nothing placed; a throw in the user group leaves the content group placed; otherwise the user group above the content group with exactly the actions each rule allows, every offered action bound to its handler (edit, submit and delete on the comment, user actions on the author) and no other handler changed |
| CommentView.CommentElement.PlaceButtons | frontend/src/utilities/commentUtilities.js:122-151 | content group first, then the user group above it, each with exactly the allowed actions; a throw in the first group places nothing, a throw in the second leaves the content group placed and binds nothing; on success every offered action gets its handler and no other handler changes |
| CommentView.CommentElement.BindGroups | frontend/src/utilities/commentUtilities.js:131-151 | every button of both groups gets its listener: edit toggles the editor, submit saves, delete deletes, each user-management button acts on the author; handlers of other buttons are unchanged; edit is bound only if the content group offers it |
| CommentView.CommentElement.ClickEdit | frontend/src/utilities/commentUtilities.js:159-179 | a click on a bound edit button toggles the comment's edit state |
| CommentView.CreateCommentDiv | frontend/src/utilities/commentUtilities.js:56-108 | a failed role lookup gives no element; otherwise the element with the looked-up role, the name shown as "null" when its lookup failed |
| ChatPage.Partner | frontend/src/scripts/chat.js:104-135 | a logged-in participant's partner is the other participant; anyone else has none |
| ChatPage.PartnersSeeEachOther | frontend/src/scripts/chat.js:104-135 | each of two participants sees the other, and an outsider sees nobody |
| ChatPage.Lines | frontend/src/scripts/chat.js:23-63 | one line per message in order, with the sender's name and the text |
| ChatPage.SentMessageShownLast | frontend/src/scripts/chat.js:70-99 | a message appended by the store shows as the last line, after the earlier ones |
| ChatPage.ChatView.LoadMessages | frontend/src/scripts/chat.js:23-63 | the list is cleared and rebuilt from the server's messages in order |
| ChatPage.ChatView.Initialize | frontend/src/scripts/chat.js:104-135 | a participant gets "Chat mit" and the partner's name, the send button and the messages; others get nothing |
| ChatPage.ChatView.SendMessage | frontend/src/scripts/chat.js:70-99 | posts the trimmed input with the user id, reloads the list and clears the input |
| SignupPage.OutcomeOf | frontend/src/scripts/signup.js:4-33 | redirect exactly on success; a failed answer whose body is not JSON throws; a 422 shows its first message translated, an empty list throws; other failures show the generic text |
| SignupPage.ValidFormRedirects | frontend/src/scripts/signup.js:18-22 | a form is sent to the login page exactly when validation passes, and the script never throws |
| SignupPage.NonAlphanumericUsernameShown | frontend/src/scripts/signup.js:41-42 | a non-alphanumeric username is reported first, in German |
| SignupPage.ShortPasswordShown | frontend/src/scripts/signup.js:53-54 | with the other fields valid, a short password shows the German length message |
| SignupPage.SignupForm.DisplayErrorMessage | frontend/src/scripts/signup.js:38-68 | the shown text is the translation of the message, and it is displayed |
| SignupPage.SignupForm.SubmitSignupForm | frontend/src/scripts/signup.js:4-33 | posts the three fields; then redirects, shows the outcome's text, or leaves the page as it was |
| Header.AfterShow | frontend/src/utilities/headerUtilities.js:4-46 | logged in exactly for a truthy token that was accepted; a refused token is removed |
| Header.RefusedTokenNotResent | frontend/src/utilities/headerUtilities.js:24-32 | a refused token is never sent again; an accepted token stays |
| Header.UserDetails | frontend/src/utilities/headerUtilities.js:51-59 | a user answer gives its name, role and role colour; any other answer throws |
| Header.HeaderView.ShowCurrentUser | frontend/src/utilities/headerUtilities.js:4-46 | a request is sent exactly for a truthy token; the header shows the user or the login buttons |
| Header.HeaderView.Logout | frontend/src/utilities/headerUtilities.js:64-67 | the token is removed and the page reloads as logged out |

## Left out

- I/O is not modelled: the network, `fetch`, `localStorage`, the DOM and Quill. Their results are method inputs and their effects are class fields.
- JWT encoding and decoding, bcrypt hashing and token expiry are left out. `Http.CurrentUserId` takes the decoded claim as an input.
- Token key mismatch: `auth.py` puts the id under "sub" when it issues a token, but `utility.py` reads "user_id". The handlers take the id the dependency produced, so the model does not capture this.
- The NLP tag extraction (`tag_management.py`) is left out; `PostsApi.CreatePost` takes its tags as an input.
- Database.Store.UpdateTagsOfPost: Python iterates `set(new_tags)` in an order fixed by string hashing. That order is an input, `unique`, and the contract pins the post's tags to it.
- Database.Store.GetPosts: the sorted table is an input `ordered`, required to be in an order the sort's ORDER BY may give (`Tables.OrderedFor`); which of the admissible orders SQLite picks among ties, and RANDOM's choice, are not modelled.
- Tables.FieldMatches: treats the search text literally; LIKE wildcards (`%`, `_`) in it are not interpreted, and case folding covers ASCII only.
- Every INSERT draws its id from one counter, not from SQLite's per-table rowids. Ids are fresh and positive in both cases.
- PostsApi.CreatePost: uses the corrected `Database.Store.UpdateTagsOfPost`; as written, a tag name not yet stored makes `create_post` end in "database is locked" (status 500) after the post row is committed (see the database.py:366-367 row under "## Findings").
- Apart from `Database.Store.UpdateTagsOfPostAsWritten`, the connection context manager and SQLite's locking are left out; each call is atomic in the model.
- Missing store functions: `database.py` does not define `get_role_by_id`, `get_username_by_id`, `get_role_of_user_by_name` or `get_author_id_of_comment`, though the endpoints call them. They are modelled as the plain lookups their names describe: `Store.RoleById`, `Store.UsernameById`, `Store.RoleOfUserByName`, `Store.AuthorIdOfComment`.
- Models.SortType is not defined in `models.py`, though `posts.py` and `database.py` import it. Its members and numbering follow the uses in `database.py:206-213` and the client's numbering in `main.js:108-113`.
- The login endpoints are left out. `users.py` `login_user` calls `db.login_user`, which does not exist; `auth.py` login uses OAuth2 forms and bcrypt.
- Signup has two endpoints. The page posts to `auth.py` `/signup/`, which hashes the password before storing it; `UsersApi.CreateUser` models the `users.py` one, which stores it as sent. Both validate the same `SignupData`.
- The email address format check of `EmailStr` is an input, `emailFormatError`; only its one message that the page translates is named.
- Signup.IsAlnum: `str.isalnum` and `isupper`/`islower`/`isdigit` accept Unicode letters and digits; the model accepts ASCII only.
- Header.HeaderView.ShowCurrentUser: the header asks `users/me/`, which no router defines, so every real request fails and the token is dropped. The answer's status is an input, so the model covers both branches.
- Feed.PostList.LoadPosts: records which posts are rendered, not the author line each shows (name, role and colour).
- The order of concurrent async calls and the page's `initialize` functions (`post.js:246-266`) are left out; each handler is one atomic step.
- Comment and chat timestamps are left out: the store's creation-date column defaults, and the `created_at` field `chat.js` shows.
- `displayPost`, `displayComments`, `renderMathJax`, `createComment`, `submitEditComment`, `deleteComment` and `submitEditPostFunction` send requests or render HTML. They are left out; `CommentView.Handler` records which of them a button triggers.
- Store functions outside the modelled endpoints are left out: `get_posts_with_tag`, `get_chats_of_user`, `get_chat_message`, `get_public_user_by_*`, `update_username`, `update_post_title` and `update_vote_post`.
- The overview pages (`chatOverview.js`, `createPost.js`, `login.js`) and the older copies under `frontend/scripts/` and the top-level `api.py`/`db_service.py` are left out.
- Tables.TagNamesOfPost: the JOIN of `get_tags_of_post` has no ORDER BY; the model lists the names in link order, and `Database.Store.UpdateTagsOfPost`'s equality of the post's tags with `unique` rests on that order.
- Roles.GetRoleColor: `colors[role]` for an inherited property name is a function, not undefined; the model gives None for every role outside the three colours.
- Feed.QueryParams: the search text is spliced into the URL unencoded (`main.js:57`), so "+", "&", "#" and "%" in it change what the server receives; the model lists the parameters as text.
- PostPage.PostIdFromUrl: JavaScript numbers are doubles, so a digit run above 2^53 - 1 is rounded and a very long one gives Infinity, which passes the NaN test; the model reads the exact integer.
- PostPage.ParseInt: gives the exact integer where JavaScript rounds, and 0 for "-0".
- PostPage.PostIdOfLink: stated only for ids up to 2^53 - 1, the integers a double holds exactly.
- PostPage.ParseIntPrefix: stated only for digit runs worth at most 2^53 - 1, for the same reason.
- UsersApi.CreateUser: the normalisation `EmailStr` applies (domain lower-cased, surrounding spaces stripped, a display name dropped) is not computed; `email` is the address after it.
- CommentView.CommentElement.constructor: builds the element from a name and role already looked up; `CommentView.CreateCommentDiv` models the lookups and the failed role lookup.

## Findings

| source | as written | input that shows it | evidently intended | confidence | as-written member | corrected member |
|---|---|---|---|---|---|---|
| frontend/src/utilities/headerUtilities.js:51-59 | `getUserDetails` requests `users/id/<id>/` without an Authorization header; that route depends on the bearer-token check, so the answer holds no `user` and reading `data["user"]` throws at the first post | a front page load while at least one post is stored | each post is listed with its author's name and role | not executed | Feed.PostList.LoadPosts, Feed.RefusedLookupsShowNothing | Feed.FoundAuthorsShowWholePage, Feed.ScrolledIsPrefix |
| backend/db_service/database.py:366-367 | `create_tag` opens a second connection while the first still holds the write lock its DELETE took, so inserting a name not yet stored waits out the busy timeout and raises "database is locked"; the outer block's exit still commits the DELETE and the links made so far | a post updated with the tags ["new"] while no tag "new" is stored | the post's tags become the distinct new names, new names stored as tags | not executed | Database.Store.UpdateTagsOfPostAsWritten | Database.Store.UpdateTagsOfPost |
| backend/api/endpoints/users.py:34 | `current_user["role"]` subscripts the `User` model the store returned, which raises TypeError (500) for every caller reading another user's record | an existing admin (id 1) requests `/users/id/2/` for an existing user 2 | admins read any record; others get 403, as the comment on line 33 says | not executed | UsersApi.GetUserByIdAsWritten, UsersApi.AdminReadRefusedAsWritten | UsersApi.GetUserById, UsersApi.SelfOrAdminReads |
