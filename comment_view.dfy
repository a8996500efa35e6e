/**
 * One comment on the post page (frontend/src/utilities/commentUtilities.js): the element
 * `createCommentDiv` builds, the two button groups `insertButtons` puts on top of it with the
 * handlers it binds, and the edit toggle. The author's name and role come from the backend and
 * are inputs, as is the text the browser derives from the comment's HTML.
 */
module CommentView {
  import opened Util
  import opened Models
  import opened Roles

  /** The children of a comment element, in document order. */
  datatype Part =
    | CreationDate(text: string)
    | AuthorName(text: string)
    | RoleTag(text: string, color: Option<string>)
    | Content(html: string)
    | Editor
    | Management(group: ButtonGroup)

  /** What a bound button does when clicked: comment actions act on this comment, user actions on its author. */
  datatype Handler = ToggleEdit | SubmitEdit | Delete | ManageUser(action: Action, userId: int)

  /** The handler `insertButtons` binds to the button for `a`. */
  function HandlerOf(a: Action, authorId: int): (h: Handler)
    ensures a in {Ban, PromoteToMod, PromoteToAdmin, DemoteMod, DemoteAdmin} <==> h == ManageUser(a, authorId)
  {
    match a
    case EditContent => ToggleEdit
    case SubmitEditContent => SubmitEdit
    case DeleteContent => Delete
    case _ => ManageUser(a, authorId)
  }

  /** The handlers bound to the buttons for `actions`. */
  function BoundTo(actions: set<Action>, authorId: int): (m: map<Action, Handler>)
    ensures m.Keys == actions
    ensures forall a :: a in actions ==> m[a] == HandlerOf(a, authorId)
  {
    map a | a in actions :: HandlerOf(a, authorId)
  }

  /** Binding one group after another binds their union. */
  lemma BoundToUnion(h: map<Action, Handler>, first: set<Action>, second: set<Action>, authorId: int)
    ensures h + BoundTo(first, authorId) + BoundTo(second, authorId) == h + BoundTo(first + second, authorId)
  {
  }

  /** The state the edit toggle controls; the flag is the string kept in the element's data attribute. */
  datatype EditState = EditState(flag: string, contentShown: bool, editorShown: bool, toolbarShown: bool,
                                 caption: string, submitShown: bool, editorHtml: string)

  /** The displays agree with the flag. */
  predicate Coherent(s: EditState)
  {
    var visible := s.flag == "true";
    s.contentShown == !visible && s.editorShown == visible && s.toolbarShown == visible
    && s.submitShown == visible && s.caption == (if visible then "Zurück" else "Bearbeiten")
  }

  /** The flag after a toggle: only the exact string "false" turns into "true". */
  function NextFlag(flag: string): (f: string)
    ensures f == "true" <==> flag == "false"
    ensures f == "true" || f == "false"
  {
    if flag == "false" then "true" else "false"
  }

  /** `toggleEditComment`: flip the flag, match the displays to it, and load the content's text into the editor. */
  function Toggle(s: EditState, contentText: string): (t: EditState)
    ensures Coherent(t) && t.editorHtml == contentText
    ensures t.flag == NextFlag(s.flag)
  {
    var flag := NextFlag(s.flag);
    var visible := flag == "true";
    EditState(flag, !visible, visible, visible, if visible then "Zurück" else "Bearbeiten", visible, contentText)
  }

  /** From a coherent state with a proper flag, two toggles come back to it, whatever was typed in between. */
  lemma {:induction false} ToggleTwiceRestores(s: EditState, contentText: string, draft: string)
    requires Coherent(s) && (s.flag == "true" || s.flag == "false") && s.editorHtml == contentText
    ensures Toggle(Toggle(s, contentText).(editorHtml := draft), contentText) == s
  {
    assert |"true"| != |"false"|;
  }

  /** Opening the editor always shows the text of the comment as stored, never an earlier draft. */
  lemma OpenShowsStoredText(s: EditState, contentText: string)
    requires s.flag == "false"
    ensures Toggle(s, contentText).flag == "true" && Toggle(s, contentText).editorShown
    ensures !Toggle(s, contentText).contentShown && Toggle(s, contentText).editorHtml == contentText
  {
  }

  class CommentElement {
    var commentId: int
    var parts: seq<Part>
    var handlers: map<Action, Handler>
    var flag: string
    var contentShown: bool
    var editorShown: bool
    var toolbarShown: bool
    /** The caption of the edit button and the display of the submit button, once those exist. */
    var editCaption: string
    var submitShown: bool
    var editorHtml: string
    /** The text of the rendered content, which the editor is loaded with. */
    var contentText: string

    /**
     * The element `createCommentDiv` builds once the author's name and role are known: date, " - "
     * and the name, the role in parentheses in its colour, the content, then the hidden editor with
     * a hidden toolbar; the edit flag starts as "false".
     */
    constructor (comment: Comment, authorName: string, authorRole: string, contentText: string)
      ensures commentId == comment.commentId && flag == "false" && handlers == map[]
      ensures parts == [CreationDate(comment.creationDate), AuthorName(" - " + authorName),
                        RoleTag(" (" + authorRole + "): ", GetRoleColor(authorRole)), Content(comment.content), Editor]
      ensures State() == EditState("false", true, false, false, "Bearbeiten", false, "") && Coherent(State())
      ensures this.contentText == contentText
    {
      commentId := comment.commentId;
      flag := "false";
      parts := [CreationDate(comment.creationDate), AuthorName(" - " + authorName),
                RoleTag(" (" + authorRole + "): ", GetRoleColor(authorRole)), Content(comment.content), Editor];
      handlers := map[];
      contentShown, editorShown, toolbarShown := true, false, false;
      editCaption, submitShown, editorHtml := Label(EditContent), false, "";
      this.contentText := contentText;
    }

    function State(): EditState
      reads this
    {
      EditState(flag, contentShown, editorShown, toolbarShown, editCaption, submitShown, editorHtml)
    }

    /** Binds a handler to every button of `group`. */
    method Bind(group: ButtonGroup, authorId: int)
      modifies this`handlers
      ensures forall a :: a in handlers <==> a in old(handlers) || a in Actions(group.actions)
      ensures forall a :: a in Actions(group.actions) ==> handlers[a] == HandlerOf(a, authorId)
      ensures forall a :: a in old(handlers) && a !in Actions(group.actions) ==> handlers[a] == old(handlers)[a]
      ensures handlers == old(handlers) + BoundTo(Actions(group.actions), authorId)
    {
      handlers := handlers + BoundTo(Actions(group.actions), authorId);
    }

    /**
     * Both groups get their handlers: every button of either group its `HandlerOf` (edit, submit and
     * delete act on the comment, the user group's buttons each manage the author), and no other
     * handler changes.
     */
    method BindGroups(content: ButtonGroup, user: ButtonGroup, authorId: int)
      requires Actions(user.actions) <= {Ban, PromoteToMod, PromoteToAdmin, DemoteMod, DemoteAdmin}
      modifies this`handlers
      ensures handlers == old(handlers) + BoundTo(Actions(content.actions) + Actions(user.actions), authorId)
      ensures forall a :: a in Actions(content.actions) + Actions(user.actions) ==>
        a in handlers && handlers[a] == HandlerOf(a, authorId)
      ensures forall a :: a in old(handlers) && a !in Actions(content.actions) + Actions(user.actions) ==>
        a in handlers && handlers[a] == old(handlers)[a]
      ensures forall a :: a in Actions(user.actions) ==> a in handlers && handlers[a] == ManageUser(a, authorId)
      ensures EditContent !in old(handlers) ==> (EditContent in handlers <==> EditContent in Actions(content.actions))
    {
      Bind(content, authorId);
      Bind(user, authorId);
      BoundToUnion(old(handlers), Actions(content.actions), Actions(user.actions), authorId);
    }

    /**
     * `insertButtons`: the roles of the viewer and the author are resolved (a failed lookup throws
     * before anything is placed), then the two button groups are placed.
     */
    method InsertButtons(currentUserId: Option<int>, authorId: int, backendRole: int -> Option<string>)
      returns (r: Result<(), ScriptError>)
      modifies this`parts, this`handlers
      ensures var roles := ResolveRoles(currentUserId, Some(authorId), backendRole);
        roles.Err? ==> r == Err(roles.error) && parts == old(parts) && handlers == old(handlers)
      ensures var roles := ResolveRoles(currentUserId, Some(authorId), backendRole);
        roles.Ok? && ContentActions(roles.value.0, roles.value.1, currentUserId == Some(authorId)).Err?
        ==> r.Err? && parts == old(parts) && handlers == old(handlers)
      ensures var roles := ResolveRoles(currentUserId, Some(authorId), backendRole);
        r.Err? <==> roles.Err? || ContentActions(roles.value.0, roles.value.1, currentUserId == Some(authorId)).Err?
                    || UserActions(roles.value.0, roles.value.1).Err?
      ensures r.Err? ==> handlers == old(handlers)
      ensures r.Ok? ==> |parts| == |old(parts)| + 2 && parts[2..] == old(parts)
      ensures r.Ok? ==> parts[0].Management? && WellFormed(parts[0].group) && parts[1].Management? && WellFormed(parts[1].group)
      ensures var roles := ResolveRoles(currentUserId, Some(authorId), backendRole);
        r.Ok? ==> roles.Ok? && Actions(parts[0].group.actions) == UserActions(roles.value.0, roles.value.1).value
      ensures var roles := ResolveRoles(currentUserId, Some(authorId), backendRole);
        r.Ok? ==> roles.Ok? && Actions(parts[1].group.actions)
                               == ContentActions(roles.value.0, roles.value.1, currentUserId == Some(authorId)).value
      ensures r.Ok? ==>
        forall a :: a in Actions(parts[0].group.actions) ==> a in handlers && handlers[a] == ManageUser(a, authorId)
      ensures r.Ok? && EditContent !in old(handlers) ==> (EditContent in handlers <==> currentUserId == Some(authorId))
      ensures var roles := ResolveRoles(currentUserId, Some(authorId), backendRole);
        roles.Ok? && ContentActions(roles.value.0, roles.value.1, currentUserId == Some(authorId)).Ok?
        && UserActions(roles.value.0, roles.value.1).Err? ==>
        |parts| == |old(parts)| + 1 && parts[1..] == old(parts) && parts[0].Management?
        && Actions(parts[0].group.actions) == ContentActions(roles.value.0, roles.value.1, currentUserId == Some(authorId)).value
      ensures var roles := ResolveRoles(currentUserId, Some(authorId), backendRole);
        r.Ok? ==> (roles.Ok? && handlers == old(handlers)
          + BoundTo(ContentActions(roles.value.0, roles.value.1, currentUserId == Some(authorId)).value
                    + UserActions(roles.value.0, roles.value.1).value, authorId))
    {
      var roles := ResolveRoles(currentUserId, Some(authorId), backendRole);
      if roles.Err? {
        return Err(roles.error);
      }
      r := PlaceButtons(roles.value.0, roles.value.1, currentUserId == Some(authorId), authorId);
    }

    /**
     * The rest of `insertButtons` once both roles are known: the content group is put in front, then
     * the user group in front of it, and every button gets its handler. An unknown viewer role throws
     * in the first group that reads the permission table.
     */
    method PlaceButtons(currentRole: string, authorRole: string, isAuthor: bool, authorId: int)
      returns (r: Result<(), ScriptError>)
      modifies this`parts, this`handlers
      ensures ContentActions(currentRole, authorRole, isAuthor).Err? ==> r.Err? && parts == old(parts) && handlers == old(handlers)
      ensures r.Err? <==> ContentActions(currentRole, authorRole, isAuthor).Err? || UserActions(currentRole, authorRole).Err?
      ensures r.Err? ==> handlers == old(handlers)
      ensures r.Ok? ==> |parts| == |old(parts)| + 2 && parts[2..] == old(parts)
      ensures r.Ok? ==> parts[0].Management? && WellFormed(parts[0].group) && parts[1].Management? && WellFormed(parts[1].group)
      ensures r.Ok? ==> Actions(parts[0].group.actions) == UserActions(currentRole, authorRole).value
      ensures r.Ok? ==> Actions(parts[1].group.actions) == ContentActions(currentRole, authorRole, isAuthor).value
      ensures r.Ok? ==>
        forall a :: a in Actions(parts[0].group.actions) ==> a in handlers && handlers[a] == ManageUser(a, authorId)
      ensures r.Ok? && EditContent !in old(handlers) ==> (EditContent in handlers <==> isAuthor)
      ensures ContentActions(currentRole, authorRole, isAuthor).Ok? && UserActions(currentRole, authorRole).Err? ==>
        |parts| == |old(parts)| + 1 && parts[1..] == old(parts) && parts[0].Management? && WellFormed(parts[0].group)
        && Actions(parts[0].group.actions) == ContentActions(currentRole, authorRole, isAuthor).value
      ensures r.Ok? ==> (handlers == old(handlers)
        + BoundTo(ContentActions(currentRole, authorRole, isAuthor).value + UserActions(currentRole, authorRole).value, authorId))
      ensures r.Ok? ==>
        var offered := ContentActions(currentRole, authorRole, isAuthor).value + UserActions(currentRole, authorRole).value;
        forall a :: a in offered ==> a in handlers && handlers[a] == HandlerOf(a, authorId)
      ensures r.Ok? ==>
        var offered := ContentActions(currentRole, authorRole, isAuthor).value + UserActions(currentRole, authorRole).value;
        forall a :: a in old(handlers) && a !in offered ==> a in handlers && handlers[a] == old(handlers)[a]
    {
      var content := GetContentManagementButtons(currentRole, authorRole, isAuthor);
      if content.Err? {
        return Err(content.error);
      }
      parts := [Management(content.value)] + parts;
      var user := GetUserManagementButtons(currentRole, authorRole);
      if user.Err? {
        return Err(user.error);
      }
      parts := [Management(user.value)] + parts;
      EditOfferedIffAuthor(currentRole, authorRole, isAuthor);
      BindGroups(content.value, user.value, authorId);
      r := Ok(());
    }

    /** A click on the edit button, which exists only with its handler: the toggle, on the content's text. */
    method ClickEdit()
      modifies this`flag, this`contentShown, this`editorShown, this`toolbarShown, this`editCaption, this`submitShown,
               this`editorHtml
      ensures EditContent !in handlers ==> State() == old(State())
      ensures EditContent in handlers ==> State() == Toggle(old(State()), contentText)
    {
      if EditContent !in handlers {
        return;
      }
      flag := if flag == "false" then "true" else "false";
      var visible := flag == "true";
      contentShown := !visible;
      editorShown := visible;
      toolbarShown := visible;
      editCaption := if visible then "Zurück" else "Bearbeiten";
      submitShown := visible;
      editorHtml := contentText;
    }
  }

  /**
   * `createCommentDiv`: `authorName` is what `getUsername` returned (None for its null, which the span
   * shows as "null"), and the author's role comes from `getRole`, whose failed lookup throws before
   * any element exists.
   */
  method CreateCommentDiv(comment: Comment, authorName: Option<string>, backendRole: int -> Option<string>,
                          contentText: string) returns (r: Result<CommentElement, ScriptError>)
    ensures r.Err? <==> ResolveRole(Some(comment.authorId), backendRole).Err?
    ensures r.Ok? ==> fresh(r.value) && r.value.commentId == comment.commentId && r.value.handlers == map[]
    ensures r.Ok? ==>
      var role := ResolveRole(Some(comment.authorId), backendRole).value;
      r.value.parts == [CreationDate(comment.creationDate), AuthorName(" - " + NameText(authorName)),
                        RoleTag(" (" + role + "): ", GetRoleColor(role)), Content(comment.content), Editor]
    ensures r.Ok? ==> r.value.State() == EditState("false", true, false, false, "Bearbeiten", false, "")
    ensures r.Ok? ==> r.value.contentText == contentText
  {
    var role := ResolveRole(Some(comment.authorId), backendRole);
    if role.Err? {
      return Err(role.error);
    }
    var element := new CommentElement(comment, NameText(authorName), role.value, contentText);
    r := Ok(element);
  }

  /** How a template string shows `getUsername`'s answer: the name, or "null". */
  function NameText(name: Option<string>): string
  {
    if name.Some? then name.value else "null"
  }
}
