/**
 * The post page (frontend/src/scripts/post.js): reading the post id from the URL, which controls
 * the page shows for the current user, the edit toggle, the vote display and the tag list. Server
 * answers and the roles the backend reports are inputs.
 */
module PostPage {
  import opened Util
  import opened Models
  import opened Tables
  import opened Roles
  import opened JsText

  // ---------------------------------------------------------------- the id in the URL

  /** The longest run of digits that starts the text. */
  function DigitRun(s: string): (r: string)
    ensures r <= s && AllDigits(r)
    ensures |r| < |s| ==> !IsDigit(s[|r|])
  {
    if s != [] && IsDigit(s[0]) then [s[0]] + DigitRun(s[1..]) else []
  }

  /**
   * `parseInt(s, 10)`: leading white space, an optional sign, then the leading digits; None stands for
   * NaN. The value is the exact integer; JavaScript rounds it to a double, which is exact only up to
   * `MaxSafeInteger`.
   */
  function ParseInt(s: string): (r: Option<int>)
    ensures TrimStart(s) == [] ==> r.None?
    ensures r.Some? && r.value < 0 ==> TrimStart(s)[0] == '-'
  {
    var t := TrimStart(s);
    if t == [] then None
    else
      var negative := t[0] == '-';
      var u := if t[0] == '-' || t[0] == '+' then t[1..] else t;
      var d := DigitRun(u);
      if d == [] then None
      else
        var value: int := DigitsValue(d);
        Some(if negative then -value else value)
  }

  /** `getPostIdFromUrl`, given the `id` parameter of the URL: null for a missing or empty one and for NaN. */
  function PostIdFromUrl(idParam: Option<string>): (r: Option<int>)
    ensures idParam.None? || idParam.value == "" ==> r.None?
  {
    if idParam.None? || idParam.value == "" then None else ParseInt(idParam.value)
  }

  /** A run of digits followed by anything that is not a digit reads as the value of the digits. */
  lemma {:induction false} DigitRunOfDigits(digits: string, rest: string)
    requires AllDigits(digits)
    requires rest == [] || !IsDigit(rest[0])
    ensures DigitRun(digits + rest) == digits
  {
    if digits != [] {
      assert (digits + rest)[1..] == digits[1..] + rest;
      DigitRunOfDigits(digits[1..], rest);
    }
  }

  /** `Number.MAX_SAFE_INTEGER`, 2^53 - 1: every integer up to it is a double, and `parseInt` reads it exactly. */
  const MaxSafeInteger: int := 0x1F_FFFF_FFFF_FFFF

  /** The links of the post list carry the id in decimal, and the page reads back the same id. */
  lemma PostIdOfLink(postId: nat)
    requires postId <= MaxSafeInteger
    ensures PostIdFromUrl(Some(NatToString(postId))) == Some(postId)
  {
    var s := NatToString(postId);
    DigitRunOfDigits(s, []);
    assert s + [] == s;
    DigitsValueOfNatToString(postId);
  }

  /** Digits followed by other characters read as the digits alone, as `parseInt` stops at the first non-digit. */
  lemma ParseIntPrefix(digits: string, rest: string)
    requires digits != [] && AllDigits(digits)
    requires rest == [] || !IsDigit(rest[0])
    requires DigitsValue(digits) <= MaxSafeInteger
    ensures PostIdFromUrl(Some(digits + rest)) == Some(DigitsValue(digits))
  {
    var s := digits + rest;
    assert s[0] == digits[0];
    assert !IsJsSpace(s[0]) && s[0] != '-' && s[0] != '+';
    assert TrimStart(s) == s;
    DigitRunOfDigits(digits, rest);
    assert DigitRun(s) == digits;
  }

  /** A parameter that starts with neither white space, a sign nor a digit is NaN, and the page has no post id. */
  lemma NoLeadingDigitIsNaN(s: string)
    requires s != [] && !IsJsSpace(s[0]) && !IsDigit(s[0]) && s[0] != '-' && s[0] != '+'
    ensures PostIdFromUrl(Some(s)).None?
  {
    assert TrimStart(s) == s;
  }

  // ---------------------------------------------------------------- vote display

  /** The vote count shown for the backend's total: `|| 0` turns the SQL NULL of a post without votes into 0. */
  function ShownCount(total: Option<int>): int
  {
    if total.None? then 0 else total.value
  }

  /** A post without vote rows totals 0. */
  lemma {:induction false} TotalWithoutRows(votes: seq<Vote>, postId: int)
    requires forall v :: v in votes ==> v.postId != postId
    ensures VoteTotal(votes, postId) == 0
  {
    if votes != [] {
      TotalWithoutRows(votes[1..], postId);
    }
  }

  /** The count the page shows is the sum of the post's votes, 0 when there are none. */
  lemma ShownCountIsTotal(votes: seq<Vote>, postId: int)
    ensures ShownCount(VotesOfPost(votes, postId)) == VoteTotal(votes, postId)
  {
    if VotesOfPost(votes, postId).None? {
      TotalWithoutRows(votes, postId);
    }
  }

  // ---------------------------------------------------------------- the edit toggle

  /** What the edit toggle controls: the flag, content, editor, its HTML, the button caption and the submit button. */
  datatype EditView = EditView(visible: bool, contentShown: bool, editorShown: bool, editorHtml: string,
                               caption: string, submitShown: bool)

  /** The caption of the edit button for a flag value. */
  function EditLabel(visible: bool): string
  {
    if visible then "Zurück" else "Bearbeiten"
  }

  /** The displays agree with the flag: content xor editor, caption and submit button to match. */
  predicate Coherent(v: EditView)
  {
    v.contentShown == !v.visible && v.editorShown == v.visible && v.submitShown == v.visible && v.caption == EditLabel(v.visible)
  }

  /** `toggleEditPost` on the view, for a post whose stored content is `original`. */
  function ToggleEditView(v: EditView, original: string): (w: EditView)
    ensures w.visible == !v.visible
    ensures Coherent(w)
    ensures w.editorHtml == original
  {
    var visible := !v.visible;
    EditView(visible, !visible, visible, original, EditLabel(visible), visible)
  }

  /** Two toggles restore a coherent view whose editor held the original: a cancelled draft is gone. */
  lemma ToggleTwiceRestores(v: EditView, original: string, draft: string)
    requires Coherent(v) && v.editorHtml == original
    ensures ToggleEditView(ToggleEditView(v.(editorHtml := draft), original), original) == v
  {
  }

  /** The page state the post script changes. */
  class PostView {
    var commentFormShown: bool
    var voteButtonsShown: bool
    /** The edit editor exists (it is created for the author only). */
    var editorCreated: bool
    /** The content-management group placed in its container. */
    var managementButtons: Option<ButtonGroup>
    var editPostVisible: bool
    var contentShown: bool
    var editorShown: bool
    var editorHtml: string
    var editLabel: string
    var submitShown: bool
    var voteCount: int
    var upvoteHighlighted: bool
    var downvoteHighlighted: bool
    var tagsShown: bool
    var tagElements: seq<string>

    /** The page as loaded: nothing user-specific shown, not editing, no tags rendered yet. */
    constructor ()
      ensures !commentFormShown && !voteButtonsShown && !editorCreated && managementButtons.None?
      ensures View() == EditView(false, true, false, "", "Bearbeiten", false) && Coherent(View())
      ensures voteCount == 0 && !upvoteHighlighted && !downvoteHighlighted && tagsShown && tagElements == []
    {
      commentFormShown, voteButtonsShown, editorCreated := false, false, false;
      managementButtons := None;
      editPostVisible, contentShown, editorShown, editorHtml := false, true, false, "";
      editLabel, submitShown := "Bearbeiten", false;
      voteCount, upvoteHighlighted, downvoteHighlighted := 0, false, false;
      tagsShown, tagElements := true, [];
    }

    function View(): EditView
      reads this
    {
      EditView(editPostVisible, contentShown, editorShown, editorHtml, editLabel, submitShown)
    }

    /**
     * `configureUIElements`: the comment form and the vote buttons for a logged-in user, the edit
     * editor for the author, then the content-management buttons for the two roles `getRole`
     * resolves (`backendRole` is the role in the backend's answer about a user id, None when the
     * answer holds no user). A failed role lookup, or an unknown viewer role in the button script,
     * throws after the other controls were set, and no buttons are placed.
     */
    method ConfigureUIElements(currentUserId: Option<int>, post: Post, backendRole: int -> Option<string>)
      returns (r: Result<(), ScriptError>)
      modifies this`commentFormShown, this`voteButtonsShown, this`editorCreated, this`managementButtons
      ensures commentFormShown == (old(commentFormShown) || !Falsy(currentUserId))
      ensures voteButtonsShown == !Falsy(currentUserId)
      ensures editorCreated == (old(editorCreated) || currentUserId == Some(post.authorId))
      ensures var roles := ResolveRoles(currentUserId, Some(post.authorId), backendRole);
        r.Err? <==> roles.Err? || ContentActions(roles.value.0, roles.value.1, currentUserId == Some(post.authorId)).Err?
      ensures r.Err? ==> managementButtons == old(managementButtons)
      ensures r.Ok? ==> managementButtons.Some? && WellFormed(managementButtons.value)
      ensures var roles := ResolveRoles(currentUserId, Some(post.authorId), backendRole);
        r.Ok? ==> roles.Ok? && Actions(managementButtons.value.actions)
                               == ContentActions(roles.value.0, roles.value.1, currentUserId == Some(post.authorId)).value
      ensures r.Ok? ==> (EditContent in Actions(managementButtons.value.actions) <==> currentUserId == Some(post.authorId))
    {
      if !Falsy(currentUserId) {
        commentFormShown := true;
      }
      var isAuthor := currentUserId == Some(post.authorId);
      if isAuthor {
        editorCreated := true;
      }
      voteButtonsShown := !Falsy(currentUserId);
      var currentRole := ResolveRole(currentUserId, backendRole);
      if currentRole.Err? {
        return Err(currentRole.error);
      }
      var authorRole := ResolveRole(Some(post.authorId), backendRole);
      if authorRole.Err? {
        return Err(authorRole.error);
      }
      var group := GetContentManagementButtons(currentRole.value, authorRole.value, isAuthor);
      if group.Err? {
        return Err(group.error);
      }
      EditOfferedIffAuthor(currentRole.value, authorRole.value, isAuthor);
      managementButtons := Some(group.value);
      r := Ok(());
    }

    /**
     * A click on the edit button, present only when the management group holds it: `toggleEditPost`
     * flips the flag, swaps content and editor, resets the editor to the stored content and sets
     * the caption and the submit button to match.
     */
    method ClickEdit(post: Post)
      modifies this`editPostVisible, this`contentShown, this`editorShown, this`editorHtml, this`editLabel, this`submitShown
      ensures managementButtons.None? || EditContent !in Actions(managementButtons.value.actions) ==> View() == old(View())
      ensures managementButtons.Some? && EditContent in Actions(managementButtons.value.actions) ==>
        View() == ToggleEditView(old(View()), post.content)
    {
      if managementButtons.None? || EditContent !in Actions(managementButtons.value.actions) {
        return;
      }
      editPostVisible := !editPostVisible;
      contentShown := !editPostVisible;
      editorShown := editPostVisible;
      editorHtml := post.content;
      editLabel := EditLabel(editPostVisible);
      submitShown := editPostVisible;
    }

    /**
     * `displayVotes`: the backend's total (None for SQL NULL) shown with `|| 0`; for a logged-in
     * user, the button matching their own vote is highlighted. Highlights are never removed here.
     */
    method DisplayVotes(total: Option<int>, currentUserId: Option<int>, ownVote: int)
      modifies this`voteCount, this`upvoteHighlighted, this`downvoteHighlighted
      ensures voteCount == ShownCount(total)
      ensures upvoteHighlighted == (old(upvoteHighlighted) || (!Falsy(currentUserId) && ownVote == 1))
      ensures downvoteHighlighted == (old(downvoteHighlighted) || (!Falsy(currentUserId) && ownVote == -1))
    {
      voteCount := if total.None? || total.value == 0 then 0 else total.value;
      if !Falsy(currentUserId) {
        var vote := ownVote;
        if vote != 0 {
          if vote == 1 {
            upvoteHighlighted := true;
          } else if vote == -1 {
            downvoteHighlighted := true;
          }
        }
      }
    }

    /** `displayTags`: an empty list hides the tag area; otherwise one element per tag, in order. */
    method DisplayTags(tags: seq<string>)
      modifies this`tagsShown, this`tagElements
      ensures tags == [] ==> !tagsShown && tagElements == old(tagElements)
      ensures tags != [] ==> tagsShown == old(tagsShown) && tagElements == old(tagElements) + tags
    {
      if |tags| == 0 {
        tagsShown := false;
        return;
      }
      var i := 0;
      while i < |tags|
        invariant 0 <= i <= |tags|
        invariant tagElements == old(tagElements) + tags[..i]
        invariant tagsShown == old(tagsShown)
      {
        tagElements := tagElements + [tags[i]];
        assert tags[..i + 1] == tags[..i] + [tags[i]];
        i := i + 1;
      }
      assert tags[..i] == tags;
    }
  }
}
