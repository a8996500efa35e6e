/**
 * Capability gating of the client (frontend/src/utilities/roleUtilities.js): the role to permission
 * table, the role colours, the guest shortcut of `getRole`, and the rules that choose which user- and
 * content-management buttons a viewer is offered.
 */
module Roles {
  import opened Util

  /** The five roles the permission table knows. */
  datatype Role = Admin | Moderator | User | Guest | Banned

  function RoleName(r: Role): string
  {
    match r
    case Admin => "admin"
    case Moderator => "moderator"
    case User => "user"
    case Guest => "guest"
    case Banned => "banned"
  }

  function ParseRole(s: string): (r: Option<Role>)
    ensures r.Some? ==> RoleName(r.value) == s
    ensures r.None? <==> forall role: Role :: RoleName(role) != s
  {
    if s == "admin" then Some(Admin)
    else if s == "moderator" then Some(Moderator)
    else if s == "user" then Some(User)
    else if s == "guest" then Some(Guest)
    else if s == "banned" then Some(Banned)
    else None
  }

  /** The eight flags every entry of the table defines. */
  datatype Permissions = Permissions(
    canBanUser: bool,
    canPromoteToMod: bool,
    canPromoteToAdmin: bool,
    canDemoteMod: bool,
    canDemoteAdmin: bool,
    canCreateContent: bool,
    canEditContent: bool,
    canDeleteContent: bool)

  /** The `roles` object: the entry of each role. */
  function RolePermissions(r: Role): (p: Permissions)
  {
    match r
    case Admin => Permissions(true, true, true, true, false, true, false, true)
    case Moderator => Permissions(true, false, false, false, false, true, false, true)
    case User => Permissions(false, false, false, false, false, true, false, false)
    case Guest => Permissions(false, false, false, false, false, false, false, false)
    case Banned => Permissions(false, false, false, false, false, false, false, false)
  }

  /**
   * The property names every object literal inherits from `Object.prototype`. `roles[name]` is then a
   * function or the prototype itself, defined but without any of the eight flags.
   */
  const InheritedNames: set<string> := {
    "constructor", "__proto__", "toString", "toLocaleString", "valueOf", "hasOwnProperty", "isPrototypeOf",
    "propertyIsEnumerable", "__defineGetter__", "__defineSetter__", "__lookupGetter__", "__lookupSetter__"}

  /** An entry whose flags all read as undefined, which every test treats as false. */
  const NoPermissions: Permissions := Permissions(false, false, false, false, false, false, false, false)

  /**
   * `roles[role]` for a role string: the role's entry for one of the five roles, a flagless object
   * for an inherited name, and undefined (None) for anything else.
   */
  function LookupRole(role: string): (p: Option<Permissions>)
    ensures p.Some? <==> ParseRole(role).Some? || role in InheritedNames
    ensures ParseRole(role).Some? ==> p == Some(RolePermissions(ParseRole(role).value))
    ensures role in InheritedNames ==> p == Some(NoPermissions)
  {
    if role in InheritedNames then Some(NoPermissions)
    else match ParseRole(role)
    case None => None
    case Some(r) => Some(RolePermissions(r))
  }

  /** `roles[s]` is defined for exactly the five role names and the inherited names. */
  lemma RolesTableTotal(s: string)
    ensures LookupRole(s).Some? <==> s in {"admin", "moderator", "user", "guest", "banned"} || s in InheritedNames
  {
  }

  /** The `colors` object; roles without an entry have no colour. */
  const Colors: map<string, string> := map["admin" := "red", "moderator" := "green", "user" := "blue"]

  /** No role may demote an admin, and no role may edit content it did not write. */
  lemma NoRoleDemotesAdminOrEditsContent(role: string)
    requires LookupRole(role).Some?
    ensures !LookupRole(role).value.canDemoteAdmin && !LookupRole(role).value.canEditContent
  {
  }

  /** Only an admin holds the promote-to-admin permission; only admins and moderators may ban or delete. */
  lemma PrivilegedPermissions(r: Role)
    ensures RolePermissions(r).canPromoteToAdmin <==> r == Admin
    ensures RolePermissions(r).canBanUser <==> r == Admin || r == Moderator
    ensures RolePermissions(r).canDeleteContent <==> r == Admin || r == Moderator
    ensures RolePermissions(r).canCreateContent <==> r != Guest && r != Banned
  {
  }

  /** `getRoleColor`: the colour of a role string, None where `colors[role]` is undefined. */
  function GetRoleColor(role: string): (c: Option<string>)
    ensures c.Some? <==> role in {"admin", "moderator", "user"}
    ensures c.Some? ==> c.value == (if role == "admin" then "red" else if role == "moderator" then "green" else "blue")
  {
    if role in Colors then Some(Colors[role]) else None
  }

  /** A JavaScript id that is null, undefined or 0, all of which `!user_id` treats as absent. */
  predicate Falsy(id: Option<int>) { id.None? || id.value == 0 }

  /** What `getRole` does: answer "guest" at once, or ask the backend about one user. */
  datatype RoleLookup = Known(role: string) | Fetch(userId: int)

  function GetRole(userId: Option<int>): (r: RoleLookup)
    ensures r.Known? <==> Falsy(userId)
    ensures r.Known? ==> r.role == "guest"
    ensures r.Fetch? ==> userId == Some(r.userId) && r.userId != 0
  {
    if Falsy(userId) then Known("guest") else Fetch(userId.value)
  }

  /**
   * The role `getRole` resolves to. `backendRole(id)` is the role in the backend's answer about user
   * `id`, None when the answer holds no `user` object (a refused or failed request): reading
   * `data["user"]["role"]` then throws.
   */
  function ResolveRole(userId: Option<int>, backendRole: int -> Option<string>): (r: Result<string, ScriptError>)
    ensures Falsy(userId) ==> r == Ok("guest")
    ensures !Falsy(userId) ==> (r.Ok? <==> backendRole(userId.value).Some?)
    ensures !Falsy(userId) && r.Ok? ==> r.value == backendRole(userId.value).value
    ensures r.Err? ==> r.error == NoUserInAnswer(userId.value)
  {
    match GetRole(userId)
    case Known(role) => Ok(role)
    case Fetch(id) =>
      match backendRole(id)
      case None => Err(NoUserInAnswer(id))
      case Some(role) => Ok(role)
  }

  /** The viewer's role, then the author's, as the scripts await them: the first failure is what throws. */
  function ResolveRoles(viewerId: Option<int>, authorId: Option<int>, backendRole: int -> Option<string>)
    : (r: Result<(string, string), ScriptError>)
    ensures r.Ok? <==> ResolveRole(viewerId, backendRole).Ok? && ResolveRole(authorId, backendRole).Ok?
    ensures r.Ok? ==> r.value == (ResolveRole(viewerId, backendRole).value, ResolveRole(authorId, backendRole).value)
    ensures ResolveRole(viewerId, backendRole).Err? ==> r == Err(ResolveRole(viewerId, backendRole).error)
    ensures ResolveRole(viewerId, backendRole).Ok? && ResolveRole(authorId, backendRole).Err?
            ==> r == Err(ResolveRole(authorId, backendRole).error)
  {
    match ResolveRole(viewerId, backendRole)
    case Err(e) => Err(e)
    case Ok(viewer) =>
      match ResolveRole(authorId, backendRole)
      case Err(e) => Err(e)
      case Ok(author) => Ok((viewer, author))
  }

  /** The buttons the two button groups can hold. */
  datatype Action = Ban | PromoteToMod | PromoteToAdmin | DemoteMod | DemoteAdmin | EditContent | SubmitEditContent | DeleteContent

  /** Position of each button in the order the script appends them. */
  function Rank(a: Action): nat
  {
    match a
    case Ban => 0
    case PromoteToMod => 1
    case PromoteToAdmin => 2
    case DemoteMod => 3
    case DemoteAdmin => 4
    case EditContent => 5
    case SubmitEditContent => 6
    case DeleteContent => 7
  }

  function Label(a: Action): string
  {
    match a
    case Ban => "Nutzer sperren"
    case PromoteToMod => "zu Moderator machen"
    case PromoteToAdmin => "zu Admin machen"
    case DemoteMod => "zu Nutzer herabstufen"
    case DemoteAdmin => "zu Moderator herabstufen"
    case EditContent => "Bearbeiten"
    case SubmitEditContent => "Speichern"
    case DeleteContent => "Löschen"
  }

  /** A button as created: its action, its caption, and whether it is displayed (submit starts hidden). */
  datatype Control = Control(action: Action, caption: string, shown: bool)

  function NewControl(a: Action): (c: Control)
    ensures c.action == a && c.caption == Label(a) && (c.shown <==> a != SubmitEditContent)
  {
    Control(a, Label(a), a != SubmitEditContent)
  }

  /**
   * The returned div: whether the "..." toggle was attached, whether the actions div is displayed
   * (it starts hidden), and the buttons inside the actions div in order.
   */
  datatype ButtonGroup = ButtonGroup(toggleAttached: bool, actionsShown: bool, actions: seq<Control>)

  /**
   * The TypeErrors the scripts throw: a flag read from an undefined `roles[managerRole]`, or the
   * `user` object read from a backend answer that holds none.
   */
  datatype ScriptError = UndefinedPermissions(role: string) | NoUserInAnswer(userId: int)

  function Actions(cs: seq<Control>): set<Action>
  {
    set c | c in cs :: c.action
  }

  predicate InRankOrder(cs: seq<Control>)
  {
    forall i, j :: 0 <= i < j < |cs| ==> Rank(cs[i].action) < Rank(cs[j].action)
  }

  predicate WellFormed(g: ButtonGroup)
  {
    && InRankOrder(g.actions)
    && AllNew(g.actions)
    && (g.toggleAttached <==> |g.actions| > 0)
    && !g.actionsShown
  }

  /** The user-management decisions of `getUserManagementButtons`, evaluated as JavaScript would. */
  function UserActions(managerRole: string, authorRole: string): (r: Result<set<Action>, ScriptError>)
    ensures r.Err? <==> LookupRole(managerRole).None?
    ensures r.Ok? ==> r.value <= {Ban, PromoteToMod, PromoteToAdmin, DemoteMod, DemoteAdmin}
  {
    match LookupRole(managerRole)
    case None => Err(UndefinedPermissions(managerRole))
    case Some(p) =>
      Ok(Opt(p.canBanUser && authorRole == "user", Ban)
        + Opt(p.canPromoteToMod && authorRole == "user", PromoteToMod)
        + Opt(p.canPromoteToAdmin && (authorRole == "user" || authorRole == "moderator"), PromoteToAdmin)
        + Opt(p.canDemoteMod && authorRole == "moderator", DemoteMod)
        + Opt(p.canDemoteAdmin && authorRole == "admin", DemoteAdmin))
  }

  /**
   * The content-management decisions of `getContentManagementButtons`. Both conditions test `isAuthor`
   * first, so an author gets the buttons without the table being read; only then does an unknown role throw.
   */
  function ContentActions(managerRole: string, authorRole: string, isAuthor: bool): (r: Result<set<Action>, ScriptError>)
    ensures r.Err? <==> !isAuthor && LookupRole(managerRole).None?
    ensures r.Ok? ==> r.value <= {EditContent, SubmitEditContent, DeleteContent}
  {
    if isAuthor then Ok({EditContent, SubmitEditContent, DeleteContent})
    else match LookupRole(managerRole)
    case None => Err(UndefinedPermissions(managerRole))
    case Some(p) =>
      Ok(Opt(p.canEditContent, EditContent) + Opt(p.canEditContent, SubmitEditContent)
        + (if p.canDeleteContent && (managerRole == "admin" || (authorRole != "admin" && authorRole != "mod")) then {DeleteContent} else {}))
  }

  /** A demote-admin button is never offered, whoever manages whom. */
  lemma DemoteAdminNeverOffered(managerRole: string, authorRole: string)
    requires UserActions(managerRole, authorRole).Ok?
    ensures DemoteAdmin !in UserActions(managerRole, authorRole).value
  {
    if LookupRole(managerRole).Some? {
      NoRoleDemotesAdminOrEditsContent(managerRole);
    }
  }

  /** Ban and promote-to-moderator are offered only about a target whose role is exactly "user". */
  lemma BanAndPromoteOnlyForUsers(managerRole: string, authorRole: string)
    requires UserActions(managerRole, authorRole).Ok?
    ensures Ban in UserActions(managerRole, authorRole).value ==> authorRole == "user"
    ensures PromoteToMod in UserActions(managerRole, authorRole).value ==> authorRole == "user"
    ensures PromoteToAdmin in UserActions(managerRole, authorRole).value
      <==> managerRole == "admin" && (authorRole == "user" || authorRole == "moderator")
  {
  }

  /** Edit (with its hidden submit button) is offered exactly to the author. */
  lemma EditOfferedIffAuthor(managerRole: string, authorRole: string, isAuthor: bool)
    requires ContentActions(managerRole, authorRole, isAuthor).Ok?
    ensures EditContent in ContentActions(managerRole, authorRole, isAuthor).value <==> isAuthor
    ensures SubmitEditContent in ContentActions(managerRole, authorRole, isAuthor).value <==> isAuthor
  {
    if LookupRole(managerRole).Some? {
      NoRoleDemotesAdminOrEditsContent(managerRole);
    }
  }

  /**
   * Delete is offered to the author, and otherwise only to admins, and to moderators when the
   * author's role string is neither "admin" nor the literal "mod".
   */
  lemma DeleteRule(manager: Role, authorRole: string, isAuthor: bool)
    ensures ContentActions(RoleName(manager), authorRole, isAuthor).Ok?
    ensures DeleteContent in ContentActions(RoleName(manager), authorRole, isAuthor).value
      <==> isAuthor || manager == Admin || (manager == Moderator && authorRole != "admin" && authorRole != "mod")
  {
  }

  /**
   * Because the script compares with "mod", a moderator who is not the author is offered delete,
   * and nothing else, on the content of every author role except "admin" and the literal "mod";
   * in particular on another moderator's content.
   */
  lemma ModeratorContentUnprotected(authorRole: string)
    ensures ContentActions("moderator", authorRole, false)
      == if authorRole == "admin" || authorRole == "mod" then Ok({}) else Ok({DeleteContent})
    ensures ContentActions("moderator", "moderator", false) == Ok({DeleteContent})
  {
    assert ParseRole("moderator") == Some(Moderator);
    assert LookupRole("moderator") == Some(RolePermissions(Moderator));
    assert "moderator" != "admin" && "moderator" != "mod";
    assert Opt(false, EditContent) + Opt(false, SubmitEditContent) + {DeleteContent} == {DeleteContent};
  }

  /** An inherited name holds no flag: both groups come out empty instead of throwing. */
  lemma InheritedNameOffersNothing(name: string, authorRole: string)
    requires name in InheritedNames
    ensures UserActions(name, authorRole) == Ok({})
    ensures ContentActions(name, authorRole, false) == Ok({})
  {
    assert LookupRole(name) == Some(NoPermissions);
  }

  /** Toggling the "..." button shows or hides the actions; twice restores the group. */
  function ClickToggle(g: ButtonGroup): (g': ButtonGroup)
    ensures g'.actionsShown == !g.actionsShown
    ensures g'.actions == g.actions && g'.toggleAttached == g.toggleAttached
  {
    g.(actionsShown := !g.actionsShown)
  }

  /** The singleton of `a` when `cond` holds, else empty. */
  function Opt(cond: bool, a: Action): set<Action>
  {
    if cond then {a} else {}
  }

  /** Every button of `cs` ranks below `n`. */
  predicate RanksBelow(cs: seq<Control>, n: nat)
  {
    forall c :: c in cs ==> Rank(c.action) < n
  }

  /** Every button of `cs` is as `NewControl` creates it. */
  predicate AllNew(cs: seq<Control>)
  {
    forall c :: c in cs ==> c == NewControl(c.action)
  }

  /** The buttons so far, with the button for `a` appended when its condition holds. */
  method AppendIf(cs: seq<Control>, cond: bool, a: Action) returns (r: seq<Control>)
    requires RanksBelow(cs, Rank(a))
    ensures Actions(r) == Actions(cs) + Opt(cond, a)
    ensures InRankOrder(cs) ==> InRankOrder(r)
    ensures AllNew(cs) ==> AllNew(r)
    ensures RanksBelow(r, Rank(a) + 1)
    ensures |r| == |cs| + (if cond then 1 else 0)
  {
    r := if cond then cs + [NewControl(a)] else cs;
  }

  method GetUserManagementButtons(managerRole: string, authorRole: string) returns (r: Result<ButtonGroup, ScriptError>)
    ensures r.Err? <==> UserActions(managerRole, authorRole).Err?
    ensures r.Ok? ==> WellFormed(r.value) && Actions(r.value.actions) == UserActions(managerRole, authorRole).value
  {
    var lookup := LookupRole(managerRole);
    if lookup.None? {
      return Err(UndefinedPermissions(managerRole));
    }
    var rolePermissions := lookup.value;
    var ban := rolePermissions.canBanUser && authorRole == "user";
    var promoteToMod := rolePermissions.canPromoteToMod && authorRole == "user";
    var promoteToAdmin := rolePermissions.canPromoteToAdmin && (authorRole == "user" || authorRole == "moderator");
    var demoteMod := rolePermissions.canDemoteMod && authorRole == "moderator";
    var demoteAdmin := rolePermissions.canDemoteAdmin && authorRole == "admin";
    assert UserActions(managerRole, authorRole).value
      == Opt(ban, Ban) + Opt(promoteToMod, PromoteToMod) + Opt(promoteToAdmin, PromoteToAdmin)
         + Opt(demoteMod, DemoteMod) + Opt(demoteAdmin, DemoteAdmin);
    var group := UserButtons(ban, promoteToMod, promoteToAdmin, demoteMod, demoteAdmin);
    r := Ok(group);
  }

  /** The user-management div once the five decisions are taken: the chosen buttons, appended in order. */
  method UserButtons(ban: bool, promoteToMod: bool, promoteToAdmin: bool, demoteMod: bool, demoteAdmin: bool)
    returns (g: ButtonGroup)
    ensures WellFormed(g)
    ensures Actions(g.actions) == Opt(ban, Ban) + Opt(promoteToMod, PromoteToMod) + Opt(promoteToAdmin, PromoteToAdmin)
                                  + Opt(demoteMod, DemoteMod) + Opt(demoteAdmin, DemoteAdmin)
  {
    var actions: seq<Control> := [];
    assert Actions(actions) == {} && AllNew(actions) && InRankOrder(actions) && RanksBelow(actions, 0);
    actions := AppendIf(actions, ban, Ban);
    actions := AppendIf(actions, promoteToMod, PromoteToMod);
    actions := AppendIf(actions, promoteToAdmin, PromoteToAdmin);
    actions := AppendIf(actions, demoteMod, DemoteMod);
    actions := AppendIf(actions, demoteAdmin, DemoteAdmin);
    assert Actions(actions) == {} + Opt(ban, Ban) + Opt(promoteToMod, PromoteToMod) + Opt(promoteToAdmin, PromoteToAdmin)
         + Opt(demoteMod, DemoteMod) + Opt(demoteAdmin, DemoteAdmin);
    g := ButtonGroup(|actions| > 0, false, actions);
  }

  method GetContentManagementButtons(managerRole: string, authorRole: string, isAuthor: bool)
    returns (r: Result<ButtonGroup, ScriptError>)
    ensures r.Err? <==> ContentActions(managerRole, authorRole, isAuthor).Err?
    ensures r.Ok? ==> WellFormed(r.value) && Actions(r.value.actions) == ContentActions(managerRole, authorRole, isAuthor).value
  {
    var lookup := LookupRole(managerRole);
    if !isAuthor && lookup.None? {
      return Err(UndefinedPermissions(managerRole));
    }
    var edit := isAuthor || lookup.value.canEditContent;
    var delete := isAuthor || (lookup.value.canDeleteContent
                               && (managerRole == "admin" || (authorRole != "admin" && authorRole != "mod")));
    assert ContentActions(managerRole, authorRole, isAuthor).value
      == Opt(edit, EditContent) + Opt(edit, SubmitEditContent) + Opt(delete, DeleteContent);
    var actions: seq<Control> := [];
    assert Actions(actions) == {};
    actions := AppendIf(actions, edit, EditContent);
    actions := AppendIf(actions, edit, SubmitEditContent);
    actions := AppendIf(actions, delete, DeleteContent);
    r := Ok(ButtonGroup(|actions| > 0, false, actions));
  }
}
