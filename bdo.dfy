/**
 * The business data objects of the `bdo` package and their `validate(List<String>)` methods.
 * Every `validate` appends its messages to the caller's list in place, or to a fresh list when
 * given null, and returns that list. Each class pairs its method with a function `Errors()` that
 * states the messages the call appends.
 */
module Bdo {
  import opened Wrappers
  import opened Utilities

  /** The `List<String>` a `validate` call appends to. */
  class ErrorList {
    var items: seq<string>

    constructor ()
      ensures items == []
    {
      items := [];
    }

    method Add(message: string)
      modifies this
      ensures items == old(items) + [message]
    {
      items := items + [message];
    }
  }

  // ---------------------------------------------------------------------------------------------

  class Project {
    var id: Option<int>
    var name: Option<string>
    var identifier: Option<string>
    var description: Option<string>
    var homePage: Option<string>

    static const ID_NULL := "Project Id is null"
    static const NAME_NULL := "Project Name is null."
    static const IDENTIFIER_NULL := "Project Identifier is null or empty string."

    constructor ()
      ensures id.None? && name.None? && identifier.None? && description.None? && homePage.None?
    {
      id, name, identifier, description, homePage := None, None, None, None, None;
    }

    /** The messages `validate` appends, in the order id, name, identifier. */
    function Errors(): seq<string>
      reads this
    {
      (if id.None? then [ID_NULL] else [])
      + (if !IsQualifiedString(name) then [NAME_NULL] else [])
      + (if !IsQualifiedString(identifier) then [IDENTIFIER_NULL] else [])
    }

    method Validate(errors: ErrorList?) returns (r: ErrorList)
      modifies errors
      ensures errors != null ==> r == errors
      ensures errors == null ==> fresh(r)
      ensures r.items == (if errors == null then [] else old(errors.items)) + Errors()
    {
      if errors == null {
        r := new ErrorList();
      } else {
        r := errors;
      }
      if id.None? {
        r.Add(ID_NULL);
      }
      if !IsQualifiedString(name) {
        r.Add(NAME_NULL);
      }
      if !IsQualifiedString(identifier) {
        r.Add(IDENTIFIER_NULL);
      }
    }
  }

  /** Each project message is reported exactly when its check fails, and nothing else is. */
  lemma ProjectErrorsMeaning(p: Project)
    ensures Project.ID_NULL in p.Errors() <==> p.id.None?
    ensures Project.NAME_NULL in p.Errors() <==> !IsQualifiedString(p.name)
    ensures Project.IDENTIFIER_NULL in p.Errors() <==> !IsQualifiedString(p.identifier)
    ensures p.Errors() == [] <==> p.id.Some? && IsQualifiedString(p.name) && IsQualifiedString(p.identifier)
    ensures |p.Errors()| <= 3
  {
  }

  /** The description and home page play no part in a project's validation. */
  lemma ProjectErrorsIgnoreDescription(p: Project, q: Project)
    requires p.id == q.id && p.name == q.name && p.identifier == q.identifier
    ensures p.Errors() == q.Errors()
  {
  }

  // ---------------------------------------------------------------------------------------------

  class User {
    var id: Option<int>
    var name: Option<string>
    var login: Option<string>
    var password: Option<string>
    var firstName: Option<string>
    var lastName: Option<string>
    var email: Option<string>

    static const ID_NULL := "User's Id is null"
    static const FIRST_NAME_UNSET := "First name is not set"
    static const LAST_NAME_UNSET := "Last name is not set"
    static const EMAIL_UNSET := "Email is not set"

    constructor ()
      ensures id.None? && name.None? && login.None? && password.None?
      ensures firstName.None? && lastName.None? && email.None?
    {
      id, name, login, password := None, None, None, None;
      firstName, lastName, email := None, None, None;
    }

    constructor WithId(id: Option<int>)
      ensures this.id == id && name.None? && login.None? && password.None?
      ensures firstName.None? && lastName.None? && email.None?
    {
      this.id := id;
      name, login, password := None, None, None;
      firstName, lastName, email := None, None, None;
    }

    /** `getFullName`: first and last name when the first name is qualified (the last name is
        rendered even when it is null), the plain name otherwise. */
    function FullName(): (r: Option<string>)
      reads this
    {
      if IsQualifiedString(firstName) then Some(firstName.value + " " + JavaLang.StringText(lastName))
      else name
    }

    /** The messages `validate` appends, in the order id, first name, last name, email; the
        name, login and password are not checked, and the email format is not checked. */
    function Errors(): seq<string>
      reads this
    {
      (if id.None? then [ID_NULL] else [])
      + (if !IsQualifiedString(firstName) then [FIRST_NAME_UNSET] else [])
      + (if !IsQualifiedString(lastName) then [LAST_NAME_UNSET] else [])
      + (if !IsQualifiedString(email) then [EMAIL_UNSET] else [])
    }

    method Validate(errors: ErrorList?) returns (r: ErrorList)
      modifies errors
      ensures errors != null ==> r == errors
      ensures errors == null ==> fresh(r)
      ensures r.items == (if errors == null then [] else old(errors.items)) + Errors()
    {
      if errors == null {
        r := new ErrorList();
      } else {
        r := errors;
      }
      ghost var start := r.items;
      if id.None? {
        r.Add(ID_NULL);
      }
      ghost var afterId := r.items;
      if !IsQualifiedString(firstName) {
        r.Add(FIRST_NAME_UNSET);
      }
      ghost var afterFirst := r.items;
      if !IsQualifiedString(lastName) {
        r.Add(LAST_NAME_UNSET);
      }
      ghost var afterLast := r.items;
      if !IsQualifiedString(email) {
        r.Add(EMAIL_UNSET);
      }
      assert r.items == start + (afterId[|start|..] + afterFirst[|afterId|..] + afterLast[|afterFirst|..]
                                 + r.items[|afterLast|..]);
    }
  }

  /** A user with a qualified first name is never shown by its user name: two users that differ
      only in `name` have the same full name, and that name is never null. */
  lemma FullNameIgnoresName(u: User, v: User)
    requires IsQualifiedString(u.firstName) && v.firstName == u.firstName && v.lastName == u.lastName
    ensures u.FullName() == v.FullName() && u.FullName().Some?
    ensures u.firstName.value + " " <= u.FullName().value
  {
  }

  /** String concatenation renders an unset last name as `null`. */
  lemma FullNameNullLastName(u: User)
    requires IsQualifiedString(u.firstName) && u.lastName.None?
    ensures u.FullName() == Some(u.firstName.value + " null")
  {
    assert u.FullName() == Some(u.firstName.value + " " + "null");
    JavaLang.AppendAssoc(u.firstName.value, " ", "null");
    assert " " + "null" == " null";
  }

  /** `getFullName` returns null exactly when the first name is not qualified and the user has
      no name; a qualified first name always gives a full name. */
  lemma FullNameNullIff(u: User)
    ensures u.FullName().None? <==> !IsQualifiedString(u.firstName) && u.name.None?
  {
  }

  /** Without a qualified first name the last name plays no part: two users that differ only in
      `lastName` have the same full name. */
  lemma FullNameFallsBack(u: User, v: User)
    requires !IsQualifiedString(u.firstName) && v.firstName == u.firstName && v.name == u.name
    ensures u.FullName() == v.FullName()
  {
  }

  /** Each user message is reported exactly when its check fails; a missing id comes first. */
  lemma UserErrorsMeaning(u: User)
    ensures User.ID_NULL in u.Errors() <==> u.id.None?
    ensures User.FIRST_NAME_UNSET in u.Errors() <==> !IsQualifiedString(u.firstName)
    ensures User.LAST_NAME_UNSET in u.Errors() <==> !IsQualifiedString(u.lastName)
    ensures User.EMAIL_UNSET in u.Errors() <==> !IsQualifiedString(u.email)
    ensures u.Errors() == [] <==> u.id.Some? && IsQualifiedString(u.firstName) && IsQualifiedString(u.lastName)
                                  && IsQualifiedString(u.email)
    ensures u.id.None? ==> u.Errors()[0] == User.ID_NULL
  {
  }

  // ---------------------------------------------------------------------------------------------
  // UserRole and UserGroup share one shape, and one quirk: "Name is not set" is added when the
  // name IS qualified.

  class UserRole {
    var id: Option<int>
    var name: Option<string>

    static const ID_NULL := "Id is null"
    static const NAME_UNSET := "Name is not set"

    constructor ()
      ensures id.None? && name.None?
    {
      id, name := None, None;
    }

    method SetId(id: Option<int>)
      modifies this
      ensures this.id == id && name == old(name)
    {
      this.id := id;
    }

    method SetName(name: Option<string>)
      modifies this
      ensures this.name == name && id == old(id)
    {
      this.name := name;
    }

    /** The messages `validate` appends, id first. */
    function Errors(): seq<string>
      reads this
    {
      (if id.None? then [ID_NULL] else [])
      + (if IsQualifiedString(name) then [NAME_UNSET] else [])
    }

    method Validate(errors: ErrorList?) returns (r: ErrorList)
      modifies errors
      ensures errors != null ==> r == errors
      ensures errors == null ==> fresh(r)
      ensures r.items == (if errors == null then [] else old(errors.items)) + Errors()
    {
      if errors == null {
        r := new ErrorList();
      } else {
        r := errors;
      }
      if id.None? {
        r.Add(ID_NULL);
      }
      if IsQualifiedString(name) {
        r.Add(NAME_UNSET);
      }
    }
  }

  /** `UserGroup` has the same two fields and the same checks as `UserRole`; the two Java classes
      are separate copies, and so are their models. */
  class UserGroup {
    var id: Option<int>
    var name: Option<string>

    static const ID_NULL := "Id is null"
    static const NAME_UNSET := "Name is not set"

    constructor ()
      ensures id.None? && name.None?
    {
      id, name := None, None;
    }

    method SetId(id: Option<int>)
      modifies this
      ensures this.id == id && name == old(name)
    {
      this.id := id;
    }

    method SetName(name: Option<string>)
      modifies this
      ensures this.name == name && id == old(id)
    {
      this.name := name;
    }

    /** The messages `validate` appends, id first. */
    function Errors(): seq<string>
      reads this
    {
      (if id.None? then [ID_NULL] else [])
      + (if IsQualifiedString(name) then [NAME_UNSET] else [])
    }

    method Validate(errors: ErrorList?) returns (r: ErrorList)
      modifies errors
      ensures errors != null ==> r == errors
      ensures errors == null ==> fresh(r)
      ensures r.items == (if errors == null then [] else old(errors.items)) + Errors()
    {
      if errors == null {
        r := new ErrorList();
      } else {
        r := errors;
      }
      if id.None? {
        r.Add(ID_NULL);
      }
      if IsQualifiedString(name) {
        r.Add(NAME_UNSET);
      }
    }
  }

  /** A group reports a missing id, and reports a qualified name: the name check is inverted, as in
      `UserRole`. */
  lemma UserGroupErrorsMeaning(g: UserGroup)
    ensures UserGroup.ID_NULL in g.Errors() <==> g.id.None?
    ensures UserGroup.NAME_UNSET in g.Errors() <==> IsQualifiedString(g.name)
    ensures g.Errors() == [] <==> g.id.Some? && !IsQualifiedString(g.name)
    ensures |g.Errors()| == 2 ==> g.Errors() == [UserGroup.ID_NULL, UserGroup.NAME_UNSET]
  {
  }

  /** As written, a group with an id and a real name fails validation, and one without a name
      passes. */
  lemma UserGroupNameCheckInverted(g: UserGroup)
    requires g.id.Some?
    ensures g.name == Some("developers") ==> g.Errors() == [UserGroup.NAME_UNSET]
    ensures g.name.None? ==> g.Errors() == []
  {
    UserGroupErrorsMeaning(g);
    if g.name == Some("developers") {
      assert "developers"[0] > ' ';
      QualifiedIffVisibleChar("developers");
    }
  }

  // ---------------------------------------------------------------------------------------------

  /** A role reports a missing id, and reports a qualified name: the name check is inverted. */
  lemma UserRoleErrorsMeaning(role: UserRole)
    ensures UserRole.ID_NULL in role.Errors() <==> role.id.None?
    ensures IsQualifiedString(role.name) <==> |role.Errors()| > 0 && role.Errors()[|role.Errors()| - 1] == UserRole.NAME_UNSET
    ensures role.Errors() == [] <==> role.id.Some? && !IsQualifiedString(role.name)
    ensures |role.Errors()| == 2 ==> role.Errors() == [UserRole.ID_NULL, UserRole.NAME_UNSET]
  {
  }

  /** The messages of validating each role in turn. */
  function RoleErrors(roles: seq<UserRole>): seq<string>
    reads roles
  {
    if roles == [] then [] else RoleErrors(roles[..|roles| - 1]) + roles[|roles| - 1].Errors()
  }

  /** The roles produce no message exactly when every role validates on its own. */
  lemma {:induction false} RoleErrorsEmptyIff(roles: seq<UserRole>)
    ensures RoleErrors(roles) == [] <==> forall k :: 0 <= k < |roles| ==> roles[k].Errors() == []
  {
    if roles != [] {
      var init := roles[..|roles| - 1];
      RoleErrorsEmptyIff(init);
      assert forall k :: 0 <= k < |init| ==> init[k] == roles[k];
    }
  }

  lemma RoleErrorsSnoc(roles: seq<UserRole>, i: nat)
    requires i < |roles|
    ensures RoleErrors(roles[..i + 1]) == RoleErrors(roles[..i]) + roles[i].Errors()
  {
    assert roles[..i + 1][..i] == roles[..i];
  }

  /** The loop of `ProjectMembership.validate`: each role validates into the same list. */
  method ValidateRoles(roles: seq<UserRole>, errors: ErrorList)
    modifies errors
    ensures errors.items == old(errors.items) + RoleErrors(roles)
  {
    ghost var start := errors.items;
    for i := 0 to |roles|
      invariant errors.items == start + RoleErrors(roles[..i])
    {
      ghost var before := errors.items;
      var _ := roles[i].Validate(errors);
      assert errors.items == before + roles[i].Errors();
      RoleErrorsSnoc(roles, i);
      JavaLang.AppendAssoc(start, RoleErrors(roles[..i]), roles[i].Errors());
    }
    assert roles[..|roles|] == roles;
  }

  class ProjectMembership {
    var project: Project?
    var roles: Option<seq<UserRole>>

    static const PROJECT_NULL := "Project Id is null"
    static const ROLE_NULL := "Role is null for membership"

    constructor ()
      ensures project == null && roles.None?
    {
      project, roles := null, None;
    }

    /** The roles the membership holds, as a set of objects to read. */
    function RoleObjects(): set<object>
      reads this
    {
      if roles.None? then {} else set k | 0 <= k < |roles.value| :: roles.value[k]
    }

    /** The messages `validate` appends: the project check, then either the missing-roles
        message or every role's own messages in list order. */
    function Errors(): (r: seq<string>)
      reads this, RoleObjects()
      ensures PROJECT_NULL in r <== project == null
      ensures (roles.None? || roles.value == []) ==> ROLE_NULL in r
    {
      (if project == null then [PROJECT_NULL] else [])
      + (if roles.None? || roles.value == [] then [ROLE_NULL] else RoleErrors(roles.value))
    }

    method Validate(errors: ErrorList?) returns (r: ErrorList)
      modifies errors
      ensures errors != null ==> r == errors
      ensures errors == null ==> fresh(r)
      ensures r.items == (if errors == null then [] else old(errors.items)) + Errors()
    {
      ghost var projectPart := if project == null then [PROJECT_NULL] else [];
      ghost var rolePart := if roles.None? || roles.value == [] then [ROLE_NULL] else RoleErrors(roles.value);
      ghost var all := Errors();
      assert all == projectPart + rolePart;
      if errors == null {
        r := new ErrorList();
      } else {
        r := errors;
      }
      ghost var before := r.items;
      if project == null {
        r.Add(PROJECT_NULL);
      }
      assert r.items == before + projectPart;
      if roles.None? || |roles.value| == 0 {
        r.Add(ROLE_NULL);
      } else {
        ValidateRoles(roles.value, r);
      }
      assert r.items == before + projectPart + rolePart;
      JavaLang.AppendAssoc(before, projectPart, rolePart);
      assert Errors() == all;
    }
  }

  /** A membership validates exactly when it has a project and a non-empty role list whose
      roles all validate. */
  lemma MembershipErrorsEmptyIff(m: ProjectMembership)
    ensures m.Errors() == [] <==> m.project != null && m.roles.Some? && m.roles.value != []
                                  && forall k :: 0 <= k < |m.roles.value| ==> m.roles.value[k].Errors() == []
  {
    if m.roles.Some? {
      RoleErrorsEmptyIff(m.roles.value);
    }
  }

  /** Because of the inverted name check, a membership validates only when every role has an id
      and no qualified name. */
  lemma MembershipValidRolesAreNameless(m: ProjectMembership)
    requires m.Errors() == []
    ensures m.roles.Some? && forall k :: 0 <= k < |m.roles.value| ==>
      m.roles.value[k].id.Some? && !IsQualifiedString(m.roles.value[k].name)
  {
    MembershipErrorsEmptyIff(m);
    forall k | 0 <= k < |m.roles.value|
      ensures m.roles.value[k].id.Some? && !IsQualifiedString(m.roles.value[k].name)
    {
      UserRoleErrorsMeaning(m.roles.value[k]);
    }
  }

  // ---------------------------------------------------------------------------------------------
  // Status, Tracker and Priority: an id, a name, well-known ids, and an id-only validation.

  /** `Status`, `Tracker` and `Priority` (and the `User` of the 0.7 release) are four copies of one
      Java shape: an id, a name, setters that touch one field each, and a `validate` that checks
      only the id. The models follow each class separately; only the message texts and the
      well-known ids differ. */
  class Status {
    var id: Option<int>
    var name: Option<string>

    static const NEW := 1
    static const IN_PROGRESS := 2
    static const RESOLVED := 3
    static const FEEDBACK := 4
    static const CLOSED := 5
    static const REJECTED := 6
    static const OBSOLETED := 7

    static const ID_NULL := "Status's Id is null"

    constructor ()
      ensures id.None? && name.None?
    {
      id, name := None, None;
    }

    constructor WithId(id: Option<int>)
      ensures this.id == id && name.None?
    {
      this.id, name := id, None;
    }

    method SetId(id: Option<int>)
      modifies this
      ensures this.id == id && name == old(name)
    {
      this.id := id;
    }

    method SetName(name: Option<string>)
      modifies this
      ensures this.name == name && id == old(id)
    {
      this.name := name;
    }

    /** The message `validate` appends: only a missing id is reported. */
    function Errors(): (r: seq<string>)
      reads this
      ensures r == [] <==> id.Some?
      ensures r != [] ==> r == [ID_NULL]
    {
      if id.None? then [ID_NULL] else []
    }

    method Validate(errors: ErrorList?) returns (r: ErrorList)
      modifies errors
      ensures errors != null ==> r == errors
      ensures errors == null ==> fresh(r)
      ensures r.items == (if errors == null then [] else old(errors.items)) + Errors()
    {
      if errors == null {
        r := new ErrorList();
      } else {
        r := errors;
      }
      if id.None? {
        r.Add(ID_NULL);
      }
    }
  }

  class Tracker {
    var id: Option<int>
    var name: Option<string>

    static const BUG := 1
    static const FEATURE := 2
    static const SUPPORT := 3

    static const ID_NULL := "Tracker's Id is null"

    constructor ()
      ensures id.None? && name.None?
    {
      id, name := None, None;
    }

    constructor WithId(id: Option<int>)
      ensures this.id == id && name.None?
    {
      this.id, name := id, None;
    }

    method SetId(id: Option<int>)
      modifies this
      ensures this.id == id && name == old(name)
    {
      this.id := id;
    }

    method SetName(name: Option<string>)
      modifies this
      ensures this.name == name && id == old(id)
    {
      this.name := name;
    }

    /** The message `validate` appends: only a missing id is reported. */
    function Errors(): (r: seq<string>)
      reads this
      ensures r == [] <==> id.Some?
      ensures r != [] ==> r == [ID_NULL]
    {
      if id.None? then [ID_NULL] else []
    }

    method Validate(errors: ErrorList?) returns (r: ErrorList)
      modifies errors
      ensures errors != null ==> r == errors
      ensures errors == null ==> fresh(r)
      ensures r.items == (if errors == null then [] else old(errors.items)) + Errors()
    {
      if errors == null {
        r := new ErrorList();
      } else {
        r := errors;
      }
      if id.None? {
        r.Add(ID_NULL);
      }
    }
  }

  class Priority {
    var id: Option<int>
    var name: Option<string>

    static const LOW := 3
    static const NORMAL := 4
    static const HIGH := 5
    static const URGENT := 6
    static const IMMEDIATE := 7

    static const ID_NULL := "Priority's Id is null"

    constructor ()
      ensures id.None? && name.None?
    {
      id, name := None, None;
    }

    constructor WithId(id: Option<int>)
      ensures this.id == id && name.None?
    {
      this.id, name := id, None;
    }

    method SetId(id: Option<int>)
      modifies this
      ensures this.id == id && name == old(name)
    {
      this.id := id;
    }

    method SetName(name: Option<string>)
      modifies this
      ensures this.name == name && id == old(id)
    {
      this.name := name;
    }

    /** The message `validate` appends: only a missing id is reported. */
    function Errors(): (r: seq<string>)
      reads this
      ensures r == [] <==> id.Some?
      ensures r != [] ==> r == [ID_NULL]
    {
      if id.None? then [ID_NULL] else []
    }

    method Validate(errors: ErrorList?) returns (r: ErrorList)
      modifies errors
      ensures errors != null ==> r == errors
      ensures errors == null ==> fresh(r)
      ensures r.items == (if errors == null then [] else old(errors.items)) + Errors()
    {
      if errors == null {
        r := new ErrorList();
      } else {
        r := errors;
      }
      if id.None? {
        r.Add(ID_NULL);
      }
    }
  }

  /** The well-known ids are distinct within each class, and priorities start at 3. */
  lemma WellKnownIds()
    ensures [Status.NEW, Status.IN_PROGRESS, Status.RESOLVED, Status.FEEDBACK, Status.CLOSED,
             Status.REJECTED, Status.OBSOLETED] == [1, 2, 3, 4, 5, 6, 7]
    ensures [Tracker.BUG, Tracker.FEATURE, Tracker.SUPPORT] == [1, 2, 3]
    ensures [Priority.LOW, Priority.NORMAL, Priority.HIGH, Priority.URGENT, Priority.IMMEDIATE] == [3, 4, 5, 6, 7]
  {
  }
}
