/**
 * The `User` of the 0.7 release: an id and a name, the well-known administrator id, and an
 * id-only validation.
 */
module LegacyBdo {
  import opened Wrappers
  import Bdo

  class User {
    var id: Option<int>
    var name: Option<string>

    /** `REDMINE_ADMIN` is the user with id 1. */
    static const REDMINE_ADMIN_ID := 1

    static const ID_NULL := "User's Id is null"

    constructor ()
      ensures id.None? && name.None?
    {
      id, name := None, None;
    }

    constructor WithId(id: Option<int>)
      ensures this.id == id && name.None?
    {
      this.id, name := id, None;
    }

    method SetId(id: Option<int>)
      modifies this
      ensures this.id == id && name == old(name)
    {
      this.id := id;
    }

    method SetName(name: Option<string>)
      modifies this
      ensures this.name == name && id == old(id)
    {
      this.name := name;
    }

    /** The message `validate` appends: only a missing id is reported; the name is not checked. */
    function Errors(): (r: seq<string>)
      reads this
      ensures r == [] <==> id.Some?
      ensures r != [] ==> r == [ID_NULL]
    {
      if id.None? then [ID_NULL] else []
    }

    method Validate(errors: Bdo.ErrorList?) returns (r: Bdo.ErrorList)
      modifies errors
      ensures errors != null ==> r == errors
      ensures errors == null ==> fresh(r)
      ensures r.items == (if errors == null then [] else old(errors.items)) + Errors()
    {
      if errors == null {
        r := new Bdo.ErrorList();
      } else {
        r := errors;
      }
      if id.None? {
        r.Add(ID_NULL);
      }
    }
  }

  /** The administrator object, built as `new User(new Long(1))`, validates. */
  method RedmineAdmin() returns (admin: User)
    ensures fresh(admin) && admin.id == Some(User.REDMINE_ADMIN_ID) && admin.name.None?
    ensures admin.Errors() == []
  {
    admin := new User.WithId(Some(User.REDMINE_ADMIN_ID));
  }
}
