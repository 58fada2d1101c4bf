/**
 * The role store: the current role of this browser session, loaded from and
 * mirrored to the storage key "pharmachain:role".
 */
module Auth {
  import opened Wrappers

  /** The six declared roles. */
  datatype Role = IngredientSupplier | Manufacturer | Repackage | Distributor | Pharmacy | FDA

  /** The string each role is stored and compared as. */
  function Name(r: Role): (s: string)
    ensures s != ""
  {
    match r
    case IngredientSupplier => "Ingredient Supplier"
    case Manufacturer => "Manufacturer"
    case Repackage => "Repackage"
    case Distributor => "Distributor"
    case Pharmacy => "Pharmacy"
    case FDA => "FDA"
  }

  /** Distinct roles are stored as distinct strings, so a stored name identifies its role. */
  lemma NameInjective(a: Role, b: Role)
    ensures Name(a) == Name(b) ==> a == b
  {
  }

  /** The roles offered by the role pickers, in declaration order. */
  const ALL_ROLES: seq<Role> := [IngredientSupplier, Manufacturer, Repackage, Distributor, Pharmacy, FDA]

  /** ALL_ROLES holds every role exactly once. */
  lemma AllRolesExactlyOnce()
    ensures |ALL_ROLES| == 6
    ensures forall r: Role :: r in ALL_ROLES
    ensures forall i, j :: 0 <= i < j < |ALL_ROLES| ==> ALL_ROLES[i] != ALL_ROLES[j]
  {
    forall r: Role ensures r in ALL_ROLES {
      match r
      case IngredientSupplier => assert ALL_ROLES[0] == r;
      case Manufacturer => assert ALL_ROLES[1] == r;
      case Repackage => assert ALL_ROLES[2] == r;
      case Distributor => assert ALL_ROLES[3] == r;
      case Pharmacy => assert ALL_ROLES[4] == r;
      case FDA => assert ALL_ROLES[5] == r;
    }
  }

  /**
   * The role adopted from the stored string on load: nothing when the key is
   * absent (or unreadable) or holds the empty string, otherwise the stored
   * string itself, whether or not it names one of the six roles.
   */
  function LoadRole(stored: Option<string>): (r: Option<string>)
    ensures r.None? <==> (stored.None? || stored == Some(""))
    ensures r.Some? ==> r == stored
  {
    match stored
    case Some(raw) => if raw != "" then Some(raw) else None
    case None => None
  }

  /** A role written with loginAs is adopted again by the next load. */
  lemma LoadAfterLogin(r: Role)
    ensures LoadRole(Some(Name(r))) == Some(Name(r))
  {
  }

  class AuthStore {
    /** The current role, `null` in the source when none is selected. */
    var currentRole: Option<string>
    /** The storage slot for the role key. */
    var slot: Option<string>

    /** The role in memory is the role a fresh load of the slot would produce. */
    ghost predicate Synced()
      reads this
    {
      LoadRole(slot) == currentRole
    }

    constructor (stored: Option<string>)
      ensures currentRole == LoadRole(stored) && slot == stored
      ensures Synced()
    {
      currentRole := LoadRole(stored);
      slot := stored;
    }

    method LoginAs(role: Role)
      modifies this
      ensures currentRole == Some(Name(role)) && slot == Some(Name(role))
      ensures Synced()
    {
      currentRole := Some(Name(role));
      slot := Some(Name(role));
    }

    /** Clears the role and removes the key; the new state does not depend on the old one. */
    method Logout()
      modifies this
      ensures currentRole == None && slot == None
      ensures Synced()
    {
      currentRole := None;
      slot := None;
    }
  }
}
