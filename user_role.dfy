/** The role provider: the role the user picked (novice, professional or
    image editor) is restored from the browser's storage on mount and kept
    in step with it afterwards. */
module UserRole {
  import opened Wrappers

  /** The three roles; "no role" is `None`. */
  datatype Role = Novice | Professional | ImageEditor

  const RoleKey := "flatify_userRole"

  /** The text a role is stored as. */
  function RoleName(role: Role): (s: string)
    ensures s in ["novice", "professional", "imageEditor"]
  {
    match role
    case Novice => "novice"
    case Professional => "professional"
    case ImageEditor => "imageEditor"
  }

  /** The whitelist applied to the stored value: one of the three role
      names, or nothing. */
  function ParseRole(stored: Option<string>): (r: Option<Role>)
    ensures r.Some? <==> stored.Some? && stored.value in ["novice", "professional", "imageEditor"]
    ensures r.Some? ==> RoleName(r.value) == stored.value
  {
    if stored == Some("novice") then Some(Novice)
    else if stored == Some("professional") then Some(Professional)
    else if stored == Some("imageEditor") then Some(ImageEditor)
    else None
  }

  /** What the storage key holds when it is in step with `role`: the role's
      name, or no entry for no role. */
  function StoredValue(role: Option<Role>): (v: Option<string>)
    ensures v.None? <==> role.None?
  {
    match role
    case None => None
    case Some(r) => Some(RoleName(r))
  }

  /** Restoring what the sync wrote gives back the role. */
  lemma RestoreWritten(role: Option<Role>)
    ensures ParseRole(StoredValue(role)) == role
  {
    match role
    case None =>
    case Some(r) =>
      assert RoleName(r) in ["novice", "professional", "imageEditor"];
  }

  /** A mount followed by a sync keeps a valid stored role and removes any
      other stored value. */
  lemma RestoreThenSync(stored: Option<string>)
    ensures StoredValue(ParseRole(stored)) == if ParseRole(stored).Some? then stored else None
  {
  }

  /** `UserRoleProvider`'s state: `userRole`, `isLoading`, and the storage
      entry under `RoleKey`. */
  class UserRoleProvider {
    var userRole: Option<Role>
    var isLoading: bool
    var stored: Option<string>

    /** The key holds exactly what `userRole` says. */
    predicate InSync()
      reads this
    {
      stored == StoredValue(userRole)
    }

    /** First render: no role, loading; the storage is as the browser has it. */
    constructor(storage: Option<string>)
      ensures userRole.None? && isLoading && stored == storage
    {
      userRole := None;
      isLoading := true;
      stored := storage;
    }

    /** The mount effect: adopts a whitelisted stored role; `storageFails`
        stands for `getItem` throwing, which is caught. Loading ends either
        way. */
    method LoadFromStorage(storageFails: bool)
      modifies this
      ensures !isLoading && stored == old(stored)
      ensures userRole == if !storageFails && ParseRole(old(stored)).Some? then ParseRole(old(stored)) else old(userRole)
    {
      if !storageFails {
        var storedRole := ParseRole(stored);
        if storedRole.Some? {
          userRole := storedRole;
        }
      }
      isLoading := false;
    }

    /** `setUserRole`, as the role-select page calls it. */
    method SetUserRole(role: Option<Role>)
      modifies this
      ensures userRole == role && isLoading == old(isLoading) && stored == old(stored)
    {
      userRole := role;
    }

    /** The sync effect: once loading is over, writes the role or removes
        the key; `storageFails` stands for `setItem` or `removeItem`
        throwing, which is caught and leaves the storage as it was. */
    method Sync(storageFails: bool)
      modifies this
      ensures userRole == old(userRole) && isLoading == old(isLoading)
      ensures old(isLoading) || storageFails ==> stored == old(stored)
      ensures !old(isLoading) && !storageFails ==> InSync()
    {
      if !isLoading && !storageFails {
        stored := StoredValue(userRole);
      }
    }
  }

  /** A mount without storage failures: load, then sync. The role is the
      whitelisted stored one, and the storage is in step with it. */
  method Mount(storage: Option<string>) returns (p: UserRoleProvider)
    ensures fresh(p) && !p.isLoading && p.userRole == ParseRole(storage) && p.InSync()
  {
    p := new UserRoleProvider(storage);
    p.LoadFromStorage(false);
    p.Sync(false);
  }
}
