/** The demo authentication context: the signed-in user (if any), a mock
    login that chooses a user by the e-mail text alone, logout, and a role
    switch. */
module AuthContext {
  import opened Options
  import opened Strings

  datatype UserRole = Admin | Driver

  datatype User = User(id: string, name: string, email: string, role: UserRole, regionId: string)

  const AdminUser: User := User("admin-1", "Admin User", "admin@ecowaste.com", Admin, "region-1")
  const DriverUser: User := User("driver-1", "Amal Perera", "driver@ecowaste.com", Driver, "region-1")

  /** The mock user of a role. */
  function MockUser(role: UserRole): (u: User)
    ensures u.role == role
    ensures u == AdminUser || u == DriverUser
  {
    match role
    case Admin => AdminUser
    case Driver => DriverUser
  }

  /** The user a login with `email` signs in, if any: "admin" in the address
      wins over "driver"; anything else is refused. */
  function UserForEmail(email: string): (u: Option<User>)
    ensures Contains(email, "admin") ==> u == Some(AdminUser)
    ensures !Contains(email, "admin") && Contains(email, "driver") ==> u == Some(DriverUser)
    ensures u == None <==> !Contains(email, "admin") && !Contains(email, "driver")
  {
    if Contains(email, "admin") then Some(AdminUser)
    else if Contains(email, "driver") then Some(DriverUser)
    else None
  }

  /** Each mock user's own address signs that user in. */
  lemma MockAddressesSignIn()
    ensures UserForEmail(AdminUser.email) == Some(AdminUser)
    ensures UserForEmail(DriverUser.email) == Some(DriverUser)
  {
    assert "admin" <= AdminUser.email;
    assert "driver" <= DriverUser.email;
    MissingCharNotContained(DriverUser.email, "admin", 4);
  }

  class AuthState {
    var user: Option<User>

    /** The demo starts signed in as the admin. */
    constructor ()
      ensures user == Some(AdminUser)
      ensures IsAuthenticated()
    {
      user := Some(AdminUser);
    }

    /** `isAuthenticated`: `!!user`. */
    predicate IsAuthenticated()
      reads this
    {
      user.Some?
    }

    /** `login`: succeeds exactly when the address names a mock user, and
        then signs that user in; a refused login keeps the current user. The
        password is not consulted. */
    method Login(email: string, password: string) returns (ok: bool)
      modifies this
      ensures ok <==> UserForEmail(email).Some?
      ensures ok ==> user == UserForEmail(email)
      ensures !ok ==> user == old(user)
      ensures ok ==> IsAuthenticated()
    {
      var u := UserForEmail(email);
      if u.Some? {
        user := u;
        return true;
      }
      return false;
    }

    /** `logout`: nobody is signed in afterwards. */
    method Logout()
      modifies this
      ensures user == None && !IsAuthenticated()
    {
      user := None;
    }

    /** `switchRole`: the mock user of the chosen role is signed in. */
    method SwitchRole(role: UserRole)
      modifies this
      ensures user == Some(MockUser(role))
      ensures IsAuthenticated() && user.value.role == role
    {
      user := Some(MockUser(role));
    }
  }
}
