/** The user context: the signed-in user, or none. */
module Session {
  import opened Wrappers

  /** The user object handed to `signIn`, as its keys and values. */
  type UserData = map<string, string>

  /** The user stored when `signIn` receives nothing. */
  const DefaultUser: UserData := map["name" := "Usuário Padrão"]

  /** `userData || { name: 'Usuário Padrão' }`. */
  function SignedInUser(userData: Option<UserData>): (user: UserData)
    ensures userData.Some? ==> user == userData.value
    ensures userData.None? ==> user == DefaultUser && user["name"] == "Usuário Padrão"
  {
    userData.GetOr(DefaultUser)
  }

  /** The session state. */
  class UserSession {
    var user: Option<UserData>

    /** `signed: !!user`. */
    function Signed(): (signed: bool)
      reads this
      ensures signed <==> user != None
    {
      user.Some?
    }

    constructor ()
      ensures user == None && !Signed()
    {
      user := None;
    }

    method SignIn(userData: Option<UserData>)
      modifies this
      ensures user == Some(SignedInUser(userData))
      ensures Signed()
    {
      user := Some(SignedInUser(userData));
    }

    method SignOut()
      modifies this
      ensures user == None
      ensures !Signed()
    {
      user := None;
    }
  }
}
