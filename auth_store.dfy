/**
 * The mock authentication store. Every action has an immediate step (the
 * action method, which also gives the action's return value) and a step run
 * later by a timer; the three distinct timer steps are the `Settle` methods.
 * Timer delays are not modelled: any settle step may run at any later point.
 */
module AuthStore {
  import opened Wrappers

  datatype User = User(id: string, email: Option<string>)

  datatype Session = Session(user: Option<User>)

  /** The user every mock sign-in or sign-up settles on. */
  function MockUser(email: string): (u: User)
    ensures u.id == "1" && u.email == Some(email)
  {
    User("1", Some(email))
  }

  class AuthStore {
    var user: Option<User>
    var session: Option<Session>
    var isLoading: bool
    var error: Option<string>

    /** Either nobody is signed in, or a session carries exactly the signed-in user. */
    predicate Consistent()
      reads this
    {
      (user == None && session == None) || (user.Some? && session == Some(Session(user)))
    }

    predicate SignedIn()
      reads this
    {
      user.Some? && session.Some?
    }

    /** The initial state: nobody signed in, nothing loading, no error. */
    constructor ()
      ensures user == None && session == None && !isLoading && error == None
      ensures Consistent()
    {
      user, session, isLoading, error := None, None, false, None;
    }

    /** `initializeAuth()`, immediate step: loading starts; the error is kept. */
    method InitializeAuth()
      requires Consistent()
      modifies this
      ensures Consistent()
      ensures isLoading
      ensures user == old(user) && session == old(session) && error == old(error)
    {
      isLoading := true;
    }

    /** `signIn(email, password)`, immediate step: any credentials are accepted. */
    method SignIn(email: string, password: string) returns (accepted: bool)
      requires Consistent()
      modifies this
      ensures Consistent()
      ensures accepted
      ensures isLoading && error == None
      ensures user == old(user) && session == old(session)
    {
      isLoading, error := true, None;
      accepted := true;
    }

    /** `signUp(email, password, fullName)`, immediate step: any details are accepted. */
    method SignUp(email: string, password: string, fullName: string) returns (accepted: bool)
      requires Consistent()
      modifies this
      ensures Consistent()
      ensures accepted
      ensures isLoading && error == None
      ensures user == old(user) && session == old(session)
    {
      isLoading, error := true, None;
      accepted := true;
    }

    /** `signOut()`, immediate step: loading starts; the error is kept. */
    method SignOut()
      requires Consistent()
      modifies this
      ensures Consistent()
      ensures isLoading
      ensures user == old(user) && session == old(session) && error == old(error)
    {
      isLoading := true;
    }

    /** `resetPassword(email)`, immediate step. */
    method ResetPassword(email: string) returns (accepted: bool)
      requires Consistent()
      modifies this
      ensures Consistent()
      ensures accepted
      ensures isLoading && error == None
      ensures user == old(user) && session == old(session)
    {
      isLoading, error := true, None;
      accepted := true;
    }

    /** `updatePassword(newPassword)`, immediate step. */
    method UpdatePassword(newPassword: string) returns (accepted: bool)
      requires Consistent()
      modifies this
      ensures Consistent()
      ensures accepted
      ensures isLoading && error == None
      ensures user == old(user) && session == old(session)
    {
      isLoading, error := true, None;
      accepted := true;
    }

    /** `clearError()` */
    method ClearError()
      requires Consistent()
      modifies this
      ensures Consistent()
      ensures error == None
      ensures user == old(user) && session == old(session) && isLoading == old(isLoading)
    {
      error := None;
    }

    /** The timer step of `signIn` and `signUp`: the mock user is signed in. */
    method SettleSignedIn(email: string)
      requires Consistent()
      modifies this
      ensures Consistent() && SignedIn()
      ensures user == Some(MockUser(email)) && session == Some(Session(user))
      ensures !isLoading && error == old(error)
    {
      user := Some(MockUser(email));
      session := Some(Session(Some(MockUser(email))));
      isLoading := false;
    }

    /** The timer step of `initializeAuth` and `signOut`: nobody is signed in. */
    method SettleSignedOut()
      requires Consistent()
      modifies this
      ensures Consistent() && !SignedIn()
      ensures user == None && session == None
      ensures !isLoading && error == old(error)
    {
      session, user, isLoading := None, None, false;
    }

    /** The timer step of `resetPassword` and `updatePassword`: only loading ends. */
    method SettleLoadingDone()
      requires Consistent()
      modifies this
      ensures Consistent()
      ensures !isLoading
      ensures user == old(user) && session == old(session) && error == old(error)
    {
      isLoading := false;
    }
  }

  /**
   * A sign-in followed, once it has settled, by a sign-out: the user is
   * signed in between the two and nobody is signed in at the end.
   */
  method SignInThenOut(email: string, password: string)
    returns (accepted: bool, between: Option<User>, after: Option<User>, loading: bool)
    ensures accepted
    ensures between == Some(User("1", Some(email)))
    ensures after == None && !loading
  {
    var store := new AuthStore();
    accepted := store.SignIn(email, password);
    store.SettleSignedIn(email);
    between := store.user;
    store.SignOut();
    store.SettleSignedOut();
    after, loading := store.user, store.isLoading;
  }
}
