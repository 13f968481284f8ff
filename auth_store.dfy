/**
 * The admin app's authentication store: the signed-in user, the token
 * pair, whether someone is signed in, and a loading flag. Every action
 * replaces some of the fields and leaves the others as they were.
 */
module AuthStore {
  import opened Wrappers

  datatype UserRole = OWNER | ADMIN | STAFF | VIEWER
  datatype UserStatus = ACTIVE | INACTIVE | SUSPENDED

  datatype User = User(
    id: string,
    email: string,
    username: string,
    firstName: Option<string>,
    lastName: Option<string>,
    role: UserRole,
    status: UserStatus,
    require2FA: bool,
    createdAt: string,
    updatedAt: string)

  datatype AuthTokens = AuthTokens(accessToken: string, refreshToken: string)

  /** `Partial<User>`: the fields an update sets; `None` leaves a field alone. */
  datatype UserUpdate = UserUpdate(
    id: Option<string>,
    email: Option<string>,
    username: Option<string>,
    firstName: Option<string>,
    lastName: Option<string>,
    role: Option<UserRole>,
    status: Option<UserStatus>,
    require2FA: Option<bool>,
    createdAt: Option<string>,
    updatedAt: Option<string>)

  const NoUpdate := UserUpdate(None, None, None, None, None, None, None, None, None, None)

  function Pick<T>(update: Option<T>, current: T): T {
    if update.Some? then update.value else current
  }

  /** `{ ...user, ...updates }`: a field the update sets takes its value, every other keeps the user's. */
  function Merge(u: User, p: UserUpdate): User {
    User(Pick(p.id, u.id), Pick(p.email, u.email), Pick(p.username, u.username),
         if p.firstName.Some? then p.firstName else u.firstName,
         if p.lastName.Some? then p.lastName else u.lastName,
         Pick(p.role, u.role), Pick(p.status, u.status), Pick(p.require2FA, u.require2FA),
         Pick(p.createdAt, u.createdAt), Pick(p.updatedAt, u.updatedAt))
  }

  /** An update that sets nothing keeps the user. */
  lemma MergeNothing(u: User)
    ensures Merge(u, NoUpdate) == u
  {
  }

  /** Applying the same update twice is applying it once; a role update sets the role. */
  lemma MergeTwice(u: User, p: UserUpdate)
    ensures Merge(Merge(u, p), p) == Merge(u, p)
    ensures p.role.Some? ==> Merge(u, p).role == p.role.value
    ensures p.role.None? ==> Merge(u, p).role == u.role
  {
  }

  class AuthState {
    var user: Option<User>
    var tokens: Option<AuthTokens>
    var isAuthenticated: bool
    var isLoading: bool

    /** Someone is signed in exactly when there is a user. */
    ghost predicate Valid()
      reads this
    {
      isAuthenticated == user.Some?
    }

    constructor()
      ensures user.None? && tokens.None? && !isAuthenticated && !isLoading
      ensures Valid()
    {
      user := None;
      tokens := None;
      isAuthenticated := false;
      isLoading := false;
    }

    /** `setUser(user)`: the user, and signed in iff it is not null. */
    method SetUser(u: Option<User>)
      modifies this
      ensures user == u && isAuthenticated == u.Some?
      ensures tokens == old(tokens) && isLoading == old(isLoading)
      ensures Valid()
    {
      user := u;
      isAuthenticated := u.Some?;
    }

    method SetTokens(t: Option<AuthTokens>)
      requires Valid()
      modifies this
      ensures tokens == t
      ensures user == old(user) && isAuthenticated == old(isAuthenticated) && isLoading == old(isLoading)
      ensures Valid()
    {
      tokens := t;
    }

    method SetLoading(loading: bool)
      requires Valid()
      modifies this
      ensures isLoading == loading
      ensures user == old(user) && tokens == old(tokens) && isAuthenticated == old(isAuthenticated)
      ensures Valid()
    {
      isLoading := loading;
    }

    /** `logout()`: no user, no tokens, signed out; the loading flag stays. */
    method Logout()
      modifies this
      ensures user.None? && tokens.None? && !isAuthenticated
      ensures isLoading == old(isLoading)
      ensures Valid()
    {
      user := None;
      tokens := None;
      isAuthenticated := false;
    }

    /** `updateUser(updates)`: merges into a signed-in user; without one there is still none. */
    method UpdateUser(updates: UserUpdate)
      requires Valid()
      modifies this
      ensures old(user).Some? ==> user == Some(Merge(old(user).value, updates))
      ensures old(user).None? ==> user.None?
      ensures tokens == old(tokens) && isAuthenticated == old(isAuthenticated) && isLoading == old(isLoading)
      ensures Valid()
    {
      user := if user.Some? then Some(Merge(user.value, updates)) else None;
    }
  }
}
