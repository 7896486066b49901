/** The frontend's sign-in state (`contexts/AuthContext.tsx`): the signed-in user and
    access token, restored on mount from `localStorage`'s "access_token" by checking
    it with the identity service, set by `login` and cleared by `logout`.

    The identity service's profile endpoint is a parameter `profile` from the
    `Authorization` header sent to it to its answer. */
module AuthContext {
  import opened Common
  import opened Browser

  const AccessTokenKey: string := "access_token"
  const BearerPrefix: string := "Bearer "
  const OutsideProviderMessage: string := "useAuth must be used within an AuthProvider"

  /** The `User` interface. */
  datatype User = User(id: string, phone: string, organizationId: Option<string>, isInternal: Option<bool>)

  /** The profile endpoint's answer: an ok response with the user it describes, a
      response that is not ok, or a thrown request. */
  datatype ProfileReply = ProfileOk(user: User) | ProfileNotOk | ProfileThrew

  /** The provider's state together with the stored token. */
  datatype AuthState = AuthState(user: Option<User>, token: Option<string>, isLoading: bool,
                                 stored: map<string, string>)

  /** The value the provider hands to `useAuth` (its two actions are the methods below). */
  datatype AuthContextValue = AuthContextValue(user: Option<User>, token: Option<string>,
                                               isAuthenticated: bool, isLoading: bool)

  function ContextValue(s: AuthState): (v: AuthContextValue)
    ensures v.isAuthenticated <==> s.user.Some?
    ensures v.user == s.user && v.token == s.token && v.isLoading == s.isLoading
  {
    AuthContextValue(s.user, s.token, s.user.Some?, s.isLoading)
  }

  /** The mount effect together with `verifyToken`, from the provider's initial state. */
  function MountStep(s: AuthState, profile: string -> ProfileReply): AuthState {
    var saved := if AccessTokenKey in s.stored then Some(s.stored[AccessTokenKey]) else None;
    if !Present(saved) then s.(isLoading := false)
    else
      match profile(BearerPrefix + saved.value)
      case ProfileOk(u) => s.(user := Some(u), token := saved, isLoading := false)
      case _ => s.(stored := s.stored - {AccessTokenKey}, isLoading := false)
  }

  /** `login`. */
  function LoginStep(s: AuthState, newToken: string, userData: User): AuthState {
    s.(stored := s.stored[AccessTokenKey := newToken], token := Some(newToken), user := Some(userData))
  }

  /** `logout`. */
  function LogoutStep(s: AuthState): AuthState {
    s.(stored := s.stored - {AccessTokenKey}, token := None, user := None)
  }

  /** The provider as it first renders. */
  function InitialState(stored: map<string, string>): AuthState {
    AuthState(None, None, true, stored)
  }

  /** After mounting the provider is never loading, and it is signed in exactly when a
      non-empty token was stored and the profile endpoint accepted it; then the token
      is the stored one. A rejected or failed check forgets the stored token; other
      keys of the storage are never touched. */
  lemma MountOutcome(stored: map<string, string>, profile: string -> ProfileReply)
    ensures var after := MountStep(InitialState(stored), profile);
      var saved := if AccessTokenKey in stored then stored[AccessTokenKey] else "";
      && !after.isLoading
      && (ContextValue(after).isAuthenticated <==> saved != "" && profile(BearerPrefix + saved).ProfileOk?)
      && (ContextValue(after).isAuthenticated ==> after.token == Some(saved) && after.stored == stored)
      && (saved != "" && !profile(BearerPrefix + saved).ProfileOk? ==> AccessTokenKey !in after.stored)
      && (forall k :: k != AccessTokenKey ==> (k in after.stored <==> k in stored))
  {
  }

  /** Signing in persists: a reloaded provider whose profile check accepts the token
      restores the same token and the user the service reports. */
  lemma LoginSurvivesReload(s: AuthState, newToken: string, userData: User, profile: string -> ProfileReply)
    requires newToken != ""
    requires profile(BearerPrefix + newToken).ProfileOk?
    ensures var reloaded := MountStep(InitialState(LoginStep(s, newToken, userData).stored), profile);
      reloaded.token == Some(newToken) && reloaded.user == Some(profile(BearerPrefix + newToken).user)
  {
  }

  /** Signing out is final: a reloaded provider stays signed out without asking the
      identity service. */
  lemma LogoutSurvivesReload(s: AuthState, profile: string -> ProfileReply)
    ensures var reloaded := MountStep(InitialState(LogoutStep(s).stored), profile);
      !ContextValue(reloaded).isAuthenticated && reloaded.token == None && !reloaded.isLoading
  {
  }

  /** `AuthProvider`. */
  class AuthProvider {
    var user: Option<User>
    var token: Option<string>
    var isLoading: bool
    const storage: LocalStorage

    constructor (storage: LocalStorage)
      ensures this.storage == storage
      ensures user == None && token == None && isLoading
    {
      this.storage := storage;
      user, token, isLoading := None, None, true;
    }

    function State(): AuthState
      reads this, storage
    {
      AuthState(user, token, isLoading, storage.items)
    }

    /** The mount effect and `verifyToken`. */
    method Mount(profile: string -> ProfileReply)
      modifies this, storage
      ensures State() == MountStep(old(State()), profile)
    {
      var saved := storage.GetItem(AccessTokenKey);
      if Present(saved) {
        var reply := profile(BearerPrefix + saved.value);
        if reply.ProfileOk? {
          user := Some(reply.user);
          token := saved;
        } else {
          storage.RemoveItem(AccessTokenKey);
        }
      }
      isLoading := false;
    }

    method Login(newToken: string, userData: User)
      modifies this, storage
      ensures State() == LoginStep(old(State()), newToken, userData)
    {
      storage.SetItem(AccessTokenKey, newToken);
      token := Some(newToken);
      user := Some(userData);
    }

    method Logout()
      modifies this, storage
      ensures State() == LogoutStep(old(State()))
    {
      storage.RemoveItem(AccessTokenKey);
      token := None;
      user := None;
    }
  }

  /** `useAuth`: the provider's value, or the error thrown outside a provider. */
  function UseAuth(context: Option<AuthContextValue>): (r: Result<AuthContextValue, string>)
    ensures context.Some? <==> r.Ok?
    ensures context.Some? ==> r.value == context.value
    ensures context.None? ==> r.error == OutsideProviderMessage
  {
    if context.None? then Err(OutsideProviderMessage) else Ok(context.value)
  }
}
