/**
 * The session manager of mobile/src/contexts/AuthContext.tsx.
 *
 * Its state is the in-memory user, the loading flag, the API client's global
 * `Authorization` header, the two persisted records (the user, and the token
 * pair) and the OneSignal tags. The server's answer to `POST /sessions` and
 * the success or failure of each storage call come in as parameters; a
 * failure that the source swallows with an empty `catch` becomes a branch
 * that skips the remaining steps of the same `try`.
 */
module AuthContext {
  import opened Wrappers
  import opened OneSignalTags

  /** A user record as the server returns it and as storage keeps it. */
  datatype User = User(id: string, name: string, email: string, avatar: Option<string>)

  /** The persisted access token and refresh token. */
  datatype TokenPair = TokenPair(token: string, refreshToken: string)

  /** The body of the `POST /sessions` response; each field may be missing. */
  datatype SessionsResponse = SessionsResponse(user: Option<User>, token: Option<string>, refreshToken: Option<string>)

  /** The request either answers with a body or throws. */
  datatype PostOutcome = Responded(data: SessionsResponse) | Threw

  /** A string field is truthy in JavaScript when it is present and not empty. */
  predicate Truthy(s: Option<string>) {
    s.Some? && s.value != ""
  }

  /** The guard of signIn: `data.user && data.token && data.refresh_token`. */
  predicate Accepted(data: SessionsResponse) {
    data.user.Some? && Truthy(data.token) && Truthy(data.refreshToken)
  }

  /** The router shows the signed-in screens when `user.id` is non-empty;
      the empty object `{}` that stands for "logged out" is None here. */
  predicate LoggedIn(user: Option<User>) {
    user.Some? && user.value.id != ""
  }

  function BearerHeader(token: string): (header: string) {
    "Bearer " + token
  }

  /** The text that the template literal in userAndTokenUpdate gives for the
      token loadUserData read back from storage: with no token pair stored
      the token is `undefined`. */
  function StoredTokenText(stored: Option<TokenPair>): (text: string) {
    if stored.Some? then stored.value.token else "undefined"
  }

  /** A snapshot of everything the session manager reads or writes. */
  datatype Session = Session(
    user: Option<User>,
    loading: bool,
    authorization: Option<string>,
    storedUser: Option<User>,
    storedTokens: Option<TokenPair>,
    tags: map<string, string>)

  /** The state after userAndTokenUpdate(userData, token). */
  function AfterUserAndTokenUpdate(s: Session, userData: User, token: string): (r: Session)
    ensures r.user == Some(userData) && r.authorization == Some(BearerHeader(token))
    ensures r.(user := s.user, authorization := s.authorization) == s
  {
    s.(authorization := Some(BearerHeader(token)), user := Some(userData))
  }

  /** The state after userAndTokenSaveAtStorage: the token pair is saved
      first; if that fails the user save is skipped. */
  function AfterUserAndTokenSave(s: Session, userData: User, token: string, refreshToken: string,
                                 tokenSaveOk: bool, userSaveOk: bool): (r: Session)
    ensures tokenSaveOk ==> r.storedTokens == Some(TokenPair(token, refreshToken))
    ensures tokenSaveOk && userSaveOk ==> r.storedUser == Some(userData)
    ensures !tokenSaveOk ==> r == s
    ensures !userSaveOk ==> r.storedUser == s.storedUser
    ensures r.(storedUser := s.storedUser, storedTokens := s.storedTokens) == s
  {
    if !tokenSaveOk then s
    else
      var withTokens := s.(storedTokens := Some(TokenPair(token, refreshToken)));
      if userSaveOk then withTokens.(storedUser := Some(userData)) else withTokens
  }

  /** The state after signIn(email, password), given the request's outcome
      and the outcomes of the token save and the user save. */
  function AfterSignIn(s: Session, email: string, outcome: PostOutcome,
                       tokenSaveOk: bool, userSaveOk: bool): (r: Session)
    ensures !r.loading
    ensures outcome.Responded? && Accepted(outcome.data) ==>
              && r.user == outcome.data.user
              && r.authorization == Some(BearerHeader(outcome.data.token.value))
              && r.tags == WithUserLoggedTag(s.tags, email)
    ensures outcome.Responded? && Accepted(outcome.data) && tokenSaveOk ==>
              r.storedTokens == Some(TokenPair(outcome.data.token.value, outcome.data.refreshToken.value))
    ensures outcome.Responded? && Accepted(outcome.data) && tokenSaveOk && userSaveOk ==>
              r.storedUser == outcome.data.user
    ensures !tokenSaveOk ==> r.storedTokens == s.storedTokens && r.storedUser == s.storedUser
    ensures !userSaveOk ==> r.storedUser == s.storedUser
    ensures !(outcome.Responded? && Accepted(outcome.data)) ==> r == s.(loading := false)
  {
    var started := s.(loading := true);
    var finished :=
      if outcome.Responded? && Accepted(outcome.data) then
        var data := outcome.data;
        var updated := AfterUserAndTokenUpdate(started, data.user.value, data.token.value);
        var saved := AfterUserAndTokenSave(updated, data.user.value, data.token.value,
                                           data.refreshToken.value, tokenSaveOk, userSaveOk);
        saved.(tags := WithUserLoggedTag(saved.tags, email))
      else started;
    finished.(loading := false)
  }

  /** The state after signOut(): the user is cleared before any storage call;
      a failed removal skips the steps after it. */
  function AfterSignOut(s: Session, userRemoveOk: bool, tokenRemoveOk: bool): (r: Session)
    ensures r.user == None && !LoggedIn(r.user) && !r.loading
    ensures r.authorization == s.authorization
    ensures userRemoveOk && tokenRemoveOk ==>
              r.storedUser == None && r.storedTokens == None && r.tags == WithoutUserLoggedTag(s.tags)
    ensures userRemoveOk && !tokenRemoveOk ==>
              r.storedUser == None && r.storedTokens == s.storedTokens && r.tags == s.tags
    ensures !userRemoveOk ==>
              r.storedUser == s.storedUser && r.storedTokens == s.storedTokens && r.tags == s.tags
  {
    var cleared := s.(loading := true, user := None);
    var finished :=
      if !userRemoveOk then cleared
      else if !tokenRemoveOk then cleared.(storedUser := None)
      else cleared.(storedUser := None, storedTokens := None, tags := WithoutUserLoggedTag(cleared.tags));
    finished.(loading := false)
  }

  /** The state after updateUserProfile(userUpdated). */
  function AfterUpdateUserProfile(s: Session, userUpdated: User, saveOk: bool): (r: Session)
    ensures r.user == Some(userUpdated)
    ensures r.storedUser == if saveOk then Some(userUpdated) else s.storedUser
    ensures r.(user := s.user, storedUser := s.storedUser) == s
  {
    var updated := s.(user := Some(userUpdated));
    if saveOk then updated.(storedUser := Some(userUpdated)) else updated
  }

  /** The state after loadUserData(), the restore at boot. A stored user is
      restored whatever the stored token pair holds. */
  function AfterLoadUserData(s: Session, userReadOk: bool, tokenReadOk: bool): (r: Session)
    ensures !r.loading
    ensures userReadOk && tokenReadOk && s.storedUser.Some? ==>
              && r.user == s.storedUser
              && r.authorization == Some(BearerHeader(StoredTokenText(s.storedTokens)))
    ensures !(userReadOk && tokenReadOk && s.storedUser.Some?) ==> r == s.(loading := false)
    ensures r.storedUser == s.storedUser && r.storedTokens == s.storedTokens && r.tags == s.tags
  {
    var started := s.(loading := true);
    var finished :=
      if userReadOk && tokenReadOk && s.storedUser.Some? then
        AfterUserAndTokenUpdate(started, s.storedUser.value, StoredTokenText(s.storedTokens))
      else started;
    finished.(loading := false)
  }

  /** A second signOut with the same storage outcomes changes nothing. */
  lemma SignOutIdempotent(s: Session, userRemoveOk: bool, tokenRemoveOk: bool)
    ensures AfterSignOut(AfterSignOut(s, userRemoveOk, tokenRemoveOk), userRemoveOk, tokenRemoveOk)
            == AfterSignOut(s, userRemoveOk, tokenRemoveOk)
  {
  }

  /** After a signOut whose removals all succeeded, another signOut changes
      nothing, whether or not its own removals fail. */
  lemma SignOutAfterCompleteSignOut(s: Session, userRemoveOk: bool, tokenRemoveOk: bool)
    ensures AfterSignOut(AfterSignOut(s, true, true), userRemoveOk, tokenRemoveOk)
            == AfterSignOut(s, true, true)
  {
  }

  /** The state in which a fresh start of the app finds the manager:
      the React state is at its initial values, storage and tags persist. */
  function Restarted(s: Session): (r: Session)
    ensures r.user == None && !r.loading && r.authorization == None
    ensures r.storedUser == s.storedUser && r.storedTokens == s.storedTokens && r.tags == s.tags
  {
    Session(None, false, None, s.storedUser, s.storedTokens, s.tags)
  }

  /** Round trip: a signIn whose saves succeed is restored by loadUserData
      after a restart, with the same user and the same header. */
  lemma SignInSurvivesRestart(s: Session, email: string, data: SessionsResponse)
    requires Accepted(data)
    ensures var signedIn := AfterSignIn(s, email, Responded(data), true, true);
            var restored := AfterLoadUserData(Restarted(signedIn), true, true);
            && restored.user == signedIn.user
            && restored.authorization == signedIn.authorization
            && LoggedIn(restored.user) == LoggedIn(data.user)
  {
  }

  /** loadUserData does not check that a token was stored: a stored user
      without a token pair is restored with the header "Bearer undefined". */
  lemma RestoreWithoutToken(s: Session)
    requires s.storedUser.Some? && s.storedTokens.None?
    ensures var r := AfterLoadUserData(s, true, true);
            r.user == s.storedUser && r.authorization == Some("Bearer undefined")
  {
    assert BearerHeader(StoredTokenText(s.storedTokens)) == "Bearer undefined";
  }

  /**
   * The session manager: the React state `user` and
   * `isLoadingUserStorageData`, the API client's global `Authorization`
   * header, the two storage records and the OneSignal user it tags.
   */
  class AuthSession {
    var user: Option<User>
    var isLoadingUserStorageData: bool
    var authorization: Option<string>
    var storedUser: Option<User>
    var storedTokens: Option<TokenPair>
    const oneSignal: TagStore

    function State(): (state: Session)
      reads this, oneSignal
    {
      Session(user, isLoadingUserStorageData, authorization, storedUser, storedTokens, oneSignal.tags)
    }

    /** The provider mounts with an empty user and the flag down; storage
        and tags keep what earlier runs of the app left there. */
    constructor (persistedUser: Option<User>, persistedTokens: Option<TokenPair>, tagStore: TagStore)
      ensures oneSignal == tagStore
      ensures State() == Session(None, false, None, persistedUser, persistedTokens, tagStore.tags)
    {
      user := None;
      isLoadingUserStorageData := false;
      authorization := None;
      storedUser := persistedUser;
      storedTokens := persistedTokens;
      oneSignal := tagStore;
    }

    method UserAndTokenUpdate(userData: User, token: string)
      modifies this
      ensures State() == AfterUserAndTokenUpdate(old(State()), userData, token)
    {
      authorization := Some(BearerHeader(token));
      user := Some(userData);
    }

    method UserAndTokenSaveAtStorage(userData: User, token: string, refreshToken: string,
                                     tokenSaveOk: bool, userSaveOk: bool)
      modifies this
      ensures State() == AfterUserAndTokenSave(old(State()), userData, token, refreshToken, tokenSaveOk, userSaveOk)
    {
      if tokenSaveOk {
        storedTokens := Some(TokenPair(token, refreshToken));
        if userSaveOk {
          storedUser := Some(userData);
        }
      }
    }

    method SignIn(email: string, outcome: PostOutcome, tokenSaveOk: bool, userSaveOk: bool)
      modifies this, oneSignal
      ensures State() == AfterSignIn(old(State()), email, outcome, tokenSaveOk, userSaveOk)
    {
      isLoadingUserStorageData := true;
      if outcome.Responded? && Accepted(outcome.data) {
        var data := outcome.data;
        UserAndTokenUpdate(data.user.value, data.token.value);
        UserAndTokenSaveAtStorage(data.user.value, data.token.value, data.refreshToken.value,
                                  tokenSaveOk, userSaveOk);
        oneSignal.AddTagUserLogged(email);
      }
      isLoadingUserStorageData := false;
    }

    method SignOut(userRemoveOk: bool, tokenRemoveOk: bool)
      modifies this, oneSignal
      ensures State() == AfterSignOut(old(State()), userRemoveOk, tokenRemoveOk)
    {
      isLoadingUserStorageData := true;
      user := None;
      if userRemoveOk {
        storedUser := None;
        if tokenRemoveOk {
          storedTokens := None;
          oneSignal.RemoveTagUserLogged();
        }
      }
      isLoadingUserStorageData := false;
    }

    method UpdateUserProfile(userUpdated: User, saveOk: bool)
      modifies this
      ensures State() == AfterUpdateUserProfile(old(State()), userUpdated, saveOk)
    {
      user := Some(userUpdated);
      if saveOk {
        storedUser := Some(userUpdated);
      }
    }

    method LoadUserData(userReadOk: bool, tokenReadOk: bool)
      modifies this
      ensures State() == AfterLoadUserData(old(State()), userReadOk, tokenReadOk)
    {
      isLoadingUserStorageData := true;
      if userReadOk {
        var userLogged := storedUser;
        if tokenReadOk {
          var token := StoredTokenText(storedTokens);
          if userLogged.Some? {
            UserAndTokenUpdate(userLogged.value, token);
          }
        }
      }
      isLoadingUserStorageData := false;
    }
  }
}
