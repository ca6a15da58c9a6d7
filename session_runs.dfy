/**
 * Sequences of session-manager operations, as the app performs them one
 * after another, and the properties that hold along every such sequence.
 */
module SessionRuns {
  import opened Wrappers
  import opened OneSignalTags
  import opened AuthContext

  /** One operation on the session manager or the tag store, with the
      outcomes of the calls it makes; Restart is a fresh launch of the app. */
  datatype Op =
    | SignIn(email: string, outcome: PostOutcome, tokenSaveOk: bool, userSaveOk: bool)
    | SignOut(userRemoveOk: bool, tokenRemoveOk: bool)
    | UpdateUserProfile(userUpdated: User, saveOk: bool)
    | LoadUserData(userReadOk: bool, tokenReadOk: bool)
    | CreateLastExerciseTag(date: string)
    | RemoveLastExerciseTag
    | Restart

  function Step(s: Session, op: Op): (next: Session) {
    match op
    case SignIn(email, outcome, tokenSaveOk, userSaveOk) => AfterSignIn(s, email, outcome, tokenSaveOk, userSaveOk)
    case SignOut(userRemoveOk, tokenRemoveOk) => AfterSignOut(s, userRemoveOk, tokenRemoveOk)
    case UpdateUserProfile(userUpdated, saveOk) => AfterUpdateUserProfile(s, userUpdated, saveOk)
    case LoadUserData(userReadOk, tokenReadOk) => AfterLoadUserData(s, userReadOk, tokenReadOk)
    case CreateLastExerciseTag(date) => s.(tags := WithLastExerciseTag(s.tags, date))
    case RemoveLastExerciseTag => s.(tags := WithoutLastExerciseTag(s.tags))
    case Restart => Restarted(s)
  }

  /** The state after performing ops in order, starting from s. */
  function Run(s: Session, ops: seq<Op>): (last: Session)
    decreases |ops|
  {
    if ops == [] then s else Run(Step(s, ops[0]), ops[1..])
  }

  /** Running one more operation is one more step after the run. */
  lemma {:induction false} RunAppend(s: Session, ops: seq<Op>, op: Op)
    ensures Run(s, ops + [op]) == Step(Run(s, ops), op)
    decreases |ops|
  {
    if ops == [] {
      assert ops + [op] == [op];
    } else {
      assert (ops + [op])[0] == ops[0];
      assert (ops + [op])[1..] == ops[1..] + [op];
      RunAppend(Step(s, ops[0]), ops[1..], op);
    }
  }

  /** Sign-out clears everything: after any run that ends in a signOut whose
      removals succeed, no user is in memory or in storage, no token pair is
      stored and the logged tag is gone; the header is left as it was. */
  lemma SignOutClearsEverything(s: Session, ops: seq<Op>)
    ensures var r := Run(s, ops + [SignOut(true, true)]);
            && r.user == None && !LoggedIn(r.user)
            && r.storedUser == None && r.storedTokens == None
            && UserLoggedKey !in r.tags
            && r.authorization == Run(s, ops).authorization
  {
    RunAppend(s, ops, SignOut(true, true));
  }

  /** What holds between operations: the loading flag is down, a stored token
      pair has two non-empty tokens, and the header, once set, is a bearer
      header. */
  predicate Settled(s: Session) {
    && !s.loading
    && (s.storedTokens.Some? ==> s.storedTokens.value.token != "" && s.storedTokens.value.refreshToken != "")
    && (s.authorization.Some? ==> "Bearer " <= s.authorization.value)
  }

  lemma StepKeepsSettled(s: Session, op: Op)
    requires Settled(s)
    ensures Settled(Step(s, op))
  {
  }

  /** Every run from a settled state ends settled. */
  lemma {:induction false} RunKeepsSettled(s: Session, ops: seq<Op>)
    requires Settled(s)
    ensures Settled(Run(s, ops))
    decreases |ops|
  {
    if ops != [] {
      StepKeepsSettled(s, ops[0]);
      RunKeepsSettled(Step(s, ops[0]), ops[1..]);
    }
  }

  /** No operation touches a tag other than the three keys the helpers name. */
  lemma {:induction false} OtherTagsUntouched(s: Session, ops: seq<Op>, k: string)
    requires k != UserLoggedKey && k != LastExerciseKey && k != LastExerciseRemovedKey
    ensures k in Run(s, ops).tags <==> k in s.tags
    ensures k in s.tags ==> Run(s, ops).tags[k] == s.tags[k]
    decreases |ops|
  {
    if ops != [] {
      var t := Step(s, ops[0]);
      assert (k in t.tags <==> k in s.tags) && (k in s.tags ==> t.tags[k] == s.tags[k]);
      OtherTagsUntouched(t, ops[1..], k);
    }
  }

  /** The app calls updateUserProfile only from the profile screen, which
      the router shows only to a logged-in user. */
  predicate Allowed(s: Session, op: Op) {
    op.UpdateUserProfile? ==> LoggedIn(s.user)
  }

  predicate AllowedRun(s: Session, ops: seq<Op>)
    decreases |ops|
  {
    ops != [] ==> Allowed(s, ops[0]) && AllowedRun(Step(s, ops[0]), ops[1..])
  }

  /** Whoever is logged in in memory has a header on the API client. */
  predicate HeaderWhenLoggedIn(s: Session) {
    LoggedIn(s.user) ==> s.authorization.Some?
  }

  /** Along every run the app can perform, a logged-in user always has a header. */
  lemma {:induction false} AllowedRunKeepsHeader(s: Session, ops: seq<Op>)
    requires HeaderWhenLoggedIn(s)
    requires AllowedRun(s, ops)
    ensures HeaderWhenLoggedIn(Run(s, ops))
    decreases |ops|
  {
    if ops != [] {
      assert HeaderWhenLoggedIn(Step(s, ops[0]));
      AllowedRunKeepsHeader(Step(s, ops[0]), ops[1..]);
    }
  }

  /** Without that routing guard the header invariant fails: updateUserProfile
      on a logged-out manager logs a user in with no header. */
  lemma UpdateWhileLoggedOutHasNoHeader(s: Session, u: User, saveOk: bool)
    requires s.user == None && s.authorization == None && u.id != ""
    ensures var r := Step(s, UpdateUserProfile(u, saveOk));
            LoggedIn(r.user) && r.authorization == None
  {
  }

  /** A partial session is reachable along an allowed run: a sign-in whose
      token save fails, a profile save, then a restart; the restore logs the
      user back in with the header "Bearer undefined". */
  lemma {:induction false} PartialSessionRestored(s: Session, email: string, data: SessionsResponse)
    requires s.storedTokens.None?
    requires Accepted(data) && LoggedIn(data.user)
    ensures var ops := [SignIn(email, Responded(data), false, true),
                        UpdateUserProfile(data.user.value, true),
                        Restart,
                        LoadUserData(true, true)];
            && AllowedRun(s, ops)
            && Run(s, ops).user == data.user
            && Run(s, ops).storedTokens == None
            && Run(s, ops).authorization == Some("Bearer undefined")
  {
    var ops := [SignIn(email, Responded(data), false, true),
                UpdateUserProfile(data.user.value, true),
                Restart,
                LoadUserData(true, true)];
    var s1 := Step(s, ops[0]);
    var s2 := Step(s1, ops[1]);
    var s3 := Step(s2, ops[2]);
    var s4 := Step(s3, ops[3]);
    assert s2.storedUser == data.user && s2.storedTokens == None;
    assert StoredTokenText(s3.storedTokens) == "undefined";
    assert BearerHeader("undefined") == "Bearer undefined";
    var rest1, rest2, rest3 := ops[1..], ops[2..], ops[3..];
    assert rest1[0] == ops[1] && rest1[1..] == rest2;
    assert rest2[0] == ops[2] && rest2[1..] == rest3;
    assert rest3[0] == ops[3] && rest3[1..] == [];
    assert AllowedRun(s3, rest3) && Run(s3, rest3) == s4;
    assert AllowedRun(s2, rest2) && Run(s2, rest2) == s4;
    assert AllowedRun(s1, rest1) && Run(s1, rest1) == s4;
  }

  /** A first sign-in on a fresh install, answered with a complete session. */
  lemma FreshSignIn()
    ensures var u := User("1", "A", "a@b.com", None);
            var install := Session(None, false, None, None, None, map[]);
            var r := Run(install, [SignIn("a@b.com", Responded(SessionsResponse(Some(u), Some("t1"), Some("r1"))), true, true)]);
            && LoggedIn(r.user) && r.user == Some(u)
            && r.storedUser == Some(u) && r.storedTokens == Some(TokenPair("t1", "r1"))
            && r.authorization == Some("Bearer t1")
            && r.tags == map[UserLoggedKey := "a@b.com"]
  {
    assert BearerHeader("t1") == "Bearer t1";
  }
}
