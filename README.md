# Session manager of the ignite-gym mobile app, in Dafny

This project models the authentication context of the ignite-gym mobile
client (`mobile/src/contexts/AuthContext.tsx`) and the OneSignal tag helpers
it calls (`mobile/src/notifications/oneSignal.ts`).

The session manager keeps six pieces of state:
- the in-memory `user`, where the empty object `{}` means "logged out";
- the `isLoadingUserStorageData` flag;
- the API client's global `Authorization` header;
- the persisted user record;
- the persisted `(token, refresh_token)` pair;
- the OneSignal user's tags.

It offers `signIn`, `signOut`, `updateUserProfile` and the boot-time restore
`loadUserData`, and two internal helpers, `userAndTokenUpdate` and
`userAndTokenSaveAtStorage`.

Files:
- `wrappers.dfy`: the `Option` type, which stands for a JavaScript value that may be `undefined`.
- `one_signal.dfy` (module `OneSignalTags`): the tag store as a class `TagStore` with a `map<string, string>` field. Each of the four helpers is a method. Each method is specified by a pure function on the map.
- `auth_context.dfy` (module `AuthContext`): the class `AuthSession`, with one field per piece of state and one method per operation. Each method has the postcondition `State() == After…(old(State()), …)`. The `After…` functions describe the new state of a `Session` value, and their contracts state what the source promises.
- `session_runs.dfy` (module `SessionRuns`): sequences of operations (`Run`) and the properties that hold along every sequence, proved by induction.

Things that happen outside the model come in as parameters:
- the server's answer to `POST /sessions`, or the fact that the request threw;
- whether each storage call succeeded.

The source swallows every exception with an empty `catch`. In the model, a failed storage call is a branch that skips the rest of its `try` block. A failed save or removal leaves that record as it was.

JavaScript truthiness is modelled explicitly:
- `signIn` accepts a response only when `user` is present and both `token` and `refresh_token` are present and non-empty.
- "Logged in" means `user.id` is non-empty, which is the test the router makes (`mobile/src/routes/index.tsx:36`).
- `loadUserData` passes on the token it read without checking it, and `userAndTokenUpdate` builds the header from it with a template literal. With no stored token pair, the header becomes `"Bearer undefined"`.

The code has:
- no `Authenticating` state;
- no in-flight guard against concurrent calls other than the loading flag, which no operation reads;
- no surfaced storage errors;
- a restore that accepts a stored user without tokens;
- an `updateUserProfile` that replaces the user whole and does not check that anyone is logged in.

The lemmas `RestoreWithoutToken` and `PartialSessionRestored` exhibit the consequences of the restore, and `UpdateWhileLoggedOutHasNoHeader` those of the unchecked profile update. The code also sets the tag `user_not_logged` on login, and the model keeps that name.

## Model

| member | source | states |
|---|---|---|
| OneSignalTags.WithUserLoggedTag | mobile/src/notifications/oneSignal.ts:11-13 | `user_not_logged` maps to the e-mail; the key set grows by that key only; every other tag keeps its value |
| OneSignalTags.WithoutUserLoggedTag | mobile/src/notifications/oneSignal.ts:15-17 | only the key `user_not_logged` is removed; remaining tags keep their values |
| OneSignalTags.WithLastExerciseTag | mobile/src/notifications/oneSignal.ts:3-5 | `last_exercise` maps to the date; other tags unchanged |
| OneSignalTags.WithoutLastExerciseTag | mobile/src/notifications/oneSignal.ts:7-9 | only the misspelt key `last_exericise` is removed, so an existing `last_exercise` tag keeps its value |
| OneSignalTags.LoggedTagAddThenRemove | mobile/src/notifications/oneSignal.ts:11-17 | adding then removing the logged tag leaves `user_not_logged` absent and equals removing alone |
| OneSignalTags.LastExerciseTagSurvivesRemoval | mobile/src/notifications/oneSignal.ts:3-9 | after create-then-remove, `last_exercise` still maps to the date |
| OneSignalTags.TagStore.CreateTagAboutLastExerciseOfUser | mobile/src/notifications/oneSignal.ts:3-5 | the tag map becomes `WithLastExerciseTag` of the old one |
| OneSignalTags.TagStore.RemoveTagAboutLastExerciseOfUser | mobile/src/notifications/oneSignal.ts:7-9 | the tag map becomes `WithoutLastExerciseTag` of the old one |
| OneSignalTags.TagStore.AddTagUserLogged | mobile/src/notifications/oneSignal.ts:11-13 | the tag map becomes `WithUserLoggedTag` of the old one |
| OneSignalTags.TagStore.RemoveTagUserLogged | mobile/src/notifications/oneSignal.ts:15-17 | the tag map becomes `WithoutUserLoggedTag` of the old one |
| AuthContext.Accepted | mobile/src/contexts/AuthContext.tsx:43 | definition: the guard `data.user && data.token && data.refresh_token` under JavaScript truthiness (the user present, both tokens present and non-empty) |
| AuthContext.LoggedIn | mobile/src/routes/index.tsx:36 | definition: the router's `user.id ?` test, with the empty user `{}` as None |
| AuthContext.StoredTokenText | mobile/src/contexts/AuthContext.tsx:78-81 | definition: the text the template literal gives for the token read back from storage, `"undefined"` when no pair is stored |
| AuthContext.AfterUserAndTokenUpdate | mobile/src/contexts/AuthContext.tsx:27-30 | the user is the given one, the header is `"Bearer " + token`, nothing else changes |
| AuthContext.AfterUserAndTokenSave | mobile/src/contexts/AuthContext.tsx:32-37 | a successful token save stores the pair; the user is stored only if both saves succeed; a failed token save changes nothing, skipping the user save; only storage changes |
| AuthContext.AfterSignIn | mobile/src/contexts/AuthContext.tsx:39-52 | an accepted response sets the user to the response's user and the header to `"Bearer " + token`, and tags the e-mail, even when storage fails; the tokens and the user are stored when their saves succeed; a rejected response or a thrown request changes nothing but the loading flag; the flag ends false |
| AuthContext.AfterSignOut | mobile/src/contexts/AuthContext.tsx:54-65 | the user is always cleared and the flag ends false; the header never changes; on full success both records are gone and the logged tag is removed; a failed user removal skips token and tag removal; a failed token removal skips tag removal |
| AuthContext.AfterUpdateUserProfile | mobile/src/contexts/AuthContext.tsx:67-72 | the user becomes the given one, and so does the stored user if the save succeeds; header, tokens, tags and flag unchanged |
| AuthContext.AfterLoadUserData | mobile/src/contexts/AuthContext.tsx:74-88 | with both reads succeeding and a stored user, the user is restored and the header is `"Bearer "` + the stored token, which is not checked; otherwise only the flag changes; storage and tags never change; the flag ends false |
| AuthContext.SignOutIdempotent | mobile/src/contexts/AuthContext.tsx:54-65 | signing out twice with the same storage outcomes gives the same state as once |
| AuthContext.SignOutAfterCompleteSignOut | mobile/src/contexts/AuthContext.tsx:54-65 | after a fully successful sign-out, another sign-out changes nothing, even if its removals fail |
| AuthContext.Restarted | mobile/src/contexts/AuthContext.tsx:24-25 | a relaunch starts with an empty user, the flag down and no header; storage and tags persist |
| AuthContext.SignInSurvivesRestart | mobile/src/contexts/AuthContext.tsx:39-88 | after a sign-in whose saves succeed, a relaunch and a restore give back the same user and the same header |
| AuthContext.RestoreWithoutToken | mobile/src/contexts/AuthContext.tsx:77-82 | a stored user with no stored token pair is restored with the header `"Bearer undefined"` |
| AuthContext.AuthSession.constructor | mobile/src/contexts/AuthContext.tsx:24-25 | the provider starts with an empty user, the flag false and no header, over the persisted records and tags |
| AuthContext.AuthSession.UserAndTokenUpdate | mobile/src/contexts/AuthContext.tsx:27-30 | sets the header and then the user, as `AfterUserAndTokenUpdate` |
| AuthContext.AuthSession.UserAndTokenSaveAtStorage | mobile/src/contexts/AuthContext.tsx:32-37 | saves the tokens and then the user, swallowing a failure, as `AfterUserAndTokenSave` |
| AuthContext.AuthSession.SignIn | mobile/src/contexts/AuthContext.tsx:39-52 | updates the fields and the tag store as `AfterSignIn` |
| AuthContext.AuthSession.SignOut | mobile/src/contexts/AuthContext.tsx:54-65 | updates the fields and the tag store as `AfterSignOut` |
| AuthContext.AuthSession.UpdateUserProfile | mobile/src/contexts/AuthContext.tsx:67-72 | updates the fields as `AfterUpdateUserProfile` |
| AuthContext.AuthSession.LoadUserData | mobile/src/contexts/AuthContext.tsx:74-88 | updates the fields as `AfterLoadUserData` |
| SessionRuns.SignOutClearsEverything | mobile/src/contexts/AuthContext.tsx:54-65 | after any sequence of operations ending in a sign-out whose removals succeed, no user is in memory or storage, no tokens are stored, the logged tag is absent, and the header is as before the sign-out |
| SessionRuns.StepKeepsSettled | mobile/src/contexts/AuthContext.tsx:27-88 | every operation preserves the following: the loading flag is down, a stored token pair has two non-empty tokens, and a set header starts with `"Bearer "` |
| SessionRuns.RunKeepsSettled | mobile/src/contexts/AuthContext.tsx:27-88 | the same invariant holds after every sequence of operations |
| SessionRuns.OtherTagsUntouched | mobile/src/notifications/oneSignal.ts:1-17 | no sequence of operations adds, removes or changes a tag other than the three keys the helpers name |
| SessionRuns.AllowedRunKeepsHeader | mobile/src/contexts/AuthContext.tsx:27-88 | if the profile is updated only while logged in, as the router ensures, a logged-in user always has a header |
| SessionRuns.UpdateWhileLoggedOutHasNoHeader | mobile/src/contexts/AuthContext.tsx:67-72 | without that guard, updating the profile while logged out gives a logged-in user with no header |
| SessionRuns.PartialSessionRestored | mobile/src/contexts/AuthContext.tsx:32-88 | there is an allowed sequence that restores a user with no stored tokens and the header `"Bearer undefined"`: a sign-in whose token save fails, a profile save, a relaunch, then a restore |
| SessionRuns.FreshSignIn | mobile/src/contexts/AuthContext.tsx:39-52 | on a fresh install, a complete response for `a@b.com` with tokens `t1` and `r1` logs the user in, stores both records, sets the header `"Bearer t1"` and the tag `user_not_logged` to `a@b.com` |

## Left out

- The `POST /sessions` request and the password: the password is only sent to the server, so `signIn` takes the request's outcome as a parameter instead.
- The interceptor manager (`AuthContext.tsx:94-100`): the effect only defines `subscribe`, which would register `signOut`, and calls it in its cleanup, which with an empty dependency list runs when the provider unmounts. While the app runs, `signOut` is therefore never registered, and the interceptor code is not part of this model. The `SignOut` operation stands for any call of `signOut`, not for a forced logout that the code as written would deliver.
- The header's logout button reads `singOut` from the context (`mobile/src/components/HomeHeader.tsx:11`), a name the context does not provide, so that button does not call `signOut`. The header component is not part of this model.
- Token refresh, concurrent 401 responses and the interleaving of asynchronous calls: each operation is modelled as one sequential method.
- The storage modules `@storage/storageUser` and `@storage/storageAuthToken` are not part of this model. Each record is an optional field, and success or failure is a parameter. The model assumes three things about them:
  - a failed save or removal leaves the record unchanged;
  - reading the token with nothing stored yields an `undefined` token, not a throw. A throwing read is the `tokenReadOk = false` branch.
  - reading the user with nothing stored yields `null` or `undefined`, not an empty object, so `if(userLogged)` is false exactly when no user is stored. A throwing read is the `userReadOk = false` branch.
- Failures of the OneSignal calls: they are fire-and-forget and modelled as always taking effect.
- The React machinery (`useState`, `useEffect`, the context provider) and the value of the loading flag while an operation is running: the model shows the flag only between operations.
- The screens, routes, header component and `App.tsx`. Only the router's "`user.id` non-empty" test is used, as `LoggedIn`.
