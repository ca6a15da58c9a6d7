/**
 * The push-notification tag helpers of mobile/src/notifications/oneSignal.ts.
 * The OneSignal user's tags are an external key-value store; each helper
 * adds or removes one key of it and returns nothing.
 */
module OneSignalTags {

  /** The key that createTagAboutLastExerciseOfUser sets. */
  const LastExerciseKey: string := "last_exercise"

  /** The key that removeTagAboutLastExerciseOfUser removes: it is spelt
      differently from LastExerciseKey, so it never removes that tag. */
  const LastExerciseRemovedKey: string := "last_exericise"

  /** The key set to the e-mail on login and removed on logout. */
  const UserLoggedKey: string := "user_not_logged"

  /** The tags after addTagUserLogged(email). */
  function WithUserLoggedTag(tags: map<string, string>, email: string): (r: map<string, string>)
    ensures UserLoggedKey in r && r[UserLoggedKey] == email
    ensures r.Keys == tags.Keys + {UserLoggedKey}
    ensures forall k :: k in tags && k != UserLoggedKey ==> r[k] == tags[k]
  {
    tags[UserLoggedKey := email]
  }

  /** The tags after removeTagUserLogged(). */
  function WithoutUserLoggedTag(tags: map<string, string>): (r: map<string, string>)
    ensures r.Keys == tags.Keys - {UserLoggedKey}
    ensures forall k :: k in r ==> r[k] == tags[k]
  {
    tags - {UserLoggedKey}
  }

  /** The tags after createTagAboutLastExerciseOfUser(date). */
  function WithLastExerciseTag(tags: map<string, string>, date: string): (r: map<string, string>)
    ensures LastExerciseKey in r && r[LastExerciseKey] == date
    ensures r.Keys == tags.Keys + {LastExerciseKey}
    ensures forall k :: k in tags && k != LastExerciseKey ==> r[k] == tags[k]
  {
    tags[LastExerciseKey := date]
  }

  /** The tags after removeTagAboutLastExerciseOfUser(): only the misspelt
      key goes, so the tag set by createTagAboutLastExerciseOfUser stays. */
  function WithoutLastExerciseTag(tags: map<string, string>): (r: map<string, string>)
    ensures r.Keys == tags.Keys - {LastExerciseRemovedKey}
    ensures LastExerciseKey in tags ==> LastExerciseKey in r && r[LastExerciseKey] == tags[LastExerciseKey]
    ensures forall k :: k in r ==> r[k] == tags[k]
  {
    tags - {LastExerciseRemovedKey}
  }

  /** Adding the logged tag and then removing it leaves the key absent and
      the other tags as removing alone would. */
  lemma LoggedTagAddThenRemove(tags: map<string, string>, email: string)
    ensures UserLoggedKey !in WithoutUserLoggedTag(WithUserLoggedTag(tags, email))
    ensures WithoutUserLoggedTag(WithUserLoggedTag(tags, email)) == WithoutUserLoggedTag(tags)
  {
  }

  /** Creating the last-exercise tag and then calling the removal helper
      leaves the tag in place, with the date. */
  lemma LastExerciseTagSurvivesRemoval(tags: map<string, string>, date: string)
    ensures LastExerciseKey in WithoutLastExerciseTag(WithLastExerciseTag(tags, date))
    ensures WithoutLastExerciseTag(WithLastExerciseTag(tags, date))[LastExerciseKey] == date
  {
  }

  /** The OneSignal user: its tag map, updated in place by the four helpers. */
  class TagStore {
    var tags: map<string, string>

    constructor (initial: map<string, string>)
      ensures tags == initial
    {
      tags := initial;
    }

    method CreateTagAboutLastExerciseOfUser(date: string)
      modifies this
      ensures tags == WithLastExerciseTag(old(tags), date)
    {
      tags := tags[LastExerciseKey := date];
    }

    method RemoveTagAboutLastExerciseOfUser()
      modifies this
      ensures tags == WithoutLastExerciseTag(old(tags))
    {
      tags := tags - {LastExerciseRemovedKey};
    }

    method AddTagUserLogged(email: string)
      modifies this
      ensures tags == WithUserLoggedTag(old(tags), email)
    {
      tags := tags[UserLoggedKey := email];
    }

    method RemoveTagUserLogged()
      modifies this
      ensures tags == WithoutUserLoggedTag(old(tags))
    {
      tags := tags - {UserLoggedKey};
    }
  }
}
