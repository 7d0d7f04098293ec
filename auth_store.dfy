/**
 * The user store: a single `user` slot that login and register fill with a
 * mock user, logout empties, and updateStats merges new statistics into.
 * The simulated delay and the browser persistence are not modelled.
 */
module Auth {
  import opened Wrappers

  /** User statistics, keyed by name (quizzesCreated, questionsAnswered, accuracy, streak). */
  type Stats = map<string, int>

  datatype User = User(
    id: string,
    email: string,
    name: string,
    tier: string,
    avatar: string,
    joinDate: string,
    stats: Stats)

  /** The statistics every new user starts with. */
  function ZeroStats(): (s: Stats)
    ensures s.Keys == {"quizzesCreated", "questionsAnswered", "accuracy", "streak"}
    ensures forall k :: k in s ==> s[k] == 0
  {
    map["quizzesCreated" := 0, "questionsAnswered" := 0, "accuracy" := 0, "streak" := 0]
  }

  /**
   * `email.split('@')[0]`: the text before the first '@', or the whole email
   * when it has none.
   */
  function NameFromEmail(email: string): (name: string)
    ensures name <= email
    ensures '@' !in name
    ensures |name| < |email| ==> email[|name|] == '@'
  {
    if email == [] || email[0] == '@' then []
    else [email[0]] + NameFromEmail(email[1..])
  }

  /** Any prefix of the email that stops at its first '@' is the derived name (uniqueness). */
  lemma {:induction false} NameFromEmailUnique(email: string, name: string)
    requires name <= email && '@' !in name
    requires |name| < |email| ==> email[|name|] == '@'
    ensures name == NameFromEmail(email)
  {
    if email != [] && email[0] != '@' {
      assert name != [] && name[0] == email[0];
      NameFromEmailUnique(email[1..], name[1..]);
      assert name == [name[0]] + name[1..];
    }
  }

  /** The avatar address built from the email. */
  function AvatarUrl(email: string): string {
    "https://api.dicebear.com/7.x/initials/svg?seed=" + email
  }

  /** The mock user both login and register build; only the name differs between them. */
  function MockUser(email: string, name: string, joinDate: string): (u: User)
    ensures u.email == email && u.name == name && u.id == "1" && u.tier == "free"
    ensures u.stats == ZeroStats() && u.joinDate == joinDate && u.avatar == AvatarUrl(email)
  {
    User("1", email, name, "free", AvatarUrl(email), joinDate, ZeroStats())
  }

  /**
   * `updateStats`: with a user, the new statistics are spread over the old
   * ones; without one, nothing happens.
   */
  function MergeStats(user: Option<User>, newStats: Stats): (r: Option<User>)
    ensures user.None? ==> r.None?
    ensures user.Some? ==> r.Some? && r.value.(stats := user.value.stats) == user.value
    ensures user.Some? ==> r.value.stats.Keys == user.value.stats.Keys + newStats.Keys
    ensures user.Some? ==> forall k :: k in newStats ==> r.value.stats[k] == newStats[k]
    ensures user.Some? ==> forall k :: k in user.value.stats && k !in newStats ==>
      r.value.stats[k] == user.value.stats[k]
  {
    match user
    case None => None
    case Some(u) => Some(u.(stats := u.stats + newStats))
  }

  /** Merging the same statistics twice is the same as merging them once. */
  lemma MergeStatsIdempotent(user: Option<User>, newStats: Stats)
    ensures MergeStats(MergeStats(user, newStats), newStats) == MergeStats(user, newStats)
  {
    if user.Some? {
      var once := MergeStats(user, newStats).value.stats;
      assert once + newStats == once;
    }
  }

  class AuthStore {
    /** The signed-in user, if any. */
    var user: Option<User>

    constructor ()
      ensures user.None?
    {
      user := None;
    }

    /** `login`: the password is not checked; the name is the email's local part. */
    method Login(email: string, password: string, joinDate: string)
      modifies this
      ensures user == Some(MockUser(email, NameFromEmail(email), joinDate))
    {
      user := Some(MockUser(email, NameFromEmail(email), joinDate));
    }

    /** `register`: like login, with the name the user typed. */
    method Register(email: string, password: string, name: string, joinDate: string)
      modifies this
      ensures user == Some(MockUser(email, name, joinDate))
    {
      user := Some(MockUser(email, name, joinDate));
    }

    /** `logout`. */
    method Logout()
      modifies this
      ensures user.None?
    {
      user := None;
    }

    /** `updateStats`. */
    method UpdateStats(newStats: Stats)
      modifies this
      ensures user == MergeStats(old(user), newStats)
    {
      if user.Some? {
        user := Some(user.value.(stats := user.value.stats + newStats));
      }
    }
  }
}
