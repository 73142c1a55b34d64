/** The user profile and activity store: role permissions, per-user statistics, the
    login counter and an activity log capped at the most recent entries.  The two JSON
    files the manager loads and saves on every call are the two maps it holds; the
    current time is a parameter of every operation that stamps a record. */
module UserProfile {
  import opened Common

  // ---------------------------------------------------------------------------
  // Records
  // ---------------------------------------------------------------------------

  datatype Preferences = Preferences(
    theme: string,
    dashboardLayout: string,
    notifications: bool,
    autoRefresh: bool,
    defaultView: string)

  datatype Profile = Profile(
    userId: string,
    email: string,
    role: string,
    createdAt: string,
    lastLogin: string,
    preferences: Preferences,
    permissions: seq<string>,
    stats: map<string, int>,
    updatedAt: Option<string>)

  /** The keys an `update_profile` call may carry; an absent key leaves the field as it was. */
  datatype ProfileUpdate = ProfileUpdate(
    email: Option<string>,
    role: Option<string>,
    preferences: Option<Preferences>,
    permissions: Option<seq<string>>)

  datatype Activity = Activity(timestamp: string, kind: string, details: map<string, string>)

  /** `profiles[user_id]["stats"]["login_count"] += 1` on a profile whose stats lack the key. */
  datatype ProfileError = KeyError(key: string)

  const LoginCount: string := "login_count"
  const PredictionsMade: string := "predictions_made"
  const DisastersProcessed: string := "disasters_processed"
  const ResourcesAllocated: string := "resources_allocated"

  /** How many activities are kept per user. */
  const ActivityCap: nat := 100

  /** How many activities `get_user_activity` returns when no limit is given. */
  const DefaultActivityLimit: int := 50

  const DefaultPreferences: Preferences := Preferences("light", "default", true, true, "dashboard")

  // ---------------------------------------------------------------------------
  // `_get_role_permissions`
  // ---------------------------------------------------------------------------

  const AdminPermissions: seq<string> := [
    "view_dashboard", "make_predictions", "bulk_processing",
    "view_analytics", "manage_users", "export_data",
    "system_settings", "view_all_activities"]

  const ManagerPermissions: seq<string> := [
    "view_dashboard", "make_predictions", "bulk_processing",
    "view_analytics", "export_data", "view_team_activities"]

  const UserPermissions: seq<string> := ["view_dashboard", "make_predictions", "view_analytics"]

  /** The permissions of a role; a role the table does not know gets those of "user". */
  function RolePermissions(role: string): (perms: seq<string>)
    ensures role == "admin" ==> |perms| == 8
    ensures role == "manager" ==> |perms| == 6
    ensures role != "admin" && role != "manager" ==> perms == UserPermissions && |perms| == 3
    ensures forall p :: p in UserPermissions ==> p in perms
    ensures "manage_users" in perms <==> role == "admin"
    ensures "view_team_activities" in perms <==> role == "manager"
    ensures "bulk_processing" in perms <==> role == "admin" || role == "manager"
    ensures NoDuplicates(perms)
  {
    if role == "admin" then AdminPermissions
    else if role == "manager" then ManagerPermissions
    else UserPermissions
  }

  // ---------------------------------------------------------------------------
  // `create_profile`
  // ---------------------------------------------------------------------------

  /** The statistics of a new profile: every counter at zero except one login. */
  function InitialStats(): (stats: map<string, int>)
    ensures stats.Keys == {PredictionsMade, DisastersProcessed, ResourcesAllocated, LoginCount}
    ensures forall k :: k in stats ==> stats[k] == (if k == LoginCount then 1 else 0)
  {
    map[PredictionsMade := 0, DisastersProcessed := 0, ResourcesAllocated := 0, LoginCount := 1]
  }

  function NewProfile(userId: string, email: string, role: string, now: string): (p: Profile)
    ensures p.userId == userId && p.email == email && p.role == role
    ensures p.createdAt == now && p.lastLogin == now && p.updatedAt == None
    ensures p.preferences == DefaultPreferences
    ensures p.permissions == RolePermissions(role)
    ensures p.stats == InitialStats()
  {
    Profile(userId, email, role, now, now, DefaultPreferences, RolePermissions(role), InitialStats(), None)
  }

  // ---------------------------------------------------------------------------
  // `update_profile` and `update_last_login`
  // ---------------------------------------------------------------------------

  /** `dict.update(updates)` followed by stamping `updated_at`. */
  function Merged(p: Profile, u: ProfileUpdate, now: string): (q: Profile)
    ensures q.email == u.email.GetOr(p.email) && q.role == u.role.GetOr(p.role)
    ensures q.preferences == u.preferences.GetOr(p.preferences)
    ensures q.permissions == u.permissions.GetOr(p.permissions)
    ensures q.updatedAt == Some(now)
    ensures q.userId == p.userId && q.createdAt == p.createdAt && q.lastLogin == p.lastLogin
    ensures q.stats == p.stats
  {
    p.(email := u.email.GetOr(p.email),
       role := u.role.GetOr(p.role),
       preferences := u.preferences.GetOr(p.preferences),
       permissions := u.permissions.GetOr(p.permissions),
       updatedAt := Some(now))
  }

  /** A login: the time of the last login moves to `now` and the login counter goes up
      by one; a profile without the counter raises `KeyError`. */
  function LoggedIn(p: Profile, now: string): (r: Result<Profile, ProfileError>)
    ensures r.Success? <==> LoginCount in p.stats
    ensures r.Failure? ==> r.error == KeyError(LoginCount)
    ensures r.Success? ==> r.value.stats.Keys == p.stats.Keys
    ensures r.Success? ==> r.value.stats[LoginCount] == p.stats[LoginCount] + 1
    ensures r.Success? ==> forall k :: k in p.stats && k != LoginCount ==> r.value.stats[k] == p.stats[k]
    ensures r.Success? ==> r.value == p.(lastLogin := now, stats := r.value.stats)
  {
    if LoginCount in p.stats then
      Success(p.(lastLogin := now, stats := p.stats[LoginCount := p.stats[LoginCount] + 1]))
    else
      Failure(KeyError(LoginCount))
  }

  /** One login for each of the given times, in order. */
  function AfterLogins(p: Profile, times: seq<string>): Result<Profile, ProfileError>
    decreases |times|
  {
    if times == [] then Success(p)
    else
      match LoggedIn(p, times[0])
      case Failure(e) => Failure(e)
      case Success(q) => AfterLogins(q, times[1..])
  }

  /** Each login adds exactly one to the counter and leaves the other statistics alone. */
  lemma {:induction false} LoginsAreCounted(p: Profile, times: seq<string>)
    requires LoginCount in p.stats
    ensures AfterLogins(p, times).Success?
    ensures AfterLogins(p, times).value.stats.Keys == p.stats.Keys
    ensures AfterLogins(p, times).value.stats[LoginCount] == p.stats[LoginCount] + |times|
    ensures forall k :: k in p.stats && k != LoginCount ==> AfterLogins(p, times).value.stats[k] == p.stats[k]
    ensures times != [] ==> AfterLogins(p, times).value.lastLogin == times[|times| - 1]
    decreases |times|
  {
    if times != [] {
      var q := LoggedIn(p, times[0]).value;
      LoginsAreCounted(q, times[1..]);
      if |times| > 1 {
        assert times[1..][|times[1..]| - 1] == times[|times| - 1];
      }
    }
  }

  /** A new profile that logs in n more times has counted n + 1 logins. */
  lemma NewProfileCountsLogins(userId: string, email: string, role: string, now: string, times: seq<string>)
    ensures var r := AfterLogins(NewProfile(userId, email, role, now), times);
      && r.Success?
      && r.value.stats.Keys == InitialStats().Keys
      && r.value.stats[LoginCount] == 1 + |times|
      && r.value.stats[PredictionsMade] == 0
  {
    LoginsAreCounted(NewProfile(userId, email, role, now), times);
  }

  // ---------------------------------------------------------------------------
  // `increment_stat`
  // ---------------------------------------------------------------------------

  /** The statistics after adding `amount` to `name`; a missing statistic starts at `amount`. */
  function WithStat(stats: map<string, int>, name: string, amount: int): (r: map<string, int>)
    ensures r.Keys == stats.Keys + {name}
    ensures r[name] == (if name in stats then stats[name] else 0) + amount
    ensures forall k :: k in stats && k != name ==> r[k] == stats[k]
  {
    if name in stats then stats[name := stats[name] + amount] else stats[name := amount]
  }

  /** Two increments of one statistic add up. */
  lemma IncrementsAccumulate(stats: map<string, int>, name: string, a: int, b: int)
    ensures WithStat(WithStat(stats, name, a), name, b) == WithStat(stats, name, a + b)
  {
    var left := WithStat(WithStat(stats, name, a), name, b);
    var right := WithStat(stats, name, a + b);
    assert left.Keys == right.Keys;
    forall k | k in left ensures left[k] == right[k] {
    }
  }

  /** Increments of different statistics commute. */
  lemma IncrementsCommute(stats: map<string, int>, m: string, a: int, n: string, b: int)
    requires m != n
    ensures WithStat(WithStat(stats, m, a), n, b) == WithStat(WithStat(stats, n, b), m, a)
  {
    var left := WithStat(WithStat(stats, m, a), n, b);
    var right := WithStat(WithStat(stats, n, b), m, a);
    assert left.Keys == right.Keys;
    forall k | k in left ensures left[k] == right[k] {
    }
  }

  // ---------------------------------------------------------------------------
  // `log_activity` and `get_user_activity`
  // ---------------------------------------------------------------------------

  /** A user's stored activities, `[]` when there are none. */
  function HistoryOf(log: map<string, seq<Activity>>, userId: string): seq<Activity>
  {
    if userId in log then log[userId] else []
  }

  /** The history after appending one entry and keeping the most recent `ActivityCap`. */
  function Trimmed(history: seq<Activity>, entry: Activity): (r: seq<Activity>)
    ensures |r| == Min(|history| + 1, ActivityCap)
    ensures r == (history + [entry])[|history| + 1 - |r|..]
    ensures r[|r| - 1] == entry
    ensures |history| < ActivityCap ==> r == history + [entry]
  {
    var all := history + [entry];
    all[|all| - Min(|all|, ActivityCap)..]
  }

  /** The history after logging the given entries one after the other. */
  function Replay(history: seq<Activity>, entries: seq<Activity>): seq<Activity>
    decreases |entries|
  {
    if entries == [] then history else Replay(Trimmed(history, entries[0]), entries[1..])
  }

  /** Logging is a sliding window: after any non-empty run of entries the log holds the
      most recent `ActivityCap` of everything logged, oldest first. */
  lemma {:induction false} ReplayKeepsMostRecent(history: seq<Activity>, entries: seq<Activity>)
    requires entries != []
    ensures var all := history + entries;
      Replay(history, entries) == all[|all| - Min(|all|, ActivityCap)..]
    decreases |entries|
  {
    var a := history + [entries[0]];
    var t := Trimmed(history, entries[0]);
    var rest := entries[1..];
    assert a + rest == history + entries;
    assert Replay(history, entries) == Replay(t, rest);
    if rest == [] {
      assert a == history + entries;
    } else {
      ReplayKeepsMostRecent(t, rest);
      var n := Min(|t| + |rest|, ActivityCap);
      WindowLength(|history|, |t|, |rest|);
      assert Replay(t, rest) == (t + rest)[|t| + |rest| - n..];
      SuffixThenAppend(a, t, rest, n);
    }
  }

  /** The window after the first entry, extended by the rest, is as long as the window
      over everything. */
  lemma WindowLength(h: nat, t: nat, rest: nat)
    requires t == Min(h + 1, ActivityCap)
    ensures Min(t + rest, ActivityCap) == Min(h + 1 + rest, ActivityCap)
  {
  }

  /** Appending to a suffix and cutting a suffix of the result is cutting the same
      suffix of the whole. */
  lemma SuffixThenAppend(a: seq<Activity>, t: seq<Activity>, b: seq<Activity>, n: nat)
    requires |t| <= |a| && t == a[|a| - |t|..]
    requires n <= |t| + |b|
    ensures (t + b)[|t| + |b| - n..] == (a + b)[|a| + |b| - n..]
  {
    var left := (t + b)[|t| + |b| - n..];
    var right := (a + b)[|a| + |b| - n..];
    forall i | 0 <= i < n ensures left[i] == right[i] {
      var j := |t| + |b| - n + i;
      if j < |t| {
        assert (t + b)[j] == t[j] == a[|a| - |t| + j];
      } else {
        assert (t + b)[j] == b[j - |t|];
      }
    }
  }

  /** Python's `s[start:]` with only a start bound: a negative start counts from the end,
      and either way it is clamped to the sequence. */
  function SliceFrom(s: seq<Activity>, start: int): seq<Activity>
  {
    if start >= 0 then s[Min(start, |s|)..] else s[Max(0, |s| + start)..]
  }

  /** `activities[-limit:] if activities else []`. */
  function Recent(history: seq<Activity>, limit: int): (r: seq<Activity>)
    ensures |r| <= |history| && r == history[|history| - |r|..]
    ensures limit > 0 ==> |r| == Min(limit, |history|)
    ensures limit == 0 ==> r == history
    ensures limit < 0 ==> |r| == Max(0, |history| + limit)
  {
    if history == [] then [] else SliceFrom(history, -limit)
  }

  /** The default limit gives the 50 most recent activities, all of them when fewer. */
  lemma DefaultLimitGivesFifty(history: seq<Activity>)
    ensures |history| >= 50 ==> Recent(history, DefaultActivityLimit) == history[|history| - 50..]
    ensures |history| < 50 ==> Recent(history, DefaultActivityLimit) == history
  {
  }

  // ---------------------------------------------------------------------------
  // `has_permission`
  // ---------------------------------------------------------------------------

  /** A user holds a permission when a profile exists and lists it. */
  predicate Permitted(profiles: map<string, Profile>, userId: string, permission: string)
  {
    userId in profiles && permission in profiles[userId].permissions
  }

  /** Right after `create_profile` the user holds exactly the permissions of the role. */
  lemma CreatedProfileHasRolePermissions(profiles: map<string, Profile>, userId: string, email: string,
                                          role: string, now: string, permission: string)
    ensures Permitted(profiles[userId := NewProfile(userId, email, role, now)], userId, permission)
        <==> permission in RolePermissions(role)
    ensures Permitted(profiles[userId := NewProfile(userId, email, role, now)], userId, "manage_users")
        <==> role == "admin"
  {
  }

  /** The admin panel's role change (`role` and `permissions` from the table) gives the
      user exactly the permissions of the new role and keeps the statistics. */
  lemma RoleChangeGrantsRolePermissions(p: Profile, newRole: string, now: string, permission: string)
    ensures var q := Merged(p, ProfileUpdate(None, Some(newRole), None, Some(RolePermissions(newRole))), now);
      && q.role == newRole
      && (permission in q.permissions <==> permission in RolePermissions(newRole))
      && q.stats == p.stats
  {
  }

  // ---------------------------------------------------------------------------
  // The manager
  // ---------------------------------------------------------------------------

  class UserProfileManager {
    /** The contents of `user_profiles.json`. */
    var profiles: map<string, Profile>
    /** The contents of `user_activity.json`. */
    var activity: map<string, seq<Activity>>

    /** Starts from what the two files hold (`{}` for a file that did not exist). */
    constructor(storedProfiles: map<string, Profile>, storedActivity: map<string, seq<Activity>>)
      ensures profiles == storedProfiles && activity == storedActivity
    {
      profiles := storedProfiles;
      activity := storedActivity;
    }

    /** Builds a fresh profile and stores it over any profile with the same id. */
    method CreateProfile(userId: string, email: string, role: string, now: string) returns (p: Profile)
      modifies this
      ensures p == NewProfile(userId, email, role, now)
      ensures profiles == old(profiles)[userId := p]
      ensures activity == old(activity)
    {
      p := Profile(userId, email, role, now, now, DefaultPreferences, RolePermissions(role),
                   map[PredictionsMade := 0, DisastersProcessed := 0, ResourcesAllocated := 0, LoginCount := 1],
                   None);
      profiles := profiles[userId := p];
    }

    function GetProfile(userId: string): (p: Option<Profile>)
      reads this
      ensures p.Some? <==> userId in profiles
      ensures p.Some? ==> p.value == profiles[userId]
    {
      if userId in profiles then Some(profiles[userId]) else None
    }

    /** Merges the updates into an existing profile; an unknown user is left without one. */
    method UpdateProfile(userId: string, updates: ProfileUpdate, now: string)
      modifies this
      ensures userId in old(profiles) ==> profiles == old(profiles)[userId := Merged(old(profiles)[userId], updates, now)]
      ensures userId !in old(profiles) ==> profiles == old(profiles)
      ensures activity == old(activity)
    {
      if userId in profiles {
        var p := profiles[userId];
        p := p.(email := updates.email.GetOr(p.email));
        p := p.(role := updates.role.GetOr(p.role));
        p := p.(preferences := updates.preferences.GetOr(p.preferences));
        p := p.(permissions := updates.permissions.GetOr(p.permissions));
        p := p.(updatedAt := Some(now));
        profiles := profiles[userId := p];
      }
    }

    /** Records a login; the `KeyError` of a profile without a login counter leaves the
        stored profiles as they were. */
    method UpdateLastLogin(userId: string, now: string) returns (r: Result<(), ProfileError>)
      modifies this
      ensures userId !in old(profiles) ==> r.Success? && profiles == old(profiles)
      ensures userId in old(profiles) ==> match LoggedIn(old(profiles)[userId], now)
        case Success(q) => r.Success? && profiles == old(profiles)[userId := q]
        case Failure(e) => r == Failure(e) && profiles == old(profiles)
      ensures activity == old(activity)
    {
      r := Success(());
      if userId in profiles {
        var p := profiles[userId];
        p := p.(lastLogin := now);
        if LoginCount !in p.stats {
          return Failure(KeyError(LoginCount));
        }
        p := p.(stats := p.stats[LoginCount := p.stats[LoginCount] + 1]);
        profiles := profiles[userId := p];
      }
    }

    /** Appends an activity (details `{}` when none are given) and keeps the user's
        `ActivityCap` most recent ones. */
    method LogActivity(userId: string, kind: string, details: Option<map<string, string>>, now: string)
      modifies this
      ensures activity == old(activity)[userId := Trimmed(HistoryOf(old(activity), userId), Activity(now, kind, details.GetOr(map[])))]
      ensures profiles == old(profiles)
    {
      var history := if userId in activity then activity[userId] else [];
      history := history + [Activity(now, kind, details.GetOr(map[]))];
      if |history| > ActivityCap {
        history := history[|history| - ActivityCap..];
      }
      activity := activity[userId := history];
    }

    function GetUserActivity(userId: string, limit: int): (r: seq<Activity>)
      reads this
      ensures r == Recent(HistoryOf(activity, userId), limit)
      ensures userId !in activity ==> r == []
    {
      Recent(HistoryOf(activity, userId), limit)
    }

    /** Adds `amount` to a statistic of an existing profile; nothing for an unknown user. */
    method IncrementStat(userId: string, name: string, amount: int)
      modifies this
      ensures userId in old(profiles) ==>
        profiles == old(profiles)[userId := old(profiles)[userId].(stats := WithStat(old(profiles)[userId].stats, name, amount))]
      ensures userId !in old(profiles) ==> profiles == old(profiles)
      ensures activity == old(activity)
    {
      if userId in profiles {
        var p := profiles[userId];
        if name in p.stats {
          p := p.(stats := p.stats[name := p.stats[name] + amount]);
        } else {
          p := p.(stats := p.stats[name := amount]);
        }
        profiles := profiles[userId := p];
      }
    }

    predicate HasPermission(userId: string, permission: string)
      reads this
      ensures HasPermission(userId, permission) <==> Permitted(profiles, userId, permission)
      ensures userId !in profiles ==> !HasPermission(userId, permission)
    {
      match GetProfile(userId)
      case None => false
      case Some(p) => permission in p.permissions
    }
  }
}
