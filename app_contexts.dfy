/** The frontend's application shell: the notification context, the authentication context
    (`AuthProvider`, `updateProfile`, `signUp`) and `ProtectedRoute`. Supabase calls are
    parameters: what each answers. */
module AppContexts {
  import opened Common

  // ---- notifications ------------------------------------------------------------------

  /** `Omit<Notification, 'id'>`: what a caller hands to `addNotification`. The type is kept as
      the string it is at run time. */
  datatype Notice = Notice(kind: string, title: string, message: Option<string>, duration: Option<int>)

  /** A notification in the list: the caller's fields plus the generated id. */
  datatype Notification = Notification(id: string, kind: string, title: string, message: Option<string>, duration: Option<int>)

  /** A pending `setTimeout(() => removeNotification(id), delayMs)`. */
  datatype Timer = Timer(id: string, delayMs: int)

  /** `{ ...notification, id }`. */
  function WithId(n: Notice, id: string): (r: Notification)
    ensures r.id == id
    ensures r.kind == n.kind && r.title == n.title && r.message == n.message && r.duration == n.duration
  {
    Notification(id, n.kind, n.title, n.message, n.duration)
  }

  /** `notification.duration || 5000`. */
  function AutoRemoveDelay(duration: Option<int>): (r: int)
    ensures duration.None? ==> r == 5000
    ensures duration == Some(0) ==> r == 5000
    ensures duration.Some? && duration.value != 0 ==> r == duration.value
  {
    if duration.Some? && duration.value != 0 then duration.value else 5000
  }

  /** `prev.filter(n => n.id !== id)`. */
  function Without(s: seq<Notification>, id: string): seq<Notification> {
    Filter((n: Notification) => n.id != id, s)
  }

  /** Removal keeps exactly the entries with another id, in their order. */
  lemma WithoutKeepsOthers(s: seq<Notification>, id: string, x: Notification)
    ensures x in Without(s, id) <==> x in s && x.id != id
    ensures IsSubsequence(Without(s, id), s)
  {
    FilterMembership((n: Notification) => n.id != id, s, x);
    FilterIsSubsequence((n: Notification) => n.id != id, s);
  }

  /** Removing an id twice is removing it once. */
  lemma WithoutIdempotent(s: seq<Notification>, id: string)
    ensures Without(Without(s, id), id) == Without(s, id)
  {
    FilterIdempotent((n: Notification) => n.id != id, s);
  }

  /** Removing an id no entry has changes nothing. */
  lemma WithoutAbsent(s: seq<Notification>, id: string)
    requires forall i :: 0 <= i < |s| ==> s[i].id != id
    ensures Without(s, id) == s
  {
    FilterAllKept((n: Notification) => n.id != id, s);
  }

  /** Adding a notification and then removing its id leaves what removing the id would have
      left; with a fresh id, that is the list as it was before the add. */
  lemma AddThenRemove(s: seq<Notification>, n: Notice, id: string)
    ensures Without(s + [WithId(n, id)], id) == Without(s, id)
    ensures (forall i :: 0 <= i < |s| ==> s[i].id != id) ==> Without(s + [WithId(n, id)], id) == s
  {
    FilterAppend((x: Notification) => x.id != id, s, [WithId(n, id)]);
    assert Without([WithId(n, id)], id) == [];
    if forall i :: 0 <= i < |s| ==> s[i].id != id {
      WithoutAbsent(s, id);
    }
  }

  /** `NotificationProvider`: the `notifications` cell and the timers it has scheduled. The id
      (`Math.random().toString(36).substr(2, 9)`) is a parameter of `Add`. */
  class NotificationCenter {
    var notifications: seq<Notification>
    var timers: seq<Timer>

    constructor ()
      ensures notifications == [] && timers == []
    {
      notifications := [];
      timers := [];
    }

    /** `addNotification`: appends one entry and schedules its removal. */
    method Add(n: Notice, id: string)
      modifies this
      ensures notifications == old(notifications) + [WithId(n, id)]
      ensures timers == old(timers) + [Timer(id, AutoRemoveDelay(n.duration))]
    {
      notifications := notifications + [WithId(n, id)];
      timers := timers + [Timer(id, AutoRemoveDelay(n.duration))];
    }

    /** `removeNotification`. */
    method Remove(id: string)
      modifies this
      ensures notifications == Without(old(notifications), id)
      ensures timers == old(timers)
    {
      notifications := Without(notifications, id);
    }

    /** Timer `i` fires: it removes the id it was scheduled for. */
    method Expire(i: nat)
      requires i < |timers|
      modifies this
      ensures notifications == Without(old(notifications), old(timers[i].id))
      ensures timers == old(timers)
    {
      Remove(timers[i].id);
    }
  }

  // ---- hooks --------------------------------------------------------------------------

  /** A context hook's result: the context, or the error it throws. */
  datatype Hooked<T> = Provided(value: T) | HookThrew(message: string)

  /** `useAuth`: throws outside an `AuthProvider`. */
  function UseAuth<T>(context: Option<T>): (r: Hooked<T>)
    ensures r.HookThrew? <==> context.None?
    ensures context.None? ==> r.message == "useAuth must be used within an AuthProvider"
    ensures context.Some? ==> r.value == context.value
  {
    match context
    case None => HookThrew("useAuth must be used within an AuthProvider")
    case Some(c) => Provided(c)
  }

  /** `useNotifications`: throws outside a `NotificationProvider`. */
  function UseNotifications<T>(context: Option<T>): (r: Hooked<T>)
    ensures r.HookThrew? <==> context.None?
    ensures context.None? ==> r.message == "useNotifications must be used within a NotificationProvider"
    ensures context.Some? ==> r.value == context.value
  {
    match context
    case None => HookThrew("useNotifications must be used within a NotificationProvider")
    case Some(c) => Provided(c)
  }

  // ---- authentication -----------------------------------------------------------------

  /** A `profiles` row, column by column. */
  type ProfileRow = map<string, Json>

  /** The outcome of an async handler: it returned, or it threw with this message. */
  datatype Outcome = Done | Thrown(message: string)

  /** `{ ...prev, ...updates }`: every key of the updates wins, every other key of the previous
      profile stays; a missing previous profile spreads as nothing. */
  function MergeProfile(prev: Option<ProfileRow>, updates: ProfileRow): (r: ProfileRow)
    ensures r.Keys == updates.Keys + prev.GetOr(map[]).Keys
    ensures forall k :: k in updates ==> r[k] == updates[k]
    ensures forall k :: k in prev.GetOr(map[]) && k !in updates ==> r[k] == prev.GetOr(map[])[k]
  {
    prev.GetOr(map[]) + updates
  }

  /** `AuthProvider`'s three state cells. The signed-in user is its id. */
  class AuthState {
    var user: Option<string>
    var profile: Option<ProfileRow>
    var loading: bool

    /** Before the initial session is known: no user, no profile, loading. */
    constructor ()
      ensures user.None? && profile.None? && loading
    {
      user := None;
      profile := None;
      loading := true;
    }

    /** `getSession().then(..)`: the user is set, the profile fetch is started but not awaited
        (its id is returned), and loading ends at once. */
    method InitialSession(sessionUser: Option<string>) returns (fetchFor: Option<string>)
      modifies this
      ensures user == sessionUser && fetchFor == sessionUser
      ensures profile == old(profile) && !loading
    {
      user := sessionUser;
      fetchFor := user;
      loading := false;
    }

    /** `fetchProfile` settling: the row on success; an error is only logged. */
    method ProfileFetched(row: Lookup<ProfileRow>)
      modifies this
      ensures row.Found? ==> profile == Some(row.value)
      ensures !row.Found? ==> profile == old(profile)
      ensures user == old(user) && loading == old(loading)
    {
      if row.Found? {
        profile := Some(row.value);
      }
    }

    /** `onAuthStateChange`: the user is set; with a user the profile fetch is awaited, without
        one the profile is cleared; loading is false afterwards. */
    method AuthChanged(sessionUser: Option<string>, row: Lookup<ProfileRow>)
      modifies this
      ensures user == sessionUser && !loading
      ensures sessionUser.None? ==> profile.None?
      ensures sessionUser.Some? && row.Found? ==> profile == Some(row.value)
      ensures sessionUser.Some? && !row.Found? ==> profile == old(profile)
    {
      user := sessionUser;
      if user.Some? {
        ProfileFetched(row);
      } else {
        profile := None;
      }
      loading := false;
    }

    /** `updateProfile`: throws without a user (nothing is sent) or when the update fails
        (the profile is kept); otherwise the profile becomes the merge. The update sent to
        `profiles` is returned as the user id and the columns. */
    method UpdateProfile(updates: ProfileRow, updateError: Option<string>)
      returns (outcome: Outcome, sent: Option<(string, ProfileRow)>)
      modifies this
      ensures user == old(user) && loading == old(loading)
      ensures old(user).None? ==> outcome == Thrown("No user logged in") && sent.None? && profile == old(profile)
      ensures old(user).Some? ==> sent == Some((old(user).value, updates))
      ensures old(user).Some? && updateError.Some? ==> outcome == Thrown(updateError.value) && profile == old(profile)
      ensures old(user).Some? && updateError.None? ==> outcome == Done && profile == Some(MergeProfile(old(profile), updates))
    {
      if user.None? {
        return Thrown("No user logged in"), None;
      }
      sent := Some((user.value, updates));
      if updateError.Some? {
        return Thrown(updateError.value), sent;
      }
      profile := Some(MergeProfile(profile, updates));
      outcome := Done;
    }
  }

  /** `userData.role || 'client'`. */
  function RoleOrClient(userData: ProfileRow): (r: Json)
    ensures "role" in userData && JsonTruthy(userData["role"]) ==> r == userData["role"]
    ensures !("role" in userData && JsonTruthy(userData["role"])) ==> r == JStr("client")
  {
    if "role" in userData && JsonTruthy(userData["role"]) then userData["role"] else JStr("client")
  }

  /** The row `signUp` inserts into `profiles`: the new id, the names the caller gave (a missing
      one is an `undefined` and is not serialised) and the role. */
  function ProfileInsert(userId: string, userData: ProfileRow): (r: ProfileRow)
    ensures r.Keys <= {"id", "first_name", "last_name", "role"}
    ensures "id" in r && r["id"] == JStr(userId)
    ensures "role" in r && r["role"] == RoleOrClient(userData)
    ensures forall k :: k in {"first_name", "last_name"} ==> (k in r <==> k in userData)
    ensures forall k :: k in {"first_name", "last_name"} && k in userData ==> r[k] == userData[k]
  {
    var names := map k | k in userData.Keys * {"first_name", "last_name"} :: userData[k];
    names + map["id" := JStr(userId), "role" := RoleOrClient(userData)]
  }

  /** What the auth service's `signUp` answered: an error, or data whose `user` may be null. */
  datatype SignUpAnswer = SignUpError(message: string) | SignedUp(userId: Option<string>)

  /** `signUp`: the profile row inserted (if any) and how the call ends. */
  function SignUp(userData: ProfileRow, answer: SignUpAnswer, insertError: Option<string>): (r: (Option<ProfileRow>, Outcome))
    ensures answer.SignUpError? ==> r == (None, Thrown(answer.message))
    ensures answer == SignedUp(None) ==> r == (None, Done)
    ensures answer.SignedUp? && answer.userId.Some? ==>
      r.0 == Some(ProfileInsert(answer.userId.value, userData)) &&
      r.1 == (if insertError.Some? then Thrown(insertError.value) else Done)
  {
    match answer
    case SignUpError(m) => (None, Thrown(m))
    case SignedUp(None) => (None, Done)
    case SignedUp(Some(id)) =>
      (Some(ProfileInsert(id, userData)), if insertError.Some? then Thrown(insertError.value) else Done)
  }

  /** A sign-up without a role creates a client profile. */
  lemma SignUpDefaultsToClient(userId: string, userData: ProfileRow)
    requires "role" !in userData || !JsonTruthy(userData["role"])
    ensures SignUp(userData, SignedUp(Some(userId)), None) == (Some(ProfileInsert(userId, userData)), Done)
    ensures ProfileInsert(userId, userData)["role"] == JStr("client")
  {
  }

  // ---- routing ------------------------------------------------------------------------

  datatype RouteView = Spinner | RedirectTo(path: string) | Children

  /** `ProtectedRoute`: a spinner while loading, a redirect home without a user, the children
      otherwise. */
  function ProtectedRoute(user: Option<string>, loading: bool): (v: RouteView)
    ensures v == Spinner <==> loading
    ensures v == RedirectTo("/") <==> !loading && user.None?
    ensures v == Children <==> !loading && user.Some?
  {
    if loading then Spinner
    else if user.None? then RedirectTo("/")
    else Children
  }
}
