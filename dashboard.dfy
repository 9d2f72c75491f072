/** The dashboard's display rules: the join window and the other party of `UpcomingSession`,
    the status badge of `RecentBookings`, and the stats the page derives. Instants are integer
    milliseconds; "now" is a parameter. */
module Dashboard {
  import opened Common
  import opened Strings
  import opened Pricing

  /** `timeUntilStart <= 15 min && timeUntilStart > -30 min`. */
  predicate CanJoinIn(timeUntilStartMs: int) {
    timeUntilStartMs <= 15 * MsPerMinute && timeUntilStartMs > -30 * MsPerMinute
  }

  /** `canJoin` for a session starting at `startMs`, seen at `nowMs`. */
  predicate CanJoin(startMs: int, nowMs: int) {
    CanJoinIn(startMs - nowMs)
  }

  /** The window in terms of the clock: from 15 minutes before the start (included) to 30
      minutes after it (excluded). */
  lemma CanJoinWindow(startMs: int, nowMs: int)
    ensures CanJoin(startMs, nowMs) <==> startMs - 15 * MsPerMinute <= nowMs < startMs + 30 * MsPerMinute
  {
  }

  /** The edges of the window: 15 minutes before is in, a millisecond earlier is out; 30
      minutes after is out, a millisecond earlier is in. */
  lemma CanJoinEdges(startMs: int)
    ensures CanJoin(startMs, startMs - 15 * MsPerMinute) && !CanJoin(startMs, startMs - 15 * MsPerMinute - 1)
    ensures !CanJoin(startMs, startMs + 30 * MsPerMinute) && CanJoin(startMs, startMs + 30 * MsPerMinute - 1)
  {
  }

  /** `profile?.role === 'expert'`. */
  predicate IsExpertViewer(role: Option<string>) { role == Some("expert") }

  /** A booking's two parties, as the booking list joins them. */
  datatype Parties<P> = Parties(client: P, expert: P)

  /** `isExpert ? session.client : session.expert`. */
  function OtherParty<P>(isExpert: bool, session: Parties<P>): (r: P)
    ensures isExpert ==> r == session.client
    ensures !isExpert ==> r == session.expert
  {
    if isExpert then session.client else session.expert
  }

  /** An expert viewer sees the client, everyone else (a client, an admin, a missing
      profile) sees the expert. */
  lemma OtherPartyByRole<P>(role: Option<string>, session: Parties<P>)
    ensures role == Some("expert") ==> OtherParty(IsExpertViewer(role), session) == session.client
    ensures role != Some("expert") ==> OtherParty(IsExpertViewer(role), session) == session.expert
  {
  }

  const GrayBadge := "text-gray-700 bg-gray-100"

  /** `getStatusColor`: a class pair for the four statuses in its table, gray for any other. */
  function StatusColor(status: string): (r: string)
    ensures status == "confirmed" ==> r == "text-green-700 bg-green-100"
    ensures status == "completed" ==> r == "text-blue-700 bg-blue-100"
    ensures status == "cancelled" ==> r == "text-red-700 bg-red-100"
    ensures status == "in_progress" ==> r == "text-yellow-700 bg-yellow-100"
    ensures r == GrayBadge <==> status !in {"confirmed", "completed", "cancelled", "in_progress"}
  {
    if status == "confirmed" then "text-green-700 bg-green-100"
    else if status == "completed" then "text-blue-700 bg-blue-100"
    else if status == "cancelled" then "text-red-700 bg-red-100"
    else if status == "in_progress" then "text-yellow-700 bg-yellow-100"
    else GrayBadge
  }

  /** A requested booking gets the gray default. */
  lemma RequestedIsGray()
    ensures StatusColor("requested") == GrayBadge
  {
  }

  /** `status.replace('_', ' ')`. */
  function StatusLabel(status: string): string {
    ReplaceFirst(status, "_", " ")
  }

  /** The label has the status's length and differs from it only at the first `_`, which
      becomes a space; a status without `_` is its own label. */
  lemma StatusLabelReplacesFirstUnderscore(status: string)
    ensures |StatusLabel(status)| == |status|
    ensures !Contains(status, "_") ==> StatusLabel(status) == status
    ensures Contains(status, "_") ==>
      var i := IndexOf(status, "_").value;
      status[i] == '_' && StatusLabel(status)[i] == ' ' &&
      (forall k :: 0 <= k < i ==> status[k] != '_') &&
      forall k :: 0 <= k < |status| && k != i ==> StatusLabel(status)[k] == status[k]
  {
    if Contains(status, "_") {
      var i := IndexOf(status, "_").value;
      assert OccursAt(status, "_", i);
      assert status[i..i + 1][0] == status[i];
      forall k | 0 <= k < i ensures status[k] != '_' {
        assert !OccursAt(status, "_", k);
        assert status[k..k + 1][0] == status[k];
      }
    }
  }

  /** Only the first underscore is replaced. */
  lemma StatusLabelExamples()
    ensures StatusLabel("in_progress") == "in progress"
    ensures StatusLabel("a_b_c") == "a b_c"
    ensures StatusLabel("confirmed") == "confirmed"
  {
    var p := "in_progress";
    forall j | 0 <= j < 2 ensures !OccursAt(p, "_", j) { assert p[j..j + 1][0] == p[j]; }
    assert OccursAt(p, "_", 2) by { assert p[2..3] == "_"; }
    assert IndexOf(p, "_") == Some(2);
    assert p[..2] + " " + p[3..] == "in progress";
    var q := "a_b_c";
    assert !OccursAt(q, "_", 0) by { assert q[0..1][0] == q[0]; }
    assert OccursAt(q, "_", 1) by { assert q[1..2] == "_"; }
    assert IndexOf(q, "_") == Some(1);
    assert q[..1] + " " + q[2..] == "a b_c";
    var c := "confirmed";
    forall j | 0 <= j ensures !OccursAt(c, "_", j) {
      if j + 1 <= |c| { assert c[j..j + 1][0] == c[j]; }
    }
  }

  /** `stats?.total_bookings || 0`. */
  function TotalSessions(totalBookings: Option<int>): (r: int)
    ensures totalBookings.Some? ==> r == totalBookings.value
    ensures totalBookings.None? ==> r == 0
  {
    totalBookings.GetOr(0)
  }

  /** `Math.round(total_sessions * 0.5)`: half a session-hour per booking, halves rounded up. */
  function LearningHours(totalBookings: Option<int>): (r: int)
    ensures var n := TotalSessions(totalBookings); 2 * r - 1 <= n <= 2 * r
  {
    RoundHalfUp(TotalSessions(totalBookings), 2)
  }

  /** For a count n >= 0 the learning hours are the ceiling of n/2. */
  lemma LearningHoursIsCeiling(n: nat)
    ensures LearningHours(Some(n)) == (n + 1) / 2
  {
    var r := LearningHours(Some(n));
    assert 2 * r <= n + 1 <= 2 * r + 1;
  }

  /** Three sessions count as two hours, four as two, none as none. */
  lemma LearningHoursExamples()
    ensures LearningHours(Some(3)) == 2 && LearningHours(Some(4)) == 2 && LearningHours(None) == 0
  {
    LearningHoursIsCeiling(3);
    LearningHoursIsCeiling(4);
    LearningHoursIsCeiling(0);
  }

  /** The "Total Sessions" trend: `+<n> this month` when `this_month_sessions` is truthy. */
  function Trend(thisMonthSessions: Option<int>): (r: Option<string>)
    ensures r.Some? <==> thisMonthSessions.Some? && thisMonthSessions.value != 0
    ensures r.Some? ==> r.value == "+" + IntToString(thisMonthSessions.value) + " this month"
  {
    if thisMonthSessions.Some? && thisMonthSessions.value != 0 then
      Some("+" + IntToString(thisMonthSessions.value) + " this month")
    else None
  }

  /** `upcomingData.bookings?.[0] || null`: the first confirmed booking, if there is one. */
  function UpcomingSession<B>(bookings: Option<seq<B>>): (r: Option<B>)
    ensures r.Some? <==> bookings.Some? && |bookings.value| > 0
    ensures r.Some? ==> r.value == bookings.value[0]
  {
    if bookings.Some? && |bookings.value| > 0 then Some(bookings.value[0]) else None
  }

  /** `data.bookings || []`. */
  function RecentList<B>(bookings: Option<seq<B>>): (r: seq<B>)
    ensures bookings.Some? ==> r == bookings.value
    ensures bookings.None? ==> r == []
  {
    bookings.GetOr([])
  }
}
