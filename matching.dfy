/** `POST /api/match`: score every candidate expert against the client's goal, rank them, keep
    the ten best, and pick the "fastest available" and "highest rated" lanes. The local weekday
    and hour are parameters. */
module Matching {
  import opened Common
  import opened Strings
  import opened Availability

  datatype Urgency = Immediate | WithinHour | Today | ThisWeek

  /** A candidate expert row with what the scoring reads from it. `bio` is the joined
      profile's biography; `badges` the names of its badges (`[]` when the join is empty). */
  datatype Expert = Expert(
    id: string,
    ratingAvg: real,
    yearsExperience: int,
    expertiseTags: seq<string>,
    bio: Option<string>,
    availability: Weekly,
    badges: seq<string>)

  /** The reasons shown with a match, in the order they are pushed. */
  datatype Reason =
    | ExcellentRating(rating: real)
    | YearsExperience(years: int)
    | StrongExpertiseMatch
    | AvailableNow
    | VerifiedCredentials
    | BackgroundChecked
    | NotableExpert

  datatype DayLabel = TodayLabel | Tomorrow

  /** `next_available`: hours until the next slot and which day it is on. */
  datatype NextSlot = NextSlot(hours: int, day: DayLabel)

  datatype Match = Match(expert: Expert, score: int, reasons: seq<Reason>, nextAvailable: NextSlot)

  datatype MatchResponse =
    | NoExperts                                   // `matches: []` with a message
    | QueryFailed                                 // `throw error`, passed on by `next(error)`
    | Ranked(matches: seq<Match>, fastestAvailable: seq<Match>, highestRated: seq<Match>, totalExperts: nat)

  /** The rate cap the query applies for a budget: `floor(budget / 30)`, and none for a missing
      or zero budget (both are falsy). */
  function BudgetRateCap(budgetMaxCents: Option<nat>): (cap: Option<int>)
    ensures budgetMaxCents.None? || budgetMaxCents.value == 0 <==> cap.None?
    ensures cap.Some? ==> cap.value * 30 <= budgetMaxCents.value < (cap.value + 1) * 30
  {
    if budgetMaxCents.None? || budgetMaxCents.value == 0 then None else Some(budgetMaxCents.value / 30)
  }

  // ---- the score components ---------------------------------------------------------

  function RealMin(a: real, b: real): real { if a <= b then a else b }

  /** `Math.round(x)`: the nearest integer, halves rounded up. */
  function Round(x: real): (n: int)
    ensures n as real - 0.5 <= x < n as real + 0.5
  {
    (x + 0.5).Floor
  }

  /** `(rating_avg / 5) * 40`. */
  function RatingScore(e: Expert): real { e.ratingAvg / 5.0 * 40.0 }

  /** `min(years_experience / 10, 1) * 20`. */
  function ExperienceScore(e: Expert): real { RealMin(e.yearsExperience as real / 10.0, 1.0) * 20.0 }

  /** The words of the goal that are matched: split on single spaces after lower-casing, and
      longer than three characters. Repeated words stay repeated. */
  function Keywords(goal: string): (r: seq<string>)
    ensures forall i :: 0 <= i < |r| ==> |r[i]| > 3 && ' ' !in r[i] && r[i] in Split(Lower(goal), ' ')
    ensures forall w :: w in Split(Lower(goal), ' ') && |w| > 3 ==> w in r
  {
    Filter((w: string) => |w| > 3, Split(Lower(goal), ' '))
  }

  /** The tags joined with spaces, lower-cased. */
  function TagsText(e: Expert): string { Lower(Join(e.expertiseTags, " ")) }

  /** `(bio || '').toLowerCase()`. */
  function BioText(e: Expert): string { Lower(e.bio.GetOr("")) }

  predicate KeywordHit(keyword: string, tagsText: string, bioText: string) {
    Contains(tagsText, keyword) || Contains(bioText, keyword)
  }

  /** The number of keywords, counted with repetition, found in the tags or the bio. */
  function Hits(keywords: seq<string>, tagsText: string, bioText: string): (n: nat)
    ensures n <= |keywords|
  {
    if |keywords| == 0 then 0
    else Hits(keywords[..|keywords| - 1], tagsText, bioText) +
         (if KeywordHit(keywords[|keywords| - 1], tagsText, bioText) then 1 else 0)
  }

  /** Hits add up over concatenation, so a word the goal repeats is counted every time. */
  lemma {:induction false} HitsAppend(a: seq<string>, b: seq<string>, tagsText: string, bioText: string)
    ensures Hits(a + b, tagsText, bioText) == Hits(a, tagsText, bioText) + Hits(b, tagsText, bioText)
    decreases |b|
  {
    if |b| == 0 {
      assert a + b == a;
    } else {
      var ab := a + b;
      assert ab[..|ab| - 1] == a + b[..|b| - 1];
      assert ab[|ab| - 1] == b[|b| - 1];
      HitsAppend(a, b[..|b| - 1], tagsText, bioText);
    }
  }

  /** The keyword loop: +5 for each hit. */
  method KeywordScore(keywords: seq<string>, tagsText: string, bioText: string) returns (score: int)
    ensures score == 5 * Hits(keywords, tagsText, bioText)
  {
    score := 0;
    var i := 0;
    while i < |keywords|
      invariant 0 <= i <= |keywords|
      invariant score == 5 * Hits(keywords[..i], tagsText, bioText)
    {
      assert keywords[..i + 1][..i] == keywords[..i];
      if Contains(tagsText, keywords[i]) || Contains(bioText, keywords[i]) {
        score := score + 5;
      }
      i := i + 1;
    }
    assert keywords[..|keywords|] == keywords;
  }

  function KeywordPoints(e: Expert, goal: string): int {
    Min(5 * Hits(Keywords(goal), TagsText(e), BioText(e)), 30)
  }

  /** Whether the expert is available at this hour, as the urgent branch looks. */
  predicate Urgent(urgency: Urgency) { urgency == Immediate || urgency == WithinHour }

  function AvailabilityScore(e: Expert, urgency: Urgency, day: int, hour: int): int {
    if Urgent(urgency) then (if AvailableAt(e.availability, day, hour) then 10 else 0) else 5
  }

  predicate HasBadge(e: Expert, badge: string) {
    exists i :: 0 <= i < |e.badges| && e.badges[i] == badge
  }

  function BadgeBonus(e: Expert): int {
    (if HasBadge(e, "verified_credentials") then 5 else 0) +
    (if HasBadge(e, "background_checked") then 3 else 0) +
    (if HasBadge(e, "notable") then 2 else 0)
  }

  /** The unrounded score. */
  function RawScore(e: Expert, goal: string, urgency: Urgency, day: int, hour: int): real {
    RatingScore(e) + ExperienceScore(e) + KeywordPoints(e, goal) as real +
    AvailabilityScore(e, urgency, day, hour) as real + BadgeBonus(e) as real
  }

  /** `if (cond) reasons.push(reason)`. */
  function PushIf(reasons: seq<Reason>, cond: bool, reason: Reason): seq<Reason> {
    if cond then reasons + [reason] else reasons
  }

  /** The reasons, pushed in the order the scoring checks them. */
  function ReasonsFor(e: Expert, goal: string, urgency: Urgency, day: int, hour: int): seq<Reason> {
    var afterRating := PushIf([], e.ratingAvg >= 4.5, ExcellentRating(e.ratingAvg));
    var afterYears := PushIf(afterRating, e.yearsExperience >= 5, YearsExperience(e.yearsExperience));
    var afterKeywords := PushIf(afterYears, Hits(Keywords(goal), TagsText(e), BioText(e)) > 0, StrongExpertiseMatch);
    var afterAvailability := PushIf(afterKeywords, Urgent(urgency) && AvailableAt(e.availability, day, hour), AvailableNow);
    var afterVerified := PushIf(afterAvailability, HasBadge(e, "verified_credentials"), VerifiedCredentials);
    var afterChecked := PushIf(afterVerified, HasBadge(e, "background_checked"), BackgroundChecked);
    PushIf(afterChecked, HasBadge(e, "notable"), NotableExpert)
  }

  /** `getNextAvailableSlot`: for `immediate`, the first of today's slots, in list order, that
      starts after the current hour; otherwise, or when there is none, 24 hours, tomorrow. */
  function NextAvailableSlot(availability: Weekly, urgency: Urgency, day: int, hour: int): (r: NextSlot)
    ensures urgency != Immediate ==> r == NextSlot(24, Tomorrow)
    ensures r.day == TodayLabel ==> urgency == Immediate && 1 <= r.hours
    ensures r.day == TodayLabel ==> day in availability
    ensures r.day == TodayLabel ==>
      var slots := availability[day];
      var k := FirstSlotAfter(slots, hour);
      k < |slots| && r.hours == slots[k].start - hour
    ensures r.day == Tomorrow ==> r.hours == 24
    ensures urgency == Immediate && day in availability && FirstSlotAfter(availability[day], hour) < |availability[day]| ==>
      r == NextSlot(availability[day][FirstSlotAfter(availability[day], hour)].start - hour, TodayLabel)
    ensures urgency == Immediate && (day !in availability || FirstSlotAfter(availability[day], hour) == |availability[day]|) ==>
      r == NextSlot(24, Tomorrow)
  {
    if urgency == Immediate then
      var slots := if day in availability then availability[day] else [];
      var k := FirstSlotAfter(slots, hour);
      if k < |slots| then NextSlot(slots[k].start - hour, TodayLabel) else NextSlot(24, Tomorrow)
    else NextSlot(24, Tomorrow)
  }

  function MatchFor(e: Expert, goal: string, urgency: Urgency, day: int, hour: int): Match {
    Match(e, Round(RawScore(e, goal, urgency, day, hour)), ReasonsFor(e, goal, urgency, day, hour),
          NextAvailableSlot(e.availability, urgency, day, hour))
  }

  /** The scoring of one expert, accumulating `score` and `reasons` section by section. */
  method ScoreExpert(e: Expert, goal: string, urgency: Urgency, day: int, hour: int) returns (m: Match)
    ensures m == MatchFor(e, goal, urgency, day, hour)
  {
    var score: real := 0.0;
    var reasons: seq<Reason> := [];
    score, reasons := AddRating(e, score, reasons);
    score, reasons := AddExperience(e, score, reasons);
    score, reasons := AddKeywords(e, goal, score, reasons);
    score, reasons := AddAvailability(e, urgency, day, hour, score, reasons);
    score, reasons := AddBadges(e, score, reasons);
    m := Match(e, Round(score), reasons, NextAvailableSlot(e.availability, urgency, day, hour));
  }

  /** Rating section: 0-40 points, and a reason from 4.5 up. */
  method AddRating(e: Expert, score: real, reasons: seq<Reason>) returns (score': real, reasons': seq<Reason>)
    ensures score' == score + RatingScore(e)
    ensures reasons' == PushIf(reasons, e.ratingAvg >= 4.5, ExcellentRating(e.ratingAvg))
  {
    score' := score + e.ratingAvg / 5.0 * 40.0;
    reasons' := reasons;
    if e.ratingAvg >= 4.5 {
      reasons' := reasons' + [ExcellentRating(e.ratingAvg)];
    }
  }

  /** Experience section: 0-20 points, and a reason from 5 years up. */
  method AddExperience(e: Expert, score: real, reasons: seq<Reason>) returns (score': real, reasons': seq<Reason>)
    ensures score' == score + ExperienceScore(e)
    ensures reasons' == PushIf(reasons, e.yearsExperience >= 5, YearsExperience(e.yearsExperience))
  {
    score' := score + RealMin(e.yearsExperience as real / 10.0, 1.0) * 20.0;
    reasons' := reasons;
    if e.yearsExperience >= 5 {
      reasons' := reasons' + [YearsExperience(e.yearsExperience)];
    }
  }

  /** Keyword section: +5 per hit, at most 30 points, and a reason for any hit. */
  method AddKeywords(e: Expert, goal: string, score: real, reasons: seq<Reason>)
    returns (score': real, reasons': seq<Reason>)
    ensures score' == score + KeywordPoints(e, goal) as real
    ensures reasons' == PushIf(reasons, Hits(Keywords(goal), TagsText(e), BioText(e)) > 0, StrongExpertiseMatch)
  {
    var keywordScore := KeywordScore(Keywords(goal), TagsText(e), BioText(e));
    score' := score + Min(keywordScore, 30) as real;
    reasons' := reasons;
    if keywordScore > 0 {
      reasons' := reasons' + [StrongExpertiseMatch];
    }
  }

  /** Availability section: for urgent requests 10 points and a reason when in a slot now,
      otherwise 5 points. */
  method AddAvailability(e: Expert, urgency: Urgency, day: int, hour: int, score: real, reasons: seq<Reason>)
    returns (score': real, reasons': seq<Reason>)
    ensures score' == score + AvailabilityScore(e, urgency, day, hour) as real
    ensures reasons' == PushIf(reasons, Urgent(urgency) && AvailableAt(e.availability, day, hour), AvailableNow)
  {
    var availabilityScore := 0;
    reasons' := reasons;
    if urgency == Immediate || urgency == WithinHour {
      if AvailableAt(e.availability, day, hour) {
        availabilityScore := 10;
        reasons' := reasons' + [AvailableNow];
      }
    } else {
      availabilityScore := 5;
    }
    score' := score + availabilityScore as real;
  }

  /** Badge section: +5, +3, +2 and a reason for each badge the expert holds. */
  method AddBadges(e: Expert, score: real, reasons: seq<Reason>) returns (score': real, reasons': seq<Reason>)
    ensures score' == score + BadgeBonus(e) as real
    ensures reasons' == PushIf(PushIf(PushIf(reasons, HasBadge(e, "verified_credentials"), VerifiedCredentials),
                                      HasBadge(e, "background_checked"), BackgroundChecked),
                               HasBadge(e, "notable"), NotableExpert)
  {
    score' := score;
    reasons' := reasons;
    if HasBadge(e, "verified_credentials") {
      score' := score' + 5.0;
      reasons' := reasons' + [VerifiedCredentials];
    }
    if HasBadge(e, "background_checked") {
      score' := score' + 3.0;
      reasons' := reasons' + [BackgroundChecked];
    }
    if HasBadge(e, "notable") {
      score' := score' + 2.0;
      reasons' := reasons' + [NotableExpert];
    }
  }

  // ---- bounds -----------------------------------------------------------------------

  /** The badge bonus is 5/3/2 for the three badges, so at most 10. */
  lemma BadgeBonusBounds(e: Expert)
    ensures 0 <= BadgeBonus(e) <= 10
    ensures BadgeBonus(e) == 10 <==>
      HasBadge(e, "verified_credentials") && HasBadge(e, "background_checked") && HasBadge(e, "notable")
  {
  }

  /** Urgent requests score 10 exactly when the expert is in a slot now; others always 5. */
  lemma AvailabilityScoreIff(e: Expert, urgency: Urgency, day: int, hour: int)
    ensures Urgent(urgency) ==>
      (AvailabilityScore(e, urgency, day, hour) == 10 <==>
        day in e.availability &&
        exists i :: 0 <= i < |e.availability[day]| && InSlot(e.availability[day][i], hour))
    ensures Urgent(urgency) ==> AvailabilityScore(e, urgency, day, hour) in {0, 10}
    ensures !Urgent(urgency) ==> AvailabilityScore(e, urgency, day, hour) == 5
  {
  }

  /** For ratings in [0, 5] and non-negative experience, the rounded score lies in [0, 110]. */
  lemma ScoreBounds(e: Expert, goal: string, urgency: Urgency, day: int, hour: int)
    requires 0.0 <= e.ratingAvg <= 5.0 && e.yearsExperience >= 0
    ensures 0.0 <= RatingScore(e) <= 40.0
    ensures 0.0 <= ExperienceScore(e) <= 20.0
    ensures 0 <= KeywordPoints(e, goal) <= 30
    ensures 0 <= MatchFor(e, goal, urgency, day, hour).score <= 110
  {
    BadgeBonusBounds(e);
    var raw := RawScore(e, goal, urgency, day, hour);
    assert 0.0 <= raw <= 110.0;
  }

  // ---- ranking ----------------------------------------------------------------------

  /** Scores do not increase along the sequence. */
  predicate SortedByScore(ms: seq<Match>) {
    forall i :: 0 < i < |ms| ==> ms[i - 1].score >= ms[i].score
  }

  /** The matches with score `v`, in order. */
  function WithScore(ms: seq<Match>, v: int): seq<Match> {
    if |ms| == 0 then []
    else (if ms[0].score == v then [ms[0]] else []) + WithScore(ms[1..], v)
  }

  /** Insert `x` before the first element that does not score higher. */
  function InsertByScore(x: Match, s: seq<Match>): (r: seq<Match>)
    requires SortedByScore(s)
    ensures SortedByScore(r)
    ensures |r| == |s| + 1
    ensures multiset(r) == multiset(s) + multiset{x}
    ensures r[0] == x || (|s| > 0 && r[0] == s[0])
  {
    if |s| == 0 || x.score >= s[0].score then [x] + s
    else
      var rest := InsertByScore(x, s[1..]);
      assert s == [s[0]] + s[1..];
      [s[0]] + rest
  }

  lemma WithScoreCons(m: Match, s: seq<Match>, v: int)
    ensures WithScore([m] + s, v) == (if m.score == v then [m] else []) + WithScore(s, v)
  {
    assert ([m] + s)[1..] == s;
  }

  /** Inserting keeps the relative order of equal scores: `x` goes before the matches that
      score as much as it does. */
  lemma {:induction false} InsertByScoreStable(x: Match, s: seq<Match>, v: int)
    requires SortedByScore(s)
    ensures WithScore(InsertByScore(x, s), v) == WithScore([x] + s, v)
  {
    if |s| > 0 && x.score < s[0].score {
      var rest := InsertByScore(x, s[1..]);
      InsertByScoreStable(x, s[1..], v);
      assert InsertByScore(x, s) == [s[0]] + rest;
      assert s == [s[0]] + s[1..];
      WithScoreCons(s[0], rest, v);
      WithScoreCons(x, s[1..], v);
      WithScoreCons(x, s, v);
      WithScoreCons(s[0], s[1..], v);
      var tail := WithScore(s[1..], v);
      if x.score == v {
        assert s[0].score != v;
        assert WithScore([s[0]] + rest, v) == [x] + tail;
        assert WithScore([x] + s, v) == [x] + tail;
      } else {
        assert WithScore([x] + s, v) == WithScore(s, v);
      }
    }
  }

  /** `matches.sort((a, b) => b.score - a.score)`: a stable sort by descending score. */
  function SortByScore(ms: seq<Match>): (r: seq<Match>)
    ensures SortedByScore(r)
    ensures |r| == |ms|
    ensures multiset(r) == multiset(ms)
  {
    if |ms| == 0 then []
    else
      var r := InsertByScore(ms[0], SortByScore(ms[1..]));
      assert ms == [ms[0]] + ms[1..];
      r
  }

  /** The sort is stable: the matches of each score keep their input order. */
  lemma {:induction false} SortByScoreStable(ms: seq<Match>, v: int)
    ensures WithScore(SortByScore(ms), v) == WithScore(ms, v)
  {
    if |ms| > 0 {
      var sortedTail := SortByScore(ms[1..]);
      SortByScoreStable(ms[1..], v);
      InsertByScoreStable(ms[0], sortedTail, v);
      assert ([ms[0]] + sortedTail)[1..] == sortedTail;
      assert ms == [ms[0]] + ms[1..];
    }
  }

  /** In a sorted sequence every earlier match scores at least as much as every later one. */
  lemma {:induction false} SortedPairwise(ms: seq<Match>, i: int, j: int)
    requires SortedByScore(ms) && 0 <= i <= j < |ms|
    ensures ms[i].score >= ms[j].score
    decreases j - i
  {
    if i < j {
      SortedPairwise(ms, i, j - 1);
    }
  }

  function AllMatches(experts: seq<Expert>, goal: string, urgency: Urgency, day: int, hour: int): (r: seq<Match>)
    ensures |r| == |experts|
    ensures forall i :: 0 <= i < |r| ==> r[i] == MatchFor(experts[i], goal, urgency, day, hour)
  {
    seq(|experts|, i requires 0 <= i < |experts| => MatchFor(experts[i], goal, urgency, day, hour))
  }

  predicate Fast(m: Match) { m.nextAvailable.hours <= 2 }

  predicate HighlyRated(m: Match) { m.expert.ratingAvg >= 4.0 }

  /** The whole response for what the expert query answered: its error is thrown and passed to
      the error handler, no rows object or an empty list is the no-experts answer, and any other
      list is ranked. */
  function RankExperts(experts: Lookup<seq<Expert>>, goal: string, urgency: Urgency, day: int, hour: int)
    : (r: MatchResponse)
    ensures r.QueryFailed? <==> experts.Threw?
    ensures r.NoExperts? <==> experts.Missing? || (experts.Found? && |experts.value| == 0)
    ensures r.Ranked? ==>
      experts.Found? && r.totalExperts == |experts.value| && |r.matches| == Min(|experts.value|, 10) &&
      |r.fastestAvailable| <= 3 && |r.highestRated| <= 5 &&
      (forall i :: 0 <= i < |r.fastestAvailable| ==> Fast(r.fastestAvailable[i]) && r.fastestAvailable[i] in r.matches) &&
      (forall i :: 0 <= i < |r.highestRated| ==> HighlyRated(r.highestRated[i]) && r.highestRated[i] in r.matches)
  {
    match experts
    case Threw => QueryFailed
    case Missing => NoExperts
    case Found(rows) =>
      if |rows| == 0 then NoExperts
      else
        var top := Take(SortByScore(AllMatches(rows, goal, urgency, day, hour)), 10);
        Ranked(top, Take(Filter(Fast, top), 3), Take(Filter(HighlyRated, top), 5), |rows|)
  }

  /** The first `n` of a sorted sequence are sorted and score at least as much as the rest. */
  lemma SortedTop(sorted: seq<Match>, n: nat)
    requires SortedByScore(sorted)
    ensures var top := Take(sorted, n);
      SortedByScore(top) &&
      forall i, j :: 0 <= i < |top| <= j < |sorted| ==> top[i].score >= sorted[j].score
  {
    var top := Take(sorted, n);
    forall i, j | 0 <= i < |top| <= j < |sorted| ensures top[i].score >= sorted[j].score {
      assert top[i] == sorted[i];
      SortedPairwise(sorted, i, j);
    }
    forall i | 0 < i < |top| ensures top[i - 1].score >= top[i].score {
      assert top[i - 1] == sorted[i - 1] && top[i] == sorted[i];
    }
  }

  /** The top of the ranking: at most ten matches, sorted by descending score, a prefix of a
      permutation of all scored candidates, so no candidate left out scores more than one kept. */
  lemma RankedTop(experts: seq<Expert>, goal: string, urgency: Urgency, day: int, hour: int)
    requires |experts| > 0
    ensures var r := RankExperts(Found(experts), goal, urgency, day, hour);
            var all := AllMatches(experts, goal, urgency, day, hour);
            var sorted := SortByScore(all);
            r.Ranked? && r.totalExperts == |experts| &&
            |r.matches| == Min(|experts|, 10) && SortedByScore(r.matches) &&
            multiset(sorted) == multiset(all) && IsPrefix(r.matches, sorted) &&
            (forall i, j :: 0 <= i < |r.matches| <= j < |sorted| ==> r.matches[i].score >= sorted[j].score)
  {
    SortedTop(SortByScore(AllMatches(experts, goal, urgency, day, hour)), 10);
  }

  /** Every ranked match, and so every lane entry, is the scoring of one of the input experts. */
  lemma RankedFromInputs(experts: seq<Expert>, goal: string, urgency: Urgency, day: int, hour: int)
    requires |experts| > 0
    ensures var r := RankExperts(Found(experts), goal, urgency, day, hour);
            forall i :: 0 <= i < |r.matches| ==>
              r.matches[i] == MatchFor(r.matches[i].expert, goal, urgency, day, hour) &&
              r.matches[i].expert in experts
  {
    var all := AllMatches(experts, goal, urgency, day, hour);
    var sorted := SortByScore(all);
    var top := Take(sorted, 10);
    forall i | 0 <= i < |top|
      ensures top[i] == MatchFor(top[i].expert, goal, urgency, day, hour) && top[i].expert in experts
    {
      assert top[i] == sorted[i];
      assert sorted[i] in multiset(all);
      var k :| 0 <= k < |all| && all[k] == sorted[i];
      assert all[k] == MatchFor(experts[k], goal, urgency, day, hour);
    }
  }

  /** The lanes: at most three entries at most two hours away, and at most five rated 4.0 or
      more, each an order-preserving selection from the ranked matches. */
  lemma RankedLanes(experts: seq<Expert>, goal: string, urgency: Urgency, day: int, hour: int)
    requires |experts| > 0
    ensures var r := RankExperts(Found(experts), goal, urgency, day, hour);
            |r.fastestAvailable| <= 3 && IsSubsequence(r.fastestAvailable, r.matches) &&
            (forall i :: 0 <= i < |r.fastestAvailable| ==> Fast(r.fastestAvailable[i])) &&
            |r.highestRated| <= 5 && IsSubsequence(r.highestRated, r.matches) &&
            (forall i :: 0 <= i < |r.highestRated| ==> HighlyRated(r.highestRated[i]))
    ensures var r := RankExperts(Found(experts), goal, urgency, day, hour);
            |r.fastestAvailable| == Min(3, |Filter(Fast, r.matches)|) &&
            IsPrefix(r.fastestAvailable, Filter(Fast, r.matches)) &&
            (|r.fastestAvailable| < 3 ==> forall i :: 0 <= i < |r.matches| && Fast(r.matches[i]) ==> r.matches[i] in r.fastestAvailable)
    ensures var r := RankExperts(Found(experts), goal, urgency, day, hour);
            |r.highestRated| == Min(5, |Filter(HighlyRated, r.matches)|) &&
            IsPrefix(r.highestRated, Filter(HighlyRated, r.matches)) &&
            (|r.highestRated| < 5 ==> forall i :: 0 <= i < |r.matches| && HighlyRated(r.matches[i]) ==> r.matches[i] in r.highestRated)
  {
    var top := Take(SortByScore(AllMatches(experts, goal, urgency, day, hour)), 10);
    LanesFacts(top, Fast, 3);
    LanesFacts(top, HighlyRated, 5);
  }

  lemma LanesFacts(top: seq<Match>, p: Match -> bool, n: nat)
    ensures var lane := Take(Filter(p, top), n);
            |lane| <= n && IsSubsequence(lane, top) && forall i :: 0 <= i < |lane| ==> p(lane[i])
    ensures var lane := Take(Filter(p, top), n);
            |lane| == Min(n, |Filter(p, top)|) && IsPrefix(lane, Filter(p, top)) &&
            (|lane| < n ==> forall i :: 0 <= i < |top| && p(top[i]) ==> top[i] in lane)
  {
    var f := Filter(p, top);
    var lane := Take(f, n);
    FilterIsSubsequence(p, top);
    PrefixIsSubsequence(lane, f);
    SubsequenceTransitive(lane, f, top);
    forall i | 0 <= i < |lane| ensures p(lane[i]) {
      assert lane[i] == f[i];
    }
  }

  /** Only `immediate` requests can reach the fastest lane: for any other urgency every
      match is 24 hours away. */
  lemma NonImmediateNeverFast(experts: seq<Expert>, goal: string, urgency: Urgency, day: int, hour: int)
    requires |experts| > 0 && urgency != Immediate
    ensures RankExperts(Found(experts), goal, urgency, day, hour).fastestAvailable == []
  {
    var all := AllMatches(experts, goal, urgency, day, hour);
    var sorted := SortByScore(all);
    var top := Take(sorted, 10);
    forall i | 0 <= i < |top| ensures !Fast(top[i]) {
      assert top[i] == sorted[i];
      assert sorted[i] in multiset(all);
    }
    NoneKept(Fast, top);
    assert RankExperts(Found(experts), goal, urgency, day, hour).fastestAvailable == Take(Filter(Fast, top), 3);
  }

  lemma {:induction false} NoneKept(p: Match -> bool, s: seq<Match>)
    requires forall i :: 0 <= i < |s| ==> !p(s[i])
    ensures Filter(p, s) == []
  {
    if s != [] {
      NoneKept(p, s[1..]);
    }
  }
}
