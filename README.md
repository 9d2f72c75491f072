# EncoreTalks booking, matching and gatekeeping rules in Dafny

EncoreTalks is a marketplace where clients book paid sessions with experts. This project
models the decision logic of its backend and frontend and proves properties of it:

- **Booking money path.** `POST /api/bookings` turns a requested interval and a mode into a
  price:
  - a fixed tier chosen by duration, or per-minute pricing with a 10-minute floor;
  - a 10% rush fee for starts less than 24 hours away;
  - a 20% commission and the expert's net.
- **Booking rows.** The booking is stored as `requested`, with capture mode `manual` exactly
  for per-minute bookings. `PUT /api/bookings/:id` recomputes a completed per-minute
  booking's amount from the actual time it lasted.
- **Matching.** `POST /api/match` scores experts from bounded components, sorts them, keeps
  the top ten and picks two lanes. Earnings totals are sums over payments.
- **Middleware.** Bearer-token authentication, role gates, the error-to-status mapping, the
  audit-log predicate with its path extraction, and the validators.
- **Frontend state rules.**
  - the booking form's price preview, step wizard and payment flow;
  - the notification list and the auth context;
  - the dashboard's join window and badges;
  - the video session toggles and the `mm:ss` timer;
  - the expert list's filters and their URL round trip;
  - the sidebar navigation and the toasts;
  - the PWA install prompt.

Prices are whole cents (the as-written amount is held in 1/60000-cent units), and instants are integer milliseconds. The clock, the local weekday
and hour, random ids, the database, Stripe and the auth service are parameters: each model
receives what the collaborator answered.

The source rounds with `Math.round`. The model uses the exact rational value rounded half
up: `RoundHalfUp(n, d) = floor(n/d + 1/2)`.

The model follows the code as written, including these behaviours:

- **Fixed tier.** A fixed booking longer than 60 minutes, or of any other length, still gets
  a tier. Anything over 30 minutes is charged `fixed_60m_cents`, and no duration is
  rejected.
- **No overlap check.** Nothing checks for overlapping bookings at creation, and nothing
  guards status transitions on update. `Bookings.DoubleBookingReachable` shows two clashing
  bookings of one expert both created and then both confirmed.
- **Lost search term.** The landing page navigates to `/experts?search=…`. The list page
  never reads a `search` parameter, so the search term is ignored
  (`ExpertList.SearchTermIgnored`).
- **Lost install event.** If a second `beforeinstallprompt` arrives while a user choice is
  pending, resolving the choice discards that second event
  (`InstallPrompt.EventDuringPendingChoice`).
- **Preview versus server price.** The booking form's preview is not the server's price: it
  has no 10-minute floor and no rush fee (`BookingForm.PreviewOmitsFloorAndRush`).

## Model

| member | source | states |
|---|---|---|
| Pricing.ComputeQuote | backend_routes.ts:351-378 | the POST handler's step-by-step price equals `QuoteFor`; commission is 20; for non-negative rates `0 <= net <= price` |
| Pricing.FixedTierIsATier | backend_routes.ts:357-364 | every duration gets a tier: up to 15 min the 15-minute tier, up to 30 the 30-minute tier, anything longer (over 60 included) the 60-minute tier |
| Pricing.FixedTierMonotone | backend_routes.ts:357-364 | with tiers that grow, a longer fixed booking never costs less |
| Pricing.PriceNonNegative | backend_routes.ts:351-375 | non-negative rates give a non-negative price |
| Pricing.FixedPriceIsTier | backend_routes.ts:357-375 | without the rush fee a fixed booking costs exactly its tier |
| Pricing.RoundHalfUp | backend_routes.ts:374 | the result is the integer nearest to n/d, halves rounded up |
| Pricing.RushedWholeCents | backend_routes.ts:374 | `Math.round(p * 1.1)` on whole cents is `(11p + 5) / 10` |
| Pricing.RushNeverLowers | backend_routes.ts:371-375 | the rush fee never lowers a non-negative price |
| Pricing.PastStartIsRush | backend_routes.ts:372-373 | a start now or in the past always pays the rush fee |
| Pricing.PerMinuteFloor | backend_routes.ts:365-369 | a per-minute booking is charged at least 10 minutes, rush fee or not |
| Pricing.PerMinuteWholeMinutes | backend_routes.ts:365-369 | for m >= 10 whole minutes and no rush the price is `m * rate` |
| Pricing.NetWithinPrice | backend_routes.ts:377-378 | `0 <= round(price * (1 - pct/100)) <= price` for price >= 0 and pct in [0, 100] |
| Pricing.PriceAgreesWithSource | backend_routes.ts:351-375 | wherever the source's amount is a whole number of cents, `PriceCents` equals it |
| Pricing.FractionalCentsExample | backend_routes.ts:354-375 | 615000 ms at 850 a minute with no rush: the source's amount is 8712.5 cents; `PriceCents` gives 8713 |
| Pricing.SeedExamples | backend_routes.ts:351-378 | the seeded expert: 30 min fixed 48 h ahead costs 3200 with net 2560; 5 h ahead 3520 with net 2816; 5 per-minute minutes cost 8500 |
| Pricing.ReconcileFullSession | backend_routes.ts:496-497 | a session lasting exactly as scheduled is charged the authorised price |
| Pricing.ReconcileMonotone | backend_routes.ts:497 | a longer actual session never costs less |
| Pricing.ReconcileWithinAuthorised | backend_routes.ts:497 | a session no longer than scheduled costs at most the authorised price |
| Pricing.ReconcileExamples | backend_routes.ts:495-497 | 22 of 30 minutes at 18000 is 13200; 1 minute is 600, below the creation floor; 40 minutes is 24000, above what was authorised |
| Pricing.AmountUnitsAsWritten | backend_routes.ts:354-375 | the amount the handler computes, in 1/60000-cent units: a whole number of cents after the rush fee, possibly fractional without it (`Pricing.FractionalCentsExample`) |
| Pricing.PriceCents | backend_routes.ts:351-375 | the booking price in cents: the source's amount wherever that is whole (`Pricing.PriceAgreesWithSource`); never negative for non-negative rates (`Pricing.PriceNonNegative`); the tier for an unrushed fixed booking (`Pricing.FixedPriceIsTier`); at least 10 minutes for per-minute (`Pricing.PerMinuteFloor`) |
| Pricing.ExpertNetCents | backend_routes.ts:377-378 | `round(price * (1 - pct/100))`, between 0 and the price (`Pricing.NetWithinPrice`) |
| Pricing.QuoteFor | backend_routes.ts:351-378 | the price, commission 20 and the net; the handler's step-by-step computation equals it (`Pricing.ComputeQuote`); seeded values in `Pricing.SeedExamples` |
| Pricing.ReconciledAmount | backend_routes.ts:496-497 | `round(actual * price / scheduled)`: the price for an on-schedule session (`Pricing.ReconcileFullSession`), monotone in the actual duration (`Pricing.ReconcileMonotone`), at most the price when not longer than scheduled (`Pricing.ReconcileWithinAuthorised`) |
| Bookings.CaptureMethodFor | backend_routes.ts:390 | capture is manual exactly for per-minute bookings |
| Bookings.IntentFor | backend_routes.ts:380-391 | the intent is for the quoted price in `usd`, captured manually iff per-minute; `Bookings.NewBookingFacts` shows the row is priced as its intent |
| Bookings.NewBooking | backend_routes.ts:393-407 | the inserted row is `requested`, at the quote's price, 20% commission and net, with the intent's id and no actual times (`Bookings.NewBookingFacts`) |
| Bookings.NewBookingFacts | backend_routes.ts:377-407 | a new booking is `requested`, priced as its payment intent, at 20% commission, with `0 <= net <= price`, manual capture iff per-minute, and no actual times |
| Bookings.ParticipantCheck | backend_routes.ts:452-454 | access iff client, the expert's own profile, or an admin; when the expert join is missing and the caller is not the client, the source throws (none) |
| Bookings.GetBooking | backend_routes.ts:447-460 | 404 for a missing row; 403 exactly when the participant check fails; the row exactly for a participant; a thrown error when the expert join is missing and the caller is not the client |
| Bookings.ApplyUpdate | backend_routes.ts:504-513 | supplied fields overwrite, any supplied status is taken as is, the price fields change only when reconciled, and identity and schedule are kept |
| Bookings.ShouldReconcile | backend_routes.ts:495 | reconciliation runs iff the update asks for `completed`, the booking is per-minute and an actual end is given; `Bookings.BookingTable.Update` sends the capture exactly then |
| Bookings.Reconciled | backend_routes.ts:495-505 | the reconciled amount and its net from the stored commission; an on-schedule completion keeps the price (`Bookings.ReconcileOnSchedule`) |
| Bookings.NoTransitionGuard | backend_routes.ts:508-513 | any allowed status replaces any current one, for example completed to cancelled |
| Bookings.ReconcileOnSchedule | backend_routes.ts:495-505 | an on-schedule completion keeps the price, and net is recomputed from the stored commission |
| Bookings.DoubleBookingReachable | backend_routes.ts:394-410 | two overlapping bookings of one expert can both be created and both confirmed, breaking calendar consistency |
| Bookings.BookingTable.Create | backend_routes.ts:336-424 | 404 without the expert; otherwise the intent from the rates; on success exactly one row `NewBooking(..)` is appended; on any failure the table is unchanged |
| Bookings.BookingTable.Update | backend_routes.ts:467-521 | 404 for an unknown id; 403 exactly for a non-participant, and a thrown error when the expert join is missing; for a participant the capture of the reconciled amount is sent exactly when reconciliation runs on a non-empty schedule; a participant's update succeeds whenever the database and any capture succeed; on success only row i changes, to `ApplyUpdate(..)` with the reconciled amount when it runs; on failure nothing changes |
| Availability.AnySlotHolds | backend_routes.ts:94-96 | true iff some slot holds the hour, with the half-open test `start <= hour < end` |
| Availability.AvailableAt | backend_routes.ts:94-96 | false without an entry for the weekday; otherwise some slot of that day holds the hour |
| Availability.FirstSlotAfter | backend_services.ts:300 | the index of the first slot in list order that starts after the hour, or the length when there is none |
| ExpertSearch.AvailableNowFlag | backend_routes.ts:29 | the filter is on iff the parameter is exactly `true` |
| ExpertSearch.FilterAvailableNow | backend_routes.ts:85-98 | without the flag the rows are unchanged; with it, the available rows, and `[]` when there are no rows |
| ExpertSearch.FilterAvailableNowKeeps | backend_routes.ts:86-98 | an expert is kept iff it was returned and is available now, and the kept rows keep their order |
| ExpertSearch.PaginationFor | backend_routes.ts:100-107 | total is the count or 0; `hasMore` iff `offset + limit < total` |
| ExpertSearch.PaginationExamples | backend_routes.ts:106 | page 1 of 20 over 45 rows has more, page 3 does not, and no count gives zeros |
| Matching.BudgetRateCap | backend_services.ts:170-172 | no cap for a missing or zero budget; otherwise `floor(budget / 30)` |
| Matching.Keywords | backend_services.ts:206-211 | the keywords are exactly the lower-cased goal's space-separated words longer than three characters |
| Matching.Round | backend_services.ts:261 | `Math.round`: the nearest integer, halves up |
| Matching.Hits | backend_services.ts:213-217 | the number of matched keywords is at most the number of keywords |
| Matching.HitsAppend | backend_services.ts:211-217 | hits add up over concatenation, so repeated words count each time |
| Matching.KeywordScore | backend_services.ts:210-217 | the loop's score is 5 per keyword found in the tags or the bio |
| Matching.AddRating | backend_services.ts:191-196 | adds `rating/5*40`, with a reason from 4.5 up |
| Matching.AddExperience | backend_services.ts:198-203 | adds `min(years/10, 1) * 20`, with a reason from 5 years up |
| Matching.AddKeywords | backend_services.ts:205-222 | adds `min(5 * hits, 30)`, with a reason for any hit |
| Matching.AddAvailability | backend_services.ts:224-242 | urgent: 10 and a reason iff in a slot now, else 0; otherwise 5 |
| Matching.AddBadges | backend_services.ts:244-257 | adds 5/3/2 and a reason for each of the three badges held |
| Matching.AvailabilityScore | backend_services.ts:224-242 | urgent: 10 iff a slot holds now, otherwise 0; non-urgent: 5 (`Matching.AvailabilityScoreIff`) |
| Matching.BadgeBonus | backend_services.ts:244-257 | between 0 and 10, and 10 iff all three badges are held (`Matching.BadgeBonusBounds`) |
| Matching.MatchFor | backend_services.ts:187-265 | the match of one expert: the sectioned accumulation equals it (`Matching.ScoreExpert`), with the score bounds of `Matching.ScoreBounds` |
| Matching.ScoreExpert | backend_services.ts:187-265 | the section-by-section accumulation equals `MatchFor` |
| Matching.NextAvailableSlot | backend_services.ts:292-308 | non-immediate gives 24 h tomorrow; immediate gives the first of today's slots in list order with `start > hour`, at `start - hour` (at least 1) hours, and 24 h tomorrow exactly when there is none |
| Matching.BadgeBonusBounds | backend_services.ts:245-257 | the badge bonus is in [0, 10], and exactly 10 iff all three badges are held |
| Matching.AvailabilityScoreIff | backend_services.ts:226-242 | urgent: 10 iff a slot holds now, otherwise 0; non-urgent: always 5 |
| Matching.ScoreBounds | backend_services.ts:191-261 | for ratings in [0, 5]: rating in [0, 40], experience in [0, 20], keywords in [0, 30], and the rounded total in [0, 110] |
| Matching.InsertByScore | backend_services.ts:269 | insertion keeps the order sorted and adds exactly the one element |
| Matching.InsertByScoreStable | backend_services.ts:269 | among equal scores the inserted match goes first, and the order of the rest is kept |
| Matching.SortByScore | backend_services.ts:268-269 | the result is sorted by descending score and is a permutation of the input |
| Matching.SortByScoreStable | backend_services.ts:268-269 | the sort is stable: the matches of each score keep their input order |
| Matching.AllMatches | backend_services.ts:187 | one match per expert, in input order |
| Matching.SortedTop | backend_services.ts:268-270 | the first n of a sorted list are sorted and score at least as much as every later entry |
| Matching.RankedTop | backend_services.ts:268-270 | `matches` has `min(n, 10)` entries, is sorted, is a prefix of a permutation of all scored experts, and no left-out expert outscores a kept one |
| Matching.RankedFromInputs | backend_services.ts:268-270 | every ranked match is the scoring of one of the input experts |
| Matching.RankedLanes | backend_services.ts:273-279 | fastest: the first `min(3, k)` of the k matches with `hours <= 2`, in ranking order; highest rated: the first `min(5, k)` of the k matches rated 4.0 or more; a lane shorter than its limit holds every qualifying match |
| Matching.LanesFacts | backend_services.ts:273-279 | `filter(p).slice(0, n)` has `min(n, k)` entries for the k qualifying ones, is their prefix in order and a subsequence of the list, and holds every qualifying entry when shorter than n |
| Matching.NonImmediateNeverFast | backend_services.ts:273-275 | for any urgency but `immediate` the fastest lane is empty |
| Matching.RankExperts | backend_services.ts:178-290 | a query error is passed on to the error handler, exactly when the query threw; no rows or an empty list give the no-experts answer; otherwise at most 10 matches, `min(n, 10)` of them, at most 3 fast and 5 highly rated matches, each lane drawn from the matches, and the count of candidates; ranking and lanes are stated in `Matching.RankedTop` and `Matching.RankedLanes` |
| Earnings.Summarize | backend_services.ts:116-118 | `session_count` is the number of payments; all three are 0 for no or empty payments |
| Earnings.Earnings | backend_services.ts:86-125 | 404 iff no expert profile; totals iff the query answered |
| Earnings.SumsAppend | backend_services.ts:116-117 | both totals add up over any split of the payments |
| Earnings.SumsBound | backend_services.ts:116-117 | with non-negative amounts every payment is within the totals |
| Earnings.SumsNonNegative | backend_services.ts:116-117 | non-negative amounts give non-negative totals |
| Http.Exchange.constructor | backend_middleware.ts:14-15 | a request starts with no `req.user`, nothing sent and no `next` call |
| Http.Exchange.Send | backend_middleware.ts:19 | `res.status(s).json(b)` records exactly that reply and changes nothing else |
| Http.Exchange.Next | backend_middleware.ts:46 | `next(..)` appends that one call and changes nothing else |
| Auth.BearerToken | backend_middleware.ts:16-20 | none for a missing header or an empty result; otherwise a non-empty token no longer than the header |
| Auth.BearerTokenOfBearerHeader | backend_middleware.ts:16 | `Bearer <rest>` gives `<rest>`, and none when rest is empty |
| Auth.BearerTokenOfRawHeader | backend_middleware.ts:16 | a non-empty header without `Bearer ` is the token as it is |
| Auth.BearerTokenRemovesFirstOccurrence | backend_middleware.ts:16 | the first `Bearer ` anywhere is removed, not only a prefix: `Basic Bearer abc` gives `Basic abc` |
| Auth.BearerTokenRemovesOneCopy | backend_middleware.ts:16 | `Bearer Bearer x` gives `Bearer x` |
| Auth.AuthenticateUser | backend_middleware.ts:14-51 | 401 without a token before any lookup; 401 for an invalid token or a missing profile; 500 when a lookup throws; on success `req.user.role` is the profile's role and `next` is called exactly once |
| Auth.AllowedRoles | backend_middleware.ts:54 | one role becomes a singleton list, and a list stays as it is |
| Auth.RequireRole | backend_middleware.ts:53-67 | 401 iff no user, 403 iff the role is not allowed, pass iff it is allowed |
| Auth.EnforceRole | backend_middleware.ts:56-66 | a pass calls `next` once and sends nothing; otherwise the gate's reply is sent and `next` is not called |
| Auth.RequireAdminIff | backend_middleware.ts:69 | passes iff the role is `admin` |
| Auth.RequireExpertIff | backend_middleware.ts:70 | passes iff the role is `expert` or `admin`; a client is refused |
| ErrorHandling.HandleError | backend_middleware.ts:80-115 | 23505 gives 409; 23503 and 23514 give 400; otherwise `statusCode` or 500; in production any status >= 500 hides the message; the stack is included only in development |
| Audit.ApiMatchFrom | backend_middleware.ts:136 | the leftmost position where `/\/api\/(\w+)/` matches, or none |
| Audit.IdMatchFrom | backend_middleware.ts:139 | the leftmost position where `/\/([a-f0-9-]{36})/` matches, or none |
| Audit.Entity | backend_middleware.ts:136-137 | `unknown` without a match; otherwise the maximal word run after the first `/api/` |
| Audit.EntityId | backend_middleware.ts:139-140 | `unknown` without a match; otherwise the 36 id characters after the first matching `/` |
| Audit.AuditRowFor | backend_middleware.ts:125-157 | a row iff (mutation or `/admin/` path) and a user and status < 400, holding actor, action, entity, id, and the `meta_json` method, path and status, all read from the full request path (the corrected form of the finding below) |
| Audit.MismatchAt | backend_middleware.ts:127 | a pattern does not occur at a position where one of its characters differs |
| Audit.ExpertsPathNotAdmin | backend_middleware.ts:127 | `/api/experts` does not contain `/admin/` |
| Audit.ReadsAuditedOnlyOnAdminPaths | backend_middleware.ts:127 | a successful GET of `/api/experts` writes no row |
| Audit.AdminReadsAudited | backend_middleware.ts:127 | a GET under `/admin/` is audited |
| Audit.FailedOrAnonymousNotAudited | backend_middleware.ts:134 | a POST is audited at 201 with a user, not at 404, and not without a user |
| Audit.EntityOfBookingPath | backend_middleware.ts:136-137 | the entity of `/api/bookings/<uuid>` is `bookings` |
| Audit.EntityIdOfBookingPath | backend_middleware.ts:139-140 | the entity id of `/api/bookings/<uuid>` is the uuid |
| Audit.EntityUnknown | backend_middleware.ts:136-140 | `/health` gives `unknown` for both; a path without an id run gives `unknown` as its id |
| Audit.Installs | backend_middleware.ts:127 | installed for any mutating verb and for any verb on a path containing `/admin/` (`Audit.ReadsAuditedOnlyOnAdminPaths`, `Audit.AdminReadsAudited`) |
| Audit.PathInsideMount | backend_middleware.ts:132-151 | inside a router mounted at `m`, the path loses `m` (giving `/` for `m` itself); a path outside the mount, or no mount, is unchanged |
| Audit.AuditRowAsWritten | backend_middleware.ts:125-157 | installed on the full path, but action, entity, id and logged path read from the path inside the answering router, with the request's verb and status; equal to `AuditRowFor` when no router is mounted |
| Audit.NoApiMatch | backend_middleware.ts:136 | a path with no match anywhere has no entity match |
| Audit.NoEntityWithoutApi | backend_middleware.ts:136-137 | a path whose only `/` is the first character, not followed by `a`, has entity `unknown` |
| Audit.PathInsideMountOf | backend_middleware.ts:132-151 | inside a router mounted at `m`, the path `m/<rest>` is `/<rest>` |
| Audit.ExpertPathInsideMount | backend/src/server.ts:84 | inside the `/api/experts` router, `/api/experts/<uuid>` is `/<uuid>` |
| Audit.SlashIdFields | backend_middleware.ts:136-140 | `/<uuid>` has entity `unknown` and the uuid as its id |
| Audit.MountedUpdateLosesEntity | backend_middleware.ts:132-151 | a PUT of `/api/experts/<uuid>` answered by the mounted router is logged as `PUT /<uuid>` with entity `unknown` |
| Audit.EntityOfMountedPath | backend_middleware.ts:136-137 | read from the full path, every route under `/api/<name>` has entity `<name>` |
| Validation.Validate | backend_middleware.ts:174-226 | parsed: the part is replaced and `next` is called once; schema error: 400 `Validation failed` with the issues, no `next`; other error: `next(error)`; the other parts are untouched |
| Strings.ReplaceFirst | backend_middleware.ts:16 | only the first occurrence is replaced; without one the string is unchanged |
| Strings.IndexFrom | backend_services.ts:214 | the first occurrence at or after `from`, or none when there is none |
| Strings.ContainsIff | backend_services.ts:214 | `includes` holds iff the pattern occurs somewhere |
| Strings.Split | backend_services.ts:211 | at least one piece, with no separator inside a piece, and joining the pieces gives back the string |
| Strings.Lower | backend_services.ts:206 | same length, each character lower-cased |
| Strings.TrimStart | frontend_pages.ts:64 | a suffix of the string, without leading whitespace, after removing only whitespace |
| Strings.TrimEnd | frontend_pages.ts:64 | a prefix of the string, without trailing whitespace, after removing only whitespace |
| Strings.TrimEmptyIff | frontend_pages.ts:64 | `trim()` is empty iff every character is whitespace |
| Strings.EncodeUriComponent | frontend_pages.ts:65 | the output holds only unreserved characters and `%XX`; a string of unreserved characters is unchanged; `DecodeUriComponent` inverts it (`Strings.UriRoundTrip`) |
| Strings.Utf8 | frontend_pages.ts:65 | one to four bytes, each below 256, for any code point |
| Strings.HexValue | frontend_pages.ts:65 | the value of an upper-case hex digit, which `HexDigit` writes back |
| Strings.PercentByteAtStart | frontend_pages.ts:65 | when present, the byte whose `%XX` starts the text |
| Strings.PercentRun | frontend_pages.ts:65 | when present, n bytes whose triples start the text |
| Strings.PercentRunOf | frontend_pages.ts:65 | reading back the triples `PercentBytes` wrote gives the bytes |
| Strings.DecodeUtf8 | frontend_pages.ts:65 | a code point below 0x110000, from a sequence whose length its first byte announces |
| Strings.Utf8RoundTrip | frontend_pages.ts:65 | decoding the UTF-8 bytes of any code point gives it back |
| Strings.Utf8OfDecoded | frontend_pages.ts:65 | a decodable sequence is the encoding of what it decodes to, so each code point has one encoding |
| Strings.DecodeUriComponent | frontend_pages.ts:65 | `decodeURIComponent` for upper-case escapes: other characters stand for themselves, a `%XX` run of one UTF-8 scalar for that character, anything else is an error; it inverts `EncodeUriComponent` (`Strings.UriRoundTrip`) |
| Strings.UriRoundTrip | frontend_pages.ts:65 | `decodeURIComponent(encodeURIComponent(s)) == s` for every string |
| Strings.ParseNatLeadingZeros | frontend_video_admin.ts:198 | leading zeros do not change a parsed number |
| Strings.PadStart | frontend_video_admin.ts:198 | length `max(|s|, width)`: padded on the left, or unchanged when long enough |
| Strings.NatToString | frontend_video_admin.ts:198 | a non-empty string of digits, one digit exactly for n < 10 |
| Strings.ParseNatToString | frontend_video_admin.ts:198 | parsing the decimal text gives the number back |
| BookingForm.TierColumn | frontend_expert_detail.ts:473 | a tier column exists only for 15, 30 and 60 minutes |
| BookingForm.PreviewPrice | frontend_expert_detail.ts:467-485 | per minute: `duration * rate`; fixed: the tier when truthy, else `fixed_30m_cents` |
| BookingForm.PreviewAgreesWithServerWhenNotRushed | frontend_expert_detail.ts:477-485 | for an offered fixed length with a truthy tier booked a day or more ahead, the preview equals the server price |
| BookingForm.PreviewOmitsFloorAndRush | frontend_expert_detail.ts:471-483 | 5 minutes preview as 4250 against 8500 or 9350 on the server; 30 min fixed previews 3200 against 3520 rushed |
| BookingForm.NextStep | frontend_expert_detail.ts:638-690 | 1 goes to 2; 2 goes to 3 iff a start is chosen; 3 stays |
| BookingForm.BackStep | frontend_expert_detail.ts:680-722 | 2 goes to 1 and 3 goes to 2; step 1 stays |
| BookingForm.BackUndoesNext | frontend_expert_detail.ts:638-722 | Back undoes any Next that moved |
| BookingForm.Form.constructor | frontend_expert_detail.ts:456-465 | fixed, 30 min, price `fixed_30m_cents`, no time, step 1, not loading |
| BookingForm.Form.ModeChange | frontend_expert_detail.ts:467-475 | the mode and its preview price change; duration and schedule are kept |
| BookingForm.Form.DurationChange | frontend_expert_detail.ts:477-485 | the duration and its preview change; the mode and an already chosen end are kept |
| BookingForm.Form.TimeSelection | frontend_expert_detail.ts:487-496 | a valid start sets the end to `start + duration * 60000`; an invalid date (the emptied field) queues an update that throws `RangeError` from `toISOString` when React renders it, tearing the form down; the outcome is `Thrown` and no update takes effect; mode, duration and price are kept |
| BookingForm.Form.Next | frontend_expert_detail.ts:638-690 | the step becomes `NextStep`, and the form invariant holds (step 3 only with a start) |
| BookingForm.Form.Back | frontend_expert_detail.ts:680-722 | the step becomes `BackStep`; everything else is kept |
| BookingForm.Form.Pay | frontend_expert_detail.ts:498-557 | no Stripe: no-op; otherwise a POST with exactly four fields and the header `AuthHeaderFor(token)`, which as written is always `Bearer undefined` (see Findings); success exactly when the response is ok, a card is present and there is no card error, ending in the confirmation notice and the modal closing; otherwise the failure notice with its message; loading false afterwards |
| BookingForm.AuthHeaderFor | frontend_expert_detail.ts:509 | `Bearer ` followed by the token, or by `undefined` when it is absent |
| BookingForm.HeaderCarriesToken | frontend_expert_detail.ts:509 | with a non-empty token, the backend reads back exactly that token |
| BookingForm.UserTokenSendsUndefined | frontend_expert_detail.ts:509 | as written the header is `Bearer undefined`, and the backend looks up the token `undefined` |
| BookingForm.DetailPage.constructor | frontend_expert_detail.ts:59 | the modal starts open iff `book=true` |
| BookingForm.DetailPage.BookSession | frontend_expert_detail.ts:89-99 | no user: the sign-in notice, and the modal is unchanged; with a user the modal opens |
| AppContexts.WithId | frontend_app.ts:367 | the caller's fields plus the id |
| AppContexts.AutoRemoveDelay | frontend_app.ts:372 | the duration, or 5000 when it is missing or 0 |
| AppContexts.WithoutKeepsOthers | frontend_app.ts:379 | removal keeps exactly the entries with another id, in order |
| AppContexts.WithoutIdempotent | frontend_app.ts:379 | removing twice is removing once |
| AppContexts.WithoutAbsent | frontend_app.ts:379 | removing an absent id changes nothing |
| AppContexts.AddThenRemove | frontend_app.ts:365-380 | add then remove of a fresh id gives back the list |
| AppContexts.NotificationCenter.constructor | frontend_app.ts:363 | no notifications, no timers |
| AppContexts.NotificationCenter.Add | frontend_app.ts:365-376 | appends exactly one entry at the end and schedules one timer with the delay |
| AppContexts.NotificationCenter.Remove | frontend_app.ts:378-380 | the list becomes `Without(old, id)` |
| AppContexts.NotificationCenter.Expire | frontend_app.ts:373-375 | a firing timer removes its id |
| AppContexts.UseAuth | frontend_app.ts:213-219 | throws with its message iff there is no provider |
| AppContexts.UseNotifications | frontend_app.ts:354-360 | throws with its message iff there is no provider |
| AppContexts.MergeProfile | frontend_app.ts:315 | the keys are the union; update keys win and the other previous keys stay |
| AppContexts.AuthState.constructor | frontend_app.ts:222-224 | no user, no profile, loading |
| AppContexts.AuthState.InitialSession | frontend_app.ts:228-234 | the user is set, a fetch is started for it, and loading ends |
| AppContexts.AuthState.ProfileFetched | frontend_app.ts:250-263 | the fetched row replaces the profile; an error leaves it |
| AppContexts.AuthState.AuthChanged | frontend_app.ts:237-245 | the user is set; no session clears the profile; loading is false afterwards |
| AppContexts.AuthState.UpdateProfile | frontend_app.ts:305-316 | no user: throws `No user logged in` and sends nothing; update error: throws and keeps the profile; otherwise the profile becomes the merge |
| AppContexts.RoleOrClient | frontend_app.ts:293 | the given role when truthy, else `client` |
| AppContexts.ProfileInsert | frontend_app.ts:289-294 | id, role, and the names only when given |
| AppContexts.SignUp | frontend_app.ts:274-298 | an auth error throws with no insert; no user: no insert; otherwise the profile insert, throwing on an insert error |
| AppContexts.SignUpDefaultsToClient | frontend_app.ts:286-294 | without a role the inserted role is `client` |
| AppContexts.ProtectedRoute | frontend_app.ts:172-188 | spinner iff loading; redirect to `/` iff not loading and no user; children otherwise |
| Dashboard.CanJoinWindow | frontend_dashboard.ts:255-257 | can join iff `start - 15 min <= now < start + 30 min` |
| Dashboard.CanJoinEdges | frontend_dashboard.ts:257 | 15 min before is in and 1 ms earlier is out; 30 min after is out and 1 ms earlier is in |
| Dashboard.CanJoin | frontend_dashboard.ts:255-257 | from 15 minutes before the start, included, to 30 minutes after it, excluded (`Dashboard.CanJoinWindow`, `Dashboard.CanJoinEdges`) |
| Dashboard.OtherParty | frontend_dashboard.ts:259 | an expert viewer sees the client, anyone else sees the expert |
| Dashboard.OtherPartyByRole | frontend_dashboard.ts:61 | role `expert` sees the client; every other role, or none, sees the expert |
| Dashboard.StatusColor | frontend_dashboard.ts:345-353 | the four known statuses get their classes; gray iff the status is not one of them |
| Dashboard.RequestedIsGray | frontend_dashboard.ts:352 | `requested` gets the gray default |
| Dashboard.StatusLabelReplacesFirstUnderscore | frontend_dashboard.ts:419 | same length; only the first `_` becomes a space; a status without `_` stays as it is |
| Dashboard.StatusLabelExamples | frontend_dashboard.ts:419 | `in_progress` gives `in progress`, `a_b_c` gives `a b_c` |
| Dashboard.StatusLabel | frontend_dashboard.ts:419 | same length, with only the first `_` turned into a space (`Dashboard.StatusLabelReplacesFirstUnderscore`) |
| Dashboard.TotalSessions | frontend_dashboard.ts:82 | the count, or 0 |
| Dashboard.LearningHours | frontend_dashboard.ts:120 | `2r - 1 <= n <= 2r`, that is `round(n * 0.5)` |
| Dashboard.LearningHoursIsCeiling | frontend_dashboard.ts:120 | for n >= 0 it is `ceil(n / 2)` |
| Dashboard.LearningHoursExamples | frontend_dashboard.ts:120 | 3 gives 2, 4 gives 2, none gives 0 |
| Dashboard.Trend | frontend_dashboard.ts:85 | present iff `this_month_sessions` is truthy, with the text `+n this month` |
| Dashboard.UpcomingSession | frontend_dashboard.ts:45 | the first booking, or none for an empty or missing list |
| Dashboard.RecentList | frontend_dashboard.ts:337 | the bookings, or `[]` |
| VideoSession.Pad2 | frontend_video_admin.ts:198 | at least two digits, exactly two below 10 |
| VideoSession.Pad2Value | frontend_video_admin.ts:198 | padding does not change the value |
| VideoSession.FormatDuration | frontend_video_admin.ts:195-199 | at least 5 characters, `:` third from the end, digits on both sides, and the minutes field as wide as `max(2, digits of the minutes)` |
| VideoSession.FormatDurationRoundTrip | frontend_video_admin.ts:196-198 | the field before the colon reads back as `seconds / 60` and the field after it as `seconds % 60`, so `mins * 60 + secs` is the seconds |
| VideoSession.FormatDurationExamples | frontend_video_admin.ts:196-198 | 0 gives `00:00`, 65 gives `01:05`, 6000 gives `100:00` (minutes are not capped) |
| VideoSession.Session.constructor | frontend_video_admin.ts:18-24 | both devices on, not recording, 0 seconds, no stream |
| VideoSession.Session.AttachStream | frontend_video_admin.ts:44 | the stream is kept; the flags are unchanged |
| VideoSession.Session.Tick | frontend_video_admin.ts:114-117 | the counter goes up by exactly 1 |
| VideoSession.Session.ToggleAudio | frontend_video_admin.ts:122-130 | flips the first audio track, and the flag equals its new state; a no-op without a stream or track |
| VideoSession.Session.ToggleVideo | frontend_video_admin.ts:132-140 | flips the first video track, and the flag equals its new state; a no-op without a stream or track |
| VideoSession.Session.ToggleRecording | frontend_video_admin.ts:142-150 | flips the flag; the title is `Recording Stopped` iff it was recording before |
| VideoSession.ToggleAudioTwice | frontend_video_admin.ts:122-130 | two toggles restore the track and the flag |
| VideoSession.AdminViewFor | frontend_video_admin.ts:352-361 | the dashboard iff the role is `admin`; access denied otherwise |
| ExpertList.ApplyPatch | frontend_pages.ts:359 | keys in the update win; every other key is unchanged |
| ExpertList.EmptyPatchIsIdentity | frontend_pages.ts:359 | an empty update changes nothing |
| ExpertList.Serialize | frontend_pages.ts:345 | one pair per entry, with the value as `toString()` |
| ExpertList.Entries | frontend_pages.ts:362 | the six filters in key order; the built query is their truthy ones (`ExpertList.QueryIsTruthyEntries`) and reads back as the same filters (`ExpertList.FiltersRoundTrip`) |
| ExpertList.QueryOf | frontend_pages.ts:362-365 | exactly the truthy entries, in entry order, as strings (`ExpertList.QueryIsTruthyEntries`); a key reads back as its first truthy entry (`ExpertList.GetQueryOf`) |
| ExpertList.QueryIsTruthyEntries | frontend_pages.ts:362-365 | the query is exactly the truthy entries, in key order, as strings |
| ExpertList.TruthyValueNonEmpty | frontend_pages.ts:364 | a truthy value never serialises to `''` |
| ExpertList.SearchParamsFor | frontend_pages.ts:362-365 | the `forEach` loop builds `QueryOf(Entries(f))` |
| ExpertList.Get | frontend_pages.ts:327-332 | a value iff some pair has the key |
| ExpertList.GetQueryOf | frontend_pages.ts:326-365 | reading a key from a built query gives its first truthy entry |
| ExpertList.InitialFilters | frontend_pages.ts:326-333 | a missing parameter gives `''`; `available_now` iff the parameter is exactly `true` |
| ExpertList.FiltersRoundTrip | frontend_pages.ts:326-366 | filters written to the URL and read back are the same filters |
| ExpertList.ClearedHasEmptyQuery | frontend_pages.ts:369-379 | cleared filters write no parameters, and no parameters read back as cleared |
| ExpertList.SearchTermIgnored | frontend_pages.ts:326-333 | a `search` parameter alone gives the cleared filters |
| ExpertList.ListPage.constructor | frontend_pages.ts:326-333 | the filters are the ones the URL denotes |
| ExpertList.ListPage.UpdateFilters | frontend_pages.ts:358-367 | filters become the merge, parameters become its query, and the two stay in sync |
| ExpertList.ListPage.ClearFilters | frontend_pages.ts:369-379 | every filter is off and there are no parameters |
| ExpertList.SearchTarget | frontend_pages.ts:62-67 | navigates iff the query has a non-whitespace character, to the encoded untrimmed query |
| ExpertList.SearchKeepsBlanks | frontend_pages.ts:65 | ` ai ` goes to `search=%20ai%20` |
| ExpertList.SearchNeedsText | frontend_pages.ts:64 | blanks only do not navigate |
| ExpertList.ShownCategories | frontend_pages.ts:56 | the first `min(n, 8)` categories |
| ExpertList.TagChips | frontend_pages.ts:243 | the first `min(n, 3)` tags on the landing page and `min(n, 4)` on the list page |
| Layout.Sidebar | frontend_layout_pwa.ts:276-338 | the items are `NavFor(role)`; quick stats iff the role is `expert` |
| Layout.NavFor | frontend_layout_pwa.ts:279-307 | expert items for experts; client then admin items for admins; client items otherwise (`Layout.AdminNavExtendsClientNav`, `Layout.AdminPanelOnlyForAdmins`) |
| Layout.AdminNavExtendsClientNav | frontend_layout_pwa.ts:301-307 | admin: the client items in order, then the admin items in order; any role but expert or admin gets the client items |
| Layout.AdminPanelOnlyForAdmins | frontend_layout_pwa.ts:295-307 | the admin panel item is present iff the role is `admin` |
| Layout.NavPathsDistinct | frontend_layout_pwa.ts:279-299 | no two items of a list share a path, so at most one is highlighted |
| Layout.ToastIcon | frontend_layout_pwa.ts:460-472 | the three named types get their icons; any other type gets `Info` |
| Layout.ToastColors | frontend_layout_pwa.ts:474-486 | the three named types get their classes; any other type gets blue |
| Layout.ToastStylesFallBackToInfo | frontend_layout_pwa.ts:460-486 | an unknown type looks like `info`; the four named ones are pairwise distinct |
| Layout.Toasts | frontend_layout_pwa.ts:490-507 | one toast per notification, in order; the message line iff the message is present and non-empty |
| Layout.HeaderMenu.constructor | frontend_layout_pwa.ts:13 | the menu starts closed |
| Layout.HeaderMenu.ToggleMenu | frontend_layout_pwa.ts:68 | the avatar button flips the menu |
| Layout.HeaderMenu.ClickItem | frontend_layout_pwa.ts:79-84 | a menu link closes the menu, so no dropdown shows for any user |
| InstallPrompt.Prompt.constructor | frontend/src/components/pwa/PWAInstallPrompt.tsx:14-15 | no event and no banner |
| InstallPrompt.Prompt.BeforeInstallPrompt | frontend/src/components/pwa/PWAInstallPrompt.tsx:18-22 | the event is stored and the banner renders |
| InstallPrompt.Prompt.InstallClick | frontend/src/components/pwa/PWAInstallPrompt.tsx:31-35 | a no-op without an event; otherwise the banner hides at once and the event is prompted |
| InstallPrompt.Prompt.ChoiceResolved | frontend/src/components/pwa/PWAInstallPrompt.tsx:37-40 | the stored event is cleared; `showPrompt` is unchanged |
| InstallPrompt.Prompt.Dismiss | frontend/src/components/pwa/PWAInstallPrompt.tsx:43-46 | both cells are cleared and nothing renders |
| InstallPrompt.InstallFlow | frontend/src/components/pwa/PWAInstallPrompt.tsx:18-48 | event, click, resolve: the event is gone, and a further click does nothing |
| InstallPrompt.EventDuringPendingChoice | frontend/src/components/pwa/PWAInstallPrompt.tsx:31-48 | an event arriving during a pending choice is lost; `showPrompt` is left set, but the render guard hides the empty banner |

## Left out

- Supabase queries: the SQL-side filters, joins, ordering and `.range` pagination. Rows are in-memory sequences passed in, and query errors are parameters.
- Stripe: `paymentIntents.create`/`capture`, `confirmCardPayment` and the Connect onboarding. Only the amount, currency and capture mode sent, and whether the call succeeded, are modelled.
- Email and SMS delivery, HTML templates, and the mock AI delay in the services file: these are I/O.
- Floating point. Every `Math.round` of a double is exact rational rounding, half up. JavaScript doubles can differ at rare half-cent ties.
- Pricing.ComputeQuote: prices a fractional-minute per-minute booking without a rush fee at the nearest cent, where the source stores a fractional amount (see Findings).
- Matching.Keywords: `word.length > 3` counts UTF-16 code units, the model counts characters (Unicode scalars); a word of three characters one of which lies outside the Basic Multilingual Plane is a keyword in the source and not in the model.
- Matching.ScoreExpert: the score is computed on exact reals, not doubles. The text of the rating reason (the star character) is reduced to the rating value.
- Strings.Lower: lower-cases ASCII letters only. `toLowerCase` also folds other scripts.
- Strings.EncodeUriComponent: assumes strings without lone surrogates, for which JavaScript throws a `URIError`.
- Strings.DecodeUriComponent: accepts only the upper-case hex digits the encoder writes; the browser's `decodeURIComponent` also accepts lower case. It is here as the inverse that pins down what the encoder writes.
- Audit.AuditRowAsWritten: models one level of router mounting, the way the audited routers are mounted; a router nested inside another would strip each mount in turn.
- Clock, local weekday and hour, `Math.random` ids, `setTimeout` and `setInterval`: instants, weekday, hour and ids are parameters, and a timer is a pending entry fired by a method call.
- `new Date(text)` and `toISOString`: the instant a date text denotes is a parameter. The end time is held as milliseconds, not as ISO text.
- The `URLSearchParams` text form (`key=value&…` escaping): parameters are lists of pairs.
- The bookings router's authentication: the caller is a parameter of `Create`, `GetBooking` and `Update`. `GetBooking` and `Update` take a caller that is present; a missing `req.user`, which throws a `TypeError` in the source, is not modelled there.
- BookingForm.Form.TimeSelection: for an invalid date the model returns `Thrown` and keeps the form, which stays usable; in the source the queued updater throws during the next render and, with no error boundary around the routes of frontend_app.ts, the whole tree unmounts and the form's state is lost.
- Bookings.BookingTable.Update: for a booking whose scheduled start equals its end, the source still calls the capture with a non-finite amount (a division by zero); the model has no non-finite amounts, so it sends no capture request and answers with the processor's refusal.
- The database's generated ids and timestamps, and the spread of other request fields into the insert.
- The audit row's database insert and its `setTimeout(0)`. The model states which row would be written.
- Audit.AuditRowFor: the row leaves out `meta_json.ip` and `meta_json.userAgent`, the client address and header, which are request metadata outside this model; the same holds for `Audit.AuditRowAsWritten`.
- The `console.error` logging done by `fetchProfile`, the error handler and the audit logger.
- WebRTC, media devices, screen sharing and signalling in the video session. Only the first track's `enabled` flag is modelled.
- JSX rendering and routing tables, the service worker and the manifest, `LandingPage.tsx`, `Header.tsx`, `Footer.tsx` and both `App.tsx` files. The two `BookingModal.tsx` components (one with float dollar rates and a simulated payment, one a stub) are not part of this model.
- Database scripts and server bootstrap. The seed rows are used only as the concrete rates 850/1800/3200/5800.
- Dashboard.StatusColor: statuses are the booking statuses. A status naming an `Object.prototype` member (such as `constructor`) would get a non-string from the source's table lookup.
- Concurrency between requests: there is no overlap check to race with, and none is invented.

## Findings

| source | as written | input that shows it | evidently intended | confidence | as-written member | corrected member |
|---|---|---|---|---|---|---|
| backend_routes.ts:354-375 | without the rush fee, a per-minute booking of a non-whole number of minutes is priced `minutes * rate` unrounded, so `price_cents_total` and the Stripe `amount` are not whole cents | 10:00:00 to 10:10:15 (615000 ms) at 850 cents a minute, booked two days ahead: 8712.5 cents | a whole number of cents, as with the rush fee, which rounds: 8713 | not executed | Pricing.FractionalCentsExample | Pricing.PriceAgreesWithSource |
| backend_middleware.ts:132-151 | the row is built in a delayed `res.send` from `req.path`, which inside a mounted router has lost the mount, so routes mounted under `/api/<name>` are logged without their prefix and with entity `unknown` | a PUT of `/api/experts/<uuid>` answered by the `/api/experts` router (backend/src/server.ts:84): action `PUT /<uuid>`, entity `unknown` | the full path, so the entity is the router's resource name | not executed; follows from Express restoring `req.url` only when a route calls `next` | Audit.MountedUpdateLosesEntity | Audit.EntityOfMountedPath |
| frontend_expert_detail.ts:509 | the header is built from `user?.access_token`, but the imported supabase-js `User` type has no `access_token` (the `Session` has it), so every booking request sends `Bearer undefined`; the same pattern is in frontend_dashboard.ts:34-37 | any signed-in user submitting the booking form: the backend looks up the token `undefined` and answers 401, so the booking fails | the session's access token, which the backend reads back as sent | not executed; the evidence is the imported type, not a run | BookingForm.UserTokenSendsUndefined | BookingForm.HeaderCarriesToken |
