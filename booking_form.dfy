/** The expert detail page's booking flow: `handleBookSession` and the `BookingForm` wizard with
    its price preview and `handlePayment`. The Stripe and fetch calls are parameters: what each
    answers. Instants are integer milliseconds; turning the `datetime-local` text into an
    instant (`new Date(start)`) is a parameter too. */
module BookingForm {
  import opened Common
  import opened Pricing
  import opened AppContexts
  import Auth

  /** The expert prop: its id and first name, and its rate columns, any of the tier columns
      possibly null. */
  datatype ExpertRow = ExpertRow(
    id: string,
    firstName: string,
    ratePerMinuteCents: int,
    fixed15Cents: Option<int>,
    fixed30Cents: Option<int>,
    fixed60Cents: Option<int>)

  /** `expert[`fixed_${duration}m_cents`]`: a column only for 15, 30 and 60 minutes. */
  function TierColumn(expert: ExpertRow, duration: int): (r: Option<int>)
    ensures duration !in {15, 30, 60} ==> r.None?
    ensures duration == 15 ==> r == expert.fixed15Cents
    ensures duration == 30 ==> r == expert.fixed30Cents
    ensures duration == 60 ==> r == expert.fixed60Cents
  {
    if duration == 15 then expert.fixed15Cents
    else if duration == 30 then expert.fixed30Cents
    else if duration == 60 then expert.fixed60Cents
    else None
  }

  /** A present, non-zero amount (JavaScript truthiness of a number). */
  predicate TruthyCents(c: Option<int>) { c.Some? && c.value != 0 }

  /** The form's price preview, shared by `handleModeChange` and `handleDurationChange`:
      `duration * rate` per minute; for a fixed session the tier column, or `fixed_30m_cents`
      when that column is missing, null or 0. */
  function PreviewPrice(expert: ExpertRow, mode: Mode, duration: int): (r: Option<int>)
    ensures mode == PerMinute ==> r == Some(duration * expert.ratePerMinuteCents)
    ensures mode == Fixed && TruthyCents(TierColumn(expert, duration)) ==> r == TierColumn(expert, duration)
    ensures mode == Fixed && !TruthyCents(TierColumn(expert, duration)) ==> r == expert.fixed30Cents
  {
    match mode
    case PerMinute => Some(duration * expert.ratePerMinuteCents)
    case Fixed =>
      var tier := TierColumn(expert, duration);
      if TruthyCents(tier) then tier else expert.fixed30Cents
  }

  /** The rates the server prices with, for an expert whose columns are all present. */
  function ServerRates(expert: ExpertRow): ExpertRates
    requires expert.fixed15Cents.Some? && expert.fixed30Cents.Some? && expert.fixed60Cents.Some?
  {
    ExpertRates(expert.ratePerMinuteCents, expert.fixed15Cents.value, expert.fixed30Cents.value, expert.fixed60Cents.value)
  }

  /** For a fixed session of an offered length booked more than a day ahead, the preview is
      what the server charges. */
  lemma PreviewAgreesWithServerWhenNotRushed(expert: ExpertRow, duration: int, startMs: int, nowMs: int)
    requires expert.fixed15Cents.Some? && expert.fixed30Cents.Some? && expert.fixed60Cents.Some?
    requires duration in {15, 30, 60} && TruthyCents(TierColumn(expert, duration))
    requires startMs - nowMs >= RushWindowMs
    ensures PreviewPrice(expert, Fixed, duration) ==
      Some(PriceCents(Fixed, ServerRates(expert), startMs, startMs + duration * MsPerMinute, nowMs))
  {
    var rates := ServerRates(expert);
    var price := FixedTierCents(rates, duration * MsPerMinute);
    RoundHalfUpExact(price, MsPerMinute);
  }

  /** The preview applies neither the 10-minute minimum nor the rush fee: for the seed expert
      (850 a minute), 5 minutes preview as 4250 where the server charges 8500 a day ahead and
      9350 within the day; a 30-minute fixed session previews 3200 where a rushed one costs 3520. */
  lemma PreviewOmitsFloorAndRush()
    ensures var e := ExpertRow("e", "Ada", 850, Some(1800), Some(3200), Some(5800));
      PreviewPrice(e, PerMinute, 5) == Some(4250) &&
      PriceCents(PerMinute, ServerRates(e), 2 * RushWindowMs, 2 * RushWindowMs + 5 * MsPerMinute, 0) == 8500 &&
      PriceCents(PerMinute, ServerRates(e), 0, 5 * MsPerMinute, 0) == 9350 &&
      PreviewPrice(e, Fixed, 30) == Some(3200) &&
      PriceCents(Fixed, ServerRates(e), 0, 30 * MsPerMinute, 0) == 3520
  {
    RoundHalfUpExact(8500, MsPerMinute);
  }

  /** The wizard's forward button on each step: step 1 always moves on, step 2 only once a
      start time is chosen, and step 3 has none (it submits). */
  function NextStep(step: int, scheduledStart: string): (r: int)
    ensures 1 <= step <= 3 ==> 1 <= r <= 3
    ensures step == 1 ==> r == 2
    ensures step == 2 ==> (r == 3 <==> scheduledStart != "") && (r == 2 <==> scheduledStart == "")
    ensures step !in {1, 2} ==> r == step
  {
    if step == 1 then 2
    else if step == 2 && scheduledStart != "" then 3
    else step
  }

  /** The Back button on steps 2 and 3; step 1 has Cancel instead. */
  function BackStep(step: int): (r: int)
    ensures step in {2, 3} ==> r == step - 1
    ensures step !in {2, 3} ==> r == step
  {
    if step == 2 || step == 3 then step - 1 else step
  }

  /** Back undoes a Next that moved. */
  lemma BackUndoesNext(step: int, scheduledStart: string)
    requires NextStep(step, scheduledStart) != step
    ensures BackStep(NextStep(step, scheduledStart)) == step
  {
  }

  /** The JSON body the form posts to `/api/bookings`: these four fields and nothing else, so
      the client-side price is never sent. */
  datatype PostBody = PostBody(expertId: string, mode: Mode, scheduledStart: string, scheduledEnd: Option<int>)

  /** The request: its `Authorization` header and its body. */
  datatype PostRequest = PostRequest(authorization: string, body: PostBody)

  /** The `Authorization` header the page writes from a token: `Bearer ` and the token, which a
      template literal writes as `undefined` when it is absent. */
  function AuthHeaderFor(accessToken: Option<string>): (h: string)
    ensures |h| >= 7 && h[..7] == "Bearer "
    ensures accessToken.Some? ==> h[7..] == accessToken.value
    ensures accessToken.None? ==> h[7..] == "undefined"
  {
    "Bearer " + accessToken.GetOr("undefined")
  }

  /** `user?.access_token`: the signed-in value is a supabase-js `User`, which has no
      `access_token` field (the `Session` does), so the page always reads it as absent. */
  const UserAccessToken: Option<string> := None

  /** With a real token, the backend reads back exactly the token the page sent. */
  lemma HeaderCarriesToken(t: string)
    requires t != ""
    ensures Auth.BearerToken(Some(AuthHeaderFor(Some(t)))) == Some(t)
  {
    Auth.BearerTokenOfBearerHeader(t);
  }

  /** As written, every request carries `Bearer undefined`, so the backend looks up the token
      `undefined`, which the auth service rejects with a 401. */
  lemma UserTokenSendsUndefined()
    ensures AuthHeaderFor(UserAccessToken) == "Bearer undefined"
    ensures Auth.BearerToken(Some(AuthHeaderFor(UserAccessToken))) == Some("undefined")
  {
    Auth.BearerTokenOfBearerHeader("undefined");
  }

  /** What the booking request gave back: a response (its `ok` and its
      `payment_client_secret`), or a throw from `fetch` or from `response.json()`. */
  datatype FetchAnswer = Responded(ok: bool, clientSecret: Option<string>) | FetchThrew(message: string)

  /** `BookingForm`'s state. */
  class Form {
    const expert: ExpertRow
    var mode: Mode
    var duration: int
    var scheduledStart: string
    var scheduledEnd: Option<int>   // `''` before a time is chosen
    var price: Option<int>
    var step: int
    var loading: bool

    /** The form's invariant: the step is one of the three, step 3 is reached only with a start
        time, the end is set exactly when the start is, and the price is always the preview
        for the current mode and duration. */
    predicate Valid()
      reads this
    {
      1 <= step <= 3 &&
      (step == 3 ==> scheduledStart != "") &&
      (scheduledStart == "" <==> scheduledEnd.None?) &&
      price == PreviewPrice(expert, mode, duration)
    }

    /** The initial state: a 30-minute fixed session at `fixed_30m_cents`, no time, step 1. */
    constructor (expert: ExpertRow)
      ensures this.expert == expert && Valid()
      ensures mode == Fixed && duration == 30 && price == expert.fixed30Cents
      ensures scheduledStart == "" && scheduledEnd.None? && step == 1 && !loading
    {
      this.expert := expert;
      mode := Fixed;
      duration := 30;
      scheduledStart := "";
      scheduledEnd := None;
      price := expert.fixed30Cents;
      step := 1;
      loading := false;
    }

    /** `handleModeChange`: the mode and its preview price; nothing else changes. */
    method ModeChange(m: Mode)
      requires Valid()
      modifies this
      ensures Valid()
      ensures mode == m && price == PreviewPrice(expert, m, old(duration))
      ensures duration == old(duration) && scheduledStart == old(scheduledStart) && scheduledEnd == old(scheduledEnd)
      ensures step == old(step) && loading == old(loading)
    {
      mode := m;
      price := PreviewPrice(expert, m, duration);
    }

    /** `handleDurationChange`: the duration and its preview price; the mode stays, and the end
        time already chosen is NOT recomputed. */
    method DurationChange(d: int)
      requires Valid()
      modifies this
      ensures Valid()
      ensures duration == d && price == PreviewPrice(expert, old(mode), d)
      ensures mode == old(mode) && scheduledStart == old(scheduledStart) && scheduledEnd == old(scheduledEnd)
      ensures step == old(step) && loading == old(loading)
    {
      duration := d;
      price := PreviewPrice(expert, mode, d);
    }

    /** `handleTimeSelection`: the start and an end `duration` minutes later. `startMs` is the
        instant `new Date(start)` denotes, none for an invalid date (the emptied field's `''` is
        one). For an invalid date the updater passed to `setBookingData` calls `toISOString`,
        which throws a `RangeError`: the handler itself returns, the update never takes effect, and
        the throw recurs when React renders the queued state, which unmounts the form.
        `Thrown` stands for that queued throw; the form's state here is the one left behind. */
    method TimeSelection(start: string, startMs: Option<int>) returns (outcome: Outcome)
      requires Valid()
      requires start == "" ==> startMs.None?
      modifies this
      ensures Valid()
      ensures outcome == Done <==> startMs.Some?
      ensures startMs.Some? ==> scheduledStart == start && scheduledEnd == Some(startMs.value + old(duration) * MsPerMinute)
      ensures startMs.None? ==> outcome == Thrown("Invalid time value")
      ensures startMs.None? ==> scheduledStart == old(scheduledStart) && scheduledEnd == old(scheduledEnd)
      ensures mode == old(mode) && duration == old(duration) && price == old(price)
      ensures step == old(step) && loading == old(loading)
    {
      if startMs.None? {
        return Thrown("Invalid time value");
      }
      scheduledStart := start;
      scheduledEnd := Some(startMs.value + duration * MsPerMinute);
      outcome := Done;
    }

    /** The Next button of the current step. */
    method Next()
      requires Valid()
      modifies this
      ensures Valid()
      ensures step == NextStep(old(step), old(scheduledStart))
      ensures mode == old(mode) && duration == old(duration) && price == old(price) && loading == old(loading)
      ensures scheduledStart == old(scheduledStart) && scheduledEnd == old(scheduledEnd)
    {
      step := NextStep(step, scheduledStart);
    }

    /** The Back button of the current step. */
    method Back()
      requires Valid()
      modifies this
      ensures Valid()
      ensures step == BackStep(old(step))
      ensures mode == old(mode) && duration == old(duration) && price == old(price) && loading == old(loading)
      ensures scheduledStart == old(scheduledStart) && scheduledEnd == old(scheduledEnd)
    {
      step := BackStep(step);
    }

    /** `handlePayment`: without Stripe loaded nothing happens. Otherwise the booking is posted
        with the four fields and the header `AuthHeaderFor(accessToken)`; a
        response that is not ok, a missing card element and a card error each end in a
        'Booking Failed' notice carrying the error message; success ends in a 'Booking
        Confirmed!' notice and the modal closing, and `loading` is false afterwards. */
    method Pay(stripeReady: bool, accessToken: Option<string>, answer: FetchAnswer, cardPresent: bool, cardError: Option<string>)
      returns (post: Option<PostRequest>, notice: Option<Notice>, closed: bool)
      requires Valid()
      modifies this
      ensures Valid()
      ensures mode == old(mode) && duration == old(duration) && price == old(price) && step == old(step)
      ensures scheduledStart == old(scheduledStart) && scheduledEnd == old(scheduledEnd)
      ensures !stripeReady ==> post.None? && notice.None? && !closed && loading == old(loading)
      ensures stripeReady ==> !loading
      ensures stripeReady ==>
        post == Some(PostRequest(AuthHeaderFor(accessToken),
                                 PostBody(expert.id, mode, scheduledStart, scheduledEnd)))
      ensures stripeReady ==> notice.Some? && (closed <==> notice.value.kind == "success")
      ensures stripeReady && closed ==>
        answer.Responded? && answer.ok && cardPresent && cardError.None? &&
        notice == Some(Notice("success", "Booking Confirmed!",
                              Some("Your session with " + expert.firstName + " has been booked."), None))
      ensures stripeReady && answer.Responded? && answer.ok && cardPresent && cardError.None? ==> closed
      ensures stripeReady && !closed ==> notice.value.kind == "error" && notice.value.title == "Booking Failed"
      ensures stripeReady && !closed ==>
        notice.value.message == Some(match answer
          case FetchThrew(m) => m
          case Responded(ok, _) =>
            if !ok then "Failed to create booking"
            else if !cardPresent then "Card element not found"
            else cardError.GetOr(""))
    {
      post, notice, closed := None, None, false;
      if !stripeReady {
        return;
      }
      loading := true;
      post := Some(PostRequest(AuthHeaderFor(accessToken),
                               PostBody(expert.id, mode, scheduledStart, scheduledEnd)));
      var failure: Option<string> := None;
      match answer {
        case FetchThrew(m) =>
          failure := Some(m);
        case Responded(ok, _) =>
          if !ok {
            failure := Some("Failed to create booking");
          } else if !cardPresent {
            failure := Some("Card element not found");
          } else if cardError.Some? {
            failure := cardError;
          }
      }
      if failure.None? {
        notice := Some(Notice("success", "Booking Confirmed!",
                              Some("Your session with " + expert.firstName + " has been booked."), None));
        closed := true;
      } else {
        notice := Some(Notice("error", "Booking Failed", failure, None));
      }
      loading := false;
    }
  }

  /** `ExpertDetailPage`'s `showBookingModal` cell. */
  class DetailPage {
    var showBookingModal: bool

    /** The modal starts open exactly when the page's `book` search parameter is `true`. */
    constructor (bookParam: Option<string>)
      ensures showBookingModal <==> bookParam == Some("true")
    {
      showBookingModal := bookParam == Some("true");
    }

    /** `handleBookSession`: without a user, an info notice and the modal stays as it was; with
        one, the modal opens and nothing is announced. */
    method BookSession(signedIn: bool) returns (notice: Option<Notice>)
      modifies this
      ensures !signedIn ==> showBookingModal == old(showBookingModal)
      ensures !signedIn ==> notice == Some(Notice("info", "Sign in required", Some("Please sign in to book a session"), None))
      ensures signedIn ==> showBookingModal && notice.None?
    {
      if !signedIn {
        notice := Some(Notice("info", "Sign in required", Some("Please sign in to book a session"), None));
        return;
      }
      notice := None;
      showBookingModal := true;
    }
  }
}
