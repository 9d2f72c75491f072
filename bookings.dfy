/** The `bookings` table as `POST /api/bookings`, `GET /api/bookings/:id` and
    `PUT /api/bookings/:id` use it. The table is an in-memory sequence of rows; the payment
    processor and the database's own failures are parameters (what the collaborator answered). */
module Bookings {
  import opened Common
  import opened Pricing

  datatype Status = Requested | Confirmed | InProgress | Completed | Cancelled

  /** The statuses the update schema accepts (`requested` is not among them). */
  type UpdateStatus = s: Status | s != Requested witness Confirmed

  datatype CaptureMethod = Automatic | Manual

  /** A `bookings` row. Instants are milliseconds since the epoch. */
  datatype Booking = Booking(
    id: string,
    clientId: string,
    expertId: string,
    categoryId: Option<string>,
    orgId: Option<string>,
    mode: Mode,
    scheduledStart: int,
    scheduledEnd: int,
    actualStart: Option<int>,
    actualEnd: Option<int>,
    meetingUrl: Option<string>,
    priceCentsTotal: int,
    commissionPct: int,
    expertNetCents: int,
    paymentIntentId: string,
    status: Status)

  /** The validated body of `POST /api/bookings`. */
  datatype CreateRequest = CreateRequest(
    expertId: string,
    categoryId: Option<string>,
    mode: Mode,
    scheduledStart: int,
    scheduledEnd: int,
    orgId: Option<string>)

  /** The validated body of `PUT /api/bookings/:id`: every field optional. */
  datatype UpdatePatch = UpdatePatch(
    status: Option<UpdateStatus>,
    actualStart: Option<int>,
    actualEnd: Option<int>,
    meetingUrl: Option<string>)

  /** What is sent to the payment processor when a booking is created. */
  datatype PaymentIntentRequest = PaymentIntentRequest(
    amountCents: int,
    currency: string,
    captureMethod: CaptureMethod,
    expertId: string,
    clientId: string,
    mode: Mode)

  /** What is sent to the payment processor when a per-minute booking completes. */
  datatype CaptureRequest = CaptureRequest(paymentIntentId: string, amountToCapture: int)

  /** The user the authentication middleware attached to the request. */
  datatype RequestUser = RequestUser(id: string, role: string)

  datatype Response =
    | Ok(booking: Booking)        // 200, or 201 for a created booking
    | NotFound                    // 404
    | Forbidden                   // 403 'Access denied'
    | Failed(reason: string)      // thrown; handed to next(error)

  function CaptureMethodFor(mode: Mode): (c: CaptureMethod)
    ensures c == Manual <==> mode == PerMinute
  {
    if mode == PerMinute then Manual else Automatic
  }

  /** The payment intent created for a booking request. */
  function IntentFor(req: CreateRequest, clientId: string, rates: ExpertRates, nowMs: int): PaymentIntentRequest {
    var q := QuoteFor(req.mode, rates, req.scheduledStart, req.scheduledEnd, nowMs);
    PaymentIntentRequest(q.priceCentsTotal, "usd", CaptureMethodFor(req.mode), req.expertId, clientId, req.mode)
  }

  /** The row inserted for a booking request. It depends only on the request, the expert's rates,
      the clock and the payment intent: no other booking is consulted. */
  function NewBooking(id: string, clientId: string, req: CreateRequest, rates: ExpertRates,
                      nowMs: int, intentId: string): Booking
  {
    var q := QuoteFor(req.mode, rates, req.scheduledStart, req.scheduledEnd, nowMs);
    Booking(id, clientId, req.expertId, req.categoryId, req.orgId, req.mode,
            req.scheduledStart, req.scheduledEnd, None, None, None,
            q.priceCentsTotal, q.commissionPct, q.expertNetCents, intentId, Requested)
  }

  /** A new booking is `requested`, is priced as the payment intent is, keeps 20% commission,
      pays the expert between 0 and the price, and is captured manually exactly when it is
      per-minute. */
  lemma NewBookingFacts(id: string, clientId: string, req: CreateRequest, rates: ExpertRates,
                        nowMs: int, intentId: string)
    requires rates.fixed15Cents >= 0 && rates.fixed30Cents >= 0 && rates.fixed60Cents >= 0
    requires rates.ratePerMinuteCents >= 0
    ensures var b := NewBooking(id, clientId, req, rates, nowMs, intentId);
            var intent := IntentFor(req, clientId, rates, nowMs);
            b.status == Requested && b.priceCentsTotal == intent.amountCents &&
            b.commissionPct == 20 && 0 <= b.expertNetCents <= b.priceCentsTotal &&
            (intent.captureMethod == Manual <==> b.mode == PerMinute) &&
            b.paymentIntentId == intentId && b.actualStart.None? && b.actualEnd.None?
  {
    var q := QuoteFor(req.mode, rates, req.scheduledStart, req.scheduledEnd, nowMs);
    PriceNonNegative(req.mode, rates, req.scheduledStart, req.scheduledEnd, nowMs);
    NetWithinPrice(q.priceCentsTotal, 20);
  }

  /** The participant check of the GET and PUT handlers: the client, the expert's own profile,
      or an admin. `expertProfileId` is the joined `expert.profile_id`; `None` when the join is
      empty, which the source dereferences (a thrown TypeError) unless the client matched. */
  function ParticipantCheck(b: Booking, expertProfileId: Option<string>, user: RequestUser): (r: Option<bool>)
    ensures r == Some(true) <==>
      b.clientId == user.id || (expertProfileId.Some? && expertProfileId.value == user.id) ||
      (expertProfileId.Some? && user.role == "admin")
    ensures r.None? <==> b.clientId != user.id && expertProfileId.None?
  {
    if b.clientId == user.id then Some(true)
    else if expertProfileId.None? then None
    else Some(expertProfileId.value == user.id || user.role == "admin")
  }

  /** `GET /api/bookings/:id`: 404, 403 or the row. */
  function GetBooking(row: Option<Booking>, expertProfileId: Option<string>, user: RequestUser): (r: Response)
    ensures row.None? ==> r == NotFound
    ensures r.Ok? ==> row == Some(r.booking) && ParticipantCheck(row.value, expertProfileId, user) == Some(true)
    ensures r == Forbidden <==> row.Some? && ParticipantCheck(row.value, expertProfileId, user) == Some(false)
    ensures row.Some? && ParticipantCheck(row.value, expertProfileId, user) == Some(true) ==> r == Ok(row.value)
    ensures row.Some? && ParticipantCheck(row.value, expertProfileId, user).None? ==> r.Failed?
  {
    match row
    case None => NotFound
    case Some(b) =>
      match ParticipantCheck(b, expertProfileId, user)
      case None => Failed("TypeError")
      case Some(true) => Ok(b)
      case Some(false) => Forbidden
  }

  /** The per-minute reconciliation runs exactly when the update asks for `completed`, the
      booking is per-minute, and an actual end is supplied. The current status is not looked at. */
  predicate ShouldReconcile(b: Booking, patch: UpdatePatch) {
    patch.status == Some(Completed) && b.mode == PerMinute && patch.actualEnd.Some?
  }

  /** The actual duration the reconciliation bills: from the supplied actual start, or the
      scheduled start when none is supplied, to the supplied actual end. */
  function ActualDurationMs(b: Booking, patch: UpdatePatch): int
    requires patch.actualEnd.Some?
  {
    patch.actualEnd.value - patch.actualStart.GetOr(b.scheduledStart)
  }

  /** The row after `update(updates)`: the supplied fields overwrite, any supplied status is
      taken as it is, and the reconciled amount and net replace the price fields when given. */
  function ApplyUpdate(b: Booking, patch: UpdatePatch, reconciled: Option<(int, int)>): (r: Booking)
    ensures r.id == b.id && r.clientId == b.clientId && r.expertId == b.expertId && r.mode == b.mode
    ensures r.scheduledStart == b.scheduledStart && r.scheduledEnd == b.scheduledEnd
    ensures r.commissionPct == b.commissionPct && r.paymentIntentId == b.paymentIntentId
    ensures r.status == (if patch.status.Some? then patch.status.value else b.status)
    ensures r.actualStart == (if patch.actualStart.Some? then patch.actualStart else b.actualStart)
    ensures r.actualEnd == (if patch.actualEnd.Some? then patch.actualEnd else b.actualEnd)
    ensures r.meetingUrl == (if patch.meetingUrl.Some? then patch.meetingUrl else b.meetingUrl)
    ensures r.categoryId == b.categoryId && r.orgId == b.orgId
    ensures reconciled.None? ==> r.priceCentsTotal == b.priceCentsTotal && r.expertNetCents == b.expertNetCents
    ensures reconciled.Some? ==> r.priceCentsTotal == reconciled.value.0 && r.expertNetCents == reconciled.value.1
  {
    var withStatus := if patch.status.Some? then b.(status := patch.status.value) else b;
    var withStart := if patch.actualStart.Some? then withStatus.(actualStart := patch.actualStart) else withStatus;
    var withEnd := if patch.actualEnd.Some? then withStart.(actualEnd := patch.actualEnd) else withStart;
    var withUrl := if patch.meetingUrl.Some? then withEnd.(meetingUrl := patch.meetingUrl) else withEnd;
    match reconciled
    case None => withUrl
    case Some((amount, net)) => withUrl.(priceCentsTotal := amount, expertNetCents := net)
  }

  /** There is no transition guard: any status the schema allows replaces any current status,
      so a completed booking can be cancelled and a cancelled one confirmed again. */
  lemma NoTransitionGuard(b: Booking, target: UpdateStatus, reconciled: Option<(int, int)>)
    ensures ApplyUpdate(b, UpdatePatch(Some(target), None, None, None), reconciled).status == target
  {
  }

  /** The reconciled price fields, when the reconciliation runs and the scheduled duration is not
      zero: the amount from the actual duration, the net from the stored commission. */
  function Reconciled(b: Booking, patch: UpdatePatch): (r: (int, int))
    requires ShouldReconcile(b, patch) && b.scheduledEnd != b.scheduledStart
  {
    var amount := ReconciledAmount(ActualDurationMs(b, patch), b.priceCentsTotal, b.scheduledEnd - b.scheduledStart);
    (amount, ExpertNetCents(amount, b.commissionPct))
  }

  /** A per-minute session completed exactly on schedule keeps its price, and its net is
      recomputed from the stored commission. */
  lemma ReconcileOnSchedule(b: Booking, patch: UpdatePatch)
    requires ShouldReconcile(b, patch) && b.scheduledEnd != b.scheduledStart
    requires patch.actualStart.GetOr(b.scheduledStart) == b.scheduledStart
    requires patch.actualEnd == Some(b.scheduledEnd)
    ensures Reconciled(b, patch) == (b.priceCentsTotal, ExpertNetCents(b.priceCentsTotal, b.commissionPct))
  {
    ReconcileFullSession(b.scheduledEnd - b.scheduledStart, b.priceCentsTotal);
  }

  /** Two bookings of one expert clash when their scheduled intervals are not disjoint. */
  predicate Clash(a: Booking, b: Booking) {
    a.expertId == b.expertId && a.scheduledStart < b.scheduledEnd && b.scheduledStart < a.scheduledEnd
  }

  predicate Holds(b: Booking) { b.status == Confirmed || b.status == InProgress }

  /** No two confirmed or in-progress bookings of one expert clash. The handlers do not keep this. */
  predicate CalendarConsistent(rows: seq<Booking>) {
    forall i, j :: 0 <= i < j < |rows| && Holds(rows[i]) && Holds(rows[j]) ==> !Clash(rows[i], rows[j])
  }

  /** Creation consults no other booking and update checks no transition, so two clashing
      requests for one expert can both be created and then both confirmed. */
  lemma DoubleBookingReachable()
    ensures var rates := ExpertRates(850, 1800, 3200, 5800);
            var day := 48 * MsPerHour;
            var first := CreateRequest("exp-1", None, Fixed, day, day + 30 * MsPerMinute, None);
            var second := CreateRequest("exp-1", None, Fixed, day + 15 * MsPerMinute, day + 45 * MsPerMinute, None);
            var a := NewBooking("b-1", "client-1", first, rates, 0, "pi-1");
            var b := NewBooking("b-2", "client-2", second, rates, 0, "pi-2");
            var confirm := UpdatePatch(Some(Confirmed), None, None, None);
            CalendarConsistent([a]) &&
            CalendarConsistent([a, b]) &&
            !CalendarConsistent([ApplyUpdate(a, confirm, None), ApplyUpdate(b, confirm, None)])
  {
    var rates := ExpertRates(850, 1800, 3200, 5800);
    var day := 48 * MsPerHour;
    var first := CreateRequest("exp-1", None, Fixed, day, day + 30 * MsPerMinute, None);
    var second := CreateRequest("exp-1", None, Fixed, day + 15 * MsPerMinute, day + 45 * MsPerMinute, None);
    var a := NewBooking("b-1", "client-1", first, rates, 0, "pi-1");
    var b := NewBooking("b-2", "client-2", second, rates, 0, "pi-2");
    var confirm := UpdatePatch(Some(Confirmed), None, None, None);
    var both := [ApplyUpdate(a, confirm, None), ApplyUpdate(b, confirm, None)];
    assert Holds(both[0]) && Holds(both[1]) && Clash(both[0], both[1]);
  }

  /** The index of the first row with the given id. */
  function IndexOfId(rows: seq<Booking>, id: string): (r: Option<nat>)
    ensures r.Some? ==> r.value < |rows| && rows[r.value].id == id
    ensures r.Some? ==> forall k :: 0 <= k < r.value ==> rows[k].id != id
    ensures r.None? ==> forall k :: 0 <= k < |rows| ==> rows[k].id != id
  {
    if |rows| == 0 then None
    else if rows[0].id == id then Some(0)
    else match IndexOfId(rows[1..], id)
      case None => None
      case Some(k) => Some(k + 1)
  }

  /** The `bookings` table. */
  class BookingTable {
    var rows: seq<Booking>

    /** Row ids are unique (the database generates them). */
    ghost predicate Valid()
      reads this
    {
      forall i, j :: 0 <= i < j < |rows| ==> rows[i].id != rows[j].id
    }

    constructor ()
      ensures rows == [] && Valid()
    {
      rows := [];
    }

    /** `POST /api/bookings`. `expert` is the expert row (or none), `user` the caller,
        `intentId` what the payment processor answered (none: it threw), `insertOk` whether the
        insert succeeded, `newId` the id the database assigns. */
    method Create(req: CreateRequest, expert: Option<ExpertRates>, user: Option<RequestUser>, nowMs: int,
                  intentId: Option<string>, insertOk: bool, newId: string)
      returns (resp: Response, intent: Option<PaymentIntentRequest>)
      requires Valid()
      requires forall k :: 0 <= k < |rows| ==> rows[k].id != newId
      modifies this
      ensures Valid()
      ensures expert.None? ==> resp == NotFound && intent.None? && rows == old(rows)
      ensures expert.Some? && user.None? ==> resp.Failed? && intent.None? && rows == old(rows)
      ensures expert.Some? && user.Some? ==> intent == Some(IntentFor(req, user.value.id, expert.value, nowMs))
      ensures resp.Ok? <==> expert.Some? && user.Some? && intentId.Some? && insertOk
      ensures resp.Ok? ==>
        resp.booking == NewBooking(newId, user.value.id, req, expert.value, nowMs, intentId.value) &&
        rows == old(rows) + [resp.booking]
      ensures !resp.Ok? ==> rows == old(rows)
    {
      if expert.None? {
        return NotFound, None;
      }
      var rates := expert.value;
      var q := ComputeQuote(req.mode, rates, req.scheduledStart, req.scheduledEnd, nowMs);
      if user.None? {
        return Failed("TypeError"), None;
      }
      var clientId := user.value.id;
      intent := Some(PaymentIntentRequest(q.priceCentsTotal, "usd", CaptureMethodFor(req.mode),
                                          req.expertId, clientId, req.mode));
      if intentId.None? {
        return Failed("payment intent not created"), intent;
      }
      var b := Booking(newId, clientId, req.expertId, req.categoryId, req.orgId, req.mode,
                       req.scheduledStart, req.scheduledEnd, None, None, None,
                       q.priceCentsTotal, q.commissionPct, q.expertNetCents, intentId.value, Requested);
      if !insertOk {
        return Failed("insert failed"), intent;
      }
      rows := rows + [b];
      resp := Ok(b);
    }

    /** `PUT /api/bookings/:id`. `expertProfileId` is the joined `expert.profile_id`,
        `captureOk` and `updateOk` what the payment processor and the database answered. */
    method Update(id: string, user: RequestUser, patch: UpdatePatch, expertProfileId: Option<string>,
                  captureOk: bool, updateOk: bool)
      returns (resp: Response, capture: Option<CaptureRequest>)
      requires Valid()
      modifies this
      ensures Valid()
      ensures IndexOfId(old(rows), id).None? ==> resp == NotFound && rows == old(rows)
      ensures !resp.Ok? ==> rows == old(rows)
      ensures capture.Some? ==> IndexOfId(old(rows), id).Some?
      ensures capture.Some? ==>
        var b := old(rows)[IndexOfId(old(rows), id).value];
        ShouldReconcile(b, patch) && b.scheduledEnd != b.scheduledStart &&
        capture.value == CaptureRequest(b.paymentIntentId, Reconciled(b, patch).0)
      ensures resp.Ok? ==> IndexOfId(old(rows), id).Some?
      ensures resp.Ok? ==>
        var i := IndexOfId(old(rows), id).value;
        var b := old(rows)[i];
        ParticipantCheck(b, expertProfileId, user) == Some(true) && updateOk &&
        (ShouldReconcile(b, patch) ==> b.scheduledEnd != b.scheduledStart && captureOk) &&
        resp.booking == ApplyUpdate(b, patch,
          if ShouldReconcile(b, patch) then Some(Reconciled(b, patch)) else None) &&
        rows == old(rows)[i := resp.booking]
      ensures IndexOfId(old(rows), id).Some? ==>
        var b := old(rows)[IndexOfId(old(rows), id).value];
        var access := ParticipantCheck(b, expertProfileId, user);
        var captureGoesThrough := !ShouldReconcile(b, patch) || (b.scheduledEnd != b.scheduledStart && captureOk);
        (access == Some(false) ==> resp == Forbidden && capture.None?) &&
        (access.None? ==> resp.Failed? && capture.None?) &&
        (access == Some(true) && ShouldReconcile(b, patch) && b.scheduledEnd != b.scheduledStart ==>
           capture == Some(CaptureRequest(b.paymentIntentId, Reconciled(b, patch).0))) &&
        (access == Some(true) && !ShouldReconcile(b, patch) ==> capture.None?) &&
        (access == Some(true) && updateOk && captureGoesThrough ==> resp.Ok?)
    {
      capture := None;
      var found := IndexOfId(rows, id);
      if found.None? {
        return NotFound, None;
      }
      var i := found.value;
      var b := rows[i];
      var access := ParticipantCheck(b, expertProfileId, user);
      if access.None? {
        return Failed("TypeError"), None;
      }
      if !access.value {
        return Forbidden, None;
      }
      var reconciled: Option<(int, int)> := None;
      if patch.status == Some(Completed) && b.mode == PerMinute && patch.actualEnd.Some? {
        var actualMs := patch.actualEnd.value - patch.actualStart.GetOr(b.scheduledStart);
        var scheduledMs := b.scheduledEnd - b.scheduledStart;
        if scheduledMs == 0 {
          // the amount is not a finite number, and the processor refuses it
          return Failed("capture refused"), None;
        }
        var amount := ReconciledAmount(actualMs, b.priceCentsTotal, scheduledMs);
        capture := Some(CaptureRequest(b.paymentIntentId, amount));
        if !captureOk {
          return Failed("capture refused"), capture;
        }
        reconciled := Some((amount, ExpertNetCents(amount, b.commissionPct)));
      }
      if !updateOk {
        return Failed("update failed"), capture;
      }
      var updated := ApplyUpdate(b, patch, reconciled);
      rows := rows[i := updated];
      resp := Ok(updated);
    }
  }
}
