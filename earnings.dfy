/** `GET /api/payments/earnings`: an expert's totals over their succeeded payments. */
module Earnings {
  import opened Common

  /** A succeeded payment row, as far as the totals read it. */
  datatype Payment = Payment(expertPayoutCents: int, platformFeeCents: int)

  datatype Summary = Summary(totalEarningsCents: int, totalFeesCents: int, sessionCount: nat)

  datatype EarningsResponse =
    | ExpertNotFound              // 404 'Expert profile not found'
    | Totals(summary: Summary)
    | Failed                      // the payments query returned an error (thrown)

  /** `payments.reduce((sum, p) => sum + p.expert_payout_cents, 0)`, summed left to right. */
  function SumPayouts(ps: seq<Payment>): int {
    if |ps| == 0 then 0 else SumPayouts(ps[..|ps| - 1]) + ps[|ps| - 1].expertPayoutCents
  }

  /** The same over `platform_fee_cents`. */
  function SumFees(ps: seq<Payment>): int {
    if |ps| == 0 then 0 else SumFees(ps[..|ps| - 1]) + ps[|ps| - 1].platformFeeCents
  }

  /** The three totals; a missing payments list (`payments?.…` is undefined) gives zeros. */
  function Summarize(payments: Option<seq<Payment>>): (r: Summary)
    ensures payments.None? ==> r == Summary(0, 0, 0)
    ensures payments.Some? ==> r.sessionCount == |payments.value|
    ensures payments == Some([]) ==> r == Summary(0, 0, 0)
  {
    match payments
    case None => Summary(0, 0, 0)
    case Some(ps) => Summary(SumPayouts(ps), SumFees(ps), |ps|)
  }

  /** The handler: 404 without an expert profile for the caller, a thrown error when the
      payments query fails, the totals otherwise. */
  function Earnings(expertProfileId: Option<string>, payments: Lookup<Option<seq<Payment>>>): (r: EarningsResponse)
    ensures expertProfileId.None? <==> r == ExpertNotFound
    ensures r.Totals? <==> expertProfileId.Some? && payments.Found?
    ensures r.Totals? ==> r.summary == Summarize(payments.value)
  {
    if expertProfileId.None? then ExpertNotFound
    else match payments
      case Found(ps) => Totals(Summarize(ps))
      case _ => Failed
  }

  /** The totals add up over any split of the payments, so each payment is counted once. */
  lemma {:induction false} SumsAppend(a: seq<Payment>, b: seq<Payment>)
    ensures SumPayouts(a + b) == SumPayouts(a) + SumPayouts(b)
    ensures SumFees(a + b) == SumFees(a) + SumFees(b)
    decreases |b|
  {
    if |b| == 0 {
      assert a + b == a;
    } else {
      var ab := a + b;
      assert ab[..|ab| - 1] == a + b[..|b| - 1];
      assert ab[|ab| - 1] == b[|b| - 1];
      SumsAppend(a, b[..|b| - 1]);
    }
  }

  /** Non-negative payouts and fees give non-negative totals that bound every single payment. */
  lemma {:induction false} SumsBound(ps: seq<Payment>, k: int)
    requires forall i :: 0 <= i < |ps| ==> ps[i].expertPayoutCents >= 0 && ps[i].platformFeeCents >= 0
    requires 0 <= k < |ps|
    ensures SumPayouts(ps) >= ps[k].expertPayoutCents >= 0
    ensures SumFees(ps) >= ps[k].platformFeeCents >= 0
  {
    SumsAppend(ps[..k], ps[k..]);
    assert ps[..k] + ps[k..] == ps;
    SumsNonNegative(ps[..k]);
    SumsAppend([ps[k]], ps[k + 1..]);
    assert [ps[k]] + ps[k + 1..] == ps[k..];
    SumsNonNegative(ps[k + 1..]);
    assert SumPayouts([ps[k]]) == ps[k].expertPayoutCents by {
      assert [ps[k]][..0] == [];
    }
    assert SumFees([ps[k]]) == ps[k].platformFeeCents by {
      assert [ps[k]][..0] == [];
    }
  }

  lemma {:induction false} SumsNonNegative(ps: seq<Payment>)
    requires forall i :: 0 <= i < |ps| ==> ps[i].expertPayoutCents >= 0 && ps[i].platformFeeCents >= 0
    ensures SumPayouts(ps) >= 0 && SumFees(ps) >= 0
  {
    if |ps| > 0 {
      SumsNonNegative(ps[..|ps| - 1]);
    }
  }
}
