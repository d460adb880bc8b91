/**
 The amount the admin panel sends with a verify call, and the
 approve/deny suggestion shown beside the fraud-score slider.

 Amounts are wei, held by the client as bigint: unbounded integers whose
 `/` rounds toward zero. The fraud score comes from a slider with step 1,
 so it is an integer and `Math.floor` leaves the multiplier unchanged.
 */
module PayoutRules {
  import opened ClaimData

  /** Lowest and highest value of the fraud-score and threshold sliders. */
  const MinScore: int := 0
  const MaxScore: int := 100

  /** Above this score the requested amount is scaled down. */
  const FullPayoutLimit: int := 50

  /** The review form's initial fraud score and the threshold shown until
      the contract's own threshold has been read. */
  const DefaultScore: int := 50
  const DefaultThreshold: int := 70

  /** bigint division by 100: the quotient is rounded toward zero. */
  function DivHundred(a: int): (q: int)
    ensures a >= 0 ==> 0 <= 100 * q <= a < 100 * q + 100
    ensures a < 0 ==> 100 * q - 100 < a <= 100 * q <= 0
  {
    if a >= 0 then a / 100 else -((-a) / 100)
  }

  /** The scaled-down amount used for scores above 50:
      `requested * ((100 - score) * 2) / 100` in bigint arithmetic. */
  function ScaledAmount(requested: nat, score: int): int
  {
    DivHundred(requested * ((MaxScore - score) * 2))
  }

  /** The approved amount derived from the fraud score alone. */
  function FormulaAmount(requested: nat, score: int): (amount: int)
    ensures score <= FullPayoutLimit ==> amount == requested
    ensures FullPayoutLimit < score <= MaxScore ==>
      100 * amount <= 2 * requested * (MaxScore - score) < 100 * amount + 100
    ensures MinScore <= score <= MaxScore ==> 0 <= amount <= requested
  {
    if score > FullPayoutLimit then ScaledAmount(requested, score) else requested
  }

  /** The review form: the slider's fraud score and the optional
      "Approved Amount" text field. `manualWei` is the field's value in wei
      as the wallet library parses it; it matters only when the field holds
      some text. The input's `min="0"` does not stop a typed negative
      value, which parses to a negative amount. */
  datatype ReviewForm = ReviewForm(score: int, manualText: string, manualWei: int)

  const DefaultForm: ReviewForm := ReviewForm(DefaultScore, "", 0)

  /** The approved amount the verify call carries: any text in the manual
      field wins (a non-empty string is truthy, even "0"); otherwise the
      fraud-score formula applies. */
  function ApprovedAmount(form: ReviewForm, requested: nat): (amount: int)
    ensures form.manualText != "" ==> amount == form.manualWei
    ensures form.manualText == "" ==> amount == FormulaAmount(requested, form.score)
    ensures form.manualText == "" && MinScore <= form.score <= MaxScore ==> 0 <= amount <= requested
  {
    if form.manualText != "" then form.manualWei else FormulaAmount(requested, form.score)
  }

  /** The arguments of the contract's `verifyClaim`. */
  datatype VerifyCall = VerifyCall(claimId: nat, score: int, approvedAmount: int)

  /** The verify button does nothing while no claim id has been entered;
      otherwise it sends the id, the slider's score and the derived amount.
      `claimId` is the entered text as `parseInt` reads it, and `requested`
      is position 1 of the claim's details as the contract returns them. */
  function PrepareVerify(selectedText: string, claimId: nat, form: ReviewForm, requested: nat): (call: Option<VerifyCall>)
    ensures call.Some? <==> selectedText != ""
    ensures call.Some? ==> call.value.claimId == claimId && call.value.score == form.score
    ensures call.Some? && form.manualText != "" ==> call.value.approvedAmount == form.manualWei
    ensures call.Some? && form.manualText == "" && MinScore <= form.score <= MaxScore ==>
      0 <= call.value.approvedAmount <= requested
    ensures call.Some? && form.manualText == "" && form.score <= FullPayoutLimit ==>
      call.value.approvedAmount == requested
  {
    if selectedText == "" then None else Some(VerifyCall(claimId, form.score, ApprovedAmount(form, requested)))
  }

  /** The hint beside the slider. */
  datatype Suggestion = WillApprove | WillDeny

  function Suggest(score: int, threshold: int): (s: Suggestion)
    ensures s == WillApprove <==> score < threshold
  {
    if score < threshold then WillApprove else WillDeny
  }

  /** The amount an admin override sends: everything requested when
      approving, nothing when denying. */
  function OverrideAmount(approve: bool, requested: nat): (amount: nat)
    ensures amount <= requested
    ensures approve ==> amount == requested
    ensures !approve ==> amount == 0
  {
    if approve then requested else 0
  }

  /** Rounding toward zero never breaks the order of two dividends. */
  lemma DivHundredMonotone(a: int, b: int)
    requires a <= b
    ensures DivHundred(a) <= DivHundred(b)
  {
  }

  /** The scaled amount shrinks, or stays, as the score rises. */
  lemma ScaledAmountMonotone(requested: nat, s1: int, s2: int)
    requires s1 <= s2
    ensures ScaledAmount(requested, s2) <= ScaledAmount(requested, s1)
  {
    var a1 := requested * ((MaxScore - s1) * 2);
    var a2 := requested * ((MaxScore - s2) * 2);
    assert a1 - a2 == requested * ((s2 - s1) * 2);
    assert requested * ((s2 - s1) * 2) >= 0;
    DivHundredMonotone(a2, a1);
  }

  /** The two branches meet at the limit: the scaled formula evaluated at
      score 50 gives back the full amount, so there is no jump there. */
  lemma BranchesMeetAtLimit(requested: nat)
    ensures ScaledAmount(requested, FullPayoutLimit) == requested
    ensures FormulaAmount(requested, FullPayoutLimit) == requested
  {
    assert requested * ((MaxScore - FullPayoutLimit) * 2) == 100 * requested;
  }

  /** A higher fraud score never yields a larger approved amount. */
  lemma FormulaMonotone(requested: nat, s1: int, s2: int)
    requires s1 <= s2
    ensures FormulaAmount(requested, s2) <= FormulaAmount(requested, s1)
  {
    if s2 > FullPayoutLimit {
      if s1 > FullPayoutLimit {
        ScaledAmountMonotone(requested, s1, s2);
      } else {
        ScaledAmountMonotone(requested, FullPayoutLimit, s2);
        BranchesMeetAtLimit(requested);
      }
    }
  }

  /** At the top of the slider nothing is paid; a score of 0 pays in full. */
  lemma FormulaEnds(requested: nat)
    ensures FormulaAmount(requested, MaxScore) == 0
    ensures FormulaAmount(requested, MinScore) == requested
  {
  }

  /** Reference values: 50 still pays everything, 51 already cuts 2%. */
  lemma FormulaExamples()
    ensures FormulaAmount(100, 50) == 100
    ensures FormulaAmount(100, 51) == 98
    ensures FormulaAmount(1000, 75) == 500
    ensures FormulaAmount(7, 99) == 0
  {
  }

  /** The formula has no clamp: a score past the slider's range makes the
      multiplier negative and the amount zero or below. */
  lemma NoClampAboveRange(requested: nat, score: int)
    requires score > MaxScore
    ensures FormulaAmount(requested, score) <= 0
    ensures requested > 0 && score >= MaxScore + 50 ==> FormulaAmount(requested, score) < 0
  {
    var k := (score - MaxScore) * 2;
    var m := requested * k;
    assert requested * ((MaxScore - score) * 2) == -m;
    NonNegativeProduct(requested, k);
    if requested > 0 && score >= MaxScore + 50 {
      assert m == (requested - 1) * k + k;
      NonNegativeProduct(requested - 1, k);
    }
  }

  lemma NonNegativeProduct(x: nat, y: nat)
    ensures x * y >= 0
  {
  }

  /** With text in the manual field the score is irrelevant. */
  lemma ManualAmountIgnoresScore(form: ReviewForm, score: int, requested: nat)
    requires form.manualText != ""
    ensures ApprovedAmount(form.(score := score), requested) == ApprovedAmount(form, requested)
    ensures ApprovedAmount(form, requested) == form.manualWei
  {
  }

  /** The untouched form pays the full requested amount and suggests
      approval under the initial threshold. */
  lemma DefaultFormPaysInFull(requested: nat)
    ensures ApprovedAmount(DefaultForm, requested) == requested
    ensures Suggest(DefaultForm.score, DefaultThreshold) == WillApprove
  {
  }

  /** The suggestion is monotone: a lower score than one suggested for
      approval is suggested for approval too, and so is the same score under
      a higher threshold. A score equal to the threshold is denied. */
  lemma SuggestMonotone(score: int, score': int, threshold: int, threshold': int)
    requires score <= score' && threshold' >= threshold
    ensures Suggest(score', threshold) == WillApprove ==> Suggest(score, threshold') == WillApprove
    ensures Suggest(threshold, threshold) == WillDeny
  {
  }

  /** The suggestion and the derived amount are independent: under the
      initial threshold a score of 60 is suggested for approval while the
      formula already cuts the amount to 80%. */
  lemma SuggestionDoesNotDriveAmount()
    ensures Suggest(60, DefaultThreshold) == WillApprove
    ensures FormulaAmount(100, 60) == 80
  {
  }

  /** An override approval sends what a low-score review would derive, and
      for a non-zero request the amount alone tells approval from denial. */
  lemma OverrideAgreesWithReview(approve: bool, requested: nat, score: int)
    requires score <= FullPayoutLimit
    ensures OverrideAmount(true, requested) == FormulaAmount(requested, score)
    ensures requested > 0 ==> (OverrideAmount(approve, requested) > 0 <==> approve)
  {
  }

  /** The manual amount is sent unchecked: nothing compares it with the
      request or with zero, so an entry above the request, or a negative
      one, goes out as typed. */
  lemma ManualAmountUnchecked(selectedText: string, claimId: nat, form: ReviewForm, requested: nat)
    requires selectedText != "" && form.manualText != ""
    ensures PrepareVerify(selectedText, claimId, form, requested) == Some(VerifyCall(claimId, form.score, form.manualWei))
    ensures PrepareVerify("3", 3, ReviewForm(10, "5", 500), 100) == Some(VerifyCall(3, 10, 500))
    ensures PrepareVerify("3", 3, ReviewForm(10, "-1", -1), 100) == Some(VerifyCall(3, 10, -1))
  {
  }
}
