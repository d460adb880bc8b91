# Insurance-claims dashboard: review and display rules

A browser dashboard for a claims contract. Policyholders list their claims.
An administrator scores pending claims for fraud, approves or denies them,
and triggers payouts. Every state change is a transaction against the
external claims contract; the dashboard only reads claims and builds the
arguments of those transactions. This project models the pure logic the
client does contain:

- **Payout derivation** (`PayoutRules`). This is the approved amount the
  "Verify Claim" form sends. A manual amount wins if one is entered.
  Otherwise a score up to 50 pays the requested amount in full. Above 50
  the client pays `requested * ((100 - score) * 2) / 100` in bigint
  arithmetic, which rounds toward zero. The module also covers the
  "Will Approve / Will Deny" hint, which is `score < threshold`, and the
  override amount: the full request on approve, 0 on deny.
- **Status display** (`ClaimData`, `StatusDisplay`). Status codes 0..3
  are decoded to Pending/Approved/Denied/PaidOut. The module models the
  details dialog's label and colour tables and the two badge tables,
  including the `table[code] || fallback` lookup that yields "Unknown"
  or gray.
- **Claim records** (`ClaimRecords`). A `Claim` is built from the
  eight-value `getClaimDetails` tuple, with the id taken from the id
  list. It is also built from the nine-value `claims(i)` getter. Both
  constructions are proved to invert the contract's tuple encoding and
  to agree with each other.
- **Fetch and newest-first sort** (`NewestFirst`, `ClaimFetch`). Both
  fetch loops build one record per response and then sort by timestamp,
  newest first. The sort is a stable insertion sort, as JavaScript's
  `Array.prototype.sort` is stable. It is proved to be ordered, to be a
  permutation, and to keep claims with equal timestamps in fetch order.
- **Row visibility and actions** (`ClaimView`). This covers the optional
  rows of the details dialog and the admin card. It also covers the
  buttons offered per status: Approve/Deny for Pending and Execute
  Payout for Approved. Finally it covers the contract call each button
  issues.

The claims contract itself is not in this repository. The model
therefore does not contain the lifecycle transition table, authorization
or double-payout rejection. The only client-side trace of the lifecycle
is which buttons a row offers.

Facts about the payout formula, read off the code:

- At requested 100 and score 51 the formula derives 98 (`FormulaExamples`).
- The code does not clamp the result. For scores in the slider's range
  [0,100] the result lies in [0, requested], proved in `FormulaAmount`.
  Above 100 the multiplier goes negative and the amount is zero or below
  (`NoClampAboveRange`).
- Both branches give the full amount at score 50 (`BranchesMeetAtLimit`),
  and the derived amount never rises with the score, over all integers
  (`FormulaMonotone`).
- A manual amount is sent as typed: nothing compares it with the request
  or with zero (`ManualAmountUnchecked`).

## Model

| member | source | states |
|---|---|---|
| ClaimData.DecodeStatus | claim-list.tsx:88-98 | codes 0..3 and only those decode to a status, and each decodes to the status whose enum position it is |
| StatusDisplay.StatusText | claim-details.tsx:22-30 | a known code is labelled with its status's name; the label is "Unknown" exactly when the code is outside 0..3 |
| StatusDisplay.StatusColor | claim-details.tsx:40-48 | the gray fallback class is used exactly for codes outside 0..3 |
| StatusDisplay.StatusColorFamily | claim-details.tsx:40-48 | codes 0..3 are drawn in yellow, green, red and purple, the colour family of their status; every other code in gray |
| StatusDisplay.ListBadge | claim-list.tsx:88-98 | the claim-list badge shows the status name for 0..3 and the gray "Unknown" badge exactly for other codes |
| StatusDisplay.AdminBadge | admin-panel.tsx:271-282 | the admin-panel badge shows the status name for 0..3 and the gray "Unknown" badge exactly for other codes |
| StatusDisplay.TablesAgree | claim-details.tsx:23-28 | the dialog label, the claim-list badge and the admin-panel badge agree on every code |
| PayoutRules.DivHundred | admin-panel.tsx:120 | bigint division by 100 rounds toward zero: floor for non-negative dividends, ceiling for negative ones |
| PayoutRules.FormulaAmount | admin-panel.tsx:119-121 | score ≤ 50 gives the requested amount exactly; 50 < score ≤ 100 gives floor(2·requested·(100−score)/100); for any score in [0,100] the amount lies in [0, requested] |
| PayoutRules.FormulaMonotone | admin-panel.tsx:119-121 | a higher fraud score never yields a larger derived amount, across the branch boundary as well |
| PayoutRules.BranchesMeetAtLimit | admin-panel.tsx:119-121 | the scaled branch evaluated at score 50 equals the requested amount, so the two branches meet without a jump |
| PayoutRules.FormulaEnds | admin-panel.tsx:119-121 | score 100 (the slider's top, lines 425-432) derives 0; score 0 derives the full request |
| PayoutRules.FormulaExamples | admin-panel.tsx:119-121 | reference values: (100, 50) gives 100, (100, 51) gives 98, (1000, 75) gives 500, (7, 99) gives 0 |
| PayoutRules.NoClampAboveRange | admin-panel.tsx:119-121 | with no clamp, a score above 100 gives an amount ≤ 0, and a negative one once the multiplier reaches −100 on a non-zero request |
| PayoutRules.ApprovedAmount | admin-panel.tsx:117-121 | text in the manual field makes its parsed value the amount; an empty field uses the formula, which stays within [0, requested] for slider scores |
| PayoutRules.ManualAmountIgnoresScore | admin-panel.tsx:117-118 | with a non-empty manual field, changing the score leaves the amount unchanged |
| PayoutRules.PrepareVerify | admin-panel.tsx:102-124 | no call is made without an entered claim id; otherwise the call carries that id and the slider's score; its amount is the manual value when one is typed, the full request for scores up to 50, and never outside [0, requested] when the formula is used with a slider score |
| PayoutRules.ManualAmountUnchecked | admin-panel.tsx:117-118 | with text in the manual field the call carries the parsed value whatever the request, e.g. 500 wei against a request of 100, or a negative entry |
| PayoutRules.DefaultFormPaysInFull | admin-panel.tsx:39-42 | the initial form (score 50, empty manual field) derives the full request and, under the initial threshold 70, suggests approval |
| PayoutRules.Suggest | admin-panel.tsx:422 | "Will Approve" exactly when score < threshold, so score == threshold is "Will Deny" |
| PayoutRules.SuggestMonotone | admin-panel.tsx:422 | lowering the score or raising the threshold never turns an approval hint into a denial; equality denies |
| PayoutRules.SuggestionDoesNotDriveAmount | admin-panel.tsx:117-124 | the hint does not feed the amount: a score of 60 is hinted for approval at threshold 70 while the formula cuts the amount to 80% |
| PayoutRules.OverrideAmount | admin-panel.tsx:156 | an override sends the requested amount when approving and 0 when denying, never more than requested |
| PayoutRules.OverrideAgreesWithReview | admin-panel.tsx:156 | an override approval sends what a low-score verify derives; for a non-zero request the amount is positive exactly when approving |
| ClaimRecords.DetailsTuple | page.tsx:332-373 | the details tuple of a stored claim has the getClaimDetails output kinds |
| ClaimRecords.FromDetails | claim-list.tsx:59-72 | the record takes its id from the id list and is the claim whose details tuple is exactly the given one (positions 0..7 in declaration order) |
| ClaimRecords.FromClaimsGetter | admin-panel.tsx:75-87 | the record is the claim whose `claims(i)` tuple is exactly the given one (positions 0..8) |
| ClaimRecords.DetailsRoundTrip | claim-list.tsx:59-72 | reading a stored claim back from its details gives the same claim |
| ClaimRecords.ClaimsGetterRoundTrip | admin-panel.tsx:75-87 | reading a stored claim back from its `claims(i)` tuple gives the same claim |
| ClaimRecords.GettersAgree | admin-panel.tsx:77-87 | the nine-value record equals the eight-value record built from positions 1..8 with the id from position 0 |
| ClaimRecords.RequestedFromDetails | admin-panel.tsx:112-113 | the verify and override handlers read the requested amount the details record holds |
| ClaimRecords.ActionsReadRequestedAmount | admin-panel.tsx:152-153 | for a stored claim, the amount the handlers read is that claim's requested amount |
| NewestFirst.Insert | claim-list.tsx:76 | inserting into a newest-first list keeps it newest first and adds exactly the one claim |
| NewestFirst.Sort | claim-list.tsx:76 | the result is newest first (non-increasing timestamps) and a permutation of the input |
| NewestFirst.InsertKeepsTies | claim-list.tsx:76 | an inserted claim goes in front of the claims of its own age and the order among the others is unchanged |
| NewestFirst.SortIsStable | admin-panel.tsx:91 | for every timestamp, the claims carrying it keep their fetched order |
| NewestFirst.SortIdempotent | admin-panel.tsx:91 | an already newest-first list is left exactly as it is |
| ClaimFetch.FetchPolicyholderClaims | claim-list.tsx:53-78 | the claim list is newest first, a permutation of one record per id and details response, ties in request order |
| ClaimFetch.FetchAllClaims | admin-panel.tsx:69-93 | the admin list has one claim per index below the count, newest first, a permutation of the records built, ties in index order |
| ClaimView.ShowApprovedRow | claim-details.tsx:71 | the dialog's Approved row is drawn exactly when the status does not decode to Pending |
| ClaimView.ShowFraudScoreRow | claim-details.tsx:78 | the dialog's Fraud Score row is drawn exactly when the score is non-zero |
| ClaimView.ShowVerifierRow | claim-details.tsx:90 | the dialog's Verified-by row is drawn exactly when the verifier is neither empty nor the zero address |
| ClaimView.CardShowsApproved | admin-panel.tsx:347 | the admin card's Approved line is drawn exactly when the dialog's Approved row is |
| ClaimView.CardShowsFraudScore | admin-panel.tsx:352 | the admin card's Fraud Score line is drawn exactly when the dialog's Fraud Score row is |
| ClaimView.ApprovedRowByStatus | claim-details.tsx:71 | the Approved row is hidden exactly for pending claims, so it is shown for unknown codes too |
| ClaimView.CardMatchesDialog | admin-panel.tsx:347-356 | the admin card's Approved and Fraud Score lines are shown exactly when the dialog's rows are |
| ClaimView.VerifierRowHidesUnset | claim-details.tsx:90 | an empty or all-zero verifier is never shown; every other verifier is |
| ClaimView.RowsOnFetchedRecord | claim-details.tsx:71-95 | on a record read from the details tuple, the Approved row follows position 4 being non-zero, the Fraud Score row position 3, the Verified-by row the address at position 7 |
| ClaimView.UnreviewedClaimShowsNoOptionalRows | claim-details.tsx:71-95 | a stored claim still pending, unscored and with the zero-address verifier, read back from its details, shows none of the optional rows |
| ClaimView.OfferedActions | admin-panel.tsx:360-393 | Approve and Deny are offered exactly for Pending, Execute Payout exactly for Approved, nothing for Denied, PaidOut or unknown codes |
| ClaimView.ActionsExclusive | admin-panel.tsx:360-393 | no row offers a decision and a payout together; Denied, PaidOut and unknown codes get no button |
| ClaimView.CallFor | admin-panel.tsx:365-387 | Approve overrides with the requested amount, Deny overrides with 0, Execute Payout calls the payout; each for the row's own claim |
| ClaimView.RowCallsFollowStatus | admin-panel.tsx:360-393 | an override can only come from a pending row and a payout only from an approved one |

## Left out

- Wallet connection, account handling, the owner check and the ABI
  constant's use in page.tsx are plumbing. The ABI is consulted only for
  the output kinds of the two getters.
- contact-info.tsx only fetches and displays values; it has no logic.
- submit-claim.tsx is not modelled. Its amount check uses floating-point
  `parseFloat`, its default document hash depends on the clock, and its
  wei conversion is a library call.
- `ethers.parseEther` and `formatEther` are library conversions. The
  manual amount's parsed wei value is an integer parameter (`manualWei`),
  negative values included: the input's `min="0"` (admin-panel.tsx:442)
  does not stop a typed "-1", which parses to a negative amount that the
  client passes on although the call's uint256 argument cannot encode
  it. A malformed manual amount makes `parseEther` throw; that error path
  is not modelled.
- `Number.parseInt` of the entered claim id is not modelled; its result
  is a parameter of `PrepareVerify`.
- `Number(...)` conversions of uint256 values are not modelled. Claim ids
  and fraud scores are kept exact, so precision loss above 2^53 is not
  represented. The sort comparator is modelled by its sign, which
  `Number` of a bigint difference preserves.
- The fraud score is an integer, because the slider has step 1.
  `Math.floor` of a non-integer score is not modelled.
- Dates (`toLocaleString`), address truncation for display, and
  rendering beyond the boolean row and button predicates are left out.
- The async calls, `tx.wait()`, loading and `isProcessing` flags, error
  strings, form resets and the refetch after each write are I/O
  sequencing. The contract's responses are parameters of the fetch
  methods.
- Fund, withdraw and threshold update only forward an amount or a slider
  value to the contract.
- The contract's lifecycle is not modelled: legal transitions,
  double-payout rejection, authorization and treasury funding. That code
  is not part of this repository.
- ClaimRecords.FromDetails and ClaimRecords.FromClaimsGetter require the
  response to have the getter's ABI output kinds. The wallet library's
  decoder guarantees this, and the client has no branch for any other
  shape.
- StatusDisplay.ListBadge and StatusDisplay.AdminBadge state the badge
  caption and the fallback badge. They do not state the colour family of
  the known badges' class strings.
