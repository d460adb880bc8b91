/**
 What a claim row and the details dialog show, and which admin actions a
 row offers. The rows of the details dialog and the lines of an admin-panel
 card are written separately in the two files; each is modelled as written
 and the lemmas show they agree.

 The action buttons are the only trace of the claim lifecycle in the
 client: which transitions are legal is decided by the claims contract,
 which is not part of this model.
 */
module ClaimView {
  import opened ClaimData
  import PayoutRules
  import opened ClaimRecords

  /** The all-zero address, as the wallet library spells it. */
  const ZeroAddress: string := "0x0000000000000000000000000000000000000000"

  /** Details dialog: the "Approved" row is drawn unless the claim is
      still pending. */
  function ShowApprovedRow(c: Claim): (shown: bool)
    ensures shown <==> DecodeStatus(c.status) != Some(Pending)
  {
    c.status != 0
  }

  /** Details dialog: the "Fraud Score" row is drawn once a score is set;
      an unscored claim carries score 0. */
  function ShowFraudScoreRow(c: Claim): (shown: bool)
    ensures shown <==> c.fraudScore != 0
  {
    c.fraudScore > 0
  }

  /** Details dialog: the "Verified by" row is drawn when the verifier is a
      non-empty string other than the zero address. */
  function ShowVerifierRow(c: Claim): (shown: bool)
    ensures shown <==> c.verifier !in {"", ZeroAddress}
  {
    c.verifier != "" && c.verifier != ZeroAddress
  }

  /** Admin-panel card: the "Approved" line, written separately from the
      dialog's row but shown exactly when it is. */
  function CardShowsApproved(c: Claim): (shown: bool)
    ensures shown <==> ShowApprovedRow(c)
  {
    c.status != 0
  }

  /** Admin-panel card: the "Fraud Score" line, shown exactly when the
      dialog's row is. */
  function CardShowsFraudScore(c: Claim): (shown: bool)
    ensures shown <==> ShowFraudScoreRow(c)
  {
    c.fraudScore > 0
  }

  /** The dialog hides the approved amount exactly for pending claims, so it
      is shown for every other status, unknown codes included. */
  lemma ApprovedRowByStatus(c: Claim)
    ensures ShowApprovedRow(c) <==> DecodeStatus(c.status) != Some(Pending)
    ensures DecodeStatus(c.status).None? ==> ShowApprovedRow(c)
  {
  }

  /** The dialog and the admin card show the same optional lines. */
  lemma CardMatchesDialog(c: Claim)
    ensures CardShowsApproved(c) <==> ShowApprovedRow(c)
    ensures CardShowsFraudScore(c) <==> ShowFraudScoreRow(c)
  {
  }

  /** An unset verifier, reported either as the empty string or as the
      zero address, is never shown; any other verifier is. */
  lemma VerifierRowHidesUnset(c: Claim)
    ensures c.verifier == ZeroAddress ==> !ShowVerifierRow(c)
    ensures c.verifier == "" ==> !ShowVerifierRow(c)
    ensures c.verifier != "" && c.verifier != ZeroAddress ==> ShowVerifierRow(c)
  {
  }

  /** On a record built from the contract's details, the optional rows are
      decided by the tuple's positions: status (4), fraud score (3) and
      verifier (7). */
  lemma RowsOnFetchedRecord(id: nat, t: seq<AbiValue>)
    requires HasShape(t, DetailsShape)
    ensures ShowApprovedRow(FromDetails(id, t)) <==> t[4] != Uint(0)
    ensures ShowFraudScoreRow(FromDetails(id, t)) <==> t[3] != Uint(0)
    ensures ShowVerifierRow(FromDetails(id, t)) <==> t[7].addr != "" && t[7].addr != ZeroAddress
  {
    var c := FromDetails(id, t);
    assert DetailsTuple(c) == t;
    assert t[3] == Uint(c.fraudScore) && t[4] == Uint(c.status) && t[7] == Address(c.verifier);
  }

  /** A claim read back from the contract before review (status Pending,
      score 0, zero-address verifier) shows none of the optional rows. */
  lemma UnreviewedClaimShowsNoOptionalRows(c: Claim)
    requires Storable(c) && c.status == Code(Pending) && c.fraudScore == 0 && c.verifier == ZeroAddress
    ensures var r := FromDetails(c.claimId, DetailsTuple(c));
      !ShowApprovedRow(r) && !ShowFraudScoreRow(r) && !ShowVerifierRow(r)
  {
    DetailsRoundTrip(c);
  }

  /** A button on an admin-panel row. */
  datatype Action = Approve | Deny | ExecutePayout

  /** The buttons a row shows, left to right, for a status code. */
  function OfferedActions(status: int): (acts: seq<Action>)
    ensures Approve in acts <==> DecodeStatus(status) == Some(Pending)
    ensures Deny in acts <==> DecodeStatus(status) == Some(Pending)
    ensures ExecutePayout in acts <==> DecodeStatus(status) == Some(Approved)
    ensures acts == [] <==> DecodeStatus(status) !in {Some(Pending), Some(Approved)}
  {
    (if status == 0 then [Approve, Deny] else []) + (if status == 1 then [ExecutePayout] else [])
  }

  /** No row offers both a decision and a payout, and a row offers a button
      only for a claim that still awaits one: the decision while pending,
      the payout once approved. Denied, paid-out and unknown codes get
      none. */
  lemma ActionsExclusive(status: int)
    ensures !(Approve in OfferedActions(status) && ExecutePayout in OfferedActions(status))
    ensures |OfferedActions(status)| <= 2
    ensures DecodeStatus(status) == Some(Denied) ==> OfferedActions(status) == []
    ensures DecodeStatus(status) == Some(PaidOut) ==> OfferedActions(status) == []
    ensures DecodeStatus(status).None? ==> OfferedActions(status) == []
  {
  }

  /** The contract call a button issues. */
  datatype ContractCall =
    | AdminOverrideClaim(claimId: nat, approved: bool, amount: nat)
    | ExecutePayoutCall(claimId: nat)

  /** The call for a button of the row of `c`; `requested` is the requested
      amount the handler reads back from the contract's details. */
  function CallFor(a: Action, c: Claim, requested: nat): (call: ContractCall)
    ensures call.claimId == c.claimId
    ensures call.AdminOverrideClaim? <==> a != ExecutePayout
    ensures call.AdminOverrideClaim? ==> call.approved == (a == Approve) && call.amount <= requested
    ensures a == Approve ==> call == AdminOverrideClaim(c.claimId, true, requested)
    ensures a == Deny ==> call == AdminOverrideClaim(c.claimId, false, 0)
  {
    match a
    case Approve => AdminOverrideClaim(c.claimId, true, PayoutRules.OverrideAmount(true, requested))
    case Deny => AdminOverrideClaim(c.claimId, false, PayoutRules.OverrideAmount(false, requested))
    case ExecutePayout => ExecutePayoutCall(c.claimId)
  }

  /** Every call a row can issue is an override of a pending claim or a
      payout of an approved one. */
  lemma RowCallsFollowStatus(c: Claim, a: Action, requested: nat)
    requires a in OfferedActions(c.status)
    ensures CallFor(a, c, requested).AdminOverrideClaim? ==> DecodeStatus(c.status) == Some(Pending)
    ensures CallFor(a, c, requested).ExecutePayoutCall? ==> DecodeStatus(c.status) == Some(Approved)
  {
  }
}
