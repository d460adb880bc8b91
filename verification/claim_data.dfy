/**
 The claim record the dashboard keeps for every claim it fetched from the
 claims contract, and the four lifecycle statuses the contract reports as
 small integer codes.
 */
module ClaimData {

  datatype Option<T> = None | Some(value: T)

  /** One fetched claim. Amounts and the timestamp are unbounded naturals
      (the contract's uint256 values, held as bigint by the client). */
  datatype Claim = Claim(
    claimId: nat,
    policyholder: string,
    requestedAmount: nat,
    approvedAmount: nat,
    fraudScore: nat,
    status: nat,
    timestamp: nat,
    ipfsDocumentHash: string,
    verifier: string
  )

  /** The contract's claim status enumeration, in declaration order. */
  datatype Status = Pending | Approved | Denied | PaidOut

  /** The code the contract uses for a status (its position in the enum). */
  function Code(s: Status): (c: nat)
    ensures c < 4
  {
    match s
    case Pending => 0
    case Approved => 1
    case Denied => 2
    case PaidOut => 3
  }

  /** Reads a status code; every code outside 0..3 is unknown. */
  function DecodeStatus(code: int): (r: Option<Status>)
    ensures r.Some? <==> 0 <= code < 4
    ensures r.Some? ==> Code(r.value) == code
  {
    if code == 0 then Some(Pending)
    else if code == 1 then Some(Approved)
    else if code == 2 then Some(Denied)
    else if code == 3 then Some(PaidOut)
    else None
  }

  /** Decoding is the inverse of the enum's numbering. */
  lemma DecodeCode(s: Status)
    ensures DecodeStatus(Code(s)) == Some(s)
  {
  }

  /** The name the dashboard shows for a status. */
  function Name(s: Status): string
  {
    match s
    case Pending => "Pending"
    case Approved => "Approved"
    case Denied => "Denied"
    case PaidOut => "PaidOut"
  }

  /** Distinct statuses have distinct names, none of them empty. */
  lemma NamesDistinct(s: Status, t: Status)
    ensures Name(s) != ""
    ensures Name(s) == Name(t) ==> s == t
  {
  }
}
