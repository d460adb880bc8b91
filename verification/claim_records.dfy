/**
 Building claim records from what the claims contract returns. Two getters
 are used: `getClaimDetails(id)` returns eight values without the id (the
 claim list and the admin actions read it), and the public `claims(i)`
 getter returns nine, the id first (the admin panel's list reads it). The
 output kinds of both are those of the contract's ABI.
 */
module ClaimRecords {
  import opened ClaimData

  /** A decoded ABI output value. */
  datatype AbiValue = Uint(n: nat) | Address(addr: string) | Text(s: string)

  /** The ABI type of an output position. */
  datatype AbiKind = UintKind | Uint8Kind | AddressKind | StringKind

  predicate HasKind(v: AbiValue, k: AbiKind)
  {
    match k
    case UintKind => v.Uint?
    case Uint8Kind => v.Uint? && v.n < 256
    case AddressKind => v.Address?
    case StringKind => v.Text?
  }

  predicate HasShape(t: seq<AbiValue>, shape: seq<AbiKind>)
  {
    |t| == |shape| && forall i :: 0 <= i < |t| ==> HasKind(t[i], shape[i])
  }

  /** policyholder, requestedAmount, approvedAmount, fraudScore, status,
      timestamp, ipfsDocumentHash, verifier. */
  const DetailsShape: seq<AbiKind> :=
    [AddressKind, UintKind, UintKind, UintKind, Uint8Kind, UintKind, StringKind, AddressKind]

  /** The same fields with the claim id in front. */
  const ClaimsGetterShape: seq<AbiKind> := [UintKind] + DetailsShape

  /** A claim the contract can hold: its status fits the uint8 enum. */
  predicate Storable(c: Claim)
  {
    c.status < 256
  }

  /** What `getClaimDetails` returns for a stored claim. */
  function DetailsTuple(c: Claim): (t: seq<AbiValue>)
    requires Storable(c)
    ensures HasShape(t, DetailsShape)
  {
    [Address(c.policyholder), Uint(c.requestedAmount), Uint(c.approvedAmount), Uint(c.fraudScore),
     Uint(c.status), Uint(c.timestamp), Text(c.ipfsDocumentHash), Address(c.verifier)]
  }

  /** What `claims(i)` returns for a stored claim. */
  function ClaimsGetterTuple(c: Claim): (t: seq<AbiValue>)
    requires Storable(c)
    ensures HasShape(t, ClaimsGetterShape)
  {
    [Uint(c.claimId)] + DetailsTuple(c)
  }

  /** The claim list's record: the id comes from the id list, the other
      eight fields from positions 0..7 of the details. */
  function FromDetails(id: nat, t: seq<AbiValue>): (c: Claim)
    requires HasShape(t, DetailsShape)
    ensures Storable(c) && c.claimId == id
    ensures DetailsTuple(c) == t
  {
    Claim(id, t[0].addr, t[1].n, t[2].n, t[3].n, t[4].n, t[5].n, t[6].s, t[7].addr)
  }

  /** The admin panel's record: all nine fields from positions 0..8. */
  function FromClaimsGetter(t: seq<AbiValue>): (c: Claim)
    requires HasShape(t, ClaimsGetterShape)
    ensures Storable(c)
    ensures ClaimsGetterTuple(c) == t
  {
    Claim(t[0].n, t[1].addr, t[2].n, t[3].n, t[4].n, t[5].n, t[6].n, t[7].s, t[8].addr)
  }

  /** The admin actions read the requested amount as position 1 of the
      details. */
  function RequestedFromDetails(t: seq<AbiValue>): (amount: nat)
    requires HasShape(t, DetailsShape)
    ensures amount == FromDetails(0, t).requestedAmount
  {
    t[1].n
  }

  /** Reading a claim back from its details gives the same claim. */
  lemma DetailsRoundTrip(c: Claim)
    requires Storable(c)
    ensures FromDetails(c.claimId, DetailsTuple(c)) == c
  {
  }

  /** Reading a claim back from the `claims(i)` getter gives the same claim. */
  lemma ClaimsGetterRoundTrip(c: Claim)
    requires Storable(c)
    ensures FromClaimsGetter(ClaimsGetterTuple(c)) == c
  {
  }

  /** The two constructions agree: the nine-value record is the
      eight-value record with the id taken from position 0. */
  lemma GettersAgree(t: seq<AbiValue>)
    requires HasShape(t, ClaimsGetterShape)
    ensures HasShape(t[1..], DetailsShape)
    ensures FromClaimsGetter(t) == FromDetails(t[0].n, t[1..])
  {
    assert forall i :: 0 <= i < |t[1..]| ==> t[1..][i] == t[i + 1];
  }

  /** The amount the admin actions read from the details is the requested
      amount the claim list shows for that claim. */
  lemma ActionsReadRequestedAmount(c: Claim)
    requires Storable(c)
    ensures RequestedFromDetails(DetailsTuple(c)) == c.requestedAmount
  {
  }
}
