/**
 The two fetch loops. The claim list asks the contract for the connected
 account's claim ids and then for each claim's details; the admin panel
 reads the claim count and then `claims(i)` for every index below it. Both
 build one record per response, in request order, and sort the result
 newest first. The contract's responses are parameters: response `i`
 answers request `i`.
 */
module ClaimFetch {
  import opened ClaimData
  import opened ClaimRecords
  import opened NewestFirst

  predicate AllShaped(responses: seq<seq<AbiValue>>, shape: seq<AbiKind>)
  {
    forall i :: 0 <= i < |responses| ==> HasShape(responses[i], shape)
  }

  /** The records the claim list builds, before sorting. */
  function PolicyholderRecords(ids: seq<nat>, details: seq<seq<AbiValue>>): (r: seq<Claim>)
    requires |ids| == |details| && AllShaped(details, DetailsShape)
    ensures |r| == |ids|
    ensures forall i :: 0 <= i < |r| ==> Storable(r[i]) && r[i].claimId == ids[i] && DetailsTuple(r[i]) == details[i]
  {
    seq(|ids|, i requires 0 <= i < |ids| => FromDetails(ids[i], details[i]))
  }

  /** The records the admin panel builds, before sorting. */
  function AllRecords(responses: seq<seq<AbiValue>>): (r: seq<Claim>)
    requires AllShaped(responses, ClaimsGetterShape)
    ensures |r| == |responses|
    ensures forall i :: 0 <= i < |r| ==> Storable(r[i]) && ClaimsGetterTuple(r[i]) == responses[i]
  {
    seq(|responses|, i requires 0 <= i < |responses| => FromClaimsGetter(responses[i]))
  }

  /** The claim list's fetch: one record per id, newest first, nothing
      added, dropped or altered, ties in request order. */
  method FetchPolicyholderClaims(ids: seq<nat>, details: seq<seq<AbiValue>>) returns (claims: seq<Claim>)
    requires |ids| == |details| && AllShaped(details, DetailsShape)
    ensures |claims| == |ids|
    ensures Sorted(claims)
    ensures multiset(claims) == multiset(PolicyholderRecords(ids, details))
    ensures forall t: nat :: WithTimestamp(claims, t) == WithTimestamp(PolicyholderRecords(ids, details), t)
  {
    var built: seq<Claim> := [];
    var i := 0;
    while i < |ids|
      invariant 0 <= i <= |ids|
      invariant |built| == i
      invariant forall j :: 0 <= j < i ==> built[j] == FromDetails(ids[j], details[j])
    {
      built := built + [FromDetails(ids[i], details[i])];
      i := i + 1;
    }
    assert built == PolicyholderRecords(ids, details);
    claims := Sort(built);
    forall t: nat
      ensures WithTimestamp(claims, t) == WithTimestamp(built, t)
    {
      SortIsStable(built, t);
    }
  }

  /** The admin panel's fetch: one record per index below the claim count,
      newest first, nothing added, dropped or altered, ties in index order. */
  method FetchAllClaims(total: nat, responses: seq<seq<AbiValue>>) returns (claims: seq<Claim>)
    requires |responses| == total && AllShaped(responses, ClaimsGetterShape)
    ensures |claims| == total
    ensures Sorted(claims)
    ensures multiset(claims) == multiset(AllRecords(responses))
    ensures forall t: nat :: WithTimestamp(claims, t) == WithTimestamp(AllRecords(responses), t)
  {
    var built: seq<Claim> := [];
    var i := 0;
    while i < total
      invariant 0 <= i <= total
      invariant |built| == i
      invariant forall j :: 0 <= j < i ==> built[j] == FromClaimsGetter(responses[j])
    {
      built := built + [FromClaimsGetter(responses[i])];
      i := i + 1;
    }
    assert built == AllRecords(responses);
    claims := Sort(built);
    forall t: nat
      ensures WithTimestamp(claims, t) == WithTimestamp(built, t)
    {
      SortIsStable(built, t);
    }
  }
}
