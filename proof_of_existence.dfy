/** The Proof-of-Existence pallet: a claim ledger mapping each piece of content
    to the single account that owns it. */
module ProofOfExistence {
  import opened Support

  /** The content that can be claimed. */
  type Content = string

  const ClaimAlreadyExists: string := "Claim already exists"
  const ClaimDoesNotExist: string := "Claim does not exist"
  const NotTheOwner: string := "Not the owner"

  /** Owner of `claim`, if any. Being a map, the ledger has at most one owner per content. */
  function ClaimOf(claims: map<Content, AccountID>, claim: Content): (r: Option<AccountID>)
    ensures r.Some? <==> claim in claims
    ensures r.Some? ==> r.value == claims[claim]
  {
    if claim in claims then Some(claims[claim]) else None
  }

  /** The calls this pallet exposes; each carries its own caller. */
  datatype Call =
    | CreateClaim(caller: AccountID, claim: Content)
    | RevokeClaim(caller: AccountID, claim: Content)

  /** Result and new ledger of `create_claim(caller, claim)`. */
  function CreateClaimOutcome(claims: map<Content, AccountID>, caller: AccountID, claim: Content)
    : (r: (DispatchResult, map<Content, AccountID>))
    ensures r.0 == Ok <==> ClaimOf(claims, claim) == None
    ensures claim in claims ==> r == (Err(ClaimAlreadyExists), claims)
    ensures claim !in claims ==> ClaimOf(r.1, claim) == Some(caller) && r.1.Keys == claims.Keys + {claim}
    ensures forall c :: c != claim ==> ClaimOf(r.1, c) == ClaimOf(claims, c)
  {
    if claim in claims then (Err(ClaimAlreadyExists), claims)
    else (Ok, claims[claim := caller])
  }

  /** Result and new ledger of `revoke_claim(caller, claim)`. */
  function RevokeClaimOutcome(claims: map<Content, AccountID>, caller: AccountID, claim: Content)
    : (r: (DispatchResult, map<Content, AccountID>))
    ensures r.0 == Ok <==> ClaimOf(claims, claim) == Some(caller)
    ensures claim !in claims ==> r == (Err(ClaimDoesNotExist), claims)
    ensures claim in claims && claims[claim] != caller ==> r == (Err(NotTheOwner), claims)
    ensures r.0 == Ok ==> ClaimOf(r.1, claim) == None && r.1.Keys == claims.Keys - {claim}
    ensures forall c :: c != claim ==> ClaimOf(r.1, c) == ClaimOf(claims, c)
  {
    match ClaimOf(claims, claim)
    case Some(owner) =>
      if owner == caller then (Ok, claims - {claim}) else (Err(NotTheOwner), claims)
    case None => (Err(ClaimDoesNotExist), claims)
  }

  /** Once `x` has claimed `claim`, a create by anyone fails until the claim is
      revoked, and the owner stays `x`. */
  lemma ClaimBlocksLaterCreate(claims: map<Content, AccountID>, x: AccountID, y: AccountID, claim: Content)
    requires CreateClaimOutcome(claims, x, claim).0 == Ok
    ensures var after := CreateClaimOutcome(claims, x, claim).1;
            CreateClaimOutcome(after, y, claim) == (Err(ClaimAlreadyExists), after)
            && ClaimOf(after, claim) == Some(x)
  {
  }

  class Pallet {
    /** Storage map from content to the owner of that content. */
    var claims: map<Content, AccountID>

    constructor ()
      ensures claims == map[]
    {
      claims := map[];
    }

    /** Looks up the owner of `claim`; changes nothing. */
    method GetClaim(claim: Content) returns (r: Option<AccountID>)
      ensures r == ClaimOf(claims, claim)
    {
      if claim in claims {
        r := Some(claims[claim]);
      } else {
        r := None;
      }
    }

    method CreateClaim(caller: AccountID, claim: Content) returns (r: DispatchResult)
      modifies this
      ensures (r, claims) == CreateClaimOutcome(old(claims), caller, claim)
    {
      if claim in claims {
        r := Err(ClaimAlreadyExists);
      } else {
        claims := claims[claim := caller];
        r := Ok;
      }
    }

    method RevokeClaim(caller: AccountID, claim: Content) returns (r: DispatchResult)
      modifies this
      ensures (r, claims) == RevokeClaimOutcome(old(claims), caller, claim)
    {
      var owner := GetClaim(claim);
      if owner.Some? {
        if owner.value == caller {
          claims := claims - {claim};
          r := Ok;
        } else {
          r := Err(NotTheOwner);
        }
      } else {
        r := Err(ClaimDoesNotExist);
      }
    }
  }
}
