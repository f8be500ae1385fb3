/**
 * The part of System.Security.Claims that both controllers read: a principal
 * is a sequence of (type, value) claims, and FindFirst returns the value of the
 * first claim of a given type, or null.
 */
module Claims {
  import opened Wrappers

  /** ClaimTypes.NameIdentifier */
  const NameIdentifier: string := "http://schemas.xmlsoap.org/ws/2005/05/identity/claims/nameidentifier"
  /** The JWT subject claim, looked up by its short name. */
  const Subject: string := "sub"

  datatype Claim = Claim(claimType: string, value: string)

  /** The request's `User`: whether authentication succeeded, and its claims in order. */
  datatype Principal = Principal(isAuthenticated: bool, claims: seq<Claim>)

  /** Upper-case mapping of an ASCII letter; every other character maps to itself. */
  function AsciiUpper(c: char): (u: char)
    ensures 'a' <= c <= 'z' ==> u as int == c as int - 32
    ensures !('a' <= c <= 'z') ==> u == c
  {
    if 'a' <= c <= 'z' then (c as int - 32) as char else c
  }

  /**
   * StringComparison.OrdinalIgnoreCase, which ClaimsIdentity.FindFirst uses to
   * compare claim types: same length, and equal character by character once
   * both are upper-cased.
   */
  predicate SameClaimType(a: string, b: string) {
    |a| == |b| && forall i | 0 <= i < |a| :: AsciiUpper(a[i]) == AsciiUpper(b[i])
  }

  /** Position of the first claim whose type matches `t`, or |claims| when there is none. */
  function FirstIndexOf(claims: seq<Claim>, t: string): (k: nat)
    ensures k <= |claims|
    ensures forall j | 0 <= j < k :: !SameClaimType(claims[j].claimType, t)
    ensures k < |claims| ==> SameClaimType(claims[k].claimType, t)
  {
    if |claims| == 0 then 0
    else if SameClaimType(claims[0].claimType, t) then 0
    else 1 + FirstIndexOf(claims[1..], t)
  }

  /** `FindFirst(t)?.Value`: the value of the first claim whose type matches `t`. */
  function FindFirst(p: Principal, t: string): (r: Option<string>)
    ensures r.None? <==> forall j | 0 <= j < |p.claims| :: !SameClaimType(p.claims[j].claimType, t)
    ensures r.Some? ==> exists j | 0 <= j < |p.claims| ::
              && SameClaimType(p.claims[j].claimType, t)
              && p.claims[j].value == r.value
              && forall i | 0 <= i < j :: !SameClaimType(p.claims[i].claimType, t)
  {
    var k := FirstIndexOf(p.claims, t);
    if k < |p.claims| then Some(p.claims[k].value) else None
  }

  /** A claim typed "SUB" answers a lookup of "sub". */
  lemma SubjectLookupIgnoresCase(v: string)
    ensures FindFirst(Principal(true, [Claim("SUB", v)]), Subject) == Some(v)
  {
    assert SameClaimType("SUB", Subject);
  }
}
