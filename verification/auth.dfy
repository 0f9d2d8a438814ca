/** The two request guards (middleware/auth.js): `auth`, which turns the
    Authorization header into the caller's account, and `isAdmin`. The
    token's signature check is a parameter: the id a token decodes to, or
    `None` when the verification throws. */
module Auth {
  import opened Wrappers
  import Text
  import opened Common

  const BEARER := "Bearer "

  /** The token: the header with its first "Bearer " removed; `None` when
      there is no header. */
  function TokenOf(header: Option<string>): (t: Option<string>)
    ensures t.None? <==> header.None?
  {
    if header.None? then None else Some(Text.ReplaceFirst(header.value, BEARER, ""))
  }

  /** A bearer header yields what follows the prefix. */
  lemma BearerToken(t: string)
    ensures TokenOf(Some(BEARER + t)) == Some(t)
  {
    var h := BEARER + t;
    assert h[..|BEARER|] == BEARER;
    assert Text.IndexOf(h, BEARER) == Some(0);
    assert h[|BEARER|..] == t;
    assert h[..0] + "" + h[|BEARER|..] == t;
  }

  /** Only the first "Bearer " goes: a doubled prefix leaves one. */
  lemma DoubledBearer(t: string)
    ensures TokenOf(Some(BEARER + BEARER + t)) == Some(BEARER + t)
  {
    var h := BEARER + BEARER + t;
    assert h[..|BEARER|] == BEARER;
    assert Text.IndexOf(h, BEARER) == Some(0);
    assert h[|BEARER|..] == BEARER + t;
    assert h[..0] + "" + h[|BEARER|..] == BEARER + t;
  }

  /** The signature check: the id inside a valid token, `None` otherwise. */
  type Verifier = string -> Option<UserId>

  datatype AuthOutcome = NoToken | BadToken | UnknownUser | Authenticated(user: Principal)

  /** `auth`: no token (no header, or nothing left once the prefix is
      removed) fails first, without verifying or looking up anything; then
      a token that does not verify; then one whose account is gone; else the
      caller is the account the token names. */
  function Authenticate(header: Option<string>, verify: Verifier, accounts: map<UserId, Principal>): (o: AuthOutcome)
    ensures o == NoToken <==> TokenOf(header).None? || TokenOf(header).value == ""
    ensures o == BadToken <==> o != NoToken && verify(TokenOf(header).value).None?
    ensures o.Authenticated? <==> o != NoToken && o != BadToken && verify(TokenOf(header).value).value in accounts
    ensures o.Authenticated? ==> o.user == accounts[verify(TokenOf(header).value).value]
  {
    var token := TokenOf(header);
    if token.None? || token.value == "" then NoToken
    else
      var id := verify(token.value);
      if id.None? then BadToken
      else if id.value !in accounts then UnknownUser
      else Authenticated(accounts[id.value])
  }

  /** Every failure of `auth` is a 401; success lets the request through. */
  function AuthStatus(o: AuthOutcome): (code: Option<int>)
    ensures code.None? <==> o.Authenticated?
    ensures code.Some? ==> code.value == UNAUTHORIZED
  {
    if o.Authenticated? then None else Some(UNAUTHORIZED)
  }

  /** Without a header the answer is fixed before the token is verified or
      an account looked up. */
  lemma NoHeaderNoLookup(v1: Verifier, v2: Verifier, a1: map<UserId, Principal>, a2: map<UserId, Principal>)
    ensures Authenticate(None, v1, a1) == Authenticate(None, v2, a2) == NoToken
  {
  }

  /** A bearer header with a valid token for a live account authenticates
      that account. */
  lemma BearerAuthenticates(t: string, verify: Verifier, accounts: map<UserId, Principal>)
    requires t != "" && verify(t).Some? && verify(t).value in accounts
    ensures Authenticate(Some(BEARER + t), verify, accounts) == Authenticated(accounts[verify(t).value])
  {
    BearerToken(t);
  }

  /** `isAdmin`: 401 without a caller, 403 for a caller who is not an
      administrator; only administrators get through (`None`). */
  function AdminGate(caller: Option<Principal>): (code: Option<int>)
    ensures code.None? <==> caller.Some? && IsAdmin(caller.value)
    ensures code == Some(UNAUTHORIZED) <==> caller.None?
    ensures code == Some(FORBIDDEN) <==> caller.Some? && !IsAdmin(caller.value)
  {
    if caller.None? then Some(UNAUTHORIZED)
    else if !IsAdmin(caller.value) then Some(FORBIDDEN)
    else None
  }
}
