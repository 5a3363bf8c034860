/** The bearer-token check that opens every `token_required` guard and
    `/me` (blueprints/admin.py, blueprints/videos.py, blueprints/auth.py).
    HS256 signing and verification are not modelled: `jwt.decode`, with
    its secret and its clock, is the parameter `decode`. */
module Tokens {
  import opened Models

  /** The payload `login` signs: `user_id`, `username`, `is_admin`. */
  datatype Claims = Claims(userId: Id, username: string, isAdmin: bool)

  /** What `jwt.decode` does with a token: returns its claims, or raises
      ExpiredSignatureError or InvalidTokenError. */
  datatype Decoded = Verified(claims: Claims) | Expired | Invalid

  /** A guard either lets the request through with its claims or answers. */
  datatype Gate = Admit(claims: Claims) | Refuse(status: nat)

  const BearerPrefix: string := "Bearer "

  predicate HasBearerPrefix(t: string) {
    |t| >= |BearerPrefix| && t[..|BearerPrefix|] == BearerPrefix
  }

  /** `token[7:]` when the token starts with "Bearer ", the token otherwise. */
  function StripBearer(t: string): (r: string)
    ensures HasBearerPrefix(t) ==> BearerPrefix + r == t
    ensures !HasBearerPrefix(t) ==> r == t
  {
    if HasBearerPrefix(t) then t[7..] else t
  }

  /** A client that sends "Bearer <token>" has exactly <token> decoded. */
  lemma {:induction false} StripBearerPrefixed(t: string)
    ensures StripBearer(BearerPrefix + t) == t
  {
    var h := BearerPrefix + t;
    assert h[..|BearerPrefix|] == BearerPrefix;
    assert h[7..] == t;
  }

  /** The token the guard decodes: none when the Authorization header is
      missing or empty (`if not token`), else the header without its prefix. */
  function Credential(header: Option<string>): (r: Option<string>)
    ensures r.None? <==> header.None? || header.value == ""
    ensures r.Some? ==> r.value == StripBearer(header.value)
  {
    if header.None? || header.value == "" then None else Some(StripBearer(header.value))
  }

  /** The check shared by every guard: 401 for a missing header, an
      expired token or an invalid one; otherwise the decoded claims. */
  function Authenticate(header: Option<string>, decode: string -> Decoded): (g: Gate)
    ensures Credential(header).None? ==> g == Refuse(401)
    ensures g.Refuse? ==> g.status == 401
    ensures g.Admit? <==> Credential(header).Some? && decode(Credential(header).value).Verified?
    ensures g.Admit? ==> g.claims == decode(Credential(header).value).claims
  {
    match Credential(header)
    case None => Refuse(401)
    case Some(token) =>
      match decode(token)
      case Verified(claims) => Admit(claims)
      case Expired => Refuse(401)
      case Invalid => Refuse(401)
  }
}
