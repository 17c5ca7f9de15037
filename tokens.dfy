/**
 * The approval-token ledger: token rows, their issue, the lookup by token and
 * action, and the read-only validation decision.
 */
module Tokens {
  import opened Wrappers

  /** The endpoint a token belongs to. */
  datatype Action = Approve | Reject

  /**
   * One row of approval_tokens. The token string itself is the key of the
   * ledger map; times are seconds on one UTC clock.
   */
  datatype TokenRow = TokenRow(
    id: int,
    pendingId: int,
    action: Action,
    expiresAt: int,
    isUsed: bool,
    usedAt: Option<int>)

  /** The three refusals of validate_token. */
  datatype TokenError = InvalidToken | TokenAlreadyUsed | TokenExpired

  /** timedelta(hours=24), in seconds. */
  const TOKEN_LIFETIME: int := 24 * 60 * 60

  /** The row create_approval_token inserts: unused, no used_at, expiring a day after issue. */
  function Issue(id: int, pendingId: int, action: Action, now: int): (row: TokenRow)
    ensures row.pendingId == pendingId && row.action == action
    ensures !row.isUsed && row.usedAt.None?
    ensures row.expiresAt == now + 86400
  {
    TokenRow(id, pendingId, action, now + TOKEN_LIFETIME, false, None)
  }

  /** SELECT ... FROM approval_tokens WHERE token = token AND action = action. */
  function Lookup(ledger: map<string, TokenRow>, token: string, action: Action): (r: Option<TokenRow>)
    ensures r.Some? <==> token in ledger && ledger[token].action == action
    ensures r.Some? ==> r.value == ledger[token]
  {
    if token in ledger && ledger[token].action == action then Some(ledger[token]) else None
  }

  /**
   * validate_token's decision on the looked-up row at time now: the checks
   * run in the order not found, already used, expired, and success yields
   * (token id, pending id).
   */
  function Validate(row: Option<TokenRow>, now: int): (r: Result<(int, int), TokenError>)
    ensures r == Failure(InvalidToken) <==> row.None?
    ensures r == Failure(TokenAlreadyUsed) <==> row.Some? && row.value.isUsed
    ensures r == Failure(TokenExpired) <==> row.Some? && !row.value.isUsed && now > row.value.expiresAt
    ensures r.Success? <==> row.Some? && !row.value.isUsed && now <= row.value.expiresAt
    ensures r.Success? ==> r.value == (row.value.id, row.value.pendingId)
  {
    match row
    case None => Failure(InvalidToken)
    case Some(t) =>
      if t.isUsed then Failure(TokenAlreadyUsed)
      else if now > t.expiresAt then Failure(TokenExpired)
      else Success((t.id, t.pendingId))
  }

  /**
   * A freshly issued token validates at every instant up to and including
   * exactly 24 hours after issue, and is expired from the next second on.
   */
  lemma FreshTokenWindow(id: int, pendingId: int, action: Action, issuedAt: int, now: int)
    ensures Validate(Some(Issue(id, pendingId, action, issuedAt)), now).Success? <==> now <= issuedAt + 86400
    ensures now > issuedAt + 86400 ==> Validate(Some(Issue(id, pendingId, action, issuedAt)), now) == Failure(TokenExpired)
  {
  }

  /** A token presented at the other endpoint is not found, whatever its state. */
  lemma WrongEndpointIsInvalid(ledger: map<string, TokenRow>, token: string, action: Action, now: int)
    requires token in ledger && ledger[token].action != action
    ensures Validate(Lookup(ledger, token, action), now) == Failure(InvalidToken)
  {
  }
}
