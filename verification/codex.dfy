/** What a parsed Codex credential says about itself. */
module Codex {
  import opened Domain

  const I64_MAX: int := 0x7FFF_FFFF_FFFF_FFFF

  /** `exp` is the access token's expiry claim in seconds, when it is a 64-bit integer. */
  datatype Auth = Auth(account: string, subject: Option<string>, access: string, exp: Option<int>)

  /** A stored secret: whether it is empty, and the bundle it parses to, if any. */
  datatype Secret = Secret(empty: bool, auth: Option<Auth>)

  /** Expiry in milliseconds; missing, negative or unrepresentable is unknown. */
  function Expiry(auth: Auth): Option<int> {
    if auth.exp.None? || auth.exp.value < 0 || auth.exp.value * 1000 > I64_MAX then None
    else Some(auth.exp.value * 1000)
  }

  function NeedsRefresh(auth: Auth, now: Timestamp, skew: int): Result<bool> {
    if now < 0 || skew < 0 then Err(NewError(InvalidInput))
    else if now + skew > I64_MAX then Ok(true)
    else if Expiry(auth).None? then Ok(true)
    else Ok(Expiry(auth).value <= now + skew)
  }

  /** The bundle's expiry claim, in milliseconds a signed 64-bit integer can hold, lies beyond the window. */
  predicate Outlives(auth: Auth, now: Timestamp, window: int) {
    && auth.exp.Some? && 0 <= auth.exp.value && auth.exp.value * 1000 <= 0x7FFF_FFFF_FFFF_FFFF
    && now + window < auth.exp.value * 1000
  }

  /** A credential needs no refresh exactly when it outlives the window it is judged by. */
  lemma FreshMeansUnexpired(auth: Auth, now: Timestamp, skew: int)
    ensures NeedsRefresh(auth, now, skew) == Ok(false) <==> 0 <= now && 0 <= skew && Outlives(auth, now, skew)
  {
  }

  /** Digests stand for the identity they hash. */
  function Identity(auth: Auth): (string, Option<string>) { (auth.account, auth.subject) }
}
