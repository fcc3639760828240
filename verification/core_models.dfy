/**
 * The stored OAuth token of one signed-in user (automation/core/models.py).
 * Clock readings are passed in as `now` (seconds); the identity platform's
 * refresh call is the oracle `acquire`, applied to the current refresh token.
 */
module CoreModels {
  import opened Wrappers

  /**
   * The refresh answer: `Denied` stands for every falsy answer; any other is a
   * dictionary, given by its three keys, None where a key is absent (as in the
   * error dictionary the identity platform returns for a refused refresh).
   */
  datatype RefreshResponse =
    | Denied
    | Answer(accessToken: Option<string>, refreshToken: Option<string>, expiresIn: Option<int>)
  {
    /** A truthy answer holding both keys the refresh reads with `[...]`. */
    predicate Granted() {
      Answer? && accessToken.Some? && expiresIn.Some?
    }
  }

  /** The text of the `KeyError` raised by reading an absent key. */
  const MissingAccessToken: string := "'access_token'"
  const MissingExpiresIn: string := "'expires_in'"

  class UserToken {
    const userId: string
    const userEmail: string
    var accessToken: string
    var refreshToken: string
    var expiresAt: int
    var createdAt: int

    constructor (userId: string, userEmail: string, accessToken: string, refreshToken: string,
                 expiresAt: int, now: int)
      ensures this.userId == userId && this.userEmail == userEmail
      ensures this.accessToken == accessToken && this.refreshToken == refreshToken
      ensures this.expiresAt == expiresAt && createdAt == now
    {
      this.userId := userId;
      this.userEmail := userEmail;
      this.accessToken := accessToken;
      this.refreshToken := refreshToken;
      this.expiresAt := expiresAt;
      createdAt := now;
    }

    /** A token expires at the instant `expiresAt` itself, not after it. */
    predicate IsExpired(now: int)
      reads this
    {
      now >= expiresAt
    }

    /**
     * Refreshes only an expired token. A granted refresh installs the new access token,
     * keeps the old refresh token unless a new one is returned, and expires `expiresIn`
     * seconds from now; a falsy answer leaves every field as it was. A truthy answer
     * without `access_token` raises before anything changes; one with it but without
     * `expires_in` raises after the two tokens were set on the object, and the row is
     * not saved.
     */
    method RefreshTokenIfNeeded(now: int, acquire: string -> RefreshResponse) returns (r: Result<(), string>)
      modifies this
      ensures r.Err? <==> old(IsExpired(now)) && acquire(old(refreshToken)).Answer? && !acquire(old(refreshToken)).Granted()
      ensures !old(IsExpired(now)) ==> unchanged(this)
      ensures old(IsExpired(now)) && acquire(old(refreshToken)).Denied? ==> unchanged(this)
      ensures old(IsExpired(now)) && acquire(old(refreshToken)).Answer? && acquire(old(refreshToken)).accessToken.None? ==>
        unchanged(this) && r == Err(MissingAccessToken)
      ensures old(IsExpired(now)) && acquire(old(refreshToken)).Answer? && acquire(old(refreshToken)).accessToken.Some?
              && acquire(old(refreshToken)).expiresIn.None? ==>
        var a := acquire(old(refreshToken));
        && r == Err(MissingExpiresIn)
        && accessToken == a.accessToken.value
        && refreshToken == a.refreshToken.GetOr(old(refreshToken))
        && expiresAt == old(expiresAt) && createdAt == old(createdAt)
      ensures old(IsExpired(now)) && acquire(old(refreshToken)).Granted() ==>
        var g := acquire(old(refreshToken));
        && accessToken == g.accessToken.value
        && refreshToken == g.refreshToken.GetOr(old(refreshToken))
        && expiresAt == now + g.expiresIn.value
        && createdAt == now
      ensures (old(IsExpired(now)) && acquire(old(refreshToken)).Granted()
               && acquire(old(refreshToken)).expiresIn.value > 0) ==> !IsExpired(now)
    {
      r := Ok(());
      if IsExpired(now) {
        var result := acquire(refreshToken);
        if result.Answer? {
          if result.accessToken.None? {
            return Err(MissingAccessToken);
          }
          accessToken := result.accessToken.value;
          refreshToken := result.refreshToken.GetOr(refreshToken);
          if result.expiresIn.None? {
            return Err(MissingExpiresIn);
          }
          expiresAt := now + result.expiresIn.value;
          createdAt := now;
        }
      }
    }

    /** Returns the access token held after refreshing an expired one, or the error the refresh raised. */
    method GetToken(now: int, acquire: string -> RefreshResponse) returns (token: Result<string, string>)
      modifies this
      ensures token.Ok? ==> token.value == accessToken
      ensures token.Err? <==> old(IsExpired(now)) && acquire(old(refreshToken)).Answer? && !acquire(old(refreshToken)).Granted()
      ensures !old(IsExpired(now)) ==> unchanged(this) && token == Ok(old(accessToken))
      ensures old(IsExpired(now)) && acquire(old(refreshToken)).Denied? ==>
        unchanged(this) && token == Ok(old(accessToken))
      ensures old(IsExpired(now)) && acquire(old(refreshToken)).Answer? && acquire(old(refreshToken)).accessToken.None? ==>
        token == Err(MissingAccessToken)
      ensures old(IsExpired(now)) && acquire(old(refreshToken)).Answer? && acquire(old(refreshToken)).accessToken.Some?
              && acquire(old(refreshToken)).expiresIn.None? ==>
        token == Err(MissingExpiresIn)
      ensures old(IsExpired(now)) && acquire(old(refreshToken)).Granted() ==>
        token == Ok(acquire(old(refreshToken)).accessToken.value)
        && expiresAt == now + acquire(old(refreshToken)).expiresIn.value
    {
      if IsExpired(now) {
        var refreshed := RefreshTokenIfNeeded(now, acquire);
        if refreshed.Err? {
          return Err(refreshed.error);
        }
      }
      token := Ok(accessToken);
    }
  }
}
