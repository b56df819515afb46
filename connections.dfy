/** The credential writes of `ConnectionController`: saving a Shopify token,
    storing the tokens of a Google authorization-code callback (the exchange
    of section 4.1.3 of RFC 6749, whose answer is section 5.1's token
    response), and saving a GA4 property id. The `shops` and `ga_connections`
    tables hold one row per user id, so each is a map from user id to row. */
module Connections {
  import opened Wrappers
  import opened PhpValues
  import opened FormRequests
  import Encrypted
  import ShopifyApi
  import GoogleAnalytics

  const Ok: int := 200
  const BadRequest: int := 400
  const Unauthenticated: int := 401
  const Forbidden: int := 403
  const NotFound: int := 404
  const Unprocessable: int := 422
  const ServerError: int := 500

  // ---------------------------------------------------------------- saveShopifyToken

  /** A status and the `shops` table after the request. */
  datatype ShopWrite = ShopWrite(status: int, shops: map<int, ShopifyApi.ShopRow>)

  /** The row `Shop::updateOrCreate` leaves: the domain as given, the token
      through the `Encrypted` cast. */
  function ShopRowFor(domain: string, token: string): ShopifyApi.ShopRow {
    ShopifyApi.ShopRow(domain, Encrypted.Encrypt(token))
  }

  /** `SaveShopifyTokenRequest` (always authorised, then validated), then
      `saveShopifyToken`: 401 without a user, otherwise an upsert keyed by user id. */
  function SaveShopifyToken(shops: map<int, ShopifyApi.ShopRow>, authUser: Option<int>,
                            shopDomain: Field, accessToken: Field): ShopWrite
  {
    if !SaveShopifyTokenAuthorized(authUser) then ShopWrite(Forbidden, shops)
    else if !ShopifyTokenValid(shopDomain, accessToken) then ShopWrite(Unprocessable, shops)
    else if authUser.None? then ShopWrite(Unauthenticated, shops)
    else ShopWrite(Ok, shops[authUser.value := ShopRowFor(shopDomain.s, accessToken.s)])
  }

  /** A rejected request writes nothing; an accepted one stores exactly one row
      for the user, whose token reads back through the cast as the one sent,
      and touches no other user's row. */
  lemma ShopTokenSaved(shops: map<int, ShopifyApi.ShopRow>, authUser: Option<int>, shopDomain: Field, accessToken: Field)
    ensures var w := SaveShopifyToken(shops, authUser, shopDomain, accessToken);
      w.status != Ok ==> w.shops == shops
    ensures var w := SaveShopifyToken(shops, authUser, shopDomain, accessToken);
      w.status == Ok <==> authUser.Some? && ShopifyTokenValid(shopDomain, accessToken)
    ensures var w := SaveShopifyToken(shops, authUser, shopDomain, accessToken);
      ShopifyTokenValid(shopDomain, accessToken) && authUser.None? ==> w.status == Unauthenticated
    ensures var w := SaveShopifyToken(shops, authUser, shopDomain, accessToken);
      w.status == Ok ==>
        authUser.value in w.shops && w.shops.Keys == shops.Keys + {authUser.value}
        && w.shops[authUser.value].domain == shopDomain.s
        && ShopifyApi.AccessToken(w.shops[authUser.value]) == Some(accessToken.s)
        && (forall u :: u in shops && u != authUser.value ==> w.shops[u] == shops[u])
  {
    if authUser.Some? && ShopifyTokenValid(shopDomain, accessToken) {
      Encrypted.GetSet(Some(accessToken.s));
      var w := SaveShopifyToken(shops, authUser, shopDomain, accessToken);
      assert ShopifyApi.AccessToken(w.shops[authUser.value]) == Encrypted.Get(Encrypted.Set(Some(accessToken.s)));
    }
  }

  /** A saved shop passes the Shopify service's credential guard unless the
      token or the domain is the string "0", which the rules accept but PHP
      reads as false. */
  lemma SavedShopCredentials(shops: map<int, ShopifyApi.ShopRow>, user: int, shopDomain: Field, accessToken: Field)
    requires ShopifyTokenValid(shopDomain, accessToken)
    ensures var w := SaveShopifyToken(shops, Some(user), shopDomain, accessToken);
      ShopifyApi.HasCredentials(w.shops[user]) <==> shopDomain.s != "0" && accessToken.s != "0"
  {
    Encrypted.GetSet(Some(accessToken.s));
    var row := ShopRowFor(shopDomain.s, accessToken.s);
    assert ShopifyApi.AccessToken(row) == Some(accessToken.s);
  }

  // ---------------------------------------------------------------- handleGoogleCallback

  /** A status, the `ga_connections` table after the request and the code
      sent to the provider, if an exchange took place. */
  datatype CallbackWrite = CallbackWrite(status: int, rows: map<int, GoogleAnalytics.GaRow>, exchanged: Option<string>)

  /** The row `GaConnection::updateOrCreate` leaves. Every value goes through
      the `Encrypted` cast; when no refresh token is returned, the value
      written is the existing row's raw column (`getRawOriginal`), that is,
      its ciphertext. A new row has no property id. */
  function CallbackRow(existing: Option<GoogleAnalytics.GaRow>, now: int, accessToken: string,
                       expires: Option<int>, refreshToken: Option<string>): GoogleAnalytics.GaRow
  {
    var refreshValue := if refreshToken.Some? then refreshToken
                        else if existing.Some? then existing.value.refreshTokenCipher else None;
    GoogleAnalytics.GaRow(
      if existing.Some? then existing.value.propertyId else None,
      Encrypted.Set(Some(accessToken)),
      Encrypted.Set(refreshValue),
      GoogleAnalytics.ExpiresAtFrom(now, expires))
  }

  /** The existing row of a user, if any. */
  function RowOf(rows: map<int, GoogleAnalytics.GaRow>, user: int): Option<GoogleAnalytics.GaRow> {
    if user in rows then Some(rows[user]) else None
  }

  /** `handleGoogleCallback` with the exchange's answer as a parameter:
      `Rejected` is an `IdentityProviderException` (400), `Failed` any other
      exception (500). */
  function GoogleCallback(rows: map<int, GoogleAnalytics.GaRow>, authUser: Option<int>, code: Field,
                          now: int, exchange: GoogleAnalytics.GrantOutcome): CallbackWrite
  {
    if !(Required(code) && IsString(code)) then CallbackWrite(Unprocessable, rows, None)
    else if authUser.None? then CallbackWrite(Unauthenticated, rows, None)
    else match exchange
      case Rejected => CallbackWrite(BadRequest, rows, Some(code.s))
      case Failed => CallbackWrite(ServerError, rows, Some(code.s))
      case Granted(accessToken, expires, refreshToken) =>
        var user := authUser.value;
        CallbackWrite(Ok, rows[user := CallbackRow(RowOf(rows, user), now, accessToken, expires, refreshToken)], Some(code.s))
  }

  /** A missing or non-string code is refused with 422 and a missing user with
      401, both before any exchange or write; a failed exchange writes nothing. */
  lemma CallbackGuards(rows: map<int, GoogleAnalytics.GaRow>, authUser: Option<int>, code: Field,
                       now: int, exchange: GoogleAnalytics.GrantOutcome)
    ensures var w := GoogleCallback(rows, authUser, code, now, exchange);
      !(Required(code) && IsString(code)) ==> w.status == Unprocessable && w.rows == rows && w.exchanged.None?
    ensures var w := GoogleCallback(rows, authUser, code, now, exchange);
      Required(code) && IsString(code) && authUser.None? ==> w.status == Unauthenticated && w.rows == rows && w.exchanged.None?
    ensures var w := GoogleCallback(rows, authUser, code, now, exchange);
      w.exchanged.Some? <==> Required(code) && IsString(code) && authUser.Some?
    ensures var w := GoogleCallback(rows, authUser, code, now, exchange);
      w.exchanged.Some? && !exchange.Granted? ==> w.rows == rows && w.status == (if exchange.Rejected? then BadRequest else ServerError)
  {
  }

  /** A granted exchange stores the new access token (readable through the
      cast) and an expiry `expires` seconds from now, or none; it keeps the
      property id, stores a returned refresh token, and leaves other users'
      rows alone. */
  lemma CallbackStores(rows: map<int, GoogleAnalytics.GaRow>, user: int, code: Field, now: int,
                       accessToken: string, expires: Option<int>, refreshToken: Option<string>)
    requires Required(code) && IsString(code)
    ensures var w := GoogleCallback(rows, Some(user), code, now, GoogleAnalytics.Granted(accessToken, expires, refreshToken));
      w.status == Ok && w.exchanged == Some(code.s) && user in w.rows
      && GoogleAnalytics.AccessTokenOf(w.rows[user]) == Some(accessToken)
      && w.rows[user].expiresAt == GoogleAnalytics.ExpiresAtFrom(now, expires)
      && w.rows[user].propertyId == (if user in rows then rows[user].propertyId else None)
      && (refreshToken.Some? ==> GoogleAnalytics.RefreshTokenOf(w.rows[user]) == refreshToken)
      && (forall u :: u in rows && u != user ==> u in w.rows && w.rows[u] == rows[u])
  {
    Encrypted.GetSet(Some(accessToken));
    Encrypted.GetSet(refreshToken);
  }

  /** As written: a callback without a new refresh token re-encrypts the
      stored ciphertext, so the refresh token read back is the old ciphertext,
      and the next token refresh sends that ciphertext to the provider instead
      of the token. */
  lemma CallbackDoubleEncrypts(rows: map<int, GoogleAnalytics.GaRow>, user: int, code: Field, now: int,
                               accessToken: string, expires: Option<int>, later: int, grant: GoogleAnalytics.GrantOutcome)
    requires Required(code) && IsString(code)
    requires user in rows && GoogleAnalytics.RefreshTokenOf(rows[user]).Some?
    ensures var w := GoogleCallback(rows, Some(user), code, now, GoogleAnalytics.Granted(accessToken, expires, None));
      GoogleAnalytics.RefreshTokenOf(w.rows[user]) == rows[user].refreshTokenCipher
      && GoogleAnalytics.RefreshTokenOf(w.rows[user]) != GoogleAnalytics.RefreshTokenOf(rows[user])
      && GoogleAnalytics.Refresh(w.rows[user], later, grant).sent == [rows[user].refreshTokenCipher.value]
  {
    var c := rows[user].refreshTokenCipher.value;
    var r := GoogleAnalytics.RefreshTokenOf(rows[user]).value;
    Encrypted.GetSet(Some(c));
    assert Encrypted.Decrypt(c) == Some(r);
    assert |r| < |c|;
    var row := CallbackRow(Some(rows[user]), now, accessToken, expires, None);
    assert row.refreshTokenCipher == Some(Encrypted.Encrypt(c));
    assert Truthy(Encrypted.Encrypt(c));
  }

  /** What the write evidently intends: keep the stored refresh token when none
      is returned, by writing its raw ciphertext back unchanged. */
  function CallbackRowIntended(existing: Option<GoogleAnalytics.GaRow>, now: int, accessToken: string,
                               expires: Option<int>, refreshToken: Option<string>): GoogleAnalytics.GaRow
  {
    GoogleAnalytics.GaRow(
      if existing.Some? then existing.value.propertyId else None,
      Encrypted.Set(Some(accessToken)),
      if refreshToken.Some? then Encrypted.Set(refreshToken)
      else if existing.Some? then existing.value.refreshTokenCipher else None,
      GoogleAnalytics.ExpiresAtFrom(now, expires))
  }

  /** With the intended write the refresh token survives a callback without a
      new one, and the next refresh sends that token. */
  lemma CallbackIntendedKeepsRefreshToken(existing: GoogleAnalytics.GaRow, now: int, accessToken: string,
                                          expires: Option<int>, later: int, grant: GoogleAnalytics.GrantOutcome)
    requires GoogleAnalytics.RefreshTokenOf(existing).Some?
    ensures var row := CallbackRowIntended(Some(existing), now, accessToken, expires, None);
      GoogleAnalytics.RefreshTokenOf(row) == GoogleAnalytics.RefreshTokenOf(existing)
      && GoogleAnalytics.AccessTokenOf(row) == Some(accessToken)
      && row.propertyId == existing.propertyId
      && GoogleAnalytics.Refresh(row, later, grant).sent == [GoogleAnalytics.RefreshTokenOf(existing).value]
  {
    Encrypted.GetSet(Some(accessToken));
    var c := existing.refreshTokenCipher.value;
    assert |Encrypted.Decrypt(c).value| < |c|;
  }

  // ---------------------------------------------------------------- saveGaPropertyId

  datatype PropertyWrite = PropertyWrite(status: int, rows: map<int, GoogleAnalytics.GaRow>)

  /** `SaveGaPropertyRequest` (authorised for a signed-in user, then
      validated), then `saveGaPropertyId`: 404 without a GA row, otherwise
      only the property id changes. */
  function SaveGaPropertyId(rows: map<int, GoogleAnalytics.GaRow>, authUser: Option<int>, propertyId: Field): PropertyWrite {
    if !SaveGaPropertyAuthorized(authUser) then PropertyWrite(Forbidden, rows)
    else if !PropertyIdValid(propertyId) then PropertyWrite(Unprocessable, rows)
    else if authUser.value !in rows then PropertyWrite(NotFound, rows)
    else PropertyWrite(Ok, rows[authUser.value := rows[authUser.value].(propertyId := Some(propertyId.s))])
  }

  /** Only a signed-in user with a valid id and an existing connection gets a
      write, and it changes the property id alone; every refusal writes nothing. */
  lemma PropertySaved(rows: map<int, GoogleAnalytics.GaRow>, authUser: Option<int>, propertyId: Field)
    ensures var w := SaveGaPropertyId(rows, authUser, propertyId);
      w.status == Ok <==> authUser.Some? && PropertyIdValid(propertyId) && authUser.value in rows
    ensures var w := SaveGaPropertyId(rows, authUser, propertyId);
      w.status != Ok ==> w.rows == rows
    ensures var w := SaveGaPropertyId(rows, authUser, propertyId);
      authUser.Some? && PropertyIdValid(propertyId) && authUser.value !in rows ==> w.status == NotFound
    ensures var w := SaveGaPropertyId(rows, authUser, propertyId);
      w.status == Ok ==>
        w.rows.Keys == rows.Keys
        && w.rows[authUser.value].propertyId == Some(propertyId.s)
        && w.rows[authUser.value].accessTokenCipher == rows[authUser.value].accessTokenCipher
        && w.rows[authUser.value].refreshTokenCipher == rows[authUser.value].refreshTokenCipher
        && w.rows[authUser.value].expiresAt == rows[authUser.value].expiresAt
        && (forall u :: u in rows && u != authUser.value ==> w.rows[u] == rows[u])
  {
  }

  /** A saved property id is truthy, so the GA service will use it. */
  lemma SavedPropertyIsUsable(rows: map<int, GoogleAnalytics.GaRow>, user: int, propertyId: Field)
    requires SaveGaPropertyId(rows, Some(user), propertyId).status == Ok
    ensures TruthyOpt(SaveGaPropertyId(rows, Some(user), propertyId).rows[user].propertyId)
  {
    ValidPropertyIdIsTruthy(propertyId);
  }

  // ---------------------------------------------------------------- the controller

  /** The controller over the two tables it writes. */
  class ConnectionController {
    var shops: map<int, ShopifyApi.ShopRow>
    var gaConnections: map<int, GoogleAnalytics.GaRow>
    /** Authorization codes sent to the OAuth provider, in order. */
    ghost var exchanges: seq<string>

    constructor (shops0: map<int, ShopifyApi.ShopRow>, ga0: map<int, GoogleAnalytics.GaRow>)
      ensures shops == shops0 && gaConnections == ga0 && exchanges == []
    {
      shops := shops0;
      gaConnections := ga0;
      exchanges := [];
    }

    method SaveShopifyTokenRequest(authUser: Option<int>, shopDomain: Field, accessToken: Field) returns (status: int)
      modifies this
      ensures var w := SaveShopifyToken(old(shops), authUser, shopDomain, accessToken);
        status == w.status && shops == w.shops
      ensures gaConnections == old(gaConnections) && exchanges == old(exchanges)
    {
      if !ShopifyTokenValid(shopDomain, accessToken) {
        return Unprocessable;
      }
      if authUser.None? {
        return Unauthenticated;
      }
      shops := shops[authUser.value := ShopifyApi.ShopRow(shopDomain.s, Encrypted.Set(Some(accessToken.s)).value)];
      status := Ok;
    }

    method HandleGoogleCallback(authUser: Option<int>, code: Field, now: int, exchange: GoogleAnalytics.GrantOutcome)
      returns (status: int)
      modifies this
      ensures var w := GoogleCallback(old(gaConnections), authUser, code, now, exchange);
        status == w.status && gaConnections == w.rows
        && exchanges == old(exchanges) + (if w.exchanged.Some? then [w.exchanged.value] else [])
      ensures shops == old(shops)
    {
      if !(code.Str? && Required(code)) {
        return Unprocessable;
      }
      if authUser.None? {
        return Unauthenticated;
      }
      var user := authUser.value;
      exchanges := exchanges + [code.s];
      match exchange {
        case Rejected =>
          return BadRequest;
        case Failed =>
          return ServerError;
        case Granted(accessToken, expires, refreshToken) =>
          var expiresAt := if expires.Some? && expires.value != 0 then Some(now + expires.value) else None;
          var existing := RowOf(gaConnections, user);
          var refreshValue := refreshToken;
          if refreshValue.None? && existing.Some? {
            refreshValue := existing.value.refreshTokenCipher;
          }
          var row := GoogleAnalytics.GaRow(
            if existing.Some? then existing.value.propertyId else None,
            Encrypted.Set(Some(accessToken)), Encrypted.Set(refreshValue), expiresAt);
          gaConnections := gaConnections[user := row];
          status := Ok;
      }
    }

    method SaveGaPropertyIdRequest(authUser: Option<int>, propertyId: Field) returns (status: int)
      modifies this
      ensures var w := SaveGaPropertyId(old(gaConnections), authUser, propertyId);
        status == w.status && gaConnections == w.rows
      ensures shops == old(shops) && exchanges == old(exchanges)
    {
      if authUser.None? {
        return Forbidden;
      }
      if !PropertyIdValid(propertyId) {
        return Unprocessable;
      }
      var user := authUser.value;
      if user !in gaConnections {
        return NotFound;
      }
      gaConnections := gaConnections[user := gaConnections[user].(propertyId := Some(propertyId.s))];
      status := Ok;
    }
  }
}
