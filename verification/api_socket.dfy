/**
 * The HTTP client of `utils/ApiSocket.js`: the stored token is checked
 * before each request, every request carries the device id and, when a
 * usable token exists, a bearer header; error replies 440 and 401 send the
 * browser to `/access-denied`. The JWT decoder, the clock and the random
 * device-id suffix are parameters.
 */
module ApiSocket {
  import opened Js
  import opened Session

  const BaseUrl := "https://feedback4293.pythonanywhere.com"
  const AuthorizationHeader := "Authorization"
  const DeviceIdHeader := "X-Device-ID"
  const BearerPrefix := "Bearer "
  const AccessDeniedPath := "/access-denied"

  /** The token `getToken` hands out and the storage it leaves. */
  datatype TokenStep = TokenStep(token: Option<string>, storage: map<string, string>)

  /**
   * `getToken`: no stored (truthy) token gives none; a malformed or expired
   * one is removed from storage and gives none; any other is given as stored.
   */
  function TokenCheck(storage: map<string, string>, decode: string -> Decoded, nowMs: int): (r: TokenStep)
    ensures r.token.Some? <==>
      Truthy(GetItem(storage, TokenKey)) && decode(storage[TokenKey]).Claims? &&
      !Expired(decode(storage[TokenKey]).exp, nowMs)
    ensures r.token.Some? ==> r.token == GetItem(storage, TokenKey) && r.storage == storage
    ensures r.token.None? && Truthy(GetItem(storage, TokenKey)) ==> r.storage == storage - {TokenKey}
    ensures r.token.None? && !Truthy(GetItem(storage, TokenKey)) ==> r.storage == storage
  {
    var token := GetItem(storage, TokenKey);
    if !Truthy(token) then TokenStep(None, storage)
    else
      var decoded := decode(token.value);
      if decoded.Malformed? then TokenStep(None, storage - {TokenKey})
      else if Expired(decoded.exp, nowMs) then TokenStep(None, storage - {TokenKey})
      else TokenStep(token, storage)
  }

  /** A second check at the same instant changes nothing more and gives the same token. */
  lemma TokenCheckIsIdempotent(storage: map<string, string>, decode: string -> Decoded, nowMs: int)
    ensures var first := TokenCheck(storage, decode, nowMs);
            TokenCheck(first.storage, decode, nowMs) == first
  {
    var first := TokenCheck(storage, decode, nowMs);
    if first.token.None? {
      assert !Truthy(GetItem(first.storage, TokenKey));
    }
  }

  /** The check touches only the token entry; the device id and every other entry survive it. */
  lemma TokenCheckKeepsOtherEntries(storage: map<string, string>, decode: string -> Decoded, nowMs: int, key: string)
    requires key in storage && key != TokenKey
    ensures key in TokenCheck(storage, decode, nowMs).storage
    ensures TokenCheck(storage, decode, nowMs).storage[key] == storage[key]
  {
  }

  /** How a request failed: no response at all, or a response with an HTTP status. */
  datatype RequestError = NoResponse | ErrorResponse(status: int)

  /** The axios instance: the shared browser storage and the page location. */
  class ApiClient {
    const storage: LocalStorage
    var location: string

    constructor (storage: LocalStorage, location: string)
      ensures this.storage == storage && this.location == location
    {
      this.storage := storage;
      this.location := location;
    }

    /** `getToken` against the shared storage. */
    method GetToken(decode: string -> Decoded, nowMs: int) returns (token: Option<string>)
      modifies storage
      ensures TokenCheck(old(storage.items), decode, nowMs) == TokenStep(token, storage.items)
    {
      var stored := GetItem(storage.items, TokenKey);
      if !Truthy(stored) {
        return None;
      }
      var decoded := decode(stored.value);
      if decoded.Malformed? || Expired(decoded.exp, nowMs) {
        storage.RemoveItem(TokenKey);
        return None;
      }
      return stored;
    }

    /**
     * The request interceptor: check the token, then fix the device id; add
     * the bearer header when a token survived, and the device-id header always.
     */
    method RequestHeaders(headers: map<string, string>, decode: string -> Decoded, nowMs: int, suffix: string)
      returns (out: map<string, string>)
      modifies storage
      ensures var check := TokenCheck(old(storage.items), decode, nowMs);
              var device := DeviceIdAfter(check.storage, suffix);
              && storage.items == device.storage
              && DeviceIdHeader in out && out[DeviceIdHeader] == device.deviceId && out[DeviceIdHeader] != ""
              && (AuthorizationHeader in out <==> check.token.Some? || AuthorizationHeader in headers)
              && (check.token.Some? ==> out[AuthorizationHeader] == BearerPrefix + check.token.value)
              && (check.token.None? && AuthorizationHeader in headers ==>
                    out[AuthorizationHeader] == headers[AuthorizationHeader])
              && forall h | h in headers && h != AuthorizationHeader && h != DeviceIdHeader ::
                   h in out && out[h] == headers[h]
    {
      var token := GetToken(decode, nowMs);
      var deviceId := storage.GetDeviceId(suffix);
      out := headers;
      if token.Some? {
        out := out[AuthorizationHeader := BearerPrefix + token.value];
      }
      out := out[DeviceIdHeader := deviceId];
    }

    /**
     * The response interceptor's error handler: 440 drops the token and
     * sends the browser to `/access-denied`, 401 only sends it there, any
     * other failure changes nothing; the error is passed on in every case.
     */
    method OnResponseError(err: RequestError) returns (rejected: RequestError)
      modifies this`location, storage
      ensures rejected == err
      ensures err == ErrorResponse(440) ==>
        storage.items == old(storage.items) - {TokenKey} && location == AccessDeniedPath
      ensures err == ErrorResponse(401) ==>
        storage.items == old(storage.items) && location == AccessDeniedPath
      ensures err != ErrorResponse(440) && err != ErrorResponse(401) ==>
        storage.items == old(storage.items) && location == old(location)
    {
      if err.ErrorResponse? {
        if err.status == 440 {
          storage.RemoveItem(TokenKey);
          location := AccessDeniedPath;
        } else if err.status == 401 {
          location := AccessDeniedPath;
        }
      }
      return err;
    }
  }
}
