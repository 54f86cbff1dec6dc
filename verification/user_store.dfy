/** The signed-in user's tokens and profile, as the user store keeps them
    (src/stores/user.ts). Browser storage is a map from key to text. */
module UserStore {
  import opened Wrappers
  import opened Strings
  import opened Json
  import opened Lists

  const AccessTokenKey := "access_token"
  const RefreshTokenKey := "refresh_token"
  const UserInfoKey := "user_info"

  /** Payload fields that may carry the user id, in order of preference. */
  const UserIdFields: seq<string> := ["user_id", "userId", "uid", "id", "sub"]

  /** What the refresh and login endpoints hand back. */
  datatype TokenData = TokenData(accessToken: string, refreshToken: string, tokenType: string)

  /** Base64url to base64: every `-` becomes `+`, every `_` becomes `/`,
      and every other character stays. */
  function Base64FromUrl(s: string): (r: string)
    ensures |r| == |s|
    ensures '-' !in r && '_' !in r
    ensures forall i :: 0 <= i < |s| && s[i] != '-' && s[i] != '_' ==> r[i] == s[i]
    ensures forall i :: 0 <= i < |s| && s[i] == '-' ==> r[i] == '+'
    ensures forall i :: 0 <= i < |s| && s[i] == '_' ==> r[i] == '/'
  {
    if s == [] then []
    else [if s[0] == '-' then '+' else if s[0] == '_' then '/' else s[0]] + Base64FromUrl(s[1..])
  }

  /** `s.padEnd(|s| + (4 - |s| % 4) % 4, '=')`: the shortest `=`-padding
      that makes the length a multiple of four. */
  function PadBase64(s: string): (r: string)
    ensures |r| % 4 == 0
    ensures |s| <= |r| < |s| + 4
    ensures r[..|s|] == s
    ensures forall i :: |s| <= i < |r| ==> r[i] == '='
    ensures forall m: nat :: |s| <= m && m % 4 == 0 ==> |r| <= m
  {
    s + seq((4 - |s| % 4) % 4, _ => '=')
  }

  /** The payload of a JWT: the second dot-separated piece, base64url-decoded
      and parsed. `decode` stands for `JSON.parse(atob(·))`; it yields
      `None` where either of them throws. */
  function DecodeJwtPayload(token: string, decode: string -> Option<Json>): (r: Option<Json>)
    ensures |Split(token, '.')| >= 2 <==> '.' in token
    ensures '.' !in token ==> r == None
    ensures '.' in token ==> r == decode(PadBase64(Base64FromUrl(Split(token, '.')[1])))
  {
    var parts := Split(token, '.');
    SplitSeveralIff(token, '.');
    if |parts| < 2 then None
    else decode(PadBase64(Base64FromUrl(parts[1])))
  }

  /** `payload.user_id ?? payload.userId ?? payload.uid ?? payload.id ?? payload.sub ?? null`:
      the first of the fields that is neither missing nor null. */
  function UserIdField(payload: Json): (r: Option<Json>)
    ensures r.Some? ==> r.value != Null
    ensures r.Some? ==> exists k :: 0 <= k < |UserIdFields| && Get(payload, UserIdFields[k]) == r
                          && forall j :: 0 <= j < k ==> Nullish(Get(payload, UserIdFields[j]))
    ensures r.None? <==> forall k :: 0 <= k < |UserIdFields| ==> Nullish(Get(payload, UserIdFields[k]))
  {
    match FindIndex(UserIdFields, f => !Nullish(Get(payload, f)))
    case None => None
    case Some(k) => Get(payload, UserIdFields[k])
  }

  class Store {
    var accessToken: string
    var refreshToken: string
    /** The saved profile; `Null` when there is none. */
    var userInfo: Json
    /** The browser's local storage. */
    var storage: map<string, string>

    constructor (saved: map<string, string>)
      ensures accessToken == [] && refreshToken == [] && userInfo == Null
      ensures storage == saved
    {
      accessToken := [];
      refreshToken := [];
      userInfo := Null;
      storage := saved;
    }

    /** `!!accessToken`. */
    predicate IsLoggedIn()
      reads this
    {
      accessToken != []
    }

    /** The signed-in user's id as read from the access token's payload;
        `None` stands for `null`. */
    function CurrentUserId(decode: string -> Option<Json>): (r: Option<Json>)
      reads this
      ensures !IsLoggedIn() ==> r == None
      ensures r.Some? ==> '.' in accessToken && r.value != Null
      ensures r.Some? ==> exists p :: DecodeJwtPayload(accessToken, decode) == Some(p) && Truthy(p) && r == UserIdField(p)
      ensures IsLoggedIn() && DecodeJwtPayload(accessToken, decode).Some? && Truthy(DecodeJwtPayload(accessToken, decode).value) ==>
                r == UserIdField(DecodeJwtPayload(accessToken, decode).value)
      ensures IsLoggedIn() && (DecodeJwtPayload(accessToken, decode).None? || !Truthy(DecodeJwtPayload(accessToken, decode).value)) ==>
                r == None
    {
      if accessToken == [] then None
      else
        match DecodeJwtPayload(accessToken, decode)
        case None => None
        case Some(p) => if !Truthy(p) then None else UserIdField(p)
    }

    /** A saved text counts only when present and non-empty. */
    function Saved(key: string): (r: Option<string>)
      reads this
      ensures r.Some? <==> key in storage && storage[key] != []
      ensures r.Some? ==> r.value == storage[key]
    {
      if key in storage && storage[key] != [] then Some(storage[key]) else None
    }

    /** Restores the tokens and the profile from storage. `parse` stands for
        `JSON.parse`; a profile it rejects is dropped from storage. */
    method InitStore(parse: string -> Option<Json>)
      modifies this
      ensures accessToken == old(Saved(AccessTokenKey)).GetOr(old(accessToken))
      ensures refreshToken == old(Saved(RefreshTokenKey)).GetOr(old(refreshToken))
      ensures old(Saved(UserInfoKey)).None? ==> userInfo == old(userInfo) && storage == old(storage)
      ensures old(Saved(UserInfoKey)).Some? && parse(old(Saved(UserInfoKey)).value).Some? ==>
                userInfo == parse(old(Saved(UserInfoKey)).value).value && storage == old(storage)
      ensures old(Saved(UserInfoKey)).Some? && parse(old(Saved(UserInfoKey)).value).None? ==>
                userInfo == old(userInfo) && storage == old(storage) - {UserInfoKey}
    {
      var savedAccess := Saved(AccessTokenKey);
      var savedRefresh := Saved(RefreshTokenKey);
      var savedInfo := Saved(UserInfoKey);
      if savedAccess.Some? {
        accessToken := savedAccess.value;
      }
      if savedRefresh.Some? {
        refreshToken := savedRefresh.value;
      }
      if savedInfo.Some? {
        var parsed := parse(savedInfo.value);
        if parsed.Some? {
          userInfo := parsed.value;
        } else {
          storage := storage - {UserInfoKey};
        }
      }
    }

    /** Stores both tokens, in memory and in storage. */
    method SetTokens(tokens: TokenData)
      modifies this
      ensures accessToken == tokens.accessToken && refreshToken == tokens.refreshToken
      ensures userInfo == old(userInfo)
      ensures storage == old(storage)[AccessTokenKey := tokens.accessToken][RefreshTokenKey := tokens.refreshToken]
      ensures IsLoggedIn() <==> tokens.accessToken != []
    {
      accessToken := tokens.accessToken;
      refreshToken := tokens.refreshToken;
      storage := storage[AccessTokenKey := tokens.accessToken][RefreshTokenKey := tokens.refreshToken];
    }

    /** Forgets the tokens and the profile and returns the route it
        navigates to. */
    method Logout() returns (route: string)
      modifies this
      ensures accessToken == [] && refreshToken == [] && userInfo == Null
      ensures !IsLoggedIn()
      ensures storage == old(storage) - {AccessTokenKey, RefreshTokenKey, UserInfoKey}
      ensures route == "/"
    {
      accessToken := [];
      refreshToken := [];
      userInfo := Null;
      storage := storage - {AccessTokenKey, RefreshTokenKey, UserInfoKey};
      route := "/";
    }
  }
}
