/** The mock account service (src/mock/data/auth.ts): the user table, the
    `mock_token_<id>` tokens, the credential format, and the register,
    login and refresh endpoints. The token helpers every mock endpoint
    repeats (`extractToken`, `validateTokenAndGetUserId`) are here too. */
module MockAuth {
  import opened Wrappers
  import opened Strings
  import opened Lists

  /** What a mock endpoint answers: a success with its payload, or an error
      status with its message (the HTTP status and the body's `code` agree). */
  datatype Reply<T> = Ok(status: int, message: string, value: T) | Err(status: int, message: string)

  datatype MockUser = MockUser(id: int, username: string, password: string, name: string,
                               photoUrl: string, exp: int, level: string)

  /** The fields an endpoint shows: everything but the password. */
  datatype UserInfo = UserInfo(id: int, username: string, name: string, photoUrl: string, exp: int, level: string)

  function Public(u: MockUser): (r: UserInfo)
    ensures r.id == u.id && r.username == u.username && r.name == u.name
    ensures r.photoUrl == u.photoUrl && r.exp == u.exp && r.level == u.level
  {
    UserInfo(u.id, u.username, u.name, u.photoUrl, u.exp, u.level)
  }

  datatype Tokens = Tokens(accessToken: string, refreshToken: string, tokenType: string)

  const TokenPrefix := "mock_token_"
  const BearerPrefix := "Bearer "
  const DefaultPhoto := "https://math-qa-photos.oss-cn-beijing.aliyuncs.com/default-photo.png"
  const NewcomerLevel := "小白"

  const UsernameFormatError := "账号格式错误（6-18位，仅数字、字母、下划线）"
  const PasswordFormatError := "密码格式错误（6-18位，仅数字、字母、下划线）"
  const AccountExists := "该账户已存在"
  const Registered := "用户注册成功"
  const BadCredentials := "账号或密码错误"
  const LoggedIn := "登录成功"
  const BadRefreshToken := "无效的刷新令牌"
  const Refreshed := "Token刷新成功"
  /** What the session, favourite and question endpoints answer a request without a usable token. */
  const AuthFailed := "认证失败，请重新登录"

  /** `mock_token_<id>`. */
  function GenerateToken(id: int): (r: string)
    ensures StartsWith(r, TokenPrefix) && r[|TokenPrefix|..] == IntToString(id)
  {
    TokenPrefix + IntToString(id)
  }

  /** The user id a token names: `parseInt` of what follows the prefix, `None`
      for NaN. Tokens without the prefix are not read (see README). */
  function ParseToken(token: string): (r: Option<int>)
    ensures StartsWith(token, TokenPrefix) ==> r == ParseInt(token[|TokenPrefix|..])
    ensures !StartsWith(token, TokenPrefix) ==> r.None?
  {
    if StartsWith(token, TokenPrefix) then ParseInt(token[|TokenPrefix|..]) else None
  }

  /** Every id survives the trip through a token. */
  lemma TokenRoundTrip(id: int)
    ensures ParseToken(GenerateToken(id)) == Some(id)
  {
    var t := GenerateToken(id);
    assert t[|TokenPrefix|..] == IntToString(id);
    ParseIntIntToString(id);
  }

  function TokensFor(id: int): (r: Tokens)
    ensures ParseToken(r.accessToken) == Some(id) && ParseToken(r.refreshToken) == Some(id)
    ensures r.tokenType == "bearer"
  {
    TokenRoundTrip(id);
    Tokens(GenerateToken(id), GenerateToken(id), "bearer")
  }

  /** `extractToken`: what follows `Bearer `, when the header starts with it. */
  function ExtractToken(header: Option<string>): (r: Option<string>)
    ensures r.Some? <==> header.Some? && StartsWith(header.value, BearerPrefix)
    ensures r.Some? ==> header.value == BearerPrefix + r.value
  {
    if header.Some? && StartsWith(header.value, BearerPrefix) then
      assert header.value == header.value[..|BearerPrefix|] + header.value[|BearerPrefix|..];
      Some(header.value[|BearerPrefix|..])
    else None
  }

  /** `validateTokenAndGetUserId`: an empty token names nobody. */
  function CallerId(header: Option<string>): (r: Option<int>)
    ensures r.Some? ==> exists t :: ExtractToken(header) == Some(t) && t != [] && ParseToken(t) == r
    ensures ExtractToken(header).Some? && ExtractToken(header).value != [] ==> r == ParseToken(ExtractToken(header).value)
  {
    match ExtractToken(header)
    case None => None
    case Some(t) => if t == [] then None else ParseToken(t)
  }

  /** The caller an endpoint that tests `!userId` accepts: neither a missing
      id nor id 0. */
  function RequesterId(header: Option<string>): (r: Option<int>)
    ensures r.Some? <==> CallerId(header).Some? && CallerId(header).value != 0
    ensures r.Some? ==> r == CallerId(header)
  {
    var id := CallerId(header);
    if id.Some? && id.value != 0 then id else None
  }

  /** The header a client sends for a user is read back as that user. */
  lemma CallerOfBearer(id: int)
    ensures CallerId(Some(BearerPrefix + GenerateToken(id))) == Some(id)
  {
    var h := BearerPrefix + GenerateToken(id);
    assert StartsWith(h, BearerPrefix);
    assert h[|BearerPrefix|..] == GenerateToken(id);
    TokenRoundTrip(id);
  }

  predicate IsWordChar(c: char) {
    ('a' <= c <= 'z') || ('A' <= c <= 'Z') || ('0' <= c <= '9') || c == '_'
  }

  /** `/^[a-zA-Z0-9_]{6,18}$/`. */
  predicate ValidCredential(s: string) {
    6 <= |s| <= 18 && forall i :: 0 <= i < |s| ==> IsWordChar(s[i])
  }

  /** `validateUsername`: `None` when the format is right, else the message. */
  function ValidateUsername(s: string): (r: Option<string>)
    ensures r.None? <==> ValidCredential(s)
    ensures r.Some? ==> r.value == UsernameFormatError
  {
    if ValidCredential(s) then None else Some(UsernameFormatError)
  }

  /** `validatePassword`, the same format with its own message. */
  function ValidatePassword(s: string): (r: Option<string>)
    ensures r.None? <==> ValidCredential(s)
    ensures r.Some? ==> r.value == PasswordFormatError
  {
    if ValidCredential(s) then None else Some(PasswordFormatError)
  }

  /** The position of the user with id `id`, if any (`mockUsers.find(u => u.id === id)`). */
  function UserIndex(users: seq<MockUser>, id: Option<int>): (r: Option<nat>)
    ensures r.Some? ==> r.value < |users| && id == Some(users[r.value].id)
    ensures r.Some? ==> forall j :: 0 <= j < r.value ==> users[j].id != id.value
    ensures r.None? <==> id.None? || forall u :: u in users ==> u.id != id.value
  {
    if id.None? then None
    else
      var i := FindIndex(users, (u: MockUser) => u.id == id.value);
      assert i.None? ==> forall u :: u in users ==> u.id != id.value by {
        if i.None? {
          forall u | u in users ensures u.id != id.value {
            var k :| 0 <= k < |users| && users[k] == u;
          }
        }
      }
      i
  }

  /** Ids are the 1-based positions: register appends with `length + 1`. */
  predicate SequentialIds(users: seq<MockUser>) {
    forall i :: 0 <= i < |users| ==> users[i].id == i + 1
  }

  predicate UniqueUsernames(users: seq<MockUser>) {
    forall i, j :: 0 <= i < j < |users| ==> users[i].username != users[j].username
  }

  predicate UniqueNames(users: seq<MockUser>) {
    forall i, j :: 0 <= i < j < |users| ==> users[i].name != users[j].name
  }

  /** Appending the next user with a fresh user name keeps the table's invariants. */
  lemma AppendUser(users: seq<MockUser>, nu: MockUser)
    requires SequentialIds(users) && UniqueUsernames(users)
    requires nu.id == |users| + 1 && forall u :: u in users ==> u.username != nu.username
    ensures SequentialIds(users + [nu]) && UniqueUsernames(users + [nu])
    ensures UniqueNames(users) && (forall u :: u in users ==> u.name != nu.name) ==> UniqueNames(users + [nu])
  {
    var all := users + [nu];
    forall i, j | 0 <= i < j < |all| ensures all[i].username != all[j].username {
      if j == |users| {
        assert all[i] in users;
      }
    }
    if UniqueNames(users) && (forall u :: u in users ==> u.name != nu.name) {
      forall i, j | 0 <= i < j < |all| ensures all[i].name != all[j].name {
        if j == |users| {
          assert all[i] in users;
        }
      }
    }
  }

  /** The shared `mockUsers` array. */
  class UserTable {
    var users: seq<MockUser>

    /** Ids are the 1-based positions and user names are unique. */
    predicate Valid()
      reads this
    {
      SequentialIds(users) && UniqueUsernames(users)
    }

    /** No two users share a display name. Renaming keeps this; registering
        keeps it when the generated name is new. */
    predicate NamesUnique()
      reads this
    {
      UniqueNames(users)
    }

    constructor (initial: seq<MockUser>)
      requires forall i :: 0 <= i < |initial| ==> initial[i].id == i + 1
      requires forall i, j :: 0 <= i < j < |initial| ==> initial[i].username != initial[j].username
      ensures Valid() && users == initial
    {
      users := initial;
    }

    /** The register endpoint: the user name format, then the password format,
        then a taken user name; a new user gets the next id, no experience
        and the newcomer level. `randomName` is the generated display name. */
    method Register(username: string, password: string, randomName: string) returns (reply: Reply<UserInfo>)
      requires Valid()
      modifies this
      ensures !ValidCredential(username) ==> reply == Err(400, UsernameFormatError)
      ensures ValidCredential(username) && !ValidCredential(password) ==> reply == Err(400, PasswordFormatError)
      ensures (ValidCredential(username) && ValidCredential(password)
               && exists u :: u in old(users) && u.username == username) ==> reply == Err(400, AccountExists)
      ensures reply.Ok? <==> ValidCredential(username) && ValidCredential(password)
                             && forall u :: u in old(users) ==> u.username != username
      ensures reply.Err? ==> users == old(users)
      ensures reply.Ok? ==>
                var nu := MockUser(|old(users)| + 1, username, password, randomName, DefaultPhoto, 0, NewcomerLevel);
                reply == Ok(201, Registered, Public(nu)) && users == old(users) + [nu]
      ensures Valid()
      ensures old(NamesUnique()) && (forall u :: u in old(users) ==> u.name != randomName) ==> NamesUnique()
      ensures reply.Ok? ==> Login(username, password) == Ok(200, LoggedIn, TokensFor(|old(users)| + 1))
    {
      if ValidateUsername(username).Some? {
        return Err(400, UsernameFormatError);
      }
      if ValidatePassword(password).Some? {
        return Err(400, PasswordFormatError);
      }
      var taken := FindIndex(users, (u: MockUser) => u.username == username);
      if taken.Some? {
        return Err(400, AccountExists);
      }
      assert forall u :: u in users ==> u.username != username by {
        forall u | u in users ensures u.username != username {
          var k :| 0 <= k < |users| && users[k] == u;
        }
      }
      var nu := MockUser(|users| + 1, username, password, randomName, DefaultPhoto, 0, NewcomerLevel);
      AppendUser(users, nu);
      users := users + [nu];
      reply := Ok(201, Registered, Public(nu));
      LoginFindsOnly(|users| - 1, username, password);
    }

    /** The login endpoint: the first user with this user name and password. */
    function Login(username: string, password: string): (r: Reply<Tokens>)
      reads this
      ensures r.Ok? <==> exists u :: u in users && u.username == username && u.password == password
      ensures r.Ok? ==> r.status == 200 && r.message == LoggedIn
                        && exists u :: u in users && u.username == username && u.password == password
                                       && r.value == TokensFor(u.id)
      ensures r.Err? ==> r == Err(401, BadCredentials)
    {
      var i := FindIndex(users, (u: MockUser) => u.username == username && u.password == password);
      if i.Some? then Ok(200, LoggedIn, TokensFor(users[i.value].id))
      else
        assert forall u :: u in users ==> !(u.username == username && u.password == password) by {
          forall u | u in users ensures !(u.username == username && u.password == password) {
            var k :| 0 <= k < |users| && users[k] == u;
          }
        }
        Err(401, BadCredentials)
    }

    /** With unique user names, login finds the one user holding the name. */
    lemma LoginFindsOnly(k: nat, username: string, password: string)
      requires k < |users| && users[k].username == username && users[k].password == password
      requires forall j :: 0 <= j < |users| && j != k ==> users[j].username != username
      ensures Login(username, password) == Ok(200, LoggedIn, TokensFor(users[k].id))
    {
      var i := FindIndex(users, (u: MockUser) => u.username == username && u.password == password);
      assert i.Some? && i.value == k;
    }

    /** The refresh endpoint: the refresh token must name an existing user,
        and id 0 is refused like no id at all. */
    function Refresh(refreshToken: string): (r: Reply<Tokens>)
      reads this
      ensures r.Ok? <==> (var id := ParseToken(refreshToken);
                          id.Some? && id.value != 0 && exists u :: u in users && u.id == id.value)
      ensures r.Ok? ==> r == Ok(200, Refreshed, TokensFor(ParseToken(refreshToken).value))
      ensures r.Err? ==> r == Err(401, BadRefreshToken)
    {
      var id := ParseToken(refreshToken);
      if id.None? || id.value == 0 || UserIndex(users, id).None? then Err(401, BadRefreshToken)
      else Ok(200, Refreshed, TokensFor(id.value))
    }

    /** A refresh token from a login refreshes, to the same tokens. */
    lemma LoginThenRefresh(username: string, password: string)
      requires Valid() && Login(username, password).Ok?
      ensures Refresh(Login(username, password).value.refreshToken) == Ok(200, Refreshed, Login(username, password).value)
    {
      var u :| u in users && u.username == username && u.password == password
               && Login(username, password).value == TokensFor(u.id);
      var k :| 0 <= k < |users| && users[k] == u;
      assert u.id == k + 1;
    }
  }
}
