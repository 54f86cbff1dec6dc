/** The mock profile service (src/mock/data/user.ts): the current user's
    info, another user's page, and changing the display name, the avatar
    and the password. It works on the user table of the account service. */
module MockUsers {
  import opened Wrappers
  import opened Strings
  import opened Json
  import opened Lists
  import opened MockAuth

  const InvalidToken := "无效的token!"
  const Queried := "查询成功"
  const UserMissing := "用户不存在"
  const NameLengthError := "网名长度必须为2-20位"
  const NameCharsError := "网名仅支持中文、数字、字母、下划线"
  const NameTaken := "该网名已被占用，请更换"
  const Renamed := "网名修改成功"
  const AvatarUploaded := "头像上传成功"
  const AvatarBase := "https://math-qa-photos.oss-cn-beijing.aliyuncs.com/avatars/"
  const OldPasswordWrong := "旧密码错误"
  const NewPasswordFormatError := "新密码必须为6-18位，且仅包含数字、字母、下划线"
  const SamePassword := "新密码不能与旧密码一致"
  const PasswordChanged := "密码修改成功，请重新登录"

  /** The works listed on a user's page. */
  datatype UserPoems = UserPoems(userId: int, poems: seq<Json>)

  /** `getUserPoems`: the first entry for the user, or nothing. */
  function GetUserPoems(entries: seq<UserPoems>, id: int): (r: seq<Json>)
    ensures (exists e :: e in entries && e.userId == id) ==>
              exists k :: 0 <= k < |entries| && entries[k].userId == id && r == entries[k].poems
                          && forall j :: 0 <= j < k ==> entries[j].userId != id
    ensures (forall e :: e in entries ==> e.userId != id) ==> r == []
  {
    var k := FindIndex(entries, (e: UserPoems) => e.userId == id);
    if k.Some? then entries[k.value].poems
    else
      assert forall e :: e in entries ==> e.userId != id by {
        forall e | e in entries ensures e.userId != id {
          var j :| 0 <= j < |entries| && entries[j] == e;
        }
      }
      []
  }

  /** The caller's position in the table: the user the bearer token names. */
  function Caller(users: seq<MockUser>, header: Option<string>): (r: Option<nat>)
    ensures r.Some? ==> r.value < |users| && CallerId(header) == Some(users[r.value].id)
    ensures r.None? <==> CallerId(header).None? || forall u :: u in users ==> u.id != CallerId(header).value
  {
    UserIndex(users, CallerId(header))
  }

  /** The current user's own info. */
  function Info(t: UserTable, header: Option<string>): (r: Reply<UserInfo>)
    reads t
    ensures r.Ok? <==> Caller(t.users, header).Some?
    ensures r.Ok? ==> r == Ok(200, Queried, Public(t.users[Caller(t.users, header).value]))
    ensures r.Err? ==> r == Err(401, InvalidToken)
  {
    var i := Caller(t.users, header);
    if i.None? then Err(401, InvalidToken) else Ok(200, Queried, Public(t.users[i.value]))
  }

  /** A logged-in user who sends their token sees their own info. */
  lemma InfoOfBearer(t: UserTable, k: nat)
    requires t.Valid() && k < |t.users|
    ensures Info(t, Some(BearerPrefix + GenerateToken(t.users[k].id))) == Ok(200, Queried, Public(t.users[k]))
  {
    CallerOfBearer(t.users[k].id);
    var i := Caller(t.users, Some(BearerPrefix + GenerateToken(t.users[k].id)));
    assert i.Some? by {
      assert t.users[k] in t.users;
    }
    assert t.users[i.value].id == t.users[k].id;
  }

  /** Another user's page. */
  datatype Profile = Profile(username: string, name: string, photoUrl: string, exp: int, level: string,
                             poems: seq<Json>, poemCount: int)

  /** `parseInt(config.params?.id || '0')`: the id of the page asked for. */
  function ProfileTarget(idParam: Option<string>): Option<int> {
    ParseInt(if idParam.Some? && idParam.value != [] then idParam.value else "0")
  }

  /** The page of the user named by the `id` path parameter; the caller must
      hold a token for an existing, non-zero id. */
  function UserProfile(t: UserTable, header: Option<string>, idParam: Option<string>, entries: seq<UserPoems>): (r: Reply<Profile>)
    reads t
    ensures UserIndex(t.users, RequesterId(header)).None? ==> r == Err(401, InvalidToken)
    ensures UserIndex(t.users, RequesterId(header)).Some? && UserIndex(t.users, ProfileTarget(idParam)).None? ==>
              r == Err(404, UserMissing)
    ensures r.Ok? <==> UserIndex(t.users, RequesterId(header)).Some? && UserIndex(t.users, ProfileTarget(idParam)).Some?
    ensures r.Ok? ==>
              var u := t.users[UserIndex(t.users, ProfileTarget(idParam)).value];
              && r.status == 200 && r.message == Queried
              && ProfileTarget(idParam) == Some(u.id)
              && r.value.username == u.username && r.value.name == u.name && r.value.photoUrl == u.photoUrl
              && r.value.exp == u.exp && r.value.level == u.level
              && r.value.poems == GetUserPoems(entries, u.id)
              && r.value.poemCount == |r.value.poems|
  {
    if UserIndex(t.users, RequesterId(header)).None? then Err(401, InvalidToken)
    else
      var target := ProfileTarget(idParam);
      var k := UserIndex(t.users, target);
      if k.None? then Err(404, UserMissing)
      else
        var u := t.users[k.value];
        var poems := GetUserPoems(entries, target.value);
        Ok(200, Queried, Profile(u.username, u.name, u.photoUrl, u.exp, u.level, poems, |poems|))
  }

  /** A signed-in user who opens the page of a stored user, by that user's
      id written in decimal, gets that user's profile and works. */
  lemma ProfileOfStoredUser(t: UserTable, header: Option<string>, k: nat, entries: seq<UserPoems>)
    requires t.Valid() && k < |t.users|
    requires UserIndex(t.users, RequesterId(header)).Some?
    ensures var r := UserProfile(t, header, Some(IntToString(t.users[k].id)), entries);
      && r.Ok?
      && r.value.username == t.users[k].username && r.value.name == t.users[k].name
      && r.value.poems == GetUserPoems(entries, t.users[k].id)
  {
    var users := t.users;
    var id := users[k].id;
    ParseIntIntToString(id);
    assert ProfileTarget(Some(IntToString(id))) == Some(id);
    assert users[k] in users;
    var idx := UserIndex(users, Some(id));
    assert idx.Some?;
    assert users[idx.value].id == idx.value + 1 && id == k + 1;
    assert idx.value == k;
  }

  /** Chinese characters U+4E00 to U+9FA5, ASCII letters and digits, `_`. */
  predicate IsNameChar(c: char) {
    ('一' <= c <= '龥') || IsWordChar(c)
  }

  /** `validateName`: the length is checked before the characters. */
  function ValidateName(name: string): (r: Option<string>)
    ensures r.None? <==> 2 <= |name| <= 20 && forall i :: 0 <= i < |name| ==> IsNameChar(name[i])
    ensures !(2 <= |name| <= 20) ==> r == Some(NameLengthError)
    ensures 2 <= |name| <= 20 && r.Some? ==> r == Some(NameCharsError)
  {
    if |name| < 2 || |name| > 20 then Some(NameLengthError)
    else if forall i :: 0 <= i < |name| ==> IsNameChar(name[i]) then None
    else Some(NameCharsError)
  }

  /** Some other user already goes by `name`. */
  predicate NameTakenByOther(users: seq<MockUser>, id: int, name: string) {
    exists u :: u in users && u.id != id && u.name == name
  }

  /** Keeping one's own current name is never refused as taken. */
  lemma OwnNameFree(users: seq<MockUser>, k: nat)
    requires SequentialIds(users) && UniqueNames(users) && k < |users|
    ensures !NameTakenByOther(users, users[k].id, users[k].name)
  {
    forall u | u in users && u.name == users[k].name ensures u.id == users[k].id {
      var j :| 0 <= j < |users| && users[j] == u;
    }
  }

  /** Renaming the one user at `k` keeps the ids and user names, and keeps
      display names unique when no other user had the new name. */
  lemma RenameKeeps(users: seq<MockUser>, k: nat, name: string)
    requires SequentialIds(users) && UniqueUsernames(users) && k < |users|
    requires !NameTakenByOther(users, users[k].id, name)
    ensures var after := users[k := users[k].(name := name)];
            SequentialIds(after) && UniqueUsernames(after) && (UniqueNames(users) ==> UniqueNames(after))
  {
    var after := users[k := users[k].(name := name)];
    if UniqueNames(users) {
      forall i, j | 0 <= i < j < |after| ensures after[i].name != after[j].name {
        if i == k {
          assert users[j] in users && users[j].id != users[k].id;
        } else if j == k {
          assert users[i] in users && users[i].id != users[k].id;
        }
      }
    }
  }

  /** `PUT /api/user/name`. */
  method Rename(t: UserTable, header: Option<string>, newName: string) returns (reply: Reply<string>)
    requires t.Valid()
    modifies t
    ensures t.Valid()
    ensures old(t.NamesUnique()) ==> t.NamesUnique()
    ensures Caller(old(t.users), header).None? ==> reply == Err(401, InvalidToken)
    ensures (Caller(old(t.users), header).Some? && ValidateName(newName).Some?) ==>
              reply == Err(400, ValidateName(newName).value)
    ensures (Caller(old(t.users), header).Some? && ValidateName(newName).None?
             && NameTakenByOther(old(t.users), CallerId(header).value, newName)) ==> reply == Err(400, NameTaken)
    ensures reply.Ok? <==> (Caller(old(t.users), header).Some? && ValidateName(newName).None?
                            && !NameTakenByOther(old(t.users), CallerId(header).value, newName))
    ensures reply.Err? ==> t.users == old(t.users)
    ensures reply.Ok? ==>
              var k := Caller(old(t.users), header).value;
              reply == Ok(200, Renamed, newName) && t.users == old(t.users)[k := old(t.users)[k].(name := newName)]
  {
    var k := Caller(t.users, header);
    if k.None? {
      return Err(401, InvalidToken);
    }
    var nameError := ValidateName(newName);
    if nameError.Some? {
      return Err(400, nameError.value);
    }
    var id := CallerId(header).value;
    var other := FindIndex(t.users, (u: MockUser) => u.id != id && u.name == newName);
    if other.Some? {
      assert t.users[other.value] in t.users;
      return Err(400, NameTaken);
    }
    assert !NameTakenByOther(t.users, id, newName) by {
      forall u | u in t.users ensures !(u.id != id && u.name == newName) {
        var j :| 0 <= j < |t.users| && t.users[j] == u;
      }
    }
    RenameKeeps(t.users, k.value, newName);
    t.users := t.users[k.value := t.users[k.value].(name := newName)];
    reply := Ok(200, Renamed, newName);
  }

  /** `PUT /api/user/avatar`: the new address is built from the caller's id
      and a generated file name. */
  method Avatar(t: UserTable, header: Option<string>, randomName: string) returns (reply: Reply<string>)
    requires t.Valid()
    modifies t
    ensures t.Valid() && (old(t.NamesUnique()) ==> t.NamesUnique())
    ensures reply.Ok? <==> Caller(old(t.users), header).Some?
    ensures reply.Err? ==> reply == Err(401, InvalidToken) && t.users == old(t.users)
    ensures reply.Ok? ==>
              var k := Caller(old(t.users), header).value;
              var url := AvatarBase + IntToString(old(t.users)[k].id) + "/" + randomName + ".png";
              reply == Ok(200, AvatarUploaded, url) && t.users == old(t.users)[k := old(t.users)[k].(photoUrl := url)]
  {
    var k := Caller(t.users, header);
    if k.None? {
      return Err(401, InvalidToken);
    }
    var url := AvatarBase + IntToString(t.users[k.value].id) + "/" + randomName + ".png";
    t.users := t.users[k.value := t.users[k.value].(photoUrl := url)];
    reply := Ok(200, AvatarUploaded, url);
  }

  /** `PUT /api/user/password`: the old password must match (401), then the
      new one must have the credential format (400) and differ from the old (400). */
  method ChangePassword(t: UserTable, header: Option<string>, oldPassword: string, newPassword: string)
    returns (reply: Reply<()>)
    requires t.Valid()
    modifies t
    ensures t.Valid() && (old(t.NamesUnique()) ==> t.NamesUnique())
    ensures Caller(old(t.users), header).None? ==> reply == Err(401, InvalidToken)
    ensures (Caller(old(t.users), header).Some?
             && old(t.users)[Caller(old(t.users), header).value].password != oldPassword) ==>
              reply == Err(401, OldPasswordWrong)
    ensures (Caller(old(t.users), header).Some?
             && old(t.users)[Caller(old(t.users), header).value].password == oldPassword
             && !ValidCredential(newPassword)) ==>
              reply == Err(400, NewPasswordFormatError)
    ensures (Caller(old(t.users), header).Some?
             && old(t.users)[Caller(old(t.users), header).value].password == oldPassword
             && ValidCredential(newPassword) && newPassword == oldPassword) ==>
              reply == Err(400, SamePassword)
    ensures reply.Ok? <==> (Caller(old(t.users), header).Some?
                            && old(t.users)[Caller(old(t.users), header).value].password == oldPassword
                            && ValidCredential(newPassword) && newPassword != oldPassword)
    ensures reply.Err? ==> t.users == old(t.users)
    ensures reply.Ok? ==>
              var k := Caller(old(t.users), header).value;
              reply == Ok(200, PasswordChanged, ()) && t.users == old(t.users)[k := old(t.users)[k].(password := newPassword)]
  {
    var k := Caller(t.users, header);
    if k.None? {
      return Err(401, InvalidToken);
    }
    if t.users[k.value].password != oldPassword {
      return Err(401, OldPasswordWrong);
    }
    if !ValidCredential(newPassword) {
      return Err(400, NewPasswordFormatError);
    }
    if oldPassword == newPassword {
      return Err(400, SamePassword);
    }
    t.users := t.users[k.value := t.users[k.value].(password := newPassword)];
    reply := Ok(200, PasswordChanged, ());
  }
}
