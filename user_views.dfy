/** `UserViewSet` (users/views.py): the login guard sequence, the soft
    delete, the avatar update, the profile update with its `newPassword`
    handling, and the password change. `authenticate`, the token issuer and
    the password hasher are parameters. */
module UserViews {
  import opened Base
  import opened JsonValues
  import opened TtlStore
  import opened UserModels
  import opened UserSerializers
  import opened Responses

  /** The status and message of a `StandardResponse`. */
  datatype ViewReply = ViewReply(status: int, message: string)

  /** What `RefreshToken.for_user` yields, and the configured access-token
      lifetime in whole seconds. */
  datatype Tokens = Tokens(access: string, refresh: string, expiresIn: int)

  datatype LoginReply = LoginRefused(message: string) | LoggedIn(tokens: Tokens)

  const EmptyCredentials := "用户名和密码不能为空"
  const BadCredentials := "用户名或密码错误"
  const Disabled := "用户已被禁用"
  const LoginMessage := "登录成功"

  /** `login`'s answer. `found` is the user `authenticate` returns for the
      credentials, if any. */
  function LoginReplyOf(username: Option<string>, password: Option<string>, found: Option<UserRow>,
                        tokens: Tokens): LoginReply
  {
    if !Present(username) || !Present(password) then LoginRefused(EmptyCredentials)
    else if found.None? then LoginRefused(BadCredentials)
    else if !found.value.isActive then LoginRefused(Disabled)
    else LoggedIn(tokens)
  }

  /** Empty credentials are refused before authentication: the answer does
      not depend on what `authenticate` would return. A login succeeds
      exactly when both credentials are given and they authenticate an
      active user. */
  lemma LoginGuards(username: Option<string>, password: Option<string>, found: Option<UserRow>,
                    other: Option<UserRow>, tokens: Tokens)
    ensures !Present(username) || !Present(password) ==>
      LoginReplyOf(username, password, found, tokens) == LoginReplyOf(username, password, other, tokens)
        == LoginRefused(EmptyCredentials)
    ensures LoginReplyOf(username, password, found, tokens).LoggedIn? <==>
      Present(username) && Present(password) && found.Some? && found.value.isActive
  {
  }

  /** The keyword fields of the successful login response. */
  function LoginExtras(tokens: Tokens): seq<(string, Json)> {
    [("access", JStr(tokens.access)), ("refresh", JStr(tokens.refresh)), ("expires_in", JInt(tokens.expiresIn))]
  }

  /** The keyword fields of a successful login name three distinct keys. */
  lemma LoginExtrasKeys(tokens: Tokens)
    ensures KeysOf(LoginExtras(tokens)) == ["access", "refresh", "expires_in"]
    ensures DistinctKeys(LoginExtras(tokens))
  {
  }

  /** The successful login body carries the envelope with status 200 and
      the two tokens and the lifetime under their own keys. */
  lemma LoginBody(data: Json, tokens: Tokens, timestamp: string)
    ensures var body := UpdateAll(EnvelopeBase(data, JStr(LoginMessage), 200, timestamp), LoginExtras(tokens));
      && Lookup(body, "status") == Some(JInt(200))
      && Lookup(body, "access") == Some(JStr(tokens.access))
      && Lookup(body, "refresh") == Some(JStr(tokens.refresh))
      && Lookup(body, "expires_in") == Some(JInt(tokens.expiresIn))
  {
    var extras := LoginExtras(tokens);
    var base := EnvelopeBase(data, JStr(LoginMessage), 200, timestamp);
    LoginExtrasKeys(tokens);
    UpdateAllLookup(base, extras, "status");
    EnvelopeBaseLookup(data, JStr(LoginMessage), 200, timestamp, "status");
    UpdateAllLookup(base, extras, "access");
    UpdateAllLookup(base, extras, "refresh");
    UpdateAllLookup(base, extras, "expires_in");
    LookupFirst(extras, 0, "access");
    LookupFirst(extras, 1, "refresh");
    LookupFirst(extras, 2, "expires_in");
  }

  function Users(found: Option<User>): set<User> {
    if found.Some? then {found.value} else {}
  }

  function RowOf(found: Option<User>): Option<UserRow>
    reads Users(found)
  {
    if found.Some? then Some(found.value.Fields()) else None
  }

  /** `login`: only a successful login touches the user, setting
      `last_login` and saving. */
  method Login(username: Option<string>, password: Option<string>, found: Option<User>,
               tokens: Tokens, now: int) returns (reply: LoginReply)
    modifies Users(found)
    ensures reply == LoginReplyOf(username, password, old(RowOf(found)), tokens)
    ensures reply.LoggedIn? ==>
      && found.value.Fields() == old(found.value.Fields()).(lastLogin := Some(now), name := SavedName(old(found.value.name), old(found.value.username)))
      && found.value.row == Some(found.value.Fields())
    ensures !reply.LoggedIn? && found.Some? ==> unchanged(found.value)
  {
    if username.None? || username.value == [] || password.None? || password.value == [] {
      return LoginRefused(EmptyCredentials);
    }
    if found.None? {
      return LoginRefused(BadCredentials);
    }
    var user := found.value;
    if !user.isActive {
      return LoginRefused(Disabled);
    }
    user.lastLogin := Some(now);
    user.Save();
    reply := LoggedIn(tokens);
  }

  /** `perform_destroy`: the row stays, marked inactive. */
  method PerformDestroy(user: User)
    modifies user
    ensures user.Fields() == old(user.Fields()).(isActive := false, name := SavedName(old(user.name), old(user.username)))
    ensures user.row == Some(user.Fields())
  {
    user.isActive := false;
    user.Save();
  }

  const NoAvatar := "未提供头像文件"

  /** `update_avatar`: a missing or nameless file is refused and the user
      left alone; otherwise the file is stored under its upload path. The
      avatar checks of the serializer are not run on this path. */
  method UpdateAvatar(user: User, avatar: Option<Upload>, uuid: string) returns (reply: ViewReply)
    modifies user
    ensures reply.status == (if HasFile(avatar) then 200 else 400)
    ensures !HasFile(avatar) ==> reply == ViewReply(400, NoAvatar) && unchanged(user)
    ensures HasFile(avatar) ==>
      && user.Fields() == old(user.Fields()).(avatar := UploadPath(avatar.value.name, uuid), name := SavedName(old(user.name), old(user.username)))
      && user.row == Some(user.Fields())
  {
    if avatar.None? || avatar.value.name == [] {
      return ViewReply(400, NoAvatar);
    }
    user.avatar := UploadPath(avatar.value.name, uuid);
    user.Save();
    reply := ViewReply(200, "头像更新成功");
  }

  /** A file the serializer would refuse (too large, and not an image)
      still goes through `update_avatar`. */
  lemma AvatarUncheckedOnUpdate()
    ensures HasFile(Some(Upload("a.exe", 3 * 1024 * 1024)))
    ensures AvatarError(Some(Upload("a.exe", 3 * 1024 * 1024))) == Some(AvatarTooLarge)
  {
  }

  /** The password `update` checks `old_password` against: `set_password`
      has already run for a given `newPassword`, so it is the new one. */
  function PasswordAtCheck(row: UserRow, request: map<string, string>, hash: string -> string): string {
    var newPassword := Param(request, "newPassword");
    if Present(newPassword) then hash(newPassword.value) else row.password
  }

  /** The validated attributes that are not text: `gender` and
      `is_active` when given, and the uploaded avatar file when given. */
  datatype ProfileAttrs = ProfileAttrs(gender: Option<int>, isActive: Option<bool>, avatar: Option<Upload>)

  /** `ModelSerializer.update`'s assignments of the validated text
      attributes: each given one is set as it is, so a `password` attribute
      is stored unhashed. */
  function AssignText(row: UserRow, attrs: map<string, string>): UserRow {
    var r := if "username" in attrs then row.(username := attrs["username"]) else row;
    var r := if "email" in attrs then r.(email := attrs["email"]) else r;
    var r := if "name" in attrs then r.(name := attrs["name"]) else r;
    if "password" in attrs then r.(password := attrs["password"]) else r
  }

  /** The assignments of the other validated attributes: an avatar file is
      stored by `save` under its upload path (`uuid` is the name
      `uuid.uuid4()` gives it). */
  function AssignProfile(row: UserRow, profile: ProfileAttrs, uuid: string): UserRow {
    var r := if profile.gender.Some? then row.(gender := profile.gender.value) else row;
    var r := if profile.isActive.Some? then r.(isActive := profile.isActive.value) else r;
    if profile.avatar.Some? then r.(avatar := UploadPath(profile.avatar.value.name, uuid)) else r
  }

  /** `ModelSerializer.update`'s `setattr` for every validated attribute. */
  function AssignAttrs(row: UserRow, attrs: map<string, string>, profile: ProfileAttrs, uuid: string): UserRow {
    AssignProfile(AssignText(row, attrs), profile, uuid)
  }

  /** The text assignments touch the four text fields only. */
  lemma TextAssigned(row: UserRow, attrs: map<string, string>)
    ensures var r := AssignText(row, attrs);
      && r.username == (if "username" in attrs then attrs["username"] else row.username)
      && r.email == (if "email" in attrs then attrs["email"] else row.email)
      && r.password == (if "password" in attrs then attrs["password"] else row.password)
      && r.(username := row.username, email := row.email, name := row.name, password := row.password) == row
  {
  }

  /** The other assignments touch gender, activity and avatar only. */
  lemma ProfileAssigned(row: UserRow, profile: ProfileAttrs, uuid: string)
    ensures var r := AssignProfile(row, profile, uuid);
      && r.gender == (if profile.gender.Some? then profile.gender.value else row.gender)
      && r.isActive == (if profile.isActive.Some? then profile.isActive.value else row.isActive)
      && r.avatar == (if profile.avatar.Some? then UploadPath(profile.avatar.value.name, uuid) else row.avatar)
      && r.(gender := row.gender, isActive := row.isActive, avatar := row.avatar) == row
  {
  }

  /** The fields after a successful `update`: `newPassword` hashed, then the
      attributes assigned, then the name default of `save`. */
  function UpdatedRow(row: UserRow, request: map<string, string>, attrs: map<string, string>,
                      profile: ProfileAttrs, hash: string -> string, uuid: string): UserRow
  {
    var r := AssignAttrs(row.(password := PasswordAtCheck(row, request, hash)), attrs, profile, uuid);
    r.(name := SavedName(r.name, r.username))
  }

  /** Every attribute given replaces the user's field and every one not
      given leaves it; the last login is never touched. */
  lemma UpdatedFields(row: UserRow, request: map<string, string>, attrs: map<string, string>,
                      profile: ProfileAttrs, hash: string -> string, uuid: string)
    ensures var r := UpdatedRow(row, request, attrs, profile, hash, uuid);
      && r.username == (if "username" in attrs then attrs["username"] else row.username)
      && r.email == (if "email" in attrs then attrs["email"] else row.email)
      && r.gender == (if profile.gender.Some? then profile.gender.value else row.gender)
      && r.isActive == (if profile.isActive.Some? then profile.isActive.value else row.isActive)
      && r.avatar == (if profile.avatar.Some? then UploadPath(profile.avatar.value.name, uuid) else row.avatar)
      && r.lastLogin == row.lastLogin
  {
    var checked := row.(password := PasswordAtCheck(row, request, hash));
    TextAssigned(checked, attrs);
    ProfileAssigned(AssignText(checked, attrs), profile, uuid);
  }

  /** A `password` attribute overrides the hashed `newPassword`: the row
      then holds the attribute's text as its password. */
  lemma RawPasswordAttribute(row: UserRow, request: map<string, string>, attrs: map<string, string>,
                             profile: ProfileAttrs, hash: string -> string, uuid: string)
    requires "password" in attrs
    ensures UpdatedRow(row, request, attrs, profile, hash, uuid).password == attrs["password"]
    ensures "email" in attrs ==> UpdatedRow(row, request, attrs, profile, hash, uuid).email == attrs["email"]
    ensures "email" !in attrs ==> UpdatedRow(row, request, attrs, profile, hash, uuid).email == row.email
  {
  }

  /** The answer of `update`: a refusal reaches the client through the
      exception handler as `non_field_errors:<message>` with status 400. */
  function UpdateReply(verdict: Verdict): ViewReply {
    if verdict.Accepted? then ViewReply(200, "更新成功") else ViewReply(400, "non_field_errors:" + verdict.message)
  }

  /** `update`'s verdict and the store afterwards. */
  function UpdateValidate(row: UserRow, request: map<string, string>, attrs: map<string, string>,
                          hash: string -> string, entries: Entries, now: int): (Verdict, Entries)
  {
    var current := PasswordAtCheck(row, request, hash);
    UserValidate(attrs, Some(row.email), Some(request), PasswordChecker(hash, current), entries, now)
  }

  /** `update`'s answer and the store afterwards. A refused avatar fails
      the serializer's field pass, so `validate` does not run and the
      handler reports `avatar:<message>`; otherwise `validate` decides. */
  function UpdateOutcome(row: UserRow, request: map<string, string>, attrs: map<string, string>,
                         profile: ProfileAttrs, hash: string -> string, entries: Entries, now: int): (ViewReply, Entries)
  {
    var avatarError := AvatarError(profile.avatar);
    if avatarError.Some? then (ViewReply(400, "avatar:" + avatarError.value), entries)
    else
      var (verdict, after) := UpdateValidate(row, request, attrs, hash, entries, now);
      (UpdateReply(verdict), after)
  }

  /** `update` checks the avatar as the serializer does: a file that is too
      large or not an image is refused with the store untouched, and an
      accepted update stores its avatar under a jpg, jpeg or png path. */
  lemma AvatarCheckedOnUpdate(row: UserRow, request: map<string, string>, attrs: map<string, string>,
                              profile: ProfileAttrs, hash: string -> string, entries: Entries, now: int, uuid: string)
    requires uuid != [] && uuid[0] != '/'
    ensures AvatarError(profile.avatar).Some? ==>
      UpdateOutcome(row, request, attrs, profile, hash, entries, now) ==
        (ViewReply(400, "avatar:" + AvatarError(profile.avatar).value), entries)
    ensures UpdateOutcome(row, request, attrs, profile, hash, entries, now).0.status == 200 && HasFile(profile.avatar) ==>
      AfterLast(UpdatedRow(row, request, attrs, profile, hash, uuid).avatar, '.') in {"jpg", "jpeg", "png"}
  {
    if UpdateOutcome(row, request, attrs, profile, hash, entries, now).0.status == 200 && HasFile(profile.avatar) {
      AcceptedAvatarPath(profile.avatar.value, uuid);
    }
  }

  /** With a `newPassword` in the request, the old password is checked
      against the new one: unless the two hash alike the update is refused
      as a wrong old password, whatever password the user really has. */
  lemma UpdateChecksOldAgainstNew(row: UserRow, request: map<string, string>, attrs: map<string, string>,
                                  hash: string -> string, entries: Entries, now: int)
    requires "newPassword" in request && request["newPassword"] != []
    requires "old_password" in request && request["old_password"] != []
    requires hash(request["old_password"]) != hash(request["newPassword"])
    ensures UpdateValidate(row, request, attrs, hash, entries, now) == (Rejected(WrongOldPassword), entries)
  {
    OldPasswordFirst(attrs, row.email, request, PasswordChecker(hash, hash(request["newPassword"])), entries, now);
  }

  /** The attribute assignments of `perform_update`, before its save:
      the text attributes, then the others. */
  method AssignAttributes(user: User, attrs: map<string, string>, profile: ProfileAttrs, uuid: string)
    modifies user
    ensures user.Fields() == AssignAttrs(old(user.Fields()), attrs, profile, uuid)
    ensures user.row == old(user.row)
  {
    AssignTextAttributes(user, attrs);
    AssignProfileAttributes(user, profile, uuid);
  }

  method AssignTextAttributes(user: User, attrs: map<string, string>)
    modifies user
    ensures user.Fields() == AssignText(old(user.Fields()), attrs)
    ensures user.row == old(user.row)
  {
    if "username" in attrs {
      user.username := attrs["username"];
    }
    if "email" in attrs {
      user.email := attrs["email"];
    }
    if "name" in attrs {
      user.name := attrs["name"];
    }
    if "password" in attrs {
      user.password := attrs["password"];
    }
  }

  method AssignProfileAttributes(user: User, profile: ProfileAttrs, uuid: string)
    modifies user
    ensures user.Fields() == AssignProfile(old(user.Fields()), profile, uuid)
    ensures user.row == old(user.row)
  {
    if profile.gender.Some? {
      user.gender := profile.gender.value;
    }
    if profile.isActive.Some? {
      user.isActive := profile.isActive.value;
    }
    if profile.avatar.Some? {
      user.avatar := UploadPath(profile.avatar.value.name, uuid);
    }
  }

  /** `update` on a loaded user: a refusal leaves the row as it was (the
      in-memory password may already have changed); success assigns the
      attributes and saves. */
  method Update(user: User, store: Store, request: map<string, string>, attrs: map<string, string>,
                profile: ProfileAttrs, hash: string -> string, uuid: string, now: int) returns (reply: ViewReply)
    modifies user, store
    ensures (reply, store.entries) ==
      UpdateOutcome(old(user.Fields()), request, attrs, profile, hash, old(store.entries), now)
    ensures reply.status == 200 ==>
      user.Fields() == UpdatedRow(old(user.Fields()), request, attrs, profile, hash, uuid) && user.row == Some(user.Fields())
    ensures reply.status != 200 ==> user.row == old(user.row)
  {
    var newPassword := Param(request, "newPassword");
    if newPassword.Some? && newPassword.value != [] {
      user.password := hash(newPassword.value);
    }
    ghost var checked := user.Fields();
    assert checked == old(user.Fields()).(password := PasswordAtCheck(old(user.Fields()), request, hash));
    var avatarError := AvatarError(profile.avatar);
    if avatarError.Some? {
      reply := ViewReply(400, "avatar:" + avatarError.value);
      return;
    }
    var current := user.password;
    var verdict := ValidateUser(store, attrs, Some(user.email), Some(request), PasswordChecker(hash, current), now);
    reply := UpdateReply(verdict);
    if verdict.Rejected? {
      return;
    }
    AssignAttributes(user, attrs, profile, uuid);
    user.Save();
  }

  /** `update_password`: on an accepted change the validated (stripped)
      new password is hashed and saved; a refusal changes nothing on the
      user. */
  method UpdatePassword(user: User, store: Store, req: PasswordChange, emailValid: string -> bool,
                        strengthErrors: seq<string>, hash: string -> string, now: int) returns (verdict: ChangeVerdict)
    modifies user, store
    ensures (verdict, store.entries) ==
      PasswordChangeValidate(req, old(user.email), emailValid, PasswordChecker(hash, old(user.password)),
                             strengthErrors, old(store.entries), now)
    ensures verdict.ChangeAccepted? ==>
      && user.Fields() == old(user.Fields()).(password := hash(Strip(req.newPassword)), name := SavedName(old(user.name), old(user.username)))
      && user.row == Some(user.Fields())
    ensures verdict.ChangeRejected? ==> unchanged(user)
  {
    var current := user.password;
    verdict := ValidatePasswordChange(store, req, user.email, emailValid, PasswordChecker(hash, current), strengthErrors, now);
    if verdict.ChangeAccepted? {
      AcceptedPasswordStripped(req, old(user.email), emailValid, PasswordChecker(hash, current), strengthErrors, old(store.entries), now);
      user.password := hash(verdict.newPassword);
      user.Save();
    }
  }
}
