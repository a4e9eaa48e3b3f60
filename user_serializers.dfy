/** The account serializers (users/serializers.py): the verified-address
    flag, the avatar check, `UserSerializer.validate` and `create`, and
    `PasswordChangeSerializer`. Password hashing and checking and Django's
    password-strength validators are parameters. */
module UserSerializers {
  import opened Base
  import opened TtlStore
  import opened Verification
  import opened UserModels
  import opened DrfFields

  /** `ver_email`: the address counts as verified while its flag is live
      and reads exactly "true". */
  function VerEmail(entries: Entries, email: string, now: int): bool {
    var status := Get(entries, FlagKey(email), now);
    if status.None? || status.value == "" || status.value != "true" then false else true
  }

  /** A successful `email_verify` makes the address count as verified for
      the next 30 minutes, and no longer after that. */
  lemma VerifiedForHalfAnHour(entries: Entries, code: string, email: string, settings: Settings,
                              now: int, later: int)
    requires code != [] && email != []
    requires Get(entries, CodeKey(email), now) == Some(code)
    ensures VerEmail(EmailVerify(entries, Some(code), Some(email), settings, now).1, email, later)
      <==> later < now + VerifiedTtl
  {
    EmailVerifyOutcome(entries, code, email, settings, now, later);
  }

  /** Consuming the flag turns verification off until the next
      `email_verify`. */
  lemma ConsumedFlag(entries: Entries, email: string, now: int)
    ensures !VerEmail(Delete(entries, FlagKey(email)), email, now)
  {
  }

  // ---------------------------------------------------------------------
  // UserSerializer

  /** An uploaded file: its name and its size in bytes. */
  datatype Upload = Upload(name: string, size: int)

  /** An uploaded file is falsy when its name is empty. */
  predicate HasFile(value: Option<Upload>) {
    value.Some? && value.value.name != []
  }

  const MaxAvatarSize := 2 * 1024 * 1024
  const AvatarTooLarge := "头像文件大小不能超过2MB"
  const AvatarBadType := "只允许上传jpg、jpeg、png格式的图片"

  /** `validate_avatar`: the error it raises, if any. */
  function AvatarError(value: Option<Upload>): Option<string> {
    if !HasFile(value) then None
    else if value.value.size > MaxAvatarSize then Some(AvatarTooLarge)
    else if Extension(value.value.name) !in ["jpg", "jpeg", "png"] then Some(AvatarBadType)
    else None
  }

  /** An avatar passes exactly when there is no file, or the file is at
      most 2 MiB and its lower-cased extension is jpg, jpeg or png; size is
      checked first. */
  lemma AvatarRule(value: Option<Upload>)
    ensures AvatarError(value).None? <==>
      !HasFile(value) || (value.value.size <= 2097152 && Extension(value.value.name) in {"jpg", "jpeg", "png"})
    ensures HasFile(value) && value.value.size > 2097152 ==> AvatarError(value) == Some(AvatarTooLarge)
  {
  }

  /** An avatar that passes is stored under a path ending in one of the
      three accepted extensions. */
  lemma AcceptedAvatarPath(value: Upload, uuid: string)
    requires AvatarError(Some(value)).None? && value.name != []
    requires uuid != [] && uuid[0] != '/'
    ensures AfterLast(UploadPath(value.name, uuid), '.') in {"jpg", "jpeg", "png"}
  {
    assert HasFile(Some(value));
    assert Extension(value.name) in ["jpg", "jpeg", "png"];
    UploadPathShape(value.name, uuid);
  }

  /** The fields `UserSerializer` declares; validated attributes only ever
      hold these keys. */
  const UserFields: set<string> := {"id", "username", "gender", "email", "is_active", "password",
    "confirm_password", "date_joined", "last_login", "avatar", "name"}

  function Param(m: map<string, string>, key: string): Option<string> {
    if key in m then Some(m[key]) else None
  }

  predicate Present(p: Option<string>) { p.Some? && p.value != [] }

  datatype Verdict = Accepted | Rejected(message: string)

  const WrongOldPassword := "旧密码错误"
  const ConfirmMissing := "请输入确认密码"
  const ConfirmMismatch := "密码不一致"
  const NotVerified := "邮箱未验证"

  /** Whether `validate` checks the verified flag: on update when the
      address changes or a new password is given, on create when an address
      or a password is given. */
  function NeedsVerification(attrs: map<string, string>, instanceEmail: Option<string>): bool {
    var email := Param(attrs, "email");
    var password := Param(attrs, "new_password");
    if instanceEmail.Some? then
      (Present(email) && email.value != instanceEmail.value) || Present(password)
    else
      Present(email) || Present(password)
  }

  /** `UserSerializer.validate`: the verdict and the store afterwards.
      `instanceEmail` is the address of the user being updated (None on
      create), `request` the parsed request body when there is a request,
      and `checkPassword` the instance's `check_password`. */
  function UserValidate(attrs: map<string, string>, instanceEmail: Option<string>,
                        request: Option<map<string, string>>, checkPassword: string -> bool,
                        entries: Entries, now: int): (Verdict, Entries)
  {
    var email := Param(attrs, "email");
    var password := Param(attrs, "new_password");
    var confirm := Param(attrs, "confirm_password");
    var isPasswordChange := request.Some? && "old_password" in request.value;
    var oldPassword := if request.Some? then Param(request.value, "old_password") else None;
    if instanceEmail.Some? && isPasswordChange && Present(oldPassword) && !checkPassword(oldPassword.value) then
      (Rejected(WrongOldPassword), entries)
    else if Present(password) && !Present(confirm) then
      (Rejected(ConfirmMissing), entries)
    else if Present(password) && password.value != confirm.value then
      (Rejected(ConfirmMismatch), entries)
    else if NeedsVerification(attrs, instanceEmail) && Present(email) then
      if !VerEmail(entries, email.value, now) then (Rejected(NotVerified), entries)
      else (Accepted, Delete(entries, FlagKey(email.value)))
    else
      (Accepted, entries)
  }

  /** The store changes only when `validate` accepts, and then only by
      consuming the flag of the given address, which was live. */
  lemma UserValidateStore(attrs: map<string, string>, instanceEmail: Option<string>,
                          request: Option<map<string, string>>, checkPassword: string -> bool,
                          entries: Entries, now: int)
    ensures var (verdict, after) := UserValidate(attrs, instanceEmail, request, checkPassword, entries, now);
      after != entries ==>
        && verdict == Accepted
        && "email" in attrs
        && VerEmail(entries, attrs["email"], now)
        && after == Delete(entries, FlagKey(attrs["email"]))
    ensures UserValidate(attrs, instanceEmail, request, checkPassword, entries, now).0.Rejected? ==>
      UserValidate(attrs, instanceEmail, request, checkPassword, entries, now).1 == entries
  {
  }

  /** On update, a wrong old password is reported before anything about the
      new password or the address is looked at. */
  lemma OldPasswordFirst(attrs: map<string, string>, instanceEmail: string,
                         request: map<string, string>, checkPassword: string -> bool,
                         entries: Entries, now: int)
    requires "old_password" in request && request["old_password"] != []
    requires !checkPassword(request["old_password"])
    ensures UserValidate(attrs, Some(instanceEmail), Some(request), checkPassword, entries, now)
      == (Rejected(WrongOldPassword), entries)
  {
  }

  /** On create with an address, `validate` accepts only a verified address
      and consumes its flag; an unverified one is refused with nothing
      changed. */
  lemma CreateNeedsVerifiedEmail(attrs: map<string, string>, request: Option<map<string, string>>,
                                 checkPassword: string -> bool, entries: Entries, now: int)
    requires "email" in attrs && attrs["email"] != []
    requires !Present(Param(attrs, "new_password"))
    ensures var email := attrs["email"];
      UserValidate(attrs, None, request, checkPassword, entries, now) ==
        if VerEmail(entries, email, now) then (Accepted, Delete(entries, FlagKey(email)))
        else (Rejected(NotVerified), entries)
  {
  }

  /** Keeping the same address on update needs no verification: with no
      new password and no old-password failure the update is accepted and
      the store is untouched. */
  lemma SameEmailNoVerification(attrs: map<string, string>, instanceEmail: string,
                                request: Option<map<string, string>>, checkPassword: string -> bool,
                                entries: Entries, now: int)
    requires Param(attrs, "email") == Some(instanceEmail) || !Present(Param(attrs, "email"))
    requires !Present(Param(attrs, "new_password"))
    requires request.None? || !Present(Param(request.value, "old_password"))
    ensures UserValidate(attrs, Some(instanceEmail), request, checkPassword, entries, now) == (Accepted, entries)
  {
  }

  /** When a new password is given (and the old one, if any, checks out),
      a missing confirmation and a differing one are refused in that order. */
  lemma ConfirmChecks(attrs: map<string, string>, instanceEmail: Option<string>,
                      request: Option<map<string, string>>, checkPassword: string -> bool,
                      entries: Entries, now: int)
    requires Present(Param(attrs, "new_password"))
    requires !(instanceEmail.Some? && request.Some? && Present(Param(request.value, "old_password"))
               && !checkPassword(request.value["old_password"]))
    ensures var verdict := UserValidate(attrs, instanceEmail, request, checkPassword, entries, now).0;
      && (!Present(Param(attrs, "confirm_password")) ==> verdict == Rejected(ConfirmMissing))
      && ((Present(Param(attrs, "confirm_password")) && attrs["confirm_password"] != attrs["new_password"])
            ==> verdict == Rejected(ConfirmMismatch))
  {
  }

  /** `new_password` is not a declared field, so validated attributes never
      hold it: the confirmation checks cannot fire, and on update only a
      changed address asks for verification. */
  lemma NewPasswordNeverValidated(attrs: map<string, string>, instanceEmail: Option<string>,
                                  request: Option<map<string, string>>, checkPassword: string -> bool,
                                  entries: Entries, now: int)
    requires attrs.Keys <= UserFields
    ensures var verdict := UserValidate(attrs, instanceEmail, request, checkPassword, entries, now).0;
      verdict != Rejected(ConfirmMissing) && verdict != Rejected(ConfirmMismatch)
    ensures instanceEmail.Some? ==>
      (NeedsVerification(attrs, instanceEmail) <==> "email" in attrs && attrs["email"] != [] && attrs["email"] != instanceEmail.value)
  {
    assert "new_password" !in UserFields;
  }

  /** `validate` over the shared store: works out whether verification is
      needed, runs the checks in order, and deletes the flag when it was
      needed and live. */
  method ValidateUser(store: Store, attrs: map<string, string>, instanceEmail: Option<string>,
                      request: Option<map<string, string>>, checkPassword: string -> bool, now: int)
    returns (verdict: Verdict)
    modifies store
    ensures (verdict, store.entries) ==
      UserValidate(attrs, instanceEmail, request, checkPassword, old(store.entries), now)
  {
    var email := Param(attrs, "email");
    var password := Param(attrs, "new_password");
    var confirm := Param(attrs, "confirm_password");
    var isPasswordChange := request.Some? && "old_password" in request.value;
    var oldPassword := if request.Some? then Param(request.value, "old_password") else None;
    var need := false;
    if instanceEmail.Some? {
      if Present(email) && email.value != instanceEmail.value {
        need := true;
      }
      if Present(password) {
        need := true;
      }
      if isPasswordChange && Present(oldPassword) && !checkPassword(oldPassword.value) {
        return Rejected(WrongOldPassword);
      }
    } else if Present(email) || Present(password) {
      need := true;
    }
    assert need == NeedsVerification(attrs, instanceEmail);
    if Present(password) {
      if !Present(confirm) {
        return Rejected(ConfirmMissing);
      }
      if password.value != confirm.value {
        return Rejected(ConfirmMismatch);
      }
    }
    if need && Present(email) {
      var status := store.Fetch(FlagKey(email.value), now);
      if status.None? || status.value == "" || status.value != "true" {
        return Rejected(NotVerified);
      }
      store.Remove(FlagKey(email.value));
    }
    verdict := Accepted;
  }

  /** What a sign-up carries once validated: `confirm_password` is popped
      before the user is made, so it does not appear here. */
  datatype SignUp = SignUp(
    username: string,
    email: string,
    password: string,
    name: Option<string>,
    gender: Option<int>,
    isActive: Option<bool>,
    avatar: Option<Upload>)

  /** The row `create` leaves behind: defaults for the fields not given,
      the name filled from the username when empty, the avatar under its
      upload path, and the password stored as its hash. */
  function CreatedRow(data: SignUp, hash: string -> string, uuid: string): UserRow {
    UserRow(data.username, SavedName(data.name.GetOr(""), data.username), data.email,
      data.gender.GetOr(0), data.isActive.GetOr(true),
      if data.avatar.Some? then UploadPath(data.avatar.value.name, uuid) else DefaultAvatar,
      hash(data.password), None)
  }

  /** `UserSerializer.create`: `objects.create` saves the user with the raw
      password, then `set_password` hashes it and a second save writes the
      final row. */
  method CreateUser(data: SignUp, hash: string -> string, uuid: string) returns (user: User)
    ensures fresh(user)
    ensures user.Fields() == CreatedRow(data, hash, uuid)
    ensures user.row == Some(user.Fields())
  {
    var avatar := if data.avatar.Some? then UploadPath(data.avatar.value.name, uuid) else DefaultAvatar;
    user := new User(data.username, data.name.GetOr(""), data.email, data.gender.GetOr(0),
                     data.isActive.GetOr(true), avatar, data.password);
    user.Save();
    assert user.Fields() == CreatedRow(data, hash, uuid).(password := data.password);
    user.password := hash(data.password);
    user.Save();
  }

  /** A created user has a display name whenever it has a username, and a
      gender among the choices when the one given was. */
  lemma CreatedRowDefaults(data: SignUp, hash: string -> string, uuid: string)
    requires data.username != []
    requires data.gender.None? || ValidGender(data.gender.value)
    ensures CreatedRow(data, hash, uuid).name != []
    ensures ValidGender(CreatedRow(data, hash, uuid).gender)
    ensures data.avatar.None? ==> CreatedRow(data, hash, uuid).avatar == "avatar/default.png"
  {
  }

  // ---------------------------------------------------------------------
  // PasswordChangeSerializer

  /** The translation table for Django's password-strength messages: the
      first rule whose English fragment occurs in a message replaces it. */
  const StrengthRules: seq<(string, string)> := [
    ("too short", "密码太短"),
    ("too common", "密码太常见"),
    ("entirely numeric", "密码不能全为数字"),
    ("similar to", "密码与用户信息太相似")]

  function TranslateBy(rules: seq<(string, string)>, message: string): string {
    if rules == [] then message
    else if Contains(message, rules[0].0) then rules[0].1
    else TranslateBy(rules[1..], message)
  }

  function Translate(message: string): string {
    TranslateBy(StrengthRules, message)
  }

  /** The first matching rule decides; a message no rule matches passes
      through unchanged. */
  lemma {:induction false} TranslateFirstMatch(rules: seq<(string, string)>, message: string, i: nat)
    requires i < |rules| && Contains(message, rules[i].0)
    requires forall j :: 0 <= j < i ==> !Contains(message, rules[j].0)
    ensures TranslateBy(rules, message) == rules[i].1
  {
    if i > 0 {
      assert !Contains(message, rules[0].0);
      TranslateFirstMatch(rules[1..], message, i - 1);
    }
  }

  lemma {:induction false} TranslateUnmatched(rules: seq<(string, string)>, message: string)
    requires forall j :: 0 <= j < |rules| ==> !Contains(message, rules[j].0)
    ensures TranslateBy(rules, message) == message
  {
    if rules != [] {
      assert !Contains(message, rules[0].0);
      TranslateUnmatched(rules[1..], message);
    }
  }

  /** The table read as the chain of tests `validate` writes out. */
  lemma TranslateChain(m: string)
    ensures Translate(m) ==
      if Contains(m, "too short") then "密码太短"
      else if Contains(m, "too common") then "密码太常见"
      else if Contains(m, "entirely numeric") then "密码不能全为数字"
      else if Contains(m, "similar to") then "密码与用户信息太相似"
      else m
  {
    var r0 := StrengthRules;
    var r1, r2, r3 := r0[1..], r0[2..], r0[3..];
    assert r1[1..] == r2 && r2[1..] == r3 && r3[1..] == [];
    assert TranslateBy(r3, m) == if Contains(m, "similar to") then "密码与用户信息太相似" else m;
    assert TranslateBy(r2, m) == if Contains(m, "entirely numeric") then "密码不能全为数字" else TranslateBy(r3, m);
    assert TranslateBy(r1, m) == if Contains(m, "too common") then "密码太常见" else TranslateBy(r2, m);
  }

  /** The message loop of `validate`: each message translated, in order. */
  method TranslateMessages(messages: seq<string>) returns (out: seq<string>)
    ensures |out| == |messages|
    ensures forall i :: 0 <= i < |messages| ==> out[i] == Translate(messages[i])
  {
    out := [];
    for i := 0 to |messages|
      invariant |out| == i
      invariant forall k :: 0 <= k < i ==> out[k] == Translate(messages[k])
    {
      var m := messages[i];
      var t: string;
      if Contains(m, "too short") {
        t := "密码太短";
      } else if Contains(m, "too common") {
        t := "密码太常见";
      } else if Contains(m, "entirely numeric") {
        t := "密码不能全为数字";
      } else if Contains(m, "similar to") {
        t := "密码与用户信息太相似";
      } else {
        t := m;
      }
      TranslateChain(m);
      out := out + [t];
    }
  }

  function TranslateAll(messages: seq<string>): (out: seq<string>)
    ensures |out| == |messages|
  {
    seq(|messages|, i requires 0 <= i < |messages| => Translate(messages[i]))
  }

  /** The request to change a password, each field given. */
  datatype PasswordChange = PasswordChange(email: string, oldPassword: string, newPassword: string, confirmPassword: string)

  /** An accepted change carries the validated new password (stripped, as
      the `CharField` keeps it); a refusal carries the serializer's error
      dict. */
  datatype ChangeVerdict = ChangeAccepted(newPassword: string) | ChangeRejected(errors: seq<FieldErrors>)

  const EmailMismatch := "邮箱不匹配"
  const NewPasswordMismatch := "新密码和确认密码不一致"

  /** The `email` field: its `EmailField` checks, then `validate_email`
      against the requesting user's address on the clean value. */
  function ChangeEmailField(value: string, userEmail: string, emailValid: string -> bool): Checked<string> {
    var c := CheckEmail(value, emailValid);
    if c.Clean? && c.value != userEmail then Invalid([Detail(EmailMismatch, "invalid")]) else c
  }

  /** The field pass of `is_valid`: each declared field in declaration
      order, every failing one adding its entry to the error dict. */
  function ChangeFieldErrors(req: PasswordChange, userEmail: string, emailValid: string -> bool): seq<FieldErrors> {
    ErrorsOf("email", ChangeEmailField(req.email, userEmail, emailValid))
    + ErrorsOf("old_password", CheckChars(req.oldPassword, false, None))
    + ErrorsOf("new_password", CheckChars(req.newPassword, false, None))
    + ErrorsOf("confirm_password", CheckChars(req.confirmPassword, false, None))
  }

  /** A `ValidationError` raised by `validate`: its messages under
      `non_field_errors`. */
  function NonField(messages: seq<string>): seq<FieldErrors> {
    [FieldErrors("non_field_errors", seq(|messages|, i requires 0 <= i < |messages| => Detail(messages[i], "invalid")))]
  }

  /** A text field passes `CharField(required=True)` exactly when it is not
      blank and holds no NUL character once stripped. */
  predicate PlainFieldAccepts(value: string) {
    !IsBlank(value) && NulChar !in Strip(value)
  }

  /** A text field passes exactly when `PlainFieldAccepts` holds, and
      keeps its stripped text. */
  lemma PlainFieldChecked(value: string)
    ensures CheckChars(value, false, None).Clean? <==> PlainFieldAccepts(value)
    ensures CheckChars(value, false, None).Clean? ==> CheckChars(value, false, None).value == Strip(value)
  {
    CheckCharsCases(value, false, None);
  }

  /** The address passes exactly when it passes as text, is well formed
      and, stripped, is the requesting user's address. */
  predicate EmailFieldAccepts(value: string, userEmail: string, emailValid: string -> bool) {
    PlainFieldAccepts(value) && emailValid(Strip(value)) && Strip(value) == userEmail
  }

  lemma EmailFieldChecked(value: string, userEmail: string, emailValid: string -> bool)
    ensures ChangeEmailField(value, userEmail, emailValid).Clean? <==> EmailFieldAccepts(value, userEmail, emailValid)
  {
    CheckEmailCases(value, emailValid);
  }

  /** The field pass reports nothing exactly when every field passes its
      own checks and the address is the requesting user's. */
  lemma ChangeFieldsClean(req: PasswordChange, userEmail: string, emailValid: string -> bool)
    ensures ChangeFieldErrors(req, userEmail, emailValid) == [] <==>
      && EmailFieldAccepts(req.email, userEmail, emailValid)
      && PlainFieldAccepts(req.oldPassword) && PlainFieldAccepts(req.newPassword)
      && PlainFieldAccepts(req.confirmPassword)
  {
    EmailFieldChecked(req.email, userEmail, emailValid);
    PlainFieldChecked(req.oldPassword);
    PlainFieldChecked(req.newPassword);
    PlainFieldChecked(req.confirmPassword);
  }

  /** The error dict names exactly the failing fields, in declaration
      order. */
  lemma ChangeFieldsNamed(req: PasswordChange, userEmail: string, emailValid: string -> bool)
    ensures FieldNames(ChangeFieldErrors(req, userEmail, emailValid)) ==
      (if EmailFieldAccepts(req.email, userEmail, emailValid) then [] else ["email"])
      + (if PlainFieldAccepts(req.oldPassword) then [] else ["old_password"])
      + (if PlainFieldAccepts(req.newPassword) then [] else ["new_password"])
      + (if PlainFieldAccepts(req.confirmPassword) then [] else ["confirm_password"])
  {
    var e := ErrorsOf("email", ChangeEmailField(req.email, userEmail, emailValid));
    var o := ErrorsOf("old_password", CheckChars(req.oldPassword, false, None));
    var n := ErrorsOf("new_password", CheckChars(req.newPassword, false, None));
    var c := ErrorsOf("confirm_password", CheckChars(req.confirmPassword, false, None));
    FieldNamesAppend(e + o + n, c);
    FieldNamesAppend(e + o, n);
    FieldNamesAppend(e, o);
    FieldNamesOf("email", ChangeEmailField(req.email, userEmail, emailValid));
    FieldNamesOf("old_password", CheckChars(req.oldPassword, false, None));
    FieldNamesOf("new_password", CheckChars(req.newPassword, false, None));
    FieldNamesOf("confirm_password", CheckChars(req.confirmPassword, false, None));
    EmailFieldChecked(req.email, userEmail, emailValid);
    PlainFieldChecked(req.oldPassword);
    PlainFieldChecked(req.newPassword);
    PlainFieldChecked(req.confirmPassword);
  }

  /** With no field error the address `validate` sees is the user's. */
  lemma CleanChangeEmail(req: PasswordChange, userEmail: string, emailValid: string -> bool)
    requires ChangeFieldErrors(req, userEmail, emailValid) == []
    ensures Strip(req.email) == userEmail
  {
    ChangeFieldsClean(req, userEmail, emailValid);
  }

  /** `PasswordChangeSerializer.validate` on the validated values, with
      the store afterwards. `checkPassword` is the user's `check_password`
      and `strengthErrors` the messages `validate_password` raised for the
      new password (empty when it passed). */
  function ChangeValidate(email: string, oldPassword: string, newPassword: string, confirmPassword: string,
                          checkPassword: string -> bool, strengthErrors: seq<string>,
                          entries: Entries, now: int): (ChangeVerdict, Entries)
  {
    if !VerEmail(entries, email, now) then (ChangeRejected(NonField([NotVerified])), entries)
    else if !checkPassword(oldPassword) then (ChangeRejected(NonField([WrongOldPassword])), entries)
    else if newPassword != confirmPassword then (ChangeRejected(NonField([NewPasswordMismatch])), entries)
    else if strengthErrors != [] then (ChangeRejected(NonField(TranslateAll(strengthErrors))), entries)
    else (ChangeAccepted(newPassword), Delete(entries, FlagKey(email)))
  }

  /** The field pass and then `validate` on the stripped values, as
      `is_valid` runs them. `userEmail` is the requesting user's address
      and `emailValid` Django's address check. */
  function PasswordChangeValidate(req: PasswordChange, userEmail: string, emailValid: string -> bool,
                                  checkPassword: string -> bool, strengthErrors: seq<string>,
                                  entries: Entries, now: int): (ChangeVerdict, Entries)
  {
    var errors := ChangeFieldErrors(req, userEmail, emailValid);
    if errors != [] then (ChangeRejected(errors), entries)
    else ChangeValidate(Strip(req.email), Strip(req.oldPassword), Strip(req.newPassword), Strip(req.confirmPassword),
                        checkPassword, strengthErrors, entries, now)
  }

  /** `validate` accepts exactly when the address is verified, the old
      password checks, the confirmation matches and the new password is
      strong enough; it accepts the new password it was given and only
      then consumes the flag of the address. */
  lemma ChangeValidateOutcome(email: string, oldPassword: string, newPassword: string, confirmPassword: string,
                              checkPassword: string -> bool, strengthErrors: seq<string>, entries: Entries, now: int)
    ensures var (verdict, after) := ChangeValidate(email, oldPassword, newPassword, confirmPassword, checkPassword, strengthErrors, entries, now);
      && (verdict.ChangeAccepted? <==>
            VerEmail(entries, email, now) && checkPassword(oldPassword) && newPassword == confirmPassword
            && strengthErrors == [])
      && (verdict.ChangeAccepted? ==> verdict.newPassword == newPassword)
      && after == (if verdict.ChangeAccepted? then Delete(entries, FlagKey(email)) else entries)
  {
  }

  /** With no field error, the outcome is that of `validate` on the
      stripped values, the address being the user's own. */
  lemma ValidateAfterFields(req: PasswordChange, userEmail: string, emailValid: string -> bool,
                            checkPassword: string -> bool, strengthErrors: seq<string>, entries: Entries, now: int)
    requires ChangeFieldErrors(req, userEmail, emailValid) == []
    ensures PasswordChangeValidate(req, userEmail, emailValid, checkPassword, strengthErrors, entries, now) ==
      ChangeValidate(userEmail, Strip(req.oldPassword), Strip(req.newPassword), Strip(req.confirmPassword),
                     checkPassword, strengthErrors, entries, now)
  {
    CleanChangeEmail(req, userEmail, emailValid);
  }

  /** A field error ends validation: `validate` does not run, so neither
      the store nor the other checks matter. */
  lemma FieldErrorsFirst(req: PasswordChange, userEmail: string, emailValid: string -> bool,
                         checkPassword: string -> bool, strengthErrors: seq<string>, entries: Entries, now: int)
    requires ChangeFieldErrors(req, userEmail, emailValid) != []
    ensures PasswordChangeValidate(req, userEmail, emailValid, checkPassword, strengthErrors, entries, now) ==
      (ChangeRejected(ChangeFieldErrors(req, userEmail, emailValid)), entries)
  {
  }

  /** A change is accepted exactly when the field pass reports nothing and
      every check of `validate` passes on the stripped values; the password
      it accepts is the stripped new one. Only then is the flag of the
      user's address consumed, otherwise the store is unchanged. */
  lemma PasswordChangeOutcome(req: PasswordChange, userEmail: string, emailValid: string -> bool,
                              checkPassword: string -> bool, strengthErrors: seq<string>, entries: Entries, now: int)
    ensures var (verdict, after) := PasswordChangeValidate(req, userEmail, emailValid, checkPassword, strengthErrors, entries, now);
      && (verdict.ChangeAccepted? <==>
            ChangeFieldErrors(req, userEmail, emailValid) == [] && VerEmail(entries, userEmail, now)
            && checkPassword(Strip(req.oldPassword)) && Strip(req.newPassword) == Strip(req.confirmPassword)
            && strengthErrors == [])
      && (verdict.ChangeAccepted? ==> verdict.newPassword == Strip(req.newPassword))
      && after == (if verdict.ChangeAccepted? then Delete(entries, FlagKey(userEmail)) else entries)
  {
    if ChangeFieldErrors(req, userEmail, emailValid) == [] {
      ValidateAfterFields(req, userEmail, emailValid, checkPassword, strengthErrors, entries, now);
      ChangeValidateOutcome(userEmail, Strip(req.oldPassword), Strip(req.newPassword), Strip(req.confirmPassword),
                            checkPassword, strengthErrors, entries, now);
    } else {
      FieldErrorsFirst(req, userEmail, emailValid, checkPassword, strengthErrors, entries, now);
    }
  }

  /** The checks of `validate` run in order: the first that fails is the
      one reported, under `non_field_errors`. */
  lemma ChangeValidateOrder(email: string, oldPassword: string, newPassword: string, confirmPassword: string,
                            checkPassword: string -> bool, strengthErrors: seq<string>, entries: Entries, now: int)
    ensures var verdict := ChangeValidate(email, oldPassword, newPassword, confirmPassword, checkPassword, strengthErrors, entries, now).0;
      && (!VerEmail(entries, email, now) ==> verdict == ChangeRejected(NonField([NotVerified])))
      && (verdict == ChangeRejected(NonField([WrongOldPassword])) ==> VerEmail(entries, email, now))
      && (verdict == ChangeRejected(NonField([NewPasswordMismatch])) ==>
            VerEmail(entries, email, now) && checkPassword(oldPassword))
      && (VerEmail(entries, email, now) && checkPassword(oldPassword) && newPassword == confirmPassword
          && strengthErrors != [] ==>
            verdict == ChangeRejected(NonField(TranslateAll(strengthErrors))))
  {
    assert NonField([WrongOldPassword]) != NonField([NotVerified]) by {
      assert NonField([WrongOldPassword])[0].details[0].message == WrongOldPassword;
    }
    assert NonField([NewPasswordMismatch]) != NonField([NotVerified]) by {
      assert NonField([NewPasswordMismatch])[0].details[0].message == NewPasswordMismatch;
    }
    assert NonField([NewPasswordMismatch]) != NonField([WrongOldPassword]) by {
      assert NonField([NewPasswordMismatch])[0].details[0].message == NewPasswordMismatch;
    }
  }

  /** The password an accepted change carries is the stripped new one. */
  lemma AcceptedPasswordStripped(req: PasswordChange, userEmail: string, emailValid: string -> bool,
                                 checkPassword: string -> bool, strengthErrors: seq<string>, entries: Entries, now: int)
    ensures var verdict := PasswordChangeValidate(req, userEmail, emailValid, checkPassword, strengthErrors, entries, now).0;
      verdict.ChangeAccepted? ==> verdict.newPassword == Strip(req.newPassword)
  {
    PasswordChangeOutcome(req, userEmail, emailValid, checkPassword, strengthErrors, entries, now);
  }

  /** With no field error, the checks of `validate` run in order on the
      stripped values: the first that fails is the one reported. */
  lemma PasswordChangeOrder(req: PasswordChange, userEmail: string, emailValid: string -> bool,
                            checkPassword: string -> bool, strengthErrors: seq<string>, entries: Entries, now: int)
    requires ChangeFieldErrors(req, userEmail, emailValid) == []
    ensures var verdict := PasswordChangeValidate(req, userEmail, emailValid, checkPassword, strengthErrors, entries, now).0;
      && (!VerEmail(entries, userEmail, now) ==> verdict == ChangeRejected(NonField([NotVerified])))
      && (verdict == ChangeRejected(NonField([WrongOldPassword])) ==> VerEmail(entries, userEmail, now))
      && (verdict == ChangeRejected(NonField([NewPasswordMismatch])) ==>
            VerEmail(entries, userEmail, now) && checkPassword(Strip(req.oldPassword)))
      && (VerEmail(entries, userEmail, now) && checkPassword(Strip(req.oldPassword))
          && Strip(req.newPassword) == Strip(req.confirmPassword) && strengthErrors != [] ==>
            verdict == ChangeRejected(NonField(TranslateAll(strengthErrors))))
  {
    ValidateAfterFields(req, userEmail, emailValid, checkPassword, strengthErrors, entries, now);
    ChangeValidateOrder(userEmail, Strip(req.oldPassword), Strip(req.newPassword), Strip(req.confirmPassword),
                        checkPassword, strengthErrors, entries, now);
  }

  /** `validate` over the shared store. */
  method ValidateChange(store: Store, email: string, oldPassword: string, newPassword: string, confirmPassword: string,
                        checkPassword: string -> bool, strengthErrors: seq<string>, now: int)
    returns (verdict: ChangeVerdict)
    modifies store
    ensures (verdict, store.entries) ==
      ChangeValidate(email, oldPassword, newPassword, confirmPassword, checkPassword, strengthErrors, old(store.entries), now)
  {
    var status := store.Fetch(FlagKey(email), now);
    if status.None? || status.value == "" || status.value != "true" {
      return ChangeRejected(NonField([NotVerified]));
    }
    if !checkPassword(oldPassword) {
      return ChangeRejected(NonField([WrongOldPassword]));
    }
    if newPassword != confirmPassword {
      return ChangeRejected(NonField([NewPasswordMismatch]));
    }
    if strengthErrors != [] {
      var translated := TranslateMessages(strengthErrors);
      assert translated == TranslateAll(strengthErrors);
      return ChangeRejected(NonField(translated));
    }
    store.Remove(FlagKey(email));
    verdict := ChangeAccepted(newPassword);
  }

  /** The serializer's `is_valid` over the shared store: the field pass,
      then `validate` on the validated values. */
  method ValidatePasswordChange(store: Store, req: PasswordChange, userEmail: string, emailValid: string -> bool,
                                checkPassword: string -> bool, strengthErrors: seq<string>, now: int)
    returns (verdict: ChangeVerdict)
    modifies store
    ensures (verdict, store.entries) ==
      PasswordChangeValidate(req, userEmail, emailValid, checkPassword, strengthErrors, old(store.entries), now)
  {
    var errors := ChangeFieldErrors(req, userEmail, emailValid);
    if errors != [] {
      return ChangeRejected(errors);
    }
    verdict := ValidateChange(store, Strip(req.email), Strip(req.oldPassword), Strip(req.newPassword),
                              Strip(req.confirmPassword), checkPassword, strengthErrors, now);
  }
}
