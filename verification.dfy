/** `EmailVerifyViewSet` (verification/views.py): `email_code` issues a
    code under `email_<e>` for 300 seconds and mails a link carrying it;
    `email_verify` checks the code from the link, marks the address as
    verified under `email_verified_<e>` for 30 minutes and deletes the
    code. The code generator (`secrets.token_urlsafe`), the mailer and the
    user table are parameters. */
module Verification {
  import opened Base
  import opened TtlStore

  const CodeTtl := 300
  const VerifiedTtl := 60 * 30

  function CodeKey(email: string): string { "email_" + email }
  function FlagKey(email: string): string { "email_verified_" + email }

  /** The settings `getattr` reads, each absent one taking its default. */
  datatype Settings = Settings(
    protocol: Option<string>,
    domain: Option<string>,
    resultUrl: Option<string>,
    fromEmail: Option<string>)

  /** A query parameter is truthy when present and non-empty: the view sees
      raw strings, so `changePwd=false` is truthy. */
  predicate Truthy(p: Option<string>) {
    p.Some? && p.value != ""
  }

  /** The link in the mail: protocol and domain are pasted together with
      no `://` in between. */
  function VerifyLink(settings: Settings, code: string, email: string): string {
    settings.protocol.GetOr("http") + settings.domain.GetOr("127.0.0.1:8000")
      + "/verify/email_verify/?code=" + code + "&email=" + email
  }

  /** The verification mail handed to the mailer. */
  datatype Mail = Mail(recipient: string, sender: string, link: string)

  /** `email_code`'s answer: the envelope's status and message, and the mail
      it tried to send, if any. */
  datatype CodeReply = CodeReply(status: int, message: string, mail: Option<Mail>)

  /** `email_code`: the reply and the store afterwards. `registered` is the
      set of addresses already on a user; `code` is the generated token;
      `mailError` is the text of the mailer's exception, if it raised. */
  function EmailCode(entries: Entries, email: Option<string>, changePwd: Option<string>,
                     registered: set<string>, code: string, settings: Settings,
                     mailError: Option<string>, now: int): (CodeReply, Entries)
  {
    if !Truthy(email) then
      (CodeReply(400, "请输入邮箱", None), entries)
    else if !Truthy(changePwd) && email.value in registered then
      (CodeReply(400, "该邮箱已被使用", None), entries)
    else
      var e := email.value;
      var after := SetEx(entries, CodeKey(e), CodeTtl, code, now);
      var mail := Mail(e, settings.fromEmail.GetOr("noreply@woodaichat.com"), VerifyLink(settings, code, e));
      match mailError
      case None => (CodeReply(200, "验证邮件发送成功", Some(mail)), after)
      case Some(err) => (CodeReply(500, "验证邮件发送失败：" + err, Some(mail)), after)
  }

  /** The front-end page `email_verify` redirects to, with its outcome. */
  function ResultUrl(settings: Settings, success: bool, message: string): string {
    settings.resultUrl.GetOr("/verify-result")
      + (if success then "?success=true&message=" else "?success=false&message=") + message
  }

  const InvalidLink := "无效的验证链接"
  const WrongCode := "验证码错误"
  const Verified := "邮箱验证成功"

  /** `email_verify`: the redirect target and the store afterwards. */
  function EmailVerify(entries: Entries, code: Option<string>, email: Option<string>,
                       settings: Settings, now: int): (string, Entries)
  {
    if !Truthy(code) || !Truthy(email) then
      (ResultUrl(settings, false, InvalidLink), entries)
    else
      var e := email.value;
      var stored := Get(entries, CodeKey(e), now);
      if !Truthy(stored) || stored.value != code.value then
        (ResultUrl(settings, false, WrongCode), entries)
      else
        var flagged := SetEx(entries, FlagKey(e), VerifiedTtl, "true", now);
        (ResultUrl(settings, true, Verified), Delete(flagged, CodeKey(e)))
  }

  /** The two kinds of key never coincide for one address, and each kind
      tells addresses apart. */
  lemma KeysDistinct(e: string, f: string)
    ensures CodeKey(e) != FlagKey(e)
    ensures CodeKey(e) == CodeKey(f) ==> e == f
    ensures FlagKey(e) == FlagKey(f) ==> e == f
  {
    if CodeKey(e) == CodeKey(f) {
      assert e == CodeKey(e)[6..] && f == CodeKey(f)[6..];
    }
    if FlagKey(e) == FlagKey(f) {
      assert e == FlagKey(e)[15..] && f == FlagKey(f)[15..];
    }
  }

  /** Across addresses the two kinds of key do collide: the code key of
      `verified_<e>` is the flag key of `<e>`, so requesting a code for
      `verified_<e>` overwrites the verified flag of `<e>`. */
  lemma KeysCollide(e: string)
    ensures CodeKey("verified_" + e) == FlagKey(e)
  {
  }

  /** A missing or empty address is refused with 400 before anything is
      written or mailed. */
  lemma EmailCodeMissing(entries: Entries, email: Option<string>, changePwd: Option<string>,
                         registered: set<string>, code: string, settings: Settings,
                         mailError: Option<string>, now: int)
    requires !Truthy(email)
    ensures EmailCode(entries, email, changePwd, registered, code, settings, mailError, now)
      == (CodeReply(400, "请输入邮箱", None), entries)
  {
  }

  /** Without `changePwd` an address already on a user is refused with 400,
      again before anything is written or mailed. */
  lemma EmailCodeTaken(entries: Entries, email: string, changePwd: Option<string>,
                       registered: set<string>, code: string, settings: Settings,
                       mailError: Option<string>, now: int)
    requires email != [] && email in registered && !Truthy(changePwd)
    ensures EmailCode(entries, Some(email), changePwd, registered, code, settings, mailError, now)
      == (CodeReply(400, "该邮箱已被使用", None), entries)
  {
  }

  /** Any non-empty `changePwd`, the text `false` included, skips the check
      against the user table: the outcome no longer depends on it. */
  lemma ChangePwdSkipsTakenCheck(entries: Entries, email: Option<string>, changePwd: Option<string>,
                                 registered: set<string>, others: set<string>, code: string,
                                 settings: Settings, mailError: Option<string>, now: int)
    requires Truthy(changePwd)
    ensures EmailCode(entries, email, changePwd, registered, code, settings, mailError, now)
      == EmailCode(entries, email, changePwd, others, code, settings, mailError, now)
    ensures Truthy(Some("false"))
  {
  }

  /** Past the two guards the code is stored under `email_<e>` (replacing any
      earlier one) whether or not the mail goes out: it reads back for 300
      seconds, the status is 200 or 500 by the mailer's outcome, and the
      mail carries the link with that code. */
  lemma EmailCodeIssues(entries: Entries, email: string, changePwd: Option<string>,
                        registered: set<string>, code: string, settings: Settings,
                        mailError: Option<string>, now: int, later: int)
    requires email != [] && (Truthy(changePwd) || email !in registered)
    ensures var (reply, after) := EmailCode(entries, Some(email), changePwd, registered, code, settings, mailError, now);
      && after == SetEx(entries, CodeKey(email), CodeTtl, code, now)
      && Get(after, CodeKey(email), later) == (if later < now + 300 then Some(code) else None)
      && (reply.status == 200 <==> mailError.None?)
      && (reply.status == 500 <==> mailError.Some?)
      && reply.mail == Some(Mail(email, settings.fromEmail.GetOr("noreply@woodaichat.com"), VerifyLink(settings, code, email)))
  {
    SetExGet(entries, CodeKey(email), CodeTtl, code, now, later, "");
  }

  /** With the default settings the link begins `http127.0.0.1:8000/`: the
      protocol is not followed by `://`. */
  lemma DefaultLink(code: string, email: string)
    ensures var link := VerifyLink(Settings(None, None, None, None), code, email);
      link[..19] == "http127.0.0.1:8000/" && link[4] != ':'
  {
    var tail := "/verify/email_verify/?code=" + code + "&email=" + email;
    var host := "http" + "127.0.0.1:8000";
    assert VerifyLink(Settings(None, None, None, None), code, email) == host + tail;
    assert (host + tail)[..19] == host + [tail[0]];
  }

  /** A link without a code or an address redirects to the failure page and
      writes nothing. */
  lemma EmailVerifyInvalid(entries: Entries, code: Option<string>, email: Option<string>,
                           settings: Settings, now: int)
    requires !Truthy(code) || !Truthy(email)
    ensures EmailVerify(entries, code, email, settings, now)
      == (ResultUrl(settings, false, InvalidLink), entries)
  {
  }

  /** `email_verify` succeeds exactly when the live code stored for the
      address equals the code in the link. On success the address is
      flagged "true" for 30 minutes and its code is gone; on failure the
      store is unchanged. */
  lemma EmailVerifyOutcome(entries: Entries, code: string, email: string, settings: Settings,
                           now: int, later: int)
    requires code != [] && email != []
    ensures var (url, after) := EmailVerify(entries, Some(code), Some(email), settings, now);
      && (url == ResultUrl(settings, true, Verified) <==> Get(entries, CodeKey(email), now) == Some(code))
      && (Get(entries, CodeKey(email), now) == Some(code) ==>
            && Get(after, FlagKey(email), later) == (if later < now + 1800 then Some("true") else None)
            && Get(after, CodeKey(email), later).None?)
      && (Get(entries, CodeKey(email), now) != Some(code) ==>
            url == ResultUrl(settings, false, WrongCode) && after == entries)
  {
    KeysDistinct(email, email);
    var flagged := SetEx(entries, FlagKey(email), VerifiedTtl, "true", now);
    SetExGet(entries, FlagKey(email), VerifiedTtl, "true", now, later, CodeKey(email));
    DeleteGet(flagged, CodeKey(email), later, FlagKey(email));
    assert ResultUrl(settings, true, Verified) != ResultUrl(settings, false, WrongCode) by {
      var base := settings.resultUrl.GetOr("/verify-result");
      assert ResultUrl(settings, true, Verified)[|base| + 9] == 't';
      assert ResultUrl(settings, false, WrongCode)[|base| + 9] == 'f';
    }
  }

  /** A code verifies at most once: after a successful verification the
      same link fails, at any later time, and changes nothing. */
  lemma VerifyOnce(entries: Entries, code: string, email: string, settings: Settings,
                   now: int, later: int)
    requires code != [] && email != []
    requires Get(entries, CodeKey(email), now) == Some(code)
    ensures var after := EmailVerify(entries, Some(code), Some(email), settings, now).1;
      EmailVerify(after, Some(code), Some(email), settings, later)
        == (ResultUrl(settings, false, WrongCode), after)
  {
    KeysDistinct(email, email);
    var flagged := SetEx(entries, FlagKey(email), VerifiedTtl, "true", now);
    DeleteGet(flagged, CodeKey(email), later, FlagKey(email));
  }

  /** The view methods, over the store they share. */
  class EmailVerifyView {
    const store: Store
    const settings: Settings

    constructor(store: Store, settings: Settings)
      ensures this.store == store && this.settings == settings
    {
      this.store := store;
      this.settings := settings;
    }

    method RequestCode(email: Option<string>, changePwd: Option<string>, registered: set<string>,
                       code: string, mailError: Option<string>, now: int) returns (reply: CodeReply)
      modifies store
      ensures (reply, store.entries) ==
        EmailCode(old(store.entries), email, changePwd, registered, code, settings, mailError, now)
    {
      if email.None? || email.value == "" {
        return CodeReply(400, "请输入邮箱", None);
      }
      var e := email.value;
      if (changePwd.None? || changePwd.value == "") && e in registered {
        return CodeReply(400, "该邮箱已被使用", None);
      }
      store.Put(CodeKey(e), CodeTtl, code, now);
      var mail := Mail(e, settings.fromEmail.GetOr("noreply@woodaichat.com"), VerifyLink(settings, code, e));
      if mailError.None? {
        reply := CodeReply(200, "验证邮件发送成功", Some(mail));
      } else {
        reply := CodeReply(500, "验证邮件发送失败：" + mailError.value, Some(mail));
      }
    }

    method VerifyCode(code: Option<string>, email: Option<string>, now: int) returns (url: string)
      modifies store
      ensures (url, store.entries) == EmailVerify(old(store.entries), code, email, settings, now)
    {
      if code.None? || code.value == "" || email.None? || email.value == "" {
        return ResultUrl(settings, false, InvalidLink);
      }
      var e := email.value;
      var stored := store.Fetch(CodeKey(e), now);
      if stored.None? || stored.value == "" || stored.value != code.value {
        return ResultUrl(settings, false, WrongCode);
      }
      store.Put(FlagKey(e), VerifiedTtl, "true", now);
      store.Remove(CodeKey(e));
      url := ResultUrl(settings, true, Verified);
    }
  }
}
