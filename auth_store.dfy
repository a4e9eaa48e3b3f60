/** The client's auth store (store/auth.ts): the tokens mirrored between
    state and the browser's storage, the signed-in user, the guard in
    front of the email-code request, and the avatar URL. */
module AuthStore {
  import opened Base
  import Verification

  datatype UserInfo = UserInfo(id: int, username: string, name: string, email: string,
                               gender: int, isActive: bool, avatar: string)

  /** The browser's `localStorage`. */
  class LocalStorage {
    var items: map<string, string>

    constructor(items: map<string, string>)
      ensures this.items == items
    {
      this.items := items;
    }

    function GetItem(key: string): Option<string>
      reads this
    {
      if key in items then Some(items[key]) else None
    }

    method SetItem(key: string, value: string)
      modifies this
      ensures items == old(items)[key := value]
    {
      items := items[key := value];
    }
  }

  /** What `getEmailVerityCode` does: show a message, or call the
      email-code endpoint with the address and the `changePwd` flag. */
  datatype CodeRequest = ErrorToast(message: string) | WarningToast(message: string) | Send(email: string, changePwd: bool)

  /** The guard of `getEmailVerityCode`. */
  function CodeRequestFor(email: string, userInfo: Option<UserInfo>, changePwd: bool): CodeRequest {
    if email == [] then ErrorToast("请输入邮箱")
    else if userInfo.None? then ErrorToast("请先登录")
    else if email == userInfo.value.email && !changePwd then WarningToast("请勿使用已绑定的邮箱")
    else if email != userInfo.value.email && changePwd then WarningToast("该邮箱未绑定此账号")
    else Send(email, changePwd)
  }

  /** A request goes out exactly when the address is given, a user is
      signed in, and the address is a new one for sign-up changes or the
      bound one for password changes. */
  lemma CodeRequestGuard(email: string, userInfo: Option<UserInfo>, changePwd: bool)
    ensures CodeRequestFor(email, userInfo, changePwd).Send? <==>
      && email != []
      && userInfo.Some?
      && (!changePwd ==> email != userInfo.value.email)
      && (changePwd ==> email == userInfo.value.email)
    ensures CodeRequestFor(email, userInfo, changePwd).Send? ==>
      CodeRequestFor(email, userInfo, changePwd) == Send(email, changePwd)
  {
  }

  /** The query text the flag travels as. */
  function FlagText(b: bool): string {
    if b then "true" else "false"
  }

  /** Every request this client sends carries `changePwd` as "true" or
      "false", and the server reads either as truthy: the check that the
      address is not already taken never applies to them. */
  lemma ClientFlagAlwaysTruthy(email: string, userInfo: Option<UserInfo>, changePwd: bool)
    requires CodeRequestFor(email, userInfo, changePwd).Send?
    ensures Verification.Truthy(Some(FlagText(CodeRequestFor(email, userInfo, changePwd).changePwd)))
  {
  }

  class Auth {
    var isAuthenticated: bool
    var accessToken: string
    var refreshToken: string
    var userInfo: Option<UserInfo>
    const baseURL: string
    const storage: LocalStorage

    constructor(baseURL: string, storage: LocalStorage)
      ensures !isAuthenticated && accessToken == [] && refreshToken == [] && userInfo.None?
      ensures this.baseURL == baseURL && this.storage == storage
    {
      isAuthenticated := false;
      accessToken := "";
      refreshToken := "";
      userInfo := None;
      this.baseURL := baseURL;
      this.storage := storage;
    }

    /** `setUserInfo`: marks the store authenticated even for null. */
    method SetUserInfo(info: Option<UserInfo>)
      modifies this
      ensures userInfo == info && isAuthenticated
      ensures accessToken == old(accessToken) && refreshToken == old(refreshToken)
    {
      userInfo := info;
      isAuthenticated := true;
    }

    /** `setTokens`: both tokens written to storage, then read back into
      state, which therefore holds the given tokens. */
    method SetTokens(access: string, refresh: string)
      modifies this, storage
      ensures storage.items == old(storage.items)["access_token" := access]["refresh_token" := refresh]
      ensures accessToken == access && refreshToken == refresh && isAuthenticated
      ensures userInfo == old(userInfo)
    {
      storage.SetItem("access_token", access);
      storage.SetItem("refresh_token", refresh);
      accessToken := storage.GetItem("access_token").GetOr("");
      refreshToken := storage.GetItem("refresh_token").GetOr("");
      isAuthenticated := true;
    }

    /** `restoreTokens`: state changes only when both stored tokens are
      present and non-empty. */
    method RestoreTokens()
      modifies this
      ensures var a, r := storage.GetItem("access_token"), storage.GetItem("refresh_token");
        if a.Some? && a.value != [] && r.Some? && r.value != [] then
          accessToken == a.value && refreshToken == r.value && isAuthenticated
        else
          accessToken == old(accessToken) && refreshToken == old(refreshToken) && isAuthenticated == old(isAuthenticated)
      ensures userInfo == old(userInfo)
    {
      var a := storage.GetItem("access_token");
      var r := storage.GetItem("refresh_token");
      if a.Some? && a.value != [] && r.Some? && r.value != [] {
        accessToken := a.value;
        refreshToken := r.value;
        isAuthenticated := true;
      }
    }

    method GetEmailVerityCode(email: string, changePwd: bool) returns (r: CodeRequest)
      ensures r == CodeRequestFor(email, userInfo, changePwd)
    {
      if email == [] {
        return ErrorToast("请输入邮箱");
      }
      if userInfo.None? {
        return ErrorToast("请先登录");
      }
      if email == userInfo.value.email && !changePwd {
        return WarningToast("请勿使用已绑定的邮箱");
      }
      if email != userInfo.value.email && changePwd {
        return WarningToast("该邮箱未绑定此账号");
      }
      r := Send(email, changePwd);
    }

    /** `getAvatarURL`: the base URL followed by the avatar path; with no
      user the missing value is rendered as "undefined". */
    function AvatarURL(): (url: string)
      reads this
      ensures |url| >= |baseURL| && url[..|baseURL|] == baseURL
      ensures userInfo.Some? ==> url[|baseURL|..] == userInfo.value.avatar
    {
      baseURL + (if userInfo.Some? then userInfo.value.avatar else "undefined")
    }
  }
}
