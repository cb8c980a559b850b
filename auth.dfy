// AuthController: the client-IP header fallback, the login guard order and
// the password masking of returned users. Password hashing is a parameter.
module Auth {
  import opened Wrappers
  import opened Strings
  import opened FamilyTables

  const Failure: int := 500
  const DataNotFound: int := 1002
  const LoginRequired: int := 2000
  const LoginError: int := 2001
  const AccountDisabled: int := 2002

  /** The request headers getClientIp reads, and the peer address. */
  datatype Headers = Headers(
    xForwardedFor: Option<string>,
    xRealIp: Option<string>,
    proxyClientIp: Option<string>,
    wlProxyClientIp: Option<string>,
    httpClientIp: Option<string>,
    httpXForwardedFor: Option<string>,
    remoteAddr: Option<string>)

  /** A header value worth taking: non-empty and not "unknown" in any case. */
  predicate Present(v: Option<string>)
  {
    IsNotEmpty(v) && !EqualsIgnoreCase(v.value, "unknown")
  }

  /** A value the fallback chain replaces: blank or "unknown" in any case. */
  predicate Unusable(v: Option<string>)
  {
    IsBlank(v) || EqualsIgnoreCase(v.value, "unknown")
  }

  /** One link of the chain: keep the current value unless it is unusable. */
  function OrElse(current: Option<string>, next: Option<string>): Option<string>
  {
    if Unusable(current) then next else current
  }

  /** The text of X-Forwarded-For before its first comma, or all of it. */
  function FirstHop(xff: string): (r: string)
    ensures ',' !in r
    ensures r == xff || (|r| < |xff| && xff[|r|] == ',' && r == xff[..|r|])
  {
    var i := IndexOfFrom(xff, ",", 0);
    if i == -1 then
      assert forall j :: 0 <= j < |xff| ==> !OccursAt(xff, ",", j) && xff[j..j + 1] == [xff[j]];
      xff
    else
      assert forall j :: 0 <= j < i ==> !OccursAt(xff, ",", j) && xff[j..j + 1] == [xff[j]];
      assert xff[i..i + 1] == [xff[i]];
      xff[..i]
  }

  /** getClientIp, with its local rebound link by link as the source does. */
  function ClientIp(h: Headers): Option<string>
  {
    if Present(h.xForwardedFor) then Some(FirstHop(h.xForwardedFor.value))
    else if Present(h.xRealIp) then h.xRealIp
    else
      var v := OrElse(h.xRealIp, h.proxyClientIp);
      var v := OrElse(v, h.wlProxyClientIp);
      var v := OrElse(v, h.httpClientIp);
      var v := OrElse(v, h.httpXForwardedFor);
      OrElse(v, h.remoteAddr)
  }

  /** The first usable candidate, else the last resort. */
  function FirstUsable(candidates: seq<Option<string>>, lastResort: Option<string>): Option<string>
  {
    if |candidates| == 0 then lastResort
    else if !Unusable(candidates[0]) then candidates[0]
    else FirstUsable(candidates[1..], lastResort)
  }

  /** A value that is not present is unusable: an empty value counts as blank. */
  lemma NotPresentIsUnusable(v: Option<string>)
    ensures !Present(v) ==> Unusable(v)
  {
  }

  /**
   * X-Forwarded-For wins when present, X-Real-IP next; otherwise the first
   * usable proxy header in a fixed order, else the remote address.
   */
  lemma ClientIpRule(h: Headers)
    ensures Present(h.xForwardedFor) ==> ClientIp(h) == Some(FirstHop(h.xForwardedFor.value))
    ensures !Present(h.xForwardedFor) && Present(h.xRealIp) ==> ClientIp(h) == h.xRealIp
    ensures !Present(h.xForwardedFor) && !Present(h.xRealIp) ==>
      ClientIp(h) == FirstUsable([h.proxyClientIp, h.wlProxyClientIp, h.httpClientIp, h.httpXForwardedFor], h.remoteAddr)
  {
    if !Present(h.xForwardedFor) && !Present(h.xRealIp) {
      NotPresentIsUnusable(h.xRealIp);
      var cs := [h.proxyClientIp, h.wlProxyClientIp, h.httpClientIp, h.httpXForwardedFor];
      var ra := h.remoteAddr;
      assert cs[1..] == [h.wlProxyClientIp, h.httpClientIp, h.httpXForwardedFor];
      assert cs[1..][1..] == [h.httpClientIp, h.httpXForwardedFor];
      assert cs[1..][1..][1..] == [h.httpXForwardedFor];
      assert cs[1..][1..][1..][1..] == [];
      assert FirstUsable([h.httpXForwardedFor], ra) == OrElse(h.httpXForwardedFor, ra);
      assert FirstUsable(cs[1..][1..], ra) == if Unusable(h.httpClientIp) then OrElse(h.httpXForwardedFor, ra) else h.httpClientIp;
    }
  }

  /** A header-less request falls through to the peer address. */
  lemma NoHeadersGivesRemoteAddr(addr: string)
    ensures ClientIp(Headers(None, None, None, None, None, None, Some(addr))) == Some(addr)
  {
  }

  datatype User = User(
    id: int,
    username: Option<string>,
    password: Option<string>,
    nickname: Option<string>,
    phone: Option<string>,
    status: Option<int>,
    lastLoginTime: Option<int>,
    lastLoginIp: Option<string>)

  /** maskUserPassword. */
  function Masked(u: User): (r: User)
    ensures r.password.None? && r == u.(password := None)
  {
    u.(password := None)
  }

  /** The user table. */
  class UserTable {
    var users: seq<User>

    constructor (users: seq<User>)
      ensures this.users == users
    {
      this.users := users;
    }
  }

  /** UserService.getByPhone: null for a blank phone, else the row with that phone. */
  function ByPhone(users: seq<User>, phone: Option<string>): Option<nat>
  {
    if IsBlank(phone) then None else FirstIndex(users, (u: User) => u.phone == phone)
  }

  /** The result of login as a function of the table, for the lemmas below. */
  function LoginOutcome(users: seq<User>, phone: Option<string>, password: string,
                        checkpw: (string, Option<string>) -> bool): Result<User>
  {
    var at := ByPhone(users, phone);
    if at.None? then Err(Fault(LoginError, "手机号或密码错误"))
    else if users[at.value].status.None? then Err(Fault(Failure, "NullPointerException"))
    else if users[at.value].status != Some(1) then Err(Fault(AccountDisabled, "账户已被禁用"))
    else if !checkpw(password, users[at.value].password) then Err(Fault(LoginError, "手机号或密码错误"))
    else Ok(Masked(users[at.value]))
  }

  /**
   * login: an unknown phone and a wrong password give the same LOGIN_ERROR;
   * a disabled account is refused before the password is checked. On success
   * the last-login time and IP are recorded and the user is returned without
   * its password, as it was before that update.
   */
  method Login(table: UserTable, phone: Option<string>, password: string,
               checkpw: (string, Option<string>) -> bool, h: Headers, now: int)
    returns (r: Result<User>)
    modifies table
    ensures r == LoginOutcome(old(table.users), phone, password, checkpw)
    ensures r.Err? ==> table.users == old(table.users)
    ensures r.Ok? ==> var at := ByPhone(old(table.users), phone).value;
      table.users == old(table.users)[at := old(table.users)[at].(lastLoginTime := Some(now), lastLoginIp := ClientIp(h))]
  {
    var at := ByPhone(table.users, phone);
    if at.None? {
      return Err(Fault(LoginError, "手机号或密码错误"));
    }
    var u := table.users[at.value];
    if u.status.None? {
      return Err(Fault(Failure, "NullPointerException"));
    }
    if u.status != Some(1) {
      return Err(Fault(AccountDisabled, "账户已被禁用"));
    }
    if !checkpw(password, u.password) {
      return Err(Fault(LoginError, "手机号或密码错误"));
    }
    var ip := ClientIp(h);
    table.users := table.users[at.value := u.(lastLoginTime := Some(now), lastLoginIp := ip)];
    r := Ok(Masked(u));
  }

  /**
   * An unknown phone and a wrong password are indistinguishable; a disabled
   * account is reported whatever the password; a returned user has no password.
   */
  lemma LoginRule(users: seq<User>, phone: Option<string>, password: string,
                  checkpw: (string, Option<string>) -> bool)
    ensures var at := ByPhone(users, phone);
      at.Some? && users[at.value].status == Some(1) && !checkpw(password, users[at.value].password) ==>
        LoginOutcome(users, phone, password, checkpw) == LoginOutcome([], phone, password, checkpw)
    ensures var at := ByPhone(users, phone);
      at.Some? && users[at.value].status.Some? && users[at.value].status != Some(1) ==>
        forall pw :: LoginOutcome(users, phone, pw, checkpw) == Err(Fault(AccountDisabled, "账户已被禁用"))
    ensures LoginOutcome(users, phone, password, checkpw).Ok? ==>
      LoginOutcome(users, phone, password, checkpw).value.password.None?
      && (exists u ::
            u in users && u.phone == phone && u.status == Some(1) && LoginOutcome(users, phone, password, checkpw).value == Masked(u))
  {
    var at := ByPhone(users, phone);
    assert ByPhone([], phone).None?;
    if LoginOutcome(users, phone, password, checkpw).Ok? {
      assert users[at.value] in users;
    }
  }

  /** GET /me: login required, then the user row without its password. */
  function CurrentUser(users: seq<User>, loginId: Option<int>): (r: Result<User>)
    ensures r.Ok? ==> r.value.password.None? && loginId.Some? && exists u :: u in users && u.id == loginId.value && r.value == Masked(u)
    ensures loginId.None? <==> r == Err(Fault(LoginRequired, "请先登录"))
  {
    if loginId.None? then Err(Fault(LoginRequired, "请先登录"))
    else
      var at := FirstIndex(users, (u: User) => u.id == loginId.value);
      if at.None? then Err(Fault(DataNotFound, "用户不存在"))
      else
        assert users[at.value] in users;
        Ok(Masked(users[at.value]))
  }
}
