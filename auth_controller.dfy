/** The authentication pipeline of AuthController.java: key format, key
    owner, TOTP login (through WebAuth), role, and the role gate in front of
    the request callbacks. A callback is the code a controller runs for an
    admitted request, so it is a parameter here. */
module AuthController {
  import opened Common
  import opened UserTypes
  import opened DataStore
  import opened Caches
  import opened AuthBeans
  import opened WebAuthentication
  import WebAuth

  /** The role of a logged-in user: `Persons.isAdmin` wins over
      `Persons.isSuper`, and neither means NORMAL. */
  function RoleOf(db: Store, userId: int): (t: UserType)
    ensures t == Administrator <==> db.isAdmin(userId)
    ensures t == Superuser <==> !db.isAdmin(userId) && db.isSuper(userId)
    ensures t == Normal <==> !db.isAdmin(userId) && !db.isSuper(userId)
  {
    if db.isAdmin(userId) then Administrator
    else if db.isSuper(userId) then Superuser
    else Normal
  }

  /** The bean `authenticate` returns, given the caches before the call. */
  function AuthenticateResult(ipCache: map<int, string>, keyCache: map<int, Option<string>>,
                              counters: map<int, int>, ctx: Context, db: Store, lib: TotpLibrary,
                              key: string, totp: int, time: int, remoteAddr: string): AuthBean
  {
    if !db.isKey(key) then InvalidKeyFormatBean(key)
    else if db.keyUserId(key) == -1 then InvalidUserBean(key)
    else
      var userId := db.keyUserId(key);
      if !ctx.authEnabled
         || WebAuth.StrictAcceptsAsWritten(ipCache, keyCache, counters, db, lib, userId, totp,
                                           ctx.totpStep, time, remoteAddr)
      then NewSuccess(userId, key, RoleOf(db, userId))
      else NewWithKey(userId, key, InvalidTotp)
  }

  /** The status pipeline: a malformed key is INVALID_KEY_FORMAT, an unknown
      key INVALID_USER, and a known key SUCCESS or INVALID_TOTP for its owner;
      the key is always echoed. */
  lemma AuthenticateStatuses(ipCache: map<int, string>, keyCache: map<int, Option<string>>,
                             counters: map<int, int>, ctx: Context, db: Store, lib: TotpLibrary,
                             key: string, totp: int, time: int, remoteAddr: string)
    ensures var b := AuthenticateResult(ipCache, keyCache, counters, ctx, db, lib, key, totp, time, remoteAddr);
      && (b.status == InvalidKeyFormat <==> !db.isKey(key))
      && (b.status == InvalidUser <==> db.isKey(key) && db.keyUserId(key) == -1)
      && (b.status == Success || b.status == InvalidTotp <==> db.isKey(key) && db.keyUserId(key) != -1)
      && (b.status == Success || b.status == InvalidTotp ==> b.id == db.keyUserId(key))
      && (b.status == InvalidKeyFormat || b.status == InvalidUser ==> b.id == -1)
      && b.key == Some(key)
  {
  }

  /** A success carries the user's role; every other reply is NORMAL. */
  lemma AuthenticateRole(ipCache: map<int, string>, keyCache: map<int, Option<string>>,
                         counters: map<int, int>, ctx: Context, db: Store, lib: TotpLibrary,
                         key: string, totp: int, time: int, remoteAddr: string)
    ensures var b := AuthenticateResult(ipCache, keyCache, counters, ctx, db, lib, key, totp, time, remoteAddr);
      && (b.status == Success ==> b.userType == RoleOf(db, b.id))
      && (b.status != Success ==> b.userType == Normal)
  {
  }

  /** With "auth-enabled" unset every known key succeeds; with it set a
      success needs the owner's address to be cached already, because
      WebAuth's IP check refuses every address it has to look up. */
  lemma AuthenticateLogin(ipCache: map<int, string>, keyCache: map<int, Option<string>>,
                          counters: map<int, int>, ctx: Context, db: Store, lib: TotpLibrary,
                          key: string, totp: int, time: int, remoteAddr: string)
    ensures var b := AuthenticateResult(ipCache, keyCache, counters, ctx, db, lib, key, totp, time, remoteAddr);
      && (!ctx.authEnabled && db.isKey(key) && db.keyUserId(key) != -1 ==> b.status == Success)
      && (ctx.authEnabled && b.status == Success ==>
            WebAuth.CachedMatch(ipCache, db.keyUserId(key), remoteAddr)
            && UsableKey(CachedKey(keyCache, db, db.keyUserId(key))))
  {
  }

  /** What `authenticate` does to the login caches and which calls it
      makes: nothing for a malformed key; the owner lookup; then, for a known
      owner, WebAuth's `totpAuthUser` with the context's "totp-step". */
  function AuthenticateTrace(c: LoginCaches, ctx: Context, db: Store, lib: TotpLibrary, key: string, totp: int,
                             time: int, remoteAddr: string): (r: LoginOutcome)
    ensures r.ok <==> AuthenticateResult(c.ips, c.keys, c.counters, ctx, db, lib, key, totp, time, remoteAddr).status
                      == Success
    ensures !db.isKey(key) ==> r.caches == c && r.calls == []
    ensures db.isKey(key) ==> |r.calls| > 0 && r.calls[0] == UserIdQuery(key)
    ensures db.isKey(key) && db.keyUserId(key) == -1 ==> r.caches == c && r.calls == [UserIdQuery(key)]
  {
    if !db.isKey(key) then LoginOutcome(false, c, [])
    else
      var userId := db.keyUserId(key);
      if userId == -1 then LoginOutcome(false, c, [UserIdQuery(key)])
      else
        WebAuth.LoginAnswerAsWritten(c, db, lib, userId, totp, ctx.totpStep, time, remoteAddr);
        var t := WebAuth.TotpLogin(c, ctx, db, lib, userId, totp, ctx.totpStep, time, remoteAddr);
        t.(calls := [UserIdQuery(key)] + t.calls)
  }

  /** `authenticate(context, request, jdbcTemplate, key, totp)`, with `time`
      the clock reading and `remoteAddr` the request's address. */
  method Authenticate(cm: CacheManager, ctx: Context, db: Store, lib: TotpLibrary, key: string, totp: int,
                      time: int, remoteAddr: string) returns (bean: AuthBean)
    modifies cm`ipCache, cm`keyCache, cm`totpCounterCache, cm`calls
    ensures bean == AuthenticateResult(old(cm.ipCache), old(cm.keyCache), old(cm.totpCounterCache), ctx, db, lib,
                                       key, totp, time, remoteAddr)
    ensures var r := AuthenticateTrace(old(LoginCachesOf(cm)), ctx, db, lib, key, totp, time, remoteAddr);
            LoginCachesOf(cm) == r.caches && cm.calls == old(cm.calls) + r.calls
    ensures !db.isKey(key) ==> unchanged(cm)
  {
    if !db.isKey(key) {
      return InvalidKeyFormatBean(key);
    }
    cm.calls := cm.calls + [UserIdQuery(key)];
    var userId := db.keyUserId(key);
    if userId == -1 {
      return InvalidUserBean(key);
    }
    ghost var t := WebAuth.TotpLogin(LoginCachesOf(cm), ctx, db, lib, userId, totp, ctx.totpStep, time, remoteAddr);
    ConcatAssoc(old(cm.calls), [UserIdQuery(key)], t.calls);
    var auth := WebAuth.TotpAuthUser(cm, ctx, db, lib, userId, totp, ctx.totpStep, time, remoteAddr);
    if auth {
      var userType;
      if db.isAdmin(userId) {
        userType := Administrator;
      } else if db.isSuper(userId) {
        userType := Superuser;
      } else {
        userType := Normal;
      }
      bean := NewSuccess(userId, key, userType);
    } else {
      bean := NewWithKey(userId, key, InvalidTotp);
    }
  }

  /** The gate of the callback overloads: a success whose role is at least
      `minUserType`. */
  predicate Admits(bean: AuthBean, minUserType: UserType)
  {
    bean.status == Success && GeRank(minUserType, bean.userType)
  }

  /** The overloads without `minUserType` pass NORMAL, which admits every
      success; SUPERUSER admits only superusers. */
  lemma GateByRank(bean: AuthBean)
    ensures Admits(bean, Normal) <==> bean.status == Success
    ensures Admits(bean, Administrator) <==> bean.status == Success && bean.userType != Normal
    ensures Admits(bean, Superuser) <==> bean.status == Success && bean.userType == Superuser
  {
  }

  /** The list callback result, or the empty list for a refused request. */
  function GatedList<T>(bean: AuthBean, minUserType: UserType, callBack: AuthBean -> seq<T>): (r: seq<T>)
    ensures Admits(bean, minUserType) ==> r == callBack(bean)
    ensures !Admits(bean, minUserType) ==> r == []
  {
    if bean.status == Success && GeRank(minUserType, bean.userType) then callBack(bean) else []
  }

  /** The value callback result, or null for a refused request. */
  function GatedValue<T>(bean: AuthBean, minUserType: UserType, callBack: AuthBean -> Option<T>): (r: Option<T>)
    ensures Admits(bean, minUserType) ==> r == callBack(bean)
    ensures !Admits(bean, minUserType) ==> r == None
  {
    if bean.status == Success && GeRank(minUserType, bean.userType) then callBack(bean) else None
  }

  /** `authenticate(…, minUserType, AuthListCallBack)`. */
  method AuthenticateList<T>(cm: CacheManager, ctx: Context, db: Store, lib: TotpLibrary, key: string, totp: int,
                             time: int, remoteAddr: string, minUserType: UserType,
                             callBack: AuthBean -> seq<T>) returns (ret: seq<T>)
    modifies cm`ipCache, cm`keyCache, cm`totpCounterCache, cm`calls
    ensures var r := AuthenticateTrace(old(LoginCachesOf(cm)), ctx, db, lib, key, totp, time, remoteAddr);
            LoginCachesOf(cm) == r.caches && cm.calls == old(cm.calls) + r.calls
    ensures ret == GatedList(AuthenticateResult(old(cm.ipCache), old(cm.keyCache), old(cm.totpCounterCache),
                                                ctx, db, lib, key, totp, time, remoteAddr),
                             minUserType, callBack)
  {
    var auth := Authenticate(cm, ctx, db, lib, key, totp, time, remoteAddr);
    if auth.status == Success && GeRank(minUserType, auth.userType) {
      ret := callBack(auth);
    } else {
      ret := [];
    }
  }

  /** `authenticate(…, AuthListCallBack)`: the gate at NORMAL. */
  method AuthenticateListAnyRole<T>(cm: CacheManager, ctx: Context, db: Store, lib: TotpLibrary, key: string,
                                    totp: int, time: int, remoteAddr: string,
                                    callBack: AuthBean -> seq<T>) returns (ret: seq<T>)
    modifies cm`ipCache, cm`keyCache, cm`totpCounterCache, cm`calls
    ensures var r := AuthenticateTrace(old(LoginCachesOf(cm)), ctx, db, lib, key, totp, time, remoteAddr);
            LoginCachesOf(cm) == r.caches && cm.calls == old(cm.calls) + r.calls
    ensures var b := AuthenticateResult(old(cm.ipCache), old(cm.keyCache), old(cm.totpCounterCache),
                                        ctx, db, lib, key, totp, time, remoteAddr);
            ret == if b.status == Success then callBack(b) else []
  {
    ret := AuthenticateList(cm, ctx, db, lib, key, totp, time, remoteAddr, Normal, callBack);
  }

  /** `authenticate(…, minUserType, AuthCallBack)`. */
  method AuthenticateValue<T>(cm: CacheManager, ctx: Context, db: Store, lib: TotpLibrary, key: string, totp: int,
                              time: int, remoteAddr: string, minUserType: UserType,
                              callBack: AuthBean -> Option<T>) returns (ret: Option<T>)
    modifies cm`ipCache, cm`keyCache, cm`totpCounterCache, cm`calls
    ensures var r := AuthenticateTrace(old(LoginCachesOf(cm)), ctx, db, lib, key, totp, time, remoteAddr);
            LoginCachesOf(cm) == r.caches && cm.calls == old(cm.calls) + r.calls
    ensures ret == GatedValue(AuthenticateResult(old(cm.ipCache), old(cm.keyCache), old(cm.totpCounterCache),
                                                 ctx, db, lib, key, totp, time, remoteAddr),
                              minUserType, callBack)
  {
    var auth := Authenticate(cm, ctx, db, lib, key, totp, time, remoteAddr);
    if auth.status == Success && GeRank(minUserType, auth.userType) {
      ret := callBack(auth);
    } else {
      ret := None;
    }
  }

  /** `authenticate(…, AuthCallBack)`: the gate at NORMAL. */
  method AuthenticateValueAnyRole<T>(cm: CacheManager, ctx: Context, db: Store, lib: TotpLibrary, key: string,
                                     totp: int, time: int, remoteAddr: string,
                                     callBack: AuthBean -> Option<T>) returns (ret: Option<T>)
    modifies cm`ipCache, cm`keyCache, cm`totpCounterCache, cm`calls
    ensures var r := AuthenticateTrace(old(LoginCachesOf(cm)), ctx, db, lib, key, totp, time, remoteAddr);
            LoginCachesOf(cm) == r.caches && cm.calls == old(cm.calls) + r.calls
    ensures var b := AuthenticateResult(old(cm.ipCache), old(cm.keyCache), old(cm.totpCounterCache),
                                        ctx, db, lib, key, totp, time, remoteAddr);
            ret == if b.status == Success then callBack(b) else None
  {
    ret := AuthenticateValue(cm, ctx, db, lib, key, totp, time, remoteAddr, Normal, callBack);
  }

  /** `authString`: the value overload at NORMAL, with null read as "". */
  method AuthString(cm: CacheManager, ctx: Context, db: Store, lib: TotpLibrary, key: string, totp: int,
                    time: int, remoteAddr: string, callBack: AuthBean -> Option<string>) returns (ret: string)
    modifies cm`ipCache, cm`keyCache, cm`totpCounterCache, cm`calls
    ensures var r := AuthenticateTrace(old(LoginCachesOf(cm)), ctx, db, lib, key, totp, time, remoteAddr);
            LoginCachesOf(cm) == r.caches && cm.calls == old(cm.calls) + r.calls
    ensures var b := AuthenticateResult(old(cm.ipCache), old(cm.keyCache), old(cm.totpCounterCache),
                                        ctx, db, lib, key, totp, time, remoteAddr);
            ret == if b.status == Success && callBack(b).Some? then callBack(b).value else ""
  {
    var r := AuthenticateValueAnyRole(cm, ctx, db, lib, key, totp, time, remoteAddr, callBack);
    ret := if r.Some? then r.value else "";
  }

  /** `apiKey`: a malformed key gives [INVALID_KEY_FORMAT] without a lookup;
      a well-formed one gives VALID_KEY_FORMAT followed by VALID_USER or
      INVALID_USER for whether the key has an owner. */
  method ApiKey(cm: CacheManager, db: Store, key: string) returns (ret: seq<AuthBean>)
    modifies cm`calls
    ensures !db.isKey(key) ==> ret == [InvalidKeyFormatBean(key)] && cm.calls == old(cm.calls)
    ensures db.isKey(key) ==>
              ret == [ValidKeyFormatBean(key),
                      if db.keyUserId(key) != -1 then NewOfKey(key, ValidUser) else InvalidUserBean(key)]
              && cm.calls == old(cm.calls) + [UserIdQuery(key)]
    ensures forall i | 0 <= i < |ret| :: ret[i].id == -1 && ret[i].key == Some(key) && ret[i].userType == Normal
  {
    ret := [];
    if db.isKey(key) {
      ret := ret + [ValidKeyFormatBean(key)];
      cm.calls := cm.calls + [UserIdQuery(key)];
      var userId := db.keyUserId(key);
      if userId != -1 {
        ret := ret + [NewOfKey(key, ValidUser)];
      } else {
        ret := ret + [InvalidUserBean(key)];
      }
    } else {
      ret := ret + [InvalidKeyFormatBean(key)];
    }
  }
}
