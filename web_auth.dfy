/** WebAuth.java: the JdbcTemplate twin of the WebAuthentication login path,
    sharing its caches. Its `getKey` and `totpAuth` are the same code as
    WebAuthentication's and are modelled by `WebAuthentication.GetKey` and
    `WebAuthentication.TotpAuth`; its IP check differs, because the outcome of
    the allow-list query is cached but never returned. */
module WebAuth {
  import opened Common
  import opened DataStore
  import opened Caches
  import opened WebAuthentication

  /** The one way WebAuth's `validateIPAddress` answers true: the cached
      entry for the user is the request address itself. */
  predicate CachedMatch(cache: map<int, string>, userId: int, ipAddress: string)
  {
    userId in cache && cache[userId] != Blocked && cache[userId] == ipAddress
  }

  /** `validateIPAddress` as written: the cache is updated exactly as
      WebAuthentication's check updates it, but `valid` stays false after
      the query, so a miss or a mismatch is always refused. */
  method ValidateIpAddress(cm: CacheManager, db: Store, userId: int, ipAddress: string) returns (valid: bool)
    modifies cm`ipCache, cm`calls
    ensures valid <==> CachedMatch(old(cm.ipCache), userId, ipAddress)
    ensures !IpCacheHit(old(cm.ipCache), userId, ipAddress) ==> !valid
    ensures cm.ipCache == IpCacheAfter(old(cm.ipCache), userId, ipAddress, db.ipAllowed(userId, ipAddress))
    ensures IpCacheHit(old(cm.ipCache), userId, ipAddress) ==> cm.calls == old(cm.calls)
    ensures !IpCacheHit(old(cm.ipCache), userId, ipAddress) ==>
              cm.calls == old(cm.calls) + [IpQuery(userId, ipAddress)]
    ensures old(IpSound(cm.ipCache, db)) ==>
              IpSound(cm.ipCache, db) && (valid ==> db.ipAllowed(userId, ipAddress))
  {
    if userId in cm.ipCache {
      var cachedIpAddress := cm.ipCache[userId];
      if cachedIpAddress == Blocked {
        return false;
      }
      if cachedIpAddress == ipAddress {
        return true;
      }
    }
    valid := false;
    var count := if db.ipAllowed(userId, ipAddress) then 1 else 0;
    cm.calls := cm.calls + [IpQuery(userId, ipAddress)];
    if count > 0 {
      cm.ipCache := cm.ipCache[userId := ipAddress];
    } else {
      cm.ipCache := cm.ipCache[userId := Blocked];
    }
  }

  /** WebAuth never accepts an address WebAuthentication would refuse. */
  lemma CachedMatchIsIpValid(cache: map<int, string>, userId: int, ipAddress: string, allowed: bool)
    requires CachedMatch(cache, userId, ipAddress)
    ensures IpValid(cache, userId, ipAddress, allowed)
  {
  }

  /** The two checks part ways on the first request from an allowed
      address: WebAuthentication accepts it, WebAuth refuses it, and only
      the repeated request is accepted, from the address cached by the
      refused one. */
  lemma FirstAllowedRequestRefused(cache: map<int, string>, userId: int, ipAddress: string)
    requires userId !in cache
    requires ipAddress != Blocked
    ensures IpValid(cache, userId, ipAddress, true)
    ensures !CachedMatch(cache, userId, ipAddress)
    ensures CachedMatch(IpCacheAfter(cache, userId, ipAddress, true), userId, ipAddress)
  {
  }

  /** What WebAuth's `strictTotpAuthUser` answers given the caches before
      the call. */
  function StrictAcceptsAsWritten(ipCache: map<int, string>, keyCache: map<int, Option<string>>,
                                  counters: map<int, int>, db: Store, lib: TotpLibrary, userId: int,
                                  totp: int, step: int, time: int, remoteAddr: string): bool
  {
    && userId != -1
    && CachedMatch(ipCache, userId, remoteAddr)
    && UsableKey(CachedKey(keyCache, db, userId))
    && TotpAccepts(counters, lib, userId, CachedKey(keyCache, db, userId).value, totp, step, time)
  }

  /** The WebAuth login is stricter than WebAuthentication's: whatever it
      accepts, WebAuthentication accepts too. */
  lemma StrictAsWrittenImpliesStrict(ipCache: map<int, string>, keyCache: map<int, Option<string>>,
                                     counters: map<int, int>, db: Store, lib: TotpLibrary, userId: int,
                                     totp: int, step: int, time: int, remoteAddr: string)
    requires StrictAcceptsAsWritten(ipCache, keyCache, counters, db, lib, userId, totp, step, time, remoteAddr)
    ensures StrictAccepts(ipCache, keyCache, counters, db, lib, userId, totp, step, time, remoteAddr)
  {
  }

  /** With WebAuth's IP check the login answers `StrictAcceptsAsWritten`. */
  lemma LoginAnswerAsWritten(c: LoginCaches, db: Store, lib: TotpLibrary, userId: int, totp: int, step: int,
                             time: int, remoteAddr: string)
    ensures Login(c, db, lib, userId, totp, step, time, remoteAddr, CachedMatch(c.ips, userId, remoteAddr)).ok
            == StrictAcceptsAsWritten(c.ips, c.keys, c.counters, db, lib, userId, totp, step, time, remoteAddr)
  {
  }

  /** WebAuth's login keeps sound IP and key caches sound, and an accepted
      login comes from an allowed address with a usable stored key. */
  lemma LoginAsWrittenSound(c: LoginCaches, db: Store, lib: TotpLibrary, userId: int, totp: int, step: int,
                            time: int, remoteAddr: string)
    requires IpSound(c.ips, db) && KeysConsistent(c.keys, db)
    ensures var r := Login(c, db, lib, userId, totp, step, time, remoteAddr, CachedMatch(c.ips, userId, remoteAddr));
      && IpSound(r.caches.ips, db) && KeysConsistent(r.caches.keys, db)
      && (r.ok ==> db.ipAllowed(userId, remoteAddr) && UsableKey(db.apiKey(userId)))
  {
    if CachedMatch(c.ips, userId, remoteAddr) {
      CachedMatchIsIpValid(c.ips, userId, remoteAddr, db.ipAllowed(userId, remoteAddr));
    }
    LoginSound(c, db, lib, userId, totp, step, time, remoteAddr, CachedMatch(c.ips, userId, remoteAddr));
  }

  /** `strictTotpAuthUser`: refuses user -1, then a refused address (before
      the key is looked up), then a null or empty key, and only then asks
      `totpAuth`. With the IP check above, a user is let in only from the
      address already cached for them. */
  method StrictTotpAuthUser(cm: CacheManager, db: Store, lib: TotpLibrary, userId: int, totp: int,
                            step: int, time: int, remoteAddr: string) returns (ok: bool)
    modifies cm`ipCache, cm`keyCache, cm`totpCounterCache, cm`calls
    ensures var r := Login(old(LoginCachesOf(cm)), db, lib, userId, totp, step, time, remoteAddr,
                           CachedMatch(old(cm.ipCache), userId, remoteAddr));
            ok == r.ok && LoginCachesOf(cm) == r.caches && cm.calls == old(cm.calls) + r.calls
    ensures ok == StrictAcceptsAsWritten(old(cm.ipCache), old(cm.keyCache), old(cm.totpCounterCache), db, lib,
                                         userId, totp, step, time, remoteAddr)
    ensures !CachedMatch(old(cm.ipCache), userId, remoteAddr) ==> !ok
    ensures old(IpSound(cm.ipCache, db)) && old(KeysConsistent(cm.keyCache, db)) ==>
              IpSound(cm.ipCache, db) && KeysConsistent(cm.keyCache, db)
              && (ok ==> db.ipAllowed(userId, remoteAddr) && UsableKey(db.apiKey(userId)))
  {
    ghost var c := LoginCachesOf(cm);
    ghost var calls0 := cm.calls;
    LoginAnswerAsWritten(c, db, lib, userId, totp, step, time, remoteAddr);
    if IpSound(c.ips, db) && KeysConsistent(c.keys, db) {
      LoginAsWrittenSound(c, db, lib, userId, totp, step, time, remoteAddr);
    }
    if userId == -1 {
      return false;
    }
    ghost var ips := IpCacheAfter(c.ips, userId, remoteAddr, db.ipAllowed(userId, remoteAddr));
    ghost var ipCalls := IpCalls(c.ips, userId, remoteAddr);
    var validIp := ValidateIpAddress(cm, db, userId, remoteAddr);
    assert cm.ipCache == ips && cm.calls == calls0 + ipCalls;
    if !validIp {
      return false;
    }
    ghost var keys := KeyCacheAfter(c.keys, db, userId);
    ghost var keyCalls := ipCalls + KeyCalls(c.keys, userId);
    ConcatAssoc(calls0, ipCalls, KeyCalls(c.keys, userId));
    var key := GetKey(cm, db, userId);
    assert cm.keyCache == keys && cm.calls == calls0 + keyCalls;
    if key.None? || key.value == "" {
      return false;
    }
    ConcatAssoc(calls0, keyCalls, TotpCalls(c.counters, lib, userId, key.value, totp, step, time));
    ok := TotpAuth(cm, lib, userId, key.value, totp, step, time);
  }

  /** `totpAuthUser` on the caches before the call: with "auth-enabled"
      unset it passes without a call; otherwise WebAuth's strict login. */
  function TotpLogin(c: LoginCaches, ctx: Context, db: Store, lib: TotpLibrary, userId: int, totp: int,
                     step: int, time: int, remoteAddr: string): (r: LoginOutcome)
    ensures !ctx.authEnabled ==> r.ok && r.caches == c && r.calls == []
    ensures r.ok && ctx.authEnabled ==> CachedMatch(c.ips, userId, remoteAddr)
  {
    if !ctx.authEnabled then LoginOutcome(true, c, [])
    else Login(c, db, lib, userId, totp, step, time, remoteAddr, CachedMatch(c.ips, userId, remoteAddr))
  }

  /** `totpAuthUser`: with "auth-enabled" unset every user passes and nothing
      is looked up; otherwise WebAuth's strict check decides. The short
      overload passes the context's "totp-step" as `step`. */
  method TotpAuthUser(cm: CacheManager, ctx: Context, db: Store, lib: TotpLibrary, userId: int, totp: int,
                      step: int, time: int, remoteAddr: string) returns (ok: bool)
    modifies cm`ipCache, cm`keyCache, cm`totpCounterCache, cm`calls
    ensures var r := TotpLogin(old(LoginCachesOf(cm)), ctx, db, lib, userId, totp, step, time, remoteAddr);
            ok == r.ok && LoginCachesOf(cm) == r.caches && cm.calls == old(cm.calls) + r.calls
    ensures !ctx.authEnabled ==> ok && unchanged(cm)
    ensures ctx.authEnabled ==>
              ok == StrictAcceptsAsWritten(old(cm.ipCache), old(cm.keyCache), old(cm.totpCounterCache), db, lib,
                                           userId, totp, step, time, remoteAddr)
    ensures old(IpSound(cm.ipCache, db)) && old(KeysConsistent(cm.keyCache, db)) ==>
              IpSound(cm.ipCache, db) && KeysConsistent(cm.keyCache, db)
              && (ok && ctx.authEnabled ==> db.ipAllowed(userId, remoteAddr) && UsableKey(db.apiKey(userId)))
  {
    if ctx.authEnabled {
      ok := StrictTotpAuthUser(cm, db, lib, userId, totp, step, time, remoteAddr);
    } else {
      ok := true;
    }
  }

  /** A character of the class `[a-z0-9]`. */
  predicate IsUserChar(c: char)
  {
    IsLower(c) || IsDigit(c)
  }

  /** `santizeUser`: the input when all of it matches `[a-z0-9]+`, otherwise
      the empty string. */
  function SantizeUser(user: string): (r: string)
    ensures r == user || r == ""
    ensures r != "" <==> |user| > 0 && forall i | 0 <= i < |user| :: IsUserChar(user[i])
    ensures forall i | 0 <= i < |r| :: IsUserChar(r[i])
  {
    if MatchesPlus(user, IsUserChar) then user else ""
  }

  /** Sanitising twice is sanitising once. */
  lemma SantizeUserIdempotent(user: string)
    ensures SantizeUser(SantizeUser(user)) == SantizeUser(user)
  {
  }
}
