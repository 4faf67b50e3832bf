/** The authentication and authorisation decisions of WebAuthentication.java:
    the memoised role lookup, the per-(user, sample) and per-(user, file)
    visibility memos, the IP allow-list cache with its sticky "blocked"
    entry, the TOTP key cache and the same-counter TOTP shortcut. */
module WebAuthentication {
  import opened Common
  import opened UserTypes
  import opened DataStore
  import opened Caches
  import opened Groups

  /** The servlet attributes the decisions read: whether "auth-enabled" is
      set at all, and the "totp-step" value. */
  datatype Context = Context(authEnabled: bool, totpStep: int)

  // ---------------------------------------------------------------------
  // Roles

  /** The role the store gives a user (USER_TYPE_SQL decoded by `getFromId`). */
  function FreshUserType(db: Store, userId: int): UserType
  {
    GetFromId(db.userTypeId(userId))
  }

  /** What `getUserType` answers given the cache before the call. */
  function CachedUserType(cache: map<int, UserType>, db: Store, userId: int): UserType
  {
    if userId in cache then cache[userId] else FreshUserType(db, userId)
  }

  /** The collaborator calls `getUserType` makes: none on a hit. */
  function UserTypeCalls(cache: map<int, UserType>, userId: int): seq<Call>
  {
    if userId in cache then [] else [UserTypeQuery(userId)]
  }

  /** The role cache after `getUserType`: unchanged on a hit, the decoded
      role added on a miss. */
  function UserTypeCacheAfter(cache: map<int, UserType>, db: Store, userId: int): map<int, UserType>
  {
    if userId in cache then cache else cache[userId := FreshUserType(db, userId)]
  }

  /** The roles that may view everything. */
  predicate IsAdminOrSuper(t: UserType)
  {
    t == Administrator || t == Superuser
  }

  /** Being admin-or-super is having at least the ADMINISTRATOR rank. */
  lemma IsAdminOrSuperIsRank(t: UserType)
    ensures IsAdminOrSuper(t) <==> GeRank(Administrator, t)
  {
  }

  predicate UserTypesConsistent(cache: map<int, UserType>, db: Store)
  {
    forall u | u in cache :: cache[u] == FreshUserType(db, u)
  }

  /** `getUserType`: a hit returns the memoised role; a miss queries
      USER_TYPE_SQL (-1 for a missing row), decodes it and memoises it. */
  method GetUserType(cm: CacheManager, db: Store, userId: int) returns (t: UserType)
    modifies cm`userTypeCache, cm`calls
    ensures t == CachedUserType(old(cm.userTypeCache), db, userId)
    ensures cm.calls == old(cm.calls) + UserTypeCalls(old(cm.userTypeCache), userId)
    ensures cm.userTypeCache == UserTypeCacheAfter(old(cm.userTypeCache), db, userId)
    ensures old(UserTypesConsistent(cm.userTypeCache, db)) ==>
              UserTypesConsistent(cm.userTypeCache, db) && t == FreshUserType(db, userId)
  {
    if userId in cm.userTypeCache {
      t := cm.userTypeCache[userId];
      return;
    }
    var typeId := db.userTypeId(userId);
    cm.calls := cm.calls + [UserTypeQuery(userId)];
    t := GetFromId(typeId);
    cm.userTypeCache := cm.userTypeCache[userId := t];
  }

  /** `getIsAdminOrSuper`. */
  method GetIsAdminOrSuper(cm: CacheManager, db: Store, userId: int) returns (b: bool)
    modifies cm`userTypeCache, cm`calls
    ensures b <==> IsAdminOrSuper(CachedUserType(old(cm.userTypeCache), db, userId))
    ensures cm.calls == old(cm.calls) + UserTypeCalls(old(cm.userTypeCache), userId)
    ensures cm.userTypeCache == UserTypeCacheAfter(old(cm.userTypeCache), db, userId)
    ensures old(UserTypesConsistent(cm.userTypeCache, db)) ==>
              UserTypesConsistent(cm.userTypeCache, db) && (b <==> IsAdminOrSuper(FreshUserType(db, userId)))
  {
    var t := GetUserType(cm, db, userId);
    b := t == Administrator || t == Superuser;
  }

  // ---------------------------------------------------------------------
  // Sample and file visibility

  /** A non-privileged user may view a sample when they share a group. */
  function SharesGroup(db: Store, userId: int, sampleId: int): bool
  {
    UserInSampleGroupIds(FreshUserGroups(db, userId), FreshSampleGroups(db, sampleId))
  }

  /** The visibility decision the store implies for a sample. */
  function FreshCanViewSample(db: Store, userId: int, sampleId: int): bool
  {
    IsAdminOrSuper(FreshUserType(db, userId)) || SharesGroup(db, userId, sampleId)
  }

  /** Some sample among the first `n` of the list is viewable as the store
      decides. */
  predicate SomeViewable(db: Store, userId: int, sampleIds: seq<int>, n: nat)
    requires n <= |sampleIds|
  {
    exists j | 0 <= j < n :: FreshCanViewSample(db, userId, sampleIds[j])
  }

  /** A non-privileged user may view a file when they share a group with one
      of its samples. */
  function SharesGroupWithAny(db: Store, userId: int, sampleIds: seq<int>): bool
  {
    exists i | 0 <= i < |sampleIds| :: SharesGroup(db, userId, sampleIds[i])
  }

  /** The visibility decision the store implies for a virtual file. */
  function FreshCanViewFile(db: Store, userId: int, vfsId: int): bool
  {
    IsAdminOrSuper(FreshUserType(db, userId)) || SharesGroupWithAny(db, userId, db.vfsSamples(vfsId))
  }

  /** The per-user inner map, which the first lookup creates empty. */
  function ViewSetOf(cache: map<int, map<int, bool>>, userId: int): map<int, bool>
  {
    if userId in cache then cache[userId] else map[]
  }

  predicate SampleViewsConsistent(cache: map<int, map<int, bool>>, db: Store)
  {
    forall u, s | u in cache && s in cache[u] :: cache[u][s] == SharesGroup(db, u, s)
  }

  predicate FileViewsConsistent(cache: map<int, map<int, bool>>, db: Store)
  {
    forall u, f | u in cache && f in cache[u] :: cache[u][f] == SharesGroupWithAny(db, u, db.vfsSamples(f))
  }


  /** The four memos the visibility decisions read and fill: "user-type-cache",
      "sample-view-cache", "file-view-cache" and "user-groups-cache". */
  datatype ViewCaches = ViewCaches(types: map<int, UserType>, samples: map<int, map<int, bool>>,
                                   files: map<int, map<int, bool>>, groups: map<int, set<int>>)

  /** A visibility decision, the memos after it, and the collaborator calls
      it made, in order. */
  datatype ViewOutcome = ViewOutcome(answer: bool, caches: ViewCaches, calls: seq<Call>)

  function ViewCachesOf(cm: CacheManager): ViewCaches
    reads cm
  {
    ViewCaches(cm.userTypeCache, cm.sampleViewCache, cm.fileViewCache, cm.userGroupsCache)
  }

  /** Every visibility memo agrees with the store. */
  predicate ViewCachesConsistent(c: ViewCaches, db: Store)
  {
    && UserTypesConsistent(c.types, db)
    && GroupsConsistent(c.groups, db)
    && SampleViewsConsistent(c.samples, db)
    && FileViewsConsistent(c.files, db)
  }

  ghost predicate ViewsConsistent(cm: CacheManager, db: Store)
    reads cm
  {
    ViewCachesConsistent(ViewCachesOf(cm), db)
  }

  /** The memo part of the sample test: a memoised decision is replayed
      without a call; otherwise the group test runs and its answer is
      stored in the user's inner map. */
  function SampleLookup(c: ViewCaches, db: Store, userId: int, sampleId: int): (r: ViewOutcome)
    ensures r.caches.types == c.types && r.caches.files == c.files
    ensures sampleId in ViewSetOf(r.caches.samples, userId)
    ensures ViewSetOf(r.caches.samples, userId)[sampleId] == r.answer
  {
    var viewSet := ViewSetOf(c.samples, userId);
    if sampleId in viewSet then ViewOutcome(viewSet[sampleId], c, [])
    else
      var b := UserInSampleGroupIds(CachedUserGroups(c.groups, db, userId), FreshSampleGroups(db, sampleId));
      ViewOutcome(b, c.(samples := c.samples[userId := viewSet[sampleId := b]],
                        groups := UserGroupsCacheAfter(c.groups, db, userId)),
                  UserGroupsCalls(c.groups, userId) + [SampleGroupsQuery(sampleId)])
  }

  /** The whole sample test: the role lookup, then, without privilege, the
      memo part. */
  function SampleTest(c: ViewCaches, db: Store, userId: int, sampleId: int): (r: ViewOutcome)
    ensures r.caches.types == UserTypeCacheAfter(c.types, db, userId) && r.caches.files == c.files
  {
    var c' := c.(types := UserTypeCacheAfter(c.types, db, userId));
    var calls := UserTypeCalls(c.types, userId);
    if IsAdminOrSuper(CachedUserType(c.types, db, userId)) then ViewOutcome(true, c', calls)
    else
      var r := SampleLookup(c', db, userId, sampleId);
      r.(calls := calls + r.calls)
  }

  /** The list test over the first `n` ids: the sample test on each in
      turn, stopping at the first viewable one. */
  function AnySampleTest(c: ViewCaches, db: Store, userId: int, sampleIds: seq<int>, n: nat): (r: ViewOutcome)
    requires n <= |sampleIds|
    ensures r.caches.files == c.files
    ensures userId in c.types ==> r.caches.types == c.types
    decreases n, 1
  {
    if n == 0 then ViewOutcome(false, c, [])
    else AnySampleTestLast(c, db, userId, sampleIds, n)
  }

  /** The step of the list test that handles id `n - 1`: the outcome over
      the first `n - 1` ids, extended by the test of id `n - 1` when none
      of those was viewable. */
  function AnySampleTestLast(c: ViewCaches, db: Store, userId: int, sampleIds: seq<int>, n: nat): (r: ViewOutcome)
    requires 0 < n <= |sampleIds|
    ensures r.caches.files == c.files
    ensures userId in c.types ==> r.caches.types == c.types
    decreases n, 0
  {
    var r := AnySampleTest(c, db, userId, sampleIds, n - 1);
    if r.answer then r
    else
      var t := SampleTest(r.caches, db, userId, sampleIds[n - 1]);
      t.(calls := r.calls + t.calls)
  }

  /** The memo part of the file test: a memoised answer is replayed without
      a call; otherwise the file's samples are fetched, tested in turn, and
      the outcome is stored, true or false, in the user's inner map. */
  function FileLookup(c: ViewCaches, db: Store, userId: int, vfsId: int): (r: ViewOutcome)
  {
    var viewSet := ViewSetOf(c.files, userId);
    if vfsId in viewSet then ViewOutcome(viewSet[vfsId], c, [])
    else
      var t := AnySampleTest(c, db, userId, db.vfsSamples(vfsId), |db.vfsSamples(vfsId)|);
      ViewOutcome(t.answer, t.caches.(files := c.files[userId := viewSet[vfsId := t.answer]]),
                  [VfsSamplesQuery(vfsId)] + t.calls)
  }

  /** The whole file test: the role lookup, then, without privilege, the
      memo part. */
  function FileTest(c: ViewCaches, db: Store, userId: int, vfsId: int): (r: ViewOutcome)
    ensures r.caches.types == UserTypeCacheAfter(c.types, db, userId)
  {
    var c' := c.(types := UserTypeCacheAfter(c.types, db, userId));
    var calls := UserTypeCalls(c.types, userId);
    if IsAdminOrSuper(CachedUserType(c.types, db, userId)) then ViewOutcome(true, c', calls)
    else
      var r := FileLookup(c', db, userId, vfsId);
      r.(calls := calls + r.calls)
  }

  /** The sample memo works: testing the same (user, sample) again gives the
      same answer, makes no collaborator call and changes no memo. */
  lemma SampleTestMemoised(c: ViewCaches, db: Store, userId: int, sampleId: int)
    ensures var first := SampleTest(c, db, userId, sampleId);
            SampleTest(first.caches, db, userId, sampleId) == first.(calls := [])
  {
    var first := SampleTest(c, db, userId, sampleId);
    assert userId in first.caches.types;
    assert CachedUserType(first.caches.types, db, userId) == CachedUserType(c.types, db, userId);
  }

  /** The file memo works the same way: testing the same (user, file) again
      gives the same answer, makes no collaborator call and changes no memo. */
  lemma FileTestMemoised(c: ViewCaches, db: Store, userId: int, vfsId: int)
    ensures var first := FileTest(c, db, userId, vfsId);
            FileTest(first.caches, db, userId, vfsId) == first.(calls := [])
  {
    var first := FileTest(c, db, userId, vfsId);
    assert userId in first.caches.types;
    assert CachedUserType(first.caches.types, db, userId) == CachedUserType(c.types, db, userId);
  }

  /** With consistent memos the sample test answers what the store implies
      and leaves the memos consistent. */
  lemma SampleTestConsistent(c: ViewCaches, db: Store, userId: int, sampleId: int)
    requires ViewCachesConsistent(c, db)
    ensures var r := SampleTest(c, db, userId, sampleId);
            ViewCachesConsistent(r.caches, db) && r.answer == FreshCanViewSample(db, userId, sampleId)
  {
    var r := SampleTest(c, db, userId, sampleId);
    if !IsAdminOrSuper(CachedUserType(c.types, db, userId)) && sampleId !in ViewSetOf(c.samples, userId) {
      SampleViewsUpdate(c.samples, db, userId, sampleId, r.answer);
    }
  }

  /** The list test keeps consistent memos consistent. */
  lemma {:induction false} AnySampleTestKeepsConsistent(c: ViewCaches, db: Store, userId: int,
                                                        sampleIds: seq<int>, n: nat)
    requires n <= |sampleIds|
    requires ViewCachesConsistent(c, db)
    ensures ViewCachesConsistent(AnySampleTest(c, db, userId, sampleIds, n).caches, db)
    decreases n
  {
    if n > 0 {
      AnySampleTestKeepsConsistent(c, db, userId, sampleIds, n - 1);
      var r := AnySampleTest(c, db, userId, sampleIds, n - 1);
      if !r.answer {
        SampleTestConsistent(r.caches, db, userId, sampleIds[n - 1]);
      }
    }
  }

  /** A sample is viewable among the first n exactly when it is among the
      first n - 1 or is the n-th. */
  lemma SomeViewableStep(db: Store, userId: int, sampleIds: seq<int>, n: nat)
    requires 0 < n <= |sampleIds|
    ensures SomeViewable(db, userId, sampleIds, n)
            <==> SomeViewable(db, userId, sampleIds, n - 1) || FreshCanViewSample(db, userId, sampleIds[n - 1])
  {
    if SomeViewable(db, userId, sampleIds, n - 1) {
      var j :| 0 <= j < n - 1 && FreshCanViewSample(db, userId, sampleIds[j]);
      assert 0 <= j < n;
    }
  }

  /** With consistent memos, one more step of the list test answers true
      exactly when the earlier steps did or the n-th sample is viewable. */
  lemma AnySampleTestAnswerStep(c: ViewCaches, db: Store, userId: int, sampleIds: seq<int>, n: nat)
    requires 0 < n <= |sampleIds|
    requires ViewCachesConsistent(c, db)
    ensures AnySampleTest(c, db, userId, sampleIds, n).answer
            <==> AnySampleTest(c, db, userId, sampleIds, n - 1).answer || FreshCanViewSample(db, userId, sampleIds[n - 1])
  {
    var r := AnySampleTest(c, db, userId, sampleIds, n - 1);
    if !r.answer {
      AnySampleTestKeepsConsistent(c, db, userId, sampleIds, n - 1);
      SampleTestConsistent(r.caches, db, userId, sampleIds[n - 1]);
    }
  }

  /** With consistent memos the list test answers whether some sample of
      the list is viewable. */
  lemma {:induction false} AnySampleTestAnswer(c: ViewCaches, db: Store, userId: int, sampleIds: seq<int>,
                                               n: nat)
    requires n <= |sampleIds|
    requires ViewCachesConsistent(c, db)
    ensures AnySampleTest(c, db, userId, sampleIds, n).answer <==> SomeViewable(db, userId, sampleIds, n)
    decreases n
  {
    if n > 0 {
      AnySampleTestAnswer(c, db, userId, sampleIds, n - 1);
      AnySampleTestAnswerStep(c, db, userId, sampleIds, n);
      SomeViewableStep(db, userId, sampleIds, n);
    }
  }

  /** The two lemmas above over the whole list, for any starting memos. */
  lemma AnySampleTestConsistentIf(c: ViewCaches, db: Store, userId: int, sampleIds: seq<int>)
    ensures var r := AnySampleTest(c, db, userId, sampleIds, |sampleIds|);
            ViewCachesConsistent(c, db) ==>
              ViewCachesConsistent(r.caches, db) && (r.answer <==> SomeViewable(db, userId, sampleIds, |sampleIds|))
  {
    if ViewCachesConsistent(c, db) {
      AnySampleTestKeepsConsistent(c, db, userId, sampleIds, |sampleIds|);
      AnySampleTestAnswer(c, db, userId, sampleIds, |sampleIds|);
    }
  }

  /** Past a refusal the list test goes on with the sample test of the next
      id, on the memos the earlier tests left. */
  lemma AnySampleTestNext(c: ViewCaches, db: Store, userId: int, sampleIds: seq<int>, i: nat)
    requires i < |sampleIds|
    requires !AnySampleTest(c, db, userId, sampleIds, i).answer
    ensures var r := AnySampleTest(c, db, userId, sampleIds, i);
            var t := SampleTest(r.caches, db, userId, sampleIds[i]);
            AnySampleTest(c, db, userId, sampleIds, i + 1) == t.(calls := r.calls + t.calls)
  {
  }

  /** The list test stops at the first viewable sample: testing more of
      the list changes neither the answer, nor the memos, nor the calls. */
  lemma {:induction false} AnySampleTestStops(c: ViewCaches, db: Store, userId: int, sampleIds: seq<int>,
                                              k: nat, n: nat)
    requires k <= n <= |sampleIds|
    requires AnySampleTest(c, db, userId, sampleIds, k).answer
    ensures AnySampleTest(c, db, userId, sampleIds, n) == AnySampleTest(c, db, userId, sampleIds, k)
    decreases n
  {
    if n > k {
      AnySampleTestStops(c, db, userId, sampleIds, k, n - 1);
      assert AnySampleTest(c, db, userId, sampleIds, n - 1).answer;
    }
  }

  /** A privileged user's tests never record a visibility decision nor look
      up groups: only the role memo can change. */
  lemma PrivilegedTestsKeepViews(c: ViewCaches, db: Store, userId: int, sampleIds: seq<int>)
    requires IsAdminOrSuper(CachedUserType(c.types, db, userId))
    requires sampleIds != []
    ensures AnySampleTest(c, db, userId, sampleIds, |sampleIds|)
              == ViewOutcome(true, c.(types := UserTypeCacheAfter(c.types, db, userId)), UserTypeCalls(c.types, userId))
  {
    assert AnySampleTest(c, db, userId, sampleIds, 1).answer;
    AnySampleTestStops(c, db, userId, sampleIds, 1, |sampleIds|);
  }

  /** `canViewSample(connection, sampleId, userId)` (and the `Person`
      overload, which passes the person's id): privileged roles see every
      sample; otherwise the group test runs once per (user, sample) and its
      answer is replayed from "sample-view-cache". */
  method CanViewSample(cm: CacheManager, db: Store, sampleId: int, userId: int) returns (b: bool)
    modifies cm`userTypeCache, cm`sampleViewCache, cm`userGroupsCache, cm`calls
    ensures var r := SampleTest(old(ViewCachesOf(cm)), db, userId, sampleId);
            b == r.answer && ViewCachesOf(cm) == r.caches && cm.calls == old(cm.calls) + r.calls
    ensures old(ViewsConsistent(cm, db)) ==>
              ViewsConsistent(cm, db) && b == FreshCanViewSample(db, userId, sampleId)
  {
    ghost var start := ViewCachesOf(cm);
    ghost var calls0 := cm.calls;
    if ViewCachesConsistent(start, db) {
      SampleTestConsistent(start, db, userId, sampleId);
    }
    var admin := GetIsAdminOrSuper(cm, db, userId);
    ghost var c' := ViewCachesOf(cm);
    assert c' == start.(types := UserTypeCacheAfter(start.types, db, userId));
    if admin {
      return true;
    }
    ghost var r := SampleLookup(c', db, userId, sampleId);
    assert SampleTest(start, db, userId, sampleId) == r.(calls := UserTypeCalls(start.types, userId) + r.calls);
    ConcatAssoc(calls0, UserTypeCalls(start.types, userId), r.calls);
    b := SampleViewLookup(cm, db, sampleId, userId);
  }

  /** Recording a decision that agrees with the store keeps a visibility
      memo consistent. */
  lemma SampleViewsUpdate(cache: map<int, map<int, bool>>, db: Store, userId: int, sampleId: int, v: bool)
    requires SampleViewsConsistent(cache, db)
    requires v == SharesGroup(db, userId, sampleId)
    ensures SampleViewsConsistent(cache[userId := ViewSetOf(cache, userId)[sampleId := v]], db)
  {
  }

  /** The part of `canViewSample(connection, sampleId, userId)` after the
      privilege test: replay the memoised decision, or compute it with
      `Groups.userInSampleGroups` and store it in the user's inner map
      (created empty on the user's first lookup). */
  method SampleViewLookup(cm: CacheManager, db: Store, sampleId: int, userId: int) returns (b: bool)
    modifies cm`sampleViewCache, cm`userGroupsCache, cm`calls
    ensures var r := SampleLookup(old(ViewCachesOf(cm)), db, userId, sampleId);
            b == r.answer && ViewCachesOf(cm) == r.caches && cm.calls == old(cm.calls) + r.calls
    ensures old(GroupsConsistent(cm.userGroupsCache, db) && SampleViewsConsistent(cm.sampleViewCache, db)) ==>
              GroupsConsistent(cm.userGroupsCache, db) && SampleViewsConsistent(cm.sampleViewCache, db)
              && b == SharesGroup(db, userId, sampleId)
  {
    var viewSet := ViewSetOf(cm.sampleViewCache, userId);
    if sampleId in viewSet {
      b := viewSet[sampleId];
      return;
    }
    ghost var consistent := GroupsConsistent(cm.userGroupsCache, db) && SampleViewsConsistent(cm.sampleViewCache, db);
    ghost var before := cm.sampleViewCache;
    b := UserInSampleGroups(cm, db, userId, sampleId);
    assert cm.sampleViewCache == before;
    cm.sampleViewCache := cm.sampleViewCache[userId := viewSet[sampleId := b]];
    if consistent {
      SampleViewsUpdate(before, db, userId, sampleId, b);
    }
  }

  /** `canViewSample(connection, experimentId, sampleId, userId, isAdmin)`:
      the experiment id is unused (its test is commented out). */
  method CanViewSampleAs(cm: CacheManager, db: Store, experimentId: int, sampleId: int, userId: int,
                         isAdmin: bool) returns (b: bool)
    modifies cm`userTypeCache, cm`sampleViewCache, cm`userGroupsCache, cm`calls
    ensures isAdmin ==> b && unchanged(cm)
    ensures !isAdmin ==>
              var r := SampleTest(old(ViewCachesOf(cm)), db, userId, sampleId);
              b == r.answer && ViewCachesOf(cm) == r.caches && cm.calls == old(cm.calls) + r.calls
    ensures old(ViewsConsistent(cm, db)) ==>
              ViewsConsistent(cm, db) && b == (isAdmin || FreshCanViewSample(db, userId, sampleId))
  {
    if isAdmin {
      return true;
    }
    b := CanViewSample(cm, db, sampleId, userId);
  }

  /** Once the role is memoised, the sample test makes no role query. */
  lemma SampleTestAfterRole(c: ViewCaches, db: Store, userId: int, sampleId: int)
    requires !IsAdminOrSuper(CachedUserType(c.types, db, userId))
    ensures var c' := c.(types := UserTypeCacheAfter(c.types, db, userId));
            var r := SampleTest(c', db, userId, sampleId);
            SampleTest(c, db, userId, sampleId) == r.(calls := UserTypeCalls(c.types, userId) + r.calls)
  {
    var c' := c.(types := UserTypeCacheAfter(c.types, db, userId));
    assert UserTypeCalls(c'.types, userId) == [];
    assert CachedUserType(c'.types, db, userId) == CachedUserType(c.types, db, userId);
  }

  /** `canViewSample(connection, experimentId, sampleId, userId)`: the five
      argument overload with the user's own privilege, which behaves exactly
      as the sample test alone. */
  method CanViewExperimentSample(cm: CacheManager, db: Store, experimentId: int, sampleId: int,
                                 userId: int) returns (b: bool)
    modifies cm`userTypeCache, cm`sampleViewCache, cm`userGroupsCache, cm`calls
    ensures var r := SampleTest(old(ViewCachesOf(cm)), db, userId, sampleId);
            b == r.answer && ViewCachesOf(cm) == r.caches && cm.calls == old(cm.calls) + r.calls
    ensures old(ViewsConsistent(cm, db)) ==>
              ViewsConsistent(cm, db) && b == FreshCanViewSample(db, userId, sampleId)
  {
    ghost var c := ViewCachesOf(cm);
    ghost var calls0 := cm.calls;
    if ViewCachesConsistent(c, db) {
      SampleTestConsistent(c, db, userId, sampleId);
    }
    var isAdmin := GetIsAdminOrSuper(cm, db, userId);
    ghost var c' := ViewCachesOf(cm);
    assert c' == c.(types := UserTypeCacheAfter(c.types, db, userId));
    if isAdmin {
      b := CanViewSampleAs(cm, db, experimentId, sampleId, userId, isAdmin);
      return;
    }
    SampleTestAfterRole(c, db, userId, sampleId);
    ghost var r := SampleTest(c', db, userId, sampleId);
    ConcatAssoc(calls0, UserTypeCalls(c.types, userId), r.calls);
    b := CanViewSampleAs(cm, db, experimentId, sampleId, userId, isAdmin);
  }

  /** `canViewSample(connection, sampleIds, userId)`: true at the first
      viewable sample, false when none is. */
  method CanViewAnySample(cm: CacheManager, db: Store, sampleIds: seq<int>, userId: int) returns (b: bool)
    modifies cm`userTypeCache, cm`sampleViewCache, cm`userGroupsCache, cm`calls
    ensures var r := AnySampleTest(old(ViewCachesOf(cm)), db, userId, sampleIds, |sampleIds|);
            b == r.answer && ViewCachesOf(cm) == r.caches && cm.calls == old(cm.calls) + r.calls
    ensures old(ViewsConsistent(cm, db)) ==>
              ViewsConsistent(cm, db) && (b <==> SomeViewable(db, userId, sampleIds, |sampleIds|))
  {
    ghost var start := ViewCachesOf(cm);
    ghost var acc := ViewOutcome(false, start, []);
    AnySampleTestConsistentIf(start, db, userId, sampleIds);
    b := false;
    var i := 0;
    while i < |sampleIds| && !b
      invariant 0 <= i <= |sampleIds|
      invariant acc == AnySampleTest(start, db, userId, sampleIds, i)
      invariant b == acc.answer && ViewCachesOf(cm) == acc.caches && cm.calls == old(cm.calls) + acc.calls
    {
      b, acc := CanViewListEntry(cm, db, userId, sampleIds, i, start, acc, old(cm.calls));
      i := i + 1;
    }
    if b {
      AnySampleTestStops(start, db, userId, sampleIds, i, |sampleIds|);
    }
  }

  /** One round of the loop of `canViewAnySample`: the sample test on entry
      `i`, which extends the list test by one entry. */
  method CanViewListEntry(cm: CacheManager, db: Store, userId: int, sampleIds: seq<int>, i: nat,
                          ghost start: ViewCaches, ghost acc: ViewOutcome, ghost calls0: seq<Call>)
    returns (b: bool, ghost acc': ViewOutcome)
    requires i < |sampleIds|
    requires acc == AnySampleTest(start, db, userId, sampleIds, i) && !acc.answer
    requires ViewCachesOf(cm) == acc.caches && cm.calls == calls0 + acc.calls
    modifies cm`userTypeCache, cm`sampleViewCache, cm`userGroupsCache, cm`calls
    ensures acc' == AnySampleTest(start, db, userId, sampleIds, i + 1)
    ensures b == acc'.answer && ViewCachesOf(cm) == acc'.caches && cm.calls == calls0 + acc'.calls
  {
    ghost var t := SampleTest(acc.caches, db, userId, sampleIds[i]);
    AnySampleTestNext(start, db, userId, sampleIds, i);
    ConcatAssoc(calls0, acc.calls, t.calls);
    b := CanViewSample(cm, db, sampleIds[i], userId);
    acc' := t.(calls := acc.calls + t.calls);
  }

  /** `Vfs.getSamples`: the samples a file belongs to (not cached). */
  method VfsSamples(cm: CacheManager, db: Store, vfsId: int) returns (ids: seq<int>)
    modifies cm`calls
    ensures ids == db.vfsSamples(vfsId)
    ensures cm.calls == old(cm.calls) + [VfsSamplesQuery(vfsId)]
  {
    ids := db.vfsSamples(vfsId);
    cm.calls := cm.calls + [VfsSamplesQuery(vfsId)];
  }

  /** For a user without privilege, some sample of a list is viewable
      exactly when the user shares a group with one of them. */
  lemma AnyViewableWithoutPrivilege(db: Store, userId: int, sampleIds: seq<int>)
    requires !IsAdminOrSuper(FreshUserType(db, userId))
    ensures SomeViewable(db, userId, sampleIds, |sampleIds|)
              == SharesGroupWithAny(db, userId, sampleIds)
  {
  }

  /** With consistent memos and no privilege, the file memo part answers
      whether the user shares a group with one of the file's samples, and
      the memos stay consistent. Stated for any starting memos. */
  lemma FileLookupConsistentIf(c: ViewCaches, db: Store, userId: int, vfsId: int)
    ensures var r := FileLookup(c, db, userId, vfsId);
            ViewCachesConsistent(c, db) && !IsAdminOrSuper(FreshUserType(db, userId)) ==>
              ViewCachesConsistent(r.caches, db) && r.answer == SharesGroupWithAny(db, userId, db.vfsSamples(vfsId))
  {
    var ids := db.vfsSamples(vfsId);
    if ViewCachesConsistent(c, db) && !IsAdminOrSuper(FreshUserType(db, userId))
       && vfsId !in ViewSetOf(c.files, userId) {
      var t := AnySampleTest(c, db, userId, ids, |ids|);
      AnySampleTestConsistentIf(c, db, userId, ids);
      AnyViewableWithoutPrivilege(db, userId, ids);
      FileViewsUpdate(c.files, db, userId, vfsId, t.answer);
    }
  }

  /** With consistent memos the whole file test answers what the store
      implies and leaves the memos consistent. Stated for any starting memos. */
  lemma FileTestConsistentIf(c: ViewCaches, db: Store, userId: int, vfsId: int)
    ensures var r := FileTest(c, db, userId, vfsId);
            ViewCachesConsistent(c, db) ==>
              ViewCachesConsistent(r.caches, db) && r.answer == FreshCanViewFile(db, userId, vfsId)
  {
    if ViewCachesConsistent(c, db) {
      var c' := c.(types := UserTypeCacheAfter(c.types, db, userId));
      assert CachedUserType(c.types, db, userId) == FreshUserType(db, userId);
      assert UserTypesConsistent(c'.types, db);
      FileLookupConsistentIf(c', db, userId, vfsId);
    }
  }

  /** `getCanViewFile` (and its `Person` overload): privileged roles see
      every file; otherwise the answer over the file's samples is memoised
      per (user, file) in "file-view-cache", true or false. */
  method GetCanViewFile(cm: CacheManager, db: Store, vfsId: int, userId: int) returns (b: bool)
    modifies cm`userTypeCache, cm`sampleViewCache, cm`fileViewCache, cm`userGroupsCache, cm`calls
    ensures var r := FileTest(old(ViewCachesOf(cm)), db, userId, vfsId);
            b == r.answer && ViewCachesOf(cm) == r.caches && cm.calls == old(cm.calls) + r.calls
    ensures old(ViewsConsistent(cm, db)) ==>
              ViewsConsistent(cm, db) && b == FreshCanViewFile(db, userId, vfsId)
  {
    ghost var start := ViewCachesOf(cm);
    ghost var calls0 := cm.calls;
    FileTestConsistentIf(start, db, userId, vfsId);
    var admin := GetIsAdminOrSuper(cm, db, userId);
    ghost var c' := ViewCachesOf(cm);
    assert c' == start.(types := UserTypeCacheAfter(start.types, db, userId));
    if admin {
      return true;
    }
    ghost var r := FileLookup(c', db, userId, vfsId);
    assert FileTest(start, db, userId, vfsId) == r.(calls := UserTypeCalls(start.types, userId) + r.calls);
    ConcatAssoc(calls0, UserTypeCalls(start.types, userId), r.calls);
    b := FileViewLookup(cm, db, vfsId, userId);
  }

  lemma FileViewsUpdate(cache: map<int, map<int, bool>>, db: Store, userId: int, vfsId: int, v: bool)
    requires FileViewsConsistent(cache, db)
    requires v == SharesGroupWithAny(db, userId, db.vfsSamples(vfsId))
    ensures FileViewsConsistent(cache[userId := ViewSetOf(cache, userId)[vfsId := v]], db)
  {
  }

  /** The part of `getCanViewFile` after the privilege test: replay the
      memoised decision, or test the file's samples and store the outcome,
      true or false, in the user's inner map. */
  method FileViewLookup(cm: CacheManager, db: Store, vfsId: int, userId: int) returns (b: bool)
    modifies cm`userTypeCache, cm`sampleViewCache, cm`fileViewCache, cm`userGroupsCache, cm`calls
    ensures var r := FileLookup(old(ViewCachesOf(cm)), db, userId, vfsId);
            b == r.answer && ViewCachesOf(cm) == r.caches && cm.calls == old(cm.calls) + r.calls
    ensures old(ViewsConsistent(cm, db)) && !IsAdminOrSuper(FreshUserType(db, userId)) ==>
              ViewsConsistent(cm, db) && b == SharesGroupWithAny(db, userId, db.vfsSamples(vfsId))
  {
    var viewSet := ViewSetOf(cm.fileViewCache, userId);
    if vfsId in viewSet {
      b := viewSet[vfsId];
      return;
    }
    ghost var start := ViewCachesOf(cm);
    ghost var calls0 := cm.calls;
    FileLookupConsistentIf(start, db, userId, vfsId);
    var ids := VfsSamples(cm, db, vfsId);
    ghost var t := AnySampleTest(start, db, userId, ids, |ids|);
    ConcatAssoc(calls0, [VfsSamplesQuery(vfsId)], t.calls);
    b := CanViewAnySample(cm, db, ids, userId);
    cm.fileViewCache := cm.fileViewCache[userId := viewSet[vfsId := b]];
    assert ViewCachesOf(cm) == t.caches.(files := start.files[userId := viewSet[vfsId := t.answer]]);
  }

  // ---------------------------------------------------------------------
  // The IP allow-list cache

  /** The cached entry settles the question without a query: it is the
      blocked marker, or the very address being checked. */
  predicate IpCacheHit(cache: map<int, string>, userId: int, ipAddress: string)
  {
    userId in cache && (cache[userId] == Blocked || cache[userId] == ipAddress)
  }

  /** What `validateIPAddress` answers, given the cache and what the
      allow-list query would answer. */
  function IpValid(cache: map<int, string>, userId: int, ipAddress: string, allowed: bool): bool
  {
    if userId in cache && cache[userId] == Blocked then false
    else if userId in cache && cache[userId] == ipAddress then true
    else allowed
  }

  /** The cache after `validateIPAddress`: unchanged on a hit; otherwise the
      address when it was allowed and the blocked marker when not. */
  function IpCacheAfter(cache: map<int, string>, userId: int, ipAddress: string, allowed: bool): map<int, string>
  {
    if IpCacheHit(cache, userId, ipAddress) then cache
    else cache[userId := if allowed then ipAddress else Blocked]
  }

  /** Every cached address is either the blocked marker or one the store
      allows for that user. */
  predicate IpSound(cache: map<int, string>, db: Store)
  {
    forall u | u in cache :: cache[u] == Blocked || db.ipAllowed(u, cache[u])
  }

  /** An accepted address is one the store allows, and the cache stays sound. */
  lemma IpValidSound(cache: map<int, string>, db: Store, userId: int, ipAddress: string)
    requires IpSound(cache, db)
    ensures IpValid(cache, userId, ipAddress, db.ipAllowed(userId, ipAddress)) ==> db.ipAllowed(userId, ipAddress)
    ensures IpSound(IpCacheAfter(cache, userId, ipAddress, db.ipAllowed(userId, ipAddress)), db)
  {
  }

  /** A user who is not blocked is accepted from every allowed address. */
  lemma IpValidComplete(cache: map<int, string>, userId: int, ipAddress: string, allowed: bool)
    requires userId in cache ==> cache[userId] != Blocked
    requires allowed
    ensures IpValid(cache, userId, ipAddress, allowed)
  {
  }

  /** Checking a series of addresses for one user, the answers in order and
      the final cache. */
  function IpValidAll(cache: map<int, string>, db: Store, userId: int, ipAddresses: seq<string>)
    : (seq<bool>, map<int, string>)
    decreases |ipAddresses|
  {
    if ipAddresses == [] then ([], cache)
    else
      var ip := ipAddresses[0];
      var allowed := db.ipAllowed(userId, ip);
      var rest := IpValidAll(IpCacheAfter(cache, userId, ip, allowed), db, userId, ipAddresses[1..]);
      ([IpValid(cache, userId, ip, allowed)] + rest.0, rest.1)
  }

  /** A refused address blocks the user: every later check fails, whatever
      the address, and the cache keeps the marker, until it is cleared. */
  lemma {:induction false} BlockIsSticky(cache: map<int, string>, db: Store, userId: int,
                                         ipAddresses: seq<string>)
    requires userId in cache && cache[userId] == Blocked
    ensures IpValidAll(cache, db, userId, ipAddresses).1 == cache
    ensures forall i | 0 <= i < |IpValidAll(cache, db, userId, ipAddresses).0| ::
              !IpValidAll(cache, db, userId, ipAddresses).0[i]
    ensures |IpValidAll(cache, db, userId, ipAddresses).0| == |ipAddresses|
    decreases |ipAddresses|
  {
    if ipAddresses != [] {
      BlockIsSticky(cache, db, userId, ipAddresses[1..]);
    }
  }

  /** One refusal is enough: after checking a disallowed address the user is
      blocked, so a later allowed address is still refused. */
  lemma RefusalBlocks(cache: map<int, string>, db: Store, userId: int, bad: string, good: string)
    requires userId in cache ==> cache[userId] != bad
    requires !db.ipAllowed(userId, bad)
    ensures !IpValid(cache, userId, bad, false)
    ensures !IpValid(IpCacheAfter(cache, userId, bad, false), userId, good, db.ipAllowed(userId, good))
  {
  }

  /** `validateIPAddress` of WebAuthentication: the blocked marker refuses
      and a matching cached address accepts, both without a query; otherwise
      VALIDATE_IP_SQL decides and its outcome is cached. */
  method ValidateIpAddress(cm: CacheManager, db: Store, userId: int, ipAddress: string) returns (valid: bool)
    modifies cm`ipCache, cm`calls
    ensures valid == IpValid(old(cm.ipCache), userId, ipAddress, db.ipAllowed(userId, ipAddress))
    ensures cm.ipCache == IpCacheAfter(old(cm.ipCache), userId, ipAddress, db.ipAllowed(userId, ipAddress))
    ensures IpCacheHit(old(cm.ipCache), userId, ipAddress) ==> cm.calls == old(cm.calls)
    ensures !IpCacheHit(old(cm.ipCache), userId, ipAddress) ==>
              cm.calls == old(cm.calls) + [IpQuery(userId, ipAddress)]
    ensures old(IpSound(cm.ipCache, db)) ==>
              IpSound(cm.ipCache, db) && (valid ==> db.ipAllowed(userId, ipAddress))
  {
    if userId in cm.ipCache {
      var cachedIpAddress := cm.ipCache[userId];
      if cachedIpAddress == Blocked {
        return false;
      }
      if cachedIpAddress == ipAddress {
        return true;
      }
    }
    valid := db.ipAllowed(userId, ipAddress);
    cm.calls := cm.calls + [IpQuery(userId, ipAddress)];
    if valid {
      cm.ipCache := cm.ipCache[userId := ipAddress];
    } else {
      cm.ipCache := cm.ipCache[userId := Blocked];
    }
  }

  // ---------------------------------------------------------------------
  // The TOTP key cache

  /** What `getKey` answers given the cache before the call (null included). */
  function CachedKey(cache: map<int, Option<string>>, db: Store, userId: int): Option<string>
  {
    if userId in cache then cache[userId] else db.apiKey(userId)
  }

  predicate KeysConsistent(cache: map<int, Option<string>>, db: Store)
  {
    forall u | u in cache :: cache[u] == db.apiKey(u)
  }

  /** `getKey` (WebAuthentication.java and the identical WebAuth.java one):
      a hit returns the cached key, even a cached null; a miss queries
      KEY_SQL and caches its answer, null included. */
  method GetKey(cm: CacheManager, db: Store, userId: int) returns (key: Option<string>)
    modifies cm`keyCache, cm`calls
    ensures key == CachedKey(old(cm.keyCache), db, userId)
    ensures userId in old(cm.keyCache) ==> cm.keyCache == old(cm.keyCache) && cm.calls == old(cm.calls)
    ensures userId !in old(cm.keyCache) ==>
              cm.keyCache == old(cm.keyCache)[userId := key]
              && cm.calls == old(cm.calls) + [KeyQuery(userId)]
    ensures old(KeysConsistent(cm.keyCache, db)) ==>
              KeysConsistent(cm.keyCache, db) && key == db.apiKey(userId)
  {
    if userId in cm.keyCache {
      key := cm.keyCache[userId];
      return;
    }
    key := db.apiKey(userId);
    cm.calls := cm.calls + [KeyQuery(userId)];
    cm.keyCache := cm.keyCache[userId := key];
  }

  /** `TextUtils.isNullOrEmpty` fails. */
  predicate UsableKey(key: Option<string>)
  {
    key.Some? && key.value != ""
  }

  // ---------------------------------------------------------------------
  // TOTP

  /** `TOTP.getCounter(time, 0, step)`: the time step of `time`. */
  function Counter(lib: TotpLibrary, step: int, time: int): int
  {
    lib.getCounter(time, 0, step)
  }

  /** The counter last accepted for the user, -1 when none is cached. */
  function CachedCounter(cache: map<int, int>, userId: int): int
  {
    if userId in cache then cache[userId] else -1
  }

  /** The request falls in the counter frame already accepted, so the code
      is not checked. */
  predicate SameFrame(cache: map<int, int>, lib: TotpLibrary, userId: int, step: int, time: int)
  {
    Counter(lib, step, time) == CachedCounter(cache, userId)
  }

  function TotpAccepts(cache: map<int, int>, lib: TotpLibrary, userId: int, key: string, totp: int,
                       step: int, time: int): bool
  {
    SameFrame(cache, lib, userId, step, time) || lib.totpAuth(key, totp, time, 0, step)
  }

  function TotpCacheAfter(cache: map<int, int>, lib: TotpLibrary, userId: int, key: string, totp: int,
                          step: int, time: int): map<int, int>
  {
    if !SameFrame(cache, lib, userId, step, time) && lib.totpAuth(key, totp, time, 0, step)
    then cache[userId := Counter(lib, step, time)]
    else cache
  }

  /** `totpAuth(userId, key, totp, step, time, 0)`, with `time` the clock
      reading of the short overload: inside the cached counter frame the
      answer is true without consulting the library; otherwise the library
      checks the code, and only an accepted code stores the counter. */
  method TotpAuth(cm: CacheManager, lib: TotpLibrary, userId: int, key: string, totp: int,
                  step: int, time: int) returns (auth: bool)
    modifies cm`totpCounterCache, cm`calls
    ensures auth == TotpAccepts(old(cm.totpCounterCache), lib, userId, key, totp, step, time)
    ensures cm.totpCounterCache == TotpCacheAfter(old(cm.totpCounterCache), lib, userId, key, totp, step, time)
    ensures SameFrame(old(cm.totpCounterCache), lib, userId, step, time) ==>
              auth && cm.calls == old(cm.calls)
    ensures !SameFrame(old(cm.totpCounterCache), lib, userId, step, time) ==>
              cm.calls == old(cm.calls) + [TotpCheck(key, totp, time)]
  {
    var counter := lib.getCounter(time, 0, step);
    var cachedCounter := -1;
    if userId in cm.totpCounterCache {
      cachedCounter := cm.totpCounterCache[userId];
    }
    if counter == cachedCounter {
      return true;
    }
    auth := lib.totpAuth(key, totp, time, 0, step);
    cm.calls := cm.calls + [TotpCheck(key, totp, time)];
    if auth {
      cm.totpCounterCache := cm.totpCounterCache[userId := counter];
    }
  }

  /** After a code is accepted, every request in the same time step is
      accepted with any key and any code, without a check. */
  lemma TotpFrameReplay(cache: map<int, int>, lib: TotpLibrary, userId: int, key: string, totp: int,
                        step: int, time: int, key2: string, totp2: int, time2: int)
    requires TotpAccepts(cache, lib, userId, key, totp, step, time)
    requires Counter(lib, step, time2) == Counter(lib, step, time)
    ensures SameFrame(TotpCacheAfter(cache, lib, userId, key, totp, step, time), lib, userId, step, time2)
    ensures TotpAccepts(TotpCacheAfter(cache, lib, userId, key, totp, step, time), lib, userId, key2, totp2, step, time2)
  {
  }

  /** A rejected code changes no cached counter. */
  lemma TotpRejectionKeepsCache(cache: map<int, int>, lib: TotpLibrary, userId: int, key: string,
                                totp: int, step: int, time: int)
    requires !TotpAccepts(cache, lib, userId, key, totp, step, time)
    ensures TotpCacheAfter(cache, lib, userId, key, totp, step, time) == cache
  {
  }

  // ---------------------------------------------------------------------
  // The login decision

  /** What `strictTOTPAuthUser` answers given the caches before the call. */
  function StrictAccepts(ipCache: map<int, string>, keyCache: map<int, Option<string>>,
                         counters: map<int, int>, db: Store, lib: TotpLibrary, userId: int,
                         totp: int, step: int, time: int, remoteAddr: string): bool
  {
    && userId != -1
    && IpValid(ipCache, userId, remoteAddr, db.ipAllowed(userId, remoteAddr))
    && UsableKey(CachedKey(keyCache, db, userId))
    && TotpAccepts(counters, lib, userId, CachedKey(keyCache, db, userId).value, totp, step, time)
  }

  /** The caches the login path reads and fills. */
  datatype LoginCaches = LoginCaches(ips: map<int, string>, keys: map<int, Option<string>>, counters: map<int, int>)

  /** The login answer, the caches after it, and the collaborator calls in
      the order they were made. */
  datatype LoginOutcome = LoginOutcome(ok: bool, caches: LoginCaches, calls: seq<Call>)

  function LoginCachesOf(cm: CacheManager): LoginCaches
    reads cm
  {
    LoginCaches(cm.ipCache, cm.keyCache, cm.totpCounterCache)
  }

  /** The allow-list query the IP check makes: none on a cache hit. */
  function IpCalls(cache: map<int, string>, userId: int, ipAddress: string): seq<Call>
  {
    if IpCacheHit(cache, userId, ipAddress) then [] else [IpQuery(userId, ipAddress)]
  }

  /** The key cache after `getKey`: a miss stores the store's answer. */
  function KeyCacheAfter(cache: map<int, Option<string>>, db: Store, userId: int): map<int, Option<string>>
  {
    if userId in cache then cache else cache[userId := db.apiKey(userId)]
  }

  /** The key query `getKey` makes: none on a cache hit. */
  function KeyCalls(cache: map<int, Option<string>>, userId: int): seq<Call>
  {
    if userId in cache then [] else [KeyQuery(userId)]
  }

  /** The library check `totpAuth` makes: none inside the cached frame. */
  function TotpCalls(cache: map<int, int>, lib: TotpLibrary, userId: int, key: string, totp: int,
                     step: int, time: int): seq<Call>
  {
    if SameFrame(cache, lib, userId, step, time) then [] else [TotpCheck(key, totp, time)]
  }

  /** The strict login on the caches before the call, with `validIp` what
      the IP check answers for them: user -1 stops at once; otherwise the IP
      check runs and fills its cache; a refused address stops before the key
      is looked up; a null or empty key stops before the code is checked. */
  function Login(c: LoginCaches, db: Store, lib: TotpLibrary, userId: int, totp: int, step: int, time: int,
                 remoteAddr: string, validIp: bool): (r: LoginOutcome)
    ensures r.ok ==> userId != -1 && validIp && UsableKey(CachedKey(c.keys, db, userId))
    ensures userId == -1 || !validIp ==> r.caches.keys == c.keys && r.caches.counters == c.counters
    ensures !r.ok ==> r.caches.counters == c.counters
  {
    if userId == -1 then LoginOutcome(false, c, [])
    else
      var ips := IpCacheAfter(c.ips, userId, remoteAddr, db.ipAllowed(userId, remoteAddr));
      var ipCalls := IpCalls(c.ips, userId, remoteAddr);
      if !validIp then LoginOutcome(false, c.(ips := ips), ipCalls)
      else
        var key := CachedKey(c.keys, db, userId);
        var keys := KeyCacheAfter(c.keys, db, userId);
        var keyCalls := ipCalls + KeyCalls(c.keys, userId);
        if !UsableKey(key) then LoginOutcome(false, LoginCaches(ips, keys, c.counters), keyCalls)
        else
          LoginOutcome(TotpAccepts(c.counters, lib, userId, key.value, totp, step, time),
                       LoginCaches(ips, keys, TotpCacheAfter(c.counters, lib, userId, key.value, totp, step, time)),
                       keyCalls + TotpCalls(c.counters, lib, userId, key.value, totp, step, time))
  }

  /** The position of a login call in the strict order: the IP query, then
      the key query, then the code check. */
  function LoginStage(call: Call): int
  {
    match call
    case IpQuery(_, _) => 0
    case KeyQuery(_) => 1
    case TotpCheck(_, _, _) => 2
    case _ => 3
  }

  /** The login makes at most one call of each stage, in stage order: the
      key is looked up only after an accepted address, and the code only
      with a usable key, as the last call. */
  lemma LoginCallOrder(c: LoginCaches, db: Store, lib: TotpLibrary, userId: int, totp: int, step: int,
                       time: int, remoteAddr: string, validIp: bool)
    ensures var r := Login(c, db, lib, userId, totp, step, time, remoteAddr, validIp);
      && |r.calls| <= 3
      && (forall i, j | 0 <= i < j < |r.calls| :: LoginStage(r.calls[i]) < LoginStage(r.calls[j]))
      && (forall i | 0 <= i < |r.calls| :: LoginStage(r.calls[i]) < 3)
      && (forall i | 0 <= i < |r.calls| && r.calls[i].KeyQuery? ::
            validIp && userId !in c.keys && r.calls[i] == KeyQuery(userId))
      && (forall i | 0 <= i < |r.calls| && r.calls[i].TotpCheck? ::
            validIp && UsableKey(CachedKey(c.keys, db, userId)) && i == |r.calls| - 1
            && r.calls[i] == TotpCheck(CachedKey(c.keys, db, userId).value, totp, time))
  {
    var r := Login(c, db, lib, userId, totp, step, time, remoteAddr, validIp);
    if userId != -1 && validIp {
      var ipCalls := IpCalls(c.ips, userId, remoteAddr);
      var keyCalls := ipCalls + KeyCalls(c.keys, userId);
      assert |ipCalls| <= 1 && forall i | 0 <= i < |ipCalls| :: ipCalls[i] == IpQuery(userId, remoteAddr);
      assert forall i | |ipCalls| <= i < |keyCalls| :: keyCalls[i] == KeyQuery(userId);
    }
  }

  /** With WebAuthentication's IP check the login answers `StrictAccepts`. */
  lemma LoginAnswer(c: LoginCaches, db: Store, lib: TotpLibrary, userId: int, totp: int, step: int,
                    time: int, remoteAddr: string)
    ensures Login(c, db, lib, userId, totp, step, time, remoteAddr,
                  IpValid(c.ips, userId, remoteAddr, db.ipAllowed(userId, remoteAddr))).ok
            == StrictAccepts(c.ips, c.keys, c.counters, db, lib, userId, totp, step, time, remoteAddr)
  {
  }

  /** The login keeps sound IP and key caches sound, and an accepted login
      comes from an allowed address with a usable stored key. */
  lemma LoginSound(c: LoginCaches, db: Store, lib: TotpLibrary, userId: int, totp: int, step: int,
                   time: int, remoteAddr: string, validIp: bool)
    requires IpSound(c.ips, db) && KeysConsistent(c.keys, db)
    requires validIp ==> IpValid(c.ips, userId, remoteAddr, db.ipAllowed(userId, remoteAddr))
    ensures var r := Login(c, db, lib, userId, totp, step, time, remoteAddr, validIp);
      && IpSound(r.caches.ips, db) && KeysConsistent(r.caches.keys, db)
      && (r.ok ==> db.ipAllowed(userId, remoteAddr) && UsableKey(db.apiKey(userId)))
  {
    if userId != -1 {
      IpValidSound(c.ips, db, userId, remoteAddr);
    }
  }

  /** `strictTOTPAuthUser`: refuses user -1, then an address the IP check
      refuses (before the key is looked up), then a null or empty key, and
      only then asks `totpAuth`. */
  method StrictTotpAuthUser(cm: CacheManager, db: Store, lib: TotpLibrary, userId: int, totp: int,
                            step: int, time: int, remoteAddr: string) returns (ok: bool)
    modifies cm`ipCache, cm`keyCache, cm`totpCounterCache, cm`calls
    ensures var r := Login(old(LoginCachesOf(cm)), db, lib, userId, totp, step, time, remoteAddr,
                           IpValid(old(cm.ipCache), userId, remoteAddr, db.ipAllowed(userId, remoteAddr)));
            ok == r.ok && LoginCachesOf(cm) == r.caches && cm.calls == old(cm.calls) + r.calls
    ensures ok == StrictAccepts(old(cm.ipCache), old(cm.keyCache), old(cm.totpCounterCache), db, lib,
                                userId, totp, step, time, remoteAddr)
    ensures old(IpSound(cm.ipCache, db)) && old(KeysConsistent(cm.keyCache, db)) ==>
              IpSound(cm.ipCache, db) && KeysConsistent(cm.keyCache, db)
              && (ok ==> db.ipAllowed(userId, remoteAddr) && UsableKey(db.apiKey(userId)))
  {
    ghost var c := LoginCachesOf(cm);
    ghost var calls0 := cm.calls;
    ghost var v := IpValid(c.ips, userId, remoteAddr, db.ipAllowed(userId, remoteAddr));
    LoginAnswer(c, db, lib, userId, totp, step, time, remoteAddr);
    if IpSound(c.ips, db) && KeysConsistent(c.keys, db) {
      LoginSound(c, db, lib, userId, totp, step, time, remoteAddr, v);
    }
    if userId == -1 {
      return false;
    }
    ghost var ips := IpCacheAfter(c.ips, userId, remoteAddr, db.ipAllowed(userId, remoteAddr));
    ghost var ipCalls := IpCalls(c.ips, userId, remoteAddr);
    var validIp := ValidateIpAddress(cm, db, userId, remoteAddr);
    assert cm.ipCache == ips && cm.calls == calls0 + ipCalls;
    if !validIp {
      assert Login(c, db, lib, userId, totp, step, time, remoteAddr, v) == LoginOutcome(false, c.(ips := ips), ipCalls);
      return false;
    }
    ghost var keys := KeyCacheAfter(c.keys, db, userId);
    ghost var keyCalls := ipCalls + KeyCalls(c.keys, userId);
    ConcatAssoc(calls0, ipCalls, KeyCalls(c.keys, userId));
    var key := GetKey(cm, db, userId);
    assert cm.keyCache == keys && cm.calls == calls0 + keyCalls;
    if key.None? || key.value == "" {
      assert Login(c, db, lib, userId, totp, step, time, remoteAddr, v) == LoginOutcome(false, LoginCaches(ips, keys, c.counters), keyCalls);
      return false;
    }
    ConcatAssoc(calls0, keyCalls, TotpCalls(c.counters, lib, userId, key.value, totp, step, time));
    ok := TotpAuth(cm, lib, userId, key.value, totp, step, time);
  }

  /** `totpAuthUser`: with "auth-enabled" unset every user passes and nothing
      is looked up; otherwise the strict check decides. The short overload
      passes the context's "totp-step" as `step`. */
  method TotpAuthUser(cm: CacheManager, ctx: Context, db: Store, lib: TotpLibrary, userId: int, totp: int,
                      step: int, time: int, remoteAddr: string) returns (ok: bool)
    modifies cm`ipCache, cm`keyCache, cm`totpCounterCache, cm`calls
    ensures !ctx.authEnabled ==> ok && unchanged(cm)
    ensures ctx.authEnabled ==>
              var r := Login(old(LoginCachesOf(cm)), db, lib, userId, totp, step, time, remoteAddr,
                             IpValid(old(cm.ipCache), userId, remoteAddr, db.ipAllowed(userId, remoteAddr)));
              ok == r.ok && LoginCachesOf(cm) == r.caches && cm.calls == old(cm.calls) + r.calls
    ensures ctx.authEnabled ==>
              ok == StrictAccepts(old(cm.ipCache), old(cm.keyCache), old(cm.totpCounterCache), db, lib,
                                  userId, totp, step, time, remoteAddr)
    ensures old(IpSound(cm.ipCache, db)) && old(KeysConsistent(cm.keyCache, db)) ==>
              IpSound(cm.ipCache, db) && KeysConsistent(cm.keyCache, db)
              && (ok && ctx.authEnabled ==> db.ipAllowed(userId, remoteAddr) && UsableKey(db.apiKey(userId)))
  {
    if ctx.authEnabled {
      ok := StrictTotpAuthUser(cm, db, lib, userId, totp, step, time, remoteAddr);
    } else {
      ok := true;
    }
  }
}
