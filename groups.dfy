/** Group membership of users and samples (Groups.java). A user's group ids
    are memoised in "user-groups-cache"; a sample's are queried every time. */
module Groups {
  import opened Common
  import opened DataStore
  import opened Caches
  import Database

  /** The group ids the store holds for a user (`Database.getIdsSet` over
      GROUP_IDS_SQL, so never null). */
  function FreshUserGroups(db: Store, userId: int): set<int>
  {
    Database.IdSetOrEmpty(db.userGroupRows(userId))
  }

  /** The group ids the store holds for a sample (SAMPLE_GROUPS_SQL). */
  function FreshSampleGroups(db: Store, sampleId: int): set<int>
  {
    Database.IdSetOrEmpty(db.sampleGroupRows(sampleId))
  }

  /** What `userGroups` answers given the cache contents before the call. */
  function CachedUserGroups(cache: map<int, set<int>>, db: Store, userId: int): set<int>
  {
    if userId in cache then cache[userId] else FreshUserGroups(db, userId)
  }

  /** The collaborator calls `userGroups` makes: none on a hit. */
  function UserGroupsCalls(cache: map<int, set<int>>, userId: int): seq<Call>
  {
    if userId in cache then [] else [UserGroupsQuery(userId)]
  }

  /** The cache after `userGroups`: unchanged on a hit, the queried ids
      added on a miss. */
  function UserGroupsCacheAfter(cache: map<int, set<int>>, db: Store, userId: int): map<int, set<int>>
  {
    if userId in cache then cache else cache[userId := FreshUserGroups(db, userId)]
  }

  /** Every cached group set is the one the store holds: the cache is a pure
      memo of the store. */
  predicate GroupsConsistent(cache: map<int, set<int>>, db: Store)
  {
    forall u | u in cache :: cache[u] == FreshUserGroups(db, u)
  }

  /** `userGroups`: a hit returns the cached collection without a query; a
      miss queries GROUP_IDS_SQL and stores the answer under the user id. */
  method UserGroups(cm: CacheManager, db: Store, userId: int) returns (ids: set<int>)
    modifies cm`userGroupsCache, cm`calls
    ensures ids == CachedUserGroups(old(cm.userGroupsCache), db, userId)
    ensures cm.calls == old(cm.calls) + UserGroupsCalls(old(cm.userGroupsCache), userId)
    ensures cm.userGroupsCache == UserGroupsCacheAfter(old(cm.userGroupsCache), db, userId)
    ensures old(GroupsConsistent(cm.userGroupsCache, db)) ==> GroupsConsistent(cm.userGroupsCache, db) && ids == FreshUserGroups(db, userId)
  {
    if userId in cm.userGroupsCache {
      ids := cm.userGroupsCache[userId];
      return;
    }
    ids := FreshUserGroups(db, userId);
    cm.calls := cm.calls + [UserGroupsQuery(userId)];
    cm.userGroupsCache := cm.userGroupsCache[userId := ids];
  }

  /** `sampleGroups`: not cached, so every call queries the store. */
  method SampleGroups(cm: CacheManager, db: Store, sampleId: int) returns (ids: set<int>)
    modifies cm`calls
    ensures ids == FreshSampleGroups(db, sampleId)
    ensures cm.calls == old(cm.calls) + [SampleGroupsQuery(sampleId)]
  {
    ids := FreshSampleGroups(db, sampleId);
    cm.calls := cm.calls + [SampleGroupsQuery(sampleId)];
  }

  /** The collection overload of `userInSampleGroups`: some group of the user
      is also a group of the sample. */
  function UserInSampleGroupIds(userGroupIds: set<int>, sampleGroupIds: set<int>): (b: bool)
    ensures b <==> exists g :: g in userGroupIds && g in sampleGroupIds
  {
    var common := userGroupIds * sampleGroupIds;
    assert forall g :: g in userGroupIds && g in sampleGroupIds ==> g in common;
    if common == {} then false
    else
      IntersectionWitness(userGroupIds, sampleGroupIds);
      true
  }

  /** `userInSampleGroups(connection, userId, sampleId)`: the collection
      overload applied to the user's (cached) and the sample's (queried)
      group ids. */
  method UserInSampleGroups(cm: CacheManager, db: Store, userId: int, sampleId: int)
    returns (b: bool)
    modifies cm`userGroupsCache, cm`calls
    ensures b == UserInSampleGroupIds(CachedUserGroups(old(cm.userGroupsCache), db, userId),
                                      FreshSampleGroups(db, sampleId))
    ensures cm.calls
              == old(cm.calls) + UserGroupsCalls(old(cm.userGroupsCache), userId) + [SampleGroupsQuery(sampleId)]
    ensures cm.userGroupsCache == UserGroupsCacheAfter(old(cm.userGroupsCache), db, userId)
    ensures old(GroupsConsistent(cm.userGroupsCache, db)) ==>
              GroupsConsistent(cm.userGroupsCache, db)
              && b == UserInSampleGroupIds(FreshUserGroups(db, userId), FreshSampleGroups(db, sampleId))
  {
    var userGroupIds := UserGroups(cm, db, userId);
    var sampleGroupIds := SampleGroups(cm, db, sampleId);
    b := UserInSampleGroupIds(userGroupIds, sampleGroupIds);
  }

  /** `sampleIsInGroups`: the SAMPLE_GROUPS_COUNT_SQL count is positive. */
  function SampleIsInGroups(db: Store, sampleId: int, groupIds: set<int>): (b: bool)
    ensures b <==> db.sampleGroupsCount(sampleId, groupIds) > 0
  {
    db.sampleGroupsCount(sampleId, groupIds) > 0
  }

  /** `sampleIsInGroup`: the SAMPLE_GROUP_COUNT_SQL count is positive. */
  function SampleIsInGroup(db: Store, sampleId: int, groupId: int): (b: bool)
    ensures b <==> db.sampleGroupCount(sampleId, groupId) > 0
  {
    db.sampleGroupCount(sampleId, groupId) > 0
  }

  /** When the count query counts the sample's groups among those asked for,
      the count-based test and the set-based test agree. */
  lemma SampleIsInGroupsAgrees(db: Store, sampleId: int, groupIds: set<int>)
    requires db.sampleGroupsCount(sampleId, groupIds) == |FreshSampleGroups(db, sampleId) * groupIds|
    ensures SampleIsInGroups(db, sampleId, groupIds)
              == UserInSampleGroupIds(groupIds, FreshSampleGroups(db, sampleId))
  {
    var common := FreshSampleGroups(db, sampleId) * groupIds;
    if common != {} {
      IntersectionWitness(FreshSampleGroups(db, sampleId), groupIds);
    }
  }

  /** A single-group test is the many-group test on a singleton. */
  lemma SampleIsInGroupAgrees(db: Store, sampleId: int, groupId: int)
    requires db.sampleGroupCount(sampleId, groupId) == (if groupId in FreshSampleGroups(db, sampleId) then 1 else 0)
    ensures SampleIsInGroup(db, sampleId, groupId) <==> groupId in FreshSampleGroups(db, sampleId)
  {
  }
}
