/** The collaborators the service calls but does not implement: the
    relational store (every prepared statement becomes a total function of
    its bind values), the TOTP library and the key-format check. Their
    contents are fixed for the lifetime of a model run. */
module DataStore {
  import opened Common

  /** The answers the database gives to each query the core issues. */
  datatype Store = Store(
    /** USER_TYPE_SQL: `persons.user_type_id` of a person. */
    userTypeId: int -> int,
    /** KEY_SQL: `persons.api_key` of a person, NULL when absent. */
    apiKey: int -> Option<string>,
    /** VALIDATE_IP_SQL: does the allow-list of the person hold `*` or a
        pattern the address is LIKE? WebAuthentication asks whether a row
        exists and WebAuth whether the COUNT of the same rows is positive,
        so both read this one answer. */
    ipAllowed: (int, string) -> bool,
    /** GROUP_IDS_SQL through `JDBCConnection.getIntSet` (null for no result). */
    userGroupRows: int -> Option<set<int>>,
    /** SAMPLE_GROUPS_SQL through `JDBCConnection.getIntSet`. */
    sampleGroupRows: int -> Option<set<int>>,
    /** SAMPLE_GROUPS_SQL through `Samples.getGroups`, as the list it returns. */
    sampleGroupList: int -> seq<int>,
    /** SAMPLE_GROUPS_COUNT_SQL: rows tagging the sample with one of the groups. */
    sampleGroupsCount: (int, set<int>) -> int,
    /** SAMPLE_GROUP_COUNT_SQL: rows tagging the sample with the group. */
    sampleGroupCount: (int, int) -> int,
    /** `Vfs.getSamples`: the samples a virtual file belongs to. */
    vfsSamples: int -> seq<int>,
    /** SAMPLE_EXPERIMENT_SQL: the experiment of a sample, -1 if none. */
    sampleExperiment: int -> int,
    /** `WebAuth.getUserIdFromAPIKey`: the person owning a key, -1 if none. */
    keyUserId: string -> int,
    /** `WebAuth.isKey`: the lexical key-format check (no database access). */
    isKey: string -> bool,
    /** `Persons.isAdmin`, `Persons.isSuper`, `Persons.groupIds`. */
    isAdmin: int -> bool,
    isSuper: int -> bool,
    personGroupIds: int -> set<int>,
    /** SAMPLE_KEYWORD_SEARCH_SQL (prefix, `exact` false) and
        SAMPLE_KEYWORD_EXACT_SEARCH_SQL (`exact` true) for a tag and a bound
        LIKE/= value, through `JDBCConnection.getIntSet` (null for no result). */
    keywordSamples: (int, string, bool) -> Option<set<int>>,
    /** ALL_TAG_SAMPLES_SQL: every sample indexed under a tag, through
        `JDBCConnection.getIntList`. */
    tagSamples: int -> Option<seq<int>>
  )

  /** `org.jebtk.core.cryptography.TOTP`: the time-step counter and the code
      check, both opaque here. */
  datatype TotpLibrary = TotpLibrary(
    getCounter: (int, int, int) -> int,
    totpAuth: (string, int, int, int, int) -> bool
  )

  /** A call the core makes to a collaborator. */
  datatype Call =
    | UserTypeQuery(userId: int)
    | UserGroupsQuery(userId: int)
    | SampleGroupsQuery(sampleId: int)
    | IpQuery(userId: int, ipAddress: string)
    | KeyQuery(userId: int)
    | TotpCheck(key: string, totp: int, time: int)
    | VfsSamplesQuery(vfsId: int)
    | ExperimentQuery(sampleId: int)
    | UserIdQuery(key: string)
}

/** The process-wide ehcache `CacheManager`: every named cache the core uses
    is a map field here, shared by all the static methods that look it up by
    name. Entries never expire; they go only when the caches are cleared. */
module Caches {
  import opened Common
  import opened UserTypes
  import opened DataStore

  /** The value WebAuthentication.BLOCKED_IP_ADDRESS caches for a refused user. */
  const Blocked: string := "blocked"

  class CacheManager {
    /** "user-type-cache": user id to role. */
    var userTypeCache: map<int, UserType>
    /** "sample-view-cache": user id to (sample id to visibility). */
    var sampleViewCache: map<int, map<int, bool>>
    /** "file-view-cache": user id to (file id to visibility). */
    var fileViewCache: map<int, map<int, bool>>
    /** "totp-tc-cache": user id to the last accepted TOTP counter. */
    var totpCounterCache: map<int, int>
    /** "key-cache": user id to the TOTP key (possibly null). */
    var keyCache: map<int, Option<string>>
    /** "ip_add_cache": user id to the last accepted address, or Blocked. */
    var ipCache: map<int, string>
    /** "user-groups-cache": user id to the user's group ids. */
    var userGroupsCache: map<int, set<int>>
    /** "sample-experiment-cache": sample id to experiment id. */
    var sampleExperimentCache: map<int, int>
    /** The collaborator calls made so far, oldest first. */
    ghost var calls: seq<Call>

    ghost predicate Empty()
      reads this
    {
      && userTypeCache == map[] && sampleViewCache == map[] && fileViewCache == map[]
      && totpCounterCache == map[] && keyCache == map[] && ipCache == map[]
      && userGroupsCache == map[] && sampleExperimentCache == map[]
    }

    constructor ()
      ensures Empty() && calls == []
    {
      userTypeCache, sampleViewCache, fileViewCache := map[], map[], map[];
      totpCounterCache, keyCache, ipCache := map[], map[], map[];
      userGroupsCache, sampleExperimentCache := map[], map[];
      calls := [];
    }

    /** `CacheManager.clearAll()`: every cache loses every entry. */
    method ClearAll()
      modifies this
      ensures Empty() && calls == old(calls)
    {
      userTypeCache, sampleViewCache, fileViewCache := map[], map[], map[];
      totpCounterCache, keyCache, ipCache := map[], map[], map[];
      userGroupsCache, sampleExperimentCache := map[], map[];
    }
  }
}
