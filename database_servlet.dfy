/** The row selection and small helpers of DatabaseServlet.java: which rows
    of a samples table `processSamples` emits, the memoised experiment id of
    a sample, `parseId` and `authenticateKey`. The JSON written for each
    emitted row is not modelled; a row is emitted as itself. */
module DatabaseServlet {
  import opened Common
  import opened DataStore
  import opened Caches
  import opened Groups
  import opened WebAuthentication
  import Application

  /** A row of the samples table: columns 0 to 5 are the sample id, the
      experiment id, the expression type, the name, the organism and the
      date. */
  datatype SampleRow = SampleRow(sampleId: int, experimentId: int, sampleType: int, name: string,
                                 organism: int, date: string)

  /** The test `processSamples` puts each row to: the user is an
      administrator or superuser or shares a group with the sample, and the
      row passes the type and organism filters, an empty set meaning no
      filter. */
  predicate RowSelected(db: Store, isAdmin: bool, userGroupIds: set<int>, types: set<int>, organisms: set<int>,
                        row: SampleRow)
  {
    && (isAdmin || UserInSampleGroupIds(userGroupIds, FreshSampleGroups(db, row.sampleId)))
    && (|types| == 0 || row.sampleType in types)
    && (|organisms| == 0 || row.organism in organisms)
  }

  function RowTest(db: Store, isAdmin: bool, userGroupIds: set<int>, types: set<int>, organisms: set<int>)
    : SampleRow -> bool
  {
    (row: SampleRow) => RowSelected(db, isAdmin, userGroupIds, types, organisms, row)
  }

  /** The group query `processSamples` makes for every row, selected or not. */
  function SampleGroupsCalls(table: seq<SampleRow>): (calls: seq<Call>)
    ensures |calls| == |table|
    ensures forall i | 0 <= i < |table| :: calls[i] == SampleGroupsQuery(table[i].sampleId)
    decreases |table|
  {
    if table == [] then []
    else SampleGroupsCalls(table[..|table| - 1]) + [SampleGroupsQuery(table[|table| - 1].sampleId)]
  }

  /** The emitted rows keep the table's order, appear at most as often as in
      the table, and are exactly the rows that pass the test. */
  lemma {:induction false} RowSelectionRule(db: Store, isAdmin: bool, userGroupIds: set<int>, types: set<int>,
                                            organisms: set<int>, table: seq<SampleRow>, row: SampleRow)
    ensures IsSubsequence(FilterSeq(table, RowTest(db, isAdmin, userGroupIds, types, organisms)), table)
    ensures row in FilterSeq(table, RowTest(db, isAdmin, userGroupIds, types, organisms))
            <==> && row in table
                 && (isAdmin || exists g :: g in userGroupIds && g in FreshSampleGroups(db, row.sampleId))
                 && (types == {} || row.sampleType in types)
                 && (organisms == {} || row.organism in organisms)
  {
    FilterSeqIsSubsequence(table, RowTest(db, isAdmin, userGroupIds, types, organisms));
    FilterSeqMembers(table, RowTest(db, isAdmin, userGroupIds, types, organisms), row);
  }

  /** The default overload passes empty type and organism sets, so only
      visibility decides; for an administrator every row is emitted. */
  lemma DefaultFiltersOnlyVisibility(db: Store, isAdmin: bool, userGroupIds: set<int>, table: seq<SampleRow>)
    ensures forall row :: RowTest(db, isAdmin, userGroupIds, {}, {})(row)
                          <==> isAdmin || UserInSampleGroupIds(userGroupIds, FreshSampleGroups(db, row.sampleId))
    ensures isAdmin ==> FilterSeq(table, RowTest(db, isAdmin, userGroupIds, {}, {})) == table
  {
    if isAdmin {
      FilterSeqAll(table, RowTest(db, isAdmin, userGroupIds, {}, {}));
    }
  }

  /** `processSamples(connection, userId, types, organisms, table, json)`:
      the role and the user's groups are looked up once (both cached), the
      sample's groups once per row. */
  method ProcessSamples(cm: CacheManager, db: Store, userId: int, types: set<int>, organisms: set<int>,
                        table: seq<SampleRow>) returns (rows: seq<SampleRow>)
    modifies cm`userTypeCache, cm`userGroupsCache, cm`calls
    ensures rows == FilterSeq(table, RowTest(db, IsAdminOrSuper(CachedUserType(old(cm.userTypeCache), db, userId)),
                                             CachedUserGroups(old(cm.userGroupsCache), db, userId), types, organisms))
    ensures cm.calls == old(cm.calls) + UserTypeCalls(old(cm.userTypeCache), userId)
                        + UserGroupsCalls(old(cm.userGroupsCache), userId) + SampleGroupsCalls(table)
    ensures cm.userTypeCache == UserTypeCacheAfter(old(cm.userTypeCache), db, userId)
    ensures cm.userGroupsCache == UserGroupsCacheAfter(old(cm.userGroupsCache), db, userId)
    ensures old(UserTypesConsistent(cm.userTypeCache, db)) && old(GroupsConsistent(cm.userGroupsCache, db)) ==>
              && UserTypesConsistent(cm.userTypeCache, db) && GroupsConsistent(cm.userGroupsCache, db)
              && rows == FilterSeq(table, RowTest(db, IsAdminOrSuper(FreshUserType(db, userId)),
                                                  FreshUserGroups(db, userId), types, organisms))
  {
    var isAdmin := GetIsAdminOrSuper(cm, db, userId);
    var userGroupIds := UserGroups(cm, db, userId);
    rows := SelectRows(cm, db, isAdmin, userGroupIds, types, organisms, table);
  }

  /** The `while (table.next())` loop of `processSamples`: each row's groups
      are queried, then the row is skipped or emitted. */
  method SelectRows(cm: CacheManager, db: Store, isAdmin: bool, userGroupIds: set<int>, types: set<int>,
                    organisms: set<int>, table: seq<SampleRow>) returns (rows: seq<SampleRow>)
    modifies cm`calls
    ensures rows == FilterSeq(table, RowTest(db, isAdmin, userGroupIds, types, organisms))
    ensures cm.calls == old(cm.calls) + SampleGroupsCalls(table)
  {
    rows := [];
    for i := 0 to |table|
      invariant rows == FilterSeq(table[..i], RowTest(db, isAdmin, userGroupIds, types, organisms))
      invariant cm.calls == old(cm.calls) + SampleGroupsCalls(table[..i])
    {
      FilterSeqStep(table, RowTest(db, isAdmin, userGroupIds, types, organisms), i);
      assert table[..i + 1][..i] == table[..i];
      var row := table[i];
      var sampleGroupIds := SampleGroups(cm, db, row.sampleId);
      var inGroup := UserInSampleGroupIds(userGroupIds, sampleGroupIds);
      if !isAdmin && !inGroup {
        continue;
      }
      if |types| != 0 && row.sampleType !in types {
        continue;
      }
      if |organisms| != 0 && row.organism !in organisms {
        continue;
      }
      rows := rows + [row];
    }
    assert table[..|table|] == table;
  }

  /** The default `processSamples(connection, userId, table, json)`:
      ALL_TAGS and ALL_ORGANISMS are empty, so no type or organism filter. */
  method ProcessAllSamples(cm: CacheManager, db: Store, userId: int, table: seq<SampleRow>)
    returns (rows: seq<SampleRow>)
    modifies cm`userTypeCache, cm`userGroupsCache, cm`calls
    ensures rows == FilterSeq(table, RowTest(db, IsAdminOrSuper(CachedUserType(old(cm.userTypeCache), db, userId)),
                                             CachedUserGroups(old(cm.userGroupsCache), db, userId), {}, {}))
    ensures cm.calls == old(cm.calls) + UserTypeCalls(old(cm.userTypeCache), userId)
                        + UserGroupsCalls(old(cm.userGroupsCache), userId) + SampleGroupsCalls(table)
    ensures cm.userTypeCache == UserTypeCacheAfter(old(cm.userTypeCache), db, userId)
    ensures cm.userGroupsCache == UserGroupsCacheAfter(old(cm.userGroupsCache), db, userId)
    ensures old(UserTypesConsistent(cm.userTypeCache, db)) && old(GroupsConsistent(cm.userGroupsCache, db)) ==>
              && UserTypesConsistent(cm.userTypeCache, db) && GroupsConsistent(cm.userGroupsCache, db)
              && rows == FilterSeq(table, RowTest(db, IsAdminOrSuper(FreshUserType(db, userId)),
                                                  FreshUserGroups(db, userId), {}, {}))
  {
    rows := ProcessSamples(cm, db, userId, {}, {}, table);
  }

  /** The test of the `Collection<Sample>` overload: `canViewSample` as the
      store decides it. */
  function ViewTest(db: Store, userId: int): SampleRow -> bool
  {
    (row: SampleRow) => FreshCanViewSample(db, userId, row.sampleId)
  }

  /** Appending a row to both lists keeps one a subsequence of the other,
      and so does appending it to the longer one only. */
  lemma SubsequenceExtend<T>(a: seq<T>, b: seq<T>, x: T)
    requires IsSubsequence(a, b)
    ensures IsSubsequence(a + [x], b + [x])
    ensures IsSubsequence(a, b + [x])
  {
    assert (a + [x])[..|a|] == a;
    assert (b + [x])[..|b|] == b;
  }

  /** The rows emitted so far, the visibility memos and the calls made. */
  datatype RowsOutcome = RowsOutcome(rows: seq<SampleRow>, caches: ViewCaches, calls: seq<Call>)

  /** What the `Collection<Sample>` overload of `processSamples` does to the
      first rows of the table: each row's sample is put to the sample test,
      on the memos the earlier rows left, and the row is kept when it
      passes. */
  function ViewableRows(c: ViewCaches, db: Store, userId: int, table: seq<SampleRow>): (r: RowsOutcome)
    ensures r.caches.files == c.files
    decreases |table|
  {
    if table == [] then RowsOutcome([], c, [])
    else
      var r := ViewableRows(c, db, userId, table[..|table| - 1]);
      var row := table[|table| - 1];
      var t := SampleTest(r.caches, db, userId, row.sampleId);
      RowsOutcome(if t.answer then r.rows + [row] else r.rows, t.caches, r.calls + t.calls)
  }

  /** The rows kept are a subsequence of the table, whatever the memos. */
  lemma {:induction false} ViewableRowsSubsequence(c: ViewCaches, db: Store, userId: int, table: seq<SampleRow>)
    ensures IsSubsequence(ViewableRows(c, db, userId, table).rows, table)
    decreases |table|
  {
    if table != [] {
      var init, last := table[..|table| - 1], table[|table| - 1];
      FrontLast(table);
      ViewableRowsSubsequence(c, db, userId, init);
      var r := ViewableRows(c, db, userId, init);
      var t := SampleTest(r.caches, db, userId, last.sampleId);
      assert ViewableRows(c, db, userId, table).rows == if t.answer then r.rows + [last] else r.rows;
      SubsequenceExtend(r.rows, init, last);
    }
  }

  /** With consistent memos the rows kept are exactly the viewable ones, in
      the table's order, and the memos stay consistent. */
  lemma {:induction false} ViewableRowsConsistent(c: ViewCaches, db: Store, userId: int, table: seq<SampleRow>)
    requires ViewCachesConsistent(c, db)
    ensures var r := ViewableRows(c, db, userId, table);
            ViewCachesConsistent(r.caches, db) && r.rows == FilterSeq(table, ViewTest(db, userId))
    decreases |table|
  {
    if table != [] {
      var init := table[..|table| - 1];
      ViewableRowsConsistent(c, db, userId, init);
      var r := ViewableRows(c, db, userId, init);
      SampleTestConsistent(r.caches, db, userId, table[|table| - 1].sampleId);
    }
  }

  /** The lemma above for any starting memos. */
  lemma ViewableRowsConsistentIf(c: ViewCaches, db: Store, userId: int, table: seq<SampleRow>)
    ensures var r := ViewableRows(c, db, userId, table);
            ViewCachesConsistent(c, db) ==>
              ViewCachesConsistent(r.caches, db) && r.rows == FilterSeq(table, ViewTest(db, userId))
  {
    if ViewCachesConsistent(c, db) {
      ViewableRowsConsistent(c, db, userId, table);
    }
  }

  /** With consistent memos an administrator or superuser gets every row. */
  lemma PrivilegedSeesAllRows(c: ViewCaches, db: Store, userId: int, table: seq<SampleRow>)
    requires ViewCachesConsistent(c, db)
    requires IsAdminOrSuper(FreshUserType(db, userId))
    ensures ViewableRows(c, db, userId, table).rows == table
  {
    ViewableRowsConsistent(c, db, userId, table);
    FilterSeqAll(table, ViewTest(db, userId));
  }

  /** `processSamples(connection, context, userId, table, samples, ...)`:
      a row becomes a sample only if `canViewSample` holds; the visibility
      memos are consulted and filled as `canViewSample` does. */
  method ProcessViewableSamples(cm: CacheManager, db: Store, userId: int, table: seq<SampleRow>)
    returns (samples: seq<SampleRow>)
    modifies cm`userTypeCache, cm`sampleViewCache, cm`userGroupsCache, cm`calls
    ensures var r := ViewableRows(old(ViewCachesOf(cm)), db, userId, table);
            samples == r.rows && ViewCachesOf(cm) == r.caches && cm.calls == old(cm.calls) + r.calls
    ensures IsSubsequence(samples, table)
    ensures old(ViewsConsistent(cm, db)) ==>
              ViewsConsistent(cm, db) && samples == FilterSeq(table, ViewTest(db, userId))
  {
    ghost var start := ViewCachesOf(cm);
    ghost var done: seq<Call> := [];
    samples := [];
    for i := 0 to |table|
      invariant ViewableRows(start, db, userId, table[..i]) == RowsOutcome(samples, ViewCachesOf(cm), done)
      invariant cm.calls == old(cm.calls) + done
    {
      assert table[..i + 1][..i] == table[..i];
      ghost var t := SampleTest(ViewCachesOf(cm), db, userId, table[i].sampleId);
      assert ViewableRows(start, db, userId, table[..i + 1])
             == RowsOutcome(if t.answer then samples + [table[i]] else samples, t.caches, done + t.calls);
      ConcatAssoc(old(cm.calls), done, t.calls);
      var sampleId := table[i].sampleId;
      var viewable := CanViewSample(cm, db, sampleId, userId);
      done := done + t.calls;
      if !viewable {
        continue;
      }
      samples := samples + [table[i]];
    }
    assert table[..|table|] == table;
    ViewableRowsSubsequence(start, db, userId, table);
    ViewableRowsConsistentIf(start, db, userId, table);
  }

  /** Every memoised experiment id is the one the store holds. */
  predicate ExperimentsConsistent(cache: map<int, int>, db: Store)
  {
    forall s | s in cache :: cache[s] == db.sampleExperiment(s)
  }

  /** `getExperimentId`: a hit answers from "sample-experiment-cache"; a miss
      queries SAMPLE_EXPERIMENT_SQL and caches the answer, -1 included. */
  method GetExperimentId(cm: CacheManager, db: Store, sampleId: int) returns (experimentId: int)
    modifies cm`sampleExperimentCache, cm`calls
    ensures sampleId in old(cm.sampleExperimentCache) ==>
              experimentId == old(cm.sampleExperimentCache)[sampleId]
              && cm.sampleExperimentCache == old(cm.sampleExperimentCache) && cm.calls == old(cm.calls)
    ensures sampleId !in old(cm.sampleExperimentCache) ==>
              experimentId == db.sampleExperiment(sampleId)
              && cm.sampleExperimentCache == old(cm.sampleExperimentCache)[sampleId := experimentId]
              && cm.calls == old(cm.calls) + [ExperimentQuery(sampleId)]
    ensures old(ExperimentsConsistent(cm.sampleExperimentCache, db)) ==>
              ExperimentsConsistent(cm.sampleExperimentCache, db) && experimentId == db.sampleExperiment(sampleId)
  {
    if sampleId in cm.sampleExperimentCache {
      return cm.sampleExperimentCache[sampleId];
    }
    experimentId := -1;
    experimentId := db.sampleExperiment(sampleId);
    cm.calls := cm.calls + [ExperimentQuery(sampleId)];
    cm.sampleExperimentCache := cm.sampleExperimentCache[sampleId := experimentId];
  }

  /** `parseId`: `Integer.parseInt`, with -1 for anything it rejects (null
      included). */
  function ParseId(id: Option<string>): (r: int)
    ensures id.None? ==> r == -1
    ensures id.Some? && Application.ParseInt(id.value).Ok? ==> r == Application.ParseInt(id.value).value
    ensures id.Some? && Application.ParseInt(id.value).Err? ==> r == -1
    ensures Application.IntMin <= r <= Application.IntMax
  {
    match id
    case None => -1
    case Some(s) =>
      match Application.ParseInt(s)
      case Ok(v) => v
      case Err(_) => -1
  }

  /** `parseId` reads back every 32-bit integer written by `toString`; only
      for -1 itself can the answer be mistaken for a failure. */
  lemma ParseIdRoundTrip(n: int)
    requires Application.IntMin <= n <= Application.IntMax
    ensures ParseId(Some(Application.IntToString(n))) == n
  {
    Application.ParseIntToString(n);
  }

  /** `authenticateKey`: every key authenticates as person 6. */
  function AuthenticateKey(key: string): (personId: int)
    ensures personId == 6
  {
    6
  }
}
