/** The sample-list filters of Filter.java: by type, by organism and by
    group membership. Each builds a new list by appending, in order, the
    samples that pass; the group filter reads each sample's groups from
    the store. */
module Filter {
  import opened Common
  import opened DataStore
  import Database

  /** The fields of a `SampleBean` the filters read. */
  datatype SampleBean = SampleBean(id: int, sampleType: int, organismId: int)

  /** The test `filterByTypes` applies to each sample. */
  function TypeTest(types: set<int>): SampleBean -> bool
  {
    (s: SampleBean) => s.sampleType in types
  }

  /** The test `filterByOrganisms` applies to each sample. */
  function OrganismTest(organisms: set<int>): SampleBean -> bool
  {
    (s: SampleBean) => s.organismId in organisms
  }

  /** `CollectionUtils.isNullOrEmpty`. */
  predicate NullOrEmpty(ids: Option<set<int>>)
  {
    ids.None? || ids.value == {}
  }

  /** What `filterByTypes` returns: the list itself for a null or empty type
      collection, otherwise the samples of those types, in order. */
  function ByTypes(samples: seq<SampleBean>, types: Option<set<int>>): (r: seq<SampleBean>)
    ensures IsSubsequence(r, samples)
    ensures forall s :: s in r <==> s in samples && (NullOrEmpty(types) || s.sampleType in types.value)
  {
    if NullOrEmpty(types) then
      SubsequenceRefl(samples);
      samples
    else
      FilterSeqIsSubsequence(samples, TypeTest(types.value));
      assert forall s :: s in FilterSeq(samples, TypeTest(types.value)) <==> s in samples && s.sampleType in types.value
        by {
          forall s {
            FilterSeqMembers(samples, TypeTest(types.value), s);
          }
        }
      FilterSeq(samples, TypeTest(types.value))
  }

  /** What `filterByOrganisms` returns, the same rule on the organism id. */
  function ByOrganisms(samples: seq<SampleBean>, organisms: Option<set<int>>): (r: seq<SampleBean>)
    ensures IsSubsequence(r, samples)
    ensures forall s :: s in r <==> s in samples && (NullOrEmpty(organisms) || s.organismId in organisms.value)
  {
    if NullOrEmpty(organisms) then
      SubsequenceRefl(samples);
      samples
    else
      FilterSeqIsSubsequence(samples, OrganismTest(organisms.value));
      assert forall s :: s in FilterSeq(samples, OrganismTest(organisms.value))
                         <==> s in samples && s.organismId in organisms.value
        by {
          forall s {
            FilterSeqMembers(samples, OrganismTest(organisms.value), s);
          }
        }
      FilterSeq(samples, OrganismTest(organisms.value))
  }

  /** Every list is a subsequence of itself. */
  lemma {:induction false} SubsequenceRefl<T>(s: seq<T>)
    ensures IsSubsequence(s, s)
    decreases |s|
  {
    if s != [] {
      SubsequenceRefl(s[..|s| - 1]);
    }
  }

  /** `filterByTypes`. */
  method FilterByTypes(samples: seq<SampleBean>, types: Option<set<int>>) returns (ret: seq<SampleBean>)
    ensures ret == ByTypes(samples, types)
  {
    if NullOrEmpty(types) {
      return samples;
    }
    ret := [];
    for i := 0 to |samples|
      invariant ret == FilterSeq(samples[..i], TypeTest(types.value))
    {
      FilterSeqStep(samples, TypeTest(types.value), i);
      var sampleType := samples[i].sampleType;
      if sampleType in types.value {
        ret := ret + [samples[i]];
      }
    }
    assert samples[..|samples|] == samples;
  }

  /** `filterByOrganisms`. */
  method FilterByOrganisms(samples: seq<SampleBean>, organisms: Option<set<int>>) returns (ret: seq<SampleBean>)
    ensures ret == ByOrganisms(samples, organisms)
  {
    if NullOrEmpty(organisms) {
      return samples;
    }
    ret := [];
    for i := 0 to |samples|
      invariant ret == FilterSeq(samples[..i], OrganismTest(organisms.value))
    {
      FilterSeqStep(samples, OrganismTest(organisms.value), i);
      var organism := samples[i].organismId;
      if organism in organisms.value {
        ret := ret + [samples[i]];
      }
    }
    assert samples[..|samples|] == samples;
  }

  /** All mode: every requested group is among the sample's groups
      (`Samples.getGroups`, made a set). */
  predicate InAllGroups(db: Store, gids: set<int>, s: SampleBean)
  {
    gids <= Database.SetOf(db.sampleGroupList(s.id))
  }

  /** Any mode: some group in the sample's list is a requested one. */
  predicate InAnyGroup(db: Store, gids: set<int>, s: SampleBean)
  {
    exists j | 0 <= j < |db.sampleGroupList(s.id)| :: db.sampleGroupList(s.id)[j] in gids
  }

  function AllGroupsTest(db: Store, gids: set<int>): SampleBean -> bool
  {
    (s: SampleBean) => InAllGroups(db, gids, s)
  }

  function AnyGroupTest(db: Store, gids: set<int>): SampleBean -> bool
  {
    (s: SampleBean) => InAnyGroup(db, gids, s)
  }

  /** The groups all mode asks for: an empty request means the user's own
      groups (`Persons.groupIds`). */
  function AllModeGroups(db: Store, userId: int, gids: set<int>): set<int>
  {
    if |gids| == 0 then db.personGroupIds(userId) else gids
  }

  /** What `filterByGroups(jdbcTemplate, auth, samples, gids, allMode)`
      returns for the user `userId`; None is the null dereference of
      all mode on a null `gids`. */
  function ByGroups(db: Store, userId: int, samples: seq<SampleBean>, gids: Option<set<int>>, allMode: bool)
    : Option<seq<SampleBean>>
  {
    if allMode then
      if gids.None? then None
      else Some(FilterSeq(samples, AllGroupsTest(db, AllModeGroups(db, userId, gids.value))))
    else if NullOrEmpty(gids) then Some(samples)
    else Some(FilterSeq(samples, AnyGroupTest(db, gids.value)))
  }

  /** The group filter keeps, in order and each at most as often as it
      occurs, exactly the samples passing the mode's test; any mode with no
      groups asked for keeps the list as it is. */
  lemma ByGroupsKeeps(db: Store, userId: int, samples: seq<SampleBean>, gids: Option<set<int>>, allMode: bool,
                      s: SampleBean)
    ensures ByGroups(db, userId, samples, gids, allMode).None? <==> allMode && gids.None?
    ensures ByGroups(db, userId, samples, gids, allMode).Some? ==>
              IsSubsequence(ByGroups(db, userId, samples, gids, allMode).value, samples)
    ensures allMode && gids.Some? ==>
              (s in ByGroups(db, userId, samples, gids, allMode).value
               <==> s in samples && AllModeGroups(db, userId, gids.value) <= Database.SetOf(db.sampleGroupList(s.id)))
    ensures !allMode && !NullOrEmpty(gids) ==>
              (s in ByGroups(db, userId, samples, gids, allMode).value
               <==> s in samples && exists j | 0 <= j < |db.sampleGroupList(s.id)| :: db.sampleGroupList(s.id)[j] in gids.value)
    ensures !allMode && NullOrEmpty(gids) ==> ByGroups(db, userId, samples, gids, allMode) == Some(samples)
  {
    if allMode && gids.Some? {
      FilterSeqMembers(samples, AllGroupsTest(db, AllModeGroups(db, userId, gids.value)), s);
      FilterSeqIsSubsequence(samples, AllGroupsTest(db, AllModeGroups(db, userId, gids.value)));
    } else if !allMode && !NullOrEmpty(gids) {
      FilterSeqMembers(samples, AnyGroupTest(db, gids.value), s);
      FilterSeqIsSubsequence(samples, AnyGroupTest(db, gids.value));
    } else if !allMode {
      SubsequenceRefl(samples);
    }
  }

  /** In all mode an empty request from a user who belongs to no group
      keeps every sample: the user's (empty) group list is vacuously
      contained in every sample's groups. */
  lemma AllModeWithoutGroupsKeepsAll(db: Store, userId: int, samples: seq<SampleBean>)
    requires db.personGroupIds(userId) == {}
    ensures ByGroups(db, userId, samples, Some({}), true) == Some(samples)
  {
    FilterSeqAll(samples, AllGroupsTest(db, {}));
  }

  /** The inner loop of all mode: does the sample belong to every group of
      `gids`? It stops at the first group the sample lacks. */
  method BelongsToAll(gids: set<int>, sgids: set<int>) returns (included: bool)
    ensures included <==> gids <= sgids
  {
    included := true;
    var rest := gids;
    ghost var missing := 0;
    while rest != {} && included
      invariant rest <= gids
      invariant included ==> forall g | g in gids - rest :: g in sgids
      invariant !included ==> missing in gids && missing !in sgids
      decreases |rest|
    {
      NonEmptyWitness(rest);
      var gid :| gid in rest;
      if gid !in sgids {
        included := false;
        missing := gid;
      }
      rest := rest - {gid};
    }
    if included {
      assert rest == {};
      assert gids - rest == gids;
      assert forall g | g in gids :: g in sgids;
    } else {
      assert !(gids <= sgids);
    }
  }

  /** The inner loop of any mode: is some group of the sample's list among
      `gids`? It stops at the first one that is. */
  method BelongsToAny(sampleGroups: seq<int>, gids: set<int>) returns (found: bool)
    ensures found <==> exists j | 0 <= j < |sampleGroups| :: sampleGroups[j] in gids
  {
    found := false;
    var j := 0;
    while j < |sampleGroups| && !found
      invariant 0 <= j <= |sampleGroups|
      invariant found <==> exists k | 0 <= k < j :: sampleGroups[k] in gids
    {
      if sampleGroups[j] in gids {
        found := true;
      }
      j := j + 1;
    }
  }

  /** `filterByGroups`, the `Collection` overload (the `List` overload only
      turns the list into a set first). */
  method FilterByGroups(db: Store, userId: int, samples: seq<SampleBean>, gids: Option<set<int>>, allMode: bool)
    returns (r: Option<seq<SampleBean>>)
    ensures r == ByGroups(db, userId, samples, gids, allMode)
  {
    var ret: seq<SampleBean> := [];
    if allMode {
      if gids.None? {
        return None;
      }
      var groups := gids.value;
      if |groups| == 0 {
        groups := db.personGroupIds(userId);
      }
      for i := 0 to |samples|
        invariant ret == FilterSeq(samples[..i], AllGroupsTest(db, groups))
      {
        FilterSeqStep(samples, AllGroupsTest(db, groups), i);
        var sgids := Database.SetOf(db.sampleGroupList(samples[i].id));
        var included := BelongsToAll(groups, sgids);
        if included {
          ret := ret + [samples[i]];
        }
      }
    } else {
      if NullOrEmpty(gids) {
        return Some(samples);
      }
      for i := 0 to |samples|
        invariant ret == FilterSeq(samples[..i], AnyGroupTest(db, gids.value))
      {
        FilterSeqStep(samples, AnyGroupTest(db, gids.value), i);
        var found := BelongsToAny(db.sampleGroupList(samples[i].id), gids.value);
        if found {
          ret := ret + [samples[i]];
        }
      }
    }
    assert samples[..|samples|] == samples;
    r := Some(ret);
  }
}
