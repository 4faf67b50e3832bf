/** The query-shaping helpers of Database.java: the memoised SQL text for a
    lookup table, the choice between the limited and the unlimited samples
    query, the single-value extractors and the null-to-empty id helpers.
    Running the SQL is left to the data-store oracles of module DataStore. */
module Database {
  import opened Common

  /** The samples query `getSamplesTable` issues: the `LIMIT ?` variant or the
      unlimited one, over a set of sample ids (bound as an SQL array, so the
      ids' order does not matter). */
  datatype SamplesQuery =
    | LimitedSamples(ids: set<int>, limit: int)
    | AllSamples(ids: set<int>)

  /** `getSamplesTable(connection, ids, maxCount)`: a positive `maxCount`
      caps the rows; zero or a negative count means no cap. */
  function GetSamplesTable(ids: set<int>, maxCount: int): (q: SamplesQuery)
    ensures q.ids == ids
    ensures q.LimitedSamples? <==> maxCount > 0
    ensures q.LimitedSamples? ==> q.limit == maxCount
  {
    if maxCount > 0 then LimitedSamples(ids, maxCount) else AllSamples(ids)
  }

  /** The ids of a list, as the set the `= ANY(?::int[])` condition tests. */
  function SetOf(ids: seq<int>): (s: set<int>)
    ensures forall x :: x in s <==> x in ids
  {
    set x | x in ids
  }

  /** `IntExtractor`: the first column of the first row, or -1 if the query
      returned no row. */
  function ExtractInt(firstColumn: seq<int>): (r: int)
    ensures firstColumn != [] ==> r == firstColumn[0]
    ensures firstColumn == [] ==> r == -1
  {
    if |firstColumn| > 0 then firstColumn[0] else -1
  }

  /** `StringExtractor`: the first column of the first row (which SQL may
      hold as NULL), or the empty string if the query returned no row. */
  function ExtractString(firstColumn: seq<Option<string>>): (r: Option<string>)
    ensures firstColumn != [] ==> r == firstColumn[0]
    ensures firstColumn == [] ==> r == Some("")
  {
    if |firstColumn| > 0 then firstColumn[0] else Some("")
  }

  /** The id list helpers (`getIds`) never return null: a missing result
      becomes the empty list. */
  function IdsOrEmpty(ret: Option<seq<int>>): (ids: seq<int>)
    ensures ret.Some? ==> ids == ret.value
    ensures ret.None? ==> ids == []
  {
    match ret
    case Some(v) => v
    case None => []
  }

  /** The same for the id set helpers (`getIdsSet`). */
  function IdSetOrEmpty(ret: Option<set<int>>): (ids: set<int>)
    ensures ret.Some? ==> ids == ret.value
    ensures ret.None? ==> ids == {}
  {
    match ret
    case Some(v) => v
    case None => {}
  }

  const SelectPart: string := "SELECT "

  /** The text `getTypeSql` builds for the lookup table `t`. */
  function TypeSql(t: string): string
  {
    SelectPart + t + ".id, " + t + ".name " + "FROM " + t + " ORDER BY " + t + ".name"
  }

  /** The table name can be read back from the generated statement, so two
      different tables never share an entry's text. */
  lemma TypeSqlNamesTable(t: string)
    ensures |TypeSql(t)| == 4 * |t| + 38
    ensures TypeSql(t)[..7] == "SELECT "
    ensures TypeSql(t)[7..7 + |t|] == t
  {
    var rest := ".id, " + t + ".name " + "FROM " + t + " ORDER BY " + t + ".name";
    assert TypeSql(t) == SelectPart + (t + rest);
    PrefixThenPart(SelectPart, t, rest);
  }

  /** In `a + (b + c)` the first |a| characters are `a`, the next |b| are `b`. */
  lemma PrefixThenPart(a: string, b: string, c: string)
    ensures (a + (b + c))[..|a|] == a
    ensures (a + (b + c))[|a|..|a| + |b|] == b
  {
    assert (a + (b + c))[|a|..] == b + c;
  }

  lemma TypeSqlInjective(t1: string, t2: string)
    requires TypeSql(t1) == TypeSql(t2)
    ensures t1 == t2
  {
    TypeSqlNamesTable(t1);
    TypeSqlNamesTable(t2);
  }

  /** The static `TYPE_MAP` memo of `getTypeSql`. */
  class TypeSqlCache {
    var typeMap: map<string, string>

    /** Every memoised entry is the statement for its own table. */
    ghost predicate Valid()
      reads this
    {
      forall t | t in typeMap :: typeMap[t] == TypeSql(t)
    }

    constructor ()
      ensures typeMap == map[]
      ensures Valid()
    {
      typeMap := map[];
    }

    /** On the first request for `t` the statement is built and stored; later
        requests return the stored text. No other entry changes. */
    method GetTypeSql(t: string) returns (sql: string)
      modifies this
      ensures t in old(typeMap) ==> typeMap == old(typeMap) && sql == old(typeMap)[t]
      ensures t !in old(typeMap) ==> typeMap == old(typeMap)[t := TypeSql(t)]
      ensures sql == typeMap[t]
      ensures old(Valid()) ==> Valid() && sql == TypeSql(t)
    {
      if t !in typeMap {
        var buffer := SelectPart;
        buffer := buffer + t;
        buffer := buffer + ".id, ";
        buffer := buffer + t;
        buffer := buffer + ".name ";
        buffer := buffer + "FROM ";
        buffer := buffer + t;
        buffer := buffer + " ORDER BY ";
        buffer := buffer + t;
        buffer := buffer + ".name";
        typeMap := typeMap[t := buffer];
      }
      sql := typeMap[t];
    }
  }
}
