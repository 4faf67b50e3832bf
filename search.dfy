/** The keyword search of Search.java and its SearchResults record. A search
    is a queue of postfix elements: MATCH looks a keyword up and pushes the
    tagged id set, AND and OR pop two sets and push their combination, and
    the set left on top is the answer. A keyword starting with '-' (inside
    the quotes of an exact keyword) asks for the samples NOT matching it,
    which the set carries as `included == false`. */
module Search {
  import opened Common
  import opened DataStore
  import Database

  /** `SearchResults`: an id collection and whether it lists the samples to
      include (true) or to exclude (false). Both fields are set once by the
      constructors and only read afterwards. */
  datatype SearchResults = SearchResults(values: set<int>, included: bool)

  /** `new SearchResults()`: the shared empty set, included. */
  function EmptyResults(): (r: SearchResults)
    ensures r.values == {} && r.included
  {
    SearchResults({}, true)
  }

  /** `new SearchResults(values)`: always an inclusive set. */
  function ResultsOf(values: set<int>): (r: SearchResults)
    ensures r.values == values && r.included
  {
    SearchResults(values, true)
  }

  /** `new SearchResults(values, include)` keeps both arguments as given, and
      the getters hand them back: two records are equal exactly when their
      values and flags are. */
  lemma ResultsFieldsKept(values: set<int>, included: bool, values': set<int>, included': bool)
    ensures SearchResults(values, included).values == values
    ensures SearchResults(values, included).included == included
    ensures (SearchResults(values, included) == SearchResults(values', included'))
            <==> (values == values' && included == included')
    ensures ResultsOf(values) == SearchResults(values, true)
  {
  }

  /** The operators of a search element. MATCH, AND and OR are the ones the
      evaluator acts on; every other operator of the queue is skipped. */
  datatype SearchOp = Match | And | Or | OtherOp

  /** A `SearchStackElement`: an operator and, for MATCH, the keyword. */
  datatype SearchStackElement = SearchStackElement(op: SearchOp, text: string)

  /** The exceptions a search can throw: `ArrayDeque.pop` on an empty stack
      (NoSuchElementException) and `charAt`/`substring` past the end of a
      keyword (StringIndexOutOfBoundsException). */
  datatype SearchError = EmptyStackPop | KeywordIndexOutOfRange

  /** `exact`: the keyword starts with a double quote. `charAt(0)` needs at
      least one character. */
  predicate Exact(keyword: string)
    requires |keyword| > 0
  {
    keyword[0] == '"'
  }

  /** The keywords `include` can classify without reading past the end. */
  predicate IncludeDefined(keyword: string)
  {
    |keyword| > 0 && (keyword[0] == '"' ==> |keyword| > 1)
  }

  /** `include`: a keyword is negative exactly when it starts with '-', or
      starts with a quote followed by '-'. */
  function Include(keyword: string): (b: bool)
    requires IncludeDefined(keyword)
    ensures !b <==> keyword[0] == '-' || (keyword[0] == '"' && keyword[1] == '-')
  {
    if Exact(keyword) then keyword[1] != '-' else keyword[0] != '-'
  }

  /** The stripping at the start of `getSampleIds(connection, tagId, keyword,
      include)`: an exact keyword loses its first and last characters (the
      last whatever it is), then a negative keyword loses its first. */
  function StripKeyword(keyword: string, included: bool): Result<string, SearchError>
    requires |keyword| > 0
  {
    if Exact(keyword) && |keyword| < 2 then Err(KeywordIndexOutOfRange)
    else
      var unquoted := if Exact(keyword) then keyword[1..|keyword| - 1] else keyword;
      if !included && |unquoted| == 0 then Err(KeywordIndexOutOfRange)
      else Ok(if included then unquoted else unquoted[1..])
  }

  /** A sequence of two or more elements is its first element, its inner
      part and its last element. */
  lemma SplitEnds(s: string)
    requires |s| >= 2
    ensures s == [s[0]] + s[1..|s| - 1] + [s[|s| - 1]]
  {
    assert s == [s[0]] + s[1..];
    assert s[1..] == s[1..|s| - 1] + [s[|s| - 1]];
  }

  /** Stripping removes exactly the quote pair and the dash, and fails only
      on the quoted keywords too short to hold them. */
  lemma StripKeywordRemovesMarks(keyword: string)
    requires IncludeDefined(keyword)
    ensures var r := StripKeyword(keyword, Include(keyword));
            && (r.Err? <==> keyword == "\"-")
            && (r.Ok? ==> keyword == (if Exact(keyword) then "\"" else "")
                                     + (if Include(keyword) then "" else "-")
                                     + r.value
                                     + (if Exact(keyword) then [keyword[|keyword| - 1]] else ""))
  {
    var r := StripKeyword(keyword, Include(keyword));
    if Exact(keyword) {
      if !Include(keyword) && |keyword| == 2 {
        assert keyword == "\"-";
      } else if r.Ok? {
        SplitEnds(keyword);
        assert [keyword[0]] == "\"";
        if !Include(keyword) {
          var inner := keyword[1..|keyword| - 1];
          assert inner == [inner[0]] + inner[1..];
          assert [inner[0]] == "-";
        }
      }
    } else if !Include(keyword) {
      assert keyword == "-" + keyword[1..];
    }
  }

  /** `getIds(connection, sql, tagId, keyword)`: binds the keyword with a '%'
      appended, and a null id set becomes the empty set. The `exact` flag
      chooses SAMPLE_KEYWORD_EXACT_SEARCH_SQL over SAMPLE_KEYWORD_SEARCH_SQL. */
  function GetIds(db: Store, tagId: int, keyword: string, exact: bool): (ids: set<int>)
    ensures db.keywordSamples(tagId, keyword + "%", exact).Some? ==>
              ids == db.keywordSamples(tagId, keyword + "%", exact).value
    ensures db.keywordSamples(tagId, keyword + "%", exact).None? ==> ids == {}
  {
    Database.IdSetOrEmpty(db.keywordSamples(tagId, keyword + "%", exact))
  }

  /** `getSampleIds(connection, tagId, keyword, include)`. */
  function GetKeywordSampleIds(db: Store, tagId: int, keyword: string, included: bool): Result<set<int>, SearchError>
    requires |keyword| > 0
  {
    match StripKeyword(keyword, included)
    case Err(e) => Err(e)
    case Ok(stripped) => Ok(GetIds(db, tagId, stripped, Exact(keyword)))
  }

  /** The "exact" query binds the quoted text with a '%' after it. Its
      statement compares with `=`, not LIKE, so that '%' is an ordinary
      character of the compared value. */
  lemma ExactLookupBindsWildcard(db: Store, tagId: int, keyword: string)
    requires |keyword| >= 2 && keyword[0] == '"' && keyword[1] != '-'
    ensures GetKeywordSampleIds(db, tagId, keyword, Include(keyword))
            == Ok(Database.IdSetOrEmpty(db.keywordSamples(tagId, keyword[1..|keyword| - 1] + "%", true)))
  {
  }

  /** The MATCH case of `search`: classify, look up, tag. */
  function MatchResults(db: Store, tagId: int, keyword: string): Result<SearchResults, SearchError>
  {
    if !IncludeDefined(keyword) then Err(KeywordIndexOutOfRange)
    else
      var included := Include(keyword);
      match GetKeywordSampleIds(db, tagId, keyword, included)
      case Err(e) => Err(e)
      case Ok(ids) => Ok(SearchResults(ids, included))
  }

  /** The keywords a MATCH can look up without throwing. */
  predicate KeywordWellFormed(keyword: string)
  {
    IncludeDefined(keyword) && keyword != "\"-"
  }

  /** MATCH succeeds exactly on the well-formed keywords, and the pushed set
      carries the keyword's polarity. */
  lemma MatchResultsDefined(db: Store, tagId: int, keyword: string)
    ensures MatchResults(db, tagId, keyword).Ok? <==> KeywordWellFormed(keyword)
    ensures MatchResults(db, tagId, keyword).Ok? ==>
              MatchResults(db, tagId, keyword).value.included == Include(keyword)
  {
    if IncludeDefined(keyword) {
      StripKeywordRemovesMarks(keyword);
    }
  }

  /** `and(sr1, sr2)`: with one negative operand, the positive set minus the
      negative one, otherwise the intersection; always an inclusive set. */
  function AndResults(sr1: SearchResults, sr2: SearchResults): (r: SearchResults)
    ensures r.included
    ensures r.values <= sr1.values + sr2.values
  {
    if !sr1.included && sr2.included then ResultsOf(sr2.values - sr1.values)
    else if sr1.included && !sr2.included then ResultsOf(sr1.values - sr2.values)
    else ResultsOf(sr1.values * sr2.values)
  }

  /** `or(sr1, sr2)`: with one negative operand, the positive operand itself,
      otherwise the union as an inclusive set. */
  function OrResults(sr1: SearchResults, sr2: SearchResults): (r: SearchResults)
    ensures r.included
    ensures r.values <= sr1.values + sr2.values
  {
    if !sr1.included && sr2.included then sr2
    else if sr1.included && !sr2.included then sr1
    else ResultsOf(sr1.values + sr2.values)
  }

  /** The samples a result set stands for, out of all the samples `universe`
      of the tag: an inclusive set itself, a negative set its complement. */
  function Denotes(r: SearchResults, universe: set<int>): set<int>
  {
    if r.included then r.values else universe - r.values
  }

  /** Operand order does not matter, so popping the top into `sr1` and the
      next element into `sr2` gives the same result as the reverse. */
  lemma AndOrSymmetric(sr1: SearchResults, sr2: SearchResults)
    ensures AndResults(sr1, sr2) == AndResults(sr2, sr1)
    ensures OrResults(sr1, sr2) == OrResults(sr2, sr1)
  {
  }

  /** When at least one operand is positive, AND is the intersection of what
      the operands stand for. */
  lemma AndMeansIntersection(sr1: SearchResults, sr2: SearchResults, universe: set<int>)
    requires sr1.included || sr2.included
    requires sr1.values <= universe && sr2.values <= universe
    ensures Denotes(AndResults(sr1, sr2), universe) == Denotes(sr1, universe) * Denotes(sr2, universe)
  {
  }

  /** Two negative operands AND to the positive intersection of the excluded
      sets: the samples having both words, none of which lacks either word. */
  lemma AndOfTwoNegatives(sr1: SearchResults, sr2: SearchResults, universe: set<int>)
    requires !sr1.included && !sr2.included
    ensures AndResults(sr1, sr2) == ResultsOf(sr1.values * sr2.values)
    ensures Denotes(AndResults(sr1, sr2), universe) * (Denotes(sr1, universe) * Denotes(sr2, universe)) == {}
  {
  }

  /** With two positive operands OR is the union of what they stand for. */
  lemma OrMeansUnion(sr1: SearchResults, sr2: SearchResults, universe: set<int>)
    requires sr1.included && sr2.included
    ensures Denotes(OrResults(sr1, sr2), universe) == Denotes(sr1, universe) + Denotes(sr2, universe)
  {
  }

  /** With one negative operand OR drops it and answers the positive operand,
      which stands for only part of the intended union. */
  lemma OrDiscardsNegative(sr1: SearchResults, sr2: SearchResults, universe: set<int>)
    requires sr1.included != sr2.included
    ensures OrResults(sr1, sr2) == (if sr1.included then sr1 else sr2)
    ensures Denotes(OrResults(sr1, sr2), universe) <= Denotes(sr1, universe) + Denotes(sr2, universe)
  {
  }

  /** Two negative operands OR to the positive union of the excluded sets. */
  lemma OrOfTwoNegatives(sr1: SearchResults, sr2: SearchResults)
    requires !sr1.included && !sr2.included
    ensures OrResults(sr1, sr2) == ResultsOf(sr1.values + sr2.values)
  {
  }

  /** One element of the queue applied to the stack, whose top is its last
      element. AND and OR pop twice, so they throw on fewer than two sets. */
  function Step(db: Store, tagId: int, stack: seq<SearchResults>, e: SearchStackElement)
    : Result<seq<SearchResults>, SearchError>
  {
    match e.op
    case Match =>
      (match MatchResults(db, tagId, e.text)
       case Err(err) => Err(err)
       case Ok(r) => Ok(stack + [r]))
    case And =>
      if |stack| < 2 then Err(EmptyStackPop)
      else Ok(stack[..|stack| - 2] + [AndResults(stack[|stack| - 1], stack[|stack| - 2])])
    case Or =>
      if |stack| < 2 then Err(EmptyStackPop)
      else Ok(stack[..|stack| - 2] + [OrResults(stack[|stack| - 1], stack[|stack| - 2])])
    case OtherOp => Ok(stack)
  }

  /** The stack after the whole queue, starting from an empty one; the first
      exception ends the run. */
  function Run(db: Store, tagId: int, queue: seq<SearchStackElement>): Result<seq<SearchResults>, SearchError>
    decreases |queue|
  {
    if queue == [] then Ok([])
    else
      match Run(db, tagId, queue[..|queue| - 1])
      case Err(e) => Err(e)
      case Ok(stack) => Step(db, tagId, stack, queue[|queue| - 1])
  }

  /** The ids the final popped set passes on: its values if it is inclusive,
      none at all if it is negative. */
  function FinalIds(results: SearchResults): (ids: set<int>)
    ensures results.included ==> ids == results.values
    ensures !results.included ==> ids == {}
  {
    if results.included then results.values else {}
  }

  /** The sample ids `search` asks `getSamplesTable` for. An empty queue
      skips the evaluator and takes every sample of the tag. */
  function SearchSampleIds(db: Store, tagId: int, queue: seq<SearchStackElement>): Result<set<int>, SearchError>
  {
    if |queue| == 0 then Ok(Database.SetOf(Database.IdsOrEmpty(db.tagSamples(tagId))))
    else
      match Run(db, tagId, queue)
      case Err(e) => Err(e)
      case Ok(stack) => if stack == [] then Err(EmptyStackPop) else Ok(FinalIds(stack[|stack| - 1]))
  }

  /** What `search` returns: the samples query over those ids. */
  function SearchQuery(db: Store, tagId: int, queue: seq<SearchStackElement>, maxCount: int)
    : Result<Database.SamplesQuery, SearchError>
  {
    match SearchSampleIds(db, tagId, queue)
    case Err(e) => Err(e)
    case Ok(ids) => Ok(Database.GetSamplesTable(ids, maxCount))
  }

  /** `search`: a loop over the queue with a sequence as the stack. */
  method Search(db: Store, tagId: int, queue: seq<SearchStackElement>, maxCount: int)
    returns (r: Result<Database.SamplesQuery, SearchError>)
    ensures r == SearchQuery(db, tagId, queue, maxCount)
  {
    if |queue| == 0 {
      var ids := Database.IdsOrEmpty(db.tagSamples(tagId));
      return Ok(Database.GetSamplesTable(Database.SetOf(ids), maxCount));
    }
    var tempStack: seq<SearchResults> := [];
    var i := 0;
    while i < |queue|
      invariant 0 <= i <= |queue|
      invariant Run(db, tagId, queue[..i]) == Ok(tempStack)
    {
      var e := queue[i];
      assert queue[..i + 1][..i] == queue[..i];
      assert queue[..i + 1][i] == e;
      if Step(db, tagId, tempStack, e).Err? {
        RunErrorPersists(db, tagId, queue, i + 1);
      }
      match e.op {
        case Match =>
          var keyword := e.text;
          if !IncludeDefined(keyword) {
            return Err(KeywordIndexOutOfRange);
          }
          var included := Include(keyword);
          var found := GetKeywordSampleIds(db, tagId, keyword, included);
          if found.Err? {
            return Err(found.error);
          }
          tempStack := tempStack + [SearchResults(found.value, included)];
        case And =>
          if |tempStack| < 2 {
            return Err(EmptyStackPop);
          }
          var sr1 := tempStack[|tempStack| - 1];
          var sr2 := tempStack[|tempStack| - 2];
          tempStack := tempStack[..|tempStack| - 2] + [AndResults(sr1, sr2)];
        case Or =>
          if |tempStack| < 2 {
            return Err(EmptyStackPop);
          }
          var sr1 := tempStack[|tempStack| - 1];
          var sr2 := tempStack[|tempStack| - 2];
          tempStack := tempStack[..|tempStack| - 2] + [OrResults(sr1, sr2)];
        case OtherOp =>
      }
      i := i + 1;
    }
    assert queue[..|queue|] == queue;
    if |tempStack| == 0 {
      return Err(EmptyStackPop);
    }
    var results := tempStack[|tempStack| - 1];
    var samples := if results.included then results.values else {};
    r := Ok(Database.GetSamplesTable(samples, maxCount));
  }

  /** The first exception ends the search: the rest of the queue is not
      looked at. */
  lemma {:induction false} RunErrorPersists(db: Store, tagId: int, queue: seq<SearchStackElement>, i: nat)
    requires i <= |queue|
    requires Run(db, tagId, queue[..i]).Err?
    ensures Run(db, tagId, queue) == Run(db, tagId, queue[..i])
    decreases |queue|
  {
    if i < |queue| {
      var init := queue[..|queue| - 1];
      assert init[..i] == queue[..i];
      RunErrorPersists(db, tagId, init, i);
    } else {
      assert queue[..i] == queue;
    }
  }

  /** The change in stack depth an element makes. */
  function Delta(op: SearchOp): int
  {
    match op
    case Match => 1
    case And => -1
    case Or => -1
    case OtherOp => 0
  }

  /** The elements that pop. */
  predicate Pops(op: SearchOp)
  {
    op == And || op == Or
  }

  /** One step: MATCH pushes one set, AND and OR replace the top two by one
      and throw on a shallower stack, other operators change nothing, and
      the stack below the operands is left alone. */
  lemma StepEffect(db: Store, tagId: int, stack: seq<SearchResults>, e: SearchStackElement)
    ensures Pops(e.op) ==> (Step(db, tagId, stack, e).Ok? <==> |stack| >= 2)
    ensures e.op == Match ==> (Step(db, tagId, stack, e).Ok? <==> KeywordWellFormed(e.text))
    ensures e.op == OtherOp ==> Step(db, tagId, stack, e) == Ok(stack)
    ensures Step(db, tagId, stack, e).Ok? ==>
              var s := Step(db, tagId, stack, e).value;
              var kept := if Pops(e.op) then |stack| - 2 else |stack|;
              && |s| == |stack| + Delta(e.op)
              && 0 <= kept <= |s|
              && s[..kept] == stack[..kept]
  {
    MatchResultsDefined(db, tagId, e.text);
  }

  /** The stack depth after a queue when nothing throws. */
  function Depth(queue: seq<SearchStackElement>): int
    decreases |queue|
  {
    if queue == [] then 0 else Depth(queue[..|queue| - 1]) + Delta(queue[|queue| - 1].op)
  }

  /** A queue every prefix of which can run: each MATCH keyword is
      well-formed and each AND or OR finds at least two sets on the stack. */
  predicate WellFormedPrefix(queue: seq<SearchStackElement>)
  {
    forall i | 0 <= i < |queue| ::
      && (queue[i].op == Match ==> KeywordWellFormed(queue[i].text))
      && (Pops(queue[i].op) ==> Depth(queue[..i]) >= 2)
  }

  /** A well-formed postfix query leaves exactly one set. */
  predicate WellFormed(queue: seq<SearchStackElement>)
  {
    WellFormedPrefix(queue) && Depth(queue) == 1
  }

  lemma WellFormedPrefixInit(queue: seq<SearchStackElement>)
    requires queue != []
    ensures WellFormedPrefix(queue) <==>
              && WellFormedPrefix(queue[..|queue| - 1])
              && (queue[|queue| - 1].op == Match ==> KeywordWellFormed(queue[|queue| - 1].text))
              && (Pops(queue[|queue| - 1].op) ==> Depth(queue[..|queue| - 1]) >= 2)
  {
    var init := queue[..|queue| - 1];
    assert forall i | 0 <= i < |init| :: init[i] == queue[i] && init[..i] == queue[..i];
  }

  /** The evaluator throws on a queue exactly when it is not well-formed,
      and otherwise leaves a stack as deep as the queue's depth. */
  lemma {:induction false} RunDefined(db: Store, tagId: int, queue: seq<SearchStackElement>)
    ensures Run(db, tagId, queue).Ok? <==> WellFormedPrefix(queue)
    ensures Run(db, tagId, queue).Ok? ==> |Run(db, tagId, queue).value| == Depth(queue)
    decreases |queue|
  {
    if queue != [] {
      var init := queue[..|queue| - 1];
      RunDefined(db, tagId, init);
      WellFormedPrefixInit(queue);
      if Run(db, tagId, init).Ok? {
        StepEffect(db, tagId, Run(db, tagId, init).value, queue[|queue| - 1]);
      }
    }
  }

  /** A well-formed query never pops an empty stack: it ends with exactly
      one set, the one popped as the result. */
  lemma WellFormedSearchSucceeds(db: Store, tagId: int, queue: seq<SearchStackElement>, maxCount: int)
    requires WellFormed(queue)
    ensures Run(db, tagId, queue).Ok? && |Run(db, tagId, queue).value| == 1
    ensures SearchSampleIds(db, tagId, queue) == Ok(FinalIds(Run(db, tagId, queue).value[0]))
    ensures SearchQuery(db, tagId, queue, maxCount).Ok?
  {
    RunDefined(db, tagId, queue);
  }

  /** A non-empty query succeeds exactly when every prefix can run and at
      least one set is left at the end. */
  lemma SearchFailsOnlyWhenIllFormed(db: Store, tagId: int, queue: seq<SearchStackElement>)
    requires queue != []
    ensures SearchSampleIds(db, tagId, queue).Ok? <==> WellFormedPrefix(queue) && Depth(queue) >= 1
  {
    RunDefined(db, tagId, queue);
  }

  /** An empty query ignores the keyword tables and returns every sample of
      the tag (none when the query returns nothing), limited by `maxCount`. */
  lemma EmptyQueueReturnsTagSamples(db: Store, db': Store, tagId: int, maxCount: int)
    requires db'.tagSamples(tagId) == db.tagSamples(tagId)
    ensures SearchQuery(db, tagId, [], maxCount) == SearchQuery(db', tagId, [], maxCount)
    ensures SearchQuery(db, tagId, [], maxCount).Ok?
    ensures forall x :: x in SearchQuery(db, tagId, [], maxCount).value.ids
                        <==> db.tagSamples(tagId).Some? && x in db.tagSamples(tagId).value
    ensures SearchQuery(db, tagId, [], maxCount).value.LimitedSamples? <==> maxCount > 0
  {
  }
}
