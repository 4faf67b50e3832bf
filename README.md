# edb-http core, modelled in Dafny

This project models the request-side logic of the lab-rdf `edb-http`
experiment-database web service. The model has three parts.

- **Keyword search.** A postfix queue of MATCH, AND and OR elements is
  evaluated on a stack of polarity-tagged sample-id sets (`Search`,
  `SearchResults`).
- **Authentication and authorisation.** This covers:
  - the TOTP same-counter shortcut;
  - the IP allow-list cache with its sticky "blocked" entry;
  - the key cache;
  - the role ranking of users;
  - the memoised per-(user, sample) and per-(user, file) visibility;
  - the `AuthController` status pipeline, with its minimum-role gate in
    front of the request callbacks.

  The modules are `WebAuthentication`, `WebAuth`, `Groups`, `UserTypes`,
  `AuthBeans` and `AuthController`.
- **Small pieces.**
  - The three synchronised in-memory stores (`ConcurrentStores`).
  - The sample-list filters (`Filter`).
  - The request-parameter validators (`Application`).
  - The query-shaping helpers (`Database`).
  - The sample row selection, `parseId` and the experiment-id cache of the
    servlet (`DatabaseServlet`).

Collaborators the service calls but does not implement are fixed
**oracles**: the database, the TOTP library and the key-format check. Each
prepared statement is a total function of its bind values in
`DataStore.Store`, and `DataStore.TotpLibrary` holds the counter and the
code check.

The process-wide ehcache `CacheManager` is one class, `Caches.CacheManager`,
with one map field per named cache. The static Java methods that read and
fill those caches are methods over it. Each method states:
- the answer, as a function of the caches before the call;
- the new cache contents;
- the collaborator calls it made, in order, recorded in a ghost trace
  `calls`.

For the composite checks these three are given by one outcome function on
the caches before the call: `SampleTest`, `AnySampleTest`, `FileTest`,
`ViewableRows`, `Login`, `WebAuth.TotpLogin` and
`AuthController.AuthenticateTrace`. The lemmas are stated about those
functions.

For every cache there is a consistency predicate saying the cache is a
memo of the store. Each method preserves that predicate. Under it, the
method answers what the store implies. A stale memo is replayed as it
stands, so without consistency the answer is the outcome function's and
nothing more.

Where the Java code throws, the model returns an error value:
- a `NumberFormatException`;
- the `NoSuchElementException` of popping an empty stack;
- a `StringIndexOutOfBoundsException` on a keyword;
- the null dereference of unboxing a missing map entry.

The model follows the code as written. In particular,
`WebAuth.validateIPAddress` never answers true on a cache miss: its
`valid` stays false after the query. The login through `AuthController`
therefore succeeds with authentication enabled only from an address
already cached for the user (`WebAuth.FirstAllowedRequestRefused`,
`AuthController.AuthenticateLogin`).

In the table below, every source path is relative to
`edu.columbia.rdf.edb.http/src/main/java/edu/columbia/rdf/edb/http/`, written
out in full in each cell.

## Model

| member | source | states |
|---|---|---|
| Search.EmptyResults | edu.columbia.rdf.edb.http/src/main/java/edu/columbia/rdf/edb/http/SearchResults.java:27-38 | the no-argument constructor gives an empty id collection marked include |
| Search.ResultsOf | edu.columbia.rdf.edb.http/src/main/java/edu/columbia/rdf/edb/http/SearchResults.java:45-47 | the one-argument constructor keeps the ids and always sets include |
| Search.ResultsFieldsKept | edu.columbia.rdf.edb.http/src/main/java/edu/columbia/rdf/edb/http/SearchResults.java:55-77 | the two-argument constructor stores exactly its values and flag, the getters return them, and two results are equal exactly when both fields are |
| Search.Include | edu.columbia.rdf.edb.http/src/main/java/edu/columbia/rdf/edb/http/Search.java:462-468 | a keyword is negative exactly when it starts with '-' or with a quote followed by '-' |
| Search.StripKeywordRemovesMarks | edu.columbia.rdf.edb.http/src/main/java/edu/columbia/rdf/edb/http/Search.java:305-315 | a quoted keyword loses its first and last characters and then a negative one its leading '-'; the stripped word followed by the removed marks gives back the keyword; the only failing keyword is a lone quote and minus |
| Search.GetIds | edu.columbia.rdf.edb.http/src/main/java/edu/columbia/rdf/edb/http/Search.java:357-380 | the value bound for the lookup is the keyword followed by "%", for the exact and the prefix query alike, and a null result is the empty set |
| Search.ExactLookupBindsWildcard | edu.columbia.rdf.edb.http/src/main/java/edu/columbia/rdf/edb/http/Search.java:300-344 | a quoted keyword is looked up with the exact query, with its quotes removed and "%" appended |
| Search.MatchResultsDefined | edu.columbia.rdf.edb.http/src/main/java/edu/columbia/rdf/edb/http/Search.java:165-172 | MATCH succeeds exactly on a well-formed keyword and pushes the looked-up ids tagged with the keyword's polarity |
| Search.AndResults | edu.columbia.rdf.edb.http/src/main/java/edu/columbia/rdf/edb/http/Search.java:212-222 | AND is always marked include and never invents ids |
| Search.OrResults | edu.columbia.rdf.edb.http/src/main/java/edu/columbia/rdf/edb/http/Search.java:233-243 | OR is always marked include and never invents ids |
| Search.AndOrSymmetric | edu.columbia.rdf.edb.http/src/main/java/edu/columbia/rdf/edb/http/Search.java:212-243 | swapping the operands changes neither AND nor OR |
| Search.AndMeansIntersection | edu.columbia.rdf.edb.http/src/main/java/edu/columbia/rdf/edb/http/Search.java:212-222 | with at least one positive operand, AND denotes the intersection of what its operands denote (positive minus negative when exactly one is negative) |
| Search.AndOfTwoNegatives | edu.columbia.rdf.edb.http/src/main/java/edu/columbia/rdf/edb/http/Search.java:212-222 | two negatives AND to the positive intersection of their ids, which shares no id with what both operands denote |
| Search.OrMeansUnion | edu.columbia.rdf.edb.http/src/main/java/edu/columbia/rdf/edb/http/Search.java:233-243 | OR of two positives denotes the union |
| Search.OrDiscardsNegative | edu.columbia.rdf.edb.http/src/main/java/edu/columbia/rdf/edb/http/Search.java:233-243 | OR with exactly one negative operand returns the positive operand itself |
| Search.OrOfTwoNegatives | edu.columbia.rdf.edb.http/src/main/java/edu/columbia/rdf/edb/http/Search.java:233-243 | OR of two negatives is the union of their ids, marked include |
| Search.StepEffect | edu.columbia.rdf.edb.http/src/main/java/edu/columbia/rdf/edb/http/Search.java:155-182 | AND and OR fail exactly on a stack of fewer than two and otherwise lower the depth by one, MATCH raises it by one, other operators change nothing |
| Search.FinalIds | edu.columbia.rdf.edb.http/src/main/java/edu/columbia/rdf/edb/http/Search.java:188-198 | a negative final result yields no sample, a positive one exactly its ids |
| Search.Search | edu.columbia.rdf.edb.http/src/main/java/edu/columbia/rdf/edb/http/Search.java:130-199 | the stack loop returns the samples query of the evaluated queue, an error exactly when the reference evaluation fails |
| Search.RunErrorPersists | edu.columbia.rdf.edb.http/src/main/java/edu/columbia/rdf/edb/http/Search.java:155-182 | once a prefix of the queue fails, the whole queue fails with the same error |
| Search.WellFormedPrefixInit | edu.columbia.rdf.edb.http/src/main/java/edu/columbia/rdf/edb/http/Search.java:155-182 | a queue is well formed up to its end exactly when its initial part is and its last step can run |
| Search.RunDefined | edu.columbia.rdf.edb.http/src/main/java/edu/columbia/rdf/edb/http/Search.java:155-188 | the stack machine succeeds exactly on queues that never pop too early and hold well-formed keywords, leaving a stack of the computed depth |
| Search.WellFormedSearchSucceeds | edu.columbia.rdf.edb.http/src/main/java/edu/columbia/rdf/edb/http/Search.java:155-198 | a well-formed postfix queue leaves exactly one result, whose final ids are what the search returns |
| Search.SearchFailsOnlyWhenIllFormed | edu.columbia.rdf.edb.http/src/main/java/edu/columbia/rdf/edb/http/Search.java:155-198 | a non-empty queue yields ids exactly when it is well formed so far and leaves something to pop |
| Search.EmptyQueueReturnsTagSamples | edu.columbia.rdf.edb.http/src/main/java/edu/columbia/rdf/edb/http/Search.java:135-144 | an empty queue bypasses the stack machine and asks for every sample of the tag, limited exactly when maxCount is positive |
| UserTypes.GetFromId | edu.columbia.rdf.edb.http/src/main/java/edu/columbia/rdf/edb/http/UserType.java:39-47 | type id 4 is SUPERUSER, 3 ADMINISTRATOR and every other id NORMAL |
| UserTypes.GeRank | edu.columbia.rdf.edb.http/src/main/java/edu/columbia/rdf/edb/http/UserType.java:21-29 | a rank is at least another exactly in the declared order NORMAL < ADMINISTRATOR < SUPERUSER |
| UserTypes.GeRankTotalOrder | edu.columbia.rdf.edb.http/src/main/java/edu/columbia/rdf/edb/http/UserType.java:57-59 | the ranking is reflexive, transitive, antisymmetric and total |
| UserTypes.GeRankBounds | edu.columbia.rdf.edb.http/src/main/java/edu/columbia/rdf/edb/http/UserType.java:57-59 | every role is at least NORMAL, none is above SUPERUSER, and only SUPERUSER is at least SUPERUSER |
| AuthBeans.NewWithId | edu.columbia.rdf.edb.http/src/main/java/edu/columbia/rdf/edb/http/AuthBean.java:11-17 | the default status is INVALID_USER and the default role NORMAL |
| AuthBeans.NewWithStatus | edu.columbia.rdf.edb.http/src/main/java/edu/columbia/rdf/edb/http/AuthBean.java:19-23 | the (id, status) constructor sets both and keeps the defaults |
| AuthBeans.NewOfStatus | edu.columbia.rdf.edb.http/src/main/java/edu/columbia/rdf/edb/http/AuthBean.java:25-27 | the status-only constructor gives id -1 |
| AuthBeans.NewOfKey | edu.columbia.rdf.edb.http/src/main/java/edu/columbia/rdf/edb/http/AuthBean.java:29-31 | the (key, status) constructor gives id -1 and keeps the key |
| AuthBeans.NewWithKey | edu.columbia.rdf.edb.http/src/main/java/edu/columbia/rdf/edb/http/AuthBean.java:33-37 | the (id, key, status) constructor sets the three fields and keeps the role NORMAL |
| AuthBeans.NewSuccess | edu.columbia.rdf.edb.http/src/main/java/edu/columbia/rdf/edb/http/AuthBean.java:39-44 | the (id, key, role) constructor means SUCCESS with that role |
| AuthBeans.InvalidKeyFormatBean | edu.columbia.rdf.edb.http/src/main/java/edu/columbia/rdf/edb/http/AuthBean.java:67-69 | INVALID_KEY_FORMAT, id -1, role NORMAL, the key kept |
| AuthBeans.ValidKeyFormatBean | edu.columbia.rdf.edb.http/src/main/java/edu/columbia/rdf/edb/http/AuthBean.java:71-73 | VALID_KEY_FORMAT, id -1, role NORMAL, the key kept |
| AuthBeans.InvalidUserBean | edu.columbia.rdf.edb.http/src/main/java/edu/columbia/rdf/edb/http/AuthBean.java:75-77 | INVALID_USER, id -1, role NORMAL, the key kept |
| AuthBeans.OnlySuccessCarriesRole | edu.columbia.rdf.edb.http/src/main/java/edu/columbia/rdf/edb/http/AuthBean.java:15-44 | every constructor except the success one leaves the role NORMAL, and no other bean equals a success bean |
| Groups.UserGroups | edu.columbia.rdf.edb.http/src/main/java/edu/columbia/rdf/edb/http/Groups.java:95-116 | a hit returns the cached ids without a query; a miss queries the user's groups once and stores them under the user; the cache stays a memo of the store |
| Groups.SampleGroups | edu.columbia.rdf.edb.http/src/main/java/edu/columbia/rdf/edb/http/Groups.java:183-186 | every call queries the sample's groups; nothing is cached |
| Groups.UserInSampleGroupIds | edu.columbia.rdf.edb.http/src/main/java/edu/columbia/rdf/edb/http/Groups.java:235-238 | true exactly when some group of the user is a group of the sample |
| Groups.UserInSampleGroups | edu.columbia.rdf.edb.http/src/main/java/edu/columbia/rdf/edb/http/Groups.java:215-226 | the collection test applied to the user's cached groups and the sample's queried ones, with the cache effect and the calls of both lookups |
| Groups.SampleIsInGroups | edu.columbia.rdf.edb.http/src/main/java/edu/columbia/rdf/edb/http/Groups.java:154-158 | true exactly when the matching row count is positive |
| Groups.SampleIsInGroup | edu.columbia.rdf.edb.http/src/main/java/edu/columbia/rdf/edb/http/Groups.java:169-173 | true exactly when the matching row count is positive |
| Groups.SampleIsInGroupsAgrees | edu.columbia.rdf.edb.http/src/main/java/edu/columbia/rdf/edb/http/Groups.java:154-186 | when the count query counts the sample's requested groups, the count test and the set test agree |
| Groups.SampleIsInGroupAgrees | edu.columbia.rdf.edb.http/src/main/java/edu/columbia/rdf/edb/http/Groups.java:169-186 | when the count query counts the one group, the test is membership of the group among the sample's groups |
| WebAuthentication.GetUserType | edu.columbia.rdf.edb.http/src/main/java/edu/columbia/rdf/edb/http/WebAuthentication.java:722-754 | a hit returns the memoised role without a query; a miss decodes the queried type id and memoises it; the memo stays consistent |
| WebAuthentication.IsAdminOrSuperIsRank | edu.columbia.rdf.edb.http/src/main/java/edu/columbia/rdf/edb/http/WebAuthentication.java:675-679 | being ADMINISTRATOR or SUPERUSER is having at least the ADMINISTRATOR rank |
| WebAuthentication.GetIsAdminOrSuper | edu.columbia.rdf.edb.http/src/main/java/edu/columbia/rdf/edb/http/WebAuthentication.java:675-679 | true exactly for the two privileged roles of the memoised role lookup |
| WebAuthentication.CanViewSample | edu.columbia.rdf.edb.http/src/main/java/edu/columbia/rdf/edb/http/WebAuthentication.java:407-445 | privileged roles see every sample without touching the view memo; otherwise a memoised decision is replayed or the group test runs once and its answer is stored; with consistent memos the answer is what the store implies |
| WebAuthentication.SampleTestMemoised | edu.columbia.rdf.edb.http/src/main/java/edu/columbia/rdf/edb/http/WebAuthentication.java:425-442 | a second sample test right after the first gives the same answer and leaves the memos as they are, with no call |
| WebAuthentication.SampleTestConsistent | edu.columbia.rdf.edb.http/src/main/java/edu/columbia/rdf/edb/http/WebAuthentication.java:415-442 | on consistent memos the sample test keeps them consistent and answers what the store implies |
| WebAuthentication.SampleTestAfterRole | edu.columbia.rdf.edb.http/src/main/java/edu/columbia/rdf/edb/http/WebAuthentication.java:415-442 | without privilege, the sample test is the role lookup followed by the memo part, its calls first |
| WebAuthentication.SampleViewLookup | edu.columbia.rdf.edb.http/src/main/java/edu/columbia/rdf/edb/http/WebAuthentication.java:414-444 | the memo part of the sample test: replay, or compute and store in the user's inner map, creating it on first use |
| WebAuthentication.SampleViewsUpdate | edu.columbia.rdf.edb.http/src/main/java/edu/columbia/rdf/edb/http/WebAuthentication.java:440-442 | storing a decision that agrees with the store keeps the sample-view memo consistent |
| WebAuthentication.CanViewSampleAs | edu.columbia.rdf.edb.http/src/main/java/edu/columbia/rdf/edb/http/WebAuthentication.java:359-367 | the isAdmin flag admits without any lookup; otherwise the sample test decides, the experiment id being unused |
| WebAuthentication.CanViewExperimentSample | edu.columbia.rdf.edb.http/src/main/java/edu/columbia/rdf/edb/http/WebAuthentication.java:335-339 | the experiment overload answers the same as the sample test |
| WebAuthentication.CanViewAnySample | edu.columbia.rdf.edb.http/src/main/java/edu/columbia/rdf/edb/http/WebAuthentication.java:382-391 | the answer, the memos and the calls are those of the list test over the memos before the call, which stops at the first viewable sample; with consistent memos they stay consistent and the answer is true exactly when some sample of the list is viewable |
| WebAuthentication.AnySampleTestNext | edu.columbia.rdf.edb.http/src/main/java/edu/columbia/rdf/edb/http/WebAuthentication.java:384-388 | while no sample has been found viewable, the next one is tested on the current memos: its answer and memos are taken and its calls appended |
| WebAuthentication.AnySampleTestStops | edu.columbia.rdf.edb.http/src/main/java/edu/columbia/rdf/edb/http/WebAuthentication.java:385-387 | once a sample is viewable the loop returns: going further down the list changes neither the answer, nor the memos, nor the calls |
| WebAuthentication.AnySampleTestKeepsConsistent | edu.columbia.rdf.edb.http/src/main/java/edu/columbia/rdf/edb/http/WebAuthentication.java:382-391 | testing the samples in turn keeps consistent memos consistent |
| WebAuthentication.SomeViewableStep | edu.columbia.rdf.edb.http/src/main/java/edu/columbia/rdf/edb/http/WebAuthentication.java:384-388 | some sample among the first n is viewable exactly when one among the first n - 1 is or the n-th is |
| WebAuthentication.AnySampleTestAnswerStep | edu.columbia.rdf.edb.http/src/main/java/edu/columbia/rdf/edb/http/WebAuthentication.java:384-388 | on consistent memos the test over n samples answers true exactly when the test over n - 1 did or the n-th sample is viewable |
| WebAuthentication.AnySampleTestAnswer | edu.columbia.rdf.edb.http/src/main/java/edu/columbia/rdf/edb/http/WebAuthentication.java:382-391 | on consistent memos the test over the first n samples answers true exactly when one of them is viewable |
| WebAuthentication.AnySampleTestConsistentIf | edu.columbia.rdf.edb.http/src/main/java/edu/columbia/rdf/edb/http/WebAuthentication.java:382-391 | for the whole list: consistent memos stay consistent and the answer is true exactly when some sample is viewable |
| WebAuthentication.PrivilegedTestsKeepViews | edu.columbia.rdf.edb.http/src/main/java/edu/columbia/rdf/edb/http/WebAuthentication.java:382-417 | for a privileged role a non-empty list is viewable after the role lookup alone, with the view memo untouched |
| WebAuthentication.AnyViewableWithoutPrivilege | edu.columbia.rdf.edb.http/src/main/java/edu/columbia/rdf/edb/http/WebAuthentication.java:382-391 | for a non-privileged user some sample is viewable exactly when the user shares a group with one of them |
| WebAuthentication.VfsSamples | edu.columbia.rdf.edb.http/src/main/java/edu/columbia/rdf/edb/http/WebAuthentication.java:592-655 | the file's samples come from one uncached query |
| WebAuthentication.GetCanViewFile | edu.columbia.rdf.edb.http/src/main/java/edu/columbia/rdf/edb/http/WebAuthentication.java:592-655 | privileged roles see every file; otherwise a memoised answer is replayed, or the answer over the file's samples is stored, true or false, per (user, file) |
| WebAuthentication.FileViewLookup | edu.columbia.rdf.edb.http/src/main/java/edu/columbia/rdf/edb/http/WebAuthentication.java:592-655 | the memo part of the file test: replay or compute and store |
| WebAuthentication.FileTestMemoised | edu.columbia.rdf.edb.http/src/main/java/edu/columbia/rdf/edb/http/WebAuthentication.java:592-655 | a second file test right after the first gives the same answer and leaves the memos as they are, with no call |
| WebAuthentication.FileLookupConsistentIf | edu.columbia.rdf.edb.http/src/main/java/edu/columbia/rdf/edb/http/WebAuthentication.java:592-655 | for a user without privilege and consistent memos, the memo part keeps them consistent and answers whether the user shares a group with one of the file's samples |
| WebAuthentication.FileTestConsistentIf | edu.columbia.rdf.edb.http/src/main/java/edu/columbia/rdf/edb/http/WebAuthentication.java:592-655 | on consistent memos the file test keeps them consistent and answers what the store implies |
| WebAuthentication.FileViewsUpdate | edu.columbia.rdf.edb.http/src/main/java/edu/columbia/rdf/edb/http/WebAuthentication.java:592-655 | storing an answer that agrees with the store keeps the file-view memo consistent |
| WebAuthentication.ValidateIpAddress | edu.columbia.rdf.edb.http/src/main/java/edu/columbia/rdf/edb/http/WebAuthentication.java:1062-1106 | "blocked" refuses and a matching cached address accepts, both without a query; otherwise the allow-list decides and the address or "blocked" is cached; an accepted address is one the store allows |
| WebAuthentication.IpValidSound | edu.columbia.rdf.edb.http/src/main/java/edu/columbia/rdf/edb/http/WebAuthentication.java:1062-1106 | with a sound cache every accepted address is allowed, and the cache stays sound |
| WebAuthentication.IpValidComplete | edu.columbia.rdf.edb.http/src/main/java/edu/columbia/rdf/edb/http/WebAuthentication.java:1062-1106 | a user who is not blocked is accepted from any allowed address |
| WebAuthentication.BlockIsSticky | edu.columbia.rdf.edb.http/src/main/java/edu/columbia/rdf/edb/http/WebAuthentication.java:1074-1105 | once blocked, every later check fails whatever the address, and the cache keeps the marker |
| WebAuthentication.RefusalBlocks | edu.columbia.rdf.edb.http/src/main/java/edu/columbia/rdf/edb/http/WebAuthentication.java:1099-1105 | one refused address blocks the user, so a later allowed address is still refused |
| WebAuthentication.GetKey | edu.columbia.rdf.edb.http/src/main/java/edu/columbia/rdf/edb/http/WebAuthentication.java:1021-1042 | a hit returns the cached key, a cached null included, without a query; a miss queries and caches the answer |
| WebAuthentication.TotpAuth | edu.columbia.rdf.edb.http/src/main/java/edu/columbia/rdf/edb/http/WebAuthentication.java:911-950 | inside the cached counter frame the answer is true without the code check; otherwise the check decides and only an accepted code stores the counter |
| WebAuthentication.TotpFrameReplay | edu.columbia.rdf.edb.http/src/main/java/edu/columbia/rdf/edb/http/WebAuthentication.java:938-949 | after an accepted code, every request in the same time step is accepted with any key and code |
| WebAuthentication.TotpRejectionKeepsCache | edu.columbia.rdf.edb.http/src/main/java/edu/columbia/rdf/edb/http/WebAuthentication.java:942-949 | a rejected code leaves the counter cache unchanged |
| WebAuthentication.StrictTotpAuthUser | edu.columbia.rdf.edb.http/src/main/java/edu/columbia/rdf/edb/http/WebAuthentication.java:850-875 | the answer, the IP, key and counter caches and the calls are those of the login outcome with the WebAuthentication address test; the answer is the strict check; sound caches stay sound and a login implies an allowed address and a usable key |
| WebAuthentication.Login | edu.columbia.rdf.edb.http/src/main/java/edu/columbia/rdf/edb/http/WebAuthentication.java:850-875 | a login needs a user other than -1, an accepted address and a usable key; user -1 or a refused address leave the key and counter caches as they were; a refusal stores no counter |
| WebAuthentication.LoginCallOrder | edu.columbia.rdf.edb.http/src/main/java/edu/columbia/rdf/edb/http/WebAuthentication.java:850-875 | at most three calls in the order IP query, key query, code check: the key query only after an accepted address and on a key-cache miss, the code check last and only with a usable key, on that key |
| WebAuthentication.LoginAnswer | edu.columbia.rdf.edb.http/src/main/java/edu/columbia/rdf/edb/http/WebAuthentication.java:850-875 | with the WebAuthentication address test the login outcome answers as the strict check |
| WebAuthentication.LoginSound | edu.columbia.rdf.edb.http/src/main/java/edu/columbia/rdf/edb/http/WebAuthentication.java:850-875 | sound IP and key caches stay sound, and a login implies an allowed address and a usable key in the store |
| WebAuthentication.TotpAuthUser | edu.columbia.rdf.edb.http/src/main/java/edu/columbia/rdf/edb/http/WebAuthentication.java:799-807 | with "auth-enabled" unset every user passes and no cache changes; otherwise the strict check decides |
| WebAuth.ValidateIpAddress | edu.columbia.rdf.edb.http/src/main/java/edu/columbia/rdf/edb/http/WebAuth.java:58-93 | true exactly when the cached address is the request address; a miss or mismatch is refused, with the cache updated as the allow-list says |
| WebAuth.CachedMatchIsIpValid | edu.columbia.rdf.edb.http/src/main/java/edu/columbia/rdf/edb/http/WebAuth.java:62-92 | WebAuth accepts no address that WebAuthentication would refuse |
| WebAuth.FirstAllowedRequestRefused | edu.columbia.rdf.edb.http/src/main/java/edu/columbia/rdf/edb/http/WebAuth.java:62-92 | the first request from an allowed, uncached address is refused, and the repeated request is accepted |
| WebAuth.StrictAsWrittenImpliesStrict | edu.columbia.rdf.edb.http/src/main/java/edu/columbia/rdf/edb/http/WebAuth.java:196-221 | every WebAuth login is also a WebAuthentication login |
| WebAuth.StrictTotpAuthUser | edu.columbia.rdf.edb.http/src/main/java/edu/columbia/rdf/edb/http/WebAuth.java:196-221 | the answer, the IP, key and counter caches and the calls are those of the login outcome with the cached-match address test; user -1, a refused address, then a null or empty key are refused in that order before the TOTP check; no login without a cached matching address |
| WebAuth.LoginAnswerAsWritten | edu.columbia.rdf.edb.http/src/main/java/edu/columbia/rdf/edb/http/WebAuth.java:196-221 | with the cached-match address test the login outcome answers as WebAuth's strict check |
| WebAuth.LoginAsWrittenSound | edu.columbia.rdf.edb.http/src/main/java/edu/columbia/rdf/edb/http/WebAuth.java:196-221 | with sound caches the cached-match login keeps them sound, and a login implies an allowed address and a usable key |
| WebAuth.TotpAuthUser | edu.columbia.rdf.edb.http/src/main/java/edu/columbia/rdf/edb/http/WebAuth.java:149-157 | with authentication disabled every user passes with no call and no cache change; otherwise the caches and calls are those of WebAuth's strict check |
| WebAuth.TotpLogin | edu.columbia.rdf.edb.http/src/main/java/edu/columbia/rdf/edb/http/WebAuth.java:149-157 | authentication disabled passes every user with no call and no cache change; enabled, a login needs the user's address already cached |
| WebAuth.SantizeUser | edu.columbia.rdf.edb.http/src/main/java/edu/columbia/rdf/edb/http/WebAuth.java:331-337 | the input exactly when all of it matches [a-z0-9]+, otherwise the empty string |
| WebAuth.SantizeUserIdempotent | edu.columbia.rdf.edb.http/src/main/java/edu/columbia/rdf/edb/http/WebAuth.java:41 | sanitising twice is sanitising once |
| AuthController.RoleOf | edu.columbia.rdf.edb.http/src/main/java/edu/columbia/rdf/edb/http/AuthController.java:72-83 | ADMINISTRATOR if isAdmin, else SUPERUSER if isSuper, else NORMAL |
| AuthController.AuthenticateStatuses | edu.columbia.rdf.edb.http/src/main/java/edu/columbia/rdf/edb/http/AuthController.java:53-87 | INVALID_KEY_FORMAT exactly for malformed keys, INVALID_USER exactly for unowned keys, SUCCESS or INVALID_TOTP for owned keys carrying the owner's id |
| AuthController.AuthenticateRole | edu.columbia.rdf.edb.http/src/main/java/edu/columbia/rdf/edb/http/AuthController.java:72-86 | a success carries the owner's role and every other reply is NORMAL |
| AuthController.AuthenticateLogin | edu.columbia.rdf.edb.http/src/main/java/edu/columbia/rdf/edb/http/AuthController.java:69-71 | with authentication off every owned key succeeds; with it on, a success needs the owner's address cached and a usable key |
| AuthController.Authenticate | edu.columbia.rdf.edb.http/src/main/java/edu/columbia/rdf/edb/http/AuthController.java:53-87 | the bean of the pipeline, with the login caches and calls of the trace; a malformed key changes nothing |
| AuthController.AuthenticateTrace | edu.columbia.rdf.edb.http/src/main/java/edu/columbia/rdf/edb/http/AuthController.java:53-87 | succeeds exactly when the status pipeline says SUCCESS; a malformed key makes no call and changes no cache; a well-formed key starts with the owner lookup, and an unowned key stops there |
| AuthController.GateByRank | edu.columbia.rdf.edb.http/src/main/java/edu/columbia/rdf/edb/http/AuthController.java:131-181 | the NORMAL gate admits every success, ADMINISTRATOR the privileged ones, SUPERUSER only superusers |
| AuthController.GatedList | edu.columbia.rdf.edb.http/src/main/java/edu/columbia/rdf/edb/http/AuthController.java:131-147 | the callback's list exactly when the bean is SUCCESS with a role at least the minimum, otherwise the empty list |
| AuthController.GatedValue | edu.columbia.rdf.edb.http/src/main/java/edu/columbia/rdf/edb/http/AuthController.java:165-181 | the callback's value under the same gate, otherwise null |
| AuthController.AuthenticateList | edu.columbia.rdf.edb.http/src/main/java/edu/columbia/rdf/edb/http/AuthController.java:131-147 | the gated list of the authentication outcome |
| AuthController.AuthenticateListAnyRole | edu.columbia.rdf.edb.http/src/main/java/edu/columbia/rdf/edb/http/AuthController.java:102-116 | any success reaches the list callback |
| AuthController.AuthenticateValue | edu.columbia.rdf.edb.http/src/main/java/edu/columbia/rdf/edb/http/AuthController.java:165-181 | the gated value of the authentication outcome |
| AuthController.AuthenticateValueAnyRole | edu.columbia.rdf.edb.http/src/main/java/edu/columbia/rdf/edb/http/AuthController.java:149-163 | any success reaches the value callback |
| AuthController.AuthString | edu.columbia.rdf.edb.http/src/main/java/edu/columbia/rdf/edb/http/AuthController.java:196-211 | the callback's string for a success, with null and refusal read as "" |
| AuthController.ApiKey | edu.columbia.rdf.edb.http/src/main/java/edu/columbia/rdf/edb/http/AuthController.java:30-51 | [INVALID_KEY_FORMAT] without a lookup for a malformed key, else [VALID_KEY_FORMAT, VALID_USER or INVALID_USER]; every bean has id -1, role NORMAL and the key |
| Filter.ByTypes | edu.columbia.rdf.edb.http/src/main/java/edu/columbia/rdf/edb/http/Filter.java:42-59 | an in-order sub-list holding exactly the samples of the requested types, all of them for a null or empty request |
| Filter.FilterByTypes | edu.columbia.rdf.edb.http/src/main/java/edu/columbia/rdf/edb/http/Filter.java:42-59 | the loop builds that list, and returns the input itself for a null or empty request |
| Filter.ByOrganisms | edu.columbia.rdf.edb.http/src/main/java/edu/columbia/rdf/edb/http/Filter.java:61-78 | the same rule on the organism id |
| Filter.FilterByOrganisms | edu.columbia.rdf.edb.http/src/main/java/edu/columbia/rdf/edb/http/Filter.java:61-78 | the loop builds that list |
| Filter.ByGroupsKeeps | edu.columbia.rdf.edb.http/src/main/java/edu/columbia/rdf/edb/http/Filter.java:103-154 | all mode keeps exactly the samples holding every requested group (the user's own for an empty request) and fails on null; any mode keeps exactly those with some requested group, or everything for a null or empty request; in order and never duplicated |
| Filter.AllModeWithoutGroupsKeepsAll | edu.columbia.rdf.edb.http/src/main/java/edu/columbia/rdf/edb/http/Filter.java:114-117 | an empty all-mode request from a user in no group keeps every sample |
| Filter.BelongsToAll | edu.columbia.rdf.edb.http/src/main/java/edu/columbia/rdf/edb/http/Filter.java:119-130 | the early-exit inner loop is true exactly when every requested group is a group of the sample |
| Filter.BelongsToAny | edu.columbia.rdf.edb.http/src/main/java/edu/columbia/rdf/edb/http/Filter.java:143-150 | the early-exit inner loop is true exactly when some group of the sample is requested |
| Filter.FilterByGroups | edu.columbia.rdf.edb.http/src/main/java/edu/columbia/rdf/edb/http/Filter.java:80-154 | the loop computes the group filter of both modes |
| ConcurrentStores.IdPutThenGet | edu.columbia.rdf.edb.http/src/main/java/edu/columbia/rdf/edb/http/ConcurrentIdStore.java:40-80 | after put the pair is present with the stored flag |
| ConcurrentStores.IdPutFrame | edu.columbia.rdf.edb.http/src/main/java/edu/columbia/rdf/edb/http/ConcurrentIdStore.java:40-46 | put changes no other pair's membership, and no other get except that other ids under a new key id go from false to throwing |
| ConcurrentStores.IdGetDefined | edu.columbia.rdf.edb.http/src/main/java/edu/columbia/rdf/edb/http/ConcurrentIdStore.java:57-80 | get throws exactly for a known key id with an unknown id, and contains and get are false for an absent key id |
| ConcurrentStores.ConcurrentIdStore.Put | edu.columbia.rdf.edb.http/src/main/java/edu/columbia/rdf/edb/http/ConcurrentIdStore.java:40-46 | the map after put creates the inner map for a new key id and sets the id |
| ConcurrentStores.ConcurrentIdStore.Contains | edu.columbia.rdf.edb.http/src/main/java/edu/columbia/rdf/edb/http/ConcurrentIdStore.java:57-63 | the key id is present and its inner map holds the id |
| ConcurrentStores.ConcurrentIdStore.Get | edu.columbia.rdf.edb.http/src/main/java/edu/columbia/rdf/edb/http/ConcurrentIdStore.java:74-80 | false for an absent key id, the flag when stored, the unboxing failure otherwise |
| ConcurrentStores.ConcurrentIdStore.Clear | edu.columbia.rdf.edb.http/src/main/java/edu/columbia/rdf/edb/http/ConcurrentIdStore.java:88-90 | after clear no pair is contained |
| ConcurrentStores.AuthPutThenGet | edu.columbia.rdf.edb.http/src/main/java/edu/columbia/rdf/edb/http/ConcurrentAuthenticationStore.java:40-83 | after put the pair is present with that person id, and every other pair reads as before |
| ConcurrentStores.AuthGetNeedsContains | edu.columbia.rdf.edb.http/src/main/java/edu/columbia/rdf/edb/http/ConcurrentAuthenticationStore.java:57-83 | get yields a person id exactly when contains holds, and an absent key is never contained |
| ConcurrentStores.ConcurrentAuthenticationStore.Put | edu.columbia.rdf.edb.http/src/main/java/edu/columbia/rdf/edb/http/ConcurrentAuthenticationStore.java:40-46 | the map after put |
| ConcurrentStores.ConcurrentAuthenticationStore.Contains | edu.columbia.rdf.edb.http/src/main/java/edu/columbia/rdf/edb/http/ConcurrentAuthenticationStore.java:57-63 | the key is present and its inner map holds the address |
| ConcurrentStores.ConcurrentAuthenticationStore.Get | edu.columbia.rdf.edb.http/src/main/java/edu/columbia/rdf/edb/http/ConcurrentAuthenticationStore.java:77-83 | the stored person id, or the failure of the unchecked lookup |
| ConcurrentStores.ConcurrentAuthenticationStore.Clear | edu.columbia.rdf.edb.http/src/main/java/edu/columbia/rdf/edb/http/ConcurrentAuthenticationStore.java:91-93 | after clear no pair is contained |
| ConcurrentStores.KvPutThenGet | edu.columbia.rdf.edb.http/src/main/java/edu/columbia/rdf/edb/http/ConcurrentKeyValueStore.java:39-65 | a null put changes nothing; a non-null put makes the key present with that value and leaves every other key as it was |
| ConcurrentStores.KvGetAbsent | edu.columbia.rdf.edb.http/src/main/java/edu/columbia/rdf/edb/http/ConcurrentKeyValueStore.java:53-65 | get is null exactly for the absent keys |
| ConcurrentStores.ConcurrentKeyValueStore.Put | edu.columbia.rdf.edb.http/src/main/java/edu/columbia/rdf/edb/http/ConcurrentKeyValueStore.java:39-45 | the map after the null-ignoring put |
| ConcurrentStores.ConcurrentKeyValueStore.Contains | edu.columbia.rdf.edb.http/src/main/java/edu/columbia/rdf/edb/http/ConcurrentKeyValueStore.java:53-55 | the key is present |
| ConcurrentStores.ConcurrentKeyValueStore.Get | edu.columbia.rdf.edb.http/src/main/java/edu/columbia/rdf/edb/http/ConcurrentKeyValueStore.java:63-65 | the stored value or null |
| ConcurrentStores.ConcurrentKeyValueStore.Clear | edu.columbia.rdf.edb.http/src/main/java/edu/columbia/rdf/edb/http/ConcurrentKeyValueStore.java:71-73 | after clear no key is contained |
| Application.IsValidId | edu.columbia.rdf.edb.http/src/main/java/edu/columbia/rdf/edb/http/Application.java:93-99 | false for null, otherwise true exactly for a non-empty string of letters, digits, '_', '-', '.' and '%' |
| Application.IsValidNumericalId | edu.columbia.rdf.edb.http/src/main/java/edu/columbia/rdf/edb/http/Application.java:137-139 | true exactly for zero to twenty decimal digits, the empty string included |
| Application.NumericalIdsAreIds | edu.columbia.rdf.edb.http/src/main/java/edu/columbia/rdf/edb/http/Application.java:70-74 | every non-empty numerical id is a textual id |
| Application.ParseInt | edu.columbia.rdf.edb.http/src/main/java/edu/columbia/rdf/edb/http/Application.java:113 | every parsed value is a 32-bit integer |
| Application.ParseIntToString | edu.columbia.rdf.edb.http/src/main/java/edu/columbia/rdf/edb/http/Application.java:113 | parsing undoes printing on every 32-bit integer |
| Application.ValidateId | edu.columbia.rdf.edb.http/src/main/java/edu/columbia/rdf/edb/http/Application.java:109-115 | the result is -1 or a non-negative 32-bit integer |
| Application.ValidateIdOutcomes | edu.columbia.rdf.edb.http/src/main/java/edu/columbia/rdf/edb/http/Application.java:109-115 | -1 exactly for non-numerical ids, an exception exactly for the empty string and values above 2^31 - 1, otherwise the number the digits denote |
| Application.ValidateIdRoundTrip | edu.columbia.rdf.edb.http/src/main/java/edu/columbia/rdf/edb/http/Application.java:109-115 | every non-negative 32-bit id comes back from validateId unchanged |
| Application.ValidateGeoAccession | edu.columbia.rdf.edb.http/src/main/java/edu/columbia/rdf/edb/http/Application.java:123-129 | the input exactly when it is 'G', two capital letters and one or more digits, otherwise null |
| Application.GeoAccessionIsId | edu.columbia.rdf.edb.http/src/main/java/edu/columbia/rdf/edb/http/Application.java:76-77 | every accession is also a textual id |
| Database.GetSamplesTable | edu.columbia.rdf.edb.http/src/main/java/edu/columbia/rdf/edb/http/Database.java:883-891 | the LIMIT query exactly when maxCount is positive, over the given ids, with maxCount as the limit |
| Database.SetOf | edu.columbia.rdf.edb.http/src/main/java/edu/columbia/rdf/edb/http/Database.java:883-891 | the ids bound as an array, as a set with the same members |
| Database.ExtractInt | edu.columbia.rdf.edb.http/src/main/java/edu/columbia/rdf/edb/http/Database.java:91-97 | the first row's column, or -1 without a row |
| Database.ExtractString | edu.columbia.rdf.edb.http/src/main/java/edu/columbia/rdf/edb/http/Database.java:99-105 | the first row's column, or "" without a row |
| Database.IdsOrEmpty | edu.columbia.rdf.edb.http/src/main/java/edu/columbia/rdf/edb/http/Database.java:327-331 | the id list helpers return the empty list rather than null |
| Database.IdSetOrEmpty | edu.columbia.rdf.edb.http/src/main/java/edu/columbia/rdf/edb/http/Database.java:466-488 | the id set helpers return the empty set rather than null |
| Database.TypeSqlNamesTable | edu.columbia.rdf.edb.http/src/main/java/edu/columbia/rdf/edb/http/Database.java:855-872 | the built statement starts with "SELECT " followed by the table name, and has length 4 times the name plus 38 |
| Database.TypeSqlInjective | edu.columbia.rdf.edb.http/src/main/java/edu/columbia/rdf/edb/http/Database.java:855-872 | different tables never share a statement |
| Database.TypeSqlCache.constructor | edu.columbia.rdf.edb.http/src/main/java/edu/columbia/rdf/edb/http/Database.java:852-853 | the memo starts empty and consistent |
| Database.TypeSqlCache.GetTypeSql | edu.columbia.rdf.edb.http/src/main/java/edu/columbia/rdf/edb/http/Database.java:855-872 | the first request builds and stores the statement, later ones return it unchanged, no other entry changes, and a consistent memo returns the statement for the table |
| DatabaseServlet.RowSelectionRule | edu.columbia.rdf.edb.http/src/main/java/edu/columbia/rdf/edb/http/DatabaseServlet.java:684-712 | a row is emitted exactly when the user is privileged or shares a group with the sample, and it passes the non-empty type and organism filters; rows keep table order, each at most once |
| DatabaseServlet.DefaultFiltersOnlyVisibility | edu.columbia.rdf.edb.http/src/main/java/edu/columbia/rdf/edb/http/DatabaseServlet.java:144-147 | the empty type and organism sets filter nothing, so a privileged user gets every row |
| DatabaseServlet.SampleGroupsCalls | edu.columbia.rdf.edb.http/src/main/java/edu/columbia/rdf/edb/http/DatabaseServlet.java:688-695 | one sample-groups query per row, in table order |
| DatabaseServlet.SelectRows | edu.columbia.rdf.edb.http/src/main/java/edu/columbia/rdf/edb/http/DatabaseServlet.java:688-769 | the row loop emits the selected rows and queries each row's groups |
| DatabaseServlet.ProcessSamples | edu.columbia.rdf.edb.http/src/main/java/edu/columbia/rdf/edb/http/DatabaseServlet.java:677-770 | the rows follow the selection rule for the memoised role and groups, with the role and group cache effects; with consistent memos, for the store's role and groups |
| DatabaseServlet.ProcessAllSamples | edu.columbia.rdf.edb.http/src/main/java/edu/columbia/rdf/edb/http/DatabaseServlet.java:654-664 | the default overload selects on visibility alone |
| DatabaseServlet.ProcessViewableSamples | edu.columbia.rdf.edb.http/src/main/java/edu/columbia/rdf/edb/http/DatabaseServlet.java:1846-1884 | the rows, memos and calls are those of the row test over the memos before the call, with the sample test on each row in table order; the rows are an in-order sub-list of the table; with consistent memos they stay consistent and the rows are exactly the viewable ones |
| DatabaseServlet.ViewableRowsSubsequence | edu.columbia.rdf.edb.http/src/main/java/edu/columbia/rdf/edb/http/DatabaseServlet.java:1846-1884 | the rows kept are an in-order sub-list of the table |
| DatabaseServlet.ViewableRowsConsistent | edu.columbia.rdf.edb.http/src/main/java/edu/columbia/rdf/edb/http/DatabaseServlet.java:1846-1884 | on consistent memos the memos stay consistent and the rows kept are exactly those whose sample is viewable |
| DatabaseServlet.ViewableRowsConsistentIf | edu.columbia.rdf.edb.http/src/main/java/edu/columbia/rdf/edb/http/DatabaseServlet.java:1846-1884 | the same, stated for any memos with consistency as its premise |
| DatabaseServlet.PrivilegedSeesAllRows | edu.columbia.rdf.edb.http/src/main/java/edu/columbia/rdf/edb/http/DatabaseServlet.java:1846-1884 | a privileged user keeps every row |
| DatabaseServlet.GetExperimentId | edu.columbia.rdf.edb.http/src/main/java/edu/columbia/rdf/edb/http/DatabaseServlet.java:233-260 | a hit returns the cached id without a query; a miss queries and caches the answer, -1 included |
| DatabaseServlet.ParseId | edu.columbia.rdf.edb.http/src/main/java/edu/columbia/rdf/edb/http/DatabaseServlet.java:1774-1784 | -1 when parsing fails, the parsed int otherwise |
| DatabaseServlet.ParseIdRoundTrip | edu.columbia.rdf.edb.http/src/main/java/edu/columbia/rdf/edb/http/DatabaseServlet.java:1774-1784 | every printed 32-bit integer parses back to itself |
| DatabaseServlet.AuthenticateKey | edu.columbia.rdf.edb.http/src/main/java/edu/columbia/rdf/edb/http/DatabaseServlet.java:1795-1800 | always 6 |

## Left out

- SQL text, JDBC and `JdbcTemplate` calls are not modelled. Every query is
  an oracle field of `DataStore.Store`, fixed for a model run. The samples
  and persons queries that only feed JSON output are not recorded in the
  call trace.
- ehcache eviction, expiry and size limits are not modelled. Entries leave
  the caches only through `Caches.CacheManager.ClearAll`.
- `synchronized` and concurrent access are not modelled: the operations
  run one at a time.
- The TOTP library (`TOTP.getCounter`, `TOTP.totpAuth`) and the
  key-format check `WebAuth.isKey` are not modelled; they are oracles, and
  no HMAC is computed. The clock reading of the short `totpAuth` overload is
  the `time` parameter, and the request's remote address is `remoteAddr`.
- `validateTopt`, `validateIpLogin`, `validateLogin`, `createLoginSession`,
  `getPerson`, `canViewObject`, `getUserId`, `logAttempt`,
  `getIsAdministrator`, `getIsSuperuser`, `checkViewPermissionsEnabled` and
  the JSON error helpers of WebAuthentication.java are outside this core.
- WebAuth.java's `getKey` and `totpAuth` are the same code as
  WebAuthentication's. They are modelled once, by
  `WebAuthentication.GetKey` and `WebAuthentication.TotpAuth`.
- `checkAuthEnabled` is the `authEnabled` field of
  `WebAuthentication.Context`, and the "totp-step" attribute is its
  `totpStep`.
- JSON shaping is not modelled. `DatabaseServlet` output is the list of
  selected rows, not the emitted JSON.
- Date parsing in the `Collection<Sample>` overload of `processSamples` is
  not modelled.
- The bean classes without logic, Spring and servlet plumbing, and JNDI
  lookups are not modelled.
- `CollectionUtils.contains`, `intersect`, `union` and `notIn` are a
  library outside this model. They are read as set intersection being
  non-empty, intersection, union and difference.
- Java's `Integer.parseInt` accepts non-ASCII Unicode digits. The model
  reads ASCII digits only.
- `isValidNumericalId`, `validateId` and `validateGeoAccession` throw on a
  null argument. The model takes them on non-null strings.
- AuthStatus is not part of this model. Its constants are the ones the core
  uses.
- SearchStackOperator is not part of this model. Operators other than
  MATCH, AND and OR are `OtherOp`.
- WebAuthentication.TotpAuthUser: the short overload that reads
  "totp-step" is the same method with `step` set to the context's value.
  It is not a member of its own.
