# API documentation summariser — verified model

This project models the document-analysis core of `api-doc-enum.py`, a
small tool that scans a directory for API documentation files and summarises
each one. A decoded document is first classified as a Swagger document, a
Postman collection or an unknown type. It then goes to the matching
summariser, which reports three things:

- "Total Requests/Endpoints";
- "HTTP Methods Distribution", a map from upper-cased method name to count,
  seeded with GET, POST, PUT, DELETE, PATCH, HEAD, OPTIONS and UNKNOWN at zero;
- "Total Parameters".

An unknown document yields the message "Unknown API documentation type.".

The model is functional. It has these modules:

- `Json` (`json.dfy`): a decoded value is the datatype `Value`. An object is
  a sequence of key/value `Field`s in document order. The dynamic operations
  the tool applies to values are modelled here: key membership (`in`),
  subscripting by a string, `len` and `.upper()`. Each one returns a
  `Result` that fails exactly where the dynamic language would raise. For
  example, `in` on a number raises, `v["k"]` on a list raises, and
  `"swagger" in s` on a string is a substring test.
- `Buckets` (`buckets.dfy`): the method buckets shared by both summarisers.
  `Tally` feeds a sequence of `Op(verb, parameters)` records into the eight
  fixed buckets. A method outside the fixed eight gets a new key, and
  nothing is routed to UNKNOWN. `MapSum` sums a bucket map.
- `Postman` and `PostmanSummary` (`postman.dfy`, `postman_summary.dfy`): the
  recursive flattening of a collection's nested `item` lists into request
  objects, and the request loop that fills the buckets and the parameter
  total.
- `PostmanPaths` (`postman_paths.dfy`): a reference description of the
  flattening. A position in the item tree is a path of indices.
  `RequestPaths` enumerates the positions of request-bearing items. The
  lemmas show four things: the enumeration is sound, it is complete, it is
  in strict depth-first pre-order, and extraction returns exactly the
  requests at those positions, in that order.
- `Swagger` and `SwaggerCounts` (`swagger.dfy`, `swagger_counts.dfy`): the
  walk over `paths` and over each path item's members. `Operations` is the
  reference list of operations the counts are stated against. Ill-shaped
  entries are shown to be skipped without effect.
- `Analysis` (`analysis.dfy`): the classifier and the dispatch step run for
  each file of a directory scan.

Every failure the tool would raise while analysing one file is a `Failure`
of `Analysis.Analyze`. In the tool, such a failure puts the file in the
error list instead of the results.

Three facts about the code shape the model. The tool has no `openapi` key
test. It does not count request-body schema fields. The Swagger walk adds
non-standard methods as new bucket keys, as the Postman loop does.

## Model

| member | source | states |
|---|---|---|
| Json.UpperString | api-doc-enum.py:127 | upper-casing keeps the length, maps each character by itself and leaves no lower-case ASCII letter |
| Analysis.Identify | api-doc-enum.py:6-15 | a scalar document raises; on an object, "swagger" gives Swagger, otherwise "info" together with "item" gives Postman, otherwise unknown (all three directions as if-and-only-if) |
| Analysis.SwaggerTakesPrecedence | api-doc-enum.py:10-13 | an object with "swagger", "info" and "item" is classified and summarised as Swagger |
| Analysis.Analyze | api-doc-enum.py:46-54 | a failed classification fails the file with the same error; a Swagger document gets exactly the outcome of the Swagger summariser and a collection exactly that of the Postman summariser; the unknown-type message is produced exactly for documents classified unknown |
| Analysis.PlainObjectIsUnknown | api-doc-enum.py:14-15 | an object with neither "swagger" nor "item" yields the message |
| Analysis.SwaggerMentioningString | api-doc-enum.py:97-102 | a top-level string containing "swagger" is taken for Swagger and gets the empty summary with no buckets |
| Analysis.ArrayMentioningCollectionKeys | api-doc-enum.py:12-13 | an array holding the strings "info" and "item" is taken for a collection and then fails on `content["item"]` |
| Postman.ScanNames | api-doc-enum.py:143-147 | iterating strings as items yields no requests, and fails exactly when one string contains "request" or "item" |
| Postman.StringItemsContributeNothing | api-doc-enum.py:143-147 | a string in place of an item list contributes no requests and raises nothing |
| Postman.ScalarItemFails | api-doc-enum.py:143-144 | a number, boolean or null anywhere in an item list makes the flattening fail |
| PostmanPaths.RequestPathsSound | api-doc-enum.py:138-148 | every enumerated position is non-empty and holds an item with a "request" member |
| PostmanPaths.RequestPathsComplete | api-doc-enum.py:138-148 | every request-bearing item at every nesting depth has its position enumerated |
| PostmanPaths.RequestPathsOrdered | api-doc-enum.py:143-147 | positions are strictly increasing in pre-order: an item before its sub-items, siblings in list order, no position twice |
| PostmanPaths.ExtractFollowsPaths | api-doc-enum.py:138-148 | a successful flattening returns, one for one and in order, the request of each enumerated position |
| PostmanPaths.WellShapedExtracts | api-doc-enum.py:138-148 | a list of objects whose `item` members are again such lists flattens without failing, at any depth |
| PostmanPaths.PostmanEndpointsAreRequestItems | api-doc-enum.py:82-85 | "Total Requests/Endpoints" equals the number of request-bearing items at all depths |
| PostmanSummary.RecordsFailure | api-doc-enum.py:87-92 | the request loop raises exactly when some counted request has a non-string method or a query without a length |
| PostmanSummary.RecordsMethodsAreStrings | api-doc-enum.py:88-89 | after a successful loop every counted request has a string method |
| PostmanSummary.RecordsKeyCounts | api-doc-enum.py:89-90 | each upper-cased method occurs among the records once per request that falls into its bucket |
| PostmanSummary.RecordsKeys | api-doc-enum.py:89-90 | a method occurs among the records exactly when some request falls into its bucket |
| PostmanSummary.RecordsLength | api-doc-enum.py:88 | there is one record per request that is an object with "method" |
| PostmanSummary.RecordsParameters | api-doc-enum.py:91-92 | the records' parameter counts add up to the query lengths of the requests |
| PostmanSummary.PostmanCounts | api-doc-enum.py:61-94 | endpoints = all extracted requests (with or without method); buckets = the eight fixed keys plus each further method; each bucket = the number of requests naming it; bucket sum = the number of counted requests; parameters = the sum of query lengths |
| PostmanSummary.PostmanFailure | api-doc-enum.py:82-92 | a collection fails exactly when its requests cannot be extracted or one of them is ill-shaped |
| Buckets.InitialBuckets | api-doc-enum.py:66-79 | the initial distribution has exactly the eight fixed keys, all at zero |
| Buckets.Bump | api-doc-enum.py:90 | bumping adds the key if missing, raises that bucket by one and leaves every other bucket alone |
| Buckets.BumpSum | api-doc-enum.py:127 | one bump raises the bucket total by exactly one |
| Buckets.TallyKeys | api-doc-enum.py:87-90 | after a tally the bucket keys are exactly the eight fixed methods plus the methods that occur |
| Buckets.TallyCount | api-doc-enum.py:89-90 | each bucket holds the number of records carrying its method (zero for an unused fixed method) |
| Buckets.TallySum | api-doc-enum.py:124-127 | the buckets sum to the number of records fed in |
| Buckets.TallyParameters | api-doc-enum.py:129 | the running parameter total is the sum of the records' parameter counts |
| SwaggerCounts.ObjectMembers | api-doc-enum.py:124-126 | every object-valued member of a path item is an operation, and every operation is one of its object-valued members |
| SwaggerCounts.ObjectMembersMultiplicity | api-doc-enum.py:124-126 | each object-valued member is taken exactly as often as it occurs, and no other member is taken |
| SwaggerCounts.ObjectMembersAppend | api-doc-enum.py:124-126 | the members are visited in document order: the operations of a concatenation are those of the first part followed by those of the second |
| SwaggerCounts.Operations | api-doc-enum.py:120-126 | every listed operation is object-valued |
| SwaggerCounts.OperationsAreObjectMembers | api-doc-enum.py:120-126 | each listed operation is a member of some object-valued path, and every object-valued member of every object-valued path is listed |
| SwaggerCounts.OperationsAppend | api-doc-enum.py:120-126 | the operations come path by path in document order: those of a concatenation of paths are those of the first part followed by those of the second |
| SwaggerCounts.OperationRecordsFollow | api-doc-enum.py:124-129 | a path item's loop fails exactly when one of its operations has a "parameters" without a length, and otherwise yields one record per operation |
| SwaggerCounts.PathRecordsFollow | api-doc-enum.py:120-129 | the walk over all paths fails exactly when some operation's parameters have no length, and otherwise yields one record per operation, in order |
| SwaggerCounts.EndpointCountIsObjectPaths | api-doc-enum.py:120-123 | the endpoint count is the number of paths whose value is an object |
| SwaggerCounts.PathsBuckets | api-doc-enum.py:124-127 | each bucket key is fixed or names an operation, and holds the number of operations it names |
| SwaggerCounts.PathsTotals | api-doc-enum.py:120-132 | endpoints = object-valued paths; bucket sum = number of operations; parameters = the sum of their parameter-list lengths |
| SwaggerCounts.SwaggerCounts | api-doc-enum.py:96-135 | the same statements for a whole Swagger object |
| SwaggerCounts.SwaggerFailure | api-doc-enum.py:128-129 | a Swagger summary fails exactly when some operation has a "parameters" without a length |
| SwaggerCounts.SwaggerNotObject | api-doc-enum.py:97-102 | a non-object document gives 0 endpoints, an empty distribution and 0 parameters |
| SwaggerCounts.SwaggerWithoutPaths | api-doc-enum.py:117-119 | missing or non-object "paths" gives 0 endpoints, the eight zero buckets and 0 parameters, with no failure |
| SwaggerCounts.SkipNonObjectPath | api-doc-enum.py:121-122 | inserting a path whose value is not an object leaves the summary unchanged |
| SwaggerCounts.SkipNonObjectMember | api-doc-enum.py:125-126 | inserting a non-object member into a path item leaves the summary unchanged |

## Left out

- Directory listing, extension filtering, file reading and JSON/YAML decoding (api-doc-enum.py:17-44) are I/O. The model starts from a decoded `Value`. `yaml` is never imported, so every `.yaml`/`.yml` file fails at line 44 before reaching the core.
- `analyze_api_file` (api-doc-enum.py:17-29) is a file-reading variant of the same dispatch that returns nothing for unknown documents. It is not modelled separately.
- The per-directory results map and error list (api-doc-enum.py:32-58) are not modelled. A failed `Analysis.Analyze` stands for "this file goes to the error list". Error messages are reduced to the `Json.Error` kinds.
- Command-line parsing and printing (api-doc-enum.py:151-168) are left out, including the hiding of zero buckets on display.
- PostmanPaths.WellShapedExtracts: does not model the interpreter's recursion limit. `extract_postman_items` (api-doc-enum.py:138-148) recurses once per folder level, and at the limit (1000 frames by default) it raises `RecursionError`. Line 55 catches it, so the file goes to the error list. The model has no depth bound, so this lemma promises success at any depth.
- Analysis.Analyze: for the same reason, a collection nested deeper than the recursion limit has a successful summary in the model but fails in the tool.
- Json.UpperString: maps only ASCII a–z. The dynamic language upper-cases every Unicode letter and can lengthen a string (for example "ß" becomes "SS").
- Json.Len: a Dafny `char` is a Unicode scalar value, so a string's length agrees with the dynamic language's code-point count. The one gap is lone surrogates: a JSON escape such as `"\ud800"` decodes to a string that a Dafny `string` cannot hold, so such documents are outside the model.
- Numbers carry no value because the analysis never reads one. Floating point is therefore absent.
- Objects are association lists. A JSON decoder never yields two members with the same key. `Json.Find` lets the last duplicate win, as a decoder does, but the Swagger walk would visit both copies of a duplicate.
