# Tool handlers of the MCP tool packages, modelled in Dafny

This project models four request handlers of a set of MCP (Model Context Protocol) tool packages and proves properties of them:

- **readFilesTool** (`ReadFiles`, over `PosixPath`): the batch file reader. It validates its input. Then, path by path in order, it:
  - resolves the path against the workspace root;
  - refuses the path when `path.relative(root, resolved)` starts with `..` or is absolute;
  - optionally stats the path, then reads it;
  - records one result per path, with an error kind and a suggestion kind for failures.

  The file system is an object that answers from an oracle and logs every call made to it. The handler's loop is a method proved against specification functions over the requested paths.
- **waitTool** (`Wait`): the sequential wait batch. Each timer settles as given by an oracle. The loop records results, sums the durations waited, and clears the overall flag on a failure. If a `catch` clause itself throws, the loop ends early through the tool's outer `catch`.
- **indexStatusTool** (`IndexStatus`): merges the index manager's database status with the background service's status into one record. That record is checked against the result schema and returned as a one-element list. It is written as pure functions over the outcomes of asking the two collaborators.
- **registerTools** (`RegisterTools`): registers, in order, every well-formed tool definition with a server, modelled as a class holding its sequence of registrations. The handler wrapped around each tool maps anything thrown to a fixed failure record.

Shared modules:

- `Js`: option type, thrown values, JSON, content parts.
- `Text`: `startsWith`, `includes`, `join`, number rendering.
- `PosixPath`: a segment model of node's POSIX `path.resolve`, `path.relative` and `path.dirname`.

Where the code and its comments disagree, the model follows the code:

- readFilesTool's overall `success` is documented as "true if at least one read succeeded". The code clears the flag whenever a later path is refused (readFilesTool.ts line 90). `ReadFiles.OverallSuccessIff` and `ReadFiles.RejectionClearsSuccess` state the behaviour as written.
- The index status read does throw:
  - when its arguments are not an object;
  - when the merged record fails the result schema (a state outside the enum, a negative or `null` counter).

  `IndexStatus.Execute` models both throws.

## Model

| member | source | states |
|---|---|---|
| ReadFiles.InputError | packages/filesystem-core/src/tools/readFilesTool.ts:57-68 | input is refused exactly when `paths` is empty or holds an empty string; the error then starts with "Input validation failed: " |
| ReadFiles.EmptyPathMessages | packages/filesystem-core/src/tools/readFilesTool.ts:9-13 | the schema reports a message exactly when some path is the empty string |
| ReadFiles.FileSystem.Stat | packages/filesystem-core/src/tools/readFilesTool.ts:96 | `stat` answers as the file system does and the call is logged |
| ReadFiles.FileSystem.ReadFile | packages/filesystem-core/src/tools/readFilesTool.ts:104 | `readFile` answers as the file system does and the call is logged |
| ReadFiles.Execute | packages/filesystem-core/src/tools/readFilesTool.ts:55-154 | invalid input: `success=false`, the error, no results, no content, no file-system call. Valid input: the results of the paths in order, the flag computed from those results, the summary part only on success, and exactly the file-system calls the paths call for |
| ReadFiles.ReadItem | packages/filesystem-core/src/tools/readFilesTool.ts:75-143 | one loop iteration: a refused path is recorded without touching the file system and clears the flag; an accepted one is read; the result is `ItemResult`, the calls are `ItemCalls` and the new flag is `FlagAfter` of the result |
| ReadFiles.ReadAccepted | packages/filesystem-core/src/tools/readFilesTool.ts:93-143 | the try/catch of an accepted path records content on success, and error plus suggestion on failure |
| ReadFiles.TryReadItem | packages/filesystem-core/src/tools/readFilesTool.ts:95-107 | stats only when asked, refuses a non-file before reading, then reads and decodes |
| ReadFiles.ItemResult | packages/filesystem-core/src/tools/readFilesTool.ts:84-143 | a result carries the original path; success iff content; success has no error or suggestion, failure has both; a refused path fails with no stats and an outside-the-root error, and only refused paths carry that error |
| ReadFiles.Summary | packages/filesystem-core/src/tools/readFilesTool.ts:150-152 | one "Read operation completed. Success: true" part iff the overall flag is set, otherwise none |
| ReadFiles.RejectedItem | packages/filesystem-core/src/tools/readFilesTool.ts:84-91 | a refused path makes no file-system call and records the outside-the-root error and suggestion |
| ReadFiles.ResultsAsMap | packages/filesystem-core/src/tools/readFilesTool.ts:75-143 | the results of a batch are `ItemResult` applied to each path, appended in order |
| ReadFiles.ResultsAlign | packages/filesystem-core/src/tools/readFilesTool.ts:136-143 | exactly one result per input path, in input order, the i-th being `ItemResult` of the i-th path |
| ReadFiles.RejectedIff | packages/filesystem-core/src/tools/readFilesTool.ts:84-85 | a path is refused iff it resolves outside the root, or its first segment below the root starts with ".." |
| ReadFiles.NameAtRootRejectedIff | packages/filesystem-core/src/tools/readFilesTool.ts:84-85 | a plain name at the root is refused iff it starts with "..", so "..notes" is refused |
| ReadFiles.ItemCallsInside | packages/filesystem-core/src/tools/readFilesTool.ts:84-104 | every call for a path is on that path resolved, which passed the check and lies inside the root |
| ReadFiles.CallsInsideRoot | packages/filesystem-core/src/tools/readFilesTool.ts:75-108 | over a whole batch, every stat and read is inside the root, on a requested path that passed the check; refused paths are never stat'd or read |
| ReadFiles.NoStatsUnlessAsked | packages/filesystem-core/src/tools/readFilesTool.ts:95-101 | without `includeStats` no stat is made and no stats are recorded |
| ReadFiles.NotAFileResult | packages/filesystem-core/src/tools/readFilesTool.ts:95-100 | a stat'd non-file fails with the "is not a file" error and the directory suggestion, keeps its stats, and is not read |
| ReadFiles.NotAFileMentioned | packages/filesystem-core/src/tools/readFilesTool.ts:99 | the reader's own non-file error contains "is not a file", which the suggestion test looks for |
| ReadFiles.MissingNameSuggestion | packages/filesystem-core/src/tools/readFilesTool.ts:122-124 | a missing top-level file is answered by listing "." |
| ReadFiles.MissingNestedSuggestion | packages/filesystem-core/src/tools/readFilesTool.ts:122-124 | a missing file "d/f" is answered by listing "d" |
| ReadFiles.OutsideRootText | packages/filesystem-core/src/tools/readFilesTool.ts:86 | the error of a refused path starts with "Path validation failed: " |
| ReadFiles.Classification | packages/filesystem-core/src/tools/readFilesTool.ts:113-131 | a caught error reads "File not found." for ENOENT, "Path is a directory, not a file." for EISDIR, and the thrown message for any other code. The suggestion is: list the parent directory for ENOENT; point to a file for EISDIR or a message containing "is not a file"; check permissions for EACCES otherwise; the generic hint for anything else |
| ReadFiles.FailedReadText | packages/filesystem-core/src/tools/readFilesTool.ts:113-119 | the ENOENT, EISDIR and other-code errors all start with "Failed to read '<path>': " |
| ReadFiles.MissingFileSuggestionNames | packages/filesystem-core/src/tools/readFilesTool.ts:124 | the ENOENT suggestion names the path and the directory to list |
| ReadFiles.SuggestionNamesPath | packages/filesystem-core/src/tools/readFilesTool.ts:89-128 | the outside-the-root, directory and permission suggestions name the path |
| ReadFiles.OverallSuccessIff | packages/filesystem-core/src/tools/readFilesTool.ts:73-108 | the overall flag is set iff some path was read and neither it nor any later path was refused |
| ReadFiles.RejectionClearsSuccess | packages/filesystem-core/src/tools/readFilesTool.ts:90 | a refused last path leaves the flag false whatever was read before it |
| PosixPath.ResolveFrom | packages/filesystem-core/src/tools/readFilesTool.ts:76 | `path.resolve` yields a normalised absolute path |
| PosixPath.CommonLength | packages/filesystem-core/src/tools/readFilesTool.ts:84 | the shared prefix of two paths used by `path.relative`, maximal |
| PosixPath.Relative | packages/filesystem-core/src/tools/readFilesTool.ts:84 | `path.relative` climbs with one ".." per unshared segment of the base, then descends by names only |
| PosixPath.RelativeResolves | packages/filesystem-core/src/tools/readFilesTool.ts:76-84 | resolving the segments of `path.relative(from, to)` from `from` gives back `to` |
| PosixPath.RelativeTextResolves | packages/filesystem-core/src/tools/readFilesTool.ts:76-84 | `path.resolve(from, path.relative(from, to))` is `to`: the relative text is an inverse of resolution |
| PosixPath.EscapesIff | packages/filesystem-core/src/tools/readFilesTool.ts:85 | the textual check on `path.relative` holds iff the target is not below the root, or its first segment below it starts with ".." |
| PosixPath.RelativeNeverAbsolute | packages/filesystem-core/src/tools/readFilesTool.ts:85 | the `isAbsolute` half of the check never fires on a POSIX relative path |
| PosixPath.AcceptedIsContained | packages/filesystem-core/src/tools/readFilesTool.ts:84-92 | an accepted path lies inside the root |
| PosixPath.DirnameOfName | packages/filesystem-core/src/tools/readFilesTool.ts:123 | `path.dirname` of a bare name is "." |
| PosixPath.DirnameOfNested | packages/filesystem-core/src/tools/readFilesTool.ts:123 | `path.dirname("d/f")` is "d" |
| Wait.ProcessSingleWait | packages/wait-core/src/tools/waitTool.ts:40-57 | the helper's record is built field by field and equals `SingleWait(item, t)` |
| Wait.SingleWaitOutcomes | packages/wait-core/src/tools/waitTool.ts:42-54 | the record keeps the id; success iff the timer elapsed; a success carries `durationWaitedMs = ms` and no error; a failure carries "Wait failed: …" and no duration; the helper throws exactly when `undefined` or `null` was thrown, with the TypeError of reading `.message` from it |
| Wait.ZeroWaitSucceeds | packages/wait-core/src/tools/waitTool.ts:48-84 | a zero-millisecond wait that elapses is a success with duration 0, and recording it keeps the running total and the overall flag |
| Wait.Execute | packages/wait-core/src/tools/waitTool.ts:66-105 | the output is `Output(|items|, Run(items, timer))`: the loop state after the items, including the early end |
| Wait.EscapeIsFinal | packages/wait-core/src/tools/waitTool.ts:93-103 | once an error leaves the loop, later items change nothing |
| Wait.RunTotals | packages/wait-core/src/tools/waitTool.ts:79-83 | the total is the sum of the durations of the successful results, and the flag is set iff no recorded item failed |
| Wait.RunResults | packages/wait-core/src/tools/waitTool.ts:75-77 | the results are those of the items in order up to the first escaping error; without one, there is exactly one per item and no failure stops the loop |
| Wait.TotalNonNegative | packages/wait-core/src/tools/waitTool.ts:9 | with non-negative durations the total is never negative |
| Wait.OutputShape | packages/wait-core/src/tools/waitTool.ts:87-103 | a completed batch returns one summary part and the loop's flag; an early end returns `success=false`, the partial results and total, the error text and no content |
| IndexStatus.OrElse | packages/tools-rag/src/tools/indexStatusTool.ts:131-134 | `??` keeps a present value and replaces `undefined`/`null` by the default |
| IndexStatus.StateRoundTrip | packages/tools-rag/src/tools/indexStatusTool.ts:48 | every service state's name passes the enum check as that state |
| IndexStatus.ParseStateExact | packages/tools-rag/src/tools/indexStatusTool.ts:48 | the enum check accepts exactly the seven names |
| IndexStatus.Database | packages/tools-rag/src/tools/indexStatusTool.ts:88-110 | success iff the manager is present, initialised and `getStatus` returns; then count and name are copied, and are present only then; error iff not success |
| IndexStatus.Member | packages/tools-rag/src/tools/indexStatusTool.ts:131-137 | `serviceStatus?.x` is `undefined` without a status object, and the object's property `x` with one |
| IndexStatus.Execute | packages/tools-rag/src/tools/indexStatusTool.ts:71-143 | throws the input error iff the arguments are not an object; a returned list has one record, which passes the result schema |
| IndexStatus.ExecuteOutcome | packages/tools-rag/src/tools/indexStatusTool.ts:141-142 | the record is returned iff the arguments and the record pass their schemas; its success is the database's |
| IndexStatus.MissingManager | packages/tools-rag/src/tools/indexStatusTool.ts:106-110 | a missing or uninitialised manager gives `success=false`, the fixed error and suggestion, and no count or name |
| IndexStatus.StatusUnconsulted | packages/tools-rag/src/tools/indexStatusTool.ts:95 | `getStatus` is not consulted unless the manager is initialised |
| IndexStatus.StatusThrows | packages/tools-rag/src/tools/indexStatusTool.ts:101-105 | a throwing `getStatus` gives its message, or "Unknown error getting index DB status" for a non-error, and the connectivity hint |
| IndexStatus.ServiceDefaults | packages/tools-rag/src/tools/indexStatusTool.ts:113-137 | with no service status the state is "Unknown", the flags false and the counters absent |
| IndexStatus.ServiceCopied | packages/tools-rag/src/tools/indexStatusTool.ts:124-138 | with a status object, whatever the database side did, the state and flags are its properties with the `??` defaults and the three counters are copied as they are |
| IndexStatus.SidesIndependent | packages/tools-rag/src/tools/indexStatusTool.ts:124-138 | database fields depend only on the manager, service fields only on the service |
| IndexStatus.RecordConformsIff | packages/tools-rag/src/tools/indexStatusTool.ts:44-57 | the record passes the schema iff the count is non-negative, the state is one of the seven, and the counters are not `null` (the initial-scan total may be) nor negative |
| IndexStatus.DefaultsConform | packages/tools-rag/src/tools/indexStatusTool.ts:141-142 | without a service status and with a usable count the tool returns its record |
| RegisterTools.RegistrationOf | packages/utils/src/registerTools.ts:47-51 | a registration uses the tool's name, its description when present (so '' exactly when absent or empty), and the schema's shape |
| RegisterTools.McpServer.Tool | packages/utils/src/registerTools.ts:47-52 | the server appends one registration |
| RegisterTools.RegisterAll | packages/utils/src/registerTools.ts:11-58 | the server gains exactly the registrations of the valid tools, in array order; nothing else changes |
| RegisterTools.RegisteredOnlyValid | packages/utils/src/registerTools.ts:14-16 | every registration comes from a valid tool |
| RegisterTools.ValidRegistered | packages/utils/src/registerTools.ts:14-17 | every valid tool is registered |
| RegisterTools.RegistrationsConcat | packages/utils/src/registerTools.ts:12 | registrations of a concatenation are those of its parts in order, so array order is kept |
| RegisterTools.RegistrationsCount | packages/utils/src/registerTools.ts:12-57 | one registration per valid tool |
| RegisterTools.Failure | packages/utils/src/registerTools.ts:36-41 | the failure record: `success=false`, error "Tool execution failed: <msg>", one text part with the same text |
| RegisterTools.FailureText | packages/utils/src/registerTools.ts:36 | the message is the error's message, or "Unknown execution error" for a non-error |
| RegisterTools.HandleFailures | packages/utils/src/registerTools.ts:32-42 | a throwing parse or a throwing `execute` gives the failure record of what was thrown |
| RegisterTools.HandlePassesThrough | packages/utils/src/registerTools.ts:27-31 | otherwise `execute` runs on the validated arguments, the working directory and `{}`, and its result is returned unchanged |
| Js.MessageOr | packages/utils/src/registerTools.ts:36 | `e instanceof Error ? e.message : fallback` |

## Left out

- Logging through `console` in all four files is not modelled.
- Zod internals are not modelled. Each schema is stated directly as a predicate.
- The text of Zod's own errors is not modelled either:
  - readFilesTool models only its `paths` messages;
  - the index status schema failure is modelled as a throw without its text.
- ReadFiles: type errors on `paths` elements, `encoding` or `includeStats` are not modelled. Their types already exclude such values.
- ReadFiles.Execute: the working directory (`process.cwd()`), used to resolve a relative workspace root, is an input. The object returned by `stat` is reduced to `isFile()`. `Buffer.toString` for each encoding is an oracle.
- ReadFiles: the error and suggestion of a failed path are kinds (`ErrorMessage`, `SuggestionMessage`) that `ErrorText`/`SuggestionText` render as the handler's texts. The result records hold the kinds.
- PosixPath: only POSIX semantics are modelled. Windows drive letters and separators are not.
- ReadFiles.CallsInsideRoot: containment is textual, on the resolved path. Symbolic links are not modelled, so a link under the root that points outside it is not covered.
- Wait: durations are integers, since the schema refuses non-integers. Timers are an oracle outcome per item, and real time is not modelled.
- Wait: numbers are unbounded integers, not IEEE doubles. The running total does not round once it passes 2^53. `SummaryText` prints every digit, where JavaScript switches to exponent notation ("1e+21") from 1e21 on.
- Wait.ProcessSingleWait: the helper's record is built in local variables and returned as a value, not mutated through an object reference.
- Wait: the items are assumed to have passed the schema, as the registration wrapper does before calling `execute`. The schema itself is `Wait.ValidInput`.
- IndexStatus:
  - `getStatus` is taken to return an integer `count` and a string `name`. A missing count (which leaves `chunkCount` out) and a non-integer count (which makes the result schema throw) are not modelled;
  - `isInitialized()` is taken not to throw;
  - non-boolean service flags and non-numeric counters are not modelled;
  - numbers are unbounded integers: a fractional service counter such as `filesInQueue: 1.5`, which makes the result schema throw, cannot be expressed;
  - the wrapping of the list into a JSON content part is left out.
- RegisterTools:
  - the server is a log that accepts every registration, so the SDK's refusal of a duplicate name is not modelled;
  - a truthy `description` that is not a string is not modelled;
  - falsy non-object tool entries are all one "absent" case.
- The indexing pipeline itself is not part of this model: the orchestrator, processing queue, watcher and index manager internals. Only the index status tool's use of `isInitialized`/`getStatus`/`getServiceStatus` is modelled.
- The test files for other versions of the file reader and the registration helper are not part of this model.
