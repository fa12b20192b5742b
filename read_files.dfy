/**
 * The batch file reader (`readFilesTool`): validates its input, then for every
 * requested path in order resolves it against the workspace root, refuses it
 * when it leaves the root, optionally stats it, reads it, and records one
 * result per path; finally it derives an overall success flag.
 *
 * `stat` and `readFile` are a file system whose answers are fixed in advance
 * (an oracle); the file system object records every call made to it, so that
 * the model can say which paths were never touched.
 */
module ReadFiles {
  import opened Js
  import opened Text
  import opened PosixPath

  datatype Encoding = Utf8 | Base64

  /** The input after defaults: `encoding` defaults to utf-8, `includeStats` to false. */
  datatype ReadFilesInput = ReadFilesInput(paths: seq<string>, encoding: Encoding, includeStats: bool)

  /** An error from `stat`/`readFile` (with its errno code) or one the reader throws itself (no code). */
  datatype FsError = FsError(code: Option<string>, message: string)

  /** The part of a `Stats` object the reader looks at. */
  datatype StatInfo = StatInfo(isFile: bool)

  datatype StatOutcome = StatOk(info: StatInfo) | StatFailed(statError: FsError)
  datatype ReadOutcome = ReadOk(bytes: seq<bv8>) | ReadFailed(readError: FsError)

  /** One call the reader makes on the file system, with the absolute path it passes. */
  datatype FsCall = StatCall(target: NormalPath) | ReadCall(target: NormalPath)

  /** The answers of the file system, and `Buffer.toString` for each encoding. */
  datatype FsOracle = FsOracle(
    stat: NormalPath -> StatOutcome,
    read: NormalPath -> ReadOutcome,
    decode: (seq<bv8>, Encoding) -> string)

  class FileSystem {
    const oracle: FsOracle
    var calls: seq<FsCall>

    constructor (oracle: FsOracle)
      ensures this.oracle == oracle && calls == []
    {
      this.oracle := oracle;
      calls := [];
    }

    /** `await stat(p)` */
    method Stat(p: NormalPath) returns (r: StatOutcome)
      modifies this`calls
      ensures r == oracle.stat(p)
      ensures calls == old(calls) + [StatCall(p)]
    {
      r := oracle.stat(p);
      calls := calls + [StatCall(p)];
    }

    /** `await readFile(p)` */
    method ReadFile(p: NormalPath) returns (r: ReadOutcome)
      modifies this`calls
      ensures r == oracle.read(p)
      ensures calls == old(calls) + [ReadCall(p)]
    {
      r := oracle.read(p);
      calls := calls + [ReadCall(p)];
    }
  }

  /** The result recorded for one requested path. */
  datatype ReadFileResult = ReadFileResult(
    path: string,
    success: bool,
    content: Option<string>,
    stat: Option<StatInfo>,
    error: Option<ErrorMessage>,
    suggestion: Option<SuggestionMessage>)

  datatype ReadFilesOutput = ReadFilesOutput(
    success: bool,
    error: Option<string>,
    results: seq<ReadFileResult>,
    content: seq<ContentPart>)

  /** Where the reader runs: the process's working directory, the workspace root it is given, and the options. */
  datatype Context = Context(cwd: NormalPath, workspaceRoot: string, encoding: Encoding, includeStats: bool)

  // ---------------------------------------------------------------- input schema

  const InputErrorPrefix: string := "Input validation failed: "

  /** The schema's messages for the elements of `paths` that are empty strings. */
  function EmptyPathMessages(paths: seq<string>): (ms: seq<string>)
    ensures |ms| == 0 <==> forall i :: 0 <= i < |paths| ==> paths[i] != ""
  {
    if |paths| == 0 then []
    else (if paths[0] == "" then ["Path cannot be empty"] else []) + EmptyPathMessages(paths[1..])
  }

  /** The error the schema check reports for `paths`, if any. */
  function InputError(paths: seq<string>): (e: Option<string>)
    ensures e.None? <==> |paths| > 0 && forall i :: 0 <= i < |paths| ==> paths[i] != ""
    ensures e.Some? ==> StartsWith(e.value, InputErrorPrefix)
  {
    var messages := if |paths| == 0 then ["paths array cannot be empty"] else EmptyPathMessages(paths);
    if |messages| == 0 then None
    else
      var text := InputErrorPrefix + "paths: " + Join(messages, ", ");
      assert text[..|InputErrorPrefix|] == InputErrorPrefix;
      Some(text)
  }

  // ---------------------------------------------------------------- messages

  /**
   * The `error` text of a failed path, by kind; `ErrorText` spells each kind out
   * as the reader writes it.
   */
  datatype ErrorMessage =
    | OutsideRoot(workspaceRoot: string, relativePath: string)
    | FileNotFound(path: string)
    | IsADirectory(path: string)
    | ReadError(path: string, message: string)

  /** The `suggestion` text of a failed path, by kind; `SuggestionText` spells each kind out. */
  datatype SuggestionMessage =
    | StayInsideRoot(path: string)
    | CheckFileExists(path: string, parentDir: string)
    | PointToFile(path: string)
    | CheckPermissions(path: string)
    | CheckPathAndPermissions

  function ErrorText(m: ErrorMessage): string
  {
    match m
    case OutsideRoot(root, rel) =>
      "Path validation failed: "
        + ("Path must resolve within the workspace root ('" + root + "'). Relative Path: '" + rel + "'")
    case FileNotFound(p) => "Failed to read '" + p + "': " + "File not found."
    case IsADirectory(p) => "Failed to read '" + p + "': " + "Path is a directory, not a file."
    case ReadError(p, msg) => "Failed to read '" + p + "': " + msg
  }

  function SuggestionText(m: SuggestionMessage): string
  {
    match m
    case StayInsideRoot(p) =>
      "Ensure the path '" + p + "' is relative to the workspace root and does not attempt to go outside it."
    case CheckFileExists(p, dir) =>
      "Ensure the file path '" + p + "' is correct and the file exists. You could try listing the directory contents using listFilesTool on '"
        + dir + "' to check available files."
    case PointToFile(p) => "The path '" + p + "' points to a directory. Provide a path to a file."
    case CheckPermissions(p) => "Check read permissions for the file '" + p + "'."
    case CheckPathAndPermissions => "Check the file path and permissions."
  }

  /** The error of a refused path says that the path check failed. */
  lemma OutsideRootText(root: string, rel: string)
    ensures StartsWith(ErrorText(OutsideRoot(root, rel)), "Path validation failed: ")
  {
    var head := "Path validation failed: ";
    var tail := "Path must resolve within the workspace root ('" + root + "'). Relative Path: '" + rel + "'";
    assert (head + tail)[..|head|] == head;
  }

  /** The error of a failed read quotes the path it was asked for. */
  lemma FailedReadText(p: string, msg: string)
    ensures StartsWith(ErrorText(FileNotFound(p)), "Failed to read '" + p + "': ")
    ensures StartsWith(ErrorText(IsADirectory(p)), "Failed to read '" + p + "': ")
    ensures StartsWith(ErrorText(ReadError(p, msg)), "Failed to read '" + p + "': ")
  {
    var head := "Failed to read '" + p + "': ";
    assert (head + "File not found.")[..|head|] == head;
    assert (head + "Path is a directory, not a file.")[..|head|] == head;
    assert (head + msg)[..|head|] == head;
  }

  /** `a + x + b + y + c` contains both `x` and `y`. */
  lemma {:induction false} ContainsBoth(a: string, x: string, b: string, y: string, c: string)
    ensures Contains(a + x + b + y + c, x) && Contains(a + x + b + y + c, y)
  {
    assert a + x + (b + y + c) == a + x + b + y + c;
    ContainsAppended(a, x, b + y + c);
    ContainsAppended(a + x + b, y, c);
  }

  /** The missing-file suggestion names the path and the directory to list. */
  lemma MissingFileSuggestionNames(p: string, dir: string)
    ensures Contains(SuggestionText(CheckFileExists(p, dir)), p)
    ensures Contains(SuggestionText(CheckFileExists(p, dir)), dir)
  {
    ContainsBoth("Ensure the file path '", p,
      "' is correct and the file exists. You could try listing the directory contents using listFilesTool on '",
      dir, "' to check available files.");
  }

  /** The other suggestions that concern the path name it. */
  lemma SuggestionNamesPath(m: SuggestionMessage)
    requires m.StayInsideRoot? || m.PointToFile? || m.CheckPermissions?
    ensures Contains(SuggestionText(m), m.path)
  {
    match m {
      case StayInsideRoot(p) =>
        ContainsAppended("Ensure the path '", p,
          "' is relative to the workspace root and does not attempt to go outside it.");
      case PointToFile(p) =>
        ContainsAppended("The path '", p, "' points to a directory. Provide a path to a file.");
      case CheckPermissions(p) =>
        ContainsAppended("Check read permissions for the file '", p, "'.");
    }
  }

  /** The error the reader throws when a stat'd path is not a regular file. */
  function NotAFile(p: string): FsError
  {
    FsError(None, "Path '" + p + "' is not a file.")
  }

  /** The per-item error for a caught error, by errno code. */
  function FailureMessage(p: string, e: FsError): ErrorMessage
  {
    if e.code == Some("ENOENT") then FileNotFound(p)
    else if e.code == Some("EISDIR") then IsADirectory(p)
    else ReadError(p, e.message)
  }

  /** The per-item suggestion for a caught error, by errno code and message. */
  function SuggestionFor(p: string, e: FsError): SuggestionMessage
  {
    if e.code == Some("ENOENT") then CheckFileExists(p, Dirname(p))
    else if e.code == Some("EISDIR") || Contains(e.message, "is not a file") then PointToFile(p)
    else if e.code == Some("EACCES") then CheckPermissions(p)
    else CheckPathAndPermissions
  }

  /**
   * How a caught error is classified: the error text by errno code (ENOENT, then
   * EISDIR, else the thrown message), the suggestion by code and message (ENOENT,
   * then EISDIR or a message mentioning "is not a file", then EACCES, else the
   * generic hint).
   */
  lemma Classification(p: string, e: FsError)
    ensures e.code == Some("ENOENT") ==>
      && ErrorText(FailureMessage(p, e)) == "Failed to read '" + p + "': " + "File not found."
      && SuggestionFor(p, e) == CheckFileExists(p, Dirname(p))
    ensures e.code == Some("EISDIR") ==>
      && ErrorText(FailureMessage(p, e)) == "Failed to read '" + p + "': " + "Path is a directory, not a file."
      && SuggestionFor(p, e) == PointToFile(p)
    ensures e.code != Some("ENOENT") && e.code != Some("EISDIR") ==>
      ErrorText(FailureMessage(p, e)) == "Failed to read '" + p + "': " + e.message
    ensures e.code != Some("ENOENT") && Contains(e.message, "is not a file") ==>
      SuggestionFor(p, e) == PointToFile(p)
    ensures e.code == Some("EACCES") && !Contains(e.message, "is not a file") ==>
      SuggestionFor(p, e) == CheckPermissions(p)
    ensures (e.code != Some("ENOENT") && e.code != Some("EISDIR") && e.code != Some("EACCES")
             && !Contains(e.message, "is not a file")) ==>
      SuggestionFor(p, e) == CheckPathAndPermissions
  {
  }

  // ---------------------------------------------------------------- one path

  function RootOf(ctx: Context): NormalPath
  {
    ResolveFrom(ctx.cwd, ctx.workspaceRoot)
  }

  /** `path.resolve(workspaceRoot, p)` */
  function FullPath(ctx: Context, p: string): NormalPath
  {
    ResolveFrom(RootOf(ctx), p)
  }

  /** The workspace check on `path.relative(workspaceRoot, fullPath)`. */
  predicate IsRejected(ctx: Context, p: string)
  {
    Escapes(RelativeText(RootOf(ctx), FullPath(ctx, p)))
  }

  /** What the `try` block ends with: the content read, or the error caught; and the stat taken, if any. */
  datatype Attempt = Read(stat: Option<StatInfo>, text: string) | Caught(stat: Option<StatInfo>, error: FsError)

  function ReadStep(o: FsOracle, full: NormalPath, enc: Encoding, st: Option<StatInfo>): Attempt
  {
    match o.read(full)
    case ReadOk(bytes) => Read(st, o.decode(bytes, enc))
    case ReadFailed(e) => Caught(st, e)
  }

  function TryRead(o: FsOracle, ctx: Context, p: string): Attempt
  {
    var full := FullPath(ctx, p);
    if ctx.includeStats then
      match o.stat(full)
      case StatFailed(e) => Caught(None, e)
      case StatOk(info) =>
        if !info.isFile then Caught(Some(info), NotAFile(p))
        else ReadStep(o, full, ctx.encoding, Some(info))
    else ReadStep(o, full, ctx.encoding, None)
  }

  /** The file-system calls made for one path. */
  function ItemCalls(o: FsOracle, ctx: Context, p: string): seq<FsCall>
  {
    var full := FullPath(ctx, p);
    if IsRejected(ctx, p) then []
    else if !ctx.includeStats then [ReadCall(full)]
    else match o.stat(full)
      case StatFailed(_) => [StatCall(full)]
      case StatOk(info) => if info.isFile then [StatCall(full), ReadCall(full)] else [StatCall(full)]
  }

  /** The result recorded for one path. */
  function ItemResult(o: FsOracle, ctx: Context, p: string): (r: ReadFileResult)
    ensures r.path == p
    ensures r.success <==> r.content.Some?
    ensures r.success ==> r.error.None? && r.suggestion.None?
    ensures !r.success ==> r.error.Some? && r.suggestion.Some?
    ensures IsRejected(ctx, p) ==> !r.success && r.stat.None?
    ensures Refused(r) <==> IsRejected(ctx, p)
  {
    if IsRejected(ctx, p) then
      var rel := RelativeText(RootOf(ctx), FullPath(ctx, p));
      ReadFileResult(p, false, None, None, Some(OutsideRoot(ctx.workspaceRoot, rel)), Some(StayInsideRoot(p)))
    else
      match TryRead(o, ctx, p)
      case Read(st, text) => ReadFileResult(p, true, Some(text), st, None, None)
      case Caught(st, e) => ReadFileResult(p, false, None, st, Some(FailureMessage(p, e)), Some(SuggestionFor(p, e)))
  }

  // ---------------------------------------------------------------- the batch

  /** One result per path, in input order. */
  function Results(o: FsOracle, ctx: Context, paths: seq<string>): seq<ReadFileResult>
  {
    if |paths| == 0 then []
    else Results(o, ctx, paths[..|paths| - 1]) + [ItemResult(o, ctx, paths[|paths| - 1])]
  }

  /** All file-system calls, path after path. */
  function Calls(o: FsOracle, ctx: Context, paths: seq<string>): seq<FsCall>
  {
    if |paths| == 0 then []
    else Calls(o, ctx, paths[..|paths| - 1]) + ItemCalls(o, ctx, paths[|paths| - 1])
  }

  /** The result of a path the workspace check refused. */
  predicate Refused(r: ReadFileResult)
  {
    r.error.Some? && r.error.value.OutsideRoot?
  }

  /** The `anySuccess` flag after recording `r`, given its value before: a read sets it, a refused path clears it. */
  function FlagAfter(r: ReadFileResult, flag: bool): bool
  {
    if Refused(r) then false else if r.success then true else flag
  }

  /** The `anySuccess` flag after the loop has recorded `rs`. */
  function OverallSuccess(rs: seq<ReadFileResult>): bool
  {
    if |rs| == 0 then false else FlagAfter(rs[|rs| - 1], OverallSuccess(rs[..|rs| - 1]))
  }

  /** The top-level `content`: one summary part exactly when the overall flag is set. */
  function Summary(success: bool): (c: seq<ContentPart>)
    ensures success ==> c == [TextPart("Read operation completed. Success: true")]
    ensures !success ==> c == []
  {
    // the template interpolates the flag, which is `true` on this branch
    if success then [TextPart("Read operation completed. Success: true")] else []
  }

  /** A rejected path is recorded without touching the file system. */
  lemma RejectedItem(o: FsOracle, ctx: Context, p: string)
    requires IsRejected(ctx, p)
    ensures ItemCalls(o, ctx, p) == []
    ensures ItemResult(o, ctx, p) == ReadFileResult(p, false, None, None,
      Some(OutsideRoot(ctx.workspaceRoot, RelativeText(RootOf(ctx), FullPath(ctx, p)))), Some(StayInsideRoot(p)))
  {
  }

  /** How the specification functions grow by one path, the calls after those made before the batch. */
  lemma Extend(o: FsOracle, ctx: Context, paths: seq<string>, i: nat, before: seq<FsCall>)
    requires i < |paths|
    ensures Results(o, ctx, paths[..i + 1]) == Results(o, ctx, paths[..i]) + [ItemResult(o, ctx, paths[i])]
    ensures before + Calls(o, ctx, paths[..i + 1]) == before + Calls(o, ctx, paths[..i]) + ItemCalls(o, ctx, paths[i])
  {
    assert paths[..i + 1][..i] == paths[..i];
  }

  /** `readFilesTool.execute(input, workspaceRoot)` */
  method Execute(input: ReadFilesInput, workspaceRoot: string, cwd: NormalPath, fs: FileSystem)
    returns (out: ReadFilesOutput)
    modifies fs`calls
    ensures InputError(input.paths).Some? ==>
      out == ReadFilesOutput(false, InputError(input.paths), [], []) && fs.calls == old(fs.calls)
    ensures InputError(input.paths).None? ==>
      var ctx := Context(cwd, workspaceRoot, input.encoding, input.includeStats);
      && out.results == Results(fs.oracle, ctx, input.paths)
      && out.success == OverallSuccess(out.results)
      && out.error.None?
      && out.content == Summary(out.success)
      && fs.calls == old(fs.calls) + Calls(fs.oracle, ctx, input.paths)
  {
    var invalid := InputError(input.paths);
    if invalid.Some? {
      return ReadFilesOutput(false, invalid, [], []);
    }
    var ctx := Context(cwd, workspaceRoot, input.encoding, input.includeStats);
    var root := ResolveFrom(cwd, workspaceRoot);
    var inputPaths := input.paths;
    var results: seq<ReadFileResult> := [];
    var anySuccess := false;
    var i := 0;
    while i < |inputPaths|
      invariant 0 <= i <= |inputPaths|
      invariant results == Results(fs.oracle, ctx, inputPaths[..i])
      invariant anySuccess == OverallSuccess(results)
      invariant fs.calls == old(fs.calls) + Calls(fs.oracle, ctx, inputPaths[..i])
    {
      Extend(fs.oracle, ctx, inputPaths, i, old(fs.calls));
      var result;
      result, anySuccess := ReadItem(fs, ctx, root, inputPaths[i], anySuccess);
      assert (results + [result])[..|results|] == results;
      results := results + [result];
      i := i + 1;
    }
    assert inputPaths[..i] == inputPaths;
    out := ReadFilesOutput(anySuccess, None, results, Summary(anySuccess));
  }

  /** The body of the loop for one path: the workspace check, then the read; updates the overall flag. */
  method ReadItem(fs: FileSystem, ctx: Context, root: NormalPath, itemPath: string, anySuccess: bool)
    returns (result: ReadFileResult, anySuccess': bool)
    requires root == RootOf(ctx)
    modifies fs`calls
    ensures anySuccess' == FlagAfter(result, anySuccess)
    ensures result == ItemResult(fs.oracle, ctx, itemPath)
    ensures fs.calls == old(fs.calls) + ItemCalls(fs.oracle, ctx, itemPath)
  {
    var fullPath := ResolveFrom(root, itemPath);
    var relativePath := RelativeText(root, fullPath);
    assert fullPath == FullPath(ctx, itemPath);
    if StartsWith(relativePath, "..") || IsAbsoluteText(relativePath) {
      RejectedItem(fs.oracle, ctx, itemPath);
      assert fs.calls + [] == fs.calls;
      var error := OutsideRoot(ctx.workspaceRoot, relativePath);
      result := ReadFileResult(itemPath, false, None, None, Some(error), Some(StayInsideRoot(itemPath)));
      anySuccess' := false;
    } else {
      result := ReadAccepted(fs, ctx, itemPath, fullPath);
      anySuccess' := if result.success then true else anySuccess;
    }
  }

  /** The `try`/`catch` for an accepted path and the result it records. */
  method ReadAccepted(fs: FileSystem, ctx: Context, itemPath: string, fullPath: NormalPath)
    returns (result: ReadFileResult)
    requires fullPath == FullPath(ctx, itemPath) && !IsRejected(ctx, itemPath)
    modifies fs`calls
    ensures result == ItemResult(fs.oracle, ctx, itemPath)
    ensures fs.calls == old(fs.calls) + ItemCalls(fs.oracle, ctx, itemPath)
  {
    var itemSuccess := false;
    var content: Option<string> := None;
    var error: Option<ErrorMessage> := None;
    var suggestionForError: Option<SuggestionMessage> := None;
    var attempt := TryReadItem(fs, ctx, itemPath, fullPath);
    match attempt {
      case Read(_, text) =>
        content := Some(text);
        itemSuccess := true;
      case Caught(_, e) =>
        itemSuccess := false;
        error := Some(FailureMessage(itemPath, e));
        suggestionForError := Some(SuggestionFor(itemPath, e));
    }
    result := ReadFileResult(itemPath, itemSuccess, content, attempt.stat, error,
                             if !itemSuccess then suggestionForError else None);
  }

  /** The `try` block for an accepted path: stat if asked, refuse a non-file, read and decode. */
  method TryReadItem(fs: FileSystem, ctx: Context, p: string, fullPath: NormalPath) returns (a: Attempt)
    requires fullPath == FullPath(ctx, p) && !IsRejected(ctx, p)
    modifies fs`calls
    ensures a == TryRead(fs.oracle, ctx, p)
    ensures fs.calls == old(fs.calls) + ItemCalls(fs.oracle, ctx, p)
  {
    var itemStat: Option<StatInfo> := None;
    if ctx.includeStats {
      var s := fs.Stat(fullPath);
      match s {
        case StatFailed(e) =>
          return Caught(None, e);
        case StatOk(info) =>
          itemStat := Some(info);
          if !info.isFile {
            return Caught(itemStat, NotAFile(p));
          }
      }
    }
    var r := fs.ReadFile(fullPath);
    match r {
      case ReadOk(bytes) =>
        a := Read(itemStat, fs.oracle.decode(bytes, ctx.encoding));
      case ReadFailed(e) =>
        a := Caught(itemStat, e);
    }
  }

  // ---------------------------------------------------------------- properties

  /** `f` applied to each element, the sequence built by appending at the end as the reader's loop does. */
  function MapLeft<A, B>(f: A -> B, xs: seq<A>): (ys: seq<B>)
    ensures |ys| == |xs|
  {
    if |xs| == 0 then [] else MapLeft(f, xs[..|xs| - 1]) + [f(xs[|xs| - 1])]
  }

  lemma {:induction false} MapLeftAt<A, B>(f: A -> B, xs: seq<A>, i: nat)
    requires i < |xs|
    ensures MapLeft(f, xs)[i] == f(xs[i])
    decreases |xs|
  {
    var n := |xs| - 1;
    if i < n {
      MapLeftAt(f, xs[..n], i);
      assert xs[..n][i] == xs[i];
    }
  }

  /** The results of a batch are `ItemResult` mapped over the paths. */
  lemma {:induction false} ResultsAsMap(o: FsOracle, ctx: Context, paths: seq<string>)
    ensures Results(o, ctx, paths) == MapLeft((p: string) => ItemResult(o, ctx, p), paths)
    decreases |paths|
  {
    if |paths| > 0 {
      ResultsAsMap(o, ctx, paths[..|paths| - 1]);
    }
  }

  /** One result per path, in order, each the one `ItemResult` specifies. */
  lemma ResultsAlign(o: FsOracle, ctx: Context, paths: seq<string>)
    ensures |Results(o, ctx, paths)| == |paths|
    ensures forall i :: 0 <= i < |paths| ==> Results(o, ctx, paths)[i] == ItemResult(o, ctx, paths[i])
  {
    var f := (p: string) => ItemResult(o, ctx, p);
    ResultsAsMap(o, ctx, paths);
    forall i | 0 <= i < |paths|
      ensures Results(o, ctx, paths)[i] == ItemResult(o, ctx, paths[i])
    {
      MapLeftAt(f, paths, i);
    }
  }

  /**
   * The workspace check in terms of the resolved path: a path is refused exactly
   * when it resolves outside the root, or resolves inside it with a first segment
   * below the root that starts with "..".
   */
  lemma RejectedIff(ctx: Context, p: string)
    ensures IsRejected(ctx, p) <==>
      var root := RootOf(ctx);
      var full := FullPath(ctx, p);
      !(root <= full) || (|full| > |root| && StartsWith(full[|root|], ".."))
  {
    EscapesIff(RootOf(ctx), FullPath(ctx, p));
  }

  /** Every file-system call for one path is on that path, resolved, and inside the root. */
  lemma ItemCallsInside(o: FsOracle, ctx: Context, p: string)
    ensures forall c :: c in ItemCalls(o, ctx, p) ==>
      c.target == FullPath(ctx, p) && !IsRejected(ctx, p) && RootOf(ctx) <= c.target
  {
    if !IsRejected(ctx, p) {
      AcceptedIsContained(RootOf(ctx), FullPath(ctx, p));
    }
  }

  /**
   * The reader asks for no path outside the workspace: every call of a batch is
   * on the resolved form of some requested path that passed the check, and that
   * resolved path textually lies inside the root.
   */
  lemma {:induction false} CallsInsideRoot(o: FsOracle, ctx: Context, paths: seq<string>)
    ensures forall c :: c in Calls(o, ctx, paths) ==>
      RootOf(ctx) <= c.target &&
      exists i :: 0 <= i < |paths| && c.target == FullPath(ctx, paths[i]) && !IsRejected(ctx, paths[i])
    decreases |paths|
  {
    if |paths| > 0 {
      var init := paths[..|paths| - 1];
      var last := paths[|paths| - 1];
      CallsInsideRoot(o, ctx, init);
      ItemCallsInside(o, ctx, last);
      forall c | c in Calls(o, ctx, paths)
        ensures RootOf(ctx) <= c.target
        ensures exists i :: 0 <= i < |paths| && c.target == FullPath(ctx, paths[i]) && !IsRejected(ctx, paths[i])
      {
        if c in Calls(o, ctx, init) {
          var i :| 0 <= i < |init| && c.target == FullPath(ctx, init[i]) && !IsRejected(ctx, init[i]);
          assert paths[i] == init[i];
        } else {
          assert c in ItemCalls(o, ctx, last);
          assert paths[|paths| - 1] == last;
        }
      }
    }
  }

  /** Without `includeStats` the reader never stats and records no stats. */
  lemma {:induction false} NoStatsUnlessAsked(o: FsOracle, ctx: Context, paths: seq<string>)
    requires !ctx.includeStats
    ensures forall c :: c in Calls(o, ctx, paths) ==> c.ReadCall?
    ensures forall r :: r in Results(o, ctx, paths) ==> r.stat.None?
    decreases |paths|
  {
    if |paths| > 0 {
      NoStatsUnlessAsked(o, ctx, paths[..|paths| - 1]);
    }
  }

  /** The reader's own "not a file" error says so, in the words the suggestion looks for. */
  lemma NotAFileMentioned(p: string)
    ensures Contains(NotAFile(p).message, "is not a file")
  {
    ContainsAppended("Path '" + p + "' ", "is not a file", ".");
    assert NotAFile(p).message == "Path '" + p + "' " + "is not a file" + ".";
  }

  /**
   * With `includeStats`, a path that stats as something other than a regular file
   * fails with the reader's own "not a file" error, keeps its stats, is pointed at
   * a file, and is never read.
   */
  lemma NotAFileResult(o: FsOracle, ctx: Context, p: string, info: StatInfo)
    requires ctx.includeStats && !IsRejected(ctx, p)
    requires o.stat(FullPath(ctx, p)) == StatOk(info) && !info.isFile
    ensures ItemResult(o, ctx, p) == ReadFileResult(p, false, None, Some(info),
      Some(ReadError(p, NotAFile(p).message)), Some(PointToFile(p)))
    ensures ItemCalls(o, ctx, p) == [StatCall(FullPath(ctx, p))]
  {
    NotAFileMentioned(p);
  }

  /** A missing file at the top level is answered by listing the current directory. */
  lemma MissingNameSuggestion(p: string, e: FsError)
    requires e.code == Some("ENOENT") && '/' !in p
    ensures SuggestionFor(p, e) == CheckFileExists(p, ".")
  {
    DirnameOfName(p);
  }

  /** A missing file "d/f" is answered by listing its directory "d". */
  lemma MissingNestedSuggestion(d: string, f: string, e: FsError)
    requires e.code == Some("ENOENT")
    requires |d| > 0 && d[0] != '/' && |f| > 0 && '/' !in f
    ensures SuggestionFor(d + "/" + f, e) == CheckFileExists(d + "/" + f, d)
  {
    DirnameOfNested(d, f);
  }

  /**
   * The overall flag is set exactly when some path was read successfully and
   * neither it nor any path after it was refused by the workspace check.
   */
  lemma {:induction false} OverallSuccessIff(rs: seq<ReadFileResult>)
    ensures OverallSuccess(rs) <==>
      exists i :: 0 <= i < |rs| && rs[i].success && forall j :: i <= j < |rs| ==> !Refused(rs[j])
    decreases |rs|
  {
    if |rs| > 0 {
      var n := |rs| - 1;
      var init := rs[..n];
      OverallSuccessIff(init);
      if OverallSuccess(rs) {
        if !rs[n].success {
          var i :| 0 <= i < |init| && init[i].success && forall j :: i <= j < |init| ==> !Refused(init[j]);
          assert rs[i].success;
          assert forall j :: i <= j < |rs| ==> !Refused(rs[j]) by {
            forall j | i <= j < |rs| ensures !Refused(rs[j]) {
              if j < n {
                assert rs[j] == init[j];
              }
            }
          }
        }
      }
    }
  }

  /**
   * A refused path clears the overall flag, whatever was read before it: the
   * reader reports failure even though an earlier file was read.
   */
  lemma RejectionClearsSuccess(o: FsOracle, ctx: Context, paths: seq<string>, p: string)
    requires IsRejected(ctx, p)
    ensures Results(o, ctx, paths + [p]) == Results(o, ctx, paths) + [ItemResult(o, ctx, p)]
    ensures !OverallSuccess(Results(o, ctx, paths + [p]))
  {
    var rs := Results(o, ctx, paths + [p]);
    assert (paths + [p])[..|paths|] == paths;
    assert rs[..|rs| - 1] == Results(o, ctx, paths);
  }

  /**
   * A plain name directly under the root is refused exactly when it starts with
   * "..": the textual check also refuses a file such as "..notes" inside the root.
   */
  lemma NameAtRootRejectedIff(ctx: Context, name: string)
    requires IsSegment(name)
    ensures FullPath(ctx, name) == RootOf(ctx) + [name]
    ensures IsRejected(ctx, name) <==> StartsWith(name, "..")
  {
    SplitName(name);
    assert Components([name]) == [name] + Components([]);
    var root := RootOf(ctx);
    assert Normalize(root, [name]) == Normalize(root + [name], []);
    RejectedIff(ctx, name);
  }
}
