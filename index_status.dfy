/**
 * The index status tool (`get-index-status`): merges what the index manager
 * reports about the vector database with what the background service reports
 * about itself into one status record, checks that record against its schema
 * and returns it as a one-element list.
 *
 * The index manager and the service are given as the outcomes of asking them.
 */
module IndexStatus {
  import opened Js

  /** A JavaScript property that may be missing (`undefined`), `null`, or hold a value. */
  datatype Field<T> = Absent | Null | Value(value: T)

  /** `f ?? fallback` */
  function OrElse<T>(f: Field<T>, fallback: T): (v: T)
    ensures f.Value? ==> v == f.value
    ensures !f.Value? ==> v == fallback
  {
    if f.Value? then f.value else fallback
  }

  // ---------------------------------------------------------------- service states

  /** The operational states of the background service the result schema allows. */
  datatype ServiceState = Initializing | Scanning | ProcessingInitialQueue | Watching | Idle | Stopping | Unknown

  function StateName(s: ServiceState): string
  {
    match s
    case Initializing => "Initializing"
    case Scanning => "Scanning"
    case ProcessingInitialQueue => "Processing Initial Queue"
    case Watching => "Watching"
    case Idle => "Idle"
    case Stopping => "Stopping"
    case Unknown => "Unknown"
  }

  /** The schema's enum check on a state name. */
  function ParseState(name: string): (s: Option<ServiceState>)
  {
    if name == "Initializing" then Some(Initializing)
    else if name == "Scanning" then Some(Scanning)
    else if name == "Processing Initial Queue" then Some(ProcessingInitialQueue)
    else if name == "Watching" then Some(Watching)
    else if name == "Idle" then Some(Idle)
    else if name == "Stopping" then Some(Stopping)
    else if name == "Unknown" then Some(Unknown)
    else None
  }

  /** Every state's name is accepted, as that state. */
  lemma StateRoundTrip(s: ServiceState)
    ensures ParseState(StateName(s)) == Some(s)
  {
  }

  /** The enum check accepts exactly the seven names, each as its own state. */
  lemma ParseStateExact(name: string)
    ensures ParseState(name).Some? ==> StateName(ParseState(name).value) == name
    ensures ParseState(name).None? <==> forall s: ServiceState :: StateName(s) != name
  {
    if ParseState(name).None? {
      forall s: ServiceState ensures StateName(s) != name {
        StateRoundTrip(s);
      }
    }
  }

  // ---------------------------------------------------------------- inputs

  /** What `indexManager.getStatus()` does. */
  datatype DbStatusOutcome = StatusOk(count: int, name: string) | StatusThrew(error: Thrown)

  /** The index manager in the context: missing, or present with its `isInitialized()` answer and its `getStatus()` outcome. */
  datatype ManagerOutcome = NoManager | Manager(initialized: bool, status: DbStatusOutcome)

  /** The object `ragService.getServiceStatus()` returns, with its properties as found. */
  datatype ServiceStatus = ServiceStatus(
    state: Field<string>,
    initialized: Field<bool>,
    initialScanComplete: Field<bool>,
    watching: Field<bool>,
    filesInQueue: Field<int>,
    processedFilesCount: Field<int>,
    totalFilesInitialScan: Field<int>)

  /** The service in the context: missing (or without a `getServiceStatus` function), throwing, or returning a value. */
  datatype ServiceSource = NoService | ServiceThrew | ServiceReturned(status: Field<ServiceStatus>)

  // ---------------------------------------------------------------- output

  datatype IndexStatusResult = IndexStatusResult(
    success: bool,
    chunkCount: Option<int>,
    collectionName: Option<string>,
    error: Option<string>,
    suggestion: Option<string>,
    serviceState: string,
    serviceInitialized: bool,
    initialScanComplete: bool,
    serviceWatching: bool,
    filesInQueue: Field<int>,
    processedFilesCount: Field<int>,
    totalFilesInitialScan: Field<int>)

  /** What the tool does: return the list of records, or throw. */
  datatype ToolOutcome =
    | Parts(records: seq<IndexStatusResult>)
    | InputRejected(message: string)   // the `Error` thrown when the arguments fail the input schema
    | OutputRejected                   // the schema error thrown when the merged record fails the result schema

  // ---------------------------------------------------------------- the database side

  const MissingManagerError: string := "IndexManager instance is missing or not initialized in context."
  const MissingManagerSuggestion: string := "Ensure the RAG service started correctly and passed the IndexManager."
  const UnknownDbError: string := "Unknown error getting index DB status"
  const DbSuggestion: string := "Check vector database configuration and connectivity."

  /** The database part of the record: success, chunk count, collection name, error, suggestion. */
  datatype DbPart = DbPart(success: bool, chunkCount: Option<int>, collectionName: Option<string>,
                           error: Option<string>, suggestion: Option<string>)

  /** `getStatus` is asked only when the manager is there and initialized. */
  predicate Ready(m: ManagerOutcome)
  {
    m.Manager? && m.initialized
  }

  function Database(m: ManagerOutcome): (d: DbPart)
    ensures d.success <==> Ready(m) && m.status.StatusOk?
    ensures d.success ==> d.chunkCount == Some(m.status.count) && d.collectionName == Some(m.status.name)
    ensures d.success <==> d.error.None?
    ensures d.chunkCount.Some? <==> d.success
    ensures d.collectionName.Some? <==> d.success
  {
    if Ready(m) then
      match m.status
      case StatusOk(count, name) => DbPart(true, Some(count), Some(name), None, None)
      case StatusThrew(e) => DbPart(false, None, None, Some(MessageOr(e, UnknownDbError)), Some(DbSuggestion))
    else DbPart(false, None, None, Some(MissingManagerError), Some(MissingManagerSuggestion))
  }

  // ---------------------------------------------------------------- the service side

  /** `serviceStatus` after the optional call: `null` unless the call returned. */
  function Observed(s: ServiceSource): Field<ServiceStatus>
  {
    if s.ServiceReturned? then s.status else Null
  }

  /** `serviceStatus?.<field>`: `undefined` when there is no status object. */
  function Member<T>(o: Field<ServiceStatus>, get: ServiceStatus -> Field<T>): (f: Field<T>)
    ensures !o.Value? ==> f == Absent
    ensures o.Value? ==> f == get(o.value)
  {
    if o.Value? then get(o.value) else Absent
  }

  /** The service part of the record, with the defaults of `??` applied. */
  datatype ServicePart = ServicePart(state: string, initialized: bool, initialScanComplete: bool, watching: bool,
                                     filesInQueue: Field<int>, processedFilesCount: Field<int>,
                                     totalFilesInitialScan: Field<int>)

  function Service(s: ServiceSource): (p: ServicePart)
  {
    var o := Observed(s);
    ServicePart(
      OrElse(Member(o, (x: ServiceStatus) => x.state), "Unknown"),
      OrElse(Member(o, (x: ServiceStatus) => x.initialized), false),
      OrElse(Member(o, (x: ServiceStatus) => x.initialScanComplete), false),
      OrElse(Member(o, (x: ServiceStatus) => x.watching), false),
      Member(o, (x: ServiceStatus) => x.filesInQueue),
      Member(o, (x: ServiceStatus) => x.processedFilesCount),
      Member(o, (x: ServiceStatus) => x.totalFilesInitialScan))
  }

  /** The record `finalResult` before the schema check. */
  function Merge(d: DbPart, p: ServicePart): IndexStatusResult
  {
    IndexStatusResult(d.success, d.chunkCount, d.collectionName, d.error, d.suggestion,
      p.state, p.initialized, p.initialScanComplete, p.watching,
      p.filesInQueue, p.processedFilesCount, p.totalFilesInitialScan)
  }

  function StatusRecord(m: ManagerOutcome, s: ServiceSource): IndexStatusResult
  {
    Merge(Database(m), Service(s))
  }

  // ---------------------------------------------------------------- schemas

  /** The input schema: no arguments, or any object. */
  predicate ArgsValid(args: Option<Json>)
  {
    args.None? || args.value.JObject?
  }

  /** An optional non-negative integer counter: missing or a value of at least 0 (`null` is refused). */
  predicate CounterOk(f: Field<int>)
  {
    f.Absent? || (f.Value? && f.value >= 0)
  }

  /** The result schema on a record. */
  predicate Conforms(r: IndexStatusResult)
  {
    && (r.chunkCount.None? || r.chunkCount.value >= 0)
    && ParseState(r.serviceState).Some?
    && CounterOk(r.filesInQueue)
    && CounterOk(r.processedFilesCount)
    && (r.totalFilesInitialScan.Null? || CounterOk(r.totalFilesInitialScan))
  }

  /** `indexStatusTool.execute({ context, args })` */
  function Execute(args: Option<Json>, m: ManagerOutcome, s: ServiceSource): (out: ToolOutcome)
    ensures out.InputRejected? <==> !ArgsValid(args)
    ensures out.Parts? ==> |out.records| == 1 && Conforms(out.records[0])
  {
    if !ArgsValid(args) then InputRejected("Input validation failed: ")
    else
      var r := StatusRecord(m, s);
      if Conforms(r) then Parts([r]) else OutputRejected
  }

  // ---------------------------------------------------------------- properties

  /**
   * The tool answers with its record exactly when the arguments pass and the
   * record passes the result schema; its success flag is the database's.
   */
  lemma ExecuteOutcome(args: Option<Json>, m: ManagerOutcome, s: ServiceSource)
    ensures Execute(args, m, s).Parts? <==> ArgsValid(args) && Conforms(StatusRecord(m, s))
    ensures Execute(args, m, s).Parts? ==>
      Execute(args, m, s).records[0] == StatusRecord(m, s) &&
      (Execute(args, m, s).records[0].success <==> Ready(m) && m.status.StatusOk?)
  {
  }

  /** A missing or uninitialised manager: the fixed error and suggestion, and no database fields. */
  lemma MissingManager(m: ManagerOutcome, s: ServiceSource)
    requires !Ready(m)
    ensures var r := StatusRecord(m, s);
      && !r.success && r.chunkCount.None? && r.collectionName.None?
      && r.error == Some(MissingManagerError) && r.suggestion == Some(MissingManagerSuggestion)
  {
  }

  /** `getStatus` is not consulted unless the manager is ready: its outcome changes nothing. */
  lemma StatusUnconsulted(st1: DbStatusOutcome, st2: DbStatusOutcome, s: ServiceSource)
    ensures StatusRecord(Manager(false, st1), s) == StatusRecord(Manager(false, st2), s) == StatusRecord(NoManager, s)
  {
  }

  /** A throwing `getStatus`: the error's message (or a fixed text for non-errors) and the connectivity hint. */
  lemma StatusThrows(e: Thrown, s: ServiceSource)
    ensures var r := StatusRecord(Manager(true, StatusThrew(e)), s);
      && !r.success && r.chunkCount.None? && r.collectionName.None?
      && r.error == Some(if e.ErrorObject? then e.message else UnknownDbError)
      && r.suggestion == Some(DbSuggestion)
  {
  }

  /** Without a service status, the service fields take their defaults. */
  lemma ServiceDefaults(s: ServiceSource)
    requires s.NoService? || s.ServiceThrew? || (s.ServiceReturned? && !s.status.Value?)
    ensures Service(s) == ServicePart("Unknown", false, false, false, Absent, Absent, Absent)
  {
  }

  /**
   * The two sides do not mask each other: the database fields depend only on the
   * manager, the service fields only on the service.
   */
  lemma SidesIndependent(m1: ManagerOutcome, m2: ManagerOutcome, s1: ServiceSource, s2: ServiceSource)
    ensures var a := StatusRecord(m1, s1);
      var b := StatusRecord(m1, s2);
      a.success == b.success && a.chunkCount == b.chunkCount && a.collectionName == b.collectionName
      && a.error == b.error && a.suggestion == b.suggestion
    ensures var a := StatusRecord(m1, s1);
      var b := StatusRecord(m2, s1);
      a.serviceState == b.serviceState && a.serviceInitialized == b.serviceInitialized
      && a.initialScanComplete == b.initialScanComplete && a.serviceWatching == b.serviceWatching
      && a.filesInQueue == b.filesInQueue && a.processedFilesCount == b.processedFilesCount
      && a.totalFilesInitialScan == b.totalFilesInitialScan
  {
  }

  /**
   * When the merged record fails the result schema: a negative chunk count, a
   * state outside the enum, or a `null` or negative counter.
   */
  lemma RecordConformsIff(m: ManagerOutcome, s: ServiceSource)
    ensures Conforms(StatusRecord(m, s)) <==>
      var p := Service(s);
      && (Ready(m) && m.status.StatusOk? ==> m.status.count >= 0)
      && (exists st: ServiceState :: StateName(st) == p.state)
      && CounterOk(p.filesInQueue) && CounterOk(p.processedFilesCount)
      && (p.totalFilesInitialScan.Null? || CounterOk(p.totalFilesInitialScan))
  {
    var p := Service(s);
    ParseStateExact(p.state);
    if ParseState(p.state).Some? {
      assert StateName(ParseState(p.state).value) == p.state;
    }
  }

  /**
   * With a status object the service fields are read from it, `??` supplying the
   * defaults for the state and the flags, whatever the database side did.
   */
  lemma ServiceCopied(m: ManagerOutcome, st: ServiceStatus)
    ensures var r := StatusRecord(m, ServiceReturned(Value(st)));
      && r.serviceState == OrElse(st.state, "Unknown")
      && r.serviceInitialized == OrElse(st.initialized, false)
      && r.initialScanComplete == OrElse(st.initialScanComplete, false)
      && r.serviceWatching == OrElse(st.watching, false)
      && r.filesInQueue == st.filesInQueue
      && r.processedFilesCount == st.processedFilesCount
      && r.totalFilesInitialScan == st.totalFilesInitialScan
  {
  }

  /** With no service status and a usable count, the record always passes the schema. */
  lemma DefaultsConform(m: ManagerOutcome, s: ServiceSource)
    requires !Observed(s).Value?
    requires Ready(m) && m.status.StatusOk? ==> m.status.count >= 0
    ensures Execute(None, m, s) == Parts([StatusRecord(m, s)])
  {
    ServiceDefaults(s);
    StateRoundTrip(Unknown);
  }
}
