/**
 * The sequential wait tool (`waitTool`): waits for each requested duration in
 * turn, records one result per item, sums the durations actually waited and
 * clears the overall flag when an item fails.
 *
 * The timer is an oracle: `timer(i)` says how the wait of the i-th item
 * settles — it elapses, or the promise machinery throws some value.
 */
module Wait {
  import opened Js
  import opened Text

  /** One requested wait, after the schema has accepted it. */
  datatype WaitItem = WaitItem(id: Option<string>, ms: int)

  /** How the wait of one item settles. */
  datatype TimerOutcome = Elapsed | Failed(error: Thrown)

  /** The record `processSingleWait` builds for one item. */
  datatype WaitResult = WaitResult(
    id: Option<string>,
    success: bool,
    durationWaitedMs: Option<int>,
    error: Option<string>)

  /** How a call of `processSingleWait` ends: with its record, or by throwing an error with the given message. */
  datatype Settled = Returned(result: WaitResult) | Threw(message: string)

  datatype WaitOutput = WaitOutput(
    success: bool,
    results: seq<WaitResult>,
    totalDurationWaitedMs: int,
    error: Option<string>,
    content: seq<ContentPart>)

  // ---------------------------------------------------------------- input schema

  /** The schema: at least one item, and every duration a non-negative integer. */
  predicate ValidInput(items: seq<WaitItem>)
  {
    |items| >= 1 && forall i :: 0 <= i < |items| ==> items[i].ms >= 0
  }

  // ---------------------------------------------------------------- one item

  /**
   * Whether the `catch` of `processSingleWait` itself throws: reading `.message`
   * of `undefined` or `null` raises a TypeError that leaves the helper.
   */
  predicate Escapes(t: TimerOutcome)
  {
    t.Failed? && (t.error.Undefined? || t.error.NullValue?)
  }

  /** The message of the TypeError that leaves the helper when `e` was thrown. */
  function AccessError(e: Thrown): string
  {
    if e.NullValue? then NullMessageAccess else UndefinedMessageAccess
  }

  /** `processSingleWait(item)` when its wait settles as `t`. */
  function SingleWait(item: WaitItem, t: TimerOutcome): Settled
  {
    match t
    case Elapsed => Returned(WaitResult(item.id, true, Some(item.ms), None))
    case Failed(ErrorObject(msg)) => Returned(WaitResult(item.id, false, None, Some("Wait failed: " + msg)))
    case Failed(OtherValue(text)) => Returned(WaitResult(item.id, false, None, Some("Wait failed: " + text)))
    case Failed(Undefined) => Threw(UndefinedMessageAccess)
    case Failed(NullValue) => Threw(NullMessageAccess)
  }

  /** The fields of the result record are set step by step, as the helper does. */
  method ProcessSingleWait(item: WaitItem, t: TimerOutcome) returns (s: Settled)
    ensures s == SingleWait(item, t)
  {
    var id := item.id;
    var success := false;
    var durationWaitedMs: Option<int> := None;
    var error: Option<string> := None;
    match t {
      case Elapsed =>
        success := true;
        durationWaitedMs := Some(item.ms);
      case Failed(e) =>
        match e {
          case ErrorObject(msg) => error := Some("Wait failed: " + msg);
          case OtherValue(text) => error := Some("Wait failed: " + text);
          case Undefined => return Threw(UndefinedMessageAccess);
          case NullValue => return Threw(NullMessageAccess);
        }
        success := false;
    }
    s := Returned(WaitResult(id, success, durationWaitedMs, error));
  }

  /** What the helper promises about one item. */
  lemma SingleWaitOutcomes(item: WaitItem, t: TimerOutcome)
    ensures SingleWait(item, t).Threw? <==> Escapes(t)
    ensures SingleWait(item, t).Threw? ==> SingleWait(item, t).message == AccessError(t.error)
    ensures SingleWait(item, t).Returned? ==>
      var r := SingleWait(item, t).result;
      && r.id == item.id
      && (r.success <==> t.Elapsed?)
      && (r.success ==> r.durationWaitedMs == Some(item.ms) && r.error.None?)
      && (!r.success ==> r.durationWaitedMs.None? && r.error.Some? && StartsWith(r.error.value, "Wait failed: "))
  {
    match t {
      case Elapsed =>
      case Failed(e) =>
        if !Escapes(t) {
          var msg := if e.ErrorObject? then e.message else e.messageText;
          assert ("Wait failed: " + msg)[..13] == "Wait failed: ";
        }
    }
  }

  // ---------------------------------------------------------------- the batch

  /** The loop's state: the results so far, the running total, the overall flag, and the message of an error that left the loop. */
  datatype Progress = Progress(results: seq<WaitResult>, total: int, overallSuccess: bool, escaped: Option<string>)

  /** The bookkeeping after one returned result: a timed wait adds its duration, a failure clears the flag. */
  function Record(p: Progress, r: WaitResult): Progress
  {
    var results := p.results + [r];
    if r.success && r.durationWaitedMs.Some? then Progress(results, p.total + r.durationWaitedMs.value, p.overallSuccess, None)
    else if !r.success then Progress(results, p.total, false, None)
    else Progress(results, p.total, p.overallSuccess, None)
  }

  /** The loop's state after `items` (the first items of a batch), the i-th waiting as `timer(i)` says. */
  function Run(items: seq<WaitItem>, timer: nat -> TimerOutcome): Progress
    decreases |items|
  {
    if |items| == 0 then Progress([], 0, true, None)
    else
      var n := |items| - 1;
      var p := Run(items[..n], timer);
      if p.escaped.Some? then p
      else match SingleWait(items[n], timer(n))
        case Threw(msg) => p.(escaped := Some(msg))
        case Returned(r) => Record(p, r)
  }

  const UnexpectedErrorPrefix: string := "Unexpected error during wait tool execution: "

  /** The tool's output once the loop has ended in state `p`, for a batch of `count` items. */
  function Output(count: nat, p: Progress): WaitOutput
  {
    match p.escaped
    case Some(msg) => WaitOutput(false, p.results, p.total, Some(UnexpectedErrorPrefix + msg), [])
    case None =>
      WaitOutput(p.overallSuccess, p.results, p.total, None, [TextPart(SummaryText(count, p.total, p.overallSuccess))])
  }

  /** The text part of a completed batch. */
  function SummaryText(count: nat, total: int, success: bool): string
  {
    "Processed " + NatText(count) + " wait operations. Total duration waited: " + IntText(total)
      + "ms. Overall success: " + BoolText(success)
  }

  /** Once an error has left the loop, later items change nothing. */
  lemma {:induction false} EscapeIsFinal(items: seq<WaitItem>, timer: nat -> TimerOutcome, k: nat, n: nat)
    requires k <= n <= |items|
    requires Run(items[..k], timer).escaped.Some?
    ensures Run(items[..n], timer) == Run(items[..k], timer)
    decreases n
  {
    if n > k {
      EscapeIsFinal(items, timer, k, n - 1);
      assert items[..n][..n - 1] == items[..n - 1];
    }
  }

  /** `waitTool.execute(input)`: input validation happens before, in the registration wrapper. */
  method Execute(items: seq<WaitItem>, timer: nat -> TimerOutcome) returns (out: WaitOutput)
    ensures out == Output(|items|, Run(items, timer))
  {
    var results: seq<WaitResult> := [];
    var overallSuccess := true;
    var totalWaited := 0;
    var i := 0;
    while i < |items|
      invariant 0 <= i <= |items|
      invariant Run(items[..i], timer) == Progress(results, totalWaited, overallSuccess, None)
    {
      assert items[..i + 1][..i] == items[..i];
      var settled := ProcessSingleWait(items[i], timer(i));
      match settled {
        case Threw(msg) =>
          EscapeIsFinal(items, timer, i + 1, |items|);
          assert items[..|items|] == items;
          return WaitOutput(false, results, totalWaited, Some(UnexpectedErrorPrefix + msg), []);
        case Returned(result) =>
          results := results + [result];
          if result.success && result.durationWaitedMs.Some? {
            totalWaited := totalWaited + result.durationWaitedMs.value;
          } else if !result.success {
            overallSuccess := false;
          }
      }
      i := i + 1;
    }
    assert items[..i] == items;
    out := WaitOutput(overallSuccess, results, totalWaited, None, [TextPart(SummaryText(|items|, totalWaited, overallSuccess))]);
  }

  // ---------------------------------------------------------------- properties

  /** The sum of the durations of the successful results, from the front. */
  function Waited(rs: seq<WaitResult>): int
  {
    if |rs| == 0 then 0
    else (if rs[0].success && rs[0].durationWaitedMs.Some? then rs[0].durationWaitedMs.value else 0) + Waited(rs[1..])
  }

  lemma {:induction false} WaitedAppend(rs: seq<WaitResult>, r: WaitResult)
    ensures Waited(rs + [r]) == Waited(rs) + (if r.success && r.durationWaitedMs.Some? then r.durationWaitedMs.value else 0)
    decreases |rs|
  {
    if |rs| > 0 {
      assert (rs + [r])[1..] == rs[1..] + [r];
      WaitedAppend(rs[1..], r);
    }
  }

  /**
   * The total is the sum over the successful results recorded, and the overall
   * flag is set exactly when no recorded item failed; both hold also when an
   * error left the loop early.
   */
  lemma {:induction false} RunTotals(items: seq<WaitItem>, timer: nat -> TimerOutcome)
    ensures Run(items, timer).total == Waited(Run(items, timer).results)
    ensures Run(items, timer).overallSuccess <==> forall r :: r in Run(items, timer).results ==> r.success
    decreases |items|
  {
    if |items| > 0 {
      var n := |items| - 1;
      var p := Run(items[..n], timer);
      RunTotals(items[..n], timer);
      if p.escaped.None? && SingleWait(items[n], timer(n)).Returned? {
        WaitedAppend(p.results, SingleWait(items[n], timer(n)).result);
      }
    }
  }

  /**
   * The results are those of the items in order, up to the first item whose
   * helper threw; without such an item there is one result per item.
   */
  lemma {:induction false} RunResults(items: seq<WaitItem>, timer: nat -> TimerOutcome)
    ensures |Run(items, timer).results| <= |items|
    ensures forall j :: 0 <= j < |Run(items, timer).results| ==>
      !Escapes(timer(j)) && SingleWait(items[j], timer(j)) == Returned(Run(items, timer).results[j])
    ensures Run(items, timer).escaped.None? <==> forall j :: 0 <= j < |items| ==> !Escapes(timer(j))
    ensures Run(items, timer).escaped.None? ==> |Run(items, timer).results| == |items|
    ensures Run(items, timer).escaped.Some? ==>
      Escapes(timer(|Run(items, timer).results|)) && Run(items, timer).escaped == Some(AccessError(timer(|Run(items, timer).results|).error))
    decreases |items|
  {
    if |items| > 0 {
      var n := |items| - 1;
      var init := items[..n];
      var p := Run(init, timer);
      RunResults(init, timer);
      SingleWaitOutcomes(items[n], timer(n));
      assert forall j :: 0 <= j < n ==> init[j] == items[j];
    }
  }

  /** With valid input the total waited is never negative. */
  lemma {:induction false} TotalNonNegative(items: seq<WaitItem>, timer: nat -> TimerOutcome)
    requires ValidInput(items)
    ensures Run(items, timer).total >= 0
    decreases |items|
  {
    var n := |items| - 1;
    if n > 0 {
      assert forall i :: 0 <= i < n ==> items[..n][i] == items[i];
      TotalNonNegative(items[..n], timer);
    } else {
      assert items[..n] == [];
    }
  }

  /** A zero-millisecond wait that elapses is a success that adds nothing to the total. */
  lemma ZeroWaitSucceeds(id: Option<string>, p: Progress)
    ensures SingleWait(WaitItem(id, 0), Elapsed) == Returned(WaitResult(id, true, Some(0), None))
    ensures var q := Record(p, WaitResult(id, true, Some(0), None));
      q.results == p.results + [WaitResult(id, true, Some(0), None)]
      && q.total == p.total && q.overallSuccess == p.overallSuccess
  {
  }

  /**
   * The summary the tool returns: one text part naming the item count, the total
   * and the flag when every helper call returned; otherwise failure, the partial
   * results and running total, the error text and no content.
   */
  lemma OutputShape(items: seq<WaitItem>, timer: nat -> TimerOutcome)
    ensures var p := Run(items, timer);
      var out := Output(|items|, p);
      && out.results == p.results
      && out.totalDurationWaitedMs == p.total
      && (p.escaped.Some? ==>
            !out.success && out.content == [] && out.error.Some? && StartsWith(out.error.value, UnexpectedErrorPrefix))
      && (p.escaped.None? ==>
            out.success == p.overallSuccess && out.error.None? && |out.content| == 1)
  {
    var p := Run(items, timer);
    if p.escaped.Some? {
      var e := UnexpectedErrorPrefix + p.escaped.value;
      assert e[..|UnexpectedErrorPrefix|] == UnexpectedErrorPrefix;
    }
  }
}
