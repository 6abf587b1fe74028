/**
 * OutputWriter: the console messages of the checker, including the progress
 * line that is printed at most once per two seconds. The clock reading is
 * passed in by the caller.
 */
module Output {
  import opened Strings
  import opened Terminal
  import Classify
  import CheckResult

  const MillisecsBetweenProgressPrints := 2000

  const BrowserNotSupportedWarning :=
    "Warning: Opening browser tabs is not supported on your Operating System."
    + " This program will not be able to open browser tabs for you."

  function NotInWorldAssemblyMessage(nationInQuestionName: string): string {
    "The nation '" + nationInQuestionName + "' is not a World Assembly member!"
  }

  function RegionSizeLine(regionName: string, numberOfNations: int): string {
    "Number of nations in region '" + regionName + "': " + IntString(numberOfNations)
  }

  function EstimateLine(seconds: int): string {
    "Estimated duration: ~" + IntString(seconds) + " seconds"
  }

  const RetrievingLine := "Retrieving nations data from NationStates API..."

  /**
   * The four lines of `printNationAndRegionInfo`: the region's size, a duration
   * estimate (its number is left open), an empty line and the retrieving notice.
   */
  ghost predicate RegionInfoLines(lines: seq<string>, regionName: string, numberOfNations: int) {
    && |lines| == 4
    && lines[0] == RegionSizeLine(regionName, numberOfNations)
    && (exists seconds: int :: lines[1] == EstimateLine(seconds))
    && lines[2..] == ["", RetrievingLine]
  }

  /** `out` is `out0`, then the region's four information lines, then `rest`. */
  ghost predicate InfoThen(out0: seq<string>, out: seq<string>, regionName: string, numberOfNations: int, rest: seq<string>) {
    && |out| == |out0| + 4 + |rest|
    && out[..|out0|] == out0
    && RegionInfoLines(out[|out0|..|out0| + 4], regionName, numberOfNations)
    && out[|out0| + 4..] == rest
  }

  /** Lines printed after the region information extend what follows it. */
  lemma InfoThenAppend(out0: seq<string>, out1: seq<string>, out: seq<string>, regionName: string,
                       numberOfNations: int, rest: seq<string>, more: seq<string>)
    requires InfoThen(out0, out1, regionName, numberOfNations, rest) && out == out1 + more
    ensures InfoThen(out0, out, regionName, numberOfNations, rest + more)
  {
    assert out[..|out0|] == out1[..|out0|];
    assert out[|out0|..|out0| + 4] == out1[|out0|..|out0| + 4];
    assert out[|out0| + 4..] == out1[|out0| + 4..] + more;
  }

  /** The line a printing `printNonSpammyProgress` call emits. */
  function ProgressLine(call: ProgressCall): string {
    "Processed " + IntString(call.progress) + "/" + IntString(call.numberOfNations) + " nations data..."
  }

  /** The summary lines printed after the pass, for a subject and the sizes of its three collections. */
  function CompletionLines(nationInQuestionName: string, inWorldAssembly: nat, notEndorsingBack: nat, notEndorsedBySubject: nat)
    : seq<string>
  {
    [ "...Finished retrieving data.", "",
      "WA members in the region: " + IntString(inWorldAssembly),
      "...that are endorsed by '" + nationInQuestionName + "', but are not endorsing back: "
        + IntString(notEndorsingBack),
      "...that are NOT endorsed by '" + nationInQuestionName + "': " + IntString(notEndorsedBySubject),
      "" ]
  }

  /** The throttle's test: strictly more than two seconds since the last printed progress line. */
  predicate ShouldPrintProgress(lastTimestamp: int, now: int) {
    now - lastTimestamp > MillisecsBetweenProgressPrints
  }

  /** The arguments of one `printNonSpammyProgress` call, with the clock reading at that call. */
  datatype ProgressCall = ProgressCall(numberOfNations: int, progress: int, now: int)

  /** The effect of a run of calls: the lines printed, the final `lastTimestamp`, and which calls printed. */
  datatype Throttled = Throttled(lines: seq<string>, lastTimestamp: int, printed: seq<nat>)

  /** A run of `printNonSpammyProgress` calls, starting from the given `lastTimestamp`. */
  function Throttle(lastTimestamp: int, calls: seq<ProgressCall>): Throttled
  {
    if calls == [] then Throttled([], lastTimestamp, [])
    else
      var t := Throttle(lastTimestamp, calls[..|calls| - 1]);
      var c := calls[|calls| - 1];
      if ShouldPrintProgress(t.lastTimestamp, c.now)
      then Throttled(t.lines + [ProgressLine(c)], c.now, t.printed + [|calls| - 1])
      else t
  }

  /** One more call: it prints exactly when more than 2000 ms passed since the last printed line. */
  lemma ThrottleStep(lastTimestamp: int, calls: seq<ProgressCall>, call: ProgressCall)
    ensures var t := Throttle(lastTimestamp, calls);
      Throttle(lastTimestamp, calls + [call]) ==
        if ShouldPrintProgress(t.lastTimestamp, call.now)
        then Throttled(t.lines + [ProgressLine(call)], call.now, t.printed + [|calls|])
        else t
  {
    assert (calls + [call])[..|calls|] == calls;
  }

  /** Each printed line is the progress line of the call that printed it. */
  lemma {:induction false} ThrottleLines(lastTimestamp: int, calls: seq<ProgressCall>)
    ensures var t := Throttle(lastTimestamp, calls);
      && |t.lines| == |t.printed|
      && (forall k :: 0 <= k < |t.printed| ==> t.printed[k] < |calls| && t.lines[k] == ProgressLine(calls[t.printed[k]]))
  {
    if calls != [] {
      var prefix := calls[..|calls| - 1];
      ThrottleLines(lastTimestamp, prefix);
      var t := Throttle(lastTimestamp, prefix);
      assert forall k :: 0 <= k < |t.printed| ==> calls[t.printed[k]] == prefix[t.printed[k]];
    }
  }

  /**
   * The printing calls come in call order, and `lastTimestamp` ends as the
   * clock reading of the last printing call (or unchanged if none printed).
   */
  lemma {:induction false} ThrottleOrder(lastTimestamp: int, calls: seq<ProgressCall>)
    ensures var t := Throttle(lastTimestamp, calls);
      && (forall k :: 0 <= k < |t.printed| ==> t.printed[k] < |calls|)
      && (forall k :: 0 < k < |t.printed| ==> t.printed[k - 1] < t.printed[k])
      && t.lastTimestamp == if t.printed == [] then lastTimestamp else calls[t.printed[|t.printed| - 1]].now
  {
    if calls != [] {
      var prefix := calls[..|calls| - 1];
      ThrottleOrder(lastTimestamp, prefix);
      var t := Throttle(lastTimestamp, prefix);
      assert forall k :: 0 <= k < |t.printed| ==> calls[t.printed[k]] == prefix[t.printed[k]];
    }
  }

  /**
   * The first printing call comes more than 2000 ms after the starting
   * timestamp, and any two successive printing calls are more than 2000 ms apart.
   */
  lemma {:induction false} ThrottleSpacing(lastTimestamp: int, calls: seq<ProgressCall>)
    ensures var t := Throttle(lastTimestamp, calls);
      && (forall k :: 0 <= k < |t.printed| ==> t.printed[k] < |calls|)
      && (|t.printed| > 0 ==> calls[t.printed[0]].now - lastTimestamp > MillisecsBetweenProgressPrints)
      && (forall k :: 0 < k < |t.printed| ==>
            calls[t.printed[k]].now - calls[t.printed[k - 1]].now > MillisecsBetweenProgressPrints)
  {
    if calls != [] {
      var prefix := calls[..|calls| - 1];
      ThrottleSpacing(lastTimestamp, prefix);
      ThrottleOrder(lastTimestamp, prefix);
      var t := Throttle(lastTimestamp, prefix);
      assert forall k :: 0 <= k < |t.printed| ==> calls[t.printed[k]] == prefix[t.printed[k]];
    }
  }

  /** Calls whose clock readings all lie within 2000 ms of each other print at most one line. */
  lemma AtMostOneLineWithin(lastTimestamp: int, calls: seq<ProgressCall>)
    requires forall i, j :: 0 <= i < j < |calls| ==> calls[j].now - calls[i].now <= MillisecsBetweenProgressPrints
    ensures |Throttle(lastTimestamp, calls).lines| <= 1
  {
    ThrottleSpacing(lastTimestamp, calls);
    ThrottleOrder(lastTimestamp, calls);
    ThrottleLines(lastTimestamp, calls);
  }

  class OutputWriter {
    const console: Console
    var lastTimestamp: int

    constructor (console: Console)
      ensures this.console == console && lastTimestamp == 0
    {
      this.console := console;
      lastTimestamp := 0;
    }

    /** Region size, a duration estimate, a blank line and the "retrieving" notice. */
    method PrintNationAndRegionInfo(regionName: string, nationNames: seq<string>)
      modifies console`out
      ensures InfoThen(old(console.out), console.out, regionName, |nationNames|, [])
    {
      console.Write(RegionSizeLine(regionName, |nationNames|));
      // 0.601 s per nation; the source computes this in single-precision floating point
      var seconds := |nationNames| * 601 / 1000;
      console.Write(EstimateLine(seconds));
      console.Write("");
      console.Write(RetrievingLine);
      assert console.out[|old(console.out)|..][1] == EstimateLine(seconds);
    }

    method PrintBrowserNotSupportedWarning()
      modifies console`out
      ensures console.out == old(console.out) + [BrowserNotSupportedWarning]
    {
      console.Write(BrowserNotSupportedWarning);
    }

    /** Prints the message on standard error; the process then exits with status 1 (the caller stops). */
    method ExitWithErrorMsg(errorMsg: string)
      modifies console`err
      ensures console.err == old(console.err) + [errorMsg]
    {
      console.WriteError(errorMsg);
    }

    method ExitWithNotInWorldAssemblyError(nationInQuestionName: string)
      modifies console`err
      ensures console.err == old(console.err) + [NotInWorldAssemblyMessage(nationInQuestionName)]
    {
      ExitWithErrorMsg("The nation '" + nationInQuestionName + "' is not a World Assembly member!");
    }

    /** The summary counts of a finished classification. */
    method PrintProgressCompletionInfo(result: CheckResult.EndorsementsCheckResult)
      modifies console`out
      ensures var c := result.Sets();
        console.out == old(console.out) +
          CompletionLines(result.nationInQuestionName, |c.inWorldAssembly|, |c.notEndorsingBack|, |c.notEndorsedBySubject|)
    {
      var c := result.Sets();
      console.Write("...Finished retrieving data.");
      console.Write("");
      console.Write("WA members in the region: " + IntString(|c.inWorldAssembly|));
      console.Write("...that are endorsed by '" + result.nationInQuestionName + "', but are not endorsing back: "
        + IntString(|c.notEndorsingBack|));
      console.Write("...that are NOT endorsed by '" + result.nationInQuestionName + "': "
        + IntString(|c.notEndorsedBySubject|));
      console.Write("");
    }

    /** Prints the progress line only when more than 2000 ms passed since the last one printed. */
    method PrintNonSpammyProgress(numberOfNations: int, progress: int, now: int)
      modifies this`lastTimestamp, console`out
      ensures ShouldPrintProgress(old(lastTimestamp), now) ==>
        console.out == old(console.out) + [ProgressLine(ProgressCall(numberOfNations, progress, now))] && lastTimestamp == now
      ensures !ShouldPrintProgress(old(lastTimestamp), now) ==>
        console.out == old(console.out) && lastTimestamp == old(lastTimestamp)
    {
      if now - lastTimestamp > MillisecsBetweenProgressPrints {
        console.Write("Processed " + IntString(progress) + "/" + IntString(numberOfNations) + " nations data...");
        lastTimestamp := now;
      }
    }

    /** Prints each line in order, then one empty line. */
    method PrintLinesEndingWithNewline(lines: seq<string>)
      modifies console`out
      ensures console.out == old(console.out) + lines + [""]
    {
      var i := 0;
      while i < |lines|
        invariant 0 <= i <= |lines|
        invariant console.out == old(console.out) + lines[..i]
      {
        console.Write(lines[i]);
        i := i + 1;
        assert lines[..i] == lines[..i - 1] + [lines[i - 1]];
      }
      assert lines[..i] == lines;
      console.Write("");
    }
  }
}
