/**
 * EndorsementsChecker: the application flow. It reads the subject nation's
 * name, fetches the subject and its region, classifies every other nation of
 * the region into the three sets of an EndorsementsCheckResult, prints the
 * counts, and offers to open or print a URL for each nation of the two
 * endorsement sets.
 *
 * Unlike the legacy `Main`, this version does not test the fetched records
 * for null: a missing subject, region or candidate ends the run with a
 * null dereference, modelled here as a `Crash`.
 */
module Checker {
  import opened NationStates
  import opened Terminal
  import opened Desktop
  import Classify
  import Input
  import Output
  import CheckResult

  const NationUrlPrefix := "https://www.nationstates.net/nation="

  const OpenTabsForUnendorsedNations := "Open browser tab for each nation not yet endorsed?"
  const PrintUrlsForUnendorsedNations := "Print URLs to each nation not yet endorsed?"
  const OpenTabsForNationsNotEndorsingBack :=
    "Open browser tab for each nation already endorsed, but that is not endorsing back?"
  const PrintUrlsForNationsNotEndorsingBack :=
    "Print URLs to each nation already endorsed, but that is not endorsing back?"

  /** The nation's page: the fixed prefix followed by the name, unchanged. */
  function CreateUrlForNation(nationName: string): (url: string)
    ensures |url| == |NationUrlPrefix| + |nationName|
    ensures url[..|NationUrlPrefix|] == NationUrlPrefix && url[|NationUrlPrefix|..] == nationName
  {
    "https://www.nationstates.net/nation=" + nationName
  }

  /** The nation a page URL points to; the partner of CreateUrlForNation. */
  function NationOfUrl(url: string): Option<string> {
    if |url| >= |NationUrlPrefix| && url[..|NationUrlPrefix|] == NationUrlPrefix
    then Some(url[|NationUrlPrefix|..])
    else None
  }

  /** Every nation's URL leads back to that nation, so distinct nations get distinct URLs. */
  lemma UrlRoundTrip(nationName: string)
    ensures NationOfUrl(CreateUrlForNation(nationName)) == Some(nationName)
  {
  }

  /** `isInWorldAssembly`: true for a member or delegate, false for a non-member and for no status at all. */
  function IsInWorldAssembly(status: Option<WorldAssemblyStatus>): (r: bool)
    ensures r <==> Classify.InAssembly(status)
    ensures status == None ==> !r
  {
    status != None && (status.value == Member || status.value == Delegate)
  }

  /** How a run ends when it does not complete. */
  datatype Crash =
    | NullNation(name: string)               // null dereference: the API returned no such nation
    | NullRegion(regionName: string)         // null dereference: the API returned no such region
    | UncaughtApiException(message: string)  // a NationStatesAPIException no one catches
    | NoInputLine                            // NoSuchElementException: standard input ran out

  datatype Outcome =
    | Completed
    | ExitedWithError(message: string)  // printed on standard error, then `System.exit(1)`
    | Crashed(crash: Crash)

  /** The crash a candidate causes when its record is not found or its lookup throws. */
  function CandidateCrash(name: string, fetched: Fetch<Nation>): Crash {
    if fetched.Failed? then UncaughtApiException(fetched.message) else NullNation(name)
  }

  /**
   * The progress calls `processNations` makes: one per name other than the
   * subject, in list order, numbered on from `firstProgress`, each with the
   * clock reading `clock(i)` for the name at position i.
   */
  function ProgressCalls(subjectName: string, names: seq<string>, numberOfNations: int, firstProgress: int, clock: nat -> int)
    : seq<Output.ProgressCall>
  {
    if names == [] then []
    else
      var prefix := names[..|names| - 1];
      ProgressCalls(subjectName, prefix, numberOfNations, firstProgress, clock)
      + if names[|names| - 1] == subjectName then []
        else [Output.ProgressCall(numberOfNations, firstProgress + Classify.CountProcessed(prefix, subjectName), clock(|names| - 1))]
  }

  /** The progress numbers run firstProgress, firstProgress + 1, ... with one call per name other than the subject. */
  lemma {:induction false} ProgressCallsNumbered(subjectName: string, names: seq<string>, numberOfNations: int, firstProgress: int, clock: nat -> int)
    ensures var calls := ProgressCalls(subjectName, names, numberOfNations, firstProgress, clock);
      && |calls| == Classify.CountProcessed(names, subjectName)
      && forall k :: 0 <= k < |calls| ==>
           calls[k].progress == firstProgress + k && calls[k].numberOfNations == numberOfNations
  {
    if names != [] {
      ProgressCallsNumbered(subjectName, names[..|names| - 1], numberOfNations, firstProgress, clock);
    }
  }

  /** Extending the processed prefix by one name extends the classification, the count and the progress calls by that name. */
  lemma PrefixStep(subjectName: string, subject: Nation, names: seq<string>, i: nat, lookup: string -> Fetch<Nation>,
                   firstProgress: int, clock: nat -> int)
    requires i < |names|
    ensures var fold := Classify.Fold(subjectName, subject, names[..i], lookup);
      Classify.Fold(subjectName, subject, names[..i + 1], lookup) ==
        if Classify.Candidate(subjectName, names[i], lookup)
        then Classify.Record(fold, names[i], Classify.Place(subjectName, subject, names[i], lookup(names[i]).value))
        else fold
    ensures Classify.CountProcessed(names[..i + 1], subjectName) ==
      Classify.CountProcessed(names[..i], subjectName) + if names[i] == subjectName then 0 else 1
    ensures var calls := ProgressCalls(subjectName, names[..i], |names|, firstProgress, clock);
      ProgressCalls(subjectName, names[..i + 1], |names|, firstProgress, clock) ==
        if names[i] == subjectName then calls
        else calls + [Output.ProgressCall(|names|, firstProgress + Classify.CountProcessed(names[..i], subjectName), clock(i))]
  {
    assert names[..i + 1][..i] == names[..i];
  }

  /** Lists the elements of a set once each, in some order (the iteration order of a HashSet). */
  method Enumerate(names: set<string>) returns (order: seq<string>)
    ensures |order| == |names|
    ensures forall n :: n in order <==> n in names
  {
    order := [];
    var rest := names;
    while rest != {}
      invariant rest <= names
      invariant forall n :: n in order <==> n in names && n !in rest
      invariant |order| + |rest| == |names|
      decreases rest
    {
      var n :| n in rest;
      order := order + [n];
      rest := rest - {n};
    }
  }

  /** `nations.stream().map(this::createUrlForNation)`. */
  function UrlsOf(order: seq<string>): (urls: seq<string>)
    ensures |urls| == |order|
    ensures forall i :: 0 <= i < |order| ==> urls[i] == CreateUrlForNation(order[i])
  {
    seq(|order|, i requires 0 <= i < |order| => CreateUrlForNation(order[i]))
  }

  /** `urls` holds exactly one URL per nation of `names`, in some order. */
  ghost predicate ListsUrlsOf(urls: seq<string>, names: set<string>) {
    && |urls| == |names|
    && (forall u :: u in urls ==> NationOfUrl(u).Some? && NationOfUrl(u).value in names)
    && (forall n :: n in names ==> CreateUrlForNation(n) in urls)
  }

  /** The URLs of an enumeration of a set list exactly that set. */
  lemma UrlsOfEnumeration(order: seq<string>, names: set<string>)
    requires |order| == |names| && forall n :: n in order <==> n in names
    ensures ListsUrlsOf(UrlsOf(order), names)
  {
    var urls := UrlsOf(order);
    forall u | u in urls
      ensures NationOfUrl(u).Some? && NationOfUrl(u).value in names
    {
      var i :| 0 <= i < |urls| && urls[i] == u;
      UrlRoundTrip(order[i]);
    }
    forall n | n in names
      ensures CreateUrlForNation(n) in urls
    {
      var i :| 0 <= i < |order| && order[i] == n;
      assert urls[i] == CreateUrlForNation(n);
    }
  }

  /** `after` is `before` followed by one opened page per nation of the set. */
  ghost predicate OpenedUrlsOf(before: seq<string>, after: seq<string>, nations: set<string>) {
    before <= after && ListsUrlsOf(after[|before|..], nations)
  }

  /** `after` is `before` followed by one URL line per nation of the set and an empty line. */
  ghost predicate PrintedUrlsOf(before: seq<string>, after: seq<string>, nations: set<string>) {
    && before <= after && |after| == |before| + |nations| + 1
    && ListsUrlsOf(after[|before|..|after| - 1], nations) && after[|after| - 1] == ""
  }

  /** What the user is offered to do with one result set. */
  datatype Offer = OpenTabs | PrintUrls | NoAction

  /** The questions printed, the lines of input they consume, and the choice made. */
  datatype Dialogue = Dialogue(offer: Offer, prompts: seq<string>, consumed: nat, inputExhausted: bool)

  /**
   * The question logic of `promptOpenNationsQuestions`: the browser question
   * only when a browser is supported; the print question when there is no
   * browser or the browser question was declined.
   */
  function Ask(browserSupported: bool, browserQuestion: string, printUrlsQuestion: string, input: seq<string>): Dialogue
  {
    if browserSupported && input != [] && Input.IsAffirmative(input[0]) then
      Dialogue(OpenTabs, [Input.BinaryPrompt(browserQuestion)], 1, false)
    else if browserSupported && input == [] then
      Dialogue(NoAction, [Input.BinaryPrompt(browserQuestion)], 0, true)
    else
      var asked := if browserSupported then [Input.BinaryPrompt(browserQuestion)] else [];
      var used := |asked|;
      if |input| <= used then
        Dialogue(NoAction, asked + [Input.BinaryPrompt(printUrlsQuestion)], used, true)
      else
        Dialogue(if Input.IsAffirmative(input[used]) then PrintUrls else NoAction,
                 asked + [Input.BinaryPrompt(printUrlsQuestion)], used + 1, false)
  }

  /**
   * The print-URLs question is asked exactly when there is no browser or the
   * browser question got a reply other than yes; the browser question is asked
   * exactly when a browser is supported; tabs are opened only then.
   */
  lemma AskOrder(browserSupported: bool, browserQuestion: string, printUrlsQuestion: string, input: seq<string>)
    requires browserQuestion != printUrlsQuestion
    ensures var d := Ask(browserSupported, browserQuestion, printUrlsQuestion, input);
      && (Input.BinaryPrompt(browserQuestion) in d.prompts <==> browserSupported)
      && (Input.BinaryPrompt(printUrlsQuestion) in d.prompts <==>
            !browserSupported || (input != [] && !Input.IsAffirmative(input[0])))
      && (d.offer == OpenTabs ==> browserSupported)
      && d.consumed <= |input|
      && (d.inputExhausted <==> d.consumed < |d.prompts|)
  {
    var bq, pq := Input.BinaryPrompt(browserQuestion), Input.BinaryPrompt(printUrlsQuestion);
    assert bq != pq by {
      assert bq[..|browserQuestion|] == browserQuestion;
      assert pq[..|printUrlsQuestion|] == printUrlsQuestion;
      if |browserQuestion| == |printUrlsQuestion| {
        assert bq[..|browserQuestion|] != pq[..|printUrlsQuestion|];
      } else {
        assert |bq| != |pq|;
      }
    }
  }

  /**
   * What one offer leaves behind, after its prompts: one opened page per
   * nation, or one printed URL per nation and an empty line, or nothing.
   */
  ghost predicate OfferEffect(d: Dialogue, nations: set<string>, out0: seq<string>, out: seq<string>,
                              tabs0: seq<string>, tabs: seq<string>) {
    var shown := out0 + d.prompts;
    && (d.offer == OpenTabs ==> out == shown && OpenedUrlsOf(tabs0, tabs, nations))
    && (d.offer == PrintUrls ==> tabs == tabs0 && PrintedUrlsOf(shown, out, nations))
    && (d.offer == NoAction ==> out == shown && tabs == tabs0)
  }

  /** How many output lines there are once an offer starting at `before` lines is done. */
  function OutputLengthAfter(d: Dialogue, nations: set<string>, before: nat): nat {
    before + |d.prompts| + if d.offer == PrintUrls then |nations| + 1 else 0
  }

  /** How many pages are open once an offer starting at `before` pages is done. */
  function TabsLengthAfter(d: Dialogue, nations: set<string>, before: nat): nat {
    before + if d.offer == OpenTabs then |nations| else 0
  }

  /**
   * The two offers at the end of `start`: first for the nations the subject
   * does not endorse, then, if input remains, for those not endorsing back.
   */
  ghost predicate Offers(browserSupported: bool, input: seq<string>, notEndorsed: set<string>, notEndorsingBack: set<string>,
                         out0: seq<string>, out: seq<string>, tabs0: seq<string>, tabs: seq<string>) {
    var first := Ask(browserSupported, OpenTabsForUnendorsedNations, PrintUrlsForUnendorsedNations, input);
    var second := Ask(browserSupported, OpenTabsForNationsNotEndorsingBack, PrintUrlsForNationsNotEndorsingBack, input[first.consumed..]);
    var n1, t1 := OutputLengthAfter(first, notEndorsed, |out0|), TabsLengthAfter(first, notEndorsed, |tabs0|);
    && n1 <= |out| && t1 <= |tabs|
    && OfferEffect(first, notEndorsed, out0, out[..n1], tabs0, tabs[..t1])
    && if first.inputExhausted then |out| == n1 && |tabs| == t1
       else OfferEffect(second, notEndorsingBack, out[..n1], out, tabs[..t1], tabs)
  }

  /** `out` is `out1` followed by the lines `shown`, then the two offers. */
  ghost predicate ThenOffered(out1: seq<string>, shown: seq<string>,
                              browserSupported: bool, input: seq<string>, notEndorsed: set<string>, notEndorsingBack: set<string>,
                              out: seq<string>, tabs0: seq<string>, tabs: seq<string>) {
    var m := |out1| + |shown|;
    && |out| >= m
    && out[..m] == out1 + shown
    && Offers(browserSupported, input, notEndorsed, notEndorsingBack, out[..m], out, tabs0, tabs)
  }

  /**
   * `out` is `out0` followed by the region information, the progress lines,
   * the summary lines, then the two offers.
   */
  ghost predicate ShownThenOffered(regionName: string, numberOfNations: int, progress: seq<string>, summary: seq<string>,
                                   browserSupported: bool, input: seq<string>, notEndorsed: set<string>, notEndorsingBack: set<string>,
                                   out0: seq<string>, out: seq<string>, tabs0: seq<string>, tabs: seq<string>) {
    var m := |out0| + 4 + |progress|;
    && |out| >= m
    && Output.InfoThen(out0, out[..m], regionName, numberOfNations, progress)
    && ThenOffered(out[..m], summary, browserSupported, input, notEndorsed, notEndorsingBack, out, tabs0, tabs)
  }

  /** The region information and progress lines, then the summary and the offers. */
  lemma InfoThenOffered(regionName: string, numberOfNations: int, progress: seq<string>, summary: seq<string>,
                        browserSupported: bool, input: seq<string>, notEndorsed: set<string>, notEndorsingBack: set<string>,
                        out0: seq<string>, out1: seq<string>, out: seq<string>, tabs0: seq<string>, tabs: seq<string>)
    requires Output.InfoThen(out0, out1, regionName, numberOfNations, progress)
    requires ThenOffered(out1, summary, browserSupported, input, notEndorsed, notEndorsingBack, out, tabs0, tabs)
    ensures ShownThenOffered(regionName, numberOfNations, progress, summary, browserSupported, input, notEndorsed, notEndorsingBack,
                             out0, out, tabs0, tabs)
  {
    assert out[..|out1|] == out1;
  }

  /**
   * Everything `start` prints and opens once the subject and its region's
   * names are known: the region information, the throttled progress lines of
   * the names passed; then, when no candidate crashed, the summary counts of
   * the classification and the two offers.
   */
  ghost predicate RegionOutput(subjectName: string, subject: Nation, regionName: string, names: seq<string>,
                               lookup: string -> Fetch<Nation>, firstProgress: int, start: int, clock: nat -> int,
                               browserSupported: bool, input: seq<string>,
                               out0: seq<string>, out: seq<string>, tabs0: seq<string>, tabs: seq<string>) {
    var k := Classify.Reach(subjectName, names, lookup, true);
    var progress := Output.Throttle(start, ProgressCalls(subjectName, names[..k], |names|, firstProgress, clock)).lines;
    if k < |names| then Output.InfoThen(out0, out, regionName, |names|, progress) && tabs == tabs0
    else
      var sets := Classify.Fold(subjectName, subject, names, lookup);
      var summary := Output.CompletionLines(subjectName, |sets.inWorldAssembly|, |sets.notEndorsingBack|, |sets.notEndorsedBySubject|);
      ShownThenOffered(regionName, |names|, progress, summary,
                       browserSupported, input, sets.notEndorsedBySubject, sets.notEndorsingBack, out0, out, tabs0, tabs)
  }

  /**
   * What a run that reached `stage` prints after `out0` and opens after
   * `tabs0`: nothing unless the region's nations are being classified.
   */
  ghost predicate StageOutput(stage: Stage, lookup: string -> Fetch<Nation>, firstProgress: int, start: int, clock: nat -> int,
                              browserSupported: bool, input: seq<string>,
                              out0: seq<string>, out: seq<string>, tabs0: seq<string>, tabs: seq<string>) {
    if stage.Classifying? then
      RegionOutput(stage.name, stage.subject, stage.subject.regionName, stage.regionNames, lookup,
                   firstProgress, start, clock, browserSupported, input, out0, out, tabs0, tabs)
    else out == out0 && tabs == tabs0
  }

  /**
   * The run's progress through `start` up to the classification, as decided by
   * the first input line and the API: each stage but the last ends the run.
   */
  datatype Stage =
    | NoNameLine
    | SubjectLookupFailed(message: string)
    | SubjectMissing(name: string)
    | SubjectNotInAssembly(name: string)
    | RegionLookupFailed(message: string)
    | RegionMissing(regionName: string)
    | Classifying(name: string, subject: Nation, regionNames: seq<string>)

  /** What a run that reached `stage` wrote to standard error: only the two exits write there. */
  function StageErrors(stage: Stage): (r: seq<string>)
    ensures |r| <= 1
    ensures r != [] <==> stage.SubjectLookupFailed? || stage.SubjectNotInAssembly?
  {
    match stage
    case SubjectLookupFailed(message) => [message]
    case SubjectNotInAssembly(name) => [Output.NotInWorldAssemblyMessage(name)]
    case _ => []
  }

  function StageOf(repository: Api, input: seq<string>): Stage {
    if input == [] then NoNameLine else SubjectStage(repository, Input.NormalizeName(input[0]))
  }

  /** The stage reached once the subject's name is known. */
  function SubjectStage(repository: Api, name: string): Stage {
    match repository.nation(name)
    case Failed(m) => SubjectLookupFailed(m)
    case NotFound => SubjectMissing(name)
    case Found(subject) =>
      if !IsInWorldAssembly(subject.worldAssemblyStatus) then SubjectNotInAssembly(name)
      else RegionStage(repository, name, subject)
  }

  /** The stage reached once a subject in the World Assembly is known. */
  function RegionStage(repository: Api, name: string, subject: Nation): Stage {
    match repository.region(subject.regionName)
    case Failed(m) => RegionLookupFailed(m)
    case NotFound => RegionMissing(subject.regionName)
    case Found(names) => Classifying(name, subject, names)
  }

  /**
   * A subject outside the World Assembly ends the run before its region is
   * fetched: the stage reached does not depend on the region lookup.
   */
  lemma NoRegionFetchOutsideAssembly(repository: Api, repository': Api, name: string)
    requires repository.nation == repository'.nation
    requires repository.nation(name).Found? && !IsInWorldAssembly(repository.nation(name).value.worldAssemblyStatus)
    ensures SubjectStage(repository, name) == SubjectStage(repository', name) == SubjectNotInAssembly(name)
  {
  }

  class EndorsementsChecker {
    const desktopAccess: DesktopAccess
    const outputWriter: Output.OutputWriter
    const inputReader: Input.InputReader
    const repository: Api

    var nationInQuestionName: string
    var nationInQuestion: Option<Nation>
    var regionOfNationInQuestion: Option<seq<string>>
    var progressCounter: int
    var checkResult: CheckResult.EndorsementsCheckResult?

    /** Reader and writer share one console. */
    ghost predicate Valid() {
      outputWriter.console == inputReader.console
    }

    constructor (desktopAccess: DesktopAccess, outputWriter: Output.OutputWriter, inputReader: Input.InputReader, repository: Api)
      requires outputWriter.console == inputReader.console
      ensures Valid()
      ensures this.desktopAccess == desktopAccess && this.outputWriter == outputWriter
      ensures this.inputReader == inputReader && this.repository == repository
      ensures progressCounter == 1 && checkResult == null
      ensures nationInQuestion == None && regionOfNationInQuestion == None
    {
      this.desktopAccess := desktopAccess;
      this.outputWriter := outputWriter;
      this.inputReader := inputReader;
      this.repository := repository;
      nationInQuestionName := "";
      nationInQuestion := None;
      regionOfNationInQuestion := None;
      progressCounter := 1;
      checkResult := null;
    }

    /** Fetches one candidate, places it, and reports progress. */
    method ProcessNation(name: string, now: int) returns (crash: Option<Crash>)
      requires checkResult != null && checkResult.Valid()
      requires nationInQuestion.Some? && regionOfNationInQuestion.Some?
      modifies this`progressCounter, outputWriter`lastTimestamp, outputWriter.console`out
      modifies checkResult.nationsInWorldAssembly, checkResult.nationsNotEndorsedByNationInQuestion
      modifies checkResult.nationsNotEndorsingNationInQuestionBack
      ensures !repository.nation(name).Found? ==>
        && crash == Some(CandidateCrash(name, repository.nation(name)))
        && progressCounter == old(progressCounter)
        && checkResult.Sets() == old(checkResult.Sets())
        && outputWriter.console.out == old(outputWriter.console.out)
        && outputWriter.lastTimestamp == old(outputWriter.lastTimestamp)
      ensures repository.nation(name).Found? ==>
        var call := Output.ProgressCall(|regionOfNationInQuestion.value|, old(progressCounter), now);
        && crash == None
        && checkResult.Sets() == Classify.Record(old(checkResult.Sets()), name,
             Classify.Place(nationInQuestionName, nationInQuestion.value, name, repository.nation(name).value))
        && progressCounter == old(progressCounter) + 1
        && (Output.ShouldPrintProgress(old(outputWriter.lastTimestamp), now) ==>
              outputWriter.console.out == old(outputWriter.console.out) + [Output.ProgressLine(call)]
              && outputWriter.lastTimestamp == now)
        && (!Output.ShouldPrintProgress(old(outputWriter.lastTimestamp), now) ==>
              outputWriter.console.out == old(outputWriter.console.out)
              && outputWriter.lastTimestamp == old(outputWriter.lastTimestamp))
    {
      var fetched := repository.nation(name);
      if fetched.Failed? {
        return Some(UncaughtApiException(fetched.message));
      } else if fetched.NotFound? {
        return Some(NullNation(name));
      }
      var nation := fetched.value;
      if IsInWorldAssembly(nation.worldAssemblyStatus) {
        var _ := checkResult.nationsInWorldAssembly.Add(name);
        if nationInQuestionName !in nation.endorsedBy {
          var _ := checkResult.nationsNotEndorsedByNationInQuestion.Add(name);
        } else if name !in nationInQuestion.value.endorsedBy {
          var _ := checkResult.nationsNotEndorsingNationInQuestionBack.Add(name);
        }
      }
      outputWriter.PrintNonSpammyProgress(|regionOfNationInQuestion.value|, progressCounter, now);
      progressCounter := progressCounter + 1;
      crash := None;
    }

    /**
     * The state after the names before position i have gone through the
     * pass, starting from an empty result, the counter at `firstProgress`, the
     * throttle at `start` and the console holding `out0`.
     */
    ghost predicate PassedPrefix(i: nat, firstProgress: int, start: int, out0: seq<string>, clock: nat -> int)
      reads this, checkResult, outputWriter, outputWriter.console
      reads if checkResult == null then {} else
        {checkResult.nationsInWorldAssembly, checkResult.nationsNotEndorsedByNationInQuestion,
         checkResult.nationsNotEndorsingNationInQuestionBack}
    {
      && checkResult != null && nationInQuestion.Some? && regionOfNationInQuestion.Some?
      && var names := regionOfNationInQuestion.value;
      && i <= |names|
      && checkResult.Sets() == Classify.Fold(nationInQuestionName, nationInQuestion.value, names[..i], repository.nation)
      && progressCounter == firstProgress + Classify.CountProcessed(names[..i], nationInQuestionName)
      && var throttled := Output.Throttle(start, ProgressCalls(nationInQuestionName, names[..i], |names|, firstProgress, clock));
      && outputWriter.console.out == out0 + throttled.lines
      && outputWriter.lastTimestamp == throttled.lastTimestamp
    }

    /**
     * Processes every name of the region other than the subject, in list
     * order, until a candidate cannot be fetched. `clock(i)` is the time at
     * which the name at position i is processed.
     */
    method ProcessNations(clock: nat -> int) returns (crash: Option<Crash>)
      requires checkResult != null && checkResult.Valid() && checkResult.Sets() == Classify.Empty
      requires nationInQuestion.Some? && regionOfNationInQuestion.Some?
      modifies this`progressCounter, outputWriter`lastTimestamp, outputWriter.console`out
      modifies checkResult.nationsInWorldAssembly, checkResult.nationsNotEndorsedByNationInQuestion
      modifies checkResult.nationsNotEndorsingNationInQuestionBack
      ensures var names := regionOfNationInQuestion.value;
        var k := Classify.Reach(nationInQuestionName, names, repository.nation, true);
        && (k == |names| ==> crash == None)
        && (k < |names| ==> crash == Some(CandidateCrash(names[k], repository.nation(names[k]))))
        && PassedPrefix(k, old(progressCounter), old(outputWriter.lastTimestamp), old(outputWriter.console.out), clock)
    {
      var names := regionOfNationInQuestion.value;
      ghost var k := Classify.Reach(nationInQuestionName, names, repository.nation, true);
      ghost var firstProgress, start, out0 := progressCounter, outputWriter.lastTimestamp, outputWriter.console.out;
      var i := 0;
      while i < |names|
        invariant 0 <= i <= k
        invariant checkResult.Valid()
        invariant PassedPrefix(i, firstProgress, start, out0, clock)
      {
        crash := ProcessAt(i, clock, firstProgress, start, out0);
        if crash.Some? {
          assert i == k;
          return;
        }
        i := i + 1;
      }
      assert i == k;
      crash := None;
    }

    /** One element of `processNations`' stream: the subject is filtered out, any other name is processed. */
    method ProcessAt(i: nat, clock: nat -> int, ghost firstProgress: int, ghost start: int, ghost out0: seq<string>)
      returns (crash: Option<Crash>)
      requires checkResult != null && checkResult.Valid()
      requires PassedPrefix(i, firstProgress, start, out0, clock) && i < |regionOfNationInQuestion.value|
      modifies this`progressCounter, outputWriter`lastTimestamp, outputWriter.console`out
      modifies checkResult.nationsInWorldAssembly, checkResult.nationsNotEndorsedByNationInQuestion
      modifies checkResult.nationsNotEndorsingNationInQuestionBack
      ensures var name := regionOfNationInQuestion.value[i];
        && (crash.Some? <==> Classify.Stops(nationInQuestionName, name, repository.nation, true))
        && (crash.Some? ==> crash == Some(CandidateCrash(name, repository.nation(name))))
        && PassedPrefix(if crash.Some? then i else i + 1, firstProgress, start, out0, clock)
    {
      var names := regionOfNationInQuestion.value;
      var name := names[i];
      ghost var calls := ProgressCalls(nationInQuestionName, names[..i], |names|, firstProgress, clock);
      ghost var call := Output.ProgressCall(|names|, progressCounter, clock(i));
      PrefixStep(nationInQuestionName, nationInQuestion.value, names, i, repository.nation, firstProgress, clock);
      Output.ThrottleStep(start, calls, call);
      ghost var t := Output.Throttle(start, calls);
      ghost var sets := Classify.Fold(nationInQuestionName, nationInQuestion.value, names[..i], repository.nation);
      crash := None;
      if name != nationInQuestionName {
        crash := ProcessNation(name, clock(i));
        assert crash.Some? <==> Classify.Stops(nationInQuestionName, name, repository.nation, true);
        if crash.None? {
          assert Classify.Candidate(nationInQuestionName, name, repository.nation);
          assert checkResult.Sets() == Classify.Record(sets, name, Classify.Place(nationInQuestionName, nationInQuestion.value, name, repository.nation(name).value));
          assert ProgressCalls(nationInQuestionName, names[..i + 1], |names|, firstProgress, clock) == calls + [call];
          if Output.ShouldPrintProgress(t.lastTimestamp, clock(i)) {
            assert outputWriter.console.out == out0 + (t.lines + [Output.ProgressLine(call)]);
          }
          assert PassedPrefix(i + 1, firstProgress, start, out0, clock);
        }
      } else {
        assert !Classify.Stops(nationInQuestionName, name, repository.nation, true);
        assert PassedPrefix(i + 1, firstProgress, start, out0, clock);
      }
    }

    /**
     * Offers to open a browser tab for each nation of the set, or else to
     * print its URL; each nation's page is visited or printed once, in the
     * set's iteration order.
     */
    method PromptOpenNationsQuestions(nations: CheckResult.NameSet, browserQuestion: string, printUrlsQuestion: string)
      returns (ok: bool)
      requires Valid()
      modifies inputReader.console`out, inputReader.console`input, desktopAccess`openedUrls
      ensures old(inputReader.console.out) <= inputReader.console.out
      ensures var d := Ask(desktopAccess.browserSupported, browserQuestion, printUrlsQuestion, old(inputReader.console.input));
        && ok == !d.inputExhausted
        && inputReader.console.input == old(inputReader.console.input)[d.consumed..]
        && OfferEffect(d, nations.elements, old(inputReader.console.out), inputReader.console.out,
                       old(desktopAccess.openedUrls), desktopAccess.openedUrls)
    {
      var openTabs := false;
      if desktopAccess.browserSupported {
        var reply := inputReader.PromptBinaryQuestion(browserQuestion);
        if reply.None? {
          return false;
        }
        openTabs := reply.value;
      }
      if openTabs {
        OpenTabsForEach(nations);
        return true;
      }
      var printUrls := inputReader.PromptBinaryQuestion(printUrlsQuestion);
      if printUrls.None? {
        return false;
      }
      if printUrls.value {
        PrintUrlsForEach(nations);
      }
      ok := true;
    }

    /** Opens a browser tab for each nation of the set. */
    method OpenTabsForEach(nations: CheckResult.NameSet)
      modifies desktopAccess`openedUrls
      ensures OpenedUrlsOf(old(desktopAccess.openedUrls), desktopAccess.openedUrls, nations.elements)
    {
      var order := Enumerate(nations.elements);
      UrlsOfEnumeration(order, nations.elements);
      ghost var opened0 := desktopAccess.openedUrls;
      var i := 0;
      while i < |order|
        invariant 0 <= i <= |order|
        invariant desktopAccess.openedUrls == opened0 + UrlsOf(order)[..i]
      {
        desktopAccess.OpenUrlInBrowser(CreateUrlForNation(order[i]));
        i := i + 1;
        assert UrlsOf(order)[..i] == UrlsOf(order)[..i - 1] + [UrlsOf(order)[i - 1]];
      }
      assert UrlsOf(order)[..i] == UrlsOf(order);
      assert desktopAccess.openedUrls[|opened0|..] == UrlsOf(order);
    }

    /** Prints the URL of each nation of the set, then an empty line. */
    method PrintUrlsForEach(nations: CheckResult.NameSet)
      modifies outputWriter.console`out
      ensures PrintedUrlsOf(old(outputWriter.console.out), outputWriter.console.out, nations.elements)
    {
      var order := Enumerate(nations.elements);
      UrlsOfEnumeration(order, nations.elements);
      var nationUrls := UrlsOf(order);
      ghost var before := outputWriter.console.out;
      outputWriter.PrintLinesEndingWithNewline(nationUrls);
      assert outputWriter.console.out[|before|..|outputWriter.console.out| - 1] == nationUrls;
    }

    /**
     * What the run did once it reached `stage`, given the state before it
     * (standard output `out0`, pages `tabs0`, and the fields' old values) and
     * the lines of standard input left for the offers. Standard error is
     * stated apart, by `StageErrors`.
     */
    ghost predicate Ran(stage: Stage, outcome: Outcome, clock: nat -> int, input: seq<string>,
                        out0: seq<string>, tabs0: seq<string>,
                        region0: Option<seq<string>>, result0: CheckResult.EndorsementsCheckResult?,
                        firstProgress: int, start: int)
      reads this, outputWriter.console, desktopAccess
      reads if checkResult == null then {} else
        {checkResult.nationsInWorldAssembly, checkResult.nationsNotEndorsedByNationInQuestion,
         checkResult.nationsNotEndorsingNationInQuestionBack}
    {
      var b := desktopAccess.browserSupported;
      var first := Ask(b, OpenTabsForUnendorsedNations, PrintUrlsForUnendorsedNations, input);
      var second := Ask(b, OpenTabsForNationsNotEndorsingBack, PrintUrlsForNationsNotEndorsingBack, input[first.consumed..]);
      && StageOutput(stage, repository.nation, firstProgress, start, clock, b, input,
                     out0, outputWriter.console.out, tabs0, desktopAccess.openedUrls)
      && (outcome == Completed <==>
            && stage.Classifying?
            && Classify.Reach(stage.name, stage.regionNames, repository.nation, true) == |stage.regionNames|
            && !first.inputExhausted && !second.inputExhausted)
      && match stage
         case NoNameLine => outcome == Crashed(NoInputLine)
         case SubjectLookupFailed(message) =>
           outcome == ExitedWithError(message)
         case SubjectMissing(name) => outcome == Crashed(NullNation(name))
         case SubjectNotInAssembly(name) =>
           && outcome == ExitedWithError(Output.NotInWorldAssemblyMessage(name))
           && regionOfNationInQuestion == region0 && checkResult == result0 && progressCounter == firstProgress
         case RegionLookupFailed(message) =>
           outcome == Crashed(UncaughtApiException(message)) && checkResult == result0
         case RegionMissing(regionName) =>
           outcome == Crashed(NullRegion(regionName)) && checkResult == result0
         case Classifying(name, subject, names) =>
           var k := Classify.Reach(name, names, repository.nation, true);
           && nationInQuestionName == name && nationInQuestion == Some(subject) && regionOfNationInQuestion == Some(names)
           && checkResult != null && checkResult.nationInQuestionName == name
           && checkResult.Sets() == Classify.Fold(name, subject, names[..k], repository.nation)
           && progressCounter == firstProgress + Classify.CountProcessed(names[..k], name)
           && (k < |names| ==> outcome == Crashed(CandidateCrash(names[k], repository.nation(names[k]))))
           && (k == |names| ==> outcome == Completed || outcome == Crashed(NoInputLine))
    }

    /** The whole run. `clock(i)` is the time at which the region's i-th name is processed. */
    method Start(clock: nat -> int) returns (outcome: Outcome)
      requires Valid()
      modifies this`nationInQuestionName, this`nationInQuestion, this`regionOfNationInQuestion
      modifies this`checkResult, this`progressCounter, outputWriter`lastTimestamp
      modifies outputWriter.console`out, outputWriter.console`err, outputWriter.console`input, desktopAccess`openedUrls
      ensures Valid()
      ensures !desktopAccess.browserSupported ==> desktopAccess.openedUrls == old(desktopAccess.openedUrls)
      ensures StageOf(repository, old(inputReader.console.input)).Classifying? ==> fresh(checkResult)
      ensures outputWriter.console.err == old(outputWriter.console.err) + StageErrors(StageOf(repository, old(inputReader.console.input)))
      ensures var warning := if desktopAccess.browserSupported then [] else [Output.BrowserNotSupportedWarning];
        var head := old(outputWriter.console.out) + warning + [Input.OpenPrompt(Input.NationNameQuestion)];
        var input := old(inputReader.console.input);
        Ran(StageOf(repository, input), outcome, clock, if input == [] then [] else input[1..],
          head, old(desktopAccess.openedUrls),
          old(regionOfNationInQuestion), old(checkResult), old(progressCounter), old(outputWriter.lastTimestamp))
    {
      ghost var input := inputReader.console.input;
      if !desktopAccess.browserSupported {
        outputWriter.PrintBrowserNotSupportedWarning();
      }
      var name := inputReader.AskUserForNationName();
      if name.None? {
        return Crashed(NoInputLine);
      }
      ghost var stage := StageOf(repository, input);
      assert stage == SubjectStage(repository, name.value);
      assert inputReader.console.input == input[1..];
      ghost var warning := if desktopAccess.browserSupported then [] else [Output.BrowserNotSupportedWarning];
      ghost var head := old(outputWriter.console.out) + warning + [Input.OpenPrompt(Input.NationNameQuestion)];
      assert outputWriter.console.out == head;
      outcome := CheckNation(name.value, clock);
    }

    /**
     * `start` from the subject's lookup on: the lookup's exception ends the run
     * with an error message, as does a subject outside the World Assembly.
     */
    method CheckNation(name: string, clock: nat -> int) returns (outcome: Outcome)
      requires Valid()
      modifies this`nationInQuestionName, this`nationInQuestion, this`regionOfNationInQuestion
      modifies this`checkResult, this`progressCounter, outputWriter`lastTimestamp
      modifies outputWriter.console`out, outputWriter.console`err, outputWriter.console`input, desktopAccess`openedUrls
      ensures Valid()
      ensures !desktopAccess.browserSupported ==> desktopAccess.openedUrls == old(desktopAccess.openedUrls)
      ensures SubjectStage(repository, name).Classifying? ==> fresh(checkResult)
      ensures outputWriter.console.err == old(outputWriter.console.err) + StageErrors(SubjectStage(repository, name))
      ensures Ran(SubjectStage(repository, name), outcome, clock, old(outputWriter.console.input),
        old(outputWriter.console.out), old(desktopAccess.openedUrls),
        old(regionOfNationInQuestion), old(checkResult), old(progressCounter), old(outputWriter.lastTimestamp))
    {
      nationInQuestionName := name;
      var fetched := repository.nation(nationInQuestionName);
      if fetched.Failed? {
        outputWriter.ExitWithErrorMsg(fetched.message);
        return ExitedWithError(fetched.message);
      }
      nationInQuestion := if fetched.Found? then Some(fetched.value) else None;
      if nationInQuestion.None? {
        return Crashed(NullNation(nationInQuestionName));
      }
      if !IsInWorldAssembly(nationInQuestion.value.worldAssemblyStatus) {
        outputWriter.ExitWithNotInWorldAssemblyError(nationInQuestionName);
        return ExitedWithError(Output.NotInWorldAssemblyMessage(nationInQuestionName));
      }
      assert SubjectStage(repository, name) == RegionStage(repository, name, nationInQuestion.value);
      outcome := FetchRegion(clock);
    }

    /**
     * `start` from the region's lookup on, for a subject in the World
     * Assembly: an exception of the lookup is not caught, a missing region
     * is dereferenced, and a found region is checked.
     */
    method FetchRegion(clock: nat -> int) returns (outcome: Outcome)
      requires Valid() && nationInQuestion.Some? && IsInWorldAssembly(nationInQuestion.value.worldAssemblyStatus)
      modifies this`regionOfNationInQuestion, this`checkResult, this`progressCounter, outputWriter`lastTimestamp
      modifies outputWriter.console`out, outputWriter.console`input, desktopAccess`openedUrls
      ensures Valid()
      ensures !desktopAccess.browserSupported ==> desktopAccess.openedUrls == old(desktopAccess.openedUrls)
      ensures RegionStage(repository, nationInQuestionName, nationInQuestion.value).Classifying? ==> fresh(checkResult)
      ensures Ran(RegionStage(repository, nationInQuestionName, nationInQuestion.value), outcome, clock,
        old(outputWriter.console.input), old(outputWriter.console.out), old(desktopAccess.openedUrls),
        old(regionOfNationInQuestion), old(checkResult), old(progressCounter), old(outputWriter.lastTimestamp))
    {
      var regionName := nationInQuestion.value.regionName;
      var region := repository.region(regionName);
      if region.Failed? {
        return Crashed(UncaughtApiException(region.message));
      }
      regionOfNationInQuestion := if region.Found? then Some(region.value) else None;
      if regionOfNationInQuestion.None? {
        return Crashed(NullRegion(regionName));
      }
      ghost var stage := Classifying(nationInQuestionName, nationInQuestion.value, regionOfNationInQuestion.value);
      assert RegionStage(repository, nationInQuestionName, nationInQuestion.value) == stage;
      outcome := CheckRegion(clock);
      assert StageOutput(stage, repository.nation, old(progressCounter), old(outputWriter.lastTimestamp), clock,
        desktopAccess.browserSupported, old(outputWriter.console.input),
        old(outputWriter.console.out), outputWriter.console.out, old(desktopAccess.openedUrls), desktopAccess.openedUrls);
    }

    /**
     * The rest of `start` once the subject and its region are known: print the
     * region's size, classify, print the counts, then offer the two URL lists.
     */
    method CheckRegion(clock: nat -> int) returns (outcome: Outcome)
      requires Valid() && nationInQuestion.Some? && regionOfNationInQuestion.Some?
      modifies this`checkResult, this`progressCounter, outputWriter`lastTimestamp
      modifies outputWriter.console`out, outputWriter.console`input, desktopAccess`openedUrls
      ensures var names := regionOfNationInQuestion.value;
        var k := Classify.Reach(nationInQuestionName, names, repository.nation, true);
        && checkResult != null && fresh(checkResult) && checkResult.nationInQuestionName == nationInQuestionName
        && checkResult.Sets() == Classify.Fold(nationInQuestionName, nationInQuestion.value, names[..k], repository.nation)
        && progressCounter == old(progressCounter) + Classify.CountProcessed(names[..k], nationInQuestionName)
        && (k < |names| ==> outcome == Crashed(CandidateCrash(names[k], repository.nation(names[k]))))
        && (k == |names| ==> outcome == Completed || outcome == Crashed(NoInputLine))
      ensures var b, input := desktopAccess.browserSupported, old(outputWriter.console.input);
        var first := Ask(b, OpenTabsForUnendorsedNations, PrintUrlsForUnendorsedNations, input);
        var second := Ask(b, OpenTabsForNationsNotEndorsingBack, PrintUrlsForNationsNotEndorsingBack, input[first.consumed..]);
        outcome == Completed <==>
          Classify.Reach(nationInQuestionName, regionOfNationInQuestion.value, repository.nation, true) == |regionOfNationInQuestion.value|
          && !first.inputExhausted && !second.inputExhausted
      ensures !desktopAccess.browserSupported ==> desktopAccess.openedUrls == old(desktopAccess.openedUrls)
      ensures StageOutput(Classifying(nationInQuestionName, nationInQuestion.value, regionOfNationInQuestion.value),
        repository.nation, old(progressCounter), old(outputWriter.lastTimestamp), clock,
        desktopAccess.browserSupported, old(outputWriter.console.input),
        old(outputWriter.console.out), outputWriter.console.out, old(desktopAccess.openedUrls), desktopAccess.openedUrls)
    {
      ghost var names, lookup := regionOfNationInQuestion.value, repository.nation;
      ghost var firstProgress, start := progressCounter, outputWriter.lastTimestamp;
      ghost var out0, input, tabs0 := outputWriter.console.out, outputWriter.console.input, desktopAccess.openedUrls;
      var regionName := nationInQuestion.value.regionName;
      var crash := ClassifyRegion(regionName, clock);
      if crash.Some? {
        return Crashed(crash.value);
      }
      ghost var k := Classify.Reach(nationInQuestionName, names, lookup, true);
      assert names[..k] == names;
      ghost var sets := checkResult.Sets();
      assert sets == Classify.Fold(nationInQuestionName, nationInQuestion.value, names, lookup);
      ghost var out1 := outputWriter.console.out;
      assert checkResult.nationInQuestionName == nationInQuestionName;
      var ok := ReportAndOffer();
      assert checkResult.Sets() == sets;
      InfoThenOffered(regionName, |names|,
        Output.Throttle(start, ProgressCalls(nationInQuestionName, names[..k], |names|, firstProgress, clock)).lines,
        Output.CompletionLines(nationInQuestionName, |sets.inWorldAssembly|, |sets.notEndorsingBack|, |sets.notEndorsedBySubject|),
        desktopAccess.browserSupported, input, sets.notEndorsedBySubject, sets.notEndorsingBack,
        out0, out1, outputWriter.console.out, tabs0, desktopAccess.openedUrls);
      if !ok {
        return Crashed(NoInputLine);
      }
      outcome := Completed;
    }

    /** Prints the region's size, then classifies its nations into a new result. */
    method ClassifyRegion(regionName: string, clock: nat -> int) returns (crash: Option<Crash>)
      requires Valid() && nationInQuestion.Some? && regionOfNationInQuestion.Some?
      modifies this`checkResult, this`progressCounter, outputWriter`lastTimestamp, outputWriter.console`out
      ensures var names := regionOfNationInQuestion.value;
        var k := Classify.Reach(nationInQuestionName, names, repository.nation, true);
        && checkResult != null && fresh(checkResult) && checkResult.nationInQuestionName == nationInQuestionName
        && checkResult.Valid()
        && fresh(checkResult.nationsInWorldAssembly) && fresh(checkResult.nationsNotEndorsedByNationInQuestion)
        && fresh(checkResult.nationsNotEndorsingNationInQuestionBack)
        && checkResult.Sets() == Classify.Fold(nationInQuestionName, nationInQuestion.value, names[..k], repository.nation)
        && progressCounter == old(progressCounter) + Classify.CountProcessed(names[..k], nationInQuestionName)
        && (k < |names| ==> crash == Some(CandidateCrash(names[k], repository.nation(names[k]))))
        && (k == |names| ==> crash == None)
      ensures var names := regionOfNationInQuestion.value;
        var k := Classify.Reach(nationInQuestionName, names, repository.nation, true);
        var throttled := Output.Throttle(old(outputWriter.lastTimestamp),
          ProgressCalls(nationInQuestionName, names[..k], |names|, old(progressCounter), clock));
        && Output.InfoThen(old(outputWriter.console.out), outputWriter.console.out, regionName, |names|, throttled.lines)
        && outputWriter.lastTimestamp == throttled.lastTimestamp
    {
      ghost var out0 := outputWriter.console.out;
      outputWriter.PrintNationAndRegionInfo(regionName, regionOfNationInQuestion.value);
      checkResult := new CheckResult.EndorsementsCheckResult(nationInQuestionName);
      ghost var out1 := outputWriter.console.out;
      crash := ProcessNations(clock);
      ghost var names := regionOfNationInQuestion.value;
      ghost var k := Classify.Reach(nationInQuestionName, names, repository.nation, true);
      Output.InfoThenAppend(out0, out1, outputWriter.console.out, regionName, |names|, [],
        Output.Throttle(old(outputWriter.lastTimestamp), ProgressCalls(nationInQuestionName, names[..k], |names|, old(progressCounter), clock)).lines);
    }

    /** The end of `start`: the summary counts of the result, then the two offers. */
    method ReportAndOffer() returns (ok: bool)
      requires Valid() && checkResult != null
      modifies outputWriter.console`out, outputWriter.console`input, desktopAccess`openedUrls
      ensures var b, input := desktopAccess.browserSupported, old(outputWriter.console.input);
        var first := Ask(b, OpenTabsForUnendorsedNations, PrintUrlsForUnendorsedNations, input);
        var second := Ask(b, OpenTabsForNationsNotEndorsingBack, PrintUrlsForNationsNotEndorsingBack, input[first.consumed..]);
        ok <==> !first.inputExhausted && !second.inputExhausted
      ensures var c := checkResult.Sets();
        ThenOffered(old(outputWriter.console.out),
          Output.CompletionLines(checkResult.nationInQuestionName, |c.inWorldAssembly|, |c.notEndorsingBack|, |c.notEndorsedBySubject|),
          desktopAccess.browserSupported, old(outputWriter.console.input), c.notEndorsedBySubject, c.notEndorsingBack,
          outputWriter.console.out, old(desktopAccess.openedUrls), desktopAccess.openedUrls)
      ensures !desktopAccess.browserSupported ==> desktopAccess.openedUrls == old(desktopAccess.openedUrls)
    {
      outputWriter.PrintProgressCompletionInfo(checkResult);
      ghost var out1 := outputWriter.console.out;
      ok := OfferUrlLists();
      assert outputWriter.console.out[..|out1|] == out1;
    }

    /**
     * The two offers of `start`: first for the nations the subject has not
     * endorsed, then for those it endorses that do not endorse it back. The run
     * completes when standard input holds a reply to every question asked.
     */
    method OfferUrlLists() returns (ok: bool)
      requires Valid() && checkResult != null
      modifies outputWriter.console`out, outputWriter.console`input, desktopAccess`openedUrls
      ensures var b, input := desktopAccess.browserSupported, old(outputWriter.console.input);
        var first := Ask(b, OpenTabsForUnendorsedNations, PrintUrlsForUnendorsedNations, input);
        var second := Ask(b, OpenTabsForNationsNotEndorsingBack, PrintUrlsForNationsNotEndorsingBack, input[first.consumed..]);
        ok <==> !first.inputExhausted && !second.inputExhausted
      ensures Offers(desktopAccess.browserSupported, old(outputWriter.console.input),
        checkResult.nationsNotEndorsedByNationInQuestion.elements, checkResult.nationsNotEndorsingNationInQuestionBack.elements,
        old(outputWriter.console.out), outputWriter.console.out, old(desktopAccess.openedUrls), desktopAccess.openedUrls)
      ensures old(outputWriter.console.out) <= outputWriter.console.out
      ensures !desktopAccess.browserSupported ==> desktopAccess.openedUrls == old(desktopAccess.openedUrls)
    {
      ok := PromptOpenNationsQuestions(checkResult.nationsNotEndorsedByNationInQuestion,
        OpenTabsForUnendorsedNations, PrintUrlsForUnendorsedNations);
      ghost var out1, tabs1 := outputWriter.console.out, desktopAccess.openedUrls;
      if !ok {
        return;
      }
      ok := PromptOpenNationsQuestions(checkResult.nationsNotEndorsingNationInQuestionBack,
        OpenTabsForNationsNotEndorsingBack, PrintUrlsForNationsNotEndorsingBack);
      assert outputWriter.console.out[..|out1|] == out1 && desktopAccess.openedUrls[..|tabs1|] == tabs1;
    }
  }
}
