/**
 * The legacy command-line flow of `Main.main`: one static method that asks
 * for the subject, checks it and its region, and classifies the region's
 * nations into three array lists. Unlike EndorsementsChecker it tests the
 * fetched records for null: a missing subject or region ends the run with an
 * error message, and a missing candidate is skipped. Its lists keep a name
 * as often as the region lists it; the checker's sets keep it once.
 */
module Legacy {
  import opened NationStates
  import opened Strings
  import opened Terminal
  import Classify
  import Input
  import Output
  import Checker

  const RegionNotFoundMessage := "The region in which the nation resides was not found!"

  /** `IsWAMember`: true for a member or delegate, false for a non-member and for no status at all. */
  function IsWAMember(status: Option<WorldAssemblyStatus>): (r: bool)
    ensures r <==> Classify.InAssembly(status)
    ensures r == Checker.IsInWorldAssembly(status)
  {
    match status
    case None => false
    case Some(s) => s == Member || s == Delegate
  }

  /** `BuildNationUrl`: the same page URL as the checker's, leading back to the nation. */
  function BuildNationUrl(nationName: string): (url: string)
    ensures url == Checker.CreateUrlForNation(nationName)
    ensures Checker.NationOfUrl(url) == Some(nationName)
  {
    Checker.UrlRoundTrip(nationName);
    Checker.NationUrlPrefix + nationName
  }

  /** The subject's name as `main` derives it from the typed line: lower-cased, spaces to underscores. */
  function NationToCheck(typed: string): (name: string)
    ensures |name| == |typed|
    ensures forall i :: 0 <= i < |typed| ==> name[i] == if typed[i] == ' ' then '_' else LowerChar(typed[i])
    ensures name == Input.NormalizeName(typed)
  {
    Input.NormalizeNameAt(typed);
    Replace(Lower(typed), ' ', '_')
  }

  /** The three lists of `main`, in the order it appends to them. */
  datatype Lists = Lists(waNations: seq<string>, waNationsNotEndorsing: seq<string>, waNationsNotYetEndorsed: seq<string>)

  /** Where the legacy loop puts one name of the region. */
  function LegacyPlacement(nationToCheck: string, subject: Nation, name: string, lookup: string -> Fetch<Nation>): Classify.Placement {
    if name == nationToCheck || !lookup(name).Found? then Classify.Outside
    else Classify.Place(nationToCheck, subject, name, lookup(name).value)
  }

  /** Appends a placed name to the lists it belongs in. */
  function Append(lists: Lists, name: string, p: Classify.Placement): Lists {
    if p == Classify.Outside then lists
    else Lists(
      lists.waNations + [name],
      if p == Classify.NotEndorsingBack then lists.waNationsNotEndorsing + [name] else lists.waNationsNotEndorsing,
      if p == Classify.NotEndorsedBySubject then lists.waNationsNotYetEndorsed + [name] else lists.waNationsNotYetEndorsed)
  }

  /** The lists after the loop has gone through a prefix of the region's names. */
  function LegacyLists(nationToCheck: string, subject: Nation, names: seq<string>, lookup: string -> Fetch<Nation>): Lists
  {
    if names == [] then Lists([], [], [])
    else
      Append(LegacyLists(nationToCheck, subject, names[..|names| - 1], lookup), names[|names| - 1],
             LegacyPlacement(nationToCheck, subject, names[|names| - 1], lookup))
  }

  /**
   * Each list holds a name exactly as many times as the region lists it when
   * the name is placed there, and not at all otherwise.
   */
  lemma {:induction false} LegacyListsCount(nationToCheck: string, subject: Nation, names: seq<string>, lookup: string -> Fetch<Nation>, n: string)
    ensures var lists := LegacyLists(nationToCheck, subject, names, lookup);
      var p := LegacyPlacement(nationToCheck, subject, n, lookup);
      var m := multiset(names)[n];
      && multiset(lists.waNations)[n] == (if p != Classify.Outside then m else 0)
      && multiset(lists.waNationsNotYetEndorsed)[n] == (if p == Classify.NotEndorsedBySubject then m else 0)
      && multiset(lists.waNationsNotEndorsing)[n] == (if p == Classify.NotEndorsingBack then m else 0)
  {
    if names != [] {
      var prefix, last := names[..|names| - 1], names[|names| - 1];
      LegacyListsCount(nationToCheck, subject, prefix, lookup, n);
      assert names == prefix + [last];
      assert multiset(names)[n] == multiset(prefix)[n] + if last == n then 1 else 0;
      var prev := LegacyLists(nationToCheck, subject, prefix, lookup);
      var q := LegacyPlacement(nationToCheck, subject, last, lookup);
      assert LegacyLists(nationToCheck, subject, names, lookup) == Append(prev, last, q);
      assert last == n ==> q == LegacyPlacement(nationToCheck, subject, n, lookup);
      AppendCount(prev, last, q, n);
    }
  }

  /** Appending a placed name adds one occurrence of it to each list it belongs to. */
  lemma AppendCount(lists: Lists, name: string, p: Classify.Placement, n: string)
    ensures var after := Append(lists, name, p);
      var one := if name == n then 1 else 0;
      && multiset(after.waNations)[n] == multiset(lists.waNations)[n] + (if p != Classify.Outside then one else 0)
      && multiset(after.waNationsNotYetEndorsed)[n] ==
           multiset(lists.waNationsNotYetEndorsed)[n] + (if p == Classify.NotEndorsedBySubject then one else 0)
      && multiset(after.waNationsNotEndorsing)[n] ==
           multiset(lists.waNationsNotEndorsing)[n] + (if p == Classify.NotEndorsingBack then one else 0)
  {
    CountAppended(lists.waNations, name, n);
    CountAppended(lists.waNationsNotEndorsing, name, n);
    CountAppended(lists.waNationsNotYetEndorsed, name, n);
  }

  lemma CountAppended(xs: seq<string>, x: string, n: string)
    ensures multiset(xs + [x])[n] == multiset(xs)[n] + if x == n then 1 else 0
  {
    assert multiset(xs + [x]) == multiset(xs) + multiset{x};
  }

  /**
   * The legacy lists and the checker's sets hold the same names: the two
   * versions differ only in how often a name repeated in the region is kept.
   */
  lemma {:induction false} LegacyAgreesWithChecker(nationToCheck: string, subject: Nation, names: seq<string>, lookup: string -> Fetch<Nation>)
    ensures var lists := LegacyLists(nationToCheck, subject, names, lookup);
      var sets := Classify.Fold(nationToCheck, subject, names, lookup);
      && (forall n :: n in lists.waNations <==> n in sets.inWorldAssembly)
      && (forall n :: n in lists.waNationsNotYetEndorsed <==> n in sets.notEndorsedBySubject)
      && (forall n :: n in lists.waNationsNotEndorsing <==> n in sets.notEndorsingBack)
  {
    var lists := LegacyLists(nationToCheck, subject, names, lookup);
    var sets := Classify.Fold(nationToCheck, subject, names, lookup);
    forall n
      ensures n in lists.waNations <==> n in sets.inWorldAssembly
      ensures n in lists.waNationsNotYetEndorsed <==> n in sets.notEndorsedBySubject
      ensures n in lists.waNationsNotEndorsing <==> n in sets.notEndorsingBack
    {
      LegacyListsCount(nationToCheck, subject, names, lookup, n);
      Classify.Membership(nationToCheck, subject, names, lookup, n);
    }
  }

  /** With a name listed twice the legacy lists hold it twice, while the checker's set holds it once. */
  lemma DuplicatesKept()
    ensures var member := Nation(Some(Member), "the_region", {});
      var lookup := (name: string) => Found(member);
      var lists := LegacyLists("subject", member, ["nation", "nation"], lookup);
      && lists.waNations == ["nation", "nation"]
      && lists.waNationsNotYetEndorsed == ["nation", "nation"]
      && Classify.Fold("subject", member, ["nation", "nation"], lookup).inWorldAssembly == {"nation"}
  {
    var member := Nation(Some(Member), "the_region", {});
    var lookup := (name: string) => Found(member);
    var names := ["nation", "nation"];
    assert names[..1] == ["nation"] && names[..1][..0] == [];
  }

  /** The counter-based progress line of the legacy loop. */
  function RetrievedLine(progress: int, numberOfNations: int): string {
    "Retrieved " + IntString(progress) + "/" + IntString(numberOfNations) + " nations data..."
  }

  /**
   * The progress lines printed while going through a prefix of the names: one
   * after each position p with (p + 1) even, unless the name there is the
   * subject, which the loop skips before printing.
   */
  function RetrievedLines(nationToCheck: string, names: seq<string>, numberOfNations: int): seq<string> {
    if names == [] then []
    else
      RetrievedLines(nationToCheck, names[..|names| - 1], numberOfNations)
      + if names[|names| - 1] != nationToCheck && |names| % 2 == 0 then [RetrievedLine(|names|, numberOfNations)] else []
  }

  /** The positions after which the loop prints a progress line, in loop order. */
  ghost function PrintingPositions(nationToCheck: string, names: seq<string>): seq<nat> {
    if names == [] then []
    else
      PrintingPositions(nationToCheck, names[..|names| - 1])
      + if names[|names| - 1] != nationToCheck && |names| % 2 == 0 then [|names| - 1] else []
  }

  /** The k-th progress line reports k-th printing position + 1 nations retrieved. */
  lemma {:induction false} RetrievedLinesAtPositions(nationToCheck: string, names: seq<string>, numberOfNations: int)
    ensures var lines, positions := RetrievedLines(nationToCheck, names, numberOfNations), PrintingPositions(nationToCheck, names);
      && |lines| == |positions|
      && forall k :: 0 <= k < |positions| ==> lines[k] == RetrievedLine(positions[k] + 1, numberOfNations)
  {
    if names != [] {
      RetrievedLinesAtPositions(nationToCheck, names[..|names| - 1], numberOfNations);
    }
  }

  /**
   * The printing positions are exactly the positions p with (p + 1) even that
   * do not hold the subject, in increasing order: a subject listed at such a
   * position suppresses that line.
   */
  lemma {:induction false} PrintingPositionsAre(nationToCheck: string, names: seq<string>)
    ensures var positions := PrintingPositions(nationToCheck, names);
      && (forall p :: p in positions <==> 0 <= p < |names| && (p + 1) % 2 == 0 && names[p] != nationToCheck)
      && (forall k, k' :: 0 <= k < k' < |positions| ==> positions[k] < positions[k'])
  {
    if names != [] {
      var prefix := names[..|names| - 1];
      PrintingPositionsAre(nationToCheck, prefix);
      assert forall p :: 0 <= p < |prefix| ==> names[p] == prefix[p];
      var positions0 := PrintingPositions(nationToCheck, prefix);
      assert forall k :: 0 <= k < |positions0| ==> positions0[k] in positions0;
    }
  }

  /** One more name processed: the lists and the printed lines grow by what that name contributes. */
  lemma LegacyStep(nationToCheck: string, subject: Nation, names: seq<string>, i: nat, lookup: string -> Fetch<Nation>)
    requires i < |names|
    ensures LegacyLists(nationToCheck, subject, names[..i + 1], lookup) ==
      Append(LegacyLists(nationToCheck, subject, names[..i], lookup), names[i],
             LegacyPlacement(nationToCheck, subject, names[i], lookup))
    ensures RetrievedLines(nationToCheck, names[..i + 1], |names|) ==
      RetrievedLines(nationToCheck, names[..i], |names|)
      + if names[i] != nationToCheck && (i + 1) % 2 == 0 then [RetrievedLine(i + 1, |names|)] else []
  {
    assert names[..i + 1][..i] == names[..i];
  }

  /**
   * The loop of `main` over the region's names. A lookup that throws ends it
   * (the exception is not caught); a name not found is skipped.
   */
  method ClassifyRegion(console: Console, nationToCheck: string, subject: Nation, nationNames: seq<string>,
                        lookup: string -> Fetch<Nation>)
    returns (lists: Lists, crash: Option<Checker.Crash>)
    modifies console`out
    ensures var k := Classify.Reach(nationToCheck, nationNames, lookup, false);
      && lists == LegacyLists(nationToCheck, subject, nationNames[..k], lookup)
      && console.out == old(console.out) + RetrievedLines(nationToCheck, nationNames[..k], |nationNames|)
      && (k < |nationNames| ==> crash == Some(Checker.UncaughtApiException(lookup(nationNames[k]).message)))
      && (k == |nationNames| ==> crash == None)
  {
    var waNations, waNationsNotEndorsing, waNationsNotYetEndorsed := [], [], [];
    ghost var k := Classify.Reach(nationToCheck, nationNames, lookup, false);
    var progress := 0;
    while progress < |nationNames|
      invariant 0 <= progress <= k
      invariant Lists(waNations, waNationsNotEndorsing, waNationsNotYetEndorsed) ==
        LegacyLists(nationToCheck, subject, nationNames[..progress], lookup)
      invariant console.out == old(console.out) + RetrievedLines(nationToCheck, nationNames[..progress], |nationNames|)
    {
      LegacyStep(nationToCheck, subject, nationNames, progress, lookup);
      assert !Classify.Stops(nationToCheck, nationNames[progress], lookup, false) ==> progress < k;
      var curNation := nationNames[progress];
      if curNation == nationToCheck {
        progress := progress + 1;
        continue;
      }
      var curNationObj := lookup(curNation);
      if curNationObj.Failed? {
        assert Classify.Stops(nationToCheck, curNation, lookup, false);
        assert progress == k;
        lists := Lists(waNations, waNationsNotEndorsing, waNationsNotYetEndorsed);
        crash := Some(Checker.UncaughtApiException(curNationObj.message));
        return;
      }
      if curNationObj.Found? && IsWAMember(curNationObj.value.worldAssemblyStatus) {
        waNations := waNations + [curNation];
        if nationToCheck !in curNationObj.value.endorsedBy {
          waNationsNotYetEndorsed := waNationsNotYetEndorsed + [curNation];
        } else if curNation !in subject.endorsedBy {
          waNationsNotEndorsing := waNationsNotEndorsing + [curNation];
        }
      }
      if (progress + 1) % 2 == 0 {
        console.Write(RetrievedLine(progress + 1, |nationNames|));
      }
      progress := progress + 1;
    }
    assert nationNames[..progress] == nationNames;
    lists := Lists(waNations, waNationsNotEndorsing, waNationsNotYetEndorsed);
    crash := None;
  }

  /** What the checks before the loop decide for the subject's name. */
  datatype Gate =
    | Proceed(subject: Nation, regionNames: seq<string>)
    | Exit(message: string)          // printed on standard error, then `System.exit(1)`
    | Fail(crash: Checker.Crash)     // an exception from the API, not caught

  function SubjectGate(api: Api, nationToCheck: string): Gate {
    match api.nation(nationToCheck)
    case Failed(m) => Fail(Checker.UncaughtApiException(m))
    case NotFound => Exit("The nation '" + nationToCheck + "' was not found!")
    case Found(subject) =>
      if !IsWAMember(subject.worldAssemblyStatus) then Exit("The nation '" + nationToCheck + "' is not a WA member!")
      else
        match api.region(subject.regionName)
        case Failed(m) => Fail(Checker.UncaughtApiException(m))
        case NotFound => Exit(RegionNotFoundMessage)
        case Found(names) => Proceed(subject, names)
  }

  /**
   * A missing or non-member subject stops the run before its region is
   * fetched: the outcome does not depend on the region lookup at all.
   */
  lemma SubjectCheckedFirst(api: Api, api': Api, nationToCheck: string)
    requires api.nation == api'.nation
    requires !api.nation(nationToCheck).Found? || !IsWAMember(api.nation(nationToCheck).value.worldAssemblyStatus)
    ensures SubjectGate(api, nationToCheck) == SubjectGate(api', nationToCheck)
    ensures !SubjectGate(api, nationToCheck).Proceed?
  {
  }

  /** Where the modelled part of `main` ends. */
  datatype Ending =
    | ReachedOffers                  // the summary is printed; the URL offers follow
    | ExitedWithError(message: string)
    | Crashed(crash: Checker.Crash)

  /** `PromptQuestion`: prints the question followed by ": " and reads a line. */
  method PromptQuestion(console: Console, question: string) returns (answer: Option<string>)
    modifies console`out, console`input
    ensures console.out == old(console.out) + [question + ": "]
    ensures old(console.input) == [] ==> answer == None && console.input == []
    ensures old(console.input) != [] ==> answer == Some(old(console.input)[0]) && console.input == old(console.input)[1..]
  {
    console.Write(question + ": ");
    answer := console.ReadLine();
  }

  /** `PromptYesOrNo`: prints the question followed by " (y/n?): "; yes exactly for "y" or "yes" in any case. */
  method PromptYesOrNo(console: Console, question: string) returns (yes: Option<bool>)
    modifies console`out, console`input
    ensures console.out == old(console.out) + [question + " (y/n?): "]
    ensures old(console.input) == [] ==> yes == None && console.input == []
    ensures old(console.input) != [] ==>
      yes == Some(Input.IsAffirmative(old(console.input)[0])) && console.input == old(console.input)[1..]
  {
    console.Write(question + " (y/n?): ");
    var line := console.ReadLine();
    if line.None? {
      return None;
    }
    var reply := Lower(line.value);
    yes := Some(reply == "y" || reply == "yes");
  }

  /** `ExitWithError`: prints the message on standard error; the process then exits with status 1. */
  method ExitWithError(console: Console, errorMsg: string)
    modifies console`err
    ensures console.err == old(console.err) + [errorMsg]
  {
    console.WriteError(errorMsg);
  }

  /**
   * What `main` did from the subject's lookup on, given the gate's decision:
   * the ending, the lists, and what standard error and standard output hold
   * after `err0` and `out0`. A run that proceeds prints the region
   * information, the "retrieved" lines of the names passed and, when every
   * name was processed, the summary counts of the lists.
   */
  ghost predicate Checked(nationToCheck: string, gate: Gate, lookup: string -> Fetch<Nation>, ending: Ending, lists: Lists,
                          err0: seq<string>, err: seq<string>, out0: seq<string>, out: seq<string>)
  {
    match gate
    case Fail(crash) => ending == Crashed(crash) && err == err0 && out == out0
    case Exit(message) => ending == ExitedWithError(message) && err == err0 + [message] && out == out0
    case Proceed(subject, names) =>
      var k := Classify.Reach(nationToCheck, names, lookup, false);
      var retrieved := RetrievedLines(nationToCheck, names[..k], |names|);
      var summary := Output.CompletionLines(nationToCheck,
        |lists.waNations|, |lists.waNationsNotEndorsing|, |lists.waNationsNotYetEndorsed|);
      && err == err0
      && lists == LegacyLists(nationToCheck, subject, names[..k], lookup)
      && (k < |names| ==>
            && ending == Crashed(Checker.UncaughtApiException(lookup(names[k]).message))
            && Output.InfoThen(out0, out, subject.regionName, |names|, retrieved))
      && (k == |names| ==>
            && ending == ReachedOffers
            && Output.InfoThen(out0, out, subject.regionName, |names|, retrieved + summary))
  }

  /**
   * `main` up to the URL offers: the browser warning, the subject's name, the
   * checks on the subject and its region, the loop and the summary.
   */
  method RunLegacyCheck(console: Console, browserSupported: bool, api: Api) returns (ending: Ending, lists: Lists)
    modifies console`out, console`err, console`input
    ensures console.input == if old(console.input) == [] then [] else old(console.input)[1..]
    ensures var warning := if browserSupported then [] else [Output.BrowserNotSupportedWarning];
      var head := old(console.out) + warning + [Input.NationNameQuestion + ": "];
      && (old(console.input) == [] ==>
            ending == Crashed(Checker.NoInputLine) && console.out == head && console.err == old(console.err))
      && (old(console.input) != [] ==>
            var nationToCheck := NationToCheck(old(console.input)[0]);
            Checked(nationToCheck, SubjectGate(api, nationToCheck), api.nation, ending, lists,
                    old(console.err), console.err, head, console.out))
  {
    lists := Lists([], [], []);
    if !browserSupported {
      console.Write(Output.BrowserNotSupportedWarning);
    }
    var typed := PromptQuestion(console, Input.NationNameQuestion);
    if typed.None? {
      return Crashed(Checker.NoInputLine), lists;
    }
    var nationToCheck := NationToCheck(typed.value);
    ending, lists := CheckAndClassify(console, api, nationToCheck);
  }

  /** `main` from the subject's lookup to the summary, for the normalised name. */
  method CheckAndClassify(console: Console, api: Api, nationToCheck: string) returns (ending: Ending, lists: Lists)
    modifies console`out, console`err
    ensures Checked(nationToCheck, SubjectGate(api, nationToCheck), api.nation, ending, lists,
                    old(console.err), console.err, old(console.out), console.out)
  {
    lists := Lists([], [], []);
    var nationToCheckObj := api.nation(nationToCheck);
    if nationToCheckObj.Failed? {
      return Crashed(Checker.UncaughtApiException(nationToCheckObj.message)), lists;
    }
    if nationToCheckObj.NotFound? {
      ExitWithError(console, "The nation '" + nationToCheck + "' was not found!");
      return ExitedWithError("The nation '" + nationToCheck + "' was not found!"), lists;
    }
    var subject := nationToCheckObj.value;
    if !IsWAMember(subject.worldAssemblyStatus) {
      ExitWithError(console, "The nation '" + nationToCheck + "' is not a WA member!");
      return ExitedWithError("The nation '" + nationToCheck + "' is not a WA member!"), lists;
    }
    var region := api.region(subject.regionName);
    if region.Failed? {
      return Crashed(Checker.UncaughtApiException(region.message)), lists;
    }
    if region.NotFound? {
      ExitWithError(console, RegionNotFoundMessage);
      return ExitedWithError(RegionNotFoundMessage), lists;
    }
    var nationNames := region.value;
    ghost var out0 := console.out;
    PrintRegionInfo(console, subject.regionName, nationNames);
    ghost var out1 := console.out;
    var crash;
    lists, crash := ClassifyRegion(console, nationToCheck, subject, nationNames, api.nation);
    ghost var k := Classify.Reach(nationToCheck, nationNames, api.nation, false);
    ghost var retrieved := RetrievedLines(nationToCheck, nationNames[..k], |nationNames|);
    assert [] + retrieved == retrieved;
    Output.InfoThenAppend(out0, out1, console.out, subject.regionName, |nationNames|, [], retrieved);
    if crash.Some? {
      return Crashed(crash.value), lists;
    }
    ghost var out2 := console.out;
    PrintSummary(console, nationToCheck, lists);
    Output.InfoThenAppend(out0, out2, console.out, subject.regionName, |nationNames|, retrieved,
      Output.CompletionLines(nationToCheck, |lists.waNations|, |lists.waNationsNotEndorsing|, |lists.waNationsNotYetEndorsed|));
    ending := ReachedOffers;
  }

  /** The region's size, a duration estimate, a blank line and the "retrieving" notice. */
  method PrintRegionInfo(console: Console, regionName: string, nationNames: seq<string>)
    modifies console`out
    ensures Output.InfoThen(old(console.out), console.out, regionName, |nationNames|, [])
  {
    console.Write(Output.RegionSizeLine(regionName, |nationNames|));
    // 0.601 s per nation; the source computes this in single-precision floating point
    var seconds := |nationNames| * 601 / 1000;
    console.Write(Output.EstimateLine(seconds));
    console.Write("");
    console.Write(Output.RetrievingLine);
    assert console.out[|old(console.out)|..][1] == Output.EstimateLine(seconds);
  }

  /** The summary after the loop: the three list sizes, duplicates included. */
  method PrintSummary(console: Console, nationToCheck: string, lists: Lists)
    modifies console`out
    ensures console.out == old(console.out) + Output.CompletionLines(nationToCheck,
      |lists.waNations|, |lists.waNationsNotEndorsing|, |lists.waNationsNotYetEndorsed|)
  {
    console.Write("...Finished retrieving data.");
    console.Write("");
    console.Write("WA members in the region: " + IntString(|lists.waNations|));
    console.Write("...that are endorsed by '" + nationToCheck + "', but are not endorsing back: "
      + IntString(|lists.waNationsNotEndorsing|));
    console.Write("...that are NOT endorsed by '" + nationToCheck + "': " + IntString(|lists.waNationsNotYetEndorsed|));
    console.Write("");
  }
}
