/**
 * The endorsement classification pass, stated once as a specification that
 * both the current checker (EndorsementsChecker) and the legacy `Main` loop
 * are proved against.
 *
 * For a subject nation and its region's name list, each other name that the
 * API resolves to a World Assembly member or delegate is a member of the
 * assembly; it is "not endorsed by the subject" when the subject is missing
 * from its endorsers, and otherwise "not endorsing back" when it is missing
 * from the subject's endorsers.
 */
module Classify {
  import opened NationStates

  /** The assembly-membership test, as the reference definition both versions are checked against. */
  predicate InAssembly(status: Option<WorldAssemblyStatus>) {
    status == Some(Member) || status == Some(Delegate)
  }

  /** Where one resolved candidate ends up. */
  datatype Placement =
    | Outside                 // not a World Assembly member: in no set
    | NotEndorsedBySubject    // member, the subject does not endorse it
    | NotEndorsingBack        // member, endorsed by the subject, does not endorse the subject
    | Mutual                  // member, endorsement in both directions: only in the members set

  function Place(subjectName: string, subject: Nation, name: string, candidate: Nation): Placement {
    if !InAssembly(candidate.worldAssemblyStatus) then Outside
    else if subjectName !in candidate.endorsedBy then NotEndorsedBySubject
    else if name !in subject.endorsedBy then NotEndorsingBack
    else Mutual
  }

  /** The three result sets of `EndorsementsCheckResult`. */
  datatype Classification = Classification(
    inWorldAssembly: set<string>,
    notEndorsedBySubject: set<string>,
    notEndorsingBack: set<string>)

  const Empty := Classification({}, {}, {})

  /** Adds one placed candidate to the sets. */
  function Record(c: Classification, name: string, p: Placement): Classification
  {
    if p == Outside then c
    else Classification(
      c.inWorldAssembly + {name},
      if p == NotEndorsedBySubject then c.notEndorsedBySubject + {name} else c.notEndorsedBySubject,
      if p == NotEndorsingBack then c.notEndorsingBack + {name} else c.notEndorsingBack)
  }

  /**
   * The shape every classification keeps: both endorsement sets inside the
   * members set, the two endorsement sets disjoint, the subject in no set.
   */
  ghost predicate WellShaped(c: Classification, subjectName: string) {
    && c.notEndorsedBySubject <= c.inWorldAssembly
    && c.notEndorsingBack <= c.inWorldAssembly
    && c.notEndorsedBySubject !! c.notEndorsingBack
    && subjectName !in c.inWorldAssembly
  }

  /**
   * Recording a name other than the subject keeps the shape, provided a name
   * already recorded as a member comes back with the placement it had.
   */
  lemma RecordKeepsShape(c: Classification, subjectName: string, name: string, p: Placement)
    requires WellShaped(c, subjectName) && name != subjectName
    requires p != Outside && name in c.inWorldAssembly ==>
      (name in c.notEndorsedBySubject <==> p == NotEndorsedBySubject)
      && (name in c.notEndorsingBack <==> p == NotEndorsingBack)
    ensures WellShaped(Record(c, name, p), subjectName)
  {
  }

  /** Recording the same name with the same placement twice is recording it once (hash-set `add`). */
  lemma RecordIdempotent(c: Classification, name: string, p: Placement)
    ensures Record(Record(c, name, p), name, p) == Record(c, name, p)
  {
  }

  /** A name that takes part in the classification: not the subject, and resolved by the API. */
  predicate Candidate(subjectName: string, name: string, lookup: string -> Fetch<Nation>) {
    name != subjectName && lookup(name).Found?
  }

  /** The classification pass over the name list, in list order (each prefix is the state after that many names). */
  function Fold(subjectName: string, subject: Nation, names: seq<string>, lookup: string -> Fetch<Nation>): Classification
  {
    if names == [] then Empty
    else
      var prev := Fold(subjectName, subject, names[..|names| - 1], lookup);
      var name := names[|names| - 1];
      if Candidate(subjectName, name, lookup)
      then Record(prev, name, Place(subjectName, subject, name, lookup(name).value))
      else prev
  }

  /** The reference definition: each set described by the property of its elements, with no order in it. */
  function Expected(subjectName: string, subject: Nation, names: seq<string>, lookup: string -> Fetch<Nation>): Classification
  {
    Classification(
      set n | n in names && Candidate(subjectName, n, lookup) && Place(subjectName, subject, n, lookup(n).value) != Outside,
      set n | n in names && Candidate(subjectName, n, lookup) && Place(subjectName, subject, n, lookup(n).value) == NotEndorsedBySubject,
      set n | n in names && Candidate(subjectName, n, lookup) && Place(subjectName, subject, n, lookup(n).value) == NotEndorsingBack)
  }

  /** The pass computes exactly the reference sets. */
  lemma {:induction false} FoldIsExpected(subjectName: string, subject: Nation, names: seq<string>, lookup: string -> Fetch<Nation>)
    ensures Fold(subjectName, subject, names, lookup) == Expected(subjectName, subject, names, lookup)
  {
    if names != [] {
      var prefix := names[..|names| - 1];
      var last := names[|names| - 1];
      FoldIsExpected(subjectName, subject, prefix, lookup);
      assert names == prefix + [last];
      assert forall n :: n in names <==> n in prefix || n == last;
      var e, e' := Expected(subjectName, subject, prefix, lookup), Expected(subjectName, subject, names, lookup);
      if Candidate(subjectName, last, lookup) {
        var p := Place(subjectName, subject, last, lookup(last).value);
        assert e'.inWorldAssembly == if p != Outside then e.inWorldAssembly + {last} else e.inWorldAssembly;
        assert e'.notEndorsedBySubject == if p == NotEndorsedBySubject then e.notEndorsedBySubject + {last} else e.notEndorsedBySubject;
        assert e'.notEndorsingBack == if p == NotEndorsingBack then e.notEndorsingBack + {last} else e.notEndorsingBack;
      } else {
        assert e'.inWorldAssembly == e.inWorldAssembly;
        assert e'.notEndorsedBySubject == e.notEndorsedBySubject;
        assert e'.notEndorsingBack == e.notEndorsingBack;
      }
    }
  }

  /**
   * Membership in each set, stated name by name: the subject is never in any
   * set, only resolved assembly members are in the members set, and the
   * "not endorsed" test takes precedence over the "not endorsing back" test.
   */
  lemma {:induction false} Membership(subjectName: string, subject: Nation, names: seq<string>, lookup: string -> Fetch<Nation>, n: string)
    ensures var r := Fold(subjectName, subject, names, lookup);
      && (n in r.inWorldAssembly <==>
            n in names && n != subjectName && lookup(n).Found? && InAssembly(lookup(n).value.worldAssemblyStatus))
      && (n in r.notEndorsedBySubject <==>
            n in r.inWorldAssembly && subjectName !in lookup(n).value.endorsedBy)
      && (n in r.notEndorsingBack <==>
            n in r.inWorldAssembly && subjectName in lookup(n).value.endorsedBy && n !in subject.endorsedBy)
  {
    FoldIsExpected(subjectName, subject, names, lookup);
  }

  /**
   * The set-level invariants of a classification: both endorsement sets lie
   * inside the members set, they are disjoint, the subject is in none of
   * them, and every member comes from the name list.
   */
  lemma Shape(subjectName: string, subject: Nation, names: seq<string>, lookup: string -> Fetch<Nation>)
    ensures var r := Fold(subjectName, subject, names, lookup);
      && r.notEndorsedBySubject <= r.inWorldAssembly
      && r.notEndorsingBack <= r.inWorldAssembly
      && r.notEndorsedBySubject !! r.notEndorsingBack
      && subjectName !in r.inWorldAssembly
      && (forall n :: n in r.inWorldAssembly ==> n in names)
  {
    FoldIsExpected(subjectName, subject, names, lookup);
  }

  /** A candidate that is unresolved or not an assembly member lands in no set. */
  lemma {:induction false} SkippedInNoSet(subjectName: string, subject: Nation, names: seq<string>, lookup: string -> Fetch<Nation>, n: string)
    requires !lookup(n).Found? || !InAssembly(lookup(n).value.worldAssemblyStatus)
    ensures var r := Fold(subjectName, subject, names, lookup);
      n !in r.inWorldAssembly && n !in r.notEndorsedBySubject && n !in r.notEndorsingBack
  {
    FoldIsExpected(subjectName, subject, names, lookup);
  }

  /** A member that endorses and is endorsed by the subject is only in the members set. */
  lemma MutualOnlyMember(subjectName: string, subject: Nation, names: seq<string>, lookup: string -> Fetch<Nation>, n: string)
    requires n in names && n != subjectName && lookup(n).Found?
    requires InAssembly(lookup(n).value.worldAssemblyStatus)
    requires subjectName in lookup(n).value.endorsedBy && n in subject.endorsedBy
    ensures var r := Fold(subjectName, subject, names, lookup);
      n in r.inWorldAssembly && n !in r.notEndorsedBySubject && n !in r.notEndorsingBack
  {
    FoldIsExpected(subjectName, subject, names, lookup);
  }

  /** The result depends only on which names occur, not on their order or repetition. */
  lemma OrderIrrelevant(subjectName: string, subject: Nation, names: seq<string>, names': seq<string>, lookup: string -> Fetch<Nation>)
    requires forall n :: n in names <==> n in names'
    ensures Fold(subjectName, subject, names, lookup) == Fold(subjectName, subject, names', lookup)
  {
    FoldIsExpected(subjectName, subject, names, lookup);
    FoldIsExpected(subjectName, subject, names', lookup);
  }

  /** Names of the list other than the subject, counted with repetition: one progress step each. */
  function CountProcessed(names: seq<string>, subjectName: string): nat
  {
    if names == [] then 0
    else CountProcessed(names[..|names| - 1], subjectName) + (if names[|names| - 1] == subjectName then 0 else 1)
  }

  /** Every occurrence of a name other than the subject is counted, and nothing else. */
  lemma {:induction false} CountProcessedIsOthers(names: seq<string>, subjectName: string)
    ensures CountProcessed(names, subjectName) == |names| - multiset(names)[subjectName]
  {
    if names != [] {
      var prefix := names[..|names| - 1];
      CountProcessedIsOthers(prefix, subjectName);
      assert names == prefix + [names[|names| - 1]];
      assert multiset(names) == multiset(prefix) + multiset{names[|names| - 1]};
    }
  }

  /**
   * The first position at which the pass stops: a name other than the subject
   * that is unresolved (`strict`: not found or failed) or whose lookup failed
   * (not `strict`). Equals |names| when there is none.
   */
  function Reach(subjectName: string, names: seq<string>, lookup: string -> Fetch<Nation>, strict: bool): (k: nat)
    ensures k <= |names|
    ensures forall j :: 0 <= j < k ==> !Stops(subjectName, names[j], lookup, strict)
    ensures k < |names| ==> Stops(subjectName, names[k], lookup, strict)
  {
    if names == [] then 0
    else if Stops(subjectName, names[0], lookup, strict) then 0
    else 1 + Reach(subjectName, names[1..], lookup, strict)
  }

  predicate Stops(subjectName: string, name: string, lookup: string -> Fetch<Nation>, strict: bool) {
    name != subjectName && (if strict then !lookup(name).Found? else lookup(name).Failed?)
  }
}
