/**
 * EndorsementsCheckResult: the subject's name and three hash sets that the
 * checker fills in place.
 */
module CheckResult {
  import Classify

  /** A `java.util.HashSet<String>` as the checker uses it: created empty, then added to. */
  class NameSet {
    var elements: set<string>

    constructor ()
      ensures elements == {}
    {
      elements := {};
    }

    /** `add`: returns whether the name was new; adding a name already present changes nothing. */
    method Add(name: string) returns (added: bool)
      modifies this
      ensures elements == old(elements) + {name}
      ensures added <==> name !in old(elements)
      ensures |elements| == |old(elements)| + (if added then 1 else 0)
    {
      added := name !in elements;
      if !added {
        assert elements + {name} == elements;
      }
      elements := elements + {name};
    }
  }

  class EndorsementsCheckResult {
    const nationInQuestionName: string
    const nationsInWorldAssembly: NameSet
    const nationsNotEndorsedByNationInQuestion: NameSet
    const nationsNotEndorsingNationInQuestionBack: NameSet

    /** The three collections are three separate objects. */
    ghost predicate Valid() {
      && nationsInWorldAssembly != nationsNotEndorsedByNationInQuestion
      && nationsInWorldAssembly != nationsNotEndorsingNationInQuestionBack
      && nationsNotEndorsedByNationInQuestion != nationsNotEndorsingNationInQuestionBack
    }

    /** The contents of the three collections. */
    function Sets(): Classify.Classification
      reads nationsInWorldAssembly, nationsNotEndorsedByNationInQuestion, nationsNotEndorsingNationInQuestionBack
    {
      Classify.Classification(
        nationsInWorldAssembly.elements,
        nationsNotEndorsedByNationInQuestion.elements,
        nationsNotEndorsingNationInQuestionBack.elements)
    }

    constructor (nationInQuestionName: string)
      ensures this.nationInQuestionName == nationInQuestionName
      ensures Valid() && Sets() == Classify.Empty
      ensures fresh(nationsInWorldAssembly) && fresh(nationsNotEndorsedByNationInQuestion)
      ensures fresh(nationsNotEndorsingNationInQuestionBack)
    {
      this.nationInQuestionName := nationInQuestionName;
      nationsInWorldAssembly := new NameSet();
      nationsNotEndorsedByNationInQuestion := new NameSet();
      nationsNotEndorsingNationInQuestionBack := new NameSet();
    }
  }
}
