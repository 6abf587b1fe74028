/**
 * InputReader: asks the user questions on the console and reads the replies.
 * The nation name is normalised (lower-cased, spaces to underscores) and a
 * yes/no reply counts as yes exactly when it is "y" or "yes" in any case.
 */
module Input {
  import opened NationStates
  import opened Strings
  import opened Terminal

  const NationNameQuestion := "Nation whose endorsements to check"

  /** What `promptOpenQuestion` prints before reading. */
  function OpenPrompt(question: string): string {
    question + " : "
  }

  /** What `promptBinaryQuestion` prints before reading. */
  function BinaryPrompt(question: string): string {
    question + " (y/n) : "
  }

  /** `toLowerCase().replace(' ', '_')` applied to the typed nation name. */
  function NormalizeName(typed: string): string {
    Replace(Lower(typed), ' ', '_')
  }

  /** `promptBinaryQuestion`'s test on the reply read. */
  predicate IsAffirmative(reply: string) {
    var lowered := Lower(reply);
    lowered == "y" || lowered == "yes"
  }

  /** Character by character, normalisation turns a space into '_' and lower-cases the rest; the length is kept. */
  lemma NormalizeNameAt(typed: string)
    ensures |NormalizeName(typed)| == |typed|
    ensures forall i :: 0 <= i < |typed| ==>
      NormalizeName(typed)[i] == if typed[i] == ' ' then '_' else LowerChar(typed[i])
  {
    var lowered := Lower(typed);
    forall i | 0 <= i < |typed|
      ensures NormalizeName(typed)[i] == if typed[i] == ' ' then '_' else LowerChar(typed[i])
    {
      assert lowered[i] == LowerChar(typed[i]);
      assert LowerChar(typed[i]) == ' ' <==> typed[i] == ' ';
    }
  }

  /** A normalised name has no space and no upper-case ASCII letter. */
  lemma {:induction false} NormalizedIsClean(typed: string)
    ensures forall i :: 0 <= i < |NormalizeName(typed)| ==>
      NormalizeName(typed)[i] != ' ' && !IsUpper(NormalizeName(typed)[i])
  {
    NormalizeNameAt(typed);
  }

  /** Normalising a normalised name changes nothing. */
  lemma {:induction false} NormalizeNameIdempotent(typed: string)
    ensures NormalizeName(NormalizeName(typed)) == NormalizeName(typed)
  {
    var once := NormalizeName(typed);
    NormalizeNameAt(typed);
    NormalizeNameAt(once);
    forall i | 0 <= i < |once|
      ensures NormalizeName(once)[i] == once[i]
    {
      assert once[i] != ' ' && !IsUpper(once[i]);
    }
  }

  lemma LowerCharIs(c: char, d: char)
    requires 'a' <= d <= 'z'
    ensures LowerChar(c) == d <==> c == d || c as int == d as int - 32
  {
  }

  /** The affirmative replies are exactly the ten spellings of "y" and "yes" with any letter case, and nothing else. */
  lemma AffirmativeReplies(reply: string)
    ensures IsAffirmative(reply) <==>
      reply in {"y", "Y", "yes", "yeS", "yEs", "yES", "Yes", "YeS", "YEs", "YES"}
  {
    var lowered := Lower(reply);
    if |reply| == 1 {
      assert lowered == [LowerChar(reply[0])];
      LowerCharIs(reply[0], 'y');
      assert reply == [reply[0]];
    } else if |reply| == 3 {
      assert lowered == [LowerChar(reply[0]), LowerChar(reply[1]), LowerChar(reply[2])];
      LowerCharIs(reply[0], 'y');
      LowerCharIs(reply[1], 'e');
      LowerCharIs(reply[2], 's');
      assert reply == [reply[0], reply[1], reply[2]];
    } else {
      assert |lowered| == |reply|;
    }
  }

  /** No trimming and no prefixes: " y", "ye", "yes " and "no" are not affirmative. */
  lemma NotAffirmativeExamples()
    ensures !IsAffirmative(" y") && !IsAffirmative("ye") && !IsAffirmative("yes ") && !IsAffirmative("no")
    ensures IsAffirmative("YES") && IsAffirmative("Y")
  {
    AffirmativeReplies(" y");
    AffirmativeReplies("ye");
    AffirmativeReplies("yes ");
    AffirmativeReplies("no");
    AffirmativeReplies("YES");
    AffirmativeReplies("Y");
  }

  class InputReader {
    const console: Console

    constructor (console: Console)
      ensures this.console == console
    {
      this.console := console;
    }

    /** Asks for the nation to check and returns the normalised reply. */
    method AskUserForNationName() returns (name: Option<string>)
      modifies console`out, console`input
      ensures console.out == old(console.out) + [OpenPrompt(NationNameQuestion)]
      ensures old(console.input) == [] ==> name == None && console.input == []
      ensures old(console.input) != [] ==>
        name == Some(NormalizeName(old(console.input)[0])) && console.input == old(console.input)[1..]
    {
      var reply := PromptOpenQuestion(NationNameQuestion);
      if reply.None? {
        return None;
      }
      name := Some(Replace(Lower(reply.value), ' ', '_'));
    }

    /** Prints the question followed by " : " and returns the line typed. */
    method PromptOpenQuestion(question: string) returns (answer: Option<string>)
      modifies console`out, console`input
      ensures console.out == old(console.out) + [OpenPrompt(question)]
      ensures old(console.input) == [] ==> answer == None && console.input == []
      ensures old(console.input) != [] ==> answer == Some(old(console.input)[0]) && console.input == old(console.input)[1..]
    {
      console.Write(question + " : ");
      answer := console.ReadLine();
    }

    /** Prints the question followed by " (y/n) : " and returns whether the reply was yes. */
    method PromptBinaryQuestion(question: string) returns (yes: Option<bool>)
      modifies console`out, console`input
      ensures console.out == old(console.out) + [BinaryPrompt(question)]
      ensures old(console.input) == [] ==> yes == None && console.input == []
      ensures old(console.input) != [] ==>
        yes == Some(IsAffirmative(old(console.input)[0])) && console.input == old(console.input)[1..]
    {
      console.Write(question + " (y/n) : ");
      var line := console.ReadLine();
      if line.None? {
        return None;
      }
      var reply := Lower(line.value);
      yes := Some(reply == "y" || reply == "yes");
    }
  }
}
