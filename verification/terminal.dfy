/**
 * The process's console: standard output, standard error and the lines still
 * to be read from standard input. Each entry of `out` and `err` is the text of
 * one `print`/`println` call; a text that ends in `System.lineSeparator()` is
 * recorded as that text followed by an empty entry.
 */
module Terminal {
  import opened NationStates

  class Console {
    var out: seq<string>
    var err: seq<string>
    var input: seq<string>

    constructor (input: seq<string>)
      ensures out == [] && err == [] && this.input == input
    {
      out, err := [], [];
      this.input := input;
    }

    /** `System.out.print`/`println`. */
    method Write(text: string)
      modifies this`out
      ensures out == old(out) + [text]
    {
      out := out + [text];
    }

    /** `System.err.println`. */
    method WriteError(text: string)
      modifies this`err
      ensures err == old(err) + [text]
    {
      err := err + [text];
    }

    /** `Scanner.nextLine()`; `None` where the scanner would throw `NoSuchElementException`. */
    method ReadLine() returns (line: Option<string>)
      modifies this`input
      ensures old(input) == [] ==> line == None && input == []
      ensures old(input) != [] ==> line == Some(old(input)[0]) && input == old(input)[1..]
    {
      if input == [] {
        line := None;
      } else {
        line := Some(input[0]);
        input := input[1..];
      }
    }
  }
}
