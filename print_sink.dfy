/**
 * The java.io.PrintStream that a scenario prints its detail to, seen only
 * through println: one entry per println call so far, in order. An argument
 * holding a line separator is still one entry.
 */
module Output {

  class PrintSink {
    /** The argument of every println call on this stream, oldest first. */
    var lines: seq<string>

    constructor ()
      ensures lines == []
    {
      lines := [];
    }

    /** println(line): appends its argument as one entry and changes nothing else. */
    method Println(line: string)
      modifies this
      ensures lines == old(lines) + [line]
    {
      lines := lines + [line];
    }
  }
}
