/** An abstract terminal: the current foreground and background colours and
    everything written so far, each write remembered with the colours it was
    written in. */
module Terminal {

  /** The sixteen values of `System.ConsoleColor`. */
  datatype ConsoleColor =
    | Black | DarkBlue | DarkGreen | DarkCyan | DarkRed | DarkMagenta | DarkYellow | Gray
    | DarkGray | Blue | Green | Cyan | Red | Magenta | Yellow | White

  /** One `Console.Write` call: its text and the colours in force. */
  datatype Segment = Segment(text: string, fg: ConsoleColor, bg: ConsoleColor)

  /** The characters the segments put on the screen, in order. */
  function Text(segments: seq<Segment>): string
  {
    if segments == [] then "" else Text(segments[..|segments| - 1]) + segments[|segments| - 1].text
  }

  /** The characters written on background colour `bg`, in order. */
  function TextOn(segments: seq<Segment>, bg: ConsoleColor): string
  {
    if segments == [] then ""
    else
      var last := segments[|segments| - 1];
      TextOn(segments[..|segments| - 1], bg) + (if last.bg == bg then last.text else "")
  }

  /** Writing one more segment adds its text at the end. */
  lemma TextAppend(segments: seq<Segment>, s: Segment)
    ensures Text(segments + [s]) == Text(segments) + s.text
    ensures TextOn(segments + [s], s.bg) == TextOn(segments, s.bg) + s.text
    ensures forall bg :: bg != s.bg ==> TextOn(segments + [s], bg) == TextOn(segments, bg)
  {
  }

  class Console {
    var foreground: ConsoleColor
    var background: ConsoleColor
    var output: seq<Segment>

    constructor (foreground: ConsoleColor, background: ConsoleColor)
      ensures this.foreground == foreground && this.background == background
      ensures output == []
    {
      this.foreground := foreground;
      this.background := background;
      output := [];
    }

    /** `Console.Write(text)`: the text appears in the current colours;
        the colours do not change. */
    method Write(text: string)
      modifies this
      ensures foreground == old(foreground) && background == old(background)
      ensures output == old(output) + [Segment(text, foreground, background)]
    {
      output := output + [Segment(text, foreground, background)];
    }
  }
}
