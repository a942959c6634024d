/** The console half of a logging call: a two-tone badge holding the level
    tag and the sender, then the message in the accent colour, with the
    terminal's colours put back afterwards. */
module ConsoleRenderer {
  import opened Runtime
  import opened LogTypes
  import opened Terminal

  /** The accent colour of a level. The default, Magenta, is taken exactly
      by the values that are none of the named levels, and the named levels
      have three different accents. */
  function Accent(level: LogType): (c: ConsoleColor)
    ensures c == Magenta <==> level.Other?
    ensures level == Info ==> c == Cyan
    ensures level == Warning ==> c == Yellow
    ensures level == Error ==> c == Red
  {
    match level
    case Info => Cyan
    case Warning => Yellow
    case Error => Red
    case _ => Magenta
  }

  /** The six writes of one record, given the label, the accent and the
      background in force on entry. */
  function Badge(tag: string, sender: string, message: string, accent: ConsoleColor, back: ConsoleColor): seq<Segment>
  {
    [ Segment(tag, back, accent),
      Segment(" ", accent, back),
      Segment(sender, back, accent),
      Segment(":", accent, back),
      Segment(" " + message, accent, back),
      Segment("\n", accent, back) ]
  }

  /** What the badge puts on the screen: the label, a space, the sender, a
      colon, a space, the message and a newline. */
  lemma BadgeText(tag: string, sender: string, message: string, accent: ConsoleColor, back: ConsoleColor)
    ensures Text(Badge(tag, sender, message, accent, back)) == tag + " " + sender + ": " + message + "\n"
  {
    var b := Badge(tag, sender, message, accent, back);
    assert b == [] + [b[0]] + [b[1]] + [b[2]] + [b[3]] + [b[4]] + [b[5]];
    TextAppend([], b[0]);
    TextAppend([] + [b[0]], b[1]);
    TextAppend([] + [b[0]] + [b[1]], b[2]);
    TextAppend([] + [b[0]] + [b[1]] + [b[2]], b[3]);
    TextAppend([] + [b[0]] + [b[1]] + [b[2]] + [b[3]], b[4]);
    TextAppend([] + [b[0]] + [b[1]] + [b[2]] + [b[3]] + [b[4]], b[5]);
    assert ":" + (" " + message) == ": " + message;
  }

  /** Each write is in one of the two tones: the badge tone (foreground the
      original background, background the accent) for the tag and the
      sender, the message tone (foreground the accent, background the
      original background) for everything else. The original foreground
      is never used. */
  lemma BadgeTones(tag: string, sender: string, message: string, accent: ConsoleColor, back: ConsoleColor)
    ensures var b := Badge(tag, sender, message, accent, back);
      forall i :: 0 <= i < |b| ==>
        (b[i].fg, b[i].bg) == (if i == 0 || i == 2 then (back, accent) else (accent, back))
  {
  }

  /** When the accent differs from the background, the text on the accent
      background is exactly the tag followed by the sender, and the text
      on the original background is the rest. */
  lemma BadgeBackgrounds(tag: string, sender: string, message: string, accent: ConsoleColor, back: ConsoleColor)
    requires accent != back
    ensures TextOn(Badge(tag, sender, message, accent, back), accent) == tag + sender
    ensures TextOn(Badge(tag, sender, message, accent, back), back) == " :" + " " + message + "\n"
  {
    var b := Badge(tag, sender, message, accent, back);
    assert b == [] + [b[0]] + [b[1]] + [b[2]] + [b[3]] + [b[4]] + [b[5]];
    TextAppend([], b[0]);
    TextAppend([] + [b[0]], b[1]);
    TextAppend([] + [b[0]] + [b[1]], b[2]);
    TextAppend([] + [b[0]] + [b[1]] + [b[2]], b[3]);
    TextAppend([] + [b[0]] + [b[1]] + [b[2]] + [b[3]], b[4]);
    TextAppend([] + [b[0]] + [b[1]] + [b[2]] + [b[3]] + [b[4]], b[5]);
  }

  /** The console's state after rendering one record, against its state
      before. */
  twostate predicate Rendered(console: Console, labels: map<LogType, string>, level: LogType,
                              sender: string, message: string, outcome: Outcome)
    reads console
  {
    if level in labels then
      && outcome == Done
      && console.output == old(console.output) + Badge(labels[level], sender, message, Accent(level), old(console.background))
      && console.foreground == old(console.foreground)
      && console.background == old(console.background)
    else
      && outcome == Thrown(KeyNotFound)
      && console.output == old(console.output)
      && console.foreground == old(console.background)
      && console.background == Accent(level)
  }

  /** The console half of `Send`. The colours are switched to the badge tone
      before the label is looked up, so a level without a label ends the
      call with the terminal left in the badge tone and nothing written.
      Otherwise the six writes happen and both colours end as they began. */
  method Render(console: Console, labels: map<LogType, string>, level: LogType, sender: string, message: string)
    returns (outcome: Outcome)
    modifies console
    ensures Rendered(console, labels, level, sender, message, outcome)
  {
    var backColor := console.background;
    var foreColor := console.foreground;
    var logColor := Accent(level);

    console.foreground := backColor;
    console.background := logColor;

    if level !in labels {
      return Thrown(KeyNotFound);
    }
    console.Write(labels[level]);

    console.foreground := logColor;
    console.background := backColor;

    console.Write(" ");

    console.foreground := backColor;
    console.background := logColor;

    console.Write(sender);

    console.foreground := logColor;
    console.background := backColor;

    console.Write(":");
    console.Write(" " + message);
    console.Write("\n");

    console.foreground := foreColor;
    outcome := Done;
  }
}
