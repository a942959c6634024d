/** The line each logging call appends to the session file:
    `[<time>] [<level>] [<sender>]: <message>`, and a reader for it. */
module Records {
  import opened Runtime
  import opened LogTypes

  /** The file line for one record; `time` is the already formatted
      timestamp. */
  function FileLine(time: string, level: LogType, sender: string, message: string): string
  {
    "[" + time + "] [" + Name(level) + "] [" + sender + "]: " + message
  }

  /** The four fields a file line carries, as text. */
  datatype Fields = Fields(time: string, level: string, sender: string, message: string)

  /** Splits `s` at its first `]`: the text before it and the text after it. */
  function SplitAtBracket(s: string): (r: Option<(string, string)>)
    ensures r.Some? ==> ']' !in r.value.0 && s == r.value.0 + "]" + r.value.1
    ensures r.None? <==> ']' !in s
  {
    if s == [] then None
    else if s[0] == ']' then Some(([], s[1..]))
    else match SplitAtBracket(s[1..])
      case None => None
      case Some((before, after)) => Some(([s[0]] + before, after))
  }

  /** Reads the fields back from a file line whose time, level and sender
      hold no `]`; the message is the rest of the line. */
  function ParseLine(line: string): Option<Fields>
  {
    if |line| == 0 || line[0] != '[' then None
    else match SplitAtBracket(line[1..])
      case None => None
      case Some((time, rest)) => ParseLevel(time, rest)
  }

  /** The rest of a line after `[<time>]`. */
  function ParseLevel(time: string, rest: string): Option<Fields>
  {
    if |rest| < 2 || rest[..2] != " [" then None
    else match SplitAtBracket(rest[2..])
      case None => None
      case Some((level, rest')) => ParseSender(time, level, rest')
  }

  /** The rest of a line after `[<time>] [<level>]`. */
  function ParseSender(time: string, level: string, rest: string): Option<Fields>
  {
    if |rest| < 2 || rest[..2] != " [" then None
    else match SplitAtBracket(rest[2..])
      case None => None
      case Some((sender, rest')) =>
        if |rest'| < 2 || rest'[..2] != ": " then None
        else Some(Fields(time, level, sender, rest'[2..]))
  }

  /** Splitting text that has no `]` before a `]` finds exactly that `]`. */
  lemma {:induction false} SplitAtBracketOf(before: string, after: string)
    requires ']' !in before
    ensures SplitAtBracket(before + "]" + after) == Some((before, after))
  {
    var s := before + "]" + after;
    if before != [] {
      assert s[1..] == before[1..] + "]" + after;
      SplitAtBracketOf(before[1..], after);
      assert [s[0]] + before[1..] == before;
    }
  }

  /** A file line gives back the record it was written for, as long as the
      time and the sender hold no `]`. */
  lemma FileLineRoundTrip(time: string, level: LogType, sender: string, message: string)
    requires ']' !in time && ']' !in sender
    ensures ParseLine(FileLine(time, level, sender, message)) == Some(Fields(time, Name(level), sender, message))
  {
    NameHasNoBracket(level);
    LineRoundTrip(time, Name(level), sender, message);
  }

  /** The round trip for any level name free of `]`. */
  lemma LineRoundTrip(time: string, name: string, sender: string, message: string)
    requires ']' !in time && ']' !in name && ']' !in sender
    ensures ParseLine("[" + time + "] [" + name + "] [" + sender + "]: " + message)
            == Some(Fields(time, name, sender, message))
  {
    var rest2 := " [" + sender + "]" + (": " + message);
    var rest1 := " [" + name + "]" + rest2;
    SenderRoundTrip(time, name, sender, message);
    LevelRoundTrip(time, name, rest2);
    LineShape(time, name, sender, message);
    TimeRoundTrip(time, rest1);
  }

  /** The literal pieces of a line, regrouped around its first `]`. */
  lemma LineShape(time: string, name: string, sender: string, message: string)
    ensures "[" + time + "] [" + name + "] [" + sender + "]: " + message
            == "[" + (time + "]" + (" [" + name + "]" + (" [" + sender + "]" + (": " + message))))
  {
  }

  lemma TimeRoundTrip(time: string, rest: string)
    requires ']' !in time
    ensures ParseLine("[" + (time + "]" + rest)) == ParseLevel(time, rest)
  {
    var line := "[" + (time + "]" + rest);
    assert line[1..] == time + "]" + rest;
    SplitAtBracketOf(time, rest);
  }

  lemma LevelRoundTrip(time: string, name: string, rest: string)
    requires ']' !in name
    ensures ParseLevel(time, " [" + name + "]" + rest) == ParseSender(time, name, rest)
  {
    var rest1 := " [" + name + "]" + rest;
    assert rest1[..2] == " [";
    assert rest1[2..] == name + "]" + rest;
    SplitAtBracketOf(name, rest);
  }

  lemma SenderRoundTrip(time: string, name: string, sender: string, message: string)
    requires ']' !in sender
    ensures ParseSender(time, name, " [" + sender + "]" + (": " + message)) == Some(Fields(time, name, sender, message))
  {
    var rest3 := ": " + message;
    var rest2 := " [" + sender + "]" + rest3;
    assert rest2[..2] == " [";
    assert rest2[2..] == sender + "]" + rest3;
    SplitAtBracketOf(sender, rest3);
    assert rest3[..2] == ": " && rest3[2..] == message;
  }

  /** Records whose time and sender hold no `]` are written as distinct
      lines. */
  lemma FileLineInjective(t1: string, l1: LogType, s1: string, m1: string,
                          t2: string, l2: LogType, s2: string, m2: string)
    requires ']' !in t1 && ']' !in s1 && ']' !in t2 && ']' !in s2
    requires FileLine(t1, l1, s1, m1) == FileLine(t2, l2, s2, m2)
    ensures t1 == t2 && l1 == l2 && s1 == s2 && m1 == m2
  {
    FileLineRoundTrip(t1, l1, s1, m1);
    FileLineRoundTrip(t2, l2, s2, m2);
    NameInjective(l1, l2);
  }
}
