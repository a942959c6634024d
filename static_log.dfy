/** The static logger `Timersky.Logger.Log`: `LoadLogger` opens the session
    file once, and each `Info`/`Warning`/`Error` call appends a line to it
    and renders the record on the console. */
module StaticLog {
  import opened Runtime
  import opened LogTypes
  import opened Terminal
  import opened Files
  import opened Records
  import opened ConsoleRenderer
  import opened Session

  /** `Log.LogNames`: a label for each of the three named levels and for
      nothing else, every label eleven characters wide. */
  function LogNames(): (m: map<LogType, string>)
    ensures m.Keys == {Info, Warning, Error}
    ensures forall t :: t in m ==> |m[t]| == 11
  {
    map[Info := "INFORMATION", Warning := "  WARNING  ", Error := "   ERROR   "]
  }

  /** The static fields of `Log`; one object stands for the process-wide
      state. */
  class Log {
    var logDirPath: string
    var logFilePath: Option<string>

    /** The static initialisers: the default directory, and no session file
        until `LoadLogger` runs. */
    constructor (baseDirectory: string)
      ensures logDirPath == DefaultDirectory(baseDirectory)
      ensures logFilePath == None
    {
      logDirPath := DefaultDirectory(baseDirectory);
      logFilePath := None;
    }

    /** `LoadLogger`: points the session at `session-<stamp>.log` in the log
        directory, then creates the directory and the file when they are
        missing; an existing file keeps its lines. */
    method LoadLogger(stamp: string, fs: FileSystem)
      modifies this, fs
      ensures logDirPath == old(logDirPath)
      ensures logFilePath == Some(SessionPath(logDirPath, stamp))
      ensures Disk(fs.directories, fs.files)
              == Opened(old(Disk(fs.directories, fs.files)), logDirPath, SessionPath(logDirPath, stamp))
    {
      logFilePath := Some(SessionPath(logDirPath, stamp));

      if !fs.DirectoryExists(logDirPath) {
        fs.CreateDirectory(logDirPath);
      }

      if !fs.FileExists(logFilePath.value) {
        fs.CreateFile(logFilePath.value);
      }
    }

    /** The effect of `Send`. Without a session path the file cannot be
        opened and nothing at all happens. Otherwise exactly one line is
        appended to the session file, no other file changes, and then the
        record is rendered on the console. */
    twostate predicate Sent(console: Console, fs: FileSystem, message: string, sender: string,
                            level: LogType, time: string, outcome: Outcome)
      reads this, console, fs
    {
      match logFilePath
      case None =>
        && outcome == Thrown(NullPath)
        && unchanged(console) && unchanged(fs)
      case Some(path) =>
        && fs.files == Appended(old(fs.files), path, FileLine(time, level, sender, message))
        && fs.directories == old(fs.directories)
        && Rendered(console, LogNames(), level, sender, message, outcome)
    }

    method Send(message: string, sender: string, level: LogType, time: string, console: Console, fs: FileSystem)
      returns (outcome: Outcome)
      modifies console, fs
      ensures Sent(console, fs, message, sender, level, time, outcome)
    {
      if logFilePath.None? {
        return Thrown(NullPath);
      }
      fs.AppendLine(logFilePath.value, FileLine(time, level, sender, message));
      outcome := Render(console, LogNames(), level, sender, message);
    }

    /** `Info(string)`: sends the message at level Info. */
    method Info(message: string, sender: string, time: string, console: Console, fs: FileSystem)
      returns (outcome: Outcome)
      modifies console, fs
      ensures Sent(console, fs, message, sender, LogType.Info, time, outcome)
      ensures logFilePath.Some? ==> outcome == Done
    {
      outcome := Send(message, sender, LogType.Info, time, console, fs);
    }

    /** `Warning(string)`: sends the message at level Warning. */
    method Warning(message: string, sender: string, time: string, console: Console, fs: FileSystem)
      returns (outcome: Outcome)
      modifies console, fs
      ensures Sent(console, fs, message, sender, LogType.Warning, time, outcome)
      ensures logFilePath.Some? ==> outcome == Done
    {
      outcome := Send(message, sender, LogType.Warning, time, console, fs);
    }

    /** `Error(string)`: sends the message at level Error. */
    method Error(message: string, sender: string, time: string, console: Console, fs: FileSystem)
      returns (outcome: Outcome)
      modifies console, fs
      ensures Sent(console, fs, message, sender, LogType.Error, time, outcome)
      ensures logFilePath.Some? ==> outcome == Done
    {
      outcome := Send(message, sender, LogType.Error, time, console, fs);
    }

    /** `Info(object)`: a null object throws before anything is written;
        otherwise its `ToString()` is sent, a null string as empty text. */
    method InfoObject(message: ObjectValue, sender: string, time: string, console: Console, fs: FileSystem)
      returns (outcome: Outcome)
      modifies console, fs
      ensures message.Null? ==> outcome == Thrown(NullReference) && unchanged(console) && unchanged(fs)
      ensures message.Instance? ==> Sent(console, fs, Interpolate(message.text), sender, LogType.Info, time, outcome)
    {
      if message.Null? {
        return Thrown(NullReference);
      }
      outcome := Send(Interpolate(message.text), sender, LogType.Info, time, console, fs);
    }

    /** `Warning(object)`. */
    method WarningObject(message: ObjectValue, sender: string, time: string, console: Console, fs: FileSystem)
      returns (outcome: Outcome)
      modifies console, fs
      ensures message.Null? ==> outcome == Thrown(NullReference) && unchanged(console) && unchanged(fs)
      ensures message.Instance? ==> Sent(console, fs, Interpolate(message.text), sender, LogType.Warning, time, outcome)
    {
      if message.Null? {
        return Thrown(NullReference);
      }
      outcome := Send(Interpolate(message.text), sender, LogType.Warning, time, console, fs);
    }

    /** `Error(object)`. */
    method ErrorObject(message: ObjectValue, sender: string, time: string, console: Console, fs: FileSystem)
      returns (outcome: Outcome)
      modifies console, fs
      ensures message.Null? ==> outcome == Thrown(NullReference) && unchanged(console) && unchanged(fs)
      ensures message.Instance? ==> Sent(console, fs, Interpolate(message.text), sender, LogType.Error, time, outcome)
    {
      if message.Null? {
        return Thrown(NullReference);
      }
      outcome := Send(Interpolate(message.text), sender, LogType.Error, time, console, fs);
    }
  }
}
