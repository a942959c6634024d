/** The instance logger `Timersky.Log.Logger`: each construction opens a
    session file and points the static path, shared by every instance, at
    it; each `Info`/`Warning`/`Error` call appends a line to that file when
    the path is set and renders the record on the console. */
module InstanceLog {
  import opened Runtime
  import opened LogTypes
  import opened Terminal
  import opened Files
  import opened Records
  import opened ConsoleRenderer
  import opened Session

  /** `Logger._logNames`: a label for each of the three named levels and
      for nothing else, every label eleven characters wide. */
  function LogNames(): (m: map<LogType, string>)
    ensures m.Keys == {Info, Warning, Error}
    ensures forall t :: t in m ==> |m[t]| == 11
  {
    map[Info := "INFORMATION", Warning := "  WARNING  ", Error := "   ERROR   "]
  }

  /** The static field `Logger._logFilePath`: one object shared by every
      `Logger`, null until the first construction. */
  class SharedPath {
    var logFilePath: Option<string>

    constructor ()
      ensures logFilePath == None
    {
      logFilePath := None;
    }
  }

  class Logger {
    const shared: SharedPath

    /** `new Logger(logDirPath)`: chooses the directory, points the shared
        path at `session-<stamp>.log` in it (for every instance, not only
        this one), then creates the directory and the file when they are
        missing; an existing file keeps its lines. */
    constructor (shared: SharedPath, logDirPath: Option<string>, baseDirectory: string, stamp: string, fs: FileSystem)
      modifies shared, fs
      ensures this.shared == shared
      ensures shared.logFilePath == Some(SessionPath(ChosenDirectory(logDirPath, baseDirectory), stamp))
      ensures Disk(fs.directories, fs.files)
              == Opened(old(Disk(fs.directories, fs.files)), ChosenDirectory(logDirPath, baseDirectory),
                        SessionPath(ChosenDirectory(logDirPath, baseDirectory), stamp))
    {
      this.shared := shared;
      new;
      var dir := ChosenDirectory(logDirPath, baseDirectory);

      shared.logFilePath := Some(SessionPath(dir, stamp));

      if !fs.DirectoryExists(dir) {
        fs.CreateDirectory(dir);
      }

      if !fs.FileExists(shared.logFilePath.value) {
        fs.CreateFile(shared.logFilePath.value);
      }
    }

    /** The effect of `Send`. With a path, exactly one line is appended to
        the session file and no other file changes; without one, no file
        changes. Either way the record is rendered on the console. */
    twostate predicate Sent(console: Console, fs: FileSystem, message: string, sender: string,
                            level: LogType, time: string, outcome: Outcome)
      reads shared, console, fs
    {
      && (match shared.logFilePath
          case None => unchanged(fs)
          case Some(path) =>
            && fs.files == Appended(old(fs.files), path, FileLine(time, level, sender, message))
            && fs.directories == old(fs.directories))
      && Rendered(console, LogNames(), level, sender, message, outcome)
    }

    method Send(message: string, sender: string, level: LogType, time: string, console: Console, fs: FileSystem)
      returns (outcome: Outcome)
      modifies console, fs
      ensures Sent(console, fs, message, sender, level, time, outcome)
    {
      if shared.logFilePath != None {
        fs.AppendLine(shared.logFilePath.value, FileLine(time, level, sender, message));
      }
      outcome := Render(console, LogNames(), level, sender, message);
    }

    /** `Info(string)`: sends the message at level Info. */
    method Info(message: string, sender: string, time: string, console: Console, fs: FileSystem)
      returns (outcome: Outcome)
      modifies console, fs
      ensures Sent(console, fs, message, sender, LogType.Info, time, outcome)
      ensures outcome == Done
    {
      outcome := Send(message, sender, LogType.Info, time, console, fs);
    }

    /** `Warning(string)`: sends the message at level Warning. */
    method Warning(message: string, sender: string, time: string, console: Console, fs: FileSystem)
      returns (outcome: Outcome)
      modifies console, fs
      ensures Sent(console, fs, message, sender, LogType.Warning, time, outcome)
      ensures outcome == Done
    {
      outcome := Send(message, sender, LogType.Warning, time, console, fs);
    }

    /** `Error(string)`: sends the message at level Error. */
    method Error(message: string, sender: string, time: string, console: Console, fs: FileSystem)
      returns (outcome: Outcome)
      modifies console, fs
      ensures Sent(console, fs, message, sender, LogType.Error, time, outcome)
      ensures outcome == Done
    {
      outcome := Send(message, sender, LogType.Error, time, console, fs);
    }

    /** `Info(object)`: a null object throws before anything is written;
        otherwise `message.ToString() ?? string.Empty` is sent. */
    method InfoObject(message: ObjectValue, sender: string, time: string, console: Console, fs: FileSystem)
      returns (outcome: Outcome)
      modifies console, fs
      ensures message.Null? ==> outcome == Thrown(NullReference) && unchanged(console) && unchanged(fs)
      ensures message.Instance? ==>
        outcome == Done && Sent(console, fs, Coalesce(message.text, ""), sender, LogType.Info, time, outcome)
    {
      if message.Null? {
        return Thrown(NullReference);
      }
      outcome := Send(Coalesce(message.text, ""), sender, LogType.Info, time, console, fs);
    }

    /** `Warning(object)`. */
    method WarningObject(message: ObjectValue, sender: string, time: string, console: Console, fs: FileSystem)
      returns (outcome: Outcome)
      modifies console, fs
      ensures message.Null? ==> outcome == Thrown(NullReference) && unchanged(console) && unchanged(fs)
      ensures message.Instance? ==>
        outcome == Done && Sent(console, fs, Coalesce(message.text, ""), sender, LogType.Warning, time, outcome)
    {
      if message.Null? {
        return Thrown(NullReference);
      }
      outcome := Send(Coalesce(message.text, ""), sender, LogType.Warning, time, console, fs);
    }

    /** `Error(object)`. */
    method ErrorObject(message: ObjectValue, sender: string, time: string, console: Console, fs: FileSystem)
      returns (outcome: Outcome)
      modifies console, fs
      ensures message.Null? ==> outcome == Thrown(NullReference) && unchanged(console) && unchanged(fs)
      ensures message.Instance? ==>
        outcome == Done && Sent(console, fs, Coalesce(message.text, ""), sender, LogType.Error, time, outcome)
    {
      if message.Null? {
        return Thrown(NullReference);
      }
      outcome := Send(Coalesce(message.text, ""), sender, LogType.Error, time, console, fs);
    }
  }

  /** Because the path is static, constructing a second logger redirects
      the first: a record logged through the first logger lands at the end
      of the second logger's session file. */
  method LaterLoggerRedirectsEarlier(baseDirectory: string, dirA: string, stampA: string,
                                     dirB: string, stampB: string, message: string, sender: string,
                                     time: string, console: Console, fs: FileSystem)
    returns (first: Logger, second: Logger)
    modifies console, fs
    ensures var pathB := SessionPath(ChosenDirectory(Some(dirB), baseDirectory), stampB);
      && pathB in fs.files && |fs.files[pathB]| >= 1
      && fs.files[pathB][|fs.files[pathB]| - 1] == FileLine(time, LogType.Info, sender, message)
  {
    var shared := new SharedPath();
    first := new Logger(shared, Some(dirA), baseDirectory, stampA, fs);
    second := new Logger(shared, Some(dirB), baseDirectory, stampB, fs);
    var _ := first.Info(message, sender, time, console, fs);
  }
}
