# Timersky logger, modelled in Dafny

The repository is a small console-and-file logger in C#, in two near-identical
variants: the static class `Timersky.Logger.Log` and the instance class
`Timersky.Log.Logger`. Each variant does two things:

- It opens a *session*. It chooses a log directory and points a static path
  at `<dir>session-<stamp>.log`. It creates the directory and the file only
  when they are missing, so an existing session file is never truncated.
- It *sends* a record. One `WriteLine` of `[<time>] [<level>] [<sender>]: <message>`
  is appended to the session file. This is one physical line unless the
  message, sender or time itself contains a line break. The record is then drawn on the console as
  a two-tone badge: the 11-character level label and the sender appear on an
  accent-coloured background, and the message appears in the accent colour.
  Afterwards the terminal's colours are put back.

The model keeps the source's imperative form:

- `Terminal.Console` is an abstract terminal. It holds the current
  foreground and background colours and every write, each with the colours
  it was written in.
- `Files.FileSystem` is an abstract disk. It holds a set of directories and
  a map from each file path to its lines.
- `StaticLog.Log` holds the static fields of `Log`.
- `InstanceLog.SharedPath` is the static `_logFilePath` that every
  `InstanceLog.Logger` shares.
- Each `Send` is proved against two-state specifications. `Log.Sent` and
  `Logger.Sent` describe the file half. `ConsoleRenderer.Rendered`
  describes the console half. The functions these use (`Records.FileLine`,
  `ConsoleRenderer.Badge`, `Files.Appended`, `Session.Opened`) carry their
  own lemmas: a parser round trip, the rendered text, the colour tones,
  "only that one file changes", and idempotent session opening.
- Exceptions are modelled as an `Outcome`, either `Done` or `Thrown(fault)`.
  Three faults are possible. `Log.Send` with no session path throws at the
  file open (`NullPath`), before any console output. A level without a label
  throws at the label lookup (`KeyNotFound`). This happens after the colours
  were already switched, so the terminal stays in the badge tone. An object
  overload given `null` throws (`NullReference`) before anything is written.
- `LogTypes.LogType` has the three named levels and `Other(code)`. `Other`
  stands for any other value of the enum, since a C# enum variable can hold
  any value of its underlying type. `code` ranges only over values that are
  not those of `Info`, `Warning` or `Error`. Only such values reach the
  Magenta default accent and the failing label lookup.

Behaviours the code does not have, and which the model therefore leaves out:

- No "not initialized" error is ever raised. `Log.Send` fails opening a
  null path. `Logger.Send` skips the file and still draws the console.
- There is no Debug level, no debug flag and no standard-input record.
- The default directory ends in a backslash: `<base>logs\`.
- The colours are not restored when the label lookup fails.

## Model

| member | source | states |
|---|---|---|
| `StaticLog.LogNames` | Timersky.Logger/Log.cs:66-71 | the table labels exactly Info, Warning and Error, each label exactly 11 characters |
| `InstanceLog.LogNames` | Timersky.Log/Logger.cs:43-48 | the same table in the instance variant: exactly the three named levels, each label 11 characters |
| `Variants.SameLabels` | Timersky.Log/Logger.cs:43-48 | both variants carry the same label table |
| `LogTypes.NameInjective` | Timersky.Logger/Log.cs:94 | the level's `ToString()` written into a line identifies the level: distinct levels, including unnamed enum values, have distinct names |
| `LogTypes.NameHasNoBracket` | Timersky.Logger/Log.cs:94 | no level name contains `]`, so the bracketed level field is delimited |
| `Records.FileLineRoundTrip` | Timersky.Logger/Log.cs:94 | the line `[time] [level] [sender]: message` can be parsed back into its time, level name, sender and message whenever the time and sender hold no `]` |
| `Records.FileLineInjective` | Timersky.Log/Logger.cs:56 | two records whose time and sender hold no `]` produce the same line only if they agree on time, level, sender and message |
| `ConsoleRenderer.Accent` | Timersky.Logger/Log.cs:100-107 | Cyan for Info, Yellow for Warning, Red for Error, and Magenta exactly for the values that are none of the named levels |
| `ConsoleRenderer.BadgeText` | Timersky.Logger/Log.cs:109-129 | the console text of one record is label, space, sender, colon, space, message, newline |
| `ConsoleRenderer.BadgeTones` | Timersky.Log/Logger.cs:70-90 | label and sender are written with foreground = original background and background = accent; every other write uses foreground = accent and background = original background; the original foreground is never used |
| `ConsoleRenderer.BadgeBackgrounds` | Timersky.Logger/Log.cs:109-129 | when the accent differs from the original background, exactly the label and the sender are on the accent background and the rest is on the original background |
| `ConsoleRenderer.Render` | Timersky.Logger/Log.cs:98-131 | for a labelled level: the six badge writes are appended and foreground and background end as on entry; for an unlabelled level: `KeyNotFound`, nothing written, and the terminal left in the badge tone with an accent background |
| `Files.Appended` | Timersky.Logger/Log.cs:90-96 | appending to a file opened in append mode adds exactly one `WriteLine` entry at the end of that file (creating it if absent), and no other file changes |
| `Files.CreatedIfAbsent` | Timersky.Logger/Log.cs:82-85 | an existing session file keeps all its lines; a missing one is created empty; no other file changes |
| `Session.Opened` | Timersky.Logger/Log.cs:77-85 | after a session is opened, the log directory and the session file exist; an existing file keeps every line, a missing one is empty; nothing else is added and no other file changes |
| `Session.OpenedIdempotent` | Timersky.Log/Logger.cs:18-26 | opening the same session twice leaves the disk as opening it once |
| `Session.ChosenDirectory` | Timersky.Log/Logger.cs:11-14 | a null or empty argument selects `<base>logs\`; any other argument is used verbatim; the directory is never empty |
| `Session.SessionPathInjective` | Timersky.Logger/Log.cs:75 | in one directory, the path `dir + "session-" + stamp + ".log"` determines the stamp |
| `Session.StampAsWrittenCollides` | Timersky.Logger/Log.cs:75 | with the `hh` hour, a time before noon and the time twelve hours later get the same stamp |
| `Session.AfternoonSessionReusesMorningFile` | Timersky.Logger/Log.cs:75-85 | so on any disk holding the morning session's file, opening the afternoon session keeps exactly the lines the morning session logged instead of starting an empty file |
| `Session.StampRoundTrip` | Timersky.Log/Logger.cs:16 | the stamp with a 24-hour `HH` hour can be read back into the exact local time |
| `Session.StampInjective` | Timersky.Log/Logger.cs:16 | with the `HH` hour, sessions opened at different seconds get different files |
| `StaticLog.Log.constructor` | Timersky.Logger/Log.cs:7-8 | the static state starts with the default directory and no session path |
| `StaticLog.Log.LoadLogger` | Timersky.Logger/Log.cs:73-86 | sets the path to `logDirPath + "session-" + stamp + ".log"` and opens the session on disk as `Session.Opened` describes |
| `StaticLog.Log.Send` | Timersky.Logger/Log.cs:88-132 | with no path: `NullPath` and neither console nor disk changes; otherwise exactly one `WriteLine` entry is appended to the session file and the console changes as `Render` states |
| `StaticLog.Log.Info` | Timersky.Logger/Log.cs:12-18 | sends at level Info; it completes normally once a session path is set |
| `StaticLog.Log.Warning` | Timersky.Logger/Log.cs:20-26 | sends at level Warning; it completes normally once a session path is set |
| `StaticLog.Log.Error` | Timersky.Logger/Log.cs:28-34 | sends at level Error; it completes normally once a session path is set |
| `StaticLog.Log.InfoObject` | Timersky.Logger/Log.cs:40-46 | a null object throws and changes nothing; otherwise its `ToString()` is sent at Info, with a null string as empty text |
| `StaticLog.Log.WarningObject` | Timersky.Logger/Log.cs:48-54 | as `InfoObject`, at level Warning |
| `StaticLog.Log.ErrorObject` | Timersky.Logger/Log.cs:56-62 | as `InfoObject`, at level Error |
| `InstanceLog.SharedPath.constructor` | Timersky.Log/Logger.cs:7 | the static path is null before any logger is constructed |
| `InstanceLog.Logger.constructor` | Timersky.Log/Logger.cs:9-27 | points the shared static path at the session file in the chosen directory and opens the session on disk as `Session.Opened` describes |
| `InstanceLog.Logger.Send` | Timersky.Log/Logger.cs:50-93 | with a path, exactly one `WriteLine` entry is appended to that file and no other file changes; with none, no file changes; the console is rendered in both cases |
| `InstanceLog.Logger.Info` | Timersky.Log/Logger.cs:29 | sends at level Info and always completes normally |
| `InstanceLog.Logger.Warning` | Timersky.Log/Logger.cs:30 | sends at level Warning and always completes normally |
| `InstanceLog.Logger.Error` | Timersky.Log/Logger.cs:31 | sends at level Error and always completes normally |
| `InstanceLog.Logger.InfoObject` | Timersky.Log/Logger.cs:33 | a null object throws and changes nothing; otherwise `message.ToString() ?? string.Empty` is sent at Info |
| `InstanceLog.Logger.WarningObject` | Timersky.Log/Logger.cs:34 | as `InfoObject`, at level Warning |
| `InstanceLog.Logger.ErrorObject` | Timersky.Log/Logger.cs:35 | as `InfoObject`, at level Error |
| `InstanceLog.LaterLoggerRedirectsEarlier` | Timersky.Log/Logger.cs:7-16 | the path is static, so after a second construction a record logged through the first logger ends the second logger's session file |
| `Variants.SameObjectText` | Timersky.Log/Logger.cs:33-35 | the two variants' object overloads send the same text: interpolating a null `ToString()` result gives the empty text that `?? string.Empty` supplies |

## Findings

| source | as written | input that shows it | evidently intended | confidence | as-written member | corrected member |
|---|---|---|---|---|---|---|
| Timersky.Logger/Log.cs:75 (also Timersky.Log/Logger.cs:16) | the session stamp uses `hh`, a 12-hour hour with no AM/PM mark | sessions opened on the same date at 01:00:00 and at 13:00:00 both get `session-<date>-01-00-00.log`, so the second session appends to the first session's file | `HH`, a 24-hour hour, so that each second of a day names its own file | medium, not executed | `Session.StampAsWrittenCollides` | `Session.StampInjective` |

`LoadLogger` and the `Logger` constructor take the stamp as text. The model
has no clock. `Session.Stamp` is the corrected format a caller should supply.
`Session.StampAsWritten` is the format the source uses.

## Left out

- Caller resolution through `StackFrame` (`GetSender`, and the `StackFrame(1)` blocks in `Log`) is reflection over the runtime call stack, so the sender is an input string.
- `DateTime.UtcNow` and the record timestamp format `yyyy-MM-dd HH:mm:ss:ffff` are not modelled; the formatted time is an input string. Only the session stamp format is modelled, in `Session`.
- `AppDomain.CurrentDomain.BaseDirectory` is an input string.
- Real devices are not modelled: `FileStream`, `StreamWriter`, handle lifetimes, the newline `WriteLine` adds (a file is a sequence of lines) and OS errors. This includes a missing directory, permissions and a full disk. `Directory.CreateDirectory` adds one entry to the set of directories and does not model parent directories.
- The console and the disk are separate objects, so the order of file and console effects appears only through the failure paths. With no path, `Log.Send` fails before any console write. A missing label fails after the line was appended.
- Concurrency between threads sharing the terminal colours or the static path is not modelled: the source has no synchronisation.
- `LoggerNotInitializedException` is never thrown by the modelled code.
- Line breaks inside a record are not modelled: a file holds one entry per `WriteLine` call. When the message, sender or time contains a line break (for example an exception's multi-line `ToString()` passed to `Error(object)`), the real file gets several physical lines, and `Records.ParseLine` reads back the `WriteLine` entry, not the physical lines.
- Static fields are objects the caller passes in (`StaticLog.Log`, `InstanceLog.SharedPath`). Nothing limits a process to one such object, so two `SharedPath` objects would give two loggers separate paths, which the source cannot do. The redirect shown by `InstanceLog.LaterLoggerRedirectsEarlier` holds because that method passes one object to both loggers, as the one static field forces in the source.
- The declaration of `LogType` is not part of this model. If the enum has named members beyond Info, Warning and Error, their `ToString()` would be their name, whereas `Other(code)` is written as its number.
- A null string passed to a string overload is not modelled separately. String interpolation renders it as empty text, so it behaves as `""`.
- Each `Console.Write` call is recorded as one segment, including a write of empty text.
