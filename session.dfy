/** Where a session's log file lives: the directory, the file path and the
    stamp in its name, and what opening a session does to the file system. */
module Session {
  import opened Runtime
  import opened Files

  /** The default directory, `<base directory>logs\`. */
  function DefaultDirectory(baseDirectory: string): string
  {
    baseDirectory + "logs\\"
  }

  /** The directory a `Logger` writes to: the default when the argument is
      null or empty, the argument itself otherwise; never empty. */
  function ChosenDirectory(logDirPath: Option<string>, baseDirectory: string): (dir: string)
    ensures (logDirPath == None || logDirPath == Some("")) ==> dir == DefaultDirectory(baseDirectory)
    ensures logDirPath.Some? && logDirPath.value != "" ==> dir == logDirPath.value
    ensures dir != ""
  {
    match logDirPath
    case Some(d) => if d == "" then DefaultDirectory(baseDirectory) else d
    case None => DefaultDirectory(baseDirectory)
  }

  /** The session file: the directory, then `session-<stamp>.log`. No
      separator is inserted after the directory. */
  function SessionPath(dir: string, stamp: string): string
  {
    dir + "session-" + stamp + ".log"
  }

  /** Distinct stamps in one directory name distinct files. */
  lemma SessionPathInjective(dir: string, s1: string, s2: string)
    ensures SessionPath(dir, s1) == SessionPath(dir, s2) ==> s1 == s2
  {
    var p1, p2 := SessionPath(dir, s1), SessionPath(dir, s2);
    if p1 == p2 {
      var k := |dir + "session-"|;
      assert |p1| == k + |s1| + 4 && |p2| == k + |s2| + 4;
      assert p1 == (dir + "session-") + s1 + ".log";
      assert p2 == (dir + "session-") + s2 + ".log";
      assert s1 == p1[k..|p1| - 4];
      assert s2 == p2[k..|p2| - 4];
    }
  }

  /** The directories and, for each file, its lines. */
  datatype Disk = Disk(directories: set<string>, files: map<string, seq<string>>)

  /** The disk after a session is opened: the directory and the session file
      exist; the file is empty when it was absent and keeps every earlier
      line when it was present; no other directory or file is added, and no
      other file changes. */
  function Opened(disk: Disk, dir: string, path: string): (r: Disk)
    ensures dir in r.directories && path in r.files
    ensures forall d :: d in r.directories <==> d in disk.directories || d == dir
    ensures path in disk.files ==> r.files[path] == disk.files[path]
    ensures path !in disk.files ==> r.files[path] == []
    ensures forall p :: p in r.files <==> p in disk.files || p == path
    ensures forall p :: p in disk.files && p != path ==> r.files[p] == disk.files[p]
  {
    Disk(disk.directories + {dir}, CreatedIfAbsent(disk.files, path))
  }

  /** Opening the same session twice is the same as opening it once: no
      line of the first opening's file is lost. */
  lemma OpenedIdempotent(disk: Disk, dir: string, path: string)
    ensures Opened(Opened(disk, dir, path), dir, path) == Opened(disk, dir, path)
  {
  }

  // ---- The session stamp ----------------------------------------------------

  /** A local date and time, to the second. */
  datatype LocalTime = LocalTime(year: int, month: int, day: int, hour: int, minute: int, second: int)
  {
    predicate Valid() {
      && 1 <= year <= 9999 && 1 <= month <= 12 && 1 <= day <= 31
      && 0 <= hour < 24 && 0 <= minute < 60 && 0 <= second < 60
    }
  }

  function Pow10(n: nat): (r: nat)
    ensures r >= 1
  {
    if n == 0 then 1 else 10 * Pow10(n - 1)
  }

  /** `n` in exactly `width` decimal digits, with leading zeros. */
  function Digits(n: nat, width: nat): (r: string)
    ensures |r| == width
    ensures forall i :: 0 <= i < |r| ==> '0' <= r[i] <= '9'
  {
    if width == 0 then "" else Digits(n / 10, width - 1) + ["0123456789"[n % 10]]
  }

  /** The number a string of decimal digits stands for. */
  function Value(s: string): nat
  {
    if s == [] then 0
    else
      var c := s[|s| - 1];
      10 * Value(s[..|s| - 1]) + (if '0' <= c <= '9' then (c - '0') as nat else 0)
  }

  /** Reading back a fixed-width numeral gives the number. */
  lemma {:induction false} ValueOfDigits(n: nat, width: nat)
    requires n < Pow10(width)
    ensures Value(Digits(n, width)) == n
  {
    if width > 0 {
      var d := Digits(n, width);
      assert d[..|d| - 1] == Digits(n / 10, width - 1);
      ValueOfDigits(n / 10, width - 1);
      assert "0123456789"[n % 10] - '0' == (n % 10) as char;
    }
  }

  /** The hour of a 12-hour clock (`hh`): 12, 1, ..., 11. */
  function Hour12(hour: int): int
  {
    if hour % 12 == 0 then 12 else hour % 12
  }

  /** The stamp as the source formats it, `yyyy-MM-dd-hh-mm-ss`: the hour is
      on a 12-hour clock and no AM/PM mark is written. */
  function StampAsWritten(t: LocalTime): string
    requires t.Valid()
  {
    Digits(t.year, 4) + "-" + Digits(t.month, 2) + "-" + Digits(t.day, 2) + "-"
    + Digits(Hour12(t.hour), 2) + "-" + Digits(t.minute, 2) + "-" + Digits(t.second, 2)
  }

  /** The stamp with the hour on a 24-hour clock, `yyyy-MM-dd-HH-mm-ss`. */
  function Stamp(t: LocalTime): (r: string)
    requires t.Valid()
    ensures |r| == 19
  {
    Digits(t.year, 4) + "-" + Digits(t.month, 2) + "-" + Digits(t.day, 2) + "-"
    + Digits(t.hour, 2) + "-" + Digits(t.minute, 2) + "-" + Digits(t.second, 2)
  }

  /** Reads a 24-hour stamp back. */
  function ParseStamp(s: string): Option<LocalTime>
  {
    if |s| != 19 then None
    else Some(LocalTime(Value(s[0..4]), Value(s[5..7]), Value(s[8..10]),
                        Value(s[11..13]), Value(s[14..16]), Value(s[17..19])))
  }

  /** The 24-hour stamp loses nothing: reading it back gives the time. */
  lemma StampRoundTrip(t: LocalTime)
    requires t.Valid()
    ensures ParseStamp(Stamp(t)) == Some(t)
  {
    var y, mo, d, h, mi, s :=
      Digits(t.year, 4), Digits(t.month, 2), Digits(t.day, 2),
      Digits(t.hour, 2), Digits(t.minute, 2), Digits(t.second, 2);
    var st := Stamp(t);
    assert st == y + "-" + mo + "-" + d + "-" + h + "-" + mi + "-" + s;
    assert st[0..4] == y;
    assert st[5..7] == mo;
    assert st[8..10] == d;
    assert st[11..13] == h;
    assert st[14..16] == mi;
    assert st[17..19] == s;
    assert Pow10(2) == 100 && Pow10(4) == 10000;
    ValueOfDigits(t.year, 4);
    ValueOfDigits(t.month, 2);
    ValueOfDigits(t.day, 2);
    ValueOfDigits(t.hour, 2);
    ValueOfDigits(t.minute, 2);
    ValueOfDigits(t.second, 2);
  }

  /** Sessions opened at different seconds get different 24-hour stamps,
      hence different files. */
  lemma StampInjective(dir: string, t1: LocalTime, t2: LocalTime)
    requires t1.Valid() && t2.Valid() && t1 != t2
    ensures SessionPath(dir, Stamp(t1)) != SessionPath(dir, Stamp(t2))
  {
    StampRoundTrip(t1);
    StampRoundTrip(t2);
    SessionPathInjective(dir, Stamp(t1), Stamp(t2));
  }

  /** With the 12-hour stamp, a session opened twelve hours after another
      (same date, before noon and after noon) gets the same file. */
  lemma StampAsWrittenCollides(t: LocalTime)
    requires t.Valid() && t.hour < 12
    ensures var later := t.(hour := t.hour + 12);
      later.Valid() && later != t && StampAsWritten(later) == StampAsWritten(t)
  {
  }

  /** So the afternoon session does not start a file of its own: on any disk
      that holds the morning session's file, with whatever lines the morning
      session logged, opening the afternoon session keeps exactly those
      lines. */
  lemma AfternoonSessionReusesMorningFile(disk: Disk, dir: string, t: LocalTime)
    requires t.Valid() && t.hour < 12
    requires SessionPath(dir, StampAsWritten(t)) in disk.files
    ensures var later := t.(hour := t.hour + 12);
      var path := SessionPath(dir, StampAsWritten(later));
      Opened(disk, dir, path).files[path] == disk.files[SessionPath(dir, StampAsWritten(t))]
  {
    StampAsWrittenCollides(t);
  }
}
