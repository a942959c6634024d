/** An abstract file system: a set of directories and, for each existing
    file, its lines. */
module Files {

  /** The lines of `path`, none when it does not exist. */
  function LinesOf(files: map<string, seq<string>>, path: string): seq<string>
  {
    if path in files then files[path] else []
  }

  /** The files after one line is appended to `path` (opened with
      `FileMode.Append`, which creates a missing file): exactly one line is
      added at the end of that file, and no other file changes. */
  function Appended(files: map<string, seq<string>>, path: string, line: string): (r: map<string, seq<string>>)
    ensures r.Keys == files.Keys + {path}
    ensures r[path] == LinesOf(files, path) + [line]
    ensures forall p :: p in files && p != path ==> r[p] == files[p]
  {
    files[path := LinesOf(files, path) + [line]]
  }

  /** The files after `path` is created empty unless it already exists: an
      existing file keeps every line, and no other file changes. */
  function CreatedIfAbsent(files: map<string, seq<string>>, path: string): (r: map<string, seq<string>>)
    ensures r.Keys == files.Keys + {path}
    ensures path in files ==> r[path] == files[path]
    ensures path !in files ==> r[path] == []
    ensures forall p :: p in files && p != path ==> r[p] == files[p]
  {
    if path in files then files else files[path := []]
  }

  class FileSystem {
    var directories: set<string>
    var files: map<string, seq<string>>

    constructor (directories: set<string>, files: map<string, seq<string>>)
      ensures this.directories == directories && this.files == files
    {
      this.directories := directories;
      this.files := files;
    }

    /** `Directory.Exists`. */
    predicate DirectoryExists(path: string)
      reads this
    {
      path in directories
    }

    /** `File.Exists`. */
    predicate FileExists(path: string)
      reads this
    {
      path in files
    }

    /** `Directory.CreateDirectory`. */
    method CreateDirectory(path: string)
      modifies this
      ensures directories == old(directories) + {path}
      ensures files == old(files)
    {
      directories := directories + {path};
    }

    /** `File.Create(path).Close()`: leaves an empty file at `path`,
        truncating one that exists. */
    method CreateFile(path: string)
      modifies this
      ensures files == old(files)[path := []]
      ensures directories == old(directories)
    {
      files := files[path := []];
    }

    /** Opening `path` with `FileMode.Append` and writing one line. */
    method AppendLine(path: string, line: string)
      modifies this
      ensures files == Appended(old(files), path, line)
      ensures directories == old(directories)
    {
      files := files[path := LinesOf(files, path) + [line]];
    }
  }
}
